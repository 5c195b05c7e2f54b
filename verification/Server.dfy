/** The peer's side of a staged apply: the state the server keeps between calls, and what each remote
    call does to it. File-system work is named by `Op`; its outcomes are inputs. */
module Server {
  import opened Wrappers

  type AttemptId = string
  type StreamId = nat

  /** A manifest in memory, by where it comes from: emptied; what a run holds after `n` waves; loaded with
      the scan `scan`; with its scoped part replaced by what a scan saw; merged with the results of a staged
      commit or of a legacy one. */
  datatype Provenance =
    | Cleared
    | Waves(n: nat)
    | Scanned(scan: nat)
    | Rescoped(base: Provenance)
    | Staged(base: Provenance)
    | Applied(base: Provenance)

  datatype Stream = Legacy(base: Provenance) | StagedStream(attempt: AttemptId, base: Provenance)

  datatype Attempt =
    | NoAttempt
    | Preparing(attempt: AttemptId, stream: Option<StreamId>)
    | Prepared(attempt: AttemptId, base: Provenance)
    | Committing(attempt: AttemptId)
    | Committed(attempt: AttemptId, saveStarted: bool, saved: bool)
    | Aborted(attempt: AttemptId)

  datatype State = State(
    changesReady: bool,
    actionsReady: bool,
    allOld: Provenance,
    staged: Attempt,
    streams: map<StreamId, Stream>,
    nextId: StreamId)

  datatype Request =
    | SetBase
    | SetRemoteStateDir
    | GetChanges(scan: nat, migration: bool)
    | PrepareMigration
    | SetActions
    | ApplyDetails
    | BeginApply
    | FinishApply(stream: StreamId)
    | Begin(attempt: AttemptId)
    | FinishPrepare(stream: StreamId, attempt: AttemptId)
    | Validate(attempt: AttemptId)
    | Abort(attempt: AttemptId)
    | Commit(attempt: AttemptId)
    | SaveState(attempt: AttemptId)
    | Complete(attempt: AttemptId)

  datatype Reply = Refused | Done | Opened(stream: StreamId)

  /** The work a request can need; some work owns what was prepared for it. */
  datatype Op =
    | ResolveBase | Rescan | AcceptActions | StartLegacy | FinishLegacy(base: Provenance) | MarkLegacy
    | CreateMarker | SealOutputs(base: Provenance) | CheckOutputs | RemoveMarker | InspectMarker
    | PublishOutputs(base: Provenance) | MarkStateSave | WriteSnapshot | FinishMarker

  /** `Found` is the answer of `InspectMarker` when there still is a marker. */
  datatype Outcome = Failed | Succeeded | Found

  datatype Next = Answer(reply: Reply) | Run(op: Op)

  const INITIAL := State(false, false, Cleared, NoAttempt, map[], 1)

  function StagedOnly(streams: map<StreamId, Stream>): map<StreamId, Stream> {
    map k | k in streams && streams[k].StagedStream? :: streams[k]
  }

  /** Forgetting the actions drops every stream except staged ones. */
  function ResetActions(s: State): State {
    s.(actionsReady := false, streams := StagedOnly(s.streams))
  }

  function ResetChanges(s: State): State {
    ResetActions(s.(changesReady := false, allOld := Cleared))
  }

  predicate SingleLine(attempt: AttemptId) {
    attempt != "" && '\n' !in attempt && '\r' !in attempt
  }

  /** The manifest that a staged commit makes of its base. */
  function Advanced(m: Provenance): Provenance {
    if m.Waves? then Waves(m.n + 1) else Staged(m)
  }

  predicate IsPrepared(s: State, id: AttemptId) {
    s.staged.Prepared? && s.staged.attempt == id
  }

  predicate IsCommitted(s: State, id: AttemptId) {
    s.staged.Committed? && s.staged.attempt == id
  }

  function When(condition: bool, op: Op): Next {
    if condition then Run(op) else Answer(Refused)
  }

  /** How a request starts: it is answered at once, or it needs work. What the program takes out
      of its state while the work runs is, here, put back or replaced when the work ends. */
  function Enter(s: State, req: Request): (State, Next) {
    match req
    case SetBase => (s, Run(ResolveBase))
    case SetRemoteStateDir => (ResetChanges(s), Answer(Done))
    case GetChanges(_, _) => (ResetChanges(s), Run(Rescan))
    case PrepareMigration =>
      if s.changesReady then (s.(allOld := Rescoped(s.allOld)), Answer(Done)) else (s, Answer(Refused))
    case SetActions => (ResetActions(s), When(s.changesReady, AcceptActions))
    case ApplyDetails => (s, When(s.changesReady && s.actionsReady, FinishLegacy(s.allOld)))
    case BeginApply => (s, When(s.changesReady && s.actionsReady, StartLegacy))
    case FinishApply(k) =>
      if k in s.streams && s.streams[k].Legacy? then (s.(streams := s.streams - {k}), Run(FinishLegacy(s.streams[k].base)))
      else (s, Answer(Refused))
    case Begin(id) =>
      (s, When(SingleLine(id) && s.changesReady && s.actionsReady && (s.staged.NoAttempt? || s.staged.Aborted?), CreateMarker))
    case FinishPrepare(k, id) =>
      if s.staged == Preparing(id, Some(k)) && k in s.streams && s.streams[k].StagedStream? then
        (s.(streams := s.streams - {k}, staged := Preparing(id, None)), Run(SealOutputs(s.streams[k].base)))
      else (s, Answer(Refused))
    case Validate(id) => (s, When(IsPrepared(s, id), CheckOutputs))
    case Abort(id) =>
      (match s.staged
       case Preparing(active, Some(k)) =>
         if active == id then (s.(streams := s.streams - {k}, staged := Preparing(id, None)), Run(RemoveMarker))
         else (s, Answer(Refused))
       case Preparing(active, None) => (s, When(active == id, RemoveMarker))
       case Prepared(active, _) => (s, When(active == id, RemoveMarker))
       case Aborted(active) => (s, When(active == id, InspectMarker))
       case _ => (s, Answer(Refused)))
    case Commit(id) =>
      if IsPrepared(s, id) then (s.(staged := Committing(id)), Run(PublishOutputs(s.staged.base))) else (s, Answer(Refused))
    case SaveState(id) =>
      (s, if !IsCommitted(s, id) then Answer(Refused)
          else if s.staged.saved then Answer(Done)
          else Run(if s.staged.saveStarted then WriteSnapshot else MarkStateSave))
    case Complete(id) => (s, When(IsCommitted(s, id) && s.staged.saved, FinishMarker))
  }

  /** How a request goes on when its work failed. */
  function GiveUp(s: State, req: Request, op: Op): State {
    match req
    case Abort(id) => s.(staged := if op.InspectMarker? then NoAttempt else Preparing(id, None))
    case _ => s
  }

  /** How a request goes on when its work is done. */
  function GoOn(s: State, req: Request, op: Op, found: bool): (State, Next) {
    match req
    case SetBase => (ResetChanges(s), Answer(Done))
    case SetRemoteStateDir => (s, Answer(Done))
    case GetChanges(scan, migration) =>
      (s.(changesReady := true, allOld := if migration then Rescoped(Scanned(scan)) else Scanned(scan)), Answer(Done))
    case PrepareMigration => (s, Answer(Done))
    case ApplyDetails => if op.FinishLegacy? then (s.(allOld := Applied(op.base)), Run(MarkLegacy)) else (s, Answer(Done))
    case SetActions => (s.(actionsReady := true), Answer(Done))
    case BeginApply =>
      (s.(streams := s.streams[s.nextId := Legacy(s.allOld)], nextId := s.nextId + 1), Answer(Opened(s.nextId)))
    case FinishApply(_) =>
      if op.FinishLegacy? then (s.(allOld := Applied(op.base)), Run(MarkLegacy)) else (s, Answer(Done))
    case Begin(id) =>
      (s.(streams := s.streams[s.nextId := StagedStream(id, s.allOld)], nextId := s.nextId + 1,
          staged := Preparing(id, Some(s.nextId))), Answer(Opened(s.nextId)))
    case FinishPrepare(_, id) => (if op.SealOutputs? then s.(staged := Prepared(id, op.base)) else s, Answer(Done))
    case Validate(_) => (s, Answer(Done))
    case Abort(id) => (s.(staged := Aborted(id)), Answer(if found then Refused else Done))
    case Commit(id) =>
      (if op.PublishOutputs? then s.(allOld := Advanced(op.base), staged := Committed(id, false, false)) else s, Answer(Done))
    case SaveState(id) =>
      if op.MarkStateSave? then (s.(staged := Committed(id, true, false)), Run(WriteSnapshot))
      else (s.(staged := Committed(id, true, true)), Answer(Done))
    case Complete(_) => (s.(staged := NoAttempt), Answer(Done))
  }

  function Resume(s: State, req: Request, op: Op, outcome: Outcome): (State, Next) {
    if outcome.Failed? then (GiveUp(s, req, op), Answer(Refused))
    else GoOn(s, req, op, op.InspectMarker? && outcome.Found?)
  }

  /** A call: a request, and how the at most two pieces of work it needs turn out. */
  datatype Call = Call(req: Request, first: Outcome, second: Outcome)

  datatype Handled = Handled(state: State, reply: Reply)

  function Handle(s: State, call: Call): Handled {
    var (s1, n1) := Enter(s, call.req);
    if n1.Answer? then Handled(s1, n1.reply)
    else
      var (s2, n2) := Resume(s1, call.req, n1.op, call.first);
      if n2.Answer? then Handled(s2, n2.reply)
      else
        var (s3, n3) := Resume(s2, call.req, n2.op, call.second);
        Handled(s3, if n3.Answer? then n3.reply else Refused)
  }

  // ----- The server object -----

  class DuetServer {
    var changesReady: bool
    var actionsReady: bool
    var allOld: Provenance
    var staged: Attempt
    var streams: map<StreamId, Stream>
    var nextId: StreamId

    ghost function View(): State
      reads this
    {
      State(changesReady, actionsReady, allOld, staged, streams, nextId)
    }

    constructor ()
      ensures View() == INITIAL
    {
      changesReady, actionsReady, allOld, staged, streams, nextId := false, false, Cleared, NoAttempt, map[], 1;
    }

    method ResetActionsContext()
      modifies this
      ensures View() == ResetActions(old(View()))
    {
      actionsReady := false;
      streams := StagedOnly(streams);
    }

    method ResetChangesContext()
      modifies this
      ensures View() == ResetChanges(old(View()))
    {
      changesReady := false;
      allOld := Cleared;
      ResetActionsContext();
    }

    method SetBaseDirectory(resolve: Outcome) returns (reply: Reply)
      modifies this
      ensures Handled(View(), reply) == Handle(old(View()), Call(SetBase, resolve, Failed))
    {
      if resolve.Failed? {
        return Refused;
      }
      ResetChangesContext();
      return Done;
    }

    method SetStateDirectory() returns (reply: Reply)
      modifies this
      ensures Handled(View(), reply) == Handle(old(View()), Call(SetRemoteStateDir, Failed, Failed))
    {
      ResetChangesContext();
      return Done;
    }

    method ScanChanges(scan: nat, migrationNeeded: bool, rescan: Outcome) returns (reply: Reply)
      modifies this
      ensures Handled(View(), reply) == Handle(old(View()), Call(GetChanges(scan, migrationNeeded), rescan, Failed))
    {
      ResetChangesContext();
      if rescan.Failed? {
        return Refused;
      }
      allOld := Scanned(scan);
      if migrationNeeded {
        allOld := Rescoped(allOld);
      }
      changesReady := true;
      return Done;
    }

    method PrepareMigrationV2() returns (reply: Reply)
      modifies this
      ensures Handled(View(), reply) == Handle(old(View()), Call(PrepareMigration, Failed, Failed))
    {
      if !changesReady {
        return Refused;
      }
      allOld := Rescoped(allOld);
      return Done;
    }

    method ApplyDetailedChanges(apply: Outcome, mark: Outcome) returns (reply: Reply)
      modifies this
      ensures Handled(View(), reply) == Handle(old(View()), Call(ApplyDetails, apply, mark))
    {
      if !changesReady || !actionsReady || apply.Failed? {
        return Refused;
      }
      allOld := Applied(allOld);
      return if mark.Failed? then Refused else Done;
    }

    method AcceptActionList(accept: Outcome) returns (reply: Reply)
      modifies this
      ensures Handled(View(), reply) == Handle(old(View()), Call(SetActions, accept, Failed))
    {
      ResetActionsContext();
      if !changesReady || accept.Failed? {
        return Refused;
      }
      actionsReady := true;
      return Done;
    }

    method NextStreamId() returns (id: StreamId)
      modifies this`nextId
      ensures id == old(nextId) && nextId == id + 1
    {
      id := nextId;
      nextId := nextId + 1;
    }

    method BeginApplyStream(start: Outcome) returns (reply: Reply)
      modifies this
      ensures Handled(View(), reply) == Handle(old(View()), Call(BeginApply, start, Failed))
    {
      if !changesReady || !actionsReady || start.Failed? {
        return Refused;
      }
      var id := NextStreamId();
      streams := streams[id := Legacy(allOld)];
      return Opened(id);
    }

    method FinishApplyStream(stream: StreamId, finish: Outcome, mark: Outcome) returns (reply: Reply)
      modifies this
      ensures Handled(View(), reply) == Handle(old(View()), Call(FinishApply(stream), finish, mark))
    {
      if stream in streams && streams[stream].StagedStream? {
        return Refused;
      }
      if stream !in streams {
        return Refused;
      }
      var applier := streams[stream];
      streams := streams - {stream};
      if finish.Failed? {
        return Refused;
      }
      allOld := Applied(applier.base);
      return if mark.Failed? then Refused else Done;
    }

    method BeginStagedApply(attempt: AttemptId, create: Outcome) returns (reply: Reply)
      modifies this
      ensures Handled(View(), reply) == Handle(old(View()), Call(Begin(attempt), create, Failed))
    {
      if !SingleLine(attempt) || !changesReady || !actionsReady {
        return Refused;
      }
      if !staged.NoAttempt? && !staged.Aborted? {
        return Refused;
      }
      if create.Failed? {
        return Refused;
      }
      var id := NextStreamId();
      streams := streams[id := StagedStream(attempt, allOld)];
      staged := Preparing(attempt, Some(id));
      return Opened(id);
    }

    method FinishStagedPrepare(stream: StreamId, attempt: AttemptId, seal: Outcome) returns (reply: Reply)
      modifies this
      ensures Handled(View(), reply) == Handle(old(View()), Call(FinishPrepare(stream, attempt), seal, Failed))
    {
      if staged != Preparing(attempt, Some(stream)) {
        return Refused;
      }
      if stream !in streams {
        return Refused;
      }
      var applier := streams[stream];
      streams := streams - {stream};
      if !applier.StagedStream? {
        streams := streams[stream := applier];
        assert streams == old(streams);
        return Refused;
      }
      staged := Preparing(attempt, None);
      if seal.Failed? {
        return Refused;
      }
      staged := Prepared(attempt, applier.base);
      return Done;
    }

    /** Validation only looks. */
    method ValidateStagedApply(attempt: AttemptId, check: Outcome) returns (reply: Reply)
      ensures Handled(View(), reply) == Handle(View(), Call(Validate(attempt), check, Failed))
    {
      if !staged.Prepared? || staged.attempt != attempt || check.Failed? {
        return Refused;
      }
      return Done;
    }

    method AbortStagedApply(attempt: AttemptId, outcome: Outcome) returns (reply: Reply)
      modifies this
      ensures Handled(View(), reply) == Handle(old(View()), Call(Abort(attempt), outcome, Failed))
    {
      var taken := staged;
      staged := NoAttempt;
      if taken.NoAttempt? {
        return Refused;
      }
      if taken.attempt == attempt && (taken.Preparing? || taken.Prepared?) {
        if taken.Preparing? && taken.stream.Some? {
          streams := streams - {taken.stream.value};
        }
        if outcome.Failed? {
          staged := Preparing(attempt, None);
          return Refused;
        }
        staged := Aborted(attempt);
        return Done;
      } else if taken.attempt == attempt && taken.Aborted? {
        if outcome.Failed? {
          return Refused;
        }
        staged := Aborted(attempt);
        return if outcome.Found? then Refused else Done;
      }
      staged := taken;
      return Refused;
    }

    method CommitStagedApply(attempt: AttemptId, publish: Outcome) returns (reply: Reply)
      modifies this
      ensures Handled(View(), reply) == Handle(old(View()), Call(Commit(attempt), publish, Failed))
    {
      var taken := staged;
      staged := NoAttempt;
      if taken.NoAttempt? {
        return Refused;
      }
      if !taken.Prepared? || taken.attempt != attempt {
        staged := taken;
        return Refused;
      }
      staged := Committing(attempt);
      if publish.Failed? {
        return Refused;
      }
      allOld := Advanced(taken.base);
      staged := Committed(attempt, false, false);
      return Done;
    }

    /** Marks at most once, and saves at most once; a retry continues where the last one failed. */
    method SaveStagedStatePending(attempt: AttemptId, first: Outcome, second: Outcome) returns (reply: Reply)
      modifies this
      ensures Handled(View(), reply) == Handle(old(View()), Call(SaveState(attempt), first, second))
    {
      if !staged.Committed? || staged.attempt != attempt {
        return Refused;
      }
      if staged.saved {
        return Done;
      }
      var write := first;
      if !staged.saveStarted {
        if first.Failed? {
          return Refused;
        }
        staged := staged.(saveStarted := true);
        write := second;
      }
      if write.Failed? {
        return Refused;
      }
      staged := staged.(saved := true);
      return Done;
    }

    method CompleteStagedApply(attempt: AttemptId, finish: Outcome) returns (reply: Reply)
      modifies this
      ensures Handled(View(), reply) == Handle(old(View()), Call(Complete(attempt), finish, Failed))
    {
      if !staged.Committed? || staged.attempt != attempt || !staged.saved || finish.Failed? {
        return Refused;
      }
      staged := NoAttempt;
      return Done;
    }
  }

  // ----- Every reachable state -----

  /** A staged stream exists exactly while the attempt that opened it is still receiving details. */
  ghost predicate Valid(s: State) {
    && (forall k :: k in s.streams ==> k < s.nextId)
    && (forall k :: k in s.streams && s.streams[k].StagedStream? ==>
          s.staged == Preparing(s.streams[k].attempt, Some(k)))
    && (s.staged.Preparing? && s.staged.stream.Some? ==>
          && s.staged.stream.value in s.streams
          && s.streams[s.staged.stream.value] == StagedStream(s.staged.attempt, s.streams[s.staged.stream.value].base))
    && (s.staged.Committed? && s.staged.saved ==> s.staged.saveStarted)
  }

  /** What became of the manifest in memory since the commit. */
  datatype Since = Kept | Emptied | Replaced

  /** What has happened since the last attempt began: how often, which manifest the commit made, what became
      of it, which manifest was written as the snapshot, and what had become of it then. */
  datatype Tally = Tally(
    commits: nat, commitsDone: nat, aborts: nat, marks: nat, saves: nat, completes: nat,
    committed: Provenance, since: Since, written: Provenance, writtenSince: Since)

  const NOTHING_YET := Tally(0, 0, 0, 0, 0, 0, Cleared, Kept, Cleared, Kept)

  /** The requests that replace the manifest in memory: all but the last arm. */
  function SinceAfter(since: Since, s: State, call: Call): Since {
    match call.req
    case SetBase => if call.first.Failed? then since else Emptied
    case SetRemoteStateDir => Emptied
    case GetChanges(_, _) => if call.first.Failed? then Emptied else Replaced
    case PrepareMigration => if s.changesReady then Replaced else since
    case FinishApply(k) => if k in s.streams && s.streams[k].Legacy? && !call.first.Failed? then Replaced else since
    case ApplyDetails => if s.changesReady && s.actionsReady && !call.first.Failed? then Replaced else since
    case _ => since
  }

  /** The work done by a call, with its outcomes. */
  function Work(s: State, call: Call): seq<(Op, Outcome)> {
    var (s1, n1) := Enter(s, call.req);
    if n1.Answer? then []
    else
      var (s2, n2) := Resume(s1, call.req, n1.op, call.first);
      [(n1.op, call.first)] + if n2.Answer? then [] else [(n2.op, call.second)]
  }

  function CountWork(t: Tally, s: State, op: Op, outcome: Outcome): Tally {
    match op
    case PublishOutputs(base) =>
      if outcome.Failed? then t.(commits := t.commits + 1)
      else t.(commits := t.commits + 1, commitsDone := t.commitsDone + 1, committed := Advanced(base), since := Kept)
    case MarkStateSave => if outcome.Failed? then t else t.(marks := t.marks + 1)
    case WriteSnapshot => if outcome.Failed? then t else t.(saves := t.saves + 1, written := s.allOld, writtenSince := t.since)
    case _ => t
  }

  function Count(t: Tally, s: State, call: Call): Tally {
    var work, reply := Work(s, call), Handle(s, call).reply;
    var t1 := if work == [] then t else CountWork(t, s, work[0].0, work[0].1);
    var t2 := if |work| < 2 then t1 else CountWork(t1, s, work[1].0, work[1].1);
    match call.req
    case Begin(_) => if reply.Opened? then NOTHING_YET else t2
    case Abort(_) => if reply.Done? then t2.(aborts := t2.aborts + 1) else t2
    case Complete(_) => if reply.Done? then t2.(completes := t2.completes + 1) else t2
    case _ => t2.(since := SinceAfter(t2.since, s, call))
  }

  /** A session: any calls with any identifiers and any failures. */
  function Serve(s: State, calls: seq<Call>): State
    decreases |calls|
  {
    if calls == [] then s else Serve(Handle(s, calls[0]).state, calls[1..])
  }

  function TallyOf(t: Tally, s: State, calls: seq<Call>): Tally
    decreases |calls|
  {
    if calls == [] then t else TallyOf(Count(t, s, calls[0]), Handle(s, calls[0]).state, calls[1..])
  }

  predicate IsCommit(m: Provenance) {
    m.Waves? || m.Staged?
  }

  predicate Became(since: Since, committed: Provenance, m: Provenance) {
    match since
    case Kept => m == committed
    case Emptied => m == Cleared
    case Replaced => m.Scanned? || m.Rescoped? || m.Applied?
  }

  ghost predicate Agrees(s: State, t: Tally) {
    && t.marks <= t.commitsDone <= t.commits <= 1 && t.completes <= t.saves <= t.marks
    && (t.commits > 0 ==> t.aborts == 0)
    && (t.saves > 0 ==> IsCommit(t.committed) && Became(t.writtenSince, t.committed, t.written))
    && match s.staged
       case NoAttempt => true
       case Preparing(_, _) => t.commits == 0 && t.aborts == 0
       case Prepared(_, _) => t.commits == 0 && t.aborts == 0
       case Committing(_) => t.commits == 1 && t.commitsDone == 0
       case Committed(_, saveStarted, saved) =>
         && t.commitsDone == 1 && t.completes == 0
         && t.marks == (if saveStarted then 1 else 0) && t.saves == (if saved then 1 else 0)
         && IsCommit(t.committed) && Became(t.since, t.committed, s.allOld)
       case Aborted(_) => t.commits == 0
  }

  /** No staged stream is open. */
  ghost predicate NoneOpen(s: State) {
    s.staged.Preparing? ==> s.staged.stream.None?
  }

  predicate ForAttempt(req: Request) {
    req.Begin? || req.FinishPrepare? || req.Abort? || req.Commit? || req.SaveState? || req.Complete?
  }

  lemma EnterKeepsValid(s: State, req: Request)
    requires Valid(s)
    ensures var (s1, n) := Enter(s, req);
      Valid(s1) && (ForAttempt(req) && n.Run? ==> NoneOpen(s1))
  {
  }

  lemma ResumeKeepsValid(s: State, req: Request, op: Op, outcome: Outcome)
    requires Valid(s) && (ForAttempt(req) ==> NoneOpen(s))
    ensures var (s1, n) := Resume(s, req, op, outcome);
      Valid(s1) && (ForAttempt(req) && n.Run? ==> NoneOpen(s1))
  {
  }

  lemma HandleKeepsValid(s: State, call: Call)
    requires Valid(s)
    ensures Valid(Handle(s, call).state)
  {
    EnterKeepsValid(s, call.req);
    var (s1, n1) := Enter(s, call.req);
    if n1.Run? {
      ResumeKeepsValid(s1, call.req, n1.op, call.first);
      var (s2, n2) := Resume(s1, call.req, n1.op, call.first);
      if n2.Run? {
        ResumeKeepsValid(s2, call.req, n2.op, call.second);
      }
    }
  }

  predicate Resets(req: Request) {
    req.SetBase? || req.SetRemoteStateDir? || req.GetChanges?
  }

  predicate Applies(req: Request) {
    req.FinishApply? || req.ApplyDetails?
  }

  lemma TallyOfResets(s: State, t: Tally, call: Call)
    requires Agrees(s, t) && Resets(call.req)
    ensures Agrees(Handle(s, call).state, Count(t, s, call))
  {
  }

  lemma TallyOfApplies(s: State, t: Tally, call: Call)
    requires Agrees(s, t) && Applies(call.req)
    ensures Agrees(Handle(s, call).state, Count(t, s, call))
  {
  }

  lemma TallyOfOthers(s: State, t: Tally, call: Call)
    requires Agrees(s, t) && !ForAttempt(call.req) && !Resets(call.req) && !Applies(call.req)
    ensures Agrees(Handle(s, call).state, Count(t, s, call))
  {
  }

  lemma TallyBeforeCommit(s: State, t: Tally, call: Call)
    requires Agrees(s, t) && (call.req.Begin? || call.req.FinishPrepare? || call.req.Abort?)
    ensures Agrees(Handle(s, call).state, Count(t, s, call))
  {
  }

  lemma TallyFromCommit(s: State, t: Tally, call: Call)
    requires Valid(s) && Agrees(s, t) && (call.req.Commit? || call.req.SaveState? || call.req.Complete?)
    ensures Agrees(Handle(s, call).state, Count(t, s, call))
  {
  }

  lemma HandleKeepsTally(s: State, t: Tally, call: Call)
    requires Valid(s) && Agrees(s, t)
    ensures Agrees(Handle(s, call).state, Count(t, s, call))
  {
    if Resets(call.req) {
      TallyOfResets(s, t, call);
    } else if Applies(call.req) {
      TallyOfApplies(s, t, call);
    } else if !ForAttempt(call.req) {
      TallyOfOthers(s, t, call);
    } else if call.req.Commit? || call.req.SaveState? || call.req.Complete? {
      TallyFromCommit(s, t, call);
    } else {
      TallyBeforeCommit(s, t, call);
    }
  }

  lemma {:induction false} ServeKeeps(s: State, t: Tally, calls: seq<Call>)
    requires Valid(s) && Agrees(s, t)
    ensures Valid(Serve(s, calls)) && Agrees(Serve(s, calls), TallyOf(t, s, calls))
    decreases |calls|
  {
    if calls != [] {
      HandleKeepsValid(s, calls[0]);
      HandleKeepsTally(s, t, calls[0]);
      ServeKeeps(Handle(s, calls[0]).state, Count(t, s, calls[0]), calls[1..]);
    }
  }

  /** After any session, per attempt: commit started at most once; it never started in an attempt that was
      aborted; the state-save mark was set, the snapshot was written and the attempt was completed at most
      once each, and each only after the one before it. */
  lemma AttemptDiscipline(calls: seq<Call>)
    ensures var t := TallyOf(NOTHING_YET, INITIAL, calls);
      && t.commits <= 1 && t.marks <= 1 && t.saves <= 1 && t.completes <= 1
      && !(t.commits > 0 && t.aborts > 0)
      && t.completes <= t.saves <= t.marks <= t.commitsDone <= t.commits
  {
    ServeKeeps(INITIAL, NOTHING_YET, calls);
  }

  /** After any session: a staged stream exists if and only if the server is preparing with that stream. */
  lemma StagedStreamIffPreparing(calls: seq<Call>, k: StreamId, id: AttemptId)
    ensures var s := Serve(INITIAL, calls);
      (k in s.streams && s.streams[k].StagedStream? && s.streams[k].attempt == id) <==> s.staged == Preparing(id, Some(k))
  {
    ServeKeeps(INITIAL, NOTHING_YET, calls);
  }

  /** A commit that failed is final: nothing that any client can call leaves it. */
  lemma {:induction false} CommittingIsAbsorbing(s: State, calls: seq<Call>)
    requires s.staged.Committing?
    ensures Serve(s, calls).staged == s.staged
    decreases |calls|
  {
    if calls != [] {
      CommittingIsAbsorbing(Handle(s, calls[0]).state, calls[1..]);
    }
  }

  /** Over any session: what is written as the snapshot is the manifest that the commit made if and only if
      no accepted request replaced that manifest between the commit and the write; and it is the empty one
      if and only if the last such request emptied it. */
  lemma SnapshotIsTheCommit(calls: seq<Call>)
    ensures var t := TallyOf(NOTHING_YET, INITIAL, calls);
      t.saves > 0 ==>
        && (t.written == t.committed <==> t.writtenSince == Kept)
        && (t.written == Cleared <==> t.writtenSince == Emptied)
  {
    ServeKeeps(INITIAL, NOTHING_YET, calls);
  }

  /** A rescan after the commit clears the manifest even when it is refused, and saving the state is then
      accepted and writes the cleared one. */
  lemma RescanAfterCommitIsSaved(s: State, t: Tally, id: AttemptId, scan: nat, migration: bool)
    requires s.staged == Committed(id, false, false)
    ensures var rescan, save := Call(GetChanges(scan, migration), Failed, Failed), Call(SaveState(id), Succeeded, Succeeded);
      var s1 := Handle(s, rescan).state;
      && Handle(s, rescan).reply == Refused && Handle(s1, save).reply == Done
      && Count(Count(t, s, rescan), s1, save).written == Cleared
  {
  }

  /** Preparing a migration after the commit puts back what the scan before the commit saw, and saving the
      state is then accepted and writes that. */
  lemma MigrationAfterCommitIsSaved(s: State, t: Tally, id: AttemptId)
    requires s.staged == Committed(id, false, false) && s.changesReady
    ensures var prepare, save := Call(PrepareMigration, Failed, Failed), Call(SaveState(id), Succeeded, Succeeded);
      var s1 := Handle(s, prepare).state;
      && Handle(s, prepare).reply == Done && Handle(s1, save).reply == Done
      && Count(Count(t, s, prepare), s1, save).written == Rescoped(s.allOld)
  {
  }

  /** An aborted attempt is remembered until a new one begins, unless looking for its marker fails: then
      it is forgotten, and a repeated abort is refused where it would have succeeded before. */
  lemma AbortAgain(s: State, id: AttemptId, outcome: Outcome)
    requires s.staged == Aborted(id)
    ensures var h := Handle(s, Call(Abort(id), outcome, Failed));
      && h.state.staged == (if outcome.Failed? then NoAttempt else Aborted(id))
      && h.reply == (if outcome.Succeeded? then Done else Refused)
      && (outcome.Failed? ==> forall again :: Handle(h.state, Call(Abort(id), again, Failed)).reply == Refused)
  {
  }

  // ----- Whole sessions -----

  /** What holds of attempts and legacy streams between calls. */
  ghost predicate Disciplined(s: State) {
    && (!s.staged.NoAttempt? ==> s.staged.attempt != "" && '\n' !in s.staged.attempt && '\r' !in s.staged.attempt)
    && (forall k :: k in s.streams && s.streams[k].Legacy? ==> s.actionsReady && s.changesReady)
  }

  /** What a request that has got to work may rely on. */
  predicate Admitted(s: State, req: Request) {
    match req
    case Begin(id) => SingleLine(id)
    case FinishPrepare(_, id) => SingleLine(id)
    case Abort(id) => SingleLine(id)
    case Commit(id) => SingleLine(id)
    case SaveState(id) => SingleLine(id)
    case BeginApply => s.actionsReady && s.changesReady
    case _ => true
  }

  lemma EnterKeepsDiscipline(s: State, req: Request)
    requires Disciplined(s)
    ensures Disciplined(Enter(s, req).0) && (Enter(s, req).1.Run? ==> Admitted(Enter(s, req).0, req))
  {
  }

  lemma ResumeKeepsDiscipline(s: State, req: Request, op: Op, outcome: Outcome)
    requires Disciplined(s) && Admitted(s, req)
    ensures Disciplined(Resume(s, req, op, outcome).0)
    ensures Resume(s, req, op, outcome).1.Run? ==> Admitted(Resume(s, req, op, outcome).0, req)
  {
  }

  lemma HandleKeepsDiscipline(s: State, call: Call)
    requires Disciplined(s)
    ensures Disciplined(Handle(s, call).state)
  {
    EnterKeepsDiscipline(s, call.req);
    var (s1, n1) := Enter(s, call.req);
    if n1.Run? {
      ResumeKeepsDiscipline(s1, call.req, n1.op, call.first);
      var (s2, n2) := Resume(s1, call.req, n1.op, call.first);
      if n2.Run? {
        ResumeKeepsDiscipline(s2, call.req, n2.op, call.second);
      }
    }
  }

  lemma {:induction false} ServeKeepsDiscipline(s: State, calls: seq<Call>)
    requires Disciplined(s)
    ensures Disciplined(Serve(s, calls))
    decreases |calls|
  {
    if calls != [] {
      HandleKeepsDiscipline(s, calls[0]);
      ServeKeepsDiscipline(Handle(s, calls[0]).state, calls[1..]);
    }
  }

  /** After any session: the identifier of the attempt is a line of its own, as the marker file needs it, and
      a legacy stream is open only while the changes and the actions it was opened for are still in place. */
  lemma SessionsAreDisciplined(calls: seq<Call>)
    ensures var s := Serve(INITIAL, calls);
      && (!s.staged.NoAttempt? ==> s.staged.attempt != "" && '\n' !in s.staged.attempt && '\r' !in s.staged.attempt)
      && (forall k :: k in s.streams && s.streams[k].Legacy? ==> s.actionsReady && s.changesReady)
  {
    ServeKeepsDiscipline(INITIAL, calls);
  }

  function Succeeding(req: Request): Call {
    Call(req, Succeeded, Succeeded)
  }

  lemma ServeFirst(s: State, t: Tally, call: Call, more: seq<Call>)
    ensures Serve(s, [call] + more) == Serve(Handle(s, call).state, more)
    ensures TallyOf(t, s, [call] + more) == TallyOf(Count(t, s, call), Handle(s, call).state, more)
  {
    assert ([call] + more)[1..] == more;
  }

  function ScanCalls(scan: nat, migration: bool): seq<Call> {
    [Succeeding(GetChanges(scan, migration))] + ([Succeeding(SetActions)] + [])
  }

  function SavingCalls(id: AttemptId): seq<Call> {
    [Succeeding(SaveState(id))] + ([Succeeding(Complete(id))] + [])
  }

  function CommittingCalls(id: AttemptId): seq<Call> {
    [Succeeding(Validate(id))] + ([Succeeding(Commit(id))] + SavingCalls(id))
  }

  function StagedCalls(id: AttemptId): seq<Call> {
    [Succeeding(Begin(id))] + ([Succeeding(FinishPrepare(1, id))] + CommittingCalls(id))
  }

  function Ready(m: Provenance): State {
    State(true, true, m, NoAttempt, map[], 1)
  }

  lemma AfterScan(scan: nat, migration: bool, t: Tally)
    ensures Serve(INITIAL, ScanCalls(scan, migration)) == Ready(if migration then Rescoped(Scanned(scan)) else Scanned(scan))
  {
    assert StagedOnly(map[]) == map[];
    var first := Succeeding(GetChanges(scan, migration));
    ServeFirst(INITIAL, t, first, [Succeeding(SetActions)] + []);
    ServeFirst(Handle(INITIAL, first).state, t, Succeeding(SetActions), []);
  }

  lemma ValidationOnlyLooks(s: State, t: Tally, id: AttemptId)
    requires s.staged.Prepared? && s.staged.attempt == id
    ensures Handle(s, Succeeding(Validate(id))) == Handled(s, Done) && Count(t, s, Succeeding(Validate(id))) == t
  {
  }

  lemma SaveOnce(s: State, t: Tally, id: AttemptId)
    requires s.staged == Committed(id, false, false)
    ensures Handle(s, Succeeding(SaveState(id))) == Handled(s.(staged := Committed(id, true, true)), Done)
    ensures Count(t, s, Succeeding(SaveState(id))) ==
      t.(marks := t.marks + 1, saves := t.saves + 1, written := s.allOld, writtenSince := t.since)
  {
  }

  lemma CommitOnce(s: State, t: Tally, id: AttemptId)
    requires s.staged.Prepared? && s.staged.attempt == id
    ensures Handle(s, Succeeding(Commit(id))) ==
      Handled(s.(allOld := Advanced(s.staged.base), staged := Committed(id, false, false)), Done)
    ensures Count(t, s, Succeeding(Commit(id))) ==
      t.(commits := t.commits + 1, commitsDone := t.commitsDone + 1, committed := Advanced(s.staged.base), since := Kept)
  {
  }

  lemma AfterSaving(m: Provenance, id: AttemptId)
    requires !m.Waves?
    ensures var s, t := State(true, true, Staged(m), Committed(id, false, false), map[], 2), Tally(1, 1, 0, 0, 0, 0, Staged(m), Kept, Cleared, Kept);
      && Serve(s, SavingCalls(id)) == State(true, true, Staged(m), NoAttempt, map[], 2)
      && TallyOf(t, s, SavingCalls(id)) == Tally(1, 1, 0, 1, 1, 1, Staged(m), Kept, Staged(m), Kept)
  {
    var s, t := State(true, true, Staged(m), Committed(id, false, false), map[], 2), Tally(1, 1, 0, 0, 0, 0, Staged(m), Kept, Cleared, Kept);
    SaveOnce(s, t, id);
    ServeFirst(s, t, Succeeding(SaveState(id)), [Succeeding(Complete(id))] + []);
    ServeFirst(s.(staged := Committed(id, true, true)), t.(marks := 1, saves := 1, written := Staged(m)), Succeeding(Complete(id)), []);
  }

  lemma AfterCommitting(m: Provenance, id: AttemptId)
    requires !m.Waves?
    ensures var s := State(true, true, m, Prepared(id, m), map[], 2);
      && Serve(s, CommittingCalls(id)) == State(true, true, Staged(m), NoAttempt, map[], 2)
      && TallyOf(NOTHING_YET, s, CommittingCalls(id)) == Tally(1, 1, 0, 1, 1, 1, Staged(m), Kept, Staged(m), Kept)
  {
    var s := State(true, true, m, Prepared(id, m), map[], 2);
    ValidationOnlyLooks(s, NOTHING_YET, id);
    CommitOnce(s, NOTHING_YET, id);
    ServeFirst(s, NOTHING_YET, Succeeding(Validate(id)), [Succeeding(Commit(id))] + SavingCalls(id));
    ServeFirst(s, NOTHING_YET, Succeeding(Commit(id)), SavingCalls(id));
    AfterSaving(m, id);
  }

  lemma AfterStaging(m: Provenance, id: AttemptId, t: Tally)
    requires SingleLine(id) && !m.Waves?
    ensures Serve(Ready(m), StagedCalls(id)) == State(true, true, Staged(m), NoAttempt, map[], 2)
    ensures TallyOf(t, Ready(m), StagedCalls(id)) == Tally(1, 1, 0, 1, 1, 1, Staged(m), Kept, Staged(m), Kept)
  {
    var stream: map<StreamId, Stream> := map[1 := StagedStream(id, m)];
    assert stream - {1} == map[];
    ServeFirst(Ready(m), t, Succeeding(Begin(id)), [Succeeding(FinishPrepare(1, id))] + CommittingCalls(id));
    ServeFirst(State(true, true, m, Preparing(id, Some(1)), stream, 2), NOTHING_YET, Succeeding(FinishPrepare(1, id)), CommittingCalls(id));
    AfterCommitting(m, id);
  }

  /** An attempt in which everything succeeds saves what the scan loaded, with the scoped part replaced by what
      it saw when, and only when, a migration is needed, and the results of the commit. */
  lemma UndisturbedSession(scan: nat, migration: bool, id: AttemptId)
    requires id != "" && '\n' !in id && '\r' !in id
    ensures var ready := Serve(INITIAL, ScanCalls(scan, migration));
      var s, t := Serve(ready, StagedCalls(id)), TallyOf(NOTHING_YET, ready, StagedCalls(id));
      && t.written == Staged(if migration then Rescoped(Scanned(scan)) else Scanned(scan))
      && s.allOld == t.written && s.staged == NoAttempt && s.streams == map[]
      && t.commits == t.marks == t.saves == t.completes == 1 && t.aborts == 0
  {
    AfterScan(scan, migration, NOTHING_YET);
    AfterStaging(if migration then Rescoped(Scanned(scan)) else Scanned(scan), id, NOTHING_YET);
  }
}
