/** What holds after every run: crash safety, the commit fence, and the fate of interrupt signals. */
module ProtocolTheorems {
  import opened Wrappers
  import opened Staging
  import opened Protocol
  import opened ProtocolSafety
  import Server

  // ----- The interrupt word -----

  predicate Odd(word: nat) {
    word == CANCEL_REQUESTED || word == COMMITTED_INTERRUPTED || word == COMPLETE_INTERRUPTED
  }

  function NonForce(log: seq<Event>): nat {
    if log == [] then 0
    else NonForce(log[..|log| - 1]) + if log[|log| - 1].Signalled? && log[|log| - 1].answer != Force then 1 else 0
  }

  lemma NonForceAppend(log: seq<Event>, e: Event)
    ensures NonForce(log + [e]) == NonForce(log) + if e.Signalled? && e.answer != Force then 1 else 0
  {
  }

  predicate WordAt(plan: Plan, w: World) {
    match w.pc
    case WaveTop => if w.wave < |plan.sizes| then w.word <= CANCEL_REQUESTED else w.word <= COMMITTED_INTERRUPTED
    case CommitJoin | Marking | SaveJoin | AwaitComplete | LocalFinish | ResetSwap =>
      w.word == COMMITTED || w.word == COMMITTED_INTERRUPTED
    case CleanLocal(interrupted) => w.word <= CANCEL_REQUESTED && (interrupted ==> w.word == CANCEL_REQUESTED)
    case CleanRemote(interrupted, _) => w.word <= CANCEL_REQUESTED && (interrupted ==> w.word == CANCEL_REQUESTED)
    case Returned(result, exit, seen) =>
      && w.word <= COMMITTED_INTERRUPTED
      && (seen.Some? ==> seen.value <= COMMITTED_INTERRUPTED && (seen.value == CANCEL_REQUESTED ==> w.word == CANCEL_REQUESTED))
      && (result.Interrupted? ==> Odd(w.word) && w.wave < |plan.sizes|)
      && (result.Success? ==> w.wave == |plan.sizes|)
      && (!result.Failure? ==> Tidy(exit))
    case Exited(result, exit, outcome) =>
      && (w.word == CANCEL_REQUESTED || w.word == COMPLETE || w.word == COMPLETE_INTERRUPTED)
      && outcome == (if w.word == CANCEL_REQUESTED && !result.Failure? then Interrupted else result)
      && (result.Interrupted? ==> Odd(w.word) && w.wave < |plan.sizes|)
      && (result.Success? ==> w.wave == |plan.sizes|)
      && (!result.Failure? ==> Tidy(exit))
    case Unreachable => false
    case _ => w.word <= CANCEL_REQUESTED
  }

  ghost predicate InterruptInv(plan: Plan, w: World) {
    && WordAt(plan, w)
    && w.word <= COMPLETE_INTERRUPTED
    && (forall t :: t in w.handlers ==> w.handlers[t] <= COMPLETE_INTERRUPTED)
    && NonForce(w.log) == (if Odd(w.word) then 1 else 0)
    && (Signalled(Cancel) in w.log <==> w.word == CANCEL_REQUESTED)
  }

  /** Only the handler records signals. */
  predicate Silent(events: seq<Event>) {
    forall e :: e in events ==> !e.Signalled?
  }

  lemma {:induction false} SilentAppend(log: seq<Event>, events: seq<Event>)
    requires Silent(events)
    ensures NonForce(log + events) == NonForce(log)
    ensures Signalled(Cancel) in log + events <==> Signalled(Cancel) in log
  {
    if events == [] {
      assert log + events == log;
    } else {
      var init, last := events[..|events| - 1], events[|events| - 1];
      SilentAppend(log, init);
      NonForceAppend(log + init, last);
      assert log + events == (log + init) + [last] && last in events;
    }
  }

  /** What the coordinator adds to the history. */
  function CoordinatorEvents(plan: Plan, w: World, next: World): seq<Event> {
    if next.log == w.log then []
    else if w.pc.Barrier? then [Agreed(Attempt(plan, w.wave), w.localReport, w.remoteReport)]
    else [FenceWon(Attempt(plan, w.wave)), CommitStarted(Here, Attempt(plan, w.wave))]
  }

  lemma BeforeStagingLog(plan: Plan, w: World, go: bool)
    ensures BeforeStaging(plan, w, go).log == w.log
  {
  }

  lemma StageBothLog(plan: Plan, w: World, go: bool, report: Report)
    ensures var next := StageBoth(plan, w, go, report);
      && next.log == w.log + CoordinatorEvents(plan, w, next)
      && (next.log != w.log ==> w.pc.Barrier? || (w.pc.Fence? && w.word == PRE_COMMIT))
  {
  }

  lemma FinishCommitLog(plan: Plan, w: World)
    ensures FinishCommit(plan, w).log == w.log
  {
  }

  lemma WindUpLog(plan: Plan, w: World, go: bool)
    ensures WindUp(plan, w, go).log == w.log
  {
  }

  lemma CoordinatorLog(plan: Plan, w: World, go: bool, report: Report)
    ensures var next := Coordinator(plan, w, go, report);
      && next.log == w.log + CoordinatorEvents(plan, w, next)
      && (next.log != w.log ==> w.pc.Barrier? || (w.pc.Fence? && w.word == PRE_COMMIT))
  {
    BeforeStagingLog(plan, w, go);
    StageBothLog(plan, w, go, report);
    FinishCommitLog(plan, w);
    WindUpLog(plan, w, go);
    assert w.log + [] == w.log;
  }

  /** The coordinator neither issues nor withdraws a signal. */
  predicate WordKept(plan: Plan, w: World, next: World) {
    && WordAt(plan, next) && next.word <= COMPLETE_INTERRUPTED && next.handlers == w.handlers
    && (next.word == CANCEL_REQUESTED <==> w.word == CANCEL_REQUESTED) && (Odd(next.word) <==> Odd(w.word))
  }

  predicate InRange(plan: Plan, w: World) {
    if InWave(w.pc) then w.wave < |plan.sizes| else w.wave <= |plan.sizes|
  }

  lemma BeforeStagingKeepsWord(plan: Plan, w: World, go: bool)
    requires WordAt(plan, w) && w.word <= COMPLETE_INTERRUPTED && InRange(plan, w)
    ensures WordKept(plan, w, BeforeStaging(plan, w, go))
  {
  }

  lemma StageBothKeepsWord(plan: Plan, w: World, go: bool, report: Report)
    requires WordAt(plan, w) && w.word <= COMPLETE_INTERRUPTED && InRange(plan, w)
    ensures WordKept(plan, w, StageBoth(plan, w, go, report))
  {
  }

  lemma CommitKeepsWord(plan: Plan, w: World)
    requires WordAt(plan, w) && w.word <= COMPLETE_INTERRUPTED && InRange(plan, w)
    requires w.pc.CommitJoin? || w.pc.Marking? || w.pc.SaveJoin? || w.pc.AwaitComplete?
    ensures WordKept(plan, w, FinishCommit(plan, w))
  {
  }

  lemma CheckpointKeepsWord(plan: Plan, w: World)
    requires WordAt(plan, w) && w.word <= COMPLETE_INTERRUPTED && InRange(plan, w)
    requires w.pc.LocalFinish? || w.pc.ResetSwap? || w.pc.ResetLoad?
    ensures WordKept(plan, w, FinishCommit(plan, w))
  {
  }

  lemma WindUpKeepsWord(plan: Plan, w: World, go: bool)
    requires WordAt(plan, w) && w.word <= COMPLETE_INTERRUPTED && InRange(plan, w)
    ensures WordKept(plan, w, WindUp(plan, w, go))
  {
  }

  lemma CoordinatorKeepsWord(plan: Plan, w: World, go: bool, report: Report)
    requires WordAt(plan, w) && w.word <= COMPLETE_INTERRUPTED && InRange(plan, w)
    ensures WordKept(plan, w, Coordinator(plan, w, go, report))
  {
    BeforeStagingKeepsWord(plan, w, go);
    StageBothKeepsWord(plan, w, go, report);
    if w.pc.CommitJoin? || w.pc.Marking? || w.pc.SaveJoin? || w.pc.AwaitComplete? {
      CommitKeepsWord(plan, w);
    } else if w.pc.LocalFinish? || w.pc.ResetSwap? || w.pc.ResetLoad? {
      CheckpointKeepsWord(plan, w);
    }
    WindUpKeepsWord(plan, w, go);
  }

  lemma AnswerSignal(plan: Plan, w: World, answer: Interrupt, word: nat, handlers: Handlers)
    requires InterruptInv(plan, w)
    requires forall t :: t in handlers ==> handlers[t] <= COMPLETE_INTERRUPTED
    requires if answer == Force then word == w.word else !Odd(w.word) && w.word < COMPLETE_INTERRUPTED && word == w.word + 1
    requires answer == Cancel <==> word != w.word && w.word == PRE_COMMIT
    ensures InterruptInv(plan, w.(word := word, handlers := handlers, log := w.log + [Signalled(answer)]))
  {
  }

  lemma SignalKeepsInterrupts(plan: Plan, w: World, thread: nat)
    requires InterruptInv(plan, w)
    ensures InterruptInv(plan, HandleSignal(w, thread)) && HandleSignal(w, thread).pc == w.pc
  {
    if thread in w.handlers {
      var phase := w.handlers[thread];
      if Odd(phase) {
        AnswerSignal(plan, w, Force, w.word, w.handlers - {thread});
      } else if w.word == phase {
        AnswerSignal(plan, w, if phase == PRE_COMMIT then Cancel else Deferred, phase + 1, w.handlers - {thread});
      }
    }
  }

  /** A move that neither signals nor moves the coordinator. */
  lemma QuietKeepsInterrupts(plan: Plan, w: World, next: World, events: seq<Event>)
    requires InterruptInv(plan, w) && Silent(events) && next.log == w.log + events
    requires next.pc == w.pc && next.wave == w.wave && next.word == w.word && next.handlers == w.handlers
    ensures InterruptInv(plan, next)
  {
    SilentAppend(w.log, events);
  }

  lemma CoordinatorKeepsInterrupts(plan: Plan, w: World, go: bool, report: Report)
    requires InRange(plan, w) && InterruptInv(plan, w)
    ensures InterruptInv(plan, Coordinator(plan, w, go, report))
  {
    CoordinatorLog(plan, w, go, report);
    SilentAppend(w.log, CoordinatorEvents(plan, w, Coordinator(plan, w, go, report)));
    CoordinatorKeepsWord(plan, w, go, report);
  }

  lemma LocalWorkKeepsInterrupts(plan: Plan, w: World, fail: bool)
    requires InterruptInv(plan, w)
    ensures InterruptInv(plan, LocalWork(plan, w, fail))
  {
    var next := LocalWork(plan, w, fail);
    QuietKeepsInterrupts(plan, w, next, LocalEvents(plan, w, next.local));
  }

  lemma RemoteWorkKeepsInterrupts(plan: Plan, w: World, fail: bool, lost: bool)
    requires InterruptInv(plan, w)
    ensures InterruptInv(plan, RemoteWork(w, fail, lost))
  {
    var next := RemoteWork(w, fail, lost);
    QuietKeepsInterrupts(plan, w, next, RemoteEvents(w.remote, next.remote, RemoteStep(w.remote, fail).1));
  }

  lemma BreakKeepsInterrupts(plan: Plan, w: World)
    requires InterruptInv(plan, w)
    ensures InterruptInv(plan, BreakConnection(w))
  {
  }

  lemma StepKeepsInterrupts(plan: Plan, w: World, move: Move)
    requires InRange(plan, w) && InterruptInv(plan, w)
    ensures InterruptInv(plan, Step(plan, w, move))
  {
    match move
    case Coordinate(go, report) => CoordinatorKeepsInterrupts(plan, w, go, report);
    case WorkHere(fail) => LocalWorkKeepsInterrupts(plan, w, fail);
    case WorkThere(fail, lost) => RemoteWorkKeepsInterrupts(plan, w, fail, lost);
    case Break => BreakKeepsInterrupts(plan, w);
    case Signal(thread) => SignalKeepsInterrupts(plan, w, thread);
  }

  // ----- All runs -----

  predicate Beginning(pc: Pc) {
    pc.WaveTop? || pc.AwaitActions? || pc.Signatures? || pc.AwaitBegin? || pc.AfterBegin? || pc.LocalStart?
  }

  predicate InStaging(pc: Pc) {
    pc.Streaming? || pc.LocalPrepare? || pc.AfterPrepare? || pc.AwaitPrepare? || pc.Barrier? || pc.Validating? || pc.Fence?
  }

  predicate InCommit(pc: Pc) {
    pc.CommitJoin? || pc.Marking? || pc.SaveJoin? || pc.AwaitComplete? || pc.LocalFinish? || pc.ResetSwap? || pc.ResetLoad?
  }

  predicate InEnd(pc: Pc) {
    pc.CleanLocal? || pc.CleanRemote? || pc.Returned? || pc.Exited?
  }

  lemma CoordinatorKeepsCoreEarly(plan: Plan, w: World, go: bool, report: Report)
    requires Core(plan, w)
    requires Beginning(w.pc)
    ensures Core(plan, Coordinator(plan, w, go, report))
  {
    match w.pc
    case WaveTop | Signatures => TopKeepsCore(plan, w, go);
    case AwaitActions => AwaitActionsKeepsCore(plan, w, go);
    case AwaitBegin => AwaitBeginKeepsCore(plan, w, go);
    case AfterBegin | LocalStart => BeginKeepsCore(plan, w, go);
  }

  lemma CoordinatorKeepsCoreStaging(plan: Plan, w: World, go: bool, report: Report)
    requires Core(plan, w)
    requires InStaging(w.pc)
    ensures Core(plan, Coordinator(plan, w, go, report))
  {
    match w.pc
    case Streaming | LocalPrepare => StreamingKeepsCore(plan, w, go, report);
    case AfterPrepare | AwaitPrepare => PrepareKeepsCore(plan, w, go, report);
    case Barrier => BarrierKeepsCore(plan, w, go, report);
    case Validating => ValidatingKeepsCore(plan, w, go, report);
    case Fence => FenceKeepsCore(plan, w, go, report);
  }

  lemma CoordinatorKeepsCoreCommit(plan: Plan, w: World, go: bool, report: Report)
    requires Core(plan, w) && SwapReady(w)
    requires InCommit(w.pc)
    ensures Core(plan, Coordinator(plan, w, go, report))
  {
    match w.pc
    case CommitJoin => CommitJoinKeepsCore(plan, w);
    case Marking => MarkingKeepsCore(plan, w);
    case SaveJoin => SaveJoinKeepsCore(plan, w);
    case AwaitComplete => AwaitCompleteKeepsCore(plan, w);
    case LocalFinish => LocalFinishKeepsCore(plan, w);
    case ResetSwap | ResetLoad => ResetKeepsCore(plan, w);
  }

  lemma CoordinatorKeepsCoreEnd(plan: Plan, w: World, go: bool, report: Report)
    requires Core(plan, w) && InEnd(w.pc)
    ensures Core(plan, Coordinator(plan, w, go, report))
  {
    match w.pc
    case CleanLocal(_) => CleanLocalKeepsCore(plan, w, go);
    case CleanRemote(_, _) => CleanRemoteKeepsCore(plan, w, go);
    case Returned(_, _, _) | Exited(_, _, _) => ReturnedKeepsCore(plan, w, go);
  }

  lemma LocalWorkKeepsCore(plan: Plan, w: World, fail: bool)
    requires Core(plan, w)
    ensures Core(plan, LocalWork(plan, w, fail))
  {
    LocalStepKeeps(w.pc, w.stage, w.wave, Attempt(plan, w.wave), w.local, Server.Waves(w.checkpoint), fail);
  }

  lemma BreakKeepsCore(plan: Plan, w: World)
    requires Core(plan, w)
    ensures Core(plan, BreakConnection(w))
  {
  }

  lemma SignalKeepsCore(plan: Plan, w: World, thread: nat)
    requires Core(plan, w) && HandleSignal(w, thread).pc == w.pc
    ensures Core(plan, HandleSignal(w, thread))
  {
  }

  lemma CoordinatorKeepsCore(plan: Plan, w: World, go: bool, report: Report)
    requires Core(plan, w) && SwapReady(w)
    ensures Core(plan, Coordinator(plan, w, go, report))
  {
    if Beginning(w.pc) {
      CoordinatorKeepsCoreEarly(plan, w, go, report);
    } else if InStaging(w.pc) {
      CoordinatorKeepsCoreStaging(plan, w, go, report);
    } else if InCommit(w.pc) {
      CoordinatorKeepsCoreCommit(plan, w, go, report);
    } else {
      CoordinatorKeepsCoreEnd(plan, w, go, report);
    }
  }

  lemma StepKeepsCore(plan: Plan, w: World, move: Move)
    requires Core(plan, w) && InterruptInv(plan, w)
    ensures Core(plan, Step(plan, w, move))
  {
    match move
    case Coordinate(go, report) => CoordinatorKeepsCore(plan, w, go, report);
    case WorkHere(fail) => LocalWorkKeepsCore(plan, w, fail);
    case WorkThere(fail, lost) => RemoteWorkKeepsCore(plan, w, fail, lost);
    case Break => BreakKeepsCore(plan, w);
    case Signal(thread) =>
      SignalKeepsInterrupts(plan, w, thread);
      SignalKeepsCore(plan, w, thread);
  }

  // ----- The history of a run -----

  /** Both sides reported `n` actions, no more files than that, and no bytes without a file. */
  ghost predicate AgreedOn(id: Server.AttemptId, n: nat, log: seq<Event>) {
    exists here, peer :: Agreed(id, here, peer) in log &&
      here.actions == n && here.files <= n && (here.files == 0 ==> here.bytes == 0) &&
      peer.actions == n && peer.files <= n && (peer.files == 0 ==> peer.bytes == 0)
  }

  /** Both sides reported prepared, with the number of actions of the wave, both validated, and the fence
      was won, all under the attempt of wave `k`. */
  ghost predicate FenceFacts(plan: Plan, k: nat, log: seq<Event>) {
    var id := Attempt(plan, k);
    && k < |plan.sizes|
    && SidePrepared(Here, id) in log && SidePrepared(Peer, id) in log && AgreedOn(id, plan.sizes[k], log)
    && SideValidated(Here, id) in log && SideValidated(Peer, id) in log && FenceWon(id) in log
  }

  ghost predicate IsFenced(plan: Plan, id: Server.AttemptId, log: seq<Event>) {
    exists k: nat :: id == Attempt(plan, k) && FenceFacts(plan, k, log)
  }

  ghost predicate CommitsFenced(plan: Plan, log: seq<Event>) {
    forall i :: 0 <= i < |log| && log[i].CommitStarted? ==> IsFenced(plan, log[i].attempt, log[..i])
  }

  ghost predicate CancelBlocks(log: seq<Event>) {
    forall i, j :: 0 <= i < j < |log| && log[i] == Signalled(Cancel) ==> !log[j].FenceWon? && !log[j].CommitStarted?
  }

  ghost predicate DeferredBlocks(log: seq<Event>) {
    forall i, j :: 0 <= i < j < |log| && log[i] == Signalled(Deferred) ==> !log[j].FenceWon?
  }

  ghost predicate Orderly(plan: Plan, log: seq<Event>) {
    CommitsFenced(plan, log) && CancelBlocks(log) && DeferredBlocks(log)
  }

  ghost predicate MayFollow(plan: Plan, log: seq<Event>, e: Event) {
    && (e.CommitStarted? ==> IsFenced(plan, e.attempt, log) && Signalled(Cancel) !in log)
    && (e.FenceWon? ==> Signalled(Cancel) !in log && Signalled(Deferred) !in log)
  }

  lemma OrderlyAppend(plan: Plan, log: seq<Event>, e: Event)
    requires Orderly(plan, log) && MayFollow(plan, log, e)
    ensures Orderly(plan, log + [e])
  {
    var longer := log + [e];
    forall i | 0 <= i < |longer| && longer[i].CommitStarted?
      ensures IsFenced(plan, longer[i].attempt, longer[..i])
    {
      assert longer[..i] == log[..i];
      assert log[..|log|] == log;
    }
  }

  lemma {:induction false} NonForceZero(log: seq<Event>)
    requires NonForce(log) == 0
    ensures Signalled(Cancel) !in log && Signalled(Deferred) !in log
  {
    if log != [] {
      NonForceZero(log[..|log| - 1]);
      assert log == log[..|log| - 1] + [log[|log| - 1]];
    }
  }

  predicate BothPrepared(id: Server.AttemptId, log: seq<Event>) {
    SidePrepared(Here, id) in log && SidePrepared(Peer, id) in log
  }

  ghost predicate HaveAgreed(plan: Plan, k: nat, log: seq<Event>) {
    k < |plan.sizes| && BothPrepared(Attempt(plan, k), log) && AgreedOn(Attempt(plan, k), plan.sizes[k], log)
  }

  /** The aborts that an exit counts as accepted were. */
  predicate AbortsAt(exit: Exit, id: Server.AttemptId, log: seq<Event>) {
    && (exit.CleanedUp? && exit.here ==> AbortAccepted(Here, id) in log)
    && (AbortsPeer(exit) && exit.peer ==> AbortAccepted(Peer, id) in log)
  }

  ghost predicate LogAt(plan: Plan, k: nat, pc: Pc, stage: Stage, result: Option<bool>, call: RemoteCall, log: seq<Event>) {
    var id := Attempt(plan, k);
    && (!stage.Before? ==> FenceFacts(plan, k, log))
    && match pc
       case LocalPrepare => result == Some(true) ==> SidePrepared(Here, id) in log
       case AfterPrepare => SidePrepared(Here, id) in log
       case AwaitPrepare => SidePrepared(Here, id) in log && (WentWell(call) ==> SidePrepared(Peer, id) in log)
       case Barrier => BothPrepared(id, log)
       case Validating =>
         && HaveAgreed(plan, k, log)
         && (result == Some(true) ==> SideValidated(Here, id) in log)
         && (WentWell(call) ==> SideValidated(Peer, id) in log)
       case Fence => HaveAgreed(plan, k, log) && SideValidated(Here, id) in log && SideValidated(Peer, id) in log
       case CleanLocal(_) => result == Some(true) ==> AbortAccepted(Here, id) in log
       case CleanRemote(_, exit) =>
         && AbortsAt(exit, id, log) && (WentWell(call) ==> AbortAccepted(Peer, id) in log)
       case Returned(_, exit, _) => AbortsAt(exit, id, log)
       case Exited(_, exit, _) => AbortsAt(exit, id, log)
       case _ => true
  }

  ghost predicate FactsAt(plan: Plan, w: World) {
    && LogAt(plan, w.wave, w.pc, w.stage, w.local.result, w.call, w.log)
    && (!w.stage.Before? ==> w.word >= COMMITTED)
  }

  ghost predicate HistoryInv(plan: Plan, w: World) {
    FactsAt(plan, w) && Orderly(plan, w.log)
  }

  lemma FactsGrow(log: seq<Event>, events: seq<Event>, plan: Plan, k: nat, pc: Pc, stage: Stage, result: Option<bool>, call: RemoteCall)
    requires LogAt(plan, k, pc, stage, result, call, log)
    ensures LogAt(plan, k, pc, stage, result, call, log + events)
  {
  }

  lemma LocalWorkKeepsHistory(plan: Plan, w: World, fail: bool)
    requires Core(plan, w) && HistoryInv(plan, w)
    ensures HistoryInv(plan, LocalWork(plan, w, fail))
  {
    var next := LocalWork(plan, w, fail);
    var events := LocalEvents(plan, w, next.local);
    FactsGrow(w.log, events, plan, w.wave, w.pc, w.stage, w.local.result, w.call);
    if events == [] {
      assert next.log == w.log;
    } else {
      OrderlyAppend(plan, w.log, events[0]);
    }
  }

  /** The peer starts a commit only when it was asked to, which happens after the fence. */
  lemma PeerCommitIsFenced(plan: Plan, w: World)
    requires Core(plan, w) && InterruptInv(plan, w) && HistoryInv(plan, w)
    requires w.remote.inbox != [] && w.remote.inbox[0].Commit?
    ensures MayFollow(plan, w.log, CommitStarted(Peer, w.remote.inbox[0].attempt))
  {
    assert !w.stage.Before?;
    assert w.remote.inbox[0].attempt == Attempt(plan, w.wave);
  }

  lemma RemoteEventsFollow(plan: Plan, w: World, fail: bool)
    requires Core(plan, w) && InterruptInv(plan, w) && HistoryInv(plan, w)
    ensures var events := RemoteEvents(w.remote, RemoteStep(w.remote, fail).0, RemoteStep(w.remote, fail).1);
      |events| <= 1 && (events != [] ==> MayFollow(plan, w.log, events[0]))
  {
    if w.remote.inbox != [] && w.remote.inbox[0].Commit? {
      PeerCommitIsFenced(plan, w);
    }
  }

  /** The event that goes with an accepted request. */
  predicate Acknowledges(req: Server.Request, id: Server.AttemptId, events: seq<Event>) {
    && (req.FinishPrepare? ==> SidePrepared(Peer, id) in events)
    && (req.Validate? ==> SideValidated(Peer, id) in events)
    && (req.Abort? ==> AbortAccepted(Peer, id) in events)
  }

  lemma AnswerKeepsFacts(plan: Plan, w: World, call: RemoteCall, events: seq<Event>)
    requires Core(plan, w) && FactsAt(plan, w)
    requires call == w.call || (w.call.Waiting? && |w.remote.inbox| == 1 &&
      (WentWell(call) ==> Acknowledges(w.remote.inbox[0], Attempt(plan, w.wave), events)))
    ensures LogAt(plan, w.wave, w.pc, w.stage, w.local.result, call, w.log + events)
  {
    FactsGrow(w.log, events, plan, w.wave, w.pc, w.stage, w.local.result, w.call);
  }

  lemma RemoteWorkKeepsFacts(plan: Plan, w: World, fail: bool, lost: bool)
    requires Core(plan, w) && FactsAt(plan, w)
    ensures FactsAt(plan, RemoteWork(w, fail, lost))
  {
    var next := RemoteWork(w, fail, lost);
    var reply := RemoteStep(w.remote, fail).1;
    var events := RemoteEvents(w.remote, next.remote, reply);
    StepShape(w.remote, fail);
    if next.call != w.call {
      AttemptOfInbox(plan, w);
    }
    AnswerKeepsFacts(plan, w, next.call, events);
  }

  /** Every request on its way is for the attempt of the wave. */
  lemma AttemptOfInbox(plan: Plan, w: World)
    requires Core(plan, w) && w.remote.inbox != []
    ensures var req := w.remote.inbox[0];
      req.FinishPrepare? || req.Validate? || req.Abort? ==> AttemptOf(req) == Attempt(plan, w.wave)
  {
  }

  lemma RemoteWorkKeepsHistory(plan: Plan, w: World, fail: bool, lost: bool)
    requires Core(plan, w) && InterruptInv(plan, w) && HistoryInv(plan, w)
    ensures HistoryInv(plan, RemoteWork(w, fail, lost))
  {
    var events := RemoteEvents(w.remote, RemoteStep(w.remote, fail).0, RemoteStep(w.remote, fail).1);
    RemoteWorkKeepsFacts(plan, w, fail, lost);
    RemoteEventsFollow(plan, w, fail);
    if events == [] {
      assert w.log + events == w.log;
    } else {
      OrderlyAppend(plan, w.log, events[0]);
    }
  }

  lemma BeforeStagingKeepsFacts(plan: Plan, w: World, go: bool)
    requires FactsAt(plan, w) && StageAt(w.pc, w.stage)
    ensures FactsAt(plan, BeforeStaging(plan, w, go))
  {
  }

  lemma StageBothKeepsFacts(plan: Plan, w: World, go: bool, report: Report)
    requires FactsAt(plan, w) && StageAt(w.pc, w.stage)
    ensures FactsAt(plan, StageBoth(plan, w, go, report))
  {
  }

  lemma FinishCommitKeepsFacts(plan: Plan, w: World)
    requires FactsAt(plan, w) && StageAt(w.pc, w.stage)
    ensures FactsAt(plan, FinishCommit(plan, w))
  {
  }

  lemma WindUpKeepsFacts(plan: Plan, w: World, go: bool)
    requires FactsAt(plan, w) && StageAt(w.pc, w.stage)
    ensures FactsAt(plan, WindUp(plan, w, go))
  {
  }

  lemma CoordinatorKeepsFacts(plan: Plan, w: World, go: bool, report: Report)
    requires FactsAt(plan, w) && StageAt(w.pc, w.stage)
    ensures FactsAt(plan, Coordinator(plan, w, go, report))
  {
    BeforeStagingKeepsFacts(plan, w, go);
    StageBothKeepsFacts(plan, w, go, report);
    FinishCommitKeepsFacts(plan, w);
    WindUpKeepsFacts(plan, w, go);
  }

  lemma WinFence(plan: Plan, k: nat, log: seq<Event>)
    requires Orderly(plan, log) && LogAt(plan, k, Fence, Before, None, Idle, log) && NonForce(log) == 0
    ensures var id := Attempt(plan, k); Orderly(plan, log + [FenceWon(id), CommitStarted(Here, id)])
  {
    var id := Attempt(plan, k);
    NonForceZero(log);
    OrderlyAppend(plan, log, FenceWon(id));
    assert FenceFacts(plan, k, log + [FenceWon(id)]);
    OrderlyAppend(plan, log + [FenceWon(id)], CommitStarted(Here, id));
    assert log + [FenceWon(id), CommitStarted(Here, id)] == (log + [FenceWon(id)]) + [CommitStarted(Here, id)];
  }

  /** The coordinator adds to the history only at the barrier and at the fence. */
  lemma CoordinatorKeepsOrder(plan: Plan, w: World, go: bool, report: Report)
    requires FactsAt(plan, w) && Orderly(plan, w.log) && NonForce(w.log) == (if Odd(w.word) then 1 else 0)
    ensures Orderly(plan, Coordinator(plan, w, go, report).log)
  {
    var id := Attempt(plan, w.wave);
    CoordinatorLog(plan, w, go, report);
    OrderlyAppend(plan, w.log, Agreed(id, w.localReport, w.remoteReport));
    if w.pc.Fence? && w.word == PRE_COMMIT {
      WinFence(plan, w.wave, w.log);
    }
    assert w.log + [] == w.log;
  }

  lemma CoordinatorKeepsHistory(plan: Plan, w: World, go: bool, report: Report)
    requires StageAt(w.pc, w.stage) && InterruptInv(plan, w) && HistoryInv(plan, w)
    ensures HistoryInv(plan, Coordinator(plan, w, go, report))
  {
    CoordinatorKeepsFacts(plan, w, go, report);
    CoordinatorKeepsOrder(plan, w, go, report);
  }

  lemma AnswerKeepsHistory(plan: Plan, w: World, answer: Interrupt, word: nat, handlers: Handlers)
    requires HistoryInv(plan, w) && word >= w.word
    ensures HistoryInv(plan, w.(word := word, handlers := handlers, log := w.log + [Signalled(answer)]))
  {
    OrderlyAppend(plan, w.log, Signalled(answer));
    FactsGrow(w.log, [Signalled(answer)], plan, w.wave, w.pc, w.stage, w.local.result, w.call);
  }

  lemma SignalKeepsHistory(plan: Plan, w: World, thread: nat)
    requires InterruptInv(plan, w) && HistoryInv(plan, w)
    ensures HistoryInv(plan, HandleSignal(w, thread))
  {
    if thread in w.handlers {
      var phase := w.handlers[thread];
      if Odd(phase) {
        AnswerKeepsHistory(plan, w, Force, w.word, w.handlers - {thread});
      } else if w.word == phase {
        AnswerKeepsHistory(plan, w, if phase == PRE_COMMIT then Cancel else Deferred, phase + 1, w.handlers - {thread});
      }
    }
  }

  lemma StepKeepsHistory(plan: Plan, w: World, move: Move)
    requires Core(plan, w) && InterruptInv(plan, w) && HistoryInv(plan, w)
    ensures HistoryInv(plan, Step(plan, w, move))
  {
    match move
    case Coordinate(go, report) => CoordinatorKeepsHistory(plan, w, go, report);
    case WorkHere(fail) => LocalWorkKeepsHistory(plan, w, fail);
    case WorkThere(fail, lost) => RemoteWorkKeepsHistory(plan, w, fail, lost);
    case Break =>
    case Signal(thread) => SignalKeepsHistory(plan, w, thread);
  }

  // ----- Every run -----

  lemma {:induction false} RunKeeps(plan: Plan, moves: seq<Move>)
    ensures var w := Run(plan, moves); Core(plan, w) && InterruptInv(plan, w) && HistoryInv(plan, w)
  {
    if moves != [] {
      var init, last := moves[..|moves| - 1], moves[|moves| - 1];
      assert Moved(plan, moves) == Step(plan, Run(plan, init), last);
      RunKeeps(plan, init);
      StepKeepsCore(plan, Run(plan, init), last);
      StepKeepsInterrupts(plan, Run(plan, init), last);
      StepKeepsHistory(plan, Run(plan, init), last);
    }
  }

  /** The parts of the invariant one at a time. */
  lemma RunInterrupts(plan: Plan, moves: seq<Move>)
    ensures InterruptInv(plan, Run(plan, moves))
  {
    RunKeeps(plan, moves);
  }

  lemma RunStage(plan: Plan, moves: seq<Move>)
    ensures StageAt(Run(plan, moves).pc, Run(plan, moves).stage)
  {
    RunKeeps(plan, moves);
  }

  lemma RunRests(plan: Plan, moves: seq<Move>)
    ensures var w := Run(plan, moves); var id := Attempt(plan, w.wave);
      Rests(w.stage, w.wave, id, w.local.disk) && Rests(w.stage, w.wave, id, w.remote.disk)
  {
    RunKeeps(plan, moves);
    var w := Run(plan, moves);
    LocalInvRests(w.pc, w.stage, w.wave, Attempt(plan, w.wave), w.local);
    RemoteInvRests(w.stage, w.wave, Attempt(plan, w.wave), w.remote);
  }

  /** The side has no marker. */
  predicate Unmarked(d: Disk) {
    d.marker.None?
  }

  /** Crash safety, at every step of every run, whatever fails, crashes or gets lost: a side without a
      marker is as the last checkpoint left it, or both sides have committed and saved the current wave. */
  lemma CrashSafety(plan: Plan, moves: seq<Move>)
    ensures var w := Run(plan, moves);
      && (Unmarked(w.local.disk) ==> Untouched(w.local.disk, w.wave) || (Saved(w.local.disk, w.wave) && Saved(w.remote.disk, w.wave)))
      && (Unmarked(w.remote.disk) ==> Untouched(w.remote.disk, w.wave) || (Saved(w.local.disk, w.wave) && Saved(w.remote.disk, w.wave)))
  {
    RunRests(plan, moves);
  }

  /** So a side whose files are not those of its snapshot is always marked with the attempt of the current
      wave, in a phase that no automatic abort removes once the files may have changed. */
  lemma MutatedIsMarked(plan: Plan, moves: seq<Move>)
    ensures var w := Run(plan, moves); var id := Attempt(plan, w.wave);
      forall d :: d == w.local.disk || d == w.remote.disk ==>
        d.files.Torn? || d.snapshot != Server.Waves(d.files.n) ==>
          Marked(d, id, Committing) || Marked(d, id, Committed) || Marked(d, id, StateSave)
  {
    RunRests(plan, moves);
  }

  lemma UnmarkedSidesAgree(l: Disk, r: Disk, k: nat)
    requires Unmarked(l) && Unmarked(r)
    requires Untouched(l, k) || (Saved(l, k) && Saved(r, k))
    requires Untouched(r, k) || (Saved(l, k) && Saved(r, k))
    ensures exists n :: Clear(l, n) && Clear(r, n)
  {
    if Untouched(l, k) && Untouched(r, k) {
      assert Clear(l, k) && Clear(r, k);
    } else {
      assert Clear(l, k + 1) && Clear(r, k + 1);
    }
  }

  /** A later run starts only where neither side has a marker: then both are at one checkpoint. */
  lemma UnmarkedMeansCheckpoint(plan: Plan, moves: seq<Move>)
    ensures var w := Run(plan, moves);
      Unmarked(w.local.disk) && Unmarked(w.remote.disk) ==>
        exists n :: Clear(w.local.disk, n) && Clear(w.remote.disk, n)
  {
    CrashSafety(plan, moves);
    var w := Run(plan, moves);
    if Unmarked(w.local.disk) && Unmarked(w.remote.disk) {
      UnmarkedSidesAgree(w.local.disk, w.remote.disk, w.wave);
    }
  }

  /** The commit fence: whenever a side starts to commit, both had reported prepared with the agreed number
      of actions, both had validated, and the fence had been won, all under that same attempt. */
  lemma CommitFence(plan: Plan, moves: seq<Move>, i: nat)
    requires i < |Run(plan, moves).log| && Run(plan, moves).log[i].CommitStarted?
    ensures var log := Run(plan, moves).log; IsFenced(plan, log[i].attempt, log[..i])
  {
    RunKeeps(plan, moves);
  }

  /** A run that returned before the fence of its wave leaves both sides uncommitted, for ever. */
  lemma ReturnBeforeFence(plan: Plan, moves: seq<Move>)
    ensures var w := Run(plan, moves); var id := Attempt(plan, w.wave);
      (w.pc.Returned? || w.pc.Exited?) && !w.pc.exit.PastFence? ==>
        Early(w.local.disk, w.wave, id) && Early(w.remote.disk, w.wave, id)
  {
    RunKeeps(plan, moves);
    RunRests(plan, moves);
  }

  /** Such a run leaves a marker on this side only if creating it failed, if it stopped at the barrier, or if
      the abort here was not accepted; and on the peer only if the call that begins the attempt failed, if it
      stopped at the barrier, or if the abort there was refused or broke. At the barrier it leaves both. */
  lemma LeftoverMarkers(plan: Plan, moves: seq<Move>)
    ensures var w := Run(plan, moves); var id := Attempt(plan, w.wave);
      (w.pc.Returned? || w.pc.Exited?) && !w.pc.exit.PastFence? ==>
        && (!Unmarked(w.local.disk) ==>
              w.pc.exit.StartFailed? || w.pc.exit.StoppedAtBarrier? || (w.pc.exit.CleanedUp? && !w.pc.exit.here))
        && (!Unmarked(w.remote.disk) ==>
              w.pc.exit.BeginFailed? || w.pc.exit.StoppedAtBarrier? || (AbortsPeer(w.pc.exit) && !w.pc.exit.peer))
        && (w.pc.exit.StoppedAtBarrier? ==> Marked(w.local.disk, id, Prepared) && Marked(w.remote.disk, id, Prepared))
        && AbortsAt(w.pc.exit, id, w.log)
  {
    RunKeeps(plan, moves);
  }

  /** What a run reports can be relied on: after success all waves, and after an interruption a number of
      whole waves, are committed and saved on both sides, and no marker is left. */
  lemma ReportIsTrue(plan: Plan, moves: seq<Move>)
    ensures var w := Run(plan, moves);
      && (w.pc.Exited? && !w.pc.outcome.Failure? ==> Clear(w.local.disk, w.wave) && Clear(w.remote.disk, w.wave))
      && (w.pc.Exited? && w.pc.outcome.Success? ==> w.wave == |plan.sizes|)
  {
    RunKeeps(plan, moves);
  }

  /** Over all interleavings: at most one signal of a run is answered with anything but force; a signal
      answered with cancel comes before no commit; a deferred one comes before no further fence; and no
      arm that the program calls unreachable is reached. */
  lemma InterruptLinearization(plan: Plan, moves: seq<Move>)
    ensures var w := Run(plan, moves);
      NonForce(w.log) <= 1 && CancelBlocks(w.log) && DeferredBlocks(w.log) && !w.pc.Unreachable?
  {
    RunKeeps(plan, moves);
  }

  /** The end of a run: a cancelled run never reports success; without a cancel it reports what the waves
      returned; and it reports an interruption only if a signal was accepted. */
  lemma InterruptOutcome(plan: Plan, moves: seq<Move>)
    ensures var w := Run(plan, moves);
      w.pc.Exited? ==>
        && w.pc.outcome == (if Signalled(Cancel) in w.log && !w.pc.result.Failure? then Interrupted else w.pc.result)
        && (w.pc.outcome.Interrupted? ==> NonForce(w.log) == 1)
  {
    RunInterrupts(plan, moves);
  }

  /** A signal deferred in the last wave cannot turn success into an interruption: once all waves are done
      the run reports success, and once the fence of a wave is won it reports an interruption only after
      that wave is complete and another is left. */
  lemma DeferredAllowsSuccess(plan: Plan, moves: seq<Move>)
    ensures var w := Run(plan, moves);
      w.pc.Exited? && Signalled(Cancel) !in w.log ==>
        && (w.wave == |plan.sizes| && !w.pc.result.Failure? ==> w.pc.outcome.Success?)
        && (w.pc.outcome.Interrupted? ==> w.stage.Before? && w.wave < |plan.sizes|)
  {
    RunInterrupts(plan, moves);
    RunStage(plan, moves);
  }

  // ----- The marker -----

  /** How a marker may change: it is created, it advances by one phase, and it goes away after the last phase
      or, on an abort, from one of the first two. */
  predicate Advances(id: Server.AttemptId, before: Option<Marker>, after: Option<Marker>) {
    || before == after
    || (before.None? && after == Some(Marker(id, Preparing)))
    || (before == Some(Marker(id, Preparing)) && (after == Some(Marker(id, Prepared)) || after.None?))
    || (before == Some(Marker(id, Prepared)) && (after == Some(Marker(id, Committing)) || after.None?))
    || (before == Some(Marker(id, Committing)) && after == Some(Marker(id, Committed)))
    || (before == Some(Marker(id, Committed)) && after == Some(Marker(id, StateSave)))
    || (before == Some(Marker(id, StateSave)) && after == Some(Marker(id, Finished)))
    || (before == Some(Marker(id, Finished)) && after.None?)
  }

  /** Even on a disk that no run produces, a change of any work makes the marker of its own attempt advance or
      refuses; only the last change of finishing relies on the one before it. */
  lemma ChangesAdvance(op: Server.Op, done: nat, id: Server.AttemptId, m: Server.Provenance, d: Disk)
    requires Change(op, done, id, m, d).Some? && (op.FinishMarker? ==> done == 0 || Marked(d, id, Finished))
    ensures Advances(id, d.marker, Change(op, done, id, m, d).value.marker)
  {
  }

  lemma LocalMarkerAdvances(pc: Pc, stage: Stage, k: nat, id: Server.AttemptId, l: Local, m: Server.Provenance, fail: bool)
    requires LocalInv(pc, stage, k, id, l) && StageAt(pc, stage)
    ensures Advances(id, l.disk.marker, LocalStep(l, id, m, fail).disk.marker)
  {
  }

  lemma RemoteMarkerAdvances(stage: Stage, k: nat, id: Server.AttemptId, r: Remote, fail: bool)
    requires RemoteInv(stage, k, id, r)
    ensures Advances(id, r.disk.marker, RemoteStep(r, fail).0.disk.marker)
  {
  }

  /** At every step of every run each side's marker stays, or takes the next of its phases under the attempt of
      the wave: none is skipped, none is taken back, and none goes away between the fence and the end. */
  lemma MarkersAdvance(plan: Plan, moves: seq<Move>, move: Move)
    ensures var w := Run(plan, moves); var next := Step(plan, w, move); var id := Attempt(plan, w.wave);
      && Advances(id, w.local.disk.marker, next.local.disk.marker)
      && Advances(id, w.remote.disk.marker, next.remote.disk.marker)
  {
    RunKeeps(plan, moves);
    var w := Run(plan, moves);
    match move
    case Coordinate(go, report) => CoordinatorKeepsDisks(plan, w, go, report);
    case WorkHere(fail) =>
      LocalMarkerAdvances(w.pc, w.stage, w.wave, Attempt(plan, w.wave), w.local, Server.Waves(w.checkpoint), fail);
    case WorkThere(fail, lost) => RemoteMarkerAdvances(w.stage, w.wave, Attempt(plan, w.wave), w.remote, fail);
    case Break =>
    case Signal(thread) =>
  }

  predicate SameDisks(w: World, next: World) {
    next.local.disk == w.local.disk && next.remote.disk == w.remote.disk
  }

  lemma BeforeStagingKeepsDisks(plan: Plan, w: World, go: bool)
    ensures SameDisks(w, BeforeStaging(plan, w, go))
  {
  }

  lemma StageBothKeepsDisks(plan: Plan, w: World, go: bool, report: Report)
    ensures SameDisks(w, StageBoth(plan, w, go, report))
  {
  }

  lemma FinishCommitKeepsDisks(plan: Plan, w: World)
    ensures SameDisks(w, FinishCommit(plan, w))
  {
  }

  lemma WindUpKeepsDisks(plan: Plan, w: World, go: bool)
    ensures SameDisks(w, WindUp(plan, w, go))
  {
  }

  lemma CoordinatorKeepsDisks(plan: Plan, w: World, go: bool, report: Report)
    ensures SameDisks(w, Coordinator(plan, w, go, report))
  {
    BeforeStagingKeepsDisks(plan, w, go);
    StageBothKeepsDisks(plan, w, go, report);
    FinishCommitKeepsDisks(plan, w);
    WindUpKeepsDisks(plan, w, go);
  }
}
