/** Runs that exist: for every plan one that succeeds, also when a signal is deferred in the last wave, and
    some that end before the fence and leave a marker behind. */
module ProtocolProgress {
  import opened Wrappers
  import opened Staging
  import opened Protocol
  import Server

  ghost predicate Reachable(plan: Plan, w: World) {
    exists moves :: Run(plan, moves) == w
  }

  lemma Extend(plan: Plan, w: World, move: Move)
    requires Reachable(plan, w)
    ensures Reachable(plan, Step(plan, w, move))
  {
    var moves :| Run(plan, moves) == w;
    assert (moves + [move])[..|moves|] == moves;
    assert Moved(plan, moves + [move]) == Step(plan, w, move);
    assert Run(plan, moves + [move]) == Step(plan, w, move);
  }

  /** The disk after all remaining changes of a piece of work. */
  function Changed(op: Server.Op, done: nat, id: Server.AttemptId, manifest: Server.Provenance, d: Disk): Option<Disk>
    decreases Changes(op) - done
  {
    if done >= Changes(op) then Some(d)
    else
      match Change(op, done, id, manifest, d)
      case None => None
      case Some(next) => Changed(op, done + 1, id, manifest, next)
  }

  lemma {:induction false} FinishJob(plan: Plan, w: World, d: Disk) returns (v: World)
    requires Reachable(plan, w) && w.local.job.Some? && w.local.job.value.done <= Changes(w.local.job.value.op) && w.local.result.None?
    requires Changed(w.local.job.value.op, w.local.job.value.done, Attempt(plan, w.wave), Server.Waves(w.checkpoint), w.local.disk) == Some(d)
    ensures Reachable(plan, v) && v == w.(local := Local(d, None, Some(true)), log := v.log)
    decreases Changes(w.local.job.value.op) - w.local.job.value.done
  {
    Extend(plan, w, WorkHere(false));
    var next := LocalWork(plan, w, false);
    if w.local.job.value.done == Changes(w.local.job.value.op) {
      v := next;
    } else {
      v := FinishJob(plan, next, d);
    }
  }

  lemma {:induction false} FinishTask(plan: Plan, w: World, d: Disk) returns (v: World)
    requires Reachable(plan, w) && w.remote.inbox != [] && w.remote.task.Some?
    requires w.remote.task.value.done <= Changes(w.remote.task.value.op)
    requires Changed(w.remote.task.value.op, w.remote.task.value.done, AttemptOf(w.remote.inbox[0]), w.remote.server.allOld, w.remote.disk) == Some(d)
    ensures Reachable(plan, v)
    ensures v == w.(remote := w.remote.(disk := d, task := Some(Task(w.remote.task.value.op, Changes(w.remote.task.value.op)))), log := v.log)
    decreases Changes(w.remote.task.value.op) - w.remote.task.value.done
  {
    if w.remote.task.value.done == Changes(w.remote.task.value.op) {
      v := w;
    } else {
      Extend(plan, w, WorkThere(false, false));
      v := FinishTask(plan, RemoteWork(w, false, false), d);
    }
  }

  /** The server does one piece of work and goes on. */
  lemma DoTask(plan: Plan, w: World, d: Disk) returns (v: World)
    requires Reachable(plan, w) && |w.remote.inbox| == 1 && w.call.Waiting?
    requires w.remote.task.Some? && w.remote.task.value.done == 0 && !w.remote.task.value.op.InspectMarker?
    requires Changed(w.remote.task.value.op, 0, AttemptOf(w.remote.inbox[0]), w.remote.server.allOld, w.remote.disk) == Some(d)
    ensures Reachable(plan, v)
    ensures var (s, next) := Server.GoOn(w.remote.server, w.remote.inbox[0], w.remote.task.value.op, false);
      match next
      case Answer(reply) => v == w.(remote := Remote(d, s, [], None), call := Answered(reply), log := v.log)
      case Run(op) => v == w.(remote := Remote(d, s, w.remote.inbox, Some(Task(op, 0))), log := v.log)
  {
    var u := FinishTask(plan, w, d);
    Extend(plan, u, WorkThere(false, false));
    v := RemoteWork(u, false, false);
  }

  /** A request that needs one piece of work is served. */
  lemma Serve(plan: Plan, w: World, op: Server.Op, d: Disk) returns (v: World)
    requires Reachable(plan, w) && |w.remote.inbox| == 1 && w.call.Waiting? && w.remote.task.None?
    requires Server.Enter(w.remote.server, w.remote.inbox[0]).1 == Server.Run(op) && !op.InspectMarker?
    requires Changed(op, 0, AttemptOf(w.remote.inbox[0]), Server.Enter(w.remote.server, w.remote.inbox[0]).0.allOld, w.remote.disk) == Some(d)
    ensures Reachable(plan, v)
    ensures var (s, next) := Server.GoOn(Server.Enter(w.remote.server, w.remote.inbox[0]).0, w.remote.inbox[0], op, false);
      match next
      case Answer(reply) => v == w.(remote := Remote(d, s, [], None), call := Answered(reply), log := v.log)
      case Run(more) => v == w.(remote := Remote(d, s, w.remote.inbox, Some(Task(more, 0))), log := v.log)
  {
    Extend(plan, w, WorkThere(false, false));
    v := DoTask(plan, RemoteWork(w, false, false), d);
  }

  // ----- One undisturbed wave -----

  function Plain(k: nat): Disk {
    Disk(None, Whole(k), Server.Waves(k))
  }

  function MarkedAs(k: nat, id: Server.AttemptId, phase: Phase): Disk {
    Disk(Some(Marker(id, phase)), Whole(k), Server.Waves(k))
  }

  /** Nothing is under way, on either side. */
  predicate Quiet(w: World, pc: Pc, k: nat, word: nat, here: Disk, there: Disk, call: RemoteCall) {
    && w.pc == pc && w.wave == k && w.word == word && w.call == call && 0 !in w.handlers
    && w.local.disk == here && w.local.job.None?
    && w.remote.disk == there && w.remote.inbox == [] && w.remote.task.None? && w.remote.server.changesReady
  }

  predicate Still(w: World, pc: Pc, k: nat, word: nat, here: Disk, there: Disk) {
    Quiet(w, pc, k, word, here, there, Idle)
  }

  predicate Clean(w: World, pc: Pc, k: nat, word: nat) {
    && Still(w, pc, k, word, Plain(k), Plain(k))
    && w.stage == Before && w.checkpoint == k
    && w.remote.server.allOld == Server.Waves(k) && w.remote.server.staged.NoAttempt? && w.remote.server.streams == map[]
  }

  lemma Coordinated(plan: Plan, w: World, report: Report) returns (v: World)
    requires Reachable(plan, w)
    ensures Reachable(plan, v) && v == Coordinator(plan, w, true, report)
  {
    Extend(plan, w, Coordinate(true, report));
    v := Coordinator(plan, w, true, report);
  }

  predicate Streaming(w: World, k: nat, id: Server.AttemptId) {
    && w.stage == Before && w.checkpoint == k && w.remote.server.allOld == Server.Waves(k)
    && w.remote.server.staged == Server.Preparing(id, Some(w.stream))
    && w.remote.server.streams == map[w.stream := Server.StagedStream(id, Server.Waves(k))]
  }

  lemma AcceptActions(plan: Plan, w: World, k: nat) returns (v: World)
    requires Reachable(plan, w) && Clean(w, WaveTop, k, PRE_COMMIT) && k < |plan.sizes|
    ensures Reachable(plan, v) && v.remote.server.actionsReady
    ensures Quiet(v, AwaitActions, k, PRE_COMMIT, Plain(k), Plain(k), Answered(Server.Done)) && v.stage == Before && v.checkpoint == k
    ensures v.remote.server.allOld == Server.Waves(k) && v.remote.server.staged.NoAttempt? && v.remote.server.streams == map[]
  {
    assert Server.StagedOnly(map[]) == map[];
    v := Coordinated(plan, w, Report(0, 0, 0));
    v := Serve(plan, v, Server.AcceptActions, Plain(k));
  }

  lemma SendActions(plan: Plan, w: World, k: nat) returns (v: World)
    requires Reachable(plan, w) && Clean(w, WaveTop, k, PRE_COMMIT) && k < |plan.sizes|
    ensures Reachable(plan, v) && Clean(v, Signatures, k, PRE_COMMIT) && v.remote.server.actionsReady
  {
    v := AcceptActions(plan, w, k);
    v := Coordinated(plan, v, Report(0, 0, 0));
  }

  lemma BeginThere(plan: Plan, w: World, k: nat) returns (v: World)
    requires Reachable(plan, w) && Clean(w, Signatures, k, PRE_COMMIT) && w.remote.server.actionsReady
    requires Server.SingleLine(Attempt(plan, k))
    ensures Reachable(plan, v) && Streaming(v, k, Attempt(plan, k))
    ensures Still(v, AfterBegin, k, PRE_COMMIT, Plain(k), MarkedAs(k, Attempt(plan, k), Preparing))
  {
    v := Coordinated(plan, w, Report(0, 0, 0));
    v := Serve(plan, v, Server.CreateMarker, MarkedAs(k, Attempt(plan, k), Preparing));
    v := Coordinated(plan, v, Report(0, 0, 0));
  }

  lemma BeginHere(plan: Plan, w: World, k: nat) returns (v: World)
    requires var id := Attempt(plan, k);
      Reachable(plan, w) && Streaming(w, k, id) && Still(w, AfterBegin, k, PRE_COMMIT, Plain(k), MarkedAs(k, id, Preparing))
    ensures var id := Attempt(plan, k);
      && Reachable(plan, v) && Streaming(v, k, id)
      && Still(v, Pc.Streaming, k, PRE_COMMIT, MarkedAs(k, id, Preparing), MarkedAs(k, id, Preparing))
  {
    v := Coordinated(plan, w, Report(0, 0, 0));
    v := FinishJob(plan, v, MarkedAs(k, Attempt(plan, k), Preparing));
    v := Coordinated(plan, v, Report(0, 0, 0));
  }

  lemma PrepareHere(plan: Plan, w: World, k: nat, report: Report) returns (v: World)
    requires var id := Attempt(plan, k);
      Reachable(plan, w) && Streaming(w, k, id) && Still(w, Pc.Streaming, k, PRE_COMMIT, MarkedAs(k, id, Preparing), MarkedAs(k, id, Preparing))
    ensures var id := Attempt(plan, k);
      && Reachable(plan, v) && Streaming(v, k, id) && v.localReport == report
      && Still(v, AfterPrepare, k, PRE_COMMIT, MarkedAs(k, id, Prepared), MarkedAs(k, id, Preparing))
  {
    v := Coordinated(plan, w, report);
    v := FinishJob(plan, v, MarkedAs(k, Attempt(plan, k), Prepared));
    v := Coordinated(plan, v, report);
  }

  predicate Ready(w: World, pc: Pc, k: nat, id: Server.AttemptId, call: RemoteCall) {
    && Quiet(w, pc, k, PRE_COMMIT, MarkedAs(k, id, Prepared), MarkedAs(k, id, Prepared), call)
    && w.stage == Before && w.checkpoint == k && w.remote.server.allOld == Server.Waves(k)
    && w.remote.server.staged == Server.Prepared(id, Server.Waves(k)) && w.remote.server.streams == map[]
  }

  lemma PrepareThere(plan: Plan, w: World, k: nat) returns (v: World)
    requires var id := Attempt(plan, k);
      Reachable(plan, w) && Streaming(w, k, id) && Still(w, AfterPrepare, k, PRE_COMMIT, MarkedAs(k, id, Prepared), MarkedAs(k, id, Preparing))
    ensures Reachable(plan, v) && Ready(v, AwaitPrepare, k, Attempt(plan, k), Answered(Server.Done)) && v.localReport == w.localReport
  {
    assert w.remote.server.streams - {w.stream} == map[];
    v := Coordinated(plan, w, Report(0, 0, 0));
    v := Serve(plan, v, Server.SealOutputs(Server.Waves(k)), MarkedAs(k, Attempt(plan, k), Prepared));
  }

  lemma ReachBarrier(plan: Plan, w: World, k: nat, report: Report) returns (v: World)
    requires Reachable(plan, w) && Ready(w, AwaitPrepare, k, Attempt(plan, k), Answered(Server.Done))
    ensures Reachable(plan, v) && Ready(v, Barrier, k, Attempt(plan, k), Idle) && v.localReport == w.localReport && v.remoteReport == report
  {
    v := Coordinated(plan, w, report);
  }

  predicate Validated(w: World, k: nat, id: Server.AttemptId) {
    && w.pc == Validating && w.wave == k && w.word == PRE_COMMIT && 0 !in w.handlers && w.stage == Before && w.checkpoint == k
    && w.local == Local(MarkedAs(k, id, Prepared), None, Some(true)) && w.call.Waiting?
    && w.remote.disk == MarkedAs(k, id, Prepared) && w.remote.inbox == [Server.Validate(id)] && w.remote.task.None?
    && w.remote.server.changesReady && w.remote.server.allOld == Server.Waves(k) && w.remote.server.streams == map[]
    && w.remote.server.staged == Server.Prepared(id, Server.Waves(k))
  }

  lemma ValidateHere(plan: Plan, w: World, k: nat) returns (v: World)
    requires Reachable(plan, w) && Ready(w, Barrier, k, Attempt(plan, k), Idle) && k < |plan.sizes|
    requires Acceptable(w.localReport, plan.sizes[k]) && Acceptable(w.remoteReport, plan.sizes[k])
    ensures Reachable(plan, v) && Validated(v, k, Attempt(plan, k))
  {
    v := Coordinated(plan, w, Report(0, 0, 0));
    v := FinishJob(plan, v, MarkedAs(k, Attempt(plan, k), Prepared));
  }

  lemma ValidateThere(plan: Plan, w: World, k: nat) returns (v: World)
    requires Reachable(plan, w) && Validated(w, k, Attempt(plan, k))
    ensures Reachable(plan, v) && Ready(v, Validating, k, Attempt(plan, k), Answered(Server.Done)) && v.local.result == Some(true)
  {
    v := Serve(plan, w, Server.CheckOutputs, MarkedAs(k, Attempt(plan, k), Prepared));
  }

  lemma ReachFence(plan: Plan, w: World, k: nat) returns (v: World)
    requires Reachable(plan, w) && Ready(w, Validating, k, Attempt(plan, k), Answered(Server.Done)) && w.local.result == Some(true)
    ensures Reachable(plan, v) && Ready(v, Fence, k, Attempt(plan, k), Idle)
  {
    v := Coordinated(plan, w, Report(0, 0, 0));
  }

  // ----- Past the fence -----

  function SavedAs(k: nat, id: Server.AttemptId, phase: Phase, snapshot: nat): Disk {
    Disk(Some(Marker(id, phase)), Whole(k + 1), Server.Waves(snapshot))
  }

  /** A request is on its way, and a job has just been launched or has ended. */
  predicate Joining(w: World, pc: Pc, k: nat, stage: Stage, checkpoint: nat, local: Local, req: Server.Request, there: Disk) {
    && w.pc == pc && w.wave == k && w.stage == stage && w.checkpoint == checkpoint
    && (w.word == COMMITTED || w.word == COMMITTED_INTERRUPTED) && 0 !in w.handlers
    && w.local == local && w.call.Waiting?
    && w.remote.disk == there && w.remote.inbox == [req] && w.remote.task.None?
    && w.remote.server.changesReady && w.remote.server.streams == map[]
  }

  lemma WinFence(plan: Plan, w: World, k: nat) returns (v: World)
    requires Reachable(plan, w) && Ready(w, Fence, k, Attempt(plan, k), Idle)
    ensures var id := Attempt(plan, k);
      && Reachable(plan, v) && v.word == COMMITTED
      && Joining(v, CommitJoin, k, Fenced, k, Local(MarkedAs(k, id, Prepared), Some(Job(Server.PublishOutputs(Server.Waves(k)), 0)), None),
                 Server.Commit(id), MarkedAs(k, id, Prepared))
      && v.remote.server.staged == Server.Prepared(id, Server.Waves(k))
  {
    v := Coordinated(plan, w, Report(0, 0, 0));
  }

  /** A signal that arrives now is deferred. */
  lemma DeferSignal(plan: Plan, w: World) returns (v: World)
    requires Reachable(plan, w) && w.pc == CommitJoin && w.word == COMMITTED && 0 !in w.handlers
    ensures Reachable(plan, v) && 0 !in v.handlers
    ensures v == w.(word := COMMITTED_INTERRUPTED, handlers := v.handlers, log := v.log)
  {
    Extend(plan, w, Signal(0));
    v := HandleSignal(w, 0);
    Extend(plan, v, Signal(0));
    v := HandleSignal(v, 0);
  }

  lemma CommitHere(plan: Plan, w: World, k: nat) returns (v: World)
    requires var id := Attempt(plan, k);
      && Reachable(plan, w)
      && Joining(w, CommitJoin, k, Fenced, k, Local(MarkedAs(k, id, Prepared), Some(Job(Server.PublishOutputs(Server.Waves(k)), 0)), None),
                 Server.Commit(id), MarkedAs(k, id, Prepared))
      && w.remote.server.staged == Server.Prepared(id, Server.Waves(k))
    ensures var id := Attempt(plan, k);
      && Reachable(plan, v) && v.word == w.word
      && Joining(v, CommitJoin, k, Fenced, k, Local(SavedAs(k, id, Committed, k), None, Some(true)), Server.Commit(id), MarkedAs(k, id, Prepared))
      && v.remote.server.staged == Server.Prepared(id, Server.Waves(k))
  {
    PublishChanges(k, Attempt(plan, k), Server.Waves(k));
    v := FinishJob(plan, w, SavedAs(k, Attempt(plan, k), Committed, k));
  }

  /** Both sides committed, saved, or done: no request is under way. */
  predicate Past(w: World, pc: Pc, k: nat, stage: Stage, checkpoint: nat, local: Local, call: RemoteCall, there: Disk, staged: Server.Attempt) {
    && w.pc == pc && w.wave == k && w.stage == stage && w.checkpoint == checkpoint && w.call == call
    && (w.word == COMMITTED || w.word == COMMITTED_INTERRUPTED) && 0 !in w.handlers
    && w.local == local && w.remote.disk == there && w.remote.inbox == [] && w.remote.task.None?
    && w.remote.server.changesReady && w.remote.server.streams == map[]
    && w.remote.server.staged == staged && w.remote.server.allOld == Server.Waves(k + 1)
  }

  lemma CommitThere(plan: Plan, w: World, k: nat) returns (v: World)
    requires var id := Attempt(plan, k);
      && Reachable(plan, w)
      && Joining(w, CommitJoin, k, Fenced, k, Local(SavedAs(k, id, Committed, k), None, Some(true)), Server.Commit(id), MarkedAs(k, id, Prepared))
      && w.remote.server.staged == Server.Prepared(id, Server.Waves(k))
    ensures var id := Attempt(plan, k);
      && Reachable(plan, v) && v.word == w.word
      && Past(v, CommitJoin, k, Fenced, k, Local(SavedAs(k, id, Committed, k), None, Some(true)), Answered(Server.Done),
              SavedAs(k, id, Committed, k), Server.Committed(id, false, false))
  {
    PublishChanges(k, Attempt(plan, k), w.remote.server.allOld);
    v := Serve(plan, w, Server.PublishOutputs(Server.Waves(k)), SavedAs(k, Attempt(plan, k), Committed, k));
  }

  lemma MarkHere(plan: Plan, w: World, k: nat) returns (v: World)
    requires var id := Attempt(plan, k);
      && Reachable(plan, w)
      && Past(w, CommitJoin, k, Fenced, k, Local(SavedAs(k, id, Committed, k), None, Some(true)), Answered(Server.Done),
              SavedAs(k, id, Committed, k), Server.Committed(id, false, false))
    ensures var id := Attempt(plan, k);
      && Reachable(plan, v) && v.word == w.word
      && Past(v, Marking, k, BothCommitted, k + 1, Local(SavedAs(k, id, StateSave, k), None, Some(true)), Idle,
              SavedAs(k, id, Committed, k), Server.Committed(id, false, false))
  {
    v := Coordinated(plan, w, Report(0, 0, 0));
    v := FinishJob(plan, v, SavedAs(k, Attempt(plan, k), StateSave, k));
  }

  lemma SaveHere(plan: Plan, w: World, k: nat) returns (v: World)
    requires var id := Attempt(plan, k);
      && Reachable(plan, w)
      && Past(w, Marking, k, BothCommitted, k + 1, Local(SavedAs(k, id, StateSave, k), None, Some(true)), Idle,
              SavedAs(k, id, Committed, k), Server.Committed(id, false, false))
    ensures var id := Attempt(plan, k);
      && Reachable(plan, v) && v.word == w.word
      && Joining(v, SaveJoin, k, BothCommitted, k + 1, Local(SavedAs(k, id, StateSave, k + 1), None, Some(true)), Server.SaveState(id), SavedAs(k, id, Committed, k))
      && v.remote.server.staged == Server.Committed(id, false, false) && v.remote.server.allOld == Server.Waves(k + 1)
  {
    v := Coordinated(plan, w, Report(0, 0, 0));
    v := FinishJob(plan, v, SavedAs(k, Attempt(plan, k), StateSave, k + 1));
  }

  lemma SaveThere(plan: Plan, w: World, k: nat) returns (v: World)
    requires var id := Attempt(plan, k);
      && Reachable(plan, w)
      && Joining(w, SaveJoin, k, BothCommitted, k + 1, Local(SavedAs(k, id, StateSave, k + 1), None, Some(true)), Server.SaveState(id), SavedAs(k, id, Committed, k))
      && w.remote.server.staged == Server.Committed(id, false, false) && w.remote.server.allOld == Server.Waves(k + 1)
    ensures var id := Attempt(plan, k);
      && Reachable(plan, v) && v.word == w.word
      && Past(v, SaveJoin, k, BothCommitted, k + 1, Local(SavedAs(k, id, StateSave, k + 1), None, Some(true)), Answered(Server.Done),
              SavedAs(k, id, StateSave, k + 1), Server.Committed(id, true, true))
  {
    v := Serve(plan, w, Server.MarkStateSave, SavedAs(k, Attempt(plan, k), StateSave, k));
    v := DoTask(plan, v, SavedAs(k, Attempt(plan, k), StateSave, k + 1));
  }

  lemma AskComplete(plan: Plan, w: World, k: nat) returns (v: World)
    requires var id := Attempt(plan, k);
      && Reachable(plan, w)
      && Past(w, SaveJoin, k, BothCommitted, k + 1, Local(SavedAs(k, id, StateSave, k + 1), None, Some(true)), Answered(Server.Done),
              SavedAs(k, id, StateSave, k + 1), Server.Committed(id, true, true))
    ensures var id := Attempt(plan, k);
      && Reachable(plan, v) && v.word == w.word
      && Joining(v, AwaitComplete, k, BothSaved, k + 1, Local(SavedAs(k, id, StateSave, k + 1), None, Some(true)), Server.Complete(id), SavedAs(k, id, StateSave, k + 1))
      && v.remote.server.staged == Server.Committed(id, true, true) && v.remote.server.allOld == Server.Waves(k + 1)
  {
    v := Coordinated(plan, w, Report(0, 0, 0));
  }

  lemma CompleteThere(plan: Plan, w: World, k: nat) returns (v: World)
    requires var id := Attempt(plan, k);
      && Reachable(plan, w)
      && Joining(w, AwaitComplete, k, BothSaved, k + 1, Local(SavedAs(k, id, StateSave, k + 1), None, Some(true)), Server.Complete(id), SavedAs(k, id, StateSave, k + 1))
      && w.remote.server.staged == Server.Committed(id, true, true) && w.remote.server.allOld == Server.Waves(k + 1)
    ensures var id := Attempt(plan, k);
      && Reachable(plan, v) && v.word == w.word
      && Past(v, AwaitComplete, k, BothSaved, k + 1, Local(SavedAs(k, id, StateSave, k + 1), None, Some(true)), Answered(Server.Done),
              Plain(k + 1), Server.NoAttempt)
  {
    FinishChanges(k, Attempt(plan, k), Server.Waves(k + 1));
    v := Serve(plan, w, Server.FinishMarker, Plain(k + 1));
  }

  lemma FinishChanges(k: nat, id: Server.AttemptId, m: Server.Provenance)
    ensures Changed(Server.FinishMarker, 0, id, m, SavedAs(k, id, StateSave, k + 1)) == Some(Plain(k + 1))
  {
    assert Changed(Server.FinishMarker, 1, id, m, SavedAs(k, id, Finished, k + 1)) == Some(Plain(k + 1));
  }

  lemma CompleteHere(plan: Plan, w: World, k: nat) returns (v: World)
    requires var id := Attempt(plan, k);
      && Reachable(plan, w)
      && Past(w, AwaitComplete, k, BothSaved, k + 1, Local(SavedAs(k, id, StateSave, k + 1), None, Some(true)), Answered(Server.Done),
              Plain(k + 1), Server.NoAttempt)
    ensures Reachable(plan, v) && v.word == w.word
    ensures Past(v, LocalFinish, k, BothSaved, k + 1, Local(Plain(k + 1), None, Some(true)), Idle, Plain(k + 1), Server.NoAttempt)
  {
    FinishChanges(k, Attempt(plan, k), Server.Waves(k + 1));
    v := Coordinated(plan, w, Report(0, 0, 0));
    v := FinishJob(plan, v, Plain(k + 1));
  }

  /** Out of the loop after the last wave. */
  lemma LastWaveEnds(plan: Plan, w: World, k: nat) returns (v: World)
    requires Reachable(plan, w) && k + 1 == |plan.sizes|
    requires Past(w, LocalFinish, k, BothSaved, k + 1, Local(Plain(k + 1), None, Some(true)), Idle, Plain(k + 1), Server.NoAttempt)
    ensures Reachable(plan, v) && Clean(v, WaveTop, k + 1, w.word)
  {
    v := Coordinated(plan, w, Report(0, 0, 0));
  }

  /** On to the next wave, through the reset of the interrupt word. */
  lemma WaveEnds(plan: Plan, w: World, k: nat) returns (v: World)
    requires Reachable(plan, w) && k + 1 < |plan.sizes|
    requires Past(w, LocalFinish, k, BothSaved, k + 1, Local(Plain(k + 1), None, Some(true)), Idle, Plain(k + 1), Server.NoAttempt)
    ensures Reachable(plan, v) && Clean(v, ResetSwap, k + 1, w.word)
  {
    v := Coordinated(plan, w, Report(0, 0, 0));
  }

  lemma Reset(plan: Plan, w: World, k: nat) returns (v: World)
    requires Reachable(plan, w) && Clean(w, ResetSwap, k, COMMITTED)
    ensures Reachable(plan, v) && Clean(v, WaveTop, k, PRE_COMMIT)
  {
    v := Coordinated(plan, w, Report(0, 0, 0));
    v := Coordinated(plan, v, Report(0, 0, 0));
  }

  lemma PublishChanges(k: nat, id: Server.AttemptId, m: Server.Provenance)
    ensures Changed(Server.PublishOutputs(Server.Waves(k)), 0, id, m, MarkedAs(k, id, Prepared)) == Some(SavedAs(k, id, Committed, k))
  {
    var op := Server.PublishOutputs(Server.Waves(k));
    var d1 := MarkedAs(k, id, Committing);
    assert Changed(op, 3, id, m, d1.(files := Whole(k + 1))) == Some(SavedAs(k, id, Committed, k));
    assert Changed(op, 2, id, m, d1.(files := Torn(k))) == Changed(op, 3, id, m, d1.(files := Whole(k + 1)));
    assert Changed(op, 1, id, m, d1) == Changed(op, 2, id, m, d1.(files := Torn(k)));
  }

  // ----- Whole runs -----

  /** From the top of a wave to where both sides have validated and the fence is won. */
  lemma UpToCommit(plan: Plan, w: World, k: nat) returns (v: World)
    requires Reachable(plan, w) && Clean(w, WaveTop, k, PRE_COMMIT) && k < |plan.sizes| && Server.SingleLine(Attempt(plan, k))
    ensures var id := Attempt(plan, k);
      && Reachable(plan, v) && v.word == COMMITTED
      && Joining(v, CommitJoin, k, Fenced, k, Local(MarkedAs(k, id, Prepared), Some(Job(Server.PublishOutputs(Server.Waves(k)), 0)), None),
                 Server.Commit(id), MarkedAs(k, id, Prepared))
      && v.remote.server.staged == Server.Prepared(id, Server.Waves(k))
  {
    var report := Report(plan.sizes[k], 0, 0);
    v := SendActions(plan, w, k);
    v := BeginThere(plan, v, k);
    v := BeginHere(plan, v, k);
    v := PrepareHere(plan, v, k, report);
    v := PrepareThere(plan, v, k);
    v := ReachBarrier(plan, v, k, report);
    v := ValidateHere(plan, v, k);
    v := ValidateThere(plan, v, k);
    v := ReachFence(plan, v, k);
    v := WinFence(plan, v, k);
  }

  /** From there to where both sides are saved and clear again. */
  lemma FromCommit(plan: Plan, w: World, k: nat) returns (v: World)
    requires var id := Attempt(plan, k);
      && Reachable(plan, w)
      && Joining(w, CommitJoin, k, Fenced, k, Local(MarkedAs(k, id, Prepared), Some(Job(Server.PublishOutputs(Server.Waves(k)), 0)), None),
                 Server.Commit(id), MarkedAs(k, id, Prepared))
      && w.remote.server.staged == Server.Prepared(id, Server.Waves(k))
    ensures Reachable(plan, v) && v.word == w.word
    ensures Past(v, LocalFinish, k, BothSaved, k + 1, Local(Plain(k + 1), None, Some(true)), Idle, Plain(k + 1), Server.NoAttempt)
  {
    v := CommitHere(plan, w, k);
    v := CommitThere(plan, v, k);
    v := MarkHere(plan, v, k);
    v := SaveHere(plan, v, k);
    v := SaveThere(plan, v, k);
    v := AskComplete(plan, v, k);
    v := CompleteThere(plan, v, k);
    v := CompleteHere(plan, v, k);
  }

  lemma {:induction false} DecimalIsPlain(n: nat)
    ensures '\n' !in Decimal(n) && '\r' !in Decimal(n)
  {
    if n >= 10 {
      DecimalIsPlain(n / 10);
    }
    var digits := "0123456789";
    assert '\n' !in digits && '\r' !in digits;
    assert digits[n % 10] in digits;
  }

  lemma DecimalDigits(n: nat)
    ensures Decimal(n) != [] && (n >= 10 <==> |Decimal(n)| > 1)
    ensures Decimal(n)[|Decimal(n)| - 1] == "0123456789"[n % 10]
    ensures n >= 10 ==> Decimal(n)[..|Decimal(n)| - 1] == Decimal(n / 10)
  {
  }

  lemma SameDigit(i: nat, j: nat)
    requires i < 10 && j < 10 && "0123456789"[i] == "0123456789"[j]
    ensures i == j
  {
  }

  lemma {:induction false} DecimalInjective(m: nat, n: nat)
    requires Decimal(m) == Decimal(n)
    ensures m == n
  {
    DecimalDigits(m);
    DecimalDigits(n);
    SameDigit(m % 10, n % 10);
    if m >= 10 {
      DecimalInjective(m / 10, n / 10);
    }
  }

  lemma SameMiddle(front: string, a: string, b: string, back: string)
    requires front + a + back == front + b + back
    ensures a == b
  {
    assert |a| == |b|;
    assert a == (front + a + back)[|front|..|front| + |a|];
    assert b == (front + b + back)[|front|..|front| + |b|];
  }

  /** No two waves of a run have the same attempt identifier, so that the marker or request of one is never
      taken for that of another. */
  lemma AttemptsDiffer(plan: Plan, j: nat, k: nat)
    requires Attempt(plan, j) == Attempt(plan, k)
    ensures j == k
  {
    var back := "-of-" + Decimal(|plan.sizes|);
    assert Attempt(plan, j) == (plan.run + "-wave-") + Decimal(j + 1) + back;
    assert Attempt(plan, k) == (plan.run + "-wave-") + Decimal(k + 1) + back;
    SameMiddle(plan.run + "-wave-", Decimal(j + 1), Decimal(k + 1), back);
    DecimalInjective(j + 1, k + 1);
  }

  /** The identifiers that the coordinator makes are ones that the server accepts. */
  lemma AttemptIsSingleLine(plan: Plan, wave: nat)
    requires '\n' !in plan.run && '\r' !in plan.run
    ensures Server.SingleLine(Attempt(plan, wave))
  {
    DecimalIsPlain(wave + 1);
    DecimalIsPlain(|plan.sizes|);
  }

  lemma OneWave(plan: Plan, w: World, k: nat) returns (v: World)
    requires Reachable(plan, w) && Clean(w, WaveTop, k, PRE_COMMIT) && k + 1 < |plan.sizes| && Server.SingleLine(Attempt(plan, k))
    ensures Reachable(plan, v) && Clean(v, WaveTop, k + 1, PRE_COMMIT)
  {
    v := UpToCommit(plan, w, k);
    v := FromCommit(plan, v, k);
    v := WaveEnds(plan, v, k);
    v := Reset(plan, v, k + 1);
  }

  lemma StartIsClean(plan: Plan)
    ensures Reachable(plan, START) && Clean(START, WaveTop, 0, PRE_COMMIT)
  {
    assert Run(plan, []) == START;
  }

  lemma {:induction false} WavesSucceed(plan: Plan, k: nat) returns (v: World)
    requires k < |plan.sizes| && '\n' !in plan.run && '\r' !in plan.run
    ensures Reachable(plan, v) && Clean(v, WaveTop, k, PRE_COMMIT)
  {
    if k == 0 {
      StartIsClean(plan);
      v := START;
    } else {
      v := WavesSucceed(plan, k - 1);
      AttemptIsSingleLine(plan, k - 1);
      v := OneWave(plan, v, k - 1);
    }
  }

  lemma RunEnds(plan: Plan, w: World) returns (v: World)
    requires Reachable(plan, w) && Clean(w, WaveTop, |plan.sizes|, w.word) && (w.word == COMMITTED || w.word == COMMITTED_INTERRUPTED)
    ensures Reachable(plan, v) && v.pc == Exited(Success, NothingBegun, Success) && v.wave == |plan.sizes|
    ensures v.word == if w.word == COMMITTED then COMPLETE else COMPLETE_INTERRUPTED
  {
    v := Coordinated(plan, w, Report(0, 0, 0));
    v := Coordinated(plan, v, Report(0, 0, 0));
    v := Coordinated(plan, v, Report(0, 0, 0));
  }

  /** Every plan has a run that commits and saves all of its waves on both sides and reports success; with
      or without a signal that arrives, and is deferred, in the last wave. */
  lemma EveryPlanCanSucceed(plan: Plan, signalled: bool)
    requires plan.sizes != [] && '\n' !in plan.run && '\r' !in plan.run
    ensures exists moves ::
      var w := Run(plan, moves);
      && w.pc == Exited(Success, NothingBegun, Success) && w.wave == |plan.sizes|
      && w.word == if signalled then COMPLETE_INTERRUPTED else COMPLETE
  {
    var last := |plan.sizes| - 1;
    AttemptIsSingleLine(plan, last);
    var v := WavesSucceed(plan, last);
    v := UpToCommit(plan, v, last);
    if signalled {
      v := DeferSignal(plan, v);
    }
    v := FromCommit(plan, v, last);
    v := LastWaveEnds(plan, v, last);
    v := RunEnds(plan, v);
    var moves :| Run(plan, moves) == v;
    assert Run(plan, moves).pc == Exited(Success, NothingBegun, Success);
  }

  // ----- Runs that are cancelled -----

  /** A signal that arrives before the fence is accepted as a cancel. */
  lemma CancelSignal(plan: Plan, w: World) returns (v: World)
    requires Reachable(plan, w) && w.word == PRE_COMMIT && 0 !in w.handlers
    ensures Reachable(plan, v) && v == w.(word := CANCEL_REQUESTED, log := v.log)
  {
    Extend(plan, w, Signal(0));
    v := HandleSignal(w, 0);
    assert v.handlers - {0} == w.handlers;
    Extend(plan, v, Signal(0));
    v := HandleSignal(v, 0);
  }

  /** The local marker is gone and the peer is still preparing. */
  predicate HalfAborted(w: World, pc: Pc, k: nat, id: Server.AttemptId) {
    && w.pc == pc && w.wave == k && w.word == CANCEL_REQUESTED && Streaming(w, k, id)
    && w.local == Local(Plain(k), None, Some(true)) && w.remote.disk == MarkedAs(k, id, Preparing) && w.remote.task.None?
  }

  lemma CancelHere(plan: Plan, w: World, k: nat) returns (v: World)
    requires var id := Attempt(plan, k);
      && Reachable(plan, w) && Streaming(w, k, id)
      && Still(w, Pc.Streaming, k, CANCEL_REQUESTED, MarkedAs(k, id, Preparing), MarkedAs(k, id, Preparing))
    ensures Reachable(plan, v) && HalfAborted(v, CleanLocal(true), k, Attempt(plan, k)) && v.remote.inbox == [] && v.call.Idle?
  {
    v := Coordinated(plan, w, Report(0, 0, 0));
    v := FinishJob(plan, v, Plain(k));
  }

  lemma AskCancel(plan: Plan, w: World, k: nat) returns (v: World)
    requires Reachable(plan, w) && HalfAborted(w, CleanLocal(true), k, Attempt(plan, k)) && w.remote.inbox == [] && w.call.Idle?
    ensures Reachable(plan, v) && HalfAborted(v, CleanRemote(true, CleanedUp(true, false)), k, Attempt(plan, k))
    ensures v.remote.inbox == [Server.Abort(Attempt(plan, k))] && v.call.Waiting?
  {
    v := Coordinated(plan, w, Report(0, 0, 0));
  }

  lemma CancelThere(plan: Plan, w: World, k: nat) returns (v: World)
    requires Reachable(plan, w) && HalfAborted(w, CleanRemote(true, CleanedUp(true, false)), k, Attempt(plan, k))
    requires w.remote.inbox == [Server.Abort(Attempt(plan, k))] && w.call.Waiting?
    ensures Reachable(plan, v) && v.pc == w.pc && v.wave == k && v.word == CANCEL_REQUESTED && v.call == Answered(Server.Done)
    ensures v.local == w.local && v.remote.disk == Plain(k)
  {
    v := Serve(plan, w, Server.RemoveMarker, Plain(k));
  }

  lemma ReportCancelled(plan: Plan, w: World) returns (v: World)
    requires Reachable(plan, w) && w.pc == CleanRemote(true, CleanedUp(true, false)) && w.word == CANCEL_REQUESTED
    requires w.call == Answered(Server.Done)
    ensures Reachable(plan, v) && v == w.(call := Idle, pc := Exited(Interrupted, CleanedUp(true, true), Interrupted))
  {
    v := Coordinated(plan, w, Report(0, 0, 0));
    v := Coordinated(plan, v, Report(0, 0, 0));
    v := Coordinated(plan, v, Report(0, 0, 0));
  }

  lemma ReachStreaming(plan: Plan, k: nat) returns (v: World)
    requires k < |plan.sizes| && '\n' !in plan.run && '\r' !in plan.run
    ensures var id := Attempt(plan, k);
      && Reachable(plan, v) && Streaming(v, k, id)
      && Still(v, Pc.Streaming, k, PRE_COMMIT, MarkedAs(k, id, Preparing), MarkedAs(k, id, Preparing))
  {
    AttemptIsSingleLine(plan, k);
    v := WavesSucceed(plan, k);
    v := SendActions(plan, v, k);
    v := BeginThere(plan, v, k);
    v := BeginHere(plan, v, k);
  }

  /** Any wave of any plan can be cancelled: the run reports an interruption, and leaves both sides, without
      markers, as the waves before that one made them. */
  lemma EveryWaveCanBeCancelled(plan: Plan, k: nat)
    requires k < |plan.sizes| && '\n' !in plan.run && '\r' !in plan.run
    ensures exists moves ::
      var w := Run(plan, moves);
      w.pc == Exited(Interrupted, CleanedUp(true, true), Interrupted) && w.wave == k && w.local.disk == Plain(k) && w.remote.disk == Plain(k)
  {
    var v := ReachStreaming(plan, k);
    v := CancelSignal(plan, v);
    v := CancelHere(plan, v, k);
    v := AskCancel(plan, v, k);
    v := CancelThere(plan, v, k);
    v := ReportCancelled(plan, v);
    var moves :| Run(plan, moves) == v;
    assert Run(plan, moves).pc == Exited(Interrupted, CleanedUp(true, true), Interrupted);
  }

  // ----- Leftovers of runs that end before the fence -----

  lemma FirstBegin(plan: Plan) returns (v: World)
    requires plan.sizes != [] && '\n' !in plan.run && '\r' !in plan.run
    ensures Reachable(plan, v) && Clean(v, Signatures, 0, PRE_COMMIT) && v.remote.server.actionsReady
  {
    StartIsClean(plan);
    v := SendActions(plan, START, 0);
  }

  /** When the call that begins an attempt breaks, the coordinator returns without an abort, and the server
      that goes on with the call leaves a marker on the untouched peer. */
  lemma BrokenBeginLeavesMarker(plan: Plan)
    requires plan.sizes != [] && '\n' !in plan.run && '\r' !in plan.run
    ensures exists moves ::
      var w := Run(plan, moves);
      w.pc == Returned(Failure, BeginFailed, None) && w.remote.disk == MarkedAs(0, Attempt(plan, 0), Preparing)
  {
    AttemptIsSingleLine(plan, 0);
    var v := FirstBegin(plan);
    v := Coordinated(plan, v, Report(0, 0, 0));
    v := BreakAndReturn(plan, v);
    v := BeginLate(plan, v);
    var moves :| Run(plan, moves) == v;
    assert Run(plan, moves).pc == Returned(Failure, BeginFailed, None);
  }

  lemma BreakAndReturn(plan: Plan, w: World) returns (v: World)
    requires Reachable(plan, w) && w.pc == AwaitBegin && w.call.Waiting?
    ensures Reachable(plan, v) && v == w.(call := Broken, pc := Returned(Failure, BeginFailed, None))
  {
    Extend(plan, w, Break);
    v := Coordinated(plan, BreakConnection(w), Report(0, 0, 0));
  }

  lemma BeginLate(plan: Plan, w: World) returns (v: World)
    requires Reachable(plan, w) && w.remote.inbox == [Server.Begin(Attempt(plan, 0))] && w.remote.task.None?
    requires Server.Enter(w.remote.server, Server.Begin(Attempt(plan, 0))).1 == Server.Run(Server.CreateMarker)
    requires w.remote.disk == Plain(0)
    ensures Reachable(plan, v) && v.pc == w.pc && v.remote.disk == MarkedAs(0, Attempt(plan, 0), Preparing)
  {
    Extend(plan, w, WorkThere(false, false));
    v := FinishTask(plan, RemoteWork(w, false, false), MarkedAs(0, Attempt(plan, 0), Preparing));
  }

  /** When creating the local marker fails after the marker exists, the abort on the peer succeeds and the
      local marker stays. */
  lemma FailedStartLeavesMarker(plan: Plan)
    requires plan.sizes != [] && '\n' !in plan.run && '\r' !in plan.run
    ensures exists moves ::
      var w := Run(plan, moves);
      && w.pc == Returned(Failure, StartFailed(true), None) && w.remote.server.staged == Server.Aborted(Attempt(plan, 0))
      && w.local.disk == MarkedAs(0, Attempt(plan, 0), Preparing) && w.remote.disk == Plain(0)
  {
    AttemptIsSingleLine(plan, 0);
    var v := FirstBegin(plan);
    v := BeginThere(plan, v, 0);
    v := FailAfterCreating(plan, v);
    v := AbortThere(plan, v);
    var moves :| Run(plan, moves) == v;
    assert Run(plan, moves).pc == Returned(Failure, StartFailed(true), None);
  }

  predicate HalfStarted(w: World, id: Server.AttemptId) {
    && Streaming(w, 0, id) && w.wave == 0 && w.remote.inbox == [] && w.remote.task.None?
    && w.remote.disk == MarkedAs(0, id, Preparing)
  }

  lemma FailAfterCreating(plan: Plan, w: World) returns (v: World)
    requires var id := Attempt(plan, 0);
      Reachable(plan, w) && Streaming(w, 0, id) && Still(w, AfterBegin, 0, PRE_COMMIT, Plain(0), MarkedAs(0, id, Preparing))
    ensures var id := Attempt(plan, 0);
      && Reachable(plan, v) && HalfStarted(v, id) && v.pc == LocalStart
      && v.local == Local(MarkedAs(0, id, Preparing), None, Some(false))
  {
    v := Coordinated(plan, w, Report(0, 0, 0));
    Extend(plan, v, WorkHere(false));
    v := LocalWork(plan, v, false);
    Extend(plan, v, WorkHere(true));
    v := LocalWork(plan, v, true);
  }

  lemma AskAbort(plan: Plan, w: World) returns (v: World)
    requires var id := Attempt(plan, 0);
      && Reachable(plan, w) && HalfStarted(w, id) && w.pc == LocalStart
      && w.local == Local(MarkedAs(0, id, Preparing), None, Some(false))
    ensures Reachable(plan, v) && v.call.Waiting? && v.local == w.local && v.pc == CleanRemote(false, StartFailed(false))
    ensures v.remote == w.remote.(inbox := [Server.Abort(Attempt(plan, 0))])
  {
    v := Coordinated(plan, w, Report(0, 0, 0));
  }

  lemma AbortThere(plan: Plan, w: World) returns (v: World)
    requires var id := Attempt(plan, 0);
      && Reachable(plan, w) && HalfStarted(w, id) && w.pc == LocalStart
      && w.local == Local(MarkedAs(0, id, Preparing), None, Some(false))
    ensures Reachable(plan, v) && v.pc == Returned(Failure, StartFailed(true), None)
    ensures v.local == w.local && v.remote.server.staged == Server.Aborted(Attempt(plan, 0)) && v.remote.disk == Plain(0)
  {
    v := AskAbort(plan, w);
    v := Serve(plan, v, Server.RemoveMarker, Plain(0));
    v := Coordinated(plan, v, Report(0, 0, 0));
  }

  /** Stopping between preparation and validation leaves both sides marked, and no abort is tried. */
  lemma BarrierStopLeavesMarkers(plan: Plan)
    requires plan.sizes != [] && '\n' !in plan.run && '\r' !in plan.run
    ensures exists moves ::
      var w := Run(plan, moves); var id := Attempt(plan, 0);
      && w.pc == Returned(Failure, StoppedAtBarrier, None)
      && w.local.disk == MarkedAs(0, id, Prepared) && w.remote.disk == MarkedAs(0, id, Prepared)
  {
    var report := Report(plan.sizes[0], 0, 0);
    AttemptIsSingleLine(plan, 0);
    var v := FirstBegin(plan);
    v := BeginThere(plan, v, 0);
    v := BeginHere(plan, v, 0);
    v := PrepareHere(plan, v, 0, report);
    v := PrepareThere(plan, v, 0);
    v := ReachBarrier(plan, v, 0, report);
    v := StopAtBarrier(plan, v);
    var moves :| Run(plan, moves) == v;
    assert Run(plan, moves).pc == Returned(Failure, StoppedAtBarrier, None);
  }

  lemma StopAtBarrier(plan: Plan, w: World) returns (v: World)
    requires Reachable(plan, w) && Ready(w, Barrier, 0, Attempt(plan, 0), Idle) && plan.sizes != []
    requires Acceptable(w.localReport, plan.sizes[0]) && Acceptable(w.remoteReport, plan.sizes[0])
    ensures Reachable(plan, v) && v == w.(pc := Returned(Failure, StoppedAtBarrier, None))
  {
    Extend(plan, w, Coordinate(false, Report(0, 0, 0)));
    v := Coordinator(plan, w, false, Report(0, 0, 0));
  }

  /** Refused and broken aborts leave both sides marked. */
  lemma FailedAbortsLeaveMarkers(plan: Plan)
    requires plan.sizes != [] && '\n' !in plan.run && '\r' !in plan.run
    ensures exists moves ::
      var w := Run(plan, moves); var id := Attempt(plan, 0);
      && w.pc == Returned(Failure, CleanedUp(false, false), None)
      && w.local.disk == MarkedAs(0, id, Preparing) && w.remote.disk == MarkedAs(0, id, Preparing)
  {
    AttemptIsSingleLine(plan, 0);
    var v := FirstBegin(plan);
    v := BeginThere(plan, v, 0);
    v := BeginHere(plan, v, 0);
    v := RefuseAbortHere(plan, v);
    v := BreakAbortThere(plan, v);
    var moves :| Run(plan, moves) == v;
    assert Run(plan, moves).pc == Returned(Failure, CleanedUp(false, false), None);
  }

  predicate Refused(w: World, id: Server.AttemptId) {
    && w.pc == CleanLocal(false) && w.wave == 0 && w.call.Idle? && w.remote.disk == MarkedAs(0, id, Preparing)
    && w.local == Local(MarkedAs(0, id, Preparing), None, Some(false))
  }

  lemma RefuseAbortHere(plan: Plan, w: World) returns (v: World)
    requires var id := Attempt(plan, 0);
      && Reachable(plan, w) && Streaming(w, 0, id)
      && Still(w, Pc.Streaming, 0, PRE_COMMIT, MarkedAs(0, id, Preparing), MarkedAs(0, id, Preparing))
    ensures Reachable(plan, v) && Refused(v, Attempt(plan, 0))
  {
    Extend(plan, w, Coordinate(false, Report(0, 0, 0)));
    v := Coordinator(plan, w, false, Report(0, 0, 0));
    Extend(plan, v, WorkHere(true));
    v := LocalWork(plan, v, true);
  }

  lemma BreakAbortThere(plan: Plan, w: World) returns (v: World)
    requires Reachable(plan, w) && Refused(w, Attempt(plan, 0))
    ensures Reachable(plan, v) && v.pc == Returned(Failure, CleanedUp(false, false), None)
    ensures v.local == w.local && v.remote.disk == w.remote.disk
  {
    v := Coordinated(plan, w, Report(0, 0, 0));
    Extend(plan, v, Break);
    v := Coordinated(plan, BreakConnection(v), Report(0, 0, 0));
  }
}
