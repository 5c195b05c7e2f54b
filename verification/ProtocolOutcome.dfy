/** What a run reports when nothing fails: over all interleavings and all signals it reports an interruption if
    it was cancelled or waves are left, and success otherwise, but never a failure. */
module ProtocolOutcome {
  import opened Wrappers
  import opened Staging
  import opened Protocol
  import opened ProtocolSafety
  import opened ProtocolTheorems
  import opened ProtocolProgress
  import Server

  // ----- Moves with which nothing fails -----

  predicate Sound(plan: Plan, wave: nat, report: Report) {
    wave < |plan.sizes| ==> Acceptable(report, plan.sizes[wave])
  }

  /** The move brings no failure from outside, no lost reply and no broken connection; signals are free. */
  predicate IsSmooth(plan: Plan, w: World, move: Move) {
    match move
    case Coordinate(go, report) => go && Sound(plan, w.wave, report)
    case WorkHere(fail) => !fail
    case WorkThere(fail, lost) => !fail && !lost
    case Break => false
    case Signal(_) => true
  }

  ghost predicate SmoothRun(plan: Plan, moves: seq<Move>)
    decreases |moves|
  {
    moves == [] ||
    (SmoothRun(plan, moves[..|moves| - 1]) && IsSmooth(plan, Run(plan, moves[..|moves| - 1]), moves[|moves| - 1]))
  }

  // ----- Work that will succeed -----

  predicate CanFinish(op: Server.Op, done: nat, id: Server.AttemptId, manifest: Server.Provenance, d: Disk) {
    done <= Changes(op) && Changed(op, done, id, manifest, d).Some?
  }

  lemma ChangeGoesOn(op: Server.Op, done: nat, id: Server.AttemptId, manifest: Server.Provenance, d: Disk)
    requires CanFinish(op, done, id, manifest, d) && done < Changes(op)
    ensures Change(op, done, id, manifest, d).Some?
    ensures CanFinish(op, done + 1, id, manifest, Change(op, done, id, manifest, d).value)
  {
  }

  predicate JobFlows(id: Server.AttemptId, manifest: Server.Provenance, l: Local) {
    && l.result != Some(false)
    && (l.job.Some? ==> CanFinish(l.job.value.op, l.job.value.done, id, manifest, l.disk))
  }

  lemma LocalStepFlows(id: Server.AttemptId, manifest: Server.Provenance, l: Local)
    requires JobFlows(id, manifest, l)
    ensures JobFlows(id, manifest, LocalStep(l, id, manifest, false))
  {
    if l.job.Some? && l.job.value.done < Changes(l.job.value.op) {
      ChangeGoesOn(l.job.value.op, l.job.value.done, id, manifest, l.disk);
    }
  }

  // ----- Requests that will be accepted -----

  /** The server is preparing with `stream`, and marked so. */
  predicate Opens(r: Remote, id: Server.AttemptId, stream: Server.StreamId) {
    && r.server.staged == Server.Preparing(id, Some(stream))
    && stream in r.server.streams && r.server.streams[stream].StagedStream?
    && Marked(r.disk, id, Preparing)
  }

  predicate Seals(r: Remote, id: Server.AttemptId) {
    r.server.staged.Prepared? && r.server.staged.attempt == id && Marked(r.disk, id, Prepared)
  }

  /** What the server must be like for a request to succeed, and while it is worked on. */
  predicate Fits(r: Remote, req: Server.Request) {
    match req
    case SetActions => r.server.changesReady
    case Begin(id) =>
      Server.SingleLine(id) && r.server.changesReady && r.server.actionsReady && r.server.staged.NoAttempt? && r.disk.marker.None?
    case FinishPrepare(stream, id) => Opens(r, id, stream)
    case Validate(id) => Seals(r, id)
    case Abort(id) => Seals(r, id) || (r.server.staged.Preparing? && r.server.staged.stream.Some? && Opens(r, id, r.server.staged.stream.value))
    case Commit(id) => Seals(r, id)
    case SaveState(id) => r.server.staged == Server.Committed(id, false, false) && Marked(r.disk, id, Committed)
    case Complete(id) => r.server.staged == Server.Committed(id, true, true) && Marked(r.disk, id, StateSave)
    case _ => false
  }

  predicate Working(r: Remote, req: Server.Request, t: Task) {
    && CanFinish(t.op, t.done, AttemptOf(req), r.server.allOld, r.disk)
    && match req
       case SetActions => t.op.AcceptActions? && r.server.changesReady
       case Begin(id) => t.op.CreateMarker? && r.server.staged.NoAttempt? && (t.done >= 1 ==> Marked(r.disk, id, Preparing))
       case FinishPrepare(_, id) => t.op.SealOutputs? && (t.done >= 1 ==> Marked(r.disk, id, Prepared))
       case Validate(id) => t.op.CheckOutputs? && Seals(r, id)
       case Abort(id) => t.op.RemoveMarker?
       case Commit(id) => t.op.PublishOutputs?
       case SaveState(id) =>
         if t.op.MarkStateSave? then r.server.staged == Server.Committed(id, false, false)
         else t.op.WriteSnapshot? && r.server.staged == Server.Committed(id, true, false)
       case Complete(_) => t.op.FinishMarker?
       case _ => false
  }

  predicate Serves(r: Remote, req: Server.Request) {
    r.inbox == [req] && if r.task.None? then Fits(r, req) else Working(r, req, r.task.value)
  }

  /** The reply that the coordinator hopes for. */
  predicate Welcome(req: Server.Request, reply: Server.Reply) {
    if req.Begin? then reply.Opened? else reply.Done?
  }

  /** What a welcome reply leaves, as far as the next request needs it. */
  predicate Leaves(r: Remote, req: Server.Request, reply: Server.Reply) {
    match req
    case SetActions => r.server.actionsReady
    case Begin(id) => reply.Opened? && Opens(r, id, reply.stream)
    case _ => true
  }

  lemma EnterFlows(r: Remote, req: Server.Request)
    requires Serves(r, req) && r.task.None?
    ensures var (after, reply) := RemoteStep(r, false); reply.None? && Serves(after, req)
  {
    if req.Commit? {
      CommitCanFinish(r.disk, req.attempt, r.server.allOld, r.server.staged.base);
    }
  }

  lemma CommitCanFinish(d: Disk, id: Server.AttemptId, m: Server.Provenance, base: Server.Provenance)
    requires Marked(d, id, Prepared)
    ensures CanFinish(Server.PublishOutputs(base), 0, id, m, d)
  {
    var op := Server.PublishOutputs(base);
    var d1 := d.(marker := Some(Marker(id, Committing)));
    var d2 := d1.(files := Torn(d1.files.n));
    var d3 := d2.(files := Whole(d2.files.n + 1));
    assert Changed(op, 4, id, m, d3.(marker := Some(Marker(id, Committed)))).Some?;
    assert Changed(op, 3, id, m, d3).Some?;
    assert Changed(op, 2, id, m, d2).Some?;
    assert Changed(op, 1, id, m, d1).Some?;
  }

  lemma WorkFlows(r: Remote, req: Server.Request)
    requires Serves(r, req) && r.task.Some? && r.task.value.done < Changes(r.task.value.op)
    ensures var (after, reply) := RemoteStep(r, false);
      reply.None? && Serves(after, req) && after.server == r.server
  {
    ChangeGoesOn(r.task.value.op, r.task.value.done, AttemptOf(req), r.server.allOld, r.disk);
  }

  lemma AnswerFlows(r: Remote, req: Server.Request)
    requires Serves(r, req) && r.task.Some? && r.task.value.done == Changes(r.task.value.op)
    ensures var (after, reply) := RemoteStep(r, false);
      if reply.None? then Serves(after, req) else Welcome(req, reply.value) && Leaves(after, req, reply.value)
  {
  }

  lemma RemoteStepFlows(r: Remote, req: Server.Request)
    requires Serves(r, req)
    ensures var (after, reply) := RemoteStep(r, false);
      if reply.None? then Serves(after, req) else Welcome(req, reply.value) && Leaves(after, req, reply.value)
  {
    if r.task.None? {
      EnterFlows(r, req);
    } else if r.task.value.done < Changes(r.task.value.op) {
      WorkFlows(r, req);
    } else {
      AnswerFlows(r, req);
    }
  }

  lemma ChangesStayReady(r: Remote, req: Server.Request, fail: bool)
    requires r.inbox == [req] && r.server.changesReady && (req.SetActions? || Server.ForAttempt(req) || req.Validate?)
    ensures RemoteStep(r, fail).0.server.changesReady
  {
  }

  // ----- Runs in which nothing has failed -----

  /** The request that the coordinator is waiting for. */
  function Asked(pc: Pc, id: Server.AttemptId, stream: Server.StreamId): Server.Request {
    match pc
    case AwaitActions => Server.SetActions
    case AwaitBegin => Server.Begin(id)
    case AwaitPrepare => Server.FinishPrepare(stream, id)
    case Validating => Server.Validate(id)
    case CommitJoin => Server.Commit(id)
    case SaveJoin => Server.SaveState(id)
    case AwaitComplete => Server.Complete(id)
    case _ => Server.Abort(id)
  }

  predicate CallFlows(pc: Pc, id: Server.AttemptId, stream: Server.StreamId, call: RemoteCall, r: Remote) {
    && r.server.changesReady && !call.Broken?
    && (call.Waiting? ==> Serves(r, Asked(pc, id, stream)))
    && (call.Answered? ==> Welcome(Asked(pc, id, stream), call.reply) && Leaves(r, Asked(pc, id, stream), call.reply))
  }

  predicate PcFlows(pc: Pc, id: Server.AttemptId, stream: Server.StreamId, r: Remote) {
    match pc
    case Signatures => r.server.actionsReady
    case AfterBegin | LocalStart | Streaming | LocalPrepare | AfterPrepare => Opens(r, id, stream)
    case CleanLocal(interrupted) => interrupted && (Opens(r, id, stream) || Seals(r, id))
    case CleanRemote(interrupted, exit) => interrupted && (exit.BeginCancelled? || (exit.CleanedUp? && exit.here))
    case Returned(result, _, _) => !result.Failure?
    case Exited(result, _, outcome) => !result.Failure? && !outcome.Failure?
    case _ => true
  }

  predicate ReportsFlow(plan: Plan, pc: Pc, wave: nat, here: Report, peer: Report) {
    && (pc.AfterPrepare? || pc.AwaitPrepare? || pc.Barrier? ==> Sound(plan, wave, here))
    && (pc.Barrier? ==> Sound(plan, wave, peer))
  }

  predicate Flows(plan: Plan, w: World) {
    var id := Attempt(plan, w.wave);
    && JobFlows(id, Server.Waves(w.checkpoint), w.local)
    && CallFlows(w.pc, id, w.stream, w.call, w.remote)
    && PcFlows(w.pc, id, w.stream, w.remote)
    && ReportsFlow(plan, w.pc, w.wave, w.localReport, w.remoteReport)
  }

  lemma TopFlows(plan: Plan, w: World)
    requires Core(plan, w) && Flows(plan, w) && (w.pc.WaveTop? || w.pc.AwaitActions?)
    ensures Flows(plan, BeforeStaging(plan, w, true))
  {
  }

  lemma BeginFlows(plan: Plan, w: World)
    requires Core(plan, w) && Flows(plan, w) && (w.pc.Signatures? || w.pc.AwaitBegin?) && Server.SingleLine(Attempt(plan, w.wave))
    ensures Flows(plan, BeforeStaging(plan, w, true))
  {
  }

  lemma StartFlows(plan: Plan, w: World)
    requires Core(plan, w) && Flows(plan, w) && (w.pc.AfterBegin? || w.pc.LocalStart?)
    ensures Flows(plan, BeforeStaging(plan, w, true))
  {
  }

  lemma PreparationFlows(plan: Plan, w: World, report: Report)
    requires Core(plan, w) && Flows(plan, w) && (w.pc.Streaming? || w.pc.LocalPrepare?) && Sound(plan, w.wave, report)
    ensures Flows(plan, StageBoth(plan, w, true, report))
  {
  }

  lemma AskPreparationFlows(plan: Plan, w: World, report: Report)
    requires Core(plan, w) && Flows(plan, w) && w.pc.AfterPrepare? && Sound(plan, w.wave, report)
    ensures Flows(plan, StageBoth(plan, w, true, report))
  {
  }

  lemma PeerPreparationFlows(plan: Plan, w: World, report: Report)
    requires Core(plan, w) && Flows(plan, w) && w.pc.AwaitPrepare? && Sound(plan, w.wave, report)
    ensures Flows(plan, StageBoth(plan, w, true, report))
  {
  }

  lemma ValidationFlows(plan: Plan, w: World, report: Report)
    requires Core(plan, w) && Flows(plan, w) && (w.pc.Barrier? || w.pc.Validating?) && Sound(plan, w.wave, report)
    ensures Flows(plan, StageBoth(plan, w, true, report))
  {
  }

  lemma FenceFlows(plan: Plan, w: World, report: Report)
    requires Core(plan, w) && Flows(plan, w) && w.pc.Fence? && Sound(plan, w.wave, report)
    ensures Flows(plan, StageBoth(plan, w, true, report))
  {
    CommitCanFinish(w.local.disk, Attempt(plan, w.wave), Server.Waves(w.checkpoint), Server.Waves(w.checkpoint));
  }

  lemma CommitFlows(plan: Plan, w: World)
    requires Core(plan, w) && Flows(plan, w) && w.pc.CommitJoin?
    ensures Flows(plan, FinishCommit(plan, w))
  {
  }

  lemma MarkingFlows(plan: Plan, w: World)
    requires Core(plan, w) && Flows(plan, w) && w.pc.Marking?
    ensures Flows(plan, FinishCommit(plan, w))
  {
  }

  lemma SavingFlows(plan: Plan, w: World)
    requires Core(plan, w) && Flows(plan, w) && w.pc.SaveJoin?
    ensures Flows(plan, FinishCommit(plan, w))
  {
  }

  lemma CompletionFlows(plan: Plan, w: World)
    requires Core(plan, w) && Flows(plan, w) && w.pc.AwaitComplete?
    ensures Flows(plan, FinishCommit(plan, w))
  {
  }

  lemma CheckpointFlows(plan: Plan, w: World)
    requires Core(plan, w) && Flows(plan, w) && (w.pc.LocalFinish? || w.pc.ResetSwap? || w.pc.ResetLoad?) && WordAt(plan, w)
    ensures Flows(plan, FinishCommit(plan, w))
  {
  }

  lemma CleanLocalFlows(plan: Plan, w: World)
    requires Core(plan, w) && Flows(plan, w) && w.pc.CleanLocal?
    ensures Flows(plan, WindUp(plan, w, true))
  {
  }

  lemma CleanRemoteFlows(plan: Plan, w: World)
    requires Core(plan, w) && Flows(plan, w) && w.pc.CleanRemote?
    ensures Flows(plan, WindUp(plan, w, true))
  {
  }

  lemma ReturnFlows(plan: Plan, w: World)
    requires Core(plan, w) && Flows(plan, w) && w.pc.Returned? && w.pc.seen.None?
    ensures Flows(plan, WindUp(plan, w, true))
  {
  }

  lemma ExitFlows(plan: Plan, w: World)
    requires Core(plan, w) && Flows(plan, w) && (w.pc.Exited? || (w.pc.Returned? && w.pc.seen.Some?))
    ensures Flows(plan, WindUp(plan, w, true))
  {
  }

  lemma BeginningFlows(plan: Plan, w: World)
    requires Core(plan, w) && Flows(plan, w) && Beginning(w.pc) && Server.SingleLine(Attempt(plan, w.wave))
    ensures Flows(plan, BeforeStaging(plan, w, true))
  {
    match w.pc
    case WaveTop | AwaitActions => TopFlows(plan, w);
    case Signatures | AwaitBegin => BeginFlows(plan, w);
    case AfterBegin | LocalStart => StartFlows(plan, w);
  }

  lemma EndFlows(plan: Plan, w: World)
    requires Core(plan, w) && Flows(plan, w) && InEnd(w.pc)
    ensures Flows(plan, WindUp(plan, w, true))
  {
    if w.pc.CleanLocal? {
      CleanLocalFlows(plan, w);
    } else if w.pc.CleanRemote? {
      CleanRemoteFlows(plan, w);
    } else if w.pc.Returned? && w.pc.seen.None? {
      ReturnFlows(plan, w);
    } else {
      ExitFlows(plan, w);
    }
  }

  lemma StagingFlows(plan: Plan, w: World, report: Report)
    requires Core(plan, w) && Flows(plan, w) && InStaging(w.pc) && Sound(plan, w.wave, report)
    ensures Flows(plan, StageBoth(plan, w, true, report))
  {
    match w.pc
    case Streaming | LocalPrepare => PreparationFlows(plan, w, report);
    case AfterPrepare => AskPreparationFlows(plan, w, report);
    case AwaitPrepare => PeerPreparationFlows(plan, w, report);
    case Barrier | Validating => ValidationFlows(plan, w, report);
    case Fence => FenceFlows(plan, w, report);
  }

  lemma CommittingFlows(plan: Plan, w: World)
    requires Core(plan, w) && Flows(plan, w) && InCommit(w.pc) && WordAt(plan, w)
    ensures Flows(plan, FinishCommit(plan, w))
  {
    match w.pc
    case CommitJoin => CommitFlows(plan, w);
    case Marking => MarkingFlows(plan, w);
    case SaveJoin => SavingFlows(plan, w);
    case AwaitComplete => CompletionFlows(plan, w);
    case LocalFinish | ResetSwap | ResetLoad => CheckpointFlows(plan, w);
  }

  lemma LocalWorkFlows(plan: Plan, w: World)
    requires Flows(plan, w)
    ensures Flows(plan, LocalWork(plan, w, false))
  {
    LocalStepFlows(Attempt(plan, w.wave), Server.Waves(w.checkpoint), w.local);
  }

  lemma RemoteWorkFlows(plan: Plan, w: World)
    requires Core(plan, w) && Flows(plan, w)
    ensures Flows(plan, RemoteWork(w, false, false))
  {
    StepShape(w.remote, false);
    if w.call.Waiting? {
      var req := Asked(w.pc, Attempt(plan, w.wave), w.stream);
      RemoteStepFlows(w.remote, req);
      ChangesStayReady(w.remote, req, false);
    }
  }

  lemma CoordinatorFlows(plan: Plan, w: World, report: Report)
    requires Core(plan, w) && Flows(plan, w) && WordAt(plan, w) && Sound(plan, w.wave, report)
    requires Server.SingleLine(Attempt(plan, w.wave))
    ensures Flows(plan, Coordinator(plan, w, true, report))
  {
    if Beginning(w.pc) {
      BeginningFlows(plan, w);
    } else if InStaging(w.pc) {
      StagingFlows(plan, w, report);
    } else if InCommit(w.pc) {
      CommittingFlows(plan, w);
    } else {
      EndFlows(plan, w);
    }
  }

  lemma SignalFlows(plan: Plan, w: World, thread: nat)
    requires InterruptInv(plan, w) && Flows(plan, w)
    ensures Flows(plan, HandleSignal(w, thread))
  {
    SignalKeepsInterrupts(plan, w, thread);
  }

  lemma StepFlows(plan: Plan, w: World, move: Move)
    requires Core(plan, w) && InterruptInv(plan, w) && Flows(plan, w) && IsSmooth(plan, w, move)
    requires Server.SingleLine(Attempt(plan, w.wave))
    ensures Flows(plan, Step(plan, w, move))
  {
    match move
    case Coordinate(_, report) => CoordinatorFlows(plan, w, report);
    case WorkHere(_) => LocalWorkFlows(plan, w);
    case WorkThere(_, _) => RemoteWorkFlows(plan, w);
    case Signal(thread) => SignalFlows(plan, w, thread);
  }

  lemma {:induction false} SmoothRunFlows(plan: Plan, moves: seq<Move>)
    requires SmoothRun(plan, moves) && '\n' !in plan.run && '\r' !in plan.run
    ensures Flows(plan, Run(plan, moves))
    decreases |moves|
  {
    if moves != [] {
      var init, last := moves[..|moves| - 1], moves[|moves| - 1];
      assert Moved(plan, moves) == Step(plan, Run(plan, init), last);
      SmoothRunFlows(plan, init);
      RunKeeps(plan, init);
      AttemptIsSingleLine(plan, Run(plan, init).wave);
      StepFlows(plan, Run(plan, init), last);
    }
  }

  /** When nothing fails, no interleaving and no signal makes a run report a failure. It reports an interruption
      exactly when it was cancelled or, after a deferred signal, waves are left; and success otherwise, which
      is certain without a signal. */
  lemma SmoothRunOutcome(plan: Plan, moves: seq<Move>)
    requires SmoothRun(plan, moves) && '\n' !in plan.run && '\r' !in plan.run
    ensures var w := Run(plan, moves);
      w.pc.Exited? ==>
        && w.pc.outcome == (if Signalled(Cancel) in w.log || w.wave < |plan.sizes| then Interrupted else Success)
        && (NonForce(w.log) == 0 ==> w.pc.outcome == Success)
  {
    SmoothRunFlows(plan, moves);
    InterruptOutcome(plan, moves);
    ReportIsTrue(plan, moves);
    DeferredAllowsSuccess(plan, moves);
    RunStage(plan, moves);
    RunInterrupts(plan, moves);
    WaveInPlan(plan, moves);
  }

  lemma WaveInPlan(plan: Plan, moves: seq<Move>)
    ensures Run(plan, moves).wave <= |plan.sizes|
  {
    RunKeeps(plan, moves);
  }
}
