/** What every step of a run keeps: which states the two disks, the server and the connection can be in
    at each point of the coordinator's program. */
module ProtocolSafety {
  import opened Wrappers
  import opened Staging
  import opened Protocol
  import Server

  // ----- This side -----

  predicate Running(l: Local, op: Server.Op) {
    if l.job.Some? then l.job.value.op == op && l.job.value.done <= Changes(op) && l.result.None? else l.result.Some?
  }

  /** The job has made `n` changes, or ended well. */
  predicate Made(l: Local, n: nat) {
    if l.job.Some? then l.job.value.done >= n else l.result == Some(true)
  }

  predicate Rests(stage: Stage, k: nat, id: Server.AttemptId, d: Disk) {
    match stage
    case Before => Early(d, k, id)
    case Fenced => Mid(d, k, id)
    case BothCommitted => Late(d, k, id)
    case BothSaved => Ending(d, k, id)
  }

  /** The exits after which this side, and the peer, are clear. */
  predicate ClearHere(exit: Exit) {
    exit.NothingBegun? || exit.BeginFailed? || exit.BeginCancelled? || (exit.CleanedUp? && exit.here)
  }

  predicate ClearThere(exit: Exit) {
    exit.NothingBegun? || (AbortsPeer(exit) && exit.peer)
  }

  predicate StageAt(pc: Pc, stage: Stage) {
    match pc
    case CommitJoin => stage == Fenced
    case Marking | SaveJoin => stage == BothCommitted
    case AwaitComplete | LocalFinish => stage == BothSaved
    case Returned(_, exit, _) => exit.PastFence? <==> stage != Before
    case Exited(_, exit, _) => exit.PastFence? <==> stage != Before
    case Unreachable => false
    case _ => stage == Before
  }

  /** What an exit leaves on this side, and on the peer. */
  predicate LeftHere(exit: Exit, k: nat, id: Server.AttemptId, d: Disk) {
    (ClearHere(exit) ==> Clear(d, k)) && (exit.StoppedAtBarrier? ==> ReadyToCommit(d, k, id))
  }

  predicate LeftThere(exit: Exit, k: nat, id: Server.AttemptId, d: Disk) {
    (ClearThere(exit) ==> Clear(d, k)) && (exit.StoppedAtBarrier? ==> ReadyToCommit(d, k, id))
  }

  predicate LocalInv(pc: Pc, stage: Stage, k: nat, id: Server.AttemptId, l: Local) {
    var d := l.disk;
    match pc
    case WaveTop | AwaitActions | Signatures | AwaitBegin | AfterBegin | ResetSwap | ResetLoad =>
      Clear(d, k) && l.job.None?
    case LocalStart =>
      Running(l, Server.CreateMarker) && Untouched(d, k) &&
      (Marked(d, id, Preparing) || (d.marker.None? && !Made(l, 1)))
    case Streaming => Untouched(d, k) && Marked(d, id, Preparing) && l.job.None?
    case LocalPrepare =>
      Running(l, Server.SealOutputs(Server.Waves(k))) && Untouched(d, k) &&
      (Marked(d, id, Prepared) || (Marked(d, id, Preparing) && !Made(l, 1)))
    case AfterPrepare | AwaitPrepare | Barrier | Fence => ReadyToCommit(d, k, id) && l.job.None?
    case Validating => Running(l, Server.CheckOutputs) && ReadyToCommit(d, k, id)
    case CommitJoin =>
      Running(l, Server.PublishOutputs(Server.Waves(k))) &&
      (if l.job.Some? then Publishing(d, k, id, l.job.value.done)
       else if l.result == Some(true) then JustCommitted(d, k, id)
       else Mid(d, k, id))
    case Marking =>
      Running(l, Server.MarkStateSave) && d.files == Whole(k + 1) && d.snapshot == Server.Waves(k) &&
      (Marked(d, id, StateSave) || (Marked(d, id, Committed) && !Made(l, 1)))
    case SaveJoin =>
      Running(l, Server.WriteSnapshot) && d.files == Whole(k + 1) && Marked(d, id, StateSave) &&
      (d.snapshot == Server.Waves(k + 1) || (d.snapshot == Server.Waves(k) && !Made(l, 1)))
    case AwaitComplete => Saved(d, k) && Marked(d, id, StateSave) && l.job.None?
    case LocalFinish =>
      Running(l, Server.FinishMarker) && Ending(d, k, id) && (Made(l, 2) ==> d.marker.None?) &&
      (l.job.Some? && l.job.value.done == 1 ==> Marked(d, id, Finished))
    case CleanLocal(_) => Running(l, Server.RemoveMarker) && Early(d, k, id) && (Made(l, 1) ==> d.marker.None?)
    case CleanRemote(_, exit) =>
      l.job.None? && AbortsPeer(exit) && Early(d, k, id) && (ClearHere(exit) ==> d.marker.None?)
    case Returned(_, exit, _) => l.job.None? && Rests(stage, k, id, d) && LeftHere(exit, k, id, d)
    case Exited(_, exit, _) => l.job.None? && Rests(stage, k, id, d) && LeftHere(exit, k, id, d)
    case Unreachable => false
  }

  lemma LocalStepKeeps(pc: Pc, stage: Stage, k: nat, id: Server.AttemptId, l: Local, m: Server.Provenance, fail: bool)
    requires LocalInv(pc, stage, k, id, l) && StageAt(pc, stage)
    requires m == Server.Waves(if stage.BothCommitted? || stage.BothSaved? then k + 1 else k)
    ensures LocalInv(pc, stage, k, id, LocalStep(l, id, m, fail))
  {
  }

  lemma LocalInvRests(pc: Pc, stage: Stage, k: nat, id: Server.AttemptId, l: Local)
    requires LocalInv(pc, stage, k, id, l) && StageAt(pc, stage)
    ensures Rests(stage, k, id, l.disk)
  {
    if pc.CommitJoin? {
      if l.job.Some? {
        assert Publishing(l.disk, k, id, l.job.value.done);
      } else if l.result == Some(true) {
        assert Publishing(l.disk, k, id, 4);
      }
    }
  }

  // ----- The peer -----

  predicate EarlyRequest(req: Server.Request, id: Server.AttemptId) {
    match req
    case SetActions => true
    case Begin(x) => x == id
    case FinishPrepare(_, x) => x == id
    case Validate(x) => x == id
    case Abort(x) => x == id
    case _ => false
  }

  predicate Streams(s: Server.State, k: nat, id: Server.AttemptId) {
    if s.staged.Preparing? && s.staged.stream.Some? then
      s.streams == map[s.staged.stream.value := Server.StagedStream(id, Server.Waves(k))]
    else s.streams == map[]
  }

  predicate EarlyStaged(s: Server.State, k: nat, id: Server.AttemptId) {
    s.allOld == Server.Waves(k) && Streams(s, k, id) &&
    match s.staged
    case NoAttempt => true
    case Preparing(x, _) => x == id
    case Prepared(x, base) => x == id && base == Server.Waves(k)
    case Aborted(x) => x == id
    case _ => false
  }

  predicate EarlyTask(t: Task, req: Server.Request, s: Server.State, d: Disk, k: nat, id: Server.AttemptId) {
    t.done <= Changes(t.op) &&
    match t.op
    case AcceptActions => req.SetActions?
    case CreateMarker => req.Begin? && (s.staged.NoAttempt? || s.staged.Aborted?)
    case SealOutputs(base) =>
      req.FinishPrepare? && s.staged == Server.Preparing(id, None) && base == Server.Waves(k) && (t.done >= 1 ==> Marked(d, id, Prepared))
    case CheckOutputs => req.Validate? && s.staged.Prepared?
    case RemoveMarker =>
      req.Abort? && (s.staged == Server.Preparing(id, None) || s.staged.Prepared?) && (t.done >= 1 ==> d.marker.None?)
    case InspectMarker => req.Abort? && s.staged.Aborted?
    case _ => false
  }

  predicate RemoteBefore(k: nat, id: Server.AttemptId, r: Remote) {
    && Early(r.disk, k, id) && EarlyStaged(r.server, k, id)
    && (forall i :: 0 <= i < |r.inbox| ==> EarlyRequest(r.inbox[i], id))
    && (r.task.Some? ==> r.inbox != [] && EarlyTask(r.task.value, r.inbox[0], r.server, r.disk, k, id))
    && (r.server.staged.Prepared? && !(r.task.Some? && r.task.value.op.RemoveMarker?) ==> Marked(r.disk, id, Prepared))
  }

  predicate RemoteFenced(k: nat, id: Server.AttemptId, r: Remote) {
    var s := r.server;
    s.streams == map[] &&
    if r.task.Some? then
      && r.inbox == [Server.Commit(id)] && s.staged == Server.Committing(id) && s.allOld == Server.Waves(k)
      && r.task.value.op == Server.PublishOutputs(Server.Waves(k)) && Publishing(r.disk, k, id, r.task.value.done)
    else if r.inbox != [] then
      && r.inbox == [Server.Commit(id)] && s.staged == Server.Prepared(id, Server.Waves(k)) && s.allOld == Server.Waves(k)
      && ReadyToCommit(r.disk, k, id)
    else
      || (s.staged == Server.Committing(id) && s.allOld == Server.Waves(k) && Mid(r.disk, k, id))
      || (s.staged == Server.Committed(id, false, false) && s.allOld == Server.Waves(k + 1) && JustCommitted(r.disk, k, id))
  }

  predicate RemoteLate(k: nat, id: Server.AttemptId, r: Remote) {
    var s, d := r.server, r.disk;
    && s.streams == map[] && s.allOld == Server.Waves(k + 1) && s.staged.Committed? && s.staged.attempt == id
    && (r.inbox == [] || r.inbox == [Server.SaveState(id)])
    && Late(d, k, id)
    && if r.task.Some? then
         r.inbox != [] && r.task.value.done <= 1 &&
         if r.task.value.op.MarkStateSave? then
           && s.staged == Server.Committed(id, false, false) && d.snapshot == Server.Waves(k)
           && Marked(d, id, if r.task.value.done == 0 then Committed else StateSave)
         else
           && r.task.value.op.WriteSnapshot? && s.staged == Server.Committed(id, true, false) && Marked(d, id, StateSave)
           && (r.task.value.done == 1 ==> d.snapshot == Server.Waves(k + 1))
       else
         && (s.staged.saved ==> s.staged.saveStarted && Saved(d, k) && Marked(d, id, StateSave))
         && (r.inbox != [] ==> s.staged == Server.Committed(id, false, false) && JustCommitted(d, k, id))
  }

  predicate RemoteEnding(k: nat, id: Server.AttemptId, r: Remote) {
    var s, d := r.server, r.disk;
    && s.streams == map[] && s.allOld == Server.Waves(k + 1) && Ending(d, k, id)
    && (r.inbox == [] || r.inbox == [Server.Complete(id)])
    && (r.task.Some? ==>
          && r.inbox != [] && r.task.value.op.FinishMarker? && r.task.value.done <= 2
          && (r.task.value.done == 1 ==> Marked(d, id, Finished)) && (r.task.value.done == 2 ==> d.marker.None?))
    && (s.staged == Server.Committed(id, true, true) || (r.inbox == [] && s.staged.NoAttempt? && d.marker.None?))
  }

  predicate RemoteInv(stage: Stage, k: nat, id: Server.AttemptId, r: Remote) {
    match stage
    case Before => RemoteBefore(k, id, r)
    case Fenced => RemoteFenced(k, id, r)
    case BothCommitted => RemoteLate(k, id, r)
    case BothSaved => RemoteEnding(k, id, r)
  }

  lemma RemoteInvRests(stage: Stage, k: nat, id: Server.AttemptId, r: Remote)
    requires RemoteInv(stage, k, id, r)
    ensures Rests(stage, k, id, r.disk)
  {
    if stage.Fenced? {
      if r.task.Some? {
        assert Publishing(r.disk, k, id, r.task.value.done);
      } else if r.inbox != [] {
        assert Publishing(r.disk, k, id, 0);
      } else if r.server.staged.Committed? {
        assert Publishing(r.disk, k, id, 4);
      }
    }
  }

  lemma EnterKeepsBefore(k: nat, id: Server.AttemptId, r: Remote)
    requires RemoteBefore(k, id, r) && r.inbox != [] && r.task.None?
    ensures RemoteBefore(k, id, Proceed(r, Server.Enter(r.server, r.inbox[0])).0)
  {
  }

  lemma ResumeKeepsBefore(k: nat, id: Server.AttemptId, r: Remote, outcome: Server.Outcome)
    requires RemoteBefore(k, id, r) && r.inbox != [] && r.task.Some?
    requires outcome.Failed? || r.task.value.done == Changes(r.task.value.op)
    ensures RemoteBefore(k, id, Proceed(r, Server.Resume(r.server, r.inbox[0], r.task.value.op, outcome)).0)
  {
  }

  lemma ChangeKeepsBefore(k: nat, id: Server.AttemptId, r: Remote, d: Disk)
    requires RemoteBefore(k, id, r) && r.inbox != [] && r.task.Some? && r.task.value.done < Changes(r.task.value.op)
    requires Change(r.task.value.op, r.task.value.done, AttemptOf(r.inbox[0]), r.server.allOld, r.disk) == Some(d)
    ensures RemoteBefore(k, id, r.(disk := d, task := Some(r.task.value.(done := r.task.value.done + 1))))
  {
  }

  lemma RemoteStepKeepsBefore(k: nat, id: Server.AttemptId, r: Remote, fail: bool)
    requires RemoteBefore(k, id, r)
    ensures RemoteBefore(k, id, RemoteStep(r, fail).0)
  {
    if r.inbox != [] {
      if r.task.None? {
        EnterKeepsBefore(k, id, r);
      } else {
        var task := r.task.value;
        ResumeKeepsBefore(k, id, r, Server.Failed);
        if task.done == Changes(task.op) {
          ResumeKeepsBefore(k, id, r, if r.disk.marker.Some? then Server.Found else Server.Succeeded);
        } else {
          var change := Change(task.op, task.done, AttemptOf(r.inbox[0]), r.server.allOld, r.disk);
          if change.Some? {
            ChangeKeepsBefore(k, id, r, change.value);
          }
        }
      }
    }
  }

  lemma RemoteStepKeepsFenced(k: nat, id: Server.AttemptId, r: Remote, fail: bool)
    requires RemoteFenced(k, id, r)
    ensures RemoteFenced(k, id, RemoteStep(r, fail).0)
  {
  }

  lemma RemoteStepKeepsLate(k: nat, id: Server.AttemptId, r: Remote, fail: bool)
    requires RemoteLate(k, id, r)
    ensures RemoteLate(k, id, RemoteStep(r, fail).0)
  {
  }

  lemma RemoteStepKeepsEnding(k: nat, id: Server.AttemptId, r: Remote, fail: bool)
    requires RemoteEnding(k, id, r)
    ensures RemoteEnding(k, id, RemoteStep(r, fail).0)
  {
  }

  /** What an answer tells: the peer accepts as prepared or valid only what is prepared, an accepted abort leaves no marker. */
  lemma AnswerBefore(k: nat, id: Server.AttemptId, r: Remote, fail: bool)
    requires RemoteBefore(k, id, r) && r.inbox != [] && RemoteStep(r, fail).1 == Some(Server.Done)
    ensures r.inbox[0].Validate? || r.inbox[0].FinishPrepare? ==> RemoteStep(r, fail).0.server.staged.Prepared?
    ensures r.inbox[0].Abort? ==> RemoteStep(r, fail).0.disk.marker.None?
  {
  }

  lemma AnswerLater(stage: Stage, k: nat, id: Server.AttemptId, r: Remote, fail: bool)
    requires RemoteInv(stage, k, id, r) && !stage.Before? && RemoteStep(r, fail).1 == Some(Server.Done)
    ensures var s := RemoteStep(r, fail).0.server.staged;
      match stage
      case Fenced => s.Committed?
      case BothCommitted => s.Committed? && s.saved
      case _ => s.NoAttempt?
  {
  }

  /** Sending actions leaves the peer's disk and its attempt alone. */
  lemma ActionsKeepClear(k: nat, id: Server.AttemptId, r: Remote, fail: bool)
    requires RemoteBefore(k, id, r) && r.inbox == [Server.SetActions]
    ensures RemoteStep(r, fail).0.disk == r.disk && RemoteStep(r, fail).0.server.staged == r.server.staged
  {
  }

  lemma StepShape(r: Remote, fail: bool)
    ensures var (after, reply) := RemoteStep(r, fail);
      && (r.inbox == [] ==> after == r && reply.None?)
      && (reply.Some? ==> r.inbox != [] && after.inbox == r.inbox[1..] && after.task.None?)
      && (reply.None? ==> after.inbox == r.inbox)
  {
  }

  lemma RemoteStepKeeps(stage: Stage, k: nat, id: Server.AttemptId, r: Remote, fail: bool)
    requires RemoteInv(stage, k, id, r)
    ensures RemoteInv(stage, k, id, RemoteStep(r, fail).0)
  {
    match stage
    case Before => RemoteStepKeepsBefore(k, id, r, fail);
    case Fenced => RemoteStepKeepsFenced(k, id, r, fail);
    case BothCommitted => RemoteStepKeepsLate(k, id, r, fail);
    case BothSaved => RemoteStepKeepsEnding(k, id, r, fail);
  }

  // ----- Both together -----

  predicate CallShape(pc: Pc, call: RemoteCall) {
    match pc
    case AwaitActions | AwaitBegin | AwaitPrepare | Validating | CommitJoin | SaveJoin | AwaitComplete => !call.Idle?
    case CleanRemote(_, _) => !call.Idle?
    case CleanLocal(_) => call.Idle? || call.Broken?
    case Returned(_, _, _) => call.Idle? || call.Broken?
    case Exited(_, _, _) => call.Idle? || call.Broken?
    case _ => call.Idle?
  }

  predicate PeerLeft(exit: Exit, k: nat, id: Server.AttemptId, call: RemoteCall, r: Remote) {
    && LeftThere(exit, k, id, r.disk)
    && (ClearThere(exit) ==> r.inbox == [] || r.inbox == [Server.SetActions])
    && (exit.StoppedAtBarrier? ==> call.Idle?)
  }

  /** What the coordinator may rely on about the peer. */
  predicate PeerAt(pc: Pc, k: nat, id: Server.AttemptId, stream: Server.StreamId, call: RemoteCall, r: Remote) {
    && CallShape(pc, call)
    && (call.Idle? || call.Answered? ==> r.inbox == [] && r.task.None?)
    && match pc
       case WaveTop | Signatures | ResetSwap | ResetLoad => Clear(r.disk, k) && r.server.staged.NoAttempt?
       case AwaitActions =>
         Clear(r.disk, k) && r.server.staged.NoAttempt? && (r.inbox == [] || r.inbox == [Server.SetActions])
       case AwaitPrepare =>
         (r.inbox == [] || r.inbox == [Server.FinishPrepare(stream, id)]) && (WentWell(call) ==> r.server.staged.Prepared?)
       case Barrier => r.server.staged.Prepared?
       case Validating => (r.inbox == [] || r.inbox == [Server.Validate(id)]) && (WentWell(call) ==> r.server.staged.Prepared?)
       case Fence => r.server.staged.Prepared?
       case CommitJoin => WentWell(call) ==> r.server.staged.Committed?
       case Marking => r.server.staged == Server.Committed(id, false, false) && JustCommitted(r.disk, k, id)
       case SaveJoin => WentWell(call) ==> r.server.staged.Committed? && r.server.staged.saved
       case AwaitComplete => WentWell(call) ==> r.server.staged.NoAttempt?
       case LocalFinish => r.server.staged.NoAttempt?
       case CleanRemote(_, _) =>
         (r.inbox == [] || r.inbox[|r.inbox| - 1] == Server.Abort(id)) && (WentWell(call) ==> r.disk.marker.None?)
       case Returned(_, exit, _) => PeerLeft(exit, k, id, call, r)
       case Exited(_, exit, _) => PeerLeft(exit, k, id, call, r)
       case _ => true
  }

  predicate InWave(pc: Pc) {
    !pc.WaveTop? && !pc.Returned? && !pc.Exited?
  }

  predicate CoreOf(plan: Plan, pc: Pc, k: nat, stage: Stage, checkpoint: nat, stream: Server.StreamId,
                   local: Local, call: RemoteCall, remote: Remote) {
    var id := Attempt(plan, k);
    && (if InWave(pc) then k < |plan.sizes| else k <= |plan.sizes|)
    && StageAt(pc, stage)
    && checkpoint == (if stage.BothCommitted? || stage.BothSaved? then k + 1 else k)
    && LocalInv(pc, stage, k, id, local)
    && RemoteInv(stage, k, id, remote)
    && PeerAt(pc, k, id, stream, call, remote)
  }

  predicate Core(plan: Plan, w: World) {
    CoreOf(plan, w.pc, w.wave, w.stage, w.checkpoint, w.stream, w.local, w.call, w.remote)
  }

  predicate SwapReady(w: World) {
    w.pc.ResetSwap? ==> w.word == COMMITTED || w.word == COMMITTED_INTERRUPTED
  }

  lemma SendEarly(k: nat, id: Server.AttemptId, r: Remote, req: Server.Request)
    requires RemoteBefore(k, id, r) && EarlyRequest(req, id)
    ensures RemoteBefore(k, id, r.(inbox := r.inbox + [req]))
  {
  }

  /** Leaving with nothing promised about a side that may be marked. */
  lemma ReturnKeepsCore(plan: Plan, w: World, exit: Exit)
    requires Core(plan, w) && w.local.job.None? && !w.call.Waiting?
    requires if w.stage.Before? then exit.BeginFailed? && Clear(w.local.disk, w.wave) else exit.PastFence?
    ensures Core(plan, Return(Consumed(w), Failure, exit))
  {
    LocalInvRests(w.pc, w.stage, w.wave, Attempt(plan, w.wave), w.local);
  }

  lemma ReturnClearKeepsCore(plan: Plan, w: World, result: RunResult)
    requires Core(plan, w) && w.stage.Before? && w.local.job.None? && Clear(w.local.disk, w.wave)
    requires Clear(w.remote.disk, w.wave) && (w.pc.AwaitActions? || w.call.Idle?) && Ended(w.call) != w.call.Idle?
    requires w.remote.inbox == [] || w.remote.inbox == [Server.SetActions]
    ensures Core(plan, Return(Consumed(w), result, NothingBegun))
  {
  }

  lemma CleanUpKeepsCore(plan: Plan, w: World, interrupted: bool)
    requires Core(plan, w) && w.stage.Before? && InWave(w.pc) && !w.call.Waiting?
    ensures Core(plan, CleanUp(Consumed(w), interrupted))
  {
  }

  lemma AbortKeepsCore(plan: Plan, w: World, interrupted: bool, exit: Exit)
    requires Core(plan, w) && w.stage.Before? && InWave(w.pc) && w.local.job.None? && AbortsPeer(exit)
    requires ClearHere(exit) ==> w.local.disk.marker.None?
    ensures Core(plan, Send(w, Server.Abort(Attempt(plan, w.wave)), CleanRemote(interrupted, exit)))
  {
  }

  lemma TopKeepsCore(plan: Plan, w: World, go: bool)
    requires Core(plan, w) && (w.pc.WaveTop? || w.pc.Signatures?)
    ensures Core(plan, BeforeStaging(plan, w, go))
  {
    if w.pc.WaveTop? && w.wave >= |plan.sizes| {
      ReturnClearKeepsCore(plan, w, Success);
    } else {
      ReturnClearKeepsCore(plan, w, Interrupted);
      ReturnClearKeepsCore(plan, w, Failure);
      SendEarly(w.wave, Attempt(plan, w.wave), w.remote, Server.SetActions);
      SendEarly(w.wave, Attempt(plan, w.wave), w.remote, Server.Begin(Attempt(plan, w.wave)));
    }
  }

  lemma AwaitActionsKeepsCore(plan: Plan, w: World, go: bool)
    requires Core(plan, w) && w.pc.AwaitActions?
    ensures Core(plan, BeforeStaging(plan, w, go))
  {
  }

  lemma AwaitBeginKeepsCore(plan: Plan, w: World, go: bool)
    requires Core(plan, w) && w.pc.AwaitBegin?
    ensures Core(plan, BeforeStaging(plan, w, go))
  {
  }

  lemma BeginKeepsCore(plan: Plan, w: World, go: bool)
    requires Core(plan, w) && (w.pc.AfterBegin? || w.pc.LocalStart?)
    ensures Core(plan, BeforeStaging(plan, w, go))
  {
    if w.local.job.None? {
      AbortKeepsCore(plan, w, w.pc.AfterBegin?, if w.pc.AfterBegin? then BeginCancelled(false) else StartFailed(false));
    }
  }

  lemma StreamingKeepsCore(plan: Plan, w: World, go: bool, report: Report)
    requires Core(plan, w) && (w.pc.Streaming? || w.pc.LocalPrepare?)
    ensures Core(plan, StageBoth(plan, w, go, report))
  {
    CleanUpKeepsCore(plan, w, true);
    CleanUpKeepsCore(plan, w, false);
  }

  lemma PrepareKeepsCore(plan: Plan, w: World, go: bool, report: Report)
    requires Core(plan, w) && (w.pc.AfterPrepare? || w.pc.AwaitPrepare?)
    ensures Core(plan, StageBoth(plan, w, go, report))
  {
    if !w.call.Waiting? {
      CleanUpKeepsCore(plan, w, true);
      CleanUpKeepsCore(plan, w, false);
    }
    SendEarly(w.wave, Attempt(plan, w.wave), w.remote, Server.FinishPrepare(w.stream, Attempt(plan, w.wave)));
  }

  lemma StartValidatingKeepsCore(plan: Plan, w: World)
    requires Core(plan, w) && w.pc.Barrier?
    ensures CoreOf(plan, Validating, w.wave, w.stage, w.checkpoint, w.stream, Launch(w.local, Server.CheckOutputs), Waiting,
                   w.remote.(inbox := w.remote.inbox + [Server.Validate(Attempt(plan, w.wave))]))
  {
  }

  lemma StopAtBarrierKeepsCore(plan: Plan, w: World)
    requires Core(plan, w) && w.pc.Barrier?
    ensures CoreOf(plan, Returned(Failure, StoppedAtBarrier, None), w.wave, w.stage, w.checkpoint, w.stream, w.local, w.call, w.remote)
  {
  }

  lemma BarrierKeepsCore(plan: Plan, w: World, go: bool, report: Report)
    requires Core(plan, w) && w.pc.Barrier?
    ensures Core(plan, StageBoth(plan, w, go, report))
  {
    CleanUpKeepsCore(plan, w, false);
    StopAtBarrierKeepsCore(plan, w);
    StartValidatingKeepsCore(plan, w);
  }

  lemma ValidatingKeepsCore(plan: Plan, w: World, go: bool, report: Report)
    requires Core(plan, w) && w.pc.Validating?
    ensures Core(plan, StageBoth(plan, w, go, report))
  {
  }

  lemma FenceKeepsCore(plan: Plan, w: World, go: bool, report: Report)
    requires Core(plan, w) && w.pc.Fence?
    ensures Core(plan, StageBoth(plan, w, go, report))
  {
    if w.word != PRE_COMMIT {
      CleanUpKeepsCore(plan, w, true);
    }
  }

  lemma BothCommittedKeepsCore(plan: Plan, w: World)
    requires Core(plan, w) && w.pc.CommitJoin? && w.local.result == Some(true) && WentWell(w.call)
    ensures CoreOf(plan, Marking, w.wave, BothCommitted, w.checkpoint + 1, w.stream, Launch(w.local, Server.MarkStateSave), Idle, w.remote)
  {
  }

  lemma CommitJoinKeepsCore(plan: Plan, w: World)
    requires Core(plan, w) && w.pc.CommitJoin?
    ensures Core(plan, FinishCommit(plan, w))
  {
    if w.local.result.Some? && Ended(w.call) {
      ReturnKeepsCore(plan, w, PastFence);
      if w.local.result.value && WentWell(w.call) {
        BothCommittedKeepsCore(plan, w);
      }
    }
  }

  lemma MarkingKeepsCore(plan: Plan, w: World)
    requires Core(plan, w) && w.pc.Marking?
    ensures Core(plan, FinishCommit(plan, w))
  {
  }

  lemma SaveJoinKeepsCore(plan: Plan, w: World)
    requires Core(plan, w) && w.pc.SaveJoin?
    ensures Core(plan, FinishCommit(plan, w))
  {
  }

  lemma AwaitCompleteKeepsCore(plan: Plan, w: World)
    requires Core(plan, w) && w.pc.AwaitComplete?
    ensures Core(plan, FinishCommit(plan, w))
  {
  }

  lemma LocalFinishKeepsCore(plan: Plan, w: World)
    requires Core(plan, w) && w.pc.LocalFinish?
    ensures Core(plan, FinishCommit(plan, w))
  {
    if w.local.result == Some(false) {
      ReturnKeepsCore(plan, w, PastFence);
    }
  }

  lemma ResetKeepsCore(plan: Plan, w: World)
    requires Core(plan, w) && ((w.pc.ResetSwap? || w.pc.ResetLoad?) && SwapReady(w))
    ensures Core(plan, FinishCommit(plan, w))
  {
    ReturnClearKeepsCore(plan, w, Interrupted);
  }

  lemma CleanLocalKeepsCore(plan: Plan, w: World, go: bool)
    requires Core(plan, w) && w.pc.CleanLocal?
    ensures Core(plan, WindUp(plan, w, go))
  {
  }

  lemma CleanRemoteKeepsCore(plan: Plan, w: World, go: bool)
    requires Core(plan, w) && w.pc.CleanRemote?
    ensures Core(plan, WindUp(plan, w, go))
  {
  }

  lemma EndingKeepsCore(plan: Plan, w: World, pc: Pc)
    requires Core(plan, w) && w.pc.Returned?
    requires (pc.Returned? || pc.Exited?) && pc.exit == w.pc.exit
    ensures CoreOf(plan, pc, w.wave, w.stage, w.checkpoint, w.stream, w.local, w.call, w.remote)
  {
  }

  lemma ReturnedKeepsCore(plan: Plan, w: World, go: bool)
    requires Core(plan, w) && (w.pc.Returned? || w.pc.Exited?)
    ensures Core(plan, WindUp(plan, w, go))
  {
    if w.pc.Returned? {
      EndingKeepsCore(plan, w, WindUp(plan, w, go).pc);
    }
  }

  /** What a reply to the first request says about the peer after it. */
  predicate ReplyTells(stage: Stage, req: Server.Request, call: RemoteCall, after: Remote) {
    var s := after.server.staged;
    WentWell(call) ==>
      match stage
      case Before =>
        && (req.Validate? || req.FinishPrepare? ==> s.Prepared?)
        && (req.Abort? ==> after.disk.marker.None?)
      case Fenced => s.Committed?
      case BothCommitted => s.Committed? && s.saved
      case BothSaved => s.NoAttempt?
  }

  /** The peer made a step on its first request, and the coordinator may have been told. */
  predicate PeerMoved(w: World, after: Remote, call: RemoteCall) {
    && w.remote.inbox != []
    && (after.inbox == w.remote.inbox || after.inbox == w.remote.inbox[1..])
    && (call == w.call || (call.Answered? && w.call.Waiting? && after.inbox == [] && after.task.None?))
    && ReplyTells(w.stage, w.remote.inbox[0], call, after)
    && (w.remote.inbox == [Server.SetActions] ==> after.disk == w.remote.disk && after.server.staged == w.remote.server.staged)
  }

  /** The coordinator's view stays right whatever happens to the reply: before the fence, */
  lemma EarlyMoveKeepsCore(plan: Plan, w: World, after: Remote, call: RemoteCall)
    requires Core(plan, w) && w.stage.Before? && RemoteBefore(w.wave, Attempt(plan, w.wave), after) && PeerMoved(w, after, call)
    ensures CoreOf(plan, w.pc, w.wave, w.stage, w.checkpoint, w.stream, w.local, call, after)
  {
  }

  /** and from the fence on. */
  lemma LateMoveKeepsCore(plan: Plan, w: World, after: Remote, call: RemoteCall)
    requires Core(plan, w) && !w.stage.Before? && RemoteInv(w.stage, w.wave, Attempt(plan, w.wave), after) && PeerMoved(w, after, call)
    ensures CoreOf(plan, w.pc, w.wave, w.stage, w.checkpoint, w.stream, w.local, call, after)
  {
  }

  lemma RemoteWorkKeepsCore(plan: Plan, w: World, fail: bool, lost: bool)
    requires Core(plan, w)
    ensures Core(plan, RemoteWork(w, fail, lost))
  {
    var id := Attempt(plan, w.wave);
    StepShape(w.remote, fail);
    var next := RemoteWork(w, fail, lost);
    if w.remote.inbox == [] {
      assert next == w.(log := w.log + []);
    } else {
      RemoteStepKeeps(w.stage, w.wave, id, w.remote, fail);
      if RemoteStep(w.remote, fail).1 == Some(Server.Done) {
        if w.stage.Before? {
          AnswerBefore(w.wave, id, w.remote, fail);
        } else {
          AnswerLater(w.stage, w.wave, id, w.remote, fail);
        }
      }
      if w.remote.inbox == [Server.SetActions] {
        assert w.stage.Before?;
        ActionsKeepClear(w.wave, id, w.remote, fail);
      }
      if w.stage.Before? {
        EarlyMoveKeepsCore(plan, w, next.remote, next.call);
      } else {
        LateMoveKeepsCore(plan, w, next.remote, next.call);
      }
    }
  }
}
