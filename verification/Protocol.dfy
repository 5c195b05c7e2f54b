/** A whole synchronization run in waves: the coordinator, the peer's server, both disks, the connection
    between them and the threads that handle interrupt signals, interleaved in any way. A component that
    crashes takes no more steps. */
module Protocol {
  import opened Wrappers
  import opened Staging
  import Server

  // ----- The interrupt word -----

  const PRE_COMMIT: nat := 0
  const CANCEL_REQUESTED: nat := 1
  const COMMITTED: nat := 2
  const COMMITTED_INTERRUPTED: nat := 3
  const COMPLETE: nat := 4
  const COMPLETE_INTERRUPTED: nat := 5

  datatype Interrupt = Cancel | Deferred | Force

  /** The threads inside `request_interrupt`, with the phase each has loaded but not yet exchanged. */
  type Handlers = map<nat, nat>

  // ----- Plans, reports and the history of a run -----

  /** The waves of a run, with the number of actions in each. */
  datatype Plan = Plan(run: string, sizes: seq<nat>)

  function Decimal(n: nat): string {
    (if n < 10 then "" else Decimal(n / 10)) + ["0123456789"[n % 10]]
  }

  function Attempt(plan: Plan, wave: nat): Server.AttemptId {
    plan.run + "-wave-" + Decimal(wave + 1) + "-of-" + Decimal(|plan.sizes|)
  }

  datatype Report = Report(actions: nat, files: nat, bytes: nat)

  predicate Acceptable(report: Report, expected: nat) {
    report.actions == expected && report.files <= report.actions && (report.files == 0 ==> report.bytes == 0)
  }

  datatype Side = Here | Peer

  datatype Event =
    | SidePrepared(side: Side, attempt: Server.AttemptId)
    | Agreed(attempt: Server.AttemptId, here: Report, peer: Report)
    | SideValidated(side: Side, attempt: Server.AttemptId)
    | FenceWon(attempt: Server.AttemptId)
    | CommitStarted(side: Side, attempt: Server.AttemptId)
    | AbortAccepted(side: Side, attempt: Server.AttemptId)
    | Signalled(answer: Interrupt)

  // ----- The world -----

  datatype RunResult = Success | Interrupted | Failure

  /** How the coordinator left the waves: with no attempt under way; because the call that begins one failed;
      cancelled right after that call; because creating the local marker failed; between preparation and
      validation; after an abort on both sides; or with a commit begun. `here` and `peer` say whether the
      abort that was tried on that side was accepted. */
  datatype Exit =
    | NothingBegun
    | BeginFailed
    | BeginCancelled(peer: bool)
    | StartFailed(peer: bool)
    | StoppedAtBarrier
    | CleanedUp(here: bool, peer: bool)
    | PastFence

  predicate AbortsPeer(exit: Exit) {
    exit.BeginCancelled? || exit.StartFailed? || exit.CleanedUp?
  }

  function WithPeer(exit: Exit, accepted: bool): Exit {
    match exit
    case BeginCancelled(_) => BeginCancelled(accepted)
    case StartFailed(_) => StartFailed(accepted)
    case CleanedUp(here, _) => CleanedUp(here, accepted)
    case _ => exit
  }

  /** Every abort that is due was tried and accepted. */
  predicate Tidy(exit: Exit) {
    exit.NothingBegun? || exit == BeginCancelled(true) || exit == CleanedUp(true, true)
  }

  /** Where the coordinator is. `Returned` has left the waves with a result and is in `complete`; `seen` is
      the phase that `complete` has loaded. */
  datatype Pc =
    | WaveTop | AwaitActions | Signatures | AwaitBegin | AfterBegin | LocalStart | Streaming | LocalPrepare
    | AfterPrepare | AwaitPrepare | Barrier | Validating | Fence
    | CommitJoin | Marking | SaveJoin | AwaitComplete | LocalFinish | ResetSwap | ResetLoad
    | CleanLocal(interrupted: bool)
    | CleanRemote(interrupted: bool, exit: Exit)
    | Returned(result: RunResult, exit: Exit, seen: Option<nat>)
    | Exited(result: RunResult, exit: Exit, outcome: RunResult)
    | Unreachable

  /** The coordinator's view of its last request. */
  datatype RemoteCall = Idle | Waiting | Answered(reply: Server.Reply) | Broken

  /** How far the current wave got, as far as the coordinator knows. */
  datatype Stage = Before | Fenced | BothCommitted | BothSaved

  datatype World = World(
    pc: Pc, wave: nat, stage: Stage, checkpoint: nat,
    stream: Server.StreamId, localReport: Report, remoteReport: Report,
    local: Local, call: RemoteCall, remote: Remote,
    word: nat, handlers: Handlers,
    log: seq<Event>)

  /** Both sides at the last checkpoint, no marker, no signal yet. */
  const START := World(
    WaveTop, 0, Before, 0, 0, Report(0, 0, 0), Report(0, 0, 0),
    Local(Disk(None, Whole(0), Server.Waves(0)), None, None), Idle,
    Remote(Disk(None, Whole(0), Server.Waves(0)), Server.State(true, false, Server.Waves(0), Server.NoAttempt, map[], 1), [], None),
    PRE_COMMIT, map[], [])

  // ----- The coordinator -----

  function Send(w: World, req: Server.Request, pc: Pc): World {
    w.(pc := pc, call := Waiting, remote := w.remote.(inbox := w.remote.inbox + [req]))
  }

  function Do(w: World, op: Server.Op, pc: Pc): World {
    w.(pc := pc, local := Launch(w.local, op))
  }

  function Return(w: World, result: RunResult, exit: Exit): World {
    w.(pc := Returned(result, exit, None))
  }

  /** Removes this side's marker, then asks the peer to abort. */
  function CleanUp(w: World, interrupted: bool): World {
    Do(w, Server.RemoveMarker, CleanLocal(interrupted))
  }

  predicate Ended(call: RemoteCall) {
    call.Answered? || call.Broken?
  }

  predicate WentWell(call: RemoteCall) {
    call == Answered(Server.Done)
  }

  /** The coordinator has seen the end of its request. */
  function Consumed(w: World): World {
    if w.call.Answered? then w.(call := Idle) else w
  }

  /** From the top of a wave until both sides stage. `go` is false when something outside of this model
      fails: capacity checks, signatures, streaming. */
  function BeforeStaging(plan: Plan, w: World, go: bool): World {
    var id := Attempt(plan, w.wave);
    match w.pc
    case WaveTop =>
      if w.wave >= |plan.sizes| then Return(w, Success, NothingBegun)
      else if w.word == CANCEL_REQUESTED then Return(w, Interrupted, NothingBegun)
      else if !go then Return(w, Failure, NothingBegun)
      else Send(w, Server.SetActions, AwaitActions)
    case AwaitActions =>
      if !Ended(w.call) then w
      else if WentWell(w.call) then Consumed(w).(pc := Signatures)
      else Return(Consumed(w), Failure, NothingBegun)
    case Signatures =>
      if !go then Return(w, Failure, NothingBegun)
      else if w.word == CANCEL_REQUESTED then Return(w, Interrupted, NothingBegun)
      else Send(w, Server.Begin(id), AwaitBegin)
    case AwaitBegin =>
      if !Ended(w.call) then w
      else if w.call.Answered? && w.call.reply.Opened? then Consumed(w).(pc := AfterBegin, stream := w.call.reply.stream)
      else Return(Consumed(w), Failure, BeginFailed)
    case AfterBegin =>
      if w.word == CANCEL_REQUESTED then Send(w, Server.Abort(id), CleanRemote(true, BeginCancelled(false)))
      else Do(w, Server.CreateMarker, LocalStart)
    case LocalStart =>
      if w.local.result.None? then w
      else if w.local.result.value then w.(pc := Streaming)
      else Send(w, Server.Abort(id), CleanRemote(false, StartFailed(false)))
    case _ => w
  }

  /** Staging on both sides, up to the fence. */
  function StageBoth(plan: Plan, w: World, go: bool, report: Report): World {
    var id := Attempt(plan, w.wave);
    match w.pc
    case Streaming =>
      if w.word == CANCEL_REQUESTED then CleanUp(w, true)
      else if !go then CleanUp(w, false)
      else Do(w, Server.SealOutputs(Server.Waves(w.checkpoint)), LocalPrepare)
    case LocalPrepare =>
      if w.local.result.None? then w
      else if !w.local.result.value then CleanUp(w, false)
      else w.(pc := AfterPrepare, localReport := report)
    case AfterPrepare =>
      if w.word == CANCEL_REQUESTED then CleanUp(w, true)
      else Send(w, Server.FinishPrepare(w.stream, id), AwaitPrepare)
    case AwaitPrepare =>
      if !Ended(w.call) then w
      else if WentWell(w.call) then Consumed(w).(pc := Barrier, remoteReport := report)
      else CleanUp(Consumed(w), false)
    case Barrier =>
      if w.wave >= |plan.sizes| then w.(pc := Unreachable)
      else if !Acceptable(w.localReport, plan.sizes[w.wave]) || !Acceptable(w.remoteReport, plan.sizes[w.wave]) then
        CleanUp(w, false)
      else if !go then Return(w, Failure, StoppedAtBarrier)
      else
        Do(Send(w.(log := w.log + [Agreed(id, w.localReport, w.remoteReport)]), Server.Validate(id), Validating),
           Server.CheckOutputs, Validating)
    case Validating =>
      if w.local.result.None? || !Ended(w.call) then w
      else if w.local.result.value && WentWell(w.call) then Consumed(w).(pc := Fence)
      else CleanUp(Consumed(w), false)
    case Fence =>
      if w.word != PRE_COMMIT then CleanUp(w, true)
      else
        var fenced := w.(word := COMMITTED, stage := Fenced, log := w.log + [FenceWon(id), CommitStarted(Here, id)]);
        Do(Send(fenced, Server.Commit(id), CommitJoin), Server.PublishOutputs(Server.Waves(w.checkpoint)), CommitJoin)
    case _ => w
  }

  function FinishCommit(plan: Plan, w: World): World {
    var id := Attempt(plan, w.wave);
    match w.pc
    case CommitJoin =>
      if w.local.result.None? || !Ended(w.call) then w
      else if w.local.result.value && WentWell(w.call) then
        Do(Consumed(w).(stage := BothCommitted, checkpoint := w.checkpoint + 1), Server.MarkStateSave, Marking)
      else Return(Consumed(w), Failure, PastFence)
    case Marking =>
      if w.local.result.None? then w
      else if w.local.result.value then Do(Send(w, Server.SaveState(id), SaveJoin), Server.WriteSnapshot, SaveJoin)
      else Return(w, Failure, PastFence)
    case SaveJoin =>
      if w.local.result.None? || !Ended(w.call) then w
      else if w.local.result.value && WentWell(w.call) then Send(w.(stage := BothSaved), Server.Complete(id), AwaitComplete)
      else Return(Consumed(w), Failure, PastFence)
    case AwaitComplete =>
      if !Ended(w.call) then w
      else if WentWell(w.call) then Do(Consumed(w), Server.FinishMarker, LocalFinish)
      else Return(Consumed(w), Failure, PastFence)
    case LocalFinish =>
      if w.local.result.None? then w
      else if !w.local.result.value then Return(w, Failure, PastFence)
      else
        var next := w.(wave := w.wave + 1, stage := Before);
        if next.wave < |plan.sizes| then next.(pc := ResetSwap) else next.(pc := WaveTop)
    case ResetSwap =>
      if w.word == COMMITTED then w.(word := PRE_COMMIT, pc := ResetLoad)
      else if w.word == COMMITTED_INTERRUPTED || w.word == CANCEL_REQUESTED then Return(w, Interrupted, NothingBegun)
      else w.(pc := Unreachable)
    case ResetLoad => if w.word == CANCEL_REQUESTED then Return(w, Interrupted, NothingBegun) else w.(pc := WaveTop)
    case _ => w
  }

  /** Cleaning up after a failure or a cancellation, and the end of the run. */
  function WindUp(plan: Plan, w: World, go: bool): World {
    match w.pc
    case CleanLocal(interrupted) =>
      if w.local.result.None? then w
      else Send(w, Server.Abort(Attempt(plan, w.wave)), CleanRemote(interrupted, CleanedUp(w.local.result.value, false)))
    case CleanRemote(interrupted, exit) =>
      if !Ended(w.call) then w
      else
        var final := WithPeer(exit, WentWell(w.call));
        Return(Consumed(w), if interrupted && Tidy(final) then Interrupted else Failure, final)
    case Returned(result, exit, None) => w.(pc := Returned(if go then result else Failure, exit, Some(w.word)))
    case Returned(result, exit, Some(seen)) =>
      if seen == CANCEL_REQUESTED then w.(pc := Exited(result, exit, if result == Failure then Failure else Interrupted))
      else
        var next := if seen == PRE_COMMIT || seen == COMMITTED then COMPLETE else COMPLETE_INTERRUPTED;
        if seen > COMMITTED_INTERRUPTED then w.(pc := Exited(result, exit, result))
        else if w.word == seen then w.(word := next, pc := Exited(result, exit, result))
        else w.(pc := Returned(result, exit, None))
    case _ => w
  }

  // ----- The other components -----

  /** What the end of a job adds to the history. */
  function LocalEvents(plan: Plan, w: World, after: Local): seq<Event> {
    var id := Attempt(plan, w.wave);
    if w.local.job.None? || after.result != Some(true) then []
    else if w.local.job.value.op.SealOutputs? then [SidePrepared(Here, id)]
    else if w.local.job.value.op.CheckOutputs? then [SideValidated(Here, id)]
    else if w.local.job.value.op.RemoveMarker? then [AbortAccepted(Here, id)]
    else []
  }

  function LocalWork(plan: Plan, w: World, fail: bool): World {
    var after := LocalStep(w.local, Attempt(plan, w.wave), Server.Waves(w.checkpoint), fail);
    w.(local := after, log := w.log + LocalEvents(plan, w, after))
  }

  function RemoteEvents(before: Remote, after: Remote, reply: Option<Server.Reply>): seq<Event> {
    if before.inbox == [] then []
    else
      match before.inbox[0]
      case FinishPrepare(_, id) => if reply == Some(Server.Done) then [SidePrepared(Peer, id)] else []
      case Validate(id) => if reply == Some(Server.Done) then [SideValidated(Peer, id)] else []
      case Abort(id) => if reply == Some(Server.Done) then [AbortAccepted(Peer, id)] else []
      case Commit(id) => if before.task.None? && after.task.Some? then [CommitStarted(Peer, id)] else []
      case _ => []
  }

  /** The server works; a reply to the last request can get lost, and older replies have no one waiting. */
  function RemoteWork(w: World, fail: bool, lost: bool): World {
    var (after, reply) := RemoteStep(w.remote, fail);
    w.(remote := after,
       call := if reply.Some? && after.inbox == [] && w.call.Waiting? && !lost then Answered(reply.value) else w.call,
       log := w.log + RemoteEvents(w.remote, after, reply))
  }

  function BreakConnection(w: World): World {
    if w.call.Waiting? then w.(call := Broken) else w
  }

  /** A signal arrives at a thread, or the thread goes on with the phase it has loaded. */
  function HandleSignal(w: World, thread: nat): World {
    if thread !in w.handlers then w.(handlers := w.handlers[thread := w.word])
    else
      var phase := w.handlers[thread];
      if phase == PRE_COMMIT || phase == COMMITTED || phase == COMPLETE then
        if w.word == phase then
          w.(word := phase + 1, handlers := w.handlers - {thread},
             log := w.log + [Signalled(if phase == PRE_COMMIT then Cancel else Deferred)])
        else w.(handlers := w.handlers[thread := w.word])
      else if phase == CANCEL_REQUESTED || phase == COMMITTED_INTERRUPTED || phase == COMPLETE_INTERRUPTED then
        w.(handlers := w.handlers - {thread}, log := w.log + [Signalled(Force)])
      else w.(pc := Unreachable)
  }

  // ----- Runs -----

  /** Which component moves next, and how everything outside of the model turns out. */
  datatype Move =
    | Coordinate(go: bool, report: Report)
    | WorkHere(fail: bool)
    | WorkThere(fail: bool, lost: bool)
    | Break
    | Signal(thread: nat)

  function Coordinator(plan: Plan, w: World, go: bool, report: Report): World {
    match w.pc
    case WaveTop | AwaitActions | Signatures | AwaitBegin | AfterBegin | LocalStart => BeforeStaging(plan, w, go)
    case Streaming | LocalPrepare | AfterPrepare | AwaitPrepare | Barrier | Validating | Fence =>
      StageBoth(plan, w, go, report)
    case CommitJoin | Marking | SaveJoin | AwaitComplete | LocalFinish | ResetSwap | ResetLoad => FinishCommit(plan, w)
    case _ => WindUp(plan, w, go)
  }

  function Step(plan: Plan, w: World, move: Move): World {
    match move
    case Coordinate(go, report) => Coordinator(plan, w, go, report)
    case WorkHere(fail) => LocalWork(plan, w, fail)
    case WorkThere(fail, lost) => RemoteWork(w, fail, lost)
    case Break => BreakConnection(w)
    case Signal(thread) => HandleSignal(w, thread)
  }

  function Run(plan: Plan, moves: seq<Move>): World
    decreases |moves|, 1
  {
    if moves == [] then START else Moved(plan, moves)
  }

  /** The last move, after all others. */
  function Moved(plan: Plan, moves: seq<Move>): World
    requires moves != []
    decreases |moves|, 0
  {
    Step(plan, Run(plan, moves[..|moves| - 1]), moves[|moves| - 1])
  }
}
