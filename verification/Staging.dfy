/** One side of a staged apply on disk: the recovery marker, the synchronized files and the snapshot, and
    the work that changes them, one durable change at a time. */
module Staging {
  import opened Wrappers
  import Server

  datatype Phase = Preparing | Prepared | Committing | Committed | StateSave | Finished

  datatype Marker = Marker(attempt: Server.AttemptId, phase: Phase)

  /** The files after `n` whole waves, or somewhere inside the wave after that. */
  datatype Files = Whole(n: nat) | Torn(n: nat)

  /** `snapshot` is the saved manifest. */
  datatype Disk = Disk(marker: Option<Marker>, files: Files, snapshot: Server.Provenance)

  /** How many durable changes a piece of work makes. Publishing stands for any number of changes to
      files: it tears the wave open and closes it. */
  function Changes(op: Server.Op): nat {
    match op
    case CreateMarker => 1
    case SealOutputs(_) => 1
    case RemoveMarker => 1
    case PublishOutputs(_) => 4
    case MarkStateSave => 1
    case WriteSnapshot => 1
    case FinishMarker => 2
    case _ => 0
  }

  function Transition(d: Disk, id: Server.AttemptId, expected: Phase, next: Phase): Option<Disk> {
    if d.marker == Some(Marker(id, expected)) then Some(d.(marker := Some(Marker(id, next)))) else None
  }

  /** The next change of a piece of work that made `done` of them; `None` when it refuses to make it. */
  function Change(op: Server.Op, done: nat, id: Server.AttemptId, manifest: Server.Provenance, d: Disk): Option<Disk> {
    match op
    case CreateMarker =>
      if d.marker.None? || d.marker == Some(Marker(id, Preparing)) then Some(d.(marker := Some(Marker(id, Preparing))))
      else None
    case SealOutputs(_) => Transition(d, id, Preparing, Prepared)
    case RemoveMarker =>
      if d.marker == Some(Marker(id, Preparing)) || d.marker == Some(Marker(id, Prepared)) then Some(d.(marker := None))
      else None
    case PublishOutputs(_) =>
      if done == 0 then Transition(d, id, Prepared, Committing)
      else if done == 1 then Some(d.(files := Torn(d.files.n)))
      else if done == 2 then Some(d.(files := Whole(d.files.n + 1)))
      else Transition(d, id, Committing, Committed)
    case MarkStateSave => Transition(d, id, Committed, StateSave)
    case WriteSnapshot => Some(d.(snapshot := manifest))
    case FinishMarker => if done == 0 then Transition(d, id, StateSave, Finished) else Some(d.(marker := None))
    case _ => Some(d)
  }

  // ----- The side that runs the program -----

  datatype Job = Job(op: Server.Op, done: nat)

  /** `result` is how the last job ended. */
  datatype Local = Local(disk: Disk, job: Option<Job>, result: Option<bool>)

  function Launch(l: Local, op: Server.Op): Local {
    l.(job := Some(Job(op, 0)), result := None)
  }

  /** One step of the job: it can give up between any two changes. */
  function LocalStep(l: Local, id: Server.AttemptId, manifest: Server.Provenance, fail: bool): Local {
    if l.job.None? then l
    else
      var job := l.job.value;
      if fail then l.(job := None, result := Some(false))
      else if job.done >= Changes(job.op) then l.(job := None, result := Some(true))
      else
        match Change(job.op, job.done, id, manifest, l.disk)
        case None => l.(job := None, result := Some(false))
        case Some(d) => l.(disk := d, job := Some(job.(done := job.done + 1)))
  }

  // ----- The peer -----

  datatype Task = Task(op: Server.Op, done: nat)

  /** `inbox` holds the requests sent and not answered; the server works on the first. */
  datatype Remote = Remote(disk: Disk, server: Server.State, inbox: seq<Server.Request>, task: Option<Task>)

  function AttemptOf(req: Server.Request): Server.AttemptId {
    match req
    case Begin(id) => id
    case FinishPrepare(_, id) => id
    case Validate(id) => id
    case Abort(id) => id
    case Commit(id) => id
    case SaveState(id) => id
    case Complete(id) => id
    case _ => ""
  }

  /** Goes on to more work, or answers the first request. */
  function Proceed(r: Remote, step: (Server.State, Server.Next)): (Remote, Option<Server.Reply>)
    requires r.inbox != []
  {
    match step.1
    case Run(op) => (r.(server := step.0, task := Some(Task(op, 0))), None)
    case Answer(reply) => (r.(server := step.0, task := None, inbox := r.inbox[1..]), Some(reply))
  }

  /** One step of the server; a reply when it ends a request. */
  function RemoteStep(r: Remote, fail: bool): (Remote, Option<Server.Reply>) {
    if r.inbox == [] then (r, None)
    else
      var req := r.inbox[0];
      if r.task.None? then Proceed(r, Server.Enter(r.server, req))
      else
        var task := r.task.value;
        var give := Server.Resume(r.server, req, task.op, Server.Failed);
        if fail then Proceed(r, give)
        else if task.done >= Changes(task.op) then
          Proceed(r, Server.Resume(r.server, req, task.op, if r.disk.marker.Some? then Server.Found else Server.Succeeded))
        else
          match Change(task.op, task.done, AttemptOf(req), r.server.allOld, r.disk)
          case None => Proceed(r, give)
          case Some(d) => (r.(disk := d, task := Some(task.(done := task.done + 1))), None)
  }

  // ----- What a side looks like around wave `k`, which attempt `id` applies -----

  predicate Untouched(d: Disk, k: nat) {
    d.files == Whole(k) && d.snapshot == Server.Waves(k)
  }

  predicate Clear(d: Disk, k: nat) {
    Untouched(d, k) && d.marker.None?
  }

  /** Before the fence: nothing changed but a marker that an abort may remove. */
  predicate Early(d: Disk, k: nat, id: Server.AttemptId) {
    Untouched(d, k) &&
    (d.marker.None? || d.marker == Some(Marker(id, Preparing)) || d.marker == Some(Marker(id, Prepared)))
  }

  predicate Marked(d: Disk, id: Server.AttemptId, phase: Phase) {
    d.marker == Some(Marker(id, phase))
  }

  predicate ReadyToCommit(d: Disk, k: nat, id: Server.AttemptId) {
    Untouched(d, k) && Marked(d, id, Prepared)
  }

  predicate JustCommitted(d: Disk, k: nat, id: Server.AttemptId) {
    d.files == Whole(k + 1) && d.snapshot == Server.Waves(k) && Marked(d, id, Committed)
  }

  /** After `done` changes of the commit. */
  predicate Publishing(d: Disk, k: nat, id: Server.AttemptId, done: nat) {
    && d.snapshot == Server.Waves(k) && done <= 4
    && Marked(d, id, if done == 0 then Prepared else if done == 4 then Committed else Committing)
    && d.files == (if done <= 1 then Whole(k) else if done == 2 then Torn(k) else Whole(k + 1))
  }

  /** The commit may have stopped anywhere. */
  predicate Mid(d: Disk, k: nat, id: Server.AttemptId) {
    exists done :: 0 <= done <= 4 && Publishing(d, k, id, done)
  }

  /** Committed; the snapshot may be saved. */
  predicate Late(d: Disk, k: nat, id: Server.AttemptId) {
    && d.files == Whole(k + 1)
    && (Marked(d, id, StateSave) || (Marked(d, id, Committed) && d.snapshot == Server.Waves(k)))
    && (d.snapshot == Server.Waves(k) || d.snapshot == Server.Waves(k + 1))
  }

  predicate Saved(d: Disk, k: nat) {
    d.files == Whole(k + 1) && d.snapshot == Server.Waves(k + 1)
  }

  /** Committed and saved; the marker may be gone. */
  predicate Ending(d: Disk, k: nat, id: Server.AttemptId) {
    Saved(d, k) && (d.marker.None? || Marked(d, id, StateSave) || Marked(d, id, Finished))
  }
}
