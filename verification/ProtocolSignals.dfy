/** What becomes of signals: the first one is accepted, none is lost, and a cancelled run only cleans up. */
module ProtocolSignals {
  import opened Wrappers
  import opened Staging
  import opened Protocol
  import opened ProtocolTheorems
  import Server

  // ----- Which signals are forced -----

  /** A thread that will force has loaded an odd phase, and every force in the history has an accepted signal
      before it. */
  ghost predicate ForcedLater(handlers: Handlers, word: nat, log: seq<Event>) {
    && (forall t :: t in handlers && Odd(handlers[t]) ==> Odd(word))
    && (forall i :: 0 <= i < |log| && log[i] == Signalled(Force) ==> NonForce(log[..i]) == 1)
  }

  lemma ForcedLaterAppend(handlers: Handlers, word: nat, log: seq<Event>, e: Event)
    requires ForcedLater(handlers, word, log) && (e == Signalled(Force) ==> NonForce(log) == 1)
    ensures ForcedLater(handlers, word, log + [e])
  {
    forall i | 0 <= i < |log + [e]| && (log + [e])[i] == Signalled(Force)
      ensures NonForce((log + [e])[..i]) == 1
    {
      assert (log + [e])[..i] == log[..i];
      assert log[..|log|] == log;
    }
  }

  lemma {:induction false} ForcedLaterSilent(handlers: Handlers, word: nat, log: seq<Event>, events: seq<Event>)
    requires ForcedLater(handlers, word, log) && Silent(events)
    ensures ForcedLater(handlers, word, log + events)
  {
    if events == [] {
      assert log + events == log;
    } else {
      var init, last := events[..|events| - 1], events[|events| - 1];
      ForcedLaterSilent(handlers, word, log, init);
      ForcedLaterAppend(handlers, word, log + init, last);
      assert log + events == (log + init) + [last];
    }
  }

  lemma SignalForcesLater(plan: Plan, w: World, thread: nat)
    requires InterruptInv(plan, w) && ForcedLater(w.handlers, w.word, w.log)
    ensures var next := HandleSignal(w, thread); ForcedLater(next.handlers, next.word, next.log)
  {
    if thread in w.handlers {
      var phase := w.handlers[thread];
      if Odd(phase) {
        ForcedLaterAppend(w.handlers - {thread}, w.word, w.log, Signalled(Force));
      } else if w.word == phase {
        ForcedLaterAppend(w.handlers - {thread}, phase + 1, w.log, Signalled(if phase == PRE_COMMIT then Cancel else Deferred));
      }
    }
  }

  lemma StepForcesLater(plan: Plan, w: World, move: Move)
    requires InRange(plan, w) && InterruptInv(plan, w) && ForcedLater(w.handlers, w.word, w.log)
    ensures var next := Step(plan, w, move); ForcedLater(next.handlers, next.word, next.log)
  {
    var next := Step(plan, w, move);
    match move
    case Coordinate(go, report) =>
      CoordinatorLog(plan, w, go, report);
      CoordinatorKeepsWord(plan, w, go, report);
      ForcedLaterSilent(w.handlers, next.word, w.log, CoordinatorEvents(plan, w, next));
    case WorkHere(fail) => ForcedLaterSilent(w.handlers, w.word, w.log, LocalEvents(plan, w, next.local));
    case WorkThere(fail, lost) =>
      ForcedLaterSilent(w.handlers, w.word, w.log, RemoteEvents(w.remote, next.remote, RemoteStep(w.remote, fail).1));
    case Break =>
    case Signal(thread) => SignalForcesLater(plan, w, thread);
  }

  lemma {:induction false} RunForcesLater(plan: Plan, moves: seq<Move>)
    ensures var w := Run(plan, moves); ForcedLater(w.handlers, w.word, w.log)
  {
    if moves != [] {
      var init, last := moves[..|moves| - 1], moves[|moves| - 1];
      assert Moved(plan, moves) == Step(plan, Run(plan, init), last);
      RunForcesLater(plan, init);
      RunInterrupts(plan, init);
      RunInRange(plan, init);
      StepForcesLater(plan, Run(plan, init), last);
    }
  }

  lemma RunInRange(plan: Plan, moves: seq<Move>)
    ensures InRange(plan, Run(plan, moves))
  {
    RunKeeps(plan, moves);
  }

  /** The first signal of a run is never answered with force, however the threads interleave: before every
      forced one, exactly one signal was accepted as a cancel or deferred. */
  lemma FirstSignalIsAccepted(plan: Plan, moves: seq<Move>, i: nat)
    requires i < |Run(plan, moves).log| && Run(plan, moves).log[i] == Signalled(Force)
    ensures NonForce(Run(plan, moves).log[..i]) == 1
  {
    RunForcesLater(plan, moves);
  }

  // ----- No signal is lost -----

  /** How often a signal arrives at a thread, rather than a thread going on with one. */
  ghost function Arrivals(plan: Plan, moves: seq<Move>): nat
    decreases |moves|
  {
    if moves == [] then 0
    else
      var init, last := moves[..|moves| - 1], moves[|moves| - 1];
      Arrivals(plan, init) + if last.Signal? && last.thread !in Run(plan, init).handlers then 1 else 0
  }

  function Answers(log: seq<Event>): nat {
    if log == [] then 0 else Answers(log[..|log| - 1]) + if log[|log| - 1].Signalled? then 1 else 0
  }

  lemma {:induction false} AnswersSilent(log: seq<Event>, events: seq<Event>)
    requires Silent(events)
    ensures Answers(log + events) == Answers(log)
  {
    if events == [] {
      assert log + events == log;
    } else {
      var init, last := events[..|events| - 1], events[|events| - 1];
      AnswersSilent(log, init);
      assert log + events == (log + init) + [last];
    }
  }

  lemma AnswersMore(log: seq<Event>, answer: Interrupt)
    ensures Answers(log + [Signalled(answer)]) == Answers(log) + 1
  {
  }

  lemma SignalBalances(plan: Plan, w: World, thread: nat)
    requires InterruptInv(plan, w)
    ensures var next := HandleSignal(w, thread);
      Answers(next.log) + |next.handlers| == Answers(w.log) + |w.handlers| + if thread !in w.handlers then 1 else 0
  {
    if thread in w.handlers {
      var phase := w.handlers[thread];
      assert (w.handlers - {thread}).Keys == w.handlers.Keys - {thread};
      if Odd(phase) {
        AnswersMore(w.log, Force);
      } else if w.word == phase {
        AnswersMore(w.log, if phase == PRE_COMMIT then Cancel else Deferred);
      } else {
        assert w.handlers[thread := w.word].Keys == w.handlers.Keys;
      }
    } else {
      assert w.handlers[thread := w.word].Keys == w.handlers.Keys + {thread};
    }
  }

  lemma StepBalances(plan: Plan, w: World, move: Move)
    requires InRange(plan, w) && InterruptInv(plan, w) && !move.Signal?
    ensures var next := Step(plan, w, move); next.handlers == w.handlers && Answers(next.log) == Answers(w.log)
  {
    var next := Step(plan, w, move);
    match move
    case Coordinate(go, report) =>
      CoordinatorLog(plan, w, go, report);
      CoordinatorKeepsWord(plan, w, go, report);
      AnswersSilent(w.log, CoordinatorEvents(plan, w, next));
    case WorkHere(fail) => AnswersSilent(w.log, LocalEvents(plan, w, next.local));
    case WorkThere(fail, lost) => AnswersSilent(w.log, RemoteEvents(w.remote, next.remote, RemoteStep(w.remote, fail).1));
    case Break =>
  }

  /** Over all interleavings: every signal that arrived has been answered exactly once, or a thread is still
      busy with it. */
  lemma {:induction false} NoSignalIsLost(plan: Plan, moves: seq<Move>)
    ensures var w := Run(plan, moves); Arrivals(plan, moves) == Answers(w.log) + |w.handlers|
    decreases |moves|
  {
    if moves != [] {
      var init, last := moves[..|moves| - 1], moves[|moves| - 1];
      var w := Run(plan, init);
      assert Moved(plan, moves) == Step(plan, w, last);
      NoSignalIsLost(plan, init);
      RunInterrupts(plan, init);
      RunInRange(plan, init);
      if last.Signal? {
        SignalBalances(plan, w, last.thread);
      } else {
        StepBalances(plan, w, last);
      }
    }
  }

  // ----- What a cancelled run still does -----

  predicate OnlyAborts(w: World, next: World, id: Server.AttemptId) {
    && (next.remote == w.remote || next.remote == w.remote.(inbox := w.remote.inbox + [Server.Abort(id)]))
    && (next.local == w.local || next.local == Launch(w.local, Server.RemoveMarker))
  }

  lemma BeforeStagingOnlyAborts(plan: Plan, w: World, go: bool)
    requires WordAt(plan, w) && w.word == CANCEL_REQUESTED
    ensures OnlyAborts(w, BeforeStaging(plan, w, go), Attempt(plan, w.wave))
  {
  }

  lemma StageBothOnlyAborts(plan: Plan, w: World, go: bool, report: Report)
    requires WordAt(plan, w) && w.word == CANCEL_REQUESTED && !w.pc.Barrier?
    ensures OnlyAborts(w, StageBoth(plan, w, go, report), Attempt(plan, w.wave))
  {
  }

  lemma FinishCommitOnlyAborts(plan: Plan, w: World)
    requires WordAt(plan, w) && w.word == CANCEL_REQUESTED
    ensures OnlyAborts(w, FinishCommit(plan, w), Attempt(plan, w.wave))
  {
  }

  lemma WindUpOnlyAborts(plan: Plan, w: World, go: bool)
    ensures OnlyAborts(w, WindUp(plan, w, go), Attempt(plan, w.wave))
  {
  }

  /** A cancelled coordinator asks the peer for nothing but an abort, and does nothing here but remove the
      marker; only the validation after both have prepared is still begun. */
  lemma CancelledOnlyCleansUp(plan: Plan, moves: seq<Move>, go: bool, report: Report)
    requires Run(plan, moves).word == CANCEL_REQUESTED && !Run(plan, moves).pc.Barrier?
    ensures var w := Run(plan, moves); var next := Coordinator(plan, w, go, report);
      && (next.remote == w.remote || next.remote == w.remote.(inbox := w.remote.inbox + [Server.Abort(Attempt(plan, w.wave))]))
      && (next.local == w.local || next.local == Launch(w.local, Server.RemoveMarker))
  {
    RunInterrupts(plan, moves);
    BeforeStagingOnlyAborts(plan, Run(plan, moves), go);
    StageBothOnlyAborts(plan, Run(plan, moves), go, report);
    FinishCommitOnlyAborts(plan, Run(plan, moves));
    WindUpOnlyAborts(plan, Run(plan, moves), go);
  }
}
