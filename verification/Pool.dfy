/** Running a worker over items on a bounded number of threads: one deterministic result under every
    order of completion and every timing of cancellation. */
module Pool {
  import opened Wrappers

  /** The result of working through the items one after the other: the first error, or all results. */
  function Sequential<T, U, E>(worker: T -> Result<U, E>, items: seq<T>): Result<seq<U>, E> {
    if items == [] then Ok([])
    else
      match worker(items[0])
      case Err(e) => Err(e)
      case Ok(u) =>
        match Sequential(worker, items[1..])
        case Err(e) => Err(e)
        case Ok(us) => Ok([u] + us)
  }

  /** The lowest position whose item fails, or the number of items. */
  function FirstFailure<T, U, E>(worker: T -> Result<U, E>, items: seq<T>): (low: nat)
    ensures low <= |items|
    ensures forall i :: 0 <= i < low ==> worker(items[i]).Ok?
    ensures low < |items| ==> worker(items[low]).Err?
  {
    if items == [] || worker(items[0]).Err? then 0
    else
      var low := FirstFailure(worker, items[1..]);
      assert forall i :: 0 < i < low + 1 ==> items[i] == items[1..][i - 1];
      low + 1
  }

  lemma {:induction false} SequentialFails<T, U, E>(worker: T -> Result<U, E>, items: seq<T>)
    requires FirstFailure(worker, items) < |items|
    ensures Sequential(worker, items) == Err(worker(items[FirstFailure(worker, items)]).error)
  {
    if worker(items[0]).Ok? {
      SequentialFails(worker, items[1..]);
    }
  }

  lemma {:induction false} SequentialSucceeds<T, U, E>(worker: T -> Result<U, E>, items: seq<T>, us: seq<U>)
    requires |us| == |items| && forall i :: 0 <= i < |items| ==> worker(items[i]) == Ok(us[i])
    ensures Sequential(worker, items) == Ok(us)
  {
    if items != [] {
      SequentialSucceeds(worker, items[1..], us[1..]);
      assert us == [us[0]] + us[1..];
    }
  }

  lemma {:induction false} SequentialOk<T, U, E>(worker: T -> Result<U, E>, items: seq<T>, us: seq<U>)
    requires Sequential(worker, items) == Ok(us)
    ensures |us| == |items| && forall i :: 0 <= i < |items| ==> worker(items[i]) == Ok(us[i])
  {
    if items != [] {
      SequentialOk(worker, items[1..], Sequential(worker, items[1..]).value);
    }
  }

  lemma {:induction false} SequentialErr<T, U, E>(worker: T -> Result<U, E>, items: seq<T>)
    requires Sequential(worker, items).Err?
    ensures FirstFailure(worker, items) < |items|
    ensures worker(items[FirstFailure(worker, items)]) == Err(Sequential(worker, items).error)
  {
    if items != [] && worker(items[0]).Ok? {
      SequentialErr(worker, items[1..]);
    }
  }

  /** How a run unfolds: at each completion, which active task ends, and whether a task that has been
      told to cancel gives up instead of finishing. */
  datatype Turn = Turn(pick: nat, givesUp: bool) {
    function Among(count: nat): (i: nat)
      requires count > 0
      ensures i < count && (pick < count ==> i == pick)
    {
      pick % count
    }
  }

  type Schedule = nat -> Turn

  /** The flags that tasks look at. */
  datatype Cancellation = Cancellation(all: bool, cutoff: Option<nat>) {
    predicate IsCancelled(position: nat) {
      all || (cutoff.Some? && position > cutoff.value)
    }

    /** Lowers the cutoff. */
    function CutAt(position: nat): Cancellation {
      this.(cutoff := Some(if cutoff.Some? && cutoff.value < position then cutoff.value else position))
    }
  }

  datatype FirstError<E> = FirstError(position: nat, error: E)

  /** Keeps the error of the lowest position. */
  method RecordFirstError<E>(first: Option<FirstError<E>>, position: nat, error: E) returns (r: Option<FirstError<E>>)
    ensures r.Some?
    ensures r.value.position == if first.Some? && first.value.position < position then first.value.position else position
    ensures r == first || r == Some(FirstError(position, error))
    ensures first.Some? && first.value.position == position ==> r == first
  {
    r := first;
    if first.None? || position < first.value.position {
      r := Some(FirstError(position, error));
    }
  }

  /** The positions in order from `a` below `b`. */
  function Range(a: nat, b: nat): seq<nat>
    decreases b - a
  {
    if a < b then [a] + Range(a + 1, b) else []
  }

  function RetainBelow(pending: seq<nat>, position: nat): seq<nat> {
    if pending == [] then []
    else (if pending[0] < position then [pending[0]] else []) + RetainBelow(pending[1..], position)
  }

  /** Errors come from tasks that have started, so nothing that is still pending comes before one. */
  lemma {:induction false} RetainNone(a: nat, b: nat, position: nat)
    requires position <= a
    ensures RetainBelow(Range(a, b), position) == []
    decreases b - a
  {
    if a < b {
      RetainNone(a + 1, b, position);
    }
  }

  predicate Distinct(xs: seq<nat>) {
    forall i, j :: 0 <= i < j < |xs| ==> xs[i] != xs[j]
  }

  /** Every started task is active, has left its result, or comes after the lowest error seen. */
  ghost predicate Accounted<T, U, E>(worker: T -> Result<U, E>, items: seq<T>, next: nat, active: seq<nat>,
                                     results: seq<Option<U>>, first: Option<FirstError<E>>) {
    && next <= |items| == |results|
    && Distinct(active) && (forall p :: p in active ==> p < next)
    && (forall i :: 0 <= i < |results| && results[i].Some? ==> worker(items[i]) == Ok(results[i].value))
    && (forall i :: 0 <= i < next ==> i in active || results[i].Some? || (first.Some? && first.value.position <= i))
  }

  /** No error is known from before the lowest item that fails. */
  ghost predicate Genuine<T, U, E>(worker: T -> Result<U, E>, items: seq<T>, next: nat, first: Option<FirstError<E>>, flags: Cancellation) {
    var low := FirstFailure(worker, items);
    && !flags.all && (flags.cutoff.Some? <==> first.Some?)
    && (first.Some? ==>
          && flags.cutoff.value == first.value.position
          && low <= first.value.position < next <= |items|
          && (first.value.position == low ==> worker(items[low]) == Err(first.value.error)))
  }

  /** What a task that ends returns: its own outcome, or an error once it has been told to cancel. */
  function Joined<T, U, E>(worker: T -> Result<U, E>, items: seq<T>, position: nat, flags: Cancellation, givesUp: bool, cancelled: E): (r: Result<U, E>)
    requires position < |items|
    ensures flags.IsCancelled(position) && givesUp ==> r == Err(cancelled)
  {
    if givesUp && flags.IsCancelled(position) then Err(cancelled) else worker(items[position])
  }

  lemma Spawned<T, U, E>(worker: T -> Result<U, E>, items: seq<T>, next: nat, active: seq<nat>,
                         results: seq<Option<U>>, first: Option<FirstError<E>>)
    requires Accounted(worker, items, next, active, results, first) && next < |items|
    ensures Accounted(worker, items, next + 1, active + [next], results, first)
  {
    assert next !in active;
  }

  function Without(active: seq<nat>, i: nat): seq<nat>
    requires i < |active|
  {
    active[..i] + active[i + 1..]
  }

  lemma WithoutMembers(active: seq<nat>, i: nat)
    requires i < |active| && Distinct(active)
    ensures Distinct(Without(active, i))
    ensures forall p :: p in Without(active, i) <==> p in active && p != active[i]
  {
  }

  lemma Succeeded<T, U, E>(worker: T -> Result<U, E>, items: seq<T>, next: nat, active: seq<nat>, i: nat,
                           results: seq<Option<U>>, first: Option<FirstError<E>>, u: U)
    requires Accounted(worker, items, next, active, results, first) && i < |active| && active[i] in active
    requires worker(items[active[i]]) == Ok(u)
    ensures Accounted(worker, items, next, Without(active, i), results[active[i] := Some(u)], first)
  {
    WithoutMembers(active, i);
  }

  lemma Failed<T, U, E>(worker: T -> Result<U, E>, items: seq<T>, next: nat, active: seq<nat>, i: nat,
                        results: seq<Option<U>>, first: Option<FirstError<E>>, after: Option<FirstError<E>>)
    requires Accounted(worker, items, next, active, results, first) && i < |active|
    requires after.Some? && after.value.position <= active[i]
    requires first.Some? ==> after.value.position <= first.value.position
    ensures Accounted(worker, items, next, Without(active, i), results, after)
  {
    WithoutMembers(active, i);
  }

  /** An error comes from an item that fails, or from a task cancelled after an earlier one failed. */
  lemma StaysGenuine<T, U, E>(worker: T -> Result<U, E>, items: seq<T>, next: nat, position: nat, error: E,
                              first: Option<FirstError<E>>, after: Option<FirstError<E>>, flags: Cancellation)
    requires Genuine(worker, items, next, first, flags) && position < next <= |items|
    requires flags.IsCancelled(position) || worker(items[position]) == Err(error)
    requires after == if first.None? || position < first.value.position then Some(FirstError(position, error)) else first
    ensures Genuine(worker, items, next, after, flags.CutAt(position))
  {
  }

  predicate NoneBelow(active: seq<nat>, position: nat) {
    forall p :: p in active ==> p >= position
  }

  /** An error with nothing active before it is the error of the lowest item that fails. */
  lemma NothingBefore<T, U, E>(worker: T -> Result<U, E>, items: seq<T>, next: nat, active: seq<nat>,
                               results: seq<Option<U>>, first: Option<FirstError<E>>, flags: Cancellation)
    requires Accounted(worker, items, next, active, results, first) && Genuine(worker, items, next, first, flags)
    requires first.Some? && NoneBelow(active, first.value.position)
    ensures Sequential(worker, items) == Err(first.value.error)
  {
    var low := FirstFailure(worker, items);
    if low < first.value.position {
      assert false;
    }
    SequentialFails(worker, items);
  }

  predicate AllPresent<U>(results: seq<Option<U>>) {
    forall k :: 0 <= k < |results| ==> results[k].Some?
  }

  function Values<U>(results: seq<Option<U>>): seq<U>
    requires AllPresent(results)
  {
    seq(|results|, k requires 0 <= k < |results| => results[k].value)
  }

  /** When nothing is left to do and no error was seen, every result is there. */
  lemma AllDone<T, U, E>(worker: T -> Result<U, E>, items: seq<T>, next: nat, results: seq<Option<U>>)
    requires Accounted(worker, items, next, [], results, None) && Range(next, |items|) == []
    ensures AllPresent(results) && Sequential(worker, items) == Ok(Values(results))
  {
    SequentialSucceeds(worker, items, Values(results));
  }

  /** The tasks that can see that they are cancelled. */
  function Told(active: seq<nat>, flags: Cancellation): set<nat> {
    set p | p in active && flags.IsCancelled(p)
  }

  /** The active tasks that come after a position. */
  function Behind(active: seq<nat>, position: nat): set<nat> {
    set p | p in active && p > position
  }

  predicate NoneAtOrBelow(told: set<nat>, low: nat) {
    forall p :: p in told ==> p > low
  }

  lemma ToldLater<T, U, E>(worker: T -> Result<U, E>, items: seq<T>, next: nat, active: seq<nat>,
                           first: Option<FirstError<E>>, flags: Cancellation, told: set<nat>)
    requires Genuine(worker, items, next, first, flags) && first.Some? && NoneAtOrBelow(told, FirstFailure(worker, items))
    ensures NoneAtOrBelow(told + Told(active, flags), FirstFailure(worker, items))
    ensures Told(active, flags) == Behind(active, first.value.position)
  {
  }

  /** The state of a run: until an error is seen every later item is pending; from then on none is. */
  ghost predicate Live<T, U, E>(worker: T -> Result<U, E>, items: seq<T>, next: nat, pending: seq<nat>, active: seq<nat>,
                                results: seq<Option<U>>, first: Option<FirstError<E>>, flags: Cancellation) {
    && Accounted(worker, items, next, active, results, first)
    && Genuine(worker, items, next, first, flags)
    && if first.None? then pending == Range(next, |items|) else pending == [] && active != []
  }

  /** Starts pending tasks while there is room. */
  method StartTasks<T, U, E>(worker: T -> Result<U, E>, items: seq<T>, limit: nat, pending0: seq<nat>, active0: seq<nat>,
                             ghost next0: nat, ghost results: seq<Option<U>>, ghost first: Option<FirstError<E>>, ghost flags: Cancellation)
    returns (pending: seq<nat>, active: seq<nat>, ghost next: nat)
    requires Live(worker, items, next0, pending0, active0, results, first, flags) && |active0| <= limit
    ensures Live(worker, items, next, pending, active, results, first, flags) && |active| <= limit
    ensures |pending| + |active| == |pending0| + |active0|
    ensures |active| == limit || pending == []
  {
    pending, active, next := pending0, active0, next0;
    while |active| < limit && pending != []
      invariant |active| <= limit && |pending| + |active| == |pending0| + |active0|
      invariant Live(worker, items, next, pending, active, results, first, flags)
      decreases |pending|
    {
      Spawned(worker, items, next, active, results, first);
      active, pending, next := active + [pending[0]], pending[1..], next + 1;
    }
  }

  /** Runs the worker on every item, at most `limit` at a time. `told` collects the tasks that could see
      that they are cancelled while the run was live; `overtaken` those that were active behind the lowest
      error seen. They are the same. */
  method RunBlockingWithLimit<T, U, E>(items: seq<T>, limit: nat, worker: T -> Result<U, E>, cancelled: E, schedule: Schedule)
    returns (r: Result<seq<U>, E>, ghost peak: nat, ghost told: set<nat>, ghost overtaken: set<nat>)
    requires limit > 0
    ensures r == Sequential(worker, items)
    ensures peak <= limit
    ensures NoneAtOrBelow(told, FirstFailure(worker, items))
    ensures told == overtaken
  {
    peak, told, overtaken := 0, {}, {};
    ghost var next: nat := 0;
    var n: nat := |items|;
    var pending := Range(0, n);
    var active: seq<nat> := [];
    var results: seq<Option<U>> := seq(n, _ => None);
    var first: Option<FirstError<E>> := None;
    var flags := Cancellation(false, None);
    var turn: nat := 0;
    while pending != [] || active != []
      invariant |active| <= limit && peak <= limit
      invariant Live(worker, items, next, pending, active, results, first, flags)
      invariant NoneAtOrBelow(told, FirstFailure(worker, items)) && told == overtaken
      decreases |pending| + |active|
    {
      pending, active, next := StartTasks(worker, items, limit, pending, active, next, results, first, flags);
      peak := if |active| > peak then |active| else peak;

      var i: nat := schedule(turn).Among(|active|);
      var position := active[i];
      assert position in active;
      var joined := Joined(worker, items, position, flags, schedule(turn).givesUp, cancelled);
      turn := turn + 1;
      match joined {
        case Ok(u) =>
          Succeeded(worker, items, next, active, i, results, first, u);
          results := results[position := Some(u)];
        case Err(error) =>
          var after := RecordFirstError(first, position, error);
          Failed(worker, items, next, active, i, results, first, after);
          StaysGenuine(worker, items, next, position, error, first, after, flags);
          flags := flags.CutAt(position);
          first := after;
      }
      active := Without(active, i);
      if first.Some? {
        RetainNone(next, n, first.value.position);
        pending := RetainBelow(pending, first.value.position);
        ToldLater(worker, items, next, active, first, flags, told);
        told, overtaken := told + Told(active, flags), overtaken + Behind(active, first.value.position);
        if NoneBelow(active, first.value.position) {
          NothingBefore(worker, items, next, active, results, first, flags);
          flags := flags.(all := true);
          return Err(first.value.error), peak, told, overtaken;
        }
      }
    }
    assert first.None?;
    AllDone(worker, items, next, results);
    r := Ok(Values(results));
  }
}
