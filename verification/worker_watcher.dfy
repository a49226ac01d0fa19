/**
 The busy-worker counter of the pool (src/pool/worker_watcher.rs).

 A background task folds a stream of `GotWork`/`DoneWork` events into a counter
 that starts at 0. A `DoneWork` at 0 makes the unsigned subtraction panic,
 which kills the task; a receive error ends the loop quietly. Dropping the
 watcher aborts a task that is still running and re-raises the panic of a
 task that died by one.
 */
module WorkerWatcher {
  import opened Wrappers

  datatype Event = GotWork | DoneWork

  /**
   The background task: still looping with its count, dead by the underflow
   panic, or ended by a receive error with its final count.
   */
  datatype Task = Running(count: nat) | Faulted | Ended(count: nat)

  /** A fresh watcher: the counter starts at 0 and the task is looping. */
  const Start: Task := Running(0)

  /** One turn of the loop; `None` is a receive error (stream closed or lagging). */
  function Step(t: Task, received: Option<Event>): (t': Task)
    ensures !t.Running? ==> t' == t
    ensures t'.Faulted? <==> t.Faulted? || (t == Running(0) && received == Some(DoneWork))
    ensures t'.Ended? <==> t.Ended? || (t.Running? && received.None?)
    ensures t.Running? && t'.Running? ==> received.Some? && t'.count as int == t.count + Delta(received.value)
  {
    match t
    case Running(n) =>
      (match received
       case None => Ended(n)
       case Some(GotWork) => Running(n + 1)
       case Some(DoneWork) => if n == 0 then Faulted else Running(n - 1))
    case _ => t
  }

  /** What an event contributes to the count. */
  function Delta(e: Event): int
  {
    if e == GotWork then 1 else -1
  }

  /** The task after receiving `received` in order. */
  function Run(t: Task, received: seq<Option<Event>>): Task
  {
    if |received| == 0 then t
    else Step(Run(t, received[..|received| - 1]), received[|received| - 1])
  }

  /** Number of `GotWork` minus number of `DoneWork`. */
  function Net(es: seq<Event>): int
  {
    if |es| == 0 then 0 else Net(es[..|es| - 1]) + Delta(es[|es| - 1])
  }

  /** No prefix of the events has more `DoneWork` than `GotWork`. */
  predicate NoUnderflow(es: seq<Event>)
  {
    forall k :: 0 <= k <= |es| ==> Net(es[..k]) >= 0
  }

  /** The events as successful receives. */
  function Lift(es: seq<Event>): seq<Option<Event>>
  {
    seq(|es|, i requires 0 <= i < |es| => Some(es[i]))
  }

  /** What `running_workers` reads: the stored counter, which a faulted task left at 0. */
  function RunningWorkers(t: Task): nat
  {
    match t
    case Running(n) => n
    case Ended(n) => n
    case Faulted => 0
  }

  lemma {:induction false} RunAppend(t: Task, a: seq<Option<Event>>, b: seq<Option<Event>>)
    ensures Run(t, a + b) == Run(Run(t, a), b)
    decreases |b|
  {
    if |b| > 0 {
      assert (a + b)[..|a + b| - 1] == a + b[..|b| - 1];
      assert (a + b)[|a + b| - 1] == b[|b| - 1];
      RunAppend(t, a, b[..|b| - 1]);
    } else {
      assert a + b == a;
    }
  }

  /** A task that has stopped looping ignores anything still in the stream. */
  lemma {:induction false} StoppedIsFinal(t: Task, received: seq<Option<Event>>)
    requires !t.Running?
    ensures Run(t, received) == t
  {
    if |received| > 0 {
      StoppedIsFinal(t, received[..|received| - 1]);
    }
  }

  /** A receive error ends the loop with the count it had, without a fault. */
  lemma ReceiveErrorEnds(n: nat, rest: seq<Option<Event>>)
    ensures Run(Running(n), [None] + rest) == Ended(n)
  {
    RunAppend(Running(n), [None], rest);
    assert Run(Running(n), [None]) == Ended(n);
    StoppedIsFinal(Ended(n), rest);
  }

  /**
   The task survives a stream of events exactly when no prefix finishes more
   work than it started; it then holds `#GotWork - #DoneWork`, and otherwise it
   has died by the underflow panic.
   */
  lemma {:induction false} RunTallies(es: seq<Event>)
    ensures Run(Start, Lift(es)).Running? <==> NoUnderflow(es)
    ensures Run(Start, Lift(es)).Running? ==> Run(Start, Lift(es)).count == Net(es)
    ensures !Run(Start, Lift(es)).Running? ==> Run(Start, Lift(es)) == Faulted
  {
    if |es| == 0 {
      assert es[..0] == es;
    } else {
      var init := es[..|es| - 1];
      var e := es[|es| - 1];
      RunTallies(init);
      assert Lift(es)[..|es| - 1] == Lift(init);
      assert forall k :: 0 <= k < |es| ==> es[..k] == init[..k];
      assert es[..|es|] == es;
      assert init[..|init|] == init;
      assert NoUnderflow(es) <==> NoUnderflow(init) && Net(es) >= 0;
    }
  }

  /**
   What `running_workers` returns after a stream of events: the net count, or
   0 once the task has died by underflow; it is never negative.
   */
  lemma ReadAfterEvents(es: seq<Event>)
    ensures NoUnderflow(es) ==> RunningWorkers(Run(Start, Lift(es))) == Net(es)
    ensures !NoUnderflow(es) ==> RunningWorkers(Run(Start, Lift(es))) == 0
  {
    RunTallies(es);
  }

  // ---------------------------------------------------------------------------
  // Teardown.

  /** What the join handle says about the task. */
  datatype JoinState = Pending | Completed | Panicked | Cancelled

  /** What dropping the watcher does. */
  datatype Teardown = Abort | Release | ResumeUnwind

  function JoinStateOf(t: Task): JoinState
  {
    match t
    case Running(_) => Pending
    case Ended(_) => Completed
    case Faulted => Panicked
  }

  /**
   The drop of the watcher: a finished task is joined and its panic, if any,
   is raised again; a task still running is aborted.
   */
  function Drop(s: JoinState): (d: Teardown)
    ensures d == Abort <==> s == Pending
    ensures d == ResumeUnwind <==> s == Panicked
    ensures d == Release <==> s == Completed || s == Cancelled
  {
    match s
    case Pending => Abort
    case Panicked => ResumeUnwind
    case Completed => Release
    case Cancelled => Release
  }

  /**
   Dropping the watcher after a stream of events, optionally closed by a receive
   error: the underflow panic is re-raised exactly when some prefix underflows;
   otherwise the task is aborted while the stream is open and released once it
   has ended.
   */
  lemma TeardownAfterEvents(es: seq<Event>, closed: bool)
    ensures var t := Run(Start, Lift(es) + (if closed then [None] else []));
      && (Drop(JoinStateOf(t)) == ResumeUnwind <==> !NoUnderflow(es))
      && (Drop(JoinStateOf(t)) == Abort <==> NoUnderflow(es) && !closed)
      && (Drop(JoinStateOf(t)) == Release <==> NoUnderflow(es) && closed)
  {
    RunTallies(es);
    RunAppend(Start, Lift(es), if closed then [None] else []);
  }

  /**
   The expectations of the tests in worker_watcher.rs: `got_work_two_times`,
   `one_of_two_done_work`, `two_done_work` and `done_more_than_got`.
   */
  lemma TestScenarios()
    ensures RunningWorkers(Run(Start, Lift([GotWork, GotWork]))) == 2
    ensures RunningWorkers(Run(Start, Lift([GotWork, GotWork, DoneWork]))) == 1
    ensures RunningWorkers(Run(Start, Lift([GotWork, GotWork, DoneWork, DoneWork]))) == 0
    ensures Run(Start, Lift([GotWork, GotWork, DoneWork, DoneWork, DoneWork])) == Faulted
    ensures Drop(JoinStateOf(Run(Start, Lift([GotWork, GotWork, DoneWork, DoneWork, DoneWork])))) == ResumeUnwind
  {
    var g, d := Some(GotWork), Some(DoneWork);
    assert Lift([GotWork, GotWork]) == [g, g];
    assert Lift([GotWork, GotWork, DoneWork]) == [g, g, d];
    assert Lift([GotWork, GotWork, DoneWork, DoneWork]) == [g, g, d, d];
    assert Lift([GotWork, GotWork, DoneWork, DoneWork, DoneWork]) == [g, g, d, d, d];
    assert Run(Start, [g]) == Running(1) by { assert [g][..0] == []; }
    assert Run(Start, [g, g]) == Running(2) by { assert [g, g][..1] == [g]; }
    assert Run(Start, [g, g, d]) == Running(1) by { assert [g, g, d][..2] == [g, g]; }
    assert Run(Start, [g, g, d, d]) == Running(0) by { assert [g, g, d, d][..3] == [g, g, d]; }
    assert Run(Start, [g, g, d, d, d]) == Faulted by { assert [g, g, d, d, d][..4] == [g, g, d, d]; }
  }
}
