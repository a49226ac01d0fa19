/**
 The batching queue of the worker pool (src/pool/execute_manager.rs).

 Callers push `(method, sender)` pairs onto an ordered buffer; a flush drains
 at most `BatchLimit` of the oldest pairs, splits them into two parallel
 sequences and sends them as one `NewExecute` message. A flush runs when a push
 brings the buffer to `BatchLimit` entries, and whenever the background task
 receives a `FreeWorker` event. The method and sender payloads are opaque: they
 are the type parameters `M` and `S`. Sending is modelled by its outcome only.
 */
module ExecuteManager {
  import opened Wrappers

  /** Largest number of entries one `NewExecute` message carries. */
  const BatchLimit: nat := 25

  /** Why a flush failed: the buffer was empty, or the task channel has no receiver. */
  datatype FlushError = EmptyQueue | Disconnected

  datatype Status = Ok | Err(error: FlushError)

  /** What the task channel does with a message: takes it, or refuses it because it is closed. */
  datatype SendOutcome = Accepted | Closed

  /** The one message kind the queue produces: methods and their reply senders, position by position. */
  datatype Message<M, S> = NewExecute(methods: seq<M>, senders: seq<S>)

  /** The only event the background task reacts to. */
  datatype Event = FreeWorker

  /** Result of one flush or push: the buffer afterwards, the batch drained (if any) and what the caller gets back. */
  datatype Flush<M, S> = Flush(queue: seq<(M, S)>, batch: Option<Message<M, S>>, status: Status)

  function Min(a: nat, b: nat): nat
  {
    if a < b then a else b
  }

  predicate WellFormed<M, S>(m: Message<M, S>)
  {
    |m.methods| == |m.senders|
  }

  /** The pairs a message carries, reassembled position by position (the inverse of `Split`). */
  function Pairs<M, S>(m: Message<M, S>): seq<(M, S)>
  {
    seq(Min(|m.methods|, |m.senders|), i requires 0 <= i < Min(|m.methods|, |m.senders|) => (m.methods[i], m.senders[i]))
  }

  /** The pairs a flush removed from the buffer, in order. */
  function Drained<M, S>(f: Flush<M, S>): seq<(M, S)>
  {
    if f.batch.Some? then Pairs(f.batch.value) else []
  }

  /** Builds the message from drained pairs, pushing each method and each sender at the back in turn. */
  function Split<M, S>(entries: seq<(M, S)>): (m: Message<M, S>)
    ensures |m.methods| == |entries| && |m.senders| == |entries|
    ensures forall i :: 0 <= i < |entries| ==> m.methods[i] == entries[i].0 && m.senders[i] == entries[i].1
  {
    if |entries| == 0 then NewExecute([], [])
    else
      var front := Split(entries[..|entries| - 1]);
      var last := entries[|entries| - 1];
      NewExecute(front.methods + [last.0], front.senders + [last.1])
  }

  /** Splitting and re-pairing gives back the drained entries. */
  lemma SplitRoundTrip<M, S>(entries: seq<(M, S)>)
    ensures WellFormed(Split(entries))
    ensures Pairs(Split(entries)) == entries
  {
  }

  /** A well-formed message is exactly the split of its own pairs. */
  lemma PairsRoundTrip<M, S>(m: Message<M, S>)
    requires WellFormed(m)
    ensures Split(Pairs(m)) == m
  {
  }

  /** One flush of the buffer; `outcome` is what the task channel does with the message. */
  function PushExecute<M, S>(queue: seq<(M, S)>, outcome: SendOutcome): (r: Flush<M, S>)
    ensures r.status == Err(EmptyQueue) <==> |queue| == 0
    ensures |queue| == 0 ==> r.queue == queue && r.batch == None
    ensures |queue| > 0 ==> r.batch.Some? && WellFormed(r.batch.value)
    ensures |queue| > 0 ==> 1 <= |Drained(r)| <= BatchLimit
    ensures queue == Drained(r) + r.queue
    ensures |Drained(r)| == BatchLimit || r.queue == []
    ensures r.status == Ok <==> |queue| > 0 && outcome == Accepted
    ensures r.status == Err(Disconnected) <==> |queue| > 0 && outcome == Closed
  {
    if |queue| == 0 then
      Flush(queue, None, Err(EmptyQueue))
    else
      var n := Min(|queue|, BatchLimit);
      var batch := Split(queue[..n]);
      SplitRoundTrip(queue[..n]);
      assert queue == queue[..n] + queue[n..];
      Flush(queue[n..], Some(batch), if outcome == Accepted then Ok else Err(Disconnected))
  }

  /** The send outcome decides only the status: the same entries leave the buffer either way. */
  lemma DrainIndependentOfSend<M, S>(queue: seq<(M, S)>)
    ensures PushExecute(queue, Accepted).queue == PushExecute(queue, Closed).queue
    ensures PushExecute(queue, Accepted).batch == PushExecute(queue, Closed).batch
    ensures |queue| > 0 ==> |PushExecute(queue, Closed).queue| < |queue|
  {
  }

  /** Appends one pair and flushes once the buffer holds `BatchLimit` or more. */
  function Push<M, S>(queue: seq<(M, S)>, entry: (M, S), outcome: SendOutcome): (r: Flush<M, S>)
    ensures queue + [entry] == Drained(r) + r.queue
    ensures |queue| + 1 < BatchLimit ==> r == Flush(queue + [entry], None, Ok)
    ensures |queue| + 1 >= BatchLimit ==> r.batch.Some? && WellFormed(r.batch.value) && |Drained(r)| == BatchLimit
    ensures |queue| < BatchLimit ==> |r.queue| < BatchLimit
    ensures |queue| + 1 == BatchLimit ==> r.queue == []
    ensures r.status != Err(EmptyQueue)
    ensures r.status == Err(Disconnected) <==> r.batch.Some? && outcome == Closed
  {
    var appended := queue + [entry];
    if |appended| >= BatchLimit then PushExecute(appended, outcome)
    else Flush(appended, None, Ok)
  }

  /**
   One turn of the background loop: `None` is the end of the event stream and
   stops the loop; `FreeWorker` flushes, and the loop ignores the flush's error.
   */
  function OnReceive<M, S>(queue: seq<(M, S)>, received: Option<Event>, outcome: SendOutcome): (r: Option<Flush<M, S>>)
    ensures r.None? <==> received.None?
    ensures r.Some? ==> queue == Drained(r.value) + r.value.queue
    ensures r.Some? && queue == [] ==> r.value.queue == [] && r.value.batch.None?
    ensures r.Some? && 0 < |queue| < BatchLimit ==> r.value.queue == [] && Drained(r.value) == queue
  {
    match received
    case None => None
    case Some(FreeWorker) => Some(PushExecute(queue, outcome))
  }

  // ---------------------------------------------------------------------------
  // Traces of pushes and received events.

  /** Something that happens to the queue: a caller pushes, or the background task receives. */
  datatype Action<M, S> =
    | Enqueue(entry: (M, S), outcome: SendOutcome)
    | Receive(received: Option<Event>, outcome: SendOutcome)

  /** A batch drained from the buffer together with what the channel did with it. */
  datatype Dispatch<M, S> = Dispatch(message: Message<M, S>, outcome: SendOutcome)

  /** The buffer, every batch drained so far in order, and whether the background loop still runs. */
  datatype State<M, S> = State(queue: seq<(M, S)>, drained: seq<Dispatch<M, S>>, listening: bool)

  function Start<M, S>(): State<M, S>
  {
    State([], [], true)
  }

  function Record<M, S>(s: State<M, S>, f: Flush<M, S>, outcome: SendOutcome): State<M, S>
  {
    var sent := if f.batch.Some? then [Dispatch(f.batch.value, outcome)] else [];
    State(f.queue, s.drained + sent, s.listening)
  }

  function Step<M, S>(s: State<M, S>, a: Action<M, S>): State<M, S>
  {
    match a
    case Enqueue(entry, outcome) => Record(s, Push(s.queue, entry, outcome), outcome)
    case Receive(received, outcome) =>
      if !s.listening then s
      else
        match OnReceive(s.queue, received, outcome)
        case None => s.(listening := false)
        case Some(f) => Record(s, f, outcome)
  }

  function Run<M, S>(actions: seq<Action<M, S>>): State<M, S>
  {
    if |actions| == 0 then Start()
    else Step(Run(actions[..|actions| - 1]), actions[|actions| - 1])
  }

  /** The pairs one action pushes: its entry for a push, nothing for a receive. */
  function PushedBy<M, S>(a: Action<M, S>): seq<(M, S)>
  {
    if a.Enqueue? then [a.entry] else []
  }

  /** The pairs pushed by a trace, in push order. */
  function Pushed<M, S>(actions: seq<Action<M, S>>): seq<(M, S)>
  {
    if |actions| == 0 then []
    else Pushed(actions[..|actions| - 1]) + PushedBy(actions[|actions| - 1])
  }

  /** All pairs carried by a sequence of batches, batch after batch. */
  function Flatten<M, S>(ds: seq<Dispatch<M, S>>): seq<(M, S)>
  {
    if |ds| == 0 then [] else Flatten(ds[..|ds| - 1]) + Pairs(ds[|ds| - 1].message)
  }

  /** Only the batches the channel accepted. */
  function Delivered<M, S>(ds: seq<Dispatch<M, S>>): seq<Dispatch<M, S>>
  {
    if |ds| == 0 then []
    else Delivered(ds[..|ds| - 1]) + (if ds[|ds| - 1].outcome == Accepted then [ds[|ds| - 1]] else [])
  }

  predicate AllAccepted<M, S>(actions: seq<Action<M, S>>)
  {
    forall i :: 0 <= i < |actions| ==> actions[i].outcome == Accepted
  }

  /** The invariant every reachable state keeps: a short buffer and well-formed batches of 1 to `BatchLimit` pairs. */
  predicate Bounded<M, S>(s: State<M, S>)
  {
    && |s.queue| < BatchLimit
    && forall i :: 0 <= i < |s.drained| ==>
         WellFormed(s.drained[i].message) && 1 <= |Pairs(s.drained[i].message)| <= BatchLimit
  }

  lemma FlattenRecord<M, S>(s: State<M, S>, f: Flush<M, S>, outcome: SendOutcome)
    ensures Flatten(Record(s, f, outcome).drained) == Flatten(s.drained) + Drained(f)
  {
    var ds := Record(s, f, outcome).drained;
    if f.batch.Some? {
      assert ds[..|ds| - 1] == s.drained;
    } else {
      assert ds == s.drained;
    }
  }

  /** Recording a flush keeps the earlier batches and moves the drained pairs from `before` into a new one. */
  lemma RecordConserves<M, S>(s: State<M, S>, f: Flush<M, S>, outcome: SendOutcome, before: seq<(M, S)>)
    requires before == Drained(f) + f.queue
    ensures Flatten(Record(s, f, outcome).drained) + Record(s, f, outcome).queue == Flatten(s.drained) + before
    ensures s.drained <= Record(s, f, outcome).drained
  {
    FlattenRecord(s, f, outcome);
  }

  /**
   One step keeps every earlier batch, moves pairs from the buffer into new
   batches and appends what it pushes, nothing more.
   */
  lemma StepConservesEntries<M, S>(s: State<M, S>, a: Action<M, S>)
    ensures s.drained <= Step(s, a).drained
    ensures Flatten(Step(s, a).drained) + Step(s, a).queue == Flatten(s.drained) + s.queue + PushedBy(a)
  {
    match a
    case Enqueue(entry, outcome) =>
      RecordConserves(s, Push(s.queue, entry, outcome), outcome, s.queue + [entry]);
    case Receive(received, outcome) =>
      if s.listening && received.Some? {
        RecordConserves(s, PushExecute(s.queue, outcome), outcome, s.queue);
      }
  }

  /** Every pushed pair is in exactly one drained batch or still in the buffer, and in push order. */
  lemma {:induction false} RunConservesEntries<M, S>(actions: seq<Action<M, S>>)
    ensures Flatten(Run(actions).drained) + Run(actions).queue == Pushed(actions)
  {
    if |actions| > 0 {
      var init := actions[..|actions| - 1];
      var a := actions[|actions| - 1];
      RunConservesEntries(init);
      StepConservesEntries(Run(init), a);
      assert Pushed(actions) == Pushed(init) + PushedBy(a);
    }
  }

  /** Every reachable state keeps `Bounded`: batches hold 1 to `BatchLimit` pairs and the buffer stays short. */
  lemma {:induction false} RunBounded<M, S>(actions: seq<Action<M, S>>)
    ensures Bounded(Run(actions))
  {
    if |actions| > 0 {
      var init := actions[..|actions| - 1];
      var s := Run(init);
      RunBounded(init);
      var a := actions[|actions| - 1];
      var t := Run(actions);
      forall i | 0 <= i < |t.drained|
        ensures WellFormed(t.drained[i].message) && 1 <= |Pairs(t.drained[i].message)| <= BatchLimit
      {
        if i < |s.drained| {
          assert t.drained[i] == s.drained[i];
        }
      }
    }
  }

  lemma {:induction false} DeliveredAllWhenAccepted<M, S>(actions: seq<Action<M, S>>)
    requires AllAccepted(actions)
    ensures Delivered(Run(actions).drained) == Run(actions).drained
  {
    if |actions| > 0 {
      var init := actions[..|actions| - 1];
      assert AllAccepted(init) by {
        forall i | 0 <= i < |init| ensures init[i].outcome == Accepted {
          assert init[i] == actions[i];
        }
      }
      DeliveredAllWhenAccepted(init);
      var s := Run(init);
      var ds := Run(actions).drained;
      if ds != s.drained {
        assert ds[..|ds| - 1] == s.drained;
        assert ds[|ds| - 1].outcome == actions[|actions| - 1].outcome;
      }
    }
  }

  /**
   When every send succeeds, the batches the executor receives followed by the
   buffer are exactly the pushed pairs: nothing lost, duplicated or reordered.
   */
  lemma {:induction false} NoLossWhenAccepted<M, S>(actions: seq<Action<M, S>>)
    requires AllAccepted(actions)
    ensures Flatten(Delivered(Run(actions).drained)) + Run(actions).queue == Pushed(actions)
  {
    DeliveredAllWhenAccepted(actions);
    RunConservesEntries(actions);
  }

  predicate PushesOnly<M, S>(actions: seq<Action<M, S>>)
  {
    forall i :: 0 <= i < |actions| ==> actions[i].Enqueue?
  }

  /**
   Pushes alone (no free worker) drain one full batch per `BatchLimit` pushes and
   leave the remainder in the buffer: 30 pushes give one batch of 25 and 5 pending.
   */
  lemma {:induction false} PushesFlushFullBatches<M, S>(actions: seq<Action<M, S>>)
    requires PushesOnly(actions)
    ensures |Run(actions).drained| == |actions| / BatchLimit
    ensures |Run(actions).queue| == |actions| % BatchLimit
    ensures forall i :: 0 <= i < |Run(actions).drained| ==> |Pairs(Run(actions).drained[i].message)| == BatchLimit
  {
    if |actions| > 0 {
      var init := actions[..|actions| - 1];
      assert PushesOnly(init) by {
        forall i | 0 <= i < |init| ensures init[i].Enqueue? {
          assert init[i] == actions[i];
        }
      }
      PushesFlushFullBatches(init);
      var s := Run(init);
      var t := Run(actions);
      var n := |init|;
      if n % BatchLimit == BatchLimit - 1 {
        assert (n + 1) / BatchLimit == n / BatchLimit + 1 && (n + 1) % BatchLimit == 0;
      } else {
        assert (n + 1) / BatchLimit == n / BatchLimit && (n + 1) % BatchLimit == n % BatchLimit + 1;
      }
      forall i | 0 <= i < |t.drained| ensures |Pairs(t.drained[i].message)| == BatchLimit {
        if i < |s.drained| {
          assert t.drained[i] == s.drained[i];
        }
      }
    }
  }
}
