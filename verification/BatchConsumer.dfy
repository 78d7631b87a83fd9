/** Batches, settlements and what conservation means for them. */
module BatchValues {
  import opened Wrappers

  /** A delivery with its tag and what its body decodes to. */
  datatype Delivery = Delivery(tag: nat, decoded: Option<string>)

  datatype Settlement = Acked(d: Delivery) | Nacked(d: Delivery) | Rejected(d: Delivery)

  /** One handler call: the messages and deliveries it got and whether it succeeded. */
  datatype Batch = Batch(messages: seq<string>, deliveries: seq<Delivery>, ok: bool)

  datatype Event = Received(d: Delivery) | TimerFired | ContextDone | ChannelClosed

  datatype Exit = Running | Cancelled | DeliveriesClosed

  function Decodable(ds: seq<Delivery>): seq<Delivery> {
    if ds == [] then []
    else if ds[|ds| - 1].decoded.Some? then Decodable(ds[..|ds| - 1]) + [ds[|ds| - 1]]
    else Decodable(ds[..|ds| - 1])
  }

  function Poison(ds: seq<Delivery>): seq<Delivery> {
    if ds == [] then []
    else if ds[|ds| - 1].decoded.None? then Poison(ds[..|ds| - 1]) + [ds[|ds| - 1]]
    else Poison(ds[..|ds| - 1])
  }

  function ReceivedIn(evs: seq<Event>): seq<Delivery> {
    if evs == [] then []
    else if evs[|evs| - 1].Received? then ReceivedIn(evs[..|evs| - 1]) + [evs[|evs| - 1].d]
    else ReceivedIn(evs[..|evs| - 1])
  }

  function DeliveriesOf(batches: seq<Batch>): seq<Delivery> {
    if batches == [] then [] else DeliveriesOf(batches[..|batches| - 1]) + batches[|batches| - 1].deliveries
  }

  /** The settlements of the first n deliveries of a batch. */
  function SettlementsOf(b: Batch, n: nat): (log: seq<Settlement>)
    requires n <= |b.deliveries|
    ensures |log| == n && forall i :: 0 <= i < n ==> log[i].d == b.deliveries[i] && !log[i].Rejected?
  {
    seq(n, i requires 0 <= i < n => if b.ok then Acked(b.deliveries[i]) else Nacked(b.deliveries[i]))
  }

  function AllSettlements(batches: seq<Batch>): seq<Settlement> {
    if batches == [] then []
    else
      var b := batches[|batches| - 1];
      AllSettlements(batches[..|batches| - 1]) + SettlementsOf(b, |b.deliveries|)
  }

  /** The acknowledgements in a log, leaving out rejections. */
  function Handled(log: seq<Settlement>): seq<Settlement> {
    if log == [] then []
    else if log[|log| - 1].Rejected? then Handled(log[..|log| - 1])
    else Handled(log[..|log| - 1]) + [log[|log| - 1]]
  }

  function Rejections(log: seq<Settlement>): seq<Delivery> {
    if log == [] then []
    else if log[|log| - 1].Rejected? then Rejections(log[..|log| - 1]) + [log[|log| - 1].d]
    else Rejections(log[..|log| - 1])
  }

  function Settled(log: seq<Settlement>): (ds: seq<Delivery>)
    ensures |ds| == |log| && forall i :: 0 <= i < |log| ==> ds[i] == log[i].d
  {
    seq(|log|, i requires 0 <= i < |log| => log[i].d)
  }

  lemma LogSnoc(log: seq<Settlement>, s: Settlement)
    ensures Handled(log + [s]) == if s.Rejected? then Handled(log) else Handled(log) + [s]
    ensures Rejections(log + [s]) == if s.Rejected? then Rejections(log) + [s.d] else Rejections(log)
  {
  }

  lemma SettledAppend(a: seq<Settlement>, b: seq<Settlement>)
    ensures Settled(a + b) == Settled(a) + Settled(b)
    ensures multiset(Settled(a + b)) == multiset(Settled(a)) + multiset(Settled(b))
  {
  }

  lemma ReceivedSnoc(evs: seq<Event>, n: nat)
    requires n < |evs|
    ensures ReceivedIn(evs[..n + 1]) == if evs[n].Received? then ReceivedIn(evs[..n]) + [evs[n].d] else ReceivedIn(evs[..n])
  {
    assert evs[..n + 1][..n] == evs[..n];
  }

  /** One more element in a sequence and in one of the two parts it is split into. */
  lemma SplitStep(a: seq<Delivery>, p: seq<Delivery>, init: seq<Delivery>, d: Delivery, a': seq<Delivery>, p': seq<Delivery>, ds: seq<Delivery>)
    requires multiset(a) + multiset(p) == multiset(init) && ds == init + [d]
    requires (a' == a + [d] && p' == p) || (a' == a && p' == p + [d])
    ensures multiset(a') + multiset(p') == multiset(ds)
  {
  }

  lemma {:induction false} SplitReceived(ds: seq<Delivery>)
    ensures multiset(Decodable(ds)) + multiset(Poison(ds)) == multiset(ds)
  {
    if ds != [] {
      var init, d := ds[..|ds| - 1], ds[|ds| - 1];
      SplitReceived(init);
      SplitStep(Decodable(init), Poison(init), init, d, Decodable(ds), Poison(ds), ds);
    }
  }

  lemma SplitLogStep(h: seq<Settlement>, r: seq<Delivery>, init: seq<Settlement>, s: Settlement)
    requires multiset(Settled(h)) + multiset(r) == multiset(Settled(init))
    ensures multiset(Settled(h)) + multiset(r + [s.d]) == multiset(Settled(init + [s]))
    ensures multiset(Settled(h + [s])) + multiset(r) == multiset(Settled(init + [s]))
  {
    assert Settled([s]) == [s.d];
    SettledAppend(init, [s]);
    SettledAppend(h, [s]);
    assert multiset(r + [s.d]) == multiset(r) + multiset{s.d};
  }

  lemma {:induction false} SplitLog(log: seq<Settlement>)
    ensures multiset(Settled(Handled(log))) + multiset(Rejections(log)) == multiset(Settled(log))
  {
    if log != [] {
      var init, s := log[..|log| - 1], log[|log| - 1];
      SplitLog(init);
      SplitLogStep(Handled(init), Rejections(init), init, s);
      assert log == init + [s];
      assert Handled(log) == if s.Rejected? then Handled(init) else Handled(init) + [s];
    }
  }

  lemma {:induction false} SettledBatches(batches: seq<Batch>)
    ensures Settled(AllSettlements(batches)) == DeliveriesOf(batches)
  {
    if batches != [] {
      var init, b := batches[..|batches| - 1], batches[|batches| - 1];
      SettledBatches(init);
      SettledAppend(AllSettlements(init), SettlementsOf(b, |b.deliveries|));
      assert Settled(SettlementsOf(b, |b.deliveries|)) == b.deliveries;
    }
  }

  /** The messages are the decoded bodies of the deliveries, one for one. */
  ghost predicate Aligned(messages: seq<string>, deliveries: seq<Delivery>) {
    |messages| == |deliveries| && forall i :: 0 <= i < |messages| ==> deliveries[i].decoded == Some(messages[i])
  }

  /** Every batch is aligned, not empty and within the limit, and so is the buffer. */
  ghost predicate Shaped(limit: int, batches: seq<Batch>, messages: seq<string>, buffer: seq<Delivery>) {
    && Aligned(messages, buffer)
    && forall i :: 0 <= i < |batches| ==> Aligned(batches[i].messages, batches[i].deliveries) && 0 < |batches[i].messages| <= limit
  }

  /** The i-th handler call got the i-th answer. */
  ghost predicate Answered(batches: seq<Batch>, handler: nat -> bool) {
    forall i :: 0 <= i < |batches| ==> batches[i].ok == handler(i)
  }

  lemma ShapedFlush(limit: int, batches: seq<Batch>, messages: seq<string>, buffer: seq<Delivery>, handler: nat -> bool)
    requires Shaped(limit, batches, messages, buffer) && 0 < |messages| <= limit && Answered(batches, handler)
    ensures var more := batches + [Batch(messages, buffer, handler(|batches|))];
            Shaped(limit, more, [], []) && Answered(more, handler)
  {
  }

  lemma ShapedBuffer(limit: int, batches: seq<Batch>, messages: seq<string>, buffer: seq<Delivery>, d: Delivery)
    requires Shaped(limit, batches, messages, buffer) && d.decoded.Some?
    ensures Shaped(limit, batches, messages + [d.decoded.value], buffer + [d])
  {
  }

  /**
   The handler saw, and the buffer holds, the decodable deliveries in order; the log
   acknowledges exactly what the handler saw, as it answered, and rejects exactly the poison
   pills, each in order.
   */
  ghost predicate Accounted(received: seq<Delivery>, batches: seq<Batch>, buffer: seq<Delivery>, log: seq<Settlement>) {
    && DeliveriesOf(batches) + buffer == Decodable(received)
    && Handled(log) == AllSettlements(batches)
    && Rejections(log) == Poison(received)
  }

  lemma AccountedReject(received: seq<Delivery>, batches: seq<Batch>, buffer: seq<Delivery>, log: seq<Settlement>, d: Delivery)
    requires Accounted(received, batches, buffer, log) && d.decoded.None?
    ensures Accounted(received + [d], batches, buffer, log + [Rejected(d)])
  {
  }

  lemma AccountedBuffer(received: seq<Delivery>, batches: seq<Batch>, buffer: seq<Delivery>, log: seq<Settlement>, d: Delivery)
    requires Accounted(received, batches, buffer, log) && d.decoded.Some?
    ensures Accounted(received + [d], batches, buffer + [d], log)
  {
  }

  lemma AccountedFlush(received: seq<Delivery>, batches: seq<Batch>, buffer: seq<Delivery>, log: seq<Settlement>, log': seq<Settlement>, b: Batch)
    requires Accounted(received, batches, buffer, log) && b.deliveries == buffer
    requires Handled(log') == Handled(log) + SettlementsOf(b, |buffer|) && Rejections(log') == Rejections(log)
    ensures Accounted(received, batches + [b], [], log')
  {
  }

  /** Everything decodable received in the first n events is in the first k batches, and nothing else is. */
  ghost predicate CutAt(evs: seq<Event>, n: nat, batches: seq<Batch>, k: nat) {
    n <= |evs| && k <= |batches| && DeliveriesOf(batches[..k]) == Decodable(ReceivedIn(evs[..n]))
  }

  ghost predicate HasCut(evs: seq<Event>, n: nat, batches: seq<Batch>) {
    exists k :: CutAt(evs, n, batches, k)
  }

  /**
   Batch i was handed over at event ends[i]: at a delivery exactly if it is full, otherwise at a
   timer, the cancellation or the close.  All that had been received by then was handed over.
   */
  ghost predicate EndsAt(limit: int, evs: seq<Event>, batches: seq<Batch>, ends: seq<nat>, i: nat)
    requires i < |batches| == |ends|
  {
    && ends[i] < |evs| && (i > 0 ==> ends[i - 1] < ends[i])
    && (evs[ends[i]].Received? <==> |batches[i].messages| == limit)
    && CutAt(evs, ends[i] + 1, batches, i + 1)
  }

  ghost predicate AllEnd(limit: int, evs: seq<Event>, n: nat, batches: seq<Batch>, ends: seq<nat>) {
    |ends| == |batches| && forall i :: 0 <= i < |batches| ==> ends[i] < n && EndsAt(limit, evs, batches, ends, i)
  }

  ghost predicate AllCut(evs: seq<Event>, n: nat, batches: seq<Batch>) {
    n <= |evs| && forall j :: 0 <= j < n && !evs[j].Received? ==> HasCut(evs, j + 1, batches)
  }

  /** All batches among the first n events end so, and at no other event than a delivery is anything held back. */
  ghost predicate WellCut(limit: int, evs: seq<Event>, n: nat, batches: seq<Batch>, ends: seq<nat>) {
    AllEnd(limit, evs, n, batches, ends) && AllCut(evs, n, batches)
  }

  lemma CutStays(evs: seq<Event>, n: nat, batches: seq<Batch>, b: Batch, k: nat)
    requires CutAt(evs, n, batches, k)
    ensures CutAt(evs, n, batches + [b], k)
  {
    assert (batches + [b])[..k] == batches[..k];
  }

  /** An event at which nothing is handed over. */
  lemma WellCutKeep(limit: int, evs: seq<Event>, n: nat, batches: seq<Batch>, ends: seq<nat>)
    requires WellCut(limit, evs, n, batches, ends) && n < |evs|
    requires !evs[n].Received? ==> CutAt(evs, n + 1, batches, |batches|)
    ensures WellCut(limit, evs, n + 1, batches, ends)
  {
  }

  lemma EndsStay(limit: int, evs: seq<Event>, batches: seq<Batch>, ends: seq<nat>, i: nat, b: Batch, end: nat)
    requires i < |batches| == |ends| && EndsAt(limit, evs, batches, ends, i)
    ensures EndsAt(limit, evs, batches + [b], ends + [end], i)
  {
    CutStays(evs, ends[i] + 1, batches, b, i + 1);
  }

  lemma HasCutStays(evs: seq<Event>, n: nat, batches: seq<Batch>, b: Batch)
    requires HasCut(evs, n, batches)
    ensures HasCut(evs, n, batches + [b])
  {
    var k :| CutAt(evs, n, batches, k);
    CutStays(evs, n, batches, b, k);
  }

  lemma EndsFlush(limit: int, evs: seq<Event>, n: nat, batches: seq<Batch>, ends: seq<nat>, b: Batch)
    requires AllEnd(limit, evs, n, batches, ends) && EndsAt(limit, evs, batches + [b], ends + [n], |batches|)
    ensures AllEnd(limit, evs, n + 1, batches + [b], ends + [n])
  {
    forall i | 0 <= i < |batches|
      ensures EndsAt(limit, evs, batches + [b], ends + [n], i)
    {
      EndsStay(limit, evs, batches, ends, i, b, n);
    }
  }

  lemma CutsFlush(evs: seq<Event>, n: nat, batches: seq<Batch>, b: Batch)
    requires AllCut(evs, n, batches) && n < |evs| && HasCut(evs, n + 1, batches + [b])
    ensures AllCut(evs, n + 1, batches + [b])
  {
    forall j | 0 <= j < n && !evs[j].Received?
      ensures HasCut(evs, j + 1, batches + [b])
    {
      HasCutStays(evs, j + 1, batches, b);
    }
  }

  /** An event at which the buffer is handed over. */
  lemma WellCutFlush(limit: int, evs: seq<Event>, n: nat, batches: seq<Batch>, ends: seq<nat>, b: Batch)
    requires WellCut(limit, evs, n, batches, ends) && n < |evs|
    requires evs[n].Received? <==> |b.messages| == limit
    requires CutAt(evs, n + 1, batches + [b], |batches| + 1)
    ensures WellCut(limit, evs, n + 1, batches + [b], ends + [n])
  {
    assert |ends| > 0 ==> ends[|ends| - 1] < n;
    EndsFlush(limit, evs, n, batches, ends, b);
    CutsFlush(evs, n, batches, b);
  }

  /** Conservation: every delivery received is settled exactly once or still buffered, and nothing else is settled. */
  lemma Conservation(received: seq<Delivery>, batches: seq<Batch>, buffer: seq<Delivery>, log: seq<Settlement>)
    requires Accounted(received, batches, buffer, log)
    ensures multiset(Settled(log)) + multiset(buffer) == multiset(received)
  {
    SplitReceived(received);
    SplitLog(log);
    SettledBatches(batches);
    assert multiset(Decodable(received)) == multiset(DeliveriesOf(batches)) + multiset(buffer);
  }
}

/** StartBatchConsumer: accumulate decodable deliveries, flush on size, timer, shutdown or channel close. */
module BatchConsumer {
  import opened BatchValues

  class Consumer {
    const batchSize: int
    var batch: seq<string>
    var batchDeliveries: seq<Delivery>
    var log: seq<Settlement>     // settlements sent to the broker, in order
    var batches: seq<Batch>      // handler calls made, in order

    constructor (batchSize: int)
      ensures Valid([]) && batch == [] && batches == [] && log == [] && this.batchSize == batchSize
    {
      this.batchSize := batchSize;
      batch, batchDeliveries, log, batches := [], [], [], [];
    }

    /** The buffers stay shorter than this at the head of the loop. */
    function Limit(): int {
      if batchSize < 1 then 1 else batchSize
    }

    ghost predicate Valid(received: seq<Delivery>)
      reads this
    {
      Shaped(Limit(), batches, batch, batchDeliveries) && Accounted(received, batches, batchDeliveries, log)
    }

    /** Ack or nack every delivery of a batch in order. */
    method SettleAll(b: Batch)
      modifies `log
      ensures Handled(log) == old(Handled(log)) + SettlementsOf(b, |b.deliveries|) && Rejections(log) == old(Rejections(log))
    {
      for i := 0 to |b.deliveries|
        invariant Handled(log) == old(Handled(log)) + SettlementsOf(b, i) && Rejections(log) == old(Rejections(log))
      {
        var s := if b.ok then Acked(b.deliveries[i]) else Nacked(b.deliveries[i]);
        LogSnoc(log, s);
        assert old(Handled(log)) + SettlementsOf(b, i) + [s] == old(Handled(log)) + SettlementsOf(b, i + 1);
        log := log + [s];
      }
    }

    /** The flush closure: nothing on an empty buffer, otherwise one handler call, one settlement per delivery and fresh buffers. */
    method Flush(handler: nat -> bool, ghost received: seq<Delivery>) returns (ok: bool)
      requires Valid(received) && |batch| <= Limit() && Answered(batches, handler)
      modifies this
      ensures Valid(received) && Answered(batches, handler) && batch == [] && batchDeliveries == []
      ensures old(batch) == [] ==> ok && batches == old(batches)
      ensures old(batch) != [] ==> ok == handler(old(|batches|)) && batches == old(batches + [Batch(batch, batchDeliveries, handler(|batches|))])
    {
      if |batch| == 0 {
        return true;
      }
      ok := handler(|batches|);
      var b := Batch(batch, batchDeliveries, ok);
      ShapedFlush(Limit(), batches, batch, batchDeliveries, handler);
      SettleAll(b);
      AccountedFlush(received, batches, batchDeliveries, old(log), log, b);
      batches := batches + [b];
      batch, batchDeliveries := [], [];
    }

    /** One delivery: reject a poison pill, otherwise buffer it. */
    method Accept(d: Delivery, ghost received: seq<Delivery>)
      requires Valid(received)
      modifies `batch, `batchDeliveries, `log
      ensures Valid(received + [d])
      ensures |batch| == old(|batch|) + if d.decoded.Some? then 1 else 0
    {
      if d.decoded.None? {
        AccountedReject(received, batches, batchDeliveries, log, d);
        log := log + [Rejected(d)];
      } else {
        AccountedBuffer(received, batches, batchDeliveries, log, d);
        ShapedBuffer(Limit(), batches, batch, batchDeliveries, d);
        batch := batch + [d.decoded.value];
        batchDeliveries := batchDeliveries + [d];
      }
    }

    /** The event hands the buffer over: it fills it, or it is not a delivery and finds something. */
    ghost predicate HandsOver(e: Event)
      reads this
    {
      if e.Received? then e.d.decoded.Some? && |batch| + 1 >= batchSize else batch != []
    }

    /** One turn of the select, and how the loop goes on. */
    method Turn(e: Event, handler: nat -> bool, ghost received: seq<Delivery>) returns (exit: Exit)
      requires Valid(received) && |batch| < Limit() && Answered(batches, handler)
      modifies this
      ensures Valid(if e.Received? then received + [e.d] else received) && Answered(batches, handler)
      ensures |batch| < Limit()
      ensures exit == if e.ContextDone? then Cancelled else if e.ChannelClosed? then DeliveriesClosed else Running
      ensures !e.Received? ==> batch == [] && batchDeliveries == []
      ensures !old(HandsOver(e)) ==> batches == old(batches)
      ensures old(HandsOver(e)) ==>
                && batchDeliveries == [] && |batches| == old(|batches|) + 1 && batches[..old(|batches|)] == old(batches)
                && |batches[old(|batches|)].messages| == old(|batch|) + if e.Received? then 1 else 0
    {
      var ok;
      if e.Received? {
        Accept(e.d, received);
        if e.d.decoded.Some? && |batch| >= batchSize {
          ok := Flush(handler, received + [e.d]);
        }
      } else {
        ok := Flush(handler, received);
      }
      exit := if e.ContextDone? then Cancelled else if e.ChannelClosed? then DeliveriesClosed else Running;
    }

    /** One turn of the loop, seen among all its events. */
    method TurnAt(evs: seq<Event>, n: nat, handler: nat -> bool, ghost ends: seq<nat>) returns (exit: Exit, ghost ends': seq<nat>)
      requires n < |evs| && Valid(ReceivedIn(evs[..n])) && |batch| < Limit() && Answered(batches, handler)
      requires WellCut(Limit(), evs, n, batches, ends)
      modifies this
      ensures Valid(ReceivedIn(evs[..n + 1])) && |batch| < Limit() && Answered(batches, handler)
      ensures WellCut(Limit(), evs, n + 1, batches, ends')
      ensures exit == if evs[n].ContextDone? then Cancelled else if evs[n].ChannelClosed? then DeliveriesClosed else Running
      ensures !evs[n].Received? ==> batch == [] && batchDeliveries == []
    {
      ReceivedSnoc(evs, n);
      exit := Turn(evs[n], handler, ReceivedIn(evs[..n]));
      ends' := ends;
      assert batches[..|batches|] == batches;
      if old(HandsOver(evs[n])) {
        ends' := ends + [n];
        ghost var b := batches[|batches| - 1];
        assert batches == old(batches) + [b];
        WellCutFlush(Limit(), evs, n, old(batches), ends, b);
      } else {
        WellCutKeep(Limit(), evs, n, batches, ends);
      }
    }

    /**
     The loop over any sequence of events; handler answers for its i-th call.  At the loop head
     the buffers are aligned and below the limit; at every exit they are empty.  A batch is
     handed over exactly when it is full or when a timer, cancellation or close ends it.
     */
    method Run(evs: seq<Event>, handler: nat -> bool) returns (exit: Exit, n: nat, ghost ends: seq<nat>)
      requires Valid([]) && batch == [] && batches == []
      modifies this
      ensures n <= |evs| && Valid(ReceivedIn(evs[..n]))
      ensures multiset(Settled(log)) + multiset(batchDeliveries) == multiset(ReceivedIn(evs[..n]))
      ensures WellCut(Limit(), evs, n, batches, ends)
      ensures exit.Running? ==> n == |evs| && |batch| < Limit()
      ensures !exit.Running? ==> batch == [] && batchDeliveries == []
      ensures exit.Cancelled? <==> n > 0 && evs[n - 1].ContextDone?
      ensures exit.DeliveriesClosed? <==> n > 0 && evs[n - 1].ChannelClosed?
      ensures Answered(batches, handler)
    {
      exit, n, ends := Running, 0, [];
      while n < |evs| && exit.Running?
        invariant n <= |evs| && Valid(ReceivedIn(evs[..n])) && |batch| < Limit() && Answered(batches, handler)
        invariant WellCut(Limit(), evs, n, batches, ends)
        invariant !exit.Running? ==> batch == [] && batchDeliveries == []
        invariant exit.Cancelled? <==> n > 0 && evs[n - 1].ContextDone?
        invariant exit.DeliveriesClosed? <==> n > 0 && evs[n - 1].ChannelClosed?
        decreases |evs| - n
      {
        exit, ends := TurnAt(evs, n, handler, ends);
        n := n + 1;
      }
      Conservation(ReceivedIn(evs[..n]), batches, batchDeliveries, log);
    }
  }
}
