/** consumer.Start: poll, retry each record, dead-letter it if it keeps failing, commit it. */
module KafkaConsumer {
  import opened Wrappers

  datatype Record = Record(topic: string, partition: int, offset: int, value: string)

  /** One poll: the client is closed, or a fetch that may report errors. */
  datatype Fetch = ClientClosed | Fetched(errors: bool, records: seq<Record>)

  /**
   The world the loop runs in, tick by tick: whether the context is done, whether a backoff is
   cut short by it, whether a handler call succeeds and whether a DLQ send does.
   */
  datatype World = World(done: nat -> bool, interrupted: nat -> bool, handles: nat -> bool, sends: nat -> bool)

  /** Cancellation is sticky, and a backoff is cut short only by it. */
  ghost predicate Sane(w: World) {
    && (forall i, j :: i <= j && w.done(i) ==> w.done(j))
    && (forall i :: w.interrupted(i) ==> w.done(i))
  }

  datatype Options = Options(maxRetries: int, retryBackoff: int, hasDlq: bool)

  /** A record that reached CommitRecords: the ticks of its handler calls, the backoffs requested, the tick of its DLQ send if any. */
  datatype Commit = Commit(record: Record, calls: seq<nat>, waits: seq<int>, dlq: Option<nat>)

  datatype End = ContextEnded | ClientEnded | NoMoreFetches

  // ---------------------------------------------------------------------------------------
  // Options

  /** Index i holds the last option that sets a field, or none does and the default stands. */
  ghost predicate LastSet(values: seq<int>, default: int, v: int) {
    || (v == default && forall i :: 0 <= i < |values| ==> values[i] <= 0)
    || exists i :: 0 <= i < |values| && v == values[i] > 0 && forall j :: i < j < |values| ==> values[j] <= 0
  }

  ghost function Retries(opts: seq<Options>): seq<int> {
    seq(|opts|, i requires 0 <= i < |opts| => opts[i].maxRetries)
  }

  ghost function Backoffs(opts: seq<Options>): seq<int> {
    seq(|opts|, i requires 0 <= i < |opts| => opts[i].retryBackoff)
  }

  /** The last positive setting wins; the DLQ is that of the last option, set or not. */
  method NewConsumer(opts: seq<Options>) returns (o: Options)
    ensures LastSet(Retries(opts), 3, o.maxRetries) && o.maxRetries > 0
    ensures LastSet(Backoffs(opts), 100, o.retryBackoff) && o.retryBackoff > 0
    ensures o.hasDlq <==> opts != [] && opts[|opts| - 1].hasDlq
  {
    o := Options(3, 100, false);
    for i := 0 to |opts|
      invariant o.maxRetries > 0 && o.retryBackoff > 0
      invariant LastSet(Retries(opts[..i]), 3, o.maxRetries) && LastSet(Backoffs(opts[..i]), 100, o.retryBackoff)
      invariant o.hasDlq <==> i > 0 && opts[i - 1].hasDlq
    {
      assert Retries(opts[..i + 1]) == Retries(opts[..i]) + [opts[i].maxRetries];
      assert Backoffs(opts[..i + 1]) == Backoffs(opts[..i]) + [opts[i].retryBackoff];
      LastSetSnoc(Retries(opts[..i]), 3, o.maxRetries, opts[i].maxRetries);
      LastSetSnoc(Backoffs(opts[..i]), 100, o.retryBackoff, opts[i].retryBackoff);
      if opts[i].maxRetries > 0 {
        o := o.(maxRetries := opts[i].maxRetries);
      }
      if opts[i].retryBackoff > 0 {
        o := o.(retryBackoff := opts[i].retryBackoff);
      }
      o := o.(hasDlq := opts[i].hasDlq);
    }
    assert opts[..|opts|] == opts;
  }

  lemma LastSetSnoc(values: seq<int>, default: int, v: int, last: int)
    requires LastSet(values, default, v)
    ensures LastSet(values + [last], default, if last > 0 then last else v)
  {
    var more := values + [last];
    if last > 0 {
      assert more[|values|] == last;
    } else if exists i :: 0 <= i < |values| && v == values[i] > 0 && forall j :: i < j < |values| ==> values[j] <= 0 {
      var i :| 0 <= i < |values| && v == values[i] > 0 && forall j :: i < j < |values| ==> values[j] <= 0;
      assert more[i] == v;
    }
  }

  // ---------------------------------------------------------------------------------------
  // One record

  /** The backoff requested before attempt k is k times the base. */
  function Waits(base: int, attempts: nat): seq<int> {
    if attempts <= 1 then [] else Waits(base, attempts - 1) + [(attempts - 1) * base]
  }

  ghost function Sum(xs: seq<int>): int {
    if xs == [] then 0 else Sum(xs[..|xs| - 1]) + xs[|xs| - 1]
  }

  /** 1 + ... + (n - 1) */
  ghost function Triangle(n: nat): nat {
    if n <= 1 then 0 else Triangle(n - 1) + (n - 1)
  }

  lemma {:induction false} TriangleFormula(n: nat)
    ensures 2 * Triangle(n + 1) == n * (n + 1)
  {
    if n > 0 {
      TriangleFormula(n - 1);
    }
  }

  lemma {:induction false} TotalWait(base: int, attempts: nat)
    ensures Sum(Waits(base, attempts)) == base * Triangle(attempts)
  {
    if attempts > 1 {
      TotalWait(base, attempts - 1);
      assert Waits(base, attempts)[..|Waits(base, attempts)| - 1] == Waits(base, attempts - 1);
      Distribute(base, Triangle(attempts - 1), attempts - 1);
    }
  }

  lemma Distribute(base: int, a: int, b: int)
    ensures base * (a + b) == base * a + b * base
  {
  }

  /** The backoff that ended just before the tick was not cut short. */
  ghost predicate Uninterrupted(w: World, tick: nat) {
    tick > 0 && !w.interrupted(tick - 1)
  }

  /**
   The handler calls of a committed record happened one after the other, with no backoff
   between them cut short, and all but the last failed.  The last succeeded, or it was attempt maxRetries + 1 and the record was offered to
   the DLQ if there is one.
   */
  ghost predicate Fair(o: Options, w: World, c: Commit) {
    && 0 < |c.calls| <= o.maxRetries + 1
    && (forall i, j :: 0 <= i < j < |c.calls| ==> c.calls[i] < c.calls[j])
    && (forall i :: 0 <= i < |c.calls| - 1 ==> !w.handles(c.calls[i]))
    && (forall i :: 0 < i < |c.calls| ==> Uninterrupted(w, c.calls[i]))
    && c.waits == Waits(o.retryBackoff, |c.calls|)
    && (if Handled(w, c) then c.dlq.None?
        else |c.calls| == o.maxRetries + 1 && (c.dlq.Some? <==> o.hasDlq))
  }

  ghost predicate Handled(w: World, c: Commit)
    requires |c.calls| > 0
  {
    w.handles(c.calls[|c.calls| - 1])
  }

  ghost predicate InDlq(w: World, c: Commit) {
    c.dlq.Some? && w.sends(c.dlq.value)
  }

  /** All MaxRetries + 1 attempts failed, and there is no DLQ or its one send failed. */
  ghost predicate FailedForGood(o: Options, w: World, c: Commit) {
    && |c.calls| == o.maxRetries + 1 && (forall i :: 0 <= i < |c.calls| ==> !w.handles(c.calls[i]))
    && (o.hasDlq ==> c.dlq.Some? && !w.sends(c.dlq.value))
  }

  /** A committed record was neither handled nor put into the DLQ exactly if it failed for good. */
  lemma FailedForGoodIff(o: Options, w: World, c: Commit)
    requires Fair(o, w, c)
    ensures FailedForGood(o, w, c) <==> !Handled(w, c) && !InDlq(w, c)
  {
    if !Handled(w, c) && !InDlq(w, c) {
      assert forall i :: 0 <= i < |c.calls| ==> i < |c.calls| - 1 || c.calls[i] == c.calls[|c.calls| - 1];
    }
  }

  /** A committed record that was never handled requested RetryBackoff * MaxRetries * (MaxRetries + 1) / 2 of backoff. */
  lemma FailedRecordBackoff(o: Options, w: World, c: Commit)
    requires o.maxRetries > 0 && Fair(o, w, c) && !Handled(w, c)
    ensures Sum(c.waits) == o.retryBackoff * (o.maxRetries * (o.maxRetries + 1) / 2)
  {
    TotalWait(o.retryBackoff, o.maxRetries + 1);
    TriangleFormula(o.maxRetries);
  }

  /** The tick of the k-th handler call of a record begun at start, and that of the backoff before it. */
  function CallAt(start: nat, k: nat): nat {
    start + 1 + 2 * k
  }

  function BackoffAt(start: nat, k: nat): nat {
    start + 2 * k
  }

  /** The first k calls of the record failed, and no backoff between them was cut short. */
  ghost predicate FailedSoFar(w: World, start: nat, k: nat) {
    && (forall j :: 0 <= j < k ==> !w.handles(CallAt(start, j)))
    && (forall j :: 0 < j < k ==> !w.interrupted(BackoffAt(start, j)))
  }

  /** The backoff before call k, one of the retries, is cut short. */
  ghost predicate CutShort(o: Options, w: World, start: nat, k: nat) {
    0 < k <= o.maxRetries && FailedSoFar(w, start, k) && w.interrupted(BackoffAt(start, k))
  }

  /** The calls followed one another without a backoff cut short, all but the last in vain. */
  ghost predicate Consecutive(w: World, start: nat, calls: seq<nat>) {
    && |calls| > 0 && (forall k :: 0 <= k < |calls| ==> calls[k] == CallAt(start, k))
    && FailedSoFar(w, start, |calls| - 1) && (|calls| > 1 ==> !w.interrupted(BackoffAt(start, |calls| - 1)))
  }

  lemma Spaced(w: World, start: nat, calls: seq<nat>)
    requires Consecutive(w, start, calls)
    ensures forall i, j :: 0 <= i < j < |calls| ==> calls[i] < calls[j]
    ensures forall i :: 0 <= i < |calls| - 1 ==> !w.handles(calls[i])
    ensures forall i :: 0 < i < |calls| ==> Uninterrupted(w, calls[i])
  {
    assert forall i :: 0 < i < |calls| ==> calls[i] - 1 == BackoffAt(start, i);
  }

  /** A record whose call a succeeded, or was the last one, met no backoff cut short. */
  lemma NeverCutShort(o: Options, w: World, start: nat, a: nat)
    requires FailedSoFar(w, start, a) && (a > 0 ==> !w.interrupted(BackoffAt(start, a)))
    requires w.handles(CallAt(start, a)) || a == o.maxRetries
    ensures forall k :: !CutShort(o, w, start, k)
  {
  }

  /**
   The callback of EachRecord.  The record stays uncommitted exactly if the context is done at
   the start or a backoff is cut short; otherwise its calls follow one another until one
   succeeds or all MaxRetries + 1 have failed.
   */
  method ProcessRecord(o: Options, r: Record, w: World, start: nat) returns (commit: Option<Commit>, clock: nat)
    requires o.maxRetries > 0 && Sane(w)
    ensures clock >= start
    ensures commit.None? <==> w.done(start) || exists k :: CutShort(o, w, start, k)
    ensures commit.Some? ==> Consecutive(w, start, commit.value.calls)
    ensures commit.Some? ==> commit.value.record == r && Fair(o, w, commit.value)
    ensures commit.None? ==> w.done(clock)
    ensures w.done(start) ==> commit.None?
  {
    clock := start;
    if w.done(clock) {
      return None, clock;
    }
    var calls, waits, failed, attempt := [], [], false, 0;
    while attempt <= o.maxRetries
      invariant 0 <= attempt <= o.maxRetries + 1 && failed == (attempt > 0)
      invariant clock == if attempt == 0 then start else CallAt(start, attempt - 1)
      invariant |calls| == attempt && forall i :: 0 <= i < attempt ==> calls[i] == CallAt(start, i)
      invariant FailedSoFar(w, start, attempt) && waits == Waits(o.retryBackoff, attempt)
    {
      if attempt > 0 {
        clock := clock + 1;
        if w.interrupted(clock) {
          assert CutShort(o, w, start, attempt);
          return None, clock;
        }
        waits := waits + [attempt * o.retryBackoff];
      }
      if w.handles(CallAt(start, attempt)) || attempt == o.maxRetries {
        NeverCutShort(o, w, start, attempt);
      }
      clock := clock + 1;
      calls := calls + [clock];
      failed := !w.handles(clock);
      if !failed {
        break;
      }
      attempt := attempt + 1;
    }
    Spaced(w, start, calls);
    var dlq: Option<nat> := None;
    if failed && o.hasDlq {
      clock := clock + 1;
      dlq := Some(clock);
    }
    commit := Some(Commit(r, calls, waits, dlq));
  }

  // ---------------------------------------------------------------------------------------
  // The loop

  ghost function Records(log: seq<Commit>): (rs: seq<Record>)
    ensures |rs| == |log|
  {
    seq(|log|, i requires 0 <= i < |log| => log[i].record)
  }

  /** The records of the fetches, in the order they were fetched. */
  ghost function AllFetched(fs: seq<Fetch>): seq<Record> {
    if fs == [] then []
    else AllFetched(fs[..|fs| - 1]) + if fs[|fs| - 1].Fetched? then fs[|fs| - 1].records else []
  }

  /** The records of the fetches that report no error: the others are skipped as a whole. */
  ghost function Offered(fs: seq<Fetch>): seq<Record> {
    if fs == [] then []
    else
      var f := fs[|fs| - 1];
      Offered(fs[..|fs| - 1]) + if f.Fetched? && !f.errors then f.records else []
  }

  lemma OfferedNext(fs: seq<Fetch>, n: nat)
    requires n < |fs|
    ensures Offered(fs[..n + 1]) == if fs[n].Fetched? && !fs[n].errors then Offered(fs[..n]) + fs[n].records else Offered(fs[..n])
  {
    assert fs[..n + 1][..n] == fs[..n];
  }

  ghost predicate NoRecordsWithErrors(fs: seq<Fetch>) {
    forall i :: 0 <= i < |fs| && fs[i].Fetched? && fs[i].errors ==> fs[i].records == []
  }

  /** Nothing fetched is skipped exactly when no fetch that reports an error carries records. */
  lemma {:induction false} NothingSkippedIff(fs: seq<Fetch>)
    ensures |Offered(fs)| <= |AllFetched(fs)|
    ensures Offered(fs) == AllFetched(fs) <==> NoRecordsWithErrors(fs)
  {
    if fs != [] {
      var init, f := fs[..|fs| - 1], fs[|fs| - 1];
      NothingSkippedIff(init);
      assert NoRecordsWithErrors(fs) <==> NoRecordsWithErrors(init) && (f.Fetched? && f.errors ==> f.records == []);
      if Offered(fs) == AllFetched(fs) {
        var offered := if f.Fetched? && !f.errors then f.records else [];
        var fetched := if f.Fetched? then f.records else [];
        assert |offered| <= |fetched| && |Offered(init)| + |offered| == |AllFetched(init)| + |fetched|;
        assert Offered(init) == Offered(fs)[..|Offered(init)|] && AllFetched(init) == AllFetched(fs)[..|AllFetched(init)|];
      }
    }
  }

  /** Commits so far are a prefix of what was offered, all of it unless the context is done. */
  ghost predicate InOrder(o: Options, w: World, clock: nat, log: seq<Commit>, offered: seq<Record>) {
    && Records(log) <= offered
    && (Records(log) == offered || w.done(clock))
    && forall i :: 0 <= i < |log| ==> Fair(o, w, log[i])
  }

  method ProcessRecords(o: Options, rs: seq<Record>, w: World, start: nat, log0: seq<Commit>, ghost offered: seq<Record>)
    returns (log: seq<Commit>, clock: nat)
    requires o.maxRetries > 0 && Sane(w) && InOrder(o, w, start, log0, offered)
    ensures clock >= start && InOrder(o, w, clock, log, offered + rs)
  {
    log, clock := log0, start;
    assert offered + rs[..0] == offered;
    for i := 0 to |rs|
      invariant clock >= start && InOrder(o, w, clock, log, offered + rs[..i])
    {
      var commit: Option<Commit>;
      ghost var before := clock;
      commit, clock := ProcessRecord(o, rs[i], w, clock);
      assert offered + rs[..i + 1] == offered + rs[..i] + [rs[i]];
      if commit.Some? {
        assert Records(log + [commit.value]) == Records(log) + [rs[i]];
        log := log + [commit.value];
      }
    }
    assert rs[..|rs|] == rs;
  }

  /** Each poll happened while the context was not done, one after the other. */
  ghost predicate PolledInTime(w: World, polls: seq<nat>, clock: nat) {
    && (forall i :: 0 <= i < |polls| ==> !w.done(polls[i]) && polls[i] < clock)
    && (forall i, j :: 0 <= i < j < |polls| ==> polls[i] < polls[j])
  }

  lemma PolledOnce(w: World, polls: seq<nat>, clock: nat)
    requires PolledInTime(w, polls, clock) && !w.done(clock)
    ensures PolledInTime(w, polls + [clock], clock + 1)
  {
  }

  lemma PolledBefore(w: World, polls: seq<nat>, clock: nat)
    requires PolledInTime(w, polls, clock)
    ensures forall later: nat :: later >= clock ==> PolledInTime(w, polls, later)
  {
  }

  /** After polling the first n fetches at the given ticks. */
  ghost predicate Polled(o: Options, fetches: seq<Fetch>, w: World, n: nat, polls: seq<nat>, clock: nat, log: seq<Commit>) {
    n <= |fetches| && |polls| == n && PolledInTime(w, polls, clock) && InOrder(o, w, clock, log, Offered(fetches[..n]))
  }

  /** One poll that is not the last: a fetch with errors is skipped as a whole. */
  method PollNext(o: Options, fetches: seq<Fetch>, w: World, n: nat, start: nat, log0: seq<Commit>, ghost polls: seq<nat>)
    returns (log: seq<Commit>, clock: nat)
    requires o.maxRetries > 0 && Sane(w) && Polled(o, fetches, w, n, polls, start, log0)
    requires n < |fetches| && !w.done(start) && fetches[n].Fetched?
    ensures Polled(o, fetches, w, n + 1, polls + [start], clock, log)
  {
    OfferedNext(fetches, n);
    PolledOnce(w, polls, start);
    PolledBefore(w, polls + [start], start + 1);
    log, clock := log0, start + 1;
    if !fetches[n].errors {
      log, clock := ProcessRecords(o, fetches[n].records, w, clock, log, Offered(fetches[..n]));
    }
  }

  /** The poll that finds the client closed. */
  lemma PollLast(o: Options, fetches: seq<Fetch>, w: World, n: nat, start: nat, log: seq<Commit>, polls: seq<nat>)
    requires Polled(o, fetches, w, n, polls, start, log) && n < |fetches| && !w.done(start) && fetches[n].ClientClosed?
    requires Sane(w)
    ensures Polled(o, fetches, w, n + 1, polls + [start], start + 1, log)
  {
    OfferedNext(fetches, n);
    PolledOnce(w, polls, start);
  }

  /**
   In every run the records that reach CommitRecords are a prefix of the records offered, each
   handled at last or failed at every attempt; short of cancellation, all of them do.  The loop
   polls only while the context is not done.
   */
  method Start(o: Options, fetches: seq<Fetch>, w: World) returns (log: seq<Commit>, end: End, n: nat, clock: nat, ghost polls: seq<nat>)
    requires o.maxRetries > 0 && Sane(w)
    ensures n <= |fetches| && InOrder(o, w, clock, log, Offered(fetches[..n]))
    ensures NoRecordsWithErrors(fetches[..n]) ==> Records(log) <= AllFetched(fetches[..n])
    ensures |polls| == n && PolledInTime(w, polls, clock)
    ensures end.ContextEnded? ==> w.done(clock) && n < |fetches|
    ensures end.ClientEnded? <==> n > 0 && fetches[n - 1].ClientClosed?
    ensures end.NoMoreFetches? ==> n == |fetches|
  {
    log, clock, n, end, polls := [], 0, 0, NoMoreFetches, [];
    while n < |fetches|
      invariant Polled(o, fetches, w, n, polls, clock, log)
      invariant n > 0 ==> !fetches[n - 1].ClientClosed?
    {
      if w.done(clock) {
        end := ContextEnded;
        break;
      }
      ghost var tick := clock;
      if fetches[n].ClientClosed? {
        PollLast(o, fetches, w, n, clock, log, polls);
        n, clock, polls, end := n + 1, clock + 1, polls + [tick], ClientEnded;
        break;
      }
      log, clock := PollNext(o, fetches, w, n, clock, log, polls);
      n, polls := n + 1, polls + [tick];
    }
    NothingSkippedIff(fetches[..n]);
  }

  // ---------------------------------------------------------------------------------------
  // Which records are lost

  predicate SamePartition(a: Record, b: Record) {
    a.topic == b.topic && a.partition == b.partition
  }

  /** Committing c also commits r: a commit is an offset of the partition. */
  predicate Covers(c: Record, r: Record) {
    SamePartition(c, r) && c.offset >= r.offset
  }

  ghost predicate Covered(log: seq<Commit>, r: Record) {
    exists i :: 0 <= i < |log| && Covers(log[i].record, r)
  }

  /** The entry takes care of r: it is r's, and r was handled or reached the DLQ. */
  ghost predicate Cares(w: World, c: Commit, r: Record) {
    c.record == r && |c.calls| > 0 && (Handled(w, c) || InDlq(w, c))
  }

  /** Committed past, so never delivered again, yet neither handled nor in the DLQ. */
  ghost predicate Gone(w: World, log: seq<Commit>, r: Record) {
    Covered(log, r) && forall i :: 0 <= i < |log| ==> !Cares(w, log[i], r)
  }

  /** Offsets grow along each partition. */
  ghost predicate Ascending(rs: seq<Record>) {
    forall i, j :: 0 <= i < j < |rs| && SamePartition(rs[i], rs[j]) ==> rs[i].offset < rs[j].offset
  }

  ghost predicate Before(a: seq<Record>, b: seq<Record>) {
    forall x, y :: x in a && y in b && SamePartition(x, y) ==> x.offset < y.offset
  }

  lemma AscendingParts(a: seq<Record>, b: seq<Record>)
    ensures Ascending(a + b) <==> Ascending(a) && Ascending(b) && Before(a, b)
  {
    var both := a + b;
    assert forall i :: 0 <= i < |a| ==> both[i] == a[i];
    assert forall j :: 0 <= j < |b| ==> both[|a| + j] == b[j];
    if Ascending(both) {
      forall i, j | 0 <= i < j < |b| && SamePartition(b[i], b[j])
        ensures b[i].offset < b[j].offset
      {
        assert both[|a| + i] == b[i] && both[|a| + j] == b[j];
      }
    }
    if Ascending(a) && Ascending(b) && Before(a, b) {
      forall i, j | 0 <= i < j < |both| && SamePartition(both[i], both[j])
        ensures both[i].offset < both[j].offset
      {
        assert j < |a| || both[j] in b;
        assert i >= |a| || both[i] in a;
      }
    }
  }

  /** The record came in a fetch that reports an error. */
  ghost predicate InErrorFetch(fs: seq<Fetch>, r: Record) {
    exists k :: 0 <= k < |fs| && fs[k].Fetched? && fs[k].errors && r in fs[k].records
  }

  lemma {:induction false} OfferedAscends(fs: seq<Fetch>)
    requires Ascending(AllFetched(fs))
    ensures Ascending(Offered(fs)) && forall r :: r in Offered(fs) ==> r in AllFetched(fs)
  {
    if fs != [] {
      var init, f := fs[..|fs| - 1], fs[|fs| - 1];
      AscendingParts(AllFetched(init), if f.Fetched? then f.records else []);
      OfferedAscends(init);
      AscendingParts(Offered(init), if f.Fetched? && !f.errors then f.records else []);
    }
  }

  lemma InErrorFetchSnoc(init: seq<Fetch>, f: Fetch, r: Record)
    ensures InErrorFetch(init + [f], r) <==> InErrorFetch(init, r) || (f.Fetched? && f.errors && r in f.records)
  {
    var fs := init + [f];
    assert forall k :: 0 <= k < |init| ==> fs[k] == init[k];
    assert fs[|init|] == f;
  }

  /** Of what was fetched, exactly the records of fetches that report an error are not offered. */
  lemma {:induction false} SkippedIff(fs: seq<Fetch>, r: Record)
    requires Ascending(AllFetched(fs))
    ensures r in AllFetched(fs) <==> r in Offered(fs) || InErrorFetch(fs, r)
    ensures !(r in Offered(fs) && InErrorFetch(fs, r))
  {
    if fs != [] {
      var init, f := fs[..|fs| - 1], fs[|fs| - 1];
      var fetched := if f.Fetched? then f.records else [];
      AscendingParts(AllFetched(init), fetched);
      SkippedIff(init, r);
      assert fs == init + [f];
      InErrorFetchSnoc(init, f, r);
      assert SamePartition(r, r);
      assert !(r in AllFetched(init) && r in fetched);
    }
  }

  /** A commit covers only records that were offered before it, or at it, or were never offered. */
  lemma CoveredWasCommitted(o: Options, w: World, clock: nat, log: seq<Commit>, offered: seq<Record>, r: Record)
    requires InOrder(o, w, clock, log, offered) && Ascending(offered) && r in offered && Covered(log, r)
    ensures exists i :: 0 <= i < |log| && log[i].record == r
  {
    var j :| 0 <= j < |offered| && offered[j] == r;
    var i :| 0 <= i < |log| && Covers(log[i].record, r);
    assert Records(log)[i] == offered[i] && SamePartition(offered[i], offered[j]);
    assert j < |log|;
    assert Records(log)[j] == offered[j];
  }

  lemma CommittedOnce(o: Options, w: World, clock: nat, log: seq<Commit>, offered: seq<Record>, i: nat, j: nat)
    requires InOrder(o, w, clock, log, offered) && Ascending(offered)
    requires i < |log| && j < |log| && log[i].record == log[j].record
    ensures i == j
  {
    assert Records(log)[i] == offered[i] && Records(log)[j] == offered[j];
    assert SamePartition(offered[i], offered[j]);
  }

  ghost predicate CommittedInVain(o: Options, w: World, log: seq<Commit>, r: Record) {
    exists i :: 0 <= i < |log| && log[i].record == r && FailedForGood(o, w, log[i])
  }

  lemma GoneIfInVain(o: Options, w: World, clock: nat, log: seq<Commit>, offered: seq<Record>, r: Record)
    requires InOrder(o, w, clock, log, offered) && Ascending(offered) && r in offered
    ensures Gone(w, log, r) <==> CommittedInVain(o, w, log, r)
  {
    assert forall i :: 0 <= i < |log| && log[i].record == r ==> Covers(log[i].record, r);
    if Covered(log, r) {
      CoveredWasCommitted(o, w, clock, log, offered, r);
      var i :| 0 <= i < |log| && log[i].record == r;
      FailedForGoodIff(o, w, log[i]);
      forall j | 0 <= j < |log| && log[j].record == r
        ensures j == i
      {
        CommittedOnce(o, w, clock, log, offered, i, j);
      }
    }
  }

  /**
   In every run, a fetched record is lost exactly if it was committed after it failed for good,
   or it came in a fetch that reports an error and a later record of its partition was
   committed.
   */
  lemma FetchedRecordLostIff(o: Options, w: World, clock: nat, log: seq<Commit>, fs: seq<Fetch>, r: Record)
    requires InOrder(o, w, clock, log, Offered(fs)) && Ascending(AllFetched(fs)) && r in AllFetched(fs)
    ensures Gone(w, log, r) <==> CommittedInVain(o, w, log, r) || (InErrorFetch(fs, r) && Covered(log, r))
    ensures CommittedInVain(o, w, log, r) ==> !InErrorFetch(fs, r)
  {
    OfferedAscends(fs);
    SkippedIff(fs, r);
    if r in Offered(fs) {
      GoneIfInVain(o, w, clock, log, Offered(fs), r);
    } else {
      forall i | 0 <= i < |log|
        ensures log[i].record != r
      {
        assert Records(log)[i] == Offered(fs)[i];
      }
    }
  }

  /**
   In every run nothing fetched is lost exactly if no committed record failed for good and no
   record of a fetch that reports an error was committed past.
   */
  lemma NothingLostIff(o: Options, w: World, clock: nat, log: seq<Commit>, fs: seq<Fetch>)
    requires InOrder(o, w, clock, log, Offered(fs)) && Ascending(AllFetched(fs))
    ensures (forall r :: r in AllFetched(fs) ==> !Gone(w, log, r)) <==>
            && (forall i :: 0 <= i < |log| ==> !FailedForGood(o, w, log[i]))
            && (forall r :: InErrorFetch(fs, r) ==> !Covered(log, r))
  {
    OfferedAscends(fs);
    forall r
      ensures InErrorFetch(fs, r) ==> r in AllFetched(fs)
    {
      SkippedIff(fs, r);
    }
    forall r | r in AllFetched(fs)
      ensures Gone(w, log, r) <==> CommittedInVain(o, w, log, r) || (InErrorFetch(fs, r) && Covered(log, r))
    {
      FetchedRecordLostIff(o, w, clock, log, fs, r);
    }
    forall i | 0 <= i < |log|
      ensures log[i].record in AllFetched(fs)
      ensures FailedForGood(o, w, log[i]) ==> CommittedInVain(o, w, log, log[i].record)
    {
      assert Records(log)[i] == Offered(fs)[i];
    }
  }

  /** In every run in which no fetch with errors carries records, a DLQ that takes what it is sent, or a handler that never fails, loses nothing. */
  lemma WorkingDlqLosesNothing(o: Options, w: World, clock: nat, log: seq<Commit>, fs: seq<Fetch>, r: Record)
    requires InOrder(o, w, clock, log, Offered(fs)) && Ascending(AllFetched(fs)) && NoRecordsWithErrors(fs)
    requires (o.hasDlq && forall i :: w.sends(i)) || forall i :: w.handles(i)
    requires r in AllFetched(fs)
    ensures !Gone(w, log, r)
  {
    forall i | 0 <= i < |log|
      ensures !FailedForGood(o, w, log[i])
    {
      FailedForGoodIff(o, w, log[i]);
    }
    NothingLostIff(o, w, clock, log, fs);
  }

  /** While the handler fails and no DLQ takes anything, every record offered is committed and lost. */
  lemma OutageLosesEverything(o: Options, w: World, clock: nat, log: seq<Commit>, fs: seq<Fetch>, r: Record)
    requires InOrder(o, w, clock, log, Offered(fs)) && !w.done(clock) && r in Offered(fs)
    requires (forall i :: !w.handles(i)) && (o.hasDlq ==> forall i :: !w.sends(i))
    ensures Records(log) == Offered(fs) && Gone(w, log, r)
  {
    var i :| 0 <= i < |Offered(fs)| && Offered(fs)[i] == r;
    assert Records(log)[i] == r;
    assert Covers(log[i].record, r);
  }

  lemma OneSkippedOneOffered(skipped: Record, next: Record)
    ensures Offered([Fetched(true, [skipped]), Fetched(false, [next])]) == [next]
  {
    var fs := [Fetched(true, [skipped]), Fetched(false, [next])];
    assert fs[..1] == [Fetched(true, [skipped])];
    assert Offered(fs[..1]) == Offered(fs[..1][..0]) + [];
  }

  lemma PassedOver(w: World, log: seq<Commit>, skipped: Record, next: Record)
    requires Records(log) == [next] && SamePartition(skipped, next) && skipped.offset < next.offset
    requires |log[0].calls| > 0 && Handled(w, log[0])
    ensures Gone(w, log, skipped) && !Gone(w, log, next)
  {
    assert Records(log)[0] == log[0].record == next;
    assert Covers(log[0].record, skipped) && Cares(w, log[0], next);
  }

  /**
   A record in a fetch that reports an error is lost by the next commit of its partition, even
   if the handler and the DLQ never fail.
   */
  method SkippedThenPassed(o: Options, skipped: Record, next: Record, w: World) returns (log: seq<Commit>)
    requires o.maxRetries > 0 && Sane(w) && forall i :: !w.done(i) && w.handles(i) && w.sends(i)
    requires SamePartition(skipped, next) && skipped.offset < next.offset
    ensures |log| == 1 && log[0].record == next
    ensures Gone(w, log, skipped) && !Gone(w, log, next)
  {
    var fetches := [Fetched(true, [skipped]), Fetched(false, [next])];
    var end, n, clock;
    ghost var polls;
    log, end, n, clock, polls := Start(o, fetches, w);
    OneSkippedOneOffered(skipped, next);
    assert n == 2 && fetches[..n] == fetches;
    assert Fair(o, w, log[0]) && Records(log)[0] == next;
    PassedOver(w, log, skipped, next);
  }
}
