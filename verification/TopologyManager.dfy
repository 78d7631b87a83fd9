/** A growable slice over a backing array that truncation keeps and later appends overwrite. */
module GoSlice {
  class Slice<T(0)> {
    var buf: array<T>
    var len: nat

    ghost predicate Valid()
      reads this
    {
      len <= buf.Length
    }

    ghost function Contents(): seq<T>
      reads this, buf
      requires Valid()
    {
      buf[..len]
    }

    constructor ()
      ensures Valid() && Contents() == [] && fresh(buf)
    {
      buf, len := new T[0], 0;
    }

    method Append(x: T)
      requires Valid()
      modifies this, buf
      ensures Valid() && Contents() == old(Contents()) + [x]
      ensures buf == old(buf) || fresh(buf)
    {
      if len == buf.Length {
        var bigger := new T[2 * len + 1];
        for i := 0 to len
          invariant len == old(len) && buf == old(buf) && bigger[..i] == old(buf[..i]) && buf[..len] == old(buf[..len])
        {
          bigger[i] := buf[i];
        }
        buf := bigger;
      }
      buf[len] := x;
      len := len + 1;
    }

    /** s = s[:0] */
    method Truncate()
      modifies `len
      ensures Valid() && Contents() == [] && buf == old(buf)
    {
      len := 0;
    }

    /** make and copy */
    method Copy() returns (a: array<T>)
      requires Valid()
      ensures fresh(a) && a[..] == Contents()
    {
      a := new T[len];
      for i := 0 to len
        invariant a[..i] == buf[..i]
      {
        a[i] := buf[i];
      }
    }
  }
}

/** The declaring client: its topology cache and the broker it talks to. */
module TopologyManager {
  import opened BrokerTopology
  import opened GoSlice

  lemma CacheSnoc(qt: QueueType, ds: seq<Decl>, d: Decl)
    ensures Exchanges(ds + [d]) == if d.OfExchange? then Exchanges(ds) + [d.e] else Exchanges(ds)
    ensures Queues(qt, ds + [d]) == if d.OfQueue? then Queues(qt, ds) + [Cached(qt, d.q)] else Queues(qt, ds)
    ensures Bindings(ds + [d]) == if d.OfBinding? then Bindings(ds) + [d.b] else Bindings(ds)
  {
  }

  lemma OneMore(before: seq<Decl>, ds: seq<Decl>, n: nat)
    requires n < |ds|
    ensures ds[..n + 1] == ds[..n] + [ds[n]] && before + ds[..n + 1] == before + ds[..n] + [ds[n]]
  {
  }

  // ---------------------------------------------------------------------------------------
  // A cache replayed in its own order is cached in that order

  function Kind(d: Decl): nat {
    match d
    case OfExchange(_) => 0
    case OfQueue(_) => 1
    case OfBinding(_) => 2
  }

  /** Exchanges before queues before bindings. */
  ghost predicate Ordered(ds: seq<Decl>) {
    forall i, j :: 0 <= i < j < |ds| ==> Kind(ds[i]) <= Kind(ds[j])
  }

  /** Every queue already carries what DeclareQueue would write into its arguments. */
  ghost predicate Settled(qt: QueueType, ds: seq<Decl>) {
    forall i :: 0 <= i < |ds| && ds[i].OfQueue? ==> Cached(qt, ds[i].q) == ds[i].q
  }

  lemma {:induction false} NoneAbove(qt: QueueType, ds: seq<Decl>, kind: nat)
    requires forall i :: 0 <= i < |ds| ==> Kind(ds[i]) <= kind
    ensures kind < 1 ==> Queues(qt, ds) == []
    ensures kind < 2 ==> Bindings(ds) == []
  {
    if ds != [] {
      NoneAbove(qt, ds[..|ds| - 1], kind);
    }
  }

  lemma FlattenSnoc(es: seq<ExchangeConfig>, qs: seq<QueueConfig>, bs: seq<BindingConfig>, d: Decl)
    ensures d.OfExchange? && qs == [] && bs == [] ==> Flatten(es + [d.e], qs, bs) == Flatten(es, qs, bs) + [d]
    ensures d.OfQueue? && bs == [] ==> Flatten(es, qs + [d.q], bs) == Flatten(es, qs, bs) + [d]
    ensures d.OfBinding? ==> Flatten(es, qs, bs + [d.b]) == Flatten(es, qs, bs) + [d]
  {
  }

  lemma GroupedSnoc(qt: QueueType, ds: seq<Decl>, d: Decl)
    requires forall i :: 0 <= i < |ds| ==> Kind(ds[i]) <= Kind(d)
    requires d.OfQueue? ==> Cached(qt, d.q) == d.q
    ensures Grouped(qt, ds + [d]) == Grouped(qt, ds) + [d]
  {
    NoneAbove(qt, ds, Kind(d));
    CacheSnoc(qt, ds, d);
    FlattenSnoc(Exchanges(ds), Queues(qt, ds), Bindings(ds), d);
  }

  lemma {:induction false} GroupedOfOrdered(qt: QueueType, ds: seq<Decl>)
    requires Ordered(ds) && Settled(qt, ds)
    ensures Grouped(qt, ds) == ds
  {
    if ds != [] {
      GroupedOfOrdered(qt, ds[..|ds| - 1]);
      GroupedSnoc(qt, ds[..|ds| - 1], ds[|ds| - 1]);
      assert ds == ds[..|ds| - 1] + [ds[|ds| - 1]];
    }
  }

  lemma FlattenOrdered(qt: QueueType, es: seq<ExchangeConfig>, qs: seq<QueueConfig>, bs: seq<BindingConfig>)
    requires forall q :: q in qs ==> Cached(qt, q) == q
    ensures Ordered(Flatten(es, qs, bs)) && Settled(qt, Flatten(es, qs, bs))
  {
  }

  lemma ReplaySnoc(qt: QueueType, br: Broker, ds: seq<Decl>, d: Decl)
    ensures ApplyAll(qt, br, ds + [d]) == Apply(qt, ApplyAll(qt, br, ds), d)
    ensures AcceptsAll(qt, br, ds + [d]) <==> AcceptsAll(qt, br, ds) && Accepts(qt, ApplyAll(qt, br, ds), d)
  {
  }

  class Manager {
    const queueType: QueueType
    const exchanges: Slice<ExchangeConfig>
    const queues: Slice<QueueConfig>
    const bindings: Slice<BindingConfig>
    var broker: Broker

    constructor (queueType: QueueType, broker: Broker)
      ensures Valid() && Flat() == [] && this.broker == broker && this.queueType == queueType
    {
      this.queueType, this.broker := queueType, broker;
      exchanges := new Slice();
      queues := new Slice();
      bindings := new Slice();
    }

    ghost function Repr(): set<object>
      reads this, exchanges, queues, bindings
    {
      {this, exchanges, exchanges.buf, queues, queues.buf, bindings, bindings.buf}
    }

    ghost predicate Valid()
      reads this, exchanges, queues, bindings, queues.buf
    {
      && exchanges.Valid() && queues.Valid() && bindings.Valid()
      && exchanges.buf as object != queues.buf && exchanges.buf as object != bindings.buf && queues.buf as object != bindings.buf
      && forall q :: q in queues.Contents() ==> Cached(queueType, q) == q
    }

    /** The cache in the order restoreTopology redeclares it. */
    ghost function Flat(): seq<Decl>
      reads this, exchanges, queues, bindings, exchanges.buf, queues.buf, bindings.buf
      requires Valid()
    {
      Flatten(exchanges.Contents(), queues.Contents(), bindings.Contents())
    }

    /** A declaration succeeds if the channel opens and the broker accepts it. */
    method DeclareExchange(e: ExchangeConfig, answers: bool) returns (ok: bool)
      requires Valid()
      modifies this, exchanges, exchanges.buf
      ensures Valid() && (exchanges.buf == old(exchanges.buf) || fresh(exchanges.buf))
      ensures ok <==> answers && Accepts(queueType, old(broker), OfExchange(e))
      ensures broker == if ok then Apply(queueType, old(broker), OfExchange(e)) else old(broker)
      ensures exchanges.Contents() == old(exchanges.Contents()) + if ok then [e] else []
    {
      ok := answers && Accepts(queueType, broker, OfExchange(e));
      if ok {
        broker := Apply(queueType, broker, OfExchange(e));
        exchanges.Append(e);
      }
    }

    method DeclareQueue(q: QueueConfig, answers: bool) returns (ok: bool)
      requires Valid()
      modifies this, queues, queues.buf
      ensures Valid() && (queues.buf == old(queues.buf) || fresh(queues.buf))
      ensures ok <==> answers && Accepts(queueType, old(broker), OfQueue(q))
      ensures broker == if ok then Apply(queueType, old(broker), OfQueue(q)) else old(broker)
      ensures queues.Contents() == old(queues.Contents()) + if ok then [Cached(queueType, q)] else []
    {
      ok := answers && Accepts(queueType, broker, OfQueue(q));
      CachedIsFixedPoint(queueType, q);
      if ok {
        broker := Apply(queueType, broker, OfQueue(q));
        queues.Append(Cached(queueType, q));
      }
    }

    method BindQueue(b: BindingConfig, answers: bool) returns (ok: bool)
      requires Valid()
      modifies this, bindings, bindings.buf
      ensures Valid() && (bindings.buf == old(bindings.buf) || fresh(bindings.buf))
      ensures ok <==> answers && Accepts(queueType, old(broker), OfBinding(b))
      ensures broker == if ok then Apply(queueType, old(broker), OfBinding(b)) else old(broker)
      ensures bindings.Contents() == old(bindings.Contents()) + if ok then [b] else []
    {
      ok := answers && Accepts(queueType, broker, OfBinding(b));
      if ok {
        broker := Apply(queueType, broker, OfBinding(b));
        bindings.Append(b);
      }
    }

    /** The declarations made since the broker was br0. */
    ghost predicate Replayed(br0: Broker, ds: seq<Decl>)
      reads this
    {
      broker == ApplyAll(queueType, br0, ds) && AcceptsAll(queueType, br0, ds)
    }

    /** Copy the three slices and truncate them, keeping their backing arrays. */
    method Snapshot() returns (es: array<ExchangeConfig>, qs: array<QueueConfig>, bs: array<BindingConfig>)
      requires Valid()
      modifies exchanges, queues, bindings
      ensures Valid() && fresh(es) && fresh(qs) && fresh(bs)
      ensures exchanges.buf == old(exchanges.buf) && queues.buf == old(queues.buf) && bindings.buf == old(bindings.buf)
      ensures es[..] == old(exchanges.Contents()) && qs[..] == old(queues.Contents()) && bs[..] == old(bindings.Contents())
      ensures exchanges.Contents() == [] && queues.Contents() == [] && bindings.Contents() == []
    {
      es := exchanges.Copy();
      qs := queues.Copy();
      bs := bindings.Copy();
      queues.Truncate();
      exchanges.Truncate();
      bindings.Truncate();
    }

    method Declare(d: Decl, answers: bool) returns (ok: bool)
      requires Valid()
      modifies Repr()
      ensures Valid() && (ok <==> answers && Accepts(queueType, old(broker), d))
      ensures broker == if ok then Apply(queueType, old(broker), d) else old(broker)
      ensures exchanges.Contents() == if ok && d.OfExchange? then old(exchanges.Contents()) + [d.e] else old(exchanges.Contents())
      ensures queues.Contents() == if ok && d.OfQueue? then old(queues.Contents()) + [Cached(queueType, d.q)] else old(queues.Contents())
      ensures bindings.Contents() == if ok && d.OfBinding? then old(bindings.Contents()) + [d.b] else old(bindings.Contents())
      ensures fresh(Repr() - old(Repr()))
    {
      match d
      case OfExchange(e) => ok := DeclareExchange(e, answers);
      case OfQueue(q) => ok := DeclareQueue(q, answers);
      case OfBinding(b) => ok := BindQueue(b, answers);
    }

    /** The cache is what a history of successful declarations leaves. */
    ghost predicate CachesHistory(ds: seq<Decl>)
      reads Repr()
    {
      Valid() && exchanges.Contents() == Exchanges(ds) && queues.Contents() == Queues(queueType, ds) && bindings.Contents() == Bindings(ds)
    }

    lemma CacheIsGrouped(ds: seq<Decl>)
      requires CachesHistory(ds)
      ensures Flat() == Grouped(queueType, ds)
    {
    }

    /** After a history, the first n of ds were declared as well, on what was the broker br0. */
    ghost predicate Declared(history: seq<Decl>, ds: seq<Decl>, n: nat, br0: Broker)
      reads Repr()
    {
      n <= |ds| && CachesHistory(history + ds[..n]) && Replayed(br0, ds[..n])
    }

    /** One turn of DeclareAll. */
    method DeclareNext(ds: seq<Decl>, n: nat, answers: bool, ghost history: seq<Decl>, ghost br0: Broker) returns (ok: bool)
      requires Declared(history, ds, n, br0) && n < |ds|
      modifies Repr()
      ensures Declared(history, ds, if ok then n + 1 else n, br0)
      ensures !ok ==> !answers || !Accepts(queueType, broker, ds[n])
      ensures fresh(Repr() - old(Repr()))
    {
      OneMore(history, ds, n);
      CacheSnoc(queueType, history + ds[..n], ds[n]);
      ReplaySnoc(queueType, br0, ds[..n], ds[n]);
      ok := Declare(ds[n], answers);
    }

    /** A client declares in any order until something fails; the cache groups what succeeded. */
    method DeclareAll(ds: seq<Decl>, answers: nat -> bool, ghost before: seq<Decl>) returns (ok: bool, n: nat)
      requires CachesHistory(before)
      modifies Repr()
      ensures n <= |ds| && (ok <==> n == |ds|)
      ensures CachesHistory(before + ds[..n]) && Replayed(old(broker), ds[..n])
      ensures !ok ==> !answers(n) || !Accepts(queueType, broker, ds[n])
      ensures fresh(Repr() - old(Repr()))
    {
      n, ok := 0, true;
      assert before + ds[..0] == before;
      while ok && n < |ds|
        invariant n <= |ds| && Declared(before, ds, n, old(broker))
        invariant !ok ==> n < |ds| && (!answers(n) || !Accepts(queueType, broker, ds[n]))
        invariant fresh(Repr() - old(Repr()))
        decreases |ds| - n, ok
      {
        ok := DeclareNext(ds, n, answers(n), before, old(broker));
        if ok {
          n := n + 1;
        }
      }
    }

    /** Redeclare a snapshot on an empty cache until something fails. */
    method Redeclare(all: seq<Decl>, answers: nat -> bool) returns (ok: bool, n: nat)
      requires CachesHistory([]) && Ordered(all) && Settled(queueType, all)
      modifies Repr()
      ensures Valid() && n <= |all| && (ok <==> n == |all|)
      ensures Flat() == all[..n] && Replayed(old(broker), all[..n])
      ensures !ok ==> !answers(n) || !Accepts(queueType, broker, all[n])
      ensures fresh(Repr() - old(Repr()))
    {
      ok, n := DeclareAll(all, answers, []);
      assert [] + all[..n] == all[..n];
      GroupedOfOrdered(queueType, all[..n]);
      CacheIsGrouped(all[..n]);
    }

    /**
     restoreTopology, its three loops one after the other: the cache is left holding the prefix
     that was redeclared, the whole of it exactly on success, and the broker has accepted just
     that prefix.
     */
    method RestoreTopology(answers: nat -> bool) returns (ok: bool, n: nat)
      requires Valid()
      modifies Repr()
      ensures Valid()
      ensures n <= |old(Flat())| && Flat() == old(Flat())[..n]
      ensures ok <==> n == |old(Flat())|
      ensures Replayed(old(broker), old(Flat())[..n])
      ensures !ok ==> !answers(n) || !Accepts(queueType, broker, old(Flat())[n])
      ensures fresh(Repr() - old(Repr()))
    {
      var es, qs, bs := Snapshot();
      FlattenOrdered(queueType, es[..], qs[..], bs[..]);
      ok, n := Redeclare(Flatten(es[..], qs[..], bs[..]), answers);
    }

    /**
     End to end: on a broker that lost any part of what a history declared, restoreTopology with
     a working channel succeeds, rebuilds the broker to the letter and keeps the cache.
     */
    method RestoreAfterLoss(ghost builtIn: Broker, ghost history: seq<Decl>, lost: Broker, answers: nat -> bool) returns (ok: bool)
      requires CachesHistory(history) && Named(history) && AcceptsAll(queueType, builtIn, history)
      requires Within(builtIn, lost) && Within(lost, ApplyAll(queueType, builtIn, history))
      requires forall i :: answers(i)
      modifies Repr()
      ensures Valid() && ok && broker == ApplyAll(queueType, builtIn, history)
      ensures Flat() == old(Flat())
    {
      ReplayRestoresAll(queueType, builtIn, history, lost);
      broker := lost;
      CacheIsGrouped(history);
      ghost var all := Flat();
      var n: nat;
      ok, n := RestoreTopology(answers);
      if !ok {
        AcceptedAt(queueType, lost, all, n);
      }
      assert all[..|all|] == all;
    }

    method Reconnect(br: Broker, answers: nat -> bool, ghost all: seq<Decl>, ghost kept: nat) returns (ok: bool, n: nat)
      requires Valid() && kept <= |all| && Flat() == all[..kept]
      modifies Repr()
      ensures Valid() && n <= kept && Flat() == all[..n] && (ok <==> n == kept)
      ensures fresh(Repr() - old(Repr()))
    {
      broker := br;
      ok, n := RestoreTopology(answers);
      assert all[..kept][..n] == all[..n];
    }

    /**
     Over any number of reconnects, each to a broker in any condition and stopping anywhere, the
     cache only ever shrinks to a prefix of what it was, whole exactly if they all succeeded.
     */
    method Reconnects(brokers: seq<Broker>, answers: nat -> nat -> bool) returns (allOk: bool, kept: nat)
      requires Valid()
      modifies Repr()
      ensures Valid() && kept <= |old(Flat())| && Flat() == old(Flat())[..kept]
      ensures allOk <==> kept == |old(Flat())|
    {
      allOk, kept := true, exchanges.len + queues.len + bindings.len;
      ghost var all := Flat();
      assert all[..kept] == all;
      for i := 0 to |brokers|
        invariant Valid() && kept <= |all| && Flat() == all[..kept] && (allOk <==> kept == |all|)
        invariant fresh(Repr() - old(Repr()))
      {
        var ok: bool;
        ok, kept := Reconnect(brokers[i], answers(i), all, kept);
        allOk := allOk && ok;
      }
    }
  }
}
