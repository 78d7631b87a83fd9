/** Declarations, and a broker that keeps exactly what was declared on it. */
module BrokerTopology {
  import opened Wrappers

  datatype Arg = Text(s: string) | Number(n: int)

  type Args = map<string, Arg>

  datatype QueueType = Quorum | Classic

  /** Absent args are a nil map in the caller's configuration. */
  datatype QueueConfig = QueueConfig(name: string, durable: bool, autoDelete: bool, exclusive: bool, noWait: bool, args: Option<Args>)

  datatype ExchangeConfig = ExchangeConfig(name: string, kind: string, durable: bool, autoDelete: bool, internal: bool, noWait: bool, args: Args)

  datatype BindingConfig = BindingConfig(queue: string, exchange: string, routingKey: string, noWait: bool, args: Args)

  datatype Decl = OfExchange(e: ExchangeConfig) | OfQueue(q: QueueConfig) | OfBinding(b: BindingConfig)

  /** The properties a redeclaration must repeat; noWait only concerns the request. */
  datatype ExchangeAttrs = ExchangeAttrs(kind: string, durable: bool, autoDelete: bool, internal: bool, args: Args)

  datatype QueueAttrs = QueueAttrs(durable: bool, autoDelete: bool, exclusive: bool, args: Args)

  datatype Binding = Binding(queue: string, exchange: string, routingKey: string, args: Args)

  datatype Broker = Broker(exchanges: map<string, ExchangeAttrs>, queues: map<string, QueueAttrs>, bindings: set<Binding>)

  function OwnArgs(q: QueueConfig): Args {
    if q.args.None? then map[] else q.args.value
  }

  /** The arguments DeclareQueue sends. */
  function SentArgs(qt: QueueType, q: QueueConfig): Args {
    if qt.Quorum? && q.durable then OwnArgs(q)["x-queue-type" := Text("quorum")] else OwnArgs(q)
  }

  /** What DeclareQueue appends to the cache: the queue type is written into the caller's map, if there is one. */
  function Cached(qt: QueueType, q: QueueConfig): QueueConfig {
    if q.args.None? then q else q.(args := Some(SentArgs(qt, q)))
  }

  function QueueAttrsOf(qt: QueueType, q: QueueConfig): QueueAttrs {
    QueueAttrs(q.durable, q.autoDelete, q.exclusive, SentArgs(qt, q))
  }

  function ExchangeAttrsOf(e: ExchangeConfig): ExchangeAttrs {
    ExchangeAttrs(e.kind, e.durable, e.autoDelete, e.internal, e.args)
  }

  function BindingOf(b: BindingConfig): Binding {
    Binding(b.queue, b.exchange, b.routingKey, b.args)
  }

  /** The added queue type is a fixed point: a cached queue is redeclared as it was declared. */
  lemma CachedIsFixedPoint(qt: QueueType, q: QueueConfig)
    ensures Cached(qt, Cached(qt, q)) == Cached(qt, q)
    ensures QueueAttrsOf(qt, Cached(qt, q)) == QueueAttrsOf(qt, q) && Cached(qt, q).name == q.name
  {
    if q.args.Some? {
      assert SentArgs(qt, Cached(qt, q)) == SentArgs(qt, q);
    }
  }

  predicate Accepts(qt: QueueType, br: Broker, d: Decl) {
    match d
    case OfExchange(e) => e.name in br.exchanges ==> br.exchanges[e.name] == ExchangeAttrsOf(e)
    case OfQueue(q) => q.name in br.queues ==> br.queues[q.name] == QueueAttrsOf(qt, q)
    case OfBinding(b) => b.queue in br.queues && b.exchange in br.exchanges
  }

  function Apply(qt: QueueType, br: Broker, d: Decl): Broker {
    match d
    case OfExchange(e) => br.(exchanges := br.exchanges[e.name := ExchangeAttrsOf(e)])
    case OfQueue(q) => br.(queues := br.queues[q.name := QueueAttrsOf(qt, q)])
    case OfBinding(b) => br.(bindings := br.bindings + {BindingOf(b)})
  }

  /** On a quorum client a durable queue is asked for as a quorum queue; every other argument is the caller's. */
  ghost predicate AskedWith(qt: QueueType, q: QueueConfig, args: Args) {
    && (qt.Quorum? && q.durable ==> "x-queue-type" in args && args["x-queue-type"] == Text("quorum"))
    && forall k :: !(qt.Quorum? && q.durable && k == "x-queue-type") ==>
         && (k in args <==> q.args.Some? && k in q.args.value)
         && (k in args ==> args[k] == q.args.value[k])
  }

  /** What the broker holds after a declaration, field by field; everything else stays as it was. */
  lemma BrokerHoldsWhatWasGiven(qt: QueueType, br: Broker, d: Decl)
    ensures var br' := Apply(qt, br, d);
            match d
            case OfExchange(e) =>
              && e.name in br'.exchanges && br' == br.(exchanges := br.exchanges[e.name := br'.exchanges[e.name]])
              && var x := br'.exchanges[e.name];
                 x.kind == e.kind && x.durable == e.durable && x.autoDelete == e.autoDelete && x.internal == e.internal && x.args == e.args
            case OfQueue(q) =>
              && q.name in br'.queues && br' == br.(queues := br.queues[q.name := br'.queues[q.name]])
              && var x := br'.queues[q.name];
                 x.durable == q.durable && x.autoDelete == q.autoDelete && x.exclusive == q.exclusive && AskedWith(qt, q, x.args)
            case OfBinding(b) =>
              br' == br.(bindings := br.bindings + {Binding(b.queue, b.exchange, b.routingKey, b.args)})
  {
  }

  function ApplyAll(qt: QueueType, br: Broker, ds: seq<Decl>): Broker {
    if ds == [] then br else Apply(qt, ApplyAll(qt, br, ds[..|ds| - 1]), ds[|ds| - 1])
  }

  predicate AcceptsAll(qt: QueueType, br: Broker, ds: seq<Decl>) {
    ds != [] ==>
      AcceptsAll(qt, br, ds[..|ds| - 1]) && Accepts(qt, ApplyAll(qt, br, ds[..|ds| - 1]), ds[|ds| - 1])
  }

  function Exchanges(ds: seq<Decl>): seq<ExchangeConfig> {
    if ds == [] then []
    else if ds[|ds| - 1].OfExchange? then Exchanges(ds[..|ds| - 1]) + [ds[|ds| - 1].e]
    else Exchanges(ds[..|ds| - 1])
  }

  function Queues(qt: QueueType, ds: seq<Decl>): seq<QueueConfig> {
    if ds == [] then []
    else if ds[|ds| - 1].OfQueue? then Queues(qt, ds[..|ds| - 1]) + [Cached(qt, ds[|ds| - 1].q)]
    else Queues(qt, ds[..|ds| - 1])
  }

  function Bindings(ds: seq<Decl>): seq<BindingConfig> {
    if ds == [] then []
    else if ds[|ds| - 1].OfBinding? then Bindings(ds[..|ds| - 1]) + [ds[|ds| - 1].b]
    else Bindings(ds[..|ds| - 1])
  }

  function ExchangeDecls(es: seq<ExchangeConfig>): (ds: seq<Decl>)
    ensures |ds| == |es| && forall i :: 0 <= i < |es| ==> ds[i] == OfExchange(es[i])
  {
    seq(|es|, i requires 0 <= i < |es| => OfExchange(es[i]))
  }

  function QueueDecls(qs: seq<QueueConfig>): (ds: seq<Decl>)
    ensures |ds| == |qs| && forall i :: 0 <= i < |qs| ==> ds[i] == OfQueue(qs[i])
  {
    seq(|qs|, i requires 0 <= i < |qs| => OfQueue(qs[i]))
  }

  function BindingDecls(bs: seq<BindingConfig>): (ds: seq<Decl>)
    ensures |ds| == |bs| && forall i :: 0 <= i < |bs| ==> ds[i] == OfBinding(bs[i])
  {
    seq(|bs|, i requires 0 <= i < |bs| => OfBinding(bs[i]))
  }

  /** The order in which restoreTopology redeclares a cache. */
  function Flatten(es: seq<ExchangeConfig>, qs: seq<QueueConfig>, bs: seq<BindingConfig>): (ds: seq<Decl>) {
    ExchangeDecls(es) + QueueDecls(qs) + BindingDecls(bs)
  }

  /** The cache a history of successful declarations leaves, flattened. */
  function Grouped(qt: QueueType, ds: seq<Decl>): seq<Decl> {
    Flatten(Exchanges(ds), Queues(qt, ds), Bindings(ds))
  }

  // ---------------------------------------------------------------------------------------
  // Replay

  ghost predicate Within(br: Broker, t: Broker) {
    && (forall n :: n in br.exchanges ==> n in t.exchanges && t.exchanges[n] == br.exchanges[n])
    && (forall n :: n in br.queues ==> n in t.queues && t.queues[n] == br.queues[n])
    && br.bindings <= t.bindings
  }

  /** The broker holds what d declares. */
  ghost predicate Present(qt: QueueType, br: Broker, d: Decl) {
    match d
    case OfExchange(e) => e.name in br.exchanges && br.exchanges[e.name] == ExchangeAttrsOf(e)
    case OfQueue(q) => q.name in br.queues && br.queues[q.name] == QueueAttrsOf(qt, q)
    case OfBinding(b) => BindingOf(b) in br.bindings
  }

  /** An accepted declaration adds and changes nothing else. */
  lemma AcceptedStep(qt: QueueType, br: Broker, d: Decl)
    requires Accepts(qt, br, d)
    ensures Within(br, Apply(qt, br, d)) && Present(qt, Apply(qt, br, d), d)
  {
  }

  ghost predicate DeclaresExchange(ds: seq<Decl>, name: string) {
    exists i :: 0 <= i < |ds| && ds[i].OfExchange? && ds[i].e.name == name
  }

  ghost predicate DeclaresQueue(ds: seq<Decl>, name: string) {
    exists i :: 0 <= i < |ds| && ds[i].OfQueue? && ds[i].q.name == name
  }

  ghost predicate DeclaresBinding(ds: seq<Decl>, b: Binding) {
    exists i :: 0 <= i < |ds| && ds[i].OfBinding? && BindingOf(ds[i].b) == b
  }

  /** Whatever the broker t holds was in br or is declared by ds. */
  ghost predicate Explained(br: Broker, ds: seq<Decl>, t: Broker) {
    && (forall n :: n in t.exchanges ==> n in br.exchanges || DeclaresExchange(ds, n))
    && (forall n :: n in t.queues ==> n in br.queues || DeclaresQueue(ds, n))
    && (forall b :: b in t.bindings ==> b in br.bindings || DeclaresBinding(ds, b))
  }

  lemma DeclaresSnoc(init: seq<Decl>, d: Decl)
    ensures forall n :: DeclaresExchange(init + [d], n) <==> DeclaresExchange(init, n) || (d.OfExchange? && d.e.name == n)
    ensures forall n :: DeclaresQueue(init + [d], n) <==> DeclaresQueue(init, n) || (d.OfQueue? && d.q.name == n)
    ensures forall b :: DeclaresBinding(init + [d], b) <==> DeclaresBinding(init, b) || (d.OfBinding? && BindingOf(d.b) == b)
  {
    var ds := init + [d];
    assert forall i :: 0 <= i < |init| ==> ds[i] == init[i];
    assert ds[|init|] == d;
  }

  /** A history of accepted declarations keeps what was there, establishes what it declares, and adds nothing else. */
  lemma {:induction false} AcceptedHistory(qt: QueueType, br: Broker, ds: seq<Decl>)
    requires AcceptsAll(qt, br, ds)
    ensures Within(br, ApplyAll(qt, br, ds))
    ensures forall i :: 0 <= i < |ds| ==> Present(qt, ApplyAll(qt, br, ds), ds[i])
    ensures Explained(br, ds, ApplyAll(qt, br, ds))
  {
    if ds != [] {
      var init, d := ds[..|ds| - 1], ds[|ds| - 1];
      AcceptedHistory(qt, br, init);
      AcceptedStep(qt, ApplyAll(qt, br, init), d);
      PresentStays(qt, init, ApplyAll(qt, br, init), ApplyAll(qt, br, ds));
      ExplainedStep(qt, br, init, ApplyAll(qt, br, init), d);
      assert ds == init + [d];
    }
  }

  lemma ExplainedStep(qt: QueueType, br: Broker, init: seq<Decl>, t: Broker, d: Decl)
    requires Explained(br, init, t)
    ensures Explained(br, init + [d], Apply(qt, t, d))
  {
    DeclaresSnoc(init, d);
  }

  lemma PresentStays(qt: QueueType, ds: seq<Decl>, br: Broker, t: Broker)
    requires Within(br, t) && forall i :: 0 <= i < |ds| ==> Present(qt, br, ds[i])
    ensures forall i :: 0 <= i < |ds| ==> Present(qt, t, ds[i])
  {
  }

  /** The endpoints of a binding are in the broker or declared. */
  ghost predicate EndpointsKnown(br: Broker, ds: seq<Decl>, b: BindingConfig) {
    && (b.queue in br.queues || DeclaresQueue(ds, b.queue))
    && (b.exchange in br.exchanges || DeclaresExchange(ds, b.exchange))
  }

  /**
   Declarations that all hold in a target broker can be replayed on any part of it, provided
   endpoints come before their bindings; the result stays within the target.
   */
  lemma {:induction false} ReplayWithin(qt: QueueType, br: Broker, t: Broker, ds: seq<Decl>)
    requires Within(br, t) && forall i :: 0 <= i < |ds| ==> Present(qt, t, ds[i])
    requires forall i :: 0 <= i < |ds| && ds[i].OfBinding? ==> EndpointsKnown(br, ds[..i], ds[i].b)
    ensures AcceptsAll(qt, br, ds)
    ensures Within(ApplyAll(qt, br, ds), t)
  {
    if ds != [] {
      var init, d := ds[..|ds| - 1], ds[|ds| - 1];
      assert forall i :: 0 <= i < |init| ==> init[..i] == ds[..i];
      ReplayWithin(qt, br, t, init);
      AcceptedHistory(qt, br, init);
      var now := ApplyAll(qt, br, init);
      if d.OfBinding? {
        assert EndpointsKnown(br, init, d.b);
        HoldsEndpoints(qt, br, init, d.b);
      }
      assert Accepts(qt, now, d);
      assert Present(qt, t, d);
    }
  }

  lemma HoldsEndpoints(qt: QueueType, br: Broker, ds: seq<Decl>, b: BindingConfig)
    requires AcceptsAll(qt, br, ds) && EndpointsKnown(br, ds, b)
    ensures b.queue in ApplyAll(qt, br, ds).queues && b.exchange in ApplyAll(qt, br, ds).exchanges
  {
    AcceptedHistory(qt, br, ds);
    if b.queue !in br.queues {
      var i :| 0 <= i < |ds| && ds[i].OfQueue? && ds[i].q.name == b.queue;
      assert Present(qt, ApplyAll(qt, br, ds), ds[i]);
    }
    if b.exchange !in br.exchanges {
      var i :| 0 <= i < |ds| && ds[i].OfExchange? && ds[i].e.name == b.exchange;
      assert Present(qt, ApplyAll(qt, br, ds), ds[i]);
    }
  }

  /** The cache holds exactly the history's declarations, queues in their cached form. */
  lemma {:induction false} CacheHoldsHistory(qt: QueueType, ds: seq<Decl>)
    ensures forall e :: e in Exchanges(ds) <==> OfExchange(e) in ds
    ensures forall b :: b in Bindings(ds) <==> OfBinding(b) in ds
    ensures forall q :: OfQueue(q) in ds ==> Cached(qt, q) in Queues(qt, ds)
    ensures forall c :: c in Queues(qt, ds) ==> exists q :: OfQueue(q) in ds && c == Cached(qt, q)
  {
    if ds != [] {
      var init, d := ds[..|ds| - 1], ds[|ds| - 1];
      CacheHoldsHistory(qt, init);
      assert ds == init + [d];
      forall c | c in Queues(qt, ds)
        ensures exists q :: OfQueue(q) in ds && c == Cached(qt, q)
      {
        if c in Queues(qt, init) {
          var q :| OfQueue(q) in init && c == Cached(qt, q);
          assert OfQueue(q) in ds;
        } else {
          assert OfQueue(d.q) in ds && c == Cached(qt, d.q);
        }
      }
    }
  }

  lemma FlattenDeclares(es: seq<ExchangeConfig>, qs: seq<QueueConfig>, bs: seq<BindingConfig>, n: nat)
    requires |es| + |qs| <= n <= |es| + |qs| + |bs|
    ensures forall e :: e in es ==> DeclaresExchange(Flatten(es, qs, bs)[..n], e.name)
    ensures forall q :: q in qs ==> DeclaresQueue(Flatten(es, qs, bs)[..n], q.name)
  {
    var ds := Flatten(es, qs, bs)[..n];
    forall e | e in es
      ensures DeclaresExchange(ds, e.name)
    {
      var i :| 0 <= i < |es| && es[i] == e;
      assert ds[i] == OfExchange(e);
    }
    forall q | q in qs
      ensures DeclaresQueue(ds, q.name)
    {
      var i :| 0 <= i < |qs| && qs[i] == q;
      assert ds[|es| + i] == OfQueue(q);
    }
  }

  /** Replaying the cache never meets a missing endpoint: declared ones come first, the rest are built in. */
  lemma GroupedEndpoints(qt: QueueType, br: Broker, ds: seq<Decl>, i: nat)
    requires forall b :: OfBinding(b) in ds ==> EndpointsKnown(br, ds, b)
    requires i < |Grouped(qt, ds)| && Grouped(qt, ds)[i].OfBinding?
    ensures EndpointsKnown(br, Grouped(qt, ds)[..i], Grouped(qt, ds)[i].b)
  {
    var es, qs, bs := Exchanges(ds), Queues(qt, ds), Bindings(ds);
    var b := Grouped(qt, ds)[i].b;
    CacheHoldsHistory(qt, ds);
    assert b in bs && OfBinding(b) in ds;
    FlattenDeclares(es, qs, bs, i);
    if b.queue !in br.queues {
      var j :| 0 <= j < |ds| && ds[j].OfQueue? && ds[j].q.name == b.queue;
      assert OfQueue(ds[j].q) in ds;
      assert Cached(qt, ds[j].q) in qs && Cached(qt, ds[j].q).name == b.queue;
    }
    if b.exchange !in br.exchanges {
      var j :| 0 <= j < |ds| && ds[j].OfExchange? && ds[j].e.name == b.exchange;
      assert OfExchange(ds[j].e) in ds;
    }
  }

  lemma GroupedPresent(qt: QueueType, t: Broker, ds: seq<Decl>, i: nat)
    requires forall j :: 0 <= j < |ds| ==> Present(qt, t, ds[j])
    requires i < |Grouped(qt, ds)|
    ensures Present(qt, t, Grouped(qt, ds)[i])
  {
    CacheHoldsHistory(qt, ds);
    var d := Grouped(qt, ds)[i];
    match d
    case OfExchange(e) => assert e in Exchanges(ds) && d in ds;
    case OfBinding(b) => assert b in Bindings(ds) && d in ds;
    case OfQueue(c) =>
      assert c in Queues(qt, ds);
      var q :| OfQueue(q) in ds && c == Cached(qt, q);
      CachedIsFixedPoint(qt, q);
      assert Present(qt, t, OfQueue(q));
  }

  function CachedDecl(qt: QueueType, d: Decl): Decl {
    if d.OfQueue? then OfQueue(Cached(qt, d.q)) else d
  }

  /** Everything the history declared is declared again by the cache. */
  lemma DeclaredAgain(qt: QueueType, ds: seq<Decl>, i: nat) returns (k: nat)
    requires i < |ds|
    ensures k < |Grouped(qt, ds)| && Grouped(qt, ds)[k] == CachedDecl(qt, ds[i])
  {
    var es, qs, bs := Exchanges(ds), Queues(qt, ds), Bindings(ds);
    CacheHoldsHistory(qt, ds);
    assert ds[i] in ds;
    match ds[i]
    case OfExchange(e) =>
      k :| 0 <= k < |es| && es[k] == e;
    case OfQueue(q) =>
      var j :| 0 <= j < |qs| && qs[j] == Cached(qt, q);
      k := |es| + j;
    case OfBinding(b) =>
      var j :| 0 <= j < |bs| && bs[j] == b;
      k := |es| + |qs| + j;
  }

  /** What the history declared holds again after the replay. */
  lemma PresentAgain(qt: QueueType, br: Broker, ds: seq<Decl>, i: nat)
    requires AcceptsAll(qt, br, Grouped(qt, ds)) && i < |ds|
    ensures Present(qt, ApplyAll(qt, br, Grouped(qt, ds)), ds[i])
  {
    AcceptedHistory(qt, br, Grouped(qt, ds));
    var k := DeclaredAgain(qt, ds, i);
    assert Present(qt, ApplyAll(qt, br, Grouped(qt, ds)), CachedDecl(qt, ds[i]));
    if ds[i].OfQueue? {
      CachedIsFixedPoint(qt, ds[i].q);
    }
  }

  ghost function Union(br0: Broker, r: Broker): Broker {
    Broker(br0.exchanges + r.exchanges, br0.queues + r.queues, br0.bindings + r.bindings)
  }

  lemma DeclaredArePresent(qt: QueueType, ds: seq<Decl>, r: Broker)
    requires forall i :: 0 <= i < |ds| ==> Present(qt, r, ds[i])
    ensures forall n :: DeclaresExchange(ds, n) ==> n in r.exchanges
    ensures forall n :: DeclaresQueue(ds, n) ==> n in r.queues
    ensures forall b :: DeclaresBinding(ds, b) ==> b in r.bindings
  {
  }

  /** A broker explained by br0 and declarations that all hold in a part r of it is br0 and r together. */
  lemma Reassemble(qt: QueueType, br0: Broker, ds: seq<Decl>, r: Broker, t: Broker)
    requires Within(br0, t) && Within(r, t) && Explained(br0, ds, t)
    requires forall i :: 0 <= i < |ds| ==> Present(qt, r, ds[i])
    ensures t == Union(br0, r)
  {
    DeclaredArePresent(qt, ds, r);
    assert t.exchanges == br0.exchanges + r.exchanges;
    assert t.queues == br0.queues + r.queues;
  }

  lemma ReplayAccepted(qt: QueueType, t: Broker, history: seq<Decl>, lost: Broker)
    requires Within(lost, t)
    requires forall i :: 0 <= i < |history| ==> Present(qt, t, history[i])
    requires forall b :: OfBinding(b) in history ==> EndpointsKnown(lost, history, b)
    ensures AcceptsAll(qt, lost, Grouped(qt, history))
    ensures Within(ApplyAll(qt, lost, Grouped(qt, history)), t)
  {
    var g := Grouped(qt, history);
    forall i | 0 <= i < |g|
      ensures Present(qt, t, g[i])
    {
      GroupedPresent(qt, t, history, i);
    }
    forall i | 0 <= i < |g| && g[i].OfBinding?
      ensures EndpointsKnown(lost, g[..i], g[i].b)
    {
      GroupedEndpoints(qt, lost, history, i);
    }
    ReplayWithin(qt, lost, t, g);
  }

  ghost predicate Named(ds: seq<Decl>) {
    forall i :: 0 <= i < |ds| && ds[i].OfQueue? ==> ds[i].q.name != ""
  }

  /**
   The cache rebuilds the topology.  Take any history of named declarations accepted from br0
   up to a broker t, and any broker that lost part of t: all but its built-in exchanges, its
   transient part, or nothing.  If every binding's endpoints are declared by the history or
   still there, replaying the cache is accepted throughout and yields t again, but for what br0
   held before the history.
   */
  lemma ReplayRestores(qt: QueueType, br0: Broker, history: seq<Decl>, lost: Broker)
    requires Named(history) && AcceptsAll(qt, br0, history)
    requires Within(lost, ApplyAll(qt, br0, history))
    requires forall b :: OfBinding(b) in history ==> EndpointsKnown(lost, history, b)
    ensures AcceptsAll(qt, lost, Grouped(qt, history))
    ensures ApplyAll(qt, br0, history) == Union(br0, ApplyAll(qt, lost, Grouped(qt, history)))
  {
    var t := ApplyAll(qt, br0, history);
    AcceptedHistory(qt, br0, history);
    ReplayAccepted(qt, t, history, lost);
    forall i | 0 <= i < |history|
      ensures Present(qt, ApplyAll(qt, lost, Grouped(qt, history)), history[i])
    {
      PresentAgain(qt, lost, history, i);
    }
    Reassemble(qt, br0, history, ApplyAll(qt, lost, Grouped(qt, history)), t);
  }

  lemma UnionOfPart(br0: Broker, x: Broker, r: Broker)
    requires Within(br0, x) && Within(x, r)
    ensures Union(br0, r) == r
  {
  }

  lemma {:induction false} AcceptedAt(qt: QueueType, br: Broker, ds: seq<Decl>, i: nat)
    requires AcceptsAll(qt, br, ds) && i < |ds|
    ensures AcceptsAll(qt, br, ds[..i]) && Accepts(qt, ApplyAll(qt, br, ds[..i]), ds[i])
  {
    var init := ds[..|ds| - 1];
    if i < |init| {
      AcceptedAt(qt, br, init, i);
      assert init[..i] == ds[..i];
    }
  }

  /** On a broker that started with its built-in exchanges, an accepted binding has known endpoints. */
  lemma AcceptedEndpoints(qt: QueueType, br: Broker, ds: seq<Decl>, b: BindingConfig)
    requires AcceptsAll(qt, br, ds) && OfBinding(b) in ds
    ensures EndpointsKnown(br, ds, b)
  {
    var i :| 0 <= i < |ds| && ds[i] == OfBinding(b);
    AcceptedAt(qt, br, ds, i);
    AcceptedHistory(qt, br, ds[..i]);
    assert forall j :: 0 <= j < i ==> ds[..i][j] == ds[j];
  }

  lemma GroupedDeclaresQueue(qt: QueueType, ds: seq<Decl>, i: nat)
    requires i < |Grouped(qt, ds)| && Grouped(qt, ds)[i].OfQueue?
    ensures DeclaresQueue(ds, Grouped(qt, ds)[i].q.name)
  {
    var c := Grouped(qt, ds)[i].q;
    assert c == Queues(qt, ds)[i - |Exchanges(ds)|];
    assert c in Queues(qt, ds);
    CacheHoldsHistory(qt, ds);
    var q :| OfQueue(q) in ds && c == Cached(qt, q);
    var j :| 0 <= j < |ds| && ds[j] == OfQueue(q);
    assert ds[j].q.name == c.name;
  }

  lemma GroupedDeclaresExchange(qt: QueueType, ds: seq<Decl>, i: nat)
    requires i < |Grouped(qt, ds)| && Grouped(qt, ds)[i].OfExchange?
    ensures DeclaresExchange(ds, Grouped(qt, ds)[i].e.name)
  {
    var e := Grouped(qt, ds)[i].e;
    assert e == Exchanges(ds)[i];
    CacheHoldsHistory(qt, ds);
    var j :| 0 <= j < |ds| && ds[j] == OfExchange(e);
    assert ds[j].e.name == e.name;
  }

  lemma GroupedKnows(qt: QueueType, br: Broker, ds: seq<Decl>, b: BindingConfig)
    requires EndpointsKnown(br, Grouped(qt, ds), b)
    ensures EndpointsKnown(br, ds, b)
  {
    var g := Grouped(qt, ds);
    if b.queue !in br.queues {
      var i :| 0 <= i < |g| && g[i].OfQueue? && g[i].q.name == b.queue;
      GroupedDeclaresQueue(qt, ds, i);
    }
    if b.exchange !in br.exchanges {
      var i :| 0 <= i < |g| && g[i].OfExchange? && g[i].e.name == b.exchange;
      GroupedDeclaresExchange(qt, ds, i);
    }
  }

  /** The replay is accepted exactly when every binding's endpoints are declared by the history or still there. */
  lemma ReplayAcceptedIff(qt: QueueType, br0: Broker, history: seq<Decl>, lost: Broker)
    requires AcceptsAll(qt, br0, history) && Within(lost, ApplyAll(qt, br0, history))
    ensures AcceptsAll(qt, lost, Grouped(qt, history)) <==>
            forall b :: OfBinding(b) in history ==> EndpointsKnown(lost, history, b)
  {
    AcceptedHistory(qt, br0, history);
    if forall b :: OfBinding(b) in history ==> EndpointsKnown(lost, history, b) {
      ReplayAccepted(qt, ApplyAll(qt, br0, history), history, lost);
    }
    if AcceptsAll(qt, lost, Grouped(qt, history)) {
      forall b | OfBinding(b) in history
        ensures EndpointsKnown(lost, history, b)
      {
        var i :| 0 <= i < |history| && history[i] == OfBinding(b);
        var k := DeclaredAgain(qt, history, i);
        AcceptedEndpoints(qt, lost, Grouped(qt, history), b);
        GroupedKnows(qt, lost, history, b);
      }
    }
  }

  /** A history that began on a broker with only its built-in exchanges is restored to the letter. */
  lemma ReplayRestoresAll(qt: QueueType, builtIn: Broker, history: seq<Decl>, lost: Broker)
    requires Within(builtIn, lost) && Named(history) && AcceptsAll(qt, builtIn, history)
    requires Within(lost, ApplyAll(qt, builtIn, history))
    ensures AcceptsAll(qt, lost, Grouped(qt, history))
    ensures ApplyAll(qt, lost, Grouped(qt, history)) == ApplyAll(qt, builtIn, history)
  {
    forall b | OfBinding(b) in history
      ensures EndpointsKnown(lost, history, b)
    {
      AcceptedEndpoints(qt, builtIn, history, b);
    }
    ReplayRestores(qt, builtIn, history, lost);
    AcceptedHistory(qt, lost, Grouped(qt, history));
    UnionOfPart(builtIn, lost, ApplyAll(qt, lost, Grouped(qt, history)));
  }
}
