/**
 Several goroutines in restoreTopology at once, and clients that declare meanwhile, over one
 cache and one broker.  One event is one critical section on the cache or one request.
 */
module InterleavedRestores {
  import opened BrokerTopology
  import opened TopologyManager

  datatype Cache = Cache(es: seq<ExchangeConfig>, qs: seq<QueueConfig>, bs: seq<BindingConfig>) {
    function Flat(): seq<Decl> {
      Flatten(es, qs, bs)
    }

    function Add(d: Decl): Cache {
      match d
      case OfExchange(e) => this.(es := es + [e])
      case OfQueue(q) => this.(qs := qs + [q])
      case OfBinding(b) => this.(bs := bs + [b])
    }
  }

  const NOTHING: Cache := Cache([], [], [])

  /** A restore, or a single declaration of a client; the next event of the actor carries it on. */
  datatype Actor =
    | Idle
    | Declaring(rest: seq<Decl>)   // about to send its first declaration, if there is one left
    | Caching(rest: seq<Decl>)     // its first declaration was accepted, about to append it to the cache
    | Finished
    | GaveUp(rest: seq<Decl>)      // a declaration failed
  {
    /** What the actor took or was asked to declare and has not put into the cache. */
    function Left(): seq<Decl> {
      if Idle? || Finished? then [] else rest
    }
  }

  datatype State = State(cache: Cache, broker: Broker, actors: seq<Actor>)

  datatype Event =
    | Snapshot(g: nat)               // copy the cache and truncate it
    | Declare(g: nat, d: Decl)       // a client declares; the queue type is in its arguments from the start
    | Step(g: nat, answers: bool)
    | BrokerBecomes(br: Broker)      // it loses or gains anything

  function Move(qt: QueueType, s: State, g: nat, answers: bool): State
    requires g < |s.actors|
  {
    match s.actors[g]
    case Declaring(rest) =>
      if rest == [] then s.(actors := s.actors[g := Finished])
      else if answers && Accepts(qt, s.broker, rest[0]) then
        s.(broker := Apply(qt, s.broker, rest[0]), actors := s.actors[g := Caching(rest)])
      else s.(actors := s.actors[g := GaveUp(rest)])
    case Caching(rest) =>
      if rest == [] then s
      else s.(cache := s.cache.Add(rest[0]), actors := s.actors[g := Declaring(rest[1..])])
    case _ => s
  }

  function Next(qt: QueueType, s: State, e: Event): State {
    match e
    case Snapshot(g) =>
      if g < |s.actors| && s.actors[g].Idle? then State(NOTHING, s.broker, s.actors[g := Declaring(s.cache.Flat())]) else s
    case Declare(g, d) =>
      if g < |s.actors| && s.actors[g].Idle? then s.(actors := s.actors[g := Declaring([CachedDecl(qt, d)])]) else s
    case Step(g, answers) => if g < |s.actors| then Move(qt, s, g, answers) else s
    case BrokerBecomes(br) => s.(broker := br)
  }

  function Run(qt: QueueType, s: State, evs: seq<Event>): State {
    if evs == [] then s else Next(qt, Run(qt, s, evs[..|evs| - 1]), evs[|evs| - 1])
  }

  // ---------------------------------------------------------------------------------------
  // Nothing is duplicated or forgotten

  ghost function Outstanding(actors: seq<Actor>): multiset<Decl> {
    if actors == [] then multiset{}
    else Outstanding(actors[..|actors| - 1]) + multiset(actors[|actors| - 1].Left())
  }

  lemma OutstandingSnoc(actors: seq<Actor>, a: Actor)
    ensures Outstanding(actors + [a]) == Outstanding(actors) + multiset(a.Left())
  {
    assert (actors + [a])[..|actors|] == actors;
  }

  lemma SwapLast<T>(o: multiset<T>, x: multiset<T>, y: multiset<T>)
    ensures (o + y) + x == (o + x) + y
  {
  }

  lemma SwapBefore<T>(o: multiset<T>, o': multiset<T>, x: multiset<T>, y: multiset<T>, z: multiset<T>)
    requires o' + x == o + y
    ensures (o' + z) + x == (o + z) + y
  {
    SwapLast(o', z, x);
    SwapLast(o, y, z);
  }

  /** A replacement changes the total by what leaves and enters the one hand. */
  lemma {:induction false} OutstandingUpdate(actors: seq<Actor>, g: nat, a: Actor)
    requires g < |actors|
    ensures Outstanding(actors[g := a]) + multiset(actors[g].Left()) == Outstanding(actors) + multiset(a.Left())
    decreases |actors|
  {
    var init, last := actors[..|actors| - 1], actors[|actors| - 1];
    assert actors == init + [last];
    OutstandingSnoc(init, last);
    if g == |init| {
      assert actors[g := a] == init + [a];
      OutstandingSnoc(init, a);
      SwapLast(Outstanding(init), multiset(last.Left()), multiset(a.Left()));
    } else {
      OutstandingUpdate(init, g, a);
      assert actors[g := a] == init[g := a] + [last];
      OutstandingSnoc(init[g := a], last);
      SwapBefore(Outstanding(init), Outstanding(init[g := a]), multiset(actors[g].Left()), multiset(a.Left()), multiset(last.Left()));
    }
  }

  lemma {:induction false} NothingOutstanding(actors: seq<Actor>)
    ensures Outstanding(actors) == multiset{} <==> forall g :: 0 <= g < |actors| ==> actors[g].Left() == []
  {
    if actors != [] {
      var init, a := actors[..|actors| - 1], actors[|actors| - 1];
      NothingOutstanding(init);
      if a.Left() != [] {
        assert a.Left()[0] in multiset(a.Left());
        assert a.Left()[0] in Outstanding(actors);
      } else {
        assert Outstanding(actors) == Outstanding(init);
        assert forall g :: 0 <= g < |init| ==> actors[g] == init[g];
      }
    }
  }

  lemma AddFlat(cache: Cache, d: Decl)
    ensures multiset(cache.Add(d).Flat()) == multiset(cache.Flat()) + multiset{d}
  {
    var es, qs, bs := cache.es, cache.qs, cache.bs;
    match d
    case OfExchange(e) => assert ExchangeDecls(es + [e]) == ExchangeDecls(es) + [d];
    case OfQueue(q) => assert QueueDecls(qs + [q]) == QueueDecls(qs) + [d];
    case OfBinding(b) => assert BindingDecls(bs + [b]) == BindingDecls(bs) + [d];
  }

  lemma AddMembers(cache: Cache, d: Decl)
    ensures forall c :: c in cache.Add(d).Flat() <==> c in cache.Flat() || c == d
  {
    AddFlat(cache, d);
    assert forall c :: c in cache.Add(d).Flat() <==> c in multiset(cache.Add(d).Flat());
    assert forall c :: c in cache.Flat() <==> c in multiset(cache.Flat());
  }

  /** What the event asks to declare anew. */
  ghost function Asked(qt: QueueType, s: State, e: Event): multiset<Decl> {
    if e.Declare? && e.g < |s.actors| && s.actors[e.g].Idle? then multiset{CachedDecl(qt, e.d)} else multiset{}
  }

  ghost function AllAsked(qt: QueueType, s: State, evs: seq<Event>): multiset<Decl> {
    if evs == [] then multiset{}
    else AllAsked(qt, s, evs[..|evs| - 1]) + Asked(qt, Run(qt, s, evs[..|evs| - 1]), evs[|evs| - 1])
  }

  ghost function Total(s: State): multiset<Decl> {
    multiset(s.cache.Flat()) + Outstanding(s.actors)
  }

  /** Actor g becomes a and the cache changes by what leaves or enters its hand. */
  lemma TotalUpdate(s: State, s': State, g: nat, a: Actor, asked: multiset<Decl>)
    requires g < |s.actors| && s'.actors == s.actors[g := a]
    requires multiset(s'.cache.Flat()) + multiset(a.Left()) == multiset(s.cache.Flat()) + multiset(s.actors[g].Left()) + asked
    ensures Total(s') == Total(s) + asked
  {
    OutstandingUpdate(s.actors, g, a);
    Balance(Outstanding(s.actors), Outstanding(s'.actors), multiset(s.actors[g].Left()), multiset(a.Left()),
            multiset(s.cache.Flat()), multiset(s'.cache.Flat()), asked);
  }

  lemma Balance<T>(o: multiset<T>, o': multiset<T>, x: multiset<T>, y: multiset<T>, c: multiset<T>, c': multiset<T>, asked: multiset<T>)
    requires o' + x == o + y && c' + y == c + x + asked
    ensures c' + o' == c + o + asked
  {
    forall d
      ensures (c' + o')[d] == (c + o + asked)[d]
    {
      assert (o' + x)[d] == (o + y)[d] && (c' + y)[d] == (c + x + asked)[d];
    }
  }

  lemma TotalCaching(s: State, s': State, g: nat)
    requires g < |s.actors| && s.actors[g].Caching? && s.actors[g].rest != []
    requires s'.cache == s.cache.Add(s.actors[g].rest[0]) && s'.actors == s.actors[g := Declaring(s.actors[g].rest[1..])]
    ensures Total(s') == Total(s)
  {
    var rest := s.actors[g].rest;
    AddFlat(s.cache, rest[0]);
    assert rest == [rest[0]] + rest[1..];
    assert multiset(rest) == multiset{rest[0]} + multiset(rest[1..]);
    TotalUpdate(s, s', g, Declaring(rest[1..]), multiset{});
  }

  lemma TotalMove(qt: QueueType, s: State, g: nat, answers: bool)
    requires g < |s.actors|
    ensures Total(Move(qt, s, g, answers)) == Total(s)
  {
    var s' := Move(qt, s, g, answers);
    if s.actors[g].Caching? && s.actors[g].rest != [] {
      TotalCaching(s, s', g);
    } else {
      assert s'.actors[g].Left() == s.actors[g].Left() && s'.cache == s.cache;
      TotalUpdate(s, s', g, s'.actors[g], multiset{});
    }
  }

  lemma TotalStep(qt: QueueType, s: State, e: Event)
    ensures Total(Next(qt, s, e)) == Total(s) + Asked(qt, s, e)
  {
    var s' := Next(qt, s, e);
    if e.Step? && e.g < |s.actors| {
      TotalMove(qt, s, e.g, e.answers);
    } else if !e.BrokerBecomes? && e.g < |s.actors| && s.actors[e.g].Idle? {
      assert NOTHING.Flat() == [];
      TotalUpdate(s, s', e.g, s'.actors[e.g], Asked(qt, s, e));
    }
  }

  ghost predicate AllIdle(s: State) {
    forall g :: 0 <= g < |s.actors| ==> s.actors[g].Idle?
  }

  /**
   Over every interleaving of any number of restores and declarations, with failures and a
   broker that changes at will: the cache and what the actors still have in hand, or had when
   they gave up, are exactly what was cached at first and what was declared since.
   */
  lemma {:induction false} CacheConservation(qt: QueueType, s: State, evs: seq<Event>)
    requires AllIdle(s)
    ensures Total(Run(qt, s, evs)) == multiset(s.cache.Flat()) + AllAsked(qt, s, evs)
  {
    if evs == [] {
      NothingOutstanding(s.actors);
    } else {
      CacheConservation(qt, s, evs[..|evs| - 1]);
      TotalStep(qt, Run(qt, s, evs[..|evs| - 1]), evs[|evs| - 1]);
    }
  }

  /** The cache is a rearrangement of it all exactly when no actor is under way or gave up with something in hand. */
  lemma CacheIsCompleteIff(qt: QueueType, s: State, evs: seq<Event>)
    requires AllIdle(s)
    ensures var s' := Run(qt, s, evs);
            multiset(s'.cache.Flat()) == multiset(s.cache.Flat()) + AllAsked(qt, s, evs) <==>
            forall g :: 0 <= g < |s'.actors| ==> s'.actors[g].Left() == []
  {
    var s' := Run(qt, s, evs);
    CacheConservation(qt, s, evs);
    NothingOutstanding(s'.actors);
    if multiset(s'.cache.Flat()) == Total(s') {
      assert Outstanding(s'.actors) == Total(s') - multiset(s'.cache.Flat());
    }
  }

  // ---------------------------------------------------------------------------------------
  // Every restore ends, at its first failure or with its last entry

  ghost function StepsLeft(a: Actor): nat {
    match a
    case Declaring(rest) => 2 * |rest| + 1
    case Caching(rest) => 2 * |rest|
    case _ => 0
  }

  /** A refused or unanswered declaration ends the restore at once; anything else brings it nearer to its end. */
  lemma StepIsProgress(qt: QueueType, s: State, g: nat, answers: bool)
    requires g < |s.actors| && StepsLeft(s.actors[g]) > 0
    ensures StepsLeft(Move(qt, s, g, answers).actors[g]) < StepsLeft(s.actors[g])
    ensures var a := s.actors[g];
            Move(qt, s, g, answers).actors[g].GaveUp? <==> a.Declaring? && a.rest != [] && !(answers && Accepts(qt, s.broker, a.rest[0]))
  {
  }

  ghost function StepsTaken(evs: seq<Event>, g: nat): nat {
    if evs == [] then 0
    else StepsTaken(evs[..|evs| - 1], g) + if evs[|evs| - 1].Step? && evs[|evs| - 1].g == g then 1 else 0
  }

  /** Once begun with n entries to declare, a restore is through or has given up after 2n + 1 of its own steps. */
  lemma {:induction false} RestoreEnds(qt: QueueType, s: State, evs: seq<Event>, g: nat)
    requires g < |s.actors| && s.actors[g].Declaring?
    ensures g < |Run(qt, s, evs).actors| && !Run(qt, s, evs).actors[g].Idle?
    ensures StepsLeft(Run(qt, s, evs).actors[g]) + StepsTaken(evs, g) <= 2 * |s.actors[g].rest| + 1 ||
            Run(qt, s, evs).actors[g].Finished? || Run(qt, s, evs).actors[g].GaveUp?
    ensures Run(qt, s, evs).actors[g].Caching? ==> Run(qt, s, evs).actors[g].rest != []
    ensures StepsTaken(evs, g) >= 2 * |s.actors[g].rest| + 1 ==>
              Run(qt, s, evs).actors[g].Finished? || Run(qt, s, evs).actors[g].GaveUp?
  {
    if evs != [] {
      var t, e := Run(qt, s, evs[..|evs| - 1]), evs[|evs| - 1];
      RestoreEnds(qt, s, evs[..|evs| - 1], g);
      if e.Step? && e.g == g && StepsLeft(t.actors[g]) > 0 {
        StepIsProgress(qt, t, g, e.answers);
      }
    }
  }

  // ---------------------------------------------------------------------------------------
  // Interleaved restores all succeed

  /** x can be replayed on br, a part of t, on the way to t. */
  ghost predicate Plan(qt: QueueType, br: Broker, t: Broker, x: seq<Decl>) {
    && Ordered(x)
    && (forall d :: d in x ==> Present(qt, t, d))
    && (forall b :: OfBinding(b) in x ==> EndpointsKnown(br, x, b))
  }

  lemma PlanHead(qt: QueueType, br: Broker, t: Broker, x: seq<Decl>)
    requires Plan(qt, br, t, x) && Within(br, t) && x != []
    ensures Accepts(qt, br, x[0]) && Within(Apply(qt, br, x[0]), t)
    ensures Within(br, Apply(qt, br, x[0])) && Present(qt, Apply(qt, br, x[0]), x[0])
  {
    assert x[0] in x;
    if x[0].OfBinding? {
      assert forall i :: 0 <= i < |x| ==> Kind(x[i]) >= Kind(x[0]);
      assert EndpointsKnown(br, x, x[0].b);
    }
    AcceptedStep(qt, br, x[0]);
  }

  /** Endpoints stay known when the broker grows and what is no longer declared holds. */
  lemma StillKnown(qt: QueueType, br: Broker, br': Broker, x: seq<Decl>, x': seq<Decl>, b: BindingConfig)
    requires EndpointsKnown(br, x, b) && Within(br, br')
    requires forall d :: d in x ==> d in x' || Present(qt, br', d)
    ensures EndpointsKnown(br', x', b)
  {
    if DeclaresQueue(x, b.queue) {
      var i :| 0 <= i < |x| && x[i].OfQueue? && x[i].q.name == b.queue;
      assert x[i] in x;
    }
    if DeclaresExchange(x, b.exchange) {
      var i :| 0 <= i < |x| && x[i].OfExchange? && x[i].e.name == b.exchange;
      assert x[i] in x;
    }
  }

  lemma PlanTail(qt: QueueType, br: Broker, t: Broker, x: seq<Decl>)
    requires Plan(qt, br, t, x) && x != [] && Present(qt, br, x[0])
    ensures Plan(qt, br, t, x[1..])
  {
    assert forall d :: d in x ==> d in x[1..] || d == x[0];
    forall b | OfBinding(b) in x[1..]
      ensures EndpointsKnown(br, x[1..], b)
    {
      StillKnown(qt, br, br, x, x[1..], b);
    }
  }

  lemma PlanGrows(qt: QueueType, br: Broker, br': Broker, t: Broker, x: seq<Decl>)
    requires Plan(qt, br, t, x) && Within(br, br')
    ensures Plan(qt, br', t, x)
  {
    forall b | OfBinding(b) in x
      ensures EndpointsKnown(br', x, b)
    {
      StillKnown(qt, br, br', x, x, b);
    }
  }

  lemma FlatOrdered(cache: Cache)
    ensures Ordered(cache.Flat())
  {
  }

  lemma PlanAdd(qt: QueueType, br: Broker, t: Broker, cache: Cache, d: Decl)
    requires Plan(qt, br, t, cache.Flat()) && Within(br, t) && Present(qt, br, d) && Accepts(qt, br, d)
    ensures Plan(qt, br, t, cache.Add(d).Flat())
  {
    var x, x' := cache.Flat(), cache.Add(d).Flat();
    AddMembers(cache, d);
    FlatOrdered(cache.Add(d));
    forall b | OfBinding(b) in x'
      ensures EndpointsKnown(br, x', b)
    {
      if OfBinding(b) != d {
        StillKnown(qt, br, br, x, x', b);
      }
    }
  }

  ghost predicate Started(s: State) {
    exists g :: 0 <= g < |s.actors| && !s.actors[g].Idle?
  }

  ghost predicate ActorInv(qt: QueueType, br: Broker, t: Broker, a: Actor) {
    && !a.GaveUp?
    && Plan(qt, br, t, a.Left())
    && (a.Caching? ==> a.rest != [] && Present(qt, br, a.rest[0]) && Accepts(qt, br, a.rest[0]))
  }

  /** On the way to t: everything in the cache or in hand can still be replayed, and the cache holds once a restore has begun. */
  ghost predicate RestoreInv(qt: QueueType, t: Broker, s: State) {
    && Within(s.broker, t)
    && Plan(qt, s.broker, t, s.cache.Flat())
    && (forall g :: 0 <= g < |s.actors| ==> ActorInv(qt, s.broker, t, s.actors[g]))
    && (Started(s) ==> forall d :: d in s.cache.Flat() ==> Present(qt, s.broker, d))
  }

  lemma ActorGrows(qt: QueueType, br: Broker, br': Broker, t: Broker, a: Actor)
    requires ActorInv(qt, br, t, a) && Within(br, br') && Within(br', t)
    ensures ActorInv(qt, br', t, a)
  {
    PlanGrows(qt, br, br', t, a.Left());
  }

  lemma ActorsGrow(qt: QueueType, br: Broker, br': Broker, t: Broker, actors: seq<Actor>)
    requires Within(br, br') && Within(br', t)
    requires forall g :: 0 <= g < |actors| ==> ActorInv(qt, br, t, actors[g])
    ensures forall g :: 0 <= g < |actors| ==> ActorInv(qt, br', t, actors[g])
  {
    forall g | 0 <= g < |actors|
      ensures ActorInv(qt, br', t, actors[g])
    {
      ActorGrows(qt, br, br', t, actors[g]);
    }
  }

  /** The restore's own events, answered by a working channel, on a broker that otherwise stays as it is. */
  ghost predicate Restoring(e: Event) {
    e.Snapshot? || (e.Step? && e.answers)
  }

  lemma SnapshotStep(qt: QueueType, t: Broker, s: State, g: nat)
    requires RestoreInv(qt, t, s) && g < |s.actors| && s.actors[g].Idle?
    ensures RestoreInv(qt, t, Next(qt, s, Snapshot(g)))
  {
    assert NOTHING.Flat() == [];
  }

  lemma DeclareStep(qt: QueueType, t: Broker, s: State, g: nat)
    requires RestoreInv(qt, t, s) && g < |s.actors| && s.actors[g].Declaring?
    ensures RestoreInv(qt, t, Move(qt, s, g, true))
  {
    var s', rest := Move(qt, s, g, true), s.actors[g].rest;
    assert Started(s);
    if rest != [] {
      PlanHead(qt, s.broker, t, rest);
      PlanGrows(qt, s.broker, s'.broker, t, s.cache.Flat());
      ActorsGrow(qt, s.broker, s'.broker, t, s.actors);
      assert ActorInv(qt, s'.broker, t, s'.actors[g]);
    }
  }

  lemma CacheStep(qt: QueueType, t: Broker, s: State, g: nat)
    requires RestoreInv(qt, t, s) && g < |s.actors| && s.actors[g].Caching?
    ensures RestoreInv(qt, t, Move(qt, s, g, true))
  {
    var s', rest := Move(qt, s, g, true), s.actors[g].rest;
    assert Started(s);
    PlanTail(qt, s.broker, t, rest);
    PlanAdd(qt, s.broker, t, s.cache, rest[0]);
    AddMembers(s.cache, rest[0]);
    assert ActorInv(qt, s.broker, t, s'.actors[g]);
  }

  lemma RestoreStep(qt: QueueType, t: Broker, s: State, e: Event)
    requires RestoreInv(qt, t, s) && Restoring(e)
    ensures RestoreInv(qt, t, Next(qt, s, e))
  {
    if e.g < |s.actors| {
      if e.Snapshot? && s.actors[e.g].Idle? {
        SnapshotStep(qt, t, s, e.g);
      } else if e.Step? && s.actors[e.g].Declaring? {
        DeclareStep(qt, t, s, e.g);
      } else if e.Step? && s.actors[e.g].Caching? {
        CacheStep(qt, t, s, e.g);
      }
    }
  }

  lemma {:induction false} RestoreRun(qt: QueueType, t: Broker, s: State, evs: seq<Event>)
    requires RestoreInv(qt, t, s) && forall i :: 0 <= i < |evs| ==> Restoring(evs[i])
    ensures RestoreInv(qt, t, Run(qt, s, evs)) && Within(s.broker, Run(qt, s, evs).broker)
    ensures AllAsked(qt, s, evs) == multiset{}
  {
    if evs != [] {
      var init := Run(qt, s, evs[..|evs| - 1]);
      RestoreRun(qt, t, s, evs[..|evs| - 1]);
      RestoreStep(qt, t, init, evs[|evs| - 1]);
      BrokerGrows(qt, t, init, evs[|evs| - 1]);
    }
  }

  lemma BrokerGrows(qt: QueueType, t: Broker, s: State, e: Event)
    requires RestoreInv(qt, t, s) && Restoring(e)
    ensures Within(s.broker, Next(qt, s, e).broker)
  {
    if e.Step? && e.g < |s.actors| && s.actors[e.g].Declaring? && s.actors[e.g].rest != [] {
      PlanHead(qt, s.broker, t, s.actors[e.g].rest);
    }
  }

  /** The cache, in whatever order, of a history accepted from builtIn, and a broker that lost part of the result. */
  ghost predicate AfterLoss(qt: QueueType, builtIn: Broker, history: seq<Decl>, s: State) {
    && AllIdle(s) && Named(history) && AcceptsAll(qt, builtIn, history)
    && multiset(s.cache.Flat()) == multiset(Grouped(qt, history))
    && Within(builtIn, s.broker) && Within(s.broker, ApplyAll(qt, builtIn, history))
  }

  lemma SameMembers<T>(x: seq<T>, y: seq<T>)
    requires multiset(x) == multiset(y)
    ensures forall d :: d in x <==> d in y
  {
    assert forall d :: d in x <==> d in multiset(x);
    assert forall d :: d in y <==> d in multiset(y);
  }

  lemma PresentInTarget(qt: QueueType, builtIn: Broker, history: seq<Decl>, d: Decl)
    requires AcceptsAll(qt, builtIn, history) && d in Grouped(qt, history)
    ensures Present(qt, ApplyAll(qt, builtIn, history), d)
  {
    AcceptedHistory(qt, builtIn, history);
    var i :| 0 <= i < |Grouped(qt, history)| && Grouped(qt, history)[i] == d;
    GroupedPresent(qt, ApplyAll(qt, builtIn, history), history, i);
  }

  lemma PlanOfCache(qt: QueueType, builtIn: Broker, history: seq<Decl>, t: Broker, br: Broker, x: seq<Decl>)
    requires AcceptsAll(qt, builtIn, history) && t == ApplyAll(qt, builtIn, history) && Within(builtIn, br)
    requires Ordered(x) && forall d :: d in x <==> d in Grouped(qt, history)
    ensures Plan(qt, br, t, x)
  {
    forall d | d in x
      ensures Present(qt, t, d)
    {
      PresentInTarget(qt, builtIn, history, d);
    }
    forall b | OfBinding(b) in x
      ensures EndpointsKnown(br, x, b)
    {
      EndpointsInCache(qt, builtIn, history, br, b);
      StillKnown(qt, br, br, Grouped(qt, history), x, b);
    }
  }

  lemma IdleInv(qt: QueueType, t: Broker, s: State)
    requires AllIdle(s) && Within(s.broker, t) && Plan(qt, s.broker, t, s.cache.Flat())
    ensures RestoreInv(qt, t, s)
  {
  }

  lemma PlanAtFirst(qt: QueueType, builtIn: Broker, history: seq<Decl>, t: Broker, s: State)
    requires AfterLoss(qt, builtIn, history, s) && t == ApplyAll(qt, builtIn, history)
    ensures RestoreInv(qt, t, s)
  {
    SameMembers(s.cache.Flat(), Grouped(qt, history));
    FlatOrdered(s.cache);
    PlanOfCache(qt, builtIn, history, t, s.broker, s.cache.Flat());
    IdleInv(qt, t, s);
  }

  lemma EndpointsInCache(qt: QueueType, builtIn: Broker, history: seq<Decl>, br: Broker, b: BindingConfig)
    requires AcceptsAll(qt, builtIn, history) && Within(builtIn, br) && OfBinding(b) in Grouped(qt, history)
    ensures EndpointsKnown(br, Grouped(qt, history), b)
  {
    var g := Grouped(qt, history);
    forall c | OfBinding(c) in history
      ensures EndpointsKnown(br, history, c)
    {
      AcceptedEndpoints(qt, builtIn, history, c);
    }
    var i :| 0 <= i < |g| && g[i] == OfBinding(b);
    GroupedEndpoints(qt, br, history, i);
    assert forall d :: d in g[..i] ==> d in g;
    StillKnown(qt, br, br, g[..i], g, b);
  }

  lemma CompleteBroker(qt: QueueType, builtIn: Broker, history: seq<Decl>, br: Broker)
    requires AcceptsAll(qt, builtIn, history) && Within(builtIn, br) && Within(br, ApplyAll(qt, builtIn, history))
    requires forall d :: d in Grouped(qt, history) ==> Present(qt, br, d)
    ensures br == ApplyAll(qt, builtIn, history)
  {
    AcceptedHistory(qt, builtIn, history);
    forall i | 0 <= i < |history|
      ensures Present(qt, br, history[i])
    {
      var k := DeclaredAgain(qt, history, i);
      assert Grouped(qt, history)[k] in Grouped(qt, history);
      if history[i].OfQueue? {
        CachedIsFixedPoint(qt, history[i].q);
      }
    }
    Reassemble(qt, builtIn, history, br, ApplyAll(qt, builtIn, history));
    UnionOfPart(builtIn, br, br);
  }

  ghost predicate AllAtRest(s: State) {
    forall g :: 0 <= g < |s.actors| ==> s.actors[g].Idle? || s.actors[g].Finished?
  }

  lemma WithinTrans(a: Broker, b: Broker, c: Broker)
    requires Within(a, b) && Within(b, c)
    ensures Within(a, c)
  {
  }

  lemma BrokerAtRest(qt: QueueType, builtIn: Broker, history: seq<Decl>, t: Broker, s: State)
    requires AcceptsAll(qt, builtIn, history) && t == ApplyAll(qt, builtIn, history)
    requires RestoreInv(qt, t, s) && Started(s) && Within(builtIn, s.broker)
    requires multiset(s.cache.Flat()) == multiset(Grouped(qt, history))
    ensures s.broker == t
  {
    SameMembers(s.cache.Flat(), Grouped(qt, history));
    CompleteBroker(qt, builtIn, history, s.broker);
  }

  lemma AtRestComplete(qt: QueueType, s: State, evs: seq<Event>)
    requires AllIdle(s) && AllAtRest(Run(qt, s, evs)) && AllAsked(qt, s, evs) == multiset{}
    ensures multiset(Run(qt, s, evs).cache.Flat()) == multiset(s.cache.Flat())
  {
    CacheIsCompleteIff(qt, s, evs);
  }

  lemma RestoresStayOnPlan(qt: QueueType, builtIn: Broker, history: seq<Decl>, t: Broker, s: State, evs: seq<Event>)
    requires AfterLoss(qt, builtIn, history, s) && t == ApplyAll(qt, builtIn, history)
    requires forall i :: 0 <= i < |evs| ==> Restoring(evs[i])
    ensures RestoreInv(qt, t, Run(qt, s, evs)) && Within(builtIn, Run(qt, s, evs).broker)
    ensures AllAsked(qt, s, evs) == multiset{}
  {
    PlanAtFirst(qt, builtIn, history, t, s);
    RestoreRun(qt, t, s, evs);
    WithinTrans(builtIn, s.broker, Run(qt, s, evs).broker);
  }

  lemma NobodyGaveUp(qt: QueueType, t: Broker, s: State)
    requires RestoreInv(qt, t, s)
    ensures forall g :: 0 <= g < |s.actors| ==> !s.actors[g].GaveUp?
  {
    assert forall g :: 0 <= g < |s.actors| ==> ActorInv(qt, s.broker, t, s.actors[g]);
  }

  /**
   Any number of restores at once, interleaved in any way, on a broker that lost any part of the
   topology and then stays up: none of them ever fails, and when they are through the broker
   is rebuilt to the letter and the cache is a rearrangement of what it was, kind by kind, so
   that the same holds after the next loss.
   */
  lemma InterleavedRestoresSucceed(qt: QueueType, builtIn: Broker, history: seq<Decl>, t: Broker, s: State, evs: seq<Event>)
    requires AfterLoss(qt, builtIn, history, s) && t == ApplyAll(qt, builtIn, history)
    requires forall i :: 0 <= i < |evs| ==> Restoring(evs[i])
    ensures forall g :: 0 <= g < |Run(qt, s, evs).actors| ==> !Run(qt, s, evs).actors[g].GaveUp?
    ensures AllAtRest(Run(qt, s, evs)) ==> multiset(Run(qt, s, evs).cache.Flat()) == multiset(s.cache.Flat())
    ensures AllAtRest(Run(qt, s, evs)) && Started(Run(qt, s, evs)) ==> Run(qt, s, evs).broker == t
  {
    RestoresStayOnPlan(qt, builtIn, history, t, s, evs);
    NobodyGaveUp(qt, t, Run(qt, s, evs));
    if AllAtRest(Run(qt, s, evs)) {
      AtRestComplete(qt, s, evs);
      if Started(Run(qt, s, evs)) {
        BrokerAtRest(qt, builtIn, history, t, Run(qt, s, evs));
      }
    }
  }

  // ---------------------------------------------------------------------------------------
  // The order may change

  lemma {:induction false} Then(qt: QueueType, s: State, evs: seq<Event>, t: State, e: Event, t': State)
    requires Run(qt, s, evs) == t && Next(qt, t, e) == t'
    ensures Run(qt, s, evs + [e]) == t'
  {
    assert (evs + [e])[..|evs + [e]| - 1] == evs;
  }

  ghost function Exchanging(cache: seq<ExchangeConfig>, broker: map<string, ExchangeAttrs>, a: Actor, b: Actor): State {
    State(Cache(cache, [], []), Broker(broker, map[], {}), [a, b])
  }

  /** The first restore has put e1 back when the second takes it. */
  ghost function SecondTakes(): seq<Event> {
    [Snapshot(0)] + [Step(0, true)] + [Step(0, true)] + [Snapshot(1)]
  }

  lemma {:induction false} SecondTakesOne(qt: QueueType, e1: ExchangeConfig, e2: ExchangeConfig)
    ensures Run(qt, Exchanging([e1, e2], map[], Idle, Idle), SecondTakes())
         == Exchanging([], map[e1.name := ExchangeAttrsOf(e1)], Declaring([OfExchange(e2)]), Declaring([OfExchange(e1)]))
  {
    var s, d1, d2 := Exchanging([e1, e2], map[], Idle, Idle), OfExchange(e1), OfExchange(e2);
    var b1, x := map[e1.name := ExchangeAttrsOf(e1)], Step(0, true);
    assert s.cache.Flat() == [d1, d2];
    assert Cache([e1], [], []).Flat() == [d1];
    assert [] + [Snapshot(0)] == [Snapshot(0)];
    Then(qt, s, [], s, Snapshot(0), Exchanging([], map[], Declaring([d1, d2]), Idle));
    Then(qt, s, [Snapshot(0)], Exchanging([], map[], Declaring([d1, d2]), Idle), x, Exchanging([], b1, Caching([d1, d2]), Idle));
    Then(qt, s, [Snapshot(0)] + [x], Exchanging([], b1, Caching([d1, d2]), Idle), x, Exchanging([e1], b1, Declaring([d2]), Idle));
    Then(qt, s, [Snapshot(0)] + [x] + [x], Exchanging([e1], b1, Declaring([d2]), Idle), Snapshot(1),
         Exchanging([], b1, Declaring([d2]), Declaring([d1])));
  }

  ghost function FirstFinishes(): seq<Event> {
    SecondTakes() + [Step(0, true)] + [Step(0, true)]
  }

  lemma {:induction false} FirstPutsBackOther(qt: QueueType, e1: ExchangeConfig, e2: ExchangeConfig)
    requires e1.name != e2.name
    ensures Run(qt, Exchanging([e1, e2], map[], Idle, Idle), FirstFinishes())
         == Exchanging([e2], map[e1.name := ExchangeAttrsOf(e1), e2.name := ExchangeAttrsOf(e2)], Declaring([]), Declaring([OfExchange(e1)]))
  {
    var s, d1, d2 := Exchanging([e1, e2], map[], Idle, Idle), OfExchange(e1), OfExchange(e2);
    var b1, b2 := map[e1.name := ExchangeAttrsOf(e1)], map[e1.name := ExchangeAttrsOf(e1), e2.name := ExchangeAttrsOf(e2)];
    var x, e := Step(0, true), SecondTakes();
    SecondTakesOne(qt, e1, e2);
    assert [d2][1..] == [] && [] + [e2] == [e2];
    Then(qt, s, e, Exchanging([], b1, Declaring([d2]), Declaring([d1])), x, Exchanging([], b2, Caching([d2]), Declaring([d1])));
    Then(qt, s, e + [x], Exchanging([], b2, Caching([d2]), Declaring([d1])), x, Exchanging([e2], b2, Declaring([]), Declaring([d1])));
  }

  /** Two restores that overlap can swap two exchanges: a single restore keeps the order, several keep only the contents. */
  lemma {:induction false} InterleavedRestoresReorder(qt: QueueType, e1: ExchangeConfig, e2: ExchangeConfig)
    requires e1.name != e2.name
    ensures var s := Run(qt, Exchanging([e1, e2], map[], Idle, Idle), FirstFinishes() + [Step(1, true)] + [Step(1, true)]);
            s.cache.es == [e2, e1] && s.actors == [Declaring([]), Declaring([])]
  {
    var s, d1 := Exchanging([e1, e2], map[], Idle, Idle), OfExchange(e1);
    var b := map[e1.name := ExchangeAttrsOf(e1), e2.name := ExchangeAttrsOf(e2)];
    var y, e := Step(1, true), FirstFinishes();
    FirstPutsBackOther(qt, e1, e2);
    assert b[e1.name := ExchangeAttrsOf(e1)] == b;
    assert [d1][1..] == [] && [e2] + [e1] == [e2, e1];
    Then(qt, s, e, Exchanging([e2], b, Declaring([]), Declaring([d1])), y, Exchanging([e2], b, Declaring([]), Caching([d1])));
    Then(qt, s, e + [y], Exchanging([e2], b, Declaring([]), Caching([d1])), y, Exchanging([e2, e1], b, Declaring([]), Declaring([])));
  }
}
