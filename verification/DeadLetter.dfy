/** Topic matching as in section 3.1.3.3 of AMQP 0-9-1: dot-separated words, * one word, # any number. */
module TopicMatching {
  function Words(s: string): (ws: seq<string>)
    ensures |ws| > 0
  {
    if s == "" then [""]
    else
      var rest := Words(s[1..]);
      if s[0] == '.' then [""] + rest else [[s[0]] + rest[0]] + rest[1..]
  }

  ghost function Join(ws: seq<string>): string
    requires |ws| > 0
  {
    if |ws| == 1 then ws[0] else ws[0] + "." + Join(ws[1..])
  }

  lemma {:induction false} JoinWords(s: string)
    ensures Join(Words(s)) == s
  {
    if s != "" {
      JoinWords(s[1..]);
      var rest := Words(s[1..]);
      assert Words(s)[1..] == if s[0] == '.' then rest else rest[1..];
    }
  }

  lemma WordsInjective(a: string, b: string)
    requires Words(a) == Words(b)
    ensures a == b
  {
    JoinWords(a);
    JoinWords(b);
  }

  lemma {:induction false} WordsOfPlain(s: string)
    requires '.' !in s
    ensures Words(s) == [s]
  {
    if s != "" {
      WordsOfPlain(s[1..]);
      assert s == [s[0]] + s[1..];
    }
  }

  lemma {:induction false} WordsAppend(a: string, b: string)
    ensures Words(a + "." + b) == Words(a) + Words(b)
  {
    var s := a + "." + b;
    if a == "" {
      assert s[1..] == b;
    } else {
      assert s[1..] == a[1..] + "." + b && s[0] == a[0];
      WordsAppend(a[1..], b);
    }
  }

  lemma AppendPlainWord(a: string, w: string)
    requires '.' !in w
    ensures Words(a + "." + w) == Words(a) + [w]
  {
    WordsAppend(a, w);
    WordsOfPlain(w);
  }

  predicate Literal(w: string) {
    w != "*" && w != "#"
  }

  predicate Matches(p: seq<string>, k: seq<string>)
    decreases |p| + |k|
  {
    if p == [] then k == []
    else if p[0] == "#" then Matches(p[1..], k) || (k != [] && Matches(p, k[1..]))
    else k != [] && (p[0] == "*" || p[0] == k[0]) && Matches(p[1..], k[1..])
  }

  /** A star stands for exactly one word. */
  lemma StarMatches(p: seq<string>, k: seq<string>)
    ensures Matches(["*"] + p, k) <==> k != [] && Matches(p, k[1..])
  {
    assert (["*"] + p)[1..] == p;
  }

  /** A hash stands for any number of words. */
  lemma {:induction false} HashMatches(p: seq<string>, k: seq<string>)
    ensures Matches(["#"] + p, k) <==> exists i :: 0 <= i <= |k| && Matches(p, k[i..])
  {
    assert (["#"] + p)[1..] == p && k[0..] == k;
    if k != [] {
      HashMatches(p, k[1..]);
      assert forall i :: 0 <= i <= |k[1..]| ==> k[1..][i..] == k[i + 1..];
      if Matches(["#"] + p, k[1..]) {
        var i :| 0 <= i <= |k[1..]| && Matches(p, k[1..][i..]);
        assert Matches(p, k[i + 1..]);
      }
      if i :| 0 < i <= |k| && Matches(p, k[i..]) {
        assert Matches(p, k[1..][i - 1..]);
      }
    }
  }

  lemma {:induction false} MatchesItself(p: seq<string>)
    ensures Matches(p, p)
  {
    if p != [] {
      MatchesItself(p[1..]);
      assert p[0] == "#" ==> Matches(p, p[1..]);
    }
  }

  lemma {:induction false} LiteralMatch(p: seq<string>, k: seq<string>)
    requires forall i :: 0 <= i < |p| ==> Literal(p[i])
    ensures Matches(p, k) <==> p == k
  {
    if p != [] && k != [] {
      LiteralMatch(p[1..], k[1..]);
      assert p == [p[0]] + p[1..] && k == [k[0]] + k[1..];
    }
  }

  /** A pattern that ends in a literal word matches only keys that end in it. */
  lemma {:induction false} LiteralLast(p: seq<string>, w: string, k: seq<string>)
    requires Literal(w) && Matches(p + [w], k)
    ensures k != [] && k[|k| - 1] == w && Matches(p, k[..|k| - 1])
    decreases |p| + |k|
  {
    if p == [] {
      assert Matches([w], k) && ([w])[1..] == [];
      assert k[1..] == [];
    } else {
      assert (p + [w])[1..] == p[1..] + [w];
      if p[0] == "#" && Matches(p[1..] + [w], k) {
        LiteralLast(p[1..], w, k);
      } else {
        if p[0] == "#" {
          LiteralLast(p, w, k[1..]);
        } else {
          LiteralLast(p[1..], w, k[1..]);
        }
        assert k[..|k| - 1][1..] == k[1..][..|k| - 2];
      }
    }
  }

  /** No name, wildcards or not, is matched by itself with a literal word appended. */
  lemma {:induction false} NeverMatchesShorter(p: seq<string>, w: string)
    requires Literal(w)
    ensures !Matches(p + [w], p)
  {
    if Matches(p + [w], p) {
      LiteralLast(p, w, p);
      var q := p[..|p| - 1];
      assert p == q + [w];
      NeverMatchesShorter(q, w);
    }
  }
}

/** What SetupDeadLetterExchange and SetupQueueWithDLX declare, and where dead letters then go. */
module DeadLetterRouting {
  import opened Wrappers
  import opened BrokerTopology
  import opened TopicMatching

  const RETRY: string := ".retry"
  const PARKING: string := "parking-lot"
  const DLX_ARG: string := "x-dead-letter-exchange"
  const DLX_KEY_ARG: string := "x-dead-letter-routing-key"

  function RetryQueue(main: string): string {
    main + RETRY
  }

  function ParkingQueue(main: string): string {
    main + "." + PARKING
  }

  function Dlx(name: string): Decl {
    OfExchange(ExchangeConfig(name, "topic", true, false, false, false, map[]))
  }

  function DurableQueue(name: string, args: Option<Args>): Decl {
    OfQueue(QueueConfig(name, true, false, false, false, args))
  }

  function Bound(queue: string, exchange: string, key: string): Decl {
    OfBinding(BindingConfig(queue, exchange, key, false, map[]))
  }

  function RetryArgs(main: string, ttl: int): Args {
    map["x-message-ttl" := Number(ttl), DLX_ARG := Text(""), DLX_KEY_ARG := Text(main)]
  }

  function MainArgs(qt: QueueType, main: string, dlx: string): Args {
    var args := map[DLX_ARG := Text(dlx), DLX_KEY_ARG := Text(main)];
    if qt.Quorum? then args["x-queue-type" := Text("quorum")] else args
  }

  /** SetupDeadLetterExchange, then SetupQueueWithDLX. */
  function Setup(qt: QueueType, main: string, dlx: string, ttl: int): seq<Decl> {
    [ Dlx(dlx),
      DurableQueue(RetryQueue(main), Some(RetryArgs(main, ttl))),
      Bound(RetryQueue(main), dlx, main),
      DurableQueue(ParkingQueue(main), None),
      Bound(ParkingQueue(main), dlx, ParkingQueue(main)),
      DurableQueue(main, Some(MainArgs(qt, main, dlx))) ]
  }

  function RetryBinding(main: string, dlx: string): Binding {
    Binding(RetryQueue(main), dlx, main, map[])
  }

  function ParkingBinding(main: string, dlx: string): Binding {
    Binding(ParkingQueue(main), dlx, ParkingQueue(main), map[])
  }

  /** The default exchange delivers to the queue of that name; a topic exchange to every matching binding. */
  ghost function Route(br: Broker, exchange: string, key: string): set<string> {
    if exchange == "" then (if key in br.queues then {key} else {})
    else set b | b in br.bindings && b.exchange == exchange && Matches(Words(b.routingKey), Words(key)) :: b.queue
  }

  /** Where the broker sends a message that dies in a queue, as the queue's arguments say. */
  ghost function DeadLetterTargets(br: Broker, queue: string): set<string> {
    if queue in br.queues
       && DLX_ARG in br.queues[queue].args && br.queues[queue].args[DLX_ARG].Text?
       && DLX_KEY_ARG in br.queues[queue].args && br.queues[queue].args[DLX_KEY_ARG].Text?
    then Route(br, br.queues[queue].args[DLX_ARG].s, br.queues[queue].args[DLX_KEY_ARG].s)
    else {}
  }

  lemma ParkingWords(main: string)
    ensures Words(ParkingQueue(main)) == Words(main) + [PARKING]
  {
    AppendPlainWord(main, PARKING);
  }

  ghost predicate HoldsSetup(qt: QueueType, br: Broker, main: string, dlx: string, ttl: int) {
    forall i :: 0 <= i < |Setup(qt, main, dlx, ttl)| ==> Present(qt, br, Setup(qt, main, dlx, ttl)[i])
  }

  /** With the setup in place the queues carry the dead-letter arguments the code gave them. */
  lemma SetupArgs(qt: QueueType, br: Broker, main: string, dlx: string, ttl: int)
    requires HoldsSetup(qt, br, main, dlx, ttl)
    ensures DeadLetterTargets(br, main) == Route(br, dlx, main)
    ensures DeadLetterTargets(br, RetryQueue(main)) == {main}
    ensures RetryBinding(main, dlx) in br.bindings && ParkingBinding(main, dlx) in br.bindings
    ensures main in br.queues && DLX_ARG in br.queues[main].args
    ensures ParkingQueue(main) in br.queues && DLX_ARG !in br.queues[ParkingQueue(main)].args
  {
    var ds := Setup(qt, main, dlx, ttl);
    assert Present(qt, br, ds[1]) && Present(qt, br, ds[2]) && Present(qt, br, ds[3]);
    assert Present(qt, br, ds[4]) && Present(qt, br, ds[5]);
  }

  ghost function Typed(qt: QueueType, args: Args): Args {
    if qt.Quorum? then args["x-queue-type" := Text("quorum")] else args
  }

  ghost function Durable(args: Args): QueueAttrs {
    QueueAttrs(true, false, false, args)
  }

  /** What the setup leaves on the broker, to the letter. */
  lemma SetupAttributes(qt: QueueType, br: Broker, main: string, dlx: string, ttl: int)
    requires HoldsSetup(qt, br, main, dlx, ttl)
    ensures dlx in br.exchanges && br.exchanges[dlx] == ExchangeAttrs("topic", true, false, false, map[])
    ensures main + ".retry" in br.queues && br.queues[main + ".retry"] == Durable(Typed(qt,
              map["x-message-ttl" := Number(ttl), "x-dead-letter-exchange" := Text(""), "x-dead-letter-routing-key" := Text(main)]))
    ensures main + ".parking-lot" in br.queues && br.queues[main + ".parking-lot"] == Durable(Typed(qt, map[]))
    ensures main in br.queues && br.queues[main] == Durable(Typed(qt,
              map["x-dead-letter-exchange" := Text(dlx), "x-dead-letter-routing-key" := Text(main)]))
    ensures Binding(main + ".retry", dlx, main, map[]) in br.bindings
    ensures Binding(main + ".parking-lot", dlx, main + ".parking-lot", map[]) in br.bindings
  {
    var ds := Setup(qt, main, dlx, ttl);
    assert Present(qt, br, ds[0]) && Present(qt, br, ds[1]) && Present(qt, br, ds[2]);
    assert Present(qt, br, ds[3]) && Present(qt, br, ds[4]) && Present(qt, br, ds[5]);
    assert ParkingQueue(main) == main + ".parking-lot";
  }

  /** The main queues set up on one DLX, and no other binding on it. */
  ghost predicate SharedBy(qt: QueueType, br: Broker, names: map<string, int>, dlx: string) {
    && dlx != ""
    && (forall m :: m in names ==> HoldsSetup(qt, br, m, dlx, names[m]))
    && (forall b :: b in br.bindings && b.exchange == dlx ==>
          exists m :: m in names && (b == RetryBinding(m, dlx) || b == ParkingBinding(m, dlx)))
  }

  /** The binding of x's retry queue, or of its parking lot, catches a dead letter of main. */
  predicate Catches(x: string, main: string) {
    Matches(Words(x), Words(main)) || Matches(Words(ParkingQueue(x)), Words(main))
  }

  lemma QueueNamesDiffer(x: string, main: string)
    ensures RetryQueue(x) == RetryQueue(main) ==> x == main
    ensures ParkingQueue(x) != RetryQueue(main)
  {
    if RetryQueue(x) == RetryQueue(main) {
      assert x == RetryQueue(x)[..|RetryQueue(x)| - |RETRY|] && main == RetryQueue(main)[..|RetryQueue(main)| - |RETRY|];
    }
    assert ParkingQueue(x)[|ParkingQueue(x)| - 1] == 't';
    assert RetryQueue(main)[|RetryQueue(main)| - 1] == 'y';
  }

  lemma OwnParkingLotNeverCatches(main: string)
    ensures Matches(Words(main), Words(main)) && !Matches(Words(ParkingQueue(main)), Words(main))
  {
    ParkingWords(main);
    NeverMatchesShorter(Words(main), PARKING);
    MatchesItself(Words(main));
  }

  lemma CaughtBySibling(qt: QueueType, br: Broker, names: map<string, int>, dlx: string, main: string, x: string)
    requires SharedBy(qt, br, names, dlx) && x in names && x != main && Catches(x, main)
    ensures Route(br, dlx, main) != {RetryQueue(main)}
  {
    SetupArgs(qt, br, x, dlx, names[x]);
    QueueNamesDiffer(x, main);
    assert RetryBinding(x, dlx).queue in Route(br, dlx, main) || ParkingBinding(x, dlx).queue in Route(br, dlx, main);
  }

  lemma CaughtByNobodyElse(qt: QueueType, br: Broker, names: map<string, int>, dlx: string, main: string, q: string)
    requires SharedBy(qt, br, names, dlx) && q in Route(br, dlx, main)
    requires forall x :: x in names && x != main ==> !Catches(x, main)
    ensures q == RetryQueue(main)
  {
    OwnParkingLotNeverCatches(main);
    var b :| b in br.bindings && b.exchange == dlx && Matches(Words(b.routingKey), Words(main)) && b.queue == q;
    var x :| x in names && (b == RetryBinding(x, dlx) || b == ParkingBinding(x, dlx));
    assert Catches(x, main);
  }

  /** On a shared DLX what dies in a main queue goes to its own retry queue only, exactly when no sibling's binding catches it. */
  lemma RetryOnlyIff(qt: QueueType, br: Broker, names: map<string, int>, dlx: string, main: string)
    requires SharedBy(qt, br, names, dlx) && main in names
    ensures DeadLetterTargets(br, main) == {RetryQueue(main)} <==>
            forall x :: x in names && x != main ==> !Catches(x, main)
  {
    SetupArgs(qt, br, main, dlx, names[main]);
    if x :| x in names && x != main && Catches(x, main) {
      CaughtBySibling(qt, br, names, dlx, main, x);
    } else {
      OwnParkingLotNeverCatches(main);
      assert RetryBinding(main, dlx).queue in Route(br, dlx, main);
      forall q | q in Route(br, dlx, main)
        ensures q == RetryQueue(main)
      {
        CaughtByNobodyElse(qt, br, names, dlx, main, q);
      }
    }
  }

  /**
   A main queue alone on its DLX, whatever its name: what dies in it goes to its retry queue
   only, what expires there goes back to it only, and nothing reaches the parking lot.
   */
  lemma DeadLettersCycle(qt: QueueType, br: Broker, main: string, dlx: string, ttl: int)
    requires SharedBy(qt, br, map[main := ttl], dlx)
    ensures DeadLetterTargets(br, main) == {RetryQueue(main)}
    ensures DeadLetterTargets(br, RetryQueue(main)) == {main} && Route(br, "", main) == {main}
  {
    assert main in map[main := ttl];
    RetryOnlyIff(qt, br, map[main := ttl], dlx, main);
    SetupArgs(qt, br, main, dlx, ttl);
  }

  /** A sibling named with a star or a hash catches the dead letters of others. */
  lemma WildcardSiblingsCatch(main: string)
    ensures Catches("#", main) && ('.' !in main ==> Catches("*", main))
  {
    WordsOfPlain("#");
    WordsOfPlain("*");
    var k := Words(main);
    assert ["#"] == ["#"] + [] && ["*"] == ["*"] + [] && k[|k|..] == [];
    HashMatches([], k);
    StarMatches([], k);
    assert Matches([], k[|k|..]);
    if '.' !in main {
      WordsOfPlain(main);
    }
  }

  ghost predicate WildcardFree(name: string) {
    forall i :: 0 <= i < |Words(name)| ==> Literal(Words(name)[i])
  }

  /** Any number of wildcard-free main queues may share a DLX: none catches another's dead letters. */
  lemma SharedDeadLettersCycle(qt: QueueType, br: Broker, names: map<string, int>, dlx: string, main: string)
    requires SharedBy(qt, br, names, dlx) && main in names
    requires forall m :: m in names ==> WildcardFree(m)
    ensures DeadLetterTargets(br, main) == {RetryQueue(main)}
    ensures DeadLetterTargets(br, RetryQueue(main)) == {main}
  {
    SetupArgs(qt, br, main, dlx, names[main]);
    forall x | x in names && x != main
      ensures !Catches(x, main)
    {
      SetupArgs(qt, br, x, dlx, names[x]);
      ParkingWords(x);
      LiteralMatch(Words(x), Words(main));
      LiteralMatch(Words(ParkingQueue(x)), Words(main));
      if Words(x) == Words(main) {
        WordsInjective(x, main);
      }
      if Words(ParkingQueue(x)) == Words(main) {
        WordsInjective(ParkingQueue(x), main);
      }
    }
    RetryOnlyIff(qt, br, names, dlx, main);
  }

  /** The declarations of a history that bind to the DLX are those of the setup. */
  ghost predicate BindsOnly(ds: seq<Decl>, main: string, dlx: string) {
    forall i :: 0 <= i < |ds| && ds[i].OfBinding? ==>
      BindingOf(ds[i].b) == RetryBinding(main, dlx) || BindingOf(ds[i].b) == ParkingBinding(main, dlx)
  }

  lemma AcceptedSetup(qt: QueueType, br0: Broker, ds: seq<Decl>, main: string, dlx: string)
    requires AcceptsAll(qt, br0, ds) && BindsOnly(ds, main, dlx)
    requires forall b :: b in br0.bindings ==> b.exchange != dlx
    ensures forall i :: 0 <= i < |ds| ==> Present(qt, ApplyAll(qt, br0, ds), ds[i])
    ensures forall b :: b in ApplyAll(qt, br0, ds).bindings && b.exchange == dlx ==>
              b == RetryBinding(main, dlx) || b == ParkingBinding(main, dlx)
  {
    AcceptedHistory(qt, br0, ds);
    forall b | b in ApplyAll(qt, br0, ds).bindings && b.exchange == dlx
      ensures b == RetryBinding(main, dlx) || b == ParkingBinding(main, dlx)
    {
      assert DeclaresBinding(ds, b);
    }
  }

  /** Once the setup has run on a broker with nothing bound to the DLX, dead letters cycle. */
  lemma SetupMakesCycle(qt: QueueType, br0: Broker, main: string, dlx: string, ttl: int)
    requires dlx != "" && AcceptsAll(qt, br0, Setup(qt, main, dlx, ttl))
    requires forall b :: b in br0.bindings ==> b.exchange != dlx
    ensures SharedBy(qt, ApplyAll(qt, br0, Setup(qt, main, dlx, ttl)), map[main := ttl], dlx)
  {
    SetupBindsOnly(qt, main, dlx, ttl);
    AcceptedSetup(qt, br0, Setup(qt, main, dlx, ttl), main, dlx);
    SharedByOne(qt, ApplyAll(qt, br0, Setup(qt, main, dlx, ttl)), main, dlx, ttl);
  }

  lemma SetupBindsOnly(qt: QueueType, main: string, dlx: string, ttl: int)
    ensures BindsOnly(Setup(qt, main, dlx, ttl), main, dlx)
  {
  }

  lemma SharedByOne(qt: QueueType, br: Broker, main: string, dlx: string, ttl: int)
    requires dlx != "" && HoldsSetup(qt, br, main, dlx, ttl)
    requires forall b :: b in br.bindings && b.exchange == dlx ==> b == RetryBinding(main, dlx) || b == ParkingBinding(main, dlx)
    ensures SharedBy(qt, br, map[main := ttl], dlx)
  {
  }
}

/** SetupDeadLetterExchange and SetupQueueWithDLX on a manager. */
module DeadLetterSetup {
  import opened BrokerTopology
  import opened TopologyManager
  import opened DeadLetterRouting

  /**
   Declare in order until something fails: what was declared, here and on the broker, is a
   prefix of the setup.  All of it on a free exchange leaves dead letters cycling.
   */
  method SetupDeadLetters(manager: Manager, main: string, dlx: string, ttl: int, answers: nat -> bool, ghost before: seq<Decl>)
    returns (ok: bool, n: nat)
    requires manager.CachesHistory(before)
    modifies manager.Repr()
    ensures n <= |Setup(manager.queueType, main, dlx, ttl)| && (ok <==> n == |Setup(manager.queueType, main, dlx, ttl)|)
    ensures manager.CachesHistory(before + Setup(manager.queueType, main, dlx, ttl)[..n])
    ensures manager.Replayed(old(manager.broker), Setup(manager.queueType, main, dlx, ttl)[..n])
    ensures !ok ==> !answers(n) || !Accepts(manager.queueType, manager.broker, Setup(manager.queueType, main, dlx, ttl)[n])
    ensures ok && dlx != "" && (forall b :: b in old(manager.broker).bindings ==> b.exchange != dlx) ==>
              && DeadLetterTargets(manager.broker, main) == {RetryQueue(main)}
              && DeadLetterTargets(manager.broker, RetryQueue(main)) == {main}
  {
    var ds := Setup(manager.queueType, main, dlx, ttl);
    ok, n := manager.DeclareAll(ds, answers, before);
    if ok {
      assert ds[..n] == ds;
      if dlx != "" && (forall b :: b in old(manager.broker).bindings ==> b.exchange != dlx) {
        SetupMakesCycle(manager.queueType, old(manager.broker), main, dlx, ttl);
        DeadLettersCycle(manager.queueType, manager.broker, main, dlx, ttl);
      }
    }
  }
}

/** The life of messages published to a main queue and consumed with manual acknowledgement. */
module MessageLifecycle {
  import opened BrokerTopology
  import opened DeadLetterRouting

  datatype Action = Ack | Requeue | Reject

  /** processDelivery without automatic acknowledgement; retryCount is the length of x-death. */
  function Settle(decodes: bool, handled: bool, retryCount: nat, maxRetries: int): Action {
    if !decodes then Reject
    else if handled then Ack
    else if retryCount >= maxRetries then Reject
    else Requeue
  }

  datatype Place = InQueue(name: string) | AtConsumer | Acked

  datatype Event =
    | Publish(m: nat)
    | Deliver(m: nat)
    | Process(m: nat, decodes: bool, handled: bool, retryCount: nat)
    | Expire(m: nat)       // the retry queue's message TTL
    | Redeliver(m: nat)    // the consumer's channel closed before it settled the message

  /** The copies of each message published so far. */
  type Copies = map<nat, multiset<Place>>

  ghost function InQueues(names: set<string>): multiset<Place> {
    multiset(set q | q in names :: InQueue(q))
  }

  /** One copy of m leaves a place for others, if it is there. */
  ghost function Shift(w: Copies, m: nat, from: Place, to: multiset<Place>): Copies {
    if m in w && from in w[m] then w[m := w[m] - multiset{from} + to] else w
  }

  ghost function Next(br: Broker, main: string, maxRetries: int, w: Copies, e: Event): Copies {
    match e
    case Publish(m) => if m in w then w else w[m := InQueues(Route(br, "", main))]
    case Deliver(m) => Shift(w, m, InQueue(main), multiset{AtConsumer})
    case Process(m, decodes, handled, retryCount) =>
      Shift(w, m, AtConsumer, match Settle(decodes, handled, retryCount, maxRetries)
                              case Ack => multiset{Acked}
                              case Requeue => multiset{InQueue(main)}
                              case Reject => InQueues(DeadLetterTargets(br, main)))
    case Expire(m) => Shift(w, m, InQueue(RetryQueue(main)), InQueues(DeadLetterTargets(br, RetryQueue(main))))
    case Redeliver(m) => Shift(w, m, AtConsumer, multiset{InQueue(main)})
  }

  ghost function Run(br: Broker, main: string, maxRetries: int, evs: seq<Event>): Copies {
    if evs == [] then map[] else Next(br, main, maxRetries, Run(br, main, maxRetries, evs[..|evs| - 1]), evs[|evs| - 1])
  }

  /** Exactly one copy, in the main queue, at the consumer, in the retry queue, or acknowledged. */
  ghost predicate OneCopy(main: string, copies: multiset<Place>) {
    || copies == multiset{InQueue(main)} || copies == multiset{AtConsumer}
    || copies == multiset{InQueue(RetryQueue(main))} || copies == multiset{Acked}
  }

  lemma InOneQueue(q: string)
    ensures InQueues({q}) == multiset{InQueue(q)}
  {
  }

  lemma Replace(from: Place, to: multiset<Place>)
    ensures multiset{from} - multiset{from} + to == to
  {
  }

  /** The broker routes as the setup declares. */
  ghost predicate Cycles(br: Broker, main: string) {
    && Route(br, "", main) == {main}
    && DeadLetterTargets(br, main) == {RetryQueue(main)}
    && DeadLetterTargets(br, RetryQueue(main)) == {main}
  }

  // ---------------------------------------------------------------------------------------
  // The journey of one message

  datatype Stage = Unpublished | Queued | Delivered | Waiting | Finished

  /** Where an event takes a message on its own: the life the documentation describes, without the parking lot. */
  ghost function Onward(maxRetries: int, stage: Stage, e: Event): Stage {
    if stage.Unpublished? && e.Publish? then Queued
    else if stage.Queued? && e.Deliver? then Delivered
    else if stage.Waiting? && e.Expire? then Queued
    else if stage.Delivered? && e.Redeliver? then Queued
    else if stage.Delivered? && e.Process? then
      if e.decodes && e.handled then Finished
      else if e.decodes && e.retryCount < maxRetries then Queued
      else Waiting
    else stage
  }

  ghost function Journey(maxRetries: int, evs: seq<Event>, m: nat): Stage {
    if evs == [] then Unpublished
    else
      var stage, e := Journey(maxRetries, evs[..|evs| - 1], m), evs[|evs| - 1];
      if e.m == m then Onward(maxRetries, stage, e) else stage
  }

  ghost function PlaceOf(main: string, stage: Stage): Place {
    match stage
    case Delivered => AtConsumer
    case Finished => Acked
    case Waiting => InQueue(RetryQueue(main))
    case _ => InQueue(main)
  }

  ghost predicate IsAt(main: string, w: Copies, m: nat, stage: Stage) {
    && (m in w <==> !stage.Unpublished?)
    && (m in w ==> w[m] == multiset{PlaceOf(main, stage)})
  }

  lemma PlacesDiffer(main: string)
    ensures InQueue(RetryQueue(main)) != InQueue(main)
  {
    assert |RetryQueue(main)| > |main|;
  }

  lemma ShiftAt(main: string, w: Copies, m: nat, stage: Stage, x: nat, from: Place, to: Place)
    requires IsAt(main, w, m, stage)
    ensures var w' := Shift(w, x, from, multiset{to});
            && (m in w' <==> m in w)
            && (m in w ==> w'[m] == multiset{if x == m && PlaceOf(main, stage) == from then to else PlaceOf(main, stage)})
  {
    Replace(from, multiset{to});
  }

  /** Where the one copy that an event moves comes from and goes to. */
  ghost function From(main: string, e: Event): Place {
    match e
    case Deliver(_) => InQueue(main)
    case Expire(_) => InQueue(RetryQueue(main))
    case _ => AtConsumer
  }

  ghost function To(main: string, maxRetries: int, e: Event): Place {
    match e
    case Deliver(_) => AtConsumer
    case Process(_, decodes, handled, retryCount) =>
      (match Settle(decodes, handled, retryCount, maxRetries)
       case Ack => Acked
       case Requeue => InQueue(main)
       case Reject => InQueue(RetryQueue(main)))
    case _ => InQueue(main)
  }

  lemma MovesOneCopy(br: Broker, main: string, maxRetries: int, w: Copies, e: Event)
    requires Cycles(br, main)
    ensures e.Publish? ==> Next(br, main, maxRetries, w, e) == if e.m in w then w else w[e.m := multiset{InQueue(main)}]
    ensures !e.Publish? ==> Next(br, main, maxRetries, w, e) == Shift(w, e.m, From(main, e), multiset{To(main, maxRetries, e)})
  {
    match e
    case Publish(_) => InOneQueue(main);
    case Expire(_) => InOneQueue(main);
    case Process(_, _, _, _) => InOneQueue(RetryQueue(main));
    case _ =>
  }

  lemma OnwardPlace(main: string, maxRetries: int, stage: Stage, e: Event)
    requires !stage.Unpublished? && !e.Publish?
    ensures PlaceOf(main, Onward(maxRetries, stage, e)) ==
            if PlaceOf(main, stage) == From(main, e) then To(main, maxRetries, e) else PlaceOf(main, stage)
    ensures !Onward(maxRetries, stage, e).Unpublished?
  {
    PlacesDiffer(main);
  }

  lemma JourneyStep(br: Broker, main: string, maxRetries: int, w: Copies, m: nat, stage: Stage, e: Event)
    requires Cycles(br, main) && IsAt(main, w, m, stage)
    ensures IsAt(main, Next(br, main, maxRetries, w, e), m, if e.m == m then Onward(maxRetries, stage, e) else stage)
  {
    MovesOneCopy(br, main, maxRetries, w, e);
    if !e.Publish? {
      ShiftAt(main, w, m, stage, e.m, From(main, e), To(main, maxRetries, e));
      if !stage.Unpublished? {
        OnwardPlace(main, maxRetries, stage, e);
      }
    }
  }

  /** With all its copies, queues and routing the broker takes each message exactly along its journey. */
  lemma {:induction false} FollowsItsJourney(br: Broker, main: string, maxRetries: int, evs: seq<Event>, m: nat)
    requires Cycles(br, main)
    ensures IsAt(main, Run(br, main, maxRetries, evs), m, Journey(maxRetries, evs, m))
  {
    if evs != [] {
      FollowsItsJourney(br, main, maxRetries, evs[..|evs| - 1], m);
      JourneyStep(br, main, maxRetries, Run(br, main, maxRetries, evs[..|evs| - 1]), m, Journey(maxRetries, evs[..|evs| - 1], m), evs[|evs| - 1]);
    }
  }

  lemma NeverParked(main: string, stage: Stage)
    ensures OneCopy(main, multiset{PlaceOf(main, stage)}) && InQueue(ParkingQueue(main)) !in multiset{PlaceOf(main, stage)}
  {
    QueueNamesDiffer(main, main);
    assert |ParkingQueue(main)| > |main|;
  }

  lemma {:induction false} JourneyBegins(maxRetries: int, evs: seq<Event>, m: nat)
    ensures Journey(maxRetries, evs, m).Unpublished? <==> Publish(m) !in evs
  {
    if evs != [] {
      JourneyBegins(maxRetries, evs[..|evs| - 1], m);
      assert evs == evs[..|evs| - 1] + [evs[|evs| - 1]];
    }
  }

  /**
   In every run every message published is in exactly one of the main queue, the consumer, the
   retry queue and acknowledged: none is lost or doubled, and none ever reaches the parking
   lot, however often its handler has failed.
   */
  lemma NoMessageLostOrParked(qt: QueueType, br: Broker, main: string, dlx: string, ttl: int, maxRetries: int, evs: seq<Event>, m: nat)
    requires SharedBy(qt, br, map[main := ttl], dlx)
    ensures var w := Run(br, main, maxRetries, evs);
            && (m in w <==> Publish(m) in evs)
            && (m in w ==> OneCopy(main, w[m]) && InQueue(ParkingQueue(main)) !in w[m])
  {
    DeadLettersCycle(qt, br, main, dlx, ttl);
    FollowsItsJourney(br, main, maxRetries, evs, m);
    JourneyBegins(maxRetries, evs, m);
    NeverParked(main, Journey(maxRetries, evs, m));
  }

  /** Event i is the processing of a delivery of m, then at the consumer, that decodes and whose handler succeeds. */
  ghost predicate HandledAt(maxRetries: int, evs: seq<Event>, m: nat, i: nat) {
    && i < |evs| && evs[i].Process? && evs[i].m == m && evs[i].decodes && evs[i].handled
    && Journey(maxRetries, evs[..i], m).Delivered?
  }

  lemma {:induction false} FinishedIffHandled(maxRetries: int, evs: seq<Event>, m: nat)
    ensures Journey(maxRetries, evs, m).Finished? <==> exists i :: HandledAt(maxRetries, evs, m, i)
  {
    if evs != [] {
      var init := evs[..|evs| - 1];
      FinishedIffHandled(maxRetries, init, m);
      assert forall i :: 0 <= i < |init| ==> init[..i] == evs[..i];
      assert forall i :: 0 <= i < |init| ==> HandledAt(maxRetries, init, m, i) == HandledAt(maxRetries, evs, m, i);
      if Journey(maxRetries, init, m).Delivered? && Journey(maxRetries, evs, m).Finished? {
        assert HandledAt(maxRetries, evs, m, |init|);
      }
    }
  }

  /** In every run a message is acknowledged exactly if a delivery of it at the consumer decoded and was handled. */
  lemma AckedIffHandled(br: Broker, main: string, maxRetries: int, evs: seq<Event>, m: nat)
    requires Cycles(br, main)
    ensures m in Run(br, main, maxRetries, evs) && Acked in Run(br, main, maxRetries, evs)[m] <==>
            exists i :: HandledAt(maxRetries, evs, m, i)
  {
    FollowsItsJourney(br, main, maxRetries, evs, m);
    FinishedIffHandled(maxRetries, evs, m);
  }

  /**
   A delivery that is not acknowledged: one that decodes and has retries left goes back to the
   main queue at once, any other waits in the retry queue, and never in the parking lot.
   */
  lemma UnhandledGoesTo(br: Broker, main: string, maxRetries: int, w: Copies, m: nat, decodes: bool, handled: bool, retryCount: nat)
    requires Cycles(br, main) && m in w && w[m] == multiset{AtConsumer} && !(decodes && handled)
    ensures Next(br, main, maxRetries, w, Process(m, decodes, handled, retryCount))[m] ==
            multiset{InQueue(if decodes && retryCount < maxRetries then main else RetryQueue(main))}
  {
    InOneQueue(RetryQueue(main));
    Replace(AtConsumer, multiset{InQueue(if decodes && retryCount < maxRetries then main else RetryQueue(main))});
  }
}
