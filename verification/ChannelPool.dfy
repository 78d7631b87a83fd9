/** The pool's bounded buffer and the openness of its channels, as values. */
module PoolValue {
  /** A channel of a connection; closing the connection closes it. */
  datatype Chan = Chan(conn: nat, serial: nat)

  datatype Pool = Pool(size: nat, buffer: seq<Chan>, open: set<Chan>) {
    function Close(ch: Chan): Pool {
      this.(open := open - {ch})
    }

    predicate Full() {
      |buffer| >= size
    }

    function Send(ch: Chan): Pool {
      this.(buffer := buffer + [ch])
    }

    /** Receive from the buffer. */
    function Tail(): Pool
      requires buffer != []
    {
      this.(buffer := buffer[1..])
    }

    /** returnCh: a closed channel is dropped, one too many is closed. */
    function Return(ch: Chan): Pool {
      if ch !in open then this
      else if Full() then Close(ch)
      else Send(ch)
    }

    /** One turn of drain. */
    function DrainOne(): Pool
      requires buffer != []
    {
      Tail().Close(buffer[0])
    }
  }
}

/**
 Ownership of channels in every interleaving of publishers, fillers and drainers before the
 pool is closed.  One event is one operation on the buffer, the connection or a channel.
 */
module PoolOwnership {
  import opened PoolValue

  /** What an actor is doing; the next event of the actor carries it on. */
  datatype Actor =
    | Idle
    | Filling(made: nat)                  // fill, about to open its next channel
    | Confirming(made: nat, ch: Chan)     // fill, new channel about to enter confirm mode if it must
    | Offering(made: nat, ch: Chan)       // fill, sending the new channel to the buffer
    | Draining
    | Borrowing(retried: bool)            // PublishMessage, about to read the connection state
    | AwaitingRetry                       // PublishMessage, not connected the first time
    | Receiving                           // PublishMessage, connected, about to receive a channel
    | Publishing(ch: Chan)                // PublishMessage, channel borrowed, return deferred
  {
    predicate Holds(c: Chan) {
      (Confirming? || Offering? || Publishing?) && ch == c
    }

    predicate InFill() {
      Filling? || Confirming? || Offering?
    }

    predicate EmptyHanded() {
      !Confirming? && !Offering? && !Publishing?
    }
  }

  datatype Start = Fill | Drain | Publish

  /** The environment's part in an event. */
  datatype Choice =
    | Begin(start: Start)
    | Opened(newCh: Chan)   // conn.Channel() succeeded with a new channel
    | Proceed               // the operation at hand goes through if it can
    | NotConnected          // GetPublisherChannel sees a state other than Connected
    | Fail                  // error or cancellation

  datatype Event = Act(a: nat, choice: Choice) | Dies(ch: Chan)

  /** made: every channel ever opened; gone: those dropped by the client. */
  datatype State = State(pool: Pool, actors: map<nat, Actor>, made: set<Chan>, gone: set<Chan>)

  function Become(s: State, a: nat, actor: Actor): State {
    s.(actors := s.actors[a := actor])
  }

  function Drop(s: State, ch: Chan): State {
    s.(pool := s.pool.Close(ch), gone := s.gone + {ch})
  }

  /** channelPool.get with a channel ready: a closed one is discarded and get fails. */
  function Get(s: State, a: nat): State
    requires s.pool.buffer != []
  {
    var ch := s.pool.buffer[0];
    var s' := s.(pool := s.pool.Tail());
    if ch in s.pool.open then Become(s', a, Publishing(ch)) else Become(Drop(s', ch), a, Idle)
  }

  /** The deferred return at the end of PublishMessage. */
  function GiveBack(s: State, a: nat, ch: Chan): State {
    var pool := s.pool.Return(ch);
    var s' := s.(pool := pool, gone := if |pool.buffer| > |s.pool.buffer| then s.gone else s.gone + {ch});
    Become(s', a, Idle)
  }

  function Move(s: State, a: nat, choice: Choice): State
    requires a in s.actors
  {
    match s.actors[a]
    case Idle =>
      if !choice.Begin? then s
      else Become(s, a, match choice.start
                        case Fill => Filling(0)
                        case Drain => Draining
                        case Publish => Borrowing(false))
    case Filling(n) =>
      if n >= s.pool.size || choice.Fail? then Become(s, a, Idle)
      else if choice.Opened? && choice.newCh !in s.made then
        Become(s.(made := s.made + {choice.newCh}, pool := s.pool.(open := s.pool.open + {choice.newCh})),
               a, Confirming(n, choice.newCh))
      else s
    case Confirming(n, ch) =>
      if choice.Fail? then Become(Drop(s, ch), a, Idle)
      else if choice.Proceed? then Become(s, a, Offering(n, ch))
      else s
    case Offering(n, ch) =>
      if choice.Proceed? && !s.pool.Full() then Become(s.(pool := s.pool.Send(ch)), a, Filling(n + 1))
      else s
    case Draining =>
      if s.pool.buffer == [] then Become(s, a, Idle)
      else s.(pool := s.pool.DrainOne(), gone := s.gone + {s.pool.buffer[0]})
    case Borrowing(retried) =>
      if choice.NotConnected? then Become(s, a, if retried then Idle else AwaitingRetry)
      else if choice.Proceed? then Become(s, a, Receiving)
      else s
    case Receiving =>
      if choice.Fail? then Become(s, a, Idle)
      else if choice.Proceed? && s.pool.buffer != [] then Get(s, a)
      else s
    case AwaitingRetry =>
      if choice.Fail? then Become(s, a, Idle)
      else if choice.Proceed? then Become(s, a, Borrowing(true))
      else s
    case Publishing(ch) => GiveBack(s, a, ch)
  }

  function Next(s: State, e: Event): State {
    match e
    case Act(a, choice) => if a in s.actors then Move(s, a, choice) else s
    case Dies(ch) => s.(pool := s.pool.Close(ch))
  }

  function Run(s: State, evs: seq<Event>): State {
    if evs == [] then s else Next(Run(s, evs[..|evs| - 1]), evs[|evs| - 1])
  }

  ghost predicate HeldBy(s: State, a: nat, ch: Chan) {
    a in s.actors && s.actors[a].Holds(ch)
  }

  ghost predicate Held(s: State, ch: Chan) {
    exists a :: HeldBy(s, a, ch)
  }

  ghost predicate NoRepeats(buffer: seq<Chan>) {
    forall i, j :: 0 <= i < j < |buffer| ==> buffer[i] != buffer[j]
  }

  /** Every channel ever made is in exactly one place: pooled, held by one actor, or gone. */
  ghost predicate Owned(s: State) {
    && |s.pool.buffer| <= s.pool.size
    && NoRepeats(s.pool.buffer)
    && (forall a, b, ch :: HeldBy(s, a, ch) && HeldBy(s, b, ch) ==> a == b)
    && (forall ch :: ch in s.made ==> ch in s.pool.buffer || Held(s, ch) || ch in s.gone)
    && (forall ch :: ch in s.pool.buffer ==> ch in s.made && !Held(s, ch) && ch !in s.gone)
    && (forall ch :: Held(s, ch) ==> ch in s.made && ch !in s.gone)
    && s.gone <= s.made && s.pool.open <= s.made && s.gone !! s.pool.open
  }

  /** A channel lent and returned goes to the back of the buffer, unless it died meanwhile. */
  lemma LendAndReturn(pool: Pool, dies: bool)
    requires pool.buffer != [] && |pool.buffer| <= pool.size && NoRepeats(pool.buffer) && pool.buffer[0] in pool.open
    ensures var ch := pool.buffer[0];
            var pool' := (if dies then pool.Tail().Close(ch) else pool.Tail()).Return(ch);
            && pool'.buffer == (if dies then pool.buffer[1..] else pool.buffer[1..] + [ch])
            && multiset(pool'.buffer) == multiset(pool.buffer) - (if dies then multiset{ch} else multiset{})
            && NoRepeats(pool'.buffer)
  {
    assert pool.buffer == [pool.buffer[0]] + pool.buffer[1..];
    assert multiset(pool.buffer) == multiset{pool.buffer[0]} + multiset(pool.buffer[1..]);
  }

  /** The new state when actor a becomes what it is in s', all others staying as they are. */
  ghost predicate OnlyActor(s: State, s': State, a: nat) {
    a in s.actors && s'.actors.Keys == s.actors.Keys && forall b :: b in s.actors && b != a ==> s'.actors[b] == s.actors[b]
  }

  lemma HeldFrame(s: State, s': State, a: nat, ch: Chan)
    requires Owned(s) && OnlyActor(s, s', a)
    ensures Held(s, ch) && !HeldBy(s, a, ch) ==> Held(s', ch)
    ensures Held(s', ch) && !HeldBy(s', a, ch) ==> Held(s, ch) && !HeldBy(s, a, ch)
    ensures HeldBy(s', a, ch) ==> Held(s', ch)
    ensures HeldBy(s, a, ch) ==> Held(s, ch)
  {
    if Held(s, ch) && !HeldBy(s, a, ch) {
      var b :| HeldBy(s, b, ch);
      assert HeldBy(s', b, ch);
    }
    if Held(s', ch) && !HeldBy(s', a, ch) {
      var b :| HeldBy(s', b, ch);
      assert HeldBy(s, b, ch);
    }
  }

  /** Actor a takes channel c from the pool, from its own hand or from nowhere, and puts it in one place. */
  ghost predicate Shifts(s: State, s': State, a: nat, c: Chan) {
    && OnlyActor(s, s', a)
    && (forall ch :: ch != c ==>
          && (ch in s'.made <==> ch in s.made) && (ch in s'.gone <==> ch in s.gone)
          && (ch in s'.pool.buffer <==> ch in s.pool.buffer) && (HeldBy(s', a, ch) <==> HeldBy(s, a, ch)))
    && (c in s.pool.buffer || HeldBy(s, a, c) || c !in s.made)
    && c in s'.made
    && (c in s'.pool.buffer || HeldBy(s', a, c) || c in s'.gone)
    && !(c in s'.pool.buffer && HeldBy(s', a, c))
    && !(c in s'.gone && (c in s'.pool.buffer || HeldBy(s', a, c)))
    && |s'.pool.buffer| <= s'.pool.size && NoRepeats(s'.pool.buffer)
    && s'.pool.open <= s.pool.open + {c} && s'.gone !! s'.pool.open
  }

  lemma OwnedShift(s: State, s': State, a: nat, c: Chan)
    requires Owned(s) && Shifts(s, s', a, c)
    ensures Owned(s')
  {
    HeldFrame(s, s', a, c);
    forall ch
      ensures ch in s'.made ==> ch in s'.pool.buffer || Held(s', ch) || ch in s'.gone
      ensures ch in s'.pool.buffer ==> ch in s'.made && !Held(s', ch) && ch !in s'.gone
      ensures Held(s', ch) ==> ch in s'.made && ch !in s'.gone
    {
      HeldFrame(s, s', a, ch);
    }
    forall d, e, ch | HeldBy(s', d, ch) && HeldBy(s', e, ch)
      ensures d == e
    {
      HeldFrame(s, s', a, ch);
      if d != a {
        assert HeldBy(s, d, ch);
      }
      if e != a {
        assert HeldBy(s, e, ch);
      }
    }
  }

  /** An actor that holds nothing before and after changes nothing else. */
  lemma OwnedIdle(s: State, a: nat, actor: Actor)
    requires Owned(s) && a in s.actors && s.actors[a].EmptyHanded() && actor.EmptyHanded()
    ensures Owned(Become(s, a, actor))
  {
    var s' := Become(s, a, actor);
    assert forall b, ch :: HeldBy(s', b, ch) == HeldBy(s, b, ch);
    assert forall ch :: Held(s', ch) == Held(s, ch);
  }

  lemma OwnedFill(s: State, a: nat, choice: Choice)
    requires Owned(s) && a in s.actors && s.actors[a].Filling?
    ensures Owned(Move(s, a, choice))
  {
    var s' := Move(s, a, choice);
    if s'.actors[a].Confirming? {
      OwnedShift(s, s', a, s'.actors[a].ch);
    } else {
      OwnedIdle(s, a, s'.actors[a]);
    }
  }

  lemma OwnedOffer(s: State, a: nat, choice: Choice)
    requires Owned(s) && a in s.actors && (s.actors[a].Confirming? || s.actors[a].Offering?)
    ensures Owned(Move(s, a, choice))
  {
    var s', ch := Move(s, a, choice), s.actors[a].ch;
    if s' != s {
      assert HeldBy(s, a, ch) && Held(s, ch);
      OwnedShift(s, s', a, ch);
    }
  }

  lemma OwnedGiveBack(s: State, a: nat)
    requires Owned(s) && a in s.actors && s.actors[a].Publishing?
    ensures Owned(GiveBack(s, a, s.actors[a].ch))
  {
    var ch := s.actors[a].ch;
    assert HeldBy(s, a, ch) && Held(s, ch);
    OwnedShift(s, GiveBack(s, a, ch), a, ch);
  }

  lemma OwnedGet(s: State, a: nat)
    requires Owned(s) && a in s.actors && s.actors[a].Receiving? && s.pool.buffer != []
    ensures Owned(Get(s, a))
  {
    assert s.pool.buffer == [s.pool.buffer[0]] + s.pool.buffer[1..];
    OwnedShift(s, Get(s, a), a, s.pool.buffer[0]);
  }

  lemma OwnedDrain(s: State, a: nat, choice: Choice)
    requires Owned(s) && a in s.actors && s.actors[a].Draining? && s.pool.buffer != []
    ensures Owned(Move(s, a, choice))
  {
    assert s.pool.buffer == [s.pool.buffer[0]] + s.pool.buffer[1..];
    OwnedShift(s, Move(s, a, choice), a, s.pool.buffer[0]);
  }

  lemma OwnedMove(s: State, a: nat, choice: Choice)
    requires Owned(s) && a in s.actors
    ensures Owned(Move(s, a, choice))
  {
    match s.actors[a]
    case Filling(_) => OwnedFill(s, a, choice);
    case Confirming(_, _) => OwnedOffer(s, a, choice);
    case Offering(_, _) => OwnedOffer(s, a, choice);
    case Publishing(_) => OwnedGiveBack(s, a);
    case Draining =>
      if s.pool.buffer != [] {
        OwnedDrain(s, a, choice);
      } else {
        OwnedIdle(s, a, Idle);
      }
    case Receiving =>
      if choice.Proceed? && s.pool.buffer != [] {
        OwnedGet(s, a);
      } else {
        OwnedIdle(s, a, Move(s, a, choice).actors[a]);
      }
    case _ => OwnedIdle(s, a, Move(s, a, choice).actors[a]);
  }

  /** Before the pool is closed, no channel is ever pooled twice, both pooled and lent, lent twice or lost track of. */
  lemma {:induction false} PoolOwnershipRun(s: State, evs: seq<Event>)
    requires Owned(s)
    ensures Owned(Run(s, evs))
  {
    if evs != [] {
      PoolOwnershipRun(s, evs[..|evs| - 1]);
      var t, e := Run(s, evs[..|evs| - 1]), evs[|evs| - 1];
      if e.Dies? {
        assert forall a, ch :: HeldBy(Next(t, e), a, ch) == HeldBy(t, a, ch);
        assert forall ch :: Held(Next(t, e), ch) == Held(t, ch);
      } else if e.a in t.actors {
        OwnedMove(t, e.a, e.choice);
      }
    }
  }

  /** From an empty pool, once every actor is idle again every open channel is in the pool: none leaks. */
  lemma NoLeak(size: nat, actors: set<nat>, evs: seq<Event>)
    ensures var s0 := State(Pool(size, [], {}), map a | a in actors :: Idle, {}, {});
            var s := Run(s0, evs);
            (forall a :: a in s.actors ==> s.actors[a].Idle?) ==>
              && (forall ch :: ch in s.pool.open ==> ch in s.pool.buffer)
              && |s.pool.buffer| <= s.pool.size && NoRepeats(s.pool.buffer)
              && (forall ch :: ch in s.made ==> (ch in s.pool.buffer <==> ch !in s.gone))
  {
    var s0 := State(Pool(size, [], {}), map a | a in actors :: Idle, {}, {});
    assert forall ch :: !Held(s0, ch);
    PoolOwnershipRun(s0, evs);
  }

  // ---------------------------------------------------------------------------------------
  // PublishMessage and fill, move by move

  /** The answer is one the actor is waiting for. */
  ghost predicate Awaited(s: State, a: nat, choice: Choice)
    requires a in s.actors
  {
    match s.actors[a]
    case Idle => false
    case Filling(n) => n >= s.pool.size || choice.Fail? || (choice.Opened? && choice.newCh !in s.made)
    case Confirming(_, _) => choice.Fail? || choice.Proceed?
    case Offering(_, _) => choice.Proceed? && !s.pool.Full()
    case Draining => true
    case Borrowing(_) => choice.NotConnected? || choice.Proceed?
    case AwaitingRetry => choice.Fail? || choice.Proceed?
    case Receiving => choice.Fail? || (choice.Proceed? && s.pool.buffer != [])
    case Publishing(_) => true
  }

  /** The moves of a publish, or of a fill, still to come at most. */
  ghost function MovesLeft(size: nat, actor: Actor): int {
    match actor
    case Borrowing(retried) => if retried then 3 else 5
    case AwaitingRetry => 4
    case Receiving => 2
    case Publishing(_) => 1
    case Filling(n) => 3 * (size - n) + 1
    case Confirming(n, _) => 3 * (size - n)
    case Offering(n, _) => 3 * (size - n) - 1
    case _ => 0
  }

  /** Every awaited answer brings a publish or a fill nearer to its end, and only such an answer moves it. */
  lemma MoveIsProgress(s: State, a: nat, choice: Choice)
    requires a in s.actors && !s.actors[a].Idle? && !s.actors[a].Draining?
    requires s.actors[a].InFill() ==> s.actors[a].made <= s.pool.size && (!s.actors[a].Filling? ==> s.actors[a].made < s.pool.size)
    ensures var s' := Move(s, a, choice);
            if Awaited(s, a, choice) then 0 <= MovesLeft(s.pool.size, s'.actors[a]) < MovesLeft(s.pool.size, s.actors[a]) else s' == s
  {
  }

  /** A publish ends without a channel only if cancelled, not connected twice, or given a dead channel. */
  lemma PublishFailsOnlyIf(s: State, a: nat, choice: Choice)
    requires a in s.actors && (s.actors[a].Borrowing? || s.actors[a].AwaitingRetry? || s.actors[a].Receiving?)
    requires Move(s, a, choice).actors[a].Idle?
    ensures || (choice.Fail? && !s.actors[a].Borrowing?)
            || (choice.NotConnected? && s.actors[a] == Borrowing(true))
            || (choice.Proceed? && s.actors[a].Receiving? && s.pool.buffer != [] && s.pool.buffer[0] !in s.pool.open)
  {
  }

  /** What is lent is the head of the pool, and open at that moment. */
  lemma LendsOnlyOpen(s: State, e: Event, a: nat, ch: Chan)
    requires a in Next(s, e).actors && Next(s, e).actors[a] == Publishing(ch)
    ensures a in s.actors
    ensures s.actors[a] == Publishing(ch) || (s.actors[a].Receiving? && s.pool.buffer != [] && s.pool.buffer[0] == ch && ch in s.pool.open)
  {
  }

  /** A fill ends only with all its channels sent or at a failure. */
  lemma FillEndsOnlyIf(s: State, a: nat, choice: Choice)
    requires a in s.actors && s.actors[a].InFill() && !Move(s, a, choice).actors[a].InFill()
    ensures (s.actors[a].Filling? && s.actors[a].made >= s.pool.size) || (choice.Fail? && !s.actors[a].Offering?)
  {
  }

  ghost predicate InPublish(actor: Actor) {
    actor.Borrowing? || actor.AwaitingRetry? || actor.Receiving? || actor.Publishing?
  }

  ghost function AwaitedMoves(s: State, evs: seq<Event>, a: nat): nat {
    if evs == [] then 0
    else
      var t, e := Run(s, evs[..|evs| - 1]), evs[|evs| - 1];
      AwaitedMoves(s, evs[..|evs| - 1], a) + if e.Act? && e.a == a && a in t.actors && Awaited(t, a, e.choice) then 1 else 0
  }

  ghost predicate OverOrIn(s: State, a: nat) {
    a in s.actors && (InPublish(s.actors[a]) || s.actors[a].Idle?)
  }

  lemma OthersLeaveIt(s: State, e: Event, a: nat)
    requires a in s.actors && !(e.Act? && e.a == a)
    ensures a in Next(s, e).actors && Next(s, e).actors[a] == s.actors[a] && Next(s, e).pool.size == s.pool.size
  {
  }

  lemma PublishStep(s: State, a: nat, choice: Choice)
    requires OverOrIn(s, a) && !choice.Begin?
    ensures OverOrIn(Move(s, a, choice), a) && Move(s, a, choice).pool.size == s.pool.size
    ensures MovesLeft(s.pool.size, Move(s, a, choice).actors[a]) + (if Awaited(s, a, choice) then 1 else 0) <= MovesLeft(s.pool.size, s.actors[a])
  {
    if !s.actors[a].Idle? {
      MoveIsProgress(s, a, choice);
    }
  }

  /** In every interleaving PublishMessage is over after at most five awaited answers, having read the state at most twice. */
  lemma {:induction false} PublishEnds(s: State, evs: seq<Event>, a: nat)
    requires a in s.actors && s.actors[a] == Borrowing(false)
    requires forall i :: 0 <= i < |evs| && evs[i].Act? && evs[i].a == a ==> !evs[i].choice.Begin?
    ensures OverOrIn(Run(s, evs), a) && Run(s, evs).pool.size == s.pool.size
    ensures MovesLeft(s.pool.size, Run(s, evs).actors[a]) + AwaitedMoves(s, evs, a) <= 5
    ensures AwaitedMoves(s, evs, a) == 5 ==> Run(s, evs).actors[a].Idle?
  {
    if evs != [] {
      var t, e := Run(s, evs[..|evs| - 1]), evs[|evs| - 1];
      PublishEnds(s, evs[..|evs| - 1], a);
      if e.Act? && e.a == a {
        PublishStep(t, a, e.choice);
      } else {
        OthersLeaveIt(t, e, a);
      }
    }
  }

  // ---------------------------------------------------------------------------------------
  // When fill blocks

  /** Actor a has a channel to send and no room for it. */
  ghost predicate Blocked(s: State, a: nat) {
    a in s.actors && s.actors[a].Offering? && s.pool.Full()
  }

  /** Another actor than a puts a channel into the pool: a publisher returns one still open, or a second fill sends one. */
  ghost predicate Puts(s: State, e: Event, a: nat) {
    && e.Act? && e.a != a && e.a in s.actors && !s.pool.Full()
    && ((s.actors[e.a].Publishing? && s.actors[e.a].ch in s.pool.open) || (s.actors[e.a].Offering? && e.choice.Proceed?))
  }

  /** Someone takes a channel out of the pool: a publisher or a drain. */
  ghost predicate Takes(s: State, e: Event) {
    && e.Act? && e.a in s.actors && s.pool.buffer != []
    && (s.actors[e.a].Draining? || (s.actors[e.a].Receiving? && e.choice.Proceed?))
  }

  /** Puts of others less takes. */
  ghost function NetPuts(s: State, evs: seq<Event>, a: nat): int {
    if evs == [] then 0
    else
      var t, e := Run(s, evs[..|evs| - 1]), evs[|evs| - 1];
      NetPuts(s, evs[..|evs| - 1], a) + (if Puts(t, e, a) then 1 else 0) - (if Takes(t, e) then 1 else 0)
  }

  ghost predicate Fills(s: State, a: nat) {
    a in s.actors && s.actors[a].InFill()
  }

  /** Actor a stays in the fill it began throughout the run. */
  ghost predicate StaysInFill(s: State, evs: seq<Event>, a: nat) {
    (evs != [] ==> StaysInFill(s, evs[..|evs| - 1], a)) && Fills(Run(s, evs), a)
  }

  lemma FillStep(s: State, e: Event, a: nat)
    requires Fills(s, a) && Fills(Next(s, e), a)
    ensures var s' := Next(s, e);
            && s'.pool.size == s.pool.size
            && |s'.pool.buffer| - s'.actors[a].made
               == |s.pool.buffer| - s.actors[a].made + (if Puts(s, e, a) then 1 else 0) - (if Takes(s, e) then 1 else 0)
  {
  }

  /**
   In every run in which a is filling a pool it found empty: the pool holds what a has sent
   and the net puts of others, so a is blocked exactly when it has a channel to send and its
   own sends and those net puts have used up the size.
   */
  lemma {:induction false} FillBlocksIff(s: State, evs: seq<Event>, a: nat)
    requires a in s.actors && s.actors[a] == Filling(0) && s.pool.buffer == [] && StaysInFill(s, evs, a)
    ensures var t := Run(s, evs);
            && t.pool.size == s.pool.size && |t.pool.buffer| == t.actors[a].made + NetPuts(s, evs, a)
            && (Blocked(t, a) <==> t.actors[a].Offering? && t.actors[a].made + NetPuts(s, evs, a) >= s.pool.size)
  {
    if evs != [] {
      FillBlocksIff(s, evs[..|evs| - 1], a);
      FillStep(Run(s, evs[..|evs| - 1]), evs[|evs| - 1], a);
    }
  }

  lemma {:induction false} MadeAtMostSize(s: State, evs: seq<Event>, a: nat)
    requires a in s.actors && s.actors[a] == Filling(0) && StaysInFill(s, evs, a)
    ensures Run(s, evs).pool.size == s.pool.size && Run(s, evs).actors[a].made <= s.pool.size
    ensures !Run(s, evs).actors[a].Filling? ==> Run(s, evs).actors[a].made < s.pool.size
  {
    if evs != [] {
      MadeAtMostSize(s, evs[..|evs| - 1], a);
    }
  }

  /** A fill that has sent all its channels leaves a full pool exactly if others put in as many as they took out; otherwise it is short. */
  lemma FillLeavesAllIff(s: State, evs: seq<Event>, a: nat)
    requires Owned(s) && a in s.actors && s.actors[a] == Filling(0) && s.pool.buffer == [] && StaysInFill(s, evs, a)
    requires Run(s, evs).actors[a].made >= s.pool.size
    ensures |Run(s, evs).pool.buffer| == s.pool.size + NetPuts(s, evs, a) && NetPuts(s, evs, a) <= 0
    ensures |Run(s, evs).pool.buffer| == s.pool.size <==> NetPuts(s, evs, a) == 0
  {
    FillBlocksIff(s, evs, a);
    MadeAtMostSize(s, evs, a);
    PoolOwnershipRun(s, evs);
  }

  ghost predicate NobodyTakes(s: State, evs: seq<Event>) {
    evs != [] ==> NobodyTakes(s, evs[..|evs| - 1]) && !Takes(Run(s, evs[..|evs| - 1]), evs[|evs| - 1])
  }

  /** One event unblocks a fill exactly if it takes a channel out. */
  lemma BlockedStepIff(s: State, e: Event, a: nat)
    requires Owned(s) && Blocked(s, a) && s.pool.size > 0
    ensures Blocked(Next(s, e), a) <==> !Takes(s, e)
  {
  }

  /** A blocked fill has no way out but a take: while nobody borrows or drains it stays blocked. */
  lemma {:induction false} BlockedUntilSomeoneTakes(s: State, evs: seq<Event>, a: nat)
    requires Blocked(s, a) && NobodyTakes(s, evs)
    ensures Blocked(Run(s, evs), a)
  {
    if evs != [] {
      BlockedUntilSomeoneTakes(s, evs[..|evs| - 1], a);
    }
  }
}

/** connect, drain, fill and reconnectWithBackoff run by the one dialing goroutine, nobody else touching the pool. */
module RabbitClient {
  import opened Wrappers
  import opened PoolValue
  import opened ConnectionProtocol
  import opened ReconnectBackoff
  import PoolOwnership

  /** What the broker answers to one connect; opens and confirms answer for the i-th channel of fill. */
  datatype Attempt = Attempt(dialPublisher: bool, dialConsumer: bool, opens: nat -> bool, confirms: nat -> bool)

  /** One turn of reconnectWithBackoff: closeChan is seen, or the timer fires with the state Closing or not. */
  datatype Turn = CloseSeen | Elapsed(closing: bool, attempt: Attempt)

  datatype End = Up | ShutDown | StillTrying

  datatype Stage = PublisherDialFailed | ConsumerDialFailed | FillFailed | Ready

  class Client {
    const size: nat
    const publisherConfirms: bool
    var buffer: seq<Chan>
    var open: set<Chan>
    var state: ConnState
    var publisherConn: Option<nat>
    var consumerConn: Option<nat>
    var conns: set<nat>  // connections dialed and not closed by the client
    var nextId: nat  // names the next connection or channel

    constructor (size: nat, publisherConfirms: bool)
      ensures Valid() && this.size == size && buffer == [] && state.Disconnected?
    {
      this.size, this.publisherConfirms := size, publisherConfirms;
      buffer, open, state, nextId, conns := [], {}, Disconnected, 0, {};
      publisherConn, consumerConn := None, None;
    }

    ghost predicate Valid()
      reads this
    {
      && |buffer| <= size
      && (forall ch :: ch in buffer || ch in open ==> ch.conn < nextId && ch.serial < nextId)
      && (forall c :: c in conns ==> c < nextId)
    }

    /** Exactly size distinct open channels, all on the current publisher connection. */
    ghost predicate PoolReady()
      reads this
    {
      && |buffer| == size && PoolOwnership.NoRepeats(buffer)
      && forall ch :: ch in buffer ==> ch in open && publisherConn == Some(ch.conn)
    }

    /** Both connections were dialed since nextId was id. */
    ghost predicate NewlyDialed(id: nat)
      reads this
    {
      && publisherConn.Some? && consumerConn.Some? && publisherConn != consumerConn
      && id <= publisherConn.value < nextId && id <= consumerConn.value < nextId
    }

    /** The pool as the value the interleaving model works on. */
    ghost function View(): Pool
      reads this
    {
      Pool(size, buffer, open)
    }

    /** get with a channel ready or the context done; nothing is returned when the channel is closed. */
    method Get(contextDone: bool) returns (ch: Option<Chan>)
      requires buffer != [] || contextDone  // otherwise it waits
      modifies `buffer
      ensures contextDone ==> ch.None? && View() == old(View())
      ensures !contextDone ==> View() == old(View().Tail())
      ensures !contextDone ==> ch == if old(buffer[0]) in open then Some(old(buffer[0])) else None
    {
      if contextDone {
        return None;
      }
      var head := buffer[0];
      buffer := buffer[1..];
      ch := if head in open then Some(head) else None;
    }

    method ReturnCh(ch: Chan)
      modifies `buffer, `open
      ensures View() == old(View()).Return(ch)
    {
      if ch !in open {
        return;
      }
      if |buffer| < size {
        buffer := buffer + [ch];
      } else {
        open := open - {ch};
      }
    }

    /**
     PublishMessage with nobody else around: the channel it borrowed goes to the back of the pool
     if it is still open afterwards; a dead one is discarded, and nothing else changes.
     */
    method Publish(dies: bool) returns (sent: bool)
      requires buffer != [] && |buffer| <= size && PoolOwnership.NoRepeats(buffer)
      modifies `buffer, `open
      ensures sent <==> old(buffer[0]) in old(open)
      ensures open == if sent && dies then old(open) - {old(buffer[0])} else old(open)
      ensures buffer == old(buffer)[1..] + if old(buffer[0]) in open then [old(buffer[0])] else []
      ensures PoolOwnership.NoRepeats(buffer)
    {
      if buffer[0] in open {
        PoolOwnership.LendAndReturn(View(), dies);
      }
      var ch := Get(false);
      sent := ch.Some?;
      if sent {
        if dies {
          open := open - {ch.value};
        }
        ReturnCh(ch.value);
      }
    }

    /** The first n channels of fill open and, if asked to, enter confirm mode. */
    ghost predicate Fills(attempt: Attempt, n: nat) {
      forall i :: 0 <= i < n ==> attempt.opens(i) && (publisherConfirms ==> attempt.confirms(i))
    }

    ghost predicate Succeeds(attempt: Attempt) {
      attempt.dialPublisher && attempt.dialConsumer && Fills(attempt, size)
    }

    /** The timer fired and the connect failed. */
    ghost predicate FailedTurn(turn: Turn) {
      turn.Elapsed? && !turn.closing && !Succeeds(turn.attempt)
    }

    method Drain()
      modifies `buffer, `open
      ensures buffer == []
      ensures forall ch :: ch in open <==> ch in old(open) && ch !in old(buffer)
    {
      ghost var drained := [];
      while buffer != []
        invariant drained + buffer == old(buffer)
        invariant forall ch :: ch in open <==> ch in old(open) && ch !in drained
        decreases |buffer|
      {
        var ch := buffer[0];
        drained := drained + [ch];
        buffer := buffer[1..];
        if ch in open {
          open := open - {ch};
        }
      }
    }

    /** The buffer must be empty, or a send would block for good with nobody receiving. */
    method Fill(conn: nat, attempt: Attempt) returns (ok: bool)
      requires Valid() && buffer == [] && conn < nextId
      requires forall ch :: ch in open ==> ch.conn != conn
      modifies `buffer, `open, `nextId
      ensures Valid() && nextId >= old(nextId)
      ensures forall ch: Chan :: ch.conn != conn ==> (ch in open <==> ch in old(open))
      ensures PoolOwnership.NoRepeats(buffer) && forall ch :: ch in buffer ==> ch.conn == conn && ch in open
      ensures forall ch: Chan :: ch.conn == conn && ch in open ==> ch in buffer
      ensures ok <==> Fills(attempt, size)
      ensures ok <==> |buffer| == size
    {
      for i := 0 to size
        invariant Valid() && nextId >= old(nextId) && |buffer| == i
        invariant forall ch: Chan :: ch.conn != conn ==> (ch in open <==> ch in old(open))
        invariant PoolOwnership.NoRepeats(buffer) && forall ch :: ch in buffer ==> ch.conn == conn && ch in open
        invariant forall ch: Chan :: ch.conn == conn && ch in open ==> ch in buffer
        invariant Fills(attempt, i)
      {
        if !attempt.opens(i) {
          return false;
        }
        var ch := Chan(conn, nextId);
        nextId := nextId + 1;
        open := open + {ch};
        if publisherConfirms && !attempt.confirms(i) {
          open := open - {ch};
          return false;
        }
        assert |buffer| < size;  // the buffered send does not block
        buffer := buffer + [ch];
      }
      ok := true;
    }

    method CloseConnection(conn: nat)
      modifies `open, `conns
      ensures forall ch :: ch in open <==> ch in old(open) && ch.conn != conn
      ensures conns == old(conns) - {conn}
    {
      open := set ch | ch in open && ch.conn != conn;
      conns := conns - {conn};
    }

    method Dial() returns (conn: nat)
      requires Valid()
      modifies `conns, `nextId
      ensures Valid() && conn == old(nextId) && nextId == old(nextId) + 1 && conns == old(conns) + {conn}
    {
      conn := nextId;
      nextId := nextId + 1;
      conns := conns + {conn};
    }

    method Connect(attempt: Attempt) returns (stage: Stage)
      requires Valid()
      modifies this
      ensures Valid() && nextId >= old(nextId)
      ensures stage.Ready? ==> state.Connected? && PoolReady() && NewlyDialed(old(nextId))
      ensures !stage.Ready? ==> state.Connecting?
      ensures stage.PublisherDialFailed? || stage.ConsumerDialFailed? ==> buffer == old(buffer) && open == old(open)
      ensures stage.FillFailed? ==> forall ch :: ch in buffer ==> ch !in open
      ensures !stage.Ready? ==> conns == old(conns) && forall ch :: ch in open ==> ch in old(open)
      ensures stage.Ready? ==> conns == old(conns) + {publisherConn.value, consumerConn.value}
      ensures stage.Ready? <==> Succeeds(attempt)
    {
      state := Connecting;
      if !attempt.dialPublisher {
        return PublisherDialFailed;
      }
      var pubConn := Dial();
      if !attempt.dialConsumer {
        CloseConnection(pubConn);
        assert open == old(open);
        return ConsumerDialFailed;
      }
      var consConn := Dial();
      publisherConn, consumerConn := Some(pubConn), Some(consConn);
      Drain();
      var ok := Fill(pubConn, attempt);
      if !ok {
        CloseConnection(pubConn);
        CloseConnection(consConn);
        return FillFailed;
      }
      state := Connected;
      stage := Ready;
    }

    /**
     Any number of failed connects and then a success leave the pool ready; the k-th wait is the
     one due after k failures; the loop ends at the first success or when the client closes.
     */
    method ReconnectWithBackoff(initial: Duration, max: Duration, turns: seq<Turn>)
      returns (waits: seq<Duration>, end: End, last: nat)
      requires Valid()
      modifies this
      ensures Valid() && last <= |turns|
      ensures waits == WaitsAfter(initial, max, |waits|)
      ensures forall k :: 0 <= k < last ==> FailedTurn(turns[k])
      ensures end.StillTrying? <==> last == |turns|
      ensures end.StillTrying? ==> |waits| == last
      ensures end.Up? ==> state.Connected? && PoolReady() && NewlyDialed(old(nextId)) && |waits| == last + 1
                          && turns[last].Elapsed? && !turns[last].closing && Succeeds(turns[last].attempt)
      ensures end.ShutDown? ==> state.Disconnected? && (turns[last].CloseSeen? || turns[last].closing)
    {
      var backoff := initial;
      waits, end := [], StillTrying;
      for i := 0 to |turns|
        invariant Valid() && nextId >= old(nextId) && |waits| == i && backoff == WaitAfter(initial, max, i)
        invariant waits == WaitsAfter(initial, max, i)
        invariant forall k :: 0 <= k < i ==> FailedTurn(turns[k])
      {
        var turn := turns[i];
        if turn.CloseSeen? {
          state := Disconnected;
          return waits, ShutDown, i;
        }
        waits := waits + [backoff];
        if turn.closing {
          state := Disconnected;
          return waits, ShutDown, i;
        }
        var stage := Connect(turn.attempt);
        if stage.Ready? {
          return waits, Up, i;
        }
        backoff := Grow(backoff, max);
      }
      last := |turns|;
    }
  }
}
