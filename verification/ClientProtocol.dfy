/**
 The connection state and the channel pool together.  A goroutine has the same number in both:
 the one that dials drains and fills the pool before it stores Connected, a watcher drains the
 pool before it triggers a reconnect, and a publisher reads the state before it receives.
 */
module ClientProtocol {
  import opened PoolValue
  import C = ConnectionProtocol
  import P = PoolOwnership

  /** filled: the dialing goroutines whose fill has succeeded. */
  datatype State = State(conn: C.State, pool: P.State, filled: set<nat>)

  datatype Event = OnConn(c: C.Event) | OnPool(p: P.Event)

  /** Between storing Connecting and storing Connected, in connect. */
  predicate InConnect(s: State, g: nat) {
    g in s.conn.pcs && (s.conn.pcs[g].FirstDial? || s.conn.pcs[g].DialAgain?)
  }

  predicate AtRest(s: State, g: nat) {
    g in s.pool.actors ==> s.pool.actors[g].Idle?
  }

  /** connect returns only when it is out of the pool, with success exactly if its fill succeeded. */
  predicate ConnEnabled(s: State, c: C.Event) {
    match c
    case Act(g, ok, newId) => AtRest(s, newId) && (InConnect(s, g) ==> AtRest(s, g) && (ok <==> g in s.filled))
    case Lost(g) => AtRest(s, g)
    case Close => true
  }

  predicate PoolEnabled(s: State, p: P.Event) {
    p.Act? && p.a in s.pool.actors ==>
      match s.pool.actors[p.a]
      case Idle =>
        p.choice.Begin? ==>
          (match p.choice.start
           case Fill => InConnect(s, p.a) && p.a !in s.filled
           case Drain => (InConnect(s, p.a) && p.a !in s.filled) || p.a !in s.conn.pcs
           case Publish => p.a !in s.conn.pcs)
      case Borrowing(_) => (p.choice.Proceed? ==> s.conn.conn.Connected?) && (p.choice.NotConnected? ==> !s.conn.conn.Connected?)
      case _ => true
  }

  /** The pool event is the last step of a fill that has sent all its channels. */
  predicate CompletesFill(s: State, p: P.Event) {
    p.Act? && p.a in s.pool.actors && s.pool.actors[p.a].Filling? && s.pool.actors[p.a].made >= s.pool.pool.size
  }

  function Next(s: State, e: Event): State {
    match e
    case OnConn(c) =>
      if !ConnEnabled(s, c) then s
      else State(C.Next(s.conn, c), s.pool, if c.Act? && InConnect(s, c.g) then s.filled - {c.g} else s.filled)
    case OnPool(p) =>
      if !PoolEnabled(s, p) then s
      else State(s.conn, P.Next(s.pool, p), if CompletesFill(s, p) then s.filled + {p.a} else s.filled)
  }

  function Run(s: State, evs: seq<Event>): State {
    if evs == [] then s else Next(Run(s, evs[..|evs| - 1]), evs[|evs| - 1])
  }

  function Initial(main: nat, size: nat, actors: set<nat>): State {
    State(C.Initial(main), P.State(Pool(size, [], {}), map a | a in actors :: P.Idle, {}, {}), {})
  }

  ghost predicate NotClosed(evs: seq<Event>) {
    forall i :: 0 <= i < |evs| && evs[i].OnConn? ==> !evs[i].c.Close?
  }

  // ---------------------------------------------------------------------------------------
  // Only the dialing goroutine fills

  ghost predicate Inv(s: State, main: nat) {
    C.Inv(s.conn, main) && forall a :: P.Fills(s.pool, a) ==> InConnect(s, a)
  }

  lemma {:induction false} ConnKeepsOthers(s: C.State, c: C.Event, h: nat)
    requires h in s.pcs && (s.pcs[h].FirstDial? || s.pcs[h].DialAgain?) && (c.Act? ==> c.g != h)
    ensures h in C.Next(s, c).pcs && C.Next(s, c).pcs[h] == s.pcs[h]
  {
  }

  lemma ConnStep(s: State, c: C.Event, main: nat)
    requires Inv(s, main) && !c.Close?
    ensures Inv(Next(s, OnConn(c)), main)
  {
    if ConnEnabled(s, c) {
      C.InvStep(s.conn, c, main);
      forall a | P.Fills(s.pool, a)
        ensures InConnect(Next(s, OnConn(c)), a)
      {
        ConnKeepsOthers(s.conn, c, a);
      }
    }
  }

  lemma PoolStep(s: State, p: P.Event, main: nat)
    requires Inv(s, main)
    ensures Inv(Next(s, OnPool(p)), main)
  {
    if PoolEnabled(s, p) {
      assert forall a :: P.Fills(P.Next(s.pool, p), a) ==>
        P.Fills(s.pool, a) || (p.Act? && p.a == a && s.pool.actors[a].Idle? && p.choice == P.Begin(P.Fill));
    }
  }

  lemma {:induction false} InvRun(main: nat, size: nat, actors: set<nat>, evs: seq<Event>)
    requires NotClosed(evs)
    ensures Inv(Run(Initial(main, size, actors), evs), main)
  {
    if evs != [] {
      var s, e := Run(Initial(main, size, actors), evs[..|evs| - 1]), evs[|evs| - 1];
      InvRun(main, size, actors, evs[..|evs| - 1]);
      if e.OnConn? {
        ConnStep(s, e.c, main);
      } else {
        PoolStep(s, e.p, main);
      }
    }
  }

  /** Before Close, in every interleaving: at most one goroutine fills the pool, and the state is Connecting while one does. */
  lemma SingleFiller(main: nat, size: nat, actors: set<nat>, evs: seq<Event>)
    requires NotClosed(evs)
    ensures var s := Run(Initial(main, size, actors), evs);
            && (forall a, b :: P.Fills(s.pool, a) && P.Fills(s.pool, b) ==> a == b)
            && (forall a :: P.Fills(s.pool, a) ==> s.conn.conn.Connecting?)
  {
    InvRun(main, size, actors, evs);
    var s := Run(Initial(main, size, actors), evs);
    forall a | P.Fills(s.pool, a)
      ensures C.Dials(s.conn, a) && s.conn.conn.Connecting?
    {
      assert InConnect(s, a);
      assert C.SomeoneDials(s.conn) by {
        assert C.Dials(s.conn, a);
      }
    }
  }

  /** Whoever fills is in connect; those whose fill succeeded are in connect and out of the pool. */
  ghost predicate FilledInv(s: State) {
    && (forall a :: P.Fills(s.pool, a) ==> InConnect(s, a))
    && (forall g :: g in s.filled ==> InConnect(s, g) && AtRest(s, g))
  }

  lemma FilledConn(s: State, c: C.Event)
    requires FilledInv(s) && ConnEnabled(s, c)
    ensures FilledInv(Next(s, OnConn(c)))
  {
    forall g | g in Next(s, OnConn(c)).filled || P.Fills(s.pool, g)
      ensures InConnect(Next(s, OnConn(c)), g)
    {
      ConnKeepsOthers(s.conn, c, g);
    }
  }

  lemma FilledPool(s: State, p: P.Event)
    requires FilledInv(s) && PoolEnabled(s, p)
    ensures FilledInv(Next(s, OnPool(p)))
  {
    assert forall a :: P.Fills(P.Next(s.pool, p), a) ==>
      P.Fills(s.pool, a) || (p.Act? && p.a == a && s.pool.actors[a].Idle? && p.choice == P.Begin(P.Fill));
    assert CompletesFill(s, p) ==> P.Fills(s.pool, p.a);
  }

  lemma {:induction false} FilledRun(main: nat, size: nat, actors: set<nat>, evs: seq<Event>)
    ensures FilledInv(Run(Initial(main, size, actors), evs))
  {
    if evs != [] {
      var s, e := Run(Initial(main, size, actors), evs[..|evs| - 1]), evs[|evs| - 1];
      FilledRun(main, size, actors, evs[..|evs| - 1]);
      if e.OnConn? && ConnEnabled(s, e.c) {
        FilledConn(s, e.c);
      } else if e.OnPool? && PoolEnabled(s, e.p) {
        FilledPool(s, e.p);
      }
    }
  }

  /** The event is the last step of goroutine g's fill, all channels sent. */
  ghost predicate FillSucceeds(s: State, e: Event, g: nat) {
    e.OnPool? && e.p.Act? && e.p.a == g && P.Fills(s.pool, g) && s.pool.actors[g].Filling? && s.pool.actors[g].made >= s.pool.pool.size
  }

  /** Goroutine g finished a fill in the run, with all channels sent, and has been in connect ever since. */
  ghost predicate HasFilled(s: State, evs: seq<Event>, g: nat) {
    evs != [] &&
    var t := Run(s, evs[..|evs| - 1]);
    (FillSucceeds(t, evs[|evs| - 1], g) || HasFilled(s, evs[..|evs| - 1], g)) && InConnect(Run(s, evs), g)
  }

  lemma {:induction false} FilledMeansHasFilled(main: nat, size: nat, actors: set<nat>, evs: seq<Event>, g: nat)
    requires g in Run(Initial(main, size, actors), evs).filled
    ensures HasFilled(Initial(main, size, actors), evs, g)
  {
    FilledRun(main, size, actors, evs);
    var init := evs[..|evs| - 1];
    if g in Run(Initial(main, size, actors), init).filled {
      FilledMeansHasFilled(main, size, actors, init, g);
    }
  }

  /** In every run the state becomes Connected only through a goroutine whose fill sent all its channels in that very connect. */
  lemma ConnectedOnlyIfFilled(main: nat, size: nat, actors: set<nat>, evs: seq<Event>, e: Event)
    requires var s := Run(Initial(main, size, actors), evs);
             !s.conn.conn.Connected? && Next(s, e).conn.conn.Connected?
    ensures e.OnConn? && e.c.Act? && HasFilled(Initial(main, size, actors), evs, e.c.g)
  {
    FilledMeansHasFilled(main, size, actors, evs, e.c.g);
  }

  /** A connect whose fill succeeded cannot fail any more. */
  lemma FilledConnects(s: State, g: nat, ok: bool)
    requires FilledInv(s) && g in s.filled
    ensures var t := Next(s, OnConn(C.Act(g, ok, g)));
            if ok then t.conn.conn.Connected? && t.filled == s.filled - {g} else t == s
  {
  }

  /** Publishers pass the state check only while Connected, and only dialers open channels. */
  lemma PoolGuards(s: State, e: Event, a: nat)
    requires a in s.pool.actors && a in Next(s, e).pool.actors && Next(s, e).pool.actors[a] != s.pool.actors[a]
    ensures Next(s, e).pool.actors[a].Receiving? ==> s.conn.conn.Connected?
    ensures Next(s, e).pool.actors[a].AwaitingRetry? ==> !s.conn.conn.Connected?
    ensures Next(s, e).pool.actors[a] == P.Filling(0) && s.pool.actors[a].Idle? ==> InConnect(s, a) && a !in s.filled
    ensures Next(s, e).pool.actors[a].Draining? ==> InConnect(s, a) || a !in s.conn.pcs
    ensures Next(s, e).pool.actors[a].Borrowing? && s.pool.actors[a].Idle? ==> a !in s.conn.pcs
  {
  }

  /** A watcher triggers a reconnect only when its own drain is over. */
  lemma DrainsBeforeTrigger(s: State, e: Event, g: nat)
    requires g !in s.conn.pcs && g in Next(s, e).conn.pcs && Next(s, e).conn.pcs[g].TriggerLoad?
    ensures e == OnConn(C.Lost(g)) && AtRest(s, g)
  {
  }

  // ---------------------------------------------------------------------------------------
  // A blocked fill

  /** Nobody is draining, or past the state check and waiting for a channel. */
  ghost predicate NobodyReceives(s: State) {
    forall a :: a in s.pool.actors ==> !s.pool.actors[a].Draining? && !s.pool.actors[a].Receiving?
  }

  ghost predicate Stuck(s: State, main: nat, g: nat) {
    Inv(s, main) && P.Blocked(s.pool, g) && NobodyReceives(s)
  }

  ghost predicate BeginsDrain(e: Event) {
    e.OnPool? && e.p.Act? && e.p.choice == P.Begin(P.Drain)
  }

  lemma StuckConnecting(s: State, main: nat, g: nat)
    requires Stuck(s, main, g)
    ensures InConnect(s, g) && s.conn.conn.Connecting?
  {
    assert P.Fills(s.pool, g);
    assert C.Dials(s.conn, g);
    assert C.SomeoneDials(s.conn);
  }

  lemma StuckStep(s: State, main: nat, g: nat, e: Event)
    requires Stuck(s, main, g) && !BeginsDrain(e) && (e.OnConn? ==> !e.c.Close?)
    ensures Stuck(Next(s, e), main, g)
  {
    StuckConnecting(s, main, g);
    if e.OnConn? {
      ConnStep(s, e.c, main);
    } else {
      PoolStep(s, e.p, main);
      assert !P.Takes(s.pool, e.p);
    }
  }

  /**
   A fill that is blocked with nobody draining or waiting for a channel blocks the client for
   good: short of Close and of another drain, it stays Connecting in every continuation.
   */
  lemma {:induction false} StuckForGood(s: State, main: nat, g: nat, evs: seq<Event>)
    requires Stuck(s, main, g) && NotClosed(evs) && forall i :: 0 <= i < |evs| ==> !BeginsDrain(evs[i])
    ensures Stuck(Run(s, evs), main, g) && Run(s, evs).conn.conn.Connecting?
  {
    if evs != [] {
      StuckForGood(s, main, g, evs[..|evs| - 1]);
      StuckStep(Run(s, evs[..|evs| - 1]), main, g, evs[|evs| - 1]);
    }
    StuckConnecting(Run(s, evs), main, g);
  }

  // ---------------------------------------------------------------------------------------
  // An empty pool

  /** Connected, with no channel pooled or held and nobody about to open one. */
  ghost predicate Starved(s: State) {
    && s.conn.conn.Connected? && s.pool.pool.buffer == []
    && (forall a :: a in s.pool.actors ==> s.pool.actors[a].EmptyHanded() && !s.pool.actors[a].Filling?)
    && (forall g :: g in s.conn.pcs ==> s.conn.pcs[g].Restoring? || s.conn.pcs[g].Finished?)
  }

  /** Until a connection is lost or the client is closed, no publisher ever gets a channel. */
  lemma {:induction false} StarvedUntilLost(s: State, evs: seq<Event>)
    requires Starved(s) && forall i :: 0 <= i < |evs| && evs[i].OnConn? ==> evs[i].c.Act?
    ensures Starved(Run(s, evs))
  {
    if evs != [] {
      StarvedUntilLost(s, evs[..|evs| - 1]);
    }
  }
}

/** Runs from NewClient with a pool of one that end stuck or starved. */
module ClientRuns {
  import opened PoolValue
  import opened ClientProtocol
  import C = ConnectionProtocol
  import P = PoolOwnership

  /** evs is a run without Close from NewClient, alone with goroutines 1 to 3, to t. */
  ghost predicate Reaches(evs: seq<Event>, t: State) {
    NotClosed(evs) && Run(Initial(0, 1, {0, 1, 2, 3}), evs) == t
  }

  lemma {:induction false} Extend(evs: seq<Event>, t: State, e: Event)
    requires Reaches(evs, t) && (e.OnConn? ==> !e.c.Close?)
    ensures Reaches(evs + [e], Next(t, e))
  {
    assert (evs + [e])[..|evs + [e]| - 1] == evs;
  }

  lemma {:induction false} MoveConn(evs: seq<Event>, t: State, g: nat, newId: nat) returns (more: seq<Event>)
    requires Reaches(evs, t) && AtRest(t, newId) && !InConnect(t, g)
    ensures Reaches(more, t.(conn := C.Next(t.conn, C.Act(g, true, newId))))
  {
    more := evs + [OnConn(C.Act(g, true, newId))];
    Extend(evs, t, OnConn(C.Act(g, true, newId)));
  }

  lemma {:induction false} MovePool(evs: seq<Event>, t: State, a: nat, choice: P.Choice) returns (more: seq<Event>)
    requires Reaches(evs, t) && PoolEnabled(t, P.Act(a, choice)) && !CompletesFill(t, P.Act(a, choice))
    ensures Reaches(more, t.(pool := P.Next(t.pool, P.Act(a, choice))))
  {
    more := evs + [OnPool(P.Act(a, choice))];
    Extend(evs, t, OnPool(P.Act(a, choice)));
  }

  ghost predicate IdleActor(t: State, a: nat) {
    a in t.pool.actors && t.pool.actors[a].Idle?
  }

  ghost predicate MayDrain(t: State, a: nat) {
    IdleActor(t, a) && ((InConnect(t, a) && a !in t.filled) || a !in t.conn.pcs)
  }

  /** A drain that finds nothing. */
  lemma {:induction false} DrainsNothing(evs: seq<Event>, t: State, a: nat) returns (more: seq<Event>)
    requires Reaches(evs, t) && MayDrain(t, a) && t.pool.pool.buffer == []
    ensures Reaches(more, t)
  {
    more := MovePool(evs, t, a, P.Begin(P.Drain));
    var t1 := t.(pool := P.Become(t.pool, a, P.Draining));
    more := MovePool(more, t1, a, P.Proceed);
    assert t1.pool.actors[a := P.Idle] == t.pool.actors;
  }

  ghost function Emptied(pool: P.State, ch: Chan): P.State {
    P.State(Pool(pool.pool.size, [], pool.pool.open - {ch}), pool.actors, pool.made, pool.gone + {ch})
  }

  /** A drain that finds one channel. */
  lemma {:induction false} DrainsOne(evs: seq<Event>, t: State, a: nat, ch: Chan) returns (more: seq<Event>)
    requires Reaches(evs, t) && MayDrain(t, a) && t.pool.pool.buffer == [ch]
    ensures Reaches(more, t.(pool := Emptied(t.pool, ch)))
  {
    more := MovePool(evs, t, a, P.Begin(P.Drain));
    var t1 := t.(pool := P.Become(t.pool, a, P.Draining));
    more := MovePool(more, t1, a, P.Proceed);
    var t2 := t1.(pool := Emptied(t1.pool, ch));
    assert [ch][1..] == [];
    assert P.Next(t1.pool, P.Act(a, P.Proceed)) == t2.pool;
    more := MovePool(more, t2, a, P.Proceed);
    assert t1.pool.actors[a := P.Idle] == t.pool.actors;
  }

  ghost function Offered(pool: P.State, a: nat, ch: Chan): P.State {
    P.State(pool.pool.(open := pool.pool.open + {ch}), pool.actors[a := P.Offering(0, ch)], pool.made + {ch}, pool.gone)
  }

  /** The fill opens its channel and is about to send it. */
  lemma {:induction false} Offers(evs: seq<Event>, t: State, a: nat, ch: Chan) returns (more: seq<Event>)
    requires Reaches(evs, t) && IdleActor(t, a) && InConnect(t, a) && a !in t.filled && t.pool.pool.size == 1 && ch !in t.pool.made
    ensures Reaches(more, t.(pool := Offered(t.pool, a, ch)))
  {
    more := MovePool(evs, t, a, P.Begin(P.Fill));
    var t1 := t.(pool := P.Become(t.pool, a, P.Filling(0)));
    more := MovePool(more, t1, a, P.Opened(ch));
    var t2 := t1.(pool := P.Become(Offered(t1.pool, a, ch), a, P.Confirming(0, ch)));
    assert t1.pool.actors[a := P.Confirming(0, ch)] == t2.pool.actors;
    more := MovePool(more, t2, a, P.Proceed);
    assert t2.pool.actors[a := P.Offering(0, ch)] == t.pool.actors[a := P.Offering(0, ch)];
  }

  ghost function Sent(pool: P.State, a: nat, ch: Chan): P.State {
    P.State(Pool(pool.pool.size, [ch], pool.pool.open + {ch}), pool.actors[a := P.Filling(1)], pool.made + {ch}, pool.gone)
  }

  lemma {:induction false} Sends(evs: seq<Event>, t: State, a: nat, ch: Chan) returns (more: seq<Event>)
    requires Reaches(evs, t) && IdleActor(t, a) && InConnect(t, a) && a !in t.filled && t.pool.pool.size == 1 && ch !in t.pool.made
    requires t.pool.pool.buffer == []
    ensures Reaches(more, t.(pool := Sent(t.pool, a, ch)))
  {
    more := Offers(evs, t, a, ch);
    var t1 := t.(pool := Offered(t.pool, a, ch));
    more := MovePool(more, t1, a, P.Proceed);
    assert [] + [ch] == [ch];
    assert t1.pool.actors[a := P.Filling(1)] == t.pool.actors[a := P.Filling(1)];
  }

  /** The fill ends and connect stores Connected. */
  lemma {:induction false} Connects(evs: seq<Event>, t: State, a: nat) returns (more: seq<Event>)
    requires Reaches(evs, t) && InConnect(t, a) && t.filled == {} && t.pool.pool.size == 1
    requires a in t.pool.actors && t.pool.actors[a] == P.Filling(1)
    ensures Reaches(more, State(C.Next(t.conn, C.Act(a, true, a)), P.Become(t.pool, a, P.Idle), {}))
  {
    var done, up := OnPool(P.Act(a, P.Proceed)), OnConn(C.Act(a, true, a));
    Extend(evs, t, done);
    var t1 := State(t.conn, P.Become(t.pool, a, P.Idle), {a});
    assert Next(t, done) == t1;
    Extend(evs + [done], t1, up);
    assert {a} - {a} == {};
    more := evs + [done] + [up];
  }

  ghost function Up(pcs: map<nat, C.Pc>): C.State {
    C.State(C.Connected, pcs, true, false)
  }

  ghost function Dialing(pcs: map<nat, C.Pc>): C.State {
    C.State(C.Connecting, pcs, true, false)
  }

  /** Watcher w finds its connection lost, wins the swap, and r gets to dialing. */
  lemma {:induction false} Redials(evs: seq<Event>, t: State, pcs: map<nat, C.Pc>, w: nat, r: nat) returns (more: seq<Event>)
    requires Reaches(evs, t) && t.conn == Up(pcs) && w !in pcs && r !in pcs && w != r && AtRest(t, w) && AtRest(t, r)
    ensures Reaches(more, t.(conn := Dialing(pcs[w := C.Finished][r := C.DialAgain])))
  {
    var lost := OnConn(C.Lost(w));
    Extend(evs, t, lost);
    var p1 := pcs[w := C.TriggerLoad];
    more := MoveConn(evs + [lost], t.(conn := Up(p1)), w, r);
    var p2 := p1[w := C.TriggerCas(C.Connected)];
    more := MoveConn(more, t.(conn := Up(p2)), w, r);
    var p3 := p2[w := C.Finished][r := C.Backoff];
    more := MoveConn(more, t.(conn := Dialing(p3)), r, r);
    var p4 := p3[r := C.ConnectAgain];
    more := MoveConn(more, t.(conn := Dialing(p4)), r, r);
    assert p4[r := C.DialAgain] == pcs[w := C.Finished][r := C.DialAgain];
  }

  /** A watcher that finds the state Connecting leaves it at that. */
  lemma {:induction false} SeesConnecting(evs: seq<Event>, t: State, pcs: map<nat, C.Pc>, w: nat) returns (more: seq<Event>)
    requires Reaches(evs, t) && t.conn == Dialing(pcs) && w !in pcs && AtRest(t, w)
    ensures Reaches(more, t.(conn := Dialing(pcs[w := C.Finished])))
  {
    var lost := OnConn(C.Lost(w));
    Extend(evs, t, lost);
    more := MoveConn(evs + [lost], t.(conn := Dialing(pcs[w := C.TriggerLoad])), w, w);
    assert pcs[w := C.TriggerLoad][w := C.Finished] == pcs[w := C.Finished];
  }

  /** All four at rest but for one. */
  ghost function Only(a: nat, actor: P.Actor): map<nat, P.Actor> {
    map[0 := P.Idle, 1 := P.Idle, 2 := P.Idle, 3 := P.Idle][a := actor]
  }

  ghost function PoolAt(buffer: seq<Chan>, open: set<Chan>, actors: map<nat, P.Actor>, made: set<Chan>, gone: set<Chan>): P.State {
    P.State(Pool(1, buffer, open), actors, made, gone)
  }

  /** NewClient succeeds with channel ch in its pool. */
  lemma {:induction false} NewClient(ch: Chan) returns (evs: seq<Event>)
    ensures Reaches(evs, State(Up(map[0 := C.Finished]), PoolAt([ch], {ch}, Only(0, P.Idle), {ch}, {}), {}))
  {
    var s := Initial(0, 1, {0, 1, 2, 3});
    assert s.pool.actors == Only(0, P.Idle);
    evs := MoveConn([], s, 0, 0);
    var t := State(C.State(C.Connecting, map[0 := C.FirstDial], false, false), s.pool, {});
    evs := DrainsNothing(evs, t, 0);
    evs := Sends(evs, t, 0, ch);
    var t1 := t.(pool := Sent(t.pool, 0, ch));
    evs := Connects(evs, t1, 0);
    assert C.Next(t1.conn, C.Act(0, true, 0)) == Up(map[0 := C.Finished]);
    assert {} + {ch} == {ch};
    assert t1.pool.actors[0 := P.Idle] == Only(0, P.Idle);
  }

  /** The publisher connection is lost, and goroutine 3 has sent the new pool its channel. */
  ghost function Refilled(ch: Chan, other: Chan): State {
    State(Dialing(map[0 := C.Finished, 1 := C.Finished, 3 := C.DialAgain]),
          PoolAt([other], {other}, Only(3, P.Filling(1)), {ch, other}, {ch}), {})
  }

  lemma {:induction false} Refills(ch: Chan, other: Chan) returns (evs: seq<Event>)
    requires ch != other
    ensures Reaches(evs, Refilled(ch, other))
  {
    evs := NewClient(ch);
    var pcs := map[0 := C.Finished];
    var t0 := State(Up(pcs), PoolAt([ch], {ch}, Only(0, P.Idle), {ch}, {}), {});
    evs := DrainsOne(evs, t0, 1, ch);
    var t1 := t0.(pool := Emptied(t0.pool, ch));
    evs := Redials(evs, t1, pcs, 1, 3);
    var t2 := t1.(conn := Dialing(pcs[1 := C.Finished][3 := C.DialAgain]));
    evs := DrainsNothing(evs, t2, 3);
    evs := Sends(evs, t2, 3, other);
    assert {ch} - {ch} + {other} == {other} && {ch} + {other} == {ch, other} && {} + {ch} == {ch};
    assert Sent(t2.pool, 3, other).actors == Only(3, P.Filling(1));
  }

  /**
   Both connections are lost; the second watcher drains the pool just after the refill sent its
   channel, and finds the state Connecting.  The client ends Connected with an empty pool.
   */
  lemma {:induction false} DrainDuringRefillStarves(ch: Chan, other: Chan) returns (evs: seq<Event>, t: State)
    requires ch != other
    ensures Reaches(evs, t) && Starved(t)
  {
    evs := Refills(ch, other);
    var t3 := Refilled(ch, other);
    evs := DrainsOne(evs, t3, 2, other);
    var t4 := t3.(pool := Emptied(t3.pool, other));
    evs := SeesConnecting(evs, t4, t3.conn.pcs, 2);
    var t5 := t4.(conn := Dialing(t3.conn.pcs[2 := C.Finished]));
    evs := Connects(evs, t5, 3);
    t := State(C.Next(t5.conn, C.Act(3, true, 3)), P.Become(t5.pool, 3, P.Idle), {});
  }

  /** A publisher borrows the only channel. */
  lemma {:induction false} Borrows(evs: seq<Event>, t: State, a: nat, ch: Chan) returns (more: seq<Event>)
    requires Reaches(evs, t) && IdleActor(t, a) && a !in t.conn.pcs && t.conn.conn.Connected?
    requires t.pool.pool.buffer == [ch] && ch in t.pool.pool.open
    ensures Reaches(more, t.(pool := P.Become(t.pool.(pool := t.pool.pool.(buffer := [])), a, P.Publishing(ch))))
  {
    more := MovePool(evs, t, a, P.Begin(P.Publish));
    var t1 := t.(pool := P.Become(t.pool, a, P.Borrowing(false)));
    more := MovePool(more, t1, a, P.Proceed);
    var t2 := t.(pool := P.Become(t.pool, a, P.Receiving));
    assert t1.pool.actors[a := P.Receiving] == t2.pool.actors;
    more := MovePool(more, t2, a, P.Proceed);
    assert [ch][1..] == [];
    assert t2.pool.actors[a := P.Publishing(ch)] == t.pool.actors[a := P.Publishing(ch)];
  }

  /**
   The consumer connection is lost while a publisher holds the channel; it returns the channel,
   still open, before the refill sends its own.  The client is Connecting for good.
   */
  lemma {:induction false} ReturnDuringRefillSticks(ch: Chan, other: Chan) returns (evs: seq<Event>, t: State)
    requires ch != other
    ensures Reaches(evs, t) && Stuck(t, 0, 3)
  {
    evs := NewClient(ch);
    var calm, pcs := Only(0, P.Idle), map[0 := C.Finished];
    var t0 := State(Up(pcs), PoolAt([ch], {ch}, calm, {ch}, {}), {});
    evs := Borrows(evs, t0, 2, ch);
    var t1 := t0.(pool := PoolAt([], {ch}, calm[2 := P.Publishing(ch)], {ch}, {}));
    evs := DrainsNothing(evs, t1, 1);
    evs := Redials(evs, t1, pcs, 1, 3);
    var t2 := t1.(conn := Dialing(pcs[1 := C.Finished][3 := C.DialAgain]));
    evs := DrainsNothing(evs, t2, 3);
    evs := Offers(evs, t2, 3, other);
    var t3 := t2.(pool := Offered(t2.pool, 3, other));
    evs := MovePool(evs, t3, 2, P.Proceed);
    t := t3.(pool := P.Next(t3.pool, P.Act(2, P.Proceed)));
    InvRun(0, 1, {0, 1, 2, 3}, evs);
  }
}
