/**
 The client's atomic connection state under any number of goroutines: NewClient's first
 connect, triggerReconnect for every connection-lost notification (current or stale), and
 reconnectWithBackoff.  One event is one atomic access to the state or one dialing attempt.
 */
module ConnectionProtocol {
  datatype ConnState = Disconnected | Connecting | Connected | Closing

  /** Where a goroutine stands; the comment names what its next event does. */
  datatype Pc =
    | FirstConnect        // store Connecting, in NewClient's connect
    | FirstDial           // dial and fill the pool, then store Connected or give up
    | FirstFailed         // NewClient returned an error; the client was never handed out
    | TriggerLoad         // load the state
    | TriggerCas(seen: ConnState)  // swap the state seen for Connecting
    | Backoff             // wait, or see closeChan; then load the state
    | ConnectAgain        // store Connecting, in reconnectWithBackoff's connect
    | DialAgain           // dial and fill the pool, then store Connected or back off
    | Restoring           // restore the topology
    | Finished
  {
    /** From winning the swap, or the first store of Connecting, to the store of Connected. */
    predicate Dialing() {
      FirstDial? || Backoff? || ConnectAgain? || DialAgain?
    }
  }

  datatype State = State(conn: ConnState, pcs: map<nat, Pc>, handedOut: bool, closed: bool)

  /**
   Lost: a watcher of some connection starts triggerReconnect in goroutine g.
   Act: goroutine g moves; ok says whether dialing succeeds, or in Backoff whether the timer
   (true) or closeChan (false) is taken; newId names the goroutine a won swap starts.
   */
  datatype Event = Lost(g: nat) | Act(g: nat, ok: bool, newId: nat) | Close

  function Initial(main: nat): State {
    State(Disconnected, map[main := FirstConnect], false, false)
  }

  function Move(s: State, g: nat, ok: bool, newId: nat): State
    requires g in s.pcs
  {
    match s.pcs[g]
    case FirstConnect => s.(conn := Connecting, pcs := s.pcs[g := FirstDial])
    case FirstDial =>
      if ok then s.(conn := Connected, pcs := s.pcs[g := Finished], handedOut := true)
      else s.(pcs := s.pcs[g := FirstFailed])
    case TriggerLoad =>
      if s.conn.Connecting? || s.conn.Closing? then s.(pcs := s.pcs[g := Finished])
      else s.(pcs := s.pcs[g := TriggerCas(s.conn)])
    case TriggerCas(seen) =>
      if s.conn != seen then s.(pcs := s.pcs[g := TriggerLoad])
      else if newId in s.pcs then s
      else s.(conn := Connecting, pcs := s.pcs[g := Finished][newId := Backoff])
    case Backoff =>
      if !ok then
        if s.closed then s.(conn := Disconnected, pcs := s.pcs[g := Finished]) else s
      else if s.conn.Closing? then s.(conn := Disconnected, pcs := s.pcs[g := Finished])
      else s.(pcs := s.pcs[g := ConnectAgain])
    case ConnectAgain => s.(conn := Connecting, pcs := s.pcs[g := DialAgain])
    case DialAgain =>
      if ok then s.(conn := Connected, pcs := s.pcs[g := Restoring])
      else s.(pcs := s.pcs[g := Backoff])
    case Restoring => s.(pcs := s.pcs[g := Finished])
    case FirstFailed => s
    case Finished => s
  }

  /** Watchers exist, and Close can be called, only once NewClient has returned the client. */
  function Next(s: State, e: Event): State {
    match e
    case Lost(g) => if s.handedOut && g !in s.pcs then s.(pcs := s.pcs[g := TriggerLoad]) else s
    case Act(g, ok, newId) => if g in s.pcs then Move(s, g, ok, newId) else s
    case Close => if s.handedOut then s.(conn := Closing, closed := true) else s
  }

  function Run(s: State, evs: seq<Event>): State {
    if evs == [] then s else Next(Run(s, evs[..|evs| - 1]), evs[|evs| - 1])
  }

  ghost predicate Dials(s: State, g: nat) {
    g in s.pcs && s.pcs[g].Dialing()
  }

  ghost predicate SomeoneDials(s: State) {
    exists g :: Dials(s, g)
  }

  ghost predicate AtMostOneDials(s: State) {
    forall g, h :: Dials(s, g) && Dials(s, h) ==> g == h
  }

  ghost predicate GaveUp(s: State) {
    exists g :: g in s.pcs && s.pcs[g].FirstFailed?
  }

  ghost predicate NotClosed(evs: seq<Event>) {
    forall i :: 0 <= i < |evs| ==> !evs[i].Close?
  }

  /** Before the client is handed out the main goroutine is alone. */
  ghost predicate FirstInv(s: State, main: nat) {
    && s.pcs.Keys == {main} && !s.closed
    && match s.pcs[main]
       case FirstConnect => s.conn.Disconnected?
       case FirstDial => s.conn.Connecting?
       case FirstFailed => s.conn.Connecting?
       case _ => false
  }

  ghost predicate ServingInv(s: State) {
    && !s.closed && s.handedOut
    && (s.conn.Connecting? || s.conn.Connected?)
    && AtMostOneDials(s)
    && (s.conn.Connecting? <==> SomeoneDials(s))
    && forall g :: g in s.pcs ==>
         && !s.pcs[g].FirstConnect? && !s.pcs[g].FirstDial? && !s.pcs[g].FirstFailed?
         && (s.pcs[g].TriggerCas? ==> s.pcs[g].seen.Connected?)
  }

  ghost predicate Inv(s: State, main: nat) {
    if s.handedOut then ServingInv(s) else FirstInv(s, main)
  }

  lemma ServingMove(s: State, g: nat, ok: bool, newId: nat)
    requires ServingInv(s) && g in s.pcs
    ensures ServingInv(Move(s, g, ok, newId))
  {
    var s' := Move(s, g, ok, newId);
    assert forall h :: h != g && h != newId ==> Dials(s', h) == Dials(s, h);
    if s.pcs[g].Dialing() {
      assert Dials(s, g) && ((s.pcs[g].DialAgain? && ok) || Dials(s', g));
      assert newId != g && newId in s.pcs ==> Dials(s', newId) == Dials(s, newId);
    } else if s'.conn != s.conn {
      assert Dials(s', newId) && !SomeoneDials(s);
    } else {
      assert forall h :: Dials(s', h) == Dials(s, h);
    }
  }

  lemma InvStep(s: State, e: Event, main: nat)
    requires Inv(s, main) && !e.Close?
    ensures Inv(Next(s, e), main)
  {
    var s' := Next(s, e);
    if s.handedOut {
      match e
      case Act(g, ok, newId) =>
        if g in s.pcs {
          ServingMove(s, g, ok, newId);
        }
      case Lost(g) =>
        assert forall h :: Dials(s', h) == Dials(s, h);
      case Close =>
    } else if s'.handedOut {
      assert forall h :: !Dials(s', h);
    }
  }

  lemma {:induction false} InvRun(main: nat, evs: seq<Event>)
    requires NotClosed(evs)
    ensures Inv(Run(Initial(main), evs), main)
  {
    if evs != [] {
      InvRun(main, evs[..|evs| - 1]);
      InvStep(Run(Initial(main), evs[..|evs| - 1]), evs[|evs| - 1], main);
    }
  }

  /**
   Before Close, however many connection-lost notifications arrive and interleave: at most one
   goroutine is dialing, and the state reads Connecting exactly while one is, unless NewClient
   itself failed and never handed the client out.
   */
  lemma SingleDialer(main: nat, evs: seq<Event>)
    requires NotClosed(evs)
    ensures var s := Run(Initial(main), evs);
            && AtMostOneDials(s)
            && (!GaveUp(s) ==> (s.conn.Connecting? <==> SomeoneDials(s)))
            && (GaveUp(s) ==> !s.handedOut && !SomeoneDials(s))
            && !s.conn.Closing?
  {
    InvRun(main, evs);
    var s := Run(Initial(main), evs);
    if !s.handedOut {
      assert Dials(s, main) <==> s.pcs[main].FirstDial?;
      assert forall g :: g in s.pcs ==> g == main;
    }
  }

  lemma {:induction false} Then(s: State, evs: seq<Event>, t: State, e: Event, t': State)
    requires Run(s, evs) == t && Next(t, e) == t'
    ensures Run(s, evs + [e]) == t'
  {
    assert (evs + [e])[..|evs + [e]| - 1] == evs;
  }

  /** A lost connection is noticed, the swap is won, and the goroutine it starts dials at once. */
  ghost function Reconnection(lost: nat, newId: nat): seq<Event> {
    [Lost(lost)] + [Act(lost, true, newId)] + [Act(lost, true, newId)] +
    [Act(newId, true, newId)] + [Act(newId, true, newId)] + [Act(newId, true, newId)]
  }

  lemma {:induction false} ReconnectsAgain(s: State, evs: seq<Event>, t: State, lost: nat, newId: nat)
    requires Run(s, evs) == t && t.conn.Connected? && t.handedOut && lost !in t.pcs && newId !in t.pcs && lost != newId
    ensures Run(s, evs + Reconnection(lost, newId)) == t.(pcs := t.pcs[lost := Finished][newId := Restoring])
  {
    var l, a := Act(lost, true, newId), Act(newId, true, newId);
    var p := t.pcs[lost := TriggerLoad];
    var q := t.pcs[lost := Finished][newId := Backoff];
    Then(s, evs, t, Lost(lost), t.(pcs := p));
    Then(s, evs + [Lost(lost)], t.(pcs := p), l, t.(pcs := p[lost := TriggerCas(Connected)]));
    assert p[lost := TriggerCas(Connected)][lost := Finished][newId := Backoff] == q;
    Then(s, evs + [Lost(lost)] + [l], t.(pcs := p[lost := TriggerCas(Connected)]), l, t.(conn := Connecting, pcs := q));
    DialsAtOnce(s, evs + [Lost(lost)] + [l] + [l], t, q, newId);
    assert evs + Reconnection(lost, newId) == evs + [Lost(lost)] + [l] + [l] + [a] + [a] + [a];
    assert q[newId := Restoring] == t.pcs[lost := Finished][newId := Restoring];
  }

  lemma {:induction false} DialsAtOnce(s: State, evs: seq<Event>, t: State, q: map<nat, Pc>, g: nat)
    requires Run(s, evs) == t.(conn := Connecting, pcs := q) && g in q && q[g].Backoff? && t.conn.Connected?
    ensures Run(s, evs + [Act(g, true, g)] + [Act(g, true, g)] + [Act(g, true, g)]) == t.(pcs := q[g := Restoring])
  {
    var a, c := Act(g, true, g), t.(conn := Connecting, pcs := q);
    Then(s, evs, c, a, c.(pcs := q[g := ConnectAgain]));
    Then(s, evs + [a], c.(pcs := q[g := ConnectAgain]), a, c.(pcs := q[g := ConnectAgain][g := DialAgain]));
    assert q[g := ConnectAgain][g := DialAgain][g := Restoring] == q[g := Restoring];
    Then(s, evs + [a] + [a], c.(pcs := q[g := ConnectAgain][g := DialAgain]), a, t.(pcs := q[g := Restoring]));
  }

  // ---------------------------------------------------------------------------------------
  // What becomes of a notification and of an attempt

  ghost predicate Triggers(s: State, g: nat) {
    g in s.pcs && (s.pcs[g].TriggerLoad? || s.pcs[g].TriggerCas?)
  }

  /** A notification is dropped only by a read of Connecting or Closing; otherwise it ends by starting a dialer. */
  lemma TriggerEndsOnlyIf(s: State, e: Event, g: nat)
    requires Triggers(s, g) && !Triggers(Next(s, e), g)
    ensures e.Act? && e.g == g
    ensures || (s.pcs[g].TriggerLoad? && (s.conn.Connecting? || s.conn.Closing?) && Next(s, e) == s.(pcs := s.pcs[g := Finished]))
            || (e.newId !in s.pcs && Next(s, e) == s.(conn := Connecting, pcs := s.pcs[g := Finished][e.newId := Backoff]))
  {
  }

  /** Before Close no loss goes unnoticed: when a notification has ended, someone is dialing. */
  lemma NoLossIgnored(s: State, e: Event, g: nat, main: nat)
    requires Inv(s, main) && !e.Close? && Triggers(s, g) && !Triggers(Next(s, e), g)
    ensures SomeoneDials(Next(s, e))
  {
    InvStep(s, e, main);
    TriggerEndsOnlyIf(s, e, g);
  }

  /** Undisturbed, a notification is settled in two steps. */
  lemma {:induction false} TriggerDecides(s: State, g: nat, newId: nat)
    requires g in s.pcs && s.pcs[g].TriggerLoad? && newId !in s.pcs
    ensures Run(s, [Act(g, true, newId)] + [Act(g, true, newId)]) ==
            if s.conn.Connecting? || s.conn.Closing? then s.(pcs := s.pcs[g := Finished])
            else s.(conn := Connecting, pcs := s.pcs[g := Finished][newId := Backoff])
  {
    var e := Act(g, true, newId);
    assert [] + [e] == [e];
    Then(s, [], s, e, Next(s, e));
    Then(s, [e], Next(s, e), e, Next(Next(s, e), e));
    assert s.pcs[g := TriggerCas(s.conn)][g := Finished] == s.pcs[g := Finished];
  }

  lemma {:induction false} AttemptBegins(s: State, g: nat)
    requires g in s.pcs && s.pcs[g].Backoff? && !s.conn.Closing?
    ensures Run(s, [Act(g, true, g)] + [Act(g, true, g)]) == s.(conn := Connecting, pcs := s.pcs[g := DialAgain])
  {
    var a, s1 := Act(g, true, g), s.(pcs := s.pcs[g := ConnectAgain]);
    assert [] + [a] == [a];
    Then(s, [], s, a, s1);
    assert s1.pcs[g := DialAgain] == s.pcs[g := DialAgain];
    Then(s, [a], s1, a, s.(conn := Connecting, pcs := s.pcs[g := DialAgain]));
  }

  /** From a backoff that nobody disturbs: a failed attempt backs off again, a successful one connects and goes on to restore. */
  lemma {:induction false} Attempt(s: State, g: nat, ok: bool)
    requires g in s.pcs && s.pcs[g].Backoff? && !s.conn.Closing?
    ensures Run(s, [Act(g, true, g)] + [Act(g, true, g)] + [Act(g, ok, g)]) ==
            if ok then s.(conn := Connected, pcs := s.pcs[g := Restoring]) else s.(conn := Connecting, pcs := s.pcs[g := Backoff])
  {
    var a, s2 := Act(g, true, g), s.(conn := Connecting, pcs := s.pcs[g := DialAgain]);
    AttemptBegins(s, g);
    assert s2.pcs[g := Restoring] == s.pcs[g := Restoring] && s2.pcs[g := Backoff] == s.pcs[g := Backoff];
    var s3 := if ok then s.(conn := Connected, pcs := s.pcs[g := Restoring]) else s.(conn := Connecting, pcs := s.pcs[g := Backoff]);
    assert Next(s2, Act(g, ok, g)) == s3;
    Then(s, [a] + [a], s2, Act(g, ok, g), s3);
  }

  /** The restore is the last thing a dialer does, whatever the state has become. */
  lemma RestoreIsLast(s: State, g: nat, ok: bool, newId: nat)
    requires g in s.pcs && s.pcs[g].Restoring?
    ensures Next(s, Act(g, ok, newId)) == s.(pcs := s.pcs[g := Finished])
  {
  }

  /** A dialer that is backing off when the client closes stops, whichever it sees first, and leaves the state Disconnected. */
  lemma CloseStopsBackoff(s: State, g: nat, timer: bool)
    requires s.handedOut && g in s.pcs && s.pcs[g].Backoff?
    ensures var t := Next(Next(s, Close), Act(g, timer, g));
            t.conn.Disconnected? && t.closed && t.pcs == s.pcs[g := Finished]
  {
  }

  /** NewClient succeeds. */
  ghost function FirstConnection(main: nat): seq<Event> {
    [Act(main, true, main)] + [Act(main, true, main)]
  }

  lemma {:induction false} FirstConnects(main: nat)
    ensures Run(Initial(main), FirstConnection(main)) == State(Connected, map[main := Finished], true, false)
  {
    var s, e, dial := Initial(main), Act(main, true, main), State(Connecting, map[main := FirstDial], false, false);
    assert [] + [e] == [e];
    Then(s, [], s, e, dial);
    Then(s, [e], dial, e, State(Connected, map[main := Finished], true, false));
  }

  /**
   Only dialing is exclusive: a connection lost while one goroutine restores the topology leads
   to a second one that restores it at the same time.
   */
  lemma {:induction false} TwoRestorers(main: nat)
    ensures var s := Run(Initial(main), FirstConnection(main) + Reconnection(main + 1, main + 2) + Reconnection(main + 3, main + 4));
            main + 2 in s.pcs && main + 4 in s.pcs && s.pcs[main + 2].Restoring? && s.pcs[main + 4].Restoring? && !s.closed
  {
    var s, up := Initial(main), State(Connected, map[main := Finished], true, false);
    FirstConnects(main);
    ReconnectsAgain(s, FirstConnection(main), up, main + 1, main + 2);
    var one := up.(pcs := up.pcs[main + 1 := Finished][main + 2 := Restoring]);
    assert main + 3 !in one.pcs && main + 4 !in one.pcs && main + 2 in one.pcs;
    var two := one.pcs[main + 3 := Finished][main + 4 := Restoring];
    assert two[main + 2].Restoring? && two[main + 4].Restoring?;
    ReconnectsAgain(s, FirstConnection(main) + Reconnection(main + 1, main + 2), one, main + 3, main + 4);
  }

  // ---------------------------------------------------------------------------------------
  // Close

  /** Closed with nobody dialing. */
  ghost predicate Shut(s: State) {
    && s.closed && s.handedOut && s.conn.Closing?
    && forall g :: g in s.pcs ==>
         && !s.pcs[g].Dialing() && !s.pcs[g].FirstConnect?
         && (s.pcs[g].TriggerCas? ==> !s.pcs[g].seen.Closing?)
  }

  lemma {:induction false} ShutForever(s: State, evs: seq<Event>)
    requires Shut(s)
    ensures Shut(Run(s, evs))
  {
    if evs != [] {
      ShutForever(s, evs[..|evs| - 1]);
    }
  }

  lemma OneStepRun(s: State, e: Event)
    ensures Run(s, [e]) == Next(s, e)
  {
  }

  /**
   Closing is final exactly when nobody was dialing at the time of Close, that is when the
   state then was not Connecting: a dialing goroutine stores over it unconditionally.
   */
  lemma ClosingIsFinalIff(main: nat, evs: seq<Event>)
    requires NotClosed(evs) && Run(Initial(main), evs).handedOut
    ensures var s := Run(Initial(main), evs);
            (forall more :: Run(Next(s, Close), more).conn.Closing?) <==> !s.conn.Connecting?
  {
    var s := Run(Initial(main), evs);
    InvRun(main, evs);
    var t := Next(s, Close);
    if s.conn.Connecting? {
      var g :| Dials(s, g);
      var more := [Act(g, s.pcs[g].DialAgain?, 0)];
      OneStepRun(t, more[0]);
      assert !Run(t, more).conn.Closing?;
    } else {
      forall g | g in s.pcs
        ensures !s.pcs[g].Dialing()
      {
        assert Dials(s, g) ==> SomeoneDials(s);
      }
      assert Shut(t);
      forall more
        ensures Run(t, more).conn.Closing?
      {
        ShutForever(t, more);
      }
    }
  }
}

/** The waits of reconnectWithBackoff in 64-bit nanoseconds. */
module ReconnectBackoff {
  import opened Wrappers

  const TWO_62: int := 0x4000_0000_0000_0000
  const TWO_63: int := 0x8000_0000_0000_0000
  const TWO_64: int := 0x1_0000_0000_0000_0000

  type Duration = d: int | -TWO_63 <= d < TWO_63 witness 0

  /** Doubling wraps around as in 64-bit two's complement. */
  function Twice(d: Duration): Duration {
    if d >= TWO_62 then 2 * d - TWO_64
    else if d < -TWO_62 then 2 * d + TWO_64
    else 2 * d
  }

  function Grow(backoff: Duration, max: Duration): Duration {
    var doubled := Twice(backoff);
    if doubled > max then max else doubled
  }

  /** The wait requested after k failed attempts. */
  function WaitAfter(initial: Duration, max: Duration, k: nat): Duration {
    if k == 0 then initial else Grow(WaitAfter(initial, max, k - 1), max)
  }

  /** The first n waits. */
  ghost function WaitsAfter(initial: Duration, max: Duration, n: nat): (waits: seq<Duration>)
    ensures |waits| == n
  {
    if n == 0 then [] else WaitsAfter(initial, max, n - 1) + [WaitAfter(initial, max, n - 1)]
  }

  function Pow2(k: nat): (p: nat)
    ensures p > k
  {
    if k == 0 then 1 else 2 * Pow2(k - 1)
  }

  function Ideal(initial: int, max: int, k: nat): int {
    if k == 0 then initial else Min(initial * Pow2(k), max)
  }

  lemma Doubling(initial: int, k: nat)
    ensures initial * Pow2(k + 1) == 2 * (initial * Pow2(k))
  {
  }

  lemma Positive(initial: int, k: nat)
    requires initial > 0
    ensures initial * Pow2(k) > 0
  {
  }

  lemma {:induction false} WaitIsIdeal(initial: Duration, max: Duration, k: nat)
    requires 0 < initial < TWO_62 && 0 < max < TWO_62
    ensures WaitAfter(initial, max, k) == Ideal(initial, max, k)
    ensures 0 < WaitAfter(initial, max, k) < TWO_62
  {
    if k > 0 {
      WaitIsIdeal(initial, max, k - 1);
      var reached := initial * Pow2(k - 1);
      assert initial * Pow2(k) == 2 * reached by { Doubling(initial, k - 1); }
      assert reached > 0 by { Positive(initial, k - 1); }
      assert k == 1 ==> reached == initial;
      GrowIsMin(reached, WaitAfter(initial, max, k - 1), max);
    }
  }

  lemma GrowIsMin(reached: int, wait: Duration, max: Duration)
    requires 0 < wait < TWO_62 && 0 < max && (wait == reached || wait == Min(reached, max))
    ensures Grow(wait, max) == Min(2 * reached, max)
  {
  }

  /** The first k at which the doubled interval reaches 2^62. */
  lemma {:induction false} ReachesTwo62(initial: int, k: nat) returns (n: nat)
    requires 0 < initial && initial * Pow2(k) < TWO_62
    ensures TWO_62 <= initial * Pow2(n) < TWO_63
    decreases TWO_62 - initial * Pow2(k)
  {
    Doubling(initial, k);
    Positive(initial, k);
    if initial * Pow2(k + 1) >= TWO_62 {
      n := k + 1;
    } else {
      n := ReachesTwo62(initial, k + 1);
    }
  }

  /** After k >= 1 failures the wait is min(initial * 2^k, max) for every k exactly when both intervals are below 2^62. */
  lemma WaitIsIdealIff(initial: Duration, max: Duration)
    requires 0 < initial && 0 < max
    ensures (forall k: nat :: WaitAfter(initial, max, k) == Ideal(initial, max, k)) <==> initial < TWO_62 && max < TWO_62
  {
    if initial < TWO_62 && max < TWO_62 {
      forall k: nat
        ensures WaitAfter(initial, max, k) == Ideal(initial, max, k)
      {
        WaitIsIdeal(initial, max, k);
      }
    } else if initial >= TWO_62 {
      assert WaitAfter(initial, max, 0) == initial;
      assert WaitAfter(initial, max, 1) < 0;
      assert initial * Pow2(1) > 0;
      assert WaitAfter(initial, max, 1) != Ideal(initial, max, 1);
    } else {
      assert initial * Pow2(0) == initial;
      var n := ReachesTwo62(initial, 0);
      assert n > 0;
      assert Ideal(initial, max, n) >= TWO_62;
      if WaitAfter(initial, max, n) == Ideal(initial, max, n) {
        assert WaitAfter(initial, max, n + 1) < 0;
        Positive(initial, n + 1);
        assert WaitAfter(initial, max, n + 1) != Ideal(initial, max, n + 1);
      }
    }
  }
}
