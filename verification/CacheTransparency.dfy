/**
 What callers can observe through GetOrSet: the cache never changes an answer, whatever the
 timing, and CacheNil is invisible.
 */
module CacheTransparency {
  import opened Wrappers
  import opened ExpiringStore
  import opened CacheAside
  import opened CacheRuns

  /** CacheNil keeps the empty string out of the store, and without it a result is stored as it is. */
  lemma EncodingRoundTrip(v: string, cacheNil: bool)
    ensures FromStore(ToStore(v, cacheNil)) == v <==> v != NIL_SENTINEL
    ensures ToStore(v, true) != "" && ToStore(v, false) == v && ToStore("", true) == "\0nil\0"
    ensures v != "" ==> ToStore(v, cacheNil) == v
  {
  }

  /** Every call of fn made for a key returns the truth for that key, or fails. */
  ghost predicate Honest(reqs: Requests, truth: string -> string, e: Event) {
    e.Act? && e.caller in reqs && e.reply.Computed? ==> e.reply.value == truth(reqs[e.caller].key)
  }

  ghost predicate TellsTruth(o: Outcome, v: string) {
    o.Value? ==> o.v == v
  }

  ghost predicate PcTellsTruth(pc: Pc, v: string) {
    match pc
    case Storing(result) => result == v
    case Releasing(o) => TellsTruth(o, v)
    case Done(o) => TellsTruth(o, v)
    case _ => true
  }

  ghost predicate EntryTellsTruth(st: Store, key: string, v: string) {
    key in st.entries ==> FromStore(st.entries[key].value) == v
  }

  /** Every stored value of a requested key encodes the truth, and so does every value under way. */
  ghost predicate Truthful(reqs: Requests, truth: string -> string, s: State) {
    && s.pcs.Keys == reqs.Keys
    && (forall c :: c in reqs ==> EntryTellsTruth(s.store, reqs[c].key, truth(reqs[c].key)))
    && (forall c :: c in reqs ==> PcTellsTruth(s.pcs[c], truth(reqs[c].key)))
  }

  lemma MoveTellsTruth(r: Request, st: Store, pc: Pc, reply: Reply, v: string)
    requires v != NIL_SENTINEL
    requires EntryTellsTruth(st, r.key, v) && PcTellsTruth(pc, v)
    requires reply.Computed? ==> reply.value == v
    ensures EntryTellsTruth(Move(r, st, pc, reply).0, r.key, v) && PcTellsTruth(Move(r, st, pc, reply).1, v)
  {
  }

  lemma TruthfulMove(reqs: Requests, truth: string -> string, s: State, c: nat, st': Store, pc': Pc)
    requires NoCollision(reqs) && Truthful(reqs, truth, s) && c in reqs
    requires SameElsewhere(reqs[c], s.store, st')
    requires EntryTellsTruth(st', reqs[c].key, truth(reqs[c].key)) && PcTellsTruth(pc', truth(reqs[c].key))
    ensures Truthful(reqs, truth, State(st', s.pcs[c := pc']))
  {
  }

  lemma TruthfulStep(reqs: Requests, truth: string -> string, s: State, e: Event)
    requires NoCollision(reqs) && forall c :: c in reqs ==> truth(reqs[c].key) != NIL_SENTINEL
    requires Truthful(reqs, truth, s) && Honest(reqs, truth, e)
    ensures Truthful(reqs, truth, Next(reqs, s, e))
  {
    if e.Act? && e.caller in reqs {
      var c := e.caller;
      var m := Move(reqs[c], s.store, s.pcs[c], e.reply);
      MoveLockEffect(reqs[c], s.store, s.pcs[c], e.reply);
      MoveTellsTruth(reqs[c], s.store, s.pcs[c], e.reply, truth(reqs[c].key));
      TruthfulMove(reqs, truth, s, c, m.0, m.1);
    } else {
      var s' := Next(reqs, s, e);
      assert forall c :: c in reqs ==>
        EntryTellsTruth(s.store, reqs[c].key, truth(reqs[c].key)) ==> EntryTellsTruth(s'.store, reqs[c].key, truth(reqs[c].key));
    }
  }

  /**
   With no assumption on timing, lock expiry, faults or cancellation: if every fn tells the
   truth about its key or fails, then in every run every value returned is the truth and the
   cache holds nothing but encodings of it.
   */
  lemma {:induction false} Transparency(reqs: Requests, truth: string -> string, s: State, evs: seq<Event>)
    requires NoCollision(reqs) && forall c :: c in reqs ==> truth(reqs[c].key) != NIL_SENTINEL
    requires Truthful(reqs, truth, s)
    requires forall i :: 0 <= i < |evs| ==> Honest(reqs, truth, evs[i])
    ensures Truthful(reqs, truth, Run(reqs, s, evs))
  {
    if evs != [] {
      Transparency(reqs, truth, s, evs[..|evs| - 1]);
      TruthfulStep(reqs, truth, Run(reqs, s, evs[..|evs| - 1]), evs[|evs| - 1]);
    }
  }

  // ---------------------------------------------------------------------------------------
  // Errors

  /** The step at which a caller meets an error it must return; errors of the double check and of polls count as misses. */
  ghost function Fault(pc: Pc, reply: Reply): Option<Err> {
    if (pc.Start? || pc.TryLock? || pc.Storing?) && reply.Failed? then Some(StoreError(reply.id))
    else if pc.RunningFn() && reply.ComputeFailed? then Some(FnError(reply.id))
    else if pc.Sleeping? && reply.Cancelled? then Some(ContextError(reply.id))
    else None
  }

  /** The last error that caller c met in the run. */
  ghost function Met(reqs: Requests, s: State, evs: seq<Event>, c: nat): Option<Err> {
    if evs == [] then None
    else
      var t, e := Run(reqs, s, evs[..|evs| - 1]), evs[|evs| - 1];
      if e.Act? && e.caller == c && c in t.pcs && c in reqs && Fault(t.pcs[c], e.reply).Some?
      then Fault(t.pcs[c], e.reply) else Met(reqs, s, evs[..|evs| - 1], c)
  }

  /** The outcome settled on, if any, is the error met, and only then an error. */
  ghost predicate Reports(pc: Pc, met: Option<Err>) {
    if pc.Releasing? || pc.Done? then (if met.Some? then pc.outcome == Error(met.value) else pc.outcome.Value?)
    else met.None?
  }

  lemma MoveReports(r: Request, st: Store, pc: Pc, reply: Reply, met: Option<Err>)
    requires Reports(pc, met)
    ensures Reports(Move(r, st, pc, reply).1, if Fault(pc, reply).Some? then Fault(pc, reply) else met)
  {
  }

  /** In every run a caller returns an error exactly if it met one it must return, and then that one. */
  lemma {:induction false} ErrorsAreReported(reqs: Requests, s: State, evs: seq<Event>, c: nat)
    requires Init(reqs, s) && c in reqs
    ensures c in Run(reqs, s, evs).pcs && Reports(Run(reqs, s, evs).pcs[c], Met(reqs, s, evs, c))
  {
    if evs != [] {
      var init, e := evs[..|evs| - 1], evs[|evs| - 1];
      ErrorsAreReported(reqs, s, init, c);
      if e.Act? && e.caller == c {
        var t := Run(reqs, s, init);
        MoveReports(reqs[c], t.store, t.pcs[c], e.reply, Met(reqs, s, init, c));
      }
    }
  }

  // ---------------------------------------------------------------------------------------
  // Outcomes

  /** The outcome that an answer fixes: an error met, a value read, a value stored, or a fallback value. */
  ghost function Fixes(key: string, st: Store, pc: Pc, reply: Reply): Option<Outcome> {
    if Fault(pc, reply).Some? then Some(Error(Fault(pc, reply).value))
    else if (pc.Start? || pc.DoubleCheck? || pc.Polling?) && reply.Answered? && st.Live(key) then
      Some(Value(FromStore(st.entries[key].value)))
    else if pc.Storing? && reply.Answered? then Some(Value(pc.result))
    else if pc.Fallback? && reply.Computed? then Some(Value(reply.value))
    else None
  }

  /** The outcome fixed for caller c in the run, if any. */
  ghost function Fixed(reqs: Requests, s: State, evs: seq<Event>, c: nat): Option<Outcome> {
    if evs == [] then None
    else
      var t, e := Run(reqs, s, evs[..|evs| - 1]), evs[|evs| - 1];
      var before := Fixed(reqs, s, evs[..|evs| - 1], c);
      if before.None? && e.Act? && e.caller == c && c in t.pcs && c in reqs then Fixes(reqs[c].key, t.store, t.pcs[c], e.reply)
      else before
  }

  ghost predicate Settled(pc: Pc, fixed: Option<Outcome>) {
    if pc.Releasing? || pc.Done? then fixed == Some(pc.outcome) else fixed.None?
  }

  lemma MoveSettles(r: Request, st: Store, pc: Pc, reply: Reply, fixed: Option<Outcome>)
    requires Settled(pc, fixed)
    ensures Settled(Move(r, st, pc, reply).1, if fixed.None? then Fixes(r.key, st, pc, reply) else fixed)
  {
  }

  /**
   In every run a caller settles on the first outcome that an answer fixes, at that very moment,
   and keeps it: a value found by its first Get, its double check or any poll ends its search.
   */
  lemma {:induction false} OutcomeIsTheFirstFixed(reqs: Requests, s: State, evs: seq<Event>, c: nat)
    requires Init(reqs, s) && c in reqs
    ensures c in Run(reqs, s, evs).pcs && Settled(Run(reqs, s, evs).pcs[c], Fixed(reqs, s, evs, c))
  {
    if evs != [] {
      var init, e := evs[..|evs| - 1], evs[|evs| - 1];
      OutcomeIsTheFirstFixed(reqs, s, init, c);
      if e.Act? && e.caller == c {
        var t := Run(reqs, s, init);
        MoveSettles(reqs[c], t.store, t.pcs[c], e.reply, Fixed(reqs, s, init, c));
      }
    }
  }

  /** The last value that fn returned to caller c. */
  ghost function Returned(reqs: Requests, s: State, evs: seq<Event>, c: nat): Option<string> {
    if evs == [] then None
    else
      var t, e := Run(reqs, s, evs[..|evs| - 1]), evs[|evs| - 1];
      if e.Act? && e.caller == c && c in t.pcs && c in reqs && t.pcs[c].Computing? && e.reply.Computed? then Some(e.reply.value)
      else Returned(reqs, s, evs[..|evs| - 1], c)
  }

  /** What a caller is about to store is what fn returned to it. */
  lemma {:induction false} StoresWhatFnReturned(reqs: Requests, s: State, evs: seq<Event>, c: nat)
    requires Init(reqs, s) && c in reqs
    ensures c in Run(reqs, s, evs).pcs
    ensures Run(reqs, s, evs).pcs[c].Storing? ==> Returned(reqs, s, evs, c) == Some(Run(reqs, s, evs).pcs[c].result)
  {
    if evs != [] {
      StoresWhatFnReturned(reqs, s, evs[..|evs| - 1], c);
    }
  }

  // ---------------------------------------------------------------------------------------
  // The sentinel

  /** Two callers of one request on an empty cache. */
  ghost function Pair(r: Request): Requests {
    map[0 := r, 1 := r]
  }

  ghost function PairAt(st: Store, first: Pc, second: Pc): State {
    State(st, map[0 := first, 1 := second])
  }

  lemma {:induction false} FirstTakesLock(reqs: Requests, r: Request)
    requires reqs.Keys == {0, 1} && reqs[0] == r
    ensures Run(reqs, PairAt(COLD, Start, Start), Enter(0)) == PairAt(Locked(r), DoubleCheck, Start)
  {
    TakesLock(reqs, r);
    assert AllStart(reqs) == PairAt(COLD, Start, Start);
    assert AllStart(reqs).pcs[0 := DoubleCheck] == PairAt(Locked(r), DoubleCheck, Start).pcs;
  }

  /** Five moves take the first caller from a vacant key to a stored value. */
  ghost function LeaderMoves(v: string): seq<Event> {
    Enter(0) + [Act(0, Answered)] + [Act(0, Computed(v))] + [Act(0, Answered)]
  }

  lemma LeaderStores(r: Request, v: string)
    ensures Run(Pair(r), PairAt(COLD, Start, Start), LeaderMoves(v))
         == PairAt(Locked(r).Set(r.key, ToStore(v, r.cacheNil), r.ttl), Releasing(Value(v)), Start)
  {
    var reqs, a := Pair(r), Act(0, Answered);
    var s := PairAt(COLD, Start, Start);
    assert |LockKey(r.key)| > |r.key|;
    FirstTakesLock(reqs, r);
    Then(reqs, s, Enter(0), PairAt(Locked(r), DoubleCheck, Start), a, PairAt(Locked(r), Computing, Start));
    Then(reqs, s, Enter(0) + [a], PairAt(Locked(r), Computing, Start), Act(0, Computed(v)), PairAt(Locked(r), Storing(v), Start));
    Then(reqs, s, Enter(0) + [a] + [Act(0, Computed(v))], PairAt(Locked(r), Storing(v), Start), a,
         PairAt(Locked(r).Set(r.key, ToStore(v, r.cacheNil), r.ttl), Releasing(Value(v)), Start));
  }

  /** The lock lives for LockTTL, or ten seconds if that is not positive, and the value for its TTL, or for ever. */
  lemma Lifetimes(r: Request, v: string, d: nat)
    ensures var st := Locked(r).Set(r.key, ToStore(v, r.cacheNil), r.ttl).Advance(d);
            && (st.Live(LockKey(r.key)) <==> d < if r.lockTtl > 0 then r.lockTtl else 10000)
            && (st.Live(r.key) <==> r.ttl <= 0 || d < r.ttl)
  {
    assert |LockKey(r.key)| > |r.key|;
  }

  /**
   The value must differ from the sentinel: otherwise, for every request, the caller that
   computed it and a second caller that reads it back disagree.
   */
  lemma SentinelIsNotTransparent(r: Request)
    ensures var evs := LeaderMoves(NIL_SENTINEL) + [Act(1, Answered)] + [Act(0, Answered)];
            && (forall i :: 0 <= i < |evs| ==> Honest(Pair(r), _ => NIL_SENTINEL, evs[i]))
            && Run(Pair(r), PairAt(COLD, Start, Start), evs).pcs
               == map[0 := Done(Value(NIL_SENTINEL)), 1 := Done(Value(""))]
  {
    var st := Locked(r).Set(r.key, ToStore(NIL_SENTINEL, r.cacheNil), r.ttl);
    var s := PairAt(COLD, Start, Start);
    var done := Done(Value(NIL_SENTINEL));
    LeaderStores(r, NIL_SENTINEL);
    assert st.Get(r.key) == Some(NIL_SENTINEL);
    Then(Pair(r), s, LeaderMoves(NIL_SENTINEL), PairAt(st, Releasing(Value(NIL_SENTINEL)), Start),
         Act(1, Answered), PairAt(st, Releasing(Value(NIL_SENTINEL)), Done(Value(""))));
    Then(Pair(r), s, LeaderMoves(NIL_SENTINEL) + [Act(1, Answered)], PairAt(st, Releasing(Value(NIL_SENTINEL)), Done(Value(""))),
         Act(0, Answered), PairAt(st.Del(LockKey(r.key)), done, Done(Value(""))));
  }

  /** A caller that asks for the key of a held lock reads the text of the lock. */
  lemma ReadsLock(r: Request, r': Request, reply: Reply)
    requires r'.key == LockKey(r.key) && reply.Answered?
    ensures Move(r', Locked(r), Start, reply) == (Locked(r), Done(Value(LockKey(r.key))))
  {
    var key := LockKey(r.key);
    assert key[|key| - 1] == 'k' && key != NIL_SENTINEL;
    assert Locked(r).Get(key) == Some(key);
  }

  /** Nor may a data key be another's lock key: for every such pair a caller returns a value that nobody computed. */
  lemma CollisionIsNotTransparent(r: Request, r': Request)
    requires r'.key == r.key + ":lock"
    ensures Run(map[0 := r, 1 := r'], PairAt(COLD, Start, Start),
                Enter(0) + [Act(1, Answered)])
         == PairAt(Locked(r), DoubleCheck, Done(Value(LockKey(r.key))))
  {
    var reqs := map[0 := r, 1 := r'];
    var before, after := PairAt(Locked(r), DoubleCheck, Start), PairAt(Locked(r), DoubleCheck, Done(Value(LockKey(r.key))));
    FirstTakesLock(reqs, r);
    assert Next(reqs, before, Act(1, Answered)) == after by {
      ReadsLock(r, r', Answered);
      assert before.pcs[1 := Done(Value(LockKey(r.key)))] == after.pcs;
    }
    Then(reqs, PairAt(COLD, Start, Start), Enter(0), before, Act(1, Answered), after);
  }

  // ---------------------------------------------------------------------------------------
  // CacheNil

  /** The same requests up to their CacheNil flags. */
  ghost predicate SameButCacheNil(reqs: Requests, reqs': Requests) {
    reqs.Keys == reqs'.Keys &&
    forall c :: c in reqs ==> reqs'[c] == reqs[c].(cacheNil := reqs'[c].cacheNil)
  }

  /** The same entries with the same expiries, up to reading the sentinel as the empty string. */
  ghost predicate SameUpToSentinel(st: Store, st': Store) {
    && st.now == st'.now
    && st.entries.Keys == st'.entries.Keys
    && forall k :: k in st.entries ==>
         && st.entries[k].expiry == st'.entries[k].expiry
         && FromStore(st.entries[k].value) == FromStore(st'.entries[k].value)
  }

  lemma SetUpToSentinel(st: Store, st': Store, key: string, v: string, v': string, ttl: int)
    requires SameUpToSentinel(st, st') && FromStore(v) == FromStore(v')
    ensures SameUpToSentinel(st.Set(key, v, ttl), st'.Set(key, v', ttl))
    ensures SameUpToSentinel(st.SetNX(key, v, ttl), st'.SetNX(key, v', ttl))
    ensures SameUpToSentinel(st.Del(key), st'.Del(key))
  {
  }

  lemma MoveIgnoresCacheNil(r: Request, flag: bool, st: Store, st': Store, pc: Pc, reply: Reply)
    requires SameUpToSentinel(st, st')
    ensures var (t, p) := Move(r, st, pc, reply);
            var (t', p') := Move(r.(cacheNil := flag), st', pc, reply);
            SameUpToSentinel(t, t') && p == p'
  {
    var lock := LockKey(r.key);
    assert st.Live(r.key) == st'.Live(r.key) && st.Live(lock) == st'.Live(lock);
    if pc.Storing? {
      SetUpToSentinel(st, st', r.key, ToStore(pc.result, r.cacheNil), ToStore(pc.result, flag), r.ttl);
    } else if pc.TryLock? || pc.Releasing? {
      SetUpToSentinel(st, st', lock, lock, lock, LockTtl(r));
    }
  }

  /** Whatever the flags, the same schedule takes the same branches, makes the same calls and returns the same results. */
  lemma {:induction false} CacheNilIsInvisible(reqs: Requests, reqs': Requests, s: State, s': State, evs: seq<Event>)
    requires SameButCacheNil(reqs, reqs') && SameUpToSentinel(s.store, s'.store) && s.pcs == s'.pcs
    ensures Run(reqs, s, evs).pcs == Run(reqs', s', evs).pcs
    ensures SameUpToSentinel(Run(reqs, s, evs).store, Run(reqs', s', evs).store)
  {
    if evs != [] {
      var init, e := evs[..|evs| - 1], evs[|evs| - 1];
      CacheNilIsInvisible(reqs, reqs', s, s', init);
      if e.Act? && e.caller in reqs && e.caller in Run(reqs, s, init).pcs {
        MoveIgnoresCacheNil(reqs[e.caller], reqs'[e.caller].cacheNil, Run(reqs, s, init).store, Run(reqs', s', init).store,
                            Run(reqs, s, init).pcs[e.caller], e.reply);
      }
    }
  }
}

/** The waiter's loop on its own: capped exponential backoff against a deadline. */
module SpinWait {
  import opened Wrappers
  import opened ExpiringStore
  import opened CacheAside

  /**
   One turn of the loop: how much longer than asked the sleep took, whether the context ended
   it, what the poll found (nothing on a miss or an error), and the time until the clock is read.
   */
  datatype Turn = Turn(oversleep: nat, cancelled: bool, found: Option<string>, pause: nat)

  /** The n-th backoff, counting from 0. */
  ghost function Backoff(n: nat): nat {
    if n == 0 then 5 else if n == 1 then 10 else if n == 2 then 20 else if n == 3 then 40 else 50
  }

  /** Time spent in the first n requested sleeps. */
  ghost function Slept(n: nat): nat {
    if n == 0 then 0 else if n == 1 then 5 else if n == 2 then 15 else if n == 3 then 35 else 75 + 50 * (n - 4)
  }

  /** The closed forms are those of the doubling, capped backoff; twelve sleeps fit into the wait budget and thirteen do not. */
  lemma BackoffSchedule(n: nat)
    ensures Backoff(0) == FIRST_BACKOFF && Backoff(n + 1) == NextBackoff(Backoff(n))
    ensures Slept(0) == 0 && Slept(n + 1) == Slept(n) + Backoff(n)
    ensures n <= 12 <==> Slept(n) < WAIT_BUDGET
  {
  }

  ghost predicate Missed(turns: nat -> Turn, n: nat) {
    n > 0 ==> Missed(turns, n - 1) && turns(n - 1).found.None? && !turns(n - 1).cancelled
  }

  /** No time passes other than the requested sleeps. */
  ghost predicate Punctual(pause: nat, turns: nat -> Turn) {
    pause == 0 && forall i :: turns(i).oversleep == 0 && turns(i).pause == 0
  }

  // ---------------------------------------------------------------------------------------
  // Waiters in every interleaving

  /** The event makes caller c find the lock taken and begin to wait. */
  ghost predicate BeginsWait(reqs: Requests, s: State, e: Event, c: nat) {
    e == Act(c, Answered) && c in s.pcs && c in reqs && s.pcs[c].TryLock? && s.store.Live(LockKey(reqs[c].key))
  }

  /** The event is a poll of the cache by caller c while waiting. */
  ghost predicate PollsNow(reqs: Requests, s: State, e: Event, c: nat) {
    e.Act? && e.caller == c && c in s.pcs && c in reqs && s.pcs[c].Polling? && (e.reply.Answered? || e.reply.Failed?)
  }

  ghost function Began(reqs: Requests, s: State, evs: seq<Event>, c: nat): Option<int> {
    if evs == [] then None
    else
      var t := Run(reqs, s, evs[..|evs| - 1]);
      if BeginsWait(reqs, t, evs[|evs| - 1], c) then Some(t.store.now) else Began(reqs, s, evs[..|evs| - 1], c)
  }

  ghost function Polls(reqs: Requests, s: State, evs: seq<Event>, c: nat): nat {
    if evs == [] then 0
    else
      Polls(reqs, s, evs[..|evs| - 1], c) +
      if PollsNow(reqs, Run(reqs, s, evs[..|evs| - 1]), evs[|evs| - 1], c) then 1 else 0
  }

  ghost predicate WaiterInv(pc: Pc, now: int, began: Option<int>, polls: nat) {
    match pc
    case WaitHead(b, d) =>
      began.Some? && d == began.value + WAIT_BUDGET && b == Backoff(polls) && polls <= 13 && now >= began.value + Slept(polls)
    case Sleeping(b, d, w) =>
      began.Some? && d == began.value + WAIT_BUDGET && b == Backoff(polls) && polls <= 12 && w >= began.value + Slept(polls + 1)
    case Polling(b, d) =>
      began.Some? && d == began.value + WAIT_BUDGET && b == Backoff(polls) && polls <= 12 && now >= began.value + Slept(polls + 1)
    case Fallback => began.Some? && now >= began.value + WAIT_BUDGET && polls <= 13
    case Done(_) => polls <= 13
    case _ => polls == 0
  }

  lemma WaiterStep(reqs: Requests, s: State, e: Event, c: nat, began: Option<int>, polls: nat)
    requires c in reqs && c in s.pcs && WaiterInv(s.pcs[c], s.store.now, began, polls)
    ensures var s' := Next(reqs, s, e);
            && c in s'.pcs
            && WaiterInv(s'.pcs[c], s'.store.now, if BeginsWait(reqs, s, e, c) then Some(s.store.now) else began,
                         polls + if PollsNow(reqs, s, e, c) then 1 else 0)
  {
  }

  /**
   In every interleaving every waiter polls at most 13 times, and is in its fallback call of fn
   only when at least the whole wait budget has passed since it found the lock taken.
   */
  lemma {:induction false} WaitersAreBounded(reqs: Requests, s: State, evs: seq<Event>, c: nat)
    requires Init(reqs, s) && c in reqs
    ensures c in Run(reqs, s, evs).pcs && Polls(reqs, s, evs, c) <= 13
    ensures WaiterInv(Run(reqs, s, evs).pcs[c], Run(reqs, s, evs).store.now, Began(reqs, s, evs, c), Polls(reqs, s, evs, c))
    ensures Run(reqs, s, evs).pcs[c].Fallback? ==>
              Began(reqs, s, evs, c).Some? && Run(reqs, s, evs).store.now >= Began(reqs, s, evs, c).value + WAIT_BUDGET
  {
    if evs != [] {
      var init := evs[..|evs| - 1];
      WaitersAreBounded(reqs, s, init, c);
      WaiterStep(reqs, Run(reqs, s, init), evs[|evs| - 1], c, Began(reqs, s, init, c), Polls(reqs, s, init, c));
    }
  }

  /** A poll that finds the value is the waiter's last: it is done with that value from then on. */
  lemma {:induction false} HitEndsTheWait(reqs: Requests, s: State, evs: seq<Event>, c: nat, i: nat)
    requires i < |evs| && PollsNow(reqs, Run(reqs, s, evs[..i]), evs[i], c) && evs[i].reply.Answered?
    requires Run(reqs, s, evs[..i]).store.Live(reqs[c].key)
    ensures var t := Run(reqs, s, evs);
            c in t.pcs && t.pcs[c] == Done(Value(FromStore(Run(reqs, s, evs[..i]).store.entries[reqs[c].key].value)))
  {
    var init := evs[..|evs| - 1];
    if i < |init| {
      assert init[..i] == evs[..i];
      HitEndsTheWait(reqs, s, init, c, i);
    }
  }

  // ---------------------------------------------------------------------------------------
  // Every call ends

  /** The answer is one the caller is waiting for. */
  ghost predicate Ready(pc: Pc, now: int, reply: Reply) {
    match pc
    case Start => reply.Answered? || reply.Failed?
    case TryLock => reply.Answered? || reply.Failed?
    case DoubleCheck => reply.Answered? || reply.Failed?
    case Storing(_) => reply.Answered? || reply.Failed?
    case Releasing(_) => reply.Answered? || reply.Failed?
    case Polling(_, _) => reply.Answered? || reply.Failed?
    case WaitHead(_, _) => reply.Answered?
    case Computing => reply.Computed? || reply.ComputeFailed?
    case Fallback => reply.Computed? || reply.ComputeFailed?
    case Sleeping(_, _, wake) => reply.Cancelled? || (reply.Answered? && wake <= now)
    case Done(_) => false
  }

  /** The moves still to come at most, after the given number of polls. */
  ghost function Remaining(pc: Pc, polls: nat): int {
    match pc
    case Start => 43
    case TryLock => 42
    case DoubleCheck => 4
    case Computing => 3
    case Storing(_) => 2
    case Releasing(_) => 1
    case WaitHead(_, _) => 3 * (13 - polls) + 2
    case Sleeping(_, _, _) => 3 * (13 - polls) + 1
    case Polling(_, _) => 3 * (13 - polls)
    case Fallback => 1
    case Done(_) => 0
  }

  /** Each awaited answer brings the caller nearer to its end, and no other event of its own moves it. */
  lemma MoveIsProgress(r: Request, st: Store, pc: Pc, reply: Reply, began: Option<int>, polls: nat)
    requires WaiterInv(pc, st.now, began, polls)
    ensures var (st', pc') := Move(r, st, pc, reply);
            var polls' := polls + if pc.Polling? && (reply.Answered? || reply.Failed?) then 1 else 0;
            if Ready(pc, st.now, reply) then 0 <= Remaining(pc', polls') < Remaining(pc, polls) else pc' == pc && st' == st
  {
  }

  /** The number of awaited answers that caller c got. */
  ghost function Moves(reqs: Requests, s: State, evs: seq<Event>, c: nat): nat {
    if evs == [] then 0
    else
      var t, e := Run(reqs, s, evs[..|evs| - 1]), evs[|evs| - 1];
      Moves(reqs, s, evs[..|evs| - 1], c) +
      if e.Act? && e.caller == c && c in t.pcs && c in reqs && Ready(t.pcs[c], t.store.now, e.reply) then 1 else 0
  }

  /** In every interleaving a caller is done after at most 43 awaited answers, whatever the others do. */
  lemma {:induction false} EveryCallEnds(reqs: Requests, s: State, evs: seq<Event>, c: nat)
    requires Init(reqs, s) && c in reqs
    ensures c in Run(reqs, s, evs).pcs
    ensures 0 <= Remaining(Run(reqs, s, evs).pcs[c], Polls(reqs, s, evs, c)) <= 43 - Moves(reqs, s, evs, c)
    ensures Moves(reqs, s, evs, c) <= 43 && (Moves(reqs, s, evs, c) == 43 ==> Run(reqs, s, evs).pcs[c].Done?)
  {
    if evs != [] {
      var init, e := evs[..|evs| - 1], evs[|evs| - 1];
      EveryCallEnds(reqs, s, init, c);
      WaitersAreBounded(reqs, s, init, c);
      if e.Act? && e.caller == c {
        var t := Run(reqs, s, init);
        MoveIsProgress(reqs[c], t.store, t.pcs[c], e.reply, Began(reqs, s, init, c), Polls(reqs, s, init, c));
      }
    }
    WaitersAreBounded(reqs, s, evs, c);
  }

  // ---------------------------------------------------------------------------------------
  // The loop

  datatype Result = Hit(v: string) | ContextDone | RanOut

  /**
   The clock moves forward and sleeps last at least as long as requested.  The loop polls at
   most 13 times; it runs out, so that fn is called as a fallback, only after the whole wait
   budget and only if every poll missed; otherwise it ends at the first hit or cancellation.
   */
  method Wait(start: int, pause: nat, turns: nat -> Turn) returns (result: Result, polls: nat, now: int)
    ensures polls <= 13
    ensures now >= start + Slept(polls)
    ensures result.RanOut? ==> now >= start + WAIT_BUDGET && Missed(turns, polls)
    ensures result.Hit? ==> polls > 0 && Missed(turns, polls - 1) && !turns(polls - 1).cancelled
    ensures result.Hit? ==> turns(polls - 1).found.Some? && result.v == FromStore(turns(polls - 1).found.value)
    ensures result.ContextDone? ==> Missed(turns, polls) && turns(polls).cancelled
    ensures result.RanOut? && Punctual(pause, turns) ==>
              polls == 13 && now == start + 525
  {
    var backoff := FIRST_BACKOFF;
    var deadline := start + WAIT_BUDGET;
    now, polls := start + pause, 0;
    while now < deadline
      invariant backoff == Backoff(polls) && now >= start + Slept(polls) && polls <= 13
      invariant Missed(turns, polls)
      invariant Punctual(pause, turns) ==> now == start + Slept(polls)
      decreases deadline - now
    {
      BackoffSchedule(polls);
      var turn := turns(polls);
      if turn.cancelled {
        return ContextDone, polls, now;
      }
      now := now + backoff + turn.oversleep;
      polls := polls + 1;
      if turn.found.Some? {
        return Hit(FromStore(turn.found.value)), polls, now;
      }
      now := now + turn.pause;
      backoff := NextBackoff(backoff);
    }
    BackoffSchedule(polls);
    result := RanOut;
  }
}
