/** Building runs of GetOrSet from the start on an empty cache, event by event. */
module CacheRuns {
  import opened ExpiringStore
  import opened CacheAside

  const COLD: Store := Store(0, map[])

  ghost function AllStart(reqs: Requests): State {
    State(COLD, map c | c in reqs :: Start)
  }

  ghost function Locked(r: Request): Store {
    COLD.Set(LockKey(r.key), LockKey(r.key), LockTtl(r))
  }

  lemma {:induction false} Then(reqs: Requests, s: State, evs: seq<Event>, t: State, e: Event, t': State)
    requires Run(reqs, s, evs) == t && Next(reqs, t, e) == t'
    ensures Run(reqs, s, evs + [e]) == t'
  {
    assert (evs + [e])[..|evs + [e]| - 1] == evs;
  }

  /** One more move of a caller, which no lock minds. */
  lemma {:induction false} Moves(reqs: Requests, s: State, evs: seq<Event>, t: State, c: nat, reply: Reply, st': Store, pc': Pc, key: string)
    requires AlwaysLockSafe(reqs, s, evs, key) && Run(reqs, s, evs) == t
    requires c in reqs && c in t.pcs && Move(reqs[c], t.store, t.pcs[c], reply) == (st', pc')
    ensures Run(reqs, s, evs + [Act(c, reply)]) == State(st', t.pcs[c := pc'])
    ensures AlwaysLockSafe(reqs, s, evs + [Act(c, reply)], key)
  {
    var more := evs + [Act(c, reply)];
    assert more[..|more| - 1] == evs;
  }

  lemma {:induction false} Passes(reqs: Requests, s: State, evs: seq<Event>, t: State, d: nat, key: string)
    requires Run(reqs, s, evs) == t
    ensures Run(reqs, s, evs + [Tick(d)]) == State(t.store.Advance(d), t.pcs)
    ensures AlwaysLockSafe(reqs, s, evs + [Tick(d)], key) <==> AlwaysLockSafe(reqs, s, evs, key) && LockSafe(reqs, t, Tick(d), key)
  {
    var more := evs + [Tick(d)];
    assert more[..|more| - 1] == evs;
  }

  /** What a request meets on the way in: a vacant key, then a vacant or a taken lock. */
  lemma Entering(r: Request)
    ensures Move(r, COLD, Start, Answered) == (COLD, TryLock)
    ensures Move(r, COLD, TryLock, Answered) == (Locked(r), DoubleCheck)
    ensures !Locked(r).Live(r.key) && Locked(r).Live(LockKey(r.key))
  {
    assert |LockKey(r.key)| > |r.key|;
  }

  ghost function Enter(c: nat): seq<Event> {
    [Act(c, Answered)] + [Act(c, Answered)]
  }

  /** Caller 0 takes the lock. */
  lemma {:induction false} TakesLock(reqs: Requests, r: Request)
    requires 0 in reqs && reqs[0] == r
    ensures Run(reqs, AllStart(reqs), Enter(0)) == State(Locked(r), AllStart(reqs).pcs[0 := DoubleCheck])
    ensures AlwaysLockSafe(reqs, AllStart(reqs), Enter(0), r.key)
  {
    var s := AllStart(reqs);
    Entering(r);
    assert [] + [Act(0, Answered)] == [Act(0, Answered)];
    Moves(reqs, s, [], s, 0, Answered, COLD, TryLock, r.key);
    Moves(reqs, s, [Act(0, Answered)], State(COLD, s.pcs[0 := TryLock]), 0, Answered, Locked(r), DoubleCheck, r.key);
    assert s.pcs[0 := TryLock][0 := DoubleCheck] == s.pcs[0 := DoubleCheck];
  }
}
