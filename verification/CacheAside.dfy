/** The cache contract used by GetOrSet: a map of expiring entries read at the current time. */
module ExpiringStore {
  import opened Wrappers

  datatype Entry = Entry(value: string, expiry: Option<int>)

  datatype Store = Store(now: int, entries: map<string, Entry>) {
    predicate Live(key: string) {
      key in entries && (entries[key].expiry.None? || now < entries[key].expiry.value)
    }

    function Get(key: string): Option<string> {
      if Live(key) then Some(entries[key].value) else None
    }

    /** A non-positive ttl stores the entry without an expiry. */
    function Set(key: string, value: string, ttl: int): Store {
      var expiry := if ttl > 0 then Some(now + ttl) else None;
      this.(entries := entries[key := Entry(value, expiry)])
    }

    function SetNX(key: string, value: string, ttl: int): Store {
      if Live(key) then this else Set(key, value, ttl)
    }

    function Del(key: string): Store {
      this.(entries := entries - {key})
    }

    function Advance(d: nat): Store {
      this.(now := now + d)
    }
  }
}

/**
 GetOrSet as a step relation: any number of callers interleave at the granularity of one
 cache operation, one function call boundary or one clock reading.  An event says who moves
 and what the environment answers, so a run is a sequence of events.
 */
module CacheAside {
  import opened Wrappers
  import opened ExpiringStore

  const NIL_SENTINEL: string := "\0nil\0"
  const LOCK_SUFFIX: string := ":lock"
  const DEFAULT_LOCK_TTL: int := 10000
  const WAIT_BUDGET: int := 500
  const FIRST_BACKOFF: int := 5
  const BACKOFF_CAP: int := 50

  datatype Request = Request(key: string, ttl: int, lockTtl: int, cacheNil: bool)

  /** Where an error came from, and which one it is. */
  datatype Err = StoreError(id: nat) | FnError(id: nat) | ContextError(id: nat)

  datatype Outcome = Value(v: string) | Error(err: Err)

  /** Where a caller stands in GetOrSet; the next event of that caller performs the named operation. */
  datatype Pc =
    | Start
    | TryLock
    | DoubleCheck
    | Computing
    | Storing(result: string)
    | Releasing(outcome: Outcome)
    | WaitHead(backoff: int, deadline: int)
    | Sleeping(backoff: int, deadline: int, wake: int)
    | Polling(backoff: int, deadline: int)
    | Fallback
    | Done(outcome: Outcome)
  {
    /** Between the successful SetNX and the deferred Del. */
    predicate Inside() {
      DoubleCheck? || Computing? || Storing? || Releasing?
    }

    predicate RunningFn() {
      Computing? || Fallback?
    }
  }

  /** What the environment answers; a failed cache operation may still have taken effect. */
  datatype Reply =
    | Answered
    | Failed(applied: bool, id: nat)
    | Computed(value: string)
    | ComputeFailed(id: nat)
    | Cancelled(id: nat)

  datatype Event = Tick(d: nat) | Evict(key: string) | Act(caller: nat, reply: Reply)

  datatype State = State(store: Store, pcs: map<nat, Pc>)

  type Requests = map<nat, Request>

  function FromStore(val: string): string {
    if val == NIL_SENTINEL then "" else val
  }

  function ToStore(result: string, cacheNil: bool): string {
    if result == "" && cacheNil then NIL_SENTINEL else result
  }

  function LockKey(key: string): string {
    key + LOCK_SUFFIX
  }

  function LockTtl(r: Request): int {
    if r.lockTtl <= 0 then DEFAULT_LOCK_TTL else r.lockTtl
  }

  function NextBackoff(backoff: int): int {
    Min(backoff * 2, BACKOFF_CAP)
  }

  function Move(r: Request, st: Store, pc: Pc, reply: Reply): (Store, Pc) {
    match pc
    case Start =>
      if reply.Failed? then (st, Done(Error(StoreError(reply.id))))
      else if !reply.Answered? then (st, pc)
      else (match st.Get(r.key)
            case Some(v) => (st, Done(Value(FromStore(v))))
            case None => (st, TryLock))
    case TryLock =>
      var locked := st.SetNX(LockKey(r.key), LockKey(r.key), LockTtl(r));
      if reply.Failed? then (if reply.applied then locked else st, Done(Error(StoreError(reply.id))))
      else if !reply.Answered? then (st, pc)
      else if st.Live(LockKey(r.key)) then (st, WaitHead(FIRST_BACKOFF, st.now + WAIT_BUDGET))
      else (locked, DoubleCheck)
    case DoubleCheck =>
      if reply.Failed? then (st, Computing)
      else if !reply.Answered? then (st, pc)
      else (match st.Get(r.key)
            case Some(v) => (st, Releasing(Value(FromStore(v))))
            case None => (st, Computing))
    case Computing =>
      if reply.Computed? then (st, Storing(reply.value))
      else if reply.ComputeFailed? then (st, Releasing(Error(FnError(reply.id))))
      else (st, pc)
    case Storing(result) =>
      var stored := st.Set(r.key, ToStore(result, r.cacheNil), r.ttl);
      if reply.Failed? then (if reply.applied then stored else st, Releasing(Error(StoreError(reply.id))))
      else if !reply.Answered? then (st, pc)
      else (stored, Releasing(Value(result)))
    case Releasing(outcome) =>
      var released := st.Del(LockKey(r.key));
      if reply.Failed? then (if reply.applied then released else st, Done(outcome))
      else if !reply.Answered? then (st, pc)
      else (released, Done(outcome))
    case WaitHead(backoff, deadline) =>
      if !reply.Answered? then (st, pc)
      else if st.now < deadline then (st, Sleeping(backoff, deadline, st.now + backoff))
      else (st, Fallback)
    case Sleeping(backoff, deadline, wake) =>
      if reply.Cancelled? then (st, Done(Error(ContextError(reply.id))))
      else if reply.Answered? && wake <= st.now then (st, Polling(backoff, deadline))
      else (st, pc)
    case Polling(backoff, deadline) =>
      if reply.Failed? then (st, WaitHead(NextBackoff(backoff), deadline))
      else if !reply.Answered? then (st, pc)
      else (match st.Get(r.key)
            case Some(v) => (st, Done(Value(FromStore(v))))
            case None => (st, WaitHead(NextBackoff(backoff), deadline)))
    case Fallback =>
      if reply.Computed? then (st, Done(Value(reply.value)))
      else if reply.ComputeFailed? then (st, Done(Error(FnError(reply.id))))
      else (st, pc)
    case Done(_) => (st, pc)
  }

  /** An event that is not possible in a state leaves it unchanged. */
  function Next(reqs: Requests, s: State, e: Event): State {
    match e
    case Tick(d) => s.(store := s.store.Advance(d))
    case Evict(key) => s.(store := s.store.Del(key))
    case Act(c, reply) =>
      if c in s.pcs && c in reqs then
        var (st, pc) := Move(reqs[c], s.store, s.pcs[c], reply);
        State(st, s.pcs[c := pc])
      else s
  }

  function Run(reqs: Requests, s: State, evs: seq<Event>): State {
    if evs == [] then s
    else Next(reqs, Run(reqs, s, evs[..|evs| - 1]), evs[|evs| - 1])
  }

  ghost predicate Init(reqs: Requests, s: State) {
    s.pcs.Keys == reqs.Keys && forall c :: c in s.pcs ==> s.pcs[c].Start?
  }

  /** No data key is another data key plus the lock suffix. */
  ghost predicate NoCollision(reqs: Requests) {
    forall c, d :: c in reqs && d in reqs ==> reqs[c].key != LockKey(reqs[d].key)
  }

  lemma LockKeyInjective(a: string, b: string)
    requires LockKey(a) == LockKey(b)
    ensures a == b
  {
    assert a == LockKey(a)[..|LockKey(a)| - |LOCK_SUFFIX|];
    assert b == LockKey(b)[..|LockKey(b)| - |LOCK_SUFFIX|];
  }

  /** Two callers share a lock key exactly when they share a data key. */
  lemma OtherLock(reqs: Requests, c: nat, d: nat)
    requires NoCollision(reqs) && c in reqs && d in reqs
    ensures reqs[c].key != LockKey(reqs[d].key)
    ensures LockKey(reqs[c].key) == LockKey(reqs[d].key) <==> reqs[c].key == reqs[d].key
  {
    if LockKey(reqs[c].key) == LockKey(reqs[d].key) {
      LockKeyInjective(reqs[c].key, reqs[d].key);
    }
  }

  // ---------------------------------------------------------------------------------------
  // Mutual exclusion

  /** Caller c of the key is between its SetNX and its Del. */
  ghost predicate Holds(reqs: Requests, s: State, c: nat, key: string) {
    c in s.pcs && c in reqs && reqs[c].key == key && s.pcs[c].Inside()
  }

  ghost predicate Held(reqs: Requests, s: State, key: string) {
    exists c :: Holds(reqs, s, c, key)
  }

  ghost predicate SparesLock(st: Store, e: Event, lock: string) {
    match e
    case Tick(d) => st.Live(lock) ==> st.Advance(d).Live(lock)
    case Evict(key) => key != lock
    case Act(_, _) => true
  }

  /** The lock of the key neither expires nor is evicted while a caller of the key is inside. */
  ghost predicate LockSafe(reqs: Requests, s: State, e: Event, key: string) {
    Held(reqs, s, key) ==> SparesLock(s.store, e, LockKey(key))
  }

  ghost predicate AlwaysLockSafe(reqs: Requests, s: State, evs: seq<Event>, key: string) {
    evs != [] ==>
      && AlwaysLockSafe(reqs, s, evs[..|evs| - 1], key)
      && LockSafe(reqs, Run(reqs, s, evs[..|evs| - 1]), evs[|evs| - 1], key)
  }

  ghost predicate AtMostOneInside(reqs: Requests, s: State, key: string) {
    forall c, d :: Holds(reqs, s, c, key) && Holds(reqs, s, d, key) ==> c == d
  }

  ghost predicate LockInv(reqs: Requests, s: State, key: string) {
    && s.pcs.Keys == reqs.Keys
    && AtMostOneInside(reqs, s, key)
    && (Held(reqs, s, key) ==> s.store.Live(LockKey(key)))
  }

  /** The store a move leaves differs at most at the caller's data key and lock key. */
  ghost predicate SameElsewhere(r: Request, st: Store, st': Store) {
    && st'.now == st.now
    && forall k :: k != r.key && k != LockKey(r.key) ==>
         (k in st'.entries <==> k in st.entries) && (k in st.entries ==> st'.entries[k] == st.entries[k])
  }

  /** What one move of a caller may do to its own lock. */
  ghost predicate LockEffect(r: Request, st: Store, pc: Pc, st': Store, pc': Pc) {
    var lock := LockKey(r.key);
    && SameElsewhere(r, st, st')
    && (st.Live(r.key) ==> st'.Live(r.key))
    && (!pc.Inside() && st.Live(lock) ==> !pc'.Inside() && st'.Live(lock) && st'.entries[lock] == st.entries[lock])
    && (pc'.Inside() && (pc.Inside() ==> st.Live(lock)) ==> st'.Live(lock))
    && (pc'.Inside() && !pc.Inside() ==> !st.Live(lock))
  }

  lemma MoveLockEffect(r: Request, st: Store, pc: Pc, reply: Reply)
    ensures LockEffect(r, st, pc, Move(r, st, pc, reply).0, Move(r, st, pc, reply).1)
  {
  }

  lemma LockInvMove(reqs: Requests, s: State, c: nat, st': Store, pc': Pc, key: string)
    requires LockInv(reqs, s, key) && c in s.pcs
    requires LockEffect(reqs[c], s.store, s.pcs[c], st', pc')
    ensures LockInv(reqs, State(st', s.pcs[c := pc']), key)
  {
    var s' := State(st', s.pcs[c := pc']);
    assert forall d :: d != c ==> Holds(reqs, s', d, key) == Holds(reqs, s, d, key);
    if reqs[c].key != key {
      assert !Holds(reqs, s', c, key);
      assert Held(reqs, s', key) ==> Held(reqs, s, key);
      if LockKey(reqs[c].key) == LockKey(key) {
        LockKeyInjective(reqs[c].key, key);
      }
    } else if Held(reqs, s', key) {
      assert pc'.Inside() || Held(reqs, s, key);
      assert s.pcs[c].Inside() ==> Holds(reqs, s, c, key);
    }
  }

  /** The passing of time and evictions leave every caller where it is. */
  lemma Environment(reqs: Requests, s: State, e: Event, key: string)
    requires !e.Act? || e.caller !in s.pcs || e.caller !in reqs
    ensures Next(reqs, s, e).pcs == s.pcs
    ensures forall c :: Holds(reqs, Next(reqs, s, e), c, key) == Holds(reqs, s, c, key)
    ensures Held(reqs, Next(reqs, s, e), key) == Held(reqs, s, key)
  {
    assert forall c :: Holds(reqs, Next(reqs, s, e), c, key) == Holds(reqs, s, c, key);
  }

  lemma LockInvStep(reqs: Requests, s: State, e: Event, key: string)
    requires LockInv(reqs, s, key) && LockSafe(reqs, s, e, key)
    ensures LockInv(reqs, Next(reqs, s, e), key)
  {
    if e.Act? && e.caller in s.pcs {
      var c := e.caller;
      var m := Move(reqs[c], s.store, s.pcs[c], e.reply);
      MoveLockEffect(reqs[c], s.store, s.pcs[c], e.reply);
      LockInvMove(reqs, s, c, m.0, m.1, key);
    } else {
      Environment(reqs, s, e, key);
    }
  }

  lemma {:induction false} LockInvRun(reqs: Requests, s: State, evs: seq<Event>, key: string)
    requires Init(reqs, s) && AlwaysLockSafe(reqs, s, evs, key)
    ensures LockInv(reqs, Run(reqs, s, evs), key)
  {
    if evs != [] {
      LockInvRun(reqs, s, evs[..|evs| - 1], key);
      LockInvStep(reqs, Run(reqs, s, evs[..|evs| - 1]), evs[|evs| - 1], key);
    }
  }

  /**
   At most one caller of the key is between its SetNX and its Del, whatever happens to other
   keys and even if data keys collide with lock keys.
   */
  lemma MutualExclusion(reqs: Requests, s: State, evs: seq<Event>, key: string, c: nat, d: nat)
    requires Init(reqs, s) && AlwaysLockSafe(reqs, s, evs, key)
    requires c in reqs && d in reqs && c != d && reqs[c].key == reqs[d].key == key
    ensures var s' := Run(reqs, s, evs);
            c in s'.pcs && d in s'.pcs && !(s'.pcs[c].Inside() && s'.pcs[d].Inside())
  {
    LockInvRun(reqs, s, evs, key);
    var s' := Run(reqs, s, evs);
    assert s'.pcs[c].Inside() ==> Holds(reqs, s', c, key);
    assert s'.pcs[d].Inside() ==> Holds(reqs, s', d, key);
  }

  /**
   The assumption cannot be dropped: as soon as a holder's lock is lost, the next caller that
   tries it is inside as well.
   */
  lemma LostLockAdmitsSecondHolder(reqs: Requests, s: State, e: Event, key: string, c: nat, d: nat)
    requires LockInv(reqs, s, key) && Holds(reqs, s, c, key)
    requires d in s.pcs && s.pcs[d].TryLock? && reqs[d].key == key
    requires !LockSafe(reqs, s, e, key)
    ensures var s' := Next(reqs, Next(reqs, s, e), Act(d, Answered));
            c != d && Holds(reqs, s', c, key) && Holds(reqs, s', d, key)
  {
  }

  // ---------------------------------------------------------------------------------------
  // The lock entry is present exactly while a caller is inside

  /** No cache operation of a caller of the key fails. */
  ghost predicate NoFaults(reqs: Requests, evs: seq<Event>, key: string) {
    forall i :: 0 <= i < |evs| ==> Faultless(reqs, evs[i], key)
  }

  ghost predicate Faultless(reqs: Requests, e: Event, key: string) {
    e.Act? && e.caller in reqs && reqs[e.caller].key == key ==> !e.reply.Failed?
  }

  ghost predicate LockOwned(reqs: Requests, s: State, key: string) {
    s.pcs.Keys == reqs.Keys && (s.store.Live(LockKey(key)) ==> Held(reqs, s, key))
  }

  lemma MoveReleases(r: Request, st: Store, pc: Pc, reply: Reply)
    requires !reply.Failed?
    ensures var (st', pc') := Move(r, st, pc, reply);
            st'.Live(LockKey(r.key)) ==> pc'.Inside() || (st.Live(LockKey(r.key)) && !pc.Inside())
  {
  }

  /** A move of another key's caller leaves the lock and the value of the key alone. */
  lemma OtherKey(reqs: Requests, s: State, e: Event, key: string)
    requires NoCollision(reqs) && e.Act? && e.caller in s.pcs && e.caller in reqs && reqs[e.caller].key != key
    requires exists x :: x in reqs && reqs[x].key == key
    ensures var s' := Next(reqs, s, e);
            && s'.store.Live(key) == s.store.Live(key) && s'.store.Live(LockKey(key)) == s.store.Live(LockKey(key))
            && (forall c :: c in reqs && reqs[c].key == key ==> (c in s'.pcs <==> c in s.pcs))
            && (forall c :: c in reqs && reqs[c].key == key && c in s.pcs ==> s'.pcs[c] == s.pcs[c])
            && (forall c :: Holds(reqs, s', c, key) == Holds(reqs, s, c, key))
            && Held(reqs, s', key) == Held(reqs, s, key)
  {
    var x :| x in reqs && reqs[x].key == key;
    OtherLock(reqs, x, e.caller);
    OtherLock(reqs, e.caller, x);
    MoveLockEffect(reqs[e.caller], s.store, s.pcs[e.caller], e.reply);
    assert forall c :: Holds(reqs, Next(reqs, s, e), c, key) == Holds(reqs, s, c, key);
  }

  lemma LockOwnedMove(reqs: Requests, s: State, c: nat, st': Store, pc': Pc, key: string)
    requires LockOwned(reqs, s, key) && c in s.pcs && reqs[c].key == key
    requires st'.Live(LockKey(key)) ==> pc'.Inside() || (s.store.Live(LockKey(key)) && !s.pcs[c].Inside())
    ensures LockOwned(reqs, State(st', s.pcs[c := pc']), key)
  {
    var s' := State(st', s.pcs[c := pc']);
    if st'.Live(LockKey(key)) {
      if pc'.Inside() {
        assert Holds(reqs, s', c, key);
      } else {
        var d :| Holds(reqs, s, d, key);
        assert Holds(reqs, s', d, key);
      }
    }
  }

  lemma LockOwnedStep(reqs: Requests, s: State, e: Event, key: string)
    requires NoCollision(reqs) && LockOwned(reqs, s, key) && Faultless(reqs, e, key)
    requires exists x :: x in reqs && reqs[x].key == key
    ensures LockOwned(reqs, Next(reqs, s, e), key)
  {
    if e.Act? && e.caller in s.pcs {
      var c := e.caller;
      if reqs[c].key == key {
        var m := Move(reqs[c], s.store, s.pcs[c], e.reply);
        MoveReleases(reqs[c], s.store, s.pcs[c], e.reply);
        LockOwnedMove(reqs, s, c, m.0, m.1, key);
      } else {
        OtherKey(reqs, s, e, key);
      }
    } else {
      Environment(reqs, s, e, key);
    }
  }

  lemma {:induction false} LockOwnedRun(reqs: Requests, s: State, evs: seq<Event>, key: string)
    requires NoCollision(reqs) && Init(reqs, s) && NoFaults(reqs, evs, key)
    requires exists x :: x in reqs && reqs[x].key == key
    requires !s.store.Live(LockKey(key))
    ensures LockOwned(reqs, Run(reqs, s, evs), key)
  {
    if evs != [] {
      LockOwnedRun(reqs, s, evs[..|evs| - 1], key);
      LockOwnedStep(reqs, Run(reqs, s, evs[..|evs| - 1]), evs[|evs| - 1], key);
    }
  }

  /** No lock is leaked and none is missing: it is live exactly while a caller of its key is inside. */
  lemma LockLiveIffHeld(reqs: Requests, s: State, evs: seq<Event>, key: string)
    requires NoCollision(reqs) && Init(reqs, s) && NoFaults(reqs, evs, key) && AlwaysLockSafe(reqs, s, evs, key)
    requires exists x :: x in reqs && reqs[x].key == key
    requires !s.store.Live(LockKey(key))
    ensures Run(reqs, s, evs).store.Live(LockKey(key)) <==> Held(reqs, Run(reqs, s, evs), key)
  {
    LockOwnedRun(reqs, s, evs, key);
    LockInvRun(reqs, s, evs, key);
  }

  // ---------------------------------------------------------------------------------------
  // The key is vacant while its value is being computed

  /** A holder past its double check. */
  ghost predicate Committed(reqs: Requests, s: State, c: nat, key: string) {
    c in s.pcs && c in reqs && reqs[c].key == key && (s.pcs[c].Computing? || s.pcs[c].Storing?)
  }

  /** While a holder computes or is about to store, the key has no live value. */
  ghost predicate VacantInv(reqs: Requests, s: State, key: string) {
    (exists c :: Committed(reqs, s, c, key)) ==> !s.store.Live(key)
  }

  lemma MoveData(r: Request, st: Store, pc: Pc, reply: Reply)
    requires !reply.Failed?
    ensures var (st', pc') := Move(r, st, pc, reply);
            && (st.Live(r.key) ==> st'.Live(r.key))
            && (st'.Live(r.key) && !st.Live(r.key) ==> pc.Storing? && pc'.Releasing?)
            && (pc'.Computing? || pc'.Storing? ==> !st.Live(r.key) || pc == pc' || pc.Computing?)
  {
    assert |LockKey(r.key)| > |r.key|;
  }

  lemma VacantMove(reqs: Requests, s: State, e: Event, key: string)
    requires LockInv(reqs, s, key) && VacantInv(reqs, s, key) && Faultless(reqs, e, key)
    requires e.Act? && e.caller in s.pcs && reqs[e.caller].key == key
    ensures VacantInv(reqs, Next(reqs, s, e), key)
  {
    var s', c := Next(reqs, s, e), e.caller;
    MoveData(reqs[c], s.store, s.pcs[c], e.reply);
    if d :| Committed(reqs, s', d, key) {
      if d == c {
        assert s.pcs[c].Computing? || s.pcs[c].Storing? ==> Committed(reqs, s, c, key);
      } else {
        assert Committed(reqs, s, d, key) && Holds(reqs, s, d, key);
        assert s.pcs[c].Storing? ==> Holds(reqs, s, c, key);
      }
    }
  }

  lemma VacantStep(reqs: Requests, s: State, e: Event, key: string)
    requires NoCollision(reqs) && LockInv(reqs, s, key) && VacantInv(reqs, s, key) && Faultless(reqs, e, key)
    requires exists x :: x in reqs && reqs[x].key == key
    ensures VacantInv(reqs, Next(reqs, s, e), key)
  {
    var s' := Next(reqs, s, e);
    if e.Act? && e.caller in s.pcs && reqs[e.caller].key == key {
      VacantMove(reqs, s, e, key);
    } else {
      if e.Act? && e.caller in s.pcs {
        OtherKey(reqs, s, e, key);
      }
      assert forall c :: Committed(reqs, s', c, key) ==> Committed(reqs, s, c, key);
    }
  }

  /**
   Once a value is stored no further locked call of fn begins, or is under way, until that
   value is gone: every caller that is computing or about to store finds its key vacant.
   */
  lemma {:induction false} ComputeOnlyWhileVacant(reqs: Requests, s: State, evs: seq<Event>, key: string)
    requires NoCollision(reqs) && Init(reqs, s) && NoFaults(reqs, evs, key) && AlwaysLockSafe(reqs, s, evs, key)
    requires exists x :: x in reqs && reqs[x].key == key
    ensures VacantInv(reqs, Run(reqs, s, evs), key)
  {
    if evs != [] {
      ComputeOnlyWhileVacant(reqs, s, evs[..|evs| - 1], key);
      LockInvRun(reqs, s, evs[..|evs| - 1], key);
      VacantStep(reqs, Run(reqs, s, evs[..|evs| - 1]), evs[|evs| - 1], key);
    }
  }
}
