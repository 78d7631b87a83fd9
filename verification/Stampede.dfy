/**
 How often fn runs.  A caller begins fn under the lock, after its double check, or as a
 fallback, when its wait has run out; how many callers run it at once and how many calls a
 burst makes are settled by these two moments alone.
 */
module Stampede {
  import opened ExpiringStore
  import opened CacheAside

  ghost predicate Calls(reqs: Requests, s: State, e: Event, key: string) {
    e.Act? && e.caller in s.pcs && e.caller in reqs && reqs[e.caller].key == key
  }

  /** The event takes a waiter of the key to its fallback call: it finds its deadline passed. */
  ghost predicate RunsOut(reqs: Requests, s: State, e: Event, key: string) {
    Calls(reqs, s, e, key) && e.reply.Answered? && s.pcs[e.caller].WaitHead? && s.pcs[e.caller].deadline <= s.store.now
  }

  /** The event takes a holder of the key to its locked call: its double check misses or fails. */
  ghost predicate BeginsLocked(reqs: Requests, s: State, e: Event, key: string) {
    Calls(reqs, s, e, key) && s.pcs[e.caller].DoubleCheck? && (e.reply.Failed? || (e.reply.Answered? && !s.store.Live(key)))
  }

  /** The event makes a caller of the key begin a call of fn. */
  ghost predicate StartsFn(reqs: Requests, s: State, e: Event, key: string) {
    Calls(reqs, s, e, key) && !s.pcs[e.caller].RunningFn() && Next(reqs, s, e).pcs[e.caller].RunningFn()
  }

  lemma StartsFnIff(reqs: Requests, s: State, e: Event, key: string)
    ensures StartsFn(reqs, s, e, key) <==> RunsOut(reqs, s, e, key) || BeginsLocked(reqs, s, e, key)
  {
  }

  // ---------------------------------------------------------------------------------------
  // One call at a time

  ghost predicate Runs(reqs: Requests, s: State, c: nat, key: string) {
    c in s.pcs && c in reqs && reqs[c].key == key && s.pcs[c].RunningFn()
  }

  ghost predicate AtMostOneRuns(reqs: Requests, s: State, key: string) {
    forall c, d :: Runs(reqs, s, c, key) && Runs(reqs, s, d, key) ==> c == d
  }

  ghost predicate AnotherRuns(reqs: Requests, s: State, c: nat, key: string) {
    exists d :: d != c && Runs(reqs, s, d, key)
  }

  /** A caller of the key begins fn while another one runs it. */
  ghost predicate Joins(reqs: Requests, s: State, e: Event, key: string) {
    (RunsOut(reqs, s, e, key) || BeginsLocked(reqs, s, e, key)) && AnotherRuns(reqs, s, e.caller, key)
  }

  ghost predicate NeverJoins(reqs: Requests, s: State, evs: seq<Event>, key: string) {
    evs != [] ==>
      && NeverJoins(reqs, s, evs[..|evs| - 1], key)
      && !Joins(reqs, Run(reqs, s, evs[..|evs| - 1]), evs[|evs| - 1], key)
  }

  /** Throughout the run at most one caller of the key executes fn. */
  ghost predicate OneAtATime(reqs: Requests, s: State, evs: seq<Event>, key: string) {
    && (evs != [] ==> OneAtATime(reqs, s, evs[..|evs| - 1], key))
    && AtMostOneRuns(reqs, Run(reqs, s, evs), key)
  }

  lemma OneAtATimeStep(reqs: Requests, s: State, e: Event, key: string)
    requires AtMostOneRuns(reqs, s, key)
    ensures AtMostOneRuns(reqs, Next(reqs, s, e), key) <==> !Joins(reqs, s, e, key)
  {
    var s' := Next(reqs, s, e);
    StartsFnIff(reqs, s, e, key);
    assert forall c :: Runs(reqs, s', c, key) ==> Runs(reqs, s, c, key) || (StartsFn(reqs, s, e, key) && c == e.caller);
    if Joins(reqs, s, e, key) {
      var d :| d != e.caller && Runs(reqs, s, d, key);
      assert Runs(reqs, s', d, key) && Runs(reqs, s', e.caller, key);
    }
  }

  /** With no assumption on the lock, time or faults: one call at a time exactly if nobody begins fn while another runs it. */
  lemma {:induction false} OneAtATimeIff(reqs: Requests, s: State, evs: seq<Event>, key: string)
    requires Init(reqs, s)
    ensures OneAtATime(reqs, s, evs, key) <==> NeverJoins(reqs, s, evs, key)
  {
    if evs != [] {
      OneAtATimeIff(reqs, s, evs[..|evs| - 1], key);
      if OneAtATime(reqs, s, evs[..|evs| - 1], key) {
        OneAtATimeStep(reqs, Run(reqs, s, evs[..|evs| - 1]), evs[|evs| - 1], key);
      }
    }
  }

  ghost predicate FallsBack(reqs: Requests, s: State, c: nat, key: string) {
    Runs(reqs, s, c, key) && s.pcs[c].Fallback?
  }

  ghost predicate FallbackRuns(reqs: Requests, s: State, key: string) {
    exists d :: FallsBack(reqs, s, d, key)
  }

  /**
   While the lock protects its holder, two calls meet only through a fallback: a waiter runs
   out while fn runs, or a locked call begins while a fallback still runs.
   */
  ghost predicate FallbackJoins(reqs: Requests, s: State, e: Event, key: string) {
    || (RunsOut(reqs, s, e, key) && AnotherRuns(reqs, s, e.caller, key))
    || (BeginsLocked(reqs, s, e, key) && FallbackRuns(reqs, s, key))
  }

  ghost predicate NoFallbackJoins(reqs: Requests, s: State, evs: seq<Event>, key: string) {
    evs != [] ==>
      && NoFallbackJoins(reqs, s, evs[..|evs| - 1], key)
      && !FallbackJoins(reqs, Run(reqs, s, evs[..|evs| - 1]), evs[|evs| - 1], key)
  }

  lemma JoinsByFallback(reqs: Requests, s: State, e: Event, key: string)
    requires LockInv(reqs, s, key)
    ensures Joins(reqs, s, e, key) <==> FallbackJoins(reqs, s, e, key)
  {
    if BeginsLocked(reqs, s, e, key) {
      assert Holds(reqs, s, e.caller, key);
      assert forall d :: Runs(reqs, s, d, key) && s.pcs[d].Computing? ==> Holds(reqs, s, d, key);
      if AnotherRuns(reqs, s, e.caller, key) {
        var d :| d != e.caller && Runs(reqs, s, d, key);
        assert FallsBack(reqs, s, d, key);
      }
    }
  }

  /** Stampede protection under a lock that outlives its holders: one call at a time exactly if no fallback meets another call. */
  lemma {:induction false} OneAtATimeUnderLockIff(reqs: Requests, s: State, evs: seq<Event>, key: string)
    requires Init(reqs, s) && AlwaysLockSafe(reqs, s, evs, key)
    ensures OneAtATime(reqs, s, evs, key) <==> NoFallbackJoins(reqs, s, evs, key)
  {
    if evs != [] {
      var init := evs[..|evs| - 1];
      OneAtATimeUnderLockIff(reqs, s, init, key);
      LockInvRun(reqs, s, init, key);
      JoinsByFallback(reqs, Run(reqs, s, init), evs[|evs| - 1], key);
      if OneAtATime(reqs, s, init, key) {
        OneAtATimeStep(reqs, Run(reqs, s, init), evs[|evs| - 1], key);
      }
    }
  }

  ghost predicate NobodyRunsOut(reqs: Requests, s: State, evs: seq<Event>, key: string) {
    evs != [] ==>
      && NobodyRunsOut(reqs, s, evs[..|evs| - 1], key)
      && !RunsOut(reqs, Run(reqs, s, evs[..|evs| - 1]), evs[|evs| - 1], key)
  }

  lemma {:induction false} NoFallbackWithoutRunOut(reqs: Requests, s: State, evs: seq<Event>, key: string)
    requires Init(reqs, s) && NobodyRunsOut(reqs, s, evs, key)
    ensures !FallbackRuns(reqs, Run(reqs, s, evs), key)
  {
    if evs != [] {
      var t, e := Run(reqs, s, evs[..|evs| - 1]), evs[|evs| - 1];
      NoFallbackWithoutRunOut(reqs, s, evs[..|evs| - 1], key);
      StartsFnIff(reqs, t, e, key);
      assert forall d :: FallsBack(reqs, Next(reqs, t, e), d, key) ==> FallsBack(reqs, t, d, key) || RunsOut(reqs, t, e, key);
    }
  }

  /** In every run in which the lock outlives its holders and no waiter's time runs out, fn runs one call at a time. */
  lemma {:induction false} OneAtATimeIfNobodyRunsOut(reqs: Requests, s: State, evs: seq<Event>, key: string)
    requires Init(reqs, s) && AlwaysLockSafe(reqs, s, evs, key) && NobodyRunsOut(reqs, s, evs, key)
    ensures OneAtATime(reqs, s, evs, key) && NoFallbackJoins(reqs, s, evs, key)
  {
    if evs != [] {
      OneAtATimeIfNobodyRunsOut(reqs, s, evs[..|evs| - 1], key);
      NoFallbackWithoutRunOut(reqs, s, evs[..|evs| - 1], key);
    }
    OneAtATimeUnderLockIff(reqs, s, evs, key);
  }

  /** The guard of the wait loop decides: while a holder computes, a waiter's turn keeps one call at a time exactly before its deadline. */
  lemma WaiterKeepsOneCallIff(reqs: Requests, s: State, key: string, c: nat, d: nat)
    requires AtMostOneRuns(reqs, s, key) && Runs(reqs, s, c, key)
    requires d in s.pcs && d in reqs && reqs[d].key == key && s.pcs[d].WaitHead?
    ensures AtMostOneRuns(reqs, Next(reqs, s, Act(d, Answered)), key) <==> s.store.now < s.pcs[d].deadline
  {
    OneAtATimeStep(reqs, s, Act(d, Answered), key);
    assert d != c;
  }

  // ---------------------------------------------------------------------------------------
  // The number of calls

  ghost function FnCalls(reqs: Requests, s: State, evs: seq<Event>, key: string): nat {
    if evs == [] then 0
    else
      FnCalls(reqs, s, evs[..|evs| - 1], key) +
      if StartsFn(reqs, Run(reqs, s, evs[..|evs| - 1]), evs[|evs| - 1], key) then 1 else 0
  }

  ghost function LockedCalls(reqs: Requests, s: State, evs: seq<Event>, key: string): nat {
    if evs == [] then 0
    else
      LockedCalls(reqs, s, evs[..|evs| - 1], key) +
      if BeginsLocked(reqs, Run(reqs, s, evs[..|evs| - 1]), evs[|evs| - 1], key) then 1 else 0
  }

  ghost function RunOuts(reqs: Requests, s: State, evs: seq<Event>, key: string): nat {
    if evs == [] then 0
    else
      RunOuts(reqs, s, evs[..|evs| - 1], key) +
      if RunsOut(reqs, Run(reqs, s, evs[..|evs| - 1]), evs[|evs| - 1], key) then 1 else 0
  }

  lemma {:induction false} CallsAreLockedOrFallback(reqs: Requests, s: State, evs: seq<Event>, key: string)
    ensures FnCalls(reqs, s, evs, key) == LockedCalls(reqs, s, evs, key) + RunOuts(reqs, s, evs, key)
  {
    if evs != [] {
      CallsAreLockedOrFallback(reqs, s, evs[..|evs| - 1], key);
      StartsFnIff(reqs, Run(reqs, s, evs[..|evs| - 1]), evs[|evs| - 1], key);
    }
  }

  /**
   The burst's conditions on one event, all about the key alone: its callers meet no fault,
   error or cancellation; its lock outlives its holders; a stored value outlives the burst.
   */
  ghost predicate Quiet(reqs: Requests, s: State, e: Event, key: string) {
    && LockSafe(reqs, s, e, key)
    && match e
       case Tick(d) => s.store.Live(key) ==> s.store.Advance(d).Live(key)
       case Evict(k) => k != key
       case Act(c, reply) => c in reqs && reqs[c].key == key ==> reply.Answered? || reply.Computed?
  }

  ghost predicate AlwaysQuiet(reqs: Requests, s: State, evs: seq<Event>, key: string) {
    evs != [] ==>
      && AlwaysQuiet(reqs, s, evs[..|evs| - 1], key)
      && Quiet(reqs, Run(reqs, s, evs[..|evs| - 1]), evs[|evs| - 1], key)
  }

  /** No caller of the key has tried the lock yet. */
  ghost predicate NotBegun(reqs: Requests, s: State, key: string) {
    forall c :: c in s.pcs && c in reqs && reqs[c].key == key ==> s.pcs[c].Start? || s.pcs[c].TryLock?
  }

  ghost predicate SomeoneDoubleChecks(reqs: Requests, s: State, key: string) {
    exists c :: Holds(reqs, s, c, key) && s.pcs[c].DoubleCheck?
  }

  ghost predicate SomeoneCommitted(reqs: Requests, s: State, key: string) {
    exists c :: Committed(reqs, s, c, key)
  }

  ghost predicate NobodyStored(reqs: Requests, s: State, key: string) {
    forall c :: Holds(reqs, s, c, key) ==> s.pcs[c].DoubleCheck?
  }

  ghost predicate NobodyDone(reqs: Requests, s: State, key: string) {
    forall c :: c in s.pcs && c in reqs && reqs[c].key == key ==> !s.pcs[c].Done? && !s.pcs[c].Fallback?
  }

  /** What the calls made so far say about the state; free says that the lock was vacant at first. */
  ghost predicate BurstInv(reqs: Requests, s: State, key: string, free: bool, locked: nat, runOuts: nat) {
    && locked <= 1
    && (locked == 0 ==>
          && !s.store.Live(key) && NobodyStored(reqs, s, key)
          && (runOuts == 0 ==> NobodyDone(reqs, s, key))
          && (free ==> SomeoneDoubleChecks(reqs, s, key) || (NotBegun(reqs, s, key) && !s.store.Live(LockKey(key)))))
    && (locked == 1 ==> s.store.Live(key) || SomeoneCommitted(reqs, s, key))
  }

  lemma MoveBeforeCall(r: Request, st: Store, pc: Pc, reply: Reply)
    requires (reply.Answered? || reply.Computed?) && !st.Live(r.key)
    ensures var (st', pc') := Move(r, st, pc, reply);
            && (!pc.Storing? ==> !st'.Live(r.key))
            && (pc'.Inside() && !pc.Inside() ==> pc'.DoubleCheck?)
            && (pc'.Done? && !pc.Inside() ==> pc.Done? || pc.Fallback?)
            && (pc.DoubleCheck? ==> pc' == pc || pc'.Computing?)
            && (pc.Start? ==> st' == st && (pc'.Start? || pc'.TryLock?))
            && (pc.TryLock? && !st.Live(LockKey(r.key)) ==> (st' == st && pc' == pc) || pc'.DoubleCheck?)
  {
    assert |LockKey(r.key)| > |r.key|;
  }

  lemma BurstBefore(reqs: Requests, s: State, e: Event, key: string, free: bool, runOuts: nat)
    requires LockInv(reqs, s, key) && Quiet(reqs, s, e, key) && Calls(reqs, s, e, key)
    requires BurstInv(reqs, s, key, free, 0, runOuts) && !BeginsLocked(reqs, s, e, key)
    ensures BurstInv(reqs, Next(reqs, s, e), key, free, 0, runOuts + if RunsOut(reqs, s, e, key) then 1 else 0)
  {
    var s', c := Next(reqs, s, e), e.caller;
    MoveBeforeCall(reqs[c], s.store, s.pcs[c], e.reply);
    StartsFnIff(reqs, s, e, key);
    assert s.pcs[c].Inside() ==> Holds(reqs, s, c, key);
    assert forall d :: d != c ==> Holds(reqs, s', d, key) == Holds(reqs, s, d, key);
    if free {
      if SomeoneDoubleChecks(reqs, s, key) {
        var d :| Holds(reqs, s, d, key) && s.pcs[d].DoubleCheck?;
        assert Holds(reqs, s', d, key) && s'.pcs[d].DoubleCheck?;
      } else if s'.pcs[c].DoubleCheck? {
        assert Holds(reqs, s', c, key);
      }
    }
  }

  lemma MoveAfterCall(r: Request, st: Store, pc: Pc, reply: Reply)
    requires reply.Answered? || reply.Computed?
    ensures var (st', pc') := Move(r, st, pc, reply);
            && (st.Live(r.key) ==> st'.Live(r.key))
            && (pc.Computing? ==> pc'.Computing? || pc'.Storing?)
            && (pc.Storing? ==> pc' == pc || st'.Live(r.key))
  {
    assert |LockKey(r.key)| > |r.key|;
  }

  lemma BurstAfter(reqs: Requests, s: State, e: Event, key: string, free: bool, runOuts: nat, runOuts': nat)
    requires LockInv(reqs, s, key) && Quiet(reqs, s, e, key) && Calls(reqs, s, e, key)
    requires BurstInv(reqs, s, key, free, 1, runOuts)
    ensures !BeginsLocked(reqs, s, e, key) && BurstInv(reqs, Next(reqs, s, e), key, free, 1, runOuts')
  {
    var s', c := Next(reqs, s, e), e.caller;
    MoveAfterCall(reqs[c], s.store, s.pcs[c], e.reply);
    if !s.store.Live(key) {
      var d :| Committed(reqs, s, d, key);
      assert Holds(reqs, s, d, key);
      assert s.pcs[c].DoubleCheck? ==> Holds(reqs, s, c, key);
      assert s'.store.Live(key) || Committed(reqs, s', d, key);
    }
  }

  /** Everything else leaves the callers of the key, its value and a vacant lock as they are. */
  lemma BurstFrame(reqs: Requests, s: State, s': State, key: string, free: bool, locked: nat, runOuts: nat)
    requires BurstInv(reqs, s, key, free, locked, runOuts) && s'.store.Live(key) == s.store.Live(key)
    requires !s.store.Live(LockKey(key)) ==> !s'.store.Live(LockKey(key))
    requires forall c :: c in reqs && reqs[c].key == key ==> (c in s'.pcs <==> c in s.pcs)
    requires forall c :: c in reqs && reqs[c].key == key && c in s.pcs ==> s'.pcs[c] == s.pcs[c]
    ensures BurstInv(reqs, s', key, free, locked, runOuts)
  {
    assert forall c :: Holds(reqs, s', c, key) == Holds(reqs, s, c, key);
    assert forall c :: Committed(reqs, s', c, key) == Committed(reqs, s, c, key);
  }

  lemma BurstStep(reqs: Requests, s: State, e: Event, key: string, free: bool, locked: nat, runOuts: nat)
    requires NoCollision(reqs) && LockInv(reqs, s, key) && Quiet(reqs, s, e, key)
    requires exists x :: x in reqs && reqs[x].key == key
    requires BurstInv(reqs, s, key, free, locked, runOuts)
    ensures BurstInv(reqs, Next(reqs, s, e), key, free, locked + (if BeginsLocked(reqs, s, e, key) then 1 else 0),
                     runOuts + if RunsOut(reqs, s, e, key) then 1 else 0)
  {
    if !Calls(reqs, s, e, key) {
      if e.Act? && e.caller in s.pcs {
        OtherKey(reqs, s, e, key);
      }
      BurstFrame(reqs, s, Next(reqs, s, e), key, free, locked, runOuts);
    } else if locked == 1 {
      BurstAfter(reqs, s, e, key, free, runOuts, runOuts + if RunsOut(reqs, s, e, key) then 1 else 0);
    } else if BeginsLocked(reqs, s, e, key) {
      assert Committed(reqs, Next(reqs, s, e), e.caller, key);
    } else {
      BurstBefore(reqs, s, e, key, free, runOuts);
    }
  }

  lemma {:induction false} BurstRun(reqs: Requests, s: State, evs: seq<Event>, key: string, free: bool)
    requires NoCollision(reqs) && Init(reqs, s) && AlwaysQuiet(reqs, s, evs, key)
    requires exists x :: x in reqs && reqs[x].key == key
    requires !s.store.Live(key) && (free ==> !s.store.Live(LockKey(key)))
    ensures LockInv(reqs, Run(reqs, s, evs), key)
    ensures BurstInv(reqs, Run(reqs, s, evs), key, free, LockedCalls(reqs, s, evs, key), RunOuts(reqs, s, evs, key))
  {
    if evs != [] {
      var init, e := evs[..|evs| - 1], evs[|evs| - 1];
      BurstRun(reqs, s, init, key, free);
      LockInvStep(reqs, Run(reqs, s, init), e, key);
      BurstStep(reqs, Run(reqs, s, init), e, key, free, LockedCalls(reqs, s, init, key), RunOuts(reqs, s, init, key));
    }
  }

  ghost predicate AllDone(reqs: Requests, s: State, key: string) {
    forall c :: c in reqs && reqs[c].key == key ==> c in s.pcs && s.pcs[c].Done?
  }

  /**
   In a quiet burst on a vacant key fn is called under the lock at most once, and once all
   callers are done exactly 1 + k times, k being the number of waiters that ran out of time:
   exactly once if and only if none did.
   */
  lemma ExactlyOneCallIff(reqs: Requests, s: State, evs: seq<Event>, key: string)
    requires NoCollision(reqs) && Init(reqs, s) && AlwaysQuiet(reqs, s, evs, key)
    requires exists x :: x in reqs && reqs[x].key == key
    requires !s.store.Live(key)
    ensures FnCalls(reqs, s, evs, key) <= 1 + RunOuts(reqs, s, evs, key)
    ensures AllDone(reqs, Run(reqs, s, evs), key) && !s.store.Live(LockKey(key)) ==>
              FnCalls(reqs, s, evs, key) == 1 + RunOuts(reqs, s, evs, key)
    ensures AllDone(reqs, Run(reqs, s, evs), key) && RunOuts(reqs, s, evs, key) == 0 ==> FnCalls(reqs, s, evs, key) == 1
  {
    CallsAreLockedOrFallback(reqs, s, evs, key);
    BurstRun(reqs, s, evs, key, !s.store.Live(LockKey(key)));
  }

  // ---------------------------------------------------------------------------------------
  // When nobody runs out of time

  ghost predicate AtHead(reqs: Requests, s: State, c: nat, key: string) {
    c in s.pcs && c in reqs && reqs[c].key == key && s.pcs[c].WaitHead?
  }

  /** A poll that ends at or past its deadline finds the value, and the loop test follows the poll at once. */
  ghost predicate Timely(reqs: Requests, s: State, e: Event, key: string) {
    match e
    case Tick(d) => forall c :: AtHead(reqs, s, c, key) && s.store.now < s.pcs[c].deadline ==> s.store.now + d < s.pcs[c].deadline
    case Evict(_) => true
    case Act(c, reply) =>
      Calls(reqs, s, e, key) && s.pcs[c].Polling? && (reply.Failed? || !s.store.Live(key)) ==> s.store.now < s.pcs[c].deadline
  }

  ghost predicate AlwaysTimely(reqs: Requests, s: State, evs: seq<Event>, key: string) {
    evs != [] ==>
      && AlwaysTimely(reqs, s, evs[..|evs| - 1], key)
      && Timely(reqs, Run(reqs, s, evs[..|evs| - 1]), evs[|evs| - 1], key)
  }

  ghost predicate HeadsInTime(reqs: Requests, s: State, key: string) {
    forall c :: AtHead(reqs, s, c, key) ==> s.store.now < s.pcs[c].deadline
  }

  lemma HeadsInTimeStep(reqs: Requests, s: State, e: Event, key: string)
    requires HeadsInTime(reqs, s, key) && Timely(reqs, s, e, key)
    ensures HeadsInTime(reqs, Next(reqs, s, e), key) && !RunsOut(reqs, s, e, key)
  {
    var s' := Next(reqs, s, e);
    assert Calls(reqs, s, e, key) && s.pcs[e.caller].WaitHead? ==> AtHead(reqs, s, e.caller, key);
    forall c | AtHead(reqs, s', c, key)
      ensures s'.store.now < s'.pcs[c].deadline
    {
      if s'.pcs[c] == s.pcs[c] {
        assert AtHead(reqs, s, c, key);
      }
    }
  }

  /** The condition is on the leader's Set: it lands before any waiter's poll that ends past that waiter's deadline. */
  lemma {:induction false} TimelyMeansNobodyRunsOut(reqs: Requests, s: State, evs: seq<Event>, key: string)
    requires Init(reqs, s) && AlwaysTimely(reqs, s, evs, key)
    ensures HeadsInTime(reqs, Run(reqs, s, evs), key)
    ensures NobodyRunsOut(reqs, s, evs, key) && RunOuts(reqs, s, evs, key) == 0
  {
    if evs != [] {
      TimelyMeansNobodyRunsOut(reqs, s, evs[..|evs| - 1], key);
      HeadsInTimeStep(reqs, Run(reqs, s, evs[..|evs| - 1]), evs[|evs| - 1], key);
    }
  }

  /** Under a lock that outlives its holders and with timely polls, fn runs one call at a time. */
  lemma OneAtATimeIfTimely(reqs: Requests, s: State, evs: seq<Event>, key: string)
    requires Init(reqs, s) && AlwaysLockSafe(reqs, s, evs, key) && AlwaysTimely(reqs, s, evs, key)
    ensures OneAtATime(reqs, s, evs, key)
  {
    TimelyMeansNobodyRunsOut(reqs, s, evs, key);
    OneAtATimeIfNobodyRunsOut(reqs, s, evs, key);
  }

  /** A quiet and timely burst on a vacant key calls fn at most once, and exactly once when all its callers are done. */
  lemma ExactlyOneCallIfTimely(reqs: Requests, s: State, evs: seq<Event>, key: string)
    requires NoCollision(reqs) && Init(reqs, s) && AlwaysQuiet(reqs, s, evs, key) && AlwaysTimely(reqs, s, evs, key)
    requires exists x :: x in reqs && reqs[x].key == key
    requires !s.store.Live(key)
    ensures FnCalls(reqs, s, evs, key) <= 1
    ensures AllDone(reqs, Run(reqs, s, evs), key) ==> FnCalls(reqs, s, evs, key) == 1
  {
    TimelyMeansNobodyRunsOut(reqs, s, evs, key);
    ExactlyOneCallIff(reqs, s, evs, key);
  }
}

/** Runs from the start on an empty cache in which the conditions of these theorems fail. */
module StampedeRuns {
  import opened ExpiringStore
  import opened CacheAside
  import opened CacheRuns
  import opened Stampede

  /** Callers 0 and 1, and any others, make the same request. */
  ghost predicate SameRequest(reqs: Requests, r: Request) {
    0 in reqs && 1 in reqs && forall c :: c in reqs ==> reqs[c] == r
  }

  /** The lock expires under its holder and the next caller is inside as well. */
  lemma {:induction false} ExpiredLockAdmitsSecondHolder(reqs: Requests, r: Request)
    requires SameRequest(reqs, r)
    ensures var evs := Enter(0) + [Tick(LockTtl(r))] + [Act(1, Answered)] + [Act(1, Answered)];
            && Holds(reqs, Run(reqs, AllStart(reqs), evs), 0, r.key) && Holds(reqs, Run(reqs, AllStart(reqs), evs), 1, r.key)
            && !AlwaysLockSafe(reqs, AllStart(reqs), Enter(0) + [Tick(LockTtl(r))], r.key)
  {
    var s, a := AllStart(reqs), Act(1, Answered);
    TakesLock(reqs, r);
    Entering(r);
    var t := State(Locked(r), s.pcs[0 := DoubleCheck]);
    Passes(reqs, s, Enter(0), t, LockTtl(r), r.key);
    assert Holds(reqs, t, 0, r.key);
    var late := State(Locked(r).Advance(LockTtl(r)), t.pcs);
    SecondEnters(reqs, r, s, Enter(0) + [Tick(LockTtl(r))], late);
  }

  lemma {:induction false} SecondEnters(reqs: Requests, r: Request, s: State, evs: seq<Event>, late: State)
    requires SameRequest(reqs, r) && Run(reqs, s, evs) == late && late.pcs.Keys == reqs.Keys
    requires late.pcs[0].DoubleCheck? && late.pcs[1].Start? && !late.store.Live(r.key) && !late.store.Live(LockKey(r.key))
    ensures var t := Run(reqs, s, evs + [Act(1, Answered)] + [Act(1, Answered)]);
            Holds(reqs, t, 0, r.key) && Holds(reqs, t, 1, r.key)
  {
    var a := Act(1, Answered);
    var mid := State(late.store, late.pcs[1 := TryLock]);
    assert Next(reqs, late, a) == mid;
    var more, most := evs + [a], evs + [a] + [a];
    assert more[..|more| - 1] == evs && most[..|most| - 1] == more;
    assert Next(reqs, mid, a).pcs == mid.pcs[1 := DoubleCheck];
  }

  /** A SetNX that fails after it took effect leaves a lock that nobody holds: every caller after it waits. */
  lemma {:induction false} FailedSetNxLeaksLock(reqs: Requests, r: Request, id: nat)
    requires SameRequest(reqs, r)
    ensures var t := Run(reqs, AllStart(reqs), [Act(0, Answered)] + [Act(0, Failed(true, id))]);
            && t == State(Locked(r), AllStart(reqs).pcs[0 := Done(Error(StoreError(id)))])
            && t.store.Live(LockKey(r.key)) && !Held(reqs, t, r.key)
  {
    var s, failed := AllStart(reqs), Done(Error(StoreError(id)));
    Entering(r);
    assert [] + [Act(0, Answered)] == [Act(0, Answered)];
    Moves(reqs, s, [], s, 0, Answered, COLD, TryLock, r.key);
    Moves(reqs, s, [Act(0, Answered)], State(COLD, s.pcs[0 := TryLock]), 0, Failed(true, id), Locked(r), failed, r.key);
    assert s.pcs[0 := TryLock][0 := failed] == s.pcs[0 := failed];
  }

  /** Caller 0 computes under the lock while caller 1 waits. */
  ghost function OneWaits(): seq<Event> {
    Enter(0) + [Act(0, Answered)] + [Act(1, Answered)] + [Act(1, Answered)]
  }

  lemma {:induction false} OneWaitsForTheOther(reqs: Requests, r: Request)
    requires SameRequest(reqs, r)
    ensures Run(reqs, AllStart(reqs), OneWaits())
         == State(Locked(r), AllStart(reqs).pcs[0 := Computing][1 := WaitHead(FIRST_BACKOFF, WAIT_BUDGET)])
    ensures AlwaysLockSafe(reqs, AllStart(reqs), OneWaits(), r.key)
  {
    var s, st, key := AllStart(reqs), Locked(r), r.key;
    TakesLock(reqs, r);
    Entering(r);
    var e0 := Enter(0);
    var e1 := e0 + [Act(0, Answered)];
    var e2 := e1 + [Act(1, Answered)];
    var p0 := s.pcs[0 := DoubleCheck];
    var p1 := p0[0 := Computing];
    var p2 := p1[1 := TryLock];
    Moves(reqs, s, e0, State(st, p0), 0, Answered, st, Computing, key);
    Moves(reqs, s, e1, State(st, p1), 1, Answered, st, TryLock, key);
    Moves(reqs, s, e2, State(st, p2), 1, Answered, st, WaitHead(FIRST_BACKOFF, WAIT_BUDGET), key);
    assert p2[1 := WaitHead(FIRST_BACKOFF, WAIT_BUDGET)] == s.pcs[0 := Computing][1 := WaitHead(FIRST_BACKOFF, WAIT_BUDGET)];
  }

  ghost function WaiterFallsBack(): seq<Event> {
    OneWaits() + [Tick(WAIT_BUDGET)] + [Act(1, Answered)]
  }

  /** Under a live lock and without faults: fn outlasts the wait budget, and the holder and a waiter both run it. */
  lemma {:induction false} FallbackWhileHolderComputes(reqs: Requests, r: Request)
    requires SameRequest(reqs, r) && LockTtl(r) > WAIT_BUDGET
    ensures Run(reqs, AllStart(reqs), WaiterFallsBack())
         == State(Locked(r).Advance(WAIT_BUDGET), AllStart(reqs).pcs[0 := Computing][1 := Fallback])
    ensures AlwaysLockSafe(reqs, AllStart(reqs), WaiterFallsBack(), r.key)
    ensures !AtMostOneRuns(reqs, Run(reqs, AllStart(reqs), WaiterFallsBack()), r.key)
  {
    var s, wait := AllStart(reqs), WaitHead(FIRST_BACKOFF, WAIT_BUDGET);
    OneWaitsForTheOther(reqs, r);
    var t := State(Locked(r), s.pcs[0 := Computing][1 := wait]);
    Passes(reqs, s, OneWaits(), t, WAIT_BUDGET, r.key);
    var late := State(Locked(r).Advance(WAIT_BUDGET), t.pcs);
    Moves(reqs, s, OneWaits() + [Tick(WAIT_BUDGET)], late, 1, Answered, late.store, Fallback, r.key);
    assert t.pcs[1 := Fallback] == s.pcs[0 := Computing][1 := Fallback];
    var s' := Run(reqs, s, WaiterFallsBack());
    assert Runs(reqs, s', 0, r.key) && Runs(reqs, s', 1, r.key);
  }

  /** The holder's call fails and it releases the lock. */
  ghost function HolderFails(err: nat): seq<Event> {
    WaiterFallsBack() + [Act(0, ComputeFailed(err))] + [Act(0, Answered)]
  }

  ghost function Unlocked(r: Request): Store {
    Locked(r).Advance(WAIT_BUDGET).Del(LockKey(r.key))
  }

  lemma {:induction false} HolderReleases(reqs: Requests, r: Request, err: nat)
    requires SameRequest(reqs, r) && LockTtl(r) > WAIT_BUDGET
    ensures Run(reqs, AllStart(reqs), HolderFails(err))
         == State(Unlocked(r), AllStart(reqs).pcs[0 := Done(Error(FnError(err)))][1 := Fallback])
    ensures AlwaysLockSafe(reqs, AllStart(reqs), HolderFails(err), r.key)
  {
    var s, st, failed := AllStart(reqs), Locked(r).Advance(WAIT_BUDGET), Error(FnError(err));
    FallbackWhileHolderComputes(reqs, r);
    var p := s.pcs[0 := Computing][1 := Fallback];
    Moves(reqs, s, WaiterFallsBack(), State(st, p), 0, ComputeFailed(err), st, Releasing(failed), r.key);
    Moves(reqs, s, WaiterFallsBack() + [Act(0, ComputeFailed(err))], State(st, p[0 := Releasing(failed)]), 0, Answered,
          Unlocked(r), Done(failed), r.key);
    assert p[0 := Releasing(failed)][0 := Done(failed)] == s.pcs[0 := Done(failed)][1 := Fallback];
  }

  /** A locked call begins while a fallback still runs, again under a lock that nobody lost. */
  lemma {:induction false} LockedCallDuringFallback(reqs: Requests, r: Request, err: nat)
    requires SameRequest(reqs, r) && 2 in reqs && LockTtl(r) > WAIT_BUDGET
    ensures var evs := HolderFails(err) + [Act(2, Answered)] + [Act(2, Answered)] + [Act(2, Answered)];
            && AlwaysLockSafe(reqs, AllStart(reqs), evs, r.key)
            && Run(reqs, AllStart(reqs), evs).pcs == AllStart(reqs).pcs[0 := Done(Error(FnError(err)))][1 := Fallback][2 := Computing]
            && !AtMostOneRuns(reqs, Run(reqs, AllStart(reqs), evs), r.key)
  {
    var s, st, a := AllStart(reqs), Unlocked(r), Act(2, Answered);
    var st' := st.SetNX(LockKey(r.key), LockKey(r.key), LockTtl(r));
    HolderReleases(reqs, r, err);
    assert |LockKey(r.key)| > |r.key|;
    var e := HolderFails(err);
    var p := s.pcs[0 := Done(Error(FnError(err)))][1 := Fallback];
    Moves(reqs, s, e, State(st, p), 2, Answered, st, TryLock, r.key);
    Moves(reqs, s, e + [a], State(st, p[2 := TryLock]), 2, Answered, st', DoubleCheck, r.key);
    Moves(reqs, s, e + [a] + [a], State(st', p[2 := TryLock][2 := DoubleCheck]), 2, Answered, st', Computing, r.key);
    assert p[2 := TryLock][2 := DoubleCheck][2 := Computing] == p[2 := Computing];
    var s' := Run(reqs, s, e + [a] + [a] + [a]);
    assert Runs(reqs, s', 1, r.key) && Runs(reqs, s', 2, r.key);
  }
}
