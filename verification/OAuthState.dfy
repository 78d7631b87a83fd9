/** The state store as values: lazy expiry on lookup and a background sweep. */
module StateStore {
  datatype StateData = StateData(nonce: string, codeVerifier: string, expiresAt: int)

  type Data = map<string, StateData>

  datatype Lookup = Found(data: StateData) | NotFound | Expired

  predicate IsExpired(d: StateData, now: int) {
    now > d.expiresAt
  }

  function Look(data: Data, state: string, now: int): Lookup {
    if state !in data then NotFound
    else if IsExpired(data[state], now) then Expired
    else Found(data[state])
  }

  /** A lookup deletes the entry it finds expired. */
  function AfterLook(data: Data, state: string, now: int): Data {
    if Look(data, state, now).Expired? then data - {state} else data
  }

  function Swept(data: Data, now: int): Data {
    map k | k in data && !IsExpired(data[k], now) :: data[k]
  }

  datatype Op = Save(state: string, data: StateData) | LookUp(state: string) | Delete(state: string) | Sweep

  datatype Timed = Timed(now: int, op: Op)

  /** What a caller of HandleCallback can tell: the data, or ErrInvalidState whatever the reason. */
  datatype Visible = Nothing | Hit(data: StateData) | InvalidState

  function After(sweeping: bool, data: Data, t: Timed): Data {
    match t.op
    case Save(state, d) => data[state := d]
    case LookUp(state) => AfterLook(data, state, t.now)
    case Delete(state) => data - {state}
    case Sweep => if sweeping then Swept(data, t.now) else data
  }

  function See(data: Data, t: Timed): Visible {
    match t.op
    case LookUp(state) =>
      var r := Look(data, state, t.now);
      if r.Found? then Hit(r.data) else InvalidState
    case _ => Nothing
  }

  function Store(sweeping: bool, data: Data, ops: seq<Timed>): Data {
    if ops == [] then data else After(sweeping, Store(sweeping, data, ops[..|ops| - 1]), ops[|ops| - 1])
  }

  function Trace(sweeping: bool, data: Data, ops: seq<Timed>): seq<Visible> {
    if ops == [] then []
    else
      var init := ops[..|ops| - 1];
      Trace(sweeping, data, init) + [See(Store(sweeping, data, init), ops[|ops| - 1])]
  }

  ghost predicate Monotone(ops: seq<Timed>) {
    forall i, j :: 0 <= i < j < |ops| ==> ops[i].now <= ops[j].now
  }

  /** A swept store holds what the other one holds, except entries already expired. */
  ghost predicate Simulates(swept: Data, data: Data, now: int) {
    && (forall k :: k in swept ==> k in data && data[k] == swept[k])
    && (forall k :: k in data && k !in swept ==> IsExpired(data[k], now))
  }

  lemma SimulationStep(swept: Data, data: Data, now: int, t: Timed)
    requires Simulates(swept, data, now) && now <= t.now
    ensures See(swept, t) == See(data, t)
    ensures Simulates(After(true, swept, t), After(false, data, t), t.now)
  {
  }

  lemma {:induction false} SimulationRun(data: Data, ops: seq<Timed>, start: int)
    requires Monotone(ops) && (ops != [] ==> start <= ops[0].now)
    ensures Simulates(Store(true, data, ops), Store(false, data, ops), if ops == [] then start else ops[|ops| - 1].now)
    ensures Trace(true, data, ops) == Trace(false, data, ops)
  {
    if ops != [] {
      var init := ops[..|ops| - 1];
      SimulationRun(data, init, start);
      SimulationStep(Store(true, data, init), Store(false, data, init), if init == [] then start else init[|init| - 1].now, ops[|ops| - 1]);
    }
  }

  /** Sweeps at arbitrary moments are invisible: every lookup finds the same data or fails alike. */
  lemma SweepIsInvisible(data: Data, ops: seq<Timed>)
    requires Monotone(ops)
    ensures Trace(true, data, ops) == Trace(false, data, ops)
  {
    SimulationRun(data, ops, if ops == [] then 0 else ops[0].now);
  }
}

/** InMemoryStorage and the manager's two entry points, run one call at a time. */
module OAuthManager {
  import opened Wrappers
  import opened StateStore

  class InMemoryStorage {
    var data: Data

    constructor ()
      ensures data == map[]
    {
      data := map[];
    }

    method SaveState(state: string, nonce: string, codeVerifier: string, expiresAt: int)
      modifies this
      ensures data == old(data)[state := StateData(nonce, codeVerifier, expiresAt)]
    {
      data := data[state := StateData(nonce, codeVerifier, expiresAt)];
    }

    method GetStateData(state: string, now: int) returns (r: Lookup)
      modifies this
      ensures r == Look(old(data), state, now) && data == AfterLook(old(data), state, now)
    {
      if state !in data {
        return NotFound;
      }
      var d := data[state];
      if now > d.expiresAt {
        data := data - {state};
        return Expired;
      }
      r := Found(d);
    }

    method DeleteState(state: string)
      modifies this
      ensures data == old(data) - {state}
    {
      data := data - {state};
    }

    /** The loop over the map, in any order, leaves exactly the entries not yet expired. */
    method RemoveExpired(now: int)
      modifies this
      ensures data == Swept(old(data), now)
    {
      var left := data.Keys;
      while left != {}
        invariant left <= old(data).Keys
        invariant forall k :: k in data <==> k in old(data) && (k in left || !IsExpired(old(data)[k], now))
        invariant forall k :: k in data ==> data[k] == old(data)[k]
        decreases |left|
      {
        var state :| state in left;
        if now > data[state].expiresAt {
          data := data - {state};
        }
        left := left - {state};
      }
    }

    /** One operation as its caller sees it; a hit or a miss is all a lookup tells. */
    method Perform(t: Timed) returns (seen: Visible)
      modifies this
      ensures seen == See(old(data), t) && data == After(true, old(data), t)
    {
      seen := Nothing;
      match t.op
      case Save(state, d) => SaveState(state, d.nonce, d.codeVerifier, d.expiresAt);
      case LookUp(state) =>
        var r := GetStateData(state, t.now);
        seen := if r.Found? then Hit(r.data) else InvalidState;
      case Delete(state) => DeleteState(state);
      case Sweep => RemoveExpired(t.now);
    }

    /** The storage with its sweeper answers every sequence of calls as if nothing were ever swept. */
    method Serve(ops: seq<Timed>) returns (trace: seq<Visible>)
      requires Monotone(ops)
      modifies this
      ensures trace == Trace(false, old(data), ops)
    {
      trace := [];
      for i := 0 to |ops|
        invariant trace == Trace(true, old(data), ops[..i]) && data == Store(true, old(data), ops[..i])
      {
        assert ops[..i + 1][..i] == ops[..i];
        var seen := Perform(ops[i]);
        trace := trace + [seen];
      }
      assert ops[..|ops|] == ops;
      SweepIsInvisible(old(data), ops);
    }
  }

  datatype Outcome = ProviderNotFound | ErrInvalidState | CallbackFailed | HandlerFailed | LoggedIn

  /** Whether the provider and the callback handler succeed. */
  datatype Answers = Answers(provider: bool, handler: bool)

  class Manager {
    const storage: InMemoryStorage
    const stateTimeout: int
    var providers: set<string>

    constructor (stateTimeout: int)
      ensures fresh(storage) && storage.data == map[] && providers == {} && this.stateTimeout == stateTimeout
    {
      storage := new InMemoryStorage();
      this.stateTimeout, providers := stateTimeout, {};
    }

    method RegisterProvider(name: string)
      modifies this
      ensures providers == old(providers) + {name}
    {
      providers := providers + {name};
    }

    /** The random state, nonce and verifier are given; an unknown provider leaves no trace. */
    method GetAuthUrl(provider: string, state: string, nonce: string, codeVerifier: string, now: int) returns (ok: bool)
      modifies storage
      ensures ok <==> provider in providers
      ensures !ok ==> storage.data == old(storage.data)
      ensures ok ==> storage.data == old(storage.data)[state := StateData(nonce, codeVerifier, now + stateTimeout)]
    {
      if provider !in providers {
        return false;
      }
      storage.SaveState(state, nonce, codeVerifier, now + stateTimeout);
      ok := true;
    }

    /** Look up, call the provider and the handler, and delete the state on every way out once it was found. */
    method HandleCallback(provider: string, state: string, now: int, a: Answers) returns (r: Outcome, given: Option<StateData>)
      modifies storage
      ensures given.Some? <==> provider in providers && Look(old(storage.data), state, now).Found?
      ensures given.Some? ==> given.value == old(storage.data)[state] && storage.data == old(storage.data) - {state}
      ensures provider !in providers ==> r == ProviderNotFound && storage.data == old(storage.data)
      ensures provider in providers && given.None? ==> r == ErrInvalidState && storage.data == AfterLook(old(storage.data), state, now)
      ensures given.Some? ==> r == if !a.provider then CallbackFailed else if !a.handler then HandlerFailed else LoggedIn
    {
      if provider !in providers {
        return ProviderNotFound, None;
      }
      var found := storage.GetStateData(state, now);
      if !found.Found? {
        return ErrInvalidState, None;
      }
      given := Some(found.data);
      if !a.provider {
        r := CallbackFailed;
      } else if !a.handler {
        r := HandlerFailed;
      } else {
        r := LoggedIn;
      }
      storage.DeleteState(state);
    }

    /**
     A login and a replay of its callback: the first callback reaches the provider with the
     saved nonce and verifier exactly within the timeout, and the second never does.
     */
    method LoginThenReplay(provider: string, state: string, nonce: string, codeVerifier: string, now: int,
                           first: int, second: int, a: Answers, b: Answers)
      returns (r: Outcome, given: Option<StateData>, replay: Outcome)
      requires provider in providers
      modifies storage
      ensures given.Some? <==> first <= now + stateTimeout
      ensures given.Some? ==> given.value == StateData(nonce, codeVerifier, now + stateTimeout)
      ensures replay == ErrInvalidState && state !in storage.data
      ensures r == ErrInvalidState <==> first > now + stateTimeout
    {
      var ok := GetAuthUrl(provider, state, nonce, codeVerifier, now);
      r, given := HandleCallback(provider, state, first, a);
      var again;
      replay, again := HandleCallback(provider, state, second, b);
    }
  }
}

/** One-time use of a state over every interleaving of logins, callbacks and sweeps. */
module OneTimeUse {
  import opened StateStore

  /** A saved state with the number of the save that wrote it. */
  datatype Saved = Saved(serial: nat, data: StateData)

  datatype Callback =
    | Arrived(state: string)                 // provider known, about to look up
    | InFlight(state: string, serial: nat)   // state found, provider being called, delete deferred
    | Returned

  /** fed: the saves whose data were handed to a provider, once for each call. */
  datatype State = State(store: map<string, Saved>, next: nat, callbacks: map<nat, Callback>, fed: multiset<nat>)

  datatype Event =
    | SaveState(state: string, data: StateData)
    | Arrive(c: nat, state: string)
    | Find(c: nat, now: int)
    | Return(c: nat)      // by success, provider error or handler error alike
    | RemoveExpired(now: int)

  ghost predicate Finds(s: State, e: Event) {
    && e.Find? && e.c in s.callbacks && s.callbacks[e.c].Arrived?
    && s.callbacks[e.c].state in s.store && !IsExpired(s.store[s.callbacks[e.c].state].data, e.now)
  }

  ghost function Next(s: State, e: Event): State {
    match e
    case SaveState(state, d) => s.(store := s.store[state := Saved(s.next, d)], next := s.next + 1)
    case Arrive(c, state) => if c in s.callbacks then s else s.(callbacks := s.callbacks[c := Arrived(state)])
    case Find(c, now) =>
      if c !in s.callbacks || !s.callbacks[c].Arrived? then s
      else
        var state := s.callbacks[c].state;
        if Finds(s, e) then
          s.(callbacks := s.callbacks[c := InFlight(state, s.store[state].serial)],
             fed := s.fed + multiset{s.store[state].serial})
        else s.(callbacks := s.callbacks[c := Returned], store := s.store - {state})
    case Return(c) =>
      if c in s.callbacks && s.callbacks[c].InFlight? then
        s.(callbacks := s.callbacks[c := Returned], store := s.store - {s.callbacks[c].state})
      else s
    case RemoveExpired(now) =>
      s.(store := map k | k in s.store && !IsExpired(s.store[k].data, now) :: s.store[k])
  }

  ghost function Run(s: State, evs: seq<Event>): State {
    if evs == [] then s else Next(Run(s, evs[..|evs| - 1]), evs[|evs| - 1])
  }

  /** The store without the numbers of the saves. */
  ghost function DataOf(s: State): Data {
    map k | k in s.store :: s.store[k].data
  }

  /** The operation on the storage that an event performs, if any. */
  ghost function Performs(s: State, e: Event): seq<Timed> {
    match e
    case SaveState(state, d) => [Timed(0, Save(state, d))]
    case Arrive(_, _) => []
    case Find(c, now) => if c in s.callbacks && s.callbacks[c].Arrived? then [Timed(now, LookUp(s.callbacks[c].state))] else []
    case Return(c) => if c in s.callbacks && s.callbacks[c].InFlight? then [Timed(0, Delete(s.callbacks[c].state))] else []
    case RemoveExpired(now) => [Timed(now, Sweep)]
  }

  /** Each event changes the store as the storage does, and a lookup finds what the storage finds. */
  lemma StoreFollowsStorage(s: State, e: Event)
    ensures DataOf(Next(s, e)) == if Performs(s, e) == [] then DataOf(s) else After(true, DataOf(s), Performs(s, e)[0])
    ensures e.Find? && Performs(s, e) != [] ==> (Finds(s, e) <==> See(DataOf(s), Performs(s, e)[0]).Hit?)
  {
  }

  /** The event may take the state away: another save, the return of a callback that holds it, or a clock past its expiry. */
  ghost predicate Disturbs(s: State, e: Event, state: string, expiresAt: int) {
    match e
    case SaveState(x, _) => x == state
    case Arrive(_, _) => false
    case Find(_, now) => now > expiresAt
    case Return(c) => c in s.callbacks && s.callbacks[c].InFlight? && s.callbacks[c].state == state
    case RemoveExpired(now) => now > expiresAt
  }

  ghost predicate NeverDisturbed(s: State, evs: seq<Event>, state: string, expiresAt: int) {
    evs != [] ==>
      && NeverDisturbed(s, evs[..|evs| - 1], state, expiresAt)
      && !Disturbs(Run(s, evs[..|evs| - 1]), evs[|evs| - 1], state, expiresAt)
  }

  /** Whatever else logs in, calls back or is swept: a saved state stays to be found until it is used, saved again or expired. */
  lemma {:induction false} StaysAvailable(s: State, evs: seq<Event>, state: string)
    requires state in s.store && NeverDisturbed(s, evs, state, s.store[state].data.expiresAt)
    ensures state in Run(s, evs).store && Run(s, evs).store[state] == s.store[state]
  {
    if evs != [] {
      StaysAvailable(s, evs[..|evs| - 1], state);
    }
  }

  /**
   Once any callback that found a state has returned, no later lookup of that state succeeds,
   whatever else runs, unless it is saved again.
   */
  lemma {:induction false} GoneForGood(s: State, c: nat, evs: seq<Event>)
    requires c in s.callbacks && s.callbacks[c].InFlight?
    requires forall i :: 0 <= i < |evs| && evs[i].SaveState? ==> evs[i].state != s.callbacks[c].state
    ensures var t := Run(Next(s, Return(c)), evs);
            && s.callbacks[c].state !in t.store
            && forall d, now :: d in t.callbacks && t.callbacks[d] == Arrived(s.callbacks[c].state) ==> !Finds(t, Find(d, now))
  {
    if evs != [] {
      GoneForGood(s, c, evs[..|evs| - 1]);
    }
  }

  /** The event hands a save to a provider while another callback that found the same save is in flight. */
  ghost predicate Overlaps(s: State, e: Event) {
    Finds(s, e) && Holder(s, s.store[s.callbacks[e.c].state].serial)
  }

  ghost predicate Holder(s: State, serial: nat) {
    exists c :: Holds(s, c, serial)
  }

  ghost predicate Holds(s: State, c: nat, serial: nat) {
    c in s.callbacks && s.callbacks[c].InFlight? && s.callbacks[c].serial == serial
  }

  ghost predicate NoOverlap(s: State, evs: seq<Event>) {
    evs != [] ==> NoOverlap(s, evs[..|evs| - 1]) && !Overlaps(Run(s, evs[..|evs| - 1]), evs[|evs| - 1])
  }

  ghost predicate Stored(s: State, serial: nat) {
    exists k :: k in s.store && s.store[k].serial == serial
  }

  ghost predicate Inv(s: State) {
    && (forall k :: k in s.store ==> s.store[k].serial < s.next)
    && (forall n :: n in s.fed ==> n < s.next)
    && (forall j, k :: j in s.store && k in s.store && s.store[j].serial == s.store[k].serial ==> j == k)
    && (forall c, n :: Holds(s, c, n) ==> n in s.fed)
    && (forall c, n, k :: Holds(s, c, n) && k in s.store && s.store[k].serial == n ==> k == s.callbacks[c].state)
    && (forall n :: n in s.fed ==> Holder(s, n) || !Stored(s, n))
  }

  /** Fewer stored states and the same callbacks keep the invariant. */
  lemma InvShrink(s: State, s': State)
    requires Inv(s) && s'.callbacks == s.callbacks && s'.next == s.next && s'.fed == s.fed
    requires forall k :: k in s'.store ==> k in s.store && s'.store[k] == s.store[k]
    ensures Inv(s')
  {
    assert forall c, n :: Holds(s', c, n) == Holds(s, c, n);
    assert forall n :: Holder(s, n) ==> Holder(s', n);
    assert forall n :: Stored(s', n) ==> Stored(s, n);
  }

  lemma InvSave(s: State, state: string, d: StateData)
    requires Inv(s)
    ensures Inv(Next(s, SaveState(state, d)))
  {
    var s' := Next(s, SaveState(state, d));
    assert forall c, n :: Holds(s', c, n) == Holds(s, c, n);
    assert forall n :: Holder(s, n) ==> Holder(s', n);
    assert forall n: nat :: n < s.next && Stored(s', n) ==> Stored(s, n);
  }

  /** A callback that neither was nor becomes in flight leaves the holders alone. */
  lemma InvCallback(s: State, c: nat, cb: Callback)
    requires Inv(s) && !cb.InFlight? && (c in s.callbacks ==> !s.callbacks[c].InFlight?)
    ensures Inv(s.(callbacks := s.callbacks[c := cb]))
  {
    var s' := s.(callbacks := s.callbacks[c := cb]);
    assert forall d, n :: Holds(s', d, n) == Holds(s, d, n);
    assert forall n :: Holder(s, n) ==> Holder(s', n);
    assert forall n :: Stored(s', n) ==> Stored(s, n);
  }

  lemma InvFind(s: State, e: Event)
    requires Inv(s) && Finds(s, e)
    ensures Inv(Next(s, e))
  {
    var s', c := Next(s, e), e.c;
    var serial := s.store[s.callbacks[c].state].serial;
    assert Holds(s', c, serial);
    assert forall d, n :: d != c ==> Holds(s', d, n) == Holds(s, d, n);
    forall n | n in s'.fed
      ensures Holder(s', n) || !Stored(s', n)
    {
      if Holder(s, n) {
        var d :| Holds(s, d, n);
        assert Holds(s', d, n);
      }
      assert Stored(s', n) ==> Stored(s, n);
    }
  }

  lemma InvReturn(s: State, c: nat)
    requires Inv(s) && c in s.callbacks && s.callbacks[c].InFlight?
    ensures Inv(Next(s, Return(c)))
  {
    var s' := Next(s, Return(c));
    assert Holds(s, c, s.callbacks[c].serial);
    assert forall d, n :: d != c ==> Holds(s', d, n) == Holds(s, d, n);
    forall n | n in s'.fed
      ensures Holder(s', n) || !Stored(s', n)
    {
      if Stored(s', n) {
        assert Stored(s, n);
        var d :| Holds(s, d, n);
        assert d != c;
        assert Holds(s', d, n);
      }
    }
  }

  lemma InvStep(s: State, e: Event)
    requires Inv(s)
    ensures Inv(Next(s, e))
  {
    match e
    case SaveState(state, d) => InvSave(s, state, d);
    case Arrive(c, state) =>
      if c !in s.callbacks {
        InvCallback(s, c, Arrived(state));
      }
    case Find(c, now) =>
      if Finds(s, e) {
        InvFind(s, e);
      } else if c in s.callbacks && s.callbacks[c].Arrived? {
        InvCallback(s, c, Returned);
        InvShrink(s.(callbacks := s.callbacks[c := Returned]), Next(s, e));
      }
    case Return(c) =>
      if c in s.callbacks && s.callbacks[c].InFlight? {
        InvReturn(s, c);
      }
    case RemoveExpired(now) => InvShrink(s, Next(s, e));
  }

  const EMPTY: State := State(map[], 0, map[], multiset{})

  /** Every save reached a provider at most once. */
  ghost predicate FedAtMostOnce(s: State) {
    forall n :: s.fed[n] <= 1
  }

  lemma FedStep(s: State, e: Event)
    requires Inv(s)
    ensures FedAtMostOnce(Next(s, e)) <==> FedAtMostOnce(s) && !Overlaps(s, e)
  {
    if Finds(s, e) {
      var n := s.store[s.callbacks[e.c].state].serial;
      var fed := Next(s, e).fed;
      assert Stored(s, n);
      assert fed[n] == s.fed[n] + 1 && forall m :: m != n ==> fed[m] == s.fed[m];
      if Overlaps(s, e) {
        var c :| Holds(s, c, n);
        assert n in s.fed;
      } else {
        assert n !in s.fed;
      }
    }
  }

  lemma {:induction false} InvRun(evs: seq<Event>)
    ensures Inv(Run(EMPTY, evs))
  {
    if evs != [] {
      InvRun(evs[..|evs| - 1]);
      InvStep(Run(EMPTY, evs[..|evs| - 1]), evs[|evs| - 1]);
    }
  }

  /**
   Over every interleaving, each save feeds at most one provider call exactly when no lookup
   finds a save that another callback still in flight has found: get and delete are two steps.
   */
  lemma {:induction false} FedAtMostOnceIff(evs: seq<Event>)
    ensures FedAtMostOnce(Run(EMPTY, evs)) <==> NoOverlap(EMPTY, evs)
  {
    if evs != [] {
      FedAtMostOnceIff(evs[..|evs| - 1]);
      InvRun(evs[..|evs| - 1]);
      FedStep(Run(EMPTY, evs[..|evs| - 1]), evs[|evs| - 1]);
    }
  }

  /** Callbacks run one at a time: nobody is in flight when one looks up its state. */
  ghost predicate Sequential(s: State, evs: seq<Event>) {
    evs != [] ==>
      && Sequential(s, evs[..|evs| - 1])
      && (evs[|evs| - 1].Find? ==> NobodyInFlight(Run(s, evs[..|evs| - 1])))
  }

  ghost predicate NobodyInFlight(s: State) {
    forall c :: c in s.callbacks ==> !s.callbacks[c].InFlight?
  }

  lemma {:induction false} SequentialNeverOverlaps(evs: seq<Event>)
    requires Sequential(EMPTY, evs)
    ensures NoOverlap(EMPTY, evs)
  {
    if evs != [] {
      SequentialNeverOverlaps(evs[..|evs| - 1]);
    }
  }

  /** In sequential runs each save feeds at most one provider call. */
  lemma SequentialFeedsAtMostOnce(evs: seq<Event>)
    requires Sequential(EMPTY, evs)
    ensures FedAtMostOnce(Run(EMPTY, evs))
  {
    SequentialNeverOverlaps(evs);
    FedAtMostOnceIff(evs);
  }

  lemma {:induction false} Then(evs: seq<Event>, t: State, e: Event)
    requires Run(EMPTY, evs) == t
    ensures Run(EMPTY, evs + [e]) == Next(t, e)
  {
    assert (evs + [e])[..|evs + [e]| - 1] == evs;
  }

  /** A login and two arrivals of its callback. */
  ghost function TwoArrive(state: string, data: StateData, c: nat, d: nat): seq<Event> {
    [SaveState(state, data)] + [Arrive(c, state)] + [Arrive(d, state)]
  }

  lemma {:induction false} TwoArriveReaches(state: string, data: StateData, c: nat, d: nat)
    requires c != d
    ensures Run(EMPTY, TwoArrive(state, data, c, d))
         == State(map[state := Saved(0, data)], 1, map[c := Arrived(state), d := Arrived(state)], multiset{})
  {
    var save, one := SaveState(state, data), State(map[state := Saved(0, data)], 1, map[], multiset{});
    assert [] + [save] == [save];
    Then([], EMPTY, save);
    assert Next(EMPTY, save) == one;
    Then([save], one, Arrive(c, state));
    Then([save] + [Arrive(c, state)], Next(one, Arrive(c, state)), Arrive(d, state));
  }

  /**
   From the empty store: when two callbacks of one login both look its state up in time before
   either returns, both reach the provider with the same save.
   */
  lemma {:induction false} ConcurrentCallbacksBothSucceed(state: string, data: StateData, c: nat, d: nat, now: int, later: int)
    requires c != d && now <= later <= data.expiresAt
    ensures var evs := TwoArrive(state, data, c, d) + [Find(c, now)] + [Find(d, later)];
            && Run(EMPTY, evs).fed == multiset{0, 0}
            && !FedAtMostOnce(Run(EMPTY, evs)) && !NoOverlap(EMPTY, evs)
  {
    var arrived := TwoArrive(state, data, c, d);
    TwoArriveReaches(state, data, c, d);
    var s := Run(EMPTY, arrived);
    Then(arrived, s, Find(c, now));
    Then(arrived + [Find(c, now)], Next(s, Find(c, now)), Find(d, later));
    var t := Run(EMPTY, arrived + [Find(c, now)] + [Find(d, later)]);
    assert t.fed == multiset{} + multiset{0} + multiset{0};
    assert t.fed[0] == 2;
    FedAtMostOnceIff(arrived + [Find(c, now)] + [Find(d, later)]);
  }
}
