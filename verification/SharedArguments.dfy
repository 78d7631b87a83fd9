/**
 Queue arguments as the maps they are: DeclareQueue writes the queue type into the caller's own
 map, and several configurations, cached ones included, may refer to one map.
 */
module SharedArguments {
  import opened Wrappers
  import opened BrokerTopology

  /** The maps of the callers, by identity. */
  type Maps = map<nat, Args>

  /** A configuration as the cache keeps it: its arguments are a reference, or nil. */
  datatype QueueRef = QueueRef(config: QueueConfig, args: Option<nat>)

  const QUORUM: Arg := Text("quorum")

  ghost predicate Known(maps: Maps, refs: seq<QueueRef>) {
    forall i :: 0 <= i < |refs| && refs[i].args.Some? ==> refs[i].args.value in maps
  }

  /** The configuration the reference stands for at this moment. */
  ghost function Resolve(maps: Maps, ref: QueueRef): QueueConfig
    requires ref.args.Some? ==> ref.args.value in maps
  {
    ref.config.(args := if ref.args.None? then None else Some(maps[ref.args.value]))
  }

  ghost predicate Writes(qt: QueueType, ref: QueueRef, m: nat) {
    qt.Quorum? && ref.config.durable && ref.args == Some(m)
  }

  /** The maps after DeclareQueue, which writes before it asks the broker. */
  ghost function AfterDeclare(qt: QueueType, maps: Maps, ref: QueueRef): (maps': Maps)
    requires ref.args.Some? ==> ref.args.value in maps
    ensures maps'.Keys == maps.Keys
  {
    if ref.args.Some? && Writes(qt, ref, ref.args.value) then maps[ref.args.value := maps[ref.args.value]["x-queue-type" := QUORUM]] else maps
  }

  ghost function AfterAll(qt: QueueType, maps: Maps, refs: seq<QueueRef>): (maps': Maps)
    requires Known(maps, refs)
    ensures maps'.Keys == maps.Keys
  {
    if refs == [] then maps else AfterDeclare(qt, AfterAll(qt, maps, refs[..|refs| - 1]), refs[|refs| - 1])
  }

  ghost predicate SomeWrites(qt: QueueType, refs: seq<QueueRef>, m: nat) {
    exists i :: 0 <= i < |refs| && Writes(qt, refs[i], m)
  }

  /** A map has the queue type written into it exactly if some declaration of a durable queue used it. */
  lemma {:induction false} MapAfter(qt: QueueType, maps: Maps, refs: seq<QueueRef>, m: nat)
    requires Known(maps, refs) && m in maps
    ensures AfterAll(qt, maps, refs)[m] == if SomeWrites(qt, refs, m) then maps[m]["x-queue-type" := QUORUM] else maps[m]
  {
    if refs != [] {
      var init, last := refs[..|refs| - 1], refs[|refs| - 1];
      MapAfter(qt, maps, init, m);
      assert SomeWrites(qt, refs, m) <==> SomeWrites(qt, init, m) || Writes(qt, last, m);
      assert maps[m]["x-queue-type" := QUORUM]["x-queue-type" := QUORUM] == maps[m]["x-queue-type" := QUORUM];
    }
  }

  /** Replaying the cached declarations writes nothing that is not there already. */
  lemma ReplayWritesNothing(qt: QueueType, maps: Maps, refs: seq<QueueRef>, n: nat)
    requires Known(maps, refs) && n <= |refs|
    ensures Known(AfterAll(qt, maps, refs), refs[..n])
    ensures AfterAll(qt, AfterAll(qt, maps, refs), refs[..n]) == AfterAll(qt, maps, refs)
  {
    var after := AfterAll(qt, maps, refs);
    forall m | m in after
      ensures AfterAll(qt, after, refs[..n])[m] == after[m]
    {
      MapAfter(qt, maps, refs, m);
      MapAfter(qt, after, refs[..n], m);
      if SomeWrites(qt, refs[..n], m) {
        var i :| 0 <= i < n && Writes(qt, refs[..n][i], m);
        assert Writes(qt, refs[i], m);
        assert after[m]["x-queue-type" := QUORUM] == after[m];
      }
    }
  }

  /** The attributes the broker is asked for. */
  ghost function Asked(qt: QueueType, maps: Maps, ref: QueueRef): QueueAttrs
    requires ref.args.Some? ==> ref.args.value in maps
  {
    QueueAttrsOf(qt, Resolve(maps, ref))
  }

  /**
   Queue i is not durable, its map had no queue type when it was declared, and a durable queue
   declared after it uses the same map.
   */
  ghost predicate Spoiled(qt: QueueType, maps: Maps, refs: seq<QueueRef>, i: nat)
    requires Known(maps, refs) && i < |refs|
  {
    && !refs[i].config.durable && refs[i].args.Some?
    && var m := refs[i].args.value;
       && !("x-queue-type" in maps[m] && maps[m]["x-queue-type"] == QUORUM)
       && !SomeWrites(qt, refs[..i], m) && SomeWrites(qt, refs[i + 1..], m)
  }

  lemma WritesAround(qt: QueueType, refs: seq<QueueRef>, i: nat, m: nat)
    requires i < |refs|
    ensures SomeWrites(qt, refs, m) <==> SomeWrites(qt, refs[..i], m) || Writes(qt, refs[i], m) || SomeWrites(qt, refs[i + 1..], m)
  {
    if SomeWrites(qt, refs, m) {
      var k :| 0 <= k < |refs| && Writes(qt, refs[k], m);
      if k < i {
        assert refs[..i][k] == refs[k];
      } else if k > i {
        assert refs[i + 1..][k - i - 1] == refs[k];
      }
    }
    if SomeWrites(qt, refs[..i], m) {
      var k :| 0 <= k < i && Writes(qt, refs[..i][k], m);
      assert Writes(qt, refs[k], m);
    }
    if SomeWrites(qt, refs[i + 1..], m) {
      var k :| 0 <= k < |refs[i + 1..]| && Writes(qt, refs[i + 1..][k], m);
      assert Writes(qt, refs[i + 1 + k], m);
    }
  }

  /** A cached queue is replayed with the attributes it was declared with exactly if it is not spoiled. */
  lemma ReplayedAsDeclaredIff(qt: QueueType, maps: Maps, refs: seq<QueueRef>, i: nat)
    requires Known(maps, refs) && i < |refs|
    ensures Asked(qt, AfterAll(qt, maps, refs), refs[i]) == Asked(qt, AfterAll(qt, maps, refs[..i]), refs[i])
            <==> !Spoiled(qt, maps, refs, i)
  {
    if refs[i].args.Some? {
      var m := refs[i].args.value;
      MapAfter(qt, maps, refs, m);
      MapAfter(qt, maps, refs[..i], m);
      WritesAround(qt, refs, i, m);
      var plain, typed := maps[m], maps[m]["x-queue-type" := QUORUM];
      assert typed["x-queue-type" := QUORUM] == typed;
      assert plain == typed <==> "x-queue-type" in plain && plain["x-queue-type"] == QUORUM by {
        assert "x-queue-type" in typed && typed["x-queue-type"] == QUORUM;
      }
    }
  }

  /** A broker that still has the queue as it was declared refuses its replay exactly if it is spoiled. */
  lemma SpoiledIsRefused(qt: QueueType, maps: Maps, refs: seq<QueueRef>, i: nat, br: Broker)
    requires Known(maps, refs) && i < |refs|
    requires var q := Resolve(AfterAll(qt, maps, refs[..i]), refs[i]);
             q.name in br.queues && br.queues[q.name] == QueueAttrsOf(qt, q)
    ensures Accepts(qt, br, OfQueue(Resolve(AfterAll(qt, maps, refs), refs[i]))) <==> !Spoiled(qt, maps, refs, i)
  {
    ReplayedAsDeclaredIff(qt, maps, refs, i);
  }

  /** No two configurations refer to one map. */
  ghost predicate Unshared(refs: seq<QueueRef>) {
    forall i, j :: 0 <= i < j < |refs| && refs[i].args.Some? ==> refs[i].args != refs[j].args
  }

  /** Without sharing, the cache holds the values that the rest of the model works with. */
  lemma UnsharedIsCached(qt: QueueType, maps: Maps, refs: seq<QueueRef>, i: nat)
    requires Known(maps, refs) && Unshared(refs) && i < |refs|
    ensures Resolve(AfterAll(qt, maps, refs), refs[i]) == Cached(qt, Resolve(maps, refs[i])) && !Spoiled(qt, maps, refs, i)
  {
    if refs[i].args.Some? {
      MapAfter(qt, maps, refs, refs[i].args.value);
    }
  }
}
