/** The cache as the object that owns the arena, the regions and the entries, and changes them in place. */
module ExpertCaches {
  import opened Options
  import opened Bytes
  import opened RegionSpec
  import RegionsObject
  import opened CacheSpec
  import opened CacheSafety
  import opened CacheTheorems

  type RegionMap = map<int, RegionsObject.Regions>

  ghost predicate Unshared(rs: RegionMap) {
    forall l, m :: l in rs && m in rs && l != m ==> rs[l] != rs[m]
  }

  ghost function Views(rs: RegionMap): (v: map<int, Region>)
    reads rs.Values
    ensures v.Keys == rs.Keys
    ensures forall l :: l in rs ==> v[l] == rs[l].View()
  {
    map l | l in rs :: rs[l].View()
  }

  lemma AddRegion(rs: RegionMap, layer: int, region: RegionsObject.Regions, rest: map<int, Region>)
    requires layer !in rs && region !in rs.Values
    ensures rest[layer := region.View()] + Views(rs) == rest + Views(rs[layer := region])
  {
    var a, b := rest[layer := region.View()] + Views(rs), rest + Views(rs[layer := region]);
    assert a.Keys == b.Keys;
    assert forall l :: l in a ==> a[l] == b[l];
  }

  /** One region object per layer, in ascending layer order. */
  method BuildAll(qs: seq<Quota>) returns (rs: RegionMap)
    requires Ascending(qs)
    ensures Unshared(rs) && (forall l :: l in rs ==> fresh(rs[l])) && Views(rs) == BuildRegions(qs, 0)
  {
    hide BuildRegions, Unshared, Ascending;
    rs := map[];
    var base := 0;
    assert qs[0..] == qs;
    NoRegions(rs, BuildRegions(qs, 0));
    for i := 0 to |qs|
      invariant base % ALIGN == 0 && Unshared(rs) && forall l :: l in rs ==> fresh(rs[l])
      invariant forall l, j :: l in rs && i <= j < |qs| ==> l < qs[j].layer
      invariant BuildRegions(qs, 0) == BuildRegions(qs[i..], base) + Views(rs)
    {
      hide ValidRegion;
      var q := qs[i];
      LaterLayers(qs, i);
      NextRegion(qs, i, base);
      var region := new RegionsObject.Regions(q.size, base);
      JoinAligned(base, q.size);
      AddRegion(rs, q.layer, region, BuildRegions(qs[i + 1..], base + q.size));
      AddUnshared(rs, q.layer, region);
      rs := rs[q.layer := region];
      base := base + q.size;
    }
    NoQuotas(qs[|qs|..], base);
  }

  lemma NoRegions(rs: RegionMap, all: map<int, Region>)
    requires rs == map[]
    ensures Unshared(rs) && all == all + Views(rs)
  {
  }

  lemma NoQuotas(qs: seq<Quota>, base: int)
    requires qs == []
    ensures BuildRegions(qs, base) == map[]
  {
  }

  lemma LaterLayers(qs: seq<Quota>, i: nat)
    requires Ascending(qs) && i < |qs|
    ensures qs[i].size > 0 && qs[i].size % ALIGN == 0
    ensures forall j :: i < j < |qs| ==> qs[i].layer < qs[j].layer
  {
  }

  lemma NextRegion(qs: seq<Quota>, i: nat, base: int)
    requires i < |qs|
    ensures BuildRegions(qs[i..], base)
            == BuildRegions(qs[i + 1..], base + qs[i].size)[qs[i].layer := Fresh(base, qs[i].size)]
  {
    assert qs[i..][0] == qs[i] && qs[i..][1..] == qs[i + 1..];
  }

  lemma AddUnshared(rs: RegionMap, layer: int, region: RegionsObject.Regions)
    requires Unshared(rs) && region !in rs.Values
    ensures Unshared(rs[layer := region])
  {
  }

  /** What `lease` does before it counts its user. */
  ghost function Brought(c: Config, s: State, key: Key, guard: bool, fault: Fault, stream: int): (State, Outcome)
    requires key in c.records && key.layer in s.regions
  {
    if key in s.entries then (Hit(s.(clock := s.clock + 1), key), Leased)
    else Load(c, s.(clock := s.clock + 1, misses := s.misses + 1), key, guard, fault, stream)
  }

  lemma AcquireBrings(c: Config, s: State, key: Key, guard: bool, fault: Fault, id: nat, stream: int)
    requires !s.closed && key in c.records && key.layer in s.regions
    ensures var (t, o) := Brought(c, s, key, guard, fault, stream);
            && (o.Leased? ==> key in t.entries)
            && Acquire(c, s, key, false, guard, fault, id, stream)
               == if o.Leased? then (AddUser(t, key, id, stream), Leased) else (t, o)
  {
    AcquireIs(c, s, key, false, guard, fault, id, stream);
    if key !in s.entries {
      LoadFacts(c, s.(clock := s.clock + 1, misses := s.misses + 1), key, guard, fault, stream);
    }
    hide Acquire, Load, AddUser;
  }

  class ExpertCache {
    const config: Config
    var regions: RegionMap
    var order: seq<Key>
    var entries: map<Key, Entry>
    var arena: array?<Byte>
    var resident: int
    var generation: nat
    var clock: nat
    var misses: nat
    var hits: nat
    var evictions: nat
    var failures: nat
    var closed: bool
    var device: Device
    var leases: map<nat, Lease>

    /** The cache starts empty, with its regions side by side over the storage it is given. */
    constructor (c: Config, storage: array<Byte>)
      requires ValidConfig(c) && storage.Length == c.capacity
      ensures Valid() && config == c && arena == storage && (forall l :: l in regions ==> fresh(regions[l]))
      ensures View() == Start(c, storage[..])
    {
      StartKeeps(c, storage[..]);
      var rs := BuildAll(c.quotas);
      config, arena, regions := c, storage, rs;
      order, entries, leases := [], map[], map[];
      resident, generation, clock, misses, hits, evictions, failures, closed := 0, 0, 0, 0, 0, 0, 0, false;
      device := Device(map[], map[], {});
    }

    ghost function Bytes(): seq<Byte>
      reads this, arena
    {
      if arena == null then [] else arena[..]
    }

    ghost function View(): State
      reads this, arena, regions.Values
    {
      State(Views(regions), order, entries, Bytes(), resident, generation, clock, misses, hits, evictions, failures,
            closed, device, leases)
    }

    ghost predicate Valid()
      reads this, arena, regions.Values
    {
      Unshared(regions) && (closed <==> arena == null) && Inv(config, View())
    }

    /** One layer's region changed; the views of the others did not. */
    lemma RegionMoved(before: State, layer: int, r: Region)
      requires Unshared(regions) && layer in regions && regions.Keys == before.regions.Keys
      requires regions[layer].View() == r
      requires forall l :: l in regions && l != layer ==> regions[l].View() == before.regions[l]
      ensures Views(regions) == before.regions[layer := r]
    {
      var v, w := Views(regions), before.regions[layer := r];
      assert v.Keys == w.Keys;
      assert forall l :: l in v ==> v[l] == w[l];
    }

    lemma Parts()
      requires Valid()
      ensures regions.Keys == View().regions.Keys
      ensures forall l :: l in regions ==> ValidRegion(regions[l].View())
      ensures forall k :: k in config.records ==> k.layer in regions && |config.records[k]| > 0
      ensures forall k :: k in entries && entries[k].users == 0 ==> Evictable(View(), k)
      ensures forall k :: k in order <==> k in entries
      ensures closed ==> entries == map[]
    {
      forall k | k in entries && entries[k].users == 0 ensures Evictable(View(), k) {
        assert EntryOk(config, Views(regions), k, entries[k]);
      }
    }

    /** `for event in entry.events: event.synchronize()`. */
    method AwaitAll(events: seq<Event>)
      modifies this`device
      ensures device == SynchronizeAll(old(device), events)
    {
      for i := 0 to |events|
        invariant SynchronizeAll(device, events[i..]) == SynchronizeAll(old(device), events)
      {
        assert events[i..][1..] == events[i + 1..];
        device := Synchronize(device, events[i]);
      }
      assert events[|events|..] == [];
    }

    /** A block goes back to its region; nothing else of the cache or of the other regions moves. */
    method GiveBack(layer: int, offset: int)
      requires Unshared(regions) && layer in regions
      requires ValidRegion(regions[layer].View()) && offset in regions[layer].used
      modifies regions[layer]
      ensures Views(regions) == old(Views(regions))[layer := Release(old(regions[layer].View()), offset)]
    {
      hide ValidRegion, Release;
      ghost var before := View();
      var r := regions[layer].Release(offset);
      RegionMoved(before, layer, Release(before.regions[layer], offset));
    }

    /** The dictionary and the counters forget an entry. */
    method Forget(key: Key, size: int)
      modifies this`resident, this`entries, this`order, this`evictions
      ensures resident == old(resident) - size && entries == old(entries) - {key} && order == Remove(old(order), key)
      ensures evictions == old(evictions) + 1
    {
      resident, entries, order, evictions := resident - size, entries - {key}, Remove(order, key), evictions + 1;
    }

    method Drop(key: Key)
      requires Unshared(regions) && key in entries && key.layer in regions
      requires ValidRegion(regions[key.layer].View()) && entries[key].offset in regions[key.layer].used
      modifies this`resident, this`entries, this`order, this`evictions, regions[key.layer]
      ensures View() == DropEntry(old(View()), key)
    {
      hide ValidRegion, Release, Remove, Views;
      var e := entries[key];
      GiveBack(key.layer, e.offset);
      Forget(key, e.size);
    }

    /** `_evict`: wait for the entry's events, then take its block back. */
    method Evict(key: Key) returns (ok: bool)
      requires Valid() && key in entries
      modifies this, regions.Values
      ensures regions == old(regions) && arena == old(arena) && Valid()
      ensures ok <==> old(entries[key].users == 0)
      ensures ok ==> View() == CacheSpec.Evict(old(View()), key)
      ensures !ok ==> View() == old(View())
    {
      hide Inv, ValidRegion, DropEntry;
      if entries[key].users != 0 { return false; }
      ghost var before := View();
      EvictKeeps(config, before, key);
      Parts();
      AwaitAll(entries[key].events);
      assert View() == AwaitEvents(before, key);
      Drop(key);
      ok := true;
    }

    /** The oldest unleased entry of a layer, as an index into the dictionary order. */
    method OldestCandidate(layer: int) returns (i: nat)
      requires Valid()
      ensures i <= |order|
      ensures i < |order| ==> Candidates(View(), layer, order) != [] && Candidates(View(), layer, order)[0] == order[i]
      ensures i == |order| ==> Candidates(View(), layer, order) == []
    {
      Parts();
      hide Inv;
      ghost var s := View();
      i := 0;
      while i < |order| && !(order[i].layer == layer && entries[order[i]].users == 0)
        invariant i <= |order| && Candidates(s, layer, order[i..]) == Candidates(s, layer, order)
      {
        assert order[i] in order && order[i..][1..] == order[i + 1..];
        i := i + 1;
      }
      if i < |order| { assert order[i] in order; } else { assert order[i..] == []; }
    }

    /** `region.allocate(record['bytes'])` */
    method TryAllocate(layer: int, n: int) returns (offset: Option<int>)
      requires Valid() && layer in regions && n > 0
      modifies regions.Values
      ensures layer in old(View()).regions && offset == Allocate(old(View()).regions[layer], n).1
      ensures View() == CacheSpec.Reserve(old(View()), layer, n)
      ensures offset.None? ==> View() == old(View())
    {
      hide Inv, ValidRegion, Allocate;
      ghost var before := View();
      Parts();
      var r := regions[layer].Allocate(n);
      RegionMoved(before, layer, regions[layer].View());
      offset := r.value;
      NothingMoved(before, layer, n);
    }

    /** One victim of the loop: the oldest candidate, if there is one. */
    method EvictOldest(layer: int) returns (found: bool)
      requires Valid()
      modifies this, regions.Values
      ensures regions == old(regions) && arena == old(arena) && Valid()
      ensures found <==> Candidates(old(View()), layer, old(order)) != []
      ensures !found ==> View() == old(View())
      ensures found ==> var key := Candidates(old(View()), layer, old(order))[0];
                        key in old(entries) && CacheSpec.Evictable(old(View()), key)
                          && View() == CacheSpec.Evict(old(View()), key)
    {
      Parts();
      hide Inv, CacheSpec.Evict, Candidates, Evictable;
      var i := OldestCandidate(layer);
      if i == |order| { return false; }
      CandidateFacts(View(), layer, i);
      found := Evict(order[i]);
    }

    lemma CandidateFacts(s: State, layer: int, i: nat)
      requires i < |s.order| && Candidates(s, layer, s.order) != [] && Candidates(s, layer, s.order)[0] == s.order[i]
      ensures s.order[i] in s.order
      ensures s.order[i] in s.entries && s.entries[s.order[i]].users == 0
    {
      assert s.order[i] in Candidates(s, layer, s.order);
    }

    /** The head of `_load`: allocate, and evict the oldest unleased entry of the layer while that fails. */
    method Reserve(layer: int, n: int) returns (offset: Option<int>)
      requires Valid() && layer in regions && n > 0
      modifies this, regions.Values
      ensures regions == old(regions) && arena == old(arena) && Unshared(regions) && (closed <==> arena == null)
      ensures var roomy := CacheSpec.MakeRoom(old(View()), layer, n);
              && Inv(config, roomy) && layer in roomy.regions && offset == Allocate(roomy.regions[layer], n).1
              && View() == CacheSpec.Reserve(roomy, layer, n)
      ensures offset.None? ==> View() == CacheSpec.MakeRoom(old(View()), layer, n) && Valid()
    {
      hide Inv, ValidRegion, Allocate, CacheSpec.Evict, MakeRoom, Candidates, Evictable;
      ghost var start := View();
      MakeRoomKeeps(config, start, layer, n);
      ghost var before := View();
      offset := TryAllocate(layer, n);
      while offset.None?
        invariant regions == old(regions) && arena == old(arena) && Unshared(regions) && (closed <==> arena == null)
        invariant layer in before.regions && Inv(config, before) && offset == Allocate(before.regions[layer], n).1
        invariant View() == CacheSpec.Reserve(before, layer, n)
        invariant offset.None? ==> View() == before
        invariant MakeRoom(before, layer, n) == MakeRoom(start, layer, n)
        decreases |before.order|, if offset.None? then 1 else 0
      {
        Turn(before, layer, n);
        var found := EvictOldest(layer);
        if !found { break; }
        before := View();
        offset := TryAllocate(layer, n);
      }
      if offset.Some? { Enough(before, layer, n); }
    }

    /** One turn of the loop against the recursive specification. */
    lemma Turn(s: State, layer: int, n: int)
      requires Inv(config, s) && layer in s.regions && Allocate(s.regions[layer], n).1.None?
      ensures var cs := Candidates(s, layer, s.order);
              && (cs == [] ==> MakeRoom(s, layer, n) == s)
              && (cs != [] ==>
                    && cs[0] in s.entries && s.entries[cs[0]].users == 0 && CacheSpec.Evictable(s, cs[0])
                    && MakeRoom(s, layer, n) == MakeRoom(CacheSpec.Evict(s, cs[0]), layer, n)
                    && layer in CacheSpec.Evict(s, cs[0]).regions && |CacheSpec.Evict(s, cs[0]).order| < |s.order|)
    {
      if Candidates(s, layer, s.order) != [] { EvictionTurn(config, s, layer, n); }
    }

    /** When the record fits there is nothing to evict. */
    lemma Enough(s: State, layer: int, n: int)
      requires layer in s.regions && Allocate(s.regions[layer], n).1.Some?
      ensures MakeRoom(s, layer, n) == s
    {}

    /** A failed allocation changes nothing. */
    lemma NothingMoved(s: State, layer: int, n: int)
      requires layer in s.regions
      ensures Allocate(s.regions[layer], n).1.None? ==> CacheSpec.Reserve(s, layer, n) == s
    {}

    /** The copy of the record into its block, and the wait for it. */
    method Copy(offset: int, data: seq<Byte>, stream: int)
      requires arena != null && 0 <= offset && offset + |data| <= arena.Length
      modifies this`device, arena
      ensures View() == old(View()).(arena := Write(old(View()).arena, offset, data),
                                     device := DrainStream(old(device), stream))
    {
      ghost var before := View();
      forall i | 0 <= i < |data| { arena[offset + i] := data[i]; }
      assert arena[..] == before.arena[..offset] + data + before.arena[offset + |data|..];
      device := DrainStream(device, stream);
    }

    method Publish(key: Key, offset: int, n: nat)
      modifies this`generation, this`resident, this`order, this`entries
      ensures View() == old(View()).(generation := old(generation) + 1, resident := old(resident) + n,
                                     order := old(order) + [key],
                                     entries := old(entries)[key := Entry(offset, n, generation, 0, [], clock)])
    {
      generation, resident, order := generation + 1, resident + n, order + [key];
      entries := entries[key := Entry(offset, n, generation, 0, [], clock)];
    }

    /** The copy attempt of `_load`, as far as the fault lets it get. */
    method Transfer(offset: int, data: seq<Byte>, fault: Fault, stream: int)
      requires arena != null && 0 <= offset && offset + |data| <= arena.Length
      modifies this`device, arena
      ensures var before := old(View());
              View() == before.(arena := Write(before.arena, offset, Arrived(fault, data)),
                                device := DrainStream(before.device, stream))
    {
      hide Write, DrainStream;
      Copy(offset, Arrived(fault, data), stream);
    }

    /** The rest of `_load` once its block is allocated: copy and publish; on a failure the block goes back. */
    method FillBlock(key: Key, offset: int, fault: Fault, stream: int) returns (o: Outcome)
      requires Unshared(regions) && key in config.records && key.layer in regions && arena != null
      requires ValidRegion(regions[key.layer].View()) && offset in regions[key.layer].used
      requires 0 <= offset && offset + |config.records[key]| <= arena.Length
      modifies this`device, this`failures, this`generation, this`resident, this`order, this`entries, arena,
               regions[key.layer]
      ensures (View(), o) == Fill(config, old(View()), key, offset, fault, stream)
    {
      hide ValidRegion, Release, Write, DrainStream, Unshared, Views;
      var data := config.records[key];
      Transfer(offset, data, fault, stream);
      if !fault.NoFault? {
        GiveBack(key.layer, offset);
        failures := failures + 1;
        return LoadFailed;
      }
      Publish(key, offset, |data|);
      o := Leased;
    }

    /** `_load`. */
    method Load(key: Key, guard: bool, fault: Fault, stream: int) returns (o: Outcome)
      requires Valid() && !closed && key in config.records && key !in entries && key.layer in regions
      requires forall k :: k in entries ==> entries[k].lastUse < clock
      modifies this, arena, regions.Values
      ensures regions == old(regions) && arena == old(arena) && Valid()
      ensures (View(), o) == CacheSpec.Load(config, old(View()), key, guard, fault, stream)
    {
      hide Inv, ValidRegion, Allocate, MakeRoom, Release, Fill, CacheSpec.Reserve;
      ghost var start := View();
      LoadKeeps(config, start, key, guard, fault, stream);
      if !guard { return GuardFailed; }
      Parts();
      var n := |config.records[key]|;
      ghost var roomy := MakeRoom(start, key.layer, n);
      MakeRoomShrinks(start, key.layer, n);
      var offset := Reserve(key.layer, n);
      if offset.None? { return Busy; }
      o := LoadReserved(key, offset.value, fault, stream, roomy);
    }

    /** The block is reserved: fill it. */
    method LoadReserved(key: Key, offset: int, fault: Fault, stream: int, ghost roomy: State) returns (o: Outcome)
      requires Unshared(regions) && arena != null && key in config.records && key.layer in regions
      requires Inv(config, roomy) && !roomy.closed && key.layer in roomy.regions
      requires Allocate(roomy.regions[key.layer], |config.records[key]|).1 == Some(offset)
      requires View() == CacheSpec.Reserve(roomy, key.layer, |config.records[key]|)
      modifies this, arena, regions.Values
      ensures regions == old(regions) && arena == old(arena) && closed == old(closed)
      ensures offset in CacheSpec.Reserve(roomy, key.layer, |config.records[key]|).regions[key.layer].used
      ensures (View(), o)
              == Fill(config, CacheSpec.Reserve(roomy, key.layer, |config.records[key]|), key, offset, fault, stream)
    {
      hide Inv, ValidRegion, Allocate, Release, Fill;
      RoomFacts(roomy, key);
      o := FillBlock(key, offset, fault, stream);
    }

    lemma RoomFacts(s: State, key: Key)
      requires Inv(config, s) && !s.closed && key in config.records && key.layer in s.regions
      requires Allocate(s.regions[key.layer], |config.records[key]|).1.Some?
      ensures var n := |config.records[key]|;
              var (r, o) := Allocate(s.regions[key.layer], n);
              && 0 <= o.value && o.value + n <= |s.arena| && ValidRegion(r) && o.value in r.used
              && CacheSpec.Reserve(s, key.layer, n) == s.(regions := s.regions[key.layer := r])
    {
      ReserveFacts(config, s, key);
    }

    method UseAgain(key: Key)
      requires key in entries
      modifies this`hits, this`entries, this`order
      ensures View() == Hit(old(View()), key)
    {
      hide Pending, Remove;
      hits := hits + 1;
      entries := entries[key := entries[key].(events := Pending(device, entries[key].events), lastUse := clock)];
      order := Remove(order, key) + [key];
    }

    method CountUser(key: Key, id: nat, stream: int)
      requires key in entries
      modifies this`entries, this`leases
      ensures View() == AddUser(old(View()), key, id, stream)
    {
      entries := entries[key := entries[key].(users := entries[key].users + 1)];
      leases := leases[id := CacheSpec.Lease(key, stream)];
    }

    /** The miss path of `lease`. */
    method LoadMissing(key: Key, guard: bool, fault: Fault, stream: int) returns (o: Outcome)
      requires Valid() && !closed && key in config.records && key !in entries && key.layer in regions
      modifies this, arena, regions.Values
      ensures regions == old(regions) && arena == old(arena) && Valid()
      ensures (View(), o)
              == CacheSpec.Load(config, old(View()).(clock := old(clock) + 1, misses := old(misses) + 1), key, guard,
                                fault, stream)
      ensures o.Leased? ==> key in entries
    {
      hide Inv, CacheSpec.Load;
      ghost var start := View();
      clock, misses := clock + 1, misses + 1;
      Ticked(start, View());
      LoadFacts(config, View(), key, guard, fault, stream);
      o := Load(key, guard, fault, stream);
    }

    /** `lease` past its checks: a hit, or a load, and one more user. */
    method Join(key: Key, guard: bool, fault: Fault, id: nat, stream: int) returns (o: Outcome)
      requires Valid() && !closed && key in config.records && key.layer in regions
      modifies this, arena, regions.Values
      ensures regions == old(regions) && arena == old(arena) && Unshared(regions) && !closed
      ensures (View(), o) == Acquire(config, old(View()), key, false, guard, fault, id, stream)
    {
      hide Inv, ValidRegion, Acquire, Brought, AddUser, Unshared, Views;
      AcquireBrings(config, View(), key, guard, fault, id, stream);
      o := Bring(key, guard, fault, stream);
      if o == Leased { CountUser(key, id, stream); }
    }

    /** The entry of `key`, found or loaded, is the youngest. */
    method Bring(key: Key, guard: bool, fault: Fault, stream: int) returns (o: Outcome)
      requires Valid() && !closed && key in config.records && key.layer in regions
      modifies this, arena, regions.Values
      ensures regions == old(regions) && arena == old(arena) && Unshared(regions) && !closed
      ensures (View(), o) == Brought(config, old(View()), key, guard, fault, stream) && (o.Leased? ==> key in entries)
    {
      hide Inv, ValidRegion, CacheSpec.Load, Hit, Unshared, Views;
      if key in entries {
        HitAgain(key);
        o := Leased;
      } else {
        o := LoadMissing(key, guard, fault, stream);
      }
    }

    method HitAgain(key: Key)
      requires Valid() && key in entries
      modifies this`clock, this`entries, this`order, this`hits
      ensures View() == Hit(old(View()).(clock := old(clock) + 1), key) && key in entries
    {
      hide Inv, ValidRegion, Hit;
      ghost var start := View();
      clock := clock + 1;
      UseAgain(key);
      HitKeepsKey(start.(clock := start.clock + 1), key);
    }

    /** Enter `lease`. */
    method Lease(key: Key, cancelled: bool, guard: bool, fault: Fault, id: nat, stream: int) returns (o: Outcome)
      requires Valid() && id !in leases
      modifies this, arena, regions.Values
      ensures regions == old(regions) && arena == old(arena) && Valid()
      ensures (View(), o) == Acquire(config, old(View()), key, cancelled, guard, fault, id, stream)
    {
      ghost var start := View();
      AcquireKeeps(config, start, key, cancelled, guard, fault, id, stream);
      Refused(start, key, cancelled, guard, fault, id, stream);
      Parts();
      hide Inv, Acquire;
      if closed { return Closed; }
      if key !in config.records { return Unknown; }
      if cancelled { return Cancelled; }
      o := Join(key, guard, fault, id, stream);
    }

    /** The checks that refuse a lease leave the cache alone. */
    lemma Refused(s: State, key: Key, cancelled: bool, guard: bool, fault: Fault, id: nat, stream: int)
      ensures s.closed ==> Acquire(config, s, key, cancelled, guard, fault, id, stream) == (s, Closed)
      ensures !s.closed && key !in config.records ==>
                Acquire(config, s, key, cancelled, guard, fault, id, stream) == (s, Unknown)
      ensures !s.closed && key in config.records && cancelled ==>
                Acquire(config, s, key, cancelled, guard, fault, id, stream) == (s, Cancelled)
    {}

    lemma HitKeepsKey(s: State, key: Key)
      ensures key in s.entries ==> key in Hit(s, key).entries
    {}

    lemma Ticked(s: State, now: State)
      requires Inv(config, s) && now == s.(clock := s.clock + 1, misses := s.misses + 1)
      ensures Inv(config, now) && forall k :: k in now.entries ==> now.entries[k].lastUse < now.clock
    {}

    lemma LeaveIs(s: State, id: nat)
      requires Inv(config, s) && id in s.leases
      ensures var l := s.leases[id];
              && l.key in s.entries && s.entries[l.key].users > 0
              && var e := s.entries[l.key];
                 CacheSpec.Leave(s, id) ==
                 var at := At(s.device.issued, l.stream);
                 var left := e.(events := e.events + [Event(l.stream, at)], users := e.users - 1);
                 s.(entries := s.entries[l.key := left], leases := s.leases - {id})
    {
      LeaseHasUser(s.entries, s.leases, id);
    }

    /** Leave `lease`: record on the captured stream, then give the use up. */
    method Leave(id: nat)
      requires Valid() && id in leases
      modifies this
      ensures regions == old(regions) && arena == old(arena) && Valid() && View() == CacheSpec.Leave(old(View()), id)
    {
      hide Inv, CacheSpec.Leave;
      ghost var start := View();
      LeaveKeeps(config, start, id);
      LeaveIs(start, id);
      var l := leases[id];
      var e := entries[l.key];
      var event := Event(l.stream, At(device.issued, l.stream));
      entries := entries[l.key := e.(events := e.events + [event], users := e.users - 1)];
      leases := leases - {id};
    }

    /** `clear`. */
    method Clear() returns (ok: bool)
      requires Valid()
      modifies this, regions.Values
      ensures regions == old(regions) && arena == old(arena) && Valid()
      ensures View() == CacheSpec.Clear(old(View()))
      ensures ok <==> old(forall k :: k in entries ==> entries[k].users == 0)
      ensures ok ==> entries == map[]
    {
      hide Inv, CacheSpec.Evict, EvictAll;
      ghost var start := View();
      ClearKeeps(config, start);
      if exists k :: k in entries && entries[k].users > 0 { return false; }
      var keys := order;
      EvictAllAtStart(start, keys);
      for i := 0 to |keys|
        invariant regions == old(regions) && arena == old(arena) && Valid()
        invariant EvictAll(View(), keys[i..]) == EvictAll(start, keys)
        invariant forall k :: k in entries ==> entries[k].users == 0
      {
        assert keys[i..][1..] == keys[i + 1..] && keys[i..][0] == keys[i];
        Parts();
        EvictAllTurn(View(), keys[i..]);
        if keys[i] in entries {
          EvictFacts(View(), keys[i]);
          var done := Evict(keys[i]);
          assert done;
        }
      }
      assert keys[|keys|..] == [];
      EvictAllEnd(View());
      ok := true;
    }

    lemma EvictAllAtStart(s: State, keys: seq<Key>)
      ensures keys[0..] == keys
    {}

    lemma EvictAllTurn(s: State, keys: seq<Key>)
      requires keys != []
      ensures CacheSpec.Evictable(s, keys[0]) ==> EvictAll(s, keys) == EvictAll(CacheSpec.Evict(s, keys[0]), keys[1..])
      ensures keys[0] !in s.entries ==> EvictAll(s, keys) == EvictAll(s, keys[1..])
    {}

    lemma EvictAllEnd(s: State)
      ensures EvictAll(s, []) == s
    {}

    lemma CloseIs(s: State)
      ensures CacheSpec.Clear(s).entries != map[] ==> CacheSpec.Close(s) == s
      ensures CacheSpec.Clear(s).entries == map[] ==>
                CacheSpec.Close(s) == CacheSpec.Clear(s).(closed := true, arena := [])
      ensures (exists k :: k in s.entries && s.entries[k].users > 0) ==> CacheSpec.Clear(s) == s
    {
    }

    /** `close`: clear, then drop the arena. */
    method Close() returns (ok: bool)
      requires Valid()
      modifies this, regions.Values
      ensures regions == old(regions) && Valid() && View() == CacheSpec.Close(old(View()))
      ensures ok <==> old(forall k :: k in entries ==> entries[k].users == 0)
      ensures ok ==> closed && entries == map[]
    {
      hide Inv, CacheSpec.Clear, CacheSpec.Close;
      CloseIs(View());
      ClearKeeps(config, View());
      ok := Clear();
      if !ok { return; }
      arena := null;
      closed := true;
    }
  }
}
