/** The cache invariant, and that every operation keeps it. */
module CacheSafety {
  import opened Bytes
  import opened RegionSpec
  import opened Sequences
  import opened Sums
  import opened CacheSpec

  /******* The invariant *******/

  type Regions = map<int, Region>
  type Entries = map<Key, Entry>
  type Leases = map<nat, Lease>

  /** The layer regions lie in the arena side by side, and every record fits the region of its layer. */
  ghost predicate Layout(c: Config, rs: Regions) {
    && (forall l :: l in rs ==> ValidRegion(rs[l]) && 0 <= rs[l].base && rs[l].base + rs[l].size <= c.capacity)
    && (forall l, m :: l in rs && m in rs && l < m ==> rs[l].base + rs[l].size <= rs[m].base)
    && (forall k :: k in c.records ==>
          k.layer in rs && 0 < |c.records[k]| <= rs[k.layer].size && |c.records[k]| % ALIGN == 0)
  }

  ghost predicate EntryOk(c: Config, rs: Regions, k: Key, e: Entry) {
    && k in c.records && e.size == |c.records[k]| && k.layer in rs
    && e.offset in rs[k.layer].used && rs[k.layer].used[e.offset] == e.size
  }

  ghost predicate Owner(es: Entries, l: int, o: int, k: Key) {
    k in es && k.layer == l && es[k].offset == o
  }

  /** Entries and allocated blocks correspond one to one. */
  ghost predicate Owns(c: Config, rs: Regions, es: Entries) {
    && (forall k :: k in es ==> EntryOk(c, rs, k, es[k]))
    && (forall k, q :: k in es && q in es && k.layer == q.layer && es[k].offset == es[q].offset ==> k == q)
    && (forall l, o :: l in rs && o in rs[l].used ==> exists k :: Owner(es, l, o, k))
  }

  function RecordSize(c: Config): Key -> int { k => if k in c.records then |c.records[k]| else 0 }

  ghost predicate Ages(es: Entries, order: seq<Key>) {
    && (forall i :: 0 <= i < |order| ==> order[i] in es)
    && (forall i, j :: 0 <= i < j < |order| ==> es[order[i]].lastUse < es[order[j]].lastUse)
  }

  /** The dictionary order lists every entry once, oldest use first. */
  ghost predicate OrderOk(c: Config, es: Entries, order: seq<Key>, resident: int) {
    && Distinct(order) && (forall k :: k in order <==> k in es) && Ages(es, order)
    && resident == SumOf(order, RecordSize(c))
  }

  ghost predicate UsedBy(es: Entries, clock: int) {
    forall k :: k in es ==> es[k].lastUse <= clock
  }

  ghost predicate Holds(c: Config, arena: seq<Byte>, k: Key, e: Entry) {
    && k in c.records && 0 <= e.offset && e.offset + |c.records[k]| <= |arena|
    && arena[e.offset..e.offset + |c.records[k]|] == c.records[k]
  }

  /** Every resident expert's arena bytes are its record. */
  ghost predicate DataOk(c: Config, arena: seq<Byte>, es: Entries) {
    forall k :: k in es ==> Holds(c, arena, k, es[k])
  }

  function LeasesOf(ls: Leases, k: Key): set<nat> { set id | id in ls && ls[id].key == k }

  ghost predicate UsersOk(es: Entries, ls: Leases) {
    && (forall k :: k in es ==> es[k].users == |LeasesOf(ls, k)|)
    && (forall id :: id in ls ==> ls[id].key in es)
  }

  ghost predicate HeldBy(ls: Leases, k: Kernel) {
    exists id :: id in ls && ls[id] == Lease(k.key, k.stream)
  }

  ghost predicate Guarded(e: Entry, k: Kernel) {
    exists v :: v in e.events && v.stream == k.stream && v.at >= k.at
  }

  /** An unfinished kernel reads a resident expert that is still leased on its stream, or has a later event on it. */
  ghost predicate KernelOk(d: Device, es: Entries, ls: Leases, k: Kernel) {
    Finished(d, k) || (k.key in es && (HeldBy(ls, k) || Guarded(es[k.key], k)))
  }

  ghost predicate KernelsOk(d: Device, es: Entries, ls: Leases) {
    forall k :: k in d.kernels ==> k.at <= At(d.issued, k.stream) && KernelOk(d, es, ls, k)
  }

  ghost predicate ClockOk(d: Device) {
    forall x: int :: At(d.finished, x) <= At(d.issued, x)
  }

  ghost predicate EventsOk(d: Device, es: Entries) {
    forall k, v :: k in es && v in es[k].events ==> v.at <= At(d.issued, v.stream)
  }

  ghost predicate DeviceOk(d: Device, es: Entries, ls: Leases) {
    KernelsOk(d, es, ls) && ClockOk(d) && EventsOk(d, es)
  }

  ghost predicate Inv(c: Config, s: State) {
    && Layout(c, s.regions) && Owns(c, s.regions, s.entries) && OrderOk(c, s.entries, s.order, s.resident)
    && UsedBy(s.entries, s.clock) && DataOk(c, s.arena, s.entries)
    && (if s.closed then s.entries == map[] else |s.arena| == c.capacity)
    && UsersOk(s.entries, s.leases) && DeviceOk(s.device, s.entries, s.leases)
  }

  /******* Extents *******/

  lemma EntryExtent(c: Config, rs: Regions, es: Entries, k: Key)
    requires Layout(c, rs) && Owns(c, rs, es) && k in es
    ensures k.layer in rs && es[k].size > 0
    ensures 0 <= rs[k.layer].base <= es[k].offset
            && es[k].offset + es[k].size <= rs[k.layer].base + rs[k.layer].size <= c.capacity
  {
    assert EntryOk(c, rs, k, es[k]);
    assert BlockOk(rs[k.layer], Block(es[k].offset, rs[k.layer].used[es[k].offset]));
  }

  /** Two resident experts never share an arena byte. */
  lemma ExtentsDisjoint(c: Config, rs: Regions, es: Entries, k: Key, q: Key)
    requires Layout(c, rs) && Owns(c, rs, es) && k in es && q in es && k != q
    ensures es[k].offset + es[k].size <= es[q].offset || es[q].offset + es[q].size <= es[k].offset
  {
    EntryExtent(c, rs, es, k);
    EntryExtent(c, rs, es, q);
    assert EntryOk(c, rs, k, es[k]) && EntryOk(c, rs, q, es[q]);
  }

  /** A block that is free in its layer's region meets no resident expert. */
  lemma FreeBlockDisjoint(c: Config, rs: Regions, es: Entries, l: int, o: int, n: int, k: Key)
    requires Layout(c, rs) && Owns(c, rs, es) && k in es && l in rs && n > 0
    requires BlockOk(rs[l], Block(o, n)) && forall x :: o <= x < o + n ==> !InUse(rs[l].used, x)
    ensures es[k].offset + es[k].size <= o || o + n <= es[k].offset
  {
    var e := es[k];
    EntryExtent(c, rs, es, k);
    assert EntryOk(c, rs, k, e);
    if k.layer == l && e.offset < o + n && o < e.offset + e.size {
      var x := if e.offset <= o then o else e.offset;
      assert InUse(rs[l].used, x);
    }
  }

  /******* The device *******/

  lemma {:induction false} SynchronizeWaits(d: Device, vs: seq<Event>)
    requires (forall v :: v in vs ==> v.at <= At(d.issued, v.stream)) && ClockOk(d)
    ensures var d' := SynchronizeAll(d, vs);
            && d'.issued == d.issued && d'.kernels == d.kernels && ClockOk(d')
            && (forall v :: v in vs ==> EventDone(d', v))
            && (forall x: int :: At(d.finished, x) <= At(d'.finished, x))
    decreases |vs|
  {
    if vs != [] {
      assert vs[0] in vs;
      var d1 := Synchronize(d, vs[0]);
      SynchronizeWaits(d1, vs[1..]);
      assert EventDone(d1, vs[0]);
      assert forall v :: v in vs <==> v == vs[0] || v in vs[1..];
    }
  }

  /** More finished work, and nothing else: the device part of the invariant stays. */
  lemma DeviceAdvances(d: Device, d': Device, es: Entries, ls: Leases)
    requires DeviceOk(d, es, ls) && d'.issued == d.issued && d'.kernels == d.kernels && ClockOk(d')
    requires forall x: int :: At(d.finished, x) <= At(d'.finished, x)
    ensures DeviceOk(d', es, ls)
  {
    forall k | k in d.kernels ensures KernelOk(d', es, ls, k) {
      assert KernelOk(d, es, ls, k);
    }
  }

  lemma AwaitKeeps(c: Config, s: State, key: Key)
    requires Inv(c, s) && key in s.entries
    ensures Inv(c, AwaitEvents(s, key))
  {
    SynchronizeWaits(s.device, s.entries[key].events);
    DeviceAdvances(s.device, SynchronizeAll(s.device, s.entries[key].events), s.entries, s.leases);
  }

  /**
   Before an eviction takes anything back, every kernel that reads the expert has finished, whichever streams its
   leases used and whichever events earlier hits dropped.
   */
  lemma EvictionWaitsForItsKernels(c: Config, s: State, key: Key, k: Kernel)
    requires Inv(c, s) && key in s.entries && s.entries[key].users == 0
    requires k in s.device.kernels && k.key == key
    ensures Finished(AwaitEvents(s, key).device, k)
  {
    hide Layout, Owns, OrderOk, DataOk;
    SynchronizeWaits(s.device, s.entries[key].events);
    assert KernelOk(s.device, s.entries, s.leases, k);
    if !Finished(s.device, k) {
      NoLease(s.entries, s.leases, key);
      var v :| v in s.entries[key].events && v.stream == k.stream && v.at >= k.at;
      assert EventDone(AwaitEvents(s, key).device, v);
    }
  }

  lemma NoLease(es: Entries, ls: Leases, key: Key)
    requires UsersOk(es, ls) && key in es && es[key].users == 0
    ensures forall id :: id in ls ==> ls[id].key != key
  {
    assert LeasesOf(ls, key) == {};
    assert forall id :: id in ls && ls[id].key == key ==> id in LeasesOf(ls, key);
  }

  /******* Eviction *******/

  lemma {:induction false} RemoveKeeps(c: Config, order: seq<Key>, key: Key)
    requires Distinct(order)
    ensures Distinct(Remove(order, key))
    ensures SumOf(Remove(order, key), RecordSize(c))
            == SumOf(order, RecordSize(c)) - (if key in order then RecordSize(c)(key) else 0)
  {
    if order != [] {
      var rest := order[1..];
      assert Distinct(rest) && order[0] !in rest;
      RemoveKeeps(c, rest, key);
      assert key in order <==> key == order[0] || key in rest;
      var r := Remove(rest, key);
      if order[0] != key {
        assert Remove(order, key) == [order[0]] + r;
        assert ([order[0]] + r)[1..] == r;
        assert order[0] !in r;
      }
    }
  }

  /** Removing keeps the relative order of the rest. */
  lemma {:induction false} RemoveAges(es: Entries, order: seq<Key>, key: Key)
    requires Ages(es, order)
    ensures Ages(es, Remove(order, key))
  {
    if order != [] {
      assert Ages(es, order[1..]);
      RemoveAges(es, order[1..], key);
      var rest := Remove(order[1..], key);
      forall j | 0 <= j < |rest| ensures es[order[0]].lastUse < es[rest[j]].lastUse {
        assert rest[j] in rest;
        var i :| 0 <= i < |order[1..]| && order[1..][i] == rest[j];
        assert order[i + 1] == rest[j];
      }
    }
  }

  lemma DropLayout(c: Config, rs: Regions, es: Entries, key: Key)
    requires Layout(c, rs) && Owns(c, rs, es) && key in es
    ensures EntryOk(c, rs, key, es[key])
    ensures Layout(c, rs[key.layer := Release(rs[key.layer], es[key].offset)])
  {
    hide ValidRegion;
    assert EntryOk(c, rs, key, es[key]);
    ReleaseKeepsValid(rs[key.layer], es[key].offset);
  }

  lemma DropOwns(c: Config, rs: Regions, es: Entries, key: Key, rs': Regions)
    requires Owns(c, rs, es) && key in es && EntryOk(c, rs, key, es[key])
    requires rs' == rs[key.layer := Release(rs[key.layer], es[key].offset)]
    ensures Owns(c, rs', es - {key})
  {
    var es' := es - {key};
    forall k | k in es' ensures EntryOk(c, rs', k, es'[k]) {
      assert EntryOk(c, rs, k, es[k]);
    }
    forall l, o | l in rs' && o in rs'[l].used ensures exists k :: Owner(es', l, o, k) {
      assert o in rs[l].used;
      var k :| Owner(es, l, o, k);
      assert Owner(es', l, o, k);
    }
  }

  lemma DropOrder(c: Config, es: Entries, order: seq<Key>, resident: int, key: Key)
    requires OrderOk(c, es, order, resident) && key in es && key in c.records
    ensures OrderOk(c, es - {key}, Remove(order, key), resident - |c.records[key]|)
  {
    RemoveKeeps(c, order, key);
    RemoveAges(es, order, key);
    var r := Remove(order, key);
    assert forall i :: 0 <= i < |r| ==> r[i] in r;
  }

  lemma DropDevice(d: Device, es: Entries, ls: Leases, key: Key)
    requires DeviceOk(d, es, ls) && UsersOk(es, ls) && key in es && es[key].users == 0
    requires forall k :: k in d.kernels && k.key == key ==> Finished(d, k)
    ensures DeviceOk(d, es - {key}, ls) && UsersOk(es - {key}, ls)
  {
    forall k | k in d.kernels ensures KernelOk(d, es - {key}, ls, k) {
      assert KernelOk(d, es, ls, k);
    }
    NoLease(es, ls, key);
  }

  lemma EvictKeeps(c: Config, s: State, key: Key)
    requires Inv(c, s) && key in s.entries && s.entries[key].users == 0
    ensures Evictable(s, key) && Inv(c, Evict(s, key))
  {
    AwaitKeeps(c, s, key);
    SynchronizeForEvict(c, s, key);
    hide Inv, SynchronizeAll, Release;
    var awaited := AwaitEvents(s, key);
    forall k | k in awaited.device.kernels && k.key == key ensures Finished(awaited.device, k) {
      EvictionWaitsForItsKernels(c, s, key, k);
    }
    DropKeeps(c, awaited, key);
  }

  /** Once no kernel reads it any more, an unused entry can go. */
  lemma DropKeeps(c: Config, s: State, key: Key)
    requires Inv(c, s) && key in s.entries && s.entries[key].users == 0
    requires forall k :: k in s.device.kernels && k.key == key ==> Finished(s.device, k)
    ensures Evictable(s, key) && Inv(c, DropEntry(s, key))
  {
    DropLayout(c, s.regions, s.entries, key);
    DroppedParts(c, s, key);
    hide Layout, Owns, OrderOk, DataOk, UsersOk, DeviceOk, ValidRegion, Release;
    assert DataOk(c, s.arena, s.entries - {key}) by { DropData(c, s.arena, s.entries, key); }
  }

  lemma SynchronizeForEvict(c: Config, s: State, key: Key)
    requires Inv(c, s) && key in s.entries
    ensures AwaitEvents(s, key).device.kernels == s.device.kernels
  {
    SynchronizeWaits(s.device, s.entries[key].events);
  }

  lemma DropData(c: Config, arena: seq<Byte>, es: Entries, key: Key)
    requires DataOk(c, arena, es)
    ensures DataOk(c, arena, es - {key})
  {}

  lemma OneEntry(c: Config, rs: Regions, es: Entries, key: Key)
    requires Owns(c, rs, es) && key in es
    ensures EntryOk(c, rs, key, es[key])
  {}

  lemma DroppedParts(c: Config, s: State, key: Key)
    requires Inv(c, s) && key in s.entries && s.entries[key].users == 0 && Evictable(s, key)
    requires forall k :: k in s.device.kernels && k.key == key ==> Finished(s.device, k)
    ensures var s' := DropEntry(s, key);
            && s'.entries == s.entries - {key} && s'.arena == s.arena && s'.leases == s.leases && s'.device == s.device
            && Owns(c, s'.regions, s'.entries) && OrderOk(c, s'.entries, s'.order, s'.resident)
            && UsersOk(s'.entries, s'.leases) && DeviceOk(s'.device, s'.entries, s'.leases)
  {
    hide Layout, Owns, OrderOk, DataOk, UsersOk, DeviceOk, ValidRegion, Release;
    OneEntry(c, s.regions, s.entries, key);
    DropOwns(c, s.regions, s.entries, key, DropEntry(s, key).regions);
    DropOrder(c, s.entries, s.order, s.resident, key);
    DropDevice(s.device, s.entries, s.leases, key);
  }

  lemma {:induction false} MakeRoomKeeps(c: Config, s: State, layer: int, n: int)
    requires Inv(c, s) && layer in s.regions
    ensures Inv(c, MakeRoom(s, layer, n))
    decreases |s.order|
  {
    var cs := Candidates(s, layer, s.order);
    if !Fits(s, layer, n) && cs != [] {
      assert cs[0] in cs;
      EvictKeeps(c, s, cs[0]);
      MakeRoomKeeps(c, Evict(s, cs[0]), layer, n);
    }
  }

  /******* Loading *******/

  ghost predicate Apart(es: Entries, o: int, n: int) {
    forall k :: k in es ==> es[k].offset + es[k].size <= o || o + n <= es[k].offset
  }

  /** What a reservation is: a block free until now, and apart from every resident expert. */
  lemma ReserveFacts(c: Config, s: State, key: Key)
    requires Inv(c, s) && key in c.records && Fits(s, key.layer, |c.records[key]|)
    ensures var n := |c.records[key]|;
            var r := s.regions[key.layer];
            var (r', o) := Allocate(r, n);
            && ValidRegion(r') && r'.base == r.base && r'.size == r.size
            && o.value !in r.used && r'.used == r.used[o.value := n]
            && 0 <= o.value && o.value + n <= c.capacity && Apart(s.entries, o.value, n)
            && Release(r', o.value) == r
  {
    var n := |c.records[key]|;
    var r := s.regions[key.layer];
    AllocateKeepsValid(r, n);
    ReleaseUndoesAllocate(r, n);
    var o := Allocate(r, n).1;
    forall k | k in s.entries
      ensures s.entries[k].offset + s.entries[k].size <= o.value || o.value + n <= s.entries[k].offset
    {
      FreeBlockDisjoint(c, s.regions, s.entries, key.layer, o.value, n, k);
    }
  }

  /** The copy of a record touches no byte that an unfinished kernel reads. */
  lemma LoadWritesOnlyQuietBytes(c: Config, s: State, key: Key, k: Kernel, x: int)
    requires Inv(c, s) && key in c.records && Fits(s, key.layer, |c.records[key]|)
    requires k in s.device.kernels && !Finished(s.device, k)
    ensures k.key in s.entries
    ensures var o := Allocate(s.regions[key.layer], |c.records[key]|).1.value;
            var e := s.entries[k.key];
            e.offset <= x < e.offset + e.size ==> !(o <= x < o + |c.records[key]|)
  {
    assert KernelOk(s.device, s.entries, s.leases, k);
    ReserveFacts(c, s, key);
  }

  lemma WriteApart(arena: seq<Byte>, o: int, data: seq<Byte>, lo: int, hi: int)
    requires 0 <= o && o + |data| <= |arena| && 0 <= lo <= hi <= |arena| && (hi <= o || o + |data| <= lo)
    ensures Write(arena, o, data)[lo..hi] == arena[lo..hi]
  {}

  lemma WriteKeepsData(c: Config, arena: seq<Byte>, es: Entries, o: int, data: seq<Byte>)
    requires DataOk(c, arena, es) && 0 <= o && o + |data| <= |arena| && Apart(es, o, |data|)
    requires forall k :: k in es ==> k in c.records && es[k].size == |c.records[k]|
    ensures DataOk(c, Write(arena, o, data), es)
  {
    forall k | k in es ensures Holds(c, Write(arena, o, data), k, es[k]) {
      assert Holds(c, arena, k, es[k]);
      WriteApart(arena, o, data, es[k].offset, es[k].offset + es[k].size);
    }
  }

  lemma WrittenThere(arena: seq<Byte>, o: int, data: seq<Byte>)
    requires 0 <= o && o + |data| <= |arena|
    ensures Write(arena, o, data)[o..o + |data|] == data
  {}

  lemma ArenaSize(c: Config, s: State)
    requires Inv(c, s) && !s.closed
    ensures |s.arena| == c.capacity
  {}

  lemma DrainKeeps(d: Device, es: Entries, ls: Leases, stream: int)
    requires DeviceOk(d, es, ls)
    ensures DeviceOk(DrainStream(d, stream), es, ls)
  {
    DeviceAdvances(d, DrainStream(d, stream), es, ls);
  }

  lemma EntrySizes(c: Config, rs: Regions, es: Entries)
    requires Owns(c, rs, es)
    ensures forall k :: k in es ==> k in c.records && es[k].size == |c.records[k]|
  {
    forall k | k in es ensures k in c.records && es[k].size == |c.records[k]| { assert EntryOk(c, rs, k, es[k]); }
  }

  /** What a failed load does to the state: bytes of a free block, the device, and the failure count. */
  lemma FailedFillIs(c: Config, s: State, key: Key, fault: Fault, stream: int)
    requires Inv(c, s) && !s.closed && key in c.records && Fits(s, key.layer, |c.records[key]|) && !fault.NoFault?
    ensures var n := |c.records[key]|;
            var o := Allocate(s.regions[key.layer], n).1.value;
            Fill(c, Reserve(s, key.layer, n), key, o, fault, stream).0
            == s.(arena := Write(s.arena, o, Arrived(fault, c.records[key])), device := DrainStream(s.device, stream),
                  failures := s.failures + 1)
  {
    ReserveFacts(c, s, key);
    var n := |c.records[key]|;
    RolledBack(s.regions, key.layer, n);
    hide Inv, ValidRegion, Release, Allocate, Write, DrainStream;
  }

  /** A failed load leaves regions and entries exactly as they were. */
  lemma FailedFill(c: Config, s: State, key: Key, fault: Fault, stream: int)
    requires Inv(c, s) && !s.closed && key in c.records && Fits(s, key.layer, |c.records[key]|) && !fault.NoFault?
    ensures var n := |c.records[key]|;
            var o := Allocate(s.regions[key.layer], n).1.value;
            var s' := Fill(c, Reserve(s, key.layer, n), key, o, fault, stream).0;
            && s' == s.(arena := s'.arena, device := DrainStream(s.device, stream), failures := s.failures + 1)
            && Inv(c, s')
  {
    FailedFillIs(c, s, key, fault, stream);
    ReserveFacts(c, s, key);
    var n := |c.records[key]|;
    var o := Allocate(s.regions[key.layer], n).1.value;
    hide ValidRegion, Layout, Owns, OrderOk, DataOk, UsersOk, DeviceOk, Release, Allocate, Fill, Reserve;
    EntrySizes(c, s.regions, s.entries);
    ApartFrom(s.entries, o, n, |Arrived(fault, c.records[key])|);
    WriteKeepsData(c, s.arena, s.entries, o, Arrived(fault, c.records[key]));
    DrainKeeps(s.device, s.entries, s.leases, stream);
  }

  lemma ApartFrom(es: Entries, o: int, n: int, m: int)
    requires Apart(es, o, n) && m <= n
    ensures Apart(es, o, m)
  {
  }

  lemma RolledBack(rs: Regions, layer: int, n: int)
    requires layer in rs && Allocate(rs[layer], n).1.Some?
    requires var (r', o) := Allocate(rs[layer], n); o.value in r'.used && Release(r', o.value) == rs[layer]
    ensures var (r', o) := Allocate(rs[layer], n);
            var rs' := rs[layer := r'];
            rs'[layer := Release(rs'[layer], o.value)] == rs
  {}

  /** Publishing a loaded record: the new entry owns the new block. */
  lemma PublishLayout(c: Config, rs: Regions, key: Key, r: Region)
    requires Layout(c, rs) && key in c.records
    requires ValidRegion(r) && r.base == rs[key.layer].base && r.size == rs[key.layer].size
    ensures Layout(c, rs[key.layer := r]) && key.layer in rs
  {
    hide ValidRegion;
  }

  lemma PublishOwners(c: Config, rs: Regions, es: Entries, rs': Regions, es': Entries, key: Key, e: Entry)
    requires Owns(c, rs, es) && key !in es && key.layer in rs && es' == es[key := e] && rs'.Keys == rs.Keys
    requires forall l :: l in rs ==>
               rs'[l].used == if l == key.layer then rs[l].used[e.offset := e.size] else rs[l].used
    ensures forall l, o :: l in rs' && o in rs'[l].used ==> exists k :: Owner(es', l, o, k)
  {
    forall l, o | l in rs' && o in rs'[l].used ensures exists k :: Owner(es', l, o, k) {
      if l == key.layer && o == e.offset {
        assert Owner(es', l, o, key);
      } else {
        var k :| Owner(es, l, o, k);
        assert Owner(es', l, o, k);
      }
    }
  }

  lemma PublishEntries(c: Config, rs: Regions, es: Entries, rs': Regions, es': Entries, key: Key, e: Entry)
    requires Owns(c, rs, es) && key !in es && key in c.records && e.size == |c.records[key]|
    requires key.layer in rs && e.offset !in rs[key.layer].used && es' == es[key := e] && rs'.Keys == rs.Keys
    requires forall l :: l in rs ==>
               rs'[l].used == if l == key.layer then rs[l].used[e.offset := e.size] else rs[l].used
    ensures forall k :: k in es' ==> EntryOk(c, rs', k, es'[k])
    ensures forall k, q :: k in es' && q in es' && k.layer == q.layer && es'[k].offset == es'[q].offset ==> k == q
  {
    forall k | k in es ensures EntryOk(c, rs', k, es'[k]) && (k.layer == key.layer ==> es[k].offset != e.offset) {
      assert EntryOk(c, rs, k, es[k]);
    }
  }

  lemma PublishOwns(c: Config, rs: Regions, es: Entries, key: Key, r: Region, e: Entry)
    requires Layout(c, rs) && Owns(c, rs, es) && key in c.records && key !in es
    requires ValidRegion(r) && r.base == rs[key.layer].base && r.size == rs[key.layer].size
    requires e.offset !in rs[key.layer].used && e.size == |c.records[key]|
             && r.used == rs[key.layer].used[e.offset := e.size]
    ensures Layout(c, rs[key.layer := r]) && Owns(c, rs[key.layer := r], es[key := e])
  {
    PublishLayout(c, rs, key, r);
    hide ValidRegion, Layout, EntryOk, Owner;
    PublishOwners(c, rs, es, rs[key.layer := r], es[key := e], key, e);
    PublishEntries(c, rs, es, rs[key.layer := r], es[key := e], key, e);
  }

  lemma PublishOrder(c: Config, es: Entries, order: seq<Key>, resident: int, key: Key, e: Entry)
    requires OrderOk(c, es, order, resident) && key in c.records && key !in es
    requires forall k :: k in es ==> es[k].lastUse < e.lastUse
    ensures OrderOk(c, es[key := e], order + [key], resident + |c.records[key]|)
  {
    SumPush(order, key, RecordSize(c));
    assert key !in order;
    assert forall i :: 0 <= i < |order| ==> order[i] in order;
  }

  lemma PublishDevice(d: Device, es: Entries, ls: Leases, key: Key, e: Entry)
    requires DeviceOk(d, es, ls) && UsersOk(es, ls) && key !in es && e.users == 0 && e.events == []
    ensures DeviceOk(d, es[key := e], ls) && UsersOk(es[key := e], ls)
  {
    assert LeasesOf(ls, key) == {};
    forall k | k in d.kernels ensures KernelOk(d, es[key := e], ls, k) {
      assert KernelOk(d, es, ls, k);
    }
  }

  lemma PublishData(c: Config, arena: seq<Byte>, es: Entries, key: Key, e: Entry)
    requires DataOk(c, arena, es) && Holds(c, arena, key, e)
    ensures DataOk(c, arena, es[key := e])
  {}

  /** A copied record becomes the entry of its block. */
  function Published(c: Config, s: State, key: Key, r: Region, o: int): State
    requires key in c.records
  {
    var n := |c.records[key]|;
    s.(regions := s.regions[key.layer := r],
       entries := s.entries[key := Entry(o, n, s.generation + 1, 0, [], s.clock)],
       order := s.order + [key], resident := s.resident + n, generation := s.generation + 1)
  }

  lemma FillPublishes(c: Config, s: State, key: Key, stream: int)
    requires key in c.records && key.layer in s.regions && Fits(s, key.layer, |c.records[key]|)
    ensures var n := |c.records[key]|;
            var (r, o) := Allocate(s.regions[key.layer], n);
            var copied := s.(arena := Write(s.arena, o.value, c.records[key]), device := DrainStream(s.device, stream));
            Fill(c, Reserve(s, key.layer, n), key, o.value, NoFault, stream)
            == (Published(c, copied, key, r, o.value), Leased)
  {}

  /** Bytes of a block that no entry owns can be written at any time. */
  lemma CopyKeeps(c: Config, s: State, o: int, data: seq<Byte>)
    requires Inv(c, s) && !s.closed && 0 <= o && o + |data| <= c.capacity && Apart(s.entries, o, |data|)
    ensures Inv(c, s.(arena := Write(s.arena, o, data)))
  {
    hide Layout, Owns, OrderOk, DataOk, UsersOk, DeviceOk, Apart;
    EntrySizes(c, s.regions, s.entries);
    WriteKeepsData(c, s.arena, s.entries, o, data);
  }

  lemma DrainKeepsInv(c: Config, s: State, stream: int)
    requires Inv(c, s)
    ensures Inv(c, s.(device := DrainStream(s.device, stream)))
  {
    hide Layout, Owns, OrderOk, DataOk, UsersOk, DeviceOk;
    DrainKeeps(s.device, s.entries, s.leases, stream);
  }

  lemma PublishedKeeps(c: Config, s: State, key: Key, r: Region, o: int)
    requires Inv(c, s) && !s.closed && key in c.records && key !in s.entries && key.layer in s.regions
    requires forall k :: k in s.entries ==> s.entries[k].lastUse < s.clock
    requires ValidRegion(r) && r.base == s.regions[key.layer].base && r.size == s.regions[key.layer].size
    requires o !in s.regions[key.layer].used && r.used == s.regions[key.layer].used[o := |c.records[key]|]
    requires 0 <= o && o + |c.records[key]| <= |s.arena| && s.arena[o..o + |c.records[key]|] == c.records[key]
    ensures Inv(c, Published(c, s, key, r, o))
  {
    hide Layout, Owns, OrderOk, DataOk, UsersOk, DeviceOk, ValidRegion;
    var e := Entry(o, |c.records[key]|, s.generation + 1, 0, [], s.clock);
    PublishData(c, s.arena, s.entries, key, e);
    PublishOwns(c, s.regions, s.entries, key, r, e);
    PublishOrder(c, s.entries, s.order, s.resident, key, e);
    PublishDevice(s.device, s.entries, s.leases, key, e);
  }

  lemma PublishKeeps(c: Config, s: State, key: Key, stream: int)
    requires Inv(c, s) && !s.closed && key in c.records && key !in s.entries && Fits(s, key.layer, |c.records[key]|)
    requires forall k :: k in s.entries ==> s.entries[k].lastUse < s.clock
    ensures var n := |c.records[key]|;
            var o := Allocate(s.regions[key.layer], n).1.value;
            Inv(c, Fill(c, Reserve(s, key.layer, n), key, o, NoFault, stream).0)
  {
    var (r, o) := Allocate(s.regions[key.layer], |c.records[key]|);
    ReserveFacts(c, s, key);
    FillPublishes(c, s, key, stream);
    ArenaSize(c, s);
    hide Inv, ValidRegion, Apart, Published, Allocate, Fill, Reserve, Write, DrainStream;
    CopyKeeps(c, s, o.value, c.records[key]);
    DrainKeepsInv(c, s.(arena := Write(s.arena, o.value, c.records[key])), stream);
    WrittenThere(s.arena, o.value, c.records[key]);
    var copied := s.(arena := Write(s.arena, o.value, c.records[key]), device := DrainStream(s.device, stream));
    PublishedKeeps(c, copied, key, r, o.value);
  }

  /******* Leasing *******/

  lemma LeaseAdded(ls: Leases, id: nat, key: Key, stream: int)
    requires id !in ls
    ensures var m := ls[id := Lease(key, stream)];
            && |LeasesOf(m, key)| == |LeasesOf(ls, key)| + 1
            && forall k :: k != key ==> LeasesOf(m, k) == LeasesOf(ls, k)
  {
    var m := ls[id := Lease(key, stream)];
    assert LeasesOf(m, key) == LeasesOf(ls, key) + {id};
  }

  lemma LeaseRemoved(ls: Leases, id: nat)
    requires id in ls
    ensures var m := ls - {id};
            && |LeasesOf(m, ls[id].key)| == |LeasesOf(ls, ls[id].key)| - 1
            && forall k :: k != ls[id].key ==> LeasesOf(m, k) == LeasesOf(ls, k)
  {
    var m := ls - {id};
    assert LeasesOf(m, ls[id].key) == LeasesOf(ls, ls[id].key) - {id};
    assert id in LeasesOf(ls, ls[id].key);
  }

  ghost predicate SameBlock(e: Entry, f: Entry) { e.offset == f.offset && e.size == f.size }

  /** Replacing an entry by one with the same extent leaves ownership and data alone. */
  lemma TouchOwns(c: Config, rs: Regions, es: Entries, key: Key, e: Entry)
    requires Owns(c, rs, es) && key in es && SameBlock(e, es[key])
    ensures Owns(c, rs, es[key := e])
  {
    var es' := es[key := e];
    forall k | k in es' ensures EntryOk(c, rs, k, es'[k]) {
      assert EntryOk(c, rs, k, es[k]);
    }
    forall l, o | l in rs && o in rs[l].used ensures exists k :: Owner(es', l, o, k) {
      var k :| Owner(es, l, o, k);
      assert Owner(es', l, o, k);
    }
  }

  lemma TouchData(c: Config, arena: seq<Byte>, es: Entries, key: Key, e: Entry)
    requires DataOk(c, arena, es) && key in es && SameBlock(e, es[key])
    ensures DataOk(c, arena, es[key := e])
  {
    assert Holds(c, arena, key, es[key]);
  }

  lemma TouchOrder(c: Config, es: Entries, order: seq<Key>, resident: int, key: Key, e: Entry)
    requires OrderOk(c, es, order, resident) && key in es && e.lastUse == es[key].lastUse
    ensures OrderOk(c, es[key := e], order, resident)
  {
    assert Ages(es[key := e], order);
  }

  /** What a change of users, events or age of one entry needs to keep the invariant. */
  lemma TouchKeeps(c: Config, s: State, s': State, key: Key, e: Entry)
    requires Inv(c, s) && key in s.entries && SameBlock(e, s.entries[key]) && e.lastUse <= s.clock
    requires s' == s.(entries := s.entries[key := e], order := s'.order, leases := s'.leases, hits := s'.hits)
    requires OrderOk(c, s'.entries, s'.order, s'.resident)
    requires UsersOk(s'.entries, s'.leases) && DeviceOk(s'.device, s'.entries, s'.leases)
    ensures Inv(c, s')
  {
    hide Layout, Owns, OrderOk, DataOk, UsersOk, DeviceOk;
    TouchOwns(c, s.regions, s.entries, key, e);
    TouchData(c, s.arena, s.entries, key, e);
  }

  lemma AddUserDevice(d: Device, es: Entries, ls: Leases, key: Key, id: nat, stream: int)
    requires DeviceOk(d, es, ls) && UsersOk(es, ls) && key in es && id !in ls
    ensures var es' := es[key := es[key].(users := es[key].users + 1)];
            var ls' := ls[id := Lease(key, stream)];
            DeviceOk(d, es', ls') && UsersOk(es', ls')
  {
    var es' := es[key := es[key].(users := es[key].users + 1)];
    var ls' := ls[id := Lease(key, stream)];
    LeaseAdded(ls, id, key, stream);
    forall k | k in d.kernels ensures KernelOk(d, es', ls', k) {
      assert KernelOk(d, es, ls, k);
      if !Finished(d, k) && HeldBy(ls, k) {
        var i :| i in ls && ls[i] == Lease(k.key, k.stream);
        assert i in ls' && ls'[i] == Lease(k.key, k.stream);
      }
    }
  }

  lemma AddUserKeeps(c: Config, s: State, key: Key, id: nat, stream: int)
    requires Inv(c, s) && key in s.entries && id !in s.leases
    ensures Inv(c, AddUser(s, key, id, stream))
  {
    hide Layout, Owns, OrderOk, DataOk, UsersOk, DeviceOk;
    var e := s.entries[key].(users := s.entries[key].users + 1);
    AddUserDevice(s.device, s.entries, s.leases, key, id, stream);
    TouchOrder(c, s.entries, s.order, s.resident, key, e);
    TouchKeeps(c, s, AddUser(s, key, id, stream), key, e);
  }

  lemma HitAges(es: Entries, r: seq<Key>, key: Key, e: Entry)
    requires Ages(es, r) && key in es && key !in r && forall k :: k in es ==> es[k].lastUse < e.lastUse
    ensures Ages(es[key := e], r + [key])
  {
    assert forall i :: 0 <= i < |r| ==> r[i] in r;
  }

  lemma HitOrder(c: Config, es: Entries, order: seq<Key>, resident: int, key: Key, e: Entry)
    requires OrderOk(c, es, order, resident) && key in es && forall k :: k in es ==> es[k].lastUse < e.lastUse
    ensures OrderOk(c, es[key := e], Remove(order, key) + [key], resident)
  {
    hide Ages;
    var r := Remove(order, key);
    RemoveKeeps(c, order, key);
    RemoveAges(es, order, key);
    HitAges(es, r, key, e);
    SumPush(r, key, RecordSize(c));
  }

  /** Pruning completed events never uncovers an unfinished kernel. */
  lemma HitDevice(d: Device, es: Entries, ls: Leases, key: Key, e: Entry)
    requires DeviceOk(d, es, ls) && UsersOk(es, ls) && key in es && e.users == es[key].users
    requires e.events == Pending(d, es[key].events)
    ensures DeviceOk(d, es[key := e], ls) && UsersOk(es[key := e], ls)
  {
    forall k | k in d.kernels ensures KernelOk(d, es[key := e], ls, k) {
      assert KernelOk(d, es, ls, k);
      if !Finished(d, k) && !HeldBy(ls, k) && k.key == key {
        var v :| v in es[key].events && v.stream == k.stream && v.at >= k.at;
        assert v in e.events;
      }
    }
  }

  lemma HitKeeps(c: Config, s: State, key: Key)
    requires Inv(c, s) && key in s.entries && forall k :: k in s.entries ==> s.entries[k].lastUse < s.clock
    ensures Inv(c, Hit(s, key))
  {
    hide Layout, Owns, OrderOk, DataOk, UsersOk, DeviceOk;
    var e := s.entries[key].(events := Pending(s.device, s.entries[key].events), lastUse := s.clock);
    HitOrder(c, s.entries, s.order, s.resident, key, e);
    HitDevice(s.device, s.entries, s.leases, key, e);
    TouchKeeps(c, s, Hit(s, key), key, e);
  }

  lemma LeaveDevice(d: Device, es: Entries, ls: Leases, id: nat)
    requires DeviceOk(d, es, ls) && UsersOk(es, ls) && id in ls && es[ls[id].key].users > 0
    ensures var l := ls[id];
            var e := es[l.key].(events := es[l.key].events + [Event(l.stream, At(d.issued, l.stream))],
                                users := es[l.key].users - 1);
            DeviceOk(d, es[l.key := e], ls - {id}) && UsersOk(es[l.key := e], ls - {id})
  {
    var l := ls[id];
    var v := Event(l.stream, At(d.issued, l.stream));
    var e := es[l.key].(events := es[l.key].events + [v], users := es[l.key].users - 1);
    var ls' := ls - {id};
    LeaseRemoved(ls, id);
    assert v in e.events;
    forall k | k in d.kernels ensures KernelOk(d, es[l.key := e], ls', k) {
      assert KernelOk(d, es, ls, k);
      if !Finished(d, k) {
        if HeldBy(ls, k) {
          var i :| i in ls && ls[i] == Lease(k.key, k.stream);
          if i == id { assert Guarded(e, k); } else { assert i in ls'; assert HeldBy(ls', k); }
        } else {
          var w :| w in es[k.key].events && w.stream == k.stream && w.at >= k.at;
          assert k.key == l.key ==> w in e.events;
        }
      }
    }
  }

  lemma LeaseHasUser(es: Entries, ls: Leases, id: nat)
    requires UsersOk(es, ls) && id in ls
    ensures ls[id].key in es && es[ls[id].key].users > 0
  {
    assert id in LeasesOf(ls, ls[id].key);
  }

  lemma LeaveKeeps(c: Config, s: State, id: nat)
    requires Inv(c, s)
    ensures Inv(c, Leave(s, id)) && (id in s.leases ==> Leave(s, id).leases == s.leases - {id})
  {
    hide Layout, Owns, OrderOk, DataOk, UsersOk, DeviceOk;
    if id in s.leases {
      var l := s.leases[id];
      LeaseHasUser(s.entries, s.leases, id);
      LeaveDevice(s.device, s.entries, s.leases, id);
      var e := Leave(s, id).entries[l.key];
      TouchOrder(c, s.entries, s.order, s.resident, l.key, e);
      TouchKeeps(c, s, Leave(s, id), l.key, e);
    }
  }

  lemma LaunchDevice(d: Device, d': Device, es: Entries, ls: Leases, id: nat)
    requires DeviceOk(d, es, ls) && UsersOk(es, ls) && id in ls && d'.finished == d.finished
    requires d'.issued == d.issued[ls[id].stream := At(d.issued, ls[id].stream) + 1]
    requires d'.kernels == d.kernels + {Kernel(ls[id].stream, At(d.issued, ls[id].stream) + 1, ls[id].key)}
    ensures DeviceOk(d', es, ls)
  {
    forall k | k in d'.kernels ensures KernelOk(d', es, ls, k) && k.at <= At(d'.issued, k.stream) {
      if k in d.kernels {
        assert KernelOk(d, es, ls, k);
      } else {
        assert HeldBy(ls, k);
      }
    }
  }

  lemma LaunchKeeps(c: Config, s: State, id: nat)
    requires Inv(c, s)
    ensures Inv(c, Launch(s, id))
  {
    hide Layout, Owns, OrderOk, DataOk, UsersOk, DeviceOk;
    if id in s.leases { LaunchDevice(s.device, Launch(s, id).device, s.entries, s.leases, id); }
  }

  lemma ProgressKeeps(c: Config, s: State, stream: int)
    requires Inv(c, s)
    ensures Inv(c, s.(device := Progress(s.device, stream)))
  {
    DeviceAdvances(s.device, Progress(s.device, stream), s.entries, s.leases);
  }

  /******* The operations *******/

  /** Making room only removes entries, none of another layer and none that is leased. */
  lemma {:induction false} MakeRoomShrinks(s: State, layer: int, n: int)
    requires layer in s.regions
    ensures var r := MakeRoom(s, layer, n);
            && r.entries.Keys <= s.entries.Keys && (forall k :: k in r.entries ==> r.entries[k] == s.entries[k])
            && r.arena == s.arena && r.closed == s.closed && r.clock == s.clock && r.leases == s.leases
            && r.device.kernels == s.device.kernels && r.device.issued == s.device.issued
            && (forall k :: k in s.entries && (k.layer != layer || s.entries[k].users > 0) ==> k in r.entries)
    decreases |s.order|
  {
    var cs := Candidates(s, layer, s.order);
    if !Fits(s, layer, n) && cs != [] && Evictable(s, cs[0]) {
      assert cs[0] in cs;
      SyncKernels(s.device, s.entries[cs[0]].events);
      MakeRoomShrinks(Evict(s, cs[0]), layer, n);
    }
  }

  lemma {:induction false} SyncKernels(d: Device, es: seq<Event>)
    ensures SynchronizeAll(d, es).kernels == d.kernels && SynchronizeAll(d, es).issued == d.issued
    decreases |es|
  {
    if es != [] { SyncKernels(Synchronize(d, es[0]), es[1..]); }
  }

  lemma LoadKeeps(c: Config, s: State, key: Key, guard: bool, fault: Fault, stream: int)
    requires Inv(c, s) && !s.closed && key in c.records && key !in s.entries
    requires forall k :: k in s.entries ==> s.entries[k].lastUse < s.clock
    ensures var (s', o) := Load(c, s, key, guard, fault, stream);
            Inv(c, s') && s'.leases == s.leases && (o.Leased? ==> key in s'.entries)
  {
    if guard {
      var n := |c.records[key]|;
      MakeRoomKeeps(c, s, key.layer, n);
      MakeRoomShrinks(s, key.layer, n);
      var roomy := MakeRoom(s, key.layer, n);
      if Fits(roomy, key.layer, n) {
        if fault.NoFault? { PublishKeeps(c, roomy, key, stream); } else { FailedFill(c, roomy, key, fault, stream); }
      }
    }
  }

  lemma AcquireHit(c: Config, s: State, key: Key, id: nat, stream: int)
    requires Inv(c, s) && id !in s.leases && key in s.entries
    ensures Inv(c, AddUser(Hit(s.(clock := s.clock + 1), key), key, id, stream))
  {
    hide Layout, Owns, OrderOk, DataOk, UsersOk, DeviceOk;
    var now := s.(clock := s.clock + 1);
    HitKeeps(c, now, key);
    AddUserKeeps(c, Hit(now, key), key, id, stream);
  }

  lemma AcquireMiss(c: Config, s: State, key: Key, guard: bool, fault: Fault)
    requires Inv(c, s) && !s.closed && key in c.records && key !in s.entries
    ensures key.layer in s.regions
    ensures var missed := s.(clock := s.clock + 1, misses := s.misses + 1);
            forall stream :: var (loaded, o) := Load(c, missed, key, guard, fault, stream);
                        Inv(c, loaded) && loaded.leases == s.leases && (o.Leased? ==> key in loaded.entries)
  {
    assert key.layer in s.regions;
    hide Layout, Owns, OrderOk, DataOk, UsersOk, DeviceOk, Load;
    var missed := s.(clock := s.clock + 1, misses := s.misses + 1);
    forall stream ensures var (loaded, o) := Load(c, missed, key, guard, fault, stream);
                          Inv(c, loaded) && loaded.leases == s.leases && (o.Leased? ==> key in loaded.entries)
    {
      LoadKeeps(c, missed, key, guard, fault, stream);
    }
  }

  lemma AcquireKeeps(c: Config, s: State, key: Key, cancelled: bool, guard: bool, fault: Fault, id: nat, stream: int)
    requires Inv(c, s) && id !in s.leases
    ensures Inv(c, Acquire(c, s, key, cancelled, guard, fault, id, stream).0)
  {
    hide Inv, Load, Hit, AddUser;
    if !s.closed && key in c.records && !cancelled {
      if key in s.entries {
        AcquireHit(c, s, key, id, stream);
      } else {
        AcquireMiss(c, s, key, guard, fault);
        var (loaded, o) := Load(c, s.(clock := s.clock + 1, misses := s.misses + 1), key, guard, fault, stream);
        if o.Leased? { AddUserKeeps(c, loaded, key, id, stream); }
      }
    }
  }

  lemma {:induction false} EvictAllKeeps(c: Config, s: State, ks: seq<Key>)
    requires Inv(c, s)
    ensures Inv(c, EvictAll(s, ks)) && EvictAll(s, ks).leases == s.leases && EvictAll(s, ks).closed == s.closed
    decreases |ks|
  {
    if ks != [] {
      if Evictable(s, ks[0]) {
        EvictKeeps(c, s, ks[0]);
        EvictAllKeeps(c, Evict(s, ks[0]), ks[1..]);
      } else {
        EvictAllKeeps(c, s, ks[1..]);
      }
    }
  }

  /** With no lease anywhere, clear leaves the cache empty. */
  lemma {:induction false} EvictAllEmpties(c: Config, s: State, ks: seq<Key>)
    requires Inv(c, s) && forall k :: k in s.entries ==> s.entries[k].users == 0 && k in ks
    ensures EvictAll(s, ks).entries == map[]
    decreases |ks|
  {
    if ks != [] {
      assert forall k :: k in ks <==> k == ks[0] || k in ks[1..];
      if ks[0] in s.entries {
        EvictKeeps(c, s, ks[0]);
        EvictAllEmpties(c, Evict(s, ks[0]), ks[1..]);
      } else {
        EvictAllEmpties(c, s, ks[1..]);
      }
    }
  }

  lemma ClearKeeps(c: Config, s: State)
    requires Inv(c, s)
    ensures Inv(c, Clear(s)) && Inv(c, Close(s))
    ensures (exists k :: k in s.entries && s.entries[k].users > 0) || Clear(s).entries == map[]
  {
    hide Inv, EvictAll;
    OrderCovers(c, s);
    EvictAllKeeps(c, s, s.order);
    if !exists k :: k in s.entries && s.entries[k].users > 0 {
      EvictAllEmpties(c, s, s.order);
      CloseEmpty(c, EvictAll(s, s.order));
    }
  }

  lemma OrderCovers(c: Config, s: State)
    requires Inv(c, s)
    ensures (forall k :: k in s.entries ==> k in s.order) && (s.closed ==> s.entries == map[])
    ensures forall k :: k in c.records ==> k.layer in s.regions
  {}

  lemma CloseEmpty(c: Config, s: State)
    requires Inv(c, s) && s.entries == map[]
    ensures Inv(c, s.(closed := true, arena := []))
  {
  }
}
