/** What the expert cache promises over every run of leases, kernels, releases, stream progress and evictions. */
module CacheTheorems {
  import opened Bytes
  import opened RegionSpec
  import opened Sequences
  import opened Sums
  import opened CacheSpec
  import opened CacheSafety

  /******* Start *******/

  ghost predicate Ascending(qs: seq<Quota>) {
    && (forall i, j :: 0 <= i < j < |qs| ==> qs[i].layer < qs[j].layer)
    && (forall i :: 0 <= i < |qs| ==> qs[i].size > 0 && qs[i].size % ALIGN == 0)
  }

  ghost predicate HasLayer(qs: seq<Quota>, l: int) { exists i :: 0 <= i < |qs| && qs[i].layer == l }

  lemma HasLayerTail(qs: seq<Quota>, l: int)
    requires qs != []
    ensures HasLayer(qs, l) <==> l == qs[0].layer || HasLayer(qs[1..], l)
  {
    if HasLayer(qs, l) && l != qs[0].layer {
      var i :| 0 <= i < |qs| && qs[i].layer == l;
      assert qs[1..][i - 1].layer == l;
    }
    if HasLayer(qs[1..], l) {
      var i :| 0 <= i < |qs[1..]| && qs[1..][i].layer == l;
      assert qs[i + 1].layer == l;
    }
  }

  /** The constructor lays the layer regions side by side and exactly fills the arena. */
  lemma {:induction false} BuildLaysOut(qs: seq<Quota>, base: int)
    requires base % ALIGN == 0 && base >= 0 && Ascending(qs)
    ensures var rs := BuildRegions(qs, base);
            && (forall l :: l in rs <==> HasLayer(qs, l))
            && (forall i :: 0 <= i < |qs| ==> qs[i].layer in rs && rs[qs[i].layer].size == qs[i].size)
            && (forall l :: l in rs ==> ValidRegion(rs[l]) && rs[l].used == map[] && base <= rs[l].base
                                        && rs[l].base + rs[l].size <= base + SumOf(qs, QuotaSize))
            && (forall l, m :: l in rs && m in rs && l < m ==> rs[l].base + rs[l].size <= rs[m].base)
  {
    hide ValidRegion, HasLayer;
    if qs == [] {
      NoLayers();
    } else {
      var rest := qs[1..];
      FreshValid(base, qs[0].size);
      JoinAligned(base, qs[0].size);
      BuildLaysOut(rest, base + qs[0].size);
      QuotasPositive(rest);
      var rs := BuildRegions(qs, base);
      forall l ensures l in rs <==> HasLayer(qs, l) { HasLayerTail(qs, l); }
      forall l | HasLayer(rest, l) ensures qs[0].layer < l { LaterLayer(qs, l); }
      forall i | 0 <= i < |qs| ensures qs[i].layer in rs && rs[qs[i].layer].size == qs[i].size {
        if i > 0 { assert rest[i - 1] == qs[i]; }
      }
    }
  }

  lemma NoLayers()
    ensures forall l :: !HasLayer([], l)
  {}

  lemma LaterLayer(qs: seq<Quota>, l: int)
    requires Ascending(qs) && qs != [] && HasLayer(qs[1..], l)
    ensures qs[0].layer < l
  {
    var i :| 0 <= i < |qs[1..]| && qs[1..][i].layer == l;
    assert qs[i + 1].layer == l;
  }

  lemma {:induction false} QuotasPositive(qs: seq<Quota>)
    requires forall i :: 0 <= i < |qs| ==> qs[i].size > 0
    ensures SumOf(qs, QuotaSize) >= 0
  {
    if qs != [] { QuotasPositive(qs[1..]); }
  }

  lemma StartKeeps(c: Config, arena: seq<Byte>)
    requires ValidConfig(c) && |arena| == c.capacity
    ensures Inv(c, Start(c, arena))
  {
    StartLaysOut(c);
    hide Layout, BuildRegions, ValidConfig;
    NoEntries(c, BuildRegions(c.quotas, 0));
  }

  lemma StartLaysOut(c: Config)
    requires ValidConfig(c)
    ensures var rs := BuildRegions(c.quotas, 0);
            Layout(c, rs) && forall l :: l in rs ==> rs[l].used == map[]
  {
    BuildLaysOut(c.quotas, 0);
    hide ValidRegion, BuildRegions;
    forall k | k in c.records ensures HasLayer(c.quotas, k.layer) {}
  }

  lemma NoEntries(c: Config, rs: Regions)
    requires forall l :: l in rs ==> rs[l].used == map[]
    ensures Owns(c, rs, map[]) && OrderOk(c, map[], [], 0)
    ensures UsersOk(map[], map[]) && DeviceOk(Device(map[], map[], {}), map[], map[])
  {
  }

  /******* Runs *******/

  datatype Label =
    | Enter(key: Key, cancelled: bool, guard: bool, fault: Fault, id: nat, stream: int)
    | Exit(id: nat)
    | Kernels(id: nat)
    | Advance(stream: int)
    | ClearAll
    | Shutdown

  /** Lease names are never reused while the lease lives; everything else can happen at any time. */
  predicate Enabled(s: State, l: Label) { l.Enter? ==> l.id !in s.leases }

  function Step(c: Config, s: State, l: Label): State {
    match l
    case Enter(key, cancelled, guard, fault, id, stream) => Acquire(c, s, key, cancelled, guard, fault, id, stream).0
    case Exit(id) => Leave(s, id)
    case Kernels(id) => Launch(s, id)
    case Advance(stream) => s.(device := Progress(s.device, stream))
    case ClearAll => Clear(s)
    case Shutdown => Close(s)
  }

  lemma StepKeeps(c: Config, s: State, l: Label)
    requires Inv(c, s) && Enabled(s, l)
    ensures Inv(c, Step(c, s, l))
  {
    hide Inv;
    match l
    case Enter(key, cancelled, guard, fault, id, stream) =>
      AcquireKeeps(c, s, key, cancelled, guard, fault, id, stream);
    case Exit(id) => LeaveKeeps(c, s, id);
    case Kernels(id) => LaunchKeeps(c, s, id);
    case Advance(stream) => ProgressKeeps(c, s, stream);
    case ClearAll => ClearKeeps(c, s);
    case Shutdown => ClearKeeps(c, s);
  }

  predicate CanRun(c: Config, s: State, ls: seq<Label>)
    decreases |ls|
  {
    ls == [] || (Enabled(s, ls[0]) && CanRun(c, Step(c, s, ls[0]), ls[1..]))
  }

  function After(c: Config, s: State, ls: seq<Label>): State
    decreases |ls|
  {
    if ls == [] then s else After(c, Step(c, s, ls[0]), ls[1..])
  }

  lemma {:induction false} RunKeeps(c: Config, s: State, ls: seq<Label>)
    requires Inv(c, s) && CanRun(c, s, ls)
    ensures Inv(c, After(c, s, ls))
    decreases |ls|
  {
    hide Inv;
    if ls != [] {
      StepKeeps(c, s, ls[0]);
      RunKeeps(c, Step(c, s, ls[0]), ls[1..]);
    }
  }

  /******* Stream safety *******/

  /** The bytes a kernel reads are the same, and still allocated to the same expert, before and after. */
  ghost predicate Protected(s: State, s': State, key: Key) {
    && key in s.entries && key in s'.entries && SameBlock(s.entries[key], s'.entries[key])
    && (forall x :: s.entries[key].offset <= x < s.entries[key].offset + s.entries[key].size && 0 <= x < |s.arena| ==>
          x < |s'.arena| && s'.arena[x] == s.arena[x])
  }

  /** A resident expert that survives a step keeps its block and its bytes. */
  ghost predicate Stable(s: State, s': State) {
    forall k :: k in s.entries && k in s'.entries ==> Protected(s, s', k)
  }

  lemma SameData(c: Config, arena: seq<Byte>, arena': seq<Byte>, k: Key, e: Entry, e': Entry, x: int)
    requires Holds(c, arena, k, e) && Holds(c, arena', k, e') && e.offset == e'.offset
    requires e.offset <= x < e.offset + |c.records[k]|
    ensures x < |arena| && x < |arena'| && arena'[x] == arena[x]
  {
    assert arena[x] == arena[e.offset..e.offset + |c.records[k]|][x - e.offset];
    assert arena'[x] == arena'[e.offset..e.offset + |c.records[k]|][x - e.offset];
  }

  lemma StableByData(c: Config, s: State, s': State)
    requires Inv(c, s) && Inv(c, s')
    requires forall k :: k in s.entries && k in s'.entries ==> SameBlock(s.entries[k], s'.entries[k])
    ensures Stable(s, s')
  {
    hide Layout, OrderOk, UsersOk, DeviceOk, Owns, Holds;
    EntrySizes(c, s.regions, s.entries);
    forall k, x | k in s.entries && k in s'.entries
      && s.entries[k].offset <= x < s.entries[k].offset + s.entries[k].size && 0 <= x < |s.arena|
      ensures x < |s'.arena| && s'.arena[x] == s.arena[x]
    {
      SameData(c, s.arena, s'.arena, k, s.entries[k], s'.entries[k], x);
    }
  }

  lemma {:induction false} EvictAllShrinks(s: State, ks: seq<Key>)
    ensures var r := EvictAll(s, ks);
            && r.entries.Keys <= s.entries.Keys && (forall k :: k in r.entries ==> r.entries[k] == s.entries[k])
            && r.device.kernels == s.device.kernels && r.device.issued == s.device.issued
    decreases |ks|
  {
    if ks != [] {
      if Evictable(s, ks[0]) {
        SyncKernels(s.device, s.entries[ks[0]].events);
        EvictAllShrinks(Evict(s, ks[0]), ks[1..]);
      } else {
        EvictAllShrinks(s, ks[1..]);
      }
    }
  }

  /** What loading leaves alone, whether it succeeds or not. */
  lemma LoadFacts(c: Config, s: State, key: Key, guard: bool, fault: Fault, stream: int)
    requires key in c.records && key.layer in s.regions && key !in s.entries
    ensures var (s', o) := Load(c, s, key, guard, fault, stream);
            && s'.device.kernels == s.device.kernels && s'.leases == s.leases && s'.clock == s.clock
            && (forall k :: k in s.entries && k in s'.entries ==> s'.entries[k] == s.entries[k])
            && (o.Leased? ==> key in s'.entries && s'.entries[key].lastUse == s.clock && s'.entries[key].users == 0)
            && (!o.Leased? ==> s'.entries.Keys <= s.entries.Keys)
            && (forall k :: k in s.entries && (k.layer != key.layer || s.entries[k].users > 0) ==> k in s'.entries)
  {
    hide MakeRoom, Fits;
    MakeRoomShrinks(s, key.layer, |c.records[key]|);
  }

  /** `Acquire` case by case. */
  lemma AcquireIs(c: Config, s: State, key: Key, cancelled: bool, guard: bool, fault: Fault, id: nat, stream: int)
    requires !s.closed && key in c.records && !cancelled && key.layer in s.regions
    ensures key in s.entries ==>
              Acquire(c, s, key, cancelled, guard, fault, id, stream)
              == (AddUser(Hit(s.(clock := s.clock + 1), key), key, id, stream), Leased)
    ensures key !in s.entries ==>
              var (loaded, o) := Load(c, s.(clock := s.clock + 1, misses := s.misses + 1), key, guard, fault, stream);
              Acquire(c, s, key, cancelled, guard, fault, id, stream)
              == (if o.Leased? && key in loaded.entries then (AddUser(loaded, key, id, stream), Leased)
                else (loaded, o))
  {
    hide Load, Hit, AddUser;
  }

  ghost predicate SameBlocks(s: State, s': State) {
    && s.device.kernels <= s'.device.kernels
    && forall k :: k in s.entries && k in s'.entries ==> SameBlock(s.entries[k], s'.entries[k])
  }

  lemma UserSameBlocks(s: State, t: State, key: Key, id: nat, stream: int)
    requires SameBlocks(s, t) && key in t.entries
    ensures SameBlocks(s, AddUser(t, key, id, stream))
  {
  }

  lemma HitSameBlocks(s: State, key: Key)
    requires key in s.entries
    ensures SameBlocks(s, Hit(s.(clock := s.clock + 1), key)) && key in Hit(s.(clock := s.clock + 1), key).entries
  {
  }

  lemma LoadSameBlocks(c: Config, s: State, key: Key, guard: bool, fault: Fault, stream: int)
    requires key in c.records && key.layer in s.regions && key !in s.entries
    ensures SameBlocks(s, Load(c, s.(clock := s.clock + 1, misses := s.misses + 1), key, guard, fault, stream).0)
  {
    LoadFacts(c, s.(clock := s.clock + 1, misses := s.misses + 1), key, guard, fault, stream);
    hide Load;
  }

  lemma EnterSameBlocks(c: Config, s: State, key: Key, cancelled: bool, guard: bool, fault: Fault, id: nat, stream: int)
    requires Inv(c, s)
    ensures SameBlocks(s, Acquire(c, s, key, cancelled, guard, fault, id, stream).0)
  {
    OrderCovers(c, s);
    hide Inv, Acquire, SameBlocks;
    if s.closed || key !in c.records || cancelled {
      RefusedSameBlocks(c, s, key, cancelled, guard, fault, id, stream);
    } else {
      AdmittedSameBlocks(c, s, key, guard, fault, id, stream);
    }
  }

  lemma RefusedSameBlocks(c: Config, s: State, key: Key, cancelled: bool, guard: bool, fault: Fault, id: nat,
                          stream: int)
    requires s.closed || key !in c.records || cancelled
    ensures SameBlocks(s, Acquire(c, s, key, cancelled, guard, fault, id, stream).0)
  {
    hide Load, Hit, AddUser;
  }

  lemma AdmittedSameBlocks(c: Config, s: State, key: Key, guard: bool, fault: Fault, id: nat, stream: int)
    requires !s.closed && key in c.records && key.layer in s.regions
    ensures SameBlocks(s, Acquire(c, s, key, false, guard, fault, id, stream).0)
  {
    AcquireIs(c, s, key, false, guard, fault, id, stream);
    hide Acquire, SameBlocks, Load, Hit, AddUser;
    if key in s.entries {
      HitSameBlocks(s, key);
      UserSameBlocks(s, Hit(s.(clock := s.clock + 1), key), key, id, stream);
    } else {
      LoadSameBlocks(c, s, key, guard, fault, stream);
      var (loaded, o) := Load(c, s.(clock := s.clock + 1, misses := s.misses + 1), key, guard, fault, stream);
      if o.Leased? && key in loaded.entries { UserSameBlocks(s, loaded, key, id, stream); }
    }
  }

  lemma StepSameBlocks(c: Config, s: State, l: Label)
    requires Inv(c, s)
    ensures SameBlocks(s, Step(c, s, l))
  {
    hide Inv, Acquire, EvictAll;
    match l {
      case Enter(key, cancelled, guard, fault, id, stream) =>
        EnterSameBlocks(c, s, key, cancelled, guard, fault, id, stream);
      case ClearAll => EvictAllShrinks(s, s.order);
      case Shutdown => EvictAllShrinks(s, s.order);
      case _ =>
    }
  }

  /**
   No step of any kind releases or overwrites bytes under an unfinished kernel: if a kernel is still unfinished after
   the step, the expert it reads is still resident, in the same block, with the same bytes.
   */
  lemma UnfinishedKernelsAreProtected(c: Config, s: State, l: Label, k: Kernel)
    requires Inv(c, s) && Enabled(s, l)
    requires k in s.device.kernels && !Finished(s.device, k) && !Finished(Step(c, s, l).device, k)
    ensures Protected(s, Step(c, s, l), k.key)
  {
    var s' := Step(c, s, l);
    StepKeeps(c, s, l);
    StepSameBlocks(c, s, l);
    StableByData(c, s, s');
    assert KernelOk(s.device, s.entries, s.leases, k);
    assert KernelOk(s'.device, s'.entries, s'.leases, k);
  }

  /** The same over every run from the empty cache, and the bytes are those of the kernel's own record. */
  lemma EveryRunFeedsKernelsTheirRecord(c: Config, arena: seq<Byte>, ls: seq<Label>, k: Kernel)
    requires ValidConfig(c) && |arena| == c.capacity && CanRun(c, Start(c, arena), ls)
    requires k in After(c, Start(c, arena), ls).device.kernels && !Finished(After(c, Start(c, arena), ls).device, k)
    ensures var s := After(c, Start(c, arena), ls);
            && k.key in s.entries && Holds(c, s.arena, k.key, s.entries[k.key])
            && (HeldBy(s.leases, k) || Guarded(s.entries[k.key], k))
  {
    StartKeeps(c, arena);
    RunKeeps(c, Start(c, arena), ls);
    var s := After(c, Start(c, arena), ls);
    assert KernelOk(s.device, s.entries, s.leases, k);
  }

  /******* Accounting *******/

  function EntryBlock(es: Entries, k: Key): Block
    requires k in es
  {
    Block(es[k].offset, es[k].size)
  }

  function BlockLen(b: Block): int { b.len }

  function Span(lo: int, hi: int): (s: set<int>)
    ensures forall x :: x in s <==> lo <= x < hi
    decreases hi - lo
  {
    if lo >= hi then {} else Span(lo, hi - 1) + {hi - 1}
  }

  lemma {:induction false} SpanSize(lo: int, hi: int)
    requires lo <= hi
    ensures |Span(lo, hi)| == hi - lo
    decreases hi - lo
  {
    if lo < hi { SpanSize(lo, hi - 1); }
  }

  lemma SubsetSize(a: set<int>, b: set<int>)
    requires a <= b
    ensures |a| <= |b|
  {
    assert b == a + (b - a);
  }

  /** The bytes of pairwise disjoint blocks below `cap`. */
  lemma {:induction false} DisjointBlocks(bs: seq<Block>, cap: int) returns (u: set<int>)
    requires forall i :: 0 <= i < |bs| ==> bs[i].len >= 0 && 0 <= bs[i].start && bs[i].End() <= cap
    requires forall i, j :: 0 <= i < j < |bs| ==> bs[i].End() <= bs[j].start || bs[j].End() <= bs[i].start
    ensures forall x :: x in u <==> InFree(bs, x)
    ensures |u| == SumOf(bs, BlockLen) && forall x :: x in u ==> 0 <= x < cap
  {
    if bs == [] {
      u := {};
    } else {
      var rest := bs[1..];
      var v := DisjointBlocks(rest, cap);
      var first := Span(bs[0].start, bs[0].End());
      SpanSize(bs[0].start, bs[0].End());
      u := first + v;
      forall x | x in v ensures x !in first {
        var i :| 0 <= i < |rest| && rest[i].Has(x);
        assert rest[i] == bs[i + 1];
      }
      assert first * v == {};
      forall x ensures x in u <==> InFree(bs, x) {
        if x in v {
          var i :| 0 <= i < |rest| && rest[i].Has(x);
          assert bs[i + 1].Has(x);
        }
        if x in first { assert bs[0].Has(x); }
        if InFree(bs, x) {
          var i :| 0 <= i < |bs| && bs[i].Has(x);
          if i > 0 { assert rest[i - 1].Has(x); }
        }
      }
    }
  }

  lemma {:induction false} SizesAsBlocks(c: Config, order: seq<Key>, bs: seq<Block>)
    requires |bs| == |order| && forall i :: 0 <= i < |order| ==>
               order[i] in c.records && bs[i].len == |c.records[order[i]]|
    ensures SumOf(order, RecordSize(c)) == SumOf(bs, BlockLen)
  {
    if order != [] { SizesAsBlocks(c, order[1..], bs[1..]); }
  }

  /**
   After every run: entries and allocated blocks correspond one to one, no two resident experts share a byte, and
   the resident total is the sum of the entries and at most the capacity.
   */
  lemma ResidentBytesAreExact(c: Config, arena: seq<Byte>, ls: seq<Label>)
    requires ValidConfig(c) && |arena| == c.capacity && CanRun(c, Start(c, arena), ls)
    ensures var s := After(c, Start(c, arena), ls);
            && Owns(c, s.regions, s.entries)
            && (forall k, q :: k in s.entries && q in s.entries && k != q ==>
                  s.entries[k].offset + s.entries[k].size <= s.entries[q].offset
                  || s.entries[q].offset + s.entries[q].size <= s.entries[k].offset)
            && s.resident == SumOf(s.order, RecordSize(c)) <= c.capacity
            && Distinct(s.order) && forall k :: k in s.order <==> k in s.entries
  {
    StartKeeps(c, arena);
    RunKeeps(c, Start(c, arena), ls);
    var s := After(c, Start(c, arena), ls);
    forall k, q | k in s.entries && q in s.entries && k != q
      ensures s.entries[k].offset + s.entries[k].size <= s.entries[q].offset
              || s.entries[q].offset + s.entries[q].size <= s.entries[k].offset
    {
      ExtentsDisjoint(c, s.regions, s.entries, k, q);
    }
    ResidentFits(c, s);
  }

  lemma ResidentFits(c: Config, s: State)
    requires Inv(c, s) && c.capacity >= 0
    ensures SumOf(s.order, RecordSize(c)) <= c.capacity
  {
    var bs := EntryBlocks(c, s);
    var u := DisjointBlocks(bs, c.capacity);
    SpanSize(0, c.capacity);
    SubsetSize(u, Span(0, c.capacity));
  }

  lemma OrderLists(c: Config, s: State)
    requires Inv(c, s)
    ensures Layout(c, s.regions) && Owns(c, s.regions, s.entries)
    ensures Distinct(s.order) && forall i :: 0 <= i < |s.order| ==> s.order[i] in s.entries
  {
    hide Layout, Owns, DataOk, UsersOk, DeviceOk;
    assert forall i :: 0 <= i < |s.order| ==> s.order[i] in s.order;
  }

  /** The blocks of the resident experts, in dictionary order. */
  lemma EntryBlocks(c: Config, s: State) returns (bs: seq<Block>)
    requires Inv(c, s)
    ensures SumOf(s.order, RecordSize(c)) == SumOf(bs, BlockLen)
    ensures forall i :: 0 <= i < |bs| ==> bs[i].len >= 0 && 0 <= bs[i].start && bs[i].End() <= c.capacity
    ensures forall i, j :: 0 <= i < j < |bs| ==> bs[i].End() <= bs[j].start || bs[j].End() <= bs[i].start
  {
    OrderLists(c, s);
    hide Inv;
    bs := BlocksOf(c, s.regions, s.entries, s.order);
  }

  lemma BlocksOf(c: Config, rs: Regions, es: Entries, order: seq<Key>) returns (bs: seq<Block>)
    requires Layout(c, rs) && Owns(c, rs, es)
    requires Distinct(order) && forall i :: 0 <= i < |order| ==> order[i] in es
    ensures SumOf(order, RecordSize(c)) == SumOf(bs, BlockLen)
    ensures forall i :: 0 <= i < |bs| ==> bs[i].len >= 0 && 0 <= bs[i].start && bs[i].End() <= c.capacity
    ensures forall i, j :: 0 <= i < j < |bs| ==> bs[i].End() <= bs[j].start || bs[j].End() <= bs[i].start
  {
    hide Layout, Owns;
    EntrySizes(c, rs, es);
    bs := seq(|order|, i requires 0 <= i < |order| => EntryBlock(es, order[i]));
    forall i | 0 <= i < |bs|
      ensures bs[i].len == |c.records[order[i]]| && bs[i].len >= 0 && 0 <= bs[i].start && bs[i].End() <= c.capacity
    {
      EntryExtent(c, rs, es, order[i]);
    }
    forall i, j | 0 <= i < j < |bs| ensures bs[i].End() <= bs[j].start || bs[j].End() <= bs[i].start {
      ExtentsDisjoint(c, rs, es, order[i], order[j]);
    }
    SizesAsBlocks(c, order, bs);
  }

  /******* Eviction *******/

  lemma {:induction false} CandidatesSame(s: State, s': State, layer: int, order: seq<Key>)
    requires forall k :: k in order ==> IsCandidate(s, layer, k) == IsCandidate(s', layer, k)
    ensures Candidates(s, layer, order) == Candidates(s', layer, order)
  {
    if order != [] {
      assert order[0] in order;
      CandidatesSame(s, s', layer, order[1..]);
    }
  }

  lemma {:induction false} RemoveAbsent(order: seq<Key>, key: Key)
    requires key !in order
    ensures Remove(order, key) == order
  {
    if order != [] { RemoveAbsent(order[1..], key); }
  }

  /** Evicting the first candidate leaves the other candidates, in the same order. */
  lemma {:induction false} CandidatesAfterEvict(s: State, s': State, layer: int, order: seq<Key>, key: Key)
    requires Distinct(order) && Candidates(s, layer, order) != [] && Candidates(s, layer, order)[0] == key
    requires forall k :: k in order && k != key ==> IsCandidate(s, layer, k) == IsCandidate(s', layer, k)
    ensures Candidates(s', layer, Remove(order, key)) == Candidates(s, layer, order)[1..]
  {
    var rest := order[1..];
    assert Distinct(rest) && order[0] !in rest;
    if IsCandidate(s, layer, order[0]) {
      RemoveAbsent(rest, key);
      CandidatesSame(s, s', layer, rest);
    } else {
      assert key in Candidates(s, layer, rest);
      CandidatesAfterEvict(s, s', layer, rest, key);
    }
  }

  lemma {:induction false} CandidatesAges(s: State, layer: int, order: seq<Key>)
    requires Ages(s.entries, order)
    ensures Ages(s.entries, Candidates(s, layer, order))
  {
    if order != [] {
      assert Ages(s.entries, order[1..]);
      CandidatesAges(s, layer, order[1..]);
      var rest := Candidates(s, layer, order[1..]);
      forall j | 0 <= j < |rest| ensures s.entries[order[0]].lastUse < s.entries[rest[j]].lastUse {
        assert rest[j] in rest;
        var i :| 0 <= i < |order[1..]| && order[1..][i] == rest[j];
        assert order[i + 1] == rest[j];
      }
    }
  }

  ghost predicate TooEarly(s: State, layer: int, n: int, cs: seq<Key>, m: nat) {
    forall j :: 0 <= j < m && j <= |cs| ==>
        layer in EvictAll(s, cs[..j]).regions && !Fits(EvictAll(s, cs[..j]), layer, n)
  }

  lemma EvictFacts(s: State, key: Key)
    requires Evictable(s, key)
    ensures var s' := Evict(s, key);
            && s'.entries == s.entries - {key} && s'.order == Remove(s.order, key)
            && s'.regions.Keys == s.regions.Keys
            && forall l :: l in s.regions ==> s'.regions[l].size == s.regions[l].size
  {}

  /** One turn of the eviction loop. */
  lemma EvictionTurn(c: Config, s: State, layer: int, n: int)
    requires Inv(c, s) && layer in s.regions && !Fits(s, layer, n) && Candidates(s, layer, s.order) != []
    ensures var cs := Candidates(s, layer, s.order);
            && Evictable(s, cs[0]) && Inv(c, Evict(s, cs[0])) && layer in Evict(s, cs[0]).regions
            && |Evict(s, cs[0]).order| < |s.order|
            && Candidates(Evict(s, cs[0]), layer, Evict(s, cs[0]).order) == cs[1..]
            && MakeRoom(s, layer, n) == MakeRoom(Evict(s, cs[0]), layer, n)
  {
    var cs := Candidates(s, layer, s.order);
    assert Distinct(s.order);
    assert cs[0] in cs;
    EvictKeeps(c, s, cs[0]);
    hide Inv, Evict, Fits, Ages, Distinct;
    EvictFacts(s, cs[0]);
    CandidatesAfterEvict(s, Evict(s, cs[0]), layer, s.order, cs[0]);
  }

  lemma CandidateAges(c: Config, s: State, layer: int)
    requires Inv(c, s)
    ensures Ages(s.entries, Candidates(s, layer, s.order))
  {
    CandidatesAges(s, layer, s.order);
  }

  /**
   The eviction loop takes the unleased experts of the layer oldest use first, stops at the first moment the record
   fits, and gives up only when all of them are gone.
   */
  lemma {:induction false} EvictsOldestFirst(c: Config, s: State, layer: int, n: int) returns (m: nat)
    requires Inv(c, s) && layer in s.regions
    ensures var cs := Candidates(s, layer, s.order);
            && m <= |cs| && MakeRoom(s, layer, n) == EvictAll(s, cs[..m]) && TooEarly(s, layer, n, cs, m)
            && (Fits(MakeRoom(s, layer, n), layer, n) || m == |cs|)
            && Ages(s.entries, cs)
    decreases |s.order|
  {
    hide Inv, Evict, Fits, Ages, Candidates, Evictable;
    var cs := Candidates(s, layer, s.order);
    CandidateAges(c, s, layer);
    assert cs[..0] == [];
    if Fits(s, layer, n) || cs == [] {
      m := 0;
    } else {
      EvictionTurn(c, s, layer, n);
      hide MakeRoom, TooEarly;
      var m' := EvictsOldestFirst(c, Evict(s, cs[0]), layer, n);
      m := m' + 1;
      assert cs[..m][0] == cs[0] && cs[..m][1..] == cs[1..][..m'];
      TooEarlyStep(s, layer, n, cs, m');
    }
  }

  lemma TooEarlyStep(s: State, layer: int, n: int, cs: seq<Key>, m: nat)
    requires cs != [] && Evictable(s, cs[0]) && layer in s.regions && !Fits(s, layer, n)
    requires TooEarly(Evict(s, cs[0]), layer, n, cs[1..], m)
    ensures TooEarly(s, layer, n, cs, m + 1)
  {
    hide Evict, Fits;
    forall j | 0 <= j < m + 1 && j <= |cs|
      ensures layer in EvictAll(s, cs[..j]).regions && !Fits(EvictAll(s, cs[..j]), layer, n)
    {
      if j > 0 { assert cs[..j][1..] == cs[1..][..j - 1]; }
    }
  }

  lemma {:induction false} StuckMeansNoCandidates(c: Config, s: State, layer: int, n: int)
    requires Inv(c, s) && layer in s.regions && !Fits(MakeRoom(s, layer, n), layer, n)
    ensures var r := MakeRoom(s, layer, n); Inv(c, r) && Candidates(r, layer, r.order) == []
    decreases |s.order|
  {
    var cs := Candidates(s, layer, s.order);
    if !Fits(s, layer, n) && cs != [] {
      assert cs[0] in cs;
      EvictKeeps(c, s, cs[0]);
      StuckMeansNoCandidates(c, Evict(s, cs[0]), layer, n);
    }
  }

  /** A layer without resident experts is one whole block. */
  lemma EmptyLayerFits(c: Config, s: State, layer: int, n: int)
    requires Inv(c, s) && layer in s.regions && 0 < n <= s.regions[layer].size
    requires forall k :: k in s.entries ==> k.layer != layer
    ensures Fits(s, layer, n)
  {
    var r := s.regions[layer];
    assert forall o :: o in r.used ==> exists k :: Owner(s.entries, layer, o, k);
    assert r.used == map[];
    EmptyRegionIsWhole(r, n);
  }

  /**
   `CacheBusy` is raised only if some expert of the same layer is leased; with no such lease the load always gets its
   block, whatever the layer holds.
   */
  lemma BusyOnlyUnderASameLayerLease(c: Config, s: State, key: Key)
    requires Inv(c, s) && key in c.records
    ensures var n := |c.records[key]|;
            !Fits(MakeRoom(s, key.layer, n), key.layer, n) ==>
              exists k :: k in s.entries && k.layer == key.layer && s.entries[k].users > 0
                          && k in MakeRoom(s, key.layer, n).entries
  {
    var n := |c.records[key]|;
    var r := MakeRoom(s, key.layer, n);
    if !Fits(r, key.layer, n) {
      StuckMeansNoCandidates(c, s, key.layer, n);
      MakeRoomShrinks(s, key.layer, n);
      MakeRoomSizes(c, s, key.layer, n);
      if forall k :: k in r.entries ==> k.layer != key.layer {
        EmptyLayerFits(c, r, key.layer, n);
      } else {
        var k :| k in r.entries && k.layer == key.layer;
        assert k in r.order;
        assert k !in Candidates(r, key.layer, r.order);
        assert k in s.entries && s.entries[k].users > 0;
      }
    }
  }

  lemma {:induction false} MakeRoomSizes(c: Config, s: State, layer: int, n: int)
    requires Inv(c, s) && layer in s.regions
    ensures MakeRoom(s, layer, n).regions.Keys == s.regions.Keys
    ensures MakeRoom(s, layer, n).regions[layer].size == s.regions[layer].size
    decreases |s.order|
  {
    hide Layout, Owns, DataOk, UsersOk, DeviceOk, Fits, Evict, Inv;
    var cs := Candidates(s, layer, s.order);
    if !Fits(s, layer, n) && cs != [] {
      assert cs[0] in cs;
      EvictKeeps(c, s, cs[0]);
      EvictFacts(s, cs[0]);
      MakeRoomSizes(c, Evict(s, cs[0]), layer, n);
    }
  }

  /******* Leases *******/

  /** A granted lease reads exactly its record, is the youngest entry of the cache, and has a user more than before. */
  lemma LeaseHoldsItsRecord(c: Config, s: State, key: Key, cancelled: bool, guard: bool, fault: Fault, id: nat,
                            stream: int)
    requires Inv(c, s) && id !in s.leases
    requires Acquire(c, s, key, cancelled, guard, fault, id, stream).1.Leased?
    ensures var s' := Acquire(c, s, key, cancelled, guard, fault, id, stream).0;
            && key in s'.entries && Holds(c, s'.arena, key, s'.entries[key])
            && s'.leases == s.leases[id := Lease(key, stream)]
            && s'.entries[key].users == |LeasesOf(s.leases, key)| + 1
            && s'.entries[key].lastUse == s'.clock == s.clock + 1
  {
    AcquireKeeps(c, s, key, cancelled, guard, fault, id, stream);
    var s' := Acquire(c, s, key, cancelled, guard, fault, id, stream).0;
    LeaseAdded(s.leases, id, key, stream);
    AcquireRecords(c, s, key, cancelled, guard, fault, id, stream);
    EntryFacts(c, s', key);
  }

  lemma EntryFacts(c: Config, s: State, k: Key)
    requires Inv(c, s) && k in s.entries
    ensures Holds(c, s.arena, k, s.entries[k]) && s.entries[k].users == |LeasesOf(s.leases, k)|
  {}

  lemma AcquireRecords(c: Config, s: State, key: Key, cancelled: bool, guard: bool, fault: Fault, id: nat, stream: int)
    requires Inv(c, s) && Acquire(c, s, key, cancelled, guard, fault, id, stream).1.Leased?
    ensures var s' := Acquire(c, s, key, cancelled, guard, fault, id, stream).0;
            && key in s'.entries && s'.leases == s.leases[id := Lease(key, stream)]
            && s'.entries[key].lastUse == s'.clock == s.clock + 1
  {
    assert key in c.records && key.layer in s.regions;
    AcquireIs(c, s, key, cancelled, guard, fault, id, stream);
    hide Inv, Load, Acquire;
    if key !in s.entries {
      LoadFacts(c, s.(clock := s.clock + 1, misses := s.misses + 1), key, guard, fault, stream);
    }
  }

  /** A refused or failed lease leaves the leases alone and removes at most unleased experts of its own layer. */
  lemma RefusedLeaseOnlyEvicts(c: Config, s: State, key: Key, cancelled: bool, guard: bool, fault: Fault, id: nat,
                               stream: int)
    requires Inv(c, s) && id !in s.leases
    requires !Acquire(c, s, key, cancelled, guard, fault, id, stream).1.Leased?
    ensures var s' := Acquire(c, s, key, cancelled, guard, fault, id, stream).0;
            && s'.leases == s.leases && s'.entries.Keys <= s.entries.Keys
            && (forall k :: k in s'.entries ==> s'.entries[k] == s.entries[k])
            && (forall k :: k in s.entries && (k.layer != key.layer || s.entries[k].users > 0) ==> k in s'.entries)
  {
    if !s.closed && key in c.records && !cancelled {
      assert key.layer in s.regions;
      AcquireIs(c, s, key, cancelled, guard, fault, id, stream);
      hide Inv, Load, Acquire;
      if key !in s.entries {
        LoadFacts(c, s.(clock := s.clock + 1, misses := s.misses + 1), key, guard, fault, stream);
      }
    }
  }
}
