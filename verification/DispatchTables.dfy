/**
 The dispatch tables built once after the weights are loaded (src/vllm_exl3/exl3.py, `build_exl3_fused_state`): the
 groups of experts with equal bit widths, their packed renumbering, and the widest-first expert order.
 */
module DispatchTables {
  import opened Dispatch
  import opened Sequences

  /** Bit widths of an expert's gate, up and down projections. */
  datatype Widths = Widths(gate: nat, up: nat, down: nat)

  datatype Group = Group(k: Widths, ids: seq<nat>)

  /** The order in which Python sorts tuples. */
  predicate Less(a: Widths, b: Widths) {
    a.gate < b.gate || (a.gate == b.gate && (a.up < b.up || (a.up == b.up && a.down < b.down)))
  }

  /** The experts of width `k`, in ascending order. */
  function Members(ks: seq<Widths>, k: Widths): (ids: seq<nat>)
    ensures forall e: nat :: e in ids <==> e < |ks| && ks[e] == k
    ensures forall i, j :: 0 <= i < j < |ids| ==> ids[i] < ids[j]
  {
    if ks == [] then []
    else
      var last: nat := |ks| - 1;
      var init := Members(ks[..last], k);
      assert forall e: nat :: e in init <==> e < last && ks[..last][e] == k;
      assert forall i :: 0 <= i < |init| ==> init[i] in init;
      if ks[last] == k then init + [last] else init
  }

  ghost predicate Has(groups: seq<Group>, k: Widths) {
    exists g :: 0 <= g < |groups| && groups[g].k == k
  }

  ghost predicate Ascending(groups: seq<Group>) {
    forall i, j :: 0 <= i < j < |groups| ==> Less(groups[i].k, groups[j].k)
  }

  ghost predicate GroupsOk(groups: seq<Group>, ks: seq<Widths>) {
    && Ascending(groups)
    && (forall g :: 0 <= g < |groups| ==> groups[g].k in ks && groups[g].ids == Members(ks, groups[g].k))
    && forall k :: k in ks ==> Has(groups, k)
  }

  ghost predicate BucketsOk(buckets: map<Widths, seq<nat>>, ks: seq<Widths>) {
    && (forall k :: k in buckets <==> k in ks)
    && forall k :: k in buckets ==> buckets[k] == Members(ks, k)
  }

  method BuildGroups(ks: seq<Widths>) returns (groups: seq<Group>)
    ensures GroupsOk(groups, ks)
  {
    hide BucketsOk, GroupsOk, Members;
    var buckets: map<Widths, seq<nat>> := map[];
    NoBuckets();
    assert ks[..0] == [];
    for e := 0 to |ks|
      invariant BucketsOk(buckets, ks[..e])
    {
      var k := ks[e];
      BucketStep(buckets, ks, e);
      buckets := buckets[k := (if k in buckets then buckets[k] else []) + [e]];
    }
    assert ks[..|ks|] == ks;
    groups := SortBuckets(buckets);
    BucketsAreGroups(buckets, groups, ks);
  }

  lemma NoBuckets()
    ensures BucketsOk(map[], [])
  {
  }

  lemma BucketsAreGroups(buckets: map<Widths, seq<nat>>, groups: seq<Group>, ks: seq<Widths>)
    requires BucketsOk(buckets, ks) && Ascending(groups) && forall k :: k in buckets ==> Has(groups, k)
    requires forall g :: 0 <= g < |groups| ==> groups[g].k in buckets && groups[g].ids == buckets[groups[g].k]
    ensures GroupsOk(groups, ks)
  {
    hide Has, Members;
  }

  lemma BucketStep(buckets: map<Widths, seq<nat>>, ks: seq<Widths>, e: nat)
    requires e < |ks| && BucketsOk(buckets, ks[..e])
    ensures BucketsOk(buckets[ks[e] := (if ks[e] in buckets then buckets[ks[e]] else []) + [e]], ks[..e + 1])
  {
    assert ks[..e + 1] == ks[..e] + [ks[e]];
    assert ks[..e + 1][..e] == ks[..e];
    if ks[e] !in buckets { NoMembers(ks[..e], ks[e]); }
  }

  lemma NoMembers(ks: seq<Widths>, k: Widths)
    requires k !in ks
    ensures Members(ks, k) == []
  {
    var ids := Members(ks, k);
    assert forall i :: 0 <= i < |ids| ==> ids[i] in ids;
  }

  /** `sorted(groups.items())`: the keys are distinct, so the lists are never compared. */
  method SortBuckets(buckets: map<Widths, seq<nat>>) returns (groups: seq<Group>)
    ensures Ascending(groups)
    ensures forall g :: 0 <= g < |groups| ==> groups[g].k in buckets && groups[g].ids == buckets[groups[g].k]
    ensures forall k :: k in buckets ==> Has(groups, k)
  {
    var left := buckets.Keys;
    groups := [];
    while left != {}
      invariant left <= buckets.Keys && Ascending(groups)
      invariant forall g :: 0 <= g < |groups| ==> groups[g].k in buckets && groups[g].ids == buckets[groups[g].k]
      invariant forall g, k :: 0 <= g < |groups| && k in left ==> Less(groups[g].k, k)
      invariant forall k :: k in buckets && k !in left ==> Has(groups, k)
      decreases |left|
    {
      var k := Least(left);
      HasPush(groups, Group(k, buckets[k]));
      groups := groups + [Group(k, buckets[k])];
      left := left - {k};
    }
  }

  lemma HasPush(groups: seq<Group>, next: Group)
    ensures Has(groups + [next], next.k)
    ensures forall k :: Has(groups, k) ==> Has(groups + [next], k)
  {
    assert (groups + [next])[|groups|] == next;
    forall k | Has(groups, k) ensures Has(groups + [next], k) {
      var g :| 0 <= g < |groups| && groups[g].k == k;
      assert (groups + [next])[g].k == k;
    }
  }

  method Least(s: set<Widths>) returns (k: Widths)
    requires s != {}
    ensures k in s && forall q :: q in s && q != k ==> Less(k, q)
  {
    k :| k in s;
    var left := s - {k};
    while left != {}
      invariant left <= s && k in s && k !in left
      invariant forall q :: q in s - left && q != k ==> Less(k, q)
      decreases |left|
    {
      var q :| q in left;
      if Less(q, k) { k := q; }
      assert forall p :: p in s - (left - {q}) <==> p in s - left || p == q;
      left := left - {q};
    }
  }

  /******* Group ordinals *******/

  ghost predicate IndexOk(index: seq<int>, groups: seq<Group>, ks: seq<Widths>) {
    && |index| == |ks| + 1 && index[|ks|] == -1
    && forall e :: 0 <= e < |ks| ==> 0 <= index[e] < |groups| && groups[index[e]].k == ks[e]
  }

  /** Experts of the groups before `g` have their ordinal; nobody has a wrong one. */
  ghost predicate IndexedUpTo(index: seq<int>, groups: seq<Group>, ks: seq<Widths>, g: nat) {
    && |index| == |ks| + 1 && index[|ks|] == -1
    && forall e :: 0 <= e < |ks| ==>
         && (0 <= index[e] ==> index[e] < |groups| && groups[index[e]].k == ks[e])
         && (Has(groups[..if g <= |groups| then g else |groups|], ks[e]) ==> 0 <= index[e])
  }

  method BuildIndex(groups: seq<Group>, ks: seq<Widths>) returns (index: seq<int>)
    requires GroupsOk(groups, ks)
    ensures IndexOk(index, groups, ks)
  {
    hide GroupsOk, IndexedUpTo;
    index := seq(|ks| + 1, _ => -1);
    NothingIndexed(groups, ks, index);
    for g := 0 to |groups|
      invariant IndexedUpTo(index, groups, ks, g)
    {
      IndexGroup(index, groups, ks, g);
      index := Assign(index, groups[g].ids, g);
    }
    AllIndexed(index, groups, ks);
  }

  lemma NothingIndexed(groups: seq<Group>, ks: seq<Widths>, index: seq<int>)
    requires |index| == |ks| + 1 && forall e :: 0 <= e < |index| ==> index[e] == -1
    ensures IndexedUpTo(index, groups, ks, 0)
  {
  }

  lemma IndexGroup(index: seq<int>, groups: seq<Group>, ks: seq<Widths>, g: nat)
    requires GroupsOk(groups, ks) && IndexedUpTo(index, groups, ks, g) && g < |groups|
    ensures IndexedUpTo(Assign(index, groups[g].ids, g), groups, ks, g + 1)
  {
    assert forall e: nat :: e in groups[g].ids <==> e < |ks| && ks[e] == groups[g].k;
    assert groups[..g + 1] == groups[..g] + [groups[g]];
    forall k | Has(groups[..g + 1], k) ensures Has(groups[..g], k) || k == groups[g].k {
      var h :| 0 <= h < g + 1 && groups[..g + 1][h].k == k;
      if h < g { assert groups[..g][h].k == k; }
    }
  }

  lemma AllIndexed(index: seq<int>, groups: seq<Group>, ks: seq<Widths>)
    requires GroupsOk(groups, ks) && IndexedUpTo(index, groups, ks, |groups|)
    ensures IndexOk(index, groups, ks)
  {
    assert groups[..|groups|] == groups;
    forall e | 0 <= e < |ks| ensures Has(groups, ks[e]) { assert ks[e] in ks; }
  }

  /** `table[ids] = value` */
  function Assign(table: seq<int>, ids: seq<nat>, value: int): (r: seq<int>)
    ensures |r| == |table|
    ensures forall e :: 0 <= e < |table| ==> r[e] == if e in ids then value else table[e]
  {
    seq(|table|, e requires 0 <= e < |table| => if e in ids then value else table[e])
  }

  /******* Inverse permutations *******/

  /** `to[e]` is the place of `e` in `order`, and `order` lists every expert once. */
  ghost predicate Inverse(order: seq<nat>, to: seq<nat>, n: nat) {
    && |order| == n && n <= |to|
    && (forall i :: 0 <= i < n ==> order[i] < n && to[order[i]] == i)
    && forall e :: 0 <= e < n ==> to[e] < n && order[to[e]] == e
  }

  ghost predicate Covers(order: seq<nat>, n: nat) {
    && (forall i :: 0 <= i < |order| ==> order[i] < n)
    && (forall i, j :: 0 <= i < j < |order| ==> order[i] != order[j])
    && forall e :: 0 <= e < n ==> e in order
  }

  function UpTo(n: nat): (s: set<nat>)
    ensures |s| == n && forall e: nat :: e in s <==> e < n
  {
    if n == 0 then {} else UpTo(n - 1) + {n - 1}
  }

  /** A list of distinct experts that misses none has exactly `n` of them. */
  lemma CoverCount(order: seq<nat>, n: nat)
    requires Covers(order, n)
    ensures |order| == n
  {
    DistinctCount(order);
    assert Elements(order) == UpTo(n);
  }

  /** `table[order] = arange(n)` on a table of `fill` */
  method Invert(order: seq<nat>, n: nat, size: nat, fill: nat) returns (to: seq<nat>)
    requires Covers(order, n) && n <= size
    ensures |to| == size && Inverse(order, to, n) && forall e :: n <= e < size ==> to[e] == fill
  {
    CoverCount(order, n);
    to := seq(size, _ => fill);
    for i := 0 to n
      invariant |to| == size && (forall j :: 0 <= j < i ==> to[order[j]] == j)
      invariant forall e :: n <= e < size ==> to[e] == fill
    {
      to := to[order[i] := i];
    }
    forall e | 0 <= e < n ensures to[e] < n && order[to[e]] == e {
      assert e in order;
      var i :| 0 <= i < |order| && order[i] == e;
    }
  }

  /******* Packed renumbering *******/

  datatype Packed = Packed(order: seq<nat>, ranges: seq<(nat, nat)>, pid: seq<nat>)

  /** First packed id of group `g`; one past the last id for `g == |ranges|`. */
  function Start(ranges: seq<(nat, nat)>, g: nat): nat
    requires g <= |ranges|
  {
    if g == 0 then 0 else ranges[g - 1].1
  }

  /** The packed ids below `Start(ranges, |ranges|)` are cut, in group order, into ranges of equal width. */
  ghost predicate RangesOk(ranges: seq<(nat, nat)>, order: seq<nat>, groups: seq<Group>, ks: seq<Widths>) {
    && |ranges| <= |groups| && Start(ranges, |ranges|) == |order|
    && (forall i :: 0 <= i < |order| ==> order[i] < |ks|)
    && (forall g :: 0 <= g < |ranges| ==> ranges[g].0 == Start(ranges, g) && ranges[g].0 <= ranges[g].1 <= |order|)
    && forall g, i :: 0 <= g < |ranges| && ranges[g].0 <= i < ranges[g].1 ==> ks[order[i]] == groups[g].k
  }

  ghost predicate PackedOk(p: Packed, groups: seq<Group>, ks: seq<Widths>) {
    && |p.pid| == |ks| + 1 && p.pid[|ks|] == |ks| && Inverse(p.order, p.pid, |ks|)
    && |p.ranges| == |groups| && RangesOk(p.ranges, p.order, groups, ks)
  }

  /** The list so far holds exactly the experts of the first `g` groups, without repetition. */
  ghost predicate Listed(order: seq<nat>, groups: seq<Group>, ks: seq<Widths>, g: nat)
    requires g <= |groups|
  {
    && (forall i :: 0 <= i < |order| ==> order[i] < |ks| && Has(groups[..g], ks[order[i]]))
    && (forall i, j :: 0 <= i < j < |order| ==> order[i] != order[j])
    && forall e :: 0 <= e < |ks| && Has(groups[..g], ks[e]) ==> e in order
  }

  method BuildPacked(groups: seq<Group>, ks: seq<Widths>) returns (p: Packed)
    requires GroupsOk(groups, ks)
    ensures PackedOk(p, groups, ks)
  {
    hide Listed, RangesOk, GroupsOk, Covers, Inverse;
    var order: seq<nat>, ranges: seq<(nat, nat)> := [], [];
    NothingListed(groups, ks);
    for g := 0 to |groups|
      invariant |ranges| == g && Listed(order, groups, ks, g) && RangesOk(ranges, order, groups, ks)
    {
      var ids := groups[g].ids;
      Extend(order, groups, ks, g);
      ExtendRanges(ranges, order, groups, ks);
      ranges := ranges + [(|order|, |order| + |ids|)];
      order := order + ids;
    }
    AllListed(order, groups, ks);
    CoverCount(order, |ks|);
    var pid := Invert(order, |ks|, |ks| + 1, |ks|);
    p := Packed(order, ranges, pid);
  }

  lemma NothingListed(groups: seq<Group>, ks: seq<Widths>)
    ensures Listed([], groups, ks, 0) && RangesOk([], [], groups, ks)
  {
  }

  lemma AllListed(order: seq<nat>, groups: seq<Group>, ks: seq<Widths>)
    requires GroupsOk(groups, ks) && Listed(order, groups, ks, |groups|)
    ensures Covers(order, |ks|)
  {
    assert groups[..|groups|] == groups;
    forall e | 0 <= e < |ks| ensures e in order { assert ks[e] in ks; }
  }

  lemma ExtendRanges(ranges: seq<(nat, nat)>, order: seq<nat>, groups: seq<Group>, ks: seq<Widths>)
    requires GroupsOk(groups, ks) && RangesOk(ranges, order, groups, ks) && |ranges| < |groups|
    ensures var ids := groups[|ranges|].ids;
            RangesOk(ranges + [(|order|, |order| + |ids|)], order + ids, groups, ks)
  {
    hide GroupsOk, Start;
    var ids := groups[|ranges|].ids;
    GroupWidth(groups, ks, |ranges|);
    ExtendStarts(ranges, order, groups, ks, |ids|);
    ExtendWidths(ranges, order, groups, ks, ids);
    assert |order + ids| == |order| + |ids|;
  }

  /** The ranges follow each other. */
  lemma ExtendStarts(ranges: seq<(nat, nat)>, order: seq<nat>, groups: seq<Group>, ks: seq<Widths>, n: nat)
    requires RangesOk(ranges, order, groups, ks)
    ensures var next := ranges + [(|order|, |order| + n)];
            Start(next, |next|) == |order| + n && forall g :: 0 <= g < |next| ==> next[g].0 == Start(next, g)
  {
    var next := ranges + [(|order|, |order| + n)];
    NextStart(ranges, (|order|, |order| + n));
    hide Start;
    forall g | 0 <= g < |next| ensures next[g].0 == Start(next, g) {
      if g < |ranges| { assert next[g] == ranges[g] && ranges[g].0 == Start(ranges, g); }
    }
  }

  /** Every expert of every range has its group's width. */
  lemma ExtendWidths(ranges: seq<(nat, nat)>, order: seq<nat>, groups: seq<Group>, ks: seq<Widths>, ids: seq<nat>)
    requires RangesOk(ranges, order, groups, ks) && |ranges| < |groups|
    requires forall i :: 0 <= i < |ids| ==> ids[i] < |ks| && ks[ids[i]] == groups[|ranges|].k
    ensures var next := ranges + [(|order|, |order| + |ids|)];
            && (forall i :: 0 <= i < |order + ids| ==> (order + ids)[i] < |ks|)
            && (forall g :: 0 <= g < |next| ==> next[g].0 <= next[g].1 <= |order + ids|)
            && forall g, i :: 0 <= g < |next| && next[g].0 <= i < next[g].1 ==> ks[(order + ids)[i]] == groups[g].k
  {
    hide Start;
    var next := ranges + [(|order|, |order| + |ids|)];
    forall g, i | 0 <= g < |next| && next[g].0 <= i < next[g].1 ensures ks[(order + ids)[i]] == groups[g].k {
      if g == |ranges| {
        assert (order + ids)[i] == ids[i - |order|];
      } else {
        assert next[g] == ranges[g] && ranges[g].1 <= |order| && (order + ids)[i] == order[i];
      }
    }
  }

  lemma NextStart(ranges: seq<(nat, nat)>, last: (nat, nat))
    ensures Start(ranges + [last], |ranges| + 1) == last.1
    ensures forall g :: 0 <= g <= |ranges| ==> Start(ranges + [last], g) == Start(ranges, g)
  {
  }

  lemma GroupWidth(groups: seq<Group>, ks: seq<Widths>, g: nat)
    requires GroupsOk(groups, ks) && g < |groups|
    ensures forall i :: 0 <= i < |groups[g].ids| ==> groups[g].ids[i] < |ks| && ks[groups[g].ids[i]] == groups[g].k
  {
    assert forall i :: 0 <= i < |groups[g].ids| ==> groups[g].ids[i] in groups[g].ids;
  }

  /** Appending the next group keeps the list free of repetitions, since no earlier group has its width. */
  lemma Extend(order: seq<nat>, groups: seq<Group>, ks: seq<Widths>, g: nat)
    requires GroupsOk(groups, ks) && g < |groups| && Listed(order, groups, ks, g)
    ensures Listed(order + groups[g].ids, groups, ks, g + 1)
  {
    var ids := groups[g].ids;
    assert forall i :: 0 <= i < |ids| ==> ids[i] in ids;
    assert groups[..g + 1] == groups[..g] + [groups[g]];
    HasPush(groups[..g], groups[g]);
    forall i, j | 0 <= i < |order| && 0 <= j < |ids| ensures order[i] != ids[j] {
      var h :| 0 <= h < g && groups[..g][h].k == ks[order[i]];
      assert Less(groups[h].k, groups[g].k);
    }
    forall e | 0 <= e < |ks| && Has(groups[..g + 1], ks[e]) ensures e in order + ids {
      var h :| 0 <= h < g + 1 && groups[..g + 1][h].k == ks[e];
      if h < g { assert groups[..g][h].k == ks[e]; }
    }
  }

  /******* Widest first *******/

  function Widest(k: Widths): nat {
    var a := if k.gate < k.up then k.up else k.gate;
    if a < k.down then k.down else a
  }

  function WidestKeys(ks: seq<Widths>): (keys: seq<int>)
    ensures |keys| == |ks| && forall e :: 0 <= e < |ks| ==> keys[e] == 0 - Widest(ks[e])
  {
    seq(|ks|, e requires 0 <= e < |ks| => 0 - Widest(ks[e]))
  }

  datatype Ranking = Ranking(kdesc: seq<nat>, krank: seq<nat>)

  ghost predicate RankingOk(r: Ranking, ks: seq<Widths>) {
    && |r.krank| == |ks| && Inverse(r.kdesc, r.krank, |ks|)
    && forall i, j :: 0 <= i < j < |ks| ==>
         Widest(ks[r.kdesc[i]]) > Widest(ks[r.kdesc[j]])
         || (Widest(ks[r.kdesc[i]]) == Widest(ks[r.kdesc[j]]) && r.kdesc[i] < r.kdesc[j])
  }

  method BuildRanking(ks: seq<Widths>) returns (r: Ranking)
    ensures RankingOk(r, ks)
  {
    var kdesc := StableArgSort(WidestKeys(ks));
    PermutesCovers(kdesc, |ks|);
    var krank := Invert(kdesc, |ks|, |ks|, 0);
    r := Ranking(kdesc, krank);
  }

  lemma PermutesCovers(order: seq<nat>, n: nat)
    requires Permutes(order, n)
    ensures Covers(order, n)
  {
    forall e | 0 <= e < n ensures e in order {
      assert Iota(n)[e] == e;
      assert e in multiset(Iota(n));
    }
    forall i, j | 0 <= i < j < n ensures order[i] != order[j] {
      if order[i] == order[j] {
        TwiceCounted(order, i, j);
        IotaOnce(n, order[i]);
      }
    }
  }

  lemma TwiceCounted(s: seq<nat>, i: nat, j: nat)
    requires i < j < |s| && s[i] == s[j]
    ensures multiset(s)[s[i]] >= 2
  {
    assert s == s[..j] + s[j..];
    assert s[..j][i] == s[i] && s[j..][0] == s[i];
  }

  lemma {:induction false} IotaOnce(n: nat, e: nat)
    ensures multiset(Iota(n))[e] <= 1
    ensures multiset(Iota(n))[e] == 1 ==> e < n
  {
    if n > 0 {
      assert Iota(n) == Iota(n - 1) + [n - 1];
      IotaOnce(n - 1, e);
    } else {
      assert Iota(0) == [];
    }
  }

  /** With one width for all experts, widest-first is the order by id: the kernel's default walk. */
  lemma {:induction false} EqualWidthsKeepIdOrder(r: Ranking, ks: seq<Widths>)
    requires RankingOk(r, ks) && forall e :: 0 <= e < |ks| ==> ks[e] == ks[0]
    ensures r.kdesc == Iota(|ks|) && r.krank == Iota(|ks|)
  {
    forall i | 0 <= i < |ks| ensures r.kdesc[i] == i {
      AscendingAtLeast(r.kdesc, i);
      DescendingAtMost(r.kdesc, |ks|, i);
    }
    forall e | 0 <= e < |ks| ensures r.krank[e] == e {
      assert r.krank[r.kdesc[e]] == e;
    }
  }

  lemma {:induction false} AscendingAtLeast(s: seq<nat>, i: nat)
    requires i < |s| && forall a, b :: 0 <= a < b < |s| ==> s[a] < s[b]
    ensures i <= s[i]
  {
    if i > 0 { AscendingAtLeast(s, i - 1); }
  }

  lemma {:induction false} DescendingAtMost(s: seq<nat>, n: nat, i: nat)
    requires i < |s| == n && (forall a, b :: 0 <= a < b < |s| ==> s[a] < s[b]) && forall a :: 0 <= a < n ==> s[a] < n
    ensures s[i] <= i
    decreases n - i
  {
    if i < n - 1 { DescendingAtMost(s, n, i + 1); }
  }
}
