/**
 The launches of a mixed-width layer (src/vllm_exl3/exl3.py, `apply_exl3_fused_moe`): one launch over all experts in
 id order or widest first, one launch per width group over masked routes, or one launch per width group over shared,
 renumbered routes.  Each is a method; each is shown to add the same thing.
 */
module DispatchLaunches {
  import opened Arithmetic
  import opened Sums
  import opened Dispatch
  import opened DispatchTables

  /** What an expert adds when its packed weights are decoded at the given widths. */
  type Kernel = (Widths, nat, Row) -> int

  /** Every expert decoded at its own widths. */
  function Plain(ks: seq<Widths>, kern: Kernel): Expert {
    (e: nat, row: Row) => if e < |ks| then kern(ks[e], e, row) else 0
  }

  /** Every expert decoded at one scalar width, as a group launch does. */
  function AtWidth(k: Widths, kern: Kernel): Expert {
    (e: nat, row: Row) => kern(k, e, row)
  }

  /** What a route adds to token `t` when `keep` wants its expert. */
  function Part(x: seq<Row>, f: Expert, n: nat, keep: nat -> bool, t: nat): Route -> int {
    (r: Route) => if r.token == t && t < |x| && r.expert < n && keep(r.expert) then r.weight * f(r.expert, x[t]) else 0
  }

  /** `after` is `before` plus every route whose expert `keep` wants, exactly once. */
  ghost predicate Adds(before: seq<int>, after: seq<int>, x: seq<Row>, f: Expert, n: nat, rs: seq<Route>,
                       keep: nat -> bool)
  {
    |after| == |before| && forall t :: 0 <= t < |before| ==> after[t] == before[t] + SumOf(rs, Part(x, f, n, keep, t))
  }

  /** Experts whose rows fit the scratch of a launch. */
  function Fitting(rs: seq<Route>, rows: nat): nat -> bool {
    (e: nat) => CountOf(rs, e) <= rows
  }

  lemma {:induction false} CountedOnce(rs: seq<Route>, r: Route)
    requires r in rs
    ensures CountOf(rs, r.expert) >= 1
  {
    if rs[0] != r {
      CountedOnce(rs[1..], r);
    }
  }

  lemma SameKeep(before: seq<int>, after: seq<int>, x: seq<Row>, f: Expert, n: nat, rs: seq<Route>, keep: nat -> bool,
                 also: nat -> bool)
    requires Adds(before, after, x, f, n, rs, keep)
    requires forall r :: r in rs && r.expert < n ==> keep(r.expert) == also(r.expert)
    ensures Adds(before, after, x, f, n, rs, also)
  {
    forall t | 0 <= t < |before| ensures SumOf(rs, Part(x, f, n, keep, t)) == SumOf(rs, Part(x, f, n, also, t)) {
      SumEqual(rs, Part(x, f, n, keep, t), Part(x, f, n, also, t));
    }
  }

  lemma {:induction false} SumOfBoth(rs: seq<Route>, f: Route -> int, g: Route -> int, h: Route -> int)
    requires forall r :: r in rs ==> h(r) == f(r) + g(r)
    ensures SumOf(rs, h) == SumOf(rs, f) + SumOf(rs, g)
  {
    if rs != [] {
      assert rs[0] in rs;
      SumOfBoth(rs[1..], f, g, h);
    }
  }

  /** Two accumulations over disjoint sets of experts are one over their union. */
  lemma AddsThenAdds(a: seq<int>, b: seq<int>, c: seq<int>, x: seq<Row>, f: Expert, n: nat, rs: seq<Route>,
                     first: nat -> bool, second: nat -> bool, both: nat -> bool)
    requires Adds(a, b, x, f, n, rs, first) && Adds(b, c, x, f, n, rs, second)
    requires forall r :: r in rs && r.expert < n ==>
               !(first(r.expert) && second(r.expert)) && both(r.expert) == (first(r.expert) || second(r.expert))
    ensures Adds(a, c, x, f, n, rs, both)
  {
    forall t | 0 <= t < |a| ensures c[t] == a[t] + SumOf(rs, Part(x, f, n, both, t)) {
      SumOfBoth(rs, Part(x, f, n, first, t), Part(x, f, n, second, t), Part(x, f, n, both, t));
    }
  }

  /******* Rewritten routes *******/

  function Rewrite(rs: seq<Route>, m: Route -> Route): (r: seq<Route>)
    ensures |r| == |rs| && forall i :: 0 <= i < |rs| ==> r[i] == m(rs[i])
  {
    seq(|rs|, i requires 0 <= i < |rs| => m(rs[i]))
  }

  lemma {:induction false} RewriteSum(rs: seq<Route>, m: Route -> Route, g: Route -> int, h: Route -> int)
    requires forall r :: r in rs ==> h(r) == g(m(r))
    ensures SumOf(Rewrite(rs, m), g) == SumOf(rs, h)
  {
    if rs != [] {
      assert rs[0] in rs;
      assert Rewrite(rs, m)[1..] == Rewrite(rs[1..], m);
      RewriteSum(rs[1..], m, g, h);
    }
  }

  /** `masked_fill`: a masked route keeps its place with the sentinel id and weight zero. */
  function Masked(n: nat, keep: nat -> bool): Route -> Route {
    (r: Route) => if keep(r.expert) then r else Route(r.token, n, 0)
  }

  lemma MaskedCount(rs: seq<Route>, n: nat, keep: nat -> bool, e: nat)
    requires e < n
    ensures CountOf(Rewrite(rs, Masked(n, keep)), e) == if keep(e) then CountOf(rs, e) else 0
  {
    var m := Masked(n, keep);
    CountIsSum(Rewrite(rs, m), e);
    CountIsSum(rs, e);
    if keep(e) {
      RewriteSum(rs, m, Is(e), Is(e));
    } else {
      var zero := (r: Route) => 0;
      RewriteSum(rs, m, Is(e), zero);
      SumZero(rs, zero);
    }
  }

  /** Accumulating masked routes is accumulating the unmasked experts. */
  lemma MaskedAdds(before: seq<int>, after: seq<int>, x: seq<Row>, f: Expert, n: nat, rs: seq<Route>, mask: nat -> bool,
                   keep: nat -> bool, both: nat -> bool)
    requires Adds(before, after, x, f, n, Rewrite(rs, Masked(n, mask)), keep)
    requires forall r :: r in rs && r.expert < n ==> both(r.expert) == (mask(r.expert) && keep(r.expert))
    ensures Adds(before, after, x, f, n, rs, both)
  {
    forall t | 0 <= t < |before| ensures after[t] == before[t] + SumOf(rs, Part(x, f, n, both, t)) {
      RewriteSum(rs, Masked(n, mask), Part(x, f, n, keep, t), Part(x, f, n, both, t));
    }
  }

  lemma MaskedOk(rs: seq<Route>, n: nat, keep: nat -> bool, tokens: nat)
    requires RoutesOk(rs, n, tokens)
    ensures RoutesOk(Rewrite(rs, Masked(n, keep)), n, tokens)
  {
  }

  /******* One launch *******/

  function ById(): nat -> int {
    (e: nat) => e as int
  }

  lemma IdWalkOk(n: nat)
    ensures WalkOk(Iota(n), n, ById())
  {
    forall e | 0 <= e < n ensures e in Iota(n) { assert Iota(n)[e] == e; }
  }

  /** A launch's expert band adds the fitting experts of its range, each decoded as the launch decodes it. */
  lemma BandSum(x: seq<Row>, f: Expert, g: Expert, n: nat, lo: nat, hi: nat, rows: nat, rs: seq<Route>,
                keep: nat -> bool, t: nat)
    requires forall e: nat, row: Row :: e < n && keep(e) ==> f(e, row) == g(e, row)
    requires forall r :: r in rs && r.expert < n ==>
               keep(r.expert) == (lo <= r.expert < hi && CountOf(rs, r.expert) <= rows)
    ensures SumOf(rs, Term(x, g, Iota(n), Band(Counts(rs, n), n, lo, hi, rows), t)) == SumOf(rs, Part(x, f, n, keep, t))
  {
    var take := Band(Counts(rs, n), n, lo, hi, rows);
    forall r | r in rs && r.expert < n ensures take[r.expert] == keep(r.expert) {
      CountedOnce(rs, r);
    }
    SumEqual(rs, Term(x, g, Iota(n), take, t), Part(x, f, n, keep, t));
  }

  /** `exl3_moe` over every expert, rows sorted by local id. */
  method LaunchById(x: seq<Row>, g: Expert, n: nat, rs: seq<Route>, rows: nat, out: seq<int>) returns (r: seq<int>)
    requires RoutesOk(rs, n, |out|) && |x| == |out|
    ensures Adds(out, r, x, g, n, rs, Fitting(rs, rows))
  {
    var order := ArgSort(KeysOf(rs, ById()));
    IdWalkOk(n);
    LaunchIsReady(rs, n, ById(), Iota(n), order, |out|);
    var counts := Counts(rs, n);
    var take := Band(counts, n, 0, n, rows);
    WalkFits(Gather(rs, order), counts, Iota(n), n, ById());
    r := Segments(x, g, Iota(n), counts, take, Iota(n), Cells(Gather(rs, order)), out);
    forall t | 0 <= t < |out| ensures r[t] == out[t] + SumOf(rs, Part(x, g, n, Fitting(rs, rows), t)) {
      LaunchSum(x, g, Iota(n), take, Iota(n), rs, out, n, ById(), order, t);
      BandSum(x, g, g, n, 0, n, rows, rs, Fitting(rs, rows), t);
    }
  }

  /******* Widest first *******/

  /** `kr_local * (n_exp + 1) + sl` */
  function ByRank(krank: seq<nat>, n: nat): nat -> int {
    (e: nat) => (if e < n && e < |krank| then krank[e] else n) * (n + 1) + e
  }

  lemma RankWalkOk(r: Ranking, ks: seq<Widths>)
    requires RankingOk(r, ks)
    ensures WalkOk(r.kdesc, |ks|, ByRank(r.krank, |ks|))
  {
    var n, key := |ks|, ByRank(r.krank, |ks|);
    forall p, q | 0 <= p < q < n ensures key(r.kdesc[p]) < key(r.kdesc[q]) {
      MulMono(p + 1, q, n + 1);
      assert (p + 1) * (n + 1) == p * (n + 1) + (n + 1);
    }
    forall p | 0 <= p < n ensures key(r.kdesc[p]) < key(n) {
      MulMono(p + 1, n, n + 1);
      assert (p + 1) * (n + 1) == p * (n + 1) + (n + 1);
    }
    forall e | 0 <= e < n ensures e in r.kdesc { assert r.kdesc[r.krank[e]] == e; }
  }

  /** The unified launch with `expert_order`: rows sorted by rank, the kernel walks `kdesc`. */
  method LaunchWidestFirst(x: seq<Row>, g: Expert, ks: seq<Widths>, ranking: Ranking, rs: seq<Route>, rows: nat,
                           out: seq<int>)
    returns (r: seq<int>)
    requires RankingOk(ranking, ks) && RoutesOk(rs, |ks|, |out|) && |x| == |out|
    ensures Adds(out, r, x, g, |ks|, rs, Fitting(rs, rows))
  {
    hide RankingOk;
    var n, walk, key := |ks|, ranking.kdesc, ByRank(ranking.krank, |ks|);
    RankWalkOk(ranking, ks);
    var order := StableArgSort(KeysOf(rs, key));
    LaunchIsReady(rs, n, key, walk, order, |out|);
    var counts := Counts(rs, n);
    var take := Band(counts, n, 0, n, rows);
    WalkFits(Gather(rs, order), counts, walk, n, key);
    r := Segments(x, g, Iota(n), counts, take, walk, Cells(Gather(rs, order)), out);
    forall t | 0 <= t < |out| ensures r[t] == out[t] + SumOf(rs, Part(x, g, n, Fitting(rs, rows), t)) {
      LaunchSum(x, g, Iota(n), take, walk, rs, out, n, key, order, t);
      BandSum(x, g, g, n, 0, n, rows, rs, Fitting(rs, rows), t);
    }
  }

  /******* One launch per group, masked *******/

  /** Experts of the groups before `g`, as far as they fit. */
  function Before(index: seq<int>, n: nat, g: nat, fits: nat -> bool): nat -> bool {
    (e: nat) => e < n && e < |index| && 0 <= index[e] < g && fits(e)
  }

  function InGroup(index: seq<int>, g: nat): nat -> bool {
    (e: nat) => e < |index| && index[e] == g
  }

  method LaunchGrouped(x: seq<Row>, kern: Kernel, ks: seq<Widths>, groups: seq<Group>, index: seq<int>, rs: seq<Route>,
                       rows: nat, out: seq<int>)
    returns (r: seq<int>)
    requires GroupsOk(groups, ks) && IndexOk(index, groups, ks) && RoutesOk(rs, |ks|, |out|) && |x| == |out|
    ensures Adds(out, r, x, Plain(ks, kern), |ks|, rs, Fitting(rs, rows))
  {
    hide GroupsOk, IndexOk, Adds, RoutesOk;
    var n, fits := |ks|, Fitting(rs, rows);
    r := out;
    NothingAdded(out, x, Plain(ks, kern), n, rs, Before(index, n, 0, fits));
    for g := 0 to |groups|
      invariant |r| == |out| && Adds(out, r, x, Plain(ks, kern), n, rs, Before(index, n, g, fits))
    {
      ghost var was := r;
      MaskedOk(rs, n, InGroup(index, g), |out|);
      r := LaunchById(x, AtWidth(groups[g].k, kern), n, Rewrite(rs, Masked(n, InGroup(index, g))), rows, r);
      GroupAdds(was, r, x, kern, ks, groups, index, rs, rows, g);
      AddsThenAdds(out, was, r, x, Plain(ks, kern), n, rs, Before(index, n, g, fits), OneGroup(index, g, fits),
                   Before(index, n, g + 1, fits));
      AddsLength(was, r, x, Plain(ks, kern), n, rs, OneGroup(index, g, fits));
    }
    EveryGroup(index, groups, ks, rs);
    SameKeep(out, r, x, Plain(ks, kern), n, rs, Before(index, n, |groups|, fits), fits);
  }

  lemma AddsLength(before: seq<int>, after: seq<int>, x: seq<Row>, f: Expert, n: nat, rs: seq<Route>, keep: nat -> bool)
    requires Adds(before, after, x, f, n, rs, keep)
    ensures |after| == |before|
  {
  }

  lemma EveryGroup(index: seq<int>, groups: seq<Group>, ks: seq<Widths>, rs: seq<Route>)
    requires IndexOk(index, groups, ks)
    ensures |index| == |ks| + 1 && forall e :: 0 <= e < |ks| ==> 0 <= index[e] < |groups|
  {
  }

  lemma NothingAdded(out: seq<int>, x: seq<Row>, f: Expert, n: nat, rs: seq<Route>, keep: nat -> bool)
    requires forall e: nat :: !keep(e)
    ensures Adds(out, out, x, f, n, rs, keep)
  {
    forall t | 0 <= t < |out| ensures SumOf(rs, Part(x, f, n, keep, t)) == 0 {
      var part := Part(x, f, n, keep, t);
      forall r | r in rs ensures part(r) == 0 { assert !keep(r.expert); }
      SumZero(rs, part);
    }
  }

  function OneGroup(index: seq<int>, g: nat, fits: nat -> bool): nat -> bool {
    (e: nat) => e < |index| && index[e] == g && fits(e)
  }

  /** One group's launch decodes its experts at their own widths and leaves the others alone. */
  lemma GroupAdds(before: seq<int>, after: seq<int>, x: seq<Row>, kern: Kernel, ks: seq<Widths>, groups: seq<Group>,
                  index: seq<int>, rs: seq<Route>, rows: nat, g: nat)
    requires IndexOk(index, groups, ks) && g < |groups|
    requires var own := Rewrite(rs, Masked(|ks|, InGroup(index, g)));
             Adds(before, after, x, AtWidth(groups[g].k, kern), |ks|, own, Fitting(own, rows))
    ensures Adds(before, after, x, Plain(ks, kern), |ks|, rs, OneGroup(index, g, Fitting(rs, rows)))
  {
    var n, mask := |ks|, InGroup(index, g);
    var own, keep := Rewrite(rs, Masked(n, mask)), OneGroup(index, g, Fitting(rs, rows));
    forall r | r in rs && r.expert < n ensures keep(r.expert) == (mask(r.expert) && Fitting(own, rows)(r.expert)) {
      MaskedCount(rs, n, mask, r.expert);
    }
    MaskedAdds(before, after, x, AtWidth(groups[g].k, kern), n, rs, mask, Fitting(own, rows), keep);
    SameExpert(before, after, x, AtWidth(groups[g].k, kern), Plain(ks, kern), n, rs, keep);
  }

  lemma SameExpert(before: seq<int>, after: seq<int>, x: seq<Row>, f: Expert, g: Expert, n: nat, rs: seq<Route>,
                   keep: nat -> bool)
    requires Adds(before, after, x, f, n, rs, keep)
    requires forall e: nat, row: Row :: e < n && keep(e) ==> f(e, row) == g(e, row)
    ensures Adds(before, after, x, g, n, rs, keep)
  {
    forall t | 0 <= t < |before| ensures SumOf(rs, Part(x, f, n, keep, t)) == SumOf(rs, Part(x, g, n, keep, t)) {
      var a, b := Part(x, f, n, keep, t), Part(x, g, n, keep, t);
      forall r | r in rs ensures a(r) == b(r) {
        if t < |x| && r.expert < n && keep(r.expert) { assert f(r.expert, x[t]) == g(r.expert, x[t]); }
      }
      SumEqual(rs, a, b);
    }
  }

  /******* One launch per group, renumbered *******/

  function Renumbered(pid: seq<nat>, n: nat): Route -> Route {
    (r: Route) => Route(r.token, if r.expert < |pid| then pid[r.expert] else n, r.weight)
  }

  /** Packed ids below `m`, as far as their experts fit. */
  function PackedBelow(pid: seq<nat>, m: nat, fits: nat -> bool): nat -> bool {
    (e: nat) => e < |pid| && pid[e] < m && fits(e)
  }

  function PackedIn(pid: seq<nat>, lo: nat, hi: nat, fits: nat -> bool): nat -> bool {
    (e: nat) => e < |pid| && lo <= pid[e] < hi && fits(e)
  }

  lemma RenumberedCount(rs: seq<Route>, p: Packed, n: nat, tokens: nat, e: nat)
    requires Inverse(p.order, p.pid, n) && |p.pid| == n + 1 && p.pid[n] == n && RoutesOk(rs, n, tokens) && e < n
    ensures CountOf(Rewrite(rs, Renumbered(p.pid, n)), p.pid[e]) == CountOf(rs, e)
  {
    var m := Renumbered(p.pid, n);
    CountIsSum(Rewrite(rs, m), p.pid[e]);
    CountIsSum(rs, e);
    forall r | r in rs ensures Is(e)(r) == Is(p.pid[e])(m(r)) {
      assert r.expert <= n;
      assert r.expert < n ==> p.order[p.pid[r.expert]] == r.expert;
      assert p.order[p.pid[e]] == e;
    }
    RewriteSum(rs, m, Is(p.pid[e]), Is(e));
  }

  lemma RenumberedOk(rs: seq<Route>, p: Packed, n: nat, tokens: nat)
    requires Inverse(p.order, p.pid, n) && |p.pid| == n + 1 && p.pid[n] == n && RoutesOk(rs, n, tokens)
    ensures RoutesOk(Rewrite(rs, Renumbered(p.pid, n)), n, tokens)
  {
  }

  /** A launch over packed ids `lo..hi`, with permuted pointers, adds the experts numbered so. */
  lemma PackedBandSum(x: seq<Row>, f: Expert, g: Expert, n: nat, p: Packed, lo: nat, hi: nat, rows: nat, rs: seq<Route>,
                      t: nat)
    requires Inverse(p.order, p.pid, n) && |p.pid| == n + 1 && p.pid[n] == n && lo <= hi <= n && RoutesOk(rs, n, |x|)
    requires forall i: nat, row: Row :: lo <= i < hi ==> f(p.order[i], row) == g(p.order[i], row)
    ensures var own := Rewrite(rs, Renumbered(p.pid, n));
            SumOf(own, Term(x, g, p.order, Band(Counts(own, n), n, lo, hi, rows), t))
            == SumOf(rs, Part(x, f, n, PackedIn(p.pid, lo, hi, Fitting(rs, rows)), t))
  {
    var own := Rewrite(rs, Renumbered(p.pid, n));
    var take := Band(Counts(own, n), n, lo, hi, rows);
    var keep := PackedIn(p.pid, lo, hi, Fitting(rs, rows));
    var term, part := Term(x, g, p.order, take, t), Part(x, f, n, keep, t);
    forall r | r in rs ensures part(r) == term(Renumbered(p.pid, n)(r)) {
      PackedRoute(x, f, g, n, p, lo, hi, rows, rs, t, r);
    }
    RewriteSum(rs, Renumbered(p.pid, n), term, part);
  }

  lemma PackedRoute(x: seq<Row>, f: Expert, g: Expert, n: nat, p: Packed, lo: nat, hi: nat, rows: nat, rs: seq<Route>,
                    t: nat, r: Route)
    requires Inverse(p.order, p.pid, n) && |p.pid| == n + 1 && p.pid[n] == n && lo <= hi <= n && RoutesOk(rs, n, |x|)
             && r in rs
    requires forall i: nat, row: Row :: lo <= i < hi ==> f(p.order[i], row) == g(p.order[i], row)
    ensures var own := Rewrite(rs, Renumbered(p.pid, n));
            Part(x, f, n, PackedIn(p.pid, lo, hi, Fitting(rs, rows)), t)(r)
            == Term(x, g, p.order, Band(Counts(own, n), n, lo, hi, rows), t)(Renumbered(p.pid, n)(r))
  {
    assert r.expert <= n;
    if r.expert < n {
      RenumberedCount(rs, p, n, |x|, r.expert);
      CountedOnce(rs, r);
    }
  }

  /** One shared sort and count over packed ids; every group launches on its own range of them. */
  method LaunchPacked(x: seq<Row>, kern: Kernel, ks: seq<Widths>, groups: seq<Group>, p: Packed, rs: seq<Route>,
                      rows: nat, out: seq<int>)
    returns (r: seq<int>)
    requires GroupsOk(groups, ks) && PackedOk(p, groups, ks) && RoutesOk(rs, |ks|, |out|) && |x| == |out|
    ensures Adds(out, r, x, Plain(ks, kern), |ks|, rs, Fitting(rs, rows))
  {
    hide GroupsOk, Adds, RoutesOk, RangesOk, Inverse, WalkOk, Sorts, Remaining;
    var n, f, fits := |ks|, Plain(ks, kern), Fitting(rs, rows);
    var own := Rewrite(rs, Renumbered(p.pid, n));
    RenumberedOk(rs, p, n, |out|);
    var order := ArgSort(KeysOf(own, ById()));
    InRange(order, KeysOf(own, ById()));
    IdWalkOk(n);
    LaunchIsReady(own, n, ById(), Iota(n), order, |out|);
    var sorted, counts := Gather(own, order), Counts(own, n);
    WalkFits(sorted, counts, Iota(n), n, ById());
    TokensFit(sorted, n, |out|);
    r := out;
    NothingAdded(out, x, f, n, rs, PackedBelow(p.pid, 0, fits));
    for g := 0 to |groups|
      invariant |r| == |out| && Adds(out, r, x, f, n, rs, PackedBelow(p.pid, Start(p.ranges, g), fits))
    {
      var lo, hi := p.ranges[g].0, p.ranges[g].1;
      ghost var was := r;
      RangeOf(p, groups, ks, g);
      r := Segments(x, AtWidth(groups[g].k, kern), p.order, counts, Band(counts, n, lo, hi, rows), Iota(n),
                    Cells(sorted), r);
      PackedAdds(was, r, x, kern, ks, groups, p, rs, rows, order, g);
      AddsThenAdds(out, was, r, x, f, n, rs, PackedBelow(p.pid, lo, fits), PackedIn(p.pid, lo, hi, fits),
                   PackedBelow(p.pid, hi, fits));
    }
    EveryRange(p, groups, ks);
    SameKeep(out, r, x, f, n, rs, PackedBelow(p.pid, Start(p.ranges, |groups|), fits), fits);
  }

  lemma InRange(order: seq<nat>, keys: seq<int>)
    requires Sorts(order, keys)
    ensures |order| == |keys| && forall i :: 0 <= i < |order| ==> order[i] < |keys|
  {
  }

  lemma TokensFit(rs: seq<Route>, n: nat, tokens: nat)
    requires RoutesOk(rs, n, tokens)
    ensures forall i :: 0 <= i < |rs| ==> Cells(rs)[i].token < tokens
  {
  }

  lemma RangeOf(p: Packed, groups: seq<Group>, ks: seq<Widths>, g: nat)
    requires PackedOk(p, groups, ks) && g < |groups|
    ensures |p.order| == |ks| && p.ranges[g].0 == Start(p.ranges, g) <= p.ranges[g].1 == Start(p.ranges, g + 1) <= |ks|
  {
  }

  lemma EveryRange(p: Packed, groups: seq<Group>, ks: seq<Widths>)
    requires PackedOk(p, groups, ks)
    ensures |p.pid| == |ks| + 1 && Start(p.ranges, |groups|) == |ks| && forall e :: 0 <= e < |ks| ==> p.pid[e] < |ks|
  {
  }

  lemma PackedAdds(before: seq<int>, after: seq<int>, x: seq<Row>, kern: Kernel, ks: seq<Widths>, groups: seq<Group>,
                   p: Packed, rs: seq<Route>, rows: nat, order: seq<nat>, g: nat)
    requires PackedOk(p, groups, ks) && g < |groups| && RoutesOk(rs, |ks|, |before|) && |x| == |before|
    requires Sorts(order, KeysOf(Rewrite(rs, Renumbered(p.pid, |ks|)), ById()))
    requires var own := Rewrite(rs, Renumbered(p.pid, |ks|));
             var sorted, counts := Gather(own, order), Counts(own, |ks|);
             && WalkTotal(counts, Iota(|ks|)) <= |sorted|
             && (forall i :: 0 <= i < |sorted| ==> Cells(sorted)[i].token < |before|)
             && after == Segments(x, AtWidth(groups[g].k, kern), p.order, counts,
                                  Band(counts, |ks|, p.ranges[g].0, p.ranges[g].1, rows),
                                  Iota(|ks|), Cells(sorted), before)
    ensures Adds(before, after, x, Plain(ks, kern), |ks|, rs,
                 PackedIn(p.pid, p.ranges[g].0, p.ranges[g].1, Fitting(rs, rows)))
  {
    hide Sorts, RoutesOk, Inverse;
    var n, lo, hi, own := |ks|, p.ranges[g].0, p.ranges[g].1, Rewrite(rs, Renumbered(p.pid, |ks|));
    var f, at := Plain(ks, kern), AtWidth(groups[g].k, kern);
    RenumberedOk(rs, p, n, |before|);
    IdWalkOk(n);
    RangeOf(p, groups, ks, g);
    assert forall i: nat, row: Row :: lo <= i < hi ==> f(p.order[i], row) == at(p.order[i], row);
    forall t | 0 <= t < |before|
      ensures after[t] == before[t] + SumOf(rs, Part(x, f, n, PackedIn(p.pid, lo, hi, Fitting(rs, rows)), t))
    {
      LaunchSum(x, at, p.order, Band(Counts(own, n), n, lo, hi, rows), Iota(n), own, before, n, ById(), order, t);
      PackedBandSum(x, f, at, n, p, lo, hi, rows, rs, t);
    }
  }
}
