/**
 The routed-expert entry points (src/vllm_exl3/exl3.py): the per-expert loop, the fat path, and the fused dispatch
 with its slicing of over-capacity batches; and exactly when the fused dispatch loses no route.
 */
module FusedMoe {
  import opened Options
  import opened Bytes
  import opened Sums
  import opened Dispatch
  import opened DispatchTables
  import opened DispatchLaunches

  /** Which launch family serves the layer, with the tables it needs. */
  datatype Mode =
    | OneLaunch
    | OneLaunchWidestFirst(ranking: Ranking)
    | LaunchPerGroup(groups: seq<Group>, index: seq<int>)
    | LaunchPerPackedGroup(groups: seq<Group>, packed: Packed)

  /** `rows` is the scratch capacity per expert, `fat` the row count above which an expert takes the fat path. */
  datatype Limits = Limits(rows: nat, fat: nat, capturing: bool)

  ghost predicate ModeOk(mode: Mode, ks: seq<Widths>) {
    match mode
    case OneLaunch => true
    case OneLaunchWidestFirst(ranking) => RankingOk(ranking, ks)
    case LaunchPerGroup(groups, index) => GroupsOk(groups, ks) && IndexOk(index, groups, ks)
    case LaunchPerPackedGroup(groups, packed) => GroupsOk(groups, ks) && PackedOk(packed, groups, ks)
  }

  /** An accumulation that starts from zero over all routes is the weighted sum, token by token. */
  lemma AddsIsWeighted(out: seq<int>, x: seq<Row>, ids: seq<seq<int>>, ws: seq<seq<int>>, n: nat,
                       emap: Option<seq<int>>, f: Expert, keep: nat -> bool)
    requires SameShape(ids, ws) && |x| == |ids|
    requires Adds(Zeros(|x|), out, x, f, n, Flat(0, ids, ws, n, emap), keep)
    ensures out == Weighted(x, ids, ws, n, emap, f, keep)
  {
    forall t | 0 <= t < |x| ensures out[t] == Weighted(x, ids, ws, n, emap, f, keep)[t] {
      var part, routes := Part(x, f, n, keep, t), RowRoutes(t, ids[t], ws[t], n, emap);
      FlatSum(0, ids, ws, n, emap, t, part);
      SumEqual(routes, part, Share(x[t], f, n, keep));
    }
  }

  /******* The per-expert loop *******/

  /** `nonzero` of `local_ids == e`, in row-major order. */
  function Select(rs: seq<Route>, e: nat): (r: seq<Route>)
    ensures forall i :: 0 <= i < |r| ==> r[i] in rs && r[i].expert == e
  {
    if rs == [] then [] else (if rs[0].expert == e then [rs[0]] else []) + Select(rs[1..], e)
  }

  lemma {:induction false} SelectSum(rs: seq<Route>, e: nat, f: Route -> int, g: Route -> int)
    requires forall r :: r in rs ==> g(r) == if r.expert == e then f(r) else 0
    ensures SumOf(Select(rs, e), f) == SumOf(rs, g)
  {
    if rs != [] {
      assert rs[0] in rs;
      SelectSum(rs[1..], e, f, g);
      SumAppend(if rs[0].expert == e then [rs[0]] else [], Select(rs[1..], e), f);
    }
  }

  /** `torch.unique`: the values that occur, ascending. */
  method Unique(rs: seq<Route>, n: nat) returns (u: seq<nat>)
    ensures forall i, j :: 0 <= i < j < |u| ==> u[i] < u[j]
    ensures forall r :: r in rs && r.expert <= n ==> r.expert in u
  {
    u := [];
    for e := 0 to n + 1
      invariant forall i :: 0 <= i < |u| ==> u[i] < e
      invariant forall i, j :: 0 <= i < j < |u| ==> u[i] < u[j]
      invariant forall r :: r in rs && r.expert < e ==> r.expert in u
    {
      if exists i :: 0 <= i < |rs| && rs[i].expert == e {
        u := u + [e];
      }
    }
  }

  function OneOf(u: seq<nat>): nat -> bool {
    (e: nat) => e in u
  }

  function Only(e: nat): nat -> bool {
    (d: nat) => d == e
  }

  lemma OneExpertAdds(out: seq<int>, x: seq<Row>, f: Expert, n: nat, rs: seq<Route>, e: nat)
    requires e < n && |x| == |out| && RoutesOk(rs, n, |out|)
    ensures Adds(out, AddCells(out, Cells(Select(rs, e)), x, f, e), x, f, n, rs, Only(e))
  {
    var take := seq(n, _ => true);
    forall t | 0 <= t < |out|
      ensures AddCells(out, Cells(Select(rs, e)), x, f, e)[t] == out[t] + SumOf(rs, Part(x, f, n, Only(e), t))
    {
      AddCellsSum(out, Select(rs, e), x, f, Iota(n), take, e, t);
      SelectSum(rs, e, Term(x, f, Iota(n), take, t), Part(x, f, n, Only(e), t));
    }
  }

  /** `apply_exl3_python_loop`: every local route of every token, once. */
  method ApplyPythonLoop(x: seq<Row>, ids: seq<seq<int>>, ws: seq<seq<int>>, n: nat, emap: Option<seq<int>>, f: Expert)
    returns (out: seq<int>)
    requires SameShape(ids, ws) && |x| == |ids|
    ensures out == Reference(x, ids, ws, n, emap, f)
  {
    hide Adds;
    var rs := Flat(0, ids, ws, n, emap);
    FlatOk(ids, ws, n, emap);
    out := Zeros(|x|);
    var unique := Unique(rs, n);
    NothingAdded(out, x, f, n, rs, OneOf([]));
    assert unique[..0] == [];
    for i := 0 to |unique|
      invariant |out| == |x| && Adds(Zeros(|x|), out, x, f, n, rs, OneOf(unique[..i]))
    {
      var e := unique[i];
      assert unique[..i + 1] == unique[..i] + [e];
      if e < n {
        OneExpertAdds(out, x, f, n, rs, e);
        var next := AddCells(out, Cells(Select(rs, e)), x, f, e);
        AddsThenAdds(Zeros(|x|), out, next, x, f, n, rs, OneOf(unique[..i]), Only(e), OneOf(unique[..i + 1]));
        out := next;
      } else {
        SameKeep(Zeros(|x|), out, x, f, n, rs, OneOf(unique[..i]), OneOf(unique[..i + 1]));
      }
    }
    assert unique[..|unique|] == unique;
    SameKeep(Zeros(|x|), out, x, f, n, rs, OneOf(unique), All());
    AddsIsWeighted(out, x, ids, ws, n, emap, f, All());
  }

  /******* The fat path *******/

  function Above(counts: seq<nat>, n: nat, cap: nat): (take: seq<bool>)
    requires n <= |counts|
    ensures |take| == n && forall e :: 0 <= e < n ==> take[e] == (counts[e] > cap)
  {
    seq(n, e requires 0 <= e < n => counts[e] > cap)
  }

  function Busier(rs: seq<Route>, cap: nat): nat -> bool {
    (e: nat) => CountOf(rs, e) > cap
  }

  /** `apply_exl3_batched_fat`: a running offset over all experts' rows; only experts above the cap are computed. */
  method ApplyBatchedFat(x: seq<Row>, sorted: seq<Route>, counts: seq<nat>, n: nat, f: Expert, cap: nat,
                         start: seq<int>)
    returns (out: seq<int>)
    requires |x| == |start| && |counts| == n + 1 && RoutesOk(sorted, n, |start|)
    requires Remaining(sorted, counts, Iota(n), n, ById())
    ensures Adds(start, out, x, f, n, sorted, Busier(sorted, cap))
  {
    hide Remaining, AddCells, Cells;
    var cells := Cells(sorted);
    var take := Above(counts, n, cap);
    TokensFit(sorted, n, |start|);
    WalkFits(sorted, counts, Iota(n), n, ById());
    ghost var total := Segments(x, f, Iota(n), counts, take, Iota(n), cells, start);
    var offset: nat := 0;
    out := start;
    assert Iota(n)[0..] == Iota(n) && cells[0..] == cells;
    for e := 0 to n
      invariant |out| == |start| && offset <= |cells| && WalkTotal(counts, Iota(n)[e..]) <= |cells[offset..]|
      invariant Segments(x, f, Iota(n), counts, take, Iota(n)[e..], cells[offset..], out) == total
    {
      assert Iota(n)[e..][0] == e && Iota(n)[e..][1..] == Iota(n)[e + 1..];
      assert cells[offset..][counts[e]..] == cells[offset + counts[e]..];
      assert cells[offset..][..counts[e]] == cells[offset..offset + counts[e]];
      var begin := offset;
      offset := offset + counts[e];
      if counts[e] > cap {
        out := AddCells(out, cells[begin..offset], x, f, e);
      }
    }
    assert Iota(n)[n..] == [];
    FatAdds(x, f, n, sorted, counts, cap, start);
  }

  lemma FatAdds(x: seq<Row>, f: Expert, n: nat, sorted: seq<Route>, counts: seq<nat>, cap: nat, start: seq<int>)
    requires |x| == |start| && |counts| == n + 1 && RoutesOk(sorted, n, |start|)
    requires Remaining(sorted, counts, Iota(n), n, ById())
    ensures WalkTotal(counts, Iota(n)) <= |sorted|
    ensures Adds(start, Segments(x, f, Iota(n), counts, Above(counts, n, cap), Iota(n), Cells(sorted), start), x, f, n,
                 sorted, Busier(sorted, cap))
  {
    hide Segments;
    WalkFits(sorted, counts, Iota(n), n, ById());
    var take := Above(counts, n, cap);
    CountsMatch(sorted, counts, n);
    forall t | 0 <= t < |start|
      ensures Segments(x, f, Iota(n), counts, take, Iota(n), Cells(sorted), start)[t]
              == start[t] + SumOf(sorted, Part(x, f, n, Busier(sorted, cap), t))
    {
      SegmentsSum(x, f, Iota(n), counts, take, Iota(n), sorted, start, n, ById(), t);
      SumEqual(sorted, Term(x, f, Iota(n), take, t), Part(x, f, n, Busier(sorted, cap), t));
    }
  }

  lemma CountsMatch(sorted: seq<Route>, counts: seq<nat>, n: nat)
    requires Remaining(sorted, counts, Iota(n), n, ById())
    ensures |counts| == n + 1 && forall e :: 0 <= e < n ==> counts[e] == CountOf(sorted, e)
  {
    forall e | 0 <= e < n ensures counts[e] == CountOf(sorted, e) { assert Iota(n)[e] == e; }
  }

  lemma AddsPermuted(before: seq<int>, after: seq<int>, x: seq<Row>, f: Expert, n: nat, sorted: seq<Route>,
                     rs: seq<Route>, cap: nat)
    requires Adds(before, after, x, f, n, sorted, Busier(sorted, cap)) && multiset(sorted) == multiset(rs)
    ensures Adds(before, after, x, f, n, rs, Busier(rs, cap))
  {
    forall r | r in sorted ensures Busier(sorted, cap)(r.expert) == Busier(rs, cap)(r.expert) {
      CountPermutation(sorted, rs, r.expert);
    }
    SameKeep(before, after, x, f, n, sorted, Busier(sorted, cap), Busier(rs, cap));
    forall t | 0 <= t < |before|
      ensures SumOf(sorted, Part(x, f, n, Busier(rs, cap), t)) == SumOf(rs, Part(x, f, n, Busier(rs, cap), t))
    {
      SumPermutation(sorted, rs, Part(x, f, n, Busier(rs, cap), t));
    }
  }

  /** Sort the unmasked routes and run the fat path over them. */
  method LaunchFat(x: seq<Row>, rs: seq<Route>, n: nat, f: Expert, cap: nat, start: seq<int>) returns (out: seq<int>)
    requires |x| == |start| && RoutesOk(rs, n, |start|)
    ensures Adds(start, out, x, f, n, rs, Busier(rs, cap))
  {
    hide Adds, Remaining, WalkOk;
    var order := ArgSort(KeysOf(rs, ById()));
    IdWalkOk(n);
    LaunchIsReady(rs, n, ById(), Iota(n), order, |start|);
    out := ApplyBatchedFat(x, Gather(rs, order), Counts(rs, n), n, f, cap, start);
    AddsPermuted(start, out, x, f, n, Gather(rs, order), rs, cap);
  }

  /******* The fused dispatch *******/

  method LaunchStandard(x: seq<Row>, kern: Kernel, ks: seq<Widths>, mode: Mode, rs: seq<Route>, rows: nat,
                        start: seq<int>)
    returns (out: seq<int>)
    requires ModeOk(mode, ks) && RoutesOk(rs, |ks|, |start|) && |x| == |start|
    ensures Adds(start, out, x, Plain(ks, kern), |ks|, rs, Fitting(rs, rows))
  {
    hide Adds, RoutesOk, Plain, Fitting;
    match mode
    case OneLaunch => out := LaunchById(x, Plain(ks, kern), |ks|, rs, rows, start);
    case OneLaunchWidestFirst(ranking) => out := LaunchWidestFirst(x, Plain(ks, kern), ks, ranking, rs, rows, start);
    case LaunchPerGroup(groups, index) => out := LaunchGrouped(x, kern, ks, groups, index, rs, rows, start);
    case LaunchPerPackedGroup(groups, packed) => out := LaunchPacked(x, kern, ks, groups, packed, rs, rows, start);
  }

  /** Rows routed to local expert `e` by one token, and by a batch. */
  function RowLoad(row: seq<int>, n: nat, emap: Option<seq<int>>, e: nat): nat {
    if row == [] then 0 else (if LocalId(row[0], n, emap) == e then 1 else 0) + RowLoad(row[1..], n, emap, e)
  }

  function Load(ids: seq<seq<int>>, n: nat, emap: Option<seq<int>>, e: nat): nat {
    if ids == [] then 0 else RowLoad(ids[0], n, emap, e) + Load(ids[1..], n, emap, e)
  }

  lemma {:induction false} RowCount(t: nat, ids: seq<int>, ws: seq<int>, n: nat, emap: Option<seq<int>>, e: nat)
    requires |ids| == |ws|
    ensures CountOf(RowRoutes(t, ids, ws, n, emap), e) == RowLoad(ids, n, emap, e)
  {
    if ids != [] {
      RowCount(t, ids[1..], ws[1..], n, emap, e);
      assert RowRoutes(t, ids, ws, n, emap)[1..] == RowRoutes(t, ids[1..], ws[1..], n, emap);
    }
  }

  lemma {:induction false} FlatCount(base: nat, ids: seq<seq<int>>, ws: seq<seq<int>>, n: nat, emap: Option<seq<int>>,
                                     e: nat)
    requires SameShape(ids, ws)
    ensures CountOf(Flat(base, ids, ws, n, emap), e) == Load(ids, n, emap, e)
    decreases |ids|
  {
    if ids != [] {
      RowCount(base, ids[0], ws[0], n, emap, e);
      FlatCount(base + 1, ids[1..], ws[1..], n, emap, e);
      CountAppend(RowRoutes(base, ids[0], ws[0], n, emap), Flat(base + 1, ids[1..], ws[1..], n, emap), e);
    }
  }

  /** Expert `e` goes to the fat path in an unsliced pass over this batch. */
  predicate IsFat(ids: seq<seq<int>>, n: nat, emap: Option<seq<int>>, lim: Limits, e: nat) {
    !lim.capturing && |ids| > lim.fat && Load(ids, n, emap, e) > lim.fat
  }

  /** Expert `e` is computed by an unsliced pass over this batch. */
  function Served(ids: seq<seq<int>>, n: nat, emap: Option<seq<int>>, lim: Limits): nat -> bool {
    (e: nat) => IsFat(ids, n, emap, lim, e) || Load(ids, n, emap, e) <= lim.rows
  }

  predicate MustSlice(ids: seq<seq<int>>, n: nat, emap: Option<seq<int>>, lim: Limits) {
    !lim.capturing && |ids| > lim.rows && exists e :: 0 <= e < n && Load(ids, n, emap, e) > lim.rows
  }

  function Sliced(x: seq<Row>, ids: seq<seq<int>>, ws: seq<seq<int>>, n: nat, emap: Option<seq<int>>, f: Expert,
                  lim: Limits): (out: seq<int>)
    requires SameShape(ids, ws) && |x| == |ids| && lim.rows > 0
    ensures |out| == |x|
    decreases |ids|
  {
    var m := lim.rows;
    if |ids| <= m then Weighted(x, ids, ws, n, emap, f, Served(ids, n, emap, lim))
    else
      Weighted(x[..m], ids[..m], ws[..m], n, emap, f, Served(ids[..m], n, emap, lim))
      + Sliced(x[m..], ids[m..], ws[m..], n, emap, f, lim)
  }

  /** What the fused dispatch computes: the weighted sum over the experts that each pass serves. */
  function FusedSum(x: seq<Row>, ids: seq<seq<int>>, ws: seq<seq<int>>, n: nat, emap: Option<seq<int>>, f: Expert,
                    lim: Limits): (out: seq<int>)
    requires SameShape(ids, ws) && |x| == |ids| && lim.rows > 0
    ensures |out| == |x|
  {
    if MustSlice(ids, n, emap, lim) then Sliced(x, ids, ws, n, emap, f, lim)
    else Weighted(x, ids, ws, n, emap, f, Served(ids, n, emap, lim))
  }

  function Cut(s: nat, rows: nat, tokens: nat): nat {
    if s + rows < tokens then s + rows else tokens
  }

  /** The recursion is one level deep: a slice holds at most `rows` tokens and is never sliced again. */
  lemma SliceIsFinal(x: seq<Row>, ids: seq<seq<int>>, ws: seq<seq<int>>, n: nat, emap: Option<seq<int>>, f: Expert,
                     lim: Limits, s: nat)
    requires SameShape(ids, ws) && |x| == |ids| && lim.rows > 0 && s < |ids|
    ensures var e := Cut(s, lim.rows, |ids|);
            && !MustSlice(ids[s..e], n, emap, lim)
            && FusedSum(x[s..e], ids[s..e], ws[s..e], n, emap, f, lim)
               == Weighted(x[s..e], ids[s..e], ws[s..e], n, emap, f, Served(ids[s..e], n, emap, lim))
  {
  }

  function NotFat(ids: seq<seq<int>>, n: nat, emap: Option<seq<int>>, lim: Limits): nat -> bool {
    (e: nat) => !(e < n && IsFat(ids, n, emap, lim, e))
  }

  function FatOnly(ids: seq<seq<int>>, n: nat, emap: Option<seq<int>>, lim: Limits): nat -> bool {
    (e: nat) => IsFat(ids, n, emap, lim, e)
  }

  function ThinOnly(ids: seq<seq<int>>, n: nat, emap: Option<seq<int>>, lim: Limits): nat -> bool {
    (e: nat) => !IsFat(ids, n, emap, lim, e) && Load(ids, n, emap, e) <= lim.rows
  }

  lemma StandardAdds(out: seq<int>, x: seq<Row>, ids: seq<seq<int>>, ws: seq<seq<int>>, n: nat, emap: Option<seq<int>>,
                     f: Expert, lim: Limits)
    requires SameShape(ids, ws) && |x| == |ids|
    requires var std := Rewrite(Flat(0, ids, ws, n, emap), Masked(n, NotFat(ids, n, emap, lim)));
             Adds(Zeros(|x|), out, x, f, n, std, Fitting(std, lim.rows))
    ensures Adds(Zeros(|x|), out, x, f, n, Flat(0, ids, ws, n, emap), ThinOnly(ids, n, emap, lim))
  {
    hide Adds;
    var rs, mask, thin := Flat(0, ids, ws, n, emap), NotFat(ids, n, emap, lim), ThinOnly(ids, n, emap, lim);
    var std := Rewrite(rs, Masked(n, mask));
    forall r | r in rs && r.expert < n ensures thin(r.expert) == (mask(r.expert) && Fitting(std, lim.rows)(r.expert)) {
      MaskedCount(rs, n, mask, r.expert);
      FlatCount(0, ids, ws, n, emap, r.expert);
    }
    MaskedAdds(Zeros(|x|), out, x, f, n, rs, mask, Fitting(std, lim.rows), thin);
  }

  lemma FatJoins(thin: seq<int>, out: seq<int>, x: seq<Row>, ids: seq<seq<int>>, ws: seq<seq<int>>, n: nat,
                 emap: Option<seq<int>>, f: Expert, lim: Limits)
    requires SameShape(ids, ws) && |x| == |ids| && !lim.capturing && |ids| > lim.fat
    requires Adds(Zeros(|x|), thin, x, f, n, Flat(0, ids, ws, n, emap), ThinOnly(ids, n, emap, lim))
    requires Adds(thin, out, x, f, n, Flat(0, ids, ws, n, emap), Busier(Flat(0, ids, ws, n, emap), lim.fat))
    ensures out == Weighted(x, ids, ws, n, emap, f, Served(ids, n, emap, lim))
  {
    hide Adds;
    var rs := Flat(0, ids, ws, n, emap);
    forall r | r in rs ensures Busier(rs, lim.fat)(r.expert) == FatOnly(ids, n, emap, lim)(r.expert) {
      FlatCount(0, ids, ws, n, emap, r.expert);
    }
    SameKeep(thin, out, x, f, n, rs, Busier(rs, lim.fat), FatOnly(ids, n, emap, lim));
    AddsThenAdds(Zeros(|x|), thin, out, x, f, n, rs, ThinOnly(ids, n, emap, lim), FatOnly(ids, n, emap, lim),
                 Served(ids, n, emap, lim));
    AddsIsWeighted(out, x, ids, ws, n, emap, f, Served(ids, n, emap, lim));
  }

  lemma NoFat(out: seq<int>, x: seq<Row>, ids: seq<seq<int>>, ws: seq<seq<int>>, n: nat, emap: Option<seq<int>>,
              f: Expert, lim: Limits)
    requires SameShape(ids, ws) && |x| == |ids| && forall e :: 0 <= e < n ==> !IsFat(ids, n, emap, lim, e)
    requires Adds(Zeros(|x|), out, x, f, n, Flat(0, ids, ws, n, emap), ThinOnly(ids, n, emap, lim))
    ensures out == Weighted(x, ids, ws, n, emap, f, Served(ids, n, emap, lim))
  {
    hide Adds;
    var rs := Flat(0, ids, ws, n, emap);
    SameKeep(Zeros(|x|), out, x, f, n, rs, ThinOnly(ids, n, emap, lim), Served(ids, n, emap, lim));
    AddsIsWeighted(out, x, ids, ws, n, emap, f, Served(ids, n, emap, lim));
  }

  /** One pass over a batch: thin experts by the standard launches, fat ones by the fat path. */
  method OnePass(x: seq<Row>, ids: seq<seq<int>>, ws: seq<seq<int>>, ks: seq<Widths>, mode: Mode,
                 emap: Option<seq<int>>, kern: Kernel, lim: Limits)
    returns (out: seq<int>)
    requires SameShape(ids, ws) && |x| == |ids| && ModeOk(mode, ks)
    ensures out == Weighted(x, ids, ws, |ks|, emap, Plain(ks, kern), Served(ids, |ks|, emap, lim))
  {
    hide Adds, ModeOk, IsFat, RoutesOk, Flat, Plain;
    var n := |ks|;
    var rs := Flat(0, ids, ws, n, emap);
    FlatOk(ids, ws, n, emap);
    var std := Rewrite(rs, Masked(n, NotFat(ids, n, emap, lim)));
    MaskedOk(rs, n, NotFat(ids, n, emap, lim), |x|);
    out := LaunchStandard(x, kern, ks, mode, std, lim.rows, Zeros(|x|));
    StandardAdds(out, x, ids, ws, n, emap, Plain(ks, kern), lim);
    ThinLength(out, x, ids, ws, n, emap, Plain(ks, kern), lim);
    if exists e :: 0 <= e < n && IsFat(ids, n, emap, lim, e) {
      SomeFat(ids, n, emap, lim);
      ghost var thin := out;
      out := LaunchFat(x, rs, n, Plain(ks, kern), lim.fat, out);
      FatJoins(thin, out, x, ids, ws, n, emap, Plain(ks, kern), lim);
    } else {
      NoFat(out, x, ids, ws, n, emap, Plain(ks, kern), lim);
    }
  }

  lemma ThinLength(out: seq<int>, x: seq<Row>, ids: seq<seq<int>>, ws: seq<seq<int>>, n: nat, emap: Option<seq<int>>,
                   f: Expert, lim: Limits)
    requires SameShape(ids, ws) && |x| == |ids|
    requires Adds(Zeros(|x|), out, x, f, n, Flat(0, ids, ws, n, emap), ThinOnly(ids, n, emap, lim))
    ensures |out| == |x|
  {
  }

  lemma SomeFat(ids: seq<seq<int>>, n: nat, emap: Option<seq<int>>, lim: Limits)
    requires exists e :: 0 <= e < n && IsFat(ids, n, emap, lim, e)
    ensures !lim.capturing && |ids| > lim.fat
  {
  }

  /** The slices before `s` are in place; the rest of the output is still to be written. */
  ghost predicate SlicedUpTo(x: seq<Row>, ids: seq<seq<int>>, ws: seq<seq<int>>, n: nat, emap: Option<seq<int>>,
                             f: Expert, lim: Limits, out: seq<int>, s: nat)
    requires SameShape(ids, ws) && |x| == |ids| == |out| && lim.rows > 0 && s <= |ids|
  {
    out[..s] + Rest(x, ids, ws, n, emap, f, lim, s) == Sliced(x, ids, ws, n, emap, f, lim)
  }

  function Rest(x: seq<Row>, ids: seq<seq<int>>, ws: seq<seq<int>>, n: nat, emap: Option<seq<int>>, f: Expert,
                lim: Limits, s: nat): seq<int>
    requires SameShape(ids, ws) && |x| == |ids| && lim.rows > 0 && s <= |ids|
  {
    if s < |ids| then Sliced(x[s..], ids[s..], ws[s..], n, emap, f, lim) else []
  }

  lemma CutMoves(s: nat, rows: nat, tokens: nat)
    requires rows > 0 && s < tokens
    ensures s < Cut(s, rows, tokens) <= tokens && Cut(s, rows, tokens) - s <= rows
  {
  }

  lemma SlicingStarts(x: seq<Row>, ids: seq<seq<int>>, ws: seq<seq<int>>, n: nat, emap: Option<seq<int>>, f: Expert,
                      lim: Limits, out: seq<int>)
    requires SameShape(ids, ws) && |x| == |ids| == |out| && lim.rows > 0 && MustSlice(ids, n, emap, lim)
    ensures SlicedUpTo(x, ids, ws, n, emap, f, lim, out, 0)
    ensures forall s: nat :: s < |ids| ==> Cut(s, lim.rows, |ids|) - s < |ids|
  {
    hide Sliced;
    assert x[0..] == x && ids[0..] == ids && ws[0..] == ws;
    assert out[..0] + Rest(x, ids, ws, n, emap, f, lim, 0) == Sliced(x, ids, ws, n, emap, f, lim);
  }

  lemma SlicingEnds(x: seq<Row>, ids: seq<seq<int>>, ws: seq<seq<int>>, n: nat, emap: Option<seq<int>>, f: Expert,
                    lim: Limits, out: seq<int>)
    requires SameShape(ids, ws) && |x| == |ids| == |out| && lim.rows > 0 && MustSlice(ids, n, emap, lim)
    requires SlicedUpTo(x, ids, ws, n, emap, f, lim, out, |ids|)
    ensures out == FusedSum(x, ids, ws, n, emap, f, lim)
  {
    hide Sliced;
    assert out[..|ids|] + [] == out;
  }

  lemma Unsliced(x: seq<Row>, ids: seq<seq<int>>, ws: seq<seq<int>>, n: nat, emap: Option<seq<int>>, f: Expert,
                 lim: Limits)
    requires SameShape(ids, ws) && |x| == |ids| && lim.rows > 0 && !MustSlice(ids, n, emap, lim)
    ensures FusedSum(x, ids, ws, n, emap, f, lim) == Weighted(x, ids, ws, n, emap, f, Served(ids, n, emap, lim))
  {
  }

  lemma NextSlice(x: seq<Row>, ids: seq<seq<int>>, ws: seq<seq<int>>, n: nat, emap: Option<seq<int>>, f: Expert,
                  lim: Limits, out: seq<int>, s: nat, part: seq<int>)
    requires SameShape(ids, ws) && |x| == |ids| == |out| && lim.rows > 0 && s < |ids|
    requires SlicedUpTo(x, ids, ws, n, emap, f, lim, out, s)
    requires var e := Cut(s, lim.rows, |ids|);
             part == Weighted(x[s..e], ids[s..e], ws[s..e], n, emap, f, Served(ids[s..e], n, emap, lim))
    ensures var e := Cut(s, lim.rows, |ids|);
            && |out[..s] + part + out[e..]| == |out|
            && SlicedUpTo(x, ids, ws, n, emap, f, lim, out[..s] + part + out[e..], e)
  {
    SlicePeels(x, ids, ws, n, emap, f, lim, s);
    hide Sliced, Weighted, Served, Rest, SameShape;
    CutMoves(s, lim.rows, |ids|);
    var e := Cut(s, lim.rows, |ids|);
    Joined(out, s, e, part);
    Regrouped(out[..s], part, Rest(x, ids, ws, n, emap, f, lim, e));
  }

  lemma Joined(out: seq<int>, s: nat, e: nat, part: seq<int>)
    requires s <= e <= |out| && |part| == e - s
    ensures |out[..s] + part + out[e..]| == |out| && (out[..s] + part + out[e..])[..e] == out[..s] + part
  {
  }

  lemma Regrouped(a: seq<int>, b: seq<int>, c: seq<int>)
    ensures (a + b) + c == a + (b + c)
  {
  }

  lemma SlicePeels(x: seq<Row>, ids: seq<seq<int>>, ws: seq<seq<int>>, n: nat, emap: Option<seq<int>>, f: Expert,
                   lim: Limits, s: nat)
    requires SameShape(ids, ws) && |x| == |ids| && lim.rows > 0 && s < |ids|
    ensures var e := Cut(s, lim.rows, |ids|);
            Rest(x, ids, ws, n, emap, f, lim, s)
            == Weighted(x[s..e], ids[s..e], ws[s..e], n, emap, f, Served(ids[s..e], n, emap, lim))
              + Rest(x, ids, ws, n, emap, f, lim, e)
  {
    hide Weighted, Served;
    var e, m := Cut(s, lim.rows, |ids|), lim.rows;
    if e < |ids| {
      assert x[s..][..m] == x[s..e] && ids[s..][..m] == ids[s..e] && ws[s..][..m] == ws[s..e];
      assert x[s..][m..] == x[e..] && ids[s..][m..] == ids[e..] && ws[s..][m..] == ws[e..];
    } else {
      assert x[s..] == x[s..e] && ids[s..] == ids[s..e] && ws[s..] == ws[s..e];
    }
  }

  /** `apply_exl3_fused_moe` for every launch family. */
  method ApplyFusedMoe(x: seq<Row>, ids: seq<seq<int>>, ws: seq<seq<int>>, ks: seq<Widths>, mode: Mode,
                       emap: Option<seq<int>>, kern: Kernel, lim: Limits)
    returns (out: seq<int>)
    requires SameShape(ids, ws) && |x| == |ids| && ModeOk(mode, ks) && lim.rows > 0
    ensures out == FusedSum(x, ids, ws, |ks|, emap, Plain(ks, kern), lim)
    decreases |ids|
  {
    hide ModeOk, Plain, Weighted, Served, Load, MustSlice, FusedSum, Sliced, SlicedUpTo, Rest, Cut;
    var n, f := |ks|, Plain(ks, kern);
    if MustSlice(ids, n, emap, lim) {
      out := Zeros(|x|);
      var s := 0;
      SlicingStarts(x, ids, ws, n, emap, f, lim, out);
      while s < |ids|
        invariant s <= |ids| && |out| == |x| && SlicedUpTo(x, ids, ws, n, emap, f, lim, out, s)
      {
        var e := Cut(s, lim.rows, |ids|);
        CutMoves(s, lim.rows, |ids|);
        SliceIsFinal(x, ids, ws, n, emap, f, lim, s);
        var part := ApplyFusedMoe(x[s..e], ids[s..e], ws[s..e], ks, mode, emap, kern, lim);
        NextSlice(x, ids, ws, n, emap, f, lim, out, s, part);
        out := out[..s] + part + out[e..];
        s := e;
      }
      SlicingEnds(x, ids, ws, n, emap, f, lim, out);
    } else {
      out := OnePass(x, ids, ws, ks, mode, emap, kern, lim);
      Unsliced(x, ids, ws, n, emap, f, lim);
    }
  }

}
