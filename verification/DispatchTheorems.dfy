/** Exactly when the fused dispatch (src/vllm_exl3/exl3.py, `apply_exl3_fused_moe`) equals the plain weighted sum. */
module DispatchTheorems {
  import opened Options
  import opened Sums
  import opened Dispatch
  import opened FusedMoe

  /** Every local expert is served by a pass over this batch. */
  predicate PassLossless(ids: seq<seq<int>>, n: nat, emap: Option<seq<int>>, lim: Limits) {
    forall e :: 0 <= e < n ==> IsFat(ids, n, emap, lim, e) || Load(ids, n, emap, e) <= lim.rows
  }

  predicate SlicesLossless(ids: seq<seq<int>>, n: nat, emap: Option<seq<int>>, lim: Limits)
    requires lim.rows > 0
    decreases |ids|
  {
    if |ids| <= lim.rows then PassLossless(ids, n, emap, lim)
    else PassLossless(ids[..lim.rows], n, emap, lim) && SlicesLossless(ids[lim.rows..], n, emap, lim)
  }

  /**
   What a caller can check from the routing alone: no pass leaves an expert above the scratch and below the fat path.
   */
  predicate Lossless(ids: seq<seq<int>>, n: nat, emap: Option<seq<int>>, lim: Limits)
    requires lim.rows > 0
  {
    if MustSlice(ids, n, emap, lim) then SlicesLossless(ids, n, emap, lim) else PassLossless(ids, n, emap, lim)
  }

  /******* One pass *******/

  lemma LosslessPass(x: seq<Row>, ids: seq<seq<int>>, ws: seq<seq<int>>, n: nat, emap: Option<seq<int>>, f: Expert,
                     lim: Limits)
    requires SameShape(ids, ws) && |x| == |ids| && PassLossless(ids, n, emap, lim)
    ensures Weighted(x, ids, ws, n, emap, f, Served(ids, n, emap, lim)) == Reference(x, ids, ws, n, emap, f)
  {
    var keep := Served(ids, n, emap, lim);
    forall t | 0 <= t < |x|
      ensures Weighted(x, ids, ws, n, emap, f, keep)[t] == Reference(x, ids, ws, n, emap, f)[t]
    {
      SumEqual(RowRoutes(t, ids[t], ws[t], n, emap), Share(x[t], f, n, keep), Share(x[t], f, n, All()));
    }
  }

  /** Weight one everywhere, and experts that add one: the result counts the routes that were served. */
  function Ones(ids: seq<seq<int>>): (ws: seq<seq<int>>)
    ensures SameShape(ids, ws) && forall t, k :: 0 <= t < |ids| && 0 <= k < |ids[t]| ==> ws[t][k] == 1
  {
    seq(|ids|, t requires 0 <= t < |ids| => seq(|ids[t]|, _ => 1))
  }

  function Unit(): Expert {
    (e: nat, row: Row) => 1
  }

  lemma {:induction false} FewerServed(rs: seq<Route>, row: Row, n: nat, keep: nat -> bool)
    requires forall r :: r in rs ==> r.weight == 1
    ensures SumOf(rs, Share(row, Unit(), n, keep)) <= SumOf(rs, Share(row, Unit(), n, All()))
    ensures (exists r :: r in rs && r.expert < n && !keep(r.expert)) ==>
              SumOf(rs, Share(row, Unit(), n, keep)) < SumOf(rs, Share(row, Unit(), n, All()))
  {
    if rs != [] {
      assert forall r :: r in rs[1..] ==> r in rs;
      assert forall r :: r in rs ==> r == rs[0] || r in rs[1..];
      FewerServed(rs[1..], row, n, keep);
      assert rs[0] in rs;
    }
  }

  lemma {:induction false} LoadedRow(ids: seq<seq<int>>, n: nat, emap: Option<seq<int>>, e: nat)
    returns (t: nat, k: nat)
    requires Load(ids, n, emap, e) > 0
    ensures t < |ids| && k < |ids[t]| && LocalId(ids[t][k], n, emap) == e
  {
    if RowLoad(ids[0], n, emap, e) > 0 {
      t := 0;
      k := LoadedRoute(ids[0], n, emap, e);
    } else {
      t, k := LoadedRow(ids[1..], n, emap, e);
      t := t + 1;
    }
  }

  lemma {:induction false} LoadedRoute(row: seq<int>, n: nat, emap: Option<seq<int>>, e: nat) returns (k: nat)
    requires RowLoad(row, n, emap, e) > 0
    ensures k < |row| && LocalId(row[k], n, emap) == e
  {
    if LocalId(row[0], n, emap) == e {
      k := 0;
    } else {
      k := LoadedRoute(row[1..], n, emap, e);
      k := k + 1;
    }
  }

  /** An expert that a pass does not serve makes the pass wrong. */
  lemma LossyPass(x: seq<Row>, ids: seq<seq<int>>, n: nat, emap: Option<seq<int>>, lim: Limits)
    requires |x| == |ids| && !PassLossless(ids, n, emap, lim)
    ensures Weighted(x, ids, Ones(ids), n, emap, Unit(), Served(ids, n, emap, lim))
            != Reference(x, ids, Ones(ids), n, emap, Unit())
  {
    var ws, keep := Ones(ids), Served(ids, n, emap, lim);
    var e: nat :| e < n && !IsFat(ids, n, emap, lim, e) && Load(ids, n, emap, e) > lim.rows;
    var t, k := LoadedRow(ids, n, emap, e);
    var rs := RowRoutes(t, ids[t], ws[t], n, emap);
    assert rs[k] in rs && rs[k].expert == e && !keep(e);
    FewerServed(rs, x[t], n, keep);
    assert Weighted(x, ids, ws, n, emap, Unit(), keep)[t] < Reference(x, ids, ws, n, emap, Unit())[t];
  }

  /******* Slices *******/

  lemma RowShift(t: nat, u: nat, ids: seq<int>, ws: seq<int>, n: nat, emap: Option<seq<int>>, row: Row, f: Expert,
                 keep: nat -> bool)
    requires |ids| == |ws|
    ensures SumOf(RowRoutes(t, ids, ws, n, emap), Share(row, f, n, keep))
            == SumOf(RowRoutes(u, ids, ws, n, emap), Share(row, f, n, keep))
  {
    if ids != [] {
      RowShift(t, u, ids[1..], ws[1..], n, emap, row, f, keep);
      assert RowRoutes(t, ids, ws, n, emap)[1..] == RowRoutes(t, ids[1..], ws[1..], n, emap);
      assert RowRoutes(u, ids, ws, n, emap)[1..] == RowRoutes(u, ids[1..], ws[1..], n, emap);
    }
  }

  /** Token `t` of a batch is token `t - m` of the batch without its first `m` tokens, and token `t` of those. */
  lemma ReferenceAt(x: seq<Row>, ids: seq<seq<int>>, ws: seq<seq<int>>, n: nat, emap: Option<seq<int>>, f: Expert,
                    m: nat, t: nat)
    requires SameShape(ids, ws) && |x| == |ids| && m <= |ids| && t < |ids|
    ensures var r := Reference(x, ids, ws, n, emap, f);
            && |r| == |x|
            && (t < m ==> r[t] == Reference(x[..m], ids[..m], ws[..m], n, emap, f)[t])
            && (m <= t ==> r[t] == Reference(x[m..], ids[m..], ws[m..], n, emap, f)[t - m])
  {
    if m <= t { RowShift(t, t - m, ids[t], ws[t], n, emap, x[t], f, All()); }
  }

  lemma Concatenated(a: seq<int>, b: seq<int>, c: seq<int>)
    requires |a| == |b| + |c| && forall i :: 0 <= i < |b| ==> a[i] == b[i]
    requires forall i :: |b| <= i < |a| ==> a[i] == c[i - |b|]
    ensures a == b + c
  {
  }

  lemma ReferenceSplits(x: seq<Row>, ids: seq<seq<int>>, ws: seq<seq<int>>, n: nat, emap: Option<seq<int>>, f: Expert,
                        m: nat)
    requires SameShape(ids, ws) && |x| == |ids| && m <= |ids|
    ensures Reference(x, ids, ws, n, emap, f)
            == Reference(x[..m], ids[..m], ws[..m], n, emap, f) + Reference(x[m..], ids[m..], ws[m..], n, emap, f)
  {
    hide Reference, SameShape;
    SlicesKeepShape(ids, ws, m);
    var xa, xb, ia, ib, wa, wb := x[..m], x[m..], ids[..m], ids[m..], ws[..m], ws[m..];
    ReferenceLength(x, ids, ws, n, emap, f);
    ReferenceLength(xa, ia, wa, n, emap, f);
    ReferenceLength(xb, ib, wb, n, emap, f);
    var all, first, rest := Reference(x, ids, ws, n, emap, f), Reference(xa, ia, wa, n, emap, f),
      Reference(xb, ib, wb, n, emap, f);
    forall t | 0 <= t < |x| ensures all[t] == if t < m then first[t] else rest[t - m] {
      ReferenceAt(x, ids, ws, n, emap, f, m, t);
    }
    Concatenated(all, first, rest);
  }

  lemma SlicesKeepShape(ids: seq<seq<int>>, ws: seq<seq<int>>, m: nat)
    requires SameShape(ids, ws) && m <= |ids|
    ensures |ids| == |ws| && SameShape(ids[..m], ws[..m]) && SameShape(ids[m..], ws[m..])
  {
  }

  lemma ReferenceLength(x: seq<Row>, ids: seq<seq<int>>, ws: seq<seq<int>>, n: nat, emap: Option<seq<int>>, f: Expert)
    requires SameShape(ids, ws) && |x| == |ids|
    ensures |Reference(x, ids, ws, n, emap, f)| == |x|
  {
  }

  lemma {:induction false} LosslessSlices(x: seq<Row>, ids: seq<seq<int>>, ws: seq<seq<int>>, n: nat,
                                          emap: Option<seq<int>>, f: Expert, lim: Limits)
    requires SameShape(ids, ws) && |x| == |ids| && lim.rows > 0 && SlicesLossless(ids, n, emap, lim)
    ensures Sliced(x, ids, ws, n, emap, f, lim) == Reference(x, ids, ws, n, emap, f)
    decreases |ids|
  {
    hide Reference, Weighted, Served, PassLossless;
    var m := lim.rows;
    if |ids| <= m {
      LosslessPass(x, ids, ws, n, emap, f, lim);
    } else {
      LosslessPass(x[..m], ids[..m], ws[..m], n, emap, f, lim);
      LosslessSlices(x[m..], ids[m..], ws[m..], n, emap, f, lim);
      ReferenceSplits(x, ids, ws, n, emap, f, m);
    }
  }

  lemma {:induction false} LossySlices(x: seq<Row>, ids: seq<seq<int>>, n: nat, emap: Option<seq<int>>, lim: Limits)
    requires |x| == |ids| && lim.rows > 0 && !SlicesLossless(ids, n, emap, lim)
    ensures Sliced(x, ids, Ones(ids), n, emap, Unit(), lim) != Reference(x, ids, Ones(ids), n, emap, Unit())
    decreases |ids|
  {
    hide Reference, Weighted, Served, PassLossless;
    var m := lim.rows;
    var f := Unit();
    if |ids| <= m {
      LossyPass(x, ids, n, emap, lim);
    } else {
      var ws := Ones(ids);
      assert ws[..m] == Ones(ids[..m]) && ws[m..] == Ones(ids[m..]);
      ReferenceSplits(x, ids, ws, n, emap, f, m);
      ReferenceLength(x[..m], ids[..m], ws[..m], n, emap, f);
      var a, b := Weighted(x[..m], ids[..m], ws[..m], n, emap, f, Served(ids[..m], n, emap, lim)),
        Sliced(x[m..], ids[m..], ws[m..], n, emap, f, lim);
      var c, d := Reference(x[..m], ids[..m], ws[..m], n, emap, f), Reference(x[m..], ids[m..], ws[m..], n, emap, f);
      assert (a + b)[..m] == a && (a + b)[m..] == b && (c + d)[..m] == c && (c + d)[m..] == d;
      if PassLossless(ids[..m], n, emap, lim) {
        LossySlices(x[m..], ids[m..], n, emap, lim);
      } else {
        LossyPass(x[..m], ids[..m], n, emap, lim);
      }
    }
  }

  /******* The theorem *******/

  lemma LosslessIsExact(x: seq<Row>, ids: seq<seq<int>>, ws: seq<seq<int>>, n: nat, emap: Option<seq<int>>, f: Expert,
                        lim: Limits)
    requires SameShape(ids, ws) && |x| == |ids| && lim.rows > 0 && Lossless(ids, n, emap, lim)
    ensures FusedSum(x, ids, ws, n, emap, f, lim) == Reference(x, ids, ws, n, emap, f)
  {
    hide Reference, Weighted, Served, PassLossless, SlicesLossless, MustSlice, Sliced;
    if MustSlice(ids, n, emap, lim) {
      LosslessSlices(x, ids, ws, n, emap, f, lim);
    } else {
      LosslessPass(x, ids, ws, n, emap, f, lim);
    }
  }

  /**
   The fused dispatch equals the plain weighted sum for all weights and experts if and only if no pass leaves an expert
   with more rows than the scratch holds outside the fat path.
   */
  lemma FusedIsExactIffLossless(x: seq<Row>, ids: seq<seq<int>>, n: nat, emap: Option<seq<int>>, lim: Limits)
    requires |x| == |ids| && lim.rows > 0
    ensures Lossless(ids, n, emap, lim) <==>
              forall ws: seq<seq<int>>, f: Expert | SameShape(ids, ws) ::
                FusedSum(x, ids, ws, n, emap, f, lim) == Reference(x, ids, ws, n, emap, f)
  {
    hide Reference, Weighted, Served, PassLossless, SlicesLossless, MustSlice, Sliced;
    if Lossless(ids, n, emap, lim) {
      forall ws: seq<seq<int>>, f: Expert | SameShape(ids, ws)
        ensures FusedSum(x, ids, ws, n, emap, f, lim) == Reference(x, ids, ws, n, emap, f)
      {
        LosslessIsExact(x, ids, ws, n, emap, f, lim);
      }
    } else {
      if MustSlice(ids, n, emap, lim) { LossySlices(x, ids, n, emap, lim); } else { LossyPass(x, ids, n, emap, lim); }
      assert SameShape(ids, Ones(ids));
      assert FusedSum(x, ids, Ones(ids), n, emap, Unit(), lim) != Reference(x, ids, Ones(ids), n, emap, Unit());
    }
  }

  /** No token routes twice to one local expert. */
  predicate DistinctRoutes(ids: seq<seq<int>>, n: nat, emap: Option<seq<int>>) {
    forall t, j, k :: 0 <= t < |ids| && 0 <= j < k < |ids[t]| && LocalId(ids[t][j], n, emap) < n ==>
      LocalId(ids[t][j], n, emap) != LocalId(ids[t][k], n, emap)
  }

  lemma {:induction false} NoLoad(row: seq<int>, n: nat, emap: Option<seq<int>>, e: nat)
    requires forall k :: 0 <= k < |row| ==> LocalId(row[k], n, emap) != e
    ensures RowLoad(row, n, emap, e) == 0
  {
    if row != [] { NoLoad(row[1..], n, emap, e); }
  }

  lemma {:induction false} RowLoadAtMostOne(row: seq<int>, n: nat, emap: Option<seq<int>>, e: nat)
    requires e < n && forall j, k :: 0 <= j < k < |row| && LocalId(row[j], n, emap) < n ==>
               LocalId(row[j], n, emap) != LocalId(row[k], n, emap)
    ensures RowLoad(row, n, emap, e) <= 1
  {
    if row != [] {
      RowLoadAtMostOne(row[1..], n, emap, e);
      if LocalId(row[0], n, emap) == e { NoLoad(row[1..], n, emap, e); }
    }
  }

  /** One expert never sees more rows than there are tokens. */
  lemma {:induction false} LoadAtMostTokens(ids: seq<seq<int>>, n: nat, emap: Option<seq<int>>, e: nat)
    requires e < n && DistinctRoutes(ids, n, emap)
    ensures Load(ids, n, emap, e) <= |ids|
  {
    if ids != [] {
      RowLoadAtMostOne(ids[0], n, emap, e);
      LoadAtMostTokens(ids[1..], n, emap, e);
    }
  }

  lemma {:induction false} DistinctSlices(ids: seq<seq<int>>, n: nat, emap: Option<seq<int>>, lim: Limits)
    requires lim.rows > 0 && DistinctRoutes(ids, n, emap)
    ensures SlicesLossless(ids, n, emap, lim)
    decreases |ids|
  {
    var m := lim.rows;
    var first := if |ids| <= m then ids else ids[..m];
    forall e | 0 <= e < n ensures Load(first, n, emap, e) <= m { LoadAtMostTokens(first, n, emap, e); }
    if |ids| > m { DistinctSlices(ids[m..], n, emap, lim); }
  }

  /** Outside graph capture, a router that never repeats an expert within a token loses nothing. */
  lemma DistinctRoutesAreNeverLost(ids: seq<seq<int>>, n: nat, emap: Option<seq<int>>, lim: Limits)
    requires lim.rows > 0 && !lim.capturing && DistinctRoutes(ids, n, emap)
    ensures Lossless(ids, n, emap, lim)
  {
    if MustSlice(ids, n, emap, lim) {
      DistinctSlices(ids, n, emap, lim);
    } else {
      forall e | 0 <= e < n ensures Load(ids, n, emap, e) <= lim.rows { LoadAtMostTokens(ids, n, emap, e); }
    }
  }

  /** During graph capture nothing is sliced and nothing is fat: the scratch must hold every expert's rows. */
  lemma CaptureNeedsSmallLoads(ids: seq<seq<int>>, n: nat, emap: Option<seq<int>>, lim: Limits)
    requires lim.rows > 0 && lim.capturing
    ensures Lossless(ids, n, emap, lim) <==> forall e :: 0 <= e < n ==> Load(ids, n, emap, e) <= lim.rows
  {
    assert Lossless(ids, n, emap, lim) == PassLossless(ids, n, emap, lim);
    if PassLossless(ids, n, emap, lim) {
      forall e | 0 <= e < n ensures Load(ids, n, emap, e) <= lim.rows { assert !IsFat(ids, n, emap, lim, e); }
    } else {
      var e: nat :| e < n && !IsFat(ids, n, emap, lim, e) && Load(ids, n, emap, e) > lim.rows;
      assert 0 <= e < n && !(Load(ids, n, emap, e) <= lim.rows);
    }
  }

  /** `tokens` rows of two equal entries. */
  function Pairs(v: int, tokens: nat): (rows: seq<seq<int>>)
    ensures |rows| == tokens && forall t :: 0 <= t < tokens ==> rows[t] == [v, v]
  {
    seq(tokens, _ => [v, v])
  }

  lemma {:induction false} TwiceEach(tokens: nat)
    ensures Load(Pairs(0, tokens), 1, None, 0) == 2 * tokens
  {
    if tokens > 0 {
      var row: seq<int> := [0, 0];
      assert Pairs(0, tokens)[1..] == Pairs(0, tokens - 1);
      TwiceEach(tokens - 1);
      assert row[1..][1..] == [];
      assert RowLoad(row, 1, None, 0) == 2;
    }
  }

  lemma TwoRoutes(t: nat, row: Row, keep: nat -> bool)
    ensures SumOf(RowRoutes(t, [0, 0], [1, 1], 1, None), Share(row, Unit(), 1, keep)) == if keep(0) then 2 else 0
  {
    var one, share := Route(t, 0, 1), Share(row, Unit(), 1, keep);
    var rs := RowRoutes(t, [0, 0], [1, 1], 1, None);
    assert share(one) == if keep(0) then 1 else 0;
    assert LocalId(0, 1, None) == 0;
    assert |rs| == 2 && rs[0] == one && rs[1] == one;
    assert rs == [one] + [one];
    SumPush([one], one, share);
    assert [one] == [] + [one];
    SumPush([], one, share);
  }

  /**
   A concrete loss, outside graph capture and within the capacity in tokens: every token routes twice to the only
   expert, which then has more rows than the scratch holds, and all of its output is dropped.
   */
  lemma RepeatedRoutesAreLost(x: seq<Row>, lim: Limits)
    requires lim.rows < 2 * |x| && |x| <= lim.rows && |x| <= lim.fat
    ensures forall t :: 0 <= t < |x| ==>
              && FusedSum(x, Pairs(0, |x|), Pairs(1, |x|), 1, None, Unit(), lim)[t] == 0
              && Reference(x, Pairs(0, |x|), Pairs(1, |x|), 1, None, Unit())[t] == 2
  {
    var ids, ws := Pairs(0, |x|), Pairs(1, |x|);
    TwiceEach(|x|);
    var keep := Served(ids, 1, None, lim);
    assert !keep(0);
    forall t | 0 <= t < |x|
      ensures FusedSum(x, ids, ws, 1, None, Unit(), lim)[t] == 0 && Reference(x, ids, ws, 1, None, Unit())[t] == 2
    {
      TwoRoutes(t, x[t], keep);
      TwoRoutes(t, x[t], All());
    }
  }
}
