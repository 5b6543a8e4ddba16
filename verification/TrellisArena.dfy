/**
 Trellis arenas of one projection (src/vllm_exl3/exl3.py, `prepare_trellis_arena_plan`, `_direct_fill_trellis_slot` and
 `_pack_trellis_arenas`): experts of equal shape share one contiguous arena, filled slot by slot as tensors load, or
 packed from staged tensors afterwards.
 */
module TrellisArena {
  import opened Options
  import opened Sequences

  type Shape = seq<nat>

  datatype Tensor = Tensor(shape: Shape, data: seq<int>)

  function Numel(shape: Shape): nat {
    if shape == [] then 1 else shape[0] * Numel(shape[1..])
  }

  /** Where an expert's trellis lives: the arena of its shape, and its slot there. */
  datatype Slot = Slot(shape: Shape, at: nat)

  /******* The layout *******/

  /** Experts of shape `s` among the given ones, in their order. */
  function OfShape(eids: seq<int>, shapes: map<int, Shape>, s: Shape): (r: seq<int>)
    requires forall e :: e in eids ==> e in shapes
    ensures forall e :: e in r <==> e in eids && shapes[e] == s
    ensures Ascending(eids) ==> Ascending(r)
  {
    if eids == [] then []
    else
      var last := eids[|eids| - 1];
      assert forall e :: e in eids <==> e in eids[..|eids| - 1] || e == last;
      var init := OfShape(eids[..|eids| - 1], shapes, s);
      assert forall i :: 0 <= i < |init| ==> init[i] in init;
      if shapes[last] == s then init + [last] else init
  }

  lemma {:induction false} NoneOfShape(eids: seq<int>, shapes: map<int, Shape>, s: Shape)
    requires (forall e :: e in eids ==> e in shapes) && forall e :: e in eids ==> shapes[e] != s
    ensures OfShape(eids, shapes, s) == []
  {
    if eids != [] {
      assert eids[|eids| - 1] in eids;
      NoneOfShape(eids[..|eids| - 1], shapes, s);
    }
  }

  ghost predicate Grouped(order: seq<Shape>, groups: map<Shape, seq<int>>, eids: seq<int>, shapes: map<int, Shape>)
    requires forall e :: e in eids ==> e in shapes
  {
    && Distinct(order) && (forall s :: s in groups <==> s in order)
    && (forall e :: e in eids ==> shapes[e] in order)
    && forall s :: s in order ==> groups[s] == OfShape(eids, shapes, s)
  }

  lemma NoGroups(shapes: map<int, Shape>)
    ensures Grouped([], map[], [], shapes)
  {
  }

  lemma GroupedKeys(order: seq<Shape>, groups: map<Shape, seq<int>>, eids: seq<int>, shapes: map<int, Shape>)
    requires (forall e :: e in eids ==> e in shapes) && Grouped(order, groups, eids, shapes)
    ensures forall s :: s in groups <==> s in order
  {
  }

  /** One more expert joins its shape's group, or opens it. */
  lemma GroupStep(order: seq<Shape>, groups: map<Shape, seq<int>>, eids: seq<int>, shapes: map<int, Shape>, i: nat)
    requires i < |eids| && (forall e :: e in eids ==> e in shapes) && Grouped(order, groups, eids[..i], shapes)
    ensures var e := eids[i];
            var s := shapes[e];
            && (s in groups ==> Grouped(order, groups[s := groups[s] + [e]], eids[..i + 1], shapes))
            && (s !in groups ==> Grouped(order + [s], groups[s := []][s := [] + [e]], eids[..i + 1], shapes))
  {
    var e := eids[i];
    var s := shapes[e];
    assert eids[..i + 1] == eids[..i] + [e] && eids[..i + 1][..i] == eids[..i];
    forall t ensures OfShape(eids[..i + 1], shapes, t) == OfShape(eids[..i], shapes, t) + if s == t then [e] else [] {}
    if s in groups {
      JoinGroup(order, groups, eids[..i], eids[..i + 1], shapes, e);
    } else {
      NoneOfShape(eids[..i], shapes, s);
      OpenGroup(order, groups, eids[..i], eids[..i + 1], shapes, e);
    }
  }

  lemma JoinGroup(order: seq<Shape>, groups: map<Shape, seq<int>>, was: seq<int>, now: seq<int>,
                  shapes: map<int, Shape>, e: int)
    requires now == was + [e] && (forall x :: x in now ==> x in shapes) && Grouped(order, groups, was, shapes)
             && shapes[e] in groups
    requires forall t :: OfShape(now, shapes, t) == OfShape(was, shapes, t) + if shapes[e] == t then [e] else []
    ensures Grouped(order, groups[shapes[e] := groups[shapes[e]] + [e]], now, shapes)
  {
    hide OfShape;
  }

  lemma OpenGroup(order: seq<Shape>, groups: map<Shape, seq<int>>, was: seq<int>, now: seq<int>,
                  shapes: map<int, Shape>, e: int)
    requires now == was + [e] && (forall x :: x in now ==> x in shapes) && Grouped(order, groups, was, shapes)
             && shapes[e] !in groups
    requires forall t :: OfShape(now, shapes, t) == OfShape(was, shapes, t) + if shapes[e] == t then [e] else []
    requires OfShape(was, shapes, shapes[e]) == []
    ensures Grouped(order + [shapes[e]], groups[shapes[e] := []][shapes[e] := [] + [e]], now, shapes)
  {
    hide OfShape;
  }

  /** The layout that both paths must produce: slots in ascending order of expert within each shape. */
  ghost predicate LayoutOf(index: map<int, Slot>, eids: seq<int>, shapes: map<int, Shape>)
    requires forall e :: e in eids ==> e in shapes
  {
    && (forall e :: e in index <==> e in eids)
    && forall e :: e in index ==>
         && index[e].shape == shapes[e]
         && index[e].at < |OfShape(eids, shapes, shapes[e])| && OfShape(eids, shapes, shapes[e])[index[e].at] == e
  }

  /** Two experts never share a slot, and the layout leaves no choice. */
  lemma SlotsAreDistinct(index: map<int, Slot>, eids: seq<int>, shapes: map<int, Shape>, e: int, f: int)
    requires (forall x :: x in eids ==> x in shapes) && LayoutOf(index, eids, shapes) && e in index && f in index
    ensures index[e] == index[f] ==> e == f
  {
  }

  lemma LayoutIsUnique(a: map<int, Slot>, b: map<int, Slot>, eids: seq<int>, shapes: map<int, Shape>)
    requires Ascending(eids) && (forall x :: x in eids ==> x in shapes) && LayoutOf(a, eids, shapes)
             && LayoutOf(b, eids, shapes)
    ensures a == b
  {
    assert forall e :: e in a.Keys <==> e in b.Keys;
    forall e | e in a ensures a[e] == b[e] {
      OnePlace(OfShape(eids, shapes, shapes[e]), a[e].at, b[e].at);
    }
  }

  lemma OnePlace(s: seq<int>, i: nat, j: nat)
    requires Ascending(s) && i < |s| && j < |s| && s[i] == s[j]
    ensures i == j
  {
  }

  /******* Loading *******/

  datatype Load = Load(eid: int, tensor: Tensor)

  /** The last tensor loaded for an expert. */
  function Last(loads: seq<Load>, eid: int): Option<Tensor> {
    if loads == [] then None
    else if loads[|loads| - 1].eid == eid then Some(loads[|loads| - 1].tensor)
    else Last(loads[..|loads| - 1], eid)
  }

  lemma {:induction false} LastIsLoaded(loads: seq<Load>, eid: int)
    ensures Last(loads, eid).Some? ==> Load(eid, Last(loads, eid).value) in loads
    ensures forall t :: Load(eid, t) in loads ==> Last(loads, eid).Some?
  {
    if loads != [] {
      var n := |loads| - 1;
      LastIsLoaded(loads[..n], eid);
      assert forall l :: l in loads <==> l in loads[..n] || l == loads[n];
    }
  }

  /** When no expert is loaded twice, the order of loading does not matter. */
  lemma LoadOrderDoesNotMatter(a: seq<Load>, b: seq<Load>, eid: int)
    requires multiset(a) == multiset(b)
    requires forall i, j :: 0 <= i < j < |a| ==> a[i].eid != a[j].eid
    ensures Last(a, eid) == Last(b, eid)
  {
    LastIsLoaded(a, eid);
    LastIsLoaded(b, eid);
    assert forall l :: l in a <==> l in multiset(a);
    assert forall l :: l in b <==> l in multiset(b);
    if Last(a, eid).Some? && Last(b, eid).Some? {
      var x, y := Load(eid, Last(a, eid).value), Load(eid, Last(b, eid).value);
      assert x in a && y in a;
      var i :| 0 <= i < |a| && a[i] == x;
      var j :| 0 <= j < |a| && a[j] == y;
      assert i == j;
    }
  }

  class Arenas {
    const experts: nat
    var index: map<int, Slot>
    var arenas: map<Shape, array<seq<int>>>
    var planned: bool
    var staging: map<int, Tensor>

    ghost predicate Valid()
      reads this
    {
      && (forall e :: e in index ==> index[e].shape in arenas && index[e].at < arenas[index[e].shape].Length)
      && (forall e, f :: e in index && f in index && index[e] == index[f] ==> e == f)
      && forall s, t :: s in arenas && t in arenas && s != t ==> arenas[s] != arenas[t]
    }

    /** What each expert's parameter shows. */
    ghost function Contents(): (m: map<int, seq<int>>)
      requires Valid()
      reads this, arenas.Values
      ensures m.Keys == index.Keys
    {
      map e | e in index :: arenas[index[e].shape][index[e].at]
    }

    constructor (experts: nat)
      ensures Valid() && this.experts == experts && !planned && index == map[] && staging == map[] && arenas == map[]
    {
      this.experts, index, arenas, planned, staging := experts, map[], map[], false, map[];
    }

    /**
     The tensor is written to the expert's planned slot; without a plan, and for anything unplanned, the call is refused
     before a byte is written.
     */
    method Fill(eid: int, t: Tensor) returns (ok: bool)
      requires Valid()
      modifies arenas.Values
      ensures Valid()
      ensures ok <==> planned && eid in index && t.shape == index[eid].shape
      ensures Contents() == if ok then old(Contents())[eid := t.data] else old(Contents())
    {
      if !planned || eid !in index || t.shape != index[eid].shape { return false; }
      var arena := arenas[index[eid].shape];
      arena[index[eid].at] := t.data;
      ok := true;
      assert forall e :: e in index ==> Contents()[e] == old(Contents())[eid := t.data][e];
    }

    /** Loading straight into a plan, in whatever order the tensors come. */
    method LoadDirect(loads: seq<Load>) returns (ok: bool)
      requires Valid()
      modifies arenas.Values
      ensures Valid()
      ensures ok <==> forall i :: 0 <= i < |loads| ==>
                planned && loads[i].eid in index && loads[i].tensor.shape == index[loads[i].eid].shape
      ensures ok ==> forall e :: e in index ==>
                Contents()[e] == match Last(loads, e) case Some(t) => t.data case None => old(Contents())[e]
    {
      hide Valid;
      for i := 0 to |loads|
        invariant Valid()
        invariant forall j :: 0 <= j < i ==>
                    planned && loads[j].eid in index && loads[j].tensor.shape == index[loads[j].eid].shape
        invariant forall e :: e in index ==>
                    Contents()[e] == match Last(loads[..i], e) case Some(t) => t.data case None => old(Contents())[e]
      {
        assert loads[..i + 1][..i] == loads[..i];
        ok := Fill(loads[i].eid, loads[i].tensor);
        if !ok { return; }
      }
      assert loads[..|loads|] == loads;
      ok := true;
    }

    /** One expert takes slot `i` and takes over its source, if there is one. */
    method PlaceOne(arena: array<seq<int>>, s: Shape, i: nat, e: int, sources: map<int, Tensor>)
      requires Valid() && s in arenas && arenas[s] == arena && i < arena.Length && e !in index
      requires forall f :: f in index ==> index[f] != Slot(s, i)
      modifies this`index, arena
      ensures Valid() && index == old(index)[e := Slot(s, i)]
      ensures e in sources ==> arena[i] == sources[e].data
      ensures forall j :: 0 <= j < arena.Length && j != i ==> arena[j] == old(arena[j])
    {
      if e in sources { arena[i] := sources[e].data; }
      index := index[e := Slot(s, i)];
    }

    /** One arena: its experts take slots in order, and take over their source where there is one. */
    method PlaceGroup(s: Shape, group: seq<int>, sources: map<int, Tensor>) returns (ok: bool)
      requires Valid() && s !in arenas && Distinct(group) && forall e :: e in group ==> e !in index
      modifies this`index, this`arenas
      ensures Valid()
      ensures ok <==> forall e :: e in group ==> 0 <= e < experts
      ensures ok ==> forall e :: e in index <==> e in old(index) || e in group
      ensures ok ==> forall e :: e in old(index) ==> index[e] == old(index)[e]
      ensures ok ==> forall i :: 0 <= i < |group| ==> group[i] in index && index[group[i]] == Slot(s, i)
      ensures ok ==>
                s in arenas && fresh(arenas[s]) && arenas == old(arenas)[s := arenas[s]] && arenas[s].Length == |group|
      ensures ok ==> forall i :: 0 <= i < |group| && group[i] in sources ==> arenas[s][i] == sources[group[i]].data
    {
      var arena := new seq<int>[|group|];
      arenas := arenas[s := arena];
      for i := 0 to |group|
        invariant arenas == old(arenas)[s := arena]
        invariant forall j :: 0 <= j < i ==> 0 <= group[j] < experts
        invariant forall e :: e in index <==> e in old(index) || e in group[..i]
        invariant forall e :: e in old(index) ==> index[e] == old(index)[e]
        invariant forall j :: 0 <= j < i ==> group[j] in index && index[group[j]] == Slot(s, j)
        invariant forall j :: 0 <= j < i && group[j] in sources ==> arena[j] == sources[group[j]].data
        invariant forall e :: e in index && index[e].shape == s ==> index[e].at < i
        invariant Valid()
      {
        var e := group[i];
        assert e in group;
        if !(0 <= e < experts) { return false; }
        assert group[..i + 1] == group[..i] + [e];
        PlaceOne(arena, s, i, e, sources);
      }
      assert group[..|group|] == group;
      ok := true;
    }

    /** `by_shape`: the shapes in order of their first expert, and each shape's experts in order. */
    method GroupByShape(eids: seq<int>, shapes: map<int, Shape>)
      returns (order: seq<Shape>, groups: map<Shape, seq<int>>)
      requires forall e :: e in eids ==> e in shapes
      ensures Grouped(order, groups, eids, shapes)
    {
      hide Grouped;
      order, groups := [], map[];
      NoGroups(shapes);
      assert eids[..0] == [];
      for i := 0 to |eids|
        invariant Grouped(order, groups, eids[..i], shapes)
      {
        var e := eids[i];
        var s := shapes[e];
        GroupedKeys(order, groups, eids[..i], shapes);
        GroupStep(order, groups, eids, shapes, i);
        if s !in groups {
          order := order + [s];
          groups := groups[s := []];
        }
        groups := groups[s := groups[s] + [e]];
      }
      assert eids[..|eids|] == eids;
    }

    /** Every expert placed so far stands where the layout puts it and shows its source. */
    ghost predicate PlacedUpTo(eids: seq<int>, shapes: map<int, Shape>, sources: map<int, Tensor>, done: seq<Shape>)
      requires Valid() && forall e :: e in eids ==> e in shapes
      reads this, arenas.Values
    {
      && (forall s :: s in arenas <==> s in done)
      && (forall e :: e in index <==> e in eids && shapes[e] in done)
      && (forall e :: e in index ==>
            && index[e].shape == shapes[e]
            && index[e].at < |OfShape(eids, shapes, shapes[e])| && OfShape(eids, shapes, shapes[e])[index[e].at] == e)
      && forall e :: e in index && e in sources ==> Contents()[e] == sources[e].data
    }

    lemma NothingPlaced(eids: seq<int>, shapes: map<int, Shape>, sources: map<int, Tensor>)
      requires Valid() && (forall e :: e in eids ==> e in shapes) && index == map[] && arenas == map[]
      ensures PlacedUpTo(eids, shapes, sources, [])
    {
    }

    lemma AllPlaced(eids: seq<int>, shapes: map<int, Shape>, sources: map<int, Tensor>, order: seq<Shape>)
      requires Valid() && (forall e :: e in eids ==> e in shapes && shapes[e] in order)
               && PlacedUpTo(eids, shapes, sources, order)
      ensures LayoutOf(index, eids, shapes)
      ensures forall e :: e in eids && e in sources ==> Contents()[e] == sources[e].data
    {
    }

    /** The arena of one more shape. */
    method PlaceShape(eids: seq<int>, shapes: map<int, Shape>, sources: map<int, Tensor>, ghost done: seq<Shape>,
                      s: Shape, group: seq<int>)
      returns (ok: bool)
      requires Valid() && Ascending(eids) && (forall e :: e in eids ==> e in shapes) && s !in done
      requires group == OfShape(eids, shapes, s) && PlacedUpTo(eids, shapes, sources, done)
      modifies this`index, this`arenas
      ensures Valid()
      ensures ok <==> forall e :: e in group ==> 0 <= e < experts
      ensures ok ==> PlacedUpTo(eids, shapes, sources, done + [s]) && fresh(arenas.Values - old(arenas.Values))
    {
      hide OfShape;
      ok := PlaceGroup(s, group, sources);
      if !ok { return; }
      forall e | e in index
        ensures && index[e].shape == shapes[e] && index[e].at < |OfShape(eids, shapes, shapes[e])|
                && OfShape(eids, shapes, shapes[e])[index[e].at] == e
                && (e in sources ==> Contents()[e] == sources[e].data)
      {
        if e in group {
          var i :| 0 <= i < |group| && group[i] == e;
          assert index[group[i]] == Slot(s, i);
        } else {
          assert index[e].shape != s;
          assert old(Contents())[e] == Contents()[e];
        }
      }
    }

    /** All arenas of a fresh layer: the loop both paths share. */
    method Build(eids: seq<int>, shapes: map<int, Shape>, sources: map<int, Tensor>) returns (ok: bool)
      requires Valid() && index == map[] && arenas == map[] && Ascending(eids) && forall e :: e in eids ==> e in shapes
      modifies this`index, this`arenas
      ensures Valid()
      ensures ok <==> forall e :: e in eids ==> 0 <= e < experts
      ensures ok ==> LayoutOf(index, eids, shapes) && fresh(arenas.Values)
      ensures ok ==> forall e :: e in eids && e in sources ==> Contents()[e] == sources[e].data
    {
      hide OfShape, Ascending, PlacedUpTo, Valid, LayoutOf;
      NothingPlaced(eids, shapes, sources);
      var order, groups := GroupByShape(eids, shapes);
      for g := 0 to |order|
        invariant Valid() && PlacedUpTo(eids, shapes, sources, order[..g]) && fresh(arenas.Values)
        invariant forall e :: e in eids && shapes[e] in order[..g] ==> 0 <= e < experts
      {
        assert order[..g + 1] == order[..g] + [order[g]];
        NotYet(order, g);
        ok := PlaceShape(eids, shapes, sources, order[..g], order[g], groups[order[g]]);
        if !ok { return; }
      }
      assert order[..|order|] == order;
      AllPlaced(eids, shapes, sources, order);
      ok := true;
    }

    /** `prepare_trellis_arena_plan`: slots for every expert, their bytes still to come. */
    method Prepare(shapes: map<int, Shape>) returns (ok: bool)
      requires Valid() && index == map[] && arenas == map[]
      modifies this`index, this`arenas, this`planned
      ensures Valid() && planned == (old(planned) || ok)
      ensures ok <==> forall e :: e in shapes ==> 0 <= e < experts
      ensures ok ==> fresh(arenas.Values) && LaidOut(index, shapes)
    {
      var eids := SortedSet(shapes.Keys);
      ok := Build(eids, shapes, map[]);
      planned := planned || ok;
      assert Sorted(eids, shapes);
    }

    /** Without a plan a loaded tensor waits on the host. */
    method Stage(eid: int, t: Tensor)
      modifies this`staging
      ensures staging == old(staging)[eid := t]
    {
      staging := staging[eid := t];
    }

    method LoadStaged(loads: seq<Load>)
      modifies this`staging
      ensures forall e :: e in staging <==> e in old(staging) || Last(loads, e).Some?
      ensures forall e :: e in staging ==>
                staging[e] == match Last(loads, e) case Some(t) => t case None => old(staging)[e]
    {
      for i := 0 to |loads|
        invariant forall e :: e in staging <==> e in old(staging) || Last(loads[..i], e).Some?
        invariant forall e :: e in staging ==>
                    staging[e] == match Last(loads[..i], e) case Some(t) => t case None => old(staging)[e]
      {
        assert loads[..i + 1][..i] == loads[..i];
        Stage(loads[i].eid, loads[i].tensor);
      }
      assert loads[..|loads|] == loads;
    }

    /** `_pack_trellis_arenas`: staged tensors with any elements move into arenas; a planned layer is left alone. */
    method Pack() returns (ok: bool)
      requires Valid() && (!planned ==> index == map[] && arenas == map[])
      modifies this`index, this`arenas, this`staging
      ensures Valid()
      ensures planned ==> ok && index == old(index) && arenas == old(arenas)
      ensures !planned ==> (ok <==> forall e :: e in Packable(old(staging)) ==> 0 <= e < experts)
      ensures !planned && ok ==> staging == map[]
      ensures !planned && ok ==> LaidOut(index, Packable(old(staging)))
      ensures !planned && ok ==> forall e :: e in Packable(old(staging)) ==>
                e in index && Contents()[e] == old(staging)[e].data
    {
      if planned { return true; }
      var shapes := Packable(staging);
      var eids := SortedSet(shapes.Keys);
      ok := Build(eids, shapes, staging);
      if ok { staging := map[]; }
      assert Sorted(eids, shapes);
    }
  }

  /** The shapes of the staged tensors that have any elements. */
  function Packable(staging: map<int, Tensor>): map<int, Shape> {
    map e | e in staging && Numel(staging[e].shape) > 0 :: staging[e].shape
  }

  ghost predicate Sorted(eids: seq<int>, shapes: map<int, Shape>) {
    Ascending(eids) && forall e :: e in eids <==> e in shapes
  }

  /** The layout of a set of experts with given shapes. */
  ghost predicate LaidOut(index: map<int, Slot>, shapes: map<int, Shape>) {
    exists eids :: Sorted(eids, shapes) && LayoutOf(index, eids, shapes)
  }

  /** Both paths lay the same experts out in the same slots. */
  lemma LaidOutOnce(a: map<int, Slot>, b: map<int, Slot>, shapes: map<int, Shape>)
    requires LaidOut(a, shapes) && LaidOut(b, shapes)
    ensures a == b && a.Keys == shapes.Keys && forall e :: e in a ==> a[e].shape == shapes[e]
  {
    var x :| Sorted(x, shapes) && LayoutOf(a, x, shapes);
    var y :| Sorted(y, shapes) && LayoutOf(b, y, shapes);
    AscendingIsUnique(x, y);
    LayoutIsUnique(a, b, x, shapes);
    assert forall e :: e in a.Keys <==> e in shapes.Keys;
  }

  lemma FirstIsIn(s: seq<int>)
    requires s != []
    ensures s[0] in s
  {
  }

  lemma {:induction false} AscendingIsUnique(a: seq<int>, b: seq<int>)
    requires Ascending(a) && Ascending(b) && forall e :: e in a <==> e in b
    ensures a == b
  {
    if a == [] {
      if b != [] { FirstIsIn(b); }
    } else if b == [] {
      FirstIsIn(a);
    } else {
      FirstIsIn(a);
      FirstIsIn(b);
      forall e ensures e in a[1..] <==> e in b[1..] {
        assert a[0] == b[0];
        assert e in a[1..] <==> e in a && e != a[0];
        assert e in b[1..] <==> e in b && e != b[0];
      }
      AscendingIsUnique(a[1..], b[1..]);
    }
  }

  /**
   Planned experts exist, and whatever is loaded was planned, in that shape; not everything planned need be loaded.
   */
  ghost predicate AsPlanned(experts: nat, shapes: map<int, Shape>, loads: seq<Load>) {
    && (forall e :: e in shapes ==> 0 <= e < experts)
    && forall i :: 0 <= i < |loads| ==> loads[i].eid in shapes && loads[i].tensor.shape == shapes[loads[i].eid]
  }

  /** The experts that staging can hand to an arena: loaded, and with at least one element. */
  function Carried(shapes: map<int, Shape>, loads: seq<Load>): (m: map<int, Shape>) {
    map e | e in shapes && Last(loads, e).Some? && Numel(shapes[e]) > 0 :: shapes[e]
  }

  /** Plan, then fill slots as tensors load. */
  method LoadPlanned(experts: nat, shapes: map<int, Shape>, loads: seq<Load>) returns (direct: Arenas)
    requires AsPlanned(experts, shapes, loads)
    ensures direct.Valid() && LaidOut(direct.index, shapes)
    ensures forall e :: e in direct.index && Last(loads, e).Some? ==> direct.Contents()[e] == Last(loads, e).value.data
  {
    hide Last, LaidOut, Numel, Arenas.Valid;
    direct := new Arenas(experts);
    var planned := direct.Prepare(shapes);
    LaidOutOnce(direct.index, direct.index, shapes);
    var filled := direct.LoadDirect(loads);
  }

  /** Stage tensors as they load, then pack. */
  method LoadThenPack(experts: nat, shapes: map<int, Shape>, loads: seq<Load>) returns (packed: Arenas)
    requires AsPlanned(experts, shapes, loads)
    ensures packed.Valid() && LaidOut(packed.index, Carried(shapes, loads))
    ensures forall e :: e in packed.index ==>
              e in Carried(shapes, loads) && packed.Contents()[e] == Last(loads, e).value.data
  {
    hide Last, LaidOut, Numel, Packable, Carried, Arenas.Valid;
    packed := new Arenas(experts);
    packed.LoadStaged(loads);
    StagedShapes(shapes, loads, packed.staging);
    CarriedAre(shapes, loads);
    var done := packed.Pack();
    LaidOutOnce(packed.index, packed.index, Carried(shapes, loads));
  }

  /**
   The two load paths side by side, for every assignment of shapes to experts and every sequence of loads that keeps to
   it.  What staging carries has the same contents either way; and the two layouts are the same if and only if every
   planned expert is loaded and has at least one element.
   */
  method LoadBothWays(experts: nat, shapes: map<int, Shape>, loads: seq<Load>) returns (direct: Arenas, packed: Arenas)
    requires AsPlanned(experts, shapes, loads)
    ensures direct.Valid() && packed.Valid()
    ensures direct.index.Keys == shapes.Keys && packed.index.Keys == Carried(shapes, loads).Keys
    ensures forall e :: e in packed.index ==>
              e in direct.index && direct.Contents()[e] == packed.Contents()[e] == Last(loads, e).value.data
    ensures direct.index == packed.index <==> forall e :: e in shapes ==> Last(loads, e).Some? && Numel(shapes[e]) > 0
  {
    hide Last, LaidOut, Numel, Carried, Arenas.Valid;
    direct := LoadPlanned(experts, shapes, loads);
    packed := LoadThenPack(experts, shapes, loads);
    CarriedAre(shapes, loads);
    LaidOutOnce(direct.index, direct.index, shapes);
    LaidOutOnce(packed.index, packed.index, Carried(shapes, loads));
    if Carried(shapes, loads) == shapes { LaidOutOnce(direct.index, packed.index, shapes); }
  }

  lemma CarriedAre(shapes: map<int, Shape>, loads: seq<Load>)
    ensures forall e :: e in Carried(shapes, loads) <==> e in shapes && Last(loads, e).Some? && Numel(shapes[e]) > 0
    ensures forall e :: e in Carried(shapes, loads) ==> Carried(shapes, loads)[e] == shapes[e]
    ensures Carried(shapes, loads) == shapes
            <==> forall e :: e in shapes ==> Last(loads, e).Some? && Numel(shapes[e]) > 0
  {
    var m := Carried(shapes, loads);
    if forall e :: e in shapes ==> Last(loads, e).Some? && Numel(shapes[e]) > 0 {
      forall e ensures e in m.Keys <==> e in shapes.Keys {
        if e in shapes { assert Last(loads, e).Some? && Numel(shapes[e]) > 0; }
      }
      assert m.Keys == shapes.Keys;
    }
  }

  lemma LoadedShape(shapes: map<int, Shape>, loads: seq<Load>, e: int)
    requires Last(loads, e).Some?
    requires forall i :: 0 <= i < |loads| ==> loads[i].eid in shapes && loads[i].tensor.shape == shapes[loads[i].eid]
    ensures e in shapes && Last(loads, e).value.shape == shapes[e]
  {
    LastIsLoaded(loads, e);
  }

  lemma StagedShapes(shapes: map<int, Shape>, loads: seq<Load>, staging: map<int, Tensor>)
    requires forall i :: 0 <= i < |loads| ==> loads[i].eid in shapes && loads[i].tensor.shape == shapes[loads[i].eid]
    requires forall e :: e in staging <==> Last(loads, e).Some?
    requires forall e :: e in staging ==> staging[e] == Last(loads, e).value
    ensures Packable(staging) == Carried(shapes, loads)
  {
    hide Last, Numel;
    forall e | e in staging ensures e in shapes && staging[e].shape == shapes[e] { LoadedShape(shapes, loads, e); }
    assert forall e :: e in Packable(staging).Keys <==> e in Carried(shapes, loads).Keys;
  }
}
