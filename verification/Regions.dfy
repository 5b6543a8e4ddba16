/** The first-fit coalescing allocator of a fixed arena (expert_store.py, class Regions). */
module RegionSpec {
  import opened Options
  import opened Bytes

  /** Bytes `start` up to `start + len`. */
  datatype Block = Block(start: int, len: int) {
    function End(): int { start + len }
    predicate Has(x: int) { start <= x < End() }
  }

  datatype Region = Region(base: int, size: int, free: seq<Block>, used: map<int, int>)

  function Aligned(n: int): (m: int)
    ensures m % ALIGN == 0 && n <= m < n + ALIGN
    ensures n % ALIGN == 0 ==> m == n
  {
    (n + ALIGN - 1) / ALIGN * ALIGN
  }

  function Fresh(base: int, size: int): Region { Region(base, size, [Block(base, size)], map[]) }

  /******* allocate *******/

  /** Position of the first hole of at least `size` bytes, or `|free|`. */
  function FirstFit(free: seq<Block>, size: int): (i: nat)
    ensures i <= |free|
    ensures i < |free| ==> free[i].len >= size
    ensures forall j :: 0 <= j < i ==> free[j].len < size
  {
    if free == [] || free[0].len >= size then 0 else 1 + FirstFit(free[1..], size)
  }

  lemma FirstFitIs(free: seq<Block>, size: int, i: nat)
    requires i <= |free| && (forall j :: 0 <= j < i ==> free[j].len < size) && (i < |free| ==> free[i].len >= size)
    ensures FirstFit(free, size) == i
  {}

  function TakeFrom(free: seq<Block>, i: nat, size: int): seq<Block>
    requires i < |free|
  {
    free[..i]
    + (if free[i].len > size then [Block(free[i].start + size, free[i].len - size)] else [])
    + free[i + 1..]
  }

  function Allocate(r: Region, nbytes: int): (Region, Option<int>) {
    var size := Aligned(nbytes);
    var i := FirstFit(r.free, size);
    if i == |r.free| then (r, None)
    else
      (r.(free := TakeFrom(r.free, i, size), used := r.used[r.free[i].start := size]), Some(r.free[i].start))
  }

  /******* release *******/

  predicate Before(a: Block, b: Block) { a.start < b.start || (a.start == b.start && a.len <= b.len) }

  function Insert(s: seq<Block>, b: Block): seq<Block> {
    if s == [] || Before(b, s[0]) then [b] + s else [s[0]] + Insert(s[1..], b)
  }

  /** Python's `sorted` on pairs. */
  function Sorted(s: seq<Block>): seq<Block> {
    if s == [] then [] else Insert(Sorted(s[..|s| - 1]), s[|s| - 1])
  }

  function MergeInto(merged: seq<Block>, b: Block): seq<Block> {
    var n := |merged|;
    if n > 0 && merged[n - 1].End() == b.start
    then merged[..n - 1] + [Block(merged[n - 1].start, merged[n - 1].len + b.len)]
    else merged + [b]
  }

  function Merge(s: seq<Block>): seq<Block> {
    if s == [] then [] else MergeInto(Merge(s[..|s| - 1]), s[|s| - 1])
  }

  function Release(r: Region, offset: int): Region
    requires offset in r.used
  {
    r.(free := Merge(Sorted(r.free + [Block(offset, r.used[offset])])), used := r.used - {offset})
  }

  /******* What a region means *******/

  ghost predicate InFree(free: seq<Block>, x: int) {
    exists i :: 0 <= i < |free| && free[i].Has(x)
  }

  ghost predicate InUse(used: map<int, int>, x: int) {
    exists o :: o in used && o <= x < o + used[o]
  }

  /** Sorted by position; `gap` 1 also excludes adjacent blocks. */
  ghost predicate Ordered(free: seq<Block>, gap: int) {
    forall i, j :: 0 <= i < j < |free| ==> free[i].End() + gap <= free[j].start
  }

  ghost predicate BlockOk(r: Region, b: Block) {
    b.len > 0 && b.start % ALIGN == 0 && b.len % ALIGN == 0 && r.base <= b.start && b.End() <= r.base + r.size
  }

  ghost predicate FreeOk(r: Region) {
    Ordered(r.free, 1) && forall i :: 0 <= i < |r.free| ==> BlockOk(r, r.free[i])
  }

  ghost predicate UsedOk(r: Region) {
    && (forall o :: o in r.used ==> BlockOk(r, Block(o, r.used[o])))
    && (forall o, p :: o in r.used && p in r.used && o < p ==> o + r.used[o] <= p)
  }

  /** Every byte of the region is in exactly one of the free list and the allocated blocks. */
  ghost predicate Tiles(r: Region) {
    forall x :: r.base <= x < r.base + r.size ==> (InFree(r.free, x) <==> !InUse(r.used, x))
  }

  ghost predicate ValidRegion(r: Region) {
    && r.size > 0 && r.size % ALIGN == 0 && r.base % ALIGN == 0
    && FreeOk(r) && UsedOk(r) && Tiles(r)
  }

  lemma FreshValid(base: int, size: int)
    requires size > 0 && size % ALIGN == 0 && base % ALIGN == 0
    ensures ValidRegion(Fresh(base, size))
  {
    var r := Fresh(base, size);
    assert BlockOk(r, r.free[0]);
    forall x | base <= x < base + size ensures InFree(r.free, x) && !InUse(r.used, x) {
      assert r.free[0].Has(x);
    }
  }

  /******* allocate keeps the tiling *******/

  lemma CoverAppend(a: seq<Block>, b: seq<Block>, x: int)
    ensures InFree(a + b, x) <==> InFree(a, x) || InFree(b, x)
  {
    if InFree(a, x) {
      var i :| 0 <= i < |a| && a[i].Has(x);
      assert (a + b)[i].Has(x);
    }
    if InFree(b, x) {
      var i :| 0 <= i < |b| && b[i].Has(x);
      assert (a + b)[|a| + i].Has(x);
    }
  }

  lemma CoverOne(b: Block, x: int)
    ensures InFree([b], x) <==> b.Has(x)
  {
    assert [b][0] == b;
  }

  lemma TakenCover(r: Region, i: nat, size: int)
    requires FreeOk(r) && i < |r.free| && 0 < size <= r.free[i].len
    ensures var f := r.free[i];
            forall x :: InFree(TakeFrom(r.free, i, size), x) <==> InFree(r.free, x) && !(f.start <= x < f.start + size)
  {
    var f := r.free[i];
    var front, back := r.free[..i], r.free[i + 1..];
    var mid := if f.len > size then [Block(f.start + size, f.len - size)] else [];
    assert r.free == front + [f] + back;
    forall x ensures InFree(TakeFrom(r.free, i, size), x) <==> InFree(r.free, x) && !(f.start <= x < f.start + size) {
      CoverAppend(front + mid, back, x);
      CoverAppend(front, mid, x);
      CoverAppend(front + [f], back, x);
      CoverAppend(front, [f], x);
      CoverOne(f, x);
      if f.len > size { CoverOne(mid[0], x); }
      assert InFree(front, x) ==> x < f.start;
      assert InFree(back, x) ==> x >= f.End();
    }
  }

  lemma TakenOrdered(r: Region, i: nat, size: int)
    requires FreeOk(r) && i < |r.free| && 0 < size <= r.free[i].len && size % ALIGN == 0
    ensures FreeOk(r.(free := TakeFrom(r.free, i, size)))
  {
    var free := r.free;
    var out := TakeFrom(free, i, size);
    var shift := if free[i].len > size then 0 else 1;
    forall j | 0 <= j < |out|
      ensures var k := if j < i then j else j + shift;
              k < |free| && out[j].End() == free[k].End() && out[j].start >= free[k].start && BlockOk(r, out[j])
    {}
  }

  /** The new block was free in full, and the tiling moves over by exactly that block. */
  lemma AllocateKeepsValid(r: Region, nbytes: int)
    requires ValidRegion(r) && nbytes > 0
    ensures var (r', o) := Allocate(r, nbytes);
            && ValidRegion(r')
            && (o.Some? ==>
                  && o.value !in r.used && r'.used == r.used[o.value := Aligned(nbytes)]
                  && BlockOk(r, Block(o.value, Aligned(nbytes)))
                  && forall x :: o.value <= x < o.value + Aligned(nbytes) ==> InFree(r.free, x) && !InUse(r.used, x))
            && (o.None? ==> r' == r)
  {
    hide InFree, InUse, FirstFit;
    var size := Aligned(nbytes);
    var i := FirstFit(r.free, size);
    if i < |r.free| {
      var f := r.free[i];
      var r' := Allocate(r, nbytes).0;
      assert BlockOk(r, f);
      TakenCover(r, i, size);
      TakenOrdered(r, i, size);
      HoleIsFree(r, i, size);
      UsedKeys(r);
      UsedGrows(r.used, f.start, size);
      NewBlockApart(r, f.start, size);
    }
  }

  lemma HoleIsFree(r: Region, i: nat, size: int)
    requires i < |r.free| && 0 < size <= r.free[i].len
    ensures forall x :: r.free[i].start <= x < r.free[i].start + size ==> InFree(r.free, x)
  {
    assert forall x :: r.free[i].start <= x < r.free[i].start + size ==> r.free[i].Has(x);
  }

  lemma UsedKeys(r: Region)
    requires UsedOk(r)
    ensures forall o :: o in r.used ==> InUse(r.used, o)
  {
    forall o | o in r.used ensures InUse(r.used, o) { assert BlockOk(r, Block(o, r.used[o])); }
  }

  lemma UsedGrows(m: map<int, int>, o: int, size: int)
    requires o !in m
    ensures forall x :: InUse(m[o := size], x) <==> InUse(m, x) || o <= x < o + size
  {
    var m' := m[o := size];
    forall x | o <= x < o + size ensures InUse(m', x) {
      assert o in m' && m'[o] == size;
    }
    forall x | InUse(m, x) ensures InUse(m', x) {
      var p :| p in m && p <= x < p + m[p];
      assert p in m' && m'[p] == m[p];
    }
  }

  lemma NewBlockApart(r: Region, o: int, size: int)
    requires UsedOk(r) && size > 0 && forall x :: o <= x < o + size ==> !InUse(r.used, x)
    ensures forall p :: p in r.used ==> p + r.used[p] <= o || o + size <= p
  {
    forall p | p in r.used
      ensures p + r.used[p] <= o || o + size <= p
    {
      assert BlockOk(r, Block(p, r.used[p]));
      var x := if p <= o then o else p;
      if p < o + size && o < p + r.used[p] {
        assert InUse(r.used, x);
      }
    }
  }

  /** First fit: the hole taken is the lowest that is large enough, and `None` means there is none. */
  lemma AllocateIsFirstFit(r: Region, nbytes: int)
    requires ValidRegion(r) && nbytes > 0
    ensures var o := Allocate(r, nbytes).1;
            && (o.None? <==> forall b :: b in r.free ==> b.len < nbytes)
            && (o.Some? ==> exists b :: b in r.free && b.start == o.value && b.len >= nbytes)
            && (o.Some? ==> forall b :: b in r.free && b.len >= nbytes ==> o.value <= b.start)
  {
    var size := Aligned(nbytes);
    var i := FirstFit(r.free, size);
    forall b | b in r.free ensures b.len >= nbytes <==> b.len >= size {
      assert BlockOk(r, b);
      FitsAligned(b.len, nbytes);
    }
    if i < |r.free| {
      assert r.free[i] in r.free;
      forall b | b in r.free && b.len >= nbytes ensures r.free[i].start <= b.start {
        var j :| 0 <= j < |r.free| && r.free[j] == b;
        assert j >= i;
        assert BlockOk(r, r.free[i]);
      }
    }
  }

  lemma FitsAligned(len: int, n: int)
    requires len % ALIGN == 0
    ensures len >= n <==> len >= Aligned(n)
  {}

  /******* release keeps the tiling *******/

  lemma {:induction false} SortedPrefix(s: seq<Block>)
    requires Ordered(s, 0) && forall i :: 0 <= i < |s| ==> s[i].len > 0
    ensures Sorted(s) == s
  {
    if s != [] {
      var n := |s| - 1;
      SortedPrefix(s[..n]);
      InsertLast(s[..n], s[n]);
      assert s == s[..n] + [s[n]];
    }
  }

  lemma {:induction false} InsertLast(s: seq<Block>, b: Block)
    requires forall i :: 0 <= i < |s| ==> s[i].start < b.start
    ensures Insert(s, b) == s + [b]
  {
    if s != [] { InsertLast(s[1..], b); }
  }

  /** Inserting a block among blocks it does not overlap. */
  lemma {:induction false} InsertApart(s: seq<Block>, b: Block)
    requires Ordered(s, 0) && b.len > 0 && forall i :: 0 <= i < |s| ==>
               s[i].len > 0 && (s[i].End() <= b.start || b.End() <= s[i].start)
    ensures var t := Insert(s, b);
            && |t| == |s| + 1 && Ordered(t, 0) && (forall c :: c in t <==> c == b || c in s)
  {
    if s != [] && !Before(b, s[0]) {
      InsertApart(s[1..], b);
      var u := Insert(s[1..], b);
      var t := [s[0]] + u;
      assert forall c :: c in s <==> c == s[0] || c in s[1..];
      forall j | 0 < j < |t| ensures s[0].End() <= t[j].start {
        assert t[j] in u;
        if t[j] != b {
          var k :| 0 <= k < |s[1..]| && s[1..][k] == t[j];
          assert s[k + 1] == t[j];
        }
      }
    }
  }

  ghost predicate SameCover(a: seq<Block>, b: seq<Block>) {
    forall x :: InFree(a, x) <==> InFree(b, x)
  }

  /** Merging adjacent blocks changes no byte's status and leaves no adjacent blocks. */
  lemma {:induction false} MergeKeepsCover(s: seq<Block>)
    requires Ordered(s, 0) && forall i :: 0 <= i < |s| ==> s[i].len > 0
    ensures var m := Merge(s);
            && Ordered(m, 1) && (forall i :: 0 <= i < |m| ==> m[i].len > 0)
            && SameCover(m, s) && (s != [] ==> m != [] && m[|m| - 1].End() == s[|s| - 1].End())
  {
    hide Merge, MergeInto, InFree;
    NothingToMerge();
    if s != [] {
      var n := |s| - 1;
      var front, last := s[..n], s[n];
      MergeKeepsCover(front);
      MergeUnfolds(front, last);
      assert s == front + [last];
      if n > 0 { assert front[n - 1].End() <= last.start; }
      MergeIntoCover(Merge(front), last);
      PushCover(front, last);
    }
  }

  lemma NothingToMerge()
    ensures Merge([]) == []
  {
  }

  lemma MergeUnfolds(s: seq<Block>, b: Block)
    ensures Merge(s + [b]) == MergeInto(Merge(s), b)
  {
    assert (s + [b])[..|s|] == s;
  }

  lemma PushCover(s: seq<Block>, b: Block)
    ensures forall x :: InFree(s + [b], x) <==> InFree(s, x) || b.Has(x)
  {
    forall x ensures InFree(s + [b], x) <==> InFree(s, x) || b.Has(x) {
      CoverAppend(s, [b], x);
      CoverOne(b, x);
    }
  }

  lemma MergeIntoCover(m: seq<Block>, b: Block)
    requires Ordered(m, 1) && b.len > 0 && (forall i :: 0 <= i < |m| ==> m[i].len > 0)
    requires m != [] ==> m[|m| - 1].End() <= b.start
    ensures var t := MergeInto(m, b);
            && Ordered(t, 1) && (forall i :: 0 <= i < |t| ==> t[i].len > 0) && t != [] && t[|t| - 1].End() == b.End()
            && forall x :: InFree(t, x) <==> InFree(m, x) || b.Has(x)
  {
    var n := |m|;
    if n > 0 && m[n - 1].End() == b.start {
      var joined := Block(m[n - 1].start, m[n - 1].len + b.len);
      PushCover(m[..n - 1], joined);
      PushCover(m[..n - 1], m[n - 1]);
      assert m == m[..n - 1] + [m[n - 1]];
    } else {
      PushCover(m, b);
      if n > 0 { assert forall i :: 0 <= i < n ==> m[i].End() <= m[n - 1].End(); }
    }
  }

  /** Merging keeps alignment and stays inside the region. */
  lemma {:induction false} MergeKeepsOk(r: Region, s: seq<Block>)
    requires forall i :: 0 <= i < |s| ==> BlockOk(r, s[i])
    ensures forall i :: 0 <= i < |Merge(s)| ==> BlockOk(r, Merge(s)[i])
  {
    if s != [] {
      var n := |s| - 1;
      var front, last := s[..n], s[n];
      MergeKeepsOk(r, front);
      MergeUnfolds(front, last);
      assert s == front + [last];
      MergeIntoOk(r, Merge(front), last);
    }
  }

  lemma MergeIntoOk(r: Region, m: seq<Block>, b: Block)
    requires (forall i :: 0 <= i < |m| ==> BlockOk(r, m[i])) && BlockOk(r, b)
    ensures forall i :: 0 <= i < |MergeInto(m, b)| ==> BlockOk(r, MergeInto(m, b)[i])
  {
    var n := |m|;
    if n > 0 && m[n - 1].End() == b.start { JoinAligned(m[n - 1].len, b.len); }
  }

  lemma JoinAligned(a: int, b: int)
    requires a % ALIGN == 0 && b % ALIGN == 0
    ensures (a + b) % ALIGN == 0
  {}

  lemma ReleasedApart(r: Region, o: int)
    requires ValidRegion(r) && o in r.used
    ensures forall i :: 0 <= i < |r.free| ==> r.free[i].End() <= o || o + r.used[o] <= r.free[i].start
  {
    forall i | 0 <= i < |r.free|
      ensures r.free[i].End() <= o || o + r.used[o] <= r.free[i].start
    {
      var f := r.free[i];
      assert BlockOk(r, f) && BlockOk(r, Block(o, r.used[o]));
      if f.End() > o && o + r.used[o] > f.start {
        var x := if f.start <= o then o else f.start;
        assert InFree(r.free, x) && InUse(r.used, x);
      }
    }
  }

  lemma UsedShrinks(r: Region, o: int)
    requires UsedOk(r) && o in r.used
    ensures forall x :: InUse(r.used - {o}, x) <==> InUse(r.used, x) && !(o <= x < o + r.used[o])
  {
    var m := r.used;
    forall x ensures InUse(m - {o}, x) <==> InUse(m, x) && !(o <= x < o + m[o]) {
      if InUse(m - {o}, x) {
        var p :| p in m - {o} && p <= x < p + m[p];
        assert p in m && p != o;
      }
      if InUse(m, x) && !(o <= x < o + m[o]) {
        var p :| p in m && p <= x < p + m[p];
        assert p in m - {o};
      }
    }
  }

  lemma ReleaseKeepsValid(r: Region, o: int)
    requires ValidRegion(r) && o in r.used
    ensures ValidRegion(Release(r, o))
  {
    var b := Block(o, r.used[o]);
    var s := Sorted(r.free + [b]);
    ReleasedApart(r, o);
    SortedPrefix(r.free);
    assert (r.free + [b])[..|r.free|] == r.free;
    assert s == Insert(r.free, b);
    InsertApart(r.free, b);
    forall i | 0 <= i < |s| ensures BlockOk(r, s[i]) { assert s[i] in s; }
    MergeKeepsCover(s);
    MergeKeepsOk(r, s);
    UsedShrinks(r, o);
    InsertCover(r.free, s, b);
    ReleasedTiles(r, Release(r, o), o);
  }

  lemma ReleasedTiles(r: Region, r': Region, o: int)
    requires ValidRegion(r) && o in r.used && r' == r.(free := r'.free, used := r.used - {o})
    requires forall x :: InFree(r'.free, x) <==> InFree(r.free, x) || o <= x < o + r.used[o]
    requires forall x :: InUse(r'.used, x) <==> InUse(r.used, x) && !(o <= x < o + r.used[o])
    ensures Tiles(r') && UsedOk(r')
  {
    forall p | p in r'.used ensures BlockOk(r', Block(p, r'.used[p])) {
      assert BlockOk(r, Block(p, r.used[p]));
    }
    forall x | o <= x < o + r.used[o] ensures InUse(r.used, x) {}
  }

  lemma InsertCover(free: seq<Block>, s: seq<Block>, b: Block)
    requires forall c :: c in s <==> c == b || c in free
    ensures forall x :: InFree(s, x) <==> InFree(free, x) || b.Has(x)
  {
    forall x ensures InFree(s, x) <==> InFree(free, x) || b.Has(x) {
      if InFree(s, x) {
        var i :| 0 <= i < |s| && s[i].Has(x);
        assert s[i] in s;
        if s[i] != b { var j :| 0 <= j < |free| && free[j] == s[i]; }
      }
      if InFree(free, x) {
        var i :| 0 <= i < |free| && free[i].Has(x);
        assert free[i] in s;
        var j :| 0 <= j < |s| && s[j] == free[i];
      }
      if b.Has(x) {
        assert b in s;
        var j :| 0 <= j < |s| && s[j] == b;
      }
    }
  }

  /******* The free list is canonical *******/

  lemma FirstOfCover(a: seq<Block>, x: int)
    requires Ordered(a, 1) && a != [] && (forall i :: 0 <= i < |a| ==> a[i].len > 0) && InFree(a, x)
    ensures a[0].start <= x && (x >= a[0].End() ==> x > a[0].End() && InFree(a[1..], x))
  {
    var i :| 0 <= i < |a| && a[i].Has(x);
    if i > 0 { assert a[1..][i - 1].Has(x); }
  }

  lemma TailCover(a: seq<Block>, x: int)
    requires Ordered(a, 1) && a != [] && (forall i :: 0 <= i < |a| ==> a[i].len > 0)
    ensures InFree(a[1..], x) <==> InFree(a, x) && x > a[0].End()
    ensures !InFree(a, a[0].End()) && (a[0].Has(x) ==> InFree(a, x))
  {
    if InFree(a[1..], x) {
      var i :| 0 <= i < |a[1..]| && a[1..][i].Has(x);
      assert a[i + 1].Has(x);
    }
    if InFree(a, x) { FirstOfCover(a, x); }
    if InFree(a, a[0].End()) { FirstOfCover(a, a[0].End()); }
  }

  lemma FirstBlocksAgree(a: seq<Block>, b: seq<Block>)
    requires Ordered(a, 1) && Ordered(b, 1) && a != [] && b != []
    requires forall i :: 0 <= i < |a| ==> a[i].len > 0
    requires forall i :: 0 <= i < |b| ==> b[i].len > 0
    requires SameCover(a, b)
    ensures a[0] == b[0]
  {
    TailCover(a, a[0].start);
    TailCover(b, b[0].start);
    FirstOfCover(a, b[0].start);
    FirstOfCover(b, a[0].start);
    TailCover(b, a[0].End());
    TailCover(a, b[0].End());
  }

  /** Two free lists in canonical form that cover the same bytes are the same list. */
  lemma {:induction false} CanonicalFree(a: seq<Block>, b: seq<Block>)
    requires Ordered(a, 1) && Ordered(b, 1) && SameCover(a, b)
    requires forall i :: 0 <= i < |a| ==> a[i].len > 0
    requires forall i :: 0 <= i < |b| ==> b[i].len > 0
    ensures a == b
    decreases |a|
  {
    if a == [] || b == [] {
      if a != [] { TailCover(a, a[0].start); }
      if b != [] { TailCover(b, b[0].start); }
    } else {
      FirstBlocksAgree(a, b);
      forall x ensures InFree(a[1..], x) <==> InFree(b[1..], x) {
        TailCover(a, x);
        TailCover(b, x);
      }
      CanonicalFree(a[1..], b[1..]);
    }
  }

  lemma FreeInRegion(r: Region, x: int)
    requires FreeOk(r) && InFree(r.free, x)
    ensures r.base <= x < r.base + r.size
  {
    var i :| 0 <= i < |r.free| && r.free[i].Has(x);
    assert BlockOk(r, r.free[i]);
  }

  /** Which blocks are free depends only on which are allocated, not on the order in which that came about. */
  lemma FreeListIsDetermined(r: Region, q: Region)
    requires ValidRegion(r) && ValidRegion(q)
    requires r.base == q.base && r.size == q.size && r.used == q.used
    ensures r == q
  {
    forall x ensures InFree(r.free, x) <==> InFree(q.free, x) {
      if InFree(r.free, x) { FreeInRegion(r, x); }
      if InFree(q.free, x) { FreeInRegion(q, x); }
    }
    assert forall i :: 0 <= i < |r.free| ==> BlockOk(r, r.free[i]);
    assert forall i :: 0 <= i < |q.free| ==> BlockOk(q, q.free[i]);
    CanonicalFree(r.free, q.free);
  }

  /** Releasing what was just allocated restores the region exactly: the rollback of a failed load. */
  lemma ReleaseUndoesAllocate(r: Region, nbytes: int)
    requires ValidRegion(r) && nbytes > 0 && Allocate(r, nbytes).1.Some?
    ensures var (r', o) := Allocate(r, nbytes); Release(r', o.value) == r
  {
    AllocateKeepsValid(r, nbytes);
    var (r', o) := Allocate(r, nbytes);
    ReleaseKeepsValid(r', o.value);
    assert r.used[o.value := Aligned(nbytes)] - {o.value} == r.used;
    FreeListIsDetermined(Release(r', o.value), r);
  }

  /** With nothing allocated the region is one block again, so anything up to its size fits. */
  lemma EmptyRegionIsWhole(r: Region, nbytes: int)
    requires ValidRegion(r) && r.used == map[]
    ensures r == Fresh(r.base, r.size)
    ensures 0 < nbytes <= r.size ==> Allocate(r, nbytes).1 == Some(r.base)
  {
    FreshValid(r.base, r.size);
    FreeListIsDetermined(r, Fresh(r.base, r.size));
    FitsAligned(r.size, nbytes);
  }

  /** Any history of the allocator. */
  datatype Op = Alloc(nbytes: int) | Free(offset: int)

  function Apply(r: Region, op: Op): Region {
    match op
    case Alloc(n) => if n <= 0 then r else Allocate(r, n).0
    case Free(o) => if o in r.used then Release(r, o) else r
  }

  function ApplyAll(r: Region, ops: seq<Op>): Region
    decreases |ops|
  {
    if ops == [] then r else ApplyAll(Apply(r, ops[0]), ops[1..])
  }

  /** After any sequence of calls, accepted or refused, free and allocated blocks tile the region. */
  lemma {:induction false} EveryHistoryTiles(r: Region, ops: seq<Op>)
    requires ValidRegion(r)
    ensures ValidRegion(ApplyAll(r, ops)) && ApplyAll(r, ops).base == r.base && ApplyAll(r, ops).size == r.size
    ensures ApplyAll(r, ops).used == map[] ==> ApplyAll(r, ops) == Fresh(r.base, r.size)
    decreases |ops|
  {
    if ops != [] {
      match ops[0] {
        case Alloc(n) => if n > 0 { AllocateKeepsValid(r, n); }
        case Free(o) => if o in r.used { ReleaseKeepsValid(r, o); }
      }
      EveryHistoryTiles(Apply(r, ops[0]), ops[1..]);
    } else if r.used == map[] {
      EmptyRegionIsWhole(r, 1);
    }
  }
}

/** The allocator as the object that rewrites its two lists. */
module RegionsObject {
  import opened Options
  import opened Bytes
  import opened RegionSpec

  class Regions {
    ghost const base: int
    ghost const size: int
    var free: seq<Block>
    var used: map<int, int>

    ghost function View(): Region
      reads this
    {
      Region(base, size, free, used)
    }

    constructor (size: int, base: int)
      requires size > 0 && size % ALIGN == 0 && base % ALIGN == 0
      ensures View() == Fresh(base, size) && ValidRegion(View())
    {
      this.base, this.size := base, size;
      free := [Block(base, size)];
      used := map[];
      new;
      FreshValid(base, size);
    }

    /** Lowest hole that fits, split if it is larger than needed; the region is untouched when there is none. */
    method Allocate(nbytes: int) returns (r: Result<Option<int>>)
      requires ValidRegion(View())
      modifies this
      ensures ValidRegion(View())
      ensures nbytes <= 0 ==> r == Error(ValueError) && View() == old(View())
      ensures nbytes > 0 ==> r.Ok? && (View(), r.value) == RegionSpec.Allocate(old(View()), nbytes)
    {
      hide ValidRegion, BlockOk, InFree, InUse, Aligned, FirstFit;
      if nbytes <= 0 { return Error(ValueError); }
      var size := Aligned(nbytes);
      ghost var before := View();
      AllocateKeepsValid(before, nbytes);
      for i := 0 to |free|
        invariant View() == before
        invariant forall j :: 0 <= j < i ==> free[j].len < size
      {
        var offset, length := free[i].start, free[i].len;
        if length >= size {
          FirstFitIs(free, size, i);
          free := free[..i] + (if length > size then [Block(offset + size, length - size)] else []) + free[i + 1..];
          used := used[offset := size];
          return Ok(Some(offset));
        }
      }
      FirstFitIs(free, size, |free|);
      return Ok(None);
    }

    /** Give a block back and merge it with its neighbours. */
    method Release(offset: int) returns (r: Result<()>)
      requires ValidRegion(View())
      modifies this
      ensures ValidRegion(View())
      ensures r == (if offset in old(used) then Ok(()) else Error(KeyError))
      ensures View() == if offset in old(used) then RegionSpec.Release(old(View()), offset) else old(View())
    {
      if offset !in used { return Error(KeyError); }
      ReleaseKeepsValid(View(), offset);
      var size := used[offset];
      used := used - {offset};
      free := free + [Block(offset, size)];
      free := Merged(Sorted(free));
      r := Ok(());
    }

    /** Blocks in order of offset, each joined to its predecessor if they touch. */
    static method Merged(sorted: seq<Block>) returns (merged: seq<Block>)
      ensures merged == Merge(sorted)
    {
      merged := [];
      for i := 0 to |sorted|
        invariant merged == Merge(sorted[..i])
      {
        var b := sorted[i];
        assert sorted[..i + 1][..i] == sorted[..i];
        var n := |merged|;
        if n > 0 && merged[n - 1].start + merged[n - 1].len == b.start {
          merged := merged[..n - 1] + [Block(merged[n - 1].start, merged[n - 1].len + b.len)];
        } else {
          merged := merged + [b];
        }
      }
      assert sorted[..|sorted|] == sorted;
    }
  }
}
