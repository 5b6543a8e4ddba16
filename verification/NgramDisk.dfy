/**
 The disk-backed n-gram table against the resident one (src/vllm_exl3/exl3.py, `_NgramDiskTable`, `_embedding_impl` and
 `_embedding_impl_disk`), with Python's and torch's own rules for negative indices.
 */
module NgramDisk {
  import opened Arithmetic
  import opened Options
  import opened Sequences

  /** A packed row, or a decoded one. */
  type Row = seq<int>

  /** `rows` rows in each shard; the resident table is their concatenation. */
  datatype Table = Table(shards: seq<seq<Row>>, rows: nat)

  predicate WellFormed(t: Table) {
    t.shards != [] && t.rows > 0 && forall s :: 0 <= s < |t.shards| ==> |t.shards[s]| == t.rows
  }

  function Total(t: Table): int { |t.shards| * t.rows }

  /******* Dividing ids among shards *******/

  lemma ShardBounds(id: int, shards: int, n: nat)
    requires n > 0
    ensures 0 <= id - id / n * n < n
    ensures id / n < shards <==> id < shards * n
  {
    if id / n < shards { MulMono(id / n + 1, shards, n); } else { MulMono(shards, id / n, n); }
  }

  /** Row `id` of the concatenated shards. */
  function RowAt(t: Table, id: int): (r: Row)
    requires WellFormed(t) && 0 <= id < Total(t)
  {
    ShardBounds(id, |t.shards|, t.rows);
    ShardBounds(id, 0, t.rows);
    t.shards[id / t.rows][id - id / t.rows * t.rows]
  }

  /******* One id *******/

  /** `index_select` refuses any index outside the table, negative ones included. */
  function IndexSelect(rows: seq<Row>, id: int): Result<Row> {
    if 0 <= id < |rows| then Ok(rows[id]) else Error(IndexError)
  }

  function ResidentRow(t: Table, id: int): Result<Row>
    requires WellFormed(t)
  {
    if 0 <= id < Total(t) then Ok(RowAt(t, id)) else Error(IndexError)
  }

  /** `self.views[s]`: a Python list counts negative indices from its end. */
  function ViewAt(views: seq<seq<Row>>, s: int): Result<seq<Row>> {
    if 0 <= s < |views| then Ok(views[s])
    else if 0 <= |views| + s < |views| then Ok(views[|views| + s])
    else Error(IndexError)
  }

  /** What `gather` returns for one id. */
  function DiskRow(t: Table, id: int): Result<Row>
    requires WellFormed(t)
  {
    if |t.shards| == 1 then IndexSelect(t.shards[0], id)
    else match ViewAt(t.shards, id / t.rows)
      case Error(e) => Error(e)
      case Ok(view) => IndexSelect(view, id - id / t.rows * t.rows)
  }

  /**
   With one shard an id is refused unless the table holds it; with more, an id also counts from the end of the table.
   */
  lemma DiskRowIs(t: Table, id: int)
    requires WellFormed(t)
    ensures DiskRow(t, id) ==
            if 0 <= id < Total(t) then Ok(RowAt(t, id))
            else if |t.shards| > 1 && 0 <= Total(t) + id < Total(t) then Ok(RowAt(t, Total(t) + id))
            else Error(IndexError)
  {
    if |t.shards| == 1 { OneShard(t, id); } else { ManyShards(t, id); }
  }

  lemma OneShard(t: Table, id: int)
    requires WellFormed(t) && |t.shards| == 1
    ensures Total(t) == t.rows && (0 <= id < Total(t) ==> RowAt(t, id) == t.shards[0][id])
  {
    if 0 <= id < t.rows { Quotient(id, 0, id, t.rows); }
  }

  lemma ManyShards(t: Table, id: int)
    requires WellFormed(t) && |t.shards| > 1
    ensures DiskRow(t, id) ==
            if 0 <= id < Total(t) then Ok(RowAt(t, id))
            else if 0 <= Total(t) + id < Total(t) then Ok(RowAt(t, Total(t) + id))
            else Error(IndexError)
  {
    var m, n := |t.shards|, t.rows;
    var q := id / n;
    ShardBounds(id, m, n);
    ShardBounds(id, 0, n);
    ShardBounds(id, 0 - m, n);
    assert (0 - m) * n == 0 - m * n;
    if id < 0 && 0 - m * n <= id {
      assert Total(t) + id == (m + q) * n + (id - q * n);
      Quotient(Total(t) + id, m + q, id - q * n, n);
    }
  }

  /******* Heads *******/

  /** Contiguous heads from zero, as checked when the weights have loaded. */
  predicate HeadsOk(offsets: seq<int>, sizes: seq<nat>) {
    && |offsets| == |sizes| > 0 && offsets[0] == 0
    && forall h :: 0 <= h < |offsets| - 1 ==> offsets[h + 1] == offsets[h] + sizes[h]
  }

  lemma {:induction false} HeadsAscend(offsets: seq<int>, sizes: seq<nat>, a: nat, b: nat)
    requires HeadsOk(offsets, sizes) && a <= b < |offsets|
    ensures offsets[a] <= offsets[b] && (a < b ==> offsets[a] + sizes[a] <= offsets[b])
    decreases b
  {
    if a < b { HeadsAscend(offsets, sizes, a, b - 1); }
  }

  /** `searchsorted(offsets, id, right=True)` */
  method UpperBound(offsets: seq<int>, id: int) returns (k: int)
    requires forall i, j :: 0 <= i <= j < |offsets| ==> offsets[i] <= offsets[j]
    ensures 0 <= k <= |offsets| && (forall i :: 0 <= i < k ==> offsets[i] <= id) && forall i :: k <= i < |offsets| ==>
              id < offsets[i]
  {
    var lo: nat, hi: nat := 0, |offsets|;
    while lo < hi
      invariant lo <= hi <= |offsets|
      invariant (forall i :: 0 <= i < lo ==> offsets[i] <= id) && forall i :: hi <= i < |offsets| ==> id < offsets[i]
    {
      var mid := (lo + hi) / 2;
      if offsets[mid] <= id { lo := mid + 1; } else { hi := mid; }
    }
    k := lo;
  }

  /** The last head that starts at or before `id`; the first one for a negative id. */
  predicate IsHead(offsets: seq<int>, id: int, h: nat) {
    h < |offsets| && if id < 0 then h == 0 else offsets[h] <= id && (h + 1 < |offsets| ==> id < offsets[h + 1])
  }

  /** `clamp_(lo, hi)` */
  function Clamp(x: int, lo: int, hi: int): int { if x < lo then lo else if x > hi then hi else x }

  /** `_heads_for` one id. */
  method HeadFor(offsets: seq<int>, sizes: seq<nat>, id: int) returns (h: nat)
    requires HeadsOk(offsets, sizes)
    ensures IsHead(offsets, id, h) && h == Head(offsets, id, |offsets|)
  {
    forall a, b | 0 <= a <= b < |offsets| ensures offsets[a] <= offsets[b] { HeadsAscend(offsets, sizes, a, b); }
    var k := UpperBound(offsets, id);
    h := Clamp(k - 1, 0, |offsets| - 1);
    HeadIs(offsets, sizes, id, |offsets|);
    HeadIsUnique(offsets, sizes, id, h, Head(offsets, id, |offsets|));
  }

  /** The head of `id`, counting down from head `n - 1`. */
  function Head(offsets: seq<int>, id: int, n: nat): (h: nat)
    requires n <= |offsets|
  {
    if n <= 1 || offsets[n - 1] <= id then (if n == 0 then 0 else n - 1) else Head(offsets, id, n - 1)
  }

  lemma {:induction false} HeadIs(offsets: seq<int>, sizes: seq<nat>, id: int, n: nat)
    requires HeadsOk(offsets, sizes) && 0 < n <= |offsets| && (n < |offsets| ==> id < offsets[n])
    ensures IsHead(offsets, id, Head(offsets, id, n))
  {
    HeadsAscend(offsets, sizes, 0, n - 1);
    if n > 1 && id < offsets[n - 1] { HeadIs(offsets, sizes, id, n - 1); }
  }

  lemma HeadIsUnique(offsets: seq<int>, sizes: seq<nat>, id: int, g: nat, h: nat)
    requires HeadsOk(offsets, sizes) && IsHead(offsets, id, g) && IsHead(offsets, id, h)
    ensures g == h
  {
    if g < h { HeadsAscend(offsets, sizes, g + 1, h); } else if h < g { HeadsAscend(offsets, sizes, h + 1, g); }
  }

  /** The head found is the one whose rows contain the id, if any does: empty heads are passed over. */
  lemma HeadContains(offsets: seq<int>, sizes: seq<nat>, id: int, h: nat, g: nat)
    requires HeadsOk(offsets, sizes) && IsHead(offsets, id, h) && g < |offsets|
             && offsets[g] <= id < offsets[g] + sizes[g]
    ensures g == h
  {
    HeadsAscend(offsets, sizes, 0, g);
    if g < h { HeadsAscend(offsets, sizes, g, h); } else if h < g { HeadsAscend(offsets, sizes, h + 1, g); }
  }

  /******* The lookups *******/

  datatype Layout = Layout(offsets: seq<int>, sizes: seq<nat>)

  type Decode = (Row, nat) -> Row

  function Decoded(l: Layout, id: int, row: Row, decode: Decode): Row {
    decode(row, Head(l.offsets, id, |l.offsets|))
  }

  /** Every id looked up in the resident table; any bad id fails the whole lookup. */
  function Resident(t: Table, l: Layout, ids: seq<int>, decode: Decode): (r: Result<seq<Row>>)
    requires WellFormed(t)
  {
    if forall i :: 0 <= i < |ids| ==> ResidentRow(t, ids[i]).Ok? then
      Ok(seq(|ids|, i requires 0 <= i < |ids| && ResidentRow(t, ids[i]).Ok? =>
               Decoded(l, ids[i], ResidentRow(t, ids[i]).value, decode)))
    else Error(IndexError)
  }

  /** Every id looked up on disk. */
  function Disk(t: Table, l: Layout, ids: seq<int>, decode: Decode): (r: Result<seq<Row>>)
    requires WellFormed(t)
  {
    if forall i :: 0 <= i < |ids| ==> DiskRow(t, ids[i]).Ok? then
      Ok(seq(|ids|, i requires 0 <= i < |ids| && DiskRow(t, ids[i]).Ok? =>
               Decoded(l, ids[i], DiskRow(t, ids[i]).value, decode)))
    else Error(IndexError)
  }

  /**
   The disk lookup is the resident lookup, row for row and failure for failure, exactly when the table has one shard, or
   no id is negative, or some id is out of range either way.  Otherwise it silently returns rows counted from the end
   where the resident lookup fails.
   */
  lemma DiskIsResident(t: Table, l: Layout, ids: seq<int>, decode: Decode)
    requires WellFormed(t)
    ensures Disk(t, l, ids, decode) == Resident(t, l, ids, decode) <==>
            || |t.shards| == 1
            || (forall i :: 0 <= i < |ids| ==> ids[i] >= 0)
            || exists i :: 0 <= i < |ids| && !(0 <= Total(t) + ids[i] < 2 * Total(t))
  {
    forall i | 0 <= i < |ids|
      ensures DiskRow(t, ids[i]).Ok?
              <==> ResidentRow(t, ids[i]).Ok? || (|t.shards| > 1 && 0 <= Total(t) + ids[i] < Total(t))
      ensures ResidentRow(t, ids[i]).Ok? ==> DiskRow(t, ids[i]) == ResidentRow(t, ids[i])
    {
      DiskRowIs(t, ids[i]);
    }
    hide DiskRow, ResidentRow, Decoded, WellFormed;
    var d, r := Disk(t, l, ids, decode), Resident(t, l, ids, decode);
    if d.Ok? && r.Ok? {
      forall i | 0 <= i < |ids| ensures d.value[i] == r.value[i] {}
      assert d.value == r.value;
    }
    InRange(t, ids);
  }

  lemma InRange(t: Table, ids: seq<int>)
    requires WellFormed(t)
    ensures forall i :: 0 <= i < |ids| ==> (ResidentRow(t, ids[i]).Ok? <==> 0 <= ids[i] < Total(t))
  {
  }

  /** Two shards of one row: id -1 fails on the resident table and returns the last row from disk. */
  lemma NegativeIdsDiffer(a: Row, b: Row)
    ensures var t := Table([[a], [b]], 1);
            WellFormed(t) && ResidentRow(t, -1) == Error(IndexError) && DiskRow(t, -1) == Ok(b)
  {
    var t := Table([[a], [b]], 1);
    assert -1 / t.rows == -1;
  }

  /******* The programs *******/

  /** `_embedding_impl` */
  method EmbedResident(t: Table, l: Layout, ids: seq<int>, decode: Decode) returns (r: Result<seq<Row>>)
    requires WellFormed(t) && HeadsOk(l.offsets, l.sizes)
    ensures r == Resident(t, l, ids, decode)
  {
    hide ResidentRow, Head;
    var out: seq<Row> := [];
    for i := 0 to |ids|
      invariant |out| == i && forall j :: 0 <= j < i ==>
                  ResidentRow(t, ids[j]).Ok? && out[j] == Decoded(l, ids[j], ResidentRow(t, ids[j]).value, decode)
    {
      var row := ResidentRow(t, ids[i]);
      if row.Error? { return Error(IndexError); }
      var h := HeadFor(l.offsets, l.sizes, ids[i]);
      out := out + [decode(row.value, h)];
    }
    r := Ok(out);
    assert Resident(t, l, ids, decode).Ok?;
    assert out == Resident(t, l, ids, decode).value;
  }

  /** First position not below `k`. */
  method Place(s: seq<int>, k: int) returns (p: nat)
    requires Ascending(s)
    ensures p <= |s| && (forall i :: 0 <= i < p ==> s[i] < k) && forall i :: p <= i < |s| ==> k <= s[i]
  {
    p := 0;
    while p < |s| && s[p] < k
      invariant p <= |s| && forall i :: 0 <= i < p ==> s[i] < k
    {
      p := p + 1;
    }
  }

  lemma InsertAscending(s: seq<int>, p: nat, k: int)
    requires Ascending(s) && p <= |s| && (forall i :: 0 <= i < p ==> s[i] < k) && forall i :: p <= i < |s| ==> k < s[i]
    ensures Ascending(s[..p] + [k] + s[p..]) && forall e :: e in s[..p] + [k] + s[p..] <==> e in s || e == k
  {
    assert s == s[..p] + s[p..];
  }

  /** `unique(return_inverse=True)`: the distinct ids ascending, and where each id went. */
  method Unique(ids: seq<int>) returns (uids: seq<int>, inverse: seq<nat>)
    ensures Ascending(uids)
    ensures |inverse| == |ids| && forall i :: 0 <= i < |ids| ==> inverse[i] < |uids| && uids[inverse[i]] == ids[i]
    ensures forall k :: k in uids <==> k in ids
  {
    uids := [];
    for n := 0 to |ids|
      invariant Ascending(uids) && forall k :: k in uids <==> k in ids[..n]
    {
      var p := Place(uids, ids[n]);
      if p == |uids| || uids[p] != ids[n] {
        InsertAscending(uids, p, ids[n]);
        uids := uids[..p] + [ids[n]] + uids[p..];
      }
      assert ids[..n + 1] == ids[..n] + [ids[n]];
    }
    assert ids[..|ids|] == ids;
    inverse := [];
    for n := 0 to |ids|
      invariant |inverse| == n && forall i :: 0 <= i < n ==> inverse[i] < |uids| && uids[inverse[i]] == ids[i]
    {
      var p := Place(uids, ids[n]);
      ghost var k := ids[n];
      assert k in ids && k in uids;
      inverse := inverse + [p];
    }
  }

  /** `views[0].index_select` */
  method SelectAll(rows: seq<Row>, ids: seq<int>) returns (r: Result<seq<Row>>)
    ensures r.Ok? <==> forall i :: 0 <= i < |ids| ==> IndexSelect(rows, ids[i]).Ok?
    ensures r.Ok? ==> |r.value| == |ids| && forall i :: 0 <= i < |ids| ==> IndexSelect(rows, ids[i]) == Ok(r.value[i])
  {
    var out: seq<Row> := [];
    for i := 0 to |ids|
      invariant |out| == i && forall j :: 0 <= j < i ==> IndexSelect(rows, ids[j]) == Ok(out[j])
    {
      if !(0 <= ids[i] < |rows|) { return Error(IndexError); }
      out := out + [rows[ids[i]]];
    }
    r := Ok(out);
  }

  /** The ids of the first shards handled have their rows. */
  ghost predicate Served(t: Table, uids: seq<int>, handled: seq<int>, out: seq<Row>)
    requires WellFormed(t)
  {
    |out| == |uids| && forall i :: 0 <= i < |uids| && uids[i] / t.rows in handled ==> DiskRow(t, uids[i]) == Ok(out[i])
  }

  /** `out[m] = views[s].index_select(0, local[m])` */
  method ServeShard(t: Table, uids: seq<int>, s: int, view: seq<Row>, out: array<Row>, ghost handled: seq<int>)
    requires WellFormed(t) && |t.shards| > 1 && ViewAt(t.shards, s) == Ok(view) && out.Length == |uids|
    requires Served(t, uids, handled, out[..])
    modifies out
    ensures Served(t, uids, handled + [s], out[..])
  {
    hide DiskRow;
    for i := 0 to |uids|
      invariant Served(t, uids, handled, out[..])
      invariant forall j :: 0 <= j < i && uids[j] / t.rows == s ==> DiskRow(t, uids[j]) == Ok(out[j])
    {
      if uids[i] / t.rows == s {
        FromView(t, uids[i], view);
        out[i] := view[uids[i] - s * t.rows];
      }
    }
  }

  lemma FromView(t: Table, id: int, view: seq<Row>)
    requires WellFormed(t) && |t.shards| > 1 && ViewAt(t.shards, id / t.rows) == Ok(view)
    ensures 0 <= id - id / t.rows * t.rows < |view| && DiskRow(t, id) == Ok(view[id - id / t.rows * t.rows])
  {
    ShardBounds(id, 0, t.rows);
  }

  lemma NoView(t: Table, id: int)
    requires WellFormed(t) && |t.shards| > 1 && ViewAt(t.shards, id / t.rows).Error?
    ensures DiskRow(t, id).Error?
  {
  }

  lemma NothingServed(t: Table, uids: seq<int>, out: seq<Row>)
    requires WellFormed(t) && |out| == |uids|
    ensures Served(t, uids, [], out)
  {
  }

  /** `_NgramDiskTable.gather`: shard by shard, each shard's rows scattered to the places that asked for them. */
  method Gather(t: Table, uids: seq<int>) returns (r: Result<seq<Row>>)
    requires WellFormed(t)
    ensures r.Ok? <==> forall i :: 0 <= i < |uids| ==> DiskRow(t, uids[i]).Ok?
    ensures r.Ok? ==> |r.value| == |uids| && forall i :: 0 <= i < |uids| ==> DiskRow(t, uids[i]) == Ok(r.value[i])
  {
    if |t.shards| == 1 {
      r := SelectAll(t.shards[0], uids);
      return;
    }
    hide DiskRow, ViewAt;
    var owners := seq(|uids|, i requires 0 <= i < |uids| => uids[i] / t.rows);
    var shards, places := Unique(owners);
    var out := new Row[|uids|](_ => []);
    NothingServed(t, uids, out[..]);
    for k := 0 to |shards|
      invariant Served(t, uids, shards[..k], out[..])
    {
      var view := ViewAt(t.shards, shards[k]);
      if view.Error? {
        ghost var owner := shards[k];
        assert owner in shards && owner in owners;
        ghost var i :| 0 <= i < |uids| && owners[i] == owner;
        NoView(t, uids[i]);
        return Error(IndexError);
      }
      ServeShard(t, uids, shards[k], view.value, out, shards[..k]);
      assert shards[..k + 1] == shards[..k] + [shards[k]];
    }
    assert shards[..|shards|] == shards;
    forall i | 0 <= i < |uids| ensures DiskRow(t, uids[i]) == Ok(out[i]) { assert owners[i] in owners; }
    r := Ok(out[..]);
  }

  /** `_embedding_impl_disk`: unique ids, host gather, one decode per distinct row, expanded by the inverse. */
  method EmbedDisk(t: Table, l: Layout, ids: seq<int>, decode: Decode) returns (r: Result<seq<Row>>)
    requires WellFormed(t) && HeadsOk(l.offsets, l.sizes)
    ensures r == Disk(t, l, ids, decode)
  {
    hide DiskRow, Head, WellFormed;
    var uids, inverse := Unique(ids);
    var packed := Gather(t, uids);
    if packed.Error? {
      ghost var i :| 0 <= i < |uids| && !DiskRow(t, uids[i]).Ok?;
      ghost var id := uids[i];
      assert id in uids && id in ids;
      return Error(IndexError);
    }
    var rows := DecodeAll(l, uids, packed.value, decode);
    r := Ok(seq(|ids|, i requires 0 <= i < |ids| && inverse[i] < |rows| => rows[inverse[i]]));
    forall i | 0 <= i < |ids| ensures DiskRow(t, ids[i]) == Ok(packed.value[inverse[i]]) {
      assert uids[inverse[i]] == ids[i];
    }
    assert Disk(t, l, ids, decode).Ok?;
    assert r.value == Disk(t, l, ids, decode).value;
  }

  method DecodeAll(l: Layout, ids: seq<int>, packed: seq<Row>, decode: Decode) returns (rows: seq<Row>)
    requires HeadsOk(l.offsets, l.sizes) && |packed| == |ids|
    ensures |rows| == |ids| && forall i :: 0 <= i < |ids| ==> rows[i] == Decoded(l, ids[i], packed[i], decode)
  {
    rows := [];
    for i := 0 to |ids|
      invariant |rows| == i && forall j :: 0 <= j < i ==> rows[j] == Decoded(l, ids[j], packed[j], decode)
    {
      var h := HeadFor(l.offsets, l.sizes, ids[i]);
      rows := rows + [decode(packed[i], h)];
    }
  }
}
