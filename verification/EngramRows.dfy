/** The bounded row cache with one outstanding prefetch (experiments/dsv41_nvme/engram_rows.py). */
module EngramSpec {
  import opened Bytes
  import opened Sequences

  const MAX_ROWS := 131072
  const MAX_REQUEST := 8192
  const DIM := 256
  const SCALE := 8

  /** The two table files, and where the table starts in each. */
  datatype Table = Table(weights: seq<Byte>, wOffset: nat, scales: seq<Byte>, sOffset: nat, rows: nat)

  predicate Extent(t: Table) {
    0 < t.rows && t.wOffset + t.rows * DIM <= |t.weights| && t.sOffset + t.rows * SCALE <= |t.scales|
  }

  function RowWeights(t: Table, r: nat): (b: seq<Byte>)
    requires Extent(t) && r < t.rows
    ensures |b| == DIM
  {
    t.weights[t.wOffset + r * DIM..t.wOffset + r * DIM + DIM]
  }

  function RowScales(t: Table, r: nat): (b: seq<Byte>)
    requires Extent(t) && r < t.rows
    ensures |b| == SCALE
  {
    t.scales[t.sOffset + r * SCALE..t.sOffset + r * SCALE + SCALE]
  }

  function RowBytes(t: Table, r: nat): (b: seq<Byte>)
    requires Extent(t) && r < t.rows
    ensures |b| == DIM + SCALE && b[..DIM] == RowWeights(t, r) && b[DIM..] == RowScales(t, r)
  {
    RowWeights(t, r) + RowScales(t, r)
  }

  datatype Signature = Signature(rows: seq<int>, owned: seq<bool>)
  datatype Payload = Unowned | Row(data: seq<Byte>)

  /** What `_validate` accepts. */
  predicate Acceptable(t: Table, g: Signature) {
    |g.rows| == |g.owned| && |g.rows| <= MAX_REQUEST && forall i :: 0 <= i < |g.rows| ==> 0 <= g.rows[i] < t.rows
  }

  /** A direct read of every owned row. */
  function Direct(t: Table, g: Signature): (p: seq<Payload>)
    requires Extent(t) && Acceptable(t, g)
    ensures |p| == |g.rows|
    ensures forall i :: 0 <= i < |p| ==> p[i] == if g.owned[i] then Row(RowBytes(t, g.rows[i])) else Unowned
  {
    seq(|g.rows|, i requires 0 <= i < |g.rows| => if g.owned[i] then Row(RowBytes(t, g.rows[i])) else Unowned)
  }

  /******* Least recently used *******/

  /** `dict.fromkeys` over the owned rows: first occurrences, in order. */
  function Keys(g: Signature, n: nat): (ks: seq<int>)
    requires n <= |g.rows| && |g.rows| == |g.owned|
    ensures Distinct(ks)
    ensures forall k :: k in ks ==> exists i :: 0 <= i < n && g.owned[i] && g.rows[i] == k
    ensures forall i :: 0 <= i < n && g.owned[i] ==> g.rows[i] in ks
  {
    if n == 0 then []
    else
      var ks := Keys(g, n - 1);
      if g.owned[n - 1] && g.rows[n - 1] !in ks then ks + [g.rows[n - 1]] else ks
  }

  /** The elements of `s` that are (or are not) in `other`, in order. */
  function Among(s: seq<int>, other: seq<int>, wanted: bool): (r: seq<int>)
    ensures forall k :: k in r <==> k in s && ((k in other) == wanted)
    ensures Distinct(s) ==> Distinct(r)
  {
    if s == [] then []
    else
      var last := s[|s| - 1];
      var init := Among(s[..|s| - 1], other, wanted);
      assert forall k :: k in s <==> k in s[..|s| - 1] || k == last;
      if (last in other) == wanted then init + [last] else init
  }

  /** `move_to_end` */
  function Touch(order: seq<int>, k: int): seq<int> {
    Among(order, [k], false) + [k]
  }

  function Suffix(s: seq<int>, n: nat): (r: seq<int>)
    ensures |r| == if |s| < n then |s| else n
  {
    if |s| <= n then s else s[|s| - n..]
  }

  /** The cache after the hits of a request were touched, and nothing else. */
  function Sifted(order: seq<int>, keys: seq<int>): seq<int> {
    Among(order, keys, false) + Among(keys, order, true)
  }

  /** The cache after a request: of the rows used before and now, the `capacity` most recently used, in order of use. */
  function Served(order: seq<int>, keys: seq<int>, capacity: nat): seq<int> {
    Suffix(Among(order, keys, false) + Among(keys, order, true) + Among(keys, order, false), capacity)
  }

  lemma {:induction false} AmongAppend(s: seq<int>, k: int, other: seq<int>, wanted: bool)
    ensures Among(s + [k], other, wanted) == Among(s, other, wanted) + if (k in other) == wanted then [k] else []
  {
    assert (s + [k])[..|s|] == s;
  }

  lemma {:induction false} AmongConcat(s: seq<int>, t: seq<int>, other: seq<int>, wanted: bool)
    ensures Among(s + t, other, wanted) == Among(s, other, wanted) + Among(t, other, wanted)
  {
    if t == [] {
      assert s + t == s;
    } else {
      var n := |t| - 1;
      assert s + t == (s + t[..n]) + [t[n]] && t == t[..n] + [t[n]];
      AmongConcat(s, t[..n], other, wanted);
      AmongAppend(s + t[..n], t[n], other, wanted);
      AmongAppend(t[..n], t[n], other, wanted);
    }
  }

  lemma {:induction false} AmongTwice(s: seq<int>, a: seq<int>, b: seq<int>)
    ensures Among(Among(s, a, false), b, false) == Among(s, a + b, false)
  {
    if s != [] {
      var n := |s| - 1;
      AmongTwice(s[..n], a, b);
      if s[n] !in a { AmongAppend(Among(s[..n], a, false), s[n], b, false); }
    }
  }

  lemma {:induction false} AmongNone(s: seq<int>, other: seq<int>)
    requires forall k :: k in s ==> k !in other
    ensures Among(s, other, false) == s
  {
    if s != [] {
      var n := |s| - 1;
      AmongNone(s[..n], other);
      assert s[n] in s && s == s[..n] + [s[n]];
    }
  }

  lemma {:induction false} AmongSame(s: seq<int>, a: seq<int>, b: seq<int>, wanted: bool)
    requires forall k :: k in s ==> (k in a <==> k in b)
    ensures Among(s, a, wanted) == Among(s, b, wanted)
  {
    if s != [] { AmongSame(s[..|s| - 1], a, b, wanted); }
  }

  /** Touching one more hit. */
  lemma TouchHit(order: seq<int>, hits: seq<int>, k: int)
    requires Distinct(hits + [k])
    ensures Touch(Among(order, hits, false) + hits, k) == Among(order, hits + [k], false) + (hits + [k])
  {
    AmongConcat(Among(order, hits, false), hits, [k], false);
    AmongTwice(order, hits, [k]);
    forall h | h in hits ensures h !in [k] {
      var i :| 0 <= i < |hits| && hits[i] == h;
      assert (hits + [k])[i] == h && (hits + [k])[|hits|] == k;
    }
    AmongNone(hits, [k]);
  }

  lemma {:induction false} DistinctAppend(s: seq<int>, k: int)
    requires Distinct(s) && k !in s
    ensures Distinct(s + [k])
  {
  }

  lemma HitIsNew(keys: seq<int>, was: seq<int>, i: nat)
    requires Distinct(keys) && i < |keys|
    ensures keys[i] !in keys[..i] && keys[..i + 1] == keys[..i] + [keys[i]]
    ensures forall wanted ::
              Among(keys[..i + 1], was, wanted)
              == Among(keys[..i], was, wanted) + if (keys[i] in was) == wanted then [keys[i]] else []
    ensures Distinct(Among(keys[..i], was, true) + [keys[i]])
  {
    assert keys[..i + 1] == keys[..i] + [keys[i]];
    AmongAppend(keys[..i], keys[i], was, true);
    AmongAppend(keys[..i], keys[i], was, false);
    DistinctAppend(Among(keys[..i], was, true), keys[i]);
  }

  lemma HitsOrder(was: seq<int>, keys: seq<int>)
    ensures Among(was, Among(keys, was, true), false) == Among(was, keys, false)
  {
    AmongSame(was, Among(keys, was, true), keys, false);
  }

  /** A hit pass only reorders. */
  lemma HitsReorder(was: seq<int>, keys: seq<int>)
    requires Distinct(was) && Distinct(keys)
    ensures var now := Among(was, keys, false) + Among(keys, was, true);
            Distinct(now) && |now| == |was| && forall k :: k in now <==> k in was
  {
    var rest, hits := Among(was, keys, false), Among(keys, was, true);
    var now := rest + hits;
    forall i, j | 0 <= i < j < |now| ensures now[i] != now[j] {
      if i < |rest| <= j { assert now[i] in rest && now[j] in hits; }
    }
    SameSize(now, was);
  }

  lemma {:induction false} AmongCount(s: seq<int>, other: seq<int>)
    ensures |Among(s, other, true)| + |Among(s, other, false)| == |s|
  {
    if s != [] { AmongCount(s[..|s| - 1], other); }
  }

  function OwnedCount(g: Signature, n: nat): nat
    requires n <= |g.owned|
  {
    if n == 0 then 0 else OwnedCount(g, n - 1) + if g.owned[n - 1] then 1 else 0
  }

  lemma {:induction false} KeysAtMostOwned(g: Signature, n: nat)
    requires n <= |g.rows| == |g.owned|
    ensures |Keys(g, n)| <= OwnedCount(g, n)
  {
    if n > 0 { KeysAtMostOwned(g, n - 1); }
  }

  lemma SuffixAll(s: seq<int>, n: nat)
    requires |s| <= n
    ensures Suffix(s, n) == s
  {
  }

  lemma SuffixFrom(s: seq<int>, n: nat)
    ensures forall k :: k in Suffix(s, n) ==> k in s
  {
  }

  /** Evicting the oldest when full, then appending, keeps the most recent. */
  lemma PushRecent(s: seq<int>, capacity: nat, k: int)
    requires capacity > 0
    ensures var kept := Suffix(s, capacity);
            Suffix(s + [k], capacity) == (if |kept| >= capacity then kept[1..] else kept) + [k]
  {
  }

  lemma SuffixHolds(a: seq<int>, b: seq<int>, n: nat, k: int)
    requires |b| <= n && k in b
    ensures k in Suffix(a + b, n)
  {
    var i :| 0 <= i < |b| && b[i] == k;
    var s := Suffix(a + b, n);
    assert s[|s| - |b| + i] == k;
  }

  /** No row of a request that fits the cache is evicted by that request, and what is evicted was used before it. */
  lemma RequestedRowsStay(order: seq<int>, keys: seq<int>, capacity: nat, k: int)
    requires Distinct(order) && Distinct(keys) && |keys| <= capacity
    ensures k in keys ==> k in Served(order, keys, capacity)
    ensures k in Served(order, keys, capacity) ==> k in order || k in keys
    ensures k in order && k !in Served(order, keys, capacity) ==>
              k !in keys && |Served(order, keys, capacity)| == capacity
  {
    var before, hits, missing := Among(order, keys, false), Among(keys, order, true), Among(keys, order, false);
    AmongCount(keys, order);
    assert before + hits + missing == before + (hits + missing);
    if k in keys { SuffixHolds(before, hits + missing, capacity, k); }
    SuffixFrom(before + hits + missing, capacity);
    if k in before && |before + hits + missing| <= capacity { SuffixHolds([], before + hits + missing, capacity, k); }
    assert [] + (before + hits + missing) == before + hits + missing;
  }
}

module EngramRows {
  import opened Bytes
  import opened Sequences
  import opened EngramSpec

  datatype Stats = Stats(requests: nat, owned: nat, distinct: nat, hits: nat, misses: nat, weightBytes: nat,
                         scaleBytes: nat, evictions: nat, peak: nat, submitted: nat, consumed: nat, unused: nat)

  /** The one prefetch batch: nothing, submitted, or already run by the prefetch worker, with payloads or an error. */
  datatype Prefetch =
    | NoPrefetch
    | Submitted(g: Signature)
    | Ran(g: Signature, payloads: seq<Payload>)
    | Failed(g: Signature)

  datatype Outcome = Ok | Closed | BadRequest | BadStorage | Outstanding | ReadFailed

  class EngramRows {
    const table: Table
    const capacity: nat
    var order: seq<int>
    var cache: map<int, seq<Byte>>
    var pending: Prefetch
    var closed: bool
    var stats: Stats

    /** The cache holds exactly the rows in `order`, with their true bytes. */
    ghost predicate CacheOk()
      reads this`order, this`cache
    {
      && Extent(table) && 0 < capacity <= MAX_ROWS
      && Distinct(order) && |order| <= capacity
      && (forall k :: k in cache <==> k in order)
      && forall k :: k in order ==> 0 <= k < table.rows && cache[k] == RowBytes(table, k)
    }

    ghost predicate StatsOk()
      reads this
    {
      && (!closed ==> stats.misses == stats.evictions + |order|)
      && (!closed ==> |order| <= stats.peak) && stats.peak <= capacity
      && stats.hits + stats.misses == stats.distinct <= stats.owned
      && stats.weightBytes == stats.misses * DIM && stats.scaleBytes == stats.misses * SCALE
      && (!closed ==> stats.submitted == stats.consumed + stats.unused + if pending.NoPrefetch? then 0 else 1)
    }

    ghost predicate Valid()
      reads this
    {
      && CacheOk() && StatsOk()
      && (!pending.NoPrefetch? ==> !closed && Acceptable(table, pending.g))
      && (closed ==> order == [])
      && (pending.Ran? ==> pending.payloads == Direct(table, pending.g))
    }

    constructor (table: Table, capacity: nat)
      requires Extent(table) && 0 < capacity <= MAX_ROWS
      ensures Valid() && !closed && order == [] && pending.NoPrefetch? && this.table == table
              && this.capacity == capacity
    {
      this.table, this.capacity := table, capacity;
      order, cache, pending, closed := [], map[], NoPrefetch, false;
      stats := Stats(0, 0, 0, 0, 0, 0, 0, 0, 0, 0, 0, 0);
    }

    /** `_read`: the file may be interrupted and may answer short; an empty answer is an error. */
    static method Read(file: seq<Byte>, offset: nat, size: nat) returns (ok: bool, data: array<Byte>)
      requires offset + size <= |file|
      ensures fresh(data) && (ok ==> data[..] == file[offset..offset + size])
    {
      data := new Byte[size];
      var got, interrupts: nat := 0, *;
      while got < size
        invariant got <= size && data.Length == size
        invariant forall i :: 0 <= i < got ==> data[i] == file[offset + i]
        decreases size - got, interrupts
      {
        if interrupts > 0 {
          interrupts := interrupts - 1;
        } else {
          var empty: bool := *;
          if empty { return false, data; }
          var n :| 1 <= n <= size - got;
          forall i | 0 <= i < n { data[got + i] := file[offset + got + i]; }
          got := got + n;
        }
      }
      ok := true;
    }

    /** One worker's share of a fetch. */
    method ReadBatch(batch: seq<int>) returns (ok: bool, items: seq<(int, seq<Byte>)>)
      requires Extent(table) && forall i :: 0 <= i < |batch| ==> 0 <= batch[i] < table.rows
      ensures ok ==> |items| == |batch| && forall i :: 0 <= i < |batch| ==>
                items[i] == (batch[i], RowBytes(table, batch[i]))
    {
      items := [];
      for i := 0 to |batch|
        invariant |items| == i && forall j :: 0 <= j < i ==> items[j] == (batch[j], RowBytes(table, batch[j]))
      {
        var r := batch[i];
        var w, s;
        ok, w := Read(table.weights, table.wOffset + r * DIM, DIM);
        if !ok { return; }
        ok, s := Read(table.scales, table.sOffset + r * SCALE, SCALE);
        if !ok { return; }
        items := items + [(r, w[..] + s[..])];
      }
      ok := true;
    }

    /**
     `_fetch`: batches of 16, results in submission order.  Files found changed before or after the reads are refused,
     which can happen at any call.
     */
    method Fetch(keys: seq<int>) returns (ok: bool, items: seq<(int, seq<Byte>)>)
      requires Extent(table) && forall i :: 0 <= i < |keys| ==> 0 <= keys[i] < table.rows
      modifies this`stats
      ensures ok ==> |items| == |keys| && forall i :: 0 <= i < |keys| ==>
                items[i] == (keys[i], RowBytes(table, keys[i]))
      ensures ok ==> stats == old(stats).(weightBytes := old(stats.weightBytes) + |keys| * DIM,
                                          scaleBytes := old(stats.scaleBytes) + |keys| * SCALE)
      ensures !ok ==> stats == old(stats)
    {
      items := [];
      ok := *;
      if !ok { return; }
      var start := 0;
      while start < |keys|
        invariant stats == old(stats)
        invariant 0 <= start && |items| == if start <= |keys| then start else |keys|
        invariant forall i :: 0 <= i < |items| ==> items[i] == (keys[i], RowBytes(table, keys[i]))
      {
        var stop := if start + 16 <= |keys| then start + 16 else |keys|;
        var batch;
        ok, batch := ReadBatch(keys[start..stop]);
        if !ok { return; }
        items := items + batch;
        start := start + 16;
      }
      ok := *;
      if ok {
        stats := stats.(weightBytes := stats.weightBytes + |keys| * DIM,
                        scaleBytes := stats.scaleBytes + |keys| * SCALE);
      }
    }

    /** The pass over the request's keys: hits move to the recent end, the others are collected. */
    method Sift(keys: seq<int>) returns (payloads: map<int, seq<Byte>>, missing: seq<int>)
      requires CacheOk() && Distinct(keys)
      modifies this`order
      ensures CacheOk() && |order| == |old(order)|
      ensures missing == Among(keys, old(order), false)
      ensures order == Sifted(old(order), keys)
      ensures forall k :: k in payloads <==> k in keys && k in old(order)
      ensures forall k :: k in payloads ==> 0 <= k < table.rows && payloads[k] == RowBytes(table, k)
    {
      hide RowBytes, Touch, Distinct, Among;
      ghost var was := order;
      payloads, missing := map[], [];
      NothingSifted(was);
      for i := 0 to |keys|
        invariant order == Among(was, Among(keys[..i], was, true), false) + Among(keys[..i], was, true)
        invariant missing == Among(keys[..i], was, false)
        invariant forall k :: k in payloads <==> k in keys[..i] && k in was
        invariant forall k :: k in payloads ==> 0 <= k < table.rows && payloads[k] == RowBytes(table, k)
      {
        HitIsNew(keys, was, i);
        assert missing + [] == missing && Among(keys[..i], was, true) + [] == Among(keys[..i], was, true);
        if keys[i] in cache {
          payloads := payloads[keys[i] := cache[keys[i]]];
          TouchHit(was, Among(keys[..i], was, true), keys[i]);
          order := Touch(order, keys[i]);
        } else {
          missing := missing + [keys[i]];
        }
      }
      assert keys[..|keys|] == keys;
      HitsOrder(was, keys);
      HitsReorder(was, keys);
    }

    lemma NothingSifted(was: seq<int>)
      ensures forall wanted :: Among([], was, wanted) == []
      ensures Among(was, [], false) + [] == was
    {
      AmongNone(was, []);
    }

    /** One fetched row enters the cache; the oldest makes room when the cache is full. */
    method Insert(k: int, data: seq<Byte>)
      requires CacheOk() && k !in order && 0 <= k < table.rows && data == RowBytes(table, k)
      modifies this`order, this`cache, this`stats
      ensures CacheOk()
      ensures order == (if old(|order|) >= capacity then old(order)[1..] else old(order)) + [k]
      ensures stats == old(stats).(evictions := old(stats.evictions) + old(|order|) + 1 - |order|)
    {
      hide RowBytes;
      if |order| >= capacity {
        cache, order := cache - {order[0]}, order[1..];
        stats := stats.(evictions := stats.evictions + 1);
      }
      assert forall e :: e in order ==> e in old(order);
      cache, order := cache[k := data], order + [k];
    }

    /** Rows fetched for this request enter the cache in order. */
    method Admit(items: seq<(int, seq<Byte>)>, payloads: map<int, seq<Byte>>, ghost missing: seq<int>)
      returns (all: map<int, seq<Byte>>)
      requires CacheOk() && Distinct(missing) && (forall k :: k in missing ==> k !in order) && |items| == |missing|
      requires forall i :: 0 <= i < |missing| ==>
                 0 <= missing[i] < table.rows && items[i] == (missing[i], RowBytes(table, missing[i]))
      modifies this`order, this`cache, this`stats
      ensures CacheOk()
      ensures order == Suffix(old(order) + missing, capacity)
      ensures stats == old(stats).(evictions := old(stats.evictions) + old(|order|) + |missing| - |order|)
      ensures forall k :: k in all <==> k in payloads || k in missing
      ensures forall k :: k in all ==> all[k] == if k in missing then RowBytes(table, k) else payloads[k]
    {
      hide RowBytes, Suffix;
      ghost var was := order;
      all := payloads;
      SuffixAll(was, capacity);
      assert was + missing[..0] == was;
      for i := 0 to |items|
        invariant CacheOk() && order == Suffix(was + missing[..i], capacity)
        invariant stats == old(stats).(evictions := old(stats.evictions) + |was| + i - |order|)
        invariant forall k :: k in all <==> k in payloads || k in missing[..i]
        invariant forall k :: k in all ==> all[k] == if k in missing[..i] then RowBytes(table, k) else payloads[k]
      {
        var (k, data) := items[i];
        all := all[k := data];
        assert missing[..i + 1] == missing[..i] + [k];
        assert was + missing[..i + 1] == was + missing[..i] + [k];
        SuffixFrom(was + missing[..i], capacity);
        PushRecent(was + missing[..i], capacity, k);
        Insert(k, data);
      }
      assert missing[..|missing|] == missing;
    }

    /** The rows of a request, from the cache where possible and from the files otherwise. */
    method LoadRows(keys: seq<int>) returns (ok: bool, all: map<int, seq<Byte>>, missing: seq<int>)
      requires CacheOk() && Distinct(keys) && forall k :: k in keys ==> 0 <= k < table.rows
      modifies this`order, this`cache, this`stats
      ensures CacheOk()
      ensures missing == Among(keys, old(order), false)
      ensures !ok ==>
                order == Sifted(old(order), keys) && |order| == |old(order)| && cache == old(cache)
                && stats == old(stats)
      ensures ok ==> order == Served(old(order), keys, capacity) && |order| <= old(|order|) + |missing|
      ensures ok ==> stats == old(stats).(evictions := old(stats.evictions) + old(|order|) + |missing| - |order|,
                                          weightBytes := old(stats.weightBytes) + |missing| * DIM,
                                          scaleBytes := old(stats.scaleBytes) + |missing| * SCALE)
      ensures ok ==> forall k :: k in keys ==> k in all && all[k] == RowBytes(table, k)
    {
      hide RowBytes, Suffix, Extent, Distinct, Among;
      all, missing := Sift(keys);
      MissesAreIn(keys, old(order), missing);
      var items := [];
      ok := true;
      if missing != [] { ok, items := Fetch(missing); }
      if ok { all := Admit(items, all, missing); }
    }

    lemma MissesAreIn(keys: seq<int>, was: seq<int>, missing: seq<int>)
      requires missing == Among(keys, was, false)
      ensures forall i :: 0 <= i < |missing| ==> missing[i] in keys && missing[i] !in was
      ensures forall k :: k in missing ==> k in keys && k !in was
      ensures forall k :: k in keys && k !in was ==> k in missing
      ensures Distinct(keys) ==> Distinct(missing)
    {
      assert forall i :: 0 <= i < |missing| ==> missing[i] in missing;
    }

    /** A failed request has at most touched its hits. */
    twostate predicate OnlyTouched(keys: seq<int>)
      reads this
    {
      && cache == old(cache) && stats == old(stats)
      && (order == old(order) || order == Sifted(old(order), keys))
    }

    /** `_payloads` */
    method Payloads(g: Signature) returns (ok: bool, result: seq<Payload>)
      requires CacheOk() && StatsOk() && !closed && Acceptable(table, g)
      modifies this`order, this`cache, this`stats
      ensures CacheOk() && StatsOk()
      ensures !ok ==> OnlyTouched(Keys(g, |g.rows|))
      ensures ok ==> result == Direct(table, g)
      ensures ok ==> order == Served(old(order), Keys(g, |g.rows|), capacity)
      ensures stats.submitted == old(stats.submitted) && stats.consumed == old(stats.consumed)
              && stats.unused == old(stats.unused)
      ensures ok ==> stats.requests == old(stats.requests) + 1
      ensures ok ==> stats.misses == old(stats.misses) + |Among(Keys(g, |g.rows|), old(order), false)|
    {
      hide RowBytes, Among, Keys, Served;
      result := [];
      ok := *;
      if !ok { return; }
      var keys := Keys(g, |g.rows|);
      var all, missing;
      ok, all, missing := LoadRows(keys);
      if !ok { return; }
      AmongCount(keys, old(order));
      KeysAtMostOwned(g, |g.rows|);
      stats := stats.(requests := stats.requests + 1, owned := stats.owned + OwnedCount(g, |g.rows|),
                      distinct := stats.distinct + |keys|, misses := stats.misses + |missing|,
                      hits := stats.hits + (|keys| - |missing|),
                      peak := if stats.peak < |order| then |order| else stats.peak);
      result := seq(|g.rows|, i requires 0 <= i < |g.rows| && (g.owned[i] ==> g.rows[i] in all) =>
                      if g.owned[i] then Row(all[g.rows[i]]) else Unowned);
    }

    /** `prefetch`: only schedules; at most one batch may be outstanding. */
    method Prefetch(g: Signature) returns (outcome: Outcome)
      requires Valid()
      modifies this`pending, this`stats
      ensures Valid()
      ensures outcome == if closed then Closed else if !Acceptable(table, g) then BadRequest
                         else if !old(pending).NoPrefetch? then Outstanding else Ok
      ensures outcome == Ok ==> pending == Submitted(g)
      ensures outcome != Ok ==> unchanged(this)
    {
      if closed { return Closed; }
      if !Acceptable(table, g) { return BadRequest; }
      if !pending.NoPrefetch? { return Outstanding; }
      pending := Submitted(g);
      stats := stats.(submitted := stats.submitted + 1);
      outcome := Ok;
    }

    /** The prefetch worker gets its turn. */
    method RunPrefetch()
      requires Valid() && pending.Submitted?
      modifies this`pending, this`order, this`cache, this`stats
      ensures Valid() && (pending.Ran? || pending.Failed?) && pending.g == old(pending.g)
      ensures pending.Ran? ==> pending.payloads == Direct(table, old(pending.g))
      ensures pending.Ran? ==> order == Served(old(order), Keys(pending.g, |pending.g.rows|), capacity)
      ensures pending.Failed? ==> OnlyTouched(Keys(pending.g, |pending.g.rows|))
    {
      var g := pending.g;
      var ok, payloads := Payloads(g);
      pending := if ok then Ran(g, payloads) else Failed(g);
    }

    /** The payloads a gather works with: the prefetched ones when they are for the same request. */
    method Resolve(g: Signature) returns (ok: bool, payloads: seq<Payload>)
      requires Valid() && !closed && Acceptable(table, g)
      modifies this`pending, this`order, this`cache, this`stats
      ensures Valid()
      ensures ok ==> pending.NoPrefetch? && payloads == Direct(table, g)
      ensures !ok ==> pending.NoPrefetch? || (!old(pending).NoPrefetch? && pending == Failed(old(pending.g)))
      ensures !ok && !old(pending).NoPrefetch? && old(pending.g) == g ==> pending == Failed(g)
      ensures old(pending.Failed?) ==> !ok && unchanged(this)
    {
      hide Direct, Served, Keys, Acceptable, CacheOk, Extent, Sifted;
      payloads := [];
      if pending.NoPrefetch? {
        ok, payloads := Payloads(g);
      } else {
        if pending.Submitted? { RunPrefetch(); }
        if pending.Failed? { ok := false; return; }
        ok, payloads := Accept(g);
      }
    }

    /** The finished batch is used if it is for this request, and dropped otherwise. */
    method Accept(g: Signature) returns (ok: bool, payloads: seq<Payload>)
      requires Valid() && !closed && Acceptable(table, g) && pending.Ran?
      modifies this`pending, this`order, this`cache, this`stats
      ensures Valid() && pending.NoPrefetch? && (ok ==> payloads == Direct(table, g))
      ensures old(pending.g) == g ==> ok
    {
      hide Direct, Served, Keys, Acceptable, CacheOk, Extent, Sifted;
      ok, payloads := true, pending.payloads;
      var expected := pending.g;
      pending := NoPrefetch;
      if expected == g {
        stats := stats.(consumed := stats.consumed + 1);
      } else {
        stats := stats.(unused := stats.unused + 1);
        ok, payloads := Payloads(g);
      }
    }

    /**
     `gather_into`: whatever was prefetched and whatever is cached, an owned row's place gets exactly the table's bytes
     and an unowned one gets zeros, or the call raises and the outputs are untouched.  A prefetch that failed stays
     outstanding: every later gather raises again.
     */
    method GatherInto(g: Signature, weight: array<Byte>, scale: array<Byte>) returns (outcome: Outcome)
      requires Valid() && weight != scale
      modifies this`pending, this`order, this`cache, this`stats, weight, scale
      ensures Valid()
      ensures if closed then outcome == Closed else if !Acceptable(table, g) then outcome == BadRequest
              else if weight.Length != |g.rows| * DIM || scale.Length != |g.rows| * SCALE then outcome == BadStorage
              else outcome == Ok || outcome == ReadFailed
      ensures outcome == Ok ==> pending.NoPrefetch? && Gathered(g, weight[..], scale[..])
      ensures outcome != Ok ==> unchanged(weight) && unchanged(scale)
      ensures outcome != Ok && outcome != ReadFailed ==> unchanged(this)
      ensures outcome == ReadFailed ==>
                pending.NoPrefetch? || (!old(pending).NoPrefetch? && pending == Failed(old(pending.g)))
      ensures outcome == ReadFailed && !old(pending).NoPrefetch? && old(pending.g) == g ==> pending == Failed(g)
      ensures old(pending.Failed?) ==> outcome != Ok && unchanged(this)
    {
      hide Acceptable, StatsOk, Extent, Direct, Gathered;
      if closed { return Closed; }
      if !Acceptable(table, g) { return BadRequest; }
      if weight.Length != |g.rows| * DIM || scale.Length != |g.rows| * SCALE { return BadStorage; }
      var ok, payloads := Resolve(g);
      if !ok { return ReadFailed; }
      Scatter(g, payloads, weight, scale);
      outcome := Ok;
    }

    ghost predicate Gathered(g: Signature, weight: seq<Byte>, scale: seq<Byte>) {
      && Extent(table) && Acceptable(table, g) && |weight| == |g.rows| * DIM && |scale| == |g.rows| * SCALE
      && forall i :: 0 <= i < |g.rows| ==>
           && weight[i * DIM..(i + 1) * DIM] == (if g.owned[i] then RowWeights(table, g.rows[i]) else Zeros(DIM))
           && scale[i * SCALE..(i + 1) * SCALE] == (if g.owned[i] then RowScales(table, g.rows[i]) else Zeros(SCALE))
    }

    method Scatter(g: Signature, payloads: seq<Payload>, weight: array<Byte>, scale: array<Byte>)
      requires Extent(table) && Acceptable(table, g) && payloads == Direct(table, g) && weight != scale
      requires weight.Length == |g.rows| * DIM && scale.Length == |g.rows| * SCALE
      modifies weight, scale
      ensures Gathered(g, weight[..], scale[..])
    {
      hide RowBytes, RowWeights, RowScales;
      for i := 0 to |payloads|
        invariant forall j :: 0 <= j < i ==>
           && weight[j * DIM..(j + 1) * DIM] == (if g.owned[j] then RowWeights(table, g.rows[j]) else Zeros(DIM))
           && scale[j * SCALE..(j + 1) * SCALE] == (if g.owned[j] then RowScales(table, g.rows[j]) else Zeros(SCALE))
      {
        var w := if payloads[i].Row? then payloads[i].data[..DIM] else Zeros(DIM);
        var s := if payloads[i].Row? then payloads[i].data[DIM..] else Zeros(SCALE);
        Write(weight, i * DIM, w);
        Write(scale, i * SCALE, s);
      }
    }

    static method Write(a: array<Byte>, at: nat, data: seq<Byte>)
      requires at + |data| <= a.Length
      modifies a
      ensures a[at..at + |data|] == data
      ensures forall lo, hi :: 0 <= lo <= hi <= at ==> a[lo..hi] == old(a[lo..hi])
    {
      forall i | 0 <= i < |data| { a[at + i] := data[i]; }
    }

    /**
     `close` waits for an outstanding prefetch; afterwards nothing is cached and every call is refused.  The error of a
     failed prefetch comes out of it, but only once everything is released.
     */
    method Close() returns (raised: bool)
      requires Valid()
      modifies this
      ensures Valid() && closed && cache == map[] && pending.NoPrefetch?
      ensures old(closed) ==> stats == old(stats)
      ensures old(closed || pending.NoPrefetch? || pending.Ran?) ==> !raised
      ensures old(pending.Failed?) ==> raised
    {
      raised := false;
      if closed {
        assert forall k :: k in cache ==> k in order;
        return;
      }
      if pending.Submitted? { RunPrefetch(); }
      raised := pending.Failed?;
      pending, closed, order, cache := NoPrefetch, true, [], map[];
    }
  }
}
