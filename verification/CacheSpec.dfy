/**
 The leased expert cache over a fixed arena (expert_cache.py), as functions on its state.

 The state also holds what the device does: per stream, how many operations were enqueued and how many finished, and
 every kernel a consumer enqueued under a lease.  An event recorded on a stream stands for all work enqueued before it.
 */
module CacheSpec {
  import opened Bytes
  import opened RegionSpec
  import opened Sums

  /** "layer:expert". */
  datatype Key = Key(layer: int, expert: int)

  datatype Quota = Quota(layer: int, size: int)

  /** The store's records, and the byte quota of each layer in ascending layer order. */
  datatype Config = Config(records: map<Key, seq<Byte>>, quotas: seq<Quota>, capacity: int)

  datatype Event = Event(stream: int, at: nat)

  /** `lastUse` is the clock value of the lease that used the entry last. */
  datatype Entry = Entry(offset: int, size: int, generation: nat, users: nat, events: seq<Event>, lastUse: nat)

  datatype Lease = Lease(key: Key, stream: int)

  /** The `at`-th operation of a stream, reading the arena bytes of `key`. */
  datatype Kernel = Kernel(stream: int, at: nat, key: Key)

  datatype Device = Device(issued: map<int, nat>, finished: map<int, nat>, kernels: set<Kernel>)

  datatype State = State(regions: map<int, Region>, order: seq<Key>, entries: map<Key, Entry>, arena: seq<Byte>,
                         resident: int, generation: nat, clock: nat, misses: nat, hits: nat, evictions: nat,
                         failures: nat, closed: bool, device: Device, leases: map<nat, Lease>)

  datatype Outcome = Leased | Closed | Unknown | Cancelled | GuardFailed | Busy | LoadFailed

  /** What goes wrong while a record is loaded: nothing, or an error once `n` bytes of it (or all) have been copied. */
  datatype Fault = NoFault | FailsAfter(n: nat)

  /** The bytes of the record that reach the arena. */
  function Arrived(fault: Fault, data: seq<Byte>): (arrived: seq<Byte>)
    ensures arrived <= data && (fault.NoFault? ==> arrived == data)
  {
    if fault.FailsAfter? && fault.n <= |data| then data[..fault.n] else data
  }

  /******* The device *******/

  function At(m: map<int, nat>, stream: int): nat { if stream in m then m[stream] else 0 }

  function Max(a: nat, b: nat): nat { if a >= b then a else b }

  predicate Finished(d: Device, k: Kernel) { k.at <= At(d.finished, k.stream) }

  predicate EventDone(d: Device, e: Event) { e.at <= At(d.finished, e.stream) }

  /** `event.synchronize()`. */
  function Synchronize(d: Device, e: Event): Device {
    d.(finished := d.finished[e.stream := Max(At(d.finished, e.stream), e.at)])
  }

  function SynchronizeAll(d: Device, es: seq<Event>): Device
    decreases |es|
  {
    if es == [] then d else SynchronizeAll(Synchronize(d, es[0]), es[1..])
  }

  /** `torch.cuda.current_stream().synchronize()`. */
  function DrainStream(d: Device, stream: int): Device { Synchronize(d, Event(stream, At(d.issued, stream))) }

  /** The device finishes one more operation of a stream. */
  function Progress(d: Device, stream: int): Device {
    if At(d.finished, stream) < At(d.issued, stream)
    then d.(finished := d.finished[stream := At(d.finished, stream) + 1])
    else d
  }

  /** A consumer enqueues a kernel for its lease, on the stream the lease captured. */
  function Launch(s: State, id: nat): State {
    if id !in s.leases then s
    else
      var l := s.leases[id];
      var n := At(s.device.issued, l.stream) + 1;
      s.(device := s.device.(issued := s.device.issued[l.stream := n],
                             kernels := s.device.kernels + {Kernel(l.stream, n, l.key)}))
  }

  /******* Eviction *******/

  function Remove(order: seq<Key>, key: Key): (r: seq<Key>)
    ensures forall k :: k in r <==> k in order && k != key
    ensures if key in order then |r| < |order| else |r| <= |order|
  {
    if order == [] then []
    else
      var rest := Remove(order[1..], key);
      assert forall k :: k in order <==> k == order[0] || k in order[1..];
      if order[0] == key then rest else [order[0]] + rest
  }

  /** The wait for the entry's events, before anything is taken from it. */
  function AwaitEvents(s: State, key: Key): State
    requires key in s.entries
  {
    s.(device := SynchronizeAll(s.device, s.entries[key].events))
  }

  /** The rest of `_evict`: the arena block goes back to its layer's region. */
  function DropEntry(s: State, key: Key): State
    requires key in s.entries && key.layer in s.regions
    requires s.entries[key].offset in s.regions[key.layer].used
  {
    var e := s.entries[key];
    s.(regions := s.regions[key.layer := Release(s.regions[key.layer], e.offset)],
       resident := s.resident - e.size, entries := s.entries - {key}, order := Remove(s.order, key),
       evictions := s.evictions + 1)
  }

  predicate Evictable(s: State, key: Key) {
    key in s.entries && key.layer in s.regions && s.entries[key].offset in s.regions[key.layer].used
      && s.entries[key].users == 0
  }

  function Evict(s: State, key: Key): State
    requires Evictable(s, key)
  {
    DropEntry(AwaitEvents(s, key), key)
  }

  predicate IsCandidate(s: State, layer: int, k: Key) {
    k in s.entries && k.layer == layer && s.entries[k].users == 0
  }

  /** The entries of one layer that eviction may take, oldest use first. */
  function Candidates(s: State, layer: int, order: seq<Key>): (cs: seq<Key>)
    ensures forall k :: k in cs <==> k in order && IsCandidate(s, layer, k)
  {
    if order == [] then []
    else
      var rest := Candidates(s, layer, order[1..]);
      assert forall k :: k in order <==> k == order[0] || k in order[1..];
      if IsCandidate(s, layer, order[0]) then [order[0]] + rest else rest
  }

  predicate Fits(s: State, layer: int, nbytes: int)
    requires layer in s.regions
  {
    Allocate(s.regions[layer], nbytes).1.Some?
  }

  /** The eviction loop of `_load`: until the record fits, evict the oldest candidate; stop when there is none. */
  function MakeRoom(s: State, layer: int, nbytes: int): (r: State)
    requires layer in s.regions
    ensures layer in r.regions
    decreases |s.order|
  {
    var cs := Candidates(s, layer, s.order);
    if Fits(s, layer, nbytes) || cs == [] || !Evictable(s, cs[0]) then s
    else MakeRoom(Evict(s, cs[0]), layer, nbytes)
  }

  /******* Lease and release *******/

  function Write(arena: seq<Byte>, offset: int, data: seq<Byte>): (r: seq<Byte>)
    ensures |r| == |arena|
  {
    if 0 <= offset && offset + |data| <= |arena| then arena[..offset] + data + arena[offset + |data|..] else arena
  }

  /** The state in which the new block is allocated and nothing is written yet. */
  function Reserve(s: State, layer: int, nbytes: int): State
    requires layer in s.regions
  {
    s.(regions := s.regions[layer := Allocate(s.regions[layer], nbytes).0])
  }

  /** `_load` once its block is allocated: copy and publish, or give the block back. */
  function Fill(c: Config, s: State, key: Key, offset: int, fault: Fault, stream: int): (State, Outcome)
    requires key in c.records && key.layer in s.regions && offset in s.regions[key.layer].used
  {
    var data := c.records[key];
    var copied := s.(arena := Write(s.arena, offset, Arrived(fault, data)), device := DrainStream(s.device, stream));
    if !fault.NoFault? then
      (copied.(regions := s.regions[key.layer := Release(s.regions[key.layer], offset)], failures := s.failures + 1),
       LoadFailed)
    else
      (copied.(entries := s.entries[key := Entry(offset, |data|, s.generation + 1, 0, [], s.clock)],
               order := s.order + [key], resident := s.resident + |data|, generation := s.generation + 1), Leased)
  }

  function Load(c: Config, s: State, key: Key, guard: bool, fault: Fault, stream: int): (State, Outcome)
    requires key in c.records && key.layer in s.regions
  {
    if !guard then (s, GuardFailed)
    else
      var n := |c.records[key]|;
      var roomy := MakeRoom(s, key.layer, n);
      if !Fits(roomy, key.layer, n) then (roomy, Busy)
      else Fill(c, Reserve(roomy, key.layer, n), key, Allocate(roomy.regions[key.layer], n).1.value, fault, stream)
  }

  /** A hit drops the events that are already complete and moves the entry to the young end. */
  function Hit(s: State, key: Key): State
    requires key in s.entries
  {
    var e := s.entries[key];
    s.(entries := s.entries[key := e.(events := Pending(s.device, e.events), lastUse := s.clock)],
       order := Remove(s.order, key) + [key], hits := s.hits + 1)
  }

  function Pending(d: Device, es: seq<Event>): (r: seq<Event>)
    ensures forall e :: e in r <==> e in es && !EventDone(d, e)
  {
    if es == [] then []
    else
      var rest := Pending(d, es[1..]);
      assert forall e :: e in es <==> e == es[0] || e in es[1..];
      if EventDone(d, es[0]) then rest else [es[0]] + rest
  }

  function AddUser(s: State, key: Key, id: nat, stream: int): State
    requires key in s.entries
  {
    s.(entries := s.entries[key := s.entries[key].(users := s.entries[key].users + 1)],
       leases := s.leases[id := Lease(key, stream)])
  }

  /** Enter `lease`: `id` names the new lease, `stream` is the stream current at acquisition. */
  function Acquire(c: Config, s: State, key: Key, cancelled: bool, guard: bool, fault: Fault, id: nat,
                   stream: int): (State, Outcome)
  {
    if s.closed then (s, Closed)
    else if key !in c.records then (s, Unknown)
    else if cancelled then (s, Cancelled)
    else
      var now := s.(clock := s.clock + 1);
      if key in s.entries then (AddUser(Hit(now, key), key, id, stream), Leased)
      else if key.layer !in s.regions then (s, Unknown)
      else
        var (loaded, o) := Load(c, now.(misses := s.misses + 1), key, guard, fault, stream);
        if o.Leased? && key in loaded.entries then (AddUser(loaded, key, id, stream), Leased) else (loaded, o)
  }

  /** Leave `lease`: record an event on the captured stream, then stop being a user. */
  function Leave(s: State, id: nat): State {
    if id !in s.leases then s
    else
      var l := s.leases[id];
      if l.key !in s.entries || s.entries[l.key].users == 0 then s
      else
        var e := s.entries[l.key];
        var left := e.(events := e.events + [Event(l.stream, At(s.device.issued, l.stream))], users := e.users - 1);
        s.(entries := s.entries[l.key := left], leases := s.leases - {id})
  }

  /** `clear`: refused while any entry is in use. */
  function Clear(s: State): State {
    if exists k :: k in s.entries && s.entries[k].users > 0 then s else EvictAll(s, s.order)
  }

  function EvictAll(s: State, ks: seq<Key>): State
    decreases |ks|
  {
    if ks == [] then s else if Evictable(s, ks[0]) then EvictAll(Evict(s, ks[0]), ks[1..]) else EvictAll(s, ks[1..])
  }

  function Close(s: State): State {
    var cleared := Clear(s);
    if cleared.entries != map[] then s else cleared.(closed := true, arena := [])
  }

  /******* Construction *******/

  function BuildRegions(qs: seq<Quota>, base: int): map<int, Region> {
    if qs == [] then map[] else BuildRegions(qs[1..], base + qs[0].size)[qs[0].layer := Fresh(base, qs[0].size)]
  }

  function QuotaSize(q: Quota): int { q.size }

  function Start(c: Config, arena: seq<Byte>): State {
    State(BuildRegions(c.quotas, 0), [], map[], arena, 0, 0, 0, 0, 0, 0, 0, false, Device(map[], map[], {}), map[])
  }

  /** What the constructor checks: aligned quotas that partition the arena, and every record fits its layer's quota. */
  ghost predicate ValidConfig(c: Config) {
    && (forall i, j :: 0 <= i < j < |c.quotas| ==> c.quotas[i].layer < c.quotas[j].layer)
    && (forall i :: 0 <= i < |c.quotas| ==> c.quotas[i].size > 0 && c.quotas[i].size % ALIGN == 0)
    && SumOf(c.quotas, QuotaSize) == c.capacity
    && (forall k :: k in c.records ==>
          |c.records[k]| > 0 && |c.records[k]| % ALIGN == 0
          && exists i :: 0 <= i < |c.quotas| && c.quotas[i].layer == k.layer && |c.records[k]| <= c.quotas[i].size)
  }
}
