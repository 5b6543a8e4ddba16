/**
 The operations of the expert cache one move at a time.  The lock serializes operations, not the GPU: between any two
 moves of an eviction, a load or a clear, lease holders enqueue kernels and streams finish them.  `Task` is the program
 counter of the thread that holds the lock; a wait takes one event at a time, and a copy one byte.
 */
module CacheMoves {
  import opened Bytes
  import opened Options
  import opened RegionSpec
  import opened CacheSpec
  import opened CacheSafety
  import opened CacheTheorems

  /** A load for the lease `id`, on the stream current at acquisition. */
  datatype Job = Job(key: Key, fault: Fault, id: nat, stream: int)

  /** What goes on when an entry has been evicted. */
  datatype Next = Reload(job: Job) | ClearRest(todo: seq<Key>, closing: bool)

  datatype Task =
    | Idle
    | Rooming(job: Job)
    | Waiting(victim: Key, events: seq<Event>, next: Next)
    | Copying(job: Job, offset: int, copied: nat)
    | Draining(job: Job, offset: int)
    | Settling(job: Job, offset: int)
    | Leasing(job: Job)
    | Clearing(todo: seq<Key>, closing: bool)

  datatype World = World(s: State, task: Task)

  function Incoming(c: Config, job: Job): seq<Byte> {
    if job.key in c.records then Arrived(job.fault, c.records[job.key]) else []
  }

  /** The first move of an operation, made as it takes the lock; what it finds out then decides what follows. */
  function Begin(c: Config, s: State, l: Label): World {
    match l
    case Enter(key, cancelled, guard, fault, id, stream) =>
      if s.closed || key !in c.records || cancelled then World(s, Idle)
      else
        var now := s.(clock := s.clock + 1);
        if key in s.entries then World(Hit(now, key), Leasing(Job(key, fault, id, stream)))
        else if key.layer !in s.regions then World(s, Idle)
        else World(now.(misses := s.misses + 1), if guard then Rooming(Job(key, fault, id, stream)) else Idle)
    case ClearAll => if SomeUser(s) then World(s, Idle) else World(s, Clearing(s.order, false))
    case Shutdown => if SomeUser(s) then World(s, Idle) else World(s, Clearing(s.order, true))
    case _ => World(Step(c, s, l), Idle)
  }

  predicate SomeUser(s: State) { exists k :: k in s.entries && s.entries[k].users > 0 }

  /** `_load`, the head of its loop: allocate, or choose the next victim, or give up. */
  function Room(c: Config, s: State, job: Job): World {
    if job.key !in c.records || job.key.layer !in s.regions then World(s, Idle)
    else
      var layer, n := job.key.layer, |c.records[job.key]|;
      var cs := Candidates(s, layer, s.order);
      if Fits(s, layer, n) then
        World(Reserve(s, layer, n), Copying(job, Allocate(s.regions[layer], n).1.value, 0))
      else if cs == [] || !Evictable(s, cs[0]) then World(s, Idle)
      else World(s, Waiting(cs[0], s.entries[cs[0]].events, Reload(job)))
  }

  /** `_evict`: wait for one more event, or take the entry's block back. */
  function Wait(s: State, victim: Key, events: seq<Event>, next: Next): World {
    if events != [] then World(s.(device := Synchronize(s.device, events[0])), Waiting(victim, events[1..], next))
    else if !Evictable(s, victim) then World(s, Idle)
    else
      World(DropEntry(s, victim), match next
                                  case Reload(job) => Rooming(job)
                                  case ClearRest(todo, closing) => Clearing(todo, closing))
  }

  function Copy(c: Config, s: State, job: Job, offset: int, copied: nat): World {
    var data := Incoming(c, job);
    if copied >= |data| then World(s, Draining(job, offset))
    else World(s.(arena := Write(s.arena, offset + copied, [data[copied]])), Copying(job, offset, copied + 1))
  }

  /** The copy is over and its stream waited for: publish, or give the block back. */
  function Settle(c: Config, s: State, job: Job, offset: int): World {
    if job.key !in c.records || job.key.layer !in s.regions || offset !in s.regions[job.key.layer].used then
      World(s, Idle)
    else if job.fault.NoFault? then
      World(Published(c, s, job.key, s.regions[job.key.layer], offset), Leasing(job))
    else
      var region := s.regions[job.key.layer];
      World(s.(regions := s.regions[job.key.layer := Release(region, offset)], failures := s.failures + 1), Idle)
  }

  function Clean(s: State, todo: seq<Key>, closing: bool): World {
    if todo == [] then World(if closing && s.entries == map[] then s.(closed := true, arena := []) else s, Idle)
    else if Evictable(s, todo[0]) then
      World(s, Waiting(todo[0], s.entries[todo[0]].events, ClearRest(todo[1..], closing)))
    else World(s, Clearing(todo[1..], closing))
  }

  function Count(s: State, job: Job): State {
    if job.key in s.entries then AddUser(s, job.key, job.id, job.stream) else s
  }

  /** The next move of the thread that holds the lock. */
  function Move(c: Config, w: World): World {
    match w.task
    case Idle => w
    case Rooming(job) => Room(c, w.s, job)
    case Waiting(victim, events, next) => Wait(w.s, victim, events, next)
    case Copying(job, offset, copied) => Copy(c, w.s, job, offset, copied)
    case Draining(job, offset) => World(w.s.(device := DrainStream(w.s.device, job.stream)), Settling(job, offset))
    case Settling(job, offset) => Settle(c, w.s, job, offset)
    case Leasing(job) => World(Count(w.s, job), Idle)
    case Clearing(todo, closing) => Clean(w.s, todo, closing)
  }

  /******* Turns *******/

  datatype Turn = Call(l: Label) | Go

  /** What needs no lock. */
  predicate Unlocked(l: Label) { l.Kernels? || l.Advance? }

  predicate CanTurn(w: World, t: Turn) {
    match t
    case Call(l) => Unlocked(l) || (w.task.Idle? && Enabled(w.s, l))
    case Go => !w.task.Idle?
  }

  function Take(c: Config, w: World, t: Turn): World {
    match t
    case Call(l) => if Unlocked(l) then World(Step(c, w.s, l), w.task) else Begin(c, w.s, l)
    case Go => Move(c, w)
  }

  predicate CanTake(c: Config, w: World, ts: seq<Turn>)
    decreases |ts|
  {
    ts == [] || (CanTurn(w, ts[0]) && CanTake(c, Take(c, w, ts[0]), ts[1..]))
  }

  function AfterTurns(c: Config, w: World, ts: seq<Turn>): World
    decreases |ts|
  {
    if ts == [] then w else AfterTurns(c, Take(c, w, ts[0]), ts[1..])
  }

  /******* The invariant *******/

  ghost predicate JobOk(c: Config, s: State, job: Job) {
    && !s.closed && job.key in c.records && job.key !in s.entries && job.id !in s.leases
    && forall k :: k in s.entries ==> s.entries[k].lastUse < s.clock
  }

  /** The state without the block that a load has reserved. */
  function Unreserved(s: State, layer: int, offset: int): State
    requires layer in s.regions && offset in s.regions[layer].used
  {
    s.(regions := s.regions[layer := Release(s.regions[layer], offset)])
  }

  ghost predicate Reserved(c: Config, s: State, job: Job, offset: int) {
    && job.key in c.records && job.key.layer in s.regions && offset in s.regions[job.key.layer].used
    && var s0, n := Unreserved(s, job.key.layer, offset), |c.records[job.key]|;
       && Inv(c, s0) && JobOk(c, s0, job) && Fits(s0, job.key.layer, n)
       && Allocate(s0.regions[job.key.layer], n) == (s.regions[job.key.layer], Some(offset))
  }

  ghost predicate Holding(s: State, offset: int, data: seq<Byte>) {
    0 <= offset && offset + |data| <= |s.arena| && s.arena[offset..offset + |data|] == data
  }

  /** Whatever still reads the victim has an event that is still waited for. */
  ghost predicate Watched(d: Device, victim: Key, events: seq<Event>) {
    && (forall v :: v in events ==> v.at <= At(d.issued, v.stream))
    && forall k :: k in d.kernels && k.key == victim && !Finished(d, k) ==>
         exists v :: v in events && v.stream == k.stream && v.at >= k.at
  }

  ghost predicate Unused(s: State) { forall k :: k in s.entries ==> s.entries[k].users == 0 }

  ghost predicate NextOk(c: Config, s: State, next: Next) {
    match next
    case Reload(job) => JobOk(c, s, job)
    case ClearRest(_, _) => Unused(s)
  }

  ghost predicate WorldOk(c: Config, w: World) {
    match w.task
    case Idle => Inv(c, w.s)
    case Rooming(job) => Inv(c, w.s) && JobOk(c, w.s, job)
    case Waiting(victim, events, next) =>
      && Inv(c, w.s) && NextOk(c, w.s, next) && victim in w.s.entries && w.s.entries[victim].users == 0
      && Watched(w.s.device, victim, events)
    case Copying(job, offset, copied) =>
      && Reserved(c, w.s, job, offset) && copied <= |Incoming(c, job)|
      && Holding(w.s, offset, Incoming(c, job)[..copied])
    case Draining(job, offset) => Reserved(c, w.s, job, offset) && Holding(w.s, offset, Incoming(c, job))
    case Settling(job, offset) => Reserved(c, w.s, job, offset) && Holding(w.s, offset, Incoming(c, job))
    case Leasing(job) => Inv(c, w.s) && job.key in w.s.entries && job.id !in w.s.leases
    case Clearing(_, _) => Inv(c, w.s) && Unused(w.s)
  }

  /******* What a move spares *******/

  /** Every kernel that is unfinished before the move keeps its expert, its block and its bytes. */
  ghost predicate Spares(s: State, t: State) {
    forall k :: k in s.device.kernels && !Finished(s.device, k) ==> k in t.device.kernels && Protected(s, t, k.key)
  }

  ghost predicate SameEntries(s: State, t: State) {
    forall key :: key in s.entries ==> key in t.entries && SameBlock(s.entries[key], t.entries[key])
  }

  /** A move that writes no byte and removes no entry. */
  lemma SparesIdle(s: State, t: State)
    requires DeviceOk(s.device, s.entries, s.leases) && s.device.kernels <= t.device.kernels
    requires t.arena == s.arena && SameEntries(s, t)
    ensures Spares(s, t)
  {
    forall k | k in s.device.kernels && !Finished(s.device, k) ensures Protected(s, t, k.key) {
      assert KernelOk(s.device, s.entries, s.leases, k);
    }
  }

  /** A copy into a block apart from every resident expert. */
  lemma SparesCopy(s: State, offset: int, data: seq<Byte>)
    requires DeviceOk(s.device, s.entries, s.leases) && Apart(s.entries, offset, |data|)
    ensures Spares(s, s.(arena := Write(s.arena, offset, data)))
  {
    var t := s.(arena := Write(s.arena, offset, data));
    forall k | k in s.device.kernels && !Finished(s.device, k) ensures Protected(s, t, k.key) {
      assert KernelOk(s.device, s.entries, s.leases, k);
    }
  }

  /** An eviction, once no kernel reads the entry. */
  lemma SparesDrop(s: State, t: State, key: Key)
    requires DeviceOk(s.device, s.entries, s.leases)
    requires t.entries == s.entries - {key} && t.arena == s.arena && t.device == s.device
    requires forall k :: k in s.device.kernels && k.key == key ==> Finished(s.device, k)
    ensures Spares(s, t)
  {
    forall k | k in s.device.kernels && !Finished(s.device, k) ensures Protected(s, t, k.key) {
      assert KernelOk(s.device, s.entries, s.leases, k);
    }
  }

  /** Of an empty cache no kernel is left. */
  lemma SparesNone(s: State, t: State)
    requires DeviceOk(s.device, s.entries, s.leases) && s.entries == map[]
    ensures Spares(s, t)
  {
    forall k | k in s.device.kernels ensures Finished(s.device, k) {
      assert KernelOk(s.device, s.entries, s.leases, k);
    }
  }

  lemma DeviceIsOk(c: Config, s: State)
    requires Inv(c, s)
    ensures DeviceOk(s.device, s.entries, s.leases)
  {
  }

  /******* Work on the GPU between two moves *******/

  /** It touches nothing but the device: new kernels belong to leases, and nothing finished starts again. */
  lemma UnlockedIs(c: Config, s: State, l: Label)
    requires Unlocked(l)
    ensures var t := Step(c, s, l);
            && t == s.(device := t.device) && s.device.kernels <= t.device.kernels
            && (forall x: int :: At(s.device.finished, x) <= At(t.device.finished, x))
            && (forall x: int :: At(s.device.issued, x) <= At(t.device.issued, x))
            && forall k :: k in t.device.kernels && k !in s.device.kernels ==>
                exists id :: id in s.leases && s.leases[id].key == k.key
  {
    if l.Kernels? && l.id in s.leases {
      var d := Step(c, s, l).device;
      assert forall k :: k in d.kernels && k !in s.device.kernels ==> k.key == s.leases[l.id].key;
    }
  }

  lemma UnlockedKeepsInv(c: Config, s: State, l: Label)
    requires Unlocked(l) && Inv(c, s)
    ensures Inv(c, Step(c, s, l))
  {
    hide Inv;
    if l.Kernels? { LaunchKeeps(c, s, l.id); } else { ProgressKeeps(c, s, l.stream); }
  }

  lemma UnlockedWatched(c: Config, s: State, l: Label, victim: Key, events: seq<Event>)
    requires Unlocked(l) && Inv(c, s) && victim in s.entries && s.entries[victim].users == 0
    requires Watched(s.device, victim, events)
    ensures Watched(Step(c, s, l).device, victim, events)
  {
    NoLease(s.entries, s.leases, victim);
    UnlockedIs(c, s, l);
    hide Inv, Step;
    StillWatched(s.device, Step(c, s, l).device, victim, events);
  }

  lemma StillWatched(d: Device, d': Device, victim: Key, events: seq<Event>)
    requires Watched(d, victim, events) && forall k :: k in d'.kernels && k.key == victim ==> k in d.kernels
    requires forall x: int :: At(d.finished, x) <= At(d'.finished, x) && At(d.issued, x) <= At(d'.issued, x)
    ensures Watched(d', victim, events)
  {
    forall k | k in d'.kernels && k.key == victim && !Finished(d', k)
      ensures exists v :: v in events && v.stream == k.stream && v.at >= k.at
    {
      assert k in d.kernels && !Finished(d, k);
    }
  }

  /** A reservation outlasts changes of bytes and device that keep the state without it in order. */
  lemma ReservedStays(c: Config, s: State, arena: seq<Byte>, d: Device, job: Job, offset: int)
    requires Reserved(c, s, job, offset)
    requires Inv(c, Unreserved(s, job.key.layer, offset).(arena := arena, device := d))
    ensures Reserved(c, s.(arena := arena, device := d), job, offset)
  {
    var s0, t := Unreserved(s, job.key.layer, offset), s.(arena := arena, device := d);
    assert Unreserved(t, job.key.layer, offset) == s0.(arena := arena, device := d);
    hide Inv, Allocate, Release;
  }

  lemma UnlockedReserved(c: Config, s: State, l: Label, job: Job, offset: int)
    requires Unlocked(l) && Reserved(c, s, job, offset)
    ensures Reserved(c, Step(c, s, l), job, offset)
  {
    var s0 := Unreserved(s, job.key.layer, offset);
    UnlockedKeepsInv(c, s0, l);
    UnlockedIs(c, s, l);
    UnlockedIs(c, s0, l);
    UnlockedCommutes(c, s, l, job.key.layer, offset);
    hide Inv, Step, Release, Reserved;
    ReservedStays(c, s, s.arena, Step(c, s, l).device, job, offset);
  }

  lemma UnlockedCommutes(c: Config, s: State, l: Label, layer: int, offset: int)
    requires Unlocked(l) && layer in s.regions && offset in s.regions[layer].used
    ensures Step(c, Unreserved(s, layer, offset), l).device == Step(c, s, l).device
  {
    hide Release;
  }

  /** A task's own facts do not speak of the device, apart from the events a wait is for. */
  lemma OtherDevice(c: Config, w: World, d: Device)
    requires WorldOk(c, w)
             && (w.task.Idle? || w.task.Rooming? || w.task.Leasing? || w.task.Clearing? || w.task.Waiting?)
    requires Inv(c, w.s.(device := d))
    requires w.task.Waiting? ==> Watched(d, w.task.victim, w.task.events)
    ensures WorldOk(c, World(w.s.(device := d), w.task))
  {
    hide Inv, Watched;
  }

  lemma OtherDeviceReserved(c: Config, w: World, d: Device)
    requires WorldOk(c, w) && (w.task.Copying? || w.task.Draining? || w.task.Settling?)
    requires Reserved(c, w.s.(device := d), w.task.job, w.task.offset)
    ensures WorldOk(c, World(w.s.(device := d), w.task))
  {
    hide Reserved;
  }

  lemma UnlockedKeeps(c: Config, w: World, l: Label)
    requires Unlocked(l) && WorldOk(c, w)
    ensures WorldOk(c, World(Step(c, w.s, l), w.task)) && Spares(w.s, Step(c, w.s, l))
  {
    UnlockedIs(c, w.s, l);
    WorldDevice(c, w);
    WorldParts(c, w);
    hide Inv, Step, Watched, Reserved, DeviceOk, WorldOk;
    SparesIdle(w.s, Step(c, w.s, l));
    if w.task.Copying? || w.task.Draining? || w.task.Settling? {
      UnlockedReserved(c, w.s, l, w.task.job, w.task.offset);
      OtherDeviceReserved(c, w, Step(c, w.s, l).device);
    } else {
      UnlockedKeepsInv(c, w.s, l);
      if w.task.Waiting? { UnlockedWatched(c, w.s, l, w.task.victim, w.task.events); }
      OtherDevice(c, w, Step(c, w.s, l).device);
    }
  }

  lemma WorldParts(c: Config, w: World)
    requires WorldOk(c, w)
    ensures w.task.Copying? || w.task.Draining? || w.task.Settling? ==> Reserved(c, w.s, w.task.job, w.task.offset)
    ensures !(w.task.Copying? || w.task.Draining? || w.task.Settling?) ==> Inv(c, w.s)
    ensures w.task.Waiting? ==>
              && w.task.victim in w.s.entries && w.s.entries[w.task.victim].users == 0
              && Watched(w.s.device, w.task.victim, w.task.events)
  {
    hide Inv, Reserved, Watched;
  }

  /** Whatever the lock's holder is doing, the kernels are accounted for. */
  lemma WorldDevice(c: Config, w: World)
    requires WorldOk(c, w)
    ensures DeviceOk(w.s.device, w.s.entries, w.s.leases)
  {
    hide Layout, Owns, OrderOk, DataOk, UsersOk, DeviceOk, Allocate, Release;
  }

  /******* The moves *******/

  lemma RoomKeeps(c: Config, s: State, job: Job)
    requires Inv(c, s) && JobOk(c, s, job)
    ensures WorldOk(c, Room(c, s, job)) && Spares(s, Room(c, s, job).s)
  {
    OrderCovers(c, s);
    DeviceIsOk(c, s);
    var layer, n := job.key.layer, |c.records[job.key]|;
    var cs := Candidates(s, layer, s.order);
    hide Inv, DeviceOk, Spares;
    if Fits(s, layer, n) {
      ReserveKeeps(c, s, job);
    } else {
      SparesIdle(s, s);
      if cs != [] && Evictable(s, cs[0]) {
        assert cs[0] in cs;
        hide Candidates, Allocate, Fits;
        StartsWatched(c, s, cs[0]);
      }
    }
  }

  /** Giving the reserved block back restores the state. */
  lemma ReserveUndone(c: Config, s: State, key: Key)
    requires Inv(c, s) && key in c.records && key.layer in s.regions && Fits(s, key.layer, |c.records[key]|)
    ensures var layer, n := key.layer, |c.records[key]|;
            var t, offset := Reserve(s, layer, n), Allocate(s.regions[layer], n).1.value;
            && offset in t.regions[layer].used && Unreserved(t, layer, offset) == s
            && 0 <= offset <= c.capacity
  {
    ReserveFacts(c, s, key);
    RolledBack(s.regions, key.layer, |c.records[key]|);
    hide Inv, Allocate, Release, ValidRegion;
  }

  lemma ReserveKeeps(c: Config, s: State, job: Job)
    requires Inv(c, s) && JobOk(c, s, job) && job.key.layer in s.regions && Fits(s, job.key.layer, |c.records[job.key]|)
    ensures var layer, n := job.key.layer, |c.records[job.key]|;
            var t, offset := Reserve(s, layer, n), Allocate(s.regions[layer], n).1.value;
            WorldOk(c, World(t, Copying(job, offset, 0))) && Spares(s, t)
  {
    var layer, n := job.key.layer, |c.records[job.key]|;
    ReserveOk(c, s, job);
    DeviceIsOk(c, s);
    hide *;
    ReserveSpares(s, layer, n);
    var t, offset := Reserve(s, layer, n), Allocate(s.regions[layer], n).1.value;
    HoldingNone(t, offset, Incoming(c, job));
    CopyingOk(c, t, job, offset, 0);
  }

  lemma ReserveSpares(s: State, layer: int, n: int)
    requires DeviceOk(s.device, s.entries, s.leases) && layer in s.regions
    ensures Spares(s, Reserve(s, layer, n))
  {
    hide DeviceOk, Allocate;
    SparesIdle(s, Reserve(s, layer, n));
  }

  lemma HoldingNone(s: State, offset: int, data: seq<Byte>)
    requires 0 <= offset <= |s.arena|
    ensures Holding(s, offset, data[..0])
  {
  }

  lemma CopyingOk(c: Config, s: State, job: Job, offset: int, copied: nat)
    requires Reserved(c, s, job, offset) && copied <= |Incoming(c, job)|
    requires Holding(s, offset, Incoming(c, job)[..copied])
    ensures WorldOk(c, World(s, Copying(job, offset, copied)))
  {
    hide Reserved, Holding, Incoming;
  }

  lemma ReserveOk(c: Config, s: State, job: Job)
    requires Inv(c, s) && JobOk(c, s, job) && job.key.layer in s.regions && Fits(s, job.key.layer, |c.records[job.key]|)
    ensures var layer, n := job.key.layer, |c.records[job.key]|;
            var t, offset := Reserve(s, layer, n), Allocate(s.regions[layer], n).1.value;
            Reserved(c, t, job, offset) && 0 <= offset <= |t.arena|
  {
    ReserveUndone(c, s, job.key);
    ArenaSize(c, s);
    hide Inv, Allocate, Release, Unreserved;
  }

  lemma StartsWatched(c: Config, s: State, victim: Key)
    requires Inv(c, s) && victim in s.entries && s.entries[victim].users == 0
    ensures Watched(s.device, victim, s.entries[victim].events)
  {
    NoLease(s.entries, s.leases, victim);
    hide Layout, Owns, OrderOk, DataOk;
    forall k | k in s.device.kernels && k.key == victim && !Finished(s.device, k)
      ensures Guarded(s.entries[victim], k)
    {
      assert KernelOk(s.device, s.entries, s.leases, k);
    }
  }

  lemma WaitKeeps(c: Config, s: State, victim: Key, events: seq<Event>, next: Next)
    requires WorldOk(c, World(s, Waiting(victim, events, next)))
    ensures WorldOk(c, Wait(s, victim, events, next)) && Spares(s, Wait(s, victim, events, next).s)
  {
    hide Inv, Watched, DropEntry, Synchronize;
    if events != [] {
      SynchronizeKeeps(c, s, victim, events);
    } else {
      LastEvent(c, s, victim);
      DropKeeps(c, s, victim);
      DropKeepsNext(c, s, victim, next);
      DeviceIsOk(c, s);
      SparesDropped(s, victim);
    }
  }

  lemma SparesDropped(s: State, victim: Key)
    requires DeviceOk(s.device, s.entries, s.leases) && Evictable(s, victim)
    requires forall k :: k in s.device.kernels && k.key == victim ==> Finished(s.device, k)
    ensures Spares(s, DropEntry(s, victim))
  {
    hide DeviceOk, Release;
    SparesDrop(s, DropEntry(s, victim), victim);
  }

  lemma LastEvent(c: Config, s: State, victim: Key)
    requires Watched(s.device, victim, [])
    ensures forall k :: k in s.device.kernels && k.key == victim ==> Finished(s.device, k)
  {
  }

  lemma DropKeepsNext(c: Config, s: State, victim: Key, next: Next)
    requires Evictable(s, victim) && NextOk(c, s, next)
    ensures NextOk(c, DropEntry(s, victim), next)
  {
    hide Release;
  }

  lemma SynchronizeKeeps(c: Config, s: State, victim: Key, events: seq<Event>)
    requires Inv(c, s) && events != [] && Watched(s.device, victim, events)
    ensures var t := s.(device := Synchronize(s.device, events[0]));
            Inv(c, t) && Watched(t.device, victim, events[1..]) && Spares(s, t)
  {
    var d, d' := s.device, Synchronize(s.device, events[0]);
    assert events[0] in events;
    DeviceIsOk(c, s);
    DeviceAdvances(d, d', s.entries, s.leases);
    forall k | k in d'.kernels && k.key == victim && !Finished(d', k)
      ensures exists v :: v in events[1..] && v.stream == k.stream && v.at >= k.at
    {
      assert !Finished(d, k);
      var v :| v in events && v.stream == k.stream && v.at >= k.at;
      assert v == events[0] || v in events[1..];
    }
    hide DeviceOk, Layout, Owns, OrderOk, DataOk, UsersOk;
    SparesIdle(s, s.(device := d'));
  }

  lemma CopyKeepsWorld(c: Config, s: State, job: Job, offset: int, copied: nat)
    requires WorldOk(c, World(s, Copying(job, offset, copied)))
    ensures WorldOk(c, Copy(c, s, job, offset, copied)) && Spares(s, Copy(c, s, job, offset, copied).s)
  {
    WorldDevice(c, World(s, Copying(job, offset, copied)));
    hide Inv, DeviceOk, Reserved, Write, Spares, Incoming;
    var data := Incoming(c, job);
    if copied < |data| {
      CopiesByte(c, s, job, offset, copied);
    } else {
      assert data[..copied] == data;
      SparesIdle(s, s);
    }
  }

  lemma CopiesByte(c: Config, s: State, job: Job, offset: int, i: nat)
    requires Reserved(c, s, job, offset) && DeviceOk(s.device, s.entries, s.leases)
    requires i < |Incoming(c, job)| && Holding(s, offset, Incoming(c, job)[..i])
    ensures var t := s.(arena := Write(s.arena, offset + i, [Incoming(c, job)[i]]));
            WorldOk(c, World(t, Copying(job, offset, i + 1))) && Spares(s, t)
  {
    hide *;
    ReservedIs(c, s, job, offset);
    ByteKeeps(c, s, job, offset, i);
    ByteApart(s.entries, offset, |Incoming(c, job)|, i);
    SparesCopy(s, offset + i, [Incoming(c, job)[i]]);
    HoldingMore(s, offset, Incoming(c, job), i);
    CopyingOk(c, s.(arena := Write(s.arena, offset + i, [Incoming(c, job)[i]])), job, offset, i + 1);
  }

  lemma HoldingMore(s: State, offset: int, data: seq<Byte>, i: nat)
    requires 0 <= offset && offset + |data| <= |s.arena| && i < |data| && Holding(s, offset, data[..i])
    ensures Holding(s.(arena := Write(s.arena, offset + i, [data[i]])), offset, data[..i + 1])
  {
    OneMoreByte(s.arena, offset, data, i);
  }

  /** The block lies inside the arena, apart from every resident expert. */
  lemma ReservedIs(c: Config, s: State, job: Job, offset: int)
    requires Reserved(c, s, job, offset)
    ensures !s.closed && |s.arena| == c.capacity
    ensures 0 <= offset && offset + |Incoming(c, job)| <= offset + |c.records[job.key]| <= |s.arena|
    ensures Apart(s.entries, offset, |Incoming(c, job)|)
  {
    var s0 := Unreserved(s, job.key.layer, offset);
    ReserveFacts(c, s0, job.key);
    ArenaSize(c, s0);
    hide Inv, Release, Allocate;
    ApartFrom(s.entries, offset, |c.records[job.key]|, |Incoming(c, job)|);
  }

  lemma ByteApart(es: Entries, offset: int, n: int, i: nat)
    requires Apart(es, offset, n) && i < n
    ensures Apart(es, offset + i, 1)
  {
  }

  lemma OneMoreByte(arena: seq<Byte>, offset: int, data: seq<Byte>, i: nat)
    requires 0 <= offset && offset + |data| <= |arena| && i < |data| && arena[offset..offset + i] == data[..i]
    ensures var t := Write(arena, offset + i, [data[i]]);
            t[offset..offset + i + 1] == data[..i + 1] && |data[..i + 1]| == i + 1
  {
    var t := Write(arena, offset + i, [data[i]]);
    assert t[offset..offset + i + 1] == arena[offset..offset + i] + [data[i]];
  }

  lemma ByteKeeps(c: Config, s: State, job: Job, offset: int, i: nat)
    requires Reserved(c, s, job, offset) && i < |Incoming(c, job)|
    ensures Reserved(c, s.(arena := Write(s.arena, offset + i, [Incoming(c, job)[i]])), job, offset)
  {
    hide Inv, Allocate, Release, ValidRegion, Write, Apart, Fits;
    var s0 := Unreserved(s, job.key.layer, offset);
    ReservedIs(c, s, job, offset);
    ByteApart(s.entries, offset, |Incoming(c, job)|, i);
    assert Inv(c, s0) && s0.arena == s.arena && s0.entries == s.entries;
    ByteCopies(c, s0, offset + i, Incoming(c, job)[i]);
    hide *;
    ReservedStays(c, s, Write(s.arena, offset + i, [Incoming(c, job)[i]]), s.device, job, offset);
  }

  lemma ByteCopies(c: Config, s: State, at: int, b: Byte)
    requires Inv(c, s) && !s.closed && 0 <= at < c.capacity && Apart(s.entries, at, 1)
    ensures Inv(c, s.(arena := Write(s.arena, at, [b]), device := s.device))
  {
    hide Inv, Write;
    CopyKeeps(c, s, at, [b]);
  }

  lemma DrainKeepsWorld(c: Config, s: State, job: Job, offset: int)
    requires WorldOk(c, World(s, Draining(job, offset)))
    ensures var t := s.(device := DrainStream(s.device, job.stream));
            WorldOk(c, World(t, Settling(job, offset))) && Spares(s, t)
  {
    var t := s.(device := DrainStream(s.device, job.stream));
    WorldDevice(c, World(s, Draining(job, offset)));
    assert t.device.kernels == s.device.kernels;
    var s0 := Unreserved(s, job.key.layer, offset);
    assert Inv(c, s0.(arena := s.arena, device := t.device)) by { DrainKeepsInv(c, s0, job.stream); }
    hide Inv, DeviceOk, DrainStream, Reserved;
    SparesIdle(s, t);
    ReservedStays(c, s, s.arena, t.device, job, offset);
  }

  /** The state that a publication starts from, in the form it is asked for. */
  lemma ReservedBlock(c: Config, s: State, job: Job, offset: int)
    requires Reserved(c, s, job, offset)
    ensures var s0, r := Unreserved(s, job.key.layer, offset), s.regions[job.key.layer];
            && Inv(c, s0) && JobOk(c, s0, job) && job.key.layer in s0.regions
            && s0 == s.(regions := s0.regions) && s0.regions[job.key.layer := r] == s.regions
            && ValidRegion(r) && r.base == s0.regions[job.key.layer].base && r.size == s0.regions[job.key.layer].size
            && offset !in s0.regions[job.key.layer].used
            && r.used == s0.regions[job.key.layer].used[offset := |c.records[job.key]|]
  {
    ReserveFacts(c, Unreserved(s, job.key.layer, offset), job.key);
    hide Inv, ValidRegion, Release, Allocate;
  }

  lemma SamePublication(c: Config, s: State, s0: State, key: Key, r: Region, o: int)
    requires key in c.records && s0 == s.(regions := s0.regions)
             && s0.regions[key.layer := r] == s.regions[key.layer := r]
    ensures Published(c, s, key, r, o) == Published(c, s0, key, r, o)
  {
  }

  lemma PublishedEntry(c: Config, s: State, key: Key, r: Region, o: int)
    requires key in c.records && key !in s.entries
    ensures var t := Published(c, s, key, r, o);
            && key in t.entries && t.leases == s.leases && t.arena == s.arena && t.device == s.device
              && SameEntries(s, t)
  {
  }

  lemma PublishesFrom(c: Config, s0: State, s: State, job: Job, r: Region, offset: int)
    requires Inv(c, s0) && JobOk(c, s0, job) && job.key.layer in s0.regions
    requires s0 == s.(regions := s0.regions) && s0.regions[job.key.layer := r] == s.regions
    requires ValidRegion(r) && r.base == s0.regions[job.key.layer].base && r.size == s0.regions[job.key.layer].size
    requires offset !in s0.regions[job.key.layer].used
    requires r.used == s0.regions[job.key.layer].used[offset := |c.records[job.key]|]
    requires Holding(s, offset, c.records[job.key])
    ensures Inv(c, Published(c, s, job.key, r, offset))
  {
    hide Inv, ValidRegion, Published;
    PublishedKeeps(c, s0, job.key, r, offset);
    assert s.regions[job.key.layer := r] == s.regions;
    SamePublication(c, s, s0, job.key, r, offset);
  }

  lemma SettlePublishes(c: Config, s: State, job: Job, offset: int)
    requires Reserved(c, s, job, offset) && job.fault.NoFault? && Holding(s, offset, c.records[job.key])
    requires DeviceOk(s.device, s.entries, s.leases)
    ensures var t := Published(c, s, job.key, s.regions[job.key.layer], offset);
            Inv(c, t) && Spares(s, t) && job.key in t.entries && job.id !in t.leases
  {
    var s0, r := Unreserved(s, job.key.layer, offset), s.regions[job.key.layer];
    ReservedBlock(c, s, job, offset);
    hide *;
    PublishesFrom(c, s0, s, job, r, offset);
    assert job.key !in s.entries && job.id !in s.leases by { JobEntries(c, s0, s, job); }
    PublishedEntry(c, s, job.key, r, offset);
    SparesIdle(s, Published(c, s, job.key, r, offset));
  }

  lemma JobEntries(c: Config, s0: State, s: State, job: Job)
    requires JobOk(c, s0, job) && s0 == s.(regions := s0.regions)
    ensures job.key !in s.entries && job.id !in s.leases
  {
  }

  lemma SettleFails(c: Config, s: State, job: Job, offset: int)
    requires Reserved(c, s, job, offset) && DeviceOk(s.device, s.entries, s.leases)
    ensures var t := Unreserved(s, job.key.layer, offset).(failures := s.failures + 1);
            Inv(c, t) && Spares(s, t)
  {
    var s0 := Unreserved(s, job.key.layer, offset);
    CountsFailure(c, s0);
    hide Inv, DeviceOk, Release;
    SparesIdle(s, s0.(failures := s.failures + 1));
  }

  lemma SettleKeeps(c: Config, s: State, job: Job, offset: int)
    requires WorldOk(c, World(s, Settling(job, offset)))
    ensures WorldOk(c, Settle(c, s, job, offset)) && Spares(s, Settle(c, s, job, offset).s)
  {
    WorldDevice(c, World(s, Settling(job, offset)));
    assert Reserved(c, s, job, offset) && Holding(s, offset, Incoming(c, job));
    hide Inv, DeviceOk, Spares, Published, Release;
    if job.fault.NoFault? {
      SettlePublishes(c, s, job, offset);
      LeasingOk(c, Published(c, s, job.key, s.regions[job.key.layer], offset), job);
    } else {
      SettleFails(c, s, job, offset);
    }
  }

  lemma CountsFailure(c: Config, s: State)
    requires Inv(c, s)
    ensures Inv(c, s.(failures := s.failures + 1))
  {
    hide Layout, Owns, OrderOk, DataOk, UsersOk, DeviceOk;
  }

  lemma LeaseKeeps(c: Config, s: State, job: Job)
    requires WorldOk(c, World(s, Leasing(job)))
    ensures Inv(c, Count(s, job)) && Spares(s, Count(s, job))
  {
    DeviceIsOk(c, s);
    hide Inv, DeviceOk, AddUser, Spares;
    AddUserKeeps(c, s, job.key, job.id, job.stream);
    LeaseSpares(s, job.key, job.id, job.stream);
  }

  lemma LeaseSpares(s: State, key: Key, id: nat, stream: int)
    requires DeviceOk(s.device, s.entries, s.leases) && key in s.entries
    ensures Spares(s, AddUser(s, key, id, stream))
  {
    hide DeviceOk;
    SparesIdle(s, AddUser(s, key, id, stream));
  }

  lemma CleanKeeps(c: Config, s: State, todo: seq<Key>, closing: bool)
    requires Inv(c, s) && Unused(s)
    ensures WorldOk(c, Clean(s, todo, closing)) && Spares(s, Clean(s, todo, closing).s)
  {
    DeviceIsOk(c, s);
    if todo != [] && Evictable(s, todo[0]) { StartsWatched(c, s, todo[0]); }
    if todo == [] && closing && s.entries == map[] {
      CloseEmpty(c, s);
      SparesNone(s, s.(closed := true, arena := []));
    } else {
      hide DeviceOk, Inv;
      SparesIdle(s, s);
    }
  }

  /** Every move keeps the invariant and spares the kernels that are unfinished when it begins. */
  lemma MoveKeeps(c: Config, w: World)
    requires WorldOk(c, w)
    ensures WorldOk(c, Move(c, w)) && Spares(w.s, Move(c, w).s)
  {
    WorldDevice(c, w);
    hide Inv, Spares, Room, Wait, Copy, Settle, Clean, Count, DrainStream, Reserved, Watched, DeviceOk;
    match w.task {
      case Idle => SparesIdle(w.s, w.s);
      case Rooming(job) => RoomKeeps(c, w.s, job);
      case Waiting(victim, events, next) => WaitKeeps(c, w.s, victim, events, next);
      case Copying(job, offset, copied) => CopyKeepsWorld(c, w.s, job, offset, copied);
      case Draining(job, offset) => DrainKeepsWorld(c, w.s, job, offset);
      case Settling(job, offset) => SettleKeeps(c, w.s, job, offset);
      case Leasing(job) => LeaseKeeps(c, w.s, job);
      case Clearing(todo, closing) => CleanKeeps(c, w.s, todo, closing);
    }
  }

  /******* Beginnings *******/

  /** Counting an access changes nothing else. */
  lemma TickKeeps(c: Config, s: State, misses: nat)
    requires Inv(c, s)
    ensures var t := s.(clock := s.clock + 1, misses := misses);
            Inv(c, t) && Spares(s, t) && forall k :: k in t.entries ==> t.entries[k].lastUse < t.clock
  {
    hide Layout, Owns, OrderOk, DataOk, UsersOk, DeviceOk;
    SparesIdle(s, s.(clock := s.clock + 1, misses := misses));
  }

  lemma TouchSpares(s: State, key: Key)
    requires DeviceOk(s.device, s.entries, s.leases) && key in s.entries
    ensures Spares(s, Hit(s.(clock := s.clock + 1), key)) && key in Hit(s.(clock := s.clock + 1), key).entries
    ensures Hit(s.(clock := s.clock + 1), key).leases == s.leases
  {
    hide DeviceOk, Pending, Remove;
    SparesIdle(s, Hit(s.(clock := s.clock + 1), key));
  }

  /** How a lease begins, case by case. */
  lemma EnterIs(c: Config, s: State, l: Label)
    requires l.Enter? && (l.key in c.records ==> l.key.layer in s.regions)
    ensures var job := Job(l.key, l.fault, l.id, l.stream);
            Begin(c, s, l) ==
            if s.closed || l.key !in c.records || l.cancelled then World(s, Idle)
            else if l.key in s.entries then World(Hit(s.(clock := s.clock + 1), l.key), Leasing(job))
            else World(s.(clock := s.clock + 1, misses := s.misses + 1), if l.guard then Rooming(job) else Idle)
  {
    hide Hit;
  }

  lemma HitBegins(c: Config, s: State, key: Key)
    requires Inv(c, s) && key in s.entries
    ensures var t := Hit(s.(clock := s.clock + 1), key);
            Inv(c, t) && Spares(s, t) && key in t.entries && t.leases == s.leases
  {
    DeviceIsOk(c, s);
    hide *;
    TickKeeps(c, s, s.misses);
    var now := s.(clock := s.clock + 1);
    assert now == s.(clock := s.clock + 1, misses := s.misses);
    HitKeeps(c, now, key);
    TouchSpares(s, key);
  }

  lemma LeasingOk(c: Config, s: State, job: Job)
    requires Inv(c, s) && job.key in s.entries && job.id !in s.leases
    ensures WorldOk(c, World(s, Leasing(job)))
  {
    hide Inv;
  }

  lemma MissBegins(c: Config, s: State, job: Job, guard: bool)
    requires Inv(c, s) && !s.closed && job.key in c.records && job.key !in s.entries && job.id !in s.leases
    ensures var t := s.(clock := s.clock + 1, misses := s.misses + 1);
            WorldOk(c, World(t, if guard then Rooming(job) else Idle)) && Spares(s, t)
  {
    hide Inv, Spares;
    TickKeeps(c, s, s.misses + 1);
  }

  lemma EnterBegins(c: Config, s: State, l: Label)
    requires Inv(c, s) && l.Enter? && Enabled(s, l)
    ensures WorldOk(c, Begin(c, s, l)) && Spares(s, Begin(c, s, l).s)
  {
    DeviceIsOk(c, s);
    OrderCovers(c, s);
    EnterIs(c, s, l);
    assert WorldOk(c, World(s, Idle));
    hide Inv, DeviceOk, Hit, Spares, Begin, WorldOk;
    var job := Job(l.key, l.fault, l.id, l.stream);
    if s.closed || l.key !in c.records || l.cancelled {
      SparesIdle(s, s);
    } else if l.key in s.entries {
      HitBegins(c, s, l.key);
      LeasingOk(c, Hit(s.(clock := s.clock + 1), l.key), job);
    } else {
      MissBegins(c, s, job, l.guard);
    }
  }

  lemma ClearBegins(c: Config, s: State, l: Label)
    requires Inv(c, s) && (l.ClearAll? || l.Shutdown?)
    ensures WorldOk(c, Begin(c, s, l)) && Spares(s, Begin(c, s, l).s)
  {
    DeviceIsOk(c, s);
    hide Inv, DeviceOk, Spares;
    SparesIdle(s, s);
  }

  lemma ExitBegins(c: Config, s: State, l: Label)
    requires Inv(c, s) && l.Exit?
    ensures WorldOk(c, Begin(c, s, l)) && Spares(s, Begin(c, s, l).s)
  {
    DeviceIsOk(c, s);
    hide Inv, DeviceOk, Spares, Leave;
    LeaveKeeps(c, s, l.id);
    LeaveSpares(s, l.id);
  }

  lemma BeginKeeps(c: Config, s: State, l: Label)
    requires Inv(c, s) && Enabled(s, l) && !Unlocked(l)
    ensures WorldOk(c, Begin(c, s, l)) && Spares(s, Begin(c, s, l).s)
  {
    hide Inv, Enabled, WorldOk, Begin, Spares;
    if l.Enter? {
      EnterBegins(c, s, l);
    } else if l.Exit? {
      ExitBegins(c, s, l);
    } else {
      ClearBegins(c, s, l);
    }
  }

  lemma LeaveSpares(s: State, id: nat)
    requires DeviceOk(s.device, s.entries, s.leases)
    ensures Spares(s, Leave(s, id))
  {
    hide DeviceOk;
    SparesIdle(s, Leave(s, id));
  }

  /******* Every run *******/

  /** Whatever happens next, in the operation or beside it, spares every kernel unfinished at that moment. */
  lemma TurnSparesKernels(c: Config, w: World, t: Turn)
    requires WorldOk(c, w) && CanTurn(w, t)
    ensures WorldOk(c, Take(c, w, t)) && Spares(w.s, Take(c, w, t).s)
  {
    hide WorldOk, Spares, Move, Begin, Step;
    match t {
      case Go => MoveKeeps(c, w);
      case Call(l) =>
        if Unlocked(l) { UnlockedKeeps(c, w, l); } else { IdleBegins(c, w, l); }
    }
  }

  lemma IdleBegins(c: Config, w: World, l: Label)
    requires WorldOk(c, w) && w.task.Idle? && Enabled(w.s, l) && !Unlocked(l)
    ensures WorldOk(c, Begin(c, w.s, l)) && Spares(w.s, Begin(c, w.s, l).s)
  {
    BeginKeeps(c, w.s, l);
  }

  lemma {:induction false} TurnsKeep(c: Config, w: World, ts: seq<Turn>)
    requires WorldOk(c, w) && CanTake(c, w, ts)
    ensures WorldOk(c, AfterTurns(c, w, ts))
    decreases |ts|
  {
    hide WorldOk, CanTurn, Take, Spares;
    if ts != [] {
      TurnSparesKernels(c, w, ts[0]);
      TurnsKeep(c, Take(c, w, ts[0]), ts[1..]);
    }
  }

  /**
   In every run from the empty cache, however kernels and streams interleave with the moves of operations, no turn takes
   expert, block or bytes from a kernel that is unfinished when it begins.
   */
  lemma EveryRunSparesKernels(c: Config, arena: seq<Byte>, ts: seq<Turn>, t: Turn)
    requires ValidConfig(c) && |arena| == c.capacity
    requires var w := World(Start(c, arena), Idle);
             CanTake(c, w, ts) && CanTurn(AfterTurns(c, w, ts), t)
    ensures var w := AfterTurns(c, World(Start(c, arena), Idle), ts);
            Spares(w.s, Take(c, w, t).s)
  {
    StartKeeps(c, arena);
    hide Inv, ValidConfig, Start, CanTake, AfterTurns, Take, CanTurn, Spares;
    var w := World(Start(c, arena), Idle);
    TurnsKeep(c, w, ts);
    TurnSparesKernels(c, AfterTurns(c, w, ts), t);
  }

  /** Whatever the lock's holder is doing, every resident expert's bytes are its record. */
  lemma WorldData(c: Config, w: World)
    requires WorldOk(c, w)
    ensures DataOk(c, w.s.arena, w.s.entries)
  {
    hide Layout, Owns, OrderOk, DataOk, UsersOk, DeviceOk, Allocate, Release;
  }

  /**
   And at every moment of such a run, half-way through an operation or not, an unfinished kernel reads its own record,
   under a live lease or a retained later event on its stream.
   */
  lemma EveryMomentFeedsKernels(c: Config, arena: seq<Byte>, ts: seq<Turn>, k: Kernel)
    requires ValidConfig(c) && |arena| == c.capacity && CanTake(c, World(Start(c, arena), Idle), ts)
    requires var s := AfterTurns(c, World(Start(c, arena), Idle), ts).s;
             k in s.device.kernels && !Finished(s.device, k)
    ensures var s := AfterTurns(c, World(Start(c, arena), Idle), ts).s;
            && k.key in s.entries && Holds(c, s.arena, k.key, s.entries[k.key])
            && (HeldBy(s.leases, k) || Guarded(s.entries[k.key], k))
  {
    StartKeeps(c, arena);
    hide Inv, ValidConfig, Start, CanTake, AfterTurns, WorldOk;
    assert WorldOk(c, World(Start(c, arena), Idle)) by { IdleOk(c, Start(c, arena)); }
    TurnsKeep(c, World(Start(c, arena), Idle), ts);
    var w := AfterTurns(c, World(Start(c, arena), Idle), ts);
    WorldDevice(c, w);
    WorldData(c, w);
    assert KernelOk(w.s.device, w.s.entries, w.s.leases, k);
  }

  lemma IdleOk(c: Config, s: State)
    requires Inv(c, s)
    ensures WorldOk(c, World(s, Idle))
  {
  }
}
