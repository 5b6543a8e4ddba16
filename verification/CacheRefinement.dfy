/**
 The moves of an operation come to what `CacheSpec` says in one step: however kernels and streams interleave with them,
 the operation ends in the specified state, the progress of the device apart.
 */
module CacheRefinement {
  import opened Bytes
  import opened Options
  import opened RegionSpec
  import opened CacheSpec
  import opened CacheSafety
  import opened CacheTheorems
  import opened CacheMoves

  ghost predicate SameButDevice(s: State, t: State) { s == t.(device := s.device) }

  /******* What an operation comes to *******/

  function FillEnd(c: Config, s: State, job: Job, offset: int): State {
    if job.key in c.records && job.key.layer in s.regions && offset in s.regions[job.key.layer].used
    then Count(Fill(c, s, job.key, offset, job.fault, job.stream).0, job)
    else s
  }

  function LoadEnd(c: Config, s: State, job: Job): State {
    if job.key !in c.records || job.key.layer !in s.regions then s
    else
      var layer, n := job.key.layer, |c.records[job.key]|;
      var roomy := MakeRoom(s, layer, n);
      if !Fits(roomy, layer, n) then roomy
      else FillEnd(c, Reserve(roomy, layer, n), job, Allocate(roomy.regions[layer], n).1.value)
  }

  function ClearEnd(s: State, todo: seq<Key>, closing: bool): State {
    var t := EvictAll(s, todo);
    if closing && t.entries == map[] then t.(closed := true, arena := []) else t
  }

  function NextEnd(c: Config, s: State, next: Next): State {
    match next
    case Reload(job) => LoadEnd(c, s, job)
    case ClearRest(todo, closing) => ClearEnd(s, todo, closing)
  }

  /** The state in which the operation in progress ends if nothing else happens. */
  function End(c: Config, w: World): State {
    match w.task
    case Idle => w.s
    case Rooming(job) => LoadEnd(c, w.s, job)
    case Waiting(victim, events, next) =>
      if Evictable(w.s, victim)
      then NextEnd(c, DropEntry(w.s.(device := SynchronizeAll(w.s.device, events)), victim), next)
      else w.s
    case Copying(job, offset, _) => FillEnd(c, w.s, job, offset)
    case Draining(job, offset) => FillEnd(c, w.s, job, offset)
    case Settling(job, offset) => FillEnd(c, w.s, job, offset)
    case Leasing(job) => Count(w.s, job)
    case Clearing(todo, closing) => ClearEnd(w.s, todo, closing)
  }

  /******* It does not depend on the device *******/

  lemma {:induction false} CandidatesDevice(s: State, t: State, layer: int, order: seq<Key>)
    requires SameButDevice(s, t)
    ensures Candidates(s, layer, order) == Candidates(t, layer, order)
  {
    if order != [] { CandidatesDevice(s, t, layer, order[1..]); }
  }

  lemma EvictDevice(s: State, t: State, key: Key)
    requires SameButDevice(s, t) && Evictable(s, key)
    ensures Evictable(t, key) && SameButDevice(Evict(s, key), Evict(t, key))
  {
    hide SynchronizeAll, Release, Remove;
  }

  lemma {:induction false} MakeRoomDevice(s: State, t: State, layer: int, n: int)
    requires SameButDevice(s, t) && layer in s.regions
    ensures SameButDevice(MakeRoom(s, layer, n), MakeRoom(t, layer, n))
    decreases |s.order|
  {
    CandidatesDevice(s, t, layer, s.order);
    var cs := Candidates(s, layer, s.order);
    hide Candidates, Allocate, Evict;
    if !Fits(s, layer, n) && cs != [] && Evictable(s, cs[0]) {
      EvictDevice(s, t, cs[0]);
      EvictShrinks(s, cs[0]);
      assert cs[0] in cs;
      MakeRoomDevice(Evict(s, cs[0]), Evict(t, cs[0]), layer, n);
    }
  }

  lemma EvictShrinks(s: State, key: Key)
    requires Evictable(s, key)
    ensures Evict(s, key).regions.Keys == s.regions.Keys && Evict(s, key).entries == s.entries - {key}
    ensures Evict(s, key).order == Remove(s.order, key)
  {
  }

  lemma {:induction false} EvictAllDevice(s: State, t: State, ks: seq<Key>)
    requires SameButDevice(s, t)
    ensures SameButDevice(EvictAll(s, ks), EvictAll(t, ks))
    decreases |ks|
  {
    if ks != [] {
      hide Evict;
      if Evictable(s, ks[0]) {
        EvictDevice(s, t, ks[0]);
        EvictAllDevice(Evict(s, ks[0]), Evict(t, ks[0]), ks[1..]);
      } else {
        EvictAllDevice(s, t, ks[1..]);
      }
    }
  }

  lemma CountDevice(s: State, t: State, job: Job)
    requires SameButDevice(s, t)
    ensures SameButDevice(Count(s, job), Count(t, job))
  {
  }

  lemma FillEndDevice(c: Config, s: State, t: State, job: Job, offset: int)
    requires SameButDevice(s, t)
    ensures SameButDevice(FillEnd(c, s, job, offset), FillEnd(c, t, job, offset))
  {
    if job.key in c.records && job.key.layer in s.regions && offset in s.regions[job.key.layer].used {
      FillDevice(c, s, t, job.key, offset, job.fault, job.stream);
      hide Fill, Count;
      CountDevice(Fill(c, s, job.key, offset, job.fault, job.stream).0,
                  Fill(c, t, job.key, offset, job.fault, job.stream).0, job);
    }
  }

  lemma FillDevice(c: Config, s: State, t: State, key: Key, offset: int, fault: Fault, stream: int)
    requires SameButDevice(s, t) && key in c.records && key.layer in s.regions && offset in s.regions[key.layer].used
    ensures SameButDevice(Fill(c, s, key, offset, fault, stream).0, Fill(c, t, key, offset, fault, stream).0)
  {
    hide Release, Write, DrainStream;
  }

  lemma LoadEndDevice(c: Config, s: State, t: State, job: Job)
    requires SameButDevice(s, t)
    ensures SameButDevice(LoadEnd(c, s, job), LoadEnd(c, t, job))
  {
    if job.key in c.records && job.key.layer in s.regions {
      var layer, n := job.key.layer, |c.records[job.key]|;
      MakeRoomDevice(s, t, layer, n);
      hide MakeRoom, Allocate, FillEnd;
      var a, b := MakeRoom(s, layer, n), MakeRoom(t, layer, n);
      if Fits(a, layer, n) {
        FillEndDevice(c, Reserve(a, layer, n), Reserve(b, layer, n), job, Allocate(a.regions[layer], n).1.value);
      }
    }
  }

  lemma NextEndDevice(c: Config, s: State, t: State, next: Next)
    requires SameButDevice(s, t)
    ensures SameButDevice(NextEnd(c, s, next), NextEnd(c, t, next))
  {
    hide LoadEnd, EvictAll, SameButDevice;
    match next {
      case Reload(job) => LoadEndDevice(c, s, t, job);
      case ClearRest(todo, closing) => ClearEndDevice(s, t, todo, closing);
    }
  }

  lemma ClearEndDevice(s: State, t: State, todo: seq<Key>, closing: bool)
    requires SameButDevice(s, t)
    ensures SameButDevice(ClearEnd(s, todo, closing), ClearEnd(t, todo, closing))
  {
    EvictAllDevice(s, t, todo);
    hide EvictAll;
  }

  lemma DropDeviceFree(s: State, t: State, key: Key)
    requires SameButDevice(s, t) && Evictable(s, key)
    ensures Evictable(t, key) && SameButDevice(DropEntry(s, key), DropEntry(t, key))
  {
    hide Release, Remove;
  }

  lemma EndDevice(c: Config, s: State, t: State, task: Task)
    requires SameButDevice(s, t)
    ensures SameButDevice(End(c, World(s, task)), End(c, World(t, task)))
  {
    hide LoadEnd, FillEnd, ClearEnd, NextEnd, Count, DropEntry, SynchronizeAll;
    match task {
      case Idle =>
      case Rooming(job) => LoadEndDevice(c, s, t, job);
      case Waiting(victim, events, next) =>
        if Evictable(s, victim) {
          var a := s.(device := SynchronizeAll(s.device, events));
          var b := t.(device := SynchronizeAll(t.device, events));
          DropDeviceFree(a, b, victim);
          NextEndDevice(c, DropEntry(a, victim), DropEntry(b, victim), next);
        }
      case Copying(job, offset, _) => FillEndDevice(c, s, t, job, offset);
      case Draining(job, offset) => FillEndDevice(c, s, t, job, offset);
      case Settling(job, offset) => FillEndDevice(c, s, t, job, offset);
      case Leasing(job) => CountDevice(s, t, job);
      case Clearing(todo, closing) => ClearEndDevice(s, t, todo, closing);
    }
  }

  /******* No move changes it *******/

  lemma RoomEnd(c: Config, s: State, job: Job)
    requires job.key in c.records && job.key.layer in s.regions
    ensures End(c, Room(c, s, job)) == LoadEnd(c, s, job)
  {
    hide Inv, DropEntry, FillEnd, Allocate, Candidates, SynchronizeAll;
    var layer, n := job.key.layer, |c.records[job.key]|;
    var cs := Candidates(s, layer, s.order);
    MakeRoomOnce(s, layer, n);
    hide MakeRoom;
    if !Fits(s, layer, n) && cs != [] && Evictable(s, cs[0]) { EvictShrinks(s, cs[0]); }
  }

  lemma MakeRoomOnce(s: State, layer: int, n: int)
    requires layer in s.regions
    ensures var cs := Candidates(s, layer, s.order);
            MakeRoom(s, layer, n)
            == if Fits(s, layer, n) || cs == [] || !Evictable(s, cs[0]) then s else MakeRoom(Evict(s, cs[0]), layer, n)
  {
  }

  lemma WaitEnd(c: Config, s: State, victim: Key, events: seq<Event>, next: Next)
    requires Evictable(s, victim)
    ensures End(c, Wait(s, victim, events, next)) == End(c, World(s, Waiting(victim, events, next)))
  {
    hide LoadEnd, ClearEnd, DropEntry, Synchronize;
    if events == [] { assert s.(device := SynchronizeAll(s.device, [])) == s; }
  }

  lemma WriteOver(arena: seq<Byte>, offset: int, data: seq<Byte>, i: nat)
    requires 0 <= offset && offset + |data| <= |arena| && i < |data|
    ensures Write(Write(arena, offset + i, [data[i]]), offset, data) == Write(arena, offset, data)
  {
    var once, twice := Write(arena, offset, data), Write(Write(arena, offset + i, [data[i]]), offset, data);
    forall x | 0 <= x < |arena| ensures once[x] == twice[x] {}
  }

  lemma WriteAgain(arena: seq<Byte>, offset: int, data: seq<Byte>)
    requires 0 <= offset && offset + |data| <= |arena| && arena[offset..offset + |data|] == data
    ensures Write(arena, offset, data) == arena
  {
    assert arena == arena[..offset] + arena[offset..offset + |data|] + arena[offset + |data|..];
  }

  /** Bytes and device do not matter to a fill, as far as it overwrites the one and waits for the other. */
  lemma FillFrom(c: Config, s: State, t: State, key: Key, offset: int, fault: Fault, stream: int)
    requires s == t.(arena := s.arena, device := s.device)
    requires key in c.records && key.layer in s.regions && offset in s.regions[key.layer].used
    requires Write(s.arena, offset, Arrived(fault, c.records[key]))
             == Write(t.arena, offset, Arrived(fault, c.records[key]))
    ensures SameButDevice(Fill(c, s, key, offset, fault, stream).0, Fill(c, t, key, offset, fault, stream).0)
  {
    hide Release, Write, DrainStream, Arrived;
  }

  lemma FillEndFrom(c: Config, s: State, t: State, job: Job, offset: int)
    requires s == t.(arena := s.arena, device := s.device)
    requires job.key in c.records && job.key.layer in s.regions && offset in s.regions[job.key.layer].used
    requires Write(s.arena, offset, Incoming(c, job)) == Write(t.arena, offset, Incoming(c, job))
    ensures SameButDevice(FillEnd(c, s, job, offset), FillEnd(c, t, job, offset))
  {
    hide Fill, Count, Write, Arrived;
    FillFrom(c, s, t, job.key, offset, job.fault, job.stream);
    CountDevice(Fill(c, s, job.key, offset, job.fault, job.stream).0,
                Fill(c, t, job.key, offset, job.fault, job.stream).0, job);
  }

  lemma CopyEnd(c: Config, s: State, job: Job, offset: int, copied: nat)
    requires Reserved(c, s, job, offset)
    ensures SameButDevice(End(c, Copy(c, s, job, offset, copied)), FillEnd(c, s, job, offset))
  {
    ReservedKey(c, s, job, offset);
    hide Inv, Reserved, FillEnd, Write, Incoming, Apart, SameButDevice;
    var data := Incoming(c, job);
    if copied < |data| {
      ReservedIs(c, s, job, offset);
      WriteOver(s.arena, offset, data, copied);
      FillEndFrom(c, s.(arena := Write(s.arena, offset + copied, [data[copied]])), s, job, offset);
    } else {
      SameState(FillEnd(c, s, job, offset));
    }
  }

  lemma SameState(s: State)
    ensures SameButDevice(s, s)
  {
  }

  lemma ReservedKey(c: Config, s: State, job: Job, offset: int)
    requires Reserved(c, s, job, offset)
    ensures job.key in c.records && job.key.layer in s.regions && offset in s.regions[job.key.layer].used
    ensures job.key !in s.entries
  {
    hide Inv, Allocate, Release;
  }

  lemma SettleEnd(c: Config, s: State, job: Job, offset: int)
    requires Reserved(c, s, job, offset) && Holding(s, offset, Incoming(c, job))
    ensures SameButDevice(End(c, Settle(c, s, job, offset)), FillEnd(c, s, job, offset))
  {
    ReservedKey(c, s, job, offset);
    WriteAgain(s.arena, offset, Incoming(c, job));
    SettledFill(c, s, job, offset);
    hide Inv, Reserved, Write, Fill, Release, Published, Count, Holding, Incoming, SameButDevice;
    if job.fault.NoFault? {
      CountDevice(Published(c, s, job.key, s.regions[job.key.layer], offset),
                  Fill(c, s, job.key, offset, job.fault, job.stream).0, job);
    } else {
      NoCount(Fill(c, s, job.key, offset, job.fault, job.stream).0, job);
    }
  }

  lemma NoCount(s: State, job: Job)
    requires job.key !in s.entries
    ensures Count(s, job) == s
  {
  }

  lemma SettledFill(c: Config, s: State, job: Job, offset: int)
    requires job.key in c.records && job.key.layer in s.regions && offset in s.regions[job.key.layer].used
    requires Write(s.arena, offset, Incoming(c, job)) == s.arena && job.key !in s.entries
    ensures var t := Fill(c, s, job.key, offset, job.fault, job.stream).0;
            var region := s.regions[job.key.layer];
            if job.fault.NoFault? then SameButDevice(Published(c, s, job.key, region, offset), t)
            else
              && SameButDevice(s.(regions := s.regions[job.key.layer := Release(region, offset)],
                                  failures := s.failures + 1), t)
              && job.key !in t.entries
  {
    hide Release, Write, DrainStream;
    assert s.regions[job.key.layer := s.regions[job.key.layer]] == s.regions;
  }

  lemma CleanEnd(c: Config, s: State, todo: seq<Key>, closing: bool)
    ensures End(c, Clean(s, todo, closing)) == ClearEnd(s, todo, closing)
  {
    hide DropEntry, SynchronizeAll;
  }

  lemma MoveEnd(c: Config, w: World)
    requires WorldOk(c, w)
    ensures SameButDevice(End(c, Move(c, w)), End(c, w))
  {
    hide Inv, Reserved, Room, Wait, Copy, Settle, Clean, LoadEnd, FillEnd, ClearEnd, NextEnd, DrainStream;
    match w.task {
      case Idle =>
      case Rooming(job) =>
        OrderCovers(c, w.s);
        RoomEnd(c, w.s, job);
      case Waiting(victim, events, next) =>
        UnusedEvictable(c, w.s, victim);
        WaitEnd(c, w.s, victim, events, next);
      case Copying(job, offset, copied) => CopyEnd(c, w.s, job, offset, copied);
      case Draining(job, offset) =>
        FillEndDevice(c, w.s.(device := DrainStream(w.s.device, job.stream)), w.s, job, offset);
      case Settling(job, offset) => SettleEnd(c, w.s, job, offset);
      case Leasing(job) =>
      case Clearing(todo, closing) => CleanEnd(c, w.s, todo, closing);
    }
  }

  lemma UnusedEvictable(c: Config, s: State, key: Key)
    requires Inv(c, s) && key in s.entries && s.entries[key].users == 0
    ensures Evictable(s, key)
  {
    assert EntryOk(c, s.regions, key, s.entries[key]);
  }

  /******* The beginning *******/

  lemma MissEnd(c: Config, s: State, job: Job)
    requires job.key in c.records && job.key.layer in s.regions && job.key !in s.entries
    ensures var (loaded, o) := Load(c, s, job.key, true, job.fault, job.stream);
            LoadEnd(c, s, job)
            == if o.Leased? && job.key in loaded.entries then AddUser(loaded, job.key, job.id, job.stream) else loaded
  {
    var layer, n := job.key.layer, |c.records[job.key]|;
    MakeRoomShrinks(s, layer, n);
    var roomy := MakeRoom(s, layer, n);
    hide MakeRoom, Release, Write, DrainStream;
    if Fits(roomy, layer, n) {
      RoomIsReserved(roomy, layer, n);
      hide Allocate;
    }
  }

  lemma RoomIsReserved(s: State, layer: int, n: int)
    requires layer in s.regions && Fits(s, layer, n)
    ensures Allocate(s.regions[layer], n).1.value in Reserve(s, layer, n).regions[layer].used
  {
  }

  lemma HitEnd(c: Config, s: State, job: Job)
    requires job.key in s.entries
    ensures var touched := Hit(s.(clock := s.clock + 1), job.key);
            End(c, World(touched, Leasing(job))) == AddUser(touched, job.key, job.id, job.stream)
  {
    hide Pending, Remove, AddUser;
  }

  lemma EnterEnd(c: Config, s: State, l: Label)
    requires l.Enter? && !s.closed && l.key in c.records && !l.cancelled && l.key.layer in s.regions
    ensures End(c, Begin(c, s, l)) == Acquire(c, s, l.key, l.cancelled, l.guard, l.fault, l.id, l.stream).0
  {
    var job := Job(l.key, l.fault, l.id, l.stream);
    EnterIs(c, s, l);
    AcquireIs(c, s, l.key, l.cancelled, l.guard, l.fault, l.id, l.stream);
    hide Begin, Acquire, Load, LoadEnd, Hit, AddUser;
    if l.key in s.entries {
      HitEnd(c, s, job);
    } else {
      var missed := s.(clock := s.clock + 1, misses := s.misses + 1);
      if l.guard { MissEnd(c, missed, job); } else { Unguarded(c, missed, job); }
    }
  }

  lemma Unguarded(c: Config, s: State, job: Job)
    requires job.key in c.records && job.key.layer in s.regions
    ensures Load(c, s, job.key, false, job.fault, job.stream) == (s, GuardFailed)
  {
  }

  lemma ClearIs(s: State)
    ensures Clear(s) == (if SomeUser(s) then s else EvictAll(s, s.order)) && (SomeUser(s) ==> s.entries != map[])
  {
    hide EvictAll;
  }

  lemma CloseIs(c: Config, s: State)
    requires Inv(c, s)
    ensures Close(s) == if SomeUser(s) then s else ClearEnd(s, s.order, true)
  {
    ClearKeeps(c, s);
    ClearIs(s);
    hide Inv, EvictAll, Clear;
    if !SomeUser(s) { assert !exists k :: k in s.entries && s.entries[k].users > 0; } else { hide SomeUser; }
  }

  lemma ClearEnds(c: Config, s: State, l: Label)
    requires Inv(c, s) && (l.ClearAll? || l.Shutdown?)
    ensures End(c, Begin(c, s, l)) == Step(c, s, l)
  {
    ClearIs(s);
    CloseIs(c, s);
    hide Inv, EvictAll, Clear, Close, SomeUser;
  }

  lemma BeginEnd(c: Config, s: State, l: Label)
    requires Inv(c, s) && Enabled(s, l) && !Unlocked(l)
    ensures End(c, Begin(c, s, l)) == Step(c, s, l)
  {
    if l.Enter? {
      OrderCovers(c, s);
      hide Inv;
      if !s.closed && l.key in c.records && !l.cancelled {
        hide Begin, Acquire, End;
        EnterEnd(c, s, l);
      } else {
        hide Load, Hit;
      }
    } else if l.ClearAll? || l.Shutdown? {
      hide Inv, Begin, Step, End;
      ClearEnds(c, s, l);
    } else {
      hide Inv, Leave;
    }
  }

  /******* Whole operations *******/

  /** The turns while an operation runs: its own moves, and what needs no lock. */
  predicate Beside(t: Turn) { t.Go? || Unlocked(t.l) }

  lemma TurnEnd(c: Config, w: World, t: Turn)
    requires WorldOk(c, w) && CanTurn(w, t) && Beside(t)
    ensures SameButDevice(End(c, Take(c, w, t)), End(c, w))
  {
    hide Inv, WorldOk, Move, End, Step;
    if t.Go? {
      MoveEnd(c, w);
    } else {
      UnlockedIs(c, w.s, t.l);
      EndDevice(c, Step(c, w.s, t.l), w.s, w.task);
    }
  }

  lemma {:induction false} TurnsEnd(c: Config, w: World, ts: seq<Turn>)
    requires WorldOk(c, w) && CanTake(c, w, ts) && forall i :: 0 <= i < |ts| ==> Beside(ts[i])
    ensures SameButDevice(End(c, AfterTurns(c, w, ts)), End(c, w))
    decreases |ts|
  {
    hide WorldOk, Take, CanTurn, End, Spares, Beside;
    if ts != [] {
      assert Beside(ts[0]);
      TurnEnd(c, w, ts[0]);
      TurnSparesKernels(c, w, ts[0]);
      TurnsEnd(c, Take(c, w, ts[0]), ts[1..]);
    }
  }

  /**
   An operation that begins in any state of the invariant and ends, whatever kernels are enqueued and streams advance
   between its moves, leaves the cache as the specified step does, the device apart.
   */
  lemma OperationIsItsStep(c: Config, s: State, l: Label, ts: seq<Turn>)
    requires Inv(c, s) && Enabled(s, l) && !Unlocked(l)
    requires CanTake(c, Begin(c, s, l), ts) && forall i :: 0 <= i < |ts| ==> Beside(ts[i])
    requires AfterTurns(c, Begin(c, s, l), ts).task.Idle?
    ensures SameButDevice(AfterTurns(c, Begin(c, s, l), ts).s, Step(c, s, l))
  {
    hide Inv, Begin, Step, WorldOk, Enabled, Spares, CanTake, AfterTurns, Beside;
    BeginKeeps(c, s, l);
    TurnsEnd(c, Begin(c, s, l), ts);
    BeginEnd(c, s, l);
  }

  /******* Operations end *******/

  /** What is left to do: entries that may be evicted, then stages, then waits, bytes and keys within a stage. */
  function Left(c: Config, w: World): (nat, nat, nat, nat) {
    match w.task
    case Rooming(_) => (2, |w.s.order|, 6, 0)
    case Clearing(todo, _) => (2, |w.s.order|, 6, |todo|)
    case Waiting(_, events, _) => (2, |w.s.order|, 5, |events|)
    case Copying(job, _, copied) =>
      (1, 0, 4, if copied <= |Incoming(c, job)| then |Incoming(c, job)| - copied else 0)
    case Draining(_, _) => (1, 0, 3, 0)
    case Settling(_, _) => (1, 0, 2, 0)
    case Leasing(_) => (0, 0, 1, 0)
    case Idle => (0, 0, 0, 0)
  }

  predicate Less(a: (nat, nat, nat, nat), b: (nat, nat, nat, nat)) {
    || a.0 < b.0
    || (a.0 == b.0 && a.1 < b.1)
    || (a.0 == b.0 && a.1 == b.1 && a.2 < b.2)
    || (a.0 == b.0 && a.1 == b.1 && a.2 == b.2 && a.3 < b.3)
  }

  lemma DropShortens(c: Config, s: State, victim: Key)
    requires Inv(c, s) && Evictable(s, victim)
    ensures |DropEntry(s, victim).order| < |s.order|
  {
    OrderCovers(c, s);
    hide Inv, Release;
  }

  lemma RoomLess(c: Config, s: State, job: Job)
    ensures Less(Left(c, Room(c, s, job)), Left(c, World(s, Rooming(job))))
  {
    hide Candidates, Allocate, Incoming, Evictable, Fits;
  }

  lemma WaitLess(c: Config, s: State, victim: Key, events: seq<Event>, next: Next)
    requires Inv(c, s)
    ensures Less(Left(c, Wait(s, victim, events, next)), Left(c, World(s, Waiting(victim, events, next))))
  {
    hide Inv, DropEntry, Synchronize, Incoming;
    if events == [] && Evictable(s, victim) { DropShortens(c, s, victim); }
  }

  lemma CopyLess(c: Config, s: State, job: Job, offset: int, copied: nat)
    ensures Less(Left(c, Copy(c, s, job, offset, copied)), Left(c, World(s, Copying(job, offset, copied))))
  {
    hide Write, Incoming;
  }

  lemma SettleLess(c: Config, s: State, job: Job, offset: int)
    ensures Less(Left(c, Settle(c, s, job, offset)), Left(c, World(s, Settling(job, offset))))
  {
    hide Published, Release;
  }

  lemma CleanLess(c: Config, s: State, todo: seq<Key>, closing: bool)
    ensures Less(Left(c, Clean(s, todo, closing)), Left(c, World(s, Clearing(todo, closing))))
  {
    hide Evictable;
  }

  lemma LastLess(c: Config, s: State, t: State, job: Job, offset: int)
    ensures Less(Left(c, World(s, Settling(job, offset))), Left(c, World(t, Draining(job, offset))))
    ensures Less(Left(c, World(s, Idle)), Left(c, World(t, Leasing(job))))
  {
  }

  /** Each move of an operation in progress leaves less to do. */
  lemma MoveLess(c: Config, w: World)
    requires WorldOk(c, w) && !w.task.Idle?
    ensures Less(Left(c, Move(c, w)), Left(c, w))
  {
    WorldParts(c, w);
    hide Inv, WorldOk, Reserved, Watched, Room, Wait, Copy, Settle, Clean, Count, DrainStream, Left, Less;
    match w.task {
      case Rooming(job) => RoomLess(c, w.s, job);
      case Waiting(victim, events, next) => WaitLess(c, w.s, victim, events, next);
      case Copying(job, offset, copied) => CopyLess(c, w.s, job, offset, copied);
      case Draining(job, offset) =>
        LastLess(c, w.s.(device := DrainStream(w.s.device, job.stream)), w.s, job, offset);
      case Settling(job, offset) => SettleLess(c, w.s, job, offset);
      case Leasing(job) => LastLess(c, Count(w.s, job), w.s, job, 0);
      case Clearing(todo, closing) => CleanLess(c, w.s, todo, closing);
    }
  }

  /** What needs no lock leaves as much. */
  lemma UnlockedLeft(c: Config, w: World, l: Label)
    requires Unlocked(l)
    ensures Left(c, World(Step(c, w.s, l), w.task)) == Left(c, w)
  {
    UnlockedIs(c, w.s, l);
    hide Step, Incoming;
  }

  lemma TurnsLeaveLess(c: Config, w: World, t: Turn)
    requires WorldOk(c, w) && CanTurn(w, t) && Beside(t)
    ensures if t.Go? then Less(Left(c, Take(c, w, t)), Left(c, w)) else Left(c, Take(c, w, t)) == Left(c, w)
  {
    hide WorldOk, Move, Left, Step, Less;
    if t.Go? { MoveLess(c, w); } else { UnlockedLeft(c, w, t.l); }
  }

  /** So an operation that nobody keeps from moving ends. */
  lemma OperationEnds(c: Config, w: World) returns (ts: seq<Turn>)
    requires WorldOk(c, w)
    ensures (forall i :: 0 <= i < |ts| ==> ts[i].Go?) && CanTake(c, w, ts) && AfterTurns(c, w, ts).task.Idle?
    decreases Left(c, w).0, Left(c, w).1, Left(c, w).2, Left(c, w).3
  {
    hide WorldOk, Move, Left, Spares;
    if w.task.Idle? {
      ts := [];
    } else {
      TurnSparesKernels(c, w, Go);
      TurnsLeaveLess(c, w, Go);
      var rest := OperationEnds(c, Move(c, w));
      ts := [Go] + rest;
      assert ts[1..] == rest;
    }
  }
}
