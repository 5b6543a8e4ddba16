/** Every step of the prefetcher keeps the invariant, so every interleaving does. */
module AsyncStoreSafety {
  import opened Sequences
  import opened Sums
  import opened AsyncStore

  /******* Changing one ticket *******/

  lemma ReplaceKeepsKeys(ts: seq<Ticket>, i: nat, t: Ticket)
    requires i < |ts| && t.key == ts[i].key
    ensures Keys(ts[i := t]) == Keys(ts)
  {}

  lemma ReplaceSlots(c: Config, s: State, s': State, i: nat, t: Ticket)
    requires ValidConfig(c) && SlotsOk(c, s) && i < |s.pending|
    requires t.key == s.pending[i].key && TicketOk(c, t)
    requires s'.pending == s.pending[i := t]
    requires s'.staging == s.staging - Owned(s.pending[i]) + Owned(t)
    requires s'.active == s.active - IsRunning(s.pending[i]) + IsRunning(t)
    ensures SlotsOk(c, s') && Keys(s'.pending) == Keys(s.pending)
  {
    ReplaceKeepsKeys(s.pending, i, t);
    SumUpdate(s.pending, i, t, Owned);
    SumUpdate(s.pending, i, t, IsRunning);
  }

  lemma WithoutKeys(ts: seq<Ticket>, i: nat)
    requires i < |ts| && Distinct(Keys(ts))
    ensures Keys(Without(ts, i)) == Keys(ts)[..i] + Keys(ts)[i + 1..]
    ensures Distinct(Keys(Without(ts, i)))
    ensures forall k :: HasKey(Without(ts, i), k) <==> HasKey(ts, k) && k != ts[i].key
  {
    var ks := Keys(ts);
    var ws := Keys(Without(ts, i));
    assert ws == ks[..i] + ks[i + 1..];
    forall k ensures k in ws <==> k in ks && k != ks[i] {
      if k in ks && k != ks[i] {
        var j :| 0 <= j < |ks| && ks[j] == k;
        assert ws[if j < i then j else j - 1] == k;
      }
    }
  }

  lemma RemoveSlots(c: Config, s: State, s': State, i: nat)
    requires ValidConfig(c) && SlotsOk(c, s) && i < |s.pending| && !s.pending[i].phase.Running()
    requires s'.pending == Without(s.pending, i)
    requires s'.staging == s.staging - Owned(s.pending[i]) && s'.active == s.active
    ensures SlotsOk(c, s')
    ensures forall k :: HasKey(s'.pending, k) <==> HasKey(s.pending, k) && k != s.pending[i].key
  {
    WithoutKeys(s.pending, i);
    SumRemove(s.pending, i, Owned);
    SumRemove(s.pending, i, IsRunning);
  }

  lemma SubmitSlots(c: Config, s: State, key: Key, lease: Lease, cancel: CancelEvent)
    requires ValidConfig(c) && SlotsOk(c, s) && |s.pending| < c.slots
    requires key in c.records && !HasKey(s.pending, key) && !lease.Holding?
    ensures SlotsOk(c, Submit(s, key, lease, cancel))
    ensures forall k :: HasKey(Submit(s, key, lease, cancel).pending, k) <==> HasKey(s.pending, k) || k == key
  {
    var t := Ticket(key, Waiting, false, cancel, lease, false);
    assert Keys(s.pending + [t]) == Keys(s.pending) + [key];
    SumPush(s.pending, t, Owned);
    SumPush(s.pending, t, IsRunning);
  }

  /** What `_fill` does: some queued keys become new unclaimed tickets, and nothing else changes. */
  ghost predicate Filled(s: State, s': State) {
    && s' == s.(pending := s'.pending, queue := s'.queue)
    && s.pending <= s'.pending
    && (forall i :: |s.pending| <= i < |s'.pending| ==> s'.pending[i].lease.Free? && s'.pending[i].phase.Waiting?)
    && (forall k :: HasKey(s'.pending, k) || k in s'.queue <==> HasKey(s.pending, k) || k in s.queue)
  }

  lemma FilledTrans(s0: State, s1: State, s2: State)
    requires Filled(s0, s1) && Filled(s1, s2)
    ensures Filled(s0, s2)
  {
    forall i | |s0.pending| <= i < |s2.pending|
      ensures s2.pending[i].lease.Free? && s2.pending[i].phase.Waiting?
    {
      if i < |s1.pending| { assert s2.pending[i] == s1.pending[i]; }
    }
  }

  lemma FillOne(c: Config, s: State)
    requires ValidConfig(c) && SlotsOk(c, s) && QueueOk(c, s) && s.queue != [] && |s.pending| < c.slots
    ensures !HasKey(s.pending, s.queue[0])
    ensures var s' := Submit(s.(queue := s.queue[1..]), s.queue[0], Free, NoEvent);
            SlotsOk(c, s') && QueueOk(c, s') && Filled(s, s')
  {
    var key := s.queue[0];
    assert key in s.queue;
    var popped := s.(queue := s.queue[1..]);
    assert forall k :: k in s.queue <==> k == key || k in popped.queue;
    SubmitSlots(c, popped, key, Free, NoEvent);
  }

  /** `_fill` submits queued keys until the slots are taken: nothing is dropped, and its own guard never fires. */
  lemma {:induction false} FillKeeps(c: Config, s: State)
    requires ValidConfig(c) && SlotsOk(c, s) && QueueOk(c, s)
    ensures var s' := Fill(c, s);
            && SlotsOk(c, s') && QueueOk(c, s') && Filled(s, s')
            && (s.closed || |s'.pending| == c.slots || s'.queue == [])
    decreases |s.queue|
  {
    if s.queue != [] && |s.pending| < c.slots && !s.closed {
      FillOne(c, s);
      var s1 := Submit(s.(queue := s.queue[1..]), s.queue[0], Free, NoEvent);
      FillKeeps(c, s1);
      FilledTrans(s, s1, Fill(c, s1));
    }
  }

  /** Outside a control operation, filling keeps the invariant. */
  lemma FillAtIdle(c: Config, s: State)
    requires ValidConfig(c) && SlotsOk(c, s) && QueueOk(c, s) && s.ctl.Idle? && !s.closed && s.fdOpen && !s.pinned
    ensures Inv(c, Fill(c, s))
  {
    FillKeeps(c, s);
  }

  /******* Fetch threads and consumers *******/

  lemma ChunkKeepsPrefix(c: Config, t: Ticket, n: int)
    requires ValidConfig(c) && TicketOk(c, t) && t.phase.Reading?
    requires n <= c.records[t.key].bytes - t.phase.got
    ensures PhaseOk(c, t.key, ReadChunk(c, t, n), t.stop)
    ensures Owned(t.(phase := ReadChunk(c, t, n))) == Owned(t)
  {
    var data := RecordBytes(c, t.key);
    var r := c.records[t.key];
    var buf, got := t.phase.buf, t.phase.got;
    if !t.Cancelled() && n > 0 {
      var chunk := c.file[r.offset + got..r.offset + got + n];
      var buf' := buf[..got] + chunk + buf[got + n..];
      assert |buf'| == |buf|;
      assert buf'[..got + n] == buf[..got] + chunk;
      assert data[..got + n] == data[..got] + chunk;
    }
  }

  lemma FetchPhaseOk(c: Config, t: Ticket, f: FetchStep)
    requires ValidConfig(c) && TicketOk(c, t) && CanFetch(t, c.records[t.key].bytes, f)
    ensures PhaseOk(c, t.key, FetchPhase(c, t, f), t.stop)
    ensures !t.phase.Finished() && !FetchPhase(c, t, f).Waiting?
  {
    match f
    case Chunk(n) => ChunkKeepsPrefix(c, t, n);
    case Verify =>
      var data := RecordBytes(c, t.key);
      assert t.phase.buf[..|data|] == t.phase.buf && data[..|data|] == data;
    case _ =>
  }

  /** A fetch step accounts for every byte it maps and unmaps, and for its own start and end. */
  lemma FetchAccounts(c: Config, s: State, i: nat, f: FetchStep)
    requires ValidConfig(c) && i < |s.pending| && TicketOk(c, s.pending[i])
    requires CanFetch(s.pending[i], c.records[s.pending[i].key].bytes, f)
    ensures var t := s.pending[i];
            var t' := t.(phase := FetchPhase(c, t, f));
            Fetch(c, s, i, f) ==
            s.(pending := s.pending[i := t'], staging := s.staging - Owned(t) + Owned(t'),
               active := s.active - IsRunning(t) + IsRunning(t'))
  {
    if f.Chunk? { ChunkKeepsPrefix(c, s.pending[i], f.n); }
  }

  lemma FetchKeeps(c: Config, s: State, i: nat, f: FetchStep)
    requires ValidConfig(c) && Inv(c, s) && Enabled(c, s, Worker(i, f))
    ensures Inv(c, Fetch(c, s, i, f))
  {
    FetchPhaseOk(c, s.pending[i], f);
    FetchAccounts(c, s, i, f);
    var t' := s.pending[i].(phase := FetchPhase(c, s.pending[i], f));
    KeepTicket(c, s, Fetch(c, s, i, f), i, t');
  }

  lemma KeepTicket(c: Config, s: State, s': State, i: nat, t: Ticket)
    requires ValidConfig(c) && Inv(c, s) && i < |s.pending|
    requires t.key == s.pending[i].key && TicketOk(c, t)
    requires s' == s.(pending := s.pending[i := t], staging := s.staging - Owned(s.pending[i]) + Owned(t),
                      active := s.active - IsRunning(s.pending[i]) + IsRunning(t))
    requires t.Claimed() == s.pending[i].Claimed() && (s.pending[i].stop ==> t.stop)
    requires s.pending[i].phase.Done? ==> t.phase.Done?
    requires t.phase.Waiting? ==> s.pending[i].phase.Waiting?
    ensures Inv(c, s')
  {
    ReplaceSlots(c, s, s', i, t);
    ReplaceControl(c, s, s', i, t);
  }

  /** Replacing a ticket by one that is no less finished and no more claimed leaves the control state consistent. */
  lemma ReplaceControl(c: Config, s: State, s': State, i: nat, t: Ticket)
    requires i < |s.pending| && t.key == s.pending[i].key && ControlOk(c, s)
    requires s' == s.(pending := s.pending[i := t], staging := s'.staging, active := s'.active)
    requires t.Claimed() == s.pending[i].Claimed() && (s.pending[i].stop ==> t.stop)
    requires s.pending[i].phase.Done? ==> t.phase.Done?
    requires t.phase.Waiting? ==> s.pending[i].phase.Waiting?
    requires Distinct(Keys(s.pending))
    ensures ControlOk(c, s')
  {
    ReplaceKeepsKeys(s.pending, i, t);
    if s.ctl.Discard? {
      var j :| 0 <= j < |s.pending| && s.pending[j].key == s.ctl.victim && !s.pending[j].Claimed();
      assert s'.pending[j].key == s.ctl.victim && !s'.pending[j].Claimed();
    }
  }

  lemma UseTicket(c: Config, t: Ticket, u: UserStep)
    requires ValidConfig(c) && TicketOk(c, t) && CanUse(t, u)
    ensures TicketOk(c, Use(t, u))
            && Use(t, u) == t.(cancel := Use(t, u).cancel, lease := Use(t, u).lease, exported := Use(t, u).exported)
    ensures Use(t, u).Claimed() == t.Claimed()
  {}

  lemma UseKeeps(c: Config, s: State, i: nat, u: UserStep)
    requires ValidConfig(c) && Inv(c, s) && Enabled(c, s, Consumer(i, u))
    ensures Inv(c, Step(c, s, Consumer(i, u)))
  {
    UseTicket(c, s.pending[i], u);
    KeepTicket(c, s, Step(c, s, Consumer(i, u)), i, Use(s.pending[i], u));
  }

  /******* Control steps *******/

  lemma BeginDiscardSlots(c: Config, s: State, i: nat, next: Next)
    requires ValidConfig(c) && SlotsOk(c, s) && QueueOk(c, s) && i < |s.pending| && !s.pending[i].Claimed()
    ensures var s' := BeginDiscard(s, i, next);
            && SlotsOk(c, s') && QueueOk(c, s') && Keys(s'.pending) == Keys(s.pending)
            && Unclaimed(s', s.pending[i].key) && Marked(s', s.pending[i].key)
  {
    var s' := BeginDiscard(s, i, next);
    ReplaceSlots(c, s, s', i, Mark(s.pending[i]));
    assert s'.pending[i].key == s.pending[i].key && !s'.pending[i].Claimed();
    forall j | 0 <= j < |s'.pending| && s'.pending[j].key == s.pending[i].key
      ensures j == i
    {
      assert Keys(s'.pending)[j] == Keys(s'.pending)[i];
    }
  }

  lemma PlanTurns(c: Config, s: State)
    requires ValidConfig(c) && Inv(c, s) && s.ctl.PlanLoop? && s.ctl.todo != []
    ensures Inv(c, PlanNext(c, s))
  {
    var PlanLoop(keys, todo) := s.ctl;
    var i := IndexOf(s.pending, todo[0]);
    TodoHead(s, todo);
    if todo[0] !in keys && !s.pending[i].Claimed() {
      BeginDiscardSlots(c, s, i, PlanRest(keys, todo[1..]));
      assert NextOk(c, PlanNext(c, s), todo[0], PlanRest(keys, todo[1..]));
    }
  }

  lemma PlanEnds(c: Config, s: State)
    requires ValidConfig(c) && Inv(c, s) && s.ctl.PlanLoop? && s.ctl.todo == []
    ensures Inv(c, PlanNext(c, s))
  {
    var keys := s.ctl.keys;
    var s1 := s.(queue := Absent(keys, s.pending), ctl := Idle, planned := (set k | k in keys), consumed := {},
                 raised := false);
    FillAtIdle(c, s1);
  }

  lemma ClaimKeeps(c: Config, s: State, i: nat, cancel: CancelEvent)
    requires ValidConfig(c) && Inv(c, s) && s.ctl.Idle? && !s.closed && i < |s.pending| && !s.pending[i].Claimed()
    ensures Inv(c, Claim(s, i, cancel))
  {
    ReplaceSlots(c, s, Claim(s, i, cancel), i, s.pending[i].(lease := Awaiting, cancel := cancel));
  }

  lemma DemandKeeps(c: Config, s: State, key: Key, cancel: CancelEvent)
    requires ValidConfig(c) && SlotsOk(c, s) && QueueOk(c, s) && !s.closed && s.fdOpen && !s.pinned
    requires key in c.records && !HasKey(s.pending, key) && |s.pending| < c.slots
    ensures Inv(c, SubmitDemand(s, key, cancel))
  {
    SubmitSlots(c, s.(queue := Drop(s.queue, key), ctl := Idle), key, Awaiting, cancel);
  }

  lemma EnterKeeps(c: Config, s: State, key: Key, cancel: CancelEvent)
    requires ValidConfig(c) && Inv(c, s) && s.ctl.Idle?
    ensures Inv(c, EnterRead(c, s, key, cancel))
  {
    if !s.closed && s.fdOpen && key in c.records && !cancel.Set? {
      var i := IndexOf(s.pending, key);
      if i < |s.pending| {
        if !s.pending[i].Claimed() { ClaimKeeps(c, s, i, cancel); }
      } else if |s.pending| < c.slots {
        DemandKeeps(c, s, key, cancel);
      } else {
        var v := LastUnclaimed(s.pending);
        if v < |s.pending| {
          BeginDiscardSlots(c, s, v, Demand(key, cancel));
          var s' := BeginDiscard(s, v, Demand(key, cancel));
          assert NextOk(c, s', s.pending[v].key, Demand(key, cancel));
        }
      }
    }
  }

  lemma ExitKeeps(c: Config, s: State, i: nat)
    requires ValidConfig(c) && Inv(c, s) && Enabled(c, s, ReadExit(i))
    ensures Inv(c, ExitRead(c, s, i))
  {
    var t := s.pending[i];
    assert !s.closed;
    if t.phase.Done? && t.exported {
      UnclaimKeeps(c, s, i);
    } else {
      var s1 := s.(pending := Without(s.pending, i), staging := s.staging - Owned(t), consumed := s.consumed + {t.key});
      RemoveSlots(c, s, s1, i);
      FillAtIdle(c, s1);
    }
  }

  lemma UnclaimKeeps(c: Config, s: State, i: nat)
    requires ValidConfig(c) && Inv(c, s) && s.ctl.Idle? && !s.closed && i < |s.pending|
    ensures Inv(c, s.(pending := s.pending[i := s.pending[i].(lease := Free)]))
  {
    var t := s.pending[i].(lease := Free);
    ReplaceSlots(c, s, s.(pending := s.pending[i := t]), i, t);
  }

  lemma RemoveVictim(c: Config, s: State, i: nat)
    requires ValidConfig(c) && Inv(c, s) && s.ctl.Discard? && i == IndexOf(s.pending, s.ctl.victim) < |s.pending|
    requires s.pending[i].phase.Finished()
    ensures var gone := s.(pending := Without(s.pending, i), staging := s.staging - Owned(s.pending[i]));
            && SlotsOk(c, gone) && QueueOk(c, gone) && s.ctl.victim !in s.queue
            && (forall k :: HasKey(gone.pending, k) <==> HasKey(s.pending, k) && k != s.ctl.victim)
            && (NoneClaimed(s) ==> NoneClaimed(gone))
  {
    RemoveSlots(c, s, s.(pending := Without(s.pending, i), staging := s.staging - Owned(s.pending[i])), i);
  }

  /** The three ways `_discard` can end. */
  lemma ResolveShape(s: State, i: nat)
    requires s.ctl.Discard? && i < |s.pending|
    ensures var t := s.pending[i];
            var gone := s.(pending := Without(s.pending, i), staging := s.staging - Owned(t));
            ResolveDiscard(s, i) ==
            if t.phase.Done? && t.exported then Raise(s.(pinned := s.pinned || s.ctl.next.CloseRest?), s.ctl.next)
            else if Raises(t) then Raise(gone, s.ctl.next)
            else Continue(gone, s.ctl.victim, s.ctl.next)
  {
    hide Continue, Raise, Without, Owned;
  }

  lemma PlanGoesOn(c: Config, s: State, gone: State, keys: seq<Key>, rest: seq<Key>)
    requires ValidConfig(c) && SlotsOk(c, gone) && QueueOk(c, gone) && TodoOk(s, rest) && PlanOk(c, gone, keys)
    requires gone.fdOpen && !gone.pinned && s.ctl.Discard? && s.ctl.victim !in rest
    requires forall k :: HasKey(gone.pending, k) <==> HasKey(s.pending, k) && k != s.ctl.victim
    ensures Inv(c, gone.(ctl := PlanLoop(keys, rest)))
  {
    assert TodoOk(gone, rest);
  }

  lemma RaiseToIdle(c: Config, s: State, next: Next)
    requires ValidConfig(c) && SlotsOk(c, s) && QueueOk(c, s) && !s.closed && s.fdOpen && !s.pinned && !next.CloseRest?
    ensures Inv(c, Raise(s, next))
  {}

  lemma ResolvePlan(c: Config, s: State, i: nat)
    requires ValidConfig(c) && Inv(c, s) && Enabled(c, s, Resolve) && i == IndexOf(s.pending, s.ctl.victim)
    requires s.ctl.next.PlanRest?
    ensures Inv(c, ResolveDiscard(s, i))
  {
    var t := s.pending[i];
    ResolveShape(s, i);
    if t.phase.Done? && t.exported {
      RaiseToIdle(c, s, s.ctl.next);
    } else {
      RemoveVictim(c, s, i);
      var gone := s.(pending := Without(s.pending, i), staging := s.staging - Owned(t));
      if Raises(t) { RaiseToIdle(c, gone, s.ctl.next); }
      else { PlanGoesOn(c, s, gone, s.ctl.next.keys, s.ctl.next.rest); }
    }
  }

  lemma DemandGoesOn(c: Config, s: State, gone: State, victim: Key, key: Key, cancel: CancelEvent)
    requires ValidConfig(c) && SlotsOk(c, gone) && QueueOk(c, gone) && !gone.closed && gone.fdOpen && !gone.pinned
    requires key in c.records && !HasKey(gone.pending, key) && |gone.pending| < c.slots
    requires victim in c.records && !HasKey(gone.pending, victim) && victim !in gone.queue
    ensures Inv(c, SubmitDemand(gone.(queue := [victim] + gone.queue), key, cancel))
  {
    var queued := gone.(queue := [victim] + gone.queue);
    assert QueueOk(c, queued);
    DemandKeeps(c, queued, key, cancel);
  }

  lemma ResolveDemand(c: Config, s: State, i: nat)
    requires ValidConfig(c) && Inv(c, s) && Enabled(c, s, Resolve) && i == IndexOf(s.pending, s.ctl.victim)
    requires s.ctl.next.Demand?
    ensures Inv(c, ResolveDiscard(s, i))
  {
    var t := s.pending[i];
    ResolveShape(s, i);
    if t.phase.Done? && t.exported {
      RaiseToIdle(c, s, s.ctl.next);
    } else {
      RemoveVictim(c, s, i);
      var gone := s.(pending := Without(s.pending, i), staging := s.staging - Owned(t));
      if Raises(t) { RaiseToIdle(c, gone, s.ctl.next); }
      else { DemandGoesOn(c, s, gone, s.ctl.victim, s.ctl.next.key, s.ctl.next.cancel); }
    }
  }

  /** `close` met a buffer a consumer still views: it stays pending, and stays counted. */
  lemma ClosePinned(c: Config, s: State, i: nat, left: seq<Key>)
    requires ValidConfig(c) && SlotsOk(c, s) && QueueOk(c, s) && i < |s.pending| && s.pending[i].phase.Done?
    requires CloseOk(s, [s.pending[i].key] + left) && TodoOk(s, left)
    ensures Inv(c, s.(pinned := true, raised := true, ctl := CloseLoop(left)))
  {
    var s' := s.(pinned := true, raised := true, ctl := CloseLoop(left));
    OnlyVictim(s, i);
    assert forall k :: k in [s.pending[i].key] + left <==> k == s.pending[i].key || k in left;
    assert CloseOk(s', left);
  }

  /** `close` gave one more record back. */
  lemma CloseGone(c: Config, s: State, gone: State, i: nat, left: seq<Key>, raised: bool)
    requires ValidConfig(c) && SlotsOk(c, s) && i < |s.pending| && SlotsOk(c, gone) && QueueOk(c, gone)
    requires CloseOk(s, [s.pending[i].key] + left) && TodoOk(s, left) && s.pending[i].key !in left
    requires gone == s.(pending := Without(s.pending, i), staging := gone.staging)
    requires forall k :: HasKey(gone.pending, k) <==> HasKey(s.pending, k) && k != s.pending[i].key
    ensures Inv(c, gone.(raised := raised, ctl := CloseLoop(left)))
  {
    var s' := gone.(raised := raised, ctl := CloseLoop(left));
    VictimGone(c, s, i);
    assert forall k :: k in [s.pending[i].key] + left <==> k == s.pending[i].key || k in left;
    assert CloseOk(s', left) && TodoOk(s', left);
  }

  lemma ResolveClose(c: Config, s: State, i: nat)
    requires ValidConfig(c) && Inv(c, s) && Enabled(c, s, Resolve) && i == IndexOf(s.pending, s.ctl.victim)
    requires s.ctl.next.CloseRest?
    ensures Inv(c, ResolveDiscard(s, i))
  {
    var t := s.pending[i];
    ResolveShape(s, i);
    if t.phase.Done? && t.exported {
      ClosePinned(c, s, i, s.ctl.next.left);
    } else {
      RemoveVictim(c, s, i);
      var gone := s.(pending := Without(s.pending, i), staging := s.staging - Owned(t));
      CloseGone(c, s, gone, i, s.ctl.next.left, s.raised || Raises(t));
    }
  }

  lemma OnlyVictim(s: State, i: nat)
    requires Distinct(Keys(s.pending)) && i < |s.pending|
    ensures forall j :: 0 <= j < |s.pending| && s.pending[j].key == s.pending[i].key ==> j == i
  {
    assert forall j :: 0 <= j < |s.pending| ==> Keys(s.pending)[j] == s.pending[j].key;
  }

  lemma VictimGone(c: Config, s: State, i: nat)
    requires Distinct(Keys(s.pending)) && i < |s.pending|
    ensures forall j :: 0 <= j < |s.pending| - 1 ==>
              Without(s.pending, i)[j].key != s.pending[i].key && Without(s.pending, i)[j] in s.pending
  {
    OnlyVictim(s, i);
  }

  lemma CloseStarts(c: Config, s: State)
    requires ValidConfig(c) && Inv(c, s) && s.ctl.Idle?
    ensures Inv(c, CloseStart(s))
  {
    if !s.closed && CloseStart(s) != s {
      assert forall i :: 0 <= i < |s.pending| ==> Keys(s.pending)[i] in Keys(s.pending);
      assert CloseOk(CloseStart(s), Keys(s.pending));
    }
  }

  lemma CloseVisits(c: Config, s: State)
    requires ValidConfig(c) && Inv(c, s) && s.ctl.CloseLoop? && s.ctl.todo != []
    ensures Inv(c, CloseNext(s))
  {
    var todo := s.ctl.todo;
    var s' := CloseNext(s);
    var i := IndexOf(s.pending, todo[0]);
    TodoHead(s, todo);
    BeginDiscardSlots(c, s, i, CloseRest(todo[1..]));
    assert s' == BeginDiscard(s, i, CloseRest(todo[1..]));
    assert CloseOk(s', todo);
    assert TodoOk(s', todo[1..]);
  }

  lemma CloseEnds(c: Config, s: State)
    requires ValidConfig(c) && Inv(c, s) && s.ctl == CloseLoop([])
    ensures Inv(c, CloseNext(s)) && (CloseNext(s).leaked ==> s.pinned)
  {
    LeakCheck(c, s);
    assert Closed(CloseNext(s));
  }

  lemma TodoHead(s: State, todo: seq<Key>)
    requires TodoOk(s, todo) && todo != []
    ensures HasKey(s.pending, todo[0]) && TodoOk(s, todo[1..])
    ensures [todo[0]] + todo[1..] == todo && todo[0] !in todo[1..]
  {
    assert todo[0] in todo;
    assert forall k :: k in todo[1..] ==> k in todo;
  }

  /** What `close` finds when every discard is over: exactly the buffers that consumers still view. */
  lemma LeakCheck(c: Config, s: State)
    requires ValidConfig(c) && Inv(c, s) && s.ctl == CloseLoop([])
    ensures s.active == 0
    ensures s.staging != 0 <==> s.pending != []
  {
    SumZero(s.pending, IsRunning);
    if s.pending != [] {
      assert TicketOk(c, s.pending[0]) && Owned(s.pending[0]) > 0;
      SumBound(s.pending[1..], Owned, MaxOwned(s.pending[1..]));
    }
  }

  ghost function MaxOwned(ts: seq<Ticket>): (m: nat)
    ensures forall t :: t in ts ==> Owned(t) <= m
  {
    if ts == [] then 0
    else
      var rest := MaxOwned(ts[1..]);
      if Owned(ts[0]) > rest then Owned(ts[0]) else rest
  }

  /******* Safety of every interleaving *******/

  lemma StepKeepsInv(c: Config, s: State, l: Label)
    requires ValidConfig(c) && Inv(c, s) && Enabled(c, s, l)
    ensures Inv(c, Step(c, s, l))
  {
    match l
    case PlanCall(_) =>
    case PlanTurn => if s.ctl.todo == [] { PlanEnds(c, s); } else { PlanTurns(c, s); }
    case ReadEnter(key, cancel) => EnterKeeps(c, s, key, cancel);
    case ReadExit(i) => ExitKeeps(c, s, i);
    case CloseCall => CloseStarts(c, s);
    case CloseTurn => if s.ctl.todo == [] { CloseEnds(c, s); } else { CloseVisits(c, s); }
    case Resolve =>
      var i := IndexOf(s.pending, s.ctl.victim);
      if s.ctl.next.PlanRest? { ResolvePlan(c, s, i); }
      else if s.ctl.next.Demand? { ResolveDemand(c, s, i); }
      else { ResolveClose(c, s, i); }
    case Worker(i, f) => FetchKeeps(c, s, i, f);
    case Consumer(i, u) => UseKeeps(c, s, i, u);
  }

  lemma {:induction false} RunKeepsInv(c: Config, s: State, ls: seq<Label>)
    requires ValidConfig(c) && Inv(c, s) && CanRun(c, s, ls)
    ensures Inv(c, After(c, s, ls))
    decreases |ls|
  {
    if ls != [] {
      StepKeepsInv(c, s, ls[0]);
      RunKeepsInv(c, Step(c, s, ls[0]), ls[1..]);
    }
  }
}
