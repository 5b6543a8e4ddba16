/** What the prefetcher promises, for every interleaving of its steps. */
module AsyncStoreTheorems {
  import opened Arithmetic
  import opened Sequences
  import opened Sums
  import opened AsyncStore
  import opened AsyncStoreSafety

  /******* Bounds *******/

  lemma InitInv(c: Config)
    requires ValidConfig(c)
    ensures Inv(c, Init)
  {}

  /**
   At most `slots` records are staged, the plan and the staged records never overlap or repeat, the counter is the
   memory really held, and so staging never exceeds `slots` times the largest record.
   */
  lemma StagingIsBounded(c: Config, ls: seq<Label>, largest: nat)
    requires ValidConfig(c) && CanRun(c, Init, ls)
    requires forall k :: k in c.records ==> c.records[k].bytes <= largest
    ensures var s := After(c, Init, ls);
            && |s.pending| <= c.slots
            && Distinct(Keys(s.pending)) && Distinct(s.queue)
            && (forall k :: k in s.queue ==> !HasKey(s.pending, k))
            && s.staging == SumOf(s.pending, Owned) <= c.slots * largest
            && 0 <= s.active <= c.slots
  {
    InitInv(c);
    RunKeepsInv(c, Init, ls);
    var s := After(c, Init, ls);
    forall t | t in s.pending ensures 0 <= Owned(t) <= largest {
      assert TicketOk(c, t);
    }
    SumBound(s.pending, Owned, largest);
    SumBound(s.pending, IsRunning, 1);
    assert |s.pending| * largest <= c.slots * largest by {
      MulMono(|s.pending|, c.slots, largest);
    }
  }

  /** Whatever a reader is given is exactly its record, as hashed, however the reads were cut up. */
  lemma YieldedBytesAreTheRecord(c: Config, ls: seq<Label>, i: nat)
    requires ValidConfig(c) && CanRun(c, Init, ls)
    requires i < |After(c, Init, ls).pending| && After(c, Init, ls).pending[i].lease.Holding?
    ensures var t := After(c, Init, ls).pending[i];
            && t.key in c.records && t.phase.Done? && t.phase.data == RecordBytes(c, t.key)
            && c.sha(t.phase.data) == c.records[t.key].digest
  {
    InitInv(c);
    RunKeepsInv(c, Init, ls);
    assert TicketOk(c, After(c, Init, ls).pending[i]);
  }

  /******* Leases *******/

  /** The ticket is still claimed, nobody has asked its fetch to stop, and a finished record is still there. */
  ghost predicate Survives(s: State, t: Ticket) {
    exists j :: 0 <= j < |s.pending| && s.pending[j].key == t.key && s.pending[j].Claimed()
                && s.pending[j].stop == t.stop && (t.phase.Done? ==> s.pending[j].phase == t.phase)
  }

  lemma SurvivesReplace(ts: seq<Ticket>, s': State, i: nat, j: nat, t: Ticket)
    requires i < |ts| && j < |ts| && s'.pending == ts[j := t] && ts[i].Claimed()
    requires i == j ==>
               t.key == ts[i].key && t.Claimed() && t.stop == ts[i].stop
               && (ts[i].phase.Done? ==> t.phase == ts[i].phase)
    ensures Survives(s', ts[i])
  {
    assert s'.pending[i].key == ts[i].key;
  }

  lemma SurvivesWithout(ts: seq<Ticket>, s': State, i: nat, j: nat)
    requires i < |ts| && j < |ts| && i != j && ts[i].Claimed() && Without(ts, j) <= s'.pending
    ensures Survives(s', ts[i])
  {
    var k := if i < j then i else i - 1;
    assert s'.pending[k] == Without(ts, j)[k] == ts[i];
  }

  lemma SurvivesAppend(ts: seq<Ticket>, s': State, i: nat)
    requires i < |ts| && ts[i].Claimed() && ts <= s'.pending
    ensures Survives(s', ts[i])
  {
    assert s'.pending[i] == ts[i];
  }

  /** Only the exit of its own read ends a lease: no plan, displacement, close or fetch step touches a leased record. */
  lemma LeaseIsNeverDiscarded(c: Config, s: State, l: Label, i: nat)
    requires ValidConfig(c) && Inv(c, s) && Enabled(c, s, l)
    requires i < |s.pending| && s.pending[i].Claimed() && l != ReadExit(i)
    ensures Survives(Step(c, s, l), s.pending[i])
  {
    var s' := Step(c, s, l);
    match l
    case PlanTurn => PlanSparesLeases(c, s, i);
    case ReadEnter(key, cancel) => EnterSparesLeases(c, s, i, key, cancel);
    case ReadExit(j) => ExitSparesLeases(c, s, i, j);
    case Resolve => ResolveSparesLeases(c, s, i);
    case CloseTurn => CloseSparesLeases(c, s, i);
    case Worker(j, f) => SurvivesReplace(s.pending, s', i, j, s'.pending[j]);
    case Consumer(j, u) => SurvivesReplace(s.pending, s', i, j, s'.pending[j]);
    case _ => SurvivesAppend(s.pending, s', i);
  }

  lemma PlanSparesLeases(c: Config, s: State, i: nat)
    requires ValidConfig(c) && Inv(c, s) && s.ctl.PlanLoop? && i < |s.pending| && s.pending[i].Claimed()
    ensures Survives(PlanNext(c, s), s.pending[i])
  {
    var PlanLoop(keys, todo) := s.ctl;
    if todo == [] {
      var s1 := s.(queue := Absent(keys, s.pending), ctl := Idle, planned := (set k | k in keys), consumed := {},
                   raised := false);
      FillKeeps(c, s1);
      SurvivesAppend(s.pending, PlanNext(c, s), i);
    } else {
      var j := IndexOf(s.pending, todo[0]);
      if j < |s.pending| && !s.pending[j].Claimed() && todo[0] !in keys {
        SurvivesReplace(s.pending, PlanNext(c, s), i, j, Mark(s.pending[j]));
      } else {
        SurvivesAppend(s.pending, PlanNext(c, s), i);
      }
    }
  }

  lemma EnterSparesLeases(c: Config, s: State, i: nat, key: Key, cancel: CancelEvent)
    requires i < |s.pending| && s.pending[i].Claimed()
    ensures Survives(EnterRead(c, s, key, cancel), s.pending[i])
  {
    var s' := EnterRead(c, s, key, cancel);
    if s'.pending != s.pending && |s'.pending| == |s.pending| {
      var j := if HasKey(s.pending, key) then IndexOf(s.pending, key) else LastUnclaimed(s.pending);
      SurvivesReplace(s.pending, s', i, j, s'.pending[j]);
    } else {
      SurvivesAppend(s.pending, s', i);
    }
  }

  lemma ExitSparesLeases(c: Config, s: State, i: nat, j: nat)
    requires ValidConfig(c) && Inv(c, s) && Enabled(c, s, ReadExit(j)) && i < |s.pending| && i != j
             && s.pending[i].Claimed()
    ensures Survives(ExitRead(c, s, j), s.pending[i])
  {
    hide Fill;
    var t := s.pending[j];
    if t.phase.Done? && t.exported {
      SurvivesReplace(s.pending, ExitRead(c, s, j), i, j, t.(lease := Free));
    } else {
      var s1 := s.(pending := Without(s.pending, j), staging := s.staging - Owned(t), consumed := s.consumed + {t.key});
      RemoveSlots(c, s, s1, j);
      FillKeeps(c, s1);
      SurvivesWithout(s.pending, ExitRead(c, s, j), i, j);
    }
  }

  lemma ResolveSparesLeases(c: Config, s: State, i: nat)
    requires ValidConfig(c) && Inv(c, s) && Enabled(c, s, Resolve) && i < |s.pending| && s.pending[i].Claimed()
    ensures Survives(Step(c, s, Resolve), s.pending[i])
  {
    var j := IndexOf(s.pending, s.ctl.victim);
    VictimIsUnclaimed(c, s);
    ResolveShape(s, j);
    var t := s.pending[j];
    if t.phase.Done? && t.exported { SurvivesAppend(s.pending, Step(c, s, Resolve), i); }
    else { SurvivesWithout(s.pending, Step(c, s, Resolve), i, j); }
  }

  lemma VictimIsUnclaimed(c: Config, s: State)
    requires ValidConfig(c) && Inv(c, s) && s.ctl.Discard?
    ensures var j := IndexOf(s.pending, s.ctl.victim);
            j < |s.pending| && !s.pending[j].Claimed() && s.pending[j].stop && !s.pending[j].phase.Waiting?
  {
    var k :| 0 <= k < |s.pending| && s.pending[k].key == s.ctl.victim && !s.pending[k].Claimed();
    assert Keys(s.pending)[k] == s.ctl.victim;
    OnlyVictim(s, k);
  }

  lemma CloseSparesLeases(c: Config, s: State, i: nat)
    requires ValidConfig(c) && Inv(c, s) && s.ctl.CloseLoop? && i < |s.pending|
    ensures !s.pending[i].Claimed()
  {}

  /******* Demand reads *******/

  /**
   A demand read is refused only when another reader has its record leased or, if the record is not pending, every slot
   is leased.  Otherwise it joins the pending fetch where that stands, takes a free slot, or takes the newest unleased
   one; once that discard ends without an error the key is staged and leased, and the displaced record is first in line
   to be fetched again.
   */
  lemma DemandTakesASlot(c: Config, s: State, key: Key, cancel: CancelEvent)
    requires ValidConfig(c) && Inv(c, s) && s.ctl.Idle? && !s.closed && key in c.records && !cancel.Set?
    ensures var s' := EnterRead(c, s, key, cancel);
            if HasKey(s.pending, key) then
              var i := IndexOf(s.pending, key);
              && (s' == s <==> s.pending[i].Claimed())
              && (s' != s ==>
                    && Keys(s'.pending) == Keys(s.pending) && s'.ctl.Idle? && s'.queue == s.queue
                    && s'.pending[i].lease.Awaiting? && s'.pending[i].phase == s.pending[i].phase
                    && forall j :: 0 <= j < |s.pending| && j != i ==> s'.pending[j] == s.pending[j])
            else
              && (s' == s <==> |s.pending| == c.slots && forall i :: 0 <= i < |s.pending| ==> s.pending[i].Claimed())
              && (|s.pending| < c.slots ==> HasKey(s'.pending, key) && s'.ctl.Idle?)
              && (s' != s && |s.pending| == c.slots ==>
                    s'.ctl == Discard(s.pending[LastUnclaimed(s.pending)].key, Demand(key, cancel)))
  {
    var i := IndexOf(s.pending, key);
    if i < |s.pending| {
      ReplaceKeepsKeys(s.pending, i, s.pending[i].(lease := Awaiting, cancel := cancel));
    } else if |s.pending| < c.slots {
      SubmitSlots(c, s.(queue := Drop(s.queue, key), ctl := Idle), key, Awaiting, cancel);
      assert |SubmitDemand(s, key, cancel).pending| == |s.pending| + 1;
    }
  }

  lemma DisplacedIsRequeuedFirst(c: Config, s: State)
    requires ValidConfig(c) && Inv(c, s) && Enabled(c, s, Resolve) && s.ctl.next.Demand?
    requires !Raises(s.pending[IndexOf(s.pending, s.ctl.victim)])
    ensures var s' := Step(c, s, Resolve);
            var last := |s'.pending| - 1;
            && s'.queue == [s.ctl.victim] + Drop(s.queue, s.ctl.next.key)
            && last >= 0 && s'.pending[last].key == s.ctl.next.key && s'.pending[last].lease.Awaiting?
            && !HasKey(s'.pending, s.ctl.victim)
  {
    var i := IndexOf(s.pending, s.ctl.victim);
    ResolveShape(s, i);
    RemoveVictim(c, s, i);
    var q := [s.ctl.victim] + s.queue;
    assert s.ctl.victim != s.ctl.next.key;
    assert q[1..] == s.queue;
    assert Drop(q, s.ctl.next.key) == [s.ctl.victim] + Drop(s.queue, s.ctl.next.key);
    var gone := s.(pending := Without(s.pending, i), staging := s.staging - Owned(s.pending[i]));
    SubmitSlots(c, gone, s.ctl.next.key, Awaiting, s.ctl.next.cancel);
  }

  /******* Nothing planned is lost *******/

  /** Unless a discard raised, every key of the latest plan is staged, queued, or already read. */
  ghost predicate Covered(s: State) {
    s.closed || s.raised || s.ctl.Planning()
    || forall k :: k in s.planned ==> HasKey(s.pending, k) || k in s.queue || k in s.consumed
  }

  lemma StepKeepsCovered(c: Config, s: State, l: Label)
    requires ValidConfig(c) && Inv(c, s) && Enabled(c, s, l) && Covered(s)
    ensures Covered(Step(c, s, l))
  {
    match l
    case PlanTurn => PlanMakesCovered(c, s);
    case ReadEnter(key, cancel) => EnterKeepsCovered(c, s, key, cancel);
    case ReadExit(i) => ExitKeepsCovered(c, s, i);
    case Resolve => ResolveKeepsCovered(c, s);
    case Worker(i, f) => SameKeysCovered(s, Step(c, s, l), i, Step(c, s, l).pending[i]);
    case Consumer(i, u) => SameKeysCovered(s, Step(c, s, l), i, Use(s.pending[i], u));
    case PlanCall(keys) => PlanCallCovered(c, s, keys);
    case CloseCall =>
    case CloseTurn => assert Step(c, s, l).closed;
  }

  lemma PlanCallCovered(c: Config, s: State, keys: seq<Key>)
    requires s.ctl.Idle? && Covered(s)
    ensures Covered(PlanStart(c, s, keys))
  {}

  lemma SameKeysCovered(s: State, s': State, i: nat, t: Ticket)
    requires Covered(s) && i < |s.pending| && t.key == s.pending[i].key
    requires s' == s.(pending := s.pending[i := t], staging := s'.staging, active := s'.active)
    ensures Covered(s')
  {
    ReplaceKeepsKeys(s.pending, i, t);
  }

  lemma PlanMakesCovered(c: Config, s: State)
    requires ValidConfig(c) && Inv(c, s) && s.ctl.PlanLoop?
    ensures Covered(PlanNext(c, s))
  {
    if s.ctl.todo == [] {
      var s1 := s.(queue := Absent(s.ctl.keys, s.pending), ctl := Idle, planned := (set k | k in s.ctl.keys),
                   consumed := {}, raised := false);
      FillKeeps(c, s1);
    }
  }

  lemma EnterKeepsCovered(c: Config, s: State, key: Key, cancel: CancelEvent)
    requires ValidConfig(c) && Inv(c, s) && s.ctl.Idle? && Covered(s)
    ensures Covered(EnterRead(c, s, key, cancel))
  {
    if !s.closed && key in c.records && !cancel.Set? {
      if HasKey(s.pending, key) {
        var i := IndexOf(s.pending, key);
        ReplaceKeepsKeys(s.pending, i, s.pending[i].(lease := Awaiting, cancel := cancel));
      } else if |s.pending| < c.slots {
        SubmitSlots(c, s.(queue := Drop(s.queue, key), ctl := Idle), key, Awaiting, cancel);
      } else {
        var v := LastUnclaimed(s.pending);
        if v < |s.pending| { ReplaceKeepsKeys(s.pending, v, Mark(s.pending[v])); }
      }
    }
  }

  lemma ExitKeepsCovered(c: Config, s: State, i: nat)
    requires ValidConfig(c) && Inv(c, s) && Enabled(c, s, ReadExit(i)) && Covered(s)
    ensures Covered(ExitRead(c, s, i))
  {
    var t := s.pending[i];
    if t.phase.Done? && t.exported {
      ReplaceKeepsKeys(s.pending, i, t.(lease := Free));
    } else {
      hide AsyncStore.Fill;
      var s1 := s.(pending := Without(s.pending, i), staging := s.staging - Owned(t), consumed := s.consumed + {t.key});
      RemoveSlots(c, s, s1, i);
      hide SlotsOk;
      FillKeeps(c, s1);
    }
  }

  lemma ResolveKeepsCovered(c: Config, s: State)
    requires ValidConfig(c) && Inv(c, s) && Enabled(c, s, Resolve) && Covered(s)
    ensures Covered(Step(c, s, Resolve))
  {
    var i := IndexOf(s.pending, s.ctl.victim);
    ResolveShape(s, i);
    if !Raises(s.pending[i]) && s.ctl.next.Demand? {
      RemoveVictim(c, s, i);
      DisplacedIsRequeuedFirst(c, s);
      var gone := s.(pending := Without(s.pending, i), staging := s.staging - Owned(s.pending[i]));
      SubmitSlots(c, gone, s.ctl.next.key, Awaiting, s.ctl.next.cancel);
      var s' := Step(c, s, Resolve);
      forall k | HasKey(s.pending, k) || k in s.queue
        ensures HasKey(s'.pending, k) || k in s'.queue
      {
        if k == s.ctl.victim { assert s'.queue[0] == k; }
      }
    }
  }

  lemma {:induction false} RunKeepsCovered(c: Config, s: State, ls: seq<Label>)
    requires ValidConfig(c) && Inv(c, s) && CanRun(c, s, ls) && Covered(s)
    ensures Covered(After(c, s, ls))
    decreases |ls|
  {
    if ls != [] {
      StepKeepsInv(c, s, ls[0]);
      StepKeepsCovered(c, s, ls[0]);
      RunKeepsCovered(c, Step(c, s, ls[0]), ls[1..]);
    }
  }

  lemma PlannedWorkIsNeverLost(c: Config, ls: seq<Label>)
    requires ValidConfig(c) && CanRun(c, Init, ls)
    ensures var s := After(c, Init, ls);
            !s.closed && !s.raised && s.ctl.Idle? ==>
              forall k :: k in s.planned ==> HasKey(s.pending, k) || k in s.queue || k in s.consumed
  {
    InitInv(c);
    RunKeepsCovered(c, Init, ls);
  }

  /******* Close *******/

  /** How many more steps a fetch thread can take. */
  function TicketWork(c: Config, t: Ticket): int {
    if t.key !in c.records then 0
    else
      match t.phase
      case Waiting => c.records[t.key].bytes + 5
      case Entered => c.records[t.key].bytes + 4
      case Reading(_, got) => c.records[t.key].bytes - got + 3
      case Unwinding(_, held) => if held != [] then 2 else 1
      case _ => 0
  }

  function Work(c: Config): Ticket -> int { t => TicketWork(c, t) }

  function ControlWork(ctl: Control): nat {
    match ctl
    case CloseLoop(todo) => 2 * |todo| + 1
    case Discard(_, CloseRest(left)) => 2 * |left| + 2
    case _ => 0
  }

  function CloseWork(c: Config, s: State): int { ControlWork(s.ctl) + SumOf(s.pending, Work(c)) }

  /** Steps that are not a consumer's and not an interrupted system call. */
  predicate Moves(l: Label) {
    l.CloseTurn? || l.Resolve? || (l.Worker? && !l.f.Retry?)
  }

  /** A closing store is never stuck: the thread that holds the lock, or the fetch it waits for, can move. */
  lemma CloseCanMove(c: Config, s: State) returns (l: Label)
    requires ValidConfig(c) && Inv(c, s) && s.ctl.Closing()
    ensures Moves(l) && Enabled(c, s, l)
  {
    if s.ctl.CloseLoop? { return CloseTurn; }
    VictimIsUnclaimed(c, s);
    var i := IndexOf(s.pending, s.ctl.victim);
    var t := s.pending[i];
    assert TicketOk(c, t);
    match t.phase
    case Entered => l := Worker(i, Map(true));
    case Reading(_, got) => l := Worker(i, if got < c.records[t.key].bytes then Chunk(0) else Verify);
    case Unwinding(_, held) => l := Worker(i, if held != [] then Unmap else Finish);
    case _ => l := Resolve;
  }

  lemma FetchWork(c: Config, t: Ticket, f: FetchStep)
    requires ValidConfig(c) && TicketOk(c, t) && CanFetch(t, c.records[t.key].bytes, f)
    ensures TicketWork(c, t.(phase := FetchPhase(c, t, f))) <= TicketWork(c, t) - (if f.Retry? then 0 else 1)
  {}

  lemma CloseTurnWork(c: Config, s: State)
    requires ValidConfig(c) && s.ctl.CloseLoop?
    ensures CloseWork(c, CloseNext(s)) <= CloseWork(c, s) - 1
  {
    hide IndexOf, HasKey;
    if s.ctl.todo != [] {
      var i := IndexOf(s.pending, s.ctl.todo[0]);
      if i < |s.pending| && !s.pending[i].Claimed() { SumUpdate(s.pending, i, Mark(s.pending[i]), Work(c)); }
    }
  }

  lemma ResolveWork(c: Config, s: State, i: nat)
    requires ValidConfig(c) && s.ctl.Discard? && s.ctl.next.CloseRest? && i < |s.pending|
    requires s.pending[i].phase.Finished()
    ensures CloseWork(c, ResolveDiscard(s, i)) <= CloseWork(c, s) - 1
  {
    ResolveShape(s, i);
    SumRemove(s.pending, i, Work(c));
  }

  /** Every move of a closing store, or of a fetch thread beside it, uses up some of the remaining work. */
  lemma CloseUsesWork(c: Config, s: State, l: Label)
    requires ValidConfig(c) && Inv(c, s) && s.ctl.Closing() && Enabled(c, s, l)
    ensures CloseWork(c, Step(c, s, l)) <= CloseWork(c, s) - (if Moves(l) then 1 else 0)
  {
    match l
    case CloseTurn => CloseTurnWork(c, s);
    case Resolve => ResolveWork(c, s, IndexOf(s.pending, s.ctl.victim));
    case Worker(i, f) =>
      FetchWork(c, s.pending[i], f);
      SumUpdate(s.pending, i, Step(c, s, l).pending[i], Work(c));
    case Consumer(i, u) => SumUpdate(s.pending, i, Use(s.pending[i], u), Work(c));
    case _ =>
  }

  predicate ClosingRun(c: Config, s: State, ls: seq<Label>)
    decreases |ls|
  {
    ls == [] || (s.ctl.Closing() && Enabled(c, s, ls[0]) && ClosingRun(c, Step(c, s, ls[0]), ls[1..]))
  }

  function MovesIn(ls: seq<Label>): nat {
    if ls == [] then 0 else (if Moves(ls[0]) then 1 else 0) + MovesIn(ls[1..])
  }

  lemma WorkIsNatural(c: Config, s: State)
    requires ValidConfig(c) && Inv(c, s)
    ensures CloseWork(c, s) >= 0
  {
    WorkNonNegative(c, s.pending);
  }

  lemma {:induction false} WorkNonNegative(c: Config, ts: seq<Ticket>)
    requires ValidConfig(c) && forall i :: 0 <= i < |ts| ==> TicketOk(c, ts[i])
    ensures SumOf(ts, Work(c)) >= 0
  {
    if ts != [] { WorkNonNegative(c, ts[1..]); }
  }

  /** Close terminates: however the fetches interleave, at most `CloseWork` moves happen before it is done. */
  lemma {:induction false} CloseTerminates(c: Config, s: State, ls: seq<Label>)
    requires ValidConfig(c) && Inv(c, s) && s.ctl.Closing() && ClosingRun(c, s, ls)
    ensures MovesIn(ls) <= CloseWork(c, s)
    decreases |ls|
  {
    WorkIsNatural(c, s);
    if ls != [] {
      var s' := Step(c, s, ls[0]);
      CloseUsesWork(c, s, ls[0]);
      StepKeepsInv(c, s, ls[0]);
      WorkIsNatural(c, s');
      if s'.ctl.Closing() {
        CloseTerminates(c, s', ls[1..]);
      } else {
        assert ls[1..] == [];
      }
    }
  }

  ghost predicate NoViews(s: State) {
    forall i :: 0 <= i < |s.pending| ==> !s.pending[i].exported
  }

  lemma UnviewedResolve(s: State, i: nat)
    requires s.ctl.Discard? && s.ctl.next.CloseRest? && i < |s.pending| && NoViews(s) && !s.pinned
    ensures var s' := ResolveDiscard(s, i);
            NoViews(s') && !s'.pinned && s'.ctl.CloseLoop?
  {
    ResolveShape(s, i);
    assert forall j :: 0 <= j < |s.pending| - 1 ==> Without(s.pending, i)[j] in s.pending;
  }

  lemma ClosingKeepsUnpinned(c: Config, s: State, l: Label)
    requires ValidConfig(c) && Inv(c, s) && s.ctl.Closing() && Enabled(c, s, l) && NoViews(s) && !s.pinned
    ensures NoViews(Step(c, s, l)) && !Step(c, s, l).pinned
    ensures Step(c, s, l).ctl.Closing() || (Step(c, s, l).ctl.Idle? && Step(c, s, l).closed)
  {
    hide Fetch, ResolveDiscard, CloseNext, CanFetch, Inv;
    match l {
      case Resolve => UnviewedResolve(s, IndexOf(s.pending, s.ctl.victim));
      case CloseTurn => UnviewedTurn(c, s);
      case Worker(i, f) => UnviewedFetch(c, s, i, f);
      case Consumer(i, u) => UnviewedUse(c, s, i, u);
      case _ =>
    }
  }

  lemma UnviewedTurn(c: Config, s: State)
    requires ValidConfig(c) && Inv(c, s) && s.ctl.CloseLoop? && NoViews(s) && !s.pinned
    ensures var s' := CloseNext(s);
            NoViews(s') && !s'.pinned && (s'.ctl.Closing() || (s'.ctl.Idle? && s'.closed))
  {
  }

  lemma UnviewedFetch(c: Config, s: State, i: nat, f: FetchStep)
    requires NoViews(s) && !s.pinned && i < |s.pending| && s.pending[i].key in c.records
    requires CanFetch(s.pending[i], c.records[s.pending[i].key].bytes, f)
    ensures var s' := Fetch(c, s, i, f);
            NoViews(s') && !s'.pinned && s'.ctl == s.ctl
  {
    hide FetchPhase;
  }

  lemma UnviewedUse(c: Config, s: State, i: nat, u: UserStep)
    requires ValidConfig(c) && Inv(c, s) && s.ctl.Closing() && NoViews(s) && i < |s.pending| && CanUse(s.pending[i], u)
    ensures NoViews(s.(pending := s.pending[i := Use(s.pending[i], u)]))
  {
  }

  /**
   Close, started in any reachable idle state without leases, ends with everything given back, failed fetches
   included: when no consumer still views a buffer, the "not fully released" check never fires.
   */
  lemma {:induction false} CloseReleasesEverything(c: Config, s: State, ls: seq<Label>)
    requires ValidConfig(c) && Inv(c, s) && s.ctl.Closing() && ClosingRun(c, s, ls) && NoViews(s) && !s.pinned
    requires CanRun(c, s, ls) && !After(c, s, ls).ctl.Closing()
    ensures var e := After(c, s, ls);
            && e.ctl.Idle? && e.closed && !e.fdOpen && !e.leaked
            && e.pending == [] && e.queue == [] && e.staging == 0 && e.active == 0
    decreases |ls|
  {
    var s' := Step(c, s, ls[0]);
    StepKeepsInv(c, s, ls[0]);
    ClosingKeepsUnpinned(c, s, ls[0]);
    if s'.ctl.Closing() {
      CloseReleasesEverything(c, s', ls[1..]);
    } else {
      assert ls[1..] == [];
      assert Closed(s');
    }
  }

  /**
   The whole of close, from any reachable state: it refuses, changing nothing, exactly while some ticket is leased.
   Otherwise the steps that follow are bounded in number, and when they end the store is empty and its file closed.
   `cs` is what happens after the call: moves of the closing thread, of the fetches it waits for, and of consumers.
   */
  lemma CloseIsOrderly(c: Config, ls: seq<Label>, cs: seq<Label>)
    requires ValidConfig(c) && CanRun(c, Init, ls)
    requires After(c, Init, ls).ctl.Idle? && !After(c, Init, ls).closed
    ensures var s := After(c, Init, ls);
            var s' := Step(c, s, CloseCall);
            && (s'.ctl.Closing() <==> NoneClaimed(s))
            && (!NoneClaimed(s) ==> s' == s)
            && (NoneClaimed(s) && ClosingRun(c, s', cs) ==> MovesIn(cs) <= CloseWork(c, s'))
            && (NoneClaimed(s) && NoViews(s) && ClosingRun(c, s', cs) && CanRun(c, s', cs)
                && !After(c, s', cs).ctl.Closing() ==>
                  var e := After(c, s', cs);
                  e.pending == [] && e.staging == 0 && e.active == 0 && !e.fdOpen && !e.leaked)
  {
    InitInv(c);
    RunKeepsInv(c, Init, ls);
    var s := After(c, Init, ls);
    var s' := Step(c, s, CloseCall);
    StepKeepsInv(c, s, CloseCall);
    if NoneClaimed(s) && ClosingRun(c, s', cs) {
      CloseTerminates(c, s', cs);
      if NoViews(s) && CanRun(c, s', cs) && !After(c, s', cs).ctl.Closing() {
        CloseReleasesEverything(c, s', cs);
      }
    }
  }
}
