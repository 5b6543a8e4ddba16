/**
 `AsyncExpertStore` in its own form: methods that change the store in place.  Every method takes the object through
 steps of the state machine, so all the theorems about reachable states hold of it at every method boundary.
 */
module AsyncExpertStores {
  import opened AsyncStore
  import opened AsyncStoreSafety
  import opened AsyncStoreTheorems

  datatype Outcome = Ok | Invalid | StoreClosed | ReadCancelled | Exhausted | AlreadyLeased | DiscardRaised
    | ViewRetained | Leased

  lemma {:induction false} RunSnoc(c: Config, s: State, ls: seq<Label>, l: Label)
    requires CanRun(c, s, ls) && Enabled(c, After(c, s, ls), l)
    ensures CanRun(c, s, ls + [l]) && After(c, s, ls + [l]) == Step(c, After(c, s, ls), l)
    decreases |ls|
  {
    if ls == [] {
      assert ls + [l] == [l] && [l][1..] == [];
    } else {
      assert (ls + [l])[1..] == ls[1..] + [l];
      RunSnoc(c, Step(c, s, ls[0]), ls[1..], l);
    }
  }

  /** The transition relation label by label, for proofs that do not need the rest of it. */
  lemma StepIs(c: Config, s: State, l: Label)
    requires Enabled(c, s, l)
    ensures l.PlanCall? ==> Step(c, s, l) == PlanStart(c, s, l.keys)
    ensures l.PlanTurn? ==> Step(c, s, l) == PlanNext(c, s)
    ensures l.ReadEnter? ==> Step(c, s, l) == EnterRead(c, s, l.key, l.cancel)
    ensures l.ReadExit? ==> Step(c, s, l) == ExitRead(c, s, l.i)
    ensures l.CloseCall? ==> Step(c, s, l) == CloseStart(s)
    ensures l.CloseTurn? ==> Step(c, s, l) == CloseNext(s)
    ensures l.Resolve? ==> Step(c, s, l) == ResolveDiscard(s, IndexOf(s.pending, s.ctl.victim))
  {}

  lemma FetchReady(c: Config, s: State, i: nat, f: FetchStep)
    requires Enabled(c, s, Worker(i, f))
    ensures i < |s.pending| && s.pending[i].key in c.records
            && CanFetch(s.pending[i], c.records[s.pending[i].key].bytes, f)
    ensures Step(c, s, Worker(i, f)) == Fetch(c, s, i, f)
  {}

  ghost predicate Reachable(c: Config, s: State) {
    exists ls :: CanRun(c, Init, ls) && After(c, Init, ls) == s
  }

  /** One atomic step, and the invariant it keeps. */
  lemma Took(c: Config, before: State, l: Label, after: State)
    requires ValidConfig(c) && Reachable(c, before) && Enabled(c, before, l) && after == Step(c, before, l)
    ensures Reachable(c, after) && Inv(c, after)
  {
    var ls :| CanRun(c, Init, ls) && After(c, Init, ls) == before;
    RunSnoc(c, Init, ls, l);
    ReachableInv(c, after);
  }

  lemma ReachableInv(c: Config, s: State)
    requires ValidConfig(c) && Reachable(c, s)
    ensures Inv(c, s)
  {
    var ls :| CanRun(c, Init, ls) && After(c, Init, ls) == s;
    InitInv(c);
    RunKeepsInv(c, Init, ls);
  }

  lemma TicketFacts(c: Config, s: State, i: nat)
    requires ValidConfig(c) && Inv(c, s) && i < |s.pending|
    ensures TicketOk(c, s.pending[i])
    ensures IndexOf(s.pending, s.pending[i].key) == i
  {
    assert Keys(s.pending)[i] == s.pending[i].key;
    OnlyVictim(s, i);
  }

  lemma TodoFacts(c: Config, s: State, todo: seq<Key>)
    requires ValidConfig(c) && Inv(c, s) && todo != []
             && (s.ctl == CloseLoop(todo) || (s.ctl.PlanLoop? && s.ctl.todo == todo))
    ensures HasKey(s.pending, todo[0])
    ensures s.ctl.CloseLoop? ==> !s.pending[IndexOf(s.pending, todo[0])].Claimed()
  {
    TodoHead(s, todo);
  }

  /** The resolution of a discard, as one equation. */
  lemma Resolved(c: Config, before: State)
    requires before.ctl.Discard? && HasKey(before.pending, before.ctl.victim)
    requires before.pending[IndexOf(before.pending, before.ctl.victim)].phase.Finished()
    ensures Enabled(c, before, Resolve)
    ensures var j := IndexOf(before.pending, before.ctl.victim);
            var t := before.pending[j];
            var gone := before.(pending := Without(before.pending, j), staging := before.staging - Owned(t));
            var next := before.ctl.next;
            Step(c, before, Resolve) ==
            if t.phase.Done? && t.exported then Raise(before.(pinned := before.pinned || next.CloseRest?), next)
            else if Raises(t) then Raise(gone, next)
            else Continue(gone, before.ctl.victim, next)
  {
    ResolveShape(before, IndexOf(before.pending, before.ctl.victim));
  }

  /******* Who is leased, and what a plan gives up *******/

  function ClaimedKeys(ts: seq<Ticket>): set<Key> {
    set i | 0 <= i < |ts| && ts[i].Claimed() :: ts[i].key
  }

  lemma ReplaceKeepsClaims(ts: seq<Ticket>, i: nat, t: Ticket)
    requires i < |ts| && t.key == ts[i].key && t.Claimed() == ts[i].Claimed()
    ensures ClaimedKeys(ts[i := t]) == ClaimedKeys(ts)
  {
    var us := ts[i := t];
    forall k ensures k in ClaimedKeys(us) <==> k in ClaimedKeys(ts) {
      if k in ClaimedKeys(us) {
        var j :| 0 <= j < |us| && us[j].Claimed() && us[j].key == k;
        assert ts[j].Claimed() && ts[j].key == k;
      }
      if k in ClaimedKeys(ts) {
        var j :| 0 <= j < |ts| && ts[j].Claimed() && ts[j].key == k;
        assert us[j].Claimed() && us[j].key == k;
      }
    }
  }

  lemma WithoutKeepsClaims(ts: seq<Ticket>, i: nat)
    requires i < |ts| && !ts[i].Claimed()
    ensures ClaimedKeys(Without(ts, i)) == ClaimedKeys(ts)
  {
    var us := Without(ts, i);
    forall k ensures k in ClaimedKeys(us) <==> k in ClaimedKeys(ts) {
      if k in ClaimedKeys(us) {
        var j :| 0 <= j < |us| && us[j].Claimed() && us[j].key == k;
        assert ts[if j < i then j else j + 1] == us[j];
      }
      if k in ClaimedKeys(ts) {
        var j :| 0 <= j < |ts| && ts[j].Claimed() && ts[j].key == k;
        assert us[if j < i then j else j - 1] == ts[j];
      }
    }
  }

  lemma ClaimedIs(c: Config, s: State, i: nat)
    requires ValidConfig(c) && Inv(c, s) && i < |s.pending|
    ensures s.pending[i].key in ClaimedKeys(s.pending) <==> s.pending[i].Claimed()
  {
    forall j | 0 <= j < |s.pending| && s.pending[j].key == s.pending[i].key ensures j == i {
      TicketFacts(c, s, i);
      TicketFacts(c, s, j);
    }
  }

  /** The ticket of `key` is leased to a reader with this cancellation event, who still waits for the record. */
  ghost predicate HasReader(ts: seq<Ticket>, key: Key, cancel: CancelEvent) {
    exists i :: 0 <= i < |ts| && ts[i].key == key && ts[i].lease.Awaiting? && ts[i].cancel == cancel
  }

  /** What a plan for `keys` discards, in dictionary order: what it does not want and nobody leases. */
  function Victims(ts: seq<Ticket>, keys: seq<Key>): seq<Key> {
    if ts == [] then []
    else
      var t := ts[|ts| - 1];
      Victims(ts[..|ts| - 1], keys) + if t.key !in keys && !t.Claimed() then [t.key] else []
  }

  lemma {:induction false} VictimsBefore(ts: seq<Ticket>, keys: seq<Key>, n: nat)
    requires n <= |ts|
    ensures Victims(ts[..n], keys) <= Victims(ts, keys)
  {
    if n < |ts| {
      VictimsBefore(ts[..|ts| - 1], keys, n);
      assert ts[..|ts| - 1][..n] == ts[..n];
    } else {
      assert ts[..n] == ts;
    }
  }

  /**
   The discards of `victims` in turn, where `fates` are the tickets when their fetches had ended: every one of them if
   none raises, and up to the first that does otherwise.
   */
  ghost predicate Discards(victims: seq<Key>, fates: seq<Ticket>, ok: bool) {
    && Keys(fates) <= victims && (ok ==> Keys(fates) == victims)
    && (forall i :: 0 <= i < |fates| ==> fates[i].phase.Finished() && (Raises(fates[i]) ==> i == |fates| - 1))
    && (ok <==> forall i :: 0 <= i < |fates| ==> !Raises(fates[i]))
  }

  lemma NoDiscard()
    ensures Discards([], [], true) && forall keys :: Victims([], keys) == []
  {
  }

  lemma OneDiscard(t: Ticket)
    requires t.phase.Finished()
    ensures Discards([t.key], [t], !Raises(t))
  {
    assert Keys([t]) == [t.key];
    if Raises(t) { assert Raises([t][0]); }
  }

  lemma MarkFrame(s: State, i: nat, next: Next)
    requires i < |s.pending|
    ensures var s' := BeginDiscard(s, i, next);
            && Keys(s'.pending) == Keys(s.pending) && ClaimedKeys(s'.pending) == ClaimedKeys(s.pending)
            && (NoneClaimed(s) && NoViews(s) ==> NoneClaimed(s') && NoViews(s'))
  {
    ReplaceKeepsKeys(s.pending, i, Mark(s.pending[i]));
    ReplaceKeepsClaims(s.pending, i, Mark(s.pending[i]));
  }

  /** Without leases and views, a discard neither pins a buffer nor creates a lease or a view. */
  lemma WithoutFrame(s: State, i: nat, s': State)
    requires i < |s.pending|
    ensures NoneClaimed(s) && NoViews(s) ==> !s.pending[i].exported
    ensures NoneClaimed(s) && NoViews(s) && s'.pending == Without(s.pending, i) ==> NoneClaimed(s') && NoViews(s')
    ensures NoneClaimed(s) && NoViews(s) && s'.pending == s.pending ==> NoneClaimed(s') && NoViews(s')
  {
    assert forall j :: 0 <= j < |s.pending| - 1 ==> Without(s.pending, i)[j] in s.pending;
  }

  lemma ExitFacts(c: Config, s: State, i: nat)
    requires ValidConfig(c) && Inv(c, s) && Enabled(c, s, ReadExit(i))
    ensures var t := s.pending[i];
            var s' := ExitRead(c, s, i);
            s'.ctl.Idle?
            && (t.phase.Done? && t.exported ==> s' == s.(pending := s.pending[i := t.(lease := Free)]))
            && (!(t.phase.Done? && t.exported) ==>
                  && s'.staging == s.staging - Owned(t) && !HasKey(s'.pending, t.key)
                  && Without(s.pending, i) <= s'.pending && (|s'.pending| == c.slots || s'.queue == []))
  {
    hide Fill;
    var t := s.pending[i];
    if !(t.phase.Done? && t.exported) {
      var s1 := s.(pending := Without(s.pending, i), staging := s.staging - Owned(t), consumed := s.consumed + {t.key});
      RemoveSlots(c, s, s1, i);
      FillKeeps(c, s1);
      assert HasKey(s.pending, t.key) by { assert Keys(s.pending)[i] == t.key; }
      assert !s.closed;
    }
  }

  lemma PlanEndFacts(c: Config, s: State)
    requires ValidConfig(c) && Inv(c, s) && s.ctl.PlanLoop? && s.ctl.todo == []
    ensures var s' := PlanNext(c, s);
            && s'.ctl.Idle? && s'.planned == (set k | k in s.ctl.keys)
            && (forall k :: k in s.ctl.keys ==> HasKey(s'.pending, k) || k in s'.queue)
            && (|s'.pending| == c.slots || s'.queue == [])
  {
    FillKeeps(c, s.(queue := Absent(s.ctl.keys, s.pending), ctl := Idle, planned := (set k | k in s.ctl.keys),
                    consumed := {}, raised := false));
  }

  lemma OpenFacts(c: Config, s: State)
    requires ValidConfig(c) && Inv(c, s) && !s.closed
    ensures s.fdOpen && !s.pinned
  {}

  lemma CloseEndFacts(c: Config, s: State)
    requires ValidConfig(c) && Inv(c, s) && s.ctl == CloseLoop([])
    ensures s.closed && s.queue == [] && s.active == 0 && (s.staging != 0 <==> s.pending != [])
    ensures !s.pinned ==> s.pending == []
  {
    LeakCheck(c, s);
  }

  class AsyncExpertStore {
    const config: Config
    var pending: seq<Ticket>
    var queue: seq<Key>
    var staging: int
    var active: int
    var closed: bool
    var fdOpen: bool
    ghost var ctl: Control
    ghost var planned: set<Key>
    ghost var consumed: set<Key>
    ghost var raised: bool
    ghost var pinned: bool
    ghost var leaked: bool

    ghost function View(): State
      reads this
    {
      State(pending, queue, staging, active, closed, fdOpen, ctl, planned, consumed, raised, pinned, leaked)
    }

    /** The object is in a state that some run of the machine reaches. */
    ghost predicate Valid()
      reads this
    {
      ValidConfig(config) && Reachable(config, View())
    }

    constructor (c: Config)
      requires ValidConfig(c)
      ensures Valid() && config == c && View() == Init
    {
      config := c;
      pending, queue, staging, active, closed, fdOpen := [], [], 0, 0, false, true;
      ctl, planned, consumed, raised, pinned, leaked := Idle, {}, {}, false, false, false;
      new;
      assert CanRun(c, Init, []) && After(c, Init, []) == View();
    }

    /** `_submit`; its guard refuses a third record and a duplicate. */
    method Submit(key: Key, lease: Lease, cancel: CancelEvent) returns (ok: bool)
      modifies this`pending
      ensures ok <==> old(|pending| < config.slots && !HasKey(pending, key))
      ensures ok ==> View() == AsyncStore.Submit(old(View()), key, lease, cancel)
      ensures !ok ==> pending == old(pending)
    {
      ok := |pending| < config.slots && !HasKey(pending, key);
      if ok { pending := pending + [Ticket(key, Waiting, false, cancel, lease, false)]; }
    }

    /** `_fill`: the loop computes the specification's `Fill`. */
    method Fill()
      modifies this`pending, this`queue
      ensures View() == AsyncStore.Fill(config, old(View()))
    {
      while queue != [] && |pending| < config.slots && !closed
        invariant AsyncStore.Fill(config, View()) == AsyncStore.Fill(config, old(View()))
        decreases |queue|
      {
        var key := queue[0];
        queue := queue[1..];
        if !HasKey(pending, key) { var _ := Submit(key, Free, NoEvent); }
      }
    }

    /** One step of a fetch thread, while another thread may own the control lock. */
    method BackgroundFetch(i: nat, f: FetchStep)
      requires Valid() && Enabled(config, View(), Worker(i, f))
      modifies this`pending, this`staging, this`active
      ensures Valid() && View() == Step(config, old(View()), Worker(i, f))
    {
      hide Inv, Reachable, FetchPhase, Step, Enabled, CanFetch, Fetch;
      ghost var before := View();
      FetchReady(config, before, i, f);
      FetchInPlace(i, f);
      Took(config, before, Worker(i, f), View());
    }

    method FetchInPlace(i: nat, f: FetchStep)
      requires i < |pending| && pending[i].key in config.records
               && CanFetch(pending[i], config.records[pending[i].key].bytes, f)
      modifies this`pending, this`staging, this`active
      ensures View() == Fetch(config, old(View()), i, f)
    {
      hide FetchPhase;
      var t := pending[i];
      var t' := t.(phase := FetchPhase(config, t, f));
      pending := pending[i := t'];
      staging := staging + (if f.Map? && t'.phase.Reading? then config.records[t.key].bytes else 0)
                 - (if f.Unmap? then |t.phase.held| else 0);
      active := active + (if f.Start? then 1 else 0) - (if f.Finish? || t'.phase.Done? then 1 else 0);
    }

    /** One step of a consumer. */
    method BackgroundUse(i: nat, u: UserStep)
      requires Valid() && Enabled(config, View(), Consumer(i, u))
      modifies this`pending
      ensures Valid() && View() == Step(config, old(View()), Consumer(i, u))
    {
      hide Inv, Reachable;
      ghost var before := View();
      pending := pending[i := Use(pending[i], u)];
      Took(config, before, Consumer(i, u), View());
    }

    /** A fetch thread or a consumer could take this step now. */
    predicate CanHappen(l: Label)
      reads this
      ensures CanHappen(l) <==> (l.Worker? || l.Consumer?) && Enabled(config, View(), l)
    {
      match l
      case Worker(i, f) =>
        i < |pending| && pending[i].key in config.records
          && CanFetch(pending[i], config.records[pending[i].key].bytes, f)
      case Consumer(i, u) => i < |pending| && CanUse(pending[i], u)
      case _ => false
    }

    ghost predicate VictimDone()
      reads this
    {
      ctl.Discard? && HasKey(pending, ctl.victim) && pending[IndexOf(pending, ctl.victim)].phase.Finished()
    }

    /** What waiting under the control lock cannot change. */
    twostate predicate OnlyBackground()
      reads this
    {
      && View() == old(View()).(pending := pending, staging := staging, active := active)
      && Keys(pending) == old(Keys(pending)) && ClaimedKeys(pending) == old(ClaimedKeys(pending))
      && (old(NoneClaimed(View()) && NoViews(View())) ==> NoneClaimed(View()) && NoViews(View()))
    }

    lemma BackgroundFrame(s: State, l: Label)
      requires ValidConfig(config) && Inv(config, s) && Enabled(config, s, l) && (l.Worker? || l.Consumer?)
      ensures var s' := Step(config, s, l);
              && s' == s.(pending := s'.pending, staging := s'.staging, active := s'.active)
              && Keys(s'.pending) == Keys(s.pending) && ClaimedKeys(s'.pending) == ClaimedKeys(s.pending)
              && (forall j :: 0 <= j < |s.pending| && j != l.i ==> s'.pending[j] == s.pending[j])
              && (l.Worker? ==> s'.pending[l.i] == s.pending[l.i].(phase := FetchPhase(config, s.pending[l.i], l.f)))
              && (NoneClaimed(s) && NoViews(s) ==> NoneClaimed(s') && NoViews(s'))
    {
      var i := l.i;
      var s' := Step(config, s, l);
      ReplaceKeepsKeys(s.pending, i, s'.pending[i]);
      ReplaceKeepsClaims(s.pending, i, s'.pending[i]);
      assert TicketOk(config, s.pending[i]);
    }

    /** Any number of steps of any fetch threads and consumers. */
    method Interleave()
      requires Valid() && ctl.Discard?
      modifies this`pending, this`staging, this`active
      ensures Valid() && OnlyBackground()
    {
      hide Inv, SlotsOk, QueueOk, ControlOk, Reachable, FetchPhase, Step, Enabled, CanFetch, NoViews, NoneClaimed,
           Fetch;
      var noise: nat := *;
      while noise > 0
        invariant Valid() && OnlyBackground()
      {
        var l: Label := *;
        if CanHappen(l) {
          ReachableInv(config, View());
          BackgroundFrame(View(), l);
          if l.Worker? { BackgroundFetch(l.i, l.f); } else { BackgroundUse(l.i, l.u); }
        }
        noise := noise - 1;
      }
    }

    /** What a fetch thread that has not finished does next, once it is told to stop. */
    function Unwind(t: Ticket): (f: FetchStep)
      requires t.key in config.records && !t.phase.Finished()
      ensures CanFetch(t, config.records[t.key].bytes, f) && !f.Retry?
    {
      match t.phase
      case Waiting => Start
      case Entered => Map(true)
      case Reading(_, got) => if got < config.records[t.key].bytes then Chunk(0) else Verify
      case Unwinding(_, held) => if held != [] then Unmap else Finish
    }

    /** `ticket.future.result()`: steps of any threads, and then the ticket has finished. */
    method Await(victim: Key)
      requires Valid() && ctl.Discard? && ctl.victim == victim
      modifies this`pending, this`staging, this`active
      ensures Valid() && VictimDone() && OnlyBackground()
    {
      hide Inv, SlotsOk, QueueOk, ControlOk, Reachable, FetchPhase, Step, CanFetch, NoViews, NoneClaimed, Unwind;
      Interleave();
      ReachableInv(config, View());
      VictimIsUnclaimed(config, View());
      var i := IndexOf(pending, victim);
      while !pending[i].phase.Finished()
        invariant Valid() && OnlyBackground() && i < |pending| && pending[i].key == victim
        decreases TicketWork(config, pending[i])
      {
        ReachableInv(config, View());
        TicketFacts(config, View(), i);
        var f := Unwind(pending[i]);
        FetchWork(config, pending[i], f);
        BackgroundFrame(View(), Worker(i, f));
        BackgroundFetch(i, f);
      }
      ReachableInv(config, View());
      TicketFacts(config, View(), i);
    }

    /** After `_discard`: the ticket is gone, or kept because a consumer still views its buffer. */
    ghost predicate Discarded(before: State, ok: bool)
      reads this
    {
      && Valid0(before) && before.ctl.Discard? && HasKey(before.pending, before.ctl.victim)
      && var j := IndexOf(before.pending, before.ctl.victim);
      && var t := before.pending[j];
      && t.phase.Finished()
      && ok == !Raises(t)
      && View() == if t.phase.Done? && t.exported then before
                   else before.(pending := Without(before.pending, j), staging := before.staging - Owned(t))
    }

    ghost predicate Valid0(s: State)
    {
      ValidConfig(config) && Reachable(config, s)
    }

    /** The ticket of a discard when its fetch had ended. */
    ghost function Fate(before: State): Ticket
      requires before.ctl.Discard? && HasKey(before.pending, before.ctl.victim)
    {
      before.pending[IndexOf(before.pending, before.ctl.victim)]
    }

    lemma DiscardedClaims(before: State, ok: bool)
      requires Discarded(before, ok)
      ensures ClaimedKeys(pending) == ClaimedKeys(before.pending)
    {
      ReachableInv(config, before);
      VictimIsUnclaimed(config, before);
      WithoutKeepsClaims(before.pending, IndexOf(before.pending, before.ctl.victim));
    }

    method StopFetch(i: nat, ghost next: Next, ghost l: Label)
      requires Valid() && i < |pending| && !pending[i].Claimed()
      requires Enabled(config, View(), l) && Step(config, View(), l) == BeginDiscard(View(), i, next)
      modifies this`pending, this`ctl
      ensures Valid() && View() == BeginDiscard(old(View()), i, next)
    {
      hide Inv, SlotsOk, QueueOk, ControlOk, Reachable, FetchPhase, Step, Enabled, CanFetch;
      ghost var start := View();
      ctl := AsyncStore.Discard(pending[i].key, next);
      pending := pending[i := Mark(pending[i])];
      Took(config, start, l, View());
    }

    /** `_discard`: stop the fetch, wait for it, give its buffer back, forget the ticket. */
    method Discard(i: nat, ghost next: Next, ghost l: Label) returns (ok: bool, pin: bool, ghost before: State)
      requires Valid() && i < |pending| && !pending[i].Claimed()
      requires Enabled(config, View(), l) && Step(config, View(), l) == BeginDiscard(View(), i, next)
      modifies this
      ensures Discarded(before, ok) && before.ctl == AsyncStore.Discard(old(pending[i].key), next)
      ensures pin <==> View() == before
      ensures pin ==> !ok
      ensures before == old(View()).(pending := before.pending, staging := before.staging, active := before.active,
                                     ctl := before.ctl)
      ensures Keys(before.pending) == old(Keys(pending)) && ClaimedKeys(before.pending) == old(ClaimedKeys(pending))
      ensures old(NoneClaimed(View()) && NoViews(View())) ==> NoneClaimed(before) && NoViews(before)
    {
      hide Inv, SlotsOk, QueueOk, ControlOk, Reachable, FetchPhase, Step, Enabled, CanFetch, NoViews, NoneClaimed;
      var key := pending[i].key;
      MarkFrame(View(), i, next);
      StopFetch(i, next, l);
      Await(key);
      before := View();
      ok, pin := Forget(key);
    }

    /** The outcome of the awaited fetch: the buffer is given back, unless a consumer still views it. */
    method Forget(key: Key) returns (ok: bool, pin: bool)
      requires Valid() && VictimDone() && ctl.victim == key
      modifies this`pending, this`staging
      ensures Discarded(old(View()), ok)
      ensures (pin <==> View() == old(View())) && (pin ==> !ok)
    {
      hide Inv, Reachable;
      var j := IndexOf(pending, key);
      var t := pending[j];
      pin := t.phase.Done? && t.exported;
      ok := !pin && !(t.phase.Failed? && t.phase.fault.Failure?);
      if !pin {
        staging := staging - Owned(t);
        pending := Without(pending, j);
      }
    }

    /** What the discarding operation still has to do, in terms of the object as `_discard` left it. */
    lemma Settled(before: State, ok: bool, pin: bool)
      requires Discarded(before, ok) && (pin <==> View() == before)
      ensures Valid0(before) && Enabled(config, before, Resolve)
      ensures Step(config, before, Resolve) ==
              if ok then Continue(View(), before.ctl.victim, before.ctl.next)
              else Raise(View().(pinned := View().pinned || (pin && before.ctl.next.CloseRest?)), before.ctl.next)
    {
      hide Step, Inv, Reachable, Continue, Raise, Enabled;
      Resolved(config, before);
      var j := IndexOf(before.pending, before.ctl.victim);
      assert |Without(before.pending, j)| < |before.pending|;
    }

    /** One turn of the loop in `plan`: discard the ticket unless the new plan wants it or a reader leases it. */
    method PlanVisit(ks: seq<Key>, todo: seq<Key>) returns (ok: bool, ghost fates: seq<Ticket>)
      requires Valid() && ctl == PlanLoop(ks, todo) && todo != []
      modifies this
      ensures Valid() && (if ok then ctl == PlanLoop(ks, todo[1..]) else ctl.Idle?)
      ensures queue == old(queue) && planned == old(planned) && ClaimedKeys(pending) == old(ClaimedKeys(pending))
      ensures Discards(if todo[0] !in ks && todo[0] !in old(ClaimedKeys(pending)) then [todo[0]] else [], fates, ok)
    {
      hide Inv, SlotsOk, QueueOk, ControlOk, Reachable, Step, AsyncStore.Fill, NoViews, NoneClaimed, ClaimedKeys,
           Discards;
      ghost var s := View();
      ReachableInv(config, s);
      StepIs(config, s, PlanTurn);
      TodoFacts(config, s, todo);
      var i := IndexOf(pending, todo[0]);
      ClaimedIs(config, s, i);
      if todo[0] !in ks && !pending[i].Claimed() {
        ghost var fate;
        ok, fate := PlanDiscard(i, ks, todo[1..]);
        fates := [fate];
        OneDiscard(fate);
      } else {
        ok, fates := true, [];
        NoDiscard();
        ctl := PlanLoop(ks, todo[1..]);
        Took(config, s, PlanTurn, View());
      }
    }

    method PlanDiscard(i: nat, ks: seq<Key>, rest: seq<Key>) returns (ok: bool, ghost fate: Ticket)
      requires Valid() && i < |pending| && !pending[i].Claimed() && Enabled(config, View(), PlanTurn)
      requires Step(config, View(), PlanTurn) == BeginDiscard(View(), i, PlanRest(ks, rest))
      modifies this
      ensures Valid() && (if ok then ctl == PlanLoop(ks, rest) else ctl.Idle?)
      ensures queue == old(queue) && planned == old(planned) && ClaimedKeys(pending) == old(ClaimedKeys(pending))
      ensures fate.key == old(pending[i].key) && fate.phase.Finished() && (ok <==> !Raises(fate))
    {
      hide Inv, Reachable, Step, Enabled, NoViews, NoneClaimed, ClaimedKeys;
      ghost var before;
      var pin;
      ok, pin, before := Discard(i, PlanRest(ks, rest), PlanTurn);
      Settled(before, ok, pin);
      DiscardedClaims(before, ok);
      fate := Fate(before);
      PlanGoesOn(ks, rest, ok, pin, before);
    }

    /** `plan` goes on with the next ticket, or lets the error out. */
    method PlanGoesOn(ks: seq<Key>, rest: seq<Key>, ok: bool, ghost pin: bool, ghost before: State)
      requires Valid0(before) && Enabled(config, before, Resolve) && before.ctl.next == PlanRest(ks, rest)
      requires Step(config, before, Resolve) ==
               if ok then Continue(View(), before.ctl.victim, before.ctl.next)
               else Raise(View().(pinned := View().pinned || (pin && before.ctl.next.CloseRest?)), before.ctl.next)
      modifies this`raised, this`ctl
      ensures Valid() && if ok then ctl == PlanLoop(ks, rest) else ctl.Idle?
    {
      hide Inv, Reachable, Step, Enabled;
      if ok { ctl := PlanLoop(ks, rest); } else { raised, ctl := true, Idle; }
      Took(config, before, Resolve, View());
    }

    /** The end of `plan`: the new queue, and as much of it as fits in the slots. */
    method PlanSubmit(ks: seq<Key>)
      requires Valid() && ctl == PlanLoop(ks, [])
      modifies this
      ensures Valid() && View() == PlanNext(config, old(View()))
    {
      hide Inv, Reachable, Step, PlanNext;
      ghost var s := View();
      ReachableInv(config, s);
      StepIs(config, s, PlanTurn);
      Requeue(ks);
      Took(config, s, PlanTurn, View());
    }

    method Requeue(ks: seq<Key>)
      requires ctl == PlanLoop(ks, [])
      modifies this
      ensures View() == PlanNext(config, old(View()))
    {
      hide AsyncStore.Fill, Absent;
      queue := Absent(ks, pending);
      ctl, planned, consumed, raised := Idle, (set k | k in ks), {}, false;
      Fill();
    }

    /** `plan`: drop what the new plan does not want and nobody leases, then queue and submit the rest in order. */
    method Plan(keys: seq<Key>) returns (r: Outcome, ghost fates: seq<Ticket>)
      requires Valid() && ctl.Idle?
      modifies this
      ensures Valid() && ctl.Idle?
      ensures r in {Ok, Invalid, StoreClosed, DiscardRaised}
      ensures r == Invalid <==> BadPlan(config, Dedup(keys))
      ensures r == StoreClosed <==> !BadPlan(config, Dedup(keys)) && old(closed || !fdOpen)
      ensures r == Invalid || r == StoreClosed ==> View() == old(View())
      ensures r == Ok || r == DiscardRaised ==> Discards(Victims(old(pending), Dedup(keys)), fates, r == Ok)
      ensures r == DiscardRaised ==> queue == old(queue) && planned == old(planned)
      ensures r == Ok ==> planned == set k | k in keys
      ensures r == Ok ==> forall k :: k in keys ==> HasKey(pending, k) || k in queue
      ensures r == Ok ==> |pending| == config.slots || queue == []
    {
      hide Inv, Reachable, AsyncStore.Fill, Dedup, Victims, ClaimedKeys, Discards, Step;
      var ks := Dedup(keys);
      fates := [];
      if |ks| > MAX_PLAN || exists k :: k in ks && k !in config.records { r := Invalid; return; }
      if closed || !fdOpen { r := StoreClosed; return; }
      var ok;
      ok, fates := PlanDiscards(ks, keys);
      if !ok { r := DiscardRaised; return; }
      ReachableInv(config, View());
      PlanEndFacts(config, View());
      PlanSubmit(ks);
      r := Ok;
    }

    /** The loop of `plan` over the tickets that were pending when it began. */
    method PlanDiscards(ks: seq<Key>, keys: seq<Key>) returns (ok: bool, ghost fates: seq<Ticket>)
      requires Valid() && ctl.Idle? && ks == Dedup(keys) && !BadPlan(config, ks) && !closed && fdOpen
      modifies this
      ensures Valid() && (if ok then ctl == PlanLoop(ks, []) else ctl.Idle?)
      ensures queue == old(queue) && planned == old(planned)
      ensures Discards(Victims(old(pending), ks), fates, ok)
    {
      hide Inv, SlotsOk, QueueOk, ControlOk, Reachable, FetchPhase, Step, ResolveDiscard, AsyncStore.Fill, CanFetch,
           NoViews, NoneClaimed, PlanNext, ClaimedKeys, Dedup, Victims, Discards;
      ghost var start := View();
      ReachableInv(config, start);
      StepIs(config, start, PlanCall(keys));
      var snapshot := Keys(pending);
      ctl := PlanLoop(ks, snapshot);
      Took(config, start, PlanCall(keys), View());
      var n := 0;
      fates := [];
      assert start.pending[..0] == [];
      NoDiscard();
      while n < |snapshot|
        invariant n <= |snapshot| && Valid() && ctl == PlanLoop(ks, snapshot[n..])
        invariant queue == old(queue) && planned == old(planned) && ClaimedKeys(pending) == ClaimedKeys(start.pending)
        invariant Discards(Victims(start.pending[..n], ks), fates, true)
      {
        assert snapshot[n..][1..] == snapshot[n + 1..];
        ghost var more;
        ok, more := PlanVisit(ks, snapshot[n..]);
        ClaimedIs(config, start, n);
        NextDiscard(start.pending, ks, n, fates, more, ok);
        fates := fates + more;
        if !ok { return; }
        n := n + 1;
      }
      assert snapshot[n..] == [] && start.pending[..n] == start.pending;
      ok := true;
    }

    lemma NextDiscard(ts: seq<Ticket>, ks: seq<Key>, n: nat, fates: seq<Ticket>, more: seq<Ticket>, ok: bool)
      requires n < |ts| && Discards(Victims(ts[..n], ks), fates, true)
      requires Discards(if ts[n].key !in ks && !ts[n].Claimed() then [ts[n].key] else [], more, ok)
      ensures Discards(Victims(ts[..n + 1], ks), fates + more, ok)
      ensures !ok ==> Discards(Victims(ts, ks), fates + more, ok)
    {
      assert ts[..n + 1][..n] == ts[..n];
      assert Keys(fates + more) == Keys(fates) + Keys(more);
      VictimsBefore(ts, ks, n + 1);
      assert |more| <= 1;
      forall i | 0 <= i < |fates + more| ensures Raises((fates + more)[i]) ==> i == |fates + more| - 1 {
        if i < |fates| { assert !Raises(fates[i]); } else { assert (fates + more)[i] == more[i - |fates|]; }
      }
      if ok { assert forall i :: 0 <= i < |fates + more| ==> !Raises((fates + more)[i]); }
      else {
        var i :| 0 <= i < |more| && Raises(more[i]);
        assert (fates + more)[|fates| + i] == more[i];
      }
    }

    /** Make room for a demand read at the expense of ticket `v`, which goes back to the head of the queue. */
    method Displace(v: nat, key: Key, cancel: CancelEvent) returns (ok: bool, ghost fate: Ticket)
      requires Valid() && ctl.Idle? && v < |pending|
               && Step(config, View(), Label.ReadEnter(key, cancel)) == BeginDiscard(View(), v, Demand(key, cancel))
      requires !pending[v].Claimed()
      modifies this
      ensures Valid() && ctl.Idle?
      ensures ok ==> |pending| > 0 && pending[|pending| - 1] == Ticket(key, Waiting, false, cancel, Awaiting, false)
      ensures ok ==> queue == Drop([old(pending[v].key)] + old(queue), key)
      ensures fate.key == old(pending[v].key) && fate.phase.Finished() && (ok <==> !Raises(fate))
      ensures !ok ==> queue == old(queue)
    {
      hide Inv, SlotsOk, QueueOk, ControlOk, Reachable, FetchPhase, Step, ResolveDiscard, AsyncStore.Fill, CanFetch,
           NoViews, NoneClaimed;
      var victim := pending[v].key;
      ghost var before;
      var pin;
      ok, pin, before := Discard(v, Demand(key, cancel), Label.ReadEnter(key, cancel));
      fate := Fate(before);
      Settled(before, ok, pin);
      if !ok {
        raised, ctl := true, Idle;
        Took(config, before, Resolve, View());
        return;
      }
      SubmitDisplacing(victim, key, cancel, before);
    }

    method SubmitDisplacing(victim: Key, key: Key, cancel: CancelEvent, ghost before: State)
      requires Discarded(before, true) && before.ctl == AsyncStore.Discard(victim, Demand(key, cancel))
      modifies this
      ensures Valid() && ctl.Idle?
      ensures |pending| > 0 && pending[|pending| - 1] == Ticket(key, Waiting, false, cancel, Awaiting, false)
      ensures queue == Drop([victim] + before.queue, key)
    {
      hide Inv, SlotsOk, QueueOk, ControlOk, Reachable, FetchPhase, Step, ResolveDiscard, AsyncStore.Fill, CanFetch;
      Resolved(config, before);
      DemandHasRoom(before);
      queue := [victim] + queue;
      queue := Drop(queue, key);
      ctl := Idle;
      var submitted := Submit(key, Awaiting, cancel);
      assert submitted;
      Took(config, before, Resolve, View());
    }

    /** After a displacement there is a free slot and the key is still absent: `_submit` cannot refuse. */
    lemma DemandHasRoom(before: State)
      requires Valid0(before) && Enabled(config, before, Resolve) && before.ctl.next.Demand?
      ensures var j := IndexOf(before.pending, before.ctl.victim);
              |Without(before.pending, j)| < config.slots && !HasKey(Without(before.pending, j), before.ctl.next.key)
    {
      ReachableInv(config, before);
      WithoutKeys(before.pending, IndexOf(before.pending, before.ctl.victim));
    }

    /** Nothing speaks against the read before the slots are looked at. */
    ghost predicate Admits(key: Key, cancel: CancelEvent)
      reads this
    {
      !closed && fdOpen && key in config.records && !cancel.Set?
    }

    /** The ticket that a demand read displaces: the newest that nobody leases, if the read needs its slot. */
    ghost function Displaced(key: Key, cancel: CancelEvent): seq<Key>
      reads this
    {
      var v := LastUnclaimed(pending);
      if Admits(key, cancel) && !HasKey(pending, key) && |pending| >= config.slots && v < |pending|
      then [pending[v].key] else []
    }

    /** Read-enter: the ticket of `key` is leased on return, fetched on demand if it had to be. */
    method ReadEnter(key: Key, cancel: CancelEvent) returns (r: Outcome, ghost fates: seq<Ticket>)
      requires Valid() && ctl.Idle?
      modifies this
      ensures Valid() && ctl.Idle?
      ensures r in {Ok, StoreClosed, Invalid, ReadCancelled, Exhausted, AlreadyLeased, DiscardRaised}
      ensures r == StoreClosed <==> old(closed || !fdOpen)
      ensures r == Invalid <==> !old(closed || !fdOpen) && key !in config.records
      ensures r == ReadCancelled <==> !old(closed || !fdOpen) && key in config.records && cancel.Set?
      ensures r == AlreadyLeased <==>
                old(Admits(key, cancel) && HasKey(pending, key) && pending[IndexOf(pending, key)].Claimed())
      ensures r == Exhausted <==>
                old(Admits(key, cancel) && !HasKey(pending, key) && |pending| >= config.slots
                    && forall i :: 0 <= i < |pending| ==> pending[i].Claimed())
      ensures Discards(old(Displaced(key, cancel)), fates, r != DiscardRaised)
      ensures r !in {Ok, DiscardRaised} ==> View() == old(View())
      ensures r == DiscardRaised ==> queue == old(queue)
      ensures r == Ok ==> HasReader(pending, key, cancel)
    {
      hide Inv, Reachable, Step, AsyncStore.Fill, NoViews, NoneClaimed, Discards;
      NoDiscard();
      fates := [];
      if closed || !fdOpen { r := StoreClosed; return; }
      if key !in config.records { r := Invalid; return; }
      if cancel.Set? { r := ReadCancelled; return; }
      var i := IndexOf(pending, key);
      if i < |pending| {
        if pending[i].Claimed() { r := AlreadyLeased; return; }
        ghost var s := View();
        StepIs(config, s, Label.ReadEnter(key, cancel));
        pending := pending[i := pending[i].(lease := Awaiting, cancel := cancel)];
        Took(config, s, Label.ReadEnter(key, cancel), View());
        assert pending[i].key == key;
        r := Ok;
      } else {
        r, fates := ReadDemand(key, cancel);
      }
    }

    /** A read of a record that is not pending: a free slot, or the slot of the newest ticket that nobody leases. */
    method ReadDemand(key: Key, cancel: CancelEvent) returns (r: Outcome, ghost fates: seq<Ticket>)
      requires Valid() && ctl.Idle? && Admits(key, cancel) && !HasKey(pending, key)
      modifies this
      ensures Valid() && ctl.Idle? && r in {Ok, Exhausted, DiscardRaised}
      ensures r == Exhausted
              <==> old(|pending| >= config.slots && forall i :: 0 <= i < |pending| ==> pending[i].Claimed())
      ensures Discards(old(Displaced(key, cancel)), fates, r != DiscardRaised)
      ensures r == Exhausted ==> View() == old(View())
      ensures r == DiscardRaised ==> queue == old(queue)
      ensures r == Ok ==> HasReader(pending, key, cancel)
    {
      hide Inv, Reachable, Step, AsyncStore.Fill, NoViews, NoneClaimed, Discards;
      ghost var s := View();
      StepIs(config, s, Label.ReadEnter(key, cancel));
      NoDiscard();
      fates := [];
      if |pending| >= config.slots {
        var v := LastUnclaimed(pending);
        if v == |pending| { r := Exhausted; return; }
        ghost var fate;
        var ok;
        ok, fate := Displace(v, key, cancel);
        fates := [fate];
        OneDiscard(fate);
        if !ok { r := DiscardRaised; return; }
      } else {
        queue := Drop(queue, key);
        var submitted := Submit(key, Awaiting, cancel);
        Took(config, s, Label.ReadEnter(key, cancel), View());
      }
      assert pending[|pending| - 1].key == key;
      r := Ok;
    }

    /** Read-exit: give the buffer back, free the slot and start queued work; refused while a view is exported. */
    method ReadExit(i: nat) returns (r: Outcome)
      requires Valid() && ctl.Idle? && i < |pending| && CanExit(pending[i])
      modifies this
      ensures Valid() && ctl.Idle?
      ensures r == ViewRetained <==> old(pending[i].phase.Done? && pending[i].exported)
      ensures r == ViewRetained ==> View() == old(View()).(pending := old(pending[i := pending[i].(lease := Free)]))
      ensures r != ViewRetained ==>
                r == Ok && staging == old(staging) - old(Owned(pending[i])) && !HasKey(pending, old(pending[i].key))
      ensures r != ViewRetained ==> Without(old(pending), i) <= pending && (|pending| == config.slots || queue == [])
    {
      hide Inv, Reachable, Step, AsyncStore.Fill, ExitRead;
      ghost var s := View();
      ReachableInv(config, s);
      StepIs(config, s, Label.ReadExit(i));
      ExitFacts(config, s, i);
      r := Leave(i);
      Took(config, s, Label.ReadExit(i), View());
    }

    method Leave(i: nat) returns (r: Outcome)
      requires i < |pending|
      modifies this`pending, this`queue, this`staging, this`consumed
      ensures View() == ExitRead(config, old(View()), i)
      ensures r == if old(pending[i].phase.Done? && pending[i].exported) then ViewRetained else Ok
    {
      hide AsyncStore.Fill;
      var t := pending[i];
      if t.phase.Done? && t.exported {
        pending := pending[i := t.(lease := Free)];
        r := ViewRetained;
      } else {
        staging := staging - Owned(t);
        pending := Without(pending, i);
        consumed := consumed + {t.key};
        Fill();
        r := Ok;
      }
    }

    /** One turn of the loop in `close`: an error is collected, and the loop goes on. */
    method CloseVisit(todo: seq<Key>)
      requires Valid() && ctl == CloseLoop(todo) && todo != []
      modifies this
      ensures Valid() && ctl == CloseLoop(todo[1..])
      ensures old(NoneClaimed(View()) && NoViews(View()) && !pinned) ==>
                NoneClaimed(View()) && NoViews(View()) && !pinned
    {
      hide Inv, SlotsOk, QueueOk, ControlOk, Reachable, FetchPhase, Step, ResolveDiscard, AsyncStore.Fill, CanFetch,
           NoViews, NoneClaimed;
      ghost var s := View();
      ReachableInv(config, s);
      StepIs(config, s, CloseTurn);
      TodoFacts(config, s, todo);
      var i := IndexOf(pending, todo[0]);
      var ok, pin, before := Discard(i, CloseRest(todo[1..]), CloseTurn);
      Settled(before, ok, pin);
      WithoutFrame(before, IndexOf(before.pending, before.ctl.victim), View());
      CloseGoesOn(todo[1..], ok, pin, before);
      WithoutFrame(before, IndexOf(before.pending, before.ctl.victim), View());
    }

    /** `close` collects the error, if there was one. */
    method CloseGoesOn(rest: seq<Key>, ok: bool, pin: bool, ghost before: State)
      requires Valid0(before) && Enabled(config, before, Resolve) && before.ctl.next == CloseRest(rest) && (pin ==> !ok)
      requires Step(config, before, Resolve) ==
               if ok then Continue(View(), before.ctl.victim, before.ctl.next)
               else Raise(View().(pinned := View().pinned || (pin && before.ctl.next.CloseRest?)), before.ctl.next)
      modifies this`raised, this`pinned, this`ctl
      ensures Valid() && ctl == CloseLoop(rest) && pinned == (old(pinned) || pin)
    {
      hide Inv, Reachable, Step, Enabled;
      raised, pinned := raised || !ok, pinned || pin;
      ctl := CloseLoop(rest);
      Took(config, before, Resolve, View());
    }

    /** `close`: refuse while a ticket is leased; otherwise discard every ticket and close the file. */
    method Close() returns (r: Outcome)
      requires Valid() && ctl.Idle?
      modifies this
      ensures Valid() && ctl.Idle?
      ensures r == Leased <==> old(!closed && !NoneClaimed(View()))
      ensures r == Leased || old(closed) ==> View() == old(View())
      ensures r != Leased && !old(closed) ==> r == Ok && closed && !fdOpen && queue == [] && active == 0
      ensures r == Ok && !old(closed) && old(NoViews(View())) ==> pending == [] && staging == 0 && !leaked
    {
      hide Inv, Reachable, Step;
      if closed { return Ok; }
      if exists i :: 0 <= i < |pending| && pending[i].Claimed() { return Leased; }
      ghost var s := View();
      ReachableInv(config, s);
      OpenFacts(config, s);
      StepIs(config, s, CloseCall);
      var snapshot := Keys(pending);
      closed := true;
      queue := [];
      ctl := CloseLoop(snapshot);
      Took(config, s, CloseCall, View());
      DiscardAll(snapshot);
      CloseFile();
      r := Ok;
    }

    /** The loop of `close` over the tickets that were pending when it began. */
    method DiscardAll(snapshot: seq<Key>)
      requires Valid() && ctl == CloseLoop(snapshot)
      modifies this
      ensures Valid() && ctl == CloseLoop([])
      ensures old(NoneClaimed(View()) && NoViews(View()) && !pinned) ==> !pinned
    {
      hide Inv, Reachable, Step, NoneClaimed, NoViews;
      ghost var clean := NoneClaimed(View()) && NoViews(View()) && !pinned;
      var n := 0;
      while n < |snapshot|
        invariant n <= |snapshot| && Valid() && ctl == CloseLoop(snapshot[n..])
        invariant clean ==> NoneClaimed(View()) && NoViews(View()) && !pinned
      {
        assert snapshot[n..][1..] == snapshot[n + 1..];
        CloseVisit(snapshot[n..]);
        n := n + 1;
      }
      assert snapshot[n..] == [];
    }

    /** The end of `close`: the file is closed and the books are checked. */
    method CloseFile()
      requires Valid() && ctl == CloseLoop([])
      modifies this`fdOpen, this`ctl, this`leaked
      ensures Valid() && ctl.Idle? && closed && !fdOpen && queue == [] && active == 0 && (leaked <==> staging != 0)
      ensures !pinned ==> pending == [] && staging == 0
    {
      hide Inv, Reachable, Step;
      ghost var last := View();
      ReachableInv(config, last);
      StepIs(config, last, CloseTurn);
      CloseEndFacts(config, last);
      fdOpen := false;
      ctl, leaked := Idle, staging != 0 || active != 0;
      Took(config, last, CloseTurn, View());
    }
  }
}
