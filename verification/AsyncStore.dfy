/**
 The bounded expert prefetcher as a state machine (async_store.py).

 The `control` lock serializes plan, read-enter, read-exit and close, but a control operation that discards a
 ticket waits for that ticket's fetch thread, and fetch threads and consumers keep running meanwhile.  `Control`
 is therefore a program counter for the thread that owns the lock, and every label below is one atomic step.
 */
module AsyncStore {
  import opened Bytes
  import opened Sequences
  import opened Sums

  const MAX_PLAN := 384

  type Key = string

  datatype Record = Record(offset: nat, bytes: nat, digest: int)

  /** The immutable surroundings: manifest, bank file, slot count and the record hash. */
  datatype Config = Config(records: map<Key, Record>, file: seq<Byte>, slots: nat, direct: bool,
                           sha: seq<Byte> -> int)

  ghost predicate ValidConfig(c: Config) {
    && 1 <= c.slots <= 2
    && forall k :: k in c.records ==> 0 < c.records[k].bytes && c.records[k].offset + c.records[k].bytes <= |c.file|
  }

  function RecordBytes(c: Config, k: Key): (b: seq<Byte>)
    requires k in c.records && c.records[k].offset + c.records[k].bytes <= |c.file|
  {
    c.file[c.records[k].offset..c.records[k].offset + c.records[k].bytes]
  }

  /******* Tickets *******/

  datatype Fault = Interrupted | Failure

  /** Where the fetch thread of a ticket is; `Done`, `Failed` and `Dropped` are finished futures. */
  datatype Phase =
    | Waiting
    | Entered
    | Reading(buf: seq<Byte>, got: nat)
    | Unwinding(why: Fault, held: seq<Byte>)
    | Done(data: seq<Byte>)
    | Failed(fault: Fault)
    | Dropped
  {
    predicate Finished() { Done? || Failed? || Dropped? }
    predicate Running() { Entered? || Reading? || Unwinding? }
  }

  datatype CancelEvent = NoEvent | Clear | Set

  datatype Lease = Free | Awaiting | Holding

  datatype Ticket = Ticket(key: Key, phase: Phase, stop: bool, cancel: CancelEvent, lease: Lease, exported: bool) {
    predicate Cancelled() { stop || cancel.Set? }
    predicate Claimed() { !lease.Free? }
  }

  /** Staging memory a ticket owns right now. */
  function Owned(t: Ticket): (n: int)
    ensures n >= 0
  {
    match t.phase
    case Reading(buf, _) => |buf|
    case Unwinding(_, held) => |held|
    case Done(data) => |data|
    case _ => 0
  }

  function IsRunning(t: Ticket): int { if t.phase.Running() then 1 else 0 }

  /******* State *******/

  /** What the owner of the control lock does once the ticket it is discarding has finished. */
  datatype Next = PlanRest(keys: seq<Key>, rest: seq<Key>) | Demand(key: Key, cancel: CancelEvent)
    | CloseRest(left: seq<Key>)

  datatype Control =
    | Idle
    | PlanLoop(keys: seq<Key>, todo: seq<Key>)
    | CloseLoop(todo: seq<Key>)
    | Discard(victim: Key, next: Next)
  {
    predicate Closing() { CloseLoop? || (Discard? && next.CloseRest?) }
    predicate Planning() { PlanLoop? || (Discard? && next.PlanRest?) }
  }

  /**
   `planned`, `consumed` and `raised` record history: the keys of the latest completed plan, the keys whose read has
   exited since, and whether a discard has raised since.  `pinned` says that `close` met a buffer a consumer still
   views, and `leaked` is the outcome of its final check.
   */
  datatype State = State(pending: seq<Ticket>, queue: seq<Key>, staging: int, active: int, closed: bool, fdOpen: bool,
                         ctl: Control, planned: set<Key>, consumed: set<Key>, raised: bool, pinned: bool, leaked: bool)

  const Init: State := State([], [], 0, 0, false, true, Idle, {}, {}, false, false, false)

  function Keys(ts: seq<Ticket>): (ks: seq<Key>)
    ensures |ks| == |ts| && forall i :: 0 <= i < |ts| ==> ks[i] == ts[i].key
  {
    seq(|ts|, i requires 0 <= i < |ts| => ts[i].key)
  }

  predicate HasKey(ts: seq<Ticket>, key: Key) { key in Keys(ts) }

  /** Where `pending[key]` is, or `|pending|` when the dictionary does not hold it. */
  function IndexOf(ts: seq<Ticket>, key: Key): (i: nat)
    ensures i <= |ts|
    ensures i < |ts| <==> HasKey(ts, key)
    ensures i < |ts| ==> ts[i].key == key
  {
    IndexFrom(ts, key, 0)
  }

  function IndexFrom(ts: seq<Ticket>, key: Key, from: nat): (i: nat)
    requires from <= |ts|
    ensures from <= i <= |ts|
    ensures i < |ts| ==> ts[i].key == key
    ensures forall j :: from <= j < i ==> ts[j].key != key
    decreases |ts| - from
  {
    if from == |ts| || ts[from].key == key then from else IndexFrom(ts, key, from + 1)
  }

  function Without(ts: seq<Ticket>, i: nat): seq<Ticket>
    requires i < |ts|
  {
    ts[..i] + ts[i + 1..]
  }

  function Dedup(keys: seq<Key>): (r: seq<Key>)
    ensures forall k :: k in r <==> k in keys
    ensures Distinct(r)
  {
    if keys == [] then []
    else
      var front := Dedup(keys[..|keys| - 1]);
      var last := keys[|keys| - 1];
      assert keys == keys[..|keys| - 1] + [last];
      if last in front then front else front + [last]
  }

  function Drop(ks: seq<Key>, key: Key): (r: seq<Key>)
    ensures forall k :: k in r <==> k in ks && k != key
    ensures Distinct(ks) ==> Distinct(r)
  {
    if ks == [] then []
    else
      var rest := Drop(ks[1..], key);
      assert Distinct(ks) ==> Distinct(ks[1..]) && ks[0] !in ks[1..];
      assert forall k :: k in ks <==> k == ks[0] || k in ks[1..];
      if ks[0] == key then rest else [ks[0]] + rest
  }

  function Absent(ks: seq<Key>, ts: seq<Ticket>): (r: seq<Key>)
    ensures forall k :: k in r <==> k in ks && !HasKey(ts, k)
    ensures Distinct(ks) ==> Distinct(r)
  {
    if ks == [] then []
    else
      var rest := Absent(ks[1..], ts);
      assert Distinct(ks) ==> Distinct(ks[1..]) && ks[0] !in ks[1..];
      assert forall k :: k in ks <==> k == ks[0] || k in ks[1..];
      if HasKey(ts, ks[0]) then rest else [ks[0]] + rest
  }

  /** Index of the newest unclaimed ticket, or `|ts|` when every slot is leased. */
  function LastUnclaimed(ts: seq<Ticket>): (i: nat)
    ensures i <= |ts|
    ensures i < |ts| ==> !ts[i].Claimed() && forall j :: i < j < |ts| ==> ts[j].Claimed()
    ensures i == |ts| ==> forall j :: 0 <= j < |ts| ==> ts[j].Claimed()
  {
    if ts == [] then 0
    else
      var n := |ts| - 1;
      if !ts[n].Claimed() then n
      else
        var i := LastUnclaimed(ts[..n]);
        if i == n then |ts| else i
  }

  /******* Control steps *******/

  function Submit(s: State, key: Key, lease: Lease, cancel: CancelEvent): State {
    s.(pending := s.pending + [Ticket(key, Waiting, false, cancel, lease, false)])
  }

  function Fill(c: Config, s: State): State
    decreases |s.queue|
  {
    if s.queue != [] && |s.pending| < c.slots && !s.closed then
      var popped := s.(queue := s.queue[1..]);
      Fill(c, if HasKey(s.pending, s.queue[0]) then popped else Submit(popped, s.queue[0], Free, NoEvent))
    else s
  }

  /** `ticket.stop.set()` and `ticket.future.cancel()`, which only stops a future that has not started. */
  function Mark(t: Ticket): Ticket {
    t.(stop := true, phase := if t.phase.Waiting? then Dropped else t.phase)
  }

  function BeginDiscard(s: State, i: nat, next: Next): State
    requires i < |s.pending|
  {
    s.(pending := s.pending[i := Mark(s.pending[i])], ctl := Discard(s.pending[i].key, next))
  }

  predicate BadPlan(c: Config, keys: seq<Key>) {
    |keys| > MAX_PLAN || exists k :: k in keys && k !in c.records
  }

  function PlanStart(c: Config, s: State, keys: seq<Key>): State {
    if BadPlan(c, Dedup(keys)) || s.closed || !s.fdOpen then s
    else s.(ctl := PlanLoop(Dedup(keys), Keys(s.pending)))
  }

  function PlanNext(c: Config, s: State): State
    requires s.ctl.PlanLoop?
  {
    var PlanLoop(keys, todo) := s.ctl;
    if todo == [] then
      Fill(c, s.(queue := Absent(keys, s.pending), ctl := Idle, planned := (set k | k in keys), consumed := {},
                 raised := false))
    else
      var i := IndexOf(s.pending, todo[0]);
      if i < |s.pending| && todo[0] !in keys && !s.pending[i].Claimed()
      then BeginDiscard(s, i, PlanRest(keys, todo[1..]))
      else s.(ctl := PlanLoop(keys, todo[1..]))
  }

  function Claim(s: State, i: nat, cancel: CancelEvent): State
    requires i < |s.pending|
  {
    s.(pending := s.pending[i := s.pending[i].(lease := Awaiting, cancel := cancel)])
  }

  function SubmitDemand(s: State, key: Key, cancel: CancelEvent): State {
    Submit(s.(queue := Drop(s.queue, key), ctl := Idle), key, Awaiting, cancel)
  }

  /** Read-enter: join the pending ticket, take a free slot, or displace the newest unleased ticket. */
  function EnterRead(c: Config, s: State, key: Key, cancel: CancelEvent): State {
    if s.closed || !s.fdOpen || key !in c.records || cancel.Set? then s
    else
      var i := IndexOf(s.pending, key);
      if i < |s.pending| then if s.pending[i].Claimed() then s else Claim(s, i, cancel)
      else if |s.pending| < c.slots then SubmitDemand(s, key, cancel)
      else
        var v := LastUnclaimed(s.pending);
        if v == |s.pending| then s else BeginDiscard(s, v, Demand(key, cancel))
  }

  /** Read-exit: give the buffer back unless a view still pins it, free the slot, start queued work. */
  function ExitRead(c: Config, s: State, i: nat): State
    requires i < |s.pending|
  {
    var t := s.pending[i];
    if t.phase.Done? && t.exported then s.(pending := s.pending[i := t.(lease := Free)])
    else
      Fill(c, s.(pending := Without(s.pending, i), staging := s.staging - Owned(t), consumed := s.consumed + {t.key}))
  }

  /** The discard is over: go on with the operation it was part of. */
  function Continue(s: State, victim: Key, next: Next): State {
    match next
    case PlanRest(keys, rest) => s.(ctl := PlanLoop(keys, rest))
    case Demand(key, cancel) => SubmitDemand(s.(queue := [victim] + s.queue), key, cancel)
    case CloseRest(left) => s.(ctl := CloseLoop(left))
  }

  /** An exception out of `_discard`: `close` collects it, `plan` and `read` propagate it. */
  function Raise(s: State, next: Next): State {
    s.(raised := true, ctl := if next.CloseRest? then CloseLoop(next.left) else Idle)
  }

  /** The ticket is forgotten and its buffer given back. */
  function Gone(s: State, i: nat): State
    requires i < |s.pending|
  {
    s.(pending := Without(s.pending, i), staging := s.staging - Owned(s.pending[i]))
  }

  /**
   `_discard` raises when a consumer still views the buffer, or the fetch failed for another reason than cancellation.
   */
  predicate Raises(t: Ticket) { (t.phase.Done? && t.exported) || (t.phase.Failed? && t.phase.fault.Failure?) }

  /** `_discard` after `future.result()` returned or raised. */
  function ResolveDiscard(s: State, i: nat): State
    requires s.ctl.Discard? && i < |s.pending|
  {
    var t := s.pending[i];
    if t.phase.Done? && t.exported then Raise(s.(pinned := s.pinned || s.ctl.next.CloseRest?), s.ctl.next)
    else if Raises(t) then Raise(Gone(s, i), s.ctl.next)
    else Continue(Gone(s, i), s.ctl.victim, s.ctl.next)
  }

  function CloseStart(s: State): State {
    if s.closed || exists i :: 0 <= i < |s.pending| && s.pending[i].Claimed() then s
    else s.(closed := true, queue := [], ctl := CloseLoop(Keys(s.pending)))
  }

  function CloseNext(s: State): State
    requires s.ctl.CloseLoop?
  {
    var todo := s.ctl.todo;
    if todo == [] then s.(fdOpen := false, ctl := Idle, leaked := s.staging != 0 || s.active != 0)
    else
      var i := IndexOf(s.pending, todo[0]);
      if i < |s.pending| && !s.pending[i].Claimed() then BeginDiscard(s, i, CloseRest(todo[1..]))
      else s.(ctl := CloseLoop(todo[1..]))
  }

  /******* Fetch-thread and consumer steps *******/

  datatype FetchStep =
    | Start
    | Map(ok: bool)
    | Chunk(n: int)
    | Retry
    | Verify
    | Unmap
    | Finish

  predicate CanFetch(t: Ticket, bytes: nat, f: FetchStep) {
    match f
    case Start => t.phase.Waiting?
    case Map(_) => t.phase.Entered?
    case Chunk(n) => t.phase.Reading? && t.phase.got < bytes && n <= bytes - t.phase.got
    case Retry => t.phase.Reading? && t.phase.got < bytes
    case Verify => t.phase.Reading? && t.phase.got >= bytes
    case Unmap => t.phase.Unwinding? && t.phase.held != []
    case Finish => t.phase.Unwinding? && t.phase.held == []
  }

  /** One turn of the read loop: `n` is what the operating system returned. */
  function ReadChunk(c: Config, t: Ticket, n: int): Phase
    requires t.phase.Reading? && t.key in c.records
  {
    var r := c.records[t.key];
    var buf, got := t.phase.buf, t.phase.got;
    if t.Cancelled() then Unwinding(Interrupted, buf)
    else if n <= 0 || got + n > |buf| || r.offset + got + n > |c.file| then Unwinding(Failure, buf)
    else
      var buf' := buf[..got] + c.file[r.offset + got..r.offset + got + n] + buf[got + n..];
      if c.direct && got + n < r.bytes && (got + n) % ALIGN != 0 then Unwinding(Failure, buf')
      else Reading(buf', got + n)
  }

  function FetchPhase(c: Config, t: Ticket, f: FetchStep): Phase
    requires t.key in c.records && CanFetch(t, c.records[t.key].bytes, f)
  {
    match f
    case Start => Entered
    case Map(ok) =>
      if t.Cancelled() then Unwinding(Interrupted, [])
      else if !ok then Unwinding(Failure, [])
      else Reading(Zeros(c.records[t.key].bytes), 0)
    case Chunk(n) => ReadChunk(c, t, n)
    case Retry => if t.Cancelled() then Unwinding(Interrupted, t.phase.buf) else t.phase
    case Verify =>
      if c.sha(t.phase.buf) != c.records[t.key].digest then Unwinding(Failure, t.phase.buf)
      else if t.Cancelled() then Unwinding(Interrupted, t.phase.buf)
      else Done(t.phase.buf)
    case Unmap => Unwinding(t.phase.why, [])
    case Finish => Failed(t.phase.why)
  }

  function Fetch(c: Config, s: State, i: nat, f: FetchStep): State
    requires i < |s.pending| && s.pending[i].key in c.records
    requires CanFetch(s.pending[i], c.records[s.pending[i].key].bytes, f)
  {
    var t := s.pending[i];
    var t' := t.(phase := FetchPhase(c, t, f));
    s.(pending := s.pending[i := t'],
       staging := s.staging
                  + (if f.Map? && t'.phase.Reading? then c.records[t.key].bytes else 0)
                  - (if f.Unmap? then |t.phase.held| else 0),
       active := s.active
                 + (if f.Start? then 1 else 0)
                 - (if f.Finish? || t'.phase.Done? then 1 else 0))
  }

  datatype UserStep = Obtain | SetCancel | Export | Unexport

  predicate CanUse(t: Ticket, u: UserStep) {
    match u
    case Obtain => t.lease.Awaiting? && t.phase.Done? && !t.Cancelled()
    case SetCancel => t.cancel.Clear?
    case Export => t.lease.Holding?
    case Unexport => t.exported
  }

  function Use(t: Ticket, u: UserStep): Ticket {
    match u
    case Obtain => t.(lease := Holding)
    case SetCancel => t.(cancel := Set)
    case Export => t.(exported := true)
    case Unexport => t.(exported := false)
  }

  /** A reader leaves its `with` body, or never got in because the fetch failed or was cancelled. */
  predicate CanExit(t: Ticket) {
    t.Claimed() && t.phase.Finished() && (t.lease.Holding? || !t.phase.Done? || t.Cancelled())
  }

  /******* The transition relation *******/

  datatype Label =
    | PlanCall(keys: seq<Key>)
    | PlanTurn
    | ReadEnter(key: Key, cancel: CancelEvent)
    | ReadExit(i: nat)
    | CloseCall
    | CloseTurn
    | Resolve
    | Worker(i: nat, f: FetchStep)
    | Consumer(i: nat, u: UserStep)

  predicate Enabled(c: Config, s: State, l: Label) {
    match l
    case PlanCall(_) => s.ctl.Idle?
    case PlanTurn => s.ctl.PlanLoop?
    case ReadEnter(_, _) => s.ctl.Idle?
    case ReadExit(i) => s.ctl.Idle? && i < |s.pending| && CanExit(s.pending[i])
    case CloseCall => s.ctl.Idle?
    case CloseTurn => s.ctl.CloseLoop?
    case Resolve =>
      && s.ctl.Discard?
      && HasKey(s.pending, s.ctl.victim)
      && s.pending[IndexOf(s.pending, s.ctl.victim)].phase.Finished()
    case Worker(i, f) =>
      && i < |s.pending| && s.pending[i].key in c.records
      && CanFetch(s.pending[i], c.records[s.pending[i].key].bytes, f)
    case Consumer(i, u) => i < |s.pending| && CanUse(s.pending[i], u)
  }

  function Step(c: Config, s: State, l: Label): State
    requires Enabled(c, s, l)
  {
    match l
    case PlanCall(keys) => PlanStart(c, s, keys)
    case PlanTurn => PlanNext(c, s)
    case ReadEnter(key, cancel) => EnterRead(c, s, key, cancel)
    case ReadExit(i) => ExitRead(c, s, i)
    case CloseCall => CloseStart(s)
    case CloseTurn => CloseNext(s)
    case Resolve => ResolveDiscard(s, IndexOf(s.pending, s.ctl.victim))
    case Worker(i, f) => Fetch(c, s, i, f)
    case Consumer(i, u) => s.(pending := s.pending[i := Use(s.pending[i], u)])
  }

  /** A run: every label is enabled where it is taken. */
  predicate CanRun(c: Config, s: State, ls: seq<Label>)
    decreases |ls|
  {
    ls == [] || (Enabled(c, s, ls[0]) && CanRun(c, Step(c, s, ls[0]), ls[1..]))
  }

  function After(c: Config, s: State, ls: seq<Label>): State
    requires CanRun(c, s, ls)
    decreases |ls|
  {
    if ls == [] then s else After(c, Step(c, s, ls[0]), ls[1..])
  }

  /******* The invariant *******/

  ghost predicate PhaseOk(c: Config, key: Key, p: Phase, stop: bool)
    requires ValidConfig(c) && key in c.records
  {
    var data := RecordBytes(c, key);
    match p
    case Reading(buf, got) => |buf| == |data| && got <= |data| && buf[..got] == data[..got]
    case Unwinding(_, held) => held == [] || |held| == |data|
    case Done(d) => d == data && c.sha(d) == c.records[key].digest
    case Dropped => stop
    case _ => true
  }

  ghost predicate TicketOk(c: Config, t: Ticket)
    requires ValidConfig(c)
  {
    && t.key in c.records
    && PhaseOk(c, t.key, t.phase, t.stop)
    && (t.exported ==> t.phase.Done?)
    && (t.lease.Holding? ==> t.phase.Done?)
  }

  ghost predicate SlotsOk(c: Config, s: State)
    requires ValidConfig(c)
  {
    && |s.pending| <= c.slots
    && Distinct(Keys(s.pending))
    && (forall i :: 0 <= i < |s.pending| ==> TicketOk(c, s.pending[i]))
    && s.staging == SumOf(s.pending, Owned)
    && s.active == SumOf(s.pending, IsRunning)
  }

  ghost predicate QueueOk(c: Config, s: State) {
    && Distinct(s.queue)
    && forall k :: k in s.queue ==> k in c.records && !HasKey(s.pending, k)
  }

  ghost predicate Unclaimed(s: State, k: Key) {
    exists i :: 0 <= i < |s.pending| && s.pending[i].key == k && !s.pending[i].Claimed()
  }

  ghost predicate NoneClaimed(s: State) {
    forall i :: 0 <= i < |s.pending| ==> !s.pending[i].Claimed()
  }

  /** Every ticket a discard loop still has to visit is where the snapshot saw it. */
  ghost predicate TodoOk(s: State, todo: seq<Key>) {
    Distinct(todo) && forall k :: k in todo ==> HasKey(s.pending, k)
  }

  ghost predicate NextOk(c: Config, s: State, victim: Key, next: Next) {
    match next
    case PlanRest(keys, rest) => TodoOk(s, rest) && victim !in rest && PlanOk(c, s, keys) && victim !in keys
    case Demand(key, _) => key in c.records && !HasKey(s.pending, key) && !s.closed && |s.pending| == c.slots
    case CloseRest(left) => TodoOk(s, left) && victim !in left && CloseOk(s, [victim] + left)
  }

  ghost predicate PlanOk(c: Config, s: State, keys: seq<Key>) {
    !s.closed && Distinct(keys) && forall k :: k in keys ==> k in c.records
  }

  ghost predicate CloseOk(s: State, todo: seq<Key>) {
    && s.closed && s.fdOpen && s.queue == [] && NoneClaimed(s)
    && forall i :: 0 <= i < |s.pending| ==> s.pending[i].key in todo || (s.pinned && s.pending[i].phase.Done?)
  }

  ghost predicate Closed(s: State) {
    && s.closed && !s.fdOpen && s.queue == [] && NoneClaimed(s)
    && (forall i :: 0 <= i < |s.pending| ==> s.pinned && s.pending[i].phase.Done?)
    && (s.leaked <==> s.pending != [])
  }

  ghost predicate ControlOk(c: Config, s: State) {
    && (!s.closed ==> s.fdOpen && !s.pinned)
    && match s.ctl {
         case Idle => s.closed ==> Closed(s)
         case PlanLoop(keys, todo) => TodoOk(s, todo) && PlanOk(c, s, keys)
         case CloseLoop(todo) => TodoOk(s, todo) && CloseOk(s, todo)
         case Discard(victim, next) => Unclaimed(s, victim) && Marked(s, victim) && NextOk(c, s, victim, next)
       }
  }

  ghost predicate Marked(s: State, k: Key) {
    forall i :: 0 <= i < |s.pending| && s.pending[i].key == k ==> s.pending[i].stop && !s.pending[i].phase.Waiting?
  }

  ghost predicate Inv(c: Config, s: State)
    requires ValidConfig(c)
  {
    SlotsOk(c, s) && QueueOk(c, s) && ControlOk(c, s)
  }
}
