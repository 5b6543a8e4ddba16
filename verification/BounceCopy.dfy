/**
 The double-buffered pinned copy (src/vllm_exl3/exl3.py, `_bounce_copy`) as a state machine: the caller's steps and
 single bytes of DMA progress interleave freely.
 */
module BounceCopy {
  import opened Bytes

  /** An enqueued transfer reads pinned buffer `buf`; `src` records what the caller asked to be copied. */
  datatype Job = Job(buf: nat, dst: nat, src: seq<Byte>)

  /** A call in progress; `Growing(e)` still has to wait for the events from slot `e` on. */
  datatype Control =
    | Idle
    | Growing(dst: nat, src: seq<Byte>, e: nat)
    | Direct(dst: nat, src: seq<Byte>)
    | Ready(dst: nat, src: seq<Byte>)
    | Filling(dst: nat, src: seq<Byte>, k: nat)

  datatype Pair = NoBuffers | Buffers(first: nat, second: nat)

  /**
   `pinned` maps live pinned buffers to their contents; `jobs` is the stream, oldest first, with `done` bytes of the
   oldest transferred; `issued` and `retired` number its jobs; `marks` are the events (the job number up to which each
   waits).  `faulted` records a transfer from a buffer that is gone, `ideal` what blocking copies would have written.
   */
  datatype State = State(pinned: map<nat, seq<Byte>>, nextId: nat, bufs: Pair, marks: (nat, nat), slot: nat, cap: nat,
                         jobs: seq<Job>, done: nat, retired: nat, ctl: Control, device: seq<Byte>, faulted: bool,
                         ideal: seq<Byte>)

  function Init(device: seq<Byte>): State {
    State(map[], 0, NoBuffers, (0, 0), 0, 0, [], 0, 0, Idle, device, false, device)
  }

  function Issued(s: State): nat { s.retired + |s.jobs| }

  function Mark(s: State, i: nat): nat { if i == 0 then s.marks.0 else s.marks.1 }

  function BufferOf(s: State, i: nat): nat
    requires s.bufs.Buffers?
  {
    if i == 0 then s.bufs.first else s.bufs.second
  }

  /** `dst[at .. at + |src|] = src` */
  function Blit(device: seq<Byte>, at: nat, src: seq<Byte>): (r: seq<Byte>)
    requires at + |src| <= |device|
    ensures |r| == |device|
    ensures forall i :: 0 <= i < |device| ==> r[i] == if at <= i < at + |src| then src[i - at] else device[i]
  {
    device[..at] + src + device[at + |src|..]
  }

  /******* Steps *******/

  datatype Label =
    | Call(dst: nat, src: seq<Byte>)
    | WaitForGrowth
    | Allocate(ok: bool, first: seq<Byte>, second: seq<Byte>)
    | CopyDirect
    | WaitForSlot
    | FillByte
    | Enqueue
    | Dma

  predicate Enabled(s: State, l: Label) {
    match l
    case Call(dst, src) => s.ctl.Idle? && dst + |src| <= |s.device|
    case WaitForGrowth => s.ctl.Growing? && s.ctl.e < 2 && (s.bufs.NoBuffers? || Mark(s, s.ctl.e) <= s.retired)
    case Allocate(ok, first, second) => s.ctl.Growing? && s.ctl.e == 2 && |first| == |second| == |s.ctl.src|
    case CopyDirect => s.ctl.Direct? && s.jobs == [] && s.ctl.dst + |s.ctl.src| <= |s.device|
    case WaitForSlot => s.ctl.Ready? && Mark(s, s.slot) <= s.retired
    case FillByte => s.ctl.Filling? && s.ctl.k < |s.ctl.src| && s.bufs.Buffers?
                     && BufferOf(s, s.slot) in s.pinned && s.ctl.k < |s.pinned[BufferOf(s, s.slot)]|
    case Enqueue => s.ctl.Filling? && s.ctl.k == |s.ctl.src| && s.bufs.Buffers? && s.ctl.dst + |s.ctl.src| <= |s.device|
    case Dma => s.jobs != []
  }

  /** One byte of the oldest transfer, read from wherever its buffer is now; or its retirement. */
  function DmaStep(s: State): State
    requires s.jobs != []
  {
    var j := s.jobs[0];
    if s.done >= |j.src| then s.(jobs := s.jobs[1..], done := 0, retired := s.retired + 1)
    else if j.buf !in s.pinned || s.done >= |s.pinned[j.buf]| || j.dst + s.done >= |s.device|
      then s.(done := s.done + 1, faulted := true)
    else s.(device := s.device[j.dst + s.done := s.pinned[j.buf][s.done]], done := s.done + 1)
  }

  function AllocateStep(s: State, ok: bool, first: seq<Byte>, second: seq<Byte>): State
    requires s.ctl.Growing?
  {
    var kept := if s.bufs.Buffers? then s.pinned - {s.bufs.first, s.bufs.second} else s.pinned;
    if ok then
      s.(pinned := kept[s.nextId := first][s.nextId + 1 := second], nextId := s.nextId + 2,
         bufs := Buffers(s.nextId, s.nextId + 1),
         marks := (0, 0), slot := 0, cap := |s.ctl.src|, ctl := Ready(s.ctl.dst, s.ctl.src))
    else
      s.(pinned := kept, bufs := NoBuffers, marks := (0, 0), cap := 0, ctl := Direct(s.ctl.dst, s.ctl.src))
  }

  function EnqueueStep(s: State): State
    requires Enabled(s, Enqueue)
  {
    var at := Issued(s) + 1;
    s.(jobs := s.jobs + [Job(BufferOf(s, s.slot), s.ctl.dst, s.ctl.src)],
       marks := if s.slot == 0 then (at, s.marks.1) else (s.marks.0, at),
       slot := if s.slot == 0 then 1 else 0, ctl := Idle)
  }

  function Step(s: State, l: Label): State
    requires Enabled(s, l)
  {
    match l
    case Call(dst, src) =>
      var s' := if dst + |src| <= |s.ideal| then s.(ideal := Blit(s.ideal, dst, src)) else s;
      s'.(ctl := if s.bufs.NoBuffers? || s.cap < |src| then Growing(dst, src, 0) else Ready(dst, src))
    case WaitForGrowth => s.(ctl := Growing(s.ctl.dst, s.ctl.src, s.ctl.e + 1))
    case Allocate(ok, first, second) => AllocateStep(s, ok, first, second)
    case CopyDirect => s.(device := Blit(s.device, s.ctl.dst, s.ctl.src), ctl := Idle)
    case WaitForSlot => s.(ctl := Filling(s.ctl.dst, s.ctl.src, 0))
    case FillByte =>
      var b := BufferOf(s, s.slot);
      s.(pinned := s.pinned[b := s.pinned[b][s.ctl.k := s.ctl.src[s.ctl.k]]], ctl := s.ctl.(k := s.ctl.k + 1))
    case Enqueue => EnqueueStep(s)
    case Dma => DmaStep(s)
  }

  predicate CanRun(s: State, ls: seq<Label>)
    decreases |ls|
  {
    ls == [] || (Enabled(s, ls[0]) && CanRun(Step(s, ls[0]), ls[1..]))
  }

  function After(s: State, ls: seq<Label>): State
    requires CanRun(s, ls)
    decreases |ls|
  {
    if ls == [] then s else After(Step(s, ls[0]), ls[1..])
  }

  /******* The invariant *******/

  /** A transfer's buffer still holds everything the transfer was asked to copy. */
  ghost predicate JobOk(pinned: map<nat, seq<Byte>>, room: nat, j: Job) {
    j.buf in pinned && |j.src| <= |pinned[j.buf]| && pinned[j.buf][..|j.src|] == j.src && j.dst + |j.src| <= room
  }

  ghost predicate JobsOk(pinned: map<nat, seq<Byte>>, room: nat, jobs: seq<Job>) {
    forall i :: 0 <= i < |jobs| ==> JobOk(pinned, room, jobs[i])
  }

  /** A job in flight uses one of the two buffers, and that buffer's event waits for it. */
  ghost predicate EventsOk(jobs: seq<Job>, retired: nat, bufs: Pair, marks: (nat, nat)) {
    && marks.0 <= retired + |jobs| && marks.1 <= retired + |jobs|
    && (jobs != [] ==> bufs.Buffers?)
    && forall i :: 0 <= i < |jobs| ==>
         || (jobs[i].buf == bufs.first && retired + i < marks.0)
         || (jobs[i].buf == bufs.second && retired + i < marks.1)
  }

  ghost predicate BuffersOk(pinned: map<nat, seq<Byte>>, nextId: nat, bufs: Pair, cap: nat) {
    && (forall b :: b in pinned ==> b < nextId)
    && (bufs.Buffers? ==>
          && bufs.first != bufs.second && pinned.Keys == {bufs.first, bufs.second}
          && |pinned[bufs.first]| == cap && |pinned[bufs.second]| == cap)
    && (bufs.NoBuffers? ==> pinned == map[] && cap == 0)
  }

  /** What the caller's program counter knows. */
  ghost predicate ControlOk(s: State) {
    match s.ctl
    case Idle => true
    case Growing(dst, src, e) =>
      && e <= 2 && dst + |src| <= |s.device|
      && (s.bufs.Buffers? && e > 0 ==> s.marks.0 <= s.retired) && (s.bufs.Buffers? && e > 1 ==> s.marks.1 <= s.retired)
    case Direct(dst, src) => s.bufs.NoBuffers? && dst + |src| <= |s.device|
    case Ready(dst, src) => s.bufs.Buffers? && |src| <= s.cap && dst + |src| <= |s.device|
    case Filling(dst, src, k) =>
      && s.bufs.Buffers? && |src| <= s.cap && dst + |src| <= |s.device| && k <= |src|
      && Mark(s, s.slot) <= s.retired
      && BufferOf(s, s.slot) in s.pinned && k <= |s.pinned[BufferOf(s, s.slot)]|
      && s.pinned[BufferOf(s, s.slot)][..k] == src[..k]
  }

  /** Writing the sources of the remaining jobs, in order. */
  function Drain(device: seq<Byte>, jobs: seq<Job>): (r: seq<Byte>)
    requires forall i :: 0 <= i < |jobs| ==> jobs[i].dst + |jobs[i].src| <= |device|
    ensures |r| == |device|
    decreases |jobs|
  {
    if jobs == [] then device else Drain(Blit(device, jobs[0].dst, jobs[0].src), jobs[1..])
  }

  function Pending(s: State): (r: seq<Job>) {
    if s.ctl.Idle? then s.jobs else s.jobs + [Job(0, s.ctl.dst, s.ctl.src)]
  }

  ghost predicate HeadOk(device: seq<Byte>, jobs: seq<Job>, done: nat) {
    || (jobs == [] && done == 0)
    || (jobs != [] && done <= |jobs[0].src| && jobs[0].dst + |jobs[0].src| <= |device|
        && device[jobs[0].dst..jobs[0].dst + done] == jobs[0].src[..done])
  }

  /** Finishing everything in flight, and the call in progress, yields what blocking copies would have. */
  ghost predicate MemoryOk(s: State) {
    && |s.ideal| == |s.device|
    && (forall i :: 0 <= i < |Pending(s)| ==> Pending(s)[i].dst + |Pending(s)[i].src| <= |s.device|)
    && Drain(s.device, Pending(s)) == s.ideal
    && HeadOk(s.device, s.jobs, s.done)
  }

  ghost predicate Inv(s: State) {
    && s.slot < 2 && !s.faulted
    && BuffersOk(s.pinned, s.nextId, s.bufs, s.cap)
    && JobsOk(s.pinned, |s.device|, s.jobs)
    && EventsOk(s.jobs, s.retired, s.bufs, s.marks)
    && ControlOk(s) && MemoryOk(s)
  }

  /******* Every step keeps it *******/

  lemma {:induction false} DrainAppend(device: seq<Byte>, jobs: seq<Job>, j: Job)
    requires forall i :: 0 <= i < |jobs| ==> jobs[i].dst + |jobs[i].src| <= |device|
    requires j.dst + |j.src| <= |device|
    ensures forall i :: 0 <= i < |jobs + [j]| ==> (jobs + [j])[i].dst + |(jobs + [j])[i].src| <= |device|
    ensures Drain(device, jobs + [j]) == Blit(Drain(device, jobs), j.dst, j.src)
    decreases |jobs|
  {
    if jobs == [] {
      assert jobs + [j] == [j] && [j][1..] == [];
    } else {
      assert (jobs + [j])[1..] == jobs[1..] + [j];
      DrainAppend(Blit(device, jobs[0].dst, jobs[0].src), jobs[1..], j);
    }
  }

  /** The buffer behind a job does not matter to the bytes it stands for. */
  lemma {:induction false} DrainIgnoresBuffers(device: seq<Byte>, a: seq<Job>, b: seq<Job>)
    requires |a| == |b| && forall i :: 0 <= i < |a| ==>
               a[i].dst == b[i].dst && a[i].src == b[i].src && a[i].dst + |a[i].src| <= |device|
    ensures Drain(device, a) == Drain(device, b)
    decreases |a|
  {
    if a != [] { DrainIgnoresBuffers(Blit(device, a[0].dst, a[0].src), a[1..], b[1..]); }
  }

  lemma DmaKeepsMemory(s: State)
    requires Inv(s) && s.jobs != []
    ensures MemoryOk(DmaStep(s)) && !DmaStep(s).faulted
  {
    var j := s.jobs[0];
    assert JobOk(s.pinned, |s.device|, j);
    assert Pending(s)[0] == j;
    if s.done >= |j.src| {
      RetireKeepsMemory(s);
    } else {
      assert s.pinned[j.buf][s.done] == s.pinned[j.buf][..|j.src|][s.done] == j.src[s.done];
      var device := s.device[j.dst + s.done := j.src[s.done]];
      assert Blit(device, j.dst, j.src) == Blit(s.device, j.dst, j.src);
      assert device[j.dst..j.dst + s.done + 1] == j.src[..s.done + 1];
    }
  }

  /** A finished transfer has already written everything it stands for. */
  lemma FinishedIsWritten(device: seq<Byte>, j: Job)
    requires j.dst + |j.src| <= |device| && device[j.dst..j.dst + |j.src|] == j.src
    ensures Blit(device, j.dst, j.src) == device
  {
    assert forall i :: j.dst <= i < j.dst + |j.src| ==> device[i] == device[j.dst..j.dst + |j.src|][i - j.dst];
  }

  lemma RetireKeepsMemory(s: State)
    requires Inv(s) && s.jobs != [] && s.done >= |s.jobs[0].src|
    ensures MemoryOk(s.(jobs := s.jobs[1..], done := 0, retired := s.retired + 1))
  {
    hide EventsOk, BuffersOk, ControlOk, Blit, Pending, JobsOk;
    var j, s' := s.jobs[0], s.(jobs := s.jobs[1..], done := 0, retired := s.retired + 1);
    PendingRetires(s, s');
    assert s.done == |j.src| && j.src[..|j.src|] == j.src;
    FinishedIsWritten(s.device, j);
    assert forall i :: 0 <= i < |Pending(s')| ==> Pending(s')[i] == Pending(s)[i + 1];
    if s'.jobs != [] { NextHead(s); }
  }

  lemma PendingRetires(s: State, s': State)
    requires s.jobs != [] && s'.jobs == s.jobs[1..] && s'.ctl == s.ctl
    ensures Pending(s) != [] && Pending(s)[0] == s.jobs[0] && Pending(s)[1..] == Pending(s')
  {
  }

  lemma NextHead(s: State)
    requires JobsOk(s.pinned, |s.device|, s.jobs) && |s.jobs| > 1
    ensures HeadOk(s.device, s.jobs[1..], 0)
  {
    assert JobOk(s.pinned, |s.device|, s.jobs[1]);
    assert s.device[s.jobs[1].dst..s.jobs[1].dst] == [];
  }

  lemma DmaKeeps(s: State)
    requires Inv(s) && s.jobs != []
    ensures Inv(DmaStep(s))
  {
    DmaKeepsMemory(s);
    hide MemoryOk;
    assert JobOk(s.pinned, |s.device|, s.jobs[0]);
    var s' := DmaStep(s);
    assert |s'.device| == |s.device|;
    if s.done >= |s.jobs[0].src| {
      forall i | 0 <= i < |s'.jobs| ensures JobOk(s.pinned, |s.device|, s'.jobs[i]) {
        assert s'.jobs[i] == s.jobs[i + 1];
      }
      assert EventsOk(s'.jobs, s'.retired, s'.bufs, s'.marks) by {
        assert forall i :: 0 <= i < |s'.jobs| ==> s'.jobs[i] == s.jobs[i + 1];
      }
    }
  }

  lemma CallKeeps(s: State, dst: nat, src: seq<Byte>)
    requires Inv(s) && Enabled(s, Call(dst, src))
    ensures Inv(Step(s, Call(dst, src)))
  {
    DrainAppend(s.device, s.jobs, Job(0, dst, src));
    var s' := Step(s, Call(dst, src));
    assert Pending(s') == s.jobs + [Job(0, dst, src)];
  }

  /** Once both events have been waited for, nothing is in flight and the old buffers may go. */
  lemma NothingInFlight(s: State)
    requires Inv(s) && s.ctl.Growing? && s.ctl.e == 2
    ensures s.jobs == []
  {
    hide MemoryOk, JobsOk, EventsOk;
    if |s.jobs| > 0 { FirstIsWaitedFor(s.jobs, s.retired, s.bufs, s.marks); }
  }

  lemma FirstIsWaitedFor(jobs: seq<Job>, retired: nat, bufs: Pair, marks: (nat, nat))
    requires EventsOk(jobs, retired, bufs, marks) && |jobs| > 0
    ensures bufs.Buffers? && (retired < marks.0 || retired < marks.1)
  {
    assert jobs[0].buf == bufs.first || jobs[0].buf == bufs.second;
  }

  lemma AllocateKeeps(s: State, ok: bool, first: seq<Byte>, second: seq<Byte>)
    requires Inv(s) && Enabled(s, Allocate(ok, first, second))
    ensures Inv(AllocateStep(s, ok, first, second))
  {
    NothingInFlight(s);
    var s' := AllocateStep(s, ok, first, second);
    assert Pending(s') == Pending(s);
    var kept := if s.bufs.Buffers? then s.pinned - {s.bufs.first, s.bufs.second} else s.pinned;
    assert kept == map[];
    if ok {
      assert s'.pinned == map[s.nextId := first][s.nextId + 1 := second];
      assert s'.pinned.Keys == {s.nextId, s.nextId + 1};
    }
  }

  lemma CopyDirectKeeps(s: State)
    requires Inv(s) && Enabled(s, CopyDirect)
    ensures Inv(Step(s, CopyDirect))
  {
    assert Pending(s) == [Job(0, s.ctl.dst, s.ctl.src)] && Pending(s)[1..] == [];
  }

  /** While a slot is being filled, no transfer in flight reads its buffer. */
  lemma SlotIsQuiet(s: State)
    requires Inv(s) && (s.ctl.Filling? || (s.ctl.Ready? && Mark(s, s.slot) <= s.retired))
    ensures forall i :: 0 <= i < |s.jobs| ==> s.jobs[i].buf != BufferOf(s, s.slot)
  {
    hide MemoryOk, JobsOk;
  }

  lemma FillByteKeeps(s: State)
    requires Inv(s) && Enabled(s, FillByte)
    ensures Inv(Step(s, FillByte))
  {
    SlotIsQuiet(s);
    var s', b, k := Step(s, FillByte), BufferOf(s, s.slot), s.ctl.k;
    assert Pending(s') == Pending(s);
    assert s'.pinned[b][..k + 1] == s.pinned[b][..k] + [s.ctl.src[k]] == s.ctl.src[..k + 1];
    forall i | 0 <= i < |s.jobs| ensures JobOk(s'.pinned, |s'.device|, s.jobs[i]) {
      assert JobOk(s.pinned, |s.device|, s.jobs[i]);
    }
    assert s'.pinned.Keys == s.pinned.Keys;
  }

  lemma EnqueueKeeps(s: State)
    requires Inv(s) && Enabled(s, Enqueue)
    ensures Inv(EnqueueStep(s))
  {
    var s', j := EnqueueStep(s), Job(BufferOf(s, s.slot), s.ctl.dst, s.ctl.src);
    assert JobOk(s.pinned, |s.device|, j) by { assert s.ctl.src[..|s.ctl.src|] == s.ctl.src; }
    EnqueueKeepsMemory(s);
    EnqueueKeepsEvents(s);
    hide MemoryOk, EventsOk, HeadOk;
  }

  lemma EnqueueKeepsMemory(s: State)
    requires Inv(s) && Enabled(s, Enqueue)
    ensures MemoryOk(EnqueueStep(s))
  {
    var s' := EnqueueStep(s);
    assert forall i :: 0 <= i < |Pending(s)| ==>
        Pending(s)[i].dst == Pending(s')[i].dst && Pending(s)[i].src == Pending(s')[i].src;
    DrainIgnoresBuffers(s.device, Pending(s), Pending(s'));
    if s.jobs != [] { assert s'.jobs[0] == s.jobs[0]; } else { assert s.device[s.ctl.dst..s.ctl.dst] == []; }
  }

  lemma EnqueueKeepsEvents(s: State)
    requires Inv(s) && Enabled(s, Enqueue)
    ensures var s' := EnqueueStep(s); EventsOk(s'.jobs, s'.retired, s'.bufs, s'.marks)
  {
    hide MemoryOk, JobsOk;
    SlotIsQuiet(s);
    var s' := EnqueueStep(s);
    assert forall i :: 0 <= i < |s.jobs| ==> s'.jobs[i] == s.jobs[i];
  }

  lemma WaitsKeep(s: State, l: Label)
    requires Inv(s) && Enabled(s, l) && (l.WaitForGrowth? || l.WaitForSlot?)
    ensures Inv(Step(s, l))
  {
    assert Pending(Step(s, l)) == Pending(s);
    if l.WaitForSlot? { assert BufferOf(s, s.slot) in s.pinned.Keys; }
  }

  lemma StepKeepsInv(s: State, l: Label)
    requires Inv(s) && Enabled(s, l)
    ensures Inv(Step(s, l))
  {
    hide Inv;
    match l
    case Call(dst, src) => CallKeeps(s, dst, src);
    case WaitForGrowth => WaitsKeep(s, l);
    case Allocate(ok, first, second) => AllocateKeeps(s, ok, first, second);
    case CopyDirect => CopyDirectKeeps(s);
    case WaitForSlot => WaitsKeep(s, l);
    case FillByte => FillByteKeeps(s);
    case Enqueue => EnqueueKeeps(s);
    case Dma => DmaKeeps(s);
  }

  lemma {:induction false} RunKeepsInv(s: State, ls: seq<Label>)
    requires Inv(s) && CanRun(s, ls)
    ensures Inv(After(s, ls))
    decreases |ls|
  {
    if ls != [] {
      StepKeepsInv(s, ls[0]);
      RunKeepsInv(Step(s, ls[0]), ls[1..]);
    }
  }

  /******* Theorems *******/

  lemma InitOk(device: seq<Byte>)
    ensures Inv(Init(device))
  {
  }

  /**
   In every run from the initial state, a step changes or drops no pinned buffer that a transfer in flight reads; and
   no transfer ever reads from a buffer that is gone.
   */
  lemma BuffersInFlightAreUntouched(device: seq<Byte>, ls: seq<Label>, l: Label)
    requires CanRun(Init(device), ls) && Enabled(After(Init(device), ls), l)
    ensures var s := After(Init(device), ls);
            var s' := Step(s, l);
            && !s'.faulted
            && forall i :: 0 <= i < |s.jobs| ==>
                 && s.jobs[i].buf in s.pinned && s.jobs[i].buf in s'.pinned
                   && s'.pinned[s.jobs[i].buf] == s.pinned[s.jobs[i].buf]
  {
    InitOk(device);
    RunKeepsInv(Init(device), ls);
    var s := After(Init(device), ls);
    StepKeepsInv(s, l);
    assert forall i :: 0 <= i < |s.jobs| ==> JobOk(s.pinned, |s.device|, s.jobs[i]);
    if l.FillByte? { SlotIsQuiet(s); }
    if l.Allocate? { NothingInFlight(s); }
  }

  /** What a run's calls, carried out one after another by blocking copies, leave on the device. */
  function Blocking(device: seq<Byte>, ls: seq<Label>): (r: seq<Byte>)
    ensures |r| == |device|
    decreases |ls|
  {
    if ls == [] then device
    else
      var l := ls[|ls| - 1];
      var before := Blocking(device, ls[..|ls| - 1]);
      if l.Call? && l.dst + |l.src| <= |device| then Blit(before, l.dst, l.src) else before
  }

  lemma {:induction false} RunOfPrefix(s: State, ls: seq<Label>)
    requires CanRun(s, ls) && ls != []
    ensures CanRun(s, ls[..|ls| - 1]) && Enabled(After(s, ls[..|ls| - 1]), ls[|ls| - 1])
    ensures After(s, ls) == Step(After(s, ls[..|ls| - 1]), ls[|ls| - 1])
    decreases |ls|
  {
    if |ls| > 1 {
      RunOfPrefix(Step(s, ls[0]), ls[1..]);
      assert ls[1..][..|ls| - 2] == ls[..|ls| - 1][1..];
    } else {
      assert ls[1..] == [];
    }
  }

  lemma {:induction false} IdealIsBlocking(device: seq<Byte>, ls: seq<Label>)
    requires CanRun(Init(device), ls)
    ensures After(Init(device), ls).ideal == Blocking(device, ls) && |After(Init(device), ls).device| == |device|
    decreases |ls|
  {
    if ls != [] {
      RunOfPrefix(Init(device), ls);
      IdealIsBlocking(device, ls[..|ls| - 1]);
      InitOk(device);
      RunKeepsInv(Init(device), ls[..|ls| - 1]);
      hide Inv;
      hide Blit;
    }
  }

  /**
   Whenever all calls have returned and the stream is empty, the device holds what blocking copies would have written.
   */
  lemma DrainedCopiesAreExact(device: seq<Byte>, ls: seq<Label>)
    requires CanRun(Init(device), ls)
    ensures var s := After(Init(device), ls);
            s.ctl.Idle? && s.jobs == [] ==> s.device == Blocking(device, ls)
  {
    InitOk(device);
    RunKeepsInv(Init(device), ls);
    IdealIsBlocking(device, ls);
  }

  /** A call never waits for something that cannot happen: some step other than a new call is always possible. */
  lemma NeverStuck(s: State)
    requires Inv(s) && !s.ctl.Idle?
    ensures exists l :: Enabled(s, l) && !l.Call?
  {
    hide MemoryOk, JobsOk;
    if s.jobs != [] {
      assert Enabled(s, Dma);
    } else {
      match s.ctl
      case Growing(_, src, e) =>
        if e < 2 { assert Enabled(s, WaitForGrowth); } else { assert Enabled(s, Allocate(false, src, src)); }
      case Direct(_, _) => assert Enabled(s, CopyDirect);
      case Ready(_, _) => assert Enabled(s, WaitForSlot);
      case Filling(_, src, k) =>
        assert BufferOf(s, s.slot) in s.pinned.Keys;
        if k < |src| { assert Enabled(s, FillByte); } else { assert Enabled(s, Enqueue); }
    }
  }
}
