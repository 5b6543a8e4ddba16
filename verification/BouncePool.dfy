/** `_bounce_copy` and its module-level state (src/vllm_exl3/exl3.py) as an object over real buffers. */
module BouncePool {
  import opened Bytes
  import opened BounceCopy

  /** `s'` is reached from `s` by caller steps and DMA progress. */
  ghost predicate Reaches(s: State, s': State) {
    exists ls :: CanRun(s, ls) && After(s, ls) == s'
  }

  lemma ReachesItself(s: State)
    ensures Reaches(s, s)
  {
    assert CanRun(s, []) && After(s, []) == s;
  }

  lemma {:induction false} RunConcat(s: State, ls: seq<Label>, more: seq<Label>)
    requires CanRun(s, ls) && CanRun(After(s, ls), more)
    ensures CanRun(s, ls + more) && After(s, ls + more) == After(After(s, ls), more)
    decreases |ls|
  {
    if ls == [] {
      assert ls + more == more;
    } else {
      assert (ls + more)[0] == ls[0] && (ls + more)[1..] == ls[1..] + more;
      RunConcat(Step(s, ls[0]), ls[1..], more);
    }
  }

  lemma ReachesVia(a: State, b: State, c: State)
    requires Reaches(a, b) && Reaches(b, c)
    ensures Reaches(a, c)
  {
    var ls :| CanRun(a, ls) && After(a, ls) == b;
    var more :| CanRun(b, more) && After(b, more) == c;
    RunConcat(a, ls, more);
    assert CanRun(a, ls + more) && After(a, ls + more) == c;
  }

  lemma ReachesNext(s: State, s': State, l: Label)
    requires Reaches(s, s') && Enabled(s', l)
    ensures Reaches(s, Step(s', l))
  {
    var t := Step(s', l);
    assert [l][1..] == [];
    assert CanRun(s', [l]) && After(s', [l]) == t;
    ReachesVia(s, s', t);
  }

  function LeftOfHead(jobs: seq<Job>, done: nat): nat {
    if jobs != [] && done <= |jobs[0].src| then |jobs[0].src| - done + 1 else 0
  }

  /** An event that has not passed waits for a job in flight. */
  lemma SomeJobIsDue(s: State, i: nat)
    requires Inv(s) && s.retired < Mark(s, i)
    ensures s.jobs != []
  {
    hide MemoryOk, JobsOk, BuffersOk, ControlOk;
  }

  lemma DmaMoves(s: State)
    requires Inv(s) && s.jobs != []
    ensures Enabled(s, Dma)
    ensures var s' := Step(s, Dma);
            (s'.retired == s.retired + 1 && |s'.jobs| < |s.jobs|)
            || (s'.retired == s.retired && |s'.jobs| == |s.jobs|
              && LeftOfHead(s'.jobs, s'.done) < LeftOfHead(s.jobs, s.done))
  {
    hide EventsOk, BuffersOk, ControlOk, JobsOk;
  }

  lemma HeadFits(s: State)
    requires Inv(s) && s.jobs != []
    ensures var j := s.jobs[0];
            j.buf in s.pinned && |j.src| <= |s.pinned[j.buf]| && j.dst + |j.src| <= |s.device|
  {
    hide EventsOk, MemoryOk, ControlOk, BuffersOk;
    assert JobOk(s.pinned, |s.device|, s.jobs[0]);
  }

  lemma OldBuffersAreAll(s: State)
    requires Inv(s)
    ensures (if s.bufs.Buffers? then s.pinned - {s.bufs.first, s.bufs.second} else s.pinned) == map[]
  {
    hide EventsOk, JobsOk, MemoryOk, ControlOk;
  }

  /** Allocation replaces everything that was pinned. */
  lemma AllocateIs(s: State, first: seq<Byte>, second: seq<Byte>)
    requires Inv(s) && s.ctl.Growing? && s.ctl.e == 2 && |first| == |second| == |s.ctl.src|
    ensures var l := Label.Allocate(true, first, second);
            && Enabled(s, l) && Inv(Step(s, l))
            && Step(s, l) == s.(pinned := map[s.nextId := first][s.nextId + 1 := second], nextId := s.nextId + 2,
                                bufs := Buffers(s.nextId, s.nextId + 1), marks := (0, 0), slot := 0, cap := |s.ctl.src|,
                                ctl := Ready(s.ctl.dst, s.ctl.src))
  {
    hide Inv;
    OldBuffersAreAll(s);
    StepKeepsInv(s, Label.Allocate(true, first, second));
  }

  /** What a step other than DMA finds in place. */
  lemma StepFits(s: State)
    requires Inv(s)
    ensures |s.ideal| == |s.device|
    ensures s.ctl.Direct? ==> s.ctl.dst + |s.ctl.src| <= |s.device|
    ensures s.ctl.Filling? && s.ctl.k < |s.ctl.src| ==> Enabled(s, FillByte)
    ensures s.ctl.Filling? && s.ctl.k == |s.ctl.src| ==> Enabled(s, Enqueue)
  {
    hide EventsOk, JobsOk;
    if s.bufs.Buffers? { assert s.bufs.first in s.pinned.Keys && s.bufs.second in s.pinned.Keys; }
  }

  class Pool {
    var pinned: map<nat, array<Byte>>
    var nextId: nat
    var bufs: Pair
    var marks: (nat, nat)
    var slot: nat
    var cap: nat
    var jobs: seq<Job>
    var done: nat
    var retired: nat
    const device: array<Byte>
    var ctl: Control
    ghost var ideal: seq<Byte>

    ghost function Contents(): (m: map<nat, seq<Byte>>)
      reads this, pinned.Values
      ensures m.Keys == pinned.Keys
    {
      map b | b in pinned :: pinned[b][..]
    }

    ghost function View(): State
      reads this, pinned.Values, device
    {
      State(Contents(), nextId, bufs, marks, slot, cap, jobs, done, retired, ctl, device[..], false, ideal)
    }

    lemma SamePinned(m: map<nat, seq<Byte>>)
      requires forall b :: b in pinned <==> b in m
      requires forall b :: b in pinned ==> pinned[b][..] == m[b]
      ensures Contents() == m
    {
      assert forall b :: b in Contents().Keys <==> b in m.Keys;
    }

    /** No two buffers share storage, and none is device memory. */
    ghost predicate Separate()
      reads this
    {
      && (forall a, b :: a in pinned && b in pinned && a != b ==> pinned[a] != pinned[b])
      && forall b :: b in pinned ==> pinned[b] != device
    }

    ghost predicate Valid()
      reads this, pinned.Values, device
    {
      Separate() && Inv(View())
    }

    constructor (device: array<Byte>)
      ensures Valid() && View() == Init(device[..]) && this.device == device
    {
      pinned, nextId, bufs, marks, slot, cap, jobs, done, retired := map[], 0, NoBuffers, (0, 0), 0, 0, [], 0, 0;
      this.device := device;
      ctl, ideal := Idle, device[..];
      new;
      assert Contents() == map[];
    }

    /** The copy engine: one byte of the oldest transfer, or its retirement. */
    method DmaProgress()
      requires Valid() && jobs != []
      modifies this`jobs, this`done, this`retired, device
      ensures Valid() && View() == Step(old(View()), Dma)
    {
      hide Inv;
      ghost var was := View();
      StepKeepsInv(was, Dma);
      HeadFits(was);
      var j := jobs[0];
      if done >= |j.src| {
        jobs, done, retired := jobs[1..], 0, retired + 1;
      } else {
        device[j.dst + done] := pinned[j.buf][done];
        done := done + 1;
      }
      SamePinned(was.pinned);
      assert View() == Step(was, Dma);
    }

    /** `event.synchronize()`: the copy engine runs until the slot's event has passed. */
    method Synchronize(i: nat)
      requires Valid()
      modifies this`jobs, this`done, this`retired, device
      ensures Valid() && Reaches(old(View()), View()) && Mark(View(), i) <= retired
    {
      hide Inv, Enabled, Step, Reaches;
      ReachesItself(View());
      while retired < (if i == 0 then marks.0 else marks.1)
        invariant Valid() && Reaches(old(View()), View())
        decreases Mark(View(), i) - retired, LeftOfHead(jobs, done)
      {
        SomeJobIsDue(View(), i);
        DmaMoves(View());
        ReachesNext(old(View()), View(), Dma);
        DmaProgress();
      }
    }

    /** Two page-locked buffers of `n` bytes take the place of whatever was pinned. */
    method Pin(n: nat) returns (ghost first: seq<Byte>, ghost second: seq<Byte>)
      modifies this`pinned, this`nextId
      ensures fresh(pinned.Values) && |first| == |second| == n && nextId == old(nextId) + 2
      ensures Separate() && Contents() == map[old(nextId) := first][old(nextId) + 1 := second]
    {
      var a, b := new Byte[n], new Byte[n];
      first, second := a[..], b[..];
      pinned := map[nextId := a][nextId + 1 := b];
      assert pinned[nextId] == a && pinned[nextId + 1] == b;
      assert pinned.Keys == {nextId, nextId + 1};
      nextId := nextId + 2;
    }

    /** New pinned buffers; the old ones are no longer referenced. */
    method Allocate() returns (ghost l: Label)
      requires Valid() && ctl.Growing? && ctl.e == 2
      modifies this`pinned, this`nextId, this`bufs, this`marks, this`slot, this`cap, this`ctl
      ensures Valid() && fresh(pinned.Values)
      ensures Enabled(old(View()), l) && View() == Step(old(View()), l) && ctl == Ready(old(ctl.dst), old(ctl.src))
    {
      hide Inv, Step, Enabled;
      ghost var was := View();
      bufs, marks, slot, cap := Buffers(nextId, nextId + 1), (0, 0), 0, |ctl.src|;
      ctl := Ready(ctl.dst, ctl.src);
      ghost var first, second := Pin(cap);
      l := Label.Allocate(true, first, second);
      AllocateIs(was, first, second);
    }

    /** Without a pinned allocator the old buffers are dropped and none replace them. */
    method DropBuffers() returns (ghost l: Label)
      requires Valid() && ctl.Growing? && ctl.e == 2
      modifies this`pinned, this`bufs, this`marks, this`cap, this`ctl
      ensures Valid() && pinned == map[]
      ensures Enabled(old(View()), l) && View() == Step(old(View()), l) && ctl == Direct(old(ctl.dst), old(ctl.src))
    {
      hide Inv;
      ghost var was := View();
      OldBuffersAreAll(was);
      l := Label.Allocate(false, ctl.src, ctl.src);
      StepKeepsInv(was, l);
      pinned, bufs, marks, cap := map[], NoBuffers, (0, 0), 0;
      ctl := Direct(ctl.dst, ctl.src);
      assert Contents() == map[];
      assert View() == Step(was, l);
    }

    /** Wait for both events, then replace the buffers. */
    method Grow(available: bool)
      requires Valid() && ctl.Growing? && ctl.e == 0
      modifies this, device
      ensures Valid() && Reaches(old(View()), View()) && ideal == old(ideal)
      ensures fresh(pinned.Values - old(pinned.Values))
      ensures ctl == if available then Ready(old(ctl.dst), old(ctl.src)) else Direct(old(ctl.dst), old(ctl.src))
    {
      hide Inv, Reaches;
      GrowthWaits(0);
      ghost var half := View();
      GrowthWaits(1);
      ghost var was := View();
      ReachesVia(old(View()), half, was);
      ghost var l;
      if available { l := Allocate(); } else { l := DropBuffers(); }
      ReachesNext(old(View()), was, l);
    }

    method GrowthWaits(e: nat)
      requires Valid() && e < 2 && ctl.Growing? && ctl.e == e
      modifies this`jobs, this`done, this`retired, this`ctl, device
      ensures Valid() && Reaches(old(View()), View()) && ctl == Growing(old(ctl.dst), old(ctl.src), e + 1)
    {
      hide Inv, Reaches;
      ghost var start := View();
      if bufs.Buffers? { Synchronize(e); } else { ReachesItself(start); }
      ghost var was := View();
      StepKeepsInv(was, WaitForGrowth);
      ReachesNext(start, was, WaitForGrowth);
      ctl := Growing(ctl.dst, ctl.src, e + 1);
      SamePinned(was.pinned);
      assert View() == Step(was, WaitForGrowth);
    }

    /** The blocking fallback: the stream drains, then the bytes go straight to the device. */
    method CopyDirect(src: array<Byte>)
      requires Valid() && ctl.Direct? && ctl.src == src[..] && src != device
      modifies this`jobs, this`done, this`retired, this`ctl, device
      ensures Valid() && Reaches(old(View()), View()) && ctl.Idle?
    {
      hide Inv, Reaches;
      Drained();
      ghost var was := View();
      StepFits(was);
      StepKeepsInv(was, Label.CopyDirect);
      ReachesNext(old(View()), was, Label.CopyDirect);
      forall i | 0 <= i < src.Length { device[ctl.dst + i] := src[i]; }
      ctl := Idle;
      SamePinned(was.pinned);
      assert device[..] == Blit(was.device, was.ctl.dst, was.ctl.src);
    }

    /** The stream runs dry. */
    method Drained()
      requires Valid()
      modifies this`jobs, this`done, this`retired, device
      ensures Valid() && Reaches(old(View()), View()) && jobs == []
    {
      hide Inv, Enabled, Step, Reaches;
      ReachesItself(View());
      while jobs != []
        invariant Valid() && Reaches(old(View()), View())
        decreases |jobs|, LeftOfHead(jobs, done)
      {
        DmaMoves(View());
        ReachesNext(old(View()), View(), Dma);
        DmaProgress();
      }
    }

    /** The host copy into the slot's buffer. */
    method Fill(src: array<Byte>)
      requires Valid() && ctl.Filling? && ctl.src == src[..] && ctl.k == 0 && src !in pinned.Values && src != device
      modifies this`ctl, pinned.Values
      ensures Valid() && Reaches(old(View()), View()) && ctl == old(ctl).(k := src.Length)
    {
      hide Inv, Reaches;
      ReachesItself(View());
      var k := 0;
      while k < src.Length
        invariant k <= src.Length && ctl == old(ctl).(k := k)
        invariant Valid() && Reaches(old(View()), View()) && src[..] == ctl.src
      {
        ghost var was := View();
        FillOne(k, src[k]);
        ReachesNext(old(View()), was, FillByte);
        k := k + 1;
      }
    }

    method FillOne(k: nat, b: Byte)
      requires Valid() && ctl.Filling? && ctl.k == k < |ctl.src| && ctl.src[k] == b
      modifies this`ctl, pinned.Values
      ensures Valid() && Enabled(old(View()), FillByte) && View() == Step(old(View()), FillByte)
    {
      hide Inv;
      ghost var was := View();
      StepFits(was);
      StepKeepsInv(was, FillByte);
      var i := if slot == 0 then bufs.first else bufs.second;
      pinned[i][k] := b;
      ctl := ctl.(k := k + 1);
      SamePinned(Step(was, FillByte).pinned);
    }

    method Enqueue()
      requires Valid() && ctl.Filling? && ctl.k == |ctl.src|
      modifies this`jobs, this`marks, this`slot, this`ctl
      ensures Valid() && Reaches(old(View()), View()) && ctl.Idle?
    {
      hide Inv, Reaches;
      ghost var was := View();
      StepFits(was);
      ReachesItself(was);
      ReachesNext(was, was, Label.Enqueue);
      StepKeepsInv(was, Label.Enqueue);
      jobs := jobs + [Job(if slot == 0 then bufs.first else bufs.second, ctl.dst, ctl.src)];
      marks := if slot == 0 then (retired + |jobs|, marks.1) else (marks.0, retired + |jobs|);
      slot := if slot == 0 then 1 else 0;
      ctl := Idle;
      SamePinned(was.pinned);
      assert View() == Step(was, Label.Enqueue);
    }

    /**
     `_bounce_copy(dst, src)`, with the pinned allocator available or not.  On return the source is no longer read,
     though its bytes may still be on their way: finishing the stream writes them.
     */
    method Copy(dst: nat, src: array<Byte>, available: bool)
      requires Valid() && ctl.Idle? && dst + src.Length <= device.Length && src !in pinned.Values && src != device
      modifies this, pinned.Values, device
      ensures Valid() && ctl.Idle? && Reaches(old(View()), View())
      ensures |old(ideal)| == device.Length && ideal == Blit(old(ideal), dst, src[..])
    {
      hide Inv, Reaches, Blit;
      ghost var start := View();
      ReachesItself(start);
      StepFits(start);
      StepKeepsInv(start, Label.Call(dst, src[..]));
      ReachesNext(start, start, Label.Call(dst, src[..]));
      ideal := Blit(ideal, dst, src[..]);
      ctl := if bufs.NoBuffers? || cap < src.Length then Growing(dst, src[..], 0) else Ready(dst, src[..]);
      SamePinned(start.pinned);
      assert View() == Step(start, Label.Call(dst, src[..]));
      assert Valid();
      if ctl.Growing? {
        ghost var mid := View();
        Grow(available);
        ReachesVia(start, mid, View());
      }
      Transfer(start, src);
    }

    /** The rest of a call, once there are buffers or it is known that there are none. */
    method Transfer(ghost start: State, src: array<Byte>)
      requires Valid() && (ctl.Ready? || ctl.Direct?) && ctl.src == src[..] && src !in pinned.Values && src != device
      requires Reaches(start, View())
      modifies this`jobs, this`done, this`retired, this`ctl, this`marks, this`slot, pinned.Values, device
      ensures Valid() && ctl.Idle? && Reaches(start, View())
    {
      hide Inv, Reaches;
      ghost var mid := View();
      if ctl.Direct? {
        CopyDirect(src);
        ReachesVia(start, mid, View());
        return;
      }
      Synchronize(slot);
      ReachesVia(start, mid, View());
      ghost var was := View();
      StepKeepsInv(was, WaitForSlot);
      ReachesNext(start, was, WaitForSlot);
      ctl := Filling(ctl.dst, ctl.src, 0);
      SamePinned(was.pinned);
      assert View() == Step(was, WaitForSlot);
      mid := View();
      Fill(src);
      ReachesVia(start, mid, View());
      mid := View();
      Enqueue();
      ReachesVia(start, mid, View());
    }
  }
}
