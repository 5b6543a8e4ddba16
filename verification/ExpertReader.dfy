/** The read loop over one staging buffer (async_store.py `_fetch`, expert_store.py `read`), on a real array. */
module ExpertReader {
  import opened Bytes
  import opened AsyncStore
  import opened AsyncStoreSafety

  /** What one turn of the loop meets: whether cancellation is seen, and what the operating system answers. */
  datatype Answer = Bytes(n: int) | Eintr
  datatype Turn = Turn(cancelled: bool, answer: Answer)

  function Cancel(t: Ticket, now: bool): Ticket {
    if now then t.(stop := true) else t
  }

  /** The fetch step a turn amounts to. */
  function StepOf(turn: Turn): FetchStep {
    match turn.answer case Bytes(n) => Chunk(n) case Eintr => Retry
  }

  /** An answer never exceeds the space that the call offered. */
  predicate Honest(c: Config, t: Ticket, turn: Turn)
    requires t.phase.Reading? && t.key in c.records
  {
    t.phase.got < c.records[t.key].bytes
      && (turn.answer.Bytes? ==> turn.answer.n <= c.records[t.key].bytes - t.phase.got)
  }

  /** A whole run of the loop as fetch steps of the prefetcher's state machine, ended by the hash check. */
  function Fetched(c: Config, t: Ticket, turns: seq<Turn>, cancelledLast: bool): (p: Phase)
    requires t.key in c.records
    decreases |turns|
  {
    if !t.phase.Reading? then t.phase
    else if t.phase.got >= c.records[t.key].bytes then FetchPhase(c, Cancel(t, cancelledLast), Verify)
    else if turns == [] || !Honest(c, t, turns[0]) then t.phase
    else
      var u := Cancel(t, turns[0].cancelled);
      Fetched(c, u.(phase := FetchPhase(c, u, StepOf(turns[0]))), turns[1..], cancelledLast)
  }

  /** However the file system splits the record, a fetch that completes holds exactly the record's bytes. */
  lemma {:induction false} FetchedIsTheRecord(c: Config, t: Ticket, turns: seq<Turn>, cancelledLast: bool)
    requires ValidConfig(c) && TicketOk(c, t) && t.phase.Reading?
    ensures var p := Fetched(c, t, turns, cancelledLast);
            && !p.Failed? && !p.Dropped?
            && (p.Done? ==> p.data == RecordBytes(c, t.key) && c.sha(p.data) == c.records[t.key].digest)
            && (p.Reading? ==>
                p.got <= |p.buf| == |RecordBytes(c, t.key)| && p.buf[..p.got] == RecordBytes(c, t.key)[..p.got])
    decreases |turns|
  {
    if t.phase.got >= c.records[t.key].bytes {
      var u := Cancel(t, cancelledLast);
      FetchPhaseOk(c, u, Verify);
    } else if turns != [] && Honest(c, t, turns[0]) {
      var u := Cancel(t, turns[0].cancelled);
      FetchPhaseOk(c, u, StepOf(turns[0]));
      var next := u.(phase := FetchPhase(c, u, StepOf(turns[0])));
      if next.phase.Reading? { FetchedIsTheRecord(c, next, turns[1..], cancelledLast); }
    }
  }

  /** `got` counts up to the record size; the buffer fills in place, and any fault hands it back for release. */
  method ReadLoop(c: Config, t: Ticket, buffer: array<Byte>, turns: seq<Turn>, cancelledLast: bool) returns (end: Phase)
    requires ValidConfig(c) && TicketOk(c, t) && t.phase == Reading(buffer[..], 0)
    modifies buffer
    ensures end == Fetched(c, t, turns, cancelledLast)
    ensures end.Done? ==> buffer[..] == end.data == RecordBytes(c, t.key)
    ensures end.Reading? ==> buffer[..] == end.buf
    ensures end.Unwinding? ==> buffer[..] == end.held
  {
    hide ValidConfig, PhaseOk, RecordBytes, Fetched, FetchPhase;
    RecordFits(c, t);
    var record := c.records[t.key];
    var got: nat, stop, i := 0, t.stop, 0;
    FetchedIsTheRecord(c, t, turns, cancelledLast);
    assert turns[0..] == turns;
    while got < record.bytes && i < |turns| && (turns[i].answer.Bytes? ==> turns[i].answer.n <= record.bytes - got)
      invariant i <= |turns| && got <= record.bytes
      invariant Fetched(c, t.(stop := stop, phase := Reading(buffer[..], got)), turns[i..], cancelledLast)
                == Fetched(c, t, turns, cancelledLast)
      decreases |turns| - i
    {
      ghost var before := t.(stop := stop, phase := Reading(buffer[..], got));
      Turned(c, before, turns[i..], cancelledLast);
      assert turns[i..][1..] == turns[i + 1..] && turns[i..][0] == turns[i];
      stop := stop || turns[i].cancelled;
      if stop || t.cancel.Set? {
        return Unwinding(Interrupted, buffer[..]);
      }
      if turns[i].answer.Bytes? {
        var n := turns[i].answer.n;
        if n <= 0 {
          return Unwinding(Failure, buffer[..]);
        }
        ghost var was := buffer[..];
        forall k | got <= k < got + n { buffer[k] := c.file[record.offset + k]; }
        assert buffer[..] == was[..got] + c.file[record.offset + got..record.offset + got + n] + was[got + n..];
        got := got + n;
        if c.direct && got < record.bytes && got % ALIGN != 0 {
          return Unwinding(Failure, buffer[..]);
        }
      }
      i := i + 1;
    }
    LoopEnds(c, t.(stop := stop, phase := Reading(buffer[..], got)), turns[i..], cancelledLast);
    end := Reading(buffer[..], got);
    if got >= record.bytes {
      if c.sha(buffer[..]) != record.digest {
        end := Unwinding(Failure, buffer[..]);
      } else if cancelledLast || stop || t.cancel.Set? {
        end := Unwinding(Interrupted, buffer[..]);
      } else {
        end := Done(buffer[..]);
      }
    }
  }

  lemma RecordFits(c: Config, t: Ticket)
    requires ValidConfig(c) && TicketOk(c, t) && t.phase.Reading?
    ensures |t.phase.buf| == c.records[t.key].bytes && c.records[t.key].offset + c.records[t.key].bytes <= |c.file|
  {
  }

  /** One turn of the loop, spelled out. */
  lemma Turned(c: Config, t: Ticket, turns: seq<Turn>, cancelledLast: bool)
    requires t.key in c.records && t.phase.Reading? && turns != [] && Honest(c, t, turns[0])
    ensures var u := Cancel(t, turns[0].cancelled);
            var r, buf, got := c.records[t.key], t.phase.buf, t.phase.got;
            Fetched(c, t, turns, cancelledLast) ==
            if u.Cancelled() then Unwinding(Interrupted, buf)
            else match turns[0].answer
              case Eintr => Fetched(c, u, turns[1..], cancelledLast)
              case Bytes(n) =>
                if n <= 0 || got + n > |buf| || r.offset + got + n > |c.file| then Unwinding(Failure, buf)
                else
                  var buf' := buf[..got] + c.file[r.offset + got..r.offset + got + n] + buf[got + n..];
                  if c.direct && got + n < r.bytes && (got + n) % ALIGN != 0 then Unwinding(Failure, buf')
                  else Fetched(c, u.(phase := Reading(buf', got + n)), turns[1..], cancelledLast)
  {
    var u := Cancel(t, turns[0].cancelled);
    var next := u.(phase := FetchPhase(c, u, StepOf(turns[0])));
    assert Fetched(c, t, turns, cancelledLast) == Fetched(c, next, turns[1..], cancelledLast);
    assert turns[0].answer.Eintr? && !u.Cancelled() ==> next == u;
  }

  lemma LoopEnds(c: Config, t: Ticket, turns: seq<Turn>, cancelledLast: bool)
    requires t.key in c.records && t.phase.Reading?
    requires t.phase.got >= c.records[t.key].bytes || turns == [] || !Honest(c, t, turns[0])
    ensures Fetched(c, t, turns, cancelledLast)
            == if t.phase.got < c.records[t.key].bytes then t.phase
               else if c.sha(t.phase.buf) != c.records[t.key].digest then Unwinding(Failure, t.phase.buf)
               else if Cancel(t, cancelledLast).Cancelled() then Unwinding(Interrupted, t.phase.buf)
               else Done(t.phase.buf)
  {
  }
}
