/** One cold wake's input cutover: PCM that arrived over the WebSocket, then the
    RTP frames that arrived meanwhile, then live RTP. Every method below is the
    code between two awaits, so any interleaving of calls is a run. */
module Startup {
  import opened Basics

  datatype Frame = Frame(audio: Bytes, rate: int)

  datatype Code = Timeout | Overflow | Sequence | Failed

  /** Frames reaching the input processor, downstream. */
  datatype Input = Audio(frame: Frame) | Started | Stopped

  /** Where the drain task stands: not created, created, awaiting the resampler,
      awaiting the consumer of the chunk at `offset`, awaiting the consumer of an
      RTP frame, or over. */
  datatype Phase =
    | Idle
    | Queued
    | Resampling(pcm: Bytes)
    | Playing(pcm: Bytes, offset: nat)
    | Relaying(frame: Frame)
    | Over

  const LIMIT := 15 * 24000 * 2

  /** The 24 kHz cost of `size` bytes at `rate`, rounded down. */
  function Cost(size: nat, rate: int): (cost: nat)
    requires 0 < rate
    ensures cost * rate <= size * 24000 < (cost + 1) * rate
  {
    size * 24000 / rate
  }

  ghost predicate Rated(frames: seq<Frame>) { forall f :: f in frames ==> 0 < f.rate }

  function TotalCost(frames: seq<Frame>): nat
    requires Rated(frames)
  {
    if frames == [] then 0 else Cost(|frames[0].audio|, frames[0].rate) + TotalCost(frames[1..])
  }

  lemma {:induction false} CostOfAppended(frames: seq<Frame>, f: Frame)
    requires Rated(frames) && 0 < f.rate
    ensures Rated(frames + [f])
    ensures TotalCost(frames + [f]) == TotalCost(frames) + Cost(|f.audio|, f.rate)
  {
    if frames == [] {
      assert [] + [f] == [f];
    } else {
      assert (frames + [f])[1..] == frames[1..] + [f];
      CostOfAppended(frames[1..], f);
    }
  }

  /** Even-length 16 kHz PCM costs exactly half as much again, whatever its pieces. */
  lemma EvenCostAdds(a: nat, b: nat)
    requires a % 2 == 0 && b % 2 == 0
    ensures Cost(a, 16000) == a / 2 * 3
    ensures Cost(a + b, 16000) == Cost(a, 16000) + Cost(b, 16000)
  {
  }

  lemma SequenceWraps(n: nat)
    ensures (n % 65536 + 1) % 65536 == (n + 1) % 65536
  {
  }

  /** PCM cut into frames of `n` bytes, the last one possibly shorter. */
  function Chunks(pcm: Bytes, n: nat, rate: int): (frames: seq<Frame>)
    requires 0 < n
    decreases |pcm|
  {
    if pcm == [] then []
    else
      var k := Least(n, |pcm|);
      [Frame(pcm[..k], rate)] + Chunks(pcm[k..], n, rate)
  }

  lemma NextChunk(pcm: Bytes, offset: nat, n: nat, rate: int)
    requires 0 < n && offset < |pcm|
    ensures var end := Least(offset + n, |pcm|);
            Chunks(pcm[offset..], n, rate) == [Frame(pcm[offset..end], rate)] + Chunks(pcm[end..], n, rate)
  {
    var end := Least(offset + n, |pcm|);
    assert pcm[offset..][..end - offset] == pcm[offset..end];
    assert pcm[offset..][end - offset..] == pcm[end..];
  }

  /** Handing over the first of what remains leaves the whole as it was. */
  lemma HandOver(given: seq<Frame>, f: Frame, rest: seq<Frame>, queued: seq<Frame>, owed: seq<Frame>)
    requires given + ([f] + rest) + queued == owed
    ensures given + [f] + rest + queued == owed
    ensures given + [f] <= owed
  {}

  /** A frame queued at the end is owed at the end. */
  lemma QueueUp(given: seq<Frame>, rest: seq<Frame>, queued: seq<Frame>, sound: seq<Frame>, arrived: seq<Frame>,
                f: Frame)
    ensures given + rest + queued == sound + arrived ==> given + rest + (queued + [f]) == sound + (arrived + [f])
    ensures given + queued == sound + arrived ==> given + (queued + [f]) == sound + (arrived + [f])
    ensures given <= sound + arrived ==> given <= sound + (arrived + [f])
  {
    assert given + rest + (queued + [f]) == given + rest + queued + [f];
    assert given + (queued + [f]) == given + queued + [f];
    assert sound + (arrived + [f]) == sound + arrived + [f];
  }

  function Sound(frames: seq<Frame>): Bytes {
    if frames == [] then [] else frames[0].audio + Sound(frames[1..])
  }

  /** The frames carry the PCM exactly, at the given rate, each full but the last. */
  lemma {:induction false} ChunksCarryThePcm(pcm: Bytes, n: nat, rate: int)
    requires 0 < n
    ensures Sound(Chunks(pcm, n, rate)) == pcm
    ensures forall k :: 0 <= k < |Chunks(pcm, n, rate)| ==>
              var f := Chunks(pcm, n, rate)[k];
              && f.rate == rate
              && 0 < |f.audio| <= n
              && (k + 1 < |Chunks(pcm, n, rate)| ==> |f.audio| == n)
    decreases |pcm|
  {
    if pcm != [] {
      var k := Least(n, |pcm|);
      ChunksCarryThePcm(pcm[k..], n, rate);
      assert pcm == pcm[..k] + pcm[k..];
    }
  }

  class StartupAudio {
    const id: int
    const inputRate: int
    const resample: Bytes -> Bytes
    var closed: bool
    var complete: bool
    var ready: bool
    var drained: bool
    var bound: bool
    var armed: bool
    var nextSeq: nat
    var ws: Bytes
    var rtp: seq<Frame>
    var reserved: int
    var phase: Phase
    var failures: seq<Code>

    /** History: PCM accepted over the WebSocket and in how many frames, RTP frames
        accepted, live frames passed on, and everything the consumer was handed. */
    ghost var heard: Bytes
    ghost var accepted: nat
    ghost var arrived: seq<Frame>
    ghost var live: seq<Frame>
    ghost var sink: seq<Frame>

    function ChunkBytes(): (n: int)
    {
      inputRate * 2 * 20 / 1000
    }

    ghost function Converted(): Bytes
      reads this
    {
      if heard != [] && inputRate != 16000 then resample(heard) else heard
    }

    /** What the consumer is owed before live input: all WS sound, then early RTP. */
    ghost function Owed(): seq<Frame>
      requires inputRate == 16000 || inputRate == 24000
      reads this
    {
      Chunks(Converted(), ChunkBytes(), inputRate) + arrived
    }

    /** Reserved bytes the resampler's output did not give back. */
    ghost function Residue(): int
      requires inputRate == 16000 || inputRate == 24000
      reads this
    {
      Cost(|heard|, 16000) - Cost(|Converted()|, inputRate)
    }

    /** What holds of a buffer that is still open, point by point of the drain. */
    ghost predicate Open()
      requires inputRate == 16000 || inputRate == 24000
      requires Rated(rtp)
      reads this
    {
      match phase
      case Idle => !drained && Untouched()
      case Queued => !drained && Untouched() && complete && ready && bound
      case Resampling(pcm) => !drained && Untouched() && complete && pcm == heard && heard != [] && inputRate != 16000
      case Playing(pcm, offset) =>
        && !drained && complete && ws == [] && pcm == Converted() && offset < |pcm|
        && sink + Chunks(pcm[Least(offset + ChunkBytes(), |pcm|)..], ChunkBytes(), inputRate) + rtp == Owed()
        && reserved == Cost(|heard|, 16000) + TotalCost(rtp)
      case Relaying(frame) =>
        && !drained && complete && ws == [] && 0 < frame.rate
        && sink + rtp == Owed()
        && reserved == Residue() + Cost(|frame.audio|, frame.rate) + TotalCost(rtp)
      case Over => drained
    }

    ghost predicate Untouched()
      requires Rated(rtp)
      reads this
    {
      && ws == heard && rtp == arrived && sink == []
      && reserved == Cost(|heard|, 16000) + TotalCost(rtp)
    }

    ghost predicate Valid()
      reads this
    {
      && (inputRate == 16000 || inputRate == 24000)
      && Rated(rtp)
      && |heard| % 2 == 0
      && nextSeq == accepted % 65536
      && (phase.Relaying? ==> 0 < phase.frame.rate)
      && (armed <==> !closed && !drained)
      && |failures| <= 1 && (failures != [] ==> closed)
      && (!closed ==> reserved <= LIMIT && Open())
      && (closed ==> ws == [] && rtp == [])
      && (!drained ==> live == [] && sink <= Owed())
      && (drained ==> complete && rtp == [] && sink == Owed() + live)
      && (drained && !closed ==> reserved == Residue())
    }

    constructor (startupId: int, rate: int, convert: Bytes -> Bytes)
      requires rate == 16000 || rate == 24000
      ensures Valid() && !closed && !drained && phase.Idle?
      ensures id == startupId && inputRate == rate && resample == convert
      ensures heard == [] && arrived == [] && sink == [] && failures == []
    {
      id, inputRate, resample := startupId, rate, convert;
      closed, complete, ready, drained, bound, armed := false, false, false, false, false, true;
      nextSeq, ws, rtp, reserved, phase, failures := 0, [], [], 0, Idle, [];
      heard, accepted, arrived, live, sink := [], 0, [], [], [];
    }

    method Close()
      requires Valid()
      modifies this`closed, this`armed, this`ws, this`rtp, this`reserved
      ensures Valid() && closed && reserved == 0
      ensures !armed && ws == [] && rtp == []
    {
      closed, armed := true, false;
      ws, rtp, reserved := [], [], 0;
    }

    /** Reported to the owner at most once, and only by closing. */
    method Fail(code: Code)
      requires Valid()
      modifies this`closed, this`armed, this`ws, this`rtp, this`reserved, this`failures
      ensures Valid() && closed
      ensures failures == if old(closed) then old(failures) else [code]
    {
      if closed {
        return;
      }
      Close();
      failures := failures + [code];
    }

    method AppendWs(sequence: nat, pcm: Bytes)
      requires Valid()
      modifies this
      ensures Valid()
      ensures unchanged(`complete, `ready, `bound, `drained, `phase, `arrived, `live, `sink)
      ensures old(closed || complete) ==> unchanged(this)
      ensures !old(closed || complete) ==>
                var wellFormed := sequence == old(nextSeq) && pcm != [] && |pcm| % 2 == 0;
                var fits := old(reserved) + |pcm| / 2 * 3 <= LIMIT;
                if wellFormed && fits then
                  && !closed && heard == old(heard) + pcm && accepted == old(accepted) + 1
                  && failures == old(failures) && rtp == old(rtp)
                else
                  && closed && heard == old(heard) && accepted == old(accepted)
                  && failures == [if wellFormed then Overflow else Sequence]
    {
      hide Chunks, TotalCost, Cost;
      if closed || complete {
        return;
      }
      if sequence != nextSeq || pcm == [] || |pcm| % 2 != 0 {
        Fail(Sequence);
        return;
      }
      EvenCostAdds(|pcm|, 0);
      if reserved + Cost(|pcm|, 16000) <= LIMIT {
        KeepWs(pcm);
      } else {
        Fail(Overflow);
      }
    }

    method KeepWs(pcm: Bytes)
      requires Valid() && !closed && !complete && |pcm| % 2 == 0 && reserved + Cost(|pcm|, 16000) <= LIMIT
      modifies this`ws, this`reserved, this`nextSeq, this`heard, this`accepted
      ensures Valid() && heard == old(heard) + pcm && accepted == old(accepted) + 1
    {
      hide Chunks, TotalCost, Cost;
      EvenCostAdds(|heard|, |pcm|);
      SequenceWraps(accepted);
      reserved := reserved + Cost(|pcm|, 16000);
      ws := ws + pcm;
      nextSeq := (nextSeq + 1) % 65536;
      heard, accepted := heard + pcm, accepted + 1;
    }

    /** True means the startup owns the frame, a discarded one included. */
    method AppendRtp(frame: Frame) returns (owned: bool)
      requires Valid() && 0 < frame.rate
      modifies this
      ensures Valid()
      ensures unchanged(`complete, `ready, `bound, `drained, `phase, `heard, `accepted, `nextSeq, `live, `sink)
      ensures owned <==> old(closed) || !drained
      ensures old(closed) || !owned ==> unchanged(this)
      ensures !old(closed) && owned ==>
                if old(reserved) + Cost(|frame.audio|, frame.rate) <= LIMIT
                then !closed && arrived == old(arrived) + [frame] && rtp == old(rtp) + [frame]
                    && failures == old(failures)
                else closed && arrived == old(arrived) && failures == [Overflow]
    {
      hide Chunks, TotalCost, Cost;
      if closed {
        return true;
      }
      if drained {
        return false;
      }
      if reserved + Cost(|frame.audio|, frame.rate) <= LIMIT {
        Keep(frame);
      } else {
        Fail(Overflow);
      }
      owned := true;
    }

    method Keep(frame: Frame)
      requires Valid() && !closed && !drained && 0 < frame.rate
      requires reserved + Cost(|frame.audio|, frame.rate) <= LIMIT
      modifies this`reserved, this`rtp, this`arrived
      ensures Valid() && rtp == old(rtp) + [frame] && arrived == old(arrived) + [frame]
      ensures reserved == old(reserved) + Cost(|frame.audio|, frame.rate)
    {
      hide Chunks, TotalCost, Cost;
      CostOfAppended(rtp, frame);
      var n := ChunkBytes();
      QueueUp(sink, if phase.Playing? then Chunks(phase.pcm[Least(phase.offset + n, |phase.pcm|)..], n, inputRate)
          else [],
              rtp, Chunks(Converted(), n, inputRate), arrived, frame);
      reserved := reserved + Cost(|frame.audio|, frame.rate);
      rtp := rtp + [frame];
      arrived := arrived + [frame];
    }

    method FinishWs(startupId: int, count: nat) returns (ok: bool)
      requires Valid()
      modifies this
      ensures Valid()
      ensures unchanged(`ready, `bound, `drained, `heard, `accepted, `arrived, `live, `sink, `nextSeq)
      ensures ok <==> !old(closed) && startupId == id && count == nextSeq
      ensures ok ==> complete && closed == old(closed) && failures == old(failures) && rtp == old(rtp)
      ensures ok ==> phase == if StartsDrain() && old(phase).Idle? then Queued else old(phase)
      ensures !old(closed) && startupId == id && count != nextSeq ==> closed && failures == [Sequence]
      ensures old(closed) || startupId != id ==> unchanged(this)
    {
      if closed || startupId != id {
        return false;
      }
      if count != nextSeq {
        Fail(Sequence);
        return false;
      }
      complete := true;
      MaybeDrain();
      ok := true;
    }

    method Bind()
      requires Valid()
      modifies this`bound, this`phase
      ensures Valid() && bound
      ensures phase == if StartsDrain() && old(phase).Idle? then Queued else old(phase)
    {
      hide Chunks, TotalCost, Cost;
      bound := true;
      MaybeDrain();
    }

    method MarkReady()
      requires Valid()
      modifies this`ready, this`phase
      ensures Valid() && ready
      ensures phase == if StartsDrain() && old(phase).Idle? then Queued else old(phase)
    {
      hide Chunks, TotalCost, Cost;
      ready := true;
      MaybeDrain();
    }

    /** Everything that the drain needs is there. */
    predicate StartsDrain()
      reads this
    {
      !closed && !drained && complete && ready && bound
    }

    /** The drain task is created once, when everything it needs is there. */
    method MaybeDrain()
      requires Valid()
      modifies this`phase
      ensures Valid()
      ensures phase == if StartsDrain() && old(phase).Idle? then Queued else old(phase)
    {
      if !closed && !drained && complete && ready && bound && phase.Idle? {
        phase := Queued;
      }
    }

    /** The drain task's first step, up to the resampler or the first hand-over. */
    method Begin()
      requires Valid() && !closed && phase.Queued?
      modifies this
      ensures Valid() && (phase.Resampling? || |sink| == 1 || drained)
      ensures unchanged(`heard, `arrived, `live, `accepted, `nextSeq, `closed, `failures, `complete)
    {
      if ws != [] && inputRate != 16000 {
        phase := Resampling(ws);
      } else {
        PlayFirst(ws);
      }
    }

    method Resampled(ok: bool)
      requires Valid() && !closed && phase.Resampling?
      modifies this
      ensures Valid()
      ensures unchanged(`heard, `arrived, `live, `accepted, `nextSeq, `complete)
      ensures if ok then !closed && (|sink| == 1 || drained) else closed && failures == [Failed]
    {
      if ok {
        PlayFirst(resample(phase.pcm));
      } else {
        Fail(Failed);
        phase := Over;
      }
    }

    /** The converted segment is in hand: pass its first chunk on, if it has any. */
    method PlayFirst(pcm: Bytes)
      requires Valid() && !closed && !drained && Untouched() && complete && pcm == Converted()
      modifies this`ws, this`rtp, this`reserved, this`phase, this`sink, this`drained, this`armed
      ensures Valid() && (|sink| == 1 || drained)
    {
      ws := [];
      if pcm != [] {
        PlayAt(pcm, 0);
      } else {
        Relay(pcm);
      }
    }

    ghost predicate Due(pcm: Bytes, offset: nat)
      requires inputRate == 16000 || inputRate == 24000
      requires offset <= |pcm| && Rated(rtp)
      reads this
    {
      && complete && ws == [] && pcm == Converted() && |heard| % 2 == 0 && nextSeq == accepted % 65536
      && armed && |failures| <= 1 && failures == [] && live == [] && reserved <= LIMIT
      && sink + Chunks(pcm[offset..], ChunkBytes(), inputRate) + rtp == Owed()
      && reserved == Cost(|heard|, 16000) + TotalCost(rtp)
    }

    method PlayAt(pcm: Bytes, offset: nat)
      requires inputRate == 16000 || inputRate == 24000
      requires !closed && !drained && Rated(rtp) && offset < |pcm| && Due(pcm, offset)
      modifies this`phase, this`sink
      ensures Valid() && phase == Playing(pcm, offset) && |sink| == |old(sink)| + 1
    {
      hide Chunks, Cost, TotalCost;
      var end := Least(offset + ChunkBytes(), |pcm|);
      var frame := Frame(pcm[offset..end], inputRate);
      NextChunk(pcm, offset, ChunkBytes(), inputRate);
      HandOver(sink, frame, Chunks(pcm[end..], ChunkBytes(), inputRate), rtp, Owed());
      sink, phase := sink + [frame], Playing(pcm, offset);
    }

    /** The WS segment has been handed over: give its reservation back and go on
        with the RTP queue. */
    method Relay(pcm: Bytes)
      requires inputRate == 16000 || inputRate == 24000
      requires !closed && !drained && Rated(rtp) && Due(pcm, |pcm|)
      modifies this`rtp, this`reserved, this`phase, this`sink, this`drained, this`armed
      ensures Valid() && (|sink| == |old(sink)| + 1 || drained)
    {
      assert pcm[|pcm|..] == [];
      assert sink + [] == sink;
      reserved := reserved - Cost(|pcm|, inputRate);
      RelayNext();
    }

    method RelayNext()
      requires inputRate == 16000 || inputRate == 24000
      requires !closed && !drained && complete && ws == [] && |heard| % 2 == 0 && nextSeq == accepted % 65536
      requires armed && failures == [] && live == [] && Rated(rtp)
      requires sink + rtp == Owed() && reserved == Residue() + TotalCost(rtp) && reserved <= LIMIT
      modifies this`rtp, this`reserved, this`phase, this`sink, this`drained, this`armed
      ensures Valid()
      ensures if old(rtp) == [] then drained && sink == old(sink) else !drained && sink == old(sink) + [old(rtp)[0]]
    {
      if rtp != [] {
        var frame := rtp[0];
        assert rtp == [frame] + rtp[1..];
        assert sink + rtp == sink + [frame] + rtp[1..];
        rtp := rtp[1..];
        sink, phase := sink + [frame], Relaying(frame);
      } else {
        assert sink + [] == sink && Owed() + [] == Owed();
        drained, armed, phase := true, false, Over;
      }
    }

    /** The consumer returned. Nothing is awaited between seeing an empty queue
        and releasing live input. */
    method Consumed(ok: bool)
      requires Valid() && (phase.Playing? || phase.Relaying?)
      modifies this
      ensures Valid()
      ensures unchanged(`heard, `arrived, `live, `accepted, `nextSeq, `complete)
      ensures if old(closed) || !ok then closed && sink == old(sink) && drained == old(drained)
          else |sink| == |old(sink)| + 1 || drained
    {
      if !ok {
        Fail(Failed);
        phase := Over;
        return;
      }
      if phase.Playing? {
        Played();
      } else {
        Relayed();
      }
    }

    method Played()
      requires Valid() && phase.Playing?
      modifies this`ws, this`rtp, this`reserved, this`phase, this`sink, this`drained, this`armed
      ensures Valid()
      ensures if old(closed) then sink == old(sink) && drained == old(drained) else |sink| == |old(sink)| + 1 || drained
    {
      hide Chunks, TotalCost, Cost;
      var pcm, next := phase.pcm, Least(phase.offset + ChunkBytes(), |phase.pcm|);
      if next < |pcm| {
        if closed {
          phase := Over;
        } else {
          PlayAt(pcm, next);
        }
      } else if closed {
        reserved := reserved - Cost(|pcm|, inputRate);
        phase := Over;
      } else {
        Relay(pcm);
      }
    }

    method Relayed()
      requires Valid() && phase.Relaying?
      modifies this`ws, this`rtp, this`reserved, this`phase, this`sink, this`drained, this`armed
      ensures Valid()
      ensures if old(closed) then sink == old(sink) && drained == old(drained) else |sink| == |old(sink)| + 1 || drained
    {
      hide Chunks, TotalCost, Cost;
      reserved := reserved - Cost(|phase.frame.audio|, phase.frame.rate);
      if closed {
        phase := Over;
      } else {
        RelayNext();
      }
    }

    /** Closing from another task cancels the drain at its await. */
    method Cancelled()
      requires Valid() && closed && !phase.Idle?
      modifies this`phase
      ensures Valid() && phase.Over?
    {
      phase := Over;
    }

    /** The 20-second limit on the whole cutover. */
    method TimedOut()
      requires Valid() && armed
      modifies this`closed, this`armed, this`ws, this`rtp, this`reserved, this`failures
      ensures Valid() && closed && failures == [Timeout] && !drained
    {
      Fail(Timeout);
    }

    /** The processor in front: early audio is kept, live audio passes through, a
        start frame binds the consumer, a cancel or end frame closes. */
    method Process(input: Input)
      requires Valid() && (input.Audio? ==> 0 < input.frame.rate)
      modifies this
      ensures Valid()
      ensures input.Audio? && old(drained && !closed) ==>
                sink == old(sink) + [input.frame] && live == old(live) + [input.frame] && arrived == old(arrived)
      ensures input.Audio? && !old(drained && !closed) ==> sink == old(sink) && live == old(live)
      ensures input.Stopped? ==> closed && sink == old(sink) && failures == old(failures)
      ensures input.Started? ==> bound && ready && sink == old(sink) && closed == old(closed)
      ensures input.Started? && StartsDrain() ==> !phase.Idle?
    {
      hide Chunks, TotalCost, Cost, Open;
      match input
      case Stopped => Close();
      case Audio(frame) =>
        var owned := AppendRtp(frame);
        if !owned { PassOn(frame); }
      case Started => Attach();
    }

    /** Live audio goes straight to the consumer. */
    method PassOn(frame: Frame)
      requires Valid() && drained && !closed
      modifies this`live, this`sink
      ensures Valid() && sink == old(sink) + [frame] && live == old(live) + [frame]
    {
      hide Chunks, TotalCost, Cost;
      assert Owed() + (live + [frame]) == Owed() + live + [frame];
      live, sink := live + [frame], sink + [frame];
    }

    method Attach()
      requires Valid()
      modifies this`bound, this`ready, this`phase
      ensures Valid() && bound && ready
      ensures phase == if StartsDrain() && old(phase).Idle? then Queued else old(phase)
    {
      hide Chunks, TotalCost, Cost;
      Bind();
      MarkReady();
    }

    /** What the interleavings come to: nothing is lost, doubled or overtaken. */
    lemma Cutover()
      requires Valid()
      ensures Sound(Chunks(Converted(), ChunkBytes(), inputRate)) == Converted()
      ensures ChunkBytes() == if inputRate == 16000 then 640 else 960
      ensures !drained ==> sink <= Owed()
      ensures drained ==> sink == Chunks(Converted(), ChunkBytes(), inputRate) + arrived + live
      ensures !closed && !drained && (phase.Idle? || phase.Queued? || phase.Resampling?) ==>
                reserved == |heard| / 2 * 3 + TotalCost(arrived) <= LIMIT
      ensures !closed && drained && inputRate == 16000 ==> reserved == 0
    {
      ChunksCarryThePcm(Converted(), ChunkBytes(), inputRate);
      EvenCostAdds(|heard|, 0);
    }
  }
}
