/**
 * The straight-key keyer (CTS-Straight-Keyer.py): the degenerate scheduler.
 * Every poll tick copies the CTS level into the gate and sleeps one poll
 * interval; there is no element timing at all. The audio stream is opened
 * with a fixed block size, so callback n starts at a known sample index.
 */
module StraightKeyer {
  import opened Maybe
  import opened Timing
  import opened SerialLines
  import opened Sidetone

  /** The block size the audio stream is opened with. */
  const BlockSize: nat := 256

  /** The gate history of a run of ticks: one poll interval per reading, at the CTS level read. */
  function Mirror(s: seq<Lines>): seq<Segment>
  {
    if s == [] then [] else [Segment(s[0].cts, Poll)] + Mirror(s[1..])
  }

  /** Tick k holds the gate at exactly the CTS level read on tick k, for one poll interval. */
  lemma {:induction false} MirrorFollowsCts(s: seq<Lines>, k: nat)
    requires k < |s|
    ensures |Mirror(s)| == |s|
    ensures Mirror(s)[k] == Segment(s[k].cts, Poll)
  {
    MirrorLength(s);
    if k > 0 {
      MirrorFollowsCts(s[1..], k - 1);
    }
  }

  lemma {:induction false} MirrorLength(s: seq<Lines>)
    ensures |Mirror(s)| == |s|
  {
    if s != [] {
      MirrorLength(s[1..]);
    }
  }

  /** With every block of BlockSize frames, callback n (counting from 1) starts at index BlockSize * (n - 1). */
  lemma NthBlockStart(calls: seq<Call>, n: nat)
    requires forall k :: 0 <= k < |calls| ==> calls[k].frames == BlockSize
    requires 1 <= n <= |calls|
    ensures FrameTotal(calls[..n - 1]) == BlockSize * (n - 1)
  {
    FrameTotalUniform(calls[..n - 1], BlockSize);
  }

  class StraightKeyer {
    const port: Sampler
    const tone: ToneSynth
    const clock: Timeline

    constructor (port: Sampler, tone: ToneSynth, clock: Timeline)
      ensures this.port == port && this.tone == tone && this.clock == clock
    {
      this.port := port;
      this.tone := tone;
      this.clock := clock;
    }

    /** One poll tick: the gate takes the CTS level, then one poll interval passes. False when nothing is left to read. */
    method Tick() returns (more: bool)
      requires port.Valid()
      modifies tone`gate, port`pos, clock`trace
      ensures port.Valid()
      ensures more == (old(port.pos) < |port.levels|)
      ensures more ==> port.pos == old(port.pos) + 1 && tone.gate == port.levels[old(port.pos)].cts
      ensures more ==> clock.trace == old(clock.trace) + [Segment(tone.gate, Poll)]
      ensures more ==> port.Pending() == old(port.Pending())[1..]
      ensures !more ==> port.pos == old(port.pos) && tone.gate == old(tone.gate) && clock.trace == old(clock.trace)
    {
      var r := port.Read();
      if r.None? {
        return false;
      }
      tone.gate := r.value.cts;
      clock.Sleep(tone.gate, Poll);
      more := true;
    }

    /**
     * The poll loop, run until no reading is left. The gate history is the
     * CTS readings, one poll interval each; the gate ends at the last level
     * read; the tone generator's phase is never touched.
     */
    method Run()
      requires port.Valid()
      modifies tone`gate, port`pos, clock`trace
      ensures port.Valid() && port.pos == |port.levels|
      ensures clock.trace == old(clock.trace) + Mirror(old(port.Pending()))
      ensures old(port.pos) < |port.levels| ==> tone.gate == port.levels[|port.levels| - 1].cts
      ensures old(port.pos) == |port.levels| ==> tone.gate == old(tone.gate)
      ensures tone.phase == old(tone.phase)
    {
      ghost var goal := old(clock.trace) + Mirror(port.Pending());
      while true
        invariant port.Valid() && port.pos >= old(port.pos)
        invariant goal == clock.trace + Mirror(port.Pending())
        invariant port.pos > old(port.pos) ==> tone.gate == port.levels[port.pos - 1].cts
        invariant port.pos == old(port.pos) ==> tone.gate == old(tone.gate)
        decreases |port.levels| - port.pos
      {
        ghost var pending, t0 := port.Pending(), clock.trace;
        var more := Tick();
        if !more {
          return;
        }
        assert Mirror(pending) == [Segment(pending[0].cts, Poll)] + Mirror(port.Pending());
        assert goal == t0 + ([Segment(tone.gate, Poll)] + Mirror(port.Pending()));
      }
    }
  }
}
