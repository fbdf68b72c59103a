/**
 * The gated sidetone shared by both keyers (the `callback` of each script).
 *
 * The audio driver calls `Callback` once per block. Sample i of a block is
 * taken at global sample index `phase + i`; the block is the waveform there
 * when the gate is on and silence when it is off; `phase` then moves on by the
 * block's length whatever the gate was. The sine itself is abstracted into a
 * waveform `wave` of the global sample index, so continuity can be stated
 * exactly: the sample at global index n is always `wave(n)` or silence.
 */
module Sidetone {
  import opened Seqs

  /** One callback as it happened: the gate level at call time and the frames asked for. */
  datatype Call = Call(gate: bool, frames: nat)

  /** What the output holds at global sample index n under a given gate level. */
  function Tone(wave: nat -> real, gate: bool, n: nat): real
  {
    if gate then wave(n) else 0.0
  }

  /** The block one callback writes: the waveform from `phase` on, or all zeros. */
  function Block(wave: nat -> real, gate: bool, phase: nat, frames: nat): (b: seq<real>)
    ensures |b| == frames
    ensures forall i :: 0 <= i < frames ==> b[i] == Tone(wave, gate, phase + i)
  {
    if gate then seq(frames, i requires 0 <= i < frames => wave(phase + i))
    else seq(frames, _ => 0.0)
  }

  /** The number of frames rendered by a sequence of callbacks. */
  function FrameTotal(calls: seq<Call>): nat
  {
    if calls == [] then 0 else calls[0].frames + FrameTotal(calls[1..])
  }

  /** Everything a sequence of callbacks writes, starting at global index `phase`. */
  function Render(wave: nat -> real, phase: nat, calls: seq<Call>): (out: seq<real>)
    ensures |out| == FrameTotal(calls)
    decreases calls
  {
    if calls == [] then []
    else Block(wave, calls[0].gate, phase, calls[0].frames) + Render(wave, phase + calls[0].frames, calls[1..])
  }

  /** The gate level of the callback that wrote the n-th rendered sample. */
  function GateAt(calls: seq<Call>, n: nat): bool
    requires n < FrameTotal(calls)
  {
    if n < calls[0].frames then calls[0].gate else GateAt(calls[1..], n - calls[0].frames)
  }

  /**
   * Phase continuity: whatever the gate did between callbacks, the n-th
   * rendered sample is the waveform at global index `phase + n`, or silence.
   * Blocks therefore cover adjacent, non-overlapping index ranges.
   */
  lemma {:induction false} RenderContinuous(wave: nat -> real, phase: nat, calls: seq<Call>, n: nat)
    requires n < FrameTotal(calls)
    ensures Render(wave, phase, calls)[n] == Tone(wave, GateAt(calls, n), phase + n)
    decreases calls
  {
    if n >= calls[0].frames {
      RenderContinuous(wave, phase + calls[0].frames, calls[1..], n - calls[0].frames);
    }
  }

  /** While the gate is off for a whole run of callbacks, nothing but silence is rendered. */
  lemma {:induction false} GateOffSilent(wave: nat -> real, phase: nat, calls: seq<Call>)
    requires forall k :: 0 <= k < |calls| ==> !calls[k].gate
    ensures forall n :: 0 <= n < |Render(wave, phase, calls)| ==> Render(wave, phase, calls)[n] == 0.0
    decreases calls
  {
    if calls != [] {
      GateOffSilent(wave, phase + calls[0].frames, calls[1..]);
    }
  }

  /** The phase after a callback history is the sum of the frame counts. */
  lemma {:induction false} FrameTotalSnoc(calls: seq<Call>, c: Call)
    ensures FrameTotal(calls + [c]) == FrameTotal(calls) + c.frames
  {
    if calls != [] {
      assert (calls + [c])[1..] == calls[1..] + [c];
      FrameTotalSnoc(calls[1..], c);
    }
  }

  /** With every block of the same size, the frame total is that size times the number of calls. */
  lemma {:induction false} FrameTotalUniform(calls: seq<Call>, size: nat)
    requires forall k :: 0 <= k < |calls| ==> calls[k].frames == size
    ensures FrameTotal(calls) == size * |calls|
  {
    if calls != [] {
      FrameTotalUniform(calls[1..], size);
    }
  }

  /** One more callback appends exactly its block, taken at the phase the history left. */
  lemma {:induction false} RenderSnoc(wave: nat -> real, phase: nat, calls: seq<Call>, c: Call)
    ensures Render(wave, phase, calls + [c]) == Render(wave, phase, calls) + Block(wave, c.gate, phase + FrameTotal(calls), c.frames)
    decreases calls
  {
    if calls == [] {
      assert calls + [c] == [c];
    } else {
      var head, rest := calls[0], calls[1..];
      var first := Block(wave, head.gate, phase, head.frames);
      var last := Block(wave, c.gate, phase + FrameTotal(calls), c.frames);
      assert (calls + [c])[0] == head;
      assert (calls + [c])[1..] == rest + [c];
      var mid := Render(wave, phase + head.frames, rest);
      RenderSnoc(wave, phase + head.frames, rest, c);
      assert FrameTotal(calls) == head.frames + FrameTotal(rest);
      assert Render(wave, phase, calls + [c]) == first + (mid + last);
      Assoc(first, mid, last);
    }
  }

  /**
   * The tone generator. `gate` is written by a control loop and only read
   * here; `phase` is owned here, starts at 0 and is advanced by every callback.
   * The ghost history `calls` and `output` record every callback and every
   * sample ever written, and `Valid` ties them to `phase`.
   */
  class ToneSynth {
    const wave: nat -> real
    var gate: bool
    var phase: nat
    ghost var calls: seq<Call>
    ghost var output: seq<real>

    ghost predicate Valid()
      reads this
    {
      phase == FrameTotal(calls) && output == Render(wave, 0, calls)
    }

    constructor (wave: nat -> real)
      ensures Valid()
      ensures this.wave == wave && !gate && phase == 0 && calls == []
    {
      this.wave := wave;
      gate := false;
      phase := 0;
      calls := [];
      output := [];
    }

    /** Fills `outdata` with one block and advances the phase by `frames`. */
    method Callback(outdata: array<real>, frames: nat)
      requires Valid() && outdata.Length == frames
      modifies outdata, this`phase, this`calls, this`output
      ensures Valid()
      ensures outdata[..] == Block(wave, gate, old(phase), frames)
      ensures phase == old(phase) + frames
      ensures calls == old(calls) + [Call(gate, frames)]
      ensures output == old(output) + outdata[..]
    {
      var start := phase;
      var samples := seq(frames, i requires 0 <= i < frames => wave(start + i));
      if gate {
        forall i | 0 <= i < frames {
          outdata[i] := samples[i];
        }
      } else {
        forall i | 0 <= i < frames {
          outdata[i] := 0.0;
        }
      }
      assert forall i :: 0 <= i < frames ==> outdata[..][i] == Block(wave, gate, start, frames)[i];
      assert outdata[..] == Block(wave, gate, start, frames);
      RenderSnoc(wave, 0, calls, Call(gate, frames));
      FrameTotalSnoc(calls, Call(gate, frames));
      calls := calls + [Call(gate, frames)];
      output := output + outdata[..];
      phase := phase + frames;
    }
  }
}
