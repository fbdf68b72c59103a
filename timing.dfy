/**
 * Time as the keyers spend it. Both control loops pass time only by sleeping:
 * an element's mark or space (a whole number of dits) or one fixed poll
 * interval. A `Timeline` records every sleep together with the gate level
 * that held during it, which is what the audio path hears.
 */
module Timing {

  /** The poll interval of both control loops, in seconds. */
  const PollSeconds: real := 0.005

  /** How long one sleep lasts: a number of dits, or one poll interval. */
  datatype Span = Dits(count: nat) | Poll

  /** One sleep, with the gate level that held for all of it. */
  datatype Segment = Segment(gate: bool, span: Span)

  /** Stands for `time.sleep`: the only way the control loops let time pass. */
  class Timeline {
    var trace: seq<Segment>

    constructor ()
      ensures trace == []
    {
      trace := [];
    }

    /** Sleeps for `span` while the gate stays at `gate`. */
    method Sleep(gate: bool, span: Span)
      modifies this`trace
      ensures trace == old(trace) + [Segment(gate, span)]
    {
      trace := trace + [Segment(gate, span)];
    }
  }
}
