/**
 * The serial port's control lines as the keyers see them. Reading the port is
 * replaced by a fixed sequence of levels handed out one reading at a time; a
 * read once the sequence is used up finds nothing, which ends a run.
 */
module SerialLines {
  import opened Maybe

  /** The two input control lines: CTS carries the dit paddle or the straight key, DSR the dah paddle. */
  datatype Lines = Lines(cts: bool, dsr: bool)

  class Sampler {
    const levels: seq<Lines>
    var pos: nat

    ghost predicate Valid()
      reads this
    {
      pos <= |levels|
    }

    constructor (levels: seq<Lines>)
      ensures Valid() && this.levels == levels && pos == 0
    {
      this.levels := levels;
      pos := 0;
    }

    /** The levels still to be read, in order. */
    ghost function Pending(): (rest: seq<Lines>)
      reads this
      requires Valid()
      ensures |rest| == |levels| - pos
    {
      levels[pos..]
    }

    /** One reading of both lines, or None when no reading is left. */
    method Read() returns (r: Option<Lines>)
      requires Valid()
      modifies this`pos
      ensures Valid()
      ensures old(pos) < |levels| ==> r == Some(levels[old(pos)]) && pos == old(pos) + 1
      ensures old(pos) == |levels| ==> r == None && pos == old(pos)
      ensures r.Some? ==> old(Pending()) != [] && r.value == old(Pending())[0] && Pending() == old(Pending())[1..]
      ensures r.None? ==> Pending() == old(Pending()) == []
    {
      if pos < |levels| {
        r := Some(levels[pos]);
        pos := pos + 1;
      } else {
        r := None;
      }
    }
  }
}
