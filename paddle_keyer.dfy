/**
 * The Iambic-A paddle keyer (CTSTSR-Paddle-Keyer.py).
 *
 * CTS is the dit paddle and DSR the dah paddle. The control loop samples both,
 * sends a dit or a dah when exactly one is pressed, sleeps one poll interval
 * when neither is, and enters the squeeze loop when both are. The squeeze loop
 * alternates dit, dah, dit, ... and re-samples before every element; the first
 * sample in which either paddle is up ends it without sending anything more.
 *
 * The first half of the module states that schedule as a function of the
 * samples (`Step`, `Events`) and proves what it promises. The second half,
 * `IambicKeyer`, is the control loop itself, with its nested loops, proved to
 * print and to gate exactly what the schedule says.
 */
module PaddleKeyer {
  import opened Maybe
  import opened Timing
  import opened SerialLines
  import opened Sidetone
  import opened Seqs

  /** The configured speed and the dit length it gives (1.2 / WPM seconds). */
  const WordsPerMinute: real := 20.0
  const DitSeconds: real := 1.2 / WordsPerMinute

  /** One dit (DIT), the unit every mark and space is measured in. */
  const DitUnits: nat := 1

  datatype Element = Dit | Dah

  /** Mark length in dits: DIT for a dit, DIT * 3 for a dah. */
  function Units(e: Element): nat
  {
    match e
    case Dit => DitUnits
    case Dah => DitUnits * 3
  }

  /** The symbol printed when an element is sent. */
  function Symbol(e: Element): char
  {
    match e
    case Dit => '\U{00B7}'
    case Dah => '\U{2013}'
  }

  /** The other element: what a squeeze sends next. */
  function Other(e: Element): Element
  {
    match e
    case Dit => Dah
    case Dah => Dit
  }

  /** How long a sleep lasts in seconds at the configured speed. */
  function Seconds(s: Span): real
  {
    match s
    case Dits(n) => n as real * DitSeconds
    case Poll => PollSeconds
  }

  /** At 20 WPM a dit lasts 0.06 s, a dah 0.18 s (three dits) and the space after each 0.06 s. */
  lemma TimingAtTwentyWpm()
    ensures Seconds(Dits(Units(Dit))) == 0.06 && Seconds(Dits(DitUnits)) == 0.06
    ensures Seconds(Dits(Units(Dah))) == 0.18
    ensures Seconds(Dits(Units(Dah))) == 3.0 * Seconds(Dits(Units(Dit)))
  {
  }

  /** What sending one element does to the gate: on for its mark, then off for one dit. */
  function ElementTrace(e: Element): (t: seq<Segment>)
  {
    [Segment(true, Dits(Units(e))), Segment(false, Dits(DitUnits))]
  }

  // ---------------------------------------------------------------------------
  // The schedule as a function of the paddle samples
  // ---------------------------------------------------------------------------

  /** Where the control loop is at its next paddle read. */
  datatype Mode =
    | Top         // the top-level read of the main loop
    | SqueezeDit  // the squeeze loop's read before a dit
    | SqueezeDah  // the squeeze loop's read before a dah

  /** What the control loop does with one paddle sample. */
  datatype Action =
    | Send(element: Element)  // send one element, mark and space
    | Idle                    // neither paddle: sleep one poll interval
    | EnterSqueeze            // both paddles at the top level: start squeezing, nothing sent yet
    | ExitSqueeze             // a paddle is up inside the squeeze: leave it, nothing sent

  /** Both paddles pressed. */
  predicate Squeezed(p: Lines)
  {
    p.cts && p.dsr
  }

  /** The squeeze read that comes before element `e`. */
  function SqueezeMode(e: Element): Mode
  {
    match e
    case Dit => SqueezeDit
    case Dah => SqueezeDah
  }

  /** One paddle read: the action it causes and where the loop reads next. */
  function Step(m: Mode, p: Lines): (Mode, Action)
  {
    var dit, dah := p.cts, p.dsr;
    match m
    case Top =>
      if dit && !dah then (Top, Send(Dit))
      else if dah && !dit then (Top, Send(Dah))
      else if dit && dah then (SqueezeDit, EnterSqueeze)
      else (Top, Idle)
    case SqueezeDit =>
      if !(dit && dah) then (Top, ExitSqueeze) else (SqueezeDah, Send(Dit))
    case SqueezeDah =>
      if !(dit && dah) then (Top, ExitSqueeze) else (SqueezeDit, Send(Dah))
  }

  /** The actions caused by a run of paddle samples, one per sample, starting from mode `m`. */
  function Events(m: Mode, s: seq<Lines>): (acts: seq<Action>)
    ensures |acts| == |s|
    decreases s
  {
    if s == [] then []
    else
      var next := Step(m, s[0]);
      [next.1] + Events(next.0, s[1..])
  }

  /** The elements sent by a run of actions, in order. */
  function SentOf(acts: seq<Action>): seq<Element>
  {
    if acts == [] then []
    else (if acts[0].Send? then [acts[0].element] else []) + SentOf(acts[1..])
  }

  /** The sleeps one action performs, each with its gate level. */
  function ActionTrace(a: Action): seq<Segment>
  {
    match a
    case Send(e) => ElementTrace(e)
    case Idle => [Segment(false, Poll)]
    case EnterSqueeze => []
    case ExitSqueeze => []
  }

  /** The sleeps a run of actions performs, in order. */
  function TraceOf(acts: seq<Action>): seq<Segment>
  {
    if acts == [] then [] else ActionTrace(acts[0]) + TraceOf(acts[1..])
  }

  /** The text printed for a run of elements: one symbol per element. */
  function Symbols(es: seq<Element>): (cs: seq<char>)
    ensures |cs| == |es|
  {
    if es == [] then [] else [Symbol(es[0])] + Symbols(es[1..])
  }

  /** Reads printed text back as elements; None if a character is not an element symbol. */
  function ParseSymbols(cs: seq<char>): Option<seq<Element>>
  {
    if cs == [] then Some([])
    else
      var head := if cs[0] == Symbol(Dit) then Some(Dit) else if cs[0] == Symbol(Dah) then Some(Dah) else None;
      match (head, ParseSymbols(cs[1..]))
      case (Some(e), Some(es)) => Some([e] + es)
      case _ => None
  }

  /** Sends of each element of `es`, in order. */
  function Sends(es: seq<Element>): (acts: seq<Action>)
    ensures |acts| == |es|
  {
    if es == [] then [] else [Send(es[0])] + Sends(es[1..])
  }

  /** The first k elements of a squeeze that starts with `first`. */
  function Alternation(first: Element, k: nat): seq<Element>
    decreases k
  {
    if k == 0 then [] else [first] + Alternation(Other(first), k - 1)
  }

  /** The spans of the gate-on segments of a trace, in order. */
  function Marks(t: seq<Segment>): seq<Span>
  {
    if t == [] then [] else (if t[0].gate then [t[0].span] else []) + Marks(t[1..])
  }

  /** The mark span of each element of `es`, in order. */
  function MarkSpans(es: seq<Element>): seq<Span>
  {
    if es == [] then [] else [Dits(Units(es[0]))] + MarkSpans(es[1..])
  }

  // ---------------------------------------------------------------------------
  // What the schedule promises
  // ---------------------------------------------------------------------------

  /** Every printed text is decoded back to the elements that were sent. */
  lemma {:induction false} SymbolsRoundTrip(es: seq<Element>)
    ensures ParseSymbols(Symbols(es)) == Some(es)
  {
    if es != [] {
      var cs := Symbols(es);
      assert cs[0] == Symbol(es[0]) && cs[1..] == Symbols(es[1..]);
      SymbolsRoundTrip(es[1..]);
      assert [es[0]] + es[1..] == es;
    }
  }

  /** Text that decodes is exactly the symbols of what it decodes to. */
  lemma {:induction false} ParseSymbolsSound(cs: seq<char>)
    requires ParseSymbols(cs).Some?
    ensures Symbols(ParseSymbols(cs).value) == cs
  {
    if cs != [] {
      ParseSymbolsSound(cs[1..]);
      var es := ParseSymbols(cs).value;
      assert es[1..] == ParseSymbols(cs[1..]).value;
      assert [cs[0]] + cs[1..] == cs;
    }
  }

  /** A squeeze sends `first`, then the other element, then `first` again, and so on. */
  lemma {:induction false} AlternationAt(first: Element, k: nat, i: nat)
    requires i < k
    ensures |Alternation(first, k)| == k
    ensures Alternation(first, k)[i] == if i % 2 == 0 then first else Other(first)
    decreases k
  {
    AlternationLength(first, k);
    if i > 0 {
      AlternationAt(Other(first), k - 1, i - 1);
      assert Other(Other(first)) == first;
    }
  }

  lemma {:induction false} AlternationLength(first: Element, k: nat)
    ensures |Alternation(first, k)| == k
    decreases k
  {
    if k > 0 {
      AlternationLength(Other(first), k - 1);
    }
  }

  /** A squeeze starts with a dit and never sends the same element twice in a row. */
  lemma AlternationNeverRepeats(k: nat)
    ensures |Alternation(Dit, k)| == k
    ensures k > 0 ==> Alternation(Dit, k)[0] == Dit
    ensures forall i :: 0 <= i < k - 1 ==> Alternation(Dit, k)[i] != Alternation(Dit, k)[i + 1]
  {
    AlternationLength(Dit, k);
    if k > 0 {
      AlternationAt(Dit, k, 0);
    }
    forall i | 0 <= i < k - 1
      ensures Alternation(Dit, k)[i] != Alternation(Dit, k)[i + 1]
    {
      AlternationAt(Dit, k, i);
      AlternationAt(Dit, k, i + 1);
    }
  }

  /**
   * While both paddles stay pressed, the squeeze reads send one element each,
   * alternating from `first`; the loop then stands at the read before the next
   * element of the alternation.
   */
  lemma {:induction false} SqueezeWhileHeld(first: Element, held: seq<Lines>, rest: seq<Lines>)
    requires forall k :: 0 <= k < |held| ==> Squeezed(held[k])
    ensures Events(SqueezeMode(first), held + rest)
         == Sends(Alternation(first, |held|)) + Events(SqueezeMode(if |held| % 2 == 0 then first else Other(first)), rest)
    decreases |held|
  {
    if held == [] {
      assert held + rest == rest;
    } else {
      var s := held + rest;
      var later := Alternation(Other(first), |held| - 1);
      var last := if |held| % 2 == 0 then first else Other(first);
      assert s[0] == held[0] && s[1..] == held[1..] + rest;
      assert Step(SqueezeMode(first), held[0]) == (SqueezeMode(Other(first)), Send(first));
      assert Events(SqueezeMode(first), s) == [Send(first)] + Events(SqueezeMode(Other(first)), held[1..] + rest);
      SqueezeWhileHeld(Other(first), held[1..], rest);
      assert Other(Other(first)) == first;
      assert (if |held[1..]| % 2 == 0 then Other(first) else Other(Other(first))) == last;
      assert Sends(Alternation(first, |held|)) == [Send(first)] + Sends(later) by {
        assert Alternation(first, |held|) == [first] + later;
        assert ([first] + later)[1..] == later;
      }
      Assoc([Send(first)], Sends(later), Events(SqueezeMode(last), rest));
    }
  }

  /** A read inside the squeeze that finds a paddle up ends the squeeze; nothing is sent for it. */
  lemma SqueezeRelease(m: Mode, p: Lines, rest: seq<Lines>)
    requires m != Top && !Squeezed(p)
    ensures Events(m, [p] + rest) == [ExitSqueeze] + Events(Top, rest)
  {
    assert ([p] + rest)[1..] == rest;
  }

  /**
   * A whole squeeze: both paddles at the top-level read, then k further reads
   * with both still pressed, then a read with a paddle up. Exactly k elements
   * are sent, alternating from a dit, and control is back at the top-level
   * read after the releasing sample. With k = 0 nothing at all is sent.
   */
  lemma SqueezeBurst(enter: Lines, held: seq<Lines>, release: Lines, rest: seq<Lines>)
    requires Squeezed(enter) && !Squeezed(release)
    requires forall k :: 0 <= k < |held| ==> Squeezed(held[k])
    ensures Events(Top, [enter] + held + [release] + rest)
         == [EnterSqueeze] + Sends(Alternation(Dit, |held|)) + [ExitSqueeze] + Events(Top, rest)
  {
    var s := [enter] + held + [release] + rest;
    assert s[0] == enter && s[1..] == held + ([release] + rest);
    SqueezeWhileHeld(Dit, held, [release] + rest);
    var m := SqueezeMode(if |held| % 2 == 0 then Dit else Other(Dit));
    SqueezeRelease(m, release, rest);
  }

  /** Both paddles held for the whole run: an endless-so-far alternation starting with a dit. */
  lemma SqueezeHeldThroughout(enter: Lines, held: seq<Lines>)
    requires Squeezed(enter)
    requires forall k :: 0 <= k < |held| ==> Squeezed(held[k])
    ensures Events(Top, [enter] + held) == [EnterSqueeze] + Sends(Alternation(Dit, |held|))
  {
    var s := [enter] + held;
    assert s[0] == enter && s[1..] == held + [];
    SqueezeWhileHeld(Dit, held, []);
  }

  /** The paddle sample that has only the paddle for `e` pressed. */
  function OnlyPaddle(e: Element): Lines
  {
    match e
    case Dit => Lines(true, false)
    case Dah => Lines(false, true)
  }

  /** Holding one paddle alone sends that element once per sample, each re-sampled after its space. */
  lemma {:induction false} SinglePaddleRun(e: Element, s: seq<Lines>)
    requires forall k :: 0 <= k < |s| ==> s[k] == OnlyPaddle(e)
    ensures Events(Top, s) == Sends(seq(|s|, _ => e))
    decreases |s|
  {
    if s != [] {
      SinglePaddleRun(e, s[1..]);
      assert seq(|s|, _ => e)[1..] == seq(|s| - 1, _ => e);
    }
  }

  /** With neither paddle pressed, every sample is one idle poll and nothing is sent. */
  lemma {:induction false} NoPaddleRun(s: seq<Lines>)
    requires forall k :: 0 <= k < |s| ==> s[k] == Lines(false, false)
    ensures Events(Top, s) == seq(|s|, _ => Idle)
    ensures SentOf(Events(Top, s)) == []
    decreases |s|
  {
    if s != [] {
      NoPaddleRun(s[1..]);
      assert seq(|s|, _ => Idle)[1..] == seq(|s| - 1, _ => Idle);
    }
  }

  /** Each element sent takes one sample: no run sends more elements than it read samples. */
  /** A run never sends more elements than it read samples. */
  lemma {:induction false} SentBound(m: Mode, s: seq<Lines>)
    ensures |SentOf(Events(m, s))| <= |s|
    decreases |s|
  {
    if s != [] {
      SentBound(Step(m, s[0]).0, s[1..]);
    }
  }

  /** The actions of the first n samples depend on those samples only. */
  lemma {:induction false} EventsPrefix(m: Mode, s: seq<Lines>, n: nat)
    requires n <= |s|
    ensures Events(m, s)[..n] == Events(m, s[..n])
    decreases n
  {
    if n > 0 {
      var next := Step(m, s[0]);
      assert s[..n][0] == s[0] && s[..n][1..] == s[1..][..n - 1];
      EventsPrefix(next.0, s[1..], n - 1);
    }
  }

  /**
   * Every element is preceded by a read of its own: after the first n reads the
   * schedule is fixed by those reads alone and has sent at most n elements, so
   * the j-th element is sent no earlier than the j-th read.
   */
  lemma AtMostOneElementPerSample(m: Mode, s: seq<Lines>)
    ensures |SentOf(Events(m, s))| <= |s|
    ensures forall n :: 0 <= n <= |s| ==>
      Events(m, s)[..n] == Events(m, s[..n]) && |SentOf(Events(m, s)[..n])| <= n
  {
    SentBound(m, s);
    forall n | 0 <= n <= |s|
      ensures Events(m, s)[..n] == Events(m, s[..n]) && |SentOf(Events(m, s)[..n])| <= n
    {
      EventsPrefix(m, s, n);
      SentBound(m, s[..n]);
    }
  }

  lemma {:induction false} SentOfSends(es: seq<Element>)
    ensures SentOf(Sends(es)) == es
  {
    if es != [] {
      SentOfSends(es[1..]);
    }
  }

  lemma {:induction false} SentOfAppend(a: seq<Action>, b: seq<Action>)
    ensures SentOf(a + b) == SentOf(a) + SentOf(b)
  {
    if a == [] {
      assert a + b == b;
    } else {
      assert (a + b)[0] == a[0] && (a + b)[1..] == a[1..] + b;
      SentOfAppend(a[1..], b);
    }
  }

  /** The elements of a squeeze held for k reads and then released: the first k of dit, dah, dit, ... */
  lemma SqueezeBurstElements(enter: Lines, held: seq<Lines>, release: Lines, rest: seq<Lines>)
    requires Squeezed(enter) && !Squeezed(release)
    requires forall k :: 0 <= k < |held| ==> Squeezed(held[k])
    ensures SentOf(Events(Top, [enter] + held + [release] + rest))
         == Alternation(Dit, |held|) + SentOf(Events(Top, rest))
  {
    SqueezeBurst(enter, held, release, rest);
    var alt := Sends(Alternation(Dit, |held|));
    SentOfAppend([EnterSqueeze] + alt + [ExitSqueeze], Events(Top, rest));
    SentOfAppend([EnterSqueeze] + alt, [ExitSqueeze]);
    SentOfAppend([EnterSqueeze], alt);
    SentOfSends(Alternation(Dit, |held|));
  }

  lemma {:induction false} MarksAppend(a: seq<Segment>, b: seq<Segment>)
    ensures Marks(a + b) == Marks(a) + Marks(b)
  {
    if a == [] {
      assert a + b == b;
    } else {
      assert (a + b)[0] == a[0] && (a + b)[1..] == a[1..] + b;
      MarksAppend(a[1..], b);
    }
  }

  /** The gate is on exactly once per element sent, for that element's mark length, in send order. */
  lemma {:induction false} MarksMatchElements(acts: seq<Action>)
    ensures Marks(TraceOf(acts)) == MarkSpans(SentOf(acts))
  {
    if acts != [] {
      var t := ActionTrace(acts[0]);
      MarksAppend(t, TraceOf(acts[1..]));
      MarksMatchElements(acts[1..]);
      if acts[0].Send? {
        var e := acts[0].element;
        assert Marks(t) == [Dits(Units(e))] by {
          assert t[1..][1..] == [];
        }
        assert SentOf(acts) == [e] + SentOf(acts[1..]);
        assert ([e] + SentOf(acts[1..]))[1..] == SentOf(acts[1..]);
      } else {
        assert Marks(t) == [] by {
          if t != [] { assert t[1..] == []; }
        }
        assert SentOf(acts) == SentOf(acts[1..]);
      }
    }
  }

  /**
   * Every gate-on stretch of a trace is a dit or dah mark and is followed at
   * once by a gate-off space of exactly one dit; so the gate is never left on.
   */
  predicate WellGated(t: seq<Segment>)
  {
    forall i :: 0 <= i < |t| && t[i].gate ==>
      (t[i].span == Dits(Units(Dit)) || t[i].span == Dits(Units(Dah))) &&
      i + 1 < |t| && t[i + 1] == Segment(false, Dits(DitUnits))
  }

  lemma {:induction false} TraceWellGated(acts: seq<Action>)
    ensures WellGated(TraceOf(acts))
  {
    if acts != [] {
      TraceWellGated(acts[1..]);
      var head, tail := ActionTrace(acts[0]), TraceOf(acts[1..]);
      assert WellGated(head);
      var t := head + tail;
      forall i | 0 <= i < |t| && t[i].gate
        ensures (t[i].span == Dits(Units(Dit)) || t[i].span == Dits(Units(Dah)))
        ensures i + 1 < |t| && t[i + 1] == Segment(false, Dits(DitUnits))
      {
        if i >= |head| {
          assert t[i] == tail[i - |head|] && t[i + 1] == tail[i + 1 - |head|];
        } else {
          assert t[i] == head[i] && t[i + 1] == head[i + 1];
        }
      }
    }
  }

  lemma {:induction false} SymbolsAppend(a: seq<Element>, b: seq<Element>)
    ensures Symbols(a + b) == Symbols(a) + Symbols(b)
  {
    if a == [] {
      assert a + b == b;
    } else {
      assert (a + b)[0] == a[0] && (a + b)[1..] == a[1..] + b;
      SymbolsAppend(a[1..], b);
    }
  }

  lemma {:induction false} TraceOfCons(a: Action, acts: seq<Action>)
    ensures TraceOf([a] + acts) == ActionTrace(a) + TraceOf(acts)
    ensures SentOf([a] + acts) == (if a.Send? then [a.element] else []) + SentOf(acts)
  {
    assert ([a] + acts)[0] == a && ([a] + acts)[1..] == acts;
  }

  /** The symbols one action prints. */
  function ActionSymbols(a: Action): seq<char>
  {
    if a.Send? then [Symbol(a.element)] else []
  }

  /** The run from one sample on: that sample's action, then the run from the mode it leads to. */
  lemma EventsCons(m: Mode, pending: seq<Lines>)
    requires pending != []
    ensures Events(m, pending) == [Step(m, pending[0]).1] + Events(Step(m, pending[0]).0, pending[1..])
  {
  }

  /** What a run prints and sleeps is its first action's part followed by the rest's. */
  lemma {:induction false} OutputCons(a: Action, acts: seq<Action>)
    ensures Symbols(SentOf([a] + acts)) == ActionSymbols(a) + Symbols(SentOf(acts))
    ensures TraceOf([a] + acts) == ActionTrace(a) + TraceOf(acts)
  {
    TraceOfCons(a, acts);
    if a.Send? {
      SymbolsAppend([a.element], SentOf(acts));
      assert Symbols([a.element]) == [Symbol(a.element)] by {
        assert [a.element][1..] == [];
      }
    } else {
      assert SentOf([a] + acts) == SentOf(acts);
    }
  }

  /**
   * One step of the control loop: if the output so far plus what the run
   * `[a] + rest` schedules was the goal, and the step adds exactly action
   * `a`'s symbols and sleeps, then the output now plus what `rest` schedules
   * is still the goal.
   */
  lemma Keep(a: Action, rest: seq<Action>,
             c0: seq<char>, c1: seq<char>, t0: seq<Segment>, t1: seq<Segment>,
             goalC: seq<char>, goalT: seq<Segment>)
    requires goalC == c0 + Symbols(SentOf([a] + rest))
    requires goalT == t0 + TraceOf([a] + rest)
    requires c1 == c0 + ActionSymbols(a)
    requires t1 == t0 + ActionTrace(a)
    ensures goalC == c1 + Symbols(SentOf(rest))
    ensures goalT == t1 + TraceOf(rest)
  {
    OutputCons(a, rest);
    Shift(goalC, c0, c1, ActionSymbols(a), Symbols(SentOf(rest)));
    Shift(goalT, t0, t1, ActionTrace(a), TraceOf(rest));
  }

  // ---------------------------------------------------------------------------
  // The control loop
  // ---------------------------------------------------------------------------

  /**
   * The keyer's main loop. It writes the gate of the shared tone generator,
   * prints one symbol per element to the console, and lets time pass only
   * through `clock`. It never touches the tone generator's phase.
   */
  class IambicKeyer {
    const port: Sampler
    const tone: ToneSynth
    const clock: Timeline
    var console: seq<char>

    constructor (port: Sampler, tone: ToneSynth, clock: Timeline)
      ensures this.port == port && this.tone == tone && this.clock == clock && console == []
    {
      this.port := port;
      this.tone := tone;
      this.clock := clock;
      console := [];
    }

    /** Prints `symbol`, keys the tone for `duration` dits, then keeps it off for one dit. */
    method SendElement(duration: nat, symbol: char)
      modifies this`console, tone`gate, clock`trace
      ensures !tone.gate
      ensures console == old(console) + [symbol]
      ensures clock.trace == old(clock.trace) + [Segment(true, Dits(duration)), Segment(false, Dits(DitUnits))]
    {
      console := console + [symbol];
      tone.gate := true;
      clock.Sleep(tone.gate, Dits(duration));
      tone.gate := false;
      clock.Sleep(tone.gate, Dits(DitUnits));  // inter-element space
    }

    /**
     * Runs the main loop over the samples still to be read. The run ends when
     * a read finds no sample left. Everything printed and every sleep, with its
     * gate level, is what `Events` schedules for those samples.
     */
    method Run()
      requires port.Valid() && !tone.gate
      modifies this`console, tone`gate, port`pos, clock`trace
      ensures port.Valid() && port.pos == |port.levels| && !tone.gate
      ensures tone.phase == old(tone.phase)
      ensures console == old(console) + Symbols(SentOf(Events(Top, old(port.Pending()))))
      ensures clock.trace == old(clock.trace) + TraceOf(Events(Top, old(port.Pending())))
    {
      ghost var goalC := old(console) + Symbols(SentOf(Events(Top, port.Pending())));
      ghost var goalT := old(clock.trace) + TraceOf(Events(Top, port.Pending()));
      while true
        invariant port.Valid() && !tone.gate
        invariant goalC == console + Symbols(SentOf(Events(Top, port.Pending())))
        invariant goalT == clock.trace + TraceOf(Events(Top, port.Pending()))
        decreases |port.levels| - port.pos
      {
        ghost var pending, c0, t0 := port.Pending(), console, clock.trace;
        var p := port.Read();
        if p.None? {
          return;
        }
        var dit, dah := p.value.cts, p.value.dsr;
        if dit && !dah {
          SendElement(Units(Dit), Symbol(Dit));
          EventsCons(Top, pending);
          Keep(Send(Dit), Events(Top, pending[1..]), c0, console, t0, clock.trace, goalC, goalT);
        } else if dah && !dit {
          SendElement(Units(Dah), Symbol(Dah));
          EventsCons(Top, pending);
          Keep(Send(Dah), Events(Top, pending[1..]), c0, console, t0, clock.trace, goalC, goalT);
        } else if dit && dah {
          EventsCons(Top, pending);
          Keep(EnterSqueeze, Events(SqueezeDit, pending[1..]), c0, console, t0, clock.trace, goalC, goalT);
          Squeeze();
        } else {
          clock.Sleep(tone.gate, Poll);
          EventsCons(Top, pending);
          Keep(Idle, Events(Top, pending[1..]), c0, console, t0, clock.trace, goalC, goalT);
        }
      }
    }

    /**
     * The squeeze loop: alternately a dit and a dah, re-reading the paddles
     * before every element and leaving at the first read with a paddle up (or
     * with nothing left to read). What it prints and sleeps is what the
     * schedule owes from the read before a dit, less what remains owed from
     * the top-level read it returns to.
     */
    method Squeeze()
      requires port.Valid() && !tone.gate
      modifies this`console, tone`gate, port`pos, clock`trace
      ensures port.Valid() && !tone.gate && port.pos >= old(port.pos)
      ensures old(console) + Symbols(SentOf(Events(SqueezeDit, old(port.Pending()))))
           == console + Symbols(SentOf(Events(Top, port.Pending())))
      ensures old(clock.trace) + TraceOf(Events(SqueezeDit, old(port.Pending())))
           == clock.trace + TraceOf(Events(Top, port.Pending()))
    {
      ghost var goalC := old(console) + Symbols(SentOf(Events(SqueezeDit, port.Pending())));
      ghost var goalT := old(clock.trace) + TraceOf(Events(SqueezeDit, port.Pending()));
      while true
        invariant port.Valid() && !tone.gate
        invariant goalC == console + Symbols(SentOf(Events(SqueezeDit, port.Pending())))
        invariant goalT == clock.trace + TraceOf(Events(SqueezeDit, port.Pending()))
        invariant port.pos >= old(port.pos)
        decreases |port.levels| - port.pos
      {
        ghost var pending, c0, t0 := port.Pending(), console, clock.trace;
        var p := port.Read();
        if p.None? {
          return;
        }
        var dit, dah := p.value.cts, p.value.dsr;
        if !(dit && dah) {
          EventsCons(SqueezeDit, pending);
          Keep(ExitSqueeze, Events(Top, pending[1..]), c0, console, t0, clock.trace, goalC, goalT);
          return;  // a paddle is up
        }
        SendElement(Units(Dit), Symbol(Dit));
        EventsCons(SqueezeDit, pending);
        Keep(Send(Dit), Events(SqueezeDah, pending[1..]), c0, console, t0, clock.trace, goalC, goalT);
        pending, c0, t0 := port.Pending(), console, clock.trace;
        p := port.Read();
        if p.None? {
          return;
        }
        dit, dah := p.value.cts, p.value.dsr;
        if !(dit && dah) {
          EventsCons(SqueezeDah, pending);
          Keep(ExitSqueeze, Events(Top, pending[1..]), c0, console, t0, clock.trace, goalC, goalT);
          return;
        }
        SendElement(Units(Dah), Symbol(Dah));
        EventsCons(SqueezeDah, pending);
        Keep(Send(Dah), Events(SqueezeDit, pending[1..]), c0, console, t0, clock.trace, goalC, goalT);
      }
    }
  }
}
