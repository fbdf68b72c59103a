# CTS/DSR Morse keyer: a verified model of its keying engine

This project models the two scripts of a software Morse (CW) keyer. Each one reads paddle contacts from a serial port's control lines and keys a locally generated sidetone.

- **Iambic A paddle keyer** (`CTSTSR-Paddle-Keyer.py`). CTS is the dit paddle and DSR the dah paddle. The main loop samples both paddles:
  - dit alone sends one dit;
  - dah alone sends one dah;
  - neither sleeps one poll interval;
  - both enters the squeeze loop.
- **Squeeze loop.** It sends dit, dah, dit, … and re-reads the paddles before every element. It leaves at the first read where a paddle is up, and sends nothing for that read. Each element keys the tone for its mark (one dit or three), then holds it off for one dit. One symbol (`·` or `–`) is printed per element.
- **Straight keyer** (`CTS-Straight-Keyer.py`). Every poll tick copies the CTS level into the gate.
- **Sidetone callback** (the same in both scripts). It fills each audio block with the waveform at global sample indices `phase + i`, or with zeros when the gate is off. It then advances `phase` by the block length whatever the gate was.

Modules:

- `Maybe` (`maybe.dfy`): the optional value a read returns.
- `Seqs` (`seqs.dfy`): associativity of sequence concatenation, stated as two small lemmas. Dafny proves both with empty bodies. They carry no proof content of their own: calling them names the regrouping step, so the verifier finds it quickly when a loop produces its scheduled output one piece at a time.
- `Timing` (`timing.dfy`): a `Span` is how long one sleep lasts, in whole dits or one poll interval. A `Segment` is one sleep together with the gate level held during it. The `Timeline` class stands for `time.sleep` and records every segment.
- `SerialLines` (`serial_lines.dfy`): the `Sampler` class stands for the serial port. It hands out a fixed sequence of `(cts, dsr)` readings one per read, and a read after the last one finds nothing.
- `Sidetone` (`sidetone.dfy`): the `ToneSynth` class holds the shared gate and the phase counter, and its `Callback` models the script's callback. A ghost history of callbacks lets the class invariant state that everything ever rendered equals `Render` of that history. `RenderContinuous` proves that the n-th rendered sample is always the waveform at index n, or silence.
- `PaddleKeyer` (`paddle_keyer.dfy`): the schedule as functions of the samples (`Step`, `Events`, `SentOf`, `TraceOf`, `Symbols`), the lemmas about that schedule, and the `IambicKeyer` class. The class's `Run` and `Squeeze` loops are proved to print and gate exactly what `Events` schedules.
- `StraightKeyer` (`straight_keyer.dfy`): the `Mirror` schedule, its lemma, the 256-frame block arithmetic, and the `StraightKeyer` class with `Tick` and `Run`.

Units: durations are counted in dits. A dit mark is 1, a dah mark is 3 (`DIT * 3`), and the space after each element is 1. The idle sleep is one `Poll`. `Seconds` converts a span back to seconds at 20 WPM, where `1.2 / 20` is exactly 0.06 as a Dafny `real`.

Points of the code the model keeps as written:
- The phase advances by whatever `frames` the audio library passes to the callback (CTSTSR-Paddle-Keyer.py:56).
- The paddle keyer opens its stream without a block size (CTSTSR-Paddle-Keyer.py:59-63). Only the straight keyer fixes 256 frames per block (CTS-Straight-Keyer.py:49).
- The top-level read that sees both paddles sends nothing. The squeeze loop reads the paddles again before its first dit (CTSTSR-Paddle-Keyer.py:93-96).

## Model

| member | source | states |
|---|---|---|
| `Timing.Timeline.Sleep` | CTSTSR-Paddle-Keyer.py:77-79 | a sleep appends exactly one segment, at the gate level held during it, and changes nothing else |
| `SerialLines.Sampler.Read` | CTSTSR-Paddle-Keyer.py:70-71 | one read returns the next `(cts, dsr)` reading and consumes it; with none left it returns None and consumes nothing |
| `Sidetone.Block` | CTSTSR-Paddle-Keyer.py:47-53 | a block has `frames` samples; sample i is the waveform at global index `phase + i` when the gate is on and exactly 0 when it is off |
| `Sidetone.ToneSynth.constructor` | CTSTSR-Paddle-Keyer.py:40-43 | the gate starts off, the phase starts at 0 and there is no history yet |
| `Sidetone.ToneSynth.Callback` | CTSTSR-Paddle-Keyer.py:45-56 | the block written equals `Block` at the old phase under the current gate; the phase grows by exactly `frames` whatever the gate; the gate is unchanged; the class invariant (phase = total frames, output = `Render` of the history) is kept |
| `Sidetone.RenderContinuous` | CTS-Straight-Keyer.py:36-42 | over any sequence of callbacks with any gate changes, rendered sample n is the waveform at index `phase + n` or silence, so the phase never resets or jumps and blocks cover adjacent, non-overlapping index ranges |
| `Sidetone.GateOffSilent` | CTS-Straight-Keyer.py:40-41 | while the gate is off for a run of callbacks, every rendered sample is exactly zero |
| `Sidetone.FrameTotalSnoc` | CTSTSR-Paddle-Keyer.py:56 | one more callback adds exactly its frame count to the phase, so after calls f1..fk from 0 the phase is f1+…+fk |
| `Sidetone.RenderSnoc` | CTS-Straight-Keyer.py:34-42 | one more callback appends exactly its own block, taken at the phase the earlier calls left |
| `Sidetone.FrameTotalUniform` | CTS-Straight-Keyer.py:42 | with every block of one size, the phase after k callbacks is that size times k |
| `PaddleKeyer.TimingAtTwentyWpm` | CTSTSR-Paddle-Keyer.py:34-35 | at 20 WPM a dit and the inter-element space last 0.06 s, a dah 0.18 s, and a dah is exactly three dits |
| `PaddleKeyer.Events` | CTSTSR-Paddle-Keyer.py:84-107 | each paddle read causes exactly one action: a send, an idle poll, entering the squeeze or leaving it |
| `PaddleKeyer.Symbols` | CTSTSR-Paddle-Keyer.py:75 | one symbol is printed per element sent |
| `PaddleKeyer.SymbolsRoundTrip` | CTSTSR-Paddle-Keyer.py:88-91 | the printed text decodes back to exactly the elements sent, in send order |
| `PaddleKeyer.ParseSymbolsSound` | CTSTSR-Paddle-Keyer.py:100-104 | any text that decodes is exactly the symbols of the elements it decodes to |
| `PaddleKeyer.AlternationAt` | CTSTSR-Paddle-Keyer.py:95-104 | element i of a squeeze is its first element when i is even and the other element when i is odd |
| `PaddleKeyer.AlternationNeverRepeats` | CTSTSR-Paddle-Keyer.py:100-104 | a squeeze starts with a dit and never sends the same element twice in a row |
| `PaddleKeyer.SqueezeWhileHeld` | CTSTSR-Paddle-Keyer.py:95-104 | while both paddles stay pressed, every squeeze read sends the next element of the alternation and nothing else |
| `PaddleKeyer.SqueezeRelease` | CTSTSR-Paddle-Keyer.py:96-98 | a squeeze read that finds a paddle up leaves the squeeze for the top-level read and sends nothing |
| `PaddleKeyer.SqueezeBurst` | CTSTSR-Paddle-Keyer.py:93-104 | entering a squeeze, holding both paddles for k more reads and then releasing one sends exactly the first k of dit, dah, dit, …; none when k = 0; the same holds whichever paddle is released and at either check point |
| `PaddleKeyer.SqueezeHeldThroughout` | CTSTSR-Paddle-Keyer.py:93-104 | holding both paddles for the whole run sends dit, dah, dit, …, one element per read after the first |
| `PaddleKeyer.SqueezeBurstElements` | CTSTSR-Paddle-Keyer.py:100-104 | the elements a released squeeze sends are exactly the alternation prefix, followed by whatever the later reads send |
| `PaddleKeyer.SinglePaddleRun` | CTSTSR-Paddle-Keyer.py:85-91 | holding only the dit (or only the dah) paddle sends that element exactly once per read, re-reading the paddles after each one |
| `PaddleKeyer.NoPaddleRun` | CTSTSR-Paddle-Keyer.py:106-107 | with neither paddle pressed, every read is one idle poll and nothing is sent |
| `PaddleKeyer.AtMostOneElementPerSample` | CTSTSR-Paddle-Keyer.py:84-104 | a run sends at most one element per sample read; for every n, the actions of the first n samples equal the schedule of those n samples alone and send at most n elements, so the j-th element comes no earlier than the j-th read |
| `PaddleKeyer.SentBound` | CTSTSR-Paddle-Keyer.py:84-104 | from any mode, the elements a run sends are no more than the samples it read |
| `PaddleKeyer.EventsPrefix` | CTSTSR-Paddle-Keyer.py:84-104 | the actions of the first n samples are the schedule of those n samples alone: no action depends on a later read |
| `PaddleKeyer.MarksMatchElements` | CTSTSR-Paddle-Keyer.py:76-79 | the gate is on exactly once per element sent, in send order, for one dit (dit) or three dits (dah) |
| `PaddleKeyer.TraceWellGated` | CTSTSR-Paddle-Keyer.py:76-79 | every gate-on stretch is a dit or dah mark, followed at once by a gate-off space of exactly one dit, so the gate is never left on |
| `PaddleKeyer.IambicKeyer.SendElement` | CTSTSR-Paddle-Keyer.py:73-79 | prints the symbol, keys the gate on for `duration` dits, then off for one dit; the gate is off on return |
| `PaddleKeyer.IambicKeyer.Run` | CTSTSR-Paddle-Keyer.py:84-107 | reads every remaining sample; the console gains exactly `Symbols(SentOf(Events(Top, samples)))`; the timeline gains exactly `TraceOf(Events(Top, samples))`; the gate ends off; the phase is untouched |
| `PaddleKeyer.IambicKeyer.Squeeze` | CTSTSR-Paddle-Keyer.py:95-104 | the squeeze loop prints and sleeps exactly what the schedule owes from the read before a dit, up to its return to the top-level read; the gate ends off |
| `StraightKeyer.MirrorFollowsCts` | CTS-Straight-Keyer.py:60-62 | tick k holds the gate at the CTS level read on tick k for one poll interval; no element timing is applied |
| `StraightKeyer.NthBlockStart` | CTS-Straight-Keyer.py:42-49 | with the fixed block size of 256, callback n starts at global sample index 256·(n−1) |
| `StraightKeyer.StraightKeyer.Tick` | CTS-Straight-Keyer.py:61-62 | one tick sets the gate to the CTS level read and sleeps one poll interval at that level; with nothing left to read it changes nothing |
| `StraightKeyer.StraightKeyer.Run` | CTS-Straight-Keyer.py:59-62 | the gate history is `Mirror` of the CTS readings; the gate ends at the last level read; the phase is untouched |

## Left out

- Serial I/O (`serial.Serial`, `ser.cts`, `ser.dsr`, `ser.close`) is replaced by the `Sampler` oracle over a fixed sequence of readings.
- The audio library (opening, starting, stopping and closing the stream, latency, device choice) is outside the model. `Callback` stands for the function the library calls.
- Floating-point synthesis is abstracted into the `wave` parameter of `ToneSynth`, a waveform of the global sample index. That covers `np.sin`, `np.arange`, the 0.5 amplitude, `TONE_FREQ`, `SAMPLE_RATE` and the `float32` cast. The float `phase` is modelled as an exact `nat`; a Python float is exact only up to 2^53 samples.
- Real time becomes abstract units: `time.sleep` durations are recorded as dit counts and poll ticks, and jitter is not modelled.
- Concurrency is not modelled. The audio callback runs on its own thread and may fire during any sleep of a control loop, and the shared gate is unsynchronised. Only the sequential behaviour of each side is modelled.
- Shutdown on `KeyboardInterrupt`, banners and the duplicated imports are not modelled. A run ends when a read finds no reading left, which stands for the interrupt. A real interrupt can also arrive during an element or a sleep.
- `PaddleKeyer.IambicKeyer.Run`: the nested squeeze loop is written as a separate method, `Squeeze`, called from the main loop. Its behaviour is unchanged, including that the releasing sample is consumed and the top-level loop reads again.
- `Sidetone.ToneSynth.Callback`: `outdata` is a `frames × 1` column in the source and a flat array of `frames` samples here.
- The callback history (`calls`, `output`) is ghost state and has no counterpart in the source; it exists only to state continuity across callbacks.
