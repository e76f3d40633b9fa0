# ADSR envelope and key scan of a monophonic software synthesizer

This project models the loudness envelope of a small piano-style synthesizer, and proves
properties of it. The envelope is an attack-decay-sustain-release (ADSR) shaper. It has
three ramp durations, a start (peak) amplitude and a sustain amplitude, the times of the
last key press and key release, and a note-on flag.

- `NoteOn(t)` and `NoteOff(t)` are the only operations that change the envelope. Each
  one records one timestamp and sets the flag.
- `GetAmplitude(t)` changes nothing. It returns a piecewise-linear amplitude. While the
  note is on, this is an attack ramp from 0 up to the start amplitude, then a decay ramp
  down to the sustain level, then the constant sustain level. While the note is off, it
  is a release ramp from the sustain level down to 0, anchored at the release time.
  Finally an epsilon rule turns every value at or below 0.0001 into exact silence.

The project also models one pass of the program's polling loop. The pass scans sixteen
keys in order. For a pressed key it sets the shared output frequency to
`110 Hz * ratio^k`, where `ratio` stands for the twelfth root of two, and triggers the
envelope. The pass can end by releasing the envelope.

Files:

- `envelope.dfy` (module `Envelope`) holds three things:
  - `EnvelopeState`, a value snapshot of the envelope's fields;
  - the amplitude as a pure function of that snapshot (`Amplitude`);
  - the class `EnvelopeADSR`, whose fields are updated in place. Its `GetAmplitude`
    method follows the source's chain of `if`s that overwrite one local, and it is
    proved equal to `Amplitude`.
- `keyboard.dfy` (module `Keyboard`) holds the frequency mapping and the key scan:
  - `Instrument.ScanPass` is the pass as written, proved equal to the closed form
    `ScanPassAsWritten`;
  - `LatchedInstrument.ScanPass` is the corrected pass described under Findings.

Times and amplitudes are `real`. The ramp durations must be positive (`WellFormed`),
because the formulas divide by them. The constructor's values meet this.

Where the intended behaviour and the code differ, the model follows the code:

- The intended behaviour is that holding the same key does not retrigger the note, and
  that the envelope is released only when the last held key goes up. The code
  retriggers on every pass. It also releases after every pass in which some key is
  down and key 15 is up (see Findings).
- The amplitude is meant to lie in [0, 1]. The code does not clamp it from above. The
  model proves the bound `Amplitude <= startAmplitude` only under these conditions:
  0 <= sustain <= start, and a release ramp is never queried before its own release time.

## Model

| member | source | states |
|---|---|---|
| `Envelope.EpsilonFloor` | main.cpp:102-105 | the epsilon rule: the result is never negative and never in (0, 0.0001]; it is 0 or the input, and the input itself whenever the input is above 0.0001 |
| `Envelope.Amplitude` | main.cpp:71-108 | the envelope's amplitude at any query time is non-negative and never in (0, 0.0001] |
| `Envelope.EnvelopeADSR.constructor` | main.cpp:59-68 | attack 0.01, decay 0.01, start 1.0, sustain 0.8, release 0.02, both trigger times 0, note off; the durations are valid |
| `Envelope.EnvelopeADSR.GetAmplitude` | main.cpp:71-108 | the sequential-if computation returns exactly `Amplitude` of the current fields, and it changes no field (the method has no `modifies` clause) |
| `Envelope.EnvelopeADSR.NoteOn` | main.cpp:111-115 | sets the trigger-on time to the argument and the note-on flag to true; every other field is unchanged |
| `Envelope.EnvelopeADSR.NoteOff` | main.cpp:118-122 | sets the trigger-off time to the argument and the note-on flag to false; every other field is unchanged |
| `Envelope.AttackPhase` | main.cpp:79-82 | with the note on and lifetime in [0, attack], the amplitude is the floored `(lifetime/attack)*start`; it is exactly 0 at lifetime 0 and never above a non-negative start amplitude |
| `Envelope.AttackMonotone` | main.cpp:79-82 | during the attack the amplitude does not decrease over time when the start amplitude is non-negative |
| `Envelope.DecayPhase` | main.cpp:85-88 | in the decay window (attack, attack+decay] the amplitude is the floored decay ramp, and the ramp lies between the sustain level and the start amplitude |
| `Envelope.SustainPhase` | main.cpp:91-94 | with the note on and lifetime past attack+decay, the amplitude is the floored sustain level |
| `Envelope.PhaseBoundaries` | main.cpp:81-99 | the attack ramp is 0 at lifetime 0; attack and decay ramps both give the start amplitude at lifetime = attack; decay gives the sustain level at attack+decay; release gives the sustain level at the release time and 0 one release duration later |
| `Envelope.ReleasePhase` | main.cpp:96-105 | with the note off and sustain >= 0, from the release time on the amplitude is at most the sustain level, and exactly 0 from one release duration after that |
| `Envelope.ReleaseMonotone` | main.cpp:96-105 | during the release the amplitude does not increase over time when sustain >= 0 |
| `Envelope.AmplitudeWithinPeak` | main.cpp:71-108 | for 0 <= sustain <= start, the amplitude never exceeds the start amplitude, unless a release ramp is queried before its release time |
| `Envelope.TriggerRestartsAttack` | main.cpp:71-115 | after a key press at t the amplitude at t is 0, whatever the earlier state, and at t + attack it is the floored start amplitude |
| `Envelope.ReleaseFromSustain` | main.cpp:96-122 | after a key release at t the amplitude at t is the floored sustain level, whatever phase the note was in; with sustain >= 0 it is 0 from t + release on |
| `Envelope.DefaultEnvelope` | main.cpp:59-68 | the constructor's values are valid with 0 <= sustain <= start <= 1; they are silent from t = 0.02 on; after a trigger at 0, the amplitude at 0.005 is exactly 0.5 |
| `Keyboard.LastPressed` | main.cpp:203-215 | the key whose index the scan leaves in the current key: the highest pressed index, or -1 exactly when no key is pressed |
| `Keyboard.PowAdd` | main.cpp:208 | powers computed by repeated multiplication add exponents: `Pow(x, m+n) == Pow(x, m) * Pow(x, n)` |
| `Keyboard.KeyFrequencies` | main.cpp:126-127 | key 0 sounds exactly 110 Hz; key k+12 sounds `ratio^12` times key k (one octave up when `ratio^12` is 2); every frequency is positive for a positive ratio |
| `Keyboard.HigherKeyHigherPitch` | main.cpp:208 | for a ratio above 1, a higher key index gives a strictly higher frequency |
| `Keyboard.Instrument.constructor` | main.cpp:125-128 | the output frequency starts at 0 and the envelope starts with its default values |
| `Keyboard.Instrument.ScanPass` | main.cpp:201-223 | one pass of the loop as written: the new envelope state and frequency are exactly `ScanPassAsWritten` of the old ones |
| `Keyboard.AsWrittenEffect` | main.cpp:201-223 | if no key is down, the pass changes nothing; otherwise the frequency is that of the highest pressed key, the trigger time is that key's clock reading, and the note stays on exactly when key 15 is down; when it is released, the trigger-off time is the release reading; with key 15 down the trigger-off time is kept; durations and amplitudes never change |
| `Keyboard.AsWrittenReleasesHeldKey` | main.cpp:202-220 | holding key 0 alone ends the pass with the note released at the release reading, and with the frequency at exactly 110 Hz |
| `Keyboard.AsWrittenRetriggersHeldKey` | main.cpp:201-212 | keys held over two passes restart the attack at the second pass's clock reading |
| `Keyboard.LatchedInstrument.constructor` | main.cpp:125-128 | as the `Instrument` constructor, with no key sounding |
| `Keyboard.LatchedInstrument.ScanPass` | main.cpp:201-223 | the corrected pass, with the current key kept across passes, equals `ScanPassLatched`; it keeps "a key is sounding exactly while the note is on" |
| `Keyboard.LatchedNoteOnIffPressed` | main.cpp:217-221 | after a corrected pass the note is on exactly when some key is down |
| `Keyboard.LatchedHoldIsIdempotent` | main.cpp:207-212 | with one key held, a second corrected pass changes neither the envelope nor the frequency nor the current key |

## Findings

| source | as written | input that shows it | evidently intended | confidence | as-written member | corrected member |
|---|---|---|---|---|---|---|
| main.cpp:201 | `nCurrentKey` is declared inside the polling loop, so each pass starts at -1. Every pass triggers `NoteOn` again for every held key. | keys held over two passes at different clock readings: the trigger time moves to the second reading, so the attack restarts on every pass | a key that stays down keeps sounding without a restart; the current key survives from pass to pass and is cleared when the note is released | medium, not executed | `Keyboard.AsWrittenRetriggersHeldKey` | `Keyboard.LatchedHoldIsIdempotent` |
| main.cpp:205 | `bKeyPressed` is cleared for every key, so after the loop it only reports key 15. `NoteOff` follows every pass in which some key other than 15 is down and key 15 is up. | key 0 held alone: the pass ends with the note off although the key is down | the release fires only when no key is down (the flag is cleared once per pass) | medium, not executed | `Keyboard.AsWrittenReleasesHeldKey` | `Keyboard.LatchedNoteOnIffPressed` |

The corrected pass keeps the current key across passes, clears the pressed flag once per
pass, and resets the current key on release. With several keys down, it still
retriggers on every pass, because the scan visits them in turn.

## Left out

- The oscillator `osc` and `makeNoise` (main.cpp:19-44, 136-159). They are built on `sin`, `asin`, `fmod` and an unseeded `rand()`, which have no faithful model over the reals. So the 0.4 master volume and the claim that the output is silent before any key press are not modelled.
- Audio-device plumbing: device enumeration, the sound object, the sample callback and the clock (`GetTime`). These are calls into a header that is not part of this model. Each clock reading becomes an input: `onTimes[k]` for the `NoteOn` of key k, and `offTime` for the `NoteOff`.
- Keyboard polling (`GetAsyncKeyState`). The sixteen key states are an input sequence.
- Console output and the ASCII keyboard display.
- The `atomic` qualifier on the output frequency. It only gives visibility between threads, and the model has one thread.
- IEEE-754 rounding, infinities and NaN. Amplitudes and times are reals, and the twelfth root of two is an opaque positive parameter (`semitoneRatio`). So key 12 is proved to sound `ratio^12 * 110` Hz, not 220 Hz up to rounding.
- Envelope.EnvelopeADSR.GetAmplitude: requires positive attack, decay and release times. For a zero or negative duration the source divides by zero or runs its `if`s in overlapping windows; that behaviour is not modelled.
- Envelope.AmplitudeWithinPeak: the intended [0, 1] range is proved only for 0 <= sustain <= start. It also excludes release queries before the release time, because the source's release ramp is not clamped there.
- The polling loop as a whole runs forever. The model covers one pass; a sequence of passes is a sequence of `ScanPass` calls.
