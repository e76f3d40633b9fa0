/** One pass of the synthesizer's keyboard scan (the body of `main`'s polling loop):
    sixteen keys are examined in order, a pressed key sets the output frequency and
    triggers the envelope, and the pass may end with a release. The state of each
    key and every clock reading are inputs. */
module Keyboard {
  import opened Envelope

  /** Number of keys scanned per pass. */
  const KeyCount: nat := 16

  /** Frequency of key 0 (A2), in Hz. */
  const OctaveBaseFrequency: real := 110.0

  /** `x` raised to the natural power `n`, by repeated multiplication. */
  function Pow(x: real, n: nat): real {
    if n == 0 then 1.0 else x * Pow(x, n - 1)
  }

  /** Equal-tempered frequency of key `k`; `ratio` stands for the twelfth root of 2. */
  function KeyFrequency(ratio: real, k: nat): real {
    OctaveBaseFrequency * Pow(ratio, k)
  }

  predicate AnyPressed(keys: seq<bool>) {
    exists i :: 0 <= i < |keys| && keys[i]
  }

  /** Index of the highest pressed key, or -1 when none is pressed. */
  function LastPressed(keys: seq<bool>): (r: int)
    ensures -1 <= r < |keys|
    ensures r == -1 <==> !AnyPressed(keys)
    ensures r != -1 ==> keys[r] && forall j :: r < j < |keys| ==> !keys[j]
  {
    if |keys| == 0 then -1
    else if keys[|keys| - 1] then |keys| - 1
    else LastPressed(keys[..|keys| - 1])
  }

  /** Index of the lowest pressed key, or -1 when none is pressed. */
  function FirstPressed(keys: seq<bool>): (r: int)
    ensures -1 <= r < |keys|
    ensures r == -1 <==> !AnyPressed(keys)
    ensures r != -1 ==> keys[r] && forall j :: 0 <= j < r ==> !keys[j]
  {
    if |keys| == 0 then -1
    else
      var r := FirstPressed(keys[..|keys| - 1]);
      if r != -1 then r
      else if keys[|keys| - 1] then |keys| - 1
      else -1
  }

  // ---------------------------------------------------------------------------
  // The pass as the source writes it. The current key is a local of the pass and
  // starts at -1, so every pressed key triggers the envelope; the pressed flag is
  // cleared for every key, so at the end it reports key 15 alone.
  // ---------------------------------------------------------------------------

  /** Effect of one pass on the envelope and the output frequency. */
  function ScanPassAsWritten(e: EnvelopeState, frequency: real, ratio: real,
                             keys: seq<bool>, onTimes: seq<real>, offTime: real): (EnvelopeState, real)
    requires |keys| == KeyCount && |onTimes| == KeyCount
  {
    var last := LastPressed(keys);
    if last == -1 then (e, frequency)
    else
      var on := Triggered(e, onTimes[last]);
      (if keys[KeyCount - 1] then on else Released(on, offTime), KeyFrequency(ratio, last))
  }

  /** The polling loop's state: the shared output frequency and the envelope. */
  class Instrument {
    var frequencyOutput: real
    const envelope: EnvelopeADSR
    const semitoneRatio: real

    predicate Valid()
      reads this, envelope
    {
      envelope.Valid()
    }

    constructor (ratio: real)
      requires 0.0 < ratio
      ensures Valid() && fresh(envelope)
      ensures frequencyOutput == 0.0 && semitoneRatio == ratio && envelope.State() == Default
    {
      frequencyOutput := 0.0;
      semitoneRatio := ratio;
      envelope := new EnvelopeADSR();
    }

    /** One pass over the keys; `keyDown[k]` is the state of key `k`, `onTimes[k]` the
        clock reading taken when key `k` triggers the envelope, `offTime` the reading
        taken for a release. */
    method ScanPass(keyDown: seq<bool>, onTimes: seq<real>, offTime: real)
      requires Valid()
      requires |keyDown| == KeyCount && |onTimes| == KeyCount
      modifies this, envelope
      ensures Valid()
      ensures (envelope.State(), frequencyOutput)
           == ScanPassAsWritten(old(envelope.State()), old(frequencyOutput), semitoneRatio,
                                keyDown, onTimes, offTime)
    {
      var currentKey := -1;
      var keyPressed := false;
      for k := 0 to KeyCount
        invariant Valid()
        invariant currentKey == LastPressed(keyDown[..k])
        invariant keyPressed == (k > 0 && keyDown[k - 1])
        invariant currentKey == -1 ==>
          envelope.State() == old(envelope.State()) && frequencyOutput == old(frequencyOutput)
        invariant currentKey != -1 ==>
          envelope.State() == Triggered(old(envelope.State()), onTimes[currentKey]) &&
          frequencyOutput == KeyFrequency(semitoneRatio, currentKey)
      {
        assert keyDown[..k + 1][..k] == keyDown[..k];
        keyPressed := false;
        if keyDown[k] {
          if currentKey != k {
            frequencyOutput := OctaveBaseFrequency * Pow(semitoneRatio, k);
            envelope.NoteOn(onTimes[k]);
            currentKey := k;
          }
          keyPressed := true;
        }
      }
      assert keyDown[..KeyCount] == keyDown;
      if !keyPressed {
        if currentKey != -1 {
          envelope.NoteOff(offTime);
        }
      }
    }
  }

  // ---------------------------------------------------------------------------
  // The pass with the current key kept across passes and cleared on release: a key
  // held from one pass to the next does not retrigger, and the envelope is
  // released only when no key is down.
  // ---------------------------------------------------------------------------

  /** Effect of one pass on the envelope, the output frequency and the current key. */
  function ScanPassLatched(e: EnvelopeState, frequency: real, current: int, ratio: real,
                           keys: seq<bool>, onTimes: seq<real>, offTime: real): (EnvelopeState, real, int)
    requires |keys| == KeyCount && |onTimes| == KeyCount
  {
    var first, last := FirstPressed(keys), LastPressed(keys);
    if last == -1 then
      (if current != -1 then Released(e, offTime) else e, frequency, -1)
    else if first == last && first == current then
      (e, frequency, current)
    else
      (Triggered(e, onTimes[last]), KeyFrequency(ratio, last), last)
  }

  /** Whether a pass over `keys` triggers the envelope when `current` was the key
      sounding before it. */
  predicate Retriggers(current: int, keys: seq<bool>) {
    AnyPressed(keys) && !(FirstPressed(keys) == LastPressed(keys) == current)
  }

  class LatchedInstrument {
    var frequencyOutput: real
    var currentKey: int
    const envelope: EnvelopeADSR
    const semitoneRatio: real

    /** A key is recorded as sounding exactly while the envelope's note is on. */
    predicate Valid()
      reads this, envelope
    {
      envelope.Valid() && -1 <= currentKey < KeyCount as int &&
      (envelope.noteOn <==> currentKey != -1)
    }

    constructor (ratio: real)
      requires 0.0 < ratio
      ensures Valid() && fresh(envelope)
      ensures frequencyOutput == 0.0 && currentKey == -1
      ensures semitoneRatio == ratio && envelope.State() == Default
    {
      frequencyOutput := 0.0;
      currentKey := -1;
      semitoneRatio := ratio;
      envelope := new EnvelopeADSR();
    }

    method ScanPass(keyDown: seq<bool>, onTimes: seq<real>, offTime: real)
      requires Valid()
      requires |keyDown| == KeyCount && |onTimes| == KeyCount
      modifies this, envelope
      ensures Valid()
      ensures (envelope.State(), frequencyOutput, currentKey)
           == ScanPassLatched(old(envelope.State()), old(frequencyOutput), old(currentKey),
                              semitoneRatio, keyDown, onTimes, offTime)
    {
      var keyPressed := false;
      for k := 0 to KeyCount
        invariant envelope.Valid() && -1 <= currentKey < KeyCount as int
        invariant keyPressed == AnyPressed(keyDown[..k])
        invariant currentKey == if keyPressed then LastPressed(keyDown[..k]) else old(currentKey)
        invariant !Retriggers(old(currentKey), keyDown[..k]) ==>
          envelope.State() == old(envelope.State()) && frequencyOutput == old(frequencyOutput)
        invariant Retriggers(old(currentKey), keyDown[..k]) ==>
          envelope.State() == Triggered(old(envelope.State()), onTimes[currentKey]) &&
          frequencyOutput == KeyFrequency(semitoneRatio, currentKey)
      {
        assert keyDown[..k + 1][..k] == keyDown[..k];
        if keyDown[k] {
          if currentKey != k {
            frequencyOutput := OctaveBaseFrequency * Pow(semitoneRatio, k);
            envelope.NoteOn(onTimes[k]);
            currentKey := k;
          }
          keyPressed := true;
        }
      }
      assert keyDown[..KeyCount] == keyDown;
      if !keyPressed {
        if currentKey != -1 {
          envelope.NoteOff(offTime);
          currentKey := -1;
        }
      }
    }
  }

  // ---------------------------------------------------------------------------
  // Properties of the frequency mapping.
  // ---------------------------------------------------------------------------

  lemma {:induction false} PowAdd(x: real, m: nat, n: nat)
    ensures Pow(x, m + n) == Pow(x, m) * Pow(x, n)
  {
    if m > 0 {
      PowAdd(x, m - 1, n);
    }
  }

  lemma {:induction false} PowPositive(x: real, n: nat)
    requires 0.0 < x
    ensures 0.0 < Pow(x, n)
  {
    if n > 0 {
      PowPositive(x, n - 1);
    }
  }

  /** Key 0 sounds the base frequency exactly, key k + 12 sounds the ratio's twelfth
      power times key k (one octave up when that power is 2), and every key sounds a
      positive frequency for a positive ratio. */
  lemma KeyFrequencies(ratio: real, k: nat)
    ensures KeyFrequency(ratio, 0) == OctaveBaseFrequency
    ensures KeyFrequency(ratio, k + 12) == Pow(ratio, 12) * KeyFrequency(ratio, k)
    ensures 0.0 < ratio ==> 0.0 < KeyFrequency(ratio, k)
  {
    PowAdd(ratio, 12, k);
    if 0.0 < ratio {
      PowPositive(ratio, k);
    }
  }

  lemma ScaleUp(x: real, p: real)
    requires 1.0 < x && 0.0 < p
    ensures p < x * p
  {
  }

  lemma {:induction false} PowIncreasing(x: real, m: nat, n: nat)
    requires 1.0 < x && m < n
    ensures Pow(x, m) < Pow(x, n)
  {
    var p := Pow(x, n - 1);
    PowPositive(x, n - 1);
    ScaleUp(x, p);
    if m < n - 1 {
      PowIncreasing(x, m, n - 1);
    }
    calc {
      Pow(x, m);
    <=
      p;
    <
      x * p;
    ==
      Pow(x, n);
    }
  }

  /** For a ratio above 1, a higher key sounds a strictly higher frequency. */
  lemma HigherKeyHigherPitch(ratio: real, j: nat, k: nat)
    requires 1.0 < ratio && j < k
    ensures KeyFrequency(ratio, j) < KeyFrequency(ratio, k)
  {
    PowIncreasing(ratio, j, k);
  }

  // ---------------------------------------------------------------------------
  // Properties of the pass as written.
  // ---------------------------------------------------------------------------

  /** Whatever the keys, a pass in which a key is down leaves the output frequency at
      the highest pressed key and the attack restarted at that key's clock reading;
      the note stays on only when key 15 is among the pressed keys. A pass with no key
      down changes nothing. */
  lemma AsWrittenEffect(e: EnvelopeState, frequency: real, ratio: real,
                        keys: seq<bool>, onTimes: seq<real>, offTime: real)
    requires |keys| == KeyCount && |onTimes| == KeyCount
    ensures var (e', frequency') := ScanPassAsWritten(e, frequency, ratio, keys, onTimes, offTime);
      && (!AnyPressed(keys) ==> e' == e && frequency' == frequency)
      && (AnyPressed(keys) ==>
            exists k :: 0 <= k < KeyCount && keys[k]
              && (forall j :: k < j < KeyCount ==> !keys[j])
              && frequency' == KeyFrequency(ratio, k)
              && e'.triggerOnTime == onTimes[k])
      && (AnyPressed(keys) ==> (e'.noteOn <==> keys[KeyCount - 1]))
      && (AnyPressed(keys) && !keys[KeyCount - 1] ==> e'.triggerOffTime == offTime)
      && (keys[KeyCount - 1] ==> e'.triggerOffTime == e.triggerOffTime)
      && e'.(triggerOnTime := e.triggerOnTime, triggerOffTime := e.triggerOffTime, noteOn := e.noteOn) == e
  {
  }

  /** Holding key 0 alone for a pass leaves the envelope released although the key is
      still down, and the output frequency at exactly the base frequency. */
  lemma AsWrittenReleasesHeldKey(e: EnvelopeState, frequency: real, ratio: real,
                                 onTimes: seq<real>, offTime: real)
    requires |onTimes| == KeyCount
    ensures var keys := [true] + seq(KeyCount - 1, _ => false);
      var (e', frequency') := ScanPassAsWritten(e, frequency, ratio, keys, onTimes, offTime);
      !e'.noteOn && e'.triggerOffTime == offTime && frequency' == OctaveBaseFrequency
  {
    var keys := [true] + seq(KeyCount - 1, _ => false);
    assert keys[0];
    assert forall j :: 0 < j < KeyCount ==> !keys[j];
    assert LastPressed(keys) == 0;
  }

  /** Holding the same keys over two passes retriggers the envelope in the second pass:
      the attack restarts at the second pass's clock reading. */
  lemma AsWrittenRetriggersHeldKey(e: EnvelopeState, frequency: real, ratio: real,
                                   keys: seq<bool>, onTimes1: seq<real>, onTimes2: seq<real>,
                                   offTime1: real, offTime2: real)
    requires |keys| == KeyCount && |onTimes1| == KeyCount && |onTimes2| == KeyCount
    requires AnyPressed(keys)
    ensures var (e1, f1) := ScanPassAsWritten(e, frequency, ratio, keys, onTimes1, offTime1);
      var (e2, f2) := ScanPassAsWritten(e1, f1, ratio, keys, onTimes2, offTime2);
      e2.triggerOnTime == onTimes2[LastPressed(keys)]
  {
  }

  // ---------------------------------------------------------------------------
  // Properties of the latched pass.
  // ---------------------------------------------------------------------------

  /** The latched pass keeps "a key is sounding exactly while the note is on", and
      after it the note is on exactly when some key is down. */
  lemma LatchedNoteOnIffPressed(e: EnvelopeState, frequency: real, current: int, ratio: real,
                                keys: seq<bool>, onTimes: seq<real>, offTime: real)
    requires |keys| == KeyCount && |onTimes| == KeyCount
    requires e.noteOn <==> current != -1
    ensures var (e', _, current') := ScanPassLatched(e, frequency, current, ratio, keys, onTimes, offTime);
      (e'.noteOn <==> AnyPressed(keys)) && (e'.noteOn <==> current' != -1)
  {
  }

  /** Once a single key has been scanned, scanning it again changes nothing: the
      attack is not restarted and the frequency stays. */
  lemma LatchedHoldIsIdempotent(e: EnvelopeState, frequency: real, current: int, ratio: real,
                                keys: seq<bool>, onTimes1: seq<real>, onTimes2: seq<real>,
                                offTime1: real, offTime2: real)
    requires |keys| == KeyCount && |onTimes1| == KeyCount && |onTimes2| == KeyCount
    requires AnyPressed(keys) && FirstPressed(keys) == LastPressed(keys)
    ensures var s1 := ScanPassLatched(e, frequency, current, ratio, keys, onTimes1, offTime1);
      ScanPassLatched(s1.0, s1.1, s1.2, ratio, keys, onTimes2, offTime2) == s1
  {
  }
}
