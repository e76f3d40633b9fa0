/** The attack-decay-sustain-release (ADSR) envelope that shapes the loudness
    of the synthesizer's single note (struct sEnvelopeADSR in main.cpp).
    Times and amplitudes are modelled as reals. */
module Envelope {

  /** Any computed amplitude at or below this threshold is forced to exact silence. */
  const Epsilon: real := 0.0001

  /** A snapshot of the envelope's eight fields. */
  datatype EnvelopeState = EnvelopeState(
    attackTime: real,
    decayTime: real,
    releaseTime: real,
    sustainAmplitude: real,
    startAmplitude: real,
    triggerOnTime: real,
    triggerOffTime: real,
    noteOn: bool)

  /** The amplitude formulas divide by the three ramp durations. */
  predicate WellFormed(e: EnvelopeState) {
    e.attackTime > 0.0 && e.decayTime > 0.0 && e.releaseTime > 0.0
  }

  /** The values the envelope's constructor assigns. */
  const Default: EnvelopeState := EnvelopeState(
    attackTime := 0.01,
    decayTime := 0.01,
    releaseTime := 0.02,
    sustainAmplitude := 0.8,
    startAmplitude := 1.0,
    triggerOnTime := 0.0,
    triggerOffTime := 0.0,
    noteOn := false)

  /** The epsilon rule: never negative and never inside (0, Epsilon]; values above
      Epsilon pass through unchanged. */
  function EpsilonFloor(x: real): (r: real)
    ensures 0.0 <= r
    ensures r == 0.0 || Epsilon < r
    ensures r == 0.0 || r == x
    ensures Epsilon < x ==> r == x
  {
    if x <= Epsilon then 0.0 else x
  }

  /** Attack ramp `life` seconds after the trigger: from 0 towards the start amplitude. */
  function AttackRamp(e: EnvelopeState, life: real): real
    requires WellFormed(e)
  {
    (life / e.attackTime) * e.startAmplitude
  }

  /** Decay ramp `life` seconds after the trigger: from the start amplitude to the sustain level. */
  function DecayRamp(e: EnvelopeState, life: real): real
    requires WellFormed(e)
  {
    ((life - e.attackTime) / e.decayTime) * (e.sustainAmplitude - e.startAmplitude) + e.startAmplitude
  }

  /** Release ramp at absolute time `time`, anchored at the note-off time. It is not
      clamped: before the note-off time it lies above the sustain level, after the
      release duration below zero. */
  function ReleaseRamp(e: EnvelopeState, time: real): real
    requires WellFormed(e)
  {
    ((time - e.triggerOffTime) / e.releaseTime) * (0.0 - e.sustainAmplitude) + e.sustainAmplitude
  }

  /** The amplitude before the epsilon rule: one of the four phases, chosen by the
      note-on flag and the time elapsed since the trigger. */
  function RawAmplitude(e: EnvelopeState, time: real): real
    requires WellFormed(e)
  {
    if e.noteOn then
      var life := time - e.triggerOnTime;
      if life <= e.attackTime then AttackRamp(e, life)
      else if life <= e.attackTime + e.decayTime then DecayRamp(e, life)
      else e.sustainAmplitude
    else
      ReleaseRamp(e, time)
  }

  /** The envelope's amplitude at `time`. */
  function Amplitude(e: EnvelopeState, time: real): (r: real)
    requires WellFormed(e)
    ensures 0.0 <= r
    ensures r == 0.0 || Epsilon < r
  {
    EpsilonFloor(RawAmplitude(e, time))
  }

  /** The state after a key press at `time`. */
  function Triggered(e: EnvelopeState, time: real): EnvelopeState {
    e.(triggerOnTime := time, noteOn := true)
  }

  /** The state after a key release at `time`. */
  function Released(e: EnvelopeState, time: real): EnvelopeState {
    e.(triggerOffTime := time, noteOn := false)
  }

  // ---------------------------------------------------------------------------
  // The envelope object. GetAmplitude follows the source's sequence of `if`s
  // that overwrite one local; NoteOn and NoteOff are the only state changes.
  // ---------------------------------------------------------------------------

  class EnvelopeADSR {
    var attackTime: real
    var decayTime: real
    var releaseTime: real
    var sustainAmplitude: real
    var startAmplitude: real
    var triggerOnTime: real
    var triggerOffTime: real
    var noteOn: bool

    /** The current field values as one value. */
    function State(): EnvelopeState
      reads this
    {
      EnvelopeState(attackTime, decayTime, releaseTime, sustainAmplitude, startAmplitude,
                    triggerOnTime, triggerOffTime, noteOn)
    }

    predicate Valid()
      reads this
    {
      WellFormed(State())
    }

    constructor ()
      ensures State() == Default
      ensures Valid()
    {
      attackTime := 0.01;
      decayTime := 0.01;
      startAmplitude := 1.0;
      sustainAmplitude := 0.8;
      releaseTime := 0.02;
      triggerOnTime := 0.0;
      triggerOffTime := 0.0;
      noteOn := false;
    }

    /** The amplitude at `time`; a query that changes no field. Its specification is
        the pure function `Amplitude` of the current fields. */
    method GetAmplitude(time: real) returns (amplitude: real)
      requires Valid()
      ensures amplitude == Amplitude(State(), time)
      ensures 0.0 <= amplitude && (amplitude == 0.0 || Epsilon < amplitude)
    {
      var a := 0.0;
      var life := time - triggerOnTime;
      if noteOn {
        if life <= attackTime {
          a := (life / attackTime) * startAmplitude;
        }
        if life > attackTime && life <= attackTime + decayTime {
          a := ((life - attackTime) / decayTime) * (sustainAmplitude - startAmplitude) + startAmplitude;
        }
        if life > attackTime + decayTime {
          a := sustainAmplitude;
        }
      } else {
        a := ((time - triggerOffTime) / releaseTime) * (0.0 - sustainAmplitude) + sustainAmplitude;
      }
      assert a == RawAmplitude(State(), time);
      if a <= Epsilon {
        a := 0.0;
      }
      amplitude := a;
    }

    /** Key pressed: restart the attack from `timeOn`. */
    method NoteOn(timeOn: real)
      modifies this
      ensures State() == Triggered(old(State()), timeOn)
    {
      triggerOnTime := timeOn;
      noteOn := true;
    }

    /** Key released: start the release ramp at `timeOff`. */
    method NoteOff(timeOff: real)
      modifies this
      ensures State() == Released(old(State()), timeOff)
    {
      triggerOffTime := timeOff;
      noteOn := false;
    }
  }

  // ---------------------------------------------------------------------------
  // Properties of the amplitude.
  // ---------------------------------------------------------------------------

  lemma EpsilonFloorMonotone(x: real, y: real)
    requires x <= y
    ensures EpsilonFloor(x) <= EpsilonFloor(y)
  {
  }

  /** With the note on and the lifetime in [0, attackTime] the amplitude is the attack
      ramp after the epsilon rule: silent at lifetime 0 and, for a non-negative start
      amplitude, never above it. */
  lemma AttackPhase(e: EnvelopeState, time: real)
    requires WellFormed(e) && e.noteOn
    requires 0.0 <= time - e.triggerOnTime <= e.attackTime
    ensures Amplitude(e, time) == EpsilonFloor((time - e.triggerOnTime) / e.attackTime * e.startAmplitude)
    ensures time == e.triggerOnTime ==> Amplitude(e, time) == 0.0
    ensures 0.0 <= e.startAmplitude ==> Amplitude(e, time) <= e.startAmplitude
  {
  }

  /** During the attack the amplitude never falls as time goes on (start amplitude >= 0). */
  lemma AttackMonotone(e: EnvelopeState, t1: real, t2: real)
    requires WellFormed(e) && e.noteOn && 0.0 <= e.startAmplitude
    requires t1 <= t2 && t2 - e.triggerOnTime <= e.attackTime
    ensures Amplitude(e, t1) <= Amplitude(e, t2)
  {
    var f1 := (t1 - e.triggerOnTime) / e.attackTime;
    var f2 := (t2 - e.triggerOnTime) / e.attackTime;
    assert f1 <= f2;
    assert f1 * e.startAmplitude <= f2 * e.startAmplitude;
    EpsilonFloorMonotone(AttackRamp(e, t1 - e.triggerOnTime), AttackRamp(e, t2 - e.triggerOnTime));
  }

  /** During the decay the amplitude is the decay ramp after the epsilon rule, and the
      ramp stays between the sustain level and the start amplitude. */
  lemma DecayPhase(e: EnvelopeState, time: real)
    requires WellFormed(e) && e.noteOn
    requires e.attackTime < time - e.triggerOnTime <= e.attackTime + e.decayTime
    ensures Amplitude(e, time) == EpsilonFloor(DecayRamp(e, time - e.triggerOnTime))
    ensures e.sustainAmplitude <= e.startAmplitude ==>
      e.sustainAmplitude <= DecayRamp(e, time - e.triggerOnTime) <= e.startAmplitude
    ensures e.startAmplitude <= e.sustainAmplitude ==>
      e.startAmplitude <= DecayRamp(e, time - e.triggerOnTime) <= e.sustainAmplitude
  {
    var f := (time - e.triggerOnTime - e.attackTime) / e.decayTime;
    assert 0.0 < f <= 1.0;
    var d := e.sustainAmplitude - e.startAmplitude;
    assert DecayRamp(e, time - e.triggerOnTime) == f * d + e.startAmplitude;
    if d <= 0.0 {
      assert d <= f * d <= 0.0;
    } else {
      assert 0.0 <= f * d <= d;
    }
  }

  /** With the note on and the lifetime past attack and decay, the amplitude holds the
      sustain level (after the epsilon rule). */
  lemma SustainPhase(e: EnvelopeState, time: real)
    requires WellFormed(e) && e.noteOn
    requires time - e.triggerOnTime > e.attackTime + e.decayTime
    ensures Amplitude(e, time) == EpsilonFloor(e.sustainAmplitude)
  {
  }

  /** The phase formulas agree where one phase hands over to the next. */
  lemma PhaseBoundaries(e: EnvelopeState)
    requires WellFormed(e)
    ensures AttackRamp(e, 0.0) == 0.0
    ensures AttackRamp(e, e.attackTime) == e.startAmplitude
    ensures DecayRamp(e, e.attackTime) == e.startAmplitude
    ensures DecayRamp(e, e.attackTime + e.decayTime) == e.sustainAmplitude
    ensures ReleaseRamp(e, e.triggerOffTime) == e.sustainAmplitude
    ensures ReleaseRamp(e, e.triggerOffTime + e.releaseTime) == 0.0
  {
  }

  /** With the note off and a non-negative sustain level, the amplitude from the
      note-off time on never exceeds the sustain level, and from one release duration
      after note-off it is exactly 0. */
  lemma ReleasePhase(e: EnvelopeState, time: real)
    requires WellFormed(e) && !e.noteOn && 0.0 <= e.sustainAmplitude
    requires e.triggerOffTime <= time
    ensures Amplitude(e, time) <= e.sustainAmplitude
    ensures e.triggerOffTime + e.releaseTime <= time ==> Amplitude(e, time) == 0.0
  {
  }

  /** During the release the amplitude never rises as time goes on (sustain level >= 0). */
  lemma ReleaseMonotone(e: EnvelopeState, t1: real, t2: real)
    requires WellFormed(e) && !e.noteOn && 0.0 <= e.sustainAmplitude
    requires t1 <= t2
    ensures Amplitude(e, t2) <= Amplitude(e, t1)
  {
    var f1 := (t1 - e.triggerOffTime) / e.releaseTime;
    var f2 := (t2 - e.triggerOffTime) / e.releaseTime;
    assert f1 <= f2;
    assert f1 * e.sustainAmplitude <= f2 * e.sustainAmplitude;
    EpsilonFloorMonotone(ReleaseRamp(e, t2), ReleaseRamp(e, t1));
  }

  /** For the conventional shape 0 <= sustain <= start, the amplitude never exceeds the
      start amplitude, except on a release ramp queried before its own note-off time. */
  lemma AmplitudeWithinPeak(e: EnvelopeState, time: real)
    requires WellFormed(e)
    requires 0.0 <= e.sustainAmplitude <= e.startAmplitude
    requires !e.noteOn ==> e.triggerOffTime <= time
    ensures Amplitude(e, time) <= e.startAmplitude
  {
    var life := time - e.triggerOnTime;
    if !e.noteOn {
      ReleasePhase(e, time);
    } else if life < 0.0 {
      assert life / e.attackTime < 0.0;
      assert AttackRamp(e, life) <= 0.0;
    } else if life <= e.attackTime {
      AttackPhase(e, time);
    } else if life <= e.attackTime + e.decayTime {
      DecayPhase(e, time);
    }
  }

  /** After a key press the attack starts from silence and reaches the start amplitude
      one attack duration later. */
  lemma TriggerRestartsAttack(e: EnvelopeState, t: real)
    requires WellFormed(e)
    ensures Amplitude(Triggered(e, t), t) == 0.0
    ensures Amplitude(Triggered(e, t), t + e.attackTime) == EpsilonFloor(e.startAmplitude)
  {
    PhaseBoundaries(e);
  }

  /** After a key release the amplitude starts at the sustain level, whatever phase the
      note was in, and for a non-negative sustain level is silent from one release
      duration on. */
  lemma ReleaseFromSustain(e: EnvelopeState, t: real, later: real)
    requires WellFormed(e)
    requires t + e.releaseTime <= later
    ensures Amplitude(Released(e, t), t) == EpsilonFloor(e.sustainAmplitude)
    ensures 0.0 <= e.sustainAmplitude ==> Amplitude(Released(e, t), later) == 0.0
  {
  }

  /** The constructor's values: valid durations, 0 <= sustain <= start <= 1, silent
      once the initial release ramp has run out, and half the start amplitude halfway
      through the attack after a trigger at time 0. */
  lemma DefaultEnvelope(time: real)
    requires 0.02 <= time
    ensures WellFormed(Default)
    ensures 0.0 <= Default.sustainAmplitude <= Default.startAmplitude <= 1.0
    ensures Amplitude(Default, time) == 0.0
    ensures Amplitude(Triggered(Default, 0.0), 0.005) == 0.5
  {
  }
}
