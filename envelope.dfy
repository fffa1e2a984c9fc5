/** The ADSR envelope generator of engine/src/synth.rs. `Envelope` is a
    `Copy` struct held by value inside every voice, so it is a datatype
    here and its `&mut self` methods return the updated value. */
module Envelope {
  import opened Common

  /** `SAMPLE_RATE` of synth.rs; envelope times are converted with it. */
  const SAMPLE_RATE: real := 48000.0

  /** Below this level a releasing envelope falls silent. */
  const SILENCE: real := 0.0001

  datatype EnvelopeState = Idle | Attack | Decay | Sustain | Release

  /** Attack, decay and release in seconds, sustain as an amplitude. */
  datatype EnvelopeParams = EnvelopeParams(attack: real, decay: real, sustain: real, release: real)

  const DefaultParams: EnvelopeParams := EnvelopeParams(0.01, 0.1, 0.7, 0.2)

  /** `time` counts the samples spent in the current stage. */
  datatype Envelope = Envelope(params: EnvelopeParams, state: EnvelopeState, level: real, time: real)
  {
    predicate IsActive()
    {
      state != Idle
    }
  }

  /** The result of one `process` call: the new envelope and its output. */
  datatype Step = Step(env: Envelope, out: real)

  function New(params: EnvelopeParams): (e: Envelope)
    ensures e.params == params && e.state == Idle && !e.IsActive()
    ensures e.level == 0.0 && e.time == 0.0
  {
    Envelope(params, Idle, 0.0, 0.0)
  }

  /** Re-triggering stores Attack at stage time 0 and keeps the stored
      level; the next sample recomputes the level from the stage time, so
      the attack ramp restarts from 0 (see `RetriggerRestartsRamp`). */
  function NoteOn(e: Envelope): (r: Envelope)
    ensures r.state == Attack && r.IsActive() && r.time == 0.0
    ensures r.level == e.level && r.params == e.params
  {
    e.(state := Attack, time := 0.0)
  }

  /** A note retriggered while it still sounds (say in the middle of its
      release) drops to silence on the next sample and ramps up again from
      0: the attack level is the stage time over the attack length, and
      the stage time was reset to 0. */
  lemma RetriggerRestartsRamp(e: Envelope)
    requires Samples(e.params.attack) > 0.0
    ensures Process(NoteOn(e)).env.state == Attack
    ensures Process(NoteOn(e)).env.level == 0.0 && Process(NoteOn(e)).out == 0.0
    ensures Process(NoteOn(e)).env.time == 1.0
  {
    assert AttackLevel(NoteOn(e)) == 0.0;
  }

  function NoteOff(e: Envelope): (r: Envelope)
    ensures r.state == Release && r.time == 0.0
    ensures r.level == e.level && r.params == e.params
  {
    e.(state := Release, time := 0.0)
  }

  /** Length of a stage in samples. */
  function Samples(seconds: real): real
  {
    seconds * SAMPLE_RATE
  }

  /** The level the attack ramp has reached. */
  function AttackLevel(e: Envelope): real
    requires Samples(e.params.attack) > 0.0
  {
    e.time / Samples(e.params.attack)
  }

  function DecayLevel(e: Envelope): real
    requires Samples(e.params.decay) > 0.0
  {
    1.0 - (e.time / Samples(e.params.decay) * (1.0 - e.params.sustain))
  }

  function ReleaseLevel(e: Envelope): real
    requires Samples(e.params.release) > 0.0
  {
    e.level * (1.0 - e.time / Samples(e.params.release))
  }

  predicate AttackDone(e: Envelope)
  {
    Samples(e.params.attack) <= 0.0 || AttackLevel(e) >= 1.0
  }

  predicate DecayDone(e: Envelope)
  {
    Samples(e.params.decay) <= 0.0 || DecayLevel(e) <= e.params.sustain
  }

  predicate ReleaseDone(e: Envelope)
  {
    Samples(e.params.release) <= 0.0 || ReleaseLevel(e) <= SILENCE
  }

  /** One sample of the envelope (`Envelope::process`): the stage logic,
      then one more sample of stage time, then the level clamped to
      [0, 1] as the output. */
  function Process(e: Envelope): (s: Step)
    ensures 0.0 <= s.out <= 1.0
    ensures s.out == Clamp(s.env.level, 0.0, 1.0)
    ensures s.env.params == e.params
    ensures e.state == Idle ==> s.env.state == Idle && s.env.level == 0.0
    ensures e.state == Attack ==>
      (if AttackDone(e) then s.env.state == Decay && s.env.level == 1.0 && s.env.time == 1.0
       else s.env.state == Attack && s.env.level == AttackLevel(e) && s.env.time == e.time + 1.0)
    ensures e.state == Decay ==>
      (if DecayDone(e) then s.env.state == Sustain && s.env.level == e.params.sustain
       else s.env.state == Decay && s.env.level == DecayLevel(e))
    ensures e.state == Sustain ==> s.env.state == Sustain && s.env.level == e.params.sustain
    ensures e.state == Release ==>
      (if ReleaseDone(e) then s.env.state == Idle && s.env.level == 0.0
       else s.env.state == Release && s.env.level == ReleaseLevel(e))
    ensures e.state != Attack ==> s.env.time == e.time + 1.0
  {
    var next :=
      match e.state
      case Idle => e.(level := 0.0)
      case Attack =>
        if AttackDone(e) then e.(level := 1.0, state := Decay, time := 0.0)
        else e.(level := AttackLevel(e))
      case Decay =>
        if DecayDone(e) then e.(level := e.params.sustain, state := Sustain)
        else e.(level := DecayLevel(e))
      case Sustain => e.(level := e.params.sustain)
      case Release =>
        if ReleaseDone(e) then e.(level := 0.0, state := Idle)
        else e.(level := ReleaseLevel(e));
    var env := next.(time := next.time + 1.0);
    Step(env, Clamp(env.level, 0.0, 1.0))
  }

  /** The envelope after `n` samples with no note events. */
  function Run(e: Envelope, n: nat): Envelope
    decreases n
  {
    if n == 0 then e else Run(Process(e).env, n - 1)
  }

  /** Stage order Attack < Decay < Sustain < Release < Idle. */
  function Rank(s: EnvelopeState): nat
  {
    match s
    case Attack => 0
    case Decay => 1
    case Sustain => 2
    case Release => 3
    case Idle => 4
  }

  /** Without note events an envelope only moves forward through its
      stages, at most one stage per sample, and never leaves Sustain by
      itself. */
  lemma ProcessAdvancesOneStage(e: Envelope)
    ensures Rank(e.state) <= Rank(Process(e).env.state) <= Rank(e.state) + 1
    ensures e.state == Sustain ==> Process(e).env.state == Sustain
  {
  }

  lemma {:induction false} RunNeverGoesBack(e: Envelope, n: nat)
    ensures Rank(e.state) <= Rank(Run(e, n).state)
    decreases n
  {
    if n > 0 {
      ProcessAdvancesOneStage(e);
      RunNeverGoesBack(Process(e).env, n - 1);
    }
  }

  /** An idle envelope stays idle and silent. */
  lemma {:induction false} IdleStaysIdle(e: Envelope, n: nat)
    requires e.state == Idle
    ensures Run(e, n).state == Idle
    ensures n > 0 ==> Run(e, n).level == 0.0
    decreases n
  {
    if n > 0 {
      IdleStaysIdle(Process(e).env, n - 1);
    }
  }

  /** How a stage's elapsed fraction `time / length` compares with 1. */
  lemma FractionFacts(x: real, d: real)
    requires d > 0.0
    ensures d <= x ==> x / d >= 1.0
    ensures 0.0 <= x < d ==> 0.0 <= x / d < 1.0
  {
    assert x / d * d == x;
  }

  lemma ReleaseStepKeepsLevelNonNegative(e: Envelope)
    requires e.state == Release && e.level >= 0.0 && e.time >= 0.0
    ensures Process(e).env.level >= 0.0
  {
    var r := Samples(e.params.release);
    if r > 0.0 {
      FractionFacts(e.time, r);
      if e.time < r {
        assert 1.0 - e.time / r > 0.0;
      }
    }
  }

  /** A released note falls silent: once its stage time has passed the
      release length the envelope is Idle, so the voice that owns it is
      retired (the release stage of synth.rs:126-139). */
  lemma {:induction false} ReleaseEndsIdle(e: Envelope, n: nat)
    requires e.state == Release && e.level >= 0.0 && e.time >= 0.0
    requires n > 0 && n as real >= Samples(e.params.release) - e.time + 1.0
    ensures Run(e, n).state == Idle
    decreases n
  {
    var s := Process(e).env;
    var r := Samples(e.params.release);
    if r > 0.0 && e.time >= r {
      FractionFacts(e.time, r);
      assert 1.0 - e.time / r <= 0.0;
      assert ReleaseLevel(e) <= 0.0;
    }
    if s.state == Idle {
      IdleStaysIdle(s, n - 1);
    } else {
      ReleaseStepKeepsLevelNonNegative(e);
      ReleaseEndsIdle(s, n - 1);
    }
  }

  lemma AttackStepKeepsTime(e: Envelope)
    requires e.state == Attack && e.time >= 0.0
    ensures Process(e).env.time >= 0.0
  {
  }

  /** The attack ramp ends: after enough samples the envelope has moved on
      to Decay or beyond and never comes back to Attack. */
  lemma {:induction false} AttackEnds(e: Envelope, n: nat)
    requires e.state == Attack && e.time >= 0.0
    requires n > 0 && n as real >= Samples(e.params.attack) - e.time + 1.0
    ensures Run(e, n).state != Attack
    decreases n
  {
    var s := Process(e).env;
    var a := Samples(e.params.attack);
    if a > 0.0 && e.time >= a {
      FractionFacts(e.time, a);
    }
    if s.state == Attack {
      AttackEnds(s, n - 1);
    } else {
      RunNeverGoesBack(s, n - 1);
    }
  }
}
