/**
 * The linear envelope generator (src/linear_eg.rs): a six-state machine
 * (Off, Attack, Decay, Sustain, Release, Shutdown) whose output moves by a
 * fixed step per sample and is clamped at each segment boundary.
 *
 * The pure part (one render step, the note-on, note-off and shutdown
 * transitions) is stated on `EgSnapshot` values; the class `LinearEg` holds
 * the same fields and its methods are proved to follow those functions.
 */
module Envelope {

  const MAX_EG_LEVEL: real := 1.0
  const MIN_EG_LEVEL: real := 0.0
  /** Length of the forced fade used when a voice is stolen. */
  const SHUTDOWN_TIME_MSEC: real := 2.0

  /** Segment times in milliseconds and the two levels, resolved once per block. */
  datatype EgParameters = EgParameters(
    attackTimeMsec: real,
    decayTimeMsec: real,
    releaseTimeMsec: real,
    startLevel: real,
    sustainLevel: real)

  /** The defaults of `EGParameters`. */
  const DEFAULT_PARAMETERS := EgParameters(10.0, 50.0, 100.0, 0.0, 0.4)

  datatype EnvelopeState = Off | Attack | Decay | Sustain | Release | Shutdown

  /** An envelope is sounding in every state but Off. */
  predicate IsPlaying(s: EnvelopeState): (b: bool)
    ensures b <==> s in {Attack, Decay, Sustain, Release, Shutdown}
  {
    s != Off
  }

  /** The fields of a `LinearEG`. */
  datatype EgSnapshot = EgSnapshot(
    state: EnvelopeState,
    stepIncrease: real,
    sampleRate: real,
    outputValue: real,
    shutdownIncrement: real)

  /**
   * `calc_step_increase`: the per-sample change that covers `scale` in
   * `timeMsec` milliseconds, or 0 for a zero-length segment.
   */
  function StepIncrease(timeMsec: real, scale: real, sampleRate: real): (r: real)
    requires sampleRate > 0.0
    ensures timeMsec == 0.0 ==> r == 0.0
    ensures timeMsec != 0.0 ==> r * (timeMsec * sampleRate) == scale * 1000.0
    ensures timeMsec > 0.0 && scale > 0.0 ==> r > 0.0
    ensures timeMsec > 0.0 && scale < 0.0 ==> r < 0.0
  {
    if timeMsec == 0.0 then 0.0 else scale * (1000.0 / (timeMsec * sampleRate))
  }

  /** The segments a single render step may move between. */
  predicate SegmentSuccessor(from: EnvelopeState, to: EnvelopeState)
  {
    match from
    case Off => to == Off
    case Attack => to == Attack || to == Decay
    case Decay => to == Decay || to == Sustain
    case Sustain => to == Sustain
    case Release => to == Release || to == Off
    case Shutdown => to == Shutdown || to == Off
  }

  /**
   * One iteration of `render`'s loop. Each segment clamps the output at its
   * boundary: an attack step never leaves the output above MAX_EG_LEVEL, a
   * decay step never below the sustain level, a release or shutdown step never
   * below MIN_EG_LEVEL; Off reloads the start level.
   */
  function Step(s: EgSnapshot, p: EgParameters): (r: EgSnapshot)
    requires s.sampleRate > 0.0
    ensures r.sampleRate == s.sampleRate && r.shutdownIncrement == s.shutdownIncrement
    ensures SegmentSuccessor(s.state, r.state)
    // when each segment ends: its step reaches or crosses the boundary
    ensures s.state == Attack ==> (r.state == Decay <==> s.outputValue + s.stepIncrease >= MAX_EG_LEVEL)
    ensures s.state == Decay ==> (r.state == Sustain <==> s.outputValue + s.stepIncrease <= p.sustainLevel)
    ensures s.state == Release ==> (r.state == Off <==> s.outputValue + s.stepIncrease <= MIN_EG_LEVEL)
    ensures s.state == Shutdown ==> (r.state == Off <==> s.outputValue + s.shutdownIncrement <= MIN_EG_LEVEL)
    // inside a segment the output moves by one step
    ensures (s.state == Attack || s.state == Decay || s.state == Release) && r.state == s.state ==>
      r.outputValue == s.outputValue + s.stepIncrease
    ensures s.state == Shutdown && r.state == Shutdown ==> r.outputValue == s.outputValue + s.shutdownIncrement
    // and is clamped at the boundary it reaches
    ensures s.state == Attack ==> r.outputValue <= MAX_EG_LEVEL
    ensures s.state == Attack && r.state == Decay ==>
      r.outputValue == MAX_EG_LEVEL && r.stepIncrease == StepIncrease(p.decayTimeMsec, -1.0, s.sampleRate)
    ensures !(s.state == Attack && r.state == Decay) ==> r.stepIncrease == s.stepIncrease
    ensures s.state == Decay ==> r.outputValue >= p.sustainLevel
    ensures r.state == Sustain ==> r.outputValue == p.sustainLevel
    ensures s.state == Release || s.state == Shutdown ==> r.outputValue >= MIN_EG_LEVEL
    ensures (s.state == Release || s.state == Shutdown) && r.state == Off ==> r.outputValue == MIN_EG_LEVEL
    ensures s.state == Off ==> r.state == Off && r.outputValue == p.startLevel
  {
    match s.state
    case Off =>
      s.(outputValue := p.startLevel)
    case Attack =>
      var o := s.outputValue + s.stepIncrease;
      if o >= MAX_EG_LEVEL then
        s.(outputValue := MAX_EG_LEVEL,
           stepIncrease := StepIncrease(p.decayTimeMsec, -1.0, s.sampleRate),
           state := Decay)
      else
        s.(outputValue := o)
    case Decay =>
      var o := s.outputValue + s.stepIncrease;
      if o <= p.sustainLevel then s.(outputValue := p.sustainLevel, state := Sustain)
      else s.(outputValue := o)
    case Sustain =>
      s.(outputValue := p.sustainLevel)
    case Release =>
      var o := s.outputValue + s.stepIncrease;
      if o <= MIN_EG_LEVEL then s.(outputValue := MIN_EG_LEVEL, state := Off)
      else s.(outputValue := o)
    case Shutdown =>
      var o := s.outputValue + s.shutdownIncrement;
      if o <= MIN_EG_LEVEL then s.(outputValue := MIN_EG_LEVEL, state := Off)
      else s.(outputValue := o)
  }

  /** `k` render steps in a row. */
  function Steps(s: EgSnapshot, p: EgParameters, k: nat): (r: EgSnapshot)
    requires s.sampleRate > 0.0
    ensures r.sampleRate == s.sampleRate && r.shutdownIncrement == s.shutdownIncrement
    decreases k
  {
    if k == 0 then s else Step(Steps(s, p, k - 1), p)
  }

  /**
   * `note_on`: (re)starts the attack from any state. The output is set one
   * step below the start level, so that the first rendered sample is the
   * start level itself.
   */
  function NoteOnTransition(s: EgSnapshot, p: EgParameters): (r: EgSnapshot)
    requires s.sampleRate > 0.0
    ensures r.state == Attack
    ensures r.stepIncrease == StepIncrease(p.attackTimeMsec, 1.0, s.sampleRate)
    ensures r.outputValue + r.stepIncrease == p.startLevel
    ensures p.attackTimeMsec > 0.0 ==> r.stepIncrease > 0.0 && r.outputValue < p.startLevel
    ensures r.sampleRate == s.sampleRate && r.shutdownIncrement == s.shutdownIncrement
  {
    var step := StepIncrease(p.attackTimeMsec, 1.0, s.sampleRate);
    s.(stepIncrease := step, state := Attack, outputValue := p.startLevel - step)
  }

  /**
   * `note_off`: loads the (negative) release step, then releases a sounding
   * output or switches straight off when the output is already at the floor.
   */
  function NoteOffTransition(s: EgSnapshot, p: EgParameters): (r: EgSnapshot)
    requires s.sampleRate > 0.0
    ensures r.state == Release <==> s.outputValue > MIN_EG_LEVEL
    ensures r.state == Off <==> s.outputValue <= MIN_EG_LEVEL
    ensures r.stepIncrease == StepIncrease(p.releaseTimeMsec, -1.0, s.sampleRate)
    ensures p.releaseTimeMsec == 0.0 ==> r.stepIncrease == 0.0
    ensures p.releaseTimeMsec > 0.0 ==> r.stepIncrease < 0.0
    ensures r.stepIncrease * (p.releaseTimeMsec * s.sampleRate) == -1000.0 || p.releaseTimeMsec == 0.0
    ensures r.outputValue == s.outputValue && r.sampleRate == s.sampleRate
    ensures r.shutdownIncrement == s.shutdownIncrement
  {
    var step := StepIncrease(p.releaseTimeMsec, -1.0, s.sampleRate);
    s.(stepIncrease := step,
       state := if s.outputValue > MIN_EG_LEVEL then Release else Off)
  }

  /**
   * `shutdown`: a forced linear fade that takes the present output to zero in
   * SHUTDOWN_TIME_MSEC, whatever the segment and the ADSR settings.
   */
  function ShutdownTransition(s: EgSnapshot): (r: EgSnapshot)
    requires s.sampleRate > 0.0
    ensures r.state == Shutdown
    ensures r.shutdownIncrement * SHUTDOWN_TIME_MSEC * s.sampleRate == -1000.0 * s.outputValue
    ensures s.outputValue > MIN_EG_LEVEL ==> r.shutdownIncrement < 0.0
    ensures r.outputValue == s.outputValue && r.stepIncrease == s.stepIncrease
    ensures r.sampleRate == s.sampleRate
  {
    s.(shutdownIncrement := -(1000.0 * s.outputValue) / SHUTDOWN_TIME_MSEC / s.sampleRate,
       state := Shutdown)
  }

  /** A `LinearEG`: the envelope of one voice or operator. */
  class LinearEg {
    var state: EnvelopeState
    var stepIncrease: real
    var sampleRate: real
    var outputValue: real
    var shutdownIncrement: real

    ghost function Snapshot(): EgSnapshot
      reads this
    {
      EgSnapshot(state, stepIncrease, sampleRate, outputValue, shutdownIncrement)
    }

    /** The envelope is sounding in every state but Off. */
    predicate Playing()
      reads this
      ensures Playing() <==> IsPlaying(Snapshot().state)
    {
      IsPlaying(state)
    }

    constructor ()
      ensures Snapshot() == EgSnapshot(Off, 0.0, 0.0, 0.0, 0.0)
    {
      state := Off;
      stepIncrease := 0.0;
      sampleRate := 0.0;
      outputValue := 0.0;
      shutdownIncrement := 0.0;
    }

    /** Off, at the start level, running at `sampleRate`. */
    method Reset(p: EgParameters, sampleRate: real)
      modifies this
      ensures state == Off && outputValue == p.startLevel && this.sampleRate == sampleRate
      ensures stepIncrease == old(stepIncrease) && shutdownIncrement == old(shutdownIncrement)
    {
      this.sampleRate := sampleRate;
      outputValue := p.startLevel;
      state := Off;
    }

    /**
     * Advances the state machine `n` samples and returns the output after the
     * first of them (0 when `n` is 0): the envelope is applied at block rate.
     */
    method Render(p: EgParameters, n: nat) returns (output: real)
      requires sampleRate > 0.0
      modifies this
      ensures Snapshot() == Steps(old(Snapshot()), p, n)
      ensures output == if n == 0 then 0.0 else Step(old(Snapshot()), p).outputValue
    {
      output := 0.0;
      var i := 0;
      while i < n
        invariant 0 <= i <= n
        invariant sampleRate == old(sampleRate)
        invariant Snapshot() == Steps(old(Snapshot()), p, i)
        invariant output == if i == 0 then 0.0 else Step(old(Snapshot()), p).outputValue
      {
        match state {
          case Off =>
            outputValue := p.startLevel;
          case Attack =>
            outputValue := outputValue + stepIncrease;
            if outputValue >= MAX_EG_LEVEL {
              outputValue := MAX_EG_LEVEL;
              stepIncrease := StepIncrease(p.decayTimeMsec, -1.0, sampleRate);
              state := Decay;
            }
          case Decay =>
            outputValue := outputValue + stepIncrease;
            if outputValue <= p.sustainLevel {
              outputValue := p.sustainLevel;
              state := Sustain;
            }
          case Sustain =>
            outputValue := p.sustainLevel;
          case Release =>
            outputValue := outputValue + stepIncrease;
            if outputValue <= MIN_EG_LEVEL {
              outputValue := MIN_EG_LEVEL;
              state := Off;
            }
          case Shutdown =>
            outputValue := outputValue + shutdownIncrement;
            if outputValue <= MIN_EG_LEVEL {
              outputValue := MIN_EG_LEVEL;
              state := Off;
            }
        }
        if i == 0 {
          output := outputValue;
        }
        i := i + 1;
      }
    }

    method NoteOff(p: EgParameters)
      requires sampleRate > 0.0
      modifies this
      ensures Snapshot() == NoteOffTransition(old(Snapshot()), p)
    {
      stepIncrease := StepIncrease(p.releaseTimeMsec, -1.0, sampleRate);
      if outputValue > MIN_EG_LEVEL {
        state := Release;
      } else {
        state := Off;
      }
    }

    method NoteOn(p: EgParameters)
      requires sampleRate > 0.0
      modifies this
      ensures Snapshot() == NoteOnTransition(old(Snapshot()), p)
    {
      stepIncrease := StepIncrease(p.attackTimeMsec, 1.0, sampleRate);
      state := Attack;
      outputValue := p.startLevel - stepIncrease;
    }

    method Shutdown()
      requires sampleRate > 0.0
      modifies this
      ensures Snapshot() == ShutdownTransition(old(Snapshot()))
    {
      shutdownIncrement := -(1000.0 * outputValue) / SHUTDOWN_TIME_MSEC / sampleRate;
      state := EnvelopeState.Shutdown;
    }
  }

  /** ceil(x) for a non-negative x. */
  function Ceil(x: real): (n: nat)
    requires x >= 0.0
    ensures x <= n as real < x + 1.0
  {
    if x.Floor as real == x then x.Floor else x.Floor + 1
  }

  /** Render steps a shutdown is allowed: SHUTDOWN_TIME_MSEC at `sampleRate`, rounded up. */
  function ShutdownSamples(sampleRate: real): (n: nat)
    requires sampleRate > 0.0
    ensures n >= 1
    ensures n as real * 1000.0 >= SHUTDOWN_TIME_MSEC * sampleRate
    ensures (n as real - 1.0) * 1000.0 < SHUTDOWN_TIME_MSEC * sampleRate
  {
    var x := SHUTDOWN_TIME_MSEC * sampleRate / 1000.0;
    var n := Ceil(x);
    assert (n as real - 1.0) < x;
    n
  }

  /** Parameter ranges the editor offers: non-negative times, levels within [0, 1]. */
  predicate SaneParameters(p: EgParameters)
  {
    p.attackTimeMsec >= 0.0 && p.decayTimeMsec >= 0.0 && p.releaseTimeMsec >= 0.0
    && MIN_EG_LEVEL <= p.startLevel <= MAX_EG_LEVEL
    && MIN_EG_LEVEL <= p.sustainLevel <= MAX_EG_LEVEL
  }

  /**
   * What keeps every rendered value within [MIN_EG_LEVEL, MAX_EG_LEVEL]: the
   * output never exceeds the maximum, each segment's step points the right
   * way, and a step into the segment lands at or above its floor. (The stored
   * output itself may be negative, one attack step below the start level.)
   */
  predicate Valid(s: EgSnapshot, p: EgParameters)
  {
    s.sampleRate > 0.0 && s.outputValue <= MAX_EG_LEVEL
    && match s.state
       case Off => true
       case Attack => s.stepIncrease >= 0.0 && s.outputValue + s.stepIncrease >= MIN_EG_LEVEL
       case Decay => s.stepIncrease <= 0.0 && s.outputValue >= p.sustainLevel
       case Sustain => true
       case Release => s.stepIncrease <= 0.0 && s.outputValue >= MIN_EG_LEVEL
       case Shutdown =>
         (s.shutdownIncrement <= 0.0 && s.outputValue >= MIN_EG_LEVEL)
         || s.outputValue + s.shutdownIncrement <= MIN_EG_LEVEL
  }

  /** A render step keeps `Valid` and yields a value within [0, 1]. */
  lemma StepKeepsValid(s: EgSnapshot, p: EgParameters)
    requires SaneParameters(p) && Valid(s, p)
    ensures Valid(Step(s, p), p)
    ensures MIN_EG_LEVEL <= Step(s, p).outputValue <= MAX_EG_LEVEL
  {
  }

  /** Every value `Render` can return lies within [MIN_EG_LEVEL, MAX_EG_LEVEL]. */
  lemma {:induction false} StepsKeepValid(s: EgSnapshot, p: EgParameters, k: nat)
    requires SaneParameters(p) && Valid(s, p)
    ensures Valid(Steps(s, p, k), p)
    ensures k >= 1 ==> MIN_EG_LEVEL <= Steps(s, p, k).outputValue <= MAX_EG_LEVEL
  {
    if k > 0 {
      StepsKeepValid(s, p, k - 1);
      StepKeepsValid(Steps(s, p, k - 1), p);
    }
  }

  lemma NoteOnKeepsValid(s: EgSnapshot, p: EgParameters)
    requires SaneParameters(p) && Valid(s, p)
    ensures Valid(NoteOnTransition(s, p), p)
  {
  }

  lemma NoteOffKeepsValid(s: EgSnapshot, p: EgParameters)
    requires SaneParameters(p) && Valid(s, p)
    ensures Valid(NoteOffTransition(s, p), p)
  {
  }

  /**
   * A negative stored output (just after a note-on) gives a positive shutdown
   * increment; at 500 Hz or more one step of it still lands at or below zero.
   */
  lemma NegativeShutdownStep(o: real, sampleRate: real)
    requires o < 0.0 && sampleRate >= 500.0
    ensures o + -(1000.0 * o) / SHUTDOWN_TIME_MSEC / sampleRate <= MIN_EG_LEVEL
  {
    var c := 500.0 / sampleRate;
    assert c <= 1.0;
    assert -(1000.0 * o) / SHUTDOWN_TIME_MSEC / sampleRate == -o * c;
    assert (-o) * (1.0 - c) >= 0.0;
  }

  /** Shutdown keeps `Valid` at any sample rate of 500 Hz or more. */
  lemma ShutdownKeepsValid(s: EgSnapshot, p: EgParameters)
    requires SaneParameters(p) && Valid(s, p) && s.sampleRate >= 500.0
    ensures Valid(ShutdownTransition(s), p)
  {
    if s.outputValue < 0.0 {
      NegativeShutdownStep(s.outputValue, s.sampleRate);
    }
  }

  /** Reset leaves a valid envelope. */
  lemma ResetIsValid(s: EgSnapshot, p: EgParameters, sampleRate: real)
    requires SaneParameters(p) && sampleRate > 0.0
    ensures Valid(s.(state := Off, outputValue := p.startLevel, sampleRate := sampleRate), p)
  {
  }

  /** An envelope that is Off stays Off and outputs the start level on every sample. */
  lemma {:induction false} OffRendersStartLevel(s: EgSnapshot, p: EgParameters, k: nat)
    requires s.sampleRate > 0.0 && s.state == Off && k >= 1
    ensures Steps(s, p, k) == s.(outputValue := p.startLevel)
  {
    if k > 1 {
      OffRendersStartLevel(s, p, k - 1);
    }
  }

  /** A shutdown moves linearly by its increment until it switches off. */
  lemma {:induction false} ShutdownTrajectory(s: EgSnapshot, p: EgParameters, k: nat)
    requires s.sampleRate > 0.0 && s.state == Shutdown
    ensures Steps(s, p, k).state == Shutdown || Steps(s, p, k).state == Off
    ensures Steps(s, p, k).state == Shutdown ==>
      Steps(s, p, k).outputValue == s.outputValue + (k as real) * s.shutdownIncrement
    ensures k >= 1 && Steps(s, p, k).state == Shutdown ==> Steps(s, p, k).outputValue > MIN_EG_LEVEL
  {
    if k > 0 {
      ShutdownTrajectory(s, p, k - 1);
      var prev := Steps(s, p, k - 1);
      assert Steps(s, p, k) == Step(prev, p);
      assert prev.shutdownIncrement == s.shutdownIncrement;
      if prev.state == Shutdown {
        assert (k as real) * s.shutdownIncrement
            == ((k - 1) as real) * s.shutdownIncrement + s.shutdownIncrement;
      }
    }
  }

  /** With `n` covering the shutdown time, `n` increments take the output `o` to zero. */
  lemma ShutdownSpan(o: real, sampleRate: real, n: real)
    requires o > 0.0 && sampleRate > 0.0 && n * 1000.0 >= SHUTDOWN_TIME_MSEC * sampleRate
    ensures o + n * (-(1000.0 * o) / SHUTDOWN_TIME_MSEC / sampleRate) <= MIN_EG_LEVEL
  {
    var c := 500.0 / sampleRate;
    assert -(1000.0 * o) / SHUTDOWN_TIME_MSEC / sampleRate == -(o * c);
    assert n * 500.0 >= sampleRate;
    assert n * c >= 1.0;
    assert (n * c - 1.0) * o >= 0.0;
  }

  /**
   * A stolen voice falls silent in time: from a positive output, a shutdown
   * reaches Off within SHUTDOWN_TIME_MSEC worth of samples.
   */
  lemma ShutdownCompletes(s: EgSnapshot, p: EgParameters)
    requires s.sampleRate > 0.0 && s.outputValue > MIN_EG_LEVEL
    ensures Steps(ShutdownTransition(s), p, ShutdownSamples(s.sampleRate)).state == Off
  {
    var t := ShutdownTransition(s);
    var n := ShutdownSamples(s.sampleRate);
    ShutdownTrajectory(t, p, n);
    ShutdownSpan(s.outputValue, s.sampleRate, n as real);
  }

  /** 100 ms at 1000 Hz is a step of 0.01. */
  lemma StepIncreaseExample()
    ensures StepIncrease(100.0, 1.0, 1000.0) == 0.01
  {
  }

  /**
   * An attack that starts at 0 with a step of 0.01 renders 0.01 as the first
   * sample of a 50-sample block.
   */
  method RenderAttackScenario() returns (output: real)
    ensures output == 0.01
  {
    var p := EgParameters(100.0, 100.0, 200.0, 0.0, 0.5);
    var eg := new LinearEg();
    eg.Reset(p, 44100.0);
    eg.state := Attack;
    eg.stepIncrease := 0.01;
    output := eg.Render(p, 50);
  }

  /**
   * The note-off cases: a sounding envelope in any segment moves to Release;
   * one that is Off at zero output stays Off at zero.
   */
  lemma NoteOffExamples(s: EgSnapshot)
    requires s.sampleRate == 44100.0
    ensures NoteOffTransition(s.(outputValue := 0.5), DEFAULT_PARAMETERS).state == Release
    ensures var r := NoteOffTransition(s.(state := Off, outputValue := 0.0), DEFAULT_PARAMETERS);
      r.state == Off && r.outputValue == 0.0
  {
  }

  /** A note-on from any segment restarts the attack below zero. */
  lemma NoteOnExamples(s: EgSnapshot)
    requires s.sampleRate == 1000.0
    ensures var r := NoteOnTransition(s.(outputValue := 0.5), DEFAULT_PARAMETERS);
      r.state == Attack && r.outputValue < 0.0
  {
  }
}
