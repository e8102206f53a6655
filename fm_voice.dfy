/**
 * The FM voice (src/fm_voice.rs): two cores (a modulator and a carrier), one
 * envelope, and the voice-stealing state machine. A note-on that arrives
 * while the envelope still sounds is parked as the pending event and the
 * envelope is shut down; once a render leaves the envelope silent, the
 * pending note is promoted and started.
 *
 * The cores are opaque: `modulator(i)` and `carrier(i, offset)` are their
 * values on the `i`-th call of a render.
 */
module FmVoiceModel {
  import opened Options
  import opened Midi
  import opened Envelope
  import opened FmOperator

  /** The note bookkeeping of a voice together with its envelope. */
  datatype VoiceState = VoiceState(
    isStealing: bool,
    current: Option<MidiEvent>,
    next: Option<MidiEvent>,
    eg: EgSnapshot)

  /** The event a voice stores for a note-on: the timing is always 0. */
  function NoteEvent(note: u8, velocity: real, voiceId: Option<int>, channel: u8): MidiEvent
  {
    MidiEvent(0, voiceId, channel, note, velocity)
  }

  /**
   * `note_on`: a sounding voice is stolen (the new note is parked and the
   * envelope shut down, the held note kept); a silent voice takes the note
   * and starts its attack. Either way the note is stored.
   */
  function NoteOnSpec(v: VoiceState, note: u8, velocity: real, voiceId: Option<int>, channel: u8,
                      p: EgParameters): (r: VoiceState)
    requires v.eg.sampleRate > 0.0
    ensures var ev := NoteEvent(note, velocity, voiceId, channel);
      r.current == Some(ev) || r.next == Some(ev)
    ensures IsPlaying(v.eg.state) ==>
      r.isStealing && r.next == Some(NoteEvent(note, velocity, voiceId, channel))
      && r.eg.state == Shutdown && r.current == v.current
    ensures !IsPlaying(v.eg.state) ==>
      r.current == Some(NoteEvent(note, velocity, voiceId, channel)) && r.eg.state == Attack
      && r.isStealing == v.isStealing && r.next == v.next
    ensures r.eg.sampleRate == v.eg.sampleRate
  {
    var ev := NoteEvent(note, velocity, voiceId, channel);
    if IsPlaying(v.eg.state) then
      v.(isStealing := true, next := Some(ev), eg := ShutdownTransition(v.eg))
    else
      v.(current := Some(ev), eg := NoteOnTransition(v.eg, p))
  }

  /**
   * `note_off`: while stealing, a matching note-off can only cancel the
   * pending note; otherwise a matching note-off releases the envelope and
   * forgets the held note. A note-off that does not match changes nothing.
   * Matching follows the intended rule `Matches`, not the written one.
   */
  function NoteOffSpec(v: VoiceState, voiceId: Option<int>, channel: u8, note: u8,
                       p: EgParameters): (r: VoiceState)
    requires v.eg.sampleRate > 0.0
    ensures v.isStealing ==>
      r.isStealing && r.current == v.current && r.eg == v.eg
      && (r.next == None <==> v.next == None || Matches(v.next.value, voiceId, channel, note))
      && (r.next != None ==> r.next == v.next)
    ensures !v.isStealing && v.current.Some? && Matches(v.current.value, voiceId, channel, note) ==>
      r == v.(current := None, eg := NoteOffTransition(v.eg, p))
    ensures !v.isStealing && (v.current.None? || !Matches(v.current.value, voiceId, channel, note)) ==>
      r == v
    ensures r.eg.sampleRate == v.eg.sampleRate
  {
    if v.isStealing then
      if v.next.Some? && Matches(v.next.value, voiceId, channel, note) then v.(next := None) else v
    else if v.current.Some? && Matches(v.current.value, voiceId, channel, note) then
      v.(current := None, eg := NoteOffTransition(v.eg, p))
    else v
  }

  /**
   * The end of `render`: a steal whose envelope has fallen silent is
   * completed by a note-off of the held note, then the pending note (if any)
   * becomes the held note and is started.
   */
  function CompleteSteal(v: VoiceState, p: EgParameters): (r: VoiceState)
    requires v.eg.sampleRate > 0.0
    ensures !(v.isStealing && !IsPlaying(v.eg.state)) ==> r == v
    ensures v.isStealing && !IsPlaying(v.eg.state) && v.eg.outputValue <= MIN_EG_LEVEL ==>
      !r.isStealing && r.next == None
      && (v.next.Some? ==> r.current == Some(v.next.value.(timing := 0)) && r.eg.state == Attack)
      && (v.next.None? ==> r.current == None && r.eg.state == Off)
    ensures r.eg.sampleRate == v.eg.sampleRate
  {
    if v.isStealing && !IsPlaying(v.eg.state) then
      var a := v.(isStealing := false);
      var b := if a.current.Some? then
                 NoteOffSpec(a, a.current.value.voiceId, a.current.value.channel, a.current.value.note, p)
               else a;
      var c := b.(current := b.next, next := None);
      if c.current.Some? then
        NoteOnSpec(c, c.current.value.note, c.current.value.velocity,
                   c.current.value.voiceId, c.current.value.channel, p)
      else c
    else v
  }

  /**
   * Output sample `i`: the carrier's `i`-th value with its phase offset by the
   * modulation times the FM index, scaled by the envelope value.
   */
  function CarrierSample(carrier: (nat, real) -> real, i: nat, modulation: real, fmIndex: real,
                         egValue: real): real
  {
    carrier(i, PhaseOffset(modulation, fmIndex)) * egValue
  }

  class FmVoice {
    const eg: LinearEg
    var isStealing: bool
    var currentEvent: Option<MidiEvent>
    var nextEvent: Option<MidiEvent>
    var outputBuffer: array2<real>
    var pmBuffer: array<real>

    ghost function State(): VoiceState
      reads this, eg
    {
      VoiceState(isStealing, currentEvent, nextEvent, eg.Snapshot())
    }

    /** A silent stereo voice with one-sample buffers. */
    constructor ()
      ensures fresh(eg) && eg.Snapshot() == EgSnapshot(Off, 0.0, 0.0, 0.0, 0.0)
      ensures !isStealing && currentEvent == None && nextEvent == None
      ensures fresh(outputBuffer) && outputBuffer.Length0 == 2 && outputBuffer.Length1 == 1
      ensures fresh(pmBuffer) && pmBuffer.Length == 1
    {
      eg := new LinearEg();
      isStealing := false;
      currentEvent := None;
      nextEvent := None;
      outputBuffer := new real[2, 1]((ch, i) => 0.0);
      pmBuffer := new real[1](i => 0.0);
    }

    /** Zeroed buffers of `numChannels` x `maxSamples` and `maxSamples`. */
    method Initialize(numChannels: nat, maxSamples: nat)
      modifies this
      ensures fresh(outputBuffer) && fresh(pmBuffer)
      ensures outputBuffer.Length0 == numChannels && outputBuffer.Length1 == maxSamples
      ensures pmBuffer.Length == maxSamples
      ensures forall ch, i :: 0 <= ch < numChannels && 0 <= i < maxSamples ==> outputBuffer[ch, i] == 0.0
      ensures forall i :: 0 <= i < maxSamples ==> pmBuffer[i] == 0.0
      ensures isStealing == old(isStealing) && currentEvent == old(currentEvent) && nextEvent == old(nextEvent)
    {
      outputBuffer := new real[numChannels, maxSamples]((ch, i) => 0.0);
      pmBuffer := new real[maxSamples](i => 0.0);
    }

    /** Resets the envelope to Off at the start level; the note bookkeeping is kept. */
    method Reset(p: EgParameters, sampleRate: real)
      modifies eg
      ensures eg.state == Off && eg.outputValue == p.startLevel && eg.sampleRate == sampleRate
      ensures eg.stepIncrease == old(eg.stepIncrease) && eg.shutdownIncrement == old(eg.shutdownIncrement)
    {
      eg.Reset(p, sampleRate);
    }

    /** The voice sounds exactly while its envelope does. */
    predicate Playing()
      reads this, eg
      ensures Playing() <==> IsPlaying(State().eg.state)
    {
      eg.Playing()
    }

    method NoteOn(note: u8, velocity: real, voiceId: Option<int>, channel: u8, p: EgParameters)
      requires eg.sampleRate > 0.0
      modifies this, eg
      ensures State() == NoteOnSpec(old(State()), note, velocity, voiceId, channel, p)
      ensures outputBuffer == old(outputBuffer) && pmBuffer == old(pmBuffer)
    {
      if eg.Playing() {
        isStealing := true;
        nextEvent := Some(NoteEvent(note, velocity, voiceId, channel));
        eg.Shutdown();
      } else {
        currentEvent := Some(NoteEvent(note, velocity, voiceId, channel));
        eg.NoteOn(p);
      }
    }

    method NoteOff(voiceId: Option<int>, channel: u8, note: u8, p: EgParameters)
      requires eg.sampleRate > 0.0
      modifies this, eg
      ensures State() == NoteOffSpec(old(State()), voiceId, channel, note, p)
      ensures outputBuffer == old(outputBuffer) && pmBuffer == old(pmBuffer)
    {
      if isStealing {
        if nextEvent.Some? && Matches(nextEvent.value, voiceId, channel, note) {
          nextEvent := None;
        }
      } else if currentEvent.Some? && Matches(currentEvent.value, voiceId, channel, note) {
        eg.NoteOff(p);
        currentEvent := None;
      }
    }

    /**
     * Renders `n` samples: the envelope advances `n` steps and its first-step
     * value scales every sample; the modulator fills the modulation buffer and
     * the carrier, phase-offset by it, is fanned out to every channel. Then an
     * outstanding steal is completed if the envelope has fallen silent.
     */
    method Render(n: nat, p: EgParameters, modulator: nat -> real, carrier: (nat, real) -> real, fmIndex: real)
      requires eg.sampleRate > 0.0
      requires n <= pmBuffer.Length && n <= outputBuffer.Length1
      modifies this, eg, outputBuffer, pmBuffer
      ensures outputBuffer == old(outputBuffer) && pmBuffer == old(pmBuffer)
      ensures forall i :: 0 <= i < n ==> pmBuffer[i] == modulator(i)
      ensures forall i :: n <= i < pmBuffer.Length ==> pmBuffer[i] == old(pmBuffer[i])
      ensures var egValue := if n == 0 then 0.0 else Step(old(eg.Snapshot()), p).outputValue;
        forall ch, i :: 0 <= ch < outputBuffer.Length0 && 0 <= i < n ==>
          outputBuffer[ch, i] == CarrierSample(carrier, i, modulator(i), fmIndex, egValue)
      ensures forall ch, i :: 0 <= ch < outputBuffer.Length0 && n <= i < outputBuffer.Length1 ==>
        outputBuffer[ch, i] == old(outputBuffer[ch, i])
      ensures State() == CompleteSteal(old(State()).(eg := Steps(old(eg.Snapshot()), p, n)), p)
    {
      var egValue := eg.Render(p, n);
      FillModulation(n, modulator);
      FillOutput(n, carrier, fmIndex, egValue);
      FinishSteal(p);
    }

    /** The modulator's first `n` values go to the modulation buffer. */
    method FillModulation(n: nat, modulator: nat -> real)
      requires n <= pmBuffer.Length
      modifies pmBuffer
      ensures forall i :: 0 <= i < n ==> pmBuffer[i] == modulator(i)
      ensures forall i :: n <= i < pmBuffer.Length ==> pmBuffer[i] == old(pmBuffer[i])
    {
      var i := 0;
      while i < n
        invariant 0 <= i <= n
        invariant forall j :: 0 <= j < i ==> pmBuffer[j] == modulator(j)
        invariant forall j :: i <= j < pmBuffer.Length ==> pmBuffer[j] == old(pmBuffer[j])
      {
        pmBuffer[i] := modulator(i);
        i := i + 1;
      }
    }

    /** The carrier, phase-offset by the modulation buffer and scaled by `egValue`, on every channel. */
    method FillOutput(n: nat, carrier: (nat, real) -> real, fmIndex: real, egValue: real)
      requires n <= pmBuffer.Length && n <= outputBuffer.Length1
      modifies outputBuffer
      ensures forall ch, i :: 0 <= ch < outputBuffer.Length0 && 0 <= i < n ==>
        outputBuffer[ch, i] == CarrierSample(carrier, i, pmBuffer[i], fmIndex, egValue)
      ensures forall ch, i :: 0 <= ch < outputBuffer.Length0 && n <= i < outputBuffer.Length1 ==>
        outputBuffer[ch, i] == old(outputBuffer[ch, i])
    {
      var i := 0;
      while i < n
        invariant 0 <= i <= n
        invariant forall ch, j :: 0 <= ch < outputBuffer.Length0 && 0 <= j < i ==>
          outputBuffer[ch, j] == CarrierSample(carrier, j, pmBuffer[j], fmIndex, egValue)
        invariant forall ch, j :: 0 <= ch < outputBuffer.Length0 && i <= j < outputBuffer.Length1 ==>
          outputBuffer[ch, j] == old(outputBuffer[ch, j])
      {
        FanOut(outputBuffer, i, CarrierSample(carrier, i, pmBuffer[i], fmIndex, egValue));
        i := i + 1;
      }
    }

    /** The steal completion at the end of a render. */
    method FinishSteal(p: EgParameters)
      requires eg.sampleRate > 0.0
      modifies this, eg
      ensures State() == CompleteSteal(old(State()), p)
      ensures outputBuffer == old(outputBuffer) && pmBuffer == old(pmBuffer)
    {
      if isStealing && !eg.Playing() {
        isStealing := false;
        if currentEvent.Some? {
          var ev := currentEvent.value;
          NoteOff(ev.voiceId, ev.channel, ev.note, p);
        }
        currentEvent := nextEvent;
        nextEvent := None;
        if currentEvent.Some? {
          var ev := currentEvent.value;
          NoteOn(ev.note, ev.velocity, ev.voiceId, ev.channel, p);
        }
      }
    }

    /**
     * Adds the voice's output into `audio` over `[blockStart, blockEnd)`:
     * sample `blockStart + i` of each channel receives sample `i` of the
     * voice's channel; everything else is unchanged.
     */
    method AccumulateOutput(audio: array2<real>, blockStart: nat, blockEnd: nat)
      requires audio != outputBuffer
      requires blockStart <= blockEnd <= audio.Length1
      requires audio.Length0 <= outputBuffer.Length0 && blockEnd - blockStart <= outputBuffer.Length1
      modifies audio
      ensures forall ch, i :: 0 <= ch < audio.Length0 && 0 <= i < audio.Length1 ==>
        audio[ch, i] == old(audio[ch, i])
          + (if blockStart <= i < blockEnd then outputBuffer[ch, i - blockStart] else 0.0)
    {
      var ch := 0;
      while ch < audio.Length0
        invariant 0 <= ch <= audio.Length0
        invariant forall c, i :: 0 <= c < audio.Length0 && 0 <= i < audio.Length1 ==>
          audio[c, i] == old(audio[c, i])
            + (if c < ch && blockStart <= i < blockEnd then outputBuffer[c, i - blockStart] else 0.0)
      {
        var k := 0;
        while k < blockEnd - blockStart
          invariant 0 <= k <= blockEnd - blockStart
          invariant forall c, i :: 0 <= c < audio.Length0 && 0 <= i < audio.Length1 ==>
            audio[c, i] == old(audio[c, i])
              + (if (c < ch || (c == ch && i < blockStart + k)) && blockStart <= i < blockEnd
                 then outputBuffer[c, i - blockStart] else 0.0)
        {
          audio[ch, blockStart + k] := audio[ch, blockStart + k] + outputBuffer[ch, k];
          k := k + 1;
        }
        ch := ch + 1;
      }
    }
  }

  /**
   * After a render of at least one sample with a start level at or below
   * zero (the plugin uses 0), a steal whose envelope has fallen silent is
   * complete: nothing is pending, the pending note is now the held note, and
   * if there was one its attack has started.
   */
  lemma StealCompletesAfterRender(v: VoiceState, p: EgParameters, n: nat)
    requires v.eg.sampleRate > 0.0 && n >= 1 && p.startLevel <= MIN_EG_LEVEL
    requires v.isStealing && !IsPlaying(Steps(v.eg, p, n).state)
    ensures var r := CompleteSteal(v.(eg := Steps(v.eg, p, n)), p);
      !r.isStealing && r.next == None
      && (v.next.Some? ==> r.current == Some(v.next.value.(timing := 0)) && r.eg.state == Attack)
      && (v.next.None? ==> r.current == None)
  {
    var e := Steps(v.eg, p, n);
    assert e == Step(Steps(v.eg, p, n - 1), p);
  }

  /**
   * A steal that starts from a sounding output is over within the shutdown
   * time: after `ShutdownSamples` steps of the shut-down envelope the voice is
   * silent, so the next render completes the steal.
   */
  lemma StolenVoiceFallsSilent(v: VoiceState, note: u8, velocity: real, voiceId: Option<int>, channel: u8,
                               p: EgParameters)
    requires v.eg.sampleRate > 0.0 && IsPlaying(v.eg.state) && v.eg.outputValue > MIN_EG_LEVEL
    ensures var r := NoteOnSpec(v, note, velocity, voiceId, channel, p);
      r.isStealing && !IsPlaying(Steps(r.eg, p, ShutdownSamples(v.eg.sampleRate)).state)
  {
    ShutdownCompletes(v.eg, p);
  }

  /**
   * A note-off that matches the pending note during a steal cancels it: the
   * steal goes on, with nothing left to promote, and the held note is kept.
   */
  lemma CancelledStealDropsPending(v: VoiceState, note: u8, velocity: real, voiceId: Option<int>, channel: u8,
                                 p: EgParameters)
    requires v.eg.sampleRate > 0.0 && IsPlaying(v.eg.state)
    ensures var stolen := NoteOnSpec(v, note, velocity, voiceId, channel, p);
      var cancelled := NoteOffSpec(stolen, voiceId, channel, note, p);
      cancelled.isStealing && cancelled.next == None && cancelled.current == v.current
  {
  }
}
