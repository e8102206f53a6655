/**
 * The note types shared by the voices and the voice pool (src/voice_utils.rs):
 * a stored MIDI note event and the rule a voice uses to decide whether a
 * note-off refers to the note it holds.
 */
module Midi {
  import opened Options

  /** An unsigned 8-bit integer, as Rust's `u8`. */
  newtype u8 = x: int | 0 <= x < 256

  /** A note as a voice remembers it. Velocity is an `f32` in the source, a real here. */
  datatype MidiEvent = MidiEvent(
    timing: nat,
    voiceId: Option<int>,
    channel: u8,
    note: u8,
    velocity: real)

  /**
   * The note-off rule as the voice writes it: the stored event matches when the
   * two voice-id options are equal, or when both channel and note are equal.
   * Two absent ids compare equal, so a note-off without a voice id (every note
   * from a plain MIDI input) matches every stored note that has none, whatever
   * its channel and pitch.
   */
  predicate MatchesAsWritten(ev: MidiEvent, voiceId: Option<int>, channel: u8, note: u8): (b: bool)
    ensures ev.channel == channel && ev.note == note ==> b
    ensures voiceId.Some? && ev.voiceId == voiceId ==> b
    ensures ev.voiceId.None? && voiceId.None? ==> b
  {
    ev.voiceId == voiceId || (ev.channel == channel && ev.note == note)
  }

  /**
   * The note-off rule as intended: a voice id refers to the stored event only
   * when it is present; otherwise the channel and the note must both agree.
   * The voices use this rule.
   */
  predicate Matches(ev: MidiEvent, voiceId: Option<int>, channel: u8, note: u8): (b: bool)
    ensures ev.channel == channel && ev.note == note ==> b
    ensures voiceId.Some? && ev.voiceId == voiceId ==> b
  {
    (voiceId.Some? && ev.voiceId == voiceId) || (ev.channel == channel && ev.note == note)
  }

  /** Without a voice id the intended rule is by channel and note, in both directions. */
  lemma AbsentIdMatchesSameNoteOnly(ev: MidiEvent, channel: u8, note: u8)
    ensures Matches(ev, None, channel, note) <==> ev.channel == channel && ev.note == note
  {
  }

  /** The intended rule only narrows the written one, and they agree when an id is given. */
  lemma MatchesNarrowsAsWritten(ev: MidiEvent, voiceId: Option<int>, channel: u8, note: u8)
    ensures Matches(ev, voiceId, channel, note) ==> MatchesAsWritten(ev, voiceId, channel, note)
    ensures voiceId.Some? ==>
      (Matches(ev, voiceId, channel, note) <==> MatchesAsWritten(ev, voiceId, channel, note))
  {
  }

  /**
   * The discrepancy: releasing key 61 on channel 0 without a voice id matches
   * a held key 60 that has none under the written rule, and not under the
   * intended one.
   */
  lemma NoteOffReleasesOtherKey()
    ensures MatchesAsWritten(MidiEvent(0, None, 0, 60, 1.0), None, 0, 61)
    ensures !Matches(MidiEvent(0, None, 0, 60, 1.0), None, 0, 61)
  {
  }
}
