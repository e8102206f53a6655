# fm_synth in Dafny

A model of the note-handling core of `fm_synth`. The synth is a polyphonic FM synthesizer plugin: each voice is a modulator core phase-modulating a carrier core, scaled by a linear ADSR envelope. The model covers six parts:

- **`SynthClock`** (`clock.dfy`): the phase accumulator and its wrap helpers. Rust's `f32 %` is the truncated remainder, written out as `FRem`.
- **`Envelope`** (`linear_eg.dfy`): the linear envelope generator. It is a six-state Attack/Decay/Sustain/Release/Shutdown/Off machine.
  - The `LinearEg` class updates its fields in place.
  - Its methods are proved to follow pure transition functions on an `EgSnapshot` value.
- **`FmOperator`** (`fm_operator.dfy`): an operator's buffer plumbing.
  - The output is fanned out to every channel.
  - Channel-averaged phase modulation is accumulated from another operator.
  - The modulation input is cleared after each render.
- **`FmVoiceModel`** (`fm_voice.dfy`): the FM voice.
  - The voice-stealing state machine: `note_on` on a sounding voice parks the note, the envelope is shut down, and the next render that finds the envelope silent promotes the parked note.
  - The carrier-times-envelope render.
  - Accumulation into the host buffer.
- **`VoicePool`** (`voice_group.dfy`): the polyphonic voice pool.
  - Allocation takes the first silent voice, otherwise the oldest voice, with the last one winning ties.
  - Age bookkeeping.
  - Growing and shrinking of the active set, evicting the oldest voices and keeping the survivors in order.
- **`BlockSplitter`** (`process.dfy`): the sub-block splitter of the plugin's `process` callback. The host buffer is rendered in sub-blocks of at most 64 samples, cut at note-event timings, and events due at a sub-block's start are dispatched first. The host event queue is a sequence read through a cursor. The calls on the voice pool are returned as a trace.

Modelling choices:

- **Numbers.** `f32` values are reals.
- **Oscillators.** Cores are opaque functions of the sample index and the phase offset.
- **Voices.** The `Voice` trait becomes a `VoiceOps<V>` record of total functions. The pool is generic over its voice values.
- **Classes.** Code that updates struct fields in place is a class with the same fields. Each method's `ensures` ties the new state to a specification function of the old one.
- **Note-off matching.** The voices use the intended match rule `Midi.Matches`. The rule as written, `Midi.MatchesAsWritten`, is kept beside it; see Findings.

## Model

| member | source | states |
|---|---|---|
| SynthClock.Trunc | src/clock.rs:3-5 | truncation toward zero: within one unit of x, on the side of zero |
| SynthClock.FRem | src/clock.rs:3-5 | Rust's float `%` for a positive modulus: x = trunc(x / m) * m + r, with r in [0, m) for a non-negative dividend and in (-m, 0] for a negative one |
| SynthClock.WrapMax | src/clock.rs:3-5 | `wrap_max` lands in [0, max), a whole number of periods `max` away from its input |
| SynthClock.WrapMinMax | src/clock.rs:20-22 | `wrap_min_max` lands in [min, max), a whole number of spans `max - min` away from its input |
| SynthClock.WrapUnit | src/clock.rs:20-22 | wrapping into [0, 1) moves a value by a whole number, and leaves a value already in [0, 1) unchanged |
| SynthClock.Wrapped | src/clock.rs:70-78 | the counter `wrap_clock` leaves: in [0, 1), a whole number away from the input, the identity on [0, 1) |
| SynthClock.WrappedIdempotent | src/clock.rs:70-78 | wrapping twice is wrapping once |
| SynthClock.OffsetPhase | src/clock.rs:106-116 | the offset is added when the clock runs forward and subtracted otherwise; with `wrap` the result is in [0, 1) and a whole number away, without it is exact |
| SynthClock.WrapExamples | src/clock.rs:131-138 | 1.5, -0.5, -1.5 and 2.5 wrap to 0.5; the fast paths give 1.5 to 0.5 and -0.5 to 0.5 |
| SynthClock.Clock.constructor | src/clock.rs:43-51 | every field starts at zero |
| SynthClock.Clock.Reset | src/clock.rs:53-57 | phase and both offsets zeroed; increment and frequency kept |
| SynthClock.Clock.AdvanceClock | src/clock.rs:63-65 | the counter moves by interval times increment; nothing else changes |
| SynthClock.Clock.WrapClock | src/clock.rs:70-78 | the counter ends in [0, 1), equal to `Wrapped` of the old one; nothing else changes |
| SynthClock.Clock.AdvanceWrapClock | src/clock.rs:84-87 | advance then wrap: the counter is `Wrapped(old + interval * increment)` |
| SynthClock.Clock.SetFreq | src/clock.rs:96-99 | the frequency is stored and increment times sample rate equals it |
| SynthClock.Clock.AddPhaseOffset | src/clock.rs:106-116 | the offset is recorded and the counter becomes `OffsetPhase` of the old counter |
| SynthClock.ClockScenario | src/clock.rs:141-205 | the unit tests' values: 0.7 advanced by -0.1 gives 0.6, 0.8 stays 0.8, 0.2 minus offset 0.3 without wrap gives -0.1 |
| Midi.MatchesAsWritten | src/fm_voice.rs:164-165 | the written note-off rule: same channel and note match, an equal present id matches, and two absent ids match whatever the note |
| Midi.Matches | src/fm_voice.rs:172-173 | the intended note-off rule: same channel and note match, an equal present id matches |
| Midi.AbsentIdMatchesSameNoteOnly | src/fm_voice.rs:172-173 | without a voice id the intended rule matches exactly the same channel and note |
| Midi.MatchesNarrowsAsWritten | src/fm_voice.rs:172-173 | the intended rule implies the written one, and both agree when a voice id is given |
| Midi.NoteOffReleasesOtherKey | src/fm_voice.rs:172-173 | a note-off for key 61 without an id matches a held key 60 without an id as written, not as intended |
| Envelope.StepIncrease | src/linear_eg.rs:194-206 | 0 for a zero time; otherwise step times (time times rate) equals scale times 1000, with the sign of the scale |
| Envelope.StepIncreaseExample | src/linear_eg.rs:250-262 | 100 ms at 1000 Hz is a step of 0.01 |
| Envelope.Step | src/linear_eg.rs:111-150 | one render step moves only to the next segment, exactly when the step reaches its boundary: attack hands over to decay when output plus step reaches 1, decay to sustain when it reaches the sustain level, release and shutdown to Off when it reaches 0. Inside a segment the output moves by one step (the shutdown increment in Shutdown). At a boundary it is clamped: 1 with the decay step loaded, the sustain level, or exactly 0. The step is otherwise unchanged; sustain holds the sustain level; Off outputs the start level |
| Envelope.IsPlaying | src/linear_eg.rs:62-70 | the sounding states are exactly Attack, Decay, Sustain, Release and Shutdown |
| Envelope.LinearEg.Playing | src/fm_voice.rs:183-185 | the envelope object sounds exactly when its state is a sounding one |
| Envelope.Steps | src/linear_eg.rs:109-157 | n render steps keep the sample rate and the shutdown increment |
| Envelope.NoteOnTransition | src/linear_eg.rs:172-177 | from any state: Attack with the attack step `StepIncrease(attack, 1, rate)` loaded, output plus step equal to the start level, and a positive step below the start level for a positive attack time |
| Envelope.NoteOffTransition | src/linear_eg.rs:160-169 | Release exactly when the output is above 0, Off otherwise; the step loaded is `StepIncrease(release, -1, rate)`: 0 for a zero release time, negative for a positive one; output unchanged |
| Envelope.ShutdownTransition | src/linear_eg.rs:179-184 | Shutdown with increment times 2 ms times rate equal to -1000 times the output; negative for a positive output |
| Envelope.LinearEg.constructor | src/linear_eg.rs:83-91 | Off with every number zero |
| Envelope.LinearEg.Reset | src/linear_eg.rs:94-98 | Off at the start level with the new sample rate; the increments kept |
| Envelope.LinearEg.Render | src/linear_eg.rs:107-157 | the new state is `Steps` of the old one; the result is 0 for n = 0, else the output after the first step |
| Envelope.LinearEg.NoteOff | src/linear_eg.rs:160-169 | the new state is `NoteOffTransition` of the old one |
| Envelope.LinearEg.NoteOn | src/linear_eg.rs:172-177 | the new state is `NoteOnTransition` of the old one |
| Envelope.LinearEg.Shutdown | src/linear_eg.rs:179-184 | the new state is `ShutdownTransition` of the old one |
| Envelope.ShutdownSamples | src/linear_eg.rs:31 | the 2 ms shutdown time at the sample rate rounded up to whole samples: at least one, covering the time, and one fewer would not |
| Envelope.StepKeepsValid | src/linear_eg.rs:116-150 | for sane parameters a step keeps the envelope invariant and outputs a value in [0, 1] |
| Envelope.StepsKeepValid | src/linear_eg.rs:107-157 | every value a render returns lies in [0, 1] |
| Envelope.NoteOnKeepsValid | src/linear_eg.rs:172-177 | note-on keeps the invariant |
| Envelope.NoteOffKeepsValid | src/linear_eg.rs:160-169 | note-off keeps the invariant |
| Envelope.ShutdownKeepsValid | src/linear_eg.rs:179-184 | shutdown keeps the invariant at 500 Hz or more |
| Envelope.ResetIsValid | src/linear_eg.rs:94-98 | reset yields a valid envelope |
| Envelope.OffRendersStartLevel | src/linear_eg.rs:109-115 | an Off envelope stays Off and outputs the start level for any n of at least 1 |
| Envelope.ShutdownTrajectory | src/linear_eg.rs:144-149 | a shutdown descends linearly by its increment, above 0, until it switches Off |
| Envelope.ShutdownCompletes | src/linear_eg.rs:179-184 | from a positive output, shutdown reaches Off within ceil(2 * rate / 1000) steps |
| Envelope.RenderAttackScenario | src/linear_eg.rs:221-248 | an attack with step 0.01 rendered for 50 samples returns 0.01 |
| Envelope.NoteOffExamples | src/linear_eg.rs:264-290 | note-off at output 0.5 releases; at output 0 it goes Off |
| Envelope.NoteOnExamples | src/linear_eg.rs:292-314 | note-on at output 0.5 with the default parameters restarts the attack below 0 |
| FmOperator.Outputs | src/fm_operator.rs:49-65 | one value per rendered sample |
| FmOperator.OutputsPrefix | src/fm_operator.rs:49-65 | rendering more samples leaves the earlier ones unchanged |
| FmOperator.OutputAt | src/fm_operator.rs:52-62 | sample i is the core's value at phase offset input times index; the input is the previous output under self-modulation, otherwise the accumulated modulation |
| FmOperator.SelfModulationIgnoresInput | src/fm_operator.rs:52-55 | under self-modulation the accumulated input has no effect |
| FmOperator.ClearedInputIsUnmodulated | src/fm_operator.rs:67-70 | after the clear, a render without self-modulation is the unmodulated core |
| FmOperator.WeightedColumnSum | src/fm_operator.rs:80-87 | the per-channel weighted sum equals the channel sum times the weight |
| FmOperator.FanOut | src/fm_operator.rs:63-65 | the value is written to every channel at one index; all other entries are unchanged |
| FmOperator.Operator.constructor | src/fm_operator.rs:18-26 | a stereo one-sample zeroed operator |
| FmOperator.Operator.Initialize | src/fm_operator.rs:31-34 | fresh zero buffers of channels x samples and samples |
| FmOperator.Operator.Render | src/fm_operator.rs:40-71 | every channel holds the outputs below n; indices from n on are unchanged; the last output is the value at n - 1; the modulation input is all zero |
| FmOperator.Operator.AddPmSource | src/fm_operator.rs:74-89 | each input sample gains the channel average of the other operator's output; later samples are unchanged |
| FmVoiceModel.NoteOnSpec | src/fm_voice.rs:117-152 | a sounding voice is stolen: the note is parked, stealing is set, the envelope shuts down, the held note is kept. A silent voice holds the note and starts its attack, with stealing and parked note untouched |
| FmVoiceModel.NoteOffSpec | src/fm_voice.rs:154-181 | with the intended match rule `Midi.Matches`: while stealing, only a matching parked note is cleared and the envelope is untouched; otherwise a matching held note is released and cleared; a non-matching note-off changes nothing |
| FmVoiceModel.CompleteSteal | src/fm_voice.rs:80-108 | with no steal pending or a sounding envelope nothing changes; a stolen voice whose output fell to 0 ends not stealing with nothing parked, the parked note (retimed to 0) held and in Attack, or silent and Off when none was parked |
| FmVoiceModel.FmVoice.constructor | src/fm_voice.rs:26-38 | a silent voice with no notes and one-sample stereo buffers |
| FmVoiceModel.FmVoice.Initialize | src/fm_voice.rs:40-43 | fresh zero buffers; the note bookkeeping is unchanged |
| FmVoiceModel.FmVoice.Reset | src/fm_voice.rs:111-115 | the envelope is reset to Off at the start level |
| FmVoiceModel.FmVoice.NoteOn | src/fm_voice.rs:117-152 | the new state is `NoteOnSpec` of the old one |
| FmVoiceModel.FmVoice.NoteOff | src/fm_voice.rs:154-181 | the new state is `NoteOffSpec` of the old one |
| FmVoiceModel.FmVoice.Playing | src/fm_voice.rs:183-185 | the voice sounds exactly while its envelope is not Off |
| FmVoiceModel.FmVoice.FillModulation | src/fm_voice.rs:61-65 | the modulator's values fill the modulation buffer below n; later entries unchanged |
| FmVoiceModel.FmVoice.Render | src/fm_voice.rs:45-109 | the modulator fills the modulation buffer; each channel gets the phase-modulated carrier times the first-step envelope value below n; later samples unchanged; the state is `CompleteSteal` after n envelope steps |
| FmVoiceModel.FmVoice.FillOutput | src/fm_voice.rs:67-78 | the same carrier sample on every channel below n; later samples unchanged |
| FmVoiceModel.FmVoice.FinishSteal | src/fm_voice.rs:80-108 | the new state is `CompleteSteal` of the old one |
| FmVoiceModel.FmVoice.AccumulateOutput | src/fm_voice.rs:187-198 | host samples in the block gain the voice's output shifted by the block start; every other sample is unchanged |
| FmVoiceModel.StealCompletesAfterRender | src/fm_voice.rs:80-108 | for a start level of at most 0, a render of at least one sample that silences a stolen voice completes the steal: nothing pending, the parked note held and attacking, no note held when none was parked |
| FmVoiceModel.StolenVoiceFallsSilent | src/fm_voice.rs:127-136 | a stolen sounding voice is silent within the shutdown time |
| FmVoiceModel.CancelledStealDropsPending | src/fm_voice.rs:162-170 | a note-off matching the note that stole a sounding voice drops the parked note, keeps the steal running and the held note unchanged |
| VoicePool.OldestVoice | src/voice_group.rs:143-149 | None exactly for no timings; otherwise a maximal timing, later indices strictly smaller (the last on ties) |
| VoicePool.OldestVoiceExamples | src/voice_group.rs:170-184 | [0,1,2,3] gives 3, [0,0,0,0] gives 3, [] gives None |
| VoicePool.FreeVoice | src/voice_group.rs:151-155 | the lowest silent voice; None exactly when every voice plays |
| VoicePool.ComputeFallbackVoiceId | src/voice_group.rs:158-160 | the note is in the low 16 bits and the channel above them |
| VoicePool.ChooseVoice | src/voice_group.rs:83-87 | in bounds; the first silent voice if any, otherwise the oldest, the last on ties |
| VoicePool.Shrink | src/voice_group.rs:131-139 | exactly min(ids, n) indices are kept, all in range |
| VoicePool.ShrinkPartitions | src/voice_group.rs:131-139 | kept and evicted together are exactly the original voices |
| VoicePool.ShrinkKeepsOrder | src/voice_group.rs:131-139 | survivors keep their relative order |
| VoicePool.ShrinkEvictsOldest | src/voice_group.rs:131-139 | every evicted voice is older than every survivor, or as old and at a higher index |
| VoicePool.ShrinkExample | src/voice_group.rs:193-197 | timings [0,5,2,4,1,3] shrunk to 2 evict timings 5, 4, 3, 2 and keep [0, 1] |
| VoicePool.VoiceGroup.constructor | src/voice_group.rs:15-25 | an empty pool |
| VoicePool.VoiceGroup.Initialize | src/voice_group.rs:27-45 | exactly the requested number of fresh voices, all with timing 0; the rest of the fresh voices are appended to the inactive list |
| VoicePool.VoiceGroup.Render | src/voice_group.rs:47-66 | every active voice is rendered for the block length; the buffer is their accumulations in order |
| VoicePool.VoiceGroup.Reset | src/voice_group.rs:67-72 | every active voice reset, every timing 0 |
| VoicePool.VoiceGroup.NoteOn | src/voice_group.rs:73-106 | the note goes to `ChooseVoice`; each timing rises by 1 exactly when its voice plays after the dispatch |
| VoicePool.VoiceGroup.NoteOff | src/voice_group.rs:107-118 | the note-off reaches every active voice once |
| VoicePool.VoiceGroup.UpdateNumVoices | src/voice_group.rs:120-141 | ends with n active voices. Growing pops inactive voices with timing 0; shrinking keeps the `Shrink` survivors with their timings and moves the evicted voices, oldest first, to the inactive list |
| VoicePool.VoiceGroup.Grow | src/voice_group.rs:126-130 | inactive voices are popped onto the active list with timing 0 |
| VoicePool.VoiceGroup.ShrinkTo | src/voice_group.rs:131-139 | the oldest voices are evicted one at a time as `Shrink` describes |
| VoicePool.UpdateNumVoicesScenario | src/voice_group.rs:186-198 | 4 voices grown to 6, then shrunk to 2 from timings [0,5,2,4,1,3], leave timings [0, 1] |
| BlockSplitter.Process | src/lib.rs:380-448 | sub-blocks tile the buffer and are non-empty, at most 64 samples long, ending at the next due time. Exactly the events due before the end are taken, in order. NoteOn and NoteOff events become pool calls and other kinds are dropped, each just before the sub-block that starts at its due time |
| BlockSplitter.DispatchDue | src/lib.rs:389-433 | the inner loop takes events until the head of the queue is timed after the block start, keeping the dispatch invariant |
| BlockSplitter.DispatchOne | src/lib.rs:391-425 | taking one due event leaves the sub-blocks unchanged, advances the cursor by one and keeps the dispatch invariant |
| BlockSplitter.RenderKeepsInvariant | src/lib.rs:427-445 | the sub-block ending at the next due time, or at the end of the maximum block, is non-empty, stays inside the buffer and extends the tiling and the cut property to its end |
| BlockSplitter.DispatchStep | src/lib.rs:391-425 | a dispatched event is due exactly at the current block start |
| BlockSplitter.DueAt | src/lib.rs:391 | an event is due no earlier than its own timing |
| BlockSplitter.DueAtIsMax | src/lib.rs:389-431 | an event's due time is the largest timing among it and the events before it |
| BlockSplitter.DueAtMonotone | src/lib.rs:389-431 | due times never decrease along the queue |
| BlockSplitter.BlockEndIsCut | src/lib.rs:427-429 | the end the loop picks is a cut point: no event falls due strictly inside the block |
| BlockSplitter.SortedDueAtTiming | src/lib.rs:389-431 | with non-decreasing timings an event is due exactly at its own timing |
| BlockSplitter.EmptyQueueBlocks | src/lib.rs:382-447 | with no events a 100-sample buffer is rendered as [0, 64) and [64, 100) |

## Left out

- The sine oscillator (`src/sin_osc.rs`) and the FM core (`src/fm_core.rs`) are not part of this model. Their outputs are opaque functions, and MIDI note-to-frequency conversion is foreign code.
- The editor, the parameter declarations, the plugin registration, and the smoothed parameters and `set_parameters` in `src/lib.rs` are host and UI glue. The voice-count smoother that feeds `update_num_voices` at the top of `process` is foreign. So is the reading of the sample rate.
- Logging and debug macros are diagnostics only.
- `f32` rounding is not modelled: numbers are reals.
- `VoicePool.VoiceGroup.NoteOn`: voice ages are unbounded integers. The source keeps them as `i32` (`src/voice_group.rs:11`), whose `+= 1` overflows after 2^31 - 1 note-ons; that overflow is not modelled. Event timings are naturals, not `u32`.
- Sample rate 0: the envelope's operations and `SynthClock.Clock.SetFreq` require a non-zero (for the envelope, positive) sample rate. The source divides by it, and its envelope note-on and note-off unit tests run with a rate of 0, producing infinities.
- Calls whose callees differ in signature across files are modelled abstractly:
  - the core ratio and FM parameters read by the voice render;
  - `remove_phase_offset`;
  - the extra sample-rate arguments of `eg.render` and the voice calls.
- Operator `note_on`, `note_off`, `reset` and `update_core_ratio` (`src/fm_operator.rs:27-38, 91-108`) only forward to the core and envelope.
- `FmVoiceModel.FmVoice.Reset` resets the two cores in the source. Cores are opaque, so only the envelope reset is modelled.
- `FmVoiceModel.FmVoice.Reset` takes a `sampleRate` argument that the source's `reset` does not pass: the envelope's `reset` needs one, and the model supplies it instead of keeping the old rate.
- The envelope's `is_playing`, called by the voice, has no definition in `src/linear_eg.rs`. It is modelled as "not Off", which `Envelope.IsPlaying` states.
- `update` and `initialize` of the envelope trait are trivial defaults.
- `MAX_VOICES` lives in `consts.rs`, which is not part of this model. It is taken as 16; only its positivity and the unit test's six voices matter.
- `VoicePool.VoiceGroup.Render`: the host buffer is a value threaded through the voices' accumulations, not an aliased mutable slice.
- `VoicePool.VoiceGroup.NoteOn`: requires a non-empty pool. With no active voices the source's fallback id indexes out of bounds.
- `Envelope.ShutdownKeepsValid`: proved for sample rates of 500 Hz or more. Below that, a shutdown from a negative output can overshoot in one step.
- `FmVoiceModel.StealCompletesAfterRender`: assumes a start level of at most 0, which the plugin hard-codes. With a positive start level the promoted voice would still be sounding.
- `BlockSplitter.Process`: events left in the host queue after the buffer is filled are not modelled.

## Findings

| source | as written | input that shows it | evidently intended | confidence | as-written member | corrected member |
|---|---|---|---|---|---|---|
| src/fm_voice.rs:164-165, 172-173 | a note-off matches a stored note when the two `Option` voice ids are equal, and two absent ids are equal | a held key 60 and a note-off for key 61, both on channel 0 and both without a voice id (as plain MIDI input delivers them): the key-61 note-off releases key 60, and through the pool's broadcast every other held note without an id | an id refers to a note only when present; otherwise the channel and note must both agree | high, not executed | Midi.MatchesAsWritten, Midi.NoteOffReleasesOtherKey | Midi.Matches, Midi.AbsentIdMatchesSameNoteOnly |
