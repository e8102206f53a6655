/**
 * The voice pool (src/voice_group.rs): a polyphonic synth keeps a list of
 * active voices with an age counter each, and a list of inactive voices to
 * grow from. A note-on goes to the first silent voice, or else to the oldest
 * one; shrinking the pool evicts the oldest voices one at a time.
 *
 * A voice is any value of type `V`; what the pool needs of it is the
 * interface in `VoiceOps`. Voices are owned by the pool alone, so they are
 * modelled as values and an operation on a voice returns its new value.
 */
module VoicePool {
  import opened Options
  import opened Midi
  import opened Envelope

  /**
   * The capacity of the pool. Its value lives in a file that is not part of
   * this model; only its being positive matters to the properties below.
   */
  const MAX_VOICES: nat := 16

  /** What the pool asks of a voice, mirroring the `Voice` trait. */
  datatype VoiceOps<!V> = VoiceOps(
    blank: V,
    initialize: (V, nat, nat) -> V,
    render: (V, nat, EgParameters, real) -> V,
    reset: (V, EgParameters) -> V,
    noteOn: (V, u8, real, Option<int>, u8, EgParameters, real) -> V,
    noteOff: (V, Option<int>, u8, u8, EgParameters, real) -> V,
    isPlaying: V -> bool,
    accumulate: (V, seq<seq<real>>, nat, nat) -> seq<seq<real>>)

  /**
   * `get_oldest_voice`: the index of a largest timing, the last one on ties,
   * or None exactly when there are no timings.
   */
  function OldestVoice(timings: seq<int>): (r: Option<nat>)
    ensures r.None? <==> |timings| == 0
    ensures r.Some? ==> r.value < |timings|
    ensures r.Some? ==> forall k :: 0 <= k < |timings| ==> timings[k] <= timings[r.value]
    ensures r.Some? ==> forall k :: r.value < k < |timings| ==> timings[k] < timings[r.value]
    decreases |timings|
  {
    if |timings| == 0 then None
    else
      var last := |timings| - 1;
      match OldestVoice(timings[..last])
      case None => Some(last)
      case Some(j) => if timings[last] >= timings[j] then Some(last) else Some(j)
  }

  /**
   * `get_free_voice`: the lowest index of a voice that is not playing, or None
   * exactly when every voice plays.
   */
  function FreeVoice<V>(active: seq<V>, isPlaying: V -> bool): (r: Option<nat>)
    ensures r.None? <==> forall k :: 0 <= k < |active| ==> isPlaying(active[k])
    ensures r.Some? ==> r.value < |active| && !isPlaying(active[r.value])
    ensures r.Some? ==> forall k :: 0 <= k < r.value ==> isPlaying(active[k])
    decreases |active|
  {
    if |active| == 0 then None
    else if !isPlaying(active[0]) then Some(0)
    else
      match FreeVoice(active[1..], isPlaying)
      case None => None
      case Some(j) => Some(j + 1)
  }

  /**
   * `compute_fallback_voice_id`: a 64-bit id with the note in the low 16 bits
   * and the channel above them, so note and channel can be read back.
   */
  function ComputeFallbackVoiceId(note: u8, channel: u8): (r: bv64)
    ensures r & 0xFFFF == note as bv64
    ensures r >> 16 == channel as bv64
  {
    (note as bv64) | ((channel as bv64) << 16)
  }

  /**
   * The voice a note-on goes to in a non-empty pool: the first silent voice
   * if there is one, otherwise the oldest (last on ties). The fallback id of
   * the source is only reached for an empty pool, where indexing fails.
   */
  function ChooseVoice<V>(active: seq<V>, timings: seq<int>, isPlaying: V -> bool): (r: nat)
    requires |active| == |timings| > 0
    ensures r < |active|
    ensures (exists k :: 0 <= k < |active| && !isPlaying(active[k])) ==>
      !isPlaying(active[r]) && forall k :: 0 <= k < r ==> isPlaying(active[k])
    ensures (forall k :: 0 <= k < |active| ==> isPlaying(active[k])) ==>
      (forall k :: 0 <= k < |timings| ==> timings[k] <= timings[r])
      && (forall k :: r < k < |timings| ==> timings[k] < timings[r])
  {
    match FreeVoice(active, isPlaying)
    case Some(i) => i
    case None => OldestVoice(timings).value
  }

  /** `s` without its element at index `i`, as `Vec::remove`. */
  function Remove<T>(s: seq<T>, i: nat): (r: seq<T>)
    requires i < |s|
    ensures |r| == |s| - 1
    ensures forall k {:trigger r[k]} :: 0 <= k < i ==> r[k] == s[k]
    ensures forall k {:trigger r[k]} :: i <= k < |r| ==> r[k] == s[k + 1]
  {
    s[..i] + s[i + 1..]
  }

  /** The elements of `s` at the indices `ids`, in that order. */
  function Lift<T>(s: seq<T>, ids: seq<nat>): (r: seq<T>)
    requires forall k :: 0 <= k < |ids| ==> ids[k] < |s|
    ensures |r| == |ids| && forall k {:trigger r[k]} :: 0 <= k < |ids| ==> r[k] == s[ids[k]]
  {
    seq(|ids|, k requires 0 <= k < |ids| => s[ids[k]])
  }

  /** The indices `0..n`. */
  function Range(n: nat): (r: seq<nat>)
    ensures |r| == n && forall k :: 0 <= k < n ==> r[k] == k
  {
    seq(n, k requires 0 <= k < n => k)
  }

  /** `s` back to front: the order in which popping from its end yields it. */
  function Reversed<T>(s: seq<T>): (r: seq<T>)
    ensures |r| == |s|
    ensures forall k :: 0 <= k < |s| ==> r[k] == s[|s| - 1 - k]
  {
    if |s| == 0 then [] else Reversed(s[1..]) + [s[0]]
  }

  predicate StrictlyIncreasing(ids: seq<nat>)
  {
    forall a, b :: 0 <= a < b < |ids| ==> ids[a] < ids[b]
  }

  /**
   * The shrinking loop of `update_num_voices`, on the original indices `ids`
   * still active: while more than `n` remain, the oldest (by `timings`) is
   * evicted. Yields the kept indices and the evicted ones in eviction order;
   * together they are exactly `ids`.
   */
  function Shrink(timings: seq<int>, ids: seq<nat>, n: nat): (r: (seq<nat>, seq<nat>))
    requires forall k :: 0 <= k < |ids| ==> ids[k] < |timings|
    ensures |r.0| == if |ids| <= n then |ids| else n
    ensures forall k :: 0 <= k < |r.0| ==> r.0[k] < |timings|
    ensures forall k :: 0 <= k < |r.1| ==> r.1[k] < |timings|
    decreases |ids|
  {
    if |ids| <= n then (ids, [])
    else
      var o := OldestVoice(Lift(timings, ids)).value;
      var rest := Shrink(timings, Remove(ids, o), n);
      (rest.0, [ids[o]] + rest.1)
  }

  /** The kept and the evicted indices together are exactly `ids`. */
  lemma {:induction false} ShrinkPartitions(timings: seq<int>, ids: seq<nat>, n: nat)
    requires forall k :: 0 <= k < |ids| ==> ids[k] < |timings|
    ensures var r := Shrink(timings, ids, n);
      multiset(r.0) + multiset(r.1) == multiset(ids)
    decreases |ids|
  {
    if |ids| > n {
      var o := OldestVoice(Lift(timings, ids)).value;
      ShrinkPartitions(timings, Remove(ids, o), n);
      RemoveMultiset(ids, o);
    }
  }

  lemma RemoveMultiset<T>(s: seq<T>, i: nat)
    requires i < |s|
    ensures multiset(Remove(s, i)) + multiset{s[i]} == multiset(s)
  {
    assert s == s[..i] + [s[i]] + s[i + 1..];
  }

  /** An index kept or evicted by `Shrink` was one of `ids`. */
  lemma ShrinkFromIds(timings: seq<int>, ids: seq<nat>, n: nat, x: nat)
    requires forall k :: 0 <= k < |ids| ==> ids[k] < |timings|
    requires x in multiset(Shrink(timings, ids, n).0) || x in multiset(Shrink(timings, ids, n).1)
    ensures x in ids
  {
    ShrinkPartitions(timings, ids, n);
    assert x in multiset(ids);
  }

  /** Removing an element keeps a strictly increasing sequence so. */
  lemma RemoveIncreasing(ids: seq<nat>, i: nat)
    requires i < |ids| && StrictlyIncreasing(ids)
    ensures StrictlyIncreasing(Remove(ids, i))
  {
  }

  /** Survivors keep their relative order: the kept indices are increasing. */
  lemma {:induction false} ShrinkKeepsOrder(timings: seq<int>, ids: seq<nat>, n: nat)
    requires forall k :: 0 <= k < |ids| ==> ids[k] < |timings|
    requires StrictlyIncreasing(ids)
    ensures StrictlyIncreasing(Shrink(timings, ids, n).0)
    decreases |ids|
  {
    if |ids| > n {
      var o := OldestVoice(Lift(timings, ids)).value;
      RemoveIncreasing(ids, o);
      ShrinkKeepsOrder(timings, Remove(ids, o), n);
    }
  }

  /**
   * Every evicted voice is older than every survivor, or as old and at a
   * higher index.
   */
  lemma {:induction false} ShrinkEvictsOldest(timings: seq<int>, ids: seq<nat>, n: nat)
    requires forall k :: 0 <= k < |ids| ==> ids[k] < |timings|
    requires StrictlyIncreasing(ids)
    ensures var r := Shrink(timings, ids, n);
      forall a, b :: a in r.0 && b in r.1 ==>
        timings[a] < timings[b] || (timings[a] == timings[b] && a < b)
    decreases |ids|
  {
    if |ids| > n {
      var lifted := Lift(timings, ids);
      var o := OldestVoice(lifted).value;
      var rem := Remove(ids, o);
      RemoveIncreasing(ids, o);
      ShrinkEvictsOldest(timings, rem, n);
      var rest := Shrink(timings, rem, n);
      forall a | a in rest.0
        ensures timings[a] < timings[ids[o]] || (timings[a] == timings[ids[o]] && a < ids[o])
      {
        ShrinkFromIds(timings, rem, n, a);
        var j :| 0 <= j < |rem| && rem[j] == a;
        if j < o {
          assert a == ids[j] && lifted[j] <= lifted[o];
        } else {
          assert a == ids[j + 1] && lifted[j + 1] < lifted[o];
        }
      }
    }
  }

  /** One iteration of the shrinking loop. */
  lemma ShrinkStep(timings: seq<int>, ids: seq<nat>, n: nat)
    requires forall k :: 0 <= k < |ids| ==> ids[k] < |timings|
    requires n < |ids|
    ensures var o := OldestVoice(Lift(timings, ids)).value;
      var rest := Shrink(timings, Remove(ids, o), n);
      Shrink(timings, ids, n) == (rest.0, [ids[o]] + rest.1)
  {
  }

  lemma AppendAssociative<T>(a: seq<T>, x: T, b: seq<T>)
    ensures (a + [x]) + b == a + ([x] + b)
  {
  }

  lemma LiftRange<T>(s: seq<T>)
    ensures Lift(s, Range(|s|)) == s
  {
  }

  lemma LiftRemove<T>(s: seq<T>, ids: seq<nat>, i: nat)
    requires forall k :: 0 <= k < |ids| ==> ids[k] < |s|
    requires i < |ids|
    ensures Lift(s, Remove(ids, i)) == Remove(Lift(s, ids), i)
  {
  }

  lemma LiftAppend<T>(s: seq<T>, ids: seq<nat>, x: nat)
    requires forall k :: 0 <= k < |ids| ==> ids[k] < |s|
    requires x < |s|
    ensures Lift(s, ids + [x]) == Lift(s, ids) + [s[x]]
  {
  }

  class VoiceGroup<V> {
    const ops: VoiceOps<V>
    var active: seq<V>
    var inactive: seq<V>
    var timings: seq<int>

    /** One timing per active voice, and no more active voices than MAX_VOICES. */
    predicate Valid()
      reads this
    {
      |active| == |timings| <= MAX_VOICES
    }

    /** An empty pool. */
    constructor (ops: VoiceOps<V>)
      ensures this.ops == ops && active == [] && inactive == [] && timings == []
      ensures Valid()
    {
      this.ops := ops;
      active := [];
      inactive := [];
      timings := [];
    }

    /**
     * Creates MAX_VOICES voices onto the inactive list and activates
     * `numVoices` of them, each with timing 0. Previously inactive voices stay.
     */
    method Initialize(numVoices: nat, numChannels: nat, maxSamples: nat)
      requires numVoices <= MAX_VOICES
      modifies this
      ensures Valid()
      ensures var v := ops.initialize(ops.blank, numChannels, maxSamples);
        && active == seq(numVoices, _ => v)
        && timings == seq(numVoices, _ => 0)
        && inactive == old(inactive) + seq(MAX_VOICES - numVoices, _ => v)
    {
      active := [];
      timings := [];
      ghost var v := ops.initialize(ops.blank, numChannels, maxSamples);
      var k := 0;
      while k < MAX_VOICES
        invariant 0 <= k <= MAX_VOICES
        invariant active == [] && timings == []
        invariant inactive == old(inactive) + seq(k, _ => v)
      {
        var voice := ops.initialize(ops.blank, numChannels, maxSamples);
        inactive := inactive + [voice];
        k := k + 1;
      }
      k := 0;
      while k < numVoices
        invariant 0 <= k <= numVoices
        invariant active == seq(k, _ => v) && timings == seq(k, _ => 0)
        invariant inactive == old(inactive) + seq(MAX_VOICES - k, _ => v)
      {
        active := active + [inactive[|inactive| - 1]];
        inactive := inactive[..|inactive| - 1];
        timings := timings + [0];
        k := k + 1;
      }
    }

    /**
     * Renders every active voice for the block, then accumulates every active
     * voice, in order, into the audio buffer.
     */
    method Render(audio: seq<seq<real>>, p: EgParameters, sampleRate: real, blockStart: nat, blockEnd: nat)
      returns (result: seq<seq<real>>)
      requires blockStart <= blockEnd
      modifies this
      ensures |active| == |old(active)|
      ensures forall k :: 0 <= k < |active| ==>
        active[k] == ops.render(old(active)[k], blockEnd - blockStart, p, sampleRate)
      ensures result == AccumulateAll(ops.accumulate, active, audio, blockStart, blockEnd)
      ensures inactive == old(inactive) && timings == old(timings)
    {
      var blockSize := blockEnd - blockStart;
      var k := 0;
      while k < |active|
        invariant 0 <= k <= |active| == |old(active)|
        invariant forall j :: 0 <= j < k ==> active[j] == ops.render(old(active)[j], blockSize, p, sampleRate)
        invariant forall j :: k <= j < |active| ==> active[j] == old(active)[j]
        invariant inactive == old(inactive) && timings == old(timings)
      {
        active := active[k := ops.render(active[k], blockSize, p, sampleRate)];
        k := k + 1;
      }
      result := audio;
      k := 0;
      while k < |active|
        invariant 0 <= k <= |active|
        invariant result == AccumulateAll(ops.accumulate, active[..k], audio, blockStart, blockEnd)
      {
        assert active[..k + 1][..k] == active[..k];
        result := ops.accumulate(active[k], result, blockStart, blockEnd);
        k := k + 1;
      }
      assert active[..|active|] == active;
    }

    /** Resets every active voice and zeroes every timing. */
    method Reset(p: EgParameters)
      modifies this
      ensures |active| == |old(active)|
      ensures forall k :: 0 <= k < |active| ==> active[k] == ops.reset(old(active)[k], p)
      ensures timings == seq(|old(timings)|, _ => 0)
      ensures inactive == old(inactive)
    {
      var k := 0;
      while k < |active|
        invariant 0 <= k <= |active| == |old(active)|
        invariant forall j :: 0 <= j < k ==> active[j] == ops.reset(old(active)[j], p)
        invariant forall j :: k <= j < |active| ==> active[j] == old(active)[j]
        invariant inactive == old(inactive) && timings == old(timings)
      {
        active := active[k := ops.reset(active[k], p)];
        k := k + 1;
      }
      ghost var reset := active;
      k := 0;
      while k < |timings|
        invariant 0 <= k <= |timings| == |old(timings)|
        invariant forall j :: 0 <= j < k ==> timings[j] == 0
        invariant active == reset && inactive == old(inactive)
      {
        timings := timings[k := 0];
        k := k + 1;
      }
    }

    /**
     * Sends the note to the chosen voice, then ages by one every voice that
     * plays afterwards (the one just started included).
     */
    method NoteOn(note: u8, velocity: real, voiceId: Option<int>, channel: u8, p: EgParameters, sampleRate: real)
      requires Valid() && |active| > 0
      modifies this
      ensures Valid()
      ensures var i := ChooseVoice(old(active), old(timings), ops.isPlaying);
        active == old(active)[i := ops.noteOn(old(active)[i], note, velocity, voiceId, channel, p, sampleRate)]
      ensures |timings| == |old(timings)|
      ensures forall k :: 0 <= k < |timings| ==>
        timings[k] == old(timings)[k] + (if ops.isPlaying(active[k]) then 1 else 0)
      ensures inactive == old(inactive)
    {
      var i := ChooseVoice(active, timings, ops.isPlaying);
      active := active[i := ops.noteOn(active[i], note, velocity, voiceId, channel, p, sampleRate)];
      var k := 0;
      while k < |timings|
        invariant 0 <= k <= |timings| == |old(timings)| == |active|
        invariant forall j :: 0 <= j < k ==> timings[j] == old(timings)[j] + (if ops.isPlaying(active[j]) then 1 else 0)
        invariant forall j :: k <= j < |timings| ==> timings[j] == old(timings)[j]
        invariant active == old(active)[i := ops.noteOn(old(active)[i], note, velocity, voiceId, channel, p, sampleRate)]
        invariant inactive == old(inactive) && |active| == |timings|
      {
        if ops.isPlaying(active[k]) {
          timings := timings[k := timings[k] + 1];
        }
        k := k + 1;
      }
    }

    /** Forwards the note-off to every active voice once. */
    method NoteOff(voiceId: Option<int>, channel: u8, note: u8, p: EgParameters, sampleRate: real)
      modifies this
      ensures |active| == |old(active)|
      ensures forall k :: 0 <= k < |active| ==>
        active[k] == ops.noteOff(old(active)[k], voiceId, channel, note, p, sampleRate)
      ensures inactive == old(inactive) && timings == old(timings)
    {
      var k := 0;
      while k < |active|
        invariant 0 <= k <= |active| == |old(active)|
        invariant forall j :: 0 <= j < k ==> active[j] == ops.noteOff(old(active)[j], voiceId, channel, note, p, sampleRate)
        invariant forall j :: k <= j < |active| ==> active[j] == old(active)[j]
        invariant inactive == old(inactive) && timings == old(timings)
      {
        active := active[k := ops.noteOff(active[k], voiceId, channel, note, p, sampleRate)];
        k := k + 1;
      }
    }

    /**
     * Grows the pool by popping inactive voices (timing 0), or shrinks it by
     * evicting the oldest voices to the inactive list, as `Shrink` describes.
     */
    method UpdateNumVoices(n: nat)
      requires Valid() && 0 < n <= MAX_VOICES
      requires n > |active| ==> n - |active| <= |inactive|
      modifies this
      ensures Valid() && |active| == n
      ensures n > old(|active|) ==>
        var d := n - old(|active|);
        && active == old(active) + Reversed(old(inactive)[|old(inactive)| - d..])
        && inactive == old(inactive)[..|old(inactive)| - d]
        && timings == old(timings) + seq(d, _ => 0)
      ensures n <= old(|active|) ==>
        var r := Shrink(old(timings), Range(old(|timings|)), n);
        && active == Lift(old(active), r.0)
        && timings == Lift(old(timings), r.0)
        && inactive == old(inactive) + Lift(old(active), r.1)
    {
      if n > |active| {
        Grow(n - |active|);
      } else {
        ShrinkTo(n);
      }
    }

    method Grow(d: nat)
      requires Valid() && |active| + d <= MAX_VOICES && d <= |inactive|
      modifies this
      ensures Valid() && |active| == old(|active|) + d
      ensures active == old(active) + Reversed(old(inactive)[|old(inactive)| - d..])
      ensures inactive == old(inactive)[..|old(inactive)| - d]
      ensures timings == old(timings) + seq(d, _ => 0)
    {
      ghost var n0 := |inactive|;
      var k := 0;
      while k < d
        invariant 0 <= k <= d
        invariant active == old(active) + Reversed(old(inactive)[n0 - k..])
        invariant inactive == old(inactive)[..n0 - k]
        invariant timings == old(timings) + seq(k, _ => 0)
      {
        assert old(inactive)[n0 - (k + 1)..][1..] == old(inactive)[n0 - k..];
        active := active + [inactive[|inactive| - 1]];
        inactive := inactive[..|inactive| - 1];
        timings := timings + [0];
        k := k + 1;
      }
    }

    method ShrinkTo(n: nat)
      requires Valid() && n <= |active|
      modifies this
      ensures Valid() && |active| == n
      ensures var r := Shrink(old(timings), Range(old(|timings|)), n);
        && active == Lift(old(active), r.0)
        && timings == Lift(old(timings), r.0)
        && inactive == old(inactive) + Lift(old(active), r.1)
    {
      ghost var a0 := active;
      ghost var t0 := timings;
      ghost var final := Shrink(t0, Range(|t0|), n);
      ghost var ids: seq<nat> := Range(|t0|);
      ghost var evicted: seq<nat> := [];
      LiftRange(a0);
      LiftRange(t0);
      while n < |active|
        invariant forall k :: 0 <= k < |ids| ==> ids[k] < |t0|
        invariant forall k :: 0 <= k < |evicted| ==> evicted[k] < |t0|
        invariant active == Lift(a0, ids) && timings == Lift(t0, ids)
        invariant inactive == old(inactive) + Lift(a0, evicted)
        invariant Shrink(t0, ids, n).0 == final.0
        invariant evicted + Shrink(t0, ids, n).1 == final.1
        invariant n <= |active|
        decreases |active|
      {
        ids, evicted := EvictOldest(old(inactive), a0, t0, ids, evicted, n);
      }
      assert Shrink(t0, ids, n) == (ids, []);
      assert evicted + [] == evicted;
    }

    /** One iteration of the shrinking loop, followed on the original indices. */
    method EvictOldest(ghost base: seq<V>, ghost a0: seq<V>, ghost t0: seq<int>, ghost ids: seq<nat>, ghost evicted: seq<nat>, n: nat)
      returns (ghost ids': seq<nat>, ghost evicted': seq<nat>)
      requires |a0| == |t0|
      requires forall k :: 0 <= k < |ids| ==> ids[k] < |t0|
      requires forall k :: 0 <= k < |evicted| ==> evicted[k] < |t0|
      requires active == Lift(a0, ids) && timings == Lift(t0, ids)
      requires inactive == base + Lift(a0, evicted)
      requires n < |active|
      modifies this
      ensures forall k :: 0 <= k < |ids'| ==> ids'[k] < |t0|
      ensures forall k :: 0 <= k < |evicted'| ==> evicted'[k] < |t0|
      ensures active == Lift(a0, ids') && timings == Lift(t0, ids')
      ensures inactive == base + Lift(a0, evicted')
      ensures Shrink(t0, ids', n).0 == Shrink(t0, ids, n).0
      ensures evicted' + Shrink(t0, ids', n).1 == evicted + Shrink(t0, ids, n).1
      ensures |active| == old(|active|) - 1
    {
      var oldest := OldestVoice(timings);
      var i := oldest.value;
      ShrinkStep(t0, ids, n);
      LiftAppend(a0, evicted, ids[i]);
      LiftRemove(a0, ids, i);
      LiftRemove(t0, ids, i);
      ghost var rest := Shrink(t0, Remove(ids, i), n);
      AppendAssociative(evicted, ids[i], rest.1);
      inactive := inactive + [active[i]];
      active := Remove(active, i);
      timings := Remove(timings, i);
      evicted' := evicted + [ids[i]];
      ids' := Remove(ids, i);
    }
  }

  /** The cases of the oldest-voice unit test: increasing timings, all equal, none. */
  lemma OldestVoiceExamples()
    ensures OldestVoice([0, 1, 2, 3]) == Some(3)
    ensures OldestVoice([0, 0, 0, 0]) == Some(3)
    ensures OldestVoice([]) == None
  {
  }

  /** A strictly largest timing is the oldest voice. */
  lemma OldestIsUniqueMax(timings: seq<int>, i: nat)
    requires i < |timings|
    requires forall k :: 0 <= k < |timings| && k != i ==> timings[k] < timings[i]
    ensures OldestVoice(timings) == Some(i)
  {
  }

  /**
   * Shrinking six voices with timings [0, 5, 2, 4, 1, 3] to two evicts the
   * voices with timings 5, 4, 3 and 2 in that order and keeps the ones with
   * timings 0 and 1.
   */
  lemma ShrinkExample()
    ensures Shrink([0, 5, 2, 4, 1, 3], Range(6), 2) == ([0, 4], [1, 3, 5, 2])
    ensures Lift([0, 5, 2, 4, 1, 3], [0, 4]) == [0, 1]
  {
    RangeSix();
    ShrinkExampleFrom([0, 5, 2, 4, 1, 3], [0, 1, 2, 3, 4, 5]);
    KeptTimings([0, 5, 2, 4, 1, 3]);
  }

  lemma RangeSix()
    ensures Range(6) == [0, 1, 2, 3, 4, 5]
  {
    assert Range(6) == [0, 1, 2, 3, 4, 5];
  }

  lemma KeptTimings(t: seq<int>)
    requires t == [0, 5, 2, 4, 1, 3]
    ensures Lift(t, [0, 4]) == [0, 1]
  {
    assert Lift(t, [0, 4]) == [0, 1];
  }

  lemma ShrinkExampleFrom(t: seq<int>, ids: seq<nat>)
    requires t == [0, 5, 2, 4, 1, 3] && ids == [0, 1, 2, 3, 4, 5]
    ensures Shrink(t, ids, 2) == ([0, 4], [1, 3, 5, 2])
  {
    assert [ids[1]] + [3, 5, 2] == [1, 3, 5, 2];
    ShrinkExampleFirst(t, ids);
    ShrinkExample4(t, [0, 2, 3, 4, 5]);
    ShrinkExampleStep(t, ids, 1, [0, 2, 3, 4, 5], [0, 4], [3, 5, 2]);
  }

  /** The first eviction of the shrink example: index 1, timing 5, is the unique oldest. */
  lemma ShrinkExampleFirst(t: seq<int>, ids: seq<nat>)
    requires t == [0, 5, 2, 4, 1, 3] && ids == [0, 1, 2, 3, 4, 5]
    ensures forall k :: 0 <= k < |ids| ==> ids[k] < |t|
    ensures OldestVoice(Lift(t, ids)) == Some(1)
    ensures Remove(ids, 1) == [0, 2, 3, 4, 5]
  {
    assert Lift(t, ids) == t;
    OldestIsUniqueMax(t, 1);
  }

  lemma ShrinkExample4(t: seq<int>, ids: seq<nat>)
    requires t == [0, 5, 2, 4, 1, 3] && ids == [0, 2, 3, 4, 5]
    ensures Shrink(t, ids, 2) == ([0, 4], [3, 5, 2])
  {
    assert [ids[2]] + [5, 2] == [3, 5, 2];
    assert Lift(t, ids) == [0, 2, 4, 1, 3];
    OldestIsUniqueMax(Lift(t, ids), 2);
    ShrinkExample3(t, [0, 2, 4, 5]);
    ShrinkExampleStep(t, ids, 2, [0, 2, 4, 5], [0, 4], [5, 2]);
  }

  lemma ShrinkExample3(t: seq<int>, ids: seq<nat>)
    requires t == [0, 5, 2, 4, 1, 3] && ids == [0, 2, 4, 5]
    ensures Shrink(t, ids, 2) == ([0, 4], [5, 2])
  {
    assert [ids[3]] + [2] == [5, 2];
    assert Lift(t, ids) == [0, 2, 1, 3];
    OldestIsUniqueMax(Lift(t, ids), 3);
    ShrinkExample2(t, [0, 2, 4]);
    ShrinkExampleStep(t, ids, 3, [0, 2, 4], [0, 4], [2]);
  }

  lemma ShrinkExample2(t: seq<int>, ids: seq<nat>)
    requires t == [0, 5, 2, 4, 1, 3] && ids == [0, 2, 4]
    ensures Shrink(t, ids, 2) == ([0, 4], [2])
  {
    assert [ids[1]] + [] == [2];
    assert Lift(t, ids) == [0, 2, 1];
    OldestIsUniqueMax(Lift(t, ids), 1);
    ShrinkExampleStep(t, ids, 1, [0, 4], [0, 4], []);
  }

  /** One eviction of the shrink example: the oldest of `ids` goes first. */
  lemma ShrinkExampleStep(t: seq<int>, ids: seq<nat>, o: nat, rest: seq<nat>, kept: seq<nat>, evicted: seq<nat>)
    requires forall k :: 0 <= k < |ids| ==> ids[k] < |t|
    requires |ids| > 2 && OldestVoice(Lift(t, ids)) == Some(o)
    requires Remove(ids, o) == rest
    requires Shrink(t, rest, 2) == (kept, evicted)
    ensures Shrink(t, ids, 2) == (kept, [ids[o]] + evicted)
  {
  }

  /**
   * The resizing unit test: a pool of four grows to six, then with timings
   * [0, 5, 2, 4, 1, 3] shrinks to two, keeping timings [0, 1].
   */
  method UpdateNumVoicesScenario<V>(ops: VoiceOps<V>) returns (g: VoiceGroup<V>)
    ensures |g.active| == 2 && g.timings == [0, 1]
  {
    g := GrowToSix(ops);
    g.timings := [0, 5, 2, 4, 1, 3];
    ShrinkExample();
    ghost var before := g.timings;
    g.UpdateNumVoices(2);
    assert g.timings == Lift(before, [0, 4]);
  }

  /** The first half of the resizing unit test: a pool of four grows to six voices. */
  method GrowToSix<V>(ops: VoiceOps<V>) returns (g: VoiceGroup<V>)
    ensures fresh(g) && g.Valid() && |g.active| == 6 && |g.inactive| == MAX_VOICES - 6
  {
    g := new VoiceGroup(ops);
    g.Initialize(4, 2, 1024);
    assert |g.active| == 4 && |g.inactive| == MAX_VOICES - 4;
    g.UpdateNumVoices(6);
  }

  /** Folds `accumulate` over `voices`, first voice first, into `audio`. */
  function AccumulateAll<V>(accumulate: (V, seq<seq<real>>, nat, nat) -> seq<seq<real>>, voices: seq<V>,
                            audio: seq<seq<real>>, blockStart: nat, blockEnd: nat): seq<seq<real>>
    decreases |voices|
  {
    if |voices| == 0 then audio
    else accumulate(voices[|voices| - 1], AccumulateAll(accumulate, voices[..|voices| - 1], audio, blockStart, blockEnd),
                    blockStart, blockEnd)
  }
}
