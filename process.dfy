/**
 * The sub-block splitter of the plugin's `process` callback (src/lib.rs): the
 * host buffer is rendered in sub-blocks of at most MAX_BLOCK_SIZE samples,
 * cut short at the timing of the next note event, and every event that is
 * due at the start of a sub-block is dispatched to the voice pool first.
 *
 * The host's event queue is a sequence read through a cursor; the calls the
 * splitter makes on the voice pool are recorded as a trace.
 */
module BlockSplitter {
  import opened Options
  import opened Midi

  const MAX_BLOCK_SIZE: nat := 64

  /** A host event, with its timing in samples from the start of the buffer. */
  datatype NoteEvent =
    | NoteOn(timing: nat, note: u8, velocity: real, voiceId: Option<int>, channel: u8)
    | NoteOff(timing: nat, note: u8, voiceId: Option<int>, channel: u8)
    | OtherEvent(timing: nat)

  /**
   * A call on the voice pool: a note-on or note-off carrying the fields of
   * event number `event`, or the render of `[blockStart, blockEnd)`.
   */
  datatype Call =
    | NoteOnCall(event: nat)
    | NoteOffCall(event: nat)
    | RenderCall(blockStart: nat, blockEnd: nat)

  function Min(a: nat, b: nat): nat
  {
    if a <= b then a else b
  }

  /**
   * The block start at which event `j` is dispatched: no event is taken
   * before the ones ahead of it in the queue, so it is due at the largest
   * timing among events `0..j`.
   */
  function DueAt(events: seq<NoteEvent>, j: nat): (t: nat)
    requires j < |events|
    ensures t >= events[j].timing
    decreases j
  {
    if j == 0 then events[0].timing
    else
      var before := DueAt(events, j - 1);
      if events[j].timing >= before then events[j].timing else before
  }

  /** The pool calls events `0..k` produce: note-ons and note-offs; other kinds are dropped. */
  function Dispatched(events: seq<NoteEvent>, k: nat): seq<Call>
    requires k <= |events|
    decreases k
  {
    if k == 0 then []
    else Dispatched(events, k - 1) + DispatchOf(events[k - 1], k - 1)
  }

  function DispatchOf(e: NoteEvent, j: nat): seq<Call>
  {
    match e
    case NoteOn(_, _, _, _, _) => [NoteOnCall(j)]
    case NoteOff(_, _, _, _) => [NoteOffCall(j)]
    case OtherEvent(_) => []
  }

  /** The note calls of a trace, in order. */
  function NoteCalls(trace: seq<Call>): seq<Call>
    decreases |trace|
  {
    if |trace| == 0 then []
    else NoteCalls(trace[..|trace| - 1]) + (if trace[|trace| - 1].RenderCall? then [] else [trace[|trace| - 1]])
  }

  /** The rendered sub-blocks of a trace, in order. */
  function Blocks(trace: seq<Call>): seq<(nat, nat)>
    decreases |trace|
  {
    if |trace| == 0 then []
    else
      var last := trace[|trace| - 1];
      Blocks(trace[..|trace| - 1]) + (if last.RenderCall? then [(last.blockStart, last.blockEnd)] else [])
  }

  /**
   * `blocks` cover `[from, to)` exactly, one after the other, each non-empty
   * and at most MAX_BLOCK_SIZE long.
   */
  predicate Tiles(blocks: seq<(nat, nat)>, from: nat, to: nat)
    decreases |blocks|
  {
    if |blocks| == 0 then from == to
    else
      blocks[0].0 == from && blocks[0].0 < blocks[0].1 <= blocks[0].0 + MAX_BLOCK_SIZE
      && Tiles(blocks[1..], blocks[0].1, to)
  }

  /** The start of the first render at or after position `p`, or `otherwise` if none. */
  function NextStart(trace: seq<Call>, p: nat, otherwise: nat): nat
    decreases |trace| - p
  {
    if p >= |trace| then otherwise
    else if trace[p].RenderCall? then trace[p].blockStart
    else NextStart(trace, p + 1, otherwise)
  }

  /** Each event is dispatched just before the render of the sub-block that starts at its due time. */
  predicate DispatchedOnTime(trace: seq<Call>, events: seq<NoteEvent>, otherwise: nat)
  {
    forall p :: 0 <= p < |trace| && !trace[p].RenderCall? ==>
      trace[p].event < |events| && NextStart(trace, p, otherwise) == DueAt(events, trace[p].event)
  }

  /**
   * Sub-block `[b, e)` stops at the first point that is a due time or the
   * end of the maximum block: no event falls due strictly inside it, and it
   * ends either where the maximum block or the buffer ends or where an event
   * falls due.
   */
  predicate CutAtDue(events: seq<NoteEvent>, numSamples: nat, b: nat, e: nat)
  {
    (forall j :: 0 <= j < |events| ==> !(b < DueAt(events, j) < e))
    && (e == Min(b + MAX_BLOCK_SIZE, numSamples) || exists j :: 0 <= j < |events| && DueAt(events, j) == e)
  }

  predicate AllCutAtDue(events: seq<NoteEvent>, numSamples: nat, blocks: seq<(nat, nat)>)
  {
    forall k :: 0 <= k < |blocks| ==> CutAtDue(events, numSamples, blocks[k].0, blocks[k].1)
  }

  /**
   * The splitting loop of `process` over a buffer of `numSamples` samples.
   * Returns the calls made on the voice pool and how many events were taken
   * from the queue.
   */
  method Process(numSamples: nat, events: seq<NoteEvent>) returns (trace: seq<Call>, consumed: nat)
    ensures Tiles(Blocks(trace), 0, numSamples)
    ensures consumed <= |events|
    ensures forall j :: 0 <= j < consumed ==> DueAt(events, j) < numSamples
    ensures consumed < |events| ==> DueAt(events, consumed) >= numSamples
    ensures NoteCalls(trace) == Dispatched(events, consumed)
    ensures DispatchedOnTime(trace, events, numSamples)
    ensures AllCutAtDue(events, numSamples, Blocks(trace))
  {
    trace := [];
    var next := 0;
    var blockStart := 0;
    var blockEnd := Min(MAX_BLOCK_SIZE, numSamples);
    while blockStart < numSamples
      invariant blockStart <= numSamples
      invariant blockEnd == Min(blockStart + MAX_BLOCK_SIZE, numSamples)
      invariant ProcessInvariant(events, numSamples, blockStart, trace, next)
      decreases numSamples - blockStart
    {
      trace, next := DispatchDue(events, blockStart, trace, next);
      if next < |events| && events[next].timing < blockEnd {
        blockEnd := events[next].timing;
      }
      RenderKeepsInvariant(events, numSamples, blockStart, trace, next, blockEnd);
      trace := trace + [RenderCall(blockStart, blockEnd)];
      blockStart := blockEnd;
      blockEnd := Min(blockStart + MAX_BLOCK_SIZE, numSamples);
    }
    consumed := next;
    assert Tiles(Blocks(trace), 0, numSamples);
  }

  /** What the splitting loop keeps at the start of each sub-block. */
  predicate ProcessInvariant(events: seq<NoteEvent>, numSamples: nat, blockStart: nat, trace: seq<Call>, next: nat)
  {
    && next <= |events|
    && (Tiles(Blocks(trace), 0, blockStart) || (Blocks(trace) == [] && blockStart == 0))
    && (forall j :: 0 <= j < next ==> DueAt(events, j) < numSamples)
    && (next < |events| ==> DueAt(events, next) >= blockStart)
    && NoteCalls(trace) == Dispatched(events, next)
    && DispatchedOnTime(trace, events, blockStart)
    && (next > 0 ==> DueAt(events, next - 1) <= blockStart)
    && AllCutAtDue(events, numSamples, Blocks(trace))
  }

  /**
   * Rendering the sub-block that ends at the next due time, or at the end of
   * the maximum block, restores the loop's invariant at its end.
   */
  lemma RenderKeepsInvariant(events: seq<NoteEvent>, numSamples: nat, b: nat, trace: seq<Call>, next: nat, e: nat)
    requires b < numSamples
    requires DispatchInvariant(events, b, trace, next)
    requires next < |events| ==> events[next].timing > b
    requires Tiles(Blocks(trace), 0, b) || (Blocks(trace) == [] && b == 0)
    requires AllCutAtDue(events, numSamples, Blocks(trace))
    requires e == if next < |events| && events[next].timing < Min(b + MAX_BLOCK_SIZE, numSamples)
      then events[next].timing else Min(b + MAX_BLOCK_SIZE, numSamples)
    ensures b < e <= numSamples
    ensures ProcessInvariant(events, numSamples, e, trace + [RenderCall(b, e)], next)
  {
    if next > 0 {
      DueAtPrefixBelow(events, next - 1, numSamples);
    }
    BlockEndIsCut(events, numSamples, b, next, e);
    AppendRender(trace, b, e, events, numSamples);
  }

  /** What the inner loop keeps while it takes events due at `blockStart`. */
  predicate DispatchInvariant(events: seq<NoteEvent>, blockStart: nat, trace: seq<Call>, next: nat)
  {
    next <= |events|
    && (next > 0 ==> DueAt(events, next - 1) <= blockStart)
    && (next < |events| ==> DueAt(events, next) >= blockStart)
    && NoteCalls(trace) == Dispatched(events, next)
    && DispatchedOnTime(trace, events, blockStart)
  }

  /**
   * The inner loop of the splitter: takes from the queue every event whose
   * timing is not after `blockStart` and makes its call on the pool.
   */
  method DispatchDue(events: seq<NoteEvent>, blockStart: nat, trace0: seq<Call>, next0: nat)
    returns (trace: seq<Call>, next: nat)
    requires DispatchInvariant(events, blockStart, trace0, next0)
    ensures DispatchInvariant(events, blockStart, trace, next)
    ensures next0 <= next <= |events|
    ensures next < |events| ==> events[next].timing > blockStart
    ensures Blocks(trace) == Blocks(trace0)
  {
    trace, next := trace0, next0;
    while next < |events| && events[next].timing <= blockStart
      invariant DispatchInvariant(events, blockStart, trace, next)
      invariant next0 <= next
      invariant Blocks(trace) == Blocks(trace0)
      decreases |events| - next
    {
      trace, next := DispatchOne(events, blockStart, trace, next);
    }
  }

  /** Takes event `next`, which is due at `blockStart`, and makes its call on the pool. */
  method DispatchOne(events: seq<NoteEvent>, blockStart: nat, trace0: seq<Call>, next0: nat)
    returns (trace: seq<Call>, next: nat)
    requires DispatchInvariant(events, blockStart, trace0, next0)
    requires next0 < |events| && events[next0].timing <= blockStart
    ensures DispatchInvariant(events, blockStart, trace, next)
    ensures next == next0 + 1
    ensures Blocks(trace) == Blocks(trace0)
  {
    DispatchStep(events, blockStart, trace0, next0);
    trace := trace0 + DispatchOf(events[next0], next0);
    next := next0 + 1;
  }

  /** One turn of the inner loop keeps its invariant. */
  lemma DispatchStep(events: seq<NoteEvent>, blockStart: nat, trace: seq<Call>, next: nat)
    requires DispatchInvariant(events, blockStart, trace, next)
    requires next < |events| && events[next].timing <= blockStart
    ensures DueAt(events, next) == blockStart
    ensures DispatchInvariant(events, blockStart, trace + DispatchOf(events[next], next), next + 1)
    ensures Blocks(trace + DispatchOf(events[next], next)) == Blocks(trace)
  {
    DueAtDispatch(events, next, blockStart);
    var call := DispatchOf(events[next], next);
    if call != [] {
      AppendNoteCall(trace, call[0], events, blockStart);
      assert trace + call == trace + [call[0]];
    } else {
      assert trace + call == trace;
    }
  }

  /** The due time of event `j` is the largest timing among events `0..j`. */
  lemma {:induction false} DueAtIsMax(events: seq<NoteEvent>, j: nat)
    requires j < |events|
    ensures forall i :: 0 <= i <= j ==> events[i].timing <= DueAt(events, j)
    ensures exists i :: 0 <= i <= j && events[i].timing == DueAt(events, j)
  {
    if j > 0 {
      DueAtIsMax(events, j - 1);
      if events[j].timing < DueAt(events, j - 1) {
        var i :| 0 <= i <= j - 1 && events[i].timing == DueAt(events, j - 1);
        assert events[i].timing == DueAt(events, j);
      }
    } else {
      assert events[0].timing == DueAt(events, 0);
    }
  }

  /** Due times never decrease along the queue. */
  lemma {:induction false} DueAtMonotone(events: seq<NoteEvent>, i: nat, j: nat)
    requires i <= j < |events|
    ensures DueAt(events, i) <= DueAt(events, j)
    decreases j
  {
    if i < j {
      DueAtMonotone(events, i, j - 1);
    }
  }

  lemma DueAtPrefixBelow(events: seq<NoteEvent>, k: nat, bound: nat)
    requires k < |events| && DueAt(events, k) < bound
    ensures forall j :: 0 <= j <= k ==> DueAt(events, j) < bound
  {
    forall j | 0 <= j <= k
      ensures DueAt(events, j) < bound
    {
      DueAtMonotone(events, j, k);
    }
  }

  /** An event taken at `blockStart`, whose due time is not earlier, is due exactly then. */
  lemma DueAtDispatch(events: seq<NoteEvent>, j: nat, blockStart: nat)
    requires j < |events| && events[j].timing <= blockStart && DueAt(events, j) >= blockStart
    requires j > 0 ==> DueAt(events, j - 1) <= blockStart
    ensures DueAt(events, j) == blockStart
  {
  }

  lemma AppendNoteCall(trace: seq<Call>, c: Call, events: seq<NoteEvent>, blockStart: nat)
    requires !c.RenderCall? && c.event < |events| && DueAt(events, c.event) == blockStart
    requires DispatchedOnTime(trace, events, blockStart)
    ensures NoteCalls(trace + [c]) == NoteCalls(trace) + [c]
    ensures Blocks(trace + [c]) == Blocks(trace)
    ensures DispatchedOnTime(trace + [c], events, blockStart)
  {
    assert (trace + [c])[..|trace|] == trace;
    forall p | 0 <= p < |trace|
      ensures NextStart(trace + [c], p, blockStart) == NextStart(trace, p, blockStart)
    {
      NextStartAppendNote(trace, c, p, blockStart);
    }
  }

  lemma {:induction false} NextStartAppendNote(trace: seq<Call>, c: Call, p: nat, otherwise: nat)
    requires !c.RenderCall? && p <= |trace|
    ensures NextStart(trace + [c], p, otherwise) == NextStart(trace, p, otherwise)
    decreases |trace| - p
  {
    if p < |trace| && !trace[p].RenderCall? {
      NextStartAppendNote(trace, c, p + 1, otherwise);
    }
  }

  lemma {:induction false} NextStartAppendRender(trace: seq<Call>, b: nat, e: nat, p: nat, otherwise: nat)
    requires p <= |trace|
    ensures NextStart(trace + [RenderCall(b, e)], p, otherwise) == NextStart(trace, p, b)
    decreases |trace| - p
  {
    if p < |trace| && !trace[p].RenderCall? {
      NextStartAppendRender(trace, b, e, p + 1, otherwise);
    }
  }

  lemma {:induction false} TilesExtend(blocks: seq<(nat, nat)>, from: nat, to: nat, e: nat)
    requires Tiles(blocks, from, to) && to < e <= to + MAX_BLOCK_SIZE
    ensures Tiles(blocks + [(to, e)], from, e)
    decreases |blocks|
  {
    if |blocks| > 0 {
      TilesExtend(blocks[1..], blocks[0].1, to, e);
      assert (blocks + [(to, e)])[1..] == blocks[1..] + [(to, e)];
    }
  }

  lemma AppendRender(trace: seq<Call>, b: nat, e: nat, events: seq<NoteEvent>, numSamples: nat)
    requires b < e <= b + MAX_BLOCK_SIZE
    requires AllCutAtDue(events, numSamples, Blocks(trace)) && CutAtDue(events, numSamples, b, e)
    requires Tiles(Blocks(trace), 0, b) || (Blocks(trace) == [] && b == 0)
    requires DispatchedOnTime(trace, events, b)
    ensures var t := trace + [RenderCall(b, e)];
      Tiles(Blocks(t), 0, e) && NoteCalls(t) == NoteCalls(trace) && DispatchedOnTime(t, events, e)
      && AllCutAtDue(events, numSamples, Blocks(t))
  {
    var t := trace + [RenderCall(b, e)];
    assert t[..|trace|] == trace;
    assert Blocks(t) == Blocks(trace) + [(b, e)];
    if Blocks(trace) == [] && b == 0 {
      assert Tiles([], 0, 0);
    }
    TilesExtend(Blocks(trace), 0, b, e);
    forall p | 0 <= p < |trace|
      ensures NextStart(t, p, e) == NextStart(trace, p, b)
    {
      NextStartAppendRender(trace, b, e, p, e);
    }
  }

  /**
   * The end the splitter picks for a sub-block, the head of the queue's
   * timing when it comes before the maximum block's end, is a cut point.
   */
  lemma BlockEndIsCut(events: seq<NoteEvent>, numSamples: nat, b: nat, next: nat, e: nat)
    requires next <= |events|
    requires next > 0 ==> DueAt(events, next - 1) <= b
    requires next < |events| ==> events[next].timing > b
    requires e == Min(b + MAX_BLOCK_SIZE, numSamples)
      || (next < |events| && e == events[next].timing < Min(b + MAX_BLOCK_SIZE, numSamples))
    requires next < |events| ==> events[next].timing >= e
    ensures CutAtDue(events, numSamples, b, e)
  {
    if next < |events| {
      assert DueAt(events, next) == events[next].timing;
    }
    forall j | 0 <= j < |events|
      ensures !(b < DueAt(events, j) < e)
    {
      if j < next {
        DueAtMonotone(events, j, next - 1);
      } else {
        DueAtMonotone(events, next, j);
      }
    }
  }

  /** With an empty queue a 100-sample buffer is rendered as one full block and the remainder. */
  lemma EmptyQueueBlocks(blocks: seq<(nat, nat)>)
    requires Tiles(blocks, 0, 100) && AllCutAtDue([], 100, blocks)
    ensures blocks == [(0, 64), (64, 100)]
  {
    assert CutAtDue([], 100, blocks[0].0, blocks[0].1);
    assert blocks[0] == (0, 64);
    var rest := blocks[1..];
    assert Tiles(rest, 64, 100);
    assert rest[0] == blocks[1];
    assert CutAtDue([], 100, blocks[1].0, blocks[1].1);
    assert blocks[1] == (64, 100);
    assert Tiles(rest[1..], 100, 100);
    if |rest[1..]| > 0 {
      assert false;
    }
    assert blocks == [blocks[0], blocks[1]];
  }

  /**
   * With non-decreasing timings an event is due exactly at its own timing, so
   * it is dispatched when the block start reaches it.
   */
  lemma {:induction false} SortedDueAtTiming(events: seq<NoteEvent>, j: nat)
    requires j < |events|
    requires forall a, b :: 0 <= a < b < |events| ==> events[a].timing <= events[b].timing
    ensures DueAt(events, j) == events[j].timing
  {
    if j > 0 {
      SortedDueAtTiming(events, j - 1);
    }
  }
}
