/**
 * Buffer plumbing of an FM operator (src/fm_operator.rs): the operator's
 * core is rendered once per sample with a phase offset taken from its
 * phase-modulation input, the value is fanned out to every output channel,
 * and the modulation input is cleared afterwards. Other operators feed that
 * input with the channel average of their output.
 *
 * The core (a sine oscillator and its clock) is opaque here: `core(i, offset)`
 * is the value it produces on the `i`-th call of a render when its phase is
 * offset by `offset`.
 */
module FmOperator {

  /**
   * The values an operator render produces for its first `k` samples, one per
   * call of the core; `OutputAt` states what each of them is.
   */
  function Outputs(k: nat, selfModulation: bool, index: real, lastOutput: real,
                   pm: seq<real>, core: (nat, real) -> real): (outs: seq<real>)
    requires k <= |pm|
    ensures |outs| == k
    decreases k
  {
    if k == 0 then []
    else
      var prev := Outputs(k - 1, selfModulation, index, lastOutput, pm, core);
      prev + [core(k - 1, PhaseOffset(ModulationInput(selfModulation, lastOutput, pm, prev, k - 1), index))]
  }

  /**
   * The value `pm_input[i]` holds when sample `i` is rendered: the previous
   * output when self-modulating (the last output of the previous render for
   * `i == 0`), otherwise the accumulated input.
   */
  function ModulationInput(selfModulation: bool, lastOutput: real, pm: seq<real>,
                           outs: seq<real>, i: nat): real
    requires i < |pm| && i <= |outs|
  {
    if !selfModulation then pm[i]
    else if i == 0 then lastOutput
    else outs[i - 1]
  }

  /** The phase offset a modulation input produces at modulation index `index`. */
  function PhaseOffset(input: real, index: real): real
  {
    input * index
  }

  /** Rendering more samples does not change the earlier ones. */
  lemma {:induction false} OutputsPrefix(k: nat, j: nat, selfModulation: bool, index: real, lastOutput: real,
                                         pm: seq<real>, core: (nat, real) -> real)
    requires j <= k <= |pm|
    ensures Outputs(k, selfModulation, index, lastOutput, pm, core)[..j]
         == Outputs(j, selfModulation, index, lastOutput, pm, core)
    decreases k
  {
    if j < k {
      OutputsPrefix(k - 1, j, selfModulation, index, lastOutput, pm, core);
      var prev := Outputs(k - 1, selfModulation, index, lastOutput, pm, core);
      assert Outputs(k, selfModulation, index, lastOutput, pm, core)[..k - 1] == prev;
    }
  }

  /**
   * Sample `i` is the core's `i`-th value, its phase offset by `index` times
   * the modulation input of that sample.
   */
  lemma OutputAt(k: nat, i: nat, selfModulation: bool, index: real, lastOutput: real,
                 pm: seq<real>, core: (nat, real) -> real)
    requires i < k <= |pm|
    ensures var outs := Outputs(k, selfModulation, index, lastOutput, pm, core);
      outs[i] == core(i, PhaseOffset(ModulationInput(selfModulation, lastOutput, pm, outs, i), index))
  {
    var outs := Outputs(k, selfModulation, index, lastOutput, pm, core);
    var upTo := Outputs(i + 1, selfModulation, index, lastOutput, pm, core);
    OutputsPrefix(k, i + 1, selfModulation, index, lastOutput, pm, core);
    OutputsPrefix(i + 1, i, selfModulation, index, lastOutput, pm, core);
    var pre := Outputs(i, selfModulation, index, lastOutput, pm, core);
    assert upTo == pre + [core(i, PhaseOffset(ModulationInput(selfModulation, lastOutput, pm, pre, i), index))];
    assert upTo[..i] == pre;
    assert outs[i] == upTo[i] == core(i, PhaseOffset(ModulationInput(selfModulation, lastOutput, pm, pre, i), index));
    if i > 0 {
      assert outs[i - 1] == upTo[i - 1] == pre[i - 1];
    }
    assert ModulationInput(selfModulation, lastOutput, pm, outs, i)
        == ModulationInput(selfModulation, lastOutput, pm, pre, i);
  }

  /** Sum over channels `0..c` of `a[ch, i]`. */
  function ColumnSum(a: array2<real>, c: nat, i: nat): real
    requires c <= a.Length0 && i < a.Length1
    reads a
    decreases c
  {
    if c == 0 then 0.0 else ColumnSum(a, c - 1, i) + a[c - 1, i]
  }

  /** Sum over channels `0..c` of `a[ch, i] * w`, as `add_pm_source` accumulates it. */
  function WeightedColumnSum(a: array2<real>, c: nat, i: nat, w: real): (r: real)
    requires c <= a.Length0 && i < a.Length1
    reads a
    ensures r == ColumnSum(a, c, i) * w
    decreases c
  {
    if c == 0 then 0.0 else WeightedColumnSum(a, c - 1, i, w) + a[c - 1, i] * w
  }

  /** Writes `v` to sample `i` of every channel of `buffer`. */
  method FanOut(buffer: array2<real>, i: nat, v: real)
    requires i < buffer.Length1
    modifies buffer
    ensures forall ch :: 0 <= ch < buffer.Length0 ==> buffer[ch, i] == v
    ensures forall ch, j :: 0 <= ch < buffer.Length0 && 0 <= j < buffer.Length1 && j != i ==>
      buffer[ch, j] == old(buffer[ch, j])
  {
    var ch := 0;
    while ch < buffer.Length0
      invariant 0 <= ch <= buffer.Length0
      invariant forall c :: 0 <= c < ch ==> buffer[c, i] == v
      invariant forall c, j :: 0 <= c < buffer.Length0 && 0 <= j < buffer.Length1 && (j != i || c >= ch) ==>
        buffer[c, j] == old(buffer[c, j])
    {
      buffer[ch, i] := v;
      ch := ch + 1;
    }
  }

  class Operator {
    var lastOutput: real
    var outputBuffer: array2<real>
    var pmInput: array<real>

    /** A stereo, one-sample operator. */
    constructor ()
      ensures lastOutput == 0.0
      ensures fresh(outputBuffer) && outputBuffer.Length0 == 2 && outputBuffer.Length1 == 1
      ensures fresh(pmInput) && pmInput.Length == 1
      ensures outputBuffer[0, 0] == 0.0 && outputBuffer[1, 0] == 0.0 && pmInput[0] == 0.0
    {
      lastOutput := 0.0;
      outputBuffer := new real[2, 1]((ch, i) => 0.0);
      pmInput := new real[1](i => 0.0);
    }

    /** Zeroed buffers of `numChannels` x `maxSamples` and `maxSamples`. */
    method Initialize(numChannels: nat, maxSamples: nat)
      modifies this
      ensures fresh(outputBuffer) && fresh(pmInput)
      ensures outputBuffer.Length0 == numChannels && outputBuffer.Length1 == maxSamples
      ensures pmInput.Length == maxSamples
      ensures forall ch, i :: 0 <= ch < numChannels && 0 <= i < maxSamples ==> outputBuffer[ch, i] == 0.0
      ensures forall i :: 0 <= i < maxSamples ==> pmInput[i] == 0.0
      ensures lastOutput == old(lastOutput)
    {
      outputBuffer := new real[numChannels, maxSamples]((ch, i) => 0.0);
      pmInput := new real[maxSamples](i => 0.0);
    }

    /**
     * Renders `n` samples: each channel receives the same value at every
     * index below `n`, the rest of the buffer is untouched, `lastOutput` is
     * the last value rendered, and the modulation input is cleared.
     */
    method Render(n: nat, selfModulation: bool, index: real, core: (nat, real) -> real)
      requires n <= pmInput.Length && n <= outputBuffer.Length1
      modifies this, outputBuffer, pmInput
      ensures outputBuffer == old(outputBuffer) && pmInput == old(pmInput)
      ensures var outs := Outputs(n, selfModulation, index, old(lastOutput), old(pmInput[..]), core);
        && (forall ch, i :: 0 <= ch < outputBuffer.Length0 && 0 <= i < n ==> outputBuffer[ch, i] == outs[i])
        && lastOutput == (if n == 0 then old(lastOutput) else outs[n - 1])
      ensures forall ch, i :: 0 <= ch < outputBuffer.Length0 && n <= i < outputBuffer.Length1 ==>
        outputBuffer[ch, i] == old(outputBuffer[ch, i])
      ensures forall i :: 0 <= i < pmInput.Length ==> pmInput[i] == 0.0
    {
      ghost var outs := Outputs(n, selfModulation, index, lastOutput, pmInput[..], core);
      var i := 0;
      while i < n
        invariant 0 <= i <= n
        invariant outputBuffer == old(outputBuffer) && pmInput == old(pmInput)
        invariant forall j :: i <= j < pmInput.Length ==> pmInput[j] == old(pmInput[j])
        invariant lastOutput == if i == 0 then old(lastOutput) else outs[i - 1]
        invariant forall ch, j :: 0 <= ch < outputBuffer.Length0 && 0 <= j < i ==> outputBuffer[ch, j] == outs[j]
        invariant forall ch, j :: 0 <= ch < outputBuffer.Length0 && i <= j < outputBuffer.Length1 ==>
          outputBuffer[ch, j] == old(outputBuffer[ch, j])
      {
        if selfModulation {
          pmInput[i] := lastOutput;
        }
        OutputAt(n, i, selfModulation, index, old(lastOutput), old(pmInput[..]), core);
        assert pmInput[i] == ModulationInput(selfModulation, old(lastOutput), old(pmInput[..]), outs, i);
        lastOutput := core(i, PhaseOffset(pmInput[i], index));
        assert lastOutput == outs[i];
        FanOut(outputBuffer, i, lastOutput);
        i := i + 1;
      }
      var k := 0;
      while k < pmInput.Length
        modifies pmInput
        invariant 0 <= k <= pmInput.Length
        invariant forall j :: 0 <= j < k ==> pmInput[j] == 0.0
      {
        pmInput[k] := 0.0;
        k := k + 1;
      }
    }

    /**
     * Adds the channel average of `other`'s output to the modulation input,
     * sample by sample; `other` is not modified. The source only logs a
     * length mismatch, so the caller must keep `other`'s buffer no longer
     * than the input, and it indexes channel 0, so there is at least one.
     */
    method AddPmSource(other: Operator)
      requires other.outputBuffer.Length0 > 0
      requires other.outputBuffer.Length1 <= pmInput.Length
      modifies pmInput
      ensures forall i :: 0 <= i < other.outputBuffer.Length1 ==>
        pmInput[i] == old(pmInput[i])
          + ColumnSum(other.outputBuffer, other.outputBuffer.Length0, i) / (other.outputBuffer.Length0 as real)
      ensures forall i :: other.outputBuffer.Length1 <= i < pmInput.Length ==> pmInput[i] == old(pmInput[i])
    {
      var src := other.outputBuffer;
      var numChannels := src.Length0;
      var weight := 1.0 / numChannels as real;
      var ch := 0;
      while ch < numChannels
        invariant 0 <= ch <= numChannels
        invariant forall i :: 0 <= i < src.Length1 ==> pmInput[i] == old(pmInput[i]) + WeightedColumnSum(src, ch, i, weight)
        invariant forall i :: src.Length1 <= i < pmInput.Length ==> pmInput[i] == old(pmInput[i])
      {
        AddChannel(src, ch, weight);
        ch := ch + 1;
      }
      forall i | 0 <= i < src.Length1
        ensures pmInput[i] == old(pmInput[i]) + ColumnSum(src, numChannels, i) / (numChannels as real)
      {
        WeightIsAverage(ColumnSum(src, numChannels, i), numChannels);
      }
    }

    /** Adds channel `ch` of `src`, scaled by `weight`, to the modulation input. */
    method AddChannel(src: array2<real>, ch: nat, weight: real)
      requires ch < src.Length0 && src.Length1 <= pmInput.Length
      modifies pmInput
      ensures forall j :: 0 <= j < src.Length1 ==> pmInput[j] == old(pmInput[j]) + src[ch, j] * weight
      ensures forall j :: src.Length1 <= j < pmInput.Length ==> pmInput[j] == old(pmInput[j])
    {
      var i := 0;
      while i < src.Length1
        invariant 0 <= i <= src.Length1
        invariant forall j :: 0 <= j < i ==> pmInput[j] == old(pmInput[j]) + src[ch, j] * weight
        invariant forall j :: i <= j < pmInput.Length ==> pmInput[j] == old(pmInput[j])
      {
        pmInput[i] := pmInput[i] + src[ch, i] * weight;
        i := i + 1;
      }
    }
  }

  /** Scaling by the channel weight is dividing by the channel count. */
  lemma WeightIsAverage(sum: real, numChannels: nat)
    requires numChannels > 0
    ensures sum * (1.0 / numChannels as real) == sum / (numChannels as real)
  {
  }

  /**
   * Without self-modulation and after a render has cleared the input, the
   * next render is unmodulated: every sample is the core's plain output.
   */
  lemma ClearedInputIsUnmodulated(k: nat, index: real, lastOutput: real, pm: seq<real>, core: (nat, real) -> real)
    requires k <= |pm| && forall i :: 0 <= i < |pm| ==> pm[i] == 0.0
    ensures forall i :: 0 <= i < k ==> Outputs(k, false, index, lastOutput, pm, core)[i] == core(i, 0.0)
  {
  }

  /**
   * With self-modulation the input is ignored: two renders that differ only
   * in their accumulated modulation input produce the same samples.
   */
  lemma {:induction false} SelfModulationIgnoresInput(k: nat, index: real, lastOutput: real,
                                                      pm1: seq<real>, pm2: seq<real>, core: (nat, real) -> real)
    requires k <= |pm1| && k <= |pm2|
    ensures Outputs(k, true, index, lastOutput, pm1, core) == Outputs(k, true, index, lastOutput, pm2, core)
  {
    if k > 0 {
      SelfModulationIgnoresInput(k - 1, index, lastOutput, pm1, pm2, core);
      var prev := Outputs(k - 1, true, index, lastOutput, pm1, core);
      assert ModulationInput(true, lastOutput, pm1, prev, k - 1) == ModulationInput(true, lastOutput, pm2, prev, k - 1);
    }
  }
}
