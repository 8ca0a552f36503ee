/**
 * Stage descriptors of the pipeline (`LayerSpec`, `TiedLayerSpec` and the
 * format-adapter lambdas), the adapters' tuple semantics, and the combine
 * function `_logits_helper` that the tied output stage carries.
 */
module Stages {
  import opened Wrappers
  import opened NeoxArguments
  import opened PipeValues

  /** The layer classes a spec builds. */
  datatype LayerClass =
    | EmbeddingPipe | EmbeddingDistilPipe
    | ParallelTransformerLayerPipe | ParallelTransformerLayerDistilPipe
    | NormPipe | NormDistilPipe
    | ParallelLinearPipe | ParallelLinearDistilPipe

  /** The final normalisation classes. */
  datatype NormClass = RMSNorm | LayerNorm | ScaleNorm

  /** The relative position bias module, built once per stack and shared by reference. */
  class RelativePositionBias {
    const causal: bool
    const numBuckets: Option<ArgValue>
    const maxDistance: Option<ArgValue>
    const heads: Option<ArgValue>

    constructor (numBuckets: Option<ArgValue>, maxDistance: Option<ArgValue>, heads: Option<ArgValue>)
      ensures causal && this.numBuckets == numBuckets
      ensures this.maxDistance == maxDistance && this.heads == heads
    {
      causal := true;
      this.numBuckets := numBuckets;
      this.maxDistance := maxDistance;
      this.heads := heads;
    }
  }

  /** The constructor arguments a spec records (initialiser functions are not modelled). */
  datatype LayerArgs =
    | EmbeddingArgs(config: Args, hiddenSize: Option<ArgValue>, vocabSize: Option<ArgValue>,
                    maxPositions: Option<ArgValue>, dropout: Option<ArgValue>, numTokentypes: int)
    | TransformerArgs(config: Args, layerNumber: nat, rpe: Option<RelativePositionBias>,
                      rotary: bool, getKeyValue: bool)
    | NormArgs(norm: NormClass, hiddenSize: Option<ArgValue>, eps: Option<ArgValue>)
    | LinearArgs(config: Args, parallelOutput: bool)

  /** The five format-adapter lambdas of `init_specs`. */
  datatype AdapterKind =
    /** training, before the layers: `(T(x[0]), *x[1:])` */
    | ToSequenceMajor
    /** inference, before the layers: `(T(x[0]), x[1], torch.Tensor(), *x[2:])` */
    | ToSequenceMajorWithPresents
    /** inference, after the layers: `(T(x[0]), x[2])` */
    | FromSequenceMajorWithPresents
    /** distillation training, after the layers: `(T(x[0]), *x[1:])` */
    | FromSequenceMajorKeepRest
    /** plain training, after the layers: `T(x[0])` */
    | FromSequenceMajorBare

  /** One element of the spec list. */
  datatype Stage =
    | Regular(layer: LayerClass, args: LayerArgs)
    | Tied(key: string, layer: LayerClass, args: LayerArgs, hasForwardFn: bool)
    | Adapter(which: AdapterKind)
    /** anything else a caller might have put in the list: neither a spec nor callable */
    | Unrecognized(description: string)

  datatype AdapterError =
    /** an index past the end of the tuple (IndexError); records the tuple's length */
    | TupleIndexOutOfRange(length: nat)
    /** `x[0].transpose(0, 1)` on a value without two axes (IndexError or AttributeError) */
    | NotTransposable

  /** The least tuple length each adapter can index without raising. */
  function MinArity(which: AdapterKind): nat {
    match which
    case ToSequenceMajor => 1
    case ToSequenceMajorWithPresents => 2
    case FromSequenceMajorWithPresents => 3
    case FromSequenceMajorKeepRest => 1
    case FromSequenceMajorBare => 1
  }

  /**
   * Applies a format adapter to the tuple a stage receives. Python evaluates
   * the tuple display left to right, so `x[0]` and its transpose are tried
   * before `x[1]` or `x[2]` is read.
   */
  function Adapt(which: AdapterKind, x: seq<Value>): (r: Result<Value, AdapterError>)
    ensures r.Success? <==> |x| >= MinArity(which) && Transposable(x[0])
    ensures r.Success? && r.value.Tuple? ==> |r.value.items| >= 1 && Transposable(r.value.items[0])
    ensures r.Success? && !r.value.Tuple? ==> Transposable(r.value)
  {
    if |x| == 0 then Failure(TupleIndexOutOfRange(0))
    else if !Transposable(x[0]) then Failure(NotTransposable)
    else if |x| < MinArity(which) then Failure(TupleIndexOutOfRange(|x|))
    else
      TransposeKeepsTransposable(x[0]);
      match which
      case ToSequenceMajor => Success(Tuple([Transpose(x[0])] + x[1..]))
      case ToSequenceMajorWithPresents => Success(Tuple([Transpose(x[0]), x[1], EmptyTensor] + x[2..]))
      case FromSequenceMajorWithPresents => Success(Tuple([Transpose(x[0]), x[2]]))
      case FromSequenceMajorKeepRest => Success(Tuple([Transpose(x[0])] + x[1..]))
      case FromSequenceMajorBare => Success(Transpose(x[0]))
  }

  /**
   * How each adapter raises: indexing an empty tuple, then transposing a
   * hidden state without two axes, then `x[1]` (inference entry) or `x[2]`
   * (inference exit) past the end of a short tuple.
   */
  lemma AdapterErrors(which: AdapterKind, x: seq<Value>)
    ensures |x| == 0 ==> Adapt(which, x) == Failure(TupleIndexOutOfRange(0))
    ensures |x| > 0 && !Transposable(x[0]) ==> Adapt(which, x) == Failure(NotTransposable)
    ensures |x| == 1 && Transposable(x[0]) ==>
      (Adapt(which, x).Failure? <==> which in {ToSequenceMajorWithPresents, FromSequenceMajorWithPresents})
    ensures |x| == 2 && Transposable(x[0]) ==>
      (Adapt(which, x).Failure? <==> which == FromSequenceMajorWithPresents)
    ensures |x| >= 3 && Transposable(x[0]) ==> Adapt(which, x).Success?
  {
  }

  /** In training the forward adapter keeps the arity and transposes only `x[0]`. */
  lemma ForwardTrainingArity(x: seq<Value>)
    requires |x| >= 1 && Transposable(x[0])
    ensures Adapt(ToSequenceMajor, x).Success?
    ensures var y := Adapt(ToSequenceMajor, x).value;
      y.Tuple? && |y.items| == |x| && y.items[0] == Transpose(x[0]) &&
      forall i :: 1 <= i < |x| ==> y.items[i] == x[i]
  {
  }

  /** In inference the forward adapter inserts the empty placeholder at index 2. */
  lemma ForwardInferenceArity(x: seq<Value>)
    requires |x| >= 2 && Transposable(x[0])
    ensures Adapt(ToSequenceMajorWithPresents, x).Success?
    ensures var y := Adapt(ToSequenceMajorWithPresents, x).value;
      y.Tuple? && |y.items| == |x| + 1 && y.items[0] == Transpose(x[0]) &&
      y.items[1] == x[1] && y.items[2] == EmptyTensor &&
      forall i :: 2 <= i < |x| ==> y.items[i + 1] == x[i]
  {
  }

  /** The three reverse adapters: (T(x[0]), x[2]) in inference, (T(x[0]), *x[1:]) under distillation, T(x[0]) otherwise. */
  lemma ReverseAdapters(x: seq<Value>)
    requires |x| >= 1 && Transposable(x[0])
    ensures |x| >= 3 ==> Adapt(FromSequenceMajorWithPresents, x) == Success(Tuple([Transpose(x[0]), x[2]]))
    ensures |x| < 3 ==> Adapt(FromSequenceMajorWithPresents, x).Failure?
    ensures var y := Adapt(FromSequenceMajorKeepRest, x).value;
      y.Tuple? && |y.items| == |x| && y.items[0] == Transpose(x[0]) && y.items[1..] == x[1..]
    ensures Adapt(FromSequenceMajorBare, x) == Success(Transpose(x[0]))
  {
  }

  /** Plain training: the forward adapter followed by the reverse one gives back `x[0]`. */
  lemma TrainingRoundTrip(x: seq<Value>)
    requires |x| >= 1 && Transposable(x[0])
    ensures Adapt(ToSequenceMajor, x).Success?
    ensures Adapt(FromSequenceMajorBare, Adapt(ToSequenceMajor, x).value.items) == Success(x[0])
  {
    TransposeInvolution(x[0]);
  }

  /** Distillation training: forward then reverse gives back the whole tuple. */
  lemma DistillationRoundTrip(x: seq<Value>)
    requires |x| >= 1 && Transposable(x[0])
    ensures Adapt(ToSequenceMajor, x).Success?
    ensures Adapt(FromSequenceMajorKeepRest, Adapt(ToSequenceMajor, x).value.items) == Success(Tuple(x))
  {
    TransposeInvolution(x[0]);
    var y := Adapt(ToSequenceMajor, x).value.items;
    assert [Transpose(y[0])] + y[1..] == x;
  }

  /** Inference: forward then reverse gives back `(x[0], placeholder)`. */
  lemma InferenceRoundTrip(x: seq<Value>)
    requires |x| >= 2 && Transposable(x[0])
    ensures Adapt(ToSequenceMajorWithPresents, x).Success?
    ensures Adapt(FromSequenceMajorWithPresents, Adapt(ToSequenceMajorWithPresents, x).value.items)
            == Success(Tuple([x[0], EmptyTensor]))
  {
    TransposeInvolution(x[0]);
  }

  datatype HelperError =
    /** `lm_output[0]` on an empty tuple */
    | EmptyOutput
    /** indexing into a bare tensor, which the model does not describe */
    | TensorIndexing

  /**
   * `_logits_helper(embedding, lm_output)` with the embedding's
   * `word_embeddings_weight` already looked up. Under distillation the
   * projection is applied to the whole `lm_output`, as the code does.
   */
  function LogitsHelper(inference: bool, distillation: bool, parallelOutput: bool,
                        embeddingWeight: Value, lmOutput: Value): Result<Value, HelperError>
  {
    if inference && lmOutput.Tuple? && |lmOutput.items| == 2 then
      Success(Tuple([Logits(lmOutput.items[0], embeddingWeight, parallelOutput), lmOutput.items[1]]))
    else if distillation then
      if !lmOutput.Tuple? then Failure(TensorIndexing)
      else if |lmOutput.items| == 0 then Failure(EmptyOutput)
      else Success(Tuple([Logits(lmOutput, embeddingWeight, parallelOutput), Tuple(lmOutput.items[1..])]))
    else
      Success(Logits(lmOutput, embeddingWeight, parallelOutput))
  }

  /**
   * What `_logits_helper` returns in each mode: `(logits, presents)` for an
   * inference pair, `(logits, lm_output[1:])` under distillation, bare logits
   * in plain training; the weight is always the embedding's.
   */
  lemma LogitsHelperModes(parallelOutput: bool, w: Value, lmOutput: Value)
    ensures forall h, p :: lmOutput == Tuple([h, p]) ==>
      LogitsHelper(true, false, parallelOutput, w, lmOutput) == Success(Tuple([Logits(h, w, parallelOutput), p]))
    ensures LogitsHelper(false, false, parallelOutput, w, lmOutput) == Success(Logits(lmOutput, w, parallelOutput))
    ensures !(lmOutput.Tuple? && |lmOutput.items| == 2) ==>
      LogitsHelper(true, false, parallelOutput, w, lmOutput) == Success(Logits(lmOutput, w, parallelOutput))
    ensures lmOutput.Tuple? && |lmOutput.items| >= 1 ==>
      var r := LogitsHelper(false, true, parallelOutput, w, lmOutput);
      r.Success? && r.value.Tuple? && |r.value.items| == 2 &&
      r.value.items[0] == Logits(lmOutput, w, parallelOutput) &&
      r.value.items[1] == Tuple(lmOutput.items[1..])
  {
  }

  /**
   * Under distillation the projection is applied to the whole tuple, not to
   * its hidden state `lm_output[0]` (which the code computes and never uses).
   */
  lemma DistillationLogitsUseWholeTuple(parallelOutput: bool, w: Value, h: Value, rest: seq<Value>)
    ensures var r := LogitsHelper(false, true, parallelOutput, w, Tuple([h] + rest));
      r.Success? && r.value.items[0] != Logits(h, w, parallelOutput)
  {
    var lm := Tuple([h] + rest);
    assert lm.items[0] == h;
    ValueSmallerThanTuple(h, lm);
  }

  /** A tuple is never equal to one of its own items. */
  lemma ValueSmallerThanTuple(h: Value, t: Value)
    requires t.Tuple? && |t.items| >= 1 && t.items[0] == h
    ensures h != t
  {
    assert h in t.items;
  }
}
