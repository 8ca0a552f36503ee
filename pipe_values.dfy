/**
 * The values that flow between pipeline stages. Tensors are opaque tokens that
 * carry only an identity and a shape; the logits projection is a free term.
 */
module PipeValues {

  datatype Value =
    /** an opaque tensor with its axis sizes; `transposed` records an odd number of axis swaps */
    | Tensor(id: nat, shape: seq<nat>, transposed: bool)
    /** `torch.Tensor()`, the empty placeholder that collects `presents` */
    | EmptyTensor
    /** the word-embedding weight matrix of built module `owner` */
    | Weight(owner: nat)
    /** `parallel_lm_logits(input, weight, parallel_output)`, left uninterpreted */
    | Logits(input: Value, weight: Value, parallel: bool)
    /** a Python tuple of stage values */
    | Tuple(items: seq<Value>)

  /** Swaps the first two axes of a shape; a shape with fewer than two axes is kept. */
  function SwapAxes(shape: seq<nat>): (r: seq<nat>)
    ensures |r| == |shape|
    ensures |shape| >= 2 ==> r[0] == shape[1] && r[1] == shape[0] && r[2..] == shape[2..]
  {
    if |shape| >= 2 then [shape[1], shape[0]] + shape[2..] else shape
  }

  /**
   * Whether `.transpose(0, 1)` can be applied: a tensor needs at least two
   * axes (`torch.Tensor()` has one), and a tuple has no such method. Weights
   * and logits are matrices or higher.
   */
  predicate Transposable(v: Value) {
    match v
    case Tensor(_, shape, _) => |shape| >= 2
    case EmptyTensor => false
    case Tuple(_) => false
    case _ => true
  }

  /** `.transpose(0, 1).contiguous()` on a transposable value; the adapters never apply it to any other. */
  function Transpose(v: Value): Value {
    match v
    case Tensor(id, shape, t) => Tensor(id, SwapAxes(shape), !t)
    case _ => v
  }

  /** The transpose is an involution. */
  lemma TransposeInvolution(v: Value)
    ensures Transpose(Transpose(v)) == v
  {
    if v.Tensor? {
      var s := v.shape;
      if |s| >= 2 {
        assert SwapAxes(SwapAxes(s)) == [s[0], s[1]] + s[2..] == s;
      }
    }
  }

  /** A transposed value can be transposed again. */
  lemma TransposeKeepsTransposable(v: Value)
    requires Transposable(v)
    ensures Transposable(Transpose(v))
  {
  }

  /** A batch-major tensor `[b, s, h]` becomes sequence-major `[s, b, h]`. */
  lemma TransposeShape(id: nat, b: nat, s: nat, h: nat)
    ensures Transpose(Tensor(id, [b, s, h], false)) == Tensor(id, [s, b, h], true)
  {
  }
}
