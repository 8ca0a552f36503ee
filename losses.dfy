/**
 * The loss functions bound to the pipe: the masked-mean `cross_entropy`,
 * `kldiv_loss`, `mse_loss`, and the alpha-gated `combined_loss` used under
 * distillation. The vocabulary-parallel per-token primitives are parameters.
 */
module Losses {
  import opened Wrappers
  import opened NeoxArguments
  import opened PipeValues

  /** A scalar loss; `NonFinite` is the NaN or infinity of a zero mask sum. */
  datatype Loss = Finite(value: real) | NonFinite

  datatype LossError =
    /** the flattened per-token losses and the mask differ in length */
    | ShapeMismatch
    /** `combined_loss` could not unpack its output into four values */
    | NotAFourTuple
    /** `loss` read before assignment (UnboundLocalError) */
    | LossUnbound
    /** an alpha that cannot be compared with 0 */
    | AlphaNotNumber

  /** `(labels, loss_mask)`, the mask already flattened. */
  datatype Labels = Labels(targets: Value, mask: seq<real>)

  /**
   * The tensor primitives, left uninterpreted: vocabulary-parallel cross
   * entropy, vocabulary-parallel KL divergence, a squared-error primitive
   * (which the code never calls) and `fp16_to_fp32`.
   */
  datatype Primitives = Primitives(crossEntropy: (Value, Value) -> seq<real>,
                                   klDiv: (Value, Value) -> seq<real>,
                                   mse: (Value, Value) -> seq<real>,
                                   upcast: Value -> Value)

  /** The input as the primitive sees it: `fp16_to_fp32(v)` unless `_fp16` is set. */
  function Upcast(prims: Primitives, fp16: bool, v: Value): Value {
    if fp16 then v else prims.upcast(v)
  }

  function Sum(s: seq<real>): real {
    if |s| == 0 then 0.0 else s[0] + Sum(s[1..])
  }

  /** `torch.sum(losses * loss_mask)` */
  function Dot(a: seq<real>, b: seq<real>): real
    requires |a| == |b|
  {
    if |a| == 0 then 0.0 else a[0] * b[0] + Dot(a[1..], b[1..])
  }

  /** `torch.sum(losses.view(-1) * loss_mask) / loss_mask.sum()` */
  function MaskedMean(losses: seq<real>, mask: seq<real>): (r: Result<Loss, LossError>)
    ensures r.Failure? <==> |losses| != |mask|
    ensures r.Failure? ==> r.error == ShapeMismatch
    ensures r == Success(NonFinite) <==> |losses| == |mask| && Sum(mask) == 0.0
  {
    if |losses| != |mask| then Failure(ShapeMismatch)
    else if Sum(mask) == 0.0 then Success(NonFinite)
    else Success(Finite(Dot(losses, mask) / Sum(mask)))
  }

  /** `cross_entropy(output, (labels, loss_mask), _fp16)`: only the output is upcast. */
  function CrossEntropy(prims: Primitives, fp16: bool, output: Value, labels: Labels): Result<Loss, LossError> {
    MaskedMean(prims.crossEntropy(Upcast(prims, fp16, output), labels.targets), labels.mask)
  }

  /** `kldiv_loss(output, (teacher_logits, loss_mask), _fp16)`: both inputs are upcast before the call. */
  function KlDivLoss(prims: Primitives, fp16: bool, output: Value, labels: Labels): Result<Loss, LossError> {
    MaskedMean(prims.klDiv(Upcast(prims, fp16, output), Upcast(prims, fp16, labels.targets)), labels.mask)
  }

  /**
   * `mse_loss(output, (teacher_logits, loss_mask), _fp16)`, as written: it
   * calls the KL primitive, and upcasts the labels only after that call, so
   * the primitive sees them as they came.
   */
  function MseLoss(prims: Primitives, fp16: bool, output: Value, labels: Labels): Result<Loss, LossError> {
    MaskedMean(prims.klDiv(Upcast(prims, fp16, output), labels.targets), labels.mask)
  }

  function Scale(alpha: real, l: Loss): Loss {
    match l
    case Finite(v) => Finite(alpha * v)
    case NonFinite => NonFinite
  }

  function AddLoss(a: Loss, b: Loss): Loss {
    if a.Finite? && b.Finite? then Finite(a.value + b.value) else NonFinite
  }

  /** The number an alpha compares as; Python's bool counts as 0 or 1. */
  function Numeric(v: Option<ArgValue>): Result<real, LossError> {
    match v
    case Some(ArgInt(i)) => Success(i as real)
    case Some(ArgReal(r)) => Success(r)
    case Some(ArgBool(b)) => Success(if b then 1.0 else 0.0)
    case _ => Failure(AlphaNotNumber)
  }

  /** `if alpha_lm > 0: loss = alpha_lm * cross_entropy(...)`; None while `loss` is unbound. */
  function LanguageModelTerm(alpha: real, term: Result<Loss, LossError>): Result<Option<Loss>, LossError> {
    if alpha <= 0.0 then Success(None)
    else if term.Failure? then Failure(term.error)
    else Success(Some(Scale(alpha, term.value)))
  }

  /**
   * `if alpha > 0: term = ...; loss += alpha * term`: when enabled the term is
   * computed first, then the unbound `loss` is read.
   */
  function AddTerm(acc: Option<Loss>, alpha: real, term: Result<Loss, LossError>): Result<Option<Loss>, LossError> {
    if alpha <= 0.0 then Success(acc)
    else if term.Failure? then Failure(term.error)
    else if acc.None? then Failure(LossUnbound)
    else Success(Some(AddLoss(acc.value, Scale(alpha, term.value))))
  }

  /** `combined_loss(output, labels, alpha_lm, alpha_kld, alpha_mse)` */
  function CombinedLoss(prims: Primitives, fp16: bool, output: Value, labels: Labels,
                        alphaLm: Option<ArgValue>, alphaKld: Option<ArgValue>, alphaMse: Option<ArgValue>)
    : Result<Loss, LossError>
  {
    if !(output.Tuple? && |output.items| == 4) then Failure(NotAFourTuple)
    else
      var teacherLogits := output.items[0];
      var studentLogits := output.items[2];
      var teacherLabels := Labels(teacherLogits, labels.mask);
      var lm :- Numeric(alphaLm);
      var acc0 :- LanguageModelTerm(lm, CrossEntropy(prims, fp16, studentLogits, labels));
      var kld :- Numeric(alphaKld);
      var acc1 :- AddTerm(acc0, kld, KlDivLoss(prims, fp16, studentLogits, teacherLabels));
      var mse :- Numeric(alphaMse);
      var acc2 :- AddTerm(acc1, mse, MseLoss(prims, fp16, studentLogits, teacherLabels));
      if acc2.None? then Failure(LossUnbound) else Success(acc2.value)
  }

  /** The partially applied loss function handed to the pipeline runtime. */
  datatype LossFn =
    | CrossEntropyFn(fp16: bool)
    | CombinedLossFn(alphaLm: Option<ArgValue>, alphaKld: Option<ArgValue>, alphaMse: Option<ArgValue>, fp16: bool)

  /** Lines 156-163 and 170: none in inference, the combined loss under distillation, cross entropy otherwise. */
  function SelectLoss(config: Args, distillation: bool, inference: bool): (r: Option<LossFn>)
    requires HasAttributes(config)
    ensures r.None? <==> inference
    ensures r.Some? ==> (r.value.CombinedLossFn? <==> distillation)
    ensures r.Some? ==> r.value.fp16 == Truthy(config["fp16_lm_cross_entropy"])
    ensures r.Some? && distillation ==>
      r.value == CombinedLossFn(config["alpha_lm"], config["alpha_kld"], config["alpha_mse"], r.value.fp16)
  {
    if inference then None
    else if distillation then
      Some(CombinedLossFn(config["alpha_lm"], config["alpha_kld"], config["alpha_mse"], Truthy(config["fp16_lm_cross_entropy"])))
    else Some(CrossEntropyFn(Truthy(config["fp16_lm_cross_entropy"])))
  }

  /** Calls a bound loss function on the last stage's output. */
  function ApplyLoss(fn: LossFn, prims: Primitives, output: Value, labels: Labels): Result<Loss, LossError> {
    match fn
    case CrossEntropyFn(fp16) => CrossEntropy(prims, fp16, output, labels)
    case CombinedLossFn(lm, kld, mse, fp16) => CombinedLoss(prims, fp16, output, labels, lm, kld, mse)
  }

  /**
   * What the runtime computes with the bound loss function outside inference:
   * `combined_loss` with the configuration's three alphas under distillation,
   * `cross_entropy` otherwise; in inference nothing is bound.
   */
  lemma BoundLossComputes(config: Args, distillation: bool, prims: Primitives, output: Value, labels: Labels)
    requires HasAttributes(config)
    ensures SelectLoss(config, distillation, true).None?
    ensures SelectLoss(config, distillation, false).Some?
    ensures var fp16 := Truthy(config["fp16_lm_cross_entropy"]);
      ApplyLoss(SelectLoss(config, distillation, false).value, prims, output, labels) ==
        if distillation then CombinedLoss(prims, fp16, output, labels, config["alpha_lm"], config["alpha_kld"], config["alpha_mse"])
        else CrossEntropy(prims, fp16, output, labels)
  {
  }

  /** The masked sum lies between `lo` and `hi` times the mask sum when every masked loss does. */
  lemma {:induction false} DotBounds(losses: seq<real>, mask: seq<real>, lo: real, hi: real)
    requires |losses| == |mask|
    requires forall i :: 0 <= i < |mask| ==> mask[i] >= 0.0
    requires forall i :: 0 <= i < |losses| ==> lo <= losses[i] <= hi
    ensures lo * Sum(mask) <= Dot(losses, mask) <= hi * Sum(mask)
  {
    if |losses| > 0 {
      var rest, restSum := Dot(losses[1..], mask[1..]), Sum(mask[1..]);
      DotBounds(losses[1..], mask[1..], lo, hi);
      MultiplyMonotone(lo, losses[0], mask[0]);
      MultiplyMonotone(losses[0], hi, mask[0]);
      Distribute(lo, mask[0], restSum);
      Distribute(hi, mask[0], restSum);
      assert Sum(mask) == mask[0] + restSum;
      assert Dot(losses, mask) == losses[0] * mask[0] + rest;
    } else {
      Distribute(lo, 0.0, 0.0);
      Distribute(hi, 0.0, 0.0);
    }
  }

  lemma Distribute(a: real, b: real, c: real)
    ensures a * (b + c) == a * b + a * c
  {
  }

  lemma MultiplyMonotone(a: real, b: real, c: real)
    requires a <= b && c >= 0.0
    ensures a * c <= b * c
  {
  }

  /**
   * `cross_entropy` is a weighted average: with a non-negative mask that sums
   * to a positive value, it lies between the least and greatest per-token loss.
   */
  lemma MaskedMeanIsAverage(losses: seq<real>, mask: seq<real>, lo: real, hi: real)
    requires |losses| == |mask|
    requires forall i :: 0 <= i < |mask| ==> mask[i] >= 0.0
    requires Sum(mask) > 0.0
    requires forall i :: 0 <= i < |losses| ==> lo <= losses[i] <= hi
    ensures MaskedMean(losses, mask).Success? && MaskedMean(losses, mask).value.Finite?
    ensures lo <= MaskedMean(losses, mask).value.value <= hi
  {
    DotBounds(losses, mask, lo, hi);
    DivisionBounds(Dot(losses, mask), Sum(mask), lo, hi);
  }

  lemma DivisionBounds(d: real, s: real, lo: real, hi: real)
    requires s > 0.0 && lo * s <= d <= hi * s
    ensures lo <= d / s <= hi
  {
    var q := d / s;
    assert q * s == d;
    if q < lo {
      MultiplyStrict(q, lo, s);
    }
    if q > hi {
      MultiplyStrict(hi, q, s);
    }
  }

  lemma MultiplyStrict(a: real, b: real, c: real)
    requires a < b && c > 0.0
    ensures a * c < b * c
  {
  }

  /** Zero per-token losses give a zero loss whenever the mask sum is nonzero. */
  lemma {:induction false} ZeroLossesGiveZero(losses: seq<real>, mask: seq<real>)
    requires |losses| == |mask| && Sum(mask) != 0.0
    requires forall i :: 0 <= i < |losses| ==> losses[i] == 0.0
    ensures MaskedMean(losses, mask) == Success(Finite(0.0))
  {
    DotOfZeros(losses, mask);
  }

  lemma {:induction false} DotOfZeros(losses: seq<real>, mask: seq<real>)
    requires |losses| == |mask|
    requires forall i :: 0 <= i < |losses| ==> losses[i] == 0.0
    ensures Dot(losses, mask) == 0.0
  {
    if |losses| > 0 {
      DotOfZeros(losses[1..], mask[1..]);
    }
  }

  /** With an all-ones mask the loss is the plain mean of the per-token losses. */
  lemma AllOnesMaskIsMean(losses: seq<real>, mask: seq<real>)
    requires |losses| == |mask| > 0
    requires forall i :: 0 <= i < |mask| ==> mask[i] == 1.0
    ensures MaskedMean(losses, mask) == Success(Finite(Sum(losses) / (|losses| as real)))
  {
    OnesDot(losses, mask);
  }

  lemma {:induction false} OnesDot(losses: seq<real>, mask: seq<real>)
    requires |losses| == |mask|
    requires forall i :: 0 <= i < |mask| ==> mask[i] == 1.0
    ensures Dot(losses, mask) == Sum(losses) && Sum(mask) == |mask| as real
  {
    if |losses| > 0 {
      OnesDot(losses[1..], mask[1..]);
    }
  }

  /**
   * `mse_loss` calls the KL primitive, so the squared-error primitive is never
   * consulted. It agrees with `kldiv_loss` whenever the labels reach the
   * primitive in the same form: under `_fp16`, or when upcasting leaves them
   * as they are.
   */
  lemma MseLossIsKlDivLoss(prims: Primitives, fp16: bool, output: Value, labels: Labels,
                           mse: (Value, Value) -> seq<real>)
    ensures MseLoss(prims.(mse := mse), fp16, output, labels) == MseLoss(prims, fp16, output, labels)
    ensures fp16 || prims.upcast(labels.targets) == labels.targets ==>
      MseLoss(prims, fp16, output, labels) == KlDivLoss(prims, fp16, output, labels)
  {
  }

  /**
   * Outside `_fp16`, `mse_loss` upcasts the labels only after the KL call, so
   * its result does not depend on what the upcast does to them.
   */
  lemma MseLossIgnoresLabelUpcast(prims: Primitives, output: Value, labels: Labels, up: Value -> Value)
    requires up(output) == prims.upcast(output)
    ensures MseLoss(prims.(upcast := up), false, output, labels) == MseLoss(prims, false, output, labels)
  {
  }

  /** The combined loss succeeds only when `alpha_lm > 0`: otherwise `loss` is unbound. */
  lemma CombinedLossNeedsAlphaLm(prims: Primitives, fp16: bool, output: Value, labels: Labels,
                                 alphaLm: Option<ArgValue>, alphaKld: Option<ArgValue>, alphaMse: Option<ArgValue>)
    requires output.Tuple? && |output.items| == 4
    requires Numeric(alphaLm).Success? && Numeric(alphaLm).value <= 0.0
    requires Numeric(alphaKld).Success? && Numeric(alphaMse).Success?
    ensures CombinedLoss(prims, fp16, output, labels, alphaLm, alphaKld, alphaMse).Failure?
    ensures CombinedLoss(prims, fp16, output, labels, alphaLm, alphaKld, alphaMse).error in {LossUnbound, ShapeMismatch}
  {
  }

  /** With `alpha_kld = alpha_mse = 0` and `alpha_lm > 0` the combined loss is `alpha_lm * CE`. */
  lemma CombinedLossLanguageModelOnly(prims: Primitives, fp16: bool, output: Value, labels: Labels,
                                      alphaLm: real, alphaKld: Option<ArgValue>, alphaMse: Option<ArgValue>)
    requires output.Tuple? && |output.items| == 4
    requires alphaLm > 0.0
    requires Numeric(alphaKld).Success? && Numeric(alphaKld).value <= 0.0
    requires Numeric(alphaMse).Success? && Numeric(alphaMse).value <= 0.0
    ensures var ce := CrossEntropy(prims, fp16, output.items[2], labels);
      CombinedLoss(prims, fp16, output, labels, Some(ArgReal(alphaLm)), alphaKld, alphaMse) ==
        if ce.Failure? then Failure(ce.error) else Success(Scale(alphaLm, ce.value))
  {
  }

  /**
   * A term whose alpha is not positive is never evaluated: the result does not
   * depend on the teacher logits or on the KL primitive, so malformed teacher
   * tensors raise nothing.
   */
  lemma CombinedLossSkipsDisabledTerms(prims: Primitives, fp16: bool, output: Value, labels: Labels,
                                       alphaLm: Option<ArgValue>, alphaKld: Option<ArgValue>, alphaMse: Option<ArgValue>,
                                       otherTeacher: Value, otherKl: (Value, Value) -> seq<real>)
    requires output.Tuple? && |output.items| == 4
    requires Numeric(alphaKld).Success? && Numeric(alphaKld).value <= 0.0
    requires Numeric(alphaMse).Success? && Numeric(alphaMse).value <= 0.0
    ensures var other := Tuple(output.items[0 := otherTeacher]);
      CombinedLoss(prims.(klDiv := otherKl), fp16, other, labels, alphaLm, alphaKld, alphaMse) ==
      CombinedLoss(prims, fp16, output, labels, alphaLm, alphaKld, alphaMse)
  {
    var other := Tuple(output.items[0 := otherTeacher]);
    assert other.items[2] == output.items[2];
  }

  /** With every alpha positive and every term finite, the loss is the weighted sum of the three terms. */
  lemma CombinedLossAllTerms(prims: Primitives, fp16: bool, output: Value, labels: Labels,
                             alphaLm: real, alphaKld: real, alphaMse: real, ce: real, kl: real, ms: real)
    requires output.Tuple? && |output.items| == 4
    requires alphaLm > 0.0 && alphaKld > 0.0 && alphaMse > 0.0
    requires CrossEntropy(prims, fp16, output.items[2], labels) == Success(Finite(ce))
    requires KlDivLoss(prims, fp16, output.items[2], Labels(output.items[0], labels.mask)) == Success(Finite(kl))
    requires MseLoss(prims, fp16, output.items[2], Labels(output.items[0], labels.mask)) == Success(Finite(ms))
    ensures CombinedLoss(prims, fp16, output, labels, Some(ArgReal(alphaLm)), Some(ArgReal(alphaKld)), Some(ArgReal(alphaMse)))
      == Success(Finite(alphaLm * ce + alphaKld * kl + alphaMse * ms))
  {
    // The scaled terms, spelled out so the solver need not multiply under a constructor.
    assert Scale(alphaLm, Finite(ce)) == Finite(alphaLm * ce);
    assert Scale(alphaKld, Finite(kl)) == Finite(alphaKld * kl);
    assert Scale(alphaMse, Finite(ms)) == Finite(alphaMse * ms);
  }
}
