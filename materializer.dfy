/**
 * `to_sequential`: the walk over the spec list that builds each spec, ties
 * the shared embedding through a registry keyed by the tie name, wraps the
 * adapters as lambdas, and produces the layers of a plain sequential
 * container. Built modules are identified by the order of their `build` call.
 */
module Materializer {
  import opened Wrappers
  import opened NeoxArguments
  import opened PipeValues
  import opened Stages

  /** An element of the `layers` list handed to the sequential container. */
  datatype Layer =
    /** the module returned by the `id`-th `spec.build()` of the walk */
    | Built(id: nat, spec: Stage)
    /**
     * the receiver lambda of a repeated tie key; it closes over the loop
     * variable `spec` and the registry, not over their values at this step
     */
    | Receiver
    /** `Lambda(spec)` around a format adapter */
    | Function(which: AdapterKind)

  /** `ValueError('Layer number n ... Not recognized')` */
  datatype MaterializeError = LayerNotRecognized(index: nat)

  /** The loop state: layers so far, the `tied_layers` registry, and how many modules were built. */
  datatype Scan = Scan(layers: seq<Layer>, tiedLayers: map<string, seq<nat>>, built: nat)

  /**
   * The pipe's attributes `_logits_helper` reads when a receiver is called:
   * `self._inference`, `self.do_distillation` (as a truth value) and
   * `self.parallel_output`. Nothing writes them after construction.
   */
  datatype HelperFlags = HelperFlags(inference: bool, distillation: bool, parallelOutput: bool)

  /**
   * The container and what its receivers see when called: the final registry,
   * the final binding of the loop variable `spec` (None for an empty list)
   * and the flags of the pipe that built it.
   */
  datatype Sequential = Sequential(layers: seq<Layer>, tiedLayers: map<string, seq<nat>>,
                                   boundSpec: Option<Stage>, interval: Option<ArgValue>, flags: HelperFlags)

  function EmptyScan(): Scan {
    Scan([], map[], 0)
  }

  /** One iteration of the loop, for the spec at index `n`. */
  function Step(s: Scan, n: nat, spec: Stage): Result<Scan, MaterializeError> {
    match spec
    case Tied(key, _, _, _) =>
      if key in s.tiedLayers then Success(s.(layers := s.layers + [Receiver]))
      // the default-dict entry starts empty, so after the append it holds the one owner
      else Success(Scan(s.layers + [Built(s.built, spec)], s.tiedLayers[key := [s.built]], s.built + 1))
    case Regular(_, _) => Success(Scan(s.layers + [Built(s.built, spec)], s.tiedLayers, s.built + 1))
    case Adapter(which) => Success(s.(layers := s.layers + [Function(which)]))
    case Unrecognized(_) => Failure(LayerNotRecognized(n))
  }

  /** The loop state after the first `k` specs, or the error raised among them. */
  function ScanPrefix(specs: seq<Stage>, k: nat): Result<Scan, MaterializeError>
    requires k <= |specs|
  {
    if k == 0 then Success(EmptyScan())
    else
      var s :- ScanPrefix(specs, k - 1);
      Step(s, k - 1, specs[k - 1])
  }

  /** The container `to_sequential` returns, or the error it raises. */
  function Materialize(specs: seq<Stage>, interval: Option<ArgValue>, flags: HelperFlags)
    : Result<Sequential, MaterializeError>
  {
    var s :- ScanPrefix(specs, |specs|);
    Success(Sequential(s.layers, s.tiedLayers, if |specs| == 0 then None else Some(specs[|specs| - 1]),
                       interval, flags))
  }

  /** Some tied spec before index `k` uses `key`. */
  predicate KeySeenBefore(specs: seq<Stage>, k: nat, key: string)
    requires k <= |specs|
  {
    exists j :: 0 <= j < k && specs[j].Tied? && specs[j].key == key
  }

  /** The layer the walk must produce for the spec at index `j`. */
  predicate LayerFor(specs: seq<Stage>, j: nat, l: Layer)
    requires j < |specs|
  {
    match specs[j]
    case Regular(_, _) => l.Built? && l.spec == specs[j]
    case Tied(key, _, _, _) =>
      if KeySeenBefore(specs, j, key) then l == Receiver else l.Built? && l.spec == specs[j]
    case Adapter(which) => l == Function(which)
    case Unrecognized(_) => false
  }

  /** What the loop state after `k` specs is, position by position. */
  ghost predicate ScanMatches(specs: seq<Stage>, k: nat, s: Scan)
    requires k <= |specs|
  {
    && |s.layers| == k
    && (forall j :: 0 <= j < k ==> LayerFor(specs, j, s.layers[j]))
    && (forall j :: 0 <= j < k && s.layers[j].Built? ==> s.layers[j].id < s.built)
    && (forall i, j :: 0 <= i < j < k && s.layers[i].Built? && s.layers[j].Built? ==> s.layers[i].id < s.layers[j].id)
    && (forall key :: key in s.tiedLayers <==> KeySeenBefore(specs, k, key))
    && (forall j :: 0 <= j < k && specs[j].Tied? && !KeySeenBefore(specs, j, specs[j].key) ==>
          specs[j].key in s.tiedLayers && s.tiedLayers[specs[j].key] == [s.layers[j].id])
  }

  lemma KeySeenBeforeStep(specs: seq<Stage>, k: nat, key: string)
    requires k < |specs|
    ensures KeySeenBefore(specs, k + 1, key) <==>
      KeySeenBefore(specs, k, key) || (specs[k].Tied? && specs[k].key == key)
  {
    if KeySeenBefore(specs, k + 1, key) && !KeySeenBefore(specs, k, key) {
      var j :| 0 <= j < k + 1 && specs[j].Tied? && specs[j].key == key;
      assert j == k;
    }
  }

  /** One step of the walk keeps the position-by-position description. */
  lemma StepMatches(specs: seq<Stage>, k: nat, s: Scan)
    requires k < |specs| && ScanMatches(specs, k, s) && !specs[k].Unrecognized?
    ensures Step(s, k, specs[k]).Success?
    ensures ScanMatches(specs, k + 1, Step(s, k, specs[k]).value)
  {
    StepLayers(specs, k, s);
    StepRegistry(specs, k, s);
  }

  /** The layer part of `ScanMatches` after one step. */
  lemma StepLayers(specs: seq<Stage>, k: nat, s: Scan)
    requires k < |specs| && ScanMatches(specs, k, s) && !specs[k].Unrecognized?
    ensures var t := Step(s, k, specs[k]).value;
      && |t.layers| == k + 1
      && (forall j :: 0 <= j < k + 1 ==> LayerFor(specs, j, t.layers[j]))
      && (forall j :: 0 <= j < k + 1 && t.layers[j].Built? ==> t.layers[j].id < t.built)
      && (forall i, j :: 0 <= i < j < k + 1 && t.layers[i].Built? && t.layers[j].Built? ==>
            t.layers[i].id < t.layers[j].id)
  {
    var t := Step(s, k, specs[k]).value;
    StepAppendsOne(s, k, specs[k]);
    if specs[k].Tied? {
      assert specs[k].key in s.tiedLayers <==> KeySeenBefore(specs, k, specs[k].key);
    }
    assert LayerFor(specs, k, t.layers[k]);
    forall j | 0 <= j < k ensures LayerFor(specs, j, t.layers[j]) {
      assert t.layers[j] == s.layers[j];
    }
  }

  /** The registry part of `ScanMatches` after one step. */
  lemma StepRegistry(specs: seq<Stage>, k: nat, s: Scan)
    requires k < |specs| && ScanMatches(specs, k, s) && !specs[k].Unrecognized?
    ensures var t := Step(s, k, specs[k]).value;
      && (forall key :: key in t.tiedLayers <==> KeySeenBefore(specs, k + 1, key))
      && (forall j :: 0 <= j < k + 1 && specs[j].Tied? && !KeySeenBefore(specs, j, specs[j].key) ==>
            specs[j].key in t.tiedLayers && t.tiedLayers[specs[j].key] == [t.layers[j].id])
  {
    var t := Step(s, k, specs[k]).value;
    StepAppendsOne(s, k, specs[k]);
    var newKey := specs[k].Tied? && specs[k].key !in s.tiedLayers;
    assert !newKey ==> t.tiedLayers == s.tiedLayers;
    assert newKey ==> t.tiedLayers == s.tiedLayers[specs[k].key := [t.layers[k].id]];
    forall key ensures key in t.tiedLayers <==> KeySeenBefore(specs, k + 1, key) {
      KeySeenBeforeStep(specs, k, key);
    }
    forall j | 0 <= j < k + 1 && specs[j].Tied? && !KeySeenBefore(specs, j, specs[j].key)
      ensures specs[j].key in t.tiedLayers && t.tiedLayers[specs[j].key] == [t.layers[j].id]
    {
      if j < k {
        assert KeySeenBefore(specs, k, specs[j].key) by {
          assert specs[j].Tied? && specs[j].key == specs[j].key;
        }
        assert t.layers[j] == s.layers[j];
      }
    }
  }

  /** A step keeps the layers so far and appends one, with an id only when it builds a module. */
  lemma StepAppendsOne(s: Scan, n: nat, spec: Stage)
    requires !spec.Unrecognized?
    ensures var t := Step(s, n, spec).value;
      && |t.layers| == |s.layers| + 1
      && (forall j :: 0 <= j < |s.layers| ==> t.layers[j] == s.layers[j])
      && (t.layers[|s.layers|].Built? ==> t.layers[|s.layers|].id == s.built && t.built == s.built + 1)
      && (!t.layers[|s.layers|].Built? ==> t.built == s.built)
  {
  }

  /**
   * After `k` specs the walk has failed exactly when one of them is not
   * recognised, reporting the first; otherwise its state matches the specs.
   */
  lemma {:induction false} ScanPrefixOutcome(specs: seq<Stage>, k: nat)
    requires k <= |specs|
    ensures ScanPrefix(specs, k).Success? <==> forall j :: 0 <= j < k ==> !specs[j].Unrecognized?
    ensures ScanPrefix(specs, k).Failure? ==>
      var n := ScanPrefix(specs, k).error.index;
      n < k && specs[n].Unrecognized? && forall j :: 0 <= j < n ==> !specs[j].Unrecognized?
    ensures ScanPrefix(specs, k).Success? ==> ScanMatches(specs, k, ScanPrefix(specs, k).value)
  {
    if k > 0 {
      ScanPrefixOutcome(specs, k - 1);
      var prev := ScanPrefix(specs, k - 1);
      if prev.Success? && !specs[k - 1].Unrecognized? {
        StepMatches(specs, k - 1, prev.value);
      }
    }
  }

  /** `to_sequential` raises exactly when some entry is neither a spec nor callable, naming the first. */
  lemma MaterializeFailure(specs: seq<Stage>, interval: Option<ArgValue>, flags: HelperFlags)
    ensures Materialize(specs, interval, flags).Failure? <==> exists j :: 0 <= j < |specs| && specs[j].Unrecognized?
    ensures Materialize(specs, interval, flags).Failure? ==>
      var n := Materialize(specs, interval, flags).error.index;
      n < |specs| && specs[n].Unrecognized? && forall j :: 0 <= j < n ==> !specs[j].Unrecognized?
  {
    ScanPrefixOutcome(specs, |specs|);
  }

  /**
   * One layer per spec, in order: a built module for a layer spec and for the
   * first spec of each tie key, a receiver for every later spec of that key,
   * a lambda for each adapter. Built modules are distinct, and the receivers
   * see the LAST spec of the list.
   */
  lemma MaterializeLayers(specs: seq<Stage>, interval: Option<ArgValue>, flags: HelperFlags)
    requires Materialize(specs, interval, flags).Success?
    ensures var q := Materialize(specs, interval, flags).value;
      && |q.layers| == |specs|
      && (forall j :: 0 <= j < |specs| ==> LayerFor(specs, j, q.layers[j]))
      && (forall i, j :: 0 <= i < j < |specs| && q.layers[i].Built? && q.layers[j].Built? ==>
            q.layers[i].id != q.layers[j].id)
      && q.boundSpec == (if |specs| == 0 then None else Some(specs[|specs| - 1]))
      && q.interval == interval && q.flags == flags
  {
    ScanPrefixOutcome(specs, |specs|);
  }

  /**
   * The registry has an entry for exactly the tie keys in the list, and that
   * entry holds one module: the one built for the key's first spec.
   */
  lemma MaterializeRegistry(specs: seq<Stage>, interval: Option<ArgValue>, flags: HelperFlags)
    requires Materialize(specs, interval, flags).Success?
    ensures var q := Materialize(specs, interval, flags).value;
      && |q.layers| == |specs|
      && (forall key :: key in q.tiedLayers <==> KeySeenBefore(specs, |specs|, key))
      && (forall j :: 0 <= j < |specs| && specs[j].Tied? && !KeySeenBefore(specs, j, specs[j].key) ==>
            && specs[j].key in q.tiedLayers && q.layers[j].Built?
            && q.tiedLayers[specs[j].key] == [q.layers[j].id])
  {
    ScanPrefixOutcome(specs, |specs|);
  }

  datatype CallError =
    /** the bound `spec` is not a tied spec and has no `forward_fn` (AttributeError) */
    | NoForwardFnAttribute
    /** `tied_layers[spec.key][0]` on an empty entry (IndexError) */
    | NoTiedModule
    /** the bound tied spec's `forward_fn` is None (TypeError) */
    | ForwardFnIsNone
    /** the combine function itself raised */
    | HelperFailed(error: HelperError)

  /**
   * Calling any receiver with `x`: `spec.forward_fn(tied_layers[spec.key][0], x)`
   * evaluated with `spec` bound to the last spec of the list; the combine
   * function is `_logits_helper`, reading the embedding module's weight and
   * the flags of the pipe that built the container.
   */
  function CallReceiver(q: Sequential, x: Value): Result<Value, CallError> {
    if q.boundSpec.None? || !q.boundSpec.value.Tied? then Failure(NoForwardFnAttribute)
    else
      var spec := q.boundSpec.value;
      if spec.key !in q.tiedLayers || |q.tiedLayers[spec.key]| == 0 then Failure(NoTiedModule)
      else if !spec.hasForwardFn then Failure(ForwardFnIsNone)
      else match LogitsHelper(q.flags.inference, q.flags.distillation, q.flags.parallelOutput,
                               Weight(q.tiedLayers[spec.key][0]), x)
        case Failure(e) => Failure(HelperFailed(e))
        case Success(v) => Success(v)
  }

  /** The module a receiver reads its weight from, when the call gets that far. */
  function ReceiverTarget(q: Sequential): (r: Option<nat>)
    ensures r.Some? <==>
      (q.boundSpec.Some? && q.boundSpec.value.Tied? &&
       q.boundSpec.value.key in q.tiedLayers && |q.tiedLayers[q.boundSpec.value.key]| > 0)
  {
    if q.boundSpec.Some? && q.boundSpec.value.Tied? && q.boundSpec.value.key in q.tiedLayers &&
       |q.tiedLayers[q.boundSpec.value.key]| > 0
    then Some(q.tiedLayers[q.boundSpec.value.key][0])
    else None
  }

  /** The first position at or after `i` of a tied spec under `key`, or `|specs|` when there is none. */
  function FirstTiedFrom(specs: seq<Stage>, key: string, i: nat): (r: nat)
    requires i <= |specs|
    ensures i <= r <= |specs|
    ensures r < |specs| ==> specs[r].Tied? && specs[r].key == key
    ensures forall j :: i <= j < r ==> !(specs[j].Tied? && specs[j].key == key)
    decreases |specs| - i
  {
    if i == |specs| then i
    else if specs[i].Tied? && specs[i].key == key then i
    else FirstTiedFrom(specs, key, i + 1)
  }

  /**
   * For ANY list whose last spec is tied, every receiver reads the module
   * built for the first spec under the last spec's key, wherever in the list
   * that spec stands and whichever key the receiver itself was declared with.
   */
  lemma ReceiversReadFirstOfLastKey(specs: seq<Stage>, interval: Option<ArgValue>, flags: HelperFlags)
    requires Materialize(specs, interval, flags).Success?
    requires |specs| > 0 && specs[|specs| - 1].Tied?
    ensures var key := specs[|specs| - 1].key;
      var j := FirstTiedFrom(specs, key, 0);
      var q := Materialize(specs, interval, flags).value;
      && j < |specs| && |q.layers| == |specs|
      && q.layers[j].Built? && q.layers[j].spec == specs[j]
      && q.boundSpec == Some(specs[|specs| - 1])
      && ReceiverTarget(q) == Some(q.layers[j].id)
  {
    var key := specs[|specs| - 1].key;
    var j := FirstTiedFrom(specs, key, 0);
    assert j < |specs|;
    assert !KeySeenBefore(specs, j, key);
    MaterializeLayers(specs, interval, flags);
    MaterializeRegistry(specs, interval, flags);
  }

  /**
   * A receiver call is `_logits_helper` applied to the weight of the module
   * registered under the LAST spec's key; it does not depend on which
   * receiver of the list is called.
   */
  lemma CallReceiverUsesLastSpec(q: Sequential, x: Value)
    requires q.boundSpec.Some? && q.boundSpec.value.Tied? && q.boundSpec.value.hasForwardFn
    requires ReceiverTarget(q).Some?
    ensures var h := LogitsHelper(q.flags.inference, q.flags.distillation, q.flags.parallelOutput,
                                  Weight(ReceiverTarget(q).value), x);
      CallReceiver(q, x) ==
        if h.Failure? then Failure(HelperFailed(h.error)) else Success(h.value)
  {
  }

  /** Once the walk has raised, it has raised with the same error for every longer prefix. */
  lemma {:induction false} ScanPrefixFailureStays(specs: seq<Stage>, k: nat)
    requires k <= |specs| && ScanPrefix(specs, k).Failure?
    ensures ScanPrefix(specs, |specs|) == ScanPrefix(specs, k)
    decreases |specs| - k
  {
    if k < |specs| {
      ScanPrefixFailureStays(specs, k + 1);
    }
  }
}
