/**
 * `GPT2ModelPipe`: the object whose construction fills its spec list stack by
 * stack, binds the loss function and the checkpoint interval, and which can
 * turn its spec list into a sequential container.
 */
module GPT2Model {
  import opened Wrappers
  import opened NeoxArguments
  import opened PipeValues
  import opened Stages
  import opened Assembly
  import opened Losses
  import opened Materializer

  /** `checkpoint_num_layers` when activations are checkpointed, 0 otherwise (lines 165-168). */
  function CheckpointInterval(config: Args): Option<ArgValue>
    requires HasAttributes(config)
  {
    if Truthy(config["checkpoint_activations"]) then config["checkpoint_num_layers"] else Some(ArgInt(0))
  }

  class GPT2ModelPipe {
    var neoxArgs: NeoxArgs
    var inference: bool
    var getKeyValue: bool
    var parallelOutput: bool
    var doDistillation: Option<ArgValue>
    var specs: seq<Stage>
    var hiddenSize: Option<ArgValue>
    var numTokentypes: int
    var fp16LmCrossEntropy: Option<ArgValue>
    var embeddingType: Option<ArgValue>
    /** what the pipeline runtime is handed as `loss_fn` */
    var lossFn: Option<LossFn>
    /** what the pipeline runtime is handed as `activation_checkpoint_interval` */
    var activationCheckpointInterval: Option<ArgValue>

    /**
     * The attribute assignments before the stack loop (lines 131-137). The
     * attributes the loop assigns later start from placeholders here.
     */
    constructor Init(neoxArgs: NeoxArgs, inference: bool, getKeyValue: bool, parallelOutput: bool)
      requires HasAttributes(neoxArgs.entries)
      ensures this.neoxArgs == neoxArgs && this.inference == inference
      ensures this.getKeyValue == (inference && getKeyValue)
      ensures this.parallelOutput == parallelOutput
      ensures doDistillation == neoxArgs.entries["do_distillation"]
      ensures specs == []
    {
      this.neoxArgs := neoxArgs;
      this.inference := inference;
      this.getKeyValue := if inference then getKeyValue else false;
      this.parallelOutput := parallelOutput;
      doDistillation := neoxArgs.entries["do_distillation"];
      specs := [];
      hiddenSize := None;
      numTokentypes := 0;
      fp16LmCrossEntropy := None;
      embeddingType := None;
      lossFn := None;
      activationCheckpointInterval := None;
    }

    /** The construction parameters every stack sees. */
    function Flags(): PipeFlags
      reads this`doDistillation, this`inference, this`getKeyValue, this`parallelOutput, this`numTokentypes
    {
      PipeFlags(Truthy(doDistillation), inference, getKeyValue, parallelOutput, numTokentypes)
    }

    /** What `_logits_helper` reads of the pipe (lines 285, 290-303). */
    function HelperFlagsOf(): HelperFlags
      reads this`doDistillation, this`inference, this`parallelOutput
    {
      HelperFlags(inference, Truthy(doDistillation), parallelOutput)
    }

    /** The attributes the loop of `__init__` sets from the current configuration before `init_specs`. */
    predicate Prepared()
      reads this, neoxArgs
    {
      && HasAttributes(neoxArgs.entries)
      && hiddenSize == neoxArgs.entries["hidden_size"]
      && embeddingType == neoxArgs.entries["pos_emb"]
    }

    /**
     * `init_specs` (lines 175-328): appends one stack for the current
     * configuration, keyed "embed" when the list was empty and "embed_s"
     * otherwise, sharing one freshly built bias object among its layers when
     * `pos_emb == 'rpe'`.
     */
    method InitSpecs() returns (r: Outcome<BuildError>, rpe: Option<RelativePositionBias>)
      requires Prepared()
      modifies this`specs, this`fp16LmCrossEntropy
      ensures fp16LmCrossEntropy == neoxArgs.entries["fp16_lm_cross_entropy"]
      ensures rpe.Some? <==> PosEmbIs(neoxArgs.entries, "rpe")
      ensures rpe.Some? ==> fresh(rpe.value) && rpe.value.causal
      ensures rpe.Some? ==> rpe.value.numBuckets == neoxArgs.entries["rpe_num_buckets"]
      ensures rpe.Some? ==> rpe.value.maxDistance == neoxArgs.entries["rpe_max_distance"]
      ensures rpe.Some? ==> rpe.value.heads == neoxArgs.entries["num_attention_heads"]
      ensures var st := Stack(StackParams(neoxArgs.entries, Flags(), |old(specs)| > 0, rpe));
        && (r.Fail? <==> st.Failure?)
        && (r.Fail? ==> r.error == st.error && specs == old(specs))
        && (r.Pass? ==> specs == old(specs) + st.value)
    {
      var config := neoxArgs.entries;
      rpe := None;
      if embeddingType == Some(ArgStr("rpe")) {
        var bias := new RelativePositionBias(config["rpe_num_buckets"], config["rpe_max_distance"],
                                             config["num_attention_heads"]);
        rpe := Some(bias);
      }
      fp16LmCrossEntropy := config["fp16_lm_cross_entropy"];
      var p := StackParams(config, Flags(), |specs| > 0, rpe);
      var added: seq<Stage> := [EmbeddingSpec(p), EntryAdapter(p.flags)];
      var count := LayerCount(config["num_layers"]);
      if count.None? {
        StackFailures(p);
        r := Fail(NumLayersNotInteger);
        return;
      }
      var x := 0;
      while x < count.value
        invariant 0 <= x <= count.value
        invariant added == [EmbeddingSpec(p), EntryAdapter(p.flags)] + TransformerSpecs(p, x)
      {
        added := added + [TransformerSpec(p, x)];
        x := x + 1;
      }
      added := added + [ExitAdapter(p.flags)];
      var selected := SelectNorm(config);
      if selected.None? {
        StackFailures(p);
        r := Fail(NormNotRecognized);
        return;
      }
      added := added + [NormSpec(p, selected.value.0, selected.value.1)] + [OutputSpec(p)];
      StackUnfolds(p, count.value, selected.value.0, selected.value.1);
      specs := specs + added;
      r := Pass;
    }

    /**
     * `__init__` (lines 130-173): rejects distillation in inference, applies
     * the teacher and then the student overlay to the ONE configuration
     * object, appends one stack per entry of `list_neox_args`, and binds the
     * loss function and the checkpoint interval.
     */
    static method New(neoxArgs: NeoxArgs, numTokentypes: int := 0, parallelOutput: bool := true,
                      inference: bool := false, getKeyValue: bool := true)
      returns (r: Result<GPT2ModelPipe, BuildError>, ghost rpes: seq<Option<RelativePositionBias>>)
      requires HasAttributes(neoxArgs.entries)
      modifies neoxArgs
      ensures var base := old(neoxArgs.entries);
        |rpes| == |ConfigList(base, neoxArgs.teacherModelArgs, neoxArgs.studentModelArgs)|
      ensures var base := old(neoxArgs.entries);
        neoxArgs.entries ==
          if Distilling(base) && !inference then FinalArgs(base, neoxArgs.teacherModelArgs, neoxArgs.studentModelArgs)
          else base
      ensures var base := old(neoxArgs.entries);
        var pl := Pipeline(base, neoxArgs.teacherModelArgs, neoxArgs.studentModelArgs,
                           inference, getKeyValue, parallelOutput, numTokentypes, rpes);
        && (r.Success? <==> pl.Success?)
        && (r.Failure? ==> r.error == pl.error)
        && (r.Success? ==> fresh(r.value) && r.value.specs == pl.value)
      ensures r.Success? ==>
        && HasAttributes(neoxArgs.entries)
        && r.value.neoxArgs == neoxArgs
        && r.value.lossFn == SelectLoss(neoxArgs.entries, Distilling(old(neoxArgs.entries)), inference)
        && r.value.activationCheckpointInterval == CheckpointInterval(neoxArgs.entries)
      ensures r.Success? ==>
        && r.value.inference == inference && r.value.getKeyValue == (inference && getKeyValue)
        && r.value.parallelOutput == parallelOutput && r.value.numTokentypes == numTokentypes
        && r.value.doDistillation == old(neoxArgs.entries)["do_distillation"]
        && (r.value.lossFn.None? <==> inference)
        && (r.value.lossFn.Some? ==> (r.value.lossFn.value.CombinedLossFn? <==> Distilling(old(neoxArgs.entries))))
      ensures r.Success? ==>
        && BiasesFor(ConfigList(old(neoxArgs.entries), neoxArgs.teacherModelArgs, neoxArgs.studentModelArgs), rpes)
        && DistinctBiases(rpes)
        && fresh(Biases(rpes))
    {
      var pipe := new GPT2ModelPipe.Init(neoxArgs, inference, getKeyValue, parallelOutput);
      if Truthy(pipe.doDistillation) && inference {
        rpes := [None, None];
        return Failure(DistillationInInference), rpes;
      }
      var outcome;
      outcome, rpes := pipe.Build(numTokentypes);
      if outcome.Fail? {
        return Failure(outcome.error), rpes;
      }
      r := Success(pipe);
    }

    /** Lines 142-173, past the inference check: the configuration list, the stacks, the loss and the interval. */
    method Build(numTokentypes: int) returns (r: Outcome<BuildError>, ghost rpes: seq<Option<RelativePositionBias>>)
      requires HasAttributes(neoxArgs.entries) && specs == []
      requires doDistillation == neoxArgs.entries["do_distillation"] && !(Truthy(doDistillation) && inference)
      modifies this, neoxArgs
      ensures neoxArgs == old(neoxArgs)
      ensures doDistillation == old(doDistillation) && inference == old(inference)
      ensures getKeyValue == old(getKeyValue) && parallelOutput == old(parallelOutput)
      ensures var base := old(neoxArgs.entries);
        |rpes| == |ConfigList(base, neoxArgs.teacherModelArgs, neoxArgs.studentModelArgs)|
      ensures var base := old(neoxArgs.entries);
        neoxArgs.entries ==
          if Distilling(base) then FinalArgs(base, neoxArgs.teacherModelArgs, neoxArgs.studentModelArgs) else base
      ensures var base := old(neoxArgs.entries);
        var a := Assemble(ConfigList(base, neoxArgs.teacherModelArgs, neoxArgs.studentModelArgs),
                          PipeFlags(Distilling(base), inference, getKeyValue, parallelOutput, numTokentypes), rpes);
        && (r.Fail? <==> a.Failure?)
        && (r.Fail? ==> r.error == a.error)
        && (r.Pass? ==> specs == a.value)
      ensures r.Pass? ==>
        && HasAttributes(neoxArgs.entries)
        && lossFn == SelectLoss(neoxArgs.entries, Distilling(old(neoxArgs.entries)), inference)
        && activationCheckpointInterval == CheckpointInterval(neoxArgs.entries)
        && this.numTokentypes == numTokentypes
      ensures r.Pass? ==>
        && BiasesFor(ConfigList(old(neoxArgs.entries), neoxArgs.teacherModelArgs, neoxArgs.studentModelArgs), rpes)
        && DistinctBiases(rpes)
        && fresh(Biases(rpes))
    {
      ghost var base := neoxArgs.entries;
      ghost var configs := ConfigList(base, neoxArgs.teacherModelArgs, neoxArgs.studentModelArgs);
      var config := neoxArgs;
      var list := ListNeoxArgs(config, Truthy(doDistillation));
      ghost var flags := PipeFlags(Distilling(base), inference, getKeyValue, parallelOutput, numTokentypes);
      r, rpes := BuildStacks(list, numTokentypes, configs, flags);
      assert neoxArgs == config;
      if r.Fail? {
        return;
      }
      BindRuntime();
    }

    /**
     * `list_neox_args` (lines 139-145): under distillation both overlays are
     * applied to the given object and the list holds that object twice.
     */
    static method ListNeoxArgs(neoxArgs: NeoxArgs, distillation: bool) returns (list: seq<NeoxArgs>)
      requires HasAttributes(neoxArgs.entries) && distillation == Distilling(neoxArgs.entries)
      modifies neoxArgs
      ensures list == if distillation then [neoxArgs, neoxArgs] else [neoxArgs]
      ensures var configs := ConfigList(old(neoxArgs.entries), neoxArgs.teacherModelArgs, neoxArgs.studentModelArgs);
        |list| == |configs| && forall j :: 0 <= j < |list| ==> list[j] == neoxArgs && list[j].entries == configs[j]
      ensures neoxArgs.entries ==
        if distillation then FinalArgs(old(neoxArgs.entries), neoxArgs.teacherModelArgs, neoxArgs.studentModelArgs)
        else old(neoxArgs.entries)
    {
      if distillation {
        var teacherView := SubstituteArgs(neoxArgs, false);
        OverlayKeepsAttributes(old(neoxArgs.entries), neoxArgs.teacherModelArgs);
        var studentView := SubstituteArgs(neoxArgs, true);
        list := [teacherView, studentView];
      } else {
        list := [neoxArgs];
      }
    }

    /**
     * The loop of lines 147-154: for each configuration object in turn, make
     * it current and append its stack.
     */
    method BuildStacks(list: seq<NeoxArgs>, numTokentypes: int, ghost configs: seq<Args>, ghost flags: PipeFlags)
      returns (r: Outcome<BuildError>, ghost rpes: seq<Option<RelativePositionBias>>)
      requires |list| == |configs| && specs == []
      requires forall j :: 0 <= j < |list| ==> list[j].entries == configs[j]
      requires AllConfigured(configs)
      requires flags == PipeFlags(Truthy(doDistillation), inference, getKeyValue, parallelOutput, numTokentypes)
      modifies this`neoxArgs, this`hiddenSize, this`numTokentypes, this`fp16LmCrossEntropy, this`embeddingType, this`specs
      ensures |rpes| == |configs|
      ensures var a := Assemble(configs, flags, rpes);
        && (r.Fail? <==> a.Failure?)
        && (r.Fail? ==> r.error == a.error)
        && (r.Pass? ==> specs == a.value)
      ensures neoxArgs == old(neoxArgs) || neoxArgs in list
      ensures r.Pass? && |list| > 0 ==>
        neoxArgs == list[|list| - 1] && fp16LmCrossEntropy == list[|list| - 1].entries["fp16_lm_cross_entropy"]
      ensures r.Pass? && |list| > 0 ==> this.numTokentypes == numTokentypes
      ensures r.Pass? ==> BiasesFor(configs, rpes) && DistinctBiases(rpes) && fresh(Biases(rpes))
    {
      rpes := [];
      assert configs[..0] == [];
      var i := 0;
      while i < |list|
        invariant 0 <= i <= |list| && |rpes| == i
        invariant i == 0 ==> neoxArgs == old(neoxArgs)
        invariant StacksAdded(list, configs, flags, rpes) && fresh(Biases(rpes))
      {
        var outcome, rpe := AddStack(list, i, numTokentypes, configs, flags, rpes);
        if outcome.Fail? {
          rpes := FailurePadded(configs, flags, rpes + [rpe]);
          return Fail(outcome.error), rpes;
        }
        rpes := rpes + [rpe];
        i := i + 1;
      }
      StacksAddedMeans(list, configs, flags, rpes);
      r := Pass;
    }

    /** After the last stack, the loop's state is what `BuildStacks` promises. */
    lemma StacksAddedMeans(list: seq<NeoxArgs>, configs: seq<Args>, flags: PipeFlags,
                           rpes: seq<Option<RelativePositionBias>>)
      requires |rpes| == |configs| == |list| && AllConfigured(configs)
      requires forall j :: 0 <= j < |list| ==> list[j].entries == configs[j]
      requires StacksAdded(list, configs, flags, rpes)
      ensures Assemble(configs, flags, rpes) == Success(specs)
      ensures |list| > 0 ==>
        neoxArgs == list[|list| - 1] && fp16LmCrossEntropy == list[|list| - 1].entries["fp16_lm_cross_entropy"]
        && numTokentypes == flags.numTokentypes
      ensures BiasesFor(configs, rpes) && DistinctBiases(rpes)
    {
      assert configs[..|list|] == configs;
      BiasPrefixMeans(configs, rpes);
    }

    /**
     * The state the loop of lines 147-154 has reached after the stacks of the
     * first |rpes| configurations: the last of them is current, the spec list
     * is their assembly with the biases `rpes`, and each bias is new and
     * belongs to its own configuration.
     */
    ghost predicate StacksAdded(list: seq<NeoxArgs>, configs: seq<Args>, flags: PipeFlags,
                                rpes: seq<Option<RelativePositionBias>>)
      requires |rpes| <= |configs| && AllConfigured(configs)
      reads this
    {
      && (|rpes| > 0 ==>
            && |rpes| <= |list|
            && neoxArgs == list[|rpes| - 1]
            && fp16LmCrossEntropy == configs[|rpes| - 1]["fp16_lm_cross_entropy"]
            && numTokentypes == flags.numTokentypes)
      && Assemble(configs[..|rpes|], flags, rpes) == Success(specs)
      && BiasPrefix(configs, rpes)
    }

    /**
     * One iteration of the loop of lines 147-154: the next configuration
     * object becomes current and its stack is appended, which extends the
     * assembly by one configuration.
     */
    method AddStack(list: seq<NeoxArgs>, i: nat, numTokentypes: int, ghost configs: seq<Args>, ghost flags: PipeFlags,
                    ghost rpes: seq<Option<RelativePositionBias>>)
      returns (r: Outcome<BuildError>, ghost rpe: Option<RelativePositionBias>)
      requires i == |rpes| < |configs| == |list| && list[i].entries == configs[i]
      requires AllConfigured(configs)
      requires flags == PipeFlags(Truthy(doDistillation), inference, getKeyValue, parallelOutput, numTokentypes)
      requires StacksAdded(list, configs, flags, rpes)
      modifies this`neoxArgs, this`hiddenSize, this`numTokentypes, this`fp16LmCrossEntropy, this`embeddingType, this`specs
      ensures neoxArgs == list[|rpes|]
      ensures r.Pass? ==> StacksAdded(list, configs, flags, rpes + [rpe])
      ensures r.Fail? ==> Assemble(configs[..|rpes| + 1], flags, rpes + [rpe]) == Failure(r.error)
      ensures Biases(rpes + [rpe]) == Biases(rpes) + (if rpe.Some? then {rpe.value} else {})
      ensures rpe.Some? ==> fresh(rpe.value)
    {
      var config := list[i];
      Prepare(config, numTokentypes);
      assert Flags() == flags;
      ghost var before := specs;
      r, rpe := InitSpecs();
      ghost var st := Stack(StackParams(configs[|rpes|], flags, |before| > 0, rpe));
      assert r.Pass? ==> specs == before + st.value;
      AssembleStep(configs, flags, rpes, rpe, |rpes|, before);
      if rpe.Some? {
        InBiases(rpes, rpe.value);
      }
      BiasPrefixStep(configs, rpes, rpe);
    }

    /** Lines 148-153: make `config` the current configuration and copy the attributes `init_specs` reads. */
    method Prepare(config: NeoxArgs, numTokentypes: int)
      requires HasAttributes(config.entries)
      modifies this`neoxArgs, this`hiddenSize, this`numTokentypes, this`fp16LmCrossEntropy, this`embeddingType
      ensures neoxArgs == config && this.numTokentypes == numTokentypes
      ensures hiddenSize == config.entries["hidden_size"] && embeddingType == config.entries["pos_emb"]
      ensures fp16LmCrossEntropy == config.entries["fp16_lm_cross_entropy"]
    {
      neoxArgs := config;
      hiddenSize := config.entries["hidden_size"];
      this.numTokentypes := numTokentypes;
      fp16LmCrossEntropy := config.entries["fp16_lm_cross_entropy"];
      embeddingType := config.entries["pos_emb"];
    }

    /** Lines 156-170: the loss function (none in inference) and the checkpoint interval handed to the runtime. */
    method BindRuntime()
      requires HasAttributes(neoxArgs.entries)
      requires fp16LmCrossEntropy == neoxArgs.entries["fp16_lm_cross_entropy"]
      modifies this`lossFn, this`activationCheckpointInterval
      ensures lossFn == SelectLoss(neoxArgs.entries, Truthy(doDistillation), inference)
      ensures activationCheckpointInterval == CheckpointInterval(neoxArgs.entries)
    {
      var config := neoxArgs.entries;
      if Truthy(doDistillation) {
        lossFn := Some(CombinedLossFn(config["alpha_lm"], config["alpha_kld"], config["alpha_mse"],
                                      Truthy(fp16LmCrossEntropy)));
      } else {
        lossFn := Some(CrossEntropyFn(Truthy(fp16LmCrossEntropy)));
      }
      if inference {
        lossFn := None;
      }
      if Truthy(config["checkpoint_activations"]) {
        activationCheckpointInterval := config["checkpoint_num_layers"];
      } else {
        activationCheckpointInterval := Some(ArgInt(0));
      }
    }

    /**
     * `to_sequential` (lines 332-360): the layers of the container, or the
     * error for an unrecognised entry. Its receivers call `_logits_helper`
     * with this pipe's `_inference`, `do_distillation` and `parallel_output`.
     */
    method ToSequential() returns (r: Result<Sequential, MaterializeError>)
      ensures r == Materialize(specs, activationCheckpointInterval, HelperFlagsOf())
    {
      var layers: seq<Layer> := [];
      var tiedLayers: map<string, seq<nat>> := map[];
      var built: nat := 0;
      var n := 0;
      while n < |specs|
        invariant 0 <= n <= |specs|
        invariant ScanPrefix(specs, n) == Success(Scan(layers, tiedLayers, built))
      {
        var spec := specs[n];
        match spec {
          case Tied(key, _, _, _) =>
            if key in tiedLayers {
              layers := layers + [Receiver];
            } else {
              layers := layers + [Built(built, spec)];
              tiedLayers := tiedLayers[key := [built]];
              built := built + 1;
            }
          case Regular(_, _) =>
            layers := layers + [Built(built, spec)];
            built := built + 1;
          case Adapter(which) =>
            layers := layers + [Function(which)];
          case Unrecognized(_) =>
            ScanPrefixFailureStays(specs, n + 1);
            return Failure(LayerNotRecognized(n));
        }
        n := n + 1;
      }
      r := Success(Sequential(layers, tiedLayers, if |specs| == 0 then None else Some(specs[|specs| - 1]),
                              activationCheckpointInterval, HelperFlagsOf()));
    }
  }

  /** The successful stack, one entry at a time in the order `init_specs` appends them. */
  lemma StackUnfolds(p: StackParams, n: nat, norm: NormClass, eps: Option<ArgValue>)
    requires HasAttributes(p.config)
    requires LayerCount(p.config["num_layers"]) == Some(n) && SelectNorm(p.config) == Some((norm, eps))
    ensures Stack(p) == Success([EmbeddingSpec(p), EntryAdapter(p.flags)] + TransformerSpecs(p, n) +
                                [ExitAdapter(p.flags)] + [NormSpec(p, norm, eps)] + [OutputSpec(p)])
  {
    var head := [EmbeddingSpec(p), EntryAdapter(p.flags)] + TransformerSpecs(p, n);
    var tail := [ExitAdapter(p.flags), NormSpec(p, norm, eps), OutputSpec(p)];
    assert head + [ExitAdapter(p.flags)] + [NormSpec(p, norm, eps)] + [OutputSpec(p)] == head + tail;
  }

  /** Appending the stack of configuration `i` extends the assembled prefix by it. */
  lemma AssembleStep(configs: seq<Args>, flags: PipeFlags, rpes: seq<Option<RelativePositionBias>>,
                     rpe: Option<RelativePositionBias>, i: nat, before: seq<Stage>)
    requires i < |configs| && |rpes| == i
    requires AllConfigured(configs)
    requires Assemble(configs[..i], flags, rpes) == Success(before)
    ensures var st := Stack(StackParams(configs[i], flags, |before| > 0, rpe));
      Assemble(configs[..i + 1], flags, rpes + [rpe]) ==
        if st.Failure? then Failure(st.error) else Success(before + st.value)
  {
    assert configs[..i + 1][..i] == configs[..i];
    assert (rpes + [rpe])[..i] == rpes;
    assert configs[..i + 1][i] == configs[i];
  }

  /**
   * The biases of a failed prefix, padded with `None` up to the length of
   * `configs`: the whole assembly fails as the prefix did.
   */
  ghost function FailurePadded(configs: seq<Args>, flags: PipeFlags, rpes: seq<Option<RelativePositionBias>>)
    : (padded: seq<Option<RelativePositionBias>>)
    requires |rpes| <= |configs| && AllConfigured(configs)
    requires Assemble(configs[..|rpes|], flags, rpes).Failure?
    ensures |padded| == |configs| && padded[..|rpes|] == rpes
    ensures Assemble(configs, flags, padded) == Assemble(configs[..|rpes|], flags, rpes)
  {
    var padded := rpes + seq(|configs| - |rpes|, _ => None);
    assert padded[..|rpes|] == rpes;
    AssembleFailureStays(configs, flags, padded, |rpes|);
    padded
  }

  /** A failed prefix fails the whole assembly with the same error. */
  lemma {:induction false} AssembleFailureStays(configs: seq<Args>, flags: PipeFlags,
                                                rpes: seq<Option<RelativePositionBias>>, k: nat)
    requires k <= |configs| == |rpes|
    requires AllConfigured(configs)
    requires Assemble(configs[..k], flags, rpes[..k]).Failure?
    ensures Assemble(configs, flags, rpes) == Assemble(configs[..k], flags, rpes[..k])
    decreases |configs|
  {
    if k == |configs| {
      assert configs[..k] == configs && rpes[..k] == rpes;
    } else {
      var n := |configs| - 1;
      var init, initRpes := configs[..n], rpes[..n];
      assert init[..k] == configs[..k] && initRpes[..k] == rpes[..k];
      assert AllConfigured(init) by {
        forall j | 0 <= j < n ensures HasAttributes(init[j]) {
          assert init[j] == configs[j];
        }
      }
      AssembleFailureStays(init, flags, initRpes, k);
      AssembleFailureExtends(configs, flags, rpes);
    }
  }

  /** A failed assembly stays failed, with the same error, when one more configuration follows. */
  lemma AssembleFailureExtends(configs: seq<Args>, flags: PipeFlags, rpes: seq<Option<RelativePositionBias>>)
    requires 0 < |configs| == |rpes| && AllConfigured(configs)
    requires AllConfigured(configs[..|configs| - 1])
    requires Assemble(configs[..|configs| - 1], flags, rpes[..|rpes| - 1]).Failure?
    ensures Assemble(configs, flags, rpes) == Assemble(configs[..|configs| - 1], flags, rpes[..|rpes| - 1])
  {
  }
}
