/**
 * The spec list that `GPT2ModelPipe.__init__` and `init_specs` build, as pure
 * functions of the configuration: one stack per configuration, and the list
 * of configurations that distillation produces.
 */
module Assembly {
  import opened Wrappers
  import opened NeoxArguments
  import opened Stages

  /** Construction parameters that are fixed for the whole pipe. */
  datatype PipeFlags = PipeFlags(distillation: bool, inference: bool, getKeyValue: bool,
                                 parallelOutput: bool, numTokentypes: int)

  datatype BuildError =
    /** distillation requested together with inference (line 141) */
    | DistillationInInference
    /** `range(num_layers)` on a value that is not an integer */
    | NumLayersNotInteger
    /** `norm` left unbound by an unrecognised norm name (line 272) */
    | NormNotRecognized

  /** What one `init_specs` call reads besides the pipe's flags. */
  datatype StackParams = StackParams(config: Args, flags: PipeFlags, student: bool,
                                     rpe: Option<RelativePositionBias>)

  predicate PosEmbIs(config: Args, kind: string)
    requires HasAttributes(config)
  {
    config["pos_emb"] == Some(ArgStr(kind))
  }

  predicate WeightTying(config: Args)
    requires HasAttributes(config)
  {
    !Truthy(config["no_weight_tying"])
  }

  /** The number of iterations of `range(v)`; None when `range` raises. */
  function LayerCount(v: Option<ArgValue>): Option<nat> {
    match v
    case Some(ArgInt(i)) => Some(if i < 0 then 0 else i)
    case Some(ArgBool(b)) => Some(if b then 1 else 0)
    case _ => None
  }

  /** The norm class and epsilon chosen by the `norm` attribute; None when it matches no branch. */
  function SelectNorm(config: Args): (r: Option<(NormClass, Option<ArgValue>)>)
    requires HasAttributes(config)
    ensures r.Some? <==> config["norm"] in {Some(ArgStr("rmsnorm")), Some(ArgStr("layernorm")), Some(ArgStr("scalenorm"))}
    ensures config["norm"] == Some(ArgStr("rmsnorm")) ==> r == Some((RMSNorm, config["rms_norm_epsilon"]))
    ensures config["norm"] == Some(ArgStr("layernorm")) ==> r == Some((LayerNorm, config["layernorm_epsilon"]))
    ensures config["norm"] == Some(ArgStr("scalenorm")) ==> r == Some((ScaleNorm, config["scalenorm_epsilon"]))
  {
    if config["norm"] == Some(ArgStr("rmsnorm")) then Some((RMSNorm, config["rms_norm_epsilon"]))
    else if config["norm"] == Some(ArgStr("layernorm")) then Some((LayerNorm, config["layernorm_epsilon"]))
    else if config["norm"] == Some(ArgStr("scalenorm")) then Some((ScaleNorm, config["scalenorm_epsilon"]))
    else None
  }

  function EmbedKey(student: bool): string {
    if student then "embed_s" else "embed"
  }

  function EmbeddingClass(flags: PipeFlags): LayerClass {
    if flags.distillation then EmbeddingDistilPipe else EmbeddingPipe
  }

  function EmbeddingLayerArgs(p: StackParams): LayerArgs
    requires HasAttributes(p.config)
  {
    EmbeddingArgs(p.config, p.config["hidden_size"], p.config["padded_vocab_size"],
                  p.config["max_position_embeddings"], p.config["hidden_dropout"], p.flags.numTokentypes)
  }

  /** Lines 189-211. */
  function EmbeddingSpec(p: StackParams): Stage
    requires HasAttributes(p.config)
  {
    if WeightTying(p.config) then Tied(EmbedKey(p.student), EmbeddingClass(p.flags), EmbeddingLayerArgs(p), false)
    else Regular(EmbeddingClass(p.flags), EmbeddingLayerArgs(p))
  }

  /** Lines 222-227. */
  function EntryAdapter(flags: PipeFlags): Stage {
    Adapter(if flags.inference then ToSequenceMajorWithPresents else ToSequenceMajor)
  }

  /** The spec of transformer layer `x` (lines 231-243). */
  function TransformerSpec(p: StackParams, x: nat): Stage
    requires HasAttributes(p.config)
  {
    Regular(
      if p.flags.distillation then ParallelTransformerLayerDistilPipe else ParallelTransformerLayerPipe,
      TransformerArgs(p.config, x, if PosEmbIs(p.config, "rpe") then p.rpe else None,
                      PosEmbIs(p.config, "rotary"), p.flags.getKeyValue))
  }

  /** The specs the loop at line 230 appends after `n` iterations. */
  function TransformerSpecs(p: StackParams, n: nat): (r: seq<Stage>)
    requires HasAttributes(p.config)
    ensures |r| == n
  {
    if n == 0 then [] else TransformerSpecs(p, n - 1) + [TransformerSpec(p, n - 1)]
  }

  /** Lines 245-256. */
  function ExitAdapter(flags: PipeFlags): Stage {
    Adapter(
      if flags.inference then FromSequenceMajorWithPresents
      else if flags.distillation then FromSequenceMajorKeepRest
      else FromSequenceMajorBare)
  }

  /** Lines 270-274. */
  function NormSpec(p: StackParams, norm: NormClass, eps: Option<ArgValue>): Stage
    requires HasAttributes(p.config)
  {
    Regular(if p.flags.distillation then NormDistilPipe else NormPipe,
            NormArgs(norm, p.config["hidden_size"], eps))
  }

  /** Lines 306-328. */
  function OutputSpec(p: StackParams): Stage
    requires HasAttributes(p.config)
  {
    if WeightTying(p.config) then Tied(EmbedKey(p.student), EmbeddingClass(p.flags), EmbeddingLayerArgs(p), true)
    else Regular(if p.flags.distillation then ParallelLinearDistilPipe else ParallelLinearPipe,
                 LinearArgs(p.config, p.flags.parallelOutput))
  }

  /** The entries one `init_specs` call appends, or the error it raises. */
  function Stack(p: StackParams): (r: Result<seq<Stage>, BuildError>)
    requires HasAttributes(p.config)
    ensures r.Success? ==> LayerCount(p.config["num_layers"]).Some? && SelectNorm(p.config).Some?
    ensures r.Success? ==> |r.value| == LayerCount(p.config["num_layers"]).value + 5
  {
    match LayerCount(p.config["num_layers"])
    case None => Failure(NumLayersNotInteger)
    case Some(n) =>
      match SelectNorm(p.config)
      case None => Failure(NormNotRecognized)
      case Some((norm, eps)) =>
        Success([EmbeddingSpec(p), EntryAdapter(p.flags)] + TransformerSpecs(p, n) +
                [ExitAdapter(p.flags), NormSpec(p, norm, eps), OutputSpec(p)])
  }

  /** The loop appends one spec per layer, the `x`-th with `layer_number == x`. */
  lemma {:induction false} TransformerSpecsAt(p: StackParams, n: nat)
    requires HasAttributes(p.config)
    ensures |TransformerSpecs(p, n)| == n
    ensures forall x :: 0 <= x < n ==> TransformerSpecs(p, n)[x] == TransformerSpec(p, x)
  {
    if n > 0 {
      TransformerSpecsAt(p, n - 1);
    }
  }

  /** `init_specs` fails exactly when `range` rejects `num_layers` or the norm name is unknown. */
  lemma StackFailures(p: StackParams)
    requires HasAttributes(p.config)
    ensures LayerCount(p.config["num_layers"]).None? ==> Stack(p) == Failure(NumLayersNotInteger)
    ensures LayerCount(p.config["num_layers"]).Some? && SelectNorm(p.config).None? ==>
      Stack(p) == Failure(NormNotRecognized)
    ensures Stack(p).Success? <==> LayerCount(p.config["num_layers"]).Some? && SelectNorm(p.config).Some?
  {
  }

  /**
   * One `init_specs` call appends `num_layers + 5` entries: embedding,
   * entry adapter, the layers in order, exit adapter, norm, output.
   */
  lemma StackLayout(p: StackParams)
    requires HasAttributes(p.config) && Stack(p).Success?
    ensures var s := Stack(p).value;
      var n := LayerCount(p.config["num_layers"]).value;
      var (norm, eps) := SelectNorm(p.config).value;
      && |s| == n + 5
      && s[0] == EmbeddingSpec(p)
      && s[1] == EntryAdapter(p.flags)
      && (forall x :: 0 <= x < n ==> s[2 + x] == TransformerSpec(p, x))
      && s[n + 2] == ExitAdapter(p.flags)
      && s[n + 3] == NormSpec(p, norm, eps)
      && s[n + 4] == OutputSpec(p)
  {
    var n := LayerCount(p.config["num_layers"]).value;
    TransformerSpecsAt(p, n);
  }

  /**
   * The layer specs carry `layer_number` 0..n-1 in increasing order; all share
   * the stack's one bias object exactly when `pos_emb == 'rpe'`, and ask for
   * rotary embeddings exactly when `pos_emb == 'rotary'`.
   */
  lemma StackTransformerLayers(p: StackParams)
    requires HasAttributes(p.config) && Stack(p).Success?
    requires p.rpe.Some? <==> PosEmbIs(p.config, "rpe")
    ensures var s := Stack(p).value;
      var n := LayerCount(p.config["num_layers"]).value;
      forall i :: 2 <= i < n + 2 ==>
        && s[i].Regular? && s[i].args.TransformerArgs?
        && s[i].args.layerNumber == i - 2
        && (s[i].args.rpe.Some? <==> PosEmbIs(p.config, "rpe"))
        && s[i].args.rpe == (if PosEmbIs(p.config, "rpe") then p.rpe else None)
        && (s[i].args.rotary <==> PosEmbIs(p.config, "rotary"))
        && s[i].args.getKeyValue == p.flags.getKeyValue
  {
    var s := Stack(p).value;
    var n := LayerCount(p.config["num_layers"]).value;
    StackLayout(p);
    forall i | 2 <= i < n + 2 ensures s[i] == TransformerSpec(p, i - 2) {
      assert s[2 + (i - 2)] == TransformerSpec(p, i - 2);
    }
  }

  /** Positions of the tied specs with a given key. */
  function TiedPositions(s: seq<Stage>, key: string): set<nat> {
    set i: nat | i < |s| && s[i].Tied? && s[i].key == key
  }

  /**
   * With weight tying the embedding and the output of one stack are the only
   * tied specs, both under the stack's key, and only the output carries the
   * combine function; without tying the stack has no tied spec at all.
   */
  lemma StackTying(p: StackParams)
    requires HasAttributes(p.config) && Stack(p).Success?
    ensures var s := Stack(p).value;
      var n := LayerCount(p.config["num_layers"]).value;
      && (WeightTying(p.config) ==>
            && s[0].Tied? && s[0].key == EmbedKey(p.student) && !s[0].hasForwardFn
            && s[n + 4].Tied? && s[n + 4].key == EmbedKey(p.student) && s[n + 4].hasForwardFn
            && s[0].args == s[n + 4].args
            && TiedPositions(s, EmbedKey(p.student)) == {0, n + 4}
            && (forall k :: k != EmbedKey(p.student) ==> TiedPositions(s, k) == {})
            && (forall i :: 0 < i < |s| && i != n + 4 ==> !s[i].Tied?))
      && (!WeightTying(p.config) ==>
            && s[0].Regular? && s[n + 4].Regular?
            && s[n + 4].layer in {ParallelLinearPipe, ParallelLinearDistilPipe}
            && (forall k :: TiedPositions(s, k) == {})
            && (forall i :: 0 <= i < |s| ==> !s[i].Tied?))
  {
    var s := Stack(p).value;
    var n := LayerCount(p.config["num_layers"]).value;
    StackLayout(p);
    forall i | 0 < i < n + 4 ensures !s[i].Tied? {
      if 2 <= i < n + 2 {
        assert s[2 + (i - 2)] == TransformerSpec(p, i - 2);
      }
    }
    if WeightTying(p.config) {
      assert TiedPositions(s, EmbedKey(p.student)) == {0, n + 4};
    }
  }

  /**
   * The norm spec carries the epsilon that matches the chosen norm class.
   */
  lemma StackNorm(p: StackParams)
    requires HasAttributes(p.config) && Stack(p).Success?
    ensures var s := Stack(p).value;
      var n := LayerCount(p.config["num_layers"]).value;
      && s[n + 3].Regular? && s[n + 3].args.NormArgs?
      && s[n + 3].args.hiddenSize == p.config["hidden_size"]
      && (s[n + 3].args.norm == RMSNorm <==> p.config["norm"] == Some(ArgStr("rmsnorm")))
      && (s[n + 3].args.norm == RMSNorm ==> s[n + 3].args.eps == p.config["rms_norm_epsilon"])
      && (s[n + 3].args.norm == LayerNorm <==> p.config["norm"] == Some(ArgStr("layernorm")))
      && (s[n + 3].args.norm == LayerNorm ==> s[n + 3].args.eps == p.config["layernorm_epsilon"])
      && (s[n + 3].args.norm == ScaleNorm <==> p.config["norm"] == Some(ArgStr("scalenorm")))
      && (s[n + 3].args.norm == ScaleNorm ==> s[n + 3].args.eps == p.config["scalenorm_epsilon"])
  {
    StackLayout(p);
  }

  /** Every configuration of a list has the attributes `init_specs` reads. */
  predicate AllConfigured(configs: seq<Args>) {
    forall j :: 0 <= j < |configs| ==> HasAttributes(configs[j])
  }

  /**
   * The bias object of one stack: present exactly when `pos_emb == 'rpe'`,
   * causal, and built from the configuration's bucket, distance and head counts.
   */
  predicate BiasFor(config: Args, rpe: Option<RelativePositionBias>)
    requires HasAttributes(config)
  {
    && (rpe.Some? <==> PosEmbIs(config, "rpe"))
    && (rpe.Some? ==>
          && rpe.value.causal
          && rpe.value.numBuckets == config["rpe_num_buckets"]
          && rpe.value.maxDistance == config["rpe_max_distance"]
          && rpe.value.heads == config["num_attention_heads"])
  }

  /** One bias entry per configuration, each as `BiasFor` says. */
  predicate BiasesFor(configs: seq<Args>, rpes: seq<Option<RelativePositionBias>>) {
    && |rpes| == |configs|
    && forall j :: 0 <= j < |rpes| ==> HasAttributes(configs[j]) && BiasFor(configs[j], rpes[j])
  }

  /** No two stacks share a bias object. */
  predicate DistinctBiases(rpes: seq<Option<RelativePositionBias>>) {
    forall i, j :: 0 <= i < j < |rpes| && rpes[i].Some? && rpes[j].Some? ==> rpes[i].value != rpes[j].value
  }

  /** The bias objects a list of per-stack entries holds. */
  function Biases(rpes: seq<Option<RelativePositionBias>>): set<RelativePositionBias> {
    if |rpes| == 0 then {}
    else Biases(rpes[..|rpes| - 1]) + (if rpes[|rpes| - 1].Some? then {rpes[|rpes| - 1].value} else {})
  }

  /** An object is among the biases exactly when some entry holds it. */
  lemma {:induction false} InBiases(rpes: seq<Option<RelativePositionBias>>, b: RelativePositionBias)
    ensures b in Biases(rpes) <==> exists j :: 0 <= j < |rpes| && rpes[j] == Some(b)
    decreases |rpes|
  {
    if |rpes| > 0 {
      var n := |rpes| - 1;
      InBiases(rpes[..n], b);
      if exists j :: 0 <= j < n && rpes[..n][j] == Some(b) {
        var j :| 0 <= j < n && rpes[..n][j] == Some(b);
        assert rpes[j] == Some(b);
      }
      if exists j :: 0 <= j < |rpes| && rpes[j] == Some(b) {
        var j :| 0 <= j < |rpes| && rpes[j] == Some(b);
        if j < n {
          assert rpes[..n][j] == Some(b);
        }
      }
    }
  }

  /**
   * The bias facts stack by stack, in the order the loop establishes them:
   * each stack's entry is as `BiasFor` says and is a new object.
   */
  predicate BiasPrefix(configs: seq<Args>, rpes: seq<Option<RelativePositionBias>>)
    requires |rpes| <= |configs| && AllConfigured(configs)
  {
    if |rpes| == 0 then true
    else
      var n := |rpes| - 1;
      && BiasPrefix(configs, rpes[..n])
      && BiasFor(configs[n], rpes[n])
      && (rpes[n].Some? ==> rpes[n].value !in Biases(rpes[..n]))
  }

  /** One more stack with its own new bias object extends the stack-by-stack facts. */
  lemma BiasPrefixStep(configs: seq<Args>, rpes: seq<Option<RelativePositionBias>>, rpe: Option<RelativePositionBias>)
    requires |rpes| < |configs| && AllConfigured(configs) && BiasPrefix(configs, rpes)
    requires BiasFor(configs[|rpes|], rpe) && (rpe.Some? ==> rpe.value !in Biases(rpes))
    ensures BiasPrefix(configs, rpes + [rpe])
    ensures Biases(rpes + [rpe]) == Biases(rpes) + if rpe.Some? then {rpe.value} else {}
  {
    assert (rpes + [rpe])[..|rpes|] == rpes;
  }

  /** What the stack-by-stack bias facts amount to for the whole list. */
  lemma {:induction false} BiasPrefixMeans(configs: seq<Args>, rpes: seq<Option<RelativePositionBias>>)
    requires |rpes| == |configs| && AllConfigured(configs) && BiasPrefix(configs, rpes)
    ensures BiasesFor(configs, rpes) && DistinctBiases(rpes)
    ensures forall j :: 0 <= j < |rpes| && rpes[j].Some? ==> rpes[j].value in Biases(rpes)
    decreases |rpes|
  {
    if |rpes| > 0 {
      var n := |rpes| - 1;
      var init := configs[..n];
      assert AllConfigured(init) by {
        forall j | 0 <= j < n ensures HasAttributes(init[j]) {
          assert init[j] == configs[j];
        }
      }
      assert BiasPrefix(init, rpes[..n]) by {
        BiasPrefixOnPrefix(configs, init, rpes[..n]);
      }
      BiasPrefixMeans(init, rpes[..n]);
      forall j | 0 <= j < n ensures rpes[..n][j] == rpes[j] && init[j] == configs[j] {
      }
    }
  }

  /** The bias facts of a prefix depend only on as many configurations as there are entries. */
  lemma {:induction false} BiasPrefixOnPrefix(configs: seq<Args>, init: seq<Args>, rpes: seq<Option<RelativePositionBias>>)
    requires |rpes| <= |init| <= |configs| && init == configs[..|init|]
    requires AllConfigured(configs) && AllConfigured(init)
    requires BiasPrefix(configs, rpes)
    ensures BiasPrefix(init, rpes)
    decreases |rpes|
  {
    if |rpes| > 0 {
      var n := |rpes| - 1;
      BiasPrefixOnPrefix(configs, init, rpes[..n]);
      assert init[n] == configs[n];
    }
  }

  /** The stacks of a list of configurations, in order, as the loop at line 147 appends them. */

  function Assemble(configs: seq<Args>, flags: PipeFlags, rpes: seq<Option<RelativePositionBias>>)
    : Result<seq<Stage>, BuildError>
    requires |rpes| == |configs|
    requires AllConfigured(configs)
    decreases |configs|
  {
    if |configs| == 0 then Success([])
    else
      var before :- Assemble(configs[..|configs| - 1], flags, rpes[..|rpes| - 1]);
      var stack :- Stack(StackParams(configs[|configs| - 1], flags, |before| > 0, rpes[|rpes| - 1]));
      Success(before + stack)
  }

  predicate Distilling(base: Args)
    requires HasAttributes(base)
  {
    Truthy(base["do_distillation"])
  }

  /** The attribute dictionary after both `substitue_args` calls of line 142-143 (teacher, then student). */
  function FinalArgs(base: Args, teacher: Args, student: Args): (r: Args)
    requires HasAttributes(base)
    ensures HasAttributes(r)
  {
    var afterTeacher := Substitute(base, teacher);
    OverlayKeepsAttributes(base, teacher);
    var afterStudent := Substitute(afterTeacher, student);
    OverlayKeepsAttributes(afterTeacher, student);
    afterStudent
  }

  /**
   * `list_neox_args`: under distillation the SAME object twice, so both
   * entries show the dictionary after both overlays; otherwise the base.
   */
  function ConfigList(base: Args, teacher: Args, student: Args): (r: seq<Args>)
    requires HasAttributes(base)
    ensures AllConfigured(r)
    ensures |r| == if Distilling(base) then 2 else 1
  {
    if Distilling(base) then [FinalArgs(base, teacher, student), FinalArgs(base, teacher, student)] else [base]
  }

  /** The flags `__init__` fixes before the loop (lines 133-136). */
  function Flags(base: Args, inference: bool, getKeyValue: bool, parallelOutput: bool, numTokentypes: int): PipeFlags
    requires HasAttributes(base)
  {
    PipeFlags(Distilling(base), inference, if inference then getKeyValue else false, parallelOutput, numTokentypes)
  }

  /** The spec list `__init__` builds, or the error it raises. */
  function Pipeline(base: Args, teacher: Args, student: Args, inference: bool, getKeyValue: bool,
                    parallelOutput: bool, numTokentypes: int, rpes: seq<Option<RelativePositionBias>>)
    : Result<seq<Stage>, BuildError>
    requires HasAttributes(base)
    requires |rpes| == |ConfigList(base, teacher, student)|
  {
    if Distilling(base) && inference then Failure(DistillationInInference)
    else Assemble(ConfigList(base, teacher, student), Flags(base, inference, getKeyValue, parallelOutput, numTokentypes), rpes)
  }

  /** A one-configuration pipeline is one stack under the key "embed". */
  lemma AssembleOne(c: Args, flags: PipeFlags, r: Option<RelativePositionBias>)
    requires HasAttributes(c)
    ensures Assemble([c], flags, [r]) == Stack(StackParams(c, flags, false, r))
  {
    assert [c][..0] == [] && [r][..0] == [];
    assert Assemble([], flags, []) == Success([]);
    var st := Stack(StackParams(c, flags, false, r));
    if st.Success? {
      assert [] + st.value == st.value;
    }
  }

  /** A two-configuration pipeline is the first stack under "embed" followed by the second under "embed_s". */
  lemma AssembleTwo(c0: Args, c1: Args, flags: PipeFlags, r0: Option<RelativePositionBias>, r1: Option<RelativePositionBias>)
    requires HasAttributes(c0) && HasAttributes(c1)
    ensures var s0 := Stack(StackParams(c0, flags, false, r0));
      var s1 := Stack(StackParams(c1, flags, true, r1));
      Assemble([c0, c1], flags, [r0, r1]) ==
        if s0.Failure? then Failure(s0.error)
        else if s1.Failure? then Failure(s1.error)
        else Success(s0.value + s1.value)
  {
    assert [c0, c1][..1] == [c0] && [r0, r1][..1] == [r0];
    AssembleOne(c0, flags, r0);
    var s0 := Stack(StackParams(c0, flags, false, r0));
    if s0.Success? {
      StackLayout(StackParams(c0, flags, false, r0));
    }
  }

  /** Construction with distillation fails precisely when inference is requested; nothing is built then. */
  lemma PipelineRejectsDistilledInference(base: Args, teacher: Args, student: Args, inference: bool, getKeyValue: bool,
                                          parallelOutput: bool, numTokentypes: int, rpes: seq<Option<RelativePositionBias>>)
    requires HasAttributes(base)
    requires |rpes| == |ConfigList(base, teacher, student)|
    ensures Pipeline(base, teacher, student, inference, getKeyValue, parallelOutput, numTokentypes, rpes)
              == Failure(DistillationInInference)
            <==> Distilling(base) && inference
  {
    AssembleNeverRejectsDistillation(ConfigList(base, teacher, student),
                                     Flags(base, inference, getKeyValue, parallelOutput, numTokentypes), rpes);
  }

  /** Only the check of line 141 raises the distillation error; no stack does. */
  lemma {:induction false} AssembleNeverRejectsDistillation(configs: seq<Args>, flags: PipeFlags,
                                                             rpes: seq<Option<RelativePositionBias>>)
    requires |rpes| == |configs| && AllConfigured(configs)
    ensures Assemble(configs, flags, rpes) != Failure(DistillationInInference)
    decreases |configs|
  {
    if |configs| > 0 {
      var n := |configs| - 1;
      AssembleNeverRejectsDistillation(configs[..n], flags, rpes[..n]);
      var before := Assemble(configs[..n], flags, rpes[..n]);
      if before.Success? {
        StackFailures(StackParams(configs[n], flags, |before.value| > 0, rpes[n]));
      }
    }
  }

  /** Outside inference the layers never ask for key/value caching. */
  lemma GetKeyValueOnlyInInference(base: Args, inference: bool, getKeyValue: bool, parallelOutput: bool, numTokentypes: int)
    requires HasAttributes(base)
    ensures Flags(base, inference, getKeyValue, parallelOutput, numTokentypes).getKeyValue <==> inference && getKeyValue
  {
  }

  /** Without distillation the pipeline is a single stack keyed "embed", built from the unmodified configuration. */
  lemma PlainPipeline(base: Args, teacher: Args, student: Args, inference: bool, getKeyValue: bool,
                      parallelOutput: bool, numTokentypes: int, r: Option<RelativePositionBias>)
    requires HasAttributes(base) && !Distilling(base)
    ensures Pipeline(base, teacher, student, inference, getKeyValue, parallelOutput, numTokentypes, [r])
      == Stack(StackParams(base, Flags(base, inference, getKeyValue, parallelOutput, numTokentypes), false, r))
  {
    AssembleOne(base, Flags(base, inference, getKeyValue, parallelOutput, numTokentypes), r);
  }

  /**
   * In a one-configuration pipeline built with the biases `__init__` makes,
   * every transformer layer holds that configuration's bias: a bias object
   * exactly when `pos_emb == 'rpe'`, the same object in every layer.
   */
  lemma PlainPipelineLayersShareBias(base: Args, teacher: Args, student: Args, inference: bool, getKeyValue: bool,
                                     parallelOutput: bool, numTokentypes: int, rpes: seq<Option<RelativePositionBias>>)
    requires HasAttributes(base) && !Distilling(base)
    requires |rpes| == 1 && BiasesFor(ConfigList(base, teacher, student), rpes)
    requires Pipeline(base, teacher, student, inference, getKeyValue, parallelOutput, numTokentypes, rpes).Success?
    ensures var s := Pipeline(base, teacher, student, inference, getKeyValue, parallelOutput, numTokentypes, rpes).value;
      && LayerCount(base["num_layers"]).Some?
      && |s| == LayerCount(base["num_layers"]).value + 5
      && (rpes[0].Some? <==> PosEmbIs(base, "rpe"))
      && forall i :: 2 <= i < |s| - 3 ==> s[i].Regular? && s[i].args.TransformerArgs? && s[i].args.rpe == rpes[0]
  {
    var p := StackParams(base, Flags(base, inference, getKeyValue, parallelOutput, numTokentypes), false, rpes[0]);
    assert rpes == [rpes[0]];
    PlainPipeline(base, teacher, student, inference, getKeyValue, parallelOutput, numTokentypes, rpes[0]);
    assert BiasFor(ConfigList(base, teacher, student)[0], rpes[0]);
    StackLayout(p);
    StackTransformerLayers(p);
  }

  /**
   * Under distillation (and not inference) the pipeline is two stacks built
   * from ONE dictionary, the one after both overlays: a teacher stack keyed
   * "embed" and a student stack keyed "embed_s", of equal length.
   */
  lemma DistilledPipeline(base: Args, teacher: Args, student: Args, getKeyValue: bool,
                          parallelOutput: bool, numTokentypes: int, r0: Option<RelativePositionBias>, r1: Option<RelativePositionBias>)
    requires HasAttributes(base) && Distilling(base)
    ensures var cfg := FinalArgs(base, teacher, student);
      var flags := Flags(base, false, getKeyValue, parallelOutput, numTokentypes);
      var s0 := Stack(StackParams(cfg, flags, false, r0));
      var s1 := Stack(StackParams(cfg, flags, true, r1));
      var pl := Pipeline(base, teacher, student, false, getKeyValue, parallelOutput, numTokentypes, [r0, r1]);
      && (pl.Success? <==> s0.Success?)
      && (s0.Failure? ==> pl == Failure(s0.error))
      && (s0.Success? ==> s1.Success? && pl == Success(s0.value + s1.value) && |s0.value| == |s1.value|)
  {
    var cfg := FinalArgs(base, teacher, student);
    var flags := Flags(base, false, getKeyValue, parallelOutput, numTokentypes);
    AssembleTwo(cfg, cfg, flags, r0, r1);
    if Stack(StackParams(cfg, flags, false, r0)).Success? {
      StackLayout(StackParams(cfg, flags, false, r0));
      StackLayout(StackParams(cfg, flags, true, r1));
    }
  }

  /**
   * Because both entries of `list_neox_args` are the same object, a student
   * override reaches the TEACHER stack too (unless the teacher override has
   * switched distillation off, which skips the student overlay).
   */
  lemma StudentOverrideReachesTeacherStack(base: Args, teacher: Args, student: Args, k: string)
    requires HasAttributes(base) && Distilling(base)
    requires Truthy(Overlay(base, teacher)["do_distillation"])
    requires k in student && student[k].Some?
    ensures FinalArgs(base, teacher, student)[k] == student[k]
    ensures ConfigList(base, teacher, student)[0] == ConfigList(base, teacher, student)[1]
  {
  }

  /**
   * The tied keys of a distilled, weight-tied pipeline: "embed" at the
   * teacher's embedding and output, "embed_s" at the student's; each key
   * therefore occurs exactly twice, and no other key occurs.
   */
  lemma DistilledTiedPositions(base: Args, teacher: Args, student: Args, getKeyValue: bool,
                               parallelOutput: bool, numTokentypes: int, r0: Option<RelativePositionBias>, r1: Option<RelativePositionBias>)
    requires HasAttributes(base) && Distilling(base)
    requires WeightTying(FinalArgs(base, teacher, student))
    requires Pipeline(base, teacher, student, false, getKeyValue, parallelOutput, numTokentypes, [r0, r1]).Success?
    ensures var s := Pipeline(base, teacher, student, false, getKeyValue, parallelOutput, numTokentypes, [r0, r1]).value;
      var n := LayerCount(FinalArgs(base, teacher, student)["num_layers"]).value;
      && |s| == 2 * (n + 5)
      && TiedPositions(s, "embed") == {0, n + 4}
      && TiedPositions(s, "embed_s") == {n + 5, 2 * n + 9}
      && (forall k :: k != "embed" && k != "embed_s" ==> TiedPositions(s, k) == {})
      && !s[0].hasForwardFn && s[n + 4].hasForwardFn
      && !s[n + 5].hasForwardFn && s[2 * n + 9].hasForwardFn
  {
    var cfg := FinalArgs(base, teacher, student);
    var flags := Flags(base, false, getKeyValue, parallelOutput, numTokentypes);
    DistilledPipeline(base, teacher, student, getKeyValue, parallelOutput, numTokentypes, r0, r1);
    TwoStacksTiedPositions(StackParams(cfg, flags, false, r0), StackParams(cfg, flags, true, r1));
  }

  /** A teacher stack followed by a student stack, both weight-tied. */
  lemma TwoStacksTiedPositions(p0: StackParams, p1: StackParams)
    requires HasAttributes(p0.config) && HasAttributes(p1.config)
    requires Stack(p0).Success? && Stack(p1).Success?
    requires WeightTying(p0.config) && WeightTying(p1.config)
    requires !p0.student && p1.student
    ensures var s0 := Stack(p0).value;
      var s := s0 + Stack(p1).value;
      var n0 := |s0| - 5;
      var m := |s| - 1;
      && TiedPositions(s, "embed") == {0, n0 + 4}
      && TiedPositions(s, "embed_s") == {n0 + 5, m}
      && (forall k :: k != "embed" && k != "embed_s" ==> TiedPositions(s, k) == {})
      && !s[0].hasForwardFn && s[n0 + 4].hasForwardFn
      && !s[n0 + 5].hasForwardFn && s[m].hasForwardFn
  {
    var s0 := Stack(p0).value;
    var s1 := Stack(p1).value;
    var n0 := |s0| - 5;
    var n1 := |s1| - 5;
    StackTying(p0);
    StackTying(p1);
    TiedPositionsConcat(s0, s1, "embed");
    TiedPositionsConcat(s0, s1, "embed_s");
    assert ShiftPositions({}, |s0|) == {};
    assert ShiftPositions({0, n1 + 4}, |s0|) == {n0 + 5, |s0| + n1 + 4};
    forall k | k != "embed" && k != "embed_s" ensures TiedPositions(s0 + s1, k) == {} {
      TiedPositionsConcat(s0, s1, k);
    }
  }

  function ShiftPositions(ps: set<nat>, d: nat): set<nat> {
    set i | i in ps :: i + d
  }

  lemma TiedPositionsConcat(a: seq<Stage>, b: seq<Stage>, key: string)
    ensures TiedPositions(a + b, key) == TiedPositions(a, key) + ShiftPositions(TiedPositions(b, key), |a|)
  {
    var l := TiedPositions(a + b, key);
    var rr := TiedPositions(a, key) + ShiftPositions(TiedPositions(b, key), |a|);
    forall i | i in l ensures i in rr {
      if i >= |a| {
        var j: nat := i - |a|;
        assert (a + b)[i] == b[j];
        assert j in TiedPositions(b, key);
      }
    }
    forall i | i in rr ensures i in l {
      if i !in TiedPositions(a, key) {
        var j :| j in TiedPositions(b, key) && i == j + |a|;
        assert (a + b)[i] == b[j];
      }
    }
  }
}
