/**
 * What weight tying becomes once the spec list of a pipe is turned into a
 * sequential container: which built module each receiver lambda reads its
 * embedding weight from.
 */
module SequentialTying {
  import opened Wrappers
  import opened NeoxArguments
  import opened Stages
  import opened Assembly
  import opened Materializer

  /** No entry of a stack is something `to_sequential` rejects. */
  lemma StackRecognized(p: StackParams)
    requires HasAttributes(p.config) && Stack(p).Success?
    ensures forall i :: 0 <= i < |Stack(p).value| ==> !Stack(p).value[i].Unrecognized?
  {
    var s := Stack(p).value;
    var n := LayerCount(p.config["num_layers"]).value;
    StackLayout(p);
    forall i | 2 <= i < n + 2 ensures !s[i].Unrecognized? {
      assert s[2 + (i - 2)] == TransformerSpec(p, i - 2);
    }
  }

  /** No entry of an assembled spec list is something `to_sequential` rejects. */
  lemma {:induction false} AssembleRecognized(configs: seq<Args>, flags: PipeFlags, rpes: seq<Option<RelativePositionBias>>)
    requires |rpes| == |configs|
    requires AllConfigured(configs)
    requires Assemble(configs, flags, rpes).Success?
    ensures forall i :: 0 <= i < |Assemble(configs, flags, rpes).value| ==> !Assemble(configs, flags, rpes).value[i].Unrecognized?
    decreases |configs|
  {
    if |configs| > 0 {
      var init, last := configs[..|configs| - 1], configs[|configs| - 1];
      AssembleRecognized(init, flags, rpes[..|rpes| - 1]);
      var before := Assemble(init, flags, rpes[..|rpes| - 1]).value;
      var p := StackParams(last, flags, |before| > 0, rpes[|rpes| - 1]);
      StackRecognized(p);
      var s := before + Stack(p).value;
      forall i | 0 <= i < |s| ensures !s[i].Unrecognized? {
        if i >= |before| {
          assert s[i] == Stack(p).value[i - |before|];
        }
      }
    }
  }

  /** Every spec list `__init__` builds can be turned into a sequential container. */
  lemma PipelineMaterializes(base: Args, teacher: Args, student: Args, inference: bool, getKeyValue: bool,
                             parallelOutput: bool, numTokentypes: int, rpes: seq<Option<RelativePositionBias>>,
                             interval: Option<ArgValue>, flags: HelperFlags)
    requires HasAttributes(base)
    requires |rpes| == |ConfigList(base, teacher, student)|
    requires Pipeline(base, teacher, student, inference, getKeyValue, parallelOutput, numTokentypes, rpes).Success?
    ensures Materialize(Pipeline(base, teacher, student, inference, getKeyValue, parallelOutput, numTokentypes, rpes).value,
                        interval, flags).Success?
  {
    var s := Pipeline(base, teacher, student, inference, getKeyValue, parallelOutput, numTokentypes, rpes).value;
    AssembleRecognized(ConfigList(base, teacher, student), Flags(base, inference, getKeyValue, parallelOutput, numTokentypes), rpes);
    MaterializeFailure(s, interval, flags);
  }

  /**
   * One weight-tied stack: the embedding is built, the output becomes the only
   * receiver, and the receiver projects with the embedding module's weight.
   */
  lemma TiedStackSharesEmbedding(p: StackParams, interval: Option<ArgValue>, flags: HelperFlags)
    requires HasAttributes(p.config) && Stack(p).Success? && WeightTying(p.config)
    ensures var s := Stack(p).value;
      var n := |s| - 5;
      Materialize(s, interval, flags).Success? &&
      var q := Materialize(s, interval, flags).value;
      && |q.layers| == |s|
      && q.layers[0].Built? && q.layers[0].spec == s[0]
      && q.layers[n + 4] == Receiver
      && (forall j :: 0 <= j < |s| && j != n + 4 ==> q.layers[j] != Receiver)
      && q.boundSpec.Some? && q.boundSpec.value.Tied? && q.boundSpec.value.hasForwardFn
      && ReceiverTarget(q) == Some(q.layers[0].id)
  {
    var s := Stack(p).value;
    var n := |s| - 5;
    var key := EmbedKey(p.student);
    StackRecognized(p);
    StackTying(p);
    MaterializeFailure(s, interval, flags);
    MaterializeLayers(s, interval, flags);
    MaterializeRegistry(s, interval, flags);
    var q := Materialize(s, interval, flags).value;
    assert LayerFor(s, 0, q.layers[0]);
    assert KeySeenBefore(s, n + 4, key) by {
      assert s[0].Tied? && s[0].key == key;
    }
    assert LayerFor(s, n + 4, q.layers[n + 4]);
    forall j | 0 <= j < |s| && j != n + 4 ensures q.layers[j] != Receiver {
      assert LayerFor(s, j, q.layers[j]);
    }
  }

  /**
   * One untied stack: no receivers and an empty registry; the embedding and
   * the output projection are two distinct built modules.
   */
  lemma UntiedStackBuildsTwoModules(p: StackParams, interval: Option<ArgValue>, flags: HelperFlags)
    requires HasAttributes(p.config) && Stack(p).Success? && !WeightTying(p.config)
    ensures var s := Stack(p).value;
      var n := |s| - 5;
      Materialize(s, interval, flags).Success? &&
      var q := Materialize(s, interval, flags).value;
      && |q.layers| == |s|
      && (forall j :: 0 <= j < |s| ==> q.layers[j] != Receiver)
      && q.tiedLayers.Keys == {}
      && q.layers[0].Built? && q.layers[n + 4].Built? && q.layers[0].id != q.layers[n + 4].id
      && ReceiverTarget(q).None?
  {
    var s := Stack(p).value;
    var n := |s| - 5;
    StackRecognized(p);
    StackTying(p);
    MaterializeFailure(s, interval, flags);
    MaterializeLayers(s, interval, flags);
    MaterializeRegistry(s, interval, flags);
    var q := Materialize(s, interval, flags).value;
    forall j | 0 <= j < |s| ensures q.layers[j] != Receiver {
      assert LayerFor(s, j, q.layers[j]);
    }
    assert LayerFor(s, 0, q.layers[0]);
    assert LayerFor(s, n + 4, q.layers[n + 4]);
    forall key ensures key !in q.tiedLayers {
      forall j | 0 <= j < |s| ensures !(s[j].Tied? && s[j].key == key) {
        InTiedPositions(s, j, key);
      }
    }
  }

  /**
   * A list with two tie keys, each at exactly two positions, the first key's
   * pair before the second's, and the last entry a tied spec with a combine
   * function: the four tied entries are two built modules and two receivers,
   * and every receiver reads the module of the SECOND key.
   */
  lemma TwoTiesResolveToSecond(s: seq<Stage>, k1: string, k2: string, a: nat, b: nat, c: nat,
                               interval: Option<ArgValue>, flags: HelperFlags)
    requires a < b < c < |s| - 1 && k1 != k2
    requires Materialize(s, interval, flags).Success?
    requires TiedPositions(s, k1) == {a, b} && TiedPositions(s, k2) == {c, |s| - 1}
    requires s[|s| - 1].hasForwardFn
    ensures var q := Materialize(s, interval, flags).value;
      && |q.layers| == |s|
      && q.layers[a].Built? && q.layers[a].spec == s[a]
      && q.layers[c].Built? && q.layers[c].spec == s[c]
      && q.layers[a].id != q.layers[c].id
      && q.layers[b] == Receiver && q.layers[|s| - 1] == Receiver
      && q.boundSpec.Some? && q.boundSpec.value.Tied? && q.boundSpec.value.hasForwardFn
      && ReceiverTarget(q) == Some(q.layers[c].id)
  {
    var d := |s| - 1;
    FirstOfKeyIsBuilt(s, interval, flags, k1, a);
    FirstOfKeyIsBuilt(s, interval, flags, k2, c);
    LaterOfKeyIsReceiver(s, interval, flags, k1, a, b);
    LaterOfKeyIsReceiver(s, interval, flags, k2, c, d);
    InTiedPositions(s, d, k2);
    MaterializeLayers(s, interval, flags);
  }

  /** The first spec under a key is built, and the registry entry for the key is that module alone. */
  lemma FirstOfKeyIsBuilt(s: seq<Stage>, interval: Option<ArgValue>, flags: HelperFlags, key: string, j: nat)
    requires Materialize(s, interval, flags).Success?
    requires j < |s| && j in TiedPositions(s, key) && forall i :: i in TiedPositions(s, key) ==> j <= i
    ensures var q := Materialize(s, interval, flags).value;
      && |q.layers| == |s|
      && q.layers[j].Built? && q.layers[j].spec == s[j]
      && key in q.tiedLayers && q.tiedLayers[key] == [q.layers[j].id]
  {
    InTiedPositions(s, j, key);
    forall i | 0 <= i < j ensures !(s[i].Tied? && s[i].key == key) {
      InTiedPositions(s, i, key);
    }
    MaterializeLayers(s, interval, flags);
    MaterializeRegistry(s, interval, flags);
    assert LayerFor(s, j, Materialize(s, interval, flags).value.layers[j]);
  }

  /** A later spec under a key already seen becomes a receiver. */
  lemma LaterOfKeyIsReceiver(s: seq<Stage>, interval: Option<ArgValue>, flags: HelperFlags, key: string, i: nat, j: nat)
    requires Materialize(s, interval, flags).Success?
    requires i < j < |s| && i in TiedPositions(s, key) && j in TiedPositions(s, key)
    ensures var q := Materialize(s, interval, flags).value;
      |q.layers| == |s| && q.layers[j] == Receiver
  {
    InTiedPositions(s, i, key);
    InTiedPositions(s, j, key);
    assert KeySeenBefore(s, j, key);
    MaterializeLayers(s, interval, flags);
    assert LayerFor(s, j, Materialize(s, interval, flags).value.layers[j]);
  }

  lemma InTiedPositions(s: seq<Stage>, j: nat, key: string)
    requires j < |s|
    ensures j in TiedPositions(s, key) <==> s[j].Tied? && s[j].key == key
  {
  }

  /**
   * Distillation with weight tying: the teacher's and the student's output
   * stages both become receivers, and since every receiver resolves through
   * the last spec of the list, BOTH project with the student's embedding
   * module (built at the student stack's first position), never with the
   * teacher's.
   */
  lemma DistilledReceiversUseStudentEmbedding(base: Args, teacher: Args, student: Args, getKeyValue: bool,
                                              parallelOutput: bool, numTokentypes: int,
                                              r0: Option<RelativePositionBias>, r1: Option<RelativePositionBias>,
                                              interval: Option<ArgValue>, flags: HelperFlags)
    requires HasAttributes(base) && Distilling(base)
    requires WeightTying(FinalArgs(base, teacher, student))
    requires Pipeline(base, teacher, student, false, getKeyValue, parallelOutput, numTokentypes, [r0, r1]).Success?
    ensures var s := Pipeline(base, teacher, student, false, getKeyValue, parallelOutput, numTokentypes, [r0, r1]).value;
      var n := LayerCount(FinalArgs(base, teacher, student)["num_layers"]).value;
      |s| == 2 * (n + 5) &&
      Materialize(s, interval, flags).Success? &&
      var q := Materialize(s, interval, flags).value;
      && |q.layers| == |s|
      && q.layers[0].Built? && q.layers[0].spec == s[0]
      && q.layers[n + 5].Built? && q.layers[n + 5].spec == s[n + 5]
      && q.layers[0].id != q.layers[n + 5].id
      && q.layers[n + 4] == Receiver && q.layers[2 * n + 9] == Receiver
      && q.boundSpec.Some? && q.boundSpec.value.Tied? && q.boundSpec.value.hasForwardFn
      && ReceiverTarget(q) == Some(q.layers[n + 5].id)
  {
    var s := Pipeline(base, teacher, student, false, getKeyValue, parallelOutput, numTokentypes, [r0, r1]).value;
    var n := LayerCount(FinalArgs(base, teacher, student)["num_layers"]).value;
    DistilledTiedPositions(base, teacher, student, getKeyValue, parallelOutput, numTokentypes, r0, r1);
    PipelineMaterializes(base, teacher, student, false, getKeyValue, parallelOutput, numTokentypes, [r0, r1], interval, flags);
    TwoTiesResolveToSecond(s, "embed", "embed_s", 0, n + 4, n + 5, interval, flags);
  }
}
