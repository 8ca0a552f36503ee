/**
 * The run configuration (`neox_args`) and the teacher/student overlay that
 * `substitue_args` performs on it in place.
 */
module NeoxArguments {
  import opened Wrappers

  /** A configuration attribute's value; `None` is represented by `Option.None`. */
  datatype ArgValue = ArgInt(i: int) | ArgReal(r: real) | ArgBool(b: bool) | ArgStr(s: string)

  /** The attribute dictionary of a configuration object (its `__dict__`). */
  type Args = map<string, Option<ArgValue>>

  /** The attributes the model reads; every configuration object defines all of them. */
  const AttributeNames: set<string> := {
    "do_distillation", "hidden_size", "fp16_lm_cross_entropy", "pos_emb",
    "no_weight_tying", "num_layers", "norm", "rms_norm_epsilon",
    "layernorm_epsilon", "scalenorm_epsilon", "padded_vocab_size",
    "max_position_embeddings", "hidden_dropout", "rpe_num_buckets",
    "rpe_max_distance", "num_attention_heads", "checkpoint_activations",
    "checkpoint_num_layers", "alpha_lm", "alpha_kld", "alpha_mse"
  }

  predicate HasAttributes(m: Args) {
    AttributeNames <= m.Keys
  }

  /** Python truthiness of an attribute value. */
  predicate Truthy(v: Option<ArgValue>) {
    match v
    case None => false
    case Some(ArgInt(i)) => i != 0
    case Some(ArgReal(r)) => r != 0.0
    case Some(ArgBool(b)) => b
    case Some(ArgStr(s)) => s != ""
  }

  /** The keys an override map actually sets (those whose value is not None). */
  function SetKeys(overrides: Args): set<string> {
    set k | k in overrides && overrides[k].Some?
  }

  /**
   * `base` with every non-None entry of `overrides` written over it: the
   * attribute dictionary after the loop of `substitue_args`.
   */
  function Overlay(base: Args, overrides: Args): (r: Args)
    ensures r.Keys == base.Keys + SetKeys(overrides)
    ensures forall k :: k in overrides && overrides[k].Some? ==> r[k] == overrides[k]
    ensures forall k :: k in base && k !in SetKeys(overrides) ==> r[k] == base[k]
  {
    map k | k in base.Keys + SetKeys(overrides) ::
      if k in overrides && overrides[k].Some? then overrides[k] else base[k]
  }

  /** The entries of `overrides` whose keys lie in `done`. */
  function Restrict(overrides: Args, done: set<string>): (r: Args)
    ensures r.Keys == overrides.Keys * done
    ensures forall k :: k in r ==> r[k] == overrides[k]
  {
    map k | k in overrides && k in done :: overrides[k]
  }

  /** What one call of `substitue_args` does to the dictionary. */
  function Substitute(m: Args, overrides: Args): (r: Args)
    requires "do_distillation" in m
    ensures !Truthy(m["do_distillation"]) ==> r == m
  {
    if Truthy(m["do_distillation"]) then Overlay(m, overrides) else m
  }

  /** A non-None override reaches the dictionary. */
  lemma OverlayTakesOverride(base: Args, overrides: Args, k: string)
    requires k in overrides && overrides[k].Some?
    ensures k in Overlay(base, overrides) && Overlay(base, overrides)[k] == overrides[k]
  {
  }

  /** A key whose override is None, or which the override map lacks, keeps its value. */
  lemma OverlayKeepsOthers(base: Args, overrides: Args, k: string)
    requires k !in overrides || overrides[k].None?
    ensures k in Overlay(base, overrides) <==> k in base
    ensures k in base ==> Overlay(base, overrides)[k] == base[k]
  {
  }

  /** Applying the same overlay twice is applying it once. */
  lemma OverlayIdempotent(base: Args, overrides: Args)
    ensures Overlay(Overlay(base, overrides), overrides) == Overlay(base, overrides)
  {
    var once := Overlay(base, overrides);
    var twice := Overlay(once, overrides);
    assert twice.Keys == once.Keys;
    forall k | k in once ensures twice[k] == once[k] {
      if k in SetKeys(overrides) {
        assert twice[k] == overrides[k] == once[k];
      }
    }
  }

  /**
   * `substitue_args` with the same role twice leaves the dictionary as one
   * call does, whether or not the overrides switch distillation off.
   */
  lemma SubstituteIdempotent(m: Args, overrides: Args)
    requires "do_distillation" in m
    ensures "do_distillation" in Substitute(m, overrides)
    ensures Substitute(Substitute(m, overrides), overrides) == Substitute(m, overrides)
  {
    if Truthy(m["do_distillation"]) {
      OverlayIdempotent(m, overrides);
    }
  }

  /** Of two successive overlays, the later one wins on every key it sets. */
  lemma OverlayLastWins(base: Args, first: Args, second: Args, k: string)
    requires k in second && second[k].Some?
    ensures Overlay(Overlay(base, first), second)[k] == second[k]
  {
  }

  /** An overlay only adds attributes; it never removes one. */
  lemma OverlayKeepsAttributes(base: Args, overrides: Args)
    requires HasAttributes(base)
    ensures HasAttributes(Overlay(base, overrides))
  {
  }

  /** Writing one more override key extends the partial overlay by that key. */
  lemma OverlayStep(base: Args, overrides: Args, done: set<string>, k: string)
    requires k in overrides && k !in done
    ensures Overlay(base, Restrict(overrides, done + {k})) ==
            if overrides[k].Some? then Overlay(base, Restrict(overrides, done))[k := overrides[k]]
            else Overlay(base, Restrict(overrides, done))
  {
    var before := Overlay(base, Restrict(overrides, done));
    var after := Overlay(base, Restrict(overrides, done + {k}));
    var expected := if overrides[k].Some? then before[k := overrides[k]] else before;
    assert SetKeys(Restrict(overrides, done + {k})) ==
      SetKeys(Restrict(overrides, done)) + (if overrides[k].Some? then {k} else {});
    assert after.Keys == expected.Keys;
    forall j | j in after ensures after[j] == expected[j] {
      if j == k {
      } else {
        assert j in SetKeys(Restrict(overrides, done + {k})) <==> j in SetKeys(Restrict(overrides, done));
      }
    }
  }

  /** A configuration object: its attribute dictionary and the two role overrides. */
  class NeoxArgs {
    var entries: Args
    const teacherModelArgs: Args
    const studentModelArgs: Args

    constructor (entries: Args, teacherModelArgs: Args, studentModelArgs: Args)
      ensures this.entries == entries
      ensures this.teacherModelArgs == teacherModelArgs
      ensures this.studentModelArgs == studentModelArgs
    {
      this.entries := entries;
      this.teacherModelArgs := teacherModelArgs;
      this.studentModelArgs := studentModelArgs;
    }
  }

  /**
   * `substitue_args`: under distillation, writes every non-None entry of the
   * chosen role's overrides into the configuration, and returns the SAME object.
   */
  method SubstituteArgs(neoxArgs: NeoxArgs, setStudentArgs: bool := true) returns (r: NeoxArgs)
    requires "do_distillation" in neoxArgs.entries
    modifies neoxArgs
    ensures r == neoxArgs
    ensures neoxArgs.entries == Substitute(old(neoxArgs.entries),
      if setStudentArgs then neoxArgs.studentModelArgs else neoxArgs.teacherModelArgs)
  {
    if Truthy(neoxArgs.entries["do_distillation"]) {
      var overrides := if setStudentArgs then neoxArgs.studentModelArgs else neoxArgs.teacherModelArgs;
      ghost var base := neoxArgs.entries;
      var pending := overrides.Keys;
      assert Restrict(overrides, {}) == map[];
      assert Overlay(base, map[]) == base;
      while pending != {}
        invariant pending <= overrides.Keys
        invariant neoxArgs.entries == Overlay(base, Restrict(overrides, overrides.Keys - pending))
        decreases pending
      {
        var arg :| arg in pending;
        OverlayStep(base, overrides, overrides.Keys - pending, arg);
        assert overrides.Keys - (pending - {arg}) == (overrides.Keys - pending) + {arg};
        if overrides[arg].Some? {
          neoxArgs.entries := neoxArgs.entries[arg := overrides[arg]];
        }
        pending := pending - {arg};
      }
      assert Restrict(overrides, overrides.Keys) == overrides;
    }
    r := neoxArgs;
  }
}
