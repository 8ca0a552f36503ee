# GPT-2 pipeline model: spec list assembly, weight tying and losses

This project models the layer-composition core of `GPT2ModelPipe`, a GPT-2 model flattened for pipeline parallelism, with optional teacher–student distillation. It models these parts:

- **Configuration overlay.** `substitue_args` writes the teacher's or the student's non-None overrides into the one configuration object, in place.
- **Construction.** `__init__` rejects distillation in inference. It builds the configuration list, runs one `init_specs` per entry, binds the loss function and picks the activation-checkpoint interval.
- **One stack.** `init_specs` appends these entries, in order:
  - the embedding (a tied spec keyed `"embed"` or `"embed_s"` under weight tying);
  - the entry format adapter;
  - `num_layers` transformer layer specs;
  - the exit format adapter;
  - the final norm;
  - the output head (a tied spec carrying `_logits_helper`, or a parallel linear layer).
- **Format adapters and `_logits_helper`.** These are the lambdas that transpose hidden states between batch-major and sequence-major layouts, and the code that projects onto the vocabulary.
- **`to_sequential`.** This walks the spec list. It builds each spec and registers the first module of each tie key. It turns later specs under the same key into receiver lambdas and rejects anything unrecognised.
- **Losses.** `cross_entropy`, `kldiv_loss` and `mse_loss` are masked means of per-token losses, and `combined_loss` gates each weighted term on its alpha.

Tensors are opaque values with an identity and a shape. The vocabulary-parallel numeric primitives and `fp16_to_fp32` are uninterpreted parameters, applied to the values each loss function applies them to, in its order. Built modules are identified by the order of their `build` call.

The model follows the code as written, including in these places where a reader might expect something else:

- Both entries of `list_neox_args` are the same object. Every stack is therefore built from the dictionary after BOTH overlays, and a student override also reaches the teacher stack (`Assembly.StudentOverrideReachesTeacherStack`). A reader might expect two separately derived configurations; the code puts one object in the list twice.
- A reader might expect each role to tie its own input and output embedding. Instead, every receiver lambda reads the loop variable `spec` when it is *called*. That variable is the last spec of the list. So under distillation with weight tying, the teacher's output head also projects with the student's embedding module (`SequentialTying.DistilledReceiversUseStudentEmbedding`).
- `mse_loss` calls the KL-divergence primitive, not a squared-error one. Outside `_fp16` it upcasts the labels only after that call, so the primitive sees them un-upcast (`Losses.MseLossIsKlDivLoss`, `Losses.MseLossIgnoresLabelUpcast`).
- Under distillation, `_logits_helper` projects the whole `lm_output` tuple. It computes `lm_output[0]` and never uses it (`Stages.DistillationLogitsUseWholeTuple`).
- If `alpha_lm <= 0`, `combined_loss` never binds `loss`. It then raises instead of skipping the term (`Losses.CombinedLossNeedsAlphaLm`).

Modules:

- `wrappers.dfy`: Option, Result and Outcome.
- `neox_args.dfy`: the configuration and `substitue_args`.
- `pipe_values.dfy`: stage values and the transpose.
- `stages.dfy`: spec-list entries, the adapters and `_logits_helper`.
- `assembly.dfy`: `init_specs` and the configuration list as functions.
- `losses.dfy`: the loss functions.
- `materializer.dfy`: `to_sequential` as a function.
- `sequential_tying.dfy`: what tying becomes after materialisation.
- `gpt2_model.dfy`: the `GPT2ModelPipe` class, whose methods update its fields and are proved against the functions above.

## Model

| member | source | states |
|---|---|---|
| NeoxArguments.Overlay | ignore/gpt2_model.py:118-120 | the partial overlay that the loop body builds; its promises are carried by OverlayTakesOverride, OverlayKeepsOthers, OverlayKeepsAttributes, OverlayIdempotent, OverlayLastWins and OverlayStep |
| NeoxArguments.Substitute | ignore/gpt2_model.py:114-121 | `substitue_args` on values; its promises are carried by SubstituteIdempotent and OverlayIdempotent, and SubstituteArgs is proved against it |
| NeoxArguments.SubstituteArgs | ignore/gpt2_model.py:114-121 | the loop over the chosen role's override keys leaves the object's dictionary equal to the overlay of the student (or teacher) overrides when distilling and unchanged otherwise, and returns the same object it was given |
| NeoxArguments.OverlayTakesOverride | ignore/gpt2_model.py:119-120 | an override that is not None is present in the result with the override's value |
| NeoxArguments.OverlayKeepsOthers | ignore/gpt2_model.py:118-120 | a key whose override is None or absent is present after the overlay exactly when it was before, with its old value |
| NeoxArguments.SubstituteIdempotent | ignore/gpt2_model.py:114-121 | calling `substitue_args` twice with the same overrides leaves the configuration as one call does, whether or not `do_distillation` is set |
| NeoxArguments.OverlayIdempotent | ignore/gpt2_model.py:114-121 | substituting the same role twice is the same as substituting it once |
| NeoxArguments.OverlayLastWins | ignore/gpt2_model.py:142-143 | of the teacher overlay followed by the student overlay, the student's value wins on every key the student sets |
| NeoxArguments.OverlayKeepsAttributes | ignore/gpt2_model.py:118-120 | an overlay never removes an attribute, so a complete configuration stays complete |
| NeoxArguments.OverlayStep | ignore/gpt2_model.py:118-120 | writing one more override key extends the partial overlay by exactly that key (or by nothing if its value is None) |
| PipeValues.TransposeInvolution | ignore/gpt2_model.py:225-256 | transposing twice gives back the original value, so the exit adapter undoes the entry adapter |
| PipeValues.TransposeKeepsTransposable | ignore/gpt2_model.py:225-256 | a transposed hidden state can be transposed again, so the exit adapter never fails on what the entry adapter produced |
| PipeValues.TransposeShape | ignore/gpt2_model.py:220 | a `[b, s, h]` tensor becomes `[s, b, h]` |
| Stages.RelativePositionBias.constructor | ignore/gpt2_model.py:177-180 | the bias object is causal and carries the configured bucket count, maximum distance and head count |
| Stages.Adapt | ignore/gpt2_model.py:222-256 | the four format adapters; their promises are carried by AdapterErrors, ForwardTrainingArity, ForwardInferenceArity, ReverseAdapters, TrainingRoundTrip, DistillationRoundTrip and InferenceRoundTrip |
| Stages.AdapterErrors | ignore/gpt2_model.py:222-256 | a format adapter raises on an empty tuple, on a hidden state `x[0]` that cannot be transposed, and on a tuple too short for the indexes it reads (fewer than two items for the inference entry adapter, fewer than three for the inference exit adapter); every other input succeeds |
| Stages.ForwardTrainingArity | ignore/gpt2_model.py:227 | the training entry adapter keeps the arity, transposes item 0 and passes the other items through unchanged |
| Stages.ForwardInferenceArity | ignore/gpt2_model.py:225 | the inference entry adapter transposes item 0, keeps `layer_past`, inserts the empty `presents` placeholder at index 2 and shifts the rest up by one |
| Stages.ReverseAdapters | ignore/gpt2_model.py:245-256 | the exit adapters give `(x[0]^T, x[2])` in inference (raising on fewer than three items), `(x[0]^T, *x[1:])` under distillation and `x[0]^T` otherwise |
| Stages.TrainingRoundTrip | ignore/gpt2_model.py:227-256 | for a transposable hidden state, in plain training the entry adapter followed by the exit adapter gives back the hidden state `x[0]` |
| Stages.DistillationRoundTrip | ignore/gpt2_model.py:227-253 | for a transposable hidden state, under distillation the entry adapter followed by the exit adapter gives back the whole tuple |
| Stages.InferenceRoundTrip | ignore/gpt2_model.py:225-249 | for a transposable hidden state and a tuple of at least two items, in inference the entry adapter followed by the exit adapter gives `(x[0], presents placeholder)` |
| Stages.LogitsHelper | ignore/gpt2_model.py:283-304 | `_logits_helper`; its promises are carried by LogitsHelperModes and DistillationLogitsUseWholeTuple |
| Stages.LogitsHelperModes | ignore/gpt2_model.py:283-304 | `_logits_helper` returns `(logits, presents)` for an inference pair, `(logits, lm_output[1:])` under distillation, and bare logits in plain training and for an inference output that is not a pair, always projecting with the embedding's weight |
| Stages.DistillationLogitsUseWholeTuple | ignore/gpt2_model.py:292-298 | under distillation the projected value is the whole tuple, never its hidden state `lm_output[0]` |
| Assembly.Stack | ignore/gpt2_model.py:175-328 | a successful `init_specs` needs an integer (or bool) `num_layers` and a recognised norm, which must be "rmsnorm", "layernorm" or "scalenorm"; it appends `max(num_layers, 0) + 5` entries, so a negative `num_layers` gives 5 |
| Assembly.TransformerSpecsAt | ignore/gpt2_model.py:230-243 | the layer loop appends one spec per iteration, the `x`-th spec built for `layer_number == x` |
| Assembly.StackFailures | ignore/gpt2_model.py:230-274 | `init_specs` fails with the `range` error exactly when `num_layers` is not an integer, and otherwise with the unbound-norm error exactly when the norm name is unknown |
| Assembly.StackLayout | ignore/gpt2_model.py:189-328 | a stack is, in order, the embedding, the entry adapter, the layers 0..n-1, the exit adapter, the norm and the output head |
| Assembly.StackTransformerLayers | ignore/gpt2_model.py:229-243 | the layer specs carry `layer_number` 0..n-1 in order; all share the stack's one bias object exactly when `pos_emb == 'rpe'` and ask for rotary embeddings exactly when `pos_emb == 'rotary'`; all carry the pipe's `get_key_value` |
| Assembly.StackTying | ignore/gpt2_model.py:189-211 | under weight tying the embedding and the output head are the stack's only tied specs, both under the stack's key and with the same constructor arguments, and only the output carries the combine function; without tying there is no tied spec and the head is a parallel linear layer |
| Assembly.SelectNorm | ignore/gpt2_model.py:258-274 | the norm class and epsilon `init_specs` picks; its promises are carried by StackNorm and StackFailures |
| Assembly.StackNorm | ignore/gpt2_model.py:258-274 | the norm spec carries the hidden size and the epsilon that belongs to the chosen norm class |
| Assembly.FinalArgs | ignore/gpt2_model.py:142-143 | the dictionary after the teacher overlay and then the student overlay still defines every attribute the model reads |
| Assembly.ConfigList | ignore/gpt2_model.py:139-145 | the configuration list has two entries under distillation and one otherwise, each defining every attribute the model reads |
| Assembly.Assemble | ignore/gpt2_model.py:147-154 | the stack loop on values; its promises are carried by AssembleOne, AssembleTwo and AssembleNeverRejectsDistillation, and BuildStacks is proved against it |
| Assembly.Pipeline | ignore/gpt2_model.py:139-154 | the spec list `__init__` builds; its promises are carried by PipelineRejectsDistilledInference, PlainPipeline, DistilledPipeline, PlainPipelineLayersShareBias, StudentOverrideReachesTeacherStack and DistilledTiedPositions, and New is proved against it |
| Assembly.AssembleOne | ignore/gpt2_model.py:144-154 | a one-entry list assembles to the single stack keyed "embed" |
| Assembly.AssembleTwo | ignore/gpt2_model.py:142-154 | a two-entry list assembles to the first stack keyed "embed" followed by the second keyed "embed_s", failing with the first stack's error first |
| Assembly.PipelineRejectsDistilledInference | ignore/gpt2_model.py:139-141 | construction fails with the distillation-in-inference error if and only if distillation and inference are both requested |
| Assembly.AssembleNeverRejectsDistillation | ignore/gpt2_model.py:147-154 | no stack of the loop raises the distillation-in-inference error; only the check before the loop does |
| Assembly.GetKeyValueOnlyInInference | ignore/gpt2_model.py:134 | the layers ask for key/value caching exactly when in inference with `get_key_value` set |
| Assembly.PlainPipelineLayersShareBias | ignore/gpt2_model.py:175-243 | in a one-configuration pipeline built with the biases construction makes, the spec list has `max(num_layers, 0) + 5` entries and every transformer layer spec holds that configuration's bias, which is a bias object exactly when `pos_emb == 'rpe'` |
| Assembly.PlainPipeline | ignore/gpt2_model.py:144-154 | without distillation the spec list is one stack keyed "embed", built from the unmodified configuration |
| Assembly.DistilledPipeline | ignore/gpt2_model.py:142-154 | under distillation the spec list is a teacher stack and a student stack of equal length, both built from the one dictionary after both overlays; it fails exactly when the teacher stack fails |
| Assembly.StudentOverrideReachesTeacherStack | ignore/gpt2_model.py:142-145 | both list entries are the same configuration, so a student override is in effect for the teacher stack too |
| Assembly.DistilledTiedPositions | ignore/gpt2_model.py:189-193 | in a distilled, weight-tied spec list "embed" occurs exactly at the teacher's embedding and head, "embed_s" exactly at the student's, and no other key occurs; only the heads carry the combine function |
| Assembly.TwoStacksTiedPositions | ignore/gpt2_model.py:190-193 | a weight-tied teacher stack followed by a weight-tied student stack has each key at exactly two positions, the student's shifted by the teacher stack's length |
| Losses.BoundLossComputes | ignore/gpt2_model.py:156-163 | in inference no loss is bound; otherwise the bound loss computes `combined_loss` with the configured `alpha_lm`, `alpha_kld` and `alpha_mse` under distillation, and `cross_entropy` without it |
| Losses.MaskedMean | ignore/gpt2_model.py:64-65 | it fails exactly on a length mismatch and is non-finite exactly for a zero mask sum; its value is carried by MaskedMeanIsAverage, ZeroLossesGiveZero and AllOnesMaskIsMean |
| Losses.CrossEntropy | ignore/gpt2_model.py:47-66 | `cross_entropy`, upcasting only the output outside `_fp16`; its promises are carried by MaskedMean's lemmas and by CombinedLossLanguageModelOnly |
| Losses.KlDivLoss | ignore/gpt2_model.py:68-80 | `kldiv_loss`, upcasting both inputs outside `_fp16`; it is the partner of MseLoss in MseLossIsKlDivLoss |
| Losses.MseLoss | ignore/gpt2_model.py:82-94 | `mse_loss` as written; its promises are carried by MseLossIsKlDivLoss and MseLossIgnoresLabelUpcast |
| Losses.CombinedLoss | ignore/gpt2_model.py:96-112 | `combined_loss`; its promises are carried by CombinedLossNeedsAlphaLm, CombinedLossLanguageModelOnly, CombinedLossSkipsDisabledTerms and CombinedLossAllTerms |
| Losses.SelectLoss | ignore/gpt2_model.py:156-163 | the loss function `__init__` binds; its promises are carried by BoundLossComputes and by the loss clauses of New |
| Losses.MaskedMeanIsAverage | ignore/gpt2_model.py:64-65 | with a non-negative mask of positive sum, the loss is finite and lies between the least and the greatest per-token loss |
| Losses.ZeroLossesGiveZero | ignore/gpt2_model.py:64-65 | zero per-token losses give a zero loss whenever the mask sum is nonzero |
| Losses.AllOnesMaskIsMean | ignore/gpt2_model.py:64-65 | with an all-ones mask the loss is the arithmetic mean of the per-token losses |
| Losses.MseLossIsKlDivLoss | ignore/gpt2_model.py:68-94 | `mse_loss` never depends on the squared-error primitive; it equals `kldiv_loss` under `_fp16`, and outside it whenever `fp16_to_fp32` leaves the teacher logits as they are |
| Losses.MseLossIgnoresLabelUpcast | ignore/gpt2_model.py:89-91 | outside `_fp16`, what `fp16_to_fp32` does to the teacher logits has no effect on `mse_loss`, because they are upcast only after the KL call |
| Losses.CombinedLossNeedsAlphaLm | ignore/gpt2_model.py:96-112 | with `alpha_lm <= 0` the combined loss never succeeds: `loss` is unbound, or a term's shapes mismatch first |
| Losses.CombinedLossLanguageModelOnly | ignore/gpt2_model.py:100-102 | with `alpha_kld` and `alpha_mse` not positive, the combined loss is `alpha_lm` times the student's cross entropy (or its error) |
| Losses.CombinedLossSkipsDisabledTerms | ignore/gpt2_model.py:104-110 | when `alpha_kld` and `alpha_mse` are not positive, the result does not depend on the teacher logits or on the KL primitive, so a malformed teacher output raises nothing |
| Losses.CombinedLossAllTerms | ignore/gpt2_model.py:96-112 | with all alphas positive and finite terms the loss is `alpha_lm*CE + alpha_kld*KL + alpha_mse*MSE`, each term computed with the same `_fp16` |
| Materializer.Materialize | ignore/gpt2_model.py:332-356 | `to_sequential` on values; its promises are carried by MaterializeFailure, MaterializeLayers, MaterializeRegistry and ReceiversReadFirstOfLastKey, and ToSequential is proved against it |
| Materializer.CallReceiver | ignore/gpt2_model.py:343 | calling a receiver lambda; its promise is carried by CallReceiverUsesLastSpec |
| Materializer.StepMatches | ignore/gpt2_model.py:339-355 | one iteration of the walk keeps its state in step with the specs seen so far: a layer per spec, increasing module ids, and a registry holding the first module of each key |
| Materializer.ScanPrefixOutcome | ignore/gpt2_model.py:339-355 | after any prefix, the walk has failed exactly when some spec in it is unrecognised, reporting the first such index; otherwise its state matches the prefix position by position |
| Materializer.MaterializeFailure | ignore/gpt2_model.py:351-355 | `to_sequential` raises exactly when some entry is neither a spec nor callable, and its error names the first such entry |
| Materializer.MaterializeLayers | ignore/gpt2_model.py:337-356 | one layer per spec, in order: a built module for each layer spec and for the first spec of each key, a receiver for later specs of a key, a lambda per adapter; built modules are pairwise distinct; receivers see the last spec of the list and the flags of the pipe that built the container |
| Materializer.MaterializeRegistry | ignore/gpt2_model.py:338-348 | the registry has an entry for exactly the keys that occur, holding only the module built for the key's first spec |
| Materializer.ReceiversReadFirstOfLastKey | ignore/gpt2_model.py:339-348 | when `to_sequential` succeeds and the last spec is tied, every receiver resolves to the module built at the first position of the last spec's key, because each receiver reads the loop variable `spec` late (line 343) |
| Materializer.CallReceiverUsesLastSpec | ignore/gpt2_model.py:283-304 | calling any receiver (line 343) is `_logits_helper` with the container's inference, distillation and parallel-output flags, on the weight of the module registered under the LAST spec's key, whichever receiver is called |
| SequentialTying.StackRecognized | ignore/gpt2_model.py:175-328 | no entry `init_specs` appends is one that `to_sequential` rejects |
| SequentialTying.AssembleRecognized | ignore/gpt2_model.py:147-154 | no entry of an assembled spec list is one that `to_sequential` rejects |
| SequentialTying.PipelineMaterializes | ignore/gpt2_model.py:332-355 | every spec list that construction builds can be turned into a sequential container |
| SequentialTying.TiedStackSharesEmbedding | ignore/gpt2_model.py:340-348 | for one weight-tied stack the embedding is built, the output head is the only receiver, and it projects with the embedding module's weight |
| SequentialTying.UntiedStackBuildsTwoModules | ignore/gpt2_model.py:349-350 | for one untied stack there are no receivers, the registry is empty, and the embedding and the head are distinct modules |
| SequentialTying.TwoTiesResolveToSecond | ignore/gpt2_model.py:339-348 | with two keys, each at two positions one after the other, both first specs are built, both later ones are receivers, and every receiver reads the second key's module |
| SequentialTying.FirstOfKeyIsBuilt | ignore/gpt2_model.py:344-348 | the first spec under a key is built and is the key's only registered module |
| SequentialTying.LaterOfKeyIsReceiver | ignore/gpt2_model.py:341-343 | a later spec under an already-seen key becomes a receiver |
| SequentialTying.DistilledReceiversUseStudentEmbedding | ignore/gpt2_model.py:142-154 | under distillation with weight tying, the teacher's and the student's heads are both receivers, and both project with the student's embedding module, never the teacher's |
| GPT2Model.GPT2ModelPipe.Init | ignore/gpt2_model.py:131-137 | the pipe stores the configuration and flags, forces `get_key_value` off outside inference, reads `do_distillation` and starts with an empty spec list |
| GPT2Model.GPT2ModelPipe.InitSpecs | ignore/gpt2_model.py:175-328 | `init_specs` appends exactly the stack of the current configuration (keyed by whether the list was empty) or raises its error, leaving the list as it was; when `pos_emb == 'rpe'` it allocates one new causal bias object with the configured parameters |
| GPT2Model.GPT2ModelPipe.New | ignore/gpt2_model.py:130-173 | construction succeeds exactly when the spec-list function does, with the same error otherwise; the new pipe holds that spec list, the chosen loss function (none exactly in inference, the combined loss exactly under distillation) and the checkpoint interval; it stores `inference`, `parallel_output`, `num_tokentypes` and `do_distillation` as given, and `get_key_value` only in inference; each stack's bias is new, a different object per stack, present exactly when that configuration's `pos_emb == 'rpe'`, causal and with the configured parameters; the caller's configuration ends up with both overlays under distillation outside inference and is unchanged otherwise; the parameters default as in the source (`num_tokentypes=0`, `parallel_output=True`, `inference=False`, `get_key_value=True`) |
| GPT2Model.GPT2ModelPipe.Build | ignore/gpt2_model.py:142-173 | past the inference check, the spec list is the assembly of the configuration list, and on success the loss function and interval come from the final configuration, `num_tokentypes` is stored, and the biases are new, pairwise distinct and match their configurations |
| GPT2Model.GPT2ModelPipe.ListNeoxArgs | ignore/gpt2_model.py:139-145 | the list holds the given object twice under distillation, after both overlays, and once otherwise |
| GPT2Model.GPT2ModelPipe.BuildStacks | ignore/gpt2_model.py:147-154 | the loop leaves the spec list equal to the assembly of all configurations, or fails with the first stack's error; the last configuration stays current; on success each configuration's bias is new, pairwise distinct from the others, and present exactly when that configuration asks for `rpe`, with its parameters |
| GPT2Model.GPT2ModelPipe.AddStack | ignore/gpt2_model.py:147-154 | one iteration makes the next configuration current and extends the assembled spec list by its stack, or fails with its error; its bias is new, so it differs from every earlier stack's, and belongs to that configuration |
| GPT2Model.GPT2ModelPipe.StacksAddedMeans | ignore/gpt2_model.py:147-154 | after the last iteration the spec list is the assembly of every configuration, the last one is current, and the biases match their configurations and are pairwise distinct |
| GPT2Model.GPT2ModelPipe.Prepare | ignore/gpt2_model.py:148-153 | the configuration becomes current and the attributes `init_specs` reads are copied from it |
| GPT2Model.GPT2ModelPipe.BindRuntime | ignore/gpt2_model.py:156-170 | the loss handed to the runtime is the one the loss-selection function picks, and the interval is `checkpoint_num_layers` when activations are checkpointed and 0 otherwise |
| GPT2Model.GPT2ModelPipe.ToSequential | ignore/gpt2_model.py:332-360 | the loop's layers, registry and error are those of the materialisation function of the spec list, and its receivers carry this pipe's `_inference`, `do_distillation` (as a truth value) and `parallel_output`, which `_logits_helper` reads |
| GPT2Model.CheckpointInterval | ignore/gpt2_model.py:165-168 | the interval handed to the runtime; its promise is carried by BindRuntime and by the interval clause of New |
| GPT2Model.StackUnfolds | ignore/gpt2_model.py:189-328 | bridge from the method to the function: the entries `init_specs` appends one by one, in order, are the function's stack |
| GPT2Model.AssembleStep | ignore/gpt2_model.py:147-154 | bridge from one loop iteration to the function: appending the next configuration's stack extends the assembled prefix by it, or fails with its error |
| GPT2Model.AssembleFailureStays | ignore/gpt2_model.py:147-154 | once a stack has raised, the whole construction fails with that error, whatever follows |

## Left out

- Tensor numerics: `parallel_lm_logits`, the vocabulary-parallel cross-entropy and KL primitives, and `fp16_to_fp32` are uninterpreted functions, applied where and in the order each loss function applies them. The relevant source is `mpu` and `fp16`, whose code is not part of this model.
- Losses.MseLoss: the model promises that `mse_loss` equals `kldiv_loss` only under `_fp16` or when `fp16_to_fp32` leaves the teacher logits unchanged. Otherwise `mse_loss` hands the KL primitive un-upcast labels, and the two may differ.
- Real arithmetic stands in for floating point. A zero mask sum is a single non-finite value, with no NaN/infinity distinction.
- Broadcasting and tensor reshaping: the losses take flattened per-token losses and a flattened mask.
- Losses.MaskedMean: a length-1 losses or mask tensor, which torch would broadcast against the other, fails with ShapeMismatch.
- Losses.CrossEntropy: the `_fp16` dtype assertions are not modelled, because dtypes are not part of the model. The same holds for Losses.KlDivLoss and Losses.MseLoss.
- `get_init_methods`, `init_method`, `output_layer_init_method` and `tied_weight_attr` are not modelled, because they have no effect on the order or tying of the spec list.
- `gpt2_attention_mask_func` and the internals of the layer, embedding and norm classes are not modelled. A spec records only its class and constructor arguments.
- The DeepSpeed `PipelineModule` base class is not modelled. It covers `topology`, partitioning (`partition_method`) and the runtime's use of `loss_fn` and `activation_checkpoint_interval`. The model records what is handed over.
- `SequentialWrapper` is not modelled. Nor is `activation_checkpoint_func`, which the base class defines. `to_sequential` is modelled up to the layer list, the registry and the interval it passes on.
- GPT2Model.GPT2ModelPipe.InitSpecs: `init_specs` appends the stack in one step. Specs already appended before a raised error are not modelled; the model reports the error with the list unchanged, and its contract says so.
- Stages.LogitsHelper: in inference a bare tensor is projected whole. Python takes its length along the first axis and, when that length is 2, unpacks its two rows. Under distillation, indexing a bare tensor reports an error, where a real tensor would index along its first axis.
- Losses.CombinedLoss: a bare tensor `output` whose first axis has length 4 would unpack into four values in Python; the model reports NotAFourTuple for every value that is not a four-item tuple.
- PipeValues.Transposable: weights and projected logits have no shape in the model and count as transposable. Tensors of rank below two, the empty placeholder and tuples do not.
- Stages.Adapt: the length carried by TupleIndexOutOfRange belongs to the model. Python's IndexError carries neither the length nor the index.
- Attribute lookups that would raise AttributeError are excluded: every configuration must define the attributes the model reads (`HasAttributes`). The configuration class is assumed to define all of them; it is not part of this model.
- NeoxArguments.SubstituteArgs: under distillation, a `student_model_args` or `teacher_model_args` of None makes `.__dict__` raise AttributeError at lines 116-118. The model keeps the override objects as maps, which are never None, so this error is not captured.
- Built modules are represented by their build order, and a module object by its id alone.
- GPT2Model.GPT2ModelPipe.Init: starts the attributes the loop sets later from placeholder values. In Python those attributes do not exist before the loop.
- NeoxArguments.NeoxArgs: the override objects are assumed to carry no non-None `teacher_model_args` or `student_model_args` attribute of their own. The model does not capture line 120 replacing the configuration's override objects, because an attribute value cannot hold an override object here; the second `substitue_args` call always reads the original student overrides.
- The loop body of `__init__` is split into the methods `Prepare`, `InitSpecs` and `AddStack`.
- Logging (`print_rank_0`, `log=False`) has no effect on the result and is not modelled.
