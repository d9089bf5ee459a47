# Personalised and clipping federated-learning clients

This project models the control logic of three federated-learning clients
of the fl4health library and proves properties of that model:

- **APFL** (adaptive personalised federated learning), module `Apfl` in
  `apfl_client.dfy`. A global model and a local model are trained side by
  side and mixed into a personal prediction by a coefficient alpha. The
  model covers four things:
  - the fixed order of `zero_grad` and `step` calls that one training step
    makes on the two optimizers;
  - the gate that lets alpha be updated only at the first local step, and
    only when alpha is adaptive;
  - the requirement that the optimizer dictionary has exactly the keys
    `global` and `local`;
  - the personal/global/local loss bundle.
- **FENDA / PerFCL**, module `Fenda` in `fenda_client.dfy`. The model has a
  local feature extractor, a global feature extractor and a head. The model
  of it covers:
  - which auxiliary losses switch on (cosine similarity, contrastive, the
    two PerFCL contrastive losses) and which keys they add;
  - the total loss as the plain loss plus the weighted active terms;
  - the frozen snapshots of modules taken at round boundaries, and the
    features `predict` adds from them;
  - the exchanged-layer filter (names beginning with `global_module.`, in
    state-dict order).
- **Numpy clipping client** for client-level differential privacy, module
  `Clipping` in `clipping_client.dfy`. It covers:
  - the layer-wise weight update;
  - the network Frobenius norm;
  - flat clipping of the update to the server's bound, and the clipping
    bit;
  - the bookkeeping of `set_parameters` and `setup_client`.

`common.dfy` (module `Common`) holds the shared values:
- `Result`, with the Python exceptions a client raises: a failed `assert`,
  a `KeyError`, a shape clash, and a non-finite scale;
- `Option`, for Python's `None`;
- the abstract `Tensor`, and the tensor-or-dictionary input;
- the training and evaluation loss bundles.

Tensors are never inspected. Every numerical operation is an uninterpreted
function value that the caller passes in:
- the criterion, cosine similarity and the contrastive loss;
- forward passes and the square root.

Optimizers are objects that append each call they receive to a shared call
log. This makes the order of calls across the two APFL optimizers explicit.

The state-changing operations are methods on classes, with their fields:
- `ApflClient.SetOptimizer`, `UpdateAfterStep` and `TrainStep`;
- `FendaClient.UpdateAfterTrain`, `UpdateBeforeTrain`, `Predict` and
  `ComputeLossAndAdditionalLosses`;
- `NumpyClippingClient.SetupClient` and `SetParameters`.

Each of these methods is tied to a specification function, either by
`ensures r == F(...)` or by stating the whole new state. The properties of
these functions are proved as lemmas. The operations that only compute a
value are functions: the APFL and FENDA loss compositions, the norm,
clipping and the weight update.

Where the code and its documentation disagree, the model follows the code.
The FENDA constructor's docstring (fl4health/clients/fenda_client.py:36-37)
says each auxiliary loss is active only when its weight is not 0.0. For the
PerFCL weights, however, the code tests the truthiness of the tuple. A pair
`(0.0, 0.0)` is therefore "set": the PerFCL losses are computed and
reported, and the `aggregated_global_features` lookup can raise.
`Fenda.PerFclSet` models the code.

## Model

| member | source | states |
|---|---|---|
| Apfl.IsStartOfLocalTraining | fl4health/clients/apfl_client.py:31-32 | true exactly when the step is 0 |
| Apfl.ApflClient.UpdateAfterStep | fl4health/clients/apfl_client.py:34-40 | `update_alpha` runs exactly once when the step is 0 and alpha is adaptive; otherwise alpha and the number of alpha updates are unchanged |
| Apfl.ApflModel.UpdateAlpha | fl4health/clients/apfl_client.py:40 | alpha takes the supplied value and the count of alpha updates goes up by one |
| Apfl.NoGateAfterStart | fl4health/clients/apfl_client.py:34-40 | over any run of consecutive steps starting after step 0, the alpha gate never opens |
| Apfl.AlphaUpdatedOncePerRun | fl4health/clients/apfl_client.py:34-40 | over a local run of steps 0..n-1 the alpha gate opens exactly once if alpha is adaptive and n > 0, and never otherwise |
| Apfl.Optimizer.ZeroGrad | fl4health/clients/apfl_client.py:52-63 | a `zero_grad` call on this optimizer is appended to the shared call log, and nothing else is logged |
| Apfl.Optimizer.Step | fl4health/clients/apfl_client.py:56-72 | a `step` call on this optimizer is appended to the shared call log, and nothing else is logged |
| Apfl.ApflClient.constructor | fl4health/clients/apfl_client.py:17-29 | a client holding the supplied model, criterion and call log (model and criterion supplied at construction, see Left out); its optimizer map starts empty (an assumption, see Left out), and every optimizer it holds reports to its log |
| Apfl.ApflClient.TrainStep | fl4health/clients/apfl_client.py:42-75 | the result is the losses of the personal prediction together with the unchanged predictions, or the first exception in source order (dict input, missing `global`, missing `local`, failing loss lookup); the calls logged are exactly the prefix of the protocol reached before returning or raising; a rejected dict input logs nothing |
| Apfl.ProtocolCounts | fl4health/clients/apfl_client.py:52-72 | in one complete step, with two distinct optimizers, each optimizer is stepped once; the global one is zeroed twice and the local one once |
| Apfl.StepsPerBatch | fl4health/clients/apfl_client.py:52-72 | over n successful steps each optimizer is stepped exactly n times |
| Apfl.ProtocolOrder | fl4health/clients/apfl_client.py:52-72 | the only global `step` is call 1, before the second zeroing of the global gradients (call 2); every local call comes after it; the local `step` is the last call |
| Apfl.TrainStepAllOrLocalNothing | fl4health/clients/apfl_client.py:51-72 | a tensor input succeeds iff both optimizer keys are present and the loss lookup succeeds, and then the full five-call protocol is logged; a step that raises never steps a distinct local optimizer |
| Apfl.RejectedInputTouchesNothing | fl4health/clients/apfl_client.py:51 | a dictionary input is rejected before any optimizer call |
| Apfl.ApflLosses | fl4health/clients/apfl_client.py:101-107 | a non-dict prediction fails the assertion; success iff `personal`, `global` and `local` are all present, and otherwise a KeyError for the first one missing in that order; the loss is the criterion on the personal prediction; the additional losses have exactly the keys `global` and `local`, each the criterion on its own prediction |
| Apfl.ApflClient.SetOptimizer | fl4health/clients/apfl_client.py:109-112 | succeeds iff the optimizers come as a dictionary whose key set is exactly {global, local}, and then stores them; otherwise raises AssertionError and leaves the stored optimizers as they were |
| Fenda.FendaClient.constructor | fl4health/clients/fenda_client.py:50-61 | the client keeps the given auxiliary-loss weights, starts with no snapshots, and every snapshot it holds is frozen; the model is supplied at construction (see Left out) |
| Fenda.CloneAndFreeze | fl4health/clients/fenda_client.py:103-104 | a snapshot has the module's parameters, in order, and is frozen (evaluation mode, no gradients) |
| Fenda.FendaClient.UpdateAfterTrain | fl4health/clients/fenda_client.py:99-106 | when the contrastive or PerFCL weight is set, the old local and old global snapshots become frozen copies of the current local and global modules; otherwise they are unchanged; the live model, the weights and the aggregated snapshot are untouched; every snapshot stays frozen |
| Fenda.FendaClient.UpdateBeforeTrain | fl4health/clients/fenda_client.py:108-113 | with PerFCL set, the aggregated snapshot becomes a frozen copy of the global module as received; otherwise it is unchanged; the other snapshots and the live model are untouched |
| Fenda.SnapshotFeatures | fl4health/clients/fenda_client.py:83-96 | `old_local_features` is added iff the contrastive or PerFCL weight is set and an old local snapshot exists; `old_global_features` and `aggregated_global_features` are added iff, in addition, PerFCL is set and that snapshot exists; each added value is that snapshot's output; no other key is added |
| Fenda.FendaClient.Predict | fl4health/clients/fenda_client.py:81-97 | a dict input fails the assertion; otherwise the result is the model's predictions, and its features plus the snapshot features, or a KeyError when the feature that sizes a snapshot's output is missing; every feature key of the model is kept |
| Fenda.SnapshotsActivateTerms | fl4health/clients/fenda_client.py:83-96 | once an old local snapshot exists, the features `predict` returns switch on the contrastive term whenever its weight is truthy; with PerFCL set and an old global snapshot they switch on the PerFCL terms; `aggregated_global_features` is present whenever that snapshot exists |
| Fenda.ContrastiveLoss | fl4health/clients/fenda_client.py:123-140 | succeeds iff the temperature is set (the assertion fails otherwise), and then is the contrastive loss of the features against the given positive and negative pairs at that temperature |
| Fenda.CosSimTerm | fl4health/clients/fenda_client.py:115-121 | no term when its weight is not truthy; otherwise a KeyError for `local_features`, then for `global_features`, whichever is missing first, or else the cosine-similarity loss of the current local features against the current global features |
| Fenda.ContrastiveTerm | fl4health/clients/fenda_client.py:142-153 | no term unless it is active; otherwise the KeyError of the first missing feature, or the temperature assertion, or else the contrastive loss of the current local features, with the old local features as positive pairs and the current global features as negative pairs |
| Fenda.PerFclTerms | fl4health/clients/fenda_client.py:155-186 | no terms unless they are active; otherwise the KeyError of the first missing feature (`aggregated_global_features` included), or the temperature assertion, or else two losses. The one to minimise takes the global features, with aggregated global as positive pairs and old global as negative pairs. The one to maximise takes the local features, with old local as positive pairs and aggregated global as negative pairs |
| Fenda.ReportedAuxiliaryValues | fl4health/clients/fenda_client.py:217-249 | each reported auxiliary loss (`cos_sim_loss`, `contrastive_loss`, `contrastive_loss_minimize`, `contrastive_loss_maximize`) is the loss of the features its term reads, with that term's positive and negative pairs |
| Fenda.FendaLosses | fl4health/clients/fenda_client.py:212-253 | the specification of the loss computation: a missing `prediction` raises a KeyError for it first; its other properties are the lemmas `FendaLossesSucceed`, `FendaLossKeys`, `TotalIsWeightedSum`, `ReportedAuxiliaryValues`, `NoAuxiliaryTermsTotalIsLoss` and `PerFclUnitWeights` |
| Fenda.FendaClient.ComputeLossAndAdditionalLosses | fl4health/clients/fenda_client.py:212-253 | the term-by-term accumulation of the total loss and the additional-loss dictionary gives exactly `FendaLosses`, including its errors |
| Fenda.FendaLossesSucceed | fl4health/clients/fenda_client.py:212-249 | the loss computation succeeds iff `prediction` is present, each active term finds the features it reads (PerFCL also needs `aggregated_global_features`), and a contrastive term that is active has a temperature |
| Fenda.FendaLossKeys | fl4health/clients/fenda_client.py:212-253 | `loss` (the criterion on the prediction) and `total_loss` (the value returned first) are always present; `cos_sim_loss` is present iff its weight is truthy; `contrastive_loss` iff its weight is truthy and `old_local_features` is present; both PerFCL keys iff the PerFCL weights are set and both old feature keys are present; no other key appears |
| Fenda.TotalIsWeightedSum | fl4health/clients/fenda_client.py:213-247 | the total loss is the loss plus `cos_w * cos`, `con_w * con` and `w0 * minimize + w1 * maximize`, each counted exactly when its keys are reported |
| Fenda.NoAuxiliaryTermsTotalIsLoss | fl4health/clients/fenda_client.py:212-253 | with no term active, only `loss` and `total_loss` are reported, and both equal the criterion on the prediction |
| Fenda.PerFclUnitWeights | tests/clients/test_fenda_client.py:198-201 | with PerFCL weights (1, 1) and no other term, total minus loss equals minimize plus maximize |
| Fenda.FendaClient.ComputeEvaluationLoss | fl4health/clients/fenda_client.py:277-278 | fails exactly when the training path fails, with the same error; otherwise the additional losses are those of the training path and the checkpoint loss is their `loss` entry |
| Fenda.LayersToExchange | tests/models/test_fenda_base.py:7-12 | the result holds exactly the names that begin with `global_module.`, and no more names than the input |
| Fenda.LayersToExchangeKeepsOrder | tests/models/test_fenda_base.py:7-12 | the exchanged names keep their state-dict order: the result is a subsequence of the input |
| Fenda.LayersToExchangeIdempotent | tests/models/test_fenda_base.py:7-12 | filtering the exchanged names again changes nothing |
| Fenda.GetParameterExchanger | fl4health/clients/fenda_client.py:63-65 | the exchanged layers are exactly the model's state-dict names that begin with `global_module.` |
| Fenda.ExchangedLayersAreGlobal | fl4health/clients/fenda_client.py:63-65 | for a FENDA model, the layers `get_parameter_exchanger` exchanges are exactly the global module's parameter names, in its own order; no local or head parameter is exchanged |
| Clipping.SquaredNormNonNegative | fl4health/clients/clipping_client.py:46-48 | the sum of the squared layer norms is non-negative |
| Clipping.ParametersNorm | fl4health/clients/clipping_client.py:45-48 | for a true square root, the norm is non-negative and its square is the sum of the squared layer norms |
| Clipping.NormOfNoLayers | fl4health/clients/clipping_client.py:45-48 | an empty parameter list has norm 0 |
| Clipping.SquaredNormFlatten | fl4health/clients/clipping_client.py:46-48 | the network's squared norm equals the squared norm of all its entries taken as one vector (the Frobenius norm) |
| Clipping.Scale | fl4health/clients/clipping_client.py:63 | scaling keeps the number of layers and each layer's size |
| Clipping.ScaleEntries | fl4health/clients/clipping_client.py:63 | every entry of every layer is multiplied by the same factor |
| Clipping.SquaredNormScale | fl4health/clients/clipping_client.py:61-63 | scaling by c multiplies the squared norm by c squared |
| Clipping.Min | fl4health/clients/clipping_client.py:61 | the minimum is one of its arguments and at most both |
| Clipping.ClipParameters | fl4health/clients/clipping_client.py:50-63 | an unset bound or adaptive flag fails the assertion; the output has the input's layer count and layer sizes; the bit is 1.0 iff clipping is adaptive and the norm is within the bound, and 0.0 otherwise |
| Clipping.NonAdaptiveBitIsZero | fl4health/clients/clipping_client.py:57-63 | a non-adaptive client reports bit 0.0 on both branches |
| Clipping.WithinBoundUnchanged | fl4health/clients/clipping_client.py:56-60 | within the bound the parameters come back unchanged, with bit 1.0 when adaptive and 0.0 otherwise |
| Clipping.ClippedNormWithinBound | fl4health/clients/clipping_client.py:53-63 | for a non-negative bound, clipping succeeds and the output's norm is at most the bound; beyond the bound, the output is the input scaled by bound / norm, a factor in [0, 1), with bit 0.0 and norm exactly the bound |
| Clipping.ClipTwice | fl4health/clients/clipping_client.py:50-63 | clipping is idempotent: a second clip returns the first clip's output unchanged |
| Clipping.WeightUpdate | fl4health/clients/clipping_client.py:68-71 | for equally many layers, the update succeeds iff every pair of layers has the same size, and otherwise raises a shape error |
| Clipping.UpdateRoundTrip | fl4health/clients/clipping_client.py:68-71 | the update has the old weights' shapes, and adding it back to the old weights layer by layer gives the new weights |
| Clipping.ComputeWeightUpdateAndClip | fl4health/clients/clipping_client.py:65-73 | unset initial weights, or a different layer count, fail the assertion; layer-size clashes raise a shape error; otherwise the result is the clip of the update that, added to the initial weights, gives the parameters |
| Clipping.UnchangedWeightsSendZeroUpdate | fl4health/clients/clipping_client.py:65-73 | a client returning the weights it received sends the all-zero update, unscaled, with bit 1.0 exactly when clipping is adaptive |
| Clipping.NumpyClippingClient.constructor | fl4health/clients/clipping_client.py:42-43 | the bound and the adaptive flag start as `None`; the initial weights start as `None` too, which is an assumption (see Left out) |
| Clipping.NumpyClippingClient.SetupClient | fl4health/clients/clipping_client.py:124-126 | records the adaptive flag and changes nothing else |
| Clipping.NumpyClippingClient.SetParameters | fl4health/clients/clipping_client.py:103-118 | the unpacked bound is always stored; in round 1 of fitting, the whole model is initialised from the server weights and the initial weights are those pushed from the initialised model; otherwise the initial weights are the server weights as received, and those are pulled into the model; the adaptive flag is untouched |
| Clipping.NumpyClippingClient.GetParameters | fl4health/clients/clipping_client.py:75-83 | unset initial weights fail the assertion; a result is only produced with the bound and adaptive flag set, and it has the pushed weights' layer count |

## Left out

- Tensor numerics and autograd are not modelled: forward and backward passes, optimizer arithmetic, `CosineSimilarity`, `CrossEntropyLoss` and the contrastive-loss values. They are uninterpreted function values. Floating-point rounding is not modelled; weights and losses are `real`.
- The bodies of `update_alpha`, `ApflModule`, `FendaModel` and `clone_and_freeze_model` are not part of this model. `ApflModel.UpdateAlpha` takes the new alpha as a parameter. `CloneAndFreeze` is a copy of the parameters with the frozen flags.
- `FendaModel.layers_to_exchange` is not part of this model. `Fenda.LayersToExchange` is the filter its test states: state-dict names that begin with `global_module.`. The state-dict names of a FENDA model are assumed to be its three submodules' names under the prefixes `local_module.`, `global_module.` and `head_module.`.
- The parameter exchangers and packers are not part of this model: `FixedLayerExchanger`, `ParameterExchangerWithPacking` and `ParameterPackerWithClippingBit`. What `unpack_parameters` and `push_parameters` return is passed to `SetParameters` and `GetParameters` as parameters. `pack_parameters` is not modelled. `NumpyClippingClient.lastLoad` records whether the model was fully initialised or pulled.
- The `get_parameter_exchanger` methods of the APFL and clipping clients only construct exchangers, so they are not modelled.
- The `BasicClient` base class is not part of this model. This affects `compute_training_loss`, APFL's `predict`, `narrow_config_type`, `initialize_all_model_weights`, `get_optimizer` and the `super()` calls.
  - TrainStep takes the personalised forward pass as a parameter.
  - The training-loss bundle is the loss with the additional losses.
  - The server round and the adaptive flag come in already converted.
- Apfl.ApflClient.TrainStep requires that every optimizer reports to the client's call log. This is an instrumentation assumption of the model, not a demand of the source.
- Apfl.ApflClient.TrainStep does not model the global-only forward pass or either backward pass. They only feed the optimizers' numerics.
- Fenda.FendaClient.Predict folds the snapshot outputs' `reshape` into the supplied snapshot forward pass.
- Fenda.FendaClient.UpdateAfterTrain, Fenda.FendaClient.UpdateBeforeTrain and Fenda.GetParameterExchanger do not model the `isinstance(self.model, FendaModel)` asserts (fl4health/clients/fenda_client.py:64, 101, 110). The model is a FENDA model by its type.
- The length asserts inside `get_cosine_similarity_loss` and `compute_contrastive_loss` compare tensor sizes and are not modelled. The temperature assert is modelled.
- Clipping.ParametersNorm does not compute a square root. It applies a supplied `root`, and its properties hold when `root` is a true square root (`IsSquareRoot`). Layers are flattened to sequences of reals, so `pow(linalg.norm(layer), 2)` is the sum of the squares of the layer's entries (`LayerSquaredNorm`).
- Clipping.ClipParameters models a division by a zero norm as `Err(NonFiniteScale)`. This can only happen beyond a negative bound. For an empty parameter list the norm is a Python number 0, so Python raises `ZeroDivisionError`. For a non-empty list the norm is a numpy float, so numpy yields inf/nan weights instead of raising. The model does not tell these two outcomes apart.
- Clipping.WeightUpdate raises a shape error for any two layers of different sizes. Numpy broadcasting of size-1 layers is not modelled. Mismatched layer counts are rejected by the caller's assertion before the update is formed. Only layer sizes are compared: two layers of equal size but different shape (say 2x3 and 3x2) are subtracted entry by entry, where numpy would raise or broadcast. Both weight lists come from the same model, so their shapes agree.
- Clipping.NumpyClippingClient.GetParameters does not model the assertion that the model and exchanger exist.
- Apfl.ApflClient.constructor: the model and the criterion are supplied at construction. The source's constructor (fl4health/clients/apfl_client.py:17-29) receives neither; they come from the base class, which is not part of this model. The model also assumes the client starts with an empty optimizer map. The source only declares the `optimizers` attribute (fl4health/clients/apfl_client.py:29) and leaves it to the base class, which is not part of this model. Read as written, a `train_step` before `set_optimizer` raises `AttributeError` at line 52; the model raises a `KeyError` for `global` there.
- Fenda.FendaClient.constructor: the model (and the numerics for the criterion) are supplied at construction. The source's constructor (fl4health/clients/fenda_client.py:17-61) receives no model and never assigns `self.model`; both come from the base class, which is not part of this model.
- Clipping.NumpyClippingClient.constructor: the model assumes `initial_weights` starts as `None`, presumably set by the base class, which is not part of this model. The source's own constructor sets only the bound and the adaptive flag (fl4health/clients/clipping_client.py:42-43); `initial_weights` is first assigned at lines 113 and 116.
- Logging, device placement, network communication and checkpointing are not modelled.
- The research and example client scripts are command-line and data-loading glue and are not modelled.
