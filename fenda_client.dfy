/** The FENDA client and its PerFCL variant: a model made of a local feature
    extractor, a global feature extractor and a head. Besides the prediction
    loss the client can add a cosine-similarity loss, a contrastive loss and
    the two PerFCL contrastive losses; the contrastive losses compare current
    features with those of frozen snapshots of the modules taken at round
    boundaries. Only the global module is exchanged with the server.

    Tensor numerics are left out: the criterion, the cosine-similarity loss,
    the contrastive loss and the forward passes are uninterpreted function
    values. */
module Fenda {
  import opened Common

  // ---------------------------------------------------------------------------
  // Modules and snapshots

  /** A torch module as far as the client sees it: its named parameters in
      state-dict order, whether it is in training mode, and whether its
      parameters require gradients. */
  datatype Module = Module(stateDict: seq<(string, Tensor)>, training: bool, requiresGrad: bool)

  predicate Frozen(m: Module)
  {
    !m.training && !m.requiresGrad
  }

  /** `clone_and_freeze_model`: a copy of the module's parameters, in
      evaluation mode, with gradients switched off. */
  function CloneAndFreeze(m: Module): (s: Module)
    ensures s.stateDict == m.stateDict && Frozen(s)
  {
    m.(training := false, requiresGrad := false)
  }

  datatype FendaModel = FendaModel(localModule: Module, globalModule: Module, headModule: Module)

  // ---------------------------------------------------------------------------
  // Configuration and loss switches

  /** The auxiliary-loss settings of the client; `None` stands for Python's
      `None`. */
  datatype AuxWeights = AuxWeights(
    perfclLossWeights: Option<(real, real)>,
    cosSimLossWeight: Option<real>,
    contrastiveLossWeight: Option<real>,
    temperature: Option<real>)

  /** Python truthiness of an optional weight: present and non-zero. */
  predicate Truthy(w: Option<real>)
  {
    w.Some? && w.value != 0.0
  }

  /** The PerFCL pair is a non-empty tuple whenever it is set, so it is truthy
      whenever it is present, even as (0.0, 0.0). */
  predicate PerFclSet(w: AuxWeights)
  {
    w.perfclLossWeights.Some?
  }

  /** The condition under which the old local and global snapshots are kept
      and used: a contrastive or a PerFCL weight is set. */
  predicate UsesOldModules(w: AuxWeights)
  {
    Truthy(w.contrastiveLossWeight) || PerFclSet(w)
  }

  predicate CosSimActive(w: AuxWeights)
  {
    Truthy(w.cosSimLossWeight)
  }

  predicate ContrastiveActive(w: AuxWeights, features: map<string, Tensor>)
  {
    Truthy(w.contrastiveLossWeight) && "old_local_features" in features
  }

  predicate PerFclActive(w: AuxWeights, features: map<string, Tensor>)
  {
    PerFclSet(w) && "old_local_features" in features && "old_global_features" in features
  }

  /** The tensor computations the losses are built from. `contrastive(f, p, n, t)`
      is the contrastive loss of features `f` against positive pairs `p` and
      negative pairs `n` at temperature `t`. */
  datatype Numerics = Numerics(
    criterion: (Tensor, Tensor) -> real,
    cosSim: (Tensor, Tensor) -> real,
    contrastive: (Tensor, Tensor, Tensor, real) -> real)

  // ---------------------------------------------------------------------------
  // Loss composition (specification of compute_loss_and_additional_losses)

  /** `compute_contrastive_loss`: the temperature must be set. */
  function ContrastiveLoss(n: Numerics, temperature: Option<real>, features: Tensor, positive: Tensor, negative: Tensor): (r: Result<real>)
    ensures r.Ok? <==> temperature.Some?
    ensures r.Err? ==> r.error == AssertionError
    ensures r.Ok? ==> r.value == n.contrastive(features, positive, negative, temperature.value)
  {
    if temperature.None? then Err(AssertionError)
    else Ok(n.contrastive(features, positive, negative, temperature.value))
  }

  /** The cosine-similarity term, when its weight is truthy. */
  function CosSimTerm(w: AuxWeights, features: map<string, Tensor>, n: Numerics): (r: Result<Option<real>>)
    ensures !CosSimActive(w) ==> r == Ok(None)
    ensures CosSimActive(w) && "local_features" !in features ==> r == Err(KeyError("local_features"))
    ensures CosSimActive(w) && "local_features" in features && "global_features" !in features
      ==> r == Err(KeyError("global_features"))
    ensures CosSimActive(w) && "local_features" in features && "global_features" in features
      ==> r == Ok(Some(n.cosSim(features["local_features"], features["global_features"])))
  {
    if !CosSimActive(w) then Ok(None)
    else
      var local :- Lookup(features, "local_features");
      var global :- Lookup(features, "global_features");
      Ok(Some(n.cosSim(local, global)))
  }

  /** The contrastive term (`get_contrastive_loss`): current local features
      against the old local features (positive) and the current global
      features (negative). */
  function ContrastiveTerm(w: AuxWeights, features: map<string, Tensor>, n: Numerics): (r: Result<Option<real>>)
    ensures !ContrastiveActive(w, features) ==> r == Ok(None)
    ensures ContrastiveActive(w, features) ==>
      if "local_features" !in features then r == Err(KeyError("local_features"))
      else if "global_features" !in features then r == Err(KeyError("global_features"))
      else if w.temperature.None? then r == Err(AssertionError)
      else r == Ok(Some(n.contrastive(
        features["local_features"], features["old_local_features"], features["global_features"], w.temperature.value)))
  {
    if !ContrastiveActive(w, features) then Ok(None)
    else
      // the term is active only when "old_local_features" is present
      var local :- Lookup(features, "local_features");
      var oldLocal := features["old_local_features"];
      var global :- Lookup(features, "global_features");
      var c :- ContrastiveLoss(n, w.temperature, local, oldLocal, global);
      Ok(Some(c))
  }

  /** The two PerFCL terms (`get_perfcl_loss`): the one to minimise compares
      the current global features with the aggregated global features
      (positive) and the old global features (negative); the one to maximise
      compares the current local features with the old local features
      (positive) and the aggregated global features (negative). */
  function PerFclTerms(w: AuxWeights, features: map<string, Tensor>, n: Numerics): (r: Result<Option<(real, real)>>)
    ensures !PerFclActive(w, features) ==> r == Ok(None)
    ensures PerFclActive(w, features) ==>
      if "local_features" !in features then r == Err(KeyError("local_features"))
      else if "global_features" !in features then r == Err(KeyError("global_features"))
      else if "aggregated_global_features" !in features then r == Err(KeyError("aggregated_global_features"))
      else if w.temperature.None? then r == Err(AssertionError)
      else r == Ok(Some((
        n.contrastive(features["global_features"], features["aggregated_global_features"], features["old_global_features"], w.temperature.value),
        n.contrastive(features["local_features"], features["old_local_features"], features["aggregated_global_features"], w.temperature.value))))
  {
    if !PerFclActive(w, features) then Ok(None)
    else
      // the terms are active only when both old feature keys are present
      var local :- Lookup(features, "local_features");
      var oldLocal := features["old_local_features"];
      var global :- Lookup(features, "global_features");
      var oldGlobal := features["old_global_features"];
      var aggregated :- Lookup(features, "aggregated_global_features");
      var minimize :- ContrastiveLoss(n, w.temperature, global, aggregated, oldGlobal);
      // the first contrastive loss has already checked the temperature
      var maximize := ContrastiveLoss(n, w.temperature, local, oldLocal, aggregated).value;
      Ok(Some((minimize, maximize)))
  }

  /** The weighted sum of the active auxiliary terms. */
  function AuxiliaryLoss(w: AuxWeights, cos: Option<real>, con: Option<real>, per: Option<(real, real)>): real
  {
    (if cos.Some? then w.cosSimLossWeight.GetOr(0.0) * cos.value else 0.0)
    + (if con.Some? then w.contrastiveLossWeight.GetOr(0.0) * con.value else 0.0)
    + (if per.Some? then
        var (w0, w1) := w.perfclLossWeights.GetOr((0.0, 0.0));
        w0 * per.value.0 + w1 * per.value.1
       else 0.0)
  }

  /** The additional losses: "loss" and "total_loss" always, each active
      auxiliary term under its own name. */
  function LossBundle(loss: real, cos: Option<real>, con: Option<real>, per: Option<(real, real)>, total: real): map<string, real>
  {
    var withCos := if cos.Some? then map["loss" := loss]["cos_sim_loss" := cos.value] else map["loss" := loss];
    var withCon := if con.Some? then withCos["contrastive_loss" := con.value] else withCos;
    var withPer := if per.Some? then withCon["contrastive_loss_minimize" := per.value.0]["contrastive_loss_maximize" := per.value.1] else withCon;
    withPer["total_loss" := total]
  }

  /** The result of `compute_loss_and_additional_losses`: the total loss and
      the additional losses, or the first exception raised. */
  function FendaLosses(w: AuxWeights, preds: map<string, Tensor>, features: map<string, Tensor>, target: Tensor, n: Numerics)
    : (r: Result<(real, map<string, real>)>)
    ensures "prediction" !in preds ==> r == Err(KeyError("prediction"))
  {
    var prediction :- Lookup(preds, "prediction");
    var loss := n.criterion(prediction, target);
    var cos :- CosSimTerm(w, features, n);
    var con :- ContrastiveTerm(w, features, n);
    var per :- PerFclTerms(w, features, n);
    var total := loss + AuxiliaryLoss(w, cos, con, per);
    Ok((total, LossBundle(loss, cos, con, per, total)))
  }

  /** The loss computation fails exactly when a feature that an active term
      needs is missing, or a contrastive term is active without a temperature. */
  lemma FendaLossesSucceed(w: AuxWeights, preds: map<string, Tensor>, features: map<string, Tensor>, target: Tensor, n: Numerics)
    ensures FendaLosses(w, preds, features, target, n).Ok? <==>
      && "prediction" in preds
      && (CosSimActive(w) ==> "local_features" in features && "global_features" in features)
      && (ContrastiveActive(w, features) ==>
            "local_features" in features && "global_features" in features && w.temperature.Some?)
      && (PerFclActive(w, features) ==>
            && "local_features" in features && "global_features" in features
            && "aggregated_global_features" in features && w.temperature.Some?)
  {
  }

  /** Which keys the additional losses hold: "loss" (the criterion on the
      prediction) and "total_loss" (the value returned first) always, and each
      auxiliary key exactly when its term is switched on. */
  lemma FendaLossKeys(w: AuxWeights, preds: map<string, Tensor>, features: map<string, Tensor>, target: Tensor, n: Numerics)
    ensures var r := FendaLosses(w, preds, features, target, n);
      r.Ok? ==>
        var m := r.value.1;
        && "loss" in m && "total_loss" in m
        && m["loss"] == n.criterion(preds["prediction"], target)
        && r.value.0 == m["total_loss"]
        && ("cos_sim_loss" in m <==> CosSimActive(w))
        && ("contrastive_loss" in m <==> ContrastiveActive(w, features))
        && ("contrastive_loss_minimize" in m <==> PerFclActive(w, features))
        && ("contrastive_loss_maximize" in m <==> PerFclActive(w, features))
        && m.Keys <= {"loss", "total_loss", "cos_sim_loss", "contrastive_loss", "contrastive_loss_minimize", "contrastive_loss_maximize"}
  {
    var r := FendaLosses(w, preds, features, target, n);
    if r.Ok? {
      var cos := CosSimTerm(w, features, n).value;
      var con := ContrastiveTerm(w, features, n).value;
      var per := PerFclTerms(w, features, n).value;
      assert cos.Some? <==> CosSimActive(w);
      assert con.Some? <==> ContrastiveActive(w, features);
      assert per.Some? <==> PerFclActive(w, features);
    }
  }

  /** The total loss is the plain loss plus each reported auxiliary loss times
      its weight; the PerFCL pair contributes w0 * minimize + w1 * maximize. */
  lemma TotalIsWeightedSum(w: AuxWeights, preds: map<string, Tensor>, features: map<string, Tensor>, target: Tensor, n: Numerics)
    ensures var r := FendaLosses(w, preds, features, target, n);
      r.Ok? ==>
        var m := r.value.1;
        var (w0, w1) := w.perfclLossWeights.GetOr((0.0, 0.0));
        && "loss" in m && "total_loss" in m
        && m["total_loss"] ==
             m["loss"]
             + (if "cos_sim_loss" in m then w.cosSimLossWeight.GetOr(0.0) * m["cos_sim_loss"] else 0.0)
             + (if "contrastive_loss" in m then w.contrastiveLossWeight.GetOr(0.0) * m["contrastive_loss"] else 0.0)
             + (if "contrastive_loss_minimize" in m && "contrastive_loss_maximize" in m
                then w0 * m["contrastive_loss_minimize"] + w1 * m["contrastive_loss_maximize"] else 0.0)
  {
    var r := FendaLosses(w, preds, features, target, n);
    if r.Ok? {
      var cos := CosSimTerm(w, features, n).value;
      var con := ContrastiveTerm(w, features, n).value;
      var per := PerFclTerms(w, features, n).value;
      var m := r.value.1;
      assert "cos_sim_loss" in m <==> cos.Some?;
      assert "contrastive_loss" in m <==> con.Some?;
      assert "contrastive_loss_minimize" in m <==> per.Some?;
    }
  }

  /** Each reported auxiliary loss is computed from the features its term
      reads, with the positive and negative pairs of its kind: the contrastive
      loss pairs the current local features with the old local features
      (positive) and the current global features (negative); the PerFCL loss to
      minimise pairs the current global features with the aggregated global
      features (positive) and the old global features (negative); the PerFCL
      loss to maximise pairs the current local features with the old local
      features (positive) and the aggregated global features (negative). */
  lemma ReportedAuxiliaryValues(w: AuxWeights, preds: map<string, Tensor>, features: map<string, Tensor>, target: Tensor, n: Numerics)
    ensures var r := FendaLosses(w, preds, features, target, n);
      r.Ok? ==>
        var m := r.value.1;
        && ("cos_sim_loss" in m ==>
              m["cos_sim_loss"] == n.cosSim(features["local_features"], features["global_features"]))
        && ("contrastive_loss" in m ==>
              m["contrastive_loss"] == n.contrastive(
                features["local_features"], features["old_local_features"], features["global_features"], w.temperature.value))
        && ("contrastive_loss_minimize" in m ==>
              m["contrastive_loss_minimize"] == n.contrastive(
                features["global_features"], features["aggregated_global_features"], features["old_global_features"], w.temperature.value))
        && ("contrastive_loss_maximize" in m ==>
              m["contrastive_loss_maximize"] == n.contrastive(
                features["local_features"], features["old_local_features"], features["aggregated_global_features"], w.temperature.value))
  {
  }

  /** With no auxiliary term switched on, the total loss is the plain loss and
      only "loss" and "total_loss" are reported. */
  lemma NoAuxiliaryTermsTotalIsLoss(w: AuxWeights, preds: map<string, Tensor>, features: map<string, Tensor>, target: Tensor, n: Numerics)
    requires !CosSimActive(w) && !ContrastiveActive(w, features) && !PerFclActive(w, features)
    requires "prediction" in preds
    ensures var r := FendaLosses(w, preds, features, target, n);
      && r.Ok?
      && r.value.1.Keys == {"loss", "total_loss"}
      && r.value.0 == r.value.1["loss"] == n.criterion(preds["prediction"], target)
  {
  }

  /** PerFCL with unit weights and no other auxiliary term: the total loss
      minus the plain loss is the sum of the two PerFCL losses. */
  lemma PerFclUnitWeights(w: AuxWeights, preds: map<string, Tensor>, features: map<string, Tensor>, target: Tensor, n: Numerics)
    requires w.perfclLossWeights == Some((1.0, 1.0))
    requires !CosSimActive(w) && !ContrastiveActive(w, features)
    ensures var r := FendaLosses(w, preds, features, target, n);
      r.Ok? && PerFclActive(w, features) ==>
        var m := r.value.1;
        && "contrastive_loss_minimize" in m && "contrastive_loss_maximize" in m
        && m["total_loss"] - m["loss"] == m["contrastive_loss_minimize"] + m["contrastive_loss_maximize"]
  {
    FendaLossKeys(w, preds, features, target, n);
    TotalIsWeightedSum(w, preds, features, target, n);
  }

  // ---------------------------------------------------------------------------
  // Features added by predict

  /** The snapshot features `predict` adds to the model's own: the old local
      features when the old modules are in use and an old local module exists,
      and, in that case and with PerFCL set, the old global and aggregated global
      features of the snapshots that exist. `forward(m, x)` is the output of
      snapshot `m` on `x`, reshaped to one row per example. */
  function SnapshotFeatures(
    w: AuxWeights, oldLocal: Option<Module>, oldGlobal: Option<Module>, aggregated: Option<Module>,
    x: Tensor, forward: (Module, Tensor) -> Tensor
  ): (added: map<string, Tensor>)
    ensures "old_local_features" in added <==> UsesOldModules(w) && oldLocal.Some?
    ensures "old_global_features" in added <==> UsesOldModules(w) && oldLocal.Some? && PerFclSet(w) && oldGlobal.Some?
    ensures "aggregated_global_features" in added <==> UsesOldModules(w) && oldLocal.Some? && PerFclSet(w) && aggregated.Some?
    ensures added.Keys <= {"old_local_features", "old_global_features", "aggregated_global_features"}
    ensures "old_local_features" in added ==> added["old_local_features"] == forward(oldLocal.value, x)
    ensures "old_global_features" in added ==> added["old_global_features"] == forward(oldGlobal.value, x)
    ensures "aggregated_global_features" in added ==> added["aggregated_global_features"] == forward(aggregated.value, x)
  {
    if UsesOldModules(w) && oldLocal.Some? then
      map["old_local_features" := forward(oldLocal.value, x)]
      + (if PerFclSet(w) && oldGlobal.Some? then map["old_global_features" := forward(oldGlobal.value, x)] else map[])
      + (if PerFclSet(w) && aggregated.Some? then map["aggregated_global_features" := forward(aggregated.value, x)] else map[])
    else map[]
  }

  /** The feature `predict` reads to size a snapshot's output and finds
      missing, if any: "local_features" for the old local module,
      "global_features" for the old global or aggregated module. */
  function MissingSizeKey(
    w: AuxWeights, oldLocal: Option<Module>, oldGlobal: Option<Module>, aggregated: Option<Module>, features: map<string, Tensor>
  ): Option<string>
  {
    if !(UsesOldModules(w) && oldLocal.Some?) then None
    else if "local_features" !in features then Some("local_features")
    else if PerFclSet(w) && (oldGlobal.Some? || aggregated.Some?) && "global_features" !in features then Some("global_features")
    else None
  }

  // ---------------------------------------------------------------------------
  // Layers exchanged with the server

  const GlobalPrefix: string := "global_module."

  predicate StartsWith(s: string, prefix: string)
  {
    |prefix| <= |s| && s[..|prefix|] == prefix
  }

  /** `layers_to_exchange`: the state-dict names that begin with
      "global_module.", in state-dict order. */
  function LayersToExchange(names: seq<string>): (r: seq<string>)
    ensures forall s :: s in r ==> s in names && StartsWith(s, GlobalPrefix)
    ensures forall s :: s in names && StartsWith(s, GlobalPrefix) ==> s in r
    ensures |r| <= |names|
  {
    if names == [] then []
    else (if StartsWith(names[0], GlobalPrefix) then [names[0]] else []) + LayersToExchange(names[1..])
  }

  /** `a` can be obtained from `b` by deleting elements. */
  predicate IsSubsequence(a: seq<string>, b: seq<string>)
    decreases |b|
  {
    a == [] || (b != [] && if a[0] == b[0] then IsSubsequence(a[1..], b[1..]) else IsSubsequence(a, b[1..]))
  }

  lemma {:induction false} LayersToExchangeKeepsOrder(names: seq<string>)
    ensures IsSubsequence(LayersToExchange(names), names)
    decreases |names|
  {
    if names != [] {
      LayersToExchangeKeepsOrder(names[1..]);
      var rest := LayersToExchange(names[1..]);
      if StartsWith(names[0], GlobalPrefix) {
        assert LayersToExchange(names) == [names[0]] + rest;
        assert ([names[0]] + rest)[1..] == rest;
      } else {
        assert LayersToExchange(names) == rest;
        SubsequenceOfTail(rest, names);
      }
    }
  }

  lemma {:induction false} SubsequenceOfTail(a: seq<string>, b: seq<string>)
    requires b != [] && IsSubsequence(a, b[1..])
    ensures IsSubsequence(a, b)
    decreases |b|, 1
  {
    if a != [] && a[0] == b[0] {
      // a[0] matched b[0]; the rest of a must fit into b[1..]
      SubsequenceDropHead(a, b[1..]);
    }
  }

  lemma {:induction false} SubsequenceDropHead(a: seq<string>, b: seq<string>)
    requires a != [] && IsSubsequence(a, b)
    ensures IsSubsequence(a[1..], b)
    decreases |b|, 2
  {
    assert b != [];
    if a[0] == b[0] {
      assert IsSubsequence(a[1..], b[1..]);
      if a[1..] != [] {
        SubsequenceOfTail(a[1..], b);
      }
    } else {
      SubsequenceDropHead(a, b[1..]);
      SubsequenceOfTail(a[1..], b);
    }
  }

  lemma {:induction false} LayersToExchangeAppend(a: seq<string>, b: seq<string>)
    ensures LayersToExchange(a + b) == LayersToExchange(a) + LayersToExchange(b)
    decreases |a|
  {
    if a == [] {
      assert a + b == b;
    } else {
      assert (a + b)[0] == a[0];
      assert (a + b)[1..] == a[1..] + b;
      LayersToExchangeAppend(a[1..], b);
    }
  }

  /** Filtering twice gives the same names, in the same order, as filtering once. */
  lemma {:induction false} LayersToExchangeIdempotent(names: seq<string>)
    ensures LayersToExchange(LayersToExchange(names)) == LayersToExchange(names)
    decreases |names|
  {
    if names != [] {
      var head := if StartsWith(names[0], GlobalPrefix) then [names[0]] else [];
      LayersToExchangeIdempotent(names[1..]);
      LayersToExchangeAppend(head, LayersToExchange(names[1..]));
      if head != [] {
        assert LayersToExchange(head) == head by {
          assert head[1..] == [];
        }
      }
    }
  }

  /** The names of one submodule's parameters inside the whole model. */
  function Qualified(prefix: string, m: Module): (r: seq<string>)
    ensures |r| == |m.stateDict|
    ensures forall i :: 0 <= i < |r| ==> r[i] == prefix + m.stateDict[i].0
  {
    seq(|m.stateDict|, i requires 0 <= i < |m.stateDict| => prefix + m.stateDict[i].0)
  }

  /** The state-dict names of a FENDA model: its three submodules under their
      attribute names, in registration order. */
  function StateDictNames(model: FendaModel): seq<string>
  {
    Qualified("local_module.", model.localModule)
    + Qualified(GlobalPrefix, model.globalModule)
    + Qualified("head_module.", model.headModule)
  }

  lemma {:induction false} QualifiedKept(m: Module)
    ensures LayersToExchange(Qualified(GlobalPrefix, m)) == Qualified(GlobalPrefix, m)
    decreases |m.stateDict|
  {
    var q := Qualified(GlobalPrefix, m);
    if q != [] {
      var rest := m.(stateDict := m.stateDict[1..]);
      assert q[1..] == Qualified(GlobalPrefix, rest);
      assert q[0][..|GlobalPrefix|] == GlobalPrefix;
      QualifiedKept(rest);
    }
  }

  lemma {:induction false} QualifiedDropped(prefix: string, m: Module)
    requires prefix != [] && prefix[0] != 'g'
    ensures LayersToExchange(Qualified(prefix, m)) == []
    decreases |m.stateDict|
  {
    var q := Qualified(prefix, m);
    if q != [] {
      var rest := m.(stateDict := m.stateDict[1..]);
      assert q[1..] == Qualified(prefix, rest);
      assert q[0][0] == prefix[0];
      QualifiedDropped(prefix, rest);
    }
  }

  /** `get_parameter_exchanger`: the layers of the model's state dict that the
      exchanger sends and receives. */
  function GetParameterExchanger(model: FendaModel): (layers: seq<string>)
    ensures forall s :: s in layers ==> s in StateDictNames(model) && StartsWith(s, GlobalPrefix)
    ensures forall s :: s in StateDictNames(model) && StartsWith(s, GlobalPrefix) ==> s in layers
  {
    LayersToExchange(StateDictNames(model))
  }

  /** The exchanged layers are exactly the global module's parameters, in the
      global module's own order: no local or head parameter is exchanged. */
  lemma ExchangedLayersAreGlobal(model: FendaModel)
    ensures GetParameterExchanger(model) == Qualified(GlobalPrefix, model.globalModule)
  {
    var l := Qualified("local_module.", model.localModule);
    var g := Qualified(GlobalPrefix, model.globalModule);
    var h := Qualified("head_module.", model.headModule);
    LayersToExchangeAppend(l + g, h);
    LayersToExchangeAppend(l, g);
    QualifiedDropped("local_module.", model.localModule);
    QualifiedKept(model.globalModule);
    QualifiedDropped("head_module.", model.headModule);
  }

  // ---------------------------------------------------------------------------
  // The client

  class FendaClient {
    var weights: AuxWeights
    const numerics: Numerics
    var model: FendaModel
    var oldLocalModule: Option<Module>
    var oldGlobalModule: Option<Module>
    var aggregatedGlobalModule: Option<Module>

    /** Every snapshot the client keeps is frozen. */
    ghost predicate SnapshotsFrozen()
      reads this
    {
      && (oldLocalModule.Some? ==> Frozen(oldLocalModule.value))
      && (oldGlobalModule.Some? ==> Frozen(oldGlobalModule.value))
      && (aggregatedGlobalModule.Some? ==> Frozen(aggregatedGlobalModule.value))
    }

    constructor (weights: AuxWeights, numerics: Numerics, model: FendaModel)
      ensures this.weights == weights && this.numerics == numerics && this.model == model
      ensures oldLocalModule.None? && oldGlobalModule.None? && aggregatedGlobalModule.None?
      ensures SnapshotsFrozen()
    {
      this.weights := weights;
      this.numerics := numerics;
      this.model := model;
      oldLocalModule := None;
      oldGlobalModule := None;
      aggregatedGlobalModule := None;
    }

    /** `update_after_train`: when the old modules are in use, snapshot the
        local and global modules as they are after training. */
    method UpdateAfterTrain()
      requires SnapshotsFrozen()
      modifies this
      ensures SnapshotsFrozen()
      ensures UsesOldModules(weights) ==>
        && oldLocalModule == Some(CloneAndFreeze(model.localModule))
        && oldGlobalModule == Some(CloneAndFreeze(model.globalModule))
      ensures !UsesOldModules(weights) ==>
        oldLocalModule == old(oldLocalModule) && oldGlobalModule == old(oldGlobalModule)
      ensures model == old(model) && weights == old(weights) && aggregatedGlobalModule == old(aggregatedGlobalModule)
    {
      if Truthy(weights.contrastiveLossWeight) || PerFclSet(weights) {
        oldLocalModule := Some(CloneAndFreeze(model.localModule));
        oldGlobalModule := Some(CloneAndFreeze(model.globalModule));
      }
    }

    /** `update_before_train`: with PerFCL set, snapshot the global module as
        received from the server. */
    method UpdateBeforeTrain()
      requires SnapshotsFrozen()
      modifies this
      ensures SnapshotsFrozen()
      ensures PerFclSet(weights) ==> aggregatedGlobalModule == Some(CloneAndFreeze(model.globalModule))
      ensures !PerFclSet(weights) ==> aggregatedGlobalModule == old(aggregatedGlobalModule)
      ensures model == old(model) && weights == old(weights)
      ensures oldLocalModule == old(oldLocalModule) && oldGlobalModule == old(oldGlobalModule)
    {
      if PerFclSet(weights) {
        aggregatedGlobalModule := Some(CloneAndFreeze(model.globalModule));
      }
    }

    /** `predict`: the model's predictions and features, with the snapshot
        features added. `modelForward` is the live model's forward pass and
        `snapshotForward(m, x)` a snapshot's output on `x`, reshaped. */
    method Predict(input: TorchInput, modelForward: Tensor -> (map<string, Tensor>, map<string, Tensor>), snapshotForward: (Module, Tensor) -> Tensor)
      returns (r: Result<(map<string, Tensor>, map<string, Tensor>)>)
      ensures input.Named? ==> r == Err(AssertionError)
      ensures input.Single? ==>
        var out := modelForward(input.tensor);
        var missing := MissingSizeKey(weights, oldLocalModule, oldGlobalModule, aggregatedGlobalModule, out.1);
        r == if missing.Some? then Err(KeyError(missing.value))
             else Ok((out.0, out.1 + SnapshotFeatures(weights, oldLocalModule, oldGlobalModule, aggregatedGlobalModule, input.tensor, snapshotForward)))
      ensures r.Ok? ==> input.Single? && modelForward(input.tensor).1.Keys <= r.value.1.Keys
    {
      if input.Named? {
        return Err(AssertionError);
      }
      var x := input.tensor;
      var preds, features := modelForward(x).0, modelForward(x).1;
      ghost var original := features;
      if Truthy(weights.contrastiveLossWeight) || PerFclSet(weights) {
        if oldLocalModule.Some? {
          if "local_features" !in features {
            return Err(KeyError("local_features"));
          }
          features := features["old_local_features" := snapshotForward(oldLocalModule.value, x)];
          if PerFclSet(weights) {
            if oldGlobalModule.Some? {
              if "global_features" !in features {
                return Err(KeyError("global_features"));
              }
              features := features["old_global_features" := snapshotForward(oldGlobalModule.value, x)];
            }
            if aggregatedGlobalModule.Some? {
              if "global_features" !in features {
                return Err(KeyError("global_features"));
              }
              features := features["aggregated_global_features" := snapshotForward(aggregatedGlobalModule.value, x)];
            }
          }
        }
      }
      assert features == original + SnapshotFeatures(weights, oldLocalModule, oldGlobalModule, aggregatedGlobalModule, x, snapshotForward);
      r := Ok((preds, features));
    }

    /** `compute_loss_and_additional_losses`, accumulating the total loss term
        by term as the Python client does. */
    method ComputeLossAndAdditionalLosses(preds: map<string, Tensor>, features: map<string, Tensor>, target: Tensor)
      returns (r: Result<(real, map<string, real>)>)
      ensures r == FendaLosses(weights, preds, features, target, numerics)
    {
      if "prediction" !in preds {
        return Err(KeyError("prediction"));
      }
      var loss := numerics.criterion(preds["prediction"], target);
      var total := loss;
      var additional := map["loss" := loss];

      var cos :- CosSimTerm(weights, features, numerics);
      if cos.Some? {
        total := total + weights.cosSimLossWeight.value * cos.value;
        additional := additional["cos_sim_loss" := cos.value];
      }

      var con :- ContrastiveTerm(weights, features, numerics);
      if con.Some? {
        total := total + weights.contrastiveLossWeight.value * con.value;
        additional := additional["contrastive_loss" := con.value];
      }

      var per :- PerFclTerms(weights, features, numerics);
      if per.Some? {
        var (w0, w1) := weights.perfclLossWeights.value;
        total := total + (w0 * per.value.0 + w1 * per.value.1);
        additional := additional["contrastive_loss_minimize" := per.value.0];
        additional := additional["contrastive_loss_maximize" := per.value.1];
      }

      assert total == loss + AuxiliaryLoss(weights, cos, con, per);
      additional := additional["total_loss" := total];
      assert additional == LossBundle(loss, cos, con, per, total);
      r := Ok((total, additional));
    }

    /** `compute_evaluation_loss`: the checkpoint loss is the plain loss, and the
        additional losses are those of the training path. */
    method ComputeEvaluationLoss(preds: map<string, Tensor>, features: map<string, Tensor>, target: Tensor)
      returns (r: Result<EvaluationLosses>)
      ensures r.Ok? <==> FendaLosses(weights, preds, features, target, numerics).Ok?
      ensures r.Err? ==> r.error == FendaLosses(weights, preds, features, target, numerics).error
      ensures r.Ok? ==>
        && r.value.additionalLosses == FendaLosses(weights, preds, features, target, numerics).value.1
        && "loss" in r.value.additionalLosses
        && r.value.checkpoint == r.value.additionalLosses["loss"]
    {
      var losses := ComputeLossAndAdditionalLosses(preds, features, target);
      if losses.Err? {
        return Err(losses.error);
      }
      FendaLossKeys(weights, preds, features, target, numerics);
      r := Ok(EvaluationLosses(losses.value.1["loss"], losses.value.1));
    }
  }

  /** Snapshots switch the contrastive terms on: when `predict` has added the
      snapshot features, the contrastive loss is active whenever its weight is
      truthy, and with PerFCL set and both old snapshots present the PerFCL
      terms are active with the aggregated features available whenever the
      aggregated snapshot exists. */
  lemma SnapshotsActivateTerms(
    w: AuxWeights, oldLocal: Option<Module>, oldGlobal: Option<Module>, aggregated: Option<Module>,
    x: Tensor, forward: (Module, Tensor) -> Tensor, modelFeatures: map<string, Tensor>
  )
    requires oldLocal.Some?
    ensures var f := modelFeatures + SnapshotFeatures(w, oldLocal, oldGlobal, aggregated, x, forward);
      && (Truthy(w.contrastiveLossWeight) ==> ContrastiveActive(w, f))
      && (PerFclSet(w) && oldGlobal.Some? ==> PerFclActive(w, f))
      && (PerFclSet(w) && aggregated.Some? ==> "aggregated_global_features" in f)
  {
  }
}
