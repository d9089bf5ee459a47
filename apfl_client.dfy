/** The APFL (adaptive personalised federated learning) client: a global and a
    local model trained side by side, mixed into a personal prediction by a
    coefficient alpha. The model keeps the control logic of the client and
    abstracts every tensor computation: optimizers are objects that only record
    the `zero_grad` and `step` calls they receive, losses are the `real` values
    of an uninterpreted criterion. */
module Apfl {
  import opened Common

  datatype OptimizerOp = ZeroGrad | Step

  /** One call made on one optimizer. */
  datatype OptimizerCall = Call(optimizer: Optimizer, op: OptimizerOp)

  /** Instrumentation shared by the optimizers of a client: every call made on
      any of them is appended here, so that the order of calls across
      optimizers is observable. */
  class CallLog {
    var calls: seq<OptimizerCall>

    constructor ()
      ensures calls == []
    {
      calls := [];
    }
  }

  /** An optimizer whose numerical update is left out; what remains observable
      is the sequence of calls it receives. */
  class Optimizer {
    const log: CallLog

    constructor (log: CallLog)
      ensures this.log == log
    {
      this.log := log;
    }

    method ZeroGrad()
      modifies log
      ensures log.calls == old(log.calls) + [Call(this, OptimizerOp.ZeroGrad)]
    {
      log.calls := log.calls + [Call(this, OptimizerOp.ZeroGrad)];
    }

    method Step()
      modifies log
      ensures log.calls == old(log.calls) + [Call(this, OptimizerOp.Step)]
    {
      log.calls := log.calls + [Call(this, OptimizerOp.Step)];
    }
  }

  /** The mixing part of the APFL model. How `update_alpha` computes the new
      coefficient from gradients is not modelled: the caller supplies it.
      `alphaUpdates` counts the calls of `update_alpha`. */
  class ApflModel {
    var alpha: real
    const adaptiveAlpha: bool
    var alphaUpdates: nat

    constructor (alpha: real, adaptiveAlpha: bool)
      ensures this.alpha == alpha && this.adaptiveAlpha == adaptiveAlpha && alphaUpdates == 0
    {
      this.alpha := alpha;
      this.adaptiveAlpha := adaptiveAlpha;
      alphaUpdates := 0;
    }

    method UpdateAlpha(next: real)
      modifies this
      ensures alpha == next && alphaUpdates == old(alphaUpdates) + 1
    {
      alpha := next;
      alphaUpdates := alphaUpdates + 1;
    }
  }

  /** What `get_optimizer` may hand back: one optimizer or a dictionary of them. */
  datatype OptimizerChoice = SingleOptimizer(optimizer: Optimizer) | OptimizerDict(optimizers: map<string, Optimizer>)

  // ---------------------------------------------------------------------------
  // Pure part

  function IsStartOfLocalTraining(step: int): (b: bool)
    ensures b <==> step == 0
  {
    step == 0
  }

  /** The condition under which `update_after_step` calls `update_alpha`. */
  predicate AlphaGate(step: int, adaptiveAlpha: bool)
  {
    IsStartOfLocalTraining(step) && adaptiveAlpha
  }

  /** `compute_loss_and_additional_losses`: the personal loss, and the global and
      local losses as additional losses. The predictions must be a dictionary
      holding the three keys, looked up in the order personal, global, local. */
  function ApflLosses(preds: TorchInput, target: Tensor, criterion: (Tensor, Tensor) -> real): (r: Result<(real, map<string, real>)>)
    ensures preds.Single? ==> r == Err(AssertionError)
    ensures r.Ok? <==> preds.Named? && "personal" in preds.tensors && "global" in preds.tensors && "local" in preds.tensors
    ensures preds.Named? && "personal" !in preds.tensors ==> r == Err(KeyError("personal"))
    ensures preds.Named? && "personal" in preds.tensors && "global" !in preds.tensors ==> r == Err(KeyError("global"))
    ensures preds.Named? && "personal" in preds.tensors && "global" in preds.tensors && "local" !in preds.tensors
            ==> r == Err(KeyError("local"))
    ensures r.Ok? ==>
      && r.value.0 == criterion(preds.tensors["personal"], target)
      && r.value.1.Keys == {"global", "local"}
      && r.value.1["global"] == criterion(preds.tensors["global"], target)
      && r.value.1["local"] == criterion(preds.tensors["local"], target)
  {
    if preds.Single? then Err(AssertionError)
    else
      var personal :- Lookup(preds.tensors, "personal");
      var global :- Lookup(preds.tensors, "global");
      var local :- Lookup(preds.tensors, "local");
      Ok((criterion(personal, target), map["global" := criterion(global, target), "local" := criterion(local, target)]))
  }

  /** The five optimizer calls of one complete training step, in protocol order. */
  function ProtocolCalls(g: Optimizer, l: Optimizer): seq<OptimizerCall>
  {
    [Call(g, ZeroGrad), Call(g, Step), Call(g, ZeroGrad), Call(l, ZeroGrad), Call(l, Step)]
  }

  /** The optimizer calls `train_step` makes before it returns or raises:
      none when the input is not a single tensor or there is no global
      optimizer; the three global calls when there is no local optimizer;
      all but the local step when the loss computation raises. */
  function TrainStepCalls(input: TorchInput, optimizers: map<string, Optimizer>, lossesOk: bool): seq<OptimizerCall>
  {
    if input.Named? || "global" !in optimizers then []
    else if "local" !in optimizers then
      var g := optimizers["global"];
      [Call(g, ZeroGrad), Call(g, Step), Call(g, ZeroGrad)]
    else
      var full := ProtocolCalls(optimizers["global"], optimizers["local"]);
      if lossesOk then full else full[..4]
  }

  /** What `train_step` returns: the training losses built from
      `compute_loss_and_additional_losses` and the predictions of the
      personalised forward pass, unchanged. */
  function TrainStepResult(
    input: TorchInput, optimizers: map<string, Optimizer>, target: Tensor,
    predict: Tensor -> (TorchInput, map<string, Tensor>), criterion: (Tensor, Tensor) -> real
  ): Result<(TrainingLosses, TorchInput)>
  {
    if input.Named? then Err(AssertionError)
    else if "global" !in optimizers then Err(KeyError("global"))
    else if "local" !in optimizers then Err(KeyError("local"))
    else
      var preds := predict(input.tensor).0;
      var losses :- ApflLosses(preds, target, criterion);
      Ok((TrainingLosses(losses.0, losses.1), preds))
  }

  // ---------------------------------------------------------------------------
  // The client

  class ApflClient {
    const model: ApflModel
    const criterion: (Tensor, Tensor) -> real
    const log: CallLog
    var optimizers: map<string, Optimizer>

    /** Every optimizer the client holds reports to the client's call log. */
    ghost predicate Instrumented()
      reads this
    {
      forall k :: k in optimizers ==> optimizers[k].log == log
    }

    constructor (model: ApflModel, criterion: (Tensor, Tensor) -> real, log: CallLog)
      ensures this.model == model && this.criterion == criterion && this.log == log
      ensures optimizers == map[] && Instrumented()
    {
      this.model := model;
      this.criterion := criterion;
      this.log := log;
      optimizers := map[];
    }

    /** `set_optimizer`: accepts the optimizers only as a dictionary whose keys
        are exactly "global" and "local"; otherwise the assertion fails and the
        client's optimizers are left as they were. */
    method SetOptimizer(choice: OptimizerChoice) returns (r: Result<()>)
      modifies this
      ensures r.Ok? <==> choice.OptimizerDict? && choice.optimizers.Keys == {"global", "local"}
      ensures r.Err? ==> r.error == AssertionError
      ensures optimizers == if r.Ok? then choice.optimizers else old(optimizers)
    {
      if choice.OptimizerDict? && choice.optimizers.Keys == {"global", "local"} {
        optimizers := choice.optimizers;
        r := Ok(());
      } else {
        r := Err(AssertionError);
      }
    }

    /** `update_after_step`: `update_alpha` runs, with the coefficient it would
        compute, exactly when the step is the first of local training and alpha
        is adaptive; otherwise alpha is left alone. */
    method UpdateAfterStep(step: int, nextAlpha: real)
      modifies model
      ensures AlphaGate(step, model.adaptiveAlpha) ==> model.alpha == nextAlpha && model.alphaUpdates == old(model.alphaUpdates) + 1
      ensures !AlphaGate(step, model.adaptiveAlpha) ==> model.alpha == old(model.alpha) && model.alphaUpdates == old(model.alphaUpdates)
    {
      if IsStartOfLocalTraining(step) && model.adaptiveAlpha {
        model.UpdateAlpha(nextAlpha);
      }
    }

    /** `train_step`. `predict` is the personalised forward pass of the model as
        it is after the global optimizer's step; the global-only forward pass
        and both backward passes feed only the optimizers, whose numerics are
        left out. */
    method TrainStep(input: TorchInput, target: Tensor, predict: Tensor -> (TorchInput, map<string, Tensor>))
      returns (r: Result<(TrainingLosses, TorchInput)>)
      requires Instrumented()
      modifies log
      ensures r == TrainStepResult(input, optimizers, target, predict, criterion)
      ensures input.Single? ==>
        log.calls == old(log.calls) + TrainStepCalls(input, optimizers, ApflLosses(predict(input.tensor).0, target, criterion).Ok?)
      ensures input.Named? ==> log.calls == old(log.calls)
    {
      if input.Named? {
        return Err(AssertionError);
      }
      if "global" !in optimizers {
        return Err(KeyError("global"));
      }
      var g := optimizers["global"];
      g.ZeroGrad();
      g.Step();
      g.ZeroGrad();
      if "local" !in optimizers {
        return Err(KeyError("local"));
      }
      var l := optimizers["local"];
      l.ZeroGrad();
      var preds := predict(input.tensor).0;
      var losses := ApflLosses(preds, target, criterion);
      if losses.Err? {
        return Err(losses.error);
      }
      l.Step();
      r := Ok((TrainingLosses(losses.value.0, losses.value.1), preds));
    }
  }

  // ---------------------------------------------------------------------------
  // Properties of the protocol

  /** The calls of `n` consecutive successful training steps. */
  function Batches(g: Optimizer, l: Optimizer, n: nat): seq<OptimizerCall>
  {
    if n == 0 then [] else Batches(g, l, n - 1) + ProtocolCalls(g, l)
  }

  /** With two distinct optimizers, one step zeroes the global optimizer twice
      and steps it once, and zeroes and steps the local optimizer once. */
  lemma ProtocolCounts(g: Optimizer, l: Optimizer)
    requires g != l
    ensures multiset(ProtocolCalls(g, l))[Call(g, Step)] == 1
    ensures multiset(ProtocolCalls(g, l))[Call(l, Step)] == 1
    ensures multiset(ProtocolCalls(g, l))[Call(g, ZeroGrad)] == 2
    ensures multiset(ProtocolCalls(g, l))[Call(l, ZeroGrad)] == 1
  {
  }

  /** Exactly once per batch: over `n` successful training steps each of two
      distinct optimizers is stepped exactly `n` times. */
  lemma {:induction false} StepsPerBatch(g: Optimizer, l: Optimizer, n: nat)
    requires g != l
    ensures multiset(Batches(g, l, n))[Call(g, Step)] == n
    ensures multiset(Batches(g, l, n))[Call(l, Step)] == n
  {
    if n > 0 {
      StepsPerBatch(g, l, n - 1);
      assert multiset(Batches(g, l, n)) == multiset(Batches(g, l, n - 1)) + multiset(ProtocolCalls(g, l));
      ProtocolCounts(g, l);
    }
  }

  /** Order within a step: the global step comes before the second zeroing of
      the global gradients and before every local call, and the local step is
      the last call. */
  lemma ProtocolOrder(g: Optimizer, l: Optimizer)
    requires g != l
    ensures var p := ProtocolCalls(g, l);
      && (forall i :: 0 <= i < |p| && p[i] == Call(g, Step) ==> i == 1)
      && p[2] == Call(g, ZeroGrad)
      && (forall j :: 0 <= j < |p| && p[j].optimizer == l ==> 1 < j)
      && p[|p| - 1] == Call(l, Step)
  {
  }

  /** A step that returns normally has made the whole protocol, and a step
      that raises has not stepped the local optimizer: either both models are
      updated or the local one is not. */
  lemma TrainStepAllOrLocalNothing(
    input: TorchInput, optimizers: map<string, Optimizer>, target: Tensor,
    predict: Tensor -> (TorchInput, map<string, Tensor>), criterion: (Tensor, Tensor) -> real
  )
    requires input.Single?
    ensures var ok := ApflLosses(predict(input.tensor).0, target, criterion).Ok?;
      var calls := TrainStepCalls(input, optimizers, ok);
      var r := TrainStepResult(input, optimizers, target, predict, criterion);
      && (r.Ok? <==> "global" in optimizers && "local" in optimizers && ok)
      && (r.Ok? ==> calls == ProtocolCalls(optimizers["global"], optimizers["local"]))
      && (r.Err? && "local" in optimizers && ("global" !in optimizers || optimizers["local"] != optimizers["global"])
          ==> multiset(calls)[Call(optimizers["local"], Step)] == 0)
  {
    var ok := ApflLosses(predict(input.tensor).0, target, criterion).Ok?;
    var calls := TrainStepCalls(input, optimizers, ok);
    if "global" in optimizers && "local" in optimizers {
      var g, l := optimizers["global"], optimizers["local"];
      if !ok && g != l {
        assert calls == [Call(g, ZeroGrad), Call(g, Step), Call(g, ZeroGrad), Call(l, ZeroGrad)];
      }
    }
  }

  /** A rejected (dictionary) input touches no optimizer. */
  lemma RejectedInputTouchesNothing(input: TorchInput, optimizers: map<string, Optimizer>, lossesOk: bool)
    requires input.Named?
    ensures TrainStepCalls(input, optimizers, lossesOk) == []
  {
  }

  /** Over a local-training run whose steps are numbered 0, 1, ..., n-1 the
      gate of `update_after_step` opens exactly once if alpha is adaptive and
      the run is not empty, and never otherwise. */
  function GateOpenings(steps: seq<int>, adaptiveAlpha: bool): nat
  {
    if steps == [] then 0
    else (if AlphaGate(steps[0], adaptiveAlpha) then 1 else 0) + GateOpenings(steps[1..], adaptiveAlpha)
  }

  function StepsFrom(start: int, n: nat): (s: seq<int>)
    ensures |s| == n && forall i :: 0 <= i < n ==> s[i] == start + i
    decreases n
  {
    if n == 0 then [] else [start] + StepsFrom(start + 1, n - 1)
  }

  lemma {:induction false} NoGateAfterStart(start: int, n: nat, adaptiveAlpha: bool)
    requires start > 0
    ensures GateOpenings(StepsFrom(start, n), adaptiveAlpha) == 0
    decreases n
  {
    if n > 0 {
      assert StepsFrom(start, n)[1..] == StepsFrom(start + 1, n - 1);
      NoGateAfterStart(start + 1, n - 1, adaptiveAlpha);
    }
  }

  lemma {:induction false} AlphaUpdatedOncePerRun(n: nat, adaptiveAlpha: bool)
    ensures GateOpenings(StepsFrom(0, n), adaptiveAlpha) == if adaptiveAlpha && n > 0 then 1 else 0
  {
    if n > 0 {
      assert StepsFrom(0, n)[1..] == StepsFrom(1, n - 1);
      NoGateAfterStart(1, n - 1, adaptiveAlpha);
    }
  }
}
