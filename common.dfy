/** Values shared by the three client models: the abstract tensor, the
    tensor-or-dictionary inputs the training library passes around, the loss
    bundles, and the errors a Python client raises (a failed `assert`, a
    missing dictionary key, an array shape clash). */
module Common {

  datatype Option<+T> = None | Some(value: T) {
    function GetOr(default: T): T {
      match this
      case Some(v) => v
      case None => default
    }
  }

  /** The exceptions the modelled client code can raise. */
  datatype Error =
    | AssertionError           // a failed `assert` in the client
    | KeyError(key: string)    // a dictionary lookup of an absent key
    | ShapeError               // element-wise array arithmetic on layers of different sizes
    | NonFiniteScale           // a division by a zero norm, which turns weights into inf/nan

  /** The outcome of an operation that may raise; works with `:-`. */
  datatype Result<+T> = Ok(value: T) | Err(error: Error) {
    predicate IsFailure() { Err? }

    function PropagateFailure<U>(): Result<U>
      requires Err?
    {
      Err(error)
    }

    function Extract(): T
      requires Ok?
    {
      value
    }
  }

  /** A tensor. Its numbers are carried along but never inspected by the model:
      every numerical operation on tensors is an uninterpreted function value. */
  datatype Tensor = Tensor(values: seq<real>)

  /** What a model takes as input or returns as predictions: a single tensor or
      a dictionary of tensors indexed by name. */
  datatype TorchInput = Single(tensor: Tensor) | Named(tensors: map<string, Tensor>)

  /** Subscripting a Python dictionary: the value, or a KeyError naming the key. */
  function Lookup<V>(m: map<string, V>, key: string): (r: Result<V>)
    ensures r.Ok? <==> key in m
    ensures r.Ok? ==> r.value == m[key]
    ensures r.Err? ==> r.error == KeyError(key)
  {
    if key in m then Ok(m[key]) else Err(KeyError(key))
  }

  /** The losses of one training batch: the loss that is backpropagated and the
      named losses that are only reported. */
  datatype TrainingLosses = TrainingLosses(backward: real, additionalLosses: map<string, real>)

  /** The losses of one evaluation batch: the loss used for checkpointing and
      the named losses that are only reported. */
  datatype EvaluationLosses = EvaluationLosses(checkpoint: real, additionalLosses: map<string, real>)
}
