/**
 * The tensor name registry (`TensorNameScope`) that the deferred interpreter reads and writes, and
 * the fluent `OpBuilder` over an `Operation`.
 */
module OpBuilder {
  import opened Base

  /** The name the registry holds for `t`, or the default name when it holds none. */
  function NameIn(names: map<TensorId, string>, default: string, t: TensorId): string {
    if t in names then names[t] else default
  }

  /** After recording `n` for `t`, a lookup of `t` yields `n`. */
  lemma RecordThenLookup(names: map<TensorId, string>, default: string, t: TensorId, n: string)
    ensures NameIn(names[t := n], default, t) == n
  {
  }

  /** Recording a name for `t` leaves the name of every other tensor as it was. */
  lemma RecordKeepsOthers(names: map<TensorId, string>, default: string, t: TensorId, n: string, u: TensorId)
    requires u != t
    ensures NameIn(names[t := n], default, u) == NameIn(names, default, u)
  {
  }

  /** A map from tensor identity to the tensor's logical name, with a default name. */
  class TensorNameScope {
    const defaultTensorName: string
    var tensorNames: map<TensorId, string>

    constructor ()
      ensures defaultTensorName == ""
      ensures tensorNames == map[]
    {
      defaultTensorName := "";
      tensorNames := map[];
    }

    function NameOf(t: TensorId): string
      reads this
    {
      NameIn(tensorNames, defaultTensorName, t)
    }

    method Lookup(t: TensorId) returns (name: string)
      ensures t in tensorNames ==> name == tensorNames[t]
      ensures t !in tensorNames ==> name == defaultTensorName
    {
      name := if t in tensorNames then tensorNames[t] else defaultTensorName;
    }

    method Record(t: TensorId, name: string)
      modifies this`tensorNames
      ensures tensorNames == old(tensorNames)[t := name]
      ensures NameOf(t) == name
      ensures forall u :: u != t ==> NameOf(u) == old(NameOf(u))
    {
      tensorNames := tensorNames[t := name];
    }
  }

  /** The operation an `OpBuilder` fills in. */
  class Operation {
    var opName: string
    var opTypeName: string

    constructor ()
      ensures opName == "" && opTypeName == ""
    {
      opName := "";
      opTypeName := "";
    }
  }

  class OpBuilder {
    const operation: Operation

    /** `OpBuilder()` owns a newly made operation. */
    constructor ()
      ensures fresh(operation)
      ensures operation.opName == "" && operation.opTypeName == ""
    {
      operation := new Operation();
    }

    /** Sets the operation's name and returns the same builder, so that calls chain. */
    method Name(opName: string) returns (self: OpBuilder)
      modifies operation`opName
      ensures self == this
      ensures operation.opName == opName
      ensures operation.opTypeName == old(operation.opTypeName)
    {
      operation.opName := opName;
      self := this;
    }
  }
}
