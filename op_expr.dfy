/**
 * Operation expressions and the way an interpreter picks the `Apply_` overload for one: it tries
 * a fixed list of expression classes in order (a chain of `dynamic_cast`s) and the first class
 * the expression belongs to wins.
 */
module OpExpr {
  import opened Base

  /** The fields of an operator configuration that the interpreters read or set. */
  datatype OperatorConf = OperatorConf(
    name: string,
    deviceTag: Option<string>,
    scopeSymbolId: Option<int>,
    inputLbns: map<string, string>)  // input binding name -> logical blob name

  /** The configuration the model-init, path-input and model-load generators return: an empty one. */
  const EmptyOpConf := OperatorConf("", None, None, map[])

  /** The concrete classes derived from `BuiltinOpExpr`. */
  datatype BuiltinKind =
    | UserOp
    | VariableOp
    | CastToMirroredOp
    | CastFromMirroredOp
    | DistributeSplitOp
    | DistributeCloneOp
    | DistributeConcatOp
    | DistributeAddOp
    | OtherBuiltinOp(typeName: string)

  datatype OpExpr =
    | BuiltinOpExpr(
        kind: BuiltinKind,
        opName: string,
        indexedIbns: seq<string>,
        indexedObns: seq<string>,
        conf: OperatorConf)  // the configuration `BuildOpConf` writes
    | FunctionOpExpr(functionName: string)
    | OtherOpExpr(typeName: string)
  {
    function InputNum(): nat requires BuiltinOpExpr? { |indexedIbns| }
    function OutputNum(): nat requires BuiltinOpExpr? { |indexedObns| }
  }

  /** A class an `APPLY_IF` tests for. */
  datatype ExprClass = FunctionOp | BuiltinOp | Builtin(kind: BuiltinKind)

  /** Whether `dynamic_cast` of `e` to class `c` succeeds. */
  predicate IsA(e: OpExpr, c: ExprClass) {
    match c
    case FunctionOp => e.FunctionOpExpr?
    case BuiltinOp => e.BuiltinOpExpr?
    case Builtin(k) => e.BuiltinOpExpr? && e.kind == k
  }

  /** The index of the first class in `classes` that `e` belongs to, if any. */
  function FirstMatch(e: OpExpr, classes: seq<ExprClass>): (r: Option<nat>)
    ensures r.Some? ==> r.value < |classes| && IsA(e, classes[r.value])
    ensures r.Some? ==> forall j :: 0 <= j < r.value ==> !IsA(e, classes[j])
    ensures r.None? <==> forall j :: 0 <= j < |classes| ==> !IsA(e, classes[j])
  {
    if |classes| == 0 then None
    else if IsA(e, classes[0]) then Some(0)
    else match FirstMatch(e, classes[1..])
      case None => None
      case Some(i) => Some(i + 1)
  }

  /** The order of `LazyInterpreter::Apply`. */
  const LazyDispatchOrder: seq<ExprClass> := [FunctionOp, BuiltinOp]

  /** The order of `EagerInterpreter::Apply`. */
  const EagerDispatchOrder: seq<ExprClass> := [
    Builtin(UserOp), Builtin(VariableOp), Builtin(CastToMirroredOp), Builtin(CastFromMirroredOp),
    Builtin(DistributeSplitOp), Builtin(DistributeCloneOp), Builtin(DistributeConcatOp),
    Builtin(DistributeAddOp), FunctionOp]

  /** The deferred interpreter takes function expressions first and every builtin expression second. */
  lemma LazyDispatch(e: OpExpr)
    ensures FirstMatch(e, LazyDispatchOrder) == (
      if e.FunctionOpExpr? then Some(0)
      else if e.BuiltinOpExpr? then Some(1)
      else None)
  {
    assert IsA(e, LazyDispatchOrder[0]) <==> e.FunctionOpExpr?;
    assert IsA(e, LazyDispatchOrder[1]) <==> e.BuiltinOpExpr?;
  }

  /** The position of each builtin kind in the eager order; the last position is the function class. */
  function EagerIndex(k: BuiltinKind): (i: nat)
    requires !k.OtherBuiltinOp?
    ensures i < 8 && EagerDispatchOrder[i] == Builtin(k)
  {
    match k
    case UserOp => 0
    case VariableOp => 1
    case CastToMirroredOp => 2
    case CastFromMirroredOp => 3
    case DistributeSplitOp => 4
    case DistributeCloneOp => 5
    case DistributeConcatOp => 6
    case DistributeAddOp => 7
  }

  /**
   * The eager interpreter selects the overload of the expression's own builtin kind, or the
   * function overload; an expression of any other class is matched by none.
   */
  lemma {:induction false} EagerDispatch(e: OpExpr)
    ensures FirstMatch(e, EagerDispatchOrder) == (
      if e.FunctionOpExpr? then Some(8)
      else if e.BuiltinOpExpr? && !e.kind.OtherBuiltinOp? then Some(EagerIndex(e.kind))
      else None)
  {
    var r := FirstMatch(e, EagerDispatchOrder);
    if e.FunctionOpExpr? {
      assert IsA(e, EagerDispatchOrder[8]);
      assert forall j :: 0 <= j < 8 ==> !IsA(e, EagerDispatchOrder[j]);
    } else if e.BuiltinOpExpr? && !e.kind.OtherBuiltinOp? {
      var i := EagerIndex(e.kind);
      assert IsA(e, EagerDispatchOrder[i]);
      assert forall j :: 0 <= j < |EagerDispatchOrder| && j != i ==> EagerDispatchOrder[j] != Builtin(e.kind);
    } else {
      assert forall j :: 0 <= j < |EagerDispatchOrder| ==> !IsA(e, EagerDispatchOrder[j]);
    }
  }
}
