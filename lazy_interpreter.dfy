/**
 * The deferred (graph-building) interpreter: a builtin op is added to the current job graph with
 * the registered names of its inputs, and each of its outputs is registered under the name
 * "<op name>/<output binding name>". It submits no logical run and touches no blob.
 */
module LazyInterpreter {
  import opened Base
  import opened Maps
  import opened OpExpr
  import opened Runtime
  import opened Interpreter
  import opened OpBuilder

  /** The registry names of `ts`, in order: what `Lookup` returns for each. */
  function NamesOf(names: map<TensorId, string>, default: string, ts: seq<TensorId>): (r: seq<string>)
    ensures |r| == |ts|
    ensures forall i :: 0 <= i < |ts| ==> r[i] == NameIn(names, default, ts[i])
  {
    if ts == [] then [] else [NameIn(names, default, ts[0])] + NamesOf(names, default, ts[1..])
  }

  /** The names recorded for outputs: "<op name>/<obn>" for each output binding name. */
  function LogicalNames(opName: string, obns: seq<string>): (r: seq<string>)
    ensures |r| == |obns|
    ensures forall i :: 0 <= i < |obns| ==> r[i] == LogicalName(opName, obns[i])
  {
    if obns == [] then [] else [LogicalName(opName, obns[0])] + LogicalNames(opName, obns[1..])
  }

  /** The number of output binding names, from the first, whose blob description was inferred. */
  function FirstMissing(obns: seq<string>, descs: set<string>): (k: nat)
    ensures k <= |obns|
    ensures forall j :: 0 <= j < k ==> obns[j] in descs
    ensures k < |obns| ==> obns[k] !in descs
  {
    if obns == [] || obns[0] !in descs then 0 else 1 + FirstMissing(obns[1..], descs)
  }

  /** The first missing binding name is the one before which all are present. */
  lemma {:induction false} FirstMissingIs(obns: seq<string>, descs: set<string>, i: nat)
    requires i <= |obns|
    requires forall j :: 0 <= j < i ==> obns[j] in descs
    requires i < |obns| ==> obns[i] !in descs
    ensures FirstMissing(obns, descs) == i
  {
    if i > 0 {
      FirstMissingIs(obns[1..], descs, i - 1);
    }
  }

  /** The registry after registering output `i` under the logical name of `obns[i]`, in order. */
  function Recorded(names: map<TensorId, string>, opName: string, obns: seq<string>, outputs: seq<TensorId>): map<TensorId, string>
    requires |obns| == |outputs|
  {
    names + Assigned(outputs, LogicalNames(opName, obns))
  }

  /**
   * After registration every output tensor that does not occur again later in `outputs` is
   * registered under the logical name of its own binding name, and every other tensor keeps
   * its registration, or lack of one.
   */
  lemma RecordedNames(names: map<TensorId, string>, default: string, opName: string, obns: seq<string>, outputs: seq<TensorId>)
    requires |obns| == |outputs|
    ensures forall i :: 0 <= i < |outputs| && (forall j :: i < j < |outputs| ==> outputs[j] != outputs[i]) ==>
      NameIn(Recorded(names, opName, obns, outputs), default, outputs[i]) == LogicalName(opName, obns[i])
    ensures forall t :: t !in outputs ==>
      NameIn(Recorded(names, opName, obns, outputs), default, t) == NameIn(names, default, t)
    ensures forall t :: t !in outputs ==> (t in Recorded(names, opName, obns, outputs) <==> t in names)
  {
    var lns := LogicalNames(opName, obns);
    AssignedKeys(outputs, lns);
    forall i | 0 <= i < |outputs| && (forall j :: i < j < |outputs| ==> outputs[j] != outputs[i])
      ensures NameIn(Recorded(names, opName, obns, outputs), default, outputs[i]) == LogicalName(opName, obns[i])
    {
      AssignedAt(outputs, lns, i);
    }
  }

  /** Registering one more output is one more update of the registry. */
  lemma RecordedStep(names: map<TensorId, string>, opName: string, obns: seq<string>, outputs: seq<TensorId>, i: nat)
    requires i < |obns| == |outputs|
    ensures Recorded(names, opName, obns[..i + 1], outputs[..i + 1])
         == Recorded(names, opName, obns[..i], outputs[..i])[outputs[i] := LogicalName(opName, obns[i])]
  {
    var lns := LogicalNames(opName, obns[..i + 1]);
    assert obns[..i + 1][..i] == obns[..i];
    assert lns[..i] == LogicalNames(opName, obns[..i]);
    assert outputs[..i + 1] == outputs[..i] + [outputs[i]];
    assert lns == lns[..i] + [LogicalName(opName, obns[i])];
    AssignedSnoc(outputs[..i], lns[..i], outputs[i], LogicalName(opName, obns[i]));
  }

  /** The effect of one call: how it ends, the events it appends, the registry it leaves. */
  datatype LazyEffect = LazyEffect(outcome: Outcome, events: seq<Event>, names: map<TensorId, string>)

  /**
   * `LazyInterpreter::Apply_` for a builtin expression: check the input count, collect the input
   * names, add the op to the graph, check the output count, then register each output; a
   * binding name missing from the inferred blob descriptions aborts the registration there.
   */
  function LazyBuiltinSpec(svc: Services, ctx: InterpContext, default: string, e: OpExpr,
                           inputs: seq<TensorId>, outputs: seq<TensorId>, names: map<TensorId, string>): LazyEffect
    requires e.BuiltinOpExpr?
  {
    if |inputs| != e.InputNum() then LazyEffect(Fail(Fatal("Check failed: inputs.size() == input_num()")), [], names)
    else
      var ibn2names := Assigned(e.indexedIbns, NamesOf(names, default, inputs));
      var step := AddOpEffect(svc, e.conf, ctx, ibn2names);
      match step.result
      case Err(err) => LazyEffect(Fail(err), step.events, names)
      case Ok(attr) =>
        if |outputs| != e.OutputNum() then LazyEffect(Fail(Fatal("Check failed: outputs.size() == output_num()")), step.events, names)
        else
          var k := FirstMissing(e.indexedObns, attr.logicalBlobDescs);
          var recorded := Recorded(names, e.opName, e.indexedObns[..k], outputs[..k]);
          if k < |e.indexedObns| then LazyEffect(Fail(Fatal("Map::at: missing blob description")), step.events, recorded)
          else LazyEffect(Pass, step.events, recorded)
  }

  /**
   * A builtin call that succeeds has added one op to the graph in the strategy's inference mode,
   * with each input binding name bound to the registered name of its input, and has registered
   * each output under its logical name; `LazyBuiltinPassIff` says when it succeeds.
   */
  lemma LazyBuiltinPass(svc: Services, ctx: InterpContext, default: string, e: OpExpr,
                        inputs: seq<TensorId>, outputs: seq<TensorId>, names: map<TensorId, string>)
    requires e.BuiltinOpExpr?
    requires forall i, j :: 0 <= i < j < |e.indexedIbns| ==> e.indexedIbns[i] != e.indexedIbns[j]
    requires forall i, j :: 0 <= i < j < |outputs| ==> outputs[i] != outputs[j]
    ensures var r := LazyBuiltinSpec(svc, ctx, default, e, inputs, outputs, names);
      r.outcome.Pass? ==>
        && |inputs| == e.InputNum() && |outputs| == e.OutputNum()
        && |r.events| == 1 && r.events[0].AddAndInferOp?
        && (r.events[0].mode == MirroredInference <==> ctx.isMirroredStrategyEnabled)
        && (forall i :: 0 <= i < |inputs| ==>
              && e.indexedIbns[i] in r.events[0].conf.inputLbns
              && r.events[0].conf.inputLbns[e.indexedIbns[i]] == NameIn(names, default, inputs[i]))
        && (forall i :: 0 <= i < |outputs| ==>
              NameIn(r.names, default, outputs[i]) == LogicalName(e.opName, e.indexedObns[i]))
        && (forall t :: t !in outputs ==> NameIn(r.names, default, t) == NameIn(names, default, t))
  {
    var r := LazyBuiltinSpec(svc, ctx, default, e, inputs, outputs, names);
    if r.outcome.Pass? {
      LazyBuiltinPassSteps(svc, ctx, default, e, inputs, outputs, names);
      var ns := NamesOf(names, default, inputs);
      var ibn2names := Assigned(e.indexedIbns, ns);
      forall i | 0 <= i < |inputs|
        ensures e.indexedIbns[i] in ibn2names && ibn2names[e.indexedIbns[i]] == NameIn(names, default, inputs[i])
      {
        AssignedAt(e.indexedIbns, ns, i);
      }
      RecordedNames(names, default, e.opName, e.indexedObns, outputs);
    }
  }

  /** A builtin call that succeeds, unfolded into its parts. */
  lemma LazyBuiltinPassSteps(svc: Services, ctx: InterpContext, default: string, e: OpExpr,
                             inputs: seq<TensorId>, outputs: seq<TensorId>, names: map<TensorId, string>)
    requires e.BuiltinOpExpr? && LazyBuiltinSpec(svc, ctx, default, e, inputs, outputs, names).outcome.Pass?
    ensures |inputs| == e.InputNum() && |outputs| == e.OutputNum()
    ensures var step := AddOpEffect(svc, e.conf, ctx, Assigned(e.indexedIbns, NamesOf(names, default, inputs)));
      && step.result.Ok?
      && LazyBuiltinSpec(svc, ctx, default, e, inputs, outputs, names)
         == LazyEffect(Pass, step.events, Recorded(names, e.opName, e.indexedObns, outputs))
  {
    var obns := e.indexedObns;
    assert obns[..|obns|] == obns && outputs[..|outputs|] == outputs;
  }

  /**
   * A builtin call succeeds exactly when both counts match, the op is added, and every output
   * binding name has an inferred blob description.
   */
  lemma LazyBuiltinPassIff(svc: Services, ctx: InterpContext, default: string, e: OpExpr,
                           inputs: seq<TensorId>, outputs: seq<TensorId>, names: map<TensorId, string>)
    requires e.BuiltinOpExpr?
    ensures LazyBuiltinSpec(svc, ctx, default, e, inputs, outputs, names).outcome.Pass?
      <==> (&& |inputs| == e.InputNum() && |outputs| == e.OutputNum()
            && var step := AddOpEffect(svc, e.conf, ctx, Assigned(e.indexedIbns, NamesOf(names, default, inputs)));
               && step.result.Ok?
               && forall i :: 0 <= i < |e.indexedObns| ==> e.indexedObns[i] in step.result.value.logicalBlobDescs)
  {
    if |inputs| == e.InputNum() && |outputs| == e.OutputNum() {
      var step := AddOpEffect(svc, e.conf, ctx, Assigned(e.indexedIbns, NamesOf(names, default, inputs)));
      if step.result.Ok? && forall i :: 0 <= i < |e.indexedObns| ==> e.indexedObns[i] in step.result.value.logicalBlobDescs {
        FirstMissingIs(e.indexedObns, step.result.value.logicalBlobDescs, |e.indexedObns|);
      }
    }
  }

  /** A wrong number of inputs aborts before anything is inferred: no op is added and no name changes. */
  lemma LazyBuiltinInputArity(svc: Services, ctx: InterpContext, default: string, e: OpExpr,
                              inputs: seq<TensorId>, outputs: seq<TensorId>, names: map<TensorId, string>)
    requires e.BuiltinOpExpr? && |inputs| != e.InputNum()
    ensures var r := LazyBuiltinSpec(svc, ctx, default, e, inputs, outputs, names);
      r.outcome.Fail? && r.outcome.error.Fatal? && r.events == [] && r.names == names
  {
  }

  /**
   * With the right number of inputs but a wrong number of outputs, the op is added as usual and
   * then the call fails, registering no output; the failure is the output-count abort exactly
   * when adding the op succeeded, since adding an op only ever throws.
   */
  lemma LazyBuiltinOutputArity(svc: Services, ctx: InterpContext, default: string, e: OpExpr,
                               inputs: seq<TensorId>, outputs: seq<TensorId>, names: map<TensorId, string>)
    requires e.BuiltinOpExpr? && |inputs| == e.InputNum() && |outputs| != e.OutputNum()
    ensures var step := AddOpEffect(svc, e.conf, ctx, Assigned(e.indexedIbns, NamesOf(names, default, inputs)));
      var r := LazyBuiltinSpec(svc, ctx, default, e, inputs, outputs, names);
      && r.outcome.Fail? && r.events == step.events && r.names == names
      && (r.outcome.error.Fatal? <==> step.result.Ok?)
  {
  }

  /** The deferred interpreter never submits a logical run and adds at most one op to the graph. */
  lemma LazyBuiltinSubmitsNoRun(svc: Services, ctx: InterpContext, default: string, e: OpExpr,
                                inputs: seq<TensorId>, outputs: seq<TensorId>, names: map<TensorId, string>)
    requires e.BuiltinOpExpr?
    ensures var r := LazyBuiltinSpec(svc, ctx, default, e, inputs, outputs, names);
      |r.events| <= 1 && RunShapes(r.events) == []
  {
    var r := LazyBuiltinSpec(svc, ctx, default, e, inputs, outputs, names);
    if |r.events| == 1 {
      assert r.events[1..] == [];
    }
  }

  /** `LazyInterpreter::Apply`: the first matching overload in the lazy order, else abort. */
  function LazyApplySpec(svc: Services, ctx: InterpContext, default: string, e: OpExpr,
                         inputs: seq<TensorId>, outputs: seq<TensorId>, names: map<TensorId, string>): LazyEffect
  {
    match FirstMatch(e, LazyDispatchOrder)
    case None => LazyEffect(Fail(Fatal("The type has not been supported in LazyInterpreter::Apply.")), [], names)
    case Some(i) =>
      if i == 0 then LazyEffect(Pass, [], names)  // the function overload does nothing yet
      else LazyBuiltinSpec(svc, ctx, default, e, inputs, outputs, names)
  }

  /** Only builtin expressions change anything; an expression of neither class aborts. */
  lemma LazyApplyCases(svc: Services, ctx: InterpContext, default: string, e: OpExpr,
                       inputs: seq<TensorId>, outputs: seq<TensorId>, names: map<TensorId, string>)
    ensures e.FunctionOpExpr? ==> LazyApplySpec(svc, ctx, default, e, inputs, outputs, names) == LazyEffect(Pass, [], names)
    ensures e.BuiltinOpExpr? ==> LazyApplySpec(svc, ctx, default, e, inputs, outputs, names) == LazyBuiltinSpec(svc, ctx, default, e, inputs, outputs, names)
    ensures e.OtherOpExpr? ==> LazyApplySpec(svc, ctx, default, e, inputs, outputs, names).outcome.Fail?
    ensures e.OtherOpExpr? ==> LazyApplySpec(svc, ctx, default, e, inputs, outputs, names).events == []
  {
    LazyDispatch(e);
  }

  class LazyInterpreter {
    var selfState: OpExprInterpState
    const ctx: InterpContext
    const rt: Runtime
    const registry: TensorNameScope

    constructor (ctx: InterpContext, rt: Runtime, registry: TensorNameScope)
      ensures this.ctx == ctx && this.rt == rt && this.registry == registry
    {
      this.ctx := ctx;
      this.rt := rt;
      this.registry := registry;
      selfState := new OpExprInterpState();
    }

    /** Collects, for each input, its binding name and its registered name. */
    method CollectInputNames(e: OpExpr, inputs: seq<TensorId>) returns (ibn2names: map<string, string>)
      requires e.BuiltinOpExpr? && |inputs| == e.InputNum()
      ensures ibn2names == Assigned(e.indexedIbns, NamesOf(registry.tensorNames, registry.defaultTensorName, inputs))
    {
      ghost var ns := NamesOf(registry.tensorNames, registry.defaultTensorName, inputs);
      ibn2names := map[];
      var i := 0;
      while i < |inputs|
        invariant i <= |inputs|
        invariant ibn2names == Assigned(e.indexedIbns[..i], ns[..i])
      {
        var ibn := e.indexedIbns[i];
        var name := registry.Lookup(inputs[i]);
        AssignedSnoc(e.indexedIbns[..i], ns[..i], ibn, name);
        assert e.indexedIbns[..i + 1] == e.indexedIbns[..i] + [ibn];
        assert ns[..i + 1] == ns[..i] + [name];
        ibn2names := ibn2names[ibn := name];
        i := i + 1;
      }
      assert e.indexedIbns[..i] == e.indexedIbns && ns[..i] == ns;
    }

    /** Registers each output under its logical name, aborting at the first missing description. */
    method RecordOutputNames(e: OpExpr, outputs: seq<TensorId>, attr: OpAttribute) returns (o: Outcome)
      requires e.BuiltinOpExpr? && |outputs| == e.OutputNum()
      modifies registry`tensorNames
      ensures var k := FirstMissing(e.indexedObns, attr.logicalBlobDescs);
        && (o.Pass? <==> k == |e.indexedObns|)
        && (o.Fail? ==> o.error == Fatal("Map::at: missing blob description"))
        && registry.tensorNames == Recorded(old(registry.tensorNames), e.opName, e.indexedObns[..k], outputs[..k])
    {
      var obns := e.indexedObns;
      ghost var names0 := registry.tensorNames;
      var i := 0;
      while i < |obns|
        invariant i <= |obns|
        invariant forall j :: 0 <= j < i ==> obns[j] in attr.logicalBlobDescs
        invariant registry.tensorNames == Recorded(names0, e.opName, obns[..i], outputs[..i])
      {
        if obns[i] !in attr.logicalBlobDescs {
          FirstMissingIs(obns, attr.logicalBlobDescs, i);
          return Fail(Fatal("Map::at: missing blob description"));
        }
        ghost var before := registry.tensorNames;
        registry.Record(outputs[i], LogicalName(e.opName, obns[i]));
        assert registry.tensorNames == before[outputs[i] := LogicalName(e.opName, obns[i])];
        RecordedStep(names0, e.opName, obns, outputs, i);
        i := i + 1;
      }
      FirstMissingIs(obns, attr.logicalBlobDescs, i);
      assert obns[..i] == obns[..FirstMissing(obns, attr.logicalBlobDescs)];
      o := Pass;
    }

    method ApplyBuiltin(e: OpExpr, inputs: seq<TensorId>, outputs: seq<TensorId>) returns (o: Outcome)
      requires e.BuiltinOpExpr?
      modifies rt`trace, registry`tensorNames
      ensures var r := LazyBuiltinSpec(rt.svc, ctx, registry.defaultTensorName, e, inputs, outputs, old(registry.tensorNames));
        o == r.outcome && rt.trace == old(rt.trace) + r.events && registry.tensorNames == r.names
    {
      if |inputs| != e.InputNum() {
        return Fail(Fatal("Check failed: inputs.size() == input_num()"));
      }
      var ibn2names := CollectInputNames(e, inputs);
      var attr := AddOpAndInferOpAttribute(rt, e, ctx, ibn2names);
      if attr.Err? {
        return Fail(attr.error);
      }
      if |outputs| != e.OutputNum() {
        return Fail(Fatal("Check failed: outputs.size() == output_num()"));
      }
      o := RecordOutputNames(e, outputs, attr.value);
    }

    method Apply(e: OpExpr, inputs: seq<TensorId>, outputs: seq<TensorId>) returns (o: Outcome)
      modifies this`selfState, rt`trace, registry`tensorNames
      ensures fresh(selfState)
      ensures var r := LazyApplySpec(rt.svc, ctx, registry.defaultTensorName, e, inputs, outputs, old(registry.tensorNames));
        o == r.outcome && rt.trace == old(rt.trace) + r.events && registry.tensorNames == r.names
    {
      selfState := new OpExprInterpState();
      LazyDispatch(e);
      if e.FunctionOpExpr? {
        return Pass;
      }
      if e.BuiltinOpExpr? {
        o := ApplyBuiltin(e, inputs, outputs);
        return;
      }
      o := Fail(Fatal("The type has not been supported in LazyInterpreter::Apply."));
    }
  }
}
