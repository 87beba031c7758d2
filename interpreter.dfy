/**
 * What the deferred and the eager interpreters share: configuring an op and adding it to the job
 * graph (`AddOpAndInferOpAttribute`), the binding-name-to-blob map (`MakeBn2BlobObjectMap`), the
 * per-call scratch state and the logical name of an output.
 */
module Interpreter {
  import opened Base
  import opened Maps
  import opened OpExpr
  import opened Runtime

  /** The scratch state an interpreter replaces at the start of every `Apply`. */
  class OpExprInterpState {
    constructor () {}
  }

  /**
   * The configuration of an op before inference: the expression's own configuration with each
   * input's logical blob name replaced, the scope's symbol id set, and the scope's device tag
   * filled in when the configuration has none. Reading the symbol id may fail.
   */
  function ConfigureOpConf(conf: OperatorConf, ibn2names: map<string, string>, scope: Scope): (r: Result<OperatorConf>)
    ensures r.Ok? <==> scope.symbolId.Ok?
    ensures r.Err? ==> r.error == Thrown(scope.symbolId.error.reason)
    ensures r.Ok? ==> r.value.name == conf.name
    ensures r.Ok? ==> r.value.scopeSymbolId == Some(scope.symbolId.value)
    ensures r.Ok? && conf.deviceTag.Some? ==> r.value.deviceTag == conf.deviceTag
    ensures r.Ok? && conf.deviceTag.None? ==> r.value.deviceTag == Some(scope.deviceParallelDescSymbol.DeviceTag())
    ensures r.Ok? ==> r.value.inputLbns.Keys == conf.inputLbns.Keys + ibn2names.Keys
    ensures r.Ok? ==> forall ibn :: ibn in ibn2names ==> r.value.inputLbns[ibn] == ibn2names[ibn]
    ensures r.Ok? ==> forall ibn :: ibn in conf.inputLbns && ibn !in ibn2names ==> r.value.inputLbns[ibn] == conf.inputLbns[ibn]
  {
    match OrThrow(scope.symbolId)
    case Err(e) => Err(e)
    case Ok(id) =>
      var replaced := conf.(inputLbns := conf.inputLbns + ibn2names, scopeSymbolId := Some(id));
      if replaced.deviceTag.None? then Ok(replaced.(deviceTag := Some(scope.deviceParallelDescSymbol.DeviceTag())))
      else Ok(replaced)
  }

  /** The result of a call together with the events it appends to the trace. */
  datatype Step<T> = Step(result: Result<T>, events: seq<Event>)

  /**
   * What `AddOpAndInferOpAttribute` does: configure the op, get the current inference context,
   * then add the op to the graph with mirrored inference exactly when the mirrored strategy is
   * enabled, and consistent inference otherwise.
   */
  function AddOpEffect(svc: Services, conf: OperatorConf, ctx: InterpContext, ibn2names: map<string, string>): (s: Step<OpAttribute>)
    ensures |s.events| <= 1
    ensures s.result.Ok? ==> |s.events| == 1
    ensures s.result.Err? ==> s.result.error.Thrown?
    ensures |s.events| == 1 <==> ConfigureOpConf(conf, ibn2names, ctx.scope).Ok? && svc.hasInferCtx
    ensures |s.events| == 1 ==>
      && s.events[0].AddAndInferOp?
      && s.events[0].conf == ConfigureOpConf(conf, ibn2names, ctx.scope).value
      && (s.events[0].mode == MirroredInference <==> ctx.isMirroredStrategyEnabled)
      && s.result == OrThrow(svc.addAndInferOp(s.events[0].conf, s.events[0].mode))
  {
    match ConfigureOpConf(conf, ibn2names, ctx.scope)
    case Err(e) => Step(Err(e), [])
    case Ok(c) =>
      if !svc.hasInferCtx then Step(Err(Thrown("GetCurInferCtx failed")), [])
      else
        var mode := if ctx.isMirroredStrategyEnabled then MirroredInference else ConsistentInference;
        Step(OrThrow(svc.addAndInferOp(c, mode)), [AddAndInferOp(c, mode)])
  }

  method AddOpAndInferOpAttribute(rt: Runtime, e: OpExpr, ctx: InterpContext, ibn2names: map<string, string>)
    returns (r: Result<OpAttribute>)
    requires e.BuiltinOpExpr?
    modifies rt`trace
    ensures r == AddOpEffect(rt.svc, e.conf, ctx, ibn2names).result
    ensures rt.trace == old(rt.trace) + AddOpEffect(rt.svc, e.conf, ctx, ibn2names).events
  {
    var conf :- ConfigureOpConf(e.conf, ibn2names, ctx.scope);
    if !rt.svc.hasInferCtx {
      return Err(Thrown("GetCurInferCtx failed"));
    }
    var inferred;
    if ctx.isMirroredStrategyEnabled {
      inferred := rt.AddAndInfer(conf, MirroredInference);
    } else {
      inferred := rt.AddAndInfer(conf, ConsistentInference);
    }
    r := OrThrow(inferred);
  }

  /** The logical name the deferred interpreter records for output `obn` of op `opName`. */
  function LogicalName(opName: string, obn: string): string {
    opName + "/" + obn
  }

  /** The op name and the output binding name can be read back from a logical name. */
  lemma LogicalNameParts(opName: string, obn: string)
    ensures LogicalName(opName, obn)[..|opName|] == opName
    ensures LogicalName(opName, obn)[|opName|] == '/'
    ensures LogicalName(opName, obn)[|opName| + 1..] == obn
  {
  }

  /** Distinct outputs of one op get distinct logical names. */
  lemma LogicalNameInjective(opName: string, a: string, b: string)
    requires LogicalName(opName, a) == LogicalName(opName, b)
    ensures a == b
  {
    LogicalNameParts(opName, a);
    LogicalNameParts(opName, b);
  }

  /**
   * The map `MakeBn2BlobObjectMap` builds: each input binding name, then each output binding
   * name, to the handle of the tensor at the same index. `emplace` keeps the first tensor given
   * for a name. `indexed_ibns().at(i)` and `indexed_obns().at(i)` throw when there are more
   * tensors than names.
   */
  function Bn2TensorMap(e: OpExpr, inputs: seq<TensorId>, outputs: seq<TensorId>): (r: Result<map<string, TensorId>>)
    requires e.BuiltinOpExpr?
    ensures r.Ok? <==> |inputs| <= |e.indexedIbns| && |outputs| <= |e.indexedObns|
    ensures r.Err? ==> r.error.Thrown?
  {
    if |inputs| > |e.indexedIbns| || |outputs| > |e.indexedObns| then Err(Thrown("vector::at: out of range"))
    else Ok(Emplaced(e.indexedIbns[..|inputs|] + e.indexedObns[..|outputs|], inputs + outputs))
  }

  /** The map's names are exactly the input binding names and the output binding names in use. */
  lemma Bn2TensorMapKeys(e: OpExpr, inputs: seq<TensorId>, outputs: seq<TensorId>)
    requires e.BuiltinOpExpr? && Bn2TensorMap(e, inputs, outputs).Ok?
    ensures Bn2TensorMap(e, inputs, outputs).value.Keys
         == (set i | 0 <= i < |inputs| :: e.indexedIbns[i]) + (set j | 0 <= j < |outputs| :: e.indexedObns[j])
  {
    var bns := e.indexedIbns[..|inputs|] + e.indexedObns[..|outputs|];
    var m := Bn2TensorMap(e, inputs, outputs).value;
    var ins := set i | 0 <= i < |inputs| :: e.indexedIbns[i];
    var outs := set j | 0 <= j < |outputs| :: e.indexedObns[j];
    EmplacedKeys(bns, inputs + outputs);
    forall k | k in m.Keys ensures k in ins + outs {
      var p :| 0 <= p < |bns| && bns[p] == k;
      if p < |inputs| {
        assert k == e.indexedIbns[p];
      } else {
        assert k == e.indexedObns[p - |inputs|];
      }
    }
    forall i | 0 <= i < |inputs| ensures e.indexedIbns[i] in m.Keys {
      assert bns[i] == e.indexedIbns[i];
    }
    forall j | 0 <= j < |outputs| ensures e.indexedObns[j] in m.Keys {
      assert bns[|inputs| + j] == e.indexedObns[j];
    }
  }

  /**
   * When the binding names in use are distinct, every input name holds its input's handle and
   * every output name its output's handle.
   */
  lemma Bn2TensorMapBinds(e: OpExpr, inputs: seq<TensorId>, outputs: seq<TensorId>)
    requires e.BuiltinOpExpr? && Bn2TensorMap(e, inputs, outputs).Ok?
    requires var bns := e.indexedIbns[..|inputs|] + e.indexedObns[..|outputs|];
      forall i, j :: 0 <= i < j < |bns| ==> bns[i] != bns[j]
    ensures forall i :: 0 <= i < |inputs| ==>
      e.indexedIbns[i] in Bn2TensorMap(e, inputs, outputs).value
      && Bn2TensorMap(e, inputs, outputs).value[e.indexedIbns[i]] == inputs[i]
    ensures forall j :: 0 <= j < |outputs| ==>
      e.indexedObns[j] in Bn2TensorMap(e, inputs, outputs).value
      && Bn2TensorMap(e, inputs, outputs).value[e.indexedObns[j]] == outputs[j]
  {
    var bns := e.indexedIbns[..|inputs|] + e.indexedObns[..|outputs|];
    var m := Bn2TensorMap(e, inputs, outputs).value;
    forall i | 0 <= i < |inputs| ensures e.indexedIbns[i] in m && m[e.indexedIbns[i]] == inputs[i] {
      assert bns[i] == e.indexedIbns[i];
      assert forall p :: 0 <= p < i ==> bns[p] != bns[i];
      EmplacedAt(bns, inputs + outputs, i);
    }
    forall j | 0 <= j < |outputs| ensures e.indexedObns[j] in m && m[e.indexedObns[j]] == outputs[j] {
      var k := |inputs| + j;
      assert bns[k] == e.indexedObns[j];
      assert forall p :: 0 <= p < k ==> bns[p] != bns[k];
      EmplacedAt(bns, inputs + outputs, k);
    }
  }

  /**
   * For the split and clone ops, whose one input is named "in" and whose outputs are named
   * "out_0", "out_1", ...: the map holds each output's tensor under its own name, and holds no
   * "out_<i>" beyond the outputs given.
   */
  lemma SplitNamesBind(e: OpExpr, inputs: seq<TensorId>, outputs: seq<TensorId>)
    requires e.BuiltinOpExpr? && Bn2TensorMap(e, inputs, outputs).Ok?
    requires |inputs| == 1 && e.indexedIbns[0] == "in"
    requires forall j :: 0 <= j < |outputs| ==> e.indexedObns[j] == IndexedName("out_", j)
    ensures var bn2t := Bn2TensorMap(e, inputs, outputs).value;
      && (forall j :: 0 <= j < |outputs| ==> IndexedName("out_", j) in bn2t && bn2t[IndexedName("out_", j)] == outputs[j])
      && (forall i: nat :: IndexedName("out_", i) in bn2t ==> i < |outputs|)
  {
    var bn2t := Bn2TensorMap(e, inputs, outputs).value;
    var bns := e.indexedIbns[..|inputs|] + e.indexedObns[..|outputs|];
    forall a, b | 0 <= a < b < |bns| ensures bns[a] != bns[b] {
      assert bns[b] == IndexedName("out_", b - 1);
      if a > 0 {
        IndexedNameInjective("out_", a - 1, b - 1);
      }
    }
    Bn2TensorMapBinds(e, inputs, outputs);
    Bn2TensorMapKeys(e, inputs, outputs);
    forall i: nat | IndexedName("out_", i) in bn2t ensures i < |outputs| {
      var name := IndexedName("out_", i);
      if name != "in" {
        var j :| 0 <= j < |outputs| && e.indexedObns[j] == name;
        if i != j {
          IndexedNameInjective("out_", i, j);
        }
      }
    }
  }

  /**
   * One of `MakeBn2BlobObjectMap`'s loops: emplaces each tensor under the binding name at its
   * index into a map built so far from `keys0` and `vals0`; reading a name past the end throws.
   */
  method EmplaceEach(m0: map<string, TensorId>, ghost keys0: seq<string>, ghost vals0: seq<TensorId>,
                     names: seq<string>, tensors: seq<TensorId>)
    returns (r: Result<map<string, TensorId>>)
    requires |keys0| == |vals0| && m0 == Emplaced(keys0, vals0)
    ensures r.Ok? <==> |tensors| <= |names|
    ensures r.Err? ==> r == Err(Thrown("vector::at: out of range"))
    ensures r.Ok? ==> r.value == Emplaced(keys0 + names[..|tensors|], vals0 + tensors)
  {
    var m := m0;
    var i := 0;
    assert keys0 + names[..0] == keys0 && vals0 + tensors[..0] == vals0;
    while i < |tensors|
      invariant i <= |tensors| && i <= |names|
      invariant m == Emplaced(keys0 + names[..i], vals0 + tensors[..i])
    {
      if i >= |names| {
        return Err(Thrown("vector::at: out of range"));
      }
      EmplacedSnoc(keys0 + names[..i], vals0 + tensors[..i], names[i], tensors[i]);
      assert (keys0 + names[..i]) + [names[i]] == keys0 + names[..i + 1];
      assert (vals0 + tensors[..i]) + [tensors[i]] == vals0 + tensors[..i + 1];
      if names[i] !in m {
        m := m[names[i] := tensors[i]];
      }
      i := i + 1;
    }
    assert tensors[..i] == tensors;
    r := Ok(m);
  }

  method MakeBn2BlobObjectMap(e: OpExpr, inputs: seq<TensorId>, outputs: seq<TensorId>)
    returns (r: Result<map<string, TensorId>>)
    requires e.BuiltinOpExpr?
    ensures r == Bn2TensorMap(e, inputs, outputs)
  {
    var m := EmplaceEach(map[], [], [], e.indexedIbns, inputs);
    if m.Err? {
      return m;
    }
    assert [] + e.indexedIbns[..|inputs|] == e.indexedIbns[..|inputs|];
    assert [] + inputs == inputs;
    r := EmplaceEach(m.value, e.indexedIbns[..|inputs|], inputs, e.indexedObns, outputs);
  }
}
