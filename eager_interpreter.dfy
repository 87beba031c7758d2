/**
 * The eager interpreter: each builtin op is added to the current job and then run at once, as
 * one or more logical runs of instructions. Variables are initialised or loaded from a snapshot
 * and assigned to the output's blob; the mirrored casts make the output a reference to the
 * input's blob; split and clone unpack the input into the outputs; concat and add pack the
 * inputs into the output.
 */
module EagerInterpreter {
  import opened Base
  import opened Blob
  import opened Maps
  import opened OpExpr
  import opened Runtime
  import opened Interpreter
  import opened EagerRuns
  import opened Paths

  /** How a call ends and the state it leaves. */
  datatype EagerEffect = EagerEffect(outcome: Outcome, state: RtState)

  /** How a step that yields a value ends, and the state it leaves. */
  datatype Effect<T> = Effect(result: Result<T>, state: RtState)

  const Unsupported := Fatal("The type has not been supported in EagerInterpreter::Apply.")

  /** `st` with one more logical run. */
  function Submitted(st: RtState, instrs: seq<Instr>): RtState {
    st.(trace := st.trace + [LogicalRun(instrs)])
  }

  /**
   * `LogicalRun(closure).GetOrThrow()`: a closure that completes is submitted; one that stops
   * submits nothing, its error propagates, and what it wrote through the handles stays written.
   */
  function Committed(b: Built, st: RtState): EagerEffect {
    match b
    case Stopped(err, blobs) => EagerEffect(Fail(err), st.(blobs := blobs))
    case Done(r) => EagerEffect(Pass, RtState(st.trace + [LogicalRun(r.instrs)], r.blobs))
  }

  /** The parallel configuration of the context scope's device placement. */
  function ScopeParallelConf(ctx: InterpContext): ParallelConf {
    ctx.scope.deviceParallelDescSymbol.parallelConf
  }

  /** `AddOpAndInferOpAttribute` without input names, as every eager overload calls it. */
  function AddOpSpec(svc: Services, ctx: InterpContext, e: OpExpr, st: RtState): Effect<OpAttribute>
    requires e.BuiltinOpExpr?
  {
    var step := AddOpEffect(svc, e.conf, ctx, map[]);
    Effect(step.result, st.(trace := st.trace + step.events))
  }

  /** Add the op, then `NaiveInterpret` it: the user-op overload, and the start of the variable overload. */
  function AddAndNaiveSpec(svc: Services, ctx: InterpContext, e: OpExpr, inputs: seq<TensorId>, outputs: seq<TensorId>, st: RtState): Effect<OpAttribute>
    requires e.BuiltinOpExpr?
  {
    var added := AddOpSpec(svc, ctx, e, st);
    match added.result
    case Err(_) => added
    case Ok(attr) =>
      match NaiveRun(e, attr, ScopeParallelConf(ctx), inputs, outputs)
      case Err(err) => Effect(Err(err), added.state)
      case Ok(instrs) => Effect(Ok(attr), Submitted(added.state, instrs))
  }

  function UserOpSpec(svc: Services, ctx: InterpContext, e: OpExpr, inputs: seq<TensorId>, outputs: seq<TensorId>, st: RtState): EagerEffect
    requires e.BuiltinOpExpr?
  {
    var r := AddAndNaiveSpec(svc, ctx, e, inputs, outputs, st);
    EagerEffect(if r.result.Ok? then Pass else Fail(r.result.error), r.state)
  }

  /** `EagerRunModelInit`: one run of the model-init op, whose "out_0" is the initial value. */
  function ModelInitSpec(svc: Services, st: RtState): Effect<BlobObject> {
    match StatelessRun(svc, EmptyOpConf, map[])
    case Err(err) => Effect(Err(err), st)
    case Ok(init) => Effect(At(init.1, "out_0"), Submitted(st, init.0))
  }

  /**
   * `EagerRunModelLoad`: the snapshot path must be "<variable name>/out"; then three runs: the
   * path-input op, the feed of the path, and the model-load op whose "out_0" is the loaded value.
   */
  function ModelLoadSpec(svc: Services, conf: OperatorConf, path: string, st: RtState): Effect<BlobObject> {
    if Basename(path) != "out" then Effect(Err(Fatal("Check failed: path.basename() == out")), st)
    else if Dirname(path) != conf.name then Effect(Err(Fatal("Check failed: path.dirname() == op_conf.name()")), st)
    else
      match StatelessRun(svc, EmptyOpConf, map[])
      case Err(err) => Effect(Err(err), st)
      case Ok(pathInput) =>
        var st1 := Submitted(st, pathInput.0);
        match FeedPathRun(pathInput.1)
        case Err(err) => Effect(Err(err), st1)
        case Ok(feed) =>
          var st2 := Submitted(st1, feed);
          match ModelLoadRun(svc, pathInput.1)
          case Err(err) => Effect(Err(err), st2)
          case Ok(load) => Effect(At(load.1, "out_0"), Submitted(st2, load.0))
  }

  /** `InitVariableOutputBlob`: initialise when the session has no snapshot path, else load; then assign. */
  function InitVariableOutputBlobSpec(svc: Services, session: Session, attr: OpAttribute, output: TensorId, st: RtState): EagerEffect {
    var path := session.snapshotPath(attr.opConf.name);
    var made := if path == "" then ModelInitSpec(svc, st) else ModelLoadSpec(svc, attr.opConf, path, st);
    match made.result
    case Err(err) => EagerEffect(Fail(err), made.state)
    case Ok(blob) =>
      match AssignRun(svc, made.state.blobs, output, blob)
      case Err(err) => EagerEffect(Fail(err), made.state)
      case Ok(instrs) => EagerEffect(Pass, Submitted(made.state, instrs))
  }

  function VariableSpec(svc: Services, ctx: InterpContext, e: OpExpr, inputs: seq<TensorId>, outputs: seq<TensorId>, st: RtState): EagerEffect
    requires e.BuiltinOpExpr?
  {
    if |inputs| != 0 then EagerEffect(Fail(Fatal("Check failed: inputs.size() == 0")), st)
    else if |outputs| != 1 then EagerEffect(Fail(Fatal("Check failed: outputs.size() == 1")), st)
    else if svc.currentJobName.Err? then EagerEffect(Fail(Thrown(svc.currentJobName.error.reason)), st)
    else if svc.defaultSession.Err? then EagerEffect(Fail(Thrown(svc.defaultSession.error.reason)), st)
    else
      var naive := AddAndNaiveSpec(svc, ctx, e, inputs, outputs, st);
      match naive.result
      case Err(err) => EagerEffect(Fail(err), naive.state)
      case Ok(attr) =>
        if "out" !in attr.mirroredSignature then EagerEffect(Fail(Fatal("Map::at: missing mirrored signature")), naive.state)
        else InitVariableOutputBlobSpec(svc, svc.defaultSession.value, attr, outputs[0], naive.state)
  }

  function MirroredCastSpec(svc: Services, ctx: InterpContext, e: OpExpr, inputs: seq<TensorId>, outputs: seq<TensorId>, st: RtState): EagerEffect
    requires e.BuiltinOpExpr?
  {
    var added := AddOpSpec(svc, ctx, e, st);
    match added.result
    case Err(err) => EagerEffect(Fail(err), added.state)
    case Ok(attr) => Committed(Closed(MirroredCastRun(svc, e, attr, inputs, outputs, added.state.blobs), added.state.blobs), added.state)
  }

  function SplitOrCloneSpec(svc: Services, ctx: InterpContext, e: OpExpr, inputs: seq<TensorId>, outputs: seq<TensorId>, st: RtState): EagerEffect
    requires e.BuiltinOpExpr?
  {
    var added := AddOpSpec(svc, ctx, e, st);
    match added.result
    case Err(err) => EagerEffect(Fail(err), added.state)
    case Ok(attr) => Committed(SplitOrCloneRun(svc, e, attr, inputs, outputs, added.state.blobs), added.state)
  }

  /** The concat and add overloads look up the op's placement and the "out" attributes before the run. */
  function ConcatOrAddSpec(svc: Services, ctx: InterpContext, e: OpExpr, inputs: seq<TensorId>, outputs: seq<TensorId>, st: RtState): EagerEffect
    requires e.BuiltinOpExpr?
  {
    var added := AddOpSpec(svc, ctx, e, st);
    match added.result
    case Err(err) => EagerEffect(Fail(err), added.state)
    case Ok(attr) =>
      match OrThrow(svc.getSymbol(attr.opParallelDescSymbolId))
      case Err(err) => EagerEffect(Fail(err), added.state)
      case Ok(pd) =>
        match OrThrow(svc.opArgParallelAttribute(pd, attr, "out"))
        case Err(err) => EagerEffect(Fail(err), added.state)
        case Ok(target) =>
          match OrThrow(svc.opArgBlobAttribute(attr, "out"))
          case Err(err) => EagerEffect(Fail(err), added.state)
          case Ok(blobAttr) => Committed(Closed(ConcatOrAddRun(svc, e, attr, target, blobAttr, inputs, outputs, added.state.blobs), added.state.blobs), added.state)
  }

  /** `EagerInterpreter::Apply`: the overload of the first class in the eager order, else abort. */
  function EagerApplySpec(svc: Services, ctx: InterpContext, e: OpExpr, inputs: seq<TensorId>, outputs: seq<TensorId>, st: RtState): EagerEffect {
    match FirstMatch(e, EagerDispatchOrder)
    case None => EagerEffect(Fail(Unsupported), st)
    case Some(i) =>
      if i == 8 then EagerEffect(Pass, st)  // the function overload does nothing yet
      else
        assert IsA(e, EagerDispatchOrder[i]);
        if i == 0 then UserOpSpec(svc, ctx, e, inputs, outputs, st)
        else if i == 1 then VariableSpec(svc, ctx, e, inputs, outputs, st)
        else if i <= 3 then MirroredCastSpec(svc, ctx, e, inputs, outputs, st)
        else if i <= 5 then SplitOrCloneSpec(svc, ctx, e, inputs, outputs, st)
        else ConcatOrAddSpec(svc, ctx, e, inputs, outputs, st)
  }

  /** The events a call appended to the trace, when it only appended. */
  function Appended(before: RtState, after: RtState): seq<Event>
    requires before.trace <= after.trace
  {
    after.trace[|before.trace|..]
  }

  /** Adding the op to the graph submits no logical run. */
  lemma AddOpSubmitsNoRun(svc: Services, ctx: InterpContext, e: OpExpr)
    requires e.BuiltinOpExpr?
    ensures RunShapes(AddOpEffect(svc, e.conf, ctx, map[]).events) == []
  {
    var events := AddOpEffect(svc, e.conf, ctx, map[]).events;
    if |events| == 1 {
      RunShapesCons(events[0], []);
      assert events == [events[0]] + [];
    }
  }

  /**
   * A user op is added to the graph and then run as one logical run of a single stateless call
   * that binds each binding name in use to its tensor's handle; no blob changes. It fails when
   * adding fails or when there are more tensors than binding names.
   */
  lemma UserOpRuns(svc: Services, ctx: InterpContext, e: OpExpr, inputs: seq<TensorId>, outputs: seq<TensorId>, st: RtState)
    requires e.BuiltinOpExpr?
    ensures var r := UserOpSpec(svc, ctx, e, inputs, outputs, st);
      var step := AddOpEffect(svc, e.conf, ctx, map[]);
      && r.state.blobs == st.blobs
      && (r.outcome.Pass? <==> step.result.Ok? && |inputs| <= |e.indexedIbns| && |outputs| <= |e.indexedObns|)
      && (r.outcome.Fail? && step.result.Ok? ==> r.outcome.error.Thrown?)
      && st.trace <= r.state.trace
      && (r.outcome.Fail? ==> Appended(st, r.state) == step.events)
      && (r.outcome.Pass? ==>
            Appended(st, r.state) == step.events
              + [LogicalRun([NoBoxingStatelessCall(step.result.value, ScopeParallelConf(ctx), Bn2TensorMap(e, inputs, outputs).value)])])
      && RunShapes(Appended(st, r.state)) == (if r.outcome.Pass? then [[NoBoxingStatelessCallKind]] else [])
  {
    var step := AddOpEffect(svc, e.conf, ctx, map[]);
    var r := UserOpSpec(svc, ctx, e, inputs, outputs, st);
    AddOpSubmitsNoRun(svc, ctx, e);
    if r.outcome.Pass? {
      var instrs := NaiveRun(e, step.result.value, ScopeParallelConf(ctx), inputs, outputs).value;
      RunShapesSnoc(step.events, instrs);
      assert r.state.trace == st.trace + (step.events + [LogicalRun(instrs)]);
      assert Appended(st, r.state) == step.events + [LogicalRun(instrs)];
      assert Kinds(instrs) == [NoBoxingStatelessCallKind];
    } else {
      assert r.state.trace == st.trace + step.events;
      assert Appended(st, r.state) == step.events;
    }
  }

  /** What one call appended is what its first part appended followed by what the rest appended. */
  lemma AppendedChain(a: RtState, b: RtState, c: RtState)
    requires a.trace <= b.trace && b.trace <= c.trace
    ensures a.trace <= c.trace && Appended(a, c) == Appended(a, b) + Appended(b, c)
    ensures RunShapes(Appended(a, c)) == RunShapes(Appended(a, b)) + RunShapes(Appended(b, c))
  {
    assert c.trace == b.trace + Appended(b, c);
    assert b.trace == a.trace + Appended(a, b);
    assert c.trace == a.trace + (Appended(a, b) + Appended(b, c));
    RunShapesAppend(Appended(a, b), Appended(b, c));
  }

  /**
   * Model init submits one run, a stateless call of the model-init op with no inputs, and its
   * value is the call's "out_0"; no blob changes.
   */
  lemma ModelInitRuns(svc: Services, st: RtState)
    ensures var r := ModelInitSpec(svc, st);
      && r.state.blobs == st.blobs && st.trace <= r.state.trace
      && |Appended(st, r.state)| <= 1
      && (r.result.Ok? ==>
            var ev := Appended(st, r.state);
            && |ev| == 1 && RunShapes(ev) == [[StatelessCallKind]]
            && var call := ev[0].instrs[0];
               && call.bn2blob == map[]
               && call.parallelConf == svc.currentScope.value.deviceParallelDescSymbol.parallelConf
               && "out_0" in svc.statelessCall(call.opAttribute, call.parallelConf, call.bn2blob)
               && r.result.value == svc.statelessCall(call.opAttribute, call.parallelConf, call.bn2blob)["out_0"])
  {
    var r := ModelInitSpec(svc, st);
    match StatelessRun(svc, EmptyOpConf, map[])
    case Err(_) =>
      assert Appended(st, r.state) == [];
    case Ok(init) =>
      assert Appended(st, r.state) == [LogicalRun(init.0)];
      assert Kinds(init.0) == [StatelessCallKind];
      RunShapesCons(LogicalRun(init.0), []);
      assert [LogicalRun(init.0)] + [] == [LogicalRun(init.0)];
  }

  /** The snapshot path a model load accepts is the variable's name followed by "/out". */
  lemma LoadPathShape(conf: OperatorConf, path: string)
    requires Basename(path) == "out" && Dirname(path) == conf.name
    ensures path == conf.name + "/out" || (path == "out" && conf.name == "")
  {
    if LastSlash(path).Some? {
      SplitThenJoin(path);
    }
  }

  /** Model load only appends to the trace, changes no blob, and aborts on a path of the wrong form. */
  lemma ModelLoadFrame(svc: Services, conf: OperatorConf, path: string, st: RtState)
    ensures var r := ModelLoadSpec(svc, conf, path, st);
      && r.state.blobs == st.blobs && st.trace <= r.state.trace
      && (Basename(path) != "out" || Dirname(path) != conf.name ==> r.result.Err? && r.result.error.Fatal? && r.state == st)
  {
  }

  /**
   * A model load that succeeds had a snapshot path naming the variable's "out", and submitted
   * three runs: the path-input op, which has no inputs; the feed of the path into that op's "out"
   * blob, with its foreign callback; and the model-load op, whose "path" input is that same blob
   * and whose "out_0" is the value.
   */
  lemma ModelLoadRuns(svc: Services, conf: OperatorConf, path: string, st: RtState)
    requires ModelLoadSpec(svc, conf, path, st).result.Ok?
    ensures var r := ModelLoadSpec(svc, conf, path, st);
      && (path == conf.name + "/out" || (path == "out" && conf.name == ""))
      && st.trace <= r.state.trace
      && var ev := Appended(st, r.state);
         && |ev| == 3 && ev[0].LogicalRun? && ev[1].LogicalRun? && ev[2].LogicalRun?
         && |ev[0].instrs| == 1 && |ev[1].instrs| == 2 && |ev[2].instrs| == 1
         && ev[0].instrs[0].StatelessCall? && ev[1].instrs[0].FeedBlob? && ev[2].instrs[0].StatelessCall?
         && RunShapes(ev) == [[StatelessCallKind], [FeedBlobKind, InsertRemoveForeignCallbackKind], [StatelessCallKind]]
         && var pathCall := ev[0].instrs[0];
            var fed := ev[1].instrs[0].blob;
            var loadCall := ev[2].instrs[0];
            && pathCall.bn2blob == map[]
            && "out" in svc.statelessCall(pathCall.opAttribute, pathCall.parallelConf, pathCall.bn2blob)
            && fed == svc.statelessCall(pathCall.opAttribute, pathCall.parallelConf, pathCall.bn2blob)["out"]
            && ev[1].instrs == [FeedBlob(fed, FeedCallbackId), InsertRemoveForeignCallback(fed.objectId, FeedCallbackId)]
            && loadCall.bn2blob == map["path" := fed]
            && "out_0" in svc.statelessCall(loadCall.opAttribute, loadCall.parallelConf, loadCall.bn2blob)
            && r.result.value == svc.statelessCall(loadCall.opAttribute, loadCall.parallelConf, loadCall.bn2blob)["out_0"]
  {
    ModelLoadSteps(svc, conf, path, st);
    LoadPathShape(conf, path);
    var pathInput := StatelessRun(svc, EmptyOpConf, map[]).value;
    var feed := FeedPathRun(pathInput.1).value;
    var load := StatelessRun(svc, EmptyOpConf, map["path" := pathInput.1["out"]]).value;
    var ev := [LogicalRun(pathInput.0), LogicalRun(feed), LogicalRun(load.0)];
    var r := ModelLoadSpec(svc, conf, path, st);
    assert r.state.trace == st.trace + ev;
    assert Appended(st, r.state) == ev;
    ShapesOfThree(pathInput.0, feed, load.0);
    assert Kinds(pathInput.0) == [StatelessCallKind];
    assert Kinds(feed) == [FeedBlobKind, InsertRemoveForeignCallbackKind];
    assert Kinds(load.0) == [StatelessCallKind];
  }

  /** A model load that succeeds, unfolded into its three runs. */
  lemma ModelLoadSteps(svc: Services, conf: OperatorConf, path: string, st: RtState)
    requires ModelLoadSpec(svc, conf, path, st).result.Ok?
    ensures Basename(path) == "out" && Dirname(path) == conf.name
    ensures var pathInput := StatelessRun(svc, EmptyOpConf, map[]);
      && pathInput.Ok? && "out" in pathInput.value.1
      && var load := StatelessRun(svc, EmptyOpConf, map["path" := pathInput.value.1["out"]]);
         && load.Ok? && "out_0" in load.value.1
         && ModelLoadSpec(svc, conf, path, st)
            == Effect(Ok(load.value.1["out_0"]),
                      Submitted(Submitted(Submitted(st, pathInput.value.0), FeedPathRun(pathInput.value.1).value), load.value.0))
  {
  }

  lemma ShapesOfThree(a: seq<Instr>, b: seq<Instr>, c: seq<Instr>)
    ensures RunShapes([LogicalRun(a), LogicalRun(b), LogicalRun(c)]) == [Kinds(a), Kinds(b), Kinds(c)]
  {
    var e1: seq<Event> := [LogicalRun(c)];
    var e2 := [LogicalRun(b)] + e1;
    var e3 := [LogicalRun(a)] + e2;
    assert RunShapes(e1) == [Kinds(c)] by {
      RunShapesCons(LogicalRun(c), []);
      assert [LogicalRun(c)] + [] == e1;
    }
    assert RunShapes(e2) == [Kinds(b), Kinds(c)] by {
      RunShapesCons(LogicalRun(b), e1);
    }
    assert RunShapes(e3) == [Kinds(a), Kinds(b), Kinds(c)] by {
      RunShapesCons(LogicalRun(a), e2);
    }
    assert e3 == [LogicalRun(a), LogicalRun(b), LogicalRun(c)];
  }

  /** The instruction kinds of the runs of a variable op that initialises its value. */
  const VariableInitShapes: seq<seq<InstrKind>> := [
    [NoBoxingStatelessCallKind], [StatelessCallKind], [ReplaceDeviceTagKind, BoxingToKind, AssignBlobKind]]

  /** The instruction kinds of the runs of a variable op that loads its value from a snapshot. */
  const VariableLoadShapes: seq<seq<InstrKind>> := [
    [NoBoxingStatelessCallKind], [StatelessCallKind], [FeedBlobKind, InsertRemoveForeignCallbackKind],
    [StatelessCallKind], [ReplaceDeviceTagKind, BoxingToKind, AssignBlobKind]]

  /** The consumer attribute of an assignment to `target`: its placement moved to the CPU. */
  function AssignConsumer(svc: Services, target: BlobObject): OpArgParallelAttribute {
    OpArgParallelAttribute(
      svc.tryReplaceDeviceTag(target.ParallelDescSymbol(), "cpu"),
      target.opArgParallelAttr.sbpParallel,
      target.opArgParallelAttr.optMirroredParallel)
  }

  /**
   * A variable op changes no blob and only appends to the trace; it aborts, leaving the state as
   * it was, when it has an input or does not have exactly one output.
   */
  lemma VariableOpFrame(svc: Services, ctx: InterpContext, e: OpExpr, inputs: seq<TensorId>, outputs: seq<TensorId>, st: RtState)
    requires e.BuiltinOpExpr?
    ensures var r := VariableSpec(svc, ctx, e, inputs, outputs, st);
      && r.state.blobs == st.blobs && st.trace <= r.state.trace
      && (|inputs| != 0 || |outputs| != 1 ==> r.outcome.Fail? && r.outcome.error.Fatal? && r.state == st)
  {
    var naive := AddAndNaiveSpec(svc, ctx, e, inputs, outputs, st);
    assert naive.state.blobs == st.blobs && st.trace <= naive.state.trace by {
      UserOpRuns(svc, ctx, e, inputs, outputs, st);
    }
    if naive.result.Ok? && |inputs| == 0 && |outputs| == 1 && svc.defaultSession.Ok? {
      var r := InitVariableOutputBlobSpec(svc, svc.defaultSession.value, naive.result.value, outputs[0], naive.state);
      assert r.state.blobs == naive.state.blobs && naive.state.trace <= r.state.trace by {
        InitVariableFrame(svc, svc.defaultSession.value, naive.result.value, outputs[0], naive.state);
      }
    }
  }

  /** Initialising a variable's output blob leaves the blobs as they were and only appends to the trace. */
  lemma InitVariableFrame(svc: Services, session: Session, attr: OpAttribute, output: TensorId, st: RtState)
    ensures var r := InitVariableOutputBlobSpec(svc, session, attr, output, st);
      r.state.blobs == st.blobs && st.trace <= r.state.trace
  {
    var path := session.snapshotPath(attr.opConf.name);
    var made := MadeValue(svc, attr, path, st);
    assert made.state.blobs == st.blobs && st.trace <= made.state.trace by {
      if path == "" {
        ModelInitRuns(svc, st);
      } else {
        ModelLoadFrame(svc, attr.opConf, path, st);
      }
    }
  }

  /** The value a variable op made: initialised when the snapshot path is "", else loaded. */
  function MadeValue(svc: Services, attr: OpAttribute, path: string, st: RtState): Effect<BlobObject> {
    if path == "" then ModelInitSpec(svc, st) else ModelLoadSpec(svc, attr.opConf, path, st)
  }

  /** A variable op that completes, unfolded into its parts. */
  lemma VariableOpSteps(svc: Services, ctx: InterpContext, e: OpExpr, inputs: seq<TensorId>, outputs: seq<TensorId>, st: RtState)
    requires e.BuiltinOpExpr? && VariableSpec(svc, ctx, e, inputs, outputs, st).outcome.Pass?
    ensures |inputs| == 0 && |outputs| == 1 && svc.defaultSession.Ok?
    ensures var naive := AddAndNaiveSpec(svc, ctx, e, inputs, outputs, st);
      && naive.result.Ok? && "out" in naive.result.value.mirroredSignature
      && var attr := naive.result.value;
         var made := MadeValue(svc, attr, svc.defaultSession.value.snapshotPath(attr.opConf.name), naive.state);
         && made.result.Ok? && outputs[0] in made.state.blobs
         && VariableSpec(svc, ctx, e, inputs, outputs, st)
            == EagerEffect(Pass, Submitted(made.state, AssignRun(svc, made.state.blobs, outputs[0], made.result.value).value))
  {
  }

  /**
   * A variable op that completes had no input and one output with a blob. It ran the op, then
   * initialised the value when the session's snapshot path for the variable is "" and loaded it
   * from "<variable name>/out" otherwise, and last assigned the value, boxed to the output's
   * placement on the CPU, to the output's blob.
   */
  lemma VariableOpRuns(svc: Services, ctx: InterpContext, e: OpExpr, inputs: seq<TensorId>, outputs: seq<TensorId>, st: RtState)
    requires e.BuiltinOpExpr? && VariableSpec(svc, ctx, e, inputs, outputs, st).outcome.Pass?
    ensures |inputs| == 0 && |outputs| == 1 && outputs[0] in st.blobs
    ensures AddOpEffect(svc, e.conf, ctx, map[]).result.Ok? && svc.defaultSession.Ok?
    ensures var attr := AddOpEffect(svc, e.conf, ctx, map[]).result.value;
      var path := svc.defaultSession.value.snapshotPath(attr.opConf.name);
      var r := VariableSpec(svc, ctx, e, inputs, outputs, st);
      && "out" in attr.mirroredSignature
      && (path != "" ==> path == attr.opConf.name + "/out" || (path == "out" && attr.opConf.name == ""))
      && st.trace <= r.state.trace
      && RunShapes(Appended(st, r.state)) == (if path == "" then VariableInitShapes else VariableLoadShapes)
  {
    VariableOpSteps(svc, ctx, e, inputs, outputs, st);
    var naive := AddAndNaiveSpec(svc, ctx, e, inputs, outputs, st);
    var attr := naive.result.value;
    var path := svc.defaultSession.value.snapshotPath(attr.opConf.name);
    var made := MadeValue(svc, attr, path, naive.state);
    var r := VariableSpec(svc, ctx, e, inputs, outputs, st);
    var instrs := AssignRun(svc, made.state.blobs, outputs[0], made.result.value).value;
    assert st.trace <= naive.state.trace && naive.state.blobs == st.blobs
        && RunShapes(Appended(st, naive.state)) == [[NoBoxingStatelessCallKind]]
        && attr == AddOpEffect(svc, e.conf, ctx, map[]).result.value by {
      UserOpRuns(svc, ctx, e, inputs, outputs, st);
    }
    MadeRuns(svc, attr, path, naive.state);
    assert RunShapes(Appended(made.state, r.state)) == [[ReplaceDeviceTagKind, BoxingToKind, AssignBlobKind]] by {
      assert Appended(made.state, r.state) == [LogicalRun(instrs)];
      AssignShape(svc, made.state.blobs, outputs[0], made.result.value);
    }
    VariableShapesChain(st, naive.state, made.state, r.state, path);
  }

  /** Making a variable's value only appends its runs, of the shapes for the path, and changes no blob. */
  lemma MadeRuns(svc: Services, attr: OpAttribute, path: string, st: RtState)
    requires MadeValue(svc, attr, path, st).result.Ok?
    ensures var made := MadeValue(svc, attr, path, st);
      && st.trace <= made.state.trace && made.state.blobs == st.blobs
      && RunShapes(Appended(st, made.state)) == MadeShapes(path)
      && (path != "" ==> path == attr.opConf.name + "/out" || (path == "out" && attr.opConf.name == ""))
  {
    if path == "" {
      ModelInitRuns(svc, st);
    } else {
      ModelLoadFrame(svc, attr.opConf, path, st);
      ModelLoadRuns(svc, attr.opConf, path, st);
    }
  }

  /** An assignment that completes is one run of a device-tag replacement, a boxing and an assign. */
  lemma AssignShape(svc: Services, blobs: Blobs, target: TensorId, value: BlobObject)
    requires AssignRun(svc, blobs, target, value).Ok?
    ensures RunShapes([LogicalRun(AssignRun(svc, blobs, target, value).value)]) == [[ReplaceDeviceTagKind, BoxingToKind, AssignBlobKind]]
  {
    var instrs := AssignRun(svc, blobs, target, value).value;
    assert Kinds(instrs) == [ReplaceDeviceTagKind, BoxingToKind, AssignBlobKind];
    RunShapesCons(LogicalRun(instrs), []);
    assert [LogicalRun(instrs)] + [] == [LogicalRun(instrs)];
  }

  lemma VariableShapesChain(st: RtState, naive: RtState, made: RtState, final: RtState, path: string)
    requires st.trace <= naive.trace && naive.trace <= made.trace && made.trace <= final.trace
    requires RunShapes(Appended(st, naive)) == [[NoBoxingStatelessCallKind]]
    requires RunShapes(Appended(naive, made)) == MadeShapes(path)
    requires RunShapes(Appended(made, final)) == [[ReplaceDeviceTagKind, BoxingToKind, AssignBlobKind]]
    ensures st.trace <= final.trace
    ensures RunShapes(Appended(st, final)) == (if path == "" then VariableInitShapes else VariableLoadShapes)
  {
    AppendedChain(st, naive, made);
    AppendedChain(st, made, final);
  }

  /** A value that was made is the "out_0" of the stateless call in the last run; no blob changes. */
  lemma MadeValueLast(svc: Services, attr: OpAttribute, path: string, st: RtState)
    requires MadeValue(svc, attr, path, st).result.Ok?
    ensures var made := MadeValue(svc, attr, path, st);
      var mt := made.state.trace;
      && made.state.blobs == st.blobs && |mt| >= |st.trace| + 1 && mt[..|st.trace|] == st.trace
      && mt[|mt| - 1].LogicalRun? && |mt[|mt| - 1].instrs| == 1
      && var call := mt[|mt| - 1].instrs[0];
         && call.StatelessCall?
         && "out_0" in svc.statelessCall(call.opAttribute, call.parallelConf, call.bn2blob)
         && made.result.value == svc.statelessCall(call.opAttribute, call.parallelConf, call.bn2blob)["out_0"]
  {
    var made := MadeValue(svc, attr, path, st);
    if path == "" {
      ModelInitRuns(svc, st);
      LastAppended(st, made.state);
    } else {
      ModelLoadFrame(svc, attr.opConf, path, st);
      ModelLoadRuns(svc, attr.opConf, path, st);
      LastAppended(st, made.state);
    }
  }

  /** The last event of a trace that grew is the last event appended. */
  lemma LastAppended(before: RtState, after: RtState)
    requires before.trace <= after.trace && |Appended(before, after)| >= 1
    ensures |after.trace| >= |before.trace| + 1 && after.trace[..|before.trace|] == before.trace
    ensures after.trace[|after.trace| - 1] == Appended(before, after)[|Appended(before, after)| - 1]
  {
  }

  /**
   * The last two runs of a variable op that completes: a stateless call (of the model-init or the
   * model-load op), then the assignment of that call's "out_0", boxed to the placement of the
   * output's blob moved to the CPU, to the output's blob.
   */
  lemma VariableOpAssigns(svc: Services, ctx: InterpContext, e: OpExpr, inputs: seq<TensorId>, outputs: seq<TensorId>, st: RtState)
    requires e.BuiltinOpExpr? && VariableSpec(svc, ctx, e, inputs, outputs, st).outcome.Pass?
    ensures |outputs| == 1 && outputs[0] in st.blobs
    ensures var trace := VariableSpec(svc, ctx, e, inputs, outputs, st).state.trace;
      && |trace| >= |st.trace| + 3
      && trace[|trace| - 1].LogicalRun? && trace[|trace| - 2].LogicalRun?
      && |trace[|trace| - 1].instrs| == 3 && |trace[|trace| - 2].instrs| == 1
      && var assign := trace[|trace| - 1].instrs;
         var call := trace[|trace| - 2].instrs[0];
         var target := st.blobs[outputs[0]];
         && call.StatelessCall?
         && "out_0" in svc.statelessCall(call.opAttribute, call.parallelConf, call.bn2blob)
         && var value := svc.statelessCall(call.opAttribute, call.parallelConf, call.bn2blob)["out_0"];
            assign == [ReplaceDeviceTag(target.ParallelDescSymbol(), "cpu"),
                       BoxingTo(value, AssignConsumer(svc, target)),
                       AssignBlob(target, svc.boxingTo(value, AssignConsumer(svc, target)))]
  {
    VariableOpSteps(svc, ctx, e, inputs, outputs, st);
    var naive := AddAndNaiveSpec(svc, ctx, e, inputs, outputs, st);
    var attr := naive.result.value;
    var path := svc.defaultSession.value.snapshotPath(attr.opConf.name);
    var made := MadeValue(svc, attr, path, naive.state);
    var r := VariableSpec(svc, ctx, e, inputs, outputs, st);
    assert naive.state.blobs == st.blobs && st.trace <= naive.state.trace
        && |Appended(st, naive.state)| >= 1 by {
      UserOpRuns(svc, ctx, e, inputs, outputs, st);
    }
    MadeValueLast(svc, attr, path, naive.state);
    var instrs := AssignRun(svc, made.state.blobs, outputs[0], made.result.value).value;
    assert r.state.trace == made.state.trace + [LogicalRun(instrs)];
    LastTwo(made.state.trace, instrs);
  }

  /** Appending one run keeps the old last event just before it. */
  lemma LastTwo(trace: seq<Event>, instrs: seq<Instr>)
    requires |trace| >= 1
    ensures var after := trace + [LogicalRun(instrs)];
      && |after| == |trace| + 1 && after[|after| - 1] == LogicalRun(instrs)
      && after[|after| - 2] == trace[|trace| - 1]
  {
  }

  /** The shapes of the runs that make a variable's value. */
  function MadeShapes(path: string): seq<seq<InstrKind>> {
    if path == "" then [[StatelessCallKind]]
    else [[StatelessCallKind], [FeedBlobKind, InsertRemoveForeignCallbackKind], [StatelessCallKind]]
  }

  /**
   * A closure that completes appends exactly its run and leaves its blobs; one that stops appends
   * nothing and leaves the blobs it stopped with.
   */
  lemma CommittedEffect(b: Built, st: RtState)
    ensures var r := Committed(b, st);
      && st.trace <= r.state.trace
      && (r.outcome.Pass? <==> b.Done?)
      && (b.Stopped? ==> r == EagerEffect(Fail(b.error), st.(blobs := b.blobs)) && Appended(st, r.state) == [])
      && (b.Done? ==>
            && Appended(st, r.state) == [LogicalRun(b.run.instrs)]
            && r.state.blobs == b.run.blobs
            && RunShapes(Appended(st, r.state)) == [Kinds(b.run.instrs)])
  {
    if b.Done? {
      var r := Committed(b, st);
      assert r.state.trace == st.trace + [LogicalRun(b.run.instrs)];
      RunShapesCons(LogicalRun(b.run.instrs), []);
      assert [LogicalRun(b.run.instrs)] + [] == [LogicalRun(b.run.instrs)];
    }
  }

  /** A closure that writes only in its last step changes nothing when it stops. */
  lemma ClosedEffect(run: Result<Run>, st: RtState)
    ensures var r := Committed(Closed(run, st.blobs), st);
      && st.trace <= r.state.trace
      && (r.outcome.Pass? <==> run.Ok?)
      && (run.Err? ==> r == EagerEffect(Fail(run.error), st))
      && (run.Ok? ==>
            && Appended(st, r.state) == [LogicalRun(run.value.instrs)]
            && r.state.blobs == run.value.blobs
            && RunShapes(Appended(st, r.state)) == [Kinds(run.value.instrs)])
  {
    CommittedEffect(Closed(run, st.blobs), st);
  }

  /** Adding the op appends its graph event and changes no blob. */
  lemma AddOpFrame(svc: Services, ctx: InterpContext, e: OpExpr, st: RtState)
    requires e.BuiltinOpExpr?
    ensures var added := AddOpSpec(svc, ctx, e, st);
      && added.state.blobs == st.blobs && st.trace <= added.state.trace
      && Appended(st, added.state) == AddOpEffect(svc, e.conf, ctx, map[]).events
      && RunShapes(Appended(st, added.state)) == []
  {
    AddOpSubmitsNoRun(svc, ctx, e);
  }

  /**
   * A mirrored cast that completes makes the tensor of "out" point to a new reference to the blob
   * of "in", whose parallel attribute is inferred for "out" on the placement of that blob; it
   * submits that one instruction as one run. One that fails changes no blob and submits no run.
   */
  lemma MirroredCastRefers(svc: Services, ctx: InterpContext, e: OpExpr, inputs: seq<TensorId>, outputs: seq<TensorId>, st: RtState)
    requires e.BuiltinOpExpr?
    ensures var r := MirroredCastSpec(svc, ctx, e, inputs, outputs, st);
      var step := AddOpEffect(svc, e.conf, ctx, map[]);
      && st.trace <= r.state.trace
      && (r.outcome.Fail? ==> r.state.blobs == st.blobs && RunShapes(Appended(st, r.state)) == [])
      && (r.outcome.Pass? ==>
            && step.result.Ok? && Bn2TensorMap(e, inputs, outputs).Ok?
            && var bn2t := Bn2TensorMap(e, inputs, outputs).value;
               && "in" in bn2t && bn2t["in"] in st.blobs && "out" in bn2t && bn2t["out"] in st.blobs
               && var inBlob := st.blobs[bn2t["in"]];
                  var target := svc.opArgParallelAttribute(inBlob.ParallelDescSymbol(), step.result.value, "out");
                  && target.Ok? && svc.makeReferenceBlobObject(inBlob, target.value).Ok?
                  && Appended(st, r.state) == step.events + [LogicalRun([MakeReferenceBlobObject(inBlob, target.value)])]
                  && r.state.blobs == st.blobs[bn2t["out"] := svc.makeReferenceBlobObject(inBlob, target.value).value]
                  && RunShapes(Appended(st, r.state)) == [[MakeReferenceBlobObjectKind]])
  {
    var r := MirroredCastSpec(svc, ctx, e, inputs, outputs, st);
    var added := AddOpSpec(svc, ctx, e, st);
    AddOpFrame(svc, ctx, e, st);
    if added.result.Ok? {
      var run := MirroredCastRun(svc, e, added.result.value, inputs, outputs, added.state.blobs);
      ClosedEffect(run, added.state);
      AppendedChain(st, added.state, r.state);
      if run.Ok? {
        MirroredCastRunRefers(svc, e, added.result.value, inputs, outputs, added.state.blobs);
        assert Kinds(run.value.instrs) == [MakeReferenceBlobObjectKind];
      }
    }
  }

  /**
   * A split or clone that completes boxes the blob of "in" to the op's placement for "in", unpacks
   * the boxed blob and writes the physical blobs through "out_0", "out_1", ...; it submits those
   * two instructions as one run, and the set of tensors with a blob stays the same. One that fails
   * submits no run; `SplitOrCloneStops` says which blobs it leaves.
   */
  lemma SplitOrCloneUnpacks(svc: Services, ctx: InterpContext, e: OpExpr, inputs: seq<TensorId>, outputs: seq<TensorId>, st: RtState)
    requires e.BuiltinOpExpr?
    ensures var r := SplitOrCloneSpec(svc, ctx, e, inputs, outputs, st);
      var step := AddOpEffect(svc, e.conf, ctx, map[]);
      && st.trace <= r.state.trace
      && (r.outcome.Fail? ==> RunShapes(Appended(st, r.state)) == [])
      && (r.outcome.Pass? ==>
            && step.result.Ok? && Bn2TensorMap(e, inputs, outputs).Ok?
            && var bn2t := Bn2TensorMap(e, inputs, outputs).value;
               var ev := Appended(st, r.state);
               && |ev| == |step.events| + 1 && ev[..|step.events|] == step.events
               && ev[|step.events|].LogicalRun? && |ev[|step.events|].instrs| == 2
               && var boxing := ev[|step.events|].instrs[0];
                  && boxing.BoxingTo?
                  && "in" in bn2t && bn2t["in"] in st.blobs && boxing.src == st.blobs[bn2t["in"]]
                  && ev[|step.events|].instrs[1] == UnpackLogicalBlob(svc.boxingTo(boxing.src, boxing.target))
                  && svc.unpack(svc.boxingTo(boxing.src, boxing.target)).Ok?
                  && r.state.blobs == Bound(bn2t, st.blobs, svc.unpack(svc.boxingTo(boxing.src, boxing.target)).value).value
                  && r.state.blobs.Keys == st.blobs.Keys
                  && RunShapes(ev) == [[BoxingToKind, UnpackKind]])
  {
    var r := SplitOrCloneSpec(svc, ctx, e, inputs, outputs, st);
    var added := AddOpSpec(svc, ctx, e, st);
    AddOpFrame(svc, ctx, e, st);
    if added.result.Ok? {
      var run := SplitOrCloneRun(svc, e, added.result.value, inputs, outputs, added.state.blobs);
      CommittedEffect(run, added.state);
      AppendedChain(st, added.state, r.state);
      if run.Done? {
        SplitOrCloneRunBinds(svc, e, added.result.value, inputs, outputs, added.state.blobs);
        assert Appended(st, r.state) == added.state.trace[|st.trace|..] + [LogicalRun(run.run.instrs)];
      }
    }
  }

  /**
   * A split or clone that fails keeps the set of tensors with a blob. When adding the op and the
   * steps before the binding loop succeed, the failure is the loop's abort at the first null
   * "out_<k>" handle, and the physical blobs written before it stay written; otherwise no blob
   * changes.
   */
  lemma SplitOrCloneStops(svc: Services, ctx: InterpContext, e: OpExpr, inputs: seq<TensorId>, outputs: seq<TensorId>, st: RtState)
    requires e.BuiltinOpExpr? && SplitOrCloneSpec(svc, ctx, e, inputs, outputs, st).outcome.Fail?
    ensures var r := SplitOrCloneSpec(svc, ctx, e, inputs, outputs, st);
      var step := AddOpEffect(svc, e.conf, ctx, map[]);
      && r.state.blobs.Keys == st.blobs.Keys
      && (step.result.Ok? && Unpacked(svc, e, step.result.value, inputs, outputs, st.blobs).Ok? ==>
            var u := Unpacked(svc, e, step.result.value, inputs, outputs, st.blobs).value;
            && Bound(u.0, st.blobs, u.2).Err?
            && r.outcome.error == Fatal("null blob object")
            && r.state.blobs == Written(u.0, st.blobs, u.2))
      && (!(step.result.Ok? && Unpacked(svc, e, step.result.value, inputs, outputs, st.blobs).Ok?) ==>
            r.state.blobs == st.blobs)
  {
    var added := AddOpSpec(svc, ctx, e, st);
    AddOpFrame(svc, ctx, e, st);
    if added.result.Ok? {
      var run := SplitOrCloneRun(svc, e, added.result.value, inputs, outputs, added.state.blobs);
      CommittedEffect(run, added.state);
      SplitOrCloneRunStops(svc, e, added.result.value, inputs, outputs, added.state.blobs);
    }
  }

  /**
   * For a split or clone op whose input is "in" and whose outputs are "out_0", "out_1", ...,
   * bound to distinct tensors, a call that succeeds ends with the unpacking run, and the i-th
   * output tensor then holds the i-th physical blob that run unpacks; every other tensor keeps
   * its blob.
   */
  lemma SplitOrCloneBindsEach(svc: Services, ctx: InterpContext, e: OpExpr, inputs: seq<TensorId>, outputs: seq<TensorId>, st: RtState)
    requires e.BuiltinOpExpr?
    requires |inputs| == 1 && |e.indexedIbns| == 1 && e.indexedIbns[0] == "in"
    requires |e.indexedObns| == |outputs| && forall j :: 0 <= j < |outputs| ==> e.indexedObns[j] == IndexedName("out_", j)
    requires forall i, j :: 0 <= i < j < |outputs| ==> outputs[i] != outputs[j]
    ensures var r := SplitOrCloneSpec(svc, ctx, e, inputs, outputs, st);
      r.outcome.Pass? ==>
        && |r.state.trace| > |st.trace|
        && var run := r.state.trace[|r.state.trace| - 1];
           && run.LogicalRun? && |run.instrs| == 2 && run.instrs[1].UnpackLogicalBlob?
           && svc.unpack(run.instrs[1].logical).Ok?
           && var phys := svc.unpack(run.instrs[1].logical).value;
              && |phys| <= |outputs| && r.state.blobs.Keys == st.blobs.Keys
              && (forall i :: 0 <= i < |phys| ==> outputs[i] in r.state.blobs && r.state.blobs[outputs[i]] == phys[i])
              && (forall t :: t in st.blobs && (forall i :: 0 <= i < |phys| ==> outputs[i] != t) ==> r.state.blobs[t] == st.blobs[t])
  {
    var r := SplitOrCloneSpec(svc, ctx, e, inputs, outputs, st);
    if r.outcome.Pass? {
      SplitOrCloneUnpacks(svc, ctx, e, inputs, outputs, st);
      var bn2t := Bn2TensorMap(e, inputs, outputs).value;
      var ev := Appended(st, r.state);
      var run := r.state.trace[|r.state.trace| - 1];
      assert run == ev[|ev| - 1];
      var phys := svc.unpack(run.instrs[1].logical).value;
      assert r.state.blobs == Bound(bn2t, st.blobs, phys).value;
      SplitNamesBind(e, inputs, outputs);
      BoundEach(bn2t, st.blobs, phys, outputs);
    }
  }

  /**
   * For the same split or clone op onto distinct outputs, a call that fails in the binding loop
   * aborts at the first output whose handle is null, or at the first physical blob beyond the
   * outputs; each output before that point already holds its own physical blob, and every other
   * tensor keeps its blob.
   */
  lemma SplitOrCloneAbortsEach(svc: Services, ctx: InterpContext, e: OpExpr, inputs: seq<TensorId>, outputs: seq<TensorId>, st: RtState)
    requires e.BuiltinOpExpr?
    requires |inputs| == 1 && |e.indexedIbns| == 1 && e.indexedIbns[0] == "in"
    requires |e.indexedObns| == |outputs| && forall j :: 0 <= j < |outputs| ==> e.indexedObns[j] == IndexedName("out_", j)
    requires forall i, j :: 0 <= i < j < |outputs| ==> outputs[i] != outputs[j]
    ensures var r := SplitOrCloneSpec(svc, ctx, e, inputs, outputs, st);
      var step := AddOpEffect(svc, e.conf, ctx, map[]);
      r.outcome.Fail? && step.result.Ok? && Unpacked(svc, e, step.result.value, inputs, outputs, st.blobs).Ok? ==>
        var phys := Unpacked(svc, e, step.result.value, inputs, outputs, st.blobs).value.2;
        var k := Reach(Bn2TensorMap(e, inputs, outputs).value, st.blobs, |phys|);
        && r.outcome.error == Fatal("null blob object")
        && k < |phys| && k <= |outputs| && (k == |outputs| || outputs[k] !in st.blobs)
        && r.state.blobs.Keys == st.blobs.Keys
        && (forall i :: 0 <= i < k ==> outputs[i] in r.state.blobs && r.state.blobs[outputs[i]] == phys[i])
        && (forall t :: t in st.blobs && (forall i :: 0 <= i < k ==> outputs[i] != t) ==> r.state.blobs[t] == st.blobs[t])
  {
    var r := SplitOrCloneSpec(svc, ctx, e, inputs, outputs, st);
    var step := AddOpEffect(svc, e.conf, ctx, map[]);
    if r.outcome.Fail? && step.result.Ok? && Unpacked(svc, e, step.result.value, inputs, outputs, st.blobs).Ok? {
      var u := Unpacked(svc, e, step.result.value, inputs, outputs, st.blobs).value;
      SplitOrCloneStops(svc, ctx, e, inputs, outputs, st);
      SplitNamesBind(e, inputs, outputs);
      WrittenEach(u.0, st.blobs, u.2, outputs);
    }
  }

  /** A concat or add only appends to the trace; one that fails changes no blob and submits no run. */
  lemma ConcatOrAddFrame(svc: Services, ctx: InterpContext, e: OpExpr, inputs: seq<TensorId>, outputs: seq<TensorId>, st: RtState)
    requires e.BuiltinOpExpr?
    ensures var r := ConcatOrAddSpec(svc, ctx, e, inputs, outputs, st);
      && st.trace <= r.state.trace
      && (r.outcome.Fail? ==> r.state.blobs == st.blobs && RunShapes(Appended(st, r.state)) == [])
  {
    var r := ConcatOrAddSpec(svc, ctx, e, inputs, outputs, st);
    var added := AddOpSpec(svc, ctx, e, st);
    AddOpFrame(svc, ctx, e, st);
    if added.result.Ok? {
      var attr := added.result.value;
      if svc.getSymbol(attr.opParallelDescSymbolId).Ok? {
        var target := svc.opArgParallelAttribute(svc.getSymbol(attr.opParallelDescSymbolId).value, attr, "out");
        var blobAttr := svc.opArgBlobAttribute(attr, "out");
        if target.Ok? && blobAttr.Ok? {
          ClosedEffect(ConcatOrAddRun(svc, e, attr, target.value, blobAttr.value, inputs, outputs, added.state.blobs), added.state);
          AppendedChain(st, added.state, r.state);
        }
      }
    }
  }

  /** A concat or add that completes, unfolded into its parts. */
  lemma ConcatOrAddSteps(svc: Services, ctx: InterpContext, e: OpExpr, inputs: seq<TensorId>, outputs: seq<TensorId>, st: RtState)
    requires e.BuiltinOpExpr? && ConcatOrAddSpec(svc, ctx, e, inputs, outputs, st).outcome.Pass?
    ensures var added := AddOpSpec(svc, ctx, e, st);
      && added.result.Ok?
      && var attr := added.result.value;
         && svc.getSymbol(attr.opParallelDescSymbolId).Ok?
         && var target := svc.opArgParallelAttribute(svc.getSymbol(attr.opParallelDescSymbolId).value, attr, "out");
            var blobAttr := svc.opArgBlobAttribute(attr, "out");
            && target.Ok? && blobAttr.Ok?
            && var run := ConcatOrAddRun(svc, e, attr, target.value, blobAttr.value, inputs, outputs, added.state.blobs);
               && run.Ok?
               && ConcatOrAddSpec(svc, ctx, e, inputs, outputs, st) == Committed(Closed(run, added.state.blobs), added.state)
  {
  }

  /**
   * A concat or add that completes boxes the blob of each "in_<i>" in order, packs the boxed
   * blobs with the parallel and blob attributes inferred for "out", and makes the tensor of "out"
   * point to the packed blob; it submits those instructions as one run.
   */
  lemma ConcatOrAddPacks(svc: Services, ctx: InterpContext, e: OpExpr, inputs: seq<TensorId>, outputs: seq<TensorId>, st: RtState)
    requires e.BuiltinOpExpr? && ConcatOrAddSpec(svc, ctx, e, inputs, outputs, st).outcome.Pass?
    ensures var r := ConcatOrAddSpec(svc, ctx, e, inputs, outputs, st);
      var step := AddOpEffect(svc, e.conf, ctx, map[]);
      && step.result.Ok? && Bn2TensorMap(e, inputs, outputs).Ok?
      && st.trace <= r.state.trace
      && var attr := step.result.value;
         var bn2t := Bn2TensorMap(e, inputs, outputs).value;
         var ev := Appended(st, r.state);
         && svc.getSymbol(attr.opParallelDescSymbolId).Ok?
         && var target := svc.opArgParallelAttribute(svc.getSymbol(attr.opParallelDescSymbolId).value, attr, "out");
            var blobAttr := svc.opArgBlobAttribute(attr, "out");
            && target.Ok? && blobAttr.Ok?
            && |ev| == |step.events| + 1 && ev[..|step.events|] == step.events && ev[|step.events|].LogicalRun?
            && var instrs := ev[|step.events|].instrs;
               var n := |e.indexedIbns|;
               && |instrs| == n + 1
               && instrs[n] == PackPhysicalBlobs(instrs[n].physical, target.value, blobAttr.value)
               && "out" in bn2t && bn2t["out"] in st.blobs
               && svc.pack(instrs[n].physical, target.value, blobAttr.value).Ok?
               && r.state.blobs == st.blobs[bn2t["out"] := svc.pack(instrs[n].physical, target.value, blobAttr.value).value]
               && |RunShapes(ev)| == 1 && PackShaped(RunShapes(ev)[0], n)
  {
    ConcatOrAddSteps(svc, ctx, e, inputs, outputs, st);
    var r := ConcatOrAddSpec(svc, ctx, e, inputs, outputs, st);
    var added := AddOpSpec(svc, ctx, e, st);
    var attr := added.result.value;
    var target := svc.opArgParallelAttribute(svc.getSymbol(attr.opParallelDescSymbolId).value, attr, "out").value;
    var blobAttr := svc.opArgBlobAttribute(attr, "out").value;
    var run := ConcatOrAddRun(svc, e, attr, target, blobAttr, inputs, outputs, added.state.blobs);
    assert added.state.blobs == st.blobs && st.trace <= added.state.trace
        && Appended(st, added.state) == AddOpEffect(svc, e.conf, ctx, map[]).events
        && RunShapes(Appended(st, added.state)) == [] by {
      AddOpFrame(svc, ctx, e, st);
    }
    assert Appended(added.state, r.state) == [LogicalRun(run.value.instrs)] && r.state.blobs == run.value.blobs
        && RunShapes(Appended(added.state, r.state)) == [Kinds(run.value.instrs)] by {
      ClosedEffect(run, added.state);
    }
    AppendedChain(st, added.state, r.state);
    var n := |e.indexedIbns|;
    var instrs := run.value.instrs;
    var bn2t := Bn2TensorMap(e, inputs, outputs).value;
    assert && |instrs| == n + 1
           && instrs[n] == PackPhysicalBlobs(instrs[n].physical, target, blobAttr)
           && "out" in bn2t && bn2t["out"] in st.blobs
           && svc.pack(instrs[n].physical, target, blobAttr).Ok?
           && run.value.blobs == st.blobs[bn2t["out"] := svc.pack(instrs[n].physical, target, blobAttr).value]
           && PackShaped(Kinds(instrs), n) by {
      ConcatOrAddRunPacks(svc, e, attr, target, blobAttr, inputs, outputs, added.state.blobs);
      ConcatOrAddRunShape(svc, e, attr, target, blobAttr, inputs, outputs, added.state.blobs);
    }
  }

  /**
   * `EagerInterpreter::Apply` runs the overload of the expression's builtin kind; it does nothing
   * for a function expression, and aborts for any other expression or builtin kind.
   */
  lemma EagerApplyCases(svc: Services, ctx: InterpContext, e: OpExpr, inputs: seq<TensorId>, outputs: seq<TensorId>, st: RtState)
    ensures var r := EagerApplySpec(svc, ctx, e, inputs, outputs, st);
      && (e.OtherOpExpr? || (e.BuiltinOpExpr? && e.kind.OtherBuiltinOp?) ==> r == EagerEffect(Fail(Unsupported), st))
      && (e.FunctionOpExpr? ==> r == EagerEffect(Pass, st))
      && (e.BuiltinOpExpr? && e.kind == UserOp ==> r == UserOpSpec(svc, ctx, e, inputs, outputs, st))
      && (e.BuiltinOpExpr? && e.kind == VariableOp ==> r == VariableSpec(svc, ctx, e, inputs, outputs, st))
      && (e.BuiltinOpExpr? && (e.kind == CastToMirroredOp || e.kind == CastFromMirroredOp) ==>
            r == MirroredCastSpec(svc, ctx, e, inputs, outputs, st))
      && (e.BuiltinOpExpr? && (e.kind == DistributeSplitOp || e.kind == DistributeCloneOp) ==>
            r == SplitOrCloneSpec(svc, ctx, e, inputs, outputs, st))
      && (e.BuiltinOpExpr? && (e.kind == DistributeConcatOp || e.kind == DistributeAddOp) ==>
            r == ConcatOrAddSpec(svc, ctx, e, inputs, outputs, st))
  {
    EagerDispatch(e);
  }

  /** The ops that write through an output handle: the mirrored casts and the distribute ops. */
  predicate WritesThroughHandles(e: OpExpr) {
    e.BuiltinOpExpr? && !e.kind.OtherBuiltinOp? && e.kind != UserOp && e.kind != VariableOp
  }

  /** The ops whose closure can abort after writing through some output handles: split and clone. */
  predicate WritesBeforeAbort(e: OpExpr) {
    e.BuiltinOpExpr? && (e.kind == DistributeSplitOp || e.kind == DistributeCloneOp)
  }

  /**
   * What every eager call keeps: it only appends to the trace and keeps the set of tensors with a
   * blob; when the op does not write through its output handles, it changes no blob, and neither
   * does a call that fails, unless its closure can abort after writing.
   */
  predicate Framed(e: OpExpr, st: RtState, r: EagerEffect) {
    && st.trace <= r.state.trace
    && r.state.blobs.Keys == st.blobs.Keys
    && (!WritesThroughHandles(e) ==> r.state.blobs == st.blobs)
    && (r.outcome.Fail? && !WritesBeforeAbort(e) ==> r.state.blobs == st.blobs)
  }

  lemma UserOpFramed(svc: Services, ctx: InterpContext, e: OpExpr, inputs: seq<TensorId>, outputs: seq<TensorId>, st: RtState)
    requires e.BuiltinOpExpr? && e.kind == UserOp
    ensures Framed(e, st, UserOpSpec(svc, ctx, e, inputs, outputs, st))
  {
    UserOpRuns(svc, ctx, e, inputs, outputs, st);
  }

  lemma VariableOpFramed(svc: Services, ctx: InterpContext, e: OpExpr, inputs: seq<TensorId>, outputs: seq<TensorId>, st: RtState)
    requires e.BuiltinOpExpr? && e.kind == VariableOp
    ensures Framed(e, st, VariableSpec(svc, ctx, e, inputs, outputs, st))
  {
    VariableOpFrame(svc, ctx, e, inputs, outputs, st);
  }

  lemma MirroredCastFramed(svc: Services, ctx: InterpContext, e: OpExpr, inputs: seq<TensorId>, outputs: seq<TensorId>, st: RtState)
    requires WritesThroughHandles(e)
    ensures Framed(e, st, MirroredCastSpec(svc, ctx, e, inputs, outputs, st))
  {
    MirroredCastRefers(svc, ctx, e, inputs, outputs, st);
  }

  lemma SplitOrCloneFramed(svc: Services, ctx: InterpContext, e: OpExpr, inputs: seq<TensorId>, outputs: seq<TensorId>, st: RtState)
    requires WritesThroughHandles(e) && WritesBeforeAbort(e)
    ensures Framed(e, st, SplitOrCloneSpec(svc, ctx, e, inputs, outputs, st))
  {
    SplitOrCloneUnpacks(svc, ctx, e, inputs, outputs, st);
    if SplitOrCloneSpec(svc, ctx, e, inputs, outputs, st).outcome.Fail? {
      SplitOrCloneStops(svc, ctx, e, inputs, outputs, st);
    }
  }

  lemma ConcatOrAddFramed(svc: Services, ctx: InterpContext, e: OpExpr, inputs: seq<TensorId>, outputs: seq<TensorId>, st: RtState)
    requires WritesThroughHandles(e)
    ensures Framed(e, st, ConcatOrAddSpec(svc, ctx, e, inputs, outputs, st))
  {
    ConcatOrAddFrame(svc, ctx, e, inputs, outputs, st);
    if ConcatOrAddSpec(svc, ctx, e, inputs, outputs, st).outcome.Pass? {
      ConcatOrAddPacks(svc, ctx, e, inputs, outputs, st);
    }
  }

  /** Every call of `EagerInterpreter::Apply` keeps the frame above. */
  lemma EagerApplyFrame(svc: Services, ctx: InterpContext, e: OpExpr, inputs: seq<TensorId>, outputs: seq<TensorId>, st: RtState)
    ensures Framed(e, st, EagerApplySpec(svc, ctx, e, inputs, outputs, st))
  {
    EagerApplyCases(svc, ctx, e, inputs, outputs, st);
    if e.BuiltinOpExpr? {
      match e.kind
      case UserOp => UserOpFramed(svc, ctx, e, inputs, outputs, st);
      case VariableOp => VariableOpFramed(svc, ctx, e, inputs, outputs, st);
      case CastToMirroredOp => MirroredCastFramed(svc, ctx, e, inputs, outputs, st);
      case CastFromMirroredOp => MirroredCastFramed(svc, ctx, e, inputs, outputs, st);
      case DistributeSplitOp => SplitOrCloneFramed(svc, ctx, e, inputs, outputs, st);
      case DistributeCloneOp => SplitOrCloneFramed(svc, ctx, e, inputs, outputs, st);
      case DistributeConcatOp => ConcatOrAddFramed(svc, ctx, e, inputs, outputs, st);
      case DistributeAddOp => ConcatOrAddFramed(svc, ctx, e, inputs, outputs, st);
      case OtherBuiltinOp(_) =>
    }
  }

  class EagerInterpreter {
    var selfState: OpExprInterpState
    const ctx: InterpContext
    const rt: Runtime

    constructor (ctx: InterpContext, rt: Runtime)
      ensures this.ctx == ctx && this.rt == rt
    {
      this.ctx := ctx;
      this.rt := rt;
      selfState := new OpExprInterpState();
    }

    /** `LogicalRun(closure).GetOrThrow()` for a closure that writes through tensor handles. */
    method SubmitRun(b: Built) returns (o: Outcome)
      modifies rt`trace, rt`blobs
      ensures EagerEffect(o, rt.State()) == Committed(b, old(rt.State()))
    {
      if b.Stopped? {
        rt.KeepWrites(b.blobs);
        return Fail(b.error);
      }
      rt.Commit(b.run.instrs, b.run.blobs);
      o := Pass;
    }

    method NaiveInterpret(e: OpExpr, inputs: seq<TensorId>, outputs: seq<TensorId>, attr: OpAttribute) returns (o: Outcome)
      requires e.BuiltinOpExpr?
      modifies rt`trace
      ensures match NaiveRun(e, attr, ScopeParallelConf(ctx), inputs, outputs)
        case Err(err) => o == Fail(err) && rt.trace == old(rt.trace)
        case Ok(instrs) => o == Pass && rt.trace == old(rt.trace) + [LogicalRun(instrs)]
    {
      var bn2t := MakeBn2BlobObjectMap(e, inputs, outputs);
      if bn2t.Err? {
        return Fail(bn2t.error);
      }
      rt.Submit([NoBoxingStatelessCall(attr, ScopeParallelConf(ctx), bn2t.value)]);
      o := Pass;
    }

    method ApplyUserOp(e: OpExpr, inputs: seq<TensorId>, outputs: seq<TensorId>) returns (o: Outcome)
      requires e.BuiltinOpExpr?
      modifies rt`trace
      ensures EagerEffect(o, rt.State()) == UserOpSpec(rt.svc, ctx, e, inputs, outputs, old(rt.State()))
    {
      var attr := AddOpAndInferOpAttribute(rt, e, ctx, map[]);
      if attr.Err? {
        return Fail(attr.error);
      }
      o := NaiveInterpret(e, inputs, outputs, attr.value);
    }

    method EagerRunModelInit() returns (r: Result<BlobObject>)
      modifies rt`trace
      ensures Effect(r, rt.State()) == ModelInitSpec(rt.svc, old(rt.State()))
    {
      var init := StatelessRun(rt.svc, EmptyOpConf, map[]);
      if init.Err? {
        return Err(init.error);
      }
      rt.Submit(init.value.0);
      r := At(init.value.1, "out_0");
    }

    method EagerRunModelLoad(conf: OperatorConf, path: string) returns (r: Result<BlobObject>)
      modifies rt`trace
      ensures Effect(r, rt.State()) == ModelLoadSpec(rt.svc, conf, path, old(rt.State()))
    {
      if Basename(path) != "out" {
        return Err(Fatal("Check failed: path.basename() == out"));
      }
      if Dirname(path) != conf.name {
        return Err(Fatal("Check failed: path.dirname() == op_conf.name()"));
      }
      var pathInput := StatelessRun(rt.svc, EmptyOpConf, map[]);
      if pathInput.Err? {
        return Err(pathInput.error);
      }
      rt.Submit(pathInput.value.0);
      var feed := FeedPathRun(pathInput.value.1);
      if feed.Err? {
        return Err(feed.error);
      }
      rt.Submit(feed.value);
      var load := ModelLoadRun(rt.svc, pathInput.value.1);
      if load.Err? {
        return Err(load.error);
      }
      rt.Submit(load.value.0);
      r := At(load.value.1, "out_0");
    }

    method Assign(output: TensorId, blob: BlobObject) returns (o: Outcome)
      modifies rt`trace
      ensures match AssignRun(rt.svc, rt.blobs, output, blob)
        case Err(err) => o == Fail(err) && rt.trace == old(rt.trace)
        case Ok(instrs) => o == Pass && rt.trace == old(rt.trace) + [LogicalRun(instrs)]
    {
      var instrs := AssignRun(rt.svc, rt.blobs, output, blob);
      if instrs.Err? {
        return Fail(instrs.error);
      }
      rt.Submit(instrs.value);
      o := Pass;
    }

    method InitVariableOutputBlob(session: Session, attr: OpAttribute, output: TensorId) returns (o: Outcome)
      modifies rt`trace
      ensures EagerEffect(o, rt.State()) == InitVariableOutputBlobSpec(rt.svc, session, attr, output, old(rt.State()))
    {
      var path := session.snapshotPath(attr.opConf.name);
      var blob: Result<BlobObject>;
      if path == "" {
        blob := EagerRunModelInit();
      } else {
        blob := EagerRunModelLoad(attr.opConf, path);
      }
      if blob.Err? {
        return Fail(blob.error);
      }
      o := Assign(output, blob.value);
    }

    method ApplyVariableOp(e: OpExpr, inputs: seq<TensorId>, outputs: seq<TensorId>) returns (o: Outcome)
      requires e.BuiltinOpExpr?
      modifies rt`trace
      ensures EagerEffect(o, rt.State()) == VariableSpec(rt.svc, ctx, e, inputs, outputs, old(rt.State()))
    {
      if |inputs| != 0 {
        return Fail(Fatal("Check failed: inputs.size() == 0"));
      }
      if |outputs| != 1 {
        return Fail(Fatal("Check failed: outputs.size() == 1"));
      }
      if rt.svc.currentJobName.Err? {
        return Fail(Thrown(rt.svc.currentJobName.error.reason));
      }
      if rt.svc.defaultSession.Err? {
        return Fail(Thrown(rt.svc.defaultSession.error.reason));
      }
      var session := rt.svc.defaultSession.value;
      var attr := AddOpAndInferOpAttribute(rt, e, ctx, map[]);
      if attr.Err? {
        return Fail(attr.error);
      }
      o := NaiveInterpret(e, inputs, outputs, attr.value);
      if o.Fail? {
        return;
      }
      if "out" !in attr.value.mirroredSignature {
        return Fail(Fatal("Map::at: missing mirrored signature"));
      }
      o := InitVariableOutputBlob(session, attr.value, outputs[0]);
    }

    method ApplyMirroredCast(e: OpExpr, inputs: seq<TensorId>, outputs: seq<TensorId>) returns (o: Outcome)
      requires e.BuiltinOpExpr?
      modifies rt`trace, rt`blobs
      ensures EagerEffect(o, rt.State()) == MirroredCastSpec(rt.svc, ctx, e, inputs, outputs, old(rt.State()))
    {
      var attr := AddOpAndInferOpAttribute(rt, e, ctx, map[]);
      if attr.Err? {
        return Fail(attr.error);
      }
      var run := BuildMirroredCastInstruction(rt.svc, e, attr.value, inputs, outputs, rt.blobs);
      o := SubmitRun(Closed(run, rt.blobs));
    }

    method ApplySplitOrClone(e: OpExpr, inputs: seq<TensorId>, outputs: seq<TensorId>) returns (o: Outcome)
      requires e.BuiltinOpExpr?
      modifies rt`trace, rt`blobs
      ensures EagerEffect(o, rt.State()) == SplitOrCloneSpec(rt.svc, ctx, e, inputs, outputs, old(rt.State()))
    {
      var attr := AddOpAndInferOpAttribute(rt, e, ctx, map[]);
      if attr.Err? {
        return Fail(attr.error);
      }
      var run := BuildSplitOrCloneInstruction(rt.svc, e, attr.value, inputs, outputs, rt.blobs);
      o := SubmitRun(run);
    }

    method ApplyConcatOrAdd(e: OpExpr, inputs: seq<TensorId>, outputs: seq<TensorId>) returns (o: Outcome)
      requires e.BuiltinOpExpr?
      modifies rt`trace, rt`blobs
      ensures EagerEffect(o, rt.State()) == ConcatOrAddSpec(rt.svc, ctx, e, inputs, outputs, old(rt.State()))
    {
      var attr := AddOpAndInferOpAttribute(rt, e, ctx, map[]);
      if attr.Err? {
        return Fail(attr.error);
      }
      var pd := OrThrow(rt.svc.getSymbol(attr.value.opParallelDescSymbolId));
      if pd.Err? {
        return Fail(pd.error);
      }
      var target := OrThrow(rt.svc.opArgParallelAttribute(pd.value, attr.value, "out"));
      if target.Err? {
        return Fail(target.error);
      }
      var blobAttr := OrThrow(rt.svc.opArgBlobAttribute(attr.value, "out"));
      if blobAttr.Err? {
        return Fail(blobAttr.error);
      }
      var run := BuildConcatOrAddInstruction(rt.svc, e, attr.value, target.value, blobAttr.value, inputs, outputs, rt.blobs);
      o := SubmitRun(Closed(run, rt.blobs));
    }

    method Apply(e: OpExpr, inputs: seq<TensorId>, outputs: seq<TensorId>) returns (o: Outcome)
      modifies this`selfState, rt`trace, rt`blobs
      ensures fresh(selfState)
      ensures EagerEffect(o, rt.State()) == EagerApplySpec(rt.svc, ctx, e, inputs, outputs, old(rt.State()))
    {
      selfState := new OpExprInterpState();
      EagerDispatch(e);
      if e.BuiltinOpExpr? && e.kind == UserOp {
        o := ApplyUserOp(e, inputs, outputs);
      } else if e.BuiltinOpExpr? && e.kind == VariableOp {
        o := ApplyVariableOp(e, inputs, outputs);
      } else if e.BuiltinOpExpr? && (e.kind == CastToMirroredOp || e.kind == CastFromMirroredOp) {
        o := ApplyMirroredCast(e, inputs, outputs);
      } else if e.BuiltinOpExpr? && (e.kind == DistributeSplitOp || e.kind == DistributeCloneOp) {
        o := ApplySplitOrClone(e, inputs, outputs);
      } else if e.BuiltinOpExpr? && (e.kind == DistributeConcatOp || e.kind == DistributeAddOp) {
        o := ApplyConcatOrAdd(e, inputs, outputs);
      } else if e.FunctionOpExpr? {
        o := Pass;
      } else {
        o := Fail(Unsupported);
      }
    }
  }
}
