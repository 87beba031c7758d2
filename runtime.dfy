/**
 * What the interpreters call and do not define, as uninterpreted functions, and the state those
 * calls leave behind: a trace of the ops added to the job graph and of the logical runs
 * submitted, and the blob object each eager tensor's handle points to.
 */
module Runtime {
  import opened Base
  import opened Blob
  import opened OpExpr

  /** The parts of an inferred op attribute the interpreters read. */
  datatype OpAttribute = OpAttribute(
    opConf: OperatorConf,
    logicalBlobDescs: set<string>,           // the bns of logical_blob_desc_signature
    mirroredSignature: map<string, bool>,    // bn -> has_mirrored_parallel
    parallelSignature: map<string, int>,     // bn -> parallel desc symbol id, a 64-bit integer
    opParallelDescSymbolId: int)

  datatype Scope = Scope(symbolId: Result<int>, deviceParallelDescSymbol: ParallelDesc)

  /** The interpreter's context: the current scope and the mirrored-strategy switch. */
  datatype InterpContext = InterpContext(scope: Scope, isMirroredStrategyEnabled: bool)

  /** A session; its snapshot manager gives a variable's snapshot path, "" when there is none. */
  datatype Session = Session(snapshotPath: string -> string)

  datatype InferMode = MirroredInference | ConsistentInference

  /** The collaborators, each an uninterpreted function of what the interpreter passes it. */
  datatype Services = Services(
    hasInferCtx: bool,                                                          // GetCurInferCtx
    addAndInferOp: (OperatorConf, InferMode) -> Result<OpAttribute>,            // AddAndInfer{Mirrored,Consistent}Op
    currentJobName: Result<string>,                                             // JobBuildAndInferCtx_GetCurrentJobName
    defaultSession: Result<Session>,                                            // GetDefaultSession
    currentScope: Result<Scope>,                                                // GetCurrentScope
    constructAndInferOp: (OperatorConf, map<string, BlobObject>, Scope) -> Result<OpAttribute>,
    statelessCall: (OpAttribute, ParallelConf, map<string, BlobObject>) -> map<string, BlobObject>,
    getSymbol: int -> Result<ParallelDesc>,
    opArgParallelAttribute: (ParallelDesc, OpAttribute, string) -> Result<OpArgParallelAttribute>,
    opArgBlobAttribute: (OpAttribute, string) -> Result<OpArgBlobAttribute>,
    boxingTo: (BlobObject, OpArgParallelAttribute) -> BlobObject,
    tryReplaceDeviceTag: (ParallelDesc, string) -> ParallelDesc,
    makeReferenceBlobObject: (BlobObject, OpArgParallelAttribute) -> Result<BlobObject>,
    unpack: BlobObject -> Result<seq<BlobObject>>,
    pack: (seq<BlobObject>, OpArgParallelAttribute, OpArgBlobAttribute) -> Result<BlobObject>)

  /** A request a build closure makes of its instructions builder or of the boxing utility. */
  datatype Instr =
    | NoBoxingStatelessCall(opAttribute: OpAttribute, parallelConf: ParallelConf, bn2tensor: map<string, TensorId>)
    | StatelessCall(opAttribute: OpAttribute, parallelConf: ParallelConf, bn2blob: map<string, BlobObject>)
    | FeedBlob(blob: BlobObject, callbackId: int)
    | InsertRemoveForeignCallback(objectId: int, callbackId: int)
    | ReplaceDeviceTag(parallelDesc: ParallelDesc, deviceTag: string)
    | BoxingTo(src: BlobObject, target: OpArgParallelAttribute)
    | AssignBlob(targetBlob: BlobObject, srcBlob: BlobObject)
    | MakeReferenceBlobObject(src: BlobObject, target: OpArgParallelAttribute)
    | UnpackLogicalBlob(logical: BlobObject)
    | PackPhysicalBlobs(physical: seq<BlobObject>, target: OpArgParallelAttribute, blobAttr: OpArgBlobAttribute)

  /** The constructor of an instruction, to compare the shape of runs. */
  datatype InstrKind =
    | NoBoxingStatelessCallKind | StatelessCallKind | FeedBlobKind | InsertRemoveForeignCallbackKind
    | ReplaceDeviceTagKind | BoxingToKind | AssignBlobKind | MakeReferenceBlobObjectKind
    | UnpackKind | PackKind

  function KindOf(i: Instr): InstrKind {
    match i
    case NoBoxingStatelessCall(_, _, _) => NoBoxingStatelessCallKind
    case StatelessCall(_, _, _) => StatelessCallKind
    case FeedBlob(_, _) => FeedBlobKind
    case InsertRemoveForeignCallback(_, _) => InsertRemoveForeignCallbackKind
    case ReplaceDeviceTag(_, _) => ReplaceDeviceTagKind
    case BoxingTo(_, _) => BoxingToKind
    case AssignBlob(_, _) => AssignBlobKind
    case MakeReferenceBlobObject(_, _) => MakeReferenceBlobObjectKind
    case UnpackLogicalBlob(_) => UnpackKind
    case PackPhysicalBlobs(_, _, _) => PackKind
  }

  /** The kind of each instruction, in order. */
  function Kinds(instrs: seq<Instr>): seq<InstrKind> {
    seq(|instrs|, k requires 0 <= k < |instrs| => KindOf(instrs[k]))
  }

  /** One effect on the world outside the interpreter. */
  datatype Event =
    | AddAndInferOp(conf: OperatorConf, mode: InferMode)  // an op added to the current job graph
    | LogicalRun(instrs: seq<Instr>)                      // one closure's instructions, submitted together

  /** The instruction kinds of each logical run in `events`, in order; graph additions are skipped. */
  function RunShapes(events: seq<Event>): seq<seq<InstrKind>> {
    if events == [] then []
    else (if events[0].LogicalRun? then [Kinds(events[0].instrs)] else []) + RunShapes(events[1..])
  }

  lemma {:induction false} RunShapesAppend(a: seq<Event>, b: seq<Event>)
    ensures RunShapes(a + b) == RunShapes(a) + RunShapes(b)
  {
    if a == [] {
      assert a + b == b;
    } else {
      assert (a + b)[0] == a[0];
      assert (a + b)[1..] == a[1..] + b;
      RunShapesAppend(a[1..], b);
    }
  }

  /** The shapes of a sequence of events, one event at a time from the front. */
  lemma RunShapesCons(ev: Event, rest: seq<Event>)
    ensures RunShapes([ev] + rest) == (if ev.LogicalRun? then [Kinds(ev.instrs)] else []) + RunShapes(rest)
  {
    assert ([ev] + rest)[1..] == rest;
  }

  /** One more logical run adds its shape at the end. */
  lemma RunShapesSnoc(events: seq<Event>, instrs: seq<Instr>)
    ensures RunShapes(events + [LogicalRun(instrs)]) == RunShapes(events) + [Kinds(instrs)]
  {
    RunShapesAppend(events, [LogicalRun(instrs)]);
    RunShapesCons(LogicalRun(instrs), []);
    assert [LogicalRun(instrs)] + [] == [LogicalRun(instrs)];
  }

  datatype RtState = RtState(trace: seq<Event>, blobs: map<TensorId, BlobObject>)

  class Runtime {
    const svc: Services
    var trace: seq<Event>
    var blobs: map<TensorId, BlobObject>

    constructor (svc: Services, blobs: map<TensorId, BlobObject>)
      ensures this.svc == svc && this.blobs == blobs && trace == []
    {
      this.svc := svc;
      this.blobs := blobs;
      trace := [];
    }

    function State(): RtState
      reads this
    {
      RtState(trace, blobs)
    }

    /** Adds an op to the current job graph and returns its inferred attribute. */
    method AddAndInfer(conf: OperatorConf, mode: InferMode) returns (r: Result<OpAttribute>)
      modifies this`trace
      ensures trace == old(trace) + [AddAndInferOp(conf, mode)]
      ensures r == svc.addAndInferOp(conf, mode)
    {
      trace := trace + [AddAndInferOp(conf, mode)];
      r := svc.addAndInferOp(conf, mode);
    }

    /** Submits one closure's instructions and keeps what the closure wrote through the handles. */
    method Commit(instrs: seq<Instr>, newBlobs: map<TensorId, BlobObject>)
      modifies this`trace, this`blobs
      ensures trace == old(trace) + [LogicalRun(instrs)]
      ensures blobs == newBlobs
    {
      trace := trace + [LogicalRun(instrs)];
      blobs := newBlobs;
    }

    /** Submits nothing, and keeps what a closure that stopped wrote through the handles. */
    method KeepWrites(newBlobs: map<TensorId, BlobObject>)
      modifies this`blobs
      ensures blobs == newBlobs
    {
      blobs := newBlobs;
    }

    /** Submits the instructions of one build closure as one logical run. */
    method Submit(instrs: seq<Instr>)
      modifies this`trace
      ensures trace == old(trace) + [LogicalRun(instrs)]
    {
      trace := trace + [LogicalRun(instrs)];
    }
  }
}
