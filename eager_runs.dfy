/**
 * The build closures the eager interpreter hands to `LogicalRun`. Each reads the blob behind the
 * tensor handles and returns the instructions it issues and the blobs the handles point to after
 * it, since it writes boxed or unpacked blob objects through the handles of its outputs.
 */
module EagerRuns {
  import opened Base
  import opened Blob
  import opened Maps
  import opened OpExpr
  import opened Runtime
  import opened Interpreter

  /** The blob object behind each eager tensor's handle; a missing tensor has a null handle. */
  type Blobs = map<TensorId, BlobObject>

  /** What one closure that completes produced: its instructions, and the handles' blobs after it. */
  datatype Run = Run(instrs: seq<Instr>, blobs: Blobs)

  /**
   * How a build closure ends: it completes with its run, or it stops with an error. A closure
   * writes through the handles as it goes, so one that stops leaves the handles' blobs as they are
   * at that point.
   */
  datatype Built = Done(run: Run) | Stopped(error: Error, blobs: Blobs)

  /**
   * The end of a closure whose only write through a handle is its last step, which either
   * completes or fails before writing: a closure that stops has changed no handle.
   */
  function Closed(r: Result<Run>, blobs: Blobs): Built {
    match r
    case Ok(run) => Done(run)
    case Err(err) => Stopped(err, blobs)
  }

  /** Dereferencing the handle of `t`; a null handle aborts. */
  function Deref(blobs: Blobs, t: TensorId): (r: Result<BlobObject>)
    ensures r.Ok? <==> t in blobs
    ensures r.Ok? ==> r.value == blobs[t]
    ensures r.Err? ==> r.error.Fatal?
  {
    if t in blobs then Ok(blobs[t]) else Err(Fatal("null blob object"))
  }

  /**
   * `*(*bn2blob_object)[bn] = v`: `operator[]` inserts a null handle for a missing name, so both a
   * missing name and a null handle abort; otherwise the tensor held for `bn` now points to `v`.
   */
  function WriteThrough(bn2t: map<string, TensorId>, blobs: Blobs, bn: string, v: BlobObject): (r: Result<Blobs>)
    ensures r.Ok? <==> bn in bn2t && bn2t[bn] in blobs
    ensures r.Err? ==> r.error.Fatal?
    ensures r.Ok? ==> r.value.Keys == blobs.Keys && r.value[bn2t[bn]] == v
    ensures r.Ok? ==> forall t :: t in blobs && t != bn2t[bn] ==> r.value[t] == blobs[t]
  {
    if bn !in bn2t then Err(Fatal("null blob object"))
    else
      var t := bn2t[bn];
      var _ :- Deref(blobs, t);
      Ok(blobs[t := v])
  }

  /** `std::unordered_map::at` on a map of blob objects: a missing name throws. */
  function At(m: map<string, BlobObject>, bn: string): (r: Result<BlobObject>)
    ensures r.Ok? <==> bn in m
    ensures r.Ok? ==> r.value == m[bn]
    ensures r.Err? ==> r.error.Thrown?
  {
    if bn in m then Ok(m[bn]) else Err(Thrown("unordered_map::at"))
  }

  /** The closure of `NaiveInterpret`: one stateless call without boxing over the binding-name map. */
  function NaiveRun(e: OpExpr, attr: OpAttribute, pconf: ParallelConf, inputs: seq<TensorId>, outputs: seq<TensorId>): (r: Result<seq<Instr>>)
    requires e.BuiltinOpExpr?
    ensures r.Ok? <==> Bn2TensorMap(e, inputs, outputs).Ok?
    ensures r.Ok? ==> r.value == [NoBoxingStatelessCall(attr, pconf, Bn2TensorMap(e, inputs, outputs).value)]
  {
    var bn2t :- Bn2TensorMap(e, inputs, outputs);
    Ok([NoBoxingStatelessCall(attr, pconf, bn2t)])
  }

  /**
   * `GetInBlobObject`: the blob of input `ibn` boxed to the placement the op expects for it. The
   * parallel signature is a protobuf map, so a missing `ibn` there aborts; its 64-bit symbol id is
   * stored in an `int` before the lookup; the symbol and the
   * attribute lookups and the binding-name map's `at` throw; a null handle aborts.
   */
  function InBlobObject(svc: Services, attr: OpAttribute, ibn: string, bn2t: map<string, TensorId>, blobs: Blobs): (r: Result<(BlobObject, Instr)>)
    ensures ibn !in attr.parallelSignature ==> r.Err? && r.error.Fatal?
    ensures r.Ok? ==>
      && ibn in attr.parallelSignature && ibn in bn2t && bn2t[ibn] in blobs
      && svc.getSymbol(Int32(attr.parallelSignature[ibn])).Ok?
      && var target := svc.opArgParallelAttribute(svc.getSymbol(Int32(attr.parallelSignature[ibn])).value, attr, ibn);
         && target.Ok?
         && r.value.1 == BoxingTo(blobs[bn2t[ibn]], target.value)
         && r.value.0 == svc.boxingTo(blobs[bn2t[ibn]], target.value)
  {
    if ibn !in attr.parallelSignature then Err(Fatal("Map::at: missing parallel signature"))
    else
      var pd :- OrThrow(svc.getSymbol(Int32(attr.parallelSignature[ibn])));
      var target :- OrThrow(svc.opArgParallelAttribute(pd, attr, ibn));
      if ibn !in bn2t then Err(Thrown("unordered_map::at"))
      else
        var origin :- Deref(blobs, bn2t[ibn]);
        Ok((svc.boxingTo(origin, target), BoxingTo(origin, target)))
  }

  /**
   * The tensors held for "out_0" to "out_<n-1>", in order; a missing name or a null handle
   * aborts.
   */
  function OutTargets(bn2t: map<string, TensorId>, blobs: Blobs, n: nat): (r: Result<seq<TensorId>>)
    ensures r.Ok? <==> forall i :: 0 <= i < n ==> IndexedName("out_", i) in bn2t && bn2t[IndexedName("out_", i)] in blobs
    ensures r.Err? ==> r.error == Fatal("null blob object")
    ensures r.Ok? ==> |r.value| == n
    ensures r.Ok? ==> forall i :: 0 <= i < n ==> r.value[i] == bn2t[IndexedName("out_", i)]
  {
    if n == 0 then Ok([])
    else
      var prev :- OutTargets(bn2t, blobs, n - 1);
      var bn := IndexedName("out_", n - 1);
      if bn !in bn2t || bn2t[bn] !in blobs then Err(Fatal("null blob object"))
      else Ok(prev + [bn2t[bn]])
  }

  /**
   * How far the binding loop of the split and clone closure gets over "out_0" to "out_<n-1>": the
   * number of leading names whose handle is non-null. The loop aborts at the first null handle.
   */
  function Reach(bn2t: map<string, TensorId>, blobs: Blobs, n: nat): (k: nat)
    ensures k <= n
    ensures forall i :: 0 <= i < k ==> IndexedName("out_", i) in bn2t && bn2t[IndexedName("out_", i)] in blobs
    ensures k < n ==> !(IndexedName("out_", k) in bn2t && bn2t[IndexedName("out_", k)] in blobs)
  {
    if n == 0 then 0
    else
      var k := Reach(bn2t, blobs, n - 1);
      if k < n - 1 then k
      else if IndexedName("out_", n - 1) in bn2t && bn2t[IndexedName("out_", n - 1)] in blobs then n
      else n - 1
  }

  /** The loop reaches the end exactly when the targets of all the physical blobs exist. */
  lemma ReachAll(bn2t: map<string, TensorId>, blobs: Blobs, n: nat)
    ensures Reach(bn2t, blobs, n) == n <==> OutTargets(bn2t, blobs, n).Ok?
  {
    var k := Reach(bn2t, blobs, n);
    if k < n {
      OutTargetsMissing(bn2t, blobs, k, n);
    }
  }

  /**
   * The handles' blobs when the binding loop ends, by completing or by aborting at the first null
   * handle: physical blob `i` has been written through "out_<i>" for every `i` the loop reached.
   */
  function Written(bn2t: map<string, TensorId>, blobs: Blobs, phys: seq<BlobObject>): Blobs {
    var k := Reach(bn2t, blobs, |phys|);
    assert OutTargets(bn2t, blobs, k).Ok?;
    blobs + Assigned(OutTargets(bn2t, blobs, k).value, phys[..k])
  }

  /** The loop of the split and clone closure: physical blob `i` is written through "out_<i>". */
  function Bound(bn2t: map<string, TensorId>, blobs: Blobs, phys: seq<BlobObject>): (r: Result<Blobs>)
    ensures r.Err? ==> r.error == Fatal("null blob object")
  {
    if Reach(bn2t, blobs, |phys|) == |phys| then Ok(Written(bn2t, blobs, phys))
    else Err(Fatal("null blob object"))
  }

  /**
   * Where the binding loop ends, every handle it reached points to its physical blob, unless a
   * later reached name holds the same tensor; a tensor held by no reached name is untouched; the
   * set of tensors with a blob is the same.
   */
  lemma WrittenOutputs(bn2t: map<string, TensorId>, blobs: Blobs, phys: seq<BlobObject>)
    ensures var k := Reach(bn2t, blobs, |phys|);
      var nb := Written(bn2t, blobs, phys);
      && nb.Keys == blobs.Keys
      && (forall i :: (0 <= i < k
            && (forall j :: i < j < k ==> bn2t[IndexedName("out_", j)] != bn2t[IndexedName("out_", i)])) ==>
            nb[bn2t[IndexedName("out_", i)]] == phys[i])
      && (forall t :: t in blobs && (forall i :: 0 <= i < k ==> bn2t[IndexedName("out_", i)] != t) ==>
            nb[t] == blobs[t])
  {
    var k := Reach(bn2t, blobs, |phys|);
    var targets := OutTargets(bn2t, blobs, k).value;
    var written := phys[..k];
    var nb := Written(bn2t, blobs, phys);
    assert nb == blobs + Assigned(targets, written);
    AssignedOnto(blobs, targets, written);
    forall i | 0 <= i < k && (forall j :: i < j < k ==> bn2t[IndexedName("out_", j)] != bn2t[IndexedName("out_", i)])
      ensures nb[bn2t[IndexedName("out_", i)]] == phys[i]
    {
      assert targets[i] == bn2t[IndexedName("out_", i)] && written[i] == phys[i];
      assert forall j :: i < j < |targets| ==> targets[j] != targets[i];
    }
    forall t | t in blobs && (forall i :: 0 <= i < k ==> bn2t[IndexedName("out_", i)] != t)
      ensures nb[t] == blobs[t]
    {
      assert forall i :: 0 <= i < |targets| ==> targets[i] != t;
    }
  }

  /** Writing `written[i]` through each of `targets` in order, onto tensors that all have a blob. */
  lemma AssignedOnto(blobs: Blobs, targets: seq<TensorId>, written: seq<BlobObject>)
    requires |targets| == |written|
    requires forall i :: 0 <= i < |targets| ==> targets[i] in blobs
    ensures var nb := blobs + Assigned(targets, written);
      && nb.Keys == blobs.Keys
      && (forall i :: 0 <= i < |targets| && (forall j :: i < j < |targets| ==> targets[j] != targets[i]) ==>
            nb[targets[i]] == written[i])
      && (forall t :: t in blobs && (forall i :: 0 <= i < |targets| ==> targets[i] != t) ==> nb[t] == blobs[t])
  {
    var nb := blobs + Assigned(targets, written);
    AssignedKeys(targets, written);
    forall t | t in Assigned(targets, written) ensures t in blobs {
      var j :| 0 <= j < |targets| && targets[j] == t;
    }
    forall i | 0 <= i < |targets| && (forall j :: i < j < |targets| ==> targets[j] != targets[i])
      ensures nb[targets[i]] == written[i]
    {
      AssignedAt(targets, written, i);
    }
  }

  /**
   * Binding that completes keeps the set of tensors with a blob; the tensor of "out_<i>" points to
   * physical blob `i` unless a later "out_<j>" holds the same tensor; a tensor held by no
   * "out_<i>" is untouched.
   */
  lemma BoundOutputs(bn2t: map<string, TensorId>, blobs: Blobs, phys: seq<BlobObject>)
    requires Bound(bn2t, blobs, phys).Ok?
    ensures var nb := Bound(bn2t, blobs, phys).value;
      && nb.Keys == blobs.Keys
      && (forall i :: (0 <= i < |phys|
            && (forall j :: i < j < |phys| ==> bn2t[IndexedName("out_", j)] != bn2t[IndexedName("out_", i)])) ==>
            nb[bn2t[IndexedName("out_", i)]] == phys[i])
      && (forall t :: t in blobs && (forall i :: 0 <= i < |phys| ==> bn2t[IndexedName("out_", i)] != t) ==>
            nb[t] == blobs[t])
  {
    WrittenOutputs(bn2t, blobs, phys);
  }

  /**
   * Binding that does not complete aborts at the first null "out_<k>" handle, with physical blobs
   * 0 to k-1 already written through "out_0" to "out_<k-1>" (on distinct tensors, each holds its
   * own physical blob) and every other tensor untouched.
   */
  lemma BoundAborts(bn2t: map<string, TensorId>, blobs: Blobs, phys: seq<BlobObject>)
    requires Bound(bn2t, blobs, phys).Err?
    ensures var k := Reach(bn2t, blobs, |phys|);
      var nb := Written(bn2t, blobs, phys);
      && k < |phys|
      && !(IndexedName("out_", k) in bn2t && bn2t[IndexedName("out_", k)] in blobs)
      && nb.Keys == blobs.Keys
      && (forall i :: (0 <= i < k
            && (forall j :: i < j < k ==> bn2t[IndexedName("out_", j)] != bn2t[IndexedName("out_", i)])) ==>
            nb[bn2t[IndexedName("out_", i)]] == phys[i])
      && (forall t :: t in blobs && (forall i :: 0 <= i < k ==> bn2t[IndexedName("out_", i)] != t) ==>
            nb[t] == blobs[t])
  {
    WrittenOutputs(bn2t, blobs, phys);
  }

  /**
   * When "out_<j>" holds the j-th of distinct output tensors and no other "out_<i>" is present,
   * binding points each output tensor, in order, to its own physical blob, there are no more
   * physical blobs than outputs, and every other tensor keeps its blob.
   */
  lemma BoundEach(bn2t: map<string, TensorId>, blobs: Blobs, phys: seq<BlobObject>, outputs: seq<TensorId>)
    requires Bound(bn2t, blobs, phys).Ok?
    requires forall j :: 0 <= j < |outputs| ==> IndexedName("out_", j) in bn2t && bn2t[IndexedName("out_", j)] == outputs[j]
    requires forall i: nat :: IndexedName("out_", i) in bn2t ==> i < |outputs|
    requires forall i, j :: 0 <= i < j < |outputs| ==> outputs[i] != outputs[j]
    ensures var nb := Bound(bn2t, blobs, phys).value;
      && |phys| <= |outputs| && nb.Keys == blobs.Keys
      && (forall i :: 0 <= i < |phys| ==> outputs[i] in nb && nb[outputs[i]] == phys[i])
      && (forall t :: t in blobs && (forall i :: 0 <= i < |phys| ==> outputs[i] != t) ==> nb[t] == blobs[t])
  {
    WrittenEach(bn2t, blobs, phys, outputs);
  }

  /**
   * With "out_<j>" holding the j-th of distinct output tensors and no other "out_<i>" present, the
   * binding loop gets as far as the first output with a null handle, or the last output: each
   * output before that point holds its own physical blob, and every other tensor keeps its blob.
   */
  lemma WrittenEach(bn2t: map<string, TensorId>, blobs: Blobs, phys: seq<BlobObject>, outputs: seq<TensorId>)
    requires forall j :: 0 <= j < |outputs| ==> IndexedName("out_", j) in bn2t && bn2t[IndexedName("out_", j)] == outputs[j]
    requires forall i: nat :: IndexedName("out_", i) in bn2t ==> i < |outputs|
    requires forall i, j :: 0 <= i < j < |outputs| ==> outputs[i] != outputs[j]
    ensures var k := Reach(bn2t, blobs, |phys|);
      var nb := Written(bn2t, blobs, phys);
      && k <= |outputs| && nb.Keys == blobs.Keys
      && (k < |phys| ==> k == |outputs| || outputs[k] !in blobs)
      && (forall i :: 0 <= i < k ==> outputs[i] in nb && nb[outputs[i]] == phys[i])
      && (forall t :: t in blobs && (forall i :: 0 <= i < k ==> outputs[i] != t) ==> nb[t] == blobs[t])
  {
    var k := Reach(bn2t, blobs, |phys|);
    WrittenOutputs(bn2t, blobs, phys);
    if k > 0 {
      assert IndexedName("out_", k - 1) in bn2t;
    }
  }

  /** One more written handle is one more update of the blobs. */
  lemma BindStep(bn2t: map<string, TensorId>, blobs: Blobs, phys: seq<BlobObject>, i: nat)
    requires i < |phys| && OutTargets(bn2t, blobs, i).Ok?
    requires IndexedName("out_", i) in bn2t && bn2t[IndexedName("out_", i)] in blobs
    ensures OutTargets(bn2t, blobs, i + 1).Ok?
    ensures var t := bn2t[IndexedName("out_", i)];
      blobs + Assigned(OutTargets(bn2t, blobs, i + 1).value, phys[..i + 1])
      == (blobs + Assigned(OutTargets(bn2t, blobs, i).value, phys[..i]))[t := phys[i]]
  {
    var targets := OutTargets(bn2t, blobs, i).value;
    var t := bn2t[IndexedName("out_", i)];
    assert OutTargets(bn2t, blobs, i + 1) == Ok(targets + [t]);
    AssignedSnoc(targets, phys[..i], t, phys[i]);
    assert phys[..i + 1] == phys[..i] + [phys[i]];
  }

  /** A name missing among the first `n` makes the targets of the first `n` fail. */
  lemma OutTargetsMissing(bn2t: map<string, TensorId>, blobs: Blobs, i: nat, n: nat)
    requires i < n
    requires !(IndexedName("out_", i) in bn2t && bn2t[IndexedName("out_", i)] in blobs)
    ensures OutTargets(bn2t, blobs, n).Err?
  {
  }

  /**
   * The loop that writes each physical blob through its "out_<i>" handle; `nb` is the handles'
   * blobs where it ends, whether it completes or aborts.
   */
  method BindUnpackedBlobObjects(bn2t: map<string, TensorId>, blobs: Blobs, phys: seq<BlobObject>) returns (r: Result<Blobs>, nb: Blobs)
    ensures r == Bound(bn2t, blobs, phys)
    ensures nb == Written(bn2t, blobs, phys)
  {
    nb := blobs;
    ghost var targets: seq<TensorId> := [];
    var i := 0;
    while i < |phys|
      invariant i <= |phys|
      invariant forall j :: 0 <= j < i ==> IndexedName("out_", j) in bn2t && bn2t[IndexedName("out_", j)] in blobs
      invariant OutTargets(bn2t, blobs, i) == Ok(targets)
      invariant nb == blobs + Assigned(targets, phys[..i])
    {
      var bn := IndexedName("out_", i);
      // writing through a handle leaves it non-null, so the handles' nullness is that of `blobs`
      if bn !in bn2t || bn2t[bn] !in blobs {
        assert Reach(bn2t, blobs, |phys|) == i;
        return Err(Fatal("null blob object")), nb;
      }
      BindStep(bn2t, blobs, phys, i);
      targets := OutTargets(bn2t, blobs, i + 1).value;
      nb := nb[bn2t[bn] := phys[i]];
      i := i + 1;
    }
    assert Reach(bn2t, blobs, |phys|) == |phys|;
    assert phys[..i] == phys[..|phys|];
    r := Ok(nb);
  }

  /** The part of the split and clone closure before its loop: the binding-name map, "in" boxed, and the unpacked blobs. */
  function Unpacked(svc: Services, e: OpExpr, attr: OpAttribute, inputs: seq<TensorId>, outputs: seq<TensorId>, blobs: Blobs)
    : Result<(map<string, TensorId>, (BlobObject, Instr), seq<BlobObject>)>
    requires e.BuiltinOpExpr?
  {
    var bn2t :- Bn2TensorMap(e, inputs, outputs);
    var logical :- InBlobObject(svc, attr, "in", bn2t, blobs);
    var phys :- OrThrow(svc.unpack(logical.0));
    Ok((bn2t, logical, phys))
  }

  /**
   * The closure of the split and clone ops: box "in", unpack it, bind the physical blobs. A stop
   * before the loop leaves every handle as it was; an abort in the loop keeps the writes made.
   */
  function SplitOrCloneRun(svc: Services, e: OpExpr, attr: OpAttribute, inputs: seq<TensorId>, outputs: seq<TensorId>, blobs: Blobs): Built
    requires e.BuiltinOpExpr?
  {
    match Unpacked(svc, e, attr, inputs, outputs, blobs)
    case Err(err) => Stopped(err, blobs)
    case Ok((bn2t, logical, phys)) =>
      match Bound(bn2t, blobs, phys)
      case Ok(nb) => Done(Run([logical.1, UnpackLogicalBlob(logical.0)], nb))
      case Err(err) => Stopped(err, Written(bn2t, blobs, phys))
  }

  method BuildSplitOrCloneInstruction(svc: Services, e: OpExpr, attr: OpAttribute, inputs: seq<TensorId>, outputs: seq<TensorId>, blobs: Blobs)
    returns (b: Built)
    requires e.BuiltinOpExpr?
    ensures b == SplitOrCloneRun(svc, e, attr, inputs, outputs, blobs)
  {
    var bn2t := MakeBn2BlobObjectMap(e, inputs, outputs);
    if bn2t.Err? {
      return Stopped(bn2t.error, blobs);
    }
    var logical := InBlobObject(svc, attr, "in", bn2t.value, blobs);
    if logical.Err? {
      return Stopped(logical.error, blobs);
    }
    var phys := OrThrow(svc.unpack(logical.value.0));
    if phys.Err? {
      return Stopped(phys.error, blobs);
    }
    var bound, nb := BindUnpackedBlobObjects(bn2t.value, blobs, phys.value);
    if bound.Err? {
      return Stopped(bound.error, nb);
    }
    b := Done(Run([logical.value.1, UnpackLogicalBlob(logical.value.0)], nb));
  }

  /**
   * A split or clone run boxes the blob of "in" to the op's input placement, unpacks the boxed
   * blob, and writes the physical blobs through "out_0", "out_1", ...; the set of tensors with a
   * blob stays the same.
   */
  lemma SplitOrCloneRunBinds(svc: Services, e: OpExpr, attr: OpAttribute, inputs: seq<TensorId>, outputs: seq<TensorId>, blobs: Blobs)
    requires e.BuiltinOpExpr? && SplitOrCloneRun(svc, e, attr, inputs, outputs, blobs).Done?
    ensures var run := SplitOrCloneRun(svc, e, attr, inputs, outputs, blobs).run;
      var bn2t := Bn2TensorMap(e, inputs, outputs).value;
      && |run.instrs| == 2 && run.instrs[0].BoxingTo?
      && "in" in bn2t && bn2t["in"] in blobs && run.instrs[0].src == blobs[bn2t["in"]]
      && run.instrs[1] == UnpackLogicalBlob(svc.boxingTo(run.instrs[0].src, run.instrs[0].target))
      && svc.unpack(run.instrs[1].logical).Ok?
      && run.blobs == Bound(bn2t, blobs, svc.unpack(run.instrs[1].logical).value).value
      && run.blobs.Keys == blobs.Keys
      && Kinds(run.instrs) == [BoxingToKind, UnpackKind]
  {
    var bn2t := Bn2TensorMap(e, inputs, outputs).value;
    var logical := InBlobObject(svc, attr, "in", bn2t, blobs).value;
    var phys := svc.unpack(logical.0).value;
    SplitOrCloneRunSteps(svc, e, attr, inputs, outputs, blobs);
    var run := SplitOrCloneRun(svc, e, attr, inputs, outputs, blobs).run;
    assert run == Run([logical.1, UnpackLogicalBlob(logical.0)], Bound(bn2t, blobs, phys).value);
    assert run.blobs.Keys == blobs.Keys by {
      BoundOutputs(bn2t, blobs, phys);
    }
    assert Kinds(run.instrs) == [BoxingToKind, UnpackKind];
  }

  /** The pieces a successful split or clone run is made of. */
  lemma SplitOrCloneRunSteps(svc: Services, e: OpExpr, attr: OpAttribute, inputs: seq<TensorId>, outputs: seq<TensorId>, blobs: Blobs)
    requires e.BuiltinOpExpr? && SplitOrCloneRun(svc, e, attr, inputs, outputs, blobs).Done?
    ensures Bn2TensorMap(e, inputs, outputs).Ok?
    ensures var bn2t := Bn2TensorMap(e, inputs, outputs).value;
      var logical := InBlobObject(svc, attr, "in", bn2t, blobs);
      && logical.Ok?
      && svc.unpack(logical.value.0).Ok?
      && Bound(bn2t, blobs, svc.unpack(logical.value.0).value).Ok?
      && SplitOrCloneRun(svc, e, attr, inputs, outputs, blobs).run
         == Run([logical.value.1, UnpackLogicalBlob(logical.value.0)], Bound(bn2t, blobs, svc.unpack(logical.value.0).value).value)
  {
  }

  /**
   * A split or clone closure that stops before its loop stops with that step's error and has
   * changed no handle; one that stops in the loop aborts, with the handles as the loop left them.
   * Either way the set of tensors with a blob stays the same.
   */
  lemma SplitOrCloneRunStops(svc: Services, e: OpExpr, attr: OpAttribute, inputs: seq<TensorId>, outputs: seq<TensorId>, blobs: Blobs)
    requires e.BuiltinOpExpr? && SplitOrCloneRun(svc, e, attr, inputs, outputs, blobs).Stopped?
    ensures var b := SplitOrCloneRun(svc, e, attr, inputs, outputs, blobs);
      var u := Unpacked(svc, e, attr, inputs, outputs, blobs);
      && b.blobs.Keys == blobs.Keys
      && (u.Err? ==> b.error == u.error && b.blobs == blobs)
      && (u.Ok? ==>
            && Bound(u.value.0, blobs, u.value.2).Err?
            && b.error == Fatal("null blob object")
            && b.blobs == Written(u.value.0, blobs, u.value.2))
  {
    var u := Unpacked(svc, e, attr, inputs, outputs, blobs);
    if u.Ok? {
      WrittenOutputs(u.value.0, blobs, u.value.2);
    }
  }

  /**
   * The boxed blobs and the boxing instructions of inputs "in_0" to "in_<n-1>", in order; the
   * first input that fails decides the error.
   */
  function GatherIn(svc: Services, attr: OpAttribute, bn2t: map<string, TensorId>, blobs: Blobs, n: nat): (r: Result<(seq<BlobObject>, seq<Instr>)>)
    ensures r.Ok? <==> forall i :: 0 <= i < n ==> InBlobObject(svc, attr, IndexedName("in_", i), bn2t, blobs).Ok?
    ensures r.Ok? ==> |r.value.0| == n && |r.value.1| == n
    ensures r.Ok? ==> forall i :: 0 <= i < n ==>
      (r.value.0[i], r.value.1[i]) == InBlobObject(svc, attr, IndexedName("in_", i), bn2t, blobs).value
  {
    if n == 0 then Ok(([], []))
    else
      var prev :- GatherIn(svc, attr, bn2t, blobs, n - 1);
      var x :- InBlobObject(svc, attr, IndexedName("in_", n - 1), bn2t, blobs);
      Ok((prev.0 + [x.0], prev.1 + [x.1]))
  }

  /** Gathering fails with the error of the first input that fails. */
  lemma {:induction false} GatherInFirstError(svc: Services, attr: OpAttribute, bn2t: map<string, TensorId>, blobs: Blobs, k: nat, n: nat)
    requires k < n
    requires forall i :: 0 <= i < k ==> InBlobObject(svc, attr, IndexedName("in_", i), bn2t, blobs).Ok?
    requires InBlobObject(svc, attr, IndexedName("in_", k), bn2t, blobs).Err?
    ensures GatherIn(svc, attr, bn2t, blobs, n) == Err(InBlobObject(svc, attr, IndexedName("in_", k), bn2t, blobs).error)
  {
    if n > k + 1 {
      GatherInFirstError(svc, attr, bn2t, blobs, k, n - 1);
    } else {
      GatherInFailsAt(svc, attr, bn2t, blobs, k);
    }
  }

  /** The first failing input ends the gathering with its error. */
  lemma GatherInFailsAt(svc: Services, attr: OpAttribute, bn2t: map<string, TensorId>, blobs: Blobs, k: nat)
    requires forall i :: 0 <= i < k ==> InBlobObject(svc, attr, IndexedName("in_", i), bn2t, blobs).Ok?
    requires InBlobObject(svc, attr, IndexedName("in_", k), bn2t, blobs).Err?
    ensures GatherIn(svc, attr, bn2t, blobs, k + 1) == Err(InBlobObject(svc, attr, IndexedName("in_", k), bn2t, blobs).error)
  {
    assert GatherIn(svc, attr, bn2t, blobs, k).Ok?;
  }

  /** The loop of the concat and add closure over the input binding names. */
  method GatherInBlobObjects(svc: Services, attr: OpAttribute, bn2t: map<string, TensorId>, blobs: Blobs, n: nat)
    returns (r: Result<(seq<BlobObject>, seq<Instr>)>)
    ensures r == GatherIn(svc, attr, bn2t, blobs, n)
  {
    var objs: seq<BlobObject> := [];
    var instrs: seq<Instr> := [];
    var i := 0;
    while i < n
      invariant i <= n
      invariant GatherIn(svc, attr, bn2t, blobs, i) == Ok((objs, instrs))
    {
      var x := InBlobObject(svc, attr, IndexedName("in_", i), bn2t, blobs);
      if x.Err? {
        GatherInFirstError(svc, attr, bn2t, blobs, i, n);
        return Err(x.error);
      }
      objs := objs + [x.value.0];
      instrs := instrs + [x.value.1];
      i := i + 1;
    }
    r := Ok((objs, instrs));
  }

  /** The closure of the concat and add ops: box every input, pack them, bind "out". */
  function ConcatOrAddRun(svc: Services, e: OpExpr, attr: OpAttribute, target: OpArgParallelAttribute, blobAttr: OpArgBlobAttribute,
                          inputs: seq<TensorId>, outputs: seq<TensorId>, blobs: Blobs): Result<Run>
    requires e.BuiltinOpExpr?
  {
    var bn2t :- Bn2TensorMap(e, inputs, outputs);
    var gathered :- GatherIn(svc, attr, bn2t, blobs, |e.indexedIbns|);
    var packed :- OrThrow(svc.pack(gathered.0, target, blobAttr));
    var nb :- WriteThrough(bn2t, blobs, "out", packed);
    Ok(Run(gathered.1 + [PackPhysicalBlobs(gathered.0, target, blobAttr)], nb))
  }

  /** The instruction kinds of a concat or add run over `n` inputs: `n` boxings, then a pack. */
  predicate PackShaped(ks: seq<InstrKind>, n: nat) {
    |ks| == n + 1 && ks[n] == PackKind && forall i :: 0 <= i < n ==> ks[i] == BoxingToKind
  }

  /**
   * A concat or add run boxes the blob of each "in_<i>" in order, packs the boxed blobs into one
   * with the op's "out" attributes, and writes the packed blob through "out" and nothing else.
   */
  lemma ConcatOrAddRunPacks(svc: Services, e: OpExpr, attr: OpAttribute, target: OpArgParallelAttribute, blobAttr: OpArgBlobAttribute,
                            inputs: seq<TensorId>, outputs: seq<TensorId>, blobs: Blobs)
    requires e.BuiltinOpExpr? && ConcatOrAddRun(svc, e, attr, target, blobAttr, inputs, outputs, blobs).Ok?
    ensures var run := ConcatOrAddRun(svc, e, attr, target, blobAttr, inputs, outputs, blobs).value;
      var bn2t := Bn2TensorMap(e, inputs, outputs).value;
      var n := |e.indexedIbns|;
      && |run.instrs| == n + 1
      && (forall i :: 0 <= i < n ==>
            && run.instrs[i].BoxingTo?
            && IndexedName("in_", i) in bn2t && bn2t[IndexedName("in_", i)] in blobs
            && run.instrs[i].src == blobs[bn2t[IndexedName("in_", i)]])
      && run.instrs[n].PackPhysicalBlobs?
      && run.instrs[n].target == target && run.instrs[n].blobAttr == blobAttr
      && |run.instrs[n].physical| == n
      && (forall i :: 0 <= i < n ==> run.instrs[n].physical[i] == svc.boxingTo(run.instrs[i].src, run.instrs[i].target))
      && "out" in bn2t && bn2t["out"] in blobs
      && svc.pack(run.instrs[n].physical, target, blobAttr).Ok?
      && run.blobs == blobs[bn2t["out"] := svc.pack(run.instrs[n].physical, target, blobAttr).value]
  {
    var bn2t := Bn2TensorMap(e, inputs, outputs).value;
    var n := |e.indexedIbns|;
    var gathered := GatherIn(svc, attr, bn2t, blobs, n).value;
    var run := ConcatOrAddRun(svc, e, attr, target, blobAttr, inputs, outputs, blobs).value;
    assert run.instrs == gathered.1 + [PackPhysicalBlobs(gathered.0, target, blobAttr)];
    forall i | 0 <= i < n
      ensures run.instrs[i] == gathered.1[i]
      ensures run.instrs[n].physical[i] == svc.boxingTo(run.instrs[i].src, run.instrs[i].target)
    {
      assert (gathered.0[i], gathered.1[i]) == InBlobObject(svc, attr, IndexedName("in_", i), bn2t, blobs).value;
    }
    var packed := svc.pack(gathered.0, target, blobAttr).value;
    assert run.blobs == blobs[bn2t["out"] := packed];
  }

  lemma ConcatOrAddRunShape(svc: Services, e: OpExpr, attr: OpAttribute, target: OpArgParallelAttribute, blobAttr: OpArgBlobAttribute,
                            inputs: seq<TensorId>, outputs: seq<TensorId>, blobs: Blobs)
    requires e.BuiltinOpExpr? && ConcatOrAddRun(svc, e, attr, target, blobAttr, inputs, outputs, blobs).Ok?
    ensures PackShaped(Kinds(ConcatOrAddRun(svc, e, attr, target, blobAttr, inputs, outputs, blobs).value.instrs), |e.indexedIbns|)
  {
    var instrs := ConcatOrAddRun(svc, e, attr, target, blobAttr, inputs, outputs, blobs).value.instrs;
    var n := |e.indexedIbns|;
    assert |instrs| == n + 1 && instrs[n].PackPhysicalBlobs? && forall i :: 0 <= i < n ==> instrs[i].BoxingTo? by {
      ConcatOrAddRunPacks(svc, e, attr, target, blobAttr, inputs, outputs, blobs);
    }
    PackKinds(instrs[..n], instrs[n]);
    assert instrs == instrs[..n] + [instrs[n]];
  }

  lemma PackKinds(boxings: seq<Instr>, pack: Instr)
    requires pack.PackPhysicalBlobs? && forall i :: 0 <= i < |boxings| ==> boxings[i].BoxingTo?
    ensures PackShaped(Kinds(boxings + [pack]), |boxings|)
  {
    var all := boxings + [pack];
    var ks := Kinds(all);
    forall i | 0 <= i < |boxings| ensures ks[i] == BoxingToKind {
      assert all[i] == boxings[i];
    }
    assert all[|boxings|] == pack;
  }

  method BuildConcatOrAddInstruction(svc: Services, e: OpExpr, attr: OpAttribute, target: OpArgParallelAttribute, blobAttr: OpArgBlobAttribute,
                                     inputs: seq<TensorId>, outputs: seq<TensorId>, blobs: Blobs)
    returns (r: Result<Run>)
    requires e.BuiltinOpExpr?
    ensures r == ConcatOrAddRun(svc, e, attr, target, blobAttr, inputs, outputs, blobs)
  {
    var bn2t :- MakeBn2BlobObjectMap(e, inputs, outputs);
    var gathered :- GatherInBlobObjects(svc, attr, bn2t, blobs, |e.indexedIbns|);
    var packed :- OrThrow(svc.pack(gathered.0, target, blobAttr));
    var nb :- WriteThrough(bn2t, blobs, "out", packed);
    r := Ok(Run(gathered.1 + [PackPhysicalBlobs(gathered.0, target, blobAttr)], nb));
  }

  /**
   * The closure of both mirrored casts: the output becomes a reference to the input's blob with
   * the parallel attribute inferred for "out" on the input's placement. `operator[]` inserts a
   * null handle for a missing "in", which is then dereferenced.
   */
  function MirroredCastRun(svc: Services, e: OpExpr, attr: OpAttribute, inputs: seq<TensorId>, outputs: seq<TensorId>, blobs: Blobs): Result<Run>
    requires e.BuiltinOpExpr?
  {
    var bn2t :- Bn2TensorMap(e, inputs, outputs);
    if "in" !in bn2t then Err(Fatal("null blob object"))
    else
      var inBlob :- Deref(blobs, bn2t["in"]);
      var target :- OrThrow(svc.opArgParallelAttribute(inBlob.ParallelDescSymbol(), attr, "out"));
      var outBlob :- OrThrow(svc.makeReferenceBlobObject(inBlob, target));
      var nb :- WriteThrough(bn2t, blobs, "out", outBlob);
      Ok(Run([MakeReferenceBlobObject(inBlob, target)], nb))
  }

  /**
   * A mirrored cast run makes one reference to the blob of "in", with the parallel attribute
   * inferred for "out" on the placement of that blob, and writes it through "out".
   */
  lemma MirroredCastRunRefers(svc: Services, e: OpExpr, attr: OpAttribute, inputs: seq<TensorId>, outputs: seq<TensorId>, blobs: Blobs)
    requires e.BuiltinOpExpr? && MirroredCastRun(svc, e, attr, inputs, outputs, blobs).Ok?
    ensures var run := MirroredCastRun(svc, e, attr, inputs, outputs, blobs).value;
      var bn2t := Bn2TensorMap(e, inputs, outputs).value;
      && "in" in bn2t && bn2t["in"] in blobs && "out" in bn2t && bn2t["out"] in blobs
      && var inBlob := blobs[bn2t["in"]];
         var target := svc.opArgParallelAttribute(inBlob.ParallelDescSymbol(), attr, "out");
         && target.Ok?
         && svc.makeReferenceBlobObject(inBlob, target.value).Ok?
         && run.instrs == [MakeReferenceBlobObject(inBlob, target.value)]
         && run.blobs == blobs[bn2t["out"] := svc.makeReferenceBlobObject(inBlob, target.value).value]
  {
    var bn2t := Bn2TensorMap(e, inputs, outputs).value;
    var inBlob := blobs[bn2t["in"]];
    var target := svc.opArgParallelAttribute(inBlob.ParallelDescSymbol(), attr, "out").value;
    var outBlob := svc.makeReferenceBlobObject(inBlob, target).value;
    assert WriteThrough(bn2t, blobs, "out", outBlob).Ok?;
  }

  method BuildMirroredCastInstruction(svc: Services, e: OpExpr, attr: OpAttribute, inputs: seq<TensorId>, outputs: seq<TensorId>, blobs: Blobs)
    returns (r: Result<Run>)
    requires e.BuiltinOpExpr?
    ensures r == MirroredCastRun(svc, e, attr, inputs, outputs, blobs)
  {
    var bn2t :- MakeBn2BlobObjectMap(e, inputs, outputs);
    if "in" !in bn2t {
      return Err(Fatal("null blob object"));
    }
    var inBlob :- Deref(blobs, bn2t["in"]);
    var target :- OrThrow(svc.opArgParallelAttribute(inBlob.ParallelDescSymbol(), attr, "out"));
    var outBlob :- OrThrow(svc.makeReferenceBlobObject(inBlob, target));
    var nb :- WriteThrough(bn2t, blobs, "out", outBlob);
    r := Ok(Run([MakeReferenceBlobObject(inBlob, target)], nb));
  }

  /**
   * The closure of `BuildModelInitOrIOPathInputInstruction` (and the model-load closure): infer
   * the op in the current scope against the given input blobs, then call it statelessly; the
   * call fills the map with the op's output blobs.
   */
  function StatelessRun(svc: Services, conf: OperatorConf, ibn2blob: map<string, BlobObject>): (r: Result<(seq<Instr>, map<string, BlobObject>)>)
    ensures r.Err? ==> r.error.Thrown?
    ensures r.Ok? ==> svc.currentScope.Ok? && |r.value.0| == 1 && r.value.0[0].StatelessCall?
    ensures r.Ok? ==> r.value.0[0].parallelConf == svc.currentScope.value.deviceParallelDescSymbol.parallelConf
    ensures r.Ok? ==> r.value.0[0].bn2blob == ibn2blob
    ensures r.Ok? ==> r.value.1 == svc.statelessCall(r.value.0[0].opAttribute, r.value.0[0].parallelConf, ibn2blob)
  {
    var scope :- OrThrow(svc.currentScope);
    var id :- OrThrow(scope.symbolId);
    var attr :- OrThrow(svc.constructAndInferOp(conf.(scopeSymbolId := Some(id)), ibn2blob, scope));
    var pconf := scope.deviceParallelDescSymbol.parallelConf;
    Ok(([StatelessCall(attr, pconf, ibn2blob)], svc.statelessCall(attr, pconf, ibn2blob)))
  }

  /** The callback id the feed closure uses. */
  const FeedCallbackId := -1

  /** The closure of `BuildFeedPathInstruction`: feed the path blob and register its callback. */
  function FeedPathRun(pathBlobs: map<string, BlobObject>): (r: Result<seq<Instr>>)
    ensures r.Ok? <==> "out" in pathBlobs
    ensures r.Ok? ==> r.value == [FeedBlob(pathBlobs["out"], FeedCallbackId),
                                  InsertRemoveForeignCallback(pathBlobs["out"].objectId, FeedCallbackId)]
  {
    var blob :- At(pathBlobs, "out");
    Ok([FeedBlob(blob, FeedCallbackId), InsertRemoveForeignCallback(blob.objectId, FeedCallbackId)])
  }

  /** The model-load closure: the path blob becomes the load op's "path" input. */
  function ModelLoadRun(svc: Services, pathBlobs: map<string, BlobObject>): Result<(seq<Instr>, map<string, BlobObject>)> {
    var _ :- OrThrow(svc.currentScope);
    var blob :- At(pathBlobs, "out");
    StatelessRun(svc, EmptyOpConf, map["path" := blob])
  }

  /**
   * The closure of `Assign`: box the fresh blob to the target's distribution on the target's
   * placement moved to the CPU, then assign the boxed blob to the target.
   */
  function AssignRun(svc: Services, blobs: Blobs, output: TensorId, blob: BlobObject): (r: Result<seq<Instr>>)
    ensures r.Ok? <==> output in blobs
    ensures r.Err? ==> r.error.Fatal?
    ensures r.Ok? ==>
      var target := blobs[output];
      var consumer := OpArgParallelAttribute(
        svc.tryReplaceDeviceTag(target.ParallelDescSymbol(), "cpu"),
        target.opArgParallelAttr.sbpParallel,
        target.opArgParallelAttr.optMirroredParallel);
      r.value == [ReplaceDeviceTag(target.ParallelDescSymbol(), "cpu"),
                  BoxingTo(blob, consumer),
                  AssignBlob(target, svc.boxingTo(blob, consumer))]
  {
    var target :- Deref(blobs, output);
    var newPd := svc.tryReplaceDeviceTag(target.ParallelDescSymbol(), "cpu");
    var consumer := OpArgParallelAttribute(newPd, target.opArgParallelAttr.sbpParallel, target.opArgParallelAttr.optMirroredParallel);
    var tmp := svc.boxingTo(blob, consumer);
    Ok([ReplaceDeviceTag(target.ParallelDescSymbol(), "cpu"), BoxingTo(blob, consumer), AssignBlob(target, tmp)])
  }
}
