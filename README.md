# OneFlow op interpreters, tensor implementations and tensor name registry

This project models the layer of OneFlow's tensor execution engine that takes an op expression
and either adds it to a job graph under construction or runs it eagerly.

- **Dispatch.** `LazyInterpreter::Apply` and `EagerInterpreter::Apply` select the `Apply_`
  overload for an expression. They try a fixed, ordered list of expression classes (the
  `APPLY_IF` chains). The first class that matches wins, and no match aborts.
- **Deferred (lazy) mode.** A builtin op is configured and added to the current job with the
  registered names of its inputs. Each output is then registered in the global `TensorNameScope`
  under `"<op name>/<output binding name>"`.
- **Eager mode.** Each builtin op is added to the job, then run at once as logical runs of
  instructions:
  - A user op is one stateless call.
  - A variable is initialised, or loaded from a snapshot (path input, feed, load). Its value is
    then assigned to the output's blob.
  - A mirrored cast makes the output a reference to the input's blob.
  - Distribute split and clone unpack the input blob into `out_0`, `out_1`, ….
  - Distribute concat and add box `in_0` … `in_<n-1>` and pack them into `out`.
- **Tensor implementations.** `EagerMirroredTensorImpl` and `EagerConsistentTensorImpl` re-derive
  shape, data type and placement from a bound blob object. For mirrored tensors, the device and
  the placement are derived from each other.
- **`OpBuilder`.** It names the operation it builds.

Collaborators are uninterpreted functions: the inference context, `ConstructAndInferOp`, the
boxing utility, the instruction-builder primitives, symbol and scope lookup, and the snapshot
manager. They are fields of `Runtime.Services`. The engine's world is a `Runtime.RtState`, which
holds:

- a trace of the ops added to the graph and the logical runs submitted, in order;
- the blob object each eager tensor's handle points to. A tensor missing from that map has a
  null handle.

Every eager overload is a method of `EagerInterpreter.EagerInterpreter`, proved equal to a
specification function of the old state. The lemmas about those functions state what the
interpreter promises:

- which runs it submits, in order, and their instructions;
- which handles it writes;
- when it fails, and which error it fails with.

How a call ends is `Base.Error`:

- `Fatal` is a process abort: `CHECK`, `LOG(FATAL)`, a protobuf map `at` on a missing key, or a
  null dereference.
- `Thrown` is an exception: `GetOrThrow` on a failed `Maybe`, or a standard-library `at` on a
  missing key. `Base.OrThrow` turns whatever error a collaborator returns into `Thrown`, as
  `GetOrThrow` and `GetPtrOrThrow` do.

An arity mismatch aborts with `CHECK_EQ`, and the model follows the code. In
`*((*m)["out"]) = value.GetOrThrow()` the model evaluates the right side first, as C++17 does,
so a failed reference or pack ends the call before the write.

## Model

| member | source | states |
|---|---|---|
| OpExpr.FirstMatch | oneflow/core/framework/op_interpreter.cpp:59-63 | the index found is the first class in the list the expression belongs to; none is found exactly when it belongs to no class in the list |
| OpExpr.LazyDispatch | oneflow/core/framework/op_interpreter.cpp:65-70 | the lazy interpreter selects the function overload for a function expression, the builtin overload for any builtin expression, and nothing otherwise |
| OpExpr.EagerIndex | oneflow/core/framework/op_interpreter.cpp:111-118 | every builtin kind the eager interpreter handles has a position among the first eight classes of its list |
| OpExpr.EagerDispatch | oneflow/core/framework/op_interpreter.cpp:111-123 | the eager interpreter selects the overload of the expression's own builtin kind, or the function overload last; any other expression is matched by no class |
| LazyInterpreter.LazyApplySpec | oneflow/core/framework/op_interpreter.cpp:56-71 | the lazy `Apply`: the overload of the first class in the lazy order, or an abort with no graph event; its promises are stated by `LazyApplyCases` |
| LazyInterpreter.LazyApplyCases | oneflow/core/framework/op_interpreter.cpp:56-71 | a function expression changes nothing; a builtin expression runs the builtin overload; any other expression aborts and adds nothing to the graph |
| LazyInterpreter.LazyInterpreter.Apply | oneflow/core/framework/op_interpreter.cpp:56-71 | resets the scratch state, then its outcome, graph events and registry are those of the lazy dispatch specification |
| Interpreter.ConfigureOpConf | oneflow/core/framework/op_interpreter.cpp:33-42 | fails exactly when the scope's symbol id fails, and then throws; otherwise it keeps the op name, sets the scope symbol id, takes the device tag from the scope only when the configuration has none, and replaces exactly the given inputs' logical blob names |
| Base.OrThrow | oneflow/core/framework/op_interpreter.cpp:38 | a conversion keeps a success with its value and turns any failure into an exception with the same reason |
| Interpreter.AddOpEffect | oneflow/core/framework/op_interpreter.cpp:30-52 | adds at most one op to the graph, and one exactly when configuring succeeds and an inference context exists; it uses mirrored inference exactly when the mirrored strategy is enabled, and returns the inferred attribute; every error it ends with is thrown |
| Interpreter.AddOpAndInferOpAttribute | oneflow/core/framework/op_interpreter.cpp:30-52 | returns the result of the specification above and appends exactly its events to the trace |
| LazyInterpreter.NamesOf | oneflow/core/framework/op_interpreter.cpp:77-80 | one name per input, in order, each the registry's name for that tensor or the default name |
| LazyInterpreter.LazyInterpreter.CollectInputNames | oneflow/core/framework/op_interpreter.cpp:76-80 | the loop builds the map that assigns, in order, each input binding name to its input's registered name |
| Maps.AssignedKeys | oneflow/core/framework/op_interpreter.cpp:77-80 | a map filled by assignment holds exactly the keys it was given |
| Maps.AssignedAt | oneflow/core/framework/op_interpreter.cpp:79 | under assignment a key holds the value of its last occurrence |
| Maps.AssignedFrom | oneflow/core/framework/op_interpreter.cpp:79 | under assignment every value held is the value of some occurrence of its key |
| Maps.AssignedSnoc | oneflow/core/framework/op_interpreter.cpp:79 | one more key-value pair is one more map update |
| Maps.EmplacedKeys | oneflow/core/framework/op_interpreter.cpp:130-137 | a map filled by `emplace` holds exactly the keys it was given |
| Maps.EmplacedAt | oneflow/core/framework/op_interpreter.cpp:132 | under `emplace` a key holds the value of its first occurrence |
| Maps.EmplacedSnoc | oneflow/core/framework/op_interpreter.cpp:136 | one more pair is inserted only when its key is new |
| Interpreter.LogicalNameInjective | oneflow/core/framework/op_interpreter.cpp:93 | two outputs of one op with the same logical name have the same binding name |
| Interpreter.LogicalNameParts | oneflow/core/framework/op_interpreter.cpp:93 | the op name and the output binding name can be read back from a logical name |
| LazyInterpreter.LogicalNames | oneflow/core/framework/op_interpreter.cpp:93 | one logical name per output binding name, in order, each "<op name>/<binding name>" |
| LazyInterpreter.FirstMissing | oneflow/core/framework/op_interpreter.cpp:87-92 | every binding name before the returned index has an inferred blob description, and the one at that index, if any, has none |
| LazyInterpreter.FirstMissingIs | oneflow/core/framework/op_interpreter.cpp:87-92 | the index where the output loop stops is determined: it is the first binding name without a description |
| LazyInterpreter.RecordedStep | oneflow/core/framework/op_interpreter.cpp:93 | registering one more output is one more registry update |
| LazyInterpreter.RecordedNames | oneflow/core/framework/op_interpreter.cpp:87-94 | after registration, each output tensor not repeated later is registered under the logical name of its own binding name; every other tensor keeps its registration, or lack of one |
| LazyInterpreter.LazyInterpreter.RecordOutputNames | oneflow/core/framework/op_interpreter.cpp:87-94 | succeeds exactly when every output binding name has a blob description; otherwise aborts at the first that has none, after registering the outputs before it |
| LazyInterpreter.LazyBuiltinSpec | oneflow/core/framework/op_interpreter.cpp:73-95 | the lazy builtin `Apply_`: input count check, input names, one op added, output count check, then output registration up to the first missing blob description; its promises are stated by `LazyBuiltinPass`, `LazyBuiltinPassIff`, `LazyBuiltinInputArity`, `LazyBuiltinOutputArity` and `LazyBuiltinSubmitsNoRun` |
| LazyInterpreter.LazyBuiltinPass | oneflow/core/framework/op_interpreter.cpp:73-95 | a builtin call that succeeds checked both counts, added one op in the strategy's inference mode with each input binding name bound to its input's registered name, and registered each output under its logical name, leaving other tensors' names alone |
| LazyInterpreter.LazyBuiltinPassIff | oneflow/core/framework/op_interpreter.cpp:73-95 | a builtin call succeeds exactly when both counts match, inference succeeds on the inputs' registered names, and every output binding name has a logical blob description |
| LazyInterpreter.LazyBuiltinInputArity | oneflow/core/framework/op_interpreter.cpp:75 | a wrong input count aborts before inference: no graph event and no name changes |
| LazyInterpreter.LazyBuiltinOutputArity | oneflow/core/framework/op_interpreter.cpp:86 | a wrong output count fails after inference, with inference's events and no name changes; the failure is an abort exactly when inference succeeded |
| LazyInterpreter.LazyBuiltinSubmitsNoRun | oneflow/core/framework/op_interpreter.cpp:73-95 | the deferred interpreter adds at most one op and never submits a logical run |
| LazyInterpreter.LazyInterpreter.ApplyBuiltin | oneflow/core/framework/op_interpreter.cpp:73-95 | the outcome, the graph events and the registry are those of the builtin specification: the input count is checked before inference, and the output count before registration |
| Interpreter.Bn2TensorMap | oneflow/core/framework/op_interpreter.cpp:126-140 | succeeds exactly when there are no more inputs than input binding names and no more outputs than output binding names; otherwise `at` throws |
| Interpreter.Bn2TensorMapKeys | oneflow/core/framework/op_interpreter.cpp:126-140 | the map's names are exactly the input and output binding names in use |
| Interpreter.Bn2TensorMapBinds | oneflow/core/framework/op_interpreter.cpp:126-140 | with distinct binding names, each name holds the handle of the tensor at its own index |
| Interpreter.EmplaceEach | oneflow/core/framework/op_interpreter.cpp:130-137 | one loop of `MakeBn2BlobObjectMap`: it throws exactly when there are more tensors than names, and otherwise extends the map by `emplace` in order |
| Interpreter.MakeBn2BlobObjectMap | oneflow/core/framework/op_interpreter.cpp:126-140 | the two loops build exactly the binding-name map above, or throw |
| EagerInterpreter.EagerApplySpec | oneflow/core/framework/op_interpreter.cpp:102-124 | the eager `Apply`: the overload of the first class in the eager order, nothing for a function expression, an abort otherwise; its promises are stated by `EagerApplyCases` and `EagerApplyFrame` |
| EagerInterpreter.EagerApplyCases | oneflow/core/framework/op_interpreter.cpp:102-124 | each builtin kind runs its own overload; a function expression changes nothing; any other expression or builtin kind aborts with the state unchanged |
| EagerInterpreter.EagerApplyFrame | oneflow/core/framework/op_interpreter.cpp:102-124 | every eager call only appends to the trace and keeps the set of tensors with a blob; a user op or a variable changes no blob; a failed call changes no blob, except a split or clone that aborts in its binding loop, which keeps the writes made before the abort |
| EagerInterpreter.EagerInterpreter.Apply | oneflow/core/framework/op_interpreter.cpp:102-124 | resets the scratch state, then leaves the outcome and state of the eager dispatch specification |
| EagerRuns.NaiveRun | oneflow/core/framework/op_interpreter.cpp:142-151 | the closure completes exactly when the binding-name map can be built |
| EagerInterpreter.EagerInterpreter.NaiveInterpret | oneflow/core/framework/op_interpreter.cpp:142-151 | submits the single no-boxing stateless call exactly when its closure completes, and nothing otherwise |
| EagerInterpreter.AddOpSubmitsNoRun | oneflow/core/framework/op_interpreter.cpp:30-52 | adding an op submits no logical run |
| EagerInterpreter.AddOpFrame | oneflow/core/framework/op_interpreter.cpp:30-52 | adding an op appends only its graph event and changes no blob |
| EagerInterpreter.UserOpSpec | oneflow/core/framework/op_interpreter.cpp:153-159 | the user-op overload: add the op, then one naive stateless run; its promises are stated by `UserOpRuns` and `AddOpFrame` |
| EagerInterpreter.UserOpRuns | oneflow/core/framework/op_interpreter.cpp:153-159 | a user op changes no blob; it succeeds exactly when adding succeeds and the tensors fit the binding names; it then submits one run of one stateless call over the binding-name map with the scope's placement; a later failure is a thrown `at` |
| EagerInterpreter.EagerInterpreter.ApplyUserOp | oneflow/core/framework/op_interpreter.cpp:153-159 | leaves the outcome and state of the user-op specification |
| EagerRuns.StatelessRun | oneflow/core/framework/op_interpreter.cpp:199-214 | a completed closure issues one stateless call with the current scope's placement over the given input blobs, and the outputs are that call's |
| EagerInterpreter.ModelInitSpec | oneflow/core/framework/op_interpreter.cpp:228-237 | `EagerRunModelInit`: one run of the model-init op, whose "out_0" is the value; its promises are stated by `ModelInitRuns` and `MadeValueLast` |
| EagerInterpreter.ModelInitRuns | oneflow/core/framework/op_interpreter.cpp:228-237 | model init changes no blob and submits at most one run; on success it submitted one stateless call with no inputs, on the current scope's placement, and the value is that call's "out_0" |
| EagerInterpreter.EagerInterpreter.EagerRunModelInit | oneflow/core/framework/op_interpreter.cpp:228-237 | leaves the result and state of the model-init specification |
| Paths.LastSlash | oneflow/core/framework/op_interpreter.cpp:244-245 | the index found holds the last '/'; none is found exactly when there is no '/' |
| Paths.SplitThenJoin | oneflow/core/framework/op_interpreter.cpp:244-245 | a path with a '/' is its directory name, a '/' and a base name that contains no '/' |
| Paths.JoinThenSplit | oneflow/core/framework/op_interpreter.cpp:244-245 | a directory joined with a name that contains no '/' splits back into the two |
| EagerInterpreter.LoadPathShape | oneflow/core/framework/op_interpreter.cpp:244-245 | the only paths the two checks accept are "<variable name>/out", and "out" itself when the name is empty |
| EagerRuns.FeedPathRun | oneflow/core/framework/op_interpreter.cpp:216-226 | the feed closure completes exactly when the path blob "out" exists; it feeds that blob and registers its foreign callback, in that order |
| EagerInterpreter.ModelLoadSpec | oneflow/core/framework/op_interpreter.cpp:239-272 | `EagerRunModelLoad`: the two path checks, then the path-input, feed and model-load runs, in that order; its promises are stated by `ModelLoadFrame`, `ModelLoadRuns` and `LoadPathShape` |
| EagerRuns.ModelLoadRun | oneflow/core/framework/op_interpreter.cpp:256-266 | the model-load closure: the current scope, then the path blob "out" as the load op's "path" input to one stateless call; its promises are stated by `ModelLoadRuns` |
| EagerInterpreter.ModelLoadFrame | oneflow/core/framework/op_interpreter.cpp:239-272 | model load changes no blob and only appends to the trace; a path of the wrong form aborts before any run |
| EagerInterpreter.ModelLoadRuns | oneflow/core/framework/op_interpreter.cpp:239-272 | a model load that succeeds submitted three runs in order: the path-input op with no inputs; the feed of that op's "out" blob; and the model-load op with that same blob as "path". The value is the load op's "out_0" |
| EagerInterpreter.EagerInterpreter.EagerRunModelLoad | oneflow/core/framework/op_interpreter.cpp:239-272 | leaves the result and state of the model-load specification |
| EagerRuns.AssignRun | oneflow/core/framework/op_interpreter.cpp:274-288 | the assign closure aborts exactly when the target handle is null; it moves the target's placement to the CPU, boxes the value to the target's distribution on that placement, and assigns the boxed blob to the target |
| EagerInterpreter.AssignShape | oneflow/core/framework/op_interpreter.cpp:274-288 | an assignment that completes is one run of a device-tag replacement, a boxing and an assign, in that order |
| EagerInterpreter.EagerInterpreter.Assign | oneflow/core/framework/op_interpreter.cpp:274-288 | submits exactly the assign closure's instructions when it completes, and nothing otherwise |
| EagerInterpreter.InitVariableOutputBlobSpec | oneflow/core/framework/op_interpreter.cpp:290-303 | `InitVariableOutputBlob`: init when the session has no snapshot path, load otherwise, then assign; its promises are stated by `InitVariableFrame`, `MadeRuns` and `MadeValueLast` |
| EagerInterpreter.InitVariableFrame | oneflow/core/framework/op_interpreter.cpp:290-303 | initialising a variable's output changes no blob and only appends to the trace |
| EagerInterpreter.MadeValueLast | oneflow/core/framework/op_interpreter.cpp:290-303 | the value made by init or load is the "out_0" of the stateless call in the last run submitted so far |
| EagerInterpreter.MadeRuns | oneflow/core/framework/op_interpreter.cpp:295-300 | making a variable's value changes no blob and appends one init run, or the three load runs for a path naming the variable's "out" |
| EagerInterpreter.EagerInterpreter.InitVariableOutputBlob | oneflow/core/framework/op_interpreter.cpp:290-303 | leaves the outcome and state of the specification: init when the snapshot path is empty, load otherwise, then assign |
| EagerInterpreter.VariableSpec | oneflow/core/framework/op_interpreter.cpp:305-330 | the variable overload: the arity checks, the job name and session lookups, the naive run, the mirrored signature of "out", then the initialisation of the output blob; its promises are stated by `VariableOpFrame`, `VariableOpRuns` and `VariableOpAssigns` |
| EagerInterpreter.VariableOpFrame | oneflow/core/framework/op_interpreter.cpp:305-330 | a variable op changes no blob and only appends to the trace; an input, or more or fewer than one output, aborts with the state unchanged |
| EagerInterpreter.VariableOpRuns | oneflow/core/framework/op_interpreter.cpp:305-330 | a variable op that completes had no input and one output with a blob; its runs are the op's stateless call, then init (one run) or path input, feed and load (three runs), then the assign |
| EagerInterpreter.VariableOpAssigns | oneflow/core/framework/op_interpreter.cpp:296-302 | the last run assigns the "out_0" of the preceding init or load call, boxed to the output blob's distribution on its placement moved to the CPU, to the output blob |
| EagerInterpreter.EagerInterpreter.ApplyVariableOp | oneflow/core/framework/op_interpreter.cpp:305-330 | leaves the outcome and state of the variable-op specification |
| EagerRuns.Deref | oneflow/core/framework/op_interpreter.cpp:338 | dereferencing a handle succeeds exactly when it is not null, and yields its blob |
| EagerRuns.WriteThrough | oneflow/core/framework/op_interpreter.cpp:349 | writing through a name aborts exactly when the name or its handle is missing; otherwise only the blob of that name's tensor changes |
| EagerRuns.At | oneflow/core/framework/op_interpreter.cpp:236 | reading a binding-name map with `at` succeeds exactly when the name is present, yields its blob, and otherwise throws |
| EagerRuns.MirroredCastRun | oneflow/core/framework/op_interpreter.cpp:332-351 | the mirrored-cast closure; its promises are stated by `MirroredCastRunRefers` |
| EagerRuns.MirroredCastRunRefers | oneflow/core/framework/op_interpreter.cpp:332-351 | a mirrored-cast closure that completes makes one reference to the blob of "in", with the attribute inferred for "out" on that blob's placement, and writes only that reference through "out" |
| EagerRuns.BuildMirroredCastInstruction | oneflow/core/framework/op_interpreter.cpp:332-351 | returns exactly the mirrored-cast closure's run or its error |
| EagerInterpreter.MirroredCastSpec | oneflow/core/framework/op_interpreter.cpp:353-363 | both mirrored-cast overloads: add the op, then submit the closure; its promises are stated by `MirroredCastRefers` |
| EagerInterpreter.MirroredCastRefers | oneflow/core/framework/op_interpreter.cpp:353-363 | a cast that completes submits that single reference instruction as one run and updates only the handle of "out"; one that fails changes no blob and submits no run |
| EagerInterpreter.EagerInterpreter.ApplyMirroredCast | oneflow/core/framework/op_interpreter.cpp:353-363 | leaves the outcome and state of the mirrored-cast specification |
| EagerInterpreter.Committed | oneflow/core/framework/op_interpreter.cpp:356 | `LogicalRun(closure).GetOrThrow()`; its promises are stated by `CommittedEffect` and `ClosedEffect` |
| EagerInterpreter.CommittedEffect | oneflow/core/framework/op_interpreter.cpp:356 | a completed closure's run is appended and its blobs kept; a closure that stops submits no run, its error propagates, and what it wrote through the handles before stopping stays written |
| EagerInterpreter.ClosedEffect | oneflow/core/framework/op_interpreter.cpp:356 | for a closure whose only write is its last step, a failure changes nothing and its error propagates; a completed run is appended with its blobs |
| EagerInterpreter.EagerInterpreter.SubmitRun | oneflow/core/framework/op_interpreter.cpp:356 | submits a closure's run exactly when it completed; either way keeps what it wrote through the handles |
| Base.Int32 | oneflow/core/framework/op_interpreter.cpp:370 | the 64-bit id stored in an `int` is in the 32-bit range and congruent to the id modulo 2^32 |
| Base.Int32Fits | oneflow/core/framework/op_interpreter.cpp:370 | an id that fits in 32 bits is kept |
| Base.Int32Wraps | oneflow/core/framework/op_interpreter.cpp:370 | ids that differ by a multiple of 2^32 name the same symbol |
| EagerRuns.InBlobObject | oneflow/core/framework/op_interpreter.cpp:365-379 | a missing parallel signature aborts; on success the input's blob was boxed to the attribute inferred for that input on the placement whose symbol id is the signature's id narrowed to 32 bits |
| EagerRuns.OutTargets | oneflow/core/framework/op_interpreter.cpp:393-395 | succeeds exactly when every "out_<i>" has a non-null handle, and lists those tensors in order |
| EagerRuns.OutTargetsMissing | oneflow/core/framework/op_interpreter.cpp:393-395 | one output "out_<i>" with a null or missing handle, among the first n, makes the targets of the first n fail |
| EagerRuns.Reach | oneflow/core/framework/op_interpreter.cpp:393-395 | the binding loop reaches exactly the leading "out_<i>" names whose handle is non-null, and stops at the first one that is null or missing |
| EagerRuns.ReachAll | oneflow/core/framework/op_interpreter.cpp:393-395 | the loop reaches the end exactly when every name has a non-null handle |
| EagerRuns.Bound | oneflow/core/framework/op_interpreter.cpp:393-395 | the loop's result: the handles' blobs when every name has a non-null handle, else an abort for a null blob object |
| EagerRuns.WrittenOutputs | oneflow/core/framework/op_interpreter.cpp:393-395 | the writes made up to where the loop stops keep the set of tensors with a blob; each reached "out_<i>" points to physical blob i unless a later reached name holds the same tensor; other tensors are untouched |
| EagerRuns.BoundOutputs | oneflow/core/framework/op_interpreter.cpp:393-395 | binding keeps the set of tensors with a blob; the tensor of "out_<i>" points to physical blob i unless a later name holds the same tensor; other tensors are untouched |
| EagerRuns.BoundAborts | oneflow/core/framework/op_interpreter.cpp:393-395 | a loop that aborts stopped at a null or missing "out_<k>" before the last physical blob, with "out_0" to "out_<k-1>" already written and every other tensor untouched |
| EagerRuns.BindStep | oneflow/core/framework/op_interpreter.cpp:394 | each write through "out_<i>" is one more blob update |
| EagerRuns.BindUnpackedBlobObjects | oneflow/core/framework/op_interpreter.cpp:393-395 | the loop writes the physical blobs through "out_0", "out_1", … in order; at the first null handle it aborts, and the handles keep what was written before it |
| EagerRuns.SplitOrCloneRun | oneflow/core/framework/op_interpreter.cpp:381-398 | the split and clone closure; its promises are stated by `SplitOrCloneRunBinds` and `SplitOrCloneRunStops` |
| EagerRuns.SplitOrCloneRunBinds | oneflow/core/framework/op_interpreter.cpp:381-398 | a split or clone closure that completes boxes the blob of "in", unpacks the boxed blob, and binds the physical blobs to the outputs |
| EagerRuns.SplitOrCloneRunStops | oneflow/core/framework/op_interpreter.cpp:381-398 | a split or clone closure that stops before its loop changes no handle and keeps its error; one that stops in the loop aborts for a null blob object with the handles as the loop left them |
| EagerRuns.BuildSplitOrCloneInstruction | oneflow/core/framework/op_interpreter.cpp:381-398 | returns exactly the split or clone closure's result: its run, or its error with the handles as it left them |
| EagerInterpreter.SplitOrCloneSpec | oneflow/core/framework/op_interpreter.cpp:400-412 | both split and clone overloads: add the op, then submit the closure; its promises are stated by `SplitOrCloneUnpacks`, `SplitOrCloneStops`, `SplitOrCloneBindsEach` and `SplitOrCloneAbortsEach` |
| EagerInterpreter.SplitOrCloneUnpacks | oneflow/core/framework/op_interpreter.cpp:400-412 | a split or clone that completes submits boxing then unpacking as one run, with the outputs bound and the set of tensors with a blob unchanged; one that fails submits no run |
| EagerInterpreter.SplitOrCloneStops | oneflow/core/framework/op_interpreter.cpp:381-412 | a split or clone that fails keeps the set of tensors with a blob; it changes no blob when it fails before the loop, and otherwise aborted in the loop with the writes before the null handle kept |
| EagerInterpreter.EagerInterpreter.ApplySplitOrClone | oneflow/core/framework/op_interpreter.cpp:400-412 | leaves the outcome and state of the split-or-clone specification |
| Base.NatToString | oneflow/core/framework/op_interpreter.cpp:394 | the decimal text of a number is non-empty, all digits, and one digit exactly for numbers below ten |
| Base.IndexedName | oneflow/core/framework/op_interpreter.cpp:429 | a binding name "in_<i>" or "out_<i>" starts with its prefix and continues with digits only |
| Base.DigitValue | oneflow/core/framework/op_interpreter.cpp:394 | a decimal digit character stands for a number below ten |
| Base.NatToStringValue | oneflow/core/framework/op_interpreter.cpp:394 | the decimal text of a number reads back, digit by digit, as that number |
| Base.NatToStringInjective | oneflow/core/framework/op_interpreter.cpp:394 | distinct numbers have distinct decimal texts |
| Base.IndexedNameInjective | oneflow/core/framework/op_interpreter.cpp:394 | binding names with one prefix and distinct indices are distinct |
| Interpreter.SplitNamesBind | oneflow/core/framework/op_interpreter.cpp:126-140 | for an op with input "in" and outputs "out_0", "out_1", ..., the binding map sends each "out_<j>" to output j and holds no "out_<i>" beyond the outputs |
| EagerRuns.BoundEach | oneflow/core/framework/op_interpreter.cpp:393-395 | with "out_<j>" bound to the j-th of distinct tensors, binding points output i to physical blob i, never has more physical blobs than outputs, and keeps every other tensor's blob |
| EagerRuns.WrittenEach | oneflow/core/framework/op_interpreter.cpp:393-395 | with "out_<j>" bound to the j-th of distinct tensors, the loop stops at the first output with a null handle or after the last output; each output before that point holds its own physical blob and every other tensor keeps its blob |
| EagerInterpreter.SplitOrCloneBindsEach | oneflow/core/framework/op_interpreter.cpp:381-412 | a split or clone onto distinct outputs that succeeds ends with the unpacking run, and its output i then holds the i-th physical blob of that run; other tensors keep their blobs |
| EagerInterpreter.SplitOrCloneAbortsEach | oneflow/core/framework/op_interpreter.cpp:381-412 | a split or clone onto distinct outputs that aborts in its binding loop stopped at the first output with a null handle, or at a physical blob beyond the outputs; the outputs before it hold their own physical blobs and other tensors keep theirs |
| EagerRuns.GatherIn | oneflow/core/framework/op_interpreter.cpp:427-431 | gathering succeeds exactly when every input "in_<i>" can be boxed, and yields each boxed blob and its boxing instruction in index order |
| EagerRuns.GatherInFirstError | oneflow/core/framework/op_interpreter.cpp:427-431 | when gathering fails, it fails with the error of the first input that fails |
| EagerRuns.GatherInFailsAt | oneflow/core/framework/op_interpreter.cpp:427-431 | the first input that fails ends the loop with its own error |
| EagerRuns.GatherInBlobObjects | oneflow/core/framework/op_interpreter.cpp:427-431 | the loop yields exactly the gathering above, or its error |
| EagerRuns.ConcatOrAddRunPacks | oneflow/core/framework/op_interpreter.cpp:414-444 | a concat or add closure that completes boxes the blob of each "in_<i>" in order, packs the boxed blobs with the op's "out" attributes, and writes only the packed blob through "out" |
| EagerRuns.ConcatOrAddRunShape | oneflow/core/framework/op_interpreter.cpp:414-444 | its run is one boxing per input binding name, then one pack |
| EagerRuns.PackKinds | oneflow/core/framework/op_interpreter.cpp:430-441 | a sequence of boxings followed by a pack has the concat or add shape |
| EagerRuns.BuildConcatOrAddInstruction | oneflow/core/framework/op_interpreter.cpp:414-444 | returns exactly the concat or add closure's run or its error |
| EagerRuns.ConcatOrAddRun | oneflow/core/framework/op_interpreter.cpp:414-444 | the concat and add closure; its promises are stated by `ConcatOrAddRunPacks` and `ConcatOrAddRunShape` |
| EagerInterpreter.ConcatOrAddSpec | oneflow/core/framework/op_interpreter.cpp:446-458 | both concat and add overloads: add the op, look up its placement and the "out" attributes, then submit the closure; its promises are stated by `ConcatOrAddFrame` and `ConcatOrAddPacks` |
| EagerInterpreter.ConcatOrAddFrame | oneflow/core/framework/op_interpreter.cpp:414-458 | a concat or add only appends to the trace; one that fails, including a failed placement or attribute lookup before the run, changes no blob and submits no run |
| EagerInterpreter.ConcatOrAddPacks | oneflow/core/framework/op_interpreter.cpp:414-458 | a concat or add that completes looked up the op's placement and the "out" attributes, submitted one run of the boxings and the pack, and updated only the handle of "out" |
| EagerInterpreter.EagerInterpreter.ApplyConcatOrAdd | oneflow/core/framework/op_interpreter.cpp:446-458 | leaves the outcome and state of the concat-or-add specification |
| Runtime.Runtime.AddAndInfer | oneflow/core/framework/op_interpreter.cpp:44-49 | appends one graph event and returns the inference service's answer |
| Runtime.Runtime.Commit | oneflow/core/framework/op_interpreter.cpp:356 | appends one logical run and keeps the blobs its closure wrote |
| Runtime.Runtime.KeepWrites | oneflow/core/framework/op_interpreter.cpp:393-395 | the handles become the blobs a stopped closure left, and nothing else changes |
| Runtime.Runtime.Submit | oneflow/core/framework/op_interpreter.cpp:150 | appends one logical run |
| TensorImpl.EagerMirroredTensorImpl.SyncBlobObject2Attributes | oneflow/core/framework/tensor_impl.cpp:27-34 | the shape is always the blob's. A failed data-type lookup returns its error with the data type, placement and device unchanged. Otherwise the data type and placement are the blob's, and the device is derived from the placement, or that derivation's error is returned |
| TensorImpl.EagerMirroredTensorImpl.SetDevice | oneflow/core/framework/tensor_impl.cpp:36-40 | the device is set first; the placement is derived from it, or, when that fails, the old placement stays and the error is returned; on success with mappings that undo each other, device and placement agree |
| TensorImpl.EagerMirroredTensorImpl.SetParallelDesc | oneflow/core/framework/tensor_impl.cpp:42-47 | the placement is set first; the device is derived from it, or, when that fails, the old device stays and the error is returned; on success with mappings that undo each other, device and placement agree |
| TensorImpl.EagerMirroredTensorImpl.SetBlobObject | oneflow/core/framework/tensor_impl.cpp:55-59 | the blob is bound first and the attributes re-derived as above; the call succeeds exactly when every cached attribute is that of the bound blob |
| TensorImpl.EagerMirroredTensorImpl.constructor | oneflow/core/framework/tensor_impl.cpp:78-86 | keeps every argument and binds no blob |
| TensorImpl.EagerMirroredTensorImpl.WithoutStorage | oneflow/core/framework/tensor_impl.cpp:69-76 | delegates with a null storage, then makes a storage on the device's placement; it aborts exactly when that placement cannot be made |
| TensorImpl.EagerMirroredTensorImpl.SetShape | oneflow/core/framework/tensor_impl.cpp:29 | sets only the shape |
| TensorImpl.EagerMirroredTensorImpl.SetDType | oneflow/core/framework/tensor_impl.cpp:32 | sets only the data type |
| TensorImpl.EagerConsistentTensorImpl.SetParallelDesc | oneflow/core/framework/tensor_impl.cpp:49-53 | sets only the placement and always succeeds |
| TensorImpl.EagerConsistentTensorImpl.SyncBlobObject2Attributes | oneflow/core/framework/tensor_impl.cpp:27-34 | the shape is always the blob's; a failed data-type lookup returns its error with the data type and placement unchanged; otherwise both are the blob's |
| TensorImpl.EagerConsistentTensorImpl.SetBlobObject | oneflow/core/framework/tensor_impl.cpp:63-67 | binds the blob first, then re-derives the attributes; succeeds exactly when every cached attribute is that of the bound blob |
| TensorImpl.EagerConsistentTensorImpl.SetShape | oneflow/core/framework/tensor_impl.cpp:29 | sets only the shape |
| TensorImpl.EagerConsistentTensorImpl.SetDType | oneflow/core/framework/tensor_impl.cpp:32 | sets only the data type |
| OpBuilder.TensorNameScope.constructor | oneflow/core/framework/op_builder.h:36-44 | the registry starts empty, with the empty string as its default name |
| OpBuilder.TensorNameScope.Lookup | oneflow/core/framework/op_builder.h:31 | yields the recorded name of a tensor, or the default name for a tensor never recorded |
| OpBuilder.TensorNameScope.Record | oneflow/core/framework/op_builder.h:33 | the tensor's name becomes the given one, and every other tensor keeps its name |
| OpBuilder.RecordThenLookup | oneflow/core/framework/op_builder.h:31-33 | after recording a name for a tensor, a lookup of that tensor yields it |
| OpBuilder.RecordKeepsOthers | oneflow/core/framework/op_builder.h:33-44 | recording a name for one tensor leaves the lookup of every other tensor as it was |
| OpBuilder.OpBuilder.constructor | oneflow/core/framework/op_builder.h:49 | the builder owns a newly made operation |
| OpBuilder.OpBuilder.Name | oneflow/core/framework/op_builder.h:53-56 | sets the operation's name, leaves its type name alone, and returns the same builder |

## Left out

- `AutogradInterpreter::Apply` and both `FunctionOpExpr` overloads have empty bodies. They are modelled as doing nothing.
- `GetJobNameScopePrefix` returns "", and the variable name built from it is never used. Only the failure of the job-name lookup is kept.
- The model-init, path-input and model-load configuration generators return references to destroyed locals, so in C++ they have undefined behaviour. They are modelled as returning an empty configuration (`OpExpr.EmptyOpConf`).
- Closures capture locals by reference: `callback_id`, and the maps and configurations. The model takes the values those locals hold when the closure is made.
- The registry's mutex and any concurrency are not modelled. Every call is sequential.
- Protobuf and cfg conversions (`BuildOpConf`, `ToProto`, `ReplaceInputLbnInOpCustomizedConf`) are not modelled. The configuration is a value, and replacing an input's logical blob name is a map update.
- `InferOpAttribute` dumps the upstream signature of its input blobs. That is folded into the uninterpreted `constructAndInferOp`, which receives the input blobs.
- The inference context, boxing utility, instruction builder, symbol and scope lookups and snapshot manager are uninterpreted functions. Their algorithms are outside this model.
- `LogicalRun` itself is not modelled. A closure that completes is recorded as one run, and submission is taken never to fail.
- `TensorNameScope::Lookup` has no body in the header. It is modelled as a map lookup that falls back to the default name.
- `Path::basename` and `Path::dirname` are not part of this model. They are modelled as splitting at the last '/'.
- `input_num()` and `output_num()` are not part of this model. They are taken to be the numbers of indexed input and output binding names.
- After a `Fatal` error the process aborts. The state the model returns then is the one at the abort, not the state of a process that carries on.
- `EagerRuns.InBlobObject`: the boxing utility is handed the input's handle as it is. The model dereferences it first, so a null input handle is modelled as an abort; what `ForeignBoxingUtil::BoxingTo` does with a null blob object is not part of this model.
- Blob handles are not modelled as shared objects. A write through a handle updates the blob of the tensor the name holds, and two handles to one blob are not aliased.
- In the variable overload, both branches on the output's mirrored signature are commented out. Only the `at("out")` lookup is kept.
- `EagerInterpreter.LoadPathShape`: the two path checks also accept the path "out" for a variable with an empty name. The contract states that case rather than excluding it.
- `LazyInterpreter.LazyBuiltinPass`: it assumes distinct input binding names and distinct output tensors. `LazyInterpreter.RecordedNames` and `Maps.AssignedAt` state the general case, where a repeated key keeps its last write.
- The dependency-object accessors of `EagerMirroredTensorImpl` only forward to the eager blob object. They are not modelled.
- The constructors of `EagerConsistentTensorImpl`, `TensorStorage`, `Operation` and the two interpreters, and the `MirroredTensorImpl(device, …)` base constructor that `EagerMirroredTensorImpl` delegates to (tensor_impl.cpp:83), are not part of this model's source files. They are modelled as keeping their arguments; the base constructor is taken to leave the placement null.
- The error codes and messages are labels. Only their kind, `Fatal` or `Thrown`, carries meaning.
