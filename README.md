# TRTorch conversion core, modelled in Dafny

This project models the parts of TRTorch that turn a TorchScript graph and a
user's compile specification into a TensorRT network:

- **Evaluator registry.** It holds the conversion-time evaluators: registering them, selecting one for a node (unknown kinds, blacklisted output types, schema allow-lists), and running it.
- **`prim` evaluators.** These are `prim::Constant`, `prim::ListConstruct`, `prim::min`/`prim::max`, `prim::unchecked_cast`, `prim::Uninitialized` and `prim::RaiseException`.
- **Conversion context.** It derives the builder configuration from the builder settings and keeps two maps: JIT values to network tensors, and JIT values to evaluated constants.
- **Convolution/deconvolution converter.**
- **Reduce converters.** These are `mean`, `sum`, `prod`, `max` and `min`, including the whole-tensor and per-dimension axis masks.
- **Lowering passes.** `RemoveDropout` and `Conv2DToConvolution` are modelled over a small single-node subgraph rewriter.
- **C++ compile specification.** The public API's `CompileSpec` and its translation into builder settings.
- **Python front end.** The parsing of a compile-spec dictionary.

Each source file is one module:

- `Outcomes` (`outcomes.dfy`): the shared `Option`/`Result` wrappers.
- `JitIr` (`jit_ir.dfy`): the JIT values, `IValue`s, `Var`s and nodes the evaluators and converters see.
- The rest follow the source's file names.

Where the source updates state, the model is imperative:

- The registry's lookup table is a field of a class.
- The conversion context is a class.
- The graph a lowering pass rewrites is a class.
- Loops are methods with invariants.

Each method is proved equal to a specification function. The properties are proved about those functions.

Exceptions thrown through `TRTORCH_CHECK`/`TRTORCH_THROW_ERROR`, and Python `raise`/`assert`, are modelled as the `Err` branch of a `Result`.

Calls into TensorRT that create layers are parameters: an `Option<ITensor>`, where `None` is a null layer pointer. The same holds for freezing a host tensor into the network. The TensorRT version the converter is compiled against is also a parameter.

## Model

| member | source | states |
|---|---|---|
| EvaluatorRegistry.FindInVec | core/conversion/evaluators/NodeEvaluatorRegistry.cpp:20-27 | the scan answers true exactly when the operator name is in the list |
| EvaluatorRegistry.WithValidSchemas | core/conversion/evaluators/NodeEvaluatorRegistry.cpp:49-66 | a schema allow-list switches the options on, keeps the list and blacklists nothing |
| EvaluatorRegistry.Selection | core/conversion/evaluators/NodeEvaluatorRegistry.cpp:42-70 | an unknown kind selects nothing; a selected evaluator is the one registered under the node's kind; the only error is a missing schema |
| EvaluatorRegistry.RegisterAll | core/conversion/evaluators/NodeEvaluatorRegistry.cpp:31-40 | registering a list in order keeps every earlier entry; on success each new kind was absent before and is present after; the only error is a duplicate |
| EvaluatorRegistry.NodeEvaluatorRegistry.constructor | core/conversion/evaluators/NodeEvaluatorRegistry.cpp:88-95 | the registry starts with an empty lookup table |
| EvaluatorRegistry.NodeEvaluatorRegistry.RegisterEvaluator | core/conversion/evaluators/NodeEvaluatorRegistry.cpp:31-40 | an already registered kind is refused and the table is left unchanged; a new kind is stored and nothing else changes |
| EvaluatorRegistry.NodeEvaluatorRegistry.Register | core/conversion/evaluators/NodeEvaluatorRegistry.cpp:111-113 | a registration is filed under its own kind, with the same refusal of duplicates |
| EvaluatorRegistry.NodeEvaluatorRegistry.RegisterChain | core/conversion/evaluators/NodeEvaluatorRegistry.cpp:115-118 | chained registration succeeds exactly when the whole list registers in order, and the table is then the result of registering it |
| EvaluatorRegistry.RegisterAllDistinct | core/conversion/evaluators/NodeEvaluatorRegistry.cpp:31-40 | registrations with distinct, new kinds all succeed; each is found under its kind and earlier entries are kept |
| EvaluatorRegistry.RegisterAllRejectsRepeatedKind | core/conversion/evaluators/NodeEvaluatorRegistry.cpp:33-38 | two registrations of one kind in the same list make registration fail |
| EvaluatorRegistry.RegisteredKindStaysRejected | core/conversion/evaluators/NodeEvaluatorRegistry.cpp:33-38 | a kind already in the table can never be registered again |
| EvaluatorRegistry.NodeEvaluatorRegistry.FindEvaluator | core/conversion/evaluators/NodeEvaluatorRegistry.cpp:42-70 | the loop over outputs and schemas returns exactly the registry's selection for the node |
| EvaluatorRegistry.UnknownKindSelectsNothing | core/conversion/evaluators/NodeEvaluatorRegistry.cpp:44-47 | a node kind with no registration selects no evaluator |
| EvaluatorRegistry.BlacklistedOutputSelectsNothing | core/conversion/evaluators/NodeEvaluatorRegistry.cpp:49-55 | with options on, any output of a blacklisted type selects no evaluator |
| EvaluatorRegistry.SchemaFilter | core/conversion/evaluators/NodeEvaluatorRegistry.cpp:57-66 | with an allow-list: a node without a schema is an error; a schema outside the list selects nothing; a listed schema selects the registered evaluator |
| EvaluatorRegistry.SelectedIsRegistered | core/conversion/evaluators/NodeEvaluatorRegistry.cpp:42-70 | whatever is selected is the evaluator registered under the node's kind |
| EvaluatorRegistry.NodeEvaluatorRegistry.GetEvaluator | core/conversion/evaluators/NodeEvaluatorRegistry.cpp:72-77 | succeeds exactly when an evaluator is selected; "no evaluator" becomes an evaluator-not-found error |
| EvaluatorRegistry.NodeEvaluatorRegistry.EvalAtConversionTime | core/conversion/evaluators/NodeEvaluatorRegistry.cpp:79-86 | true exactly when an evaluator is selected; a missing schema still fails |
| EvaluatorRegistry.ShouldEvalAtConversionTime | core/conversion/evaluators/NodeEvaluatorRegistry.cpp:98-100 | answers true exactly when the registry selects an evaluator for the node |
| EvaluatorRegistry.EvalNode | core/conversion/evaluators/NodeEvaluatorRegistry.cpp:102-105 | fails when nothing is selected, otherwise returns what the registered evaluator returns on the node and arguments |
| PrimEvaluators.EvalConstant | core/conversion/evaluators/prim.cpp:24-30 | a function-typed output evaluates to nothing, any other output to the node's constant |
| PrimEvaluators.FirstInput | core/conversion/evaluators/prim.cpp:232-235 | the node's first input, or an error when it has none |
| PrimEvaluators.EvalUncheckedCast | core/conversion/evaluators/prim.cpp:232-235 | succeeds exactly when the first input's argument is an `IValue`, and returns it unchanged |
| PrimEvaluators.EvalUninitialized | core/conversion/evaluators/prim.cpp:236-239 | always the uninitialized value |
| PrimEvaluators.EvalRaiseException | core/conversion/evaluators/prim.cpp:240-245 | always fails, carrying the message argument when there is one |
| PrimEvaluators.CollectElements | core/conversion/evaluators/prim.cpp:40-78 | collecting the arguments succeeds exactly when every input has an argument that unwraps; the result keeps count and order |
| PrimEvaluators.ListConstruct | core/conversion/evaluators/prim.cpp:35-96 | a node without exactly one output, or whose output is not a list type, fails; a success is always one of the five list kinds |
| PrimEvaluators.CollectPrefixFailure | core/conversion/evaluators/prim.cpp:40-78 | the first argument that fails to unwrap decides the failure |
| PrimEvaluators.CollectTensorsOfValues | core/conversion/evaluators/prim.cpp:61-69 | over constant arguments, the tensor collection is the plain unwrap to tensors |
| PrimEvaluators.IntListConstruct | core/conversion/evaluators/prim.cpp:40-46 | constant ints build an `int[]` holding exactly those ints, in input order |
| PrimEvaluators.BoolListConstruct | core/conversion/evaluators/prim.cpp:54-60 | constant bools build a `bool[]` holding exactly those bools, in input order |
| PrimEvaluators.GenericListConstruct | core/conversion/evaluators/prim.cpp:70-78 | other element types build a generic list of the argument values, in order, typed by the output's element type |
| PrimEvaluators.LiveListConstruct | core/conversion/evaluators/prim.cpp:79-95 | with a live tensor among the arguments: live tensors are boxed in containers, the other arguments unwrap to tensors, and order is kept |
| PrimEvaluators.LiveListRejectsNonTensor | core/conversion/evaluators/prim.cpp:88-92 | with a live tensor among the arguments, any constant argument that is not a tensor makes the list fail |
| PrimEvaluators.FourIntConstantsFold | core/conversion/evaluators/prim.cpp:40-46 | four int constants 1, 2, 3, 4 fold into the list `[1, 2, 3, 4]` |
| PrimEvaluators.CollectLoop | core/conversion/evaluators/prim.cpp:42-45 | the push-back loop computes the collection of the arguments |
| PrimEvaluators.CollectTensorsLoop | core/conversion/evaluators/prim.cpp:63-68 | the tensor loop computes the tensor collection, and fails exactly when it fails |
| PrimEvaluators.CollectTensorsPrefixFailure | core/conversion/evaluators/prim.cpp:63-68 | a failure on a prefix of the inputs makes the whole tensor collection fail |
| PrimEvaluators.EvalListConstruct | core/conversion/evaluators/prim.cpp:35-96 | the evaluator with its loops computes the list-construct specification, and fails exactly when it fails |
| PrimEvaluators.RunningExtremum | core/conversion/evaluators/prim.cpp:99-109 | the fold is not beaten by any element, is an element of a non-empty list, and is the identity for an empty one |
| PrimEvaluators.FoldIntList | core/conversion/evaluators/prim.cpp:100-108 | the loop over the `int[]` computes the running extremum |
| PrimEvaluators.PickInt | core/conversion/evaluators/prim.cpp:111-115 | the pick is one of the two ints and neither beats it |
| PrimEvaluators.PickReal | core/conversion/evaluators/prim.cpp:116-132 | the pick is one of the two numbers, and no greater (min) or no smaller (max) than either |
| PrimEvaluators.Pair | core/conversion/evaluators/prim.cpp:111-138 | with a numeric first argument, succeeds exactly when the second is numeric; two ints give the int pick |
| PrimEvaluators.EvalExtremum | core/conversion/evaluators/prim.cpp:97-157 | any arity other than one or two is the unimplemented-case error; a success is an int or a double, and an int for the one-list form |
| PrimEvaluators.RunExtremum | core/conversion/evaluators/prim.cpp:97-157 | the evaluator with its loop computes the min/max specification |
| PrimEvaluators.MinOfIntList | core/conversion/evaluators/prim.cpp:99-109 | min of an `int[]` is a lower bound of it, one of its elements if it is non-empty, and INT64_MAX if it is empty |
| PrimEvaluators.MaxOfIntList | core/conversion/evaluators/prim.cpp:160-170 | max of an `int[]` is an upper bound of it, one of its elements if it is non-empty, and INT64_MIN if it is empty |
| PrimEvaluators.IntPair | core/conversion/evaluators/prim.cpp:111-115 | two ints give the smaller (min) and the larger (max) |
| PrimEvaluators.ArityOutsideOneOrTwoFails | core/conversion/evaluators/prim.cpp:145-148 | any other number of inputs is the unimplemented-case error |
| PrimEvaluators.FirstArgumentMustBeNumber | core/conversion/evaluators/prim.cpp:139-144 | with two inputs, a first argument that is neither int nor double is the unimplemented-type error |
| PrimEvaluators.PrimRegistrationsInstall | core/conversion/evaluators/prim.cpp:22-245 | the `prim` registrations install without a clash, with min and ListConstruct under their own kinds |
| PrimEvaluators.MinBoolOverloadSelectedButRejected | core/conversion/evaluators/prim.cpp:139-157 | the allow-listed `prim::min.bool` overload is selected, but its bool arguments are rejected by the evaluator |
| ConversionContext.Configure | core/conversion/conversionctx/ConversionCtx.cpp:35-98 | fails exactly when FP16 or INT8 is unsupported or INT8 lacks a calibrator; otherwise each builder flag is set exactly when its setting asks for it, and FP16 also accompanies non-strict INT8; the input type is half only for FP16; the calibrator is installed only for INT8; the batch size is set only when non-zero; the remaining settings are forwarded |
| ConversionContext.SetPrecision | core/conversion/conversionctx/ConversionCtx.cpp:48-70 | the precision switch computes the flags, input type and calibrator choice |
| ConversionContext.ConfigureBuilder | core/conversion/conversionctx/ConversionCtx.cpp:46-97 | the constructor's statements compute the configuration |
| ConversionContext.StrictTypesControlsInt8Fallback | core/conversion/conversionctx/ConversionCtx.cpp:54-65 | a supported INT8 build with a calibrator always succeeds; FP16 fallback is on exactly when types are not strict, and inputs are float |
| ConversionContext.ConversionCtx.constructor | core/conversion/conversionctx/ConversionCtx.cpp:35-46 | a new context has empty maps and an empty network |
| ConversionContext.NewConversionCtx | core/conversion/conversionctx/ConversionCtx.cpp:35-98 | construction fails with the configuration's error, or yields a fresh, empty context holding that configuration |
| ConversionContext.ConversionCtx.AssociateValueAndTensor | core/conversion/conversionctx/ConversionCtx.cpp:109-113 | binds the value to the tensor, names the tensor after the value, returns the tensor, and changes nothing else |
| ConversionContext.ConversionCtx.AssociateValueAndIValue | core/conversion/conversionctx/ConversionCtx.cpp:115-118 | stores the constant under the value, returns what is stored, and changes nothing else |
| ConversionContext.ConversionCtx.AddLayer | core/conversion/converters/impl/conv_deconv.cpp:38-59 | appends one layer to the network and changes nothing else |
| ConversionContext.ConversionCtx.CheckLayerAddition | core/conversion/conversionctx/ConversionCtx.cpp:127-142 | true exactly when every output of the node is bound to a tensor or to a constant |
| ConversionContext.BindingKeepsOutputsBound | core/conversion/conversionctx/ConversionCtx.cpp:109-142 | binding more values never makes a node's outputs unbound |
| ConversionContext.SingleOutputBound | core/conversion/conversionctx/ConversionCtx.cpp:127-142 | binding a single-output node's output passes the check, and that output alone decides it |
| ConvDeconv.ParseConvArgs | core/conversion/converters/impl/conv_deconv.cpp:19-31 | argument parsing succeeds exactly when each argument has its schema type, and each field is that argument |
| ConvDeconv.ZeroBias | core/conversion/converters/impl/conv_deconv.cpp:58 | the zero bias has the weight's first dimension; an empty weight shape is an error |
| ConvDeconv.ConvolutionBias | core/conversion/converters/impl/conv_deconv.cpp:54-60 | a tensor bias is used as given; any other constant gives the zero bias |
| ConvDeconv.DeconvolutionBias | core/conversion/converters/impl/conv_deconv.cpp:36-41 | a tensor bias is used as given; any other constant gives no bias |
| ConvDeconv.DeconvolutionLayerAsWritten | core/conversion/converters/impl/conv_deconv.cpp:34-51 | the deconvolution layer the source builds: it reads the converter's input, over the weight's input maps, with the bias, stride and padding; dilation and groups are set on TensorRT 7.1 and from 8 on, and on no other version |
| ConvDeconv.DeconvolutionLayerFor | core/conversion/converters/impl/conv_deconv.cpp:34-51 | the corrected deconvolution layer: it reads the converter's input, over the weight's input maps, with the bias, stride and padding; dilation and groups are set for TensorRT 7.1 and later, and not before |
| ConvDeconv.DeconvGuardSkipsMinorTwo | core/conversion/converters/impl/conv_deconv.cpp:47-50 | under TensorRT 7.2 the guard as written drops dilation and groups, which the corrected guard sets |
| ConvDeconv.DeconvGuardsAgreeElsewhere | core/conversion/converters/impl/conv_deconv.cpp:47 | the two guards differ exactly on 7.x with x greater than 1 |
| ConvDeconv.DeconvGuardAsWritten | core/conversion/converters/impl/conv_deconv.cpp:47 | the guard as written never holds where the corrected guard fails |
| ConvDeconv.ConvolutionLayerFor | core/conversion/converters/impl/conv_deconv.cpp:52-70 | the convolution layer over the weight's output maps, with the bias, and stride, padding (round-down mode), post padding, dilation and groups taken from the arguments |
| ConvDeconv.LayerFor | core/conversion/converters/impl/conv_deconv.cpp:19-71 | the layer the converter asks for, with the guard as written: a parse error is returned as is; a transposed convolution fails only on a bias that is not a constant and otherwise gives the as-written deconvolution layer; otherwise the convolution layer with its bias |
| ConvDeconv.ConverterDropsDilationOnMinorTwo | core/conversion/converters/impl/conv_deconv.cpp:34-51 | on TensorRT 7.2 the converter builds a deconvolution without dilation and groups, which the corrected layer carries |
| ConvDeconv.ConverterIntendedElsewhere | core/conversion/converters/impl/conv_deconv.cpp:34-51 | on every version other than 7.x with x above 1 the converter builds exactly the corrected deconvolution layer |
| ConvDeconv.TransposedSelectsLayer | core/conversion/converters/impl/conv_deconv.cpp:33-34 | a successful conversion yields a deconvolution exactly when `transposed` is true |
| ConvDeconv.ConvolutionWithoutBias | core/conversion/converters/impl/conv_deconv.cpp:57-59 | a convolution without bias gets zeros sized by the weight's first dimension |
| ConvDeconv.DeconvolutionWithoutBias | core/conversion/converters/impl/conv_deconv.cpp:39-41 | a deconvolution without bias gets no bias |
| ConvDeconv.ConvertConvolution | core/conversion/converters/impl/conv_deconv.cpp:18-79 | succeeds, returning true, exactly when the layer the converter asks for (with the guard as written) can be built and is created; then that layer is appended and the output is bound to the new tensor; on failure the network and bindings are unchanged |
| Reduce.OperationOf | core/conversion/converters/impl/reduce.cpp:12-181 | mean uses AVG, sum SUM, prod PROD, max MAX and min MIN, and no other pairing occurs |
| Reduce.LowBitsSet | core/conversion/converters/impl/reduce.cpp:20 | for n up to 32, the truncated `(1 << n) - 1` has exactly the low n bits |
| Reduce.WholeTensorMaskBits | core/conversion/converters/impl/reduce.cpp:20 | the whole-tensor mask selects exactly the axes below the tensor's rank |
| Reduce.SingleBit | core/conversion/converters/impl/reduce.cpp:41 | `1 << s` has exactly bit s |
| Reduce.OrBit | core/conversion/converters/impl/reduce.cpp:41 | a bit of an or-ed mask is set exactly when it is set in either part |
| Reduce.SelectsSnoc | core/conversion/converters/impl/reduce.cpp:40-42 | one more dimension hits a bit exactly when the earlier ones or the new one hit it |
| Reduce.DimsMaskBits | core/conversion/converters/impl/reduce.cpp:39-42 | the accumulated mask has bit k set exactly when some listed dimension shifts to k |
| Reduce.DimsMaskAppend | core/conversion/converters/impl/reduce.cpp:39-42 | the mask of two lists joined is the or of their masks |
| Reduce.DimsMaskWithout | core/conversion/converters/impl/reduce.cpp:39-42 | removing one dimension and or-ing its bit back gives the same mask |
| Reduce.DimsMaskPermutation | core/conversion/converters/impl/reduce.cpp:39-42 | the order of the dimensions does not matter |
| Reduce.MultisetWithout | core/conversion/converters/impl/reduce.cpp:39-42 | removing position j takes one copy of its element out of the multiset |
| Reduce.DimsMaskDuplicate | core/conversion/converters/impl/reduce.cpp:39-42 | repeating a dimension does not change the mask |
| Reduce.NegativeDimSelectsHighBit | core/conversion/converters/impl/reduce.cpp:41 | dimension -1 is not normalised and sets bit 31 |
| Reduce.AccumulateDimsMask | core/conversion/converters/impl/reduce.cpp:39-42 | the or-loop computes the accumulated mask |
| Reduce.Freeze | core/conversion/converters/impl/reduce.cpp:16 | a live tensor is used directly; a host tensor is frozen into a constant layer; anything else fails |
| Reduce.ReduceLayerFor | core/conversion/converters/impl/reduce.cpp:14-181 | the reduce layer reads the input with the pattern's operation; whole-tensor patterns do not keep dimensions and cover every axis below the rank; `mean.dim`/`sum.dim_IntList` succeed exactly for an `int[]` and a bool, cover exactly the listed dimensions and keep dimensions as asked; `prod.dim_int` covers the one dimension |
| Reduce.FrozenInputIsReduced | core/conversion/converters/impl/reduce.cpp:16-23 | a host-tensor input yields a constant layer, then a reduce over the frozen tensor |
| Reduce.ReduceLayersShape | core/conversion/converters/impl/reduce.cpp:14-181 | the layers a pattern adds: the freezing layers, if any, then one reduce layer with the pattern's operation over the frozen or live input; a failed freeze fails the pattern |
| Reduce.EmptyDimsReduceNothing | core/conversion/converters/impl/reduce.cpp:39-42 | an empty dimension list gives the empty mask |
| Reduce.ConvertReduce | core/conversion/converters/impl/reduce.cpp:14-181 | succeeds, returning true, exactly when the layers can be built and created; then they are appended and the output is bound; on failure the bindings are unchanged |
| SubgraphRewrite.RenameAll | core/lowering/passes/remove_dropout.cpp:19-21 | each use is redirected independently, and the length is kept |
| SubgraphRewrite.RenameNodes | core/lowering/passes/remove_dropout.cpp:19-21 | every node has its uses redirected, and the count is kept |
| SubgraphRewrite.Instantiate | core/lowering/passes/conv2d_to_convolution.cpp:15-20 | one new node per template node, with the template's kind and a fresh output id |
| SubgraphRewrite.Rewrite | core/lowering/passes/remove_dropout.cpp:19-21 | the forward rewriting never lowers the value-id counter, and leaves it alone for a rule that creates no values |
| SubgraphRewrite.RunOnGraph | core/lowering/passes/remove_dropout.cpp:19-21 | a pass keeps the number of graph outputs and never lowers the counter; a rule that creates no values leaves it alone |
| SubgraphRewrite.InstantiateElement | core/lowering/passes/conv2d_to_convolution.cpp:15-20 | each instantiated node has the template's kind, its inputs resolved against the match, the next fresh id and the template's constant |
| SubgraphRewrite.Graph.constructor | core/lowering/passes/remove_dropout.cpp:10 | the graph object holds the given graph |
| SubgraphRewrite.Graph.RunRewrite | core/lowering/passes/remove_dropout.cpp:19-21 | the in-place rewrite sets the graph's nodes, outputs and counter to those of the rewritten graph |
| SubgraphRewrite.Sweep | core/lowering/passes/remove_dropout.cpp:19-21 | the loop over the nodes computes the forward rewriting: the new nodes, the final redirections and the counter |
| SubgraphRewrite.RewriteUnfold | core/lowering/passes/remove_dropout.cpp:19-21 | the rewriting is the first node's step followed by the rewriting of the rest |
| SubgraphRewrite.RenameEmpty | core/lowering/passes/remove_dropout.cpp:19-21 | redirecting with no redirections changes nothing |
| SubgraphRewrite.RewriteWithoutMatch | core/lowering/passes/remove_dropout.cpp:19-21 | without a match the sweep only redirects, and with no redirections it is the identity |
| SubgraphRewrite.RunWithoutMatch | core/lowering/passes/remove_dropout.cpp:19-21 | a graph with no match is left unchanged |
| SubgraphRewrite.InstantiateAvoidsKind | core/lowering/passes/conv2d_to_convolution.cpp:15-20 | a replacement without a kind creates no node of that kind |
| SubgraphRewrite.RewriteLeavesNoMatch | core/lowering/passes/remove_dropout.cpp:19-21 | after the sweep no node matches the rule, nor any rule that had no match before and is not created by the replacement |
| SubgraphRewrite.RewriteKeepsRedirection | core/lowering/passes/remove_dropout.cpp:19-21 | a value no matched node defines keeps the redirection it had |
| SubgraphRewrite.SsaSuffix | core/lowering/passes/remove_dropout.cpp:19-21 | the rest of an SSA node list is in SSA form, and no later node defines the first one's inputs |
| SubgraphRewrite.RenameNodeLater | core/lowering/passes/remove_dropout.cpp:19-21 | a node whose inputs no later node defines is redirected the same way before and after the later nodes are swept |
| SubgraphRewrite.RenameSkipsOwnOutput | core/lowering/passes/remove_dropout.cpp:19-21 | in SSA form, redirecting a node's own output leaves its uses as they are |
| SubgraphRewrite.RewriteRedirectsMatches | core/lowering/passes/remove_dropout.cpp:11-21 | in SSA form every use of a matched output reads the replacement's result: a pattern input, or a fresh value numbered from the counter |
| SubgraphRewrite.Unmatched | core/lowering/passes/remove_dropout.cpp:11-17 | the nodes kept are original nodes, and none of them matches |
| SubgraphRewrite.RewriteDeletes | core/lowering/passes/remove_dropout.cpp:11-21 | with an empty replacement, in SSA form, the result is the unmatched nodes in order with their uses redirected |
| SubgraphRewrite.RewriteExpands | core/lowering/passes/conv2d_to_convolution.cpp:24-26 | in SSA form each node is replaced in place: a match by its instantiated replacement, any other node by itself with its uses redirected |
| SubgraphRewrite.DeletionKeepsSsa | core/lowering/passes/remove_dropout.cpp:19-21 | a rule with an empty replacement that returns a pattern input keeps SSA form, when the pending redirections lead to values the nodes do not define |
| SubgraphRewrite.DeletionStepTargets | core/lowering/passes/remove_dropout.cpp:15-17 | after a deletion the pending redirections still lead to values the remaining nodes do not define |
| SubgraphRewrite.KeptHeadSsa | core/lowering/passes/remove_dropout.cpp:19-21 | a kept first node, its uses redirected, followed by the rest's result is in SSA form |
| SubgraphRewrite.SsaCons | core/lowering/passes/remove_dropout.cpp:19-21 | a node that uses nothing defined at or after it, and whose outputs are not redefined, extends an SSA list |
| SubgraphRewrite.RunDeletionKeepsSsa | core/lowering/passes/remove_dropout.cpp:19-21 | a deleting pass leaves an SSA graph in SSA form, so a second pass can rely on it |
| SubgraphRewrite.Then | core/lowering/passes/remove_dropout.cpp:21-33 | the redirection of two passes in a row covers the values either redirects |
| SubgraphRewrite.RenameThen | core/lowering/passes/remove_dropout.cpp:21-33 | redirecting by the composition is redirecting by the first pass and then the second |
| SubgraphRewrite.RenameAllThen | core/lowering/passes/remove_dropout.cpp:21-33 | the same for a list of values, such as the graph outputs |
| SubgraphRewrite.RenameNodesThen | core/lowering/passes/remove_dropout.cpp:21-33 | the same for the uses of a node list |
| SubgraphRewrite.UnmatchedRenamed | core/lowering/passes/remove_dropout.cpp:21-33 | redirecting uses first or filtering matches first gives the same nodes |
| SubgraphRewrite.UnmatchedKeeps | core/lowering/passes/remove_dropout.cpp:19-21 | every node that does not match is kept |
| SubgraphRewrite.RewriteKeepsIdsBelow | core/lowering/passes/conv2d_to_convolution.cpp:24-26 | the counter only grows, and stays above every id the rewritten nodes and redirections mention |
| SubgraphRewrite.IdsBelowAppend | core/lowering/passes/conv2d_to_convolution.cpp:24-26 | a bound on two node lists bounds their concatenation |
| SubgraphRewrite.InstantiateIdsBelow | core/lowering/passes/conv2d_to_convolution.cpp:15-20 | an instance mentions only its match's inputs and its fresh ids |
| SubgraphRewrite.RunKeepsCounterFresh | core/lowering/passes/conv2d_to_convolution.cpp:24-26 | a pass keeps the id counter above every id in the graph, and never lowers it |
| RemoveDropout.DropoutRule | core/lowering/passes/remove_dropout.cpp:11-17 | the dropout pattern is well formed, creates nothing, and returns its first input |
| RemoveDropout.RemoveDropoutPass | core/lowering/passes/remove_dropout.cpp:10-36 | after both rewrites no out-of-place or in-place dropout remains, and no id is used up |
| RemoveDropout.RewriteIdCounter | core/lowering/passes/remove_dropout.cpp:19-33 | a rule that creates no values leaves the id counter as it was |
| RemoveDropout.RunRemoveDropout | core/lowering/passes/remove_dropout.cpp:10-36 | the two in-place rewrites turn the graph into the pass's result |
| RemoveDropout.DropoutRemoved | core/lowering/passes/remove_dropout.cpp:11-21 | in SSA form, the matched dropouts are deleted, the others stay in order, and every use of a dropout's output, graph outputs included, reads its input |
| RemoveDropout.BothDropoutsRemoved | core/lowering/passes/remove_dropout.cpp:10-36 | in SSA form, the result is in SSA form, its nodes are those of neither dropout kind in order with uses redirected by the two passes in turn, and every use of a dropout or `dropout_` output, graph outputs included, reads its first input |
| RemoveDropout.InPlaceDropoutRedirected | core/lowering/passes/remove_dropout.cpp:23-33 | an in-place dropout survives the first pass with its output intact, and the second pass sends that output where its redirected input went |
| RemoveDropout.RemoveDropoutIdempotent | core/lowering/passes/remove_dropout.cpp:10-36 | running the pass twice is running it once |
| RemoveDropout.NoDropoutUnchanged | core/lowering/passes/remove_dropout.cpp:10-36 | a graph without dropout is unchanged |
| RemoveDropout.OtherArityKept | core/lowering/passes/remove_dropout.cpp:12-13 | a dropout with another number of inputs does not match and is kept |
| Conv2dToConvolution.Conv2dRuleWellFormed | core/lowering/passes/conv2d_to_convolution.cpp:11-20 | every reference in the replacement is a pattern input or one of the three fresh values |
| Conv2dToConvolution.Conv2dToConvolutionPass | core/lowering/passes/conv2d_to_convolution.cpp:10-28 | no `aten::conv2d` of seven inputs remains |
| Conv2dToConvolution.RunConv2dToConvolution | core/lowering/passes/conv2d_to_convolution.cpp:24-26 | the in-place rewrite turns the graph into the pass's result |
| Conv2dToConvolution.ConvolutionInstance | core/lowering/passes/conv2d_to_convolution.cpp:15-20 | a conv2d becomes a `false` constant, a `[0, 0]` constant and `aten::_convolution`, whose output replaces the old one |
| Conv2dToConvolution.ConvolutionArgumentAt | core/lowering/passes/conv2d_to_convolution.cpp:19 | each `_convolution` argument is the pattern input, the flag constant or the padding constant in its position |
| Conv2dToConvolution.ConvolutionArguments | core/lowering/passes/conv2d_to_convolution.cpp:19 | the twelve arguments of the new `_convolution`, in order |
| Conv2dToConvolution.CountKindAppend | core/lowering/passes/conv2d_to_convolution.cpp:24-26 | counting a kind is additive over concatenation |
| Conv2dToConvolution.InstanceCounts | core/lowering/passes/conv2d_to_convolution.cpp:15-20 | an instance holds three nodes, exactly one of them `_convolution` |
| Conv2dToConvolution.RewriteCounts | core/lowering/passes/conv2d_to_convolution.cpp:24-26 | each match adds one `_convolution` and grows the node count by two |
| Conv2dToConvolution.PassCounts | core/lowering/passes/conv2d_to_convolution.cpp:10-28 | the graph gains one `_convolution` and two nodes overall per conv2d |
| Conv2dToConvolution.Conv2dToConvolutionIdempotent | core/lowering/passes/conv2d_to_convolution.cpp:10-28 | running the pass twice is running it once |
| Conv2dToConvolution.Conv2dReplacedInPlace | core/lowering/passes/conv2d_to_convolution.cpp:10-28 | in SSA form, nodes other than conv2d stay in place with only their uses redirected, and each conv2d is replaced where it stood |
| Conv2dToConvolution.ConvolutionAtShift | core/lowering/passes/conv2d_to_convolution.cpp:15-20 | the three new nodes are still found after nodes are put in front |
| Conv2dToConvolution.FirstConvolution | core/lowering/passes/conv2d_to_convolution.cpp:15-20 | in SSA form a leading conv2d becomes the two constants and `_convolution` at the front, the output it is redirected to being the `_convolution`'s and its arguments the conv2d's redirected inputs |
| Conv2dToConvolution.RewriteBuildsConvolution | core/lowering/passes/conv2d_to_convolution.cpp:15-26 | in SSA form every conv2d leaves, somewhere in the result, the two constants followed by `_convolution` reading them and the conv2d's redirected inputs, with the output the conv2d's output is redirected to |
| Conv2dToConvolution.UsesReadNewConvolution | core/lowering/passes/conv2d_to_convolution.cpp:15-26 | every use of a replaced conv2d output reads a value newly created by the pass, namely the output of the `_convolution` that reads the conv2d's redirected inputs and the two new constants; the counter stays fresh |
| CompileSpecApi.DataTypeOf | cpp/api/src/compile_spec.cpp:9-22 | half, float and char map to their data types; any other scalar type is rejected |
| CompileSpecApi.DataTypeRoundTrip | cpp/api/src/compile_spec.cpp:9-22 | each data type comes from exactly its own scalar type |
| CompileSpecApi.DeviceTypeOf | cpp/api/src/compile_spec.cpp:24-27 | only CUDA is accepted, and it is the GPU |
| CompileSpecApi.StaticRange | cpp/api/src/compile_spec.cpp:29-39 | one size gives a range whose min, opt and max are all that size |
| CompileSpecApi.ToInternalInputRange | cpp/api/src/compile_spec.cpp:65-67 | min, opt and max are handed over unchanged |
| CompileSpecApi.StaticRanges | cpp/api/src/compile_spec.cpp:53-63 | one static range per fixed size, in order |
| CompileSpecApi.InternalRanges | cpp/api/src/compile_spec.cpp:69-75 | one internal range per external range, in order |
| CompileSpecApi.ToVecInternalInputRanges | cpp/api/src/compile_spec.cpp:69-75 | the push-back loop computes the internal ranges |
| CompileSpecApi.NewCompileSpec | cpp/api/src/compile_spec.cpp:53-63 | the loop builds the static ranges; every other field keeps its default |
| CompileSpecApi.ToInternalCompileSpec | cpp/api/src/compile_spec.cpp:77-130 | ranges are kept; precision, device and capability map one to one; the calibrator is forwarded only for INT8; the other settings are copied |
| CompileSpecApi.TranslatedSpecConfigures | cpp/api/src/compile_spec.cpp:77-130 | a translated spec configures the builder exactly when the platform supports its precision and INT8 has a calibrator; a calibrator given for another precision never reaches the builder |
| CompileSpecApi.FixedSizesGiveStaticRanges | cpp/api/src/compile_spec.cpp:53-75 | a spec built from fixed sizes hands static ranges of those sizes to the core |
| PyCompileSpec.SupportedInputSizeType | py/trtorch/_compile_spec.py:7-17 | true for a size, tuple or list; `TypeError` otherwise |
| PyCompileSpec.SizesCheck | py/trtorch/_compile_spec.py:22-23 | passes exactly when every item is a dict, list, tuple or size; otherwise the guard's `TypeError` |
| PyCompileSpec.Lookup | py/trtorch/_compile_spec.py:30-32 | subscripting succeeds exactly on a present key; a missing key is `KeyError` for that key |
| PyCompileSpec.ParseItem | py/trtorch/_compile_spec.py:26-58 | each item that parses gives exactly one range |
| PyCompileSpec.ParseItems | py/trtorch/_compile_spec.py:25-60 | a successful parse gives one range per item |
| PyCompileSpec.ParseItemsPointwise | py/trtorch/_compile_spec.py:25-60 | a successful parse parsed every item on its own, in order |
| PyCompileSpec.ParseInputRangesWith | py/trtorch/_compile_spec.py:20-60 | with any key test: a failed guard is `TypeError`; a success passed the guard and is the item-by-item parse |
| PyCompileSpec.ParseInputRangesAsWritten | py/trtorch/_compile_spec.py:20-60 | as written: a success gives one range per item, and every dict in it held opt, and max whenever it held min |
| PyCompileSpec.ParseInputRanges | py/trtorch/_compile_spec.py:20-60 | the loop computes the parse as written, whose key test names min, opt and min |
| PyCompileSpec.StaticSizesParse | py/trtorch/_compile_spec.py:46-58 | lists, tuples and sizes always parse, under either key test, each to the static range of itself as a list |
| PyCompileSpec.StaticItemsParse | py/trtorch/_compile_spec.py:46-58 | the same holds item by item |
| PyCompileSpec.OptOnlyDictIsStatic | py/trtorch/_compile_spec.py:35-40 | a dict with opt and no min is the static range of opt |
| PyCompileSpec.DictWithoutOptFails | py/trtorch/_compile_spec.py:42-44 | a dict without opt raises `KeyError` |
| PyCompileSpec.KeyCheckMissesMax | py/trtorch/_compile_spec.py:28-33 | `{min, opt}` fails as written with `KeyError('max')`, while the corrected test gives the static range of opt |
| PyCompileSpec.RangeDictParse | py/trtorch/_compile_spec.py:27-44 | with the corrected test: all three keys give the range as given; opt alone gives the static range; no opt raises `KeyError` |
| PyCompileSpec.KeyTestsAgreeElsewhere | py/trtorch/_compile_spec.py:28 | both key tests agree on every dict except one with min and opt but no max |
| PyCompileSpec.ParseOpPrecision | py/trtorch/_compile_spec.py:63-80 | int8, half and float dtypes and library data types are accepted, each to its own type; anything else is `TypeError` |
| PyCompileSpec.OpPrecisionRoundTrip | py/trtorch/_compile_spec.py:63-76 | each data type comes from exactly its Torch dtype |
| PyCompileSpec.ParseDeviceType | py/trtorch/_compile_spec.py:83-100 | accepts a CUDA device, a library device type, or gpu/GPU/dla/DLA; DLA only from those; an unknown device or string is `ValueError`; any other type is `TypeError` |
| PyCompileSpec.ParseDeviceTypeAsWritten | py/trtorch/_compile_spec.py:83-100 | as written: a device, device type or string is accepted and anything else is `TypeError`; the GPU comes only from cuda, the GPU type, gpu or GPU; the DLA only from the DLA type, dla or DLA; any other device or string gives `None` |
| PyCompileSpec.DeviceParsersAgree | py/trtorch/_compile_spec.py:83-100 | the parser returns `None` as written exactly where the corrected one raises `ValueError`, and they agree on all other inputs |
| PyCompileSpec.UnknownDeviceGivesNone | py/trtorch/_compile_spec.py:83-97 | a CPU device or an unknown string yields `None` as written, not an error |
| PyCompileSpec.InputSizeItems | py/trtorch/_compile_spec.py:110 | a list, tuple or size is iterated over its items; a non-iterable is `TypeError` |
| PyCompileSpec.BoolEntry | py/trtorch/_compile_spec.py:115-129 | an absent key keeps the current value; a present key must hold a bool, which is taken; otherwise `AssertionError` |
| PyCompileSpec.IntEntry | py/trtorch/_compile_spec.py:138-152 | an absent key keeps the current value; a present key must hold an int, which is taken; otherwise `AssertionError` |
| PyCompileSpec.CapabilityEntry | py/trtorch/_compile_spec.py:134-136 | an absent capability keeps the current one; a present one must be an engine capability |
| PyCompileSpec.AssignDevice | py/trtorch/_compile_spec.py:131-132 | storing the parsed device succeeds exactly for a device, which is stored; the `None` is refused with `TypeError` |
| PyCompileSpec.CompileSpecOf | py/trtorch/_compile_spec.py:103-154 | the parse as written, with the key test min, opt, min and the device parser that returns `None`: a missing `input_shapes` is `KeyError`; a success has one range per shape item |
| PyCompileSpec.ParseCompileSpec | py/trtorch/_compile_spec.py:103-154 | the key-by-key statements compute the compile-spec parse as written |
| PyCompileSpec.ParseFlags | py/trtorch/_compile_spec.py:115-129 | the four flag statements compute the flag parse |
| PyCompileSpec.ParseCounts | py/trtorch/_compile_spec.py:138-152 | the four count statements compute the count parse |
| PyCompileSpec.FlagsFromKeys | py/trtorch/_compile_spec.py:115-129 | the flags parse exactly when every present flag key holds a bool; each flag is then its key's value or the default |
| PyCompileSpec.CountsFromKeys | py/trtorch/_compile_spec.py:138-152 | the counts parse exactly when every present count key holds an int; each count is then its key's value or the default |
| PyCompileSpec.CompileSpecFields | py/trtorch/_compile_spec.py:103-154 | a missing `input_shapes` is `KeyError`; otherwise each field of the result comes from its key's parse as written (the key test min, opt, min; the device parser that returns `None`, whose `None` fails on assignment), or keeps its default |
| PyCompileSpec.OnlyShapesKeepsDefaults | py/trtorch/_compile_spec.py:103-154 | a dict holding only static shapes parses, with one range per shape and every other field at its default |
| PyCompileSpec.MinOptShapeRaisesKeyError | py/trtorch/_compile_spec.py:26-33 | as written, a shape dict with min and opt but no max makes the whole parse raise `KeyError('max')` |
| PyCompileSpec.CpuDeviceFailsOnAssignment | py/trtorch/_compile_spec.py:83-132 | as written, a CPU device passes the parser as `None` and the parse fails on its assignment with `TypeError`, not the intended `ValueError` |

## Left out

- `prim::NumToTensor` (prim.cpp:31-34) and `prim::shape` (prim.cpp:219-231) are not modelled. Both call into Torch's tensor library (`scalar_to_tensor`, `sizes()`, `toDims`), which is not part of this model. Their registrations are therefore missing from `PrimRegistrations`.
- Doubles are modelled as Dafny `real`s. Rounding in the float `ListConstruct` branch and in mixed int/double `min`/`max` is not captured.
- CollectTensorsLoop: on failure, the contract states only that evaluation fails, not which error. Which argument decides the error is proved separately for the specification function.
- EvalListConstruct: on failure, the contract states only that evaluation fails, not which error.
- TensorRT `Weights` packing, `util::toDims`, layer names and logging are not modelled. Weights are kept as the host tensors they come from.
- ZeroBias: a weight with an empty shape makes `sizes()[0]` undefined behaviour in the source; it is modelled as an error.
- Shift counts outside [0, 32) in `1 << dims[d]` are undefined in C++. The model takes them modulo 32, as x86 does. For the whole-tensor mask, the 64-bit count is taken modulo 64.
- The conversion context's destructor and `SerializeEngine` are not modelled: they only release memory or call the engine builder.
- `TensorRTCompileSpec` (_compile_spec.py:157-224) is not modelled. It wraps the parsed spec for the TorchScript backend.
- The subgraph rewriter is modelled only for the single-node patterns these two passes register. Nested blocks, multi-use checks and general subgraph matching are not modelled. The redirection lemmas assume SSA form, which JIT graphs have.
- `core/conversion/tensorcontainer/TensorContainer.cpp` and `core/compiler.h` are not part of this model.
- The pybind conversions performed on field assignment are not modelled, with one exception. The `None` that `_parse_device_type` returns as written is assumed to be refused with `TypeError` when assigned to the enum field `device`, as a pybind11 enum property does; `AssignDevice` models that refusal.
- BoolEntry, IntEntry and CapabilityEntry: Python `assert` statements are taken as enabled. Under `python -O` they are skipped, and a value of the wrong type would be assigned without a check.
- `_parse_op_precision` tests `isinstance(precision, _types.DataTypes)` (_compile_spec.py:75), while every other use names `_types.dtype`. `_types` is not part of this model; the model assumes the name resolves to the library's data type enum. If it does not, every precision that is not a `torch.dtype` raises `AttributeError`.
- The evaluator blacklist is looked up with `std::set::find` on type pointers (NodeEvaluatorRegistry.cpp:51-52). The model compares types structurally, which agrees with the source only where equal types share one pointer.
- Where a replacement goes in the node list is a choice of this model: the new nodes take the place of the matched node (RewriteExpands, Conv2dReplacedInPlace). Torch's `SubgraphRewriter`, which is not part of this model, picks its own insertion point. The lemmas that do not depend on position (counts, redirections, no match left, idempotence) are unaffected by it.
- The constructor of `core::conversion::InputRange` is not part of this model. The ranges are handed over as given.
- The defaults of the C++ and Python `CompileSpec` objects are parameters.
- The `KeyError` at _compile_spec.py:23 is unreachable: `_supported_input_size_type` raises `TypeError` first. The model raises `TypeError`.
- `torch.Size` is a tuple, and `list(i)` of a tuple or size is modelled as its items.
- The process-wide evaluator registry is an explicit object.
- Layer creation, and freezing a host tensor into the network, are `Option` parameters.

## Findings

The operations of the model follow the code as written: `ConvDeconv.LayerFor` and `ConvDeconv.ConvertConvolution` use the guard as written, and `PyCompileSpec.CompileSpecOf` and `PyCompileSpec.ParseCompileSpec` use the key test and the device parser as written. The corrected behaviour is defined beside them, with its properties proved, and lemmas relate the two.

| source | as written | input that shows it | evidently intended | confidence | as-written member | corrected member |
|---|---|---|---|---|---|---|
| core/conversion/converters/impl/conv_deconv.cpp:47 | dilation and groups are set on a deconvolution only when `MAJOR > 7 \|\| (MAJOR == 7 && MINOR == 1)` | TensorRT 7.2: the deconvolution loses its dilation and groups | version 7.1 or later (`MINOR >= 1`) | not executed | ConvDeconv.DeconvGuardSkipsMinorTwo | ConvDeconv.DeconvolutionLayerFor |
| py/trtorch/_compile_spec.py:28 | the key test lists `"min", "opt", "min"` | `{"min": a, "opt": b}` raises `KeyError('max')` instead of falling through to the opt-only case | test `"min", "opt", "max"` | not executed | PyCompileSpec.KeyCheckMissesMax | PyCompileSpec.RangeDictParse |
| py/trtorch/_compile_spec.py:88 | the `ValueError` is constructed but not raised, so the parser returns `None` | `torch.device("cpu")`, or the string `"tpu"` at line 97 | raise `ValueError` | not executed | PyCompileSpec.UnknownDeviceGivesNone | PyCompileSpec.DeviceParsersAgree |
