/** The slice of the TorchScript IR and of the converter-side value views that the
    conversion core works on.  Torch and accelerator objects are opaque handles:
    a host tensor is known by its identity and sizes, a live accelerator tensor by
    its identity and its number of dimensions. */
module JitIr {
  import opened Outcomes

  /** Bounds of C++ `int64_t`. */
  const INT64_MIN: int := -0x8000_0000_0000_0000
  const INT64_MAX: int := 0x7fff_ffff_ffff_ffff

  newtype int64 = x: int | -0x8000_0000_0000_0000 <= x < 0x8000_0000_0000_0000

  /** A qualified operator kind such as "prim::ListConstruct". */
  type Symbol = string

  /** `c10::OperatorName`: the operator name plus its overload name. */
  datatype OperatorName = OperatorName(name: string, overloadName: string)

  /** Static type tags of graph values (`c10::Type` kinds the core inspects). */
  datatype TypeTag =
    | TensorType
    | IntType
    | FloatType
    | BoolType
    | NoneType
    | StringType
    | FunctionType
    | ListType(elem: TypeTag)
    | OptionalType(elem: TypeTag)
    | OtherType(name: string)

  /** An SSA value: identity, static type and debug name. */
  datatype Value = Value(id: nat, ty: TypeTag, debugName: string)

  /** Contents of a host tensor: opaque data, or all zeros (`torch::zeros`). */
  datatype TensorData = Opaque(id: nat) | AllZeros

  /** A host-side `at::Tensor`. */
  datatype HostTensor = HostTensor(data: TensorData, sizes: seq<int64>)

  /** A live accelerator tensor (`nvinfer1::ITensor*`); `nbDims` is what
      `getDimensions().nbDims` reports for it. */
  datatype ITensor = ITensor(id: nat, nbDims: nat)

  /** A compile-time value (`torch::jit::IValue`).  Doubles are kept as reals. */
  datatype IValue =
    | INone
    | IInt(i: int64)
    | IDouble(d: real)
    | IBool(b: bool)
    | IString(s: string)
    | ITensorValue(t: HostTensor)
    | IIntList(ints: seq<int64>)
    | IDoubleList(doubles: seq<real>)
    | IBoolList(bools: seq<bool>)
    | ITensorList(tensors: seq<HostTensor>)
    | IGenericList(elemType: TypeTag, elems: seq<IValue>)
      /** A live accelerator tensor boxed in a `TensorContainer` custom-class object. */
    | ITensorContainer(held: ITensor)
    | IUninitialized

  /** One node of the graph.  `schema` is what `maybeSchema()` yields; `attr` is
      the `value` attribute of a `prim::Constant`. */
  datatype Node = Node(
    kind: Symbol,
    inputs: seq<Value>,
    outputs: seq<Value>,
    schema: Option<OperatorName>,
    attr: Option<IValue>)

  /** Every way the conversion core can fail (a thrown `trtorch::Error`,
      a c10 type error or an out-of-range lookup). */
  datatype Failure =
    | MissingArgument
    | VarIsNotIValue
    | VarIsNotITensor
    | IValueTypeMismatch(expected: TypeTag)
    | OutputTypeIsNotList
    | NodeOutputCount
    | UnimplementedEvaluatorCase
    | UnimplementedArgType
    | TorchScriptException(exception: IValue)
    | EvaluatorNotFound
    | SchemaNotRetrievable
    | DuplicateEvaluator
    | LayerCreationFailed
    | EmptyWeightShape
    | PlatformLacksFp16
    | PlatformLacksInt8
    | MissingCalibrator
    | UnsupportedDataType
    | UnsupportedDeviceType

  /** The value view handed to converters and evaluators (`Var`): a live
      accelerator tensor, a compile-time value, or nothing. */
  datatype Var = VarITensor(tensor: ITensor) | VarIValue(ivalue: IValue) | VarNone {

    /** `Var::IValue()`: only a compile-time value has one. */
    function AsIValue(): (r: Result<IValue, Failure>)
      ensures r.Ok? <==> VarIValue?
      ensures r.Ok? ==> r.value == ivalue
    {
      if VarIValue? then Ok(ivalue) else Err(VarIsNotIValue)
    }

    /** `Var::ITensor()`. */
    function AsITensor(): (r: Result<ITensor, Failure>)
      ensures r.Ok? <==> VarITensor?
    {
      if VarITensor? then Ok(tensor) else Err(VarIsNotITensor)
    }

    function UnwrapToInt(): (r: Result<int64, Failure>)
      ensures r.Ok? <==> VarIValue? && ivalue.IInt?
    {
      var v :- AsIValue();
      if v.IInt? then Ok(v.i) else Err(IValueTypeMismatch(IntType))
    }

    function UnwrapToDouble(): (r: Result<real, Failure>)
      ensures r.Ok? <==> VarIValue? && ivalue.IDouble?
    {
      var v :- AsIValue();
      if v.IDouble? then Ok(v.d) else Err(IValueTypeMismatch(FloatType))
    }

    function UnwrapToBool(): (r: Result<bool, Failure>)
      ensures r.Ok? <==> VarIValue? && ivalue.IBool?
    {
      var v :- AsIValue();
      if v.IBool? then Ok(v.b) else Err(IValueTypeMismatch(BoolType))
    }

    function UnwrapToTensor(): (r: Result<HostTensor, Failure>)
      ensures r.Ok? <==> VarIValue? && ivalue.ITensorValue?
    {
      var v :- AsIValue();
      if v.ITensorValue? then Ok(v.t) else Err(IValueTypeMismatch(TensorType))
    }

    function UnwrapToIntList(): (r: Result<seq<int64>, Failure>)
      ensures r.Ok? <==> VarIValue? && ivalue.IIntList?
    {
      var v :- AsIValue();
      if v.IIntList? then Ok(v.ints) else Err(IValueTypeMismatch(ListType(IntType)))
    }
  }

  /** The evaluator argument map (`kwargs`), keyed by graph value. */
  type Kwargs = map<Value, Var>

  /** `args.at(v)`: an absent key throws `std::out_of_range`. */
  function At(args: Kwargs, v: Value): (r: Result<Var, Failure>)
    ensures r.Ok? <==> v in args
    ensures r.Ok? ==> r.value == args[v]
  {
    if v in args then Ok(args[v]) else Err(MissingArgument)
  }

  /** `n->output()`: the node must have exactly one output. */
  function SingleOutput(n: Node): (r: Result<Value, Failure>)
    ensures r.Ok? <==> |n.outputs| == 1
    ensures r.Ok? ==> r.value == n.outputs[0]
  {
    if |n.outputs| == 1 then Ok(n.outputs[0]) else Err(NodeOutputCount)
  }
}
