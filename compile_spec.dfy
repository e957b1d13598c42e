/** The public C++ compile specification and its translation into the
    builder settings the conversion context consumes: enum conversions from
    Torch types, input ranges, and the field-by-field translation with the
    calibrator forwarded only for INT8. */
module CompileSpecApi {
  import opened Outcomes
  import opened JitIr
  import CC = ConversionContext

  // ---------------------------------------------------------------------------
  // Enumerations

  /** The Torch scalar types the data type constructor is given. */
  datatype ScalarType = ScalarHalf | ScalarFloat | ScalarChar | OtherScalar(name: string)

  /** `CompileSpec::DataType`. */
  datatype ApiDataType = kFloat | kHalf | kChar

  /** The Torch device kinds the device type constructor is given. */
  datatype TorchDevice = CUDA | OtherTorchDevice(name: string)

  /** `CompileSpec::DeviceType`. */
  datatype ApiDeviceType = kGPU | kDLA

  /** `CompileSpec::EngineCapability`. */
  datatype ApiCapability = kDEFAULT | kSAFE_GPU | kSAFE_DLA

  /** `DataType(c10::ScalarType)`: only half, float and char are accepted. */
  function DataTypeOf(t: ScalarType): (r: Result<ApiDataType, Failure>)
    ensures r.Ok? <==> !t.OtherScalar?
    ensures r.Err? ==> r.error == UnsupportedDataType
    ensures t == ScalarHalf ==> r == Ok(kHalf)
    ensures t == ScalarFloat ==> r == Ok(kFloat)
    ensures t == ScalarChar ==> r == Ok(kChar)
  {
    match t
    case ScalarHalf => Ok(kHalf)
    case ScalarFloat => Ok(kFloat)
    case ScalarChar => Ok(kChar)
    case OtherScalar(_) => Err(UnsupportedDataType)
  }

  /** The scalar type each API data type stands for. */
  function ScalarOf(d: ApiDataType): ScalarType {
    match d
    case kFloat => ScalarFloat
    case kHalf => ScalarHalf
    case kChar => ScalarChar
  }

  /** Every API data type is reached from exactly its own scalar type. */
  lemma DataTypeRoundTrip(d: ApiDataType, t: ScalarType)
    ensures DataTypeOf(ScalarOf(d)) == Ok(d)
    ensures DataTypeOf(t) == Ok(d) ==> t == ScalarOf(d)
  {
  }

  /** `DeviceType(c10::DeviceType)`: only CUDA is accepted, as the GPU. */
  function DeviceTypeOf(t: TorchDevice): (r: Result<ApiDeviceType, Failure>)
    ensures r.Ok? <==> t == CUDA
    ensures r.Ok? ==> r.value == kGPU
    ensures r.Err? ==> r.error == UnsupportedDeviceType
  {
    if t == CUDA then Ok(kGPU) else Err(UnsupportedDeviceType)
  }

  // ---------------------------------------------------------------------------
  // Input ranges

  /** `CompileSpec::InputRange`; the three-size constructor is the datatype's
      own constructor, which stores each size as given. */
  datatype InputRange = InputRange(min: seq<int64>, opt: seq<int64>, max: seq<int64>)

  /** The single-size constructors: a static shape. */
  function StaticRange(opt: seq<int64>): (r: InputRange)
    ensures r.min == opt && r.opt == opt && r.max == opt
  {
    InputRange(opt, opt, opt)
  }

  predicate IsStatic(r: InputRange) {
    r.min == r.opt == r.max
  }

  /** `core::conversion::InputRange(min, opt, max)` as handed over; its own
      constructor is not part of this model. */
  datatype InternalRange = InternalRange(min: seq<int64>, opt: seq<int64>, max: seq<int64>)

  function ToInternalInputRange(i: InputRange): (r: InternalRange)
    ensures r.min == i.min && r.opt == i.opt && r.max == i.max
  {
    InternalRange(i.min, i.opt, i.max)
  }

  /** One static range per fixed size, in order. */
  function StaticRanges(fixedSizes: seq<seq<int64>>): (r: seq<InputRange>)
    ensures |r| == |fixedSizes|
    ensures forall i :: 0 <= i < |r| ==> r[i] == StaticRange(fixedSizes[i]) && IsStatic(r[i])
    decreases |fixedSizes|
  {
    if |fixedSizes| == 0 then [] else StaticRanges(fixedSizes[..|fixedSizes| - 1]) + [StaticRange(fixedSizes[|fixedSizes| - 1])]
  }

  /** One internal range per external one, in order. */
  function InternalRanges(external: seq<InputRange>): (r: seq<InternalRange>)
    ensures |r| == |external|
    ensures forall i :: 0 <= i < |r| ==> r[i] == ToInternalInputRange(external[i])
    decreases |external|
  {
    if |external| == 0 then [] else InternalRanges(external[..|external| - 1]) + [ToInternalInputRange(external[|external| - 1])]
  }

  /** `to_vec_internal_input_ranges`: the push-back loop. */
  method ToVecInternalInputRanges(external: seq<InputRange>) returns (internal: seq<InternalRange>)
    ensures internal == InternalRanges(external)
  {
    internal := [];
    var i := 0;
    while i < |external|
      invariant 0 <= i <= |external|
      invariant internal == InternalRanges(external[..i])
    {
      assert external[..i + 1][..i] == external[..i];
      internal := internal + [ToInternalInputRange(external[i])];
      i := i + 1;
    }
    assert external[..i] == external;
  }

  // ---------------------------------------------------------------------------
  // The compile specification

  /** `trtorch::CompileSpec`; a null calibrator is `None`. */
  datatype ApiCompileSpec = ApiCompileSpec(
    inputRanges: seq<InputRange>,
    opPrecision: ApiDataType,
    refit: bool,
    debug: bool,
    strictTypes: bool,
    allowGpuFallback: bool,
    device: ApiDeviceType,
    capability: ApiCapability,
    numMinTimingIters: nat,
    numAvgTimingIters: nat,
    workspaceSize: nat,
    maxBatchSize: nat,
    ptqCalibrator: Option<CC.Calibrator>)

  /** `CompileSpec(fixed_sizes)`: one static range per size; every other field
      keeps its declared default, given here as `defaults`. */
  method NewCompileSpec(fixedSizes: seq<seq<int64>>, defaults: ApiCompileSpec) returns (spec: ApiCompileSpec)
    ensures spec.inputRanges == StaticRanges(fixedSizes)
    ensures spec == defaults.(inputRanges := spec.inputRanges)
  {
    var ranges: seq<InputRange> := [];
    var i := 0;
    while i < |fixedSizes|
      invariant 0 <= i <= |fixedSizes|
      invariant ranges == StaticRanges(fixedSizes[..i])
    {
      assert fixedSizes[..i + 1][..i] == fixedSizes[..i];
      ranges := ranges + [StaticRange(fixedSizes[i])];
      i := i + 1;
    }
    assert fixedSizes[..i] == fixedSizes;
    spec := defaults.(inputRanges := ranges);
  }

  /** `core::CompileSpec`: the internal ranges and the builder settings. */
  datatype InternalCompileSpec = InternalCompileSpec(inputRanges: seq<InternalRange>, settings: CC.BuilderSettings)

  function PrecisionOf(d: ApiDataType): CC.DataType {
    match d
    case kChar => CC.Int8
    case kHalf => CC.Half
    case kFloat => CC.Float
  }

  function DeviceOf(d: ApiDeviceType): CC.DeviceType {
    match d
    case kDLA => CC.DLA
    case kGPU => CC.GPU
  }

  function CapabilityOf(c: ApiCapability): CC.EngineCapability {
    match c
    case kSAFE_GPU => CC.SAFE_GPU
    case kSAFE_DLA => CC.SAFE_DLA
    case kDEFAULT => CC.DEFAULT
  }

  /** `to_internal_compile_spec`. */
  function ToInternalCompileSpec(e: ApiCompileSpec): (r: InternalCompileSpec)
    ensures |r.inputRanges| == |e.inputRanges|
    ensures forall i :: 0 <= i < |e.inputRanges| ==>
      r.inputRanges[i].min == e.inputRanges[i].min &&
      r.inputRanges[i].opt == e.inputRanges[i].opt &&
      r.inputRanges[i].max == e.inputRanges[i].max
    ensures r.settings.opPrecision == CC.Int8 <==> e.opPrecision == kChar
    ensures r.settings.opPrecision == CC.Half <==> e.opPrecision == kHalf
    ensures r.settings.opPrecision == CC.Float <==> e.opPrecision == kFloat
    ensures r.settings.device == CC.DLA <==> e.device == kDLA
    ensures r.settings.device == CC.GPU <==> e.device == kGPU
    ensures r.settings.capability == CC.SAFE_GPU <==> e.capability == kSAFE_GPU
    ensures r.settings.capability == CC.SAFE_DLA <==> e.capability == kSAFE_DLA
    ensures r.settings.capability == CC.DEFAULT <==> e.capability == kDEFAULT
    ensures r.settings.calibrator == (if e.opPrecision == kChar then e.ptqCalibrator else None)
    ensures r.settings.refit == e.refit && r.settings.debug == e.debug
    ensures r.settings.strictTypes == e.strictTypes && r.settings.allowGpuFallback == e.allowGpuFallback
    ensures r.settings.maxBatchSize == e.maxBatchSize
    ensures r.settings.numMinTimingIters == e.numMinTimingIters
    ensures r.settings.numAvgTimingIters == e.numAvgTimingIters
    ensures r.settings.workspaceSize == e.workspaceSize
  {
    var precision := PrecisionOf(e.opPrecision);
    InternalCompileSpec(
      InternalRanges(e.inputRanges),
      CC.BuilderSettings(
        precision, e.refit, e.debug, e.strictTypes, e.allowGpuFallback,
        CapabilityOf(e.capability), DeviceOf(e.device),
        if precision == CC.Int8 then e.ptqCalibrator else None,
        e.numMinTimingIters, e.numAvgTimingIters, e.workspaceSize, e.maxBatchSize))
  }

  /** Across the two components: a translated specification configures the
      builder exactly when the platform supports its precision and, for INT8,
      a calibrator was given; a calibrator given for another precision never
      reaches the builder. */
  lemma TranslatedSpecConfigures(e: ApiCompileSpec, p: CC.Platform)
    ensures var r := CC.Configure(ToInternalCompileSpec(e).settings, p);
      (r.Ok? <==> (e.opPrecision == kHalf ==> p.hasFastFp16) &&
                  (e.opPrecision == kChar ==> p.hasFastInt8 && e.ptqCalibrator.Some?)) &&
      (r.Ok? ==> r.value.config.int8Calibrator == (if e.opPrecision == kChar then e.ptqCalibrator else None))
  {
  }

  /** A specification built from fixed sizes hands the builder static ranges. */
  lemma FixedSizesGiveStaticRanges(fixedSizes: seq<seq<int64>>, e: ApiCompileSpec)
    requires e.inputRanges == StaticRanges(fixedSizes)
    ensures var r := ToInternalCompileSpec(e).inputRanges;
      |r| == |fixedSizes| &&
      forall i :: 0 <= i < |r| ==> r[i].min == fixedSizes[i] && r[i].opt == fixedSizes[i] && r[i].max == fixedSizes[i]
  {
    var r := ToInternalCompileSpec(e).inputRanges;
    forall i | 0 <= i < |r| ensures r[i].min == fixedSizes[i] && r[i].opt == fixedSizes[i] && r[i].max == fixedSizes[i] {
      assert e.inputRanges[i] == StaticRange(fixedSizes[i]);
    }
  }
}
