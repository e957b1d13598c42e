/** The conversion context: the builder configuration derived from the user's
    settings, the network being built (as a list of emitted layer records) and
    the two provenance maps from graph values to accelerator tensors and to
    compile-time values. */
module ConversionContext {
  import opened Outcomes
  import opened JitIr

  // ---------------------------------------------------------------------------
  // Builder settings and configuration

  /** `nvinfer1::DataType`. */
  datatype DataType = Float | Half | Int8 | Int32 | Bool

  /** `nvinfer1::DeviceType`. */
  datatype DeviceType = GPU | DLA

  /** `nvinfer1::EngineCapability`. */
  datatype EngineCapability = DEFAULT | SAFE_GPU | SAFE_DLA

  /** The `nvinfer1::BuilderFlag`s the context sets. */
  datatype BuilderFlag = FP16 | INT8 | REFIT | DEBUG | STRICT_TYPES | GPU_FALLBACK

  /** An INT8 calibrator object, known by identity. */
  datatype Calibrator = Calibrator(id: nat)

  /** `BuilderSettings`; a null calibrator is `None`, a zero batch size means "not set". */
  datatype BuilderSettings = BuilderSettings(
    opPrecision: DataType,
    refit: bool,
    debug: bool,
    strictTypes: bool,
    allowGpuFallback: bool,
    capability: EngineCapability,
    device: DeviceType,
    calibrator: Option<Calibrator>,
    numMinTimingIters: nat,
    numAvgTimingIters: nat,
    workspaceSize: nat,
    maxBatchSize: nat)

  /** What the builder platform reports about itself. */
  datatype Platform = Platform(hasFastFp16: bool, hasFastInt8: bool)

  /** The builder configuration (`IBuilderConfig`) the context produces. */
  datatype BuilderConfig = BuilderConfig(
    flags: set<BuilderFlag>,
    int8Calibrator: Option<Calibrator>,
    minTimingIters: nat,
    avgTimingIters: nat,
    maxWorkspaceSize: nat,
    defaultDevice: DeviceType,
    capability: EngineCapability)

  /** Everything the constructor decides: the configuration, the network input
      type, the recorded precision and the builder's max batch size (`None`
      when it was left unset). */
  datatype EngineSetup = EngineSetup(
    config: BuilderConfig,
    inputType: DataType,
    opPrecision: DataType,
    builderMaxBatch: Option<nat>)

  /** The flags one boolean setting contributes. */
  function FlagIf(b: bool, f: BuilderFlag): set<BuilderFlag> {
    if b then {f} else {}
  }

  /** The precision switch: the flags it sets, the network input type and the
      calibrator it installs, or the check that fails. */
  function PrecisionChoice(s: BuilderSettings, p: Platform): Result<(set<BuilderFlag>, DataType, Option<Calibrator>), Failure> {
    match s.opPrecision
    case Half =>
      if !p.hasFastFp16 then Err(PlatformLacksFp16) else Ok(({FP16}, Half, None))
    case Int8 =>
      if !p.hasFastInt8 then Err(PlatformLacksInt8)
      else if s.calibrator.None? then Err(MissingCalibrator)
      else Ok(({INT8} + FlagIf(!s.strictTypes, FP16), Float, s.calibrator))
    case _ => Ok(({}, Float, None))
  }

  /** The flags the four boolean settings contribute. */
  function SettingFlags(s: BuilderSettings): set<BuilderFlag> {
    FlagIf(s.refit, REFIT) + FlagIf(s.debug, DEBUG) +
    FlagIf(s.strictTypes, STRICT_TYPES) + FlagIf(s.allowGpuFallback, GPU_FALLBACK)
  }

  /** The configuration the constructor builds, with its fail-fast checks. */
  function Configure(s: BuilderSettings, p: Platform): (r: Result<EngineSetup, Failure>)
    ensures r.Err? <==>
              (s.opPrecision == Half && !p.hasFastFp16) ||
              (s.opPrecision == Int8 && (!p.hasFastInt8 || s.calibrator.None?))
    ensures s.opPrecision == Half && !p.hasFastFp16 ==> r == Err(PlatformLacksFp16)
    ensures s.opPrecision == Int8 && !p.hasFastInt8 ==> r == Err(PlatformLacksInt8)
    ensures s.opPrecision == Int8 && p.hasFastInt8 && s.calibrator.None? ==> r == Err(MissingCalibrator)
    ensures r.Ok? ==>
              var cfg := r.value.config;
              (FP16 in cfg.flags <==> s.opPrecision == Half || (s.opPrecision == Int8 && !s.strictTypes)) &&
              (INT8 in cfg.flags <==> s.opPrecision == Int8) &&
              (REFIT in cfg.flags <==> s.refit) &&
              (DEBUG in cfg.flags <==> s.debug) &&
              (STRICT_TYPES in cfg.flags <==> s.strictTypes) &&
              (GPU_FALLBACK in cfg.flags <==> s.allowGpuFallback) &&
              (r.value.inputType == Half <==> s.opPrecision == Half) &&
              (r.value.inputType != Half ==> r.value.inputType == Float) &&
              r.value.opPrecision == s.opPrecision &&
              (cfg.int8Calibrator.Some? <==> s.opPrecision == Int8) &&
              (cfg.int8Calibrator.Some? ==> cfg.int8Calibrator == s.calibrator) &&
              (r.value.builderMaxBatch.Some? <==> s.maxBatchSize != 0) &&
              (r.value.builderMaxBatch.Some? ==> r.value.builderMaxBatch.value == s.maxBatchSize) &&
              cfg.minTimingIters == s.numMinTimingIters && cfg.avgTimingIters == s.numAvgTimingIters &&
              cfg.maxWorkspaceSize == s.workspaceSize && cfg.defaultDevice == s.device &&
              cfg.capability == s.capability
  {
    var (precisionFlags, inputType, calibrator) :- PrecisionChoice(s, p);
    var cfg := BuilderConfig(precisionFlags + SettingFlags(s), calibrator, s.numMinTimingIters,
                             s.numAvgTimingIters, s.workspaceSize, s.device, s.capability);
    Ok(EngineSetup(cfg, inputType, s.opPrecision,
                   if s.maxBatchSize != 0 then Some(s.maxBatchSize) else None))
  }

  /** The precision switch as the constructor runs it. */
  method SetPrecision(s: BuilderSettings, p: Platform) returns (r: Result<(set<BuilderFlag>, DataType, Option<Calibrator>), Failure>)
    ensures r == PrecisionChoice(s, p)
  {
    var flags: set<BuilderFlag> := {};
    match s.opPrecision {
      case Half =>
        if !p.hasFastFp16 { return Err(PlatformLacksFp16); }
        flags := flags + {FP16};
        assert flags == {FP16};
        return Ok((flags, Half, None));
      case Int8 =>
        if !p.hasFastInt8 { return Err(PlatformLacksInt8); }
        flags := flags + {INT8};
        if !s.strictTypes {
          flags := flags + {FP16};
        }
        if s.calibrator.None? { return Err(MissingCalibrator); }
        assert flags == {INT8} + FlagIf(!s.strictTypes, FP16);
        return Ok((flags, Float, s.calibrator));
      case _ =>
        return Ok((flags, Float, None));
    }
  }

  /** The constructor's configuration steps, one setter call at a time. */
  method ConfigureBuilder(s: BuilderSettings, p: Platform) returns (r: Result<EngineSetup, Failure>)
    ensures r == Configure(s, p)
  {
    var precision := SetPrecision(s, p);
    if precision.Err? {
      return Err(precision.error);
    }
    var (flags, inputType, calibrator) := precision.value;
    ghost var precisionFlags := flags;
    if s.refit { flags := flags + {REFIT}; }
    if s.debug { flags := flags + {DEBUG}; }
    if s.strictTypes { flags := flags + {STRICT_TYPES}; }
    if s.allowGpuFallback { flags := flags + {GPU_FALLBACK}; }
    assert flags == precisionFlags + SettingFlags(s);
    var maxBatch: Option<nat> := None;
    if s.maxBatchSize != 0 {
      maxBatch := Some(s.maxBatchSize);
    }
    var cfg := BuilderConfig(flags, calibrator, s.numMinTimingIters, s.numAvgTimingIters,
                             s.workspaceSize, s.device, s.capability);
    r := Ok(EngineSetup(cfg, inputType, s.opPrecision, maxBatch));
  }

  /** Strict types turn off the FP16 fallback of an INT8 engine, and nothing else
      about its precision flags. */
  lemma StrictTypesControlsInt8Fallback(s: BuilderSettings, p: Platform)
    requires s.opPrecision == Int8 && p.hasFastInt8 && s.calibrator.Some?
    ensures Configure(s, p).Ok?
    ensures var flags := Configure(s, p).value.config.flags;
            INT8 in flags && (FP16 in flags <==> !s.strictTypes) && Configure(s, p).value.inputType == Float
  {
  }

  // ---------------------------------------------------------------------------
  // Emitted layers

  /** `nvinfer1::PaddingMode`; only the mode the converters set is listed. */
  datatype PaddingMode = CAFFE_ROUND_DOWN

  /** `nvinfer1::ReduceOperation`. */
  datatype ReduceOperation = AVG | SUM | PROD | MAX | MIN

  /** The map count handed to the layer: the weights' `num_output_maps` or
      `num_input_maps` (computed by the `Weights` helper from the kernel tensor). */
  datatype MapCount = NumOutputMaps(kernel: HostTensor) | NumInputMaps(kernel: HostTensor)

  /** A layer added to the network, with the settings applied to it. */
  datatype Layer =
    | ConvolutionLayer(
        input: ITensor, maps: MapCount, kernel: HostTensor, bias: HostTensor,
        stride: seq<int64>, padding: seq<int64>, paddingMode: PaddingMode,
        postPadding: seq<int64>, dilation: seq<int64>, groups: int64)
      /** A deconvolution; an empty bias is `None`, and dilation and groups are
          `None` when the build's version guard leaves them unset. */
    | DeconvolutionLayer(
        input: ITensor, maps: MapCount, kernel: HostTensor, biasIfAny: Option<HostTensor>,
        stride: seq<int64>, padding: seq<int64>,
        dilationIfSet: Option<seq<int64>>, groupsIfSet: Option<int64>)
    | ReduceLayer(input: ITensor, op: ReduceOperation, axes: bv32, keepDims: bool)
      /** The constant layer that freezes a host tensor into the network. */
    | ConstantLayer(weights: HostTensor)

  // ---------------------------------------------------------------------------
  // The context object

  /** True iff every output of `n` is bound to a tensor or to a compile-time value. */
  predicate OutputsBound(n: Node, tensors: map<Value, ITensor>, values: map<Value, IValue>) {
    forall i :: 0 <= i < |n.outputs| ==> n.outputs[i] in tensors || n.outputs[i] in values
  }

  class ConversionCtx {
    var settings: BuilderSettings
    var setup: EngineSetup
    var valueTensorMap: map<Value, ITensor>
    var evaluatedValueMap: map<Value, IValue>
    /** The names given to accelerator tensors with `setName`. */
    var tensorNames: map<ITensor, string>
    var net: seq<Layer>

    /** A context over an empty network with an already derived configuration. */
    constructor (s: BuilderSettings, configured: EngineSetup)
      ensures settings == s && setup == configured
      ensures valueTensorMap == map[] && evaluatedValueMap == map[] && tensorNames == map[] && net == []
    {
      settings := s;
      setup := configured;
      valueTensorMap := map[];
      evaluatedValueMap := map[];
      tensorNames := map[];
      net := [];
    }

    /** `AssociateValueAndTensor`: names the tensor after the value, binds the
        value to it and hands the same tensor back. */
    method AssociateValueAndTensor(value: Value, tensor: ITensor) returns (t: ITensor)
      modifies this
      ensures t == tensor
      ensures valueTensorMap == old(valueTensorMap)[value := tensor]
      ensures tensorNames == old(tensorNames)[tensor := value.debugName]
      ensures evaluatedValueMap == old(evaluatedValueMap) && net == old(net)
      ensures settings == old(settings) && setup == old(setup)
    {
      tensorNames := tensorNames[tensor := value.debugName];
      valueTensorMap := valueTensorMap[value := tensor];
      t := tensor;
    }

    /** `AssociateValueAndIValue`: stores (or overwrites) the value's constant
        and hands back the stored entry. */
    method AssociateValueAndIValue(value: Value, ivalue: IValue) returns (stored: IValue)
      modifies this
      ensures evaluatedValueMap == old(evaluatedValueMap)[value := ivalue]
      ensures stored == evaluatedValueMap[value] == ivalue
      ensures valueTensorMap == old(valueTensorMap) && tensorNames == old(tensorNames) && net == old(net)
      ensures settings == old(settings) && setup == old(setup)
    {
      evaluatedValueMap := evaluatedValueMap[value := ivalue];
      stored := evaluatedValueMap[value];
    }

    /** Adds one layer to the network. */
    method AddLayer(layer: Layer)
      modifies this
      ensures net == old(net) + [layer]
      ensures valueTensorMap == old(valueTensorMap) && evaluatedValueMap == old(evaluatedValueMap)
      ensures tensorNames == old(tensorNames) && settings == old(settings) && setup == old(setup)
    {
      net := net + [layer];
    }

    /** `CheckLayerAddition`: a read-only scan that stops at the first unbound output. */
    method CheckLayerAddition(n: Node) returns (ok: bool)
      ensures ok <==> OutputsBound(n, valueTensorMap, evaluatedValueMap)
    {
      var i := 0;
      while i < |n.outputs|
        invariant 0 <= i <= |n.outputs|
        invariant forall j :: 0 <= j < i ==> n.outputs[j] in valueTensorMap || n.outputs[j] in evaluatedValueMap
      {
        var out := n.outputs[i];
        if out !in valueTensorMap {
          if out !in evaluatedValueMap {
            return false;
          }
        }
        i := i + 1;
      }
      return true;
    }
  }

  /** The constructor: derives the configuration and fails fast when the
      settings cannot be honoured. */
  method NewConversionCtx(s: BuilderSettings, p: Platform) returns (r: Result<ConversionCtx, Failure>)
    ensures r.Ok? <==> Configure(s, p).Ok?
    ensures r.Err? ==> r.error == Configure(s, p).error
    ensures r.Ok? ==> fresh(r.value) && r.value.setup == Configure(s, p).value && r.value.settings == s
    ensures r.Ok? ==> r.value.valueTensorMap == map[] && r.value.evaluatedValueMap == map[] && r.value.net == []
  {
    var setup := ConfigureBuilder(s, p);
    if setup.Err? {
      return Err(setup.error);
    }
    var ctx := new ConversionCtx(s, setup.value);
    return Ok(ctx);
  }

  /** Binding a value only adds bindings: outputs that were bound stay bound. */
  lemma BindingKeepsOutputsBound(n: Node, tensors: map<Value, ITensor>, values: map<Value, IValue>,
                                 v: Value, t: ITensor, iv: IValue)
    requires OutputsBound(n, tensors, values)
    ensures OutputsBound(n, tensors[v := t], values)
    ensures OutputsBound(n, tensors, values[v := iv])
  {
  }

  /** A single-output node passes the layer-addition check exactly when its
      output was associated with a tensor or a value. */
  lemma SingleOutputBound(n: Node, tensors: map<Value, ITensor>, values: map<Value, IValue>, t: ITensor)
    requires |n.outputs| == 1
    ensures OutputsBound(n, tensors[n.outputs[0] := t], values)
    ensures OutputsBound(n, tensors, values) <==> n.outputs[0] in tensors || n.outputs[0] in values
  {
  }
}
