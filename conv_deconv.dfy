/** The `aten::_convolution` converter: picks a convolution or a deconvolution
    layer, supplies the bias, forwards the layer parameters and binds the node's
    output to the new layer's output. */
module ConvDeconv {
  import opened Outcomes
  import opened JitIr
  import opened ConversionContext

  /** The accelerator library version the converter is compiled against. */
  datatype TrtVersion = TrtVersion(major: nat, minor: nat)

  /** The positional arguments of `aten::_convolution` the converter reads. */
  datatype ConvArgs = ConvArgs(
    input: ITensor,
    weight: HostTensor,
    stride: seq<int64>,
    padding: seq<int64>,
    dilation: seq<int64>,
    transposed: bool,
    outputPadding: seq<int64>,
    groups: int64)

  /** Reads arguments 0, 1, 3, 4, 5, 6, 7 and 8 in that order; the first one of
      the wrong kind fails. */
  function ParseConvArgs(args: seq<Var>): (r: Result<ConvArgs, Failure>)
    requires |args| >= 9
    ensures r.Ok? <==>
              args[0].VarITensor? &&
              args[1].VarIValue? && args[1].ivalue.ITensorValue? &&
              (forall i :: i in {3, 4, 5, 7} ==> args[i].VarIValue? && args[i].ivalue.IIntList?) &&
              args[6].VarIValue? && args[6].ivalue.IBool? &&
              args[8].VarIValue? && args[8].ivalue.IInt?
    ensures r.Ok? ==>
              r.value.input == args[0].tensor && r.value.weight == args[1].ivalue.t &&
              r.value.stride == args[3].ivalue.ints && r.value.padding == args[4].ivalue.ints &&
              r.value.dilation == args[5].ivalue.ints && r.value.transposed == args[6].ivalue.b &&
              r.value.outputPadding == args[7].ivalue.ints && r.value.groups == args[8].ivalue.i
  {
    var input :- args[0].AsITensor();
    var weight :- args[1].UnwrapToTensor();
    var stride :- args[3].UnwrapToIntList();
    var padding :- args[4].UnwrapToIntList();
    var dilation :- args[5].UnwrapToIntList();
    var transposed :- args[6].UnwrapToBool();
    var outputPadding :- args[7].UnwrapToIntList();
    var groups :- args[8].UnwrapToInt();
    Ok(ConvArgs(input, weight, stride, padding, dilation, transposed, outputPadding, groups))
  }

  /** `torch::zeros(weight.sizes()[0])`: one zero per output channel.  A weight
      without dimensions has no dimension 0 to read and is reported as an error. */
  function ZeroBias(weight: HostTensor): (r: Result<HostTensor, Failure>)
    ensures r.Ok? <==> |weight.sizes| > 0
    ensures r.Ok? ==> r.value.data == AllZeros && r.value.sizes == [weight.sizes[0]]
  {
    if |weight.sizes| == 0 then Err(EmptyWeightShape) else Ok(HostTensor(AllZeros, [weight.sizes[0]]))
  }

  /** The convolution's bias: argument 2 when it is a tensor, else zeros. */
  function ConvolutionBias(bias: Var, weight: HostTensor): (r: Result<HostTensor, Failure>)
    ensures bias.VarIValue? && bias.ivalue.ITensorValue? ==> r == Ok(bias.ivalue.t)
    ensures bias.VarIValue? && !bias.ivalue.ITensorValue? ==> r == ZeroBias(weight)
    ensures !bias.VarIValue? ==> r.Err?
  {
    var b :- bias.AsIValue();
    if b.ITensorValue? then Ok(b.t) else ZeroBias(weight)
  }

  /** The deconvolution's bias: argument 2 when it is a tensor, else empty weights. */
  function DeconvolutionBias(bias: Var): (r: Result<Option<HostTensor>, Failure>)
    ensures bias.VarIValue? && bias.ivalue.ITensorValue? ==> r == Ok(Some(bias.ivalue.t))
    ensures bias.VarIValue? && !bias.ivalue.ITensorValue? ==> r == Ok(None)
    ensures !bias.VarIValue? ==> r.Err?
  {
    var b :- bias.AsIValue();
    if b.ITensorValue? then Ok(Some(b.t)) else Ok(None)
  }

  /** The version guard around the deconvolution's dilation and groups, as
      written: major above 7, or major 7 with minor exactly 1. */
  predicate DeconvGuardAsWritten(v: TrtVersion): (b: bool)
    ensures b ==> DeconvGuard(v)
  {
    v.major > 7 || (v.major == 7 && v.minor == 1)
  }

  /** The guard as evidently intended: version 7.1 or later. */
  predicate DeconvGuard(v: TrtVersion) {
    v.major > 7 || (v.major == 7 && v.minor >= 1)
  }

  /** The deconvolution layer with a given guard outcome. */
  function Deconvolution(c: ConvArgs, bias: Option<HostTensor>, guarded: bool): Layer {
    DeconvolutionLayer(c.input, NumInputMaps(c.weight), c.weight, bias, c.stride, c.padding,
                       if guarded then Some(c.dilation) else None,
                       if guarded then Some(c.groups) else None)
  }

  /** The deconvolution layer the converter emits as written: dilation and
      groups are forwarded from version 8 on and on version 7.1 only. */
  function DeconvolutionLayerAsWritten(c: ConvArgs, bias: Option<HostTensor>, v: TrtVersion): (l: Layer)
    ensures l.DeconvolutionLayer? && l.input == c.input && l.maps == NumInputMaps(c.weight) && l.kernel == c.weight
    ensures l.biasIfAny == bias && l.stride == c.stride && l.padding == c.padding
    ensures (v.major, v.minor) == (7, 1) || v.major >= 8 ==>
              l.dilationIfSet == Some(c.dilation) && l.groupsIfSet == Some(c.groups)
    ensures v.major < 7 || (v.major == 7 && v.minor != 1) ==> l.dilationIfSet.None? && l.groupsIfSet.None?
  {
    Deconvolution(c, bias, DeconvGuardAsWritten(v))
  }

  /** The deconvolution layer with the corrected guard: from version 7.1 on,
      dilation and groups are always forwarded. */
  function DeconvolutionLayerFor(c: ConvArgs, bias: Option<HostTensor>, v: TrtVersion): (l: Layer)
    ensures l.DeconvolutionLayer? && l.input == c.input && l.maps == NumInputMaps(c.weight) && l.kernel == c.weight
    ensures l.biasIfAny == bias && l.stride == c.stride && l.padding == c.padding
    ensures (v.major, v.minor) == (7, 1) || v.major >= 8 || (v.major == 7 && v.minor > 1) ==>
              l.dilationIfSet == Some(c.dilation) && l.groupsIfSet == Some(c.groups)
    ensures v.major < 7 || (v.major == 7 && v.minor == 0) ==> l.dilationIfSet.None? && l.groupsIfSet.None?
  {
    Deconvolution(c, bias, DeconvGuard(v))
  }

  /** On version 7.2 the guard as written drops the deconvolution's dilation and
      groups, which the intended guard forwards. */
  lemma DeconvGuardSkipsMinorTwo(c: ConvArgs, bias: Option<HostTensor>)
    ensures DeconvolutionLayerAsWritten(c, bias, TrtVersion(7, 2)).dilationIfSet.None?
    ensures DeconvolutionLayerAsWritten(c, bias, TrtVersion(7, 2)).groupsIfSet.None?
    ensures DeconvolutionLayerFor(c, bias, TrtVersion(7, 2)).groupsIfSet == Some(c.groups)
  {
  }

  /** The two guards agree on every version except 7.x with x above 1. */
  lemma DeconvGuardsAgreeElsewhere(v: TrtVersion)
    ensures DeconvGuardAsWritten(v) != DeconvGuard(v) <==> v.major == 7 && v.minor > 1
  {
  }

  /** The convolution layer: stride, padding, dilation and groups from the
      arguments, round-down padding, the output padding as post padding. */
  function ConvolutionLayerFor(c: ConvArgs, bias: HostTensor): (l: Layer)
    ensures l.ConvolutionLayer? && l.input == c.input && l.maps == NumOutputMaps(c.weight) && l.kernel == c.weight
    ensures l.bias == bias && l.stride == c.stride && l.padding == c.padding && l.paddingMode == CAFFE_ROUND_DOWN
    ensures l.postPadding == c.outputPadding && l.dilation == c.dilation && l.groups == c.groups
  {
    ConvolutionLayer(c.input, NumOutputMaps(c.weight), c.weight, bias, c.stride, c.padding,
                     CAFFE_ROUND_DOWN, c.outputPadding, c.dilation, c.groups)
  }

  /** The layer the converter asks for, before the network is asked to create
      it: the arguments are read first, then the bias; a deconvolution takes
      the guard as written. */
  function LayerFor(args: seq<Var>, v: TrtVersion): (r: Result<Layer, Failure>)
    requires |args| >= 9
    ensures ParseConvArgs(args).Err? ==> r == Err(ParseConvArgs(args).error)
    ensures var p := ParseConvArgs(args);
      p.Ok? && p.value.transposed ==>
        (r.Ok? <==> args[2].VarIValue?) &&
        (r.Ok? ==> r.value == DeconvolutionLayerAsWritten(p.value, DeconvolutionBias(args[2]).value, v))
    ensures var p := ParseConvArgs(args);
      p.Ok? && !p.value.transposed ==>
        (r.Ok? <==> ConvolutionBias(args[2], p.value.weight).Ok?) &&
        (r.Ok? ==> r.value == ConvolutionLayerFor(p.value, ConvolutionBias(args[2], p.value.weight).value))
  {
    var c :- ParseConvArgs(args);
    if c.transposed then
      var bias :- DeconvolutionBias(args[2]);
      Ok(DeconvolutionLayerAsWritten(c, bias, v))
    else
      var bias :- ConvolutionBias(args[2], c.weight);
      Ok(ConvolutionLayerFor(c, bias))
  }

  /** The converter as written on version 7.2: a deconvolution is created
      without dilation and groups, which the corrected layer would carry. */
  lemma ConverterDropsDilationOnMinorTwo(args: seq<Var>)
    requires |args| >= 9 && LayerFor(args, TrtVersion(7, 2)).Ok? && args[6].VarIValue? && args[6].ivalue.IBool?
    requires args[6].ivalue.b
    ensures var l := LayerFor(args, TrtVersion(7, 2)).value;
      l.DeconvolutionLayer? && l.dilationIfSet.None? && l.groupsIfSet.None? &&
      DeconvolutionLayerFor(ParseConvArgs(args).value, l.biasIfAny, TrtVersion(7, 2)).groupsIfSet.Some?
  {
  }

  /** Off version 7.x with x above 1 the converter builds exactly the
      corrected layer. */
  lemma ConverterIntendedElsewhere(args: seq<Var>, v: TrtVersion)
    requires |args| >= 9 && LayerFor(args, v).Ok? && !(v.major == 7 && v.minor > 1)
    ensures var c := ParseConvArgs(args).value;
      c.transposed ==> LayerFor(args, v).value == DeconvolutionLayerFor(c, DeconvolutionBias(args[2]).value, v)
  {
    DeconvGuardsAgreeElsewhere(v);
  }

  /** `transposed` selects a deconvolution, otherwise a convolution. */
  lemma TransposedSelectsLayer(args: seq<Var>, v: TrtVersion)
    requires |args| >= 9 && LayerFor(args, v).Ok?
    ensures args[6].VarIValue? && args[6].ivalue.IBool?
    ensures LayerFor(args, v).value.DeconvolutionLayer? <==> args[6].ivalue.b
    ensures LayerFor(args, v).value.ConvolutionLayer? <==> !args[6].ivalue.b
  {
  }

  /** A convolution whose bias argument is not a tensor (for instance `None`)
      gets an all-zero bias with one entry per output channel. */
  lemma ConvolutionWithoutBias(args: seq<Var>, v: TrtVersion)
    requires |args| >= 9 && ParseConvArgs(args).Ok? && !ParseConvArgs(args).value.transposed
    requires args[2] == VarIValue(INone) && |args[1].ivalue.t.sizes| > 0
    ensures LayerFor(args, v).Ok?
    ensures LayerFor(args, v).value.bias == HostTensor(AllZeros, [args[1].ivalue.t.sizes[0]])
  {
  }

  /** A deconvolution whose bias argument is not a tensor gets empty bias weights. */
  lemma DeconvolutionWithoutBias(args: seq<Var>, v: TrtVersion)
    requires |args| >= 9 && ParseConvArgs(args).Ok? && ParseConvArgs(args).value.transposed
    requires args[2] == VarIValue(INone)
    ensures LayerFor(args, v).Ok? && LayerFor(args, v).value.biasIfAny.None?
  {
  }

  /** The converter: adds the layer (`created` is the handle of its output, or
      `None` when the network returns a null layer), then binds output 0. */
  method ConvertConvolution(ctx: ConversionCtx, n: Node, args: seq<Var>, v: TrtVersion, created: Option<ITensor>)
    returns (r: Result<bool, Failure>)
    requires |args| >= 9 && |n.outputs| >= 1
    modifies ctx
    ensures r.Ok? <==> LayerFor(args, v).Ok? && created.Some?
    ensures created.None? && LayerFor(args, v).Ok? ==> r == Err(LayerCreationFailed)
    ensures r.Ok? ==> r.value
    ensures r.Ok? ==> ctx.net == old(ctx.net) + [LayerFor(args, v).value]
    ensures r.Ok? ==> ctx.valueTensorMap == old(ctx.valueTensorMap)[n.outputs[0] := created.value]
    ensures r.Ok? ==> ctx.tensorNames == old(ctx.tensorNames)[created.value := n.outputs[0].debugName]
    ensures r.Err? ==> ctx.net == old(ctx.net) && ctx.valueTensorMap == old(ctx.valueTensorMap)
    ensures ctx.evaluatedValueMap == old(ctx.evaluatedValueMap)
  {
    var c := ParseConvArgs(args);
    if c.Err? {
      return Err(c.error);
    }
    var conv := c.value;
    var layer: Layer;
    if conv.transposed {
      var bias := DeconvolutionBias(args[2]);
      if bias.Err? {
        return Err(bias.error);
      }
      if created.None? {
        return Err(LayerCreationFailed);
      }
      var dilationIfSet: Option<seq<int64>> := None;
      var groupsIfSet: Option<int64> := None;
      if DeconvGuardAsWritten(v) {
        dilationIfSet := Some(conv.dilation);
        groupsIfSet := Some(conv.groups);
      }
      layer := DeconvolutionLayer(conv.input, NumInputMaps(conv.weight), conv.weight, bias.value,
                                  conv.stride, conv.padding, dilationIfSet, groupsIfSet);
    } else {
      var bias := ConvolutionBias(args[2], conv.weight);
      if bias.Err? {
        return Err(bias.error);
      }
      if created.None? {
        return Err(LayerCreationFailed);
      }
      layer := ConvolutionLayer(conv.input, NumOutputMaps(conv.weight), conv.weight, bias.value,
                                conv.stride, conv.padding, CAFFE_ROUND_DOWN, conv.outputPadding,
                                conv.dilation, conv.groups);
    }
    ctx.AddLayer(layer);
    var out := ctx.AssociateValueAndTensor(n.outputs[0], created.value);
    return Ok(true);
  }
}
