/** The reduction converters (`aten::mean`, `sum`, `prod`, `max`, `min` and
    their dim variants): the axis mask, the reduce operation and `keepdim`. */
module Reduce {
  import opened Outcomes
  import opened JitIr
  import opened ConversionContext

  /** The eight registered reduction patterns. */
  datatype ReduceKind = Mean | MeanDim | Sum | SumDimIntList | Prod | ProdDimInt | MaxAll | MinAll

  /** True for the patterns that reduce over every dimension of the input. */
  predicate WholeTensor(k: ReduceKind) {
    k in {Mean, Sum, Prod, MaxAll, MinAll}
  }

  /** The reduce operation each pattern emits. */
  function OperationOf(k: ReduceKind): (op: ReduceOperation)
    ensures op == AVG <==> k == Mean || k == MeanDim
    ensures op == SUM <==> k == Sum || k == SumDimIntList
    ensures op == PROD <==> k == Prod || k == ProdDimInt
    ensures op == MAX <==> k == MaxAll
    ensures op == MIN <==> k == MinAll
  {
    match k
    case Mean | MeanDim => AVG
    case Sum | SumDimIntList => SUM
    case Prod | ProdDimInt => PROD
    case MaxAll => MAX
    case MinAll => MIN
  }

  // ---------------------------------------------------------------------------
  // Axis masks

  /** Bit `k` of a 32-bit mask. */
  predicate Bit(m: bv32, k: bv5) {
    (m >> k) & 1 == 1
  }

  /** `(uint32_t)(((uint64_t)1 << nbDims) - 1)`: the 64-bit shift takes its
      count modulo 64 (as the hardware does once it leaves the defined range),
      and the cast keeps the low 32 bits. */
  function WholeTensorMask(nbDims: nat): bv32 {
    var wide: bv64 := ((1 as bv64) << ((nbDims % 64) as bv7)) - 1;
    (wide & 0xFFFF_FFFF) as bv32
  }

  lemma LowBitsSet(n: bv7, k: bv5)
    requires n <= 32
    ensures Bit(((((1 as bv64) << n) - 1) & 0xFFFF_FFFF) as bv32, k) <==> (k as bv7) < n
  {
  }

  /** With at most 32 dimensions, the whole-tensor mask has exactly the low
      `nbDims` bits set. */
  lemma WholeTensorMaskBits(nbDims: nat, k: bv5)
    requires nbDims <= 32
    ensures Bit(WholeTensorMask(nbDims), k) <==> (k as int) < nbDims
  {
    var n := (nbDims % 64) as bv7;
    SmallShiftCount(nbDims);
    LowBitsSet(n, k);
    WidenedLess(k, n);
  }

  lemma SmallShiftCount(nbDims: nat)
    requires nbDims <= 32
    ensures ((nbDims % 64) as bv7) as int == nbDims
  {
  }

  lemma WidenedLess(k: bv5, n: bv7)
    ensures (k as bv7) < n <==> (k as int) < (n as int)
  {
  }

  /** The shift count of `1 << d` on a 32-bit int: the low five bits of `d`,
      which is `d` modulo 32 also for negative `d`. */
  function ShiftCount(d: int64): bv5 {
    ((d as int) % 32) as bv5
  }

  /** `1 << dims[d]`; a negative dimension is not normalised (-1 sets bit 31). */
  function DimBit(d: int64): bv32 {
    (1 as bv32) << ShiftCount(d)
  }

  /** The accumulated `axis_mask |= 1 << dims[d]`. */
  function DimsMask(dims: seq<int64>): bv32
    decreases |dims|
  {
    if |dims| == 0 then 0 else DimsMask(dims[..|dims| - 1]) | DimBit(dims[|dims| - 1])
  }

  lemma SingleBit(s: bv5, k: bv5)
    ensures Bit((1 as bv32) << s, k) <==> s == k
  {
  }

  lemma OrBit(a: bv32, b: bv32, k: bv5)
    ensures Bit(a | b, k) <==> Bit(a, k) || Bit(b, k)
  {
  }

  /** Some dim of `dims` shifts by `k`. */
  predicate DimsHit(dims: seq<int64>, k: bv5) {
    exists i :: 0 <= i < |dims| && ShiftCount(dims[i]) == k
  }

  lemma SelectsSnoc(dims: seq<int64>, k: bv5)
    requires |dims| > 0
    ensures DimsHit(dims, k) <==> DimsHit(dims[..|dims| - 1], k) || ShiftCount(dims[|dims| - 1]) == k
  {
    var init := dims[..|dims| - 1];
    if DimsHit(dims, k) {
      var i :| 0 <= i < |dims| && ShiftCount(dims[i]) == k;
      if i < |dims| - 1 {
        assert init[i] == dims[i];
      }
    }
    if DimsHit(init, k) {
      var i :| 0 <= i < |init| && ShiftCount(init[i]) == k;
      assert dims[i] == init[i];
    }
  }

  /** Bit `k` of the dims mask is set iff some dim is `k` modulo 32. */
  lemma {:induction false} DimsMaskBits(dims: seq<int64>, k: bv5)
    ensures Bit(DimsMask(dims), k) <==> DimsHit(dims, k)
    decreases |dims|
  {
    if |dims| > 0 {
      var init := dims[..|dims| - 1];
      var last := dims[|dims| - 1];
      DimsMaskBits(init, k);
      SelectsSnoc(dims, k);
      OrBit(DimsMask(init), DimBit(last), k);
      SingleBit(ShiftCount(last), k);
    } else {
      assert DimsMask(dims) == 0;
    }
  }

  /** The mask of a concatenation is the union of the masks. */
  lemma {:induction false} DimsMaskAppend(a: seq<int64>, b: seq<int64>)
    ensures DimsMask(a + b) == DimsMask(a) | DimsMask(b)
    decreases |b|
  {
    if |b| == 0 {
      assert a + b == a;
    } else {
      var init := b[..|b| - 1];
      assert (a + b)[..|a + b| - 1] == a + init;
      DimsMaskAppend(a, init);
    }
  }

  /** Taking one dim out of the list and or-ing its bit back gives the same mask. */
  lemma DimsMaskWithout(b: seq<int64>, j: nat)
    requires j < |b|
    ensures DimsMask(b) == DimsMask(b[..j] + b[j + 1..]) | DimBit(b[j])
  {
    var x := b[j];
    assert b == b[..j] + [x] + b[j + 1..];
    DimsMaskAppend(b[..j] + [x], b[j + 1..]);
    DimsMaskAppend(b[..j], [x]);
    DimsMaskAppend(b[..j], b[j + 1..]);
    assert DimsMask([x]) == DimBit(x) by {
      assert [x][..0] == [];
    }
  }

  /** The mask does not depend on the order of the dims. */
  lemma {:induction false} DimsMaskPermutation(a: seq<int64>, b: seq<int64>)
    requires multiset(a) == multiset(b)
    ensures DimsMask(a) == DimsMask(b)
    decreases |a|
  {
    if |a| == 0 {
      assert |b| == |multiset(b)| == 0;
    } else {
      var x := a[|a| - 1];
      var init := a[..|a| - 1];
      MultisetWithout(a, |a| - 1);
      assert a[..|a| - 1] + a[|a|..] == init;
      assert x in multiset(b);
      var j :| 0 <= j < |b| && b[j] == x;
      MultisetWithout(b, j);
      DimsMaskPermutation(init, b[..j] + b[j + 1..]);
      DimsMaskWithout(b, j);
      DimsMaskWithout(a, |a| - 1);
    }
  }

  lemma MultisetWithout(s: seq<int64>, j: nat)
    requires j < |s|
    ensures multiset(s[..j] + s[j + 1..]) == multiset(s) - multiset{s[j]}
  {
    assert s == s[..j] + [s[j]] + s[j + 1..];
  }

  /** Repeating a dim that is already listed does not change the mask. */
  lemma DimsMaskDuplicate(a: seq<int64>, i: nat)
    requires i < |a|
    ensures DimsMask(a + [a[i]]) == DimsMask(a)
  {
    assert (a + [a[i]])[..|a|] == a;
    DimsMaskWithout(a, i);
    var m := DimsMask(a[..i] + a[i + 1..]);
    assert (m | DimBit(a[i])) | DimBit(a[i]) == m | DimBit(a[i]);
  }

  /** A negative dim is not normalised against the rank: -1 selects bit 31,
      not the last dimension. */
  lemma NegativeDimSelectsHighBit()
    ensures DimsMask([-1]) == 0x8000_0000
  {
    assert [-1 as int64][..0] == [];
  }

  /** The loop that accumulates the dims mask. */
  method AccumulateDimsMask(dims: seq<int64>) returns (axisMask: bv32)
    ensures axisMask == DimsMask(dims)
  {
    axisMask := 0;
    var d := 0;
    while d < |dims|
      invariant 0 <= d <= |dims|
      invariant axisMask == DimsMask(dims[..d])
    {
      assert dims[..d + 1][..d] == dims[..d];
      axisMask := axisMask | DimBit(dims[d]);
      d := d + 1;
    }
    assert dims[..d] == dims;
  }

  // ---------------------------------------------------------------------------
  // The converters

  /** `ITensorOrFreeze`: a live tensor is used as is; a host tensor is frozen
      into a constant layer whose output is `frozen` (`None` when the network
      returns a null layer).  Yields the tensor and the layers added. */
  function Freeze(v: Var, frozen: Option<ITensor>): (r: Result<(ITensor, seq<Layer>), Failure>)
    ensures v.VarITensor? ==> r == Ok((v.tensor, []))
    ensures v.VarIValue? && v.ivalue.ITensorValue? && frozen.Some? ==>
              r == Ok((frozen.value, [ConstantLayer(v.ivalue.t)]))
    ensures r.Ok? <==> v.VarITensor? || (v.VarIValue? && v.ivalue.ITensorValue? && frozen.Some?)
  {
    if v.VarITensor? then Ok((v.tensor, []))
    else
      var t :- v.UnwrapToTensor();
      if frozen.None? then Err(LayerCreationFailed) else Ok((frozen.value, [ConstantLayer(t)]))
  }

  /** The reduce layer a pattern asks for on `input`, reading the dims from
      argument 1 and `keepdim` from argument 2 for the dim variants. */
  function ReduceLayerFor(k: ReduceKind, args: seq<Var>, input: ITensor): (r: Result<Layer, Failure>)
    requires WholeTensor(k) || |args| >= 3
    ensures r.Ok? ==> r.value.ReduceLayer? && r.value.input == input && r.value.op == OperationOf(k)
    ensures WholeTensor(k) ==> r.Ok? && !r.value.keepDims
    ensures WholeTensor(k) && input.nbDims <= 32 ==>
              forall b: bv5 :: Bit(r.value.axes, b) <==> (b as int) < input.nbDims
    ensures (k == MeanDim || k == SumDimIntList) ==>
              (r.Ok? <==> args[1].VarIValue? && args[1].ivalue.IIntList? && args[2].VarIValue? && args[2].ivalue.IBool?)
    ensures (k == MeanDim || k == SumDimIntList) && r.Ok? ==>
              r.value.keepDims == args[2].ivalue.b &&
              forall b: bv5 :: Bit(r.value.axes, b) <==>
                DimsHit(args[1].ivalue.ints, b)
    ensures k == ProdDimInt ==>
              (r.Ok? <==> args[1].VarIValue? && args[1].ivalue.IInt? && args[2].VarIValue? && args[2].ivalue.IBool?)
    ensures k == ProdDimInt && r.Ok? ==>
              r.value.keepDims == args[2].ivalue.b &&
              forall b: bv5 :: Bit(r.value.axes, b) <==> ShiftCount(args[1].ivalue.i) == b
  {
    if WholeTensor(k) then
      var mask := WholeTensorMask(input.nbDims);
      assert input.nbDims <= 32 ==> forall b: bv5 :: Bit(mask, b) <==> (b as int) < input.nbDims by {
        forall b: bv5 | input.nbDims <= 32 ensures Bit(mask, b) <==> (b as int) < input.nbDims {
          WholeTensorMaskBits(input.nbDims, b);
        }
      }
      Ok(ReduceLayer(input, OperationOf(k), mask, false))
    else if k == ProdDimInt then
      var dim :- args[1].UnwrapToInt();
      var keep :- args[2].UnwrapToBool();
      assert forall b: bv5 :: Bit(DimBit(dim), b) <==> ShiftCount(dim) == b by {
        forall b: bv5 ensures Bit(DimBit(dim), b) <==> ShiftCount(dim) == b {
          SingleBit(ShiftCount(dim), b);
        }
      }
      Ok(ReduceLayer(input, OperationOf(k), DimBit(dim), keep))
    else
      var dims :- args[1].UnwrapToIntList();
      var keep :- args[2].UnwrapToBool();
      assert forall b: bv5 :: Bit(DimsMask(dims), b) <==> DimsHit(dims, b) by {
        forall b: bv5 ensures Bit(DimsMask(dims), b) <==> DimsHit(dims, b) {
          DimsMaskBits(dims, b);
        }
      }
      Ok(ReduceLayer(input, OperationOf(k), DimsMask(dims), keep))
  }

  /** What the converter adds to the network: the freezing layer if any, then
      the reduce layer on the (possibly frozen) input. */
  function ReduceLayers(k: ReduceKind, args: seq<Var>, frozen: Option<ITensor>): Result<seq<Layer>, Failure>
    requires |args| >= 1 && (WholeTensor(k) || |args| >= 3)
  {
    var (input, freezing) :- Freeze(args[0], frozen);
    var layer :- ReduceLayerFor(k, args, input);
    Ok(freezing + [layer])
  }

  /** The layers a pattern adds: those of the freeze, if any, then one reduce
      layer with the pattern's operation over the frozen or live input. */
  lemma ReduceLayersShape(k: ReduceKind, args: seq<Var>, frozen: Option<ITensor>)
    requires |args| >= 1 && (WholeTensor(k) || |args| >= 3)
    ensures var r := ReduceLayers(k, args, frozen);
      (Freeze(args[0], frozen).Err? ==> r.Err?) &&
      (r.Ok? ==> Freeze(args[0], frozen).Ok? && |r.value| >= 1 &&
                 r.value[..|r.value| - 1] == Freeze(args[0], frozen).value.1 &&
                 r.value[|r.value| - 1].ReduceLayer? && r.value[|r.value| - 1].op == OperationOf(k) &&
                 r.value[|r.value| - 1].input == Freeze(args[0], frozen).value.0)
  {
    var r := ReduceLayers(k, args, frozen);
    if r.Ok? {
      var (input, freezing) := Freeze(args[0], frozen).value;
      assert r.value == freezing + [ReduceLayerFor(k, args, input).value];
      assert r.value[..|r.value| - 1] == freezing;
    }
  }

  /** A reduction of a host-tensor input first freezes it into a constant
      layer and reduces that layer's output. */
  lemma FrozenInputIsReduced(k: ReduceKind, args: seq<Var>, t: HostTensor, frozen: ITensor)
    requires |args| >= 1 && WholeTensor(k) && args[0] == VarIValue(ITensorValue(t))
    ensures ReduceLayers(k, args, Some(frozen)).Ok?
    ensures var layers := ReduceLayers(k, args, Some(frozen)).value;
            |layers| == 2 && layers[0] == ConstantLayer(t) && layers[1].ReduceLayer? && layers[1].input == frozen
  {
  }

  /** A reduction with no bound dims reduces nothing: an empty dims list gives
      the empty mask. */
  lemma EmptyDimsReduceNothing(k: ReduceKind, args: seq<Var>, input: ITensor)
    requires (k == MeanDim || k == SumDimIntList) && |args| >= 3
    requires args[1] == VarIValue(IIntList([])) && args[2].VarIValue? && args[2].ivalue.IBool?
    ensures ReduceLayerFor(k, args, input).Ok? && ReduceLayerFor(k, args, input).value.axes == 0
  {
  }

  /** The converter: obtains the input (freezing a constant), computes the
      mask, adds the reduce layer (`created` is its output handle, `None` for a
      null layer) and binds node output 0 to it. */
  method ConvertReduce(ctx: ConversionCtx, k: ReduceKind, n: Node, args: seq<Var>,
                       frozen: Option<ITensor>, created: Option<ITensor>) returns (r: Result<bool, Failure>)
    requires |args| >= 1 && (WholeTensor(k) || |args| >= 3) && |n.outputs| >= 1
    modifies ctx
    ensures r.Ok? <==> ReduceLayers(k, args, frozen).Ok? && created.Some?
    ensures r.Ok? ==> r.value
    ensures r.Ok? ==> ctx.net == old(ctx.net) + ReduceLayers(k, args, frozen).value
    ensures r.Ok? ==> ctx.valueTensorMap == old(ctx.valueTensorMap)[n.outputs[0] := created.value]
    ensures r.Err? ==> ctx.valueTensorMap == old(ctx.valueTensorMap)
    ensures ctx.evaluatedValueMap == old(ctx.evaluatedValueMap)
  {
    var input: ITensor;
    if args[0].VarITensor? {
      input := args[0].tensor;
    } else {
      var t := args[0].UnwrapToTensor();
      if t.Err? {
        return Err(t.error);
      }
      if frozen.None? {
        return Err(LayerCreationFailed);
      }
      ctx.AddLayer(ConstantLayer(t.value));
      input := frozen.value;
    }
    var axisMask: bv32;
    var keepDim: bool;
    if WholeTensor(k) {
      axisMask := WholeTensorMask(input.nbDims);
      keepDim := false;
    } else {
      if k == ProdDimInt {
        var dim := args[1].UnwrapToInt();
        if dim.Err? {
          return Err(dim.error);
        }
        axisMask := DimBit(dim.value);
      } else {
        var dims := args[1].UnwrapToIntList();
        if dims.Err? {
          return Err(dims.error);
        }
        axisMask := AccumulateDimsMask(dims.value);
      }
      var keep := args[2].UnwrapToBool();
      if keep.Err? {
        return Err(keep.error);
      }
      keepDim := keep.value;
    }
    if created.None? {
      return Err(LayerCreationFailed);
    }
    ctx.AddLayer(ReduceLayer(input, OperationOf(k), axisMask, keepDim));
    var out := ctx.AssociateValueAndTensor(n.outputs[0], created.value);
    return Ok(true);
  }
}
