/** The `prim::` evaluators: nodes that are folded to a constant at conversion
    time instead of being turned into accelerator layers. */
module PrimEvaluators {
  import opened Outcomes
  import opened JitIr
  import opened EvaluatorRegistry

  // ---------------------------------------------------------------------------
  // prim::Constant, prim::unchecked_cast, prim::Uninitialized, prim::RaiseException

  /** The constant a `prim::Constant` node carries; a node without a `value`
      attribute is the `None` constant. */
  function ConstantValue(n: Node): IValue {
    if n.attr.Some? then n.attr.value else INone
  }

  /** `prim::Constant`: nothing for a function-typed output, otherwise the
      node's constant. */
  function EvalConstant(n: Node, args: Kwargs): (r: EvalOutcome)
    ensures |n.outputs| == 1 && n.outputs[0].ty == FunctionType ==> r == Ok(None)
    ensures |n.outputs| == 1 && n.outputs[0].ty != FunctionType ==> r == Ok(Some(ConstantValue(n)))
    ensures |n.outputs| != 1 ==> r.Err?
  {
    var out :- SingleOutput(n);
    if out.ty == FunctionType then Ok(None) else Ok(Some(ConstantValue(n)))
  }

  /** `n->input(0)`, which throws for a node without inputs. */
  function FirstInput(n: Node): (r: Result<Value, Failure>)
    ensures r.Ok? <==> |n.inputs| > 0
    ensures r.Ok? ==> r.value == n.inputs[0]
  {
    if |n.inputs| > 0 then Ok(n.inputs[0]) else Err(MissingArgument)
  }

  /** `prim::unchecked_cast`: the identity on the first argument's value. */
  function EvalUncheckedCast(n: Node, args: Kwargs): (r: EvalOutcome)
    ensures r.Ok? <==> |n.inputs| > 0 && n.inputs[0] in args && args[n.inputs[0]].VarIValue?
    ensures r.Ok? ==> r.value == Some(args[n.inputs[0]].ivalue)
  {
    var in0 :- FirstInput(n);
    var v :- At(args, in0);
    var iv :- v.AsIValue();
    Ok(Some(iv))
  }

  /** `prim::Uninitialized`: the uninitialized marker value. */
  function EvalUninitialized(n: Node, args: Kwargs): (r: EvalOutcome)
    ensures r == Ok(Some(IUninitialized))
  {
    Ok(Some(IUninitialized))
  }

  /** `prim::RaiseException`: never yields a value; the exception object is
      reported when it can be read. */
  function EvalRaiseException(n: Node, args: Kwargs): (r: EvalOutcome)
    ensures r.Err?
    ensures |n.inputs| > 0 && n.inputs[0] in args && args[n.inputs[0]].VarIValue? ==>
              r == Err(TorchScriptException(args[n.inputs[0]].ivalue))
  {
    var in0 :- FirstInput(n);
    var v :- At(args, in0);
    var exception :- v.AsIValue();
    Err(TorchScriptException(exception))
  }

  // ---------------------------------------------------------------------------
  // prim::ListConstruct

  /** True iff no argument is a live accelerator tensor (`constTypesOnly`). */
  predicate ConstTypesOnly(args: Kwargs) {
    forall v :: v in args ==> !args[v].VarITensor?
  }

  /** Unwraps the argument of every input, left to right; the first failure wins. */
  function Collect<T>(ins: seq<Value>, args: Kwargs, unwrap: Var -> Result<T, Failure>): Result<seq<T>, Failure>
    decreases |ins|
  {
    if |ins| == 0 then Ok([])
    else
      var init :- Collect(ins[..|ins| - 1], args, unwrap);
      var v :- At(args, ins[|ins| - 1]);
      var x :- unwrap(v);
      Ok(init + [x])
  }

  /** The tensor-list branch: inputs whose argument is not a compile-time value
      are skipped, the others must be tensors. */
  function CollectTensors(ins: seq<Value>, args: Kwargs): Result<seq<HostTensor>, Failure>
    decreases |ins|
  {
    if |ins| == 0 then Ok([])
    else
      var init :- CollectTensors(ins[..|ins| - 1], args);
      var v :- At(args, ins[|ins| - 1]);
      if v.VarIValue? then
        var t :- v.UnwrapToTensor();
        Ok(init + [t])
      else Ok(init)
  }

  /** An element of the generic list built when some argument is live: a live
      tensor is boxed in a `TensorContainer`, anything else must be a tensor. */
  function BoxElement(v: Var): Result<IValue, Failure> {
    if v.VarITensor? then Ok(ITensorContainer(v.tensor))
    else
      var t :- v.UnwrapToTensor();
      Ok(ITensorValue(t))
  }

  function UnwrapInt(v: Var): Result<int64, Failure> { v.UnwrapToInt() }
  function UnwrapDouble(v: Var): Result<real, Failure> { v.UnwrapToDouble() }
  function UnwrapBool(v: Var): Result<bool, Failure> { v.UnwrapToBool() }
  function UnwrapIValue(v: Var): Result<IValue, Failure> { v.AsIValue() }

  /** `prim::ListConstruct`.  With constant arguments only, a list typed by the
      output's element type; otherwise a generic list with live tensors boxed. */
  function ListConstruct(n: Node, args: Kwargs): (r: EvalOutcome)
    ensures |n.outputs| != 1 ==> r == Err(NodeOutputCount)
    ensures |n.outputs| == 1 && !n.outputs[0].ty.ListType? ==> r == Err(OutputTypeIsNotList)
    ensures r.Ok? ==> r.value.Some?
    ensures r.Ok? ==> (r.value.value.IIntList? || r.value.value.IDoubleList? || r.value.value.IBoolList? ||
                       r.value.value.ITensorList? || r.value.value.IGenericList?)
  {
    var out :- SingleOutput(n);
    if !out.ty.ListType? then Err(OutputTypeIsNotList)
    else
      var elem := out.ty.elem;
      if ConstTypesOnly(args) then
        if elem == IntType then
          var xs :- Collect(n.inputs, args, UnwrapInt);
          Ok(Some(IIntList(xs)))
        else if elem == FloatType then
          var xs :- Collect(n.inputs, args, UnwrapDouble);
          Ok(Some(IDoubleList(xs)))
        else if elem == BoolType then
          var xs :- Collect(n.inputs, args, UnwrapBool);
          Ok(Some(IBoolList(xs)))
        else if elem == TensorType then
          var ts :- CollectTensors(n.inputs, args);
          Ok(Some(ITensorList(ts)))
        else
          var vs :- Collect(n.inputs, args, UnwrapIValue);
          Ok(Some(IGenericList(elem, vs)))
      else
        var vs :- Collect(n.inputs, args, BoxElement);
        Ok(Some(IGenericList(elem, vs)))
  }

  /** `Collect` succeeds iff every input has an argument that unwraps, and then
      it keeps the input count and order. */
  lemma {:induction false} CollectElements<T>(ins: seq<Value>, args: Kwargs, unwrap: Var -> Result<T, Failure>)
    ensures Collect(ins, args, unwrap).Ok? <==>
              forall i :: 0 <= i < |ins| ==> ins[i] in args && unwrap(args[ins[i]]).Ok?
    ensures Collect(ins, args, unwrap).Ok? ==>
              |Collect(ins, args, unwrap).value| == |ins| &&
              forall i :: 0 <= i < |ins| ==> Collect(ins, args, unwrap).value[i] == unwrap(args[ins[i]]).value
    decreases |ins|
  {
    if |ins| > 0 {
      var init := ins[..|ins| - 1];
      CollectElements(init, args, unwrap);
      assert forall i :: 0 <= i < |init| ==> init[i] == ins[i];
    }
  }

  /** Once a prefix of the inputs fails, the whole collection fails the same way. */
  lemma {:induction false} CollectPrefixFailure<T>(ins: seq<Value>, args: Kwargs, unwrap: Var -> Result<T, Failure>, i: nat)
    requires i <= |ins| && Collect(ins[..i], args, unwrap).Err?
    ensures Collect(ins, args, unwrap) == Collect(ins[..i], args, unwrap)
    decreases |ins| - i
  {
    if i < |ins| {
      assert ins[..i + 1][..i] == ins[..i];
      CollectPrefixFailure(ins, args, unwrap, i + 1);
    } else {
      assert ins[..i] == ins;
    }
  }

  /** With every argument a compile-time value, the tensor-list branch keeps
      every input, in order. */
  lemma {:induction false} CollectTensorsOfValues(ins: seq<Value>, args: Kwargs)
    requires forall i :: 0 <= i < |ins| ==> ins[i] in args && args[ins[i]].VarIValue?
    ensures CollectTensors(ins, args) == Collect(ins, args, (v: Var) => v.UnwrapToTensor())
    decreases |ins|
  {
    if |ins| > 0 {
      CollectTensorsOfValues(ins[..|ins| - 1], args);
    }
  }

  /** An all-constant list whose output is `int[]` evaluates to the int values of
      the inputs, one per input, in input order. */
  lemma IntListConstruct(n: Node, args: Kwargs)
    requires |n.outputs| == 1 && n.outputs[0].ty == ListType(IntType) && ConstTypesOnly(args)
    requires forall i :: 0 <= i < |n.inputs| ==> n.inputs[i] in args && args[n.inputs[i]].VarIValue? && args[n.inputs[i]].ivalue.IInt?
    ensures ListConstruct(n, args).Ok? && ListConstruct(n, args).value.Some?
    ensures var l := ListConstruct(n, args).value.value;
            l.IIntList? && |l.ints| == |n.inputs| &&
            forall i :: 0 <= i < |n.inputs| ==> args[n.inputs[i]] == VarIValue(IInt(l.ints[i]))
  {
    CollectElements(n.inputs, args, UnwrapInt);
  }

  /** The same for `bool[]` outputs. */
  lemma BoolListConstruct(n: Node, args: Kwargs)
    requires |n.outputs| == 1 && n.outputs[0].ty == ListType(BoolType) && ConstTypesOnly(args)
    requires forall i :: 0 <= i < |n.inputs| ==> n.inputs[i] in args && args[n.inputs[i]].VarIValue? && args[n.inputs[i]].ivalue.IBool?
    ensures ListConstruct(n, args).Ok? && ListConstruct(n, args).value.Some?
    ensures var l := ListConstruct(n, args).value.value;
            l.IBoolList? && |l.bools| == |n.inputs| &&
            forall i :: 0 <= i < |n.inputs| ==> args[n.inputs[i]] == VarIValue(IBool(l.bools[i]))
  {
    CollectElements(n.inputs, args, UnwrapBool);
  }

  /** A list of another element type (neither int, float, bool nor tensor) is a
      generic list of the inputs' values, in input order. */
  lemma GenericListConstruct(n: Node, args: Kwargs)
    requires |n.outputs| == 1 && n.outputs[0].ty.ListType? && ConstTypesOnly(args)
    requires n.outputs[0].ty.elem !in {IntType, FloatType, BoolType, TensorType}
    requires forall i :: 0 <= i < |n.inputs| ==> n.inputs[i] in args && args[n.inputs[i]].VarIValue?
    ensures ListConstruct(n, args).Ok? && ListConstruct(n, args).value.Some?
    ensures var l := ListConstruct(n, args).value.value;
            l == IGenericList(n.outputs[0].ty.elem, l.elems) && |l.elems| == |n.inputs| &&
            forall i :: 0 <= i < |n.inputs| ==> args[n.inputs[i]] == VarIValue(l.elems[i])
  {
    CollectElements(n.inputs, args, UnwrapIValue);
  }

  /** With some live tensor among the arguments, the result is a generic list
      with one element per input: element i is a boxed `TensorContainer` iff
      input i is a live tensor, and otherwise input i's tensor value. */
  lemma LiveListConstruct(n: Node, args: Kwargs)
    requires |n.outputs| == 1 && n.outputs[0].ty.ListType? && !ConstTypesOnly(args)
    requires forall i :: 0 <= i < |n.inputs| ==> n.inputs[i] in args && BoxElement(args[n.inputs[i]]).Ok?
    ensures ListConstruct(n, args).Ok? && ListConstruct(n, args).value.Some?
    ensures var l := ListConstruct(n, args).value.value;
            l.IGenericList? && l.elemType == n.outputs[0].ty.elem && |l.elems| == |n.inputs| &&
            forall i :: 0 <= i < |n.inputs| ==>
              (l.elems[i].ITensorContainer? <==> args[n.inputs[i]].VarITensor?) &&
              (args[n.inputs[i]].VarITensor? ==> l.elems[i] == ITensorContainer(args[n.inputs[i]].tensor)) &&
              (!args[n.inputs[i]].VarITensor? ==>
                 args[n.inputs[i]].VarIValue? && args[n.inputs[i]].ivalue.ITensorValue? &&
                 l.elems[i] == ITensorValue(args[n.inputs[i]].ivalue.t))
  {
    CollectElements(n.inputs, args, BoxElement);
  }

  /** An argument that is a constant but not a tensor makes the
      non-constant mode fail. */
  lemma LiveListRejectsNonTensor(n: Node, args: Kwargs, k: nat)
    requires |n.outputs| == 1 && n.outputs[0].ty.ListType? && !ConstTypesOnly(args)
    requires k < |n.inputs| && n.inputs[k] in args
    requires args[n.inputs[k]].VarIValue? && !args[n.inputs[k]].ivalue.ITensorValue?
    ensures ListConstruct(n, args).Err?
  {
    CollectElements(n.inputs, args, BoxElement);
  }

  /** The loop that fills a list with `reserve`/`emplace_back`. */
  method CollectLoop<T>(ins: seq<Value>, args: Kwargs, unwrap: Var -> Result<T, Failure>) returns (r: Result<seq<T>, Failure>)
    ensures r == Collect(ins, args, unwrap)
  {
    var list: seq<T> := [];
    var i := 0;
    while i < |ins|
      invariant 0 <= i <= |ins|
      invariant Collect(ins[..i], args, unwrap) == Ok(list)
    {
      assert ins[..i + 1][..i] == ins[..i];
      if ins[i] !in args {
        CollectPrefixFailure(ins, args, unwrap, i + 1);
        return Err(MissingArgument);
      }
      var x := unwrap(args[ins[i]]);
      if x.Err? {
        CollectPrefixFailure(ins, args, unwrap, i + 1);
        return Err(x.error);
      }
      list := list + [x.value];
      i := i + 1;
    }
    assert ins[..i] == ins;
    return Ok(list);
  }

  /** The tensor-list loop, which skips arguments that are not compile-time values. */
  method CollectTensorsLoop(ins: seq<Value>, args: Kwargs) returns (r: Result<seq<HostTensor>, Failure>)
    ensures r.Ok? ==> r == CollectTensors(ins, args)
    ensures r.Err? <==> CollectTensors(ins, args).Err?
  {
    var list: seq<HostTensor> := [];
    var i := 0;
    while i < |ins|
      invariant 0 <= i <= |ins|
      invariant CollectTensors(ins[..i], args) == Ok(list)
    {
      assert ins[..i + 1][..i] == ins[..i];
      if ins[i] !in args {
        CollectTensorsPrefixFailure(ins, args, i + 1);
        return Err(MissingArgument);
      }
      if args[ins[i]].VarIValue? {
        var t := args[ins[i]].UnwrapToTensor();
        if t.Err? {
          CollectTensorsPrefixFailure(ins, args, i + 1);
          return Err(t.error);
        }
        list := list + [t.value];
      }
      i := i + 1;
    }
    assert ins[..i] == ins;
    return Ok(list);
  }

  lemma {:induction false} CollectTensorsPrefixFailure(ins: seq<Value>, args: Kwargs, i: nat)
    requires i <= |ins| && CollectTensors(ins[..i], args).Err?
    ensures CollectTensors(ins, args).Err?
    decreases |ins| - i
  {
    if i < |ins| {
      assert ins[..i + 1][..i] == ins[..i];
      CollectTensorsPrefixFailure(ins, args, i + 1);
    } else {
      assert ins[..i] == ins;
    }
  }

  /** The `prim::ListConstruct` evaluator as the source runs it, one loop per branch. */
  method EvalListConstruct(n: Node, args: Kwargs) returns (r: EvalOutcome)
    ensures r.Ok? ==> r == ListConstruct(n, args)
    ensures r.Err? <==> ListConstruct(n, args).Err?
  {
    if |n.outputs| != 1 {
      return Err(NodeOutputCount);
    }
    var ty := n.outputs[0].ty;
    if !ty.ListType? {
      return Err(OutputTypeIsNotList);
    }
    var elem := ty.elem;
    if ConstTypesOnly(args) {
      if elem == IntType {
        var xs := CollectLoop(n.inputs, args, UnwrapInt);
        if xs.Err? { return Err(xs.error); }
        return Ok(Some(IIntList(xs.value)));
      } else if elem == FloatType {
        var xs := CollectLoop(n.inputs, args, UnwrapDouble);
        if xs.Err? { return Err(xs.error); }
        return Ok(Some(IDoubleList(xs.value)));
      } else if elem == BoolType {
        var xs := CollectLoop(n.inputs, args, UnwrapBool);
        if xs.Err? { return Err(xs.error); }
        return Ok(Some(IBoolList(xs.value)));
      } else if elem == TensorType {
        var ts := CollectTensorsLoop(n.inputs, args);
        if ts.Err? { return Err(ts.error); }
        return Ok(Some(ITensorList(ts.value)));
      } else {
        var vs := CollectLoop(n.inputs, args, UnwrapIValue);
        if vs.Err? { return Err(vs.error); }
        return Ok(Some(IGenericList(elem, vs.value)));
      }
    } else {
      var vs := CollectLoop(n.inputs, args, BoxElement);
      if vs.Err? { return Err(vs.error); }
      return Ok(Some(IGenericList(elem, vs.value)));
    }
  }

  // ---------------------------------------------------------------------------
  // prim::min and prim::max

  datatype Extremum = Minimum | Maximum

  /** The accumulator's start value: INT64_MAX for min, INT64_MIN for max. */
  function Identity(e: Extremum): int64 {
    if e.Minimum? then INT64_MAX as int64 else INT64_MIN as int64
  }

  /** `a` beats `b` for the extremum (strictly). */
  predicate Beats(e: Extremum, a: int64, b: int64) {
    if e.Minimum? then a < b else a > b
  }

  /** The single-list fold: start at the identity, replace the accumulator with
      every element that strictly beats it. */
  function RunningExtremum(e: Extremum, a: seq<int64>): (r: int64)
    ensures forall i :: 0 <= i < |a| ==> !Beats(e, a[i], r)
    ensures |a| > 0 ==> r in a
    ensures |a| == 0 ==> r == Identity(e)
    decreases |a|
  {
    if |a| == 0 then Identity(e)
    else
      var acc := RunningExtremum(e, a[..|a| - 1]);
      assert forall x :: x in a[..|a| - 1] ==> x in a;
      if Beats(e, a[|a| - 1], acc) then a[|a| - 1] else acc
  }

  /** The accumulator loop over an `int[]` argument. */
  method FoldIntList(e: Extremum, a: seq<int64>) returns (acc: int64)
    ensures acc == RunningExtremum(e, a)
  {
    acc := Identity(e);
    var i := 0;
    while i < |a|
      invariant 0 <= i <= |a|
      invariant acc == RunningExtremum(e, a[..i])
    {
      assert a[..i + 1][..i] == a[..i];
      if Beats(e, a[i], acc) {
        acc := a[i];
      }
      i := i + 1;
    }
    assert a[..i] == a;
  }

  /** `a < b ? a : b` (min) or `a > b ? a : b` (max) on two ints. */
  function PickInt(e: Extremum, a: int64, b: int64): (r: int64)
    ensures r == a || r == b
    ensures !Beats(e, a, r) && !Beats(e, b, r)
  {
    if Beats(e, a, b) then a else b
  }

  /** The same comparison once either operand is a double. */
  function PickReal(e: Extremum, a: real, b: real): (r: real)
    ensures r == a || r == b
    ensures e.Minimum? ==> r <= a && r <= b
    ensures e.Maximum? ==> r >= a && r >= b
  {
    if (if e.Minimum? then a < b else a > b) then a else b
  }

  /** The two-argument case after the first argument was found to be an int or a double. */
  function Pair(e: Extremum, x: IValue, y: IValue): (r: Result<IValue, Failure>)
    requires x.IInt? || x.IDouble?
    ensures r.Ok? <==> y.IInt? || y.IDouble?
    ensures x.IInt? && y.IInt? ==> r == Ok(IInt(PickInt(e, x.i, y.i)))
  {
    if x.IInt? && y.IInt? then Ok(IInt(PickInt(e, x.i, y.i)))
    else if x.IInt? && y.IDouble? then Ok(IDouble(PickReal(e, x.i as real, y.d)))
    else if x.IDouble? && y.IInt? then Ok(IDouble(PickReal(e, x.d, y.i as real)))
    else if x.IDouble? && y.IDouble? then Ok(IDouble(PickReal(e, x.d, y.d)))
    else Err(UnimplementedArgType)
  }

  /** `prim::min` / `prim::max`: one `int[]` argument, or two scalar arguments. */
  function EvalExtremum(e: Extremum, n: Node, args: Kwargs): (r: EvalOutcome)
    ensures |n.inputs| != 1 && |n.inputs| != 2 ==> r == Err(UnimplementedEvaluatorCase)
    ensures r.Ok? ==> r.value.Some? && (r.value.value.IInt? || r.value.value.IDouble?)
    ensures |n.inputs| == 1 && r.Ok? ==> r.value.value.IInt?
  {
    if |n.inputs| == 1 then
      var v :- At(args, n.inputs[0]);
      var a :- v.UnwrapToIntList();
      Ok(Some(IInt(RunningExtremum(e, a))))
    else if |n.inputs| == 2 then
      var va :- At(args, n.inputs[0]);
      var x :- va.AsIValue();
      if !(x.IInt? || x.IDouble?) then Err(UnimplementedArgType)
      else
        var vb :- At(args, n.inputs[1]);
        var y :- vb.AsIValue();
        var r :- Pair(e, x, y);
        Ok(Some(r))
    else Err(UnimplementedEvaluatorCase)
  }

  /** The evaluator as the source runs it: the list case loops. */
  method RunExtremum(e: Extremum, n: Node, args: Kwargs) returns (r: EvalOutcome)
    ensures r == EvalExtremum(e, n, args)
  {
    if |n.inputs| == 1 {
      if n.inputs[0] !in args { return Err(MissingArgument); }
      var a := args[n.inputs[0]].UnwrapToIntList();
      if a.Err? { return Err(a.error); }
      var m := FoldIntList(e, a.value);
      return Ok(Some(IInt(m)));
    }
    r := EvalExtremum(e, n, args);
  }

  function EvalMin(n: Node, args: Kwargs): EvalOutcome { EvalExtremum(Minimum, n, args) }
  function EvalMax(n: Node, args: Kwargs): EvalOutcome { EvalExtremum(Maximum, n, args) }

  /** Over an `int[]` argument, min is a lower bound of the list, one of its
      elements when it is non-empty, and INT64_MAX when it is empty. */
  lemma MinOfIntList(n: Node, args: Kwargs, a: seq<int64>)
    requires |n.inputs| == 1 && n.inputs[0] in args && args[n.inputs[0]] == VarIValue(IIntList(a))
    ensures EvalMin(n, args).Ok? && EvalMin(n, args).value.Some? && EvalMin(n, args).value.value.IInt?
    ensures var m := EvalMin(n, args).value.value.i;
            (forall i :: 0 <= i < |a| ==> m <= a[i]) &&
            (|a| > 0 ==> m in a) &&
            (|a| == 0 ==> m as int == INT64_MAX)
  {
  }

  /** Over an `int[]` argument, max is an upper bound of the list, one of its
      elements when it is non-empty, and INT64_MIN when it is empty. */
  lemma MaxOfIntList(n: Node, args: Kwargs, a: seq<int64>)
    requires |n.inputs| == 1 && n.inputs[0] in args && args[n.inputs[0]] == VarIValue(IIntList(a))
    ensures EvalMax(n, args).Ok? && EvalMax(n, args).value.Some? && EvalMax(n, args).value.value.IInt?
    ensures var m := EvalMax(n, args).value.value.i;
            (forall i :: 0 <= i < |a| ==> a[i] <= m) &&
            (|a| > 0 ==> m in a) &&
            (|a| == 0 ==> m as int == INT64_MIN)
  {
  }

  /** With two int arguments, min yields the smaller and max the larger, and
      either result is one of the two arguments. */
  lemma IntPair(n: Node, args: Kwargs, a: int64, b: int64)
    requires |n.inputs| == 2 && n.inputs[0] in args && n.inputs[1] in args
    requires args[n.inputs[0]] == VarIValue(IInt(a)) && args[n.inputs[1]] == VarIValue(IInt(b))
    ensures EvalMin(n, args) == Ok(Some(IInt(if a <= b then a else b)))
    ensures EvalMax(n, args) == Ok(Some(IInt(if a >= b then a else b)))
  {
  }

  /** Arity other than one or two is unsupported. */
  lemma ArityOutsideOneOrTwoFails(e: Extremum, n: Node, args: Kwargs)
    requires |n.inputs| != 1 && |n.inputs| != 2
    ensures EvalExtremum(e, n, args) == Err(UnimplementedEvaluatorCase)
  {
  }

  /** With two arguments, a first argument that is neither int nor double (a
      bool, for one) is unsupported. */
  lemma FirstArgumentMustBeNumber(e: Extremum, n: Node, args: Kwargs)
    requires |n.inputs| == 2 && n.inputs[0] in args && args[n.inputs[0]].VarIValue?
    requires !args[n.inputs[0]].ivalue.IInt? && !args[n.inputs[0]].ivalue.IDouble?
    ensures EvalExtremum(e, n, args) == Err(UnimplementedArgType)
  {
  }

  // ---------------------------------------------------------------------------
  // Registration

  const MinSchemas: seq<OperatorName> := [
    OperatorName("prim::min", "self_int"), OperatorName("prim::min", "bool"),
    OperatorName("prim::min", "int"), OperatorName("prim::min", "float"),
    OperatorName("prim::min", "int_float"), OperatorName("prim::min", "float_int")]

  const MaxSchemas: seq<OperatorName> := [
    OperatorName("prim::max", "self_int"), OperatorName("prim::max", "bool"),
    OperatorName("prim::max", "int"), OperatorName("prim::max", "float"),
    OperatorName("prim::max", "int_float"), OperatorName("prim::max", "float_int")]

  /** The `prim` registrations, in source order. */
  function PrimRegistrations(): seq<EvalRegistration> {
    [ EvalRegistration("prim::Constant", EvalConstant, NoOptions),
      EvalRegistration("prim::ListConstruct", ListConstruct, NoOptions),
      EvalRegistration("prim::min", EvalMin, WithValidSchemas(MinSchemas)),
      EvalRegistration("prim::max", EvalMax, WithValidSchemas(MaxSchemas)),
      EvalRegistration("prim::unchecked_cast", EvalUncheckedCast, NoOptions),
      EvalRegistration("prim::Uninitialized", EvalUninitialized, NoOptions),
      EvalRegistration("prim::RaiseException", EvalRaiseException, NoOptions) ]
  }

  /** The `prim` registrations name seven different kinds. */
  lemma PrimKindsDistinct()
    ensures DistinctKinds(PrimRegistrations())
  {
    var regs := PrimRegistrations();
    forall i, j | 0 <= i < j < |regs| ensures regs[i].kind != regs[j].kind {
      assert |regs[i].kind| != |regs[j].kind| || regs[i].kind[6] != regs[j].kind[6] || regs[i].kind[7] != regs[j].kind[7];
    }
  }

  /** Installing the `prim` registrations into an empty table succeeds. */
  lemma PrimRegistrationsInstall()
    ensures RegisterAll(map[], PrimRegistrations()).Ok?
    ensures var lut := RegisterAll(map[], PrimRegistrations()).value;
            "prim::min" in lut && lut["prim::min"].evaluator == EvalMin &&
            "prim::ListConstruct" in lut && lut["prim::ListConstruct"].evaluator == ListConstruct
  {
    var regs := PrimRegistrations();
    PrimKindsDistinct();
    RegisterAllDistinct(map[], regs);
    assert regs[2].kind == "prim::min" && regs[1].kind == "prim::ListConstruct";
  }

  /** The `prim::min.bool` overload passes the schema allow-list, yet the
      evaluator it selects rejects bool arguments. */
  lemma MinBoolOverloadSelectedButRejected(a: Value, b: Value, out: Value)
    requires a != b
    ensures var lut := RegisterAll(map[], PrimRegistrations()).value;
            var n := Node("prim::min", [a, b], [out], Some(OperatorName("prim::min", "bool")), None);
            var args := map[a := VarIValue(IBool(true)), b := VarIValue(IBool(false))];
            Selects(lut, n) && lut[n.kind].evaluator(n, args) == Err(UnimplementedArgType)
  {
    PrimRegistrationsInstall();
    assert OperatorName("prim::min", "bool") == MinSchemas[1];
  }

  /** Four int constants fold into the int list of those four values, in order. */
  lemma FourIntConstantsFold(n: Node, args: Kwargs)
    requires |n.inputs| == 4 && |n.outputs| == 1 && n.outputs[0].ty == ListType(IntType)
    requires args == map[n.inputs[0] := VarIValue(IInt(1)), n.inputs[1] := VarIValue(IInt(2)),
                         n.inputs[2] := VarIValue(IInt(3)), n.inputs[3] := VarIValue(IInt(4))]
    requires forall i, j :: 0 <= i < j < 4 ==> n.inputs[i] != n.inputs[j]
    ensures ListConstruct(n, args) == Ok(Some(IIntList([1, 2, 3, 4])))
  {
    IntListConstruct(n, args);
    var l := ListConstruct(n, args).value.value;
    assert args[n.inputs[0]] == VarIValue(IInt(1));
    assert args[n.inputs[1]] == VarIValue(IInt(2));
    assert args[n.inputs[2]] == VarIValue(IInt(3));
    assert args[n.inputs[3]] == VarIValue(IInt(4));
    assert l.ints == [1, 2, 3, 4];
  }
}
