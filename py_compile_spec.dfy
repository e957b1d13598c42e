/** The Python front end's translation of a compile-spec dictionary into the
    bound `CompileSpec` object: input sizes to ranges, the precision and
    device arguments to the library's enums, and the optional fields one key
    at a time.  Python values are modelled as a closed datatype; the
    conversions the binding layer performs when a field is assigned are not
    part of this model. */
module PyCompileSpec {
  import opened Outcomes
  import API = CompileSpecApi

  /** The `torch.dtype` values the precision parser distinguishes. */
  datatype TorchDtype = TorchInt8 | TorchHalf | TorchFloat | OtherTorchDtype(name: string)

  /** The Python values the front end is handed. `PySize` is `torch.Size`,
      a subclass of `tuple`. */
  datatype PyObj =
    | PyInt(i: int)
    | PyBool(b: bool)
    | PyStr(s: string)
    | PyNone
    | PyList(items: seq<PyObj>)
    | PyTuple(items: seq<PyObj>)
    | PySize(items: seq<PyObj>)
    | PyDict(entries: map<string, PyObj>)
    | PyDtype(dtype: TorchDtype)
    | PyTorchDevice(deviceType: string)
    | PyDataType(dataType: API.ApiDataType)
    | PyDeviceType(device: API.ApiDeviceType)
    | PyCapability(capability: API.ApiCapability)
    | PyOther(typeName: string)

  /** The exceptions the front end raises; `KeyError(Some(k))` is a failed
      lookup of key `k`, `KeyError(None)` an explicit raise. */
  datatype PyError = TypeError | KeyError(key: Option<string>) | ValueError | AssertionError

  /** `isinstance(o, tuple)`. */
  predicate IsTuple(o: PyObj) {
    o.PyTuple? || o.PySize?
  }

  /** `_supported_input_size_type`: true for a size, tuple or list, `TypeError`
      for anything else. */
  function SupportedInputSizeType(o: PyObj): (r: Result<bool, PyError>)
    ensures r.Ok? <==> o.PyList? || IsTuple(o)
    ensures r.Ok? ==> r.value
    ensures r.Err? ==> r.error == TypeError
  {
    if o.PySize? then Ok(true)
    else if o.PyTuple? then Ok(true)
    else if o.PyList? then Ok(true)
    else Err(TypeError)
  }

  // ---------------------------------------------------------------------------
  // Input ranges

  /** A bound `InputRange` whose three fields were assigned these values. */
  datatype RangeSpec = RangeSpec(min: PyObj, opt: PyObj, max: PyObj)

  /** The `any(...)` guard: evaluated left to right, it stops at the first
      non-dictionary item that is not a supported size, whose check raises
      `TypeError`; the check itself never answers false. */
  function SizesCheck(sizes: seq<PyObj>): (r: Result<(), PyError>)
    ensures r.Ok? <==> forall i :: 0 <= i < |sizes| ==> sizes[i].PyDict? || sizes[i].PyList? || IsTuple(sizes[i])
    ensures r.Err? ==> r.error == TypeError
    decreases |sizes|
  {
    if |sizes| == 0 then Ok(())
    else if !sizes[0].PyDict? && SupportedInputSizeType(sizes[0]).Err? then Err(TypeError)
    else
      var rest := SizesCheck(sizes[1..]);
      assert forall i :: 1 <= i < |sizes| ==> sizes[i] == sizes[1..][i - 1];
      rest
  }

  function Lookup(d: map<string, PyObj>, key: string): (r: Result<PyObj, PyError>)
    ensures r.Ok? <==> key in d
    ensures r.Ok? ==> r.value == d[key]
    ensures r.Err? ==> r.error == KeyError(Some(key))
  {
    if key in d then Ok(d[key]) else Err(KeyError(Some(key)))
  }

  /** The keys the range branch tests, as written: `"min"` twice, never `"max"`. */
  const KeysAsWritten: seq<string> := ["min", "opt", "min"]

  /** The keys the range branch evidently means. */
  const RangeKeys: seq<string> := ["min", "opt", "max"]

  /** One item of the loop: a dictionary with the tested keys is read as
      `min`, `opt`, `max`; one with `"opt"` gives a static range; any other
      dictionary raises `KeyError`; a list is used as it is and a tuple as
      `list(i)`.  An item of no other kind gets past the guard. */
  function ParseItem(i: PyObj, keys: seq<string>): (r: Result<seq<RangeSpec>, PyError>)
    requires i.PyDict? || i.PyList? || IsTuple(i)
    ensures r.Ok? ==> |r.value| == 1
  {
    if i.PyDict? then
      var d := i.entries;
      if forall k :: k in keys ==> k in d then
        var mn :- Lookup(d, "min");
        var op :- Lookup(d, "opt");
        var mx :- Lookup(d, "max");
        Ok([RangeSpec(mn, op, mx)])
      else if "opt" in d then
        Ok([RangeSpec(d["opt"], d["opt"], d["opt"])])
      else
        Err(KeyError(None))
    else if i.PyList? then
      Ok([RangeSpec(i, i, i)])
    else
      var l := PyList(i.items);
      Ok([RangeSpec(l, l, l)])
  }

  /** The parsed ranges of all items, stopping at the first failure. */
  function ParseItems(sizes: seq<PyObj>, keys: seq<string>): (r: Result<seq<RangeSpec>, PyError>)
    requires forall i :: 0 <= i < |sizes| ==> sizes[i].PyDict? || sizes[i].PyList? || IsTuple(sizes[i])
    ensures r.Ok? ==> |r.value| == |sizes|
    decreases |sizes|
  {
    if |sizes| == 0 then Ok([])
    else
      var first :- ParseItem(sizes[0], keys);
      assert forall i :: 0 <= i < |sizes[1..]| ==> sizes[1..][i] == sizes[i + 1];
      var rest :- ParseItems(sizes[1..], keys);
      Ok(first + rest)
  }

  /** A successful parse parsed every item on its own, in order. */
  lemma {:induction false} ParseItemsPointwise(sizes: seq<PyObj>, keys: seq<string>)
    requires forall i :: 0 <= i < |sizes| ==> sizes[i].PyDict? || sizes[i].PyList? || IsTuple(sizes[i])
    requires ParseItems(sizes, keys).Ok?
    ensures forall i :: 0 <= i < |sizes| ==> ParseItem(sizes[i], keys) == Ok([ParseItems(sizes, keys).value[i]])
    decreases |sizes|
  {
    if |sizes| > 0 {
      var tl := sizes[1..];
      assert forall i :: 0 <= i < |tl| ==> tl[i] == sizes[i + 1];
      ParseItemsPointwise(tl, keys);
      var first := ParseItem(sizes[0], keys).value;
      var rest := ParseItems(tl, keys).value;
      assert ParseItems(sizes, keys).value == first + rest;
      forall i | 1 <= i < |sizes|
        ensures ParseItem(sizes[i], keys) == Ok([ParseItems(sizes, keys).value[i]])
      {
        assert (first + rest)[i] == rest[i - 1];
      }
    }
  }

  /** `_parse_input_ranges` with the given key test. */
  function ParseInputRangesWith(sizes: seq<PyObj>, keys: seq<string>): (r: Result<seq<RangeSpec>, PyError>)
    ensures SizesCheck(sizes).Err? ==> r == Err(TypeError)
    ensures r.Ok? ==> SizesCheck(sizes).Ok? && ParseItems(sizes, keys) == r
  {
    var _ :- SizesCheck(sizes);
    ParseItems(sizes, keys)
  }

  /** `_parse_input_ranges` as written: a parse that succeeds saw, in every
      dictionary, `"opt"`, and `"max"` whenever `"min"` was there. */
  function ParseInputRangesAsWritten(sizes: seq<PyObj>): (r: Result<seq<RangeSpec>, PyError>)
    ensures r.Ok? ==> |r.value| == |sizes|
    ensures r.Ok? ==> forall i :: 0 <= i < |sizes| && sizes[i].PyDict? ==>
      "opt" in sizes[i].entries && ("min" in sizes[i].entries ==> "max" in sizes[i].entries)
  {
    var r := ParseInputRangesWith(sizes, KeysAsWritten);
    assert "min" in KeysAsWritten && "opt" in KeysAsWritten;
    if r.Ok? then ParseItemsPointwise(sizes, KeysAsWritten); r else r
  }

  /** `_parse_input_ranges`: the guard, then the loop with the key test as
      written. */
  method ParseInputRanges(sizes: seq<PyObj>) returns (r: Result<seq<RangeSpec>, PyError>)
    ensures r == ParseInputRangesAsWritten(sizes)
  {
    var check := SizesCheck(sizes);
    if check.Err? {
      return Err(check.error);
    }
    var parsed: seq<RangeSpec> := [];
    var i := 0;
    assert sizes[0..] == sizes;
    assert ParseItems(sizes, KeysAsWritten).Ok? ==> [] + ParseItems(sizes, KeysAsWritten).value == ParseItems(sizes, KeysAsWritten).value;
    while i < |sizes|
      invariant 0 <= i <= |sizes|
      invariant ParseItems(sizes, KeysAsWritten) == Continue(parsed, ParseItems(sizes[i..], KeysAsWritten))
    {
      var item := ParseItem(sizes[i], KeysAsWritten);
      assert sizes[i..][0] == sizes[i] && sizes[i..][1..] == sizes[i + 1..];
      if item.Err? {
        return Err(item.error);
      }
      ghost var rest := ParseItems(sizes[i + 1..], KeysAsWritten);
      assert rest.Ok? ==> parsed + item.value + rest.value == parsed + (item.value + rest.value);
      parsed := parsed + item.value;
      i := i + 1;
    }
    assert sizes[i..] == [];
    assert parsed + [] == parsed;
    r := Ok(parsed);
  }

  /** The items parsed so far followed by the parse of the rest. */
  function Continue(parsed: seq<RangeSpec>, rest: Result<seq<RangeSpec>, PyError>): Result<seq<RangeSpec>, PyError> {
    if rest.Ok? then Ok(parsed + rest.value) else rest
  }

  /** A list is used as it is; a tuple or size as `list(i)`. */
  function AsList(o: PyObj): PyObj
    requires o.PyList? || IsTuple(o)
  {
    if o.PyList? then o else PyList(o.items)
  }

  /** Static sizes become static ranges, one per size and in order, whatever
      the key test. */
  lemma {:induction false} StaticSizesParse(sizes: seq<PyObj>, keys: seq<string>)
    requires forall i :: 0 <= i < |sizes| ==> sizes[i].PyList? || IsTuple(sizes[i])
    ensures var r := ParseInputRangesWith(sizes, keys);
      r.Ok? && |r.value| == |sizes| &&
      forall i :: 0 <= i < |sizes| ==> r.value[i] == RangeSpec(AsList(sizes[i]), AsList(sizes[i]), AsList(sizes[i]))
  {
    StaticItemsParse(sizes, keys);
  }

  lemma {:induction false} StaticItemsParse(sizes: seq<PyObj>, keys: seq<string>)
    requires forall i :: 0 <= i < |sizes| ==> sizes[i].PyList? || IsTuple(sizes[i])
    ensures var r := ParseItems(sizes, keys);
      r.Ok? && |r.value| == |sizes| &&
      forall i :: 0 <= i < |sizes| ==> r.value[i] == RangeSpec(AsList(sizes[i]), AsList(sizes[i]), AsList(sizes[i]))
    decreases |sizes|
  {
    if |sizes| > 0 {
      var tl := sizes[1..];
      assert forall i :: 0 <= i < |tl| ==> tl[i] == sizes[i + 1];
      StaticItemsParse(tl, keys);
      var r := ParseItems(sizes, keys);
      assert r.value == ParseItem(sizes[0], keys).value + ParseItems(tl, keys).value;
      forall i | 1 <= i < |sizes|
        ensures r.value[i] == RangeSpec(AsList(sizes[i]), AsList(sizes[i]), AsList(sizes[i]))
      {
        assert r.value[i] == ParseItems(tl, keys).value[i - 1];
      }
    }
  }

  /** A dictionary with `"opt"` but without `"min"` is a static range on
      `"opt"`, under either key test. */
  lemma OptOnlyDictIsStatic(d: map<string, PyObj>, keys: seq<string>)
    requires "opt" in d && "min" !in d && "min" in keys
    ensures ParseItem(PyDict(d), keys) == Ok([RangeSpec(d["opt"], d["opt"], d["opt"])])
  {
  }

  /** A dictionary with neither `"opt"` nor the tested keys raises `KeyError`. */
  lemma DictWithoutOptFails(d: map<string, PyObj>, keys: seq<string>)
    requires "opt" !in d && "opt" in keys
    ensures ParseItem(PyDict(d), keys) == Err(KeyError(None))
  {
  }

  /** The key test as written: a dictionary with `"min"` and `"opt"` but no
      `"max"` passes it and fails on the lookup of `"max"`, where the
      intended test would have used `"opt"` as a static range. */
  lemma KeyCheckMissesMax(a: PyObj, b: PyObj)
    ensures var d := map["min" := a, "opt" := b];
      ParseInputRangesAsWritten([PyDict(d)]) == Err(KeyError(Some("max"))) &&
      ParseInputRangesWith([PyDict(d)], RangeKeys) == Ok([RangeSpec(b, b, b)])
  {
    var d := map["min" := a, "opt" := b];
    assert forall k :: k in KeysAsWritten ==> k in d;
    assert "max" in RangeKeys && "max" !in d;
    assert [PyDict(d)][1..] == [];
    assert SizesCheck([PyDict(d)]) == Ok(());
    assert ParseItems([], RangeKeys) == Ok([]);
    assert [RangeSpec(b, b, b)] + [] == [RangeSpec(b, b, b)];
    assert ParseItems([PyDict(d)], RangeKeys) == Ok([RangeSpec(b, b, b)]);
    assert ParseInputRangesWith([PyDict(d)], RangeKeys) == Ok([RangeSpec(b, b, b)]);
    assert ParseItem(PyDict(d), RangeKeys) == Ok([RangeSpec(b, b, b)]);
    assert ParseItem(PyDict(d), KeysAsWritten) == Err(KeyError(Some("max")));
  }

  /** With the intended key test a dictionary item never fails on a lookup:
      all three keys give a full range, `"opt"` alone a static one, and
      anything else the explicit `KeyError`. */
  lemma RangeDictParse(d: map<string, PyObj>)
    ensures var r := ParseItem(PyDict(d), RangeKeys);
      ("min" in d && "opt" in d && "max" in d ==> r == Ok([RangeSpec(d["min"], d["opt"], d["max"])])) &&
      (!("min" in d && "opt" in d && "max" in d) && "opt" in d ==> r == Ok([RangeSpec(d["opt"], d["opt"], d["opt"])])) &&
      ("opt" !in d ==> r == Err(KeyError(None)))
  {
    if "min" in d && "opt" in d && "max" in d {
      assert forall k :: k in RangeKeys ==> k in d;
    } else if "opt" in d {
      assert !(forall k :: k in RangeKeys ==> k in d) by {
        assert "min" in RangeKeys && "max" in RangeKeys;
      }
    } else {
      assert "opt" in RangeKeys;
    }
  }

  /** The two key tests differ only on a dictionary with `"min"` and `"opt"`
      but without `"max"`. */
  lemma KeyTestsAgreeElsewhere(d: map<string, PyObj>)
    requires !("min" in d && "opt" in d && "max" !in d)
    ensures ParseItem(PyDict(d), KeysAsWritten) == ParseItem(PyDict(d), RangeKeys)
  {
    assert "min" in KeysAsWritten && "opt" in KeysAsWritten && "min" in RangeKeys && "opt" in RangeKeys && "max" in RangeKeys;
    assert (forall k :: k in KeysAsWritten ==> k in d) <==> "min" in d && "opt" in d;
    assert (forall k :: k in RangeKeys ==> k in d) <==> "min" in d && "opt" in d && "max" in d;
  }

  // ---------------------------------------------------------------------------
  // Precision and device

  /** `_parse_op_precision`. */
  function ParseOpPrecision(p: PyObj): (r: Result<API.ApiDataType, PyError>)
    ensures r.Ok? <==> (p.PyDtype? && !p.dtype.OtherTorchDtype?) || p.PyDataType?
    ensures r.Err? ==> r.error == TypeError
    ensures p == PyDtype(TorchInt8) ==> r == Ok(API.kChar)
    ensures p == PyDtype(TorchHalf) ==> r == Ok(API.kHalf)
    ensures p == PyDtype(TorchFloat) ==> r == Ok(API.kFloat)
    ensures p.PyDataType? ==> r == Ok(p.dataType)
  {
    if p.PyDtype? then
      match p.dtype
      case TorchInt8 => Ok(API.kChar)
      case TorchHalf => Ok(API.kHalf)
      case TorchFloat => Ok(API.kFloat)
      case OtherTorchDtype(_) => Err(TypeError)
    else if p.PyDataType? then Ok(p.dataType)
    else Err(TypeError)
  }

  /** The Torch dtype naming each library data type. */
  function TorchDtypeOf(d: API.ApiDataType): TorchDtype {
    match d
    case kChar => TorchInt8
    case kHalf => TorchHalf
    case kFloat => TorchFloat
  }

  /** Every data type is reached from its Torch dtype, and only from it. */
  lemma OpPrecisionRoundTrip(d: API.ApiDataType, t: TorchDtype)
    ensures ParseOpPrecision(PyDtype(TorchDtypeOf(d))) == Ok(d)
    ensures ParseOpPrecision(PyDtype(t)) == Ok(d) ==> t == TorchDtypeOf(d)
  {
  }

  /** `_parse_device_type` as written: the two `ValueError`s are constructed
      and dropped, so an unknown device or name falls off the end and yields
      `None`. */
  function ParseDeviceTypeAsWritten(d: PyObj): (r: Result<Option<API.ApiDeviceType>, PyError>)
    ensures r.Ok? <==> d.PyTorchDevice? || d.PyDeviceType? || d.PyStr?
    ensures r.Err? ==> r.error == TypeError
    ensures r == Ok(Some(API.kGPU)) <==>
      d == PyTorchDevice("cuda") || d == PyDeviceType(API.kGPU) || (d.PyStr? && d.s in {"gpu", "GPU"})
    ensures r == Ok(Some(API.kDLA)) <==> d == PyDeviceType(API.kDLA) || (d.PyStr? && d.s in {"dla", "DLA"})
    ensures r == Ok(None) <==>
      (d.PyTorchDevice? && d.deviceType != "cuda") || (d.PyStr? && d.s !in {"gpu", "GPU", "dla", "DLA"})
  {
    if d.PyTorchDevice? then
      if d.deviceType == "cuda" then Ok(Some(API.kGPU)) else Ok(None)
    else if d.PyDeviceType? then Ok(Some(d.device))
    else if d.PyStr? then
      if d.s == "gpu" || d.s == "GPU" then Ok(Some(API.kGPU))
      else if d.s == "dla" || d.s == "DLA" then Ok(Some(API.kDLA))
      else Ok(None)
    else Err(TypeError)
  }

  /** `_parse_device_type` with the `ValueError`s raised. */
  function ParseDeviceType(d: PyObj): (r: Result<API.ApiDeviceType, PyError>)
    ensures r.Ok? <==>
      (d.PyTorchDevice? && d.deviceType == "cuda") || d.PyDeviceType? ||
      (d.PyStr? && d.s in {"gpu", "GPU", "dla", "DLA"})
    ensures r == Ok(API.kDLA) <==> (d.PyStr? && d.s in {"dla", "DLA"}) || d == PyDeviceType(API.kDLA)
    ensures r.Err? ==> (r.error == TypeError <==> !(d.PyTorchDevice? || d.PyDeviceType? || d.PyStr?))
    ensures r.Err? ==> r.error == TypeError || r.error == ValueError
  {
    if d.PyTorchDevice? then
      if d.deviceType == "cuda" then Ok(API.kGPU) else Err(ValueError)
    else if d.PyDeviceType? then Ok(d.device)
    else if d.PyStr? then
      if d.s == "gpu" || d.s == "GPU" then Ok(API.kGPU)
      else if d.s == "dla" || d.s == "DLA" then Ok(API.kDLA)
      else Err(ValueError)
    else Err(TypeError)
  }

  /** The device parsers agree wherever the written one returns a device or
      raises; where it returns `None` the intended one raises `ValueError`. */
  lemma DeviceParsersAgree(d: PyObj)
    ensures ParseDeviceTypeAsWritten(d) == Ok(None) <==> ParseDeviceType(d) == Err(ValueError)
    ensures ParseDeviceTypeAsWritten(d).Ok? && ParseDeviceTypeAsWritten(d).value.Some? ==>
      ParseDeviceType(d) == Ok(ParseDeviceTypeAsWritten(d).value.value)
    ensures ParseDeviceTypeAsWritten(d).Err? <==> ParseDeviceType(d) == Err(TypeError)
  {
  }

  /** The dropped `ValueError`: a CPU device or an unknown name gives `None`. */
  lemma UnknownDeviceGivesNone()
    ensures ParseDeviceTypeAsWritten(PyTorchDevice("cpu")) == Ok(None)
    ensures ParseDeviceTypeAsWritten(PyStr("tpu")) == Ok(None)
    ensures ParseDeviceType(PyTorchDevice("cpu")) == Err(ValueError)
  {
  }

  // ---------------------------------------------------------------------------
  // The compile-spec dictionary

  /** The four fields asserted to be a `bool`. */
  datatype Flags = Flags(refit: bool, debug: bool, strictTypes: bool, allowGpuFallback: bool)

  /** The four fields asserted to be an `int`. */
  datatype Counts = Counts(numMinTimingIters: int, numAvgTimingIters: int, workspaceSize: int, maxBatchSize: int)

  /** The bound `CompileSpec` object's fields. */
  datatype SpecInfo = SpecInfo(
    inputRanges: seq<RangeSpec>,
    opPrecision: API.ApiDataType,
    flags: Flags,
    device: API.ApiDeviceType,
    capability: API.ApiCapability,
    counts: Counts)

  /** The items `for i in input_sizes` visits: a sequence's elements; an empty
      string or dictionary visits nothing, while the characters or keys of a
      non-empty one are strings, which the guard rejects with `TypeError`;
      anything else is not iterable. */
  function InputSizeItems(o: PyObj): (r: Result<seq<PyObj>, PyError>)
    ensures r.Err? ==> r.error == TypeError
    ensures r.Ok? && (o.PyList? || IsTuple(o)) ==> r.value == o.items
  {
    if o.PyList? || IsTuple(o) then Ok(o.items)
    else if o == PyStr("") || o == PyDict(map[]) then Ok([])
    else Err(TypeError)
  }

  /** An `assert isinstance(v, bool)` field. */
  function BoolEntry(spec: map<string, PyObj>, key: string, current: bool): (r: Result<bool, PyError>)
    ensures key !in spec ==> r == Ok(current)
    ensures key in spec ==> (r.Ok? <==> spec[key].PyBool?) && (r.Ok? ==> r.value == spec[key].b)
    ensures r.Err? ==> r.error == AssertionError
  {
    if key !in spec then Ok(current)
    else if spec[key].PyBool? then Ok(spec[key].b)
    else Err(AssertionError)
  }

  /** An `assert type(v) is int` field. */
  function IntEntry(spec: map<string, PyObj>, key: string, current: int): (r: Result<int, PyError>)
    ensures key !in spec ==> r == Ok(current)
    ensures key in spec ==> (r.Ok? <==> spec[key].PyInt?) && (r.Ok? ==> r.value == spec[key].i)
    ensures r.Err? ==> r.error == AssertionError
  {
    if key !in spec then Ok(current)
    else if spec[key].PyInt? then Ok(spec[key].i)
    else Err(AssertionError)
  }

  function FlagsOf(spec: map<string, PyObj>, d: Flags): Result<Flags, PyError> {
    var refit :- BoolEntry(spec, "refit", d.refit);
    var debug :- BoolEntry(spec, "debug", d.debug);
    var strict :- BoolEntry(spec, "strict_types", d.strictTypes);
    var fallback :- BoolEntry(spec, "allow_gpu_fallback", d.allowGpuFallback);
    Ok(Flags(refit, debug, strict, fallback))
  }

  function CountsOf(spec: map<string, PyObj>, d: Counts): Result<Counts, PyError> {
    var minIters :- IntEntry(spec, "num_min_timing_iters", d.numMinTimingIters);
    var avgIters :- IntEntry(spec, "num_avg_timing_iters", d.numAvgTimingIters);
    var workspace :- IntEntry(spec, "workspace_size", d.workspaceSize);
    var batch :- IntEntry(spec, "max_batch_size", d.maxBatchSize);
    Ok(Counts(minIters, avgIters, workspace, batch))
  }

  function CapabilityEntry(spec: map<string, PyObj>, current: API.ApiCapability): (r: Result<API.ApiCapability, PyError>)
    ensures "capability" !in spec ==> r == Ok(current)
    ensures "capability" in spec ==> (r.Ok? <==> spec["capability"].PyCapability?) &&
                                     (r.Ok? ==> r.value == spec["capability"].capability)
    ensures r.Err? ==> r.error == AssertionError
  {
    if "capability" !in spec then Ok(current)
    else if spec["capability"].PyCapability? then Ok(spec["capability"].capability)
    else Err(AssertionError)
  }

  /** Assigning the parsed device to the bound object's enum field: a device
      is stored, and the `None` the parser returns as written is refused with
      `TypeError`. */
  function AssignDevice(parsed: Option<API.ApiDeviceType>): (r: Result<API.ApiDeviceType, PyError>)
    ensures r.Ok? <==> parsed.Some?
    ensures r.Ok? ==> r.value == parsed.value
    ensures r.Err? ==> r.error == TypeError
  {
    if parsed.Some? then Ok(parsed.value) else Err(TypeError)
  }

  /** `_parse_compile_spec` as written: the fresh object's fields are
      `defaults`; each key present overrides its field, in the order the
      source reads them, with the range key test and the device parser of
      the source. */
  function CompileSpecOf(spec: map<string, PyObj>, defaults: SpecInfo): (r: Result<SpecInfo, PyError>)
    ensures "input_shapes" !in spec ==> r == Err(KeyError(None))
    ensures r.Ok? ==> "input_shapes" in spec && InputSizeItems(spec["input_shapes"]).Ok?
    ensures r.Ok? ==> |r.value.inputRanges| == |InputSizeItems(spec["input_shapes"]).value|
  {
    if "input_shapes" !in spec then Err(KeyError(None))
    else
      var items :- InputSizeItems(spec["input_shapes"]);
      var ranges :- ParseInputRangesAsWritten(items);
      var precision :- if "op_precision" in spec then ParseOpPrecision(spec["op_precision"]) else Ok(defaults.opPrecision);
      var flags :- FlagsOf(spec, defaults.flags);
      var device :- if "device_type" in spec then
                      var parsed :- ParseDeviceTypeAsWritten(spec["device_type"]);
                      AssignDevice(parsed)
                    else Ok(defaults.device);
      var capability :- CapabilityEntry(spec, defaults.capability);
      var counts :- CountsOf(spec, defaults.counts);
      Ok(SpecInfo(ranges, precision, flags, device, capability, counts))
  }

  /** The statements of `_parse_compile_spec`, one key at a time. */
  method ParseCompileSpec(spec: map<string, PyObj>, defaults: SpecInfo) returns (r: Result<SpecInfo, PyError>)
    ensures r == CompileSpecOf(spec, defaults)
  {
    if "input_shapes" !in spec {
      return Err(KeyError(None));
    }
    var items := InputSizeItems(spec["input_shapes"]);
    if items.Err? {
      return Err(items.error);
    }
    var ranges := ParseInputRanges(items.value);
    if ranges.Err? {
      return Err(ranges.error);
    }
    var precision := defaults.opPrecision;
    if "op_precision" in spec {
      var parsed := ParseOpPrecision(spec["op_precision"]);
      if parsed.Err? {
        return Err(parsed.error);
      }
      precision := parsed.value;
    }
    var flags := ParseFlags(spec, defaults.flags);
    if flags.Err? {
      return Err(flags.error);
    }
    var device := defaults.device;
    if "device_type" in spec {
      var parsed := ParseDeviceTypeAsWritten(spec["device_type"]);
      if parsed.Err? {
        return Err(parsed.error);
      }
      var stored := AssignDevice(parsed.value);
      if stored.Err? {
        return Err(stored.error);
      }
      device := stored.value;
    }
    var capability := defaults.capability;
    if "capability" in spec {
      if !spec["capability"].PyCapability? {
        return Err(AssertionError);
      }
      capability := spec["capability"].capability;
    }
    var counts := ParseCounts(spec, defaults.counts);
    if counts.Err? {
      return Err(counts.error);
    }
    r := Ok(SpecInfo(ranges.value, precision, flags.value, device, capability, counts.value));
  }

  /** The four boolean keys in source order, each asserted to be a `bool`. */
  method ParseFlags(spec: map<string, PyObj>, d: Flags) returns (r: Result<Flags, PyError>)
    ensures r == FlagsOf(spec, d)
  {
    var vRefit := BoolEntry(spec, "refit", d.refit);
    if vRefit.Err? {
      return Err(vRefit.error);
    }
    var vDebug := BoolEntry(spec, "debug", d.debug);
    if vDebug.Err? {
      return Err(vDebug.error);
    }
    var vStrictTypes := BoolEntry(spec, "strict_types", d.strictTypes);
    if vStrictTypes.Err? {
      return Err(vStrictTypes.error);
    }
    var vAllowGpuFallback := BoolEntry(spec, "allow_gpu_fallback", d.allowGpuFallback);
    if vAllowGpuFallback.Err? {
      return Err(vAllowGpuFallback.error);
    }
    r := Ok(Flags(vRefit.value, vDebug.value, vStrictTypes.value, vAllowGpuFallback.value));
  }

  /** The four integer keys in source order, each asserted to be an `int`. */
  method ParseCounts(spec: map<string, PyObj>, d: Counts) returns (r: Result<Counts, PyError>)
    ensures r == CountsOf(spec, d)
  {
    var vNumMinTimingIters := IntEntry(spec, "num_min_timing_iters", d.numMinTimingIters);
    if vNumMinTimingIters.Err? {
      return Err(vNumMinTimingIters.error);
    }
    var vNumAvgTimingIters := IntEntry(spec, "num_avg_timing_iters", d.numAvgTimingIters);
    if vNumAvgTimingIters.Err? {
      return Err(vNumAvgTimingIters.error);
    }
    var vWorkspaceSize := IntEntry(spec, "workspace_size", d.workspaceSize);
    if vWorkspaceSize.Err? {
      return Err(vWorkspaceSize.error);
    }
    var vMaxBatchSize := IntEntry(spec, "max_batch_size", d.maxBatchSize);
    if vMaxBatchSize.Err? {
      return Err(vMaxBatchSize.error);
    }
    r := Ok(Counts(vNumMinTimingIters.value, vNumAvgTimingIters.value, vWorkspaceSize.value, vMaxBatchSize.value));
  }

  /** Each boolean field comes from its key when present, else from the
      default; a present key that is not a `bool` fails the assertion. */
  lemma FlagsFromKeys(spec: map<string, PyObj>, d: Flags)
    ensures var r := FlagsOf(spec, d);
      (r.Ok? <==> forall k :: k in {"refit", "debug", "strict_types", "allow_gpu_fallback"} && k in spec ==> spec[k].PyBool?) &&
      (r.Err? ==> r.error == AssertionError) &&
      (r.Ok? ==>
        r.value.refit == (if "refit" in spec then spec["refit"].b else d.refit) &&
        r.value.debug == (if "debug" in spec then spec["debug"].b else d.debug) &&
        r.value.strictTypes == (if "strict_types" in spec then spec["strict_types"].b else d.strictTypes) &&
        r.value.allowGpuFallback == (if "allow_gpu_fallback" in spec then spec["allow_gpu_fallback"].b else d.allowGpuFallback))
  {
    var keys := {"refit", "debug", "strict_types", "allow_gpu_fallback"};
    if FlagsOf(spec, d).Err? {
      var k :| k in keys && k in spec && !spec[k].PyBool?;
    }
  }

  /** Each integer field comes from its key when present, else from the
      default; a present key that is not an `int` fails the assertion. */
  lemma CountsFromKeys(spec: map<string, PyObj>, d: Counts)
    ensures var r := CountsOf(spec, d);
      (r.Ok? <==> forall k :: k in {"num_min_timing_iters", "num_avg_timing_iters", "workspace_size", "max_batch_size"} && k in spec ==> spec[k].PyInt?) &&
      (r.Err? ==> r.error == AssertionError) &&
      (r.Ok? ==>
        r.value.numMinTimingIters == (if "num_min_timing_iters" in spec then spec["num_min_timing_iters"].i else d.numMinTimingIters) &&
        r.value.numAvgTimingIters == (if "num_avg_timing_iters" in spec then spec["num_avg_timing_iters"].i else d.numAvgTimingIters) &&
        r.value.workspaceSize == (if "workspace_size" in spec then spec["workspace_size"].i else d.workspaceSize) &&
        r.value.maxBatchSize == (if "max_batch_size" in spec then spec["max_batch_size"].i else d.maxBatchSize))
  {
  }

  /** Without `"input_shapes"` the parse raises `KeyError`; with it, a parsed
      object takes the precision, device and capability from their keys when
      present and from the defaults otherwise, and its flags and counts are
      those parsed from the same dictionary. */
  lemma CompileSpecFields(spec: map<string, PyObj>, defaults: SpecInfo)
    ensures "input_shapes" !in spec ==> CompileSpecOf(spec, defaults) == Err(KeyError(None))
    ensures var r := CompileSpecOf(spec, defaults);
      r.Ok? ==>
        "input_shapes" in spec &&
        r.value.inputRanges == ParseInputRangesAsWritten(InputSizeItems(spec["input_shapes"]).value).value &&
        r.value.opPrecision == (if "op_precision" in spec then ParseOpPrecision(spec["op_precision"]).value else defaults.opPrecision) &&
        r.value.flags == FlagsOf(spec, defaults.flags).value &&
        r.value.device == (if "device_type" in spec then ParseDeviceTypeAsWritten(spec["device_type"]).value.value else defaults.device) &&
        r.value.capability == (if "capability" in spec then spec["capability"].capability else defaults.capability) &&
        r.value.counts == CountsOf(spec, defaults.counts).value
  {
  }

  /** A dictionary holding only static input shapes leaves every other field
      at its default. */
  lemma OnlyShapesKeepsDefaults(sizes: seq<PyObj>, defaults: SpecInfo)
    requires forall i :: 0 <= i < |sizes| ==> sizes[i].PyList? || IsTuple(sizes[i])
    ensures var r := CompileSpecOf(map["input_shapes" := PyList(sizes)], defaults);
      r.Ok? && r.value == defaults.(inputRanges := r.value.inputRanges) && |r.value.inputRanges| == |sizes|
  {
    StaticSizesParse(sizes, KeysAsWritten);
  }

  /** As written, a `{"min", "opt"}` shape makes the whole parse raise
      `KeyError('max')`. */
  lemma MinOptShapeRaisesKeyError(a: PyObj, b: PyObj, defaults: SpecInfo)
    ensures var shape := PyDict(map["min" := a, "opt" := b]);
      CompileSpecOf(map["input_shapes" := PyList([shape])], defaults) == Err(KeyError(Some("max")))
  {
    KeyCheckMissesMax(a, b);
  }

  /** As written, a CPU device gets past the device parser as `None`, and the
      parse fails only on the assignment, with `TypeError` instead of the
      `ValueError` the parser meant to raise. */
  lemma CpuDeviceFailsOnAssignment(defaults: SpecInfo)
    ensures var spec := map["input_shapes" := PyList([]), "device_type" := PyTorchDevice("cpu")];
      CompileSpecOf(spec, defaults) == Err(TypeError)
  {
    var spec := map["input_shapes" := PyList([]), "device_type" := PyTorchDevice("cpu")];
    assert "op_precision" !in spec && "capability" !in spec;
    FlagsFromKeys(spec, defaults.flags);
    assert ParseInputRangesAsWritten([]) == Ok([]);
  }
}
