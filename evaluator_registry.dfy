/** The evaluator registry: a table from operator kind to the evaluator that folds
    nodes of that kind at conversion time, with an optional output-type blacklist
    and an optional schema allow-list per registration. */
module EvaluatorRegistry {
  import opened Outcomes
  import opened JitIr

  /** What an evaluator yields: a constant, "not applicable" (`None`), or a failure. */
  type EvalOutcome = Result<Option<IValue>, Failure>

  type NodeEvaluator = (Node, Kwargs) -> EvalOutcome

  /** `EvalOptions`: `useOptions` is what `use()` reports, i.e. whether either
      filter was configured. */
  datatype EvalOptions = EvalOptions(
    useOptions: bool,
    blacklistedOutputTypes: set<TypeTag>,
    validSchemas: seq<OperatorName>)

  const NoOptions: EvalOptions := EvalOptions(false, {}, [])

  /** `EvalOptions().validSchemas(...)`. */
  function WithValidSchemas(schemas: seq<OperatorName>): (o: EvalOptions)
    ensures o.useOptions && o.validSchemas == schemas && o.blacklistedOutputTypes == {}
  {
    EvalOptions(true, {}, schemas)
  }

  datatype EvalRegistration = EvalRegistration(kind: Symbol, evaluator: NodeEvaluator, options: EvalOptions)

  /** True iff some output of the node has a blacklisted static type. */
  predicate HasBlacklistedOutput(outputs: seq<Value>, blacklist: set<TypeTag>) {
    exists i :: 0 <= i < |outputs| && outputs[i].ty in blacklist
  }

  /** The registry's answer for node `n`: the evaluator, `None` ("no evaluator"),
      or a failure when the allow-list needs a schema the node does not have. */
  function Selection(lut: map<Symbol, EvalRegistration>, n: Node): (r: Result<Option<NodeEvaluator>, Failure>)
    ensures n.kind !in lut ==> r == Ok(None)
    ensures r.Ok? && r.value.Some? ==> n.kind in lut && r.value.value == lut[n.kind].evaluator
    ensures r.Err? ==> r.error == SchemaNotRetrievable && n.schema.None?
  {
    if n.kind !in lut then Ok(None)
    else
      var reg := lut[n.kind];
      if !reg.options.useOptions then Ok(Some(reg.evaluator))
      else if HasBlacklistedOutput(n.outputs, reg.options.blacklistedOutputTypes) then Ok(None)
      else if |reg.options.validSchemas| == 0 then Ok(Some(reg.evaluator))
      else if n.schema.None? then Err(SchemaNotRetrievable)
      else if n.schema.value !in reg.options.validSchemas then Ok(None)
      else Ok(Some(reg.evaluator))
  }

  /** True iff the registry selects an evaluator for `n`. */
  predicate Selects(lut: map<Symbol, EvalRegistration>, n: Node) {
    Selection(lut, n).Ok? && Selection(lut, n).value.Some?
  }

  /** `FindInVec`: a linear scan with early return. */
  method FindInVec(names: seq<OperatorName>, target: OperatorName) returns (found: bool)
    ensures found <==> target in names
  {
    var i := 0;
    while i < |names|
      invariant 0 <= i <= |names|
      invariant forall j :: 0 <= j < i ==> names[j] != target
    {
      if names[i] == target {
        return true;
      }
      i := i + 1;
    }
    return false;
  }

  /** Registering every registration of `regs` in order, as a chain of
      `.evaluator(...)` calls does; the first duplicate kind aborts. */
  function RegisterAll(lut: map<Symbol, EvalRegistration>, regs: seq<EvalRegistration>): (r: Result<map<Symbol, EvalRegistration>, Failure>)
    ensures r.Ok? ==> forall k :: k in lut ==> k in r.value && r.value[k] == lut[k]
    ensures r.Ok? ==> forall i :: 0 <= i < |regs| ==> regs[i].kind !in lut && regs[i].kind in r.value
    ensures r.Err? ==> r.error == DuplicateEvaluator
    decreases |regs|
  {
    if |regs| == 0 then Ok(lut)
    else if regs[0].kind in lut then Err(DuplicateEvaluator)
    else
      assert forall i :: 1 <= i < |regs| ==> regs[i] == regs[1..][i - 1];
      RegisterAll(lut[regs[0].kind := regs[0]], regs[1..])
  }

  /** The kinds of a list of registrations are pairwise distinct. */
  predicate DistinctKinds(regs: seq<EvalRegistration>) {
    forall i, j :: 0 <= i < j < |regs| ==> regs[i].kind != regs[j].kind
  }

  /** Registering a list with distinct kinds, none of them already present,
      succeeds and installs each registration under its own kind. */
  lemma {:induction false} RegisterAllDistinct(lut: map<Symbol, EvalRegistration>, regs: seq<EvalRegistration>)
    requires DistinctKinds(regs)
    requires forall i :: 0 <= i < |regs| ==> regs[i].kind !in lut
    ensures RegisterAll(lut, regs).Ok?
    ensures forall i :: 0 <= i < |regs| ==>
              regs[i].kind in RegisterAll(lut, regs).value && RegisterAll(lut, regs).value[regs[i].kind] == regs[i]
    ensures forall k :: k in lut ==> k in RegisterAll(lut, regs).value && RegisterAll(lut, regs).value[k] == lut[k]
    decreases |regs|
  {
    if |regs| > 0 {
      var lut' := lut[regs[0].kind := regs[0]];
      forall i | 0 <= i < |regs[1..]| ensures regs[1..][i].kind !in lut' {
        assert regs[1..][i] == regs[i + 1];
      }
      assert DistinctKinds(regs[1..]) by {
        forall i, j | 0 <= i < j < |regs[1..]| ensures regs[1..][i].kind != regs[1..][j].kind {
          assert regs[1..][i] == regs[i + 1] && regs[1..][j] == regs[j + 1];
        }
      }
      RegisterAllDistinct(lut', regs[1..]);
      forall i | 0 <= i < |regs|
        ensures regs[i].kind in RegisterAll(lut, regs).value && RegisterAll(lut, regs).value[regs[i].kind] == regs[i]
      {
        if i > 0 { assert regs[i] == regs[1..][i - 1]; }
      }
    }
  }

  /** A list that names the same kind twice can never be registered in full. */
  lemma {:induction false} RegisterAllRejectsRepeatedKind(lut: map<Symbol, EvalRegistration>, regs: seq<EvalRegistration>, i: nat, j: nat)
    requires i < j < |regs| && regs[i].kind == regs[j].kind
    ensures RegisterAll(lut, regs).Err?
    decreases |regs|
  {
    if regs[0].kind !in lut {
      var lut' := lut[regs[0].kind := regs[0]];
      if i == 0 {
        RegisteredKindStaysRejected(lut', regs[1..], j - 1);
      } else {
        RegisterAllRejectsRepeatedKind(lut', regs[1..], i - 1, j - 1);
      }
    }
  }

  /** A kind already in the table makes a later registration of it fail. */
  lemma {:induction false} RegisteredKindStaysRejected(lut: map<Symbol, EvalRegistration>, regs: seq<EvalRegistration>, j: nat)
    requires j < |regs| && regs[j].kind in lut
    ensures RegisterAll(lut, regs).Err?
    decreases |regs|
  {
    if regs[0].kind !in lut {
      RegisteredKindStaysRejected(lut[regs[0].kind := regs[0]], regs[1..], j - 1);
    }
  }

  /** A node whose kind has no registration has no evaluator. */
  lemma UnknownKindSelectsNothing(lut: map<Symbol, EvalRegistration>, n: Node)
    requires n.kind !in lut
    ensures Selection(lut, n) == Ok(None)
  {
  }

  /** With the options in use, a blacklisted output type hides the evaluator,
      whatever the schema filter says. */
  lemma BlacklistedOutputSelectsNothing(lut: map<Symbol, EvalRegistration>, n: Node, k: nat)
    requires n.kind in lut && lut[n.kind].options.useOptions
    requires k < |n.outputs| && n.outputs[k].ty in lut[n.kind].options.blacklistedOutputTypes
    ensures Selection(lut, n) == Ok(None)
  {
  }

  /** The schema allow-list, when non-empty and no output is blacklisted:
      a missing schema is an error, an unlisted operator name yields no
      evaluator and a listed one yields the registered evaluator. */
  lemma SchemaFilter(lut: map<Symbol, EvalRegistration>, n: Node)
    requires n.kind in lut && lut[n.kind].options.useOptions && |lut[n.kind].options.validSchemas| > 0
    requires !HasBlacklistedOutput(n.outputs, lut[n.kind].options.blacklistedOutputTypes)
    ensures n.schema.None? ==> Selection(lut, n) == Err(SchemaNotRetrievable)
    ensures n.schema.Some? && n.schema.value !in lut[n.kind].options.validSchemas ==> Selection(lut, n) == Ok(None)
    ensures n.schema.Some? && n.schema.value in lut[n.kind].options.validSchemas ==> Selection(lut, n) == Ok(Some(lut[n.kind].evaluator))
  {
  }

  /** Whatever the registry selects is the evaluator registered for the node's kind. */
  lemma SelectedIsRegistered(lut: map<Symbol, EvalRegistration>, n: Node)
    requires Selects(lut, n)
    ensures n.kind in lut && Selection(lut, n).value.value == lut[n.kind].evaluator
  {
  }

  /** `NodeEvaluatorRegistry`: the process-wide table, as an explicit object. */
  class NodeEvaluatorRegistry {
    var lut: map<Symbol, EvalRegistration>

    constructor ()
      ensures lut == map[]
    {
      lut := map[];
    }

    /** `RegisterEvaluator`: a kind may be registered only once. */
    method RegisterEvaluator(kind: Symbol, reg: EvalRegistration) returns (r: Result<(), Failure>)
      modifies this
      ensures old(kind in lut) ==> r == Err(DuplicateEvaluator) && lut == old(lut)
      ensures old(kind !in lut) ==> r.Ok? && lut == old(lut)[kind := reg]
    {
      if kind in lut {
        return Err(DuplicateEvaluator);
      }
      lut := lut[kind := reg];
      return Ok(());
    }

    /** `register_node_evaluator(EvalRegistration)`: keyed by the registration's own kind. */
    method Register(reg: EvalRegistration) returns (r: Result<(), Failure>)
      modifies this
      ensures old(reg.kind in lut) ==> r.Err? && lut == old(lut)
      ensures old(reg.kind !in lut) ==> r.Ok? && lut == old(lut)[reg.kind := reg]
    {
      r := RegisterEvaluator(reg.kind, reg);
    }

    /** `RegisterNodeEvaluators().evaluator(r1).evaluator(r2)...`: registers in
        order and stops at the first duplicate (the thrown error aborts the chain). */
    method RegisterChain(regs: seq<EvalRegistration>) returns (r: Result<(), Failure>)
      modifies this
      ensures r.Ok? <==> RegisterAll(old(lut), regs).Ok?
      ensures r.Ok? ==> lut == RegisterAll(old(lut), regs).value
    {
      var i := 0;
      while i < |regs|
        invariant 0 <= i <= |regs|
        invariant RegisterAll(old(lut), regs) == RegisterAll(lut, regs[i..])
      {
        assert regs[i..][1..] == regs[i + 1..];
        var step := Register(regs[i]);
        if step.Err? {
          return Err(step.error);
        }
        i := i + 1;
      }
      return Ok(());
    }

    /** `FindEvaluator`: scans the outputs against the blacklist, then the schema
        against the allow-list. */
    method FindEvaluator(n: Node) returns (r: Result<Option<NodeEvaluator>, Failure>)
      ensures r == Selection(lut, n)
    {
      if n.kind !in lut {
        return Ok(None);
      }
      var reg := lut[n.kind];
      if reg.options.useOptions {
        var i := 0;
        while i < |n.outputs|
          invariant 0 <= i <= |n.outputs|
          invariant forall j :: 0 <= j < i ==> n.outputs[j].ty !in reg.options.blacklistedOutputTypes
        {
          if n.outputs[i].ty in reg.options.blacklistedOutputTypes {
            return Ok(None);
          }
          i := i + 1;
        }
        if |reg.options.validSchemas| != 0 {
          if n.schema.None? {
            return Err(SchemaNotRetrievable);
          }
          var listed := FindInVec(reg.options.validSchemas, n.schema.value);
          if !listed {
            return Ok(None);
          }
        }
      }
      return Ok(Some(reg.evaluator));
    }

    /** `GetEvaluator`: an error exactly when no evaluator is selected. */
    method GetEvaluator(n: Node) returns (r: Result<NodeEvaluator, Failure>)
      ensures r.Ok? <==> Selects(lut, n)
      ensures r.Ok? ==> r.value == Selection(lut, n).value.value
      ensures Selection(lut, n) == Ok(None) ==> r == Err(EvaluatorNotFound)
    {
      var found := FindEvaluator(n);
      if found.Err? {
        return Err(found.error);
      }
      if found.value.None? {
        return Err(EvaluatorNotFound);
      }
      return Ok(found.value.value);
    }

    /** `EvalAtConversionTime`: whether an evaluator is selected (the schema
        error of `FindEvaluator` propagates). */
    method EvalAtConversionTime(n: Node) returns (r: Result<bool, Failure>)
      ensures r.Ok? <==> Selection(lut, n).Ok?
      ensures r.Ok? ==> (r.value <==> Selects(lut, n))
    {
      var found := FindEvaluator(n);
      if found.Err? {
        return Err(found.error);
      }
      return Ok(found.value.Some?);
    }
  }

  /** `shouldEvalAtConversionTime`, with the global registry passed explicitly. */
  method ShouldEvalAtConversionTime(registry: NodeEvaluatorRegistry, n: Node) returns (r: Result<bool, Failure>)
    ensures r.Ok? <==> Selection(registry.lut, n).Ok?
    ensures r == Ok(true) <==> Selects(registry.lut, n)
  {
    r := registry.EvalAtConversionTime(n);
  }

  /** `EvalNode`: fails exactly when no evaluator is selected; otherwise it is
      the selected evaluator applied to the node and its arguments. */
  method EvalNode(registry: NodeEvaluatorRegistry, n: Node, args: Kwargs) returns (r: EvalOutcome)
    ensures !Selects(registry.lut, n) ==> r.Err?
    ensures Selects(registry.lut, n) ==> r == registry.lut[n.kind].evaluator(n, args)
  {
    var evaluator := registry.GetEvaluator(n);
    if evaluator.Err? {
      return Err(evaluator.error);
    }
    r := evaluator.value(n, args);
  }
}
