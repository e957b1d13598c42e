/** The lowering pass that maps `aten::conv2d` onto the general
    `aten::_convolution` operator the converters handle: the missing
    arguments are supplied by two new constants (`false` for the transposed,
    benchmark, deterministic and cudnn flags, `[0, 0]` for the output
    padding). */
module Conv2dToConvolution {
  import opened Outcomes
  import opened JitIr
  import opened SubgraphRewrite

  const FlagsOff := TemplateNode("prim::Constant", [], 0, Some(IBool(false)))
  const NoOutputPadding := TemplateNode("prim::Constant", [], 1, Some(IIntList([0, 0])))
  const Convolution := TemplateNode("aten::_convolution",
    [PatternInput(0), PatternInput(1), PatternInput(2), PatternInput(3), PatternInput(4), PatternInput(5),
     Fresh(0), Fresh(1), PatternInput(6), Fresh(0), Fresh(0), Fresh(0)], 2, None)

  /** `aten::conv2d(%x, %w, %b, %s, %p, %d, %g)` replaced by the two constants
      and `aten::_convolution`, whose output takes the place of the old one. */
  const Conv2dRule := Rule("aten::conv2d", 7, [FlagsOff, NoOutputPadding, Convolution], Fresh(2), 3)

  lemma Conv2dRuleWellFormed()
    ensures WellFormedRule(Conv2dRule)
  {
    assert forall r :: r in Convolution.inputs ==> RefInRange(Conv2dRule, r);
  }

  /** `runOnGraph` with the conv2d pattern. */
  function Conv2dToConvolutionPass(g: GraphIr): (r: GraphIr)
    ensures forall j :: 0 <= j < |r.nodes| ==> !Matches(Conv2dRule, r.nodes[j])
  {
    Conv2dRuleWellFormed();
    RewriteLeavesNoMatch(g.nodes, Conv2dRule, map[], g.nextId, Conv2dRule);
    assert RunOnGraph(g, Conv2dRule).nodes == Rewritten(g.nodes, Conv2dRule, map[], g.nextId);
    RunOnGraph(g, Conv2dRule)
  }

  /** The pass applied to the graph object in place. */
  method RunConv2dToConvolution(graph: Graph)
    modifies graph
    ensures graph.State() == Conv2dToConvolutionPass(old(graph.State()))
  {
    Conv2dRuleWellFormed();
    graph.RunRewrite(Conv2dRule);
  }

  /** What one matched conv2d node becomes, value ids numbered from `next`. */
  lemma ConvolutionInstance(n: IrNode, next: nat)
    requires Matches(Conv2dRule, n)
    ensures WellFormedRule(Conv2dRule)
    ensures var x := n.inputs;
      Instantiate(Conv2dRule, Conv2dRule.replacement, n, next) ==
      [IrNode("prim::Constant", [], [next], Some(IBool(false))),
       IrNode("prim::Constant", [], [next + 1], Some(IIntList([0, 0]))),
       IrNode("aten::_convolution",
              [x[0], x[1], x[2], x[3], x[4], x[5], next, next + 1, x[6], next, next, next],
              [next + 2], None)]
    ensures Resolve(Conv2dRule, Conv2dRule.result, n, next) == next + 2
  {
    Conv2dRuleWellFormed();
    var x := n.inputs;
    var ts := Conv2dRule.replacement;
    var inst := Instantiate(Conv2dRule, ts, n, next);
    InstantiateElement(Conv2dRule, ts, n, next, 0);
    InstantiateElement(Conv2dRule, ts, n, next, 1);
    InstantiateElement(Conv2dRule, ts, n, next, 2);
    assert ResolveAll(Conv2dRule, [], n, next) == [];
    var ins := ResolveAll(Conv2dRule, Convolution.inputs, n, next);
    assert ins == [x[0], x[1], x[2], x[3], x[4], x[5], next, next + 1, x[6], next, next, next] by {
      ConvolutionArguments(n, next);
    }
  }

  /** The arguments `aten::_convolution` receives: the seven pattern inputs
      in their places, `false` as the transposed, benchmark, deterministic and
      cudnn flags, and `[0, 0]` as the output padding. */
  function ConvolutionArgument(x: seq<ValueId>, next: nat, i: nat): ValueId
    requires |x| == 7 && i < 12
  {
    if i < 6 then x[i]
    else if i == 7 then next + 1
    else if i == 8 then x[6]
    else next
  }

  lemma ConvolutionArgumentAt(n: IrNode, next: nat, i: nat)
    requires Matches(Conv2dRule, n) && i < 12
    ensures forall r :: r in Convolution.inputs ==> RefInRange(Conv2dRule, r)
    ensures ResolveAll(Conv2dRule, Convolution.inputs, n, next)[i] == ConvolutionArgument(n.inputs, next, i)
  {
    var refs := Convolution.inputs;
    if i < 6 {
      assert refs[i] == PatternInput(i);
    } else if i == 6 {
      assert refs[i] == Fresh(0);
    } else if i == 7 {
      assert refs[i] == Fresh(1);
    } else if i == 8 {
      assert refs[i] == PatternInput(6);
    } else {
      assert refs[i] == Fresh(0);
    }
  }

  lemma ConvolutionArguments(n: IrNode, next: nat)
    requires Matches(Conv2dRule, n)
    ensures forall r :: r in Convolution.inputs ==> RefInRange(Conv2dRule, r)
    ensures var x := n.inputs;
      ResolveAll(Conv2dRule, Convolution.inputs, n, next) ==
      [x[0], x[1], x[2], x[3], x[4], x[5], next, next + 1, x[6], next, next, next]
  {
    var x := n.inputs;
    var ins := ResolveAll(Conv2dRule, Convolution.inputs, n, next);
    var expected := [x[0], x[1], x[2], x[3], x[4], x[5], next, next + 1, x[6], next, next, next];
    forall i | 0 <= i < 12 ensures ins[i] == expected[i] {
      ConvolutionArgumentAt(n, next, i);
    }
  }

  function CountKind(ns: seq<IrNode>, kind: string): nat
    decreases |ns|
  {
    if |ns| == 0 then 0 else (if ns[0].kind == kind then 1 else 0) + CountKind(ns[1..], kind)
  }

  function CountMatches(ns: seq<IrNode>): nat
    decreases |ns|
  {
    if |ns| == 0 then 0 else (if Matches(Conv2dRule, ns[0]) then 1 else 0) + CountMatches(ns[1..])
  }

  lemma {:induction false} CountKindAppend(a: seq<IrNode>, b: seq<IrNode>, kind: string)
    ensures CountKind(a + b, kind) == CountKind(a, kind) + CountKind(b, kind)
    decreases |a|
  {
    if |a| > 0 {
      assert (a + b)[1..] == a[1..] + b;
      CountKindAppend(a[1..], b, kind);
    } else {
      assert a + b == b;
    }
  }

  /** Each matched conv2d becomes exactly one `aten::_convolution` and two
      constants; every other node is kept. */
  lemma {:induction false} RewriteCounts(ns: seq<IrNode>, s: Subst, next: nat)
    requires WellFormedRule(Conv2dRule)
    ensures CountKind(Rewritten(ns, Conv2dRule, s, next), "aten::_convolution") ==
            CountKind(ns, "aten::_convolution") + CountMatches(ns)
    ensures |Rewritten(ns, Conv2dRule, s, next)| == |ns| + 2 * CountMatches(ns)
    decreases |ns|
  {
    if |ns| > 0 {
      var n := RenameNode(ns[0], s);
      if Matches(Conv2dRule, n) {
        var next1 := next + Conv2dRule.freshCount;
        var s1 := s[n.outputs[0] := Resolve(Conv2dRule, Conv2dRule.result, n, next)];
        RewriteCounts(ns[1..], s1, next1);
        var inst := Instantiate(Conv2dRule, Conv2dRule.replacement, n, next);
        InstanceCounts(n, next);
        CountKindAppend(inst, Rewritten(ns[1..], Conv2dRule, s1, next1), "aten::_convolution");
      } else {
        RewriteCounts(ns[1..], s, next);
        CountKindAppend([n], Rewritten(ns[1..], Conv2dRule, s, next), "aten::_convolution");
        assert CountKind([n], "aten::_convolution") == CountKind([ns[0]], "aten::_convolution");
      }
    }
  }

  /** One instance holds three nodes, exactly one of them `aten::_convolution`. */
  lemma InstanceCounts(n: IrNode, next: nat)
    requires Matches(Conv2dRule, n)
    ensures var inst := Instantiate(Conv2dRule, Conv2dRule.replacement, n, next);
      |inst| == 3 && CountKind(inst, "aten::_convolution") == 1
  {
    ConvolutionInstance(n, next);
    var inst := Instantiate(Conv2dRule, Conv2dRule.replacement, n, next);
    var k := "aten::_convolution";
    assert inst[0].kind != k && inst[1].kind != k && inst[2].kind == k;
    assert inst[2..][1..] == [];
    assert CountKind(inst[2..], k) == 1;
    assert inst[1..][1..] == inst[2..];
    assert CountKind(inst[1..], k) == 1;
  }

  /** The `aten::_convolution` count of the graph grows by the number of
      conv2d matches, and two constants come with each. */
  lemma PassCounts(g: GraphIr)
    ensures CountKind(Conv2dToConvolutionPass(g).nodes, "aten::_convolution") ==
            CountKind(g.nodes, "aten::_convolution") + CountMatches(g.nodes)
    ensures |Conv2dToConvolutionPass(g).nodes| == |g.nodes| + 2 * CountMatches(g.nodes)
  {
    Conv2dRuleWellFormed();
    RewriteCounts(g.nodes, map[], g.nextId);
  }

  /** Running the pass on its own output changes nothing. */
  lemma Conv2dToConvolutionIdempotent(g: GraphIr)
    ensures Conv2dToConvolutionPass(Conv2dToConvolutionPass(g)) == Conv2dToConvolutionPass(g)
  {
    Conv2dRuleWellFormed();
    RunWithoutMatch(Conv2dToConvolutionPass(g), Conv2dRule);
  }

  /** In SSA form every node that is not a conv2d stays where it was, with
      only its uses redirected, and each conv2d is replaced in place by its
      three new nodes. */
  lemma Conv2dReplacedInPlace(g: GraphIr)
    requires Ssa(g.nodes)
    ensures WellFormedRule(Conv2dRule)
    ensures var s := Rewrite(g.nodes, Conv2dRule, map[], g.nextId).1;
      Conv2dToConvolutionPass(g).nodes == Expanded(g.nodes, Conv2dRule, s, g.nextId)
  {
    Conv2dRuleWellFormed();
    RewriteExpands(g.nodes, Conv2dRule, map[], g.nextId);
  }

  /** `ns[j]` is an `aten::_convolution` with the arguments a conv2d with
      inputs `x` receives and with output `c`, right after the two constants
      `c - 2` (`false`) and `c - 1` (`[0, 0]`) it reads. */
  predicate ConvolutionAt(ns: seq<IrNode>, j: int, x: seq<ValueId>, c: nat) {
    2 <= j < |ns| && |x| == 7 && 2 <= c &&
    ns[j - 2] == IrNode("prim::Constant", [], [c - 2], Some(IBool(false))) &&
    ns[j - 1] == IrNode("prim::Constant", [], [c - 1], Some(IIntList([0, 0]))) &&
    ns[j] == IrNode("aten::_convolution",
                    [x[0], x[1], x[2], x[3], x[4], x[5], c - 2, c - 1, x[6], c - 2, c - 2, c - 2],
                    [c], None)
  }

  lemma ConvolutionAtShift(front: seq<IrNode>, ns: seq<IrNode>, j: int, x: seq<ValueId>, c: nat)
    requires ConvolutionAt(ns, j, x, c)
    ensures ConvolutionAt(front + ns, j + |front|, x, c)
  {
    var k := j + |front|;
    assert (front + ns)[k - 2] == ns[j - 2] && (front + ns)[k - 1] == ns[j - 1] && (front + ns)[k] == ns[j];
  }

  /** In SSA form each matched conv2d leaves an `aten::_convolution` (after
      its two constants) in the result, whose output is where the final
      redirection sends the conv2d's output and whose arguments are the
      conv2d's redirected inputs. */
  lemma {:induction false} RewriteBuildsConvolution(ns: seq<IrNode>, s: Subst, next: nat)
    requires WellFormedRule(Conv2dRule) && Ssa(ns)
    ensures var r := Rewrite(ns, Conv2dRule, s, next);
      forall i :: 0 <= i < |ns| && Matches(Conv2dRule, ns[i]) ==>
        exists j :: ConvolutionAt(r.0, j, RenameNode(ns[i], r.1).inputs, Rename(ns[i].outputs[0], r.1))
    decreases |ns|
  {
    if |ns| > 0 {
      SsaSuffix(ns);
      var r := Rewrite(ns, Conv2dRule, s, next);
      var st := Step(ns[0], Conv2dRule, s, next);
      var rest := Rewrite(ns[1..], Conv2dRule, st.1, st.2);
      RewriteUnfold(ns, Conv2dRule, s, next);
      RewriteBuildsConvolution(ns[1..], st.1, st.2);
      forall i | 1 <= i < |ns| && Matches(Conv2dRule, ns[i])
        ensures exists j :: ConvolutionAt(r.0, j, RenameNode(ns[i], r.1).inputs, Rename(ns[i].outputs[0], r.1))
      {
        assert ns[1..][i - 1] == ns[i];
        var x, c := RenameNode(ns[i], r.1).inputs, Rename(ns[i].outputs[0], r.1);
        var j :| ConvolutionAt(rest.0, j, x, c);
        ConvolutionAtShift(st.0, rest.0, j, x, c);
      }
      if Matches(Conv2dRule, ns[0]) {
        FirstConvolution(ns, s, next);
      }
    }
  }

  /** The first node, when it is a conv2d, becomes the three nodes at the front. */
  lemma FirstConvolution(ns: seq<IrNode>, s: Subst, next: nat)
    requires WellFormedRule(Conv2dRule) && Ssa(ns) && |ns| > 0 && Matches(Conv2dRule, ns[0])
    ensures var r := Rewrite(ns, Conv2dRule, s, next);
      ConvolutionAt(r.0, 2, RenameNode(ns[0], r.1).inputs, Rename(ns[0].outputs[0], r.1))
  {
    var n := RenameNode(ns[0], s);
    assert Matches(Conv2dRule, n);
    var o := ns[0].outputs[0];
    var s1 := s[o := next + 2];
    var next1 := next + 3;
    ConvolutionInstance(n, next);
    RewriteUnfold(ns, Conv2dRule, s, next);
    assert Step(ns[0], Conv2dRule, s, next) == (Instantiate(Conv2dRule, Conv2dRule.replacement, n, next), s1, next1);
    var r := Rewrite(ns, Conv2dRule, s, next);
    assert r.1 == Rewrite(ns[1..], Conv2dRule, s1, next1).1;
    RenameSkipsOwnOutput(ns[0], s, next + 2);
    RenameNodeLater(ns[0], ns[1..], Conv2dRule, s1, next1);
    forall j | 0 <= j < |ns[1..]| ensures o !in ns[1..][j].outputs {
      assert ns[1..][j] == ns[j + 1];
    }
    RewriteKeepsRedirection(ns[1..], Conv2dRule, s1, next1, o);
  }

  /** In SSA form, with the counter above every id, each use of a replaced
      conv2d output now reads a value created by the pass, which the input
      graph never mentioned, and the counter stays above every id.  That value
      is the output of the `aten::_convolution` the conv2d became, which reads
      the conv2d's (redirected) inputs and the two new constants. */
  lemma UsesReadNewConvolution(g: GraphIr)
    requires Ssa(g.nodes) && CounterFresh(g)
    ensures WellFormedRule(Conv2dRule)
    ensures var s := Rewrite(g.nodes, Conv2dRule, map[], g.nextId).1;
      forall i :: 0 <= i < |g.nodes| && Matches(Conv2dRule, g.nodes[i]) ==>
        g.nextId <= Rename(g.nodes[i].outputs[0], s) < Conv2dToConvolutionPass(g).nextId
    ensures var s := Rewrite(g.nodes, Conv2dRule, map[], g.nextId).1;
      forall i :: 0 <= i < |g.nodes| && Matches(Conv2dRule, g.nodes[i]) ==>
        exists j :: ConvolutionAt(Conv2dToConvolutionPass(g).nodes, j,
                                  RenameNode(g.nodes[i], s).inputs, Rename(g.nodes[i].outputs[0], s))
    ensures CounterFresh(Conv2dToConvolutionPass(g))
  {
    Conv2dRuleWellFormed();
    RewriteRedirectsMatches(g.nodes, Conv2dRule, map[], g.nextId);
    RewriteBuildsConvolution(g.nodes, map[], g.nextId);
    assert Conv2dToConvolutionPass(g).nodes == Rewrite(g.nodes, Conv2dRule, map[], g.nextId).0;
    RunKeepsCounterFresh(g, Conv2dRule);
  }
}
