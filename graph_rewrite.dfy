/** A simplified SSA graph (a node list with value ids) and the single-node
    subgraph rewriting that the lowering passes register: every node that
    matches the pattern's operator is replaced by an instance of the
    replacement graph, and every later use of its output, graph outputs
    included, is redirected to the replacement's result. */
module SubgraphRewrite {
  import opened Outcomes
  import opened JitIr

  type ValueId = nat

  /** A node of the simplified graph; `constant` is the `value` attribute of a
      `prim::Constant`. */
  datatype IrNode = IrNode(kind: Symbol, inputs: seq<ValueId>, outputs: seq<ValueId>, constant: Option<IValue>)

  /** A graph: its nodes in order, its outputs, and the first unused value id. */
  datatype GraphIr = GraphIr(nodes: seq<IrNode>, outputs: seq<ValueId>, nextId: nat)

  /** A value in a replacement graph: an input of the matched pattern, or the
      k-th fresh value the replacement defines. */
  datatype Ref = PatternInput(index: nat) | Fresh(k: nat)

  /** A node of a replacement graph; it defines the fresh value `output`. */
  datatype TemplateNode = TemplateNode(kind: Symbol, inputs: seq<Ref>, output: nat, constant: Option<IValue>)

  /** A registered rewrite pattern: one node of operator `kind` with `arity`
      inputs and one output, replaced by `replacement` whose returned value is
      `result`; the replacement defines `freshCount` new values. */
  datatype Rule = Rule(kind: Symbol, arity: nat, replacement: seq<TemplateNode>, result: Ref, freshCount: nat)

  type Subst = map<ValueId, ValueId>

  function Rename(v: ValueId, s: Subst): ValueId {
    if v in s then s[v] else v
  }

  function RenameAll(vs: seq<ValueId>, s: Subst): (r: seq<ValueId>)
    ensures |r| == |vs| && forall i :: 0 <= i < |vs| ==> r[i] == Rename(vs[i], s)
    decreases |vs|
  {
    if |vs| == 0 then [] else [Rename(vs[0], s)] + RenameAll(vs[1..], s)
  }

  /** Redirects the uses (inputs) of a node; what it defines is unchanged. */
  function RenameNode(n: IrNode, s: Subst): IrNode {
    n.(inputs := RenameAll(n.inputs, s))
  }

  function RenameNodes(ns: seq<IrNode>, s: Subst): (r: seq<IrNode>)
    ensures |r| == |ns| && forall i :: 0 <= i < |ns| ==> r[i] == RenameNode(ns[i], s)
    decreases |ns|
  {
    if |ns| == 0 then [] else [RenameNode(ns[0], s)] + RenameNodes(ns[1..], s)
  }

  predicate Matches(rule: Rule, n: IrNode) {
    n.kind == rule.kind && |n.inputs| == rule.arity && |n.outputs| == 1
  }

  predicate RefInRange(rule: Rule, r: Ref) {
    (r.PatternInput? ==> r.index < rule.arity) && (r.Fresh? ==> r.k < rule.freshCount)
  }

  /** Every reference of the replacement points at a pattern input or a fresh value. */
  predicate WellFormedRule(rule: Rule) {
    RefInRange(rule, rule.result) &&
    forall t :: t in rule.replacement ==>
      t.output < rule.freshCount && forall r :: r in t.inputs ==> RefInRange(rule, r)
  }

  function Resolve(rule: Rule, r: Ref, n: IrNode, next: nat): ValueId
    requires Matches(rule, n) && RefInRange(rule, r)
  {
    match r
    case PatternInput(i) => n.inputs[i]
    case Fresh(k) => next + k
  }

  function ResolveAll(rule: Rule, rs: seq<Ref>, n: IrNode, next: nat): (r: seq<ValueId>)
    requires Matches(rule, n) && forall x :: x in rs ==> RefInRange(rule, x)
    ensures |r| == |rs|
  {
    seq(|rs|, i requires 0 <= i < |rs| => Resolve(rule, rs[i], n, next))
  }

  /** The replacement graph instantiated for the matched node `n`, its fresh
      values numbered from `next`. */
  function Instantiate(rule: Rule, ts: seq<TemplateNode>, n: IrNode, next: nat): (r: seq<IrNode>)
    requires WellFormedRule(rule) && Matches(rule, n) && forall t :: t in ts ==> t in rule.replacement
    ensures |r| == |ts|
    ensures forall i :: 0 <= i < |ts| ==> r[i].kind == ts[i].kind && r[i].outputs == [next + ts[i].output]
  {
    seq(|ts|, i requires 0 <= i < |ts| =>
      assert ts[i] in rule.replacement;
      IrNode(ts[i].kind, ResolveAll(rule, ts[i].inputs, n, next), [next + ts[i].output], ts[i].constant))
  }

  lemma InstantiateElement(rule: Rule, ts: seq<TemplateNode>, n: IrNode, next: nat, i: nat)
    requires WellFormedRule(rule) && Matches(rule, n) && forall t :: t in ts ==> t in rule.replacement
    requires i < |ts|
    ensures ts[i] in rule.replacement
    ensures Instantiate(rule, ts, n, next)[i] ==
      IrNode(ts[i].kind, ResolveAll(rule, ts[i].inputs, n, next), [next + ts[i].output], ts[i].constant)
  {
  }

  /** Rewrites a node list front to back.  `s` redirects the outputs of the
      nodes replaced so far; `next` is the first unused value id. */
  function Rewrite(ns: seq<IrNode>, rule: Rule, s: Subst, next: nat): (r: (seq<IrNode>, Subst, nat))
    requires WellFormedRule(rule)
    ensures next <= r.2
    ensures rule.freshCount == 0 ==> r.2 == next
    decreases |ns|
  {
    if |ns| == 0 then ([], s, next)
    else
      var n := RenameNode(ns[0], s);
      if Matches(rule, n) then
        var target := Resolve(rule, rule.result, n, next);
        var (rest, s', next') := Rewrite(ns[1..], rule, s[n.outputs[0] := target], next + rule.freshCount);
        (Instantiate(rule, rule.replacement, n, next) + rest, s', next')
      else
        var (rest, s', next') := Rewrite(ns[1..], rule, s, next);
        ([n] + rest, s', next')
  }

  /** What one node becomes: its uses redirected and, when it then matches,
      the replacement, with its output redirected to the replacement's result
      and the counter moved past the fresh values. */
  function Step(x: IrNode, rule: Rule, s: Subst, next: nat): (seq<IrNode>, Subst, nat)
    requires WellFormedRule(rule)
  {
    var n := RenameNode(x, s);
    if Matches(rule, n) then
      (Instantiate(rule, rule.replacement, n, next), s[n.outputs[0] := Resolve(rule, rule.result, n, next)],
       next + rule.freshCount)
    else ([n], s, next)
  }

  /** The sweep is the first node's step followed by the sweep of the rest. */
  lemma RewriteUnfold(ns: seq<IrNode>, rule: Rule, s: Subst, next: nat)
    requires WellFormedRule(rule) && |ns| > 0
    ensures var st := Step(ns[0], rule, s, next);
      var rest := Rewrite(ns[1..], rule, st.1, st.2);
      Rewrite(ns, rule, s, next) == (st.0 + rest.0, rest.1, rest.2)
  {
  }

  /** `runOnGraph` with one registered pattern. */
  function RunOnGraph(g: GraphIr, rule: Rule): (r: GraphIr)
    requires WellFormedRule(rule)
    ensures |r.outputs| == |g.outputs| && g.nextId <= r.nextId
    ensures rule.freshCount == 0 ==> r.nextId == g.nextId
  {
    var (nodes, s, next) := Rewrite(g.nodes, rule, map[], g.nextId);
    GraphIr(nodes, RenameAll(g.outputs, s), next)
  }

  /** The graph as an object the passes rewrite in place. */
  class Graph {
    var nodes: seq<IrNode>
    var outputs: seq<ValueId>
    var nextId: nat

    function State(): GraphIr
      reads this
    {
      GraphIr(nodes, outputs, nextId)
    }

    constructor (g: GraphIr)
      ensures State() == g
    {
      nodes := g.nodes;
      outputs := g.outputs;
      nextId := g.nextId;
    }

    /** Rewrites every match of `rule` in one forward sweep over the nodes,
        then redirects the graph's outputs. */
    method RunRewrite(rule: Rule)
      requires WellFormedRule(rule)
      modifies this
      ensures State() == RunOnGraph(old(State()), rule)
    {
      var done, s, next := Sweep(nodes, rule, nextId);
      nodes := done;
      outputs := RenameAll(outputs, s);
      nextId := next;
    }
  }

  /** The sweep's loop: each node in turn has its uses redirected and, when it
      matches, is replaced and its output redirected to the replacement's result. */
  method Sweep(ns: seq<IrNode>, rule: Rule, first: nat) returns (done: seq<IrNode>, s: Subst, next: nat)
    requires WellFormedRule(rule)
    ensures (done, s, next) == Rewrite(ns, rule, map[], first)
  {
    ghost var whole := Rewrite(ns, rule, map[], first);
    var todo := ns;
    done, s, next := [], map[], first;
    while |todo| > 0
      invariant SweptSoFar(whole, rule, done, todo, s, next)
      decreases |todo|
    {
      var step := Step(todo[0], rule, s, next);
      SweepAdvances(whole, rule, done, todo, s, next);
      done, s, next := done + step.0, step.1, step.2;
      todo := todo[1..];
    }
    assert Rewrite(todo, rule, s, next) == ([], s, next);
    assert done + [] == done;
  }

  /** The sweep's loop invariant: the nodes done so far followed by the sweep
      of the rest give the whole result. */
  predicate SweptSoFar(whole: (seq<IrNode>, Subst, nat), rule: Rule, done: seq<IrNode>, todo: seq<IrNode>, s: Subst, next: nat)
    requires WellFormedRule(rule)
  {
    var r := Rewrite(todo, rule, s, next);
    whole.0 == done + r.0 && whole.1 == r.1 && whole.2 == r.2
  }

  lemma SweepAdvances(whole: (seq<IrNode>, Subst, nat), rule: Rule, done: seq<IrNode>, todo: seq<IrNode>, s: Subst, next: nat)
    requires WellFormedRule(rule) && |todo| > 0 && SweptSoFar(whole, rule, done, todo, s, next)
    ensures var step := Step(todo[0], rule, s, next);
      SweptSoFar(whole, rule, done + step.0, todo[1..], step.1, step.2)
  {
    var step := Step(todo[0], rule, s, next);
    RewriteUnfold(todo, rule, s, next);
    var rest := Rewrite(todo[1..], rule, step.1, step.2);
    assert done + (step.0 + rest.0) == (done + step.0) + rest.0;
  }

  // ---------------------------------------------------------------------------
  // Properties of the rewriting

  /** The result of the rewriting, without the substitution and the id counter. */
  function Rewritten(ns: seq<IrNode>, rule: Rule, s: Subst, next: nat): seq<IrNode>
    requires WellFormedRule(rule)
  {
    Rewrite(ns, rule, s, next).0
  }

  lemma RenameEmpty(vs: seq<ValueId>)
    ensures RenameAll(vs, map[]) == vs
  {
  }

  /** Without a match the rewriting only applies the pending redirections; on a
      graph without matches it changes nothing. */
  lemma {:induction false} RewriteWithoutMatch(ns: seq<IrNode>, rule: Rule, s: Subst, next: nat)
    requires WellFormedRule(rule)
    requires forall i :: 0 <= i < |ns| ==> !Matches(rule, ns[i])
    ensures Rewrite(ns, rule, s, next) == (RenameNodes(ns, s), s, next)
    ensures s == map[] ==> RenameNodes(ns, s) == ns
    decreases |ns|
  {
    if |ns| > 0 {
      assert !Matches(rule, RenameNode(ns[0], s));
      RewriteWithoutMatch(ns[1..], rule, s, next);
    }
    if s == map[] {
      forall i | 0 <= i < |ns| ensures RenameNode(ns[i], s) == ns[i] {
        RenameEmpty(ns[i].inputs);
      }
    }
  }

  /** A graph without matches is left as it is. */
  lemma RunWithoutMatch(g: GraphIr, rule: Rule)
    requires WellFormedRule(rule)
    requires forall i :: 0 <= i < |g.nodes| ==> !Matches(rule, g.nodes[i])
    ensures RunOnGraph(g, rule) == g
  {
    RewriteWithoutMatch(g.nodes, rule, map[], g.nextId);
    RenameEmpty(g.outputs);
  }

  /** No node of kind `kind` comes out of the instantiated replacement. */
  lemma InstantiateAvoidsKind(rule: Rule, ts: seq<TemplateNode>, n: IrNode, next: nat, kind: Symbol)
    requires WellFormedRule(rule) && Matches(rule, n) && forall t :: t in ts ==> t in rule.replacement
    requires forall t :: t in rule.replacement ==> t.kind != kind
    ensures forall j :: 0 <= j < |ts| ==> Instantiate(rule, ts, n, next)[j].kind != kind
  {
    forall j | 0 <= j < |ts| ensures Instantiate(rule, ts, n, next)[j].kind != kind {
      assert ts[j] in rule.replacement;
    }
  }

  /** When the replacement never contains a node of operator `q.kind`, the
      rewriting leaves no match of `q` behind: neither for `q == rule` (every
      match is replaced) nor for another pattern absent before. */
  lemma {:induction false} RewriteLeavesNoMatch(ns: seq<IrNode>, rule: Rule, s: Subst, next: nat, q: Rule)
    requires WellFormedRule(rule)
    requires forall t :: t in rule.replacement ==> t.kind != q.kind
    requires q == rule || forall i :: 0 <= i < |ns| ==> !Matches(q, ns[i])
    ensures forall j :: 0 <= j < |Rewritten(ns, rule, s, next)| ==> !Matches(q, Rewritten(ns, rule, s, next)[j])
    decreases |ns|
  {
    if |ns| > 0 {
      var n := RenameNode(ns[0], s);
      if Matches(rule, n) {
        var target := Resolve(rule, rule.result, n, next);
        RewriteLeavesNoMatch(ns[1..], rule, s[n.outputs[0] := target], next + rule.freshCount, q);
        InstantiateAvoidsKind(rule, rule.replacement, n, next, q.kind);
        var rep := Instantiate(rule, rule.replacement, n, next);
        var rest := Rewritten(ns[1..], rule, s[n.outputs[0] := target], next + rule.freshCount);
        assert Rewritten(ns, rule, s, next) == rep + rest;
        forall j | 0 <= j < |rep + rest| ensures !Matches(q, (rep + rest)[j]) {
          if j >= |rep| {
            assert (rep + rest)[j] == rest[j - |rep|];
          }
        }
      } else {
        RewriteLeavesNoMatch(ns[1..], rule, s, next, q);
        var rest := Rewritten(ns[1..], rule, s, next);
        assert Rewritten(ns, rule, s, next) == [n] + rest;
        forall j | 0 <= j < |[n] + rest| ensures !Matches(q, ([n] + rest)[j]) {
          if j >= 1 {
            assert ([n] + rest)[j] == rest[j - 1];
          }
        }
      }
    }
  }

  /** A value no matched node of `ns` defines keeps its redirection. */
  lemma {:induction false} RewriteKeepsRedirection(ns: seq<IrNode>, rule: Rule, s: Subst, next: nat, v: ValueId)
    requires WellFormedRule(rule)
    requires forall i :: 0 <= i < |ns| && Matches(rule, ns[i]) ==> v !in ns[i].outputs
    ensures Rename(v, Rewrite(ns, rule, s, next).1) == Rename(v, s)
    decreases |ns|
  {
    if |ns| > 0 {
      var n := RenameNode(ns[0], s);
      if Matches(rule, n) {
        var target := Resolve(rule, rule.result, n, next);
        assert v != n.outputs[0];
        RewriteKeepsRedirection(ns[1..], rule, s[n.outputs[0] := target], next + rule.freshCount, v);
      } else {
        RewriteKeepsRedirection(ns[1..], rule, s, next, v);
      }
    }
  }

  /** Every value is defined once, and only used after its definition. */
  predicate Ssa(ns: seq<IrNode>) {
    (forall i, j, k :: 0 <= i <= j < |ns| && 0 <= k < |ns[i].inputs| ==> ns[i].inputs[k] !in ns[j].outputs) &&
    (forall i, j, k :: 0 <= i < j < |ns| && 0 <= k < |ns[i].outputs| ==> ns[i].outputs[k] !in ns[j].outputs)
  }

  lemma SsaSuffix(ns: seq<IrNode>)
    requires Ssa(ns) && |ns| > 0
    ensures Ssa(ns[1..])
    ensures forall j, k :: 1 <= j < |ns| && 0 <= k < |ns[0].inputs| ==> ns[0].inputs[k] !in ns[j].outputs
  {
    var tl := ns[1..];
    forall i, j, k | 0 <= i <= j < |tl| && 0 <= k < |tl[i].inputs| ensures tl[i].inputs[k] !in tl[j].outputs {
      assert tl[i] == ns[i + 1] && tl[j] == ns[j + 1];
    }
    forall i, j, k | 0 <= i < j < |tl| && 0 <= k < |tl[i].outputs| ensures tl[i].outputs[k] !in tl[j].outputs {
      assert tl[i] == ns[i + 1] && tl[j] == ns[j + 1];
    }
  }

  /** A node none of whose inputs is defined in `rest` is redirected the same
      way before and after `rest` is rewritten. */
  lemma RenameNodeLater(x: IrNode, rest: seq<IrNode>, rule: Rule, s: Subst, next: nat)
    requires WellFormedRule(rule)
    requires forall j, k :: 0 <= j < |rest| && 0 <= k < |x.inputs| ==> x.inputs[k] !in rest[j].outputs
    ensures RenameNode(x, Rewrite(rest, rule, s, next).1) == RenameNode(x, s)
  {
    var s2 := Rewrite(rest, rule, s, next).1;
    forall k | 0 <= k < |x.inputs| ensures Rename(x.inputs[k], s2) == Rename(x.inputs[k], s) {
      RewriteKeepsRedirection(rest, rule, s, next, x.inputs[k]);
    }
  }

  /** Where a matched node's output now leads: to the pattern input the
      replacement returns, or to a fresh value numbered from the counter. */
  lemma {:induction false} RewriteRedirectsMatches(ns: seq<IrNode>, rule: Rule, s: Subst, next: nat)
    requires WellFormedRule(rule) && Ssa(ns)
    ensures next <= Rewrite(ns, rule, s, next).2
    ensures forall i :: 0 <= i < |ns| && Matches(rule, ns[i]) && rule.result.PatternInput? ==>
      Rename(ns[i].outputs[0], Rewrite(ns, rule, s, next).1) ==
      Rename(ns[i].inputs[rule.result.index], Rewrite(ns, rule, s, next).1)
    ensures forall i :: 0 <= i < |ns| && Matches(rule, ns[i]) && rule.result.Fresh? ==>
      next <= Rename(ns[i].outputs[0], Rewrite(ns, rule, s, next).1) < Rewrite(ns, rule, s, next).2
    decreases |ns|
  {
    if |ns| > 0 {
      SsaSuffix(ns);
      var n := RenameNode(ns[0], s);
      var o := ns[0].outputs;
      var s1 := if Matches(rule, n) then s[n.outputs[0] := Resolve(rule, rule.result, n, next)] else s;
      var next1 := if Matches(rule, n) then next + rule.freshCount else next;
      RewriteRedirectsMatches(ns[1..], rule, s1, next1);
      var s2 := Rewrite(ns, rule, s, next).1;
      assert s2 == Rewrite(ns[1..], rule, s1, next1).1;
      forall i | 1 <= i < |ns| && Matches(rule, ns[i])
        ensures rule.result.PatternInput? ==> Rename(ns[i].outputs[0], s2) == Rename(ns[i].inputs[rule.result.index], s2)
        ensures rule.result.Fresh? ==> next <= Rename(ns[i].outputs[0], s2) < Rewrite(ns, rule, s, next).2
      {
        assert ns[1..][i - 1] == ns[i];
      }
      if Matches(rule, n) {
        forall j | 0 <= j < |ns[1..]| ensures o[0] !in ns[1..][j].outputs {
          assert ns[1..][j] == ns[j + 1];
        }
        RewriteKeepsRedirection(ns[1..], rule, s1, next1, o[0]);
        if rule.result.PatternInput? {
          var x := ns[0].inputs[rule.result.index];
          forall j | 0 <= j < |ns[1..]| ensures x !in ns[1..][j].outputs {
            assert ns[1..][j] == ns[j + 1];
          }
          RewriteKeepsRedirection(ns[1..], rule, s1, next1, x);
          assert x != o[0];
        }
      }
    }
  }

  /** The nodes that do not match the pattern, in their original order. */
  function Unmatched(ns: seq<IrNode>, rule: Rule): (r: seq<IrNode>)
    ensures forall j :: 0 <= j < |r| ==> !Matches(rule, r[j]) && r[j] in ns
    decreases |ns|
  {
    if |ns| == 0 then []
    else if Matches(rule, ns[0]) then Unmatched(ns[1..], rule)
    else [ns[0]] + Unmatched(ns[1..], rule)
  }

  /** A rewriting whose replacement is empty deletes the matched nodes and
      keeps every other node, in order, with its uses redirected by the final
      substitution. */
  lemma {:induction false} RewriteDeletes(ns: seq<IrNode>, rule: Rule, s: Subst, next: nat)
    requires WellFormedRule(rule) && Ssa(ns) && rule.replacement == []
    ensures Rewritten(ns, rule, s, next) == RenameNodes(Unmatched(ns, rule), Rewrite(ns, rule, s, next).1)
    decreases |ns|
  {
    if |ns| > 0 {
      SsaSuffix(ns);
      var n := RenameNode(ns[0], s);
      var sF := Rewrite(ns, rule, s, next).1;
      if Matches(rule, n) {
        var s1 := s[n.outputs[0] := Resolve(rule, rule.result, n, next)];
        var next1 := next + rule.freshCount;
        RewriteDeletes(ns[1..], rule, s1, next1);
        assert Instantiate(rule, rule.replacement, n, next) == [];
        assert Rewritten(ns, rule, s, next) == Rewritten(ns[1..], rule, s1, next1);
        assert sF == Rewrite(ns[1..], rule, s1, next1).1;
        assert Unmatched(ns, rule) == Unmatched(ns[1..], rule);
      } else {
        RewriteDeletes(ns[1..], rule, s, next);
        RenameNodeLater(ns[0], ns[1..], rule, s, next);
        var u := Unmatched(ns[1..], rule);
        assert Unmatched(ns, rule) == [ns[0]] + u;
        assert ([ns[0]] + u)[1..] == u;
        assert RenameNodes([ns[0]] + u, sF) == [RenameNode(ns[0], sF)] + RenameNodes(u, sF);
      }
    }
  }

  /** The rewriting described node by node under one final redirection `t`:
      each matched node becomes its instantiated replacement and every other
      node is kept with only its uses redirected. */
  function Expanded(ns: seq<IrNode>, rule: Rule, t: Subst, next: nat): seq<IrNode>
    requires WellFormedRule(rule)
    decreases |ns|
  {
    if |ns| == 0 then []
    else
      var n := RenameNode(ns[0], t);
      if Matches(rule, n) then
        Instantiate(rule, rule.replacement, n, next) + Expanded(ns[1..], rule, t, next + rule.freshCount)
      else [n] + Expanded(ns[1..], rule, t, next)
  }

  /** In SSA form the sweep's result is the node-by-node expansion under the
      final redirection: unmatched nodes stay in order with their uses
      redirected, and each match is replaced in place. */
  lemma {:induction false} RewriteExpands(ns: seq<IrNode>, rule: Rule, s: Subst, next: nat)
    requires WellFormedRule(rule) && Ssa(ns)
    ensures Rewritten(ns, rule, s, next) == Expanded(ns, rule, Rewrite(ns, rule, s, next).1, next)
    decreases |ns|
  {
    if |ns| > 0 {
      SsaSuffix(ns);
      var n := RenameNode(ns[0], s);
      var sF := Rewrite(ns, rule, s, next).1;
      if Matches(rule, n) {
        var s1 := s[n.outputs[0] := Resolve(rule, rule.result, n, next)];
        var next1 := next + rule.freshCount;
        RewriteExpands(ns[1..], rule, s1, next1);
        assert sF == Rewrite(ns[1..], rule, s1, next1).1;
        RenameSkipsOwnOutput(ns[0], s, Resolve(rule, rule.result, n, next));
        RenameNodeLater(ns[0], ns[1..], rule, s1, next1);
        assert RenameNode(ns[0], sF) == n;
      } else {
        RewriteExpands(ns[1..], rule, s, next);
        RenameNodeLater(ns[0], ns[1..], rule, s, next);
      }
    }
  }

  /** Redirecting a node's own output does not touch its uses in SSA form. */
  lemma RenameSkipsOwnOutput(x: IrNode, s: Subst, target: ValueId)
    requires |x.outputs| == 1 && forall k :: 0 <= k < |x.inputs| ==> x.inputs[k] !in x.outputs
    ensures RenameNode(x, s[x.outputs[0] := target]) == RenameNode(x, s)
  {
    var s1 := s[x.outputs[0] := target];
    forall k | 0 <= k < |x.inputs| ensures Rename(x.inputs[k], s1) == Rename(x.inputs[k], s) {
      assert x.inputs[k] != x.outputs[0];
    }
  }

  /** The redirections in `s` lead to values no node of `ns` defines. */
  predicate TargetsOutside(s: Subst, ns: seq<IrNode>) {
    forall v, p :: v in s && 0 <= p < |ns| ==> s[v] !in ns[p].outputs
  }

  /** A rewriting whose replacement is empty and returns a pattern input
      keeps SSA form, provided the pending redirections lead to values `ns`
      does not define: each use now reads a value defined before it. */
  lemma {:induction false} DeletionKeepsSsa(ns: seq<IrNode>, rule: Rule, s: Subst, next: nat)
    requires WellFormedRule(rule) && rule.replacement == [] && rule.result.PatternInput? && Ssa(ns)
    requires TargetsOutside(s, ns)
    ensures Ssa(Rewritten(ns, rule, s, next))
    decreases |ns|
  {
    if |ns| > 0 {
      SsaSuffix(ns);
      var st := Step(ns[0], rule, s, next);
      RewriteUnfold(ns, rule, s, next);
      DeletionStepTargets(ns, rule, s, next);
      DeletionKeepsSsa(ns[1..], rule, st.1, st.2);
      if !Matches(rule, ns[0]) {
        KeptHeadSsa(ns, rule, s, st.2);
      } else {
        assert Matches(rule, RenameNode(ns[0], s));
        assert st.0 == [];
      }
    }
  }

  /** After one step the pending redirections still lead outside the rest:
      a deleted node's output is sent where its input was sent, or to the
      input itself, which SSA form defines before the node. */
  lemma DeletionStepTargets(ns: seq<IrNode>, rule: Rule, s: Subst, next: nat)
    requires WellFormedRule(rule) && rule.result.PatternInput? && Ssa(ns) && |ns| > 0
    requires TargetsOutside(s, ns)
    ensures TargetsOutside(Step(ns[0], rule, s, next).1, ns[1..])
  {
    var n := RenameNode(ns[0], s);
    var s1 := Step(ns[0], rule, s, next).1;
    var tl := ns[1..];
    forall v, p | v in s1 && 0 <= p < |tl| ensures s1[v] !in tl[p].outputs {
      assert tl[p] == ns[p + 1];
      if Matches(rule, n) && v == n.outputs[0] {
        var w := ns[0].inputs[rule.result.index];
        assert s1[v] == Rename(w, s);
      }
    }
  }

  /** A kept first node is followed by the rest's result, which defines only
      values the rest of `ns` defined. */
  lemma KeptHeadSsa(ns: seq<IrNode>, rule: Rule, s: Subst, next: nat)
    requires WellFormedRule(rule) && rule.replacement == [] && Ssa(ns) && |ns| > 0 && !Matches(rule, ns[0])
    requires TargetsOutside(s, ns)
    requires Ssa(Rewritten(ns[1..], rule, s, next))
    ensures Ssa([RenameNode(ns[0], s)] + Rewritten(ns[1..], rule, s, next))
  {
    SsaSuffix(ns);
    var n := RenameNode(ns[0], s);
    var tl := ns[1..];
    var rest := Rewritten(tl, rule, s, next);
    RewriteDeletes(tl, rule, s, next);
    var u := Unmatched(tl, rule);
    forall j | 0 <= j < |rest|
      ensures forall k :: 0 <= k < |n.inputs| ==> n.inputs[k] !in rest[j].outputs
      ensures forall k :: 0 <= k < |n.outputs| ==> n.outputs[k] !in rest[j].outputs
    {
      assert rest[j].outputs == u[j].outputs;
      var p :| 0 <= p < |tl| && tl[p] == u[j];
      assert tl[p] == ns[p + 1];
    }
    SsaCons(n, rest);
  }

  /** A node that uses neither its own outputs nor those of the nodes after
      it, and whose outputs they do not redefine, extends an SSA list. */
  lemma SsaCons(n: IrNode, rest: seq<IrNode>)
    requires Ssa(rest)
    requires forall k :: 0 <= k < |n.inputs| ==> n.inputs[k] !in n.outputs
    requires forall j, k :: 0 <= j < |rest| && 0 <= k < |n.inputs| ==> n.inputs[k] !in rest[j].outputs
    requires forall j, k :: 0 <= j < |rest| && 0 <= k < |n.outputs| ==> n.outputs[k] !in rest[j].outputs
    ensures Ssa([n] + rest)
  {
    var ns := [n] + rest;
    forall i, j, k | 0 <= i <= j < |ns| && 0 <= k < |ns[i].inputs| ensures ns[i].inputs[k] !in ns[j].outputs {
      if i > 0 {
        assert ns[i] == rest[i - 1] && ns[j] == rest[j - 1];
      } else if j > 0 {
        assert ns[j] == rest[j - 1];
      }
    }
    forall i, j, k | 0 <= i < j < |ns| && 0 <= k < |ns[i].outputs| ensures ns[i].outputs[k] !in ns[j].outputs {
      assert ns[j] == rest[j - 1];
      if i > 0 {
        assert ns[i] == rest[i - 1];
      }
    }
  }

  /** The pass keeps the graph in SSA form when its pattern is deleted and
      its output redirected to one of its inputs. */
  lemma RunDeletionKeepsSsa(g: GraphIr, rule: Rule)
    requires WellFormedRule(rule) && rule.replacement == [] && rule.result.PatternInput? && Ssa(g.nodes)
    ensures Ssa(RunOnGraph(g, rule).nodes)
  {
    DeletionKeepsSsa(g.nodes, rule, map[], g.nextId);
  }

  // ---------------------------------------------------------------------------
  // Two redirections in a row

  /** The redirection `s1` followed by `s2`. */
  function Then(s1: Subst, s2: Subst): (t: Subst)
    ensures t.Keys == s1.Keys + s2.Keys
  {
    map v | v in s1.Keys + s2.Keys :: Rename(Rename(v, s1), s2)
  }

  lemma RenameThen(v: ValueId, s1: Subst, s2: Subst)
    ensures Rename(v, Then(s1, s2)) == Rename(Rename(v, s1), s2)
  {
  }

  lemma RenameNodesThen(ns: seq<IrNode>, s1: Subst, s2: Subst)
    ensures RenameNodes(RenameNodes(ns, s1), s2) == RenameNodes(ns, Then(s1, s2))
  {
    forall i | 0 <= i < |ns| ensures RenameNode(RenameNode(ns[i], s1), s2) == RenameNode(ns[i], Then(s1, s2)) {
      RenameAllThen(ns[i].inputs, s1, s2);
    }
  }

  lemma RenameAllThen(vs: seq<ValueId>, s1: Subst, s2: Subst)
    ensures RenameAll(RenameAll(vs, s1), s2) == RenameAll(vs, Then(s1, s2))
  {
    forall k | 0 <= k < |vs| ensures Rename(Rename(vs[k], s1), s2) == Rename(vs[k], Then(s1, s2)) {
      RenameThen(vs[k], s1, s2);
    }
  }

  /** Redirecting uses does not change which nodes match. */
  lemma {:induction false} UnmatchedRenamed(ns: seq<IrNode>, rule: Rule, s: Subst)
    ensures Unmatched(RenameNodes(ns, s), rule) == RenameNodes(Unmatched(ns, rule), s)
    decreases |ns|
  {
    if |ns| > 0 {
      UnmatchedRenamed(ns[1..], rule, s);
      var rn := RenameNodes(ns, s);
      assert rn[1..] == RenameNodes(ns[1..], s);
      if !Matches(rule, ns[0]) {
        var u := Unmatched(ns[1..], rule);
        assert ([ns[0]] + u)[1..] == u;
      }
    }
  }

  /** A node that does not match is kept. */
  lemma {:induction false} UnmatchedKeeps(ns: seq<IrNode>, rule: Rule, i: nat)
    requires i < |ns| && !Matches(rule, ns[i])
    ensures ns[i] in Unmatched(ns, rule)
    decreases |ns|
  {
    if i > 0 {
      UnmatchedKeeps(ns[1..], rule, i - 1);
      assert ns[1..][i - 1] == ns[i];
    }
  }

  // ---------------------------------------------------------------------------
  // Fresh value ids

  predicate NodeIdsBelow(n: IrNode, bound: nat) {
    (forall k :: 0 <= k < |n.inputs| ==> n.inputs[k] < bound) &&
    (forall k :: 0 <= k < |n.outputs| ==> n.outputs[k] < bound)
  }

  predicate IdsBelow(ns: seq<IrNode>, bound: nat) {
    forall i :: 0 <= i < |ns| ==> NodeIdsBelow(ns[i], bound)
  }

  predicate TargetsBelow(s: Subst, bound: nat) {
    forall v :: v in s ==> s[v] < bound
  }

  /** The counter is above every value id the graph mentions. */
  predicate CounterFresh(g: GraphIr) {
    IdsBelow(g.nodes, g.nextId) && forall k :: 0 <= k < |g.outputs| ==> g.outputs[k] < g.nextId
  }

  lemma {:induction false} RewriteKeepsIdsBelow(ns: seq<IrNode>, rule: Rule, s: Subst, next: nat)
    requires WellFormedRule(rule) && IdsBelow(ns, next) && TargetsBelow(s, next)
    ensures IdsBelow(Rewritten(ns, rule, s, next), Rewrite(ns, rule, s, next).2)
    ensures TargetsBelow(Rewrite(ns, rule, s, next).1, Rewrite(ns, rule, s, next).2)
    ensures next <= Rewrite(ns, rule, s, next).2
    decreases |ns|
  {
    if |ns| > 0 {
      var head, s1, next1 := RewriteStepIdsBelow(ns, rule, s, next);
      assert IdsBelow(ns[1..], next1) by {
        forall i | 0 <= i < |ns[1..]| ensures NodeIdsBelow(ns[1..][i], next1) {
          assert NodeIdsBelow(ns[i + 1], next);
        }
      }
      RewriteKeepsIdsBelow(ns[1..], rule, s1, next1);
      IdsBelowAppend(head, Rewritten(ns[1..], rule, s1, next1), next1, Rewrite(ns[1..], rule, s1, next1).2);
    }
  }

  /** One step of the sweep: what the first node becomes, the redirection and
      counter the rest is swept with, and the bounds they keep. */
  lemma RewriteStepIdsBelow(ns: seq<IrNode>, rule: Rule, s: Subst, next: nat)
    returns (head: seq<IrNode>, s1: Subst, next1: nat)
    requires WellFormedRule(rule) && |ns| > 0 && NodeIdsBelow(ns[0], next) && TargetsBelow(s, next)
    ensures Rewrite(ns, rule, s, next) ==
      (head + Rewritten(ns[1..], rule, s1, next1), Rewrite(ns[1..], rule, s1, next1).1, Rewrite(ns[1..], rule, s1, next1).2)
    ensures IdsBelow(head, next1) && TargetsBelow(s1, next1) && next <= next1
  {
    var n := RenameNode(ns[0], s);
    assert NodeIdsBelow(n, next);
    if Matches(rule, n) {
      head := Instantiate(rule, rule.replacement, n, next);
      s1 := s[n.outputs[0] := Resolve(rule, rule.result, n, next)];
      next1 := next + rule.freshCount;
      InstantiateIdsBelow(rule, rule.replacement, n, next);
    } else {
      head, s1, next1 := [n], s, next;
    }
  }

  lemma IdsBelowAppend(a: seq<IrNode>, b: seq<IrNode>, lo: nat, hi: nat)
    requires IdsBelow(a, lo) && IdsBelow(b, hi) && lo <= hi
    ensures IdsBelow(a + b, hi)
  {
    forall j | 0 <= j < |a + b| ensures NodeIdsBelow((a + b)[j], hi) {
      if j < |a| {
        assert (a + b)[j] == a[j] && NodeIdsBelow(a[j], lo);
      } else {
        assert (a + b)[j] == b[j - |a|];
      }
    }
  }

  lemma InstantiateIdsBelow(rule: Rule, ts: seq<TemplateNode>, n: IrNode, next: nat)
    requires WellFormedRule(rule) && Matches(rule, n) && forall t :: t in ts ==> t in rule.replacement
    requires forall k :: 0 <= k < |n.inputs| ==> n.inputs[k] < next
    ensures IdsBelow(Instantiate(rule, ts, n, next), next + rule.freshCount)
  {
    var r := Instantiate(rule, ts, n, next);
    forall j | 0 <= j < |r| ensures NodeIdsBelow(r[j], next + rule.freshCount) {
      assert ts[j] in rule.replacement;
      forall k | 0 <= k < |r[j].inputs| ensures r[j].inputs[k] < next + rule.freshCount {
        assert ts[j].inputs[k] in ts[j].inputs;
      }
    }
  }

  /** The pass keeps the counter above every id: the values it creates are fresh. */
  lemma RunKeepsCounterFresh(g: GraphIr, rule: Rule)
    requires WellFormedRule(rule) && CounterFresh(g)
    ensures CounterFresh(RunOnGraph(g, rule))
    ensures g.nextId <= RunOnGraph(g, rule).nextId
  {
    RewriteKeepsIdsBelow(g.nodes, rule, map[], g.nextId);
  }
}
