/** The lowering pass that removes dropout: at inference time `aten::dropout`
    and its in-place variant `aten::dropout_` are the identity on their first
    input, so each such node is deleted and its uses read that input. */
module RemoveDropout {
  import opened Outcomes
  import opened SubgraphRewrite

  /** The pattern `%6 = <kind>(%input, %4, %5); return (%6)` with the
      replacement `return (%input)`. */
  function DropoutRule(kind: string): (r: Rule)
    ensures WellFormedRule(r) && r.replacement == [] && r.result == PatternInput(0)
  {
    Rule(kind, 3, [], PatternInput(0), 0)
  }

  const Dropout := DropoutRule("aten::dropout")
  const DropoutInPlace := DropoutRule("aten::dropout_")

  /** The whole pass: first the out-of-place pattern, then the in-place one. */
  function RemoveDropoutPass(g: GraphIr): (r: GraphIr)
    ensures r.nextId == g.nextId
    ensures forall j :: 0 <= j < |r.nodes| ==> !Matches(Dropout, r.nodes[j]) && !Matches(DropoutInPlace, r.nodes[j])
  {
    var once := RunOnGraph(g, Dropout);
    RewriteLeavesNoMatch(g.nodes, Dropout, map[], g.nextId, Dropout);
    assert once.nodes == Rewritten(g.nodes, Dropout, map[], g.nextId);
    RewriteLeavesNoMatch(once.nodes, DropoutInPlace, map[], once.nextId, Dropout);
    RewriteLeavesNoMatch(once.nodes, DropoutInPlace, map[], once.nextId, DropoutInPlace);
    RewriteIdCounter(g.nodes, Dropout, map[], g.nextId);
    RewriteIdCounter(once.nodes, DropoutInPlace, map[], once.nextId);
    assert RunOnGraph(once, DropoutInPlace).nodes == Rewritten(once.nodes, DropoutInPlace, map[], once.nextId);
    RunOnGraph(once, DropoutInPlace)
  }

  /** A rule that creates no values leaves the counter where it was. */
  lemma {:induction false} RewriteIdCounter(ns: seq<IrNode>, rule: Rule, s: Subst, next: nat)
    requires WellFormedRule(rule) && rule.freshCount == 0
    ensures Rewrite(ns, rule, s, next).2 == next
    decreases |ns|
  {
    if |ns| > 0 {
      var n := RenameNode(ns[0], s);
      if Matches(rule, n) {
        RewriteIdCounter(ns[1..], rule, s[n.outputs[0] := Resolve(rule, rule.result, n, next)], next);
      } else {
        RewriteIdCounter(ns[1..], rule, s, next);
      }
    }
  }

  /** The pass applied to the graph object in place. */
  method RunRemoveDropout(graph: Graph)
    modifies graph
    ensures graph.State() == RemoveDropoutPass(old(graph.State()))
  {
    graph.RunRewrite(Dropout);
    graph.RunRewrite(DropoutInPlace);
  }

  /** One dropout rule in SSA form: the matched nodes disappear, every other
      node stays in order, and each use of a removed output, graph outputs
      included, now reads the removed node's first input. */
  lemma DropoutRemoved(g: GraphIr, kind: string)
    requires Ssa(g.nodes)
    ensures var s := Rewrite(g.nodes, DropoutRule(kind), map[], g.nextId).1;
      var r := RunOnGraph(g, DropoutRule(kind));
      r.nodes == RenameNodes(Unmatched(g.nodes, DropoutRule(kind)), s) &&
      r.outputs == RenameAll(g.outputs, s) &&
      forall i :: 0 <= i < |g.nodes| && Matches(DropoutRule(kind), g.nodes[i]) ==>
        Rename(g.nodes[i].outputs[0], s) == Rename(g.nodes[i].inputs[0], s)
  {
    RewriteDeletes(g.nodes, DropoutRule(kind), map[], g.nextId);
    RewriteRedirectsMatches(g.nodes, DropoutRule(kind), map[], g.nextId);
  }

  /** The whole pass in SSA form: the graph stays in SSA form, the nodes of
      neither dropout kind stay in order with their uses redirected by the
      two rewrites' redirections in turn, and every use of an out-of-place or
      in-place dropout's output, graph outputs included, reads that dropout's
      first input under the same redirection. */
  lemma BothDropoutsRemoved(g: GraphIr)
    requires Ssa(g.nodes)
    ensures var once := RunOnGraph(g, Dropout);
      var t := Then(Rewrite(g.nodes, Dropout, map[], g.nextId).1,
                    Rewrite(once.nodes, DropoutInPlace, map[], once.nextId).1);
      var r := RemoveDropoutPass(g);
      Ssa(r.nodes) &&
      r.nodes == RenameNodes(Unmatched(Unmatched(g.nodes, Dropout), DropoutInPlace), t) &&
      r.outputs == RenameAll(g.outputs, t) &&
      forall i :: 0 <= i < |g.nodes| && (Matches(Dropout, g.nodes[i]) || Matches(DropoutInPlace, g.nodes[i])) ==>
        Rename(g.nodes[i].outputs[0], t) == Rename(g.nodes[i].inputs[0], t)
  {
    var s1 := Rewrite(g.nodes, Dropout, map[], g.nextId).1;
    var once := RunOnGraph(g, Dropout);
    var s2 := Rewrite(once.nodes, DropoutInPlace, map[], once.nextId).1;
    var t := Then(s1, s2);
    assert RemoveDropoutPass(g) == RunOnGraph(once, DropoutInPlace);
    DropoutRemoved(g, "aten::dropout");
    RunDeletionKeepsSsa(g, Dropout);
    DropoutRemoved(once, "aten::dropout_");
    RunDeletionKeepsSsa(once, DropoutInPlace);
    var u1 := Unmatched(g.nodes, Dropout);
    UnmatchedRenamed(u1, DropoutInPlace, s1);
    RenameNodesThen(Unmatched(u1, DropoutInPlace), s1, s2);
    RenameAllThen(g.outputs, s1, s2);
    forall i | 0 <= i < |g.nodes| && (Matches(Dropout, g.nodes[i]) || Matches(DropoutInPlace, g.nodes[i]))
      ensures Rename(g.nodes[i].outputs[0], t) == Rename(g.nodes[i].inputs[0], t)
    {
      RenameThen(g.nodes[i].outputs[0], s1, s2);
      RenameThen(g.nodes[i].inputs[0], s1, s2);
      if !Matches(Dropout, g.nodes[i]) {
        InPlaceDropoutRedirected(g, i);
      }
    }
  }

  /** An in-place dropout survives the first rewrite with its output still
      its own and its input redirected, and the second rewrite then sends
      its output where that input went. */
  lemma InPlaceDropoutRedirected(g: GraphIr, i: nat)
    requires Ssa(g.nodes) && i < |g.nodes| && Matches(DropoutInPlace, g.nodes[i])
    ensures var s1 := Rewrite(g.nodes, Dropout, map[], g.nextId).1;
      var once := RunOnGraph(g, Dropout);
      var s2 := Rewrite(once.nodes, DropoutInPlace, map[], once.nextId).1;
      Rename(Rename(g.nodes[i].outputs[0], s1), s2) == Rename(Rename(g.nodes[i].inputs[0], s1), s2)
  {
    var x := g.nodes[i];
    var o := x.outputs[0];
    var s1 := Rewrite(g.nodes, Dropout, map[], g.nextId).1;
    var once := RunOnGraph(g, Dropout);
    DropoutRemoved(g, "aten::dropout");
    RunDeletionKeepsSsa(g, Dropout);
    DropoutRemoved(once, "aten::dropout_");
    var u1 := Unmatched(g.nodes, Dropout);
    UnmatchedKeeps(g.nodes, Dropout, i);
    var p :| 0 <= p < |u1| && u1[p] == x;
    assert once.nodes[p] == RenameNode(x, s1);
    forall j | 0 <= j < |g.nodes| && Matches(Dropout, g.nodes[j]) ensures o !in g.nodes[j].outputs {
      assert j != i;
    }
    RewriteKeepsRedirection(g.nodes, Dropout, map[], g.nextId, o);
  }

  /** Running the pass on its own output changes nothing. */
  lemma RemoveDropoutIdempotent(g: GraphIr)
    ensures RemoveDropoutPass(RemoveDropoutPass(g)) == RemoveDropoutPass(g)
  {
    var r := RemoveDropoutPass(g);
    RunWithoutMatch(r, Dropout);
    RunWithoutMatch(r, DropoutInPlace);
  }

  /** A graph without dropout is left as it is. */
  lemma NoDropoutUnchanged(g: GraphIr)
    requires forall i :: 0 <= i < |g.nodes| ==> !Matches(Dropout, g.nodes[i]) && !Matches(DropoutInPlace, g.nodes[i])
    ensures RemoveDropoutPass(g) == g
  {
    RunWithoutMatch(g, Dropout);
    RunWithoutMatch(g, DropoutInPlace);
  }

  /** A dropout node with another arity is not the registered pattern and stays. */
  lemma OtherArityKept(x: ValueId, p: ValueId, out: ValueId)
    ensures var n := IrNode("aten::dropout", [x, p], [out], None);
      RemoveDropoutPass(GraphIr([n], [out], out + 1)).nodes == [n]
  {
    var n := IrNode("aten::dropout", [x, p], [out], None);
    NoDropoutUnchanged(GraphIr([n], [out], out + 1));
  }
}
