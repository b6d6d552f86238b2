/**
 * The step-by-step evaluator behind the sheep animation: one pattern of
 * sheep is walked from the start fence, always along the first arrow in
 * list order that leaves the current fence with the next sheep on it.
 */
module PathAnimator {
  import opened Wrappers
  import opened Graph

  /** One hop of the animated sheep (positions left out). */
  datatype Step = Step(fromNode: string, toNode: string, edgeId: string, sheep: string, isSelfLoop: bool)

  /** The `stuckReason` tags calculatePath can produce. */
  datatype Reason = NoStart | NodeNotFound | NoPath | TargetNotFound | WrongState

  datatype PathResult = PathResult(
    steps: seq<Step>,
    success: bool,
    stuckAtStep: Option<nat>,
    stuckReason: Option<Reason>)

  /** The result calculatePath returns, as a function of its inputs. */
  function Evaluate(nodes: seq<Node>, edges: seq<Edge>, pattern: seq<string>): PathResult {
    match FindStart(nodes)
    case None => PathResult([], false, None, Some(NoStart))
    case Some(s) => Walk(nodes, edges, pattern, 0, s.id, [])
  }

  /** The loop of calculatePath from index `i`, at fence `cur`, with `steps` recorded so far. */
  function Walk(nodes: seq<Node>, edges: seq<Edge>, pattern: seq<string>, i: nat, cur: string, steps: seq<Step>): PathResult
    requires i <= |pattern|
    decreases |pattern| - i
  {
    if i == |pattern| then
      var ok := FindNode(nodes, cur).Some? && FindNode(nodes, cur).value.isAccepting;
      PathResult(steps, ok, None, if ok then None else Some(WrongState))
    else if FindNode(nodes, cur).None? then
      PathResult(steps, false, Some(i), Some(NodeNotFound))
    else match FirstEdge(edges, cur, pattern[i])
      case None =>
        PathResult(steps + [Step(cur, cur, "none", pattern[i], false)], false, Some(i), Some(NoPath))
      case Some(k) =>
        var e := edges[k];
        if FindNode(nodes, e.target).None? then
          PathResult(steps, false, Some(i), Some(TargetNotFound))
        else
          Walk(nodes, edges, pattern, i + 1, e.target,
               steps + [Step(cur, e.target, e.id, pattern[i], e.source == e.target)])
  }

  /** calculatePath (SheepPathAnimator.tsx), with its loop and early returns. */
  method CalculatePath(nodes: seq<Node>, edges: seq<Edge>, pattern: seq<string>) returns (r: PathResult)
    ensures r == Evaluate(nodes, edges, pattern)
  {
    var steps: seq<Step> := [];
    var startNode := FindStart(nodes);
    if startNode.None? {
      return PathResult([], false, None, Some(NoStart));
    }
    var currentNodeId := startNode.value.id;
    for i := 0 to |pattern|
      invariant Evaluate(nodes, edges, pattern) == Walk(nodes, edges, pattern, i, currentNodeId, steps)
    {
      var sheep := pattern[i];
      var currentNode := FindNode(nodes, currentNodeId);
      if currentNode.None? {
        return PathResult(steps, false, Some(i), Some(NodeNotFound));
      }
      var matchingEdge := FirstEdge(edges, currentNodeId, sheep);
      if matchingEdge.None? {
        steps := steps + [Step(currentNodeId, currentNodeId, "none", sheep, false)];
        return PathResult(steps, false, Some(i), Some(NoPath));
      }
      var edge := edges[matchingEdge.value];
      var targetNode := FindNode(nodes, edge.target);
      if targetNode.None? {
        return PathResult(steps, false, Some(i), Some(TargetNotFound));
      }
      var isSelfLoop := edge.source == edge.target;
      steps := steps + [Step(currentNodeId, edge.target, edge.id, sheep, isSelfLoop)];
      currentNodeId := edge.target;
    }
    var finalNode := FindNode(nodes, currentNodeId);
    var success := finalNode.Some? && finalNode.value.isAccepting;
    r := PathResult(steps, success, None, if success then None else Some(WrongState));
  }

  // ----- The shape of a trace -----

  /** The fence the sheep stands on before hop `i`. */
  function At(start: string, steps: seq<Step>, i: nat): string
    requires i <= |steps|
  {
    if i == 0 then start else steps[i - 1].toNode
  }

  /** `st` is the hop along the first arrow that matches its fence and sheep. */
  ghost predicate Taken(edges: seq<Edge>, st: Step) {
    var f := FirstEdge(edges, st.fromNode, st.sheep);
    f.Some? && st.toNode == edges[f.value].target && st.edgeId == edges[f.value].id
    && st.isSelfLoop == (edges[f.value].source == edges[f.value].target)
  }

  /** `st` is the stand-still hop recorded when no arrow matches. */
  ghost predicate Stuck(edges: seq<Edge>, st: Step) {
    FirstEdge(edges, st.fromNode, st.sheep).None?
    && st.toNode == st.fromNode && st.edgeId == "none" && !st.isSelfLoop
  }

  /** Hop k carries pattern[k], hops chain from `start`, and each hop lands on a known fence. */
  ghost predicate Chain(nodes: seq<Node>, edges: seq<Edge>, pattern: seq<string>, start: string, steps: seq<Step>, n: nat)
    requires n <= |steps|
  {
    |steps| <= |pattern|
    && (forall k :: 0 <= k < |steps| ==> steps[k].sheep == pattern[k])
    && (forall k {:trigger At(start, steps, k)} :: 0 <= k < |steps| ==> steps[k].fromNode == At(start, steps, k))
    && (forall k {:trigger Taken(edges, steps[k])} :: 0 <= k < n ==> Taken(edges, steps[k]))
  }

  /** The pattern was consumed: success exactly at an accepting fence, otherwise wrong-state. */
  ghost predicate Finished(nodes: seq<Node>, edges: seq<Edge>, pattern: seq<string>, start: string, r: PathResult) {
    && |r.steps| == |pattern|
    && Chain(nodes, edges, pattern, start, r.steps, |r.steps|)
    && r.success == (FindNode(nodes, At(start, r.steps, |pattern|)).Some?
                     && FindNode(nodes, At(start, r.steps, |pattern|)).value.isAccepting)
    && r.stuckReason == (if r.success then None else Some(WrongState))
  }

  /** No arrow matched symbol i: i taken hops, then one stand-still hop. */
  ghost predicate StuckNoPath(nodes: seq<Node>, edges: seq<Edge>, pattern: seq<string>, start: string, r: PathResult, i: nat) {
    && r.stuckReason == Some(NoPath)
    && |r.steps| == i + 1
    && Chain(nodes, edges, pattern, start, r.steps, i)
    && Stuck(edges, r.steps[i])
  }

  /** The first matching arrow for symbol i leads to an unknown fence: i taken hops. */
  ghost predicate StuckTarget(nodes: seq<Node>, edges: seq<Edge>, pattern: seq<string>, start: string, r: PathResult, i: nat)
    requires i < |pattern|
  {
    && r.stuckReason == Some(TargetNotFound)
    && |r.steps| == i
    && Chain(nodes, edges, pattern, start, r.steps, i)
    && var f := FirstEdge(edges, At(start, r.steps, i), pattern[i]);
       f.Some? && FindNode(nodes, edges[f.value].target).None?
  }

  /** What one call returns once the start fence `start` is known. */
  ghost predicate Outcome(nodes: seq<Node>, edges: seq<Edge>, pattern: seq<string>, start: string, r: PathResult) {
    && r.stuckReason != Some(NodeNotFound)
    && r.stuckReason != Some(NoStart)
    && (r.stuckAtStep.None? ==> Finished(nodes, edges, pattern, start, r))
    && (r.stuckAtStep.Some? ==>
          && r.stuckAtStep.value < |pattern|
          && !r.success
          && (|| StuckNoPath(nodes, edges, pattern, start, r, r.stuckAtStep.value)
              || StuckTarget(nodes, edges, pattern, start, r, r.stuckAtStep.value)))
  }

  /** The walk from hop `i` with `steps` recorded so far returned `r`: an outcome that keeps those steps. */
  ghost predicate Continues(nodes: seq<Node>, edges: seq<Edge>, pattern: seq<string>, start: string, i: nat,
                            steps: seq<Step>, r: PathResult) {
    Outcome(nodes, edges, pattern, start, r) && |r.steps| >= i && r.steps[..i] == steps
  }

  lemma ChainExtend(nodes: seq<Node>, edges: seq<Edge>, pattern: seq<string>, start: string,
                    steps: seq<Step>, st: Step, taken: bool)
    requires |steps| < |pattern| && Chain(nodes, edges, pattern, start, steps, |steps|)
    requires st.sheep == pattern[|steps|] && st.fromNode == At(start, steps, |steps|)
    requires taken ==> Taken(edges, st)
    ensures Chain(nodes, edges, pattern, start, steps + [st], if taken then |steps| + 1 else |steps|)
  {
    var s' := steps + [st];
    var n := if taken then |steps| + 1 else |steps|;
    forall k | 0 <= k < |s'| ensures s'[k].sheep == pattern[k] {
      if k < |steps| { assert s'[k] == steps[k]; }
    }
    forall k | 0 <= k < |s'| ensures s'[k].fromNode == At(start, s', k) {
      if k < |steps| { assert s'[k] == steps[k]; assert At(start, s', k) == At(start, steps, k); }
    }
    forall k | 0 <= k < n ensures Taken(edges, s'[k]) {
      if k < |steps| { assert s'[k] == steps[k]; }
    }
  }

  lemma WalkNoPath(nodes: seq<Node>, edges: seq<Edge>, pattern: seq<string>,
                   start: string, i: nat, cur: string, steps: seq<Step>)
    requires i < |pattern| && |steps| == i
    requires Chain(nodes, edges, pattern, start, steps, i)
    requires cur == At(start, steps, i) && FindNode(nodes, cur).Some? && FirstEdge(edges, cur, pattern[i]).None?
    ensures Continues(nodes, edges, pattern, start, i, steps, Walk(nodes, edges, pattern, i, cur, steps))
  {
    var st := Step(cur, cur, "none", pattern[i], false);
    ChainExtend(nodes, edges, pattern, start, steps, st, false);
    var r := PathResult(steps + [st], false, Some(i), Some(NoPath));
    assert Walk(nodes, edges, pattern, i, cur, steps) == r;
    assert r.steps[i] == st;
    assert StuckNoPath(nodes, edges, pattern, start, r, i);
    assert r.steps[..i] == steps;
  }

  lemma WalkFinished(nodes: seq<Node>, edges: seq<Edge>, pattern: seq<string>,
                     start: string, cur: string, steps: seq<Step>)
    requires |steps| == |pattern|
    requires Chain(nodes, edges, pattern, start, steps, |steps|)
    requires cur == At(start, steps, |steps|)
    ensures Continues(nodes, edges, pattern, start, |steps|, steps, Walk(nodes, edges, pattern, |pattern|, cur, steps))
  {
    var r := Walk(nodes, edges, pattern, |pattern|, cur, steps);
    assert Finished(nodes, edges, pattern, start, r);
    assert r.steps[..|steps|] == steps;
  }

  lemma WalkTargetMissing(nodes: seq<Node>, edges: seq<Edge>, pattern: seq<string>,
                          start: string, i: nat, cur: string, steps: seq<Step>)
    requires i < |pattern| && |steps| == i
    requires Chain(nodes, edges, pattern, start, steps, i)
    requires cur == At(start, steps, i) && FindNode(nodes, cur).Some?
    requires FirstEdge(edges, cur, pattern[i]).Some?
    requires FindNode(nodes, edges[FirstEdge(edges, cur, pattern[i]).value].target).None?
    ensures Continues(nodes, edges, pattern, start, i, steps, Walk(nodes, edges, pattern, i, cur, steps))
  {
    var r := PathResult(steps, false, Some(i), Some(TargetNotFound));
    assert Walk(nodes, edges, pattern, i, cur, steps) == r;
    assert StuckTarget(nodes, edges, pattern, start, r, i);
  }

  lemma WalkTaken(nodes: seq<Node>, edges: seq<Edge>, pattern: seq<string>,
                  start: string, i: nat, cur: string, steps: seq<Step>, k: nat)
    requires i < |pattern| && |steps| == i && k < |edges|
    requires FindNode(nodes, cur).Some? && FirstEdge(edges, cur, pattern[i]) == Some(k)
    requires FindNode(nodes, edges[k].target).Some?
    requires var st := Step(cur, edges[k].target, edges[k].id, pattern[i], edges[k].source == edges[k].target);
             Continues(nodes, edges, pattern, start, i + 1, steps + [st],
                       Walk(nodes, edges, pattern, i + 1, edges[k].target, steps + [st]))
    ensures Continues(nodes, edges, pattern, start, i, steps, Walk(nodes, edges, pattern, i, cur, steps))
  {
    var e := edges[k];
    var steps' := steps + [Step(cur, e.target, e.id, pattern[i], e.source == e.target)];
    var r := Walk(nodes, edges, pattern, i + 1, e.target, steps');
    assert Walk(nodes, edges, pattern, i, cur, steps) == r;
    assert r.steps[..i] == r.steps[..i + 1][..i] == steps'[..i] == steps;
  }

  lemma {:induction false} WalkOutcome(nodes: seq<Node>, edges: seq<Edge>, pattern: seq<string>,
                                       start: string, i: nat, cur: string, steps: seq<Step>)
    requires i <= |pattern| && |steps| == i
    requires Chain(nodes, edges, pattern, start, steps, i)
    requires cur == At(start, steps, i) && FindNode(nodes, cur).Some?
    ensures Continues(nodes, edges, pattern, start, i, steps, Walk(nodes, edges, pattern, i, cur, steps))
    decreases |pattern| - i
  {
    if i == |pattern| {
      WalkFinished(nodes, edges, pattern, start, cur, steps);
    } else {
      var f := FirstEdge(edges, cur, pattern[i]);
      if f.None? {
        WalkNoPath(nodes, edges, pattern, start, i, cur, steps);
      } else if FindNode(nodes, edges[f.value].target).None? {
        WalkTargetMissing(nodes, edges, pattern, start, i, cur, steps);
      } else {
        var e := edges[f.value];
        var st := Step(cur, e.target, e.id, pattern[i], e.source == e.target);
        ChainExtend(nodes, edges, pattern, start, steps, st, true);
        WalkOutcome(nodes, edges, pattern, start, i + 1, e.target, steps + [st]);
        WalkTaken(nodes, edges, pattern, start, i, cur, steps, f.value);
      }
    }
  }

  /**
   * The trace calculatePath returns when a start fence exists: it never
   * reports node-not-found, every recorded hop follows the first matching
   * arrow and the hops chain from the start; a fully consumed pattern
   * succeeds exactly when it ends on an accepting fence and otherwise says
   * wrong-state with no stuck index; a missing arrow at symbol i gives i+1
   * hops, the last standing still; an unknown target gives i hops.
   */
  lemma EvaluateTrace(nodes: seq<Node>, edges: seq<Edge>, pattern: seq<string>)
    requires FindStart(nodes).Some?
    ensures Outcome(nodes, edges, pattern, FindStart(nodes).value.id, Evaluate(nodes, edges, pattern))
  {
    var s := FindStart(nodes).value;
    assert FindNode(nodes, s.id).Some?;
    WalkOutcome(nodes, edges, pattern, s.id, 0, s.id, []);
  }

  /** Without a start fence: no hops, failure, reason no-start; and only then. */
  lemma EvaluateNoStart(nodes: seq<Node>, edges: seq<Edge>, pattern: seq<string>)
    ensures var r := Evaluate(nodes, edges, pattern);
            (r.stuckReason == Some(NoStart) <==> FindStart(nodes).None?)
            && (FindStart(nodes).None? ==> r.steps == [] && !r.success && r.stuckAtStep.None?)
  {
    if FindStart(nodes).Some? {
      EvaluateTrace(nodes, edges, pattern);
    }
  }

  /**
   * An empty pattern makes no hop; it succeeds exactly when the start fence
   * is accepting (with unique fence ids the start fence is the one found by id).
   */
  lemma EvaluateEmptyPattern(nodes: seq<Node>, edges: seq<Edge>)
    requires UniqueNodeIds(nodes)
    ensures var r := Evaluate(nodes, edges, []);
            r.steps == [] && (r.success <==> FindStart(nodes).Some? && FindStart(nodes).value.isAccepting)
  {
    if FindStart(nodes).Some? {
      FindNodeUnique(nodes, FindStart(nodes).value);
    }
  }

  /** No pattern symbol is the empty name (every sheep kind has a name). */
  predicate NamedSheep(pattern: seq<string>) {
    forall k :: 0 <= k < |pattern| ==> pattern[k] != ""
  }

  lemma {:induction false} WalkSound(nodes: seq<Node>, edges: seq<Edge>, pattern: seq<string>,
                                     i: nat, cur: string, steps: seq<Step>)
    requires i <= |pattern| && NamedSheep(pattern)
    requires Walk(nodes, edges, pattern, i, cur, steps).success
    ensures Accepts(edges, AcceptingIds(nodes), cur, pattern[i..])
    decreases |pattern| - i
  {
    if i == |pattern| {
      var n := FindNode(nodes, cur).value;
      var k :| 0 <= k < |nodes| && nodes[k] == n;
      assert nodes[k].id in AcceptingIds(nodes);
    } else {
      var k := FirstEdge(edges, cur, pattern[i]).value;
      var e := edges[k];
      WalkSound(nodes, edges, pattern, i + 1, e.target,
                steps + [Step(cur, e.target, e.id, pattern[i], e.source == e.target)]);
      assert pattern[i..][1..] == pattern[i + 1..];
      assert e.source == cur && Labelled(e) && e.sheep.value == pattern[i..][0];
    }
  }

  /**
   * Soundness against the automaton reading: a pattern of named sheep that
   * calculatePath reports as successful is accepted by the graph.
   */
  lemma EvaluateSound(nodes: seq<Node>, edges: seq<Edge>, pattern: seq<string>)
    requires NamedSheep(pattern) && Evaluate(nodes, edges, pattern).success
    ensures FindStart(nodes).Some?
    ensures Accepts(edges, AcceptingIds(nodes), FindStart(nodes).value.id, pattern)
  {
    WalkSound(nodes, edges, pattern, 0, FindStart(nodes).value.id, []);
    assert pattern[0..] == pattern;
  }

  /** No fence has two placed arrows with the same sheep to different fences. */
  ghost predicate Deterministic(edges: seq<Edge>) {
    forall a, b :: 0 <= a < |edges| && 0 <= b < |edges|
      && Labelled(edges[a]) && edges[a].source == edges[b].source && edges[a].sheep == edges[b].sheep
      ==> edges[a].target == edges[b].target
  }

  /** Every placed arrow points at a fence that exists. */
  ghost predicate TargetsKnown(nodes: seq<Node>, edges: seq<Edge>) {
    forall k :: 0 <= k < |edges| && Labelled(edges[k]) ==> FindNode(nodes, edges[k].target).Some?
  }

  lemma {:induction false} WalkComplete(nodes: seq<Node>, edges: seq<Edge>, pattern: seq<string>,
                                        i: nat, cur: string, steps: seq<Step>)
    requires i <= |pattern| && UniqueNodeIds(nodes) && Deterministic(edges) && TargetsKnown(nodes, edges)
    requires FindNode(nodes, cur).Some?
    requires Accepts(edges, AcceptingIds(nodes), cur, pattern[i..])
    ensures Walk(nodes, edges, pattern, i, cur, steps).success
    decreases |pattern| - i
  {
    if i == |pattern| {
      assert pattern[i..] == [];
      var k :| 0 <= k < |nodes| && nodes[k].isAccepting && nodes[k].id == cur;
      FindNodeUnique(nodes, nodes[k]);
    } else {
      var k :| 0 <= k < |edges| && edges[k].source == cur && Labelled(edges[k])
               && edges[k].sheep.value == pattern[i..][0]
               && Accepts(edges, AcceptingIds(nodes), edges[k].target, pattern[i..][1..]);
      assert Matches(edges[k], cur, pattern[i]);
      FirstEdgeIsFirst(edges, cur, pattern[i]);
      var f := FirstEdge(edges, cur, pattern[i]).value;
      assert edges[f].target == edges[k].target;
      assert pattern[i..][1..] == pattern[i + 1..];
      var e := edges[f];
      WalkComplete(nodes, edges, pattern, i + 1, e.target,
                   steps + [Step(cur, e.target, e.id, pattern[i], e.source == e.target)]);
    }
  }

  /**
   * Completeness on deterministic graphs: with unique fence ids, existing
   * targets and at most one placed arrow per fence and sheep, every pattern
   * the graph accepts is reported as successful.
   */
  lemma EvaluateComplete(nodes: seq<Node>, edges: seq<Edge>, pattern: seq<string>)
    requires UniqueNodeIds(nodes) && Deterministic(edges) && TargetsKnown(nodes, edges)
    requires FindStart(nodes).Some?
    requires Accepts(edges, AcceptingIds(nodes), FindStart(nodes).value.id, pattern)
    ensures Evaluate(nodes, edges, pattern).success
  {
    var s := FindStart(nodes).value;
    FindNodeUnique(nodes, s);
    assert pattern[0..] == pattern;
    WalkComplete(nodes, edges, pattern, 0, s.id, []);
  }

  /**
   * Without determinism the first-match rule can miss an accepting walk:
   * two arrows leave the start with the same sheep, the first to a dead fence.
   */
  lemma FirstMatchMissesNondeterministicWalk()
    ensures var nodes := [Node("s", "stateNode", 0, 0, true, false, None),
                          Node("dead", "stateNode", 0, 0, false, false, None),
                          Node("bed", "stateNode", 0, 0, false, true, None)];
            var edges := [Edge("e1", "s", "dead", "custom", Some("sheep-1"), None),
                          Edge("e2", "s", "bed", "custom", Some("sheep-1"), None)];
            Accepts(edges, AcceptingIds(nodes), "s", ["sheep-1"])
            && !Evaluate(nodes, edges, ["sheep-1"]).success
  {
    var nodes := [Node("s", "stateNode", 0, 0, true, false, None),
                  Node("dead", "stateNode", 0, 0, false, false, None),
                  Node("bed", "stateNode", 0, 0, false, true, None)];
    var edges := [Edge("e1", "s", "dead", "custom", Some("sheep-1"), None),
                  Edge("e2", "s", "bed", "custom", Some("sheep-1"), None)];
    assert AcceptingIds(nodes) == ["bed"];
    assert Accepts(edges, AcceptingIds(nodes), "bed", []);
    assert ["sheep-1"][1..] == [];
    assert Labelled(edges[1]) && Accepts(edges, AcceptingIds(nodes), edges[1].target, ["sheep-1"][1..]);
    assert FirstEdge(edges, "s", "sheep-1") == Some(0);
    assert FindNode(nodes, "dead") == Some(nodes[1]);
  }

  // ----- Running several patterns -----

  /** `patterns || (pattern && pattern.length > 0 ? [pattern] : [])` */
  function AllPatterns(patterns: Option<seq<seq<string>>>, pattern: seq<string>): (r: seq<seq<string>>)
    ensures patterns.Some? ==> r == patterns.value
    ensures patterns.None? ==> (r == [] <==> pattern == []) && (r != [] ==> r == [pattern])
  {
    match patterns
    case Some(ps) => ps
    case None => if |pattern| > 0 then [pattern] else []
  }

  /** `results.every(r => r.success)` */
  predicate AllSucceeded(results: seq<PathResult>) {
    forall k :: 0 <= k < |results| ==> results[k].success
  }

  /** What onComplete receives: the overall verdict and where the last sheep stopped. */
  datatype Report = Report(success: bool, stuckAt: Option<string>)

  /**
   * The pattern loop of runAllPatterns without its delays: each pattern is
   * evaluated in order; nothing is reported when there is no pattern to run.
   */
  method RunAllPatterns(nodes: seq<Node>, edges: seq<Edge>, all: seq<seq<string>>)
    returns (results: seq<PathResult>, report: Option<Report>)
    ensures |results| == |all|
    ensures forall k :: 0 <= k < |all| ==> results[k] == Evaluate(nodes, edges, all[k])
    ensures report.None? <==> all == []
    ensures report.Some? ==> (report.value.success <==> AllSucceeded(results))
    ensures report.Some? ==>
              (var last := results[|results| - 1].steps;
               report.value.stuckAt == if last == [] then None else Some(last[|last| - 1].toNode))
  {
    results := [];
    if |all| == 0 {
      return results, None;
    }
    for patternIdx := 0 to |all|
      invariant |results| == patternIdx
      invariant forall k :: 0 <= k < patternIdx ==> results[k] == Evaluate(nodes, edges, all[k])
    {
      var pathData := CalculatePath(nodes, edges, all[patternIdx]);
      results := results + [pathData];
    }
    var allSuccess := true;
    for k := 0 to |results|
      invariant allSuccess <==> forall j :: 0 <= j < k ==> results[j].success
    {
      allSuccess := allSuccess && results[k].success;
    }
    var lastSteps := results[|results| - 1].steps;
    var stuckAt := if lastSteps == [] then None else Some(lastSteps[|lastSteps| - 1].toNode);
    report := Some(Report(allSuccess, stuckAt));
  }

  /** The graph, read as an automaton from its start fence, accepts `pattern`. */
  ghost predicate AcceptedFromStart(nodes: seq<Node>, edges: seq<Edge>, pattern: seq<string>) {
    FindStart(nodes).Some? && Accepts(edges, AcceptingIds(nodes), FindStart(nodes).value.id, pattern)
  }

  /** An overall success means every pattern of named sheep is accepted by the graph. */
  lemma AllSuccessSound(nodes: seq<Node>, edges: seq<Edge>, all: seq<seq<string>>, results: seq<PathResult>)
    requires |results| == |all| && AllSucceeded(results)
    requires forall k :: 0 <= k < |all| ==> results[k] == Evaluate(nodes, edges, all[k]) && NamedSheep(all[k])
    ensures forall k :: 0 <= k < |all| ==> AcceptedFromStart(nodes, edges, all[k])
  {
    forall k | 0 <= k < |all| ensures AcceptedFromStart(nodes, edges, all[k]) {
      assert results[k].success;
      EvaluateSound(nodes, edges, all[k]);
    }
  }
}
