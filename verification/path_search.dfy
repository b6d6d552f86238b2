/**
 * findAllPaths and the grading of a submitted graph (BuildLevel.tsx and
 * DragLevel.tsx carry the same search): a depth-first search over placed
 * arrows that collects the sheep sequence of every walk of 1 to 10 hops from
 * the start fence that ends on an accepting fence, and the split of a
 * level's target patterns into found and missing ones.
 */
module PathSearch {
  import opened Wrappers
  import opened Graph
  import opened Seqs
  import PathAnimator

  /** `if (path.length >= 10) return` */
  const MaxDepth: nat := 10

  // ----- The search, as a function -----

  /**
   * What `traverse(cur, path, visited)` appends to allPaths: `path` itself
   * when `cur` is accepting and the path is not empty, then, below the depth
   * bound, the results of every placed arrow leaving `cur`, in list order.
   */
  function Dfs(edges: seq<Edge>, accepting: seq<string>, cur: string, path: seq<string>): seq<seq<string>>
    requires |path| <= MaxDepth
    decreases MaxDepth - |path|, |edges| + 1
  {
    (if cur in accepting && |path| > 0 then [path] else [])
    + (if |path| >= MaxDepth then [] else DfsEdges(edges, accepting, cur, path, 0))
  }

  /** The `edges.forEach` of traverse from arrow `j` on. */
  function DfsEdges(edges: seq<Edge>, accepting: seq<string>, cur: string, path: seq<string>, j: nat): seq<seq<string>>
    requires |path| < MaxDepth && j <= |edges|
    decreases MaxDepth - |path|, |edges| - j
  {
    if j == |edges| then []
    else Branch(edges, accepting, cur, path, edges[j]) + DfsEdges(edges, accepting, cur, path, j + 1)
  }

  /** What one arrow of the forEach adds: the search past it when it leaves `cur` carrying a sheep. */
  function Branch(edges: seq<Edge>, accepting: seq<string>, cur: string, path: seq<string>, e: Edge): seq<seq<string>>
    requires |path| < MaxDepth
    decreases MaxDepth - |path|, 0
  {
    if e.source == cur && Labelled(e) then Dfs(edges, accepting, e.target, path + [e.sheep.value]) else []
  }

  /** One more arrow of the forEach moves from what is left to what is done. */
  lemma DfsEdgesStep(edges: seq<Edge>, accepting: seq<string>, cur: string, path: seq<string>, j: nat,
                     done: seq<seq<string>>)
    requires |path| < MaxDepth && j < |edges|
    ensures done + DfsEdges(edges, accepting, cur, path, j)
            == (done + Branch(edges, accepting, cur, path, edges[j])) + DfsEdges(edges, accepting, cur, path, j + 1)
  {
    var part := Branch(edges, accepting, cur, path, edges[j]);
    var rest := DfsEdges(edges, accepting, cur, path, j + 1);
    assert done + (part + rest) == done + part + rest;
  }

  /** The result of findAllPaths: the search from the start fence, [] without one. */
  function AllPaths(nodes: seq<Node>, edges: seq<Edge>): seq<seq<string>> {
    match FindStart(nodes)
    case None => []
    case Some(s) => Dfs(edges, AcceptingIds(nodes), s.id, [])
  }

  // ----- The search, as the source runs it -----

  /**
   * The closure state of one findAllPaths call: the shared `allPaths`,
   * `path` and `visited` that traverse mutates. A visit key
   * `${edge.id}-${path.length}` is kept as the pair (edge id, depth); the
   * decimal depth after the last '-' makes the string form carry the same
   * information.
   */
  class PathCollector {
    const edges: seq<Edge>
    const accepting: seq<string>
    var allPaths: seq<seq<string>>
    var path: seq<string>
    var visited: set<(string, nat)>

    /** Every key on the stack was added at a depth below the current one. */
    ghost predicate Shallow()
      reads this`visited, this`path
    {
      forall key :: key in visited ==> key.1 < |path|
    }

    constructor(edges: seq<Edge>, accepting: seq<string>)
      ensures this.edges == edges && this.accepting == accepting
      ensures allPaths == [] && path == [] && visited == {}
      ensures Shallow()
    {
      this.edges := edges;
      this.accepting := accepting;
      allPaths := [];
      path := [];
      visited := {};
    }

    /**
     * traverse(currentNode, path, visited): appends exactly what the search
     * function describes and leaves `path` and `visited` as it found them, so
     * the visit keys never cut a branch.
     */
    method Traverse(currentNode: string)
      requires |path| <= MaxDepth && Shallow()
      modifies this`allPaths, this`path, this`visited
      ensures allPaths == old(allPaths) + Dfs(edges, accepting, currentNode, old(path))
      ensures path == old(path) && visited == old(visited)
      decreases MaxDepth - |path|, 1
    {
      ghost var path0 := path;
      ghost var target := old(allPaths) + Dfs(edges, accepting, currentNode, path0);
      if currentNode in accepting && |path| > 0 {
        allPaths := allPaths + [path];
      }
      if |path| >= MaxDepth {
        return;
      }
      assert target == allPaths + DfsEdges(edges, accepting, currentNode, path0, 0);
      for j := 0 to |edges|
        invariant path == path0 && visited == old(visited)
        invariant target == allPaths + DfsEdges(edges, accepting, currentNode, path0, j)
      {
        DfsEdgesStep(edges, accepting, currentNode, path0, j, allPaths);
        Follow(currentNode, edges[j]);
      }
    }

    /**
     * One arrow of traverse's forEach: when it leaves `currentNode` with a
     * sheep, its visit key is pushed, the search goes on from its target
     * with the sheep added, and both are popped again. The key is never
     * already on the stack, since every key there has a smaller depth.
     */
    method Follow(currentNode: string, edge: Edge)
      requires |path| < MaxDepth && Shallow()
      modifies this`allPaths, this`path, this`visited
      ensures allPaths == old(allPaths) + Branch(edges, accepting, currentNode, old(path), edge)
      ensures path == old(path) && visited == old(visited)
      decreases MaxDepth - |path|, 0
    {
      if edge.source == currentNode && Labelled(edge) {
        var visitKey := (edge.id, |path|);
        if visitKey !in visited {
          visited := visited + {visitKey};
          path := path + [edge.sheep.value];
          Traverse(edge.target);
          path := path[..|path| - 1];
          visited := visited - {visitKey};
        }
      }
    }
  }

  /** findAllPaths of BuildLevel.tsx: [] at once without a start or an accepting fence. */
  method FindAllPathsBuild(nodes: seq<Node>, edges: seq<Edge>) returns (allPaths: seq<seq<string>>)
    ensures allPaths == AllPaths(nodes, edges)
  {
    var startNode := FindStart(nodes);
    var acceptingNodes := AcceptingIds(nodes);
    if startNode.None? || |acceptingNodes| == 0 {
      NoAcceptingNoPaths(nodes, edges);
      return [];
    }
    var collector := new PathCollector(edges, acceptingNodes);
    collector.Traverse(startNode.value.id);
    allPaths := collector.allPaths;
  }

  /** findAllPaths of DragLevel.tsx: searches whenever a start fence exists. */
  method FindAllPathsDrag(nodes: seq<Node>, edges: seq<Edge>) returns (allPaths: seq<seq<string>>)
    ensures allPaths == AllPaths(nodes, edges)
  {
    var acceptingNodes := AcceptingIds(nodes);
    var collector := new PathCollector(edges, acceptingNodes);
    var startNode := FindStart(nodes);
    if startNode.Some? {
      collector.Traverse(startNode.value.id);
    }
    allPaths := collector.allPaths;
  }

  // ----- What the search finds -----

  /** A result of the forEach part is a result of one placed arrow leaving `cur` from `j` on. */
  lemma DfsEdgesMember(edges: seq<Edge>, accepting: seq<string>, cur: string,
                       path: seq<string>, j: nat, q: seq<string>)
    requires |path| < MaxDepth && j <= |edges|
    ensures q in DfsEdges(edges, accepting, cur, path, j) <==>
            exists k :: j <= k < |edges| && edges[k].source == cur && Labelled(edges[k])
                        && q in Dfs(edges, accepting, edges[k].target, path + [edges[k].sheep.value])
  {
    if q in DfsEdges(edges, accepting, cur, path, j) {
      var k := DfsEdgesFrom(edges, accepting, cur, path, j, q);
    }
    if exists k :: j <= k < |edges| && edges[k].source == cur && Labelled(edges[k])
                   && q in Dfs(edges, accepting, edges[k].target, path + [edges[k].sheep.value]) {
      var k :| j <= k < |edges| && edges[k].source == cur && Labelled(edges[k])
               && q in Dfs(edges, accepting, edges[k].target, path + [edges[k].sheep.value]);
      DfsEdgesHas(edges, accepting, cur, path, j, k, q);
    }
  }

  /** The arrow whose branch reported `q`. */
  lemma {:induction false} DfsEdgesFrom(edges: seq<Edge>, accepting: seq<string>, cur: string,
                                        path: seq<string>, j: nat, q: seq<string>) returns (k: nat)
    requires |path| < MaxDepth && j <= |edges| && q in DfsEdges(edges, accepting, cur, path, j)
    ensures j <= k < |edges| && edges[k].source == cur && Labelled(edges[k])
    ensures q in Dfs(edges, accepting, edges[k].target, path + [edges[k].sheep.value])
    decreases |edges| - j
  {
    var here := Branch(edges, accepting, cur, path, edges[j]);
    if q in here {
      k := j;
    } else {
      k := DfsEdgesFrom(edges, accepting, cur, path, j + 1, q);
    }
  }

  /** The branch of arrow `k` is part of the forEach from any `j <= k`. */
  lemma {:induction false} DfsEdgesHas(edges: seq<Edge>, accepting: seq<string>, cur: string,
                                       path: seq<string>, j: nat, k: nat, q: seq<string>)
    requires |path| < MaxDepth && j <= k < |edges| && edges[k].source == cur && Labelled(edges[k])
    requires q in Dfs(edges, accepting, edges[k].target, path + [edges[k].sheep.value])
    ensures q in DfsEdges(edges, accepting, cur, path, j)
    decreases k - j
  {
    var here := Branch(edges, accepting, cur, path, edges[j]);
    if j < k {
      DfsEdgesHas(edges, accepting, cur, path, j + 1, k, q);
    }
  }

  /**
   * Soundness of the search: everything traverse(cur, path) reports extends
   * `path` to at most 10 sheep, is not empty, and the added sheep can be
   * walked from `cur` along placed arrows to an accepting fence.
   */
  lemma {:induction false} DfsSound(edges: seq<Edge>, accepting: seq<string>, cur: string,
                                    path: seq<string>, q: seq<string>)
    requires |path| <= MaxDepth && q in Dfs(edges, accepting, cur, path)
    ensures 0 < |q| && |path| <= |q| <= MaxDepth && q[..|path|] == path
    ensures Accepts(edges, accepting, cur, q[|path|..])
    decreases MaxDepth - |path|
  {
    if cur in accepting && |path| > 0 && q == path {
      assert q[|path|..] == [];
    } else {
      DfsEdgesMember(edges, accepting, cur, path, 0, q);
      var k :| 0 <= k < |edges| && edges[k].source == cur && Labelled(edges[k])
               && q in Dfs(edges, accepting, edges[k].target, path + [edges[k].sheep.value]);
      var path' := path + [edges[k].sheep.value];
      DfsSound(edges, accepting, edges[k].target, path', q);
      assert q[..|path|] == q[..|path'|][..|path|];
      assert q[|path|..][0] == q[..|path'|][|path|];
      assert q[|path|..][1..] == q[|path'|..];
    }
  }

  /**
   * Completeness of the search: every extension of `path` to at most 10
   * sheep, not empty, that can be walked from `cur` to an accepting fence is
   * reported; the visit keys never prune it.
   */
  lemma {:induction false} DfsComplete(edges: seq<Edge>, accepting: seq<string>, cur: string,
                                       path: seq<string>, q: seq<string>)
    requires |path| <= |q| <= MaxDepth && 0 < |q| && q[..|path|] == path
    requires Accepts(edges, accepting, cur, q[|path|..])
    ensures q in Dfs(edges, accepting, cur, path)
    decreases MaxDepth - |path|
  {
    if |q| == |path| {
      assert q[|path|..] == [];
      assert q == path;
    } else {
      var rest := q[|path|..];
      var k :| 0 <= k < |edges| && edges[k].source == cur && Labelled(edges[k])
               && edges[k].sheep.value == rest[0]
               && Accepts(edges, accepting, edges[k].target, rest[1..]);
      var path' := path + [edges[k].sheep.value];
      assert q[..|path'|] == path';
      assert rest[1..] == q[|path'|..];
      DfsComplete(edges, accepting, edges[k].target, path', q);
      DfsEdgesMember(edges, accepting, cur, path, 0, q);
    }
  }

  /**
   * What findAllPaths returns, in both level kinds: exactly the sheep
   * sequences of 1 to 10 sheep that the graph accepts from its start fence.
   */
  lemma AllPathsExactly(nodes: seq<Node>, edges: seq<Edge>, q: seq<string>)
    ensures q in AllPaths(nodes, edges) <==>
            1 <= |q| <= MaxDepth && PathAnimator.AcceptedFromStart(nodes, edges, q)
  {
    if FindStart(nodes).Some? {
      var s := FindStart(nodes).value;
      assert q[..0] == [] && q[0..] == q;
      if q in AllPaths(nodes, edges) {
        DfsSound(edges, AcceptingIds(nodes), s.id, [], q);
      }
      if 1 <= |q| <= MaxDepth && PathAnimator.AcceptedFromStart(nodes, edges, q) {
        DfsComplete(edges, AcceptingIds(nodes), s.id, [], q);
      }
    }
  }

  /** With no start fence or no accepting fence nothing is found. */
  lemma NoAcceptingNoPaths(nodes: seq<Node>, edges: seq<Edge>)
    requires FindStart(nodes).None? || AcceptingIds(nodes) == []
    ensures AllPaths(nodes, edges) == []
  {
    if AllPaths(nodes, edges) != [] {
      var q := AllPaths(nodes, edges)[0];
      AllPathsExactly(nodes, edges, q);
      var s := FindStart(nodes).value;
      AcceptsNeedsAccepting(edges, AcceptingIds(nodes), s.id, q);
    }
  }

  /**
   * The two evaluators agree: a pattern of 1 to 10 named sheep on which
   * calculatePath succeeds is among the sequences findAllPaths reports.
   */
  lemma SuccessIsFound(nodes: seq<Node>, edges: seq<Edge>, pattern: seq<string>)
    requires 1 <= |pattern| <= MaxDepth && PathAnimator.NamedSheep(pattern)
    requires PathAnimator.Evaluate(nodes, edges, pattern).success
    ensures pattern in AllPaths(nodes, edges)
  {
    PathAnimator.EvaluateSound(nodes, edges, pattern);
    AllPathsExactly(nodes, edges, pattern);
  }

  // ----- Grading -----

  /** pathsMatch: same length and the same sheep at every index. */
  function PathsMatch(path1: seq<string>, path2: seq<string>): (r: bool)
    ensures r <==> path1 == path2
  {
    |path1| == |path2| && forall i :: 0 <= i < |path1| ==> path1[i] == path2[i]
  }

  /** `allPaths.some(path => pathsMatch(path, pattern))` */
  function Found(allPaths: seq<seq<string>>, pattern: seq<string>): (r: bool)
    ensures r <==> pattern in allPaths
  {
    exists k :: 0 <= k < |allPaths| && PathsMatch(allPaths[k], pattern)
  }

  /** The target patterns some found path matches, in their order. */
  function Matched(targets: seq<seq<string>>, allPaths: seq<seq<string>>): (r: seq<seq<string>>)
    ensures forall t :: t in r <==> t in targets && t in allPaths
  {
    if targets == [] then []
    else (if Found(allPaths, targets[0]) then [targets[0]] else []) + Matched(targets[1..], allPaths)
  }

  /** The target patterns no found path matches, in their order. */
  function Unmatched(targets: seq<seq<string>>, allPaths: seq<seq<string>>): (r: seq<seq<string>>)
    ensures forall t :: t in r <==> t in targets && t !in allPaths
  {
    if targets == [] then []
    else (if Found(allPaths, targets[0]) then [] else [targets[0]]) + Unmatched(targets[1..], allPaths)
  }

  /** matched and unmatched together hold each target exactly as often as the targets do. */
  lemma {:induction false} GradeCounts(targets: seq<seq<string>>, allPaths: seq<seq<string>>)
    ensures multiset(Matched(targets, allPaths)) + multiset(Unmatched(targets, allPaths)) == multiset(targets)
  {
    if targets != [] {
      GradeCounts(targets[1..], allPaths);
      assert targets == [targets[0]] + targets[1..];
    }
  }

  /** matched and unmatched each keep the targets' order. */
  lemma {:induction false} GradeOrder(targets: seq<seq<string>>, allPaths: seq<seq<string>>)
    ensures Subsequence(Matched(targets, allPaths), targets)
    ensures Subsequence(Unmatched(targets, allPaths), targets)
  {
    if targets != [] {
      var t := targets[0];
      GradeOrder(targets[1..], allPaths);
      assert targets == [t] + targets[1..];
      SubsequenceCons(Matched(targets[1..], allPaths), targets[1..], t, t in allPaths);
      SubsequenceCons(Unmatched(targets[1..], allPaths), targets[1..], t, t !in allPaths);
      assert Matched(targets, allPaths)
          == (if t in allPaths then [t] + Matched(targets[1..], allPaths) else Matched(targets[1..], allPaths));
      assert Unmatched(targets, allPaths)
          == (if t !in allPaths then [t] + Unmatched(targets[1..], allPaths) else Unmatched(targets[1..], allPaths));
    }
  }

  /** The level is complete (unmatched empty) exactly when every target is found. */
  lemma GradeComplete(targets: seq<seq<string>>, allPaths: seq<seq<string>>)
    ensures Unmatched(targets, allPaths) == [] <==> forall k :: 0 <= k < |targets| ==> targets[k] in allPaths
  {
    if Unmatched(targets, allPaths) == [] {
      forall k | 0 <= k < |targets| ensures targets[k] in allPaths {
        assert targets[k] in targets;
      }
    } else {
      var t := Unmatched(targets, allPaths)[0];
      assert t in Unmatched(targets, allPaths);
    }
  }
}
