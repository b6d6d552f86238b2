/**
 * The graph snapshot the game hands to its evaluators: React Flow nodes
 * (fences) and edges (arrows), reduced to the fields the game logic reads.
 */
module Graph {
  import opened Wrappers

  /** A fence. `kind` is React Flow's node type, (x, y) its position,
      `caption` the optional `data.label`. */
  datatype Node = Node(
    id: string,
    kind: string,
    x: int,
    y: int,
    isStart: bool,
    isAccepting: bool,
    caption: Option<string>)

  /** An arrow. `sheep` is `data.sheep` (None for null or absent);
      `caption` is the React Flow edge `label` that drag mode keeps in step. */
  datatype Edge = Edge(
    id: string,
    source: string,
    target: string,
    kind: string,
    sheep: Option<string>,
    caption: Option<string>)

  /** `x` is a non-null, non-empty string (JavaScript truthiness). */
  predicate Truthy(x: Option<string>) {
    x.Some? && x.value != ""
  }

  /** `edge.data?.sheep` is truthy: a sheep is placed and it is not "". */
  predicate Labelled(e: Edge) {
    e.sheep.Some? && e.sheep.value != ""
  }

  /** `nodes.find(n => n.data?.isStart)` */
  function FindStart(nodes: seq<Node>): (r: Option<Node>)
    ensures r.Some? ==> r.value in nodes && r.value.isStart
    ensures r.None? <==> forall k :: 0 <= k < |nodes| ==> !nodes[k].isStart
  {
    if |nodes| == 0 then None
    else if nodes[0].isStart then Some(nodes[0])
    else FindStart(nodes[1..])
  }

  /** `nodes.find(n => n.id === id)` */
  function FindNode(nodes: seq<Node>, id: string): (r: Option<Node>)
    ensures r.Some? ==> r.value in nodes && r.value.id == id
    ensures r.None? <==> forall k :: 0 <= k < |nodes| ==> nodes[k].id != id
  {
    if |nodes| == 0 then None
    else if nodes[0].id == id then Some(nodes[0])
    else FindNode(nodes[1..], id)
  }

  /** The number of start fences in a list. */
  function CountStarts(nodes: seq<Node>): nat {
    if nodes == [] then 0 else (if nodes[0].isStart then 1 else 0) + CountStarts(nodes[1..])
  }

  /** `nodes.some(n => n.data.isAccepting)` */
  predicate HasAccepting(nodes: seq<Node>) {
    exists k :: 0 <= k < |nodes| && nodes[k].isAccepting
  }

  /** No two fences share an id. */
  predicate UniqueNodeIds(nodes: seq<Node>) {
    forall i, j :: 0 <= i < j < |nodes| ==> nodes[i].id != nodes[j].id
  }

  /** With unique ids the lookup by id finds exactly the node that has it. */
  lemma {:induction false} FindNodeUnique(nodes: seq<Node>, n: Node)
    requires UniqueNodeIds(nodes) && n in nodes
    ensures FindNode(nodes, n.id) == Some(n)
  {
    if nodes[0] != n {
      assert n in nodes[1..];
      FindNodeUnique(nodes[1..], n);
    }
  }

  /** The edge test of calculatePath: leaves `cur` and carries exactly `sym`
      (`e.source === currentNodeId && e.data?.sheep === sheep`). */
  predicate Matches(e: Edge, cur: string, sym: string) {
    e.source == cur && e.sheep == Some(sym)
  }

  /** `edges.find(...)` for that test: the index of a match, the first in list order
      (`FirstEdgeIsFirst`). */
  function FirstEdge(edges: seq<Edge>, cur: string, sym: string): (r: Option<nat>)
    ensures r.Some? ==> r.value < |edges| && Matches(edges[r.value], cur, sym)
  {
    FirstEdgeFrom(edges, cur, sym, 0)
  }

  function FirstEdgeFrom(edges: seq<Edge>, cur: string, sym: string, from: nat): (r: Option<nat>)
    requires from <= |edges|
    ensures r.Some? ==> from <= r.value < |edges| && Matches(edges[r.value], cur, sym)
    decreases |edges| - from
  {
    if from == |edges| then None
    else if Matches(edges[from], cur, sym) then Some(from)
    else FirstEdgeFrom(edges, cur, sym, from + 1)
  }

  lemma {:induction false} FirstEdgeFromIsFirst(edges: seq<Edge>, cur: string, sym: string, from: nat)
    requires from <= |edges|
    ensures var r := FirstEdgeFrom(edges, cur, sym, from);
            (r.Some? ==> forall j :: from <= j < r.value ==> !Matches(edges[j], cur, sym))
            && (r.None? <==> forall j :: from <= j < |edges| ==> !Matches(edges[j], cur, sym))
    decreases |edges| - from
  {
    if from < |edges| && !Matches(edges[from], cur, sym) {
      FirstEdgeFromIsFirst(edges, cur, sym, from + 1);
    }
  }

  /** The match found is the first one, and none is found only when no arrow matches. */
  lemma FirstEdgeIsFirst(edges: seq<Edge>, cur: string, sym: string)
    ensures var r := FirstEdge(edges, cur, sym);
            (r.Some? ==> forall j :: 0 <= j < r.value ==> !Matches(edges[j], cur, sym))
            && (r.None? <==> forall j :: 0 <= j < |edges| ==> !Matches(edges[j], cur, sym))
  {
    FirstEdgeFromIsFirst(edges, cur, sym, 0);
  }

  /** The arrow at `k` is the one found when it matches and no earlier arrow does. */
  lemma FirstEdgeIs(edges: seq<Edge>, cur: string, sym: string, k: nat)
    requires k < |edges| && Matches(edges[k], cur, sym)
    requires forall j :: 0 <= j < k ==> !Matches(edges[j], cur, sym)
    ensures FirstEdge(edges, cur, sym) == Some(k)
  {
    FirstEdgeIsFirst(edges, cur, sym);
  }

  /** No arrow is found when none matches. */
  lemma FirstEdgeNone(edges: seq<Edge>, cur: string, sym: string)
    requires forall j :: 0 <= j < |edges| ==> !Matches(edges[j], cur, sym)
    ensures FirstEdge(edges, cur, sym) == None
  {
    FirstEdgeIsFirst(edges, cur, sym);
  }

  /** `nodes.filter(n => n.data.isAccepting).map(n => n.id)` */
  function AcceptingIds(nodes: seq<Node>): (r: seq<string>)
    ensures forall k :: 0 <= k < |nodes| && nodes[k].isAccepting ==> nodes[k].id in r
    ensures forall id :: id in r ==> exists k :: 0 <= k < |nodes| && nodes[k].isAccepting && nodes[k].id == id
  {
    if |nodes| == 0 then []
    else (if nodes[0].isAccepting then [nodes[0].id] else []) + AcceptingIds(nodes[1..])
  }

  /**
   * The reference meaning of a labelled graph as an automaton: starting at
   * `cur`, the sheep in `labels` can be walked along placed arrows (in any
   * choice of arrow, not only the first) to a fence whose id is accepting.
   */
  ghost predicate Accepts(edges: seq<Edge>, accepting: seq<string>, cur: string, labels: seq<string>)
    decreases |labels|
  {
    if labels == [] then cur in accepting
    else exists k :: 0 <= k < |edges| && edges[k].source == cur && Labelled(edges[k])
                     && edges[k].sheep.value == labels[0]
                     && Accepts(edges, accepting, edges[k].target, labels[1..])
  }

  /** Nothing is accepted when no fence is accepting. */
  lemma {:induction false} AcceptsNeedsAccepting(edges: seq<Edge>, accepting: seq<string>, cur: string, labels: seq<string>)
    requires Accepts(edges, accepting, cur, labels)
    ensures |accepting| > 0
    decreases |labels|
  {
    if labels != [] {
      var k :| 0 <= k < |edges| && edges[k].source == cur && Labelled(edges[k])
               && edges[k].sheep.value == labels[0]
               && Accepts(edges, accepting, edges[k].target, labels[1..]);
      AcceptsNeedsAccepting(edges, accepting, edges[k].target, labels[1..]);
    }
  }

  // ----- Sheep on the arrows -----

  /** `edges.every(edge => edge.data?.sheep)` */
  predicate AllLabelled(edges: seq<Edge>) {
    forall k :: 0 <= k < |edges| ==> Labelled(edges[k])
  }

  /** `edges.filter(e => !e.data?.sheep).length` */
  function EmptyCount(edges: seq<Edge>): (r: nat)
    ensures r <= |edges|
    ensures r == 0 <==> AllLabelled(edges)
  {
    if edges == [] then 0
    else
      assert AllLabelled(edges) <==> Labelled(edges[0]) && AllLabelled(edges[1..]) by {
        if Labelled(edges[0]) && AllLabelled(edges[1..]) {
          forall k | 0 <= k < |edges| ensures Labelled(edges[k]) {
            if k > 0 { assert edges[k] == edges[1..][k - 1]; }
          }
        }
      }
      (if Labelled(edges[0]) then 0 else 1) + EmptyCount(edges[1..])
  }

  /** Same arrows in the same places; only what they carry (sheep, label) may differ. */
  predicate SameArrows(a: seq<Edge>, b: seq<Edge>) {
    |a| == |b|
    && forall k :: 0 <= k < |a| ==> a[k].id == b[k].id && a[k].source == b[k].source && a[k].target == b[k].target
  }

  /** The level-load rewrite of the initial arrows: `{ ...e, data: { ...e.data, sheep: null } }` */
  function ClearSheep(edges: seq<Edge>): (r: seq<Edge>)
    ensures SameArrows(edges, r)
    ensures forall k :: 0 <= k < |r| ==> r[k] == edges[k].(sheep := None)
  {
    if edges == [] then [] else [edges[0].(sheep := None)] + ClearSheep(edges[1..])
  }
}
