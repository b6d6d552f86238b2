/**
 * The build-mode screen (BuildLevel.tsx): the player draws fences and
 * arrows, places sheep on the arrows and submits; the screen grades the
 * drawing against the level's target patterns and keeps the stage score.
 */
module BuildLevel {
  import opened Wrappers
  import opened Text
  import opened Seqs
  import opened Graph
  import opened PathSearch
  import opened GameProgress
  import opened BuildLevelConfigs
  import opened TutorialDemo
  import opened Stars
  import opened Submission
  import StateNode
  import FenceNames

  // ----- Ids handed out by the two counters -----

  /** `state-${n}`: the id of the n-th fence the player adds. */
  function StateId(n: nat): (r: string)
    ensures |r| > 6 && r[..6] == "state-" && r[6..] == NatToString(n)
  {
    "state-" + NatToString(n)
  }

  /** `edge-${n}`: the id of the n-th arrow the player draws. */
  function EdgeId(n: nat): (r: string)
    ensures |r| > 5 && r[..5] == "edge-" && r[5..] == NatToString(n)
  {
    "edge-" + NatToString(n)
  }

  /** Different counter values give different fence ids. */
  lemma StateIdInjective(m: nat, n: nat)
    ensures StateId(m) == StateId(n) <==> m == n
  {
    NatToStringInjective(m, n);
    if StateId(m) == StateId(n) {
      assert StateId(m)[6..] == StateId(n)[6..];
    }
  }

  /** Different counter values give different arrow ids. */
  lemma EdgeIdInjective(m: nat, n: nat)
    ensures EdgeId(m) == EdgeId(n) <==> m == n
  {
    NatToStringInjective(m, n);
    if EdgeId(m) == EdgeId(n) {
      assert EdgeId(m)[5..] == EdgeId(n)[5..];
    }
  }

  /** A fence dropped on the board: a bed (accepting) or a plain fence, captioned "Fence n". */
  function NewFence(n: nat, bed: bool, x: int, y: int): (r: Node)
    ensures r.id == StateId(n) && r.kind == "stateNode" && r.x == x && r.y == y
    ensures !r.isStart && r.isAccepting == bed
    ensures r.caption == Some("Fence " + NatToString(n))
  {
    Node(StateId(n), "stateNode", x, y, false, bed, Some("Fence " + NatToString(n)))
  }

  /**
   * A dropped fence shows as "Fence n" on the board, and would even without
   * its caption, since StateNode reads `state-n` as "Fence n" too.
   */
  lemma NewFenceName(n: nat, bed: bool, x: int, y: int)
    ensures StateNode.FriendlyName(NewFence(n, bed, x, y).id, NewFence(n, bed, x, y).caption) == "Fence " + NatToString(n)
    ensures StateNode.FriendlyName(StateId(n), None) == "Fence " + NatToString(n)
  {
    var id := StateId(n);
    assert ("Fence " + NatToString(n))[0] == 'F' != id[0];
    assert id !in FenceNames.FixedIds by {
      assert |id| > 6;
    }
    assert id[..5] == "state";
    assert StateNode.Lower(id[..5]) == "state";
    assert id[5..][1..] == NatToString(n);
    assert StateNode.StateDigits(id) == Some(NatToString(n));
  }

  // ----- The board and its invariant -----

  predicate DistinctNodeIds(a: Node, b: Node) {
    a.id != b.id
  }

  predicate DistinctEdgeIds(a: Edge, b: Edge) {
    a.id != b.id
  }

  /** Two arrows are parallel when they join the same fences in the same direction. */
  predicate NotParallel(a: Edge, b: Edge) {
    !(a.source == b.source && a.target == b.target)
  }

  /**
   * What the editing handlers keep true: fence ids and arrow ids are
   * distinct, no two arrows are parallel, and every counter-made id on the
   * board was made from a counter value below the counter, so the next one
   * is new.
   */
  ghost predicate Board(nodes: seq<Node>, edges: seq<Edge>, nodeIdCounter: nat, edgeIdCounter: nat) {
    Pairwise(nodes, DistinctNodeIds) && Pairwise(edges, DistinctEdgeIds) && Pairwise(edges, NotParallel)
    && (forall n, k: nat :: n in nodes && n.id == StateId(k) ==> k < nodeIdCounter)
    && (forall e, k: nat :: e in edges && e.id == EdgeId(k) ==> k < edgeIdCounter)
  }

  /** `edges.find(e => e.source === sourceId && e.target === targetId)` finds an arrow. */
  predicate HasEdge(edges: seq<Edge>, source: string, target: string) {
    exists k :: 0 <= k < |edges| && edges[k].source == source && edges[k].target == target
  }

  /** A new arrow between fences not yet joined that way keeps the invariant. */
  lemma BoardAddEdge(nodes: seq<Node>, edges: seq<Edge>, nc: nat, ec: nat, source: string, target: string)
    requires Board(nodes, edges, nc, ec) && !HasEdge(edges, source, target)
    ensures Board(nodes, edges + [CreateEdge(EdgeId(ec), source, target)], nc, ec + 1)
  {
    var e := CreateEdge(EdgeId(ec), source, target);
    var r := edges + [e];
    forall i, j | 0 <= i < j < |r| ensures DistinctEdgeIds(r[i], r[j]) && NotParallel(r[i], r[j]) {
      if j == |edges| {
        assert r[i] == edges[i] && r[i] in edges;
        assert r[i].id != EdgeId(ec);
      } else {
        assert r[i] == edges[i] && r[j] == edges[j];
      }
    }
    forall f, k: nat | f in r && f.id == EdgeId(k) ensures k < ec + 1 {
      if f == e {
        EdgeIdInjective(k, ec);
      }
    }
  }

  /** A dropped fence keeps the invariant. */
  lemma BoardAddNode(nodes: seq<Node>, edges: seq<Edge>, nc: nat, ec: nat, bed: bool, x: int, y: int)
    requires Board(nodes, edges, nc, ec)
    ensures Board(nodes + [NewFence(nc, bed, x, y)], edges, nc + 1, ec)
  {
    var n := NewFence(nc, bed, x, y);
    var r := nodes + [n];
    forall i, j | 0 <= i < j < |r| ensures DistinctNodeIds(r[i], r[j]) {
      if j == |nodes| {
        assert r[i] == nodes[i] && r[i] in nodes;
        assert r[i].id != StateId(nc);
      } else {
        assert r[i] == nodes[i] && r[j] == nodes[j];
      }
    }
    forall m, k: nat | m in r && m.id == StateId(k) ensures k < nc + 1 {
      if m == n {
        StateIdInjective(k, nc);
      }
    }
  }

  /** Placing, moving or clearing sheep keeps the invariant. */
  lemma BoardRelabel(nodes: seq<Node>, edges: seq<Edge>, edges': seq<Edge>, nc: nat, ec: nat)
    requires Board(nodes, edges, nc, ec) && SameArrows(edges, edges')
    ensures Board(nodes, edges', nc, ec)
  {
    forall i, j | 0 <= i < j < |edges'| ensures DistinctEdgeIds(edges'[i], edges'[j]) && NotParallel(edges'[i], edges'[j]) {
      assert DistinctEdgeIds(edges[i], edges[j]) && NotParallel(edges[i], edges[j]);
    }
    forall f, k: nat | f in edges' && f.id == EdgeId(k) ensures k < ec {
      var i :| 0 <= i < |edges'| && edges'[i] == f;
      assert edges[i] in edges && edges[i].id == f.id;
    }
  }

  // ----- Edits -----

  /** `eds.map(e => e.id === id ? { ...e, data: { ...e.data, sheep } } : e)` */
  function SetSheep(edges: seq<Edge>, id: string, sheep: Option<string>): (r: seq<Edge>)
    ensures SameArrows(edges, r)
    ensures forall k :: 0 <= k < |r| ==> r[k] == if edges[k].id == id then edges[k].(sheep := sheep) else edges[k]
  {
    if edges == [] then []
    else [if edges[0].id == id then edges[0].(sheep := sheep) else edges[0]] + SetSheep(edges[1..], id, sheep)
  }

  /**
   * The rewrite of dropSheepAtPosition when the drop lands on arrow
   * `target`: the arrow the sheep was dragged from (`from`, "" when it came
   * from the palette) loses its sheep unless it is `target`, which gets it.
   */
  function MoveSheep(edges: seq<Edge>, target: string, sheep: string, from: string): (r: seq<Edge>)
    ensures SameArrows(edges, r)
    ensures forall k :: 0 <= k < |r| ==>
              r[k] == if from != "" && edges[k].id == from && edges[k].id != target then edges[k].(sheep := None)
                      else if edges[k].id == target then edges[k].(sheep := Some(sheep))
                      else edges[k]
  {
    if edges == [] then []
    else
      var e := edges[0];
      [if from != "" && e.id == from && e.id != target then e.(sheep := None)
       else if e.id == target then e.(sheep := Some(sheep))
       else e] + MoveSheep(edges[1..], target, sheep, from)
  }

  /** Moving a sheep from one arrow to another: the old arrow is empty, the new one carries it, the rest is as before. */
  lemma MoveSheepMoves(edges: seq<Edge>, target: string, sheep: string, from: string, k: nat)
    requires k < |edges| && Pairwise(edges, DistinctEdgeIds)
    ensures var r := MoveSheep(edges, target, sheep, from);
            (edges[k].id == target ==> r[k].sheep == Some(sheep))
            && (from != "" && edges[k].id == from && from != target ==> r[k].sheep == None)
            && (edges[k].id != target && (from == "" || edges[k].id != from) ==> r[k] == edges[k])
            && r[k].caption == edges[k].caption
  {
  }

  /** confirmDelete for a fence: `nds.filter(n => n.id !== id)` */
  function WithoutNode(nodes: seq<Node>, id: string): (r: seq<Node>)
    ensures forall n :: n in r <==> n in nodes && n.id != id
  {
    Keep(nodes, (n: Node) => n.id != id)
  }

  /** confirmDelete for a fence: its arrows go too, `eds.filter(e => e.source !== id && e.target !== id)` */
  function WithoutIncident(edges: seq<Edge>, id: string): (r: seq<Edge>)
    ensures forall e :: e in r <==> e in edges && e.source != id && e.target != id
  {
    Keep(edges, (e: Edge) => e.source != id && e.target != id)
  }

  /** confirmDelete for an arrow: `eds.filter(e => e.id !== id)` */
  function WithoutEdge(edges: seq<Edge>, id: string): (r: seq<Edge>)
    ensures forall e :: e in r <==> e in edges && e.id != id
  {
    Keep(edges, (e: Edge) => e.id != id)
  }

  /** Deleting a fence with its arrows, or an arrow, keeps the invariant and the order of what stays. */
  lemma BoardDelete(nodes: seq<Node>, edges: seq<Edge>, nc: nat, ec: nat, id: string)
    requires Board(nodes, edges, nc, ec)
    ensures Board(WithoutNode(nodes, id), WithoutIncident(edges, id), nc, ec)
    ensures Board(nodes, WithoutEdge(edges, id), nc, ec)
    ensures Subsequence(WithoutNode(nodes, id), nodes) && Subsequence(WithoutIncident(edges, id), edges)
    ensures Subsequence(WithoutEdge(edges, id), edges)
  {
    KeepPairwise(nodes, (n: Node) => n.id != id, DistinctNodeIds);
    KeepPairwise(edges, (e: Edge) => e.source != id && e.target != id, DistinctEdgeIds);
    KeepPairwise(edges, (e: Edge) => e.source != id && e.target != id, NotParallel);
    KeepPairwise(edges, (e: Edge) => e.id != id, DistinctEdgeIds);
    KeepPairwise(edges, (e: Edge) => e.id != id, NotParallel);
    KeepOrder(nodes, (n: Node) => n.id != id);
    KeepOrder(edges, (e: Edge) => e.source != id && e.target != id);
    KeepOrder(edges, (e: Edge) => e.id != id);
  }

  /**
   * A level the board can start from: no initial arrows, distinct fence ids
   * and no fence id the fence counter could make.
   */
  ghost predicate Loadable(c: BuildLevelConfig) {
    c.initialEdges == [] && Pairwise(c.initialNodes, DistinctNodeIds)
    && forall n, k: nat :: n in c.initialNodes ==> n.id != StateId(k)
  }

  /** Loading such a level starts the board in the invariant. */
  lemma BoardLoad(c: BuildLevelConfig)
    requires Loadable(c)
    ensures Board(c.initialNodes, ClearSheep(c.initialEdges), |c.initialNodes| + 1, |c.initialEdges| + 1)
  {
  }

  /** Fence ids of at most six characters are never counter-made, as `state-n` has at least seven. */
  lemma ShortIdsLoadable(c: BuildLevelConfig)
    requires c.initialEdges == [] && Pairwise(c.initialNodes, DistinctNodeIds)
    requires forall k :: 0 <= k < |c.initialNodes| ==> |c.initialNodes[k].id| <= 6
    ensures Loadable(c)
  {
    forall n, k: nat | n in c.initialNodes ensures n.id != StateId(k) {
      assert |StateId(k)| > 6;
    }
  }

  // Every shipped level is loadable, one lemma per level.

  lemma Level1Loadable()
    ensures Loadable(Level1)
  {
    ShortIdsLoadable(Level1);
  }

  lemma Level2Loadable()
    ensures Loadable(Level2)
  {
    ShortIdsLoadable(Level2);
  }

  lemma Level3Loadable()
    ensures Loadable(Level3)
  {
    ShortIdsLoadable(Level3);
  }

  lemma Level4Loadable()
    ensures Loadable(Level4)
  {
    ShortIdsLoadable(Level4);
  }

  lemma Level5Loadable()
    ensures Loadable(Level5)
  {
    ShortIdsLoadable(Level5);
  }

  lemma Level6Loadable()
    ensures Loadable(Level6)
  {
    ShortIdsLoadable(Level6);
  }

  lemma Level7Loadable()
    ensures Loadable(Level7)
  {
    ShortIdsLoadable(Level7);
  }

  lemma Level8Loadable()
    ensures Loadable(Level8)
  {
    ShortIdsLoadable(Level8);
  }

  lemma Level9Loadable()
    ensures Loadable(Level9)
  {
    ShortIdsLoadable(Level9);
  }

  lemma Level10Loadable()
    ensures Loadable(Level10)
  {
    ShortIdsLoadable(Level10);
  }

  /** The hint never suggests placing a sheep once every arrow carries one. */
  lemma HintWhenFilled(c: BuildLevelConfig, nodes: seq<Node>, edges: seq<Edge>)
    requires AllLabelled(edges)
    ensures PickDemoForState(c.conceptsIntroduced, HasAccepting(nodes), |edges|, EmptyCount(edges),
                             c.canAddStates, |nodes|, |c.initialNodes|) != PlaceSheep
  {
  }

  // ----- The shipped levels on the board -----

  /**
   * A level list the screen can run on: ids 1..BUILD_LEVEL_COUNT in order,
   * each level one the board can start from.
   */
  ghost predicate LevelList(levels: seq<BuildLevelConfig>) {
    |levels| == BuildLevelCount && forall k :: 0 <= k < |levels| ==> levels[k].id == k + 1 && Loadable(levels[k])
  }

  /** The shipped list is one. */
  lemma ShippedLevelList()
    ensures LevelList(Levels)
  {
    LevelIds();
    Level1Loadable();
    Level2Loadable();
    Level3Loadable();
    Level4Loadable();
    Level5Loadable();
    Level6Loadable();
    Level7Loadable();
    Level8Loadable();
    Level9Loadable();
    Level10Loadable();
  }

  /** On such a list every id 1..BUILD_LEVEL_COUNT finds a level, and whatever is found is loadable. */
  lemma LevelListLookup(levels: seq<BuildLevelConfig>, id: int)
    requires LevelList(levels)
    ensures FindLevel(levels, id).Some? <==> 1 <= id <= BuildLevelCount
    ensures FindLevel(levels, id).Some? ==> Loadable(FindLevel(levels, id).value)
  {
    var r := FindLevel(levels, id);
    if 1 <= id <= BuildLevelCount {
      assert levels[id - 1].id == id;
    }
    if r.Some? {
      var k :| 0 <= k < |levels| && levels[k] == r.value;
    }
  }

  // ----- Level order -----

  /** `i` is the smallest level id in 1..count not yet completed. */
  predicate IsFirstUncompleted(completed: seq<int>, count: int, i: int) {
    1 <= i <= count && i !in completed && forall j :: 1 <= j < i ==> j in completed
  }

  /** Every level id in 1..count is completed. */
  predicate AllCompleted(completed: seq<int>, count: int) {
    forall j :: 1 <= j <= count ==> j in completed
  }

  /** The loop of handleContinueFromFeedback: the first id in 1..count not completed, none when all are. */
  method FirstUncompleted(completed: seq<int>, count: int) returns (next: Option<int>)
    ensures next.Some? ==> IsFirstUncompleted(completed, count, next.value)
    ensures next.None? <==> AllCompleted(completed, count)
  {
    var i := 1;
    while i <= count
      invariant 1 <= i && (count >= 1 ==> i <= count + 1)
      invariant forall j :: 1 <= j < i ==> j in completed
    {
      if i !in completed {
        return Some(i);
      }
      i := i + 1;
    }
    return None;
  }

  /**
   * The level, score and completed list the screen starts with: the given
   * level and nothing done without saved progress; otherwise the saved score
   * and list, and the first uncompleted level, or the last when all are done.
   */
  predicate Resumed(initialLevel: int, saved: Option<SavedProgress>, levelId: int, score: int, completed: seq<int>) {
    if saved.None? then levelId == initialLevel && score == 0 && completed == []
    else
      score == saved.value.score && completed == saved.value.completedLevels
      && (IsFirstUncompleted(completed, BuildLevelCount, levelId)
          || (levelId == BuildLevelCount && AllCompleted(completed, BuildLevelCount)))
  }

  /** The level, score and completed list the screen starts with (the first uncompleted level, or the last when all are done). */
  method Resume(initialLevel: int, saved: Option<SavedProgress>) returns (levelId: int, score: int, completed: seq<int>)
    ensures Resumed(initialLevel, saved, levelId, score, completed)
  {
    if saved.None? {
      return initialLevel, 0, [];
    }
    var next := FirstUncompleted(saved.value.completedLevels, BuildLevelCount);
    levelId := if next.Some? then next.value else BuildLevelCount;
    score, completed := saved.value.score, saved.value.completedLevels;
  }

  // ----- The screen -----

  datatype Mode = Select | Connect | Delete

  /** The status line texts the logic sets. */
  datatype Message = NoMessage | LoopExists | ConnectionExists | NeedBed | FillArrows | Correct

  /** `messageType`: '' | 'success' | 'error' */
  datatype Tone = Plain | Success | Error

  /** What the delete dialog is about. */
  datatype Pending = NodeTarget(id: string) | EdgeTarget(id: string)

  /** `levelConfig?.canSelfLoop` */
  predicate SelfLoopAllowed(c: Option<BuildLevelConfig>) {
    c.Some? && c.value.canSelfLoop
  }

  /** completeConnection adds an arrow: a loop only where allowed, and never one joining fences already joined that way. */
  predicate CanConnect(edges: seq<Edge>, source: string, target: string, selfLoop: bool) {
    (source != target || selfLoop) && !HasEdge(edges, source, target)
  }

  /** The complaint about an arrow that is already there. */
  function Duplicate(source: string, target: string): Message {
    if source == target then LoopExists else ConnectionExists
  }

  /**
   * The arrows after dropSheepAtPosition, given the arrow the drop lands on
   * (`chosen`, the nearest within reach, if any).
   */
  function DroppedEdges(edges: seq<Edge>, sheep: string, from: string, chosen: Option<string>): (r: seq<Edge>)
    ensures SameArrows(edges, r)
  {
    if Truthy(chosen) then MoveSheep(edges, chosen.value, sheep, from)
    else if from != "" then SetSheep(edges, from, None)
    else edges
  }

  /** A drop that lands on an arrow puts the sheep there; one that lands nowhere takes it off the arrow it came from. */
  lemma DroppedEdgesMeans(edges: seq<Edge>, sheep: string, from: string, chosen: Option<string>, k: nat)
    requires k < |edges|
    ensures var r := DroppedEdges(edges, sheep, from, chosen);
            (Truthy(chosen) && edges[k].id == chosen.value ==> r[k].sheep == Some(sheep))
            && (from != "" && edges[k].id == from && !(Truthy(chosen) && from == chosen.value) ==> r[k].sheep == None)
            && (edges[k].id != from && !(Truthy(chosen) && edges[k].id == chosen.value) ==> r[k] == edges[k])
  {
  }

  /** handleSubmit goes on to grade: a level is loaded, there is a bed, and every arrow carries a sheep. */
  predicate Submittable(c: Option<BuildLevelConfig>, nodes: seq<Node>, edges: seq<Edge>) {
    c.Some? && HasAccepting(nodes) && AllLabelled(edges)
  }

  class BuildLevelGame {
    var currentLevelId: int
    var levelConfig: Option<BuildLevelConfig>
    var nodes: seq<Node>
    var edges: seq<Edge>
    var message: Message
    var tone: Tone
    var selectedEdge: Option<string>
    var selectedSheep: Option<string>
    var connectingFrom: Option<string>
    var hintUsedThisLevel: bool
    var levelComplete: bool
    var score: int
    var completedLevels: seq<int>
    var attempts: int
    var mode: Mode
    var showDeleteConfirm: bool
    var pendingDelete: Option<Pending>
    var showDemo: bool
    var demoConcept: Demo
    var showDetailedFeedback: bool
    var matchedPatterns: seq<seq<string>>
    var unmatchedPatterns: seq<seq<string>>
    var nodeIdCounter: nat
    var edgeIdCounter: nat
    var sessionBadges: seq<Badge>
    /** The level list the screen reads, `BUILD_LEVELS`. */
    const levels: seq<BuildLevelConfig>

    /** The board invariant, on a level the board can start from. */
    ghost predicate Valid()
      reads this`nodes, this`edges, this`nodeIdCounter, this`edgeIdCounter, this`levelConfig
    {
      Board(nodes, edges, nodeIdCounter, edgeIdCounter)
      && (levelConfig.Some? ==> Loadable(levelConfig.value))
    }

    /** The stage score counts the completed levels, each once. */
    predicate Tally()
      reads this`score, this`completedLevels
    {
      score == |completedLevels| && NoRepeats(completedLevels)
    }

    /** The level is shown complete, and a first completion adds the level and a point. */
    predicate Marked(levelId: int, completedBefore: seq<int>, scoreBefore: int)
      reads this`levelComplete, this`message, this`tone, this`score, this`completedLevels
    {
      var first := levelId !in completedBefore;
      levelComplete && message == Correct && tone == Success
      && score == (if first then scoreBefore + 1 else scoreBefore)
      && completedLevels == (if first then completedBefore + [levelId] else completedBefore)
    }

    /**
     * The provider holds what the level's stars, the correct answer and the
     * stage stars (from the current score) give, and what they newly award
     * joins the session badges.
     */
    predicate Shown(progress: GameProgressProvider, seen: ProgressState, levelId: int, attemptsBefore: int,
                    hintUsed: bool, sessionBefore: seq<Badge>)
      reads this`score, this`sessionBadges, progress
    {
      var unlock := UnlockStars(attemptsBefore, hintUsed);
      var stage := StageStars(score, LevelCount(BuildStage));
      progress.state == SubmitProgress(seen, seen, BuildStage, levelId, unlock, hintUsed, stage)
      && sessionBadges == sessionBefore + UniqueBadges(SubmitBadges(seen, BuildStage, levelId, unlock, hintUsed, stage))
    }

    /**
     * handleSubmit graded the board: the attempt is counted, the target
     * patterns are split into matched and unmatched against the accepted
     * walks, and the level is completed exactly when none is unmatched.
     */
    twostate predicate Graded(progress: GameProgressProvider)
      reads this, progress
    {
      old(levelConfig).Some?
      && Judged(progress, old(levelConfig.value.targetPatterns), old(AllPaths(nodes, edges)), old(progress.state),
                old(currentLevelId), old(attempts), old(hintUsedThisLevel), old(completedLevels), old(score),
                old(sessionBadges), old(levelComplete))
    }

    /**
     * The board's accepted walks `allPaths` were judged against the level's
     * `targets`, from the state given by the remaining parameters: the
     * attempt is counted, the patterns are split into matched and unmatched,
     * and the level is completed exactly when none is unmatched; otherwise
     * nothing else changes.
     */
    predicate Judged(progress: GameProgressProvider, targets: seq<seq<string>>, allPaths: seq<seq<string>>,
                     seen: ProgressState, levelId: int, attemptsBefore: int, hintUsed: bool,
                     completedBefore: seq<int>, scoreBefore: int, sessionBefore: seq<Badge>, completeBefore: bool)
      reads this`attempts, this`showDetailedFeedback, this`matchedPatterns, this`unmatchedPatterns, this`message,
            this`tone, this`score, this`completedLevels, this`levelComplete, this`sessionBadges, progress
    {
      Counted(targets, allPaths, attemptsBefore)
      && (unmatchedPatterns != [] ==> Rejected(progress, seen, completedBefore, scoreBefore, sessionBefore, completeBefore))
      && (unmatchedPatterns == [] ==>
            Marked(levelId, completedBefore, scoreBefore)
            && Shown(progress, seen, levelId, attemptsBefore, hintUsed, sessionBefore))
    }

    /** The attempt is counted and the target patterns are split into those some walk matches and the rest. */
    predicate Counted(targets: seq<seq<string>>, allPaths: seq<seq<string>>, attemptsBefore: int)
      reads this`attempts, this`showDetailedFeedback, this`matchedPatterns, this`unmatchedPatterns
    {
      attempts == attemptsBefore + 1 && showDetailedFeedback
      && matchedPatterns == Matched(targets, allPaths) && unmatchedPatterns == Unmatched(targets, allPaths)
    }

    /** A failed submission: a plain error, and the progress, the score and the badges as they were. */
    predicate Rejected(progress: GameProgressProvider, seen: ProgressState, completedBefore: seq<int>, scoreBefore: int,
                       sessionBefore: seq<Badge>, completeBefore: bool)
      reads this`message, this`tone, this`score, this`completedLevels, this`levelComplete, this`sessionBadges, progress
    {
      message == NoMessage && tone == Error && progress.state == seen
      && score == scoreBefore && completedLevels == completedBefore
      && levelComplete == completeBefore && sessionBadges == sessionBefore
    }

    /**
     * completeConnection(s, t) happened: the connection is given up in
     * every case, and an arrow is added or the duplicate reported.
     */
    twostate predicate Connected(s: string, t: string)
      reads this
    {
      connectingFrom.None?
      && if CanConnect(old(edges), s, t, SelfLoopAllowed(levelConfig)) then
           edges == old(edges) + [CreateEdge(EdgeId(old(edgeIdCounter)), s, t)]
           && edgeIdCounter == old(edgeIdCounter) + 1 && message == old(message) && tone == old(tone)
           && (if old(!levelComplete) then !showDetailedFeedback else showDetailedFeedback == old(showDetailedFeedback))
         else
           edges == old(edges) && edgeIdCounter == old(edgeIdCounter) && showDetailedFeedback == old(showDetailedFeedback)
           && if s != t || SelfLoopAllowed(levelConfig) then message == Duplicate(s, t) && tone == Error
              else message == old(message) && tone == old(tone)
    }

    /**
     * The effect run after a render whose fences or arrows were replaced
     * (`changed`): an open feedback panel closes unless the level is
     * complete; otherwise the panel is as it was.
     */
    twostate predicate FeedbackAfter(changed: bool)
      reads this`showDetailedFeedback, this`levelComplete
    {
      if changed && old(!levelComplete) then !showDetailedFeedback else showDetailedFeedback == old(showDetailedFeedback)
    }

    /** The board-change effect: the feedback panel of an incomplete level closes. */
    method DismissFeedback()
      modifies this`showDetailedFeedback
      ensures FeedbackAfter(true)
    {
      if showDetailedFeedback && !levelComplete {
        showDetailedFeedback := false;
      }
    }

    /**
     * The state of the first render on the level list `levelList`, before
     * any effect has run: the board is empty until the level-load effect
     * (`LoadLevel`) sets it up.
     */
    constructor(levelList: seq<BuildLevelConfig>, initialLevel: int, saved: Option<SavedProgress>)
      requires LevelList(levelList)
      ensures Valid() && LevelList(levels) && levels == levelList
      ensures Resumed(initialLevel, saved, currentLevelId, score, completedLevels)
      ensures saved.None? ==> Tally()
      ensures levelConfig == FindLevel(levels, if saved.Some? then saved.value.currentLevelId else initialLevel)
      ensures nodes == [] && edges == [] && nodeIdCounter == 1 && edgeIdCounter == 1
      ensures attempts == 0 && !levelComplete && !hintUsedThisLevel && mode == Select && sessionBadges == []
      ensures message == NoMessage && tone == Plain && selectedEdge.None? && selectedSheep.None? && connectingFrom.None?
    {
      var levelId, startScore, startCompleted := Resume(initialLevel, saved);
      var firstId := if saved.Some? then saved.value.currentLevelId else initialLevel;
      currentLevelId := levelId;
      levels := levelList;
      LevelListLookup(levelList, firstId);
      levelConfig := FindLevel(levelList, firstId);
      nodes, edges := [], [];
      message, tone := NoMessage, Plain;
      selectedEdge, selectedSheep, connectingFrom := None, None, None;
      hintUsedThisLevel, levelComplete := false, false;
      score, completedLevels := startScore, startCompleted;
      attempts := 0;
      mode := Select;
      showDeleteConfirm, pendingDelete := false, None;
      showDemo, demoConcept, showDetailedFeedback := false, Connecting, false;
      matchedPatterns, unmatchedPatterns := [], [];
      nodeIdCounter, edgeIdCounter := 1, 1;
      sessionBadges := [];
    }

    /** The board a level starts with: its own fences, its arrows emptied, both counters just past them. */
    predicate Fresh(c: BuildLevelConfig)
      reads this`nodes, this`edges, this`nodeIdCounter, this`edgeIdCounter
    {
      nodes == c.initialNodes && edges == ClearSheep(c.initialEdges)
      && nodeIdCounter == |c.initialNodes| + 1 && edgeIdCounter == |c.initialEdges| + 1
    }

    /** No message, no arrow selected or being drawn, the level not complete, select mode, no feedback panel. */
    predicate Cleared()
      reads this`message, this`tone, this`selectedEdge, this`connectingFrom, this`levelComplete, this`mode,
            this`showDetailedFeedback
    {
      message == NoMessage && tone == Plain && selectedEdge.None? && connectingFrom.None?
      && !levelComplete && mode == Select && !showDetailedFeedback
    }

    /** Sets up the board of level `c`. */
    method SetUpBoard(c: BuildLevelConfig)
      requires Loadable(c)
      modifies this`nodes, this`edges, this`nodeIdCounter, this`edgeIdCounter
      ensures Board(nodes, edges, nodeIdCounter, edgeIdCounter) && Fresh(c)
    {
      BoardLoad(c);
      nodes := c.initialNodes;
      edges := ClearSheep(c.initialEdges);
      nodeIdCounter := |c.initialNodes| + 1;
      edgeIdCounter := |c.initialEdges| + 1;
    }

    /** The screen state both a level load and a reset clear. */
    method ClearScreen()
      modifies this`message, this`tone, this`selectedEdge, this`connectingFrom, this`levelComplete, this`mode,
               this`showDetailedFeedback
      ensures Cleared()
    {
      message, tone := NoMessage, Plain;
      selectedEdge, connectingFrom := None, None;
      levelComplete := false;
      mode := Select;
      showDetailedFeedback := false;
    }

    /** The effect run whenever currentLevelId changes: the level's board, with every arrow empty. */
    method LoadLevel()
      requires Valid() && LevelList(levels)
      modifies this`levelConfig, this`nodes, this`edges, this`message, this`tone, this`selectedEdge,
               this`connectingFrom, this`levelComplete, this`attempts, this`showDemo, this`mode,
               this`showDetailedFeedback, this`nodeIdCounter, this`edgeIdCounter
      ensures Valid()
      ensures FindLevel(levels, currentLevelId).None? ==> unchanged(this)
      ensures var c := FindLevel(levels, currentLevelId);
              c.Some? ==> levelConfig == c && Fresh(c.value) && Cleared() && attempts == 0 && !showDemo
    {
      var config := FindLevel(levels, currentLevelId);
      LevelListLookup(levels, currentLevelId);
      if config.Some? {
        StartLevel(config.value);
      }
    }

    /** The found level `c` becomes the current one, on its fresh board with the screen cleared. */
    method StartLevel(c: BuildLevelConfig)
      requires Loadable(c)
      modifies this`levelConfig, this`nodes, this`edges, this`message, this`tone, this`selectedEdge,
               this`connectingFrom, this`levelComplete, this`attempts, this`showDemo, this`mode,
               this`showDetailedFeedback, this`nodeIdCounter, this`edgeIdCounter
      ensures Valid()
      ensures levelConfig == Some(c) && Fresh(c) && Cleared() && attempts == 0 && !showDemo
    {
      SetUpBoard(c);
      levelConfig := Some(c);
      ClearScreen();
      attempts := 0;
      showDemo := false;
    }

    /** handleReset: the level's board again, with the selections, the session's badges and the feedback cleared. */
    method HandleReset()
      requires Valid()
      modifies this`nodes, this`edges, this`selectedEdge, this`selectedSheep, this`connectingFrom, this`message,
               this`tone, this`levelComplete, this`mode, this`showDetailedFeedback, this`sessionBadges,
               this`nodeIdCounter, this`edgeIdCounter
      ensures Valid()
      ensures levelConfig.None? ==> unchanged(this)
      ensures levelConfig.Some? ==> Fresh(levelConfig.value) && Cleared() && selectedSheep.None? && sessionBadges == []
    {
      if levelConfig.None? {
        return;
      }
      SetUpBoard(levelConfig.value);
      ClearScreen();
      selectedSheep := None;
      sessionBadges := [];
    }

    /** completeConnection: a new empty arrow, or the duplicate reported; the connection is given up either way. */
    method CompleteConnection(sourceId: string, targetId: string)
      requires Valid()
      modifies this`edges, this`edgeIdCounter, this`message, this`tone, this`connectingFrom, this`showDetailedFeedback
      ensures Valid()
      ensures Connected(sourceId, targetId)
    {
      if sourceId != targetId || SelfLoopAllowed(levelConfig) {
        if HasEdge(edges, sourceId, targetId) {
          message := Duplicate(sourceId, targetId);
          tone := Error;
          connectingFrom := None;
          return;
        }
        BoardAddEdge(nodes, edges, nodeIdCounter, edgeIdCounter, sourceId, targetId);
        var newEdge := CreateEdge(EdgeId(edgeIdCounter), sourceId, targetId);
        edgeIdCounter := edgeIdCounter + 1;
        edges := edges + [newEdge];
        DismissFeedback();
      }
      connectingFrom := None;
    }

    /** A fence dropped at (x, y): `state-${n}` captioned "Fence n", a bed when `bed`. */
    method AddFence(bed: bool, x: int, y: int)
      requires Valid()
      modifies this`nodes, this`nodeIdCounter, this`showDetailedFeedback
      ensures Valid()
      ensures nodes == old(nodes) + [NewFence(old(nodeIdCounter), bed, x, y)] && nodeIdCounter == old(nodeIdCounter) + 1
      ensures FeedbackAfter(true)
    {
      BoardAddNode(nodes, edges, nodeIdCounter, edgeIdCounter, bed, x, y);
      nodes := nodes + [NewFence(nodeIdCounter, bed, x, y)];
      nodeIdCounter := nodeIdCounter + 1;
      DismissFeedback();
    }

    /** dropSheepAtPosition, with `chosen` the arrow the drop lands on, if any. */
    method DropSheepAtPosition(sheepType: string, from: string, chosen: Option<string>)
      requires Valid()
      modifies this`edges, this`selectedEdge, this`showDetailedFeedback
      ensures Valid()
      ensures edges == DroppedEdges(old(edges), sheepType, from, chosen)
      ensures selectedEdge == if Truthy(chosen) then None else old(selectedEdge)
      ensures FeedbackAfter(Truthy(chosen) || from != "")
    {
      var dropped := DroppedEdges(edges, sheepType, from, chosen);
      BoardRelabel(nodes, edges, dropped, nodeIdCounter, edgeIdCounter);
      edges := dropped;
      if Truthy(chosen) {
        selectedEdge := None;
      }
      if Truthy(chosen) || from != "" {
        DismissFeedback();
      }
    }

    /**
     * handleDropOnGraph: a toolbar tool (arrow start, arrow end, bed), else a
     * sheep, else a plain fence where the level lets the player add fences.
     * `nearestNode` is the fence the drop is near and `chosen` the arrow, if any.
     */
    method HandleDropOnGraph(toolType: string, sheepType: string, fromEdge: string, nodeType: string,
                             nearestNode: Option<string>, chosen: Option<string>, x: int, y: int)
      requires Valid()
      modifies this`connectingFrom, this`mode, this`edges, this`edgeIdCounter, this`message, this`tone,
               this`nodes, this`nodeIdCounter, this`selectedEdge, this`showDetailedFeedback
      ensures Valid()
      ensures toolType == "arrow-from" && Truthy(nearestNode) ==>
                connectingFrom == nearestNode && mode == Connect
                && unchanged(this`edges, this`edgeIdCounter, this`message, this`tone, this`nodes, this`nodeIdCounter,
                             this`selectedEdge, this`showDetailedFeedback)
      ensures toolType == "arrow-to" && Truthy(nearestNode) && Truthy(old(connectingFrom)) ==>
                Connected(old(connectingFrom).value, nearestNode.value)
                && unchanged(this`mode, this`nodes, this`nodeIdCounter, this`selectedEdge)
      ensures toolType == "bed" ==>
                nodes == old(nodes) + [NewFence(old(nodeIdCounter), true, x, y)] && nodeIdCounter == old(nodeIdCounter) + 1
                && FeedbackAfter(true)
                && unchanged(this`connectingFrom, this`mode, this`edges, this`edgeIdCounter, this`message, this`tone,
                             this`selectedEdge)
      ensures toolType !in ["", "arrow-from", "arrow-to", "bed"] ==> unchanged(this)
      ensures toolType == "arrow-from" && !Truthy(nearestNode) ==> unchanged(this)
      ensures toolType == "arrow-to" && !(Truthy(nearestNode) && Truthy(old(connectingFrom))) ==> unchanged(this)
      ensures toolType == "" && sheepType != "" ==>
                edges == DroppedEdges(old(edges), sheepType, fromEdge, chosen)
                && selectedEdge == (if Truthy(chosen) then None else old(selectedEdge))
                && FeedbackAfter(Truthy(chosen) || fromEdge != "")
                && unchanged(this`connectingFrom, this`mode, this`edgeIdCounter, this`message, this`tone, this`nodes,
                             this`nodeIdCounter)
      ensures toolType == "" && sheepType == "" && levelConfig.Some? && levelConfig.value.canAddStates
              && nodeType == "stateNode" ==>
                nodes == old(nodes) + [NewFence(old(nodeIdCounter), false, x, y)]
                && nodeIdCounter == old(nodeIdCounter) + 1 && FeedbackAfter(true)
                && unchanged(this`connectingFrom, this`mode, this`edges, this`edgeIdCounter, this`message, this`tone,
                             this`selectedEdge)
      ensures (toolType == "" && sheepType == ""
               && !(levelConfig.Some? && levelConfig.value.canAddStates && nodeType == "stateNode")) ==> unchanged(this)
    {
      if toolType != "" {
        if toolType == "arrow-from" && Truthy(nearestNode) {
          connectingFrom := nearestNode;
          mode := Connect;
        } else if toolType == "arrow-to" && Truthy(nearestNode) && Truthy(connectingFrom) {
          CompleteConnection(connectingFrom.value, nearestNode.value);
        } else if toolType == "bed" {
          AddFence(true, x, y);
        }
        return;
      }
      if sheepType != "" {
        DropSheepAtPosition(sheepType, fromEdge, chosen);
        return;
      }
      if !(levelConfig.Some? && levelConfig.value.canAddStates) {
        return;
      }
      if nodeType != "stateNode" {
        return;
      }
      AddFence(false, x, y);
    }

    /**
     * onNodeClick: in connect mode the first click picks the arrow's start and
     * the second completes it; in delete mode any fence but the start fence
     * is queued for deletion.
     */
    method OnNodeClick(node: Node)
      requires Valid()
      modifies this`connectingFrom, this`edges, this`edgeIdCounter, this`message, this`tone, this`pendingDelete,
               this`showDeleteConfirm, this`showDetailedFeedback
      ensures Valid()
      ensures mode == Connect && old(connectingFrom).None? ==>
                connectingFrom == Some(node.id)
                && unchanged(this`edges, this`edgeIdCounter, this`message, this`tone, this`pendingDelete,
                             this`showDeleteConfirm, this`showDetailedFeedback)
      ensures mode == Connect && old(connectingFrom).Some? ==>
                Connected(old(connectingFrom).value, node.id) && unchanged(this`pendingDelete, this`showDeleteConfirm)
      ensures mode == Delete && !node.isStart ==>
                pendingDelete == Some(NodeTarget(node.id)) && showDeleteConfirm
                && unchanged(this`connectingFrom, this`edges, this`edgeIdCounter, this`message, this`tone,
                             this`showDetailedFeedback)
      ensures mode == Select || (mode == Delete && node.isStart) ==> unchanged(this)
    {
      if mode == Connect {
        if connectingFrom.None? {
          connectingFrom := Some(node.id);
        } else {
          CompleteConnection(connectingFrom.value, node.id);
        }
      } else if mode == Delete {
        if !node.isStart {
          pendingDelete := Some(NodeTarget(node.id));
          showDeleteConfirm := true;
        }
      }
    }

    /**
     * onEdgeClick: in delete mode the arrow is queued for deletion; else a
     * selected sheep goes onto it; else a sheep on it is taken off; else it
     * is selected.
     */
    method OnEdgeClick(edge: Edge)
      requires Valid()
      modifies this`pendingDelete, this`showDeleteConfirm, this`edges, this`selectedSheep, this`selectedEdge,
               this`showDetailedFeedback
      ensures Valid()
      ensures mode == Delete ==>
                pendingDelete == Some(EdgeTarget(edge.id)) && showDeleteConfirm
                && unchanged(this`edges, this`selectedSheep, this`selectedEdge, this`showDetailedFeedback)
      ensures mode != Delete && Truthy(old(selectedSheep)) ==>
                edges == SetSheep(old(edges), edge.id, old(selectedSheep)) && selectedSheep.None? && FeedbackAfter(true)
                && unchanged(this`pendingDelete, this`showDeleteConfirm, this`selectedEdge)
      ensures mode != Delete && !Truthy(old(selectedSheep)) && Labelled(edge) ==>
                edges == SetSheep(old(edges), edge.id, None) && FeedbackAfter(true)
                && unchanged(this`pendingDelete, this`showDeleteConfirm, this`selectedSheep, this`selectedEdge)
      ensures mode != Delete && !Truthy(old(selectedSheep)) && !Labelled(edge) ==>
                selectedEdge == Some(edge.id)
                && unchanged(this`pendingDelete, this`showDeleteConfirm, this`edges, this`selectedSheep,
                             this`showDetailedFeedback)
    {
      if mode == Delete {
        pendingDelete := Some(EdgeTarget(edge.id));
        showDeleteConfirm := true;
      } else if Truthy(selectedSheep) {
        var placed := SetSheep(edges, edge.id, selectedSheep);
        BoardRelabel(nodes, edges, placed, nodeIdCounter, edgeIdCounter);
        edges := placed;
        selectedSheep := None;
        DismissFeedback();
      } else if Labelled(edge) {
        var cleared := SetSheep(edges, edge.id, None);
        BoardRelabel(nodes, edges, cleared, nodeIdCounter, edgeIdCounter);
        edges := cleared;
        DismissFeedback();
      } else {
        selectedEdge := Some(edge.id);
      }
    }

    /** confirmDelete: a fence goes with every arrow touching it; an arrow goes alone. */
    method ConfirmDelete()
      requires Valid()
      modifies this`nodes, this`edges, this`showDeleteConfirm, this`pendingDelete, this`showDetailedFeedback
      ensures Valid()
      ensures old(pendingDelete).None? ==> unchanged(this)
      ensures old(pendingDelete).Some? ==> !showDeleteConfirm && pendingDelete.None? && FeedbackAfter(true)
      ensures old(pendingDelete).Some? && old(pendingDelete).value.NodeTarget? ==>
                var id := old(pendingDelete).value.id;
                nodes == WithoutNode(old(nodes), id) && edges == WithoutIncident(old(edges), id)
      ensures old(pendingDelete).Some? && old(pendingDelete).value.EdgeTarget? ==>
                nodes == old(nodes) && edges == WithoutEdge(old(edges), old(pendingDelete).value.id)
    {
      if pendingDelete.None? {
        return;
      }
      RemoveTarget(pendingDelete.value);
      assert Valid();
      showDeleteConfirm := false;
      pendingDelete := None;
      DismissFeedback();
    }

    /** The deletion confirmDelete carries out: a fence with its arrows, or one arrow. */
    method RemoveTarget(target: Pending)
      requires Board(nodes, edges, nodeIdCounter, edgeIdCounter)
      modifies this`nodes, this`edges
      ensures Board(nodes, edges, nodeIdCounter, edgeIdCounter)
      ensures target.NodeTarget? ==> nodes == WithoutNode(old(nodes), target.id) && edges == WithoutIncident(old(edges), target.id)
      ensures target.EdgeTarget? ==> nodes == old(nodes) && edges == WithoutEdge(old(edges), target.id)
    {
      BoardDelete(nodes, edges, nodeIdCounter, edgeIdCounter, target.id);
      if target.NodeTarget? {
        nodes, edges := WithoutNode(nodes, target.id), WithoutIncident(edges, target.id);
      } else {
        edges := WithoutEdge(edges, target.id);
      }
    }

    /** cancelDelete */
    method CancelDelete()
      modifies this`showDeleteConfirm, this`pendingDelete
      ensures !showDeleteConfirm && pendingDelete.None?
    {
      showDeleteConfirm := false;
      pendingDelete := None;
    }

    /** A palette sheep clicked: selected (switching to connect mode), or unselected if it already was. */
    method ToggleSheep(sheepId: string)
      modifies this`selectedSheep, this`message, this`selectedEdge, this`mode, this`connectingFrom, this`tone
      ensures old(selectedSheep) == Some(sheepId) ==>
                selectedSheep.None? && message == NoMessage
                && unchanged(this`selectedEdge, this`mode, this`connectingFrom, this`tone)
      ensures old(selectedSheep) != Some(sheepId) ==>
                selectedSheep == Some(sheepId) && selectedEdge.None? && mode == Connect
                && connectingFrom.None? && tone == Plain && message == old(message)
    {
      if selectedSheep == Some(sheepId) {
        selectedSheep := None;
        message := NoMessage;
      } else {
        selectedSheep := Some(sheepId);
        selectedEdge := None;
        mode := Connect;
        connectingFrom := None;
        tone := Plain;
      }
    }

    /** The select tool. */
    method ChooseSelect()
      modifies this`mode, this`connectingFrom, this`selectedSheep
      ensures mode == Select && connectingFrom.None? && selectedSheep.None?
    {
      mode := Select;
      connectingFrom := None;
      selectedSheep := None;
    }

    /** The delete tool. */
    method ChooseDelete()
      modifies this`mode, this`connectingFrom, this`selectedEdge, this`selectedSheep
      ensures mode == Delete && connectingFrom.None? && selectedEdge.None? && selectedSheep.None?
    {
      mode := Delete;
      connectingFrom := None;
      selectedEdge := None;
      selectedSheep := None;
    }

    /** The arrow tool clicked: connect mode, and an arrow already started is given up. */
    method ChooseConnect()
      modifies this`mode, this`connectingFrom, this`selectedSheep
      ensures mode == Connect && selectedSheep.None?
      ensures connectingFrom == if Truthy(old(connectingFrom)) then None else old(connectingFrom)
    {
      mode := Connect;
      selectedSheep := None;
      if Truthy(connectingFrom) {
        connectingFrom := None;
      }
    }

    /** handleHintClick: the demo that fits the level and the board. */
    method HandleHintClick()
      modifies this`hintUsedThisLevel, this`demoConcept, this`showDemo
      ensures levelConfig.None? ==> unchanged(this)
      ensures levelConfig.Some? ==>
                var c := levelConfig.value;
                hintUsedThisLevel && showDemo
                && demoConcept == PickDemoForState(c.conceptsIntroduced, HasAccepting(nodes), |edges|, EmptyCount(edges),
                                                   c.canAddStates, |nodes|, |c.initialNodes|)
    {
      if levelConfig.None? {
        return;
      }
      var c := levelConfig.value;
      hintUsedThisLevel := true;
      demoConcept := PickDemoForState(c.conceptsIntroduced, HasAccepting(nodes), |edges|, EmptyCount(edges),
                                      c.canAddStates, |nodes|, |c.initialNodes|);
      showDemo := true;
    }

    /**
     * handleSubmit: refuse a board without a bed or with an empty arrow;
     * otherwise count the attempt and grade the board's paths against the
     * target patterns; a full match completes the level and awards badges.
     */
    method HandleSubmit(progress: GameProgressProvider)
      requires ValidState(progress.state)
      modifies this`message, this`tone, this`attempts, this`matchedPatterns, this`unmatchedPatterns, this`score,
               this`completedLevels, this`levelComplete, this`showDetailedFeedback, this`sessionBadges, progress
      ensures ValidState(progress.state)
      ensures old(Tally()) ==> Tally()
      ensures old(levelConfig).None? ==> unchanged(this) && unchanged(progress)
      ensures old(levelConfig.Some? && !HasAccepting(nodes)) ==>
                message == NeedBed && tone == Error && unchanged(progress)
                && unchanged(this`attempts, this`matchedPatterns, this`unmatchedPatterns, this`score,
                             this`completedLevels, this`levelComplete, this`showDetailedFeedback, this`sessionBadges)
      ensures old(levelConfig.Some? && HasAccepting(nodes) && !AllLabelled(edges)) ==>
                message == FillArrows && tone == Error && unchanged(progress)
                && unchanged(this`attempts, this`matchedPatterns, this`unmatchedPatterns, this`score,
                             this`completedLevels, this`levelComplete, this`showDetailedFeedback, this`sessionBadges)
      ensures old(Submittable(levelConfig, nodes, edges)) ==> Graded(progress)
    {
      if levelConfig.None? {
        return;
      }
      if !HasAccepting(nodes) {
        message, tone := NeedBed, Error;
        return;
      }
      if !AllLabelled(edges) {
        message, tone := FillArrows, Error;
        return;
      }
      Grade(progress);
    }

    /**
     * The grading part of handleSubmit: every accepted walk is listed, each
     * target pattern is matched against them, and a full match completes the
     * level.
     */
    method Grade(progress: GameProgressProvider)
      requires levelConfig.Some? && ValidState(progress.state)
      modifies this`message, this`tone, this`attempts, this`matchedPatterns, this`unmatchedPatterns, this`score,
               this`completedLevels, this`levelComplete, this`showDetailedFeedback, this`sessionBadges, progress
      ensures ValidState(progress.state)
      ensures old(Tally()) ==> Tally()
      ensures Graded(progress)
    {
      var seen, levelId, attemptsBefore, hintUsed := progress.state, currentLevelId, attempts, hintUsedThisLevel;
      var completedBefore, scoreBefore, sessionBefore, completeBefore := completedLevels, score, sessionBadges, levelComplete;
      var targets := levelConfig.value.targetPatterns;
      var allPaths := FindAllPathsBuild(nodes, edges);
      Judge(progress, targets, allPaths, seen, levelId, attemptsBefore, hintUsed, completedBefore, scoreBefore,
            sessionBefore, completeBefore);
    }

    /** The attempt is counted and the walks judged against the targets; a full match completes the level. */
    method Judge(progress: GameProgressProvider, targets: seq<seq<string>>, allPaths: seq<seq<string>>,
                 seen: ProgressState, levelId: int, attemptsBefore: int, hintUsed: bool,
                 completedBefore: seq<int>, scoreBefore: int, sessionBefore: seq<Badge>, completeBefore: bool)
      requires ValidState(progress.state)
      requires seen == progress.state && levelId == currentLevelId && attemptsBefore == attempts
      requires hintUsed == hintUsedThisLevel && completeBefore == levelComplete
      requires completedBefore == completedLevels && scoreBefore == score && sessionBefore == sessionBadges
      modifies this`message, this`tone, this`attempts, this`matchedPatterns, this`unmatchedPatterns, this`score,
               this`completedLevels, this`levelComplete, this`showDetailedFeedback, this`sessionBadges, progress
      ensures ValidState(progress.state)
      ensures old(Tally()) ==> Tally()
      ensures Judged(progress, targets, allPaths, seen, levelId, attemptsBefore, hintUsed, completedBefore, scoreBefore,
                     sessionBefore, completeBefore)
    {
      CountAttempt(targets, allPaths, attemptsBefore);
      if unmatchedPatterns != [] {
        message, tone := NoMessage, Error;
      } else {
        CompleteLevel(progress, seen, levelId, attemptsBefore, hintUsed, completedBefore, scoreBefore, sessionBefore);
      }
    }

    /** The attempt is counted and the matched and unmatched patterns shown. */
    method CountAttempt(targets: seq<seq<string>>, allPaths: seq<seq<string>>, attemptsBefore: int)
      modifies this`attempts, this`showDetailedFeedback, this`matchedPatterns, this`unmatchedPatterns
      ensures Counted(targets, allPaths, attemptsBefore)
    {
      attempts := attemptsBefore + 1;
      matchedPatterns, unmatchedPatterns := Matched(targets, allPaths), Unmatched(targets, allPaths);
      showDetailedFeedback := true;
    }

    /**
     * The level-complete branch of handleSubmit: a first completion adds the
     * level and a point, then the level's stars, the correct answer and the
     * stage stars go to the provider, and what it newly awards joins the
     * session badges.
     */
    method CompleteLevel(progress: GameProgressProvider, seen: ProgressState, levelId: int, attemptsBefore: int,
                         hintUsed: bool, completedBefore: seq<int>, scoreBefore: int, sessionBefore: seq<Badge>)
      requires ValidState(progress.state)
      requires seen == progress.state && levelId == currentLevelId && hintUsed == hintUsedThisLevel
      requires completedBefore == completedLevels && scoreBefore == score && sessionBefore == sessionBadges
      modifies this`message, this`tone, this`score, this`completedLevels, this`levelComplete, this`sessionBadges, progress
      ensures ValidState(progress.state)
      ensures old(Tally()) ==> Tally()
      ensures Marked(levelId, completedBefore, scoreBefore)
      ensures Shown(progress, seen, levelId, attemptsBefore, hintUsed, sessionBefore)
    {
      MarkComplete(levelId, completedBefore, scoreBefore);
      ShowBadges(progress, seen, levelId, attemptsBefore, hintUsed, sessionBefore);
      SubmitProgressValid(seen, seen, BuildStage, levelId, UnlockStars(attemptsBefore, hintUsed), hintUsed,
                          StageStars(score, LevelCount(BuildStage)));
    }

    /** The level is marked complete; a first completion adds the level and a point. */
    method MarkComplete(levelId: int, completedBefore: seq<int>, scoreBefore: int)
      requires levelId == currentLevelId && completedBefore == completedLevels && scoreBefore == score
      modifies this`message, this`tone, this`score, this`completedLevels, this`levelComplete
      ensures old(Tally()) ==> Tally()
      ensures Marked(levelId, completedBefore, scoreBefore)
    {
      if currentLevelId !in completedLevels {
        if Tally() {
          NoRepeatsAppend(completedLevels, currentLevelId);
        }
        score := score + 1;
        completedLevels := completedLevels + [currentLevelId];
      }
      levelComplete := true;
      message, tone := Correct, Success;
    }

    /** The three award calls for the level, with what they newly award added to the session badges. */
    method ShowBadges(progress: GameProgressProvider, seen: ProgressState, levelId: int, attemptsBefore: int,
                      hintUsed: bool, sessionBefore: seq<Badge>)
      requires ValidState(progress.state)
      requires seen == progress.state && levelId == currentLevelId && hintUsed == hintUsedThisLevel
      requires sessionBefore == sessionBadges
      modifies this`sessionBadges, progress
      ensures Shown(progress, seen, levelId, attemptsBefore, hintUsed, sessionBefore)
    {
      var shown := AwardBadges(progress, BuildStage, levelId, attemptsBefore, hintUsed, score);
      sessionBadges := sessionBefore + shown;
    }

    /**
     * handleContinueFromFeedback: after a completed level, on to the first
     * level not yet completed (loading it); otherwise back to the board.
     */
    method ContinueFromFeedback()
      requires Valid() && LevelList(levels)
      modifies this`currentLevelId, this`hintUsedThisLevel, this`attempts, this`levelComplete, this`showDetailedFeedback,
               this`levelConfig, this`nodes, this`edges, this`message, this`tone, this`selectedEdge,
               this`connectingFrom, this`showDemo, this`mode, this`nodeIdCounter, this`edgeIdCounter
      ensures Valid()
      ensures old(levelComplete) && AllCompleted(old(completedLevels), BuildLevelCount) ==> unchanged(this)
      ensures old(levelComplete) && !AllCompleted(old(completedLevels), BuildLevelCount) ==>
                IsFirstUncompleted(old(completedLevels), BuildLevelCount, currentLevelId) && Restarted(old(currentLevelId))
      ensures !old(levelComplete) ==>
                !showDetailedFeedback
                && unchanged(this`currentLevelId, this`levelConfig, this`nodes, this`edges, this`levelComplete,
                             this`attempts, this`hintUsedThisLevel)
    {
      if !levelComplete {
        showDetailedFeedback := false;
        return;
      }
      var next := FirstUncompleted(completedLevels, BuildLevelCount);
      if next.None? {
        return;
      }
      LevelListLookup(levels, next.value);
      MoveTo(next.value);
    }

    /**
     * The level `currentLevelId` is started afresh: no hint used, no attempt,
     * not complete, and when it differs from `previous` its board is loaded.
     */
    predicate Restarted(previous: int)
      reads this
    {
      !hintUsedThisLevel && attempts == 0 && !levelComplete
      && (currentLevelId != previous ==>
            levelConfig == FindLevel(levels, currentLevelId) && levelConfig.Some?
            && Fresh(levelConfig.value) && Cleared())
    }

    /** The move to the next level in handleContinueFromFeedback, the level-load effect included. */
    method MoveTo(levelId: int)
      requires Valid() && LevelList(levels) && FindLevel(levels, levelId).Some?
      modifies this`currentLevelId, this`hintUsedThisLevel, this`attempts, this`levelComplete, this`showDetailedFeedback,
               this`levelConfig, this`nodes, this`edges, this`message, this`tone, this`selectedEdge,
               this`connectingFrom, this`showDemo, this`mode, this`nodeIdCounter, this`edgeIdCounter
      ensures Valid() && currentLevelId == levelId && Restarted(old(currentLevelId))
    {
      var previous := currentLevelId;
      currentLevelId := levelId;
      hintUsedThisLevel := false;
      attempts := 0;
      levelComplete := false;
      if currentLevelId != previous {
        LoadLevel();
      }
    }
  }
}
