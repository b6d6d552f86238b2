/**
 * The ten build-mode levels (buildLevelConfigs.ts): the fences each level
 * starts with, the sheep patterns the player's automaton must accept, the
 * sheep on offer and what the player may add.
 */
module BuildLevelConfigs {
  import opened Wrappers
  import opened Graph
  import opened FenceNames

  /** A level (title, instruction and hint text are left out). */
  datatype BuildLevelConfig = BuildLevelConfig(
    id: int,
    conceptsIntroduced: seq<string>,
    initialNodes: seq<Node>,
    initialEdges: seq<Edge>,
    targetPatterns: seq<seq<string>>,
    availableSheep: seq<string>,
    canAddStates: bool,
    canSelfLoop: bool)

  /** `createNode(id, x, y, isStart, isAccepting)`: a fence captioned by its friendly name. */
  function CreateNode(id: string, x: int, y: int, isStart: bool, isAccepting: bool): (r: Node)
    ensures r.id == id && r.kind == "stateNode" && r.x == x && r.y == y
    ensures r.isStart == isStart && r.isAccepting == isAccepting
    ensures r.caption == Some(ConfigFriendlyName(id))
  {
    Node(id, "stateNode", x, y, isStart, isAccepting, Some(ConfigFriendlyName(id)))
  }

  /** `createEdge(id, source, target)`: a custom arrow with no sheep, so no walk uses it yet. */
  function CreateEdge(id: string, source: string, target: string): (r: Edge)
    ensures r.id == id && r.source == source && r.target == target && r.kind == "custom"
    ensures !Labelled(r) && r.sheep.None? && r.caption.None?
  {
    Edge(id, source, target, "custom", None, None)
  }

  const Level1: BuildLevelConfig :=
    BuildLevelConfig(1, ["connecting"],
    [CreateNode("start", 150, 200, true, false), CreateNode("end", 550, 200, false, true)],
    [], [["sheep-3"]], ["sheep-3", "sheep-8"], false, true)

  const Level2: BuildLevelConfig :=
    BuildLevelConfig(2, [],
    [CreateNode("start", 100, 200, true, false), CreateNode("middle", 350, 200, false, false),
     CreateNode("end", 600, 200, false, true)],
    [], [["sheep-3", "sheep-8"]], ["sheep-3", "sheep-7", "sheep-8"], false, true)

  const Level3: BuildLevelConfig :=
    BuildLevelConfig(3, [],
    [CreateNode("start", 100, 250, true, false), CreateNode("top", 350, 100, false, false),
     CreateNode("bottom", 350, 400, false, false), CreateNode("end", 600, 250, false, true)],
    [], [["sheep-3", "sheep-13"], ["sheep-8", "sheep-16"]],
    ["sheep-3", "sheep-8", "sheep-13", "sheep-16"], false, true)

  const Level4: BuildLevelConfig :=
    BuildLevelConfig(4, ["set-accepting"],
    [CreateNode("start", 150, 200, true, false), CreateNode("middle", 550, 200, false, false)],
    [], [["sheep-3", "sheep-8"]], ["sheep-3", "sheep-7", "sheep-8"], false, true)

  const Level5: BuildLevelConfig :=
    BuildLevelConfig(5, ["add-state"],
    [CreateNode("start", 100, 200, true, false), CreateNode("end", 600, 200, false, true)],
    [], [["sheep-3", "sheep-8"]], ["sheep-3", "sheep-7", "sheep-8"], true, true)

  const Level6: BuildLevelConfig :=
    BuildLevelConfig(6, [],
    [CreateNode("start", 100, 250, true, false), CreateNode("end", 700, 250, false, true)],
    [], [["sheep-3", "sheep-13"], ["sheep-8", "sheep-16"]],
    ["sheep-3", "sheep-8", "sheep-13", "sheep-16"], true, true)

  const Level7: BuildLevelConfig :=
    BuildLevelConfig(7, ["build-loop"],
    [CreateNode("start", 100, 200, true, false), CreateNode("loop", 400, 200, false, false),
     CreateNode("end", 700, 200, false, true)],
    [], [["sheep-3", "sheep-8"], ["sheep-3", "sheep-7", "sheep-8"]],
    ["sheep-3", "sheep-7", "sheep-8"], false, true)

  const Level8: BuildLevelConfig :=
    BuildLevelConfig(8, [],
    [CreateNode("start", 100, 250, true, false)],
    [], [["sheep-3", "sheep-8", "sheep-13"]], ["sheep-3", "sheep-7", "sheep-8", "sheep-13"], true, true)

  const Level9: BuildLevelConfig :=
    BuildLevelConfig(9, [],
    [CreateNode("start", 100, 250, true, false)],
    [], [["sheep-3", "sheep-13"], ["sheep-8", "sheep-7", "sheep-16"]],
    ["sheep-3", "sheep-7", "sheep-8", "sheep-13", "sheep-16"], true, true)

  const Level10: BuildLevelConfig :=
    BuildLevelConfig(10, [],
    [CreateNode("start", 50, 250, true, false)],
    [], [["sheep-3", "sheep-7", "sheep-16"], ["sheep-8", "sheep-7", "sheep-16"],
         ["sheep-3", "sheep-7", "sheep-7", "sheep-16"]],
    ["sheep-1", "sheep-3", "sheep-7", "sheep-8", "sheep-16"], true, true)

  const Levels: seq<BuildLevelConfig> :=
    [Level1, Level2, Level3, Level4, Level5, Level6, Level7, Level8, Level9, Level10]

  /** BUILD_LEVEL_COUNT, the length of the level list (`LevelIds`). */
  const BuildLevelCount: nat := 10

  /** `getBuildLevelConfig(levelId)`: the first level with that id. */
  function GetBuildLevelConfig(levelId: int): (r: Option<BuildLevelConfig>)
  {
    FindLevel(Levels, levelId)
  }

  function FindLevel(levels: seq<BuildLevelConfig>, levelId: int): (r: Option<BuildLevelConfig>)
    ensures r.Some? ==> r.value in levels && r.value.id == levelId
    ensures r.None? <==> forall k :: 0 <= k < |levels| ==> levels[k].id != levelId
  {
    if levels == [] then None
    else if levels[0].id == levelId then Some(levels[0])
    else FindLevel(levels[1..], levelId)
  }

  /** The ids run 1..10 in order. */
  lemma LevelIds()
    ensures |Levels| == BuildLevelCount
    ensures forall k :: 0 <= k < |Levels| ==> Levels[k].id == k + 1
  {
  }

  /** The lookup succeeds exactly for 1..BUILD_LEVEL_COUNT and returns the level at that position. */
  lemma GetBuildLevelConfigSpec(levelId: int)
    ensures GetBuildLevelConfig(levelId).Some? <==> 1 <= levelId <= BuildLevelCount
    ensures 1 <= levelId <= BuildLevelCount ==> GetBuildLevelConfig(levelId) == Some(Levels[levelId - 1])
  {
    LevelIds();
    FindLevelById(Levels, levelId);
  }

  /** On a list whose ids are its positions from 1, the lookup finds exactly those ids, each at its position. */
  lemma FindLevelById(levels: seq<BuildLevelConfig>, levelId: int)
    requires forall k :: 0 <= k < |levels| ==> levels[k].id == k + 1
    ensures FindLevel(levels, levelId).Some? <==> 1 <= levelId <= |levels|
    ensures 1 <= levelId <= |levels| ==> FindLevel(levels, levelId) == Some(levels[levelId - 1])
  {
    if 1 <= levelId <= |levels| {
      FindLevelAt(levels, levelId - 1);
    }
  }

  /** With ids in increasing order the lookup finds the level at the id's position. */
  lemma {:induction false} FindLevelAt(levels: seq<BuildLevelConfig>, k: nat)
    requires k < |levels| && forall i, j :: 0 <= i < j < |levels| ==> levels[i].id < levels[j].id
    ensures FindLevel(levels, levels[k].id) == Some(levels[k])
  {
    if k > 0 {
      assert levels[0].id < levels[k].id;
      FindLevelAt(levels[1..], k - 1);
    }
  }

  /**
   * A level starts with exactly one start fence and no arrows, and without a
   * bed exactly when it is one of the levels where the player places it
   * (4, 8, 9 and 10).
   */
  predicate Shaped(c: BuildLevelConfig) {
    CountStarts(c.initialNodes) == 1 && c.initialEdges == []
    && (AcceptingIds(c.initialNodes) == [] <==> c.id in [4, 8, 9, 10])
  }

  /** Every sheep a target pattern asks for is on offer in the level. */
  predicate SheepOffered(c: BuildLevelConfig) {
    forall i, j :: 0 <= i < |c.targetPatterns| && 0 <= j < |c.targetPatterns[i]| ==>
      c.targetPatterns[i][j] in c.availableSheep
  }

  // Each level is shaped and offers the sheep its patterns need, one lemma per level.

  lemma Level1Shaped()
    ensures Shaped(Level1) && SheepOffered(Level1)
  {
  }

  lemma Level2Shaped()
    ensures Shaped(Level2) && SheepOffered(Level2)
  {
  }

  lemma Level3Shaped()
    ensures Shaped(Level3) && SheepOffered(Level3)
  {
  }

  lemma Level4Shaped()
    ensures Shaped(Level4) && SheepOffered(Level4)
  {
  }

  lemma Level5Shaped()
    ensures Shaped(Level5) && SheepOffered(Level5)
  {
  }

  lemma Level6Shaped()
    ensures Shaped(Level6) && SheepOffered(Level6)
  {
  }

  lemma Level7Shaped()
    ensures Shaped(Level7) && SheepOffered(Level7)
  {
  }

  lemma Level8Shaped()
    ensures Shaped(Level8) && SheepOffered(Level8)
  {
  }

  lemma Level9Shaped()
    ensures Shaped(Level9) && SheepOffered(Level9)
  {
  }

  lemma Level10Shaped()
    ensures Shaped(Level10) && SheepOffered(Level10)
  {
  }
}
