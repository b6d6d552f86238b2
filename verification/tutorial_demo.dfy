/**
 * Which tutorial demo a hint opens (TutorialDemo.tsx): priority chains over
 * the concepts a level introduces and, in build mode, over the state of the
 * board.
 */
module TutorialDemo {
  import opened Wrappers

  /** The demo names (`DemoConcept`). */
  datatype Demo =
    | Connecting | SetAccepting | AddState | PlaceSheep | BuildLoop
    | TracePath | ClickEdge
    | DragSingle | DragMatch | DragBranch | DragLoop
    | ArBasics | ArReject | ArSequence | ArBranch | ArLoop | ArDead | ArMulti

  predicate IsDragDemo(d: Demo) {
    d == DragSingle || d == DragMatch || d == DragBranch || d == DragLoop
  }

  /** The concepts `pickDragDemo` recognises. */
  predicate DragConceptKnown(concepts: seq<string>) {
    "loop" in concepts || "branching" in concepts || "multiple-accepting" in concepts || "sequence" in concepts
  }

  /** `pickDragDemo` when no recognised concept decides: by level id alone. */
  function DragDemoByLevel(levelId: int): (r: Demo)
    ensures IsDragDemo(r)
    ensures r == DragSingle <==> levelId <= 1
    ensures r == DragMatch <==> 1 < levelId <= 3
    ensures r == DragLoop <==> 6 < levelId <= 8
    ensures r == DragBranch <==> 3 < levelId <= 6 || 8 < levelId
  {
    if levelId <= 1 then DragSingle
    else if levelId <= 3 then DragMatch
    else if levelId <= 6 then DragBranch
    else if levelId <= 8 then DragLoop
    else DragBranch
  }

  /**
   * `pickDragDemo(levelId, conceptsIntroduced)`: loop, then branching or
   * multiple-accepting, then sequence, then the level id.
   */
  function PickDragDemo(levelId: int, concepts: Option<seq<string>>): (r: Demo)
    ensures IsDragDemo(r)
    ensures concepts.Some? && "loop" in concepts.value ==> r == DragLoop
    ensures (concepts.Some? && "loop" !in concepts.value
             && ("branching" in concepts.value || "multiple-accepting" in concepts.value)) ==> r == DragBranch
    ensures (concepts.Some? && "loop" !in concepts.value && "branching" !in concepts.value
             && "multiple-accepting" !in concepts.value && "sequence" in concepts.value) ==> r == DragMatch
    ensures concepts.None? || !DragConceptKnown(concepts.value) ==> r == DragDemoByLevel(levelId)
  {
    if concepts.Some? && |concepts.value| > 0 && "loop" in concepts.value then DragLoop
    else if concepts.Some? && |concepts.value| > 0 && "branching" in concepts.value then DragBranch
    else if concepts.Some? && |concepts.value| > 0 && "multiple-accepting" in concepts.value then DragBranch
    else if concepts.Some? && |concepts.value| > 0 && "sequence" in concepts.value then DragMatch
    else DragDemoByLevel(levelId)
  }

  /** The concepts that open the basics demo. */
  predicate HasBasics(concepts: seq<string>) {
    exists c :: c in concepts && c in ["start-state", "accepting-state", "transition"]
  }

  /** The concepts `pickARDemo` recognises. */
  predicate ArConceptKnown(concepts: seq<string>) {
    HasBasics(concepts) || "rejection" in concepts || "sequence" in concepts || "branching" in concepts
    || "loop" in concepts || "dead-state" in concepts || "multiple-accepting" in concepts
  }

  /** `pickARDemo(questionId, conceptsIntroduced)` */
  function PickArDemo(questionId: int, concepts: Option<seq<string>>): (r: Demo)
    ensures r == ArBasics <==> concepts.Some? && HasBasics(concepts.value)
    ensures r == TracePath <==> concepts.None? || !ArConceptKnown(concepts.value)
    ensures r == ArReject ==> concepts.Some? && "rejection" in concepts.value
    ensures r == ArSequence ==> concepts.Some? && "sequence" in concepts.value
    ensures r == ArBranch ==> concepts.Some? && "branching" in concepts.value
    ensures r == ArLoop ==> concepts.Some? && "loop" in concepts.value
    ensures r == ArDead ==> concepts.Some? && "dead-state" in concepts.value
    ensures r == ArMulti ==> concepts.Some? && "multiple-accepting" in concepts.value
    ensures r == TracePath || r == ArBasics || r == ArReject || r == ArSequence || r == ArBranch
            || r == ArLoop || r == ArDead || r == ArMulti
  {
    if concepts.Some? && |concepts.value| > 0 then
      var c := concepts.value;
      if HasBasics(c) then ArBasics
      else if "rejection" in c then ArReject
      else if "sequence" in c then ArSequence
      else if "branching" in c then ArBranch
      else if "loop" in c then ArLoop
      else if "dead-state" in c then ArDead
      else if "multiple-accepting" in c then ArMulti
      else TracePath
    else TracePath
  }

  /** The result of `pickDemoForState`. */
  predicate IsBoardDemo(d: Demo) {
    d == SetAccepting || d == AddState || d == BuildLoop || d == Connecting || d == PlaceSheep
  }

  /** `pickDemoForState`: the level's own concepts first, then what the board lacks. */
  function PickDemoForState(levelConcepts: seq<string>, hasAccepting: bool, edgeCount: int, emptyEdgeCount: int,
                            canAddStates: bool, nodeCount: int, initialNodeCount: int): (r: Demo)
    ensures "set-accepting" in levelConcepts && !hasAccepting ==> r == SetAccepting
    ensures r == SetAccepting ==> !hasAccepting
    ensures r == AddState ==> nodeCount <= initialNodeCount
    ensures r == BuildLoop ==> "build-loop" in levelConcepts
    ensures r == PlaceSheep ==> hasAccepting && edgeCount != 0 && emptyEdgeCount > 0
    ensures hasAccepting && edgeCount != 0 && emptyEdgeCount == 0 ==> r != PlaceSheep && r != SetAccepting
    ensures IsBoardDemo(r)
  {
    if "set-accepting" in levelConcepts && !hasAccepting then SetAccepting
    else if "add-state" in levelConcepts && nodeCount <= initialNodeCount then AddState
    else if "build-loop" in levelConcepts then BuildLoop
    else if "connecting" in levelConcepts then Connecting
    else if canAddStates && nodeCount <= initialNodeCount then AddState
    else if !hasAccepting then SetAccepting
    else if edgeCount == 0 then Connecting
    else if emptyEdgeCount > 0 then PlaceSheep
    else Connecting
  }
}
