/**
 * The drag-mode screen (DragLevel.tsx): the level gives the fences and the
 * arrows; the player drags or clicks sheep onto the arrows and submits, and
 * the screen grades the board against the level's target patterns and keeps
 * the stage score.
 */
module DragLevel {
  import opened Wrappers
  import opened Graph
  import opened PathSearch
  import opened GameProgress
  import opened TutorialDemo
  import opened Stars
  import opened Submission

  /** A drag level (its title, instruction and hint text are left out). */
  datatype DragLevelConfig = DragLevelConfig(
    id: int,
    nodes: seq<Node>,
    edges: seq<Edge>,
    targetPatterns: seq<seq<string>>,
    availableSheep: seq<string>,
    conceptsIntroduced: seq<string>)

  /** `getDragLevelConfig(levelId)`: the first level with that id. */
  function FindDragLevel(levels: seq<DragLevelConfig>, levelId: int): (r: Option<DragLevelConfig>)
    ensures r.Some? ==> r.value in levels && r.value.id == levelId
    ensures r.None? <==> forall k :: 0 <= k < |levels| ==> levels[k].id != levelId
  {
    if levels == [] then None
    else if levels[0].id == levelId then Some(levels[0])
    else FindDragLevel(levels[1..], levelId)
  }

  // ----- Sheep on the arrows -----

  /** `{ ...e, label: sheep, data: { ...e.data, sheep } }`: the arrow carries the sheep and shows it. */
  function Placed(e: Edge, sheep: string): (r: Edge)
    ensures r.sheep == Some(sheep) && r.caption == Some(sheep)
    ensures r.id == e.id && r.source == e.source && r.target == e.target && r.kind == e.kind
  {
    e.(sheep := Some(sheep), caption := Some(sheep))
  }

  /** `{ ...e, label: '?', data: { ...e.data, sheep: null } }`: the arrow is empty and shows a question mark. */
  function Emptied(e: Edge): (r: Edge)
    ensures r.sheep.None? && r.caption == Some("?") && !Labelled(r)
    ensures r.id == e.id && r.source == e.source && r.target == e.target && r.kind == e.kind
  {
    e.(sheep := None, caption := Some("?"))
  }

  /**
   * One arrow under the label map of the drop and click handlers: the arrow
   * `clear` is emptied unless it is `place`, the arrow `place` gets `sheep`,
   * any other is left alone.
   */
  function Relabelled(e: Edge, place: Option<string>, sheep: string, clear: Option<string>): (r: Edge)
    ensures r.id == e.id && r.source == e.source && r.target == e.target
  {
    if clear == Some(e.id) && place != Some(e.id) then Emptied(e)
    else if place == Some(e.id) then Placed(e, sheep)
    else e
  }

  /** `eds.map(...)` with that label map. */
  function Relabel(edges: seq<Edge>, place: Option<string>, sheep: string, clear: Option<string>): (r: seq<Edge>)
    ensures SameArrows(edges, r)
    ensures forall k :: 0 <= k < |r| ==> r[k] == Relabelled(edges[k], place, sheep, clear)
  {
    if edges == [] then []
    else [Relabelled(edges[0], place, sheep, clear)] + Relabel(edges[1..], place, sheep, clear)
  }

  /**
   * The arrows after handleDropOnGraph, given the sheep dragged (`sheep`,
   * "" when the drag carried none), the arrow it was dragged from (`from`)
   * and the arrow the drop lands on (`chosen`, the nearest within reach).
   */
  function DroppedLabels(edges: seq<Edge>, sheep: string, from: Option<string>, chosen: Option<string>): (r: seq<Edge>)
    ensures SameArrows(edges, r)
    ensures sheep == "" ==> r == edges
    ensures sheep != "" && Truthy(chosen) ==>
              forall k :: 0 <= k < |r| ==>
                r[k] == (if Truthy(from) && from == Some(edges[k].id) && chosen != Some(edges[k].id) then Emptied(edges[k])
                         else if chosen == Some(edges[k].id) then Placed(edges[k], sheep)
                         else edges[k])
    ensures sheep != "" && !Truthy(chosen) ==>
              forall k :: 0 <= k < |r| ==> r[k] == if Truthy(from) && from == Some(edges[k].id) then Emptied(edges[k]) else edges[k]
  {
    if sheep == "" then edges
    else if Truthy(chosen) then Relabel(edges, chosen, sheep, if Truthy(from) then from else None)
    else if Truthy(from) then Relabel(edges, None, sheep, from)
    else edges
  }

  /**
   * Dropping a sheep taken from arrow `a` onto another arrow `b`: `a` is
   * emptied and shows '?', `b` carries the sheep and shows it, and every
   * other arrow is as it was.
   */
  lemma DropMovesSheep(edges: seq<Edge>, sheep: string, a: string, b: string, k: nat)
    requires sheep != "" && a != "" && b != "" && a != b && k < |edges|
    ensures var r := DroppedLabels(edges, sheep, Some(a), Some(b));
            (edges[k].id == a ==> r[k] == Emptied(edges[k]))
            && (edges[k].id == b ==> r[k] == Placed(edges[k], sheep))
            && (edges[k].id != a && edges[k].id != b ==> r[k] == edges[k])
  {
  }

  /** A drop that lands near no arrow only empties the arrow the sheep came from. */
  lemma DropNowhereClears(edges: seq<Edge>, sheep: string, a: string, k: nat)
    requires sheep != "" && a != "" && k < |edges|
    ensures var r := DroppedLabels(edges, sheep, Some(a), None);
            (edges[k].id == a ==> r[k] == Emptied(edges[k])) && (edges[k].id != a ==> r[k] == edges[k])
  {
  }

  /** Arrows that are the same as arrows the same as `a` are the same as `a`. */
  lemma SameArrowsTrans(a: seq<Edge>, b: seq<Edge>, c: seq<Edge>)
    requires SameArrows(a, b) && SameArrows(b, c)
    ensures SameArrows(a, c)
  {
  }

  // ----- The screen -----

  /** The status line texts the logic sets. */
  datatype Message = NoMessage | FillArrows | SheepRemoved | Correct

  /** `messageType`: '' | 'success' | 'error' */
  datatype Tone = Plain | Success | Error

  class DragLevelGame {
    var currentLevelId: int
    var levelConfig: Option<DragLevelConfig>
    var nodes: seq<Node>
    var edges: seq<Edge>
    var message: Message
    var tone: Tone
    var selectedEdge: Option<string>
    var selectedSheep: Option<string>
    var hintUsedThisLevel: bool
    var showDemo: bool
    var demoConcept: Demo
    var levelComplete: bool
    var attempts: int
    var score: int
    var completedLevels: seq<int>
    var showDetailedFeedback: bool
    var matchedPatterns: seq<seq<string>>
    var unmatchedPatterns: seq<seq<string>>
    var sessionBadges: seq<Badge>
    /** The level list the screen reads, `DRAG_LEVEL_CONFIGS`. */
    const levels: seq<DragLevelConfig>

    /**
     * The board is empty (before the first level load) or is the loaded
     * level's: its fences, and its arrows in their places whatever they carry.
     */
    predicate Valid()
      reads this`nodes, this`edges, this`levelConfig
    {
      (nodes == [] && edges == [])
      || (levelConfig.Some? && nodes == levelConfig.value.nodes && SameArrows(levelConfig.value.edges, edges))
    }

    /** The stage score counts the completed levels, each once. */
    predicate Tally()
      reads this`score, this`completedLevels
    {
      score == |completedLevels| && NoRepeats(completedLevels)
    }

    /**
     * The state of the first render, before any effect has run: the saved
     * level, score and completed list (or the given level and nothing done),
     * and an empty board until the level-load effect (`LoadLevel`) sets it up.
     */
    constructor(levelList: seq<DragLevelConfig>, initialLevel: int, saved: Option<SavedProgress>)
      ensures levels == levelList && Valid()
      ensures currentLevelId == (if saved.Some? then saved.value.currentLevelId else initialLevel)
      ensures levelConfig == FindDragLevel(levels, currentLevelId)
      ensures score == (if saved.Some? then saved.value.score else 0)
      ensures completedLevels == (if saved.Some? then saved.value.completedLevels else [])
      ensures saved.None? ==> Tally()
      ensures nodes == [] && edges == [] && attempts == 0 && !levelComplete && !hintUsedThisLevel
      ensures message == NoMessage && tone == Plain && selectedEdge.None? && selectedSheep.None? && sessionBadges == []
    {
      levels := levelList;
      currentLevelId := if saved.Some? then saved.value.currentLevelId else initialLevel;
      levelConfig := FindDragLevel(levelList, if saved.Some? then saved.value.currentLevelId else initialLevel);
      nodes, edges := [], [];
      message, tone := NoMessage, Plain;
      selectedEdge, selectedSheep := None, None;
      hintUsedThisLevel, showDemo, demoConcept := false, false, DragSingle;
      levelComplete, attempts := false, 0;
      score := if saved.Some? then saved.value.score else 0;
      completedLevels := if saved.Some? then saved.value.completedLevels else [];
      showDetailedFeedback := false;
      matchedPatterns, unmatchedPatterns := [], [];
      sessionBadges := [];
    }

    /** The board a level starts with: its fences, and its arrows with no sheep. */
    predicate Fresh(c: DragLevelConfig)
      reads this`nodes, this`edges
    {
      nodes == c.nodes && edges == ClearSheep(c.edges)
    }

    /** No message, no arrow selected, the level not complete, no feedback panel. */
    predicate Cleared()
      reads this`message, this`tone, this`selectedEdge, this`levelComplete, this`showDetailedFeedback
    {
      message == NoMessage && tone == Plain && selectedEdge.None? && !levelComplete && !showDetailedFeedback
    }

    /** Sets up the board of level `c` with the screen cleared. */
    method SetUp(c: DragLevelConfig)
      modifies this`nodes, this`edges, this`message, this`tone, this`selectedEdge, this`levelComplete,
               this`showDetailedFeedback
      ensures Fresh(c) && Cleared()
    {
      nodes, edges := c.nodes, ClearSheep(c.edges);
      message, tone := NoMessage, Plain;
      selectedEdge := None;
      levelComplete := false;
      showDetailedFeedback := false;
    }

    /** The effect run whenever currentLevelId changes: the level's board, with every arrow empty. */
    method LoadLevel()
      requires Valid()
      modifies this`levelConfig, this`nodes, this`edges, this`message, this`tone, this`selectedEdge,
               this`levelComplete, this`attempts, this`showDemo, this`showDetailedFeedback
      ensures Valid()
      ensures FindDragLevel(levels, currentLevelId).None? ==> unchanged(this)
      ensures var c := FindDragLevel(levels, currentLevelId);
              c.Some? ==> levelConfig == c && Fresh(c.value) && Cleared() && attempts == 0 && !showDemo
    {
      var config := FindDragLevel(levels, currentLevelId);
      if config.Some? {
        StartLevel(config.value);
      }
    }

    /** The found level `c` becomes the current one, on its fresh board with the screen cleared. */
    method StartLevel(c: DragLevelConfig)
      modifies this`levelConfig, this`nodes, this`edges, this`message, this`tone, this`selectedEdge,
               this`levelComplete, this`attempts, this`showDemo, this`showDetailedFeedback
      ensures Valid()
      ensures levelConfig == Some(c) && Fresh(c) && Cleared() && attempts == 0 && !showDemo
    {
      SetUp(c);
      levelConfig := Some(c);
      attempts := 0;
      showDemo := false;
    }

    /** handleReset: the level's board again, with the feedback and the session's badges cleared. */
    method HandleReset()
      requires Valid()
      modifies this`nodes, this`edges, this`message, this`tone, this`selectedEdge, this`levelComplete,
               this`showDetailedFeedback, this`sessionBadges
      ensures Valid()
      ensures levelConfig.None? ==> unchanged(this)
      ensures levelConfig.Some? ==> Fresh(levelConfig.value) && Cleared() && sessionBadges == []
    {
      if levelConfig.None? {
        return;
      }
      SetUp(levelConfig.value);
      sessionBadges := [];
    }

    /**
     * The effect run after a render whose arrows were replaced (`changed`):
     * an open feedback panel closes unless the level is complete; otherwise
     * the panel is as it was.
     */
    twostate predicate FeedbackAfter(changed: bool)
      reads this`showDetailedFeedback, this`levelComplete
    {
      if changed && old(!levelComplete) then !showDetailedFeedback else showDetailedFeedback == old(showDetailedFeedback)
    }

    /** The arrows-changed effect: the feedback panel of an incomplete level closes. */
    method DismissFeedback()
      modifies this`showDetailedFeedback
      ensures FeedbackAfter(true)
    {
      if showDetailedFeedback && !levelComplete {
        showDetailedFeedback := false;
      }
    }

    /**
     * handleDropOnGraph, given the arrow the drop lands on (`chosen`, the
     * nearest within reach, if any): the label map of `DroppedLabels`.
     */
    method HandleDropOnGraph(sheep: string, from: Option<string>, chosen: Option<string>)
      requires Valid()
      modifies this`edges, this`showDetailedFeedback
      ensures Valid()
      ensures edges == DroppedLabels(old(edges), sheep, from, chosen)
      ensures FeedbackAfter(sheep != "" && (Truthy(chosen) || Truthy(from)))
    {
      var r := DroppedLabels(edges, sheep, from, chosen);
      if edges != [] {
        SameArrowsTrans(levelConfig.value.edges, edges, r);
      }
      edges := r;
      if sheep != "" && (Truthy(chosen) || Truthy(from)) {
        DismissFeedback();
      }
    }

    /**
     * onEdgeClick on the arrow at `k`: with a sheep picked, the arrow gets it
     * and the pick is dropped; otherwise a sheep on the arrow is taken off;
     * otherwise the arrow is selected.
     */
    method OnEdgeClick(k: nat)
      requires Valid() && k < |edges|
      modifies this`edges, this`selectedSheep, this`message, this`tone, this`selectedEdge, this`showDetailedFeedback
      ensures Valid()
      ensures var id := old(edges[k].id);
              if Truthy(old(selectedSheep)) then
                edges == Relabel(old(edges), Some(id), old(selectedSheep.value), None) && selectedSheep.None?
                && FeedbackAfter(true) && unchanged(this`message, this`tone, this`selectedEdge)
              else if Labelled(old(edges[k])) then
                edges == Relabel(old(edges), None, "", Some(id)) && message == SheepRemoved && tone == Plain
                && FeedbackAfter(true) && unchanged(this`selectedSheep, this`selectedEdge)
              else
                selectedEdge == Some(id)
                && unchanged(this`edges, this`selectedSheep, this`message, this`tone, this`showDetailedFeedback)
    {
      var id := edges[k].id;
      if Truthy(selectedSheep) {
        var r := Relabel(edges, Some(id), selectedSheep.value, None);
        SameArrowsTrans(levelConfig.value.edges, edges, r);
        edges := r;
        selectedSheep := None;
        DismissFeedback();
      } else if Labelled(edges[k]) {
        var r := Relabel(edges, None, "", Some(id));
        SameArrowsTrans(levelConfig.value.edges, edges, r);
        edges := r;
        message, tone := SheepRemoved, Plain;
        DismissFeedback();
      } else {
        selectedEdge := Some(id);
      }
    }

    /** onSelectSheep: picking the picked sheep again drops the pick; another sheep is picked and no arrow stays selected. */
    method OnSelectSheep(sheep: string)
      modifies this`selectedSheep, this`selectedEdge
      ensures old(selectedSheep) == Some(sheep) ==> selectedSheep.None? && selectedEdge == old(selectedEdge)
      ensures old(selectedSheep) != Some(sheep) ==> selectedSheep == Some(sheep) && selectedEdge.None?
    {
      if selectedSheep == Some(sheep) {
        selectedSheep := None;
      } else {
        selectedSheep := Some(sheep);
        selectedEdge := None;
      }
    }

    /** handleHintClick: the one-sheep demo on a half-filled board, otherwise the level's demo. */
    method HandleHintClick()
      modifies this`hintUsedThisLevel, this`demoConcept, this`showDemo
      ensures hintUsedThisLevel && showDemo
      ensures 0 < EmptyCount(edges) < |edges| ==> demoConcept == ClickEdge
      ensures !(0 < EmptyCount(edges) < |edges|) ==>
                demoConcept == PickDragDemo(currentLevelId,
                                            if levelConfig.Some? then Some(levelConfig.value.conceptsIntroduced) else None)
    {
      hintUsedThisLevel := true;
      var empty := EmptyCount(edges);
      if 0 < empty < |edges| {
        demoConcept := ClickEdge;
      } else {
        demoConcept := PickDragDemo(currentLevelId,
                                    if levelConfig.Some? then Some(levelConfig.value.conceptsIntroduced) else None);
      }
      showDemo := true;
    }

    // ----- handleSubmit -----

    /** The level is shown complete, and a first completion adds the level and a point. */
    predicate Marked(levelId: int, completedBefore: seq<int>, scoreBefore: int)
      reads this`levelComplete, this`message, this`tone, this`score, this`completedLevels
    {
      var first := levelId !in completedBefore;
      levelComplete && message == Correct && tone == Success
      && score == (if first then scoreBefore + 1 else scoreBefore)
      && completedLevels == (if first then completedBefore + [levelId] else completedBefore)
    }

    /**
     * The provider holds what the level's stars, the correct answer and the
     * stage stars (from the current score) give, and what they newly award
     * joins the session badges.
     */
    predicate Shown(progress: GameProgressProvider, seen: ProgressState, levelId: int, attemptsBefore: int,
                    hintUsed: bool, sessionBefore: seq<Badge>)
      reads this`score, this`sessionBadges, progress
    {
      var unlock := UnlockStars(attemptsBefore, hintUsed);
      var stage := StageStars(score, LevelCount(DragStage));
      progress.state == SubmitProgress(seen, seen, DragStage, levelId, unlock, hintUsed, stage)
      && sessionBadges == sessionBefore + UniqueBadges(SubmitBadges(seen, DragStage, levelId, unlock, hintUsed, stage))
    }

    /** The attempt is counted and the target patterns are split into those some walk matches and the rest. */
    predicate Counted(targets: seq<seq<string>>, allPaths: seq<seq<string>>, attemptsBefore: int)
      reads this`attempts, this`showDetailedFeedback, this`matchedPatterns, this`unmatchedPatterns
    {
      attempts == attemptsBefore + 1 && showDetailedFeedback
      && matchedPatterns == Matched(targets, allPaths) && unmatchedPatterns == Unmatched(targets, allPaths)
    }

    /** A pattern is left unmatched: an error tone and no other change. */
    predicate Rejected(progress: GameProgressProvider, seen: ProgressState, completedBefore: seq<int>, scoreBefore: int,
                       sessionBefore: seq<Badge>, completeBefore: bool)
      reads this`message, this`tone, this`score, this`completedLevels, this`levelComplete, this`sessionBadges, progress
    {
      message == NoMessage && tone == Error && progress.state == seen
      && score == scoreBefore && completedLevels == completedBefore
      && levelComplete == completeBefore && sessionBadges == sessionBefore
    }

    /**
     * The board's accepted walks `allPaths` were judged against the level's
     * `targets`, from the state given by the remaining parameters: the
     * attempt is counted, the patterns are split into matched and unmatched,
     * and the level is completed exactly when none is unmatched.
     */
    predicate Judged(progress: GameProgressProvider, targets: seq<seq<string>>, allPaths: seq<seq<string>>,
                     seen: ProgressState, levelId: int, attemptsBefore: int, hintUsed: bool,
                     completedBefore: seq<int>, scoreBefore: int, sessionBefore: seq<Badge>, completeBefore: bool)
      reads this`attempts, this`showDetailedFeedback, this`matchedPatterns, this`unmatchedPatterns, this`message,
            this`tone, this`score, this`completedLevels, this`levelComplete, this`sessionBadges, progress
    {
      Counted(targets, allPaths, attemptsBefore)
      && (unmatchedPatterns != [] ==> Rejected(progress, seen, completedBefore, scoreBefore, sessionBefore, completeBefore))
      && (unmatchedPatterns == [] ==>
            Marked(levelId, completedBefore, scoreBefore)
            && Shown(progress, seen, levelId, attemptsBefore, hintUsed, sessionBefore))
    }

    /** handleSubmit graded the board it was called on. */
    twostate predicate Graded(progress: GameProgressProvider)
      reads this, progress
    {
      old(levelConfig).Some?
      && Judged(progress, old(levelConfig.value.targetPatterns), old(AllPaths(nodes, edges)), old(progress.state),
                old(currentLevelId), old(attempts), old(hintUsedThisLevel), old(completedLevels), old(score),
                old(sessionBadges), old(levelComplete))
    }

    /**
     * handleSubmit: refuse a board with an empty arrow; otherwise count the
     * attempt and grade the board's walks against the target patterns; a
     * full match completes the level and awards badges.
     */
    method HandleSubmit(progress: GameProgressProvider)
      requires ValidState(progress.state)
      modifies this`message, this`tone, this`attempts, this`matchedPatterns, this`unmatchedPatterns, this`score,
               this`completedLevels, this`levelComplete, this`showDetailedFeedback, this`sessionBadges, progress
      ensures ValidState(progress.state)
      ensures old(Tally()) ==> Tally()
      ensures old(levelConfig).None? ==> unchanged(this) && unchanged(progress)
      ensures old(levelConfig.Some? && !AllLabelled(edges)) ==>
                message == FillArrows && tone == Error && unchanged(progress)
                && unchanged(this`attempts, this`matchedPatterns, this`unmatchedPatterns, this`score,
                             this`completedLevels, this`levelComplete, this`showDetailedFeedback, this`sessionBadges)
      ensures old(levelConfig.Some? && AllLabelled(edges)) ==> Graded(progress)
    {
      if levelConfig.None? {
        return;
      }
      if !AllLabelled(edges) {
        message, tone := FillArrows, Error;
        return;
      }
      Grade(progress);
    }

    /** The grading part of handleSubmit. */
    method Grade(progress: GameProgressProvider)
      requires levelConfig.Some? && ValidState(progress.state)
      modifies this`message, this`tone, this`attempts, this`matchedPatterns, this`unmatchedPatterns, this`score,
               this`completedLevels, this`levelComplete, this`showDetailedFeedback, this`sessionBadges, progress
      ensures ValidState(progress.state)
      ensures old(Tally()) ==> Tally()
      ensures Graded(progress)
    {
      var seen, levelId, attemptsBefore, hintUsed := progress.state, currentLevelId, attempts, hintUsedThisLevel;
      var completedBefore, scoreBefore, sessionBefore, completeBefore := completedLevels, score, sessionBadges, levelComplete;
      var targets := levelConfig.value.targetPatterns;
      var allPaths := FindAllPathsDrag(nodes, edges);
      Judge(progress, targets, allPaths, seen, levelId, attemptsBefore, hintUsed, completedBefore, scoreBefore,
            sessionBefore, completeBefore);
    }

    /** The attempt is counted and the walks judged against the targets; a full match completes the level. */
    method Judge(progress: GameProgressProvider, targets: seq<seq<string>>, allPaths: seq<seq<string>>,
                 seen: ProgressState, levelId: int, attemptsBefore: int, hintUsed: bool,
                 completedBefore: seq<int>, scoreBefore: int, sessionBefore: seq<Badge>, completeBefore: bool)
      requires ValidState(progress.state)
      requires seen == progress.state && levelId == currentLevelId && attemptsBefore == attempts
      requires hintUsed == hintUsedThisLevel && completeBefore == levelComplete
      requires completedBefore == completedLevels && scoreBefore == score && sessionBefore == sessionBadges
      modifies this`message, this`tone, this`attempts, this`matchedPatterns, this`unmatchedPatterns, this`score,
               this`completedLevels, this`levelComplete, this`showDetailedFeedback, this`sessionBadges, progress
      ensures ValidState(progress.state)
      ensures old(Tally()) ==> Tally()
      ensures Judged(progress, targets, allPaths, seen, levelId, attemptsBefore, hintUsed, completedBefore, scoreBefore,
                     sessionBefore, completeBefore)
    {
      CountAttempt(targets, allPaths, attemptsBefore);
      if unmatchedPatterns != [] {
        message, tone := NoMessage, Error;
      } else {
        CompleteLevel(progress, seen, levelId, attemptsBefore, hintUsed, completedBefore, scoreBefore, sessionBefore);
      }
    }

    /** The attempt is counted and the matched and unmatched patterns shown. */
    method CountAttempt(targets: seq<seq<string>>, allPaths: seq<seq<string>>, attemptsBefore: int)
      modifies this`attempts, this`showDetailedFeedback, this`matchedPatterns, this`unmatchedPatterns
      ensures Counted(targets, allPaths, attemptsBefore)
    {
      attempts := attemptsBefore + 1;
      matchedPatterns, unmatchedPatterns := Matched(targets, allPaths), Unmatched(targets, allPaths);
      showDetailedFeedback := true;
    }

    /** The level-complete branch of handleSubmit. */
    method CompleteLevel(progress: GameProgressProvider, seen: ProgressState, levelId: int, attemptsBefore: int,
                         hintUsed: bool, completedBefore: seq<int>, scoreBefore: int, sessionBefore: seq<Badge>)
      requires ValidState(progress.state)
      requires seen == progress.state && levelId == currentLevelId && hintUsed == hintUsedThisLevel
      requires completedBefore == completedLevels && scoreBefore == score && sessionBefore == sessionBadges
      modifies this`message, this`tone, this`score, this`completedLevels, this`levelComplete, this`sessionBadges, progress
      ensures ValidState(progress.state)
      ensures old(Tally()) ==> Tally()
      ensures Marked(levelId, completedBefore, scoreBefore)
      ensures Shown(progress, seen, levelId, attemptsBefore, hintUsed, sessionBefore)
    {
      MarkComplete(levelId, completedBefore, scoreBefore);
      ShowBadges(progress, seen, levelId, attemptsBefore, hintUsed, sessionBefore);
      SubmitProgressValid(seen, seen, DragStage, levelId, UnlockStars(attemptsBefore, hintUsed), hintUsed,
                          StageStars(score, LevelCount(DragStage)));
    }

    /** The level is marked complete; a first completion adds the level and a point. */
    method MarkComplete(levelId: int, completedBefore: seq<int>, scoreBefore: int)
      requires levelId == currentLevelId && completedBefore == completedLevels && scoreBefore == score
      modifies this`message, this`tone, this`score, this`completedLevels, this`levelComplete
      ensures old(Tally()) ==> Tally()
      ensures Marked(levelId, completedBefore, scoreBefore)
    {
      if currentLevelId !in completedLevels {
        if Tally() {
          NoRepeatsAppend(completedLevels, currentLevelId);
        }
        score := score + 1;
        completedLevels := completedLevels + [currentLevelId];
      }
      levelComplete := true;
      message, tone := Correct, Success;
    }

    /** The three award calls for the level, with what they newly award added to the session badges. */
    method ShowBadges(progress: GameProgressProvider, seen: ProgressState, levelId: int, attemptsBefore: int,
                      hintUsed: bool, sessionBefore: seq<Badge>)
      requires ValidState(progress.state)
      requires seen == progress.state && levelId == currentLevelId && hintUsed == hintUsedThisLevel
      requires sessionBefore == sessionBadges
      modifies this`sessionBadges, progress
      ensures Shown(progress, seen, levelId, attemptsBefore, hintUsed, sessionBefore)
    {
      var shown := AwardBadges(progress, DragStage, levelId, attemptsBefore, hintUsed, score);
      sessionBadges := sessionBefore + shown;
    }

    // ----- After the feedback -----

    /**
     * The level `currentLevelId` is started afresh: no hint used, no attempt,
     * not complete, and when the list has it its board is loaded.
     */
    predicate Restarted()
      reads this
    {
      !hintUsedThisLevel && attempts == 0 && !levelComplete
      && (FindDragLevel(levels, currentLevelId).Some? ==>
            levelConfig == FindDragLevel(levels, currentLevelId) && Fresh(levelConfig.value) && Cleared())
    }

    /**
     * handleContinueFromFeedback: after a completed level, on to the next
     * level while there is one (loading it), never skipping one; otherwise
     * back to the board.
     */
    method ContinueFromFeedback()
      requires Valid()
      modifies this`currentLevelId, this`hintUsedThisLevel, this`attempts, this`levelComplete, this`levelConfig,
               this`nodes, this`edges, this`message, this`tone, this`selectedEdge, this`showDemo,
               this`showDetailedFeedback
      ensures Valid()
      ensures old(levelComplete) && old(currentLevelId) < DragLevelCount ==>
                currentLevelId == old(currentLevelId) + 1 && Restarted()
      ensures old(levelComplete) && old(currentLevelId) >= DragLevelCount ==> unchanged(this)
      ensures !old(levelComplete) ==>
                !showDetailedFeedback
                && unchanged(this`currentLevelId, this`levelConfig, this`nodes, this`edges, this`levelComplete,
                             this`attempts, this`hintUsedThisLevel)
    {
      if !levelComplete {
        showDetailedFeedback := false;
        return;
      }
      if currentLevelId < DragLevelCount {
        MoveOn();
      }
    }

    /** The move to the next level, the level-load effect included. */
    method MoveOn()
      requires Valid()
      modifies this`currentLevelId, this`hintUsedThisLevel, this`attempts, this`levelComplete, this`levelConfig,
               this`nodes, this`edges, this`message, this`tone, this`selectedEdge, this`showDemo,
               this`showDetailedFeedback
      ensures Valid() && currentLevelId == old(currentLevelId) + 1 && Restarted()
    {
      currentLevelId := currentLevelId + 1;
      hintUsedThisLevel := false;
      attempts := 0;
      levelComplete := false;
      LoadLevel();
    }
  }
}
