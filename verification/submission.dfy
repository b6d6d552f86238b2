/**
 * What a completed submission does in the two screens where the player makes
 * the automaton (BuildLevel.tsx and DragLevel.tsx, which share this code
 * line for line): the badge calls to the progress provider, the dedup of
 * what they return, and the stage's list of completed levels.
 */
module Submission {
  import opened Text
  import opened GameProgress
  import opened Stars
  import opened BuildLevelConfigs

  /** The two screens: build mode and drag mode. */
  datatype Stage = BuildStage | DragStage

  /** DRAG_LEVEL_COUNT, the length of the drag-mode level list (ten levels). */
  const DragLevelCount: nat := 10

  /** The stage's name, which is also the key of its stage stars: 'build' or 'drag'. */
  function StageName(stage: Stage): (r: string)
    ensures r == "build" || r == "drag"
  {
    match stage
    case BuildStage => "build"
    case DragStage => "drag"
  }

  /** BUILD_LEVEL_COUNT or DRAG_LEVEL_COUNT. */
  function LevelCount(stage: Stage): (r: nat)
    ensures r == 10
  {
    match stage
    case BuildStage => BuildLevelCount
    case DragStage => DragLevelCount
  }

  /** The progress key of a level: `build-level-${levelId}` or `drag-level-${levelId}`. */
  function LevelKey(stage: Stage, levelId: int): string {
    StageName(stage) + "-level-" + IntToString(levelId)
  }

  /** The badge awardStars offers for a key naming the stage: automaton-architect or path-finder. */
  function StageBadge(stage: Stage): BadgeId {
    match stage
    case BuildStage => AutomatonArchitect
    case DragStage => PathFinder
  }

  /** Every level key names its stage, so awardStars offers the stage's badge for it. */
  lemma LevelKeyNamesStage(stage: Stage, levelId: int)
    ensures Contains(LevelKey(stage, levelId), StageName(stage))
  {
    var key := LevelKey(stage, levelId);
    assert key[..|StageName(stage)|] == StageName(stage);
    assert OccursAt(key, StageName(stage), 0);
    ContainsMeans(key, StageName(stage));
  }

  /**
   * The badges handleSubmit collects on a completed level, before the dedup:
   * awardStars for the level, then for the stage, then recordCorrectAnswer
   * (which the screen calls with 0 seconds); all three judge on the same
   * state `seen`.
   */
  function SubmitBadges(seen: ProgressState, stage: Stage, levelId: int, unlockStars: int, hintUsed: bool,
                        stageStars: int): seq<Badge> {
    Awarded(seen.badges, StarBadgeIds(seen.badges, LevelKey(stage, levelId), unlockStars, hintUsed))
    + Awarded(seen.badges, StarBadgeIds(seen.badges, StageName(stage), stageStars, false))
    + Awarded(seen.badges, CorrectBadgeIds(seen, 0.0))
  }

  /** The provider state after those three calls, each update applied to the latest state. */
  function SubmitProgress(prev: ProgressState, seen: ProgressState, stage: Stage, levelId: int, unlockStars: int,
                          hintUsed: bool, stageStars: int): ProgressState {
    var key := LevelKey(stage, levelId);
    var afterLevel := AwardStarsUpdate(prev, key, unlockStars, hintUsed, StarBadgeIds(seen.badges, key, unlockStars, hintUsed));
    var afterAnswer := CorrectUpdate(afterLevel, CorrectBadgeIds(seen, 0.0));
    AwardStarsUpdate(afterAnswer, StageName(stage), stageStars, false,
                     StarBadgeIds(seen.badges, StageName(stage), stageStars, false))
  }

  /**
   * A completed submission keeps the provider state valid, adds exactly one
   * correct answer and only turns badges on.
   */
  lemma SubmitProgressValid(prev: ProgressState, seen: ProgressState, stage: Stage, levelId: int, unlockStars: int,
                            hintUsed: bool, stageStars: int)
    requires ValidState(prev)
    ensures var next := SubmitProgress(prev, seen, stage, levelId, unlockStars, hintUsed, stageStars);
            ValidState(next) && next.totalCorrect == prev.totalCorrect + 1 && EarnedGrows(prev.badges, next.badges)
  {
    var key := LevelKey(stage, levelId);
    var ids1 := StarBadgeIds(seen.badges, key, unlockStars, hintUsed);
    var afterLevel := AwardStarsUpdate(prev, key, unlockStars, hintUsed, ids1);
    AwardStarsValid(prev, key, unlockStars, hintUsed, ids1);
    var afterAnswer := CorrectUpdate(afterLevel, CorrectBadgeIds(seen, 0.0));
    CorrectValid(afterLevel, CorrectBadgeIds(seen, 0.0));
    AwardStarsValid(afterAnswer, StageName(stage), stageStars, false,
                    StarBadgeIds(seen.badges, StageName(stage), stageStars, false));
  }

  /** Each awarded badge is earned, was awardable, and is one of the ids asked for. */
  lemma AwardedMembers(badges: seq<Badge>, ids: seq<BadgeId>)
    requires forall id :: id in ids ==> CanAward(badges, id)
    ensures forall b :: b in Awarded(badges, ids) ==> b == Badge(b.id, true) && CanAward(badges, b.id) && b.id in ids
  {
    var a := Awarded(badges, ids);
    forall b | b in a ensures b == Badge(b.id, true) && CanAward(badges, b.id) && b.id in ids {
      var k :| 0 <= k < |a| && a[k] == b;
      assert ids[k] in ids;
    }
  }

  /** Every badge collected on a completed submission is earned, was awardable, and is not speed-shepherd. */
  lemma SubmitBadgesMembers(seen: ProgressState, stage: Stage, levelId: int, unlockStars: int, hintUsed: bool,
                            stageStars: int)
    ensures forall b :: b in SubmitBadges(seen, stage, levelId, unlockStars, hintUsed, stageStars) ==>
              b == Badge(b.id, true) && CanAward(seen.badges, b.id) && b.id != SpeedShepherd
  {
    var ids1 := StarBadgeIds(seen.badges, LevelKey(stage, levelId), unlockStars, hintUsed);
    var ids2 := StarBadgeIds(seen.badges, StageName(stage), stageStars, false);
    var ids3 := CorrectBadgeIds(seen, 0.0);
    AwardedMembers(seen.badges, ids1);
    AwardedMembers(seen.badges, ids2);
    AwardedMembers(seen.badges, ids3);
    assert SpeedShepherd !in ids1 && SpeedShepherd !in ids2 && SpeedShepherd !in ids3;
    var a1, a2, a3 := Awarded(seen.badges, ids1), Awarded(seen.badges, ids2), Awarded(seen.badges, ids3);
    forall b: Badge | b in a1 + a2 + a3 ensures b == Badge(b.id, true) && CanAward(seen.badges, b.id) && b.id != SpeedShepherd {
      assert b in a1 || b in a2 || b in a3;
    }
  }

  /** The stage's badge is among the offered level-star ids exactly when it is still unearned. */
  lemma StageBadgeOffered(seen: ProgressState, stage: Stage, levelId: int, unlockStars: int, hintUsed: bool)
    ensures StageBadge(stage) in StarBadgeIds(seen.badges, LevelKey(stage, levelId), unlockStars, hintUsed)
            <==> CanAward(seen.badges, StageBadge(stage))
  {
    LevelKeyNamesStage(stage, levelId);
  }

  /** The stage's badge is collected exactly when it is still unearned. */
  lemma SubmitBadgesStage(seen: ProgressState, stage: Stage, levelId: int, unlockStars: int, hintUsed: bool,
                          stageStars: int)
    ensures StageBadge(stage) in IdSet(SubmitBadges(seen, stage, levelId, unlockStars, hintUsed, stageStars))
            <==> CanAward(seen.badges, StageBadge(stage))
  {
    var xs := SubmitBadges(seen, stage, levelId, unlockStars, hintUsed, stageStars);
    SubmitBadgesMembers(seen, stage, levelId, unlockStars, hintUsed, stageStars);
    if CanAward(seen.badges, StageBadge(stage)) {
      StageBadgeOffered(seen, stage, levelId, unlockStars, hintUsed);
      var ids1 := StarBadgeIds(seen.badges, LevelKey(stage, levelId), unlockStars, hintUsed);
      var k :| 0 <= k < |ids1| && ids1[k] == StageBadge(stage);
      var a1 := Awarded(seen.badges, ids1);
      assert a1[k] in xs;
    }
  }

  /**
   * The badges a completed submission reports: one per id, each earned and
   * unearned in `seen` before, never speed-shepherd (the answer time passed
   * is 0), and the stage's badge exactly when it was still unearned.
   */
  lemma SubmitBadgesFacts(seen: ProgressState, stage: Stage, levelId: int, unlockStars: int, hintUsed: bool,
                          stageStars: int)
    ensures var shown := UniqueBadges(SubmitBadges(seen, stage, levelId, unlockStars, hintUsed, stageStars));
            UniqueIds(shown)
            && (forall b :: b in shown ==> b.earned && CanAward(seen.badges, b.id) && b.id != SpeedShepherd)
            && (Badge(StageBadge(stage), true) in shown <==> CanAward(seen.badges, StageBadge(stage)))
  {
    var xs := SubmitBadges(seen, stage, levelId, unlockStars, hintUsed, stageStars);
    var shown := UniqueBadges(xs);
    UniqueBadgesFacts(xs);
    UniqueBadgesUpToMembers(xs, |xs|);
    assert xs[..|xs|] == xs;
    SubmitBadgesMembers(seen, stage, levelId, unlockStars, hintUsed, stageStars);
    SubmitBadgesStage(seen, stage, levelId, unlockStars, hintUsed, stageStars);
    if CanAward(seen.badges, StageBadge(stage)) {
      var b :| b in xs && b.id == StageBadge(stage);
      assert StageBadge(stage) in IdSet(shown);
      var c :| c in shown && c.id == StageBadge(stage);
    }
  }

  /**
   * The badge calls of a completed submission, all judged on the provider
   * state as it was before them: awardStars for the level and for the
   * stage, recordCorrectAnswer, then the first badge of each id.
   */
  method AwardBadges(progress: GameProgressProvider, stage: Stage, levelId: int, attemptsBefore: int, hintUsed: bool,
                     finalScore: int)
    returns (shown: seq<Badge>)
    requires ValidState(progress.state)
    modifies progress
    ensures var seen := old(progress.state);
            var unlock := UnlockStars(attemptsBefore, hintUsed);
            var stageStars := StageStars(finalScore, LevelCount(stage));
            progress.state == SubmitProgress(seen, seen, stage, levelId, unlock, hintUsed, stageStars)
            && shown == UniqueBadges(SubmitBadges(seen, stage, levelId, unlock, hintUsed, stageStars))
    ensures ValidState(progress.state)
  {
    var seen := progress.state;
    var unlock := UnlockStars(attemptsBefore, hintUsed);
    var starBadges := progress.AwardStars(seen, LevelKey(stage, levelId), unlock, hintUsed);
    var answerBadges := progress.RecordCorrectAnswer(seen, LevelKey(stage, levelId), 0.0);
    var stageStars := StageStars(finalScore, LevelCount(stage));
    var stageBadges := progress.AwardStars(seen, StageName(stage), stageStars, false);
    shown := UniqueBadges(starBadges + stageBadges + answerBadges);
    SubmitProgressValid(seen, seen, stage, levelId, unlock, hintUsed, stageStars);
  }

  // ----- The stage's completed levels -----

  /** No level id is listed twice. */
  predicate NoRepeats(ids: seq<int>) {
    forall i, j :: 0 <= i < j < |ids| ==> ids[i] != ids[j]
  }

  /** Completing a level not yet listed keeps the list free of repeats. */
  lemma NoRepeatsAppend(ids: seq<int>, id: int)
    requires NoRepeats(ids) && id !in ids
    ensures NoRepeats(ids + [id])
  {
    var r := ids + [id];
    forall i, j | 0 <= i < j < |r| ensures r[i] != r[j] {
      if j == |ids| {
        assert r[i] == ids[i] && ids[i] in ids;
      } else {
        assert r[i] == ids[i] && r[j] == ids[j];
      }
    }
  }

  /** The saved progress a screen starts from. */
  datatype SavedProgress = SavedProgress(currentLevelId: int, score: int, completedLevels: seq<int>)
}
