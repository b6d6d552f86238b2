/**
 * The accept/reject screen (AcceptRejectLevel.tsx): the player is shown a
 * question's automaton and a pattern of sheep and answers whether the sheep
 * falls asleep. First-time right answers given without a hint score a point;
 * the sidebar marks each question's slot; after the last question the stage's
 * stars and badges are awarded.
 */
module AcceptReject {
  import opened Wrappers
  import opened GameProgress
  import opened Stars
  import opened TutorialDemo
  import opened PathAnimator
  import opened AcceptRejectConfigs
  import Submission

  /**
   * The key the screen gives the progress provider: 'accept-reject'. It is
   * written as two joined pieces, which keeps the verifier from evaluating
   * every substring search on it.
   */
  const StageKey: string := "accept" + "-reject"

  /** The saved progress the screen starts from. */
  datatype SavedAnswers = SavedAnswers(currentQuestion: int, score: int, completedQuestions: seq<int>)

  /** What a question's slot in the sidebar shows: a tick, a cross, the current question, or a question to come. */
  datatype SlotStatus = CorrectSlot | WrongSlot | CurrentSlot | FutureSlot

  /**
   * The status of slot `i`: a passed question shows whether it was scored;
   * the current one, once answered, whether the answer was right; otherwise
   * it is current or still to come.
   */
  function SlotStatusOf(i: int, currentQuestion: int, completed: seq<int>, showResult: bool, answer: Option<Verdict>,
                        correctAnswer: Verdict): (r: SlotStatus)
    ensures r == CorrectSlot <==> (i < currentQuestion && i in completed)
                                  || (i == currentQuestion && showResult && answer == Some(correctAnswer))
    ensures r == WrongSlot <==> (i < currentQuestion && i !in completed)
                                || (i == currentQuestion && showResult && answer.Some? && answer.value != correctAnswer)
    ensures r == CurrentSlot <==> i == currentQuestion && !(showResult && answer.Some?)
    ensures r == FutureSlot <==> i > currentQuestion
  {
    if i < currentQuestion then (if i in completed then CorrectSlot else WrongSlot)
    else if i == currentQuestion && showResult && answer.Some? then
      (if answer.value == correctAnswer then CorrectSlot else WrongSlot)
    else if i == currentQuestion then CurrentSlot
    else FutureSlot
  }

  /** How many of the slots 0 .. n-1 show a tick. */
  function TickCount(n: nat, currentQuestion: int, completed: seq<int>, showResult: bool, answer: Option<Verdict>,
                     correctAnswer: Verdict): nat {
    if n == 0 then 0
    else TickCount(n - 1, currentQuestion, completed, showResult, answer, correctAnswer)
         + (if SlotStatusOf(n - 1, currentQuestion, completed, showResult, answer, correctAnswer) == CorrectSlot then 1 else 0)
  }

  /** How many of 0 .. n-1 are listed in `xs`. */
  function CountIn(xs: seq<int>, n: nat): nat {
    if n == 0 then 0 else CountIn(xs, n - 1) + (if n - 1 in xs then 1 else 0)
  }

  /** Listing one more id, not listed before, counts it when it is below `n`. */
  lemma {:induction false} CountInSnoc(ys: seq<int>, x: int, n: nat)
    requires x !in ys
    ensures CountIn(ys + [x], n) == CountIn(ys, n) + (if 0 <= x < n then 1 else 0)
  {
    if n > 0 {
      CountInSnoc(ys, x, n - 1);
      assert (n - 1 in ys + [x]) <==> (n - 1 in ys || n - 1 == x);
    }
  }

  /** A list without repeats, all of whose ids lie in 0 .. n-1, counts once per entry. */
  lemma {:induction false} CountInAll(xs: seq<int>, n: nat)
    requires Submission.NoRepeats(xs)
    requires forall k :: 0 <= k < |xs| ==> 0 <= xs[k] < n
    ensures CountIn(xs, n) == |xs|
    decreases |xs|, n
  {
    if xs == [] {
      if n > 0 {
        CountInAll(xs, n - 1);
      }
    } else {
      var ys, x := xs[..|xs| - 1], xs[|xs| - 1];
      assert xs == ys + [x];
      forall k | 0 <= k < |ys| ensures ys[k] == xs[k] && ys[k] != x {
        assert xs[k] != xs[|xs| - 1];
      }
      CountInAll(ys, n);
      CountInSnoc(ys, x, n);
    }
  }

  /** Between questions, the first n slots tick exactly the scored questions already passed. */
  lemma {:induction false} TicksBetweenQuestions(n: nat, currentQuestion: nat, completed: seq<int>, answer: Option<Verdict>,
                                                 correctAnswer: Verdict)
    ensures TickCount(n, currentQuestion, completed, false, answer, correctAnswer)
            == CountIn(completed, if n <= currentQuestion then n else currentQuestion)
  {
    if n > 0 {
      TicksBetweenQuestions(n - 1, currentQuestion, completed, answer, correctAnswer);
    }
  }

  /**
   * Between questions, with every scored question already passed and none
   * listed twice, the sidebar shows one tick per scored question.
   */
  lemma TicksMatchScore(slots: nat, currentQuestion: nat, completed: seq<int>, answer: Option<Verdict>,
                        correctAnswer: Verdict)
    requires currentQuestion <= slots
    requires Submission.NoRepeats(completed)
    requires forall k :: 0 <= k < |completed| ==> 0 <= completed[k] < currentQuestion
    ensures TickCount(slots, currentQuestion, completed, false, answer, correctAnswer) == |completed|
  {
    TicksBetweenQuestions(slots, currentQuestion, completed, answer, correctAnswer);
    CountInAll(completed, currentQuestion);
  }

  /** What the animator shows for a question: accepted when the sheep falls asleep. */
  function WalkVerdict(q: AcceptRejectQuestion): (r: Verdict)
    ensures r == Accept <==> Evaluate(q.nodes, q.edges, q.testPattern).success
  {
    if Evaluate(q.nodes, q.edges, q.testPattern).success then Accept else Reject
  }

  /**
   * The question list's answer key is what the animator shows: every
   * question's answer is its walk's verdict, so an answer is right exactly
   * when it agrees with the animation.
   */
  predicate AnswerKey(questions: seq<AcceptRejectQuestion>) {
    |questions| == AcceptRejectQuestionCount
    && forall k :: 0 <= k < |questions| ==> questions[k].correctAnswer == WalkVerdict(questions[k])
  }

  /** Under that answer key, an answer is right exactly when it says what the walk of the question's sheep shows. */
  lemma RightAnswerIsWalk(questions: seq<AcceptRejectQuestion>, k: int, selected: Verdict)
    requires AnswerKey(questions) && 0 <= k < |questions|
    ensures selected == questions[k].correctAnswer
            <==> (selected == Accept <==> Evaluate(questions[k].nodes, questions[k].edges, questions[k].testPattern).success)
  {
    assert questions[k].correctAnswer == WalkVerdict(questions[k]);
  }

  /** ACCEPT_REJECT_QUESTIONS keeps that answer key. */
  lemma QuestionsAnswerKey()
    ensures AnswerKey(Questions)
  {
    QuestionIds();
    AllQuestionsWellFormed();
  }

  /** `checkAndAwardBadge('perfect-level-1')` after no wrong answer, as handleLevelComplete pushes it. */
  function PerfectBadge(seen: ProgressState, incorrectAnswers: int): seq<Badge> {
    if incorrectAnswers == 0 && CanAward(seen.badges, PerfectLevel1) then [Badge(PerfectLevel1, true)] else []
  }

  /** The badges handleLevelComplete collects: awardStars for the stage, then perfect-level-1. */
  function FinishBadges(seen: ProgressState, stars: int, anyHintUsed: bool, incorrectAnswers: int): seq<Badge> {
    Awarded(seen.badges, StarBadgeIds(seen.badges, StageKey, stars, anyHintUsed)) + PerfectBadge(seen, incorrectAnswers)
  }

  /** The provider state after handleLevelComplete's two calls, each applied to the latest state. */
  function FinishProgress(prev: ProgressState, seen: ProgressState, stars: int, anyHintUsed: bool,
                          incorrectAnswers: int): ProgressState {
    var afterStars := AwardStarsUpdate(prev, StageKey, stars, anyHintUsed, StarBadgeIds(seen.badges, StageKey, stars, anyHintUsed));
    if PerfectBadge(seen, incorrectAnswers) != [] then
      afterStars.(badges := ReplaceBadge(afterStars.badges, PerfectLevel1, Badge(PerfectLevel1, true)))
    else afterStars
  }

  /** The stage key names the accept/reject stage, so awardStars offers pattern-spotter for it. */
  lemma PatternSpotterOffered(seen: seq<Badge>, stars: int, hintsUsed: bool)
    ensures PatternSpotter in StarBadgeIds(seen, StageKey, stars, hintsUsed) <==> CanAward(seen, PatternSpotter)
  {
    assert OccursAt(StageKey, "accept-reject", 0);
    ContainsMeans(StageKey, "accept-reject");
  }

  /** An id's earned badge is among those awarded exactly when the id was asked for. */
  lemma AwardedHas(badges: seq<Badge>, ids: seq<BadgeId>, id: BadgeId)
    requires forall i :: i in ids ==> CanAward(badges, i)
    ensures Badge(id, true) in Awarded(badges, ids) <==> id in ids
  {
    var a := Awarded(badges, ids);
    if id in ids {
      var k :| 0 <= k < |ids| && ids[k] == id;
      assert a[k] == Badge(id, true);
    }
    if Badge(id, true) in a {
      var k :| 0 <= k < |a| && a[k] == Badge(id, true);
      assert ids[k] == id;
    }
  }

  /** An id's earned badge is collected when awardStars asks for it, or when it is perfect-level-1 and that is added. */
  lemma FinishBadgesHas(seen: ProgressState, stars: int, anyHintUsed: bool, incorrectAnswers: int, id: BadgeId)
    ensures Badge(id, true) in FinishBadges(seen, stars, anyHintUsed, incorrectAnswers)
            <==> id in StarBadgeIds(seen.badges, StageKey, stars, anyHintUsed) || Badge(id, true) in PerfectBadge(seen, incorrectAnswers)
  {
    var starIds := StarBadgeIds(seen.badges, StageKey, stars, anyHintUsed);
    AwardedHas(seen.badges, starIds, id);
  }

  /**
   * Finishing the stage with `stars` earns, among badges still unearned:
   * perfect-flock for 3 stars, no-hints-needed without any hint,
   * pattern-spotter always, perfect-level-1 without a wrong answer; every
   * badge it reports is earned and was unearned before.
   */
  lemma FinishBadgesFacts(seen: ProgressState, stars: int, anyHintUsed: bool, incorrectAnswers: int)
    ensures var xs := FinishBadges(seen, stars, anyHintUsed, incorrectAnswers);
            (Badge(PerfectFlock, true) in xs <==> stars == 3 && CanAward(seen.badges, PerfectFlock))
            && (Badge(NoHintsNeeded, true) in xs <==> !anyHintUsed && CanAward(seen.badges, NoHintsNeeded))
            && (Badge(PatternSpotter, true) in xs <==> CanAward(seen.badges, PatternSpotter))
            && (Badge(PerfectLevel1, true) in xs <==> incorrectAnswers == 0 && CanAward(seen.badges, PerfectLevel1))
    ensures forall b :: b in FinishBadges(seen, stars, anyHintUsed, incorrectAnswers) ==>
              b == Badge(b.id, true) && CanAward(seen.badges, b.id)
  {
    FinishBadgesHas(seen, stars, anyHintUsed, incorrectAnswers, PerfectFlock);
    FinishBadgesHas(seen, stars, anyHintUsed, incorrectAnswers, NoHintsNeeded);
    FinishBadgesHas(seen, stars, anyHintUsed, incorrectAnswers, PatternSpotter);
    FinishBadgesHas(seen, stars, anyHintUsed, incorrectAnswers, PerfectLevel1);
    PatternSpotterOffered(seen.badges, stars, anyHintUsed);
    var starIds := StarBadgeIds(seen.badges, StageKey, stars, anyHintUsed);
    Submission.AwardedMembers(seen.badges, starIds);
  }

  /**
   * The provider calls of handleLevelComplete: awardStars for the stage with
   * the stars the score earns, then checkAndAwardBadge('perfect-level-1')
   * when no answer was wrong, both judged on the state before them.
   */
  method FinishStage(progress: GameProgressProvider, levelStars: int, anyHintUsed: bool, incorrectAnswers: int)
    returns (badges: seq<Badge>)
    modifies progress
    ensures badges == FinishBadges(old(progress.state), levelStars, anyHintUsed, incorrectAnswers)
    ensures progress.state == FinishProgress(old(progress.state), old(progress.state), levelStars, anyHintUsed, incorrectAnswers)
    ensures old(ValidState(progress.state)) ==> ValidState(progress.state)
  {
    var seen := progress.state;
    ghost var ids := StarBadgeIds(seen.badges, StageKey, levelStars, anyHintUsed);
    badges := progress.AwardStars(seen, StageKey, levelStars, anyHintUsed);
    ghost var afterStars := progress.state;
    var perfect: seq<Badge> := [];
    if incorrectAnswers == 0 {
      var perfectBadge := progress.CheckAndAwardBadge(seen, PerfectLevel1);
      if perfectBadge.Some? {
        perfect := [perfectBadge.value];
      }
    }
    assert perfect == PerfectBadge(seen, incorrectAnswers);
    badges := badges + perfect;
    if ValidState(seen) {
      AwardStarsValid(seen, StageKey, levelStars, anyHintUsed, ids);
      if perfect != [] {
        ReplaceEarnedValid(afterStars, PerfectLevel1);
      }
    }
  }

  /** What recordCorrectAnswer returns, judged on `seen`. */
  function RightBadges(seen: ProgressState, timeSeconds: real): seq<Badge> {
    Awarded(seen.badges, CorrectBadgeIds(seen, timeSeconds))
  }

  /** The provider state after recordCorrectAnswer. */
  function RightProgress(seen: ProgressState, timeSeconds: real): ProgressState {
    CorrectUpdate(seen, CorrectBadgeIds(seen, timeSeconds))
  }

  /** What recordIncorrectAnswer returns: persistence, while unearned. */
  function WrongBadges(seen: ProgressState): seq<Badge> {
    if CanAward(seen.badges, Persistence) then [Badge(Persistence, true)] else []
  }

  /** The provider state after recordIncorrectAnswer. */
  function WrongProgress(seen: ProgressState): ProgressState {
    if CanAward(seen.badges, Persistence) then seen.(badges := ReplaceBadge(seen.badges, Persistence, Badge(Persistence, true)))
    else seen
  }

  /** handleAnswer's call on a right answer: `recordCorrectAnswer('accept-reject', timeSeconds)`. */
  method RecordRight(progress: GameProgressProvider, timeSeconds: real) returns (badges: seq<Badge>)
    modifies progress
    ensures badges == RightBadges(old(progress.state), timeSeconds)
    ensures progress.state == RightProgress(old(progress.state), timeSeconds)
    ensures old(ValidState(progress.state)) ==> ValidState(progress.state)
  {
    var seen := progress.state;
    badges := progress.RecordCorrectAnswer(seen, StageKey, timeSeconds);
    if ValidState(seen) {
      CorrectValid(seen, CorrectBadgeIds(seen, timeSeconds));
    }
  }

  /** handleAnswer's call on a wrong answer: `recordIncorrectAnswer('accept-reject')`. */
  method RecordWrong(progress: GameProgressProvider) returns (badges: seq<Badge>)
    modifies progress
    ensures badges == WrongBadges(old(progress.state))
    ensures progress.state == WrongProgress(old(progress.state))
    ensures old(ValidState(progress.state)) ==> ValidState(progress.state)
  {
    var seen := progress.state;
    badges := progress.RecordIncorrectAnswer(seen, StageKey);
    if ValidState(seen) {
      ReplaceEarnedValid(seen, Persistence);
    }
  }

  /** The screen's state (the animation, the layout and the saved-progress storage are left out). */
  class AcceptRejectGame {
    var currentQuestion: int
    var answer: Option<Verdict>
    var showResult: bool
    var score: int
    var completedQuestions: seq<int>
    var hintUsedThisQuestion: bool
    var anyHintUsed: bool
    var wrongAttemptThisQuestion: bool
    var incorrectAnswers: int
    var sessionBadges: seq<Badge>
    var levelFinished: bool
    var showDemo: bool
    var demoConcept: Demo
    /** The question list the screen reads, `ACCEPT_REJECT_QUESTIONS`. */
    const questions: seq<AcceptRejectQuestion>

    /**
     * The score counts the scored questions, each once; every one of them
     * has been passed, or is the current question with its result shown.
     */
    predicate Tally()
      reads this`score, this`completedQuestions, this`currentQuestion, this`showResult
    {
      score == |completedQuestions| && Submission.NoRepeats(completedQuestions)
      && forall k :: 0 <= k < |completedQuestions| ==>
           0 <= completedQuestions[k]
           && (completedQuestions[k] < currentQuestion || (completedQuestions[k] == currentQuestion && showResult))
    }

    /** The status of slot `i` in the sidebar. */
    function Slot(i: int): SlotStatus
      requires 0 <= currentQuestion < |questions|
      reads this`currentQuestion, this`completedQuestions, this`showResult, this`answer
    {
      SlotStatusOf(i, currentQuestion, completedQuestions, showResult, answer, questions[currentQuestion].correctAnswer)
    }

    /** How many slots of the sidebar show a tick. */
    function Ticks(): nat
      requires 0 <= currentQuestion < |questions|
      reads this`currentQuestion, this`completedQuestions, this`showResult, this`answer
    {
      TickCount(|questions|, currentQuestion, completedQuestions, showResult, answer,
                questions[currentQuestion].correctAnswer)
    }

    /** The first render on the list `questionList`: the saved question, score and scored questions, or a fresh start. */
    constructor(questionList: seq<AcceptRejectQuestion>, saved: Option<SavedAnswers>)
      requires AnswerKey(questionList)
      ensures questions == questionList && AnswerKey(questions)
      ensures currentQuestion == (if saved.Some? then saved.value.currentQuestion else 0)
      ensures score == (if saved.Some? then saved.value.score else 0)
      ensures completedQuestions == (if saved.Some? then saved.value.completedQuestions else [])
      ensures answer.None? && !showResult && !hintUsedThisQuestion && !anyHintUsed && !wrongAttemptThisQuestion
      ensures incorrectAnswers == 0 && sessionBadges == [] && !levelFinished && !showDemo && demoConcept == TracePath
      ensures saved.None? ==> Tally()
    {
      questions := questionList;
      if saved.Some? {
        currentQuestion, score, completedQuestions :=
          saved.value.currentQuestion, saved.value.score, saved.value.completedQuestions;
      } else {
        currentQuestion, score, completedQuestions := 0, 0, [];
      }
      answer, showResult := None, false;
      hintUsedThisQuestion, anyHintUsed, wrongAttemptThisQuestion := false, false, false;
      incorrectAnswers := 0;
      sessionBadges, levelFinished := [], false;
      showDemo, demoConcept := false, TracePath;
    }

    /** handleHintClick: the question is marked hinted and its demo opens. */
    method HandleHintClick()
      requires 0 <= currentQuestion < |questions|
      modifies this`hintUsedThisQuestion, this`anyHintUsed, this`demoConcept, this`showDemo
      ensures hintUsedThisQuestion && anyHintUsed && showDemo
      ensures demoConcept == PickArDemo(questions[currentQuestion].id, Some(questions[currentQuestion].conceptsIntroduced))
    {
      hintUsedThisQuestion := true;
      anyHintUsed := true;
      var q := questions[currentQuestion];
      demoConcept := PickArDemo(q.id, Some(q.conceptsIntroduced));
      showDemo := true;
    }

    /**
     * handleAnswer, with `timeSeconds` the time since the question was
     * shown: the answer is shown, the current slot ticks exactly when the
     * answer agrees with the question's walk, and a right answer scores only
     * on a first try without a hint.
     */
    method HandleAnswer(progress: GameProgressProvider, selected: Verdict, timeSeconds: real)
      requires 0 <= currentQuestion < |questions|
      modifies this`answer, this`showResult, this`sessionBadges, this`score, this`completedQuestions,
               this`wrongAttemptThisQuestion, this`incorrectAnswers, progress
      ensures answer == Some(selected) && showResult
      ensures Slot(currentQuestion) == (if selected == questions[currentQuestion].correctAnswer then CorrectSlot else WrongSlot)
      ensures selected == questions[currentQuestion].correctAnswer ==>
                var scored := old(!wrongAttemptThisQuestion && !hintUsedThisQuestion && currentQuestion !in completedQuestions);
                sessionBadges == old(sessionBadges) + RightBadges(old(progress.state), timeSeconds)
                && progress.state == RightProgress(old(progress.state), timeSeconds)
                && score == old(score) + (if scored then 1 else 0)
                && completedQuestions == old(completedQuestions) + (if scored then [currentQuestion] else [])
                && wrongAttemptThisQuestion == old(wrongAttemptThisQuestion) && incorrectAnswers == old(incorrectAnswers)
      ensures selected != questions[currentQuestion].correctAnswer ==>
                sessionBadges == old(sessionBadges) + WrongBadges(old(progress.state))
                && progress.state == WrongProgress(old(progress.state))
                && score == old(score) && completedQuestions == old(completedQuestions)
                && wrongAttemptThisQuestion && incorrectAnswers == old(incorrectAnswers) + 1
      ensures old(Tally()) ==> Tally()
      ensures old(ValidState(progress.state)) ==> ValidState(progress.state)
    {
      answer := Some(selected);
      showResult := true;
      var question := questions[currentQuestion];
      if selected == question.correctAnswer {
        var answerBadges := RecordRight(progress, timeSeconds);
        sessionBadges := sessionBadges + answerBadges;
        ScoreRight();
      } else {
        wrongAttemptThisQuestion := true;
        incorrectAnswers := incorrectAnswers + 1;
        var incorrectBadges := RecordWrong(progress);
        sessionBadges := sessionBadges + incorrectBadges;
      }
    }

    /** The scoring step of a right answer: a point, and the question listed, on a first try without a hint. */
    method ScoreRight()
      requires 0 <= currentQuestion && showResult
      modifies this`score, this`completedQuestions
      ensures var scored := old(!wrongAttemptThisQuestion && !hintUsedThisQuestion && currentQuestion !in completedQuestions);
              score == old(score) + (if scored then 1 else 0)
              && completedQuestions == old(completedQuestions) + (if scored then [currentQuestion] else [])
      ensures old(Tally()) ==> Tally()
    {
      var isFirstCorrect := currentQuestion !in completedQuestions;
      if !wrongAttemptThisQuestion && !hintUsedThisQuestion && isFirstCorrect {
        if Submission.NoRepeats(completedQuestions) {
          Submission.NoRepeatsAppend(completedQuestions, currentQuestion);
        }
        score := score + 1;
        completedQuestions := completedQuestions + [currentQuestion];
      }
    }

    /**
     * handleNext: the next question, unanswered and unhinted. Once on it,
     * the sidebar shows one tick per point scored.
     */
    method HandleNext()
      modifies this`currentQuestion, this`answer, this`showResult, this`hintUsedThisQuestion,
               this`wrongAttemptThisQuestion
      ensures currentQuestion == old(currentQuestion) + 1
      ensures answer.None? && !showResult && !hintUsedThisQuestion && !wrongAttemptThisQuestion
      ensures old(Tally()) ==> Tally()
      ensures old(Tally()) && 0 <= currentQuestion < |questions| ==> Ticks() == score
    {
      ghost var counted := Tally();
      if counted {
        assert forall k :: 0 <= k < |completedQuestions| ==> 0 <= completedQuestions[k] <= currentQuestion;
      }
      currentQuestion := currentQuestion + 1;
      answer := None;
      showResult := false;
      hintUsedThisQuestion := false;
      wrongAttemptThisQuestion := false;
      if counted {
        if 0 <= currentQuestion < |questions| {
          TicksMatchScore(|questions|, currentQuestion, completedQuestions, answer, questions[currentQuestion].correctAnswer);
        }
      }
    }

    /**
     * handleLevelComplete: the stage's stars from the share of questions
     * scored, with its badges and perfect-level-1 after no wrong answer, all
     * judged on the provider state before the calls; the stage is finished.
     */
    method HandleLevelComplete(progress: GameProgressProvider)
      modifies this`sessionBadges, this`levelFinished, progress
      ensures levelFinished
      ensures var stars := StageStars(score, AcceptRejectQuestionCount);
              sessionBadges == old(sessionBadges) + FinishBadges(old(progress.state), stars, anyHintUsed, incorrectAnswers)
              && progress.state == FinishProgress(old(progress.state), old(progress.state), stars, anyHintUsed, incorrectAnswers)
      ensures old(ValidState(progress.state)) ==> ValidState(progress.state)
    {
      var levelStars := StageStars(score, AcceptRejectQuestionCount);
      var badges := FinishStage(progress, levelStars, anyHintUsed, incorrectAnswers);
      sessionBadges := sessionBadges + badges;
      levelFinished := true;
    }

    /** The continue button: the results after the last question, the next question before it. */
    method HandleContinue(progress: GameProgressProvider)
      requires AnswerKey(questions) && 0 <= currentQuestion < |questions|
      modifies this`currentQuestion, this`answer, this`showResult, this`hintUsedThisQuestion,
               this`wrongAttemptThisQuestion, this`sessionBadges, this`levelFinished, progress
      ensures 0 <= currentQuestion < |questions|
      ensures levelFinished <==> old(levelFinished) || old(currentQuestion) == AcceptRejectQuestionCount - 1
      ensures old(Tally()) ==> Tally()
    {
      if currentQuestion == AcceptRejectQuestionCount - 1 {
        HandleLevelComplete(progress);
      } else {
        HandleNext();
      }
    }

    /** handleRestart: back to the first question with nothing scored (the open demo is left as it was). */
    method HandleRestart()
      requires |questions| > 0
      modifies this`currentQuestion, this`answer, this`showResult, this`score, this`completedQuestions,
               this`hintUsedThisQuestion, this`anyHintUsed, this`wrongAttemptThisQuestion, this`incorrectAnswers,
               this`levelFinished, this`sessionBadges
      ensures currentQuestion == 0 && answer.None? && !showResult && score == 0 && completedQuestions == []
      ensures !hintUsedThisQuestion && !anyHintUsed && !wrongAttemptThisQuestion && incorrectAnswers == 0
      ensures !levelFinished && sessionBadges == []
      ensures Tally() && Ticks() == 0
    {
      currentQuestion := 0;
      answer := None;
      showResult := false;
      score := 0;
      completedQuestions := [];
      hintUsedThisQuestion := false;
      anyHintUsed := false;
      wrongAttemptThisQuestion := false;
      incorrectAnswers := 0;
      levelFinished := false;
      sessionBadges := [];
      TicksMatchScore(|questions|, 0, [], None, questions[0].correctAnswer);
    }
  }
}
