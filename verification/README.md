# Sheep automata: a verified model of the game core

The game teaches finite automata with sheep. Fences are states, arrows are
transitions, and a sheep on an arrow is the arrow's symbol. An accepting
fence holds a farmer's bed, and a pattern is a sequence of sheep. There are
three screens:

- **Build mode**: the player draws fences and arrows and places sheep until
  the graph accepts every target pattern of the level.
- **Drag mode**: the fences and arrows are given and the player only places
  the sheep.
- **Accept/reject**: the player is shown a finished automaton and a pattern,
  and says whether the sheep reach a bed.

Around the screens sit four other pieces:

- the progress provider, which keeps the stars, correct answers, badges and
  per-level records;
- the sheep animator, which walks a pattern along the first matching arrow;
- the tutorial-demo picker, which chooses the demo a hint opens;
- the level files, which hold the ten build levels and the ten questions.

Each screen is a class whose fields are the screen's React state. Its
handlers are methods that set those fields as the handler's `set...` calls
do. The progress provider is also a class; its state updates are pure record
rebuilds, proved to keep the provider's invariant. The two evaluators are
modelled twice each: once as methods with their loops and shared mutable
closure state, and once as specification functions. One evaluator is
`calculatePath`, which walks first-match; the other is `findAllPaths`, a
depth-first search bounded to 10 sheep. The methods are proved to compute
the functions. The functions are then proved sound and, where the source
promises it, complete against one reading of the graph as an automaton
(`Graph.Accepts`).

Module layout, one file each:

| module | file | models |
|---|---|---|
| `Wrappers` | `wrappers.dfy` | an Option type |
| `Seqs` | `seqs.dfy` | filter and subsequence facts |
| `Text` | `text.dfy` | number rendering and letter case |
| `Stars` | `stars.dfy` | star rules shared by the screens |
| `Graph` | `graph.dfy` | the graph snapshot and its lookups |
| `StateNode` | `state_node.dfy` | fence captions and pictures |
| `FenceNames` | `fence_names.dfy` | caption rule of the level files |
| `GameProgress` | `game_progress.dfy` | the progress provider |
| `PathAnimator` | `path_animator.dfy` | `calculatePath` and the pattern loop |
| `PathSearch` | `path_search.dfy` | `findAllPaths` and grading |
| `Submission` | `submission.dfy` | the badge calls of a completed level |
| `TutorialDemo` | `tutorial_demo.dfy` | the demo pickers |
| `BuildLevelConfigs` | `build_level_configs.dfy` | the ten build levels |
| `AcceptRejectConfigs` | `accept_reject_configs.dfy` | the ten questions |
| `BuildLevel` | `build_level.dfy` | the build-mode screen |
| `DragLevel` | `drag_level.dfy` | the drag-mode screen |
| `Explanation` | `explanation.dfy` | the explanation tokenizer |
| `AcceptReject` | `accept_reject.dfy` | the accept/reject screen |

## Model

| member | source | states |
|---|---|---|
| `Text.NatToString` | src/BuildLevel.tsx:385 | `${n}` of a counter is a non-empty string of decimal digits with no leading zero |
| `Text.NatToStringValue` | src/BuildLevel.tsx:385 | reading the rendered digits back gives the counter |
| `Text.NatToStringInjective` | src/BuildLevel.tsx:288 | two counters render the same exactly when they are equal, so counter-built ids never collide |
| `Text.UpperFirst` | src/components/StateNode.tsx:33 | `charAt(0).toUpperCase() + slice(1)`: same length, first character upper-cased, the rest kept |
| `Stars.StageStars` | src/BuildLevel.tsx:674-678 | 3 stars exactly when score/count >= 0.9, 2 exactly in [0.7, 0.9), 1 exactly below 0.7 |
| `Stars.StageStarsMonotone` | src/BuildLevel.tsx:674-678 | more completed levels never give fewer stage stars, and the stars stay within 1..3 |
| `Stars.UnlockStars` | src/BuildLevel.tsx:670 | 2 unlock stars exactly when there was no earlier attempt and no hint, otherwise 1 |
| `StateNode.StateDigitsMeans` | src/components/StateNode.tsx:31 | `/^state[-_]?(\d+)$/i` matches exactly a case-insensitive "state", an optional '-' or '_' and digits, and captures the digits |
| `StateNode.FriendlyName` | src/components/StateNode.tsx:15-34 | a non-empty caption other than the id wins; then the fixed table, then "Fence <digits>" for the state pattern, then the upper-cased first letter |
| `StateNode.FriendlyNameLenient` | src/components/StateNode.tsx:31-32 | without a caption, "state" in any case, then nothing, `-` or `_`, then digits, is captioned "Fence <digits>" |
| `StateNode.DisplayLabel` | src/components/StateNode.tsx:47 | a label is shown exactly when labels are on and the fence is not the start, and it is the friendly name |
| `StateNode.FarmerImage` | src/components/StateNode.tsx:36-42 | asleep exactly after a success, grumpy exactly after a failure, awake exactly with no result |
| `FenceNames.FixedName` | src/buildLevelConfigs.ts:18-28 | the fixed table has an entry exactly for its eight ids |
| `FenceNames.FixedNameIsUpperFirst` | src/buildLevelConfigs.ts:18-27 | every fixed caption is its id with the first letter upper-cased |
| `FenceNames.StrictStateDigits` | src/buildLevelConfigs.ts:30 | `/^state(\d+)$/` matches exactly "state" followed by one or more digits, and captures them |
| `FenceNames.ConfigFriendlyName` | src/buildLevelConfigs.ts:17-34 | fixed table first, then "Fence <digits>" for the strict state form, else the upper-cased first letter |
| `FenceNames.ConfigFriendlyNameState` | src/buildLevelConfigs.ts:30-31 | every `state<n>` id is captioned "Fence <n>" |
| `FenceNames.ConfigFriendlyNameSeparator` | src/buildLevelConfigs.ts:30-33 | the strict pattern rejects separators, so `state-3` is captioned "State-3" |
| `Graph.FindStart` | src/components/SheepPathAnimator.tsx:45 | finds a start fence of the list, and finds none exactly when no fence is a start |
| `Graph.FindNode` | src/components/SheepPathAnimator.tsx:54 | finds a fence of the list with the id, and finds none exactly when no fence has it |
| `Graph.FindNodeUnique` | src/components/SheepPathAnimator.tsx:54 | with unique ids the lookup by id returns exactly the fence that has the id |
| `Graph.FirstEdge` | src/components/SheepPathAnimator.tsx:60-62 | a found arrow leaves the current fence and carries exactly the sheep |
| `Graph.FirstEdgeIsFirst` | src/components/SheepPathAnimator.tsx:60-62 | the arrow found is the first match in list order, and none is found only when no arrow matches |
| `Graph.FirstEdgeIs` | src/components/SheepPathAnimator.tsx:60-62 | a matching arrow with no earlier match is the one found |
| `Graph.FirstEdgeNone` | src/components/SheepPathAnimator.tsx:60-64 | with no matching arrow nothing is found |
| `Graph.AcceptingIds` | src/BuildLevel.tsx:505 | holds exactly the ids of the accepting fences |
| `Graph.AcceptsNeedsAccepting` | src/BuildLevel.tsx:507 | no pattern is accepted by a graph without an accepting fence |
| `Graph.EmptyCount` | src/BuildLevel.tsx:720 | the count of empty arrows is at most the arrow count, and zero exactly when every arrow carries a sheep (line 629) |
| `Graph.ClearSheep` | src/BuildLevel.tsx:228-231 | the level-load rewrite keeps every arrow in place and only takes its sheep off |
| `PathAnimator.CalculatePath` | src/components/SheepPathAnimator.tsx:38-101 | the loop with its early returns computes exactly the evaluator function `Evaluate` |
| `PathAnimator.EvaluateTrace` | src/components/SheepPathAnimator.tsx:52-100 | with a start fence: node-not-found never happens; each hop takes the first matching arrow and the hops chain; a consumed pattern succeeds exactly on an accepting fence and otherwise reports wrong-state; no-path gives i+1 hops, the last standing still; target-not-found gives i hops |
| `PathAnimator.EvaluateNoStart` | src/components/SheepPathAnimator.tsx:45-48 | without a start fence: no hops, failure, no-start; and no-start happens only then |
| `PathAnimator.EvaluateEmptyPattern` | src/components/SheepPathAnimator.tsx:97-100 | an empty pattern makes no hop and succeeds exactly when the start fence is accepting |
| `PathAnimator.EvaluateSound` | src/components/SheepPathAnimator.tsx:38-101 | a pattern of named sheep reported successful is accepted by the graph read as an automaton from its start fence |
| `PathAnimator.EvaluateComplete` | src/components/SheepPathAnimator.tsx:38-101 | on a graph with unique ids, known targets and at most one arrow per fence and sheep, every accepted pattern is reported successful |
| `PathAnimator.FirstMatchMissesNondeterministicWalk` | src/components/SheepPathAnimator.tsx:60-62 | a two-arrow graph where the first-match rule reports failure although the graph accepts the pattern |
| `PathAnimator.AllPatterns` | src/components/SheepPathAnimator.tsx:146 | the pattern list is `patterns` when given; otherwise `[pattern]`, or empty exactly when the pattern is empty |
| `PathAnimator.RunAllPatterns` | src/components/SheepPathAnimator.tsx:167-256 | one result per pattern, equal to `Evaluate`; no report exactly when there is no pattern; the verdict is "every result succeeded"; the stop fence is the last hop's target |
| `PathAnimator.AllSuccessSound` | src/components/SheepPathAnimator.tsx:250 | an overall success means the graph accepts every pattern of named sheep |
| `PathSearch.PathCollector.Traverse` | src/BuildLevel.tsx:509-528 | `traverse` appends exactly the search function's result to `allPaths` and restores `path` and `visited`, so the visit keys never cut a branch |
| `PathSearch.PathCollector.Follow` | src/BuildLevel.tsx:516-526 | one arrow of the forEach appends exactly that arrow's branch and restores `path` and `visited` |
| `PathSearch.FindAllPathsBuild` | src/BuildLevel.tsx:502-532 | build mode's findAllPaths returns exactly `AllPaths` |
| `PathSearch.FindAllPathsDrag` | src/DragLevel.tsx:259-292 | drag mode's findAllPaths, which searches whenever a start exists, returns exactly `AllPaths` too |
| `PathSearch.DfsSound` | src/BuildLevel.tsx:509-528 | every reported sequence extends the current path, is non-empty with at most 10 sheep, and its new sheep walk from the fence to an accepting fence |
| `PathSearch.DfsComplete` | src/BuildLevel.tsx:509-528 | every such extension that the graph accepts is reported |
| `PathSearch.AllPathsExactly` | src/BuildLevel.tsx:502-532 | findAllPaths returns exactly the sequences of 1 to 10 sheep that the graph accepts from its start fence |
| `PathSearch.NoAcceptingNoPaths` | src/BuildLevel.tsx:507 | with no start or no accepting fence the result is empty |
| `PathSearch.SuccessIsFound` | src/BuildLevel.tsx:502-532 | a pattern of 1 to 10 named sheep on which the animator succeeds is among the sequences findAllPaths reports |
| `PathSearch.PathsMatch` | src/BuildLevel.tsx:534-537 | pathsMatch holds exactly when the two paths are equal |
| `PathSearch.Found` | src/BuildLevel.tsx:641-642 | a target is found exactly when it is among the reported paths |
| `PathSearch.Matched` | src/BuildLevel.tsx:640-642 | holds exactly the targets that are among the reported paths |
| `PathSearch.Unmatched` | src/BuildLevel.tsx:643-645 | holds exactly the targets that are not among the reported paths |
| `PathSearch.GradeCounts` | src/BuildLevel.tsx:640-645 | matched and unmatched together are a permutation of the targets |
| `PathSearch.GradeOrder` | src/BuildLevel.tsx:640-645 | matched and unmatched each keep the targets' order |
| `PathSearch.GradeComplete` | src/BuildLevel.tsx:652 | the level is complete (unmatched empty) exactly when every target is found |
| `Submission.StageName` | src/BuildLevel.tsx:680 | the stage's star key is "build" or "drag" |
| `Submission.LevelCount` | src/BuildLevel.tsx:675 | both stages have ten levels |
| `Submission.LevelKeyNamesStage` | src/BuildLevel.tsx:671 | every `build-level-<id>` / `drag-level-<id>` key contains the stage name |
| `Submission.SubmitProgressValid` | src/BuildLevel.tsx:670-680 | the three provider calls of a completed level keep the provider valid, add exactly one correct answer and only turn badges on |
| `Submission.AwardedMembers` | src/contexts/GameProgressContext.tsx:193-196 | every awarded badge is earned, was awardable and was asked for |
| `Submission.SubmitBadgesMembers` | src/BuildLevel.tsx:670-683 | every collected badge is earned, was unearned before, and is never speed-shepherd, as the answer time passed is 0 |
| `Submission.StageBadgeOffered` | src/contexts/GameProgressContext.tsx:183-191 | the stage's badge (path-finder or automaton-architect) is offered for a level key exactly when it is unearned |
| `Submission.SubmitBadgesStage` | src/BuildLevel.tsx:670-683 | the stage's badge is collected exactly when it was unearned |
| `Submission.SubmitBadgesFacts` | src/BuildLevel.tsx:683-686 | after the dedup: one badge per id, each earned and unearned before, never speed-shepherd, and the stage's badge exactly when it was unearned |
| `Submission.AwardBadges` | src/BuildLevel.tsx:670-687 | the calls judge on the state before them; the new state is the composed update; the badges shown are the dedup of level stars, stage stars, then answer badges; validity is kept |
| `Submission.NoRepeatsAppend` | src/BuildLevel.tsx:655-660 | appending a level not yet listed keeps the completed list free of repeats |
| `GameProgress.FindBadge` | src/contexts/GameProgressContext.tsx:300 | a found badge is in the list and has the id |
| `GameProgress.FindBadgeFirst` | src/contexts/GameProgressContext.tsx:300 | the found badge is the first with the id, and none is found only when no badge has it |
| `GameProgress.GetLevel` | src/contexts/GameProgressContext.tsx:302 | a found entry has the key; none is found exactly when no entry has it |
| `GameProgress.Upsert` | src/contexts/GameProgressContext.tsx:218-221 | after the spread the key maps to the new entry and every other key is unchanged |
| `GameProgress.ContainsMeans` | src/contexts/GameProgressContext.tsx:178 | `includes` holds exactly when the part occurs at some index |
| `GameProgress.InitialStateValid` | src/contexts/GameProgressContext.tsx:111-117 | the initial state is valid, with no stars, no correct answers, no level entries and every badge unearned |
| `GameProgress.MarkEarned` | src/contexts/GameProgressContext.tsx:211-216 | same length; a badge asked for becomes earned with its id kept, the others are unchanged |
| `GameProgress.ReplaceBadge` | src/contexts/GameProgressContext.tsx:156 | the badge with the id is replaced, every other badge is kept |
| `GameProgress.Awarded` | src/contexts/GameProgressContext.tsx:193-196 | one earned badge per id asked for, in order, each awardable |
| `GameProgress.StarPicks` | src/contexts/GameProgressContext.tsx:168-191 | each of the five ids is pushed exactly when its condition holds, and no other id is pushed |
| `GameProgress.StarBadgeIds` | src/contexts/GameProgressContext.tsx:164-191 | perfect-flock exactly for 3 stars; no-hints-needed exactly without hints; pattern-spotter, path-finder and automaton-architect exactly for keys containing accept-reject, drag or build; each only while unearned in the render's state |
| `GameProgress.AwardStarsLevel` | src/contexts/GameProgressContext.tsx:198-208 | the level's best is the new stars on a first award and the larger of old best and stars afterwards; attempts grow by one; a false hintsUsed stays false; other levels are untouched |
| `GameProgress.SumBestUpsert` | src/contexts/GameProgressContext.tsx:218-221 | the upsert keeps one entry per level and changes the sum of bests by the replaced best |
| `GameProgress.MarkEarnedKeeps` | src/contexts/GameProgressContext.tsx:211-216 | the badge map keeps the defined badge list and only turns badges on |
| `GameProgress.AwardStarsValid` | src/contexts/GameProgressContext.tsx:198-227 | awardStars keeps totalStars equal to the sum of bests, adds exactly the gain of a new best, keeps the correct count and only turns badges on |
| `GameProgress.CorrectPicks` | src/contexts/GameProgressContext.tsx:235-253 | each of the four ids is pushed exactly when its condition holds, and no other id is pushed |
| `GameProgress.CorrectBadgeIds` | src/contexts/GameProgressContext.tsx:232-253 | first-steps on the first answer; sheep-counter from the 5th; sleepy-farmer from the 10th; speed-shepherd for a time strictly between 0 and 10 seconds; each only while unearned |
| `GameProgress.CorrectValid` | src/contexts/GameProgressContext.tsx:260-273 | recordCorrectAnswer adds exactly one correct answer, keeps stars and level entries, only turns badges on and keeps validity |
| `GameProgress.FindReplaced` | src/contexts/GameProgressContext.tsx:156 | after the replacement, the lookup by the id finds the replacement exactly when it found a badge before |
| `GameProgress.ReplaceEarnedValid` | src/contexts/GameProgressContext.tsx:284-287 | replacing a badge by its earned copy keeps validity and leaves it earned, so it is never awarded again |
| `GameProgress.EarnedBadges` | src/contexts/GameProgressContext.tsx:304 | holds exactly the earned badges |
| `GameProgress.UniqueBadgesFacts` | src/BuildLevel.tsx:683-685 | the `findIndex` dedup yields unique ids, keeps the input's order and loses no id |
| `GameProgress.GameProgressProvider.constructor` | src/contexts/GameProgressContext.tsx:111-117 | the provider starts from the initial state |
| `GameProgress.GameProgressProvider.CheckAndAwardBadge` | src/contexts/GameProgressContext.tsx:151-161 | returns the earned badge exactly when it was awardable in the render's state, and replaces it in the latest state; otherwise returns nothing and changes nothing |
| `GameProgress.GameProgressProvider.PushUnearned` | src/contexts/GameProgressContext.tsx:168-171 | the id is pushed exactly when the rule's condition holds and the badge is unearned |
| `GameProgress.GameProgressProvider.AwardStars` | src/contexts/GameProgressContext.tsx:164-230 | returns the awarded badges picked on the render's state; the latest state becomes `AwardStarsUpdate` of it |
| `GameProgress.GameProgressProvider.RecordCorrectAnswer` | src/contexts/GameProgressContext.tsx:232-276 | returns the awarded badges picked on the render's state; the latest state becomes `CorrectUpdate` of it |
| `GameProgress.GameProgressProvider.RecordIncorrectAnswer` | src/contexts/GameProgressContext.tsx:278-293 | persistence is returned and earned exactly when it was unearned; otherwise nothing changes |
| `GameProgress.GameProgressProvider.ResetProgress` | src/contexts/GameProgressContext.tsx:295-298 | the state is back to the initial state |
| `GameProgress.GameProgressProvider.GetBadge` | src/contexts/GameProgressContext.tsx:300 | finds a badge of the state with the id, and none exactly when no badge has it |
| `GameProgress.GameProgressProvider.GetLevelProgress` | src/contexts/GameProgressContext.tsx:302 | finds the state's entry for the key, and finds nothing exactly when no entry has that key |
| `GameProgress.GameProgressProvider.GetEarnedBadges` | src/contexts/GameProgressContext.tsx:304 | holds exactly the state's earned badges |
| `TutorialDemo.DragDemoByLevel` | src/components/TutorialDemo.tsx:647-651 | by level id alone: single for ids up to 1, match for 2-3, branch for 4-6 and above 8, loop for 7-8 (each an iff) |
| `TutorialDemo.PickDragDemo` | src/components/TutorialDemo.tsx:640-652 | loop wins, then branching or multiple-accepting, then sequence; without a recognised concept the level id decides |
| `TutorialDemo.PickArDemo` | src/components/TutorialDemo.tsx:654-667 | basics exactly when a basic concept is introduced; trace-path exactly when no recognised concept is; any other demo only for a concept the question introduces |
| `TutorialDemo.PickDemoForState` | src/components/TutorialDemo.tsx:669-687 | the level's set-accepting concept wins on a board without a bed; set-accepting only without a bed, add-state only while the board has no more fences than the level started with, build-loop only for that concept; place-sheep only with a bed, arrows and an empty arrow; a finished board never gets place-sheep or set-accepting |
| `BuildLevelConfigs.CreateNode` | src/buildLevelConfigs.ts:37-48 | a `stateNode` fence with the given id, position and flags, captioned by the level files' friendly name |
| `BuildLevelConfigs.CreateEdge` | src/buildLevelConfigs.ts:51-57 | a `custom` arrow with the given id and ends and no sheep |
| `BuildLevelConfigs.FindLevel` | src/buildLevelConfigs.ts:268-270 | a found level has the id; none is found exactly when no level has it |
| `BuildLevelConfigs.LevelIds` | src/buildLevelConfigs.ts:59-272 | ten levels whose ids are their positions from 1, so BUILD_LEVEL_COUNT is 10 |
| `BuildLevelConfigs.GetBuildLevelConfigSpec` | src/buildLevelConfigs.ts:268-270 | the lookup succeeds exactly for ids 1..10 and returns the level at that position |
| `BuildLevelConfigs.FindLevelById` | src/buildLevelConfigs.ts:268-270 | on a list whose ids are positions from 1, the lookup finds exactly those ids, each at its position |
| `BuildLevelConfigs.FindLevelAt` | src/buildLevelConfigs.ts:268-270 | with increasing ids the lookup finds the level at the id's position |
| `BuildLevelConfigs.Level1Shaped` | src/buildLevelConfigs.ts:61-78 | level 1 starts with one start fence and no arrows, has a bed exactly unless it is a place-the-bed level (4, 8, 9, 10), and offers every sheep its target patterns ask for |
| `BuildLevelConfigs.Level2Shaped` | src/buildLevelConfigs.ts:81-99 | level 2 starts with one start fence and no arrows, has a bed exactly unless it is a place-the-bed level (4, 8, 9, 10), and offers every sheep its target patterns ask for |
| `BuildLevelConfigs.Level3Shaped` | src/buildLevelConfigs.ts:102-122 | level 3 starts with one start fence and no arrows, has a bed exactly unless it is a place-the-bed level (4, 8, 9, 10), and offers every sheep its target patterns ask for |
| `BuildLevelConfigs.Level4Shaped` | src/buildLevelConfigs.ts:125-142 | level 4 starts with one start fence and no arrows, has a bed exactly unless it is a place-the-bed level (4, 8, 9, 10), and offers every sheep its target patterns ask for |
| `BuildLevelConfigs.Level5Shaped` | src/buildLevelConfigs.ts:145-162 | level 5 starts with one start fence and no arrows, has a bed exactly unless it is a place-the-bed level (4, 8, 9, 10), and offers every sheep its target patterns ask for |
| `BuildLevelConfigs.Level6Shaped` | src/buildLevelConfigs.ts:165-183 | level 6 starts with one start fence and no arrows, has a bed exactly unless it is a place-the-bed level (4, 8, 9, 10), and offers every sheep its target patterns ask for |
| `BuildLevelConfigs.Level7Shaped` | src/buildLevelConfigs.ts:186-205 | level 7 starts with one start fence and no arrows, has a bed exactly unless it is a place-the-bed level (4, 8, 9, 10), and offers every sheep its target patterns ask for |
| `BuildLevelConfigs.Level8Shaped` | src/buildLevelConfigs.ts:208-224 | level 8 starts with one start fence and no arrows, has a bed exactly unless it is a place-the-bed level (4, 8, 9, 10), and offers every sheep its target patterns ask for |
| `BuildLevelConfigs.Level9Shaped` | src/buildLevelConfigs.ts:227-244 | level 9 starts with one start fence and no arrows, has a bed exactly unless it is a place-the-bed level (4, 8, 9, 10), and offers every sheep its target patterns ask for |
| `BuildLevelConfigs.Level10Shaped` | src/buildLevelConfigs.ts:247-265 | level 10 starts with one start fence and no arrows, has a bed exactly unless it is a place-the-bed level (4, 8, 9, 10), and offers every sheep its target patterns ask for |
| `AcceptRejectConfigs.FindQuestion` | src/acceptRejectLevelConfigs.ts:201-203 | a found question has the id; none is found exactly when no question has it |
| `AcceptRejectConfigs.QuestionIds` | src/acceptRejectLevelConfigs.ts:14-205 | ten questions whose ids are their positions from 1, so ACCEPT_REJECT_QUESTION_COUNT is 10 |
| `AcceptRejectConfigs.FindQuestionAt` | src/acceptRejectLevelConfigs.ts:201-203 | with increasing ids the lookup finds the question at the id's position |
| `AcceptRejectConfigs.GetAcceptRejectQuestionSpec` | src/acceptRejectLevelConfigs.ts:201-203 | the lookup succeeds exactly for ids 1..10 and returns the question at that position |
| `AcceptRejectConfigs.Question1Walk` | src/acceptRejectLevelConfigs.ts:15-28 | question 1: the animator's first-match walk of the test pattern: the walk succeeds |
| `AcceptRejectConfigs.Question1WellFormed` | src/acceptRejectLevelConfigs.ts:15-28 | question 1 has one start fence, a bed and a sheep on every arrow; it has a rejection reason exactly when its answer is reject; its authored answer is accept exactly when the walk succeeds |
| `AcceptRejectConfigs.Question2Walk` | src/acceptRejectLevelConfigs.ts:30-44 | question 2: the animator's first-match walk of the test pattern: the walk fails at sheep 0 with no-path |
| `AcceptRejectConfigs.Question2WellFormed` | src/acceptRejectLevelConfigs.ts:30-44 | question 2 has one start fence, a bed and a sheep on every arrow; it has a rejection reason exactly when its answer is reject; its authored answer is accept exactly when the walk succeeds |
| `AcceptRejectConfigs.Question3Walk` | src/acceptRejectLevelConfigs.ts:46-61 | question 3: the animator's first-match walk of the test pattern: the walk succeeds |
| `AcceptRejectConfigs.Question3WellFormed` | src/acceptRejectLevelConfigs.ts:46-61 | question 3 has one start fence, a bed and a sheep on every arrow; it has a rejection reason exactly when its answer is reject; its authored answer is accept exactly when the walk succeeds |
| `AcceptRejectConfigs.Question4Walk` | src/acceptRejectLevelConfigs.ts:63-79 | question 4: the animator's first-match walk of the test pattern: the walk ends off a bed: wrong-state, no stuck index |
| `AcceptRejectConfigs.Question4WellFormed` | src/acceptRejectLevelConfigs.ts:63-79 | question 4 has one start fence, a bed and a sheep on every arrow; it has a rejection reason exactly when its answer is reject; its authored answer is accept exactly when the walk succeeds |
| `AcceptRejectConfigs.Question5Walk` | src/acceptRejectLevelConfigs.ts:81-99 | question 5: the animator's first-match walk of the test pattern: the walk succeeds |
| `AcceptRejectConfigs.Question5WellFormed` | src/acceptRejectLevelConfigs.ts:81-99 | question 5 has one start fence, a bed and a sheep on every arrow; it has a rejection reason exactly when its answer is reject; its authored answer is accept exactly when the walk succeeds |
| `AcceptRejectConfigs.Question6Walk` | src/acceptRejectLevelConfigs.ts:101-120 | question 6: the animator's first-match walk of the test pattern: the walk fails at sheep 1 with no-path |
| `AcceptRejectConfigs.Question6WellFormed` | src/acceptRejectLevelConfigs.ts:101-120 | question 6 has one start fence, a bed and a sheep on every arrow; it has a rejection reason exactly when its answer is reject; its authored answer is accept exactly when the walk succeeds |
| `AcceptRejectConfigs.Question7Walk` | src/acceptRejectLevelConfigs.ts:122-138 | question 7: the animator's first-match walk of the test pattern: the walk succeeds |
| `AcceptRejectConfigs.Question7WellFormed` | src/acceptRejectLevelConfigs.ts:122-138 | question 7 has one start fence, a bed and a sheep on every arrow; it has a rejection reason exactly when its answer is reject; its authored answer is accept exactly when the walk succeeds |
| `AcceptRejectConfigs.Question8Walk` | src/acceptRejectLevelConfigs.ts:140-158 | question 8: the animator's first-match walk of the test pattern: the walk fails at sheep 1 with no-path |
| `AcceptRejectConfigs.Question8WellFormed` | src/acceptRejectLevelConfigs.ts:140-158 | question 8 has one start fence, a bed and a sheep on every arrow; it has a rejection reason exactly when its answer is reject; its authored answer is accept exactly when the walk succeeds |
| `AcceptRejectConfigs.Question9Walk` | src/acceptRejectLevelConfigs.ts:160-177 | question 9: the animator's first-match walk of the test pattern: the walk succeeds |
| `AcceptRejectConfigs.Question9WellFormed` | src/acceptRejectLevelConfigs.ts:160-177 | question 9 has one start fence, a bed and a sheep on every arrow; it has a rejection reason exactly when its answer is reject; its authored answer is accept exactly when the walk succeeds |
| `AcceptRejectConfigs.Question10Walk` | src/acceptRejectLevelConfigs.ts:179-198 | question 10: the animator's first-match walk of the test pattern: the walk succeeds |
| `AcceptRejectConfigs.Question10WellFormed` | src/acceptRejectLevelConfigs.ts:179-198 | question 10 has one start fence, a bed and a sheep on every arrow; it has a rejection reason exactly when its answer is reject; its authored answer is accept exactly when the walk succeeds |
| `AcceptRejectConfigs.QuestionList` | src/acceptRejectLevelConfigs.ts:14-199 | the list holds the ten questions in play order |
| `AcceptRejectConfigs.AllQuestionsWellFormed` | src/acceptRejectLevelConfigs.ts:14-199 | every question is well formed, so every authored answer agrees with the animator |
| `AcceptRejectConfigs.AuthoredReasons` | src/acceptRejectLevelConfigs.ts:77 | the reasons are authored: question 4's incomplete is the animator's wrong-state, and question 8's dead-end (line 156) is its no-path at the second sheep |
| `BuildLevel.StateId` | src/BuildLevel.tsx:385 | a fence id is `state-` followed by the counter's decimal digits |
| `BuildLevel.EdgeId` | src/BuildLevel.tsx:288 | an arrow id is `edge-` followed by the counter's decimal digits |
| `BuildLevel.StateIdInjective` | src/BuildLevel.tsx:385 | two fence ids are equal exactly when their counter values are |
| `BuildLevel.EdgeIdInjective` | src/BuildLevel.tsx:288 | two arrow ids are equal exactly when their counter values are |
| `BuildLevel.NewFence` | src/BuildLevel.tsx:383-396 | a dropped fence has the counter's id, is never a start, is a bed exactly when dropped as one, and is captioned "Fence n" |
| `BuildLevel.NewFenceName` | src/BuildLevel.tsx:389 | a dropped fence shows as "Fence n", and would even without its caption, since StateNode reads `state-n` the same way |
| `BuildLevel.BoardAddEdge` | src/BuildLevel.tsx:274-297 | adding an arrow between fences not yet joined that way keeps ids distinct, arrows non-parallel and counter ids below the counter |
| `BuildLevel.BoardAddNode` | src/BuildLevel.tsx:383-396 | adding a dropped fence keeps the board invariant |
| `BuildLevel.BoardRelabel` | src/BuildLevel.tsx:338-357 | placing, moving or clearing sheep keeps the board invariant |
| `BuildLevel.SetSheep` | src/BuildLevel.tsx:452-463 | only the arrow with the id gets the new sheep; every arrow keeps its place, id and ends |
| `BuildLevel.MoveSheep` | src/BuildLevel.tsx:339-350 | the target arrow gets the sheep, the arrow it came from (if another) is emptied, the rest are kept |
| `BuildLevel.MoveSheepMoves` | src/BuildLevel.tsx:339-350 | with distinct arrow ids: the old arrow is empty, the new one carries the sheep, the rest are as before |
| `BuildLevel.WithoutNode` | src/BuildLevel.tsx:487 | keeps exactly the fences with another id |
| `BuildLevel.WithoutIncident` | src/BuildLevel.tsx:488 | keeps exactly the arrows that touch neither end of the deleted fence |
| `BuildLevel.WithoutEdge` | src/BuildLevel.tsx:490 | keeps exactly the arrows with another id |
| `BuildLevel.BoardDelete` | src/BuildLevel.tsx:483-495 | deleting a fence with its arrows, or one arrow, keeps the board invariant and the order of what stays |
| `BuildLevel.BoardLoad` | src/BuildLevel.tsx:220-245 | a loadable level's fences and emptied arrows, with the counters just past them, satisfy the board invariant |
| `BuildLevel.ShortIdsLoadable` | src/BuildLevel.tsx:244-245 | fence ids of at most six characters can never clash with a counter id `state-n` |
| `BuildLevel.Level1Loadable` | src/buildLevelConfigs.ts:61-78 | level 1 has no initial arrows, distinct fence ids, and no fence id the counter could make |
| `BuildLevel.Level2Loadable` | src/buildLevelConfigs.ts:81-99 | level 2 has no initial arrows, distinct fence ids, and no fence id the counter could make |
| `BuildLevel.Level3Loadable` | src/buildLevelConfigs.ts:102-122 | level 3 has no initial arrows, distinct fence ids, and no fence id the counter could make |
| `BuildLevel.Level4Loadable` | src/buildLevelConfigs.ts:125-142 | level 4 has no initial arrows, distinct fence ids, and no fence id the counter could make |
| `BuildLevel.Level5Loadable` | src/buildLevelConfigs.ts:145-162 | level 5 has no initial arrows, distinct fence ids, and no fence id the counter could make |
| `BuildLevel.Level6Loadable` | src/buildLevelConfigs.ts:165-183 | level 6 has no initial arrows, distinct fence ids, and no fence id the counter could make |
| `BuildLevel.Level7Loadable` | src/buildLevelConfigs.ts:186-205 | level 7 has no initial arrows, distinct fence ids, and no fence id the counter could make |
| `BuildLevel.Level8Loadable` | src/buildLevelConfigs.ts:208-224 | level 8 has no initial arrows, distinct fence ids, and no fence id the counter could make |
| `BuildLevel.Level9Loadable` | src/buildLevelConfigs.ts:227-244 | level 9 has no initial arrows, distinct fence ids, and no fence id the counter could make |
| `BuildLevel.Level10Loadable` | src/buildLevelConfigs.ts:247-265 | level 10 has no initial arrows, distinct fence ids, and no fence id the counter could make |
| `BuildLevel.HintWhenFilled` | src/BuildLevel.tsx:715-734 | the hint never suggests placing a sheep once every arrow carries one |
| `BuildLevel.ShippedLevelList` | src/buildLevelConfigs.ts:59-272 | the shipped list has ids 1..10 in order, and every level can start the board |
| `BuildLevel.LevelListLookup` | src/buildLevelConfigs.ts:268-270 | on such a list every id 1..10 finds a level, and what is found is loadable |
| `BuildLevel.FirstUncompleted` | src/BuildLevel.tsx:698-701 | the loop finds the smallest id in 1..count not completed, and none exactly when all are completed |
| `BuildLevel.Resume` | src/BuildLevel.tsx:91-99 | without saved progress: the given level with nothing done; otherwise the saved score and list, and the first uncompleted level, or the last when all are done |
| `BuildLevel.DroppedEdges` | src/BuildLevel.tsx:338-358 | a sheep drop only changes what the arrows carry |
| `BuildLevel.DroppedEdgesMeans` | src/BuildLevel.tsx:338-358 | a drop on an arrow puts the sheep there and empties the arrow it came from; a drop on nothing only empties the arrow it came from |
| `BuildLevel.BuildLevelGame.constructor` | src/BuildLevel.tsx:88-150 | the first render: the resumed level, score and list; the level looked up by the saved or given id; an empty board with both counters at 1; nothing selected, no attempt, no badges |
| `BuildLevel.BuildLevelGame.SetUpBoard` | src/BuildLevel.tsx:224-233 | the board is the level's fences and emptied arrows, the counters just past them (lines 244-245), and the board invariant holds |
| `BuildLevel.BuildLevelGame.ClearScreen` | src/BuildLevel.tsx:234-242 | no message, nothing selected or being drawn, not complete, select mode, no feedback panel |
| `BuildLevel.BuildLevelGame.LoadLevel` | src/BuildLevel.tsx:220-258 | the level-load effect: on a found level its fresh board with the screen cleared and no attempts; on a missing level nothing changes; the invariant holds |
| `BuildLevel.BuildLevelGame.StartLevel` | src/BuildLevel.tsx:221-245 | the found level becomes current, on its fresh board, with the screen cleared, no attempts and no demo |
| `BuildLevel.BuildLevelGame.HandleReset` | src/BuildLevel.tsx:593-617 | the level's fresh board, screen cleared, no sheep selected, no session badges; without a level nothing changes |
| `BuildLevel.BuildLevelGame.CompleteConnection` | src/BuildLevel.tsx:274-298 | a new empty arrow when the fences are not yet joined that way and a loop is allowed, which closes the feedback panel of an incomplete level; a duplicate is reported as an error; the connection is given up either way |
| `BuildLevel.BuildLevelGame.AddFence` | src/BuildLevel.tsx:383-396 | appends the dropped fence with the counter's id and advances the counter, keeping the invariant; the feedback panel of an incomplete level closes |
| `BuildLevel.BuildLevelGame.DropSheepAtPosition` | src/BuildLevel.tsx:314-359 | the arrows become `DroppedEdges` of the drop; the arrow selection is cleared when the drop lands on an arrow; when the arrows are replaced the feedback panel of an incomplete level closes |
| `BuildLevel.BuildLevelGame.HandleDropOnGraph` | src/BuildLevel.tsx:361-432 | arrow-from near a fence starts an arrow; arrow-to completes it; bed drops a bed; a sheep is dropped; otherwise a plain fence where the level allows it; each change to the fences or arrows closes the feedback panel of an incomplete level; any other drop changes nothing |
| `BuildLevel.BuildLevelGame.OnNodeClick` | src/BuildLevel.tsx:434-447 | in connect mode the first click starts the arrow and the second completes it; in delete mode any fence but the start is queued for deletion; an arrow added closes the feedback panel of an incomplete level; otherwise nothing changes |
| `BuildLevel.BuildLevelGame.OnEdgeClick` | src/BuildLevel.tsx:449-481 | in delete mode the arrow is queued; else a selected sheep goes onto it and is unselected; else its sheep is taken off; else it is selected; placing or taking off closes the feedback panel of an incomplete level |
| `BuildLevel.BuildLevelGame.ConfirmDelete` | src/BuildLevel.tsx:483-495 | a queued fence goes with every arrow touching it, a queued arrow goes alone, and the dialog and the feedback panel of an incomplete level close; with nothing queued nothing changes |
| `BuildLevel.BuildLevelGame.RemoveTarget` | src/BuildLevel.tsx:486-491 | the deletion itself, keeping the board invariant |
| `BuildLevel.BuildLevelGame.DismissFeedback` | src/BuildLevel.tsx:162-166 | the effect after the fences or arrows change: an open feedback panel closes unless the level is complete |
| `BuildLevel.BuildLevelGame.CancelDelete` | src/BuildLevel.tsx:497-500 | the dialog closes and nothing is queued |
| `BuildLevel.BuildLevelGame.ToggleSheep` | src/BuildLevel.tsx:961-971 | clicking the selected sheep unselects it and clears the message; another sheep is selected, in connect mode, with no arrow selected or being drawn |
| `BuildLevel.BuildLevelGame.ChooseSelect` | src/BuildLevel.tsx:837 | select mode, no arrow being drawn, no sheep selected |
| `BuildLevel.BuildLevelGame.ChooseDelete` | src/BuildLevel.tsx:847 | delete mode, nothing being drawn or selected |
| `BuildLevel.BuildLevelGame.ChooseConnect` | src/BuildLevel.tsx:860 | connect mode, no sheep selected, and an arrow already started is given up |
| `BuildLevel.BuildLevelGame.HandleHintClick` | src/BuildLevel.tsx:715-734 | marks the hint used and opens the demo `pickDemoForState` gives for the level and the board; without a level nothing changes |
| `BuildLevel.BuildLevelGame.HandleSubmit` | src/BuildLevel.tsx:619-693 | no bed: a bed error and nothing else; an empty arrow: a fill-arrows error; otherwise the board is graded; the provider stays valid and the score keeps counting the completed levels |
| `BuildLevel.BuildLevelGame.Grade` | src/BuildLevel.tsx:637-692 | the attempt is counted; the targets are split against exactly the board's accepted walks; the level completes exactly when none is unmatched; a failure leaves the score, progress and badges as they were |
| `BuildLevel.BuildLevelGame.Judge` | src/BuildLevel.tsx:637-692 | the same, for given accepted walks |
| `BuildLevel.BuildLevelGame.CountAttempt` | src/BuildLevel.tsx:637-650 | one more attempt, the feedback shown, matched and unmatched patterns as graded |
| `BuildLevel.BuildLevelGame.CompleteLevel` | src/BuildLevel.tsx:654-687 | a first completion adds the level and a point; the provider receives the level, answer and stage calls; the newly awarded badges join the session |
| `BuildLevel.BuildLevelGame.MarkComplete` | src/BuildLevel.tsx:655-668 | the level is shown complete; a first completion appends it and adds a point, so the score still counts the list |
| `BuildLevel.BuildLevelGame.ShowBadges` | src/BuildLevel.tsx:670-687 | the provider state is the composed update of the three calls, and the deduplicated new badges join the session badges |
| `BuildLevel.BuildLevelGame.ContinueFromFeedback` | src/BuildLevel.tsx:695-713 | after a completed level: on to the first uncompleted level, loading it; if all are done nothing changes (storage is cleared); otherwise the feedback panel closes |
| `BuildLevel.BuildLevelGame.MoveTo` | src/BuildLevel.tsx:702-706 | the level becomes current with no hint, no attempts and not complete; when it differs from the previous one its board is loaded |
| `DragLevel.FindDragLevel` | src/dragLevelConfigs.ts:298-300 | the level found is in the list and has the id; none is found exactly when no level has it |
| `DragLevel.Placed` | src/DragLevel.tsx:339-341 | the arrow carries the sheep and its label shows it; its id, ends and kind are kept |
| `DragLevel.Emptied` | src/DragLevel.tsx:336-338 | the arrow carries no sheep and shows '?'; its id, ends and kind are kept |
| `DragLevel.Relabel` | src/DragLevel.tsx:334-344 | the same arrows in the same places, each under the drop's label map |
| `DragLevel.DroppedLabels` | src/DragLevel.tsx:299-361 | no sheep dragged leaves the arrows alone; a drop on an arrow empties the arrow it came from (unless it is the same one) and puts the sheep on the chosen arrow; a drop near no arrow only empties the arrow it came from; the arrows stay the same arrows |
| `DragLevel.DropMovesSheep` | src/DragLevel.tsx:333-344 | moving a sheep from arrow a to arrow b empties a, fills b with that sheep and leaves every other arrow as it was |
| `DragLevel.DropNowhereClears` | src/DragLevel.tsx:345-360 | a drop that lands near no arrow empties the arrow the sheep came from and nothing else |
| `DragLevel.DragLevelGame.constructor` | src/DragLevel.tsx:77-116 | the saved level, score and completed list (or the given level and nothing done), the level config looked up for that level, an empty board and a clear screen |
| `DragLevel.DragLevelGame.SetUp` | src/DragLevel.tsx:207-226 | the level's fences, its arrows with no sheep, no message, no arrow selected, not complete and no feedback panel |
| `DragLevel.DragLevelGame.LoadLevel` | src/DragLevel.tsx:207-226 | for a level the list has: that level becomes current on its fresh board, with no attempts and no demo; otherwise nothing changes |
| `DragLevel.DragLevelGame.StartLevel` | src/DragLevel.tsx:209-226 | the found level is current, on its fresh board with the screen cleared, no attempts and no demo |
| `DragLevel.DragLevelGame.HandleReset` | src/DragLevel.tsx:460-479 | without a level nothing changes; otherwise the level's fresh board, the screen cleared and the session badges emptied |
| `DragLevel.DragLevelGame.HandleDropOnGraph` | src/DragLevel.tsx:299-361 | the arrows become `DroppedLabels` of the old arrows for the arrow the drop lands on, and the board stays the level's; when the arrows are replaced the feedback panel of an incomplete level closes |
| `DragLevel.DragLevelGame.OnEdgeClick` | src/DragLevel.tsx:363-396 | with a sheep picked the clicked arrow gets it and the pick is dropped; else a sheep on the arrow is taken off with "Sheep removed"; else the arrow is selected; placing or taking off closes the feedback panel of an incomplete level; nothing else changes |
| `DragLevel.DragLevelGame.DismissFeedback` | src/DragLevel.tsx:131-135 | the effect after the arrows change: an open feedback panel closes unless the level is complete |
| `DragLevel.DragLevelGame.OnSelectSheep` | src/DragLevel.tsx:398-406 | picking the picked sheep again drops the pick; another sheep becomes the pick and no arrow stays selected |
| `DragLevel.DragLevelGame.HandleHintClick` | src/DragLevel.tsx:567-578 | the hint is marked used and the demo opens: the one-sheep demo when some but not all arrows are empty, otherwise the level's demo picked by `PickDragDemo` |
| `DragLevel.DragLevelGame.HandleSubmit` | src/DragLevel.tsx:481-549 | without a level nothing changes; a board with an empty arrow gets the error message and nothing else changes; a full board is graded against the level's targets; the provider state stays valid and the score keeps counting the completed list |
| `DragLevel.DragLevelGame.Grade` | src/DragLevel.tsx:491-548 | the board's accepted walks are judged against the level's target patterns, starting from the state before the submit |
| `DragLevel.DragLevelGame.Judge` | src/DragLevel.tsx:491-548 | the attempt is counted and the patterns split into matched and unmatched; with any unmatched pattern the message is cleared, the tone set to error, and score, completed list, level state, session badges and provider state are unchanged; with none the level is completed and its badges are awarded |
| `DragLevel.DragLevelGame.CountAttempt` | src/DragLevel.tsx:491-506 | one more attempt; the matched and unmatched patterns are those some walk matches and the rest; the feedback panel opens |
| `DragLevel.DragLevelGame.CompleteLevel` | src/DragLevel.tsx:510-543 | a first completion adds the level and a point; the provider receives the level, answer and stage calls; the newly awarded badges join the session |
| `DragLevel.DragLevelGame.MarkComplete` | src/DragLevel.tsx:510-521 | the level is shown complete with "Correct"; a first completion appends it and adds a point, so the score still counts the list |
| `DragLevel.DragLevelGame.ShowBadges` | src/DragLevel.tsx:523-543 | the provider state is the composed update of the three calls, with the stage stars taken from the new score, and the deduplicated new badges join the session badges |
| `DragLevel.DragLevelGame.ContinueFromFeedback` | src/DragLevel.tsx:551-565 | after a completed level below the last, the next level (never skipping one) is started and loaded; after the last nothing changes (storage is cleared); otherwise the feedback panel closes |
| `DragLevel.DragLevelGame.MoveOn` | src/DragLevel.tsx:555-559 | the level id goes up by one with no hint, no attempts and not complete, and its board is loaded when the list has it |
| `AcceptReject.SlotStatusOf` | src/AcceptRejectLevel.tsx:467-476 | a slot shows a tick exactly when it is passed and scored, or is the current question answered right; a cross exactly when passed and unscored, or answered wrong; otherwise current or still to come |
| `AcceptReject.TicksBetweenQuestions` | src/AcceptRejectLevel.tsx:467-476 | between questions the first n slots tick exactly the scored questions below both n and the current one |
| `AcceptReject.TicksMatchScore` | src/AcceptRejectLevel.tsx:467-476 | between questions, with every scored question passed and none listed twice, the sidebar shows one tick per scored question |
| `AcceptReject.WalkVerdict` | src/AcceptRejectLevel.tsx:454 | the verdict is accept exactly when the walk of the question's sheep ends asleep |
| `AcceptReject.RightAnswerIsWalk` | src/AcceptRejectLevel.tsx:376 | under the answer key, an answer is right exactly when it says what the walk of the question's sheep shows |
| `AcceptReject.QuestionsAnswerKey` | src/acceptRejectLevelConfigs.ts:14-199 | the ten shipped questions' correct answers are exactly what their walks show |
| `AcceptReject.PatternSpotterOffered` | src/AcceptRejectLevel.tsx:420 | for the stage key 'accept-reject', awardStars asks for pattern-spotter exactly when it is still unearned |
| `AcceptReject.FinishBadgesFacts` | src/AcceptRejectLevel.tsx:413-428 | finishing the stage earns perfect-flock exactly for 3 stars, no-hints-needed exactly without a hint, pattern-spotter always, perfect-level-1 exactly without a wrong answer (each while still unearned), and reports only earned, formerly unearned badges |
| `AcceptReject.FinishStage` | src/AcceptRejectLevel.tsx:420-424 | the badges are awardStars's for the stage followed by perfect-level-1 after no wrong answer; the provider state is the two updates in turn, and stays valid |
| `AcceptReject.RecordRight` | src/AcceptRejectLevel.tsx:382-387 | the badges and the new provider state are recordCorrectAnswer's for the elapsed time; the state stays valid |
| `AcceptReject.RecordWrong` | src/AcceptRejectLevel.tsx:397-400 | persistence is earned and reported while it was unearned, otherwise nothing changes; the state stays valid |
| `AcceptReject.AcceptRejectGame.constructor` | src/AcceptRejectLevel.tsx:209-227 | the saved question, score and scored list, or a fresh start; no answer, no hint, no wrong attempt, no session badges, the trace-path demo closed |
| `AcceptReject.AcceptRejectGame.HandleHintClick` | src/AcceptRejectLevel.tsx:360-366 | the question and the stage are marked hinted and the demo `PickArDemo` gives for the question opens |
| `AcceptReject.AcceptRejectGame.HandleAnswer` | src/AcceptRejectLevel.tsx:372-402 | the answer is shown and its slot ticks exactly when it is right; a right answer records the correct answer and scores (once) only on a first try without a hint; a wrong one marks the question and counts a wrong answer; the score keeps counting the scored list |
| `AcceptReject.AcceptRejectGame.ScoreRight` | src/AcceptRejectLevel.tsx:388-393 | a point and the question appended exactly on a first try, without a hint, for a question not yet scored |
| `AcceptReject.AcceptRejectGame.HandleNext` | src/AcceptRejectLevel.tsx:404-411 | the next question, unanswered and unhinted; once on it the sidebar shows one tick per point scored |
| `AcceptReject.AcceptRejectGame.HandleLevelComplete` | src/AcceptRejectLevel.tsx:413-428 | the stage stars from the share of questions scored, the badges and state of `FinishStage` joined to the session, and the stage finished |
| `AcceptReject.AcceptRejectGame.HandleContinue` | src/AcceptRejectLevel.tsx:597 | continuing finishes the stage exactly on the last question, and otherwise moves to the next one, staying within the list |
| `AcceptReject.AcceptRejectGame.HandleRestart` | src/AcceptRejectLevel.tsx:430-445 | back to the first question with nothing scored, no hints, no wrong answers, no badges; the sidebar shows no tick |
| `Explanation.TokenNumber` | src/AcceptRejectLevel.tsx:32-33 | a token is `[sheep-` followed by its digits and `]` |
| `Explanation.DigitRun` | src/AcceptRejectLevel.tsx:30 | the greedy run of digits: every character in it is a digit and the one after it is not |
| `Explanation.DigitRunIs` | src/AcceptRejectLevel.tsx:30 | a digit run closed by a non-digit or the end is the one `DigitRun` measures |
| `Explanation.TokenAtMeans` | src/AcceptRejectLevel.tsx:30 | a token of length n is found at a place exactly when the n characters there form a whole token |
| `Explanation.SplitMeans` | src/AcceptRejectLevel.tsx:30 | the split's parts join back to the text, and alternate: text with no token in it, then a whole token |
| `Explanation.FirstToken` | src/AcceptRejectLevel.tsx:32 | the place found holds a token, and nothing is found exactly when no token starts from there on |
| `Explanation.RenderExplanationWithSheep` | src/AcceptRejectLevel.tsx:29-45 | one rendered piece per part of the split |
| `Explanation.RenderMeans` | src/AcceptRejectLevel.tsx:29-45 | exactly the token parts become pictures, each of the sheep its token names; every other part stays as text; reading the pieces back gives the explanation |

## Left out

- Rendering and layout: JSX, the custom edge and sheep-edge components, the connecting-line drawing, icons, pattern displays, badge collections, the feedback panel's contents, the sidebar picture index and `fitView`. They decide nothing the model states.
- Geometry: `pointToSegmentDistance`, the nearest-fence and nearest-arrow searches, and their distance thresholds (100 and 120) all work on floating-point screen positions. The drop and connect handlers take the fence or arrow chosen (`chosen`, `nearestNode`) as a parameter instead.
- Animation timing: the delays and cancellation of `runAllPatterns`, the animation phases and the `startAnimation`/`resetAnimation` calls are not modelled. Only the results of the pattern loop are. The tutorial demos' scenes and durations are also left out.
- Persistence: every `localStorage` load, save and clear (progress, demo-seen flags, the badge merge on load, dismissed notches) is left out. The screens' constructors take the saved progress as a parameter instead, and the save effects and `clearProgress` calls have no counterpart.
- Auto-shown demos: the effects that open a demo the first time a level brings in new concepts (`hasSeenDemo`, `markDemoSeen`) depend on that storage. The idle nudge (`showNudge`) is a timer.
- Toast timeout: the effect that clears a shown message after 3 seconds (src/BuildLevel.tsx:168-172, src/DragLevel.tsx:138-142) is a timer. In the model a message stays until a handler replaces it.
- Clock: the answer time that `recordCorrectAnswer` reads (from `Date.now()`) is a `timeSeconds` parameter. The dates `earnedAt` and `completedAt` are left out.
- Badge data: badge names, descriptions and icons are presentation. A badge is its id and its earned flag.
- Development shortcuts: the dev-mode auto-complete and auto-answer handlers are not part of the game.
- The menu's unlock gate in `App.tsx`, the accessibility settings, touch-drag plumbing and the sheep palette filter are not part of this model.
- The drag levels' data in `dragLevelConfigs.ts` is not part of this model. The drag screen takes its level list as a parameter, and the model fixes `DRAG_LEVEL_COUNT` at 10. Its node and edge helpers are the same as those of `buildLevelConfigs.ts`, which the model does include.
- Explanations and authored texts: question explanations, titles, instructions and hints are not kept in the level and question records. The explanation renderer works on any text.
- Letter case: `toUpperCase` is modelled for ASCII letters only.
- Stage stars: the source compares `score / COUNT` as a floating-point share with 0.9 and 0.7. The model compares exact fractions, which gives the same answers for the counts of 10 used by all three stages.
- `AcceptReject.AcceptRejectGame.constructor`: takes the question list as a parameter and requires it to be consistent with the animator (`AnswerKey`). The shipped list meets this (`QuestionsAnswerKey`).
- `AcceptReject.AcceptRejectGame.HandleContinue`: states only which of the two handlers runs and that the tally is kept. What each handler does is stated on `HandleLevelComplete` and `HandleNext`.
- `DragLevel.DragLevelGame.constructor`: the score counts the completed list only for a fresh start, because saved progress is trusted as loaded.
- `BuildLevel.BuildLevelGame.constructor`: the score counts the completed list only for a fresh start, because saved progress is trusted as loaded.
- `AcceptReject.AcceptRejectGame.constructor`: the score counts the completed list only for a fresh start, because saved progress is trusted as loaded.
- `FenceNames.FixedName`: an id that names an inherited `Object.prototype` member (`constructor`, `toString`, `__proto__` and the like) is outside the model. The source's object-literal lookup finds that member instead of falling through. No shipped fence id and no counter-made id (`state<n>`) is one.
- `FenceNames.ConfigFriendlyName`: an id that names an inherited `Object.prototype` member (`constructor`, `toString`, `__proto__` and the like) is outside the model. The source's object-literal lookup finds that member instead of falling through. No shipped fence id and no counter-made id (`state<n>`) is one.
- `StateNode.FriendlyName`: an id that names an inherited `Object.prototype` member (`constructor`, `toString`, `__proto__` and the like) is outside the model. The source's object-literal lookup finds that member instead of falling through. No shipped fence id and no counter-made id (`state<n>`) is one.
- `Explanation.RenderExplanationWithSheep`: its own contract gives only the number of pieces. What the pieces are is proved in `RenderMeans`.
