/**
 * The player's saved progress (GameProgressContext.tsx): total stars, the
 * count of correct answers, the badge list and the best result per level.
 * The state updaters are pure record rebuilds; the provider holds the state
 * and hands out the badges a call newly earns.
 */
module GameProgress {
  import opened Wrappers
  import opened Seqs

  /** A badge: its id and whether it is earned (name, description, icon and date are presentation). */
  datatype Badge = Badge(id: BadgeId, earned: bool)

  /** The record kept per level id (completion date left out). */
  datatype LevelProgress = LevelProgress(levelId: string, bestStars: int, hintsUsed: bool, attempts: int)

  /**
   * The provider's state. `levelProgress` is the record keyed by level id,
   * as its entries in insertion order.
   */
  datatype ProgressState = ProgressState(
    totalStars: int,
    totalCorrect: int,
    badges: seq<Badge>,
    levelProgress: seq<LevelProgress>)

  /** The badge ids of BADGE_DEFINITIONS ('first-steps', 'sheep-counter', ...). */
  datatype BadgeId =
    | FirstSteps | SheepCounter | PatternSpotter | PathFinder | AutomatonArchitect
    | PerfectFlock | NoHintsNeeded | SleepyFarmer | SpeedShepherd | Persistence | PerfectLevel1

  /** BADGE_DEFINITIONS, in display order. */
  const BadgeIds: seq<BadgeId> := [
    FirstSteps, SheepCounter, PatternSpotter, PathFinder, AutomatonArchitect,
    PerfectFlock, NoHintsNeeded, SleepyFarmer, SpeedShepherd, Persistence, PerfectLevel1
  ]

  // ----- Lookups -----

  /** `badges.find(b => b.id === id)` */
  function FindBadge(badges: seq<Badge>, id: BadgeId): (r: Option<Badge>)
    ensures r.Some? ==> r.value in badges && r.value.id == id
  {
    if badges == [] then None
    else if badges[0].id == id then Some(badges[0])
    else FindBadge(badges[1..], id)
  }

  /** The lookup finds the first badge with the id, and nothing only when no badge has it. */
  lemma {:induction false} FindBadgeFirst(badges: seq<Badge>, id: BadgeId)
    ensures var r := FindBadge(badges, id);
            (r.Some? ==> exists k :: 0 <= k < |badges| && badges[k] == r.value
                                     && forall j :: 0 <= j < k ==> badges[j].id != id)
            && (r.None? <==> forall k :: 0 <= k < |badges| ==> badges[k].id != id)
  {
    if badges != [] && badges[0].id != id {
      FindBadgeFirst(badges[1..], id);
      var r := FindBadge(badges, id);
      if r.Some? {
        var k :| 0 <= k < |badges[1..]| && badges[1..][k] == r.value
                 && forall j :: 0 <= j < k ==> badges[1..][j].id != id;
        assert badges[k + 1] == r.value;
      }
    } else if badges != [] {
      assert badges[0] == FindBadge(badges, id).value;
    }
  }

  /** `badge && !badge.earned`: the badge exists and is not yet earned. */
  predicate CanAward(badges: seq<Badge>, id: BadgeId) {
    FindBadge(badges, id).Some? && !FindBadge(badges, id).value.earned
  }

  /** `levelProgress[levelId]` */
  function GetLevel(progress: seq<LevelProgress>, levelId: string): (r: Option<LevelProgress>)
    ensures r.Some? ==> r.value in progress && r.value.levelId == levelId
    ensures r.None? <==> forall k :: 0 <= k < |progress| ==> progress[k].levelId != levelId
  {
    if progress == [] then None
    else if progress[0].levelId == levelId then Some(progress[0])
    else GetLevel(progress[1..], levelId)
  }

  /** `{ ...progress, [entry.levelId]: entry }`: replace the entry in place, or append it. */
  function Upsert(progress: seq<LevelProgress>, entry: LevelProgress): (r: seq<LevelProgress>)
    ensures GetLevel(r, entry.levelId) == Some(entry)
    ensures forall id :: id != entry.levelId ==> GetLevel(r, id) == GetLevel(progress, id)
  {
    if progress == [] then [entry]
    else if progress[0].levelId == entry.levelId then [entry] + progress[1..]
    else [progress[0]] + Upsert(progress[1..], entry)
  }

  /** `part` occurs in `s` at index i. */
  predicate OccursAt(s: string, part: string, i: nat) {
    i + |part| <= |s| && s[i..i + |part|] == part
  }

  /** `levelId.includes(part)`; what it means is `ContainsMeans`. */
  function Contains(s: string, part: string): bool
    decreases |s|
  {
    if |part| > |s| then false
    else if s[..|part|] == part then true
    else Contains(s[1..], part)
  }

  /** Contains holds exactly when `part` occurs somewhere in `s`. */
  lemma ContainsMeans(s: string, part: string)
    ensures Contains(s, part) <==> exists i: nat :: OccursAt(s, part, i)
  {
    if Contains(s, part) {
      var i := ContainsFound(s, part);
    }
    if exists i: nat :: OccursAt(s, part, i) {
      var i: nat :| OccursAt(s, part, i);
      ContainsAt(s, part, i);
    }
  }

  /** Where Contains holds, an occurrence. */
  lemma {:induction false} ContainsFound(s: string, part: string) returns (i: nat)
    requires Contains(s, part)
    ensures OccursAt(s, part, i)
    decreases |s|
  {
    if s[..|part|] == part {
      i := 0;
    } else {
      var k := ContainsFound(s[1..], part);
      assert s[1..][k..k + |part|] == s[k + 1..k + 1 + |part|];
      i := k + 1;
    }
  }

  /** An occurrence at `i` makes Contains hold. */
  lemma {:induction false} ContainsAt(s: string, part: string, i: nat)
    requires OccursAt(s, part, i)
    ensures Contains(s, part)
    decreases i
  {
    if s[..|part|] != part {
      assert i > 0;
      assert s[1..][i - 1..i - 1 + |part|] == s[i..i + |part|];
      ContainsAt(s[1..], part, i - 1);
    }
  }

  // ----- The state and its invariant -----

  function SumBest(progress: seq<LevelProgress>): int {
    if progress == [] then 0 else progress[0].bestStars + SumBest(progress[1..])
  }

  predicate UniqueLevels(progress: seq<LevelProgress>) {
    forall i, j :: 0 <= i < j < |progress| ==> progress[i].levelId != progress[j].levelId
  }

  /** The badge list holds exactly the defined badges, in definition order. */
  predicate DefinedBadges(badges: seq<Badge>) {
    |badges| == |BadgeIds|
    && forall k :: 0 <= k < |badges| ==> badges[k].id == BadgeIds[k]
  }

  /** totalStars is the sum of the best stars, one entry per level, and the badges are the defined ones. */
  predicate ValidState(s: ProgressState) {
    s.totalStars == SumBest(s.levelProgress) && UniqueLevels(s.levelProgress) && DefinedBadges(s.badges)
    && s.totalCorrect >= 0
  }

  /** initialState: every defined badge unearned, nothing else recorded. */
  function InitialState(): ProgressState {
    ProgressState(0, 0, seq(|BadgeIds|, k requires 0 <= k < |BadgeIds| => Badge(BadgeIds[k], false)), [])
  }

  /** The initial state has no stars, no correct answers, no level entries and no earned badge, and is valid. */
  lemma InitialStateValid()
    ensures var s := InitialState();
            ValidState(s) && s.totalStars == 0 && s.totalCorrect == 0 && s.levelProgress == []
            && forall k :: 0 <= k < |s.badges| ==> !s.badges[k].earned
  {
  }

  // ----- Badge updates -----

  /** `badges.map(b => ids.includes(b.id) ? { ...b, earned: true } : b)` */
  function MarkEarned(badges: seq<Badge>, ids: seq<BadgeId>): (r: seq<Badge>)
    ensures |r| == |badges|
    ensures forall k :: 0 <= k < |r| ==>
              r[k].id == badges[k].id && (r[k].earned <==> badges[k].earned || badges[k].id in ids)
  {
    if badges == [] then []
    else [if badges[0].id in ids then badges[0].(earned := true) else badges[0]] + MarkEarned(badges[1..], ids)
  }

  /** `badges.map(b => b.id === id ? replacement : b)` */
  function ReplaceBadge(badges: seq<Badge>, id: BadgeId, replacement: Badge): (r: seq<Badge>)
    ensures |r| == |badges|
    ensures forall k :: 0 <= k < |r| ==> r[k] == if badges[k].id == id then replacement else badges[k]
  {
    if badges == [] then []
    else [if badges[0].id == id then replacement else badges[0]] + ReplaceBadge(badges[1..], id, replacement)
  }

  /** `ids.map(id => ({ ...badges.find(b => b.id === id)!, earned: true }))` */
  function Awarded(badges: seq<Badge>, ids: seq<BadgeId>): (r: seq<Badge>)
    requires forall id :: id in ids ==> CanAward(badges, id)
    ensures |r| == |ids|
    ensures forall k :: 0 <= k < |r| ==> r[k] == Badge(ids[k], true) && CanAward(badges, r[k].id)
  {
    if ids == [] then []
    else
      assert ids[0] in ids && CanAward(badges, ids[0]);
      [FindBadge(badges, ids[0]).value.(earned := true)] + Awarded(badges, ids[1..])
  }

  /** Earned flags only go from false to true; ids stay. */
  predicate EarnedGrows(before: seq<Badge>, after: seq<Badge>) {
    |after| == |before|
    && forall k :: 0 <= k < |before| ==>
         after[k].id == before[k].id && (before[k].earned ==> after[k].earned)
  }

  // ----- awardStars -----

  /** `if (cond) ids.push(id)` */
  function PushIf(ids: seq<BadgeId>, cond: bool, id: BadgeId): seq<BadgeId> {
    if cond then ids + [id] else ids
  }

  /** The five pushes of awardStars, with each push's condition already decided. */
  function StarPicks(perfect: bool, noHints: bool, acceptReject: bool, drag: bool, build: bool): (r: seq<BadgeId>)
    ensures PerfectFlock in r <==> perfect
    ensures NoHintsNeeded in r <==> noHints
    ensures PatternSpotter in r <==> acceptReject
    ensures PathFinder in r <==> drag
    ensures AutomatonArchitect in r <==> build
    ensures forall id :: id in r ==> id in [PerfectFlock, NoHintsNeeded, PatternSpotter, PathFinder, AutomatonArchitect]
  {
    PushIf(PushIf(PushIf(PushIf(PushIf([], perfect, PerfectFlock), noHints, NoHintsNeeded),
                                acceptReject, PatternSpotter), drag, PathFinder), build, AutomatonArchitect)
  }

  /**
   * The badges awardStars earns, judged on the badges `seen`: perfect-flock
   * for 3 stars, no-hints-needed without hints, pattern-spotter, path-finder
   * and automaton-architect for a level id containing accept-reject, drag and
   * build; each only while unearned in `seen`, and no other badge.
   */
  function StarBadgeIds(seen: seq<Badge>, levelId: string, stars: int, hintsUsed: bool): (r: seq<BadgeId>)
    ensures PerfectFlock in r <==> stars == 3 && CanAward(seen, PerfectFlock)
    ensures NoHintsNeeded in r <==> !hintsUsed && CanAward(seen, NoHintsNeeded)
    ensures PatternSpotter in r <==> Contains(levelId, "accept-reject") && CanAward(seen, PatternSpotter)
    ensures PathFinder in r <==> Contains(levelId, "drag") && CanAward(seen, PathFinder)
    ensures AutomatonArchitect in r <==> Contains(levelId, "build") && CanAward(seen, AutomatonArchitect)
    ensures forall id :: id in r ==> id in [PerfectFlock, NoHintsNeeded, PatternSpotter, PathFinder, AutomatonArchitect]
    ensures forall id :: id in r ==> CanAward(seen, id)
  {
    StarPicks(stars == 3 && CanAward(seen, PerfectFlock),
              !hintsUsed && CanAward(seen, NoHintsNeeded),
              Contains(levelId, "accept-reject") && CanAward(seen, PatternSpotter),
              Contains(levelId, "drag") && CanAward(seen, PathFinder),
              Contains(levelId, "build") && CanAward(seen, AutomatonArchitect))
  }

  /** The level's new entry in awardStars, from its existing entry if any. */
  function UpdatedEntry(existing: Option<LevelProgress>, levelId: string, stars: int, hintsUsed: bool): LevelProgress {
    var oldBest := if existing.Some? then existing.value.bestStars else 0;
    var isNewBest := existing.None? || stars > oldBest;
    LevelProgress(
      levelId,
      if isNewBest then stars else oldBest,
      if existing.Some? && !existing.value.hintsUsed then false else hintsUsed,
      (if existing.Some? then existing.value.attempts else 0) + 1)
  }

  /** What awardStars adds to totalStars. */
  function StarGain(existing: Option<LevelProgress>, stars: int): int {
    var oldBest := if existing.Some? then existing.value.bestStars else 0;
    var isNewBest := existing.None? || stars > oldBest;
    if isNewBest then stars - oldBest else 0
  }

  /** The `setState(prev => ...)` of awardStars, for the badge ids already chosen. */
  function AwardStarsUpdate(prev: ProgressState, levelId: string, stars: int, hintsUsed: bool, ids: seq<BadgeId>): ProgressState {
    var existing := GetLevel(prev.levelProgress, levelId);
    prev.(totalStars := prev.totalStars + StarGain(existing, stars),
          levelProgress := Upsert(prev.levelProgress, UpdatedEntry(existing, levelId, stars, hintsUsed)),
          badges := MarkEarned(prev.badges, ids))
  }

  /**
   * The level's entry after awardStars: best is the new stars on a first
   * award and the larger of old best and stars afterwards, attempts grow by
   * exactly one, a false hintsUsed stays false; other levels are untouched.
   */
  lemma AwardStarsLevel(prev: ProgressState, levelId: string, stars: int, hintsUsed: bool, ids: seq<BadgeId>)
    ensures var existing := GetLevel(prev.levelProgress, levelId);
            var next := AwardStarsUpdate(prev, levelId, stars, hintsUsed, ids);
            var e := GetLevel(next.levelProgress, levelId);
            e.Some?
            && e.value.bestStars == (if existing.None? then stars
                                     else if stars > existing.value.bestStars then stars
                                     else existing.value.bestStars)
            && e.value.attempts == (if existing.None? then 1 else existing.value.attempts + 1)
            && (existing.Some? && !existing.value.hintsUsed ==> !e.value.hintsUsed)
            && (existing.None? || existing.value.hintsUsed ==> e.value.hintsUsed == hintsUsed)
            && forall other :: other != levelId ==> GetLevel(next.levelProgress, other) == GetLevel(prev.levelProgress, other)
  {
  }

  /** Upserting into a unique-key record keeps keys unique and changes the sum by the replaced best. */
  lemma {:induction false} SumBestUpsert(progress: seq<LevelProgress>, entry: LevelProgress)
    requires UniqueLevels(progress)
    ensures UniqueLevels(Upsert(progress, entry))
    ensures var prior := GetLevel(progress, entry.levelId);
            SumBest(Upsert(progress, entry))
            == SumBest(progress) - (if prior.Some? then prior.value.bestStars else 0) + entry.bestStars
  {
    if progress != [] && progress[0].levelId != entry.levelId {
      SumBestUpsert(progress[1..], entry);
      var tail := Upsert(progress[1..], entry);
      var r := Upsert(progress, entry);
      assert r == [progress[0]] + tail;
      forall j | 0 <= j < |tail| ensures tail[j].levelId != progress[0].levelId {
        var id := tail[j].levelId;
        if id != entry.levelId {
          assert GetLevel(tail, id).Some?;
          assert GetLevel(progress[1..], id).Some?;
        }
      }
    } else if progress != [] {
      var r := Upsert(progress, entry);
      assert r[1..] == progress[1..];
    }
  }

  lemma MarkEarnedKeeps(badges: seq<Badge>, ids: seq<BadgeId>)
    requires DefinedBadges(badges)
    ensures DefinedBadges(MarkEarned(badges, ids)) && EarnedGrows(badges, MarkEarned(badges, ids))
  {
  }

  /**
   * awardStars keeps totalStars equal to the sum of best stars (it adds the
   * gain of a new best, nothing otherwise), keeps one entry per level, and
   * only turns badges on.
   */
  lemma AwardStarsValid(prev: ProgressState, levelId: string, stars: int, hintsUsed: bool, ids: seq<BadgeId>)
    requires ValidState(prev)
    ensures var next := AwardStarsUpdate(prev, levelId, stars, hintsUsed, ids);
            ValidState(next) && EarnedGrows(prev.badges, next.badges) && next.totalCorrect == prev.totalCorrect
            && next.totalStars - prev.totalStars
               == (var e := GetLevel(prev.levelProgress, levelId);
                   if e.None? then stars else if stars > e.value.bestStars then stars - e.value.bestStars else 0)
  {
    var existing := GetLevel(prev.levelProgress, levelId);
    SumBestUpsert(prev.levelProgress, UpdatedEntry(existing, levelId, stars, hintsUsed));
    MarkEarnedKeeps(prev.badges, ids);
  }

  // ----- recordCorrectAnswer, recordIncorrectAnswer -----

  /** The four pushes of recordCorrectAnswer, with each push's condition already decided. */
  function CorrectPicks(first: bool, counter: bool, sleepy: bool, speed: bool): (r: seq<BadgeId>)
    ensures FirstSteps in r <==> first
    ensures SheepCounter in r <==> counter
    ensures SleepyFarmer in r <==> sleepy
    ensures SpeedShepherd in r <==> speed
    ensures forall id :: id in r ==> id in [FirstSteps, SheepCounter, SleepyFarmer, SpeedShepherd]
  {
    PushIf(PushIf(PushIf(PushIf([], first, FirstSteps), counter, SheepCounter), sleepy, SleepyFarmer),
           speed, SpeedShepherd)
  }

  /**
   * The badges recordCorrectAnswer earns, judged on `seen`: first-steps on
   * the first correct answer, sheep-counter from the 5th, sleepy-farmer from
   * the 10th, speed-shepherd for an answer in (0, 10) seconds; each only
   * while unearned in `seen`, and no other badge.
   */
  function CorrectBadgeIds(seen: ProgressState, timeSeconds: real): (r: seq<BadgeId>)
    ensures FirstSteps in r <==> seen.totalCorrect == 0 && CanAward(seen.badges, FirstSteps)
    ensures SheepCounter in r <==> seen.totalCorrect + 1 >= 5 && CanAward(seen.badges, SheepCounter)
    ensures SleepyFarmer in r <==> seen.totalCorrect + 1 >= 10 && CanAward(seen.badges, SleepyFarmer)
    ensures SpeedShepherd in r <==> 0.0 < timeSeconds < 10.0 && CanAward(seen.badges, SpeedShepherd)
    ensures forall id :: id in r ==> id in [FirstSteps, SheepCounter, SleepyFarmer, SpeedShepherd]
    ensures forall id :: id in r ==> CanAward(seen.badges, id)
  {
    CorrectPicks(seen.totalCorrect == 0 && CanAward(seen.badges, FirstSteps),
                 seen.totalCorrect + 1 >= 5 && CanAward(seen.badges, SheepCounter),
                 seen.totalCorrect + 1 >= 10 && CanAward(seen.badges, SleepyFarmer),
                 0.0 < timeSeconds < 10.0 && CanAward(seen.badges, SpeedShepherd))
  }

  /** The `setState(prev => ...)` of recordCorrectAnswer. */
  function CorrectUpdate(prev: ProgressState, ids: seq<BadgeId>): ProgressState {
    prev.(totalCorrect := prev.totalCorrect + 1, badges := MarkEarned(prev.badges, ids))
  }

  /** recordCorrectAnswer adds exactly one correct answer, keeps the stars and only turns badges on. */
  lemma CorrectValid(prev: ProgressState, ids: seq<BadgeId>)
    requires ValidState(prev)
    ensures var next := CorrectUpdate(prev, ids);
            ValidState(next) && next.totalCorrect == prev.totalCorrect + 1
            && next.totalStars == prev.totalStars && next.levelProgress == prev.levelProgress
            && EarnedGrows(prev.badges, next.badges)
  {
    MarkEarnedKeeps(prev.badges, ids);
  }

  /** Replacing the badge of an id by another of the same id is what the lookup then finds. */
  lemma {:induction false} FindReplaced(badges: seq<Badge>, id: BadgeId, replacement: Badge)
    requires replacement.id == id
    ensures FindBadge(ReplaceBadge(badges, id, replacement), id)
            == if FindBadge(badges, id).Some? then Some(replacement) else None
  {
    if badges != [] {
      var r := ReplaceBadge(badges, id, replacement);
      assert r[1..] == ReplaceBadge(badges[1..], id, replacement);
      if badges[0].id != id {
        FindReplaced(badges[1..], id, replacement);
      }
    }
  }

  /**
   * Replacing a badge by its earned copy (checkAndAwardBadge,
   * recordIncorrectAnswer) keeps the state valid, only turns badges on, and
   * leaves that badge earned, so it is never handed out again.
   */
  lemma ReplaceEarnedValid(prev: ProgressState, id: BadgeId)
    requires ValidState(prev)
    ensures var next := prev.(badges := ReplaceBadge(prev.badges, id, Badge(id, true)));
            ValidState(next) && EarnedGrows(prev.badges, next.badges)
            && (FindBadge(prev.badges, id).Some? ==> FindBadge(next.badges, id) == Some(Badge(id, true)))
            && !CanAward(next.badges, id)
  {
    FindReplaced(prev.badges, id, Badge(id, true));
  }

  // ----- Earned badges and the badge dedup of the level screens -----

  /** getEarnedBadges: `badges.filter(b => b.earned)` */
  function EarnedBadges(badges: seq<Badge>): (r: seq<Badge>)
    ensures forall b :: b in r <==> b in badges && b.earned
  {
    if badges == [] then []
    else (if badges[0].earned then [badges[0]] else []) + EarnedBadges(badges[1..])
  }

  /** `self.findIndex(b => b.id === xs[i].id) === i`: no earlier badge has the same id. */
  predicate FirstOfId(xs: seq<Badge>, i: nat)
    requires i < |xs|
  {
    forall j :: 0 <= j < i ==> xs[j].id != xs[i].id
  }

  /** `xs.filter((badge, index, self) => index === self.findIndex(b => b.id === badge.id))`, on the first n. */
  function UniqueBadgesUpTo(xs: seq<Badge>, n: nat): seq<Badge>
    requires n <= |xs|
  {
    if n == 0 then []
    else UniqueBadgesUpTo(xs, n - 1) + (if FirstOfId(xs, n - 1) then [xs[n - 1]] else [])
  }

  function UniqueBadges(xs: seq<Badge>): seq<Badge> {
    UniqueBadgesUpTo(xs, |xs|)
  }

  predicate UniqueIds(bs: seq<Badge>) {
    forall i, j :: 0 <= i < j < |bs| ==> bs[i].id != bs[j].id
  }

  /** The ids present in a badge list. */
  function IdSet(bs: seq<Badge>): set<BadgeId> {
    set b | b in bs :: b.id
  }

  /** The dedup of the first n badges takes one more step. */
  lemma UniqueBadgesUpToStep(xs: seq<Badge>, n: nat)
    requires 0 < n <= |xs|
    ensures UniqueBadgesUpTo(xs, n)
            == UniqueBadgesUpTo(xs, n - 1) + (if FirstOfId(xs, n - 1) then [xs[n - 1]] else [])
  {
  }

  lemma {:induction false} UniqueBadgesUpToMembers(xs: seq<Badge>, n: nat)
    requires n <= |xs|
    ensures forall b :: b in UniqueBadgesUpTo(xs, n) ==> b in xs[..n]
  {
    if n > 0 {
      UniqueBadgesUpToMembers(xs, n - 1);
      UniqueBadgesUpToStep(xs, n);
      assert xs[..n] == xs[..n - 1] + [xs[n - 1]];
    }
  }

  lemma {:induction false} UniqueBadgesUpToIds(xs: seq<Badge>, n: nat)
    requires n <= |xs|
    ensures forall i :: 0 <= i < n ==> xs[i].id in IdSet(UniqueBadgesUpTo(xs, n))
  {
    if n > 0 {
      UniqueBadgesUpToIds(xs, n - 1);
      UniqueBadgesUpToStep(xs, n);
      var prefix := UniqueBadgesUpTo(xs, n - 1);
      var r := UniqueBadgesUpTo(xs, n);
      forall i | 0 <= i < n ensures xs[i].id in IdSet(r) {
        if i < n - 1 {
          var c :| c in prefix && c.id == xs[i].id;
          assert c in r;
        } else if FirstOfId(xs, n - 1) {
          assert xs[n - 1] in r;
        } else {
          var j :| 0 <= j < n - 1 && xs[j].id == xs[n - 1].id;
          var c :| c in prefix && c.id == xs[j].id;
          assert c in r;
        }
      }
    }
  }

  lemma {:induction false} UniqueBadgesUpToUnique(xs: seq<Badge>, n: nat)
    requires n <= |xs|
    ensures UniqueIds(UniqueBadgesUpTo(xs, n))
  {
    if n > 0 {
      UniqueBadgesUpToUnique(xs, n - 1);
      UniqueBadgesUpToMembers(xs, n - 1);
      UniqueBadgesUpToStep(xs, n);
      var prefix := UniqueBadgesUpTo(xs, n - 1);
      if FirstOfId(xs, n - 1) {
        forall i | 0 <= i < |prefix| ensures prefix[i].id != xs[n - 1].id {
          assert prefix[i] in xs[..n - 1];
          var j :| 0 <= j < n - 1 && xs[..n - 1][j] == prefix[i];
        }
      }
    }
  }

  lemma {:induction false} UniqueBadgesUpToOrder(xs: seq<Badge>, n: nat)
    requires n <= |xs|
    ensures Subsequence(UniqueBadgesUpTo(xs, n), xs[..n])
  {
    if n > 0 {
      UniqueBadgesUpToOrder(xs, n - 1);
      UniqueBadgesUpToStep(xs, n);
      var prefix := UniqueBadgesUpTo(xs, n - 1);
      var keep := FirstOfId(xs, n - 1);
      SubsequenceSnoc(prefix, xs[..n - 1], xs[n - 1], keep);
      assert xs[..n] == xs[..n - 1] + [xs[n - 1]];
      if !keep {
        assert UniqueBadgesUpTo(xs, n) == prefix + [] == prefix;
      }
    }
  }

  /**
   * The badge dedup keeps the first badge of each id: the result has unique
   * ids, keeps the input's order and loses no id.
   */
  lemma UniqueBadgesFacts(xs: seq<Badge>)
    ensures var r := UniqueBadges(xs);
            UniqueIds(r) && Subsequence(r, xs)
            && forall b :: b in xs ==> b.id in IdSet(r)
  {
    UniqueBadgesUpToIds(xs, |xs|);
    UniqueBadgesUpToUnique(xs, |xs|);
    UniqueBadgesUpToOrder(xs, |xs|);
    assert xs[..|xs|] == xs;
  }

  // ----- The provider -----

  /**
   * GameProgressProvider. Each call that decides which badges it earns does
   * so on `seen`, the state of the render it was called from, while its
   * update applies to the latest state; when one handler makes several calls
   * they all judge on the same `seen`.
   */
  class GameProgressProvider {
    var state: ProgressState

    constructor()
      ensures state == InitialState()
    {
      state := InitialState();
    }

    /** checkAndAwardBadge */
    method CheckAndAwardBadge(seen: ProgressState, badgeId: BadgeId) returns (r: Option<Badge>)
      modifies this
      ensures r.Some? <==> CanAward(seen.badges, badgeId)
      ensures r.Some? ==> r.value == Badge(badgeId, true)
      ensures state == if r.Some? then old(state).(badges := ReplaceBadge(old(state).badges, badgeId, r.value))
                       else old(state)
    {
      var badge := FindBadge(seen.badges, badgeId);
      if badge.Some? && !badge.value.earned {
        var updatedBadge := badge.value.(earned := true);
        assert updatedBadge == Badge(badgeId, true);
        state := state.(badges := ReplaceBadge(state.badges, badgeId, updatedBadge));
        return Some(updatedBadge);
      }
      return None;
    }

    /** One rule of the award lists: `if (cond) { const badge = find(id); if (badge && !badge.earned) push(id) }`. */
    static method PushUnearned(seen: seq<Badge>, ids: seq<BadgeId>, cond: bool, id: BadgeId) returns (r: seq<BadgeId>)
      ensures r == PushIf(ids, cond && CanAward(seen, id), id)
    {
      r := ids;
      if cond {
        var badge := FindBadge(seen, id);
        if badge.Some? && !badge.value.earned {
          r := r + [id];
        }
      }
    }

    /** awardStars: the badge list is built by conditional pushes, then the state is rebuilt. */
    method AwardStars(seen: ProgressState, levelId: string, stars: int, hintsUsed: bool) returns (newBadges: seq<Badge>)
      modifies this
      ensures newBadges == Awarded(seen.badges, StarBadgeIds(seen.badges, levelId, stars, hintsUsed))
      ensures state == AwardStarsUpdate(old(state), levelId, stars, hintsUsed, StarBadgeIds(seen.badges, levelId, stars, hintsUsed))
    {
      var badgesToAward: seq<BadgeId> := [];
      badgesToAward := PushUnearned(seen.badges, badgesToAward, stars == 3, PerfectFlock);
      badgesToAward := PushUnearned(seen.badges, badgesToAward, !hintsUsed, NoHintsNeeded);
      badgesToAward := PushUnearned(seen.badges, badgesToAward, Contains(levelId, "accept-reject"), PatternSpotter);
      badgesToAward := PushUnearned(seen.badges, badgesToAward, Contains(levelId, "drag"), PathFinder);
      badgesToAward := PushUnearned(seen.badges, badgesToAward, Contains(levelId, "build"), AutomatonArchitect);
      assert badgesToAward == StarBadgeIds(seen.badges, levelId, stars, hintsUsed);
      newBadges := Awarded(seen.badges, badgesToAward);
      state := AwardStarsUpdate(state, levelId, stars, hintsUsed, badgesToAward);
    }

    /** recordCorrectAnswer, with the answer time in seconds. */
    method RecordCorrectAnswer(seen: ProgressState, levelId: string, timeSeconds: real) returns (newBadges: seq<Badge>)
      modifies this
      ensures newBadges == Awarded(seen.badges, CorrectBadgeIds(seen, timeSeconds))
      ensures state == CorrectUpdate(old(state), CorrectBadgeIds(seen, timeSeconds))
    {
      var badgesToAward: seq<BadgeId> := [];
      badgesToAward := PushUnearned(seen.badges, badgesToAward, seen.totalCorrect == 0, FirstSteps);
      badgesToAward := PushUnearned(seen.badges, badgesToAward, seen.totalCorrect + 1 >= 5, SheepCounter);
      badgesToAward := PushUnearned(seen.badges, badgesToAward, seen.totalCorrect + 1 >= 10, SleepyFarmer);
      badgesToAward := PushUnearned(seen.badges, badgesToAward, 0.0 < timeSeconds && timeSeconds < 10.0, SpeedShepherd);
      assert badgesToAward == CorrectBadgeIds(seen, timeSeconds);
      newBadges := Awarded(seen.badges, badgesToAward);
      state := CorrectUpdate(state, badgesToAward);
    }

    /** recordIncorrectAnswer: persistence, once. */
    method RecordIncorrectAnswer(seen: ProgressState, levelId: string) returns (newBadges: seq<Badge>)
      modifies this
      ensures CanAward(seen.badges, Persistence) ==>
                newBadges == [Badge(Persistence, true)]
                && state == old(state).(badges := ReplaceBadge(old(state).badges, Persistence, newBadges[0]))
      ensures !CanAward(seen.badges, Persistence) ==> newBadges == [] && state == old(state)
    {
      var persistenceBadge := FindBadge(seen.badges, Persistence);
      if persistenceBadge.Some? && !persistenceBadge.value.earned {
        var awardedBadge := persistenceBadge.value.(earned := true);
        assert awardedBadge == Badge(Persistence, true);
        state := state.(badges := ReplaceBadge(state.badges, Persistence, awardedBadge));
        return [awardedBadge];
      }
      return [];
    }

    /** resetProgress (the storage removal is left out). */
    method ResetProgress()
      modifies this
      ensures state == InitialState()
    {
      state := InitialState();
    }

    /** getBadge */
    function GetBadge(badgeId: BadgeId): (r: Option<Badge>)
      reads this
      ensures r.Some? ==> r.value in state.badges && r.value.id == badgeId
      ensures r.None? <==> forall k :: 0 <= k < |state.badges| ==> state.badges[k].id != badgeId
    {
      FindBadgeFirst(state.badges, badgeId);
      FindBadge(state.badges, badgeId)
    }

    /** getLevelProgress */
    function GetLevelProgress(levelId: string): (r: Option<LevelProgress>)
      reads this
      ensures r.Some? ==> r.value in state.levelProgress && r.value.levelId == levelId
      ensures r.None? <==> forall k :: 0 <= k < |state.levelProgress| ==> state.levelProgress[k].levelId != levelId
    {
      GetLevel(state.levelProgress, levelId)
    }

    /** getEarnedBadges */
    function GetEarnedBadges(): (r: seq<Badge>)
      reads this
      ensures forall b :: b in r <==> b in state.badges && b.earned
    {
      EarnedBadges(state.badges)
    }
  }
}
