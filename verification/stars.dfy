/**
 * The star rules the three level screens share: stage stars from the share
 * of levels completed, and unlock stars from how a level was solved.
 */
module Stars {
  /**
   * `score / count` compared with 0.9 and 0.7: 3 stars from nine tenths of
   * the levels, 2 from seven tenths, else 1. The quotient is exact here; with
   * the game's count of 10, k / 10 in double precision is the double nearest
   * to k tenths, so the comparisons agree with the exact ones.
   */
  function StageStars(score: int, count: int): (r: int)
    requires count > 0
    ensures r == 3 <==> 10 * score >= 9 * count
    ensures r == 2 <==> 7 * count <= 10 * score < 9 * count
    ensures r == 1 <==> 10 * score < 7 * count
  {
    var percentage := score as real / count as real;
    QuotientAtLeast(score as real, count as real, 0.9);
    QuotientAtLeast(score as real, count as real, 0.7);
    if percentage >= 0.9 then 3 else if percentage >= 0.7 then 2 else 1
  }

  /** Comparing a quotient by a positive number is comparing the dividend with the scaled bound. */
  lemma QuotientAtLeast(s: real, c: real, t: real)
    requires c > 0.0
    ensures s / c >= t <==> s >= t * c
  {
    var q := s / c;
    assert q * c == s;
    if q >= t {
      assert q * c >= t * c;
    } else {
      assert q * c < t * c;
    }
  }

  /** More levels completed never earns fewer stage stars. */
  lemma StageStarsMonotone(a: int, b: int, count: int)
    requires count > 0 && a <= b
    ensures 1 <= StageStars(a, count) <= StageStars(b, count) <= 3
  {
  }

  /** `attempts === 0 && !hintUsed ? 2 : 1`, with the attempts counted before this submission. */
  function UnlockStars(attemptsBefore: int, hintUsed: bool): (r: int)
    ensures r == 2 <==> attemptsBefore == 0 && !hintUsed
    ensures r == 1 <==> attemptsBefore != 0 || hintUsed
  {
    if attemptsBefore == 0 && !hintUsed then 2 else 1
  }
}
