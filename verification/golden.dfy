/** The golden comparison of `check_top3`: after selection, ranks 0, 1 and 2 are
    checked in order against fixed class ids and scores; within a rank the class
    id must match exactly before the score is compared within tolerance, and the
    first failing rank ends the check with -1. */
module GoldenCheck {
  import opened TopK

  /** Expected class ids, rank 0 first. */
  const ExpectIndexes: seq<int> := [532, 920, 716]

  /** Expected scores, rank 0 first (non-increasing, like the selection). */
  const ExpectScores: seq<real> := [0.189459, 0.082801, 0.034684]

  /** The tolerance test of the test utilities, as (actual, expected, epsilon);
      its formula belongs to those utilities and is left abstract. */
  type Near = (real, real, real) -> bool

  /** Why a check ended; the failure cases carry what the diagnostic line prints. */
  datatype Verdict =
    | Pass
    | IndexMismatch(rank: nat, expectedIndex: int, gotIndex: int)
    | ScoreMismatch(rank: nat, expectedScore: real, gotScore: real)

  /** Rank `i` of the selection agrees with the golden data. */
  predicate RankPasses(top: seq<ScoreIndex>, i: nat, epsilon: real, near: Near)
    requires |top| == 3 && i < 3
  {
    top[i].index == ExpectIndexes[i] && near(top[i].score, ExpectScores[i], epsilon)
  }

  /** Every rank from `i` on agrees with the golden data. */
  predicate RanksPassFrom(top: seq<ScoreIndex>, i: nat, epsilon: real, near: Near)
    requires |top| == 3
  {
    forall j :: i <= j < 3 ==> RankPasses(top, j, epsilon, near)
  }

  /** `v` is the verdict of the first failing rank at or after `i`: every rank
      between `i` and it passes, and it fails for the reason `v` names. */
  predicate FirstFailure(top: seq<ScoreIndex>, i: nat, epsilon: real, near: Near, v: Verdict)
    requires |top| == 3
  {
    match v
    case Pass => RanksPassFrom(top, i, epsilon, near)
    case IndexMismatch(r, expected, got) =>
      && i <= r < 3
      && (forall j :: i <= j < r ==> RankPasses(top, j, epsilon, near))
      && expected == ExpectIndexes[r] && got == top[r].index && got != expected
      && !RankPasses(top, r, epsilon, near)
    case ScoreMismatch(r, expected, got) =>
      && i <= r < 3
      && (forall j :: i <= j < r ==> RankPasses(top, j, epsilon, near))
      && top[r].index == ExpectIndexes[r]
      && expected == ExpectScores[r] && got == top[r].score
      && !near(got, expected, epsilon)
      && !RankPasses(top, r, epsilon, near)
  }

  /** The loop over ranks, from rank `i` on. */
  function CheckFrom(top: seq<ScoreIndex>, i: nat, epsilon: real, near: Near): (v: Verdict)
    requires |top| == 3 && i <= 3
    ensures FirstFailure(top, i, epsilon, near, v)
    decreases 3 - i
  {
    if i == 3 then Pass
    else if top[i].index != ExpectIndexes[i] then IndexMismatch(i, ExpectIndexes[i], top[i].index)
    else if !near(top[i].score, ExpectScores[i], epsilon) then ScoreMismatch(i, ExpectScores[i], top[i].score)
    else CheckFrom(top, i + 1, epsilon, near)
  }

  /** The verdict for a whole selection. */
  function CheckRanks(top: seq<ScoreIndex>, epsilon: real, near: Near): (v: Verdict)
    requires |top| == 3
    ensures FirstFailure(top, 0, epsilon, near, v)
    ensures v.Pass? <==> RanksPassFrom(top, 0, epsilon, near)
  {
    CheckFrom(top, 0, epsilon, near)
  }

  /** `check_top3`: select the best three, compare them with the golden data,
      and return 0 on agreement and -1 otherwise. */
  function CheckTop3(scores: seq<real>, epsilon: real, near: Near): (r: int)
    requires |scores| >= 3
    ensures r == 0 || r == -1
    ensures r == 0 <==>
      forall i :: 0 <= i < 3 ==>
        SelectTop3(scores)[i].index == ExpectIndexes[i] &&
        near(SelectTop3(scores)[i].score, ExpectScores[i], epsilon)
  {
    if CheckRanks(SelectTop3(scores), epsilon, near).Pass? then 0 else -1
  }

  /** The verdict is a function of the ranks up to the failing one: ranks after
      the first failure are never examined. */
  lemma LaterRanksNotExamined(top: seq<ScoreIndex>, other: seq<ScoreIndex>, i: nat, epsilon: real, near: Near)
    requires |top| == 3 && |other| == 3 && i <= 3
    requires !CheckFrom(top, i, epsilon, near).Pass?
    requires forall j :: i <= j <= CheckFrom(top, i, epsilon, near).rank ==> other[j] == top[j]
    ensures CheckFrom(other, i, epsilon, near) == CheckFrom(top, i, epsilon, near)
  {
  }

  /** A wrong class id fails its rank whatever the score and whatever the
      tolerance: two selections that differ only in that rank's score, or are
      checked with different tolerances, get the same verdict once the ranks
      before it pass. */
  lemma IndexCheckedBeforeScore(top: seq<ScoreIndex>, r: nat, s: real, epsilon: real, near: Near, epsilon': real, near': Near)
    requires |top| == 3 && r < 3
    requires forall j :: 0 <= j < r ==> RankPasses(top, j, epsilon, near) && RankPasses(top, j, epsilon', near')
    requires top[r].index != ExpectIndexes[r]
    ensures CheckRanks(top, epsilon, near) == IndexMismatch(r, ExpectIndexes[r], top[r].index)
    ensures CheckRanks(top[r := ScoreIndex(s, top[r].index)], epsilon', near') == CheckRanks(top, epsilon, near)
  {
    var v := CheckRanks(top, epsilon, near);
    var other := top[r := ScoreIndex(s, top[r].index)];
    var v' := CheckRanks(other, epsilon', near');
    forall j | 0 <= j < r
      ensures RankPasses(other, j, epsilon', near')
    {
      assert other[j] == top[j] && RankPasses(top, j, epsilon', near');
    }
    // Any other verdict would need rank r to pass, or an earlier rank to fail.
    assert !RankPasses(top, r, epsilon, near) && !RankPasses(other, r, epsilon', near');
  }

  /** With the class ids right, a score outside tolerance at the first such rank
      fails the check with that rank, and the check returns -1. */
  lemma ScoreOutsideToleranceFails(scores: seq<real>, r: nat, epsilon: real, near: Near)
    requires |scores| >= 3 && r < 3
    requires forall j :: 0 <= j < 3 ==> SelectTop3(scores)[j].index == ExpectIndexes[j]
    requires forall j :: 0 <= j < r ==> near(SelectTop3(scores)[j].score, ExpectScores[j], epsilon)
    requires !near(SelectTop3(scores)[r].score, ExpectScores[r], epsilon)
    ensures CheckRanks(SelectTop3(scores), epsilon, near) == ScoreMismatch(r, ExpectScores[r], SelectTop3(scores)[r].score)
    ensures CheckTop3(scores, epsilon, near) == -1
  {
  }

  /** A tie between the two best scores decides the verdict through the tie
      order: both selections below are correct for the same scores, and one
      passes while the other fails at rank 0. */
  lemma TieAtTopDecidesVerdict()
    ensures var scores := seq(921, k => if k == 532 || k == 920 then 0.5 else if k == 716 then 0.25 else 0.0);
      && IsTop3(scores, [ScoreIndex(0.5, 532), ScoreIndex(0.5, 920), ScoreIndex(0.25, 716)])
      && IsTop3(scores, [ScoreIndex(0.5, 920), ScoreIndex(0.5, 532), ScoreIndex(0.25, 716)])
    ensures CheckRanks([ScoreIndex(0.5, 532), ScoreIndex(0.5, 920), ScoreIndex(0.25, 716)], 0.1, (x, y, e) => true) == Pass
    ensures CheckRanks([ScoreIndex(0.5, 920), ScoreIndex(0.5, 532), ScoreIndex(0.25, 716)], 0.1, (x, y, e) => true) == IndexMismatch(0, 532, 920)
  {
    var scores := seq(921, k => if k == 532 || k == 920 then 0.5 else if k == 716 then 0.25 else 0.0);
    var a := [ScoreIndex(0.5, 532), ScoreIndex(0.5, 920), ScoreIndex(0.25, 716)];
    assert RankPasses(a, 0, 0.1, (x, y, e) => true);
    assert RankPasses(a, 1, 0.1, (x, y, e) => true);
    assert RankPasses(a, 2, 0.1, (x, y, e) => true);
  }
}
