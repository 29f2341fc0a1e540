/** Top-3 selection of the squeezenet harness: every class score is paired with
    its class id, and the three pairs with the highest scores are moved to the
    front in descending score order. The comparator orders by score alone, so the
    order among equal scores is not part of the contract. */
module TopK {

  /** One entry of the paired score vector: a class score and its class id. */
  datatype ScoreIndex = ScoreIndex(score: real, index: int)

  /** The comparator `compare_score_index`: `a` goes before `b` iff its score is
      strictly greater. Pairs with equal scores are never ordered, whatever their
      class ids. */
  function Before(a: ScoreIndex, b: ScoreIndex): (r: bool)
    ensures r ==> a.score != b.score
    ensures a.score == b.score ==> !r
  {
    a.score > b.score
  }

  /** The comparator is a strict weak order, as `std::partial_sort` demands:
      irreflexive, transitive, and incomparability (equal scores) is transitive. */
  lemma BeforeIsStrictWeakOrder(a: ScoreIndex, b: ScoreIndex, c: ScoreIndex)
    ensures !Before(a, a)
    ensures Before(a, b) ==> !Before(b, a)
    ensures Before(a, b) && Before(b, c) ==> Before(a, c)
    ensures !Before(a, b) && !Before(b, a) && !Before(b, c) && !Before(c, b) ==>
      !Before(a, c) && !Before(c, a)
  {
  }

  /** The pair built for position `k` of the score vector. */
  function PairAt(scores: seq<real>, k: nat): ScoreIndex
    requires k < |scores|
  {
    ScoreIndex(scores[k], k)
  }

  /** The whole paired vector, before selection. */
  function Pairs(scores: seq<real>): seq<ScoreIndex> {
    seq(|scores|, k requires 0 <= k < |scores| => PairAt(scores, k))
  }

  /** `p` is the pair of some position of `scores`. */
  predicate FromInput(scores: seq<real>, p: ScoreIndex) {
    0 <= p.index < |scores| && scores[p.index] == p.score
  }

  /** None of the three selected pairs carries class id `k`. */
  predicate Unselected(top: seq<ScoreIndex>, k: int)
    requires |top| == 3
  {
    k != top[0].index && k != top[1].index && k != top[2].index
  }

  /** `top` is a correct selection of the three best pairs among the first `n`
      positions: three pairs of the input at distinct positions below `n`, in
      non-increasing score order, and no other position below `n` scores above
      the third one. Any tie order is allowed. */
  predicate IsTop3Of(scores: seq<real>, n: nat, top: seq<ScoreIndex>)
    requires n <= |scores|
  {
    && |top| == 3
    && (forall j :: 0 <= j < 3 ==> FromInput(scores, top[j]) && top[j].index < n)
    && top[0].index != top[1].index
    && top[0].index != top[2].index
    && top[1].index != top[2].index
    && top[0].score >= top[1].score >= top[2].score
    && (forall k :: 0 <= k < n && Unselected(top, k) ==> scores[k] <= top[2].score)
  }

  /** `top` is a correct selection of the three best pairs of the whole vector. */
  predicate IsTop3(scores: seq<real>, top: seq<ScoreIndex>) {
    IsTop3Of(scores, |scores|, top)
  }

  /** `r` is one of the six orders of `a`, `b` and `c`. */
  predicate Reorders3(r: seq<ScoreIndex>, a: ScoreIndex, b: ScoreIndex, c: ScoreIndex) {
    || r == [a, b, c] || r == [a, c, b]
    || r == [b, a, c] || r == [b, c, a]
    || r == [c, a, b] || r == [c, b, a]
  }

  /** Orders three pairs by the comparator, as the selection does with the first
      three positions before it scans the rest. */
  function Sort3(a: ScoreIndex, b: ScoreIndex, c: ScoreIndex): (r: seq<ScoreIndex>)
    ensures |r| == 3
    ensures Reorders3(r, a, b, c)
    ensures r[0].score >= r[1].score >= r[2].score
  {
    if Before(b, a) then
      if Before(c, b) then [c, b, a]
      else if Before(c, a) then [b, c, a]
      else [b, a, c]
    else
      if Before(c, a) then [c, a, b]
      else if Before(c, b) then [a, c, b]
      else [a, b, c]
  }

  /** Offers one more pair to the current best three: it takes a place only when
      the comparator puts it before the third pair, and then the third drops out. */
  function Offer(top: seq<ScoreIndex>, p: ScoreIndex): (r: seq<ScoreIndex>)
    requires |top| == 3
    ensures |r| == 3
    ensures !Before(p, top[2]) ==> r == top
    ensures Before(p, top[2]) ==> Reorders3(r, top[0], top[1], p)
    ensures top[0].score >= top[1].score >= top[2].score ==> r[0].score >= r[1].score >= r[2].score
  {
    if !Before(p, top[2]) then top
    else if Before(p, top[0]) then [p, top[0], top[1]]
    else if Before(p, top[1]) then [top[0], p, top[1]]
    else [top[0], top[1], p]
  }

  /** The first three positions, ordered, are the best three of them. */
  lemma FirstThree(scores: seq<real>)
    requires 3 <= |scores|
    ensures IsTop3Of(scores, 3, Sort3(PairAt(scores, 0), PairAt(scores, 1), PairAt(scores, 2)))
  {
  }

  /** Offering the pair of position `n - 1` to the best three of the first
      `n - 1` positions gives the best three of the first `n`. */
  lemma OfferKeepsBest(scores: seq<real>, n: nat, prev: seq<ScoreIndex>)
    requires 3 < n <= |scores|
    requires IsTop3Of(scores, n - 1, prev)
    ensures IsTop3Of(scores, n, Offer(prev, PairAt(scores, n - 1)))
  {
  }

  /** The best three of the first `n` positions. */
  function Scan(scores: seq<real>, n: nat): (top: seq<ScoreIndex>)
    requires 3 <= n <= |scores|
    ensures IsTop3Of(scores, n, top)
    decreases n
  {
    if n == 3 then
      FirstThree(scores);
      Sort3(PairAt(scores, 0), PairAt(scores, 1), PairAt(scores, 2))
    else
      var prev := Scan(scores, n - 1);
      OfferKeepsBest(scores, n, prev);
      Offer(prev, PairAt(scores, n - 1))
  }

  /** The selection `check_top3` performs on its score vector (the vector must
      hold at least three scores, since the harness reads three positions). */
  function SelectTop3(scores: seq<real>): (top: seq<ScoreIndex>)
    requires |scores| >= 3
    ensures IsTop3(scores, top)
  {
    Scan(scores, |scores|)
  }

  /** The three selected pairs are distinct elements of the paired vector, so they
      are the prefix of a permutation of it. */
  lemma SelectionIsPermutationPrefix(scores: seq<real>, top: seq<ScoreIndex>)
    requires IsTop3(scores, top)
    ensures multiset(top) <= multiset(Pairs(scores))
  {
    var ps := Pairs(scores);
    assert top == [top[0], top[1], top[2]];
    forall j | 0 <= j < 3
      ensures top[j] in multiset(ps)
    {
      assert ps[top[j].index] == top[j];
    }
    forall x
      ensures multiset(top)[x] <= multiset(ps)[x]
    {
      if x in multiset(top) {
        assert multiset(top)[x] == 1;
      }
    }
  }

  /** Whatever tie order a correct selection picks, the three selected scores are
      the same: only the class ids of equal scores may differ. */
  lemma SelectedScoresDetermined(scores: seq<real>, a: seq<ScoreIndex>, b: seq<ScoreIndex>)
    requires IsTop3(scores, a) && IsTop3(scores, b)
    ensures a[0].score == b[0].score
    ensures a[1].score == b[1].score
    ensures a[2].score == b[2].score
  {
  }

  /** When the three best scores are pairwise distinct and strictly above every
      other score, the correct selection is unique, so the tie order never shows. */
  lemma UniqueSelectionWithoutTies(scores: seq<real>, a: seq<ScoreIndex>, b: seq<ScoreIndex>)
    requires IsTop3(scores, a) && IsTop3(scores, b)
    requires a[0].score > a[1].score > a[2].score
    requires forall k :: 0 <= k < |scores| && Unselected(a, k) ==> scores[k] < a[2].score
    ensures a == b
  {
  }

  /** With equal scores, two different selections are both correct: the
      comparator does not fix the order of ties. */
  lemma TiesLeaveIndexOrderOpen()
    ensures IsTop3([1.0, 1.0, 1.0, 1.0], [ScoreIndex(1.0, 0), ScoreIndex(1.0, 1), ScoreIndex(1.0, 2)])
    ensures IsTop3([1.0, 1.0, 1.0, 1.0], [ScoreIndex(1.0, 3), ScoreIndex(1.0, 2), ScoreIndex(1.0, 1)])
  {
  }
}
