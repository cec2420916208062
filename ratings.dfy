/** The running-mean rating a user document keeps: `rating` is the mean of the review
    ratings received and `ratingCount` their number. Each new review updates both, once in
    `createReview` and once in `completeTask`. Arithmetic is exact (`real`). */
module Ratings {
  import opened Wrappers
  import opened Documents

  /** The mean after one more rating `r`, from the old mean and count. */
  function NextMean(mean: real, count: nat, r: real): real
  {
    (mean * count as real + r) / (count as real + 1.0)
  }

  /** JavaScript's conversion of a stored value to a number in `*`; `None` stands for NaN.
      Strings, arrays and timestamps are taken to give NaN. */
  function ToNumber(v: Option<Value>): Option<real>
  {
    match v
    case Some(Null) => Some(0.0)
    case Some(Bool(b)) => Some(if b then 1.0 else 0.0)
    case Some(Num(x)) => Some(x)
    case _ => None
  }

  /** A `ratingCount` field as the store keeps it: absent, falsy, or a whole number. */
  predicate CountField(v: Option<Value>)
  {
    !Truthy(v) || (v.value.Num? && v.value.x >= 0.0 && v.value.x.Floor as real == v.value.x)
  }

  /** `ratingCount || 0`. */
  function CountOf(v: Option<Value>): (n: nat)
    requires CountField(v)
    ensures Truthy(v) ==> v == Some(Num(n as real))
    ensures !Truthy(v) ==> n == 0
  {
    if Truthy(v) then v.value.x.Floor else 0
  }

  /** The new `rating` when a review `r` arrives, the old fields being read as
      `rating || 0` and `ratingCount || 0` (`createReview`). */
  function ReviewedRating(rating: Option<Value>, count: nat, r: real): Value
  {
    match ToNumber(Some(OrElse(rating, Num(0.0))))
    case Some(m) => Num(NextMean(m, count, r))
    case None => NaN
  }

  /** The new `rating` as `completeTask` computes it: `rating * (ratingCount || 0)`, so an
      absent `rating` multiplies as `undefined` and gives NaN. */
  function CompletedRatingAsWritten(rating: Option<Value>, count: nat, r: real): Value
  {
    match ToNumber(rating)
    case Some(m) => Num(NextMean(m, count, r))
    case None => NaN
  }

  /** The mean left by a sequence of ratings received one at a time from a user with no
      rating yet, and the count. */
  function Fold(rs: seq<real>): (real, nat)
  {
    if rs == [] then (0.0, 0)
    else
      var (m, c) := Fold(rs[..|rs| - 1]);
      (NextMean(m, c, rs[|rs| - 1]), c + 1)
  }

  function Sum(rs: seq<real>): real
  {
    if rs == [] then 0.0 else Sum(rs[..|rs| - 1]) + rs[|rs| - 1]
  }

  // ---------------------------------------------------------------------------------------
  // Lemmas

  /** A rating between 1 and 5 keeps the mean between 1 and 5 when the old mean was there or
      there was no rating before. */
  lemma NextMeanBounds(mean: real, count: nat, r: real)
    requires 1.0 <= r <= 5.0
    requires count == 0 || 1.0 <= mean <= 5.0
    ensures 1.0 <= NextMean(mean, count, r) <= 5.0
  {
    var c := count as real;
    TotalBounds(mean, c, r);
    assert NextMean(mean, count, r) == (mean * c + r) / (c + 1.0);
    DivBounds(mean * c + r, c + 1.0);
  }

  lemma TotalBounds(mean: real, c: real, r: real)
    requires 1.0 <= r <= 5.0 && c >= 0.0
    requires c == 0.0 || 1.0 <= mean <= 5.0
    ensures c + 1.0 <= mean * c + r <= 5.0 * (c + 1.0)
  {
    if c > 0.0 {
      MulMonotone(1.0, mean, c);
      MulMonotone(mean, 5.0, c);
    }
    assert 1.0 * c == c;
    assert c <= mean * c <= 5.0 * c;
    assert 5.0 * (c + 1.0) == 5.0 * c + 5.0;
  }

  lemma MulMonotone(a: real, b: real, c: real)
    requires a <= b && c >= 0.0
    ensures a * c <= b * c
  {
  }

  lemma DivBounds(total: real, d: real)
    requires d >= 1.0 && d <= total <= 5.0 * d
    ensures 1.0 <= total / d <= 5.0
  {
    var q := total / d;
    assert q * d == total;
    if q < 1.0 {
      MulMonotone(q, 1.0, d);
    }
    if q > 5.0 {
      MulMonotone(5.0, q, d);
    }
  }

  /** The running mean is the plain mean: after `n` ratings the count is `n` and the mean times
      `n` is their sum. */
  lemma {:induction false} FoldIsMean(rs: seq<real>)
    ensures Fold(rs).1 == |rs|
    ensures Fold(rs).0 * |rs| as real == Sum(rs)
  {
    if rs != [] {
      var p := rs[..|rs| - 1];
      FoldIsMean(p);
      var (m, c) := Fold(p);
      var x := rs[|rs| - 1];
      assert Fold(rs) == (NextMean(m, c, x), c + 1);
      assert m * c as real == Sum(p);
      NextMeanTimesCount(m, c, x);
    }
  }

  lemma NextMeanTimesCount(m: real, c: nat, x: real)
    ensures NextMean(m, c, x) * (c as real + 1.0) == m * c as real + x
  {
  }

  /** Three reviews of 4, 5 and 4 give a mean of 13/3; the first of them a mean of 4. */
  lemma FoldExample()
    ensures Fold([4.0]) == (4.0, 1)
    ensures Fold([4.0, 5.0, 4.0]).1 == 3
    ensures Fold([4.0, 5.0, 4.0]).0 == 13.0 / 3.0
  {
    FoldIsMean([4.0, 5.0, 4.0]);
    assert [4.0, 5.0, 4.0][..2] == [4.0, 5.0];
    assert [4.0, 5.0][..1] == [4.0];
  }

  /** `createReview` reads a missing rating as 0: a user's first review sets the mean to its
      own rating. */
  lemma FirstReviewSetsMean(rating: Option<Value>, r: real)
    requires !Truthy(rating)
    ensures ReviewedRating(rating, 0, r) == Num(r)
  {
  }

  /** Whenever the stored rating is a number both computations agree. */
  lemma RatingRulesAgreeOnNumbers(m: real, count: nat, r: real)
    ensures CompletedRatingAsWritten(Some(Num(m)), count, r) == ReviewedRating(Some(Num(m)), count, r)
    ensures ReviewedRating(Some(Num(m)), count, r) == Num(NextMean(m, count, r))
  {
  }

  /** A user document without a `rating` field: completing a task rated 5 stores NaN as the
      user's rating, where the `createReview` rule stores 5. */
  lemma CompletedRatingOfMissingIsNaN()
    ensures CompletedRatingAsWritten(None, 0, 5.0) == NaN
    ensures ReviewedRating(None, 0, 5.0) == Num(5.0)
  {
  }
}
