/**
 The arithmetic of the song rating endpoint: Python's floor division, one
 step of the integer running mean, and the result of replaying a whole
 history of submitted scores on a fresh song.
 */
module Rating {

  function Min(a: int, b: int): int { if a <= b then a else b }
  function Max(a: int, b: int): int { if a <= b then b else a }

  /**
   Python's `a // b`: the floor of the exact quotient, for a divisor of
   either sign (Dafny's own `/` rounds towards the floor only when the
   divisor is positive).
   */
  function FloorDiv(a: int, b: int): (q: int)
    requires b != 0
    ensures b > 0 ==> b * q <= a < b * q + b
    ensures b < 0 ==> b * q + b < a <= b * q
  {
    if b > 0 then a / b else (-a) / (-b)
  }

  /** With a positive divisor, Python's `//` is Dafny's `/`. */
  lemma FloorDivPositive(a: int, b: int)
    requires b > 0
    ensures FloorDiv(a, b) == a / b
  {
  }

  /**
   The rating stored after one more score: the sum of the old ratings is
   approximated by `rating * reviewers`, the new score is added and the
   total is floor-divided by the new number of reviewers.
   */
  function MeanStep(rating: int, reviewers: int, score: int): (r: int)
    requires reviewers + 1 != 0
    ensures reviewers + 1 > 0 ==>
      (reviewers + 1) * r <= rating * reviewers + score < (reviewers + 1) * (r + 1)
    ensures reviewers + 1 < 0 ==>
      (reviewers + 1) * (r + 1) < rating * reviewers + score <= (reviewers + 1) * r
  {
    FloorDiv(rating * reviewers + score, reviewers + 1)
  }

  /** A floor quotient of `a` by `b` lies between any bounds `lo` and `hi` with `b*lo <= a <= b*hi`. */
  lemma QuotientBetween(a: int, b: int, q: int, lo: int, hi: int)
    requires b > 0
    requires b * q <= a < b * (q + 1)
    requires b * lo <= a <= b * hi
    ensures lo <= q <= hi
  {
  }

  lemma MulMono(x: int, y: int, n: int)
    requires n >= 0 && x <= y
    ensures x * n <= y * n
  {
  }

  lemma Distribute(x: int, n: int)
    ensures (n + 1) * x == x * n + x
  {
  }

  /** The new rating lies between the old rating and the submitted score. */
  lemma MeanStepBetween(rating: int, reviewers: int, score: int)
    requires reviewers >= 0
    ensures Min(rating, score) <= MeanStep(rating, reviewers, score) <= Max(rating, score)
  {
    var r := MeanStep(rating, reviewers, score);
    var a := rating * reviewers + score;
    Distribute(rating, reviewers);
    Distribute(score, reviewers);
    if rating <= score {
      MulMono(rating, score, reviewers);
      QuotientBetween(a, reviewers + 1, r, rating, score);
    } else {
      MulMono(score, rating, reviewers);
      QuotientBetween(a, reviewers + 1, r, score, rating);
    }
  }

  /** With a stored rating and a score both in 0..5, the new rating is in 0..5. */
  lemma MeanStepBound(rating: int, reviewers: int, score: int)
    requires 0 <= rating <= 5 && 0 <= score <= 5 && reviewers >= 0
    ensures 0 <= MeanStep(rating, reviewers, score) <= 5
  {
    MeanStepBetween(rating, reviewers, score);
  }

  /**
   Submitting the current rating again leaves the rating where it is, for
   either sign of the divisor.
   */
  lemma MeanStepSameScore(rating: int, reviewers: int)
    requires reviewers + 1 != 0
    ensures MeanStep(rating, reviewers, rating) == rating
  {
    if reviewers >= 0 {
      MeanStepBetween(rating, reviewers, rating);
    } else {
      assert rating * reviewers + rating == (reviewers + 1) * rating;
    }
  }

  /**
   A rating only rises when the score beats it by more than the number of
   earlier reviewers: `score >= rating + reviewers + 1`.
   */
  lemma MeanStepRiseNeedsLargeScore(rating: int, reviewers: int, score: int)
    requires reviewers >= 0
    ensures MeanStep(rating, reviewers, score) > rating ==> score >= rating + reviewers + 1
  {
    var r := MeanStep(rating, reviewers, score);
    if r > rating {
      MulMono(rating + 1, r, reviewers + 1);
      assert (rating + 1) * (reviewers + 1) == rating * reviewers + rating + reviewers + 1;
    }
  }

  /**
   Once five scores are recorded (so from the sixth score on), no score of
   at most 5 raises a non-negative rating: a score would need to exceed it
   by at least six.
   */
  lemma MeanStepNoRiseLate(rating: int, reviewers: int, score: int)
    requires reviewers >= 5 && rating >= 0 && score <= 5
    ensures MeanStep(rating, reviewers, score) <= rating
  {
    MeanStepRiseNeedsLargeScore(rating, reviewers, score);
  }

  /** The rating and the reviewer count of a song. */
  datatype Tally = Tally(rating: int, reviewers: int)

  /**
   The tally of a fresh song (rating 0, no reviewers) after the scores in
   `scores` have been submitted one after another.
   */
  function Replay(scores: seq<int>): (t: Tally)
    ensures t.reviewers == |scores|
  {
    if scores == [] then Tally(0, 0)
    else
      var prev := Replay(scores[..|scores| - 1]);
      Tally(MeanStep(prev.rating, prev.reviewers, scores[|scores| - 1]), prev.reviewers + 1)
  }

  function Sum(scores: seq<int>): int
  {
    if scores == [] then 0 else Sum(scores[..|scores| - 1]) + scores[|scores| - 1]
  }

  /**
   Floor division only ever rounds down, so the stored rating never exceeds
   the true mean of the submitted scores: `rating * reviewers <= sum`.
   */
  lemma {:induction false} ReplayNeverExceedsMean(scores: seq<int>)
    ensures Replay(scores).rating * |scores| <= Sum(scores)
  {
    if scores != [] {
      var init := scores[..|scores| - 1];
      ReplayNeverExceedsMean(init);
      var prev := Replay(init);
      assert prev.reviewers == |init|;
    }
  }

  /** `k` copies of `x`. */
  function Repeat(x: int, k: nat): (s: seq<int>)
    ensures |s| == k
    ensures forall i :: 0 <= i < k ==> s[i] == x
  {
    if k == 0 then [] else Repeat(x, k - 1) + [x]
  }

  /** Scores of 0 on a fresh song keep its rating at 0. */
  lemma {:induction false} ZerosKeepRatingZero(n: nat)
    ensures Replay(Repeat(0, n)).rating == 0
    ensures Sum(Repeat(0, n)) == 0
  {
    if n > 0 {
      ZerosKeepRatingZero(n - 1);
      assert Repeat(0, n)[..n - 1] == Repeat(0, n - 1);
      MeanStepSameScore(0, n - 1);
    }
  }

  /**
   The rounding loss is not bounded by one over the number of reviewers:
   after five scores of 0, any number `k` of 5s leaves the rating at 0,
   although the true mean `5k / (5 + k)` approaches 5.
   */
  lemma {:induction false} FiveZerosFreezeRating(k: nat)
    ensures Replay(Repeat(0, 5) + Repeat(5, k)).rating == 0
    ensures Sum(Repeat(0, 5) + Repeat(5, k)) == 5 * k
  {
    var zeros := Repeat(0, 5);
    if k == 0 {
      assert zeros + Repeat(5, 0) == zeros;
      ZerosKeepRatingZero(5);
    } else {
      var prev := zeros + Repeat(5, k - 1);
      FiveZerosFreezeRating(k - 1);
      assert zeros + Repeat(5, k) == prev + [5];
      assert (prev + [5])[..|prev|] == prev;
      var t := Replay(prev);
      MeanStepNoRiseLate(t.rating, t.reviewers, 5);
      MeanStepBetween(t.rating, t.reviewers, 5);
    }
  }

  /** Every score in 0..5 keeps a replayed rating in 0..5. */
  lemma {:induction false} ReplayBound(scores: seq<int>)
    requires forall i :: 0 <= i < |scores| ==> 0 <= scores[i] <= 5
    ensures 0 <= Replay(scores).rating <= 5
  {
    if scores != [] {
      var init := scores[..|scores| - 1];
      ReplayBound(init);
      MeanStepBound(Replay(init).rating, |init|, scores[|scores| - 1]);
    }
  }
}
