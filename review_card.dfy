/**
 * A review on the product page (src/components/Product/ReviewCard.tsx): the
 * "Helpful" counter a signed-in user can raise once, and the five-star row.
 */
module ReviewCard {

  import opened Common
  import opened Types

  const StarCount: nat := 5

  /** `Array.from({ length: 5 }, (_, i) => i < rating)`: which of the five stars are filled. */
  function StarRow(rating: int): (r: seq<bool>)
    ensures |r| == StarCount
    ensures forall i :: 0 <= i < |r| ==> r[i] == (i < rating)
  {
    seq(StarCount, i requires 0 <= i < StarCount => i < rating)
  }

  /** The number of filled stars in a row. */
  function Filled(stars: seq<bool>): (n: nat)
    ensures n <= |stars|
  {
    if stars == [] then 0
    else Filled(stars[..|stars| - 1]) + (if stars[|stars| - 1] then 1 else 0)
  }

  /** `rating` held to the range 0..`bound`. */
  function Clamp(rating: int, bound: nat): (n: nat)
    ensures n <= bound
    ensures 0 <= rating <= bound ==> n == rating
  {
    if rating < 0 then 0 else if rating > bound then bound else rating
  }

  /** Among the first `n` positions, exactly `rating` (held to 0..n) satisfy `i < rating`. */
  lemma {:induction false} FilledThreshold(n: nat, rating: int)
    ensures Filled(seq(n, i requires 0 <= i < n => i < rating)) == Clamp(rating, n)
  {
    var row := seq(n, i requires 0 <= i < n => i < rating);
    if n > 0 {
      var shorter := seq(n - 1, i requires 0 <= i < n - 1 => i < rating);
      assert row[..n - 1] == shorter;
      FilledThreshold(n - 1, rating);
    }
  }

  /** The row shows the rating as that many filled stars, none when it is at most 0 and all five when it is at least 5. */
  lemma FilledStars(rating: int)
    ensures Filled(StarRow(rating)) == Clamp(rating, StarCount)
    ensures 0 <= rating <= StarCount ==> Filled(StarRow(rating)) == rating
  {
    FilledThreshold(StarCount, rating);
  }

  /** The filled stars come first: a filled star has only filled stars before it. */
  lemma FilledArePrefix(rating: int)
    ensures forall i, j :: 0 <= i < j < StarCount && StarRow(rating)[j] ==> StarRow(rating)[i]
  {
  }

  /** The button's state: the count it started from, the count shown, and whether this viewer has voted. */
  class HelpfulButton {
    const initial: int
    var helpful: int
    var hasVoted: bool

    /** The shown count is the initial one plus this viewer's single vote. */
    ghost predicate Valid()
      reads this
    {
      helpful == initial + (if hasVoted then 1 else 0)
    }

    constructor (review: Review)
      ensures initial == review.helpful && helpful == review.helpful && !hasVoted
      ensures Valid()
    {
      initial := review.helpful;
      helpful := review.helpful;
      hasVoted := false;
    }

    /** `handleHelpful`: nothing without a user or after a vote; otherwise one more and voted. */
    method HandleHelpful(user: Option<User>)
      requires Valid()
      modifies this
      ensures Valid()
      ensures user.None? || old(hasVoted) ==> helpful == old(helpful) && hasVoted == old(hasVoted)
      ensures user.Some? && !old(hasVoted) ==> helpful == old(helpful) + 1 && hasVoted
      ensures old(helpful) <= helpful <= initial + 1
    {
      if user.None? || hasVoted {
        return;
      }
      helpful := helpful + 1;
      hasVoted := true;
    }
  }

  /** Whether any of the clicks came from a signed-in user. */
  predicate AnySignedIn(clicks: seq<Option<User>>) {
    exists j :: 0 <= j < |clicks| && clicks[j].Some?
  }

  /**
   * A card receiving a series of clicks: the count rises by exactly one when
   * some click was signed in, and otherwise stays at the review's count.
   */
  method ClickSeries(review: Review, clicks: seq<Option<User>>) returns (b: HelpfulButton)
    ensures b.helpful == review.helpful + (if AnySignedIn(clicks) then 1 else 0)
  {
    b := new HelpfulButton(review);
    var i := 0;
    while i < |clicks|
      invariant 0 <= i <= |clicks|
      invariant b.Valid() && b.initial == review.helpful
      invariant b.hasVoted <==> AnySignedIn(clicks[..i])
    {
      b.HandleHelpful(clicks[i]);
      assert clicks[..i + 1] == clicks[..i] + [clicks[i]];
      i := i + 1;
    }
    assert clicks[..i] == clicks;
  }
}
