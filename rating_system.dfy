/**
 * The rating panel on the product page (src/components/Product/RatingSystem.tsx):
 * the review form's star selection with hover preview, the comment box, and
 * the submit and cancel handlers.
 */
module RatingSystem {

  import opened Common
  import ReviewCard

  /** What `onRatingSubmit` receives. */
  datatype Submission = Submission(rating: int, comment: string)

  class ReviewForm {
    var showReviewForm: bool
    var selectedRating: int
    var hoverRating: int
    var comment: string
    var isSubmitting: bool

    /** Both ratings are 0 (nothing) or a star number 1..5. */
    ghost predicate Valid()
      reads this
    {
      0 <= selectedRating <= ReviewCard.StarCount && 0 <= hoverRating <= ReviewCard.StarCount
    }

    constructor ()
      ensures !showReviewForm && selectedRating == 0 && hoverRating == 0 && comment == [] && !isSubmitting
      ensures Valid()
    {
      showReviewForm := false;
      selectedRating := 0;
      hoverRating := 0;
      comment := "";
      isSubmitting := false;
    }

    /** The 'Write Review' button, rendered only for a signed-in user while the form is hidden. */
    method OpenForm(user: Option<User>)
      requires Valid()
      modifies this
      ensures Valid()
      ensures showReviewForm == (old(showReviewForm) || user.Some?)
      ensures selectedRating == old(selectedRating) && hoverRating == old(hoverRating)
      ensures comment == old(comment) && isSubmitting == old(isSubmitting)
    {
      if user.Some? && !showReviewForm {
        showReviewForm := true;
      }
    }

    /** A click on star `i` of the five selects rating `i + 1`. */
    method ClickStar(i: nat)
      requires Valid() && i < ReviewCard.StarCount
      modifies this
      ensures Valid()
      ensures selectedRating == i + 1 && 1 <= selectedRating <= ReviewCard.StarCount
      ensures showReviewForm == old(showReviewForm) && hoverRating == old(hoverRating)
      ensures comment == old(comment) && isSubmitting == old(isSubmitting)
    {
      selectedRating := i + 1;
    }

    /** The pointer entering star `i` previews rating `i + 1`. */
    method HoverStar(i: nat)
      requires Valid() && i < ReviewCard.StarCount
      modifies this
      ensures Valid()
      ensures hoverRating == i + 1
      ensures showReviewForm == old(showReviewForm) && selectedRating == old(selectedRating)
      ensures comment == old(comment) && isSubmitting == old(isSubmitting)
    {
      hoverRating := i + 1;
    }

    /** The pointer leaving a star ends the preview. */
    method LeaveStar()
      requires Valid()
      modifies this
      ensures Valid()
      ensures hoverRating == 0
      ensures showReviewForm == old(showReviewForm) && selectedRating == old(selectedRating)
      ensures comment == old(comment) && isSubmitting == old(isSubmitting)
    {
      hoverRating := 0;
    }

    /** Typing into the comment box. */
    method EditComment(value: string)
      requires Valid()
      modifies this
      ensures Valid()
      ensures comment == value
      ensures showReviewForm == old(showReviewForm) && selectedRating == old(selectedRating)
      ensures hoverRating == old(hoverRating) && isSubmitting == old(isSubmitting)
    {
      comment := value;
    }

    /** `hoverRating || selectedRating`: the preview while hovering, otherwise the selection. */
    function DisplayedRating(): (r: int)
      reads this
      ensures hoverRating != 0 ==> r == hoverRating
      ensures hoverRating == 0 ==> r == selectedRating
      ensures Valid() ==> 0 <= r <= ReviewCard.StarCount
    {
      if hoverRating != 0 then hoverRating else selectedRating
    }

    /** The form's star row: exactly the displayed rating is filled. */
    function FormStars(): (r: seq<bool>)
      requires Valid()
      reads this
      ensures |r| == ReviewCard.StarCount
      ensures ReviewCard.Filled(r) == DisplayedRating()
      ensures forall i :: 0 <= i < |r| ==> r[i] == (i < DisplayedRating())
    {
      ReviewCard.FilledStars(DisplayedRating());
      ReviewCard.StarRow(DisplayedRating())
    }

    /**
     * `handleSubmitReview`: nothing without a user or a selected rating;
     * otherwise the rating and comment go to `onRatingSubmit`, and the form
     * is hidden and cleared. The hover preview is not reset.
     */
    method HandleSubmitReview(user: Option<User>) returns (submitted: Option<Submission>)
      requires Valid()
      modifies this
      ensures Valid()
      ensures user.None? || old(selectedRating) == 0 ==>
                submitted == None
                && showReviewForm == old(showReviewForm) && selectedRating == old(selectedRating)
                && comment == old(comment) && isSubmitting == old(isSubmitting)
      ensures user.Some? && old(selectedRating) != 0 ==>
                submitted == Some(Submission(old(selectedRating), old(comment)))
                && !showReviewForm && selectedRating == 0 && comment == [] && !isSubmitting
      ensures submitted.Some? ==> 1 <= submitted.value.rating <= ReviewCard.StarCount
      ensures hoverRating == old(hoverRating)
    {
      submitted := None;
      if user.None? || selectedRating == 0 {
        return;
      }
      isSubmitting := true;
      submitted := Some(Submission(selectedRating, comment));
      showReviewForm := false;
      selectedRating := 0;
      comment := "";
      isSubmitting := false;
    }

    /** The Cancel button: hide the form and clear the rating and comment. */
    method Cancel()
      requires Valid()
      modifies this
      ensures Valid()
      ensures !showReviewForm && selectedRating == 0 && comment == []
      ensures hoverRating == old(hoverRating) && isSubmitting == old(isSubmitting)
    {
      showReviewForm := false;
      selectedRating := 0;
      comment := "";
    }
  }

  /** A signed-in reviewer who clicks star `i`, types a comment and submits sends exactly that rating and comment. */
  method ClickThenSubmit(user: User, i: nat, text: string) returns (submitted: Option<Submission>)
    requires i < ReviewCard.StarCount
    ensures submitted == Some(Submission(i + 1, text))
  {
    var form := new ReviewForm();
    form.OpenForm(Some(user));
    form.ClickStar(i);
    form.EditComment(text);
    submitted := form.HandleSubmitReview(Some(user));
  }
}
