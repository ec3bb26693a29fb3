/**
 * `src/components/FeedbacckSystem.jsx`: the read-only star display of the
 * sample reviews and the visitor's own rating widget (`UserRatingSection`).
 * The widget's three-second reset after a submission is a queued timer that
 * `ResetFires` runs; a rating is never sent anywhere.
 */
module Feedback {
  import opened Common

  const TOTAL_STARS: nat := 5

  /** `StarDisplay`: star `k` (counted from 1) is lit when `k <= rating`. */
  function StarDisplay(rating: int): (stars: seq<bool>)
    ensures |stars| == TOTAL_STARS
    ensures forall i :: 0 <= i < TOTAL_STARS ==> (stars[i] <==> i + 1 <= rating)
    ensures CountLit(stars) == if rating <= 0 then 0 else if rating >= TOTAL_STARS then TOTAL_STARS else rating
  {
    LitMarksCount(TOTAL_STARS, rating);
    LitMarks(TOTAL_STARS, rating)
  }

  /** The ratings of the six sample reviews, in display order. */
  const SAMPLE_RATINGS: seq<int> := [5, 4, 5, 5, 3, 4]

  function Sum(xs: seq<int>): int {
    if xs == [] then 0 else xs[0] + Sum(xs[1..])
  }

  /** The fixed header "4.3 / 5 (6 vélemény alapján)" agrees with the samples:
      six reviews whose mean, cut to one decimal, is 4.3. */
  lemma OverallRatingMatchesSamples()
    ensures |SAMPLE_RATINGS| == 6
    ensures Sum(SAMPLE_RATINGS) * 10 / |SAMPLE_RATINGS| == 43
  {
    assert Sum(SAMPLE_RATINGS) == 26 by {
      assert SAMPLE_RATINGS[1..] == [4, 5, 5, 3, 4];
      assert SAMPLE_RATINGS[2..] == [5, 5, 3, 4];
      assert SAMPLE_RATINGS[3..] == [5, 3, 4];
      assert SAMPLE_RATINGS[4..] == [3, 4];
      assert SAMPLE_RATINGS[5..] == [4];
    }
  }

  const CHOOSE_FIRST: string := "Kérlek, válassz egy értéket az elküldés előtt!"
  const THANKS_PREFIX: string := "Köszönjük a(z) "
  const THANKS_SUFFIX: string := "/5 csillagos értékelésedet!"

  /** The message under the widget; an empty text shows nothing. */
  datatype SubmitMessage = SubmitMessage(text: string, kind: string)

  const NO_MESSAGE: SubmitMessage := SubmitMessage("", "")

  /** The thank-you text for a submitted rating. */
  function ThanksText(rating: nat): string {
    THANKS_PREFIX + NatToString(rating) + THANKS_SUFFIX
  }

  /** The thank-you text names the rating itself: the digits between its
      fixed parts read back as the rating, so each rating has its own text. */
  lemma ThanksTextShowsRating(r: nat, r': nat)
    ensures var t := ThanksText(r);
            ParseNat(t[|THANKS_PREFIX|..|t| - |THANKS_SUFFIX|]) == r
    ensures r != r' ==> ThanksText(r) != ThanksText(r')
  {
    var t := ThanksText(r);
    assert t[|THANKS_PREFIX|..|t| - |THANKS_SUFFIX|] == NatToString(r);
    ParseNatToString(r);
    if ThanksText(r) == ThanksText(r') {
      var t' := ThanksText(r');
      assert |NatToString(r)| == |NatToString(r')|;
      assert t'[|THANKS_PREFIX|..|t'| - |THANKS_SUFFIX|] == NatToString(r');
      NatToStringInjective(r, r');
    }
  }

  class RatingWidget {
    var rating: nat
    var hoverRating: nat
    var message: SubmitMessage
    /** Reset timers started by successful submissions and not yet run. */
    var pendingResets: nat

    ghost predicate Valid()
      reads this
    {
      rating <= TOTAL_STARS && hoverRating <= TOTAL_STARS
    }

    constructor ()
      ensures Valid()
      ensures rating == 0 && hoverRating == 0 && message == NO_MESSAGE && pendingResets == 0
    {
      rating := 0;
      hoverRating := 0;
      message := NO_MESSAGE;
      pendingResets := 0;
    }

    /** `hoverRating || rating`: the hovered star wins while there is one. */
    function CurrentRating(): (r: nat)
      reads this
      ensures hoverRating != 0 ==> r == hoverRating
      ensures hoverRating == 0 ==> r == rating
    {
      if hoverRating != 0 then hoverRating else rating
    }

    /** The selectable stars are lit up to the current rating. */
    function SelectionStars(): (stars: seq<bool>)
      reads this
      requires Valid()
      ensures |stars| == TOTAL_STARS
      ensures CountLit(stars) == CurrentRating()
    {
      StarDisplay(CurrentRating())
    }

    /** A click on star `k`. */
    method ClickStar(k: nat)
      requires Valid() && 1 <= k <= TOTAL_STARS
      modifies this`rating
      ensures Valid() && rating == k
    {
      rating := k;
    }

    /** The pointer enters star `k`. */
    method HoverStar(k: nat)
      requires Valid() && 1 <= k <= TOTAL_STARS
      modifies this`hoverRating
      ensures Valid() && hoverRating == k
    {
      hoverRating := k;
    }

    /** The pointer leaves a star: the display falls back to the chosen rating. */
    method LeaveStar()
      requires Valid()
      modifies this`hoverRating
      ensures Valid() && hoverRating == 0 && CurrentRating() == rating
    {
      hoverRating := 0;
    }

    /** `handleSubmit`: without a chosen rating, an error message and nothing
        else; with one, a thank-you naming it and a reset timer. */
    method Submit()
      requires Valid()
      modifies this`message, this`pendingResets
      ensures Valid()
      ensures old(rating) == 0 ==>
                message == SubmitMessage(CHOOSE_FIRST, "error") && pendingResets == old(pendingResets)
      ensures old(rating) != 0 ==>
                message == SubmitMessage(ThanksText(rating), "success") && pendingResets == old(pendingResets) + 1
    {
      if rating == 0 {
        message := SubmitMessage(CHOOSE_FIRST, "error");
        return;
      }
      message := SubmitMessage(ThanksText(rating), "success");
      pendingResets := pendingResets + 1;
    }

    /** The oldest reset timer runs: the rating and the message are cleared,
        whatever has been chosen or submitted since. */
    method ResetFires()
      requires Valid() && pendingResets > 0
      modifies this`rating, this`message, this`pendingResets
      ensures Valid()
      ensures rating == 0 && message == NO_MESSAGE && pendingResets == old(pendingResets) - 1
    {
      rating := 0;
      message := NO_MESSAGE;
      pendingResets := pendingResets - 1;
    }
  }
}
