/**
 * The review model of the accounts app (accounts_app/models.py). It has the
 * same fields and the same validation as the menu's review
 * (`Catalog.RatingErrors`), but its `update` treats a rating of 0 like an
 * absent one, as Python's `rating or self.rating` does.
 */
module AccountModels {
  import opened Wrappers
  import opened Catalog

  /** `Rating.update`: title, text and rating each replaced only by a truthy value. */
  function AccountRatingUpdated(r0: ProductRating, title: Option<string>, text: Option<string>, rating: Option<int>)
    : (r: ProductRating)
    ensures r.title == OrText(title, r0.title) && r.text == OrText(text, r0.text)
    ensures r.rating == OrNumber(rating, r0.rating)
    ensures r.product == r0.product && r.user == r0.user
  {
    r0.(title := OrText(title, r0.title), text := OrText(text, r0.text), rating := OrNumber(rating, r0.rating))
  }

  /**
   * A valid review stays valid through an update whose rating is absent,
   * zero or from 1 to 5: empty texts and a zero rating keep the old values.
   */
  lemma UpdateKeepsValidReview(r0: ProductRating, title: Option<string>, text: Option<string>, rating: Option<int>)
    requires RatingErrors(r0.title, r0.text, r0.rating) == map[]
    requires rating.None? || 0 <= rating.value <= 5
    ensures var r := AccountRatingUpdated(r0, title, text, rating);
      RatingErrors(r.title, r.text, r.rating) == map[]
  {
    RatingAccepted(r0.title, r0.text, r0.rating);
    var r := AccountRatingUpdated(r0, title, text, rating);
    RatingAccepted(r.title, r.text, r.rating);
  }

  /** A rating of 0 leaves this review alone, where the menu's review stores it. */
  lemma ZeroRatingIsIgnored(r0: ProductRating)
    ensures AccountRatingUpdated(r0, None, None, Some(0)) == r0
    ensures RatingUpdated(r0, None, None, Some(0)).rating == 0
  {
  }

  /** The review table of the accounts app. */
  class AccountRatings {
    var rows: seq<ProductRating>

    constructor ()
      ensures rows == []
    {
      rows := [];
    }

    /** `Rating.new`: the review is created only when validation reports no error. */
    method New(title: string, text: string, rating: int, product: int, user: int)
      returns (created: bool, errors: Option<map<string, string>>)
      modifies this
      ensures created <==> RatingErrors(title, text, rating) == map[]
      ensures !created ==> errors == Some(RatingErrors(title, text, rating)) && rows == old(rows)
      ensures created ==> errors.None? && rows == old(rows) + [ProductRating(title, text, rating, product, user)]
    {
      var errs := RatingErrors(title, text, rating);
      if |errs| > 0 {
        assert errs != map[];
        return false, Some(errs);
      }
      assert errs.Keys == {};
      rows := rows + [ProductRating(title, text, rating, product, user)];
      created, errors := true, None;
    }

    /** `Rating.update` followed by `save()`. */
    method Update(i: int, title: Option<string>, text: Option<string>, rating: Option<int>)
      requires 0 <= i < |rows|
      modifies this
      ensures rows == old(rows)[i := AccountRatingUpdated(old(rows)[i], title, text, rating)]
    {
      rows := rows[i := AccountRatingUpdated(rows[i], title, text, rating)];
    }
  }
}
