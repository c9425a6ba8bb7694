/** `POST /` of the meal-rating routes: a required-field check, then one appended row of
    `meal_rating`. There is no uniqueness check. */
module MealRating {
  import opened JsValues
  import opened Tables

  const MissingFieldsMessage := "Missing required fields (user_id, plan_id, rating)."
  const SubmittedMessage := "Meal rating submitted successfully."
  const SubmitFailedMessage := "Failed to submit meal rating."

  /** The request body; any field may be absent. */
  datatype RatingRequest = RatingRequest(userId: Option<int>, planId: Option<int>, rating: Option<real>, review: Option<string>)

  /** A truthy id: present and not 0. */
  predicate TruthyId(o: Option<int>) {
    o.Some? && o.value != 0
  }

  predicate HasRequiredFields(req: RatingRequest) {
    TruthyId(req.userId) && TruthyId(req.planId) && TruthyNum(req.rating)
  }

  /** `review || null`. */
  function StoredReview(review: Option<string>): (r: Option<string>)
    ensures r.None? <==> !TruthyText(review)
    ensures r.Some? ==> r == review
  {
    if TruthyText(review) then review else None
  }

  /** The reply and the new store; `insertFails` says whether the INSERT throws. */
  function RateEffect(t: Store, req: RatingRequest, insertFails: bool): (Reply<string>, Store) {
    if !HasRequiredFields(req) then (Fail(400, MissingFieldsMessage), t)
    else if insertFails then (Fail(500, SubmitFailedMessage), t)
    else
      var row := RatingRow(req.userId.value, req.planId.value, req.rating.value, StoredReview(req.review));
      (Ok(201, SubmittedMessage), t.(ratings := t.ratings + [row]))
  }

  method SubmitRating(db: Db, req: RatingRequest, insertFails: bool) returns (reply: Reply<string>)
    requires db.Valid()
    modifies db
    ensures (reply, db.Snapshot()) == RateEffect(old(db.Snapshot()), req, insertFails)
    ensures db.Valid()
  {
    if !TruthyId(req.userId) || !TruthyId(req.planId) || !TruthyNum(req.rating) {
      return Fail(400, MissingFieldsMessage);
    }
    if insertFails {
      return Fail(500, SubmitFailedMessage);
    }
    db.ratings := db.ratings + [RatingRow(req.userId.value, req.planId.value, req.rating.value, StoredReview(req.review))];
    reply := Ok(201, SubmittedMessage);
  }

  /** A missing or zero user, plan or rating is 400 and nothing is written; an insert error
      is 500 and nothing is written; otherwise exactly one row holding the request's values
      is appended, an empty or absent review stored as NULL, and 201 is sent. No other table
      changes. */
  lemma RateMeaning(t: Store, req: RatingRequest, insertFails: bool)
    ensures var (reply, t') := RateEffect(t, req, insertFails);
            && (reply == Fail(400, "Missing required fields (user_id, plan_id, rating).") <==>
                  req.userId.None? || req.userId == Some(0) || req.planId.None? || req.planId == Some(0)
                  || req.rating.None? || req.rating == Some(0.0))
            && (reply.Fail? ==> t' == t)
            && (HasRequiredFields(req) && insertFails ==> reply == Fail(500, "Failed to submit meal rating."))
            && (reply.Ok? <==> HasRequiredFields(req) && !insertFails)
            && (reply.Ok? ==>
                  reply.status == 201
                  && |t'.ratings| == |t.ratings| + 1 && t'.ratings[..|t.ratings|] == t.ratings
                  && var row := t'.ratings[|t.ratings|];
                     Some(row.userId) == req.userId && Some(row.planId) == req.planId && Some(row.rating) == req.rating
                     && row.review == (if req.review.Some? && req.review.value != "" then req.review else None))
            && t'.(ratings := t.ratings) == t
  {
  }

  /** Rating the same meal twice keeps both rows. */
  lemma RatingTwiceKeepsBoth(t: Store, req: RatingRequest)
    requires HasRequiredFields(req)
    ensures var t1 := RateEffect(t, req, false).1;
            var t2 := RateEffect(t1, req, false).1;
            var row := t1.ratings[|t.ratings|];
            t2.ratings == t.ratings + [row, row]
  {
  }
}
