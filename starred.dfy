/** The starred-meals ledger: each user's set of starred plan ids, kept in the
    `starred_meals` table in the order the stars were given. Every route runs behind the
    bearer-token middleware and takes the user id from the verified token. */
module Starred {
  import opened JsValues
  import opened Text
  import opened Tables
  import Auth

  const AlreadyStarredMessage := "Meal already starred"
  const StarredMessage := "Meal starred successfully"
  const NotStarredMessage := "Starred meal not found"
  const UnstarredMessage := "Meal unstarred successfully"
  const UnauthorizedMessage := "Unauthorized"

  /** `SELECT * FROM starred_meals WHERE user_id = ? AND plan_id = ?` finds a row. */
  predicate IsStarred(starred: seq<StarRow>, userId: int, planId: int) {
    StarRow(userId, planId) in starred
  }

  /** No pair is recorded twice. */
  predicate Distinct(starred: seq<StarRow>) {
    forall i, j :: 0 <= i < j < |starred| ==> starred[i] != starred[j]
  }

  /** `DELETE FROM starred_meals WHERE user_id = ? AND plan_id = ?`: every other row stays,
      in order; `affectedRows` is the difference in length. */
  function WithoutStar(starred: seq<StarRow>, userId: int, planId: int): (r: seq<StarRow>)
    ensures forall s :: s in r <==> s in starred && s != StarRow(userId, planId)
    ensures |r| <= |starred|
    ensures |r| == |starred| <==> !IsStarred(starred, userId, planId)
  {
    if starred == [] then []
    else
      var rest := WithoutStar(starred[1..], userId, planId);
      assert forall s :: s in starred <==> s == starred[0] || s in starred[1..];
      if starred[0] == StarRow(userId, planId) then rest else [starred[0]] + rest
  }

  /** `POST /star/:planId` once the middleware has set the user. */
  function StarEffect(t: Store, userId: int, planId: int): (Reply<string>, Store) {
    if IsStarred(t.starred, userId, planId) then (Fail(400, AlreadyStarredMessage), t)
    else (Ok(201, StarredMessage), t.(starred := t.starred + [StarRow(userId, planId)]))
  }

  /** `DELETE /unstar/:planId`: the delete always runs; no affected row is 404. */
  function UnstarEffect(t: Store, userId: int, planId: int): (Reply<string>, Store) {
    var remaining := WithoutStar(t.starred, userId, planId);
    var t' := t.(starred := remaining);
    if |t.starred| - |remaining| == 0 then (Fail(404, NotStarredMessage), t')
    else (Ok(200, UnstarredMessage), t')
  }

  /** `GET /check/:planId`: `{isStarred: rows.length > 0}`. */
  function CheckEffect(t: Store, userId: int, planId: int): Reply<bool> {
    Ok(200, IsStarred(t.starred, userId, planId))
  }

  method Star(db: Db, userId: int, planId: int) returns (reply: Reply<string>)
    requires db.Valid()
    modifies db
    ensures (reply, db.Snapshot()) == StarEffect(old(db.Snapshot()), userId, planId)
    ensures db.Valid()
  {
    if IsStarred(db.starred, userId, planId) {
      return Fail(400, AlreadyStarredMessage);
    }
    db.starred := db.starred + [StarRow(userId, planId)];
    reply := Ok(201, StarredMessage);
  }

  method Unstar(db: Db, userId: int, planId: int) returns (reply: Reply<string>)
    requires db.Valid()
    modifies db
    ensures (reply, db.Snapshot()) == UnstarEffect(old(db.Snapshot()), userId, planId)
    ensures db.Valid()
  {
    var before := |db.starred|;
    db.starred := WithoutStar(db.starred, userId, planId);
    var affectedRows := before - |db.starred|;
    if affectedRows == 0 {
      return Fail(404, NotStarredMessage);
    }
    reply := Ok(200, UnstarredMessage);
  }

  /** One row of `GET /user/:userId`: `mp.*, r.rec_name, r.image_url` and then
      `n.calories, n.protein, n.carbs, n.fats`. The nutrition columns share their names with
      the plan's copied columns and come later, so they replace them in the row object:
      NULL when the recipe has no nutrition row. */
  datatype StarredListing = StarredListing(
    planId: int, userId: int, recipeId: int, mealDate: int, mealType: string,
    recName: string, imageUrl: string,
    calories: Option<real>, protein: Option<real>, carbs: Option<real>, fats: Option<real>)

  function StarredRow(p: MealPlanRow, r: RecipeRow, nutrition: map<int, NutritionRow>): StarredListing {
    if r.apiRecipeId in nutrition then
      var n := nutrition[r.apiRecipeId];
      StarredListing(p.planId, p.userId, p.recipeId, p.mealDate, p.mealType, r.name, r.imageUrl,
                     Some(n.calories), Some(n.protein), Some(n.carbs), Some(n.fats))
    else
      StarredListing(p.planId, p.userId, p.recipeId, p.mealDate, p.mealType, r.name, r.imageUrl,
                     None, None, None, None)
  }

  /** `JOIN recipes r ON mp.recipe_id = r.recipe_id LEFT JOIN nutrition n ...` for one plan row. */
  function RecipeJoin(p: MealPlanRow, recipes: seq<RecipeRow>, nutrition: map<int, NutritionRow>): (r: seq<StarredListing>)
    ensures forall x :: x in r <==> exists rr :: rr in recipes && rr.recipeId == p.recipeId && x == StarredRow(p, rr, nutrition)
  {
    if recipes == [] then []
    else
      var rest := RecipeJoin(p, recipes[1..], nutrition);
      assert forall rr :: rr in recipes <==> rr == recipes[0] || rr in recipes[1..];
      (if recipes[0].recipeId == p.recipeId then [StarredRow(p, recipes[0], nutrition)] else []) + rest
  }

  /** `JOIN meal_plans mp ON sm.plan_id = mp.plan_id` and onwards for one star. */
  function PlanJoin(planId: int, plans: seq<MealPlanRow>, recipes: seq<RecipeRow>, nutrition: map<int, NutritionRow>): (r: seq<StarredListing>)
    ensures forall x :: x in r <==>
              exists p, rr :: p in plans && p.planId == planId && rr in recipes && rr.recipeId == p.recipeId && x == StarredRow(p, rr, nutrition)
  {
    if plans == [] then []
    else
      var rest := PlanJoin(planId, plans[1..], recipes, nutrition);
      assert forall p :: p in plans <==> p == plans[0] || p in plans[1..];
      (if plans[0].planId == planId then RecipeJoin(plans[0], recipes, nutrition) else []) + rest
  }

  /** The joined rows of the given stars, star by star. */
  function JoinStars(stars: seq<StarRow>, plans: seq<MealPlanRow>, recipes: seq<RecipeRow>, nutrition: map<int, NutritionRow>): (r: seq<StarredListing>)
    ensures forall x :: x in r <==>
              exists s, p, rr :: s in stars && p in plans && p.planId == s.planId && rr in recipes && rr.recipeId == p.recipeId
                                 && x == StarredRow(p, rr, nutrition)
  {
    if stars == [] then []
    else
      var rest := JoinStars(stars[1..], plans, recipes, nutrition);
      assert forall s :: s in stars <==> s == stars[0] || s in stars[1..];
      PlanJoin(stars[0].planId, plans, recipes, nutrition) + rest
  }

  /** `WHERE sm.user_id = ? ORDER BY sm.starred_at DESC`: the user's stars, latest first. */
  function NewestFirst(starred: seq<StarRow>, userId: int): (r: seq<StarRow>)
    ensures forall s :: s in r <==> s in starred && s.userId == userId
  {
    if starred == [] then []
    else
      var n := |starred| - 1;
      var rest := NewestFirst(starred[..n], userId);
      assert forall s :: s in starred <==> s == starred[n] || s in starred[..n];
      (if starred[n].userId == userId then [starred[n]] else []) + rest
  }

  /** The rows of `GET /user/:userId` for that user. */
  function ListStarred(t: Store, userId: int): seq<StarredListing> {
    JoinStars(NewestFirst(t.starred, userId), t.mealPlans, t.recipes, t.nutrition)
  }

  /** `GET /user/:userId`: 403 unless the token's user is `parseInt` of the path. */
  function ListEffect(t: Store, tokenUser: int, pathUserId: string): Reply<seq<StarredListing>> {
    if ParseInt(pathUserId) != Some(tokenUser) then Fail(403, UnauthorizedMessage)
    else Ok(200, ListStarred(t, tokenUser))
  }

  /** The routes behind the middleware: a denial is sent as the reply and nothing changes. */
  function StarRoute(t: Store, header: Option<string>, verify: string -> Option<Auth.Claims>, planId: int): (Reply<string>, Store) {
    match Auth.Authenticate(header, verify)
    case Deny(status, message) => (Fail(status, message), t)
    case Next(userId) => StarEffect(t, userId, planId)
  }

  function UnstarRoute(t: Store, header: Option<string>, verify: string -> Option<Auth.Claims>, planId: int): (Reply<string>, Store) {
    match Auth.Authenticate(header, verify)
    case Deny(status, message) => (Fail(status, message), t)
    case Next(userId) => UnstarEffect(t, userId, planId)
  }

  function CheckRoute(t: Store, header: Option<string>, verify: string -> Option<Auth.Claims>, planId: int): Reply<bool> {
    match Auth.Authenticate(header, verify)
    case Deny(status, message) => Fail(status, message)
    case Next(userId) => CheckEffect(t, userId, planId)
  }

  function ListRoute(t: Store, header: Option<string>, verify: string -> Option<Auth.Claims>, pathUserId: string): Reply<seq<StarredListing>> {
    match Auth.Authenticate(header, verify)
    case Deny(status, message) => Fail(status, message)
    case Next(userId) => ListEffect(t, userId, pathUserId)
  }

  /** The middleware followed by the star handler. */
  method StarMeal(db: Db, header: Option<string>, verify: string -> Option<Auth.Claims>, planId: int) returns (reply: Reply<string>)
    requires db.Valid()
    modifies db
    ensures (reply, db.Snapshot()) == StarRoute(old(db.Snapshot()), header, verify, planId)
    ensures db.Valid()
  {
    match Auth.Authenticate(header, verify)
    case Deny(status, message) =>
      reply := Fail(status, message);
    case Next(userId) =>
      reply := Star(db, userId, planId);
  }

  /** The middleware followed by the unstar handler. */
  method UnstarMeal(db: Db, header: Option<string>, verify: string -> Option<Auth.Claims>, planId: int) returns (reply: Reply<string>)
    requires db.Valid()
    modifies db
    ensures (reply, db.Snapshot()) == UnstarRoute(old(db.Snapshot()), header, verify, planId)
    ensures db.Valid()
  {
    match Auth.Authenticate(header, verify)
    case Deny(status, message) =>
      reply := Fail(status, message);
    case Next(userId) =>
      reply := Unstar(db, userId, planId);
  }

  /** Starring is a guarded insert: a present pair is 400 and nothing changes; an absent one
      is added as the newest row, 201, and no other table changes. */
  lemma StarMeaning(t: Store, userId: int, planId: int)
    ensures var (reply, t') := StarEffect(t, userId, planId);
            && (IsStarred(t.starred, userId, planId) <==> reply == Fail(400, "Meal already starred"))
            && (IsStarred(t.starred, userId, planId) ==> t' == t)
            && (!IsStarred(t.starred, userId, planId) ==>
                  reply == Ok(201, "Meal starred successfully")
                  && t'.starred[..|t.starred|] == t.starred && |t'.starred| == |t.starred| + 1
                  && t'.starred[|t.starred|] == StarRow(userId, planId))
            && IsStarred(t'.starred, userId, planId)
            && t'.(starred := t.starred) == t
  {
  }

  /** Unstarring removes the caller's pair for that plan and nothing else; when the pair is
      absent the reply is 404 and the table is as it was. */
  lemma {:induction false} UnstarMeaning(t: Store, userId: int, planId: int)
    ensures var (reply, t') := UnstarEffect(t, userId, planId);
            && (IsStarred(t.starred, userId, planId) <==> reply == Ok(200, "Meal unstarred successfully"))
            && (!IsStarred(t.starred, userId, planId) ==> reply == Fail(404, "Starred meal not found") && t' == t)
            && (forall s :: s in t'.starred <==> s in t.starred && s != StarRow(userId, planId))
            && !IsStarred(t'.starred, userId, planId)
            && t'.(starred := t.starred) == t
  {
    if !IsStarred(t.starred, userId, planId) {
      AbsentUnchanged(t.starred, userId, planId);
    }
  }

  /** Deleting a pair that is not there leaves the rows exactly as they were. */
  lemma {:induction false} AbsentUnchanged(starred: seq<StarRow>, userId: int, planId: int)
    requires !IsStarred(starred, userId, planId)
    ensures WithoutStar(starred, userId, planId) == starred
  {
    if starred != [] {
      assert starred[1..] == starred[1..] && starred[0] in starred;
      AbsentUnchanged(starred[1..], userId, planId);
    }
  }

  /** Deleting keeps the remaining pairs distinct, and on a distinct table removes exactly
      one row when the pair is present. */
  lemma {:induction false} WithoutStarDistinct(starred: seq<StarRow>, userId: int, planId: int)
    requires Distinct(starred)
    ensures Distinct(WithoutStar(starred, userId, planId))
    ensures IsStarred(starred, userId, planId) ==> |WithoutStar(starred, userId, planId)| == |starred| - 1
  {
    if starred != [] {
      var rest := WithoutStar(starred[1..], userId, planId);
      assert Distinct(starred[1..]) by {
        forall i, j | 0 <= i < j < |starred[1..]| ensures starred[1..][i] != starred[1..][j] {
          assert starred[i + 1] != starred[j + 1];
        }
      }
      WithoutStarDistinct(starred[1..], userId, planId);
      assert starred[0] !in starred[1..] by {
        forall k | 0 <= k < |starred[1..]| ensures starred[1..][k] != starred[0] {
          assert starred[0] != starred[k + 1];
        }
      }
      if starred[0] == StarRow(userId, planId) {
        AbsentUnchanged(starred[1..], userId, planId);
      } else {
        assert starred[0] !in rest;
        assert IsStarred(starred, userId, planId) ==> IsStarred(starred[1..], userId, planId);
        var r := [starred[0]] + rest;
        forall i, j | 0 <= i < j < |r| ensures r[i] != r[j] {
          if i == 0 {
            assert r[j] == rest[j - 1];
          } else {
            assert r[i] == rest[i - 1] && r[j] == rest[j - 1];
          }
        }
      }
    }
  }

  /** Run one request after another, each pair stays recorded at most once. */
  lemma LedgerStaysDistinct(t: Store, userId: int, planId: int)
    requires Distinct(t.starred)
    ensures Distinct(StarEffect(t, userId, planId).1.starred)
    ensures Distinct(UnstarEffect(t, userId, planId).1.starred)
  {
    WithoutStarDistinct(t.starred, userId, planId);
    var s := t.starred + [StarRow(userId, planId)];
    if !IsStarred(t.starred, userId, planId) {
      forall i, j | 0 <= i < j < |s| ensures s[i] != s[j] {
        if j == |t.starred| {
          assert s[i] == t.starred[i];
        } else {
          assert s[i] == t.starred[i] && s[j] == t.starred[j];
        }
      }
    }
  }

  /** Starring an unstarred meal and then unstarring it restores the store exactly. */
  lemma StarThenUnstar(t: Store, userId: int, planId: int)
    requires !IsStarred(t.starred, userId, planId)
    ensures var (r1, t1) := StarEffect(t, userId, planId);
            var (r2, t2) := UnstarEffect(t1, userId, planId);
            r1.Ok? && r2 == Ok(200, "Meal unstarred successfully") && t2 == t
  {
    WithoutStarAppend(t.starred, StarRow(userId, planId), userId, planId);
    AbsentUnchanged(t.starred, userId, planId);
  }

  /** Deleting from a table with one more row at the end. */
  lemma {:induction false} WithoutStarAppend(starred: seq<StarRow>, s: StarRow, userId: int, planId: int)
    ensures WithoutStar(starred + [s], userId, planId)
            == WithoutStar(starred, userId, planId) + (if s == StarRow(userId, planId) then [] else [s])
  {
    if starred != [] {
      assert (starred + [s])[1..] == starred[1..] + [s];
      WithoutStarAppend(starred[1..], s, userId, planId);
    }
  }

  /** `check` answers membership of the token user's pair; it is true after a star of that
      meal and false after an unstar of it. */
  lemma CheckMeaning(t: Store, userId: int, planId: int)
    ensures CheckEffect(t, userId, planId) == Ok(200, StarRow(userId, planId) in t.starred)
    ensures CheckEffect(StarEffect(t, userId, planId).1, userId, planId) == Ok(200, true)
    ensures CheckEffect(UnstarEffect(t, userId, planId).1, userId, planId) == Ok(200, false)
  {
  }

  /** Star, unstar and check act for the user the token names, and for no one when the
      middleware denies: the path cannot choose the user. */
  lemma RoutesActForTokenUser(t: Store, header: Option<string>, verify: string -> Option<Auth.Claims>, planId: int)
    ensures match Auth.Authenticate(header, verify)
            case Deny(status, message) =>
              && StarRoute(t, header, verify, planId) == (Fail(status, message), t)
              && UnstarRoute(t, header, verify, planId) == (Fail(status, message), t)
              && CheckRoute(t, header, verify, planId) == Fail(status, message)
              && status == 401
            case Next(userId) =>
              && StarRoute(t, header, verify, planId) == StarEffect(t, userId, planId)
              && UnstarRoute(t, header, verify, planId) == UnstarEffect(t, userId, planId)
              && CheckRoute(t, header, verify, planId) == CheckEffect(t, userId, planId)
  {
  }

  /** The listing holds exactly one row per (star of the user, plan row with that id, recipe
      of that plan), so stars of plans that no longer exist are dropped; it is 403 for any
      other path id. */
  lemma ListMeaning(t: Store, tokenUser: int, pathUserId: string)
    ensures var r := ListEffect(t, tokenUser, pathUserId);
            && (r.Fail? <==> ParseInt(pathUserId) != Some(tokenUser))
            && (r.Fail? ==> r == Fail(403, "Unauthorized"))
            && (r.Ok? ==> r.status == 200)
            && (r.Ok? ==> forall x :: x in r.body <==>
                    exists p: MealPlanRow, rr: RecipeRow :: StarRow(tokenUser, p.planId) in t.starred && p in t.mealPlans
                                    && rr in t.recipes && rr.recipeId == p.recipeId
                                    && x == StarredRow(p, rr, t.nutrition))
  {
    if ParseInt(pathUserId) == Some(tokenUser) {
      var body := ListStarred(t, tokenUser);
      forall x ensures x in body <==>
                    exists p: MealPlanRow, rr: RecipeRow :: StarRow(tokenUser, p.planId) in t.starred && p in t.mealPlans
                                    && rr in t.recipes && rr.recipeId == p.recipeId
                                    && x == StarredRow(p, rr, t.nutrition)
      {
        if x in body {
          var s, p, rr :| s in NewestFirst(t.starred, tokenUser) && p in t.mealPlans && p.planId == s.planId
                          && rr in t.recipes && rr.recipeId == p.recipeId && x == StarredRow(p, rr, t.nutrition);
          assert s == StarRow(tokenUser, p.planId);
        }
        if exists p: MealPlanRow, rr: RecipeRow :: StarRow(tokenUser, p.planId) in t.starred && p in t.mealPlans
                           && rr in t.recipes && rr.recipeId == p.recipeId && x == StarredRow(p, rr, t.nutrition) {
          var p: MealPlanRow, rr: RecipeRow :| StarRow(tokenUser, p.planId) in t.starred && p in t.mealPlans
                       && rr in t.recipes && rr.recipeId == p.recipeId && x == StarredRow(p, rr, t.nutrition);
          assert StarRow(tokenUser, p.planId) in NewestFirst(t.starred, tokenUser);
        }
      }
    }
  }

  /** A meal just starred is listed first, ahead of everything listed before. */
  lemma NewestStarListedFirst(t: Store, userId: int, planId: int)
    requires !IsStarred(t.starred, userId, planId)
    ensures ListStarred(StarEffect(t, userId, planId).1, userId)
            == PlanJoin(planId, t.mealPlans, t.recipes, t.nutrition) + ListStarred(t, userId)
  {
    var s := t.starred + [StarRow(userId, planId)];
    assert s[..|s| - 1] == t.starred;
    var stars := NewestFirst(s, userId);
    assert stars == [StarRow(userId, planId)] + NewestFirst(t.starred, userId);
    assert stars[1..] == NewestFirst(t.starred, userId);
  }

  /** After an unstar no listed row belongs to that plan id. */
  lemma UnstarredNotListed(t: Store, userId: int, planId: int)
    ensures forall x :: x in ListStarred(UnstarEffect(t, userId, planId).1, userId) ==> x.planId != planId
  {
    var t' := UnstarEffect(t, userId, planId).1;
    forall x | x in ListStarred(t', userId) ensures x.planId != planId {
      var s, p, rr :| s in NewestFirst(t'.starred, userId) && p in t'.mealPlans && p.planId == s.planId
                      && rr in t'.recipes && rr.recipeId == p.recipeId && x == StarredRow(p, rr, t'.nutrition);
      assert s != StarRow(userId, planId);
    }
  }
}
