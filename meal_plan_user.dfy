/** `GET /user/:userId` of the meal plan routes: the user's plan rows joined with their
    recipes, by date and then by slot, `FIELD(meal_type, 'breakfast', 'lunch', 'dinner')`
    putting any other slot (a snack) first within its day. */
module MealPlanUser {
  import opened JsValues
  import opened Tables

  const NoPlanMessage := "No meal plan found for this user."

  /** One row of the answer: the plan row's columns with the recipe's name and image. */
  datatype PlanListing = PlanListing(
    planId: int, mealDate: int, mealType: string,
    calories: real, protein: real, carbs: real, fats: real,
    recName: string, imageUrl: string)

  function Listing(p: MealPlanRow, r: RecipeRow): PlanListing {
    PlanListing(p.planId, p.mealDate, p.mealType, p.calories, p.protein, p.carbs, p.fats, r.name, r.imageUrl)
  }

  /** `FIELD(meal_type, 'breakfast', 'lunch', 'dinner')`: the 1-based position of the value
      in that list, 0 for any value not in it. */
  function FieldRank(mealType: string): (r: nat)
    ensures r <= 3
    ensures r == 0 <==> mealType != "breakfast" && mealType != "lunch" && mealType != "dinner"
    ensures mealType == "breakfast" ==> r == 1
    ensures mealType == "lunch" ==> r == 2
    ensures mealType == "dinner" ==> r == 3
  {
    if mealType == "breakfast" then 1
    else if mealType == "lunch" then 2
    else if mealType == "dinner" then 3
    else 0
  }

  /** `ORDER BY meal_date ASC, FIELD(...)`: `a` may come before `b`. */
  predicate ListedBefore(a: PlanListing, b: PlanListing) {
    a.mealDate < b.mealDate || (a.mealDate == b.mealDate && FieldRank(a.mealType) <= FieldRank(b.mealType))
  }

  predicate Ordered(s: seq<PlanListing>) {
    forall i, j :: 0 <= i < j < |s| ==> ListedBefore(s[i], s[j])
  }

  /** The recipes `JOIN recipes r ON meal_plans.recipe_id = r.recipe_id` pairs with one plan row. */
  function JoinRecipes(p: MealPlanRow, recipes: seq<RecipeRow>): (r: seq<PlanListing>)
    ensures forall x :: x in r <==> exists rr :: rr in recipes && rr.recipeId == p.recipeId && x == Listing(p, rr)
  {
    if recipes == [] then []
    else
      var rest := JoinRecipes(p, recipes[1..]);
      assert forall rr :: rr in recipes[1..] ==> rr in recipes;
      assert forall rr :: rr in recipes ==> rr == recipes[0] || rr in recipes[1..];
      (if recipes[0].recipeId == p.recipeId then [Listing(p, recipes[0])] else []) + rest
  }

  /** `... WHERE meal_plans.user_id = ?`: every plan row of the user paired with its recipe. */
  function UserRows(plans: seq<MealPlanRow>, recipes: seq<RecipeRow>, userId: int): (r: seq<PlanListing>)
    ensures forall x :: x in r <==>
              exists p, rr :: p in plans && p.userId == userId && rr in recipes && rr.recipeId == p.recipeId && x == Listing(p, rr)
  {
    if plans == [] then []
    else
      var rest := UserRows(plans[1..], recipes, userId);
      assert forall p :: p in plans[1..] ==> p in plans;
      assert forall p :: p in plans ==> p == plans[0] || p in plans[1..];
      (if plans[0].userId == userId then JoinRecipes(plans[0], recipes) else []) + rest
  }

  /** Insertion into an ordered sequence, before the first row it may precede. */
  function InsertListing(x: PlanListing, s: seq<PlanListing>): (r: seq<PlanListing>)
    requires Ordered(s)
    ensures Ordered(r)
    ensures multiset(r) == multiset(s) + multiset{x}
  {
    if s == [] then [x]
    else if ListedBefore(x, s[0]) then
      assert forall j :: 0 <= j < |s| ==> ListedBefore(x, s[j]) by {
        forall j | 0 <= j < |s| ensures ListedBefore(x, s[j]) {
          if j > 0 { assert ListedBefore(s[0], s[j]); }
        }
      }
      [x] + s
    else
      var rest := InsertListing(x, s[1..]);
      assert s == [s[0]] + s[1..];
      assert forall k :: 0 <= k < |rest| ==> ListedBefore(s[0], rest[k]) by {
        forall k | 0 <= k < |rest| ensures ListedBefore(s[0], rest[k]) {
          assert rest[k] in multiset(rest);
          assert rest[k] == x || rest[k] in s[1..];
        }
      }
      [s[0]] + rest
  }

  /** The rows in the query's order; rows the order does not separate keep their join order. */
  function SortListings(s: seq<PlanListing>): (r: seq<PlanListing>)
    ensures Ordered(r)
    ensures multiset(r) == multiset(s)
  {
    if s == [] then []
    else
      assert s == [s[0]] + s[1..];
      InsertListing(s[0], SortListings(s[1..]))
  }

  /** The reply to `GET /user/:userId`. */
  function UserPlan(t: Store, userId: int): Reply<seq<PlanListing>> {
    var rows := SortListings(UserRows(t.mealPlans, t.recipes, userId));
    if |rows| == 0 then Fail(404, NoPlanMessage) else Ok(200, rows)
  }

  /** The answer lists exactly the user's plan rows that join with a recipe, each once per
      matching recipe, in the query's order; with no such row it is 404. */
  lemma UserPlanMeaning(t: Store, userId: int)
    ensures var r := UserPlan(t, userId);
            && (r.Fail? <==> forall p, rr :: p in t.mealPlans && p.userId == userId && rr in t.recipes ==> rr.recipeId != p.recipeId)
            && (r.Fail? ==> r == Fail(404, NoPlanMessage))
            && (r.Ok? ==> r.status == 200 && Ordered(r.body)
                          && multiset(r.body) == multiset(UserRows(t.mealPlans, t.recipes, userId)))
  {
    var joined := UserRows(t.mealPlans, t.recipes, userId);
    var rows := SortListings(joined);
    assert |rows| == |joined| by {
      assert |multiset(rows)| == |multiset(joined)|;
    }
    if |joined| > 0 {
      assert joined[0] in joined;
    } else {
      forall p, rr | p in t.mealPlans && p.userId == userId && rr in t.recipes
        ensures rr.recipeId != p.recipeId || Listing(p, rr) in joined
      {
      }
    }
  }

  /** Days come in ascending order, and within a day a slot outside breakfast, lunch and
      dinner (a snack) is never listed after one of those three. */
  lemma SnackListedFirstInItsDay(t: Store, userId: int, i: int, j: int)
    requires UserPlan(t, userId).Ok?
    requires 0 <= i < j < |UserPlan(t, userId).body|
    ensures var b := UserPlan(t, userId).body;
            && b[i].mealDate <= b[j].mealDate
            && (b[i].mealDate == b[j].mealDate && FieldRank(b[j].mealType) == 0 ==> FieldRank(b[i].mealType) == 0)
            && (b[i].mealDate == b[j].mealDate && b[j].mealType == "snack" ==> b[i].mealType != "breakfast" && b[i].mealType != "lunch" && b[i].mealType != "dinner")
  {
    var b := UserPlan(t, userId).body;
    assert ListedBefore(b[i], b[j]);
  }

  /** Within one day breakfast is listed before lunch, and lunch before dinner. */
  lemma MealsInDayOrder(t: Store, userId: int, i: int, j: int)
    requires UserPlan(t, userId).Ok?
    requires 0 <= i < j < |UserPlan(t, userId).body|
    requires UserPlan(t, userId).body[i].mealDate == UserPlan(t, userId).body[j].mealDate
    ensures var b := UserPlan(t, userId).body;
            && (b[i].mealType == "lunch" ==> b[j].mealType != "breakfast")
            && (b[i].mealType == "dinner" ==> b[j].mealType != "breakfast" && b[j].mealType != "lunch")
  {
    var b := UserPlan(t, userId).body;
    assert ListedBefore(b[i], b[j]);
  }
}
