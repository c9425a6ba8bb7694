/** `GET /generate-weekly-plan`: validate the user, delete their plan, ask the provider
    for a week at the target calories, then for every day (Monday first) and every meal
    of it upsert the recipe by its external id and add a plan row that snapshots the
    recipe's nutrition. */
module MealPlanGenerate {
  import opened JsValues
  import opened Text
  import opened Tables
  import opened Upstream
  import opened MealPlanValues
  import NutritionCalc

  const GeneratedMessage := "Weekly meal plan generated and saved"
  const GenerationFailedMessage := "Failed to generate meal plan."
  const MissingUserDataMessage := "Missing required user data (weight, height, age, gender, or goal)"

  /** `https://spoonacular.com/recipeImages/${id}-480x360.${imageType}`. */
  function ImageUrl(apiId: int, imageType: string): string {
    ImageBase + IntToString(apiId) + ImageSize + imageType
  }

  const ImageBase := "https://spoonacular.com/recipeImages/"
  const ImageSize := "-480x360."

  /** The nutrition row stored for a fetched widget: every field through `parseValue`. */
  function ParseNutrition(p: NutritionPayload): NutritionRow {
    NutritionRow(ParseValue(p.calories), ParseValue(p.protein), ParseValue(p.carbohydrates), ParseValue(p.fat))
  }

  /** `INSERT INTO meal_plans (...) SELECT ..., n.calories, n.protein, n.carbs, n.fats
      FROM nutrition n WHERE n.api_recipe_id = ?`: one row when the recipe has a
      nutrition row, none otherwise. */
  function AddPlanRow(t: Store, userId: int, recipeId: int, date: int, mealType: string, apiId: int): Store {
    if apiId !in t.nutrition then t
    else
      var n := t.nutrition[apiId];
      t.(mealPlans := t.mealPlans + [MealPlanRow(t.nextPlanId, userId, recipeId, date, mealType, n.calories, n.protein, n.carbs, n.fats)],
         nextPlanId := t.nextPlanId + 1)
  }

  /** Where a run stands: still going, or stopped by an exception with what it wrote. */
  datatype Step = Continue(t: Store) | Abort(t: Store)

  /** The first `n` items, in order, each by `step` with its index; an item that
      aborts ends the run with what was written up to and including it. */
  function Run<X>(t: Store, items: seq<X>, n: nat, step: (Store, nat, X) -> Step): Step
    requires n <= |items|
  {
    if n == 0 then Continue(t)
    else
      match Run(t, items, n - 1, step)
      case Abort(t') => Abort(t')
      case Continue(t') => step(t', n - 1, items[n - 1])
  }

  /** One meal slot. A recipe already stored is reused as it is; a new one gets its row,
      then its nutrition is fetched (a failed fetch throws and stops the run) and stored. */
  function PlaceMeal(t: Store, userId: int, date: int, slot: nat, meal: Meal,
                     fetchNutrition: int -> Option<NutritionPayload>): Step {
    match FindRecipe(t.recipes, meal.id)
    case Some(r) => Continue(AddPlanRow(t, userId, r.recipeId, date, SlotName(slot), meal.id))
    case None =>
      var t1 := InsertRecipe(t, meal.id, meal.title, "", ImageUrl(meal.id, meal.imageType), meal.readyInMinutes, 0);
      match fetchNutrition(meal.id)
      case None => Abort(t1)
      case Some(p) =>
        var t2 := t1.(nutrition := t1.nutrition[meal.id := ParseNutrition(p)]);
        Continue(AddPlanRow(t2, userId, t.nextRecipeId, date, SlotName(slot), meal.id))
  }

  /** The slot step of one day: meal `i` takes slot `i`. */
  function MealStep(userId: int, date: int, fetchNutrition: int -> Option<NutritionPayload>): (Store, nat, Meal) -> Step {
    (t: Store, i: nat, meal: Meal) => PlaceMeal(t, userId, date, i, meal, fetchNutrition)
  }

  /** The first `n` meals of one day, in order. */
  function PlaceMeals(t: Store, userId: int, date: int, meals: seq<Meal>, n: nat,
                      fetchNutrition: int -> Option<NutritionPayload>): Step
    requires n <= |meals|
  {
    Run(t, meals, n, MealStep(userId, date, fetchNutrition))
  }

  /** `mealPlan[dayKey]?.meals || []` for every day key, Monday first. */
  function WeekDays(week: map<string, seq<Meal>>): seq<seq<Meal>> {
    seq(|DayKeys|, d requires 0 <= d < |DayKeys| => if DayKeys[d] in week then week[DayKeys[d]] else [])
  }

  /** The day step of a week: day `k` is dated `startDate + k`. */
  function DayStep(userId: int, startDate: int, fetchNutrition: int -> Option<NutritionPayload>): (Store, nat, seq<Meal>) -> Step {
    (t: Store, k: nat, meals: seq<Meal>) => PlaceMeals(t, userId, startDate + k, meals, |meals|, fetchNutrition)
  }

  /** The first `d` days, in order. */
  function PlaceDays(t: Store, userId: int, startDate: int, days: seq<seq<Meal>>, d: nat,
                     fetchNutrition: int -> Option<NutritionPayload>): Step
    requires d <= |days|
  {
    Run(t, days, d, DayStep(userId, startDate, fetchNutrition))
  }

  /** `DELETE FROM meal_plans WHERE user_id = ?`. */
  function WithoutUser(plans: seq<MealPlanRow>, userId: int): (r: seq<MealPlanRow>)
    ensures forall p :: p in r <==> p in plans && p.userId != userId
    ensures |r| <= |plans|
  {
    if plans == [] then []
    else (if plans[0].userId == userId then [] else [plans[0]]) + WithoutUser(plans[1..], userId)
  }

  function UserBiometrics(u: UserRow): NutritionCalc.Biometrics {
    NutritionCalc.Biometrics(u.weight, u.height, u.age, u.gender, u.goal)
  }

  /** `parseInt(req.query.user_id)`; an absent parameter is NaN. */
  function ParseUserId(param: Option<string>): Option<int> {
    if param.Some? then ParseInt(param.value) else None
  }

  /** The request is past validation: a truthy user id of a known user whose five
      biometric columns are all truthy. */
  ghost predicate Accepted(t: Store, userIdParam: Option<string>) {
    var userId := ParseUserId(userIdParam);
    userId.Some? && userId.value != 0 && userId.value in t.users && NutritionCalc.Complete(UserBiometrics(t.users[userId.value]))
  }

  /** The target the provider is asked for, from the user's row. */
  function UserTarget(u: UserRow): int
    requires NutritionCalc.Complete(UserBiometrics(u))
  {
    NutritionCalc.Round(PlanTargetCalories(u.weight.value, u.height.value, u.age.value, u.gender, u.goal))
  }

  /** The reply and the tables after `GET /generate-weekly-plan`. `provider` answers the
      weekly plan request for a target; `fetchNutrition` the nutrition widget of a recipe. */
  function WeeklyPlanEffect(t: Store, userIdParam: Option<string>, startDate: int,
                            provider: int -> PlanFetch,
                            fetchNutrition: int -> Option<NutritionPayload>): (Reply<string>, Store) {
    var userId := ParseUserId(userIdParam);
    if userId.None? || userId.value == 0 then (Fail(400, "Missing user_id"), t)
    else if userId.value !in t.users then (Fail(404, "User not found"), t)
    else
      var u := t.users[userId.value];
      if !NutritionCalc.Complete(UserBiometrics(u)) then (Fail(400, MissingUserDataMessage), t)
      else
        var purged := t.(mealPlans := WithoutUser(t.mealPlans, userId.value));
        match provider(UserTarget(u))
        case PlanFailed => (Fail(500, GenerationFailedMessage), purged)
        case PlanFetched(None) => (Fail(500, GenerationFailedMessage), purged)
        case PlanFetched(Some(week)) =>
          var days := WeekDays(week);
          match PlaceDays(purged, userId.value, startDate, days, |days|, fetchNutrition)
          case Abort(t') => (Fail(500, GenerationFailedMessage), t')
          case Continue(t') => (Ok(200, GeneratedMessage), t')
  }

  // ---------------------------------------------------------------------------
  // The handler, over the shared database.

  /** One meal slot, statement by statement. */
  method PlaceMealInto(db: Db, userId: int, date: int, slot: nat, meal: Meal,
                       fetchNutrition: int -> Option<NutritionPayload>) returns (aborted: bool)
    modifies db
    ensures PlaceMeal(old(db.Snapshot()), userId, date, slot, meal, fetchNutrition) ==
            (if aborted then Abort(db.Snapshot()) else Continue(db.Snapshot()))
  {
    ghost var t := db.Snapshot();
    var existing := FindRecipe(db.recipes, meal.id);
    var recipeId: int;
    if existing.None? {
      var row := RecipeRow(db.nextRecipeId, meal.id, meal.title, "", ImageUrl(meal.id, meal.imageType), meal.readyInMinutes, 0);
      db.recipes := db.recipes + [row];
      db.nextRecipeId := db.nextRecipeId + 1;
      ghost var t1 := db.Snapshot();
      assert t1 == InsertRecipe(t, meal.id, meal.title, "", ImageUrl(meal.id, meal.imageType), meal.readyInMinutes, 0);
      var payload := fetchNutrition(meal.id);
      if payload.None? {
        return true;
      }
      db.nutrition := db.nutrition[meal.id := ParseNutrition(payload.value)];
      FindAppended(t.recipes, row);
      var inserted := FindRecipe(db.recipes, meal.id);
      recipeId := inserted.value.recipeId;
      assert recipeId == t.nextRecipeId;
    } else {
      recipeId := existing.value.recipeId;
    }
    AddPlanRowInto(db, userId, recipeId, date, SlotName(slot), meal.id);
    return false;
  }

  /** `SELECT ... FROM nutrition WHERE api_recipe_id = ?`, then the `INSERT ... SELECT`
      of the plan row when a nutrition row exists. */
  method AddPlanRowInto(db: Db, userId: int, recipeId: int, date: int, mealType: string, apiId: int)
    modifies db
    ensures db.Snapshot() == AddPlanRow(old(db.Snapshot()), userId, recipeId, date, mealType, apiId)
  {
    if apiId in db.nutrition {
      var n := db.nutrition[apiId];
      db.mealPlans := db.mealPlans + [MealPlanRow(db.nextPlanId, userId, recipeId, date, mealType, n.calories, n.protein, n.carbs, n.fats)];
      db.nextPlanId := db.nextPlanId + 1;
    }
  }

  /** `GET /generate-weekly-plan?user_id=..&start_date=..`. */
  method GenerateWeeklyPlan(db: Db, userIdParam: Option<string>, startDate: int,
                            provider: int -> PlanFetch,
                            fetchNutrition: int -> Option<NutritionPayload>) returns (reply: Reply<string>)
    requires db.Valid()
    modifies db
    ensures (reply, db.Snapshot()) == WeeklyPlanEffect(old(db.Snapshot()), userIdParam, startDate, provider, fetchNutrition)
    ensures db.Valid()
  {
    GenerationKeepsWellFormed(db.Snapshot(), userIdParam, startDate, provider, fetchNutrition);
    var userId := ParseUserId(userIdParam);
    if userId.None? || userId.value == 0 {
      return Fail(400, "Missing user_id");
    }
    var uid := userId.value;
    if uid !in db.users {
      return Fail(404, "User not found");
    }
    var u := db.users[uid];
    if !NutritionCalc.Complete(UserBiometrics(u)) {
      return Fail(400, MissingUserDataMessage);
    }
    db.mealPlans := WithoutUser(db.mealPlans, uid);
    var response := provider(UserTarget(u));
    if response.PlanFailed? || response.week.None? {
      return Fail(500, GenerationFailedMessage);
    }
    var aborted := PlaceWeekInto(db, uid, startDate, WeekDays(response.week.value), fetchNutrition);
    if aborted {
      return Fail(500, GenerationFailedMessage);
    }
    return Ok(200, GeneratedMessage);
  }

  /** The seven days, Monday first, until a meal throws; `days` holds each day's meals
      as WeekDays reads them from the generated week. */
  method PlaceWeekInto(db: Db, userId: int, startDate: int, days: seq<seq<Meal>>,
                       fetchNutrition: int -> Option<NutritionPayload>) returns (aborted: bool)
    modifies db
    ensures PlaceDays(old(db.Snapshot()), userId, startDate, days, |days|, fetchNutrition)
            == if aborted then Abort(db.Snapshot()) else Continue(db.Snapshot())
  {
    ghost var weekStart := db.Snapshot();
    ghost var step := DayStep(userId, startDate, fetchNutrition);
    var dayOffset := 0;
    while dayOffset < |days|
      invariant 0 <= dayOffset <= |days|
      invariant Run(weekStart, days, dayOffset, step) == Continue(db.Snapshot())
    {
      ghost var dayStart := db.Snapshot();
      aborted := PlaceDayInto(db, userId, startDate + dayOffset, days[dayOffset], fetchNutrition);
      RunNext(weekStart, days, dayOffset, step, dayStart);
      if aborted {
        RunAbortPersists(weekStart, days, dayOffset + 1, step);
        return;
      }
      dayOffset := dayOffset + 1;
    }
    return false;
  }

  /** The meals of one day, in order, until one throws. */
  method PlaceDayInto(db: Db, userId: int, date: int, meals: seq<Meal>,
                      fetchNutrition: int -> Option<NutritionPayload>) returns (aborted: bool)
    modifies db
    ensures PlaceMeals(old(db.Snapshot()), userId, date, meals, |meals|, fetchNutrition)
            == if aborted then Abort(db.Snapshot()) else Continue(db.Snapshot())
  {
    ghost var dayStart := db.Snapshot();
    ghost var step := MealStep(userId, date, fetchNutrition);
    var i := 0;
    while i < |meals|
      invariant 0 <= i <= |meals|
      invariant Run(dayStart, meals, i, step) == Continue(db.Snapshot())
    {
      ghost var slotStart := db.Snapshot();
      aborted := PlaceMealInto(db, userId, date, i, meals[i], fetchNutrition);
      RunNext(dayStart, meals, i, step, slotStart);
      if aborted {
        RunAbortPersists(dayStart, meals, i + 1, step);
        return;
      }
      i := i + 1;
    }
    return false;
  }

  lemma RunNext<X>(t: Store, items: seq<X>, n: nat, step: (Store, nat, X) -> Step, reached: Store)
    requires n < |items| && Run(t, items, n, step) == Continue(reached)
    ensures Run(t, items, n + 1, step) == step(reached, n, items[n])
  {
  }

  /** Once an item aborts, the later ones are not run. */
  lemma {:induction false} RunAbortPersists<X>(t: Store, items: seq<X>, n: nat, step: (Store, nat, X) -> Step)
    requires n <= |items| && Run(t, items, n, step).Abort?
    ensures Run(t, items, |items|, step) == Run(t, items, n, step)
    decreases |items| - n
  {
    if n < |items| {
      RunAbortPersists(t, items, n + 1, step);
    }
  }

  // ---------------------------------------------------------------------------
  // What one slot does.

  /** The row a slot appends: the next plan id, the recipe stored under the meal's
      external id, the slot's date and name, and that recipe's nutrition copied. */
  function SlotRow(t: Store, userId: int, date: int, slot: nat, apiId: int): MealPlanRow
    requires FindRecipe(t.recipes, apiId).Some? && apiId in t.nutrition
  {
    var n := t.nutrition[apiId];
    MealPlanRow(t.nextPlanId, userId, FindRecipe(t.recipes, apiId).value.recipeId, date, SlotName(slot), n.calories, n.protein, n.carbs, n.fats)
  }

  /** The recipe upsert of one slot. A stored recipe is reused and nothing about it is
      fetched or written; an absent one gets exactly one recipe row (no instructions,
      cook time 0, prep time `readyInMinutes`, the built image URL) and, when the
      nutrition fetch answers, exactly one nutrition row of parsed values. The slot
      aborts exactly when the recipe was new and the fetch failed, and afterwards the
      recipe is stored either way. */
  lemma RecipeUpsert(t: Store, userId: int, date: int, slot: nat, meal: Meal,
                     fetchNutrition: int -> Option<NutritionPayload>)
    ensures var s := PlaceMeal(t, userId, date, slot, meal, fetchNutrition);
            && (s.Abort? <==> !HasRecipe(t.recipes, meal.id) && fetchNutrition(meal.id).None?)
            && HasRecipe(s.t.recipes, meal.id)
            && (HasRecipe(t.recipes, meal.id) ==> s.t.recipes == t.recipes && s.t.nutrition == t.nutrition)
            && (!HasRecipe(t.recipes, meal.id) ==>
                  s.t.recipes == t.recipes + [RecipeRow(t.nextRecipeId, meal.id, meal.title, "", ImageUrl(meal.id, meal.imageType), meal.readyInMinutes, 0)])
            && (!HasRecipe(t.recipes, meal.id) && fetchNutrition(meal.id).Some? ==>
                  s.t.nutrition == t.nutrition[meal.id := ParseNutrition(fetchNutrition(meal.id).value)])
            && (!HasRecipe(t.recipes, meal.id) && fetchNutrition(meal.id).None? ==> s.t.nutrition == t.nutrition)
  {
    var s := PlaceMeal(t, userId, date, slot, meal, fetchNutrition);
    if !HasRecipe(t.recipes, meal.id) {
      var row := RecipeRow(t.nextRecipeId, meal.id, meal.title, "", ImageUrl(meal.id, meal.imageType), meal.readyInMinutes, 0);
      assert row in s.t.recipes;
    }
  }

  /** A recipe already stored is never fetched again: the slot does not depend on the
      nutrition oracle at all. */
  lemma ExistingRecipeNotRefetched(t: Store, userId: int, date: int, slot: nat, meal: Meal,
                                   fetch1: int -> Option<NutritionPayload>, fetch2: int -> Option<NutritionPayload>)
    requires HasRecipe(t.recipes, meal.id)
    ensures PlaceMeal(t, userId, date, slot, meal, fetch1) == PlaceMeal(t, userId, date, slot, meal, fetch2)
    ensures PlaceMeal(t, userId, date, slot, meal, fetch1).Continue?
  {
  }

  /** A slot that completes appends exactly one plan row when the meal's recipe has a
      nutrition row afterwards, and that row is `SlotRow`; otherwise the slot is skipped.
      An aborted slot appends nothing. */
  lemma SlotSkippedExactlyWithoutNutrition(t: Store, userId: int, date: int, slot: nat, meal: Meal,
                                           fetchNutrition: int -> Option<NutritionPayload>)
    ensures var s := PlaceMeal(t, userId, date, slot, meal, fetchNutrition);
            && (s.Abort? ==> s.t.mealPlans == t.mealPlans && s.t.nextPlanId == t.nextPlanId)
            && (s.Continue? && meal.id !in s.t.nutrition ==> s.t.mealPlans == t.mealPlans && s.t.nextPlanId == t.nextPlanId)
            && (s.Continue? && meal.id in s.t.nutrition ==>
                  FindRecipe(s.t.recipes, meal.id).Some? &&
                  s.t.mealPlans == t.mealPlans + [SlotRow(s.t, userId, date, slot, meal.id).(planId := t.nextPlanId)] &&
                  s.t.nextPlanId == t.nextPlanId + 1)
  {
    var s := PlaceMeal(t, userId, date, slot, meal, fetchNutrition);
    if FindRecipe(t.recipes, meal.id).None? {
      var row := RecipeRow(t.nextRecipeId, meal.id, meal.title, "", ImageUrl(meal.id, meal.imageType), meal.readyInMinutes, 0);
      FindAppended(t.recipes, row);
    }
  }

  // ---------------------------------------------------------------------------
  // What a run does to the tables.

  const SlotNames: set<string> := {"breakfast", "lunch", "dinner", "snack"}

  /** A plan row a run for `userId` may add: its date in `[lo, hi)`, a named slot, and an
      id no earlier row had. */
  ghost predicate GeneratedRow(p: MealPlanRow, userId: int, lo: int, hi: int, firstId: int) {
    p.userId == userId && lo <= p.mealDate < hi && p.mealType in SlotNames && p.planId >= firstId
  }

  /** `t'` is `t` after some slots of a run for `userId` dated in `[lo, hi)`: users,
      ingredients, stars and ratings are untouched, recipes, nutrition and plans only
      grow, and every added plan row is a `GeneratedRow`. */
  ghost predicate Grows(t: Store, t': Store, userId: int, lo: int, hi: int) {
    && t'.users == t.users && t'.ingredients == t.ingredients
    && t'.starred == t.starred && t'.ratings == t.ratings
    && t.nextRecipeId <= t'.nextRecipeId && t.nextPlanId <= t'.nextPlanId
    && t.recipes <= t'.recipes
    && t.nutrition.Keys <= t'.nutrition.Keys
    && t.mealPlans <= t'.mealPlans
    && (forall i :: |t.mealPlans| <= i < |t'.mealPlans| ==> GeneratedRow(t'.mealPlans[i], userId, lo, hi, t.nextPlanId))
  }

  lemma GrowsRefl(t: Store, userId: int, lo: int, hi: int)
    ensures Grows(t, t, userId, lo, hi)
  {
  }

  lemma GrowsTrans(t1: Store, t2: Store, t3: Store, userId: int, lo: int, hi: int)
    requires Grows(t1, t2, userId, lo, hi) && Grows(t2, t3, userId, lo, hi)
    ensures Grows(t1, t3, userId, lo, hi)
  {
    forall i | |t1.mealPlans| <= i < |t3.mealPlans|
      ensures GeneratedRow(t3.mealPlans[i], userId, lo, hi, t1.nextPlanId)
    {
      if i < |t2.mealPlans| {
        assert t3.mealPlans[i] == t2.mealPlans[i];
      }
    }
  }

  lemma GrowsWiden(t: Store, t': Store, userId: int, lo: int, hi: int, lo': int, hi': int)
    requires Grows(t, t', userId, lo, hi) && lo' <= lo && hi <= hi'
    ensures Grows(t, t', userId, lo', hi')
  {
  }

  lemma AddPlanRowGrows(t: Store, userId: int, recipeId: int, date: int, mealType: string, apiId: int)
    requires mealType in SlotNames
    ensures Grows(t, AddPlanRow(t, userId, recipeId, date, mealType, apiId), userId, date, date + 1)
  {
  }

  /** One slot only grows the store. */
  lemma PlaceMealGrows(t: Store, userId: int, date: int, slot: nat, meal: Meal,
                       fetchNutrition: int -> Option<NutritionPayload>)
    ensures Grows(t, PlaceMeal(t, userId, date, slot, meal, fetchNutrition).t, userId, date, date + 1)
  {
    SlotNaming(slot);
    match FindRecipe(t.recipes, meal.id)
    case Some(r) =>
      AddPlanRowGrows(t, userId, r.recipeId, date, SlotName(slot), meal.id);
    case None =>
      var t1 := InsertRecipe(t, meal.id, meal.title, "", ImageUrl(meal.id, meal.imageType), meal.readyInMinutes, 0);
      assert Grows(t, t1, userId, date, date + 1);
      match fetchNutrition(meal.id)
      case None =>
      case Some(p) =>
        var t2 := t1.(nutrition := t1.nutrition[meal.id := ParseNutrition(p)]);
        assert Grows(t, t2, userId, date, date + 1);
        AddPlanRowGrows(t2, userId, t.nextRecipeId, date, SlotName(slot), meal.id);
        GrowsTrans(t, t2, AddPlanRow(t2, userId, t.nextRecipeId, date, SlotName(slot), meal.id), userId, date, date + 1);
  }

  /** If every step only grows the store within `[lo, hi)`, so does a run of them. */
  lemma {:induction false} RunGrows<X>(t: Store, items: seq<X>, n: nat, step: (Store, nat, X) -> Step,
                                       userId: int, lo: int, hi: int)
    requires n <= |items|
    requires forall s: Store, k: nat, x: X :: k < |items| ==> Grows(s, step(s, k, x).t, userId, lo, hi)
    ensures Grows(t, Run(t, items, n, step).t, userId, lo, hi)
  {
    if n == 0 {
      GrowsRefl(t, userId, lo, hi);
    } else {
      RunGrows(t, items, n - 1, step, userId, lo, hi);
      var prev := Run(t, items, n - 1, step);
      if prev.Continue? {
        GrowsTrans(t, prev.t, step(prev.t, n - 1, items[n - 1]).t, userId, lo, hi);
      }
    }
  }

  /** A day only adds plan rows for `userId` dated that day. */
  lemma PlaceMealsGrows(t: Store, userId: int, date: int, meals: seq<Meal>, n: nat,
                        fetchNutrition: int -> Option<NutritionPayload>)
    requires n <= |meals|
    ensures Grows(t, PlaceMeals(t, userId, date, meals, n, fetchNutrition).t, userId, date, date + 1)
  {
    var step := MealStep(userId, date, fetchNutrition);
    forall s: Store, k: nat, x: Meal | k < |meals|
      ensures Grows(s, step(s, k, x).t, userId, date, date + 1)
    {
      PlaceMealGrows(s, userId, date, k, x, fetchNutrition);
    }
    RunGrows(t, meals, n, step, userId, date, date + 1);
  }

  lemma DayGrows(t: Store, userId: int, date: int, meals: seq<Meal>,
                 fetchNutrition: int -> Option<NutritionPayload>, lo: int, hi: int)
    requires lo <= date < hi
    ensures Grows(t, PlaceMeals(t, userId, date, meals, |meals|, fetchNutrition).t, userId, lo, hi)
  {
    var t' := PlaceMeals(t, userId, date, meals, |meals|, fetchNutrition).t;
    PlaceMealsGrows(t, userId, date, meals, |meals|, fetchNutrition);
    GrowsWiden(t, t', userId, date, date + 1, lo, hi);
  }

  /** The days of a run only add plan rows for `userId` dated from `startDate` to the
      last day. */
  lemma PlaceDaysGrows(t: Store, userId: int, startDate: int, days: seq<seq<Meal>>, d: nat,
                       fetchNutrition: int -> Option<NutritionPayload>)
    requires d <= |days|
    ensures Grows(t, PlaceDays(t, userId, startDate, days, d, fetchNutrition).t, userId, startDate, startDate + |days|)
  {
    var step := DayStep(userId, startDate, fetchNutrition);
    forall s: Store, k: nat, meals: seq<Meal> | k < |days|
      ensures Grows(s, step(s, k, meals).t, userId, startDate, startDate + |days|)
    {
      DayGrows(s, userId, startDate + k, meals, fetchNutrition, startDate, startDate + |days|);
      assert step(s, k, meals) == PlaceMeals(s, userId, startDate + k, meals, |meals|, fetchNutrition);
    }
    RunGrows(t, days, d, step, userId, startDate, startDate + |days|);
  }

  // ---------------------------------------------------------------------------
  // No external id is stored twice.

  lemma PlaceMealKeepsUnique(t: Store, userId: int, date: int, slot: nat, meal: Meal,
                             fetchNutrition: int -> Option<NutritionPayload>)
    requires UniqueApiIds(t.recipes)
    ensures UniqueApiIds(PlaceMeal(t, userId, date, slot, meal, fetchNutrition).t.recipes)
  {
    if !HasRecipe(t.recipes, meal.id) {
      var row := RecipeRow(t.nextRecipeId, meal.id, meal.title, "", ImageUrl(meal.id, meal.imageType), meal.readyInMinutes, 0);
      AppendKeepsUnique(t.recipes, row);
    }
  }

  /** If every step keeps `inv`, so does a run of them. */
  lemma {:induction false} RunKeeps<X>(t: Store, items: seq<X>, n: nat, step: (Store, nat, X) -> Step, inv: Store -> bool)
    requires n <= |items| && inv(t)
    requires forall s: Store, k: nat, x: X :: inv(s) ==> inv(step(s, k, x).t)
    ensures inv(Run(t, items, n, step).t)
  {
    if n > 0 {
      RunKeeps(t, items, n - 1, step, inv);
    }
  }

  lemma PlaceMealsKeepsUnique(t: Store, userId: int, date: int, meals: seq<Meal>, n: nat,
                              fetchNutrition: int -> Option<NutritionPayload>)
    requires n <= |meals| && UniqueApiIds(t.recipes)
    ensures UniqueApiIds(PlaceMeals(t, userId, date, meals, n, fetchNutrition).t.recipes)
  {
    var step := MealStep(userId, date, fetchNutrition);
    forall s: Store, k: nat, x: Meal | UniqueApiIds(s.recipes)
      ensures UniqueApiIds(step(s, k, x).t.recipes)
    {
      PlaceMealKeepsUnique(s, userId, date, k, x, fetchNutrition);
    }
    RunKeeps(t, meals, n, step, (s: Store) => UniqueApiIds(s.recipes));
  }

  /** However many times a recipe is served in a run, it is stored once. */
  lemma PlaceDaysKeepsUnique(t: Store, userId: int, startDate: int, days: seq<seq<Meal>>, d: nat,
                             fetchNutrition: int -> Option<NutritionPayload>)
    requires d <= |days| && UniqueApiIds(t.recipes)
    ensures UniqueApiIds(PlaceDays(t, userId, startDate, days, d, fetchNutrition).t.recipes)
  {
    var step := DayStep(userId, startDate, fetchNutrition);
    forall s: Store, k: nat, meals: seq<Meal> | UniqueApiIds(s.recipes)
      ensures UniqueApiIds(step(s, k, meals).t.recipes)
    {
      PlaceMealsKeepsUnique(s, userId, startDate + k, meals, |meals|, fetchNutrition);
    }
    RunKeeps(t, days, d, step, (s: Store) => UniqueApiIds(s.recipes));
  }

  // ---------------------------------------------------------------------------
  // Keys and counters stay consistent.

  lemma AddPlanRowKeepsWellFormed(t: Store, userId: int, recipeId: int, date: int, mealType: string, apiId: int)
    requires WellFormed(t)
    ensures WellFormed(AddPlanRow(t, userId, recipeId, date, mealType, apiId))
  {
    if apiId in t.nutrition {
      var n := t.nutrition[apiId];
      AppendPlanKeepsWellFormed(t, MealPlanRow(t.nextPlanId, userId, recipeId, date, mealType, n.calories, n.protein, n.carbs, n.fats));
    }
  }

  /** One slot keeps ids unique, counters ahead and nutrition owned by a recipe. */
  lemma PlaceMealKeepsWellFormed(t: Store, userId: int, date: int, slot: nat, meal: Meal,
                                 fetchNutrition: int -> Option<NutritionPayload>)
    requires WellFormed(t)
    ensures WellFormed(PlaceMeal(t, userId, date, slot, meal, fetchNutrition).t)
  {
    match FindRecipe(t.recipes, meal.id)
    case Some(r) =>
      AddPlanRowKeepsWellFormed(t, userId, r.recipeId, date, SlotName(slot), meal.id);
    case None =>
      var row := RecipeRow(t.nextRecipeId, meal.id, meal.title, "", ImageUrl(meal.id, meal.imageType), meal.readyInMinutes, 0);
      var t1 := InsertRecipe(t, meal.id, meal.title, "", ImageUrl(meal.id, meal.imageType), meal.readyInMinutes, 0);
      InsertRecipeKeepsWellFormed(t, meal.id, meal.title, "", ImageUrl(meal.id, meal.imageType), meal.readyInMinutes, 0);
      match fetchNutrition(meal.id)
      case None =>
      case Some(p) =>
        assert row in t1.recipes;
        StoreNutritionKeepsWellFormed(t1, meal.id, ParseNutrition(p));
        AddPlanRowKeepsWellFormed(t1.(nutrition := t1.nutrition[meal.id := ParseNutrition(p)]), userId, t.nextRecipeId, date, SlotName(slot), meal.id);
  }

  lemma PlaceMealsKeepsWellFormed(t: Store, userId: int, date: int, meals: seq<Meal>, n: nat,
                                  fetchNutrition: int -> Option<NutritionPayload>)
    requires n <= |meals| && WellFormed(t)
    ensures WellFormed(PlaceMeals(t, userId, date, meals, n, fetchNutrition).t)
  {
    var step := MealStep(userId, date, fetchNutrition);
    forall s: Store, k: nat, x: Meal | WellFormed(s)
      ensures WellFormed(step(s, k, x).t)
    {
      PlaceMealKeepsWellFormed(s, userId, date, k, x, fetchNutrition);
    }
    RunKeeps(t, meals, n, step, (s: Store) => WellFormed(s));
  }

  lemma PlaceDaysKeepsWellFormed(t: Store, userId: int, startDate: int, days: seq<seq<Meal>>, d: nat,
                                 fetchNutrition: int -> Option<NutritionPayload>)
    requires d <= |days| && WellFormed(t)
    ensures WellFormed(PlaceDays(t, userId, startDate, days, d, fetchNutrition).t)
  {
    var step := DayStep(userId, startDate, fetchNutrition);
    forall s: Store, k: nat, meals: seq<Meal> | WellFormed(s)
      ensures WellFormed(step(s, k, meals).t)
    {
      DayKeepsWellFormed(s, userId, startDate, k, meals, fetchNutrition);
    }
    RunKeeps(t, days, d, step, (s: Store) => WellFormed(s));
  }

  lemma DayKeepsWellFormed(t: Store, userId: int, startDate: int, k: nat, meals: seq<Meal>,
                           fetchNutrition: int -> Option<NutritionPayload>)
    requires WellFormed(t)
    ensures WellFormed(DayStep(userId, startDate, fetchNutrition)(t, k, meals).t)
  {
    PlaceMealsKeepsWellFormed(t, userId, startDate + k, meals, |meals|, fetchNutrition);
  }

  /** Deleting rows keeps plan ids unique and below the counter. */
  lemma {:induction false} WithoutUserKeepsPlanIds(plans: seq<MealPlanRow>, userId: int, next: int)
    requires PlanIdsFresh(plans, next)
    ensures PlanIdsFresh(WithoutUser(plans, userId), next)
  {
    if plans != [] {
      TailPlanIdsFresh(plans, next);
      WithoutUserKeepsPlanIds(plans[1..], userId, next);
      if plans[0].userId != userId {
        ConsPlanIdsFresh(plans, WithoutUser(plans[1..], userId), next);
      }
    }
  }

  lemma TailPlanIdsFresh(plans: seq<MealPlanRow>, next: int)
    requires plans != [] && PlanIdsFresh(plans, next)
    ensures PlanIdsFresh(plans[1..], next)
    ensures forall p :: p in plans[1..] ==> p.planId != plans[0].planId
  {
    var rest := plans[1..];
    forall i, j | 0 <= i < j < |rest|
      ensures rest[i].planId != rest[j].planId
    {
      assert rest[i] == plans[i + 1] && rest[j] == plans[j + 1];
    }
    forall p | p in rest
      ensures p.planId < next && p.planId != plans[0].planId
    {
      var k :| 0 <= k < |rest| && rest[k] == p;
      assert plans[k + 1] == p;
    }
  }

  /** A kept head row in front of kept rows from the rest. */
  lemma ConsPlanIdsFresh(plans: seq<MealPlanRow>, tail: seq<MealPlanRow>, next: int)
    requires plans != [] && PlanIdsFresh(plans, next) && PlanIdsFresh(tail, next)
    requires forall p :: p in tail ==> p in plans[1..]
    requires forall p :: p in plans[1..] ==> p.planId != plans[0].planId
    ensures PlanIdsFresh([plans[0]] + tail, next)
  {
    var r := [plans[0]] + tail;
    forall i, j | 0 <= i < j < |r|
      ensures r[i].planId != r[j].planId
    {
      assert r[j] == tail[j - 1];
      if i > 0 {
        assert r[i] == tail[i - 1];
      } else {
        assert tail[j - 1] in tail;
      }
    }
  }

  /** The route keeps recipe and plan ids unique, its counters ahead of every id, and
      every nutrition row owned by a stored recipe, whatever the provider answers. */
  lemma GenerationKeepsWellFormed(t: Store, userIdParam: Option<string>, startDate: int,
                                  provider: int -> PlanFetch,
                                  fetchNutrition: int -> Option<NutritionPayload>)
    requires WellFormed(t)
    ensures WellFormed(WeeklyPlanEffect(t, userIdParam, startDate, provider, fetchNutrition).1)
  {
    if Accepted(t, userIdParam) {
      var userId := ParseUserId(userIdParam).value;
      var purged := t.(mealPlans := WithoutUser(t.mealPlans, userId));
      WithoutUserKeepsPlanIds(t.mealPlans, userId, t.nextPlanId);
      assert WellFormed(purged);
      match provider(UserTarget(t.users[userId]))
      case PlanFailed =>
      case PlanFetched(None) =>
      case PlanFetched(Some(week)) =>
        var days := WeekDays(week);
        PlaceDaysKeepsWellFormed(purged, userId, startDate, days, |days|, fetchNutrition);
    }
  }

  /** A day the provider left out contributes no rows. */
  lemma MissingDayAddsNothing(t: Store, userId: int, startDate: int, week: map<string, seq<Meal>>, d: nat,
                              fetchNutrition: int -> Option<NutritionPayload>)
    requires d < |DayKeys| && DayKeys[d] !in week
    ensures var days := WeekDays(week);
            PlaceDays(t, userId, startDate, days, d + 1, fetchNutrition) == PlaceDays(t, userId, startDate, days, d, fetchNutrition)
  {
    var days := WeekDays(week);
    var step := DayStep(userId, startDate, fetchNutrition);
    assert days[d] == [];
    match Run(t, days, d, step)
    case Abort(_) =>
    case Continue(reached) =>
      RunNext(t, days, d, step, reached);
      assert step(reached, d, days[d]) == PlaceMeals(reached, userId, startDate + d, [], 0, fetchNutrition) == Continue(reached);
  }

  // ---------------------------------------------------------------------------
  // The route as a whole.

  /** Deleting a user's rows from a concatenation deletes them from each part. */
  lemma {:induction false} WithoutUserAppend(a: seq<MealPlanRow>, b: seq<MealPlanRow>, userId: int)
    ensures WithoutUser(a + b, userId) == WithoutUser(a, userId) + WithoutUser(b, userId)
  {
    if a == [] {
      assert a + b == b;
    } else {
      assert (a + b)[1..] == a[1..] + b;
      WithoutUserAppend(a[1..], b, userId);
    }
  }

  /** Deleting a user's rows twice deletes nothing more. */
  lemma {:induction false} WithoutUserTwice(plans: seq<MealPlanRow>, userId: int)
    ensures WithoutUser(WithoutUser(plans, userId), userId) == WithoutUser(plans, userId)
  {
    if plans != [] {
      var head := if plans[0].userId == userId then [] else [plans[0]];
      WithoutUserAppend(head, WithoutUser(plans[1..], userId), userId);
      WithoutUserTwice(plans[1..], userId);
      assert WithoutUser(head, userId) == head by {
        if head != [] {
          assert head[1..] == [];
        }
      }
    }
  }

  /** A run that starts after the user's rows were deleted leaves the other users' rows
      as they were, and every row of the user is one the run added. */
  lemma PurgeThenGrow(t: Store, t': Store, userId: int, lo: int, hi: int)
    requires forall p :: p in t.mealPlans ==> p.userId != userId
    requires Grows(t, t', userId, lo, hi)
    ensures WithoutUser(t'.mealPlans, userId) == WithoutUser(t.mealPlans, userId)
    ensures forall p :: p in t'.mealPlans && p.userId == userId ==> GeneratedRow(p, userId, lo, hi, t.nextPlanId)
  {
    var added := t'.mealPlans[|t.mealPlans|..];
    assert t'.mealPlans == t.mealPlans + added;
    WithoutUserAppend(t.mealPlans, added, userId);
    AddedRowsAreTheUsers(t, t', userId, lo, hi);
    WithoutUserOfOwn(added, userId);
    UserRowsAreAdded(t, t', userId, lo, hi);
  }

  lemma AddedRowsAreTheUsers(t: Store, t': Store, userId: int, lo: int, hi: int)
    requires Grows(t, t', userId, lo, hi)
    ensures forall p :: p in t'.mealPlans[|t.mealPlans|..] ==> p.userId == userId
  {
    var added := t'.mealPlans[|t.mealPlans|..];
    forall p | p in added
      ensures p.userId == userId
    {
      var i :| 0 <= i < |added| && added[i] == p;
      assert p == t'.mealPlans[|t.mealPlans| + i];
    }
  }

  lemma UserRowsAreAdded(t: Store, t': Store, userId: int, lo: int, hi: int)
    requires forall p :: p in t.mealPlans ==> p.userId != userId
    requires Grows(t, t', userId, lo, hi)
    ensures forall p :: p in t'.mealPlans && p.userId == userId ==> GeneratedRow(p, userId, lo, hi, t.nextPlanId)
  {
    forall p | p in t'.mealPlans && p.userId == userId
      ensures GeneratedRow(p, userId, lo, hi, t.nextPlanId)
    {
      var i :| 0 <= i < |t'.mealPlans| && t'.mealPlans[i] == p;
    }
  }

  /** Deleting a user's rows from rows that are all theirs leaves nothing. */
  lemma {:induction false} WithoutUserOfOwn(plans: seq<MealPlanRow>, userId: int)
    requires forall p :: p in plans ==> p.userId == userId
    ensures WithoutUser(plans, userId) == []
  {
    if plans != [] {
      assert plans[0] in plans;
      forall p | p in plans[1..]
        ensures p.userId == userId
      {
        assert p in plans;
      }
      WithoutUserOfOwn(plans[1..], userId);
    }
  }

  /** Validation comes before any write: a request without a usable user id, for an
      unknown user or for a user missing biometrics is answered 400 or 404 and changes
      nothing; an accepted one is answered 200 or 500, never 400 or 404. */
  lemma RejectedRequestWritesNothing(t: Store, userIdParam: Option<string>, startDate: int,
                                     provider: int -> PlanFetch,
                                     fetchNutrition: int -> Option<NutritionPayload>)
    ensures var e := WeeklyPlanEffect(t, userIdParam, startDate, provider, fetchNutrition);
            && (!Accepted(t, userIdParam) <==> e.0.Fail? && (e.0.status == 400 || e.0.status == 404))
            && (!Accepted(t, userIdParam) ==> e.1 == t)
            && (Accepted(t, userIdParam) ==> e.0 == Ok(200, GeneratedMessage) || e.0 == Fail(500, GenerationFailedMessage))
  {
  }

  /** An accepted request replaces the user's plan: every other user's rows stay as they
      were and in order, every row of the user afterwards is a new one dated within the
      seven days from `startDate` under a named slot, and the other tables the route
      does not write are unchanged. This holds on failure too: the rows of the days
      before a throw are kept. */
  lemma PlanReplaced(t: Store, userIdParam: Option<string>, startDate: int,
                     provider: int -> PlanFetch,
                     fetchNutrition: int -> Option<NutritionPayload>)
    requires Accepted(t, userIdParam)
    ensures var userId := ParseUserId(userIdParam).value;
            var t' := WeeklyPlanEffect(t, userIdParam, startDate, provider, fetchNutrition).1;
            && WithoutUser(t'.mealPlans, userId) == WithoutUser(t.mealPlans, userId)
            && (forall p :: p in t'.mealPlans && p.userId == userId ==>
                  GeneratedRow(p, userId, startDate, startDate + |DayKeys|, t.nextPlanId))
            && t'.users == t.users && t'.ingredients == t.ingredients
            && t'.starred == t.starred && t'.ratings == t.ratings
  {
    var userId := ParseUserId(userIdParam).value;
    var purged := t.(mealPlans := WithoutUser(t.mealPlans, userId));
    WithoutUserTwice(t.mealPlans, userId);
    match provider(UserTarget(t.users[userId]))
    case PlanFailed =>
    case PlanFetched(None) =>
    case PlanFetched(Some(week)) =>
      var days := WeekDays(week);
      var t' := PlaceDays(purged, userId, startDate, days, |days|, fetchNutrition).t;
      PlaceDaysGrows(purged, userId, startDate, days, |days|, fetchNutrition);
      PurgeThenGrow(purged, t', userId, startDate, startDate + |days|);
  }

  /** When the plan request fails the user is left with no plan at all. */
  lemma ProviderFailureLeavesNoPlan(t: Store, userIdParam: Option<string>, startDate: int,
                                    provider: int -> PlanFetch,
                                    fetchNutrition: int -> Option<NutritionPayload>)
    requires Accepted(t, userIdParam)
    requires provider(UserTarget(t.users[ParseUserId(userIdParam).value])).PlanFailed?
             || provider(UserTarget(t.users[ParseUserId(userIdParam).value])).week.None?
    ensures var e := WeeklyPlanEffect(t, userIdParam, startDate, provider, fetchNutrition);
            && e.0 == Fail(500, GenerationFailedMessage)
            && (forall p :: p in e.1.mealPlans ==> p.userId != ParseUserId(userIdParam).value)
            && e.1.recipes == t.recipes && e.1.nutrition == t.nutrition
  {
  }

  /** However often the generated week repeats a recipe, the route stores it once. */
  lemma GenerationKeepsUnique(t: Store, userIdParam: Option<string>, startDate: int,
                              provider: int -> PlanFetch,
                              fetchNutrition: int -> Option<NutritionPayload>)
    requires UniqueApiIds(t.recipes)
    ensures UniqueApiIds(WeeklyPlanEffect(t, userIdParam, startDate, provider, fetchNutrition).1.recipes)
  {
    if Accepted(t, userIdParam) {
      var userId := ParseUserId(userIdParam).value;
      var purged := t.(mealPlans := WithoutUser(t.mealPlans, userId));
      match provider(UserTarget(t.users[userId]))
      case PlanFailed =>
      case PlanFetched(None) =>
      case PlanFetched(Some(week)) =>
        var days := WeekDays(week);
        PlaceDaysKeepsUnique(purged, userId, startDate, days, |days|, fetchNutrition);
    }
  }
}
