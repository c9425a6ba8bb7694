/** `GET /recipe/:planId`: the recipe of one plan row with its nutrition and ingredients.
    A recipe stored without instructions is backfilled from the recipe information
    endpoint on first view: the instructions are written back, and the ingredient list is
    inserted when the recipe has none yet. */
module MealPlanRecipe {
  import opened JsValues
  import opened Tables
  import opened Upstream

  const FetchFailedInstructions := "No instructions available. Could not fetch from API."
  const RecipeNotFoundMessage := "Recipe not found for this plan."

  /** The JSON body the route sends. */
  datatype RecipeDetails = RecipeDetails(
    name: string, imageUrl: string, instructions: string,
    calories: real, protein: real, carbs: real, fats: real,
    ingredients: seq<string>)

  /** The first row of `meal_plans JOIN recipes LEFT JOIN nutrition WHERE plan_id = ?`. */
  datatype Joined = Joined(recipe: RecipeRow, nutrition: Option<NutritionRow>)

  function LookupPlanRecipe(t: Store, planId: int): Option<Joined> {
    match FindPlan(t.mealPlans, planId)
    case None => None
    case Some(p) =>
      match FindRecipeById(t.recipes, p.recipeId)
      case None => None
      case Some(r) => Some(Joined(r, if r.apiRecipeId in t.nutrition then Some(t.nutrition[r.apiRecipeId]) else None))
  }

  /** `UPDATE recipes SET instructions = ? WHERE api_recipe_id = ?`. */
  function SetInstructions(recipes: seq<RecipeRow>, apiId: int, text: string): (r: seq<RecipeRow>)
    ensures |r| == |recipes|
    ensures forall i :: 0 <= i < |r| ==>
              r[i] == if recipes[i].apiRecipeId == apiId then recipes[i].(instructions := text) else recipes[i]
  {
    if recipes == [] then []
    else
      var head := if recipes[0].apiRecipeId == apiId then recipes[0].(instructions := text) else recipes[0];
      [head] + SetInstructions(recipes[1..], apiId, text)
  }

  /** The ingredient list is inserted when the answer has a non-empty one and the recipe
      has no ingredient rows yet. */
  predicate InsertsIngredients(t: Store, apiId: int, info: RecipeInfo) {
    info.extendedIngredients.Some? && |info.extendedIngredients.value| > 0 && |IngredientsOf(t.ingredients, apiId)| == 0
  }

  /** What a successful information fetch writes. */
  function Backfill(t: Store, apiId: int, info: RecipeInfo): Store {
    var t1 := t.(recipes := SetInstructions(t.recipes, apiId, InstructionsOrDefault(info)));
    if InsertsIngredients(t, apiId, info)
    then t1.(ingredients := t.ingredients + IngredientRows(apiId, info.extendedIngredients.value))
    else t1
  }

  /** The body: text fields as read, `instructions || 'No instructions available'`, and
      every nutrition field `|| 0`, which turns a missing nutrition row into zeros. */
  function Details(r: RecipeRow, n: Option<NutritionRow>, instructions: string, ingredients: seq<string>): RecipeDetails {
    RecipeDetails(
      r.name, r.imageUrl, if instructions != "" then instructions else NoInstructions,
      if n.Some? then n.value.calories else 0.0,
      if n.Some? then n.value.protein else 0.0,
      if n.Some? then n.value.carbs else 0.0,
      if n.Some? then n.value.fats else 0.0,
      ingredients)
  }

  /** The reply and the tables after `GET /recipe/:planId`; `fetchInfo` answers the
      recipe information request (`None` when it throws). */
  function RecipeEffect(t: Store, planId: int, fetchInfo: int -> Option<RecipeInfo>): (Reply<RecipeDetails>, Store) {
    match LookupPlanRecipe(t, planId)
    case None => (Fail(404, RecipeNotFoundMessage), t)
    case Some(j) =>
      var r := j.recipe;
      if r.instructions != "" then
        (Ok(200, Details(r, j.nutrition, r.instructions, IngredientsOf(t.ingredients, r.apiRecipeId))), t)
      else
        match fetchInfo(r.apiRecipeId)
        case None =>
          (Ok(200, Details(r, j.nutrition, FetchFailedInstructions, IngredientsOf(t.ingredients, r.apiRecipeId))), t)
        case Some(info) =>
          var t' := Backfill(t, r.apiRecipeId, info);
          (Ok(200, Details(r, j.nutrition, InstructionsOrDefault(info), IngredientsOf(t'.ingredients, r.apiRecipeId))), t')
  }

  // ---------------------------------------------------------------------------
  // The handler, over the shared database.

  /** `GET /recipe/:planId`. */
  method RecipeDetailsRoute(db: Db, planId: int, fetchInfo: int -> Option<RecipeInfo>) returns (reply: Reply<RecipeDetails>)
    requires db.Valid()
    modifies db
    ensures (reply, db.Snapshot()) == RecipeEffect(old(db.Snapshot()), planId, fetchInfo)
    ensures db.Valid()
  {
    RecipeEffectKeepsWellFormed(db.Snapshot(), planId, fetchInfo);
    var joined := LookupPlanRecipe(db.Snapshot(), planId);
    if joined.None? {
      return Fail(404, RecipeNotFoundMessage);
    }
    var recipe := joined.value.recipe;
    var instructions := recipe.instructions;
    if instructions == "" {
      var info := fetchInfo(recipe.apiRecipeId);
      if info.None? {
        instructions := FetchFailedInstructions;
      } else {
        instructions := InstructionsOrDefault(info.value);
        db.recipes := SetInstructions(db.recipes, recipe.apiRecipeId, instructions);
        var originals := info.value.extendedIngredients;
        if originals.Some? && |originals.value| > 0 {
          var existing := |IngredientsOf(db.ingredients, recipe.apiRecipeId)|;
          if existing == 0 {
            InsertIngredients(db, recipe.apiRecipeId, originals.value);
          }
        }
      }
    }
    var ingredients := IngredientsOf(db.ingredients, recipe.apiRecipeId);
    return Ok(200, Details(recipe, joined.value.nutrition, instructions, ingredients));
  }

  // ---------------------------------------------------------------------------
  // Properties.

  /** An id with no plan row, or whose plan row's recipe is gone, is answered 404 and
      nothing is written; every other id is answered 200. */
  lemma NotFoundExactly(t: Store, planId: int, fetchInfo: int -> Option<RecipeInfo>)
    ensures var e := RecipeEffect(t, planId, fetchInfo);
            && (e.0.Fail? <==> FindPlan(t.mealPlans, planId).None? || FindRecipeById(t.recipes, FindPlan(t.mealPlans, planId).value.recipeId).None?)
            && (e.0.Fail? ==> e.0 == Fail(404, RecipeNotFoundMessage) && e.1 == t)
            && (e.0.Ok? ==> e.0.status == 200)
  {
  }

  /** A recipe that already has instructions is served as stored: nothing is fetched
      (the answer does not depend on the information endpoint) and nothing is written. */
  lemma StoredInstructionsServed(t: Store, planId: int, fetch1: int -> Option<RecipeInfo>, fetch2: int -> Option<RecipeInfo>)
    requires LookupPlanRecipe(t, planId).Some? && LookupPlanRecipe(t, planId).value.recipe.instructions != ""
    ensures RecipeEffect(t, planId, fetch1) == RecipeEffect(t, planId, fetch2)
    ensures RecipeEffect(t, planId, fetch1).1 == t
    ensures RecipeEffect(t, planId, fetch1).0.body.instructions == LookupPlanRecipe(t, planId).value.recipe.instructions
  {
  }

  /** A failed information fetch answers with a placeholder that is not stored: the
      tables are left as they were, so the next view tries again. */
  lemma FetchErrorNotPersisted(t: Store, planId: int, fetchInfo: int -> Option<RecipeInfo>)
    requires LookupPlanRecipe(t, planId).Some? && LookupPlanRecipe(t, planId).value.recipe.instructions == ""
    requires fetchInfo(LookupPlanRecipe(t, planId).value.recipe.apiRecipeId).None?
    ensures RecipeEffect(t, planId, fetchInfo).1 == t
    ensures RecipeEffect(t, planId, fetchInfo).0.body.instructions == FetchFailedInstructions
  {
  }

  /** A successful fetch writes the fetched instructions (or the default text) into every
      row of the recipe (`SetInstructions` leaves every other row alone), appends the ingredient list
      in order exactly when the recipe had no ingredient rows and the list is not empty,
      and answers with the written text and the recipe's ingredients after the insert. */
  lemma BackfillWrites(t: Store, planId: int, fetchInfo: int -> Option<RecipeInfo>)
    requires LookupPlanRecipe(t, planId).Some? && LookupPlanRecipe(t, planId).value.recipe.instructions == ""
    requires fetchInfo(LookupPlanRecipe(t, planId).value.recipe.apiRecipeId).Some?
    ensures var apiId := LookupPlanRecipe(t, planId).value.recipe.apiRecipeId;
            var info := fetchInfo(apiId).value;
            var e := RecipeEffect(t, planId, fetchInfo);
            var added := if InsertsIngredients(t, apiId, info) then info.extendedIngredients.value else [];
            && e.1.recipes == SetInstructions(t.recipes, apiId, InstructionsOrDefault(info))
            && e.1.ingredients == t.ingredients + IngredientRows(apiId, added)
            && e.0.body.instructions == InstructionsOrDefault(info)
            && e.0.body.ingredients == IngredientsOf(t.ingredients, apiId) + added
            && e.1.mealPlans == t.mealPlans && e.1.nutrition == t.nutrition && e.1.users == t.users
  {
    var apiId := LookupPlanRecipe(t, planId).value.recipe.apiRecipeId;
    var info := fetchInfo(apiId).value;
    BackfillAnswer(t, planId, fetchInfo);
    BackfillIngredients(t, apiId, info);
  }

  lemma BackfillAnswer(t: Store, planId: int, fetchInfo: int -> Option<RecipeInfo>)
    requires LookupPlanRecipe(t, planId).Some? && LookupPlanRecipe(t, planId).value.recipe.instructions == ""
    requires fetchInfo(LookupPlanRecipe(t, planId).value.recipe.apiRecipeId).Some?
    ensures var apiId := LookupPlanRecipe(t, planId).value.recipe.apiRecipeId;
            var info := fetchInfo(apiId).value;
            var e := RecipeEffect(t, planId, fetchInfo);
            && e.1 == Backfill(t, apiId, info)
            && e.0.body.instructions == InstructionsOrDefault(info)
            && e.0.body.ingredients == IngredientsOf(Backfill(t, apiId, info).ingredients, apiId)
  {
  }

  /** The ingredient part of the backfill, and what the route reads back afterwards. */
  lemma BackfillIngredients(t: Store, apiId: int, info: RecipeInfo)
    ensures var added := if InsertsIngredients(t, apiId, info) then info.extendedIngredients.value else [];
            && Backfill(t, apiId, info).ingredients == t.ingredients + IngredientRows(apiId, added)
            && IngredientsOf(Backfill(t, apiId, info).ingredients, apiId) == IngredientsOf(t.ingredients, apiId) + added
  {
    var added := if InsertsIngredients(t, apiId, info) then info.extendedIngredients.value else [];
    IngredientsOfAppend(t.ingredients, IngredientRows(apiId, added), apiId);
    IngredientsOfInserted(apiId, added);
    assert IngredientRows(apiId, []) == [];
  }

  /** Looking a recipe up by id after the instructions update finds the updated row. */
  lemma {:induction false} FindByIdAfterSet(recipes: seq<RecipeRow>, apiId: int, text: string, recipeId: int)
    requires FindRecipeById(recipes, recipeId).Some?
    ensures var r := FindRecipeById(recipes, recipeId).value;
            FindRecipeById(SetInstructions(recipes, apiId, text), recipeId)
            == Some(if r.apiRecipeId == apiId then r.(instructions := text) else r)
  {
    if recipes[0].recipeId != recipeId {
      FindByIdAfterSet(recipes[1..], apiId, text, recipeId);
    }
  }

  /** Viewing a plan's recipe twice answers the same and writes nothing the second time,
      unless the first view's fetch failed. */
  lemma SecondViewChangesNothing(t: Store, planId: int, fetch1: int -> Option<RecipeInfo>, fetch2: int -> Option<RecipeInfo>)
    requires LookupPlanRecipe(t, planId).Some?
    requires var r := LookupPlanRecipe(t, planId).value.recipe;
             r.instructions == "" ==> fetch1(r.apiRecipeId).Some?
    ensures var e := RecipeEffect(t, planId, fetch1);
            RecipeEffect(e.1, planId, fetch2) == e
  {
    var j := LookupPlanRecipe(t, planId).value;
    var r := j.recipe;
    if r.instructions == "" {
      var info := fetch1(r.apiRecipeId).value;
      var t' := Backfill(t, r.apiRecipeId, info);
      var p := FindPlan(t.mealPlans, planId).value;
      FindByIdAfterSet(t.recipes, r.apiRecipeId, InstructionsOrDefault(info), p.recipeId);
      assert LookupPlanRecipe(t', planId) == Some(Joined(r.(instructions := InstructionsOrDefault(info)), j.nutrition));
    }
  }

  /** Rewriting instructions keeps every key and id, so the store stays well formed. */
  lemma SetInstructionsKeepsWellFormed(t: Store, apiId: int, text: string)
    requires WellFormed(t)
    ensures WellFormed(t.(recipes := SetInstructions(t.recipes, apiId, text)))
  {
    SetInstructionsKeepsOwners(t.recipes, t.nutrition, apiId, text);
    SetInstructionsKeepsIds(t.recipes, t.nextRecipeId, apiId, text);
  }

  lemma SetInstructionsKeepsOwners(recipes: seq<RecipeRow>, nutrition: map<int, NutritionRow>, apiId: int, text: string)
    requires NutritionOwned(recipes, nutrition)
    ensures NutritionOwned(SetInstructions(recipes, apiId, text), nutrition)
  {
    var recipes' := SetInstructions(recipes, apiId, text);
    forall k | k in nutrition
      ensures HasRecipe(recipes', k)
    {
      var r :| r in recipes && r.apiRecipeId == k;
      var i :| 0 <= i < |recipes| && recipes[i] == r;
      assert recipes'[i] in recipes';
    }
  }

  lemma SetInstructionsKeepsIds(recipes: seq<RecipeRow>, next: int, apiId: int, text: string)
    requires RecipeIdsFresh(recipes, next)
    ensures RecipeIdsFresh(SetInstructions(recipes, apiId, text), next)
  {
    var recipes' := SetInstructions(recipes, apiId, text);
    forall x | x in recipes'
      ensures x.recipeId < next
    {
      var i :| 0 <= i < |recipes'| && recipes'[i] == x;
      assert recipes[i] in recipes;
    }
  }

  /** Viewing a plan's recipe keeps the store well formed, backfill or not. */
  lemma RecipeEffectKeepsWellFormed(t: Store, planId: int, fetchInfo: int -> Option<RecipeInfo>)
    requires WellFormed(t)
    ensures WellFormed(RecipeEffect(t, planId, fetchInfo).1)
  {
    match LookupPlanRecipe(t, planId)
    case None =>
    case Some(j) =>
      var r := j.recipe;
      if r.instructions == "" && fetchInfo(r.apiRecipeId).Some? {
        SetInstructionsKeepsWellFormed(t, r.apiRecipeId, InstructionsOrDefault(fetchInfo(r.apiRecipeId).value));
      }
  }
}
