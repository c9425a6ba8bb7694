/** The relational store the routes query, as in-memory tables: rows are values, a table
    is a sequence in insertion order (or a map for a keyed table), and `recipes` and
    `meal_plans` draw their ids from auto-increment counters. */
module Tables {
  import opened JsValues

  /** A `users` row; the numeric and text columns may be NULL. */
  datatype UserRow = UserRow(
    username: string, email: string, dietPrefer: Option<string>,
    weight: Option<real>, height: Option<real>, age: Option<real>,
    gender: Option<string>, goal: Option<string>)

  datatype RecipeRow = RecipeRow(
    recipeId: int, apiRecipeId: int, name: string, instructions: string,
    imageUrl: string, prepTime: int, cookTime: int)

  /** A `nutrition` row; the table is keyed by `api_recipe_id`. */
  datatype NutritionRow = NutritionRow(calories: real, protein: real, carbs: real, fats: real)

  datatype IngredientRow = IngredientRow(apiRecipeId: int, ingredient: string)

  /** A `meal_plans` row; `mealDate` is a day number. */
  datatype MealPlanRow = MealPlanRow(
    planId: int, userId: int, recipeId: int, mealDate: int, mealType: string,
    calories: real, protein: real, carbs: real, fats: real)

  datatype StarRow = StarRow(userId: int, planId: int)

  datatype RatingRow = RatingRow(userId: int, planId: int, rating: real, review: Option<string>)

  /** The contents of every table at one moment. */
  datatype Store = Store(
    users: map<int, UserRow>,
    recipes: seq<RecipeRow>,
    nutrition: map<int, NutritionRow>,
    ingredients: seq<IngredientRow>,
    mealPlans: seq<MealPlanRow>,
    starred: seq<StarRow>,
    ratings: seq<RatingRow>,
    nextRecipeId: int,
    nextPlanId: int)

  predicate HasRecipe(recipes: seq<RecipeRow>, apiId: int) {
    exists r :: r in recipes && r.apiRecipeId == apiId
  }

  /** `SELECT ... FROM recipes WHERE api_recipe_id = ?`, first row. */
  function FindRecipe(recipes: seq<RecipeRow>, apiId: int): (r: Option<RecipeRow>)
    ensures r.None? <==> !HasRecipe(recipes, apiId)
    ensures r.Some? ==> r.value in recipes && r.value.apiRecipeId == apiId
  {
    if recipes == [] then None
    else if recipes[0].apiRecipeId == apiId then Some(recipes[0])
    else FindRecipe(recipes[1..], apiId)
  }

  /** `... JOIN recipes r ON x.recipe_id = r.recipe_id`, first row. */
  function FindRecipeById(recipes: seq<RecipeRow>, recipeId: int): (r: Option<RecipeRow>)
    ensures r.None? <==> forall x :: x in recipes ==> x.recipeId != recipeId
    ensures r.Some? ==> r.value in recipes && r.value.recipeId == recipeId
  {
    if recipes == [] then None
    else if recipes[0].recipeId == recipeId then Some(recipes[0])
    else FindRecipeById(recipes[1..], recipeId)
  }

  /** `SELECT ... FROM meal_plans WHERE plan_id = ?`, first row. */
  function FindPlan(plans: seq<MealPlanRow>, planId: int): (r: Option<MealPlanRow>)
    ensures r.None? <==> forall x :: x in plans ==> x.planId != planId
    ensures r.Some? ==> r.value in plans && r.value.planId == planId
  {
    if plans == [] then None
    else if plans[0].planId == planId then Some(plans[0])
    else FindPlan(plans[1..], planId)
  }

  ghost predicate UniqueApiIds(recipes: seq<RecipeRow>) {
    forall i, j :: 0 <= i < j < |recipes| ==> recipes[i].apiRecipeId != recipes[j].apiRecipeId
  }

  /** `recipe_id` is a key, and the auto-increment counter is past every id. */
  ghost predicate RecipeIdsFresh(recipes: seq<RecipeRow>, next: int) {
    && (forall i, j :: 0 <= i < j < |recipes| ==> recipes[i].recipeId != recipes[j].recipeId)
    && (forall r :: r in recipes ==> r.recipeId < next)
  }

  /** `plan_id` is a key, and the auto-increment counter is past every id. */
  ghost predicate PlanIdsFresh(plans: seq<MealPlanRow>, next: int) {
    && (forall i, j :: 0 <= i < j < |plans| ==> plans[i].planId != plans[j].planId)
    && (forall p :: p in plans ==> p.planId < next)
  }

  /** Every nutrition row belongs to a stored recipe. */
  ghost predicate NutritionOwned(recipes: seq<RecipeRow>, nutrition: map<int, NutritionRow>) {
    forall k :: k in nutrition ==> HasRecipe(recipes, k)
  }

  /** The constraints the schema and the auto-increment counters maintain. */
  ghost predicate WellFormed(t: Store) {
    && UniqueApiIds(t.recipes)
    && RecipeIdsFresh(t.recipes, t.nextRecipeId)
    && PlanIdsFresh(t.mealPlans, t.nextPlanId)
    && NutritionOwned(t.recipes, t.nutrition)
  }

  /** `INSERT INTO recipes ...`: the new row takes the next recipe id. */
  function InsertRecipe(t: Store, apiId: int, name: string, instructions: string, imageUrl: string, prepTime: int, cookTime: int): Store {
    t.(recipes := t.recipes + [RecipeRow(t.nextRecipeId, apiId, name, instructions, imageUrl, prepTime, cookTime)],
       nextRecipeId := t.nextRecipeId + 1)
  }

  /** Inserting a recipe whose external id is absent keeps the store well formed. */
  lemma InsertRecipeKeepsWellFormed(t: Store, apiId: int, name: string, instructions: string, imageUrl: string, prepTime: int, cookTime: int)
    requires WellFormed(t) && !HasRecipe(t.recipes, apiId)
    ensures WellFormed(InsertRecipe(t, apiId, name, instructions, imageUrl, prepTime, cookTime))
  {
    var row := RecipeRow(t.nextRecipeId, apiId, name, instructions, imageUrl, prepTime, cookTime);
    var t' := InsertRecipe(t, apiId, name, instructions, imageUrl, prepTime, cookTime);
    AppendKeepsUnique(t.recipes, row);
    AppendKeepsRecipeIds(t.recipes, row);
    AppendKeepsNutritionOwned(t.recipes, t.nutrition, row);
  }

  lemma AppendKeepsRecipeIds(recipes: seq<RecipeRow>, row: RecipeRow)
    requires RecipeIdsFresh(recipes, row.recipeId)
    ensures RecipeIdsFresh(recipes + [row], row.recipeId + 1)
  {
    forall i, j | 0 <= i < j < |recipes + [row]|
      ensures (recipes + [row])[i].recipeId != (recipes + [row])[j].recipeId
    {
      assert recipes[i] in recipes;
    }
  }

  lemma AppendKeepsNutritionOwned(recipes: seq<RecipeRow>, nutrition: map<int, NutritionRow>, row: RecipeRow)
    requires NutritionOwned(recipes, nutrition)
    ensures NutritionOwned(recipes + [row], nutrition)
  {
    forall k | k in nutrition
      ensures HasRecipe(recipes + [row], k)
    {
      var r :| r in recipes && r.apiRecipeId == k;
      assert r in recipes + [row];
    }
  }

  /** A nutrition row stored for a recipe that exists keeps the store well formed. */
  lemma StoreNutritionKeepsWellFormed(t: Store, apiId: int, n: NutritionRow)
    requires WellFormed(t) && HasRecipe(t.recipes, apiId)
    ensures WellFormed(t.(nutrition := t.nutrition[apiId := n]))
  {
  }

  /** A plan row that takes the next plan id keeps the store well formed. */
  lemma AppendPlanKeepsWellFormed(t: Store, row: MealPlanRow)
    requires WellFormed(t) && row.planId == t.nextPlanId
    ensures WellFormed(t.(mealPlans := t.mealPlans + [row], nextPlanId := t.nextPlanId + 1))
  {
    var plans := t.mealPlans + [row];
    forall i, j | 0 <= i < j < |plans|
      ensures plans[i].planId != plans[j].planId
    {
      assert t.mealPlans[i] in t.mealPlans;
    }
  }

  /** Appending a row whose external id is absent keeps external ids unique. */
  lemma AppendKeepsUnique(recipes: seq<RecipeRow>, row: RecipeRow)
    requires UniqueApiIds(recipes) && !HasRecipe(recipes, row.apiRecipeId)
    ensures UniqueApiIds(recipes + [row])
  {
    forall i | 0 <= i < |recipes|
      ensures recipes[i].apiRecipeId != row.apiRecipeId
    {
      assert recipes[i] in recipes;
    }
  }

  lemma {:induction false} FindAppended(recipes: seq<RecipeRow>, row: RecipeRow)
    requires !HasRecipe(recipes, row.apiRecipeId)
    ensures FindRecipe(recipes + [row], row.apiRecipeId) == Some(row)
  {
    if recipes != [] {
      assert (recipes + [row])[1..] == recipes[1..] + [row];
      assert recipes[0] in recipes;
      assert !HasRecipe(recipes[1..], row.apiRecipeId) by {
        forall r | r in recipes[1..] ensures r.apiRecipeId != row.apiRecipeId {
          assert r in recipes;
        }
      }
      FindAppended(recipes[1..], row);
    }
  }

  /** `SELECT ingredient FROM recipe_ingredients WHERE api_recipe_id = ?`, in insertion order. */
  function IngredientsOf(rows: seq<IngredientRow>, apiId: int): (r: seq<string>)
    ensures |r| <= |rows|
    ensures forall x :: x in r <==> IngredientRow(apiId, x) in rows
  {
    if rows == [] then []
    else
      (if rows[0].apiRecipeId == apiId then [rows[0].ingredient] else []) + IngredientsOf(rows[1..], apiId)
  }

  /** The rows the insert loop adds, one per ingredient, in order. */
  function IngredientRows(apiId: int, originals: seq<string>): (r: seq<IngredientRow>)
    ensures |r| == |originals|
    ensures forall i :: 0 <= i < |r| ==> r[i].apiRecipeId == apiId && r[i].ingredient == originals[i]
  {
    seq(|originals|, i requires 0 <= i < |originals| => IngredientRow(apiId, originals[i]))
  }

  /** Selecting by recipe from a concatenation selects from each part. */
  lemma {:induction false} IngredientsOfAppend(a: seq<IngredientRow>, b: seq<IngredientRow>, apiId: int)
    ensures IngredientsOf(a + b, apiId) == IngredientsOf(a, apiId) + IngredientsOf(b, apiId)
  {
    if a == [] {
      assert a + b == b;
    } else {
      assert (a + b)[1..] == a[1..] + b;
      IngredientsOfAppend(a[1..], b, apiId);
    }
  }

  /** The inserted rows read back as the list that was inserted. */
  lemma {:induction false} IngredientsOfInserted(apiId: int, originals: seq<string>)
    ensures IngredientsOf(IngredientRows(apiId, originals), apiId) == originals
  {
    if originals != [] {
      var rows := IngredientRows(apiId, originals);
      assert rows[1..] == IngredientRows(apiId, originals[1..]);
      IngredientsOfInserted(apiId, originals[1..]);
    }
  }

  /** The database connection every route shares: one field per table. */
  class Db {
    var users: map<int, UserRow>
    var recipes: seq<RecipeRow>
    var nutrition: map<int, NutritionRow>
    var ingredients: seq<IngredientRow>
    var mealPlans: seq<MealPlanRow>
    var starred: seq<StarRow>
    var ratings: seq<RatingRow>
    var nextRecipeId: int
    var nextPlanId: int

    /** A fresh database holding only the given accounts. */
    constructor (accounts: map<int, UserRow>)
      ensures Snapshot() == Store(accounts, [], map[], [], [], [], [], 1, 1)
      ensures Valid()
    {
      users, recipes, nutrition, ingredients := accounts, [], map[], [];
      mealPlans, starred, ratings := [], [], [];
      nextRecipeId, nextPlanId := 1, 1;
    }

    function Snapshot(): Store
      reads this
    {
      Store(users, recipes, nutrition, ingredients, mealPlans, starred, ratings, nextRecipeId, nextPlanId)
    }

    ghost predicate Valid()
      reads this
    {
      WellFormed(Snapshot())
    }
  }

  /** `INSERT INTO recipe_ingredients (api_recipe_id, ingredient) VALUES (?, ?)` once per
      entry, in order. */
  method InsertIngredients(db: Db, apiId: int, originals: seq<string>)
    modifies db
    ensures db.Snapshot() == old(db.Snapshot()).(ingredients := old(db.ingredients) + IngredientRows(apiId, originals))
  {
    var i := 0;
    while i < |originals|
      invariant 0 <= i <= |originals|
      invariant db.Snapshot() == old(db.Snapshot()).(ingredients := old(db.ingredients) + IngredientRows(apiId, originals[..i]))
    {
      assert IngredientRows(apiId, originals[..i + 1]) == IngredientRows(apiId, originals[..i]) + [IngredientRow(apiId, originals[i])];
      db.ingredients := db.ingredients + [IngredientRow(apiId, originals[i])];
      i := i + 1;
    }
    assert originals[..i] == originals;
  }
}
