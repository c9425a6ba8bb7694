/** `GET /fetch-recipe`: one recipe search, then for every result in order its information
    (instructions and ingredient list) and its ingredient rows, and, when no recipe with
    its external id is stored yet, its recipe row and its nutrition row. The route counts
    the results whose nutrition was stored. */
module RecipeImport {
  import opened JsValues
  import opened Tables
  import opened Upstream
  import MealPlanValues

  const NoRecipeFoundMessage := "No suitable recipe found"
  const NoneInsertedMessage := "No suitable recipes inserted"
  const InsertedMessage := "Recipe and nutrition data inserted successfully!"
  const FetchFailedMessage := "Failed to fetch recipe."

  /** This file's own `parseValue`: only a non-empty string is read (stripped to digits and
      points, then its leading decimal, or 0); a number, like any other value, gives 0. */
  function ParseStringValue(v: Json): (r: real)
    ensures r >= 0.0
  {
    if v.Str? && v.s != "" then MealPlanValues.ParseNumericString(v.s) else 0.0
  }

  function ParseNutrition(p: NutritionPayload): NutritionRow {
    NutritionRow(ParseStringValue(p.calories), ParseStringValue(p.protein), ParseStringValue(p.carbohydrates), ParseStringValue(p.fat))
  }

  /** The database errors the route tells apart, by result index: a failed recipe insert
      rejects out of the loop and fails the request; a failed nutrition insert is caught
      with the nutrition fetch and only loses that result's count. */
  datatype Faults = Faults(recipeInsertFails: nat -> bool, nutritionInsertFails: nat -> bool)

  /** Where the loop stands: going, with the tables and `insertedCount`, or stopped by a
      failed recipe insert with what was written until then. */
  datatype Progress = Going(t: Store, inserted: nat) | Stopped(t: Store)

  /** The ingredient rows an information answer adds: its whole non-empty list, whether or
      not the recipe is already stored. */
  function InfoIngredients(info: Option<RecipeInfo>): seq<string> {
    if info.Some? && info.value.extendedIngredients.Some? && |info.value.extendedIngredients.value| > 0
    then info.value.extendedIngredients.value
    else []
  }

  /** The instructions a new recipe row gets: the fetched text or the default, also when
      the information request throws. */
  function ImportedInstructions(info: Option<RecipeInfo>): string {
    if info.Some? then InstructionsOrDefault(info.value) else NoInstructions
  }

  /** One search result, as the loop body handles it. */
  function ImportOne(t: Store, inserted: nat, k: nat, r: SearchResult,
                     fetchInfo: int -> Option<RecipeInfo>, fetchNutrition: int -> Option<NutritionPayload>,
                     faults: Faults): Progress {
    var info := fetchInfo(r.id);
    var t1 := t.(ingredients := t.ingredients + IngredientRows(r.id, InfoIngredients(info)));
    if HasRecipe(t1.recipes, r.id) then Going(t1, inserted)
    else if faults.recipeInsertFails(k) then Stopped(t1)
    else
      var t2 := InsertRecipe(t1, r.id, r.title, ImportedInstructions(info), r.image, r.preparationMinutes, r.cookingMinutes);
      match fetchNutrition(r.id)
      case None => Going(t2, inserted)
      case Some(p) =>
        if faults.nutritionInsertFails(k) then Going(t2, inserted)
        else Going(t2.(nutrition := t2.nutrition[r.id := ParseNutrition(p)]), inserted + 1)
  }

  /** The loop body as a step: the tables and count so far, the index, the result. */
  function ImportStep(fetchInfo: int -> Option<RecipeInfo>, fetchNutrition: int -> Option<NutritionPayload>,
                      faults: Faults): (Store, nat, nat, SearchResult) -> Progress {
    (t: Store, c: nat, k: nat, r: SearchResult) => ImportOne(t, c, k, r, fetchInfo, fetchNutrition, faults)
  }

  /** The first `n` results, in order, from a count of 0. */
  function ImportRun(t: Store, results: seq<SearchResult>, n: nat, step: (Store, nat, nat, SearchResult) -> Progress): Progress
    requires n <= |results|
  {
    if n == 0 then Going(t, 0)
    else
      match ImportRun(t, results, n - 1, step)
      case Stopped(t') => Stopped(t')
      case Going(t', c) => step(t', c, n - 1, results[n - 1])
  }

  /** The reply and the tables after `GET /fetch-recipe`; `search` is the search answer,
      `fetchInfo` and `fetchNutrition` answer the per-recipe requests (`None` when they
      throw). */
  function ImportEffect(t: Store, search: SearchFetch,
                        fetchInfo: int -> Option<RecipeInfo>, fetchNutrition: int -> Option<NutritionPayload>,
                        faults: Faults): (Reply<string>, Store) {
    match search
    case SearchFailed => (Fail(500, FetchFailedMessage), t)
    case SearchFetched(results) =>
      if results.None? || |results.value| == 0 then (Fail(404, NoRecipeFoundMessage), t)
      else
        match ImportRun(t, results.value, |results.value|, ImportStep(fetchInfo, fetchNutrition, faults))
        case Stopped(t') => (Fail(500, FetchFailedMessage), t')
        case Going(t', c) => if c == 0 then (Fail(404, NoneInsertedMessage), t') else (Ok(200, InsertedMessage), t')
  }

  // ---------------------------------------------------------------------------
  // The handler, over the shared database.

  /** `GET /fetch-recipe`. */
  method FetchRecipes(db: Db, search: SearchFetch,
                      fetchInfo: int -> Option<RecipeInfo>, fetchNutrition: int -> Option<NutritionPayload>,
                      faults: Faults) returns (reply: Reply<string>)
    requires db.Valid()
    modifies db
    ensures (reply, db.Snapshot()) == ImportEffect(old(db.Snapshot()), search, fetchInfo, fetchNutrition, faults)
    ensures db.Valid()
  {
    ImportEffectKeepsWellFormed(db.Snapshot(), search, fetchInfo, fetchNutrition, faults);
    if search.SearchFailed? {
      return Fail(500, FetchFailedMessage);
    }
    if search.results.None? || |search.results.value| == 0 {
      return Fail(404, NoRecipeFoundMessage);
    }
    var stopped, insertedCount := ImportLoop(db, search.results.value, fetchInfo, fetchNutrition, faults);
    if stopped {
      return Fail(500, FetchFailedMessage);
    }
    if insertedCount == 0 {
      return Fail(404, NoneInsertedMessage);
    }
    return Ok(200, InsertedMessage);
  }

  /** `for (const recipe of response.data.results)`, with `insertedCount` from 0; a
      rejected recipe insert leaves the loop. */
  method ImportLoop(db: Db, results: seq<SearchResult>,
                    fetchInfo: int -> Option<RecipeInfo>, fetchNutrition: int -> Option<NutritionPayload>,
                    faults: Faults) returns (stopped: bool, insertedCount: nat)
    modifies db
    ensures ImportRun(old(db.Snapshot()), results, |results|, ImportStep(fetchInfo, fetchNutrition, faults))
            == if stopped then Stopped(db.Snapshot()) else Going(db.Snapshot(), insertedCount)
  {
    ghost var start := db.Snapshot();
    ghost var step := ImportStep(fetchInfo, fetchNutrition, faults);
    insertedCount := 0;
    var k := 0;
    while k < |results|
      invariant 0 <= k <= |results|
      invariant ImportRun(start, results, k, step) == Going(db.Snapshot(), insertedCount)
    {
      ghost var before := db.Snapshot();
      ghost var countBefore := insertedCount;
      stopped, insertedCount := ImportResult(db, insertedCount, k, results[k], fetchInfo, fetchNutrition, faults);
      ImportNext(start, results, k, step, before, countBefore);
      if stopped {
        ImportStopPersists(start, results, k + 1, step);
        return;
      }
      k := k + 1;
    }
    return false, insertedCount;
  }

  /** The loop body for result `k`. */
  method ImportResult(db: Db, inserted: nat, k: nat, r: SearchResult,
                      fetchInfo: int -> Option<RecipeInfo>, fetchNutrition: int -> Option<NutritionPayload>,
                      faults: Faults) returns (stopped: bool, count: nat)
    modifies db
    ensures ImportOne(old(db.Snapshot()), inserted, k, r, fetchInfo, fetchNutrition, faults)
            == if stopped then Stopped(db.Snapshot()) else Going(db.Snapshot(), count)
  {
    var info := fetchInfo(r.id);
    var instructions := InsertInfoIngredients(db, r.id, info);
    var existing := FindRecipe(db.recipes, r.id);
    if existing.Some? {
      return false, inserted;
    }
    if faults.recipeInsertFails(k) {
      return true, inserted;
    }
    db.recipes := db.recipes + [RecipeRow(db.nextRecipeId, r.id, r.title, instructions, r.image, r.preparationMinutes, r.cookingMinutes)];
    db.nextRecipeId := db.nextRecipeId + 1;
    var payload := fetchNutrition(r.id);
    if payload.None? || faults.nutritionInsertFails(k) {
      return false, inserted;
    }
    db.nutrition := db.nutrition[r.id := ParseNutrition(payload.value)];
    return false, inserted + 1;
  }

  lemma ImportNext(t: Store, results: seq<SearchResult>, n: nat, step: (Store, nat, nat, SearchResult) -> Progress,
                   reached: Store, count: nat)
    requires n < |results| && ImportRun(t, results, n, step) == Going(reached, count)
    ensures ImportRun(t, results, n + 1, step) == step(reached, count, n, results[n])
  {
  }

  /** The information request of one result: the instructions to store (`''` replaced by
      the fetched text or the default, also when the request throws) and, when the answer
      lists ingredients, their rows. */
  method InsertInfoIngredients(db: Db, id: int, info: Option<RecipeInfo>) returns (instructions: string)
    modifies db
    ensures instructions == ImportedInstructions(info)
    ensures db.Snapshot() == old(db.Snapshot()).(ingredients := old(db.ingredients) + IngredientRows(id, InfoIngredients(info)))
  {
    instructions := "";
    if info.Some? {
      instructions := InstructionsOrDefault(info.value);
      var originals := info.value.extendedIngredients;
      if originals.Some? && |originals.value| > 0 {
        InsertIngredients(db, id, originals.value);
        return;
      }
    } else {
      instructions := NoInstructions;
    }
    assert IngredientRows(id, []) == [];
    assert db.ingredients + [] == db.ingredients;
  }

  /** Once a result stops the loop, the later ones are not run. */
  lemma {:induction false} ImportStopPersists(t: Store, results: seq<SearchResult>, n: nat,
                                              step: (Store, nat, nat, SearchResult) -> Progress)
    requires n <= |results| && ImportRun(t, results, n, step).Stopped?
    ensures ImportRun(t, results, |results|, step) == ImportRun(t, results, n, step)
    decreases |results| - n
  {
    if n < |results| {
      ImportStopPersists(t, results, n + 1, step);
    }
  }

  // ---------------------------------------------------------------------------
  // Properties.

  /** Numbers are not read by this file's `parseValue`, while the weekly-plan route's
      passes them through; on non-empty text the two agree. */
  lemma ParseValuesDiffer(n: real, s: string)
    ensures ParseStringValue(Number(n)) == 0.0
    ensures MealPlanValues.ParseValue(Number(n)) == n
    ensures ParseStringValue(Str(s)) == MealPlanValues.ParseValue(Str(s))
  {
  }

  /** A failed search fails the request and an empty or missing result list is answered
      404; neither writes anything. */
  lemma NothingToImport(t: Store, search: SearchFetch,
                        fetchInfo: int -> Option<RecipeInfo>, fetchNutrition: int -> Option<NutritionPayload>,
                        faults: Faults)
    requires search.SearchFailed? || search.results.None? || |search.results.value| == 0
    ensures var e := ImportEffect(t, search, fetchInfo, fetchNutrition, faults);
            && e.1 == t
            && e.0 == if search.SearchFailed? then Fail(500, FetchFailedMessage) else Fail(404, NoRecipeFoundMessage)
  {
  }

  /** One result. Its ingredient list is appended whether or not the recipe is already
      stored. A stored recipe gets no new recipe or nutrition row and leaves the count
      alone. A new one fails the request when its insert fails; otherwise it gets exactly
      one recipe row with the fetched or default instructions, and the count rises by one
      exactly when its nutrition was fetched and stored. */
  lemma ImportOneMeaning(t: Store, inserted: nat, k: nat, r: SearchResult,
                         fetchInfo: int -> Option<RecipeInfo>, fetchNutrition: int -> Option<NutritionPayload>,
                         faults: Faults)
    ensures var s := ImportOne(t, inserted, k, r, fetchInfo, fetchNutrition, faults);
            var stored := fetchNutrition(r.id).Some? && !faults.nutritionInsertFails(k);
            && s.t.ingredients == t.ingredients + IngredientRows(r.id, InfoIngredients(fetchInfo(r.id)))
            && s.t.users == t.users && s.t.mealPlans == t.mealPlans && s.t.starred == t.starred && s.t.ratings == t.ratings
            && (HasRecipe(t.recipes, r.id) ==>
                  s == Going(s.t, inserted) && s.t.recipes == t.recipes && s.t.nutrition == t.nutrition)
            && (!HasRecipe(t.recipes, r.id) ==>
                  (s.Stopped? <==> faults.recipeInsertFails(k))
                  && (s.Stopped? ==> s.t.recipes == t.recipes && s.t.nutrition == t.nutrition)
                  && (s.Going? ==>
                        s.t.recipes == t.recipes + [RecipeRow(t.nextRecipeId, r.id, r.title, ImportedInstructions(fetchInfo(r.id)), r.image, r.preparationMinutes, r.cookingMinutes)]
                        && s.inserted == (if stored then inserted + 1 else inserted)
                        && s.t.nutrition == (if stored then t.nutrition[r.id := ParseNutrition(fetchNutrition(r.id).value)] else t.nutrition)))
  {
  }

  /** The count never exceeds the number of recipe rows the run added, and rows are only
      ever appended to `recipes`. */
  lemma {:induction false} CountBoundedByNewRecipes(t: Store, results: seq<SearchResult>, n: nat,
                                                    fetchInfo: int -> Option<RecipeInfo>,
                                                    fetchNutrition: int -> Option<NutritionPayload>, faults: Faults)
    requires n <= |results|
    ensures var s := ImportRun(t, results, n, ImportStep(fetchInfo, fetchNutrition, faults));
            && t.recipes <= s.t.recipes
            && (s.Going? ==> s.inserted <= |s.t.recipes| - |t.recipes|)
  {
    if n > 0 {
      CountBoundedByNewRecipes(t, results, n - 1, fetchInfo, fetchNutrition, faults);
      var prev := ImportRun(t, results, n - 1, ImportStep(fetchInfo, fetchNutrition, faults));
      if prev.Going? {
        ImportOneMeaning(prev.t, prev.inserted, n - 1, results[n - 1], fetchInfo, fetchNutrition, faults);
      }
    }
  }

  /** However often the results repeat an id, also within one response, the recipe is
      stored once. */
  lemma {:induction false} ImportKeepsUnique(t: Store, results: seq<SearchResult>, n: nat,
                                             fetchInfo: int -> Option<RecipeInfo>,
                                             fetchNutrition: int -> Option<NutritionPayload>, faults: Faults)
    requires n <= |results| && UniqueApiIds(t.recipes)
    ensures UniqueApiIds(ImportRun(t, results, n, ImportStep(fetchInfo, fetchNutrition, faults)).t.recipes)
  {
    if n > 0 {
      ImportKeepsUnique(t, results, n - 1, fetchInfo, fetchNutrition, faults);
      var prev := ImportRun(t, results, n - 1, ImportStep(fetchInfo, fetchNutrition, faults));
      if prev.Going? {
        var r := results[n - 1];
        ImportOneMeaning(prev.t, prev.inserted, n - 1, r, fetchInfo, fetchNutrition, faults);
        if !HasRecipe(prev.t.recipes, r.id) {
          AppendKeepsUnique(prev.t.recipes, RecipeRow(prev.t.nextRecipeId, r.id, r.title, ImportedInstructions(fetchInfo(r.id)), r.image, r.preparationMinutes, r.cookingMinutes));
        }
      }
    }
  }

  /** One result keeps ids unique, the counters ahead and nutrition owned by a recipe. */
  lemma ImportOneKeepsWellFormed(t: Store, inserted: nat, k: nat, r: SearchResult,
                                 fetchInfo: int -> Option<RecipeInfo>, fetchNutrition: int -> Option<NutritionPayload>,
                                 faults: Faults)
    requires WellFormed(t)
    ensures WellFormed(ImportOne(t, inserted, k, r, fetchInfo, fetchNutrition, faults).t)
  {
    var info := fetchInfo(r.id);
    var t1 := t.(ingredients := t.ingredients + IngredientRows(r.id, InfoIngredients(info)));
    assert WellFormed(t1);
    if !HasRecipe(t1.recipes, r.id) && !faults.recipeInsertFails(k) {
      var row := RecipeRow(t1.nextRecipeId, r.id, r.title, ImportedInstructions(info), r.image, r.preparationMinutes, r.cookingMinutes);
      var t2 := InsertRecipe(t1, r.id, r.title, ImportedInstructions(info), r.image, r.preparationMinutes, r.cookingMinutes);
      InsertRecipeKeepsWellFormed(t1, r.id, r.title, ImportedInstructions(info), r.image, r.preparationMinutes, r.cookingMinutes);
      if fetchNutrition(r.id).Some? && !faults.nutritionInsertFails(k) {
        assert row in t2.recipes;
        StoreNutritionKeepsWellFormed(t2, r.id, ParseNutrition(fetchNutrition(r.id).value));
      }
    }
  }

  /** If every step keeps `inv`, so does a run of them. */
  lemma {:induction false} ImportRunKeeps(t: Store, results: seq<SearchResult>, n: nat,
                                          step: (Store, nat, nat, SearchResult) -> Progress, inv: Store -> bool)
    requires n <= |results| && inv(t)
    requires forall s: Store, c: nat, k: nat, r: SearchResult :: inv(s) ==> inv(step(s, c, k, r).t)
    ensures inv(ImportRun(t, results, n, step).t)
  {
    if n > 0 {
      ImportRunKeeps(t, results, n - 1, step, inv);
    }
  }

  lemma ImportRunKeepsWellFormed(t: Store, results: seq<SearchResult>, n: nat,
                                 fetchInfo: int -> Option<RecipeInfo>,
                                 fetchNutrition: int -> Option<NutritionPayload>, faults: Faults)
    requires n <= |results| && WellFormed(t)
    ensures WellFormed(ImportRun(t, results, n, ImportStep(fetchInfo, fetchNutrition, faults)).t)
  {
    var step := ImportStep(fetchInfo, fetchNutrition, faults);
    forall s: Store, c: nat, k: nat, r: SearchResult | WellFormed(s)
      ensures WellFormed(step(s, c, k, r).t)
    {
      ImportOneKeepsWellFormed(s, c, k, r, fetchInfo, fetchNutrition, faults);
    }
    ImportRunKeeps(t, results, n, step, (s: Store) => WellFormed(s));
  }

  /** The route keeps the store well formed, also when it stops half way. */
  lemma ImportEffectKeepsWellFormed(t: Store, search: SearchFetch,
                                    fetchInfo: int -> Option<RecipeInfo>, fetchNutrition: int -> Option<NutritionPayload>,
                                    faults: Faults)
    requires WellFormed(t)
    ensures WellFormed(ImportEffect(t, search, fetchInfo, fetchNutrition, faults).1)
  {
    if search.SearchFetched? && search.results.Some? && |search.results.value| > 0 {
      var results := search.results.value;
      ImportRunKeepsWellFormed(t, results, |results|, fetchInfo, fetchNutrition, faults);
    }
  }

  /** "No suitable recipes inserted" does not mean nothing was written: a single new result
      whose nutrition request throws is answered 404 and still leaves its recipe row. */
  lemma NotInsertedYetWritten(t: Store, r: SearchResult,
                              fetchInfo: int -> Option<RecipeInfo>, fetchNutrition: int -> Option<NutritionPayload>,
                              faults: Faults)
    requires !HasRecipe(t.recipes, r.id) && !faults.recipeInsertFails(0) && fetchNutrition(r.id).None?
    ensures var e := ImportEffect(t, SearchFetched(Some([r])), fetchInfo, fetchNutrition, faults);
            && e.0 == Fail(404, NoneInsertedMessage)
            && |e.1.recipes| == |t.recipes| + 1
  {
    var step := ImportStep(fetchInfo, fetchNutrition, faults);
    ImportNext(t, [r], 0, step, t, 0);
    ImportOneMeaning(t, 0, 0, r, fetchInfo, fetchNutrition, faults);
  }
}
