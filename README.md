# nutrisync3 backend, modelled in Dafny

This project models the request handlers of the nutrisync3 Express backend, a meal
planner. The model covers:

- the nutrition calculator (Mifflin-St Jeor basal rate, activity factor, goal offset and
  macro split);
- the bearer-token middleware;
- the weekly meal-plan generator, which fills `recipes`, `nutrition` and `meal_plans` from
  a provider's week;
- the plan-recipe view, with its lazy backfill of instructions and ingredients, and the
  ordered plan listing;
- the recipe import loop;
- the starred-meals ledger;
- the meal-rating, guest-nutrition and user-nutrition handlers.

**Database.** The database is a `Tables.Db` object with one field per table. Its
`Snapshot()` is a `Tables.Store` value. Each handler that writes is a method on that object.
Its `ensures` ties the reply and the new snapshot to a specification function of the old
snapshot (`WeeklyPlanEffect`, `RecipeEffect`, `ImportEffect`, `StarEffect`, `RateEffect`, ...).
The lemmas state the route's promises about that function. The object's invariant `Valid()` says the
snapshot is `WellFormed`: recipe and plan ids are unique and below their auto-increment counters,
external recipe ids are unique, and every nutrition row belongs to a stored recipe. The constructor
establishes it and every handler keeps it.

**Outside calls.** Every outside call is a parameter:

- the Spoonacular plan generator, nutrition widget, recipe information and search;
- the JWT verifier;
- the database errors the code tells apart.

A request that throws is `None` (or a `...Failed` case).

**Numbers and dates.** Numbers are exact rationals, and `Math.round` is `floor(x + 1/2)`.
Dates are day numbers.

Modules, one per source file, plus shared ones:

- `JsValues`: options, JSON values, truthiness, replies.
- `Text`: digits, `split`, `startsWith`, `parseInt`.
- `Tables`: rows, the store and the `Db` class.
- `Upstream`: the provider's payloads.
- `NutritionCalc`: helper/calculateNutrition.js.
- `Auth`: middleware/auth.js.
- `MealPlanValues`, `MealPlanGenerate`, `MealPlanRecipe`, `MealPlanUser`: routes/mealplan.js.
- `RecipeImport`: routes/recipes.js.
- `Starred`: routes/starred.js.
- `MealRating`: routes/mealrating.js.
- `GuestNutrition`: routes/guestNutrition.js.
- `UserNutrition`: routes/nutrition.js.

## Model

| member | source | states |
|---|---|---|
| NutritionCalc.RoundIsNearestHalfUp | helper/calculateNutrition.js:19 | `Math.round(x)` is the integer k with x - 1/2 < k <= x + 1/2, and it is the only such integer |
| NutritionCalc.RoundHalfUp | helper/calculateNutrition.js:19 | an exact half rounds up (n + 1/2 gives n + 1, n - 1/2 gives n), and an integer is unchanged |
| NutritionCalc.RoundShift | helper/calculateNutrition.js:13-19 | adding a whole number before rounding adds it after rounding |
| NutritionCalc.InvalidGenderThrows | helper/calculateNutrition.js:3-9 | the calculator throws exactly when the gender is neither "male" nor "female", with "Invalid gender specified." |
| NutritionCalc.CalculateNutritionMeaning | helper/calculateNutrition.js:3-34 | calories are 1.2 * (10w + 6.25h - 5a + 5 or -161), -500 for "lose" and +500 for "gain", rounded half up; protein, carbs and fats are round(0.3c/4), round(0.4c/4), round(0.3c/9) of the rounded calories c |
| NutritionCalc.MacrosFollowCalories | helper/calculateNutrition.js:21-27 | two results with the same calories are equal: the macros depend on the rounded calories alone |
| NutritionCalc.GoalShiftsCalories | helper/calculateNutrition.js:11-19 | "lose" is exactly 500 kcal below "maintain" and "gain" exactly 500 above, after rounding; any other goal equals "maintain" |
| NutritionCalc.WorkedExample | helper/calculateNutrition.js:1-34 | 70 kg, 175 cm, 30 years, male, maintain gives 1979 kcal, 148 g protein, 198 g carbs, 66 g fat |
| Auth.AuthenticateOutcome | middleware/auth.js:5-23 | no header or no exact "Bearer " prefix gives 401 "No token, authorization denied"; the token is the text after "Bearer " up to the next space; an empty token gives the same 401 without asking the verifier; a rejected token gives 401 "Token is not valid"; otherwise the user is `decoded.user_id` |
| Auth.SecondFieldIsToken | middleware/auth.js:11 | "Bearer a b" presents the token "a" to the verifier |
| Auth.EmptyFieldIsNoToken | middleware/auth.js:11-15 | "Bearer " and "Bearer  x" (two spaces) carry no token: 401, and the verifier is not consulted |
| Auth.SchemeIsExact | middleware/auth.js:7-9 | "bearer x" (lower case) and a missing header are both refused with 401 "No token, authorization denied" |
| Text.SplitJoin | middleware/auth.js:11 | `split(' ')` loses nothing: joining its pieces gives back the header, and no piece holds a space |
| Text.SplitFirstField | middleware/auth.js:11 | the first piece of a split is the text before the first separator |
| Text.ParseIntRoundTrip | routes/starred.js:56 | `parseInt` reads back the decimal rendering of any integer, whatever non-digit text follows |
| Text.NatToStringValue | routes/mealplan.js:85 | the decimal rendering of an id used in the image URL denotes that id |
| Tables.FindRecipe | routes/mealplan.js:87 | the lookup by external id finds nothing exactly when no recipe row has that id, and otherwise a row with that id |
| Tables.FindRecipeById | routes/mealplan.js:179-183 | the join on `recipe_id` finds nothing exactly when no recipe row has that id, and otherwise a row with that id |
| Tables.FindPlan | routes/mealplan.js:178-185 | the lookup by `plan_id` finds nothing exactly when no plan row has that id, and otherwise a row with that id |
| Tables.InsertRecipeKeepsWellFormed | routes/mealplan.js:90-92 | inserting a recipe whose external id is absent keeps ids unique, the counter ahead of every id, and every nutrition row owned by a recipe |
| Tables.StoreNutritionKeepsWellFormed | routes/mealplan.js:101-108 | a nutrition row stored under the external id of a stored recipe keeps the store well formed |
| Tables.AppendPlanKeepsWellFormed | routes/mealplan.js:128 | a plan row that takes the next `plan_id` keeps plan ids unique and the counter ahead of every id |
| Tables.AppendKeepsUnique | routes/mealplan.js:87-92 | appending a recipe whose external id is absent keeps external ids unique |
| Tables.FindAppended | routes/mealplan.js:113-114 | the recipe just inserted is the one read back by its external id |
| Tables.IngredientsOf | routes/mealplan.js:231-235 | the ingredients read for a recipe are exactly the texts of its ingredient rows |
| Tables.IngredientsOfAppend | routes/mealplan.js:231-235 | reading the ingredients of appended rows reads each part in order |
| Tables.IngredientsOfInserted | routes/mealplan.js:217-235 | the inserted ingredient list reads back as the same list, in order |
| Tables.InsertIngredients | routes/mealplan.js:217-222 | the loop appends exactly `IngredientRows(apiId, originals)` to `recipe_ingredients` and changes no other table |
| Upstream.InstructionsOrDefault | routes/mealplan.js:202 | the instructions-or-default text is never empty and is the fetched text when that is non-empty |
| MealPlanValues.StripResult | routes/mealplan.js:59 | stripping keeps only digits and points, never lengthens, and leaves a string of digits and points as it is |
| MealPlanValues.StripAppend | routes/mealplan.js:59 | stripping works character by character: it distributes over concatenation |
| MealPlanValues.LeadingDecimal | routes/mealplan.js:59 | `parseFloat` of a stripped string is never negative |
| MealPlanValues.ParseValueRange | routes/mealplan.js:52-63 | a number is returned unchanged, text never yields a negative amount, and any other value gives 0 |
| MealPlanValues.ParseWholeAmount | routes/mealplan.js:58-60 | a whole amount followed by a unit without digits or points reads back as that amount |
| MealPlanValues.WholeDigits | routes/mealplan.js:59 | a run of digits without a point reads as its whole value |
| MealPlanValues.SignIgnored | routes/mealplan.js:59 | a leading minus sign is stripped: "-x" reads as "x" |
| MealPlanValues.TwentyFiveGrams | routes/mealplan.js:52-63 | "25g" reads as 25 |
| MealPlanValues.MinusFiveGrams | routes/mealplan.js:52-63 | "-5g" reads as 5 |
| MealPlanValues.FractionExample | routes/mealplan.js:52-63 | "25.5 g" reads as 25.5 |
| MealPlanValues.SecondPointExample | routes/mealplan.js:52-63 | "1.2.3" reads as 1.2 |
| MealPlanValues.SlotNaming | routes/mealplan.js:65-76 | meals 0, 1 and 2 of a day are breakfast, lunch and dinner; every later meal, and only those, is a snack |
| MealPlanValues.TargetOmitsActivityFactor | routes/mealplan.js:29-32 | for "male" and "female", the plan target is the basal rate plus the goal offset with no 1.2 factor, so it sits a fifth of the rate below the calculator's calories |
| MealPlanValues.TargetTreatsOtherGendersAsFemale | routes/mealplan.js:29 | any gender but "male" takes the -161 constant, where the calculator would throw |
| MealPlanValues.TruncateToInt | routes/mealplan.js:264 | `parseInt` of a number is its integer part, cut toward zero |
| MealPlanValues.DailyGuestOutcome | routes/mealplan.js:255-284 | an incomplete body is 400 "Missing required fields" before the provider is asked; a complete one is answered 200 with exactly the provider's answer for the rounded target (age cut to an integer), and 500 "Failed to generate guest meal plan" when that request throws |
| MealPlanGenerate.WithoutUser | routes/mealplan.js:36-39 | the delete keeps exactly the rows of other users |
| MealPlanGenerate.GenerateWeeklyPlan | routes/mealplan.js:6-147 | the handler's reply and tables are `WeeklyPlanEffect` of the old tables, and the database stays well formed |
| MealPlanGenerate.PlaceWeekInto | routes/mealplan.js:67-72 | the day loop runs the days Monday first, day k dated `startDate + k`, and stops at the first throw |
| MealPlanGenerate.PlaceDayInto | routes/mealplan.js:74-76 | the meal loop runs a day's meals in order, meal i in slot i, and stops at the first throw |
| MealPlanGenerate.PlaceMealInto | routes/mealplan.js:78-136 | one slot's statements have the effect `PlaceMeal` specifies, aborting exactly where the nutrition fetch throws |
| MealPlanGenerate.AddPlanRowInto | routes/mealplan.js:119-136 | the nutrition check and the `INSERT ... SELECT` add one plan row copying the nutrition values when a nutrition row exists, and nothing otherwise |
| MealPlanGenerate.RunNext | routes/mealplan.js:67-74 | a loop that reached item n without throwing continues with item n from where it stands |
| MealPlanGenerate.RunAbortPersists | routes/mealplan.js:142-145 | once a slot throws, no later slot or day runs |
| MealPlanGenerate.RecipeUpsert | routes/mealplan.js:85-117 | a stored recipe is reused with nothing written; an absent one gets exactly one recipe row (no instructions, cook time 0, prep time `readyInMinutes`, the built image URL) and, when the fetch answers, one nutrition row of parsed values; the slot aborts exactly when the recipe is new and the fetch throws |
| MealPlanGenerate.ExistingRecipeNotRefetched | routes/mealplan.js:87-117 | for a stored recipe the slot never depends on the nutrition fetch and never aborts |
| MealPlanGenerate.SlotSkippedExactlyWithoutNutrition | routes/mealplan.js:119-136 | a completed slot appends exactly one plan row (the next id, the stored recipe, the date and slot, that recipe's nutrition) when a nutrition row exists, and nothing otherwise; an aborted slot appends nothing |
| MealPlanGenerate.AddPlanRowGrows | routes/mealplan.js:128-136 | the plan-row insert only appends a row of this user, dated that day, in a named slot |
| MealPlanGenerate.PlaceMealGrows | routes/mealplan.js:74-136 | one slot leaves users, ingredients, stars and ratings alone, only grows recipes, nutrition and plans, and adds only rows of this user dated that day |
| MealPlanGenerate.PlaceMealsGrows | routes/mealplan.js:74-137 | the same holds for a whole day |
| MealPlanGenerate.PlaceDaysGrows | routes/mealplan.js:67-138 | the same holds for the whole week, with dates from `startDate` to the last day |
| MealPlanGenerate.PlaceMealKeepsUnique | routes/mealplan.js:87-92 | one slot keeps recipe external ids unique |
| MealPlanGenerate.PlaceMealsKeepsUnique | routes/mealplan.js:74-137 | one day keeps recipe external ids unique |
| MealPlanGenerate.PlaceDaysKeepsUnique | routes/mealplan.js:67-138 | however often a week repeats a recipe, it is stored once |
| MealPlanGenerate.MissingDayAddsNothing | routes/mealplan.js:72 | a day missing from the provider's week contributes no rows |
| MealPlanGenerate.WithoutUserAppend | routes/mealplan.js:36-39 | deleting the user's rows from two parts deletes them from each |
| MealPlanGenerate.WithoutUserTwice | routes/mealplan.js:36-39 | the delete is idempotent |
| MealPlanGenerate.PurgeThenGrow | routes/mealplan.js:36-138 | after the delete, the loops leave other users' rows as they were, and every row of the user is a new one |
| MealPlanGenerate.RejectedRequestWritesNothing | routes/mealplan.js:8-24 | a falsy or NaN user id (400), an unknown user (404) and a falsy biometric (400) are exactly the 400/404 replies, and they change nothing; an accepted request gets 200 or 500 |
| MealPlanGenerate.PlanReplaced | routes/mealplan.js:36-138 | an accepted request keeps every other user's rows in order; every row of the user afterwards is new, dated within the seven days from `startDate`, in a named slot; users, ingredients, stars and ratings are unchanged, on failure too |
| MealPlanGenerate.ProviderFailureLeavesNoPlan | routes/mealplan.js:36-49 | when the plan request throws or has no `week`, the reply is 500 and the user has no plan rows left; recipes and nutrition are unchanged |
| MealPlanGenerate.GenerationKeepsUnique | routes/mealplan.js:85-117 | the route never stores a recipe external id twice |
| MealPlanGenerate.AddPlanRowKeepsWellFormed | routes/mealplan.js:128-129 | the conditional plan insert keeps the store well formed |
| MealPlanGenerate.PlaceMealKeepsWellFormed | routes/mealplan.js:85-136 | one slot keeps recipe and plan ids unique, both counters ahead, and every nutrition row owned by a stored recipe |
| MealPlanGenerate.PlaceMealsKeepsWellFormed | routes/mealplan.js:74-137 | one day keeps the store well formed |
| MealPlanGenerate.PlaceDaysKeepsWellFormed | routes/mealplan.js:67-138 | the days of a week keep the store well formed |
| MealPlanGenerate.WithoutUserKeepsPlanIds | routes/mealplan.js:36-39 | the delete keeps plan ids unique and below the counter |
| MealPlanGenerate.GenerationKeepsWellFormed | routes/mealplan.js:6-147 | whatever the provider answers and wherever a run aborts, the route leaves the store well formed |
| MealPlanUser.FieldRank | routes/mealplan.js:159 | `FIELD` ranks breakfast 1, lunch 2, dinner 3, and exactly every other slot 0 |
| MealPlanUser.JoinRecipes | routes/mealplan.js:157 | a plan row joins with exactly the recipes having its `recipe_id` |
| MealPlanUser.UserRows | routes/mealplan.js:155-158 | the join lists exactly the user's plan rows paired with a matching recipe |
| MealPlanUser.InsertListing | routes/mealplan.js:159 | inserting into an ordered listing keeps it ordered and adds exactly that row |
| MealPlanUser.SortListings | routes/mealplan.js:159 | the sorted rows are ordered by date and then `FIELD` rank, and are a permutation of the joined rows |
| MealPlanUser.UserPlanMeaning | routes/mealplan.js:154-165 | 404 "No meal plan found for this user." exactly when none of the user's rows joins a recipe; otherwise 200 with exactly the joined rows in the query's order |
| MealPlanUser.SnackListedFirstInItsDay | routes/mealplan.js:159 | dates never decrease, and within a day a snack is never listed after breakfast, lunch or dinner |
| MealPlanUser.MealsInDayOrder | routes/mealplan.js:159 | within one day no breakfast is listed after a lunch or a dinner, and no lunch after a dinner |
| MealPlanRecipe.SetInstructions | routes/mealplan.js:205-208 | the UPDATE rewrites the instructions of exactly the rows with that external id and leaves every other row as it was |
| MealPlanRecipe.SetInstructionsKeepsWellFormed | routes/mealplan.js:205-208 | rewriting instructions keeps every key and id, so the store stays well formed |
| MealPlanRecipe.RecipeEffectKeepsWellFormed | routes/mealplan.js:174-253 | viewing a plan's recipe, with or without a backfill, leaves the store well formed |
| MealPlanRecipe.RecipeDetailsRoute | routes/mealplan.js:174-253 | the handler's reply and tables are `RecipeEffect` of the old tables, and the database stays well formed |
| MealPlanRecipe.NotFoundExactly | routes/mealplan.js:178-189 | 404 "Recipe not found for this plan." exactly when the plan row or its recipe is missing, with nothing written; otherwise 200 |
| MealPlanRecipe.StoredInstructionsServed | routes/mealplan.js:195 | a recipe with instructions is served as stored, without consulting the information endpoint and without writing |
| MealPlanRecipe.FetchErrorNotPersisted | routes/mealplan.js:225-228 | when the information request throws, the placeholder text is sent but nothing is written |
| MealPlanRecipe.BackfillWrites | routes/mealplan.js:196-224 | a successful fetch stores the fetched or default instructions in every row of the recipe; it appends the ingredient list, in order, exactly when the recipe had no ingredient rows and the list is non-empty; it answers with the stored text and the recipe's ingredients |
| MealPlanRecipe.BackfillAnswer | routes/mealplan.js:231-248 | after a backfill the answer's instructions are the stored text and its ingredients are those read after the insert |
| MealPlanRecipe.BackfillIngredients | routes/mealplan.js:210-224 | the ingredient insert adds the list exactly when the recipe had none, and the read afterwards returns the old list followed by the added one |
| MealPlanRecipe.SecondViewChangesNothing | routes/mealplan.js:195-229 | viewing a plan's recipe again after a successful view gives the same answer and writes nothing |
| RecipeImport.ParseStringValue | routes/recipes.js:88-91 | this file's `parseValue` never yields a negative amount |
| RecipeImport.ParseValuesDiffer | routes/recipes.js:88-91 | a number gives 0 here but passes through the weekly-plan route's `parseValue`; on text the two agree |
| RecipeImport.FetchRecipes | routes/recipes.js:10-128 | the handler's reply and tables are `ImportEffect` of the old tables, and the database stays well formed |
| RecipeImport.ImportLoop | routes/recipes.js:30-116 | the loop runs the results in order from a count of 0 and leaves it at the first failed recipe insert |
| RecipeImport.ImportResult | routes/recipes.js:31-116 | one loop body has the effect `ImportOne` specifies, including the count |
| RecipeImport.InsertInfoIngredients | routes/recipes.js:40-57 | the information step yields the fetched or default instructions (the default also when it throws) and appends the non-empty ingredient list, in order |
| RecipeImport.ImportNext | routes/recipes.js:31 | a loop that reached result n continues with result n from where it stands |
| RecipeImport.ImportStopPersists | routes/recipes.js:69-77 | once a recipe insert fails, no later result runs |
| RecipeImport.NothingToImport | routes/recipes.js:24-26 | a failed search is 500 "Failed to fetch recipe."; an empty or missing result list is 404 "No suitable recipe found"; neither writes |
| RecipeImport.ImportOneMeaning | routes/recipes.js:31-116 | the ingredient list is appended whether or not the recipe exists; an existing recipe adds no recipe or nutrition row and leaves the count; a new one stops the loop exactly when its insert fails; otherwise it adds one recipe row with the fetched or default instructions, and the count rises exactly when its nutrition was fetched and stored |
| RecipeImport.CountBoundedByNewRecipes | routes/recipes.js:112 | recipe rows are only appended, and the count never exceeds the number of rows added |
| RecipeImport.ImportOneKeepsWellFormed | routes/recipes.js:32-115 | one search result keeps recipe ids unique, the counter ahead, and every nutrition row owned by a stored recipe |
| RecipeImport.ImportRunKeepsWellFormed | routes/recipes.js:30-116 | the import loop keeps the store well formed, also when a recipe insert stops it |
| RecipeImport.ImportEffectKeepsWellFormed | routes/recipes.js:10-128 | the import route leaves the store well formed |
| RecipeImport.ImportKeepsUnique | routes/recipes.js:59-65 | a recipe external id repeated in the results, also within one response, is stored once |
| RecipeImport.NotInsertedYetWritten | routes/recipes.js:118-120 | "No suitable recipes inserted" (404) can come with a recipe row written |
| Starred.WithoutStar | routes/starred.js:37-40 | the delete keeps exactly the rows other than the pair, and deletes a row exactly when the pair is present |
| Starred.Star | routes/starred.js:6-30 | the star handler's reply and tables are `StarEffect` of the old tables, and the database stays well formed |
| Starred.Unstar | routes/starred.js:32-51 | the unstar handler's reply and tables are `UnstarEffect` of the old tables, and the database stays well formed |
| Starred.StarMeal | routes/starred.js:6-8 | middleware then star handler: a denial is the reply with nothing written |
| Starred.UnstarMeal | routes/starred.js:32-34 | middleware then unstar handler: a denial is the reply with nothing written |
| Starred.StarMeaning | routes/starred.js:11-25 | a present pair is 400 "Meal already starred" with nothing changed; an absent pair is appended as the newest row with 201; no other table changes |
| Starred.UnstarMeaning | routes/starred.js:37-46 | 200 exactly when the pair was present; an absent pair is 404 "Starred meal not found" with nothing changed; only that pair is removed |
| Starred.AbsentUnchanged | routes/starred.js:37-44 | deleting an absent pair leaves the table exactly as it was |
| Starred.WithoutStarDistinct | routes/starred.js:37-40 | the delete keeps pairs distinct, and removes exactly one row of a distinct table holding the pair |
| Starred.LedgerStaysDistinct | routes/starred.js:11-23 | star and unstar keep every pair recorded at most once |
| Starred.StarThenUnstar | routes/starred.js:6-51 | starring an unstarred meal and then unstarring it restores the tables exactly |
| Starred.CheckMeaning | routes/starred.js:79-89 | `isStarred` is membership of the token user's pair: true after a star of it, false after an unstar |
| Starred.RoutesActForTokenUser | routes/starred.js:6-89 | star, unstar and check act for the user the token names; a denial is the 401 reply with nothing changed |
| Starred.RecipeJoin | routes/starred.js:65-66 | a plan row joins with exactly the recipes having its `recipe_id`, nutrition left-joined |
| Starred.PlanJoin | routes/starred.js:64 | a star joins with exactly the plan rows having its `plan_id` |
| Starred.JoinStars | routes/starred.js:62-66 | the joined rows are exactly those of a star, a plan row with its id, and that plan's recipe |
| Starred.NewestFirst | routes/starred.js:67-68 | the listed stars are exactly the user's |
| Starred.ListMeaning | routes/starred.js:53-72 | 403 "Unauthorized" exactly when the path does not `parseInt` to the token user; otherwise 200 with exactly the user's stars whose plan row and recipe still exist |
| Starred.NewestStarListedFirst | routes/starred.js:68 | a meal just starred is listed first, ahead of the earlier listing unchanged |
| Starred.UnstarredNotListed | routes/starred.js:37-70 | after an unstar no listed row belongs to that plan |
| MealRating.SubmitRating | routes/mealrating.js:5-22 | the handler's reply and tables are `RateEffect` of the old tables, and the database stays well formed |
| MealRating.RateMeaning | routes/mealrating.js:8-21 | a missing or zero user, plan or rating is exactly the 400, with nothing written; with the fields present an insert error is 500 "Failed to submit meal rating.", with nothing written; otherwise exactly one row is appended, with 201, holding the request's user, plan and rating and its review, or NULL when the review is missing or empty; no other table changes |
| MealRating.RatingTwiceKeepsBoth | routes/mealrating.js:13-15 | rating the same meal twice appends two rows |
| GuestNutrition.GuestNutritionMeaning | routes/guestNutrition.js:6-24 | a missing or zero field is exactly the 400 "Missing required fields."; a refused gender is exactly the 500 "Failed to calculate nutrition."; otherwise the plan is the calculator's for the five fields |
| GuestNutrition.GuestExample | routes/guestNutrition.js:14-19 | 70 kg, 175 cm, 30 years, male, "lose" gives 1479 kcal, 111 g protein, 148 g carbs, 49 g fat |
| UserNutrition.UserNutritionMeaning | routes/nutrition.js:6-32 | an unknown id is exactly the 404 "User not found."; a stored gender other than male or female is exactly the 500 "Server error."; otherwise the plan is the calculator's for the row's weight, height, age (NULL as 0), gender and goal |
| UserNutrition.OnlyBiometricsMatter | routes/nutrition.js:19-25 | rows that agree on weight, height, age, gender and goal get the same reply, whatever their other columns and the other tables hold |

## Left out

- routes/auth.js, index.js and mailer.js are not part of this model. They hold password hashing, token signing, email transport and Express wiring.
- `/trending` in routes/mealplan.js is not modelled, because its order is random.
- Dates are day numbers. `new Date`, `setDate`, time zones and `toISOString` are not modelled, and neither is the default start date of "today".
- Arithmetic is exact, with no IEEE-754 rounding in the basal rate, the macros or `parseFloat`. NaN and Infinity are not represented.
- Requests run one at a time. Interleavings of concurrent requests between a check and its insert are not modelled.
- Database errors are modelled only where the code tells them apart:
  - the recipe and nutrition inserts of the recipe import;
  - the rating insert.
  Any other query error, and the generic 500 replies it would cause, is not modelled. These are the "Server error" replies of starred.js, "Failed to fetch meal plan." and "Failed to fetch recipe details.".
- Path parameters are modelled as integers, and request-body values as numbers and strings of the right kinds. JavaScript's and MySQL's coercions of other inputs are not modelled:
  - string ids;
  - strings multiplied in the calculator;
  - a path such as "12.7" that `parseInt` reads as 12 while the query compares 12.7.
- `parseInt` is decimal only: leading white space, hexadecimal prefixes and exponents are not modelled.
- Starred listing:
  - `Starred.ListEffect` queries with the token user, while the route passes the path text. The two select the same rows for a canonical decimal path; for paths such as "12.7" or "12e1" they differ, as the coercions above describe.
  - `starred_at` is the order of insertion, so stars in the same second are not reordered.
- A token whose `user_id` is a string, which the strict comparison of starred.js:56 would always refuse, is not representable: `Claims.user_id` is an integer.
- `nutrition` is a map keyed by `api_recipe_id`, as the schema's use implies, so a recipe has at most one nutrition row. NULL instructions are the empty string.
- Console logging is not modelled, nor the response formatting beyond status, message and the modelled body. The unused `recipe` variable of routes/recipes.js:28 is not modelled either.
- MealPlanGenerate.PlaceDaysGrows and the other `...Grows` lemmas state only what changes in `recipes` and `nutrition`:
  - `recipes` only gains rows;
  - `nutrition` only gains keys.
  
  They do not state which rows or values are added. `RecipeUpsert` states that per slot.
