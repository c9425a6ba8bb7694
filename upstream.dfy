/** The Spoonacular responses the routes consume, as values handed to them. A request
    that throws (transport error, non-2xx status) is `None` or a `...Failed` case. */
module Upstream {
  import opened JsValues

  /** One meal of a generated plan: `{id, title, imageType, readyInMinutes}`. */
  datatype Meal = Meal(id: int, title: string, imageType: string, readyInMinutes: int)

  /** The answer to `/mealplanner/generate?timeFrame=week`; `week` is `response.data.week`,
      `None` when the payload has no such field. */
  datatype PlanFetch = PlanFailed | PlanFetched(week: Option<map<string, seq<Meal>>>)

  /** The fields of `/recipes/{id}/nutritionWidget.json` the routes read; each may be a
      number, a string with a unit ("25g"), or absent. */
  datatype NutritionPayload = NutritionPayload(calories: Json, protein: Json, carbohydrates: Json, fat: Json)

  /** The fields of `/recipes/{id}/information` the routes read: `instructions` and the
      `original` text of each of `extendedIngredients`. */
  datatype RecipeInfo = RecipeInfo(instructions: Option<string>, extendedIngredients: Option<seq<string>>)

  /** One entry of `/recipes/complexSearch` results. */
  datatype SearchResult = SearchResult(id: int, title: string, image: string, preparationMinutes: int, cookingMinutes: int)

  /** The answer to the search; `results` is `None` when the payload has no such field. */
  datatype SearchFetch = SearchFailed | SearchFetched(results: Option<seq<SearchResult>>)

  const NoInstructions := "No instructions available"

  /** `infoResponse.data.instructions || 'No instructions available'`. */
  function InstructionsOrDefault(info: RecipeInfo): (text: string)
    ensures text != ""
    ensures TruthyText(info.instructions) ==> text == info.instructions.value
  {
    if TruthyText(info.instructions) then info.instructions.value else NoInstructions
  }
}
