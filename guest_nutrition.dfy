/** `POST /nutrition` for guests: the calculator applied to the request body, with no
    store involved. */
module GuestNutrition {
  import opened JsValues
  import opened NutritionCalc

  const MissingFieldsMessage := "Missing required fields."
  const CalculationFailedMessage := "Failed to calculate nutrition."

  /** The reply; its body on success is the `nutritionPlan` beside `success: true`. */
  function GuestNutritionReply(body: Biometrics): Reply<NutritionPlan> {
    if !Complete(body) then Fail(400, MissingFieldsMessage)
    else
      match CalculateNutrition(body.weight.value, body.height.value, body.age.value, body.gender, body.goal)
      case Thrown(_) => Fail(500, CalculationFailedMessage)
      case Value(plan) => Ok(200, plan)
  }

  /** A missing or zero field is 400; a gender the calculator refuses is 500; otherwise the
      plan is exactly the calculator's for the five fields. */
  lemma GuestNutritionMeaning(body: Biometrics)
    ensures var r := GuestNutritionReply(body);
            && (r == Fail(400, "Missing required fields.") <==>
                  body.weight.None? || body.weight == Some(0.0) || body.height.None? || body.height == Some(0.0)
                  || body.age.None? || body.age == Some(0.0) || body.gender.None? || body.gender == Some("")
                  || body.goal.None? || body.goal == Some(""))
            && (r == Fail(500, "Failed to calculate nutrition.") <==>
                  Complete(body) && body.gender != Some("male") && body.gender != Some("female"))
            && (r.Ok? ==> r.status == 200)
            && (r.Ok? ==> Value(r.body) == CalculateNutrition(body.weight.value, body.height.value, body.age.value, body.gender, body.goal))
  {
    if Complete(body) {
      InvalidGenderThrows(body.weight.value, body.height.value, body.age.value, body.gender, body.goal);
    }
  }

  /** The worked example through the route: 70 kg, 175 cm, 30 years, male, "lose". */
  lemma GuestExample()
    ensures GuestNutritionReply(Biometrics(Some(70.0), Some(175.0), Some(30.0), Some("male"), Some("lose")))
            == Ok(200, NutritionPlan(1479, 111, 148, 49))
  {
    WorkedExample();
    GoalShiftsCalories(70.0, 175.0, 30.0, Some("male"), Some("lose"));
  }
}
