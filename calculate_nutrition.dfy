/** The nutrition calculator: Mifflin-St Jeor basal metabolic rate, a sedentary
    activity factor of 1.2, a 500 kcal goal offset, and a 30/40/30 macro split
    converted at 4/4/9 kcal per gram. Numbers are exact rationals. */
module NutritionCalc {
  import opened JsValues

  datatype NutritionPlan = NutritionPlan(calories: int, proteinGrams: int, carbsGrams: int, fatsGrams: int)

  /** The calculator's five named inputs as a request body or a user row holds them;
      any of them may be missing. */
  datatype Biometrics = Biometrics(weight: Option<real>, height: Option<real>, age: Option<real>,
                                   gender: Option<string>, goal: Option<string>)

  /** `weight && height && age && gender && goal`: none missing, zero or empty. */
  predicate Complete(b: Biometrics) {
    TruthyNum(b.weight) && TruthyNum(b.height) && TruthyNum(b.age) && TruthyText(b.gender) && TruthyText(b.goal)
  }

  /** Either a value or the message of the exception the calculator throws. */
  datatype Outcome<+T> = Value(value: T) | Thrown(message: string)

  const InvalidGenderMessage := "Invalid gender specified."

  /** `Math.round`: the nearest integer, an exact half going toward +infinity. */
  function Round(x: real): int {
    (x + 0.5).Floor
  }

  /** Reference definition of half-up rounding, independent of `Floor`. */
  ghost predicate NearestHalfUp(k: int, x: real) {
    x - 0.5 < k as real <= x + 0.5
  }

  lemma RoundIsNearestHalfUp(x: real, k: int)
    ensures NearestHalfUp(Round(x), x)
    ensures NearestHalfUp(k, x) ==> k == Round(x)
  {
  }

  /** An exact half goes up; an integer stays. */
  lemma RoundHalfUp(n: int)
    ensures Round(n as real + 0.5) == n + 1
    ensures Round(n as real - 0.5) == n
    ensures Round(n as real) == n
  {
  }

  /** Shifting by a whole number shifts the rounded value by the same amount. */
  lemma RoundShift(x: real, n: int)
    ensures Round(x + n as real) == Round(x) + n
  {
    RoundIsNearestHalfUp(x + n as real, Round(x) + n);
  }

  /** Basal metabolic rate; `None` for any gender but exactly "male" or "female". */
  function Bmr(weight: real, height: real, age: real, gender: Option<string>): Option<real> {
    if gender == Some("male") then Some(10.0 * weight + 6.25 * height - 5.0 * age + 5.0)
    else if gender == Some("female") then Some(10.0 * weight + 6.25 * height - 5.0 * age - 161.0)
    else None
  }

  /** -500 kcal to lose, +500 to gain, nothing for any other goal. */
  function GoalOffset(goal: Option<string>): real {
    if goal == Some("lose") then -500.0 else if goal == Some("gain") then 500.0 else 0.0
  }

  /** `calculateNutrition({weight, height, age, gender, goal})`. */
  function CalculateNutrition(weight: real, height: real, age: real, gender: Option<string>, goal: Option<string>): Outcome<NutritionPlan> {
    match Bmr(weight, height, age, gender)
    case None => Thrown(InvalidGenderMessage)
    case Some(bmr) =>
      var calories := Round(bmr * 1.2 + GoalOffset(goal));
      Value(NutritionPlan(calories,
                          Round(calories as real * 0.3 / 4.0),
                          Round(calories as real * 0.4 / 4.0),
                          Round(calories as real * 0.3 / 9.0)))
  }

  /** The calculator throws exactly when the gender is neither "male" nor "female". */
  lemma InvalidGenderThrows(weight: real, height: real, age: real, gender: Option<string>, goal: Option<string>)
    ensures CalculateNutrition(weight, height, age, gender, goal).Thrown?
            <==> gender != Some("male") && gender != Some("female")
    ensures CalculateNutrition(weight, height, age, gender, goal).Thrown? ==>
            CalculateNutrition(weight, height, age, gender, goal).message == "Invalid gender specified."
  {
  }

  /** Calories are the Mifflin-St Jeor rate times 1.2, offset by the goal, rounded half up;
      each macro is rounded on its own from the already rounded calories. */
  lemma CalculateNutritionMeaning(weight: real, height: real, age: real, gender: Option<string>, goal: Option<string>)
    requires gender == Some("male") || gender == Some("female")
    ensures CalculateNutrition(weight, height, age, gender, goal).Value?
    ensures var p := CalculateNutrition(weight, height, age, gender, goal).value;
            var bmr := 10.0 * weight + 6.25 * height - 5.0 * age + (if gender == Some("male") then 5.0 else -161.0);
            var offset := if goal == Some("lose") then -500.0 else if goal == Some("gain") then 500.0 else 0.0;
            && NearestHalfUp(p.calories, 1.2 * bmr + offset)
            && NearestHalfUp(p.proteinGrams, 0.3 * p.calories as real / 4.0)
            && NearestHalfUp(p.carbsGrams, 0.4 * p.calories as real / 4.0)
            && NearestHalfUp(p.fatsGrams, 0.3 * p.calories as real / 9.0)
  {
    var p := CalculateNutrition(weight, height, age, gender, goal).value;
    RoundIsNearestHalfUp(Bmr(weight, height, age, gender).value * 1.2 + GoalOffset(goal), 0);
    RoundIsNearestHalfUp(p.calories as real * 0.3 / 4.0, 0);
    RoundIsNearestHalfUp(p.calories as real * 0.4 / 4.0, 0);
    RoundIsNearestHalfUp(p.calories as real * 0.3 / 9.0, 0);
  }

  /** The macros depend on the rounded calories alone: the same calories, the same split. */
  lemma MacrosFollowCalories(w1: real, h1: real, a1: real, g1: Option<string>, goal1: Option<string>,
                             w2: real, h2: real, a2: real, g2: Option<string>, goal2: Option<string>)
    requires CalculateNutrition(w1, h1, a1, g1, goal1).Value?
    requires CalculateNutrition(w2, h2, a2, g2, goal2).Value?
    requires CalculateNutrition(w1, h1, a1, g1, goal1).value.calories == CalculateNutrition(w2, h2, a2, g2, goal2).value.calories
    ensures CalculateNutrition(w1, h1, a1, g1, goal1) == CalculateNutrition(w2, h2, a2, g2, goal2)
  {
  }

  /** "lose" is exactly 500 kcal below "maintain" and "gain" exactly 500 above, after
      rounding; any goal other than "lose" or "gain" is "maintain". */
  lemma GoalShiftsCalories(weight: real, height: real, age: real, gender: Option<string>, goal: Option<string>)
    requires gender == Some("male") || gender == Some("female")
    ensures var maintain := CalculateNutrition(weight, height, age, gender, Some("maintain")).value.calories;
            && CalculateNutrition(weight, height, age, gender, Some("lose")).value.calories == maintain - 500
            && CalculateNutrition(weight, height, age, gender, Some("gain")).value.calories == maintain + 500
            && (goal != Some("lose") && goal != Some("gain") ==>
                CalculateNutrition(weight, height, age, gender, goal) == CalculateNutrition(weight, height, age, gender, Some("maintain")))
  {
    var x := Bmr(weight, height, age, gender).value * 1.2;
    RoundShift(x, -500);
    RoundShift(x, 500);
  }

  /** 70 kg, 175 cm, 30 years, male: 1648.75 kcal BMR, 1978.5 after the activity factor. */
  lemma WorkedExample()
    ensures CalculateNutrition(70.0, 175.0, 30.0, Some("male"), Some("maintain")) == Value(NutritionPlan(1979, 148, 198, 66))
    ensures CalculateNutrition(70.0, 175.0, 30.0, Some("male"), Some("lose")) == Value(NutritionPlan(1479, 111, 148, 49))
  {
    assert Round(1978.5) == 1979;
    assert Round(1478.5) == 1479;
  }
}
