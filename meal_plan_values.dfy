/** The pure pieces of the meal-plan routes: the `parseValue` normaliser, the slot and
    day naming, and the target-calorie formula sent to the plan generator. */
module MealPlanValues {
  import opened JsValues
  import opened Text
  import NutritionCalc

  predicate NumericChar(c: char) {
    IsDigit(c) || c == '.'
  }

  /** `s.replace(/[^\d.]/g, '')`: every character but ASCII digits and '.' removed. */
  function StripNonNumeric(s: string): string {
    if s == [] then []
    else (if NumericChar(s[0]) then [s[0]] else []) + StripNonNumeric(s[1..])
  }

  lemma {:induction false} StripResult(s: string)
    ensures forall i :: 0 <= i < |StripNonNumeric(s)| ==> NumericChar(StripNonNumeric(s)[i])
    ensures |StripNonNumeric(s)| <= |s|
    ensures (forall i :: 0 <= i < |s| ==> NumericChar(s[i])) ==> StripNonNumeric(s) == s
  {
    if s != [] {
      StripResult(s[1..]);
      var r := StripNonNumeric(s);
      var head := if NumericChar(s[0]) then [s[0]] else [];
      assert r == head + StripNonNumeric(s[1..]);
      forall i | 0 <= i < |r| ensures NumericChar(r[i]) {
        if i >= |head| { assert r[i] == StripNonNumeric(s[1..])[i - |head|]; }
      }
    }
  }

  lemma {:induction false} StripAppend(a: string, b: string)
    ensures StripNonNumeric(a + b) == StripNonNumeric(a) + StripNonNumeric(b)
  {
    if a != [] {
      assert (a + b)[1..] == a[1..] + b;
      StripAppend(a[1..], b);
    } else {
      assert a + b == b;
    }
  }

  /** `parseFloat` of a string of digits and dots: whole digits, then optionally a point
      and fraction digits; with no digit on either side of the point it is NaN (`None`). */
  function LeadingDecimal(s: string): (r: Option<real>)
    ensures r.Some? ==> r.value >= 0.0
  {
    var whole := DigitPrefix(s);
    var rest := s[|whole|..];
    var fraction := if rest != [] && rest[0] == '.' then DigitPrefix(rest[1..]) else [];
    if whole == [] && fraction == [] then None
    else
      var part := DigitsValue(fraction) as real / Pow10(|fraction|) as real;
      assert part >= 0.0 by {
        assert Pow10(|fraction|) as real > 0.0;
      }
      Some(DigitsValue(whole) as real + part)
  }

  /** `parseFloat(val.replace(/[^\d.]/g, '')) || 0`. */
  function ParseNumericString(s: string): real {
    match LeadingDecimal(StripNonNumeric(s))
    case None => 0.0
    case Some(x) => x
  }

  /** The weekly-plan route's `parseValue`: falsy gives 0, a number passes through, a
      string is read as its leading decimal after stripping, anything else gives 0. */
  function ParseValue(v: Json): real {
    if !Truthy(v) then 0.0
    else
      match v
      case Number(n) => n
      case Str(s) => ParseNumericString(s)
      case _ => 0.0
  }

  /** A number is returned unchanged (0 included, through the falsy branch); text never
      yields a negative amount, because the minus sign is stripped. */
  lemma ParseValueRange(v: Json)
    ensures v.Number? ==> ParseValue(v) == v.n
    ensures v.Str? ==> ParseValue(v) >= 0.0
    ensures !v.Number? && !v.Str? ==> ParseValue(v) == 0.0
  {
  }

  /** A whole amount followed by a unit reads back as that amount. */
  lemma ParseWholeAmount(n: nat, unit: string)
    requires forall i :: 0 <= i < |unit| ==> !NumericChar(unit[i])
    ensures ParseValue(Str(NatToString(n) + unit)) == n as real
  {
    var d := NatToString(n);
    StripAppend(d, unit);
    StripResult(d);
    StripNoNumeric(unit);
    assert StripNonNumeric(d + unit) == d;
    WholeDigits(d);
    NatToStringValue(n);
  }

  /** A run of digits with no point reads as its whole value. */
  lemma WholeDigits(d: string)
    requires |d| > 0 && AllDigits(d)
    ensures LeadingDecimal(d) == Some(DigitsValue(d) as real)
  {
    AllDigitsPrefix(d);
    WholeOnly(d);
  }

  /** With no point after the leading digits, only those digits are read. */
  lemma WholeOnly(s: string)
    requires DigitPrefix(s) != []
    requires |DigitPrefix(s)| == |s| || s[|DigitPrefix(s)|] != '.'
    ensures LeadingDecimal(s) == Some(DigitsValue(DigitPrefix(s)) as real)
  {
    var rest := s[|DigitPrefix(s)|..];
    assert rest == [] || rest[0] != '.';
    assert DigitsValue([]) == 0 && Pow10(0) == 1;
  }

  lemma AllDigitsPrefix(d: string)
    requires AllDigits(d)
    ensures DigitPrefix(d) == d
  {
    DigitPrefixOfDigits(d, []);
    assert d + [] == d;
  }

  lemma {:induction false} StripNoNumeric(s: string)
    requires forall i :: 0 <= i < |s| ==> !NumericChar(s[i])
    ensures StripNonNumeric(s) == []
  {
    if s != [] {
      StripNoNumeric(s[1..]);
    }
  }

  /** A leading minus sign is dropped with the other non-numeric characters. */
  lemma SignIgnored(s: string)
    ensures ParseValue(Str("-" + s)) == ParseValue(Str(s))
  {
    StripAppend("-", s);
    assert StripNonNumeric("-") == [];
    assert StripNonNumeric("-" + s) == StripNonNumeric(s);
    if s == [] {
      assert LeadingDecimal([]) == None;
    }
  }

  lemma TwentyFive()
    ensures NatToString(25) == "25" && DigitsValue("25") == 25
  {
    assert DigitChar(2) == '2';
    assert DigitChar(5) == '5';
    assert NatToString(2) == "2";
    assert [DigitChar(2)] + [DigitChar(5)] == "25";
    NatToStringValue(25);
  }

  /** "25g" is 25: the unit is stripped. */
  lemma TwentyFiveGrams()
    ensures ParseValue(Str("25g")) == 25.0
  {
    TwentyFive();
    assert "25" + "g" == "25g";
    ParseWholeAmount(25, "g");
  }

  /** "-5g" is 5: the minus sign is stripped with the unit. */
  lemma MinusFiveGrams()
    ensures ParseValue(Str("-5g")) == 5.0
  {
    assert DigitChar(5) == '5';
    assert NatToString(5) == "5";
    assert "5" + "g" == "5g";
    ParseWholeAmount(5, "g");
    SignIgnored("5g");
    assert "-" + "5g" == "-5g";
  }

  /** "25.5 g" is 25.5: the space and the unit go, the fraction is read. */
  lemma FractionExample()
    ensures ParseValue(Str("25.5 g")) == 25.5
  {
    FractionStripped();
    FractionRead();
  }

  lemma FractionStripped()
    ensures StripNonNumeric("25.5 g") == "25.5"
  {
    StripAppend("25.5", " g");
    StripResult("25.5");
    assert forall i :: 0 <= i < |"25.5"| ==> NumericChar("25.5"[i]);
    assert StripNonNumeric(" g") == [];
    assert "25.5" + " g" == "25.5 g";
  }

  lemma FractionRead()
    ensures LeadingDecimal("25.5") == Some(25.5)
  {
    DigitPrefixOfDigits("25", ".5");
    assert "25" + ".5" == "25.5";
    assert "25.5"[2..] == ".5";
    DigitPrefixOfDigits("5", []);
    assert ".5"[1..] == "5";
    TwentyFive();
    assert "5"[..0] == [];
    assert DigitsValue("5") == 5;
  }

  /** "1.2.3" is 1.2: reading stops at the second point. */
  lemma SecondPointExample()
    ensures ParseValue(Str("1.2.3")) == 1.2
  {
    StripResult("1.2.3");
    assert forall i :: 0 <= i < |"1.2.3"| ==> NumericChar("1.2.3"[i]);
    DigitPrefixOfDigits("1", ".2.3");
    assert "1" + ".2.3" == "1.2.3";
    assert "1.2.3"[1..] == ".2.3";
    DigitPrefixOfDigits("2", ".3");
    assert "2" + ".3" == "2.3";
    assert ".2.3"[1..] == "2.3";
    assert DigitsValue("1") == 1;
    assert DigitsValue("2") == 2;
  }

  const DayKeys: seq<string> := ["monday", "tuesday", "wednesday", "thursday", "friday", "saturday", "sunday"]

  const MealTypes: seq<string> := ["breakfast", "lunch", "dinner"]

  /** `mealTypes[i] || 'snack'`: the slot name of the `i`-th meal of a day. */
  function SlotName(i: nat): string {
    if i < |MealTypes| then MealTypes[i] else "snack"
  }

  /** The first three meals are breakfast, lunch and dinner; every later one is a snack. */
  lemma SlotNaming(i: nat)
    ensures SlotName(0) == "breakfast" && SlotName(1) == "lunch" && SlotName(2) == "dinner"
    ensures SlotName(i) == "snack" <==> i >= 3
    ensures SlotName(i) in {"breakfast", "lunch", "dinner", "snack"}
  {
  }

  /** `bmr` and `targetCalories` of the plan routes: the Mifflin-St Jeor rate with no
      activity factor, and every gender but "male" on the -161 branch. */
  function PlanTargetCalories(weight: real, height: real, age: real, gender: Option<string>, goal: Option<string>): real {
    var bmr := 10.0 * weight + 6.25 * height - 5.0 * age + (if gender == Some("male") then 5.0 else -161.0);
    var target := if goal == Some("lose") then bmr - 500.0 else bmr;
    if goal == Some("gain") then target + 500.0 else target
  }

  /** For "male" and "female" the plan target is the calculator's rate with its goal
      offset but without the 1.2 factor, so the calculator's calories are the plan target
      plus a fifth of the rate, rounded. */
  lemma TargetOmitsActivityFactor(weight: real, height: real, age: real, gender: Option<string>, goal: Option<string>)
    requires gender == Some("male") || gender == Some("female")
    ensures var bmr := NutritionCalc.Bmr(weight, height, age, gender).value;
            && PlanTargetCalories(weight, height, age, gender, goal) == bmr + NutritionCalc.GoalOffset(goal)
            && NutritionCalc.CalculateNutrition(weight, height, age, gender, goal).value.calories
               == NutritionCalc.Round(PlanTargetCalories(weight, height, age, gender, goal) + 0.2 * bmr)
  {
  }

  /** Where the calculator throws on an unknown gender, the plan target quietly uses the
      female constant. */
  lemma TargetTreatsOtherGendersAsFemale(weight: real, height: real, age: real, gender: Option<string>, goal: Option<string>)
    requires gender != Some("male")
    ensures PlanTargetCalories(weight, height, age, gender, goal) == PlanTargetCalories(weight, height, age, Some("female"), goal)
    ensures gender != Some("female") ==> NutritionCalc.CalculateNutrition(weight, height, age, gender, goal).Thrown?
  {
  }

  /** `parseInt` of a number: its integer part, cut toward zero. */
  function TruncateToInt(x: real): (r: int)
    ensures 0.0 <= x ==> r as real <= x < r as real + 1.0
    ensures x < 0.0 ==> r as real - 1.0 < x <= r as real
  {
    if x >= 0.0 then x.Floor else -((-x).Floor)
  }

  /** `POST /generate-daily-guest`. `provider` answers `/mealplanner/generate?timeFrame=day`
      for a target, `None` when the request throws; its payload is sent back unchanged and
      nothing is stored. */
  function GenerateDailyGuest<D>(body: NutritionCalc.Biometrics, provider: int -> Option<D>): Reply<D> {
    if !NutritionCalc.Complete(body) then Fail(400, "Missing required fields")
    else
      var target := PlanTargetCalories(body.weight.value, body.height.value, TruncateToInt(body.age.value) as real, body.gender, body.goal);
      match provider(NutritionCalc.Round(target))
      case None => Fail(500, "Failed to generate guest meal plan")
      case Some(plan) => Ok(200, plan)
  }

  /** An incomplete body is refused with 400 before the provider is asked; a complete one
      is answered 200 with whatever the provider returned for the rounded target, computed
      with the age cut to a whole number, or 500 when that request throws. */
  lemma DailyGuestOutcome<D>(body: NutritionCalc.Biometrics, provider: int -> Option<D>, other: int -> Option<D>)
    ensures !NutritionCalc.Complete(body) ==>
            GenerateDailyGuest(body, provider) == GenerateDailyGuest(body, other) == Fail(400, "Missing required fields")
    ensures NutritionCalc.Complete(body) ==>
            var target := NutritionCalc.Round(PlanTargetCalories(body.weight.value, body.height.value, TruncateToInt(body.age.value) as real, body.gender, body.goal));
            (provider(target) == other(target) ==> GenerateDailyGuest(body, provider) == GenerateDailyGuest(body, other))
            && (GenerateDailyGuest(body, provider).Ok? <==> provider(target).Some?)
            && (provider(target).Some? ==> GenerateDailyGuest(body, provider) == Ok(200, provider(target).value))
            && (provider(target).None? ==> GenerateDailyGuest(body, provider) == Fail(500, "Failed to generate guest meal plan"))
  {
  }
}
