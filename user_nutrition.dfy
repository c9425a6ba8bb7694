/** `GET /:userId` of the nutrition routes: the calculator applied to a stored user's
    columns. NULL columns reach the calculator as `null`, which its arithmetic treats as 0. */
module UserNutrition {
  import opened JsValues
  import opened Tables
  import opened NutritionCalc

  const UserNotFoundMessage := "User not found."
  const ServerErrorMessage := "Server error."

  function UserNutritionReply(t: Store, userId: int): Reply<NutritionPlan> {
    if userId !in t.users then Fail(404, UserNotFoundMessage)
    else
      var user := t.users[userId];
      match CalculateNutrition(NullAsZero(user.weight), NullAsZero(user.height), NullAsZero(user.age), user.gender, user.goal)
      case Thrown(_) => Fail(500, ServerErrorMessage)
      case Value(plan) => Ok(200, plan)
  }

  /** An unknown id is 404; a stored gender other than "male" or "female" (NULL included)
      is 500; otherwise the plan is the calculator's for the row's biometric columns. */
  lemma UserNutritionMeaning(t: Store, userId: int)
    ensures var r := UserNutritionReply(t, userId);
            && (r == Fail(404, "User not found.") <==> userId !in t.users)
            && (r == Fail(500, "Server error.") <==>
                  userId in t.users && t.users[userId].gender != Some("male") && t.users[userId].gender != Some("female"))
            && (r.Ok? ==> r.status == 200 && userId in t.users)
            && (r.Ok? && userId in t.users ==>
                  var u := t.users[userId];
                  Value(r.body) == CalculateNutrition(NullAsZero(u.weight), NullAsZero(u.height), NullAsZero(u.age), u.gender, u.goal))
  {
    if userId in t.users {
      var u := t.users[userId];
      InvalidGenderThrows(NullAsZero(u.weight), NullAsZero(u.height), NullAsZero(u.age), u.gender, u.goal);
    }
  }

  /** Only the weight, height, age, gender and goal columns of the user's row decide the
      reply: the name, email, diet preference and every other table do not. */
  lemma OnlyBiometricsMatter(t1: Store, t2: Store, userId: int)
    requires userId in t1.users <==> userId in t2.users
    requires userId in t1.users ==>
               var u1 := t1.users[userId]; var u2 := t2.users[userId];
               u1.weight == u2.weight && u1.height == u2.height && u1.age == u2.age
               && u1.gender == u2.gender && u1.goal == u2.goal
    ensures UserNutritionReply(t1, userId) == UserNutritionReply(t2, userId)
  {
  }
}
