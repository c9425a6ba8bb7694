/** The bearer-token middleware: it reads the Authorization header, hands the token to
    the JWT verifier (a parameter here) and either calls `next()` with
    `req.user = {userId: decoded.user_id}` or answers 401. */
module Auth {
  import opened JsValues
  import opened Text

  /** The payload of a token the verifier accepted. */
  datatype Claims = Claims(user_id: int)

  /** `Next(u)`: `req.user` is `{userId: u}` and `next()` runs once.
      `Deny`: the reply sent instead, `next()` not called. */
  datatype Outcome = Next(userId: int) | Deny(status: int, message: string)

  const NoTokenMessage := "No token, authorization denied"
  const InvalidTokenMessage := "Token is not valid"

  /** `arr[k]`, which is `undefined` past the end. */
  function ElementAt(fields: seq<string>, k: nat): Option<string> {
    if k < |fields| then Some(fields[k]) else None
  }

  /** The middleware; `verify` is `jwt.verify` with the server secret, `None` when it throws. */
  function Authenticate(header: Option<string>, verify: string -> Option<Claims>): Outcome {
    if header.None? || header.value == "" || !StartsWith(header.value, "Bearer ") then
      Deny(401, NoTokenMessage)
    else
      var token := ElementAt(Split(header.value, ' '), 1);
      if token.None? || token.value == "" then Deny(401, NoTokenMessage)
      else
        match verify(token.value)
        case None => Deny(401, InvalidTokenMessage)
        case Some(decoded) => Next(decoded.user_id)
  }

  /** The outcome, stated without `split`: the token is the text after "Bearer " up to the
      next space; an empty one is refused before the verifier is asked. */
  lemma AuthenticateOutcome(header: Option<string>, verify: string -> Option<Claims>)
    ensures var r := Authenticate(header, verify);
            if header.None? || !StartsWith(header.value, "Bearer ") then r == Deny(401, NoTokenMessage)
            else
              var token := UpToSeparator(header.value[7..], ' ');
              if token == "" then r == Deny(401, NoTokenMessage)
              else if verify(token).None? then r == Deny(401, InvalidTokenMessage)
              else r == Next(verify(token).value.user_id)
  {
    if header.Some? && StartsWith(header.value, "Bearer ") {
      var h := header.value;
      assert h == "Bearer" + [' '] + h[7..];
      SplitAfterSeparator("Bearer", ' ', h[7..]);
      SplitFirstField(h[7..], ' ');
    }
  }

  /** "Bearer a b": the token is the second space-separated field, "a". */
  lemma SecondFieldIsToken(verify: string -> Option<Claims>)
    ensures Authenticate(Some("Bearer a b"), verify) ==
            (if verify("a").Some? then Next(verify("a").value.user_id) else Deny(401, InvalidTokenMessage))
  {
    var h := "Bearer a b";
    assert h[..7] == "Bearer ";
    assert h[7..] == "a b";
    assert UpToSeparator(" b", ' ') == [];
    assert UpToSeparator("a b", ' ') == "a";
    AuthenticateOutcome(Some(h), verify);
  }

  /** "Bearer " and "Bearer  x" (two spaces) carry an empty second field: no token, and
      the verifier is not asked. */
  lemma EmptyFieldIsNoToken(verify: string -> Option<Claims>)
    ensures Authenticate(Some("Bearer "), verify) == Deny(401, NoTokenMessage)
    ensures Authenticate(Some("Bearer  x"), verify) == Deny(401, NoTokenMessage)
  {
    var h2 := "Bearer ";
    assert h2[..7] == "Bearer ";
    assert h2[7..] == [];
    AuthenticateOutcome(Some(h2), verify);
    var h3 := "Bearer  x";
    assert h3[..7] == "Bearer ";
    assert h3[7..] == " x";
    assert UpToSeparator(" x", ' ') == [];
    AuthenticateOutcome(Some(h3), verify);
  }

  /** The scheme is matched case-sensitively, and a missing header is refused. */
  lemma SchemeIsExact(verify: string -> Option<Claims>)
    ensures Authenticate(Some("bearer x"), verify) == Deny(401, NoTokenMessage)
    ensures Authenticate(None, verify) == Deny(401, NoTokenMessage)
  {
    var h := "bearer x";
    assert h[0] != "Bearer "[0];
  }
}
