/** The superadmin console's `POST /api/auth/change-password`: it validates the
    new password and reports success; nothing is stored. */
module ChangePassword {
  import opened Opt
  import opened Js
  import opened Text

  /** The JSON reply and its HTTP status. */
  datatype Reply = Reply(status: nat, success: bool, message: Option<string>, error: Option<string>)

  /** What reading `.length` from a value gives. */
  datatype LengthRead =
    | Length(n: nat)         // a string's length in UTF-16 code units
    | NoLength               // `undefined`, for numbers, booleans and dates
    | Throws(message: string) // a TypeError, for `undefined` and `null`

  function ReadLength(v: Value): LengthRead {
    match v
    case Str(s) => Length(Utf16Length(s))
    case Undefined => Throws("Cannot read properties of undefined (reading 'length')")
    case Null => Throws("Cannot read properties of null (reading 'length')")
    case _ => NoLength
  }

  const MinLength: nat := 8

  /** The reply to a change-password request. The checks run in order: the two
      new passwords must be strictly equal, then the new one must not be shorter
      than eight code units. `undefined < 8` is false, so a non-string password
      passes the length check; reading the length of a missing or `null`
      password throws and the handler answers 500 with the error's message.
      `body` is None when the body cannot be read as a JSON object, and
      `parseError` is the message of the error that raises. */
  function Change(body: Option<Obj>, parseError: string): Reply {
    match body
    case None => Reply(500, false, None, Some(parseError))
    case Some(b) =>
      var newPassword := Get(b, "newPassword");
      if newPassword != Get(b, "confirmPassword") then
        Reply(400, false, None, Some("New passwords do not match"))
      else
        match ReadLength(newPassword)
        case Throws(m) => Reply(500, false, None, Some(m))
        case Length(n) =>
          if n < MinLength then Reply(400, false, None, Some("Password must be at least 8 characters"))
          else Reply(200, true, Some("Password changed successfully"), None)
        case NoLength => Reply(200, true, Some("Password changed successfully"), None)
  }

  /** For a string password, the change succeeds exactly when the confirmation
      equals it and it is at least eight UTF-16 code units long; every failure is
      a 400 naming the first check that failed. */
  lemma StringPasswordIff(b: Obj, s: string, parseError: string)
    requires Get(b, "newPassword") == Str(s)
    ensures Change(Some(b), parseError).success <==>
      Get(b, "confirmPassword") == Str(s) && Utf16Length(s) >= MinLength
    ensures Change(Some(b), parseError).success <==> Change(Some(b), parseError).status == 200
    ensures Get(b, "confirmPassword") != Str(s) ==>
      Change(Some(b), parseError).error == Some("New passwords do not match")
    ensures Get(b, "confirmPassword") == Str(s) && Utf16Length(s) < MinLength ==>
      Change(Some(b), parseError) == Reply(400, false, None, Some("Password must be at least 8 characters"))
  {
  }

  /** The current password is never looked at. */
  lemma CurrentPasswordIgnored(b: Obj, v: Value, parseError: string)
    ensures Change(Some(b["currentPassword" := v]), parseError) == Change(Some(b), parseError)
  {
    assert Get(b["currentPassword" := v], "newPassword") == Get(b, "newPassword");
    assert Get(b["currentPassword" := v], "confirmPassword") == Get(b, "confirmPassword");
  }

  /** A body without the new passwords passes the equality check (both are
      `undefined`) and then fails with a 500 rather than a validation error. */
  lemma MissingPasswordsThrow(b: Obj, parseError: string)
    requires "newPassword" !in b && "confirmPassword" !in b
    ensures Change(Some(b), parseError) ==
      Reply(500, false, None, Some("Cannot read properties of undefined (reading 'length')"))
  {
  }

  /** A numeric password equal to its confirmation is accepted whatever its value,
      because the length check does not apply to numbers. */
  lemma NumericPasswordAccepted(b: Obj, n: int, parseError: string)
    requires Get(b, "newPassword") == Num(n) && Get(b, "confirmPassword") == Num(n)
    ensures Change(Some(b), parseError).success
  {
  }

  /** A string of characters from the Basic Multilingual Plane has one code unit
      per character, so the minimum counts characters. */
  lemma {:induction false} BmpLength(s: string)
    requires forall i :: 0 <= i < |s| ==> s[i] as int <= 0xFFFF
    ensures Utf16Length(s) == |s|
    decreases |s|
  {
    if s != [] {
      BmpLength(s[1..]);
    }
  }

  /** "1234567" is refused and "12345678" accepted. */
  lemma LengthBoundary(parseError: string)
    ensures Change(Some(map["newPassword" := Str("1234567"), "confirmPassword" := Str("1234567")]), parseError).status == 400
    ensures Change(Some(map["newPassword" := Str("12345678"), "confirmPassword" := Str("12345678")]), parseError).success
  {
    BmpLength("1234567");
    BmpLength("12345678");
  }
}
