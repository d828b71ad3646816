/** The superadmin console's `POST /api/auth/login`: a single demo account. */
module AdminLogin {
  import opened Opt
  import opened Js
  import opened Text

  const AdminEmail: string := "admin@superadmin.com"
  const AdminPassword: string := "admin123"
  const TokenPrefix: string := "demo-token-"

  datatype AdminProfile = AdminProfile(id: string, email: string, name: string, role: string, token: string)

  /** The JSON reply and its HTTP status. */
  datatype Reply = Reply(status: nat, success: bool, data: Option<AdminProfile>, message: Option<string>, error: Option<string>)

  /** The reply to a login request. `body` is None when the request body cannot
      be read as a JSON object; the handler then answers 500 with the message of
      the error it caught, given here as `parseError`. */
  function Login(body: Option<Obj>, now: nat, parseError: string): Reply {
    match body
    case None => Reply(500, false, None, None, Some(parseError))
    case Some(b) =>
      if Get(b, "email") == Str(AdminEmail) && Get(b, "password") == Str(AdminPassword) then
        Reply(200, true,
              Some(AdminProfile("ADMIN001", AdminEmail, "Super Admin", "superadmin", TokenPrefix + NatToString(now))),
              Some("Login successful"), None)
      else
        Reply(401, false, None, None, Some("Invalid email or password"))
  }

  /** A readable body logs in exactly when it carries the demo email and
      password, both as strings; otherwise the reply is a 401. */
  lemma LoginIff(b: Obj, now: nat, parseError: string)
    ensures Login(Some(b), now, parseError).success <==>
      Get(b, "email") == Str(AdminEmail) && Get(b, "password") == Str(AdminPassword)
    ensures Login(Some(b), now, parseError).success <==> Login(Some(b), now, parseError).status == 200
    ensures !Login(Some(b), now, parseError).success ==>
      Login(Some(b), now, parseError) == Reply(401, false, None, None, Some("Invalid email or password"))
  {
  }

  /** A successful login returns the superadmin profile, whose token is the
      prefix followed by the decimal login time, which can be read back from it. */
  lemma TokenCarriesTime(b: Obj, now: nat, parseError: string)
    requires Login(Some(b), now, parseError).success
    ensures Login(Some(b), now, parseError).data.Some?
    ensures var p := Login(Some(b), now, parseError).data.value;
      && p.id == "ADMIN001" && p.email == AdminEmail && p.role == "superadmin"
      && |p.token| > |TokenPrefix| && p.token[..|TokenPrefix|] == TokenPrefix
      && IsDigitString(p.token[|TokenPrefix|..]) && DigitsValue(p.token[|TokenPrefix|..]) == now
  {
    NatToStringRoundTrip(now);
    var t := TokenPrefix + NatToString(now);
    assert t[..|TokenPrefix|] == TokenPrefix;
    assert t[|TokenPrefix|..] == NatToString(now);
  }

  /** Logins at different instants get different tokens. */
  lemma TokensDiffer(b: Obj, now: nat, later: nat, parseError: string)
    requires Login(Some(b), now, parseError).success
    requires now != later
    ensures Login(Some(b), now, parseError).data.value.token != Login(Some(b), later, parseError).data.value.token
  {
    TokenCarriesTime(b, now, parseError);
    TokenCarriesTime(b, later, parseError);
  }
}
