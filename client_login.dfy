/** The organization console's `POST /api/auth/login`: find the organization
    account whose email and password match the body, and issue it a token. */
module ClientLogin {
  import opened Opt
  import opened Js
  import opened Text
  import Base64

  datatype Account = Account(id: string, name: string, email: string, password: string)

  /** The two accounts of the handler's built-in table. */
  const Accounts: seq<Account> := [
    Account("org-1", "Acme Organization", "admin@acme.com", "password123"),
    Account("org-2", "Tech Corp", "admin@techcorp.com", "password123")
  ]

  /** `o.email === email && o.password === password`: strict equality, so only
      string values can match. */
  predicate Matches(a: Account, email: Value, password: Value) {
    email == Str(a.email) && password == Str(a.password)
  }

  /** `accounts.find(...)`: the first matching account, if any. */
  function Find(accounts: seq<Account>, email: Value, password: Value): (r: Option<Account>)
    ensures r.None? <==> forall i :: 0 <= i < |accounts| ==> !Matches(accounts[i], email, password)
    ensures r.Some? ==>
      exists i :: (0 <= i < |accounts| && accounts[i] == r.value && Matches(r.value, email, password) &&
                   forall j :: 0 <= j < i ==> !Matches(accounts[j], email, password))
    decreases |accounts|
  {
    if accounts == [] then None
    else if Matches(accounts[0], email, password) then Some(accounts[0])
    else
      var r := Find(accounts[1..], email, password);
      assert forall i :: 0 < i < |accounts| ==> accounts[i] == accounts[1..][i - 1];
      r
  }

  // ---------------------------------------------------------------------------
  // Token
  // ---------------------------------------------------------------------------

  predicate IsAscii(s: string) {
    forall i :: 0 <= i < |s| ==> s[i] as int < 128
  }

  /** `Buffer.from(s)`: for ASCII text, UTF-8 gives one byte per character. */
  function AsciiBytes(s: string): (b: seq<Base64.Byte>)
    requires IsAscii(s)
    ensures |b| == |s|
  {
    seq(|s|, i requires 0 <= i < |s| => s[i] as int)
  }

  lemma AsciiBytesInjective(s: string, t: string)
    requires IsAscii(s) && IsAscii(t)
    requires AsciiBytes(s) == AsciiBytes(t)
    ensures s == t
  {
    assert forall i :: 0 <= i < |s| ==> AsciiBytes(s)[i] == s[i] as int;
  }

  /** The text the token encodes: `<orgId>:<milliseconds>`. */
  function TokenText(orgId: string, now: nat): string {
    orgId + ":" + NatToString(now)
  }

  lemma TokenTextAscii(orgId: string, now: nat)
    requires IsAscii(orgId)
    ensures IsAscii(TokenText(orgId, now))
  {
    NatToStringRoundTrip(now);
    var d := NatToString(now);
    assert forall i :: 0 <= i < |d| ==> '0' <= d[i] <= '9';
  }

  /** `Buffer.from(`${org.id}:${Date.now()}`).toString("base64")`. */
  function Token(orgId: string, now: nat): string
    requires IsAscii(orgId)
  {
    TokenTextAscii(orgId, now);
    Base64.Encode(AsciiBytes(TokenText(orgId, now)))
  }

  /** The token decodes to the bytes of `<orgId>:<now>`. */
  lemma TokenDecodes(orgId: string, now: nat)
    requires IsAscii(orgId)
    ensures IsAscii(TokenText(orgId, now))
    ensures Base64.Decode(Token(orgId, now)) == Some(AsciiBytes(TokenText(orgId, now)))
  {
    TokenTextAscii(orgId, now);
    Base64.DecodeEncode(AsciiBytes(TokenText(orgId, now)));
  }

  /** The text before the first `:` is the id when the id has no `:` of its own. */
  lemma SplitAtColon(a: string, x: string, b: string, y: string)
    requires ':' !in a && ':' !in b
    requires a + ":" + x == b + ":" + y
    ensures a == b && x == y
  {
    var s := a + ":" + x;
    assert forall i :: 0 <= i < |a| ==> s[i] == a[i] != ':';
    assert forall i :: 0 <= i < |b| ==> s[i] == b[i] != ':';
    assert s[|a|] == ':' && s[|b|] == ':';
    assert a == s[..|a|] == b;
    assert x == s[|a| + 1..] == y;
  }

  /** A token names its organization and its instant: two tokens are equal only
      for the same id issued in the same millisecond. */
  lemma TokenIdentifies(a: string, t: nat, b: string, u: nat)
    requires IsAscii(a) && IsAscii(b)
    requires ':' !in a && ':' !in b
    requires Token(a, t) == Token(b, u)
    ensures a == b && t == u
  {
    TokenTextAscii(a, t);
    TokenTextAscii(b, u);
    Base64.EncodeInjective(AsciiBytes(TokenText(a, t)), AsciiBytes(TokenText(b, u)));
    AsciiBytesInjective(TokenText(a, t), TokenText(b, u));
    SplitAtColon(a, NatToString(t), b, NatToString(u));
    NatToStringRoundTrip(t);
    NatToStringRoundTrip(u);
  }

  // ---------------------------------------------------------------------------
  // The handler
  // ---------------------------------------------------------------------------

  datatype LoginReply =
    | Authenticated(token: string, orgId: string, orgName: string)
    | Rejected(status: nat, error: string)

  lemma AccountsAscii()
    ensures forall i :: 0 <= i < |Accounts| ==> IsAscii(Accounts[i].id) && ':' !in Accounts[i].id
  {
    assert IsAscii("org-1") && IsAscii("org-2");
  }

  /** `POST /api/auth/login`. `body` is None when the request body cannot be
      read as a JSON object, which the handler answers with a 500. */
  function Login(body: Option<Obj>, now: nat): LoginReply {
    match body
    case None => Rejected(500, "Internal server error")
    case Some(b) =>
      match Find(Accounts, Get(b, "email"), Get(b, "password"))
      case None => Rejected(401, "Invalid credentials")
      case Some(org) =>
        AccountsAscii();
        Authenticated(Token(org.id, now), org.id, org.name)
  }

  /** A readable body is accepted exactly when some account has its email and
      password, and then the reply names the first such account and carries
      that account's token. */
  lemma LoginIff(b: Obj, now: nat)
    ensures Login(Some(b), now).Authenticated? <==>
      exists i :: 0 <= i < |Accounts| && Matches(Accounts[i], Get(b, "email"), Get(b, "password"))
    ensures Login(Some(b), now).Authenticated? ==>
      exists i :: 0 <= i < |Accounts| && Matches(Accounts[i], Get(b, "email"), Get(b, "password")) &&
        (forall j :: 0 <= j < i ==> !Matches(Accounts[j], Get(b, "email"), Get(b, "password"))) &&
        Login(Some(b), now) == Authenticated(Token(Accounts[i].id, now), Accounts[i].id, Accounts[i].name)
    ensures !Login(Some(b), now).Authenticated? ==> Login(Some(b), now) == Rejected(401, "Invalid credentials")
  {
    AccountsAscii();
  }

  /** The two built-in logins. */
  lemma KnownAccounts(now: nat)
    ensures Login(Some(map["email" := Str("admin@acme.com"), "password" := Str("password123")]), now).orgId == "org-1"
    ensures Login(Some(map["email" := Str("admin@techcorp.com"), "password" := Str("password123")]), now).orgName == "Tech Corp"
  {
    assert Matches(Accounts[0], Str("admin@acme.com"), Str("password123"));
    assert !Matches(Accounts[0], Str("admin@techcorp.com"), Str("password123"));
    assert Matches(Accounts[1], Str("admin@techcorp.com"), Str("password123"));
  }

  /** Any password other than the account's own is refused, as is a password
      sent as a number or any other non-string. */
  lemma WrongPasswordRejected(b: Obj, now: nat)
    requires Get(b, "password") != Str("password123")
    ensures Login(Some(b), now) == Rejected(401, "Invalid credentials")
  {
  }
}
