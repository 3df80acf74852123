/** Mock credentials and the session cookie. The Base64 and JSON codecs are not modelled:
    they are the parameters `serialize` (the session object to a cookie value) and
    `deserialize` (a cookie value to the parsed object, or None when decoding or parsing
    throws or the result is not an object). */
module Auth {
  import opened Types

  datatype Role = Landlord | TenantUser
  {
    function Name(): string {
      match this
      case Landlord => "landlord"
      case TenantUser => "tenant"
    }
  }

  datatype MockUser = MockUser(
    id: string, email: string, name: string, role: Role, tenantSlug: Option<string>)

  /** A user table entry: the user and the password it logs in with. */
  datatype UserEntry = UserEntry(user: MockUser, password: string)

  const MOCK_USERS: seq<UserEntry> := [
    UserEntry(MockUser("user-landlord", "landlord@demo.com", "Alex Johnson", Landlord, None), "demo123"),
    UserEntry(MockUser("user-maria", "maria@demo.com", "Maria Lopez", TenantUser, Some("portland-oak-st")), "demo123"),
    UserEntry(MockUser("user-james", "james@demo.com", "James Kim", TenantUser, Some("chicago-pine-rd")), "demo123")
  ]

  predicate Matches(e: UserEntry, email: string, password: string) {
    e.user.email == email && e.password == password
  }

  /** `users.find(...)` on email and password, with the password dropped from the result:
      the first entry that matches both, or None when none does. */
  function FindUser(users: seq<UserEntry>, email: string, password: string): (r: Option<MockUser>)
    ensures r.None? <==> forall i :: 0 <= i < |users| ==> !Matches(users[i], email, password)
    ensures r.Some? ==>
      exists i :: && 0 <= i < |users| && Matches(users[i], email, password)
                  && r.value == users[i].user
                  && forall j :: 0 <= j < i ==> !Matches(users[j], email, password)
  {
    if users == [] then None
    else if Matches(users[0], email, password) then Some(users[0].user)
    else
      var r := FindUser(users[1..], email, password);
      assert forall i :: 1 <= i < |users| ==> users[i] == users[1..][i - 1];
      r
  }

  /** `validateCredentials`: only a demo account's own email with the shared password
      logs in, and the user found is that account's. */
  function ValidateCredentials(email: string, password: string): (r: Option<MockUser>)
    ensures password != "demo123" ==> r.None?
    ensures r.Some? ==> r.value.email == email && exists i :: 0 <= i < |MOCK_USERS| && MOCK_USERS[i].user == r.value
  {
    FindUser(MOCK_USERS, email, password)
  }

  /** Each demo account logs in with its own email and the password "demo123"; an email
      that is not a demo account's, or any other password, logs no one in. */
  lemma ValidateDemoAccounts(email: string, password: string)
    ensures forall i :: 0 <= i < |MOCK_USERS| ==>
      ValidateCredentials(MOCK_USERS[i].user.email, "demo123") == Some(MOCK_USERS[i].user)
    ensures (forall i :: 0 <= i < |MOCK_USERS| ==> MOCK_USERS[i].user.email != email)
            ==> ValidateCredentials(email, password).None?
    ensures password != "demo123" ==> ValidateCredentials(email, password).None?
  {
    forall i | 0 <= i < |MOCK_USERS|
      ensures ValidateCredentials(MOCK_USERS[i].user.email, "demo123") == Some(MOCK_USERS[i].user)
    {
      assert Matches(MOCK_USERS[i], MOCK_USERS[i].user.email, "demo123");
      assert forall j :: 0 <= j < |MOCK_USERS| && j != i ==> MOCK_USERS[j].user.email != MOCK_USERS[i].user.email;
    }
  }

  /** The parsed cookie: each field is None when the JSON object lacks it. */
  datatype SessionObject = SessionObject(
    userId: Option<string>,
    email: Option<string>,
    name: Option<string>,
    role: Option<string>,
    tenantSlug: Option<string>)

  /** A JavaScript truthiness test on an optional string field. */
  predicate Truthy(f: Option<string>) {
    f.Some? && f.value != ""
  }

  /** The session object that `encodeSession` builds: `tenantSlug` is included only when
      the user has a non-empty one. */
  function SessionOf(user: MockUser): (s: SessionObject)
    ensures s.userId == Some(user.id) && s.email == Some(user.email)
    ensures s.name == Some(user.name) && s.role == Some(user.role.Name())
    ensures s.tenantSlug.Some? <==> Truthy(user.tenantSlug)
    ensures s.tenantSlug.Some? ==> s.tenantSlug == user.tenantSlug
  {
    SessionObject(
      Some(user.id), Some(user.email), Some(user.name), Some(user.role.Name()),
      if Truthy(user.tenantSlug) then user.tenantSlug else None)
  }

  function EncodeSession(user: MockUser, serialize: SessionObject -> string): string {
    serialize(SessionOf(user))
  }

  /** The session stored in a cookie, or None when the cookie cannot be decoded or lacks a
      non-empty user id, email or role. The parsed object is returned unchanged: the role
      and the other fields are not checked. */
  function DecodeSession(cookie: string, deserialize: string -> Option<SessionObject>)
    : (r: Option<SessionObject>)
    ensures r.Some? ==> deserialize(cookie) == r
    ensures r.Some? ==> Truthy(r.value.userId) && Truthy(r.value.email) && Truthy(r.value.role)
    ensures r.None? <==> (
      || deserialize(cookie).None?
      || !Truthy(deserialize(cookie).value.userId)
      || !Truthy(deserialize(cookie).value.email)
      || !Truthy(deserialize(cookie).value.role))
  {
    match deserialize(cookie)
    case None => None
    case Some(parsed) =>
      if !Truthy(parsed.userId) || !Truthy(parsed.email) || !Truthy(parsed.role) then None
      else Some(parsed)
  }

  /** Every demo account has a non-empty id and email, and a tenant has a slug. */
  lemma MockUsersWellFormed()
    ensures forall e :: e in MOCK_USERS ==>
      e.user.id != "" && e.user.email != ""
      && (e.user.role == TenantUser ==> Truthy(e.user.tenantSlug))
  {
  }

  /** With a codec that decodes what it encodes, the session of a user with a non-empty id
      and email survives the round trip, field by field. */
  lemma {:induction false} EncodeDecodeRoundTrip(
    user: MockUser, serialize: SessionObject -> string, deserialize: string -> Option<SessionObject>)
    requires forall s :: deserialize(serialize(s)) == Some(s)
    requires user.id != "" && user.email != ""
    ensures DecodeSession(EncodeSession(user, serialize), deserialize) == Some(SessionOf(user))
    ensures DecodeSession(EncodeSession(user, serialize), deserialize).value.role == Some(user.role.Name())
  {
    var s := SessionOf(user);
    assert deserialize(serialize(s)) == Some(s);
    assert user.role.Name() != "";
  }

  /** Whoever logs in successfully gets a cookie that decodes back to their session. */
  lemma LoginCookieDecodes(
    email: string, password: string,
    serialize: SessionObject -> string, deserialize: string -> Option<SessionObject>)
    requires forall s :: deserialize(serialize(s)) == Some(s)
    requires ValidateCredentials(email, password).Some?
    ensures var user := ValidateCredentials(email, password).value;
      DecodeSession(EncodeSession(user, serialize), deserialize) == Some(SessionOf(user))
  {
    MockUsersWellFormed();
    EncodeDecodeRoundTrip(ValidateCredentials(email, password).value, serialize, deserialize);
  }
}
