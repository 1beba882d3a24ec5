/** Properties of the user routes: which spellings name which role, what the
    update route ignores, and round trips through the store. */
module UserRoutesProperties {
  import opened Optional
  import opened Strings
  import opened Json
  import opened Http
  import opened UserStore
  import opened UserStoreProperties
  import opened UserRoutes

  /** Upper-casing a role's value gives its name. */
  lemma UpperValueIsName(role: Role)
    ensures Upper(role.Value()) == role.Name()
  {
    match role
    case Admin => UpperPointwise("admin", "ADMIN");
    case User => UpperPointwise("user", "USER");
    case Moderator => UpperPointwise("moderator", "MODERATOR");
  }

  /** No value denotes two roles. */
  lemma NamesOneRole(v: JsonValue, a: Role, b: Role)
    requires Names(v, a) && Names(v, b)
    ensures a == b
  {
    UpperValueIsName(a);
    UpperValueIsName(b);
  }

  /** The parse finds exactly the role the value denotes. */
  lemma ParseRoleExact(v: JsonValue, role: Role)
    ensures ParseRole(v) == ParsedRole(role) <==> Names(v, role)
  {
    if Names(v, role) {
      var r := ParseRole(v);
      assert r.ParsedRole?;
      NamesOneRole(v, r.role, role);
    }
  }

  /** Any letter case of a role's value names that role: "Admin" and "ADMIN"
      name ADMIN as "admin" does. */
  lemma AnyCaseNamesRole(s: string, role: Role)
    requires Upper(s) == role.Name()
    ensures ParseRole(JStr(s)) == ParsedRole(role)
  {
    ParseRoleExact(JStr(s), role);
  }

  lemma MixedCaseAdmin()
    ensures ParseRole(JStr("Admin")) == ParsedRole(Admin)
  {
    assert Upper("Admin") == "ADMIN";
    AnyCaseNamesRole("Admin", Admin);
  }

  /** A word longer than every role's value and name names no role. */
  lemma LongWordNamesNoRole(s: string)
    requires |s| > 9
    ensures ParseRole(JStr(s)) == InvalidRole
  {
    forall role ensures !Names(JStr(s), role) {
      assert |role.Value()| <= 9 && |role.Name()| <= 9;
    }
  }

  /** Only a string can name a role: a number, boolean, list or object given
      as the role is refused. */
  lemma NonStringNamesNoRole(v: JsonValue)
    requires v != JNull && !v.JStr?
    ensures ParseRole(v) == InvalidRole
  {
  }

  /** A `password` key in an update payload changes nothing. */
  lemma UpdateIgnoresPassword(t: UserTable, id: int, payload: map<string, JsonValue>, password: JsonValue)
    ensures UpdateUserEndpoint(t, id, payload["password" := password]) == UpdateUserEndpoint(t, id, payload)
  {
    var payload' := payload["password" := password];
    assert Get(payload', "user_role", JNull) == Get(payload, "user_role", JNull);
    assert UpdatePatch(payload', None) == UpdatePatch(payload, None);
    assert forall role :: UpdatePatch(payload', Some(role)) == UpdatePatch(payload, Some(role));
  }

  /** Updating an unknown id with a valid role answers 404 and changes nothing. */
  lemma UpdateUnknownUser(t: UserTable, id: int, payload: map<string, JsonValue>)
    requires Valid(t) && forall row <- t.rows :: row.userId != id
    requires !ParseRole(Get(payload, "user_role", JNull)).InvalidRole?
    ensures UpdateUserEndpoint(t, id, payload) == (UserNotFound, t)
  {
    LookupsSucceed(t, id, "");
  }

  /** A created user can be fetched back, with the role it was created with. */
  lemma CreateThenFetch(t: UserTable, payload: map<string, JsonValue>, hash: JsonValue -> JsonValue)
    requires Valid(t)
    requires CreateUserEndpoint(t, payload, hash).0.status == CreatedStatus
    ensures var (reply, t') := CreateUserEndpoint(t, payload, hash);
      var id := t'.rows[|t.rows|].userId;
      && GetUserEndpoint(t', id) == Reply(OkStatus, View(t'.rows[|t.rows|]))
      && View(t'.rows[|t.rows|]).fields["user_role"] == JStr(Chosen(ParseRole(Get(payload, "user_role", JNull))).GetOr(User).Value())
  {
    var parsed := ParseRole(Get(payload, "user_role", JNull));
    CreateThenGet(t, NewProfile(payload, Chosen(parsed), hash));
  }
}
