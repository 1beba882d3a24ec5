/** The `/api/v1/users` routes: role parsing, the payload-to-column mapping,
    and the replies for each store outcome. A database error the route does
    not catch becomes the server's plain 500. */
module UserRoutes {
  import opened Optional
  import opened Strings
  import opened Json
  import opened Http
  import opened UserStore

  /** `v` denotes `role`: it is the role's value, or upper-cased its name. */
  predicate Names(v: JsonValue, role: Role) {
    v.JStr? && (v.s == role.Value() || Upper(v.s) == role.Name())
  }

  datatype RoleParse = NoRole | ParsedRole(role: Role) | InvalidRole

  /** `UserRole(v) if v in values else UserRole[v.upper()]`, with `None`
      meaning no role and any exception meaning an invalid one. */
  function ParseRole(v: JsonValue): (r: RoleParse)
    ensures r.NoRole? <==> v == JNull
    ensures r.ParsedRole? ==> Names(v, r.role)
    ensures r.InvalidRole? <==> v != JNull && forall role :: !Names(v, role)
  {
    if v == JNull then NoRole
    else if !v.JStr? then InvalidRole
    else if v.s == Admin.Value() then assert Names(v, Admin); ParsedRole(Admin)
    else if v.s == User.Value() then assert Names(v, User); ParsedRole(User)
    else if v.s == Moderator.Value() then assert Names(v, Moderator); ParsedRole(Moderator)
    else if Upper(v.s) == Admin.Name() then assert Names(v, Admin); ParsedRole(Admin)
    else if Upper(v.s) == User.Name() then assert Names(v, User); ParsedRole(User)
    else if Upper(v.s) == Moderator.Name() then assert Names(v, Moderator); ParsedRole(Moderator)
    else InvalidRole
  }

  const InvalidRoleReply: Reply := SignalReply(BadRequestStatus, "invalid_user_role")
  const UserNotFound: Reply := SignalReply(NotFoundStatus, "user_not_found")

  /** The `User` that `create_user_endpoint` builds: missing keys are `None`,
      the role defaults to USER, and a truthy `password` is hashed, otherwise
      `password_hash` is taken as given. */
  function NewProfile(payload: map<string, JsonValue>, role: Option<Role>, hash: JsonValue -> JsonValue): (p: Profile)
    ensures p.role == role.GetOr(User)
    ensures PyTruthy(Get(payload, "password", JNull)) ==> p.passwordHash == hash(payload["password"])
    ensures !PyTruthy(Get(payload, "password", JNull)) ==> p.passwordHash == Get(payload, "password_hash", JNull)
    ensures p.email == Get(payload, "email", JNull)
  {
    var password := Get(payload, "password", JNull);
    Profile(
      Get(payload, "first_name", JNull),
      Get(payload, "last_name", JNull),
      role.GetOr(User),
      Get(payload, "email", JNull),
      if PyTruthy(password) then hash(password) else Get(payload, "password_hash", JNull))
  }

  /** The role a parse yields, when it is not invalid. */
  function Chosen(r: RoleParse): Option<Role> {
    if r.ParsedRole? then Some(r.role) else None
  }

  /** `POST /api/v1/users/`. */
  function CreateUserEndpoint(t: UserTable, payload: map<string, JsonValue>, hash: JsonValue -> JsonValue): (res: (Reply, UserTable))
    ensures var parsed := ParseRole(Get(payload, "user_role", JNull));
      && (parsed.InvalidRole? ==> res == (InvalidRoleReply, t))
      && (res.0.status == CreatedStatus <==> !parsed.InvalidRole? && CreateUser(t, NewProfile(payload, Chosen(parsed), hash)).Success?)
      && (res.0.status != CreatedStatus ==> res.1 == t)
      && (res.0.status == CreatedStatus ==>
            && |res.1.rows| == |t.rows| + 1
            && res.1.rows[..|t.rows|] == t.rows
            && var rec := res.1.rows[|t.rows|];
               && rec.profile == NewProfile(payload, Chosen(parsed), hash)
               && res.0.body == JObj(map["user_id" := JNum(rec.userId as real), "email" := rec.profile.email]))
  {
    match ParseRole(Get(payload, "user_role", JNull))
    case InvalidRole => (InvalidRoleReply, t)
    case parsed =>
      match CreateUser(t, NewProfile(payload, Chosen(parsed), hash))
      case Failure(_) => (Unhandled, t)
      case Success((rec, t')) =>
        assert t'.rows[..|t.rows|] == t.rows;
        (Reply(CreatedStatus, JObj(map["user_id" := JNum(rec.userId as real), "email" := rec.profile.email])), t')
  }

  /** The JSON view of a row that the get and list routes return. */
  function View(rec: UserRecord): (v: JsonValue)
    ensures v.JObj? && v.fields.Keys == {"user_id", "first_name", "last_name", "email", "user_role"}
    ensures v.fields["user_role"] == JStr(rec.profile.role.Value())
  {
    JObj(map[
      "user_id" := JNum(rec.userId as real),
      "first_name" := rec.profile.firstName,
      "last_name" := rec.profile.lastName,
      "email" := rec.profile.email,
      "user_role" := JStr(rec.profile.role.Value())])
  }

  /** `GET /api/v1/users/{user_id}`. */
  function GetUserEndpoint(t: UserTable, id: int): (reply: Reply)
    ensures reply == UserNotFound <==> GetUserById(t, id) == Success(None)
    ensures reply.status == OkStatus ==> exists row <- t.rows :: row.userId == id && reply.body == View(row)
    ensures reply.status == OkStatus || reply == UserNotFound || reply == Unhandled
  {
    match GetUserById(t, id)
    case Failure(_) => Unhandled
    case Success(None) => UserNotFound
    case Success(Some(rec)) => Reply(OkStatus, View(rec))
  }

  /** `GET /api/v1/users/?page=&page_size=`. */
  function ListUsersEndpoint(t: UserTable, page: int, pageSize: int): (reply: Reply)
    ensures reply.status == OkStatus <==> ListUsers(t, page, pageSize).Success?
    ensures reply.status == OkStatus ==>
      && reply.body.JArr?
      && |reply.body.items| == |ListUsers(t, page, pageSize).value|
      && forall k :: 0 <= k < |reply.body.items| ==> reply.body.items[k] == View(ListUsers(t, page, pageSize).value[k])
  {
    match ListUsers(t, page, pageSize)
    case Failure(_) => Unhandled
    case Success(rows) => Reply(OkStatus, JArr(seq(|rows|, k requires 0 <= k < |rows| => View(rows[k]))))
  }

  /** The fields `update_user_endpoint` passes on: `password` plays no part. */
  function UpdatePatch(payload: map<string, JsonValue>, role: Option<Role>): (p: Patch)
    ensures p.passwordHash == Get(payload, "password_hash", JNull)
    ensures p.role == role
  {
    Patch(Get(payload, "first_name", JNull), Get(payload, "last_name", JNull), Get(payload, "email", JNull),
          Get(payload, "password_hash", JNull), role)
  }

  /** `PUT /api/v1/users/{user_id}`: an invalid role is refused before the
      store is touched. */
  function UpdateUserEndpoint(t: UserTable, id: int, payload: map<string, JsonValue>): (res: (Reply, UserTable))
    ensures var parsed := ParseRole(Get(payload, "user_role", JNull));
      && (parsed.InvalidRole? ==> res == (InvalidRoleReply, t))
      && (!parsed.InvalidRole? ==> match UpdateUser(t, id, UpdatePatch(payload, Chosen(parsed)))
           case Failure(_) => res == (Unhandled, t)
           case Success((None, _)) => res == (UserNotFound, t)
           case Success((Some(rec), t')) =>
             res == (Reply(OkStatus, JObj(map["signal" := JStr("user_update_success"), "user_id" := JNum(rec.userId as real)])), t'))
    ensures res.0 == UserNotFound ==> res.1 == t && forall row <- t.rows :: row.userId != id
  {
    match ParseRole(Get(payload, "user_role", JNull))
    case InvalidRole => (InvalidRoleReply, t)
    case parsed =>
      match UpdateUser(t, id, UpdatePatch(payload, Chosen(parsed)))
      case Failure(_) => (Unhandled, t)
      case Success((None, _)) => (UserNotFound, t)
      case Success((Some(rec), t')) =>
        (Reply(OkStatus, JObj(map["signal" := JStr("user_update_success"), "user_id" := JNum(rec.userId as real)])), t')
  }

  /** `DELETE /api/v1/users/{user_id}`: 204 with no content, or 404. */
  function DeleteUserEndpoint(t: UserTable, id: int): (res: (Reply, UserTable))
    ensures res.0 == UserNotFound ==> res.1 == t && forall row <- t.rows :: row.userId != id
    ensures res.0.status == NoContentStatus ==>
      && res.0.body == JNull
      && (exists row <- t.rows :: row.userId == id)
      && forall row :: row in res.1.rows <==> row in t.rows && row.userId != id
    ensures res.0.status == NoContentStatus || res.0 == UserNotFound || res == (Unhandled, t)
  {
    match DeleteUser(t, id)
    case Failure(_) => (Unhandled, t)
    case Success((false, _)) => (UserNotFound, t)
    case Success((true, t')) => (Reply(NoContentStatus, JNull), t')
  }
}
