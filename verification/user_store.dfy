/** The `users` table and the operations `UserModel` runs on it. The table is
    the sequence of its rows in the order a scan without `ORDER BY` returns
    them; `nextId` is the next value of the `user_id` sequence. Column values
    are kept as the JSON values the routes received. */
module UserStore {
  import opened Optional
  import opened Json

  /** `UserRole`: each member's value and name. */
  datatype Role = Admin | User | Moderator {
    function Value(): string {
      match this
      case Admin => "admin"
      case User => "user"
      case Moderator => "moderator"
    }

    function Name(): string {
      match this
      case Admin => "ADMIN"
      case User => "USER"
      case Moderator => "MODERATOR"
    }
  }

  /** The columns a caller supplies; `JNull` is SQL NULL. */
  datatype Profile = Profile(firstName: JsonValue, lastName: JsonValue, role: Role, email: JsonValue, passwordHash: JsonValue)

  datatype UserRecord = UserRecord(userId: int, profile: Profile)

  datatype UserTable = UserTable(rows: seq<UserRecord>, nextId: int)

  datatype DbError = NotNullViolation | UniqueViolation | NegativeOffset | NegativeLimit | MultipleRows

  datatype DbResult<T> = Success(value: T) | Failure(error: DbError)

  /** Every NOT NULL column holds a value. */
  predicate Filled(p: Profile) {
    p.firstName != JNull && p.lastName != JNull && p.email != JNull && p.passwordHash != JNull
  }

  /** Two rows may coexist: the primary key and the unique `email` differ. */
  predicate Differs(a: UserRecord, b: UserRecord) {
    a.userId != b.userId && a.profile.email != b.profile.email
  }

  predicate Distinct(rows: seq<UserRecord>) {
    forall i, j :: 0 <= i < j < |rows| ==> Differs(rows[i], rows[j])
  }

  /** The table's constraints, and every id below the sequence's next value. */
  predicate Valid(t: UserTable) {
    && Distinct(t.rows)
    && forall i :: 0 <= i < |t.rows| ==> t.rows[i].userId < t.nextId && Filled(t.rows[i].profile)
  }

  function HasId(id: int): UserRecord -> bool {
    (r: UserRecord) => r.userId == id
  }

  function LacksId(id: int): UserRecord -> bool {
    (r: UserRecord) => r.userId != id
  }

  function HasEmail(email: JsonValue): UserRecord -> bool {
    (r: UserRecord) => r.profile.email == email
  }

  /** `select(User).where(...)`: the matching rows, in scan order. */
  function Where(rows: seq<UserRecord>, keep: UserRecord -> bool): (m: seq<UserRecord>)
    ensures forall r <- m :: r in rows && keep(r)
    ensures forall r <- rows :: keep(r) ==> r in m
    ensures |m| <= |rows|
  {
    if rows == [] then []
    else (if keep(rows[0]) then [rows[0]] else []) + Where(rows[1..], keep)
  }

  /** `scalar_one_or_none()`: no row, the only row, or an error. */
  function OneOrNone(rows: seq<UserRecord>): (r: DbResult<Option<UserRecord>>)
    ensures r.Failure? <==> |rows| > 1
    ensures r.Failure? ==> r.error == MultipleRows
    ensures r == Success(None) <==> rows == []
    ensures r.Success? && r.value.Some? ==> rows == [r.value.value]
  {
    if |rows| == 0 then Success(None)
    else if |rows| == 1 then Success(Some(rows[0]))
    else Failure(MultipleRows)
  }

  /** `get_user_by_id`. */
  function GetUserById(t: UserTable, id: int): (r: DbResult<Option<UserRecord>>)
    ensures r.Success? && r.value.Some? ==> r.value.value in t.rows && r.value.value.userId == id
    ensures r.Success? && r.value.None? ==> forall row <- t.rows :: row.userId != id
  {
    OneOrNone(Where(t.rows, HasId(id)))
  }

  /** `get_user_by_email`. */
  function GetUserByEmail(t: UserTable, email: string): (r: DbResult<Option<UserRecord>>)
    ensures r.Success? && r.value.Some? ==> r.value.value in t.rows && r.value.value.profile.email == JStr(email)
    ensures r.Success? && r.value.None? ==> forall row <- t.rows :: row.profile.email != JStr(email)
  {
    OneOrNone(Where(t.rows, HasEmail(JStr(email))))
  }

  predicate EmailTaken(t: UserTable, email: JsonValue) {
    exists i :: 0 <= i < |t.rows| && t.rows[i].profile.email == email
  }

  /** `create_user`: the insert takes the sequence's next id; a NULL in a NOT
      NULL column, then a repeated email, aborts the transaction. */
  function CreateUser(t: UserTable, p: Profile): (r: DbResult<(UserRecord, UserTable)>)
    ensures r.Failure? <==> !Filled(p) || EmailTaken(t, p.email)
    ensures r.Failure? ==> r.error == if !Filled(p) then NotNullViolation else UniqueViolation
    ensures r.Success? ==>
      && r.value.0.profile == p
      && r.value.1.rows == t.rows + [r.value.0]
      && r.value.1.nextId > r.value.0.userId
    ensures r.Success? && Valid(t) ==> (forall row <- t.rows :: row.userId != r.value.0.userId) && Valid(r.value.1)
  {
    if !Filled(p) then Failure(NotNullViolation)
    else if EmailTaken(t, p.email) then Failure(UniqueViolation)
    else
      var rec := UserRecord(t.nextId, p);
      var t' := UserTable(t.rows + [rec], t.nextId + 1);
      assert Valid(t) ==> Valid(t') by {
        if Valid(t) {
          forall i, j | 0 <= i < j < |t'.rows| ensures Differs(t'.rows[i], t'.rows[j]) {
            if j == |t.rows| {
              assert t'.rows[i] == t.rows[i];
            }
          }
        }
      }
      Success((rec, t'))
  }

  /** `list_users`: `OFFSET (page-1)*page_size LIMIT page_size`. A negative
      offset, then a negative limit, is an error. */
  function ListUsers(t: UserTable, page: int, pageSize: int): (r: DbResult<seq<UserRecord>>)
    ensures r.Failure? <==> (page - 1) * pageSize < 0 || pageSize < 0
    ensures r.Failure? ==> r.error == if (page - 1) * pageSize < 0 then NegativeOffset else NegativeLimit
    ensures r.Success? ==>
      var offset := (page - 1) * pageSize;
      && |r.value| <= pageSize
      && (forall k :: 0 <= k < |r.value| ==> offset + k < |t.rows| && r.value[k] == t.rows[offset + k])
      && (|r.value| == pageSize || offset + |r.value| >= |t.rows|)
  {
    var offset := (page - 1) * pageSize;
    if offset < 0 then Failure(NegativeOffset)
    else if pageSize < 0 then Failure(NegativeLimit)
    else if offset >= |t.rows| then Success([])
    else if offset + pageSize >= |t.rows| then Success(t.rows[offset..])
    else Success(t.rows[offset..offset + pageSize])
  }

  /** The new values `update_user` receives; `JNull` (Python `None`) and an
      absent role leave the column alone. */
  datatype Patch = Patch(firstName: JsonValue, lastName: JsonValue, email: JsonValue, passwordHash: JsonValue, role: Option<Role>)

  /** `after` is `given` when one was given, else `before`. */
  predicate Applied<T(==)>(before: T, after: T, given: Option<T>) {
    match given
    case Some(v) => after == v
    case None => after == before
  }

  function Given(v: JsonValue): Option<JsonValue> {
    if v == JNull then None else Some(v)
  }

  /** The loop of `update_user` over its keyword fields. */
  function Merge(p: Profile, patch: Patch): (m: Profile)
    ensures Applied(p.firstName, m.firstName, Given(patch.firstName))
    ensures Applied(p.lastName, m.lastName, Given(patch.lastName))
    ensures Applied(p.email, m.email, Given(patch.email))
    ensures Applied(p.passwordHash, m.passwordHash, Given(patch.passwordHash))
    ensures Applied(p.role, m.role, patch.role)
  {
    Profile(
      if patch.firstName != JNull then patch.firstName else p.firstName,
      if patch.lastName != JNull then patch.lastName else p.lastName,
      if patch.role.Some? then patch.role.value else p.role,
      if patch.email != JNull then patch.email else p.email,
      if patch.passwordHash != JNull then patch.passwordHash else p.passwordHash)
  }

  /** The rows with `rec` in place of the row that has its id. */
  function Replace(rows: seq<UserRecord>, rec: UserRecord): (r: seq<UserRecord>)
    ensures |r| == |rows|
    ensures forall i :: 0 <= i < |rows| ==> r[i] == if rows[i].userId == rec.userId then rec else rows[i]
  {
    seq(|rows|, i requires 0 <= i < |rows| => if rows[i].userId == rec.userId then rec else rows[i])
  }

  /** Another row than `id`'s already has `email`. */
  predicate EmailTakenByOther(t: UserTable, id: int, email: JsonValue) {
    exists i :: 0 <= i < |t.rows| && t.rows[i].userId != id && t.rows[i].profile.email == email
  }

  /** `update_user`: `None` for an unknown id; otherwise the merged record,
      unless its email belongs to another row. */
  function UpdateUser(t: UserTable, id: int, patch: Patch): (r: DbResult<(Option<UserRecord>, UserTable)>)
    ensures r.Success? && r.value.0.None? ==> r.value.1 == t && forall row <- t.rows :: row.userId != id
    ensures r.Success? && r.value.0.Some? ==>
      && GetUserById(t, id).Success?
      && GetUserById(t, id).value.Some?
      && r.value.0.value == GetUserById(t, id).value.value.(profile := Merge(GetUserById(t, id).value.value.profile, patch))
      && r.value.1.nextId == t.nextId
      && |r.value.1.rows| == |t.rows|
      && forall i :: 0 <= i < |t.rows| ==>
           r.value.1.rows[i] == if t.rows[i].userId == id then r.value.0.value else t.rows[i]
    ensures r.Failure? && r.error == UniqueViolation ==>
      && GetUserById(t, id).Success? && GetUserById(t, id).value.Some?
      && EmailTakenByOther(t, id, Merge(GetUserById(t, id).value.value.profile, patch).email)
    ensures r.Success? && Valid(t) ==> Valid(r.value.1)
  {
    match GetUserById(t, id)
    case Failure(e) => Failure(e)
    case Success(None) => Success((None, t))
    case Success(Some(rec)) =>
      var rec' := rec.(profile := Merge(rec.profile, patch));
      if EmailTakenByOther(t, id, rec'.profile.email) then Failure(UniqueViolation)
      else
        var t' := t.(rows := Replace(t.rows, rec'));
        assert Valid(t) ==> Valid(t') by {
          if Valid(t) {
            forall i, j | 0 <= i < j < |t'.rows| ensures Differs(t'.rows[i], t'.rows[j]) {
              assert Differs(t.rows[i], t.rows[j]);
            }
          }
        }
        Success((Some(rec'), t'))
  }

  /** `delete_user`: `False` for an unknown id; otherwise that row goes. */
  function DeleteUser(t: UserTable, id: int): (r: DbResult<(bool, UserTable)>)
    ensures r.Success? ==> (r.value.0 <==> exists row <- t.rows :: row.userId == id)
    ensures r.Success? && !r.value.0 ==> r.value.1 == t
    ensures r.Success? ==> forall row :: row in r.value.1.rows <==> row in t.rows && row.userId != id
    ensures r.Success? ==> r.value.1.nextId == t.nextId
    ensures r.Success? && Valid(t) ==> Valid(r.value.1)
  {
    match GetUserById(t, id)
    case Failure(e) => Failure(e)
    case Success(None) => Success((false, t))
    case Success(Some(_)) =>
      var t' := t.(rows := Where(t.rows, LacksId(id)));
      assert Valid(t) ==> Valid(t') by {
        if Valid(t) {
          WhereKeepsDistinct(t.rows, LacksId(id));
          forall i | 0 <= i < |t'.rows| ensures t'.rows[i].userId < t'.nextId && Filled(t'.rows[i].profile) {
            assert t'.rows[i] in t.rows;
          }
        }
      }
      Success((true, t'))
  }

  /** Filtering keeps rows apart. */
  lemma {:induction false} WhereKeepsDistinct(rows: seq<UserRecord>, keep: UserRecord -> bool)
    requires Distinct(rows)
    ensures Distinct(Where(rows, keep))
  {
    if rows != [] {
      var tail := Where(rows[1..], keep);
      WhereKeepsDistinct(rows[1..], keep);
      if keep(rows[0]) {
        var m := [rows[0]] + tail;
        forall i, j | 0 <= i < j < |m| ensures Differs(m[i], m[j]) {
          if i == 0 {
            assert m[j] == tail[j - 1] && tail[j - 1] in rows[1..];
          } else {
            assert m[i] == tail[i - 1] && m[j] == tail[j - 1];
          }
        }
      }
    }
  }
}
