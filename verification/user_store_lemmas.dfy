/** Properties of the users table across operations: lookups on a table that
    keeps its constraints, create-then-get, update idempotence, delete
    counting, and pagination covering the table. */
module UserStoreProperties {
  import opened Optional
  import opened Json
  import opened UserStore

  /** No two rows satisfy `keep`. */
  predicate AtMostOne(rows: seq<UserRecord>, keep: UserRecord -> bool) {
    forall i, j :: 0 <= i < j < |rows| && keep(rows[i]) ==> !keep(rows[j])
  }

  lemma {:induction false} WhereAtMostOne(rows: seq<UserRecord>, keep: UserRecord -> bool)
    requires AtMostOne(rows, keep)
    ensures |Where(rows, keep)| <= 1
  {
    if rows != [] {
      var tail := rows[1..];
      assert AtMostOne(tail, keep) by {
        forall i, j | 0 <= i < j < |tail| && keep(tail[i]) ensures !keep(tail[j]) {
          assert tail[i] == rows[i + 1] && tail[j] == rows[j + 1];
        }
      }
      WhereAtMostOne(tail, keep);
      if keep(rows[0]) {
        assert forall r <- tail :: !keep(r) by {
          forall r <- tail ensures !keep(r) {
            var j :| 0 <= j < |tail| && tail[j] == r;
            assert rows[j + 1] == r;
          }
        }
        WhereNone(tail, keep);
      }
    }
  }

  /** Nothing matches, nothing is selected. */
  lemma {:induction false} WhereNone(rows: seq<UserRecord>, keep: UserRecord -> bool)
    requires forall r <- rows :: !keep(r)
    ensures Where(rows, keep) == []
  {
    if rows != [] {
      assert forall r <- rows[1..] :: r in rows;
      WhereNone(rows[1..], keep);
    }
  }

  /** At most one row has a given id. */
  lemma IdMatchesAtMostOne(t: UserTable, id: int)
    requires Valid(t)
    ensures |Where(t.rows, HasId(id))| <= 1
  {
    assert AtMostOne(t.rows, HasId(id)) by {
      forall i, j | 0 <= i < j < |t.rows| && HasId(id)(t.rows[i]) ensures !HasId(id)(t.rows[j]) {
        assert Differs(t.rows[i], t.rows[j]);
      }
    }
    WhereAtMostOne(t.rows, HasId(id));
  }

  /** On a table that keeps its constraints, neither lookup fails. */
  lemma LookupsSucceed(t: UserTable, id: int, email: string)
    requires Valid(t)
    ensures GetUserById(t, id).Success?
    ensures GetUserByEmail(t, email).Success?
  {
    IdMatchesAtMostOne(t, id);
    assert AtMostOne(t.rows, HasEmail(JStr(email))) by {
      forall i, j | 0 <= i < j < |t.rows| && HasEmail(JStr(email))(t.rows[i])
        ensures !HasEmail(JStr(email))(t.rows[j])
      {
        assert Differs(t.rows[i], t.rows[j]);
      }
    }
    WhereAtMostOne(t.rows, HasEmail(JStr(email)));
  }

  /** Every row of such a table is found by its id, and by its email. */
  lemma RowIsFound(t: UserTable, row: UserRecord)
    requires Valid(t) && row in t.rows
    ensures GetUserById(t, row.userId) == Success(Some(row))
    ensures row.profile.email.JStr? ==> GetUserByEmail(t, row.profile.email.s) == Success(Some(row))
  {
    LookupsSucceed(t, row.userId, if row.profile.email.JStr? then row.profile.email.s else "");
  }

  /** A created user is found by its new id. */
  lemma CreateThenGet(t: UserTable, p: Profile)
    requires Valid(t) && CreateUser(t, p).Success?
    ensures var (rec, t') := CreateUser(t, p).value;
      GetUserById(t', rec.userId) == Success(Some(rec))
  {
    var (rec, t') := CreateUser(t, p).value;
    RowIsFound(t', rec);
  }

  /** Applying the same patch twice is applying it once. */
  lemma MergeIdempotent(p: Profile, patch: Patch)
    ensures Merge(Merge(p, patch), patch) == Merge(p, patch)
  {
  }

  /** Repeating a successful update changes nothing further. */
  lemma UpdateIdempotent(t: UserTable, id: int, patch: Patch)
    requires Valid(t) && UpdateUser(t, id, patch).Success? && UpdateUser(t, id, patch).value.0.Some?
    ensures var (found, t') := UpdateUser(t, id, patch).value;
      UpdateUser(t', id, patch) == Success((found, t'))
  {
    var (found, t') := UpdateUser(t, id, patch).value;
    var rec := found.value;
    assert rec in t'.rows by {
      var prior :| prior in t.rows && prior.userId == id;
      var i :| 0 <= i < |t.rows| && t.rows[i] == prior;
      assert t'.rows[i] == rec;
    }
    RowIsFound(t', rec);
    MergeIdempotent(GetUserById(t, id).value.value.profile, patch);
    assert !EmailTakenByOther(t', id, rec.profile.email) by {
      forall i | 0 <= i < |t'.rows| && t'.rows[i].userId != id ensures t'.rows[i].profile.email != rec.profile.email {
        var k :| 0 <= k < |t'.rows| && t'.rows[k] == rec;
        assert Differs(t'.rows[k], t'.rows[i]) || Differs(t'.rows[i], t'.rows[k]);
      }
    }
    assert Replace(t'.rows, rec) == t'.rows;
  }

  /** The rows with `id` and the rows without it together make the table. */
  lemma {:induction false} WhereSplits(rows: seq<UserRecord>, id: int)
    ensures |Where(rows, HasId(id))| + |Where(rows, LacksId(id))| == |rows|
  {
    if rows != [] {
      WhereSplits(rows[1..], id);
    }
  }

  /** Deleting an existing user removes exactly one row, after which the id
      is unknown and a second delete reports `False`. */
  lemma DeleteRemovesOne(t: UserTable, id: int)
    requires Valid(t) && exists row <- t.rows :: row.userId == id
    ensures DeleteUser(t, id).Success?
    ensures var (deleted, t') := DeleteUser(t, id).value;
      && deleted
      && |t'.rows| == |t.rows| - 1
      && GetUserById(t', id) == Success(None)
      && DeleteUser(t', id) == Success((false, t'))
  {
    var row :| row in t.rows && row.userId == id;
    IdMatchesAtMostOne(t, id);
    var m := Where(t.rows, HasId(id));
    assert row in m;
    assert m == [row];
    assert GetUserById(t, id) == Success(Some(row));
    var t' := t.(rows := Where(t.rows, LacksId(id)));
    assert DeleteUser(t, id) == Success((true, t'));
    WhereSplits(t.rows, id);
    assert forall r <- t'.rows :: !HasId(id)(r);
    WhereNone(t'.rows, HasId(id));
    assert GetUserById(t', id) == Success(None);
  }

  /** The first `n` pages of size `size`, concatenated. */
  function Pages(t: UserTable, size: int, n: nat): seq<UserRecord>
    requires size > 0
  {
    if n == 0 then [] else Pages(t, size, n - 1) + ListUsers(t, n, size).value
  }

  /** Under one fixed scan order, paging through the table with a positive
      page size lists its rows in that order, each exactly once. The page
      query has no ORDER BY, so the database itself promises no such order. */
  lemma {:induction false} PagesCoverTable(t: UserTable, size: int, n: nat)
    requires size > 0
    ensures Pages(t, size, n) == t.rows[..if n * size <= |t.rows| then n * size else |t.rows|]
  {
    if n > 0 {
      PagesCoverTable(t, size, n - 1);
      var before := if (n - 1) * size <= |t.rows| then (n - 1) * size else |t.rows|;
      var after := if n * size <= |t.rows| then n * size else |t.rows|;
      var page := ListUsers(t, n, size).value;
      assert |page| == after - before;
      assert page == t.rows[before..after];
      assert t.rows[..before] + t.rows[before..after] == t.rows[..after];
    }
  }
}
