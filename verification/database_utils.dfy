/** `DataBaseUtils.getUser` (src/service/DataBaseUtils.ts): reading a row of
    the `qz_siliconflow` table with every field optional, filling in what is
    missing and writing the row back. */
module DataBaseUtils {
  import opened Wrappers

  /** A stored row as read: any field may be absent. */
  datatype StoredUser = StoredUser(useToken: Option<int>, maxToken: Option<int>, remain: Option<int>, level: Option<int>)

  type UserTable = map<string, StoredUser>

  const DefaultAllowance: int := 10000

  /** The row created for an unknown user, every field present. */
  const NewUser: StoredUser := StoredUser(Some(0), Some(DefaultAllowance), Some(DefaultAllowance), Some(0))

  /** Absent, or the number 0. */
  predicate MissingOrZero(x: Option<int>) {
    x.None? || x == Some(0)
  }

  /** The back-filling of a found row. A missing consumption or level
      becomes 0. A missing or zero allowance becomes 10000, and only then a
      missing or zero `remain` becomes 10000 too. Everything else is kept. */
  function Normalize(u: StoredUser): (r: StoredUser)
    ensures r.useToken == Some(u.useToken.OrElse(0))
    ensures r.level == Some(u.level.OrElse(0))
    ensures MissingOrZero(u.maxToken) ==> r.maxToken == Some(DefaultAllowance)
    ensures !MissingOrZero(u.maxToken) ==> r.maxToken == u.maxToken && r.remain == u.remain
    ensures MissingOrZero(u.maxToken) && MissingOrZero(u.remain) ==> r.remain == Some(DefaultAllowance)
    ensures MissingOrZero(u.maxToken) && !MissingOrZero(u.remain) ==> r.remain == u.remain
  {
    var u := u.(useToken := Some(u.useToken.OrElse(0)), level := Some(u.level.OrElse(0)));
    if MissingOrZero(u.maxToken) then
      u.(maxToken := Some(DefaultAllowance),
         remain := if MissingOrZero(u.remain) then Some(DefaultAllowance) else u.remain)
    else u
  }

  /** `getUser`: the row (normalised) or a new full row, and in both cases
      the returned row is what the table holds afterwards. */
  function GetUser(table: UserTable, userId: string): (r: (UserTable, StoredUser))
    ensures r.0 == table[userId := r.1]
    ensures userId in table ==> r.1 == Normalize(table[userId])
    ensures userId !in table ==> r.1 == NewUser
  {
    var user := if userId in table then Normalize(table[userId]) else NewUser;
    (table[userId := user], user)
  }

  // ---------------------------------------------------------------------
  // properties
  // ---------------------------------------------------------------------

  /** A normalised row is left alone by a second normalisation, so reading
      twice gives what reading once gives. */
  lemma NormalizeIdempotent(u: StoredUser)
    ensures Normalize(Normalize(u)) == Normalize(u)
  {
  }

  lemma GetUserIdempotent(table: UserTable, userId: string)
    ensures GetUser(GetUser(table, userId).0, userId) == GetUser(table, userId)
  {
    var (t, user) := GetUser(table, userId);
    if userId in table {
      NormalizeIdempotent(table[userId]);
    } else {
      assert Normalize(NewUser) == NewUser;
    }
    assert Normalize(user) == user;
    assert t[userId := user] == t;
  }

  /** After a read, consumption, allowance and level are always present and
      the allowance is non-zero. `remain` may still be absent. */
  lemma NormalizedFieldsPresent(table: UserTable, userId: string)
    ensures var u := GetUser(table, userId).1;
            u.useToken.Some? && u.level.Some? && u.maxToken.Some? && u.maxToken.value != 0
  {
  }

  /** `remain` is never recomputed from the other figures: a row that has
      consumed 500 of its 10000 still reads back 10000 remaining. */
  lemma RemainNotRecomputed()
    ensures var u := Normalize(StoredUser(Some(500), Some(DefaultAllowance), Some(DefaultAllowance), Some(0)));
            u.remain.value != u.maxToken.value - u.useToken.value
  {
  }

  /** ... and a row with an allowance but no `remain` keeps none. */
  lemma RemainCanStayMissing(useToken: int, maxToken: int)
    requires maxToken != 0
    ensures Normalize(StoredUser(Some(useToken), Some(maxToken), None, None)).remain == None
  {
  }
}
