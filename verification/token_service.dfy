/** `TokenService` (src/service/TokenService.ts): the per-user quota ledger.
    The `qz_siliconflow` table is a map from user id to the user's row. */
module TokenService {
  import opened Wrappers

  /** `useToken` is what the user has consumed, `maxToken` the allowance. */
  datatype TokenRecord = TokenRecord(useToken: int, maxToken: int)

  type Ledger = map<string, TokenRecord>

  const DefaultMaxToken: int := 10000

  /** The row `getUser` inserts for an unknown user. */
  const NewRecord: TokenRecord := TokenRecord(0, DefaultMaxToken)

  /** `getUser`: the stored row, or a fresh row that is stored first. A
      known user causes no write. */
  function GetUser(ledger: Ledger, userId: string): (r: (Ledger, TokenRecord))
    ensures userId in ledger ==> r == (ledger, ledger[userId])
    ensures userId !in ledger ==> r == (ledger[userId := NewRecord], NewRecord)
    ensures userId in r.0 && r.0[userId] == r.1
  {
    if userId in ledger then (ledger, ledger[userId])
    else (ledger[userId := NewRecord], NewRecord)
  }

  /** `updateUser`: each figure that is supplied overwrites the stored one;
      an omitted one (`??`) keeps it. */
  function UpdateUser(ledger: Ledger, userId: string, useToken: Option<int>, maxToken: Option<int>): (r: Ledger)
    ensures r.Keys == ledger.Keys + {userId}
    ensures r[userId].useToken == (if useToken.Some? then useToken.value else GetUser(ledger, userId).1.useToken)
    ensures r[userId].maxToken == (if maxToken.Some? then maxToken.value else GetUser(ledger, userId).1.maxToken)
    ensures forall u :: u in ledger && u != userId ==> r[u] == ledger[u]
  {
    var (l, user) := GetUser(ledger, userId);
    l[userId := TokenRecord(useToken.OrElse(user.useToken), maxToken.OrElse(user.maxToken))]
  }

  /** `checkUserToken`: the user may still chat while consumption is below
      the allowance. Reading the user may insert the default row. */
  function CheckUserToken(ledger: Ledger, userId: string): (r: (Ledger, bool))
    ensures r.0 == GetUser(ledger, userId).0
    ensures r.1 <==> GetUser(ledger, userId).1.useToken < GetUser(ledger, userId).1.maxToken
  {
    var (l, user) := GetUser(ledger, userId);
    (l, user.useToken < user.maxToken)
  }

  /** `addUserUseToken`: the user's consumption grows by exactly `amount`;
      the allowance and every other user stay as they were. */
  function AddUserUseToken(ledger: Ledger, userId: string, amount: int): (r: Ledger)
    ensures r.Keys == ledger.Keys + {userId}
    ensures r[userId].useToken == GetUser(ledger, userId).1.useToken + amount
    ensures r[userId].maxToken == GetUser(ledger, userId).1.maxToken
    ensures forall u :: u in ledger && u != userId ==> r[u] == ledger[u]
  {
    var (l, user) := GetUser(ledger, userId);
    l[userId := user.(useToken := user.useToken + amount)]
  }

  // ---------------------------------------------------------------------
  // properties
  // ---------------------------------------------------------------------

  /** Reading a user twice is reading once: the second read writes nothing. */
  lemma GetUserIdempotent(ledger: Ledger, userId: string)
    ensures GetUser(GetUser(ledger, userId).0, userId) == GetUser(ledger, userId)
  {
  }

  /** Updating with both figures omitted only materialises the row. */
  lemma UpdateNothingIsRead(ledger: Ledger, userId: string)
    ensures UpdateUser(ledger, userId, None, None) == GetUser(ledger, userId).0
  {
  }

  /** Setting both figures and reading them back gives them. */
  lemma UpdateThenRead(ledger: Ledger, userId: string, useToken: int, maxToken: int)
    ensures GetUser(UpdateUser(ledger, userId, Some(useToken), Some(maxToken)), userId).1
            == TokenRecord(useToken, maxToken)
  {
  }

  /** Two charges add up, in either order. */
  lemma TwoChargesSum(ledger: Ledger, userId: string, a: int, b: int)
    ensures AddUserUseToken(AddUserUseToken(ledger, userId, a), userId, b)
            == AddUserUseToken(ledger, userId, a + b)
    ensures AddUserUseToken(AddUserUseToken(ledger, userId, a), userId, b)
            == AddUserUseToken(AddUserUseToken(ledger, userId, b), userId, a)
  {
  }

  /** Charges to different users do not interfere. */
  lemma ChargesToOthersCommute(ledger: Ledger, u1: string, u2: string, a: int, b: int)
    requires u1 != u2
    ensures AddUserUseToken(AddUserUseToken(ledger, u1, a), u2, b)
            == AddUserUseToken(AddUserUseToken(ledger, u2, b), u1, a)
  {
  }

  function Sum(amounts: seq<int>): int {
    if |amounts| == 0 then 0 else amounts[0] + Sum(amounts[1..])
  }

  /** A run of charges to one user, in order. */
  function ChargeAll(ledger: Ledger, userId: string, amounts: seq<int>): Ledger
    decreases |amounts|
  {
    if |amounts| == 0 then ledger
    else ChargeAll(AddUserUseToken(ledger, userId, amounts[0]), userId, amounts[1..])
  }

  /** After any run of charges the consumption is the starting consumption
      plus their sum, and the allowance is untouched. */
  lemma {:induction false} ChargeAllSums(ledger: Ledger, userId: string, amounts: seq<int>)
    requires userId in ledger
    ensures userId in ChargeAll(ledger, userId, amounts)
    ensures ChargeAll(ledger, userId, amounts)[userId].useToken == ledger[userId].useToken + Sum(amounts)
    ensures ChargeAll(ledger, userId, amounts)[userId].maxToken == ledger[userId].maxToken
    decreases |amounts|
  {
    if |amounts| > 0 {
      ChargeAllSums(AddUserUseToken(ledger, userId, amounts[0]), userId, amounts[1..]);
    }
  }

  /** A charge that reaches the allowance closes the gate. */
  lemma ChargeToLimitDenies(ledger: Ledger, userId: string, amount: int)
    requires amount >= GetUser(ledger, userId).1.maxToken - GetUser(ledger, userId).1.useToken
    ensures !CheckUserToken(AddUserUseToken(ledger, userId, amount), userId).1
  {
  }
}
