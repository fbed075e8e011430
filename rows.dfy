/** The two tables of the auth flow, `users` and `otp_verifications`, and the
    queries and updates the flow runs on them, stated as functions on sequences
    of rows. Timestamps are integers (milliseconds since the epoch); a row's id
    is its position in its table, as rows are never deleted. */
module Rows {

  datatype Option<T> = None | Some(value: T)

  type Millis = int

  /** An issued code expires ten minutes after it is issued. */
  const OtpLifetime: int := 10 * 60 * 1000

  /** A row of `users`. */
  datatype User = User(
    id: nat,
    phoneNumber: string,
    firstName: Option<string>,
    lastName: Option<string>,
    email: Option<string>,
    isVerified: bool,
    createdAt: Millis,
    updatedAt: Millis)

  /** A row of `otp_verifications`. */
  datatype OtpVerification = OtpVerification(
    id: nat,
    phoneNumber: string,
    otpCode: string,
    expiresAt: Millis,
    isUsed: bool,
    createdAt: Millis)

  // ---------------------------------------------------------------------------
  // users

  ghost predicate PhoneRegistered(users: seq<User>, phoneNumber: string) {
    exists i :: 0 <= i < |users| && users[i].phoneNumber == phoneNumber
  }

  /** The store's unique constraint on `users.phone_number`. */
  ghost predicate UniquePhones(users: seq<User>) {
    forall i, j :: 0 <= i < j < |users| ==> users[i].phoneNumber != users[j].phoneNumber
  }

  /** `from('users').eq('phone_number', p).single()`: the position of the row
      holding that phone number, if there is one. */
  function FindUser(users: seq<User>, phoneNumber: string): (r: Option<nat>)
    ensures r.Some? ==> r.value < |users| && users[r.value].phoneNumber == phoneNumber
    ensures r.None? <==> !PhoneRegistered(users, phoneNumber)
    decreases |users|
  {
    if users == [] then None
    else if users[0].phoneNumber == phoneNumber then Some(0)
    else
      var rest := FindUser(users[1..], phoneNumber);
      assert forall i :: 1 <= i < |users| ==> users[i] == users[1..][i - 1];
      if rest.None? then None else Some(rest.value + 1)
  }

  /** `update({ is_verified: true }).eq('phone_number', p)` on `users`: every row
      with that phone becomes verified, every other row is left as it was. */
  function SetVerified(users: seq<User>, phoneNumber: string): (r: seq<User>)
    ensures |r| == |users|
    ensures forall k :: 0 <= k < |users| && users[k].phoneNumber == phoneNumber ==>
      r[k] == users[k].(isVerified := true)
    ensures forall k :: 0 <= k < |users| && users[k].phoneNumber != phoneNumber ==>
      r[k] == users[k]
    decreases |users|
  {
    if users == [] then []
    else
      var head := if users[0].phoneNumber == phoneNumber then users[0].(isVerified := true) else users[0];
      [head] + SetVerified(users[1..], phoneNumber)
  }

  /** Marking the users of a phone verified a second time changes nothing. */
  lemma SetVerifiedIdempotent(users: seq<User>, phoneNumber: string)
    ensures SetVerified(SetVerified(users, phoneNumber), phoneNumber) == SetVerified(users, phoneNumber)
  {
  }

  /** The update keeps the table's phone numbers and ids, so the unique
      constraint still holds; under that constraint it changes exactly the one
      row that `FindUser` finds, or nothing when the phone is not registered. */
  lemma SetVerifiedOneRow(users: seq<User>, phoneNumber: string)
    requires UniquePhones(users)
    ensures UniquePhones(SetVerified(users, phoneNumber))
    ensures forall k :: 0 <= k < |users| ==>
      SetVerified(users, phoneNumber)[k].phoneNumber == users[k].phoneNumber &&
      SetVerified(users, phoneNumber)[k].id == users[k].id
    ensures SetVerified(users, phoneNumber) ==
      match FindUser(users, phoneNumber)
      case None => users
      case Some(i) => users[i := users[i].(isVerified := true)]
  {
  }

  // ---------------------------------------------------------------------------
  // otp_verifications

  /** The filter of the verification query: the same phone and code, not yet
      used, and `expires_at >= now` (an expiry equal to now still counts). */
  predicate Live(row: OtpVerification, phoneNumber: string, otpCode: string, now: Millis) {
    row.phoneNumber == phoneNumber && row.otpCode == otpCode && !row.isUsed && row.expiresAt >= now
  }

  ghost predicate UniqueOtpIds(otps: seq<OtpVerification>) {
    forall i, j :: 0 <= i < j < |otps| ==> otps[i].id != otps[j].id
  }

  /** The selection policy: filter by `Live`, order by `created_at` descending,
      limit 1. The position of a live row whose creation time no other live row
      exceeds, or None when no row is live. Among rows created at the same
      instant the one inserted last is chosen. */
  function NewestLive(otps: seq<OtpVerification>, phoneNumber: string, otpCode: string, now: Millis): (r: Option<nat>)
    ensures r.Some? ==> r.value < |otps| && Live(otps[r.value], phoneNumber, otpCode, now)
    ensures r.Some? ==> forall j :: 0 <= j < |otps| && Live(otps[j], phoneNumber, otpCode, now) ==>
      otps[j].createdAt <= otps[r.value].createdAt
    ensures r.None? <==> forall j :: 0 <= j < |otps| ==> !Live(otps[j], phoneNumber, otpCode, now)
    decreases |otps|
  {
    if otps == [] then None
    else
      var last := |otps| - 1;
      var rest := NewestLive(otps[..last], phoneNumber, otpCode, now);
      if Live(otps[last], phoneNumber, otpCode, now) && (rest.None? || otps[rest.value].createdAt <= otps[last].createdAt)
      then Some(last)
      else rest
  }

  /** `update({ is_used: true }).eq('id', id)` on `otp_verifications`. */
  function SetUsed(otps: seq<OtpVerification>, id: nat): (r: seq<OtpVerification>)
    ensures |r| == |otps|
    ensures forall k :: 0 <= k < |otps| && otps[k].id == id ==> r[k] == otps[k].(isUsed := true)
    ensures forall k :: 0 <= k < |otps| && otps[k].id != id ==> r[k] == otps[k]
    decreases |otps|
  {
    if otps == [] then []
    else
      var head := if otps[0].id == id then otps[0].(isUsed := true) else otps[0];
      [head] + SetUsed(otps[1..], id)
  }

  /** With unique ids, updating by the id of row i marks row i used and
      leaves every other row as it was. */
  lemma SetUsedOneRow(otps: seq<OtpVerification>, i: nat)
    requires UniqueOtpIds(otps)
    requires i < |otps|
    ensures SetUsed(otps, otps[i].id) == otps[i := otps[i].(isUsed := true)]
  {
  }

  /** A freshly issued row, created no earlier than any row already stored,
      is the one the next verification with its phone and code picks while it
      is unexpired. */
  lemma IssuedRowSelected(otps: seq<OtpVerification>, row: OtpVerification, now: Millis)
    requires forall j :: 0 <= j < |otps| ==> otps[j].createdAt <= row.createdAt
    requires Live(row, row.phoneNumber, row.otpCode, now)
    ensures NewestLive(otps + [row], row.phoneNumber, row.otpCode, now) == Some(|otps|)
  {
  }

  /** Once its expiry has passed, a row is never picked again, whatever else
      the table holds. */
  lemma ExpiredRowNeverSelected(otps: seq<OtpVerification>, phoneNumber: string, otpCode: string, now: Millis, i: nat)
    requires i < |otps| && otps[i].expiresAt < now
    ensures NewestLive(otps, phoneNumber, otpCode, now) != Some(i)
  {
  }

  /** A consumed row is not replayable: after the chosen row is marked used, a
      verification with the same phone and code at the same or a later time
      never picks that row again, and it succeeds at all only if another row
      carrying the same code was outstanding beside it. */
  lemma ConsumedRowNotReplayable(otps: seq<OtpVerification>, phoneNumber: string,
                                   otpCode: string, now: Millis, later: Millis)
    requires NewestLive(otps, phoneNumber, otpCode, now).Some?
    requires now <= later
    ensures var i := NewestLive(otps, phoneNumber, otpCode, now).value;
      var after := otps[i := otps[i].(isUsed := true)];
      NewestLive(after, phoneNumber, otpCode, later) != Some(i) &&
      (NewestLive(after, phoneNumber, otpCode, later).Some? ==>
        exists j :: 0 <= j < |otps| && j != i && Live(otps[j], phoneNumber, otpCode, now))
  {
  }

  /** Codes may collide: when two outstanding rows for one phone carry the
      same code, the same code verifies twice, once per row. */
  lemma CollidingCodesVerifyTwice()
    ensures var first := OtpVerification(0, "9876543210", "4711", 600000, false, 0);
      var second := OtpVerification(1, "9876543210", "4711", 600001, false, 1);
      var otps := [first, second];
      NewestLive(otps, "9876543210", "4711", 2) == Some(1) &&
      NewestLive(otps[1 := second.(isUsed := true)], "9876543210", "4711", 2) == Some(0)
  {
  }
}
