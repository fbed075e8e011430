/** The `db` object of lib/supabase.ts: the same tables reached from the app,
    each operation answering a boolean or a row. Every store error, whether
    returned or thrown, becomes false or None. */
module Db {
  import opened Rows
  import opened Store

  /** `checkUserExists`: true exactly when the store answers and some user has
      the phone number. `fault` stands for a store error other than "no rows". */
  function CheckUserExists(users: seq<User>, phoneNumber: string, fault: bool): (found: bool)
    ensures found <==> !fault && PhoneRegistered(users, phoneNumber)
  {
    if fault then false else FindUser(users, phoneNumber).Some?
  }

  /** `createUser`: on success one new unverified row, which is returned; a
      store error, such as the unique constraint rejecting a phone number that
      is already registered, gives None and leaves the table as it was. */
  method CreateUser(store: Datastore, phoneNumber: string, firstName: Option<string>,
                    lastName: Option<string>, email: Option<string>, now: Millis, fault: bool)
    returns (user: Option<User>)
    requires store.Valid()
    modifies store
    ensures store.Valid()
    ensures store.otps == old(store.otps)
    ensures if fault || PhoneRegistered(old(store.users), phoneNumber) then
        user == None && store.users == old(store.users)
      else
        user.Some? && store.users == old(store.users) + [user.value] &&
        user.value == User(|old(store.users)|, phoneNumber, firstName, lastName, email, false, now, now)
  {
    user := store.InsertUser(phoneNumber, firstName, lastName, email, now, fault);
  }

  /** `saveOTP`: one new unused row expiring ten minutes from now. */
  method SaveOtp(store: Datastore, phoneNumber: string, otpCode: string, now: Millis, fault: bool)
    returns (ok: bool)
    requires store.Valid()
    modifies store
    ensures store.Valid()
    ensures ok == !fault
    ensures store.users == old(store.users)
    ensures store.otps == if fault then old(store.otps)
      else old(store.otps) + [OtpVerification(|old(store.otps)|, phoneNumber, otpCode, now + OtpLifetime, false, now)]
  {
    var expiresAt := now + OtpLifetime;
    ok := store.InsertOtp(phoneNumber, otpCode, expiresAt, now, fault);
  }

  /** `verifyOTP`: the same selection as the relay. On a match the chosen row
      is marked used and the answer is true; the result of that update is not
      inspected. `users` is not touched. */
  method VerifyOtp(store: Datastore, phoneNumber: string, otpCode: string, now: Millis,
                   selectFault: bool, markFault: bool)
    returns (ok: bool)
    requires store.Valid()
    modifies store
    ensures store.Valid()
    ensures store.users == old(store.users)
    ensures var chosen := NewestLive(old(store.otps), phoneNumber, otpCode, now);
      ok == (!selectFault && chosen.Some?) &&
      store.otps == (if !ok || markFault then old(store.otps)
                     else old(store.otps)[chosen.value := old(store.otps)[chosen.value].(isUsed := true)])
  {
    var chosen := if selectFault then None else NewestLive(store.otps, phoneNumber, otpCode, now);
    if chosen.None? {
      return false;
    }
    var row := store.otps[chosen.value];
    SetUsedOneRow(store.otps, chosen.value);
    var marked := store.UpdateOtpUsed(row.id, markFault);
    ok := true;
  }

  /** `updateUserVerification`: every user with the phone number becomes
      verified; the answer is whether the store accepted the update. */
  method UpdateUserVerification(store: Datastore, phoneNumber: string, fault: bool)
    returns (ok: bool)
    requires store.Valid()
    modifies store
    ensures store.Valid()
    ensures ok == !fault
    ensures store.otps == old(store.otps)
    ensures store.users == if fault then old(store.users) else SetVerified(old(store.users), phoneNumber)
  {
    ok := store.UpdateUsersVerified(phoneNumber, fault);
  }
}
