/** The hosted relational store, as an in-memory object owning the two tables.
    Each write takes a `fault` flag: true stands for the store answering that
    statement with an error (lost connection, rejected request), in which case
    nothing is written. */
module Store {
  import opened Rows

  class Datastore {
    var users: seq<User>
    var otps: seq<OtpVerification>

    /** The unique constraint on `users.phone_number`; ids are positions. */
    ghost predicate Valid()
      reads this
    {
      && UniquePhones(users)
      && (forall i :: 0 <= i < |users| ==> users[i].id == i)
      && (forall i :: 0 <= i < |otps| ==> otps[i].id == i)
    }

    constructor ()
      ensures Valid() && users == [] && otps == []
    {
      users := [];
      otps := [];
    }

    /** `from('users').insert([row]).select().single()`. A new user starts
        unverified, with both timestamps at now. The unique constraint rejects
        a second user with the same phone number. */
    method InsertUser(phoneNumber: string, firstName: Option<string>, lastName: Option<string>,
                      email: Option<string>, now: Millis, fault: bool) returns (row: Option<User>)
      requires Valid()
      modifies this
      ensures Valid()
      ensures otps == old(otps)
      ensures if fault || PhoneRegistered(old(users), phoneNumber) then
          row == None && users == old(users)
        else
          row == Some(User(|old(users)|, phoneNumber, firstName, lastName, email, false, now, now)) &&
          users == old(users) + [row.value]
    {
      if fault || FindUser(users, phoneNumber).Some? {
        row := None;
      } else {
        var u := User(|users|, phoneNumber, firstName, lastName, email, false, now, now);
        users := users + [u];
        row := Some(u);
      }
    }

    /** `from('otp_verifications').insert([{ phone_number, otp_code, expires_at, is_used: false }])`;
        `created_at` takes the store's clock, modelled as now. */
    method InsertOtp(phoneNumber: string, otpCode: string, expiresAt: Millis, now: Millis, fault: bool)
      returns (ok: bool)
      requires Valid()
      modifies this
      ensures Valid()
      ensures ok == !fault
      ensures users == old(users)
      ensures otps == if fault then old(otps)
        else old(otps) + [OtpVerification(|old(otps)|, phoneNumber, otpCode, expiresAt, false, now)]
    {
      ok := !fault;
      if ok {
        otps := otps + [OtpVerification(|otps|, phoneNumber, otpCode, expiresAt, false, now)];
      }
    }

    /** `from('otp_verifications').update({ is_used: true }).eq('id', id)`. */
    method UpdateOtpUsed(id: nat, fault: bool) returns (ok: bool)
      requires Valid()
      modifies this
      ensures Valid()
      ensures ok == !fault
      ensures users == old(users)
      ensures otps == if fault then old(otps) else SetUsed(old(otps), id)
    {
      ok := !fault;
      if ok {
        otps := SetUsed(otps, id);
      }
    }

    /** `from('users').update({ is_verified: true }).eq('phone_number', p)`. */
    method UpdateUsersVerified(phoneNumber: string, fault: bool) returns (ok: bool)
      requires Valid()
      modifies this
      ensures Valid()
      ensures ok == !fault
      ensures otps == old(otps)
      ensures users == if fault then old(users) else SetVerified(old(users), phoneNumber)
    {
      ok := !fault;
      if ok {
        SetVerifiedOneRow(users, phoneNumber);
        users := SetVerified(users, phoneNumber);
      }
    }
  }
}
