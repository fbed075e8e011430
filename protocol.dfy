/** Whole-flow runs of the protocol against a fresh store: registration, code
    issuance and verification, with every store call and delivery succeeding
    unless stated otherwise. Each method's postcondition is what the flow
    promises end to end. */
module Protocol {
  import opened Rows
  import opened Decimal
  import opened Store
  import opened Relay
  import Db

  const Phone := "9876543210"

  /** Register, ask for a login code, type a wrong code, the right one, and the
      right one again: only the middle attempt succeeds, and it leaves the user
      verified. */
  method RegisterLoginVerify() returns (wrong: Reply, right: Reply, replay: Reply, verified: bool)
    ensures wrong == Reply(400, Message(InvalidOrExpired))
    ensures right == Reply(200, Success(OtpVerified))
    ensures replay == Reply(400, Message(InvalidOrExpired))
    ensures verified
  {
    var store := new Datastore();
    var user := Db.CreateUser(store, Phone, Some("Asha"), None, None, 0, false);
    assert store.users[0].phoneNumber == Phone;
    assert PhoneRegistered(store.users, Phone);
    var sent, dispatched := SendOtp(store, Phone, true, 234, 1000, false, false, Delivered);
    var code := GenerateOtp(234);
    ghost var row := OtpVerification(0, Phone, code, 1000 + OtpLifetime, false, 1000);
    assert store.otps == [row];
    assert "0000" != code by { assert "0000"[0] == '0'; }
    assert !Live(store.otps[0], Phone, "0000", 2000);
    wrong := VerifyOtp(store, Phone, "0000", 2000, false, false, false);
    assert store.otps == [row];
    assert Live(store.otps[0], Phone, code, 3000);
    right := VerifyOtp(store, Phone, code, 3000, false, false, false);
    assert store.otps == [row.(isUsed := true)];
    assert store.users[0].isVerified;
    assert !Live(store.otps[0], Phone, code, 4000);
    replay := VerifyOtp(store, Phone, code, 4000, false, false, false);
    verified := store.users[0].isVerified;
  }

  /** Registering the same phone twice: the second attempt is refused and the
      table holds exactly the first row. */
  method RegisterTwice() returns (first: Option<User>, second: Option<User>, users: seq<User>)
    ensures first.Some? && second == None
    ensures users == [first.value] && users[0].phoneNumber == Phone && !users[0].isVerified
  {
    var store := new Datastore();
    first := Db.CreateUser(store, Phone, None, None, None, 0, false);
    assert store.users[0].phoneNumber == Phone;
    second := Db.CreateUser(store, Phone, Some("Ravi"), None, None, 5, false);
    users := store.users;
  }

  /** A login request for a phone nobody registered answers 404 with
      `userExists: false`, writes no code and sends nothing. */
  method LoginWithoutAccount() returns (reply: Reply, dispatched: Option<Sms>, otps: seq<OtpVerification>)
    ensures reply == Reply(404, NotRegistered(PhoneNotRegistered))
    ensures dispatched == None && otps == []
  {
    var store := new Datastore();
    reply, dispatched := SendOtp(store, Phone, true, 0, 0, false, false, Delivered);
    otps := store.otps;
  }

  /** The gateway rejects the message: the request answers 500, yet the code
      row stays, and the never delivered code still verifies. */
  method UndeliveredCodeStillVerifies() returns (sent: Reply, check: Reply)
    ensures sent.status == 500 && check == Reply(200, Success(OtpVerified))
  {
    var store := new Datastore();
    var dispatched;
    sent, dispatched := SendOtp(store, Phone, false, 42, 0, false, false, Rejected("unreachable"));
    check := VerifyOtp(store, Phone, GenerateOtp(42), 1, false, false, false);
  }

  /** The expiry bound is inclusive: a code checked exactly ten minutes after
      issue verifies, one checked a millisecond later does not. */
  method ExpiryBoundary() returns (late: Reply, onTime: Reply)
    ensures late == Reply(400, Message(InvalidOrExpired))
    ensures onTime == Reply(200, Success(OtpVerified))
  {
    var store := new Datastore();
    var sent, dispatched := SendOtp(store, Phone, false, 42, 0, false, false, Delivered);
    late := VerifyOtp(store, Phone, GenerateOtp(42), OtpLifetime + 1, false, false, false);
    onTime := VerifyOtp(store, Phone, GenerateOtp(42), OtpLifetime, false, false, false);
  }

  /** The app's own calls: `verifyOTP` consumes the code without touching the
      user, `updateUserVerification` then verifies the user, and the same code
      is refused afterwards. */
  method AppVerifyThenMarkUser() returns (first: bool, marked: bool, again: bool, verified: bool)
    ensures first && marked && !again && verified
  {
    var store := new Datastore();
    var user := Db.CreateUser(store, Phone, None, None, None, 0, false);
    assert store.users[0].phoneNumber == Phone;
    var saved := Db.SaveOtp(store, Phone, "5678", 10, false);
    first := Db.VerifyOtp(store, Phone, "5678", 20, false, false);
    assert !store.users[0].isVerified;
    marked := Db.UpdateUserVerification(store, Phone, false);
    again := Db.VerifyOtp(store, Phone, "5678", 30, false, false);
    verified := store.users[0].isVerified;
  }
}
