/** The HTTP relay of backend-api/index.js: code generation, phone formatting
    and the `/api/send-otp`, `/api/verify-otp` and `/api/check-user` handlers.
    A request body's fields arrive as strings, a missing field as the empty
    string; the clock, the random draw and the outcome of every store call and
    of the SMS gateway are parameters. */
module Relay {
  import opened Rows
  import opened Decimal
  import opened Store

  // ---------------------------------------------------------------------------
  // Responses

  /** The JSON body of a response. */
  datatype Body =
    | Message(message: string)                  // { message }
    | Success(message: string)                  // { success: true, message }
    | NotRegistered(message: string)            // { message, userExists: false }
    | Existence(found: bool, message: string)   // { exists, message }

  datatype Reply = Reply(status: nat, body: Body)

  const PhoneRequired := "Phone number is required"
  const PhoneNotRegistered := "Phone number not registered. Please register first."
  const SaveFailed := "Failed to save OTP"
  const OtpSent := "OTP sent successfully"
  const SmsFailedPrefix := "Failed to send SMS: "
  const PhoneAndOtpRequired := "Phone number and OTP are required"
  const InvalidOrExpired := "Invalid or expired OTP"
  const OtpVerified := "OTP verified successfully"
  const DatabaseError := "Database error"
  const UserExists := "User exists"
  const UserNotFound := "User not found"

  // ---------------------------------------------------------------------------
  // The SMS gateway

  /** An outbound text message. */
  datatype Sms = Sms(to: string, body: string)

  /** What the gateway answers to one message. */
  datatype Delivery = Delivered | Rejected(reason: string)

  function SmsBody(otpCode: string): string {
    "Your Discountmithra verification code is: " + otpCode + ". This code expires in 10 minutes."
  }

  // ---------------------------------------------------------------------------
  // Pure helpers

  /** `Math.floor(1000 + Math.random() * 9000).toString()`, with the random draw
      given as the integer r = floor(Math.random() * 9000). The code is four
      decimal digits whose value is 1000 + r, so between 1000 and 9999. */
  function GenerateOtp(r: nat): (code: string)
    requires r < 9000
    ensures |code| == 4 && AllDigits(code) && code[0] != '0'
    ensures FromDecimal(code) == 1000 + r
    ensures 1000 <= FromDecimal(code) <= 9999
  {
    ToDecimalLength(1000 + r, 3);
    FromToDecimal(1000 + r);
    ToDecimal(1000 + r)
  }

  /** Prefix the Indian country code unless the number is already in
      international form. The result is always in international form, ends
      with the number given, and equals it exactly when it already started
      with '+'. */
  function FormatPhone(phoneNumber: string): (formatted: string)
    ensures |formatted| > 0 && formatted[0] == '+'
    ensures |phoneNumber| <= |formatted| && formatted[|formatted| - |phoneNumber|..] == phoneNumber
    ensures formatted == phoneNumber <==> |phoneNumber| > 0 && phoneNumber[0] == '+'
    ensures formatted != phoneNumber ==> |formatted| == |phoneNumber| + 3 && formatted[..3] == "+91"
  {
    if |phoneNumber| > 0 && phoneNumber[0] == '+' then phoneNumber else "+91" + phoneNumber
  }

  /** Formatting a formatted number again leaves it as it is. */
  lemma FormatPhoneIdempotent(phoneNumber: string)
    ensures FormatPhone(FormatPhone(phoneNumber)) == FormatPhone(phoneNumber)
  {
  }

  // ---------------------------------------------------------------------------
  // Handlers

  /** POST /api/send-otp. With `isLogin`, the phone must belong to a user (a
      failed lookup counts as not registered). The code row is written before
      the SMS is handed to the gateway, and stays when the gateway rejects it.
      `dispatched` is the message handed to the gateway, if any. */
  method SendOtp(store: Datastore, phoneNumber: string, isLogin: bool, r: nat, now: Millis,
                 lookupFault: bool, insertFault: bool, gateway: Delivery)
    returns (reply: Reply, dispatched: Option<Sms>)
    requires store.Valid()
    requires r < 9000
    modifies store
    ensures store.Valid()
    ensures store.users == old(store.users)
    ensures
      if phoneNumber == [] then
        reply == Reply(400, Message(PhoneRequired)) && dispatched == None && store.otps == old(store.otps)
      else if isLogin && (lookupFault || !PhoneRegistered(old(store.users), phoneNumber)) then
        reply == Reply(404, NotRegistered(PhoneNotRegistered)) && dispatched == None && store.otps == old(store.otps)
      else if insertFault then
        reply == Reply(500, Message(SaveFailed)) && dispatched == None && store.otps == old(store.otps)
      else
        store.otps == old(store.otps) +
          [OtpVerification(|old(store.otps)|, phoneNumber, GenerateOtp(r), now + OtpLifetime, false, now)] &&
        dispatched == Some(Sms(FormatPhone(phoneNumber), SmsBody(GenerateOtp(r)))) &&
        reply == match gateway
          case Delivered => Reply(200, Success(OtpSent))
          case Rejected(reason) => Reply(500, Message(SmsFailedPrefix + reason))
  {
    if phoneNumber == [] {
      return Reply(400, Message(PhoneRequired)), None;
    }
    if isLogin {
      if lookupFault || FindUser(store.users, phoneNumber).None? {
        return Reply(404, NotRegistered(PhoneNotRegistered)), None;
      }
    }
    var otpCode := GenerateOtp(r);
    var expiresAt := now + OtpLifetime;
    var saved := store.InsertOtp(phoneNumber, otpCode, expiresAt, now, insertFault);
    if !saved {
      return Reply(500, Message(SaveFailed)), None;
    }
    var sms := Sms(FormatPhone(phoneNumber), SmsBody(otpCode));
    dispatched := Some(sms);
    match gateway {
      case Delivered =>
        reply := Reply(200, Success(OtpSent));
      case Rejected(reason) =>
        reply := Reply(500, Message(SmsFailedPrefix + reason));
    }
  }

  /** POST /api/verify-otp. The newest live row for the phone and code is
      marked used and the phone's users verified. A failed selection reads as
      no match. The results of the two updates are not inspected, so the reply
      is 200 even when one of them fails. */
  method VerifyOtp(store: Datastore, phoneNumber: string, otpCode: string, now: Millis,
                   selectFault: bool, markFault: bool, verifyFault: bool)
    returns (reply: Reply)
    requires store.Valid()
    modifies store
    ensures store.Valid()
    ensures
      var chosen := NewestLive(old(store.otps), phoneNumber, otpCode, now);
      if phoneNumber == [] || otpCode == [] then
        reply == Reply(400, Message(PhoneAndOtpRequired)) &&
        store.users == old(store.users) && store.otps == old(store.otps)
      else if selectFault || chosen.None? then
        reply == Reply(400, Message(InvalidOrExpired)) &&
        store.users == old(store.users) && store.otps == old(store.otps)
      else
        reply == Reply(200, Success(OtpVerified)) &&
        store.otps == (if markFault then old(store.otps)
                       else old(store.otps)[chosen.value := old(store.otps)[chosen.value].(isUsed := true)]) &&
        store.users == (if verifyFault then old(store.users) else SetVerified(old(store.users), phoneNumber))
  {
    if phoneNumber == [] || otpCode == [] {
      return Reply(400, Message(PhoneAndOtpRequired));
    }
    var chosen := if selectFault then None else NewestLive(store.otps, phoneNumber, otpCode, now);
    if chosen.None? {
      return Reply(400, Message(InvalidOrExpired));
    }
    var row := store.otps[chosen.value];
    SetUsedOneRow(store.otps, chosen.value);
    var marked := store.UpdateOtpUsed(row.id, markFault);
    var verified := store.UpdateUsersVerified(phoneNumber, verifyFault);
    reply := Reply(200, Success(OtpVerified));
  }

  /** POST /api/check-user: a read of `users`. `fault` stands for a store
      error other than "no rows". */
  function CheckUser(users: seq<User>, phoneNumber: string, fault: bool): (reply: Reply)
    ensures phoneNumber == [] ==> reply == Reply(400, Message(PhoneRequired))
    ensures phoneNumber != [] && fault ==> reply == Reply(500, Message(DatabaseError))
    ensures phoneNumber != [] && !fault ==>
      reply.status == 200 && reply.body.Existence? &&
      (reply.body.found <==> PhoneRegistered(users, phoneNumber)) &&
      reply.body.message == (if reply.body.found then UserExists else UserNotFound)
  {
    if phoneNumber == [] then Reply(400, Message(PhoneRequired))
    else if fault then Reply(500, Message(DatabaseError))
    else
      var found := FindUser(users, phoneNumber).Some?;
      Reply(200, Existence(found, if found then UserExists else UserNotFound))
  }
}
