# OTP login relay: a Dafny model

This project models the phone-number login flow of the Discountmithra app. A
user registers with a phone number. The relay (backend-api/index.js) stores a
four-digit one-time code in the `otp_verifications` table and sends it by SMS.
The user echoes the code back. The relay then consumes the newest matching,
unused and unexpired code and marks the user verified in the `users` table.
The app's own data layer (the `db` object of lib/supabase.ts) offers the same
operations, each answering a boolean or a row.

Layout:

- `rows.dfy`, module `Rows`: the two row shapes, the queries and updates on
  them as functions on sequences of rows, and the protocol lemmas. These cover
  the selection policy, replay, expiry and the `users` update.
- `decimal.dfy`, module `Decimal`: JavaScript's integer `toString` for
  non-negative integers, and its inverse.
- `store.dfy`, module `Store`: the hosted store as a class `Datastore` that owns
  both tables. It enforces the unique constraint on `users.phone_number`.
- `relay.dfy`, module `Relay`: `generateOTP`, the phone-format expression and
  the three handlers. The two handlers that write are methods on the store;
  `check-user` is a function of the `users` table.
- `db.dfy`, module `Db`: `checkUserExists`, `createUser`, `saveOTP`,
  `verifyOTP` and `updateUserVerification`.
- `protocol.dfy`, module `Protocol`: end-to-end runs on a fresh store.

Modelling choices:

- Timestamps are integers in milliseconds. The ten-minute expiry is
  `now + 600000`.
- `created_at` is stamped by the store's clock. The model uses the handler's
  `now` for it.
- Row ids are positions in their table, because rows are never deleted. In the
  source they are store-generated.
- A missing body field is the empty string.
- The outcome of each external call is a parameter. That covers every store
  call, where a `fault` flag stands for the store answering with an error, and
  the SMS gateway (`Delivered` or `Rejected(reason)`). The random draw is an
  integer `r` with `0 <= r < 9000`.
- Replies are `Reply(status, body)`, with the same status codes, JSON shapes
  and message strings as the source.

Where the design description and the code differ, the model follows the code:

- Expiry is inclusive. A code whose `expires_at` equals the current time
  still verifies (`gte`). `Protocol.ExpiryBoundary` shows the boundary.
- In `send-otp`, a failed user lookup during login is answered 404
  "not registered", the same as a missing user.
- `verify-otp` does not inspect the results of its two updates. It answers 200
  even if marking the code used or marking the user verified failed. The
  model carries both faults through to the new state.
- With collisions allowed, a code is consumed per row, not per value. If two
  outstanding rows for one phone carry the same code, that code verifies twice
  (`Rows.CollidingCodesVerifyTwice`). `Rows.ConsumedRowNotReplayable` states
  exactly when a replay fails.
- Ties on `created_at` are resolved toward the row inserted last. The store's
  own order among equal timestamps is unspecified. `Rows.NewestLive` promises
  only that no live row is newer.

## Model

| member | source | states |
|---|---|---|
| `Rows.FindUser` | backend-api/index.js:54-58 | the lookup of a user by phone finds a row holding that phone, and finds none exactly when no user has it |
| `Rows.SetVerified` | backend-api/index.js:162-165 | every user row with the phone becomes verified, with its other fields kept; every other row is unchanged; the table length is kept |
| `Rows.SetVerifiedIdempotent` | lib/supabase.ts:139-156 | marking a phone's users verified twice gives the same table as doing it once |
| `Rows.SetVerifiedOneRow` | backend-api/index.js:162-165 | under the unique phone constraint the update keeps phones and ids, so the constraint still holds; it changes exactly the row found for the phone, or nothing when the phone is unregistered |
| `Rows.NewestLive` | backend-api/index.js:140-149 | selection: the chosen row matches phone and code, is unused and has `expires_at >= now`, and no matching live row has a later `created_at`; there is no choice exactly when no row is live |
| `Rows.SetUsed` | backend-api/index.js:156-159 | the update by id marks every row with that id used, with its other fields kept, and leaves the rest unchanged |
| `Rows.SetUsedOneRow` | backend-api/index.js:155-159 | with unique ids, updating by the chosen row's id changes that row alone, to `is_used = true` |
| `Rows.IssuedRowSelected` | backend-api/index.js:76-86 | a newly inserted row, created no earlier than any stored row and still unexpired, is the one the next verification with its phone and code selects |
| `Rows.ExpiredRowNeverSelected` | backend-api/index.js:146 | a row whose expiry is before now is never selected |
| `Rows.ConsumedRowNotReplayable` | backend-api/index.js:140-159 | after the chosen row is marked used, verifying the same phone and code at the same or a later time never selects it again; it succeeds only if another live row carried the same code |
| `Rows.CollidingCodesVerifyTwice` | backend-api/index.js:38-40 | two outstanding rows for one phone with one code: the newer is selected first, and after it is used the older is selected |
| `Decimal.ToDecimal` | backend-api/index.js:39 | `toString` of a non-negative integer is a non-empty digit string that starts with '0' exactly when the number is 0 |
| `Decimal.FromToDecimal` | backend-api/index.js:39 | reading back the decimal string of n gives n |
| `Decimal.ToDecimalLength` | backend-api/index.js:39 | a number between 10^k and 10^(k+1) - 1 renders as k + 1 digits |
| `Relay.GenerateOtp` | backend-api/index.js:38-40 | the code is 4 decimal digits with no leading zero whose value is 1000 + r, so it lies in [1000, 9999] |
| `Relay.FormatPhone` | backend-api/index.js:96 | the result starts with '+' and ends with the given number; it equals the number exactly when the number already started with '+'; otherwise it is "+91" followed by the number |
| `Relay.FormatPhoneIdempotent` | backend-api/index.js:96 | formatting an already formatted number changes nothing |
| `Relay.SendOtp` | backend-api/index.js:43-128 | a missing phone gives 400, and a failed or empty login lookup gives 404 with `userExists:false`; neither writes a row or sends anything. A failed insert gives 500 and sends nothing. Otherwise exactly one row is appended, unused, with the generated code and expiry now + 10 min. Then the SMS goes to the formatted phone, answered 200 if delivered and 500 if not, and the row stays. `users` is never changed |
| `Relay.VerifyOtp` | backend-api/index.js:131-176 | a missing phone or code gives 400, and no row selected (or a failed select) gives 400 "Invalid or expired OTP"; both leave both tables unchanged. Otherwise the reply is 200, only the selected row becomes used, and the phone's users become verified, each unless its update failed |
| `Relay.CheckUser` | backend-api/index.js:179-207 | a missing phone gives 400 and a store error gives 500; otherwise 200 with `exists` true exactly when a user has the phone, and the matching message |
| `Store.Datastore.InsertUser` | lib/supabase.ts:62-66 | an insert of a registered phone, or an insert that faults, leaves `users` unchanged and returns nothing; otherwise exactly one unverified row is appended and returned |
| `Store.Datastore.InsertOtp` | backend-api/index.js:79-86 | an insert that faults changes nothing; otherwise exactly one unused row with the given phone, code and expiry is appended |
| `Store.Datastore.UpdateOtpUsed` | backend-api/index.js:156-159 | the new code table is the update by id of the old one, unless the store faults |
| `Store.Datastore.UpdateUsersVerified` | backend-api/index.js:162-165 | the new user table is the verification update of the old one, unless the store faults |
| `Db.CheckUserExists` | lib/supabase.ts:34-52 | true exactly when the store answers and some user row has the phone; any other error gives false |
| `Db.CreateUser` | lib/supabase.ts:55-78 | on success exactly one unverified row is appended and returned; on a duplicate phone or a store error the result is null and the table is unchanged |
| `Db.SaveOtp` | lib/supabase.ts:81-105 | on success exactly one unused row is appended, expiring 10 minutes from now, and the answer is true; on error the answer is false and nothing changes |
| `Db.VerifyOtp` | lib/supabase.ts:108-136 | the answer is true exactly when the store answers and some row is live. On true only the selected row becomes used (unless that update fails). On false nothing changes. `users` is never touched |
| `Db.UpdateUserVerification` | lib/supabase.ts:139-156 | every user with the phone becomes verified and no other row changes; the answer is whether the store accepted the update |
| `Protocol.RegisterLoginVerify` | backend-api/index.js:43-176 | register, request a login code, then verify: a wrong code is refused, the right code succeeds and verifies the user, and the same code again is refused |
| `Protocol.RegisterTwice` | lib/supabase.ts:55-78 | a second registration with the same phone is refused, and exactly the first, unverified row remains |
| `Protocol.LoginWithoutAccount` | backend-api/index.js:52-68 | a login request for an unregistered phone answers 404 with `userExists:false`, writes no row and sends nothing |
| `Protocol.UndeliveredCodeStillVerifies` | backend-api/index.js:79-122 | when the gateway rejects the SMS the reply is 500, but the row stays and its code verifies |
| `Protocol.ExpiryBoundary` | backend-api/index.js:76-153 | a code checked exactly 10 minutes after issue verifies; one checked a millisecond later is refused |
| `Protocol.AppVerifyThenMarkUser` | lib/supabase.ts:108-156 | `verifyOTP` consumes the code without verifying the user, `updateUserVerification` verifies the user, and the same code is then refused |

## Left out

- Concurrency: two verifications can interleave between the select and the update and both consume one code. The model runs each request to completion before the next, so it assumes the select and the update are not interleaved.
- Exceptions thrown by the client libraries, which every handler answers with 500 "Internal server error". Only errors the store returns are modelled.
- Request bodies whose fields are not strings or booleans, such as a numeric `phoneNumber` on which `startsWith` would throw.
- `Math.random` and its floating-point arithmetic: the draw is the integer `r` in [0, 9000).
- The SMS gateway call itself: it is the `Delivery` parameter. The message text is built but nothing is proved about it.
- ISO-8601 date strings and local-time `setMinutes` arithmetic: timestamps are integer milliseconds and the expiry is exactly 600000 ms later.
- Store-generated values: ids are table positions, `created_at` is the handler's clock, and `users.is_verified` starts false. `updated_at` is set at insert and not changed by the verification update, because no trigger for it is visible in the source.
- `.single()` on more than one row: under the unique phone constraint the `users` lookups see at most one row. On `otp_verifications` the query is limited to one row before `.single()`.
- Express setup, CORS, JSON middleware, the health endpoint and `app.listen`: HTTP plumbing.
- Environment-variable checks and client construction for the store and the gateway: configuration.
- Logging.
- lib/api.ts, lib/config.ts, types/env.d.ts and the app screens: lib/api.ts is a network client that only maps HTTP replies to result objects; the rest is configuration or UI.
