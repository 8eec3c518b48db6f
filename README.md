# Healthcare app back end: payments, accounts and appointments, in Dafny

This project models the server side of a healthcare booking application and proves properties of the model. The server is an Express application over MongoDB. It covers four areas:

- **Payment checksums** (`Checksum`). An HMAC-SHA256 over the JSON text of an object. Verification deletes the object's `checksum` property in place, then compares with `===`.
- **The Payment model** (`PaymentSchema`). Its required paths, defaults, status enumeration, `amount >= 0`, the unique index on `merchantTransactionId` and the sparse unique index on `phonepeTransactionId`. Also the `pre('save')` hook that refreshes `updatedAt`.
- **The PhonePe payment controller** (`PaymentController`).
  - `initiatePayment` builds the pay payload, its base64 body and the `X-VERIFY` header (`sha256(base64 + "/pg/v1/pay" + salt)` in hex, then `###1`). It posts to the gateway, creates the payment record only after the gateway answered, and reads the redirect URL. It maps a 429 to its own reply and any other failure to 500.
  - `paymentCallback` queries the gateway's status endpoint with a signed GET. It then overwrites the status of the first record whose `transactionId` matches: 'Completed' for `PAYMENT_SUCCESS`, 'Failed' for anything else.
- **Accounts** (`AuthController`) and **appointments** (`AppointmentRoutes`).
  - Accounts: registration with a 4-digit OTP, OTP verification, login with its fixed order of checks, and password reset by token.
  - Appointments: booking, listing and cancelling by id, including what happens when mail delivery fails after a write.

External libraries are passed in as functions: SHA-256, HMAC, base64, `JSON.stringify`, bcrypt and jsonwebtoken. What a proof needs of them is stated as a predicate and required by the lemma that uses it:

- hex digests (`HexDigests`);
- an ideal MAC (`HmacInjective`);
- injective serialisation (`StringifyInjective`);
- bcrypt matching a password against its own hash (`HashesMatch`), and a hash never equalling its password (`HashHidesPassword`).

The following are parameters:

- the clock and `Math.random()`;
- the gateway's answer;
- whether a database write or a mail delivery succeeds.

JavaScript values are modelled only as far as the code depends on them:

- `undefined` versus `null`;
- objects as ordered member lists;
- property reads that throw on `null`/`undefined` (`JsValues.Prop`);
- `===`, under which two objects are never equal (`JsValues.StrictEquals`).

Each handler is modelled twice:

- a pure function from the inputs and the old table to the reply and the new table, which the lemmas are about;
- a method on a class holding the collection, proved to do exactly what that function says.

**Where the code departs from its documented design, the model follows the code:**

- The controller does not write the Payment schema's field names and statuses. It writes `transactionId`, `paymentStatus` and 'Pending'/'Completed'/'Failed', where the schema has `merchantTransactionId`, `status` and INITIATED/SUCCESS/FAILED/PENDING/CANCELLED.
  - `PaymentController.ControllerDocumentFailsSchema` shows that the record it creates lacks the schema's required `merchantTransactionId` and `userEmail`, and that none of its status values is in the enumeration.
  - `Payment` is `mongoose.model('Payment', paymentSchema)` (backend/models/Payment.js:63), so `Payment.create` validates against the schema. `PaymentController.SchemaRejectsEveryInitiation` shows the consequence: every initiation whose gateway call succeeds stores nothing and is answered 500; no initiation returns a payment URL.
  - For the same reason the callback's `findOneAndUpdate` never changes a stored status. Strict mode drops `paymentStatus` from the update, and `transactionId` is not a schema path. With strict queries the filter becomes empty and the first document only gets a new `updatedAt`; otherwise nothing matches (`PaymentController.SchemaCallbackUpdate`).
  - The controller is also modelled with its own record type, and the success of the create is an input. This shows what the handlers would do over a collection that accepted the controller's fields.
- The record is created after the gateway call and in state 'Pending', not before the call and in state INITIATED.
- The callback overwrites the status unconditionally. A record already 'Completed' becomes 'Failed' when a later status query does not answer `PAYMENT_SUCCESS` (`PaymentController.CallbackOverwritesCompleted`). Terminal states are not protected against regression.
- A callback for an unknown transaction id updates nothing and is still acknowledged with success (`PaymentController.CallbackUnmatchedAcknowledged`).

## Model

| member | source | states |
|---|---|---|
| JsValues.StrictEquals | backend/utils/checksum.js:15 | `===` holds exactly for equal primitive values (including `undefined` and `null`); two objects or arrays are never strictly equal |
| JsValues.RemoveKey | backend/utils/checksum.js:13 | `delete o.k`: the result has no `k`, is no longer than the input, and keeps only members of the input |
| JsValues.RemoveKeyAt | backend/utils/checksum.js:13 | with unique keys, deleting the key at position `i` removes exactly that member and keeps the rest in order |
| JsValues.Prop | backend/controllers/paymentController.js:63 | reading a property throws exactly when the value read from is `undefined` or `null` |
| Checksum.GenerateChecksum | backend/utils/checksum.js:4-8 | assuming an ideal MAC and injective serialisation, the checksum determines both the object and the key it was made from |
| Checksum.ChecksumVerifies | backend/utils/checksum.js:10-16 | verification holds iff the `checksum` property is the string equal to the HMAC, under the key, of the JSON of the object without that property |
| Checksum.VerifyChecksum | backend/utils/checksum.js:11-15 | the caller's object loses its `checksum` property in place, and the result is `ChecksumVerifies` of the object as it was |
| Checksum.SignedVerifies | backend/utils/checksum.js:4-16 | round trip: an object without a checksum, signed under a key, verifies under that key; the attached value is the HMAC of its JSON text |
| Checksum.UnsignedNeverVerifies | backend/utils/checksum.js:11-15 | an object with no `checksum` property never verifies (`undefined` is not a string) |
| Checksum.NonStringChecksumNeverVerifies | backend/utils/checksum.js:12-15 | a checksum property that is not a string never verifies |
| Checksum.ChecksumBindsDataAndKey | backend/utils/checksum.js:4-15 | assuming an ideal MAC and injective serialisation, a checksum made for `data` under `key` verifies on `data2` under `key2` iff `data2 == data` and `key2 == key` |
| Checksum.VerifyLeavesOtherFields | backend/utils/checksum.js:13 | after verification the object has no `checksum`, and every other property is unchanged and in its original order |
| PaymentSchema.NewPayment | backend/models/Payment.js:3-55 | every path the caller gives is kept as given; a missing `status` becomes INITIATED (an enumerated value), a missing `paymentResponse` null, and missing timestamps the current time |
| PaymentSchema.ValidationErrors | backend/models/Payment.js:4-46 | no validation error iff every required path is present, the required strings are non-empty, `amount >= 0` and status is enumerated; `merchantTransactionId` and `userEmail` are reported exactly when missing or empty, `status` exactly when not enumerated |
| PaymentSchema.PaymentDocument.PreSave | backend/models/Payment.js:58-61 | the save hook sets `updatedAt` to the current time and changes nothing else |
| PaymentSchema.TouchedKeepsValidity | backend/models/Payment.js:58-61 | the hook changes only `updatedAt`, so the validation errors are the same before and after it |
| PaymentSchema.Insert | backend/models/Payment.js:19-28 | a save succeeds only for a valid document and appends it (with the hook applied); a validation error iff the document is invalid; a valid document fails with a duplicate-key error on `merchantTransactionId` iff that id is taken, else on `phonepeTransactionId` iff that id is present and taken, and is stored otherwise; a valid collection stays valid |
| PaymentSchema.InsertAllKeepsCollectionValid | backend/models/Payment.js:4-46 | over any run of saves the collection keeps every document valid, `merchantTransactionId` unique, `phonepeTransactionId` unique where present, and loses no document |
| Decimal.Show | backend/controllers/paymentController.js:14 | `Date.now()` written in decimal: at least one digit, all digits, and a leading `0` only for zero |
| Decimal.ValueOfShow | backend/controllers/authController.js:21 | reading back the decimal digits of a number gives the number |
| Decimal.ShowInjective | backend/controllers/paymentController.js:14 | different clock readings are written differently |
| Decimal.ShowFourDigits | backend/controllers/authController.js:21 | a number from 1000 to 9999 is written with exactly four digits |
| PaymentController.TransactionId | backend/controllers/paymentController.js:14 | the merchant transaction id starts with `TXN_` |
| PaymentController.TransactionIdInjective | backend/controllers/paymentController.js:14 | two ids are equal iff their clock readings and random digits are equal |
| PaymentController.PayPayload | backend/controllers/paymentController.js:16-27 | the payload has unique keys and carries the merchant id, the transaction id, the amount times 100, both URLs, redirect mode POST, an empty mobile number and the PAY_PAGE instrument |
| PaymentController.SignedHeader | backend/controllers/paymentController.js:30-33 | with hex digests, the header parses as the digest of the message, `###`, key index 1 |
| PaymentController.PayChecksum | backend/controllers/paymentController.js:29-33 | the pay header's digest is the SHA-256 of the base64 payload, `/pg/v1/pay` and the salt, in that order, under key index 1 |
| PaymentController.StatusChecksum | backend/controllers/paymentController.js:86-89 | the status header's digest is the SHA-256 of `/pg/v1/status/<merchant>/<mtid>` followed by the salt |
| PaymentController.PayRequest | backend/controllers/paymentController.js:29-46 | a POST to the pay endpoint whose body is `{request: base64(JSON)}`, and which the gateway's check accepts: the header signs exactly the body string sent |
| PaymentController.StatusRequest | backend/controllers/paymentController.js:86-99 | a GET to the status URL; the signed string is the URL's path after the base, followed by the salt; the merchant id header is set |
| PaymentController.UpdateFirst | backend/controllers/paymentController.js:101-107 | the first record with the id (in natural order) gets the new status and time; every other record is unchanged |
| PaymentController.UpdateFirstIdempotent | backend/controllers/paymentController.js:101-107 | applying the same update again, at any later time, equals applying it once at that later time |
| PaymentController.PaymentCollection.FindOneAndUpdate | backend/controllers/paymentController.js:101-107 | the collection becomes `UpdateFirst` of what it was |
| PaymentController.PaymentCollection.Create | backend/controllers/paymentController.js:49-59 | `Payment.create` appends the record |
| PaymentController.Initiate | backend/controllers/paymentController.js:7-78 | the request is built from the payload; a record is created iff the gateway responded and the create succeeded; the record is the controller's document ('Pending', amount as requested); a payment URL is returned iff the gateway responded, the create succeeded and the redirect URL could be read, and it is the value read; the reply is 429 with its message iff the gateway answered 429, and every other failure (a failed create, an unreadable URL, no response, any other HTTP status) is answered 500 "Payment initiation failed" |
| PaymentController.GatewayFailureCreatesNothing | backend/controllers/paymentController.js:35-78 | a gateway call that fails leaves no record and returns no payment URL |
| PaymentController.InitiatePayment | backend/controllers/paymentController.js:7-78 | sends and replies as `Initiate`; the collection gains exactly the record `Initiate` creates |
| PaymentController.StoredStatus | backend/controllers/paymentController.js:104 | 'Completed' iff the gateway's code is the string PAYMENT_SUCCESS, 'Failed' iff it is anything else |
| PaymentController.Callback | backend/controllers/paymentController.js:82-120 | the callback sends the signed status query for the body's id; it succeeds iff the gateway responded with a non-null body and the write succeeded, and then the records are `UpdateFirst` with the mapped code; otherwise it replies 500 and changes nothing |
| PaymentController.CallbackSetsStatusFromGateway | backend/controllers/paymentController.js:101-107 | after a successful callback the matched record is 'Completed' iff the gateway said PAYMENT_SUCCESS, carries the new time, and no other record changed |
| PaymentController.CallbackIgnoresBodyStatus | backend/controllers/paymentController.js:84-107 | the body's `transactionId` and `status` have no effect |
| PaymentController.CallbackIdempotent | backend/controllers/paymentController.js:101-112 | delivering the same callback again, with the same gateway answer, gives the same reply, leaves every status as the first delivery set it, and equals one delivery at the later time |
| PaymentController.CallbackUnmatchedAcknowledged | backend/controllers/paymentController.js:101-112 | a callback for an id no record has changes nothing and is acknowledged with success |
| PaymentController.CallbackOverwritesCompleted | backend/controllers/paymentController.js:101-107 | a 'Completed' record becomes 'Failed' when a later status query answers another code |
| PaymentController.PaymentCallback | backend/controllers/paymentController.js:82-120 | sends, replies and updates the collection as `Callback` |
| PaymentController.ControllerDocumentFailsSchema | backend/controllers/paymentController.js:49-59 | the record the controller creates, read through the schema, lacks `merchantTransactionId` and `userEmail` and is rejected; 'Pending', 'Completed' and 'Failed' are not schema statuses |
| PaymentController.SchemaRejectsEveryInitiation | backend/controllers/paymentController.js:49-64 | with the create validating against the Payment schema, no initiation creates a record or returns a payment URL, and every initiation the gateway answers is answered 500 |
| PaymentController.SchemaCallbackUpdate | backend/controllers/paymentController.js:101-107 | the callback's update applied to Payment-schema documents keeps every status and every field but `updatedAt`; without strict queries it changes nothing, with them only the first document's time |
| PaymentController.ControllerDocument | backend/controllers/paymentController.js:49-59 | the created record has the `TXN_` transaction id, method 'PhonePe', status 'Pending', the requested amount, the caller's user id and the two clock readings; read through the schema it is invalid at any time |
| PaymentController.PropPath | backend/controllers/paymentController.js:63 | a chain of property reads: an empty chain gives the value; any read from `undefined` or `null` throws; a single read is `Prop` |
| PaymentController.RedirectUrlFound | backend/controllers/paymentController.js:63 | a body of the shape `{data: {instrumentResponse: {redirectInfo: {url}}}}` yields its URL |
| PaymentController.RedirectUrlMissingDataThrows | backend/controllers/paymentController.js:63 | a body without `data` makes the URL read throw |
| PaymentController.RecordStoredThoughUrlUnreadable | backend/controllers/paymentController.js:49-78 | a gateway answer without `data`, with a successful create, leaves the record stored while the reply is 500 |
| AuthController.GenerateOtp | backend/controllers/authController.js:21 | the OTP is four decimal digits whose value lies in [1000, 9999] |
| AuthController.NewUser | backend/controllers/authController.js:28-30 | the new user carries the body's name, email and phone, the OTP, no token and is unverified; its hash matches the password under bcrypt's promise and never equals the password |
| AuthController.Register | backend/controllers/authController.js:19-46 | an existing email gets 400 "User already exists" with the table unchanged; otherwise exactly one user is added under that email, before the mail, and the reply is 201 or 500 by mail outcome; table validity is kept |
| AuthController.RegisterStoresHashNotPassword | backend/controllers/authController.js:28-30 | the stored user holds the OTP and a hash that differs from the password, is unverified, and is the one new entry |
| AuthController.OtpMatches | backend/controllers/authController.js:61 | as written, a match iff the provided value is the stored OTP as JavaScript sees it (null once used); corrected, iff a stored OTP exists and the provided value is that string |
| AuthController.VerifyOtp | backend/controllers/authController.js:49-77 | unknown email gets 400 "User not found"; a match sets isVerified, clears the OTP and stores the signed token, replying 200 with it; a mismatch gets 400 "Invalid OTP" with the table unchanged |
| AuthController.Verified | backend/controllers/authController.js:62-71 | verification sets `isVerified`, clears the OTP, stores the token, and changes no other field |
| AuthController.RegisteredOtpVerifies | backend/controllers/authController.js:61-74 | the OTP stored at registration verifies the new account |
| AuthController.UsedOtpNeverVerifies | backend/controllers/authController.js:61-63 | with the corrected comparison, after a successful verification no value verifies the account again |
| AuthController.UsedOtpReplaysAsWritten | backend/controllers/authController.js:61-63 | as written, after a successful verification a body with `otp: null` verifies the account again and gets a fresh token |
| AuthController.Login | backend/controllers/authController.js:85-100 | the checks run in order (unknown email, then unverified, then wrong password), each answered 400 with its message; a login succeeds iff all pass, returning the user and a token for its id |
| AuthController.RegisterVerifyLogin | backend/controllers/authController.js:85-100 | assuming bcrypt matches a password against its own hash, register then verify then log in with the same password succeeds |
| AuthController.SetPasswordById | backend/controllers/authController.js:139 | only documents with the given id get the new hash; the emails stay the same |
| AuthController.ResetPassword | backend/controllers/authController.js:131-144 | an invalid token gets 400 "Invalid or expired token." and no change; a valid one gets 200; a token with a `userId` gives every user with that id the hash of the new password and leaves every other user as it was; a token without `userId` does the same for the first user's id as written, and changes nothing corrected; table validity is kept |
| AuthController.FirstUserId | backend/controllers/authController.js:139 | the document an empty filter matches first: the least id in the table, `None` exactly for an empty table |
| AuthController.ResetTarget | backend/controllers/authController.js:139 | the id a reset addresses: the token's `userId` when it has one; otherwise the first user's id as written, and none corrected |
| AuthController.LoginTokenResetsFirstUserAsWritten | backend/controllers/authController.js:99-139 | as written, a reset with a login token `{id}` is answered 200, gives the first user the new password's hash, and leaves every other user, including the token's own, as it was |
| AuthController.CorrectedResetTouchesOnlyClaimedUser | backend/controllers/authController.js:136-139 | corrected, a reset changes a user only when the token names that user's id, and then only its password hash |
| AuthController.ResetUnknownIdChangesNothing | backend/controllers/authController.js:136-142 | a valid token whose `userId` names no stored user is answered 200 and leaves the table unchanged |
| AuthController.ResetChangesOnlyThatPassword | backend/controllers/authController.js:136-140 | a reset by a token naming a user replaces only that user's password hash, and every other user is unchanged |
| AuthController.ResetThenLogin | backend/controllers/authController.js:136-140 | after a reset by a verified user's token, the new password logs that user in |
| AuthController.UserTable.RegisterUser | backend/controllers/authController.js:19-46 | replies and updates the table as `Register` with the generated OTP |
| AuthController.UserTable.VerifyOtpHandler | backend/controllers/authController.js:49-82 | replies and updates the table as `VerifyOtp` under the comparison rule it is given, as written or corrected |
| AuthController.UserTable.LoginUser | backend/controllers/authController.js:85-105 | replies as `Login` and changes nothing; a successful login is for a verified user whose hash matches the password |
| AuthController.UserTable.ResetUserPassword | backend/controllers/authController.js:131-144 | replies and updates the table as `ResetPassword` under the rule it is given, as written or corrected |
| AppointmentRoutes.FromForm | backend/routes/appointmentRoutes.js:22-33 | the appointment carries the seven request fields unchanged |
| AppointmentRoutes.Book | backend/routes/appointmentRoutes.js:21-71 | a failed save stores nothing (500); otherwise exactly one appointment is appended before the mail; saved and mailed returns 201 with "Appointment booked successfully! Confirmation email sent." and the appointment built from the form; saved but not mailed returns 500 "Failed to book appointment." with the appointment kept; validity kept |
| AppointmentRoutes.List | backend/routes/appointmentRoutes.js:74-77 | 200 with exactly the stored appointments |
| AppointmentRoutes.Cancel | backend/routes/appointmentRoutes.js:85-98 | a malformed id gets 500; an unknown id gets 404 "Appointment not found." with the table unchanged; an existing id gets 200 and one fewer appointment; validity kept |
| AppointmentRoutes.CancelRemovesExactly | backend/routes/appointmentRoutes.js:89-93 | cancelling an appointment's id removes exactly that one and keeps the others in order |
| AppointmentRoutes.CancelTwiceNotFound | backend/routes/appointmentRoutes.js:89-92 | cancelling the same appointment again is answered 404 |
| AppointmentRoutes.BookThenCancel | backend/routes/appointmentRoutes.js:21-98 | booking and then cancelling the new appointment's id leaves the stored appointments as they were |
| AppointmentRoutes.AppointmentStore.BookAppointment | backend/routes/appointmentRoutes.js:21-71 | replies and updates the collection as `Book` |
| AppointmentRoutes.AppointmentStore.ListAppointments | backend/routes/appointmentRoutes.js:74-77 | replies with every stored appointment and changes nothing |
| AppointmentRoutes.AppointmentStore.CancelAppointment | backend/routes/appointmentRoutes.js:85-98 | replies and updates the collection as `Cancel` |

## Left out

- HTTP and Express plumbing, logging, and the 2-second pause before each initiation (backend/controllers/paymentController.js:12): they decide nothing. Replies are modelled as status and message.
- Real SHA-256, HMAC, base64, `JSON.stringify`, bcrypt and JSON web tokens: they are library code. They are given functions, and each lemma states the property it assumes of them.
- `Date.now()`, `Math.random()` and the bcrypt salt: they are nondeterministic inputs. `Math.random().toString(36).slice(2)` is an arbitrary string of random digits.
- Mail delivery: it is an outside service. Only its success or failure is an input; the mail's contents are not modelled.
- Database failures. Only the failures of `Payment.create`, the callback's `findOneAndUpdate` and the appointment save are inputs, plus a `DELETE /:id` whose id does not cast. These are not modelled:
  - user-table write failures;
  - the 500 replies of `registerUser` (its `findOne` at backend/controllers/authController.js:23), `verifyOtpHandler`, `loginUser` and `GET /` on a database error.
- Request bodies are assumed to carry fields of the expected types: strings, and an integer amount. Three body fields are modelled as arbitrary JavaScript values, because their type matters or because they are read and then ignored: the OTP of `verifyOtpHandler`, and the `transactionId` and `status` of the payment callback. These are not modelled:
  - fractional amounts and the floating-point `amount * 100`;
  - Mongoose dropping `undefined` filter values, except for `decoded.userId` in `resetPassword`, where it decides which user is updated (`AuthController.ResetTarget`).
- `JSON.stringify` is an abstract function; the model serialises nothing itself. JavaScript lists integer-like keys before the others, so two member orders of an object with such keys stand for the same JavaScript object and stringify alike. `StringifyInjective` is then false of the real `JSON.stringify`, and `Checksum.ChecksumBindsDataAndKey` (and `Checksum.GenerateChecksum`'s binding clause) says nothing about objects with integer-like keys.
- The User and Appointment models are not part of this model. The assumptions made in their place:
  - users are unverified when registered;
  - ids are natural numbers handed out in order, instead of ObjectIds;
  - the user table is keyed by email, since registration refuses a known email. `findOne` among duplicate emails is not modelled.
- `forgotPassword`, `handleOAuthCallback`, the passport strategies, the routers, the server and all front-end code: these are outside the modelled core. A reset token is modelled only by the claims it carries.
- Token expiry: a token that is expired or invalid is one that `verify` rejects.
- Concurrency between simultaneous requests or callbacks: nothing in the code addresses it. Every handler runs atomically.
- Non-regression of terminal payment states and compare-and-swap updates: the code does not enforce them. `PaymentController.CallbackOverwritesCompleted` states the overwrite instead.
- Of the gateway's responses, only the `code` field and the redirect URL are read; their other content is not modelled.

## Findings

| source | as written | input that shows it | evidently intended | confidence | as-written member | corrected member |
|---|---|---|---|---|---|---|
| backend/controllers/authController.js:61-63 | a successful verification stores `otp = null`, and the next check compares `user.otp === otp` strictly, so `null === null` matches | after an account has verified, `POST /verify-otp` with `{"email": <that email>, "otp": null}` is answered 200 with a fresh signed token | a used OTP never verifies again; only a string equal to an unused stored OTP is accepted | not executed | AuthController.UsedOtpReplaysAsWritten | AuthController.UsedOtpNeverVerifies |
| backend/controllers/authController.js:136-139 | the reset accepts any token the server signed and updates `findByIdAndUpdate(decoded.userId, …)`; a login token (line 99) carries `id`, not `userId`, so the filter is `{_id: undefined}`, which Mongoose reduces to the empty filter | log in as any verified user, then `POST /reset-password/<the login token>` with `{"password": "x"}`: the reply is 200 and the first user in the collection now has the password `x` | only a token naming a user resets that user's password; a token without `userId` resets nothing | not executed | AuthController.LoginTokenResetsFirstUserAsWritten | AuthController.CorrectedResetTouchesOnlyClaimedUser |
