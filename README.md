# OTP registration and sign-in, modelled in Dafny

This project models the authentication controller of a small Express/MongoDB
backend. A client registers with an email-or-phone identifier and a password.
The server issues a six-digit one-time passcode (OTP) that expires after five
minutes. The account is created only when that passcode is verified. A
registered user signs in with the password and receives a 15-minute access
token and a 7-day refresh token.

The state is two stores keyed by the identifier:

- `users`: account records (hashed password, role `user` or `admin`);
- `pending`: passcodes awaiting verification (code, expiry time in milliseconds).

Files:

- `decimal.dfy` (module `Decimal`): how an integer is rendered as a decimal
  string (what `toString()` gives for integers up to 2^53), the value a
  digit string denotes, and the round trip between them.
- `user_model.dfy`, `otp_model.dfy` (modules `UserModel`, `OtpModel`): the
  two record shapes.
- `auth_controller.dfy` (module `AuthController`):
  - `GenerateOtp`.
  - One pure step function per handler (`SignupStep`, `VerifyStep`,
    `ResendStep`, `Signin`). Each step function is the specification of its
    handler, and its contract states every outcome and its effect on both
    stores.
  - The class `AuthService`. It holds the stores as fields and runs `signup`,
    `verifyOTP` and `resendOTP` as methods that update them in place. Each
    method is proved to agree with its step function. A ghost log records
    every code sent to the notification channel.
- `auth_properties.dfy` (module `AuthProperties`): properties that span
  several calls:
  - a verified code is consumed;
  - a resend invalidates the code it replaces;
  - for a non-empty identifier, signup, verify and signin succeed in sequence;
  - for a non-empty identifier, an expired code is renewed and the renewed
    code is accepted;
  - the empty identifier gets a pending code but never an account;
  - any sequence of requests keeps the invariant (no identifier is both
    registered and pending, no account has the empty identifier, every
    pending code is well-formed, no account is overwritten), so a duplicate
    account is never attempted, and only `user`-role accounts are ever
    created.

Two details are kept exactly as the code has them:

- Expiry is the strict test `expiresAt < now`. A code whose expiry equals
  `now` is still accepted.
- The expired branch of `verifyOTP` fires whatever code was submitted. It
  renews the record in place, creates no account and reports failure.

Two `save()` failures that the code does not catch are modelled as outcomes
that change nothing:

- `VerifyValidationError` / `ResendValidationError`: the schemas mark
  `email_or_phone` as required, which rejects the empty string. The upsert
  in `signup` is not validated, so `""` gets a pending record. The later `save()` calls of `verifyOTP` (renewal and
  account creation) and of `resendOTP` fail.
- `DuplicateUser`: the unique index on the user identifier rejects a second
  account. `VerifyStep` proves this only happens when the invariant
  `Consistent` is already broken, and `RunNeverDuplicateUser` proves it never
  happens from empty stores.

## Model

| member | source | states |
|---|---|---|
| `Decimal.NatToDecimal` | controllers/AuthController.js:10 | the positional numeral of an integer, which is `toString()` for integers up to 2^53, is a non-empty digit string with no leading zero whose value is that integer |
| `Decimal.DecimalLength` | controllers/AuthController.js:10 | an integer in [10^k, 10^(k+1)) renders as exactly k+1 characters |
| `Decimal.ValueBounds` | controllers/AuthController.js:10 | a numeral without a leading zero has a value in [10^(n-1), 10^n) for its length n |
| `Decimal.DecimalRoundTrip` | controllers/AuthController.js:10 | rendering the value of a canonical numeral gives the numeral back |
| `Decimal.DecimalInjective` | controllers/AuthController.js:10 | two integers render to the same string if and only if they are equal |
| `AuthController.GenerateOtp` | controllers/AuthController.js:10 | the code is six decimal digits, not starting with '0', whose value is 100000 + draw, within 100000..999999 |
| `AuthController.OtpCodeOfDraw` | controllers/AuthController.js:10 | every six-digit code without a leading zero is produced by the draw value − 100000, which lies in [0, 900000) |
| `AuthController.OtpInjective` | controllers/AuthController.js:10 | two draws give the same code if and only if they are equal |
| `AuthController.FreshOtp` | controllers/AuthController.js:20-21 | a freshly issued record holds a well-formed code and expires exactly 300000 ms after issue |
| `AuthController.SignupStep` | controllers/AuthController.js:12-31 | AlreadyRegistered exactly when a user exists, with no change. Otherwise the pending record for the identifier is set to (fresh code, now + 300000), replacing any earlier one. Users and other pending records are unchanged. The invariant is kept and no account is overwritten |
| `AuthController.VerifyStep` | controllers/AuthController.js:33-58 | InvalidOtp exactly when no record exists or an unexpired record holds another code, with no change. OtpExpired exactly when `expiresAt < now` and the identifier is non-empty, whatever the code: the record is renewed with a fresh code and now + 300000, and no user is created. VerifyValidationError exactly when the identifier is empty and the renewal or account save is reached, with no change. Registered exactly when the code matches, `now <= expiresAt`, the identifier is non-empty and no account exists: the user is added with hash(password) and role `user`, and the pending record is removed. DuplicateUser only when the invariant is already broken, with no change. The invariant is kept and no account is overwritten |
| `AuthController.ResendStep` | controllers/AuthController.js:60-75 | NoOtpRequest exactly when no pending record exists, and ResendValidationError exactly when the record's identifier is empty, both with no change. Otherwise the record always gets a fresh code and now + 300000, even if it was still valid. Users and other records are unchanged |
| `AuthController.Signin` | controllers/AuthController.js:77-94 | UserNotFound exactly when no account exists. InvalidPassword exactly when the hash compare fails. Otherwise it returns an access and a refresh token, both with claims {id, role}, signed with the access secret and the refresh secret respectively, with lifetimes of 900 s and 604800 s, so access is strictly shorter |
| `AuthController.AuthService.Signup` | controllers/AuthController.js:12-31 | the new stores and the result are those of `SignupStep`. The issued code is appended to the delivery log. The class invariant is preserved |
| `AuthController.AuthService.VerifyOtp` | controllers/AuthController.js:33-58 | the new stores and the result are those of `VerifyStep`, with the expired record's code and expiry updated in place. A renewed code is appended to the delivery log. The class invariant is preserved, and under it DuplicateUser is never returned |
| `AuthController.AuthService.ResendOtp` | controllers/AuthController.js:60-75 | the new stores and the result are those of `ResendStep`. The resent code is appended to the delivery log. The class invariant is preserved |
| `AuthProperties.SecondVerifyRejected` | controllers/AuthController.js:36-54 | after a successful verification, any further verification for that identifier returns InvalidOtp and changes nothing |
| `AuthProperties.ResendInvalidatesOldCode` | controllers/AuthController.js:63-68 | for a non-empty identifier in a consistent store, after a resend the old code is refused within the new window unless the new draw is the single draw that reproduces it |
| `AuthProperties.RegistrationRoundTrip` | controllers/AuthController.js:12-94 | for an unregistered non-empty identifier, signup followed by verification of the issued code within 5 minutes registers the account and deletes the pending record. The same password then signs in with claims (id, user) |
| `AuthProperties.SigninAcceptsRegisteredPassword` | controllers/AuthController.js:50-88 | after registration, signin succeeds exactly for passwords with the registered hash. Every other password gets InvalidPassword |
| `AuthProperties.ExpiredThenRenewedCodeRegisters` | controllers/AuthController.js:37-54 | for a non-empty identifier in a consistent store, an expired verification returns OtpExpired and leaves users unchanged. The renewed code then registers the account within the next 5 minutes |
| `AuthProperties.EmptyIdentifierNeverRegisters` | models/UserModel.js:5 | signup with the empty identifier issues a pending code, but verifying that code and resending, at any later time, fail with VerifyValidationError and ResendValidationError respectively and change nothing |
| `AuthProperties.RunKeepsInvariant` | controllers/AuthController.js:12-75 | for any sequence of requests, no identifier is both a user and pending, no account has the empty identifier, every pending code is well-formed, and no account is removed or overwritten |
| `AuthProperties.RunNeverDuplicateUser` | controllers/AuthController.js:50-52 | from empty stores, after any sequence of requests, verification never returns DuplicateUser |
| `AuthProperties.RunKeepsDefaultRole` | models/UserModel.js:7 | if every account has the default role, it still does after any sequence of requests |
| `AuthProperties.RunCreatesOnlyDefaultRole` | controllers/AuthController.js:51 | starting from empty stores, every account has role `user`, so every token's role claim is `user` |

## Left out

- HTTP routing, request parsing, status codes and message strings (`app.js`, `Routes/AuthRoutes.js`). Each handler returns a result datatype instead.
- MongoDB persistence and `async`/`await`. `findOne`, `findOneAndUpdate` with upsert, `save` and `deleteOne` are direct reads and writes of the two maps.
- Concurrency: every request runs to completion before the next starts. The race between two concurrent verifications, where the unique index on the user identifier is the only guard, is not modelled.
- `bcrypt.hash` and `bcrypt.compare`: the hash is a function `hash: string -> string` given to the service, and compare is `hash(password) == stored`. Salting and the cost factor are not modelled.
- `jwt.sign` and the secrets from the environment: a token is a value that records its claims, which of the two secrets signs it, and its lifetime in seconds. The signature itself is not computed.
- The token `id` claim is the Mongo `_id` of the user record. The model uses the identifier key instead, which is likewise unique per account.
- `Math.random()` and floating point: the draw is the code's value minus 100000, that is `Math.floor(100000 + Math.random() * 900000) - 100000`. It is passed in as an `OtpDraw` in [0, 900000).
- `Date.now()`: every handler takes the current time as the parameter `now`, in milliseconds. `verifyOTP` reads the clock three times (lines 37, 38 and 41). The model treats those reads as one instant.
- `console.log` delivery of codes: the class keeps a ghost delivery log. The pure step functions do not carry it.
- Request bodies whose fields are missing or not strings (for example a JSON number as `otp`, which the strict `!==` never matches) are not modelled. Identifiers, codes and passwords are strings.
- The unhandled rejections when `save()` fails validation or hits the unique index are modelled as the outcomes `VerifyValidationError`, `ResendValidationError` and `DuplicateUser` with no state change. The HTTP request that never gets a response is not modelled.
- `Decimal.NatToDecimal` gives exact positional digits for every integer. JavaScript renders integers above 2^53 as the shortest digits identifying the double, padded with zeros, and from 10^21 on in exponent notation. Neither is modelled, because passcodes are below 10^6.
