# User-account service: verified model

This project models the core of a Node/Express user-account service in Dafny. The core has three parts:

- The **account service** in `controllers/userController.js`. It handles sign-up with a one-time verification code, account verification, login, logout, password-reset codes and the reset itself, profile and role updates, and administrative listing, lookup and deletion.
- The **access-control gate** in `middleware/authentification.js`. It resolves the `token` cookie to a user record and provides three role gates. Admin passes all three.
- The **user record** in `model/users/user.js`. The model covers the fields the controller reads and writes, the closed role enumeration, the defaults and the unique-email rule. The two reset fields are modelled under the controller's names, which the schema does not declare (see "## Findings").

Modules:

- `Wrappers`: `Option`, and JavaScript truthiness of an optional string.
- `Users`: the `User` record, `Role`, the store (`map<UserId, User>`) and its invariant. The invariant is that required fields are non-empty and emails are unique.
- `Externals`: bcrypt `hash`/`compare`, validator `isEmail`, the symbol class of `isStrongPassword` and jsonwebtoken `verify`. They are function values handed to the service when it is built. `Sound` holds the one property the model relies on: `compare(p, hash(p))`.
- `Codes`: the 6-digit codes (the decimal string of `100000 + draw`), the one-hour expiry, and JavaScript's `expiresAt < now` with a cleared (null) date reading as 0.
- `Passwords`: the password policy the controller passes to `isStrongPassword`.
- `UserController`: class `Accounts`. It holds the records in a map and has one method per handler. Each method takes the request fields, the time `now` in milliseconds and, where needed, a random draw in [0, 900000) and whether the mail was sent. It returns a `Reply` (the status and which message) and updates the map in place. Each method's contract gives the order of the checks, what each refusal answers, and the whole new state. The class invariant `Valid()` (unique emails, complete records) is kept by every method.
- `Authentification`: a `Request` whose `user` the authentication step assigns, the gate verdicts (call `next`, reject with a status, or throw), and the three role gates.
- `Scenarios`: callers that chain several requests. They show the registration walk-through, single-use codes and the expiry bound, proved from the handlers' contracts alone.

Behaviour of the source worth noting:

- Email lookup is an exact, case-sensitive match.
- An unknown user behind a valid token gives 404, not 401.
- An expired code is refused only when `expiresAt < now`, so a code is still accepted at the instant it expires.
- Failed logins and failed verifications answer 400, not 401 or 404.

## Model

| member | source | states |
|---|---|---|
| Users.ParseRole | model/users/user.js:18-23 | a string names a role exactly when it is one of "Admin", "Shipper", "Carrier", "user", and then it names that one role (both directions) |
| Users.NewUser | model/users/user.js:18-35 | a new record starts with role "user", isVerified false, an empty verification token whose expiry defaults to the creation time, and no reset code |
| Users.FindByEmail | controllers/userController.js:30 | `findOne({ email })` under unique emails: None exactly when no record has that exact email, otherwise the one record that has it |
| Users.InsertKeepsValid | model/users/user.js:5-17 | adding a complete record with an unused email under a fresh id keeps required fields and unique emails |
| Users.ReplaceKeepsValid | model/users/user.js:9-13 | replacing a record by a complete one whose email no other record owns keeps emails unique |
| Users.SaveThroughSchema | model/users/user.js:36-43 | a save under the declared schema keeps every declared field and drops the undeclared reset code and expiry |
| Users.ResetCodeLostOnSave | controllers/userController.js:148-152 | as written, a non-empty reset code assigned to a record is not held by the saved record |
| Codes.DecimalString | controllers/userController.js:36 | `toString()` of a non-negative integer is a non-empty string of digits with no leading zero |
| Codes.DecimalRoundTrip | controllers/userController.js:36 | reading back the decimal string of n gives n |
| Codes.DecimalLength | controllers/userController.js:36 | a number in [10^k, 10^(k+1)) prints as k + 1 digits |
| Codes.IssueCode | controllers/userController.js:36 | the code for a draw in [0, 900000) is six digits, does not start with 0, and denotes 100000 + draw, a number in [100000, 999999] |
| Codes.ExpiryFrom | controllers/userController.js:37 | a code's expiry lies 3 600 000 ms after its issue |
| Codes.FreshCodeNotExpired | controllers/userController.js:76 | a code issued at t is accepted exactly at the instants up to and including t + 3 600 000 |
| Passwords.CountPositive | controllers/userController.js:18-24 | a character class is counted at least once exactly when some character is in it |
| Passwords.StrongPasswordMeans | controllers/userController.js:18-24 | a strong password has length ≥ 6 and contains a lower-case letter, an upper-case letter, a digit and a symbol, and conversely |
| UserController.Registration | controllers/userController.js:35-45 | the record signUp saves is complete, role "user", unverified, has a password that bcrypt accepts for the plaintext, a 6-digit code in [100000, 999999] and expiry now + 3 600 000 |
| UserController.Verified | controllers/userController.js:80-84 | verification sets isVerified, clears the code and its expiry, and changes no other field |
| UserController.WithResetCode | controllers/userController.js:148-149 | a reset request sets the reset code and expiry and changes no other field |
| UserController.WithNewPassword | controllers/userController.js:213-215 | a reset stores the new hash, clears the reset code and expiry, and changes no other field |
| UserController.Edited | controllers/userController.js:253-270 | a profile update replaces exactly the supplied name, email and role |
| UserController.Accounts.SignUp | controllers/userController.js:7-62 | checks in order (missing field, bad email, weak password, existing email) each give 400 with nothing changed; else exactly one record is added under a fresh id, before mail, so a mail failure gives 500 with the record kept; unique emails are preserved |
| UserController.Accounts.VerifyAccount | controllers/userController.js:64-92 | no record holding the code, or the matched record's expiry < now, gives 400 with no change; else only that record is verified and its code cleared |
| UserController.Accounts.Login | controllers/userController.js:95-122 | unknown email gives 400 and a password bcrypt rejects gives 400; otherwise 200 with a session for that record, whether or not it is verified; nothing changes |
| UserController.Accounts.Logout | controllers/userController.js:124-131 | always 200, with the `token` cookie emptied, HTTP-only and expired at the epoch |
| UserController.Accounts.ResetPasswordToken | controllers/userController.js:133-163 | unknown email gives 400 with no change; else only that record's reset code becomes the 6-digit code for the draw, expiring now + 3 600 000; the save precedes the mail |
| UserController.Accounts.ResetPassword | controllers/userController.js:165-224 | checks in order (missing input 400, unknown id 404, code mismatch 400, expiresAt < now 400, weak password 400), none changing anything; success stores hash(newPassword) and clears the code |
| UserController.Accounts.UpdateProfile | controllers/userController.js:228-280 | a role from a non-Admin gives 403 first, then an invalid role 400, unknown id 404, an email owned by another record 400, all with nothing persisted; else only the supplied fields change, and emails stay unique |
| UserController.Accounts.GetAllUsers | controllers/userController.js:282-293 | answers 200 with every record; nothing changes |
| UserController.Accounts.GetUserById | controllers/userController.js:295-308 | the record with that id and 200, or 404; nothing changes |
| UserController.Accounts.DeleteUserById | controllers/userController.js:311-332 | unknown id gives 404 with no change; else exactly that record is removed and all others kept |
| Authentification.IsAuthenticateUser | middleware/authentification.js:5-41 | no cookie gives 401, a token verify rejects gives 401, a decoded id without a record gives 404, and none of these call next or touch req.user; otherwise req.user is exactly the record found and next is called |
| Authentification.GatesMatchAllowSets | middleware/authentification.js:44-79 | for an attached user, isAdmin passes exactly {Admin}, isShipper exactly {Shipper, Admin}, isCarrier exactly {Carrier, Admin}, each refusing the rest with 403 |
| Authentification.AdminPassesEveryGate | middleware/authentification.js:44-79 | an Admin user passes all three gates |
| Authentification.AdminGateStrongest | middleware/authentification.js:52-74 | whoever passes isAdmin passes isShipper and isCarrier |
| Authentification.NoUserNoAccess | middleware/authentification.js:45-68 | without req.user, isAdmin answers 403 and isShipper and isCarrier throw; none calls next |
| Authentification.AdminRoute | routes/userRoute.js:20-26 | the admin routes' chain (authenticate, then isAdmin) lets a request through exactly when its token names an existing Admin record |
| Scenarios.RegistrationWalkthrough | controllers/userController.js:7-122 | sign-up gives 201; a wrong code gives 400; the mailed code within the hour gives 200; login with the password gives 200, and with a wrong one 400 |
| Scenarios.VerifyTwice | controllers/userController.js:69-84 | after a successful verification, the same code cannot match the record it verified |
| Scenarios.VerifyTwiceSingleRecord | controllers/userController.js:69-84 | with a single record, the second use of its verification code answers 400 |
| Scenarios.ResetWithIssuedCode | controllers/userController.js:133-216 | a reset code issued for an existing email resets the password within the hour; bcrypt then accepts the new password, and the same code is refused afterwards |
| Scenarios.ResetAsWritten | controllers/userController.js:148-189 | as written, the record resetPassword reloads is what the schema kept, so the mailed reset code is refused with 400 "Invalid reset token" |
| Scenarios.ResetAfterExpiry | controllers/userController.js:191-194 | a matching reset code presented after its expiry is refused with 400 |
| Scenarios.AdminAssignsRole | controllers/userController.js:233-270 | an Admin caller sets any record's role to any of the four roles |
| Scenarios.NonAdminCannotAssignRole | controllers/userController.js:233-236 | a non-Admin caller supplying a role changes nothing |
| Scenarios.LogoutTwice | controllers/userController.js:124-131 | two logouts both answer 200 |

## Left out

- Mail delivery (utils/sendMail.js) is a `mailSent` parameter that decides the final status after the save. As shipped, that file refers to an undefined `html` and exports `sendResetPasswordEmail`, while the controller imports `sendResetEmail`. Neither defect is modelled.
- bcrypt salting: `hash` is a function of the password alone, and only `compare(p, hash(p))` and the 60-character length are assumed. So "the stored password never equals the plaintext" is not stated.
- validator and jsonwebtoken are function values with no further properties: `isEmail`, the symbol class, and `verify` with the server secret. utils/token.js (`generateToken`) is not part of this model. Login returns the id the session token is bound to.
- Request fields are strings or absent. Other JSON values are not modelled, and the handlers treat them differently:
  - signUp passes email and password to validator, which throws on a non-string (500). resetPassword compares the code with `!==`, which an object never passes (400), and passes newPassword to validator (500 on a non-string).
  - verifyAccount, loginUser and resetPasswordToken pass `verificationToken` or `email` straight into a `findOne` query. There, an object such as `{"$ne": ""}` is a query operator, not an error. In verifyAccount it matches any record with a non-empty code, and if that code is unexpired, the record is verified without its code being known. In loginUser and resetPasswordToken it selects a record by operator instead of by exact email.
  - The model's lookups are exact matches on strings only.
- loginUser and verifyAccount called without their fields are not modelled either.
- Ids are numbers handed out in order. Malformed id strings make `findById` throw (500 in the controller, 401 in the gate), and this is not modelled.
- Database failures (the other 500 paths) are not modelled, nor is the concurrent check-then-insert race on email. Each request runs alone.
- When several records hold the same verification code, the record `findOne` returns is left open. The model may match any of them.
- Responses carry a `Reason` per message, not the JSON bodies. This includes the returned user with its password hash.
- createdAt/updatedAt and the schema's unused sendVerificationToken/sendVerificationTokenExpiresAt fields are not modelled. A record that never requested a reset holds "" where the source reads `undefined`. Both are refused by any non-empty presented code.
- Password length is counted in Dafny characters, not UTF-16 code units.
- Process start-up, database connection and the admin seeding script (index.js, seedAdmin.js) are not modelled.
- UserController.Accounts.ResetPasswordToken, UserController.Accounts.ResetPassword: the class persists resetPasswordToken and resetPasswordExpiresAt, following the controller's names rather than the schema. As written, the schema does not keep them. The as-written save is modelled only by Users.SaveThroughSchema, and its observable effect (the mailed code refused with 400) by Scenarios.ResetAsWritten. These two contracts describe the corrected program.
- getAllUsers: its `res(400)` branch is unreachable, because `find` returns an array. It is not modelled.

## Findings

| source | as written | input that shows it | evidently intended | confidence | as-written member | corrected member |
|---|---|---|---|---|---|---|
| controllers/userController.js:148-152 | the reset code and its expiry are assigned to fields the schema does not declare, so under Mongoose's default strict mode the save does not store them | request a reset code for a registered email, then call resetPassword with the mailed code: the reloaded record holds no code, and the answer is 400 "Invalid reset token" | the code is stored, and the reset succeeds within the hour | medium, not executed | Scenarios.ResetAsWritten | Scenarios.ResetWithIssuedCode |
