# Account registration: a verified model

This project models the account-registration endpoint `POST /api/v1/registerAccount`
of the e-gov backend, together with the registration form schema it enforces.
The handler runs a fixed fail-fast sequence:

1. validate the request body against the schema;
2. reject a known email with 409 "Email already registered";
3. reject a known username with 409 "Username already registered";
4. choose the role: `superadmin` while no stored account is one, `user` otherwise;
5. hash the password with cost factor 10 and store one account;
6. generate an activation token for the email, queue the activation mail and
   answer `{ success: true, message: "Activation Link Sent to Your Mail" }`.

Layout:

- `register_schema.dfy`, module `RegisterSchema`: the body (`username`, `email`,
  `password`), the three rules and their messages, and `Validate`, which reports
  every failing field in declaration order, as the schema library does.
- `user_model.dfy`, module `UserModel`: the account record, roles, and the two
  queries the handler puts to the store (`findOne`, `countDocuments`), over a
  sequence of records in insertion order.
- `registration.dfy`, module `Registration`: the decision flow as pure
  functions (`Decide`, `NewRole`, `NewAccount`, `AfterRegister`, `Replay` for a
  sequential run of requests), the store invariants, and the lemmas about them.
- `register_controller.dfy`, module `RegisterController`: class `UserStore`
  holding the mutable account collection and the mail outbox, and its method
  `RegisterAccount`, proved to follow the pure functions; two client methods
  replay the end-to-end scenarios (bootstrap of the first superadmin, a
  duplicate email, a short password).

Collaborators are abstract. The email-format check, the password hasher
`hash(plaintext, cost)` and the activation-token generator are fields of a
`Collaborators` value given to the store, so every proof holds for any
implementation of them.

The backend imports its schema from
`backend/src/zodschema/authSchema/register-schema`, which is not part of this
model. The model assumes that it states the same rules as the frontend
schema `frontend/src/schema/auth/register-schema.ts`, and uses the frontend
schema as the ruleset. The message of the email rule is the schema library's
default, "Invalid email", because the schema sets none.

## Model

| member | source | states |
|---|---|---|
| RegisterSchema.Validate | frontend/src/schema/auth/register-schema.ts:4-8 | the username issue is reported exactly when the username is empty; the email issue exactly when the address fails the format check; the password issue exactly when it has fewer than 8 characters; the body passes exactly when all three rules hold; issues come in field order, each at most once |
| RegisterSchema.PasswordBoundary | frontend/src/schema/auth/register-schema.ts:7 | with an acceptable username and email, an 8-character password passes, and a 7-character one yields only the "too short" issue |
| RegisterSchema.SingleFieldRejects | frontend/src/schema/auth/register-schema.ts:4-8 | any single failing field makes the whole body invalid |
| UserModel.FindOne | backend/src/controller/authController/register-controller.ts:45-53 | `findOne` returns nothing exactly when no stored account matches the filter; otherwise it returns a stored account that matches |
| UserModel.CountDocuments | backend/src/controller/authController/register-controller.ts:59 | the count is at most the number of accounts, and it is zero exactly when no stored account matches |
| UserModel.CountDocumentsAppend | backend/src/controller/authController/register-controller.ts:59-71 | storing one more account raises a filter's count by one exactly when that account matches the filter |
| Registration.NewRole | backend/src/controller/authController/register-controller.ts:59-60 | the new role is `superadmin` exactly when no stored account has that role, `user` otherwise |
| Registration.Decide | backend/src/controller/authController/register-controller.ts:42-78 | schema failure wins and carries the schema's issues; then a known email gives the 409 email conflict, even when the username is also known; then a known username gives the 409 username conflict; success exactly when the body is valid and both email and username are new, with the activation message |
| Registration.NewAccount | backend/src/controller/authController/register-controller.ts:63-71 | the stored record has the given username and email, the password hashed with cost 10, and the `superadmin` role exactly when the superadmin count is zero |
| Registration.ActivationMail | backend/src/controller/authController/register-controller.ts:76-77 | the mail goes to the registered email and carries the token generated from that email |
| Registration.RegisterAppendsOnSuccess | backend/src/controller/authController/register-controller.ts:45-73 | on success the collection grows by exactly one record (given username and email, hashed password) and existing records are unchanged; on every other answer it is unchanged |
| Registration.RegisterKeepsUniqueness | backend/src/controller/authController/register-controller.ts:45-73 | a registration keeps "no two accounts share an email" and "no two accounts share a username" |
| Registration.RegisterKeepsSuperAdminFirst | backend/src/controller/authController/register-controller.ts:59-71 | if the first account is the only superadmin, that stays so after a registration |
| Registration.RegisterKeepsAtMostOneSuperAdmin | backend/src/controller/authController/register-controller.ts:59-71 | in any store with at most one superadmin, a registration leaves at most one |
| Registration.SuperAdminFirstCount | backend/src/controller/authController/register-controller.ts:59-60 | when the first account is the only superadmin, the superadmin count is 1 for a non-empty store and 0 for an empty one |
| Registration.ReplayKeepsInvariant | backend/src/controller/authController/register-controller.ts:45-73 | a sequential run of registrations keeps uniqueness and the superadmin-first rule, keeps every initial record as a prefix, and adds at most one record per request |
| Registration.ReplayFromEmpty | backend/src/controller/authController/register-controller.ts:59-71 | from an empty store, any sequential run has unique emails and usernames and at most one superadmin; the first account created is the superadmin and every later one is a user |
| RegisterController.UserStore.RegisterAccount | backend/src/controller/authController/register-controller.ts:35-84 | the answer is the decision above; on every error the store and outbox are unchanged; on success exactly one account (given fields, hash with cost 10, computed role) is appended and exactly one activation mail to that email is queued; the store invariant and the one-mail-per-account invariant are preserved |
| RegisterController.BootstrapScenario | backend/src/controller/authController/register-controller.ts:42-78 | on an empty store, "alice" registers as superadmin and then "bob" as user, each with one activation mail |
| RegisterController.RejectionScenario | backend/src/controller/authController/register-controller.ts:42-56 | after "alice@x.com" is stored, a second request with that email gets the email conflict, a six-character password gets only the "too short" issue, and neither adds an account or a mail |

## Left out

- HTTP plumbing (request, response, `next`, the error-handling middleware): responses are the `Response` datatype; a schema failure is represented by its issues rather than by the forwarded exception object.
- Non-string or missing body fields: the body is always three strings, so the type errors the schema library would report for them are not modelled.
- Length is counted in Unicode scalar values, while the schema library counts UTF-16 code units; the two differ only for characters outside the Basic Multilingual Plane.
- The email-format regular expression, bcrypt and the token generator are abstract `Collaborators` fields; salting and one-wayness of the hash are not modelled, so "the stored hash differs from the plaintext" is not proved.
- Failures of the store, the hasher, the token generator or the mailer (the generic 500 path through the `catch` block), including an account that stays stored when token generation fails after the insert.
- Mail dispatch is fire-and-forget in the source; the model records the mail in an outbox at the point it is handed to the mailer, without delivery.
- `create` followed by `save` is modelled as a single append.
- Concurrent registrations: the check-then-insert race (two requests both seeing zero superadmins or a free email) comes from interleaved awaits; the model is sequential only.
- UserModel.FindOne: promises some matching account, not a particular one, since the store's natural order is not guaranteed.
- The API documentation annotations.
