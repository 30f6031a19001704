/** The registration decision flow as pure functions over the account
    collection: which answer a request gets, which record it adds, and the
    invariants a sequence of registrations keeps. The class in
    RegisterController is proved to follow these functions step by step. */
module Registration {
  import opened RegisterSchema
  import opened UserModel

  /** bcrypt cost factor the handler hashes with. */
  const SaltRounds: nat := 10
  /** HTTP status of both uniqueness conflicts. */
  const ConflictStatus: nat := 409
  const EmailAlreadyRegistered := "Email already registered"
  const UsernameAlreadyRegistered := "Username already registered"
  const ActivationLinkSent := "Activation Link Sent to Your Mail"
  const ActivationSubject := "Activate Your Account"
  const ActivationTemplate := "activationMail.ejs"

  /** The foreign collaborators, left abstract: the schema's email-format
      check, the password hasher `hash(plaintext, cost)` and the activation
      token generator, which derives a token from an email address. */
  datatype Collaborators = Collaborators(
    isEmail: string -> bool,
    hash: (string, nat) -> string,
    activationToken: string -> string)

  /** One queued activation mail: recipient, subject, template and the token
      it carries. */
  datatype Mail = Mail(email: string, subject: string, templateName: string, activationToken: string)

  /** What the handler answers: the schema error forwarded to the error
      handler, a conflict raised with a message and status, or the JSON
      success acknowledgement. */
  datatype Response =
    | ValidationFailed(issues: seq<Issue>)
    | Conflict(message: string, statusCode: nat)
    | Success(message: string)

  function ActivationMail(email: string, env: Collaborators): (m: Mail)
    ensures m.email == email && m.activationToken == env.activationToken(email)
  {
    Mail(email, ActivationSubject, ActivationTemplate, env.activationToken(email))
  }

  /** The role of the next account: superadmin while no stored account is one. */
  function NewRole(accounts: seq<Account>): (role: Role)
    ensures role == SuperAdmin <==> forall i :: 0 <= i < |accounts| ==> accounts[i].role != SuperAdmin
  {
    if CountDocuments(accounts, ByRole(SuperAdmin)) == 0 then SuperAdmin else User
  }

  /** The answer to a registration request, checks run in the handler's order:
      schema, then email, then username. */
  function Decide(accounts: seq<Account>, body: RegisterBody, isEmail: string -> bool): (r: Response)
    ensures r.ValidationFailed? <==> !IsValid(body, isEmail)
    ensures r.ValidationFailed? ==> r.issues != [] && r.issues == Validate(body, isEmail)
    ensures r == Conflict(EmailAlreadyRegistered, ConflictStatus) <==>
              IsValid(body, isEmail) && Exists(accounts, ByEmail(body.email))
    ensures r == Conflict(UsernameAlreadyRegistered, ConflictStatus) <==>
              IsValid(body, isEmail) && !Exists(accounts, ByEmail(body.email))
              && Exists(accounts, ByUsername(body.username))
    ensures r.Success? <==>
              IsValid(body, isEmail) && !Exists(accounts, ByEmail(body.email))
              && !Exists(accounts, ByUsername(body.username))
    ensures r.Success? ==> r.message == ActivationLinkSent
  {
    var issues := Validate(body, isEmail);
    if issues != [] then ValidationFailed(issues)
    else if FindOne(accounts, ByEmail(body.email)).Some? then Conflict(EmailAlreadyRegistered, ConflictStatus)
    else if FindOne(accounts, ByUsername(body.username)).Some? then Conflict(UsernameAlreadyRegistered, ConflictStatus)
    else Success(ActivationLinkSent)
  }

  /** The record a successful request stores. */
  function NewAccount(accounts: seq<Account>, body: RegisterBody, env: Collaborators): (a: Account)
    ensures a.username == body.username && a.email == body.email
    ensures a.password == env.hash(body.password, SaltRounds)
    ensures a.role == SuperAdmin <==> CountDocuments(accounts, ByRole(SuperAdmin)) == 0
  {
    Account(body.username, body.email, env.hash(body.password, SaltRounds), NewRole(accounts))
  }

  /** The collection after one request. */
  function AfterRegister(accounts: seq<Account>, body: RegisterBody, env: Collaborators): seq<Account> {
    if Decide(accounts, body, env.isEmail).Success? then accounts + [NewAccount(accounts, body, env)]
    else accounts
  }

  /** The collection after a sequential run of requests. */
  function Replay(accounts: seq<Account>, bodies: seq<RegisterBody>, env: Collaborators): seq<Account>
    decreases |bodies|
  {
    if bodies == [] then accounts
    else Replay(AfterRegister(accounts, bodies[0], env), bodies[1..], env)
  }

  ghost predicate UniqueEmails(accounts: seq<Account>) {
    forall i, j :: 0 <= i < j < |accounts| ==> accounts[i].email != accounts[j].email
  }

  ghost predicate UniqueUsernames(accounts: seq<Account>) {
    forall i, j :: 0 <= i < j < |accounts| ==> accounts[i].username != accounts[j].username
  }

  /** The first account is the superadmin and no other account is. */
  ghost predicate SuperAdminFirst(accounts: seq<Account>) {
    forall i :: 0 <= i < |accounts| ==> (accounts[i].role == SuperAdmin <==> i == 0)
  }

  ghost predicate StoreInvariant(accounts: seq<Account>) {
    UniqueEmails(accounts) && UniqueUsernames(accounts) && SuperAdminFirst(accounts)
  }

  /** Every answer but success leaves the collection as it was; success
      appends exactly one record and keeps the existing ones. */
  lemma RegisterAppendsOnSuccess(accounts: seq<Account>, body: RegisterBody, env: Collaborators)
    ensures var next := AfterRegister(accounts, body, env);
      if Decide(accounts, body, env.isEmail).Success?
      then |next| == |accounts| + 1 && next[..|accounts|] == accounts
           && next[|accounts|].username == body.username && next[|accounts|].email == body.email
           && next[|accounts|].password == env.hash(body.password, SaltRounds)
      else next == accounts
  {
  }

  /** Registration never introduces a second account with an email or a
      username already stored. */
  lemma RegisterKeepsUniqueness(accounts: seq<Account>, body: RegisterBody, env: Collaborators)
    ensures UniqueEmails(accounts) ==> UniqueEmails(AfterRegister(accounts, body, env))
    ensures UniqueUsernames(accounts) ==> UniqueUsernames(AfterRegister(accounts, body, env))
  {
  }

  /** A collection whose only superadmin is its first account keeps that shape. */
  lemma RegisterKeepsSuperAdminFirst(accounts: seq<Account>, body: RegisterBody, env: Collaborators)
    requires SuperAdminFirst(accounts)
    ensures SuperAdminFirst(AfterRegister(accounts, body, env))
  {
  }

  /** In any collection, registration never raises the number of superadmins
      beyond one. */
  lemma RegisterKeepsAtMostOneSuperAdmin(accounts: seq<Account>, body: RegisterBody, env: Collaborators)
    requires CountDocuments(accounts, ByRole(SuperAdmin)) <= 1
    ensures CountDocuments(AfterRegister(accounts, body, env), ByRole(SuperAdmin)) <= 1
  {
    if Decide(accounts, body, env.isEmail).Success? {
      CountDocumentsAppend(accounts, NewAccount(accounts, body, env), ByRole(SuperAdmin));
    }
  }

  /** With the first account the only superadmin, the collection holds one
      superadmin once it is non-empty. */
  lemma SuperAdminFirstCount(accounts: seq<Account>)
    requires SuperAdminFirst(accounts)
    ensures CountDocuments(accounts, ByRole(SuperAdmin)) == if accounts == [] then 0 else 1
  {
  }

  /** A sequential run keeps the store invariant, keeps every record it
      started with and adds at most one record per request. */
  lemma {:induction false} ReplayKeepsInvariant(accounts: seq<Account>, bodies: seq<RegisterBody>, env: Collaborators)
    requires StoreInvariant(accounts)
    ensures var r := Replay(accounts, bodies, env);
      StoreInvariant(r) && accounts <= r && |r| <= |accounts| + |bodies|
    decreases |bodies|
  {
    if bodies != [] {
      var next := AfterRegister(accounts, bodies[0], env);
      RegisterKeepsUniqueness(accounts, bodies[0], env);
      RegisterKeepsSuperAdminFirst(accounts, bodies[0], env);
      RegisterAppendsOnSuccess(accounts, bodies[0], env);
      ReplayKeepsInvariant(next, bodies[1..], env);
    }
  }

  /** From an empty collection, a sequential run never stores two accounts
      with the same email or username, stores at most one superadmin, and
      the superadmin is the first account created. */
  lemma ReplayFromEmpty(bodies: seq<RegisterBody>, env: Collaborators)
    ensures var r := Replay([], bodies, env);
      UniqueEmails(r) && UniqueUsernames(r)
      && CountDocuments(r, ByRole(SuperAdmin)) <= 1
      && (r != [] ==> r[0].role == SuperAdmin)
      && forall i :: 0 < i < |r| ==> r[i].role == User
  {
    ReplayKeepsInvariant([], bodies, env);
    SuperAdminFirstCount(Replay([], bodies, env));
  }
}
