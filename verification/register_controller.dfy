/** The registration handler over a mutable account collection and a mail
    outbox. Each call runs the same fail-fast sequence as the handler:
    validate, reject a known email, reject a known username, choose the role,
    hash, append the account, queue the activation mail, answer. */
module RegisterController {
  import opened RegisterSchema
  import opened UserModel
  import opened Registration

  class UserStore {
    /** The account collection, in insertion order. */
    var accounts: seq<Account>
    /** Activation mails handed to the mailer, in dispatch order. */
    var outbox: seq<Mail>
    const env: Collaborators

    /** Uniqueness and the superadmin-first rule hold, and each account has
        received exactly one activation mail, in creation order. */
    ghost predicate Valid()
      reads this
    {
      StoreInvariant(accounts)
      && |outbox| == |accounts|
      && forall i :: 0 <= i < |outbox| ==> outbox[i] == ActivationMail(accounts[i].email, env)
    }

    constructor (env: Collaborators)
      ensures Valid()
      ensures this.env == env && accounts == [] && outbox == []
    {
      this.env := env;
      accounts := [];
      outbox := [];
    }

    /** `registerAccount`: answers the request and, on success only, appends
        one account and queues one activation mail to its email. */
    method RegisterAccount(body: RegisterBody) returns (r: Response)
      modifies this
      ensures r == Decide(old(accounts), body, env.isEmail)
      ensures accounts == AfterRegister(old(accounts), body, env)
      ensures !r.Success? ==> accounts == old(accounts) && outbox == old(outbox)
      ensures r.Success? ==>
        accounts == old(accounts) + [Account(body.username, body.email,
                                             env.hash(body.password, SaltRounds), NewRole(old(accounts)))]
        && outbox == old(outbox) + [ActivationMail(body.email, env)]
      ensures old(Valid()) ==> Valid()
    {
      var issues := Validate(body, env.isEmail);
      if issues != [] {
        return ValidationFailed(issues);
      }

      var existingEmailUser := FindOne(accounts, ByEmail(body.email));
      if existingEmailUser.Some? {
        return Conflict(EmailAlreadyRegistered, ConflictStatus);
      }

      var existingUsernameUser := FindOne(accounts, ByUsername(body.username));
      if existingUsernameUser.Some? {
        return Conflict(UsernameAlreadyRegistered, ConflictStatus);
      }

      var superAdminCount := CountDocuments(accounts, ByRole(SuperAdmin));
      var userRole := if superAdminCount == 0 then SuperAdmin else User;

      var hashedPassword := env.hash(body.password, SaltRounds);

      accounts := accounts + [Account(body.username, body.email, hashedPassword, userRole)];

      var activationToken := env.activationToken(body.email);
      outbox := outbox + [Mail(body.email, ActivationSubject, ActivationTemplate, activationToken)];
      r := Success(ActivationLinkSent);
    }
  }

  /** The first account registered on an empty store becomes the superadmin;
      the next one, with another email and username, becomes a user; each
      gets its own activation mail. */
  method BootstrapScenario(env: Collaborators) returns (first: Response, second: Response, store: UserStore)
    requires env.isEmail("alice@x.com") && env.isEmail("bob@x.com")
    ensures first == Success(ActivationLinkSent) && second == Success(ActivationLinkSent)
    ensures |store.accounts| == 2
    ensures store.accounts[0].username == "alice" && store.accounts[0].role == SuperAdmin
    ensures store.accounts[1].username == "bob" && store.accounts[1].role == User
    ensures store.outbox == [ActivationMail("alice@x.com", env), ActivationMail("bob@x.com", env)]
  {
    store := new UserStore(env);
    first := store.RegisterAccount(RegisterBody("alice", "alice@x.com", "longenough1"));
    second := store.RegisterAccount(RegisterBody("bob", "bob@x.com", "longenough1"));
  }

  /** A second request with a stored email, or with a six-character password,
      is refused and changes nothing. */
  method RejectionScenario(env: Collaborators) returns (duplicate: Response, short: Response, store: UserStore)
    requires env.isEmail("alice@x.com") && env.isEmail("carol@x.com")
    ensures duplicate == Conflict(EmailAlreadyRegistered, ConflictStatus)
    ensures short == ValidationFailed([PasswordTooShort])
    ensures |store.accounts| == 1 && |store.outbox| == 1
  {
    store := new UserStore(env);
    var first := store.RegisterAccount(RegisterBody("alice", "alice@x.com", "longenough1"));
    duplicate := store.RegisterAccount(RegisterBody("alice2", "alice@x.com", "longenough1"));
    short := store.RegisterAccount(RegisterBody("carol", "carol@x.com", "short1"));
  }
}
