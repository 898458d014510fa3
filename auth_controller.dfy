/** The register and login handlers of the user controller over an
    abstract user collection, up to the credential decision. Registering a
    taken email fails with 400 "Email already exists"; a failed login says
    "Invalid email or password" with 401 whichever check failed, except
    that bcrypt rejects a missing password for a known email. */
module AuthController {
  import opened Wrappers
  import opened JsString
  import opened ErrorMiddleware
  import opened DbErrors
  import opened UserModel
  import LeadModel

  type UserId = LeadModel.UserId

  /** A stored user; `password` holds the hash. */
  datatype UserRecord = UserRecord(id: UserId, name: string, email: string, password: string)

  /** What registration reports back: never the password or its hash. */
  datatype UserView = UserView(id: UserId, name: string, email: string)

  const EmailExists: ErrorShape := AppError("Email already exists", 400)
  const InvalidCredentials: ErrorShape := AppError("Invalid email or password", 401)

  /** bcrypt's `compare` rejects a candidate that is not a string; an absent
      password reaches it as `undefined`. */
  const IllegalArguments: ErrorShape :=
    ErrorShape("Error", None, None, Some("Illegal arguments: undefined, string"), None, None)

  class UserStore {
    /** The collection, keyed by the stored (lower-case) email. */
    var users: map<string, UserRecord>
    var nextId: UserId

    ghost predicate Valid()
      reads this
    {
      forall e :: e in users ==> users[e].email == e && NoUpper(e) && users[e].id < nextId
    }

    constructor ()
      ensures Valid() && users == map[] && nextId == 0
    {
      users := map[];
      nextId := 0;
    }

    /** POST /register. The lookup `findOne({ email })` lower-cases the
        email as the schema's setter does; creating the user validates the
        plain fields, then the save hook hashes the password. */
    method Register(name: string, email: string, password: string, hash: string -> string)
      returns (r: Result<UserView, ErrorShape>)
      requires Valid()
      modifies this
      ensures Valid()
      ensures ToLower(email) in old(users) ==> r == Err(EmailExists)
      ensures ToLower(email) !in old(users) && SignupErrors(name, ToLower(email), password) != []
        ==> r == Err(ValidationFailure("UserSignup validation failed", SignupErrors(name, ToLower(email), password)))
      ensures r.Ok? <==> ToLower(email) !in old(users) && ValidSignup(name, ToLower(email), password)
      ensures r.Ok? ==>
        && r.value == UserView(old(nextId), name, ToLower(email))
        && users == old(users)[ToLower(email) := UserRecord(old(nextId), name, ToLower(email), hash(password))]
        && nextId == old(nextId) + 1
      ensures r.Err? ==> users == old(users) && nextId == old(nextId)
    {
      var key := ToLower(email);
      if key in users {
        return Err(EmailExists);
      }
      var doc := new UserDocument(name, email, password);
      var errs := SignupErrors(doc.name, doc.email, doc.password);
      if errs != [] {
        return Err(ValidationFailure("UserSignup validation failed", errs));
      }
      doc.Save(hash);
      ToLowerOfLower(ToLower(email));
      users := users[doc.email := UserRecord(nextId, doc.name, doc.email, doc.password)];
      r := Ok(UserView(nextId, doc.name, doc.email));
      nextId := nextId + 1;
    }

    /** POST /login, up to the credential decision. `password` is `None`
        when the body has no password. */
    method Login(email: string, password: Option<string>, compare: (string, string) -> bool)
      returns (r: Result<UserRecord, ErrorShape>)
      ensures r.Ok? <==>
        && ToLower(email) in users
        && password.Some?
        && compare(password.value, users[ToLower(email)].password)
      ensures r.Ok? ==> r.value == users[ToLower(email)]
      ensures ToLower(email) !in users ==> r == Err(InvalidCredentials)
      ensures ToLower(email) in users && password.None? ==> r == Err(IllegalArguments)
      ensures ToLower(email) in users && password.Some? && !compare(password.value, users[ToLower(email)].password)
        ==> r == Err(InvalidCredentials)
    {
      var key := ToLower(email);
      if key !in users {
        return Err(InvalidCredentials);
      }
      var user := users[key];
      if password.None? {
        return Err(IllegalArguments);
      }
      var isMatch := compare(password.value, user.password);
      if !isMatch {
        return Err(InvalidCredentials);
      }
      r := Ok(user);
    }
  }

  /** After a registration, the credential check accepts the same email and
      password, given a comparison that accepts a password against its own
      hash. */
  method RegisterThenLogin(store: UserStore, name: string, email: string, password: string,
                           hash: string -> string, compare: (string, string) -> bool)
    returns (registered: Result<UserView, ErrorShape>, login: Result<UserRecord, ErrorShape>)
    requires store.Valid()
    requires forall p :: compare(p, hash(p))
    modifies store
    ensures store.Valid()
    ensures registered.Ok? ==> login.Ok? && login.value.id == registered.value.id
  {
    registered := store.Register(name, email, password, hash);
    login := store.Login(email, Some(password), compare);
  }

  /** Both login failures reach the client as the same 401 reply. */
  method InvalidCredentialsReply() returns (reply: Reply)
    ensures reply == Reply(401, false, "Invalid email or password")
  {
    reply := HandleError(InvalidCredentials);
  }

  /** A login without a password, for a known email, reaches the client as
      a 500 carrying bcrypt's message. */
  method IllegalArgumentsReply() returns (reply: Reply)
    ensures reply == Reply(500, false, "Illegal arguments: undefined, string")
  {
    reply := HandleError(IllegalArguments);
  }

  /** A taken email reaches the client as 400 "Email already exists". */
  method EmailExistsReply() returns (reply: Reply)
    ensures reply == Reply(400, false, "Email already exists")
  {
    reply := HandleError(EmailExists);
  }
}
