/**
 * POST /api/auth/signin: validate the body, check the credentials, refresh
 * the user's `lastActive` and return the user without its password, with a
 * signed token.
 */
module SigninRoute {
  import opened Wrappers
  import opened JsonSchema
  import Http
  import UserModel
  import Text
  import SignupRoute

  const InvalidCredentials := "Invalid credentials"

  /** A body `signinSchema` accepted. */
  datatype SigninRequest = SigninRequest(email: string, password: string)

  /** `signinSchema.parse(body)`: an address the email check admits and a password of at least six characters. */
  function ParseSignin(body: Json, validEmail: string -> bool): (r: Option<SigninRequest>)
    ensures r.Some? ==> body.JObject? && validEmail(r.value.email) && Text.JsLength(r.value.password) >= 6
    ensures r.Some? ==> Member(body, "email") == Some(JString(r.value.email))
    ensures r.Some? ==> Member(body, "password") == Some(JString(r.value.password))
  {
    if !body.JObject? then None
    else
      var email := ZString(Member(body, "email"), 0);
      var password := ZString(Member(body, "password"), 6);
      if email.Some? && validEmail(email.value) && password.Some? then
        Some(SigninRequest(email.value, password.value))
      else None
  }

  /** Every body spelling an admitted address and a password of six or more characters is accepted, as itself. */
  lemma ValidSigninsAreAccepted(email: string, password: string, validEmail: string -> bool)
    requires validEmail(email) && Text.JsLength(password) >= 6
    ensures ParseSignin(JObject(map["email" := JString(email), "password" := JString(password)]), validEmail)
            == Some(SigninRequest(email, password))
  {
  }

  /** The stored user after a successful signin: only `lastActive` differs. */
  function Touched(u: UserModel.User, now: nat): (t: UserModel.User)
    ensures t.progress.lastActive == now
    ensures t.(progress := u.progress) == u
    ensures t.progress.(lastActive := u.progress.lastActive) == u.progress
  {
    u.(progress := u.progress.(lastActive := now))
  }

  /**
   * POST /api/auth/signin. A body that is not JSON is 500; one the schema
   * rejects (a password under six characters included) is 400 before any
   * lookup; an unknown address and a wrong password both give 401 with the
   * same message. None of these changes any user. On success the user's
   * `lastActive` becomes `now` and nothing else of any user changes (the save
   * does not rehash the unmodified password); the reply is 200 with the user
   * minus its password and a token signed for its id.
   */
  method Signin(
    users: UserModel.UserCollection,
    body: Option<Json>,
    validEmail: string -> bool,
    compare: (string, string) -> bool,
    salt: string,
    hash: (string, string) -> string,
    sign: UserModel.UserId -> string,
    now: nat)
    returns (r: Http.Reply<UserModel.Session>)
    requires users.Valid()
    modifies users
    ensures users.Valid() && users.nextId == old(users.nextId)
    ensures r.status != 200 ==> users.users == old(users.users)
    ensures r.status == 401 ==> r == Http.ErrorReply(401, InvalidCredentials)
    ensures body.None? ==> r == Http.Caught(Http.OtherError)
    ensures body.Some? ==>
      var req := ParseSignin(body.value, validEmail);
      if req.None? then r == Http.Caught(Http.ZodError)
      else if !UserModel.EmailTaken(old(users.users), req.value.email) then
        r == Http.ErrorReply(401, InvalidCredentials)
      else
        forall id :: id in old(users.users) && old(users.users)[id].email == UserModel.NormalizeEmail(req.value.email) ==>
          var u := old(users.users)[id];
          if !UserModel.ComparePassword(u, req.value.password, compare) then
            r == Http.ErrorReply(401, InvalidCredentials)
          else
            && users.users == old(users.users)[id := Touched(u, now)]
            && r == Http.Reply(200, Http.Data(UserModel.Session(UserModel.WithoutPassword(Touched(u, now)), sign(id))))
  {
    if body.None? {
      return Http.Caught(Http.OtherError);
    }
    var req := ParseSignin(body.value, validEmail);
    if req.None? {
      return Http.Caught(Http.ZodError);
    }
    var found := users.FindByEmail(req.value.email);
    if found.None? {
      return Http.ErrorReply(401, InvalidCredentials);
    }
    var id := found.value;
    if !UserModel.ComparePassword(users.users[id], req.value.password, compare) {
      return Http.ErrorReply(401, InvalidCredentials);
    }
    var token := sign(id);
    var doc := new UserModel.UserDocument.Loaded(users.users[id]);
    doc.TouchLastActive(now);
    users.Save(doc, salt, hash);
    r := Http.Reply(200, Http.Data(UserModel.Session(UserModel.WithoutPassword(doc.record), token)));
  }

  /**
   * A signin for a stored user, with that user's address and a password the
   * compare oracle accepts against the stored hash, answers 200 for that
   * user.
   */
  method SigninStoredUser(
    users: UserModel.UserCollection,
    id: UserModel.UserId,
    email: string,
    password: string,
    validEmail: string -> bool,
    compare: (string, string) -> bool,
    salt: string,
    hash: (string, string) -> string,
    sign: UserModel.UserId -> string,
    now: nat)
    returns (r: Http.Reply<UserModel.Session>)
    requires users.Valid()
    requires id in users.users && users.users[id].email == UserModel.NormalizeEmail(email)
    requires validEmail(email) && Text.JsLength(password) >= 6
    requires compare(password, users.users[id].password)
    modifies users
    ensures users.Valid()
    ensures r == Http.Reply(200, Http.Data(UserModel.Session(
                  UserModel.WithoutPassword(Touched(old(users.users)[id], now)), sign(id))))
  {
    ghost var before := users.users;
    var credentials := JObject(map["email" := JString(email), "password" := JString(password)]);
    ValidSigninsAreAccepted(email, password, validEmail);
    assert UserModel.EmailTaken(before, email);
    r := Signin(users, Some(credentials), validEmail, compare, salt, hash, sign, now);
  }

  /**
   * A new account can sign in: after a signup that answers 201, a signin with
   * the address and password of that signup answers 200, for the account the
   * signup created and with the same token, given that the compare oracle
   * recognises the hash the save stored.
   */
  method SignupThenSignin(
    users: UserModel.UserCollection,
    body: Json,
    validEmail: string -> bool,
    compare: (string, string) -> bool,
    salt: string,
    hash: (string, string) -> string,
    sign: UserModel.UserId -> string,
    now: nat,
    later: nat)
    returns (up: Http.Reply<UserModel.Session>, down: Http.Reply<UserModel.Session>)
    requires users.Valid()
    requires SignupRoute.ParseSignup(body, validEmail).Some?
    requires var password := SignupRoute.ParseSignup(body, validEmail).value.password;
             compare(password, hash(password, salt))
    modifies users
    ensures users.Valid()
    ensures up.status == 201 ==>
      && down.status == 200 && up.body.Data? && down.body.Data?
      && down.body.value.user.id == up.body.value.user.id
      && down.body.value.user.email == up.body.value.user.email
      && down.body.value.token == up.body.value.token
  {
    var req := SignupRoute.ParseSignup(body, validEmail).value;
    var id := users.nextId;
    up := SignupRoute.Signup(users, Some(body), validEmail, salt, hash, sign, now);
    if up.status != 201 {
      var credentials := JObject(map["email" := JString(req.email), "password" := JString(req.password)]);
      down := Signin(users, Some(credentials), validEmail, compare, salt, hash, sign, later);
      return;
    }
    assert id in users.users && users.users[id].email == UserModel.NormalizeEmail(req.email);
    assert users.users[id].password == hash(req.password, salt);
    down := SigninStoredUser(users, id, req.email, req.password, validEmail, compare, salt, hash, sign, later);
  }
}
