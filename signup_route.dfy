/**
 * POST /api/auth/signup: validate the body, refuse an address already
 * registered, create the user (hashing the password on save) and return the
 * user without its password, with a signed token.
 */
module SignupRoute {
  import opened Wrappers
  import opened JsonSchema
  import Http
  import UserModel
  import Text

  const UserAlreadyExists := "User already exists"

  /** A body `signupSchema` accepted. */
  datatype SignupRequest = SignupRequest(
    email: string,
    password: string,
    name: string,
    nativeLanguage: string,
    targetLanguage: string,
    languageLevel: UserModel.Level,
    interests: Option<seq<string>>,
    learningGoals: Option<seq<string>>)

  /**
   * `signupSchema.parse(body)`: whatever it accepts has an address the email
   * check admits, a password of at least six characters, a name of at least
   * two, a level from the enum and, when given, arrays of strings, all as the
   * body spells them.
   */
  function ParseSignup(body: Json, validEmail: string -> bool): (r: Option<SignupRequest>)
    ensures r.Some? ==> body.JObject? && validEmail(r.value.email)
    ensures r.Some? ==> Text.JsLength(r.value.password) >= 6 && Text.JsLength(r.value.name) >= 2
    ensures r.Some? ==>
      && Member(body, "email") == Some(JString(r.value.email))
      && Member(body, "password") == Some(JString(r.value.password))
      && Member(body, "name") == Some(JString(r.value.name))
      && Member(body, "nativeLanguage") == Some(JString(r.value.nativeLanguage))
      && Member(body, "targetLanguage") == Some(JString(r.value.targetLanguage))
      && Member(body, "languageLevel") == Some(JString(UserModel.LevelName(r.value.languageLevel)))
      && ZOptionalStrings(Member(body, "interests")) == Some(r.value.interests)
      && ZOptionalStrings(Member(body, "learningGoals")) == Some(r.value.learningGoals)
  {
    if !body.JObject? then None
    else
      var email := ZString(Member(body, "email"), 0);
      var password := ZString(Member(body, "password"), 6);
      var name := ZString(Member(body, "name"), 2);
      var nativeLanguage := ZString(Member(body, "nativeLanguage"), 0);
      var targetLanguage := ZString(Member(body, "targetLanguage"), 0);
      var level := UserModel.ZLevel(Member(body, "languageLevel"));
      var interests := ZOptionalStrings(Member(body, "interests"));
      var learningGoals := ZOptionalStrings(Member(body, "learningGoals"));
      if && email.Some? && validEmail(email.value) && password.Some? && name.Some?
         && nativeLanguage.Some? && targetLanguage.Some? && level.Some?
         && interests.Some? && learningGoals.Some?
      then
        Some(SignupRequest(email.value, password.value, name.value, nativeLanguage.value,
                           targetLanguage.value, level.value, interests.value, learningGoals.value))
      else None
  }

  /** The optional array fields of a body: present exactly when given. */
  function OptionalField(key: string, xs: Option<seq<string>>): map<string, Json>
  {
    if xs.Some? then map[key := Strings(xs.value)] else map[]
  }

  /** The JSON body a client sends for a signup request. */
  function SignupJson(req: SignupRequest): Json
  {
    JObject(map[
      "email" := JString(req.email),
      "password" := JString(req.password),
      "name" := JString(req.name),
      "nativeLanguage" := JString(req.nativeLanguage),
      "targetLanguage" := JString(req.targetLanguage),
      "languageLevel" := JString(UserModel.LevelName(req.languageLevel))]
      + OptionalField("interests", req.interests)
      + OptionalField("learningGoals", req.learningGoals))
  }

  /** The fields of a signup body, as ParseSignup reads them. */
  lemma SignupJsonMembers(req: SignupRequest)
    ensures var body := SignupJson(req);
      && Member(body, "email") == Some(JString(req.email))
      && Member(body, "password") == Some(JString(req.password))
      && Member(body, "name") == Some(JString(req.name))
      && Member(body, "nativeLanguage") == Some(JString(req.nativeLanguage))
      && Member(body, "targetLanguage") == Some(JString(req.targetLanguage))
      && Member(body, "languageLevel") == Some(JString(UserModel.LevelName(req.languageLevel)))
      && Member(body, "interests") == (if req.interests.Some? then Some(Strings(req.interests.value)) else None)
      && Member(body, "learningGoals") == (if req.learningGoals.Some? then Some(Strings(req.learningGoals.value)) else None)
  {
  }

  /**
   * Every request meeting the schema's bounds is accepted from the JSON a
   * client sends for it, as itself. The converse is the contract of
   * ParseSignup: an accepted body spells its request in these fields.
   */
  lemma ValidSignupsAreAccepted(req: SignupRequest, validEmail: string -> bool)
    requires validEmail(req.email) && Text.JsLength(req.password) >= 6 && Text.JsLength(req.name) >= 2
    ensures ParseSignup(SignupJson(req), validEmail) == Some(req)
  {
    var body := SignupJson(req);
    SignupJsonMembers(req);
    UserModel.LevelNameRoundTrip(req.languageLevel);
    if req.interests.Some? {
      ZOptionalStringsOfStrings(req.interests.value);
    }
    if req.learningGoals.Some? {
      ZOptionalStringsOfStrings(req.learningGoals.value);
    }
    assert ZOptionalStrings(Member(body, "interests")) == Some(req.interests);
    assert ZOptionalStrings(Member(body, "learningGoals")) == Some(req.learningGoals);
    assert UserModel.ZLevel(Member(body, "languageLevel")) == Some(req.languageLevel);
  }

  /**
   * The document `User.create` is given: the validated fields, with
   * `interests` and `learningGoals` defaulting to empty arrays.
   */
  function Draft(req: SignupRequest, now: nat): (u: UserModel.User)
    ensures u.email == UserModel.NormalizeEmail(req.email) && u.password == req.password
    ensures u.languageLevel == req.languageLevel
    ensures req.interests.None? ==> u.interests == []
    ensures req.learningGoals.None? ==> u.learningGoals == []
    ensures u.progress == UserModel.DefaultProgress(now)
  {
    UserModel.NewUser(0, req.email, req.password, req.name, req.nativeLanguage, req.targetLanguage,
                      Some(req.languageLevel), req.interests.GetOr([]), req.learningGoals.GetOr([]), now)
  }

  /** Adding a fresh key grows a map by one. */
  lemma FreshKeyGrowsMap<K, V>(m: map<K, V>, k: K, v: V)
    requires k !in m
    ensures |m[k := v]| == |m| + 1
  {
  }

  /**
   * `User.create(draft)` for an address not yet registered, then the reply: a
   * record the model's validators reject (a name that trims to nothing, an
   * empty language) is 500 and changes nothing. Otherwise exactly one user is
   * added, under a fresh id, with the password hashed, and the reply is 201
   * with the user minus its password and a token signed for its id.
   */
  method CreateAccount(
    users: UserModel.UserCollection,
    draft: UserModel.User,
    salt: string,
    hash: (string, string) -> string,
    sign: UserModel.UserId -> string)
    returns (r: Http.Reply<UserModel.Session>)
    requires users.Valid()
    requires UserModel.NormalizeEmail(draft.email) == draft.email
    requires !UserModel.EmailTaken(users.users, draft.email)
    modifies users
    ensures users.Valid()
    ensures !UserModel.PassesValidators(draft) ==>
      r == Http.Caught(Http.OtherError) && users.users == old(users.users) && users.nextId == old(users.nextId)
    ensures UserModel.PassesValidators(draft) ==>
      var u := UserModel.PreSaveEffect(draft.(id := old(users.nextId)), true, salt, hash);
      && old(users.nextId) !in old(users.users)
      && users.users == old(users.users)[old(users.nextId) := u]
      && |users.users| == |old(users.users)| + 1
      && r == Http.Reply(201, Http.Data(UserModel.Session(UserModel.WithoutPassword(u), sign(u.id))))
  {
    ghost var before := users.users;
    ghost var id := users.nextId;
    assert id !in before;
    var created := users.Create(draft, salt, hash);
    if created.None? {
      return Http.Caught(Http.OtherError);
    }
    FreshKeyGrowsMap(before, id, created.value);
    var token := sign(created.value.id);
    r := Http.Reply(201, Http.Data(UserModel.Session(UserModel.WithoutPassword(created.value), token)));
  }

  /**
   * The part of the handler after validation: a registered address is 400
   * "User already exists" and changes nothing; the rest is CreateAccount on
   * the request's draft.
   */
  method Register(
    users: UserModel.UserCollection,
    req: SignupRequest,
    salt: string,
    hash: (string, string) -> string,
    sign: UserModel.UserId -> string,
    now: nat)
    returns (r: Http.Reply<UserModel.Session>)
    requires users.Valid()
    modifies users
    ensures users.Valid()
    ensures r.status != 201 ==> users.users == old(users.users) && users.nextId == old(users.nextId)
    ensures r.status == 201 ==> |users.users| == |old(users.users)| + 1
    ensures UserModel.EmailTaken(old(users.users), req.email) ==> r == Http.ErrorReply(400, UserAlreadyExists)
    ensures !UserModel.EmailTaken(old(users.users), req.email) && !UserModel.PassesValidators(Draft(req, now)) ==>
      r == Http.Caught(Http.OtherError)
    ensures !UserModel.EmailTaken(old(users.users), req.email) && UserModel.PassesValidators(Draft(req, now)) ==>
      var u := UserModel.PreSaveEffect(Draft(req, now).(id := old(users.nextId)), true, salt, hash);
      && old(users.nextId) !in old(users.users)
      && users.users == old(users.users)[old(users.nextId) := u]
      && r == Http.Reply(201, Http.Data(UserModel.Session(UserModel.WithoutPassword(u), sign(u.id))))
  {
    var existing := users.FindByEmail(req.email);
    if existing.Some? {
      return Http.ErrorReply(400, UserAlreadyExists);
    }
    var draft := Draft(req, now);
    UserModel.NormalizeEmailIsIdempotent(req.email);
    r := CreateAccount(users, draft, salt, hash, sign);
  }

  /**
   * POST /api/auth/signup. A body that is not JSON is 500 and one the schema
   * rejects is 400, both before any lookup; the rest is Register.
   */
  method Signup(
    users: UserModel.UserCollection,
    body: Option<Json>,
    validEmail: string -> bool,
    salt: string,
    hash: (string, string) -> string,
    sign: UserModel.UserId -> string,
    now: nat)
    returns (r: Http.Reply<UserModel.Session>)
    requires users.Valid()
    modifies users
    ensures users.Valid()
    ensures r.status != 201 ==> users.users == old(users.users) && users.nextId == old(users.nextId)
    ensures r.status == 201 ==> |users.users| == |old(users.users)| + 1
    ensures body.None? ==> r == Http.Caught(Http.OtherError)
    ensures body.Some? && ParseSignup(body.value, validEmail).None? ==> r == Http.Caught(Http.ZodError)
    ensures body.Some? && ParseSignup(body.value, validEmail).Some? ==>
      var req := ParseSignup(body.value, validEmail).value;
      if UserModel.EmailTaken(old(users.users), req.email) then
        r == Http.ErrorReply(400, UserAlreadyExists)
      else if !UserModel.PassesValidators(Draft(req, now)) then
        r == Http.Caught(Http.OtherError)
      else
        var u := UserModel.PreSaveEffect(Draft(req, now).(id := old(users.nextId)), true, salt, hash);
        && users.users == old(users.users)[old(users.nextId) := u]
        && r == Http.Reply(201, Http.Data(UserModel.Session(UserModel.WithoutPassword(u), sign(u.id))))
  {
    if body.None? {
      return Http.Caught(Http.OtherError);
    }
    var req := ParseSignup(body.value, validEmail);
    if req.None? {
      return Http.Caught(Http.ZodError);
    }
    r := Register(users, req.value, salt, hash, sign, now);
  }
}
