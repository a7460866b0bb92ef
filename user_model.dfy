/**
 * The learner record (`IUser` and `UserSchema`), the document whose pre-save
 * hook hashes the password, and the users collection the auth and
 * conversation handlers read and write.
 */
module UserModel {
  import opened Wrappers
  import Text
  import JsonSchema

  /** A user's `_id`. */
  type UserId = nat

  /** The `languageLevel` enum, shared with the conversation schema's `difficultyLevel`. */
  datatype Level = Beginner | Intermediate | Advanced

  function LevelName(l: Level): string
  {
    match l
    case Beginner => "beginner"
    case Intermediate => "intermediate"
    case Advanced => "advanced"
  }

  /** Membership of `s` in `['beginner', 'intermediate', 'advanced']`. */
  function LevelFromName(s: string): (l: Option<Level>)
    ensures l.Some? <==> s == "beginner" || s == "intermediate" || s == "advanced"
    ensures l.Some? ==> LevelName(l.value) == s
  {
    if s == "beginner" then Some(Beginner)
    else if s == "intermediate" then Some(Intermediate)
    else if s == "advanced" then Some(Advanced)
    else None
  }

  /** Naming a level and reading the name back gives the level. */
  lemma LevelNameRoundTrip(l: Level)
    ensures LevelFromName(LevelName(l)) == Some(l)
  {
  }

  /** `z.enum(['beginner', 'intermediate', 'advanced'])`, as the signup and conversation schemas use it. */
  function ZLevel(v: Option<JsonSchema.Json>): (l: Option<Level>)
    ensures l.Some? <==> v.Some? && v.value.JString? && LevelFromName(v.value.s).Some?
    ensures l.Some? ==> v == Some(JsonSchema.JString(LevelName(l.value)))
  {
    match JsonSchema.ZString(v, 0)
    case Some(s) => LevelFromName(s)
    case None => None
  }

  /** The schema default for `languageLevel`. */
  const DefaultLevel: Level := Beginner

  /** `progress`; `lastActive` is a clock reading. */
  datatype Progress = Progress(
    vocabularyScore: int,
    grammarScore: int,
    pronunciationScore: int,
    confidenceLevel: int,
    lastActive: nat)

  /** The `min: 0, max: 100` bound every score carries. */
  predicate InScoreRange(x: int)
  {
    0 <= x <= 100
  }

  predicate ValidProgress(p: Progress)
  {
    InScoreRange(p.vocabularyScore) && InScoreRange(p.grammarScore)
    && InScoreRange(p.pronunciationScore) && InScoreRange(p.confidenceLevel)
  }

  /** The schema defaults: every score 0, `lastActive` the creation time. */
  function DefaultProgress(now: nat): (p: Progress)
    ensures ValidProgress(p)
    ensures p.vocabularyScore == p.grammarScore == p.pronunciationScore == p.confidenceLevel == 0
    ensures p.lastActive == now
  {
    Progress(0, 0, 0, 0, now)
  }

  datatype User = User(
    id: UserId,
    email: string,
    password: string,
    name: string,
    nativeLanguage: string,
    targetLanguage: string,
    languageLevel: Level,
    interests: seq<string>,
    learningGoals: seq<string>,
    progress: Progress)

  /** The `trim` and `lowercase` setters of `email`, applied to stored values and to query filters alike. */
  function NormalizeEmail(email: string): string
  {
    Text.Lower(Text.Trim(email))
  }

  /**
   * A normalised address is no longer than the original, has no whitespace
   * at either end and no ASCII capital letter.
   */
  lemma NormalizedEmailShape(email: string)
    ensures var r := NormalizeEmail(email);
      && |r| <= |email|
      && (r == [] || (!Text.IsWhitespace(r[0]) && !Text.IsWhitespace(r[|r| - 1])))
      && forall i :: 0 <= i < |r| ==> !('A' <= r[i] <= 'Z')
  {
    var t := Text.Trim(email);
    Text.TrimIsIdempotent(email);
    var r := Text.Lower(t);
    assert r == [] || (r[0] == Text.LowerChar(t[0]) && r[|r| - 1] == Text.LowerChar(t[|t| - 1]));
  }

  /** An address the setters leave as it is: no whitespace at either end and no ASCII capital. */
  ghost predicate IsNormalEmail(e: string)
  {
    && (e == [] || (!Text.IsWhitespace(e[0]) && !Text.IsWhitespace(e[|e| - 1])))
    && forall i :: 0 <= i < |e| ==> !('A' <= e[i] <= 'Z')
  }

  /** The setters leave an address unchanged exactly when it has that shape. */
  lemma NormalEmailIsFixed(e: string)
    ensures NormalizeEmail(e) == e <==> IsNormalEmail(e)
  {
    if NormalizeEmail(e) == e {
      NormalizedEmailShape(e);
    }
    if IsNormalEmail(e) {
      Text.TrimmedIsFixed(e);
      assert Text.Trim(e) == e;
      assert forall i :: 0 <= i < |e| ==> Text.LowerChar(e[i]) == e[i];
      assert Text.Lower(e) == e;
    }
  }

  /** Normalising an address twice is normalising it once, so stored addresses are fixed points. */
  lemma NormalizeEmailIsIdempotent(email: string)
    ensures NormalizeEmail(NormalizeEmail(email)) == NormalizeEmail(email)
  {
    var t := Text.Trim(email);
    var l := Text.Lower(t);
    Text.TrimIsIdempotent(email);
    if l != [] {
      assert l[0] == Text.LowerChar(t[0]);
      assert l[|l| - 1] == Text.LowerChar(t[|t| - 1]);
    }
    Text.TrimmedIsFixed(l);
    assert Text.Lower(l) == l;
  }

  /** The `trim` setter applied to each element of a string array. */
  function TrimAll(xs: seq<string>): (r: seq<string>)
    ensures |r| == |xs|
    ensures forall i :: 0 <= i < |xs| ==> r[i] == Text.Trim(xs[i])
  {
    seq(|xs|, i requires 0 <= i < |xs| => Text.Trim(xs[i]))
  }

  /**
   * The document `new User(fields)` builds: setters applied (email trimmed and
   * lower-cased; name, interests and goals trimmed), the level defaulted to
   * beginner when absent and the progress record defaulted.
   */
  function NewUser(
    id: UserId, email: string, password: string, name: string,
    nativeLanguage: string, targetLanguage: string, level: Option<Level>,
    interests: seq<string>, learningGoals: seq<string>, now: nat): (u: User)
    ensures u.id == id && u.email == NormalizeEmail(email) && u.password == password
    ensures u.name == Text.Trim(name)
    ensures u.nativeLanguage == nativeLanguage && u.targetLanguage == targetLanguage
    ensures u.languageLevel == if level.Some? then level.value else DefaultLevel
    ensures u.interests == TrimAll(interests) && u.learningGoals == TrimAll(learningGoals)
    ensures u.progress == DefaultProgress(now) && ValidProgress(u.progress)
  {
    User(id, NormalizeEmail(email), password, Text.Trim(name), nativeLanguage, targetLanguage,
         level.GetOr(DefaultLevel), TrimAll(interests), TrimAll(learningGoals), DefaultProgress(now))
  }

  /**
   * The schema's validators, run before the save hooks: the required strings
   * are non-empty (a required string rejects ""), the password has at least
   * six characters and every score is within [0, 100].
   */
  predicate PassesValidators(u: User)
  {
    u.email != [] && Text.JsLength(u.password) >= 6 && u.name != []
    && u.nativeLanguage != [] && u.targetLanguage != []
    && ValidProgress(u.progress)
  }

  /**
   * The validators accept a freshly built record exactly when the normalised
   * address, the trimmed name and both languages are non-empty and the
   * password is at least six UTF-16 code units long; the default progress
   * always passes.
   */
  lemma PassesValidatorsOnNewUser(
    id: UserId, email: string, password: string, name: string,
    nativeLanguage: string, targetLanguage: string, level: Option<Level>,
    interests: seq<string>, learningGoals: seq<string>, now: nat)
    ensures PassesValidators(NewUser(id, email, password, name, nativeLanguage, targetLanguage,
                                     level, interests, learningGoals, now))
            <==> && NormalizeEmail(email) != [] && Text.JsLength(password) >= 6 && Text.Trim(name) != []
                 && nativeLanguage != [] && targetLanguage != []
  {
  }

  /** The user data the auth handlers return: the record without its `password`. */
  datatype PublicUser = PublicUser(
    id: UserId,
    email: string,
    name: string,
    nativeLanguage: string,
    targetLanguage: string,
    languageLevel: Level,
    interests: seq<string>,
    learningGoals: seq<string>,
    progress: Progress)

  /** `const { password: _, ...userData } = user.toObject()`. */
  function WithoutPassword(u: User): (p: PublicUser)
    ensures p.id == u.id && p.email == u.email && p.name == u.name
    ensures p.nativeLanguage == u.nativeLanguage && p.targetLanguage == u.targetLanguage
    ensures p.languageLevel == u.languageLevel && p.interests == u.interests
    ensures p.learningGoals == u.learningGoals && p.progress == u.progress
  {
    PublicUser(u.id, u.email, u.name, u.nativeLanguage, u.targetLanguage, u.languageLevel,
               u.interests, u.learningGoals, u.progress)
  }

  /** The inverse of dropping the password: nothing but the password is lost. */
  function WithPassword(p: PublicUser, password: string): (u: User)
    ensures u.password == password && WithoutPassword(u) == p
  {
    User(p.id, p.email, password, p.name, p.nativeLanguage, p.targetLanguage, p.languageLevel,
         p.interests, p.learningGoals, p.progress)
  }

  /** Dropping the password and putting it back gives the record again. */
  lemma PasswordIsAllThatIsDropped(u: User)
    ensures WithPassword(WithoutPassword(u), u.password) == u
  {
  }

  /** The `{ user, token }` body of a successful signup or signin. */
  datatype Session = Session(user: PublicUser, token: string)

  /**
   * The effect of the pre('save') hook: the password is replaced by
   * `hash(password, salt)` when, and only when, it was modified.
   */
  function PreSaveEffect(u: User, passwordModified: bool, salt: string, hash: (string, string) -> string): (r: User)
    ensures r.(password := u.password) == u
    ensures r.password == if passwordModified then hash(u.password, salt) else u.password
  {
    if passwordModified then u.(password := hash(u.password, salt)) else u
  }

  /** `user.comparePassword(candidate)`: bcrypt's compare of the candidate against the stored hash. */
  function ComparePassword(u: User, candidate: string, compare: (string, string) -> bool): (ok: bool)
    ensures ok <==> compare(candidate, u.password)
  {
    compare(candidate, u.password)
  }

  /**
   * A password set on a document and saved is accepted by `comparePassword`
   * afterwards, given that the compare oracle recognises its own hashes; and
   * saving again without touching the password keeps the same hash.
   */
  lemma SavedPasswordVerifies(
    u: User, salt: string, hash: (string, string) -> string, compare: (string, string) -> bool)
    requires compare(u.password, hash(u.password, salt))
    ensures ComparePassword(PreSaveEffect(u, true, salt, hash), u.password, compare)
    ensures var saved := PreSaveEffect(u, true, salt, hash);
            PreSaveEffect(saved, false, salt, hash) == saved
  {
  }

  /** A user document: its fields and whether `isModified('password')` holds. */
  class UserDocument {
    var record: User
    var passwordModified: bool

    /** `new User(fields)` / `User.create`: every path, the password included, counts as modified. */
    constructor Create(draft: User)
      ensures record == draft && passwordModified
    {
      record := draft;
      passwordModified := true;
    }

    /** A document returned by a query: nothing is modified yet. */
    constructor Loaded(stored: User)
      ensures record == stored && !passwordModified
    {
      record := stored;
      passwordModified := false;
    }

    /** `user.progress.lastActive = now`. */
    method TouchLastActive(now: nat)
      modifies this
      ensures record == old(record).(progress := old(record).progress.(lastActive := now))
      ensures passwordModified == old(passwordModified)
    {
      record := record.(progress := record.progress.(lastActive := now));
    }

    /** The pre('save') hook: rehash only a modified password. */
    method PreSave(salt: string, hash: (string, string) -> string)
      modifies this
      ensures record == PreSaveEffect(old(record), old(passwordModified), salt, hash)
      ensures passwordModified == old(passwordModified)
    {
      if !passwordModified {
        return;
      }
      record := record.(password := hash(record.password, salt));
    }
  }

  /** Some stored user has this address once the setters have normalised it. */
  ghost predicate EmailTaken(users: map<UserId, User>, email: string)
  {
    exists id :: id in users && users[id].email == NormalizeEmail(email)
  }

  /** The users collection. */
  class UserCollection {
    var users: map<UserId, User>
    var nextId: UserId

    /**
     * Every record sits under its own id, below the next fresh id, and has its
     * scores in range; and the unique index on email holds.
     */
    ghost predicate Valid()
      reads this
    {
      && (forall id :: id in users ==>
            id < nextId && users[id].id == id && ValidProgress(users[id].progress)
            && IsNormalEmail(users[id].email))
      && (forall i, j :: i in users && j in users && i != j ==> users[i].email != users[j].email)
    }

    constructor ()
      ensures Valid() && users == map[] && nextId == 0
    {
      users := map[];
      nextId := 0;
    }

    /** `User.findOne({ email })`; the filter value goes through the email setters. */
    method FindByEmail(email: string) returns (found: Option<UserId>)
      ensures found.Some? ==> found.value in users && users[found.value].email == NormalizeEmail(email)
      ensures found.None? ==> forall id :: id in users ==> users[id].email != NormalizeEmail(email)
    {
      var wanted := NormalizeEmail(email);
      var unseen := users.Keys;
      while unseen != {}
        invariant unseen <= users.Keys
        invariant forall id :: id in users && id !in unseen ==> users[id].email != wanted
        decreases unseen
      {
        var id :| id in unseen;
        if users[id].email == wanted {
          return Some(id);
        }
        unseen := unseen - {id};
      }
      return None;
    }

    /**
     * `User.create(draft)`: run the validators, then the pre-save hook (the
     * password is new, so it is hashed), and insert under a fresh id. A
     * validation failure, or an email the unique index already holds, throws
     * and leaves the collection as it was.
     */
    method Create(draft: User, salt: string, hash: (string, string) -> string) returns (created: Option<User>)
      requires Valid()
      requires NormalizeEmail(draft.email) == draft.email
      modifies this
      ensures Valid()
      ensures created.None? <==> !PassesValidators(draft) || EmailTaken(old(users), draft.email)
      ensures created.None? ==> users == old(users) && nextId == old(nextId)
      ensures created.Some? ==>
        && created.value == PreSaveEffect(draft.(id := old(nextId)), true, salt, hash)
        && users == old(users)[old(nextId) := created.value]
        && nextId == old(nextId) + 1
    {
      if !PassesValidators(draft) {
        return None;
      }
      var existing := FindByEmail(draft.email);
      if existing.Some? {
        return None;
      }
      NormalEmailIsFixed(draft.email);
      var doc := new UserDocument.Create(draft.(id := nextId));
      doc.PreSave(salt, hash);
      users := users[nextId := doc.record];
      nextId := nextId + 1;
      created := Some(doc.record);
    }

    /**
     * `doc.save()` for a document loaded from the collection: the pre-save
     * hook runs and the result replaces the stored record. The email must not
     * have been changed, so the unique index still holds.
     */
    method Save(doc: UserDocument, salt: string, hash: (string, string) -> string)
      requires Valid()
      requires doc.record.id in users && doc.record.email == users[doc.record.id].email
      requires ValidProgress(doc.record.progress)
      modifies this, doc
      ensures Valid()
      ensures doc.record == PreSaveEffect(old(doc.record), old(doc.passwordModified), salt, hash)
      ensures !doc.passwordModified
      ensures users == old(users)[old(doc.record).id := doc.record]
      ensures nextId == old(nextId)
    {
      doc.PreSave(salt, hash);
      users := users[doc.record.id := doc.record];
      doc.passwordModified := false;
    }
  }
}
