/**
 * The conversation record (`IConversation` and `ConversationSchema`) and the
 * conversations collection: one document per (user, topic, difficulty,
 * persona), whose log the conversation handler extends with `$push` and
 * `upsert`, and which the listing handler queries with a limit.
 */
module ConversationModel {
  import opened Wrappers
  import Text
  import UserModel

  /** The `role` enum of a log entry. */
  datatype Role = User | Assistant

  function RoleName(r: Role): string
  {
    match r
    case User => "user"
    case Assistant => "assistant"
  }

  /** Membership of `s` in `['user', 'assistant']`. */
  function RoleFromName(s: string): (r: Option<Role>)
    ensures r.Some? <==> s == "user" || s == "assistant"
    ensures r.Some? ==> RoleName(r.value) == s
  {
    if s == "user" then Some(User) else if s == "assistant" then Some(Assistant) else None
  }

  /** The `aiPersona` enum. */
  datatype Persona = Teacher | ConversationPartner | GrammarExpert | PronunciationCoach

  function PersonaName(p: Persona): string
  {
    match p
    case Teacher => "teacher"
    case ConversationPartner => "conversation_partner"
    case GrammarExpert => "grammar_expert"
    case PronunciationCoach => "pronunciation_coach"
  }

  /** Membership of `s` in `['teacher', 'conversation_partner', 'grammar_expert', 'pronunciation_coach']`. */
  function PersonaFromName(s: string): (p: Option<Persona>)
    ensures p.Some? <==> s == "teacher" || s == "conversation_partner" || s == "grammar_expert" || s == "pronunciation_coach"
    ensures p.Some? ==> PersonaName(p.value) == s
  {
    if s == "teacher" then Some(Teacher)
    else if s == "conversation_partner" then Some(ConversationPartner)
    else if s == "grammar_expert" then Some(GrammarExpert)
    else if s == "pronunciation_coach" then Some(PronunciationCoach)
    else None
  }

  /** Naming an enum value and reading the name back gives the value. */
  lemma NamesRoundTrip(r: Role, p: Persona)
    ensures RoleFromName(RoleName(r)) == Some(r)
    ensures PersonaFromName(PersonaName(p)) == Some(p)
  {
  }

  /** The optional `feedback` of a log entry. */
  datatype Feedback = Feedback(accuracy: int, issues: seq<string>, positives: seq<string>, tips: seq<string>)

  /** One entry of `conversationLog`. */
  datatype Turn = Turn(role: Role, content: string, timestamp: nat, feedback: Option<Feedback>)

  /** `accuracy` carries `min: 0, max: 100`. */
  predicate ValidFeedback(f: Feedback)
  {
    UserModel.InScoreRange(f.accuracy)
  }

  /** `content` is a required string, so not empty; feedback, when present, is in range. */
  predicate ValidTurn(t: Turn)
  {
    t.content != [] && (t.feedback.Some? ==> ValidFeedback(t.feedback.value))
  }

  /** The fields the handler's `findOneAndUpdate` filter names; they identify a conversation. */
  datatype Key = Key(userId: UserModel.UserId, topic: string, difficultyLevel: UserModel.Level, aiPersona: Persona)

  datatype Conversation = Conversation(
    userId: UserModel.UserId,
    aiPersona: Persona,
    topic: string,
    difficultyLevel: UserModel.Level,
    conversationLog: seq<Turn>,
    improvementAreas: seq<string>)

  /** The schema's requirements on a stored conversation: a topic, and valid entries. */
  predicate ValidConversation(c: Conversation)
  {
    c.topic != [] && forall i :: 0 <= i < |c.conversationLog| ==> ValidTurn(c.conversationLog[i])
  }

  function KeyOf(c: Conversation): Key
  {
    Key(c.userId, c.topic, c.difficultyLevel, c.aiPersona)
  }

  /**
   * The document stored under `key` with log `log`. Nothing the handlers do
   * writes `improvementAreas`, so it keeps the array default, empty.
   */
  function Document(key: Key, log: seq<Turn>): (c: Conversation)
    ensures KeyOf(c) == key && c.conversationLog == log && c.improvementAreas == []
  {
    Conversation(key.userId, key.aiPersona, key.topic, key.difficultyLevel, log, [])
  }

  /** The log stored under `key`, empty when there is no such document. */
  function LogOf(logs: map<Key, seq<Turn>>, key: Key): seq<Turn>
  {
    if key in logs then logs[key] else []
  }

  /**
   * The store after `findOneAndUpdate(key, { $push: turns }, { upsert: true })`:
   * the document for `key` (created if absent) ends with `turns` after its
   * earlier entries, and every other document is untouched.
   */
  function Upserted(logs: map<Key, seq<Turn>>, key: Key, turns: seq<Turn>): (r: map<Key, seq<Turn>>)
    ensures r.Keys == logs.Keys + {key}
    ensures |r[key]| == |LogOf(logs, key)| + |turns|
    ensures r[key][..|LogOf(logs, key)|] == LogOf(logs, key)
    ensures r[key][|LogOf(logs, key)|..] == turns
    ensures forall k :: k in logs && k != key ==> r[k] == logs[k]
  {
    var r := logs[key := LogOf(logs, key) + turns];
    assert r[key][..|LogOf(logs, key)|] == LogOf(logs, key);
    r
  }

  /**
   * The shape every log the handlers write has: entries come in pairs, each a
   * valid turn followed by an assistant turn.
   */
  ghost predicate PairedLog(log: seq<Turn>)
  {
    |log| % 2 == 0
    && forall i :: 0 <= i < |log| && i % 2 == 0 ==> ValidTurn(log[i]) && log[i + 1].role == Assistant
  }

  /** Every stored log is paired. */
  ghost predicate AllPaired(logs: map<Key, seq<Turn>>)
  {
    forall k :: k in logs ==> PairedLog(logs[k])
  }

  /** Appending a valid turn and an assistant turn to a paired log keeps it paired. */
  lemma PairedAppend(log: seq<Turn>, first: Turn, reply: Turn)
    requires PairedLog(log)
    requires ValidTurn(first) && reply.role == Assistant
    ensures PairedLog(log + [first, reply])
  {
    var r := log + [first, reply];
    forall i | 0 <= i < |r| && i % 2 == 0
      ensures ValidTurn(r[i]) && r[i + 1].role == Assistant
    {
      if i < |log| {
        assert i + 1 < |log|;
        assert r[i] == log[i] && r[i + 1] == log[i + 1];
      } else {
        assert i == |log|;
      }
    }
  }

  /** Appending a valid turn and an assistant turn to any conversation keeps every log paired. */
  lemma UpsertKeepsPaired(logs: map<Key, seq<Turn>>, key: Key, first: Turn, reply: Turn)
    requires AllPaired(logs)
    requires ValidTurn(first) && reply.role == Assistant
    ensures AllPaired(Upserted(logs, key, [first, reply]))
  {
    var log := LogOf(logs, key);
    var r := Upserted(logs, key, [first, reply]);
    assert r[key] == log + [first, reply];
    PairedAppend(log, first, reply);
    forall k | k in r
      ensures PairedLog(r[k])
    {
      if k != key {
        assert r[k] == logs[k];
      }
    }
  }

  /** Every entry of every stored log meets the schema's entry constraints. */
  ghost predicate AllValid(logs: map<Key, seq<Turn>>)
  {
    forall k, i :: k in logs && 0 <= i < |logs[k]| ==> ValidTurn(logs[k][i])
  }

  /** Pushing valid entries onto any conversation keeps every stored entry valid. */
  lemma UpsertKeepsValid(logs: map<Key, seq<Turn>>, key: Key, turns: seq<Turn>)
    requires AllValid(logs)
    requires forall i :: 0 <= i < |turns| ==> ValidTurn(turns[i])
    ensures AllValid(Upserted(logs, key, turns))
  {
  }

  /** A stored document whose topic is not empty and whose entries are valid satisfies the schema. */
  lemma StoredDocumentIsValid(logs: map<Key, seq<Turn>>, key: Key)
    requires AllValid(logs) && key in logs && key.topic != []
    ensures ValidConversation(Document(key, logs[key]))
  {
  }

  /** The filter the listing handler builds; absent fields do not constrain. */
  datatype Query = Query(
    userId: UserModel.UserId,
    topic: Option<string>,
    difficultyLevel: Option<string>,
    aiPersona: Option<string>)

  /**
   * A document matches when it belongs to the user and agrees with every
   * field present in the filter. The topic filter goes through the `trim`
   * setter; the enum filters are compared as strings, so a value outside the
   * enum matches nothing.
   */
  predicate Matches(q: Query, k: Key)
  {
    && k.userId == q.userId
    && (q.topic.Some? ==> k.topic == Text.Trim(q.topic.value))
    && (q.difficultyLevel.Some? ==> UserModel.LevelName(k.difficultyLevel) == q.difficultyLevel.value)
    && (q.aiPersona.Some? ==> PersonaName(k.aiPersona) == q.aiPersona.value)
  }

  /** The keys of the documents a query selects. */
  function Matching(logs: map<Key, seq<Turn>>, q: Query): (s: set<Key>)
    ensures s <= logs.Keys
    ensures forall k :: k in s ==> k.userId == q.userId
  {
    set k | k in logs && Matches(q, k)
  }

  /** A filter with no optional field selects every conversation of the user. */
  lemma UnfilteredSelectsAllOfUser(logs: map<Key, seq<Turn>>, userId: UserModel.UserId)
    ensures Matching(logs, Query(userId, None, None, None)) == set k | k in logs && k.userId == userId
  {
  }

  /** Adding fields to a filter can only narrow what it selects. */
  lemma MoreFieldsSelectFewer(logs: map<Key, seq<Turn>>, q: Query, narrower: Query)
    requires narrower.userId == q.userId
    requires q.topic.Some? ==> narrower.topic == q.topic
    requires q.difficultyLevel.Some? ==> narrower.difficultyLevel == q.difficultyLevel
    requires q.aiPersona.Some? ==> narrower.aiPersona == q.aiPersona
    ensures Matching(logs, narrower) <= Matching(logs, q)
  {
  }

  function Min(a: nat, b: nat): nat
  {
    if a <= b then a else b
  }

  /** The conversations collection. */
  class ConversationCollection {
    var logs: map<Key, seq<Turn>>

    constructor ()
      ensures logs == map[]
    {
      logs := map[];
    }

    /** `findOneAndUpdate(key, { $push: { conversationLog: turns } }, { upsert: true, new: true })`. */
    method FindOneAndPush(key: Key, turns: seq<Turn>) returns (doc: Conversation)
      modifies this
      ensures logs == Upserted(old(logs), key, turns)
      ensures doc == Document(key, logs[key])
    {
      logs := logs[key := LogOf(logs, key) + turns];
      doc := Document(key, logs[key]);
    }

    /**
     * `find(q).limit(limit)`: as many matching documents as the limit allows,
     * each once, taken from the store. The order `sort` imposes is not modelled.
     */
    method Find(q: Query, limit: nat) returns (docs: seq<Conversation>)
      ensures |docs| == Min(limit, |Matching(logs, q)|)
      ensures forall i :: 0 <= i < |docs| ==>
        KeyOf(docs[i]) in logs && Matches(q, KeyOf(docs[i])) && docs[i] == Document(KeyOf(docs[i]), logs[KeyOf(docs[i])])
      ensures forall i, j :: 0 <= i < j < |docs| ==> KeyOf(docs[i]) != KeyOf(docs[j])
    {
      docs := [];
      var unseen := logs.Keys;
      ghost var chosen: set<Key> := {};
      while unseen != {} && |docs| < limit
        invariant unseen <= logs.Keys
        invariant chosen == Matching(logs, q) - unseen
        invariant |docs| == |chosen| <= limit
        invariant forall i :: 0 <= i < |docs| ==>
          KeyOf(docs[i]) in chosen && docs[i] == Document(KeyOf(docs[i]), logs[KeyOf(docs[i])])
        invariant forall i, j :: 0 <= i < j < |docs| ==> KeyOf(docs[i]) != KeyOf(docs[j])
        decreases unseen
      {
        var k :| k in unseen;
        if Matches(q, k) {
          docs := docs + [Document(k, logs[k])];
          chosen := chosen + {k};
        }
        unseen := unseen - {k};
      }
      if unseen != {} {
        SubsetCardinality(chosen, Matching(logs, q));
      }
    }
  }

  lemma {:induction false} SubsetCardinality<T>(a: set<T>, b: set<T>)
    requires a <= b
    ensures |a| <= |b|
    decreases a
  {
    if a != {} {
      var x :| x in a;
      SubsetCardinality(a - {x}, b - {x});
    }
  }
}
