/**
 * The conversation endpoints: POST validates the request, asks the model for
 * a reply and appends the learner's turn and the reply to the conversation
 * for (user, topic, difficulty, persona); GET lists up to ten of the user's
 * conversations, filtered by the query parameters that are present.
 */
module ConversationsRoute {
  import opened Wrappers
  import Text
  import opened JsonSchema
  import Http
  import UserModel
  import CM = ConversationModel
  import OpenAIService

  const UserNotFound := "User not found"

  /** The `message` of a request (`messageSchema`). */
  datatype MessageInput = MessageInput(content: string, role: CM.Role)

  /** A request body that `conversationSchema` accepted. */
  datatype ConversationRequest = ConversationRequest(
    topic: string,
    difficultyLevel: UserModel.Level,
    aiPersona: CM.Persona,
    message: MessageInput)

  /** `z.enum(['user', 'assistant'])`. */
  function ZRole(v: Option<Json>): (r: Option<CM.Role>)
    ensures r.Some? <==> v.Some? && v.value.JString? && CM.RoleFromName(v.value.s).Some?
    ensures r.Some? ==> v == Some(JString(CM.RoleName(r.value)))
  {
    match ZString(v, 0)
    case Some(s) => CM.RoleFromName(s)
    case None => None
  }

  /** `z.enum(['teacher', 'conversation_partner', 'grammar_expert', 'pronunciation_coach'])`. */
  function ZPersona(v: Option<Json>): (p: Option<CM.Persona>)
    ensures p.Some? <==> v.Some? && v.value.JString? && CM.PersonaFromName(v.value.s).Some?
    ensures p.Some? ==> v == Some(JString(CM.PersonaName(p.value)))
  {
    match ZString(v, 0)
    case Some(s) => CM.PersonaFromName(s)
    case None => None
  }

  /** `messageSchema.parse(v)`: non-empty content, a role from the enum. */
  function ParseMessage(v: Option<Json>): (r: Option<MessageInput>)
    ensures r.Some? ==> v.Some? && v.value.JObject?
    ensures r.Some? ==> r.value.content != []
    ensures r.Some? ==> Member(v.value, "content") == Some(JString(r.value.content))
    ensures r.Some? ==> Member(v.value, "role") == Some(JString(CM.RoleName(r.value.role)))
  {
    if v.None? || !v.value.JObject? then None
    else
      var content := ZString(Member(v.value, "content"), 1);
      var role := ZRole(Member(v.value, "role"));
      if content.Some? && role.Some? then Some(MessageInput(content.value, role.value)) else None
  }

  /**
   * `conversationSchema.parse(body)`: whatever it accepts has a non-empty
   * topic and message content and names values of the three enums, exactly
   * as the body spells them.
   */
  function ParseConversationRequest(body: Json): (r: Option<ConversationRequest>)
    ensures r.Some? ==> body.JObject? && r.value.topic != [] && r.value.message.content != []
    ensures r.Some? ==> Member(body, "topic") == Some(JString(r.value.topic))
    ensures r.Some? ==> Member(body, "difficultyLevel") == Some(JString(UserModel.LevelName(r.value.difficultyLevel)))
    ensures r.Some? ==> Member(body, "aiPersona") == Some(JString(CM.PersonaName(r.value.aiPersona)))
    ensures r.Some? ==> ParseMessage(Member(body, "message")) == Some(r.value.message)
  {
    if !body.JObject? then None
    else
      var topic := ZString(Member(body, "topic"), 1);
      var level := UserModel.ZLevel(Member(body, "difficultyLevel"));
      var persona := ZPersona(Member(body, "aiPersona"));
      var message := ParseMessage(Member(body, "message"));
      if topic.Some? && level.Some? && persona.Some? && message.Some? then
        Some(ConversationRequest(topic.value, level.value, persona.value, message.value))
      else None
  }

  /** The JSON body a client sends for a request. */
  function RequestJson(req: ConversationRequest): Json
  {
    JObject(map[
      "topic" := JString(req.topic),
      "difficultyLevel" := JString(UserModel.LevelName(req.difficultyLevel)),
      "aiPersona" := JString(CM.PersonaName(req.aiPersona)),
      "message" := JObject(map[
        "content" := JString(req.message.content),
        "role" := JString(CM.RoleName(req.message.role))])])
  }

  /**
   * Every request with a non-empty topic and content is accepted from the
   * JSON a client sends for it, as itself. The converse is the contract of
   * ParseConversationRequest: an accepted body spells its request in these
   * fields.
   */
  lemma ValidRequestsAreAccepted(req: ConversationRequest)
    requires req.topic != [] && req.message.content != []
    ensures ParseConversationRequest(RequestJson(req)) == Some(req)
  {
    var body := RequestJson(req);
    UserModel.LevelNameRoundTrip(req.difficultyLevel);
    CM.NamesRoundTrip(req.message.role, req.aiPersona);
    assert ZString(Member(body, "topic"), 1) == Some(req.topic);
    assert UserModel.ZLevel(Member(body, "difficultyLevel")) == Some(req.difficultyLevel);
    assert ZPersona(Member(body, "aiPersona")) == Some(req.aiPersona);
    var message := body.fields["message"];
    assert ZString(Member(message, "content"), 1) == Some(req.message.content);
    assert ZRole(Member(message, "role")) == Some(req.message.role);
    assert ParseMessage(Member(body, "message")) == Some(req.message);
  }

  /** The lines of the system prompt POST builds itself, from the stored profile. */
  function RoutePromptLines(persona: CM.Persona, user: UserModel.User): seq<string>
  {
    [OpenAIService.TutorLine(persona, user.languageLevel, user.targetLanguage)]
    + OpenAIService.ProfileLines(user)
    + [ "",
        "Guidelines:",
        "1. Keep conversations related to their interests",
        "2. Adapt vocabulary and grammar to their level",
        "3. Correct mistakes kindly and explain why",
        "4. Ask follow-up questions to keep the conversation going",
        "5. Introduce 2-3 new words naturally per conversation",
        OpenAIService.CorrectionGuideline,
        "",
        OpenAIService.LanguageLine(user) ]
  }

  /**
   * POST's own system prompt: its lines joined by newlines, opening with the
   * tutor line for the level stored in the profile.
   */
  function RoutePrompt(persona: CM.Persona, user: UserModel.User): (p: string)
    ensures var first := "You are a " + CM.PersonaName(persona) + " helping a "
                         + UserModel.LevelName(user.languageLevel) + " level student learn "
                         + user.targetLanguage + ".";
            |first| <= |p| && p[..|first|] == first
  {
    Text.JoinContainsPart(RoutePromptLines(persona, user), "\n", 0);
    Text.Join(RoutePromptLines(persona, user), "\n")
  }

  /**
   * The messages POST sends: its own system prompt and the request's message
   * with the role the request gave it. No earlier turns are sent.
   */
  function RouteMessages(req: ConversationRequest, user: UserModel.User): (m: seq<OpenAIService.ChatMessage>)
    ensures |m| == 2
    ensures m[0] == OpenAIService.ChatMessage(OpenAIService.System, RoutePrompt(req.aiPersona, user))
    ensures m[1] == OpenAIService.ChatMessage(OpenAIService.ChatRoleOf(req.message.role), req.message.content)
  {
    [ OpenAIService.ChatMessage(OpenAIService.System, RoutePrompt(req.aiPersona, user)),
      OpenAIService.ChatMessage(OpenAIService.ChatRoleOf(req.message.role), req.message.content) ]
  }

  /**
   * The prompt names the level stored in the profile (see RoutePrompt), not
   * the difficulty the request asked for: requests that differ only in
   * difficulty send the same messages.
   */
  lemma PromptUsesStoredLevel(req: ConversationRequest, user: UserModel.User, level: UserModel.Level)
    ensures RouteMessages(req, user) == RouteMessages(req.(difficultyLevel := level), user)
  {
  }

  /**
   * The document POST writes to: the topic goes through the schema's `trim`
   * setter. A listing filtered on the same user, topic, level and persona
   * selects it.
   */
  function RequestKey(userId: UserModel.UserId, req: ConversationRequest): (k: CM.Key)
    ensures CM.Matches(CM.Query(userId, Some(req.topic), Some(UserModel.LevelName(req.difficultyLevel)),
                                Some(CM.PersonaName(req.aiPersona))), k)
  {
    CM.Key(userId, Text.Trim(req.topic), req.difficultyLevel, req.aiPersona)
  }

  /**
   * `min(1)` counts the topic before the schema's setter trims it, so a topic
   * of spaces only is accepted and stored as the empty string.
   */
  lemma BlankTopicIsStoredEmpty(userId: UserModel.UserId, req: ConversationRequest)
    requires forall i :: 0 <= i < |req.topic| ==> Text.IsWhitespace(req.topic[i])
    ensures RequestKey(userId, req).topic == []
  {
  }

  /**
   * The two entries POST pushes: the request's message, then the model's
   * reply as an assistant turn, both stamped `now` and without feedback. A
   * null reply is pushed as empty content.
   */
  function NewTurns(req: ConversationRequest, reply: Option<string>, now: nat): (turns: seq<CM.Turn>)
    ensures |turns| == 2
    ensures turns[0] == CM.Turn(req.message.role, req.message.content, now, None)
    ensures req.message.content != [] ==> CM.ValidTurn(turns[0])
    ensures turns[1].role == CM.Assistant && turns[1].feedback.None?
    ensures reply.Some? ==> turns[1].content == reply.value
    ensures reply.Some? && reply.value != [] ==> CM.ValidTurn(turns[1])
  {
    [ CM.Turn(req.message.role, req.message.content, now, None),
      CM.Turn(CM.Assistant, reply.GetOr(""), now, None) ]
  }

  /** The body of a successful POST. */
  datatype Posted = Posted(conversation: CM.Conversation, aiResponse: Option<string>)

  /**
   * POST /api/conversations. In order: a missing token is 401; a token that
   * fails verification, or a body that is not JSON, is 500; a body the schema
   * rejects is 400; an unknown user is 404; a failed model call is 500. Only
   * when all of these pass does the store change: the conversation for the
   * request's key gains the two new turns after its earlier ones (and is
   * created when absent), and no other conversation changes.
   */
  method Post(
    store: CM.ConversationCollection,
    users: map<UserModel.UserId, UserModel.User>,
    authorization: Option<string>,
    verify: string -> Option<UserModel.UserId>,
    body: Option<Json>,
    complete: seq<OpenAIService.ChatMessage> -> OpenAIService.Completion,
    now: nat)
    returns (r: Http.Reply<Posted>)
    modifies store
    ensures r.status != 200 ==> store.logs == old(store.logs)
    ensures CM.AllPaired(old(store.logs)) ==> CM.AllPaired(store.logs)
    ensures r.status == 401 <==> Http.BearerToken(authorization).None?
    ensures Http.BearerToken(authorization).None? ==> r == Http.ErrorReply(401, Http.AuthenticationRequired)
    ensures
      var token := Http.BearerToken(authorization);
      token.Some? ==>
        var userId := verify(token.value);
        if userId.None? || body.None? then r == Http.Caught(Http.OtherError)
        else
          var req := ParseConversationRequest(body.value);
          if req.None? then r == Http.Caught(Http.ZodError)
          else if userId.value !in users then r == Http.ErrorReply(404, UserNotFound)
          else
            var reply := complete(RouteMessages(req.value, users[userId.value]));
            if reply.Threw? then r == Http.Caught(Http.OtherError)
            else
              var key := RequestKey(userId.value, req.value);
              && store.logs == CM.Upserted(old(store.logs), key, NewTurns(req.value, reply.content, now))
              && r == Http.Reply(200, Http.Data(Posted(CM.Document(key, store.logs[key]), reply.content)))
  {
    var token := Http.BearerToken(authorization);
    if token.None? {
      return Http.ErrorReply(401, Http.AuthenticationRequired);
    }
    var userId := verify(token.value);
    if userId.None? || body.None? {
      return Http.Caught(Http.OtherError);
    }
    var req := ParseConversationRequest(body.value);
    if req.None? {
      return Http.Caught(Http.ZodError);
    }
    if userId.value !in users {
      return Http.ErrorReply(404, UserNotFound);
    }
    var reply := complete(RouteMessages(req.value, users[userId.value]));
    if reply.Threw? {
      return Http.Caught(Http.OtherError);
    }
    var key := RequestKey(userId.value, req.value);
    ghost var turns := NewTurns(req.value, reply.content, now);
    if CM.AllPaired(store.logs) {
      CM.UpsertKeepsPaired(store.logs, key, turns[0], turns[1]);
      assert turns == [turns[0], turns[1]];
    }
    var conversation := store.FindOneAndPush(key, NewTurns(req.value, reply.content, now));
    r := Http.Reply(200, Http.Data(Posted(conversation, reply.content)));
  }

  /** JavaScript truthiness of a query parameter: present and not the empty string. */
  function Present(param: Option<string>): (r: Option<string>)
    ensures r.Some? <==> param.Some? && param.value != ""
    ensures r.Some? ==> r == param
  {
    if param.Some? && param.value != "" then param else None
  }

  /**
   * The filter GET builds: always the user, and each of topic, difficulty and
   * persona only when its parameter is present and non-empty.
   */
  method BuildQuery(userId: UserModel.UserId, topic: Option<string>, difficultyLevel: Option<string>, aiPersona: Option<string>)
    returns (q: CM.Query)
    ensures q == CM.Query(userId, Present(topic), Present(difficultyLevel), Present(aiPersona))
    ensures forall k :: CM.Matches(q, k) <==>
      && k.userId == userId
      && (topic.Some? && topic.value != "" ==> k.topic == Text.Trim(topic.value))
      && (difficultyLevel.Some? && difficultyLevel.value != "" ==> UserModel.LevelName(k.difficultyLevel) == difficultyLevel.value)
      && (aiPersona.Some? && aiPersona.value != "" ==> CM.PersonaName(k.aiPersona) == aiPersona.value)
  {
    q := CM.Query(userId, None, None, None);
    if topic.Some? && topic.value != "" {
      q := q.(topic := topic);
    }
    if difficultyLevel.Some? && difficultyLevel.value != "" {
      q := q.(difficultyLevel := difficultyLevel);
    }
    if aiPersona.Some? && aiPersona.value != "" {
      q := q.(aiPersona := aiPersona);
    }
  }

  /** The number of conversations GET returns at most. */
  const ListLimit: nat := 10

  /**
   * GET /api/conversations. A missing token is 401; a token that fails
   * verification is 500; otherwise 200 with at most ten of the user's
   * conversations, each matching the filter, none twice, and fewer than ten
   * only when fewer match.
   */
  method Get(
    store: CM.ConversationCollection,
    authorization: Option<string>,
    verify: string -> Option<UserModel.UserId>,
    topic: Option<string>,
    difficultyLevel: Option<string>,
    aiPersona: Option<string>)
    returns (r: Http.Reply<seq<CM.Conversation>>)
    ensures Http.BearerToken(authorization).None? ==> r == Http.ErrorReply(401, Http.AuthenticationRequired)
    ensures Http.BearerToken(authorization).Some? && verify(Http.BearerToken(authorization).value).None? ==>
      r == Http.ErrorReply(500, Http.InternalServerError)
    ensures
      var token := Http.BearerToken(authorization);
      token.Some? && verify(token.value).Some? ==>
        var q := CM.Query(verify(token.value).value, Present(topic), Present(difficultyLevel), Present(aiPersona));
        && r.status == 200 && r.body.Data?
        && |r.body.value| <= ListLimit
        && |r.body.value| == CM.Min(ListLimit, |CM.Matching(store.logs, q)|)
        && (forall i :: 0 <= i < |r.body.value| ==>
              var k := CM.KeyOf(r.body.value[i]);
              k in store.logs && CM.Matches(q, k) && k.userId == q.userId
              && r.body.value[i] == CM.Document(k, store.logs[k]))
        && (forall i, j :: 0 <= i < j < |r.body.value| ==> CM.KeyOf(r.body.value[i]) != CM.KeyOf(r.body.value[j]))
  {
    var token := Http.BearerToken(authorization);
    if token.None? {
      return Http.ErrorReply(401, Http.AuthenticationRequired);
    }
    var userId := verify(token.value);
    if userId.None? {
      return Http.ErrorReply(500, Http.InternalServerError);
    }
    var q := BuildQuery(userId.value, topic, difficultyLevel, aiPersona);
    var conversations := store.Find(q, ListLimit);
    r := Http.Reply(200, Http.Data(conversations));
  }
}
