/**
 * The tutor service: the system prompts of its three functions, the message
 * lists it sends, and the rule that a missing or empty reply is an error.
 * The chat completion itself is an oracle; so is nothing else.
 */
module OpenAIService {
  import opened Wrappers
  import Text
  import UserModel
  import ConversationModel

  datatype ChatRole = System | User | Assistant

  datatype ChatMessage = ChatMessage(role: ChatRole, content: string)

  /** An earlier turn of the conversation: `previousMessages` holds only user and assistant messages. */
  type HistoryMessage = m: ChatMessage | m.role != System witness ChatMessage(User, "")

  /**
   * What `openai.chat.completions.create` gives back: a thrown error, or
   * `choices[0].message.content`, which may be null.
   */
  datatype Completion = Threw(error: string) | Content(content: Option<string>)

  const NoResponse := "No response from OpenAI"

  /** The chat role of a stored log role. */
  function ChatRoleOf(r: ConversationModel.Role): ChatRole
  {
    match r
    case User => User
    case Assistant => Assistant
  }

  /** The three lines every prompt built from a learner profile carries after its first line. */
  function ProfileLines(user: UserModel.User): seq<string>
  {
    [ "Their native language is " + user.nativeLanguage + ".",
      "Their interests include: " + Text.Join(user.interests, ", ") + ".",
      "Their learning goals are: " + Text.Join(user.learningGoals, ", ") + "." ]
  }

  /** The first line of the tutor prompts: who the tutor is and whom it teaches. */
  function TutorLine(persona: ConversationModel.Persona, level: UserModel.Level, targetLanguage: string): string
  {
    "You are a " + ConversationModel.PersonaName(persona) + " helping a " + UserModel.LevelName(level)
      + " level student learn " + targetLanguage + "."
  }

  /** The closing instruction of the tutor prompts. */
  function LanguageLine(user: UserModel.User): string
  {
    "Always respond in " + user.targetLanguage + ", but explain difficult concepts in "
      + user.nativeLanguage + " if needed."
  }

  /** The correction template of the tutor prompts' guideline 6. */
  const CorrectionGuideline: string :=
    "6. When they make a mistake, correct them like this: "
    + "\"Good try! Instead of '[wrong]' you can say '[correct]'. It means [explanation].\""

  /** The output-format directive closing the conversation prompt. */
  const ConversationFormat: string :=
    "Format your response as JSON with the following structure:" + "\n"
    + "{" + "\n"
    + "  \"response\": \"Your main response in the target language\"," + "\n"
    + "  \"correction\": {" + "\n"
    + "    \"hasError\": boolean," + "\n"
    + "    \"original\": \"The incorrect part (if any)\"," + "\n"
    + "    \"corrected\": \"The correct version (if any)\"," + "\n"
    + "    \"explanation\": \"Explanation of the correction (if any)\"" + "\n"
    + "  }," + "\n"
    + "  \"newWords\": [" + "\n"
    + "    {" + "\n"
    + "      \"word\": \"New word introduced\"," + "\n"
    + "      \"translation\": \"Translation in native language\"," + "\n"
    + "      \"example\": \"Example usage\"" + "\n"
    + "    }" + "\n"
    + "  ]," + "\n"
    + "  \"culturalNote\": \"Optional cultural context or note\"" + "\n"
    + "}"

  /** The output-format directive closing the pronunciation prompt. */
  const PronunciationFormat: string :=
    "Format your response as JSON with the following structure:" + "\n"
    + "{" + "\n"
    + "  \"score\": number (0-100)," + "\n"
    + "  \"feedback\": {" + "\n"
    + "    \"strengths\": [\"List of pronunciation strengths\"]," + "\n"
    + "    \"areasForImprovement\": [\"List of areas that need work\"]," + "\n"
    + "    \"specificFeedback\": [\"Detailed feedback on specific sounds or patterns\"]" + "\n"
    + "  }," + "\n"
    + "  \"suggestions\": [\"Practical suggestions for improvement\"]" + "\n"
    + "}"

  /** The output-format directive closing the grammar-exercise prompt. */
  const GrammarFormat: string :=
    "Format your response as JSON with the following structure:" + "\n"
    + "{" + "\n"
    + "  \"exercise\": {" + "\n"
    + "    \"type\": \"fill-in-blank\" | \"multiple-choice\" | \"sentence-correction\"," + "\n"
    + "    \"instructions\": \"Clear instructions in target language\"," + "\n"
    + "    \"questions\": [" + "\n"
    + "      {" + "\n"
    + "        \"question\": \"The question or sentence\"," + "\n"
    + "        \"options\": [\"Option 1\", \"Option 2\", ...] (for multiple choice)," + "\n"
    + "        \"correctAnswer\": \"The correct answer\"," + "\n"
    + "        \"explanation\": \"Explanation of the grammar rule\"" + "\n"
    + "      }" + "\n"
    + "    ]" + "\n"
    + "  }," + "\n"
    + "  \"grammarPoint\": {" + "\n"
    + "    \"name\": \"Name of the grammar point\"," + "\n"
    + "    \"explanation\": \"Detailed explanation in native language\"," + "\n"
    + "    \"examples\": [\"Example 1\", \"Example 2\", ...]" + "\n"
    + "  }" + "\n"
    + "}"

  /** What `generateConversationResponse` is given; `previousMessages` may be omitted. */
  datatype ConversationContext = ConversationContext(
    user: UserModel.User,
    topic: string,
    difficultyLevel: UserModel.Level,
    aiPersona: ConversationModel.Persona,
    previousMessages: Option<seq<HistoryMessage>>)

  /** The lines of the conversation system prompt. */
  function ConversationPromptLines(ctx: ConversationContext): seq<string>
  {
    [TutorLine(ctx.aiPersona, ctx.difficultyLevel, ctx.user.targetLanguage)]
    + ProfileLines(ctx.user)
    + [ "",
        "Guidelines:",
        "1. Keep conversations related to their interests and the topic: " + ctx.topic,
        "2. Adapt vocabulary and grammar to their " + UserModel.LevelName(ctx.difficultyLevel) + " level",
        "3. Correct mistakes kindly and explain why",
        "4. Ask follow-up questions to keep the conversation going",
        "5. Introduce 2-3 new words naturally per conversation",
        CorrectionGuideline,
        "7. Provide cultural context when relevant",
        "8. Encourage active participation and practice",
        "",
        LanguageLine(ctx.user),
        "",
      ConversationFormat ]
  }

  /** The conversation system prompt: its lines joined by newlines, opening with the tutor line. */
  function ConversationPrompt(ctx: ConversationContext): (p: string)
    ensures var first := TutorLine(ctx.aiPersona, ctx.difficultyLevel, ctx.user.targetLanguage);
            |first| <= |p| && p[..|first|] == first
  {
    Text.JoinContainsPart(ConversationPromptLines(ctx), "\n", 0);
    Text.Join(ConversationPromptLines(ctx), "\n")
  }

  /**
   * The conversation request: the system prompt, then the earlier messages in
   * their order (none when omitted), then the learner's message.
   */
  function ConversationMessages(prompt: string, previous: Option<seq<HistoryMessage>>, userMessage: string): (m: seq<ChatMessage>)
    ensures |m| == |previous.GetOr([])| + 2
    ensures forall i :: 1 <= i < |m| ==> m[i].role != System
    ensures m[0] == ChatMessage(System, prompt)
    ensures m[1..|m| - 1] == previous.GetOr([])
    ensures m[|m| - 1] == ChatMessage(User, userMessage)
  {
    [ChatMessage(System, prompt)] + previous.GetOr([]) + [ChatMessage(User, userMessage)]
  }

  /**
   * The reply check shared by the three functions: a thrown error is
   * rethrown unchanged, a null or empty content throws "No response from
   * OpenAI", and any other content is the result.
   */
  function Interpret(c: Completion): (r: Result<string, string>)
    ensures r.Success? <==> c.Content? && c.content.Some? && c.content.value != ""
    ensures r.Success? ==> c == Content(Some(r.value))
    ensures c.Threw? ==> r == Failure(c.error)
    ensures c.Content? && r.Failure? ==> r.error == NoResponse
  {
    match c
    case Threw(e) => Failure(e)
    case Content(None) => Failure(NoResponse)
    case Content(Some(s)) => if s == "" then Failure(NoResponse) else Success(s)
  }

  /** `generateConversationResponse(context, userMessage)`, up to parsing the reply as JSON. */
  function GenerateConversationResponse(
    ctx: ConversationContext, userMessage: string, complete: seq<ChatMessage> -> Completion): (r: Result<string, string>)
    ensures var c := complete(ConversationMessages(ConversationPrompt(ctx), ctx.previousMessages, userMessage));
      && (r.Success? <==> c.Content? && c.content.Some? && c.content.value != "")
      && (r.Success? ==> c == Content(Some(r.value)))
      && (c.Threw? ==> r == Failure(c.error))
      && (c.Content? && r.Failure? ==> r.error == NoResponse)
  {
    Interpret(complete(ConversationMessages(ConversationPrompt(ctx), ctx.previousMessages, userMessage)))
  }

  /** The lines of the pronunciation prompt. */
  function PronunciationPromptLines(targetLanguage: string): seq<string>
  {
    [ "You are a pronunciation expert. Analyze the following text as if "
      + "it was spoken by a language learner and provide detailed feedback.",
      "Target language: " + targetLanguage,
      "",
      PronunciationFormat ]
  }

  /** The pronunciation request: the system prompt and the transcribed text as the user's message. */
  function PronunciationMessages(audioText: string, targetLanguage: string): (m: seq<ChatMessage>)
    ensures |m| == 2 && m[0].role == System && m[1] == ChatMessage(User, audioText)
    ensures m[0].content == Text.Join(PronunciationPromptLines(targetLanguage), "\n")
  {
    [ ChatMessage(System, Text.Join(PronunciationPromptLines(targetLanguage), "\n")),
      ChatMessage(User, audioText) ]
  }

  /** `analyzePronunciation(audioText, targetLanguage)`, up to parsing the reply as JSON. */
  function AnalyzePronunciation(
    audioText: string, targetLanguage: string, complete: seq<ChatMessage> -> Completion): (r: Result<string, string>)
    ensures var c := complete(PronunciationMessages(audioText, targetLanguage));
      && (r.Success? <==> c.Content? && c.content.Some? && c.content.value != "")
      && (r.Success? ==> c == Content(Some(r.value)))
      && (c.Threw? ==> r == Failure(c.error))
      && (c.Content? && r.Failure? ==> r.error == NoResponse)
  {
    Interpret(complete(PronunciationMessages(audioText, targetLanguage)))
  }

  /** The lines of the grammar-exercise prompt. */
  function GrammarPromptLines(user: UserModel.User, topic: string, difficultyLevel: UserModel.Level): seq<string>
  {
    [ "Create a grammar exercise for a " + UserModel.LevelName(difficultyLevel) + " level student learning "
        + user.targetLanguage + ".",
      "Their native language is " + user.nativeLanguage + ".",
      "Topic: " + topic,
      "",
      GrammarFormat ]
  }

  /** The grammar-exercise request holds the system prompt alone. */
  function GrammarMessages(user: UserModel.User, topic: string, difficultyLevel: UserModel.Level): (m: seq<ChatMessage>)
    ensures |m| == 1 && m[0].role == System
    ensures m[0].content == Text.Join(GrammarPromptLines(user, topic, difficultyLevel), "\n")
  {
    [ChatMessage(System, Text.Join(GrammarPromptLines(user, topic, difficultyLevel), "\n"))]
  }

  /** `generateGrammarExercise(user, topic, difficultyLevel)`, up to parsing the reply as JSON. */
  function GenerateGrammarExercise(
    user: UserModel.User, topic: string, difficultyLevel: UserModel.Level,
    complete: seq<ChatMessage> -> Completion): (r: Result<string, string>)
    ensures var c := complete(GrammarMessages(user, topic, difficultyLevel));
      && (r.Success? <==> c.Content? && c.content.Some? && c.content.value != "")
      && (r.Success? ==> c == Content(Some(r.value)))
      && (c.Threw? ==> r == Failure(c.error))
      && (c.Content? && r.Failure? ==> r.error == NoResponse)
  {
    Interpret(complete(GrammarMessages(user, topic, difficultyLevel)))
  }

  /** Guideline 1 of the conversation prompt names the topic. */
  lemma ConversationPromptMentions(ctx: ConversationContext)
    ensures var p := ConversationPrompt(ctx);
            var guideline := "1. Keep conversations related to their interests and the topic: " + ctx.topic;
            var o := Text.PartOffset(ConversationPromptLines(ctx), "\n", 6);
            o + |guideline| <= |p| && p[o..o + |guideline|] == guideline
  {
    Text.JoinContainsPart(ConversationPromptLines(ctx), "\n", 6);
  }

  /** The conversation prompt lists the learner's interests and goals joined by ", ". */
  lemma ConversationPromptListsProfile(ctx: ConversationContext)
    ensures var p := ConversationPrompt(ctx);
            var interests := "Their interests include: " + Text.Join(ctx.user.interests, ", ") + ".";
            var oi := Text.PartOffset(ConversationPromptLines(ctx), "\n", 2);
            oi + |interests| <= |p| && p[oi..oi + |interests|] == interests
    ensures var p := ConversationPrompt(ctx);
            var goals := "Their learning goals are: " + Text.Join(ctx.user.learningGoals, ", ") + ".";
            var og := Text.PartOffset(ConversationPromptLines(ctx), "\n", 3);
            og + |goals| <= |p| && p[og..og + |goals|] == goals
  {
    Text.JoinContainsPart(ConversationPromptLines(ctx), "\n", 2);
    Text.JoinContainsPart(ConversationPromptLines(ctx), "\n", 3);
  }
}
