# Language-learning app: request gate, conversation log and accounts in Dafny

This project models the server-side core of a Next.js language-learning
application. The application lets a learner sign up and sign in, chat with an
AI tutor, and keep one conversation log per combination of topic, difficulty
level and tutor persona. The model covers:

- **the route gate** (`Middleware`). It runs before every matched request.
  Public pages and the `/api/auth/` endpoints pass. Other API calls need a
  bearer token that verifies. Other pages need a `token` cookie that verifies,
  and otherwise redirect to `/signin`.
- **the conversation endpoints** (`ConversationsRoute`):
  - token extraction, body validation and the 401/400/404/500 error mapping;
  - POST's upsert of two turns onto the log keyed by (user, topic, level, persona);
  - GET's optional-parameter filter and its limit of ten.
- **signup and signin** (`SignupRoute`, `SigninRoute`):
  - schema validation and the duplicate-address check;
  - creation with defaults, and the password-free reply;
  - the shared "Invalid credentials" reply;
  - the `lastActive` refresh, which saves without rehashing the password.
- **the record types** (`UserModel`, `ConversationModel`):
  - enumerations, score bounds and defaults;
  - the email setters (trim, lower-case) and the unique address;
  - the pre-save hook that hashes only a modified password;
  - the user and conversation collections, as classes whose methods update a `map`.
- **prompt and message assembly** (`OpenAIService`). This covers the three
  system-prompt templates and the message lists (system, then earlier
  messages, then the user's message). A null or empty model reply is an error.

Support modules: `Wrappers` (Option, Result), `Text` (the JavaScript `split`,
`join`, `trim` and lower-casing the code relies on, with their round trips),
`JsonSchema` (a JSON value and the zod checks the schemas use) and `Http`
(replies, bearer-token extraction, the catch-block mapping).

Library calls are parameters of the operations that use them:

- JWT verification and signing (`verify`, `sign`);
- bcrypt hashing and comparison (`hash`, `compare`, `salt`);
- zod's email check (`validEmail`);
- the OpenAI completion (`complete`);
- the clock (`now`).

A request body that is not JSON is `None`; `request.json()` throws there, and
the handlers answer 500.

The model follows the code. The handlers compute no feedback, update no
progress scores, keep no improvement areas and send no history. The POST
handler builds its prompt from the stored `user.languageLevel`, not from the
requested difficulty (`ConversationsRoute.PromptUsesStoredLevel`).

## Model

| member | source | states |
|---|---|---|
| Middleware.CookieToken | src/middleware.ts:52-53 | the cookie token is present exactly when a `token` cookie is set and not empty, and is then its value |
| Middleware.Decide | src/middleware.ts:15-69 | public paths (exact match) and `/api/auth/` paths pass regardless of tokens. Other `/api/` paths: no bearer token gives 401 "Authentication required"; a failing token gives 401 "Invalid token"; a verifying one passes. Other pages: no cookie redirects to `/signin` with `from` = pathname; a failing cookie redirects without `from` and clears the cookie; a verifying one passes |
| Middleware.NextOnlyWhenAllowed | src/middleware.ts:15-69 | the gate passes a request only if its path is public, is under `/api/auth/`, or carries a verifying token (header for API paths, cookie for pages) |
| Middleware.CredentialsAreSeparate | src/middleware.ts:31-61 | API paths never depend on the cookie; pages never depend on the Authorization header |
| Middleware.RedirectShapes | src/middleware.ts:52-68 | every redirect goes to `/signin` from a non-API path; it clears the cookie iff a cookie token was present, and carries `from` (the pathname) iff none was |
| Text.Split | src/app/api/conversations/route.ts:35 | `split(' ')` yields at least one field and no field contains the separator |
| Text.JoinSplit | src/app/api/conversations/route.ts:35 | joining the fields of a split with the separator gives back the string |
| Text.SplitJoin | src/app/api/conversations/route.ts:35 | splitting a join of separator-free fields gives back the fields |
| Text.SplitWithoutSeparator | src/app/api/conversations/route.ts:35 | a string without the separator splits into itself alone |
| Text.SplitAtFirst | src/app/api/conversations/route.ts:35 | splitting `a + sep + b` with separator-free `a` gives `a` followed by the fields of `b` |
| Text.JoinContainsPart | src/services/openai.ts:34-49 | in `join`, part k sits at its computed offset |
| Text.TrimStart | src/models/User.ts:31 | the result is a suffix of the input that starts with no ECMAScript white space or line terminator (U+FEFF and the Unicode space separators included) |
| Text.TrimStartRemovesOnlyWhitespace | src/models/User.ts:31 | every character `trimStart` drops is white space or a line terminator, so together with TrimStart the result is the input minus exactly its leading whitespace |
| Text.TrimEnd | src/models/User.ts:31 | the result is a prefix of the input that ends with no ECMAScript white space or line terminator |
| Text.TrimEndRemovesOnlyWhitespace | src/models/User.ts:31 | every character `trimEnd` drops is white space or a line terminator, so together with TrimEnd the result is the input minus exactly its trailing whitespace |
| Text.TrimmedIsFixed | src/models/User.ts:31 | a string that neither starts nor ends with whitespace is its own trim |
| Text.TrimIsIdempotent | src/models/User.ts:31 | trimming twice is trimming once |
| Text.Lower | src/models/User.ts:32 | lower-casing acts character by character and keeps the length |
| Text.JsLength | src/app/api/conversations/route.ts:15 | a string's JavaScript `length` counts UTF-16 code units: between one and two per character, and zero only for the empty string |
| Text.JsLengthWithinBmp | src/app/api/conversations/route.ts:15 | for characters up to U+FFFF the JavaScript length is the number of characters |
| Text.JsLengthOfChar | src/app/api/conversations/route.ts:15 | one character is one UTF-16 code unit, or two above U+FFFF |
| Text.JsLengthAppend | src/app/api/conversations/route.ts:15 | the length of a concatenation is the sum of the lengths, so with JsLengthOfChar the length of any string is its count of code units |
| JsonSchema.Member | src/app/api/conversations/route.ts:19-24 | a field is read only from an object, and is the object's value under that key |
| JsonSchema.ZString | src/app/api/conversations/route.ts:15 | `z.string().min(n)` accepts exactly the JSON strings whose length in UTF-16 code units is at least n, as themselves |
| JsonSchema.ZOptionalStrings | src/app/api/auth/signup/route.ts:15-16 | `z.array(z.string()).optional()` accepts an absent field as undefined and an array of strings as itself, and rejects everything else (null included) |
| JsonSchema.Strings | src/app/api/auth/signup/route.ts:15-16 | the JSON array of strings holds the strings in order |
| JsonSchema.ZOptionalStringsOfStrings | src/app/api/auth/signup/route.ts:15-16 | an array of strings round-trips through the optional-array check |
| Http.BearerToken | src/app/api/conversations/route.ts:35-36 | no header gives no token; a token is the second space-separated field, never empty and never containing a space |
| Http.NoSpaceNoToken | src/app/api/conversations/route.ts:35-41 | a header with no space yields no token (so 401) |
| Http.TokenFollowsFirstSpace | src/app/api/conversations/route.ts:35 | the token is whatever follows the first space, up to the next one, when not empty |
| Http.SchemeIsNotChecked | src/app/api/conversations/route.ts:35 | the word before the first space is never checked: any two schemes give the same token |
| Http.WellFormedHeader | src/app/api/conversations/route.ts:35 | `scheme token` followed by nothing or by a space yields exactly `token` |
| Http.Caught | src/app/api/conversations/route.ts:121-133 | the reply is 400 iff the error is a validation error, with body "Invalid input data"; any other error becomes 500 with body "Internal server error" |
| UserModel.LevelFromName | src/models/User.ts:52-56 | a level name is accepted iff it is beginner, intermediate or advanced, and names that level |
| UserModel.LevelNameRoundTrip | src/models/User.ts:52-56 | every level's name parses back to the level |
| UserModel.ZLevel | src/app/api/conversations/route.ts:21 | `z.enum([...levels])` accepts exactly a JSON string naming a level, and the accepted level is spelled by that string |
| UserModel.DefaultProgress | src/models/User.ts:65-93 | a new user's four scores are 0 and within [0,100], and `lastActive` is now |
| UserModel.NormalizedEmailShape | src/models/User.ts:27-33 | the stored form of an address is no longer than it, has no surrounding whitespace and no capital A-Z |
| UserModel.NormalEmailIsFixed | src/models/User.ts:27-33 | the setters leave an address unchanged iff it has no surrounding whitespace and no capital A-Z |
| UserModel.NormalizeEmailIsIdempotent | src/models/User.ts:27-33 | the trim and lower-case setters applied to a stored address change nothing |
| UserModel.TrimAll | src/models/User.ts:57-64 | each interest or goal is trimmed, in place and order |
| UserModel.NewUser | src/models/User.ts:25-95 | a created record has a normalised address, a trimmed name, trimmed interests and goals, the given or default (beginner) level and default progress |
| UserModel.PassesValidatorsOnNewUser | src/models/User.ts:25-95 | a created record passes the validators iff its normalised address is not empty, the password has at least 6 UTF-16 units, the name does not trim to nothing and both languages are given |
| UserModel.WithoutPassword | src/app/api/auth/signup/route.ts:50 | the public record keeps every field of the user except the password |
| UserModel.WithPassword | src/app/api/auth/signup/route.ts:50 | dropping the password from a record with a password put back gives the public record |
| UserModel.PasswordIsAllThatIsDropped | src/app/api/auth/signup/route.ts:50 | the public record plus the stored password is the whole record |
| UserModel.PreSaveEffect | src/models/User.ts:102-112 | the hook changes only the password, to hash(password, salt), and only when the password was modified |
| UserModel.ComparePassword | src/models/User.ts:115-117 | `comparePassword` holds iff the compare oracle accepts the candidate against the stored hash |
| UserModel.SavedPasswordVerifies | src/models/User.ts:102-117 | `comparePassword` with the original password succeeds on the hashed record when the compare oracle accepts the hash |
| UserModel.UserDocument.Create | src/models/User.ts:102-103 | a new document counts its password as modified |
| UserModel.UserDocument.Loaded | src/models/User.ts:102-103 | a loaded document counts nothing as modified |
| UserModel.UserDocument.TouchLastActive | src/app/api/auth/signin/route.ts:45 | only `progress.lastActive` changes, to now |
| UserModel.UserDocument.PreSave | src/models/User.ts:102-112 | the record becomes the hook's effect on the old record |
| UserModel.UserCollection.constructor | src/models/User.ts:119 | the collection starts empty and valid (every stored address in normal form, unique) |
| UserModel.UserCollection.FindByEmail | src/app/api/auth/signup/route.ts:27 | `findOne({ email })` finds a user whose stored address equals the normalised query, and finds none only when no user has it |
| UserModel.UserCollection.Create | src/app/api/auth/signup/route.ts:36-40 | creation fails, changing nothing, iff a validator rejects the record or its address is taken; otherwise the hooked record is stored under a fresh id |
| UserModel.UserCollection.Save | src/app/api/auth/signin/route.ts:46 | saving a loaded document stores the hook's effect under its id and nothing else, keeping the collection valid |
| ConversationModel.RoleFromName | src/models/Conversation.ts:47-51 | a role name is accepted iff it is user or assistant |
| ConversationModel.PersonaFromName | src/models/Conversation.ts:31-35 | a persona name is accepted iff it is one of the four personas |
| ConversationModel.NamesRoundTrip | src/models/Conversation.ts:31-51 | every role and persona name parses back to itself |
| ConversationModel.Document | src/models/Conversation.ts:71-74 | a document has its key's fields, the given log and no improvement areas |
| ConversationModel.Upserted | src/app/api/conversations/route.ts:88-115 | the log under the key is its earlier entries (none if absent) followed by the pushed turns; the key is created if absent; every other log is unchanged |
| ConversationModel.PairedAppend | src/app/api/conversations/route.ts:96-108 | a paired log followed by a valid turn and an assistant turn is still paired |
| ConversationModel.UpsertKeepsPaired | src/app/api/conversations/route.ts:96-108 | pushing a valid turn and an assistant turn keeps every log an alternation of valid turns and assistant replies |
| ConversationModel.UpsertKeepsValid | src/models/Conversation.ts:46-69 | pushing valid entries keeps every stored entry valid (role, required content, accuracy in [0,100]) |
| ConversationModel.StoredDocumentIsValid | src/models/Conversation.ts:26-69 | a stored document with a topic and valid entries satisfies the schema |
| ConversationModel.Matching | src/app/api/conversations/route.ts:157-163 | a filter selects only stored conversations, and only the filtering user's |
| ConversationModel.UnfilteredSelectsAllOfUser | src/app/api/conversations/route.ts:157-163 | with no optional parameter the filter selects every conversation of the user |
| ConversationModel.MoreFieldsSelectFewer | src/app/api/conversations/route.ts:157-163 | adding fields to the filter can only narrow the selection |
| ConversationModel.ConversationCollection.constructor | src/models/Conversation.ts:84 | the collection starts empty |
| ConversationModel.ConversationCollection.FindOneAndPush | src/app/api/conversations/route.ts:88-115 | the store becomes the upsert of the turns, and the returned document is the new one |
| ConversationModel.ConversationCollection.Find | src/app/api/conversations/route.ts:163-165 | returns min(limit, number of matches) distinct stored documents, all matching the filter |
| ConversationsRoute.ZRole | src/app/api/conversations/route.ts:16 | `z.enum(['user', 'assistant'])` accepts exactly a JSON string naming a role, and the accepted role is spelled by that string |
| ConversationsRoute.ZPersona | src/app/api/conversations/route.ts:22 | `z.enum([...personas])` accepts exactly a JSON string naming a persona, and the accepted persona is spelled by that string |
| ConversationsRoute.ParseMessage | src/app/api/conversations/route.ts:14-17 | an accepted message has non-empty content and a role from the enum, as the body spells them |
| ConversationsRoute.ParseConversationRequest | src/app/api/conversations/route.ts:19-24 | an accepted body is an object with a non-empty topic, a level and persona from their enums, and a valid message, as spelled |
| ConversationsRoute.ValidRequestsAreAccepted | src/app/api/conversations/route.ts:19-24 | every request with non-empty topic and content is accepted from its JSON, as itself |
| ConversationsRoute.RouteMessages | src/app/api/conversations/route.ts:58-80 | the model gets exactly the system prompt and then the request's message with its role |
| ConversationsRoute.RoutePrompt | src/app/api/conversations/route.ts:59-72 | the prompt opens with the persona, the level stored in the profile and the target language |
| ConversationsRoute.PromptUsesStoredLevel | src/app/api/conversations/route.ts:59 | the messages never depend on the requested difficulty |
| ConversationsRoute.RequestKey | src/app/api/conversations/route.ts:88-94 | the key POST writes to is selected by a GET filter with the same topic, level and persona |
| ConversationsRoute.BlankTopicIsStoredEmpty | src/app/api/conversations/route.ts:20 | a topic of whitespace only passes `min(1)` and is stored as the empty string |
| ConversationsRoute.NewTurns | src/app/api/conversations/route.ts:96-108 | two turns: the request's message, then an assistant turn holding the reply |
| ConversationsRoute.Post | src/app/api/conversations/route.ts:32-135 | 401 iff no bearer token; a failing token or non-JSON body is 500; a rejected body is 400; an unknown user is 404; a failed model call is 500. None of these changes the store. Otherwise the keyed log gains exactly the two turns, and every log stays paired |
| ConversationsRoute.Present | src/app/api/conversations/route.ts:158-160 | a query parameter counts only when present and not empty |
| ConversationsRoute.BuildQuery | src/app/api/conversations/route.ts:157-160 | the filter always holds the user id, and holds each optional field exactly when its parameter is present and not empty |
| ConversationsRoute.Get | src/app/api/conversations/route.ts:137-175 | 401 iff no bearer token; 500 for a failing token; otherwise at most 10 distinct stored conversations, all matching the built filter, as many as match up to 10 |
| SignupRoute.ParseSignup | src/app/api/auth/signup/route.ts:8-17 | an accepted body has an admitted address, a password of at least 6 UTF-16 code units, a name of at least 2, a level from the enum and optional string arrays, as spelled |
| SignupRoute.SignupJsonMembers | src/app/api/auth/signup/route.ts:8-17 | the JSON spelling of a request holds each field under its schema key, and omits absent optional arrays |
| SignupRoute.ValidSignupsAreAccepted | src/app/api/auth/signup/route.ts:8-17 | every request within those bounds is accepted from its JSON, as itself |
| SignupRoute.Draft | src/app/api/auth/signup/route.ts:36-40 | the created record has the normalised address and requested level; omitted interests and goals become empty |
| SignupRoute.CreateAccount | src/app/api/auth/signup/route.ts:36-58 | for an unregistered address, a validator failure is 500 and changes nothing; otherwise exactly one user is added under a fresh id with its password hashed, and the reply is 201 with the password-free user and its signed token |
| SignupRoute.Register | src/app/api/auth/signup/route.ts:26-58 | a taken address is 400 "User already exists" and a validator failure is 500, both changing nothing. Otherwise exactly one user is added under a fresh id, with the password hashed, and the reply is 201 with the password-free user and its signed token |
| SignupRoute.Signup | src/app/api/auth/signup/route.ts:19-73 | a non-JSON body is 500 and a rejected body 400, both before any lookup and changing nothing; the rest is as Register |
| SigninRoute.ParseSignin | src/app/api/auth/signin/route.ts:7-10 | an accepted body has an admitted address and a password of at least 6 UTF-16 code units, as spelled |
| SigninRoute.ValidSigninsAreAccepted | src/app/api/auth/signin/route.ts:7-10 | every such address and password is accepted, as itself |
| SigninRoute.Touched | src/app/api/auth/signin/route.ts:45 | the touched user differs from the stored one only in `lastActive`, which is now |
| SigninRoute.Signin | src/app/api/auth/signin/route.ts:12-69 | a non-JSON body is 500 and a rejected body 400. An unknown address and a wrong password both give the same 401 "Invalid credentials". No failure changes any user. On success only that user's `lastActive` changes (no rehash), and the reply is 200 with the password-free user and a signed token |
| SigninRoute.SigninStoredUser | src/app/api/auth/signin/route.ts:12-69 | a signin with a stored user's address and a password the compare oracle accepts against its hash answers 200 with that user, touched, and a token signed for its id |
| SigninRoute.SignupThenSignin | src/app/api/auth/signin/route.ts:12-69 | after a signup answering 201, a signin with the same address and password answers 200 for the created user with the same token, given that the compare oracle accepts its own hashes |
| OpenAIService.ConversationMessages | src/services/openai.ts:72-77 | the system prompt, then the earlier messages in order (none when omitted), then the user's message; no message after the first has the system role |
| OpenAIService.ConversationPrompt | src/services/openai.ts:34-68 | the prompt opens with the persona, the requested level and the target language |
| OpenAIService.GenerateConversationResponse | src/services/openai.ts:21-93 | succeeds iff the reply to its own messages has non-empty content, which it returns; a thrown error is passed on; an empty or null reply fails with "No response from OpenAI" |
| OpenAIService.AnalyzePronunciation | src/services/openai.ts:95-132 | the same, for the pronunciation messages |
| OpenAIService.GenerateGrammarExercise | src/services/openai.ts:134-185 | the same, for the grammar messages |
| OpenAIService.Interpret | src/services/openai.ts:83-92 | a reply succeeds iff its content is present and not empty; an empty or null one fails with "No response from OpenAI"; a thrown error is passed on unchanged |
| OpenAIService.PronunciationMessages | src/services/openai.ts:95-116 | two messages: the pronunciation prompt for the target language, then the text as the user's message |
| OpenAIService.GrammarMessages | src/services/openai.ts:139-169 | a single system message holding the grammar prompt |
| OpenAIService.ConversationPromptMentions | src/services/openai.ts:40 | guideline 1 names the topic |
| OpenAIService.ConversationPromptListsProfile | src/services/openai.ts:36-37 | the interests and the learning goals appear joined by ", " |

## Left out

- JWT signing, verification and the 7-day expiry are the `verify` and `sign` parameters. Expiry is part of what `verify` decides.
- bcrypt salt generation, hashing and comparison are the `salt`, `hash` and `compare` parameters.
- UserModel.UserDocument.PreSave, UserModel.ComparePassword and the signup and signin routes treat hashing and comparison as never failing. A bcrypt error passed to `next(error)` in the pre-save hook, or thrown by `compare`, would make signup or signin answer 500; the total `hash` and `compare` parameters cannot fail, so those 500 paths are not modelled.
- zod's email pattern is the `validEmail` parameter. The zod error details in the 400 body are not modelled.
- The OpenAI call, model choice, `temperature`, `max_tokens` and `response_format` are left out; the completion is the `complete` parameter.
- `JSON.parse` of the model's reply is left out. `OpenAIService.GenerateConversationResponse`, `AnalyzePronunciation` and `GenerateGrammarExercise` return the raw reply text, so a reply that is not JSON is not modelled as an error.
- Database connection (`connectDB`), the index on (userId, createdAt), `timestamps: true` and the `_id`/ObjectId format are left out. Ids are natural numbers.
- ConversationModel.ConversationCollection.Find: does not model the `sort({ 'conversationLog.timestamp': -1 })` order. Any min(10, matches) matching documents may be returned, because Mongo's ordering on array fields is database behaviour.
- ConversationsRoute.NewTurns: a null model reply is pushed as empty content. Mongoose does not run validators on `findOneAndUpdate` by default, so such a turn is stored although it breaks the schema's `required`. For that reason `UpsertKeepsValid` is stated apart from `Post`.
- A topic of spaces only passes `min(1)`, is trimmed by the setter and is stored with an empty topic, although the schema marks it `required` (`ConversationsRoute.BlankTopicIsStoredEmpty`). Validators do not run on `findOneAndUpdate`, so the model stores it as the code does.
- Mongoose casting of the array-valued `$push` is not modelled. The model pushes the two turns in order, as the code intends.
- The trim and lower-case setters are applied to stored values and to query filters, as Mongoose does. Whitespace is ECMAScript's: its white space and line terminators, U+FEFF and the Unicode space separators. Lower-casing covers only `A`-`Z`; full Unicode case mapping is not modelled.
- UserModel.UserCollection.Save: does not re-run validators on an existing document. The only caller changes `lastActive` alone, which no validator constrains.
- `createdAt`/`updatedAt`, feedback derivation, progress-score updates, improvement areas and conversation history are not modelled. The shown handlers do none of these.
- Concurrent requests are not modelled. Each request is one sequential step; the code takes no locks.
- The middleware `matcher` pattern is not modelled. Every path given to `Middleware.Decide` is taken as matched.
- The user interface (pages, the conversation component, layout) and `next.config.js` are not part of this model.
