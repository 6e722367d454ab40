# Customer-support chat backend: conversation pipeline in Dafny

This project models the conversation pipeline of the chat backend and proves properties of it:

- **Turn handling and transcript read.** `POST /chat/message` validates the message, settles the session, then appends the user turn, reads the history window, obtains a reply and appends the `ai` turn inside one transaction. `GET /chat/:sessionId` returns a conversation's transcript.
- **Reply service.** It builds the grounded prompt, normalises the provider's answer and maps every failure to a fixed sentence.
- **Database schema and seeding.** The schema's constraints are carried as the store's invariant, and the knowledge base is seeded insert-if-absent.

Files:

- `wrappers.dfy` (module `Wrappers`): `Option` and `Result`.
- `js_text.dfy` (module `JsText`): the JavaScript string operations the code relies on.
  - `trim`, with the ECMAScript whitespace set.
  - `length`, counted in UTF-16 code units.
  - `join("\n")`, with `split("\n")` as its inverse.
- `llm.dfy` (module `Llm`): `backend/src/services/llm.ts`.
  - The knowledge query is an input: its rows or an error.
  - The provider is a function from the request to an outcome: a completion, or an error with `code` and `name`.
- `store.dfy` (module `Database`): `backend/src/db/initDB.ts`, modelled as the class `Store`.
  - Fields: the conversation set, the message table, the serial counter of `messages`, the knowledge rows, and the snapshot taken at `BEGIN`.
  - `Valid()` holds the constraints: serial keys in order, the foreign key, the sender check and unique titles.
  - Conversation keys are unique because they form a set.
- `controller.dfy` (module `Controller`): `backend/src/controllers/controller.ts`.
  - Request properties are JSON values, and JavaScript truthiness is written out.
  - A `Fault` input selects the statement that fails, if it is executed.
  - The generated UUID is an input `freshId` that is not yet a conversation.
  - `generateReply` reaches the handler as a function value (`ReplyService`) of the knowledge table, the history rows and the text. `ServerReplyService` is the server's instance: `Llm.GenerateReply` over the knowledge query and the provider.

`sendMessage` is split along its own structure:

- `ValidateMessage`: lines 38-50.
- `SettleSession`: lines 51-64. Its pure counterpart is `ResolveSession`.
- `TurnBody`: the statements between `BEGIN` and `COMMIT`.
- `RunTurn`: `BEGIN`, then `COMMIT` or `ROLLBACK`.
- `SettleAndRun`: everything after validation.
- `SendMessage`: the whole handler. `PathOf` says where a request ends, and `SettledPath` does so for a validated message.

Behaviours modelled as the code has them:

- The history query sorts ascending with a limit of ten, so the window is the *oldest* ten messages, not the ten most recent. `HistoryAfterAppend` proves that the window stops changing once a conversation holds ten messages, and `UserTurnInWindowIff` that the new user turn reaches the reply service exactly when fewer than ten messages came before it. `PromptRepeatsShortTurn` proves that in a shorter conversation the new user text reaches the provider twice.
- The conversation row is inserted before `BEGIN`. A rollback therefore keeps a freshly created conversation (`SendMessage`, case `RolledBack`).
- `BEGIN` is issued outside the inner `try`. When it fails the handler answers 500 without a `ROLLBACK`; no message has been written and a freshly created conversation stays (`SendMessage`, case `NotBegun`).
- A truthy session id that is not a string makes the UUID lookup fail. The turn then answers 500 instead of silently opening a new session.
- The serial counter of `messages` is not transactional, so a rollback does not rewind it.
- A failure of the knowledge query goes through the same `if` chain as a provider failure. A database error's `code` is an SQLSTATE, so it ends in the generic sentence.

## Model

| member | source | states |
|---|---|---|
| JsText.TrimStart | backend/src/controllers/controller.ts:43 | leading whitespace removed: the result is a suffix of the input, everything dropped is whitespace, and the result does not start with whitespace |
| JsText.TrimEnd | backend/src/services/llm.ts:67 | trailing whitespace removed: the result is a prefix, everything dropped is whitespace, and the result does not end with whitespace |
| JsText.Trim | backend/src/services/llm.ts:67 | `trim()`: the result is no longer than the input and neither starts nor ends with whitespace; TrimIsInnerSlice and TrimEmptyIff state the rest |
| JsText.TrimIsInnerSlice | backend/src/services/llm.ts:67 | `trim()` yields a contiguous slice of the input, with only whitespace cut on either side and no whitespace at either end of the slice |
| JsText.TrimEmptyIff | backend/src/controllers/controller.ts:43 | `s.trim() === ""` holds exactly when every character of `s` is whitespace |
| JsText.TrimIdempotent | backend/src/services/llm.ts:67 | trimming an already trimmed string changes nothing |
| JsText.Utf16Length | backend/src/controllers/controller.ts:46 | `message.length` lies between the number of characters and twice that number, and equals it for text inside the Basic Multilingual Plane |
| JsText.JoinLines | backend/src/services/llm.ts:24 | `join("\n")`: the empty array joins to "", the result starts with the first piece, and a line break follows it when there are more pieces; SplitJoinLines proves the join lossless |
| JsText.SplitLines | backend/src/services/llm.ts:24 | splitting at line breaks always yields at least one piece |
| JsText.SplitSingleLine | backend/src/services/llm.ts:24 | a line-free string splits into itself |
| JsText.SplitFirstLine | backend/src/services/llm.ts:24 | splitting `a + "\n" + b`, with `a` line-free, gives `a` followed by the pieces of `b` |
| JsText.SplitJoinLines | backend/src/services/llm.ts:24 | `join("\n")` is lossless for a non-empty sequence of line-free contents: splitting the joined text gives back every piece, in order (the empty array and `[""]` both join to "") |
| Llm.SystemPrompt | backend/src/services/llm.ts:26-44 | the system turn is the fixed template head, then exactly the knowledge text, then the fixed tail |
| Llm.SystemPromptEmbedsKnowledge | backend/src/services/llm.ts:24-44 | for a non-empty sequence of line-free contents, the system turn is the fixed policy head, then the contents recoverable in retrieval order by splitting at line breaks, then the fixed tail |
| Llm.RoleOf | backend/src/services/llm.ts:46-51 | sender `user` maps to the user role and every other sender to the assistant role; never the system role |
| Llm.HistoryMessages | backend/src/services/llm.ts:46-51 | the history mapping keeps length, order and text, and gives the user role exactly to `user` senders |
| Llm.BuildMessages | backend/src/services/llm.ts:53-57 | the request has length of history + 2: the system turn with the knowledge first, the mapped history in the middle, the new user turn always last with no deduplication, and no other system turn |
| Llm.NormaliseReply | backend/src/services/llm.ts:66-69 | the answer is never empty. A missing first choice, missing content or blank content gives the fixed fallback; otherwise the answer is the trimmed content |
| Llm.ErrorReply | backend/src/services/llm.ts:70-86 | error sentences by precedence: rate-limit code, then invalid-key code, then timeout name, then generic; each sentence is given exactly for its cause |
| Llm.GenerateReply | backend/src/services/llm.ts:19-86 | never fails and never answers empty. The result is one of the five fixed sentences or trimmed provider text. A completed provider call yields NormaliseReply of its choices; a failed knowledge query or provider call is mapped by ErrorReply |
| Database.HeadBelowRest | backend/src/db/initDB.ts:14 | in a key-ordered table the first key is below every later key |
| Database.MessagesOf | backend/src/controllers/controller.ts:19-27 | the rows selected for a conversation are rows of the table that belong to that conversation |
| Database.MessagesOfComplete | backend/src/controllers/controller.ts:19-27 | no row of the conversation is left out |
| Database.MessagesOfIncreasing | backend/src/controllers/controller.ts:24 | the selected rows are in ascending key order |
| Database.MessagesOfAppend | backend/src/controllers/controller.ts:67-79 | selecting a conversation distributes over appending rows |
| Database.TranscriptComplete | backend/src/controllers/controller.ts:19-27 | a row is in the selection exactly when it is a row of the conversation |
| Database.MessagesOfAbsent | backend/src/db/initDB.ts:15 | a conversation without rows has an empty transcript |
| Database.DropConversation | backend/src/db/initDB.ts:15 | after the cascade, no surviving row belongs to the deleted conversation and every survivor was already a row |
| Database.DropConversationIncreasing | backend/src/db/initDB.ts:14-15 | the cascade keeps the surviving rows in key order |
| Database.DropConversationTranscripts | backend/src/db/initDB.ts:15 | deleting a conversation empties its transcript and leaves every other transcript unchanged |
| Database.InsertIfAbsent | backend/src/db/initDB.ts:44 | `ON CONFLICT (title) DO NOTHING`: a present title leaves the table as it was, an absent one appends the row; the title is present afterwards and titles stay unique |
| Database.Seeded | backend/src/db/initDB.ts:30-46 | the multi-row `INSERT … ON CONFLICT (title) DO NOTHING`, row by row: it adds at most one row per seeded entry and removes none; SeededExtends, SeededNoop and SeededFresh state the rest |
| Database.SeededExtends | backend/src/db/initDB.ts:30-46 | seeding never overwrites: existing rows keep place and content, titles stay unique, and every seeded title is present afterwards |
| Database.SeededNoop | backend/src/db/initDB.ts:30-46 | seeding a knowledge base that already holds every seeded title changes nothing |
| Database.SeedingIdempotent | backend/src/db/initDB.ts:30-46 | seeding twice gives the same knowledge base as seeding once |
| Database.SeededFresh | backend/src/db/initDB.ts:30-46 | with distinct titles, none of them present yet, the seeded rows are appended in statement order |
| Database.SeedingEmpty | backend/src/db/initDB.ts:33-42 | from an empty table, seeding yields exactly Shipping Policy, Return Policy and Support Hours with their contents |
| Database.Contents | backend/src/services/llm.ts:24 | the knowledge contents are taken row by row, in retrieval order |
| Database.Store.Valid | backend/src/db/initDB.ts:5-28 | the schema constraints as the store invariant: serial keys strictly increasing and below the counter, every message pointing to an existing conversation, sender `user` or `ai`, unique knowledge titles; conversation keys are unique as a set. Every store method keeps it |
| Database.Store.Transcript | backend/src/controllers/controller.ts:19-27 | an unknown conversation has an empty transcript |
| Database.Store.TranscriptBelowCounter | backend/src/db/initDB.ts:14 | every row of a conversation has a serial key below the counter, so the next inserted row sorts after all of them |
| Database.Store.TranscriptOrdered | backend/src/controllers/controller.ts:19-27 | a transcript lists exactly the conversation's rows, in ascending key order |
| Database.Store.constructor | backend/src/db/initDB.ts:5-28 | a new database has empty tables that satisfy every constraint |
| Database.Store.HasConversation | backend/src/controllers/controller.ts:53-56 | the existence query answers exactly whether the conversation exists |
| Database.Store.InsertConversation | backend/src/controllers/controller.ts:63 | inserting a key that is not yet present adds it and changes nothing else |
| Database.Store.InsertMessage | backend/src/db/initDB.ts:12-20 | a row admitted by the constraints is appended with the next serial key, and the constraints still hold |
| Database.Store.DeleteConversation | backend/src/db/initDB.ts:15 | deleting a conversation cascades to its messages and leaves every other transcript unchanged |
| Database.Store.Begin | backend/src/controllers/controller.ts:65 | `BEGIN` remembers the table contents |
| Database.Store.Commit | backend/src/controllers/controller.ts:80 | `COMMIT` keeps what was written |
| Database.Store.Rollback | backend/src/controllers/controller.ts:83 | `ROLLBACK` restores the tables as they were at `BEGIN` but keeps the serial counter |
| Database.Store.SeedKnowledge | backend/src/db/initDB.ts:30-46 | the seeding loop leaves the knowledge base equal to the insert-if-absent fold of the three snippets and touches no other table |
| Database.InitDB | backend/src/db/initDB.ts:3-51 | a new server's database has no conversations, no messages and exactly the three seeded snippets |
| Controller.Truthy | backend/src/controllers/controller.ts:43-61 | JavaScript truthiness, as in the `!sessionId`, `!message`, `if (convId)` and `!convId` tests: `undefined`, `null`, `false`, `0` and `""` are falsy. ValidateMessage, ResolveSession and GetMessages state their cases through it |
| Controller.ValidateMessage | backend/src/controllers/controller.ts:38-50 | checks in order: non-string gives the format error, blank gives the empty error, more than 200 UTF-16 units gives the length error. A message passes exactly when none applies, and passes unchanged |
| Controller.ExactLimitAccepted | backend/src/controllers/controller.ts:46-50 | a non-blank message of exactly 200 characters from the Basic Multilingual Plane passes |
| Controller.ResolveSession | backend/src/controllers/controller.ts:51-64 | a truthy id is looked up, and the lookup fails for a non-string or a failing query. An existing string id is reused unchanged; a falsy or unknown id is replaced by the generated one |
| Controller.HistoryWindow | backend/src/controllers/controller.ts:71-74 | the window is the first min(10, n) rows of the transcript |
| Controller.HistoryAfterAppend | backend/src/controllers/controller.ts:71-75 | when at most ten rows exist after appending, the window is all of them; from ten earlier rows on, whatever is appended, the window stays the first ten rows |
| Controller.NewTurnInWindowIff | backend/src/controllers/controller.ts:71-75 | a new row keyed above every earlier row is in the window read right after appending it exactly when fewer than ten rows came before it |
| Controller.UserTurnInWindowIff | backend/src/controllers/controller.ts:67-75 | in a valid store, the user turn inserted with the next serial key reaches the reply service exactly when its conversation had fewer than ten messages |
| Controller.HistoryEntries | backend/src/controllers/controller.ts:75 | the reply service receives the sender and text of each history row, in order |
| Controller.TranscriptRows | backend/src/controllers/controller.ts:28 | the client receives the sender and text of each transcript row, in order |
| Controller.KnowledgeQueryOutcome | backend/src/services/llm.ts:19-24 | the knowledge query fails exactly when a fault is given; otherwise it returns the content of every knowledge row, in retrieval order |
| Controller.ServerReplyService | backend/src/controllers/controller.ts:75 | the reply service the handler calls is GenerateReply over the knowledge query of the same database and the provider; ServerReplyAnswers states what it answers |
| Controller.ServerReplyAnswers | backend/src/services/llm.ts:19-86 | the handler always receives a non-empty reply. A failed knowledge query or provider call gives the ErrorReply sentence, for example the rate-limit sentence for `rate_limit_exceeded` |
| Controller.PromptRepeatsShortTurn | backend/src/controllers/controller.ts:71-75 | in a conversation with fewer than ten messages the prompt ends with the new user text twice |
| Controller.SettleSession | backend/src/controllers/controller.ts:51-64 | the resolution built step by step from the lookup and the insert is the one ResolveSession gives. A settled id is in the conversation set afterwards; only a generated id is added; a failed step changes nothing |
| Controller.TurnTranscripts | backend/src/controllers/controller.ts:67-79 | appending the two turns extends only the turn's own transcript, by exactly user then ai |
| Controller.TurnBody | backend/src/controllers/controller.ts:66-79 | without a failure, exactly the user turn and the reply are appended. The reply is the reply service applied to the knowledge table and the oldest-ten window read after the user insert |
| Controller.RunTurn | backend/src/controllers/controller.ts:65-89 | a failing BEGIN answers 500 with no message written and the serial counter untouched. Any failure after BEGIN up to COMMIT rolls the messages back and answers 500. Success answers 200 with the reply and appends exactly the user row and the ai row, with consecutive serial keys |
| Controller.SettleAndRun | backend/src/controllers/controller.ts:51-89 | a failure while settling the session changes nothing and answers 500. A failing BEGIN answers 500, writes no message and keeps a conversation created before it. A rollback keeps a conversation created before BEGIN. A commit appends the user and ai turns to the settled conversation |
| Controller.SettledPath | backend/src/controllers/controller.ts:51-89 | the path of a validated message: unsettled when the lookup or create fails, not begun on a failing BEGIN, rolled back on a failure inside the transaction, otherwise committed; PathOf states its guarantees |
| Controller.PathOf | backend/src/controllers/controller.ts:35-90 | a request is rejected exactly when validation fails. A settled session is an existing or the generated id; a BEGIN-failure path needs a failing BEGIN; rollback needs a failure inside the transaction; commit happens only when no executed statement fails |
| Controller.SendMessage | backend/src/controllers/controller.ts:35-90 | 400 or a failure while settling the session leaves the store unchanged. A failing BEGIN answers 500, writes no message and keeps a newly created conversation. A failure in the transaction restores the messages and keeps a newly created conversation; success appends exactly the user and ai turns |
| Controller.GetMessages | backend/src/controllers/controller.ts:6-33 | a falsy or non-string id gives 400 before any query; an unknown id gives 404; otherwise 200 with the conversation's full transcript in key order. A failing query gives 500 |
| Controller.ValidTurnCommits | backend/src/controllers/controller.ts:35-90 | without faults, a valid message commits: in the named conversation when the session id names an existing one, and in the generated one when the session id is falsy |
| Controller.TurnVisibleInTranscript | backend/src/controllers/controller.ts:19-28 | after a committed turn, a transcript read of that conversation returns the earlier rows followed by the user row and then the ai row |

## Left out

- SQL engine semantics, the `created_at` timestamps, the serial key of `knowledge_base`, and `console.error` logging are not modelled.
- The language-model client call, the model name, `temperature` and `max_tokens` are abstracted away. The provider is a function from the request to an abstract outcome.
- The UUID format of conversation keys is not modelled. The generator is an input that is not yet a conversation. A string that is not a well-formed UUID makes the real lookup fail; the model covers that only through the `LookupFails` and `ExistenceQueryFails` faults.
- Conversation keys are compared as strings, whereas the database compares `uuid` values. An existing key sent in upper case, in braces or without hyphens is reused by `sendMessage` and found by `getMessages` in the real server; the model treats it as unknown, so it opens a new conversation or answers 404.
- Concurrency between simultaneous turns is not modelled. So is the fact that `BEGIN`, `COMMIT` and `ROLLBACK` go through a connection pool that may use different connections. The model assumes sequential, single-connection execution and claims no atomicity beyond it.
- The retrieval order of `SELECT content FROM knowledge_base` has no `ORDER BY`; the model uses insertion order.
- A failing `ROLLBACK`, a failing `CREATE TABLE`, and the `process.exit(1)` of `initDB` are not modelled. The constructor of `Store` stands for a new, empty database.
- `Database.Store.InsertConversation` and `Database.Store.InsertMessage` take the primary-key, foreign-key and sender constraints as preconditions rather than as error paths. The handlers always meet them, and this is proved at every call.
- `Database.Store.DeleteConversation` has no caller in the backend; it models the cascade rule of the schema.
- A fault model with one failing statement per request is used. The failure's cause and its logged detail are not modelled.
- JSON numbers are integers here; fractional numbers and `NaN` are not modelled. JavaScript strings holding unpaired surrogates cannot be represented as Dafny strings.
- A thrown value that is `null` or `undefined` would make `error.code` itself throw inside the reply service; caught errors are modelled as objects with an optional `code` and `name`.
- The express wiring, the rate-limiting middleware, CORS, the route table and the browser client are outside this model.
