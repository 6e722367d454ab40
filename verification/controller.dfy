/**
 * The two request handlers of backend/src/controllers/controller.ts over the row store:
 * SendMessage (POST /chat/message) and GetMessages (GET /chat/:sessionId).
 * Requests carry JSON values; the statements that may fail are chosen by a Fault input;
 * the id generator and the language-model provider are inputs too.
 */
module Controller {
  import opened Wrappers
  import opened JsText
  import opened Database
  import Llm

  /** A value of a parsed JSON request (`undefined` for a missing property). Numbers are integers here. */
  datatype JsonValue = Undefined | Null | Bool(b: bool) | Number(n: int) | Str(s: string) | Array | Object

  /** JavaScript truthiness: `undefined`, `null`, `false`, `0` and `""` are falsy. */
  predicate Truthy(v: JsonValue)
  {
    match v
    case Undefined => false
    case Null => false
    case Bool(b) => b
    case Number(n) => n != 0
    case Str(s) => s != ""
    case Array => true
    case Object => true
  }

  /** One row of a transcript as returned to the client. */
  datatype MessageRow = MessageRow(sender: string, text: string)

  /** The JSON body of a response. */
  datatype Body =
    | ErrorBody(error: string)
    | ReplyBody(message: string, sessionId: ConversationId)
    | TranscriptBody(messages: seq<MessageRow>)

  datatype Response = Response(status: nat, body: Body)

  const InvalidMessageFormat: string := "Invalid message format"
  const MessageEmpty: string := "Message cannot be empty"
  const MessageTooLong: string := "Message is too long. Max 200 characters."
  const InternalServerError: string := "Internal server error"
  const InvalidSessionId: string := "Invalid session ID"
  const SessionNotFound: string := "Session not found"
  const FetchFailed: string := "Failed to fetch messages."

  /** The largest accepted message, in UTF-16 code units. */
  const MaxMessageLength: nat := 200

  /** How many rows of the conversation the history query returns. */
  const HistoryLimit: nat := 10

  /**
   * The validation of a sent message, in the order of the checks: not a string, then empty or blank,
   * then longer than 200 code units. A message passes exactly when it is a string with a non-blank
   * character and at most 200 code units, and then it passes unchanged.
   */
  function ValidateMessage(message: JsonValue): (r: Result<string, string>)
    ensures r.Success? <==> message.Str? && !AllWhitespace(message.s) && Utf16Length(message.s) <= MaxMessageLength
    ensures r.Success? ==> r.value == message.s
    ensures !message.Str? ==> r == Failure(InvalidMessageFormat)
    ensures message.Str? && AllWhitespace(message.s) ==> r == Failure(MessageEmpty)
    ensures message.Str? && !AllWhitespace(message.s) && Utf16Length(message.s) > MaxMessageLength ==>
              r == Failure(MessageTooLong)
  {
    match message
    case Str(s) =>
      TrimEmptyIff(s);
      if s == "" || Trim(s) == "" then Failure(MessageEmpty)
      else if Utf16Length(s) > MaxMessageLength then Failure(MessageTooLong)
      else Success(s)
    case _ => Failure(InvalidMessageFormat)
  }

  /** Every message of 200 characters from the Basic Multilingual Plane with a non-blank character passes validation. */
  lemma ExactLimitAccepted(s: string)
    requires |s| == MaxMessageLength && !AllWhitespace(s)
    requires forall i :: 0 <= i < |s| ==> s[i] as int <= 0xFFFF
    ensures ValidateMessage(Str(s)) == Success(s)
  {
  }

  /** How the session of a turn is settled. */
  datatype Resolution = Reuse(id: ConversationId) | Create(id: ConversationId) | LookupError

  /**
   * Session resolution: a truthy session id is looked up, which fails for anything but a string (the
   * key column is a UUID) or when the query fails; a string naming an existing conversation is reused;
   * a missing, falsy or unknown id is replaced by the freshly generated one.
   */
  function ResolveSession(sessionId: JsonValue, conversations: set<ConversationId>, freshId: ConversationId,
                          lookupFails: bool): (r: Resolution)
    ensures r.LookupError? <==> Truthy(sessionId) && (!sessionId.Str? || lookupFails)
    ensures r.Reuse? <==> Truthy(sessionId) && sessionId.Str? && !lookupFails && sessionId.s in conversations
    ensures r.Reuse? ==> r.id == sessionId.s
    ensures r.Create? ==> r.id == freshId
  {
    if Truthy(sessionId) then
      if !sessionId.Str? || lookupFails then LookupError
      else if sessionId.s in conversations then Reuse(sessionId.s)
      else Create(freshId)
    else Create(freshId)
  }

  /** The statement of a turn that fails, if it is executed; NoFault when none does. */
  datatype Fault =
    | NoFault
    | LookupFails
    | CreateFails
    | BeginFails
    | UserInsertFails
    | HistoryFails
    | AiInsertFails
    | CommitFails
  {
    /** The statements between BEGIN and COMMIT. */
    predicate InTransaction()
    {
      UserInsertFails? || HistoryFails? || AiInsertFails? || CommitFails?
    }
  }

  /** `ORDER BY id ASC LIMIT 10`: the oldest ten rows of a transcript, not the most recent ones. */
  function HistoryWindow(transcript: seq<Message>): (r: seq<Message>)
    ensures |r| == if |transcript| < HistoryLimit then |transcript| else HistoryLimit
    ensures r == transcript[..|r|]
  {
    if |transcript| < HistoryLimit then transcript else transcript[..HistoryLimit]
  }

  /**
   * The history window read right after the user turn is appended holds that turn exactly when the
   * conversation had fewer than ten messages. From ten messages on, the window no longer changes:
   * whatever is appended later, it stays the first ten rows.
   */
  lemma HistoryAfterAppend(before: seq<Message>, later: seq<Message>)
    ensures |before| + |later| <= HistoryLimit ==> HistoryWindow(before + later) == before + later
    ensures |before| >= HistoryLimit ==> HistoryWindow(before + later) == HistoryWindow(before) == before[..HistoryLimit]
  {
    if |before| >= HistoryLimit {
      assert (before + later)[..HistoryLimit] == before[..HistoryLimit];
    }
  }

  /**
   * A turn whose key is above every earlier row's key is in the window read right after it is
   * appended exactly when fewer than ten rows came before it.
   */
  lemma NewTurnInWindowIff(before: seq<Message>, turn: Message)
    requires forall m :: m in before ==> m.id < turn.id
    ensures turn in HistoryWindow(before + [turn]) <==> |before| < HistoryLimit
  {
    HistoryAfterAppend(before, [turn]);
    if |before| >= HistoryLimit {
      assert forall m :: m in before[..HistoryLimit] ==> m in before;
    }
  }

  /**
   * In a valid store, the user turn a turn inserts (keyed by the serial counter) reaches the reply
   * service exactly when its conversation had fewer than ten messages.
   */
  lemma UserTurnInWindowIff(store: Store, c: ConversationId, text: string)
    requires store.Valid()
    ensures var userTurn := Message(store.nextMessageId, c, "user", text);
            userTurn in HistoryWindow(MessagesOf(store.messages, c) + [userTurn])
            <==> |MessagesOf(store.messages, c)| < HistoryLimit
  {
    store.TranscriptBelowCounter(c);
    NewTurnInWindowIff(MessagesOf(store.messages, c), Message(store.nextMessageId, c, "user", text));
  }

  /** The rows handed to the reply service: sender and text of each message, in order. */
  function HistoryEntries(ms: seq<Message>): (r: seq<Llm.HistoryEntry>)
    ensures |r| == |ms| && forall i :: 0 <= i < |ms| ==> r[i] == Llm.HistoryEntry(ms[i].sender, ms[i].text)
  {
    seq(|ms|, i requires 0 <= i < |ms| => Llm.HistoryEntry(ms[i].sender, ms[i].text))
  }

  /** The rows returned to the client: sender and text of each message, in order. */
  function TranscriptRows(ms: seq<Message>): (r: seq<MessageRow>)
    ensures |r| == |ms| && forall i :: 0 <= i < |ms| ==> r[i] == MessageRow(ms[i].sender, ms[i].text)
  {
    seq(|ms|, i requires 0 <= i < |ms| => MessageRow(ms[i].sender, ms[i].text))
  }

  /** The outcome of the knowledge query of the reply service. */
  function KnowledgeQueryOutcome(knowledge: seq<KnowledgeEntry>, knowledgeFault: Option<Llm.ErrorInfo>): (r: Llm.KnowledgeQuery)
    ensures r.QueryFailed? <==> knowledgeFault.Some?
    ensures r.Rows? ==> |r.contents| == |knowledge| && forall i :: 0 <= i < |knowledge| ==> r.contents[i] == knowledge[i].content
  {
    if knowledgeFault.Some? then Llm.QueryFailed(knowledgeFault.value) else Llm.Rows(Contents(knowledge))
  }

  /**
   * The reply service as the handler sees it: given the knowledge table it reads, the history rows
   * and the user text, it produces the reply text. It never fails.
   */
  type ReplyService = (seq<KnowledgeEntry>, seq<Llm.HistoryEntry>, string) -> string

  /**
   * The reply service of the server: `generateReply`, whose knowledge query reads the same database
   * (or fails with the given error) and whose provider is `provider`.
   */
  function ServerReplyService(knowledgeFault: Option<Llm.ErrorInfo>, provider: seq<Llm.ChatMessage> -> Llm.ProviderOutcome)
    : ReplyService
  {
    (kb: seq<KnowledgeEntry>, history: seq<Llm.HistoryEntry>, text: string) =>
      Llm.GenerateReply(KnowledgeQueryOutcome(kb, knowledgeFault), history, text, provider)
  }

  /**
   * The server's reply service answers every request with a non-empty text. A failed knowledge query
   * gives the sentence ErrorReply picks for it; so does a failed provider call, for instance the
   * rate-limit sentence for a `rate_limit_exceeded` code.
   */
  lemma ServerReplyAnswers(knowledgeFault: Option<Llm.ErrorInfo>, provider: seq<Llm.ChatMessage> -> Llm.ProviderOutcome,
                           kb: seq<KnowledgeEntry>, history: seq<Llm.HistoryEntry>, text: string)
    ensures var r := ServerReplyService(knowledgeFault, provider)(kb, history, text);
            && r != ""
            && (knowledgeFault.Some? ==> r == Llm.ErrorReply(knowledgeFault.value))
            && (knowledgeFault.None? && provider(Llm.BuildMessages(Contents(kb), history, text)).Failed? ==>
                  r == Llm.ErrorReply(provider(Llm.BuildMessages(Contents(kb), history, text)).error))
            && (knowledgeFault.None? && provider(Llm.BuildMessages(Contents(kb), history, text)).Failed?
                && provider(Llm.BuildMessages(Contents(kb), history, text)).error.code == Some("rate_limit_exceeded") ==>
                  r == Llm.RateLimitReply)
  {
  }

  /**
   * In a conversation with fewer than ten messages the prompt carries the new user text twice: as the
   * last history turn and again as the final user turn.
   */
  lemma PromptRepeatsShortTurn(knowledge: seq<string>, before: seq<Message>, turn: Message)
    requires |before| < HistoryLimit && turn.sender == "user"
    ensures var p := Llm.BuildMessages(knowledge, HistoryEntries(HistoryWindow(before + [turn])), turn.text);
            |p| == |before| + 3
            && p[|p| - 2] == Llm.ChatMessage(Llm.User, turn.text)
            && p[|p| - 1] == Llm.ChatMessage(Llm.User, turn.text)
  {
    HistoryAfterAppend(before, [turn]);
    var h := HistoryEntries(before + [turn]);
    var p := Llm.BuildMessages(knowledge, h, turn.text);
    assert h[|before|] == Llm.HistoryEntry("user", turn.text);
    assert p[1..|p| - 1] == Llm.HistoryMessages(h);
    assert p[|p| - 2] == p[1..|p| - 1][|before|];
  }

  /**
   * The session part of a turn: a truthy id is looked up (a failing lookup answers with LookupError and
   * touches nothing); an existing conversation is reused unchanged; otherwise the generated id is
   * inserted, unless that insert fails. Whenever a session is settled it exists afterwards.
   */
  method SettleSession(store: Store, sessionId: JsonValue, freshId: ConversationId, fault: Fault)
    returns (r: Resolution, ok: bool)
    requires store.Valid() && !store.inTransaction
    requires freshId !in store.conversations
    modifies store
    ensures store.Valid() && !store.inTransaction
    ensures r == ResolveSession(sessionId, old(store.conversations), freshId, fault.LookupFails?)
    ensures ok <==> !r.LookupError? && !(r.Create? && fault.CreateFails?)
    ensures ok ==> store.conversations == old(store.conversations) + {r.id} && r.id in store.conversations
    ensures !ok ==> store.conversations == old(store.conversations)
    ensures store.messages == old(store.messages) && store.nextMessageId == old(store.nextMessageId)
    ensures store.knowledge == old(store.knowledge)
  {
    var convId: Option<ConversationId> := None;
    if Truthy(sessionId) {
      if !sessionId.Str? || fault.LookupFails? {
        return LookupError, false;
      }
      var found := store.HasConversation(sessionId.s);
      convId := if found then Some(sessionId.s) else None;
    }
    if convId.Some? {
      return Reuse(convId.value), true;
    }
    r := Create(freshId);
    if fault.CreateFails? {
      return r, false;
    }
    store.InsertConversation(freshId);
    ok := true;
  }

  /**
   * Appending the two turns of conversation `c` extends the transcript of `c` by exactly those turns,
   * in order, and leaves every other transcript as it was.
   */
  lemma TurnTranscripts(before: seq<Message>, userTurn: Message, aiTurn: Message, c: ConversationId)
    requires userTurn.conversationId == c && aiTurn.conversationId == c
    ensures MessagesOf(before + [userTurn, aiTurn], c) == MessagesOf(before, c) + [userTurn, aiTurn]
    ensures forall d :: d != c ==> MessagesOf(before + [userTurn, aiTurn], d) == MessagesOf(before, d)
  {
    forall d ensures MessagesOf(before + [userTurn, aiTurn], d) == MessagesOf(before, d) + MessagesOf([userTurn, aiTurn], d) {
      MessagesOfAppend(before, [userTurn, aiTurn], d);
    }
    var turns := [userTurn, aiTurn];
    assert turns[1..] == [aiTurn] && [aiTurn][1..] == [];
    forall d ensures MessagesOf(turns, d) == if d == c then turns else [] {
      assert MessagesOf([aiTurn], d) == if d == c then [aiTurn] else [];
    }
  }

  /**
   * The statements between BEGIN and COMMIT: append the user turn, read the history window (which
   * then ends with that turn only if the conversation had fewer than ten messages), obtain the reply
   * and append it as the `ai` turn. `ok` is false when one of the statements fails.
   */
  method TurnBody(store: Store, c: ConversationId, text: string, generateReply: ReplyService, fault: Fault)
    returns (ok: bool, reply: string)
    requires store.Valid() && store.inTransaction && c in store.conversations
    modifies store
    ensures store.Valid() && store.inTransaction
    ensures store.conversations == old(store.conversations) && store.knowledge == old(store.knowledge)
    ensures store.savedConversations == old(store.savedConversations) && store.savedMessages == old(store.savedMessages)
    ensures store.nextMessageId >= old(store.nextMessageId)
    ensures ok <==> !(fault.UserInsertFails? || fault.HistoryFails? || fault.AiInsertFails?)
    ensures var userTurn := Message(old(store.nextMessageId), c, "user", text);
            ok ==>
              && reply == generateReply(old(store.knowledge), HistoryEntries(HistoryWindow(MessagesOf(old(store.messages), c) + [userTurn])), text)
              && store.messages == old(store.messages) + [userTurn, Message(old(store.nextMessageId) + 1, c, "ai", reply)]
              && store.nextMessageId == old(store.nextMessageId) + 2
  {
    ghost var before := store.messages;
    reply := "";
    if fault.UserInsertFails? {
      return false, reply;
    }
    var userTurn := Message(store.nextMessageId, c, "user", text);
    store.InsertMessage(c, "user", text);
    if fault.HistoryFails? {
      return false, reply;
    }
    MessagesOfAppend(before, [userTurn], c);
    assert MessagesOf([userTurn], c) == [userTurn];
    var history := HistoryWindow(store.Transcript(c));
    reply := generateReply(store.knowledge, HistoryEntries(history), text);
    if fault.AiInsertFails? {
      return false, reply;
    }
    store.InsertMessage(c, "ai", reply);
    ok := true;
  }

  /**
   * The transaction of a turn on a settled conversation `c`. On success the table gains exactly the
   * user turn followed by the reply (see TurnTranscripts for what that does to each transcript); when any statement
   * after BEGIN up to and including COMMIT fails, ROLLBACK returns the messages to their state at BEGIN.
   * BEGIN itself is outside the inner `try`: when it fails, the handler answers 500 without a ROLLBACK
   * and no message has been written.
   */
  method RunTurn(store: Store, c: ConversationId, text: string, generateReply: ReplyService, fault: Fault)
    returns (res: Response)
    requires store.Valid() && !store.inTransaction && c in store.conversations
    modifies store
    ensures store.Valid() && !store.inTransaction
    ensures store.conversations == old(store.conversations) && store.knowledge == old(store.knowledge)
    ensures fault.BeginFails? ==>
              && res == Response(500, ErrorBody(InternalServerError))
              && store.messages == old(store.messages) && store.nextMessageId == old(store.nextMessageId)
    ensures fault.InTransaction() ==>
              && res == Response(500, ErrorBody(InternalServerError))
              && store.messages == old(store.messages)
              && store.nextMessageId >= old(store.nextMessageId)
    ensures var n := old(store.nextMessageId);
            var userTurn := Message(n, c, "user", text);
            var reply := generateReply(old(store.knowledge), HistoryEntries(HistoryWindow(MessagesOf(old(store.messages), c) + [userTurn])), text);
            !fault.BeginFails? && !fault.InTransaction() ==>
              && res == Response(200, ReplyBody(reply, c))
              && store.messages == old(store.messages) + [userTurn, Message(n + 1, c, "ai", reply)]
              && store.nextMessageId == n + 2
  {
    if fault.BeginFails? {
      return Response(500, ErrorBody(InternalServerError));
    }
    store.Begin();
    var ok, reply := TurnBody(store, c, text, generateReply, fault);
    if !ok || fault.CommitFails? {
      store.Rollback();
      return Response(500, ErrorBody(InternalServerError));
    }
    store.Commit();
    res := Response(200, ReplyBody(reply, c));
  }

  /**
   * Where a turn ends: rejected by validation, failed while settling the session, failed at BEGIN
   * (no ROLLBACK is issued), rolled back, or committed.
   */
  datatype TurnPath =
    | Rejected(error: string)
    | Unsettled
    | NotBegun(id: ConversationId)
    | RolledBack(id: ConversationId)
    | Committed(id: ConversationId, text: string)

  /**
   * The path of a turn whose message passed validation as `text`: a settled session is the looked-up
   * one or the generated one, and the turn commits only when no executed statement fails.
   */
  function SettledPath(text: string, sessionId: JsonValue, conversations: set<ConversationId>,
                       freshId: ConversationId, fault: Fault): TurnPath
  {
    var rs := ResolveSession(sessionId, conversations, freshId, fault.LookupFails?);
    if rs.LookupError? || (rs.Create? && fault.CreateFails?) then Unsettled
    else if fault.BeginFails? then NotBegun(rs.id)
    else if fault.InTransaction() then RolledBack(rs.id)
    else Committed(rs.id, text)
  }

  /**
   * The path a turn takes. Validation comes first; a settled session is the looked-up one or the
   * generated one; a turn commits only when no executed statement fails.
   */
  function PathOf(message: JsonValue, sessionId: JsonValue, conversations: set<ConversationId>,
                  freshId: ConversationId, fault: Fault): (p: TurnPath)
    ensures p.Rejected? <==> ValidateMessage(message).Failure?
    ensures p.Rejected? ==> p.error in {InvalidMessageFormat, MessageEmpty, MessageTooLong}
    ensures (p.NotBegun? || p.RolledBack? || p.Committed?) ==> p.id in conversations || p.id == freshId
    ensures p.NotBegun? ==> fault.BeginFails?
    ensures p.RolledBack? ==> fault.InTransaction()
    ensures p.Committed? ==> p.text == message.s && (fault.NoFault? || fault.LookupFails? || fault.CreateFails?)
    ensures p.Committed? && fault.LookupFails? ==> p.id == freshId && !Truthy(sessionId)
    ensures p.Committed? && fault.CreateFails? ==> p.id in conversations
  {
    match ValidateMessage(message)
    case Failure(e) => Rejected(e)
    case Success(text) => SettledPath(text, sessionId, conversations, freshId, fault)
  }

  /**
   * Everything after validation: settle the session, then run the transaction. A failure while
   * settling leaves the store as it was; a failing BEGIN writes no message but keeps a conversation
   * created before it; a failure inside the transaction rolls the messages back but
   * keeps a conversation created before BEGIN; a committed turn appends the user turn and the reply.
   */
  method SettleAndRun(store: Store, text: string, sessionId: JsonValue, freshId: ConversationId,
                      generateReply: ReplyService, fault: Fault)
    returns (res: Response)
    requires store.Valid() && !store.inTransaction
    requires freshId !in store.conversations
    modifies store
    ensures store.Valid() && !store.inTransaction
    ensures store.knowledge == old(store.knowledge)
    ensures var p := SettledPath(text, sessionId, old(store.conversations), freshId, fault);
            p.Unsettled? ==>
              && res == Response(500, ErrorBody(InternalServerError))
              && store.conversations == old(store.conversations) && store.messages == old(store.messages)
              && store.nextMessageId == old(store.nextMessageId)
    ensures var p := SettledPath(text, sessionId, old(store.conversations), freshId, fault);
            p.NotBegun? ==>
              && res == Response(500, ErrorBody(InternalServerError))
              && store.conversations == old(store.conversations) + {p.id}
              && store.messages == old(store.messages) && store.nextMessageId == old(store.nextMessageId)
    ensures var p := SettledPath(text, sessionId, old(store.conversations), freshId, fault);
            p.RolledBack? ==>
              && res == Response(500, ErrorBody(InternalServerError))
              && store.conversations == old(store.conversations) + {p.id}
              && store.messages == old(store.messages)
    ensures var p := SettledPath(text, sessionId, old(store.conversations), freshId, fault);
            p.Committed? ==>
              var n := old(store.nextMessageId);
              var userTurn := Message(n, p.id, "user", text);
              var reply := generateReply(old(store.knowledge), HistoryEntries(HistoryWindow(MessagesOf(old(store.messages), p.id) + [userTurn])), text);
              && res == Response(200, ReplyBody(reply, p.id))
              && store.conversations == old(store.conversations) + {p.id}
              && store.messages == old(store.messages) + [userTurn, Message(n + 1, p.id, "ai", reply)]
              && store.nextMessageId == n + 2
  {
    var r, ok := SettleSession(store, sessionId, freshId, fault);
    if !ok {
      return Response(500, ErrorBody(InternalServerError));
    }
    res := RunTurn(store, r.id, text, generateReply, fault);
  }

  /**
   * POST /chat/message: validation, then the session, then the transaction. A rejected message and a
   * failure while settling the session leave the store as it was; a failing BEGIN and a failure
   * inside the transaction leave the messages as they were; a failure inside the transaction rolls the
   * messages back but keeps a conversation created before BEGIN; a committed turn appends the user
   * turn and the reply to the settled conversation.
   */
  method SendMessage(store: Store, message: JsonValue, sessionId: JsonValue, freshId: ConversationId,
                     generateReply: ReplyService, fault: Fault)
    returns (res: Response)
    requires store.Valid() && !store.inTransaction
    requires freshId !in store.conversations
    modifies store
    ensures store.Valid() && !store.inTransaction
    ensures store.knowledge == old(store.knowledge)
    ensures match PathOf(message, sessionId, old(store.conversations), freshId, fault)
      case Rejected(e) =>
        && res == Response(400, ErrorBody(e))
        && store.conversations == old(store.conversations) && store.messages == old(store.messages)
        && store.nextMessageId == old(store.nextMessageId)
      case Unsettled =>
        && res == Response(500, ErrorBody(InternalServerError))
        && store.conversations == old(store.conversations) && store.messages == old(store.messages)
        && store.nextMessageId == old(store.nextMessageId)
      case NotBegun(id) =>
        && res == Response(500, ErrorBody(InternalServerError))
        && store.conversations == old(store.conversations) + {id}
        && store.messages == old(store.messages) && store.nextMessageId == old(store.nextMessageId)
      case RolledBack(id) =>
        && res == Response(500, ErrorBody(InternalServerError))
        && store.conversations == old(store.conversations) + {id}
        && store.messages == old(store.messages)
      case Committed(id, text) =>
        var n := old(store.nextMessageId);
        var userTurn := Message(n, id, "user", text);
        && res.status == 200 && res.body.ReplyBody? && res.body.sessionId == id
        && res.body.message == generateReply(old(store.knowledge), HistoryEntries(HistoryWindow(MessagesOf(old(store.messages), id) + [userTurn])), text)
        && store.conversations == old(store.conversations) + {id}
        && store.messages == old(store.messages) + [userTurn, Message(n + 1, id, "ai", res.body.message)]
        && store.nextMessageId == n + 2
  {
    var v := ValidateMessage(message);
    if v.Failure? {
      return Response(400, ErrorBody(v.error));
    }
    res := SettleAndRun(store, v.value, sessionId, freshId, generateReply, fault);
  }

  /** Which query of a transcript read fails, if it is executed. */
  datatype ReadFault = ReadsSucceed | ExistenceQueryFails | TranscriptQueryFails

  /**
   * GET /chat/:sessionId: a falsy or non-string id is rejected before any query; an unknown
   * conversation is reported as not found; otherwise the whole transcript is returned in key order.
   * A failing query answers 500.
   */
  method GetMessages(store: Store, sessionId: JsonValue, fault: ReadFault) returns (res: Response)
    requires store.Valid()
    ensures !Truthy(sessionId) || !sessionId.Str? ==> res == Response(400, ErrorBody(InvalidSessionId))
    ensures Truthy(sessionId) && sessionId.Str? && fault.ExistenceQueryFails? ==>
              res == Response(500, ErrorBody(FetchFailed))
    ensures Truthy(sessionId) && sessionId.Str? && !fault.ExistenceQueryFails? && sessionId.s !in store.conversations ==>
              res == Response(404, ErrorBody(SessionNotFound))
    ensures Truthy(sessionId) && sessionId.Str? && sessionId.s in store.conversations && fault.TranscriptQueryFails? ==>
              res == Response(500, ErrorBody(FetchFailed))
    ensures Truthy(sessionId) && sessionId.Str? && sessionId.s in store.conversations && fault.ReadsSucceed? ==>
              res == Response(200, TranscriptBody(TranscriptRows(store.Transcript(sessionId.s))))
  {
    if !Truthy(sessionId) || !sessionId.Str? {
      return Response(400, ErrorBody(InvalidSessionId));
    }
    if fault.ExistenceQueryFails? {
      return Response(500, ErrorBody(FetchFailed));
    }
    var found := store.HasConversation(sessionId.s);
    if !found {
      return Response(404, ErrorBody(SessionNotFound));
    }
    if fault.TranscriptQueryFails? {
      return Response(500, ErrorBody(FetchFailed));
    }
    res := Response(200, TranscriptBody(TranscriptRows(store.Transcript(sessionId.s))));
  }

  /**
   * Without faults, a message that passes validation commits: in the given conversation when the
   * session id names one, and in the generated one when the session id is falsy.
   */
  lemma ValidTurnCommits(text: string, sessionId: JsonValue, conversations: set<ConversationId>, freshId: ConversationId)
    requires !AllWhitespace(text) && Utf16Length(text) <= MaxMessageLength
    requires !Truthy(sessionId) || (sessionId.Str? && sessionId.s in conversations)
    ensures PathOf(Str(text), sessionId, conversations, freshId, NoFault)
            == Committed(if Truthy(sessionId) then sessionId.s else freshId, text)
  {
  }

  /**
   * What a later transcript read sees of a committed turn: the rows of conversation `c` gain exactly
   * the user row and the ai row, in that order.
   */
  lemma TurnVisibleInTranscript(before: seq<Message>, n: nat, c: ConversationId, text: string, reply: string)
    ensures TranscriptRows(MessagesOf(before + [Message(n, c, "user", text), Message(n + 1, c, "ai", reply)], c))
            == TranscriptRows(MessagesOf(before, c)) + [MessageRow("user", text), MessageRow("ai", reply)]
  {
    TurnTranscripts(before, Message(n, c, "user", text), Message(n + 1, c, "ai", reply), c);
  }
}
