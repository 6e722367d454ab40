/**
 * The reply service of backend/src/services/llm.ts: the grounded prompt (a system turn carrying the
 * store knowledge, the history window mapped to chat roles, the new user turn), the normalisation of
 * the provider's answer, and the mapping of every failure to a fixed user-facing sentence.
 * The knowledge query and the provider call are effects; here they are inputs: the outcome of the
 * query, and the provider as a function from the request to its outcome.
 */
module Llm {
  import opened Wrappers
  import opened JsText

  /** The role of one turn of a chat-completion request. */
  datatype Role = System | User | Assistant

  /** One turn of a chat-completion request. */
  datatype ChatMessage = ChatMessage(role: Role, content: string)

  /** The two columns of a stored message that the prompt uses. */
  datatype HistoryEntry = HistoryEntry(sender: string, text: string)

  /** The two properties of a caught error that the fallback chain inspects (`undefined` is None). */
  datatype ErrorInfo = ErrorInfo(code: Option<string>, name: Option<string>)

  /**
   * What the provider call produces: either a completion, given by the message content of each of
   * its choices (None when a choice carries no content), or a thrown error.
   */
  datatype ProviderOutcome = Completed(choices: seq<Option<string>>) | Failed(error: ErrorInfo)

  /** What the query `SELECT content FROM knowledge_base` produces: its rows in retrieval order, or an error. */
  datatype KnowledgeQuery = Rows(contents: seq<string>) | QueryFailed(error: ErrorInfo)

  /** The sentence the policy tells the model to answer with when the knowledge does not cover a question. */
  const RefusalSentence: string := "I'm not sure about that. Please contact support."

  /** The fixed text of the system turn that precedes the knowledge. */
  const PromptHead: string :=
    "\n  Your are a helpful customer support agent for a small e-commerce store.\n\n    Rules:\n"
    + "- You may respond to greetings (e.g., \"hi\", \"hello\") with a short polite greeting.\n"
    + "- For all other questions, use ONLY the provided store knowledge.\n"
    + "- Answer clearly and concisely.\n"
    + "- Use ONLY the provided context.\n"
    + "- You are not allowed to guess, assume, or generalize.\n"
    + "- Do NOT hallucinate or invent policies.\n"
    + "- If the answer is not present in the knowledge, respond with:\n"
    + "  \"" + RefusalSentence + "\"\n\n"
    + "You MUST NOT answer questions outside the store knowledge.\n\nStore Knowledge:\n"

  /** The fixed text of the system turn that follows the knowledge. */
  const PromptTail: string := "\n\n"

  const EmptyReplyFallback: string := "Sorry, I couldn't generate a response."
  const RateLimitReply: string := "I'm getting too many requests right now. Please try again in a moment."
  const ConfigurationReply: string := "Service configuration issue. Please contact support."
  const TimeoutReply: string := "The response took too long. Please try again."
  const GenericReply: string := "Sorry, I'm having trouble right now. Please try again later."

  /** The five sentences the service can answer with on its own account. */
  const FixedReplies: set<string> := {EmptyReplyFallback, RateLimitReply, ConfigurationReply, TimeoutReply, GenericReply}

  /** The system turn: the policy template with the knowledge text embedded between its head and tail. */
  function SystemPrompt(knowledgeText: string): (r: string)
    ensures |r| == |PromptHead| + |knowledgeText| + |PromptTail|
    ensures r[..|PromptHead|] == PromptHead && r[|r| - |PromptTail|..] == PromptTail
    ensures r[|PromptHead|..|r| - |PromptTail|] == knowledgeText
  {
    PromptHead + knowledgeText + PromptTail
  }

  /**
   * The system prompt built from the retrieved contents holds exactly those contents, joined by line
   * breaks and in retrieval order, between the fixed head and tail: cutting out the middle and splitting
   * it at the line breaks gives the contents back (when they are line-free, as the seeded ones are).
   */
  lemma SystemPromptEmbedsKnowledge(contents: seq<string>)
    requires |contents| > 0 && NoLineBreaks(contents)
    ensures var p := SystemPrompt(JoinLines(contents));
            |PromptHead| + |PromptTail| <= |p|
            && p[..|PromptHead|] == PromptHead
            && p[|p| - |PromptTail|..] == PromptTail
            && SplitLines(p[|PromptHead|..|p| - |PromptTail|]) == contents
  {
    var k := JoinLines(contents);
    var p := SystemPrompt(k);
    assert p[|PromptHead|..|p| - |PromptTail|] == k;
    SplitJoinLines(contents);
  }

  /** The chat role of a stored sender: `user` stays the user, every other sender becomes the assistant. */
  function RoleOf(sender: string): (r: Role)
    ensures r != System
    ensures r == User <==> sender == "user"
  {
    if sender == "user" then User else Assistant
  }

  /** The history as chat turns: one turn per entry, same order, same text, role by sender. */
  function HistoryMessages(history: seq<HistoryEntry>): (r: seq<ChatMessage>)
    ensures |r| == |history|
    ensures forall i :: 0 <= i < |history| ==>
              r[i].content == history[i].text && (r[i].role == User <==> history[i].sender == "user")
              && r[i].role != System
  {
    if history == [] then []
    else [ChatMessage(RoleOf(history[0].sender), history[0].text)] + HistoryMessages(history[1..])
  }

  /**
   * The request sent to the provider: the system turn first, then the history turns in order, then the
   * new user turn last, which is appended even when the history already ends with the same text.
   */
  function BuildMessages(knowledge: seq<string>, history: seq<HistoryEntry>, userMessage: string): (r: seq<ChatMessage>)
    ensures |r| == |history| + 2
    ensures r[0] == ChatMessage(System, SystemPrompt(JoinLines(knowledge)))
    ensures r[|r| - 1] == ChatMessage(User, userMessage)
    ensures r[1..|r| - 1] == HistoryMessages(history)
    ensures forall i :: 1 <= i < |r| ==> r[i].role != System
  {
    [ChatMessage(System, SystemPrompt(JoinLines(knowledge)))] + HistoryMessages(history) + [ChatMessage(User, userMessage)]
  }

  /**
   * The answer taken from a completion: the first choice's content with surrounding whitespace removed,
   * or the fixed fallback when there is no first choice, no content, or only whitespace.
   */
  function NormaliseReply(choices: seq<Option<string>>): (r: string)
    ensures r != ""
    ensures (|choices| == 0 || choices[0].None? || AllWhitespace(choices[0].value)) ==> r == EmptyReplyFallback
    ensures (|choices| > 0 && choices[0].Some? && !AllWhitespace(choices[0].value)) ==> r == Trim(choices[0].value)
  {
    if |choices| > 0 && choices[0].Some? then
      TrimEmptyIff(choices[0].value);
      var trimmed := Trim(choices[0].value);
      if trimmed == "" then EmptyReplyFallback else trimmed
    else
      EmptyReplyFallback
  }

  /**
   * The sentence for a caught error, by precedence: a rate-limit code, then an invalid-key code, then a
   * timeout error name, then anything else. Each sentence is given for its cause and for nothing else.
   */
  function ErrorReply(e: ErrorInfo): (r: string)
    ensures r in FixedReplies - {EmptyReplyFallback}
    ensures r == RateLimitReply <==> e.code == Some("rate_limit_exceeded")
    ensures r == ConfigurationReply <==> e.code == Some("invalid_api_key")
    ensures r == TimeoutReply <==>
              e.code != Some("rate_limit_exceeded") && e.code != Some("invalid_api_key") && e.name == Some("TimeoutError")
    ensures r == GenericReply <==>
              e.code != Some("rate_limit_exceeded") && e.code != Some("invalid_api_key") && e.name != Some("TimeoutError")
  {
    if e.code == Some("rate_limit_exceeded") then RateLimitReply
    else if e.code == Some("invalid_api_key") then ConfigurationReply
    else if e.name == Some("TimeoutError") then TimeoutReply
    else GenericReply
  }

  /**
   * `generateReply(history, userMessage)`: never fails. With the knowledge retrieved and a completion
   * received the answer is the normalised completion; every failure, of the knowledge query as well as
   * of the provider, becomes the sentence ErrorReply picks. The answer is never empty and is either
   * one of the five fixed sentences or the trimmed text of the provider.
   */
  function GenerateReply(knowledge: KnowledgeQuery, history: seq<HistoryEntry>, userMessage: string,
                         provider: seq<ChatMessage> -> ProviderOutcome): (r: string)
    ensures r != ""
    ensures r in FixedReplies
            || (knowledge.Rows?
                && var o := provider(BuildMessages(knowledge.contents, history, userMessage));
                   o.Completed? && |o.choices| > 0 && o.choices[0].Some? && r == Trim(o.choices[0].value))
    ensures knowledge.QueryFailed? ==> r == ErrorReply(knowledge.error)
    ensures knowledge.Rows? && provider(BuildMessages(knowledge.contents, history, userMessage)).Completed? ==>
              r == NormaliseReply(provider(BuildMessages(knowledge.contents, history, userMessage)).choices)
    ensures knowledge.Rows? && provider(BuildMessages(knowledge.contents, history, userMessage)).Failed? ==>
              r == ErrorReply(provider(BuildMessages(knowledge.contents, history, userMessage)).error)
  {
    match knowledge
    case QueryFailed(e) => ErrorReply(e)
    case Rows(contents) =>
      match provider(BuildMessages(contents, history, userMessage))
      case Completed(choices) => NormaliseReply(choices)
      case Failed(e) => ErrorReply(e)
  }
}
