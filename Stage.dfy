/** What the generation stages share: the chat request a stage makes, the draft it
    produces, and the write-back of that draft. */
module Stage {
  import opened Base
  import opened Files
  import opened ProjectLayout
  import opened Config
  import opened ChatTransport
  import opened LlmClient

  /** The messages and options handed to `client.chat`. */
  datatype ChatCall = ChatCall(messages: seq<ChatMessage>, options: ChatOptions)

  /** A stage's result text, the request it made (if any) and the information
      message it showed (if any). */
  datatype Draft = Draft(text: string, call: Option<ChatCall>, notice: Option<string>)

  /** A system message followed by a user message, at a fixed temperature. */
  function Prompt(system: string, user: string, temperature: real): (c: ChatCall)
    ensures |c.messages| == 2 && c.messages[0].role == System && c.messages[1].role == User
    ensures c.messages[0].content == system && c.messages[1].content == user
    ensures c.options.temperature == Some(temperature)
  {
    ChatCall([ChatMessage(System, system), ChatMessage(User, user)], ChatOptions(Some(temperature)))
  }

  /** `result && result.length > 0`. */
  predicate HasText(reply: Option<string>) {
    reply.Some? && |reply.value| > 0
  }

  /** `text || '（暂无）'`. */
  function OrNone(s: string): (r: string)
    ensures r != []
    ensures s != [] ==> r == s
  {
    if s == [] then "（暂无）" else s
  }

  /** What the configured client answers, or nothing when no client is configured. */
  function ReplyFor(cfg: Config, transport: nat -> Outcome): (r: Option<string>)
    ensures GetLlmClient(cfg).None? ==> r.None?
  {
    match GetLlmClient(cfg)
    case None => None
    case Some(c) => Reply(c, cfg, transport)
  }

  /** `await client.chat(messages, options)` with the configured client. */
  method Ask(cfg: Config, transport: nat -> Outcome, call: ChatCall) returns (reply: Option<string>)
    requires GetLlmClient(cfg).Some?
    ensures reply == ReplyFor(cfg, transport)
  {
    ghost var sent, waited;
    reply, sent, waited := ChatWith(GetLlmClient(cfg).value, cfg, call.messages, Some(call.options), transport);
  }
}
