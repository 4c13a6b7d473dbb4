/** The hosted backend: an OpenAI-compatible completions endpoint authenticated with
    a bearer key. */
module DeepSeekClient {
  import opened Base
  import opened Json
  import opened Config
  import opened ChatTransport

  const BaseUrl: string := "https://api.deepseek.com/v1"

  datatype Client = Client(apiKey: string, model: string)

  /** The request every attempt of one call sends. */
  function Request(c: Client, cfg: Config, messages: seq<ChatMessage>, options: Option<ChatOptions>): HttpRequest {
    var temperature := if options.Some? && options.value.temperature.Some?
                       then options.value.temperature.value else Temperature(cfg);
    HttpRequest(
      BaseUrl + "/chat/completions",
      [("Authorization", "Bearer " + c.apiKey), ("Content-Type", "application/json")],
      HostedBody(c.model, messages, temperature),
      TimeoutSeconds(cfg) * 1000)
  }

  /** Where the request goes, how it is authorised and what it carries. */
  lemma RequestShape(c: Client, cfg: Config, messages: seq<ChatMessage>, options: Option<ChatOptions>)
    ensures var req := Request(c, cfg, messages, options);
            && req.url == "https://api.deepseek.com/v1/chat/completions"
            && ("Authorization", "Bearer " + c.apiKey) in req.headers
            && req.body == HostedBody(c.model, messages,
                 if options.Some? && options.value.temperature.Some? then options.value.temperature.value else Temperature(cfg))
            && req.timeoutMs == TimeoutSeconds(cfg) * 1000
  {
    var req := Request(c, cfg, messages, options);
    assert req.headers[0] == ("Authorization", "Bearer " + c.apiKey);
  }

  /** `xs?.[0]`: the first element of an array, the member "0" of an object, the first
      character of a string. */
  function Index0(j: Json): Option<Json> {
    match j
    case JArr(items) => if |items| > 0 then Some(items[0]) else None
    case JObj(members) => Get(members, "0")
    case JStr(s) => if |s| > 0 then Some(JStr([s[0]])) else None
    case _ => None
  }

  /** `data?.choices?.[0]?.message?.content` when it is a string. */
  function Content(data: Json): (r: Option<string>)
    ensures r.Some? ==> exists choices, first, message ::
              && Member(data, "choices") == Some(choices)
              && Index0(choices) == Some(first)
              && Member(first, "message") == Some(message)
              && Member(message, "content") == Some(JStr(r.value))
  {
    match Member(data, "choices")
    case None => None
    case Some(choices) =>
      match Index0(choices)
      case None => None
      case Some(first) =>
        match Member(first, "message")
        case None => None
        case Some(message) =>
          match Member(message, "content")
          case Some(JStr(s)) => Some(s)
          case _ => None
  }

  /** `chat`: the retry loop over one fixed request. */
  method Chat(c: Client, cfg: Config, messages: seq<ChatMessage>, options: Option<ChatOptions>,
              transport: nat -> Outcome)
    returns (r: Option<string>, ghost sent: seq<HttpRequest>, ghost waited: seq<int>)
    ensures var t := Run(transport, Content, 1, RetryAttempts(cfg));
            r == t.result && |sent| == t.requests && |waited| == t.waits
    ensures forall i :: 0 <= i < |sent| ==>
              && sent[i].url == "https://api.deepseek.com/v1/chat/completions"
              && ("Authorization", "Bearer " + c.apiKey) in sent[i].headers
              && sent[i].body == HostedBody(c.model, messages,
                   if options.Some? && options.value.temperature.Some?
                   then options.value.temperature.value else Temperature(cfg))
              && sent[i].timeoutMs == TimeoutSeconds(cfg) * 1000
    ensures forall i :: 0 <= i < |waited| ==> waited[i] == RetryDelayMs
  {
    var req := Request(c, cfg, messages, options);
    RequestShape(c, cfg, messages, options);
    r, sent, waited := Attempts(req, RetryAttempts(cfg), transport, Content);
  }
}
