/** The local backend: a keyless chat endpoint under a configurable base URL. */
module OllamaClient {
  import opened Base
  import opened Json
  import opened Config
  import opened ChatTransport

  datatype Client = Client(baseUrl: string, model: string)

  /** `baseUrl.replace(/\/$/, '')`: one trailing slash, if there is one, is removed. */
  function StripTrailingSlash(s: string): (r: string)
    ensures s == r || s == r + "/"
    ensures s == r <==> (s == [] || s[|s| - 1] != '/')
  {
    if |s| > 0 && s[|s| - 1] == '/' then s[..|s| - 1] else s
  }

  /** The constructor. */
  function NewClient(baseUrl: string, model: string): (c: Client)
    ensures c.model == model && (baseUrl == c.baseUrl || baseUrl == c.baseUrl + "/")
  {
    Client(StripTrailingSlash(baseUrl), model)
  }

  function Request(c: Client, cfg: Config, messages: seq<ChatMessage>, options: Option<ChatOptions>): HttpRequest {
    var temperature := if options.Some? && options.value.temperature.Some?
                       then options.value.temperature.value else Temperature(cfg);
    HttpRequest(c.baseUrl + "/api/chat", [], LocalBody(c.model, messages, false, temperature),
                TimeoutSeconds(cfg) * 1000)
  }

  /** `data?.message?.content` when it is a string. */
  function Content(data: Json): (r: Option<string>)
    ensures r.Some? ==> exists message ::
              Member(data, "message") == Some(message) && Member(message, "content") == Some(JStr(r.value))
  {
    match Member(data, "message")
    case None => None
    case Some(message) =>
      match Member(message, "content")
      case Some(JStr(s)) => Some(s)
      case _ => None
  }

  /** `chat`: the same retry loop as the hosted backend, over this backend's request. */
  method Chat(c: Client, cfg: Config, messages: seq<ChatMessage>, options: Option<ChatOptions>,
              transport: nat -> Outcome)
    returns (r: Option<string>, ghost sent: seq<HttpRequest>, ghost waited: seq<int>)
    ensures var t := Run(transport, Content, 1, RetryAttempts(cfg));
            r == t.result && |sent| == t.requests && |waited| == t.waits
    ensures forall i :: 0 <= i < |sent| ==>
              && sent[i].url == c.baseUrl + "/api/chat"
              && sent[i].body.LocalBody? && !sent[i].body.stream
              && sent[i].body.model == c.model && sent[i].body.messages == messages
              && sent[i].body.optionsTemperature ==
                   (if options.Some? && options.value.temperature.Some?
                    then options.value.temperature.value else Temperature(cfg))
              && sent[i].timeoutMs == TimeoutSeconds(cfg) * 1000
    ensures forall i :: 0 <= i < |waited| ==> waited[i] == RetryDelayMs
  {
    var req := Request(c, cfg, messages, options);
    r, sent, waited := Attempts(req, RetryAttempts(cfg), transport, Content);
  }
}
