/** The client factory: picks a backend from configuration, or none. It only reads
    settings and builds a value; it sends nothing. */
module LlmClient {
  import opened Base
  import opened Strings
  import opened Config
  import opened ChatTransport
  import opened Json
  import DeepSeekClient
  import OllamaClient

  datatype Client = DeepSeek(deepseek: DeepSeekClient.Client) | Ollama(ollama: OllamaClient.Client)

  /** `getLlmClient`. */
  function GetLlmClient(cfg: Config): (r: Option<Client>)
    ensures Platform(cfg) == Some("deepseek") ==>
              && (r.Some? <==> !IsBlank(ApiKey(cfg, "deepseek")))
              && (r.Some? ==> r.value == DeepSeek(DeepSeekClient.Client(ApiKey(cfg, "deepseek"), Model(cfg, "deepseek"))))
    ensures Platform(cfg) == Some("ollama") ==>
              && (r.None? <==> BaseUrl(cfg, "ollama") == "" || Model(cfg, "ollama") == "")
              && (r.Some? ==> r.value == Ollama(OllamaClient.NewClient(BaseUrl(cfg, "ollama"), Model(cfg, "ollama"))))
    ensures Platform(cfg) != Some("deepseek") && Platform(cfg) != Some("ollama") ==> r.None?
  {
    var platform := Platform(cfg);
    if platform == Some("deepseek") then
      var apiKey := ApiKey(cfg, "deepseek");
      TrimEmptyIffBlank(apiKey);
      if apiKey == "" || Trim(apiKey) == "" then None
      else Some(DeepSeek(DeepSeekClient.Client(apiKey, Model(cfg, "deepseek"))))
    else if platform == Some("ollama") then
      var baseUrl := BaseUrl(cfg, "ollama");
      var model := Model(cfg, "ollama");
      if baseUrl == "" || model == "" then None
      else Some(Ollama(OllamaClient.NewClient(baseUrl, model)))
    else None
  }

  /** With nothing configured the hosted backend is chosen and, lacking a key, is
      unavailable; choosing the local backend alone is enough for a client at the
      default address. */
  lemma FactoryDefaults()
    ensures GetLlmClient(Unconfigured).None?
    ensures var cfg := Unconfigured.(strings := map["llm.platform" := Some("ollama")]);
            GetLlmClient(cfg) == Some(Ollama(OllamaClient.Client("http://localhost:11434", "llama2")))
  {
    var cfg := Unconfigured.(strings := map["llm.platform" := Some("ollama")]);
    assert BaseUrl(cfg, "ollama") == "http://localhost:11434";
    assert Model(cfg, "ollama") == "llama2";
  }

  /** Where each backend finds the completion in a response. */
  function ContentOf(client: Client): Json -> Option<string> {
    if client.DeepSeek? then DeepSeekClient.Content else OllamaClient.Content
  }

  /** What `client.chat` resolves to for a given transport; it never rejects, since
      both backends catch every failed request. */
  function Reply(client: Client, cfg: Config, transport: nat -> Outcome): Option<string> {
    Run(transport, ContentOf(client), 1, RetryAttempts(cfg)).result
  }

  /** A completion is always handed back trimmed, so callers that trim it again
      get the same text. */
  /** A non-empty completion neither starts nor ends with whitespace. */
  lemma ReplyEdges(client: Client, cfg: Config, transport: nat -> Outcome)
    requires Reply(client, cfg, transport).Some? && Reply(client, cfg, transport).value != []
    ensures var r := Reply(client, cfg, transport).value;
            !IsWs(r[0]) && !IsWs(r[|r| - 1])
  {
    ReplyTrimmed(client, cfg, transport);
  }

  lemma ReplyTrimmed(client: Client, cfg: Config, transport: nat -> Outcome)
    ensures Reply(client, cfg, transport).Some? ==>
              var r := Reply(client, cfg, transport).value;
              Trim(r) == r && (r != [] ==> !IsWs(r[0]) && !IsWs(r[|r| - 1]))
  {
    var t := Run(transport, ContentOf(client), 1, RetryAttempts(cfg));
    RunShape(transport, ContentOf(client), 1, RetryAttempts(cfg));
    if t.result.Some? {
      var k := t.requests;
      var c := ContentOf(client)(transport(k).data).value;
      assert t.result.value == Trim(c);
      TrimIdempotent(c);
    }
  }

  /** `client.chat(...)` on whichever backend was built. */
  method ChatWith(client: Client, cfg: Config, messages: seq<ChatMessage>, options: Option<ChatOptions>,
                  transport: nat -> Outcome)
    returns (r: Option<string>, ghost sent: seq<HttpRequest>, ghost waited: seq<int>)
    ensures var t := Run(transport, if client.DeepSeek? then DeepSeekClient.Content else OllamaClient.Content,
                         1, RetryAttempts(cfg));
            r == t.result && |sent| == t.requests && |waited| == t.waits
    ensures r == Reply(client, cfg, transport)
    ensures r.Some? ==> RetryAttempts(cfg) >= 1
  {
    match client {
      case DeepSeek(c) =>
        r, sent, waited := DeepSeekClient.Chat(c, cfg, messages, options, transport);
        RunShape(transport, DeepSeekClient.Content, 1, RetryAttempts(cfg));
      case Ollama(c) =>
        r, sent, waited := OllamaClient.Chat(c, cfg, messages, options, transport);
        RunShape(transport, OllamaClient.Content, 1, RetryAttempts(cfg));
    }
  }
}
