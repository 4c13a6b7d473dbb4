/** `ConfigManager`: the `storyfold.*` settings with their defaults. A setting may be
    unset (its key is absent from the map, `undefined` in the source) or explicitly
    `null` (`Some(None)`). */
module Config {
  import opened Base

  datatype Config = Config(
    strings: map<string, Option<string>>,
    ints: map<string, Option<int>>,
    reals: map<string, Option<real>>)

  /** `config.get(key, default) ?? default`: the configured value when it is neither
      unset nor null, else the default. */
  function Setting<T>(m: map<string, Option<T>>, key: string, default: T): T {
    if key in m && m[key].Some? then m[key].value else default
  }

  /** `getPlatform`: defaults to "deepseek" when unset. There is no `??` here, so an
      explicit null reads as null (`None`). */
  function Platform(c: Config): Option<string> {
    if "llm.platform" in c.strings then c.strings["llm.platform"] else Some("deepseek")
  }

  function ApiKey(c: Config, platform: string): string {
    Setting(c.strings, "llm.apiKeys." + platform, "")
  }

  /** The built-in model for each platform. */
  function DefaultModel(platform: string): string {
    if platform == "deepseek" then "deepseek-chat"
    else if platform == "ollama" then "llama2"
    else ""
  }

  function Model(c: Config, platform: string): string {
    Setting(c.strings, "llm.models." + platform, DefaultModel(platform))
  }

  /** The built-in base URL: only the local backend has one. */
  function DefaultBaseUrl(platform: string): string {
    if platform == "ollama" then "http://localhost:11434" else ""
  }

  function BaseUrl(c: Config, platform: string): string {
    Setting(c.strings, "llm.baseUrl." + platform, DefaultBaseUrl(platform))
  }

  function TimeoutSeconds(c: Config): int {
    Setting(c.ints, "llm.timeout", 60)
  }

  function RetryAttempts(c: Config): int {
    Setting(c.ints, "llm.retryAttempts", 2)
  }

  /** The default sampling temperature; temperatures are passed through untouched. */
  function Temperature(c: Config): real {
    Setting(c.reals, "llm.temperature", 0.7)
  }

  /** The configuration with nothing set. */
  const Unconfigured := Config(map[], map[], map[])

  /** The defaults table, read through every getter of an empty configuration. */
  lemma Defaults(platform: string)
    ensures Platform(Unconfigured) == Some("deepseek")
    ensures ApiKey(Unconfigured, platform) == ""
    ensures Model(Unconfigured, "deepseek") == "deepseek-chat"
    ensures Model(Unconfigured, "ollama") == "llama2"
    ensures platform != "deepseek" && platform != "ollama" ==> Model(Unconfigured, platform) == ""
    ensures BaseUrl(Unconfigured, "ollama") == "http://localhost:11434"
    ensures platform != "ollama" ==> BaseUrl(Unconfigured, platform) == ""
    ensures TimeoutSeconds(Unconfigured) == 60 && RetryAttempts(Unconfigured) == 2
    ensures Temperature(Unconfigured) == 0.7
  {
  }

  /** `??` falls back only for unset and null settings: any configured value, the empty
      string included, is returned as it is, and a null one reads as the default. */
  lemma FallbackOnlyForMissing<T>(m: map<string, Option<T>>, key: string, default: T, v: T)
    ensures Setting(m[key := Some(v)], key, default) == v
    ensures Setting(m[key := None], key, default) == default
    ensures Setting(m - {key}, key, default) == default
  {
  }
}
