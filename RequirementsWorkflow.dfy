/** Stage 1: turn the author's raw requirements into a brief ("写作要点"). */
module RequirementsWorkflow {
  import opened Base
  import opened Strings
  import opened Files
  import opened ProjectLayout
  import opened Config
  import opened ChatTransport
  import opened LlmClient
  import opened Stage

  /** Stands for the fixed instruction text `SYSTEM_PROMPT_BRIEF`. */
  const SystemPromptBrief: string := "SYSTEM_PROMPT_BRIEF"
  const NoRequirements: string := "（尚未提供需求内容）"
  const PlaceholderHeader: string := "【写作要点（占位草稿）】\n\n"
  const BriefHeader: string := "【写作要点】\n\n"
  const NoClientNotice: string :=
    "未配置 LLM API 密钥（如 DeepSeek），已使用占位草稿。请在设置中配置 storyfold.llm.apiKeys.deepseek 后重新运行流程。"

  /** The placeholder brief for already trimmed requirements. */
  function Placeholder(trimmed: string): string {
    if trimmed == [] then NoRequirements else PlaceholderHeader + trimmed
  }

  function BriefCall(trimmed: string): ChatCall {
    Prompt(SystemPromptBrief, "请根据以下初步需求，整理成一份写作要点：\n\n" + trimmed, 0.7)
  }

  /** `runRequirementsDraft` up to the write: the model is asked only when a client
      exists and the trimmed requirements are not empty. */
  function RequirementsDraft(rawText: string, client: Option<Client>, reply: Option<string>): Draft {
    var trimmed := Trim(rawText);
    if client.Some? && |trimmed| > 0 then
      Draft(if HasText(reply) then BriefHeader + reply.value else Placeholder(trimmed), Some(BriefCall(trimmed)), None)
    else
      Draft(Placeholder(trimmed), None, if client.None? && |trimmed| > 0 then Some(NoClientNotice) else None)
  }

  /** Every outcome of the stage, stated on the raw requirements: blank ones give the
      fixed text and no request; otherwise a non-empty answer is headed, and anything
      else falls back to the trimmed requirements under the placeholder header. The
      request carries the trimmed requirements. */
  lemma RequirementsOutcomes(rawText: string, client: Option<Client>, reply: Option<string>)
    ensures var d := RequirementsDraft(rawText, client, reply);
            && (d.call.Some? <==> client.Some? && !IsBlank(rawText))
            && (d.call.Some? ==> d.call.value == BriefCall(Trim(rawText)))
            && (d.notice.Some? <==> client.None? && !IsBlank(rawText))
            && (IsBlank(rawText) ==> d.text == NoRequirements)
            && (!IsBlank(rawText) && client.Some? && HasText(reply) ==> d.text == BriefHeader + reply.value)
            && (!IsBlank(rawText) && (client.None? || !HasText(reply)) ==> d.text == PlaceholderHeader + Trim(rawText))
  {
    TrimEmptyIffBlank(rawText);
  }

  /** `runRequirementsDraft`: decide the brief, then store it as `{ text }` in
      `brief.json` when the project has a directory. */
  method RunRequirementsDraft(store: FileStore, folders: seq<string>, cfg: Config, transport: nat -> Outcome,
                              rawText: string, writeFails: bool)
    returns (d: Draft)
    modifies store
    ensures d == RequirementsDraft(rawText, GetLlmClient(cfg), ReplyFor(cfg, transport))
    ensures store.files == WithTextDoc(old(store.files), PathOf(folders, BriefFile), d.text, writeFails)
    ensures store.dirs == WithStoryFoldDir(old(store.dirs), folders)
  {
    var client := GetLlmClient(cfg);
    var trimmed := Trim(rawText);
    var reply: Option<string> := None;
    if client.Some? && |trimmed| > 0 {
      reply := Ask(cfg, transport, BriefCall(trimmed));
    }
    d := RequirementsDraft(rawText, client, reply);
    var path := GetPath(store, folders, BriefFile);
    store.WriteTextDoc(path, d.text, writeFails);
  }
}
