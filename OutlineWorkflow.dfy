/** Stage 2: from the brief to an annotated outline ("提纲及其备注"). */
module OutlineWorkflow {
  import opened Base
  import opened Strings
  import opened Files
  import opened ProjectLayout
  import opened Config
  import opened ChatTransport
  import opened LlmClient
  import opened Stage

  /** Stands for the fixed instruction text `SYSTEM_PROMPT_OUTLINE`. */
  const SystemPromptOutline: string := "SYSTEM_PROMPT_OUTLINE"
  const NoBrief: string := "（尚未提供写作要点）"
  const NoClientNotice: string := "未配置 LLM，已使用占位提纲及其备注。"
  const FallbackHead: string := "【提纲及其备注（占位草稿）】\n\n- 基于写作要点：\n"
  const FallbackTail: string := "\n\n- 请配置 LLM 后重新运行流程，生成带设定与场景备注的提纲。"

  /** `briefText.trim() || '（尚未提供写作要点）'`. */
  function OutlineBase(briefText: string): (r: string)
    ensures IsBlank(briefText) ==> r == NoBrief
    ensures !IsBlank(briefText) ==> r == Trim(briefText)
  {
    TrimEmptyIffBlank(briefText);
    if Trim(briefText) == [] then NoBrief else Trim(briefText)
  }

  /** `fallbackOutline`: the base quoted between a fixed head and tail. */
  function FallbackOutline(base: string): (r: string)
    ensures |r| == |FallbackHead| + |base| + |FallbackTail|
    ensures r[..|FallbackHead|] == FallbackHead
    ensures r[|FallbackHead|..|FallbackHead| + |base|] == base
    ensures r[|FallbackHead| + |base|..] == FallbackTail
  {
    FallbackHead + base + FallbackTail
  }

  function OutlineCall(base: string): ChatCall {
    Prompt(SystemPromptOutline, "请根据以下写作要点，生成「提纲及其备注」：\n\n" + base, 0.6)
  }

  /** `runOutlineDraft` up to the write. */
  function OutlineDraft(briefText: string, client: Option<Client>, reply: Option<string>): Draft {
    var base := OutlineBase(briefText);
    if client.Some? then
      Draft(if HasText(reply) then Trim(reply.value) else FallbackOutline(base), Some(OutlineCall(base)), None)
    else
      Draft(FallbackOutline(base), None, Some(NoClientNotice))
  }

  /** With the configured client the outline is the model's answer itself (the
      client already trimmed it), and otherwise the fallback quoting the brief. */
  lemma OutlineOutcomes(briefText: string, cfg: Config, transport: nat -> Outcome)
    ensures var client := GetLlmClient(cfg);
            var reply := ReplyFor(cfg, transport);
            var d := OutlineDraft(briefText, client, reply);
            && (d.call.Some? <==> client.Some?)
            && (d.notice.Some? <==> client.None?)
            && (client.Some? && HasText(reply) ==> d.text == reply.value)
            && (!HasText(reply) ==> d.text == FallbackOutline(OutlineBase(briefText)))
  {
    if GetLlmClient(cfg).Some? {
      ReplyTrimmed(GetLlmClient(cfg).value, cfg, transport);
    }
  }

  /** `runOutlineDraft`: decide the outline, then store it in `outline.json`. */
  method RunOutlineDraft(store: FileStore, folders: seq<string>, cfg: Config, transport: nat -> Outcome,
                         briefText: string, writeFails: bool)
    returns (d: Draft)
    modifies store
    ensures d == OutlineDraft(briefText, GetLlmClient(cfg), ReplyFor(cfg, transport))
    ensures store.files == WithTextDoc(old(store.files), PathOf(folders, OutlineFile), d.text, writeFails)
    ensures store.dirs == WithStoryFoldDir(old(store.dirs), folders)
  {
    var client := GetLlmClient(cfg);
    var base := OutlineBase(briefText);
    var reply: Option<string> := None;
    if client.Some? {
      reply := Ask(cfg, transport, OutlineCall(base));
    }
    d := OutlineDraft(briefText, client, reply);
    var path := GetPath(store, folders, OutlineFile);
    store.WriteTextDoc(path, d.text, writeFails);
  }
}
