/** Stage 4: the finished work ("最终作品") from the brief, the outline and, when
    given, the sample passages. */
module FinalWorkflow {
  import opened Base
  import opened Strings
  import opened Files
  import opened ProjectLayout
  import opened Config
  import opened ChatTransport
  import opened LlmClient
  import opened Stage

  /** Stands for the fixed instruction text `SYSTEM_PROMPT_FINAL`. */
  const SystemPromptFinal: string := "SYSTEM_PROMPT_FINAL"
  const NoClientNotice: string := "未配置 LLM，已使用占位最终作品。"
  const FinalHeader: string := "【最终作品】\n\n"
  const MaterialSamplesHeading: string := "\n\n【样张样段（供参考）】\n"
  const FallbackSamplesHeading: string := "\n\n=== 样张样段（供参考） ===\n"

  /** `samplesText && samplesText.trim().length > 0`. */
  predicate HasSamples(samplesText: Option<string>) {
    samplesText.Some? && |Trim(samplesText.value)| > 0
  }

  /** The samples count exactly when they are given and not blank. */
  lemma HasSamplesIffNotBlank(samplesText: Option<string>)
    ensures HasSamples(samplesText) <==> samplesText.Some? && !IsBlank(samplesText.value)
  {
    if samplesText.Some? {
      TrimEmptyIffBlank(samplesText.value);
    }
  }

  /** The optional trailing section: a heading and the trimmed samples. */
  function SamplesSection(heading: string, samplesText: Option<string>): seq<string> {
    if HasSamples(samplesText) then [heading, Trim(samplesText.value)] else []
  }

  function MaterialParts(briefText: string, outlineText: string): seq<string> {
    ["【写作要点】\n", OrNone(briefText), "\n\n【提纲及其备注】\n", OrNone(outlineText)]
  }

  function FallbackParts(briefText: string, outlineText: string): seq<string> {
    ["【最终作品（占位草稿）】\n\n", "（根据提纲及其备注生成完整作品需配置 LLM。）\n",
     "\n=== 写作要点（供参考） ===\n", OrNone(briefText),
     "\n\n=== 提纲及其备注（供参考） ===\n", OrNone(outlineText)]
  }

  /** The material sent to the model: `parts.join('')`. */
  function FinalMaterial(briefText: string, outlineText: string, samplesText: Option<string>): string {
    Join(MaterialParts(briefText, outlineText) + SamplesSection(MaterialSamplesHeading, samplesText), "")
  }

  /** `buildFallbackFinal`. */
  function FallbackFinal(briefText: string, outlineText: string, samplesText: Option<string>): string {
    Join(FallbackParts(briefText, outlineText) + SamplesSection(FallbackSamplesHeading, samplesText), "")
  }

  /** Joining with nothing in between: two more parts are simply appended. */
  lemma JoinTwoMore(parts: seq<string>, heading: string, t: string)
    requires |parts| > 0
    ensures Join(parts + [heading, t], "") == Join(parts, "") + (heading + t)
  {
    var section := [heading, t];
    assert section[..1] == [heading];
    assert Join(section, "") == Join([heading], "") + "" + t;
    JoinAppend(parts, section, "");
  }

  /** Joining with nothing in between: the optional section is simply appended. */
  lemma JoinSection(parts: seq<string>, heading: string, samplesText: Option<string>)
    requires |parts| > 0
    ensures Join(parts + SamplesSection(heading, samplesText), "") ==
              Join(parts, "") + if HasSamples(samplesText) then heading + Trim(samplesText.value) else ""
  {
    if HasSamples(samplesText) {
      JoinTwoMore(parts, heading, Trim(samplesText.value));
    } else {
      assert parts + SamplesSection(heading, samplesText) == parts;
    }
  }

  /** Both the request material and the fallback end with the trimmed samples under
      their heading exactly when the samples are not blank, and are otherwise the
      fixed parts alone. */
  lemma FinalSamplesSection(briefText: string, outlineText: string, samplesText: Option<string>)
    ensures HasSamples(samplesText) <==> samplesText.Some? && !IsBlank(samplesText.value)
    ensures FinalMaterial(briefText, outlineText, samplesText) ==
              Join(MaterialParts(briefText, outlineText), "")
              + if HasSamples(samplesText) then MaterialSamplesHeading + Trim(samplesText.value) else ""
    ensures FallbackFinal(briefText, outlineText, samplesText) ==
              Join(FallbackParts(briefText, outlineText), "")
              + if HasSamples(samplesText) then FallbackSamplesHeading + Trim(samplesText.value) else ""
  {
    HasSamplesIffNotBlank(samplesText);
    JoinSection(MaterialParts(briefText, outlineText), MaterialSamplesHeading, samplesText);
    JoinSection(FallbackParts(briefText, outlineText), FallbackSamplesHeading, samplesText);
  }

  function FinalCall(briefText: string, outlineText: string, samplesText: Option<string>): ChatCall {
    Prompt(SystemPromptFinal, "请根据以下材料创作最终作品：\n\n" + FinalMaterial(briefText, outlineText, samplesText), 0.7)
  }

  /** `runFinalDraft` up to the write. */
  function FinalDraft(briefText: string, outlineText: string, samplesText: Option<string>,
                      client: Option<Client>, reply: Option<string>): Draft {
    if client.Some? then
      Draft(if HasText(reply) then FinalHeader + reply.value else FallbackFinal(briefText, outlineText, samplesText),
            Some(FinalCall(briefText, outlineText, samplesText)), None)
    else
      Draft(FallbackFinal(briefText, outlineText, samplesText), None, Some(NoClientNotice))
  }

  /** A non-empty answer is kept whole under the header; anything else gives the
      fallback, which still quotes both inputs. */
  lemma FinalOutcomes(briefText: string, outlineText: string, samplesText: Option<string>,
                      client: Option<Client>, reply: Option<string>)
    ensures var d := FinalDraft(briefText, outlineText, samplesText, client, reply);
            && (d.call.Some? <==> client.Some?)
            && (d.notice.Some? <==> client.None?)
            && (client.Some? && HasText(reply) ==> d.text == FinalHeader + reply.value)
            && (!(client.Some? && HasText(reply)) ==> d.text == FallbackFinal(briefText, outlineText, samplesText))
  {
  }

  /** The fallback: the fixed lines with both inputs quoted, then the samples section
      when the samples are not blank. */
  lemma FallbackFinalShape(briefText: string, outlineText: string, samplesText: Option<string>)
    ensures FallbackFinal(briefText, outlineText, samplesText) ==
              "【最终作品（占位草稿）】\n\n" + "（根据提纲及其备注生成完整作品需配置 LLM。）\n"
              + "\n=== 写作要点（供参考） ===\n" + OrNone(briefText)
              + "\n\n=== 提纲及其备注（供参考） ===\n" + OrNone(outlineText)
              + if HasSamples(samplesText) then FallbackSamplesHeading + Trim(samplesText.value) else ""
  {
    FinalSamplesSection(briefText, outlineText, samplesText);
    var l := FallbackParts(briefText, outlineText);
    ConcatPrefix(l, 2);
    ConcatPrefix(l, 3);
    ConcatPrefix(l, 4);
    ConcatPrefix(l, 5);
    ConcatPrefix(l, 6);
    assert l[..6] == l;
  }

  /** `runFinalDraft`: decide the work, then store it in `final.json`. */
  method RunFinalDraft(store: FileStore, folders: seq<string>, cfg: Config, transport: nat -> Outcome,
                       briefText: string, outlineText: string, samplesText: Option<string>, writeFails: bool)
    returns (d: Draft)
    modifies store
    ensures d == FinalDraft(briefText, outlineText, samplesText, GetLlmClient(cfg), ReplyFor(cfg, transport))
    ensures store.files == WithTextDoc(old(store.files), PathOf(folders, FinalFile), d.text, writeFails)
    ensures store.dirs == WithStoryFoldDir(old(store.dirs), folders)
  {
    var client := GetLlmClient(cfg);
    var reply: Option<string> := None;
    if client.Some? {
      reply := Ask(cfg, transport, FinalCall(briefText, outlineText, samplesText));
    }
    d := FinalDraft(briefText, outlineText, samplesText, client, reply);
    var path := GetPath(store, folders, FinalFile);
    store.WriteTextDoc(path, d.text, writeFails);
  }
}
