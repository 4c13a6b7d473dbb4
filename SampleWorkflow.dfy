/** Stage 3: a trial passage ("样段") written from the brief and the outline. */
module SampleWorkflow {
  import opened Base
  import opened Strings
  import opened Files
  import opened ProjectLayout
  import opened Config
  import opened ChatTransport
  import opened LlmClient
  import opened Stage

  /** Stands for the fixed instruction text `SYSTEM_PROMPT_SAMPLE`. */
  const SystemPromptSample: string := "SYSTEM_PROMPT_SAMPLE"
  const NoClientNotice: string := "未配置 LLM，已使用占位样段。"
  /** How many characters of the outline the fallback quotes. */
  const ExcerptLength: nat := 500

  /** The material sent to the model: both inputs under their headings, one line each
      part. */
  function SampleMaterial(briefText: string, outlineText: string): string {
    Join(["【写作要点】", OrNone(briefText), "", "【提纲及其备注】", OrNone(outlineText)], "\n")
  }

  /** The outline as the fallback quotes it: at most 500 characters, with an ellipsis
      exactly when something was cut. */
  function OutlineExcerpt(outlineText: string): (r: string)
    ensures |outlineText| <= ExcerptLength ==> r == OrNone(outlineText)
    ensures |outlineText| > ExcerptLength ==> r == outlineText[..ExcerptLength] + "…"
    ensures |r| <= ExcerptLength + 1
  {
    Take(OrNone(outlineText), ExcerptLength) + (if outlineText != [] && |outlineText| > ExcerptLength then "…" else "")
  }

  /** The fallback's opening lines, up to the quoted brief. */
  const SamplePreamble: string :=
    "【样段（占位草稿）】" + "\n" + "" + "\n" + "（根据写作要点与提纲及其备注生成样段需配置 LLM。）" + "\n" + "" + "\n"
    + "=== 写作要点（供参考） ===" + "\n"

  /** The lines between the quoted brief and the quoted outline. */
  const OutlineHeading: string := "\n" + "" + "\n" + "=== 提纲及其备注（供参考） ===" + "\n"

  /** `buildFallbackSample`. */
  function FallbackSample(briefText: string, outlineText: string): string {
    Join(["【样段（占位草稿）】", "", "（根据写作要点与提纲及其备注生成样段需配置 LLM。）", "",
          "=== 写作要点（供参考） ===", OrNone(briefText), "",
          "=== 提纲及其备注（供参考） ===", OutlineExcerpt(outlineText)], "\n")
  }

  /** The fallback is a fixed preamble, the brief, and the outline excerpt as its
      last line. */
  lemma FallbackSampleShape(briefText: string, outlineText: string)
    ensures FallbackSample(briefText, outlineText) ==
              SamplePreamble + OrNone(briefText) + OutlineHeading + OutlineExcerpt(outlineText)
  {
    var sep := "\n";
    var brief := OrNone(briefText);
    var excerpt := OutlineExcerpt(outlineText);
    JoinNine("【样段（占位草稿）】", "", "（根据写作要点与提纲及其备注生成样段需配置 LLM。）", "",
             "=== 写作要点（供参考） ===", brief, "", "=== 提纲及其备注（供参考） ===", excerpt, sep);
    ConcatRegroup(SamplePreamble + brief, sep, "", sep, "=== 提纲及其备注（供参考） ===", sep, excerpt);
  }

  /** Five pieces appended one by one are the same as appended as one. */
  lemma ConcatRegroup(q: string, b1: string, b2: string, b3: string, b4: string, b5: string, e: string)
    ensures q + b1 + b2 + b3 + b4 + b5 + e == q + (b1 + b2 + b3 + b4 + b5) + e
  {
  }

  /** Nine parts joined by a separator, written out. */
  lemma JoinNine(a0: string, a1: string, a2: string, a3: string, a4: string, a5: string, a6: string, a7: string,
                 a8: string, sep: string)
    ensures Join([a0, a1, a2, a3, a4, a5, a6, a7, a8], sep) ==
              a0 + sep + a1 + sep + a2 + sep + a3 + sep + a4 + sep + a5 + sep + a6 + sep + a7 + sep + a8
  {
    var l := [a0, a1, a2, a3, a4, a5, a6, a7, a8];
    assert l[..9] == l;
    assert Join(l[..1], sep) == a0;
    JoinPrefix(l, 2, sep);
    JoinPrefix(l, 3, sep);
    JoinPrefix(l, 4, sep);
    JoinPrefix(l, 5, sep);
    JoinPrefix(l, 6, sep);
    JoinPrefix(l, 7, sep);
    JoinPrefix(l, 8, sep);
    JoinPrefix(l, 9, sep);
  }

  function SampleCall(briefText: string, outlineText: string): ChatCall {
    Prompt(SystemPromptSample, "请根据以下材料试写一段样章/样段：\n\n" + SampleMaterial(briefText, outlineText), 0.7)
  }

  /** `runSampleDraft` up to the write: the model's answer verbatim, or the fallback. */
  function SampleDraft(briefText: string, outlineText: string, client: Option<Client>, reply: Option<string>): Draft {
    if client.Some? then
      Draft(if HasText(reply) then reply.value else FallbackSample(briefText, outlineText),
            Some(SampleCall(briefText, outlineText)), None)
    else
      Draft(FallbackSample(briefText, outlineText), None, Some(NoClientNotice))
  }

  /** A short outline is quoted whole; a long one is cut at 500 characters and marked. */
  lemma SampleOutcomes(briefText: string, outlineText: string, client: Option<Client>, reply: Option<string>)
    ensures var d := SampleDraft(briefText, outlineText, client, reply);
            && (d.call.Some? <==> client.Some?)
            && (client.Some? && HasText(reply) ==> d.text == reply.value)
            && (!(client.Some? && HasText(reply)) && |outlineText| <= ExcerptLength ==>
                  d.text == SamplePreamble + OrNone(briefText) + OutlineHeading + OrNone(outlineText))
            && (!(client.Some? && HasText(reply)) && |outlineText| > ExcerptLength ==>
                  d.text == SamplePreamble + OrNone(briefText) + OutlineHeading + outlineText[..ExcerptLength] + "…")
  {
    FallbackSampleShape(briefText, outlineText);
  }

  /** `runSampleDraft`: decide the passage, then store it in `samples.json`. */
  method RunSampleDraft(store: FileStore, folders: seq<string>, cfg: Config, transport: nat -> Outcome,
                        briefText: string, outlineText: string, writeFails: bool)
    returns (d: Draft)
    modifies store
    ensures d == SampleDraft(briefText, outlineText, GetLlmClient(cfg), ReplyFor(cfg, transport))
    ensures store.files == WithTextDoc(old(store.files), PathOf(folders, SamplesFile), d.text, writeFails)
    ensures store.dirs == WithStoryFoldDir(old(store.dirs), folders)
  {
    var client := GetLlmClient(cfg);
    var reply: Option<string> := None;
    if client.Some? {
      reply := Ask(cfg, transport, SampleCall(briefText, outlineText));
    }
    d := SampleDraft(briefText, outlineText, client, reply);
    var path := GetPath(store, folders, SamplesFile);
    store.WriteTextDoc(path, d.text, writeFails);
  }
}
