/** Age-suitability self-check ("适龄自检") of the finished work. */
module AgeCheckWorkflow {
  import opened Base
  import opened Strings
  import opened Files
  import opened Config
  import opened ChatTransport
  import opened LlmClient
  import opened Stage
  import ReviewWorkflow

  /** Stands for the fixed instruction text `SYSTEM_PROMPT_AGE`. */
  const SystemPromptAge: string := "SYSTEM_PROMPT_AGE"
  const NoClientNotice: string := "未配置 LLM，无法进行适龄自检。"
  const NoAnswerText: string := "【适龄自检（占位）】\n未配置 LLM 或未返回内容，请配置后重试。"
  const NoClientText: string := "【适龄自检（占位）】\n请先配置 LLM 后再进行适龄自检。"

  function AgeCheckCall(finalText: string): ChatCall {
    Prompt(SystemPromptAge, "请对以下最终作品做适龄自检：\n\n" + ReviewWorkflow.WorkOrNone(finalText), 0.2)
  }

  /** `runAgeCheck` up to the write. */
  function AgeCheckDraft(finalText: string, client: Option<Client>, reply: Option<string>): Draft {
    if client.Some? then
      Draft(if HasText(reply) then reply.value else NoAnswerText, Some(AgeCheckCall(finalText)), None)
    else
      Draft(NoClientText, None, Some(NoClientNotice))
  }

  /** The report is the model's answer when there is one, else one of two distinct
      placeholders; the request quotes the work, or the placeholder for none. */
  lemma AgeCheckOutcomes(finalText: string, client: Option<Client>, reply: Option<string>)
    ensures var d := AgeCheckDraft(finalText, client, reply);
            && (d.call.Some? <==> client.Some?)
            && (d.notice.Some? <==> client.None?)
            && (d.call.Some? ==> d.call.value.messages[1].content[|"请对以下最终作品做适龄自检：\n\n"|..] == ReviewWorkflow.WorkOrNone(finalText))
            && (client.Some? && HasText(reply) ==> d.text == reply.value)
            && (client.Some? && !HasText(reply) ==> d.text == NoAnswerText)
            && (client.None? ==> d.text == NoClientText)
            && NoAnswerText != NoClientText
  {
    assert NoAnswerText[11] != NoClientText[11];
  }

  /** `runAgeCheck`: decide the report and store it at the age-check path, which
      comes from a getter outside this model and is therefore a parameter. */
  method RunAgeCheck(store: FileStore, ageCheckPath: Option<string>, cfg: Config, transport: nat -> Outcome,
                     finalText: string, writeFails: bool)
    returns (d: Draft)
    modifies store
    ensures d == AgeCheckDraft(finalText, GetLlmClient(cfg), ReplyFor(cfg, transport))
    ensures store.files == WithTextDoc(old(store.files), ageCheckPath, d.text, writeFails)
    ensures store.dirs == old(store.dirs)
  {
    var client := GetLlmClient(cfg);
    var reply: Option<string> := None;
    if client.Some? {
      reply := Ask(cfg, transport, AgeCheckCall(finalText));
    }
    d := AgeCheckDraft(finalText, client, reply);
    store.WriteTextDoc(ageCheckPath, d.text, writeFails);
  }
}
