/** Multi-role review ("多角色审读") of the finished work, kept in `review.json`. */
module ReviewWorkflow {
  import opened Base
  import opened Strings
  import opened Files
  import opened ProjectLayout
  import opened Config
  import opened ChatTransport
  import opened LlmClient
  import opened Stage

  /** Stands for the fixed instruction text `SYSTEM_PROMPT_REVIEW`. */
  const SystemPromptReview: string := "SYSTEM_PROMPT_REVIEW"
  const NoText: string := "（暂无正文）"
  const NoClientNotice: string := "未配置 LLM，无法进行多角色审读。"
  const NoAnswerText: string := "【审读（占位）】\n未配置 LLM 或未返回内容，请配置后重试。"
  const NoClientText: string := "【审读（占位）】\n请先配置 LLM 后再进行多角色审读。"

  /** `finalText || '（暂无正文）'`. */
  function WorkOrNone(finalText: string): (r: string)
    ensures r != []
    ensures finalText != [] ==> r == finalText
  {
    if finalText == [] then NoText else finalText
  }

  function ReviewCall(finalText: string): ChatCall {
    Prompt(SystemPromptReview, "请对以下最终作品进行多角色审读：\n\n" + WorkOrNone(finalText), 0.3)
  }

  /** `runReview` up to the write. */
  function ReviewDraft(finalText: string, client: Option<Client>, reply: Option<string>): Draft {
    if client.Some? then
      Draft(if HasText(reply) then reply.value else NoAnswerText, Some(ReviewCall(finalText)), None)
    else
      Draft(NoClientText, None, Some(NoClientNotice))
  }

  /** The review is the model's answer when there is one, else one of two distinct
      placeholders telling "no client" from "no answer"; the request quotes the
      work, or the placeholder for none. */
  lemma ReviewOutcomes(finalText: string, client: Option<Client>, reply: Option<string>)
    ensures var d := ReviewDraft(finalText, client, reply);
            && (d.call.Some? <==> client.Some?)
            && (d.notice.Some? <==> client.None?)
            && (d.call.Some? ==> d.call.value.messages[1].content[|"请对以下最终作品进行多角色审读：\n\n"|..] == WorkOrNone(finalText))
            && (client.Some? && HasText(reply) ==> d.text == reply.value)
            && (client.Some? && !HasText(reply) ==> d.text == NoAnswerText)
            && (client.None? ==> d.text == NoClientText)
            && NoAnswerText != NoClientText
  {
    assert NoAnswerText[9] != NoClientText[9];
  }

  /** `runReview`: decide the review, then store it in `review.json`. */
  method RunReview(store: FileStore, folders: seq<string>, cfg: Config, transport: nat -> Outcome,
                   finalText: string, writeFails: bool)
    returns (d: Draft)
    modifies store
    ensures d == ReviewDraft(finalText, GetLlmClient(cfg), ReplyFor(cfg, transport))
    ensures store.files == WithTextDoc(old(store.files), PathOf(folders, ReviewFile), d.text, writeFails)
    ensures store.dirs == WithStoryFoldDir(old(store.dirs), folders)
  {
    var client := GetLlmClient(cfg);
    var reply: Option<string> := None;
    if client.Some? {
      reply := Ask(cfg, transport, ReviewCall(finalText));
    }
    d := ReviewDraft(finalText, client, reply);
    var path := GetPath(store, folders, ReviewFile);
    store.WriteTextDoc(path, d.text, writeFails);
  }
}
