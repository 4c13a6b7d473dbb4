/** The revise step of the refinement loop: ask the model to apply the accepted
    suggestions to the finished work and write the revision back to `final.json`. */
module ReviseWorkflow {
  import opened Base
  import opened Strings
  import opened Json
  import opened Files
  import opened ProjectLayout
  import opened Config
  import opened ChatTransport
  import opened LlmClient
  import opened Stage
  import opened RefinementTypes

  /** Stands for the fixed instruction text `SYSTEM_PROMPT_REVISE_FINAL`. */
  const SystemPromptReviseFinal: string := "SYSTEM_PROMPT_REVISE_FINAL"
  const NoClientNotice: string := "未配置 LLM，无法执行修订。"
  const FailureNotice: string := "修订失败，请查看输出面板。"
  const SuggestionsHeading: string := "\n\n【修改建议（请逐条落实）】\n\n"

  /** One suggestion as a list line: `- [type] summary`, and the detail indented on a
      second line when it is non-empty. */
  function SuggestionLine(s: RefinementSuggestion): string {
    "- [" + TypeName(s.kind) + "] " + s.summary + if s.detail.Some? && s.detail.value != "" then "\n  " + s.detail.value else ""
  }

  function SuggestionLines(suggestions: seq<RefinementSuggestion>): (lines: seq<string>)
    ensures |lines| == |suggestions|
    ensures forall i :: 0 <= i < |suggestions| ==> lines[i] == SuggestionLine(suggestions[i])
  {
    seq(|suggestions|, i requires 0 <= i < |suggestions| => SuggestionLine(suggestions[i]))
  }

  /** The suggestions block: one line (or two) per suggestion. */
  function SuggestionsText(suggestions: seq<RefinementSuggestion>): string {
    Join(SuggestionLines(suggestions), "\n")
  }

  /** The block is built suggestion by suggestion: none gives nothing, one gives its
      line, and two lists give their blocks one line apart. */
  lemma SuggestionsTextAppend(a: seq<RefinementSuggestion>, b: seq<RefinementSuggestion>)
    ensures SuggestionsText([]) == ""
    ensures |a| == 1 ==> SuggestionsText(a) == SuggestionLine(a[0])
    ensures |a| > 0 && |b| > 0 ==> SuggestionsText(a + b) == SuggestionsText(a) + "\n" + SuggestionsText(b)
  {
    if |a| > 0 && |b| > 0 {
      assert SuggestionLines(a + b) == SuggestionLines(a) + SuggestionLines(b);
      JoinAppend(SuggestionLines(a), SuggestionLines(b), "\n");
    }
  }

  /** The user message: the current work (or `（空）`) and the suggestions block. */
  function RevisePrompt(content: string, suggestions: seq<RefinementSuggestion>): string {
    "【当前正文】\n\n" + (if content == "" then "（空）" else content) + SuggestionsHeading + SuggestionsText(suggestions)
  }

  function ReviseCall(content: string, suggestions: seq<RefinementSuggestion>): ChatCall {
    Prompt(SystemPromptReviseFinal, RevisePrompt(content, suggestions), 0.3)
  }

  datatype Notice = InfoNotice(infoText: string) | ErrorNotice(errorText: string)

  /** What `runRevise` returns, the request it made, the message it showed and the
      text it wrote to `final.json`. */
  datatype ReviseRun = ReviseRun(
    revisedContent: string,
    call: Option<ChatCall>,
    notice: Option<Notice>,
    written: Option<string>)

  /** `result && result.trim() ? result.trim() : input.content`. */
  function Revision(content: string, reply: Option<string>): string {
    if reply.Some? && Trim(reply.value) != [] then Trim(reply.value) else content
  }

  /** `runRevise` as a value. `finalPath` is what `getFinalJsonPath` returns and
      `writeFails` whether writing it throws, which the `catch` turns into the
      original content and an error message. */
  function Revise(phase: RefinementPhase, content: string, suggestions: seq<RefinementSuggestion>,
                  client: Option<Client>, reply: Option<string>, finalPath: Option<string>, writeFails: bool): ReviseRun {
    if phase != Final then ReviseRun(content, None, None, None)
    else if client.None? then ReviseRun(content, None, Some(InfoNotice(NoClientNotice)), None)
    else
      var call := Some(ReviseCall(content, suggestions));
      var revised := Revision(content, reply);
      if finalPath.None? then ReviseRun(revised, call, None, None)
      else if writeFails then ReviseRun(content, call, Some(ErrorNotice(FailureNotice)), None)
      else ReviseRun(revised, call, None, Some(revised))
  }

  /** What a revision can do: it changes the content only to a non-blank trimmed
      answer, whatever is written is exactly what is returned, and a failed write
      leaves the caller with the original and an error message. */
  lemma ReviseOutcomes(phase: RefinementPhase, content: string, suggestions: seq<RefinementSuggestion>,
                       client: Option<Client>, reply: Option<string>, finalPath: Option<string>, writeFails: bool)
    ensures var r := Revise(phase, content, suggestions, client, reply, finalPath, writeFails);
            && (r.call.Some? <==> phase == Final && client.Some?)
            && (r.revisedContent != content ==> reply.Some? && !IsBlank(reply.value) && r.revisedContent == Trim(reply.value))
            && (reply.None? || IsBlank(reply.value) ==> r.revisedContent == content)
            && (r.written.Some? ==> r.written.value == r.revisedContent && finalPath.Some? && !writeFails)
            && (r.written.Some? <==> phase == Final && client.Some? && finalPath.Some? && !writeFails)
            && (r.notice == Some(ErrorNotice(FailureNotice)) <==> phase == Final && client.Some? && finalPath.Some? && writeFails)
  {
    if reply.Some? {
      TrimEmptyIffBlank(reply.value);
    }
  }

  /** A non-empty answer from a client is the revision itself, since the client hands
      it back trimmed. */
  lemma ReviseTakesAnswer(content: string, suggestions: seq<RefinementSuggestion>, client: Client, cfg: Config,
                          transport: nat -> Outcome, finalPath: Option<string>)
    requires HasText(Reply(client, cfg, transport))
    ensures Revise(Final, content, suggestions, Some(client), Reply(client, cfg, transport), finalPath, false).revisedContent
            == Reply(client, cfg, transport).value
  {
    ReplyEdges(client, cfg, transport);
    TrimmedAnswerTaken(content, suggestions, client, Reply(client, cfg, transport), finalPath);
  }

  /** A trimmed, non-empty answer is taken as it is. */
  lemma TrimmedAnswerTaken(content: string, suggestions: seq<RefinementSuggestion>, client: Client, reply: Option<string>,
                           finalPath: Option<string>)
    requires HasText(reply) && !IsWs(reply.value[0]) && !IsWs(reply.value[|reply.value| - 1])
    ensures Revise(Final, content, suggestions, Some(client), reply, finalPath, false).revisedContent == reply.value
  {
    TrimNoEdgeWs(reply.value);
  }

  /** `runRevise` against the file store. */
  method RunRevise(store: FileStore, folders: seq<string>, cfg: Config, transport: nat -> Outcome,
                   phase: RefinementPhase, content: string, suggestions: seq<RefinementSuggestion>, writeFails: bool)
    returns (r: ReviseRun)
    modifies store
    ensures r == Revise(phase, content, suggestions, GetLlmClient(cfg), ReplyFor(cfg, transport), PathOf(folders, FinalFile), writeFails)
    ensures store.files == if r.written.Some? then old(store.files)[PathOf(folders, FinalFile).value := Doc(TextDoc(r.written.value))]
                           else old(store.files)
    ensures store.dirs == if r.call.Some? then WithStoryFoldDir(old(store.dirs), folders) else old(store.dirs)
  {
    if phase != Final {
      return ReviseRun(content, None, None, None);
    }
    var client := GetLlmClient(cfg);
    if client.None? {
      return ReviseRun(content, None, Some(InfoNotice(NoClientNotice)), None);
    }
    var call := ReviseCall(content, suggestions);
    var reply := Ask(cfg, transport, call);
    var revised := Revision(content, reply);
    var path := GetPath(store, folders, FinalFile);
    if path.None? {
      return ReviseRun(revised, Some(call), None, None);
    }
    if writeFails {
      return ReviseRun(content, Some(call), Some(ErrorNotice(FailureNotice)), None);
    }
    store.WriteFile(path.value, Doc(TextDoc(revised)));
    r := ReviseRun(revised, Some(call), None, Some(revised));
  }
}
