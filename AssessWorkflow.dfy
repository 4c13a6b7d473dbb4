/** The assess step of the refinement loop: ask the model for improvement
    suggestions on the finished work and parse its answer into typed suggestions. */
module AssessWorkflow {
  import opened Base
  import opened Strings
  import opened Json
  import opened Config
  import opened ChatTransport
  import opened LlmClient
  import opened Stage
  import opened RefinementTypes

  /** Stands for the fixed instruction text `SYSTEM_PROMPT_ASSESS_FINAL`. */
  const SystemPromptAssessFinal: string := "SYSTEM_PROMPT_ASSESS_FINAL"
  const NoClientNotice: string := "未配置 LLM，无法进行改进判断。"
  const PromptHead: string := "请对以下「最终作品」做改进评估，输出 JSON 数组格式的建议列表：\n\n"
  const ContextHeading: string := "\n\n【参考：已有审读/适龄意见】\n"
  /** How many characters of the review context are quoted. */
  const ContextLimit: nat := 2000

  /** `validType`. */
  function ValidType(s: string): SuggestionType {
    if s == "consistency" then Consistency
    else if s == "completeness" then Completeness
    else if s == "style" then Style
    else if s == "safety" then Safety
    else if s == "logic" then Logic
    else Other
  }

  /** A known type name gives that type, anything else `other`. */
  lemma ValidTypeSpec(s: string)
    ensures TypeName(ValidType(s)) == s || (ValidType(s) == Other && forall t :: TypeName(t) != s)
  {
  }

  /** Writing a type and reading it back gives the same type. */
  lemma ValidTypeRoundTrip(t: SuggestionType)
    ensures ValidType(TypeName(t)) == t
  {
    ValidTypeSpec(TypeName(t));
  }

  /** `validSeverity`. */
  function ValidSeverity(v: Option<Json>): Option<Severity> {
    match v
    case Some(JStr(s)) =>
      if s == "info" then Some(Info)
      else if s == "suggestion" then Some(Suggestion)
      else if s == "should_fix" then Some(ShouldFix)
      else None
    case _ => None
  }

  /** Only the three exact strings are severities, and each reads back as itself. */
  lemma ValidSeveritySpec(v: Option<Json>)
    ensures ValidSeverity(v).Some? ==> v == Some(JStr(SeverityName(ValidSeverity(v).value)))
    ensures ValidSeverity(v).None? ==> forall sv :: v != Some(JStr(SeverityName(sv)))
  {
  }

  /** `x != null`: present and not JSON null. */
  predicate Given(v: Option<Json>) {
    v.Some? && !v.value.JNull?
  }

  /** `String(x)` of a property that `!= null` lets through. */
  function StringOf(v: Option<Json>): Option<string> {
    if Given(v) then Some(JsString(v.value)) else None
  }

  /** The text the regular expression `\[[\s\S]*\]` picks out: from the first `[` to
      the last `]`, when a `]` follows the first `[`; otherwise the whole text. */
  function ExtractArrayText(t: string): string {
    match (IndexOf(t, '['), LastIndexOf(t, ']'))
    case (Some(a), Some(b)) => if a < b then t[a..b + 1] else t
    case _ => t
  }

  /** What the extraction means: the longest bracketed span when some `[` comes
      before some `]`, and the text untouched otherwise. */
  lemma ExtractArrayTextSpec(t: string)
    ensures (exists a, b :: 0 <= a < b < |t| && t[a] == '[' && t[b] == ']') ==>
              exists a, b :: && 0 <= a < b < |t| && ExtractArrayText(t) == t[a..b + 1]
                             && t[a] == '[' && t[b] == ']' && '[' !in t[..a] && ']' !in t[b + 1..]
    ensures !(exists a, b :: 0 <= a < b < |t| && t[a] == '[' && t[b] == ']') ==> ExtractArrayText(t) == t
  {
    if a0, b0 :| 0 <= a0 < b0 < |t| && t[a0] == '[' && t[b0] == ']' {
      assert t[a0] in t;
      assert t[b0] in t;
      var a := IndexOf(t, '[').value;
      var b := LastIndexOf(t, ']').value;
      assert a < b;
    }
  }

  /** Locating the first `[` and the last `]` is enough to know the extracted text. */
  lemma ExtractArrayTextAt(t: string, a: nat, b: nat)
    requires a < b < |t| && t[a] == '[' && t[b] == ']'
    requires forall k :: 0 <= k < a ==> t[k] != '['
    requires forall k :: b < k < |t| ==> t[k] != ']'
    ensures ExtractArrayText(t) == t[a..b + 1]
  {
    assert t[a] in t && t[b] in t;
  }

  /** One array element of the answer, read as a suggestion at index `i`: kept
      exactly when it is an object whose `summary` is a string. A missing or null
      `id` becomes the element's 1-based position in the array. */
  function Accept(item: Json, i: nat): (r: Option<RefinementSuggestion>)
    ensures r.Some? <==> item.JObj? && Member(item, "summary").Some? && Member(item, "summary").value.JStr?
    ensures r.Some? ==> && r.value.summary == Member(item, "summary").value.s
                        && r.value.kind == ValidType(if Given(Member(item, "type")) then JsString(Member(item, "type").value) else "other")
                        && r.value.severity == ValidSeverity(Member(item, "severity"))
                        && r.value.id == (if Given(Member(item, "id")) then JsString(Member(item, "id").value) else NatToString(i + 1))
                        && r.value.detail == StringOf(Member(item, "detail"))
                        && r.value.anchor == StringOf(Member(item, "anchor"))
  {
    match Member(item, "summary")
    case Some(JStr(summary)) =>
      Some(RefinementSuggestion(
        if Given(Member(item, "id")) then JsString(Member(item, "id").value) else NatToString(i + 1),
        ValidType(if Given(Member(item, "type")) then JsString(Member(item, "type").value) else "other"),
        summary,
        StringOf(Member(item, "detail")),
        StringOf(Member(item, "anchor")),
        ValidSeverity(Member(item, "severity"))))
    case _ => None
  }

  /** What `accept` keeps of one element. The parsing functions below take the
      per-element reading as a parameter; the parser uses `Accept`. */
  function Kept(accept: (Json, nat) -> Option<RefinementSuggestion>, item: Json, i: nat): seq<RefinementSuggestion> {
    match accept(item, i)
    case Some(s) => [s]
    case None => []
  }

  /** The suggestions kept from the first `n` elements, in array order. */
  function Collect(accept: (Json, nat) -> Option<RefinementSuggestion>, items: seq<Json>, n: nat): seq<RefinementSuggestion>
    requires n <= |items|
  {
    if n == 0 then [] else Collect(accept, items, n - 1) + Kept(accept, items[n - 1], n - 1)
  }

  /** One more element adds what is kept of it. */
  lemma CollectStep(accept: (Json, nat) -> Option<RefinementSuggestion>, items: seq<Json>, i: nat)
    requires i < |items|
    ensures Collect(accept, items, i + 1) == Collect(accept, items, i) + Kept(accept, items[i], i)
  {
  }

  /** The positions of the kept elements among the first `n`. */
  function AcceptedIndices(accept: (Json, nat) -> Option<RefinementSuggestion>, items: seq<Json>, n: nat): seq<nat>
    requires n <= |items|
  {
    if n == 0 then []
    else AcceptedIndices(accept, items, n - 1) + if accept(items[n - 1], n - 1).Some? then [n - 1] else []
  }

  /** The k-th kept suggestion is what `accept` makes of the k-th accepted position. */
  lemma {:induction false} CollectMatchesIndices(accept: (Json, nat) -> Option<RefinementSuggestion>, items: seq<Json>, n: nat)
    requires n <= |items|
    ensures var c := Collect(accept, items, n);
            var ix := AcceptedIndices(accept, items, n);
            && |c| == |ix| <= n
            && forall k :: 0 <= k < |ix| ==> ix[k] < n && accept(items[ix[k]], ix[k]) == Some(c[k])
  {
    if n > 0 {
      CollectMatchesIndices(accept, items, n - 1);
    }
  }

  /** The accepted positions are strictly increasing. */
  lemma {:induction false} IndicesIncrease(accept: (Json, nat) -> Option<RefinementSuggestion>, items: seq<Json>, n: nat)
    requires n <= |items|
    ensures forall k :: 0 <= k < |AcceptedIndices(accept, items, n)| ==> AcceptedIndices(accept, items, n)[k] < n
    ensures forall k, l :: 0 <= k < l < |AcceptedIndices(accept, items, n)| ==>
              AcceptedIndices(accept, items, n)[k] < AcceptedIndices(accept, items, n)[l]
  {
    if n > 0 {
      IndicesIncrease(accept, items, n - 1);
      var prev := AcceptedIndices(accept, items, n - 1);
      var ix := AcceptedIndices(accept, items, n);
      forall k, l | 0 <= k < l < |ix|
        ensures ix[k] < ix[l]
      {
        assert ix[k] == prev[k];
        if l < |prev| {
          assert ix[l] == prev[l];
        }
      }
    }
  }

  /** Every position `accept` keeps is among the accepted positions. */
  lemma {:induction false} IndicesComplete(accept: (Json, nat) -> Option<RefinementSuggestion>, items: seq<Json>, n: nat)
    requires n <= |items|
    ensures forall i :: 0 <= i < n && accept(items[i], i).Some? ==> i in AcceptedIndices(accept, items, n)
  {
    if n > 0 {
      IndicesComplete(accept, items, n - 1);
      var prev := AcceptedIndices(accept, items, n - 1);
      var ix := AcceptedIndices(accept, items, n);
      assert ix[..|prev|] == prev;
      forall i | 0 <= i < n && accept(items[i], i).Some?
        ensures i in ix
      {
        if i < n - 1 {
          var k :| 0 <= k < |prev| && prev[k] == i;
          assert ix[k] == i;
        } else {
          assert ix[|ix| - 1] == i;
        }
      }
    }
  }

  /** Parsing keeps every accepted element and only those, in their order. */
  lemma CollectSpec(accept: (Json, nat) -> Option<RefinementSuggestion>, items: seq<Json>, n: nat)
    requires n <= |items|
    ensures var c := Collect(accept, items, n);
            var ix := AcceptedIndices(accept, items, n);
            && |c| == |ix| <= n
            && (forall k :: 0 <= k < |ix| ==> ix[k] < n && accept(items[ix[k]], ix[k]) == Some(c[k]))
            && (forall k, l :: 0 <= k < l < |ix| ==> ix[k] < ix[l])
            && (forall i :: 0 <= i < n && accept(items[i], i).Some? ==> i in ix)
  {
    CollectMatchesIndices(accept, items, n);
    IndicesIncrease(accept, items, n);
    IndicesComplete(accept, items, n);
  }

  /** `parseSuggestions` as a value: no array, or JSON that does not parse, gives no
      suggestions. `decode` is `JSON.parse`, with `None` where it throws. */
  function Parsed(raw: string, decode: string -> Option<Json>): seq<RefinementSuggestion> {
    match decode(ExtractArrayText(Trim(raw)))
    case Some(JArr(items)) => Collect(Accept, items, |items|)
    case _ => []
  }

  /** The parse depends on the reply only through the extracted text: an array
      gives what is collected from its elements. */
  lemma ParsedArray(raw: string, decode: string -> Option<Json>, arr: string, items: seq<Json>)
    requires ExtractArrayText(Trim(raw)) == arr && decode(arr) == Some(JArr(items))
    ensures Parsed(raw, decode) == Collect(Accept, items, |items|)
  {
  }

  /** Extracted text that does not decode gives nothing. */
  lemma ParsedNothing(raw: string, decode: string -> Option<Json>, arr: string)
    requires ExtractArrayText(Trim(raw)) == arr && decode(arr).None?
    ensures Parsed(raw, decode) == []
  {
  }

  // Three replies and what the parser makes of them. `decode` is only assumed to
  // read the extracted text as `JSON.parse` would.

  const WrappedArray := "[{\"summary\":\"fix X\"}]"
  const WrappedReply := "here you go: " + WrappedArray + " thanks"
  const NoArrayReply := "no array here"
  const TwoItemArray := "[{\"summary\":\"a\"},{\"type\":\"logic\"}]"

  lemma WrappedTrim()
    ensures Trim(WrappedReply) == WrappedReply
  {
    TrimNoEdgeWs(WrappedReply);
  }

  lemma WrappedExtract()
    ensures ExtractArrayText(WrappedReply) == WrappedArray
  {
    assert WrappedReply[13..34] == WrappedArray;
    ExtractArrayTextAt(WrappedReply, 13, 33);
  }

  lemma WrappedItems()
    ensures Collect(Accept, [JObj([("summary", JStr("fix X"))])], 1) ==
              [RefinementSuggestion("1", Other, "fix X", None, None, None)]
  {
    assert NatToString(1) == "1";
  }

  /** A reply with chatter around the array: the array is cut out, and its one element
      gets the fallback id "1", type `other` and no severity. */
  lemma ParseExampleWrapped(decode: string -> Option<Json>)
    requires decode(WrappedArray) == Some(JArr([JObj([("summary", JStr("fix X"))])]))
    ensures Parsed(WrappedReply, decode) == [RefinementSuggestion("1", Other, "fix X", None, None, None)]
  {
    WrappedTrim();
    WrappedExtract();
    ParsedArray(WrappedReply, decode, WrappedArray, [JObj([("summary", JStr("fix X"))])]);
    WrappedItems();
  }

  /** A reply without brackets is decoded whole; text that does not decode gives no
      suggestions. */
  lemma ParseExampleNoArray(decode: string -> Option<Json>)
    requires decode(NoArrayReply).None?
    ensures Parsed(NoArrayReply, decode) == []
  {
    NoArrayTrim();
    NoArrayExtract();
    ParsedNothing(NoArrayReply, decode, NoArrayReply);
  }

  lemma NoArrayTrim()
    ensures Trim(NoArrayReply) == NoArrayReply
  {
    TrimNoEdgeWs(NoArrayReply);
  }

  lemma NoArrayExtract()
    ensures ExtractArrayText(NoArrayReply) == NoArrayReply
  {
    assert forall k :: 0 <= k < |NoArrayReply| ==> NoArrayReply[k] != '[';
    assert IndexOf(NoArrayReply, '[').None?;
  }

  lemma TwoItemTrim()
    ensures Trim(TwoItemArray) == TwoItemArray
  {
    TrimNoEdgeWs(TwoItemArray);
  }

  lemma TwoItemExtract()
    ensures ExtractArrayText(TwoItemArray) == TwoItemArray
  {
    assert TwoItemArray[0..|TwoItemArray|] == TwoItemArray;
    ExtractArrayTextAt(TwoItemArray, 0, |TwoItemArray| - 1);
  }

  lemma TwoItemItems()
    ensures Collect(Accept, [JObj([("summary", JStr("a"))]), JObj([("type", JStr("logic"))])], 2) ==
              [RefinementSuggestion("1", Other, "a", None, None, None)]
  {
    assert NatToString(1) == "1";
  }

  /** An element without a `summary` is dropped; the kept one keeps its position as
      its id. */
  lemma ParseExampleDropped(decode: string -> Option<Json>)
    requires decode(TwoItemArray) == Some(JArr([JObj([("summary", JStr("a"))]), JObj([("type", JStr("logic"))])]))
    ensures Parsed(TwoItemArray, decode) == [RefinementSuggestion("1", Other, "a", None, None, None)]
  {
    TwoItemTrim();
    TwoItemExtract();
    ParsedArray(TwoItemArray, decode, TwoItemArray, [JObj([("summary", JStr("a"))]), JObj([("type", JStr("logic"))])]);
    TwoItemItems();
  }

  /** The `forEach` over the decoded array. */
  method CollectAll(arr: seq<Json>) returns (out: seq<RefinementSuggestion>)
    ensures out == Collect(Accept, arr, |arr|)
  {
    out := [];
    var i := 0;
    while i < |arr|
      invariant 0 <= i <= |arr|
      invariant out == Collect(Accept, arr, i)
    {
      var kept := Kept(Accept, arr[i], i);
      CollectStep(Accept, arr, i);
      out := out + kept;
      i := i + 1;
    }
  }

  /** `parseSuggestions`. */
  method ParseSuggestions(raw: string, decode: string -> Option<Json>) returns (out: seq<RefinementSuggestion>)
    ensures out == Parsed(raw, decode)
  {
    var jsonStr := ExtractArrayText(Trim(raw));
    var parsed := decode(jsonStr);
    if parsed.Some? && parsed.value.JArr? {
      out := CollectAll(parsed.value.items);
    } else {
      out := [];
    }
  }

  /** The user message: the work (or a placeholder), then at most 2000 characters of the
      review context when it is not blank. */
  function AssessPrompt(content: string, reviewContext: Option<string>): string {
    var text := PromptHead + (if content == "" then "（暂无正文）" else content);
    if reviewContext.Some? && reviewContext.value != "" && Trim(reviewContext.value) != "" then
      text + ContextHeading + Take(reviewContext.value, ContextLimit)
    else text
  }

  /** The context is quoted, cut to its first 2000 characters, exactly when it is given
      and not blank. */
  lemma AssessPromptSpec(content: string, reviewContext: Option<string>)
    ensures var base := PromptHead + (if content == "" then "（暂无正文）" else content);
            var p := AssessPrompt(content, reviewContext);
            && p[..|base|] == base
            && (reviewContext.None? || IsBlank(reviewContext.value) ==> p == base)
            && (reviewContext.Some? && !IsBlank(reviewContext.value) ==>
                  var excerpt := p[|base| + |ContextHeading|..];
                  && p[|base|..|base| + |ContextHeading|] == ContextHeading
                  && |excerpt| == (if |reviewContext.value| <= ContextLimit then |reviewContext.value| else ContextLimit)
                  && excerpt == reviewContext.value[..|excerpt|])
  {
    if reviewContext.Some? {
      TrimEmptyIffBlank(reviewContext.value);
    }
  }

  function AssessCall(content: string, reviewContext: Option<string>): ChatCall {
    Prompt(SystemPromptAssessFinal, AssessPrompt(content, reviewContext), 0.2)
  }

  /** What `runAssess` returns, the request it made and the message it showed. */
  datatype AssessRun = AssessRun(suggestions: seq<RefinementSuggestion>, call: Option<ChatCall>, notice: Option<string>)

  /** `runAssess`: only the final phase is assessed, only with a client, and a blank
      answer gives no suggestions. */
  function Assess(phase: RefinementPhase, content: string, reviewContext: Option<string>,
                  client: Option<Client>, reply: Option<string>, decode: string -> Option<Json>): AssessRun {
    if phase != Final then AssessRun([], None, None)
    else if client.None? then AssessRun([], None, Some(NoClientNotice))
    else
      var call := Some(AssessCall(content, reviewContext));
      if reply.None? || Trim(reply.value) == [] then AssessRun([], call, None)
      else AssessRun(Parsed(reply.value, decode), call, None)
  }

  /** The gates, and what a suggestion list can hold: never more suggestions than
      array elements, each one built from an accepted element. */
  lemma AssessOutcomes(phase: RefinementPhase, content: string, reviewContext: Option<string>,
                       client: Option<Client>, reply: Option<string>, decode: string -> Option<Json>)
    ensures var a := Assess(phase, content, reviewContext, client, reply, decode);
            && (a.call.Some? <==> phase == Final && client.Some?)
            && (a.notice.Some? <==> phase == Final && client.None?)
            && (reply.None? || IsBlank(reply.value) ==> a.suggestions == [])
            && (a.suggestions != [] ==>
                  && a.call.Some? && reply.Some?
                  && var j := decode(ExtractArrayText(Trim(reply.value)));
                     && j.Some? && j.value.JArr? && |a.suggestions| <= |j.value.items|
                     && forall k :: 0 <= k < |a.suggestions| ==>
                          exists i :: 0 <= i < |j.value.items| && Accept(j.value.items[i], i) == Some(a.suggestions[k]))
  {
    var a := Assess(phase, content, reviewContext, client, reply, decode);
    if reply.Some? {
      TrimEmptyIffBlank(reply.value);
    }
    if a.suggestions != [] {
      var j := decode(ExtractArrayText(Trim(reply.value)));
      var items := j.value.items;
      CollectSpec(Accept, items, |items|);
      var ix := AcceptedIndices(Accept, items, |items|);
      forall k | 0 <= k < |a.suggestions|
        ensures exists i :: 0 <= i < |items| && Accept(items[i], i) == Some(a.suggestions[k])
      {
        assert Accept(items[ix[k]], ix[k]) == Some(a.suggestions[k]);
      }
    }
  }

  /** `runAssess` with the configured client. It changes nothing: the caller records
      the suggestions in the refinement state. */
  method RunAssess(cfg: Config, transport: nat -> Outcome, phase: RefinementPhase, content: string,
                   reviewContext: Option<string>, decode: string -> Option<Json>)
    returns (a: AssessRun)
    ensures a == Assess(phase, content, reviewContext, GetLlmClient(cfg), ReplyFor(cfg, transport), decode)
  {
    if phase != Final {
      return AssessRun([], None, None);
    }
    var client := GetLlmClient(cfg);
    if client.None? {
      return AssessRun([], None, Some(NoClientNotice));
    }
    var call := AssessCall(content, reviewContext);
    var reply := Ask(cfg, transport, call);
    if reply.None? || Trim(reply.value) == [] {
      return AssessRun([], Some(call), None);
    }
    var parsed := ParseSuggestions(reply.value, decode);
    a := AssessRun(parsed, Some(call), None);
  }
}
