# StoryFold core in Dafny

StoryFold is a VS Code extension for staged creative writing. A writer's initial
requirements become a brief. The brief becomes an outline with notes. The outline leads
to sample passages, then a final work, then a multi-role review and an age-suitability
self-check. Each stage asks a chat model (a hosted DeepSeek endpoint or a local Ollama
server) for text. Each stage falls back to a fixed placeholder when no model is
configured or the model says nothing. The result is stored as `{ "text": … }` in the
project's `.storyfold` directory. For the final work there is also a refinement loop.
*Assess* asks the model for a JSON array of suggestions, and the suggestions are
normalised into typed records. *Revise* asks the model to apply the chosen suggestions.
Progress is tracked in a persisted per-phase state file: the phase, the round number and
the open round. Beside the stages sit:

- an editor that opens one string field of a JSON file in a temporary document and
  writes it back on save;
- archives, which snapshot the five stage documents, list them newest first and clone
  them back.

The Dafny project models this core. There is one module per source file:

| module | models |
|---|---|
| `Base`, `Strings`, `Json`, `Files` | shared: `Option`, the three outcomes of reading a stored document, JavaScript's `trim`/`slice`/`indexOf`/`String(n)`, decoded JSON values, and the file store with its directories |
| `RefinementTypes` | `src/types/refinement.ts` |
| `RefinementState` | `src/storage/refinementState.ts` |
| `Config` | the `ConfigManager` getters of `src/utils.ts` |
| `ChatTransport`, `DeepSeekClient`, `OllamaClient`, `LlmClient` | the retry loop shared by both clients, the two clients and the factory |
| `ProjectLayout` | `src/storage/projectLayout.ts` |
| `Stage` | what every generation stage shares: a two-message request, the reply, the optional placeholder |
| `RequirementsWorkflow` … `AgeCheckWorkflow` | the six generation stages |
| `AssessWorkflow`, `ReviseWorkflow` | the two refinement stages |
| `JsonFieldEditor` | `src/storage/jsonFieldEditor.ts` |
| `ArchiveManager` | `src/storage/archiveManager.ts` |

How the model is built:

- **Stage functions.** Every stage is a pure function of its inputs, of the client the
  factory builds and of the chat reply. It returns the text, the request it sends and
  the notice it shows. A method beside it performs the same steps against the file
  store, and is proved equal to the function.
- **Chat.** A call is a loop over attempts. The network is an oracle `transport: nat ->
  Outcome`: attempt *k* either fails (a thrown request) or responds with a decoded body.
  Requests sent and one-second waits are counted in ghost out-parameters.
- **State.** The refinement state store and the JSON-field registry are classes whose
  methods change their fields the way the source mutates its objects and files.
  Archive listing sorts an array in place.
- **Inputs from outside** are parameters:
  - clock readings (`now`, `idTime`, `createdAt`);
  - the workspace folders;
  - the configuration map;
  - whether a write throws;
  - the directory listing;
  - `JSON.parse` of model text (`decode: string -> Option<Json>`, where `None` means it
    throws).

Points where the code's behaviour is easy to misread:

- A missing suggestion `id` becomes `String(i + 1)`, where `i` is the element's index
  in the decoded array, counting the elements that are later dropped.
- The open round's number equals `state.round` after the increment.
- `getAgeCheckJsonPath` is imported by the age-check stage but is not defined in
  `src/storage/projectLayout.ts`. It is not part of this model: the age-check path is a
  parameter, `ageCheckPath: Option<string>`.
- The parser's bracket extraction follows the greedy regular expression `\[[\s\S]*\]`:
  from the first `[` to the last `]`, and only when that `]` comes after that `[`.

## Model

| member | source | states |
|---|---|---|
| RefinementState.StateStore.Read | src/storage/refinementState.ts:28-37 | no state exactly when the path is undefined, the file is absent or it does not parse; otherwise the stored file |
| RefinementState.StateStore.Write | src/storage/refinementState.ts:42-46 | a defined path replaces the file, so a later read returns exactly what was written; without a path nothing changes |
| RefinementState.StateStore.GetOrInitState | src/storage/refinementState.ts:51-60 | a same-phase file is returned and nothing is written; otherwise a default state for the phase is written (when there is a path) and returned; the round invariant is kept |
| RefinementState.InitIdempotent | src/storage/refinementState.ts:16-23 | initialising what initialisation returned gives it back; a fresh file is `{phase, round 0, maxRounds 3, manual}` with no open round |
| RefinementState.StateStore.UpdateAfterAssess | src/storage/refinementState.ts:65-82 | the new file is the assessed one; it is persisted when there is a path; without a path every assessment gives round 1; the result keeps the round invariant |
| RefinementState.AssessCountsRounds | src/storage/refinementState.ts:65-82 | after k assessments the round is the same-phase round plus k (or k after a missing or other-phase file); the open round holds the last call's suggestions and time, with `lastAssessedAt` equal to that time |
| RefinementState.StateStore.UpdateAfterRevise | src/storage/refinementState.ts:87-94 | the written and returned file is the revised one; the round invariant is kept |
| RefinementState.ReviseKeepsProgress | src/storage/refinementState.ts:87-94 | a same-phase revise closes the round and stamps `lastRevisedAt`; round, cap, mode, `lastAssessedAt` and every other state field are kept; otherwise it is exactly `getOrInitState` |
| RefinementState.AssessThenRevise | src/storage/refinementState.ts:65-94 | revising right after an assessment keeps the round the assessment set and closes the open round |
| RefinementState.StateStore.EndRefinement | src/storage/refinementState.ts:99-104 | a same-phase file is written back with only its open round cleared; otherwise nothing is written |
| RefinementState.EndKeepsState | src/storage/refinementState.ts:99-104 | ending produces a file to write exactly for a same-phase file, and that file differs from the stored one only in its open round, which is cleared |
| RefinementState.TransitionsKeepConsistency | src/storage/refinementState.ts:51-104 | initialise, assess, revise and end all keep "an open round is numbered like the state" |
| AssessWorkflow.ValidTypeSpec | src/workflow/refinementAssessWorkflow.ts:100-103 | the coerced type is the input when the input names one of the six types, and `other` otherwise |
| AssessWorkflow.ValidTypeRoundTrip | src/workflow/refinementAssessWorkflow.ts:100-103 | coercing a type's own name gives that type back |
| AssessWorkflow.ValidSeveritySpec | src/workflow/refinementAssessWorkflow.ts:105-108 | a severity is kept exactly when the value is the string `info`, `suggestion` or `should_fix`, and is absent otherwise |
| AssessWorkflow.ExtractArrayTextSpec | src/workflow/refinementAssessWorkflow.ts:73-76 | when some `[` precedes some `]`, the extracted text runs from the first `[` to the last `]`; otherwise it is the whole text |
| AssessWorkflow.ExtractArrayTextAt | src/workflow/refinementAssessWorkflow.ts:73-76 | the positions of the first `[` and the last `]` determine the extracted slice |
| AssessWorkflow.Accept | src/workflow/refinementAssessWorkflow.ts:82-92 | an element is kept exactly when it is an object with a string `summary`; its id is `String(id)` or the 1-based array index; its type and severity are coerced; `detail` and `anchor` are present exactly when not null |
| AssessWorkflow.CollectMatchesIndices | src/workflow/refinementAssessWorkflow.ts:80-94 | the k-th suggestion comes from the k-th accepted element, and there are no more suggestions than elements |
| AssessWorkflow.IndicesIncrease | src/workflow/refinementAssessWorkflow.ts:80-94 | the accepted elements appear in array order |
| AssessWorkflow.IndicesComplete | src/workflow/refinementAssessWorkflow.ts:80-94 | every acceptable element is among those kept |
| AssessWorkflow.CollectSpec | src/workflow/refinementAssessWorkflow.ts:80-94 | the output is exactly the acceptable elements, in order, each read at its own array index |
| AssessWorkflow.CollectAll | src/workflow/refinementAssessWorkflow.ts:81-93 | the push loop produces the collected suggestions |
| AssessWorkflow.ParseSuggestions | src/workflow/refinementAssessWorkflow.ts:72-98 | trims, extracts and decodes the reply; a failed decode or a non-array gives []; an array gives its collected elements |
| AssessWorkflow.ParseExampleWrapped | src/workflow/refinementAssessWorkflow.ts:72-92 | `here you go: [{"summary":"fix X"}] thanks` gives one suggestion with id "1", type other and no severity |
| AssessWorkflow.ParseExampleNoArray | src/workflow/refinementAssessWorkflow.ts:72-98 | `no array here` is decoded whole and, not being JSON, gives no suggestions |
| AssessWorkflow.ParseExampleDropped | src/workflow/refinementAssessWorkflow.ts:80-94 | of `[{"summary":"a"},{"type":"logic"}]` only the first element is kept, with id "1" |
| AssessWorkflow.AssessPromptSpec | src/workflow/refinementAssessWorkflow.ts:49-52 | the prompt is the fixed head plus the content (or `（暂无正文）`); a non-blank review context adds the heading and its first 2000 characters, and a blank one adds nothing |
| AssessWorkflow.AssessOutcomes | src/workflow/refinementAssessWorkflow.ts:35-69 | the model is asked only in the final phase with a client; a missing client gives the notice; a missing or blank reply gives no suggestions; every suggestion is an accepted element of the decoded array |
| AssessWorkflow.RunAssess | src/workflow/refinementAssessWorkflow.ts:35-69 | the method's result is the `Assess` value for the configured client and the transport's reply |
| ReviseWorkflow.SuggestionLines | src/workflow/refinementReviseWorkflow.ts:44-46 | one rendered line per suggestion, in input order |
| ReviseWorkflow.SuggestionsTextAppend | src/workflow/refinementReviseWorkflow.ts:44-46 | no suggestions render as ""; one renders as its line; concatenated lists render joined by a newline |
| ReviseWorkflow.ReviseOutcomes | src/workflow/refinementReviseWorkflow.ts:30-72 | the model is asked only in the final phase with a client; the content changes only to the trimmed non-blank answer; what is written is what is returned; a write failure returns the original with an error message |
| ReviseWorkflow.ReviseTakesAnswer | src/workflow/refinementReviseWorkflow.ts:50-58 | a non-empty client answer is taken as the revision exactly |
| ReviseWorkflow.RunRevise | src/workflow/refinementReviseWorkflow.ts:30-72 | the result is the `Revise` value; `final.json` becomes `{text}` exactly when something was written; the directory is made only once the model was asked |
| ChatTransport.Attempts | src/llm/deepseekClient.ts:33-61 | the loop's result and its counts of requests and waits are those of `Run`; every request is the same one, and every wait is 1000 ms |
| ChatTransport.RunShape | src/llm/deepseekClient.ts:33-61 | no request exactly when no attempt is allowed; otherwise all attempts before the last one made failed, there is one wait per failure, the last attempt gives the result, and a failure is last only on attempt N |
| ChatTransport.AlwaysFailing | src/llm/deepseekClient.ts:51-58 | a transport that always fails gives N requests, N-1 waits and no result |
| ChatTransport.MalformedStops | src/llm/deepseekClient.ts:45-50 | a first response without string content stops at once: one request, no wait, no result |
| ChatTransport.NoAttempts | src/llm/deepseekClient.ts:33-61 | with `retryAttempts <= 0` nothing is sent and there is no result |
| DeepSeekClient.Content | src/llm/deepseekClient.ts:45-46 | content is found only as the string `choices[0].message.content` |
| DeepSeekClient.RequestShape | src/llm/deepseekClient.ts:20-43 | the request posts to `https://api.deepseek.com/v1/chat/completions` with `Authorization: Bearer <apiKey>`, the model and messages with the option temperature (else the configured one), and a timeout of the configured seconds times 1000 |
| DeepSeekClient.Chat | src/llm/deepseekClient.ts:20-62 | every request goes to `https://api.deepseek.com/v1/chat/completions` with `Bearer <apiKey>`, the messages in order, the option temperature or the configured one, and the timeout in ms; the result is the loop's |
| OllamaClient.StripTrailingSlash | src/llm/ollamaClient.ts:16 | at most one trailing `/` is removed, and only when present |
| OllamaClient.NewClient | src/llm/ollamaClient.ts:15-18 | the client keeps the model and the base URL without its trailing slash |
| OllamaClient.Content | src/llm/ollamaClient.ts:43-44 | content is found only as the string `message.content` |
| OllamaClient.Chat | src/llm/ollamaClient.ts:20-59 | every request goes to `baseUrl + "/api/chat"` without streaming, with the temperature under `options` and the timeout in ms; the result is the loop's |
| LlmClient.GetLlmClient | src/llm/llmClient.ts:26-50 | deepseek: a client exactly when the key is not blank, holding the untrimmed key; ollama: none exactly when the URL or the model is empty; any other platform: none |
| LlmClient.FactoryDefaults | src/llm/llmClient.ts:26-50 | unconfigured there is no client (the key is empty); ollama alone gives `http://localhost:11434` and `llama2` |
| LlmClient.ReplyTrimmed | src/llm/deepseekClient.ts:45-47 | a reply has no whitespace at its ends, so trimming it again changes nothing |
| LlmClient.ChatWith | src/llm/llmClient.ts:19-21 | a chat call on either backend returns the `Reply` value; a reply needs at least one attempt |
| Config.Defaults | src/utils.ts:59-93 | the defaults: platform deepseek, key "", models deepseek-chat and llama2 (else ""), Ollama URL only for ollama, timeout 60, retries 2, temperature 0.7 |
| Config.FallbackOnlyForMissing | src/utils.ts:63-93 | `??` replaces only unset and null settings; any configured value, the empty string included, is returned as is |
| Strings.TrimEmptyIffBlank | src/llm/llmClient.ts:32 | a trimmed string is empty exactly when the input is all whitespace |
| Json.PutThenGet | src/storage/jsonFieldEditor.ts:77 | after assigning a field, reading it gives the assigned value |
| Json.PutKeepsOthers | src/storage/jsonFieldEditor.ts:77 | assigning a field leaves every other field as it was |
| Json.PutKeys | src/storage/jsonFieldEditor.ts:77 | assigning keeps the key order, adding a new key at the end |
| Json.PutIdempotent | src/storage/jsonFieldEditor.ts:77 | assigning the same value twice is assigning it once |
| ProjectLayout.StoryFoldDir | src/storage/projectLayout.ts:11-27 | a non-empty first folder gives exactly `<first folder>/.storyfold`; no folders or an empty first folder give none |
| ProjectLayout.PathOf | src/storage/projectLayout.ts:29-57 | a getter returns `<dir>/<name>` exactly when the directory exists |
| ProjectLayout.DocumentNames | src/storage/projectLayout.ts:29-57 | the six document names are pairwise distinct |
| ProjectLayout.PathsDistinct | src/storage/projectLayout.ts:29-57 | the six getters give six different paths |
| ProjectLayout.GetStoryFoldDir | src/storage/projectLayout.ts:19-27 | returns the directory and creates it; files are untouched |
| ProjectLayout.GetPath | src/storage/projectLayout.ts:29-57 | returns the path and creates the directory; files are untouched |
| RequirementsWorkflow.RequirementsOutcomes | src/workflow/requirementsWorkflow.ts:35-88 | the model is asked exactly with a client and non-blank input, with the trimmed input; the notice shows exactly without a client on non-blank input; blank input gives the no-requirements text; otherwise the text is the header plus the reply, or the placeholder header plus the trimmed input |
| RequirementsWorkflow.RunRequirementsDraft | src/workflow/requirementsWorkflow.ts:35-88 | the result is the `RequirementsDraft` value; `brief.json` becomes `{text}` when the path exists and the write succeeds |
| OutlineWorkflow.OutlineBase | src/workflow/outlineWorkflow.ts:27 | the base is the trimmed brief, or `（尚未提供写作要点）` when the brief is blank |
| OutlineWorkflow.FallbackOutline | src/workflow/outlineWorkflow.ts:72-78 | the fallback is the fixed head, the base verbatim, then the fixed tail |
| OutlineWorkflow.OutlineOutcomes | src/workflow/outlineWorkflow.ts:23-70 | the model is asked exactly with a client; the notice shows exactly without one; a non-empty reply is the outline; otherwise the outline is the fallback around the base |
| OutlineWorkflow.RunOutlineDraft | src/workflow/outlineWorkflow.ts:23-70 | the result is the `OutlineDraft` value; `outline.json` becomes `{text}` when possible |
| SampleWorkflow.OutlineExcerpt | src/workflow/sampleWorkflow.ts:88 | outlines of up to 500 characters appear whole (or `（暂无）`); longer ones give their first 500 characters plus `…`; never more than 501 characters |
| SampleWorkflow.FallbackSampleShape | src/workflow/sampleWorkflow.ts:78-90 | the fallback is the fixed preamble, the brief (or `（暂无）`), the outline heading and the excerpt |
| SampleWorkflow.SampleOutcomes | src/workflow/sampleWorkflow.ts:26-76 | the model is asked exactly with a client; a non-empty reply is used verbatim; otherwise the fallback, which ends with the outline excerpt |
| SampleWorkflow.RunSampleDraft | src/workflow/sampleWorkflow.ts:26-76 | the result is the `SampleDraft` value; `samples.json` becomes `{text}` when possible |
| FinalWorkflow.HasSamplesIffNotBlank | src/workflow/finalWorkflow.ts:41-44 | samples count exactly when given and not blank |
| FinalWorkflow.JoinSection | src/workflow/finalWorkflow.ts:41-44 | an optional samples section adds its heading and the trimmed samples, or nothing |
| FinalWorkflow.FinalSamplesSection | src/workflow/finalWorkflow.ts:35-45 | both the prompt material and the fallback add the samples section exactly when the samples are not blank, with the trimmed samples |
| FinalWorkflow.FallbackFinalShape | src/workflow/finalWorkflow.ts:83-97 | the fallback's fixed lines, with the brief and the outline (each or `（暂无）`) and the optional samples section |
| FinalWorkflow.FinalOutcomes | src/workflow/finalWorkflow.ts:27-81 | the model is asked exactly with a client; a non-empty reply gives exactly the final header followed by the reply; otherwise the fallback |
| FinalWorkflow.RunFinalDraft | src/workflow/finalWorkflow.ts:27-81 | the result is the `FinalDraft` value; `final.json` becomes `{text}` when possible |
| ReviewWorkflow.WorkOrNone | src/workflow/reviewWorkflow.ts:39 | an empty work is shown as `（暂无正文）`, any other verbatim |
| ReviewWorkflow.ReviewOutcomes | src/workflow/reviewWorkflow.ts:31-75 | the model is asked exactly with a client, about the work or its placeholder; a non-empty reply is used verbatim; an empty one gives the no-answer text; no client gives a different please-configure text |
| ReviewWorkflow.RunReview | src/workflow/reviewWorkflow.ts:31-75 | the result is the `ReviewDraft` value; `review.json` becomes `{text}` when possible |
| AgeCheckWorkflow.AgeCheckOutcomes | src/workflow/ageCheckWorkflow.ts:26-70 | the same decision as the review, with the age-check request and texts |
| AgeCheckWorkflow.RunAgeCheck | src/workflow/ageCheckWorkflow.ts:26-70 | the result is the `AgeCheckDraft` value; the age-check file becomes `{text}` when its path is given |
| JsonFieldEditor.InitialText | src/storage/jsonFieldEditor.ts:26-39 | the field's value when the file parses and the field is a string; otherwise the default text or "" |
| JsonFieldEditor.SavedSpec | src/storage/jsonFieldEditor.ts:66-77 | the saved object holds the text in the field and every other field of the stored object; a missing or unparsable file gives an object with only that field |
| JsonFieldEditor.SavedIdempotent | src/storage/jsonFieldEditor.ts:66-80 | saving the same text again leaves the same JSON |
| JsonFieldEditor.SaveThenOpen | src/storage/jsonFieldEditor.ts:19-80 | opening the field after a save shows the saved text |
| JsonFieldEditor.Editor.Open | src/storage/jsonFieldEditor.ts:19-50 | writes the initial text to the temp file and registers it for the target; nothing else changes |
| JsonFieldEditor.Editor.OnSave | src/storage/jsonFieldEditor.ts:55-96 | an unregistered document changes nothing; a registered one writes the saved object unless the value cannot take a field or the write fails; registrations stay |
| ArchiveManager.Sanitize | src/storage/archiveManager.ts:51 | same length; each character outside the allowed class becomes `_` |
| ArchiveManager.SanitizeSpec | src/storage/archiveManager.ts:51 | the result holds only allowed characters; a name is unchanged exactly when it is all allowed; sanitising is idempotent |
| ArchiveManager.ArchiveId | src/storage/archiveManager.ts:51 | the timestamp, plus `-` and the sanitised name only when a non-empty name is given |
| ArchiveManager.ArchivedFilesSpec | src/storage/archiveManager.ts:58-64 | the five archived names are distinct and do not include the refinement state file |
| ArchiveManager.CopyFilesAt | src/storage/archiveManager.ts:66-77 | a target path is overwritten exactly when its source exists and the write to it succeeds, and is kept otherwise |
| ArchiveManager.SaveCopies | src/storage/archiveManager.ts:66-77 | each readable document is copied into the archive; a missing one, or one whose write fails, is skipped |
| ArchiveManager.ArchiveStore.SaveArchive | src/storage/archiveManager.ts:39-87 | no project directory: `null` and no change; a failed `createDirectory`: rejected and no change; otherwise the archive under the new id gets the copies whose writes succeed, then either `{id, createdAt, name}` and the id, or, when the meta write fails, no new meta and a rejection; the project's files are left alone |
| ArchiveManager.MetaFor | src/storage/archiveManager.ts:104-114 | the id is the directory name; an unreadable meta gives `{dir, 0, dir}` |
| ArchiveManager.DirNamesSpec | src/storage/archiveManager.ts:104-105 | exactly the directory entries are listed |
| ArchiveManager.Metas | src/storage/archiveManager.ts:103-115 | one meta per directory, in listing order |
| ArchiveManager.SortDesc | src/storage/archiveManager.ts:117 | the array ends sorted by `createdAt` non-increasing and is a permutation of its start |
| ArchiveManager.ArchiveStore.ListArchives | src/storage/archiveManager.ts:92-119 | an unreadable root gives []; otherwise a permutation of the directories' metas, newest first |
| ArchiveManager.CloneCopies | src/storage/archiveManager.ts:138-148 | each archived document that exists overwrites the project's unless that write fails, others are kept, and the refinement state file is never touched |
| ArchiveManager.ArchiveStore.CloneArchive | src/storage/archiveManager.ts:124-152 | true exactly when there is a project directory, even when some writes fail; the documents copied are the ones that exist in the archive and whose writes succeed |

## Left out

- The wording of the system prompts: it is a set of symbolic constants. The user prompts
  that embed the inputs are modelled.
- Logger, the output channel, `showInformationMessage`/`showErrorMessage` (modelled only
  as the notice a stage returns), webview refresh, temp editors and every other VS Code
  API.
- The webview, the command wiring in `src/extension.ts` and the prompt manager.
- HTTP, real timeouts and the awaited one-second sleep: the transport oracle and the
  ghost counts stand for them.
- Concurrency between overlapping calls: the source does no locking.
- `JSON.parse`/`JSON.stringify`: files hold decoded values. Model text is decoded by an
  abstract parameter.
- Duplicate keys in objects: lookup takes the first occurrence.
- Non-integer JSON numbers, and integers beyond what a double holds exactly:
  `JNum` holds an unbounded `int` and `IntToString` gives every digit. In the source
  integers above 2^53 lose precision, and `String(n)` gives exponent notation from
  1e21.
- Key order as JavaScript enumerates integer-like field names.
- Floating-point temperatures: they are passed through as `real` constants, with no
  arithmetic.
- Non-integer retry and timeout settings.
- Characters outside the Basic Multilingual Plane: a Dafny `char` is a Unicode scalar
  value, so such a character is one `char` in the model and two UTF-16 code units in
  the source. No Unicode normalisation is done. Three results differ for such text:
  - `ArchiveManager.Sanitize` turns one such character into one `_`, where the source's
    regular expression without the `u` flag gives `__`.
  - `SampleWorkflow.OutlineExcerpt` cuts at 500 characters, where the source cuts at 500
    code units.
  - `AssessWorkflow.AssessPrompt` cuts the review context at 2000 characters, where the
    source cuts at 2000 code units.
- Path normalisation by `path.join`: paths are `dir + "/" + name`.
- `Date.now()`, `Math.random()` and temp-file names are parameters.
- Exceptions from the state store's `writeFileSync` are not modelled.
- Temp-file write failures in the editor are not modelled.
- RefinementState.StateStore.Read: a state file that parses to a value that is not a
  state record cannot be held in `disk`. The source casts the parsed value unchecked.
  For a truthy wrong-shaped value such as `{}`, reading `existing.state.phase` throws in
  `getOrInitState`, `updateAfterRevise` and `endRefinement`, and the error escapes
  assess and revise; the model has no such outcome. A falsy value such as `null` reads as
  no state, as `Absent` and `Unparsable` do here.
- RefinementState: `maxRounds` is recorded but never enforced. The source enforces
  nothing either.
- Assessing brief, outline or sample phases: the source gates both refinement stages on
  `final`.
- JsonFieldEditor.Editor.OnSave: a parsed value that is not an object leaves the file as
  it was. For null or a primitive the assignment throws. For an array the property is
  dropped when it is written back.
- ArchiveManager.MetaFor: a meta file that parses but lacks a numeric `createdAt` is not
  distinguished. Archive metas are held as decoded records.
- ArchiveManager.SortDesc: the contract does not state the order among equal
  `createdAt` values. `Array.prototype.sort` is stable and insertion sort is too, but
  stability is not proved.
- ArchiveManager.ArchiveStore.ListArchives: the order of `readDirectory` is taken as
  given.
- `getAgeCheckJsonPath` is not part of this model: the age-check file's path is a
  parameter.
