/** The refinement loop's data model: phases, typed suggestions, rounds and the
    persisted state file. Every union of string literals becomes a datatype, every
    optional field an `Option`. */
module RefinementTypes {
  import opened Base

  /** The stage of the writing lifecycle a refinement cycle belongs to. */
  datatype RefinementPhase = Brief | Outline | Sample | Final

  /** The six kinds of suggestion. */
  datatype SuggestionType = Consistency | Completeness | Style | Safety | Logic | Other

  /** How pressing a suggestion is. */
  datatype Severity = Info | Suggestion | ShouldFix

  /** One piece of feedback. `kind` is the source's `type` field (`type` is a Dafny
      keyword). */
  datatype RefinementSuggestion = RefinementSuggestion(
    id: string,
    kind: SuggestionType,
    summary: string,
    detail: Option<string>,
    anchor: Option<string>,
    severity: Option<Severity>)

  /** What the user decided about an open round. */
  datatype UserDecision = AcceptAll | AcceptSelected | Reject | EditThenRetry | Done

  /** One assess-then-decide cycle. Timestamps are milliseconds since the epoch. */
  datatype RefinementRound = RefinementRound(
    round: int,
    assessedAt: int,
    suggestions: seq<RefinementSuggestion>,
    userDecision: Option<UserDecision>,
    acceptedIds: Option<seq<string>>)

  datatype Mode = Manual | Auto

  datatype Scope = Full | Section

  /** The per-phase progress record. `maxRounds` is recorded but nothing enforces it. */
  datatype RefinementState = RefinementState(
    phase: RefinementPhase,
    round: int,
    maxRounds: Option<int>,
    mode: Mode,
    lastAssessedAt: Option<int>,
    lastRevisedAt: Option<int>,
    focus: Option<string>,
    scope: Option<Scope>)

  /** The persisted document: one state and at most one open round. */
  datatype RefinementStateFile = RefinementStateFile(
    state: RefinementState,
    currentRound: Option<RefinementRound>)

  /** The string each suggestion type is written as. */
  function TypeName(t: SuggestionType): string {
    match t
    case Consistency => "consistency"
    case Completeness => "completeness"
    case Style => "style"
    case Safety => "safety"
    case Logic => "logic"
    case Other => "other"
  }

  /** The string each severity is written as. */
  function SeverityName(s: Severity): string {
    match s
    case Info => "info"
    case Suggestion => "suggestion"
    case ShouldFix => "should_fix"
  }
}
