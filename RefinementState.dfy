/** The refinement state store: one persisted `RefinementStateFile`, read, changed and
    written back whole by each operation. */
module RefinementState {
  import opened Base
  import opened RefinementTypes

  const DefaultMaxRounds: int := 3

  /** The state a phase starts from: round 0, the default cap, manual mode, nothing
      else set. */
  function DefaultState(phase: RefinementPhase): RefinementState {
    RefinementState(phase, 0, Some(DefaultMaxRounds), Manual, None, None, None, None)
  }

  /** The open round, when there is one, carries the same number as the state. */
  predicate RoundConsistent(f: RefinementStateFile) {
    f.currentRound.Some? ==> f.currentRound.value.round == f.state.round
  }

  /** True when `existing` holds state for `phase`. */
  predicate HasPhase(existing: Option<RefinementStateFile>, phase: RefinementPhase) {
    existing.Some? && existing.value.state.phase == phase
  }

  // Each operation as a function of what was read. The store's methods are proved
  // against these, and the properties of the loop are lemmas about them.

  /** `getOrInitState`: the stored file when it belongs to `phase`, else a fresh one. */
  function InitOrKeep(existing: Option<RefinementStateFile>, phase: RefinementPhase): RefinementStateFile {
    if HasPhase(existing, phase) then existing.value
    else RefinementStateFile(DefaultState(phase), None)
  }

  /** `updateAfterAssess`: one more round, opened with `suggestions` at time `now`. */
  function Assessed(existing: Option<RefinementStateFile>, phase: RefinementPhase,
                    suggestions: seq<RefinementSuggestion>, now: int): RefinementStateFile {
    var data := InitOrKeep(existing, phase);
    var next := data.state.round + 1;
    RefinementStateFile(
      data.state.(round := next, lastAssessedAt := Some(now)),
      Some(RefinementRound(next, now, suggestions, None, None)))
  }

  /** `updateAfterRevise`: close the open round and stamp the revision time; on a
      missing or other-phase file, initialise instead. */
  function Revised(existing: Option<RefinementStateFile>, phase: RefinementPhase, now: int): RefinementStateFile {
    if !HasPhase(existing, phase) then InitOrKeep(existing, phase)
    else
      var data := existing.value;
      data.(state := data.state.(lastRevisedAt := Some(now)), currentRound := None)
  }

  /** `endRefinement`: the file to write back, or `None` when nothing is written. */
  function Ended(existing: Option<RefinementStateFile>, phase: RefinementPhase): Option<RefinementStateFile> {
    if !HasPhase(existing, phase) then None
    else Some(existing.value.(currentRound := None))
  }

  /** `getOrInitState` is idempotent: initialising what it returned returns it again. */
  lemma InitIdempotent(existing: Option<RefinementStateFile>, phase: RefinementPhase)
    ensures InitOrKeep(Some(InitOrKeep(existing, phase)), phase) == InitOrKeep(existing, phase)
    ensures !HasPhase(existing, phase) ==>
              InitOrKeep(existing, phase) == RefinementStateFile(DefaultState(phase), None)
  {
  }

  /** What `calls` consecutive assessments leave in the store, starting from
      `existing`. Each call is its suggestion list and its time. */
  function AssessAll(existing: Option<RefinementStateFile>, phase: RefinementPhase,
                     calls: seq<(seq<RefinementSuggestion>, int)>): Option<RefinementStateFile>
  {
    if calls == [] then existing
    else
      var last := calls[|calls| - 1];
      Some(Assessed(AssessAll(existing, phase, calls[..|calls| - 1]), phase, last.0, last.1))
  }

  /** Round monotonicity: `k` assessments add exactly `k` to the round of a same-phase
      file and give round `k` after a missing or other-phase one; the open round then
      holds the last call's suggestions, numbered like the state. */
  lemma {:induction false} AssessCountsRounds(existing: Option<RefinementStateFile>, phase: RefinementPhase,
                                              calls: seq<(seq<RefinementSuggestion>, int)>)
    requires |calls| > 0
    ensures var f := AssessAll(existing, phase, calls);
            && f.Some?
            && f.value.state.phase == phase
            && f.value.state.round == (if HasPhase(existing, phase) then existing.value.state.round else 0) + |calls|
            && RoundConsistent(f.value)
            && f.value.currentRound.value.suggestions == calls[|calls| - 1].0
            && f.value.currentRound.value.assessedAt == calls[|calls| - 1].1
            && f.value.state.lastAssessedAt == Some(calls[|calls| - 1].1)
  {
    var init := calls[..|calls| - 1];
    if |init| > 0 {
      AssessCountsRounds(existing, phase, init);
    }
  }

  /** `updateAfterRevise` on a same-phase file closes the round and stamps the time,
      leaving the round number, cap, mode, assessment time and the rest untouched. */
  lemma ReviseKeepsProgress(existing: Option<RefinementStateFile>, phase: RefinementPhase, now: int)
    ensures var f := Revised(existing, phase, now);
            && f.state.phase == phase
            && f.currentRound.None?
            && (HasPhase(existing, phase) ==>
                  && f.state.lastRevisedAt == Some(now)
                  && f.state.round == existing.value.state.round
                  && f.state.maxRounds == existing.value.state.maxRounds
                  && f.state.mode == existing.value.state.mode
                  && f.state.lastAssessedAt == existing.value.state.lastAssessedAt
                  && f.state.(lastRevisedAt := existing.value.state.lastRevisedAt) == existing.value.state)
            && (!HasPhase(existing, phase) ==> f == InitOrKeep(existing, phase))
  {
  }

  /** Round lifecycle: revising right after an assessment keeps the round the
      assessment set and closes the open round. */
  lemma AssessThenRevise(existing: Option<RefinementStateFile>, phase: RefinementPhase,
                         suggestions: seq<RefinementSuggestion>, t1: int, t2: int)
    ensures var a := Assessed(existing, phase, suggestions, t1);
            var r := Revised(Some(a), phase, t2);
            r.state.round == a.state.round && r.currentRound.None? && RoundConsistent(r)
  {
  }

  /** `endRefinement` writes only for a same-phase file, and then changes nothing but
      the open round. */
  lemma EndKeepsState(existing: Option<RefinementStateFile>, phase: RefinementPhase)
    ensures Ended(existing, phase).Some? <==> HasPhase(existing, phase)
    ensures Ended(existing, phase).Some? ==>
              Ended(existing, phase).value == existing.value.(currentRound := None)
  {
  }

  /** Every transition keeps the open round in step with the state. */
  lemma TransitionsKeepConsistency(existing: Option<RefinementStateFile>, phase: RefinementPhase,
                                   suggestions: seq<RefinementSuggestion>, now: int)
    requires existing.Some? ==> RoundConsistent(existing.value)
    ensures RoundConsistent(InitOrKeep(existing, phase))
    ensures RoundConsistent(Assessed(existing, phase, suggestions, now))
    ensures RoundConsistent(Revised(existing, phase, now))
    ensures Ended(existing, phase).Some? ==> RoundConsistent(Ended(existing, phase).value)
  {
  }

  /** The store. `pathDefined` is false when no workspace is open: reads then find
      nothing and writes do nothing. `disk` is what the state file holds. */
  class StateStore {
    var pathDefined: bool
    var disk: Stored<RefinementStateFile>

    constructor (pathDefined: bool, disk: Stored<RefinementStateFile>)
      ensures this.pathDefined == pathDefined && this.disk == disk
    {
      this.pathDefined := pathDefined;
      this.disk := disk;
    }

    /** `readRefinementState`: no state without a path, for a missing file and for a
        file that does not parse. */
    function Read(): (r: Option<RefinementStateFile>)
      reads this
      ensures r.Some? <==> pathDefined && disk.Present?
      ensures r.Some? ==> r.value == disk.value
    {
      if !pathDefined then None else disk.Read()
    }

    /** The store's invariant: a readable file keeps its open round in step. */
    ghost predicate Consistent()
      reads this
    {
      Read().Some? ==> RoundConsistent(Read().value)
    }

    /** `writeRefinementState`: replaces the file, or does nothing without a path. */
    method Write(data: RefinementStateFile)
      modifies this
      ensures pathDefined == old(pathDefined)
      ensures disk == if pathDefined then Present(data) else old(disk)
      ensures pathDefined ==> Read() == Some(data)
    {
      if pathDefined {
        disk := Present(data);
      }
    }

    method GetOrInitState(phase: RefinementPhase) returns (data: RefinementStateFile)
      modifies this
      ensures data == InitOrKeep(old(Read()), phase)
      ensures data.state.phase == phase
      ensures pathDefined == old(pathDefined)
      ensures HasPhase(old(Read()), phase) ==> disk == old(disk)
      ensures !HasPhase(old(Read()), phase) ==>
                disk == (if pathDefined then Present(data) else old(disk))
      ensures old(Consistent()) ==> Consistent()
    {
      var existing := Read();
      if existing.Some? && existing.value.state.phase == phase {
        return existing.value;
      }
      var state := DefaultState(phase);
      data := RefinementStateFile(state, None);
      Write(data);
    }

    method UpdateAfterAssess(phase: RefinementPhase, suggestions: seq<RefinementSuggestion>, now: int)
      returns (next: RefinementStateFile)
      modifies this
      ensures next == Assessed(old(Read()), phase, suggestions, now)
      ensures pathDefined == old(pathDefined)
      ensures disk == if pathDefined then Present(next) else old(disk)
      ensures !pathDefined ==> next.state.round == 1
      ensures RoundConsistent(next) && Consistent()
    {
      var data := GetOrInitState(phase);
      var state := data.state;
      var nextRound := state.round + 1;
      var currentRound := RefinementRound(nextRound, now, suggestions, None, None);
      state := state.(round := nextRound, lastAssessedAt := Some(currentRound.assessedAt));
      next := RefinementStateFile(state, Some(currentRound));
      Write(next);
    }

    method UpdateAfterRevise(phase: RefinementPhase, now: int) returns (data: RefinementStateFile)
      modifies this
      ensures data == Revised(old(Read()), phase, now)
      ensures pathDefined == old(pathDefined)
      ensures disk == if pathDefined then Present(data) else old(disk)
      ensures old(Consistent()) ==> Consistent()
    {
      var existing := Read();
      if existing.None? || existing.value.state.phase != phase {
        data := GetOrInitState(phase);
        return;
      }
      data := existing.value;
      data := data.(state := data.state.(lastRevisedAt := Some(now)), currentRound := None);
      Write(data);
    }

    method EndRefinement(phase: RefinementPhase)
      modifies this
      ensures pathDefined == old(pathDefined)
      ensures disk == match Ended(old(Read()), phase)
                      case Some(f) => Present(f)
                      case None => old(disk)
      ensures old(Consistent()) ==> Consistent()
    {
      var data := Read();
      if data.None? || data.value.state.phase != phase {
        return;
      }
      var f := data.value.(currentRound := None);
      Write(f);
    }
  }
}
