/** The four-phase resumable purge of one document, as a function of how far an attempt
    got before it was cut, and what a cut in the middle of a write may leave. */
module PurgeModel {
  import opened KgModel
  import opened DerivedPass
  import opened Resume

  datatype Phase = Prepared | DerivedCommitted | AnchorsPending | Completed | Unrecognized

  /** The operation id identifies the document and its chunk-id set; `None` is a malformed id. */
  datatype PurgeJournal = PurgeJournal(operation: Option<set<Chunk>>, phase: Phase)

  /** The durable state a purge of one document reads and writes. An anchor row that is
      missing or structurally unusable is `None`; an empty row is a row. */
  datatype Store = Store(
    kg: Kg,
    chunkRows: set<Chunk>,
    entityRow: Option<set<Obj>>,
    relationRow: Option<set<Obj>>,
    journal: Option<PurgeJournal>,
    preGraph: bool,            // kg_write_state proves the document's own merge never started
    patchNames: set<Obj>)      // candidates named by an unfinished custom-chunk journal

  datatype Proof = AnchorProof | PreGraphProof | JournalProof | EmptyScopeProof | NoProof(chunkless: bool)

  predicate Conflicts(s: Store, gone: set<Chunk>) {
    s.journal.Some? && s.journal.value.operation != Some(gone) && s.journal.value.phase != Completed
  }

  /** The journaled phase this operation may resume from. A completed journal of another
      operation is ignored. */
  function PhaseOf(s: Store, gone: set<Chunk>): Option<Phase> {
    if s.journal.Some? && s.journal.value.operation == Some(gone) && s.journal.value.phase != Unrecognized
    then Some(s.journal.value.phase)
    else None
  }

  function Resolve(s: Store, gone: set<Chunk>): Proof {
    var phase := PhaseOf(s, gone);
    if phase.Some? && phase.value != Prepared then JournalProof
    else if s.entityRow.Some? && s.relationRow.Some? then
      if gone == {} && (s.entityRow.value != {} || s.relationRow.value != {}) then NoProof(true) else AnchorProof
    else if s.preGraph then PreGraphProof
    else if gone == {} && Listed(s.entityRow) == {} && Listed(s.relationRow) == {} then EmptyScopeProof
    else NoProof(false)
  }

  predicate Refused(s: Store, gone: set<Chunk>) {
    Conflicts(s, gone) || Resolve(s, gone).NoProof?
  }

  function Candidates(s: Store, gone: set<Chunk>): set<Obj> {
    if Resolve(s, gone).PreGraphProof? || Resolve(s, gone).EmptyScopeProof? then s.patchNames
    else Listed(s.entityRow) + Listed(s.relationRow) + s.patchNames
  }

  // ----- the program: nine durable writes, entered at the journaled phase -----

  const WRITES := 9

  /** 0 prepared | 1 tracking | 2 removals | 3 rebuild | 4 derived_committed | 5 chunk rows
      | 6 anchors_pending | 7 anchor rows | 8 completed */
  function Entry(s: Store, gone: set<Chunk>): nat {
    var phase := PhaseOf(s, gone);
    if phase.None? then 0
    else if phase.value == Prepared then 1
    else if phase.value == DerivedCommitted then 5
    else if phase.value == AnchorsPending then 7
    else WRITES
  }

  function JournalAt(gone: set<Chunk>, pc: nat): PurgeJournal {
    PurgeJournal(Some(gone),
      if pc < 5 then Prepared else if pc < 7 then DerivedCommitted else if pc < WRITES then AnchorsPending else Completed)
  }

  function KgAt(s: Store, gone: set<Chunk>, pc: nat): Kg {
    if Entry(s, gone) > 1 then s.kg else Partway(s.kg, Candidates(s, gone), gone, BestEffort, pc)
  }

  /** The state once every write before `pc` has landed, starting an attempt in `s`. */
  function Progress(s: Store, gone: set<Chunk>, pc: nat): Store
    requires Entry(s, gone) <= pc <= WRITES
  {
    s.(kg := KgAt(s, gone, pc),
       chunkRows := if Entry(s, gone) <= 5 < pc then s.chunkRows - gone else s.chunkRows,
       entityRow := if Entry(s, gone) <= 7 < pc then None else s.entityRow,
       relationRow := if Entry(s, gone) <= 7 < pc then None else s.relationRow,
       journal := if pc == Entry(s, gone) then s.journal else Some(JournalAt(gone, pc)))
  }

  /** Where an attempt that may not make write `stop` comes to rest. */
  function StopsAt(entry: nat, stop: nat): nat
    requires entry <= WRITES
  {
    if stop <= entry then entry else if stop < WRITES then stop else WRITES
  }

  // ----- cuts -----

  /** A cut during write `pc`. Derived writes are buffered per store, so any subset of them
      may have landed; chunk rows and anchor rows may be half deleted. */
  ghost predicate Torn(s: Store, gone: set<Chunk>, pc: nat, t: Store)
    requires Entry(s, gone) <= pc < WRITES
  {
    match pc
    case 1 => t == Progress(s, gone, 1).(kg := t.kg)
              && PartlyDerived(s.kg, t.kg, Candidates(s, gone), gone, BestEffort)
    case 2 => t == Progress(s, gone, 2).(kg := t.kg)
              && PartlyDerived(s.kg, t.kg, Candidates(s, gone), gone, BestEffort)
    case 3 => t == Progress(s, gone, 3).(kg := t.kg)
              && PartlyDerived(s.kg, t.kg, Candidates(s, gone), gone, BestEffort)
    case 5 => t == Progress(s, gone, 5).(chunkRows := t.chunkRows)
              && s.chunkRows - gone <= t.chunkRows <= s.chunkRows
    case 7 => t == Progress(s, gone, 7).(entityRow := t.entityRow, relationRow := t.relationRow)
              && (t.entityRow == s.entityRow || t.entityRow.None?)
              && (t.relationRow == s.relationRow || t.relationRow.None?)
    case _ => false
  }

  /** One attempt takes `s` to `t`: refused and untouched, or run and stopped somewhere. */
  ghost predicate Attempt(s: Store, gone: set<Chunk>, t: Store) {
    if Refused(s, gone) then t == s
    else
      || (exists pc :: Entry(s, gone) <= pc <= WRITES && t == Progress(s, gone, pc))
      || (exists pc :: Entry(s, gone) <= pc < WRITES && Torn(s, gone, pc, t))
  }

  /** Cuts at barriers, plus tears of the tracking, rebuild, chunk and anchor writes; only
      the removals (steps 3 and 4) land as a whole. */
  ghost predicate OrderlyTorn(s: Store, gone: set<Chunk>, pc: nat, t: Store)
    requires Entry(s, gone) <= pc < WRITES
  {
    match pc
    case 1 => t == Progress(s, gone, 1).(kg := t.kg) && TrackingCut(s.kg, t.kg, Candidates(s, gone), gone)
    case 3 => t == Progress(s, gone, 3).(kg := t.kg) && RebuildCut(s.kg, t.kg, Candidates(s, gone), gone)
    case 5 => Torn(s, gone, pc, t)
    case 7 => Torn(s, gone, pc, t)
    case _ => false
  }

  ghost predicate OrderlyAttempt(s: Store, gone: set<Chunk>, t: Store) {
    if Refused(s, gone) then t == s
    else
      || (exists pc :: Entry(s, gone) <= pc <= WRITES && t == Progress(s, gone, pc))
      || (exists pc :: Entry(s, gone) <= pc < WRITES && OrderlyTorn(s, gone, pc, t))
  }

  /** Cut anywhere, but as the graph stores remove things: an edge goes with its endpoint or
      before it, so no cut leaves an edge without one. */
  ghost predicate CascadingAttempt(s: Store, gone: set<Chunk>, t: Store) {
    if Refused(s, gone) then t == s
    else
      || (exists pc :: Entry(s, gone) <= pc <= WRITES && t == Progress(s, gone, pc))
      || (exists pc :: Entry(s, gone) <= pc < WRITES && Torn(s, gone, pc, t)
            && (EndpointsPresent(s.kg) ==> EndpointsPresent(t.kg)))
  }

  /** A history of attempts on the same chunk set. */
  ghost predicate History(states: seq<Store>, gone: set<Chunk>) {
    states != [] && forall i :: 0 <= i < |states| - 1 ==> Attempt(states[i], gone, states[i + 1])
  }

  ghost predicate OrderlyHistory(states: seq<Store>, gone: set<Chunk>) {
    states != [] && forall i :: 0 <= i < |states| - 1 ==> OrderlyAttempt(states[i], gone, states[i + 1])
  }

  ghost predicate CascadingHistory(states: seq<Store>, gone: set<Chunk>) {
    states != [] && forall i :: 0 <= i < |states| - 1 ==> CascadingAttempt(states[i], gone, states[i + 1])
  }

  /** The graph, tracking, chunk rows and anchors are the same. */
  ghost predicate SameEnd(end: Store, whole: Store) {
    && end.kg == whole.kg && end.chunkRows == whole.chunkRows
    && end.entityRow == whole.entityRow && end.relationRow == whole.relationRow
  }

  ghost predicate Ends(states: seq<Store>, s0: Store, gone: set<Chunk>) {
    states != [] && states[0] == s0 && PhaseOf(states[|states| - 1], gone) == Some(Completed)
  }
}
