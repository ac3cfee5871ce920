/** The journaled custom-chunk insert and its rollback, for one document, as a state machine
    over durable writes. A crash may strike between any two of them. What extraction returns
    and which merge writes land are the environment's choice. */
module CustomChunks {
  import opened KgModel
  import opened DerivedPass
  import opened MergeWrites

  datatype Status = Pending | Processing | Processed | Failed
  datatype Mode = Create | Patch
  datatype Stage = PreparedStage | ApplyingStage | FailedStage

  /** Truncation events are numbered when recorded; a payload counts them, and an empty
      payload is an absent `llm_truncation` key. Merging payloads adds the counts. */
  type Event = nat
  type Payload = multiset<Event>

  /** The operation id identifies the document and the ordered chunk ids of the call. */
  datatype Journal = Journal(
    operation: seq<Chunk>, mode: Mode, chunkIds: seq<Chunk>, stage: Stage,
    names: set<Obj>, prior: Payload, events: Payload)

  datatype DocRow = DocRow(status: Status, chunksList: seq<Chunk>, patch: Option<Journal>, truncation: Payload)

  datatype Disk = Disk(
    kg: Kg,
    texts: map<Chunk, string>,
    entityRow: Option<set<Obj>>,
    relationRow: Option<set<Obj>>,
    body: bool,
    row: Option<DocRow>)

  // ----- deciding what a call does -----

  /** Non-empty texts in order, one entry per chunk id. */
  function Entries(doc: DocId, inputs: seq<string>): (r: seq<Chunk>)
    ensures forall c :: c in r ==> c.CustomChunk? && c.doc == doc && c.text in inputs && c.text != ""
    ensures forall t :: t in inputs && t != "" ==> CustomChunk(doc, t) in r
  {
    if inputs == [] then []
    else
      var n := |inputs| - 1;
      var front := Entries(doc, inputs[..n]);
      assert inputs == inputs[..n] + [inputs[n]];
      var c := CustomChunk(doc, inputs[n]);
      if inputs[n] == "" || c in front then front else front + [c]
  }

  /** Each chunk once, in the order of its first text. */
  lemma {:induction false} EntriesComeInOrder(doc: DocId, inputs: seq<string>, more: seq<string>)
    ensures Entries(doc, inputs) <= Entries(doc, inputs + more)
  {
    if more == [] {
      assert inputs + more == inputs;
    } else {
      var all, front := inputs + more, inputs + more[..|more| - 1];
      assert all != [] && all[..|all| - 1] == front;
      EntriesComeInOrder(doc, inputs, more[..|more| - 1]);
      assert Entries(doc, front) <= Entries(doc, all);
    }
  }

  lemma {:induction false} EntriesAreDistinct(doc: DocId, inputs: seq<string>)
    ensures forall i, j :: 0 <= i < j < |Entries(doc, inputs)| ==> Entries(doc, inputs)[i] != Entries(doc, inputs)[j]
  {
    if inputs != [] {
      EntriesAreDistinct(doc, inputs[..|inputs| - 1]);
    }
  }

  /** The contents the document already owns. */
  function Committed(disk: Disk): set<string> {
    if disk.row.None? then {}
    else set c | c in disk.row.value.chunksList && c in disk.texts && disk.texts[c] != "" :: disk.texts[c]
  }

  function Uncommitted(entries: seq<Chunk>, committed: set<string>): (r: seq<Chunk>)
    ensures forall c :: c in r <==> c in entries && (c.CustomChunk? ==> c.text !in committed)
  {
    if entries == [] then []
    else
      assert entries == [entries[0]] + entries[1..];
      var kept := !entries[0].CustomChunk? || entries[0].text !in committed;
      (if kept then [entries[0]] else []) + Uncommitted(entries[1..], committed)
  }

  lemma {:induction false} UncommittedComeInOrder(entries: seq<Chunk>, more: seq<Chunk>, committed: set<string>)
    ensures Uncommitted(entries + more, committed) == Uncommitted(entries, committed) + Uncommitted(more, committed)
  {
    if entries == [] {
      assert entries + more == more;
    } else {
      var all, rest := entries + more, entries[1..] + more;
      assert all[0] == entries[0] && all[1..] == rest;
      UncommittedComeInOrder(entries[1..], more, committed);
      var head := if !entries[0].CustomChunk? || entries[0].text !in committed then [entries[0]] else [];
      assert Uncommitted(all, committed) == head + Uncommitted(rest, committed);
      assert Uncommitted(entries, committed) == head + Uncommitted(entries[1..], committed);
    }
  }

  datatype Decision =
    | OtherOperationUnfinished
    | WrongStatus
    | NothingToDo
    | Go(mode: Mode, resume: bool, operation: seq<Chunk>, entries: seq<Chunk>)

  function Decide(doc: DocId, disk: Disk, inputs: seq<string>): Decision {
    var operation := Entries(doc, inputs);
    if operation == [] then NothingToDo
    else if disk.row.None? then
      if disk.body then NothingToDo else Go(Create, false, operation, operation)
    else if disk.row.value.patch.Some? then
      var journal := disk.row.value.patch.value;
      if journal.operation != operation then OtherOperationUnfinished
      else Go(journal.mode, true, operation,
              if journal.mode == Patch then Uncommitted(operation, Committed(disk)) else operation)
    else if disk.row.value.status != Processed then WrongStatus
    else
      var entries := Uncommitted(operation, Committed(disk));
      if entries == [] then NothingToDo else Go(Patch, false, operation, entries)
  }

  // ----- a running attempt -----

  datatype Pc = Begun | Staged | Extracted | Applied | EntityRowReplaced | Merging | Merged | EntityRowUnioned | Unioned

  /** The attempt's memory, lost in a crash. `journal` and `base` are the in-memory copies the
      next status write starts from; `tally` and `pending` hold this attempt's events. */
  datatype Run = Run(
    pc: Pc, resume: bool, journal: Journal, base: DocRow, sample: set<Obj>,
    carried: Payload, tally: Payload, pending: Payload, hooked: set<Event>)

  datatype RollbackPc = Purging | DerivedDone | ChunksGone | EntityRowDone | AnchorsDone | BodyGone

  datatype RollbackRun = RollbackRun(pc: RollbackPc, journal: Journal, kgAtStart: Kg)

  /** What has happened to the operation so far; nothing in the program reads it. */
  datatype Log = Log(snapshot: Payload, journaled: set<Event>, landed: set<Event>, next: Event)

  datatype Sys = Sys(doc: DocId, disk: Disk, run: Option<Run>, rollback: Option<RollbackRun>, log: Log)

  datatype Action =
    | Begin(inputs: seq<string>)
    | StageChunks
    | Extract(found: set<Obj>, truncated: nat)
    | WriteApplying
    | ReplaceEntityRow
    | ReplaceRelationRow
    | StartMerge
    | Merge(write: KgWrite, carries: set<Event>)
    | RecordSummary
    | WriteAhead(event: Event)
    | FinishMerge
    | UnionEntityRow
    | UnionRelationRow
    | Commit
    | Fail
    | Crash
    | StartRollback
    | TearPurge(part: Kg)
    | PurgeDerived
    | DeleteChunkRows(left: map<Chunk, string>)
    | ChunkRowsDeleted
    | SettleEntityRow
    | SettleRelationRow
    | DeleteBody
    | FinishRollback

  function EntitiesOf(names: set<Obj>): set<Obj> { set o | o in names && o.Entity? }

  function RelationsOf(names: set<Obj>): set<Obj> { set o | o in names && o.Relation? }

  function Numbered(from: Event, count: nat): (r: set<Event>)
    ensures forall e :: e in r <==> from <= e < from + count
  {
    if count == 0 then {} else Numbered(from, count - 1) + {from + count - 1}
  }

  /** The candidate superset names the endpoints of every relation it names. */
  predicate NamesEndpoints(names: set<Obj>) {
    forall o :: o in names && o.Relation? ==> Entity(o.lo) in names && Entity(o.hi) in names
  }

  predicate Enabled(s: Sys, a: Action) {
    match a
    case Begin(inputs) => s.run.None? && s.rollback.None?
    case StageChunks => At(s, Begun)
    case Extract(found, truncated) =>
      At(s, Staged) && NamesEndpoints(found)
      && (s.run.value.journal.chunkIds == [] ==> found == {} && truncated == 0)
    case WriteApplying => At(s, Extracted)
    case ReplaceEntityRow => At(s, Applied) && s.run.value.journal.mode == Create && s.run.value.journal.chunkIds != []
    case ReplaceRelationRow => At(s, EntityRowReplaced)
    case StartMerge => At(s, Applied) && (s.run.value.journal.mode == Patch || s.run.value.journal.chunkIds == [])
    case Merge(write, carries) =>
      && At(s, Merging)
      && Permitted(s.disk.kg, s.run.value.sample, Ids(s.run.value.journal.chunkIds), write)
      && (forall e :: e in carries ==> e in s.run.value.tally || e in s.run.value.hooked)
    case RecordSummary => At(s, Merging)
    case WriteAhead(event) => At(s, Merging) && event in s.run.value.pending
    case FinishMerge => At(s, Merging) && (forall e :: e in s.run.value.pending ==> e in s.run.value.hooked)
    case UnionEntityRow => At(s, Merged) && (s.run.value.journal.mode == Patch || s.run.value.resume)
    case UnionRelationRow => At(s, EntityRowUnioned)
    case Commit =>
      At(s, Unioned) || (At(s, Merged) && s.run.value.journal.mode == Create && !s.run.value.resume)
    case Fail => s.run.Some?
    case Crash => true
    case StartRollback =>
      && s.run.None? && s.rollback.None? && s.disk.row.Some? && s.disk.row.value.patch.Some?
      && (s.disk.row.value.status == Failed || s.disk.row.value.status == Processing)
    case TearPurge(part) =>
      Rolling(s, Purging) && s.rollback.value.journal.chunkIds != []
      && PartlyDerived(s.rollback.value.kgAtStart, part, s.rollback.value.journal.names,
                       Ids(s.rollback.value.journal.chunkIds), Rollback)
    case PurgeDerived => Rolling(s, Purging)
    case DeleteChunkRows(left) =>
      Rolling(s, DerivedDone) && left.Keys <= s.disk.texts.Keys
      && (forall c :: c in s.disk.texts && c !in s.rollback.value.journal.chunkIds ==> c in left)
      && (forall c :: c in left ==> left[c] == s.disk.texts[c])
    case ChunkRowsDeleted => Rolling(s, DerivedDone)
    case SettleEntityRow => Rolling(s, ChunksGone)
    case SettleRelationRow => Rolling(s, EntityRowDone)
    case DeleteBody => Rolling(s, AnchorsDone) && s.rollback.value.journal.mode == Create
    case FinishRollback =>
      Rolling(s, BodyGone) || (Rolling(s, AnchorsDone) && s.rollback.value.journal.mode == Patch)
  }

  predicate At(s: Sys, pc: Pc) {
    s.run.Some? && s.run.value.pc == pc
  }

  predicate Rolling(s: Sys, pc: RollbackPc) {
    s.rollback.Some? && s.rollback.value.pc == pc
  }

  // ----- effects -----

  /** Rebuild the status row from the last one, with the journal added or removed. */
  function StatusRow(base: Option<DocRow>, status: Status, patch: Option<Journal>): DocRow {
    if base.Some? then base.value.(status := status, patch := patch) else DocRow(status, [], patch, multiset{})
  }

  function Started(s: Sys, go: Decision): Sys
    requires go.Go?
  {
    var previous := if go.resume && s.disk.row.Some? then s.disk.row.value.patch else None;
    var prior := if previous.Some? then previous.value.prior
                 else if go.mode == Patch && s.disk.row.Some? then s.disk.row.value.truncation
                 else multiset{};
    var carried := if previous.Some? then previous.value.events else multiset{};
    var journal := Journal(go.operation, go.mode, go.entries, PreparedStage,
                           if previous.Some? then previous.value.names else {}, prior, carried);
    var row := StatusRow(s.disk.row, Processing, Some(journal));
    s.(disk := s.disk.(row := Some(row)),
       run := Some(Run(Begun, go.resume, journal, row, {}, carried, multiset{}, multiset{}, {})),
       log := if go.resume then s.log else s.log.(snapshot := prior, journaled := {}, landed := {}))
  }

  /** Everything this operation is known to have truncated, this attempt included. */
  function Tallied(r: Run): Payload {
    r.carried + r.tally + r.pending
  }

  function Elements(p: Payload): set<Event> {
    set e | e in p
  }

  /** A status write that refreshes the journaled events. */
  function WithEvents(s: Sys, journal: Journal, events: Payload): Sys
    requires s.run.Some?
  {
    var row := s.run.value.base.(status := Processing, patch := Some(journal.(events := events)));
    s.(disk := s.disk.(row := Some(row)),
       run := Some(s.run.value.(base := row)),
       log := s.log.(journaled := s.log.journaled + Elements(events)))
  }

  function CommitRow(r: Run): DocRow {
    r.base.(status := Processed, patch := None,
            chunksList := if r.journal.mode == Patch then Dedup(r.base.chunksList + r.journal.chunkIds)
                          else r.journal.chunkIds,
            truncation := r.journal.prior + Tallied(r))
  }

  function FailRow(r: Run): DocRow {
    r.base.(status := Failed,
            patch := Some(r.journal.(stage := FailedStage, events := Tallied(r))),
            truncation := r.journal.prior + Tallied(r))
  }

  /** Keep a rolled-back candidate only while a committed chunk still supports it. */
  function Prune(row: Option<set<Obj>>, names: set<Obj>, kg: Kg, owned: set<Chunk>): Option<set<Obj>> {
    if row.None? then None
    else Some(set o | o in row.value && (o !in names || (o in kg.tracking && !(Ids(kg.tracking[o]) !! owned))))
  }

  function Owned(s: Sys): set<Chunk> {
    if s.disk.row.None? || s.disk.row.value.patch.None? then {}
    else Ids(s.disk.row.value.chunksList) - Ids(s.disk.row.value.patch.value.chunkIds)
  }

  function RestoredRow(row: DocRow, journal: Journal): DocRow {
    row.(status := Processed, patch := None,
         chunksList := Subtract(row.chunksList, Ids(journal.chunkIds)),
         truncation := journal.prior)
  }

  function Step(s: Sys, a: Action): Sys
    requires Enabled(s, a)
  {
    match a
    case Begin(inputs) =>
      var decision := Decide(s.doc, s.disk, inputs);
      if decision.Go? then Started(s, decision) else s
    case StageChunks =>
      var r := s.run.value;
      s.(disk := s.disk.(
           texts := s.disk.texts + map c | c in r.journal.chunkIds && c.CustomChunk? :: c.text,
           body := s.disk.body || r.journal.mode == Create),
         run := Some(r.(pc := Staged)))
    case Extract(found, truncated) =>
      s.(run := Some(s.run.value.(pc := Extracted, sample := found,
           tally := multiset(Numbered(s.log.next, truncated)))),
         log := s.log.(next := s.log.next + truncated))
    case WriteApplying =>
      var r := s.run.value;
      var journal := r.journal.(stage := ApplyingStage, names := r.journal.names + r.sample, events := r.carried + r.tally);
      var t := WithEvents(s, journal, r.carried + r.tally);
      t.(run := Some(t.run.value.(pc := Applied, journal := journal)))
    case ReplaceEntityRow =>
      s.(disk := s.disk.(entityRow := Some(EntitiesOf(s.run.value.sample))),
         run := Some(s.run.value.(pc := EntityRowReplaced)))
    case ReplaceRelationRow =>
      s.(disk := s.disk.(relationRow := Some(RelationsOf(s.run.value.sample))),
         run := Some(s.run.value.(pc := Merging)))
    case StartMerge =>
      s.(run := Some(s.run.value.(pc := Merging)))
    case Merge(write, carries) =>
      s.(disk := s.disk.(kg := Written(s.disk.kg, write)), log := s.log.(landed := s.log.landed + carries))
    case RecordSummary =>
      s.(run := Some(s.run.value.(pending := s.run.value.pending + multiset{s.log.next})),
         log := s.log.(next := s.log.next + 1))
    case WriteAhead(event) =>
      var t := WithEvents(s, s.run.value.journal, Tallied(s.run.value));
      t.(run := Some(t.run.value.(hooked := t.run.value.hooked + {event})))
    case FinishMerge =>
      var r := s.run.value;
      s.(run := Some(r.(pc := Merged, tally := r.tally + r.pending, pending := multiset{})))
    case UnionEntityRow =>
      var r := s.run.value;
      s.(disk := s.disk.(entityRow := Some(Listed(s.disk.entityRow) + EntitiesOf(r.journal.names))),
         run := Some(r.(pc := EntityRowUnioned)))
    case UnionRelationRow =>
      var r := s.run.value;
      s.(disk := s.disk.(relationRow := Some(Listed(s.disk.relationRow) + RelationsOf(r.journal.names))),
         run := Some(r.(pc := Unioned)))
    case Commit =>
      s.(disk := s.disk.(row := Some(CommitRow(s.run.value))), run := None)
    case Fail =>
      s.(disk := s.disk.(row := Some(FailRow(s.run.value))), run := None,
         log := s.log.(journaled := s.log.journaled + Elements(Tallied(s.run.value))))
    case Crash =>
      s.(run := None, rollback := None)
    case StartRollback =>
      s.(rollback := Some(RollbackRun(Purging, s.disk.row.value.patch.value, s.disk.kg)))
    case TearPurge(part) =>
      s.(disk := s.disk.(kg := part), rollback := None)
    case PurgeDerived =>
      var r := s.rollback.value;
      s.(disk := s.disk.(kg := if r.journal.chunkIds == [] then s.disk.kg
                               else Derive(r.kgAtStart, r.journal.names, Ids(r.journal.chunkIds), Rollback)),
         rollback := Some(r.(pc := DerivedDone)))
    case DeleteChunkRows(left) =>
      s.(disk := s.disk.(texts := left), rollback := None)
    case ChunkRowsDeleted =>
      var r := s.rollback.value;
      s.(disk := s.disk.(texts := s.disk.texts - Ids(r.journal.chunkIds)),
         rollback := Some(r.(pc := ChunksGone)))
    case SettleEntityRow =>
      var r := s.rollback.value;
      s.(disk := s.disk.(entityRow :=
           if r.journal.mode == Patch then Prune(s.disk.entityRow, r.journal.names, s.disk.kg, Owned(s))
           else if r.journal.chunkIds == [] then s.disk.entityRow else None),
         rollback := Some(r.(pc := EntityRowDone)))
    case SettleRelationRow =>
      var r := s.rollback.value;
      s.(disk := s.disk.(relationRow :=
           if r.journal.mode == Patch then Prune(s.disk.relationRow, r.journal.names, s.disk.kg, Owned(s))
           else if r.journal.chunkIds == [] then s.disk.relationRow else None),
         rollback := Some(r.(pc := AnchorsDone)))
    case DeleteBody =>
      s.(disk := s.disk.(body := false), rollback := Some(s.rollback.value.(pc := BodyGone)))
    case FinishRollback =>
      var r := s.rollback.value;
      s.(disk := s.disk.(row :=
           if r.journal.mode == Create || s.disk.row.None? then None
           else Some(RestoredRow(s.disk.row.value, r.journal))),
         rollback := None)
  }

  // ----- runs -----

  ghost predicate Legal(s: Sys, trace: seq<Action>)
    decreases trace
  {
    trace == [] || (Enabled(s, trace[0]) && Legal(Step(s, trace[0]), trace[1..]))
  }

  ghost function Replay(s: Sys, trace: seq<Action>): Sys
    requires Legal(s, trace)
    decreases trace
  {
    if trace == [] then s else Replay(Step(s, trace[0]), trace[1..])
  }

  ghost predicate Follows(s0: Sys, trace: seq<Action>, s: Sys) {
    Legal(s0, trace) && Replay(s0, trace) == s
  }

  lemma {:induction false} Extend(s0: Sys, trace: seq<Action>, s: Sys, a: Action)
    requires Follows(s0, trace, s) && Enabled(s, a)
    ensures Follows(s0, trace + [a], Step(s, a))
    decreases trace
  {
    if trace == [] {
      assert (trace + [a])[1..] == [];
    } else {
      Extend(Step(s0, trace[0]), trace[1..], s, a);
      assert (trace + [a])[1..] == trace[1..] + [a];
    }
  }

  lemma {:induction false} Append(s: Sys, trace: seq<Action>, more: seq<Action>)
    requires Legal(s, trace) && Legal(Replay(s, trace), more)
    ensures Legal(s, trace + more) && Replay(s, trace + more) == Replay(Replay(s, trace), more)
    decreases trace
  {
    if trace == [] {
      assert trace + more == more;
    } else {
      Append(Step(s, trace[0]), trace[1..], more);
      assert (trace + more)[1..] == trace[1..] + more;
    }
  }
}
