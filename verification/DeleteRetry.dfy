/** Deleting one document with retries: what survives of the evidence a retry needs, namely the
    purge journal, the chunk set that names the operation, and the LLM cache ids. */
module DeleteRetry {
  import opened KgModel
  import opened PurgeModel

  type CacheId = nat

  /** The fields of the status row a delete reads or writes. `retained` is
      `deletion_llm_cache_ids`, `parseIds` the parse-stage cache ids. */
  datatype StatusRow = StatusRow(
    chunksList: seq<Chunk>, stagedChunks: seq<Chunk>, purge: Option<PurgeJournal>,
    retained: seq<CacheId>, parseIds: seq<CacheId>, failed: bool)

  datatype Disk = Disk(row: Option<StatusRow>, chunkRows: map<Chunk, seq<CacheId>>, cache: set<CacheId>)

  datatype Pc = Begun | Pooled | Collected | Purging | CacheStage | Checking | Final

  /** `ids` is the list the failure write persists. */
  datatype Attempt = Attempt(pc: Pc, wantCache: bool, ids: seq<CacheId>)

  datatype Sys = Sys(disk: Disk, attempt: Option<Attempt>)

  function FirstSeen<T(==, !new)>(xs: seq<T>): (r: seq<T>)
    ensures forall x :: x in r <==> x in xs
    ensures |r| <= |xs|
  {
    if xs == [] then []
    else
      var n := |xs| - 1;
      var front := FirstSeen(xs[..n]);
      assert xs == xs[..n] + [xs[n]];
      if xs[n] in front then front else front + [xs[n]]
  }

  /** First occurrences, in order. */
  lemma {:induction false} FirstSeenKeepsFront<T(!new)>(xs: seq<T>, more: seq<T>)
    ensures FirstSeen(xs) <= FirstSeen(xs + more)
    ensures forall i, j :: 0 <= i < j < |FirstSeen(xs + more)| ==> FirstSeen(xs + more)[i] != FirstSeen(xs + more)[j]
  {
    if more == [] {
      assert xs + more == xs;
      FirstSeenIsDistinct(xs);
    } else {
      var n := |more| - 1;
      assert (xs + more)[..|xs| + n] == xs + more[..n];
      FirstSeenKeepsFront(xs, more[..n]);
    }
  }

  lemma {:induction false} FirstSeenIsDistinct<T(!new)>(xs: seq<T>)
    ensures forall i, j :: 0 <= i < j < |FirstSeen(xs)| ==> FirstSeen(xs)[i] != FirstSeen(xs)[j]
  {
    if xs != [] {
      FirstSeenIsDistinct(xs[..|xs| - 1]);
    }
  }

  /** Committed and staged chunks, the set that identifies the purge operation. */
  function ChunkIds(row: StatusRow): seq<Chunk> {
    FirstSeen(row.chunksList + row.stagedChunks)
  }

  function Pool(row: StatusRow): seq<CacheId> {
    FirstSeen(row.retained + row.parseIds)
  }

  lemma EverythingIsListed(row: StatusRow)
    ensures forall c :: c in ChunkIds(row) <==> c in row.chunksList || c in row.stagedChunks
    ensures forall id :: id in Pool(row) <==> id in row.retained || id in row.parseIds
  {
  }

  /** The cache ids the given chunk rows list, in chunk order. */
  function RowIds(rows: map<Chunk, seq<CacheId>>, chunks: seq<Chunk>): (r: seq<CacheId>)
    ensures forall id :: id in r <==> exists c :: c in chunks && c in rows && id in rows[c]
  {
    if chunks == [] then []
    else
      var n := |chunks| - 1;
      assert chunks == chunks[..n] + [chunks[n]];
      RowIds(rows, chunks[..n]) + if chunks[n] in rows then rows[chunks[n]] else []
  }

  function StillThere(ids: seq<CacheId>, cache: set<CacheId>): (r: seq<CacheId>)
    ensures forall id :: id in r <==> id in ids && id in cache
  {
    if ids == [] then []
    else
      var n := |ids| - 1;
      assert ids == ids[..n] + [ids[n]];
      StillThere(ids[..n], cache) + if ids[n] in cache then [ids[n]] else []
  }

  /** Both in the order of the chunks and of the ids. */
  lemma {:induction false} IdsComeInOrder(rows: map<Chunk, seq<CacheId>>, chunks: seq<Chunk>, more: seq<Chunk>)
    ensures RowIds(rows, chunks + more) == RowIds(rows, chunks) + RowIds(rows, more)
  {
    if more == [] {
      assert chunks + more == chunks;
    } else {
      var n := |more| - 1;
      assert (chunks + more)[..|chunks| + n] == chunks + more[..n];
      IdsComeInOrder(rows, chunks, more[..n]);
    }
  }

  lemma {:induction false} RemainingComeInOrder(ids: seq<CacheId>, more: seq<CacheId>, cache: set<CacheId>)
    ensures StillThere(ids + more, cache) == StillThere(ids, cache) + StillThere(more, cache)
  {
    if more == [] {
      assert ids + more == ids;
    } else {
      var n, all := |more| - 1, ids + more;
      var front, last := ids + more[..n], if more[n] in cache then [more[n]] else [];
      assert all != [] && all[..|all| - 1] == front && all[|all| - 1] == more[n];
      RemainingComeInOrder(ids, more[..n], cache);
      assert StillThere(all, cache) == StillThere(front, cache) + last;
      assert StillThere(more, cache) == StillThere(more[..n], cache) + last;
    }
  }

  // ----- steps -----

  datatype Action =
    | Start(wantCache: bool)
    | SeedPool
    | CollectFromRows
    | Persist(masked: bool)
    | WritePurgePhase(phase: Phase)
    | DropChunkRows(left: map<Chunk, seq<CacheId>>)
    | PurgeReturns
    | DeleteCache(kept: set<CacheId>)
    | CheckCache
    | DeleteRow
    | Fail(masked: bool)
    | Crash

  predicate At(s: Sys, pc: Pc) {
    s.attempt.Some? && s.attempt.value.pc == pc
  }

  /** A row without chunks skips collecting and persisting. */
  predicate Chunkless(s: Sys) {
    s.disk.row.Some? && ChunkIds(s.disk.row.value) == []
  }

  function Rank(phase: Phase): nat {
    match phase
    case Prepared => 1 case DerivedCommitted => 2 case AnchorsPending => 3 case Completed => 4 case Unrecognized => 0
  }

  function Operation(row: StatusRow): set<Chunk> {
    Ids(ChunkIds(row))
  }

  /** How far this operation's journal says it is; 0 without one. */
  function Reached(row: StatusRow): nat {
    if row.purge.Some? && row.purge.value.operation == Some(Operation(row)) then Rank(row.purge.value.phase) else 0
  }

  /** An unfinished purge of another chunk set is on record: this one is refused. */
  predicate Conflicting(row: StatusRow) {
    row.purge.Some? && row.purge.value.operation != Some(Operation(row)) && row.purge.value.phase != Completed
  }

  /** The purge starts only with a recovery proof; a journal past `Prepared` is one itself. */
  predicate Refuses(row: StatusRow, proved: bool) {
    Conflicting(row) || (Reached(row) < Rank(DerivedCommitted) && !proved)
  }

  /** Without a proof only a journal of the very same chunks, past `Prepared`, lets the purge
      start; with one, everything but an unfinished journal of other chunks does. */
  lemma RefusesIff(row: StatusRow, proved: bool)
    ensures row.purge.None? ==> (Refuses(row, proved) <==> !proved)
    ensures row.purge.Some? ==>
      var journal, chunks := row.purge.value, Ids(row.chunksList) + Ids(row.stagedChunks);
      Refuses(row, proved) <==>
        if journal.operation == Some(chunks) then !proved && (journal.phase == Prepared || journal.phase == Unrecognized)
        else !proved || journal.phase != Completed
  {
    assert Operation(row) == Ids(row.chunksList) + Ids(row.stagedChunks);
  }

  /** No chunk of the document's set has its row any more. */
  predicate RowsAreGone(disk: Disk) {
    disk.row.Some? ==> forall c :: c in ChunkIds(disk.row.value) ==> c !in disk.chunkRows
  }

  /** Phases are written one after the other, `anchors_pending` once the chunk rows are gone. */
  predicate Enabled(s: Sys, a: Action) {
    match a
    case Start(_) => s.attempt.None? && s.disk.row.Some?
    case SeedPool => At(s, Begun) && s.disk.row.Some? && !Chunkless(s)
    case CollectFromRows => At(s, Pooled) && s.disk.row.Some?
    case Persist(_) => At(s, Collected) && s.disk.row.Some?
    case WritePurgePhase(phase) =>
      && s.disk.row.Some? && (At(s, Purging) || (At(s, Begun) && Chunkless(s)))
      && Rank(phase) == Reached(s.disk.row.value) + 1 && !Conflicting(s.disk.row.value)
      && (phase == AnchorsPending ==> RowsAreGone(s.disk))
    case DropChunkRows(left) =>
      && At(s, Purging) && s.disk.row.Some? && Reached(s.disk.row.value) >= Rank(DerivedCommitted)
      && left.Keys <= s.disk.chunkRows.Keys
      && (forall c :: c in s.disk.chunkRows && c !in ChunkIds(s.disk.row.value) ==> c in left)
      && (forall c :: c in left ==> left[c] == s.disk.chunkRows[c])
    case PurgeReturns =>
      && s.disk.row.Some? && (At(s, Purging) || (At(s, Begun) && Chunkless(s)))
      && Reached(s.disk.row.value) == Rank(Completed)
    case DeleteCache(kept) =>
      && At(s, CacheStage) && s.disk.row.Some? && Doomed(s) != [] && kept <= s.disk.cache
      && (forall id :: id in s.disk.cache && id !in Doomed(s) ==> id in kept)
    case CheckCache => At(s, Checking)
    case DeleteRow => At(s, Final) || (At(s, CacheStage) && s.disk.row.Some? && Doomed(s) == [])
    case Fail(_) => s.attempt.Some? && s.attempt.value.pc != Final
    case Crash => true
  }

  /** What the cache step deletes: nothing unless asked to; a chunkless document goes by the
      pool its row names. */
  function Doomed(s: Sys): seq<CacheId>
    requires s.attempt.Some? && s.disk.row.Some?
  {
    if !s.attempt.value.wantCache then []
    else if Chunkless(s) then Pool(s.disk.row.value)
    else s.attempt.value.ids
  }

  /** The retry-state write: re-reads the row, touches only its own fields, and keeps the
      recorded ids when it has none. A read that comes back empty skips the write. */
  function RetryState(row: Option<StatusRow>, ids: seq<CacheId>, failed: bool, masked: bool): Option<StatusRow> {
    if row.None? || masked then row
    else Some(row.value.(retained := if ids != [] then ids else row.value.retained, failed := failed))
  }

  function Step(s: Sys, a: Action): Sys
    requires Enabled(s, a)
  {
    match a
    case Start(wantCache) => s.(attempt := Some(Attempt(Begun, wantCache, [])))
    case SeedPool => s.(attempt := Some(s.attempt.value.(pc := Pooled, ids := Pool(s.disk.row.value))))
    case CollectFromRows =>
      var found := RowIds(s.disk.chunkRows, ChunkIds(s.disk.row.value));
      s.(attempt := Some(s.attempt.value.(pc := Collected, ids := FirstSeen(s.attempt.value.ids + found))))
    case Persist(masked) =>
      var ids := s.attempt.value.ids;
      s.(disk := if ids == [] then s.disk else s.disk.(row := RetryState(s.disk.row, ids, false, masked)),
         attempt := Some(s.attempt.value.(pc := Purging)))
    case WritePurgePhase(phase) =>
      var row := s.disk.row.value;
      s.(disk := s.disk.(row := Some(row.(purge := Some(PurgeJournal(Some(Operation(row)), phase))))))
    case DropChunkRows(left) => s.(disk := s.disk.(chunkRows := left))
    case PurgeReturns => s.(attempt := Some(s.attempt.value.(pc := CacheStage)))
    case DeleteCache(kept) => s.(disk := s.disk.(cache := kept), attempt := Some(s.attempt.value.(pc := Checking)))
    case CheckCache =>
      var remaining := if s.disk.row.Some? then StillThere(Doomed(s), s.disk.cache) else [];
      if remaining == [] then s.(attempt := Some(s.attempt.value.(pc := Final)))
      else if Chunkless(s) then s
      else s.(attempt := Some(s.attempt.value.(ids := remaining)))
    case DeleteRow => s.(disk := s.disk.(row := None), attempt := None)
    case Fail(masked) =>
      s.(disk := s.disk.(row := RetryState(s.disk.row, s.attempt.value.ids, true, masked)), attempt := None)
    case Crash => s.(attempt := None)
  }

  // ----- the evidence -----

  /** Where a retry finds cache ids: the row's metadata, and the rows of its chunk set. */
  function Reachable(disk: Disk): set<CacheId> {
    if disk.row.None? then {}
    else
      (set id | id in disk.row.value.retained) + (set id | id in disk.row.value.parseIds)
      + (set id | id in RowIds(disk.chunkRows, ChunkIds(disk.row.value)))
  }

  lemma ReachableIff(disk: Disk, id: CacheId)
    requires disk.row.Some?
    ensures var row := disk.row.value;
      id in Reachable(disk) <==>
        || id in row.retained || id in row.parseIds
        || exists c :: (c in row.chunksList || c in row.stagedChunks) && c in disk.chunkRows && id in disk.chunkRows[c]
  {
    var row := disk.row.value;
    if c :| (c in row.chunksList || c in row.stagedChunks) && c in disk.chunkRows && id in disk.chunkRows[c] {
      EverythingIsListed(row);
      assert c in ChunkIds(row) && id in RowIds(disk.chunkRows, ChunkIds(row));
    }
  }

  function InMetadata(row: StatusRow): set<CacheId> {
    (set id | id in row.retained) + (set id | id in row.parseIds)
  }

  /** Every cache id of the document that still exists can be found. */
  ghost predicate Evidence(disk: Disk, owned: set<CacheId>) {
    disk.row.Some? ==> owned * disk.cache <= Reachable(disk)
  }

  /** The row itself names every id that still exists, or the purge will be refused and the
      chunk rows stay. */
  ghost predicate Recorded(disk: Disk, owned: set<CacheId>) {
    disk.row.Some? ==> owned * disk.cache <= InMetadata(disk.row.value) || Conflicting(disk.row.value)
  }

  /** What an attempt holds in memory, and what it has put in the row, stage by stage. */
  ghost predicate AttemptInv(s: Sys, owned: set<CacheId>) {
    s.attempt.Some? && s.disk.row.Some? ==>
      var r, row, left := s.attempt.value, s.disk.row.value, owned * s.disk.cache;
      && (Chunkless(s) ==> r.ids == [] && r.pc != Pooled && r.pc != Collected && r.pc != Purging)
      && (!Chunkless(s) ==>
            && (r.pc == Begun ==> r.ids == [])
            && (r.pc == Pooled ==> forall id :: id in InMetadata(row) ==> id in r.ids)
            && (r.pc != Begun && r.pc != Pooled ==> forall id :: id in left ==> id in r.ids)
            && (r.pc != Begun && r.pc != Pooled && r.pc != Collected ==> Recorded(s.disk, owned)))
      && (r.pc.CacheStage? || r.pc.Checking? || r.pc.Final? ==> Reached(row) == Rank(Completed))
      && (r.pc == Final && r.wantCache ==> left == {})
  }

  ghost predicate Inv(s: Sys, owned: set<CacheId>) {
    Evidence(s.disk, owned) && AttemptInv(s, owned)
  }

  lemma StepKeepsInv(s: Sys, a: Action, owned: set<CacheId>)
    requires Inv(s, owned) && Enabled(s, a)
    requires a == Persist(true) ==> Recorded(s.disk, owned)
    ensures Inv(Step(s, a), owned)
  {
    if a == Persist(true) {
      MaskedPersistKeepsInvIff(s, owned);
    } else if a.Persist? || a.Fail? {
      RecordingKeepsInv(s, a, owned);
    } else if a.CheckCache? {
      CheckingKeepsInv(s, owned);
    }
  }

  /** When the persisting write is skipped, the invariant survives exactly if the row already
      names every existing id, or the purge will be refused. */
  lemma MaskedPersistKeepsInvIff(s: Sys, owned: set<CacheId>)
    requires Inv(s, owned) && Enabled(s, Persist(true))
    ensures Inv(Step(s, Persist(true)), owned) <==> Recorded(s.disk, owned)
  {
    assert Step(s, Persist(true)).disk == s.disk;
  }

  lemma RecordingKeepsInv(s: Sys, a: Action, owned: set<CacheId>)
    requires Inv(s, owned) && Enabled(s, a) && a != Persist(true) && (a.Persist? || a.Fail?)
    ensures Inv(Step(s, a), owned)
  {
    var t := Step(s, a);
    if s.disk.row.Some? {
      assert ChunkIds(t.disk.row.value) == ChunkIds(s.disk.row.value);
      var left := owned * s.disk.cache;
      forall id | id in left
        ensures id in Reachable(t.disk)
        ensures a.Persist? ==> id in InMetadata(t.disk.row.value)
      {
        assert id in Reachable(s.disk);
      }
    }
  }

  lemma CheckingKeepsInv(s: Sys, owned: set<CacheId>)
    requires Inv(s, owned) && Enabled(s, CheckCache)
    ensures Inv(Step(s, CheckCache), owned)
  {
    if s.disk.row.Some? {
      var remaining := StillThere(Doomed(s), s.disk.cache);
      if Chunkless(s) {
        assert RowIds(s.disk.chunkRows, []) == [];
      }
      forall id | id in owned * s.disk.cache
        ensures s.attempt.value.wantCache ==> id in remaining
      {
        assert id in Reachable(s.disk);
      }
    }
  }

  // ----- every run -----

  ghost predicate Legal(s: Sys, trace: seq<Action>)
    decreases trace
  {
    trace == [] || (Enabled(s, trace[0]) && Legal(Step(s, trace[0]), trace[1..]))
  }

  ghost function Replay(s: Sys, trace: seq<Action>): Sys
    requires Legal(s, trace)
    decreases trace
  {
    if trace == [] then s else Replay(Step(s, trace[0]), trace[1..])
  }

  lemma StepKeepsOperation(s: Sys, a: Action)
    requires Enabled(s, a) && Step(s, a).disk.row.Some?
    ensures s.disk.row.Some?
    ensures var row, row' := s.disk.row.value, Step(s, a).disk.row.value;
      && ChunkIds(row') == ChunkIds(row)
      && Reached(row') >= Reached(row)
      && (row.purge.Some? ==> row'.purge.Some?)
      && (!a.WritePurgePhase? ==> row'.purge == row.purge)
  {
  }

  /** Every persisting write that is skipped finds its ids recorded already. */
  ghost predicate SkipsOnlyRecorded(s: Sys, trace: seq<Action>, owned: set<CacheId>)
    requires Legal(s, trace)
    decreases trace
  {
    trace != [] ==>
      && (trace[0] == Persist(true) ==> Recorded(s.disk, owned))
      && SkipsOnlyRecorded(Step(s, trace[0]), trace[1..], owned)
  }

  /** Until the row is deleted, through any failures, crashes and retries: every attempt works
      on the same chunk set and so the same operation id, its journal never moves back or
      disappears, and every existing cache id stays reachable. */
  lemma {:induction false} RetriesKeepEvidence(s: Sys, trace: seq<Action>, owned: set<CacheId>)
    requires Inv(s, owned) && Legal(s, trace) && SkipsOnlyRecorded(s, trace, owned)
    requires Replay(s, trace).disk.row.Some?
    ensures Inv(Replay(s, trace), owned) && s.disk.row.Some?
    ensures var row, row' := s.disk.row.value, Replay(s, trace).disk.row.value;
      && ChunkIds(row') == ChunkIds(row) && Operation(row') == Operation(row)
      && Reached(row') >= Reached(row)
      && (row.purge.Some? ==> row'.purge.Some?)
    ensures owned * Replay(s, trace).disk.cache <= Reachable(Replay(s, trace).disk)
    decreases trace
  {
    if trace != [] {
      StepKeepsInv(s, trace[0], owned);
      RetriesKeepEvidence(Step(s, trace[0]), trace[1..], owned);
      StepKeepsOperation(s, trace[0]);
    }
  }

  /** A document at rest owns the ids it can reach. */
  lemma AtRest(s: Sys)
    requires s.attempt.None?
    ensures Inv(s, Reachable(s.disk))
  {
  }

  /** The row goes only after its purge is complete and, if the cache was to be cleared, once
      no cache entry of the document is left. */
  lemma RowGoesLast(s: Sys, owned: set<CacheId>)
    requires Inv(s, owned) && Enabled(s, DeleteRow) && s.disk.row.Some?
    ensures Reached(s.disk.row.value) == Rank(Completed)
    ensures s.attempt.value.wantCache ==> owned * s.disk.cache == {}
  {
    if At(s, CacheStage) && s.attempt.value.wantCache {
      if Chunkless(s) {
        assert RowIds(s.disk.chunkRows, []) == [];
        var row := s.disk.row.value;
        assert forall id :: id in row.retained + row.parseIds <==> id in Pool(row);
      }
      forall id | id in owned * s.disk.cache
        ensures id in Doomed(s)
      {
        assert id in Reachable(s.disk);
      }
    }
  }

  // ----- what a delete leaves -----

  /** A journal from `anchors_pending` on means that the chunk rows are gone. */
  ghost predicate JournalTellsRows(disk: Disk) {
    disk.row.Some? && Reached(disk.row.value) >= Rank(AnchorsPending) ==> RowsAreGone(disk)
  }

  lemma StepKeepsJournalTruth(s: Sys, a: Action)
    requires JournalTellsRows(s.disk) && Enabled(s, a)
    ensures JournalTellsRows(Step(s, a).disk)
  {
    if Step(s, a).disk.row.Some? {
      StepKeepsOperation(s, a);
    }
  }

  lemma {:induction false} JournalTellsRowsThroughout(s: Sys, trace: seq<Action>)
    requires JournalTellsRows(s.disk) && Legal(s, trace)
    ensures JournalTellsRows(Replay(s, trace).disk)
    decreases trace
  {
    if trace != [] {
      StepKeepsJournalTruth(s, trace[0]);
      JournalTellsRowsThroughout(Step(s, trace[0]), trace[1..]);
    }
  }

  /** So the row of the document goes after every chunk row of its set. */
  lemma ChunkRowsGoFirst(s: Sys, owned: set<CacheId>)
    requires Inv(s, owned) && JournalTellsRows(s.disk) && Enabled(s, DeleteRow)
    ensures RowsAreGone(s.disk)
  {
    if s.disk.row.Some? {
      RowGoesLast(s, owned);
    }
  }

  /** What runs of deletes may have changed of `s0`: chunk rows of the document's set, and cache
      entries that its row and its chunk rows name. */
  ghost predicate OnlyItsOwn(s0: Sys, s: Sys)
    requires s0.disk.row.Some?
  {
    var chunks, named := ChunkIds(s0.disk.row.value), Reachable(s0.disk);
    && (s.disk.row.Some? ==> ChunkIds(s.disk.row.value) == chunks && InMetadata(s.disk.row.value) <= named)
    && (s.attempt.Some? ==> forall id :: id in s.attempt.value.ids ==> id in named)
    && s.disk.chunkRows.Keys <= s0.disk.chunkRows.Keys
    && (forall c :: c in s.disk.chunkRows ==> s.disk.chunkRows[c] == s0.disk.chunkRows[c])
    && (forall c :: c in s0.disk.chunkRows && c !in chunks ==> c in s.disk.chunkRows)
    && s0.disk.cache - named <= s.disk.cache <= s0.disk.cache
  }

  lemma StepTouchesOnlyItsOwn(s0: Sys, s: Sys, a: Action)
    requires s0.disk.row.Some? && OnlyItsOwn(s0, s) && Enabled(s, a)
    ensures OnlyItsOwn(s0, Step(s, a))
  {
    if s.disk.row.Some? {
      var row := s.disk.row.value;
      forall id | id in Pool(row) || id in RowIds(s.disk.chunkRows, ChunkIds(row))
        ensures id in Reachable(s0.disk)
      {
        assert id in Pool(row) ==> id in InMetadata(row);
        assert id in RowIds(s.disk.chunkRows, ChunkIds(row)) ==> id in RowIds(s0.disk.chunkRows, ChunkIds(row));
      }
      if Step(s, a).disk.row.Some? {
        StepKeepsOperation(s, a);
      }
    }
  }

  /** Whatever fails and is retried, other documents' chunk rows and cache entries stay. */
  lemma {:induction false} DeletesTouchOnlyTheirOwn(s0: Sys, s: Sys, trace: seq<Action>)
    requires s0.disk.row.Some? && OnlyItsOwn(s0, s) && Legal(s, trace)
    ensures OnlyItsOwn(s0, Replay(s, trace))
    decreases trace
  {
    if trace != [] {
      StepTouchesOnlyItsOwn(s0, s, trace[0]);
      DeletesTouchOnlyTheirOwn(s0, Step(s, trace[0]), trace[1..]);
    }
  }

  // ----- the skipped write -----

  /** Once the chunk rows are gone, the evidence is what the row itself names. */
  lemma DroppingRowsKeepsEvidenceIff(s: Sys, owned: set<CacheId>)
    requires At(s, Purging) && s.disk.row.Some? && Reached(s.disk.row.value) >= Rank(DerivedCommitted)
    ensures var row := s.disk.row.value;
      var left := map c | c in s.disk.chunkRows && c !in ChunkIds(row) :: s.disk.chunkRows[c];
      && Enabled(s, DropChunkRows(left))
      && (Evidence(Step(s, DropChunkRows(left)).disk, owned) <==> owned * s.disk.cache <= InMetadata(row))
  {
    var row := s.disk.row.value;
    var left := map c | c in s.disk.chunkRows && c !in ChunkIds(row) :: s.disk.chunkRows[c];
    var t := Step(s, DropChunkRows(left));
    assert forall id :: id !in RowIds(left, ChunkIds(row));
    assert Reachable(t.disk) == InMetadata(row);
  }

  /** Everything that still exists can be found now and after every further step, if writes
      are skipped only when their ids are recorded already. */
  ghost predicate StaysFindable(s: Sys, owned: set<CacheId>) {
    forall trace :: Legal(s, trace) && SkipsOnlyRecorded(s, trace, owned) ==> Evidence(Replay(s, trace).disk, owned)
  }

  lemma {:induction false} InvStaysFindable(s: Sys, trace: seq<Action>, owned: set<CacheId>)
    requires Inv(s, owned) && Legal(s, trace) && SkipsOnlyRecorded(s, trace, owned)
    ensures Evidence(Replay(s, trace).disk, owned)
    decreases trace
  {
    if trace != [] {
      StepKeepsInv(s, trace[0], owned);
      InvStaysFindable(Step(s, trace[0]), trace[1..], owned);
    }
  }

  /** The purge may go on to the chunk rows, and then what only they named is lost. */
  lemma {:induction false} UnrecordedIdIsLost(s: Sys, owned: set<CacheId>)
    requires At(s, Purging) && s.disk.row.Some? && !Recorded(s.disk, owned)
    ensures !StaysFindable(s, owned)
    decreases Rank(Completed) - Reached(s.disk.row.value)
  {
    var row := s.disk.row.value;
    if Reached(row) < Rank(DerivedCommitted) {
      var phase := if Reached(row) == 0 then Prepared else DerivedCommitted;
      var t := Step(s, WritePurgePhase(phase));
      assert ChunkIds(t.disk.row.value) == ChunkIds(row);
      UnrecordedIdIsLost(t, owned);
      LossComesLater(s, WritePurgePhase(phase), owned);
    } else {
      DroppingRowsKeepsEvidenceIff(s, owned);
      var drop := DropChunkRows(map c | c in s.disk.chunkRows && c !in ChunkIds(row) :: s.disk.chunkRows[c]);
      NothingMore(s, drop);
      assert Legal(s, [drop]) && SkipsOnlyRecorded(s, [drop], owned) && !Evidence(Replay(s, [drop]).disk, owned);
    }
  }

  lemma LossComesLater(s: Sys, a: Action, owned: set<CacheId>)
    requires Enabled(s, a) && a != Persist(true) && !StaysFindable(Step(s, a), owned)
    ensures !StaysFindable(s, owned)
  {
    var t := Step(s, a);
    var rest :| Legal(t, rest) && SkipsOnlyRecorded(t, rest, owned) && !Evidence(Replay(t, rest).disk, owned);
    Prepend(s, a, rest);
    assert ([a] + rest)[1..] == rest;
    assert SkipsOnlyRecorded(s, [a] + rest, owned);
  }

  lemma NothingMore(s: Sys, a: Action)
    requires Enabled(s, a)
    ensures Legal(s, [a]) && Replay(s, [a]) == Step(s, a) && [a][1..] == []
  {
    assert [a][1..] == [];
  }

  /** Skipping the persisting write is safe, whatever follows, exactly when the row already
      names every existing id or a journal in conflict keeps the purge from starting. */
  lemma SkippedPersistIsSafeIff(s: Sys, owned: set<CacheId>)
    requires Inv(s, owned) && Enabled(s, Persist(true))
    ensures StaysFindable(Step(s, Persist(true)), owned) <==> Recorded(s.disk, owned)
  {
    var t := Step(s, Persist(true));
    MaskedPersistKeepsInvIff(s, owned);
    if Recorded(s.disk, owned) {
      forall trace | Legal(t, trace) && SkipsOnlyRecorded(t, trace, owned)
        ensures Evidence(Replay(t, trace).disk, owned)
      {
        InvStaysFindable(t, trace, owned);
      }
    } else {
      UnrecordedIdIsLost(t, owned);
    }
  }

  /** A document with one chunk, whose row lists one cache id that nothing else records. */
  function OneChunk(attempt: Option<Attempt>): Sys {
    var c := PipelineChunk(1, 0);
    Sys(Disk(Some(StatusRow([c], [], None, [], [], false)), map[c := [5]], {5}), attempt)
  }

  /** A run from here ends at rest with nothing that names the id. */
  ghost predicate CanLoseId(s: Sys) {
    exists trace :: Legal(s, trace) && Replay(s, trace).attempt.None? && !Evidence(Replay(s, trace).disk, {5})
  }

  lemma LosesOneStepLater(s: Sys, a: Action)
    requires Enabled(s, a) && CanLoseId(Step(s, a))
    ensures CanLoseId(s)
  {
    var t := Step(s, a);
    var rest :| Legal(t, rest) && Replay(t, rest).attempt.None? && !Evidence(Replay(t, rest).disk, {5});
    Prepend(s, a, rest);
  }

  /** Its purge reaches the chunk rows and the process dies. */
  lemma DropThenCrash(s: Sys)
    requires At(s, Purging) && s.disk.row.Some? && Reached(s.disk.row.value) >= Rank(DerivedCommitted)
    requires ChunkIds(s.disk.row.value) == [PipelineChunk(1, 0)] && InMetadata(s.disk.row.value) == {}
    requires s.disk.chunkRows == map[PipelineChunk(1, 0) := [5]] && s.disk.cache == {5}
    ensures CanLoseId(s)
  {
    var t := Step(s, DropChunkRows(map[]));
    var end := Step(t, Crash);
    assert end.disk == s.disk.(chunkRows := map[]);
    assert RowIds(map[], [PipelineChunk(1, 0)]) == RowIds(map[], []) + [];
    assert Reachable(end.disk) == {} && 5 in {5} * end.disk.cache;
    assert Legal(end, []);
    LosesOneStepLater(t, Crash);
    LosesOneStepLater(s, DropChunkRows(map[]));
  }

  lemma PurgeThenCrash(s: Sys)
    requires s == OneChunk(Some(Attempt(Purging, false, [5])))
    ensures CanLoseId(s)
  {
    var c := PipelineChunk(1, 0);
    ChunkIdsOfOne(s.disk.row.value, c);
    var t := Step(s, WritePurgePhase(Prepared));
    ChunkIdsOfOne(t.disk.row.value, c);
    var u := Step(t, WritePurgePhase(DerivedCommitted));
    ChunkIdsOfOne(u.disk.row.value, c);
    DropThenCrash(u);
    LosesOneStepLater(t, WritePurgePhase(DerivedCommitted));
    LosesOneStepLater(s, WritePurgePhase(Prepared));
  }

  lemma CollectFromOneChunk()
    ensures var s := OneChunk(Some(Attempt(Pooled, false, [])));
      Step(s, CollectFromRows) == OneChunk(Some(Attempt(Collected, false, [5])))
    ensures Pool(OneChunk(None).disk.row.value) == []
    ensures Reachable(OneChunk(None).disk) == {5}
  {
    var s, c := OneChunk(Some(Attempt(Pooled, false, []))), PipelineChunk(1, 0);
    ChunkIdsOfOne(s.disk.row.value, c);
    assert RowIds(s.disk.chunkRows, [c]) == RowIds(s.disk.chunkRows, []) + [5];
    assert [] + [5] == [5] && [5][..0] == [];
    assert FirstSeen([5]) == FirstSeen([5][..0]) + [5];
  }

  /** The id is collected and the write that would record it is skipped. */
  lemma SkipThenCrash(s: Sys)
    requires s == OneChunk(Some(Attempt(Pooled, false, [])))
    ensures CanLoseId(s)
  {
    CollectFromOneChunk();
    var t := Step(s, CollectFromRows);
    PurgeThenCrash(Step(t, Persist(true)));
    LosesOneStepLater(t, Persist(true));
    LosesOneStepLater(s, CollectFromRows);
  }

  /** Such a run, from rest: after the crash nothing names the id any more. */
  lemma SkippedPersistLosesAnId()
    ensures Reachable(OneChunk(None).disk) == {5} && CanLoseId(OneChunk(None))
  {
    var s, t := OneChunk(None), OneChunk(Some(Attempt(Begun, false, [])));
    CollectFromOneChunk();
    ChunkIdsOfOne(s.disk.row.value, PipelineChunk(1, 0));
    SkipThenCrash(Step(t, SeedPool));
    LosesOneStepLater(t, SeedPool);
    LosesOneStepLater(s, Start(false));
  }

  lemma ChunkIdsOfOne(row: StatusRow, c: Chunk)
    requires row.chunksList == [c] && row.stagedChunks == []
    ensures ChunkIds(row) == [c]
  {
    assert row.chunksList + row.stagedChunks == [c];
    assert FirstSeen([c][..0]) == [];
  }

  lemma Prepend(s: Sys, a: Action, rest: seq<Action>)
    requires Enabled(s, a) && Legal(Step(s, a), rest)
    ensures Legal(s, [a] + rest) && Replay(s, [a] + rest) == Replay(Step(s, a), rest)
  {
    assert ([a] + rest)[1..] == rest;
  }
}
