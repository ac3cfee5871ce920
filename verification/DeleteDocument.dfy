/** Deleting a document as the program does it, over mutable stores, proved to take only steps
    of the retry state machine. `attempt` is what the coroutine holds in memory. */
module DeleteDocument {
  import opened KgModel
  import opened PurgeModel
  import opened DeleteRetry

  ghost predicate Follows(s0: Sys, trace: seq<Action>, s: Sys) {
    Legal(s0, trace) && Replay(s0, trace) == s
  }

  lemma {:induction false} Extend(s0: Sys, trace: seq<Action>, s: Sys, a: Action)
    requires Follows(s0, trace, s) && Enabled(s, a)
    ensures Follows(s0, trace + [a], Step(s, a))
    decreases trace
  {
    if trace == [] {
      assert (trace + [a])[1..] == [];
    } else {
      Extend(Step(s0, trace[0]), trace[1..], s, a);
      assert (trace + [a])[1..] == trace[1..] + [a];
    }
  }

  lemma {:induction false} NothingToLose(s: Sys, trace: seq<Action>)
    requires Legal(s, trace)
    ensures SkipsOnlyRecorded(s, trace, {})
    decreases trace
  {
    if trace != [] {
      NothingToLose(Step(s, trace[0]), trace[1..]);
    }
  }

  lemma CompletedSaysRowsAreGone(s0: Sys, trace: seq<Action>, s: Sys)
    requires Follows(s0, trace, s) && s.disk.row.Some? && Reached(s.disk.row.value) == Rank(Completed)
    ensures JournalTellsRows(s0.disk) ==> RowsAreGone(s.disk)
  {
    if JournalTellsRows(s0.disk) {
      JournalTellsRowsThroughout(s0, trace);
    }
  }

  /** The row of the document goes after its chunk rows. */
  lemma RowIsLast(s0: Sys, trace: seq<Action>, s: Sys)
    requires Follows(s0, trace, s) && s0.attempt.None? && s.disk.row.Some? && Enabled(s, DeleteRow)
    ensures JournalTellsRows(s0.disk) ==> RowsAreGone(s.disk)
  {
    if JournalTellsRows(s0.disk) {
      NothingToLose(s0, trace);
      RetriesKeepEvidence(s0, trace, {});
      JournalTellsRowsThroughout(s0, trace);
      ChunkRowsGoFirst(s, {});
    }
  }

  lemma RunTouchesOnlyItsOwn(s0: Sys, trace: seq<Action>, s: Sys)
    requires Follows(s0, trace, s) && s0.attempt.None? && s0.disk.row.Some?
    ensures OnlyItsOwn(s0, s)
  {
    DeletesTouchOnlyTheirOwn(s0, s0, trace);
  }

  /** What the world does to one attempt: whether the purge finds a recovery proof, which
      barrier the attempt does not get past, whether it then raises or is killed, which cache
      entries the store fails to delete, and whether the persisting and the failure write find
      their row unreadable. */
  datatype Weather =
    Weather(proved: bool, stop: nat, killed: bool, stuck: set<CacheId>, persistMasked: bool, failMasked: bool)

  datatype Outcome = Deleted | Refused | Interrupted

  class Document {
    var row: Option<StatusRow>
    var chunkRows: map<Chunk, seq<CacheId>>
    var cache: set<CacheId>
    var attempt: Option<Attempt>

    ghost function State(): Sys
      reads this
    {
      Sys(Disk(row, chunkRows, cache), attempt)
    }

    constructor (row: StatusRow, chunkRows: map<Chunk, seq<CacheId>>, cache: set<CacheId>)
      ensures State() == Sys(Disk(Some(row), chunkRows, cache), None)
    {
      this.row, this.chunkRows, this.cache, attempt := Some(row), chunkRows, cache, None;
    }

    /** The retry-state write: targeted, on a fresh read, and skipped when that finds no row. */
    method UpdateRetryState(ids: seq<CacheId>, failed: bool, masked: bool)
      modifies this`row
      ensures row == RetryState(old(row), ids, failed, masked)
    {
      var current := if masked then None else row;
      if current.None? { return; }
      var retained := ids;
      if retained == [] {
        retained := current.value.retained;
      }
      row := Some(row.value.(retained := retained, failed := failed));
    }

    /** Add the ids the chunk rows list to those already in hand, first occurrence first. */
    method CollectCacheIds(seed: seq<CacheId>, chunks: seq<Chunk>) returns (ids: seq<CacheId>)
      ensures ids == FirstSeen(seed + RowIds(chunkRows, chunks))
    {
      ids := AppendNew([], [], seed);
      assert [] + seed == seed + RowIds(chunkRows, chunks[..0]);
      for i := 0 to |chunks|
        invariant ids == FirstSeen(seed + RowIds(chunkRows, chunks[..i]))
      {
        OneMoreRow(seed, chunks, i);
        if chunks[i] in chunkRows {
          ids := AppendNew(ids, seed + RowIds(chunkRows, chunks[..i]), chunkRows[chunks[i]]);
        }
      }
      assert chunks[..|chunks|] == chunks;
    }

    lemma OneMoreRow(seed: seq<CacheId>, chunks: seq<Chunk>, i: nat)
      requires i < |chunks|
      ensures seed + RowIds(chunkRows, chunks[..i + 1])
        == if chunks[i] in chunkRows then seed + RowIds(chunkRows, chunks[..i]) + chunkRows[chunks[i]]
           else seed + RowIds(chunkRows, chunks[..i])
    {
      assert chunks[..i + 1][..i] == chunks[..i];
    }

    method AppendNew(start: seq<CacheId>, ghost before: seq<CacheId>, more: seq<CacheId>) returns (ids: seq<CacheId>)
      requires start == FirstSeen(before)
      ensures ids == FirstSeen(before + more)
    {
      ids := start;
      assert before + more[..0] == before;
      for j := 0 to |more|
        invariant ids == FirstSeen(before + more[..j])
      {
        assert (before + more[..j + 1])[..|before| + j] == before + more[..j];
        if more[j] !in ids {
          ids := ids + [more[j]];
        }
      }
      assert more[..|more|] == more;
    }

    method ExistingIds(ids: seq<CacheId>) returns (remaining: seq<CacheId>)
      ensures remaining == StillThere(ids, cache)
    {
      remaining := [];
      for i := 0 to |ids|
        invariant remaining == StillThere(ids[..i], cache)
      {
        assert ids[..i + 1][..i] == ids[..i];
        if ids[i] in cache {
          remaining := remaining + [ids[i]];
        }
      }
      assert ids[..|ids|] == ids;
    }

    // ----- the stages -----

    method Collect()
      requires Enabled(State(), SeedPool)
      modifies this`attempt
      ensures var s := Step(old(State()), SeedPool);
        Enabled(s, CollectFromRows) && State() == Step(s, CollectFromRows)
      ensures At(State(), Collected)
    {
      var r := attempt.value;
      var ids := CollectCacheIds(Pool(row.value), ChunkIds(row.value));
      attempt := Some(r.(pc := Collected, ids := ids));
    }

    method PersistIds(masked: bool)
      requires Enabled(State(), Persist(masked))
      modifies this`row, this`attempt
      ensures State() == Step(old(State()), Persist(masked))
      ensures At(State(), Purging) && row.Some? && ChunkIds(row.value) == ChunkIds(old(row).value)
      ensures row.value.purge == old(row).value.purge
    {
      var r := attempt.value;
      if r.ids != [] {
        UpdateRetryState(r.ids, false, masked);
      }
      attempt := Some(r.(pc := Purging));
    }

    method JournalPhase(phase: Phase, ghost s0: Sys, ghost trace: seq<Action>) returns (ghost now: seq<Action>)
      requires Follows(s0, trace, State()) && Enabled(State(), WritePurgePhase(phase))
      modifies this`row
      ensures Follows(s0, now, State()) && row.Some?
      ensures ChunkIds(row.value) == ChunkIds(old(row).value) && Reached(row.value) == Rank(phase)
      ensures Pool(row.value) == Pool(old(row).value)
    {
      Extend(s0, trace, State(), WritePurgePhase(phase));
      row := Some(row.value.(purge := Some(PurgeJournal(Some(Operation(row.value)), phase))));
      now := trace + [WritePurgePhase(phase)];
    }

    method DropRows(ghost s0: Sys, ghost trace: seq<Action>) returns (ghost now: seq<Action>)
      requires Follows(s0, trace, State()) && At(State(), Purging) && row.Some?
      requires Reached(row.value) >= Rank(DerivedCommitted)
      modifies this`chunkRows
      ensures Follows(s0, now, State())
      ensures forall c :: c in ChunkIds(row.value) ==> c !in chunkRows
    {
      var left := chunkRows - Ids(ChunkIds(row.value));
      Extend(s0, trace, State(), DropChunkRows(left));
      chunkRows := left;
      now := trace + [DropChunkRows(left)];
    }

    ghost predicate InPurge()
      reads this
    {
      row.Some? && (At(State(), Purging) || (At(State(), Begun) && Chunkless(State())))
    }

    /** Bring the journal to the next phase, unless it is there already. */
    method AdvanceTo(phase: Phase, ghost s0: Sys, ghost trace: seq<Action>) returns (ghost now: seq<Action>)
      requires Follows(s0, trace, State()) && InPurge() && !Conflicting(row.value)
      requires Reached(row.value) + 1 >= Rank(phase) && phase != AnchorsPending
      modifies this`row
      ensures Follows(s0, now, State()) && InPurge() && ChunkIds(row.value) == ChunkIds(old(row).value)
      ensures Pool(row.value) == Pool(old(row).value)
      ensures !Conflicting(row.value)
      ensures Rank(Completed) >= Reached(row.value) >= Rank(phase)
    {
      now := trace;
      if Reached(row.value) < Rank(phase) { now := JournalPhase(phase, s0, now); }
    }

    /** Up to the journal write that says the derived pass is done. */
    method PurgeDerived(stop: nat, ghost s0: Sys, ghost trace: seq<Action>) returns (done: bool, ghost now: seq<Action>)
      requires Follows(s0, trace, State()) && InPurge() && !Conflicting(row.value)
      modifies this`row
      ensures Follows(s0, now, State()) && InPurge() && ChunkIds(row.value) == ChunkIds(old(row).value)
      ensures Pool(row.value) == Pool(old(row).value)
      ensures !Conflicting(row.value)
      ensures done <==> stop > 1
      ensures done ==> Reached(row.value) >= Rank(DerivedCommitted)
    {
      done, now := false, trace;
      if stop == 0 { return; }
      now := AdvanceTo(Prepared, s0, now);
      if stop == 1 { return; }
      now := AdvanceTo(DerivedCommitted, s0, now);
      done := true;
    }

    /** Chunk rows go only once the derived pass is journaled. */
    method DropRowsAndJournal(ghost s0: Sys, ghost trace: seq<Action>) returns (ghost now: seq<Action>)
      requires Follows(s0, trace, State()) && InPurge() && Reached(row.value) >= Rank(DerivedCommitted)
      modifies this`row, this`chunkRows
      ensures Follows(s0, now, State()) && InPurge() && ChunkIds(row.value) == ChunkIds(old(row).value)
      ensures Pool(row.value) == Pool(old(row).value)
      ensures !Conflicting(row.value)
      ensures Reached(row.value) >= Rank(AnchorsPending)
    {
      now := trace;
      if Reached(row.value) < Rank(AnchorsPending) {
        if ChunkIds(row.value) != [] { now := DropRows(s0, now); }
        now := JournalPhase(AnchorsPending, s0, now);
      }
    }

    /** The purge's journal writes and chunk deletion, from wherever its journal stands. */
    method RunPurge(stop: nat, ghost s0: Sys, ghost trace: seq<Action>) returns (done: bool, ghost now: seq<Action>)
      requires Follows(s0, trace, State()) && InPurge() && !Conflicting(row.value)
      modifies this`row, this`chunkRows
      ensures Follows(s0, now, State()) && InPurge() && ChunkIds(row.value) == ChunkIds(old(row).value)
      ensures Pool(row.value) == Pool(old(row).value)
      ensures done <==> stop > 3
      ensures done ==> Reached(row.value) == Rank(Completed)
      ensures done && JournalTellsRows(s0.disk) ==> RowsAreGone(State().disk)
    {
      done, now := PurgeDerived(stop, s0, trace);
      if stop <= 2 { return false, now; }
      now := DropRowsAndJournal(s0, now);
      done := stop > 3;
      if done {
        now := AdvanceTo(Completed, s0, now);
        CompletedSaysRowsAreGone(s0, now, State());
      }
    }

    method ReturnFromPurge(ghost s0: Sys, ghost trace: seq<Action>) returns (ghost now: seq<Action>)
      requires Follows(s0, trace, State()) && Enabled(State(), PurgeReturns)
      modifies this`attempt
      ensures Follows(s0, now, State()) && At(State(), CacheStage)
      ensures attempt.value.wantCache == old(attempt.value.wantCache) && attempt.value.ids == old(attempt.value.ids)
    {
      Extend(s0, trace, State(), PurgeReturns);
      attempt := Some(attempt.value.(pc := CacheStage));
      now := trace + [PurgeReturns];
    }

    /** Collect and persist the cache ids, unless the document has no chunks at all. */
    method CollectAndPersist(w: Weather, ghost s0: Sys, ghost trace: seq<Action>) returns (done: bool, ghost now: seq<Action>)
      requires Follows(s0, trace, State()) && At(State(), Begun) && row.Some?
      modifies this`row, this`attempt
      ensures Follows(s0, now, State()) && row.Some? && attempt.Some? && attempt.value.pc != Final
      ensures w.stop > 1 ==> done
      ensures done ==> InPurge()
      ensures row.value.purge == old(row).value.purge && ChunkIds(row.value) == ChunkIds(old(row).value)
      ensures attempt.value.wantCache == old(attempt.value.wantCache)
      ensures if ChunkIds(row.value) == [] then Pool(row.value) == Pool(old(row).value)
              else done ==> forall id :: id in old(Reachable(State().disk)) ==> id in attempt.value.ids
    {
      now := trace;
      if ChunkIds(row.value) == [] { return true, now; }
      if w.stop == 0 { return false, now; }
      ghost var s := State();
      Extend(s0, now, s, SeedPool);
      Collect();
      Extend(s0, now + [SeedPool], Step(s, SeedPool), CollectFromRows);
      now := now + [SeedPool] + [CollectFromRows];
      if w.stop == 1 { return false, now; }
      Extend(s0, now, State(), Persist(w.persistMasked));
      PersistIds(w.persistMasked);
      now := now + [Persist(w.persistMasked)];
      done := true;
    }

    /** Delete the cache entries if asked to, and check that they are gone. */
    method ClearCache(stuck: set<CacheId>, ghost s0: Sys, ghost trace: seq<Action>) returns (done: bool, ghost now: seq<Action>)
      requires Follows(s0, trace, State()) && At(State(), CacheStage) && row.Some?
      modifies this`cache, this`attempt
      ensures Follows(s0, now, State()) && attempt.Some?
      ensures done ==> Enabled(State(), DeleteRow)
      ensures !done ==> attempt.value.pc != Final
      ensures stuck == {} ==> done
      ensures done ==> forall id :: id in old(Doomed(State())) ==> id !in cache
      ensures !old(attempt.value.wantCache) ==> cache == old(cache)
    {
      now := trace;
      ghost var s := State();
      var doomed := [];
      if attempt.value.wantCache {
        doomed := if ChunkIds(row.value) == [] then Pool(row.value) else attempt.value.ids;
      }
      assert doomed == Doomed(s);
      if doomed == [] { return true, now; }
      now := DeleteEntries(doomed, stuck, s0, now);
      done, now := CheckRemaining(doomed, s0, now);
      assert !done ==> StillThere(doomed, cache)[0] in StillThere(doomed, cache);
    }

    method DeleteEntries(doomed: seq<CacheId>, stuck: set<CacheId>, ghost s0: Sys, ghost trace: seq<Action>)
      returns (ghost now: seq<Action>)
      requires Follows(s0, trace, State()) && At(State(), CacheStage) && row.Some?
      requires doomed == Doomed(State()) != []
      modifies this`cache, this`attempt
      ensures Follows(s0, now, State()) && At(State(), Checking) && doomed == Doomed(State())
      ensures forall id :: id in doomed && id in cache ==> id in stuck
    {
      var kept := cache - ((set id | id in doomed) - stuck);
      Extend(s0, trace, State(), DeleteCache(kept));
      cache := kept;
      attempt := Some(attempt.value.(pc := Checking));
      now := trace + [DeleteCache(kept)];
    }

    method CheckRemaining(doomed: seq<CacheId>, ghost s0: Sys, ghost trace: seq<Action>)
      returns (done: bool, ghost now: seq<Action>)
      requires Follows(s0, trace, State()) && At(State(), Checking) && row.Some? && doomed == Doomed(State())
      modifies this`attempt
      ensures Follows(s0, now, State()) && attempt.Some?
      ensures if done then At(State(), Final) else At(State(), Checking)
      ensures done <==> StillThere(doomed, cache) == []
    {
      Extend(s0, trace, State(), CheckCache);
      var remaining := ExistingIds(doomed);
      now := trace + [CheckCache];
      if remaining == [] {
        attempt := Some(attempt.value.(pc := Final));
        return true, now;
      }
      if ChunkIds(row.value) != [] {
        attempt := Some(attempt.value.(ids := remaining));
      }
      done := false;
    }

    /** How an attempt that did not finish ends. */
    method GiveUp(w: Weather, ghost s0: Sys, ghost trace: seq<Action>) returns (ghost now: seq<Action>)
      requires Follows(s0, trace, State()) && attempt.Some? && attempt.value.pc != Final
      modifies this`row, this`attempt
      ensures Follows(s0, now, State()) && attempt.None?
      ensures row == if w.killed then old(row) else RetryState(old(row), old(attempt.value.ids), true, w.failMasked)
    {
      if w.killed {
        Extend(s0, trace, State(), Crash);
        attempt := None;
        return trace + [Crash];
      }
      Extend(s0, trace, State(), Action.Fail(w.failMasked));
      UpdateRetryState(attempt.value.ids, true, w.failMasked);
      attempt := None;
      now := trace + [Action.Fail(w.failMasked)];
    }

    /** The recovery proof is resolved before the purge writes anything. */
    method PurgeRefused(proved: bool) returns (refused: bool)
      requires row.Some?
      ensures refused == Refuses(row.value, proved)
    {
      var journal, operation := row.value.purge, Operation(row.value);
      var reached := 0;
      if journal.Some? {
        if journal.value.operation != Some(operation) {
          if journal.value.phase != Completed { return true; }
        } else {
          reached := Rank(journal.value.phase);
        }
      }
      return reached <= Rank(Prepared) && !proved;
    }

    /** From the collected ids to the verdict on the cache. */
    method PurgeAndClear(w: Weather, ghost s0: Sys, ghost trace: seq<Action>) returns (done: bool, ghost now: seq<Action>)
      requires Follows(s0, trace, State()) && InPurge() && !Conflicting(row.value)
      modifies this
      ensures Follows(s0, now, State()) && attempt.Some? && row.Some?
      ensures done ==> Enabled(State(), DeleteRow)
      ensures done ==> forall id :: id in old(Doomed(State())) ==> id !in cache
      ensures !old(attempt.value.wantCache) ==> cache == old(cache)
      ensures !done ==> attempt.value.pc != Final
      ensures w.stop > 5 && w.stuck == {} ==> done
    {
      done, now := RunPurge(if w.stop > 2 then w.stop - 2 else 0, s0, trace);
      if done {
        now := ReturnFromPurge(s0, now);
        done, now := ClearCache(w.stuck, s0, now);
      }
    }

    /** The attempt up to its verdict: refused, stopped, or ready to remove the row. */
    method Work(wantCache: bool, w: Weather, ghost s0: Sys, ghost trace: seq<Action>)
      returns (verdict: Outcome, ghost now: seq<Action>)
      requires Follows(s0, trace, State()) && row.Some? && attempt == Some(Attempt(Begun, wantCache, []))
      modifies this
      ensures Follows(s0, now, State()) && attempt.Some? && row.Some?
      ensures if verdict.Deleted? then Enabled(State(), DeleteRow) else attempt.value.pc != Final
      ensures verdict.Refused? ==>
        && old(Refuses(row.value, w.proved)) && row.value.purge == old(row.value.purge)
        && ChunkIds(row.value) == old(ChunkIds(row.value)) && chunkRows == old(chunkRows) && cache == old(cache)
      ensures old(Refuses(row.value, w.proved)) ==> !verdict.Deleted? && (w.stop > 1 ==> verdict.Refused?)
      ensures !old(Refuses(row.value, w.proved)) && w.stop > 5 && w.stuck == {} ==> verdict.Deleted?
      ensures verdict.Deleted? && wantCache ==> old(Reachable(State().disk)) !! cache
      ensures !wantCache ==> cache == old(cache)
    {
      var done;
      done, now := CollectAndPersist(w, s0, trace);
      if !done { return Interrupted, now; }
      var refused := PurgeRefused(w.proved);
      if refused { return Refused, now; }
      ghost var doomed := Doomed(State());
      assert wantCache ==> forall id :: id in old(Reachable(State().disk)) ==> id in doomed;
      done, now := PurgeAndClear(w, s0, now);
      verdict := if done then Deleted else Interrupted;
    }

    /** One attempt at deleting the document: a run of the state machine that starts and ends
        at rest. The purge is refused for a journal in conflict or for want of a proof, and
        then leaves everything but the retry state alone; otherwise the row is gone when
        nothing goes wrong. With the row go the chunk rows of the document's set and, if that
        was asked for, the cache entries; what belongs to others stays. */
    method Delete(wantCache: bool, w: Weather) returns (outcome: Outcome, ghost trace: seq<Action>)
      requires attempt.None? && row.Some?
      modifies this
      ensures Follows(old(State()), trace, State()) && attempt.None?
      ensures outcome.Deleted? <==> row.None?
      ensures outcome.Refused? ==>
        && old(Refuses(row.value, w.proved)) && row.value.purge == old(row.value.purge)
        && ChunkIds(row.value) == old(ChunkIds(row.value)) && chunkRows == old(chunkRows) && cache == old(cache)
      ensures old(Refuses(row.value, w.proved)) ==> !outcome.Deleted? && (w.stop > 1 ==> outcome.Refused?)
      ensures !old(Refuses(row.value, w.proved)) && w.stop > 5 && w.stuck == {} ==> outcome.Deleted?
      ensures outcome.Deleted? && JournalTellsRows(old(State()).disk) ==>
        forall c :: c in old(row.value.chunksList) || c in old(row.value.stagedChunks) ==> c !in chunkRows
      ensures outcome.Deleted? && wantCache ==> old(Reachable(State().disk)) !! cache
      ensures !wantCache ==> cache == old(cache)
      ensures !outcome.Deleted? && !w.killed && !w.failMasked ==> row.value.failed
      ensures OnlyItsOwn(old(State()), State())
    {
      ghost var s0 := State();
      EverythingIsListed(row.value);
      Extend(s0, [], s0, Start(wantCache));
      attempt := Some(Attempt(Begun, wantCache, []));
      outcome, trace := Work(wantCache, w, s0, [] + [Start(wantCache)]);
      RunTouchesOnlyItsOwn(s0, trace, State());
      if !outcome.Deleted? {
        trace := GiveUp(w, s0, trace);
      } else {
        RowIsLast(s0, trace, State());
        trace := RemoveRow(s0, trace);
      }
      RunTouchesOnlyItsOwn(s0, trace, State());
    }

    method RemoveRow(ghost s0: Sys, ghost trace: seq<Action>) returns (ghost now: seq<Action>)
      requires Follows(s0, trace, State()) && Enabled(State(), DeleteRow)
      modifies this`row, this`attempt
      ensures Follows(s0, now, State()) && row.None? && attempt.None?
    {
      Extend(s0, trace, State(), DeleteRow);
      row, attempt := None, None;
      now := trace + [DeleteRow];
    }
  }
}
