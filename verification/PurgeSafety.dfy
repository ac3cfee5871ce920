/** What every history of purge attempts keeps, however each attempt was cut. */
module PurgeSafety {
  import opened KgModel
  import opened DerivedPass
  import opened Resume
  import opened PurgeModel

  /** A fresh purge of a document whose anchors are in place. */
  ghost predicate Startable(s: Store, gone: set<Chunk>) {
    && s.entityRow.Some? && s.relationRow.Some?
    && (gone == {} ==> s.entityRow.value == {} && s.relationRow.value == {})
    && !Conflicts(s, gone) && PhaseOf(s, gone).None?
  }

  ghost predicate AnchorsCover(s: Store, gone: set<Chunk>) {
    GraphCovered(s.kg, Listed(s.entityRow) + Listed(s.relationRow) + s.patchNames, gone)
  }

  /** Until `derived_committed` the anchors stand, and cover the graph if they did at first;
      from then on the graph they covered names nothing purged; a row goes missing only once
      `anchors_pending` is durable. */
  ghost predicate Safe(s0: Store, s: Store, gone: set<Chunk>) {
    && !Conflicts(s, gone)
    && s.patchNames == s0.patchNames
    && (Entry(s, gone) < 7 ==> s.entityRow == s0.entityRow && s.relationRow == s0.relationRow)
    && (Entry(s, gone) < 5 ==> s.chunkRows == s0.chunkRows)
    && (AnchorsCover(s0, gone) ==> if Entry(s, gone) < 5 then AnchorsCover(s, gone) else NamesNone(s.kg, gone))
    && s0.chunkRows - gone <= s.chunkRows <= s0.chunkRows
  }

  lemma EntryOfProgress(s: Store, gone: set<Chunk>, pc: nat)
    requires Entry(s, gone) <= pc <= WRITES
    ensures !Conflicts(s, gone) ==> !Conflicts(Progress(s, gone, pc), gone)
    ensures pc > Entry(s, gone) ==>
      Entry(Progress(s, gone, pc), gone) == (if pc < 5 then 1 else if pc < 7 then 5 else if pc < WRITES then 7 else WRITES)
    ensures pc == Entry(s, gone) ==> Entry(Progress(s, gone, pc), gone) == pc
  {
  }

  /** The journal says where to go on: a retry repeats at most the stretch since the last phase
      write, and run to its end it leaves the rows an uninterrupted attempt leaves. */
  lemma RetryResumesAtItsPhase(s: Store, gone: set<Chunk>, pc: nat)
    requires !Conflicts(s, gone) && Entry(s, gone) <= pc <= WRITES
    ensures var t, end := Progress(s, gone, pc), Progress(s, gone, WRITES);
      && !Conflicts(t, gone) && Entry(s, gone) <= Entry(t, gone) <= pc
      && (pc == 1 || pc == 5 || pc == 7 || pc == WRITES ==> Entry(t, gone) == pc)
      && Progress(t, gone, WRITES).chunkRows == end.chunkRows
      && Progress(t, gone, WRITES).entityRow == end.entityRow
      && Progress(t, gone, WRITES).relationRow == end.relationRow
      && PhaseOf(Progress(t, gone, WRITES), gone) == PhaseOf(end, gone) == Some(Completed)
  {
    var t := Progress(s, gone, pc);
    EntryOfProgress(s, gone, pc);
    EntryOfProgress(s, gone, WRITES);
    EntryOfProgress(t, gone, WRITES);
    assert s.chunkRows - gone - gone == s.chunkRows - gone;
  }

  lemma SafeProgress(s0: Store, s: Store, gone: set<Chunk>, pc: nat)
    requires Startable(s0, gone) && Safe(s0, s, gone)
    requires Entry(s, gone) <= pc <= WRITES
    ensures Safe(s0, Progress(s, gone, pc), gone)
    ensures Entry(Progress(s, gone, pc), gone) >= Entry(s, gone)
  {
    var t := Progress(s, gone, pc);
    EntryOfProgress(s, gone, pc);
    if Entry(s, gone) <= 1 {
      assert Candidates(s, gone) == Listed(s0.entityRow) + Listed(s0.relationRow) + s0.patchNames;
      if AnchorsCover(s0, gone) {
        DeriveCleansGraph(s.kg, Candidates(s, gone), gone, BestEffort);
        PartwayKeepsCoverage(s.kg, Candidates(s, gone), gone, pc);
      }
    }
  }

  lemma PartwayKeepsCoverage(kg: Kg, candidates: set<Obj>, gone: set<Chunk>, pc: nat)
    requires GraphCovered(kg, candidates, gone)
    ensures GraphCovered(Partway(kg, candidates, gone, BestEffort, pc), candidates, gone)
  {
  }

  lemma SafeTorn(s0: Store, s: Store, gone: set<Chunk>, pc: nat, t: Store)
    requires Startable(s0, gone) && Safe(s0, s, gone)
    requires Entry(s, gone) <= pc < WRITES && Torn(s, gone, pc, t)
    ensures Safe(s0, t, gone) && Entry(t, gone) >= Entry(s, gone)
  {
    SafeProgress(s0, s, gone, pc);
    assert t.journal == Progress(s, gone, pc).journal;
    EntryOfProgress(s, gone, pc);
    if pc <= 3 {
      assert Candidates(s, gone) == Listed(s0.entityRow) + Listed(s0.relationRow) + s0.patchNames;
      if AnchorsCover(s0, gone) {
        PartialLandingKeepsCoverage(s.kg, t.kg, Candidates(s, gone), gone, BestEffort);
      }
    }
  }

  lemma SafeAttempt(s0: Store, s: Store, gone: set<Chunk>, t: Store)
    requires Startable(s0, gone) && Safe(s0, s, gone) && Attempt(s, gone, t)
    ensures Safe(s0, t, gone) && Entry(t, gone) >= Entry(s, gone)
  {
    if !Refused(s, gone) {
      if pc :| Entry(s, gone) <= pc <= WRITES && t == Progress(s, gone, pc) {
        SafeProgress(s0, s, gone, pc);
      } else {
        var pc :| Entry(s, gone) <= pc < WRITES && Torn(s, gone, pc, t);
        SafeTorn(s0, s, gone, pc, t);
      }
    }
  }

  lemma {:induction false} SafeHistory(states: seq<Store>, gone: set<Chunk>, i: nat)
    requires History(states, gone) && Startable(states[0], gone)
    requires i < |states|
    ensures Safe(states[0], states[i], gone)
  {
    if i > 0 {
      SafeHistory(states, gone, i - 1);
      SafeAttempt(states[0], states[i - 1], gone, states[i]);
    }
  }

  /** Safe destructive order. In every state any sequence of cut attempts can leave, a purged
      chunk row that is missing implies the derived pass is journaled, and no graph object
      names a chunk whose row is gone. */
  lemma NoGraphObjectNamesADeletedChunk(states: seq<Store>, gone: set<Chunk>, i: nat)
    requires History(states, gone) && Startable(states[0], gone) && AnchorsCover(states[0], gone)
    requires i < |states|
    ensures forall c :: c in states[0].chunkRows && c !in states[i].chunkRows ==>
      c in gone && Entry(states[i], gone) >= 5
    ensures forall o, c :: o in states[i].kg.graph && c in states[i].kg.graph[o] && c in states[0].chunkRows ==>
      c in states[i].chunkRows
  {
    SafeHistory(states, gone, i);
    var s := states[i];
    forall o, c | o in s.kg.graph && c in s.kg.graph[o] && c in states[0].chunkRows
      ensures c in s.chunkRows
    {
      assert c in Ids(s.kg.graph[o]);
    }
  }

  /** No lock-out. Phases never move back, a missing anchor row means the journal is past
      `anchors_pending`, the retry is never refused, and uninterrupted it completes. */
  lemma PurgeNeverLocksItselfOut(states: seq<Store>, gone: set<Chunk>, i: nat)
    requires History(states, gone) && Startable(states[0], gone)
    requires i < |states|
    ensures var s := states[i];
      && (s.entityRow.None? || s.relationRow.None? ==>
            PhaseOf(s, gone) == Some(AnchorsPending) || PhaseOf(s, gone) == Some(Completed))
      && !Refused(s, gone)
      && PhaseOf(Progress(s, gone, WRITES), gone) == Some(Completed)
      && (i + 1 < |states| ==> Entry(states[i + 1], gone) >= Entry(s, gone))
  {
    SafeHistory(states, gone, i);
    EntryOfProgress(states[i], gone, WRITES);
    if i + 1 < |states| {
      SafeAttempt(states[0], states[i], gone, states[i + 1]);
    }
  }

  // ----- when a purge is refused -----

  /** An unfinished purge of another chunk set, or of no set that can be read, is on record. */
  predicate ForeignPurge(s: Store, gone: set<Chunk>) {
    s.journal.Some? && s.journal.value.phase != Completed && s.journal.value.operation != Some(gone)
  }

  /** A purge of this chunk set got past the derived pass, so its anchors may be gone. */
  predicate PastDerived(s: Store, gone: set<Chunk>) {
    && s.journal.Some? && s.journal.value.operation == Some(gone)
    && s.journal.value.phase in {DerivedCommitted, AnchorsPending, Completed}
  }

  /** What the document contributed can be told from what is stored: both anchor rows are there
      and there are chunks to look for, or nothing of the document is in the graph. */
  predicate Attributable(s: Store, gone: set<Chunk>) {
    var missing := s.entityRow.None? || s.relationRow.None?;
    var named := Listed(s.entityRow) + Listed(s.relationRow);
    || (missing && s.preGraph)
    || (gone != {} && !missing)
    || (gone == {} && named == {})
  }

  /** An attempt can change anything exactly when no other purge is in the way, this one is not
      finished, and its contributions can be told or an earlier attempt has dealt with them. */
  lemma PurgeActsIff(s: Store, gone: set<Chunk>)
    ensures (exists t :: Attempt(s, gone, t) && t != s)
      <==> && !ForeignPurge(s, gone) && (PastDerived(s, gone) || Attributable(s, gone))
           && !(PastDerived(s, gone) && s.journal.value.phase == Completed)
  {
    if !Refused(s, gone) && Entry(s, gone) < WRITES {
      var t := Progress(s, gone, WRITES);
      EntryOfProgress(s, gone, WRITES);
      assert Attempt(s, gone, t) && t != s;
    }
  }

  /** Fail closed. A document whose anchor row is lost, or that names objects but owns no chunks
      to tell them by, is left as it is by every history of attempts, unless its journal is past
      the derived pass or its merge never started. */
  lemma {:induction false} LostAnchorsLeaveNoTrace(states: seq<Store>, gone: set<Chunk>, i: nat)
    requires History(states, gone) && i < |states|
    requires var s := states[0];
      && !PastDerived(s, gone)
      && (|| (gone != {} && (s.entityRow.None? || s.relationRow.None?) && !s.preGraph)
          || (gone == {} && Listed(s.entityRow) + Listed(s.relationRow) != {}
                && (!s.preGraph || (s.entityRow.Some? && s.relationRow.Some?))))
    ensures states[i] == states[0]
  {
    if i > 0 {
      LostAnchorsLeaveNoTrace(states, gone, i - 1);
      assert Attempt(states[i - 1], gone, states[i]);
    }
  }

  /** An allowed attempt that has the derived pass before it looks for everything any record
      names, but for a merge that never started: then only what unfinished operations name. */
  lemma AllowedAttemptLooksEverywhere(s: Store, gone: set<Chunk>)
    requires !Refused(s, gone) && !PastDerived(s, gone)
    ensures Candidates(s, gone) ==
      if (s.entityRow.None? || s.relationRow.None?) && s.preGraph then s.patchNames
      else Listed(s.entityRow) + Listed(s.relationRow) + s.patchNames
  {
  }

  // ----- convergence -----

  ghost function FinalKg(s: Store, gone: set<Chunk>): Kg {
    if Entry(s, gone) <= 1 then Derive(s.kg, Candidates(s, gone), gone, BestEffort) else s.kg
  }

  ghost predicate Converging(s0: Store, s: Store, gone: set<Chunk>) {
    && !Conflicts(s, gone)
    && s.patchNames == s0.patchNames
    && (Entry(s, gone) < 7 ==> s.entityRow == s0.entityRow && s.relationRow == s0.relationRow)
    && (Entry(s, gone) == WRITES ==> s.entityRow.None? && s.relationRow.None?)
    && s0.chunkRows - gone <= s.chunkRows
    && (Entry(s, gone) < 7 ==> s.chunkRows <= s0.chunkRows)
    && (Entry(s, gone) >= 7 ==> s.chunkRows == s0.chunkRows - gone)
    && FinalKg(s, gone) == FinalKg(s0, gone)
    && (Entry(s, gone) <= 1 ==> Resumable(s.kg, Candidates(s, gone), gone))
  }

  /** While the derived pass is open, only its outcome matters. */
  lemma SameOutcomeConverges(s0: Store, s: Store, gone: set<Chunk>, t: Store)
    requires Converging(s0, s, gone) && Entry(s, gone) <= 1
    requires t == s.(kg := t.kg, journal := t.journal) && Entry(t, gone) <= 1 && !Conflicts(t, gone)
    requires Candidates(t, gone) == Candidates(s, gone)
    requires Derive(t.kg, Candidates(s, gone), gone, BestEffort) == Derive(s.kg, Candidates(s, gone), gone, BestEffort)
    requires Resumable(t.kg, Candidates(s, gone), gone)
    ensures Converging(s0, t, gone)
  {
  }

  lemma ConvergingProgress(s0: Store, s: Store, gone: set<Chunk>, pc: nat)
    requires Startable(s0, gone) && Converging(s0, s, gone)
    requires Entry(s, gone) <= pc <= WRITES
    ensures Converging(s0, Progress(s, gone, pc), gone)
  {
    var t := Progress(s, gone, pc);
    EntryOfProgress(s, gone, pc);
    var candidates := Candidates(s, gone);
    if Entry(s, gone) <= 1 && pc <= 4 {
      assert Candidates(t, gone) == candidates;
      if pc == 2 {
        RerunAfterTrackingCut(s.kg, t.kg, candidates, gone);
      } else if pc == 3 {
        RerunAfterRebuildCut(s.kg, t.kg, candidates, gone);
      } else if pc == 4 {
        WholeDeriveIsARebuildCut(s.kg, candidates, gone);
        RerunAfterRebuildCut(s.kg, t.kg, candidates, gone);
      }
      SameOutcomeConverges(s0, s, gone, t);
    }
  }

  lemma WholeDeriveIsARebuildCut(kg: Kg, candidates: set<Obj>, gone: set<Chunk>)
    ensures RebuildCut(kg, Derive(kg, candidates, gone, BestEffort), candidates, gone)
  {
  }

  lemma ConvergingAttempt(s0: Store, s: Store, gone: set<Chunk>, t: Store)
    requires Startable(s0, gone) && Converging(s0, s, gone) && OrderlyAttempt(s, gone, t)
    ensures Converging(s0, t, gone)
  {
    if !Refused(s, gone) {
      if pc :| Entry(s, gone) <= pc <= WRITES && t == Progress(s, gone, pc) {
        ConvergingProgress(s0, s, gone, pc);
      } else {
        var pc :| Entry(s, gone) <= pc < WRITES && OrderlyTorn(s, gone, pc, t);
        ConvergingTorn(s0, s, gone, pc, t);
      }
    }
  }

  lemma ConvergingTorn(s0: Store, s: Store, gone: set<Chunk>, pc: nat, t: Store)
    requires Startable(s0, gone) && Converging(s0, s, gone)
    requires Entry(s, gone) <= pc < WRITES && OrderlyTorn(s, gone, pc, t)
    ensures Converging(s0, t, gone)
  {
    EntryOfProgress(s, gone, pc);
    assert t.journal == Progress(s, gone, pc).journal;
    if pc <= 3 {
      ConvergingDerivedTear(s0, s, gone, pc, t);
    } else {
      ConvergingProgress(s0, s, gone, pc);
      assert FinalKg(t, gone) == FinalKg(Progress(s, gone, pc), gone);
    }
  }

  lemma ConvergingDerivedTear(s0: Store, s: Store, gone: set<Chunk>, pc: nat, t: Store)
    requires Startable(s0, gone) && Converging(s0, s, gone)
    requires Entry(s, gone) <= pc <= 3 && OrderlyTorn(s, gone, pc, t)
    ensures Converging(s0, t, gone)
  {
    TornJournal(s, gone, pc, t);
    TearConverges(s0, s, gone, pc, t);
  }

  lemma TearConverges(s0: Store, s: Store, gone: set<Chunk>, pc: nat, t: Store)
    requires Converging(s0, s, gone) && Entry(s, gone) <= pc <= 3 && OrderlyTorn(s, gone, pc, t)
    requires t == s.(kg := t.kg, journal := t.journal) && Entry(t, gone) <= 1 && !Conflicts(t, gone)
    requires Candidates(t, gone) == Candidates(s, gone)
    ensures Converging(s0, t, gone)
  {
    RerunAfterTear(s, gone, pc, t);
    SameOutcomeConverges(s0, s, gone, t);
  }

  lemma RerunAfterTear(s: Store, gone: set<Chunk>, pc: nat, t: Store)
    requires Resumable(s.kg, Candidates(s, gone), gone)
    requires Entry(s, gone) <= pc <= 3 && OrderlyTorn(s, gone, pc, t)
    ensures Derive(t.kg, Candidates(s, gone), gone, BestEffort) == Derive(s.kg, Candidates(s, gone), gone, BestEffort)
    ensures Resumable(t.kg, Candidates(s, gone), gone)
  {
    if pc == 1 {
      RerunAfterTrackingCut(s.kg, t.kg, Candidates(s, gone), gone);
    } else {
      RerunAfterRebuildCut(s.kg, t.kg, Candidates(s, gone), gone);
    }
  }

  /** A tear of the derived pass leaves everything but the graph, its tracking and the journal
      as it was, and the pass still open. */
  lemma TornJournal(s: Store, gone: set<Chunk>, pc: nat, t: Store)
    requires s.entityRow.Some? && s.relationRow.Some? && !Conflicts(s, gone)
    requires gone == {} ==> s.entityRow.value == {} && s.relationRow.value == {}
    requires Entry(s, gone) <= pc <= 3 && OrderlyTorn(s, gone, pc, t)
    ensures t == s.(kg := t.kg, journal := t.journal) && Entry(t, gone) <= 1 && !Conflicts(t, gone)
    ensures Candidates(t, gone) == Candidates(s, gone)
  {
    EntryOfProgress(s, gone, pc);
    assert t.journal == Progress(s, gone, pc).journal;
  }

  lemma {:induction false} ConvergingHistory(states: seq<Store>, gone: set<Chunk>, i: nat)
    requires OrderlyHistory(states, gone) && Startable(states[0], gone)
    requires Resumable(states[0].kg, Candidates(states[0], gone), gone)
    requires i < |states|
    ensures Converging(states[0], states[i], gone)
  {
    if i > 0 {
      ConvergingHistory(states, gone, i - 1);
      ConvergingAttempt(states[0], states[i - 1], gone, states[i]);
    }
  }

  /** Every history from here that reaches `completed`, cut anywhere but inside the removals,
      ends as one uninterrupted purge. */
  ghost predicate AlwaysConverges(s0: Store, gone: set<Chunk>) {
    forall states :: OrderlyHistory(states, gone) && Ends(states, s0, gone) ==>
      SameEnd(states[|states| - 1], Progress(s0, gone, WRITES))
  }

  lemma ResumableConverges(states: seq<Store>, gone: set<Chunk>)
    requires OrderlyHistory(states, gone) && Startable(states[0], gone)
    requires Resumable(states[0].kg, Candidates(states[0], gone), gone)
    requires PhaseOf(states[|states| - 1], gone) == Some(Completed)
    ensures SameEnd(states[|states| - 1], Progress(states[0], gone, WRITES))
  {
    ConvergingHistory(states, gone, |states| - 1);
  }

  /** Cut once right after the tracking writes, and then run to its end. */
  function CutAfterTracking(s0: Store, gone: set<Chunk>): (r: seq<Store>)
    requires Entry(s0, gone) == 0
    ensures |r| == 3 && r[0] == s0
  {
    var half := Progress(s0, gone, 2);
    EntryOfProgress(s0, gone, 2);
    [s0, half, Progress(half, gone, WRITES)]
  }

  lemma CutAfterTrackingIsAHistory(s0: Store, gone: set<Chunk>)
    requires Startable(s0, gone)
    ensures var states := CutAfterTracking(s0, gone);
      && OrderlyHistory(states, gone) && CascadingHistory(states, gone) && Ends(states, s0, gone)
      && states[2].kg == Derive(ReduceTracking(s0.kg, Rebuilds(s0.kg, Candidates(s0, gone), gone, BestEffort)),
                                Candidates(s0, gone), gone, BestEffort)
  {
    var half := Progress(s0, gone, 2);
    EntryOfProgress(s0, gone, 2);
    EntryOfProgress(half, gone, WRITES);
    assert half == Progress(s0, gone, 2) && !Refused(half, gone);
  }

  /** The purge converges whatever the cuts exactly when every survivor whose tracking shrinks
      is selected again through its graph list, or already has its final list there. */
  lemma PurgeConvergesIff(s0: Store, gone: set<Chunk>)
    requires Startable(s0, gone)
    ensures AlwaysConverges(s0, gone) <==> Resumable(s0.kg, Candidates(s0, gone), gone)
  {
    if Resumable(s0.kg, Candidates(s0, gone), gone) {
      forall states | OrderlyHistory(states, gone) && Ends(states, s0, gone)
        ensures SameEnd(states[|states| - 1], Progress(s0, gone, WRITES))
      {
        ResumableConverges(states, gone);
      }
    } else {
      var states := CutAfterTracking(s0, gone);
      CutAfterTrackingIsAHistory(s0, gone);
      CutConvergesIffResumable(s0.kg, Candidates(s0, gone), gone);
      assert !SameEnd(states[|states| - 1], Progress(s0, gone, WRITES));
    }
  }

  /** So it does when no source list was capped. */
  lemma PurgeConverges(s0: Store, gone: set<Chunk>)
    requires Startable(s0, gone) && Uncapped(s0.kg)
    ensures AlwaysConverges(s0, gone)
  {
    UncappedIsResumable(s0.kg, Candidates(s0, gone), gone);
    PurgeConvergesIff(s0, gone);
  }
}
