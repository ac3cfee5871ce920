/** The invariant that rests on no hypothesis about anchors or tracking rows: journals are
    sound, committed contents are kept, and the copies in memory agree with the disk. */
module CustomChunkSoundness {
  import opened KgModel
  import opened CustomChunks
  import opened CustomChunkCoverage

  /** The part of the invariant that every step keeps, whatever the tracking rows say. */
  ghost predicate Sturdy(s: Sys) {
    && JournalSound(s.doc, s.disk) && TextsKept(s.disk) && RunInv(s)
    && (s.rollback.Some? ==>
          && s.run.None? && s.disk.row.Some? && s.disk.row.value.patch == Some(s.rollback.value.journal)
          && (s.rollback.value.pc == Purging ==> s.rollback.value.kgAtStart == s.disk.kg))
  }

  lemma BeginKeepsSturdy(s: Sys, inputs: seq<string>)
    requires Sturdy(s) && Enabled(s, Begin(inputs))
    ensures Sturdy(Step(s, Begin(inputs)))
  {
    var t, decision := Step(s, Begin(inputs)), Decide(s.doc, s.disk, inputs);
    assert Committed(t.disk) == Committed(s.disk);
    if decision.Go? && !decision.resume {
      forall c | c in decision.entries
        ensures c !in CommittedIds(s.disk)
      {
        if c in CommittedIds(s.disk) {
          CommittedText(s.disk, c);
        }
      }
    }
  }

  lemma StepKeepsSturdy(s: Sys, a: Action)
    requires Sturdy(s) && Enabled(s, a)
    ensures Sturdy(Step(s, a))
  {
    if a.Begin? { BeginKeepsSturdy(s, a.inputs); }
    else if a.Commit? { CommitKeepsSturdy(s); }
    else if a.StageChunks? { StagingKeepsSturdy(s); }
    else if a.DeleteChunkRows? || a.ChunkRowsDeleted? { DeletionKeepsSturdy(s, a); }
    else if a.Fail? || a.FinishRollback? { RestingKeepsSturdy(s, a); }
    else if IsRollbackStep(a) || a.Crash? { RollingKeepsSturdy(s, a); }
    else if a.WriteApplying? || a.WriteAhead? { JournalingKeepsSturdy(s, a); }
    else if a.ReplaceEntityRow? || a.ReplaceRelationRow? { ReplacingKeepsSturdy(s, a); }
    else if a.UnionEntityRow? || a.UnionRelationRow? { UnioningKeepsSturdy(s, a); }
    else { RunningKeepsSturdy(s, a); }
  }

  lemma CommitKeepsSturdy(s: Sys)
    requires Sturdy(s) && Enabled(s, Commit)
    ensures Sturdy(Step(s, Commit))
  {
    CommitKeepsChunks(s);
  }

  /** Committed rows are never among the staged ones, so writing or deleting the latter leaves
      every committed content alone. */
  lemma CommittedRowsAreNotStaged(s: Sys)
    requires Sturdy(s) && s.disk.row.Some?
    ensures forall c :: c in s.disk.row.value.chunksList ==> c !in StagedIds(s.disk)
  {
  }

  lemma SameContents(disk: Disk, after: Disk)
    requires disk.row.Some? && after.row.Some? && after.row.value.chunksList == disk.row.value.chunksList
    requires forall c :: c in CommittedIds(disk) ==>
      (c in after.texts <==> c in disk.texts) && (c in disk.texts ==> after.texts[c] == disk.texts[c])
    ensures Committed(after) == Committed(disk)
  {
  }

  lemma StagingKeepsSturdy(s: Sys)
    requires Sturdy(s) && Enabled(s, StageChunks)
    ensures Sturdy(Step(s, StageChunks))
  {
    CommittedRowsAreNotStaged(s);
    SameContents(s.disk, Step(s, StageChunks).disk);
    StagingWritesTexts(s);
  }

  lemma StagingWritesTexts(s: Sys)
    requires Sturdy(s) && Enabled(s, StageChunks)
    ensures RunInv(Step(s, StageChunks))
    ensures TextsKept(Step(s, StageChunks).disk)
  {
  }

  lemma DeletionKeepsSturdy(s: Sys, a: Action)
    requires Sturdy(s) && Enabled(s, a) && (a.DeleteChunkRows? || a.ChunkRowsDeleted?)
    ensures Sturdy(Step(s, a))
  {
    CommittedRowsAreNotStaged(s);
    var t := Step(s, a);
    SameContents(s.disk, t.disk);
  }

  lemma RestingKeepsSturdy(s: Sys, a: Action)
    requires Sturdy(s) && Enabled(s, a) && (a.Fail? || a.FinishRollback?)
    ensures Sturdy(Step(s, a))
  {
    if a.Fail? {
      assert Committed(Step(s, a).disk) == Committed(s.disk);
    }
  }

  lemma RollingKeepsSturdy(s: Sys, a: Action)
    requires Sturdy(s) && Enabled(s, a)
    requires a.StartRollback? || a.TearPurge? || a.PurgeDerived? || a.SettleEntityRow? || a.SettleRelationRow?
      || a.DeleteBody? || a.Crash?
    ensures Sturdy(Step(s, a))
  {
    assert Committed(Step(s, a).disk) == Committed(s.disk);
  }

  lemma JournalingKeepsSturdy(s: Sys, a: Action)
    requires Sturdy(s) && Enabled(s, a) && (a.WriteApplying? || a.WriteAhead?)
    ensures Sturdy(Step(s, a))
  {
    assert Committed(Step(s, a).disk) == Committed(s.disk);
  }

  lemma ReplacingKeepsSturdy(s: Sys, a: Action)
    requires Sturdy(s) && Enabled(s, a) && (a.ReplaceEntityRow? || a.ReplaceRelationRow?)
    ensures Sturdy(Step(s, a))
  {
    SameContents(s.disk, Step(s, a).disk);
  }

  lemma UnioningKeepsSturdy(s: Sys, a: Action)
    requires Sturdy(s) && Enabled(s, a) && (a.UnionEntityRow? || a.UnionRelationRow?)
    ensures Sturdy(Step(s, a))
  {
    SameContents(s.disk, Step(s, a).disk);
  }

  lemma RunningKeepsSturdy(s: Sys, a: Action)
    requires Sturdy(s) && Enabled(s, a)
    requires a.Extract? || a.StartMerge? || a.Merge? || a.RecordSummary? || a.FinishMerge?
    ensures Sturdy(Step(s, a))
  {
    SameContents(s.disk, Step(s, a).disk);
    RunningKeepsRun(s, a);
  }

  lemma RunningKeepsRun(s: Sys, a: Action)
    requires Sturdy(s) && Enabled(s, a)
    requires a.Extract? || a.StartMerge? || a.Merge? || a.RecordSummary? || a.FinishMerge?
    ensures RunInv(Step(s, a)) && Step(s, a).rollback.None?
  {
  }

  lemma CommitKeepsChunks(s: Sys)
    requires Sturdy(s) && Enabled(s, Commit)
    ensures CommittedIds(Step(s, Commit).disk) == CommittedIds(s.disk) + Ids(s.run.value.journal.chunkIds)
    ensures Step(s, Commit).disk.texts == s.disk.texts
    ensures Step(s, Commit).disk.row.Some? && Step(s, Commit).disk.row.value.patch.None?
    ensures Step(s, Commit).disk.row.value.status == Processed
  {
    IdsOfConcat(s.run.value.base.chunksList, s.run.value.journal.chunkIds);
  }

  lemma CommittedText(disk: Disk, c: Chunk)
    requires c in CommittedIds(disk) && c in disk.texts && disk.texts[c] != ""
    ensures disk.texts[c] in Committed(disk)
  {
  }

  lemma StepKeepsDocument(s: Sys, a: Action)
    requires Enabled(s, a)
    ensures Step(s, a).doc == s.doc
  {
  }

  lemma InvIsSturdy(s: Sys)
    requires Inv(s)
    ensures Sturdy(s)
  {
  }

  lemma {:induction false} TraceKeepsSturdy(s: Sys, trace: seq<Action>)
    requires Sturdy(s) && Legal(s, trace)
    ensures Sturdy(Replay(s, trace))
    ensures HasBody(s) ==> HasBody(Replay(s, trace))
    decreases trace
  {
    if trace != [] {
      StepKeepsSturdy(s, trace[0]);
      if HasBody(s) {
        StepKeepsBody(s, trace[0]);
      }
      TraceKeepsSturdy(Step(s, trace[0]), trace[1..]);
    }
  }

  // ----- what a commit leaves -----

  /** The document owns every content of the call and is at rest or in one operation. */
  ghost predicate OwnsAll(s: Sys, inputs: seq<string>) {
    && s.disk.row.Some? && (s.disk.row.value.patch.None? ==> s.disk.row.value.status == Processed)
    && forall c :: c in Entries(s.doc, inputs) ==> c.text in Committed(s.disk)
  }

  lemma CommitOwnsAll(s: Sys, inputs: seq<string>)
    requires Sturdy(s) && Enabled(s, Commit)
    requires Entries(s.doc, inputs) == s.run.value.journal.operation
    ensures OwnsAll(Step(s, Commit), inputs)
  {
    var t, j := Step(s, Commit), s.run.value.journal;
    CommitKeepsChunks(s);
    StepKeepsDocument(s, Commit);
    forall c | c in Entries(s.doc, inputs)
      ensures c.text in Committed(t.disk)
    {
      if c in j.chunkIds {
        CommittedText(t.disk, c);
      } else {
        var owned :| owned in s.disk.row.value.chunksList && owned in s.disk.texts && s.disk.texts[owned] == c.text;
        CommittedText(t.disk, owned);
      }
    }
  }

  /** An insert under way creates the document, and has not finished. */
  ghost predicate Creating(s: Sys) {
    s.disk.row.Some? && s.disk.row.value.patch.Some? && s.disk.row.value.patch.value.mode == Create
  }

  /** A document has its body, unless an insert that creates it is unfinished; and then it has
      one as soon as the attempt under way has staged. */
  ghost predicate HasBody(s: Sys) {
    && (s.disk.row.Some? && !Creating(s) ==> s.disk.body)
    && (s.run.Some? && s.run.value.journal.mode == Create && s.run.value.pc != Begun ==> s.disk.body)
  }

  lemma StepKeepsBody(s: Sys, a: Action)
    requires Sturdy(s) && HasBody(s) && Enabled(s, a)
    ensures HasBody(Step(s, a))
  {
    if IsRollbackStep(a) || a.Crash? {
      RollingKeepsBody(s, a);
    } else if a.Begin? || a.StageChunks? || a.Commit? || a.Fail? {
      StatusWriteKeepsBody(s, a);
    } else {
      RunningKeepsBody(s, a);
    }
  }

  lemma RollingKeepsBody(s: Sys, a: Action)
    requires Sturdy(s) && HasBody(s) && Enabled(s, a) && (IsRollbackStep(a) || a.Crash?)
    ensures HasBody(Step(s, a))
  {
  }

  lemma StatusWriteKeepsBody(s: Sys, a: Action)
    requires Sturdy(s) && HasBody(s) && Enabled(s, a) && (a.Begin? || a.StageChunks? || a.Commit? || a.Fail?)
    ensures HasBody(Step(s, a))
  {
  }

  lemma RunningKeepsBody(s: Sys, a: Action)
    requires Sturdy(s) && HasBody(s) && Enabled(s, a) && !IsRollbackStep(a) && !a.Crash?
    requires !a.Begin? && !a.StageChunks? && !a.Commit? && !a.Fail?
    ensures HasBody(Step(s, a))
  {
  }
}
