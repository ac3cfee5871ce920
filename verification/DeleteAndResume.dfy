/** Whole-document deletes and custom-chunk operations on the same document, interleaved. A
    status row carries both journals: the operation's steps pass the delete's journal on without
    reading it, and a retried delete trusts the phase it finds there. */
module DeleteAndResume {
  import opened KgModel
  import opened DerivedPass
  import opened PurgeModel
  import opened PurgeSafety
  import opened CustomChunks
  import opened MergeWrites
  import opened CustomChunkCoverage
  import opened CustomChunkSoundness

  /** The purge journal is a key of the status row and goes with it. */
  datatype World = World(sys: Sys, purge: Option<PurgeJournal>)

  datatype Move =
    | Custom(action: Action)
    | Delete(after: Store)

  /** What a delete takes for the document's chunks, staged ones included. */
  function ChunksOf(s: Sys): set<Chunk> {
    CommittedIds(s.disk) + StagedIds(s.disk)
  }

  function Chunks(w: World): set<Chunk> {
    ChunksOf(w.sys)
  }

  /** What a delete sees of a document whose own merge has started. */
  function View(w: World): Store {
    var disk := w.sys.disk;
    Store(disk.kg, disk.texts.Keys, disk.entityRow, disk.relationRow, w.purge, false, JournalNames(disk))
  }

  /** A delete and an operation hold the same reservation, so neither runs inside the other;
      a delete may be cut anywhere. */
  ghost predicate Possible(w: World, m: Move) {
    match m
    case Custom(a) => Enabled(w.sys, a)
    case Delete(t) =>
      && w.sys.run.None? && w.sys.rollback.None? && w.sys.disk.row.Some?
      && Attempt(View(w), Chunks(w), t)
  }

  ghost function Next(w: World, m: Move): World
    requires Possible(w, m)
  {
    match m
    case Custom(a) =>
      var sys := Step(w.sys, a);
      World(sys, if sys.disk.row.None? then None else w.purge)
    case Delete(t) =>
      var kept := map c | c in w.sys.disk.texts && c in t.chunkRows :: w.sys.disk.texts[c];
      var disk := w.sys.disk.(kg := t.kg, texts := kept, entityRow := t.entityRow, relationRow := t.relationRow);
      World(w.sys.(disk := disk), t.journal)
  }

  /** How far the delete of the document as it now stands is journaled. */
  function Reached(w: World): nat {
    Entry(View(w), Chunks(w))
  }

  // ----- what is to hold -----

  /** A delete removes no chunk row that the graph names, and when it reports completion the
      graph names no chunk of the document. */
  ghost predicate Orderly(w: World, m: Move)
    requires Possible(w, m)
  {
    m.Delete? ==>
      var t := Next(w, m);
      && (forall o, c :: o in t.sys.disk.kg.graph && c in t.sys.disk.kg.graph[o] && c in w.sys.disk.texts ==>
            c in t.sys.disk.texts)
      && (Reached(t) == WRITES ==> NamesNone(t.sys.disk.kg, Chunks(t)))
  }

  /** The chunk set stays what it is, and no write of a merge lands from `derived_committed` on. */
  ghost predicate Quiet(w: World, trace: seq<Move>)
    decreases trace
  {
    trace != [] ==>
      && Possible(w, trace[0]) && (trace[0].Custom? && trace[0].action.Merge? ==> Reached(w) < 5)
      && Chunks(Next(w, trace[0])) == Chunks(w)
      && Quiet(Next(w, trace[0]), trace[1..])
  }

  ghost predicate OrderlyThroughout(w: World, trace: seq<Move>)
    requires Quiet(w, trace)
    decreases trace
  {
    trace != [] ==> Orderly(w, trace[0]) && OrderlyThroughout(Next(w, trace[0]), trace[1..])
  }

  // ----- the invariant -----

  ghost predicate MentionsCovered(kg: Kg, names: set<Obj>, gone: set<Chunk>) {
    forall o :: o in kg.graph && !(Mentions(kg, o) !! gone) ==> o in names
  }

  /** What no delete can disturb: the copies in memory agree with the disk. */
  ghost predicate Tidy(s: Sys) {
    && (s.run.Some? ==>
          var r := s.run.value;
          && s.rollback.None? && s.disk.row == Some(r.base) && r.base.patch.Some?
          && r.base.patch.value == r.journal.(events := r.base.patch.value.events))
    && (s.rollback.Some? ==>
          && s.run.None? && s.disk.row.Some? && s.disk.row.value.patch == Some(s.rollback.value.journal)
          && (s.rollback.value.pc == Purging ==> s.rollback.value.kgAtStart == s.disk.kg))
    && (Creating(s) ==> s.disk.row.value.chunksList == [])
  }

  /** A first insert replaces the anchor rows, so its journal alone must name what it touched. */
  ghost predicate Anchored(s: Sys, gone: set<Chunk>) {
    && MentionsCovered(s.disk.kg, AnchorNames(s.disk) + JournalNames(s.disk), gone)
    && (Creating(s) ==> MentionsCovered(s.disk.kg, JournalNames(s.disk), gone))
  }

  /** Up to `derived_committed` everything is anchored; from there on neither list of a graph
      object names a chunk of the document. */
  ghost predicate Secure(w: World, gone: set<Chunk>) {
    && Chunks(w) == gone && Tidy(w.sys)
    && if Reached(w) < 5 then Sturdy(w.sys) && Anchored(w.sys, gone)
       else MentionsCovered(w.sys.disk.kg, {}, gone)
  }

  /** A delete may start wherever coverage holds, at rest or after a crash. */
  lemma InvIsSecure(w: World)
    requires Inv(w.sys) && Reached(w) < 5
    ensures Secure(w, Chunks(w))
  {
    InvIsSturdy(w.sys);
    forall o | o in w.sys.disk.kg.graph && !(Mentions(w.sys.disk.kg, o) !! Chunks(w))
      ensures o in AnchorNames(w.sys.disk) + JournalNames(w.sys.disk)
      ensures Creating(w.sys) ==> o in JournalNames(w.sys.disk)
    {
      var c :| c in Mentions(w.sys.disk.kg, o) && c in Chunks(w);
      assert Accounted(w.sys.doc, w.sys.disk, o, c);
      if Supported(w.sys.disk, o) {
        SupportedIsAnchored(w.sys, o);
      }
    }
  }

  // ----- delete attempts -----

  lemma DeriveClearsMentions(kg: Kg, names: set<Obj>, gone: set<Chunk>)
    requires MentionsCovered(kg, names, gone)
    ensures MentionsCovered(Derive(kg, names, gone, BestEffort), {}, gone)
  {
    var after := Derive(kg, names, gone, BestEffort);
    forall o | o in after.graph
      ensures Mentions(after, o) !! gone
    {
      var rebuilds := Rebuilds(kg, names, gone, BestEffort);
      assert o in kg.graph && o !in Fallen(kg, Drops(kg, names, gone, BestEffort));
      if o in names && o !in rebuilds {
        assert Classify(kg, o, gone, BestEffort).Keep?;
        assert o in kg.tracking ==> Ids(kg.tracking[o]) !! gone;
      }
    }
  }

  lemma LandingKeepsMentions(kg: Kg, part: Kg, names: set<Obj>, ids: set<Chunk>, policy: Policy,
                             all: set<Obj>, gone: set<Chunk>)
    requires PartlyDerived(kg, part, names, ids, policy)
    requires MentionsCovered(kg, all, gone)
    ensures MentionsCovered(part, all, gone)
  {
    PurgeShrinksMentions(kg, part, names, ids, policy);
  }

  /** What an attempt leaves, by the phase it had and the phase it leaves. */
  ghost predicate LeftBy(s: Store, gone: set<Chunk>, t: Store) {
    && !Conflicts(t, gone) && Entry(t, gone) >= Entry(s, gone)
    && s.chunkRows - gone <= t.chunkRows <= s.chunkRows
    && (Entry(t, gone) < 5 ==>
          && PartlyDerived(s.kg, t.kg, Candidates(s, gone), gone, BestEffort)
          && t.chunkRows == s.chunkRows && t.entityRow == s.entityRow && t.relationRow == s.relationRow)
    && (Entry(t, gone) >= 5 ==>
          t.kg == if Entry(s, gone) < 5 then Derive(s.kg, Candidates(s, gone), gone, BestEffort) else s.kg)
  }

  lemma ProgressLeaves(s: Store, gone: set<Chunk>, pc: nat)
    requires !Conflicts(s, gone) && Entry(s, gone) <= pc <= WRITES
    ensures LeftBy(s, gone, Progress(s, gone, pc))
  {
    EntryOfProgress(s, gone, pc);
    PartwayIsALanding(s.kg, Candidates(s, gone), gone, pc);
  }

  lemma TearLeaves(s: Store, gone: set<Chunk>, pc: nat, t: Store)
    requires !Conflicts(s, gone) && Entry(s, gone) <= pc < WRITES && Torn(s, gone, pc, t)
    ensures LeftBy(s, gone, t)
  {
    EntryOfProgress(s, gone, pc);
    assert t.journal == Progress(s, gone, pc).journal;
  }

  lemma AttemptLeaves(s: Store, gone: set<Chunk>, t: Store)
    requires Attempt(s, gone, t) && !Refused(s, gone)
    ensures LeftBy(s, gone, t)
  {
    if pc :| Entry(s, gone) <= pc <= WRITES && t == Progress(s, gone, pc) {
      ProgressLeaves(s, gone, pc);
    } else {
      var pc :| Entry(s, gone) <= pc < WRITES && Torn(s, gone, pc, t);
      TearLeaves(s, gone, pc, t);
    }
  }

  /** A delete that is allowed before `derived_committed` finds both anchor rows, or a document
      without chunks. */
  lemma CandidatesAreAnchored(w: World)
    requires Reached(w) < 5 && !Refused(View(w), Chunks(w))
    ensures Candidates(View(w), Chunks(w)) == AnchorNames(w.sys.disk) + JournalNames(w.sys.disk) || Chunks(w) == {}
  {
  }

  lemma DeleteKeepsSecure(w: World, t: Store, gone: set<Chunk>)
    requires Secure(w, gone) && Possible(w, Delete(t))
    ensures Secure(Next(w, Delete(t)), gone) && Orderly(w, Delete(t))
  {
    var s, after := View(w), Next(w, Delete(t));
    assert Chunks(after) == gone;
    if Refused(s, gone) {
      assert after == w;
    } else {
      AttemptLeaves(s, gone, t);
      AttemptIsSecure(w, t, gone);
    }
  }

  lemma ViewOfNext(w: World, t: Store)
    requires Possible(w, Delete(t)) && t.chunkRows <= View(w).chunkRows
    ensures Reached(Next(w, Delete(t))) == Entry(t, Chunks(w)) && Chunks(Next(w, Delete(t))) == Chunks(w)
    ensures Next(w, Delete(t)).sys.disk.texts.Keys == t.chunkRows
    ensures t.chunkRows == View(w).chunkRows ==> Next(w, Delete(t)).sys.disk.texts == w.sys.disk.texts
  {
  }

  lemma AttemptIsSecure(w: World, t: Store, gone: set<Chunk>)
    requires Secure(w, gone) && Possible(w, Delete(t)) && !Refused(View(w), gone)
    ensures Secure(Next(w, Delete(t)), gone) && Orderly(w, Delete(t))
  {
    var s, after := View(w), Next(w, Delete(t));
    AttemptLeaves(s, gone, t);
    ViewOfNext(w, t);
    if Reached(after) < 5 {
      var all := AnchorNames(w.sys.disk) + JournalNames(w.sys.disk);
      LandingKeepsMentions(s.kg, t.kg, Candidates(s, gone), gone, BestEffort, all, gone);
      if Creating(w.sys) {
        LandingKeepsMentions(s.kg, t.kg, Candidates(s, gone), gone, BestEffort, JournalNames(w.sys.disk), gone);
      }
      assert Committed(after.sys.disk) == Committed(w.sys.disk);
    } else {
      if Reached(w) < 5 {
        CandidatesAreAnchored(w);
        DeriveClearsMentions(s.kg, Candidates(s, gone), gone);
      }
      NothingNamed(after.sys.disk.kg, gone);
    }
  }

  lemma NothingNamed(kg: Kg, gone: set<Chunk>)
    requires MentionsCovered(kg, {}, gone)
    ensures NamesNone(kg, gone)
    ensures forall o, c :: o in kg.graph && c in kg.graph[o] ==> c !in gone
  {
    forall o, c | o in kg.graph && c in kg.graph[o]
      ensures c !in gone
    {
      assert c in Mentions(kg, o);
    }
  }

  // ----- steps of the custom-chunk operation -----

  lemma StepKeepsTidy(s: Sys, a: Action)
    requires Tidy(s) && Enabled(s, a)
    ensures Tidy(Step(s, a))
  {
    if a.Begin? {
      BeginKeepsTidy(s, a.inputs);
    } else if a.Commit? || a.Fail? || a.WriteApplying? || a.WriteAhead? {
      StatusWriteKeepsTidy(s, a);
    } else if a.StartRollback? || a.TearPurge? || a.PurgeDerived? || a.FinishRollback? || a.Crash? {
      PurgingKeepsTidy(s, a);
    } else if IsRollbackStep(a) {
      RollingKeepsTidy(s, a);
    } else {
      RunningKeepsTidy(s, a);
    }
  }

  lemma BeginKeepsTidy(s: Sys, inputs: seq<string>)
    requires Tidy(s) && Enabled(s, Begin(inputs))
    ensures Tidy(Step(s, Begin(inputs)))
  {
  }

  lemma StatusWriteKeepsTidy(s: Sys, a: Action)
    requires Tidy(s) && Enabled(s, a) && (a.Commit? || a.Fail? || a.WriteApplying? || a.WriteAhead?)
    ensures Tidy(Step(s, a))
  {
  }

  lemma PurgingKeepsTidy(s: Sys, a: Action)
    requires Tidy(s) && Enabled(s, a)
    requires a.StartRollback? || a.TearPurge? || a.PurgeDerived? || a.FinishRollback? || a.Crash?
    ensures Tidy(Step(s, a))
  {
  }

  lemma RollingKeepsTidy(s: Sys, a: Action)
    requires Tidy(s) && Enabled(s, a) && IsRollbackStep(a)
    requires !a.StartRollback? && !a.TearPurge? && !a.PurgeDerived? && !a.FinishRollback?
    ensures Tidy(Step(s, a))
  {
  }

  lemma RunningKeepsTidy(s: Sys, a: Action)
    requires Tidy(s) && Enabled(s, a) && !IsRollbackStep(a)
    requires !a.Begin? && !a.Commit? && !a.Fail? && !a.WriteApplying? && !a.WriteAhead? && !a.Crash?
    ensures Tidy(Step(s, a))
  {
  }

  /** The document has no unfinished operation. */
  ghost predicate Idle(s: Sys) {
    s.disk.row.Some? ==> s.disk.row.value.patch.None?
  }

  /** A new operation brings chunks the document does not have, and ending a rollback takes
      chunks away that nothing else accounts for. */
  lemma SettlingChangesChunks(s: Sys, a: Action)
    requires Sturdy(s) && Enabled(s, a)
    requires a.FinishRollback? || (a.Begin? && Step(s, a) != s && Idle(s))
    ensures ChunksOf(Step(s, a)) != ChunksOf(s)
  {
    var t := Step(s, a);
    StepKeepsSturdy(s, a);
    var j := if a.Begin? then t.disk.row.value.patch.value else s.rollback.value.journal;
    assert j.chunkIds[0] in Ids(j.chunkIds);
  }

  /** A step of the operation under way forgets no name. */
  lemma StepKeepsNames(s: Sys, a: Action)
    requires Sturdy(s) && Tidy(s) && Enabled(s, a) && ChunksOf(Step(s, a)) == ChunksOf(s)
    ensures var t := Step(s, a);
      && (Creating(t) ==> Creating(s) && JournalNames(s.disk) <= JournalNames(t.disk))
      && (Creating(s) ==> JournalNames(s.disk) <= JournalNames(t.disk) + AnchorNames(t.disk))
      && (!Creating(s) ==>
            AnchorNames(s.disk) + JournalNames(s.disk) <= AnchorNames(t.disk) + JournalNames(t.disk))
  {
    if a.FinishRollback? || (a.Begin? && Step(s, a) != s && Idle(s)) {
      SettlingChangesChunks(s, a);
      assert false;
    } else if a.Begin? {
      ResumingKeepsNames(s, a.inputs);
    } else if a.Commit? {
      CommitKeepsNames(s);
    } else if IsRollbackStep(a) || a.Crash? {
      RollingKeepsNames(s, a);
    } else {
      RunningKeepsNames(s, a);
    }
  }

  lemma ResumingKeepsNames(s: Sys, inputs: seq<string>)
    requires Enabled(s, Begin(inputs)) && (Step(s, Begin(inputs)) == s || !Idle(s))
    ensures var t := Step(s, Begin(inputs));
      && JournalNames(t.disk) == JournalNames(s.disk) && AnchorNames(t.disk) == AnchorNames(s.disk)
      && (Creating(t) <==> Creating(s))
  {
  }

  lemma CommitKeepsNames(s: Sys)
    requires Sturdy(s) && Enabled(s, Commit)
    ensures JournalNames(s.disk) <= AnchorNames(Step(s, Commit).disk)
    ensures AnchorNames(Step(s, Commit).disk) == AnchorNames(s.disk) && !Creating(Step(s, Commit))
  {
    var names := s.run.value.journal.names;
    assert EntitiesOf(names) + RelationsOf(names) == names;
  }

  lemma RollingKeepsNames(s: Sys, a: Action)
    requires Sturdy(s) && Tidy(s) && Enabled(s, a) && (IsRollbackStep(a) || a.Crash?) && !a.FinishRollback?
    ensures JournalNames(Step(s, a).disk) == JournalNames(s.disk) && (Creating(Step(s, a)) <==> Creating(s))
    ensures !Creating(s) ==>
      AnchorNames(s.disk) + JournalNames(s.disk) <= AnchorNames(Step(s, a).disk) + JournalNames(s.disk)
  {
    if a.SettleEntityRow? || a.SettleRelationRow? {
      PruningKeepsNames(s, a);
    } else {
      RowsStay(s, a);
    }
  }

  lemma RowsStay(s: Sys, a: Action)
    requires Enabled(s, a) && (IsRollbackStep(a) || a.Crash?)
    requires !a.FinishRollback? && !a.SettleEntityRow? && !a.SettleRelationRow?
    ensures var disk := Step(s, a).disk;
      disk.row == s.disk.row && disk.entityRow == s.disk.entityRow && disk.relationRow == s.disk.relationRow
  {
  }

  /** Only what the journal still names is pruned. */
  lemma PruningKeepsNames(s: Sys, a: Action)
    requires Tidy(s) && Enabled(s, a) && (a.SettleEntityRow? || a.SettleRelationRow?)
    ensures JournalNames(Step(s, a).disk) == JournalNames(s.disk) && (Creating(Step(s, a)) <==> Creating(s))
    ensures !Creating(s) ==>
      AnchorNames(s.disk) + JournalNames(s.disk) <= AnchorNames(Step(s, a).disk) + JournalNames(s.disk)
  {
  }

  lemma RunningKeepsNames(s: Sys, a: Action)
    requires Sturdy(s) && Tidy(s) && Enabled(s, a) && !IsRollbackStep(a) && !a.Begin? && !a.Commit? && !a.Crash?
    ensures JournalNames(s.disk) <= JournalNames(Step(s, a).disk) && (Creating(Step(s, a)) <==> Creating(s))
    ensures !Creating(s) ==> AnchorNames(s.disk) <= AnchorNames(Step(s, a).disk)
  {
  }

  lemma WriteKeepsMentions(kg: Kg, w: KgWrite, names: set<Obj>, gone: set<Chunk>)
    requires Target(w) in names && MentionsCovered(kg, names, gone)
    ensures MentionsCovered(Written(kg, w), names, gone)
  {
    forall o | o in Written(kg, w).graph && o !in names
      ensures Mentions(Written(kg, w), o) !! gone
    {
      OthersUntouched(kg, w, o);
    }
  }

  /** A merge writes what the journal names: extracted candidates and their endpoints. */
  lemma TargetIsJournaled(s: Sys, a: Action)
    requires Sturdy(s) && Enabled(s, a) && a.Merge?
    ensures Target(a.write) in JournalNames(s.disk)
  {
  }

  lemma MergeKeepsAnchored(s: Sys, a: Action, gone: set<Chunk>)
    requires Sturdy(s) && Anchored(s, gone) && Enabled(s, a) && a.Merge?
    ensures Anchored(Step(s, a), gone)
  {
    TargetIsJournaled(s, a);
    WriteKeepsMentions(s.disk.kg, a.write, AnchorNames(s.disk) + JournalNames(s.disk), gone);
    if Creating(s) {
      WriteKeepsMentions(s.disk.kg, a.write, JournalNames(s.disk), gone);
    }
  }

  lemma PurgeKeepsMentions(s: Sys, a: Action, names: set<Obj>, gone: set<Chunk>)
    requires Tidy(s) && Enabled(s, a) && !a.Merge? && MentionsCovered(s.disk.kg, names, gone)
    ensures MentionsCovered(Step(s, a).disk.kg, names, gone)
  {
    if a.TearPurge? || (a.PurgeDerived? && s.rollback.value.journal.chunkIds != []) {
      var j := s.rollback.value.journal;
      WholePassIsALanding(s.disk.kg, j.names, Ids(j.chunkIds), Rollback);
      LandingKeepsMentions(s.disk.kg, Step(s, a).disk.kg, j.names, Ids(j.chunkIds), Rollback, names, gone);
    }
  }

  lemma StepKeepsAnchored(s: Sys, a: Action, gone: set<Chunk>)
    requires Sturdy(s) && Tidy(s) && Anchored(s, gone) && Enabled(s, a) && ChunksOf(Step(s, a)) == ChunksOf(s)
    ensures Anchored(Step(s, a), gone)
  {
    if a.Merge? {
      MergeKeepsAnchored(s, a, gone);
    } else {
      StepKeepsNames(s, a);
      PurgeKeepsMentions(s, a, AnchorNames(s.disk) + JournalNames(s.disk), gone);
      if Creating(s) {
        PurgeKeepsMentions(s, a, JournalNames(s.disk), gone);
      }
    }
  }

  lemma SecureBefore(w: World, a: Action, gone: set<Chunk>)
    requires Secure(w, gone) && Enabled(w.sys, a) && Reached(w) < 5 && ChunksOf(Step(w.sys, a)) == gone
    ensures Sturdy(Step(w.sys, a)) && Anchored(Step(w.sys, a), gone)
  {
    StepKeepsSturdy(w.sys, a);
    StepKeepsAnchored(w.sys, a, gone);
  }

  /** A document that is gone has no chunks and no delete to resume. */
  lemma SecureWhenGone(w: World)
    requires w.sys.disk.row.None? && w.purge.None? && Tidy(w.sys)
    ensures Chunks(w) == {} && Secure(w, {})
  {
  }

  lemma SamePhase(w: World, t: World)
    requires Chunks(t) == Chunks(w) && t.purge == w.purge
    ensures Reached(t) == Reached(w)
  {
  }

  lemma CustomKeepsSecure(w: World, a: Action, gone: set<Chunk>)
    requires Secure(w, gone) && Enabled(w.sys, a) && (a.Merge? ==> Reached(w) < 5)
    requires Chunks(Next(w, Custom(a))) == gone
    ensures Secure(Next(w, Custom(a)), gone)
  {
    var t := Next(w, Custom(a));
    StepKeepsTidy(w.sys, a);
    if t.sys.disk.row.None? {
      SecureWhenGone(t);
    } else {
      SamePhase(w, t);
      if Reached(w) < 5 {
        SecureBefore(w, a, gone);
      } else {
        PurgeKeepsMentions(w.sys, a, {}, gone);
      }
    }
  }

  /** Deletes and operations may interleave as they like: while the chunk set stays what it is
      and no merge lands from `derived_committed` on, every delete attempt is in order. */
  lemma {:induction false} QuietDeletesAreOrderly(w: World, trace: seq<Move>, gone: set<Chunk>)
    requires Secure(w, gone) && Quiet(w, trace)
    ensures OrderlyThroughout(w, trace)
    decreases trace
  {
    if trace != [] {
      if trace[0].Custom? {
        CustomKeepsSecure(w, trace[0].action, gone);
      } else {
        DeleteKeepsSecure(w, trace[0].after, gone);
      }
      QuietDeletesAreOrderly(Next(w, trace[0]), trace[1..], gone);
    }
  }

  // ----- what goes wrong otherwise -----

  /** The graph names a chunk of the document. */
  ghost predicate NamesSome(w: World) {
    exists o, c :: o in w.sys.disk.kg.graph && c in w.sys.disk.kg.graph[o] && c in Chunks(w)
  }

  lemma MergedObjectNamesStaged(w: World, write: KgWrite, carries: set<Event>)
    requires Tidy(w.sys) && Enabled(w.sys, Action.Merge(write, carries)) && WritesGraph(write)
    ensures NamesSome(Next(w, Custom(Action.Merge(write, carries))))
  {
    var t := Next(w, Custom(Action.Merge(write, carries)));
    var kg, staged := w.sys.disk.kg, Ids(w.sys.run.value.journal.chunkIds);
    assert staged <= Chunks(t);
    var c :| c in Incoming(kg, write) && c in staged by {
      if write.Upsert? {
        assert write.added[0] in Ids(write.added);
      }
    }
    assert c in Ids(Result(kg, write));
    assert c in t.sys.disk.kg.graph[Target(write)];
  }

  /** A retry past `derived_committed` does not look at the graph again. */
  lemma RetrySkipsTheGraph(w: World)
    requires w.sys.run.None? && w.sys.rollback.None? && w.sys.disk.row.Some?
    requires Reached(w) >= 5 && NamesSome(w)
    ensures var t := Progress(View(w), Chunks(w), WRITES);
      && Possible(w, Delete(t)) && Chunks(Next(w, Delete(t))) == Chunks(w) && !Orderly(w, Delete(t))
  {
    var t := Progress(View(w), Chunks(w), WRITES);
    EntryOfProgress(View(w), Chunks(w), WRITES);
    assert Attempt(View(w), Chunks(w), t);
    var o, c :| o in w.sys.disk.kg.graph && c in w.sys.disk.kg.graph[o] && c in Chunks(w);
    assert c in Ids(Next(w, Delete(t)).sys.disk.kg.graph[o]);
  }

  /** Whatever quietly follows, no delete goes wrong. */
  ghost predicate StaysOrderly(w: World) {
    forall trace :: Quiet(w, trace) ==> OrderlyThroughout(w, trace)
  }

  /** Resuming an operation on a document that is being deleted is safe exactly as long as the
      delete has not journaled `derived_committed`. */
  lemma MergeIsSafeIff(w: World, write: KgWrite, carries: set<Event>, gone: set<Chunk>)
    requires Secure(w, gone) && Enabled(w.sys, Action.Merge(write, carries)) && WritesGraph(write)
    ensures StaysOrderly(Next(w, Custom(Action.Merge(write, carries)))) <==> Reached(w) < 5
  {
    var t := Next(w, Custom(Action.Merge(write, carries)));
    if Reached(w) < 5 {
      CustomKeepsSecure(w, Action.Merge(write, carries), gone);
      forall trace | Quiet(t, trace)
        ensures OrderlyThroughout(t, trace)
      {
        QuietDeletesAreOrderly(t, trace, gone);
      }
    } else {
      MergedObjectNamesStaged(w, write, carries);
      CrashedThenRetried(t);
    }
  }

  lemma CrashThenRetry(w: World) returns (rest: World, again: Move)
    requires Tidy(w.sys) && w.sys.run.Some? && Reached(w) >= 5 && NamesSome(w)
    ensures rest == Next(w, Custom(Crash)) && Chunks(rest) == Chunks(w) && again.Delete?
    ensures Possible(rest, again) && Chunks(Next(rest, again)) == Chunks(rest) && !Orderly(rest, again)
  {
    rest := Next(w, Custom(Crash));
    RetrySkipsTheGraph(rest);
    again := Delete(Progress(View(rest), Chunks(rest), WRITES));
  }

  lemma CrashedThenRetried(w: World)
    requires Tidy(w.sys) && w.sys.run.Some? && Reached(w) >= 5 && NamesSome(w)
    ensures !StaysOrderly(w)
  {
    var rest, again := CrashThenRetry(w);
    var trace := [Custom(Crash), again];
    assert trace[1..] == [again] && [again][1..] == [];
    assert Quiet(Next(rest, again), []);
    assert Quiet(rest, [again]);
    assert Quiet(w, trace) && !OrderlyThroughout(w, trace);
  }

  // ----- and that it happens -----

  ghost predicate LegalMoves(w: World, trace: seq<Move>)
    decreases trace
  {
    trace == [] || (Possible(w, trace[0]) && LegalMoves(Next(w, trace[0]), trace[1..]))
  }

  ghost function End(w: World, trace: seq<Move>): World
    requires LegalMoves(w, trace)
    decreases trace
  {
    if trace == [] then w else End(Next(w, trace[0]), trace[1..])
  }

  ghost predicate Reaches(w: World, t: World) {
    exists trace :: LegalMoves(w, trace) && End(w, trace) == t
  }

  lemma {:induction false} OneMore(w: World, trace: seq<Move>, m: Move)
    requires LegalMoves(w, trace) && Possible(End(w, trace), m)
    ensures LegalMoves(w, trace + [m]) && End(w, trace + [m]) == Next(End(w, trace), m)
    decreases trace
  {
    if trace == [] {
      assert (trace + [m])[1..] == [];
    } else {
      OneMore(Next(w, trace[0]), trace[1..], m);
      assert (trace + [m])[1..] == trace[1..] + [m];
    }
  }

  lemma ReachesNext(w: World, t: World, m: Move)
    requires Reaches(w, t) && Possible(t, m)
    ensures Reaches(w, Next(t, m))
  {
    var trace :| LegalMoves(w, trace) && End(w, trace) == t;
    OneMore(w, trace, m);
  }

  lemma {:induction false} ReachesThrough(w: World, t: World, trace: seq<Move>)
    requires Reaches(w, t) && LegalMoves(t, trace)
    ensures Reaches(w, End(t, trace))
    decreases trace
  {
    if trace != [] {
      ReachesNext(w, t, trace[0]);
      ReachesThrough(w, Next(t, trace[0]), trace[1..]);
    }
  }

  /** An attempt that resumes the document's operation has come to `pc`. */
  ghost predicate Resumed(w: World, t: World, pc: Pc, sample: set<Obj>) {
    && Reaches(w, t) && At(t.sys, pc) && Tidy(t.sys) && t.purge == w.purge && Chunks(t) == Chunks(w)
    && t.sys.run.value.sample == sample && t.sys.run.value.journal.chunkIds != []
  }

  lemma ResumeGoesOn(w: World, t: World, pc: Pc, sample: set<Obj>, a: Action, following: Pc, found: set<Obj>)
    requires Resumed(w, t, pc, sample) && Enabled(t.sys, a)
    requires a.StageChunks? || a.Extract? || a.WriteApplying? || a.ReplaceEntityRow? || a.ReplaceRelationRow?
      || a.StartMerge? || a.Merge?
    requires At(Step(t.sys, a), following) && Step(t.sys, a).run.value.sample == found
    ensures Resumed(w, Next(t, Custom(a)), following, found)
  {
    ReachesNext(w, t, Custom(a));
    StepKeepsTidy(t.sys, a);
  }

  /** The original input resumes the operation, whatever the delete has journaled. */
  lemma InputResumes(w: World, inputs: seq<string>)
    requires Sturdy(w.sys) && w.sys.run.None? && w.sys.rollback.None?
    requires w.sys.disk.row.Some? && w.sys.disk.row.value.patch.Some?
    requires Entries(w.sys.doc, inputs) == w.sys.disk.row.value.patch.value.operation
    ensures Resumed(w, Next(w, Custom(Begin(inputs))), Begun, {})
  {
    assert Tidy(w.sys);
    assert LegalMoves(w, []) && End(w, []) == w;
    ReachesNext(w, w, Custom(Begin(inputs)));
    StepKeepsTidy(w.sys, Begin(inputs));
  }

  lemma ResumeExtracts(w: World, inputs: seq<string>) returns (t: World)
    requires Sturdy(w.sys) && w.sys.run.None? && w.sys.rollback.None?
    requires w.sys.disk.row.Some? && w.sys.disk.row.value.patch.Some?
    requires Entries(w.sys.doc, inputs) == w.sys.disk.row.value.patch.value.operation
    ensures Resumed(w, t, Extracted, {Entity(0)})
  {
    InputResumes(w, inputs);
    t := Next(w, Custom(Begin(inputs)));
    ResumeGoesOn(w, t, Begun, {}, StageChunks, Staged, {});
    t := Next(t, Custom(StageChunks));
    ResumeGoesOn(w, t, Staged, {}, Extract({Entity(0)}, 0), Extracted, {Entity(0)});
    t := Next(t, Custom(Extract({Entity(0)}, 0)));
  }

  lemma ResumeMerges(w: World, extracted: World, sample: set<Obj>) returns (t: World)
    requires Resumed(w, extracted, Extracted, sample)
    ensures Resumed(w, t, Merging, sample)
  {
    ResumeGoesOn(w, extracted, Extracted, sample, WriteApplying, Applied, sample);
    t := Next(extracted, Custom(WriteApplying));
    if t.sys.run.value.journal.mode == Create {
      ResumeGoesOn(w, t, Applied, sample, ReplaceEntityRow, EntityRowReplaced, sample);
      t := Next(t, Custom(ReplaceEntityRow));
      ResumeGoesOn(w, t, EntityRowReplaced, sample, ReplaceRelationRow, Merging, sample);
      t := Next(t, Custom(ReplaceRelationRow));
    } else {
      ResumeGoesOn(w, t, Applied, sample, StartMerge, Merging, sample);
      t := Next(t, Custom(StartMerge));
    }
  }

  /** The operation's own retry gets as far as putting a staged chunk into the graph. */
  lemma ResumeNames(w: World, inputs: seq<string>) returns (t: World)
    requires Sturdy(w.sys) && w.sys.run.None? && w.sys.rollback.None?
    requires w.sys.disk.row.Some? && w.sys.disk.row.value.patch.Some?
    requires Entries(w.sys.doc, inputs) == w.sys.disk.row.value.patch.value.operation
    ensures Resumed(w, t, Merging, {Entity(0)}) && NamesSome(t)
  {
    var extracted := ResumeExtracts(w, inputs);
    t := ResumeMerges(w, extracted, {Entity(0)});
    var added := t.sys.run.value.journal.chunkIds;
    EmptyIds(added);
    ResumeGoesOn(w, t, Merging, {Entity(0)}, Action.Merge(Track(Entity(0), added), {}), Merging, {Entity(0)});
    t := Next(t, Custom(Action.Merge(Track(Entity(0), added), {})));
    var write := Upsert(Entity(0), added);
    ResumeGoesOn(w, t, Merging, {Entity(0)}, Action.Merge(write, {}), Merging, {Entity(0)});
    MergedObjectNamesStaged(t, write, {});
    t := Next(t, Custom(Action.Merge(write, {})));
  }

  lemma CutAtDerivedCommitted(w: World) returns (cut: World)
    requires Sturdy(w.sys) && w.sys.run.None? && w.sys.rollback.None? && w.sys.disk.row.Some?
    requires Reached(w) < 5 && !Refused(View(w), Chunks(w))
    ensures Reaches(w, cut) && Reached(cut) == 5 && Sturdy(cut.sys) && cut.sys.doc == w.sys.doc
    ensures cut.sys.disk.row == w.sys.disk.row && cut.sys.run.None? && cut.sys.rollback.None?
  {
    var left := Progress(View(w), Chunks(w), 5);
    EntryOfProgress(View(w), Chunks(w), 5);
    assert Attempt(View(w), Chunks(w), left);
    assert LegalMoves(w, []) && End(w, []) == w;
    ReachesNext(w, w, Delete(left));
    cut := Next(w, Delete(left));
    ViewOfNext(w, left);
    assert Committed(cut.sys.disk) == Committed(w.sys.disk);
  }

  lemma MergedAfterCut(w: World, cut: World, inputs: seq<string>) returns (merged: World)
    requires Reaches(w, cut) && Sturdy(cut.sys) && cut.sys.run.None? && cut.sys.rollback.None?
    requires cut.sys.disk.row.Some? && cut.sys.disk.row.value.patch.Some?
    requires Entries(cut.sys.doc, inputs) == cut.sys.disk.row.value.patch.value.operation
    ensures Reaches(w, merged) && Tidy(merged.sys) && merged.sys.run.Some? && NamesSome(merged)
    ensures Chunks(merged) == Chunks(cut) && Reached(merged) == Reached(cut)
  {
    merged := ResumeNames(cut, inputs);
    SamePhase(cut, merged);
    var trace :| LegalMoves(cut, trace) && End(cut, trace) == merged;
    ReachesThrough(w, cut, trace);
  }

  /** Wherever a delete may start on a document with an unfinished operation, a delete cut at
      `derived_committed`, the operation's own retry, and the delete's retry go wrong. */
  lemma EveryUnfinishedOperationCanGoWrong(w: World, inputs: seq<string>) returns (t: World, m: Move)
    requires Sturdy(w.sys) && w.sys.run.None? && w.sys.rollback.None?
    requires w.sys.disk.row.Some? && w.sys.disk.row.value.patch.Some?
    requires Reached(w) < 5 && !Refused(View(w), Chunks(w))
    requires Entries(w.sys.doc, inputs) == w.sys.disk.row.value.patch.value.operation
    ensures Reaches(w, t) && Chunks(t) == Chunks(w) && Possible(t, m) && !Orderly(t, m)
  {
    var cut := CutAtDerivedCommitted(w);
    var merged := MergedAfterCut(w, cut, inputs);
    ReachesNext(w, merged, Custom(Crash));
    t, m := CrashThenRetry(merged);
  }

  // ----- what a retry makes of a settled operation -----

  ghost predicate InFlight(w: World, gone: set<Chunk>) {
    w.purge.Some? && w.purge.value.operation == Some(gone) && w.purge.value.phase != Completed
  }

  lemma CommitKeepsChunkSet(s: Sys)
    requires Tidy(s) && Enabled(s, Commit)
    ensures ChunksOf(Step(s, Commit)) == ChunksOf(s) && Step(s, Commit).disk.row.Some?
  {
    IdsOfConcat(s.run.value.base.chunksList, s.run.value.journal.chunkIds);
  }

  lemma RolledBackChunkSet(s: Sys)
    requires Tidy(s) && Enabled(s, FinishRollback) && s.rollback.value.journal.mode == Patch
    ensures ChunksOf(Step(s, FinishRollback)) == ChunksOf(s) - Ids(s.rollback.value.journal.chunkIds)
    ensures Step(s, FinishRollback).disk.row.Some?
    ensures ChunksOf(Step(s, FinishRollback)) == ChunksOf(s) <==> s.rollback.value.journal.chunkIds == []
  {
    var ids := s.rollback.value.journal.chunkIds;
    EmptyIds(ids);
    assert Ids(ids) <= ChunksOf(s);
  }

  lemma RefusedTouchesNothing(w: World, after: Store)
    requires Conflicts(View(w), Chunks(w)) && Possible(w, Delete(after))
    ensures Next(w, Delete(after)) == w
  {
    assert after == View(w);
  }

  /** Committing the operation leaves the delete free to go on; rolling a patch back makes every
      retry of it a refusal that touches nothing, unless nothing was staged. */
  lemma RetryAfterSettling(w: World, a: Action, gone: set<Chunk>)
    requires Secure(w, gone) && InFlight(w, gone) && Enabled(w.sys, a) && (a.Commit? || a.FinishRollback?)
    ensures var t := Next(w, Custom(a));
      && (a.Commit? ==> Chunks(t) == gone && Reached(t) == Reached(w) && !Conflicts(View(t), Chunks(t)))
      && (a.FinishRollback? && w.sys.rollback.value.journal.mode == Patch ==>
            (Conflicts(View(t), Chunks(t)) <==> w.sys.rollback.value.journal.chunkIds != []))
      && (Conflicts(View(t), Chunks(t)) ==> forall after :: Possible(t, Delete(after)) ==> Next(t, Delete(after)) == t)
  {
    var t := Next(w, Custom(a));
    if a.Commit? {
      CommitKeepsChunkSet(w.sys);
    } else if w.sys.rollback.value.journal.mode == Patch {
      RolledBackChunkSet(w.sys);
    }
    if Conflicts(View(t), Chunks(t)) {
      forall after | Possible(t, Delete(after))
        ensures Next(t, Delete(after)) == t
      {
        RefusedTouchesNothing(t, after);
      }
    }
  }
}
