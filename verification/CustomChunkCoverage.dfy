/** Anchor coverage: every graph object supported by a chunk of the document, committed or
    staged, is named by an anchor row or by the operation's journal. */
module CustomChunkCoverage {
  import opened KgModel
  import opened DerivedPass
  import opened CustomChunks
  import opened MergeWrites

  function StagedIds(disk: Disk): set<Chunk> {
    if disk.row.Some? && disk.row.value.patch.Some? then Ids(disk.row.value.patch.value.chunkIds) else {}
  }

  function CommittedIds(disk: Disk): set<Chunk> {
    if disk.row.Some? then Ids(disk.row.value.chunksList) else {}
  }

  function AnchorNames(disk: Disk): set<Obj> {
    Listed(disk.entityRow) + Listed(disk.relationRow)
  }

  function JournalNames(disk: Disk): set<Obj> {
    if disk.row.Some? && disk.row.value.patch.Some? then disk.row.value.patch.value.names else {}
  }

  /** The property itself. */
  ghost predicate Covered(s: Sys) {
    forall o :: o in s.disk.kg.graph && !(Ids(s.disk.kg.graph[o]) !! (CommittedIds(s.disk) + StagedIds(s.disk))) ==>
      o in AnchorNames(s.disk) + JournalNames(s.disk)
  }

  // ----- the invariant -----

  ghost predicate OwnedChunks(doc: DocId, ids: seq<Chunk>) {
    forall c :: c in ids ==> c.CustomChunk? && c.doc == doc && c.text != ""
  }

  /** A committed chunk still supports the object: a rollback neither drops it nor prunes it. */
  ghost predicate Supported(disk: Disk, o: Obj) {
    !(SourceSet(disk.kg, o) !! CommittedIds(disk))
  }

  ghost predicate Grounded(disk: Disk, e: Obj) {
    e in disk.kg.graph && Supported(disk, e)
  }

  ghost predicate EndsGrounded(disk: Disk, edge: Obj) {
    edge.Relation? ==> Grounded(disk, Entity(edge.lo)) && Grounded(disk, Entity(edge.hi))
  }

  /** Committed, or left behind by an operation of the document that is no longer staged. */
  ghost predicate Settled(doc: DocId, disk: Disk, c: Chunk) {
    c in CommittedIds(disk) || (c.doc == doc && c !in StagedIds(disk))
  }

  /** A source of the object is committed or another document's, so no rollback drops it. */
  ghost predicate Lasting(doc: DocId, disk: Disk, o: Obj) {
    o in disk.kg.graph && exists c :: c in SourceSet(disk.kg, o) && (c in CommittedIds(disk) || c.doc != doc)
  }

  /** The edge has a tracking row of its own that does not name the chunk, and will keep it:
      its graph list is never read again. */
  ghost predicate Sheltered(doc: DocId, disk: Disk, edge: Obj, c: Chunk) {
    && edge.Relation? && c !in SourceSet(disk.kg, edge)
    && Lasting(doc, disk, edge) && Lasting(doc, disk, Entity(edge.lo)) && Lasting(doc, disk, Entity(edge.hi))
  }

  /** What it takes for an object to name a chunk in either list. A staged chunk is journaled
      or overlaid on a supported object, a committed one is anchored, and one left behind by an
      operation that was rolled back needs a committed one beside it. An edge passes its whole
      list on to its endpoints, so what it names of the document beyond the staged chunks must
      already support them. */
  ghost predicate Accounted(doc: DocId, disk: Disk, o: Obj, c: Chunk) {
    && (c in StagedIds(disk) ==> o in JournalNames(disk) || Supported(disk, o))
    && (c in CommittedIds(disk) ==> o in AnchorNames(disk))
    && (c.doc == doc && c !in CommittedIds(disk) + StagedIds(disk) ==> Supported(disk, o))
    && (Settled(doc, disk, c) ==> EndsGrounded(disk, o) || Sheltered(doc, disk, o, c))
    && (c.doc == doc || c in CommittedIds(disk) ==> Mergeable(o))
  }

  ghost predicate GraphInv(doc: DocId, disk: Disk) {
    forall o, c {:trigger c in Mentions(disk.kg, o)} :: c in Mentions(disk.kg, o) ==> Accounted(doc, disk, o, c)
  }

  ghost predicate JournalSound(doc: DocId, disk: Disk) {
    disk.row.Some? && disk.row.value.patch.Some? ==>
      var row, j := disk.row.value, disk.row.value.patch.value;
      && OwnedChunks(doc, j.operation) && OwnedChunks(doc, j.chunkIds)
      && j.operation != [] && j.chunkIds != [] && NamesEndpoints(j.names)
      && Ids(j.chunkIds) !! Ids(row.chunksList)
      && (row.status == Processing || row.status == Failed)
      && (j.mode == Create ==> row.chunksList == [] && j.chunkIds == j.operation)
      && (j.mode == Patch ==> j.chunkIds == Uncommitted(j.operation, Committed(disk)))
  }

  ghost predicate TextsKept(disk: Disk) {
    forall c :: c in CommittedIds(disk) && c.CustomChunk? ==>
      c.text != "" && c in disk.texts && disk.texts[c] == c.text
  }

  ghost predicate DiskInv(doc: DocId, disk: Disk) {
    GraphInv(doc, disk) && JournalSound(doc, disk) && TextsKept(disk)
  }

  function Rank(pc: Pc): nat {
    match pc
    case Begun => 0 case Staged => 1 case Extracted => 2 case Applied => 3 case EntityRowReplaced => 4
    case Merging => 5 case Merged => 6 case EntityRowUnioned => 7 case Unioned => 8
  }

  /** The in-memory copies agree with the disk, and each stage has done its work. */
  ghost predicate RunInv(s: Sys) {
    s.run.Some? ==>
      var r := s.run.value;
      && s.rollback.None? && s.disk.row == Some(r.base) && r.base.patch.Some?
      && r.base.status == Processing
      && r.base.patch.value == r.journal.(events := r.base.patch.value.events)
      && (Rank(r.pc) >= 1 ==>
            forall c :: c in r.journal.chunkIds ==> c in s.disk.texts && c.CustomChunk? && s.disk.texts[c] == c.text)
      && NamesEndpoints(r.sample)
      && (Rank(r.pc) >= 3 ==> r.sample <= r.journal.names)
      && (r.journal.mode == Create && !r.resume ==>
            r.journal.names == if Rank(r.pc) >= 3 then r.sample else {})
      && (Rank(r.pc) == 4 ==> r.journal.mode == Create)
      && (r.journal.mode == Create && Rank(r.pc) >= 4 ==> EntitiesOf(r.sample) <= Listed(s.disk.entityRow))
      && (r.journal.mode == Create && Rank(r.pc) >= 5 ==> RelationsOf(r.sample) <= Listed(s.disk.relationRow))
      && (Rank(r.pc) >= 7 ==> EntitiesOf(r.journal.names) <= Listed(s.disk.entityRow))
      && (Rank(r.pc) >= 8 ==> RelationsOf(r.journal.names) <= Listed(s.disk.relationRow))
  }

  /** Once the derived pass is done, surviving candidates have tracking rows equal to their
      graph lists, and neither names a staged chunk. */
  ghost predicate RollbackInv(s: Sys) {
    s.rollback.Some? ==>
      var r := s.rollback.value;
      && s.run.None? && s.disk.row.Some? && s.disk.row.value.patch == Some(r.journal)
      && (r.pc == Purging ==> r.kgAtStart == s.disk.kg)
      && (r.pc == BodyGone ==> !s.disk.body)
      && (r.pc != Purging ==>
            forall o :: o in s.disk.kg.graph && o in r.journal.names ==>
              && o in s.disk.kg.tracking && s.disk.kg.tracking[o] == s.disk.kg.graph[o]
              && Ids(s.disk.kg.graph[o]) !! Ids(r.journal.chunkIds))
  }

  ghost predicate Inv(s: Sys) {
    DiskInv(s.doc, s.disk) && RunInv(s) && RollbackInv(s)
  }

  /** A tracking row of an absent object that names a staged chunk also names a committed one,
      so that the object stays anchored. */
  ghost predicate OrphansStayAnchored(s: Sys) {
    forall o :: o !in s.disk.kg.graph && !(Ids(Row(s.disk.kg, o)) !! StagedIds(s.disk)) ==>
      !(Ids(Row(s.disk.kg, o)) !! CommittedIds(s.disk))
  }

  /** Every edge that names a staged chunk, in the graph or not, has both endpoints in the graph;
      and if the chunk is among its sources, they are supported by the document. */
  ghost predicate EndpointsLanded(s: Sys) {
    forall o: Obj, c {:trigger c in Mentions(s.disk.kg, o)} ::
      o.Relation? && c in Mentions(s.disk.kg, o) && c in StagedIds(s.disk) ==>
        EndLanded(s.disk, o, c, Entity(o.lo)) && EndLanded(s.disk, o, c, Entity(o.hi))
  }

  ghost predicate EndLanded(disk: Disk, edge: Obj, c: Chunk, e: Obj) {
    && e in disk.kg.graph && SourceSet(disk.kg, e) != {}
    && (c in SourceSet(disk.kg, edge) ==> !(SourceSet(disk.kg, e) !! (CommittedIds(disk) + StagedIds(disk))))
  }

  /** When a step settles what was staged, it settles it cleanly. */
  ghost predicate SettlesCleanly(s: Sys, a: Action) {
    (a.Commit? ==> EndpointsLanded(s)) && (a.FinishRollback? ==> OrphansStayAnchored(s))
  }

  lemma InvGivesCoverage(s: Sys)
    requires Inv(s)
    ensures Covered(s)
  {
    forall o | o in s.disk.kg.graph && !(Ids(s.disk.kg.graph[o]) !! (CommittedIds(s.disk) + StagedIds(s.disk)))
      ensures o in AnchorNames(s.disk) + JournalNames(s.disk)
    {
      assert Ids(s.disk.kg.graph[o]) <= Mentions(s.disk.kg, o);
    }
  }

  // ----- what a change of the graph must keep -----

  /** Naming no more, and losing no support, keeps the clauses about the graph. */
  lemma ShrinkingKeepsInv(doc: DocId, disk: Disk, kg: Kg)
    requires DiskInv(doc, disk)
    requires forall o :: Mentions(kg, o) <= Mentions(disk.kg, o)
    requires forall o :: Supported(disk, o) ==> Supported(disk.(kg := kg), o)
    requires forall o :: Grounded(disk, o) ==> Grounded(disk.(kg := kg), o)
    requires forall o, c :: c in Mentions(kg, o) && Sheltered(doc, disk, o, c) ==>
      Sheltered(doc, disk.(kg := kg), o, c)
    ensures DiskInv(doc, disk.(kg := kg))
  {
    var after := disk.(kg := kg);
    assert Committed(after) == Committed(disk);
  }

  lemma PurgeShrinksMentions(kg: Kg, part: Kg, names: set<Obj>, gone: set<Chunk>, policy: Policy)
    requires PartlyDerived(kg, part, names, gone, policy)
    ensures forall o :: Mentions(part, o) <= Mentions(kg, o)
  {
    forall o
      ensures Mentions(part, o) <= Mentions(kg, o)
    {
      assert Ids(Sources(kg, o)) <= Mentions(kg, o);
    }
  }

  lemma OtherSourcePreventsDrop(kg: Kg, names: set<Obj>, gone: set<Chunk>, o: Obj)
    requires !(SourceSet(kg, o) <= gone)
    ensures o !in Drops(kg, names, gone, Rollback)
  {
    var c :| c in SourceSet(kg, o) && c !in gone;
    var remaining := Subtract(Sources(kg, o), gone);
    assert c in Ids(remaining);
    EmptyIds(remaining);
    EmptyIds(Sources(kg, o));
  }

  /** A purge, whole or cut, leaves an object that another chunk supports, and its support. */
  lemma PurgeKeepsSupport(kg: Kg, part: Kg, names: set<Obj>, gone: set<Chunk>, o: Obj, c: Chunk)
    requires PartlyDerived(kg, part, names, gone, Rollback)
    requires c in SourceSet(kg, o) && c !in gone
    requires o in kg.graph && o.Relation? ==>
      !(SourceSet(kg, Entity(o.lo)) <= gone) && !(SourceSet(kg, Entity(o.hi)) <= gone)
    ensures c in SourceSet(part, o) && (o in kg.graph ==> o in part.graph)
  {
    var dropped := Drops(kg, names, gone, Rollback);
    assert c in Ids(Subtract(Sources(kg, o), gone));
    OtherSourcePreventsDrop(kg, names, gone, o);
    if o in kg.graph && o.Relation? {
      OtherSourcePreventsDrop(kg, names, gone, Entity(o.lo));
      OtherSourcePreventsDrop(kg, names, gone, Entity(o.hi));
    }
    assert o !in dropped + Fallen(kg, dropped);
    EmptyIds(Subtract(Sources(kg, o), gone));
  }

  /** And a row that does not name a chunk the graph list names goes on hiding it. */
  lemma PurgeKeepsRow(kg: Kg, part: Kg, names: set<Obj>, gone: set<Chunk>, o: Obj, c: Chunk, other: Chunk)
    requires PartlyDerived(kg, part, names, gone, Rollback)
    requires other in SourceSet(kg, o) && other !in gone && o in kg.graph
    requires o.Relation? ==> !(SourceSet(kg, Entity(o.lo)) <= gone) && !(SourceSet(kg, Entity(o.hi)) <= gone)
    requires c in Mentions(kg, o) && c !in SourceSet(kg, o)
    ensures c !in SourceSet(part, o)
  {
    PurgeKeepsSupport(kg, part, names, gone, o, other);
    var dropped := Drops(kg, names, gone, Rollback);
    OtherSourcePreventsDrop(kg, names, gone, o);
    if o.Relation? {
      OtherSourcePreventsDrop(kg, names, gone, Entity(o.lo));
      OtherSourcePreventsDrop(kg, names, gone, Entity(o.hi));
    }
    assert o !in dropped + Fallen(kg, dropped);
    assert o in kg.tracking && kg.tracking[o] != [] && Sources(kg, o) == kg.tracking[o];
    assert other in Ids(Subtract(Sources(kg, o), gone));
    EmptyIds(part.tracking[o]);
  }

  /** A completed rollback pass leaves no candidate as it was: all survivors are rebuilt. */
  lemma RollbackAlignsSurvivors(kg: Kg, names: set<Obj>, gone: set<Chunk>)
    ensures var after := Derive(kg, names, gone, Rollback);
      forall o :: o in after.graph && o in names ==>
        o in after.tracking && after.tracking[o] == after.graph[o] && Ids(after.graph[o]) !! gone
  {
    var after := Derive(kg, names, gone, Rollback);
    forall o | o in after.graph && o in names
      ensures o in after.tracking && after.tracking[o] == after.graph[o] && Ids(after.graph[o]) !! gone
    {
      assert o in kg.graph && o !in Fallen(kg, Drops(kg, names, gone, Rollback));
      assert o in Rebuilds(kg, names, gone, Rollback);
    }
  }

  // ----- preservation, action by action -----

  /** A write that leaves the graph and both id sets alone, and names no less, keeps the
      three coverage clauses. */
  lemma SameIdsKeepInv(doc: DocId, disk: Disk, after: Disk)
    requires DiskInv(doc, disk)
    requires after.kg == disk.kg
    requires CommittedIds(after) == CommittedIds(disk) && StagedIds(after) == StagedIds(disk)
    requires JournalNames(disk) <= JournalNames(after)
    requires AnchorNames(disk) <= AnchorNames(after) || CommittedIds(disk) == {}
    requires JournalSound(doc, after) && TextsKept(after)
    ensures DiskInv(doc, after)
  {
  }

  lemma ResumingKeepsInv(s: Sys, decision: Decision)
    requires Inv(s) && s.run.None? && s.rollback.None?
    requires decision.Go? && decision.resume && s.disk.row.Some? && s.disk.row.value.patch.Some?
    requires decision.operation == s.disk.row.value.patch.value.operation
    requires decision.mode == s.disk.row.value.patch.value.mode
    requires decision.entries == s.disk.row.value.patch.value.chunkIds
    ensures Inv(Started(s, decision))
  {
    var t := Started(s, decision);
    assert Committed(t.disk) == Committed(s.disk);
    SameIdsKeepInv(s.doc, s.disk, t.disk);
  }

  lemma FreshStartKeepsInv(s: Sys, decision: Decision)
    requires Inv(s) && s.run.None? && s.rollback.None?
    requires decision.Go? && !decision.resume && (s.disk.row.Some? ==> s.disk.row.value.patch.None?)
    requires OwnedChunks(s.doc, decision.operation) && decision.operation != [] && decision.entries != []
    requires decision.mode == Create ==> s.disk.row.None? && decision.entries == decision.operation
    requires decision.mode == Patch ==> decision.entries == Uncommitted(decision.operation, Committed(s.disk))
    ensures Inv(Started(s, decision))
  {
    var t := Started(s, decision);
    assert Committed(t.disk) == Committed(s.disk);
    assert StagedIds(s.disk) == {};
    EntriesAreFresh(s, decision);
    FreshStagingKeepsGraph(s.doc, s.disk, t.disk);
  }

  lemma FreshStagingKeepsGraph(doc: DocId, disk: Disk, after: Disk)
    requires DiskInv(doc, disk) && after.kg == disk.kg && StagedIds(disk) == {}
    requires CommittedIds(after) == CommittedIds(disk) && AnchorNames(after) == AnchorNames(disk)
    requires StagedIds(after) !! CommittedIds(disk) && forall c :: c in StagedIds(after) ==> c.doc == doc
    ensures GraphInv(doc, after)
  {
    assert forall c :: Settled(doc, after, c) ==> Settled(doc, disk, c);
  }

  lemma EntriesAreFresh(s: Sys, decision: Decision)
    requires Inv(s) && decision.Go?
    requires s.disk.row.Some? ==> s.disk.row.value.patch.None?
    requires OwnedChunks(s.doc, decision.operation)
    requires decision.mode == Create ==> s.disk.row.None? && decision.entries == decision.operation
    requires decision.mode == Patch ==> decision.entries == Uncommitted(decision.operation, Committed(s.disk))
    ensures Ids(decision.entries) !! CommittedIds(s.disk)
    ensures OwnedChunks(s.doc, decision.entries)
  {
    forall c | c in CommittedIds(s.disk) && c.CustomChunk?
      ensures c.text in Committed(s.disk)
    {
      assert s.disk.texts[c] == c.text;
    }
  }

  lemma BeginKeepsInv(s: Sys, inputs: seq<string>)
    requires Inv(s) && s.run.None? && s.rollback.None?
    ensures Inv(Step(s, Begin(inputs)))
  {
    var decision := Decide(s.doc, s.disk, inputs);
    if decision.Go? {
      if decision.resume {
        ResumingKeepsInv(s, decision);
      } else {
        FreshStartKeepsInv(s, decision);
      }
    }
  }

  lemma StagingKeepsContents(s: Sys)
    requires Inv(s) && At(s, Begun)
    ensures Committed(Step(s, StageChunks).disk) == Committed(s.disk)
  {
    assert forall c :: c in s.disk.row.value.chunksList ==> c !in s.run.value.journal.chunkIds;
  }

  lemma StagingKeepsInv(s: Sys)
    requires Inv(s) && At(s, Begun)
    ensures Inv(Step(s, StageChunks))
  {
    StagingKeepsContents(s);
    SameIdsKeepInv(s.doc, s.disk, Step(s, StageChunks).disk);
  }

  /** What comes in with a merge write is staged, or settled ids of an edge whose endpoints
      are grounded. */
  lemma IncomingIsAccountedFor(s: Sys, w: KgWrite, c: Chunk)
    requires Inv(s) && At(s, Merging)
    requires Permitted(s.disk.kg, s.run.value.sample, Ids(s.run.value.journal.chunkIds), w)
    requires c in Incoming(s.disk.kg, w) && c !in StagedIds(s.disk)
    requires c in CommittedIds(s.disk) || c.doc == s.doc
    ensures Grounded(s.disk, Target(w)) && !w.CreateEnd?
  {
    assert !w.Track? && !w.Upsert?;
    assert c in Mentions(s.disk.kg, Subject(w)) && c in SourceSet(s.disk.kg, Subject(w));
    assert Settled(s.doc, s.disk, c);
    assert EndsGrounded(s.disk, Subject(w));
  }

  lemma TargetIsNamed(s: Sys, w: KgWrite)
    requires Inv(s) && At(s, Merging)
    requires Permitted(s.disk.kg, s.run.value.sample, Ids(s.run.value.journal.chunkIds), w)
    ensures Target(w) in JournalNames(s.disk)
  {
  }

  /** Support survives any merge write, and so does grounding. */
  lemma MergeKeepsSupport(disk: Disk, w: KgWrite, o: Obj)
    requires w.CreateEnd? ==> Target(w) !in disk.kg.graph
    ensures Supported(disk, o) && (o != Target(w) || !w.CreateEnd? || !w.tracked) ==>
      Supported(disk.(kg := Written(disk.kg, w)), o)
    ensures Grounded(disk, o) ==> Grounded(disk.(kg := Written(disk.kg, w)), o)
  {
    if o != Target(w) {
      OthersUntouched(disk.kg, w, o);
    } else if w.CreateEnd? {
      CreatedSources(disk.kg, w);
    } else {
      TargetKeepsSources(disk.kg, w);
    }
  }

  /** What the write leaves its target naming is staged, or the target is supported. */
  lemma MergedTarget(s: Sys, w: KgWrite, c: Chunk)
    requires Inv(s) && Enabled(s, Action.Merge(w, {}))
    requires c in Mentions(Written(s.disk.kg, w), Target(w))
    requires Settled(s.doc, s.disk, c)
    ensures c !in CommittedIds(s.disk) ==> Supported(s.disk.(kg := Written(s.disk.kg, w)), Target(w))
    ensures c in CommittedIds(s.disk) ==> Target(w) in AnchorNames(s.disk)
    ensures EndsGrounded(s.disk, Target(w)) || Sheltered(s.doc, s.disk, Target(w), c)
  {
    var o := Target(w);
    TargetMentions(s.disk.kg, w);
    MergeKeepsSupport(s.disk, w, o);
    if c in Incoming(s.disk.kg, w) {
      IncomingIsAccountedFor(s, w, c);
      assert SourceSet(s.disk.kg, o) <= Mentions(s.disk.kg, o);
    } else {
      assert c in Mentions(s.disk.kg, o);
      SettledMention(s, o, c);
    }
  }

  lemma SettledMention(s: Sys, o: Obj, c: Chunk)
    requires Inv(s) && c in Mentions(s.disk.kg, o)
    requires Settled(s.doc, s.disk, c)
    ensures c !in CommittedIds(s.disk) ==> Supported(s.disk, o)
    ensures c in CommittedIds(s.disk) ==> o in AnchorNames(s.disk)
    ensures EndsGrounded(s.disk, o) || Sheltered(s.doc, s.disk, o, c)
  {
    assert Settled(s.doc, s.disk, c);
  }

  lemma MergeKeepsLasting(doc: DocId, disk: Disk, w: KgWrite, o: Obj)
    requires w.CreateEnd? ==> Target(w) !in disk.kg.graph
    requires Lasting(doc, disk, o)
    ensures Lasting(doc, disk.(kg := Written(disk.kg, w)), o)
  {
    var c :| c in SourceSet(disk.kg, o) && (c in CommittedIds(disk) || c.doc != doc);
    if o == Target(w) {
      TargetKeepsSources(disk.kg, w);
    } else {
      OthersUntouched(disk.kg, w, o);
    }
    assert c in SourceSet(Written(disk.kg, w), o);
  }

  /** What holds an edge's endpoints in place still does after any merge write. */
  lemma MergeKeepsEnds(s: Sys, w: KgWrite, o: Obj, c: Chunk)
    requires Inv(s) && Enabled(s, Action.Merge(w, {})) && c !in StagedIds(s.disk)
    requires EndsGrounded(s.disk, o) || Sheltered(s.doc, s.disk, o, c)
    ensures var after := s.disk.(kg := Written(s.disk.kg, w));
      EndsGrounded(after, o) || Sheltered(s.doc, after, o, c)
  {
    if EndsGrounded(s.disk, o) {
      if o.Relation? {
        MergeKeepsSupport(s.disk, w, Entity(o.lo));
        MergeKeepsSupport(s.disk, w, Entity(o.hi));
      }
    } else {
      MergeKeepsLasting(s.doc, s.disk, w, o);
      MergeKeepsLasting(s.doc, s.disk, w, Entity(o.lo));
      MergeKeepsLasting(s.doc, s.disk, w, Entity(o.hi));
      if o == Target(w) {
        TargetKeepsSources(s.disk.kg, w);
      } else {
        OthersUntouched(s.disk.kg, w, o);
      }
    }
  }

  lemma SettledIsNotStaged(s: Sys, c: Chunk)
    requires Inv(s) && Settled(s.doc, s.disk, c)
    ensures c !in StagedIds(s.disk)
  {
  }

  lemma MergeKeepsObject(s: Sys, w: KgWrite, o: Obj, c: Chunk)
    requires Inv(s) && Enabled(s, Action.Merge(w, {}))
    requires c in Mentions(Written(s.disk.kg, w), o)
    ensures Accounted(s.doc, s.disk.(kg := Written(s.disk.kg, w)), o, c)
  {
    if o == Target(w) {
      TargetIsNamed(s, w);
      if Settled(s.doc, s.disk, c) {
        SettledIsNotStaged(s, c);
        MergedTarget(s, w, c);
        MergeKeepsEnds(s, w, o, c);
      }
    } else {
      OthersUntouched(s.disk.kg, w, o);
      MergeKeepsSupport(s.disk, w, o);
      if Settled(s.doc, s.disk, c) {
        SettledIsNotStaged(s, c);
        SettledMention(s, o, c);
        MergeKeepsEnds(s, w, o, c);
      }
    }
  }

  lemma MergeKeepsGraph(s: Sys, w: KgWrite)
    requires Inv(s) && Enabled(s, Action.Merge(w, {}))
    ensures GraphInv(s.doc, s.disk.(kg := Written(s.disk.kg, w)))
  {
    forall o, c | c in Mentions(Written(s.disk.kg, w), o)
      ensures Accounted(s.doc, s.disk.(kg := Written(s.disk.kg, w)), o, c)
    {
      MergeKeepsObject(s, w, o, c);
    }
  }

  lemma MergingKeepsInv(s: Sys, a: Action)
    requires Inv(s) && a.Merge? && Enabled(s, a)
    ensures Inv(Step(s, a))
  {
    assert Enabled(s, Action.Merge(a.write, {}));
    MergeKeepsGraph(s, a.write);
    assert Committed(Step(s, a).disk) == Committed(s.disk);
  }

  lemma StatusWritesKeepInv(s: Sys, a: Action)
    requires Inv(s) && Enabled(s, a)
    requires a.WriteApplying? || a.WriteAhead? || a.Fail?
    ensures Inv(Step(s, a))
  {
    var t := Step(s, a);
    assert Committed(t.disk) == Committed(s.disk);
    SameIdsKeepInv(s.doc, s.disk, t.disk);
  }

  lemma ReplacingAnchorsKeepsInv(s: Sys, a: Action)
    requires Inv(s) && Enabled(s, a) && (a.ReplaceEntityRow? || a.ReplaceRelationRow?)
    ensures Inv(Step(s, a))
  {
    var t := Step(s, a);
    assert s.disk.row.value.chunksList == [];
    assert Committed(t.disk) == Committed(s.disk);
    SameIdsKeepInv(s.doc, s.disk, t.disk);
  }

  lemma UnioningAnchorsKeepsInv(s: Sys, a: Action)
    requires Inv(s) && Enabled(s, a) && (a.UnionEntityRow? || a.UnionRelationRow?)
    ensures Inv(Step(s, a))
  {
    var t := Step(s, a);
    assert AnchorNames(s.disk) <= AnchorNames(t.disk);
    assert Committed(t.disk) == Committed(s.disk);
    SameIdsKeepInv(s.doc, s.disk, t.disk);
  }

  /** Committing keeps the invariant exactly when every edge that names a staged chunk has
      both endpoints in the graph, with a source of the document if it tracks the chunk. */
  lemma CommittingKeepsInvIff(s: Sys)
    requires Inv(s) && Enabled(s, Commit)
    ensures Inv(Step(s, Commit)) <==> EndpointsLanded(s)
  {
    var t, r := Step(s, Commit), s.run.value;
    IdsOfConcat(r.base.chunksList, r.journal.chunkIds);
    assert CommittedIds(t.disk) == CommittedIds(s.disk) + StagedIds(s.disk) && StagedIds(t.disk) == {};
    assert r.journal.names <= AnchorNames(t.disk) by {
      forall o | o in r.journal.names
        ensures o in AnchorNames(t.disk)
      {
        assert o in EntitiesOf(r.journal.names) + RelationsOf(r.journal.names);
      }
    }
    if EndpointsLanded(s) {
      CommittedMentions(s, t.disk);
    } else {
      UnlandedEdge(s, t.disk);
    }
  }

  lemma CommittedMentions(s: Sys, after: Disk)
    requires Inv(s) && EndpointsLanded(s) && after.kg == s.disk.kg && StagedIds(after) == {}
    requires CommittedIds(after) == CommittedIds(s.disk) + StagedIds(s.disk)
    requires AnchorNames(s.disk) + JournalNames(s.disk) <= AnchorNames(after)
    ensures GraphInv(s.doc, after)
  {
    forall o, c | c in Mentions(after.kg, o)
      ensures Accounted(s.doc, after, o, c)
    {
      assert Accounted(s.doc, s.disk, o, c);
      if Supported(s.disk, o) {
        SupportedIsAnchored(s, o);
      }
      if o.Relation? && c in CommittedIds(after) {
        CommittedEnds(s, after, o, c);
      }
    }
  }

  /** A source of a graph object is the document's, or it lasts. */
  lemma SourcedIsLasting(s: Sys, after: Disk, o: Obj)
    requires Inv(s) && after.kg == s.disk.kg && CommittedIds(after) == CommittedIds(s.disk) + StagedIds(s.disk)
    requires o in s.disk.kg.graph && SourceSet(s.disk.kg, o) != {}
    ensures Lasting(s.doc, after, o)
  {
    var c :| c in SourceSet(s.disk.kg, o);
    assert c in Mentions(s.disk.kg, o) && Accounted(s.doc, s.disk, o, c);
    if c.doc == s.doc && c !in CommittedIds(after) {
      var d :| d in SourceSet(s.disk.kg, o) && d in CommittedIds(s.disk);
    }
  }

  lemma CommittedEnds(s: Sys, after: Disk, o: Obj, c: Chunk)
    requires Inv(s) && EndpointsLanded(s) && after.kg == s.disk.kg && StagedIds(after) == {}
    requires CommittedIds(after) == CommittedIds(s.disk) + StagedIds(s.disk)
    requires o.Relation? && c in Mentions(s.disk.kg, o) && c in CommittedIds(after)
    ensures EndsGrounded(after, o) || Sheltered(s.doc, after, o, c)
  {
    if EndsGrounded(after, o) {
    } else if c in StagedIds(s.disk) {
      assert EndLanded(s.disk, o, c, Entity(o.lo)) && EndLanded(s.disk, o, c, Entity(o.hi));
      SourcedIsLasting(s, after, Entity(o.lo));
      SourcedIsLasting(s, after, Entity(o.hi));
      EmptyIds(Sources(s.disk.kg, o));
      SourcedIsLasting(s, after, o);
    } else {
      assert Settled(s.doc, s.disk, c) && Accounted(s.doc, s.disk, o, c);
      StillSheltered(s, after, o, c);
    }
  }

  lemma StillSheltered(s: Sys, after: Disk, o: Obj, c: Chunk)
    requires after.kg == s.disk.kg && CommittedIds(s.disk) <= CommittedIds(after)
    ensures Sheltered(s.doc, s.disk, o, c) ==> Sheltered(s.doc, after, o, c)
    ensures EndsGrounded(s.disk, o) ==> EndsGrounded(after, o)
  {
  }

  lemma SupportedIsAnchored(s: Sys, o: Obj)
    requires Inv(s) && Supported(s.disk, o)
    ensures o in AnchorNames(s.disk) && EndsGrounded(s.disk, o)
  {
    var c :| c in SourceSet(s.disk.kg, o) && c in CommittedIds(s.disk);
    assert c in Mentions(s.disk.kg, o) && Accounted(s.doc, s.disk, o, c);
  }

  lemma UnlandedEdge(s: Sys, after: Disk)
    requires Inv(s) && !EndpointsLanded(s) && after.kg == s.disk.kg && StagedIds(after) == {}
    requires CommittedIds(after) == CommittedIds(s.disk) + StagedIds(s.disk)
    ensures !GraphInv(s.doc, after)
  {
    var o: Obj, c :| o.Relation? && c in Mentions(s.disk.kg, o) && c in StagedIds(s.disk)
      && !(EndLanded(s.disk, o, c, Entity(o.lo)) && EndLanded(s.disk, o, c, Entity(o.hi)));
    assert c in Mentions(after.kg, o) && c in CommittedIds(after);
    assert !Accounted(s.doc, after, o, c);
  }

  lemma PurgedObject(s: Sys, part: Kg, o: Obj)
    requires Inv(s) && s.rollback.Some?
    requires PartlyDerived(s.disk.kg, part, s.rollback.value.journal.names, StagedIds(s.disk), Rollback)
    ensures Supported(s.disk, o) ==> Supported(s.disk.(kg := part), o)
    ensures Grounded(s.disk, o) ==> Grounded(s.disk.(kg := part), o)
  {
    if Supported(s.disk, o) {
      SupportedIsAnchored(s, o);
      var c :| c in SourceSet(s.disk.kg, o) && c in CommittedIds(s.disk);
      PurgeKeepsSupport(s.disk.kg, part, s.rollback.value.journal.names, StagedIds(s.disk), o, c);
    }
  }

  lemma PurgeKeepsLasting(s: Sys, part: Kg, o: Obj)
    requires Inv(s) && s.rollback.Some? && Lasting(s.doc, s.disk, o)
    requires PartlyDerived(s.disk.kg, part, s.rollback.value.journal.names, StagedIds(s.disk), Rollback)
    requires o.Relation? ==> Lasting(s.doc, s.disk, Entity(o.lo)) && Lasting(s.doc, s.disk, Entity(o.hi))
    ensures Lasting(s.doc, s.disk.(kg := part), o)
  {
    var c := LastingSource(s, o);
    if o.Relation? {
      var lo := LastingSource(s, Entity(o.lo));
      var hi := LastingSource(s, Entity(o.hi));
    }
    PurgeKeepsSupport(s.disk.kg, part, s.rollback.value.journal.names, StagedIds(s.disk), o, c);
  }

  lemma LastingSource(s: Sys, o: Obj) returns (c: Chunk)
    requires Inv(s) && Lasting(s.doc, s.disk, o)
    ensures c in SourceSet(s.disk.kg, o) && (c in CommittedIds(s.disk) || c.doc != s.doc) && c !in StagedIds(s.disk)
  {
    c :| c in SourceSet(s.disk.kg, o) && (c in CommittedIds(s.disk) || c.doc != s.doc);
  }

  lemma PurgeKeepsShelter(s: Sys, part: Kg, o: Obj, c: Chunk)
    requires Inv(s) && s.rollback.Some? && Sheltered(s.doc, s.disk, o, c) && c in Mentions(s.disk.kg, o)
    requires PartlyDerived(s.disk.kg, part, s.rollback.value.journal.names, StagedIds(s.disk), Rollback)
    ensures Sheltered(s.doc, s.disk.(kg := part), o, c)
  {
    PurgeKeepsLasting(s, part, o);
    PurgeKeepsLasting(s, part, Entity(o.lo));
    PurgeKeepsLasting(s, part, Entity(o.hi));
    var other := LastingSource(s, o);
    var lo := LastingSource(s, Entity(o.lo));
    var hi := LastingSource(s, Entity(o.hi));
    PurgeKeepsRow(s.disk.kg, part, s.rollback.value.journal.names, StagedIds(s.disk), o, c, other);
  }

  lemma PurgingKeepsInv(s: Sys, a: Action)
    requires Inv(s) && Enabled(s, a)
    requires a.StartRollback? || a.TearPurge? || a.PurgeDerived? || a.DeleteBody?
    ensures Inv(Step(s, a))
  {
    var t := Step(s, a);
    assert Committed(t.disk) == Committed(s.disk);
    if a.TearPurge? || a.PurgeDerived? {
      var r := s.rollback.value;
      var gone := Ids(r.journal.chunkIds);
      WholePassIsALanding(s.disk.kg, r.journal.names, gone, Rollback);
      PurgeShrinksMentions(s.disk.kg, t.disk.kg, r.journal.names, gone, Rollback);
      forall o
        ensures Supported(s.disk, o) ==> Supported(s.disk.(kg := t.disk.kg), o)
        ensures Grounded(s.disk, o) ==> Grounded(s.disk.(kg := t.disk.kg), o)
      {
        PurgedObject(s, t.disk.kg, o);
      }
      forall o, c | c in Mentions(t.disk.kg, o) && Sheltered(s.doc, s.disk, o, c)
        ensures Sheltered(s.doc, s.disk.(kg := t.disk.kg), o, c)
      {
        PurgeKeepsShelter(s, t.disk.kg, o, c);
      }
      ShrinkingKeepsInv(s.doc, s.disk, t.disk.kg);
      if a.PurgeDerived? {
        RollbackAlignsSurvivors(s.disk.kg, r.journal.names, gone);
      }
    }
  }

  lemma ChunkDeletionKeepsInv(s: Sys, a: Action)
    requires Inv(s) && Enabled(s, a)
    requires a.DeleteChunkRows? || a.ChunkRowsDeleted?
    ensures Inv(Step(s, a))
  {
    DeletionKeepsRecords(s, a);
    SameIdsKeepInv(s.doc, s.disk, Step(s, a).disk);
  }

  lemma DeletionKeepsRecords(s: Sys, a: Action)
    requires Inv(s) && Enabled(s, a)
    requires a.DeleteChunkRows? || a.ChunkRowsDeleted?
    ensures JournalSound(s.doc, Step(s, a).disk) && TextsKept(Step(s, a).disk)
  {
    var t := Step(s, a);
    assert forall c :: c in s.disk.row.value.chunksList ==> c !in s.rollback.value.journal.chunkIds;
    assert Committed(t.disk) == Committed(s.disk);
  }

  lemma PruningKeepsInv(s: Sys, a: Action)
    requires Inv(s) && Enabled(s, a)
    requires a.SettleEntityRow? || a.SettleRelationRow?
    ensures Inv(Step(s, a))
  {
    var t := Step(s, a);
    assert Committed(t.disk) == Committed(s.disk);
    assert CommittedIds(t.disk) == CommittedIds(s.disk) && StagedIds(t.disk) == StagedIds(s.disk);
    forall o, c | c in Mentions(t.disk.kg, o)
      ensures Accounted(s.doc, t.disk, o, c)
    {
      assert Accounted(s.doc, s.disk, o, c);
      if c in CommittedIds(s.disk) {
        PruningKeepsAnchor(s, a, o, c);
      }
    }
  }

  /** Pruning reads the tracking row alone, which after the pass names what the graph names. */
  lemma PruningKeepsAnchor(s: Sys, a: Action, o: Obj, c: Chunk)
    requires Inv(s) && Enabled(s, a)
    requires a.SettleEntityRow? || a.SettleRelationRow?
    requires c in Mentions(s.disk.kg, o) && c in CommittedIds(s.disk)
    ensures o in AnchorNames(Step(s, a).disk)
  {
    assert Accounted(s.doc, s.disk, o, c);
    assert Owned(s) == CommittedIds(s.disk);
    if o in s.disk.kg.graph && o in s.rollback.value.journal.names {
      assert s.disk.kg.tracking[o] == s.disk.kg.graph[o];
    }
  }

  /** Clearing the journal keeps the invariant exactly when no orphaned tracking row names
      staged chunks alone. */
  lemma FinishingKeepsInvIff(s: Sys)
    requires Inv(s) && Enabled(s, FinishRollback)
    ensures Inv(Step(s, FinishRollback)) <==> OrphansStayAnchored(s)
  {
    var t := Step(s, FinishRollback);
    assert CommittedIds(t.disk) == CommittedIds(s.disk) && StagedIds(t.disk) == {};
    assert AnchorNames(t.disk) == AnchorNames(s.disk);
    if OrphansStayAnchored(s) {
      FinishedMentions(s, t.disk);
    } else {
      OrphanLosesSupport(s, t.disk);
    }
  }

  lemma FinishedMentions(s: Sys, after: Disk)
    requires Inv(s) && Enabled(s, FinishRollback) && OrphansStayAnchored(s)
    requires after.kg == s.disk.kg && StagedIds(after) == {} && CommittedIds(after) == CommittedIds(s.disk)
    requires AnchorNames(after) == AnchorNames(s.disk)
    ensures GraphInv(s.doc, after)
  {
    forall o, c | c in Mentions(after.kg, o)
      ensures Accounted(s.doc, after, o, c)
    {
      assert Accounted(s.doc, s.disk, o, c);
      if c in StagedIds(s.disk) {
        MentionedAfterPass(s, o);
      }
    }
  }

  lemma MentionedAfterPass(s: Sys, o: Obj)
    requires Inv(s) && Enabled(s, FinishRollback) && OrphansStayAnchored(s)
    requires !(Mentions(s.disk.kg, o) !! StagedIds(s.disk))
    ensures Supported(s.disk, o) && EndsGrounded(s.disk, o)
  {
    if o !in s.disk.kg.graph {
      var c :| c in Row(s.disk.kg, o) && c in CommittedIds(s.disk);
      assert c in SourceSet(s.disk.kg, o);
    }
    SupportedIsAnchored(s, o);
  }

  lemma OrphanLosesSupport(s: Sys, after: Disk)
    requires Inv(s) && Enabled(s, FinishRollback) && !OrphansStayAnchored(s)
    requires after.kg == s.disk.kg && StagedIds(after) == {} && CommittedIds(after) == CommittedIds(s.disk)
    ensures !GraphInv(s.doc, after)
  {
    var o :| o !in s.disk.kg.graph && !(Ids(Row(s.disk.kg, o)) !! StagedIds(s.disk))
      && Ids(Row(s.disk.kg, o)) !! CommittedIds(s.disk);
    var c :| c in Row(s.disk.kg, o) && c in StagedIds(s.disk);
    assert c in Mentions(after.kg, o) && c.doc == s.doc;
    assert !Accounted(s.doc, after, o, c);
  }

  predicate IsInsertStep(a: Action) {
    !IsRollbackStep(a)
  }

  predicate IsRollbackStep(a: Action) {
    a.StartRollback? || a.TearPurge? || a.PurgeDerived? || a.DeleteChunkRows? || a.ChunkRowsDeleted?
    || a.SettleEntityRow? || a.SettleRelationRow? || a.DeleteBody? || a.FinishRollback?
  }

  lemma InsertStepKeepsInv(s: Sys, a: Action)
    requires Inv(s) && Enabled(s, a) && IsInsertStep(a) && SettlesCleanly(s, a)
    ensures Inv(Step(s, a))
  {
    if a.Begin? { BeginKeepsInv(s, a.inputs); }
    else if a.StageChunks? { StagingKeepsInv(s); }
    else if a.Merge? { MergingKeepsInv(s, a); }
    else if a.WriteApplying? || a.WriteAhead? || a.Fail? { StatusWritesKeepInv(s, a); }
    else if a.ReplaceEntityRow? || a.ReplaceRelationRow? { ReplacingAnchorsKeepsInv(s, a); }
    else if a.UnionEntityRow? || a.UnionRelationRow? { UnioningAnchorsKeepsInv(s, a); }
    else if a.Commit? { CommittingKeepsInvIff(s); }
    else { MemoryStepKeepsInv(s, a); }
  }

  lemma MemoryStepKeepsInv(s: Sys, a: Action)
    requires Inv(s) && Enabled(s, a)
    requires a.Extract? || a.RecordSummary? || a.FinishMerge? || a.StartMerge? || a.Crash?
    ensures Inv(Step(s, a))
  {
    assert Step(s, a).disk == s.disk;
  }

  lemma RollbackStepKeepsInv(s: Sys, a: Action)
    requires Inv(s) && Enabled(s, a) && IsRollbackStep(a) && SettlesCleanly(s, a)
    ensures Inv(Step(s, a))
  {
    if a.FinishRollback? { FinishingKeepsInvIff(s); }
    else if a.SettleEntityRow? || a.SettleRelationRow? { PruningKeepsInv(s, a); }
    else if a.DeleteChunkRows? || a.ChunkRowsDeleted? { ChunkDeletionKeepsInv(s, a); }
    else { PurgingKeepsInv(s, a); }
  }

  // ----- every run -----

  /** Every commit of the trace finds the endpoints of staged edges in place, and every
      rollback that finishes leaves no orphaned row that names staged chunks alone. */
  ghost predicate SettlesCleanlyThroughout(s: Sys, trace: seq<Action>)
    requires Legal(s, trace)
    decreases trace
  {
    trace != [] ==> SettlesCleanly(s, trace[0]) && SettlesCleanlyThroughout(Step(s, trace[0]), trace[1..])
  }

  /** Coverage holds after any run of inserts, failures, crashes, resumes, commits and
      rollbacks, whatever each attempt extracted and merged. */
  lemma {:induction false} AnchorsCoverEveryRun(s: Sys, trace: seq<Action>)
    requires Inv(s) && Legal(s, trace) && SettlesCleanlyThroughout(s, trace)
    ensures Inv(Replay(s, trace)) && Covered(Replay(s, trace))
    decreases trace
  {
    if trace == [] {
      InvGivesCoverage(s);
    } else {
      if IsRollbackStep(trace[0]) {
        RollbackStepKeepsInv(s, trace[0]);
      } else {
        InsertStepKeepsInv(s, trace[0]);
      }
      AnchorsCoverEveryRun(Step(s, trace[0]), trace[1..]);
    }
  }

  /** A store that knows nothing of the document is a starting point. */
  lemma UntouchedStoreSatisfiesInv(s: Sys)
    requires s.disk.row.None? && s.run.None? && s.rollback.None?
    requires forall o, c :: c in Mentions(s.disk.kg, o) ==> c.doc != s.doc
    ensures Inv(s)
  {
  }

  /** A whole-document delete finds everything: its candidates (anchors and the unfinished
      journal) cover its chunk set (committed and staged). */
  lemma InvCoversWholeDocumentPurge(s: Sys)
    requires Inv(s)
    ensures SourceCovered(s.disk.kg, AnchorNames(s.disk) + JournalNames(s.disk), CommittedIds(s.disk) + StagedIds(s.disk))
  {
    forall o | o in s.disk.kg.graph && !(SourceSet(s.disk.kg, o) !! (CommittedIds(s.disk) + StagedIds(s.disk)))
      ensures o in AnchorNames(s.disk) + JournalNames(s.disk)
    {
      assert SourceSet(s.disk.kg, o) <= Mentions(s.disk.kg, o);
    }
  }
}
