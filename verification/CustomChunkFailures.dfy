/** One more operation on a document at rest: a call with a text nobody has used, cut in its
    merge and rolled back. What it leaves behind is what the exactness of the coverage
    conditions rests on. */
module CustomChunkFailures {
  import opened KgModel
  import opened DerivedPass
  import opened CustomChunks
  import opened MergeWrites
  import opened CustomChunkCoverage

  /** A run in which every commit and every finished rollback is clean. */
  ghost predicate Leads(s: Sys, t: Sys) {
    exists trace :: Follows(s, trace, t) && SettlesCleanlyThroughout(s, trace)
  }

  lemma Stays(s: Sys)
    ensures Leads(s, s)
  {
    assert Follows(s, [], s) && SettlesCleanlyThroughout(s, []);
  }

  lemma {:induction false} ExtendCleanly(s: Sys, trace: seq<Action>, t: Sys, a: Action)
    requires Follows(s, trace, t) && SettlesCleanlyThroughout(s, trace)
    requires Enabled(t, a) && SettlesCleanly(t, a)
    ensures Follows(s, trace + [a], Step(t, a)) && SettlesCleanlyThroughout(s, trace + [a])
    decreases trace
  {
    Extend(s, trace, t, a);
    if trace == [] {
      assert (trace + [a])[1..] == [];
    } else {
      ExtendCleanly(Step(s, trace[0]), trace[1..], t, a);
      assert (trace + [a])[1..] == trace[1..] + [a];
    }
  }

  lemma LeadsOn(s: Sys, t: Sys, a: Action)
    requires Leads(s, t) && Enabled(t, a) && SettlesCleanly(t, a)
    ensures Leads(s, Step(t, a))
  {
    var trace :| Follows(s, trace, t) && SettlesCleanlyThroughout(s, trace);
    ExtendCleanly(s, trace, t, a);
  }

  predicate Unsettled(trace: seq<Action>) {
    forall a :: a in trace ==> !a.Commit? && !a.FinishRollback?
  }

  /** A run that settles nothing: it stays within one operation. */
  ghost predicate Works(s: Sys, t: Sys) {
    exists trace :: Follows(s, trace, t) && Unsettled(trace)
  }

  lemma WorksHere(s: Sys)
    ensures Works(s, s)
  {
    assert Follows(s, [], s) && Unsettled([]);
  }

  lemma Onward(s: Sys, t: Sys, a: Action)
    requires Works(s, t) && Enabled(t, a) && !a.Commit? && !a.FinishRollback?
    ensures Works(s, Step(t, a))
  {
    var trace :| Follows(s, trace, t) && Unsettled(trace);
    Extend(s, trace, t, a);
    assert Unsettled(trace + [a]);
  }

  lemma {:induction false} LeadsThrough(s: Sys, t: Sys, trace: seq<Action>)
    requires Leads(s, t) && Legal(t, trace) && Unsettled(trace)
    ensures Leads(s, Replay(t, trace))
    decreases trace
  {
    if trace != [] {
      LeadsOn(s, t, trace[0]);
      LeadsThrough(s, Step(t, trace[0]), trace[1..]);
    }
  }

  lemma LeadsAndWorks(s: Sys, t: Sys, m: Sys)
    requires Leads(s, t) && Works(t, m)
    ensures Leads(s, m)
  {
    var trace :| Follows(t, trace, m) && Unsettled(trace);
    LeadsThrough(s, t, trace);
  }

  // ----- a text nobody has used -----

  /** No operation is journaled, and a call with a new text would be accepted. */
  ghost predicate AtRest(s: Sys) {
    && s.run.None? && s.rollback.None?
    && if s.disk.row.None? then !s.disk.body
       else s.disk.row.value.patch.None? && s.disk.row.value.status == Processed
  }

  ghost predicate Unused(s: Sys, c: Chunk) {
    && c.CustomChunk? && c.doc == s.doc && c.text != "" && c.text !in Committed(s.disk)
    && c !in s.disk.texts && c !in CommittedIds(s.disk)
    && forall o :: c !in Mentions(s.disk.kg, o)
  }

  lemma {:induction false} LongerThanAll(texts: set<string>) returns (n: nat)
    ensures forall t :: t in texts ==> |t| < n
    decreases texts
  {
    if texts == {} {
      n := 0;
    } else {
      var t :| t in texts;
      var m := LongerThanAll(texts - {t});
      n := if m > |t| then m else |t| + 1;
    }
  }

  function UsedChunks(s: Sys): set<Chunk> {
    s.disk.texts.Keys + CommittedIds(s.disk)
    + (set o, c | o in s.disk.kg.graph && c in s.disk.kg.graph[o] :: c)
    + (set o, c | o in s.disk.kg.tracking && c in s.disk.kg.tracking[o] :: c)
  }

  lemma UnusedExists(s: Sys) returns (c: Chunk)
    ensures Unused(s, c)
  {
    var used := UsedChunks(s);
    var texts := Committed(s.disk) + set c | c in used && c.CustomChunk? :: c.text;
    var n := LongerThanAll(texts);
    var text := seq(n + 1, _ => 'x');
    c := CustomChunk(s.doc, text);
    assert text !in texts && |text| == n + 1;
    assert forall d :: d in used && d.CustomChunk? ==> d.text in texts;
    assert c !in used;
    forall o
      ensures c !in Mentions(s.disk.kg, o)
    {
    }
  }

  lemma {:induction false} AboveAll(objs: set<Obj>) returns (n: Name)
    ensures forall o :: o in objs ==> (if o.Entity? then o.name else o.hi) < n
    ensures forall o :: o in objs ==> (if o.Entity? then o.name else o.lo) < n
    decreases objs
  {
    if objs == {} {
      n := 0;
    } else {
      var o :| o in objs;
      var m := AboveAll(objs - {o});
      var top := if o.Entity? then o.name else if o.lo > o.hi then o.lo else o.hi;
      n := if m > top then m else top + 1;
    }
  }

  /** A name that no graph object and no tracking row uses. */
  lemma NewName(kg: Kg, above: Name) returns (n: Name)
    ensures n > above && Entity(n) !in kg.graph && Entity(n) !in kg.tracking
    ensures forall m :: Relation(m, n) !in kg.graph && Relation(m, n) !in kg.tracking
  {
    n := AboveAll(kg.graph.Keys + kg.tracking.Keys + {Entity(above)});
  }

  // ----- the call -----

  predicate StagedNow(disk: Disk, c: Chunk, names: set<Obj>, mode: Mode) {
    && disk.row.Some? && disk.row.value.status == Processing && disk.row.value.patch.Some?
    && disk.row.value.patch.value.chunkIds == [c] && disk.row.value.patch.value.operation == [c]
    && disk.row.value.patch.value.names == names && disk.row.value.patch.value.mode == mode
  }

  function ModeOn(s: Sys): Mode {
    if s.disk.row.Some? then Patch else Create
  }

  /** The operation with that text is unfinished, and nothing else of the document changed. */
  ghost predicate Journaled(u: Sys, m: Sys, c: Chunk, names: set<Obj>) {
    && m.doc == u.doc && StagedNow(m.disk, c, names, ModeOn(u))
    && m.disk.texts - {c} == u.disk.texts
    && m.disk.row.value.chunksList == (if u.disk.row.Some? then u.disk.row.value.chunksList else [])
    && (u.disk.row.Some? ==>
          m.disk.entityRow == u.disk.entityRow && m.disk.relationRow == u.disk.relationRow && m.disk.body == u.disk.body)
  }

  ghost predicate Attempting(u: Sys, m: Sys, c: Chunk, pc: Pc, names: set<Obj>, sample: set<Obj>) {
    && Journaled(u, m, c, names) && At(m, pc) && m.rollback.None?
    && var r := m.run.value;
       && r.sample == sample && r.base == m.disk.row.value && r.pending == multiset{}
       && r.journal.chunkIds == [c] && r.journal.operation == [c]
       && r.journal.names == names && r.journal.mode == ModeOn(u)
  }

  lemma OneEntry(doc: DocId, text: string)
    requires text != ""
    ensures Entries(doc, [text]) == [CustomChunk(doc, text)]
  {
    assert [text][..0] == [] && Entries(doc, []) == [];
  }

  lemma OneMissing(c: Chunk, committed: set<string>)
    requires c.CustomChunk? && c.text !in committed
    ensures Uncommitted([c], committed) == [c]
  {
    assert [c][1..] == [];
  }

  lemma FreshDecision(u: Sys, c: Chunk)
    requires AtRest(u) && c.CustomChunk? && c.doc == u.doc && c.text != "" && c.text !in Committed(u.disk)
    ensures Decide(u.doc, u.disk, [c.text]) == Go(ModeOn(u), false, [c], [c])
  {
    OneEntry(u.doc, c.text);
    OneMissing(c, Committed(u.disk));
  }

  /** The call with that text has written its journal. */
  ghost function Opened(u: Sys, c: Chunk): Sys
    requires AtRest(u) && c.CustomChunk?
  {
    Step(u, Begin([c.text]))
  }

  lemma Begins(u: Sys, c: Chunk)
    requires AtRest(u) && Unused(u, c)
    ensures Attempting(u, Opened(u, c), c, Begun, {}, {}) && Opened(u, c).disk.kg == u.disk.kg
  {
    FreshDecision(u, c);
    assert u.disk.texts - {c} == u.disk.texts;
  }

  lemma StagesAndExtracts(s: Sys, u: Sys, m: Sys, c: Chunk, names: set<Obj>, sample: set<Obj>) returns (n: Sys)
    requires Works(s, m) && Attempting(u, m, c, Begun, names, {}) && NamesEndpoints(sample)
    ensures Works(s, n) && Attempting(u, n, c, Extracted, names, sample) && n.disk.kg == m.disk.kg
    ensures n.run.value.resume == m.run.value.resume
  {
    Onward(s, m, StageChunks);
    var staged := Step(m, StageChunks);
    assert staged.disk.texts - {c} == m.disk.texts - {c};
    Onward(s, staged, Extract(sample, 0));
    n := Step(staged, Extract(sample, 0));
  }

  lemma JournalsCandidates(s: Sys, u: Sys, m: Sys, c: Chunk, names: set<Obj>, sample: set<Obj>) returns (n: Sys)
    requires Works(s, m) && Attempting(u, m, c, Extracted, names, sample)
    ensures Works(s, n) && Attempting(u, n, c, Merging, names + sample, sample) && n.disk.kg == m.disk.kg
    ensures n.run.value.resume == m.run.value.resume
  {
    Onward(s, m, WriteApplying);
    n := WritesAnchors(s, u, Step(m, WriteApplying), c, names + sample, sample);
  }

  lemma WritesAnchors(s: Sys, u: Sys, m: Sys, c: Chunk, names: set<Obj>, sample: set<Obj>) returns (n: Sys)
    requires Works(s, m) && Attempting(u, m, c, Applied, names, sample)
    ensures Works(s, n) && Attempting(u, n, c, Merging, names, sample) && n.disk.kg == m.disk.kg
    ensures n.run.value.resume == m.run.value.resume
  {
    if ModeOn(u) == Patch {
      Onward(s, m, StartMerge);
      n := Step(m, StartMerge);
    } else {
      Onward(s, m, ReplaceEntityRow);
      n := Step(m, ReplaceEntityRow);
      Onward(s, n, ReplaceRelationRow);
      n := Step(n, ReplaceRelationRow);
    }
  }

  lemma Opens(s: Sys, u: Sys, c: Chunk)
    requires AtRest(u) && c.CustomChunk? && (s == u || s == Opened(u, c))
    ensures Works(s, Opened(u, c))
  {
    WorksHere(s);
    if s == u {
      Onward(s, u, Begin([c.text]));
    }
  }

  /** The call reaches its merge with any sample. */
  lemma ReachesMerge(s: Sys, u: Sys, c: Chunk, sample: set<Obj>) returns (m: Sys)
    requires AtRest(u) && Unused(u, c) && NamesEndpoints(sample) && (s == u || s == Opened(u, c))
    ensures Works(s, m) && Attempting(u, m, c, Merging, sample, sample) && m.disk.kg == u.disk.kg
  {
    Begins(u, c);
    Opens(s, u, c);
    m := StagesAndExtracts(s, u, Opened(u, c), c, {}, sample);
    m := JournalsCandidates(s, u, m, c, {}, sample);
    assert {} + sample == sample;
  }

  lemma Writes(s: Sys, u: Sys, m: Sys, c: Chunk, sample: set<Obj>, w: KgWrite) returns (n: Sys)
    requires Works(s, m) && Attempting(u, m, c, Merging, sample, sample)
    requires Permitted(m.disk.kg, sample, {c}, w)
    ensures Works(s, n) && Attempting(u, n, c, Merging, sample, sample) && n.disk.kg == Written(m.disk.kg, w)
  {
    assert Ids([c]) == {c};
    Onward(s, m, Action.Merge(w, {}));
    n := Step(m, Action.Merge(w, {}));
  }

  lemma Dies(s: Sys, u: Sys, m: Sys, c: Chunk, names: set<Obj>) returns (n: Sys)
    requires Works(s, m) && Journaled(u, m, c, names)
    ensures Works(s, n) && Journaled(u, n, c, names) && n.disk == m.disk && n.run.None? && n.rollback.None?
  {
    Onward(s, m, Crash);
    n := Step(m, Crash);
  }

  // ----- the rollback -----

  ghost predicate Undoing(u: Sys, m: Sys, c: Chunk, names: set<Obj>, pc: RollbackPc) {
    Journaled(u, m, c, names) && m.run.None? && Rolling(m, pc) && m.rollback.value.journal == m.disk.row.value.patch.value
  }

  lemma RollbackOpens(s: Sys, u: Sys, m: Sys, c: Chunk, names: set<Obj>) returns (n: Sys)
    requires Works(s, m) && Journaled(u, m, c, names) && m.run.None? && m.rollback.None?
    ensures Works(s, n) && Undoing(u, n, c, names, Purging) && n.disk == m.disk && n.rollback.value.kgAtStart == m.disk.kg
  {
    Onward(s, m, StartRollback);
    n := Step(m, StartRollback);
  }

  /** A pass that was cut. */
  lemma Tears(s: Sys, u: Sys, m: Sys, c: Chunk, names: set<Obj>, part: Kg) returns (n: Sys)
    requires Works(s, m) && Journaled(u, m, c, names) && m.run.None? && m.rollback.None?
    requires PartlyDerived(m.disk.kg, part, names, {c}, Rollback)
    ensures Works(s, n) && Journaled(u, n, c, names) && n.run.None? && n.rollback.None? && n.disk.kg == part
  {
    assert Ids([c]) == {c};
    n := RollbackOpens(s, u, m, c, names);
    Onward(s, n, TearPurge(part));
    n := Step(n, TearPurge(part));
  }

  lemma Purges(s: Sys, u: Sys, m: Sys, c: Chunk, names: set<Obj>) returns (n: Sys)
    requires Works(s, m) && Journaled(u, m, c, names) && m.run.None? && m.rollback.None? && c !in u.disk.texts
    ensures Works(s, n) && Undoing(u, n, c, names, ChunksGone) && n.disk.texts == u.disk.texts
    ensures n.disk.kg == Derive(m.disk.kg, names, {c}, Rollback)
  {
    assert Ids([c]) == {c};
    n := RollbackOpens(s, u, m, c, names);
    Onward(s, n, Action.PurgeDerived);
    n := DeletesRows(s, u, Step(n, Action.PurgeDerived), c, names);
  }

  lemma DeletesRows(s: Sys, u: Sys, m: Sys, c: Chunk, names: set<Obj>) returns (n: Sys)
    requires Works(s, m) && Undoing(u, m, c, names, DerivedDone) && c !in u.disk.texts
    ensures Works(s, n) && Undoing(u, n, c, names, ChunksGone) && n.disk.texts == u.disk.texts && n.disk.kg == m.disk.kg
  {
    assert Ids([c]) == {c};
    Onward(s, m, ChunkRowsDeleted);
    n := Step(m, ChunkRowsDeleted);
    assert n.disk.texts - {c} == u.disk.texts;
  }

  /** The anchors after a rollback: none it did not have, and no candidate that the document's
      own chunks do not support. */
  ghost predicate Pruned(u: Sys, disk: Disk, names: set<Obj>) {
    && AnchorNames(disk) <= AnchorNames(u.disk)
    && forall o :: o in names && Ids(Row(disk.kg, o)) !! CommittedIds(u.disk) ==> o !in AnchorNames(disk)
  }

  lemma OwnedIsCommitted(u: Sys, m: Sys, c: Chunk, names: set<Obj>)
    requires Journaled(u, m, c, names) && c !in CommittedIds(u.disk)
    ensures Owned(m) == CommittedIds(u.disk) == CommittedIds(m.disk)
  {
    assert Ids([c]) == {c};
  }

  lemma SettlesAnchors(s: Sys, u: Sys, m: Sys, c: Chunk, names: set<Obj>) returns (n: Sys)
    requires Works(s, m) && AtRest(u) && Undoing(u, m, c, names, ChunksGone) && c !in CommittedIds(u.disk)
    ensures Works(s, n) && Rolling(n, AnchorsDone) && n.run.None? && n.doc == u.doc
    ensures n.disk == m.disk.(entityRow := n.disk.entityRow, relationRow := n.disk.relationRow)
    ensures n.rollback.value.journal == m.rollback.value.journal && Pruned(u, n.disk, names)
  {
    OwnedIsCommitted(u, m, c, names);
    Onward(s, m, SettleEntityRow);
    var half := Step(m, SettleEntityRow);
    Onward(s, half, SettleRelationRow);
    n := Step(half, SettleRelationRow);
    assert n.disk.kg == m.disk.kg && Owned(half) == CommittedIds(u.disk);
  }

  /** Everything up to the write that clears the journal. */
  lemma RollsBack(s: Sys, u: Sys, m: Sys, c: Chunk, names: set<Obj>) returns (n: Sys)
    requires Works(s, m) && AtRest(u) && Journaled(u, m, c, names) && m.run.None? && m.rollback.None?
    requires c !in u.disk.texts && c !in CommittedIds(u.disk)
    ensures Works(s, n) && Enabled(n, FinishRollback) && n.run.None? && n.doc == u.doc
    ensures StagedNow(n.disk, c, names, ModeOn(u)) && n.rollback.value.journal == n.disk.row.value.patch.value
    ensures n.disk.texts == u.disk.texts && n.disk.kg == Derive(m.disk.kg, names, {c}, Rollback)
    ensures n.disk.row.value.chunksList == (if u.disk.row.Some? then u.disk.row.value.chunksList else [])
    ensures n.disk.body == u.disk.body && Pruned(u, n.disk, names)
  {
    n := Purges(s, u, m, c, names);
    n := SettlesAnchors(s, u, n, c, names);
    if ModeOn(u) == Create {
      Onward(s, n, DeleteBody);
      n := Step(n, DeleteBody);
    }
  }

  /** The document after a failed operation: all but its graph and its anchors as before. */
  ghost predicate Restored(u: Sys, v: Sys) {
    && AtRest(v) && v.doc == u.doc && v.disk.texts == u.disk.texts && v.disk.body == u.disk.body
    && (v.disk.row.Some? <==> u.disk.row.Some?)
    && (u.disk.row.Some? ==> v.disk.row.value.chunksList == u.disk.row.value.chunksList)
  }

  lemma RestoredOwnsTheSame(u: Sys, v: Sys)
    requires Restored(u, v)
    ensures CommittedIds(v.disk) == CommittedIds(u.disk) && Committed(v.disk) == Committed(u.disk)
  {
  }

  /** No row of an absent object names the chunk, unless it also names a committed one. */
  ghost predicate LeavesNoOrphan(kg: Kg, c: Chunk, committed: set<Chunk>) {
    forall o :: o !in kg.graph && c in Row(kg, o) ==> !(Ids(Row(kg, o)) !! committed)
  }

  lemma RollbackFinishes(s: Sys, u: Sys, m: Sys, c: Chunk, names: set<Obj>) returns (v: Sys)
    requires Leads(s, u) && Works(u, m) && AtRest(u) && Journaled(u, m, c, names) && m.run.None? && m.rollback.None?
    requires c !in u.disk.texts && c !in CommittedIds(u.disk)
    requires LeavesNoOrphan(Derive(m.disk.kg, names, {c}, Rollback), c, CommittedIds(u.disk))
    ensures Leads(s, v) && Restored(u, v) && Pruned(u, v.disk, names)
    ensures v.disk.kg == Derive(m.disk.kg, names, {c}, Rollback)
  {
    var n := RollsBack(u, u, m, c, names);
    assert Ids([c]) == {c} && CommittedIds(n.disk) == CommittedIds(u.disk);
    LeadsAndWorks(s, u, n);
    LeadsOn(s, n, FinishRollback);
    v := Step(n, FinishRollback);
  }

  // ----- what the pass leaves -----

  /** The chunk is off the candidates' lists, and that is all. */
  ghost predicate Trimmed(kg: Kg, after: Kg, names: set<Obj>, c: Chunk) {
    && after.graph.Keys == kg.graph.Keys
    && (forall o :: o in names && o in kg.graph ==>
          && Ids(after.graph[o]) == SourceSet(kg, o) - {c}
          && o in after.tracking && after.tracking[o] == after.graph[o])
    && (forall o :: o !in names || o !in kg.graph ==> Row(after, o) == Row(kg, o))
    && (forall o :: o !in names && o in kg.graph ==> after.graph[o] == kg.graph[o])
  }

  lemma SourcedPlan(kg: Kg, names: set<Obj>, c: Chunk)
    requires forall o :: o in names && o in kg.graph ==> !(SourceSet(kg, o) <= {c})
    ensures Drops(kg, names, {c}, Rollback) == {}
    ensures Rebuilds(kg, names, {c}, Rollback).Keys == names * kg.graph.Keys
    ensures forall o :: o in Rebuilds(kg, names, {c}, Rollback) ==>
      Ids(Rebuilds(kg, names, {c}, Rollback)[o]) == SourceSet(kg, o) - {c}
  {
    forall o | o in names && o in kg.graph
      ensures Classify(kg, o, {c}, Rollback) == Rebuild(Subtract(Sources(kg, o), {c}))
    {
      EmptyIds(Subtract(Sources(kg, o), {c}));
      EmptyIds(Sources(kg, o));
    }
  }

  /** When every candidate in the graph has another source, the pass only trims. */
  lemma PassKeepsSourced(kg: Kg, names: set<Obj>, c: Chunk)
    requires forall o :: o in names && o in kg.graph ==> !(SourceSet(kg, o) <= {c})
    ensures Trimmed(kg, Derive(kg, names, {c}, Rollback), names, c)
  {
    var rebuilds := Rebuilds(kg, names, {c}, Rollback);
    SourcedPlan(kg, names, c);
    NothingDropped(kg, rebuilds);
    TrimmedBy(kg, Derive(kg, names, {c}, Rollback), rebuilds, names, c);
  }

  lemma TrimmedBy(kg: Kg, after: Kg, rebuilds: map<Obj, seq<Chunk>>, names: set<Obj>, c: Chunk)
    requires rebuilds.Keys == names * kg.graph.Keys
    requires forall o :: o in rebuilds ==> Ids(rebuilds[o]) == SourceSet(kg, o) - {c}
    requires after.graph.Keys == kg.graph.Keys && after.tracking == kg.tracking + rebuilds
    requires forall o :: o in kg.graph ==> after.graph[o] == if o in rebuilds then rebuilds[o] else kg.graph[o]
    ensures Trimmed(kg, after, names, c)
  {
    forall o | o !in names || o !in kg.graph
      ensures Row(after, o) == Row(kg, o)
    {
      assert o !in rebuilds;
    }
    forall o | o in names && o in kg.graph
      ensures o in rebuilds && after.graph[o] == rebuilds[o] && after.tracking[o] == rebuilds[o]
    {
      assert o in names * kg.graph.Keys;
    }
  }

  lemma NothingDropped(kg: Kg, rebuilds: map<Obj, seq<Chunk>>)
    requires rebuilds.Keys <= kg.graph.Keys
    ensures var after := Apply(kg, {}, rebuilds);
      && after.graph.Keys == kg.graph.Keys && after.tracking == kg.tracking + rebuilds
      && forall o :: o in kg.graph ==> after.graph[o] == if o in rebuilds then rebuilds[o] else kg.graph[o]
  {
    assert Fallen(ReduceTracking(kg, rebuilds), {}) == {};
  }

  /** What a trimmed object's sources are afterwards. */
  lemma TrimmedSources(kg: Kg, after: Kg, names: set<Obj>, c: Chunk, o: Obj)
    requires Trimmed(kg, after, names, c)
    ensures SourceSet(after, o) == if o in names && o in kg.graph then SourceSet(kg, o) - {c} else SourceSet(kg, o)
    ensures o in names && o in kg.graph ==> Ids(Row(after, o)) == SourceSet(kg, o) - {c} == Ids(after.graph[o])
  {
  }
}
