/** The exact inverse, down to the lists: where an object's lists agree and name nothing twice, a
    rollback gives them back in their old order. */
module CustomChunkLists {
  import opened KgModel
  import opened DerivedPass
  import opened CustomChunks
  import opened MergeWrites
  import opened CustomChunkCoverage
  import opened CustomChunkSoundness
  import opened CustomChunkTruncation
  import opened CustomChunkRollback

  ghost predicate Unique(ids: seq<Chunk>) {
    forall i, j :: 0 <= i < j < |ids| ==> ids[i] != ids[j]
  }

  /** The object's lists are the same list, and name nothing twice. */
  ghost predicate Agreed(kg: Kg, o: Obj) {
    o in kg.graph && Unique(kg.graph[o]) && Sources(kg, o) == kg.graph[o]
  }

  /** The old list with staged ids added somewhere. */
  ghost predicate Extends(was: seq<Chunk>, list: seq<Chunk>, staged: set<Chunk>) {
    Unique(list) && Subtract(list, staged) == was
  }

  ghost predicate KeepsList(before: Kg, kg: Kg, staged: set<Chunk>, o: Obj) {
    && o in before.graph && o in kg.graph
    && Extends(before.graph[o], kg.graph[o], staged) && Extends(before.graph[o], Sources(kg, o), staged)
  }

  ghost predicate KeepsLists(before: Kg, kg: Kg, staged: set<Chunk>) {
    forall o :: Agreed(before, o) ==> KeepsList(before, kg, staged, o)
  }

  ghost predicate SameLists(before: Kg, kg: Kg) {
    forall o :: Agreed(before, o) ==> o in kg.graph && kg.graph[o] == before.graph[o] == Sources(kg, o)
  }

  // ----- what a merge does to a list -----

  lemma DedupAppends(ids: seq<Chunk>, more: seq<Chunk>)
    requires Unique(ids)
    ensures ids <= Dedup(ids + more) && Unique(Dedup(ids + more))
    ensures Ids(Dedup(ids + more)[|ids|..]) <= Ids(more) - Ids(ids)
  {
    DedupOfDistinct(ids);
    DedupKeepsFront(ids, more);
    IdsOfConcat(ids, more);
    NewAtTheEnd(ids, Dedup(ids + more));
  }

  lemma NewAtTheEnd(ids: seq<Chunk>, all: seq<Chunk>)
    requires ids <= all && Unique(all)
    ensures Ids(all[|ids|..]) == Ids(all) - Ids(ids)
  {
    forall c | c in Ids(all[|ids|..])
      ensures c in Ids(all) && c !in Ids(ids)
    {
      var j :| 0 <= j < |all| - |ids| && all[|ids|..][j] == c;
      assert all[|ids| + j] == c;
    }
    forall c | c in Ids(all) - Ids(ids)
      ensures c in Ids(all[|ids|..])
    {
      var i :| 0 <= i < |all| && all[i] == c;
      assert i >= |ids| && all[|ids|..][i - |ids|] == c;
    }
  }

  /** Ids that are staged or known already only extend a list. */
  lemma MergedExtends(was: seq<Chunk>, list: seq<Chunk>, incoming: seq<Chunk>, staged: set<Chunk>)
    requires Extends(was, list, staged) && Ids(incoming) - staged <= Ids(was)
    ensures Extends(was, MergeIds(list, incoming), staged)
  {
    DedupAppends(list, incoming);
    var all := MergeIds(list, incoming);
    var rest := all[|list|..];
    assert Ids(was) == Ids(list) - staged;
    assert Ids(rest) <= Ids(incoming) - Ids(list);
    forall c | c in Ids(rest)
      ensures c in staged
    {
      assert c in Ids(incoming) && c !in Ids(was);
    }
    assert all == list + rest;
    SubtractKeepsOrder(list, rest, staged);
    EmptyIds(Subtract(rest, staged));
    assert was + [] == was;
  }

  lemma MergeKeepsList(before: Kg, kg: Kg, sample: set<Obj>, names: set<Obj>, staged: set<Chunk>, w: KgWrite, o: Obj)
    requires Sound(before) && OnlyAdds(before, kg, names, staged) && Permitted(kg, sample, staged, w)
    requires Agreed(before, o) && KeepsList(before, kg, staged, o)
    ensures KeepsList(before, Written(kg, w), staged, o)
  {
    if o == Target(w) {
      IncomingIsNotNew(before, kg, sample, names, staged, w);
      assert SourceSet(before, o) == Ids(before.graph[o]);
      MergedExtends(before.graph[o], Sources(kg, o), Incoming(kg, w), staged);
      EmptyIds(before.graph[o]);
      EmptyIds(Result(kg, w));
      assert Ids(Result(kg, w)) - staged == Ids(before.graph[o]);
    } else {
      OthersUntouched(kg, w, o);
    }
  }

  // ----- what a pass does to a list -----

  /** A rebuilt list is the old one. */
  lemma RebuiltList(before: Kg, kg: Kg, names: set<Obj>, staged: set<Chunk>, o: Obj)
    requires Sound(before) && OnlyAdds(before, kg, names, staged)
    requires Agreed(before, o) && KeepsList(before, kg, staged, o)
    ensures o in Rebuilds(kg, names, staged, Rollback) <==> o in names
    ensures o in names ==> Rebuilds(kg, names, staged, Rollback)[o] == before.graph[o]
  {
    RollbackPlan(before, kg, names, staged);
    if o in names {
      RollbackVerdict(before, kg, names, staged, o);
    }
  }

  lemma OldListExtends(before: Kg, staged: set<Chunk>, o: Obj)
    requires Agreed(before, o) && FreshFor(before, staged)
    ensures Extends(before.graph[o], before.graph[o], staged)
  {
    assert Ids(before.graph[o]) <= Mentions(before, o);
  }

  lemma TornPassKeepsList(before: Kg, kg: Kg, part: Kg, names: set<Obj>, staged: set<Chunk>, o: Obj)
    requires Sound(before) && OnlyAdds(before, kg, names, staged) && FreshFor(before, staged)
    requires PartlyDerived(kg, part, names, staged, Rollback)
    requires Agreed(before, o) && KeepsList(before, kg, staged, o)
    ensures KeepsList(before, part, staged, o)
  {
    RollbackPlan(before, kg, names, staged);
    RebuiltList(before, kg, names, staged, o);
    OldListExtends(before, staged, o);
    EmptyIds(before.graph[o]);
  }

  lemma WholePassRestoresList(before: Kg, kg: Kg, names: set<Obj>, staged: set<Chunk>, o: Obj)
    requires Sound(before) && OnlyAdds(before, kg, names, staged)
    requires Agreed(before, o) && KeepsList(before, kg, staged, o)
    ensures var after := Derive(kg, names, staged, Rollback);
      o in after.graph && after.graph[o] == before.graph[o] == Sources(after, o)
  {
    var after := Derive(kg, names, staged, Rollback);
    RollbackPlan(before, kg, names, staged);
    RebuiltList(before, kg, names, staged, o);
    assert o in after.graph;
    if o in names {
      assert after.graph[o] == after.tracking[o] == before.graph[o];
    } else {
      ObjectByObject(before, kg, names, staged, o);
      assert after.graph[o] == kg.graph[o];
      assert Sources(after, o) == Sources(kg, o);
    }
  }

  // ----- the whole operation -----

  ghost predicate ListsReversible(s0: Sys, s: Sys) {
    && KeepsLists(s0.disk.kg, s.disk.kg, StagedIds(s.disk))
    && (s.rollback.Some? && s.rollback.value.pc != Purging ==> SameLists(s0.disk.kg, s.disk.kg))
  }

  lemma MergeStaysListReversible(s0: Sys, s: Sys, a: Action)
    requires Sturdy(s) && Sound(s0.disk.kg) && Reversible(s0, s) && ListsReversible(s0, s)
    requires a.Merge? && Enabled(s, a)
    ensures ListsReversible(s0, Step(s, a))
  {
    forall o | Agreed(s0.disk.kg, o)
      ensures KeepsList(s0.disk.kg, Step(s, a).disk.kg, StagedIds(s.disk), o)
    {
      MergeKeepsList(s0.disk.kg, s.disk.kg, s.run.value.sample, JournalNames(s.disk), StagedIds(s.disk), a.write, o);
    }
  }

  lemma PassStaysListReversible(s0: Sys, s: Sys, a: Action)
    requires Sturdy(s) && Sound(s0.disk.kg) && Reversible(s0, s) && ListsReversible(s0, s)
    requires (a.TearPurge? || a.PurgeDerived?) && Enabled(s, a)
    ensures ListsReversible(s0, Step(s, a))
  {
    var before, t, names := s0.disk.kg, Step(s, a), JournalNames(s.disk);
    WholePassIsALanding(s.disk.kg, names, StagedIds(s.disk), Rollback);
    forall o | Agreed(before, o)
      ensures KeepsList(before, t.disk.kg, StagedIds(s.disk), o)
      ensures a.PurgeDerived? ==> t.disk.kg.graph[o] == before.graph[o] == Sources(t.disk.kg, o)
    {
      TornPassKeepsList(before, s.disk.kg, t.disk.kg, names, StagedIds(s.disk), o);
      WholePassRestoresList(before, s.disk.kg, names, StagedIds(s.disk), o);
    }
  }

  lemma StepStaysListReversible(s0: Sys, s: Sys, a: Action)
    requires Sturdy(s) && Sound(s0.disk.kg) && Reversible(s0, s) && ListsReversible(s0, s)
    requires Enabled(s, a) && Unfinished(Step(s, a))
    ensures ListsReversible(s0, Step(s, a))
  {
    if a.Merge? {
      MergeStaysListReversible(s0, s, a);
    } else if a.TearPurge? || a.PurgeDerived? {
      PassStaysListReversible(s0, s, a);
    } else {
      JournalKeepsItsScope(s, a);
    }
  }

  lemma {:induction false} TraceStaysListReversible(s0: Sys, s: Sys, trace: seq<Action>)
    requires Sturdy(s) && Sound(s0.disk.kg) && Reversible(s0, s) && ListsReversible(s0, s)
    requires Legal(s, trace) && UnfinishedThroughout(s, trace)
    ensures ListsReversible(s0, Replay(s, trace))
    decreases trace
  {
    if trace != [] {
      StepKeepsSturdy(s, trace[0]);
      RowsStayReversible(s0, s, trace[0]);
      GraphStaysReversible(s0, s, trace[0]);
      StepStaysListReversible(s0, s, trace[0]);
      TraceStaysListReversible(s0, Step(s, trace[0]), trace[1..]);
    }
  }

  /** Whatever was merged, cut, resumed and torn in between: when the rollback has finished, an
      object whose lists agreed has both of them back, in the order they had. */
  lemma RollbackRestoresLists(s0: Sys, inputs: seq<string>, trace: seq<Action>, t: Sys)
    requires Sturdy(s0) && Sound(s0.disk.kg) && StartsOperation(s0, inputs)
    requires FreshFor(s0.disk.kg, Ids(Decide(s0.doc, s0.disk, inputs).entries))
    requires Legal(Step(s0, Begin(inputs)), trace) && UnfinishedThroughout(Step(s0, Begin(inputs)), trace)
    requires t == Replay(Step(s0, Begin(inputs)), trace) && Enabled(t, FinishRollback)
    ensures SameLists(s0.disk.kg, Step(t, FinishRollback).disk.kg)
  {
    var s := Step(s0, Begin(inputs));
    StartIsReversible(s0, inputs);
    StepKeepsSturdy(s0, Begin(inputs));
    forall o | Agreed(s0.disk.kg, o)
      ensures KeepsList(s0.disk.kg, s.disk.kg, StagedIds(s.disk), o)
    {
      OldListExtends(s0.disk.kg, StagedIds(s.disk), o);
    }
    TraceStaysListReversible(s0, s, trace);
  }
}
