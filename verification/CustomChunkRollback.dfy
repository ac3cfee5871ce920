/** Rolling an operation back is its exact inverse: however many attempts ran, whatever each
    extracted and however much of each merge landed, the graph's objects, their source sets,
    the chunk rows and the status row return to what they were. */
module CustomChunkRollback {
  import opened KgModel
  import opened DerivedPass
  import opened CustomChunks
  import opened MergeWrites
  import opened CustomChunkCoverage
  import opened CustomChunkSoundness
  import opened CustomChunkTruncation

  /** Every graph object has a source, its lists agree, and edges have their endpoints. */
  ghost predicate WellFormed(kg: Kg) {
    Uncapped(kg) && EndpointsPresent(kg) && forall o :: o in kg.graph ==> kg.graph[o] != []
  }

  /** What a merge could bring to light and a rollback would not take back: an edge's source
      its endpoints do not have, or the tracking row of an absent object. */
  ghost predicate HidesNothing(kg: Kg) {
    && (forall o: Obj :: o in kg.graph && o.Relation? && Mergeable(o) ==>
          && SourceSet(kg, o) <= SourceSet(kg, Entity(o.lo))
          && SourceSet(kg, o) <= SourceSet(kg, Entity(o.hi)))
    && (forall o :: o !in kg.graph && Mergeable(o) ==> Row(kg, o) == [])
  }

  /** What the operation may assume of the graph it starts on. */
  ghost predicate Sound(kg: Kg) {
    WellFormed(kg) && HidesNothing(kg)
  }

  /** `kg` is `before` plus staged contributions to named objects. */
  ghost predicate OnlyAdds(before: Kg, kg: Kg, names: set<Obj>, staged: set<Chunk>) {
    && before.graph.Keys <= kg.graph.Keys
    && (forall o :: o in before.graph ==>
          && Ids(kg.graph[o]) - staged == Ids(before.graph[o])
          && SourceSet(kg, o) - staged == SourceSet(before, o))
    && (forall o :: o !in before.graph && Mergeable(o) ==> Mentions(kg, o) <= staged)
    && (forall o :: o in kg.graph && o !in before.graph ==> o in names && Mergeable(o))
    && (forall o :: o in kg.graph && o !in names ==> kg.graph[o] == before.graph[o])
    && (forall o :: o in kg.graph && o !in names ==> Sources(kg, o) == Sources(before, o))
  }

  /** Same objects, same sources by either list. */
  ghost predicate SameGraph(before: Kg, kg: Kg) {
    && kg.graph.Keys == before.graph.Keys
    && forall o :: o in kg.graph ==>
        Ids(kg.graph[o]) == Ids(before.graph[o]) && SourceSet(kg, o) == SourceSet(before, o)
  }

  ghost predicate FreshFor(kg: Kg, staged: set<Chunk>) {
    forall o :: Mentions(kg, o) !! staged
  }

  lemma NothingAddedYet(kg: Kg, names: set<Obj>, staged: set<Chunk>)
    requires Sound(kg) && FreshFor(kg, staged)
    ensures OnlyAdds(kg, kg, names, staged)
  {
    forall o | o in kg.graph
      ensures Ids(kg.graph[o]) - staged == Ids(kg.graph[o]) && SourceSet(kg, o) - staged == SourceSet(kg, o)
    {
      assert SourceSet(kg, o) <= Mentions(kg, o) && Ids(kg.graph[o]) <= Mentions(kg, o);
    }
  }

  lemma MoreNamesStillOnlyAdd(before: Kg, kg: Kg, names: set<Obj>, more: set<Obj>, staged: set<Chunk>)
    requires OnlyAdds(before, kg, names, staged) && names <= more
    ensures OnlyAdds(before, kg, more, staged)
  {
  }

  /** The clauses of `OnlyAdds` that speak of one object. */
  ghost predicate OnlyAddsTo(before: Kg, kg: Kg, names: set<Obj>, staged: set<Chunk>, o: Obj) {
    && (o in before.graph ==>
          && o in kg.graph
          && Ids(kg.graph[o]) - staged == Ids(before.graph[o])
          && SourceSet(kg, o) - staged == SourceSet(before, o))
    && (o !in before.graph && Mergeable(o) ==> Mentions(kg, o) <= staged)
    && (o in kg.graph && o !in before.graph ==> o in names && Mergeable(o))
    && (o in kg.graph && o !in names ==>
          kg.graph[o] == before.graph[o] && Sources(kg, o) == Sources(before, o))
  }

  lemma ObjectByObject(before: Kg, kg: Kg, names: set<Obj>, staged: set<Chunk>, o: Obj)
    requires OnlyAdds(before, kg, names, staged)
    ensures OnlyAddsTo(before, kg, names, staged, o)
  {
  }

  lemma AllObjects(before: Kg, kg: Kg, names: set<Obj>, staged: set<Chunk>)
    requires forall o :: OnlyAddsTo(before, kg, names, staged, o)
    ensures OnlyAdds(before, kg, names, staged)
  {
    forall o
      ensures o in before.graph ==>
        && o in kg.graph && Ids(kg.graph[o]) - staged == Ids(before.graph[o])
        && SourceSet(kg, o) - staged == SourceSet(before, o)
      ensures o !in before.graph && Mergeable(o) ==> Mentions(kg, o) <= staged
      ensures o in kg.graph && o !in before.graph ==> o in names && Mergeable(o)
      ensures o in kg.graph && o !in names ==> kg.graph[o] == before.graph[o] && Sources(kg, o) == Sources(before, o)
    {
      assert OnlyAddsTo(before, kg, names, staged, o);
    }
  }

  /** An edge's list reaches its endpoints whole, but what it held before the operation they
      already have. */
  lemma IncomingIsNotNew(before: Kg, kg: Kg, sample: set<Obj>, names: set<Obj>, staged: set<Chunk>, w: KgWrite)
    requires Sound(before) && OnlyAdds(before, kg, names, staged) && Permitted(kg, sample, staged, w)
    ensures Target(w) in before.graph ==> Ids(Incoming(kg, w)) - staged <= SourceSet(before, Target(w))
    ensures Target(w) !in before.graph ==> Ids(Incoming(kg, w)) <= staged
  {
    var edge := Subject(w);
    if !w.Track? && !w.Upsert? {
      if edge in before.graph {
        assert Entity(edge.lo) in before.graph && Entity(edge.hi) in before.graph;
        assert Ids(Row(kg, edge)) <= SourceSet(kg, edge);
        assert SourceSet(kg, edge) - staged == SourceSet(before, edge) <= SourceSet(before, Target(w));
      } else {
        assert Ids(Row(kg, edge)) <= Mentions(kg, edge);
      }
    }
  }

  /** Whichever list was written, the target's sources are the old ones plus staged ids. */
  lemma MergedSources(before: Kg, kg: Kg, names: set<Obj>, staged: set<Chunk>, w: KgWrite)
    requires Sound(before) && OnlyAdds(before, kg, names, staged)
    requires Target(w) in before.graph && !w.CreateEnd?
    requires Ids(Incoming(kg, w)) - staged <= SourceSet(before, Target(w))
    ensures var o, after := Target(w), Written(kg, w);
      && o in after.graph && Ids(after.graph[o]) - staged == Ids(before.graph[o])
      && SourceSet(after, o) - staged == SourceSet(before, o)
  {
    var o, after := Target(w), Written(kg, w);
    EmptyIds(before.graph[o]);
    assert SourceSet(before, o) == Ids(before.graph[o]);
    assert Ids(Result(kg, w)) - staged == SourceSet(before, o);
    EmptyIds(Result(kg, w));
    if o in after.tracking && after.tracking[o] != [] {
      assert SourceSet(after, o) == Ids(after.tracking[o]);
    } else {
      assert SourceSet(after, o) == Ids(after.graph[o]);
    }
  }

  lemma NamedTarget(kg: Kg, sample: set<Obj>, staged: set<Chunk>, w: KgWrite)
    requires Permitted(kg, sample, staged, w) && NamesEndpoints(sample)
    ensures Target(w) in sample && Mergeable(Target(w))
  {
  }

  /** Every write of a merge keeps the old graph recoverable, inherited lists included. */
  lemma MergeOnlyAdds(before: Kg, kg: Kg, sample: set<Obj>, names: set<Obj>, staged: set<Chunk>, w: KgWrite)
    requires Sound(before) && OnlyAdds(before, kg, names, staged)
    requires sample <= names && NamesEndpoints(sample) && Permitted(kg, sample, staged, w)
    ensures OnlyAdds(before, Written(kg, w), names, staged)
  {
    NamedTarget(kg, sample, staged, w);
    IncomingIsNotNew(before, kg, sample, names, staged, w);
    TargetMentions(kg, w);
    forall p
      ensures OnlyAddsTo(before, Written(kg, w), names, staged, p)
    {
      ObjectByObject(before, kg, names, staged, p);
      if p != Target(w) {
        OthersUntouched(kg, w, p);
      } else if p in before.graph {
        MergedSources(before, kg, names, staged, w);
      }
    }
    AllObjects(before, Written(kg, w), names, staged);
  }

  /** Classification under rollback: what was there is rebuilt, what was not is dropped. */
  lemma RollbackVerdict(before: Kg, kg: Kg, names: set<Obj>, staged: set<Chunk>, o: Obj)
    requires Sound(before) && OnlyAdds(before, kg, names, staged)
    requires o in names && o in kg.graph
    ensures o in before.graph ==>
      var remaining := Subtract(Sources(kg, o), staged);
      Classify(kg, o, staged, Rollback) == Rebuild(remaining) && Ids(remaining) == Ids(before.graph[o])
    ensures o !in before.graph ==> Classify(kg, o, staged, Rollback).Drop?
  {
    var remaining := Subtract(Sources(kg, o), staged);
    assert Ids(remaining) == SourceSet(kg, o) - staged;
    EmptyIds(remaining);
    EmptyIds(Sources(kg, o));
    if o in before.graph {
      EmptyIds(before.graph[o]);
      assert SourceSet(before, o) == Ids(before.graph[o]);
      assert Ids(before.graph[o]) != {};
    }
  }

  lemma RollbackPlan(before: Kg, kg: Kg, names: set<Obj>, staged: set<Chunk>)
    requires Sound(before) && OnlyAdds(before, kg, names, staged)
    ensures Fallen(kg, Drops(kg, names, staged, Rollback)) == kg.graph.Keys - before.graph.Keys
    ensures Drops(kg, names, staged, Rollback) !! before.graph.Keys
    ensures Rebuilds(kg, names, staged, Rollback).Keys == names * before.graph.Keys
    ensures forall o :: o in Rebuilds(kg, names, staged, Rollback) ==>
      Ids(Rebuilds(kg, names, staged, Rollback)[o]) == Ids(before.graph[o])
  {
    var verdicts := Verdicts(kg, names, staged, Rollback);
    forall o | o in verdicts
      ensures if o in before.graph then verdicts[o].Rebuild? && Ids(verdicts[o].remaining) == Ids(before.graph[o])
              else verdicts[o].Drop?
    {
      RollbackVerdict(before, kg, names, staged, o);
    }
    PlanShape(before, kg, names, verdicts);
  }

  lemma PlanShape(before: Kg, kg: Kg, names: set<Obj>, verdicts: map<Obj, Verdict>)
    requires EndpointsPresent(before) && before.graph.Keys <= kg.graph.Keys
    requires kg.graph.Keys - before.graph.Keys <= names
    requires verdicts.Keys == names * kg.graph.Keys
    requires forall o :: o in verdicts ==>
      if o in before.graph then verdicts[o].Rebuild? && Ids(verdicts[o].remaining) == Ids(before.graph[o])
      else verdicts[o].Drop?
    ensures DropsOf(verdicts) == kg.graph.Keys - before.graph.Keys
    ensures Fallen(kg, DropsOf(verdicts)) == kg.graph.Keys - before.graph.Keys
    ensures RebuildsOf(verdicts).Keys == names * before.graph.Keys
    ensures forall o :: o in RebuildsOf(verdicts) ==> Ids(RebuildsOf(verdicts)[o]) == Ids(before.graph[o])
  {
  }

  /** A finished derived pass under the rollback policy gives the old graph back. */
  lemma RollbackPassRestores(before: Kg, kg: Kg, names: set<Obj>, staged: set<Chunk>)
    requires Sound(before) && OnlyAdds(before, kg, names, staged)
    ensures SameGraph(before, Derive(kg, names, staged, Rollback))
  {
    var after := Derive(kg, names, staged, Rollback);
    var rebuilds := Rebuilds(kg, names, staged, Rollback);
    RollbackPlan(before, kg, names, staged);
    assert after.graph.Keys == before.graph.Keys;
    forall o | o in after.graph
      ensures Ids(after.graph[o]) == Ids(before.graph[o]) && SourceSet(after, o) == SourceSet(before, o)
    {
      assert SourceSet(before, o) == Ids(before.graph[o]);
      if o in rebuilds {
        assert after.graph[o] == rebuilds[o] && after.tracking[o] == rebuilds[o];
      } else {
        assert after.graph[o] == kg.graph[o];
        assert Sources(after, o) == Sources(kg, o);
      }
    }
  }

  lemma TornSurvivor(before: Kg, kg: Kg, part: Kg, names: set<Obj>, staged: set<Chunk>, o: Obj)
    requires Sound(before) && OnlyAdds(before, kg, names, staged) && FreshFor(before, staged)
    requires PartlyDerived(kg, part, names, staged, Rollback)
    requires o in before.graph
    ensures o in part.graph
    ensures Ids(part.graph[o]) - staged == Ids(before.graph[o])
    ensures SourceSet(part, o) - staged == SourceSet(before, o)
    ensures o !in names ==> part.graph[o] == before.graph[o] && Sources(part, o) == Sources(before, o)
  {
    RollbackPlan(before, kg, names, staged);
    var rebuilds := Rebuilds(kg, names, staged, Rollback);
    assert SourceSet(before, o) == Ids(before.graph[o]) <= Mentions(before, o);
    assert o in rebuilds ==> Ids(rebuilds[o]) - staged == Ids(before.graph[o]);
    assert o in part.tracking ==> o in kg.tracking || o in rebuilds;
    assert o in kg.tracking ==> o in part.tracking;
    EmptyIds(before.graph[o]);
    if o in part.tracking && part.tracking[o] != [] {
      assert SourceSet(part, o) == Ids(part.tracking[o]);
    } else {
      assert SourceSet(part, o) == Ids(part.graph[o]);
    }
  }

  /** A pass cut anywhere still leaves the old graph plus staged contributions. */
  lemma TornPassOnlyAdds(before: Kg, kg: Kg, part: Kg, names: set<Obj>, staged: set<Chunk>)
    requires Sound(before) && OnlyAdds(before, kg, names, staged) && FreshFor(before, staged)
    requires PartlyDerived(kg, part, names, staged, Rollback)
    ensures OnlyAdds(before, part, names, staged)
  {
    RollbackPlan(before, kg, names, staged);
    var rebuilds := Rebuilds(kg, names, staged, Rollback);
    forall o | o in before.graph
      ensures o in part.graph
      ensures Ids(part.graph[o]) - staged == Ids(before.graph[o])
      ensures SourceSet(part, o) - staged == SourceSet(before, o)
    {
      TornSurvivor(before, kg, part, names, staged, o);
    }
    forall o | o !in before.graph && Mergeable(o)
      ensures Mentions(part, o) <= staged
    {
      assert o !in rebuilds && Mentions(part, o) <= Mentions(kg, o);
    }
  }

  // ----- the whole operation -----

  ghost function Staged(s: Sys): set<Chunk> {
    StagedIds(s.disk)
  }

  /** The rows the operation must put back. */
  ghost predicate RowsReversible(s0: Sys, s: Sys) {
    && Unfinished(s)
    && (if s.disk.row.value.patch.value.mode == Create then s0.disk.row.None? && !s0.disk.body
        else
          && s0.disk.row.Some? && s0.disk.row.value.status == Processed && s0.disk.row.value.patch.None?
          && s.disk.row.value.chunksList == s0.disk.row.value.chunksList
          && s.disk.body == s0.disk.body)
    && s.disk.texts - Staged(s) == s0.disk.texts - Staged(s)
    && (s.rollback.Some? && s.rollback.value.pc != Purging && s.rollback.value.pc != DerivedDone ==>
          s.disk.texts == s0.disk.texts - Staged(s))
    && (Rolling(s, BodyGone) ==> !s.disk.body && s.rollback.value.journal.mode == Create)
  }

  ghost predicate GraphReversible(s0: Sys, s: Sys) {
    && FreshFor(s0.disk.kg, Staged(s))
    && OnlyAdds(s0.disk.kg, s.disk.kg, JournalNames(s.disk), Staged(s))
    && (s.rollback.Some? && s.rollback.value.pc != Purging ==> SameGraph(s0.disk.kg, s.disk.kg))
  }

  ghost predicate Reversible(s0: Sys, s: Sys) {
    RowsReversible(s0, s) && GraphReversible(s0, s)
  }

  lemma StartIsReversible(s0: Sys, inputs: seq<string>)
    requires Sturdy(s0) && Sound(s0.disk.kg) && StartsOperation(s0, inputs)
    requires FreshFor(s0.disk.kg, Ids(Decide(s0.doc, s0.disk, inputs).entries))
    ensures Reversible(s0, Step(s0, Begin(inputs)))
  {
    var decision := Decide(s0.doc, s0.disk, inputs);
    NothingAddedYet(s0.disk.kg, {}, Ids(decision.entries));
  }

  /** Neither the staged ids nor a name is lost while the operation is unfinished. */
  lemma JournalKeepsItsScope(s: Sys, a: Action)
    requires Sturdy(s) && Unfinished(s) && Enabled(s, a) && Unfinished(Step(s, a))
    ensures Staged(Step(s, a)) == Staged(s)
    ensures Step(s, a).disk.row.value.patch.value.mode == s.disk.row.value.patch.value.mode
    ensures Step(s, a).disk.row.value.chunksList == s.disk.row.value.chunksList
    ensures JournalNames(s.disk) <= JournalNames(Step(s, a).disk)
  {
  }

  lemma RowsStayReversible(s0: Sys, s: Sys, a: Action)
    requires Sturdy(s) && RowsReversible(s0, s) && Enabled(s, a) && Unfinished(Step(s, a))
    ensures RowsReversible(s0, Step(s, a))
  {
    JournalKeepsItsScope(s, a);
    if a.StageChunks? || a.DeleteChunkRows? || a.ChunkRowsDeleted? {
      TextsStayReversible(s0, s, a);
    }
  }

  lemma TextsStayReversible(s0: Sys, s: Sys, a: Action)
    requires Sturdy(s) && RowsReversible(s0, s) && Enabled(s, a)
    requires a.StageChunks? || a.DeleteChunkRows? || a.ChunkRowsDeleted?
    ensures Step(s, a).disk.texts - Staged(s) == s0.disk.texts - Staged(s)
    ensures a.ChunkRowsDeleted? ==> Step(s, a).disk.texts == s0.disk.texts - Staged(s)
  {
    var texts := Step(s, a).disk.texts;
    forall c | c !in Staged(s)
      ensures c in texts <==> c in s.disk.texts
      ensures c in texts ==> texts[c] == s.disk.texts[c]
    {
    }
    assert texts - Staged(s) == s.disk.texts - Staged(s);
  }

  lemma MergeStaysReversible(s0: Sys, s: Sys, a: Action)
    requires Sturdy(s) && Sound(s0.disk.kg) && Unfinished(s) && GraphReversible(s0, s)
    requires a.Merge? && Enabled(s, a)
    ensures GraphReversible(s0, Step(s, a))
  {
    MergeOnlyAdds(s0.disk.kg, s.disk.kg, s.run.value.sample, JournalNames(s.disk), Staged(s), a.write);
  }

  lemma PassStaysReversible(s0: Sys, s: Sys, a: Action)
    requires Sturdy(s) && Sound(s0.disk.kg) && Unfinished(s) && GraphReversible(s0, s)
    requires (a.TearPurge? || a.PurgeDerived?) && Enabled(s, a)
    ensures GraphReversible(s0, Step(s, a))
  {
    var t, before := Step(s, a), s0.disk.kg;
    WholePassIsALanding(s.disk.kg, JournalNames(s.disk), Staged(s), Rollback);
    TornPassOnlyAdds(before, s.disk.kg, t.disk.kg, JournalNames(s.disk), Staged(s));
    if a.PurgeDerived? {
      RollbackPassRestores(before, s.disk.kg, JournalNames(s.disk), Staged(s));
    }
  }

  lemma GraphStaysReversible(s0: Sys, s: Sys, a: Action)
    requires Sturdy(s) && Sound(s0.disk.kg) && Unfinished(s) && GraphReversible(s0, s)
    requires Enabled(s, a) && Unfinished(Step(s, a))
    ensures GraphReversible(s0, Step(s, a))
  {
    if a.Merge? {
      MergeStaysReversible(s0, s, a);
    } else if a.TearPurge? || a.PurgeDerived? {
      PassStaysReversible(s0, s, a);
    } else {
      JournalKeepsItsScope(s, a);
      MoreNamesStillOnlyAdd(s0.disk.kg, s.disk.kg, JournalNames(s.disk), JournalNames(Step(s, a).disk), Staged(s));
    }
  }

  lemma {:induction false} TraceStaysReversible(s0: Sys, s: Sys, trace: seq<Action>)
    requires Sturdy(s) && Sound(s0.disk.kg) && Reversible(s0, s)
    requires Legal(s, trace) && UnfinishedThroughout(s, trace)
    ensures Sturdy(Replay(s, trace)) && Reversible(s0, Replay(s, trace))
    decreases trace
  {
    if trace != [] {
      StepKeepsSturdy(s, trace[0]);
      RowsStayReversible(s0, s, trace[0]);
      GraphStaysReversible(s0, s, trace[0]);
      TraceStaysReversible(s0, Step(s, trace[0]), trace[1..]);
    }
  }

  /** What a finished rollback leaves: the status row and body as before, the chunk rows as
      before except that no staged row remains, and the same graph. */
  ghost predicate Undone(s0: Sys, end: Disk, staged: set<Chunk>) {
    && end.row == s0.disk.row && end.body == s0.disk.body
    && end.texts == s0.disk.texts - staged
    && SameGraph(s0.disk.kg, end.kg)
  }

  lemma FinishingUndoes(s0: Sys, t: Sys)
    requires Sturdy(t) && Reversible(s0, t) && Enabled(t, FinishRollback)
    requires t.rollback.value.journal.mode == Patch ==> PayloadBefore(Step(t, FinishRollback).disk) == PayloadBefore(s0.disk)
    ensures Undone(s0, Step(t, FinishRollback).disk, Staged(t))
  {
  }

  /** Any number of attempts, failures, crashes, resumes and cut rollbacks, then a rollback
      that finishes: the operation is undone. */
  lemma RollbackIsExactInverse(s0: Sys, inputs: seq<string>, trace: seq<Action>, t: Sys)
    requires Sturdy(s0) && TruncationInv(s0) && Sound(s0.disk.kg) && StartsOperation(s0, inputs)
    requires FreshFor(s0.disk.kg, Ids(Decide(s0.doc, s0.disk, inputs).entries))
    requires Legal(Step(s0, Begin(inputs)), trace) && UnfinishedThroughout(Step(s0, Begin(inputs)), trace)
    requires t == Replay(Step(s0, Begin(inputs)), trace) && Enabled(t, FinishRollback)
    ensures Undone(s0, Step(t, FinishRollback).disk, Ids(Decide(s0.doc, s0.disk, inputs).entries))
  {
    var s := Step(s0, Begin(inputs));
    StartIsReversible(s0, inputs);
    StepKeepsSturdy(s0, Begin(inputs));
    TraceStaysReversible(s0, s, trace);
    StagedThroughout(s, trace);
    if t.rollback.value.journal.mode == Patch {
      RollbackRestoresPayload(s0, inputs, trace, t);
    }
    FinishingUndoes(s0, t);
  }

  lemma {:induction false} StagedThroughout(s: Sys, trace: seq<Action>)
    requires Sturdy(s) && Legal(s, trace) && UnfinishedThroughout(s, trace)
    ensures Unfinished(Replay(s, trace)) && Staged(Replay(s, trace)) == Staged(s)
    decreases trace
  {
    if trace != [] {
      StepKeepsSturdy(s, trace[0]);
      JournalKeepsItsScope(s, trace[0]);
      StagedThroughout(Step(s, trace[0]), trace[1..]);
    }
  }
}
