/** When rolling back is the exact inverse of what it undoes: for a well-formed graph, exactly
    when the graph hides nothing that a merge would bring to light. */
module CustomChunkInverse {
  import opened KgModel
  import opened CustomChunks
  import opened MergeWrites
  import opened CustomChunkSoundness
  import opened CustomChunkTruncation
  import opened CustomChunkRollback
  import opened CustomChunkFailures
  import opened CustomChunkExact

  /** The call starts an operation with chunk ids nothing names, and a run of it gets to the
      last write of a rollback. */
  ghost predicate RunsToFinish(s0: Sys, inputs: seq<string>, trace: seq<Action>) {
    && StartsOperation(s0, inputs) && FreshFor(s0.disk.kg, Ids(Decide(s0.doc, s0.disk, inputs).entries))
    && Legal(Step(s0, Begin(inputs)), trace) && UnfinishedThroughout(Step(s0, Begin(inputs)), trace)
    && Enabled(Replay(Step(s0, Begin(inputs)), trace), FinishRollback)
  }

  /** Whatever the operation and however it went, rolling it back undoes it. */
  ghost predicate AlwaysUndone(s0: Sys) {
    forall inputs, trace :: RunsToFinish(s0, inputs, trace) ==>
      Undone(s0, Step(Replay(Step(s0, Begin(inputs)), trace), FinishRollback).disk,
             Ids(Decide(s0.doc, s0.disk, inputs).entries))
  }

  lemma {:induction false} WorkStaysUnfinished(s: Sys, trace: seq<Action>)
    requires Sturdy(s) && Unfinished(s) && Legal(s, trace) && Unsettled(trace)
    ensures UnfinishedThroughout(s, trace)
    decreases trace
  {
    if trace != [] {
      StepKeepsSturdy(s, trace[0]);
      UnsettledStaysUnfinished(s, trace[0]);
      WorkStaysUnfinished(Step(s, trace[0]), trace[1..]);
    }
  }

  lemma UnsettledStaysUnfinished(s: Sys, a: Action)
    requires Sturdy(s) && Unfinished(s) && Enabled(s, a) && !a.Commit? && !a.FinishRollback?
    ensures Unfinished(Step(s, a))
  {
  }

  lemma FreshCallStarts(u: Sys, c: Chunk)
    requires AtRest(u) && Unused(u, c)
    ensures StartsOperation(u, [c.text]) && Decide(u.doc, u.disk, [c.text]).entries == [c]
    ensures FreshFor(u.disk.kg, Ids([c])) && Unfinished(Opened(u, c))
  {
    FreshDecision(u, c);
    assert Ids([c]) == {c};
  }

  lemma OpenedIsSturdy(u: Sys, c: Chunk)
    requires Sturdy(u) && AtRest(u) && c.CustomChunk?
    ensures Sturdy(Opened(u, c))
  {
    StepKeepsSturdy(u, Begin([c.text]));
  }

  /** A rollback that ends on another graph than it should. */
  lemma NotUndone(u: Sys, c: Chunk, n: Sys)
    requires Sturdy(u) && AtRest(u) && Unused(u, c) && Works(Opened(u, c), n) && Enabled(n, FinishRollback)
    requires !SameGraph(u.disk.kg, n.disk.kg)
    ensures !AlwaysUndone(u)
  {
    var s := Opened(u, c);
    FreshCallStarts(u, c);
    OpenedIsSturdy(u, c);
    var trace :| Follows(s, trace, n) && Unsettled(trace);
    WorkStaysUnfinished(s, trace);
    assert RunsToFinish(u, [c.text], trace);
    assert Step(n, FinishRollback).disk.kg == n.disk.kg;
  }

  /** The merge is cut and the operation rolled back, all its candidates having other sources. */
  lemma CutAndRolledBack(u: Sys, m: Sys, c: Chunk, names: set<Obj>) returns (n: Sys)
    requires AtRest(u) && Unused(u, c) && Works(Opened(u, c), m) && Journaled(u, m, c, names)
    requires forall o :: o in names && o in m.disk.kg.graph ==> !(SourceSet(m.disk.kg, o) <= {c})
    ensures Works(Opened(u, c), n) && Enabled(n, FinishRollback) && Trimmed(m.disk.kg, n.disk.kg, names, c)
  {
    n := Dies(Opened(u, c), u, m, c, names);
    PassKeepsSourced(n.disk.kg, names, c);
    n := RollsBack(Opened(u, c), u, n, c, names);
  }

  /** Merging onto the tracking row of an absent object leaves the object in the graph. */
  lemma RowIsNotTakenBack(u: Sys, o: Obj)
    requires Sturdy(u) && AtRest(u) && o !in u.disk.kg.graph && Mergeable(o) && Row(u.disk.kg, o) != []
    ensures !AlwaysUndone(u)
  {
    var c := UnusedExists(u);
    var m := MergesWhole(Opened(u, c), u, c, o);
    RowIsASource(u, m, c, o, Row(u.disk.kg, o)[0]);
    var n := CutAndRolledBack(u, m, c, WithEnds(o));
    NotUndone(u, c, n);
  }

  lemma RowIsASource(u: Sys, m: Sys, c: Chunk, o: Obj, lost: Chunk)
    requires Unused(u, c) && o !in u.disk.kg.graph && lost in Row(u.disk.kg, o)
    requires Carries(u, m, o, c) && EndsTook(u, m, o) && o in m.disk.kg.graph
    ensures forall e :: e in WithEnds(o) && e in m.disk.kg.graph ==> !(SourceSet(m.disk.kg, e) <= {c})
  {
    assert lost in Mentions(u.disk.kg, o) && lost in SourceSet(u.disk.kg, o);
    assert lost in SourceSet(m.disk.kg, o);
  }

  lemma WellFormedIsSourced(kg: Kg)
    requires WellFormed(kg)
    ensures AllSourced(kg)
  {
    forall o | o in kg.graph
      ensures SourceSet(kg, o) != {}
    {
      EmptyIds(kg.graph[o]);
      EmptyIds(Sources(kg, o));
    }
  }

  /** The merge records the edge, passes its list to one endpoint, and is cut. */
  lemma CutAfterInheriting(u: Sys, c: Chunk, edge: Obj, end: Name) returns (m: Sys)
    requires AtRest(u) && Unused(u, c) && Mergeable(edge) && IsEnd(edge, end)
    ensures Works(Opened(u, c), m) && Journaled(u, m, c, WithEnds(edge))
    ensures Touches(u.disk.kg, m.disk.kg, {edge} + {Entity(end)}, c)
    ensures Carries(u, m, edge, c) && Took(u, m, edge, Entity(end))
  {
    m := BeginsWith(Opened(u, c), u, c, edge);
    assert c in Ids(Row(m.disk.kg, edge));
    m := EndTakes(Opened(u, c), u, m, c, WithEnds(edge), edge, end, {edge}, edge);
  }

  /** An endpoint that takes over a source of its edge keeps it. */
  lemma SourceIsNotTakenBack(u: Sys, edge: Obj, end: Name, lost: Chunk)
    requires Sturdy(u) && AtRest(u) && WellFormed(u.disk.kg) && edge in u.disk.kg.graph
    requires Mergeable(edge) && IsEnd(edge, end)
    requires lost in SourceSet(u.disk.kg, edge) && lost !in SourceSet(u.disk.kg, Entity(end))
    ensures !AlwaysUndone(u)
  {
    var c := UnusedExists(u);
    var m := CutAfterInheriting(u, c, edge, end);
    WellFormedIsSourced(u.disk.kg);
    InheritedIsSourced(u, m, c, edge, end, lost);
    var n := CutAndRolledBack(u, m, c, WithEnds(edge));
    TrimmedSources(m.disk.kg, n.disk.kg, WithEnds(edge), c, Entity(end));
    assert lost in SourceSet(n.disk.kg, Entity(end)) && Entity(end) in u.disk.kg.graph;
    NotUndone(u, c, n);
  }

  lemma HiddenIsNotTakenBack(u: Sys)
    requires Sturdy(u) && AtRest(u) && WellFormed(u.disk.kg) && !HidesNothing(u.disk.kg)
    ensures !AlwaysUndone(u)
  {
    if o :| o !in u.disk.kg.graph && Mergeable(o) && Row(u.disk.kg, o) != [] {
      RowIsNotTakenBack(u, o);
    } else {
      var edge: Obj :| edge in u.disk.kg.graph && edge.Relation? && Mergeable(edge)
        && !(SourceSet(u.disk.kg, edge) <= SourceSet(u.disk.kg, Entity(edge.lo))
             && SourceSet(u.disk.kg, edge) <= SourceSet(u.disk.kg, Entity(edge.hi)));
      var end := if SourceSet(u.disk.kg, edge) <= SourceSet(u.disk.kg, Entity(edge.lo)) then edge.hi else edge.lo;
      var lost :| lost in SourceSet(u.disk.kg, edge) && lost !in SourceSet(u.disk.kg, Entity(end));
      SourceIsNotTakenBack(u, edge, end, lost);
    }
  }

  /** On a well-formed graph, every operation that is rolled back is undone exactly when the
      graph hides nothing: no edge has a source its endpoints lack, and no absent object has
      a tracking row. */
  lemma RollbackIsInverseIff(s0: Sys)
    requires Sturdy(s0) && TruncationInv(s0) && AtRest(s0) && WellFormed(s0.disk.kg)
    ensures AlwaysUndone(s0) <==> HidesNothing(s0.disk.kg)
  {
    if HidesNothing(s0.disk.kg) {
      forall inputs, trace | RunsToFinish(s0, inputs, trace)
        ensures Undone(s0, Step(Replay(Step(s0, Begin(inputs)), trace), FinishRollback).disk,
                       Ids(Decide(s0.doc, s0.disk, inputs).entries))
      {
        RollbackIsExactInverse(s0, inputs, trace, Replay(Step(s0, Begin(inputs)), trace));
      }
    } else {
      HiddenIsNotTakenBack(s0);
    }
  }

  // ----- a graph that hides a source -----

  const EDGE := Relation(0, 1)
  const OLD := PipelineChunk(2, 0)
  const NODE := PipelineChunk(2, 1)

  /** An edge with one source and two endpoints with another, as an imported graph may have. */
  const IMPORTED := Kg(map[EDGE := [OLD], Entity(0) := [NODE], Entity(1) := [NODE]], map[])

  const IMPORT := Sys(1, Disk(IMPORTED, map[], None, None, false, None), None, None, Log(multiset{}, {}, {}, 0))

  /** Here a failed operation that names the edge leaves the endpoints with a source more. */
  lemma ImportedGraphIsNotRestored()
    ensures WellFormed(IMPORTED) && !AlwaysUndone(IMPORT)
  {
    assert OLD in Ids([OLD]) && OLD !in Ids([NODE]);
    SourceIsNotTakenBack(IMPORT, EDGE, 0, OLD);
  }
}
