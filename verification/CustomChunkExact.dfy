/** The two conditions under which settling an operation keeps the anchors complete are exact:
    where one fails, a run in which everything else settles cleanly ends with a graph object
    that has a chunk of the document and is named nowhere. */
module CustomChunkExact {
  import opened KgModel
  import opened DerivedPass
  import opened CustomChunks
  import opened MergeWrites
  import opened CustomChunkCoverage
  import opened CustomChunkFailures

  /** Coverage holds now and after every run that settles cleanly. */
  ghost predicate StaysCovered(s: Sys) {
    forall trace :: Legal(s, trace) && SettlesCleanlyThroughout(s, trace) ==> Covered(Replay(s, trace))
  }

  lemma LeadsToUncovered(s: Sys, t: Sys)
    requires Leads(s, t) && !Covered(t)
    ensures !StaysCovered(s)
  {
    var trace :| Follows(s, trace, t) && SettlesCleanlyThroughout(s, trace);
    assert !Covered(Replay(s, trace));
  }

  // ----- merging an edge of the failing operation -----

  ghost predicate SameLists(before: Kg, kg: Kg, o: Obj) {
    && (o in kg.graph <==> o in before.graph) && (o in kg.graph ==> kg.graph[o] == before.graph[o])
    && (o in kg.tracking <==> o in before.tracking) && (o in kg.tracking ==> kg.tracking[o] == before.tracking[o])
  }

  /** `kg` differs from `before` only in objects of `touched`, which alone name the chunk. */
  ghost predicate Touches(before: Kg, kg: Kg, touched: set<Obj>, c: Chunk) {
    && (forall o :: o !in touched ==>
          && SameLists(before, kg, o) && Sources(kg, o) == Sources(before, o)
          && Row(kg, o) == Row(before, o) && Mentions(kg, o) == Mentions(before, o))
    && forall o :: c in Mentions(kg, o) ==> o in touched
  }

  lemma TouchesOneMore(before: Kg, kg: Kg, touched: set<Obj>, c: Chunk, w: KgWrite)
    requires Touches(before, kg, touched, c)
    ensures Touches(before, Written(kg, w), touched + {Target(w)}, c)
  {
    forall o | o != Target(w)
      ensures SameLists(kg, Written(kg, w), o)
      ensures Sources(Written(kg, w), o) == Sources(kg, o) && Row(Written(kg, w), o) == Row(kg, o)
      ensures Mentions(Written(kg, w), o) == Mentions(kg, o)
    {
      OthersUntouched(kg, w, o);
    }
  }

  lemma NothingTouched(u: Sys, c: Chunk)
    requires Unused(u, c)
    ensures Touches(u.disk.kg, u.disk.kg, {}, c)
  {
  }

  /** The operation records itself in the tracking row. */
  lemma Tracks(s: Sys, u: Sys, m: Sys, c: Chunk, sample: set<Obj>, o: Obj) returns (n: Sys)
    requires Works(s, m) && Attempting(u, m, c, Merging, sample, sample)
    requires o in sample && Mergeable(o)
    ensures Works(s, n) && Attempting(u, n, c, Merging, sample, sample)
    ensures n.disk.kg.graph == m.disk.kg.graph && Ids(Row(n.disk.kg, o)) == SourceSet(m.disk.kg, o) + {c}
    ensures SourceSet(n.disk.kg, o) == SourceSet(m.disk.kg, o) + {c}
    ensures n.disk.kg == Written(m.disk.kg, Track(o, [c]))
  {
    assert Ids([c]) == {c};
    n := Writes(s, u, m, c, sample, Track(o, [c]));
    EmptyIds(Row(n.disk.kg, o));
  }

  /** Whether the endpoint is there or not, it ends up in the graph with the edge's tracked
      list among its sources. */
  lemma TakesOver(s: Sys, u: Sys, m: Sys, c: Chunk, sample: set<Obj>, edge: Obj, end: Name, touched: set<Obj>)
    returns (n: Sys)
    requires Works(s, m) && Attempting(u, m, c, Merging, sample, sample)
    requires edge in sample && Mergeable(edge) && IsEnd(edge, end) && c in Row(m.disk.kg, edge)
    requires Touches(u.disk.kg, m.disk.kg, touched, c)
    ensures Works(s, n) && Attempting(u, n, c, Merging, sample, sample)
    ensures Entity(end) in n.disk.kg.graph && Touches(u.disk.kg, n.disk.kg, touched + {Entity(end)}, c)
    ensures SourceSet(n.disk.kg, Entity(end))
      == (if Entity(end) in m.disk.kg.graph then SourceSet(m.disk.kg, Entity(end)) else {}) + Ids(Row(m.disk.kg, edge))
    ensures Row(n.disk.kg, edge) == Row(m.disk.kg, edge)
    ensures forall o :: o != Entity(end) ==>
      (o in n.disk.kg.graph <==> o in m.disk.kg.graph) && SourceSet(n.disk.kg, o) == SourceSet(m.disk.kg, o)
  {
    if Entity(end) !in m.disk.kg.graph {
      var w := CreateEnd(edge, end, true);
      n := Writes(s, u, m, c, sample, w);
      TouchesOneMore(u.disk.kg, m.disk.kg, touched, c, w);
    } else {
      n := Inherits(s, u, m, c, sample, edge, end, touched);
    }
  }

  /** Either write to an existing endpoint makes its sources include the edge's. */
  lemma GainsSources(kg: Kg, w: KgWrite)
    requires w.TrackEnd? || w.UpsertEnd?
    requires w.edge.Relation? && Entity(w.end) in kg.graph && Row(kg, w.edge) != []
    requires w.UpsertEnd? ==> Ids(Row(kg, w.edge)) <= SourceSet(kg, Entity(w.end))
    ensures Written(kg, w).graph.Keys == kg.graph.Keys
    ensures SourceSet(Written(kg, w), Entity(w.end)) == SourceSet(kg, Entity(w.end)) + Ids(Row(kg, w.edge))
    ensures forall o :: o != Entity(w.end) ==>
      SourceSet(Written(kg, w), o) == SourceSet(kg, o) && Row(Written(kg, w), o) == Row(kg, o)
  {
    EmptyIds(Row(kg, w.edge));
    EmptyIds(Result(kg, w));
    TargetKeepsSources(kg, w);
    assert w.TrackEnd? ==> Sources(Written(kg, w), Entity(w.end)) == Result(kg, w);
    forall o | o != Entity(w.end)
      ensures SourceSet(Written(kg, w), o) == SourceSet(kg, o) && Row(Written(kg, w), o) == Row(kg, o)
    {
      OthersUntouched(kg, w, o);
    }
  }

  lemma Inherits(s: Sys, u: Sys, m: Sys, c: Chunk, sample: set<Obj>, edge: Obj, end: Name, touched: set<Obj>)
    returns (n: Sys)
    requires Works(s, m) && Attempting(u, m, c, Merging, sample, sample)
    requires edge in sample && Mergeable(edge) && IsEnd(edge, end) && c in Row(m.disk.kg, edge)
    requires Touches(u.disk.kg, m.disk.kg, touched, c) && Entity(end) in m.disk.kg.graph
    ensures Works(s, n) && Attempting(u, n, c, Merging, sample, sample)
    ensures n.disk.kg.graph.Keys == m.disk.kg.graph.Keys && Touches(u.disk.kg, n.disk.kg, touched + {Entity(end)}, c)
    ensures SourceSet(n.disk.kg, Entity(end)) == SourceSet(m.disk.kg, Entity(end)) + Ids(Row(m.disk.kg, edge))
    ensures Row(n.disk.kg, edge) == Row(m.disk.kg, edge)
    ensures forall o :: o != Entity(end) ==> SourceSet(n.disk.kg, o) == SourceSet(m.disk.kg, o)
  {
    var e := Entity(end);
    n := m;
    if MergeIds(Sources(m.disk.kg, e), Row(m.disk.kg, edge)) != Sources(m.disk.kg, e) {
      GainsSources(m.disk.kg, TrackEnd(edge, end));
      TouchesOneMore(u.disk.kg, m.disk.kg, touched, c, TrackEnd(edge, end));
      n := Writes(s, u, m, c, sample, TrackEnd(edge, end));
    }
    n := UpsertsEnd(s, u, n, c, sample, edge, end, touched + if n == m then {} else {e});
    assert touched + {e} + {e} == touched + {e} && touched + {} + {e} == touched + {e};
  }

  lemma UpsertsEnd(s: Sys, u: Sys, m: Sys, c: Chunk, sample: set<Obj>, edge: Obj, end: Name, touched: set<Obj>)
    returns (n: Sys)
    requires Works(s, m) && Attempting(u, m, c, Merging, sample, sample)
    requires edge in sample && Mergeable(edge) && IsEnd(edge, end) && c in Row(m.disk.kg, edge)
    requires Touches(u.disk.kg, m.disk.kg, touched, c) && Entity(end) in m.disk.kg.graph
    requires Ids(Row(m.disk.kg, edge)) <= SourceSet(m.disk.kg, Entity(end))
    ensures Works(s, n) && Attempting(u, n, c, Merging, sample, sample)
    ensures n.disk.kg.graph.Keys == m.disk.kg.graph.Keys && Touches(u.disk.kg, n.disk.kg, touched + {Entity(end)}, c)
    ensures SourceSet(n.disk.kg, Entity(end)) == SourceSet(m.disk.kg, Entity(end))
    ensures forall o :: o != Entity(end) ==>
      SourceSet(n.disk.kg, o) == SourceSet(m.disk.kg, o) && Row(n.disk.kg, o) == Row(m.disk.kg, o)
  {
    GainsSources(m.disk.kg, UpsertEnd(edge, end));
    TouchesOneMore(u.disk.kg, m.disk.kg, touched, c, UpsertEnd(edge, end));
    n := Writes(s, u, m, c, sample, UpsertEnd(edge, end));
  }

  /** An object with a tracking row keeps its sources when the graph is written. */
  lemma UpsertKeepsSources(kg: Kg, o: Obj, added: seq<Chunk>)
    requires Row(kg, o) != []
    ensures Written(kg, Upsert(o, added)).graph.Keys == kg.graph.Keys + {o}
    ensures forall p :: SourceSet(Written(kg, Upsert(o, added)), p) == SourceSet(kg, p)
    ensures forall p :: Row(Written(kg, Upsert(o, added)), p) == Row(kg, p)
  {
  }

  /** The object itself is written once its endpoints are ready. */
  lemma Upserts(s: Sys, u: Sys, m: Sys, c: Chunk, sample: set<Obj>, o: Obj, touched: set<Obj>) returns (n: Sys)
    requires Works(s, m) && Attempting(u, m, c, Merging, sample, sample)
    requires o in sample && o in touched && Mergeable(o) && c in Row(m.disk.kg, o) && EndsReady(m.disk.kg, o)
    requires Touches(u.disk.kg, m.disk.kg, touched, c)
    ensures Works(s, n) && Attempting(u, n, c, Merging, sample, sample)
    ensures n.disk.kg.graph.Keys == m.disk.kg.graph.Keys + {o} && Touches(u.disk.kg, n.disk.kg, touched, c)
    ensures forall p :: SourceSet(n.disk.kg, p) == SourceSet(m.disk.kg, p) && Row(n.disk.kg, p) == Row(m.disk.kg, p)
  {
    assert Ids([c]) == {c} && touched + {o} == touched;
    UpsertKeepsSources(m.disk.kg, o, [c]);
    TouchesOneMore(u.disk.kg, m.disk.kg, touched, c, Upsert(o, [c]));
    n := Writes(s, u, m, c, sample, Upsert(o, [c]));
  }

  // ----- an orphaned row comes back as a graph object -----

  /** The tracking row of an absent object names a chunk of the document, and no committed one. */
  ghost predicate Orphan(u: Sys, o: Obj, lost: Chunk) {
    && o !in u.disk.kg.graph && lost in Row(u.disk.kg, o) && Mergeable(o)
    && Ids(Row(u.disk.kg, o)) !! CommittedIds(u.disk)
  }

  /** A graph object with the chunk, named by no anchor row of a document at rest. */
  ghost predicate Stranded(v: Sys, o: Obj, lost: Chunk) {
    AtRest(v) && o in v.disk.kg.graph && lost in v.disk.kg.graph[o] && o !in AnchorNames(v.disk)
  }

  function WithEnds(o: Obj): set<Obj> {
    {o} + if o.Relation? then {Entity(o.lo), Entity(o.hi)} else {}
  }

  lemma BeginsWith(s: Sys, u: Sys, c: Chunk, o: Obj) returns (m: Sys)
    requires AtRest(u) && Unused(u, c) && Mergeable(o) && (s == u || s == Opened(u, c))
    ensures Works(s, m) && Attempting(u, m, c, Merging, WithEnds(o), WithEnds(o))
    ensures Touches(u.disk.kg, m.disk.kg, {o}, c) && m.disk.kg.graph == u.disk.kg.graph
    ensures Ids(Row(m.disk.kg, o)) == SourceSet(m.disk.kg, o) == SourceSet(u.disk.kg, o) + {c}
  {
    m := ReachesMerge(s, u, c, WithEnds(o));
    FirstTouch(u, c, o);
    m := Tracks(s, u, m, c, WithEnds(o), o);
  }

  lemma FirstTouch(u: Sys, c: Chunk, o: Obj)
    requires Unused(u, c)
    ensures Touches(u.disk.kg, Written(u.disk.kg, Track(o, [c])), {o}, c)
  {
    NothingTouched(u, c);
    TouchesOneMore(u.disk.kg, u.disk.kg, {}, c, Track(o, [c]));
    assert {} + {o} == {o};
  }

  /** The endpoint is in the graph with the edge's list beside its own. */
  ghost predicate Took(u: Sys, m: Sys, o: Obj, e: Obj) {
    && e in m.disk.kg.graph
    && SourceSet(m.disk.kg, e)
       == (if e in u.disk.kg.graph then SourceSet(u.disk.kg, e) else {}) + SourceSet(m.disk.kg, o)
  }

  ghost predicate EndsTook(u: Sys, m: Sys, o: Obj) {
    o.Relation? ==> Took(u, m, o, Entity(o.lo)) && Took(u, m, o, Entity(o.hi))
  }

  /** The object's row is its source list, and the operation added its chunk. */
  ghost predicate Carries(u: Sys, m: Sys, o: Obj, c: Chunk) {
    && c in Row(m.disk.kg, o)
    && Ids(Row(m.disk.kg, o)) == SourceSet(m.disk.kg, o) == SourceSet(u.disk.kg, o) + {c}
  }

  lemma EndTakes(s: Sys, u: Sys, m: Sys, c: Chunk, sample: set<Obj>, o: Obj, end: Name, touched: set<Obj>, other: Obj)
    returns (n: Sys)
    requires Works(s, m) && Attempting(u, m, c, Merging, sample, sample)
    requires o in sample && Mergeable(o) && IsEnd(o, end) && Carries(u, m, o, c)
    requires Touches(u.disk.kg, m.disk.kg, touched, c) && Entity(end) !in touched
    ensures Works(s, n) && Attempting(u, n, c, Merging, sample, sample)
    ensures Touches(u.disk.kg, n.disk.kg, touched + {Entity(end)}, c)
    ensures Carries(u, n, o, c) && Took(u, n, o, Entity(end)) && (o in n.disk.kg.graph <==> o in m.disk.kg.graph)
    ensures other != Entity(end) && Took(u, m, o, other) ==> Took(u, n, o, other)
  {
    n := TakesOver(s, u, m, c, sample, o, end, touched);
  }

  lemma Spreads(s: Sys, u: Sys, m: Sys, c: Chunk, sample: set<Obj>, o: Obj) returns (n: Sys)
    requires Works(s, m) && Attempting(u, m, c, Merging, sample, sample)
    requires o in sample && Mergeable(o) && o.Relation? && Carries(u, m, o, c)
    requires Touches(u.disk.kg, m.disk.kg, {o}, c) && m.disk.kg.graph == u.disk.kg.graph
    ensures Works(s, n) && Attempting(u, n, c, Merging, sample, sample)
    ensures Touches(u.disk.kg, n.disk.kg, WithEnds(o), c) && Carries(u, n, o, c) && EndsTook(u, n, o)
    ensures o in n.disk.kg.graph <==> o in u.disk.kg.graph
  {
    n := EndTakes(s, u, m, c, sample, o, o.lo, {o}, o);
    n := EndTakes(s, u, n, c, sample, o, o.hi, {o} + {Entity(o.lo)}, Entity(o.lo));
    assert {o} + {Entity(o.lo)} + {Entity(o.hi)} == WithEnds(o);
  }

  lemma MergesEdge(s: Sys, u: Sys, c: Chunk, o: Obj) returns (m: Sys)
    requires AtRest(u) && Unused(u, c) && Mergeable(o) && (s == u || s == Opened(u, c))
    ensures Works(s, m) && Attempting(u, m, c, Merging, WithEnds(o), WithEnds(o))
    ensures Touches(u.disk.kg, m.disk.kg, WithEnds(o), c) && Carries(u, m, o, c) && EndsTook(u, m, o)
    ensures o in m.disk.kg.graph <==> o in u.disk.kg.graph
  {
    m := BeginsWith(s, u, c, o);
    assert c in Ids(Row(m.disk.kg, o));
    if o.Relation? {
      m := Spreads(s, u, m, c, WithEnds(o), o);
    }
  }

  lemma MergesWhole(s: Sys, u: Sys, c: Chunk, o: Obj) returns (m: Sys)
    requires AtRest(u) && Unused(u, c) && Mergeable(o) && (s == u || s == Opened(u, c))
    ensures Works(s, m) && Attempting(u, m, c, Merging, WithEnds(o), WithEnds(o))
    ensures Touches(u.disk.kg, m.disk.kg, WithEnds(o), c) && Carries(u, m, o, c) && EndsTook(u, m, o)
    ensures o in m.disk.kg.graph
  {
    var n := MergesEdge(s, u, c, o);
    m := Upserts(s, u, n, c, WithEnds(o), o, WithEnds(o));
  }

  lemma SurfacedLeaves(u: Sys, m: Sys, after: Kg, o: Obj, lost: Chunk, c: Chunk)
    requires Orphan(u, o, lost) && Unused(u, c) && Touches(u.disk.kg, m.disk.kg, WithEnds(o), c)
    requires Carries(u, m, o, c) && WithEnds(o) <= m.disk.kg.graph.Keys && Trimmed(m.disk.kg, after, WithEnds(o), c)
    ensures LeavesNoOrphan(after, c, CommittedIds(u.disk))
    ensures o in after.graph && lost in after.graph[o] && Ids(Row(after, o)) !! CommittedIds(u.disk)
  {
    TrimmedSources(m.disk.kg, after, WithEnds(o), c, o);
    assert c !in Mentions(u.disk.kg, o) && lost in Mentions(u.disk.kg, o);
    assert SourceSet(u.disk.kg, o) == Ids(Row(u.disk.kg, o));
    forall p | p !in after.graph
      ensures c !in Row(after, p)
    {
      assert p !in WithEnds(o) && Row(after, p) == Row(m.disk.kg, p);
      assert c in Row(m.disk.kg, p) ==> c in Mentions(m.disk.kg, p);
    }
  }

  /** Another operation merges onto the orphaned row and is rolled back: the row's chunk is in
      the graph, and no anchor names the object. */
  lemma OrphanSurfaces(s: Sys, u: Sys, o: Obj, lost: Chunk) returns (v: Sys)
    requires Leads(s, u) && AtRest(u) && Orphan(u, o, lost)
    ensures Leads(s, v) && Restored(u, v) && Stranded(v, o, lost)
  {
    var c := UnusedExists(u);
    var m := MergesWhole(u, u, c, o);
    m := Dies(u, u, m, c, WithEnds(o));
    assert lost in SourceSet(u.disk.kg, o) && lost in Mentions(u.disk.kg, o);
    assert forall e :: e in WithEnds(o) ==> e in m.disk.kg.graph && lost in SourceSet(m.disk.kg, e);
    PassKeepsSourced(m.disk.kg, WithEnds(o), c);
    SurfacedLeaves(u, m, Derive(m.disk.kg, WithEnds(o), {c}, Rollback), o, lost, c);
    v := RollbackFinishes(s, u, m, c, WithEnds(o));
  }

  /** Staging the chunk again leaves the stranded object named nowhere. */
  lemma StrandedIsUncovered(s: Sys, v: Sys, o: Obj, lost: Chunk) returns (t: Sys)
    requires Leads(s, v) && Stranded(v, o, lost)
    requires lost in CommittedIds(v.disk)
      || (lost.CustomChunk? && lost.doc == v.doc && lost.text != "" && lost.text !in Committed(v.disk))
    ensures Leads(s, t) && !Covered(t)
  {
    if lost in CommittedIds(v.disk) {
      t := v;
    } else {
      FreshDecision(v, lost);
      LeadsOn(s, v, Begin([lost.text]));
      t := Step(v, Begin([lost.text]));
      assert lost in StagedIds(t.disk) && JournalNames(t.disk) == {};
    }
    assert !(Ids(t.disk.kg.graph[o]) !! (CommittedIds(t.disk) + StagedIds(t.disk)));
  }

  /** Finishing a rollback is safe, for every run that follows, exactly when no orphaned
      tracking row names staged chunks alone. */
  lemma FinishIsSafeIff(s: Sys)
    requires Inv(s) && Enabled(s, FinishRollback)
    ensures StaysCovered(Step(s, FinishRollback)) <==> OrphansStayAnchored(s)
  {
    var u := Step(s, FinishRollback);
    FinishingKeepsInvIff(s);
    if OrphansStayAnchored(s) {
      SoundStaysCovered(u);
    } else {
      FinishStrands(s);
    }
  }

  lemma SoundStaysCovered(s: Sys)
    requires Inv(s)
    ensures StaysCovered(s)
  {
    forall trace | Legal(s, trace) && SettlesCleanlyThroughout(s, trace)
      ensures Covered(Replay(s, trace))
    {
      AnchorsCoverEveryRun(s, trace);
    }
  }

  lemma StagedIsOurs(s: Sys, c: Chunk)
    requires Inv(s) && c in StagedIds(s.disk)
    ensures c.CustomChunk? && c.doc == s.doc && c.text != "" && c !in CommittedIds(s.disk)
    ensures s.disk.row.value.patch.value.mode == Patch ==> c.text !in Committed(s.disk)
  {
  }

  ghost predicate StagedOrphan(s: Sys, o: Obj, lost: Chunk) {
    && o !in s.disk.kg.graph && lost in Row(s.disk.kg, o) && lost in StagedIds(s.disk)
    && Ids(Row(s.disk.kg, o)) !! CommittedIds(s.disk)
  }

  lemma FinishStrands(s: Sys)
    requires Inv(s) && Enabled(s, FinishRollback) && !OrphansStayAnchored(s)
    ensures !StaysCovered(Step(s, FinishRollback))
  {
    var o :| o !in s.disk.kg.graph && !(Ids(Row(s.disk.kg, o)) !! StagedIds(s.disk))
      && Ids(Row(s.disk.kg, o)) !! CommittedIds(s.disk);
    var lost :| lost in Row(s.disk.kg, o) && lost in StagedIds(s.disk);
    assert StagedOrphan(s, o, lost);
    OrphanStrands(s, o, lost);
  }

  lemma OrphanSurvivesFinish(s: Sys, o: Obj, lost: Chunk)
    requires Inv(s) && Enabled(s, FinishRollback) && StagedOrphan(s, o, lost)
    ensures var u := Step(s, FinishRollback);
      && AtRest(u) && u.doc == s.doc && Orphan(u, o, lost)
      && lost.CustomChunk? && lost.doc == s.doc && lost.text != "" && lost.text !in Committed(u.disk)
  {
    var u := Step(s, FinishRollback);
    assert lost in Mentions(s.disk.kg, o) && Accounted(s.doc, s.disk, o, lost);
    StagedIsOurs(s, lost);
    assert CommittedIds(u.disk) == CommittedIds(s.disk);
  }

  lemma OrphanStrands(s: Sys, o: Obj, lost: Chunk)
    requires Inv(s) && Enabled(s, FinishRollback) && StagedOrphan(s, o, lost)
    ensures !StaysCovered(Step(s, FinishRollback))
  {
    var u := Step(s, FinishRollback);
    OrphanSurvivesFinish(s, o, lost);
    Stays(u);
    var v := OrphanSurfaces(u, u, o, lost);
    RestoredOwnsTheSame(u, v);
    var t := StrandedIsUncovered(u, v, o, lost);
    LeadsToUncovered(u, t);
  }

  // ----- an edge committed before its endpoint -----

  ghost predicate AllSourced(kg: Kg) {
    forall o :: o in kg.graph ==> SourceSet(kg, o) != {}
  }

  /** Nothing but these objects has changed its place in the graph or its sources. */
  ghost predicate SameBut(before: Kg, kg: Kg, rows: set<Obj>) {
    forall o :: o !in rows ==> (o in kg.graph <==> o in before.graph) && SourceSet(kg, o) == SourceSet(before, o)
  }

  lemma NamingLeaves(u: Sys, after: Kg, e: Obj, c: Chunk)
    requires Unused(u, c) && AllSourced(u.disk.kg) && Trimmed(u.disk.kg, after, {e}, c)
    requires (if e in u.disk.kg.graph then SourceSet(u.disk.kg, e) else Ids(Row(u.disk.kg, e))) !! CommittedIds(u.disk)
    ensures LeavesNoOrphan(after, c, CommittedIds(u.disk)) && Ids(Row(after, e)) !! CommittedIds(u.disk)
    ensures AllSourced(after) && SameBut(u.disk.kg, after, {e})
  {
    forall o
      ensures SourceSet(after, o) == SourceSet(u.disk.kg, o)
    {
      TrimmedSources(u.disk.kg, after, {e}, c, o);
      assert SourceSet(u.disk.kg, o) <= Mentions(u.disk.kg, o) && c !in Mentions(u.disk.kg, o);
    }
    TrimmedSources(u.disk.kg, after, {e}, c, e);
    forall o | o !in after.graph
      ensures c !in Row(after, o)
    {
      assert Row(after, o) == Row(u.disk.kg, o) && c !in Mentions(u.disk.kg, o);
    }
  }

  /** A failed operation that only extracted the endpoint leaves it in no anchor row. */
  lemma NamingUnanchors(s: Sys, u: Sys, e: Obj) returns (v: Sys)
    requires Leads(s, u) && AtRest(u) && AllSourced(u.disk.kg) && e.Entity?
    requires (if e in u.disk.kg.graph then SourceSet(u.disk.kg, e) else Ids(Row(u.disk.kg, e))) !! CommittedIds(u.disk)
    ensures Leads(s, v) && Restored(u, v) && e !in AnchorNames(v.disk)
    ensures AllSourced(v.disk.kg) && SameBut(u.disk.kg, v.disk.kg, {e})
  {
    var c := UnusedExists(u);
    var m := ReachesMerge(u, u, c, {e});
    m := Dies(u, u, m, c, {e});
    assert c !in Mentions(u.disk.kg, e) && SourceSet(u.disk.kg, e) <= Mentions(u.disk.kg, e);
    PassKeepsSourced(m.disk.kg, {e}, c);
    NamingLeaves(u, Derive(m.disk.kg, {e}, {c}, Rollback), e, c);
    v := RollbackFinishes(s, u, m, c, {e});
  }

  function Without(kg: Kg, rows: set<Obj>): Kg {
    Kg(kg.graph, kg.tracking - rows)
  }

  lemma OnlySourceIsDropped(kg: Kg, names: set<Obj>, c: Chunk)
    requires forall o :: o in names ==> o in kg.graph && SourceSet(kg, o) == {c}
    ensures Drops(kg, names, {c}, Rollback) == names
    ensures Rebuilds(kg, names, {c}, Rollback) == map[]
  {
    forall o | o in names
      ensures Classify(kg, o, {c}, Rollback) == Drop
    {
      EmptyIds(Subtract(Sources(kg, o), {c}));
    }
  }

  /** Rows that fall with the endpoint: its own, and those of edges at it. */
  ghost predicate FallWith(kg: Kg, e: Obj, rows: set<Obj>) {
    e in rows && forall o :: o in rows && o != e ==> o in kg.graph && Incident(o, {e})
  }

  lemma TornToEndpoint(before: Kg, kg: Kg, names: set<Obj>, c: Chunk, e: Obj, rows: set<Obj>)
    requires Touches(before, kg, names, c) && e in names && FallWith(before, e, rows)
    requires forall o :: o in names ==> o in kg.graph && SourceSet(kg, o) == {c}
    requires forall o :: o in names ==> o !in before.graph && (o != e ==> o !in before.tracking)
    ensures PartlyDerived(kg, Without(before, rows), names, {c}, Rollback)
  {
    OnlySourceIsDropped(kg, names, c);
    OnlyNamesWereAdded(before, kg, names, c);
    RowsFall(before, kg, names, e, rows);
    RemovalsAreALanding(kg, Without(before, rows), names, c);
  }

  lemma OnlyNamesWereAdded(before: Kg, kg: Kg, names: set<Obj>, c: Chunk)
    requires Touches(before, kg, names, c)
    ensures kg.graph.Keys - before.graph.Keys <= names && kg.tracking.Keys - before.tracking.Keys <= names
    ensures forall o :: o in before.graph && o !in names ==> o in kg.graph && before.graph[o] == kg.graph[o]
    ensures forall o :: o in before.tracking && o !in names ==> o in kg.tracking && before.tracking[o] == kg.tracking[o]
  {
    forall o | o !in names
      ensures SameLists(before, kg, o)
    {
    }
  }

  lemma RowsFall(before: Kg, kg: Kg, names: set<Obj>, e: Obj, rows: set<Obj>)
    requires e in names && FallWith(before, e, rows) && names <= kg.graph.Keys
    requires forall o :: o in before.graph ==> o in kg.graph || o in names
    ensures names <= Fallen(kg, names) && rows <= Fallen(kg, names)
  {
    assert forall o :: o in rows && o != e ==> o in kg.graph && Incident(o, names);
  }

  lemma RemovalsAreALanding(kg: Kg, part: Kg, names: set<Obj>, c: Chunk)
    requires Drops(kg, names, {c}, Rollback) == names && Rebuilds(kg, names, {c}, Rollback) == map[]
    requires forall o :: o in part.graph ==> o in kg.graph && part.graph[o] == kg.graph[o]
    requires forall o :: o in part.tracking ==> o in kg.tracking && part.tracking[o] == kg.tracking[o]
    requires kg.graph.Keys - part.graph.Keys <= Fallen(kg, names)
    requires kg.tracking.Keys - part.tracking.Keys <= names + Fallen(kg, names)
    ensures PartlyDerived(kg, part, names, {c}, Rollback)
  {
    assert forall o :: o in kg.graph && o !in part.graph ==> o in kg.graph.Keys - part.graph.Keys;
    assert forall o :: o in kg.tracking && o !in part.tracking ==> o in kg.tracking.Keys - part.tracking.Keys;
  }

  /** A failed operation that created the endpoint for an edge of its own, and whose rollback
      was cut once, takes the endpoint's old tracking row away, and those of edges at it. */
  lemma CreatingUnanchors(s: Sys, u: Sys, e: Obj, rows: set<Obj>) returns (v: Sys)
    requires Leads(s, u) && AtRest(u) && AllSourced(u.disk.kg) && e.Entity? && e !in u.disk.kg.graph
    requires FallWith(u.disk.kg, e, rows) && forall o :: o in rows && o in u.disk.kg.graph ==> u.disk.kg.graph[o] != []
    ensures Leads(s, v) && Restored(u, v) && e !in AnchorNames(v.disk)
    ensures AllSourced(v.disk.kg) && SameBut(u.disk.kg, v.disk.kg, rows)
    ensures forall o :: o in rows && o in u.disk.kg.graph ==> SourceSet(v.disk.kg, o) == Ids(u.disk.kg.graph[o])
  {
    var c := UnusedExists(u);
    var other := NewName(u.disk.kg, e.name);
    var m := TearsOffEndpoint(u, c, e, Relation(e.name, other), rows);
    v := FinishesWithout(s, u, m, c, WithEnds(Relation(e.name, other)), e, rows);
  }

  lemma TearsOffEndpoint(u: Sys, c: Chunk, e: Obj, edge: Obj, rows: set<Obj>) returns (m: Sys)
    requires AtRest(u) && Unused(u, c) && e.Entity? && e !in u.disk.kg.graph && FallWith(u.disk.kg, e, rows)
    requires edge.Relation? && Mergeable(edge) && e in WithEnds(edge)
    requires forall o :: o in WithEnds(edge) ==> o !in u.disk.kg.graph && (o != e ==> o !in u.disk.kg.tracking)
    ensures Works(u, m) && Journaled(u, m, c, WithEnds(edge)) && m.run.None? && m.rollback.None?
    ensures m.disk.kg == Without(u.disk.kg, rows)
  {
    m := MergesWhole(u, u, c, edge);
    assert SourceSet(u.disk.kg, edge) == {};
    m := Dies(u, u, m, c, WithEnds(edge));
    TornToEndpoint(u.disk.kg, m.disk.kg, WithEnds(edge), c, e, rows);
    m := Tears(u, u, m, c, WithEnds(edge), Without(u.disk.kg, rows));
  }

  lemma WithoutLeaves(u: Sys, after: Kg, names: set<Obj>, e: Obj, rows: set<Obj>, c: Chunk)
    requires Unused(u, c) && AllSourced(u.disk.kg) && e !in u.disk.kg.graph && FallWith(u.disk.kg, e, rows)
    requires e in names && forall o :: o in names ==> o !in u.disk.kg.graph
    requires forall o :: o in rows && o in u.disk.kg.graph ==> u.disk.kg.graph[o] != []
    requires Trimmed(Without(u.disk.kg, rows), after, names, c)
    ensures LeavesNoOrphan(after, c, CommittedIds(u.disk)) && Row(after, e) == []
    ensures AllSourced(after) && SameBut(u.disk.kg, after, rows)
    ensures forall o :: o in rows && o in u.disk.kg.graph ==> SourceSet(after, o) == Ids(u.disk.kg.graph[o])
  {
    forall o
      ensures o !in rows ==> SourceSet(after, o) == SourceSet(u.disk.kg, o)
      ensures o in rows && o in u.disk.kg.graph ==> SourceSet(after, o) == Ids(u.disk.kg.graph[o]) != {}
    {
      TrimmedSources(Without(u.disk.kg, rows), after, names, c, o);
      if o in rows && o in u.disk.kg.graph {
        EmptyIds(u.disk.kg.graph[o]);
      }
    }
    forall o | o !in after.graph
      ensures c !in Row(after, o)
    {
      assert Row(after, o) == Row(Without(u.disk.kg, rows), o) && c !in Mentions(u.disk.kg, o);
    }
  }

  lemma FinishesWithout(s: Sys, u: Sys, m: Sys, c: Chunk, names: set<Obj>, e: Obj, rows: set<Obj>) returns (v: Sys)
    requires Leads(s, u) && Works(u, m) && AtRest(u) && Unused(u, c)
    requires Journaled(u, m, c, names) && m.run.None? && m.rollback.None?
    requires m.disk.kg == Without(u.disk.kg, rows) && AllSourced(u.disk.kg) && e !in u.disk.kg.graph
    requires e in names && forall o :: o in names ==> o !in u.disk.kg.graph
    requires FallWith(u.disk.kg, e, rows) && forall o :: o in rows && o in u.disk.kg.graph ==> u.disk.kg.graph[o] != []
    ensures Leads(s, v) && Restored(u, v) && e !in AnchorNames(v.disk)
    ensures AllSourced(v.disk.kg) && SameBut(u.disk.kg, v.disk.kg, rows)
    ensures forall o :: o in rows && o in u.disk.kg.graph ==> SourceSet(v.disk.kg, o) == Ids(u.disk.kg.graph[o])
  {
    PassKeepsSourced(m.disk.kg, names, c);
    WithoutLeaves(u, Derive(m.disk.kg, names, {c}, Rollback), names, e, rows, c);
    v := RollbackFinishes(s, u, m, c, names);
  }

  lemma Unanchors(s: Sys, u: Sys, e: Obj) returns (v: Sys)
    requires Leads(s, u) && AtRest(u) && AllSourced(u.disk.kg) && e.Entity?
    requires e in u.disk.kg.graph ==> SourceSet(u.disk.kg, e) !! CommittedIds(u.disk)
    ensures Leads(s, v) && Restored(u, v) && e !in AnchorNames(v.disk)
    ensures AllSourced(v.disk.kg) && SameBut(u.disk.kg, v.disk.kg, {e})
  {
    if e in u.disk.kg.graph || Ids(Row(u.disk.kg, e)) !! CommittedIds(u.disk) {
      v := NamingUnanchors(s, u, e);
    } else {
      v := CreatingUnanchors(s, u, e, {e});
    }
  }

  /** A failed operation that merges the edge passes its committed chunk to the unanchored
      endpoint, and the rollback leaves it there. */
  lemma EndpointStrands(s: Sys, u: Sys, edge: Obj, end: Name, lost: Chunk) returns (v: Sys)
    requires Leads(s, u) && AtRest(u) && AllSourced(u.disk.kg) && Mergeable(edge) && IsEnd(edge, end)
    requires lost in SourceSet(u.disk.kg, edge) && lost in CommittedIds(u.disk) && Entity(end) !in AnchorNames(u.disk)
    ensures Leads(s, v) && Restored(u, v) && Stranded(v, Entity(end), lost)
  {
    var c := UnusedExists(u);
    var names := WithEnds(edge);
    var m := BeginsWith(u, u, c, edge);
    assert lost in Ids(Row(m.disk.kg, edge)) && c in Ids(Row(m.disk.kg, edge));
    m := EndTakes(u, u, m, c, names, edge, end, {edge}, edge);
    m := Dies(u, u, m, c, names);
    InheritedIsSourced(u, m, c, edge, end, lost);
    PassKeepsSourced(m.disk.kg, names, c);
    InheritedLeaves(u, m, Derive(m.disk.kg, names, {c}, Rollback), c, edge, end, lost);
    v := RollbackFinishes(s, u, m, c, names);
  }

  lemma InheritedLeaves(u: Sys, m: Sys, after: Kg, c: Chunk, edge: Obj, end: Name, lost: Chunk)
    requires Trimmed(m.disk.kg, after, WithEnds(edge), c) && IsEnd(edge, end) && lost in CommittedIds(u.disk)
    requires lost != c && lost in Row(m.disk.kg, edge) && lost in SourceSet(m.disk.kg, Entity(end))
    requires Entity(end) in m.disk.kg.graph
    requires forall o :: o !in m.disk.kg.graph && c in Row(m.disk.kg, o) ==> o == edge
    ensures LeavesNoOrphan(after, c, CommittedIds(u.disk))
    ensures Entity(end) in after.graph && lost in after.graph[Entity(end)]
  {
    TrimmedSources(m.disk.kg, after, WithEnds(edge), c, Entity(end));
    assert lost in Ids(after.graph[Entity(end)]);
    forall o | o !in after.graph && c in Row(after, o)
      ensures !(Ids(Row(after, o)) !! CommittedIds(u.disk))
    {
      assert Row(after, o) == Row(m.disk.kg, o);
      assert lost in Ids(Row(after, o));
    }
  }

  lemma InheritedIsSourced(u: Sys, m: Sys, c: Chunk, edge: Obj, end: Name, lost: Chunk)
    requires Unused(u, c) && AllSourced(u.disk.kg) && IsEnd(edge, end) && lost in SourceSet(u.disk.kg, edge)
    requires Touches(u.disk.kg, m.disk.kg, {edge} + {Entity(end)}, c)
    requires Carries(u, m, edge, c) && Took(u, m, edge, Entity(end))
    ensures lost != c && lost in Row(m.disk.kg, edge) && lost in SourceSet(m.disk.kg, Entity(end))
    ensures forall o :: o in WithEnds(edge) && o in m.disk.kg.graph ==> !(SourceSet(m.disk.kg, o) <= {c})
    ensures forall o :: o !in m.disk.kg.graph && c in Row(m.disk.kg, o) ==> o == edge
  {
    assert lost in Mentions(u.disk.kg, edge) && lost in Ids(Row(m.disk.kg, edge));
    forall o | o in WithEnds(edge) && o in m.disk.kg.graph
      ensures !(SourceSet(m.disk.kg, o) <= {c})
    {
      if o != edge && o != Entity(end) {
        assert SameLists(u.disk.kg, m.disk.kg, o) && c !in Mentions(u.disk.kg, o);
        assert SourceSet(u.disk.kg, o) <= Mentions(u.disk.kg, o);
        assert SourceSet(m.disk.kg, o) == SourceSet(u.disk.kg, o) != {};
      }
    }
    forall o | o !in m.disk.kg.graph && c in Row(m.disk.kg, o)
      ensures o == edge
    {
      assert c in Mentions(m.disk.kg, o);
    }
  }

  /** Committing is safe, for every run that follows, exactly when every edge that names a
      staged chunk has both endpoints in the graph, with a source of the document if the chunk
      is among the edge's own sources. */
  lemma CommitIsSafeIff(s: Sys)
    requires Inv(s) && Enabled(s, Commit) && AllSourced(s.disk.kg)
    ensures StaysCovered(Step(s, Commit)) <==> EndpointsLanded(s)
  {
    CommittingKeepsInvIff(s);
    if EndpointsLanded(s) {
      SoundStaysCovered(Step(s, Commit));
    } else {
      CommitStrands(s);
    }
  }

  lemma CommitStrands(s: Sys)
    requires Inv(s) && Enabled(s, Commit) && AllSourced(s.disk.kg) && !EndpointsLanded(s)
    ensures !StaysCovered(Step(s, Commit))
  {
    var edge: Obj, lost :| edge.Relation? && lost in Mentions(s.disk.kg, edge) && lost in StagedIds(s.disk)
      && !(EndLanded(s.disk, edge, lost, Entity(edge.lo)) && EndLanded(s.disk, edge, lost, Entity(edge.hi)));
    assert Accounted(s.doc, s.disk, edge, lost);
    StagedIsOurs(s, lost);
    var end := if EndLanded(s.disk, edge, lost, Entity(edge.lo)) then edge.hi else edge.lo;
    UnlandedEndStrands(s, edge, end, lost);
  }

  lemma UnlandedEndStrands(s: Sys, edge: Obj, end: Name, lost: Chunk)
    requires Inv(s) && Enabled(s, Commit) && AllSourced(s.disk.kg) && Mergeable(edge) && IsEnd(edge, end)
    requires lost in Mentions(s.disk.kg, edge) && lost in StagedIds(s.disk)
    requires !EndLanded(s.disk, edge, lost, Entity(end))
    ensures !StaysCovered(Step(s, Commit))
  {
    var u, r := Step(s, Commit), s.run.value;
    IdsOfConcat(r.base.chunksList, r.journal.chunkIds);
    assert CommittedIds(u.disk) == CommittedIds(s.disk) + StagedIds(s.disk);
    CommittedEdgeStrands(u, edge, end, lost);
  }

  lemma CommittedEdgeStrands(u: Sys, edge: Obj, end: Name, lost: Chunk)
    requires AtRest(u) && AllSourced(u.disk.kg) && Mergeable(edge) && IsEnd(edge, end)
    requires lost in Mentions(u.disk.kg, edge) && lost in CommittedIds(u.disk)
    requires Entity(end) in u.disk.kg.graph ==>
      lost in SourceSet(u.disk.kg, edge) && SourceSet(u.disk.kg, Entity(end)) !! CommittedIds(u.disk)
    ensures !StaysCovered(u)
  {
    Stays(u);
    var v;
    if lost in SourceSet(u.disk.kg, edge) {
      v := Unanchors(u, u, Entity(end));
    } else {
      v := RevealsGraphList(u, u, edge, end, lost);
    }
    RestoredOwnsTheSame(u, v);
    var w := EndpointStrands(u, v, edge, end, lost);
    RestoredOwnsTheSame(v, w);
    var t := StrandedIsUncovered(u, w, Entity(end), lost);
    LeadsToUncovered(u, t);
  }

  /** Where the edge's row hides the chunk and an endpoint is missing, the endpoint comes and
      goes and takes the row along: the graph list is what counts again. */
  lemma RevealsGraphList(s: Sys, u: Sys, edge: Obj, end: Name, lost: Chunk) returns (v: Sys)
    requires Leads(s, u) && AtRest(u) && AllSourced(u.disk.kg) && IsEnd(edge, end) && Entity(end) !in u.disk.kg.graph
    requires lost in Mentions(u.disk.kg, edge) && lost !in SourceSet(u.disk.kg, edge)
    ensures Leads(s, v) && Restored(u, v) && Entity(end) !in AnchorNames(v.disk) && AllSourced(v.disk.kg)
    ensures lost in SourceSet(v.disk.kg, edge)
  {
    assert edge in u.disk.kg.graph && lost in Ids(u.disk.kg.graph[edge]);
    v := CreatingUnanchors(s, u, Entity(end), {Entity(end), edge});
  }
}
