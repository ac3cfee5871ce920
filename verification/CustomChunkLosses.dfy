/** Runs that settle one operation against the conditions, and what becomes of them: neither
    condition on a commit or on the end of a rollback can be dropped. */
module CustomChunkLosses {
  import opened KgModel
  import opened DerivedPass
  import opened CustomChunks
  import opened MergeWrites
  import opened CustomChunkCoverage
  import opened CustomChunkFailures
  import opened CustomChunkExact

  /** The journal is still there: the same call resumes the operation. */
  lemma Resumes(s: Sys, u: Sys, m: Sys, c: Chunk, names: set<Obj>) returns (n: Sys)
    requires Works(s, m) && AtRest(u) && Unused(u, c) && Journaled(u, m, c, names) && m.run.None? && m.rollback.None?
    ensures Works(s, n) && Attempting(u, n, c, Begun, names, {}) && n.run.value.resume && n.disk.kg == m.disk.kg
  {
    ResumingDecision(u, m, c, names);
    Onward(s, m, Begin([c.text]));
    n := Step(m, Begin([c.text]));
  }

  lemma ResumingDecision(u: Sys, m: Sys, c: Chunk, names: set<Obj>)
    requires Unused(u, c) && Journaled(u, m, c, names)
    ensures Decide(m.doc, m.disk, [c.text]) == Go(ModeOn(u), true, [c], [c])
  {
    OneEntry(u.doc, c.text);
    assert forall d :: d in m.disk.texts && d != c ==> d in u.disk.texts && m.disk.texts[d] == u.disk.texts[d] by {
      assert forall d :: d in m.disk.texts && d != c ==> d in m.disk.texts - {c};
    }
    assert Committed(m.disk) <= Committed(u.disk);
    OneMissing(c, Committed(m.disk));
  }

  /** An attempt that extracts nothing more merges nothing. */
  lemma MergesNothing(s: Sys, u: Sys, m: Sys, c: Chunk, names: set<Obj>) returns (n: Sys)
    requires Works(s, m) && Attempting(u, m, c, Begun, names, {}) && m.run.value.resume
    ensures Works(s, n) && At(n, Merged) && n.run.value.resume && n.run.value.journal.names == names
    ensures StagedNow(n.disk, c, names, ModeOn(u)) && n.disk.kg == m.disk.kg && CommittedIds(n.disk) == CommittedIds(u.disk)
  {
    n := StagesAndExtracts(s, u, m, c, names, {});
    n := JournalsCandidates(s, u, n, c, names, {});
    assert names + {} == names;
    Onward(s, n, FinishMerge);
    n := Step(n, FinishMerge);
  }

  lemma ReachesCommit(s: Sys, u: Sys, m: Sys, c: Chunk, names: set<Obj>) returns (n: Sys)
    requires Works(s, m) && Attempting(u, m, c, Begun, names, {}) && m.run.value.resume
    ensures Works(s, n) && Enabled(n, Commit) && n.disk.kg == m.disk.kg && StagedIds(n.disk) == {c}
    ensures CommittedIds(n.disk) == CommittedIds(u.disk)
  {
    n := MergesNothing(s, u, m, c, names);
    Onward(s, n, UnionEntityRow);
    n := Step(n, UnionEntityRow);
    Onward(s, n, UnionRelationRow);
    n := Step(n, UnionRelationRow);
    assert Ids([c]) == {c};
  }

  lemma EdgeAlone(before: Kg, kg: Kg, edge: Obj, c: Chunk)
    requires Touches(before, kg, {edge}, c) && kg.graph == before.graph && AllSourced(before)
    requires edge.Relation? && edge !in before.graph && c in Row(kg, edge)
    ensures c in Mentions(kg, edge) && AllSourced(kg)
  {
  }

  lemma Unlanded(n: Sys, edge: Obj, c: Chunk)
    requires StagedIds(n.disk) == {c} && edge.Relation? && c in Mentions(n.disk.kg, edge)
    requires Entity(edge.lo) !in n.disk.kg.graph
    ensures !EndpointsLanded(n)
  {
    assert !EndLanded(n.disk, edge, c, Entity(edge.lo));
  }

  /** An attempt tracks an edge and dies; the resumed one extracts nothing and commits. */
  lemma EdgeLeftBehind(s: Sys) returns (n: Sys)
    requires AtRest(s) && AllSourced(s.disk.kg)
    ensures Works(s, n) && Enabled(n, Commit) && !EndpointsLanded(n)
    ensures AllSourced(n.disk.kg)
  {
    var c := UnusedExists(s);
    var lo := NewName(s.disk.kg, 0);
    var hi := NewName(s.disk.kg, lo);
    var edge := Relation(lo, hi);
    n := EdgeTracked(s, c, edge);
    n := Resumes(s, s, n, c, WithEnds(edge));
    n := ReachesCommit(s, s, n, c, WithEnds(edge));
    Unlanded(n, edge, c);
  }

  lemma EdgeTracked(s: Sys, c: Chunk, edge: Obj) returns (n: Sys)
    requires AtRest(s) && AllSourced(s.disk.kg) && Unused(s, c)
    requires edge.Relation? && Mergeable(edge) && edge !in s.disk.kg.graph
    ensures Works(s, n) && Journaled(s, n, c, WithEnds(edge)) && n.run.None? && n.rollback.None?
    ensures n.disk.kg.graph == s.disk.kg.graph && c in Mentions(n.disk.kg, edge) && AllSourced(n.disk.kg)
  {
    var m := BeginsWith(s, s, c, edge);
    assert c in Ids(Row(m.disk.kg, edge));
    EdgeAlone(s.disk.kg, m.disk.kg, edge, c);
    n := Dies(s, s, m, c, WithEnds(edge));
  }

  /** An attempt tracks an entity and dies; the operation is rolled back. */
  lemma OrphanLeftBehind(s: Sys) returns (n: Sys)
    requires AtRest(s)
    ensures Works(s, n) && Enabled(n, FinishRollback) && !OrphansStayAnchored(n)
  {
    var c := UnusedExists(s);
    var name := NewName(s.disk.kg, 0);
    n := OrphanTracked(s, c, Entity(name));
    n := RollsBack(s, s, n, c, {Entity(name)});
    assert Ids([c]) == {c} && CommittedIds(n.disk) == CommittedIds(s.disk);
  }

  lemma OrphanTracked(s: Sys, c: Chunk, o: Obj) returns (n: Sys)
    requires AtRest(s) && Unused(s, c) && o.Entity? && o !in s.disk.kg.graph && o !in s.disk.kg.tracking
    ensures Works(s, n) && Journaled(s, n, c, {o}) && n.run.None? && n.rollback.None?
    ensures var after := Derive(n.disk.kg, {o}, {c}, Rollback);
      o !in after.graph && Ids(Row(after, o)) == {c}
  {
    var m := ReachesMerge(s, s, c, {o});
    m := Tracks(s, s, m, c, {o}, o);
    n := Dies(s, s, m, c, {o});
    OrphanPassedOver(n.disk.kg, o, c);
  }

  lemma OrphanPassedOver(kg: Kg, o: Obj, c: Chunk)
    requires o !in kg.graph && Ids(Row(kg, o)) == {c}
    ensures var after := Derive(kg, {o}, {c}, Rollback);
      o !in after.graph && Ids(Row(after, o)) == {c}
  {
    PassKeepsSourced(kg, {o}, c);
  }

  /** The run goes wrong at one settling, and everything after it settles cleanly. */
  ghost predicate LosesCoverageAt(s: Sys, n: Sys, a: Action) {
    && Leads(s, n) && Enabled(n, a) && !SettlesCleanly(n, a)
    && exists trace :: Legal(Step(n, a), trace) && SettlesCleanlyThroughout(Step(n, a), trace)
         && !Covered(Replay(Step(n, a), trace))
  }

  lemma LeadingKeepsInv(s: Sys, n: Sys)
    requires Inv(s) && Leads(s, n)
    ensures Inv(n)
  {
    var trace :| Follows(s, trace, n) && SettlesCleanlyThroughout(s, trace);
    AnchorsCoverEveryRun(s, trace);
  }

  /** Neither condition can be dropped: from any document at rest there is a run that breaks
      one of them once, at a commit or at the end of a rollback, and so loses coverage. */
  lemma EveryDocumentCanLoseCoverage(s: Sys)
    requires Inv(s) && AtRest(s) && AllSourced(s.disk.kg)
    ensures exists n :: LosesCoverageAt(s, n, Commit)
    ensures exists n :: LosesCoverageAt(s, n, FinishRollback)
  {
    Stays(s);
    var n := EdgeLeftBehind(s);
    LeadsAndWorks(s, s, n);
    LeadingKeepsInv(s, n);
    CommitIsSafeIff(n);
    assert LosesCoverageAt(s, n, Commit);
    var m := OrphanLeftBehind(s);
    LeadsAndWorks(s, s, m);
    LeadingKeepsInv(s, m);
    FinishIsSafeIff(m);
    assert LosesCoverageAt(s, m, FinishRollback);
  }

  const EMPTY := Sys(1, Disk(Kg(map[], map[]), map[], None, None, false, None), None, None, Log(multiset{}, {}, {}, 0))

  lemma WrongTurn(s: Sys, n: Sys, a: Action)
    requires LosesCoverageAt(s, n, a)
    ensures exists trace :: Legal(s, trace) && !Covered(Replay(s, trace))
  {
    var before :| Follows(s, before, n) && SettlesCleanlyThroughout(s, before);
    var after :| Legal(Step(n, a), after) && SettlesCleanlyThroughout(Step(n, a), after)
      && !Covered(Replay(Step(n, a), after));
    Joined(s, before, n, a, after);
    Exhibits(s, before + [a] + after, Replay(Step(n, a), after));
  }

  lemma Exhibits(s: Sys, trace: seq<Action>, t: Sys)
    requires Follows(s, trace, t) && !Covered(t)
    ensures exists run :: Legal(s, run) && !Covered(Replay(s, run))
  {
  }

  lemma Joined(s: Sys, before: seq<Action>, n: Sys, a: Action, after: seq<Action>)
    requires Follows(s, before, n) && Enabled(n, a) && Legal(Step(n, a), after)
    ensures Follows(s, before + [a] + after, Replay(Step(n, a), after))
  {
    Extend(s, before, n, a);
    Append(s, before + [a], after);
  }

  /** So it is on an empty store: a run of the program ends with a graph object of the
      document that neither an anchor row nor the journal names. */
  lemma CoverageCanFail()
    ensures Inv(EMPTY)
    ensures exists trace :: Legal(EMPTY, trace) && !Covered(Replay(EMPTY, trace))
  {
    assert forall o :: Mentions(EMPTY.disk.kg, o) == {};
    UntouchedStoreSatisfiesInv(EMPTY);
    EveryDocumentCanLoseCoverage(EMPTY);
    var n :| LosesCoverageAt(EMPTY, n, Commit);
    WrongTurn(EMPTY, n, Commit);
  }
}
