/** What happens to the derived pass when it is cut and run again from what landed. */
module Resume {
  import opened KgModel
  import opened DerivedPass

  /** Re-selection works through the graph list: a survivor whose tracking shrinks either
      still names a purged chunk there, or already carries its final list. */
  ghost predicate Resumable(kg: Kg, candidates: set<Obj>, gone: set<Chunk>) {
    Reselected(kg, Rebuilds(kg, candidates, gone, BestEffort),
      Fallen(kg, Drops(kg, candidates, gone, BestEffort)), gone)
  }

  lemma UncappedIsResumable(kg: Kg, candidates: set<Obj>, gone: set<Chunk>)
    requires Uncapped(kg)
    ensures Resumable(kg, candidates, gone)
  {
    var rebuilds := Rebuilds(kg, candidates, gone, BestEffort);
    forall o | o in rebuilds
      ensures !(Ids(kg.graph[o]) !! gone)
    {
      assert SourceSet(kg, o) == Ids(kg.graph[o]);
    }
  }

  /** Some of the tracking writes landed; nothing was removed and the graph is untouched. */
  ghost predicate TrackingCut(kg: Kg, part: Kg, candidates: set<Obj>, gone: set<Chunk>) {
    var rebuilds := Rebuilds(kg, candidates, gone, BestEffort);
    && part.graph == kg.graph
    && kg.tracking.Keys <= part.tracking.Keys <= kg.tracking.Keys + rebuilds.Keys
    && forall o :: o in part.tracking ==>
        || (o in kg.tracking && part.tracking[o] == kg.tracking[o])
        || (o in rebuilds && part.tracking[o] == rebuilds[o])
  }

  /** The removals landed as a whole; some of the rebuilt lists landed. */
  ghost predicate RebuildCut(kg: Kg, part: Kg, candidates: set<Obj>, gone: set<Chunk>) {
    var rebuilds := Rebuilds(kg, candidates, gone, BestEffort);
    var dropped := DropObjects(ReduceTracking(kg, rebuilds), Drops(kg, candidates, gone, BestEffort));
    && part.tracking == dropped.tracking
    && part.graph.Keys == dropped.graph.Keys
    && forall o :: o in part.graph ==>
        part.graph[o] == kg.graph[o] || (o in rebuilds && part.graph[o] == rebuilds[o])
  }

  /** The value one pass leaves, with the removed objects given as a set. */
  ghost function Finished(kg: Kg, fallen: set<Obj>, untracked: set<Obj>, rebuilds: map<Obj, seq<Chunk>>): Kg {
    Kg(map o | o in kg.graph && o !in fallen :: if o in rebuilds then rebuilds[o] else kg.graph[o],
       (kg.tracking + rebuilds) - untracked)
  }

  lemma ApplyIsFinished(kg: Kg, dropped: set<Obj>, rebuilds: map<Obj, seq<Chunk>>)
    ensures Apply(kg, dropped, rebuilds) == Finished(kg, Fallen(kg, dropped), dropped + Fallen(kg, dropped), rebuilds)
  {
    assert Fallen(ReduceTracking(kg, rebuilds), dropped) == Fallen(kg, dropped);
    assert Apply(kg, dropped, rebuilds).graph
        == Finished(kg, Fallen(kg, dropped), dropped + Fallen(kg, dropped), rebuilds).graph;
  }

  /** A reduced object is kept, or rebuilt to the same list; everything else is judged as
      before. */
  lemma VerdictAfterTrackingCut(kg: Kg, part: Kg, candidates: set<Obj>, gone: set<Chunk>, o: Obj)
    requires TrackingCut(kg, part, candidates, gone)
    requires o in candidates && o in kg.graph
    ensures Classify(part, o, gone, BestEffort) == Classify(kg, o, gone, BestEffort)
      || KeptWithFinalTracking(kg, part, o, gone)
  {
    var rebuilds := Rebuilds(kg, candidates, gone, BestEffort);
    if o in rebuilds && o in part.tracking && part.tracking[o] == rebuilds[o] {
      SubtractTwice(Sources(kg, o), gone);
      assert Sources(part, o) == rebuilds[o];
    } else {
      assert Sources(part, o) == Sources(kg, o);
    }
  }

  ghost predicate KeptWithFinalTracking(kg: Kg, part: Kg, o: Obj, gone: set<Chunk>) {
    && o in kg.graph
    && Classify(kg, o, gone, BestEffort).Rebuild?
    && Classify(part, o, gone, BestEffort).Keep?
    && o in part.tracking
    && part.tracking[o] == Classify(kg, o, gone, BestEffort).remaining
    && Ids(kg.graph[o]) !! gone
  }

  lemma VerdictsAfterTrackingCut(kg: Kg, part: Kg, candidates: set<Obj>, gone: set<Chunk>)
    requires TrackingCut(kg, part, candidates, gone)
    ensures var before := Verdicts(kg, candidates, gone, BestEffort);
      var now := Verdicts(part, candidates, gone, BestEffort);
      && now.Keys == before.Keys
      && (forall o {:trigger now[o]} :: o in before && now[o] != before[o] ==>
            && now[o].Keep? && before[o].Rebuild?
            && o in kg.graph && Ids(kg.graph[o]) !! gone
            && o in part.tracking && part.tracking[o] == before[o].remaining)
  {
    forall o | o in candidates && o in kg.graph
      ensures Classify(part, o, gone, BestEffort) == Classify(kg, o, gone, BestEffort)
        || KeptWithFinalTracking(kg, part, o, gone)
    {
      VerdictAfterTrackingCut(kg, part, candidates, gone, o);
    }
  }

  /** The new plan drops the same objects; a rebuild it no longer contains has its final
      tracking row already and a graph list that names nothing purged. */
  ghost predicate NarrowerPlan(kg: Kg, part: Kg, before: map<Obj, seq<Chunk>>, now: map<Obj, seq<Chunk>>, gone: set<Chunk>) {
    && now.Keys <= before.Keys <= kg.graph.Keys
    && (forall o :: o in now ==> now[o] == before[o])
    && (forall o :: o in before && o !in now ==>
          o in part.tracking && part.tracking[o] == before[o] && Ids(kg.graph[o]) !! gone)
  }

  lemma PlanFromVerdicts(kg: Kg, part: Kg, before: map<Obj, Verdict>, now: map<Obj, Verdict>, gone: set<Chunk>)
    requires now.Keys == before.Keys <= kg.graph.Keys
    requires forall o {:trigger now[o]} :: o in before && now[o] != before[o] ==>
      && now[o].Keep? && before[o].Rebuild? && Ids(kg.graph[o]) !! gone
      && o in part.tracking && part.tracking[o] == before[o].remaining
    ensures DropsOf(now) == DropsOf(before)
    ensures NarrowerPlan(kg, part, RebuildsOf(before), RebuildsOf(now), gone)
  {
    forall o | o in before
      ensures now[o].Drop? <==> before[o].Drop?
      ensures now[o].Rebuild? ==> before[o] == now[o]
      ensures before[o].Rebuild? && !now[o].Rebuild? ==>
        o in part.tracking && part.tracking[o] == before[o].remaining && Ids(kg.graph[o]) !! gone
    {
      assert now[o] == now[o];
    }
  }

  lemma RerunAfterTrackingCut(kg: Kg, part: Kg, candidates: set<Obj>, gone: set<Chunk>)
    requires TrackingCut(kg, part, candidates, gone)
    requires Resumable(kg, candidates, gone)
    ensures Derive(part, candidates, gone, BestEffort) == Derive(kg, candidates, gone, BestEffort)
    ensures Resumable(part, candidates, gone)
  {
    VerdictsAfterTrackingCut(kg, part, candidates, gone);
    PlanFromVerdicts(kg, part, Verdicts(kg, candidates, gone, BestEffort), Verdicts(part, candidates, gone, BestEffort), gone);
    FinishAfterTrackingCut(kg, part, Drops(kg, candidates, gone, BestEffort),
      Rebuilds(kg, candidates, gone, BestEffort), Rebuilds(part, candidates, gone, BestEffort), gone);
  }

  /** Survivors that a plan rebuilds are re-selected through the graph list, or are final. */
  ghost predicate Reselected(kg: Kg, rebuilds: map<Obj, seq<Chunk>>, fallen: set<Obj>, gone: set<Chunk>) {
    forall o {:trigger o in rebuilds} :: o in rebuilds && o in kg.graph && o !in fallen && Ids(kg.graph[o]) !! gone ==>
      kg.graph[o] == rebuilds[o]
  }

  lemma FinishAfterTrackingCut(kg: Kg, part: Kg, dropped: set<Obj>, before: map<Obj, seq<Chunk>>,
                               now: map<Obj, seq<Chunk>>, gone: set<Chunk>)
    requires part.graph == kg.graph
    requires kg.tracking.Keys <= part.tracking.Keys <= kg.tracking.Keys + before.Keys
    requires forall o :: o in part.tracking ==>
      || (o in kg.tracking && part.tracking[o] == kg.tracking[o])
      || (o in before && part.tracking[o] == before[o])
    requires NarrowerPlan(kg, part, before, now, gone)
    requires Reselected(kg, before, Fallen(kg, dropped), gone)
    ensures Apply(part, dropped, now) == Apply(kg, dropped, before)
    ensures Reselected(part, now, Fallen(part, dropped), gone)
  {
    var fallen := Fallen(kg, dropped);
    assert Fallen(part, dropped) == fallen;
    ApplyIsFinished(kg, dropped, before);
    ApplyIsFinished(part, dropped, now);
    FinishedAfterTrackingCut(kg, part, fallen, dropped + fallen, before, now, gone);
  }

  lemma FinishedAfterTrackingCut(kg: Kg, part: Kg, fallen: set<Obj>, untracked: set<Obj>,
                                 before: map<Obj, seq<Chunk>>, now: map<Obj, seq<Chunk>>, gone: set<Chunk>)
    requires part.graph == kg.graph
    requires kg.tracking.Keys <= part.tracking.Keys <= kg.tracking.Keys + before.Keys
    requires forall o :: o in part.tracking ==>
      || (o in kg.tracking && part.tracking[o] == kg.tracking[o])
      || (o in before && part.tracking[o] == before[o])
    requires NarrowerPlan(kg, part, before, now, gone)
    requires Reselected(kg, before, fallen, gone)
    ensures Finished(part, fallen, untracked, now) == Finished(kg, fallen, untracked, before)
  {
    assert kg.tracking + before == part.tracking + now;
    FinishedAgree(kg, part, fallen, untracked, fallen, untracked, before, now);
  }

  lemma FinishedAgree(a: Kg, b: Kg, fa: set<Obj>, ua: set<Obj>, fb: set<Obj>, ub: set<Obj>,
                      ra: map<Obj, seq<Chunk>>, rb: map<Obj, seq<Chunk>>)
    requires a.graph.Keys - fa == b.graph.Keys - fb
    requires forall o :: o in a.graph.Keys - fa ==>
      (if o in ra then ra[o] else a.graph[o]) == (if o in rb then rb[o] else b.graph[o])
    requires (a.tracking + ra) - ua == (b.tracking + rb) - ub
    ensures Finished(a, fa, ua, ra) == Finished(b, fb, ub, rb)
  {
    var x, y := Finished(a, fa, ua, ra), Finished(b, fb, ub, rb);
    assert x.graph.Keys == a.graph.Keys - fa;
    assert y.graph.Keys == b.graph.Keys - fb;
    forall o | o in x.graph
      ensures x.graph[o] == y.graph[o]
    {
      assert o in a.graph.Keys - fa;
    }
    assert x.graph == y.graph;
  }

  lemma PlanAfterRebuildCut(kg: Kg, part: Kg, candidates: set<Obj>, gone: set<Chunk>)
    requires RebuildCut(kg, part, candidates, gone)
    requires Resumable(kg, candidates, gone)
    ensures Drops(part, candidates, gone, BestEffort) == {}
    ensures var before := Rebuilds(kg, candidates, gone, BestEffort);
      var now := Rebuilds(part, candidates, gone, BestEffort);
      && now.Keys <= before.Keys * part.graph.Keys
      && (forall o :: o in now ==> now[o] == before[o])
      && (forall o :: o in before && o in part.graph && o !in now ==> part.graph[o] == before[o])
  {
    var rebuilds := Rebuilds(kg, candidates, gone, BestEffort);
    forall o | o in candidates && o in part.graph
      ensures if o in rebuilds
        then Classify(part, o, gone, BestEffort) == Rebuild(rebuilds[o])
             || (Classify(part, o, gone, BestEffort).Keep? && part.graph[o] == rebuilds[o])
        else Classify(part, o, gone, BestEffort).Keep?
    {
      VerdictAfterRebuildCut(kg, part, candidates, gone, o);
    }
    assert rebuilds.Keys * part.graph.Keys <= Verdicts(part, candidates, gone, BestEffort).Keys;
    NothingLeftToDrop(part, rebuilds, Verdicts(part, candidates, gone, BestEffort));
  }

  lemma NothingLeftToDrop(part: Kg, before: map<Obj, seq<Chunk>>, now: map<Obj, Verdict>)
    requires before.Keys * part.graph.Keys <= now.Keys <= part.graph.Keys
    requires forall o :: o in now ==>
      if o in before
      then now[o] == Rebuild(before[o]) || (now[o].Keep? && part.graph[o] == before[o])
      else now[o].Keep?
    ensures DropsOf(now) == {}
    ensures RebuildsOf(now).Keys <= before.Keys * part.graph.Keys
    ensures forall o :: o in RebuildsOf(now) ==> RebuildsOf(now)[o] == before[o]
    ensures forall o :: o in before && o in part.graph && o !in RebuildsOf(now) ==> part.graph[o] == before[o]
  {
  }

  lemma VerdictAfterRebuildCut(kg: Kg, part: Kg, candidates: set<Obj>, gone: set<Chunk>, o: Obj)
    requires RebuildCut(kg, part, candidates, gone)
    requires Resumable(kg, candidates, gone)
    requires o in candidates && o in part.graph
    ensures var rebuilds := Rebuilds(kg, candidates, gone, BestEffort);
      if o in rebuilds
      then Classify(part, o, gone, BestEffort) == Rebuild(rebuilds[o])
           || (Classify(part, o, gone, BestEffort).Keep? && part.graph[o] == rebuilds[o])
      else Classify(part, o, gone, BestEffort).Keep?
  {
    assert o in kg.graph && o !in Fallen(kg, Drops(kg, candidates, gone, BestEffort));
    assert !Classify(kg, o, gone, BestEffort).Drop?;
    VerdictOfSurvivor(kg, part, gone, o);
  }

  lemma VerdictOfSurvivor(kg: Kg, part: Kg, gone: set<Chunk>, o: Obj)
    requires o in kg.graph && o in part.graph && !Classify(kg, o, gone, BestEffort).Drop?
    requires Classify(kg, o, gone, BestEffort).Rebuild? ==>
      var remaining := Classify(kg, o, gone, BestEffort).remaining;
      && o in part.tracking && part.tracking[o] == remaining
      && (part.graph[o] == kg.graph[o] || part.graph[o] == remaining)
      && (Ids(kg.graph[o]) !! gone ==> kg.graph[o] == remaining)
    requires Classify(kg, o, gone, BestEffort).Keep? ==>
      && (o in part.tracking <==> o in kg.tracking)
      && (o in kg.tracking ==> part.tracking[o] == kg.tracking[o])
      && part.graph[o] == kg.graph[o]
    ensures var verdict, now := Classify(kg, o, gone, BestEffort), Classify(part, o, gone, BestEffort);
      if verdict.Rebuild?
      then now == verdict || (now.Keep? && part.graph[o] == verdict.remaining)
      else now.Keep?
  {
    var verdict := Classify(kg, o, gone, BestEffort);
    if verdict.Rebuild? {
      SubtractTwice(Sources(kg, o), gone);
      assert Sources(part, o) == verdict.remaining;
    } else {
      assert Sources(part, o) == Sources(kg, o);
    }
  }

  lemma RerunAfterRebuildCut(kg: Kg, part: Kg, candidates: set<Obj>, gone: set<Chunk>)
    requires RebuildCut(kg, part, candidates, gone)
    requires Resumable(kg, candidates, gone)
    ensures Derive(part, candidates, gone, BestEffort) == Derive(kg, candidates, gone, BestEffort)
    ensures Resumable(part, candidates, gone)
  {
    PlanAfterRebuildCut(kg, part, candidates, gone);
    FinishAfterRebuildCut(kg, part, Drops(kg, candidates, gone, BestEffort),
      Rebuilds(kg, candidates, gone, BestEffort), Rebuilds(part, candidates, gone, BestEffort), gone);
  }

  lemma FinishAfterRebuildCut(kg: Kg, part: Kg, dropped: set<Obj>, before: map<Obj, seq<Chunk>>,
                              now: map<Obj, seq<Chunk>>, gone: set<Chunk>)
    requires part.graph.Keys == kg.graph.Keys - Fallen(kg, dropped)
    requires part.tracking == (kg.tracking + before) - (dropped + Fallen(kg, dropped))
    requires forall o :: o in part.graph ==>
      part.graph[o] == kg.graph[o] || (o in before && part.graph[o] == before[o])
    requires now.Keys <= before.Keys * part.graph.Keys
    requires forall o :: o in now ==> now[o] == before[o]
    requires forall o :: o in before && o in part.graph && o !in now ==> part.graph[o] == before[o]
    requires Reselected(kg, before, Fallen(kg, dropped), gone)
    ensures Apply(part, {}, now) == Apply(kg, dropped, before)
    ensures Reselected(part, now, Fallen(part, {}), gone)
  {
    var fallen := Fallen(kg, dropped);
    assert Fallen(part, {}) == {};
    ApplyIsFinished(kg, dropped, before);
    ApplyIsFinished(part, {}, now);
    FinishedAfterRebuildCut(kg, part, fallen, dropped + fallen, before, now);
  }

  lemma FinishedAfterRebuildCut(kg: Kg, part: Kg, fallen: set<Obj>, untracked: set<Obj>,
                                before: map<Obj, seq<Chunk>>, now: map<Obj, seq<Chunk>>)
    requires fallen <= untracked
    requires part.graph.Keys == kg.graph.Keys - fallen
    requires part.tracking == (kg.tracking + before) - untracked
    requires forall o :: o in part.graph ==>
      part.graph[o] == kg.graph[o] || (o in before && part.graph[o] == before[o])
    requires now.Keys <= before.Keys * part.graph.Keys
    requires forall o :: o in now ==> now[o] == before[o] && o !in untracked
    requires forall o :: o in before && o in part.graph && o !in now ==> part.graph[o] == before[o]
    ensures Finished(part, {}, {}, now) == Finished(kg, fallen, untracked, before)
  {
    assert part.tracking + now == part.tracking;
    FinishedAgree(kg, part, fallen, untracked, {}, {}, before, now);
  }

  /** A survivor that nothing re-selects keeps its stale list for good. */
  lemma UnselectedSurvivorStaysStale(kg: Kg, candidates: set<Obj>, gone: set<Chunk>, o: Obj)
    requires o in Rebuilds(kg, candidates, gone, BestEffort)
    requires o !in Fallen(kg, Drops(kg, candidates, gone, BestEffort))
    requires Ids(kg.graph[o]) !! gone
    ensures var part := ReduceTracking(kg, Rebuilds(kg, candidates, gone, BestEffort));
      var again, whole := Derive(part, candidates, gone, BestEffort).graph, Derive(kg, candidates, gone, BestEffort).graph;
      && o in whole && whole[o] == Rebuilds(kg, candidates, gone, BestEffort)[o]
      && (o in again ==> again[o] == kg.graph[o])
  {
    var rebuilds := Rebuilds(kg, candidates, gone, BestEffort);
    var part := ReduceTracking(kg, rebuilds);
    SubtractTwice(Sources(kg, o), gone);
    assert Sources(part, o) == rebuilds[o];
    assert Verdicts(part, candidates, gone, BestEffort)[o].Keep?;
    ApplyIsFinished(kg, Drops(kg, candidates, gone, BestEffort), rebuilds);
    ApplyIsFinished(part, Drops(part, candidates, gone, BestEffort), Rebuilds(part, candidates, gone, BestEffort));
  }

  /** Then the graph itself comes out different. */
  lemma UnresumableCutDiverges(kg: Kg, candidates: set<Obj>, gone: set<Chunk>)
    requires !Resumable(kg, candidates, gone)
    ensures Derive(ReduceTracking(kg, Rebuilds(kg, candidates, gone, BestEffort)), candidates, gone, BestEffort).graph
         != Derive(kg, candidates, gone, BestEffort).graph
  {
    var rebuilds := Rebuilds(kg, candidates, gone, BestEffort);
    var fallen := Fallen(kg, Drops(kg, candidates, gone, BestEffort));
    var o :| o in rebuilds && o in kg.graph && o !in fallen && Ids(kg.graph[o]) !! gone && kg.graph[o] != rebuilds[o];
    UnselectedSurvivorStaysStale(kg, candidates, gone, o);
  }

  /** A cut right after the tracking writes is repaired by a rerun exactly when the graph
      lists still re-select every survivor whose tracking shrank. */
  lemma CutConvergesIffResumable(kg: Kg, candidates: set<Obj>, gone: set<Chunk>)
    ensures
      var part := ReduceTracking(kg, Rebuilds(kg, candidates, gone, BestEffort));
      Derive(part, candidates, gone, BestEffort) == Derive(kg, candidates, gone, BestEffort)
      <==> Resumable(kg, candidates, gone)
  {
    if Resumable(kg, candidates, gone) {
      RerunAfterTrackingCut(kg, ReduceTracking(kg, Rebuilds(kg, candidates, gone, BestEffort)), candidates, gone);
    } else {
      UnresumableCutDiverges(kg, candidates, gone);
    }
  }

  /** A capped graph list is where it fails: tracking names a purged chunk the graph list
      has already lost, so after the cut nothing selects the entity again. */
  lemma CappedListDoesNotConverge()
    ensures
      var kept, purged := PipelineChunk(1, 0), PipelineChunk(2, 0);
      var other := PipelineChunk(1, 1);
      var kg := Kg(map[Entity(0) := [kept]], map[Entity(0) := [kept, purged, other]]);
      !Resumable(kg, {Entity(0)}, {purged})
  {
    var kept, purged, other := PipelineChunk(1, 0), PipelineChunk(2, 0), PipelineChunk(1, 1);
    var kg := Kg(map[Entity(0) := [kept]], map[Entity(0) := [kept, purged, other]]);
    var o := Entity(0);
    var remaining := Subtract(Sources(kg, o), {purged});
    assert Sources(kg, o)[1] == purged && Sources(kg, o)[2] == other;
    assert other in Ids(remaining) && purged !in Ids(remaining);
    EmptyIds(remaining);
    assert Classify(kg, o, {purged}, BestEffort) == Rebuild(remaining);
    var rebuilds, dropped := Rebuilds(kg, {o}, {purged}, BestEffort), Drops(kg, {o}, {purged}, BestEffort);
    assert o in rebuilds && rebuilds[o] == remaining && dropped == {};
    assert other !in Ids(kg.graph[o]) && purged !in Ids(kg.graph[o]);
    assert o !in Fallen(kg, dropped) && kg.graph[o] != rebuilds[o];
  }
}
