/** Steps 1-6 of the purge primitive: classify every candidate, shrink its tracking row,
    drop what lost its last source together with the edges of dropped entities, and
    rebuild what survives. Specified on values here; the imperative form is in Purge. */
module DerivedPass {
  import opened KgModel

  datatype Verdict = Keep | Drop | Rebuild(remaining: seq<Chunk>)

  function Classify(kg: Kg, o: Obj, gone: set<Chunk>, policy: Policy): Verdict {
    var existing := Sources(kg, o);
    if existing == [] then Drop
    else
      var remaining := Subtract(existing, gone);
      if remaining == [] then Drop
      else if
        || remaining != existing
        || (o in kg.graph && !(Ids(kg.graph[o]) !! gone))
        || policy.Rollback?
      then Rebuild(remaining)
      else Keep
  }

  /** Candidates are a superset: one that is absent from the graph is a no-op. */
  function Verdicts(kg: Kg, candidates: set<Obj>, gone: set<Chunk>, policy: Policy): map<Obj, Verdict> {
    map o | o in candidates && o in kg.graph :: Classify(kg, o, gone, policy)
  }

  function DropsOf(verdicts: map<Obj, Verdict>): set<Obj> {
    set o | o in verdicts && verdicts[o].Drop?
  }

  function RebuildsOf(verdicts: map<Obj, Verdict>): map<Obj, seq<Chunk>> {
    map o | o in verdicts && verdicts[o].Rebuild? :: verdicts[o].remaining
  }

  function Drops(kg: Kg, candidates: set<Obj>, gone: set<Chunk>, policy: Policy): set<Obj> {
    DropsOf(Verdicts(kg, candidates, gone, policy))
  }

  function Rebuilds(kg: Kg, candidates: set<Obj>, gone: set<Chunk>, policy: Policy): map<Obj, seq<Chunk>> {
    RebuildsOf(Verdicts(kg, candidates, gone, policy))
  }

  lemma PlanOfOneMore(before: map<Obj, Verdict>, o: Obj, verdict: Verdict)
    requires o !in before
    ensures DropsOf(before[o := verdict]) == DropsOf(before) + (if verdict.Drop? then {o} else {})
    ensures RebuildsOf(before[o := verdict])
         == if verdict.Rebuild? then RebuildsOf(before)[o := verdict.remaining] else RebuildsOf(before)
  {
  }

  /** One more candidate adds its own verdict and nothing else. */
  lemma PlanGrows(kg: Kg, seen: set<Obj>, o: Obj, gone: set<Chunk>, policy: Policy)
    requires o !in seen
    ensures o !in kg.graph ==> Verdicts(kg, seen + {o}, gone, policy) == Verdicts(kg, seen, gone, policy)
    ensures o in kg.graph ==>
      var verdict := Classify(kg, o, gone, policy);
      && Drops(kg, seen + {o}, gone, policy) == Drops(kg, seen, gone, policy) + (if verdict.Drop? then {o} else {})
      && Rebuilds(kg, seen + {o}, gone, policy)
         == if verdict.Rebuild? then Rebuilds(kg, seen, gone, policy)[o := verdict.remaining]
            else Rebuilds(kg, seen, gone, policy)
  {
    if o in kg.graph {
      var before, verdict := Verdicts(kg, seen, gone, policy), Classify(kg, o, gone, policy);
      assert Verdicts(kg, seen + {o}, gone, policy) == before[o := verdict];
      PlanOfOneMore(before, o, verdict);
    }
  }

  predicate Incident(o: Obj, dropped: set<Obj>) {
    o.Relation? && (Entity(o.lo) in dropped || Entity(o.hi) in dropped)
  }

  /** What leaves the graph: the dropped objects and the residual edges of dropped entities. */
  function Fallen(kg: Kg, dropped: set<Obj>): set<Obj> {
    set o | o in kg.graph && (o in dropped || Incident(o, dropped))
  }

  /** Removing the dropped relations first and collecting the edges of dropped entities from
      what is left removes the same objects. */
  lemma FallenInTwoSteps(kg: Kg, dropped: set<Obj>, relations: set<Obj>, residual: set<Obj>)
    requires relations == set o | o in dropped && o.Relation?
    requires residual == set e | e in kg.graph - relations && Incident(e, dropped - relations)
    ensures DropObjects(kg, dropped) == Kg(kg.graph - (dropped + residual), kg.tracking - (dropped + residual))
  {
    assert forall e :: Incident(e, dropped - relations) <==> Incident(e, dropped);
    assert dropped + Fallen(kg, dropped) == dropped + residual;
    assert kg.graph - Fallen(kg, dropped) == kg.graph - (dropped + residual);
  }

  function ReduceTracking(kg: Kg, rebuilds: map<Obj, seq<Chunk>>): Kg {
    kg.(tracking := kg.tracking + rebuilds)
  }

  /** Removing an entity takes its edges with it; their tracking rows go too. */
  function DropObjects(kg: Kg, dropped: set<Obj>): Kg {
    Kg(kg.graph - Fallen(kg, dropped), kg.tracking - (dropped + Fallen(kg, dropped)))
  }

  /** An object that is no longer in the graph is skipped. */
  function RebuildGraph(kg: Kg, rebuilds: map<Obj, seq<Chunk>>): Kg {
    kg.(graph := map o | o in kg.graph :: if o in rebuilds then rebuilds[o] else kg.graph[o])
  }

  function Apply(kg: Kg, dropped: set<Obj>, rebuilds: map<Obj, seq<Chunk>>): Kg {
    RebuildGraph(DropObjects(ReduceTracking(kg, rebuilds), dropped), rebuilds)
  }

  function Derive(kg: Kg, candidates: set<Obj>, gone: set<Chunk>, policy: Policy): Kg {
    Apply(kg, Drops(kg, candidates, gone, policy), Rebuilds(kg, candidates, gone, policy))
  }

  /** The pass after its first writes: 1 nothing, 2 tracking, 3 removals, 4 and up all. */
  function Partway(kg: Kg, candidates: set<Obj>, gone: set<Chunk>, policy: Policy, pc: nat): Kg {
    var rebuilds := Rebuilds(kg, candidates, gone, policy);
    if pc <= 1 then kg
    else if pc == 2 then ReduceTracking(kg, rebuilds)
    else if pc == 3 then DropObjects(ReduceTracking(kg, rebuilds), Drops(kg, candidates, gone, policy))
    else Derive(kg, candidates, gone, policy)
  }

  // ----- precision and closure -----

  /** No object with a source outside `gone` is removed, whether it was classified or
      went as a residual edge of a removed entity. */
  lemma OnlyUnsupportedObjectsGo(kg: Kg, candidates: set<Obj>, gone: set<Chunk>, policy: Policy, o: Obj)
    requires EdgesSupportedOutside(kg, gone)
    requires o in kg.graph && o !in Derive(kg, candidates, gone, policy).graph
    ensures SourceSet(kg, o) <= gone
  {
    var dropped := Drops(kg, candidates, gone, policy);
    assert o in Fallen(ReduceTracking(kg, Rebuilds(kg, candidates, gone, policy)), dropped);
    var witnessed := if o in dropped then o
      else if Entity(o.lo) in dropped then Entity(o.lo) else Entity(o.hi);
    var existing := Sources(kg, witnessed);
    assert existing == [] || Subtract(existing, gone) == [];
    EmptyIds(Subtract(existing, gone));
    forall c | c in SourceSet(kg, witnessed)
      ensures c in gone
    {
      assert c in gone || c in Ids(existing) - gone;
    }
    assert SourceSet(kg, o) - gone <= SourceSet(kg, witnessed);
  }

  /** What one pass leaves of each object's sources, and which objects it removes. */
  lemma DeriveIsExact(kg: Kg, candidates: set<Obj>, gone: set<Chunk>, policy: Policy)
    requires TrackingCovers(kg) && EdgesSupportedOutside(kg, gone) && SourceCovered(kg, candidates, gone)
    ensures var after := Derive(kg, candidates, gone, policy);
      && (forall o :: o in kg.graph && SourceSet(kg, o) != {} ==>
            (o in after.graph <==> !(SourceSet(kg, o) <= gone)))
      && (forall o :: o in after.graph ==>
            && o in kg.graph
            && SourceSet(after, o) == SourceSet(kg, o) - gone
            && Sources(after, o) == Subtract(Sources(kg, o), gone)
            && Ids(after.graph[o]) <= SourceSet(after, o)
            && (after.graph[o] == kg.graph[o] || after.graph[o] == Sources(after, o)))
  {
    var after := Derive(kg, candidates, gone, policy);
    forall o | o in kg.graph && SourceSet(kg, o) != {}
      ensures o in after.graph <==> !(SourceSet(kg, o) <= gone)
    {
      EmptyIds(Subtract(Sources(kg, o), gone));
      EmptyIds(Sources(kg, o));
      if o !in after.graph {
        OnlyUnsupportedObjectsGo(kg, candidates, gone, policy, o);
      } else {
        assert o !in Fallen(kg, Drops(kg, candidates, gone, policy));
      }
    }
    forall o | o in after.graph
      ensures o in kg.graph
      ensures SourceSet(after, o) == SourceSet(kg, o) - gone && Sources(after, o) == Subtract(Sources(kg, o), gone)
      ensures after.graph[o] == kg.graph[o] || after.graph[o] == Sources(after, o)
      ensures Ids(after.graph[o]) <= SourceSet(after, o)
    {
      SurvivorSources(kg, candidates, gone, policy, o);
    }
  }

  lemma SurvivorSources(kg: Kg, candidates: set<Obj>, gone: set<Chunk>, policy: Policy, o: Obj)
    requires TrackingCovers(kg) && SourceCovered(kg, candidates, gone)
    requires o in Derive(kg, candidates, gone, policy).graph
    ensures o in kg.graph
    ensures var after := Derive(kg, candidates, gone, policy);
      && SourceSet(after, o) == SourceSet(kg, o) - gone
      && Sources(after, o) == Subtract(Sources(kg, o), gone)
      && Ids(after.graph[o]) <= SourceSet(after, o)
      && (after.graph[o] == kg.graph[o] || after.graph[o] == Sources(after, o))
  {
    var after := Derive(kg, candidates, gone, policy);
    var rebuilds := Rebuilds(kg, candidates, gone, policy);
    assert o !in Fallen(kg, Drops(kg, candidates, gone, policy));
    if o in rebuilds {
      assert after.tracking[o] == rebuilds[o] == after.graph[o];
    } else {
      assert o in after.tracking <==> o in kg.tracking;
      assert Sources(after, o) == Sources(kg, o);
      if o in candidates {
        assert Classify(kg, o, gone, policy).Keep?;
      }
      assert SourceSet(kg, o) !! gone;
    }
  }

  /** What it does not classify the pass leaves alone, unless it goes as an edge of a removed
      entity; and no removed object keeps a tracking row. */
  lemma DeriveTouchesOnlyCandidates(kg: Kg, candidates: set<Obj>, gone: set<Chunk>, policy: Policy)
    ensures var after := Derive(kg, candidates, gone, policy);
      && (forall o :: o in kg.graph && o !in after.graph ==> o !in after.tracking)
      && (forall o :: o in kg.graph && o !in candidates && o !in after.graph ==>
            Incident(o, candidates * (kg.graph.Keys - after.graph.Keys)))
      && (forall o :: o in after.graph && o !in candidates ==>
            && after.graph[o] == kg.graph[o] && (o in after.tracking <==> o in kg.tracking)
            && (o in after.tracking ==> after.tracking[o] == kg.tracking[o]))
      && (forall o :: o !in kg.graph ==>
            && o !in after.graph && (o in after.tracking <==> o in kg.tracking)
            && (o in after.tracking ==> after.tracking[o] == kg.tracking[o]))
  {
    var after, dropped := Derive(kg, candidates, gone, policy), Drops(kg, candidates, gone, policy);
    var rebuilds := Rebuilds(kg, candidates, gone, policy);
    assert Fallen(ReduceTracking(kg, rebuilds), dropped) == Fallen(kg, dropped);
    assert dropped <= Fallen(kg, dropped) == kg.graph.Keys - after.graph.Keys;
    assert dropped <= candidates;
  }

  /** The pass keeps both hypotheses it needs, and afterwards nothing names a purged chunk. */
  lemma DeriveKeepsGraphClosed(kg: Kg, candidates: set<Obj>, gone: set<Chunk>, policy: Policy)
    requires TrackingCovers(kg) && EdgesSupportedOutside(kg, gone) && SourceCovered(kg, candidates, gone)
    ensures var after := Derive(kg, candidates, gone, policy);
      TrackingCovers(after) && EdgesSupported(after) && NamesNone(after, gone)
  {
    var after := Derive(kg, candidates, gone, policy);
    DeriveIsExact(kg, candidates, gone, policy);
    forall o | o in after.graph && o.Relation?
      ensures Entity(o.lo) in after.graph && Entity(o.hi) in after.graph
      ensures SourceSet(after, o) <= SourceSet(after, Entity(o.lo))
      ensures SourceSet(after, o) <= SourceSet(after, Entity(o.hi))
    {
      SurvivingEndpoints(kg, candidates, gone, policy, o);
    }
  }

  lemma SurvivingEndpoints(kg: Kg, candidates: set<Obj>, gone: set<Chunk>, policy: Policy, o: Obj)
    requires EndpointsPresent(kg)
    requires o.Relation? && o in Derive(kg, candidates, gone, policy).graph
    ensures Entity(o.lo) in Derive(kg, candidates, gone, policy).graph
    ensures Entity(o.hi) in Derive(kg, candidates, gone, policy).graph
  {
    var dropped := Drops(kg, candidates, gone, policy);
    assert o !in Fallen(kg, dropped);
    assert Entity(o.lo) !in Fallen(kg, dropped) && Entity(o.hi) !in Fallen(kg, dropped);
  }

  /** Cleaning the graph lists needs no hypothesis about tracking: covering them suffices. */
  lemma DeriveCleansGraph(kg: Kg, candidates: set<Obj>, gone: set<Chunk>, policy: Policy)
    requires GraphCovered(kg, candidates, gone)
    ensures NamesNone(Derive(kg, candidates, gone, policy), gone)
  {
    var after := Derive(kg, candidates, gone, policy);
    forall o | o in after.graph
      ensures Ids(after.graph[o]) !! gone
    {
      var rebuilds := Rebuilds(kg, candidates, gone, policy);
      assert o !in Fallen(kg, Drops(kg, candidates, gone, policy));
      if o !in rebuilds && o in candidates {
        assert Classify(kg, o, gone, policy).Keep?;
      }
    }
  }

  // ----- partial landing -----

  /** Any subset of the pass's writes may have landed: each list is old or final, and only
      objects the pass removes are missing. */
  predicate PartlyDerived(kg: Kg, part: Kg, candidates: set<Obj>, gone: set<Chunk>, policy: Policy) {
    var rebuilds := Rebuilds(kg, candidates, gone, policy);
    var dropped := Drops(kg, candidates, gone, policy);
    && (forall o :: o in part.graph ==>
          o in kg.graph && (part.graph[o] == kg.graph[o] || (o in rebuilds && part.graph[o] == rebuilds[o])))
    && (forall o :: o in kg.graph && o !in part.graph ==> o in Fallen(kg, dropped))
    && (forall o :: o in part.tracking ==>
          || (o in kg.tracking && part.tracking[o] == kg.tracking[o])
          || (o in rebuilds && part.tracking[o] == rebuilds[o]))
    && (forall o :: o in kg.tracking && o !in part.tracking ==> o in dropped + Fallen(kg, dropped))
  }

  lemma WholePassIsALanding(kg: Kg, candidates: set<Obj>, gone: set<Chunk>, policy: Policy)
    ensures PartlyDerived(kg, Derive(kg, candidates, gone, policy), candidates, gone, policy)
  {
  }

  lemma PartwayIsALanding(kg: Kg, candidates: set<Obj>, gone: set<Chunk>, pc: nat)
    ensures PartlyDerived(kg, Partway(kg, candidates, gone, BestEffort, pc), candidates, gone, BestEffort)
  {
    WholePassIsALanding(kg, candidates, gone, BestEffort);
  }

  /** However the writes landed, coverage by the same candidates is kept. */
  lemma PartialLandingKeepsCoverage(kg: Kg, part: Kg, candidates: set<Obj>, gone: set<Chunk>, policy: Policy)
    requires PartlyDerived(kg, part, candidates, gone, policy)
    requires GraphCovered(kg, candidates, gone)
    ensures GraphCovered(part, candidates, gone)
  {
    forall o | o in part.graph && !(Ids(part.graph[o]) !! gone)
      ensures o in candidates
    {
    }
  }
}
