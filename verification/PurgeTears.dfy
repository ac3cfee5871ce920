/** Convergence when any write of the derived pass may be torn, the removals included. What an
    edge that falls with its endpoint needs is that it does not outlive it. */
module PurgeTears {
  import opened KgModel
  import opened DerivedPass
  import opened Resume
  import opened PurgeModel
  import opened PurgeSafety

  /** The graph list names nothing but purged chunks, as the sources of a dropped object do. */
  ghost predicate Whole(kg: Kg, o: Obj, gone: set<Chunk>) {
    o in kg.graph && Ids(kg.graph[o]) <= gone
  }

  /** A dropped object is dropped again without its tracking row, or falls with an endpoint. */
  ghost predicate DropsAreWhole(kg: Kg, candidates: set<Obj>, gone: set<Chunk>) {
    var dropped := Drops(kg, candidates, gone, BestEffort);
    forall o :: o in dropped ==> Whole(kg, o, gone) || Incident(o, dropped)
  }

  /** Every survivor is selected again, and every dropped object is dropped again. */
  ghost predicate TearProof(kg: Kg, candidates: set<Obj>, gone: set<Chunk>) {
    Resumable(kg, candidates, gone) && DropsAreWhole(kg, candidates, gone)
  }

  /** What cuts and reruns may have made of `kg0`. What survives the pass has its old or its
      final lists; a dropped object has lost nothing but its row or itself; of an edge that
      falls with an endpoint nothing is claimed. */
  ghost predicate Underway(kg0: Kg, kg: Kg, candidates: set<Obj>, gone: set<Chunk>) {
    var dropped := Drops(kg0, candidates, gone, BestEffort);
    UnderwayTo(kg0, kg, dropped, Fallen(kg0, dropped), Rebuilds(kg0, candidates, gone, BestEffort), gone)
  }

  ghost predicate UnderwayTo(kg0: Kg, kg: Kg, dropped: set<Obj>, fallen: set<Obj>, rebuilds: map<Obj, seq<Chunk>>,
                             gone: set<Chunk>) {
    && kg0.graph.Keys - fallen <= kg.graph.Keys <= kg0.graph.Keys
    && (forall o :: o in kg.graph && o !in fallen ==>
          kg.graph[o] == kg0.graph[o] || (o in rebuilds && kg.graph[o] == rebuilds[o]))
    && (forall o :: o in kg0.tracking && o !in fallen ==> o in kg.tracking)
    && (forall o :: o in kg.tracking && o !in fallen ==>
          || (o in kg0.tracking && kg.tracking[o] == kg0.tracking[o])
          || (o in rebuilds && kg.tracking[o] == rebuilds[o]))
    && (forall o :: o in kg.graph && o in dropped && Whole(kg0, o, gone) ==>
          && kg.graph[o] == kg0.graph[o]
          && (o in kg.tracking ==> o in kg0.tracking && kg.tracking[o] == kg0.tracking[o]))
  }

  lemma NothingUnderway(kg: Kg, candidates: set<Obj>, gone: set<Chunk>)
    ensures Underway(kg, kg, candidates, gone)
  {
  }

  /** What is to fall and is still there is dropped itself, or hangs on an endpoint that is
      still there to be dropped. */
  ghost predicate Attached(kg0: Kg, kg: Kg, candidates: set<Obj>, gone: set<Chunk>) {
    var dropped := Drops(kg0, candidates, gone, BestEffort);
    forall o :: o in kg.graph && o in Fallen(kg0, dropped) ==>
      (o in dropped && Whole(kg0, o, gone)) || Incident(o, dropped * kg.graph.Keys)
  }

  lemma EndpointsAttach(kg0: Kg, kg: Kg, candidates: set<Obj>, gone: set<Chunk>)
    requires DropsAreWhole(kg0, candidates, gone) && EndpointsPresent(kg)
    ensures Attached(kg0, kg, candidates, gone)
  {
  }

  /** A dropped object is dropped again, whichever of its lists is read. */
  lemma DroppedStaysDropped(kg0: Kg, kg: Kg, candidates: set<Obj>, gone: set<Chunk>, o: Obj)
    requires Underway(kg0, kg, candidates, gone) && Whole(kg0, o, gone)
    requires o in kg.graph && o in Drops(kg0, candidates, gone, BestEffort)
    ensures Classify(kg, o, gone, BestEffort).Drop?
  {
    EmptyIds(Subtract(Sources(kg0, o), gone));
    EmptyIds(Subtract(Sources(kg, o), gone));
    assert SourceSet(kg0, o) <= gone by {
      assert forall c :: c in SourceSet(kg0, o) && c !in gone ==> c in Ids(Subtract(Sources(kg0, o), gone));
    }
    assert SourceSet(kg, o) <= gone;
  }

  /** A survivor is rebuilt to the same list, or needs nothing more. */
  lemma SurvivorVerdict(kg0: Kg, kg: Kg, candidates: set<Obj>, gone: set<Chunk>, o: Obj)
    requires TearProof(kg0, candidates, gone) && Underway(kg0, kg, candidates, gone)
    requires o in candidates && o in kg0.graph && o !in Fallen(kg0, Drops(kg0, candidates, gone, BestEffort))
    ensures o in kg.graph
    ensures var verdict, now := Classify(kg0, o, gone, BestEffort), Classify(kg, o, gone, BestEffort);
      if verdict.Rebuild?
      then now == verdict || (now.Keep? && kg.graph[o] == verdict.remaining && Sources(kg, o) == verdict.remaining)
      else now.Keep? && kg.graph[o] == kg0.graph[o] && Sources(kg, o) == Sources(kg0, o)
  {
    var verdict := Classify(kg0, o, gone, BestEffort);
    assert o in Drops(kg0, candidates, gone, BestEffort) ==> o in Fallen(kg0, Drops(kg0, candidates, gone, BestEffort));
    assert !verdict.Drop?;
    SubtractTwice(Sources(kg0, o), gone);
    if verdict.Rebuild? {
      assert Sources(kg, o) == Sources(kg0, o) || Sources(kg, o) == verdict.remaining;
      assert o in Rebuilds(kg0, candidates, gone, BestEffort);
    }
  }

  /** From here the pass drops what it would have dropped, as far as it is still there. */
  lemma SameDrops(kg0: Kg, kg: Kg, candidates: set<Obj>, gone: set<Chunk>)
    requires TearProof(kg0, candidates, gone) && Underway(kg0, kg, candidates, gone) && Attached(kg0, kg, candidates, gone)
    ensures Fallen(kg, Drops(kg, candidates, gone, BestEffort))
         == kg.graph.Keys * Fallen(kg0, Drops(kg0, candidates, gone, BestEffort))
  {
    var dropped, now := Drops(kg0, candidates, gone, BestEffort), Drops(kg, candidates, gone, BestEffort);
    forall o | o in dropped && o in kg.graph && Whole(kg0, o, gone)
      ensures o in now
    {
      DroppedStaysDropped(kg0, kg, candidates, gone, o);
    }
    NothingMoreDrops(kg0, kg, candidates, gone);
    FallenAgree(kg0, kg, dropped, now, gone);
  }

  lemma NothingMoreDrops(kg0: Kg, kg: Kg, candidates: set<Obj>, gone: set<Chunk>)
    requires TearProof(kg0, candidates, gone) && Underway(kg0, kg, candidates, gone)
    ensures Drops(kg, candidates, gone, BestEffort) <= Fallen(kg0, Drops(kg0, candidates, gone, BestEffort))
  {
    forall o | o in Drops(kg, candidates, gone, BestEffort)
      ensures o in Fallen(kg0, Drops(kg0, candidates, gone, BestEffort))
    {
      if o !in Fallen(kg0, Drops(kg0, candidates, gone, BestEffort)) {
        SurvivorVerdict(kg0, kg, candidates, gone, o);
        assert false;
      }
    }
  }

  lemma FallenAgree(kg0: Kg, kg: Kg, dropped: set<Obj>, now: set<Obj>, gone: set<Chunk>)
    requires kg.graph.Keys <= kg0.graph.Keys && now <= kg.graph.Keys && now <= Fallen(kg0, dropped)
    requires forall o :: o in dropped && o in kg.graph && Whole(kg0, o, gone) ==> o in now
    requires forall o :: o in dropped ==> Whole(kg0, o, gone) || Incident(o, dropped)
    requires forall o :: o in kg.graph && o in Fallen(kg0, dropped) ==>
      (o in dropped && Whole(kg0, o, gone)) || Incident(o, dropped * kg.graph.Keys)
    ensures Fallen(kg, now) == kg.graph.Keys * Fallen(kg0, dropped)
  {
    forall o | o in kg.graph
      ensures o in Fallen(kg, now) <==> o in Fallen(kg0, dropped)
    {
      if o in Fallen(kg0, dropped) && Incident(o, dropped * kg.graph.Keys) {
        assert Incident(o, now);
      }
    }
  }

  /** And it rebuilds what it would have rebuilt, or leaves it because it is done. */
  lemma SameRebuilds(kg0: Kg, kg: Kg, candidates: set<Obj>, gone: set<Chunk>, o: Obj)
    requires TearProof(kg0, candidates, gone) && Underway(kg0, kg, candidates, gone)
    requires o !in Fallen(kg0, Drops(kg0, candidates, gone, BestEffort))
    ensures var before, now := Rebuilds(kg0, candidates, gone, BestEffort), Rebuilds(kg, candidates, gone, BestEffort);
      && (o in now ==> o in before && now[o] == before[o])
      && (o in before && o !in now ==>
            o in kg.graph && kg.graph[o] == before[o] && Sources(kg, o) == before[o])
      && (o !in before && o in kg.graph ==> kg.graph[o] == kg0.graph[o] && Sources(kg, o) == Sources(kg0, o))
  {
    if o in candidates && o in kg0.graph {
      SurvivorVerdict(kg0, kg, candidates, gone, o);
    }
  }

  /** Another cut leaves the pass underway. */
  lemma LandingStaysUnderway(kg0: Kg, kg: Kg, part: Kg, candidates: set<Obj>, gone: set<Chunk>)
    requires TearProof(kg0, candidates, gone) && Underway(kg0, kg, candidates, gone)
    requires Attached(kg0, kg, candidates, gone) && PartlyDerived(kg, part, candidates, gone, BestEffort)
    ensures Underway(kg0, part, candidates, gone)
  {
    var dropped, now := Drops(kg0, candidates, gone, BestEffort), Drops(kg, candidates, gone, BestEffort);
    SameDrops(kg0, kg, candidates, gone);
    DropsAreNotRebuilt(kg, candidates, gone);
    forall o | o in dropped && o in kg.graph && Whole(kg0, o, gone)
      ensures o in now
    {
      DroppedStaysDropped(kg0, kg, candidates, gone, o);
    }
    forall o | o in Rebuilds(kg, candidates, gone, BestEffort) && o !in Fallen(kg0, dropped)
      ensures o in Rebuilds(kg0, candidates, gone, BestEffort)
      ensures Rebuilds(kg, candidates, gone, BestEffort)[o] == Rebuilds(kg0, candidates, gone, BestEffort)[o]
    {
      SameRebuilds(kg0, kg, candidates, gone, o);
    }
    LandedLists(kg0, kg, part, dropped, Fallen(kg0, dropped), Rebuilds(kg0, candidates, gone, BestEffort), now,
                Fallen(kg, now), Rebuilds(kg, candidates, gone, BestEffort), gone);
  }

  lemma LandedLists(kg0: Kg, kg: Kg, part: Kg, dropped: set<Obj>, fallen: set<Obj>, rebuilds: map<Obj, seq<Chunk>>,
                    now: set<Obj>, nowFallen: set<Obj>, nowRebuilds: map<Obj, seq<Chunk>>, gone: set<Chunk>)
    requires UnderwayTo(kg0, kg, dropped, fallen, rebuilds, gone)
    requires nowFallen == kg.graph.Keys * fallen && now <= nowFallen && now !! nowRebuilds.Keys
    requires forall o :: o in dropped && o in kg.graph && Whole(kg0, o, gone) ==> o in now
    requires forall o :: o in nowRebuilds && o !in fallen ==> o in rebuilds && nowRebuilds[o] == rebuilds[o]
    requires forall o :: o in part.graph ==>
      o in kg.graph && (part.graph[o] == kg.graph[o] || (o in nowRebuilds && part.graph[o] == nowRebuilds[o]))
    requires forall o :: o in kg.graph && o !in part.graph ==> o in nowFallen
    requires forall o :: o in part.tracking ==>
      || (o in kg.tracking && part.tracking[o] == kg.tracking[o])
      || (o in nowRebuilds && part.tracking[o] == nowRebuilds[o])
    requires forall o :: o in kg.tracking && o !in part.tracking ==> o in now + nowFallen
    ensures UnderwayTo(kg0, part, dropped, fallen, rebuilds, gone)
  {
  }

  lemma DropsAreNotRebuilt(kg: Kg, candidates: set<Obj>, gone: set<Chunk>)
    ensures Drops(kg, candidates, gone, BestEffort) !! Rebuilds(kg, candidates, gone, BestEffort).Keys
  {
  }

  /** Same objects, the same graph lists, the same sources of each. A tracking row may still
      be missing where the graph list has its final value. */
  ghost predicate SameSurvivors(kg: Kg, other: Kg) {
    kg.graph == other.graph && forall o :: o in kg.graph ==> Sources(kg, o) == Sources(other, o)
  }

  /** Run to its end from wherever it is, the pass leaves the same survivors. */
  lemma UnderwayConverges(kg0: Kg, kg: Kg, candidates: set<Obj>, gone: set<Chunk>)
    requires TearProof(kg0, candidates, gone) && Underway(kg0, kg, candidates, gone) && Attached(kg0, kg, candidates, gone)
    ensures SameSurvivors(Derive(kg, candidates, gone, BestEffort), Derive(kg0, candidates, gone, BestEffort))
  {
    var after, whole := Derive(kg, candidates, gone, BestEffort), Derive(kg0, candidates, gone, BestEffort);
    SameDrops(kg0, kg, candidates, gone);
    SurvivorsOf(kg0, candidates, gone);
    SurvivorsOf(kg, candidates, gone);
    assert after.graph.Keys == whole.graph.Keys;
    forall o | o in after.graph
      ensures after.graph[o] == whole.graph[o] && Sources(after, o) == Sources(whole, o)
    {
      SameRebuilds(kg0, kg, candidates, gone, o);
    }
  }

  /** What one pass leaves of a survivor. */
  lemma SurvivorsOf(kg: Kg, candidates: set<Obj>, gone: set<Chunk>)
    ensures var rebuilds := Rebuilds(kg, candidates, gone, BestEffort);
      var fallen := Fallen(kg, Drops(kg, candidates, gone, BestEffort));
      var after := Derive(kg, candidates, gone, BestEffort);
      && after.graph.Keys == kg.graph.Keys - fallen
      && (forall o :: o in after.graph ==>
            && after.graph[o] == (if o in rebuilds then rebuilds[o] else kg.graph[o])
            && Sources(after, o) == (if o in rebuilds then rebuilds[o] else Sources(kg, o)))
  {
    var rebuilds, dropped := Rebuilds(kg, candidates, gone, BestEffort), Drops(kg, candidates, gone, BestEffort);
    forall o | o in rebuilds
      ensures rebuilds[o] != []
    {
    }
    SurvivorsOfPlan(kg, dropped, rebuilds);
  }

  lemma SurvivorsOfPlan(kg: Kg, dropped: set<Obj>, rebuilds: map<Obj, seq<Chunk>>)
    requires forall o :: o in rebuilds ==> rebuilds[o] != []
    ensures var after := Apply(kg, dropped, rebuilds);
      && after.graph.Keys == kg.graph.Keys - Fallen(kg, dropped)
      && (forall o :: o in after.graph ==>
            && after.graph[o] == (if o in rebuilds then rebuilds[o] else kg.graph[o])
            && Sources(after, o) == (if o in rebuilds then rebuilds[o] else Sources(kg, o)))
  {
    assert Fallen(ReduceTracking(kg, rebuilds), dropped) == Fallen(kg, dropped);
  }

  /** A single cut of a pass over uncapped lists is repaired by the next one exactly when what
      is to fall and is still there is dropped itself, or hangs on an endpoint still there. */
  lemma LandingConvergesIff(kg: Kg, part: Kg, candidates: set<Obj>, gone: set<Chunk>)
    requires Uncapped(kg) && PartlyDerived(kg, part, candidates, gone, BestEffort)
    ensures var dropped := Drops(kg, candidates, gone, BestEffort);
      SameSurvivors(Derive(part, candidates, gone, BestEffort), Derive(kg, candidates, gone, BestEffort))
      <==> forall o :: o in part.graph && o in Fallen(kg, dropped) ==>
             o in dropped || Incident(o, dropped * part.graph.Keys)
  {
    var dropped := Drops(kg, candidates, gone, BestEffort);
    UncappedIsTearProof(kg, candidates, gone);
    NothingUnderway(kg, candidates, gone);
    LandingStaysUnderway(kg, kg, part, candidates, gone);
    if o :| o in part.graph && o in Fallen(kg, dropped) && o !in dropped && !Incident(o, dropped * part.graph.Keys) {
      LooseObjectStays(kg, part, candidates, gone, o);
    } else {
      UnderwayConverges(kg, part, candidates, gone);
    }
  }

  lemma UncappedIsTearProof(kg: Kg, candidates: set<Obj>, gone: set<Chunk>)
    requires Uncapped(kg)
    ensures TearProof(kg, candidates, gone) && Attached(kg, kg, candidates, gone)
    ensures forall o :: o in Drops(kg, candidates, gone, BestEffort) ==> Whole(kg, o, gone)
  {
    UncappedIsResumable(kg, candidates, gone);
    CoveredDropsAreWhole(kg, candidates, gone);
  }

  /** Where the tracking rows cover the graph lists, what is dropped names nothing else. */
  lemma CoveredDropsAreWhole(kg: Kg, candidates: set<Obj>, gone: set<Chunk>)
    requires TrackingCovers(kg)
    ensures forall o :: o in Drops(kg, candidates, gone, BestEffort) ==> Whole(kg, o, gone)
  {
    forall o | o in Drops(kg, candidates, gone, BestEffort)
      ensures Whole(kg, o, gone)
    {
      EmptyIds(Subtract(Sources(kg, o), gone));
      EmptyIds(Sources(kg, o));
      forall c | c in Ids(kg.graph[o])
        ensures c in gone
      {
        assert c in SourceSet(kg, o);
        assert c in gone || c in Ids(Subtract(Sources(kg, o), gone));
      }
    }
  }

  lemma LooseObjectStays(kg: Kg, part: Kg, candidates: set<Obj>, gone: set<Chunk>, o: Obj)
    requires Uncapped(kg) && PartlyDerived(kg, part, candidates, gone, BestEffort)
    requires TearProof(kg, candidates, gone) && Underway(kg, part, candidates, gone)
    requires var dropped := Drops(kg, candidates, gone, BestEffort);
      o in part.graph && o in Fallen(kg, dropped) && o !in dropped && !Incident(o, dropped * part.graph.Keys)
    ensures !SameSurvivors(Derive(part, candidates, gone, BestEffort), Derive(kg, candidates, gone, BestEffort))
  {
    var dropped, now := Drops(kg, candidates, gone, BestEffort), Drops(part, candidates, gone, BestEffort);
    NothingMoreDrops(kg, part, candidates, gone);
    KeptIsNotDropped(kg, part, candidates, gone, o);
    assert !Incident(o, now);
    SurvivorsOf(kg, candidates, gone);
    SurvivorsOf(part, candidates, gone);
    assert o in Derive(part, candidates, gone, BestEffort).graph;
  }

  /** A source outside the purged set is on every list a cut may leave. */
  lemma KeptIsNotDropped(kg: Kg, part: Kg, candidates: set<Obj>, gone: set<Chunk>, o: Obj)
    requires Uncapped(kg) && PartlyDerived(kg, part, candidates, gone, BestEffort)
    requires o in part.graph && o !in Drops(kg, candidates, gone, BestEffort)
    ensures o !in Drops(part, candidates, gone, BestEffort)
  {
    if o in candidates {
      var remaining := Subtract(Sources(kg, o), gone);
      EmptyIds(remaining);
      EmptyIds(Sources(kg, o));
      var c :| c in Ids(remaining);
      assert c in SourceSet(kg, o) && c !in gone && c in Ids(kg.graph[o]);
      assert c in SourceSet(part, o);
      assert c in Ids(Subtract(Sources(part, o), gone));
      EmptyIds(Subtract(Sources(part, o), gone));
      EmptyIds(Sources(part, o));
    }
  }

  // ----- histories -----

  ghost predicate RowsEnduring(s0: Store, s: Store, gone: set<Chunk>) {
    && Safe(s0, s, gone)
    && (Entry(s, gone) >= 7 ==> s.chunkRows == s0.chunkRows - gone)
    && (Entry(s, gone) == WRITES ==> s.entityRow.None? && s.relationRow.None?)
  }

  ghost predicate GraphEnduring(s0: Store, s: Store, gone: set<Chunk>) {
    var candidates := Candidates(s0, gone);
    if Entry(s, gone) < 5 then Underway(s0.kg, s.kg, candidates, gone)
    else SameSurvivors(s.kg, Derive(s0.kg, candidates, gone, BestEffort))
  }

  ghost predicate Enduring(s0: Store, s: Store, gone: set<Chunk>) {
    RowsEnduring(s0, s, gone) && GraphEnduring(s0, s, gone)
  }

  lemma SameCandidates(s0: Store, s: Store, gone: set<Chunk>)
    requires Startable(s0, gone) && Safe(s0, s, gone) && Entry(s, gone) < 5
    ensures Candidates(s, gone) == Candidates(s0, gone) && Entry(s, gone) <= 1
  {
  }

  lemma RowsOfProgress(s0: Store, s: Store, gone: set<Chunk>, pc: nat)
    requires Startable(s0, gone) && RowsEnduring(s0, s, gone)
    requires Entry(s, gone) <= pc <= WRITES
    ensures RowsEnduring(s0, Progress(s, gone, pc), gone)
  {
    SafeProgress(s0, s, gone, pc);
    EntryOfProgress(s, gone, pc);
  }

  lemma EnduringProgress(s0: Store, s: Store, gone: set<Chunk>, pc: nat)
    requires Startable(s0, gone) && TearProof(s0.kg, Candidates(s0, gone), gone) && Enduring(s0, s, gone)
    requires Attached(s0.kg, s.kg, Candidates(s0, gone), gone)
    requires Entry(s, gone) <= pc <= WRITES
    ensures Enduring(s0, Progress(s, gone, pc), gone)
  {
    RowsOfProgress(s0, s, gone, pc);
    EntryOfProgress(s, gone, pc);
    if Entry(s, gone) < 5 {
      SameCandidates(s0, s, gone);
      if pc < 5 {
        var candidates := Candidates(s0, gone);
        PartwayIsALanding(s.kg, candidates, gone, pc);
        LandingStaysUnderway(s0.kg, s.kg, Partway(s.kg, candidates, gone, BestEffort, pc), candidates, gone);
      } else {
        UnderwayConverges(s0.kg, s.kg, Candidates(s0, gone), gone);
      }
    }
  }

  lemma EnduringTorn(s0: Store, s: Store, gone: set<Chunk>, pc: nat, t: Store)
    requires Startable(s0, gone) && TearProof(s0.kg, Candidates(s0, gone), gone) && Enduring(s0, s, gone)
    requires Attached(s0.kg, s.kg, Candidates(s0, gone), gone)
    requires Entry(s, gone) <= pc < WRITES && Torn(s, gone, pc, t)
    ensures Enduring(s0, t, gone)
  {
    RowsOfTorn(s0, s, gone, pc, t);
    if pc <= 3 {
      SameCandidates(s0, s, gone);
      LandingStaysUnderway(s0.kg, s.kg, t.kg, Candidates(s0, gone), gone);
    } else {
      EnduringProgress(s0, s, gone, pc);
    }
  }

  lemma RowsOfTorn(s0: Store, s: Store, gone: set<Chunk>, pc: nat, t: Store)
    requires Startable(s0, gone) && RowsEnduring(s0, s, gone)
    requires Entry(s, gone) <= pc < WRITES && Torn(s, gone, pc, t)
    ensures RowsEnduring(s0, t, gone) && Entry(t, gone) == Entry(Progress(s, gone, pc), gone)
    ensures pc <= 3 ==> Entry(t, gone) < 5
  {
    SafeTorn(s0, s, gone, pc, t);
    EntryOfProgress(s, gone, pc);
    RowsOfProgress(s0, s, gone, pc);
    assert t.journal == Progress(s, gone, pc).journal;
  }

  lemma EnduringAttempt(s0: Store, s: Store, gone: set<Chunk>, t: Store)
    requires Startable(s0, gone) && TearProof(s0.kg, Candidates(s0, gone), gone) && Enduring(s0, s, gone)
    requires Attached(s0.kg, s.kg, Candidates(s0, gone), gone) && Attempt(s, gone, t)
    ensures Enduring(s0, t, gone)
  {
    if !Refused(s, gone) {
      if pc :| Entry(s, gone) <= pc <= WRITES && t == Progress(s, gone, pc) {
        EnduringProgress(s0, s, gone, pc);
      } else {
        var pc :| Entry(s, gone) <= pc < WRITES && Torn(s, gone, pc, t);
        EnduringTorn(s0, s, gone, pc, t);
      }
    }
  }

  lemma EnduringStart(s0: Store, gone: set<Chunk>)
    requires Startable(s0, gone)
    ensures Enduring(s0, s0, gone)
  {
    NothingUnderway(s0.kg, Candidates(s0, gone), gone);
  }

  lemma {:induction false} EnduringHistory(states: seq<Store>, gone: set<Chunk>, i: nat)
    requires History(states, gone) && Startable(states[0], gone)
    requires TearProof(states[0].kg, Candidates(states[0], gone), gone)
    requires forall j :: 0 <= j < |states| ==> Attached(states[0].kg, states[j].kg, Candidates(states[0], gone), gone)
    requires i < |states|
    ensures Enduring(states[0], states[i], gone)
  {
    if i == 0 {
      EnduringStart(states[0], gone);
    } else {
      EnduringHistory(states, gone, i - 1);
      EnduringAttempt(states[0], states[i - 1], gone, states[i]);
    }
  }

  /** The graph, each object's sources, the chunk rows and the anchors are the same. */
  ghost predicate SameEndButRows(end: Store, whole: Store) {
    && SameSurvivors(end.kg, whole.kg) && end.chunkRows == whole.chunkRows
    && end.entityRow == whole.entityRow && end.relationRow == whole.relationRow
  }

  lemma AttachedHistoryConverges(states: seq<Store>, gone: set<Chunk>)
    requires History(states, gone) && Startable(states[0], gone)
    requires TearProof(states[0].kg, Candidates(states[0], gone), gone)
    requires forall j :: 0 <= j < |states| ==> Attached(states[0].kg, states[j].kg, Candidates(states[0], gone), gone)
    requires PhaseOf(states[|states| - 1], gone) == Some(Completed)
    ensures SameEndButRows(states[|states| - 1], Progress(states[0], gone, WRITES))
  {
    EnduringHistory(states, gone, |states| - 1);
  }

  // ----- stores that take an edge along with its endpoint -----

  lemma PassKeepsEndpoints(kg: Kg, candidates: set<Obj>, gone: set<Chunk>, pc: nat)
    requires EndpointsPresent(kg)
    ensures EndpointsPresent(Partway(kg, candidates, gone, BestEffort, pc))
  {
    var part := Partway(kg, candidates, gone, BestEffort, pc);
    forall o: Obj | o in part.graph && o.Relation?
      ensures Entity(o.lo) in part.graph && Entity(o.hi) in part.graph
    {
      assert o in kg.graph && Entity(o.lo) in kg.graph && Entity(o.hi) in kg.graph;
      if pc >= 3 {
        var reduced := ReduceTracking(kg, Rebuilds(kg, candidates, gone, BestEffort));
        var dropped := Drops(kg, candidates, gone, BestEffort);
        assert o !in Fallen(reduced, dropped);
        assert Entity(o.lo) !in Fallen(reduced, dropped) && Entity(o.hi) !in Fallen(reduced, dropped);
      }
    }
  }

  lemma {:induction false} EndpointsStay(states: seq<Store>, gone: set<Chunk>, i: nat)
    requires CascadingHistory(states, gone) && EndpointsPresent(states[0].kg) && i < |states|
    ensures EndpointsPresent(states[i].kg)
  {
    if i > 0 {
      EndpointsStay(states, gone, i - 1);
      var s, t := states[i - 1], states[i];
      assert CascadingAttempt(s, gone, t);
      if !Refused(s, gone) {
        if pc :| Entry(s, gone) <= pc <= WRITES && t == Progress(s, gone, pc) {
          PassKeepsEndpoints(s.kg, Candidates(s, gone), gone, pc);
        }
      }
    }
  }

  lemma CascadingIsAHistory(states: seq<Store>, gone: set<Chunk>)
    requires CascadingHistory(states, gone)
    ensures History(states, gone)
  {
    forall i | 0 <= i < |states| - 1
      ensures Attempt(states[i], gone, states[i + 1])
    {
      assert CascadingAttempt(states[i], gone, states[i + 1]);
    }
  }

  /** Every history from here that reaches `completed`, whichever writes were torn and however
      often, ends in the graph, sources, chunk rows and anchors of one uninterrupted purge. */
  ghost predicate AlwaysConvergesTorn(s0: Store, gone: set<Chunk>) {
    forall states :: CascadingHistory(states, gone) && Ends(states, s0, gone) ==>
      SameEndButRows(states[|states| - 1], Progress(s0, gone, WRITES))
  }

  lemma TornHistoryConverges(states: seq<Store>, gone: set<Chunk>)
    requires CascadingHistory(states, gone) && Startable(states[0], gone) && EndpointsPresent(states[0].kg)
    requires TearProof(states[0].kg, Candidates(states[0], gone), gone)
    requires PhaseOf(states[|states| - 1], gone) == Some(Completed)
    ensures SameEndButRows(states[|states| - 1], Progress(states[0], gone, WRITES))
  {
    CascadingIsAHistory(states, gone);
    forall j | 0 <= j < |states|
      ensures Attached(states[0].kg, states[j].kg, Candidates(states[0], gone), gone)
    {
      EndpointsStay(states, gone, j);
      EndpointsAttach(states[0].kg, states[j].kg, Candidates(states[0], gone), gone);
    }
    AttachedHistoryConverges(states, gone);
  }

  /** The tracking row of a dropped object is gone, and the object is not. */
  function Untracked(kg: Kg, o: Obj): Kg {
    Kg(kg.graph, kg.tracking - {o})
  }

  /** Judged by a graph list that names another chunk, it is kept. */
  lemma UntrackedIsKept(kg: Kg, candidates: set<Obj>, gone: set<Chunk>, o: Obj)
    requires var dropped := Drops(kg, candidates, gone, BestEffort);
      o in dropped && !Incident(o, dropped) && !Whole(kg, o, gone)
    ensures PartlyDerived(kg, Untracked(kg, o), candidates, gone, BestEffort)
    ensures !SameSurvivors(Derive(Untracked(kg, o), candidates, gone, BestEffort), Derive(kg, candidates, gone, BestEffort))
  {
    var part, dropped := Untracked(kg, o), Drops(kg, candidates, gone, BestEffort);
    UntrackedVerdicts(kg, candidates, gone, o);
    assert !Incident(o, Drops(part, candidates, gone, BestEffort));
    SurvivorsOf(kg, candidates, gone);
    SurvivorsOf(part, candidates, gone);
    assert o in Derive(part, candidates, gone, BestEffort).graph && o !in Derive(kg, candidates, gone, BestEffort).graph;
  }

  lemma UntrackedVerdicts(kg: Kg, candidates: set<Obj>, gone: set<Chunk>, o: Obj)
    requires o in Drops(kg, candidates, gone, BestEffort) && !Whole(kg, o, gone)
    ensures Drops(Untracked(kg, o), candidates, gone, BestEffort) <= Drops(kg, candidates, gone, BestEffort) - {o}
  {
    var part := Untracked(kg, o);
    var c :| c in Ids(kg.graph[o]) && c !in gone;
    assert c in Ids(Subtract(kg.graph[o], gone));
    EmptyIds(Subtract(kg.graph[o], gone));
    EmptyIds(kg.graph[o]);
    assert Sources(part, o) == kg.graph[o] && !Classify(part, o, gone, BestEffort).Drop?;
    forall p | p in Drops(part, candidates, gone, BestEffort)
      ensures p in Drops(kg, candidates, gone, BestEffort)
    {
      assert p != o && Sources(part, p) == Sources(kg, p);
    }
  }

  /** One history that ends elsewhere. */
  lemma Diverges(s0: Store, gone: set<Chunk>, states: seq<Store>)
    requires CascadingHistory(states, gone) && Ends(states, s0, gone)
    requires !SameSurvivors(states[|states| - 1].kg, Progress(s0, gone, WRITES).kg)
    ensures !AlwaysConvergesTorn(s0, gone)
  {
    assert !SameEndButRows(states[|states| - 1], Progress(s0, gone, WRITES));
  }

  /** Torn in the removals so that only that row went, and then run to its end. */
  lemma TornTrackingDiverges(s0: Store, gone: set<Chunk>, o: Obj)
    requires Startable(s0, gone)
    requires var dropped := Drops(s0.kg, Candidates(s0, gone), gone, BestEffort);
      o in dropped && !Incident(o, dropped) && !Whole(s0.kg, o, gone)
    ensures !AlwaysConvergesTorn(s0, gone)
  {
    var torn := Progress(s0, gone, 2).(kg := Untracked(s0.kg, o));
    UntrackedIsKept(s0.kg, Candidates(s0, gone), gone, o);
    TornThenFinished(s0, gone, torn);
    Diverges(s0, gone, [s0, torn, Progress(torn, gone, WRITES)]);
  }

  lemma TornThenFinished(s0: Store, gone: set<Chunk>, torn: Store)
    requires Startable(s0, gone) && torn == Progress(s0, gone, 2).(kg := torn.kg)
    requires PartlyDerived(s0.kg, torn.kg, Candidates(s0, gone), gone, BestEffort)
    requires EndpointsPresent(s0.kg) ==> EndpointsPresent(torn.kg)
    ensures Entry(torn, gone) <= WRITES
    ensures var states := [s0, torn, Progress(torn, gone, WRITES)];
      CascadingHistory(states, gone) && Ends(states, s0, gone)
    ensures Progress(torn, gone, WRITES).kg == Derive(torn.kg, Candidates(s0, gone), gone, BestEffort)
  {
    EntryOfProgress(s0, gone, 2);
    assert torn.journal == Progress(s0, gone, 2).journal;
    EntryOfProgress(torn, gone, WRITES);
    assert Torn(s0, gone, 2, torn) && !Refused(torn, gone);
  }

  /** Where the graph store removes an edge with its endpoint or before it, the purge converges
      whatever was torn exactly when every survivor whose tracking shrinks is selected again or
      has its final list, and every dropped object that falls on its own names only purged
      chunks in the graph. */
  lemma TornPurgeConvergesIff(s0: Store, gone: set<Chunk>)
    requires Startable(s0, gone) && EndpointsPresent(s0.kg)
    ensures AlwaysConvergesTorn(s0, gone) <==> TearProof(s0.kg, Candidates(s0, gone), gone)
  {
    var candidates := Candidates(s0, gone);
    if TearProof(s0.kg, candidates, gone) {
      forall states | CascadingHistory(states, gone) && Ends(states, s0, gone)
        ensures SameEndButRows(states[|states| - 1], Progress(s0, gone, WRITES))
      {
        TornHistoryConverges(states, gone);
      }
    } else if !Resumable(s0.kg, candidates, gone) {
      CutTrackingDiverges(s0, gone);
    } else {
      var dropped := Drops(s0.kg, candidates, gone, BestEffort);
      var o :| o in dropped && !Incident(o, dropped) && !Whole(s0.kg, o, gone);
      TornTrackingDiverges(s0, gone, o);
    }
  }

  lemma CutTrackingDiverges(s0: Store, gone: set<Chunk>)
    requires Startable(s0, gone) && !Resumable(s0.kg, Candidates(s0, gone), gone)
    ensures !AlwaysConvergesTorn(s0, gone)
  {
    CutAfterTrackingIsAHistory(s0, gone);
    UnresumableCutDiverges(s0.kg, Candidates(s0, gone), gone);
    Diverges(s0, gone, CutAfterTracking(s0, gone));
  }

  /** So it does from a closed graph in which no source list was capped. */
  lemma TornPurgeConverges(s0: Store, gone: set<Chunk>)
    requires Startable(s0, gone) && EndpointsPresent(s0.kg) && Uncapped(s0.kg)
    ensures AlwaysConvergesTorn(s0, gone)
  {
    UncappedIsTearProof(s0.kg, Candidates(s0, gone), gone);
    TornPurgeConvergesIff(s0, gone);
  }

  // ----- supported graphs, whatever the store does -----

  /** Where edges are supported and the candidates cover them, an edge falls with an endpoint
      only if it is dropped itself. */
  lemma FallenAreDropped(kg: Kg, candidates: set<Obj>, gone: set<Chunk>)
    requires EdgesSupportedOutside(kg, gone) && SourceCovered(kg, candidates, gone)
    requires forall o: Obj :: o in kg.graph && o.Relation? ==> SourceSet(kg, o) != {}
    ensures Fallen(kg, Drops(kg, candidates, gone, BestEffort)) <= Drops(kg, candidates, gone, BestEffort)
  {
    var dropped := Drops(kg, candidates, gone, BestEffort);
    SurvivorsOf(kg, candidates, gone);
    forall o | o in Fallen(kg, dropped)
      ensures o in dropped
    {
      if o.Relation? {
        OnlyUnsupportedObjectsGo(kg, candidates, gone, BestEffort, o);
        assert !(SourceSet(kg, o) !! gone);
        EmptyIds(Subtract(Sources(kg, o), gone));
        assert Classify(kg, o, gone, BestEffort).Drop?;
      }
    }
  }

  /** On a sound graph every completed history is precise, even if a store left edges without
      their endpoints. An object with sources survives exactly when one of them is outside the
      purged set, keeps exactly those, and the graph stays closed. */
  lemma CompletedPurgeIsPrecise(states: seq<Store>, gone: set<Chunk>)
    requires History(states, gone) && Startable(states[0], gone)
    requires TrackingCovers(states[0].kg) && Resumable(states[0].kg, Candidates(states[0], gone), gone)
    requires EdgesSupportedOutside(states[0].kg, gone)
    requires forall o: Obj :: o in states[0].kg.graph && o.Relation? ==> SourceSet(states[0].kg, o) != {}
    requires SourceCovered(states[0].kg, Candidates(states[0], gone), gone)
    requires PhaseOf(states[|states| - 1], gone) == Some(Completed)
    ensures var before, after := states[0].kg, states[|states| - 1].kg;
      && (forall o :: o in before.graph && SourceSet(before, o) != {} ==>
            (o in after.graph <==> !(SourceSet(before, o) <= gone)))
      && (forall o :: o in after.graph ==> o in before.graph && SourceSet(after, o) == SourceSet(before, o) - gone)
      && TrackingCovers(after) && EdgesSupported(after) && NamesNone(after, gone)
  {
    var candidates := Candidates(states[0], gone);
    FallenAreDropped(states[0].kg, candidates, gone);
    CoveredDropsAreWhole(states[0].kg, candidates, gone);
    assert forall kg :: Attached(states[0].kg, kg, candidates, gone);
    AttachedHistoryConverges(states, gone);
    DeriveIsExact(states[0].kg, candidates, gone, BestEffort);
    DeriveKeepsGraphClosed(states[0].kg, candidates, gone, BestEffort);
    SurvivorsAreClosed(Derive(states[0].kg, candidates, gone, BestEffort), states[|states| - 1].kg, gone);
  }

  lemma SurvivorsAreClosed(whole: Kg, kg: Kg, gone: set<Chunk>)
    requires SameSurvivors(kg, whole)
    requires TrackingCovers(whole) && EdgesSupported(whole) && NamesNone(whole, gone)
    requires forall o :: o in whole.graph ==> Ids(whole.graph[o]) <= SourceSet(whole, o)
    ensures TrackingCovers(kg) && EdgesSupported(kg) && NamesNone(kg, gone)
  {
  }
}
