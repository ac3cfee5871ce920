/** The purge primitive over mutable stores. `stop` is the number of the first durable write
    the process does not get to make: 9 or more is an uninterrupted run. */
module Purge {
  import opened KgModel
  import opened DerivedPass
  import opened PurgeModel
  import opened PurgeSafety

  datatype Outcome = Purged | AlreadyPurged | Conflict | AnchorsMissing(chunkless: bool) | Interrupted

  class DocumentStores {
    var graph: map<Obj, seq<Chunk>>
    var tracking: map<Obj, seq<Chunk>>
    var chunkRows: set<Chunk>
    var entityRow: Option<set<Obj>>
    var relationRow: Option<set<Obj>>
    var journal: Option<PurgeJournal>
    var preGraph: bool
    var patchNames: set<Obj>

    ghost function Graphs(): Kg
      reads this
    {
      Kg(graph, tracking)
    }

    ghost function State(): Store
      reads this
    {
      Store(Graphs(), chunkRows, entityRow, relationRow, journal, preGraph, patchNames)
    }

    constructor (kg: Kg, rows: set<Chunk>, entities: Option<set<Obj>>, relations: Option<set<Obj>>, preGraph: bool)
      ensures State() == Store(kg, rows, entities, relations, None, preGraph, {})
    {
      graph, tracking, chunkRows := kg.graph, kg.tracking, rows;
      entityRow, relationRow, journal := entities, relations, None;
      this.preGraph, patchNames := preGraph, {};
    }

    /** Step 2 for one object that is in the graph. */
    method Judge(o: Obj, gone: set<Chunk>, policy: Policy) returns (verdict: Verdict)
      requires o in graph
      ensures verdict == Classify(Graphs(), o, gone, policy)
    {
      var graphSources := graph[o];
      var existing := if o in tracking then tracking[o] else [];
      if existing == [] {
        existing := graphSources;
      }
      if existing == [] {
        return Drop;
      }
      var remaining := Subtract(existing, gone);
      if remaining == [] {
        return Drop;
      }
      if remaining != existing || !(Ids(graphSources) !! gone) || policy.Rollback? {
        return Rebuild(remaining);
      }
      return Keep;
    }

    method ClassifyAll(candidates: set<Obj>, gone: set<Chunk>, policy: Policy)
      returns (toDelete: set<Obj>, toRebuild: map<Obj, seq<Chunk>>)
      ensures toDelete == Drops(Graphs(), candidates, gone, policy)
      ensures toRebuild == Rebuilds(Graphs(), candidates, gone, policy)
    {
      toDelete, toRebuild := {}, map[];
      var todo := candidates;
      var seen: set<Obj> := {};
      while todo != {}
        invariant seen == candidates - todo && todo <= candidates
        invariant toDelete == Drops(Graphs(), seen, gone, policy)
        invariant toRebuild == Rebuilds(Graphs(), seen, gone, policy)
        decreases todo
      {
        var o :| o in todo;
        PlanGrows(Graphs(), seen, o, gone, policy);
        if o in graph {
          var verdict := Judge(o, gone, policy);
          match verdict
          case Drop => toDelete := toDelete + {o};
          case Rebuild(remaining) => toRebuild := toRebuild[o := remaining];
          case Keep =>
        }
        todo, seen := todo - {o}, seen + {o};
      }
      assert seen == candidates;
    }

    /** Steps 3 and 4: relations first, then entities with their residual edges. */
    method RemoveObjects(toDelete: set<Obj>)
      modifies this`graph, this`tracking
      ensures Graphs() == DropObjects(old(Graphs()), toDelete)
    {
      ghost var before := Graphs();
      var relations := set o | o in toDelete && o.Relation?;
      graph := graph - relations;
      tracking := tracking - relations;
      var entities := toDelete - relations;
      var residual := ResidualEdges(entities);
      tracking := tracking - residual;
      graph := graph - (entities + residual);
      tracking := tracking - entities;
      FallenInTwoSteps(before, toDelete, relations, residual);
      assert relations + residual + entities == toDelete + residual;
      assert graph == before.graph - (toDelete + residual);
      assert tracking == before.tracking - (toDelete + residual);
    }

    /** The edges the graph still has at any of the given entities. */
    method ResidualEdges(entities: set<Obj>) returns (residual: set<Obj>)
      ensures residual == set e | e in graph && Incident(e, entities)
    {
      residual := {};
      var todo := entities;
      var seen: set<Obj> := {};
      while todo != {}
        invariant seen == entities - todo && todo <= entities
        invariant residual == set e | e in graph && Incident(e, seen)
        decreases todo
      {
        var o :| o in todo;
        var edges := set e | e in graph && e.Relation? && (Entity(e.lo) == o || Entity(e.hi) == o);
        residual := residual + edges;
        todo, seen := todo - {o}, seen + {o};
      }
      assert seen == entities;
    }

    /** Step 6: rewrite the source list of every rebuilt object still in the graph. */
    method RebuildFromChunks(toRebuild: map<Obj, seq<Chunk>>)
      modifies this`graph
      ensures Graphs() == RebuildGraph(old(Graphs()), toRebuild)
    {
      var todo := toRebuild.Keys;
      while todo != {}
        invariant todo <= toRebuild.Keys
        invariant graph.Keys == old(graph.Keys)
        invariant forall o :: o in graph ==>
          graph[o] == if o in toRebuild && o !in todo then toRebuild[o] else old(graph)[o]
        decreases todo
      {
        var o :| o in todo;
        todo := todo - {o};
        if o in graph {
          graph := graph[o := toRebuild[o]];
        }
      }
    }

    /** Steps 1 to 6, writes 1 to 3 of the attempt. */
    method PurgeDerived(candidates: set<Obj>, gone: set<Chunk>, policy: Policy, stop: nat) returns (reached: nat)
      modifies this`graph, this`tracking
      ensures reached == if stop <= 1 then 1 else if stop <= 4 then stop else 4
      ensures Graphs() == Partway(old(Graphs()), candidates, gone, policy, reached)
    {
      var toDelete, toRebuild := ClassifyAll(candidates, gone, policy);
      if stop <= 1 { return 1; }
      tracking := tracking + toRebuild;
      if stop == 2 { return 2; }
      RemoveObjects(toDelete);
      if stop == 3 { return 3; }
      RebuildFromChunks(toRebuild);
      return 4;
    }

    /** Decide whether anything may be deleted, before anything is. */
    method ResolveRecoveryProof(gone: set<Chunk>) returns (conflict: bool, phase: Option<Phase>, proof: Proof)
      ensures conflict == Conflicts(State(), gone)
      ensures !conflict ==> phase == PhaseOf(State(), gone) && proof == Resolve(State(), gone)
      ensures conflict <==> ForeignPurge(State(), gone)
      ensures !conflict ==> (proof.NoProof? <==> !PastDerived(State(), gone) && !Attributable(State(), gone))
    {
      conflict, phase, proof := false, None, NoProof(false);
      var current := journal;
      if current.Some? {
        var mismatched := current.value.operation != Some(gone);
        if mismatched && current.value.phase == Completed {
          current := None;
        } else if mismatched {
          return true, None, proof;
        }
      }
      if current.Some? && current.value.phase != Unrecognized {
        phase := Some(current.value.phase);
      }
      if phase.Some? && phase.value != Prepared {
        return false, phase, JournalProof;
      }
      if entityRow.Some? && relationRow.Some? {
        if gone == {} && (entityRow.value != {} || relationRow.value != {}) {
          return false, phase, NoProof(true);
        }
        return false, phase, AnchorProof;
      }
      if preGraph {
        return false, phase, PreGraphProof;
      }
      if gone == {} && (entityRow.None? || entityRow.value == {}) && (relationRow.None? || relationRow.value == {}) {
        return false, phase, EmptyScopeProof;
      }
    }

    method WritePhase(phase: Phase, gone: set<Chunk>)
      modifies this`journal
      ensures journal == Some(PurgeJournal(Some(gone), phase))
    {
      journal := Some(PurgeJournal(Some(gone), phase));
    }

    /** Steps 7 and 8 with their journal writes, entered at write 5 or 7. */
    method DeleteRows(gone: set<Chunk>, entry: nat, stop: nat) returns (ghost reached: nat)
      requires entry == 5 || entry == 7
      requires journal == Some(JournalAt(gone, entry))
      modifies this`chunkRows, this`entityRow, this`relationRow, this`journal
      ensures reached == if stop <= entry then entry else if stop < WRITES then stop else WRITES
      ensures chunkRows == if entry == 5 < reached then old(chunkRows) - gone else old(chunkRows)
      ensures entityRow == if reached > 7 then None else old(entityRow)
      ensures relationRow == if reached > 7 then None else old(relationRow)
      ensures journal == Some(JournalAt(gone, reached))
    {
      reached := entry;
      if entry == 5 {
        if stop <= 5 { return; }
        if gone != {} {
          chunkRows := chunkRows - gone;
        }
        reached := 6;
        if stop == 6 { return; }
        WritePhase(AnchorsPending, gone);
        reached := 7;
      }
      if stop <= 7 { return; }
      entityRow, relationRow := None, None;
      reached := 8;
      if stop == 8 { return; }
      WritePhase(Completed, gone);
      reached := WRITES;
    }

    method PurgeKgContributions(chunkIds: seq<Chunk>, stop: nat) returns (outcome: Outcome, ghost reached: nat)
      modifies this
      ensures outcome.Conflict? <==> ForeignPurge(old(State()), Ids(chunkIds))
      ensures outcome.AnchorsMissing? <==>
        var s := old(State());
        !ForeignPurge(s, Ids(chunkIds)) && !PastDerived(s, Ids(chunkIds)) && !Attributable(s, Ids(chunkIds))
      ensures outcome.AnchorsMissing? ==> (outcome.chunkless <==> old(entityRow.Some? && relationRow.Some?))
      ensures outcome.Conflict? || outcome.AnchorsMissing? <==> Refused(old(State()), Ids(chunkIds))
      ensures Refused(old(State()), Ids(chunkIds)) ==> State() == old(State())
      ensures !Refused(old(State()), Ids(chunkIds)) ==>
        && reached == StopsAt(Entry(old(State()), Ids(chunkIds)), stop)
        && State() == Progress(old(State()), Ids(chunkIds), reached)
        && (reached == WRITES <==> outcome.Purged? || outcome.AlreadyPurged?)
    {
      var gone := Ids(chunkIds);
      ghost var s := State();
      reached := Entry(s, gone);
      var conflict, phase, proof := ResolveRecoveryProof(gone);
      if conflict { return Conflict, reached; }
      if phase == Some(Completed) { return AlreadyPurged, reached; }
      if proof.NoProof? { return AnchorsMissing(proof.chunkless), reached; }

      if phase.None? {
        if stop == 0 { return Interrupted, 0; }
        WritePhase(Prepared, gone);
        reached := 1;
      }
      var entry := 7;
      if phase.None? || phase.value == Prepared {
        var candidates := patchNames;
        if proof.AnchorProof? {
          candidates := entityRow.value + relationRow.value + patchNames;
        }
        reached := PurgeDerived(candidates, gone, BestEffort, stop);
        if stop <= 4 { return Interrupted, reached; }
        WritePhase(DerivedCommitted, gone);
        entry := 5;
      } else if phase == Some(DerivedCommitted) {
        entry := 5;
      }
      reached := DeleteRows(gone, entry, stop);
      outcome := if stop >= WRITES then Purged else Interrupted;
    }
  }
}
