/** The custom-chunk insert and its rollback over mutable stores, proved to take only steps of
    the state machine. `run` and `rollback` are what the coroutine holds in memory. */
module CustomChunkStores {
  import opened KgModel
  import opened CustomChunks
  import opened MergeWrites
  import opened CustomChunkSoundness
  import opened Purge

  /** What extraction found about one object, and whether summarizing it gets truncated. */
  datatype Fragment = Fragment(o: Obj, added: seq<Chunk>, truncated: bool)

  /** What the world decides about one attempt: the extraction's sample, what there is to
      merge, how many barriers and merge writes it gets past, and whether it then raises or
      is killed. */
  datatype Weather =
    Weather(found: set<Obj>, truncated: nat, fragments: seq<Fragment>, stop: nat, writes: nat, killed: bool)

  datatype Outcome = Nothing | Rejected | Inserted | Raised | Killed

  ghost predicate FromSample(f: Fragment, found: set<Obj>, entries: seq<Chunk>) {
    f.o in found && f.added != [] && Ids(f.added) <= Ids(entries)
  }

  /** What a merge may be given: extracted candidates with the operation's own ids. */
  ghost predicate Lawful(w: Weather, entries: seq<Chunk>) {
    && NamesEndpoints(w.found)
    && (entries == [] ==> w.found == {} && w.truncated == 0)
    && forall i :: 0 <= i < |w.fragments| ==> FromSample(w.fragments[i], w.found, entries)
  }

  /** A fragment makes at most six writes: the edge's row, two for each endpoint, the edge. */
  const WRITES_PER_FRAGMENT := 6

  /** A run keeps the body, and what a commit owns is each of the texts. */
  lemma InsertedForGood(s0: Sys, trace: seq<Action>, s: Sys, inputs: seq<string>)
    requires Follows(s0, trace, s)
    ensures Sturdy(s0) && HasBody(s0) ==> HasBody(s)
    ensures OwnsAll(s, inputs) ==> forall t :: t in inputs && t != "" ==> t in Committed(s.disk)
  {
    if Sturdy(s0) {
      TraceKeepsSturdy(s0, trace);
    }
    if OwnsAll(s, inputs) {
      forall t | t in inputs && t != ""
        ensures t in Committed(s.disk)
      {
        assert CustomChunk(s.doc, t) in Entries(s.doc, inputs);
      }
    }
  }

  class Stores {
    const doc: DocId
    var graph: map<Obj, seq<Chunk>>
    var tracking: map<Obj, seq<Chunk>>
    var texts: map<Chunk, string>
    var entityRow: Option<set<Obj>>
    var relationRow: Option<set<Obj>>
    var body: bool
    var row: Option<DocRow>
    var run: Option<Run>
    var rollback: Option<RollbackRun>
    ghost var log: Log
    var clock: Event

    function OnDisk(): Disk
      reads this
    {
      Disk(Kg(graph, tracking), texts, entityRow, relationRow, body, row)
    }

    ghost function State(): Sys
      reads this
    {
      Sys(doc, OnDisk(), run, rollback, log)
    }

    ghost predicate Idle()
      reads this
    {
      run.None? && rollback.None? && log.next == clock
    }

    constructor (doc: DocId, disk: Disk)
      ensures State() == Sys(doc, disk, None, None, Log(multiset{}, {}, {}, 0)) && Idle()
    {
      this.doc := doc;
      graph, tracking, texts := disk.kg.graph, disk.kg.tracking, disk.texts;
      entityRow, relationRow, body, row := disk.entityRow, disk.relationRow, disk.body, disk.row;
      run, rollback, clock := None, None, 0;
      log := Log(multiset{}, {}, {}, 0);
    }

    // ----- deciding -----

    method BuildEntries(inputs: seq<string>) returns (entries: seq<Chunk>)
      ensures entries == Entries(doc, inputs)
    {
      entries := [];
      var seen: set<Chunk> := {};
      for i := 0 to |inputs|
        invariant entries == Entries(doc, inputs[..i])
        invariant seen == Ids(entries)
      {
        assert inputs[..i + 1][..i] == inputs[..i];
        var c := CustomChunk(doc, inputs[i]);
        if inputs[i] != "" && c !in seen {
          IdsOfConcat(entries, [c]);
          seen := seen + {c};
          entries := entries + [c];
        }
      }
      assert inputs[..|inputs|] == inputs;
    }

    method CommittedContents() returns (contents: set<string>)
      ensures contents == Committed(OnDisk())
    {
      contents := {};
      if row.Some? {
        var ids := row.value.chunksList;
        for i := 0 to |ids|
          invariant contents == set c | c in ids[..i] && c in texts && texts[c] != "" :: texts[c]
        {
          assert ids[..i + 1] == ids[..i] + [ids[i]];
          if ids[i] in texts && texts[ids[i]] != "" {
            contents := contents + {texts[ids[i]]};
          }
        }
        assert ids[..|ids|] == ids;
      }
    }

    method Missing(entries: seq<Chunk>, committed: set<string>) returns (missing: seq<Chunk>)
      requires forall c :: c in entries ==> c.CustomChunk?
      ensures missing == Uncommitted(entries, committed)
    {
      missing := [];
      for i := |entries| downto 0
        invariant missing == Uncommitted(entries[i..], committed)
      {
        assert entries[i..][1..] == entries[i + 1..];
        if entries[i].text !in committed {
          missing := [entries[i]] + missing;
        }
      }
    }

    method Resolve(inputs: seq<string>) returns (decision: Decision)
      ensures decision == Decide(doc, OnDisk(), inputs)
    {
      var operation := BuildEntries(inputs);
      if operation == [] { return NothingToDo; }
      var mode, resume := Create, false;
      if row.Some? && row.value.patch.Some? {
        if row.value.patch.value.operation != operation { return OtherOperationUnfinished; }
        mode, resume := row.value.patch.value.mode, true;
      } else if row.None? {
        if body { return NothingToDo; }
      } else if row.value.status == Processed {
        mode := Patch;
      } else {
        return WrongStatus;
      }
      var entries := operation;
      if mode == Patch {
        var committed := CommittedContents();
        entries := Missing(operation, committed);
        if entries == [] && !resume { return NothingToDo; }
      }
      return Go(mode, resume, operation, entries);
    }

    // ----- the stages of an attempt -----

    method Start(decision: Decision, ghost inputs: seq<string>)
      requires Idle() && decision.Go? && decision == Decide(doc, OnDisk(), inputs)
      modifies this
      ensures State() == Step(old(State()), Begin(inputs)) && log.next == clock
      ensures At(State(), Begun) && run.value.journal.chunkIds == decision.entries
      ensures run.value.journal.operation == Entries(doc, inputs)
      ensures rollback.None? && run.value.pending == multiset{}
    {
      ghost var s := State();
      var previous: Option<Journal> := if decision.resume && row.Some? then row.value.patch else None;
      var prior := multiset{};
      if previous.Some? {
        prior := previous.value.prior;
      } else if decision.mode == Patch && row.Some? {
        prior := row.value.truncation;
      }
      var carried := if previous.Some? then previous.value.events else multiset{};
      var journal := Journal(decision.operation, decision.mode, decision.entries, PreparedStage,
                             if previous.Some? then previous.value.names else {}, prior, carried);
      row := Some(StatusRow(row, Processing, Some(journal)));
      run := Some(Run(Begun, decision.resume, journal, row.value, {}, carried, multiset{}, multiset{}, {}));
      log := Step(s, Begin(inputs)).log;
    }

    method Stage()
      requires At(State(), Begun) && rollback.None? && log.next == clock
      modifies this
      ensures State() == Step(old(State()), StageChunks) && log.next == clock
      ensures At(State(), Staged) && run.value.journal == old(run.value.journal)
      ensures rollback.None? && run.value.pending == old(run.value.pending)
    {
      var ids := run.value.journal.chunkIds;
      var rows: map<Chunk, string> := map[];
      for i := 0 to |ids|
        invariant rows == map c | c in ids[..i] && c.CustomChunk? :: c.text
        invariant State() == old(State())
      {
        assert ids[..i + 1] == ids[..i] + [ids[i]];
        if ids[i].CustomChunk? {
          rows := rows[ids[i] := ids[i].text];
        }
      }
      assert ids[..|ids|] == ids;
      texts := texts + rows;
      body := body || run.value.journal.mode == Create;
      run := Some(run.value.(pc := Staged));
    }

    method ExtractSample(found: set<Obj>, truncated: nat)
      requires At(State(), Staged) && rollback.None? && log.next == clock
      requires Enabled(State(), Extract(found, truncated))
      modifies this
      ensures State() == Step(old(State()), Extract(found, truncated)) && log.next == clock
      ensures At(State(), Extracted) && run.value.journal == old(run.value.journal) && run.value.sample == found
      ensures rollback.None? && run.value.pending == old(run.value.pending)
    {
      ghost var s := State();
      run := Some(run.value.(pc := Extracted, sample := found, tally := multiset(Numbered(clock, truncated))));
      clock := clock + truncated;
      log := Step(s, Extract(found, truncated)).log;
    }

    /** A durable PROCESSING row with the journal and the given events. */
    method WriteJournal(journal: Journal, events: Payload)
      requires run.Some?
      modifies this`row, this`run, this`log
      ensures State() == WithEvents(old(State()), journal, events)
    {
      ghost var s := State();
      var next := run.value.base.(status := Processing, patch := Some(journal.(events := events)));
      row := Some(next);
      run := Some(run.value.(base := next));
      log := WithEvents(s, journal, events).log;
    }

    method JournalCandidates()
      requires At(State(), Extracted) && rollback.None? && log.next == clock
      modifies this
      ensures State() == Step(old(State()), WriteApplying) && log.next == clock
      ensures At(State(), Applied) && run.value.sample == old(run.value.sample)
      ensures rollback.None? && run.value.pending == old(run.value.pending)
      ensures run.value.journal.mode == old(run.value.journal.mode)
      ensures run.value.journal.chunkIds == old(run.value.journal.chunkIds)
      ensures run.value.journal.operation == old(run.value.journal.operation)
    {
      var r := run.value;
      var journal := r.journal.(stage := ApplyingStage, names := r.journal.names + r.sample, events := r.carried + r.tally);
      WriteJournal(journal, r.carried + r.tally);
      run := Some(run.value.(pc := Applied, journal := journal));
    }

    /** The candidate rows a creating merge writes first; a patch leaves them alone. */
    method ReplaceEntities()
      requires Enabled(State(), ReplaceEntityRow)
      modifies this`entityRow, this`run
      ensures State() == Step(old(State()), ReplaceEntityRow)
      ensures At(State(), EntityRowReplaced)
      ensures run.value.sample == old(run.value.sample) && run.value.journal == old(run.value.journal)
    {
      entityRow := Some(EntitiesOf(run.value.sample));
      run := Some(run.value.(pc := EntityRowReplaced));
    }

    method ReplaceRelations()
      requires Enabled(State(), ReplaceRelationRow)
      modifies this`relationRow, this`run
      ensures State() == Step(old(State()), ReplaceRelationRow)
      ensures At(State(), Merging)
      ensures run.value.sample == old(run.value.sample) && run.value.journal == old(run.value.journal)
    {
      relationRow := Some(RelationsOf(run.value.sample));
      run := Some(run.value.(pc := Merging));
    }

    function Existing(o: Obj): (r: seq<Chunk>)
      reads this
      ensures r == Sources(Kg(graph, tracking), o)
    {
      var listed := if o in tracking then tracking[o] else [];
      if listed == [] && o in graph then graph[o] else listed
    }

    /** The object is in the graph, and the chunks it was extracted from are among its sources. */
    ghost predicate Landed(f: Fragment)
      reads this
    {
      Mergeable(f.o) ==> f.o in graph && Ids(f.added) <= SourceSet(OnDisk().kg, f.o)
    }

    ghost predicate AllLanded(w: Weather)
      reads this
    {
      forall i :: 0 <= i < |w.fragments| ==> Landed(w.fragments[i])
    }

    ghost predicate Grown(before: Kg)
      reads this
    {
      Grows(before, OnDisk().kg)
    }

    /** The full source list, tracked before the object is written. */
    method TrackSources(o: Obj, added: seq<Chunk>) returns (full: seq<Chunk>)
      requires Enabled(State(), Action.Merge(Track(o, added), {}))
      modifies this`tracking
      ensures State() == Step(old(State()), Action.Merge(Track(o, added), {}))
      ensures full == Row(OnDisk().kg, o) && Ids(full) == old(SourceSet(OnDisk().kg, o)) + Ids(added)
      ensures forall i, j :: 0 <= i < j < |full| ==> full[i] != full[j]
    {
      full := MergeIds(Existing(o), added);
      tracking := tracking[o := full];
    }

    method UpsertObject(o: Obj, added: seq<Chunk>, full: seq<Chunk>, ghost carries: set<Event>)
      requires Enabled(State(), Action.Merge(Upsert(o, added), carries)) && full == Row(OnDisk().kg, o)
      requires forall i, j :: 0 <= i < j < |full| ==> full[i] != full[j]
      modifies this`graph, this`log
      ensures State() == Step(old(State()), Action.Merge(Upsert(o, added), carries)) && log.next == old(log.next)
    {
      ghost var s := State();
      assert added[0] in Ids(added) && full != [];
      DedupAbsorbs(full, added);
      graph := graph[o := full];
      log := Step(s, Action.Merge(Upsert(o, added), carries)).log;
    }

    /** A missing endpoint is created with the edge's whole list; its row follows its node. */
    method CreateEndpoint(edge: Obj, end: Name, full: seq<Chunk>, tracked: bool, ghost carries: set<Event>)
      requires Enabled(State(), Action.Merge(CreateEnd(edge, end, tracked), carries)) && full == Row(OnDisk().kg, edge)
      modifies this`graph, this`tracking, this`log
      ensures State() == Step(old(State()), Action.Merge(CreateEnd(edge, end, tracked), carries))
      ensures log.next == old(log.next)
    {
      ghost var s := State();
      graph := graph[Entity(end) := full];
      if tracked {
        tracking := tracking[Entity(end) := full];
      }
      log := Step(s, Action.Merge(CreateEnd(edge, end, tracked), carries)).log;
    }

    /** Record a truncated summary and journal it before the object it warns about. */
    method RecordAhead() returns (event: Event)
      requires At(State(), Merging) && rollback.None? && log.next == clock
      modifies this`clock, this`run, this`row, this`log
      ensures Enabled(Step(old(State()), RecordSummary), WriteAhead(event))
      ensures State() == Step(Step(old(State()), RecordSummary), WriteAhead(event)) && log.next == clock
      ensures MidMerge(old(run.value))
      ensures run.value.pending == old(run.value.pending) + multiset{event}
      ensures run.value.hooked == old(run.value.hooked) + {event}
    {
      ghost var s := State();
      event := clock;
      clock := clock + 1;
      run := Some(run.value.(pending := run.value.pending + multiset{event}));
      log := Step(s, RecordSummary).log;
      assert State() == Step(s, RecordSummary);
      var tallied := Tallied(run.value);
      WriteJournal(run.value.journal, tallied);
      run := Some(run.value.(hooked := run.value.hooked + {event}));
    }

    /** What no write of a merge changes of the attempt it belongs to. */
    ghost predicate MidMerge(before: Run)
      reads this
    {
      && run.Some? && run.value.pc == Merging && rollback.None?
      && run.value.sample == before.sample && run.value.resume == before.resume
      && run.value.journal == before.journal
    }

    ghost predicate HooksDone()
      reads this
    {
      run.Some? && forall e :: e in run.value.pending ==> e in run.value.hooked
    }

    ghost predicate CarriesFrom(carries: set<Event>)
      reads this
    {
      run.Some? && forall e :: e in carries ==> e in run.value.tally || e in run.value.hooked
    }

    /** Where the merge of an edge stands: its row is written, and nothing of it is staged twice. */
    ghost predicate EdgeTracked(edge: Obj, full: seq<Chunk>)
      reads this
    {
      && At(State(), Merging) && rollback.None? && HooksDone()
      && NamesEndpoints(run.value.sample) && edge in run.value.sample && edge.Relation? && Mergeable(edge)
      && full == Row(OnDisk().kg, edge) && full != [] && !(Ids(full) !! Ids(run.value.journal.chunkIds))
    }

    ghost predicate EndReady(e: Obj, full: seq<Chunk>)
      reads this
    {
      e in graph && Ids(full) <= SourceSet(OnDisk().kg, e)
    }

    /** One merge write on the stores: the run it continues, and what it may not take away. */
    ghost predicate Wrote(before: Sys, w: KgWrite)
      reads this
    {
      Enabled(before, Action.Merge(w, {})) && State() == Step(before, Action.Merge(w, {}))
    }

    lemma WroteOne(before: Sys, w: KgWrite, s0: Sys, trace: seq<Action>)
      requires Wrote(before, w) && Follows(s0, trace, before)
      ensures Follows(s0, trace + [Action.Merge(w, {})], State()) && Grown(before.disk.kg)
    {
      Extend(s0, trace, before, Action.Merge(w, {}));
      WriteGrows(before.disk.kg, before.run.value.sample, Ids(before.run.value.journal.chunkIds), w);
    }

    method TrackEndpoint(edge: Obj, end: Name, full: seq<Chunk>, merged: seq<Chunk>)
      requires EdgeTracked(edge, full) && IsEnd(edge, end) && Entity(end) in graph
      requires merged == MergeIds(Sources(OnDisk().kg, Entity(end)), full) != Sources(OnDisk().kg, Entity(end))
      modifies this`tracking
      ensures Wrote(old(State()), TrackEnd(edge, end))
      ensures EdgeTracked(edge, full) && merged == Sources(OnDisk().kg, Entity(end)) == MergeIds(merged, full)
    {
      ghost var s, before := State(), OnDisk().kg;
      assert Enabled(s, Action.Merge(TrackEnd(edge, end), {}));
      TrackedEnd(before, edge, end);
      tracking := tracking[Entity(end) := merged];
      assert OnDisk().kg == Written(before, TrackEnd(edge, end));
    }

    method UpsertEndpoint(edge: Obj, end: Name, full: seq<Chunk>, merged: seq<Chunk>)
      requires EdgeTracked(edge, full) && IsEnd(edge, end) && Entity(end) in graph
      requires merged == Sources(OnDisk().kg, Entity(end)) == MergeIds(merged, full)
      modifies this`graph
      ensures Wrote(old(State()), UpsertEnd(edge, end))
      ensures EdgeTracked(edge, full) && EndReady(Entity(end), full)
    {
      graph := graph[Entity(end) := merged];
    }

    /** An existing endpoint takes the edge's list into its row and its node, either of them
        only if that changes something. */
    method UpdateEndpoint(edge: Obj, end: Name, full: seq<Chunk>, budget: nat, ghost s0: Sys, ghost trace: seq<Action>)
      returns (done: bool, left: nat, ghost now: seq<Action>)
      requires Follows(s0, trace, State()) && log.next == clock
      requires EdgeTracked(edge, full) && IsEnd(edge, end) && Entity(end) in graph
      modifies this`graph, this`tracking
      ensures Follows(s0, now, State())
      ensures left + 2 >= budget && (budget >= 2 ==> done)
      ensures done ==> EdgeTracked(edge, full) && EndReady(Entity(end), full)
      ensures Grown(old(OnDisk().kg))
    {
      now, left, done := trace, budget, false;
      var existing := Existing(Entity(end));
      var merged := MergeIds(existing, full);
      if merged != existing {
        if left == 0 { return; }
        ghost var before := State();
        TrackEndpoint(edge, end, full, merged);
        WroteOne(before, TrackEnd(edge, end), s0, now);
        now := now + [Action.Merge(TrackEnd(edge, end), {})];
        left := left - 1;
      }
      if graph[Entity(end)] != merged {
        if left == 0 { return; }
        ghost var before := State();
        UpsertEndpoint(edge, end, full, merged);
        WroteOne(before, UpsertEnd(edge, end), s0, now);
        now := now + [Action.Merge(UpsertEnd(edge, end), {})];
        left := left - 1;
      }
      done := true;
    }

    /** A missing endpoint is created; a merge cut in between leaves its node without a row. */
    method EnsureEndpoint(edge: Obj, end: Name, full: seq<Chunk>, ghost carries: set<Event>, budget: nat,
                          ghost s0: Sys, ghost trace: seq<Action>)
      returns (done: bool, left: nat, ghost now: seq<Action>)
      requires Follows(s0, trace, State()) && log.next == clock && CarriesFrom(carries)
      requires EdgeTracked(edge, full) && IsEnd(edge, end)
      modifies this`graph, this`tracking, this`log
      ensures Follows(s0, now, State()) && log.next == clock && run == old(run)
      ensures left + 2 >= budget && (budget >= 2 ==> done)
      ensures done ==> EdgeTracked(edge, full) && EndReady(Entity(end), full)
      ensures Grown(old(OnDisk().kg))
    {
      if Entity(end) in graph {
        done, left, now := UpdateEndpoint(edge, end, full, budget, s0, trace);
        return;
      }
      if budget == 0 { return false, 0, trace; }
      done := budget >= 2;
      Extend(s0, trace, State(), Action.Merge(CreateEnd(edge, end, done), carries));
      WriteGrows(OnDisk().kg, run.value.sample, Ids(run.value.journal.chunkIds), CreateEnd(edge, end, done));
      CreateEndpoint(edge, end, full, done, carries);
      now := trace + [Action.Merge(CreateEnd(edge, end, done), carries)];
      left := if done then budget - 2 else 0;
    }

    method EnsureEndpoints(edge: Obj, full: seq<Chunk>, ghost carries: set<Event>, budget: nat,
                           ghost s0: Sys, ghost trace: seq<Action>)
      returns (done: bool, left: nat, ghost now: seq<Action>)
      requires Follows(s0, trace, State()) && log.next == clock && CarriesFrom(carries)
      requires EdgeTracked(edge, full)
      modifies this`graph, this`tracking, this`log
      ensures Follows(s0, now, State()) && log.next == clock && run == old(run)
      ensures left + 4 >= budget && (budget >= 4 ==> done)
      ensures done ==> full == Row(OnDisk().kg, edge) && EndsReady(OnDisk().kg, edge)
      ensures Grown(old(OnDisk().kg))
    {
      done, left, now := EnsureEndpoint(edge, edge.lo, full, carries, budget, s0, trace);
      ghost var half := OnDisk().kg;
      if done {
        assert Ids(full) <= SourceSet(half, Entity(edge.lo));
        done, left, now := EnsureEndpoint(edge, edge.hi, full, carries, left, s0, now);
        assert Grows(half, OnDisk().kg);
      }
    }

    method RecordSummaryAhead(ghost s0: Sys, ghost trace: seq<Action>) returns (event: Event)
      requires Follows(s0, trace, State()) && log.next == clock
      requires At(State(), Merging) && rollback.None? && HooksDone()
      modifies this`clock, this`run, this`row, this`log
      ensures Follows(s0, trace + [RecordSummary, WriteAhead(event)], State()) && log.next == clock
      ensures HooksDone() && MidMerge(old(run.value)) && event in run.value.hooked
    {
      ghost var s := State();
      Extend(s0, trace, s, RecordSummary);
      event := RecordAhead();
      Extend(s0, trace + [RecordSummary], Step(s, RecordSummary), WriteAhead(event));
      assert trace + [RecordSummary] + [WriteAhead(event)] == trace + [RecordSummary, WriteAhead(event)];
    }

    /** The row is tracked and a truncated summary journaled before anything is upserted. */
    method TrackFragment(f: Fragment, ghost s0: Sys, ghost trace: seq<Action>)
      returns (full: seq<Chunk>, ghost carries: set<Event>, ghost now: seq<Action>)
      requires Follows(s0, trace, State()) && log.next == clock
      requires At(State(), Merging) && rollback.None? && HooksDone() && Mergeable(f.o)
      requires FromSample(f, run.value.sample, run.value.journal.chunkIds)
      modifies this`tracking, this`clock, this`run, this`row, this`log
      ensures Follows(s0, now, State()) && log.next == clock && HooksDone() && MidMerge(old(run.value))
      ensures full == Row(OnDisk().kg, f.o) && Ids(f.added) <= Ids(full) && CarriesFrom(carries)
      ensures forall i, j :: 0 <= i < j < |full| ==> full[i] != full[j]
      ensures Grown(old(OnDisk().kg))
    {
      Extend(s0, trace, State(), Action.Merge(Track(f.o, f.added), {}));
      WriteGrows(OnDisk().kg, run.value.sample, Ids(run.value.journal.chunkIds), Track(f.o, f.added));
      full := TrackSources(f.o, f.added);
      now := trace + [Action.Merge(Track(f.o, f.added), {})];
      carries := Elements(run.value.tally);
      if f.truncated {
        var event := RecordSummaryAhead(s0, now);
        now := now + [RecordSummary, WriteAhead(event)];
        carries := Elements(run.value.tally) + {event};
      }
    }

    method UpsertFragment(f: Fragment, full: seq<Chunk>, ghost carries: set<Event>, ghost s0: Sys, ghost trace: seq<Action>)
      returns (ghost now: seq<Action>)
      requires Follows(s0, trace, State()) && log.next == clock && CarriesFrom(carries)
      requires At(State(), Merging) && Mergeable(f.o) && FromSample(f, run.value.sample, run.value.journal.chunkIds)
      requires full == Row(OnDisk().kg, f.o) && Ids(f.added) <= Ids(full) && EndsReady(OnDisk().kg, f.o)
      requires forall i, j :: 0 <= i < j < |full| ==> full[i] != full[j]
      modifies this`graph, this`log
      ensures Follows(s0, now, State()) && log.next == clock && Landed(f) && Grown(old(OnDisk().kg))
    {
      assert f.added[0] in Ids(f.added) && f.added[0] in Ids(full);
      Extend(s0, trace, State(), Action.Merge(Upsert(f.o, f.added), carries));
      WriteGrows(OnDisk().kg, run.value.sample, Ids(run.value.journal.chunkIds), Upsert(f.o, f.added));
      UpsertObject(f.o, f.added, full, carries);
      now := trace + [Action.Merge(Upsert(f.o, f.added), carries)];
    }

    /** One object of the sample, as far as the budget of writes goes. */
    method MergeFragment(f: Fragment, budget: nat, ghost s0: Sys, ghost trace: seq<Action>)
      returns (done: bool, left: nat, ghost now: seq<Action>)
      requires Follows(s0, trace, State()) && log.next == clock
      requires At(State(), Merging) && rollback.None? && HooksDone() && NamesEndpoints(run.value.sample)
      requires FromSample(f, run.value.sample, run.value.journal.chunkIds)
      modifies this
      ensures Follows(s0, now, State()) && log.next == clock && HooksDone() && MidMerge(old(run.value))
      ensures left + WRITES_PER_FRAGMENT >= budget && (budget >= WRITES_PER_FRAGMENT ==> done)
      ensures Grown(old(OnDisk().kg))
      ensures done ==> Landed(f)
    {
      if f.o.Relation? && f.o.lo == f.o.hi { return true, budget, trace; }
      if budget == 0 { return false, 0, trace; }
      var full;
      ghost var carries;
      full, carries, now := TrackFragment(f, s0, trace);
      assert f.added[0] in Ids(f.added) && f.added[0] in Ids(full);
      done, left := true, budget - 1;
      if f.o.Relation? {
        done, left, now := EnsureEndpoints(f.o, full, carries, left, s0, now);
      }
      if !done || left == 0 { return false, left, now; }
      now := UpsertFragment(f, full, carries, s0, now);
      left := left - 1;
    }

    /** The merge's fragments in order, up to the write it does not get to make. */
    method MergeFragments(fragments: seq<Fragment>, budget: nat, ghost s0: Sys, ghost trace: seq<Action>)
      returns (done: bool, ghost now: seq<Action>)
      requires Follows(s0, trace, State()) && log.next == clock
      requires At(State(), Merging) && rollback.None? && HooksDone() && NamesEndpoints(run.value.sample)
      requires forall i :: 0 <= i < |fragments| ==>
        FromSample(fragments[i], run.value.sample, run.value.journal.chunkIds)
      modifies this
      ensures Follows(s0, now, State()) && log.next == clock && MidMerge(old(run.value)) && HooksDone()
      ensures budget >= WRITES_PER_FRAGMENT * |fragments| ==> done
      ensures done ==> forall i :: 0 <= i < |fragments| ==> Landed(fragments[i])
    {
      now, done := trace, true;
      var left: nat := budget;
      for i := 0 to |fragments|
        invariant Follows(s0, now, State()) && log.next == clock && HooksDone() && MidMerge(old(run.value))
        invariant done && left + WRITES_PER_FRAGMENT * i >= budget
        invariant forall k :: 0 <= k < i ==> Landed(fragments[k])
      {
        done, left, now := MergeFragment(fragments[i], left, s0, now);
        if !done { return; }
      }
    }

    /** Barriers around the merge, which itself sits at barrier 6. */
    method Prepare(w: Weather, ghost s0: Sys, ghost trace: seq<Action>) returns (done: bool, ghost now: seq<Action>)
      requires Follows(s0, trace, State()) && log.next == clock
      requires At(State(), Begun) && rollback.None? && Lawful(w, run.value.journal.chunkIds)
      modifies this
      ensures Follows(s0, now, State()) && log.next == clock && run.Some? && rollback.None?
      ensures done <==> w.stop > 3
      ensures done ==> At(State(), Applied) && run.value.sample == w.found && run.value.pending == old(run.value.pending)
      ensures run.value.journal.chunkIds == old(run.value.journal.chunkIds)
      ensures run.value.journal.operation == old(run.value.journal.operation)
    {
      now := trace;
      if w.stop == 0 { return false, now; }
      Extend(s0, now, State(), StageChunks);
      Stage();
      now := now + [StageChunks];
      if w.stop == 1 { return false, now; }
      Extend(s0, now, State(), Extract(w.found, w.truncated));
      ExtractSample(w.found, w.truncated);
      now := now + [Extract(w.found, w.truncated)];
      if w.stop == 2 { return false, now; }
      Extend(s0, now, State(), WriteApplying);
      JournalCandidates();
      now := now + [WriteApplying];
      done := w.stop > 3;
    }

    method PrewriteAnchors(stop: nat, ghost s0: Sys, ghost trace: seq<Action>) returns (done: bool, ghost now: seq<Action>)
      requires Follows(s0, trace, State()) && log.next == clock
      requires At(State(), Applied) && rollback.None?
      modifies this`entityRow, this`relationRow, this`run
      ensures Follows(s0, now, State()) && log.next == clock && run.Some?
      ensures stop > 5 ==> done
      ensures run.value.journal == old(run.value.journal)
      ensures done ==> At(State(), Merging) && run.value.sample == old(run.value.sample)
      ensures done ==> run.value.pending == old(run.value.pending)
    {
      now := trace;
      if run.value.journal.mode == Create && run.value.journal.chunkIds != [] {
        if stop == 4 { return false, now; }
        Extend(s0, now, State(), ReplaceEntityRow);
        ReplaceEntities();
        now := now + [ReplaceEntityRow];
        if stop == 5 { return false, now; }
        Extend(s0, now, State(), ReplaceRelationRow);
        ReplaceRelations();
        now := now + [ReplaceRelationRow];
      } else {
        Extend(s0, now, State(), StartMerge);
        run := Some(run.value.(pc := Merging));
        now := now + [StartMerge];
      }
      done := true;
    }

    /** The merge returns: its own events join the operation's. */
    method PublishTally()
      requires At(State(), Merging) && rollback.None? && HooksDone()
      modifies this`run
      ensures Enabled(old(State()), FinishMerge) && State() == Step(old(State()), FinishMerge)
      ensures At(State(), Merged)
      ensures run.value.journal == old(run.value.journal) && run.value.resume == old(run.value.resume)
    {
      var r := run.value;
      run := Some(r.(pc := Merged, tally := r.tally + r.pending, pending := multiset{}));
    }

    method UnionEntities()
      requires Enabled(State(), UnionEntityRow)
      modifies this`entityRow, this`run
      ensures State() == Step(old(State()), UnionEntityRow)
      ensures At(State(), EntityRowUnioned) && run.value.journal == old(run.value.journal)
    {
      entityRow := Some(Listed(entityRow) + EntitiesOf(run.value.journal.names));
      run := Some(run.value.(pc := EntityRowUnioned));
    }

    method UnionRelations()
      requires Enabled(State(), UnionRelationRow)
      modifies this`relationRow, this`run
      ensures State() == Step(old(State()), UnionRelationRow)
      ensures At(State(), Unioned) && run.value.journal == old(run.value.journal)
    {
      relationRow := Some(Listed(relationRow) + RelationsOf(run.value.journal.names));
      run := Some(run.value.(pc := Unioned));
    }

    /** Union the accumulated candidates into the anchors: patches, and creates that resumed. */
    method UnionAnchors(stop: nat, ghost s0: Sys, ghost trace: seq<Action>) returns (done: bool, ghost now: seq<Action>)
      requires Follows(s0, trace, State())
      requires At(State(), Merged) && rollback.None?
      modifies this`entityRow, this`relationRow, this`run
      ensures Follows(s0, now, State()) && run.Some?
      ensures stop > 1 ==> done
      ensures done ==> Enabled(State(), Commit)
      ensures run.value.journal == old(run.value.journal)
    {
      now := trace;
      done := true;
      if run.value.journal.mode == Patch || run.value.resume {
        if stop == 0 { return false, now; }
        Extend(s0, now, State(), UnionEntityRow);
        UnionEntities();
        now := now + [UnionEntityRow];
        if stop == 1 { return false, now; }
        Extend(s0, now, State(), UnionRelationRow);
        UnionRelations();
        now := now + [UnionRelationRow];
      }
    }

    /** The commit record, written last with the journal cleared. */
    method WriteCommitted()
      requires Enabled(State(), Commit)
      modifies this`row, this`run
      ensures State() == Step(old(State()), Commit)
      ensures run.None? && row.Some? && row.value.status == Processed && row.value.patch.None?
    {
      var r := run.value;
      var chunks := r.journal.chunkIds;
      if r.journal.mode == Patch {
        chunks := Dedup(r.base.chunksList + chunks);
      }
      row := Some(r.base.(status := Processed, patch := None, chunksList := chunks,
                          truncation := r.journal.prior + Tallied(r)));
      run := None;
    }

    method WriteFailed()
      requires run.Some?
      modifies this`row, this`run, this`log
      ensures State() == Step(old(State()), Fail) && log.next == old(log.next) && run.None?
      ensures row.Some? && row.value.status == Failed && row.value.patch.Some?
      ensures row.value.patch.value.operation == old(run.value.journal.operation)
    {
      ghost var s := State();
      var r := run.value;
      var events := Tallied(r);
      row := Some(r.base.(status := Failed,
                          patch := Some(r.journal.(stage := FailedStage, events := events)),
                          truncation := r.journal.prior + events));
      run := None;
      log := Step(s, Fail).log;
    }

    /** The merge call: its anchor prewrite, its writes, and the tally it publishes. */
    method MergeIntoGraph(w: Weather, ghost s0: Sys, ghost trace: seq<Action>) returns (done: bool, ghost now: seq<Action>)
      requires Follows(s0, trace, State()) && log.next == clock
      requires At(State(), Applied) && rollback.None? && run.value.pending == multiset{}
      requires run.value.sample == w.found && Lawful(w, run.value.journal.chunkIds)
      modifies this
      ensures Follows(s0, now, State()) && rollback.None? && log.next == clock && run.Some?
      ensures done ==> At(State(), Merged)
      ensures run.value.journal == old(run.value.journal)
      ensures w.stop > 6 && w.writes >= WRITES_PER_FRAGMENT * |w.fragments| ==> done
      ensures done ==> AllLanded(w)
    {
      done, now := PrewriteAnchors(w.stop, s0, trace);
      if !done { return; }
      done, now := MergeFragments(w.fragments, w.writes, s0, now);
      if !done || w.stop == 6 { return false, now; }
      Extend(s0, now, State(), FinishMerge);
      PublishTally();
      now := now + [FinishMerge];
    }

    /** One attempt from the journal write to the commit record, or to where it stopped. */
    method Try(w: Weather, ghost inputs: seq<string>, ghost s0: Sys, ghost trace: seq<Action>) returns (done: bool, ghost now: seq<Action>)
      requires Follows(s0, trace, State()) && log.next == clock
      requires At(State(), Begun) && rollback.None? && run.value.pending == multiset{}
      requires Lawful(w, run.value.journal.chunkIds) && run.value.journal.operation == Entries(doc, inputs)
      modifies this
      ensures Follows(s0, now, State()) && rollback.None? && log.next == clock
      ensures done && Sturdy(s0) ==> OwnsAll(State(), inputs)
      ensures if done then run.None? && row.Some? && row.value.status == Processed && row.value.patch.None?
              else run.Some? && run.value.journal.operation == Entries(doc, inputs)
      ensures w.stop > 8 && w.writes >= WRITES_PER_FRAGMENT * |w.fragments| ==> done
      ensures done ==> AllLanded(w)
    {
      done, now := Prepare(w, s0, trace);
      if !done { return; }
      done, now := MergeIntoGraph(w, s0, now);
      if !done { return; }
      done, now := Conclude(if w.stop > 6 then w.stop - 7 else 0, inputs, s0, now);
    }

    method Conclude(stop: nat, ghost inputs: seq<string>, ghost s0: Sys, ghost trace: seq<Action>)
      returns (done: bool, ghost now: seq<Action>)
      requires Follows(s0, trace, State()) && At(State(), Merged) && rollback.None?
      requires run.value.journal.operation == Entries(doc, inputs)
      modifies this`entityRow, this`relationRow, this`run, this`row
      ensures Follows(s0, now, State())
      ensures if done then run.None? && row.Some? && row.value.status == Processed && row.value.patch.None?
              else run.Some? && run.value.journal.operation == Entries(doc, inputs)
      ensures stop > 1 ==> done
      ensures done && Sturdy(s0) ==> OwnsAll(State(), inputs)
    {
      done, now := UnionAnchors(stop, s0, trace);
      if !done { return; }
      if Sturdy(s0) {
        TraceKeepsSturdy(s0, now);
        CommitOwnsAll(State(), inputs);
      }
      Extend(s0, now, State(), Commit);
      WriteCommitted();
      now := now + [Commit];
    }

    /** How an attempt that did not commit ends: the failure is journaled, or the process dies. */
    method GiveUp(killed: bool, ghost s0: Sys, ghost trace: seq<Action>) returns (outcome: Outcome, ghost now: seq<Action>)
      requires Follows(s0, trace, State()) && run.Some? && rollback.None? && log.next == clock
      modifies this`row, this`run, this`log
      ensures Follows(s0, now, State()) && Idle()
      ensures outcome == if killed then Killed else Raised
      ensures killed ==> row == old(row)
      ensures !killed ==> row.Some? && row.value.status == Failed && row.value.patch.Some?
      ensures !killed ==> row.value.patch.value.operation == old(run.value.journal.operation)
    {
      if killed {
        Extend(s0, trace, State(), Crash);
        run := None;
        return Killed, trace + [Crash];
      }
      Extend(s0, trace, State(), Fail);
      WriteFailed();
      return Raised, trace + [Fail];
    }

    /** The whole call, proved to be a run of the state machine from and to a state at rest. */
    method InsertCustomChunks(inputs: seq<string>, w: Weather) returns (outcome: Outcome, ghost trace: seq<Action>)
      requires Idle()
      requires Decide(doc, OnDisk(), inputs).Go? ==> Lawful(w, Decide(doc, OnDisk(), inputs).entries)
      modifies this
      ensures Follows(old(State()), trace, State()) && Idle()
      ensures var decision := old(Decide(doc, OnDisk(), inputs));
        && (outcome.Nothing? <==> decision.NothingToDo?)
        && (outcome.Rejected? <==> decision.OtherOperationUnfinished? || decision.WrongStatus?)
        && (!decision.Go? ==> State() == old(State()))
      ensures outcome.Inserted? ==> row.Some? && row.value.status == Processed && row.value.patch.None? && AllLanded(w)
      ensures outcome.Inserted? && Sturdy(old(State())) ==> forall t :: t in inputs && t != "" ==> t in Committed(OnDisk())
      ensures Sturdy(old(State())) && HasBody(old(State())) ==> HasBody(State())
      ensures outcome.Raised? ==> row.Some? && row.value.status == Failed
      ensures outcome.Raised? || (outcome.Killed? && Sturdy(old(State()))) ==>
        row.Some? && row.value.patch.Some? && row.value.patch.value.operation == Entries(doc, inputs)
      ensures old(Decide(doc, OnDisk(), inputs)).Go? && w.stop > 8 && w.writes >= WRITES_PER_FRAGMENT * |w.fragments| ==>
        outcome.Inserted?
    {
      ghost var s0 := State();
      trace := [];
      var decision := Resolve(inputs);
      if !decision.Go? {
        outcome := if decision.NothingToDo? then Nothing else Rejected;
        return;
      }
      Extend(s0, [], s0, Begin(inputs));
      Start(decision, inputs);
      trace := [] + [Begin(inputs)];
      var done;
      done, trace := Try(w, inputs, s0, trace);
      outcome := Inserted;
      if !done {
        if Sturdy(s0) {
          TraceKeepsSturdy(s0, trace);
        }
        outcome, trace := GiveUp(w.killed, s0, trace);
      }
      InsertedForGood(s0, trace, State(), inputs);
    }

    // ----- rolling back -----

    method RunDerivedPass()
      requires Enabled(State(), Action.PurgeDerived) && rollback.value.kgAtStart == Kg(graph, tracking)
      modifies this`graph, this`tracking, this`rollback
      ensures State() == Step(old(State()), Action.PurgeDerived)
      ensures Rolling(State(), DerivedDone) && rollback.value.journal == old(rollback.value.journal)
    {
      var journal := rollback.value.journal;
      if journal.chunkIds != [] {
        var pass := new DocumentStores(Kg(graph, tracking), {}, None, None, false);
        var reached := pass.PurgeDerived(journal.names, Ids(journal.chunkIds), Rollback, 5);
        graph, tracking := pass.graph, pass.tracking;
      }
      rollback := Some(rollback.value.(pc := DerivedDone));
    }

    method DropStagedRows()
      requires Enabled(State(), ChunkRowsDeleted)
      modifies this`texts, this`rollback
      ensures State() == Step(old(State()), ChunkRowsDeleted)
      ensures Rolling(State(), ChunksGone) && rollback.value.journal == old(rollback.value.journal)
      ensures texts == old(texts) - Ids(old(rollback.value.journal.chunkIds))
    {
      texts := texts - Ids(rollback.value.journal.chunkIds);
      rollback := Some(rollback.value.(pc := ChunksGone));
    }

    /** A candidate stays named only if one of the owned chunks still supports it. */
    method PruneRow(names: set<Obj>, owned: set<Chunk>, anchor: Option<set<Obj>>) returns (pruned: Option<set<Obj>>)
      ensures pruned == Prune(anchor, names, Kg(graph, tracking), owned)
      ensures anchor.Some? <==> pruned.Some?
      ensures anchor.Some? ==> forall o :: o in pruned.value <==>
        o in anchor.value && (o in names ==> o in tracking && exists c :: c in tracking[o] && c in owned)
    {
      if anchor.None? { return None; }
      var keep: set<Obj> := {};
      var todo := anchor.value;
      while todo != {}
        invariant todo <= anchor.value
        invariant keep == set o | o in anchor.value - todo && (o !in names || (o in tracking && !(Ids(tracking[o]) !! owned)))
        decreases todo
      {
        var o :| o in todo;
        if o !in names {
          keep := keep + {o};
        } else {
          var sources := if o in tracking then Ids(tracking[o]) else {};
          if !(sources !! owned) {
            keep := keep + {o};
          }
        }
        todo := todo - {o};
      }
      assert anchor.value - todo == anchor.value;
      return Some(keep);
    }

    function OwnedChunks(): set<Chunk>
      reads this
    {
      if row.None? || row.value.patch.None? then {}
      else Ids(row.value.chunksList) - Ids(row.value.patch.value.chunkIds)
    }

    method SettleEntities()
      requires Enabled(State(), SettleEntityRow)
      modifies this`entityRow, this`rollback
      ensures State() == Step(old(State()), SettleEntityRow)
      ensures Rolling(State(), EntityRowDone) && rollback.value.journal == old(rollback.value.journal)
    {
      var r := rollback.value;
      if r.journal.mode == Patch {
        entityRow := PruneRow(r.journal.names, OwnedChunks(), entityRow);
      } else if r.journal.chunkIds != [] {
        entityRow := None;
      }
      rollback := Some(r.(pc := EntityRowDone));
    }

    method SettleRelations()
      requires Enabled(State(), SettleRelationRow)
      modifies this`relationRow, this`rollback
      ensures State() == Step(old(State()), SettleRelationRow)
      ensures Rolling(State(), AnchorsDone) && rollback.value.journal == old(rollback.value.journal)
    {
      var r := rollback.value;
      if r.journal.mode == Patch {
        relationRow := PruneRow(r.journal.names, OwnedChunks(), relationRow);
      } else if r.journal.chunkIds != [] {
        relationRow := None;
      }
      rollback := Some(r.(pc := AnchorsDone));
    }

    method RemoveBody()
      requires Enabled(State(), DeleteBody)
      modifies this`body, this`rollback
      ensures State() == Step(old(State()), DeleteBody) && Rolling(State(), BodyGone) && !body
      ensures rollback.value.journal == old(rollback.value.journal)
    {
      body := false;
      rollback := Some(rollback.value.(pc := BodyGone));
    }

    method RestoreRow()
      requires Enabled(State(), FinishRollback)
      modifies this`row, this`rollback
      ensures State() == Step(old(State()), FinishRollback) && rollback.None?
      ensures row == if old(rollback.value.journal.mode) == Create || old(row).None? then None
                     else Some(RestoredRow(old(row.value), old(rollback.value.journal)))
    {
      var journal := rollback.value.journal;
      if journal.mode == Create || row.None? {
        row := None;
      } else {
        row := Some(RestoredRow(row.value, journal));
      }
      rollback := None;
    }

    method Abandon(ghost s0: Sys, ghost trace: seq<Action>) returns (ghost now: seq<Action>)
      requires Follows(s0, trace, State()) && run.None? && log.next == clock
      modifies this`rollback
      ensures Follows(s0, now, State()) && Idle()
    {
      Extend(s0, trace, State(), Crash);
      rollback := None;
      now := trace + [Crash];
    }

    method PurgeStaged(stop: nat, ghost s0: Sys, ghost trace: seq<Action>) returns (done: bool, ghost now: seq<Action>)
      requires Follows(s0, trace, State()) && log.next == clock
      requires Rolling(State(), Purging) && run.None? && rollback.value.kgAtStart == Kg(graph, tracking)
      modifies this`graph, this`tracking, this`texts, this`rollback
      ensures Follows(s0, now, State()) && run.None? && log.next == clock
      ensures done <==> stop > 1
      ensures done ==> Rolling(State(), ChunksGone) && rollback.value.journal == old(rollback.value.journal)
      ensures done ==> texts == old(texts) - Ids(old(rollback.value.journal.chunkIds))
    {
      if stop == 0 { return false, trace; }
      Extend(s0, trace, State(), Action.PurgeDerived);
      RunDerivedPass();
      now := trace + [Action.PurgeDerived];
      done := stop > 1;
      if done {
        now := DeleteStagedRows(s0, now);
      }
    }

    method DeleteStagedRows(ghost s0: Sys, ghost trace: seq<Action>) returns (ghost now: seq<Action>)
      requires Follows(s0, trace, State()) && Rolling(State(), DerivedDone)
      modifies this`texts, this`rollback
      ensures Follows(s0, now, State()) && Rolling(State(), ChunksGone)
      ensures rollback.value.journal == old(rollback.value.journal)
      ensures texts == old(texts) - Ids(old(rollback.value.journal.chunkIds))
    {
      Extend(s0, trace, State(), ChunkRowsDeleted);
      DropStagedRows();
      now := trace + [ChunkRowsDeleted];
    }

    method SettleAnchors(stop: nat, ghost s0: Sys, ghost trace: seq<Action>) returns (done: bool, ghost now: seq<Action>)
      requires Follows(s0, trace, State()) && log.next == clock
      requires Rolling(State(), ChunksGone) && run.None?
      modifies this`entityRow, this`relationRow, this`rollback
      ensures Follows(s0, now, State()) && run.None? && log.next == clock
      ensures done <==> stop > 1
      ensures done ==> Rolling(State(), AnchorsDone) && rollback.value.journal == old(rollback.value.journal)
    {
      if stop == 0 { return false, trace; }
      Extend(s0, trace, State(), SettleEntityRow);
      SettleEntities();
      now := trace + [SettleEntityRow];
      done := stop > 1;
      if done {
        now := SettleOtherRow(s0, now);
      }
    }

    method SettleOtherRow(ghost s0: Sys, ghost trace: seq<Action>) returns (ghost now: seq<Action>)
      requires Follows(s0, trace, State()) && Rolling(State(), EntityRowDone)
      modifies this`relationRow, this`rollback
      ensures Follows(s0, now, State()) && Rolling(State(), AnchorsDone)
      ensures rollback.value.journal == old(rollback.value.journal)
    {
      Extend(s0, trace, State(), SettleRelationRow);
      SettleRelations();
      now := trace + [SettleRelationRow];
    }

    method RemoveCreatedBody(ghost s0: Sys, ghost trace: seq<Action>) returns (ghost now: seq<Action>)
      requires Follows(s0, trace, State()) && Rolling(State(), AnchorsDone)
      modifies this`body, this`rollback
      ensures Follows(s0, now, State()) && Enabled(State(), FinishRollback)
      ensures rollback.value.journal == old(rollback.value.journal)
      ensures body == (old(body) && old(rollback.value.journal.mode) == Patch)
    {
      now := trace;
      if rollback.value.journal.mode == Create {
        Extend(s0, now, State(), DeleteBody);
        RemoveBody();
        now := now + [DeleteBody];
      }
    }

    method RestoreDocument(ghost s0: Sys, ghost trace: seq<Action>) returns (ghost now: seq<Action>)
      requires Follows(s0, trace, State()) && log.next == clock
      requires Rolling(State(), AnchorsDone) && run.None?
      modifies this`body, this`row, this`rollback
      ensures Follows(s0, now, State()) && Idle()
      ensures row == if old(rollback.value.journal.mode) == Create || old(row).None? then None
                     else Some(RestoredRow(old(row.value), old(rollback.value.journal)))
      ensures body == (old(body) && old(rollback.value.journal.mode) == Patch)
    {
      now := RemoveCreatedBody(s0, trace);
      Extend(s0, now, State(), FinishRollback);
      RestoreRow();
      now := now + [FinishRollback];
    }

    /** The purge of what was staged, then the anchor rows. */
    method PurgeAndSettle(stop: nat, ghost s0: Sys, ghost trace: seq<Action>) returns (done: bool, ghost now: seq<Action>)
      requires Follows(s0, trace, State()) && log.next == clock
      requires Rolling(State(), Purging) && run.None? && rollback.value.kgAtStart == Kg(graph, tracking)
      modifies this`graph, this`tracking, this`texts, this`entityRow, this`relationRow, this`rollback
      ensures Follows(s0, now, State()) && run.None? && log.next == clock
      ensures done <==> stop > 3
      ensures done ==> Rolling(State(), AnchorsDone) && rollback.value.journal == old(rollback.value.journal)
      ensures done ==> texts == old(texts) - Ids(old(rollback.value.journal.chunkIds))
    {
      done, now := PurgeStaged(stop, s0, trace);
      if done {
        done, now := SettleAnchors(stop - 2, s0, now);
      }
    }

    /** Roll the journaled operation back, or be cut before one of its durable steps. */
    method RollBackPatch(stop: nat) returns (done: bool, ghost trace: seq<Action>)
      requires Idle() && Enabled(State(), StartRollback)
      modifies this
      ensures Follows(old(State()), trace, State()) && Idle()
      ensures done <==> stop > 4
      ensures var before, journal := old(row.value), old(row.value.patch.value);
        done ==>
          && texts == old(texts) - Ids(journal.chunkIds)
          && (journal.mode == Create ==> row.None? && !body)
          && (journal.mode == Patch ==> row == Some(RestoredRow(before, journal)) && body == old(body))
    {
      ghost var s0 := State();
      Extend(s0, [], s0, StartRollback);
      rollback := Some(RollbackRun(Purging, row.value.patch.value, Kg(graph, tracking)));
      done, trace := PurgeAndSettle(stop, s0, [] + [StartRollback]);
      if !done || stop == 4 {
        trace := Abandon(s0, trace);
        return false, trace;
      }
      trace := RestoreDocument(s0, trace);
    }
  }
}
