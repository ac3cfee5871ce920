/** One operation at a time, and each of them once: what repeating, resuming and competing
    calls do. */
module CustomChunkOperation {
  import opened KgModel
  import opened CustomChunks
  import opened CustomChunkCoverage
  import opened CustomChunkSoundness
  import opened CustomChunkTruncation
  import opened CustomChunkRollback

  lemma StepKeepsOperation(s: Sys, a: Action)
    requires Sturdy(s) && Unfinished(s) && Enabled(s, a) && Unfinished(Step(s, a))
    ensures var j, j' := s.disk.row.value.patch.value, Step(s, a).disk.row.value.patch.value;
      j'.operation == j.operation && j'.chunkIds == j.chunkIds && j'.mode == j.mode
  {
  }

  lemma {:induction false} TraceKeepsOperation(s: Sys, trace: seq<Action>)
    requires Sturdy(s) && Legal(s, trace) && UnfinishedThroughout(s, trace)
    ensures Sturdy(Replay(s, trace)) && Unfinished(Replay(s, trace))
    ensures var j, j' := s.disk.row.value.patch.value, Replay(s, trace).disk.row.value.patch.value;
      j'.operation == j.operation && j'.chunkIds == j.chunkIds && j'.mode == j.mode
    decreases trace
  {
    if trace != [] {
      StepKeepsSturdy(s, trace[0]);
      StepKeepsOperation(s, trace[0]);
      TraceKeepsOperation(Step(s, trace[0]), trace[1..]);
    }
  }

  /** The journal says how far the attempt got, prepared until the candidates are in it and
      applying from then on, and that it failed exactly when the row says so. */
  ghost predicate StatusTellsStage(s: Sys) {
    Unfinished(s) ==>
      var row, stage := s.disk.row.value, s.disk.row.value.patch.value.stage;
      && (row.status == Processing || row.status == Failed) && (row.status == Failed <==> stage == FailedStage)
      && (s.run.Some? ==>
            if s.run.value.pc == Begun || s.run.value.pc == Staged || s.run.value.pc == Extracted
            then stage == PreparedStage else stage == ApplyingStage)
  }

  lemma StepKeepsStage(s: Sys, a: Action)
    requires Sturdy(s) && StatusTellsStage(s) && Enabled(s, a)
    ensures StatusTellsStage(Step(s, a))
  {
    if WritesStatus(a) { StatusWriteKeepsStage(s, a); }
    else if IsRollbackStep(a) || a.Crash? { RollingKeepsStage(s, a); }
    else { RunningKeepsStage(s, a); }
  }

  predicate WritesStatus(a: Action) {
    a.Begin? || a.WriteApplying? || a.WriteAhead? || a.Commit? || a.Fail?
  }

  lemma StatusWriteKeepsStage(s: Sys, a: Action)
    requires Sturdy(s) && StatusTellsStage(s) && Enabled(s, a) && WritesStatus(a)
    ensures StatusTellsStage(Step(s, a))
  {
  }

  lemma RollingKeepsStage(s: Sys, a: Action)
    requires Sturdy(s) && StatusTellsStage(s) && Enabled(s, a) && (IsRollbackStep(a) || a.Crash?)
    ensures StatusTellsStage(Step(s, a))
  {
    RollingKeepsRow(s, a);
  }

  lemma RollingKeepsRow(s: Sys, a: Action)
    requires Sturdy(s) && Enabled(s, a) && (IsRollbackStep(a) || a.Crash?)
    ensures Step(s, a).run.None?
    ensures if a.FinishRollback? then !Unfinished(Step(s, a)) else Step(s, a).disk.row == s.disk.row
  {
  }

  lemma RunningKeepsStage(s: Sys, a: Action)
    requires Sturdy(s) && StatusTellsStage(s) && Enabled(s, a)
    requires !WritesStatus(a) && !IsRollbackStep(a) && !a.Crash?
    ensures StatusTellsStage(Step(s, a))
  {
  }

  /** So whatever became of the attempt, the operation can be rolled back. */
  lemma LeftOverCanBeRolledBack(s: Sys)
    requires StatusTellsStage(s) && Unfinished(s) && s.run.None? && s.rollback.None?
    ensures Enabled(s, StartRollback)
  {
  }

  /** However far an operation got and however often it failed: a call with its own input
      resumes it with the same operation and the same chunk ids, and a call with any other
      input changes nothing at all. */
  lemma UnfinishedOperationIsExclusive(s: Sys, trace: seq<Action>, t: Sys, inputs: seq<string>)
    requires Sturdy(s) && Unfinished(s) && Legal(s, trace) && UnfinishedThroughout(s, trace)
    requires t == Replay(s, trace) && Enabled(t, Begin(inputs)) && Entries(s.doc, inputs) != []
    ensures var journal := s.disk.row.value.patch.value;
      if Entries(s.doc, inputs) == journal.operation
      then Decide(t.doc, t.disk, inputs) == Go(journal.mode, true, journal.operation, journal.chunkIds)
      else Decide(t.doc, t.disk, inputs) == OtherOperationUnfinished && Step(t, Begin(inputs)) == t
  {
    TraceKeepsOperation(s, trace);
    TraceKeepsDocument(s, trace);
  }

  lemma {:induction false} TraceKeepsDocument(s: Sys, trace: seq<Action>)
    requires Legal(s, trace)
    ensures Replay(s, trace).doc == s.doc
    decreases trace
  {
    if trace != [] {
      StepKeepsDocument(s, trace[0]);
      TraceKeepsDocument(Step(s, trace[0]), trace[1..]);
    }
  }

  // ----- idempotence -----

  lemma OwnedCallDoesNothing(s: Sys, inputs: seq<string>)
    requires OwnsAll(s, inputs) && !Unfinished(s) && Enabled(s, Begin(inputs))
    ensures Decide(s.doc, s.disk, inputs) == NothingToDo
    ensures Step(s, Begin(inputs)) == s
  {
    var entries := Uncommitted(Entries(s.doc, inputs), Committed(s.disk));
    forall c: Chunk
      ensures c !in entries
    {
      assert c in Entries(s.doc, inputs) ==> c.text in Committed(s.disk);
    }
    assert Ids(entries) == {};
    EmptyIds(entries);
  }

  lemma CommittedContentsOnlyGrow(s: Sys, a: Action)
    requires Sturdy(s) && Enabled(s, a) && s.disk.row.Some?
    requires s.disk.row.value.patch.None? ==> s.disk.row.value.status == Processed
    ensures Committed(s.disk) <= Committed(Step(s, a).disk)
    ensures Committed(s.disk) != {} ==>
      var row := Step(s, a).disk.row;
      row.Some? && (row.value.patch.None? ==> row.value.status == Processed)
  {
    var t := Step(s, a);
    if s.disk.row.value.chunksList == [] {
      assert Committed(s.disk) == {};
    } else {
      ContentsKept(s, a);
    }
  }

  lemma ContentsKept(s: Sys, a: Action)
    requires Sturdy(s) && Enabled(s, a) && s.disk.row.Some? && s.disk.row.value.chunksList != []
    ensures Step(s, a).disk.row.Some?
    ensures forall c :: c in CommittedIds(s.disk) && c in s.disk.texts ==>
      c in CommittedIds(Step(s, a).disk) && c in Step(s, a).disk.texts && Step(s, a).disk.texts[c] == s.disk.texts[c]
  {
    var t := Step(s, a);
    if a.Commit? {
      IdsOfConcat(s.run.value.base.chunksList, s.run.value.journal.chunkIds);
    }
    forall c | c in CommittedIds(s.disk)
      ensures c !in StagedIds(s.disk)
    {
    }
  }

  /** Once a call has committed, repeating it at any later time changes nothing stored,
      whatever other operations ran, failed or were rolled back in between. */
  lemma {:induction false} CommittedCallStaysANoOp(s: Sys, trace: seq<Action>, inputs: seq<string>)
    requires Sturdy(s) && OwnsAll(s, inputs) && Entries(s.doc, inputs) != []
    requires Legal(s, trace)
    ensures var t := Replay(s, trace);
      OwnsAll(t, inputs)
      && (!Unfinished(t) && Enabled(t, Begin(inputs)) ==> Step(t, Begin(inputs)) == t)
    decreases trace
  {
    if trace == [] {
      if !Unfinished(s) && Enabled(s, Begin(inputs)) {
        OwnedCallDoesNothing(s, inputs);
      }
    } else {
      var t := Step(s, trace[0]);
      assert Entries(s.doc, inputs)[0].text in Committed(s.disk);
      CommittedContentsOnlyGrow(s, trace[0]);
      StepKeepsDocument(s, trace[0]);
      StepKeepsSturdy(s, trace[0]);
      CommittedCallStaysANoOp(t, trace[1..], inputs);
    }
  }

  /** A call that commits is done for good: at any later time, with no operation unfinished,
      calling with the same input changes nothing. */
  lemma CommittedCallIsIdempotent(s: Sys, inputs: seq<string>, trace: seq<Action>, t: Sys)
    requires Sturdy(s) && Enabled(s, Commit) && Entries(s.doc, inputs) == s.run.value.journal.operation
    requires Legal(Step(s, Commit), trace) && t == Replay(Step(s, Commit), trace)
    requires !Unfinished(t) && Enabled(t, Begin(inputs))
    ensures Decide(t.doc, t.disk, inputs) == NothingToDo && Step(t, Begin(inputs)) == t
  {
    CommitOwnsAll(s, inputs);
    StepKeepsSturdy(s, Commit);
    StepKeepsDocument(s, Commit);
    CommittedCallStaysANoOp(Step(s, Commit), trace, inputs);
    TraceKeepsDocument(Step(s, Commit), trace);
    OwnedCallDoesNothing(t, inputs);
  }

  /** A commit appends: the chunks the document had stay in front, and none comes twice. */
  lemma CommitAppendsItsChunks(s: Sys)
    requires Sturdy(s) && Enabled(s, Commit) && s.run.value.journal.mode == Patch
    ensures var before, after := s.disk.row.value.chunksList, Step(s, Commit).disk.row.value.chunksList;
      && Dedup(before) <= after && Ids(after) == Ids(before) + Ids(s.run.value.journal.chunkIds)
      && forall i, j :: 0 <= i < j < |after| ==> after[i] != after[j]
  {
    CommitKeepsChunks(s);
    DedupKeepsFront(s.run.value.base.chunksList, s.run.value.journal.chunkIds);
  }

  // ----- rolling back is always possible -----

  /** What a rollback that nothing interrupts does next, short of its last write. */
  function NextStep(pc: RollbackPc): Action {
    match pc
    case Purging => PurgeDerived
    case DerivedDone => ChunkRowsDeleted
    case ChunksGone => SettleEntityRow
    case EntityRowDone => SettleRelationRow
    case AnchorsDone => DeleteBody
    case BodyGone => FinishRollback
  }

  function StepsLeft(pc: RollbackPc): nat {
    match pc
    case Purging => 5 case DerivedDone => 4 case ChunksGone => 3
    case EntityRowDone => 2 case AnchorsDone => 1 case BodyGone => 0
  }

  function NextPc(pc: RollbackPc): RollbackPc {
    match pc
    case Purging => DerivedDone
    case DerivedDone => ChunksGone
    case ChunksGone => EntityRowDone
    case EntityRowDone => AnchorsDone
    case AnchorsDone => BodyGone
    case BodyGone => BodyGone
  }

  /** A patch keeps the document's body, so it skips that deletion. */
  predicate Settled(pc: RollbackPc, mode: Mode) {
    pc == BodyGone || (pc == AnchorsDone && mode == Patch)
  }

  function RestOfRollback(pc: RollbackPc, mode: Mode): seq<Action>
    decreases StepsLeft(pc)
  {
    if Settled(pc, mode) then [] else [NextStep(pc)] + RestOfRollback(NextPc(pc), mode)
  }

  function WholeRollback(mode: Mode): seq<Action> {
    [StartRollback] + RestOfRollback(Purging, mode)
  }

  lemma Prepend(s: Sys, a: Action, rest: seq<Action>)
    requires Enabled(s, a) && Legal(Step(s, a), rest)
    ensures Legal(s, [a] + rest) && Replay(s, [a] + rest) == Replay(Step(s, a), rest)
    ensures Unfinished(s) && UnfinishedThroughout(Step(s, a), rest) ==> UnfinishedThroughout(s, [a] + rest)
  {
    assert ([a] + rest)[1..] == rest;
  }

  lemma RollbackAdvances(s: Sys)
    requires Sturdy(s) && s.rollback.Some? && !Settled(s.rollback.value.pc, s.rollback.value.journal.mode)
    ensures var a := NextStep(s.rollback.value.pc);
      && Enabled(s, a) && Unfinished(s) && Sturdy(Step(s, a))
      && Step(s, a).rollback.Some?
      && Step(s, a).rollback.value.journal == s.rollback.value.journal
      && Step(s, a).rollback.value.pc == NextPc(s.rollback.value.pc)
  {
    StepKeepsSturdy(s, NextStep(s.rollback.value.pc));
  }

  lemma {:induction false} RollbackRuns(s: Sys, pc: RollbackPc, mode: Mode)
    requires Sturdy(s) && s.rollback.Some? && s.rollback.value.pc == pc && s.rollback.value.journal.mode == mode
    requires pc == BodyGone ==> mode == Create
    ensures Legal(s, RestOfRollback(pc, mode)) && UnfinishedThroughout(s, RestOfRollback(pc, mode))
    ensures Enabled(Replay(s, RestOfRollback(pc, mode)), FinishRollback)
    decreases StepsLeft(pc), 0
  {
    if !Settled(pc, mode) {
      RollbackAdvances(s);
      RollbackRunsAfter(s, NextStep(pc), Step(s, NextStep(pc)), NextPc(pc), mode);
    }
  }

  lemma {:induction false} RollbackRunsAfter(s: Sys, a: Action, t: Sys, pc: RollbackPc, mode: Mode)
    requires Enabled(s, a) && t == Step(s, a) && Unfinished(s)
    requires Sturdy(t) && t.rollback.Some? && t.rollback.value.pc == pc && t.rollback.value.journal.mode == mode
    requires pc == BodyGone ==> mode == Create
    ensures var trace := [a] + RestOfRollback(pc, mode);
      Legal(s, trace) && UnfinishedThroughout(s, trace) && Enabled(Replay(s, trace), FinishRollback)
    decreases StepsLeft(pc), 1
  {
    RollbackRuns(t, pc, mode);
    Prepend(s, a, RestOfRollback(pc, mode));
  }

  lemma WholeRollbackRuns(s: Sys)
    requires Sturdy(s) && Unfinished(s) && s.run.None? && s.rollback.None?
    ensures var trace := WholeRollback(s.disk.row.value.patch.value.mode);
      Legal(s, trace) && UnfinishedThroughout(s, trace) && Enabled(Replay(s, trace), FinishRollback)
  {
    var t := Step(s, StartRollback);
    StepKeepsSturdy(s, StartRollback);
    RollbackRunsAfter(s, StartRollback, t, Purging, s.disk.row.value.patch.value.mode);
  }

  lemma {:induction false} AppendUnfinished(s: Sys, trace: seq<Action>, more: seq<Action>)
    requires Legal(s, trace) && Legal(s, trace + more) && Legal(Replay(s, trace), more)
    requires UnfinishedThroughout(s, trace) && UnfinishedThroughout(Replay(s, trace), more)
    ensures UnfinishedThroughout(s, trace + more)
    decreases trace
  {
    if trace == [] {
      assert trace + more == more;
    } else {
      assert (trace + more)[1..] == trace[1..] + more;
      AppendUnfinished(Step(s, trace[0]), trace[1..], more);
    }
  }

  /** From any state an unfinished operation can be left in, a rollback that is not
      interrupted runs to its end and undoes the operation. */
  lemma FailedOperationCanBeUndone(s0: Sys, inputs: seq<string>, trace: seq<Action>, t: Sys)
    requires Sturdy(s0) && TruncationInv(s0) && Sound(s0.disk.kg) && StartsOperation(s0, inputs)
    requires FreshFor(s0.disk.kg, Ids(Decide(s0.doc, s0.disk, inputs).entries))
    requires Legal(Step(s0, Begin(inputs)), trace) && UnfinishedThroughout(Step(s0, Begin(inputs)), trace)
    requires t == Replay(Step(s0, Begin(inputs)), trace) && t.run.None? && t.rollback.None?
    ensures Unfinished(t)
    ensures var rollback := WholeRollback(t.disk.row.value.patch.value.mode);
      && Legal(t, rollback) && Enabled(Replay(t, rollback), FinishRollback)
      && Undone(s0, Step(Replay(t, rollback), FinishRollback).disk, Ids(Decide(s0.doc, s0.disk, inputs).entries))
  {
    var s := Step(s0, Begin(inputs));
    StepKeepsSturdy(s0, Begin(inputs));
    TraceKeepsOperation(s, trace);
    var rollback := WholeRollback(t.disk.row.value.patch.value.mode);
    WholeRollbackRuns(t);
    Append(s, trace, rollback);
    AppendUnfinished(s, trace, rollback);
    RollbackIsExactInverse(s0, inputs, trace + rollback, Replay(t, rollback));
  }
}
