/** Truncation accounting of a custom-chunk operation, over all its attempts: what landed in
    the graph is journaled first, and terminal rows count each journaled event once. */
module CustomChunkTruncation {
  import opened KgModel
  import opened CustomChunks

  ghost predicate Once(p: Payload) {
    forall e :: p[e] <= 1
  }

  lemma OnceIsASet(p: Payload)
    requires Once(p)
    ensures p == multiset(Elements(p))
  {
    assert forall e :: e in Elements(p) <==> p[e] == 1;
  }

  /** How this attempt's events and the durable journal compare. */
  ghost predicate AttemptInv(r: Run, durable: Payload, journaled: set<Event>, next: Event) {
    && Once(Tallied(r)) && durable <= Tallied(r)
    && (forall e :: e in Tallied(r) ==> e < next)
    && r.hooked <= journaled
    && (r.pc == Begun || r.pc == Staged ==> r.tally == multiset{})
    && (r.pc == Begun || r.pc == Staged || r.pc == Extracted ==> r.pending == multiset{} && durable == r.carried)
    && (r.pc != Begun && r.pc != Staged && r.pc != Extracted ==> r.carried + r.tally <= durable)
    && (r.pc == Merged || r.pc == EntityRowUnioned || r.pc == Unioned ==> r.pending == multiset{})
  }

  ghost predicate TruncationInv(s: Sys) {
    && (forall e :: e in s.log.journaled ==> e < s.log.next)
    && (Unfinished(s) ==>
          var journal := s.disk.row.value.patch.value;
          && journal.prior == s.log.snapshot
          && journal.events == multiset(s.log.journaled)
          && s.log.landed <= s.log.journaled)
    && (s.run.Some? ==>
          var r := s.run.value;
          && s.rollback.None? && s.disk.row == Some(r.base) && r.base.patch.Some?
          && r.journal.prior == s.log.snapshot
          && AttemptInv(r, r.base.patch.value.events, s.log.journaled, s.log.next))
    && (s.rollback.Some? ==>
          s.disk.row.Some? && s.disk.row.value.patch == Some(s.rollback.value.journal))
  }

  ghost predicate Unfinished(s: Sys) {
    s.disk.row.Some? && s.disk.row.value.patch.Some?
  }

  lemma AtTheStart(s: Sys)
    requires s.run.None? && s.rollback.None? && !Unfinished(s)
    requires forall e :: e in s.log.journaled ==> e < s.log.next
    ensures TruncationInv(s)
  {
  }

  lemma NumberedIsOnce(from: Event, count: nat)
    ensures Once(multiset(Numbered(from, count)))
    ensures forall e :: e in multiset(Numbered(from, count)) <==> from <= e < from + count
  {
  }

  /** A status write that journals every tallied event records exactly those. */
  lemma JournalingIsExact(journaled: set<Event>, durable: Payload, written: Payload)
    requires durable == multiset(journaled) && durable <= written && Once(written)
    ensures written == multiset(journaled + Elements(written))
  {
    OnceIsASet(written);
    assert forall e :: e in journaled ==> e in durable && e in written;
    assert journaled + Elements(written) == Elements(written);
  }

  lemma BeginKeepsTruncationInv(s: Sys, inputs: seq<string>)
    requires TruncationInv(s) && Enabled(s, Begin(inputs))
    ensures TruncationInv(Step(s, Begin(inputs)))
  {
    var decision := Decide(s.doc, s.disk, inputs);
    if decision.Go? && decision.resume {
      var carried := s.disk.row.value.patch.value.events;
      assert Once(carried) && forall e :: e in carried ==> e < s.log.next;
      assert carried + multiset{} + multiset{} == carried;
    }
  }

  lemma ExtractKeepsTruncationInv(s: Sys, a: Action)
    requires TruncationInv(s) && Enabled(s, a) && a.Extract?
    ensures TruncationInv(Step(s, a))
  {
    var r, found := s.run.value, multiset(Numbered(s.log.next, a.truncated));
    NumberedIsOnce(s.log.next, a.truncated);
    assert Tallied(r) == r.carried;
    var now := Step(s, a).run.value;
    assert Tallied(now) == r.carried + found;
    forall e
      ensures Tallied(now)[e] <= 1 && (e in Tallied(now) ==> e < s.log.next + a.truncated)
    {
      assert e in r.carried ==> e < s.log.next;
    }
  }

  lemma JournalWritesKeepTruncationInv(s: Sys, a: Action)
    requires TruncationInv(s) && Enabled(s, a) && (a.WriteApplying? || a.WriteAhead?)
    ensures TruncationInv(Step(s, a))
  {
    var t, r := Step(s, a), s.run.value;
    var written := if a.WriteApplying? then r.carried + r.tally else Tallied(r);
    assert written <= Tallied(r) && Once(written);
    JournalingIsExact(s.log.journaled, r.base.patch.value.events, written);
    assert t.run.value.base.patch.value.events == written;
    if a.WriteAhead? {
      assert a.event in Tallied(r);
    }
  }

  lemma RecordKeepsTruncationInv(s: Sys)
    requires TruncationInv(s) && Enabled(s, RecordSummary)
    ensures TruncationInv(Step(s, RecordSummary))
  {
    var r := s.run.value;
    var now := Step(s, RecordSummary).run.value;
    assert Tallied(now) == Tallied(r) + multiset{s.log.next};
  }

  lemma FinishMergeKeepsTruncationInv(s: Sys)
    requires TruncationInv(s) && Enabled(s, FinishMerge)
    ensures TruncationInv(Step(s, FinishMerge))
  {
    var r, now := s.run.value, Step(s, FinishMerge).run.value;
    assert Tallied(now) == Tallied(r);
    var durable := r.base.patch.value.events;
    forall e
      ensures (r.carried + (r.tally + r.pending))[e] <= durable[e]
    {
      assert Tallied(r)[e] <= 1;
      if e in r.pending {
        assert e in r.hooked && e in s.log.journaled;
      }
    }
    assert now.carried + now.tally <= durable;
  }

  lemma MergeKeepsTruncationInv(s: Sys, a: Action)
    requires TruncationInv(s) && Enabled(s, a) && a.Merge?
    ensures TruncationInv(Step(s, a))
  {
    var r := s.run.value;
    forall e | e in a.carries
      ensures e in s.log.journaled
    {
      if e !in r.hooked {
        assert e in r.carried + r.tally && e in r.base.patch.value.events;
      }
    }
  }

  lemma FailKeepsTruncationInv(s: Sys)
    requires TruncationInv(s) && Enabled(s, Fail)
    ensures TruncationInv(Step(s, Fail))
    ensures var t := Step(s, Fail);
      t.disk.row.value.truncation == t.log.snapshot + multiset(t.log.journaled)
  {
    var r := s.run.value;
    JournalingIsExact(s.log.journaled, r.base.patch.value.events, Tallied(r));
  }

  predicate IsAccountingStep(a: Action) {
    a.Begin? || a.Extract? || a.WriteApplying? || a.WriteAhead? || a.RecordSummary? || a.FinishMerge?
    || a.Merge? || a.Fail?
  }

  lemma OtherStepKeepsTruncationInv(s: Sys, a: Action)
    requires TruncationInv(s) && Enabled(s, a) && !IsAccountingStep(a)
    ensures TruncationInv(Step(s, a))
  {
  }

  lemma StepKeepsSnapshot(s: Sys, a: Action)
    requires Unfinished(s) && Enabled(s, a)
    ensures Step(s, a).log.snapshot == s.log.snapshot
  {
  }

  lemma {:induction false} StepKeepsTruncationInv(s: Sys, a: Action)
    requires TruncationInv(s) && Enabled(s, a)
    ensures TruncationInv(Step(s, a))
    ensures Unfinished(s) ==> Step(s, a).log.snapshot == s.log.snapshot
  {
    if a.Begin? { BeginKeepsTruncationInv(s, a.inputs); }
    else if a.Extract? { ExtractKeepsTruncationInv(s, a); }
    else if a.RecordSummary? { RecordKeepsTruncationInv(s); }
    else if a.FinishMerge? { FinishMergeKeepsTruncationInv(s); }
    else if a.Merge? { MergeKeepsTruncationInv(s, a); }
    else if a.Fail? { FailKeepsTruncationInv(s); }
    else if a.WriteApplying? || a.WriteAhead? { JournalWritesKeepTruncationInv(s, a); }
    else { OtherStepKeepsTruncationInv(s, a); }
    if Unfinished(s) {
      StepKeepsSnapshot(s, a);
    }
  }

  // ----- one operation, however many attempts -----

  /** The operation is unfinished in every state the trace passes through. */
  ghost predicate UnfinishedThroughout(s: Sys, trace: seq<Action>)
    requires Legal(s, trace)
    decreases trace
  {
    Unfinished(s) && (trace != [] ==> UnfinishedThroughout(Step(s, trace[0]), trace[1..]))
  }

  lemma {:induction false} TraceKeepsTruncationInv(s: Sys, trace: seq<Action>)
    requires TruncationInv(s) && Legal(s, trace)
    ensures TruncationInv(Replay(s, trace))
    ensures UnfinishedThroughout(s, trace) ==>
      Replay(s, trace).log.snapshot == s.log.snapshot && Unfinished(Replay(s, trace))
    decreases trace
  {
    if trace != [] {
      StepKeepsTruncationInv(s, trace[0]);
      TraceKeepsTruncationInv(Step(s, trace[0]), trace[1..]);
    }
  }

  /** The payload a document carries before an operation starts. */
  function PayloadBefore(disk: Disk): Payload {
    if disk.row.Some? then disk.row.value.truncation else multiset{}
  }

  ghost predicate StartsOperation(s: Sys, inputs: seq<string>) {
    Enabled(s, Begin(inputs)) && Decide(s.doc, s.disk, inputs).Go? && !Decide(s.doc, s.disk, inputs).resume
  }

  /** Write-ahead: at any point of an unfinished operation, every event whose graph mutation
      landed is in the durable journal, which counts each event it ever recorded once. */
  lemma LandedEventsAreJournaled(s: Sys, inputs: seq<string>, trace: seq<Action>)
    requires TruncationInv(s) && StartsOperation(s, inputs)
    requires Legal(Step(s, Begin(inputs)), trace) && UnfinishedThroughout(Step(s, Begin(inputs)), trace)
    ensures var t := Replay(Step(s, Begin(inputs)), trace);
      && Unfinished(t)
      && t.disk.row.value.patch.value.events == multiset(t.log.journaled)
      && t.log.landed <= t.log.journaled
      && t.disk.row.value.patch.value.prior == PayloadBefore(s.disk)
  {
    StepKeepsTruncationInv(s, Begin(inputs));
    TraceKeepsTruncationInv(Step(s, Begin(inputs)), trace);
  }

  /** The commit stamp: whatever failed, crashed and resumed before, it is the pre-operation
      payload plus each journaled event once. */
  lemma CommitStampIsExact(s: Sys, inputs: seq<string>, trace: seq<Action>, t: Sys)
    requires TruncationInv(s) && StartsOperation(s, inputs)
    requires Legal(Step(s, Begin(inputs)), trace) && UnfinishedThroughout(Step(s, Begin(inputs)), trace)
    requires t == Replay(Step(s, Begin(inputs)), trace) && Enabled(t, Commit)
    ensures PayloadBefore(Step(t, Commit).disk) == PayloadBefore(s.disk) + multiset(t.log.journaled)
  {
    LandedEventsAreJournaled(s, inputs, trace);
    StepKeepsTruncationInv(s, Begin(inputs));
    TraceKeepsTruncationInv(Step(s, Begin(inputs)), trace);
    AllEventsDurableAtCommit(t);
  }

  lemma AllEventsDurableAtCommit(s: Sys)
    requires TruncationInv(s) && Enabled(s, Commit)
    ensures Tallied(s.run.value) == multiset(s.log.journaled)
  {
    var r := s.run.value;
    assert Tallied(r) == r.carried + r.tally;
  }

  /** A failed attempt stamps the same sum, its own events included. */
  lemma FailStampIsExact(s: Sys, inputs: seq<string>, trace: seq<Action>, t: Sys)
    requires TruncationInv(s) && StartsOperation(s, inputs)
    requires Legal(Step(s, Begin(inputs)), trace) && UnfinishedThroughout(Step(s, Begin(inputs)), trace)
    requires t == Replay(Step(s, Begin(inputs)), trace) && Enabled(t, Fail)
    ensures PayloadBefore(Step(t, Fail).disk) == PayloadBefore(s.disk) + multiset(Step(t, Fail).log.journaled)
  {
    LandedEventsAreJournaled(s, inputs, trace);
    StepKeepsTruncationInv(s, Begin(inputs));
    TraceKeepsTruncationInv(Step(s, Begin(inputs)), trace);
    FailKeepsTruncationInv(t);
  }

  /** Rolling a patch back takes every stamp of the operation off again. */
  lemma RollbackRestoresPayload(s: Sys, inputs: seq<string>, trace: seq<Action>, t: Sys)
    requires TruncationInv(s) && StartsOperation(s, inputs)
    requires Legal(Step(s, Begin(inputs)), trace) && UnfinishedThroughout(Step(s, Begin(inputs)), trace)
    requires t == Replay(Step(s, Begin(inputs)), trace) && Enabled(t, FinishRollback)
    requires t.rollback.value.journal.mode == Patch
    ensures PayloadBefore(Step(t, FinishRollback).disk) == PayloadBefore(s.disk)
  {
    LandedEventsAreJournaled(s, inputs, trace);
    StepKeepsTruncationInv(s, Begin(inputs));
    TraceKeepsTruncationInv(Step(s, Begin(inputs)), trace);
  }
}
