# LightRAG recovery protocols in Dafny

This project models the parts of LightRAG that have to stay correct when a process fails
between two durable writes, together with three smaller cores, and proves what they promise.

**Knowledge-graph objects** (`KgModel`). Entities and relations carry source-chunk lists in the
graph and in chunk-tracking rows. The two kinds are classified by the same code in the program,
so both are `Obj` and the two tracking stores are one map. Chunk and operation ids are hashes;
an id is modelled by its own preimage.

**Purge** (`DerivedPass`, `Resume`, `PurgeModel`, `PurgeSafety`, `PurgeTears`, `Purge`). The
four-phase resumable delete. `Purge.DocumentStores` holds the imperative algorithm; `Progress`
says how far an attempt got before write number `pc`, and `Torn` what a failure in the middle of
a write may leave. The theorems range over every history of cut attempts.

**Custom chunks.** The journaled insert and its rollback for one document, as a state machine
over durable writes (`CustomChunks`, with the writes of a merge in `MergeWrites`). Each attempt's
extraction sample, the merge writes that land, and the point of failure or crash are the
environment's choice. An edge is merged as the program does it: its row first, then each
endpoint takes over the edge's whole tracked list, the sources it had before included, then the
edge. `CustomChunkCoverage` has the anchor invariant, `CustomChunkSoundness` the part that needs
no hypothesis, `CustomChunkTruncation` the event accounting, `CustomChunkRollback` and
`CustomChunkOperation` what a rollback undoes, and `CustomChunkLists` that the lists come back in
their order. `CustomChunkFailures` builds failing runs; `CustomChunkExact`, `CustomChunkLosses`
and `CustomChunkInverse` use them to show that the conditions are exact. `CustomChunkStores.Stores`
holds the imperative code, proved to take only steps of that machine, so every theorem about
traces is about it. `DeleteAndResume` puts this machine and the purge on one document and
interleaves them.

**Rollback sweep** (`RollbackSweep`, `LiveSweep`), **busy slot** (`BusySlot`), **delete retries**
(`DeleteRetry`, `DeleteDocument`), **custom KG** (`CustomKg`, `CustomKgStore`), **token budget**
(`TokenBudget`, `TableTrim`, `TextAtoms`, `FillText`, `ContextWalk`, `ContextBuild`),
**atomic file** (`AtomicFile`) and **heading breadcrumb** (`Breadcrumb`) follow the same plan: a
specification on values, the imperative form proved against it where the program is imperative,
and theorems about every run or every input.

## Where the code does not meet the property

* *Anchor coverage* needs two conditions, one at each write that settles an operation, and each
  is exact for coverage in every run that follows.
  A merge tracks an object before it writes it (`lightrag/operate.py:2436`,
  `lightrag/operate.py:2794`), and the purge skips candidates that are absent from the graph
  (`lightrag/lightrag.py:5281-5287`), so a rollback passes over the row of an object that never
  got there and a later merge reads it back: a rollback may finish iff no such row names staged
  chunks alone (`CustomChunkExact.FinishIsSafeIff`).
  An edge passes its whole list on to its endpoints (`lightrag/operate.py:3054-3092`,
  `lightrag/operate.py:3134-3179`), so an edge committed before its endpoints gives them
  committed chunks later, when the anchors may no longer name them: a commit is safe iff every
  edge that names a staged chunk has both endpoints in the graph, each with a source of the
  document if the chunk is among the edge's own sources (`CustomChunkExact.CommitIsSafeIff`).
  `CustomChunkLosses.EveryDocumentCanLoseCoverage` has a run for each that breaks that condition
  once and nothing else, from any document at rest.
* *Rollback as an inverse* holds on a well-formed graph iff no edge has a source that its
  endpoints lack and no absent object has a tracking row: `CustomChunkInverse.RollbackIsInverseIff`.
  A graph as `ainsert_custom_kg` can write it fails: `CustomChunkInverse.ImportedGraphIsNotRestored`.
* *Purge convergence* with capped source lists fails: the rerun selects an object through its
  graph list, which may have lost the purged chunk that only the tracking row still names. Over
  all histories of cut attempts, `PurgeSafety.PurgeConvergesIff` and, with cuts inside the
  removals, `PurgeTears.TornPurgeConvergesIff` say exactly from which graphs it holds.
* *Deleting a document with an unfinished insert.* The insert's steps carry the delete's journal
  through (`lightrag/lightrag.py:2603-2691`) and its resume does not look at it
  (`lightrag/lightrag.py:2010-2031`), while a delete retried past `derived_committed` skips the
  derived pass. A merge that resumes is safe iff that phase is not yet journaled
  (`DeleteAndResume.MergeIsSafeIff`); `DeleteAndResume.EveryUnfinishedOperationCanGoWrong` has
  the run in which it is.
* *Delete retries.* `_update_delete_retry_state` skips its write when the row reads as absent,
  also for the write that persists the collected cache ids before the purge
  (`lightrag/lightrag.py:4362-4374`, `lightrag/lightrag.py:6005-6013`). If that read was masked
  and the process dies after the chunk rows are gone, nothing names those ids any more.
  `DeleteRetry.SkippedPersistIsSafeIff` says when a skipped write is harmless,
  `DeleteRetry.SkippedPersistLosesAnId` has the run in which it is not.
* *Custom KG.* Placeholder nodes come from the first mention in the deduplicated list, so they
  may differ from the serial ones; `CustomKg.BatchMeansSerial` says exactly when.
* *Slot exit.* A run that raises, handed off or not, releases the slot and can strand mailbox
  work: `BusySlot.RaisedRunLosesWakeupIff`.

## Model

| member | source | states |
|---|---|---|
| KgModel.Subtract | lightrag/utils.py:6191-6205 | the remaining list names exactly the existing ids that are not purged, and equals the existing list iff none is |
| KgModel.SubtractKeepsOrder | lightrag/utils.py:6191-6205 | what is taken away from a list is taken away from each part of it, so the rest keeps its order |
| KgModel.MergingAppends | lightrag/utils.py:6027-6083 | merging new ids into a list appends them |
| DerivedPass.OnlyUnsupportedObjectsGo | lightrag/lightrag.py:5474-5573 | whatever the pass removes, as a classified object or as a residual edge, had no source outside the purged set |
| DerivedPass.DeriveIsExact | lightrag/lightrag.py:5314-5426 | an object with sources survives iff one lies outside the purged set, and then keeps exactly those, as a list in their old order |
| DerivedPass.DeriveTouchesOnlyCandidates | lightrag/lightrag.py:5230-5426 | a removed object takes its tracking row along; an object that is no candidate goes only with an endpoint that was one, and otherwise keeps both lists |
| DerivedPass.DeriveKeepsGraphClosed | lightrag/lightrag.py:5512-5559 | afterwards tracking covers the graph, every edge keeps both endpoints and is supported by both, and nothing names a purged chunk |
| DerivedPass.DeriveCleansGraph | lightrag/lightrag.py:5314-5426 | if candidates cover the graph lists naming purged chunks, none is named afterwards, without any hypothesis on tracking |
| DerivedPass.PartialLandingKeepsCoverage | lightrag/lightrag.py:5087-5113 | whatever subset of the pass's writes landed, the same candidates still cover |
| DerivedPass.FallenInTwoSteps | lightrag/lightrag.py:5474-5573 | deleting relations first and then entities with their residual edges removes what one removal would |
| Resume.RerunAfterTrackingCut | lightrag/lightrag.py:5192-5627 | a rerun after any part of the tracking writes gives the graph and tracking of one uninterrupted pass |
| Resume.RerunAfterRebuildCut | lightrag/lightrag.py:5589-5627 | the same after the removals and any part of the rebuilt lists |
| Resume.CutConvergesIffResumable | lightrag/lightrag.py:5192-5627 | a cut right after the tracking writes converges iff every survivor whose tracking shrank is still selected through its graph list or already final |
| Resume.UncappedIsResumable | lightrag/lightrag.py:5336-5366 | uncapped lists meet that condition |
| Resume.CappedListDoesNotConverge | lightrag/lightrag.py:5336-5366 | a concrete capped list that does not |
| PurgeSafety.NoGraphObjectNamesADeletedChunk | lightrag/lightrag.py:5087-5140 | in every state of every history of attempts, cut anywhere, a missing chunk row implies the derived pass is journaled, and no graph object names a deleted chunk |
| PurgeSafety.PurgeNeverLocksItselfOut | lightrag/lightrag.py:5022-5190 | a missing anchor row implies phase anchors_pending or completed, phases only move forward, a retry is never refused and uninterrupted reaches completed |
| PurgeSafety.PurgeActsIff | lightrag/lightrag.py:4605-4811 | an attempt may change something iff no unfinished purge of other chunks is journaled, the purge is not completed, and a journal past prepared, both anchor rows, the pre-graph state or an empty scope vouches for it |
| PurgeSafety.LostAnchorsLeaveNoTrace | lightrag/lightrag.py:4803-4811 | with nothing journaled past prepared, a missing anchor row of a document with chunks and a started merge, or anchors that name something for an empty chunk set, leave every state of every history untouched |
| PurgeSafety.AllowedAttemptLooksEverywhere | lightrag/lightrag.py:4605-4811 | an attempt that may start takes everything both anchor rows and the custom-chunk journal name as candidates, unless the pre-graph state replaces missing rows |
| PurgeSafety.PurgeConvergesIff | lightrag/lightrag.py:5022-5190 | every history from a fresh delete, cut anywhere but inside the removals, that reaches completed ends in the graph, tracking, chunk rows and anchors of one uninterrupted purge, iff every survivor whose tracking shrinks is selected again through its graph list or already final |
| PurgeSafety.PurgeConverges | lightrag/lightrag.py:5336-5366 | with uncapped lists it always does |
| PurgeTears.TornPurgeConvergesIff | lightrag/lightrag.py:5022-5190 | cut anywhere, inside the removals too, with stores that remove an edge with its endpoint or before it: every completed history from a closed graph ends in the same graph, sources, chunk rows and anchors, iff besides that every dropped object names only purged chunks in the graph or falls with an endpoint |
| PurgeTears.TornPurgeConverges | lightrag/lightrag.py:5336-5366 | from a closed graph with uncapped lists it always does |
| PurgeTears.LandingConvergesIff | lightrag/lightrag.py:5512-5559 | whatever subset of one pass landed on uncapped lists, closed or not, the rerun ends with the same survivors iff each object that is to fall and is still there is dropped itself or hangs on an endpoint still there to be dropped |
| PurgeTears.CompletedPurgeIsPrecise | lightrag/lightrag.py:4946-5190 | on a graph of supported edges that the candidates cover, with tracking rows that cover its lists and survivors that are selected again, every completed history, cut anywhere, ends with exact survivors, exact remaining sources and a closed graph |
| Purge.DocumentStores.Judge | lightrag/lightrag.py:5316-5424 | the verdict on one object: delete, rebuild with its remaining list, or keep |
| Purge.DocumentStores.ClassifyAll | lightrag/lightrag.py:5230-5426 | the two result sets hold exactly the verdicts of the candidates present in the graph |
| Purge.DocumentStores.ResidualEdges | lightrag/lightrag.py:5514-5526 | the collected edges are exactly those of the graph at the given entities |
| Purge.DocumentStores.RemoveObjects | lightrag/lightrag.py:5474-5573 | leaves the graph and tracking rows without the dropped objects and the edges of dropped entities |
| Purge.DocumentStores.RebuildFromChunks | lightrag/lightrag.py:5589-5606 | every rebuilt object still in the graph gets its remaining list, absent ones are skipped |
| Purge.DocumentStores.PurgeDerived | lightrag/lightrag.py:5192-5627 | the stores are the derived pass after the writes made before the stop |
| Purge.DocumentStores.ResolveRecoveryProof | lightrag/lightrag.py:4605-4811 | a conflict iff an unfinished purge of other chunks is journaled; no proof iff neither a journal past prepared nor rows, state or empty scope vouch for the purge; which proof, as the order of the checks decides |
| PurgeSafety.RetryResumesAtItsPhase | lightrag/lightrag.py:4857-4900 | the journaled phase is where the next attempt enters, never before what is journaled done, and run to its end it leaves the rows an uninterrupted attempt leaves |
| Purge.DocumentStores.DeleteRows | lightrag/lightrag.py:5119-5190 | chunk rows, anchors and journal after the writes made before the stop, entered at either phase |
| Purge.DocumentStores.PurgeKgContributions | lightrag/lightrag.py:4946-5190 | refuses without touching anything exactly on a foreign unfinished journal or when nothing vouches for the purge, and says which; else the stores are those of an attempt that stopped where it stopped |
| CustomChunks.Entries | lightrag/lightrag.py:1911-1932 | one entry per distinct non-empty text, with the document's id |
| CustomChunks.EntriesComeInOrder | lightrag/lightrag.py:1918-1932 | more texts only append entries, so they come in the order of their first text |
| CustomChunks.Uncommitted | lightrag/lightrag.py:2051-2081 | exactly the entries whose content the document does not own |
| CustomChunks.UncommittedComeInOrder | lightrag/lightrag.py:2071-2075 | they keep their order |
| CustomChunkCoverage.BeginKeepsInv | lightrag/lightrag.py:2010-2148 | deciding a call and journaling it keeps the coverage invariant |
| CustomChunkCoverage.StagingKeepsInv | lightrag/lightrag.py:2228-2273 | staging chunk rows keeps it |
| MergeWrites.CreatedSources | lightrag/operate.py:3054-3092 | a created endpoint has exactly the edge's tracked list, unless a row of its own outlived it |
| MergeWrites.TrackedEnd | lightrag/operate.py:3134-3179 | an existing endpoint's row takes the edge's list over, and a second merge of it changes nothing |
| MergeWrites.WriteGrows | lightrag/operate.py:2794-3310 | no write of a merge takes an object out of the graph or a source away from one |
| CustomChunkCoverage.MergingKeepsInv | lightrag/operate.py:2728-3310 | every merge write, inherited lists included, keeps it |
| CustomChunkCoverage.ReplacingAnchorsKeepsInv | lightrag/lightrag.py:2355-2367 | a creating merge may replace the anchor rows at any time |
| CustomChunkCoverage.UnioningAnchorsKeepsInv | lightrag/lightrag.py:2693-2731 | the commit-time anchor union keeps it, row by row |
| CustomChunkCoverage.CommittingKeepsInvIff | lightrag/lightrag.py:2379-2421 | clearing the journal at commit keeps it iff every edge that names a staged chunk has both endpoints in the graph with a source, one of the document if the chunk is among the edge's own sources |
| CustomChunkCoverage.PruningKeepsInv | lightrag/lightrag.py:3153-3221 | pruning the anchors keeps every object a committed chunk supports |
| CustomChunkCoverage.PurgingKeepsInv | lightrag/lightrag.py:2941-2952 | the rollback's derived pass, whole or cut anywhere, keeps it |
| CustomChunkCoverage.FinishingKeepsInvIff | lightrag/lightrag.py:2974-3027 | clearing the journal at the end of a rollback keeps it iff no tracking row of an absent object names staged chunks and no committed one |
| CustomChunkCoverage.InvGivesCoverage | lightrag/lightrag.py:2295-2346 | under the invariant each graph object with a committed or staged chunk is named by an anchor row or the journal |
| CustomChunkCoverage.AnchorsCoverEveryRun | lightrag/lightrag.py:2295-2421 | coverage holds after every run of inserts, failures, crashes, resumes, commits and rollbacks in which both conditions hold whenever an operation is settled |
| CustomChunkCoverage.UntouchedStoreSatisfiesInv | lightrag/lightrag.py:2032-2042 | a store that knows nothing of the document satisfies the invariant |
| CustomChunkCoverage.InvCoversWholeDocumentPurge | lightrag/lightrag.py:4575-4603 | a whole-document purge's candidates cover its chunk set in every such state |
| CustomChunkExact.FinishIsSafeIff | lightrag/lightrag.py:2974-3027 | coverage holds after a finished rollback and in every cleanly settling run from there iff no tracking row of an absent object names staged chunks and no committed one |
| CustomChunkExact.CommitIsSafeIff | lightrag/lightrag.py:2379-2421 | coverage holds after a commit and in every cleanly settling run from there iff that condition holds |
| CustomChunkLosses.EveryDocumentCanLoseCoverage | lightrag/lightrag.py:5281-5287 | from any document at rest, one unclean commit, or one unclean end of a rollback, and otherwise clean runs end without coverage |
| CustomChunkLosses.CoverageCanFail | lightrag/operate.py:3054-3200 | so it is on an empty store, which satisfies the invariant |
| CustomChunkSoundness.StepKeepsSturdy | lightrag/lightrag.py:2603-2691 | every step keeps journals sound, committed contents present and the copies in memory equal to the disk, whatever the tracking rows say |
| CustomChunkSoundness.InvIsSturdy | lightrag/lightrag.py:2603-2691 | it is part of the coverage invariant, so it holds wherever a run may start |
| CustomChunkSoundness.StepKeepsBody | lightrag/lightrag.py:2262-2272 | every step keeps: a document has its body unless an insert that creates it is unfinished, and then has one once the attempt under way has staged |
| CustomChunkSoundness.CommitOwnsAll | lightrag/lightrag.py:2402-2421 | after a commit the document owns every content of the call, with its row PROCESSED |
| CustomChunkTruncation.LandedEventsAreJournaled | lightrag/lightrag.py:2192-2226 | at any point of an unfinished operation every event whose mutation landed is durable, each journaled event counts once, and the snapshot is the pre-operation payload |
| CustomChunkTruncation.CommitStampIsExact | lightrag/lightrag.py:2155-2190 | the commit stamp is the pre-operation payload plus each journaled event once, over all attempts |
| CustomChunkTruncation.FailStampIsExact | lightrag/lightrag.py:2422-2449 | so is the stamp of a failed attempt |
| CustomChunkTruncation.RollbackRestoresPayload | lightrag/lightrag.py:2993-3027 | rolling a patch back restores the pre-operation payload |
| CustomChunkTruncation.StepKeepsTruncationInv | lightrag/lightrag.py:2098-2226 | every step keeps the accounting invariant and the snapshot |
| CustomChunkTruncation.AtTheStart | lightrag/lightrag.py:2098-2226 | any document without an unfinished operation satisfies it |
| CustomChunkRollback.RollbackPassRestores | lightrag/lightrag.py:5314-5426 | the derived pass of a rollback gives back the old objects and source sets |
| CustomChunkRollback.TornPassOnlyAdds | lightrag/lightrag.py:5192-5627 | a rollback pass cut anywhere still leaves the old graph plus staged contributions |
| CustomChunkRollback.MergeOnlyAdds | lightrag/operate.py:2728-3310 | a merge write, inherited lists included, adds staged contributions on named objects and nothing else |
| CustomChunkInverse.RollbackIsInverseIff | lightrag/lightrag.py:2900-3027 | on a well-formed graph every operation that is rolled back is undone iff no edge has a source its endpoints lack and no absent object has a tracking row |
| CustomChunkInverse.ImportedGraphIsNotRestored | lightrag/operate.py:3134-3200 | a graph on which a failed operation leaves an endpoint with its edge's source |
| CustomChunkRollback.RollbackIsExactInverse | lightrag/lightrag.py:2900-3027 | with fresh staged ids and a graph that hides no source, after any attempts, crashes and cut rollbacks, a rollback that finishes restores objects, source sets, status row, chunks list, truncation and body, and leaves no staged chunk row |
| CustomChunkLists.RollbackRestoresLists | lightrag/lightrag.py:2900-3027 | under the same hypotheses, on a graph in which both lists of an object agree and hold no id twice, every list comes back as a sequence |
| CustomChunkOperation.FailedOperationCanBeUndone | lightrag/lightrag.py:2900-3027 | from any state an unfinished operation can be left in, an uninterrupted rollback runs to its end with that result |
| CustomChunkOperation.UnfinishedOperationIsExclusive | lightrag/lightrag.py:2010-2031 | while an operation is unfinished its own input resumes it with the same operation and chunk ids, and any other input changes nothing |
| CustomChunkOperation.StepKeepsStage | lightrag/lightrag.py:2295-2449 | every step keeps: an unfinished operation is PROCESSING or FAILED, its journal says failed exactly in the latter, and while an attempt runs it says prepared until the candidates are journaled and applying from then on |
| CustomChunkOperation.LeftOverCanBeRolledBack | lightrag/lightrag.py:2860-2891 | so whatever became of the attempt, its row is among those the rollback looks for |
| CustomChunkOperation.CommittedCallIsIdempotent | lightrag/lightrag.py:2051-2081 | once a call commits, repeating it at any later time changes nothing stored, whatever ran, failed or was rolled back in between |
| CustomChunkOperation.CommittedCallStaysANoOp | lightrag/lightrag.py:2051-2081 | a call whose contents the document owns stays a no-op through every later run |
| CustomChunkOperation.CommittedContentsOnlyGrow | lightrag/lightrag.py:2402-2421 | no step takes a committed content away from the document |
| CustomChunkOperation.CommitAppendsItsChunks | lightrag/lightrag.py:2402-2421 | a committed patch appends its chunks to the list, each id once |
| CustomChunkStores.Stores.BuildEntries | lightrag/lightrag.py:1918-1932 | the loop computes the entries |
| CustomChunkStores.Stores.CommittedContents | lightrag/lightrag.py:2056-2070 | the loop computes the contents of the committed chunk rows |
| CustomChunkStores.Stores.Missing | lightrag/lightrag.py:2071-2075 | the filter keeps the uncommitted entries in order |
| CustomChunkStores.Stores.Resolve | lightrag/lightrag.py:2005-2081 | mode, resume, refusal and no-op exactly as decided by the status row |
| CustomChunkStores.Stores.Start | lightrag/lightrag.py:2089-2148 | the prepared journal is written with the carried names, snapshot and events |
| CustomChunkStores.Stores.Stage | lightrag/lightrag.py:2241-2273 | writes the row of every staged chunk and, in create mode, the body, as the staging step of the machine, of which `CustomChunkSoundness.StepKeepsBody` and `StepKeepsSturdy` say what it must leave |
| CustomChunkStores.Stores.JournalCandidates | lightrag/lightrag.py:2295-2346 | the applying journal unions the candidates and folds the extraction events in |
| CustomChunkStores.Stores.RecordAhead | lightrag/lightrag.py:2192-2226 | a truncated summary is journaled before its object is written |
| CustomChunkStores.Stores.EnsureEndpoint | lightrag/operate.py:3050-3200 | a missing endpoint is created with the edge's list and an existing one takes it over; either way it is in the graph with that list among its sources, unless cut, and nothing loses a source |
| CustomChunkStores.Stores.UpdateEndpoint | lightrag/operate.py:3134-3200 | row and node are written only where that changes something, each a step of the machine |
| CustomChunkStores.Stores.MergeFragment | lightrag/operate.py:2728-3310 | row, summary event, endpoints and object in that order, as steps of the machine; done, the object is in the graph with its new chunks among its sources |
| CustomChunkStores.Stores.MergeFragments | lightrag/lightrag.py:2355-2377 | the merge's writes are steps of the machine, up to the one that is not made; done, every object has landed |
| CustomChunkStores.Stores.UnionAnchors | lightrag/lightrag.py:2693-2731 | both rows are unioned for patches and resumed creates, and left alone otherwise |
| CustomChunkStores.Stores.WriteCommitted | lightrag/lightrag.py:2402-2421 | the PROCESSED row with the final chunks list and stamp, journal cleared |
| CustomChunkStores.Stores.WriteFailed | lightrag/lightrag.py:2422-2449 | the FAILED row with the journal of the same operation and the recomputed events |
| CustomChunkStores.Stores.InsertCustomChunks | lightrag/lightrag.py:1858-2449 | the whole call is a run of the machine between states at rest; refused and no-op calls change nothing; undisturbed it commits with every object landed; inserted, the row is PROCESSED and the document owns every non-empty text and its body; raised or killed, the row still journals the call, as FAILED in the first case |
| CustomChunkStores.Stores.RunDerivedPass | lightrag/lightrag.py:2941-2952 | the rollback purge is the derived pass under the rollback policy |
| CustomChunkStores.Stores.PruneRow | lightrag/lightrag.py:3153-3221 | a name stays iff it is no candidate or its tracking row names an owned chunk |
| CustomChunkStores.Stores.RollBackPatch | lightrag/lightrag.py:2900-3027 | one rollback is a run of the machine; unless it is cut the staged chunk rows are gone and no others, a created document has neither row nor body, and a patched one gets its row back and keeps its body |
| DeleteAndResume.InvIsSecure | lightrag/lightrag.py:5841-5864 | wherever the coverage invariant holds, at rest or after a crash, a delete may start: whatever names a chunk of the document in either list is anchored or journaled |
| DeleteAndResume.SettlingChangesChunks | lightrag/lightrag.py:5841-5864 | a new operation and the end of a rollback always change the chunk set a delete is identified by |
| DeleteAndResume.QuietDeletesAreOrderly | lightrag/lightrag.py:5022-5190 | in every interleaving of cut deletes with the steps of inserts, resumes, commits and rollbacks, while the chunk set stays and no merge lands from derived_committed on, no delete removes a chunk row the graph names, and none reports completion while the graph names a chunk of the document |
| DeleteAndResume.MergeIsSafeIff | lightrag/lightrag.py:2010-2031 | a resumed merge write into the graph leaves every such continuation in order iff the delete has not journaled derived_committed |
| DeleteAndResume.EveryUnfinishedOperationCanGoWrong | lightrag/lightrag.py:5087-5120 | from every document with an unfinished operation, a delete cut at derived_committed, the operation's own retry, a crash and the delete's retry go wrong |
| DeleteAndResume.RetryAfterSettling | lightrag/lightrag.py:4658-4692 | a commit leaves the delete where it was and free to go on; after a rolled-back patch its retries are refused and change nothing, iff anything was staged |
| RollbackSweep.PageKeepsSweep | lightrag/lightrag.py:2860-2880 | a page and its rollbacks keep handled exactly the journaled active rows up to the cursor, in key order |
| RollbackSweep.PagesMakeProgress | lightrag/base.py:1477-1510 | every page that does not end the sweep leaves strictly fewer rows beyond the cursor |
| RollbackSweep.SweepEndsAsTheScan | lightrag/lightrag.py:2860-2891 | the finished sweep handled what the single scan finds, each row once, and left the same rows |
| LiveSweep.EachRowOnce | lightrag/base.py:1477-1510 | whatever other writers do between the pages, if rows keep their creation times no row is handled twice, and each was active and journaled when its page was read |
| LiveSweep.SweepMovesForward | lightrag/base.py:1477-1510 | the rows are handled in strictly increasing key order |
| LiveSweep.StayingRowIsHandled | lightrag/lightrag.py:2860-2880 | a row that stays active and journaled until the sweep ends is handled |
| RollbackSweep.StatusStore.UpdateFields | lightrag/base.py:1587-1625 | refuses the sort key, reports or skips a missing row, and touches only the given fields |
| RollbackSweep.StatusStore.NextPage | lightrag/base.py:1467-1517 | at most a page of active rows past the position, in key order, none skipped |
| RollbackSweep.StatusStore.RollBackBatch | lightrag/lightrag.py:2791-2835 | each row is re-read and, if still journaled, meets its fate once |
| RollbackSweep.StatusStore.Sweep | lightrag/lightrag.py:2860-2880 | terminates, handling every journaled row active at the start exactly once, oldest first and by id among equals; every other row is as it was, and each of these is gone, restored or left failed as its rollback went |
| RollbackSweep.StatusStore.LegacyScan | lightrag/lightrag.py:2880-2891 | the unpaged scan handles the same rows with the same result, in some order |
| BusySlot.NoInterleavingLosesWork | lightrag/lightrag.py:2458-2601 | in every interleaving whose runs raise only when nothing waits or an enqueuer is on its way, work with a free slot implies a published enqueuer, at most one task owns the slot, and when all are gone nothing is left in the mailbox, every published document was taken and every requested retry served, in order |
| BusySlot.StaleReleaseIsANoOp | lightrag/lightrag.py:2528-2540 | a backstop release after the slot moved on changes nothing and clobbers no holder |
| BusySlot.RaisedRunLosesWakeupIff | lightrag/pipeline.py:2082-2145 | when a run raises, its own or handed off, the slot is free and the wake-up survives iff the mailbox is empty or an enqueuer is about to try |
| BusySlot.RaisedRunStrandsADocument | lightrag/pipeline.py:2082-2145 | one run of either kind in which it does not |
| BusySlot.PipelineStatus.AcquireReservation | lightrag/kg/shared_storage.py:2642-2712 | takes a free slot for the token, else changes nothing |
| BusySlot.PipelineStatus.AcquireProcessing | lightrag/kg/shared_storage.py:2894-3010 | takes a free slot or, refused, arms the rescan in the same critical section and leaves the rest of the mailbox alone |
| BusySlot.PipelineStatus.ExitAction | lightrag/lightrag.py:2491-2526 | owner-checked: hands off on work or a failed probe, releases otherwise |
| BusySlot.PipelineStatus.TerminalRelease | lightrag/lightrag.py:6281-6293 | releases only for the owner |
| BusySlot.PipelineStatus.ExitWithHandoff | lightrag/lightrag.py:6333-6371 | an undisturbed exit leaves an empty mailbox and a free slot, having taken every waiting document and served every waiting retry in order; a caller that does not own the slot changes nothing |
| DeleteRetry.RetriesKeepEvidence | lightrag/lightrag.py:5819-6031 | through any failures, crashes, retries and harmless skipped writes until the row goes: same chunk set and operation, journal never back or gone, every existing cache id reachable |
| DeleteRetry.MaskedPersistKeepsInvIff | lightrag/lightrag.py:4362-4374 | a skipped persisting write keeps the invariant iff the row already names every existing id, or the purge will be refused |
| DeleteRetry.SkippedPersistIsSafeIff | lightrag/lightrag.py:5964-6031 | every existing id can be found in every state that may follow a skipped persisting write iff the same holds |
| DeleteRetry.StepKeepsOperation | lightrag/lightrag.py:4326-4406 | no step but the purge's own writes touches the purge journal, and none changes the chunk set |
| DeleteRetry.RowGoesLast | lightrag/lightrag.py:6034-6137 | the row goes only after its purge is journaled complete and, if the cache is to be cleared, once no cache entry is left |
| DeleteRetry.ChunkRowsGoFirst | lightrag/lightrag.py:5119-5132 | and only once no chunk of the document has its row any more |
| DeleteRetry.StepKeepsJournalTruth | lightrag/lightrag.py:5119-5132 | every step keeps: a journal at anchors_pending or completed means those chunk rows are gone |
| DeleteRetry.DeletesTouchOnlyTheirOwn | lightrag/lightrag.py:5629-6215 | no run of attempts deletes a chunk row outside the set, changes one, or deletes a cache entry that neither the status row nor those chunk rows name |
| DeleteRetry.RefusesIff | lightrag/lightrag.py:4669-4711 | a purge is refused iff there is no journal and no proof, a journal of these chunks not past prepared and no proof, or a journal of others that is unfinished or comes without a proof |
| DeleteRetry.ReachableIff | lightrag/lightrag.py:5964-6003 | the ids in question are those the status row retains or parsed and those the rows of its listed or staged chunks name |
| DeleteRetry.FirstSeenKeepsFront | lightrag/lightrag.py:5970-5996 | deduplication keeps first occurrences, in order |
| DeleteRetry.SkippedPersistLosesAnId | lightrag/lightrag.py:4362-4374 | a run in which a skipped persisting write loses an id |
| DeleteDocument.Document.UpdateRetryState | lightrag/lightrag.py:4326-4406 | a fresh read, only its own fields, recorded ids kept when there are none, skipped when the row reads as absent |
| DeleteDocument.Document.CollectCacheIds | lightrag/lightrag.py:5970-5996 | the nested loop gives seed and row ids, first occurrence first |
| DeleteDocument.Document.ExistingIds | lightrag/lightrag.py:4408-4432 | exactly the ids still in the cache |
| DeleteDocument.Document.PurgeRefused | lightrag/lightrag.py:4669-4711 | refuses on an unfinished journal of another chunk set, or without a proof unless the journal is past prepared |
| DeleteDocument.Document.RunPurge | lightrag/lightrag.py:6034-6072 | journal phases and chunk deletion from wherever the journal stands, to completed unless stopped; completed, no chunk of the set has its row any more, provided the journal it started from told the truth |
| DeleteDocument.Document.ClearCache | lightrag/lightrag.py:6074-6117 | deletes and verifies before the row may go |
| DeleteDocument.Document.Delete | lightrag/lightrag.py:5629-6215 | one attempt is a run of the machine between states at rest; it is refused exactly when the purge is, and then leaves chunk rows, cache and purge journal alone; otherwise the row is removed when nothing goes wrong. With the row go the rows of all listed and staged chunks and, if asked for, every cache entry the document could reach; without being asked the cache stays, and nothing of other documents is touched |
| CustomKg.KeepLastKeepsTheLast | lightrag/lightrag.py:3600-3606 | deduplication keeps every key's last record |
| CustomKg.KeepLastMembers | lightrag/lightrag.py:3640-3648 | every kept record is an input record, and each key is kept once |
| CustomKg.KeepLastKeepsOrder | lightrag/lightrag.py:3600-3606 | the kept records stand in the order of each key's last record |
| CustomKg.SameEdges | lightrag/lightrag.py:3640-3648 | the kept relationships give the same edges as all of them, whatever the endpoint order |
| CustomKg.BatchMeansSerial | lightrag/lightrag.py:3600-3820 | same edges, same nodes, same attributes but on placeholders, and there iff the first mentions agree |
| CustomKg.RepeatedPairChangesPlaceholder | lightrag/lightrag.py:3714-3757 | the inputs on which they do not |
| CustomKg.BatchKeepsGraphSound | lightrag/lightrag.py:3705-3820 | afterwards every endpoint and edge exists, undeclared nodes and unnamed edges are as they were, declared ones have their last attributes over the old ones, and a new undeclared node is the placeholder of its first mention |
| CustomKgStore.RelatedIsSound | lightrag/lightrag.py:3511-3548 | accepted iff every relationship has two different normalized endpoints; each keeps its attributes, its placeholder and its place |
| CustomKgStore.DeclaredIsPointwise | lightrag/lightrag.py:3464-3510 | accepted iff every name normalizes; each entity keeps its attributes and its place |
| CustomKgStore.GraphStore.NormalizeRelationships | lightrag/lightrag.py:3511-3548 | the loop computes what the validation accepts |
| CustomKgStore.GraphStore.Deduplicate | lightrag/lightrag.py:3600-3606 | pop and re-insert computes the kept list |
| CustomKgStore.GraphStore.UpsertNodesBatch | lightrag/base.py:719-730 | the default batch is the serial upserts |
| CustomKgStore.GraphStore.FindMissing | lightrag/lightrag.py:3714-3757 | each missing endpoint once, first mention first |
| CustomKgStore.GraphStore.InsertCustomKg | lightrag/lightrag.py:3464-3820 | rejects invalid input before any write, else the graph is the batch |
| TokenBudget.CharTrimLeading | lightrag/multimodal_context.py:231-246 | a suffix within the budget for any count; the longest one for monotone counts |
| TokenBudget.CharTrimTrailing | lightrag/multimodal_context.py:249-264 | a prefix within the budget for any count; the longest one for monotone counts |
| TableTrim.CharFallback | lightrag/multimodal_context.py:378-447 | fails iff the empty table is too long, else one cell within the budget, the longest that fits if longer cells never count less |
| TableTrim.RowTrimTable | lightrag/multimodal_context.py:272-371 | gives a table back iff some of its rows fit or at least an empty one does, and then, within the budget, the table re-wrapped around the most of its nearest rows that fit or, where not even one does, one cell with as much of the nearest row as fits |
| TableTrim.ClosestIsAnEnd | lightrag/multimodal_context.py:272-371 | the nearest rows are the last ones before the target and the first ones after it, without a gap |
| TableTrim.TrimContentInner | lightrag/multimodal_context.py:812-829 | within the budget: content keeps the longest head that fits, a table the most of its head rows, and the head of its body only where no smaller table fits |
| TableTrim.TrimmedTableKeepsRows | lightrag/multimodal_context.py:812-829 | so a table of which some head rows fit stays a tag with the most of them that do |
| TableTrim.TrimContentToBudget | lightrag/multimodal_context.py:832-894 | untouched iff it fits; else never more than the budget for any count, the best head under what the marker leaves and then the marker, or the best head under the whole budget where the marker alone takes it or the two do not fit together |
| TextAtoms.AtomsConcatenateToText | lightrag/multimodal_context.py:107-129 | the atoms concatenate to the text and none is empty |
| TextAtoms.AtomsKeepTheTags | lightrag/multimodal_context.py:107-129 | the atoms that are not text are the matches, each whole, of its own kind and in order |
| TextAtoms.Atomize | lightrag/multimodal_context.py:107-129 | the loop gives the matches and the gaps between them in order |
| TextAtoms.PiecesAreLossless | lightrag/multimodal_context.py:209-219 | the pieces concatenate to the text |
| TextAtoms.PiecesCount | lightrag/multimodal_context.py:209-221 | there is more than one piece iff the separator occurs before the end |
| TextAtoms.PiecesAreMinimal | lightrag/multimodal_context.py:209-219 | no piece could be cut further by the same separator |
| TextAtoms.SegmentsEndInSeparator | lightrag/multimodal_context.py:193-222 | whole when no separator cuts it; else several segments, each but the last ending in the first separator that does |
| TextAtoms.SplitTextSegment | lightrag/multimodal_context.py:193-222 | the segments by the first separator that cuts, which concatenate to the text, and the place of that separator |
| FillText.AccumulateText | lightrag/multimodal_context.py:537-683 | on either side, the nearest segments one after the other up to the first that does not fit; if that is the very nearest, as much of it as fits by weaker separators and at the last by characters; terminates on the separators |
| FillText.FillingIsAnEnd | lightrag/multimodal_context.py:537-683 | what is taken is not empty, is the near end of the text, and fits or is within the tokens that are left |
| FillText.FitRunIsMaximal | lightrag/multimodal_context.py:550-565 | every run of segments up to the one taken fits, and with one segment more it does not |
| FillText.FittingTextFillsWhole | lightrag/multimodal_context.py:537-683 | a text of which every end fits is taken whole |
| ContextBuild.AddLeading | lightrag/multimodal_context.py:498-533 | a text adds what fills the room, a tag that fits stays whole, a table that does not is cut to its nearest rows, anything else ends the walk; after a text the walk goes on while tokens are left |
| ContextBuild.EndedWalkIsHalf | lightrag/multimodal_context.py:466-534 | the walk takes one part of each of the nearest atoms, in order, and stays within the budget for subadditive counts |
| ContextBuild.FittingSourceStaysWhole | lightrag/multimodal_context.py:466-646 | for monotone counts a source that fits comes out whole, or its near end that fills the budget to the last token |
| ContextBuild.BuildLeading | lightrag/multimodal_context.py:466-534 | the walk from the end of the cleaned source until an atom stops it; within the budget for subadditive counts, one part per final atom in order: text suffixes, whole tags, tables whole or re-wrapped; a source that fits comes out whole or fills the budget |
| ContextBuild.BuildTrailing | lightrag/multimodal_context.py:590-646 | the same for the first atoms and prefixes |
| AtomicFile.DestinationIsNeverTorn | lightrag/file_atomic.py:114-142 | however writers, failures, kills and reaping interleave, the destination holds its old content or the complete output of the last writer that renamed |
| AtomicFile.ExpectedIsWhole | lightrag/file_atomic.py:114-142 | that is the prior snapshot or some writer's whole output |
| AtomicFile.VisibleChangesOnlyByRename | lightrag/file_atomic.py:130-134 | only a rename that finds its temporary changes what a reader sees |
| AtomicFile.FreshDirectorySatisfiesInv | lightrag/file_atomic.py:114-142 | a directory without temporaries, with or without the file, is a starting point |
| AtomicFile.Directory.AtomicWrite | lightrag/file_atomic.py:114-142 | a run of that machine: success replaces the destination alone, a raised failure changes no name unless its cleanup fails too, a kill leaves only the temporary |
| AtomicFile.Directory.ReapOrphans | lightrag/file_atomic.py:73-111 | exactly the temporaries that reached the age are gone, by steps of that machine |
| Breadcrumb.CleanIsNormal | lightrag/chunk_schema.py:98-122 | a cleaned heading is one tidy line without arrows, controls or double spaces |
| Breadcrumb.CleaningIsIdempotent | lightrag/chunk_schema.py:98-122 | cleaning twice is cleaning once |
| Breadcrumb.CleanKeepsTheWords | lightrag/chunk_schema.py:98-122 | a cleaned heading is all the words of the heading, in order, with one space in between |
| Breadcrumb.CappedIsNormal | lightrag/chunk_schema.py:125-130 | a capped level fits, is not empty and stays clean |
| Breadcrumb.CappedKeepsTheHead | lightrag/chunk_schema.py:125-130 | a level within the cap is unchanged; a longer one keeps all the cap leaves beside the ellipsis, but for trailing blanks |
| Breadcrumb.LevelsAreNormal | lightrag/chunk_schema.py:133-145 | every level is clean, capped and not empty |
| Breadcrumb.LevelsComeInOrder | lightrag/chunk_schema.py:133-145 | the levels are those of each heading in turn, cleaned and capped, empty ones left out |
| Breadcrumb.SplitUndoesJoin | lightrag/chunk_schema.py:148-169 | splitting undoes joining for arrow-free levels |
| Breadcrumb.BreadcrumbRoundTrip | lightrag/chunk_schema.py:148-169 | a non-empty breadcrumb splits into exactly its levels, and formatting them again gives it back |
| Breadcrumb.FormatIsUnique | lightrag/chunk_schema.py:172-198 | the clauses of the next row determine the text |
| Breadcrumb.FormatHeadingContext | lightrag/chunk_schema.py:172-198 | the text is empty iff the full chain has no level, else it splits into exactly its cleaned and capped levels and formats to itself; every level is arrow-free, non-empty and capped |

## Left out

- Storage backends, vector stores, network and LLM calls: maps and sets with the contracts the
  program relies on. A merge may stop after any of its writes, and may write the endpoints of an
  edge in either order; `rebuild_knowledge_from_chunks` sets an object's graph list to the
  remaining list.
- Source-list caps (KEEP, FIFO): a merge here writes whole lists, and an endpoint takes over the
  edge's whole one. Elsewhere they are assumed away where a theorem says so, and shown to matter
  by `Resume.CappedListDoesNotConverge`.
- Graph rows without `entity_id`, `source_id` or endpoints, which the program skips.
- Best-effort rebuilds that skip an object because its extraction cache is missing, and the
  persistent recovery warnings of degraded rollbacks.
- LLM-cache deletion during a rollback: its ids come from chunk rows that the purge deletes.
- Journals written before the truncation snapshot existed, and the caps on truncation samples:
  a payload is the multiset of its events.
- Anchor rows after a rolled-back patch: candidates the document no longer supports are pruned,
  so the rows need not be what they were; coverage is what is proved of them.
- CustomChunkExact.CommitIsSafeIff: assumes that every graph object has a source; without that
  the condition is still sufficient, as `CustomChunkCoverage.CommittingKeepsInvIff` shows.
- CustomChunkCoverage.AnchorsCoverEveryRun: a merge's writes become durable one by one here, in
  program order. A crash inside the flush barrier (`lightrag/lightrag.py:2383`,
  `lightrag/lightrag.py:3359-3399`), where the buffered stores land independently of each other,
  is not an action of the machine: a graph without its tracking rows, or the reverse, is reached
  only through cut rollbacks. The anchor rows have a flush of their own ahead of the merge.
- PurgeSafety.PurgeConvergesIff: cuts inside the removals of steps 3 and 4 are not in these
  histories, because an entity may then be gone while its tracking row stays and absent nodes are
  skipped; with them, `PurgeTears.TornPurgeConvergesIff` says everything but the tracking rows.
- PurgeTears.TornPurgeConvergesIff: assumes what the graph stores do, that no cut leaves an edge
  without an endpoint it had (`lightrag/kg/networkx_impl.py:463-465`,
  `lightrag/kg/mongo_impl.py:3194-3217`, `lightrag/kg/opensearch_impl.py:4358-4405`).
- DeleteAndResume.QuietDeletesAreOrderly: follows one chunk set; once it changes, the delete is
  refused while it is under way. The deleted document's own merge has started, so its write state
  is no proof; what becomes of its status row after completion is `DeleteRetry`'s matter.
- Scan fences, pending-enqueue tokens, recovery fences, what a manual retry does, and cancellation in
  the reservation layer; a processing run here drains, re-checks and releases, or raises. A
  rescan signal that a raising run had consumed is not re-armed here.
- The recovery proof of a delete: whether the anchors or the write state give one is a parameter
  of `DeleteDocument.Document.Delete`; `Purge.DocumentStores.ResolveRecoveryProof` resolves it.
- RollbackSweep.StatusStore.NextPage: pages that consume rows they filter out are allowed by the
  contract `IsPage` the sweep is proved from, but this store does not produce them.
- Writers that open their temporary more than once: one that was reaped in between could then
  rename a partial file. A writer here opens its temporary once.
- `trim_content_to_budget` without a tokenizer, which returns its input; the location of the
  target tag and the `build_surrounding` wrapper.
- File modes, logging, pipeline status messages, configuration, prompts, and the regex, JSON,
  HTML and Unicode helpers, which are parameters.
- Description texts, embeddings and summaries: only membership, source sets and rows matter.
