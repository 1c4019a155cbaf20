# MAGI: knowledge-graph recovery, entity merge, runtime handles and text algorithms

This project models the parts of MAGI whose correctness is hardest to see by reading, and proves what the
code and its documentation promise about them.

* **The journaled knowledge graph** (`Sources`, `Stores`, `Purge`, `PurgedObjects`, `Merging`, `MergedObjects`,
  `CustomChunks`, `Admission`, `PatchRuns`, `CommittedContents`, `MergeOrder`, `Coverage`, `Deletion`,
  `DeletionCoverage`, `DeletionGuards`, `LossyRuns`, `LossyAttempts`, `RollbackSweep`, `SweptStores`,
  `JournaledRows`, `KnowledgeBase`, `Migration`). A custom-chunk insert is a write-ahead operation on several
  stores that fails, crashes, resumes, or is rolled back; a purge takes chunks out of the graph again; a
  document deletion does the same in another order. `Store` is one value holding the status rows with their
  journals, chunk texts, recovery anchors, chunk tracking, the graph's source lists and the vector indexes.
  `KnowledgeBase.Stack` is the same as mutable fields, with methods that run the loops and stages and may stop
  behind any of them; every method is tied to the functions on `Store`, so what the lemmas say about those
  functions holds of the methods. `LossyRebuild`, `UnlinkedEnd` and `DividedSweep` hold concrete stores on which
  a promise fails, beside the exact conditions.
* **Entity merge** (`EntityMerge`, `MergeRetry`, `GraphDatabase`): a graph is divided by "is a source or the target", over
  five stores, and may fail before the sources are deleted.
* **Runtime handles** (`RuntimeHandles`, `HandleSteps`, `Runtime`): coroutines that open, use, close and destroy, cut into
  atomic steps between suspension points, in any interleaving. `Runtime` holds the objects themselves.
* **Sequential algorithms**: token-budget trimming (`TokenTrim`, `TableTrims`), surrounding text (`Gathering`, `Surrounding`), rows of
  HTML tables (`TableMarkup`), rerank windows and ranking (`Rerank`), the workspace registry (`Workspaces`).

`Basics` holds the few definitions that several of these need.

Conventions. An entity or a relation is a `Candidate`; the two branches that the code writes twice are written
once over it, and the pair `full_entities`/`full_relations` is one anchors map, `entity_chunks`/
`relation_chunks` one tracking map. A chunk id stands for the pair (document, text) that it hashes, a relation
for its unordered pair of ends, an operation id for its ordered chunk ids: the hashes are taken as injective.
Extraction is a function of the chunk, because it is cached. The two surrounding halves, and the mirrored
table trims, are written once over a flag. Names that the code only compares are numbers, standing for their
rank. The tokenizer is an arbitrary function from strings to numbers; only the empty string is known to count
zero, because the code itself says so.

Where the code and its own documentation differ, the model follows the code:

* A purge classifies an object by its tracking row and reads the graph's list only when tracking has none; the
  documentation speaks of the union (`src/magi_core/magi_core.py:4381-4420`).
* "Graph objects never reference deleted chunks" holds at a stage boundary exactly when best-effort rebuild
  did not have to skip a stale object that outlives the purge (`Purge.NoBoundaryDangles`).
* "Repeating a partially-failed purge converges" holds exactly for repeatable purges
  (`Purge.RestartsIffRepeatable`); a rollback always is one, and so is any purge of stores in step. A lost rebuild
  can leave stores where it fails (`LossyRebuild.StaleListsAreNotRepeatable`).
* "Each one is an independent, idempotent unit", of the rollbacks of a sweep: idempotent always, independent
  exactly when no anchored relation is divided among them (`SweptStores.OrderShowsIffDivided`).
* Which sources an entity has after a patch may depend on the order in which its relations were merged, but only when
  the patch creates the entity, no chunk extracts it by itself, and one of its relations is over the source limit
  (`MergeOrder.SourcesDeterminedIff`, `PatchRuns.ExtractedSources`, `PatchRuns.FittingIsDetermined`).
* An entity merge that failed and is run again may lose ids of relation tracking that the graph's limited lists no
  longer hold (`MergeRetry.RetriedRelationTracking`, `MergeRetry.RetryMayLoseTracking`).
* A rolled-back patch on a document without an anchors row may leave an empty one (`PatchRuns.Restored`).
* A document whose deletion stopped half way is still processed, so a custom-chunk call on it is accepted; it
  stages the document's own chunks again, and rolling it back empties the chunk list
  (`DeletionGuards.HalfDeletedCallRestages`).
* The no-chunk deletion path says that a retry finds no status record once it was deleted; its failure handler
  writes the record back (`Deletion.RetryFindsRecord`).
* Migration makes the anchors and the tracking agree except where a later record, or what was stored before, hides
  a contribution (`Migration.MigrationEstablishesAnchors`).
* A workspace whose creation could not write the registry leaves a directory behind, and the same request is then
  refused (`Workspaces.FailedCreateBlocksItself`).
* A negative overlap is not refused by the rerank chunker, and then tokens are lost
  (`Rerank.CoveredIffNotNegative`).
* Surrounding text need not be contiguous once tags are present (`Surrounding.TagsBreakContiguity`); exactly when it
  is, is `Surrounding.NearestIffContiguous`.

## Model

| member | source | states |
|---|---|---|
| Sources.SubtractSourceIds | src/magi_core/utils.py:5006-5020 | the loop returns the ordered list without the removed ids |
| Sources.MergeSourceIds | src/magi_core/utils.py:4904-4922 | the merged list is duplicate-free, holds exactly both lists' ids, each where it occurs first |
| Sources.SubtractTwice | src/magi_core/utils.py:5006-5020 | ids removed in two rounds are removed as in one; removing them again changes nothing, which restarts rely on |
| Sources.LimitedAfterSubtract | src/magi_core/utils.py:4925-4960 | if the limited list holds no removed id, limiting the remaining list gives the same list, under both methods |
| Sources.LimitedIs | src/magi_core/utils.py:4925-4960 | a limited list has at most the limit's number of ids: FIFO keeps the newest, KEEP the oldest, in their order |
| Sources.FullListTakesIn | src/magi_core/utils.py:4925-4960 | under FIFO ids that come in push the oldest out of a full list, under KEEP they stay out of it |
| Stores.EraseKeepsInvariants | src/magi_core/magi_core.py:4381-4496 | removing chunks from all source lists keeps the stores in step, edge ends present and edge sources nested in both ends', and leaves no dangling reference |
| Purge.VerdictOf | src/magi_core/magi_core.py:4381-4496 | with complete candidates an object is deleted iff no recorded source lies outside the purged set, is rebuilt with the remaining list, and is left alone only if nothing of it refers to a purged chunk |
| PurgedObjects.UntrackedObject | src/magi_core/magi_core.py:4381-4496 | on any stores: a candidate without tracking is gone iff the graph lists only purged ids for it or an end of it is gone; else the list without them becomes its tracking, and its limit the graph's list unless rebuild lost it |
| PurgedObjects.TrackedObject | src/magi_core/magi_core.py:4381-4496 | on any stores: the same by the tracking row, where there is one, rebuilt even if only the graph's list holds a purged id |
| PurgedObjects.UnnamedObject | src/magi_core/magi_core.py:4381-4496 | an object that is no candidate goes only with an end and is not touched otherwise |
| PurgedObjects.StoresTogether | src/magi_core/magi_core.py:4538-4692 | the vectors follow the graph, and what leaves the graph leaves tracking |
| Purge.PurgeErasesExactly | src/magi_core/magi_core.py:4245-4715 | a purge with complete candidates does exactly what removing the chunks means (survivors, ordered filtered tracking, limited graph and vector lists, texts) if and only if no edge keeps a source while one of its ends loses all |
| Purge.NestedNeverStrands | src/magi_core/magi_core.py:4318-4496 | edge sources contained in both ends' sources rule that case out |
| Purge.RebuiltEdgesKeepTheirEnds | src/magi_core/magi_core.py:4538-4632 | an edge scheduled for rebuild, and both its ends, are still in the graph when the deletions are done |
| Purge.NoBoundaryDangles | src/magi_core/magi_core.py:4645-4692 | at a stage boundary no object refers to a deleted chunk, exactly up to the rebuild or when no object whose rebuild is lost had a purged chunk in its graph list, kept another source, and lost none of its ends |
| LossyRebuild.LossLeavesReference | src/magi_core/magi_core.py:4645-4692 | a store in step on which that condition fails |
| Purge.AnchorsGoLast | src/magi_core/magi_core.py:4697-4713 | the anchors outlive every other stage, and a patch rollback never drops them; rows and bodies are not touched |
| Purge.PurgeRestarts | src/magi_core/magi_core.py:4305-4310 | a repeatable purge stopped at stage boundaries any number of times and run again reaches the stores of an uninterrupted one, for any candidates, policy and lost objects, on stores in step or not |
| Purge.RestartsIffRepeatable | src/magi_core/magi_core.py:4305-4310 | that holds for all sequences of stops if and only if the purge is repeatable: an object scheduled although its graph list holds no purged chunk already has the list that rebuild would write |
| LossyAttempts.AttemptsLoseInCommon | src/magi_core/magi_core.py:4305-4310 | when every attempt at a repeatable purge loses other objects, the last one ends where a single purge does that loses what was lost by all attempts that came to the rebuild |
| LossyAttempts.DeletionsLoseInCommon | src/magi_core/magi_core.py:5105-5560 | and so does a deletion that is called again and again |
| LossyRebuild.StaleListsAreNotRepeatable | src/magi_core/magi_core.py:4305-4310 | after a lost rebuild and a further merge a purge is not repeatable, and stopping it once gives another graph list |
| Merging.MergesAreCandidates | src/magi_core/operate.py:3366-3400 | whatever a merge writes, ends of relations included, is in the candidate superset collected before it |
| Merging.MergedSynced | src/magi_core/operate.py:2420-2510 | a merge keeps tracking, graph and vector lists in step and duplicate-free, for nodes, edges, created or extended ends, and saturated objects |
| Merging.SaturatedLimit | src/magi_core/operate.py:2477-2510 | under KEEP a full object's limited list is not disturbed by the chunks that only its tracking takes in |
| MergedObjects.MergedObject | src/magi_core/operate.py:2420-2510 | on any stores: tracking takes in the chunks behind what is on record, the graph's list standing in for a missing row; graph and vectors get its limit, unless the object is full under KEEP and knows none of the chunks |
| MergedObjects.MergedEnd | src/magi_core/operate.py:2728-3130 | an end of a merged relation takes in what the graph now lists of it, or if it is new its whole row; the ends of a full relation are not touched |
| MergedObjects.NothingElseMerged | src/magi_core/operate.py:2728-3130 | no other object is touched |
| Admission.EntriesInOrder | src/magi_core/magi_core.py:1831-1845 | a call stands for one id for each text that is not empty, in the order in which they come first |
| Admission.CallRuns | src/magi_core/magi_core.py:1922-1994 | a call that brings a text runs if and only if it is the document's own unfinished operation, or the document is processed without one and some text is new to its stored chunks, or there is neither row nor body; in every other state it changes nothing |
| Admission.CallStarts | src/magi_core/magi_core.py:1922-2027 | what it starts with: mode and names of the unfinished operation if there is one, the texts still to be said in their order, and the prepared journal over the chunk list of the row, which is all it has written |
| CustomChunks.CommittedCallIsNoOp | src/magi_core/magi_core.py:1964-1994 | repeating a committed operation is a no-op iff every text it brings is among the document's stored chunks |
| PatchRuns.MergeGrows | src/magi_core/operate.py:2728-3130 | a merge of the operation only extends source lists, and only by chunks of the operation that mention the object or an edge at it |
| PatchRuns.RunKeepsShape | src/magi_core/magi_core.py:2002-2185 | any sequence of the operation's stages, failures, crashes, resumes and stopped rollbacks keeps the journal over the base chunk list, naming all that was touched |
| PatchRuns.RollbackInverts | src/magi_core/magi_core.py:2612-2721 | rolling an operation back, wherever it stopped, restores every store of before its first call, for a patch if and only if the anchors were faithful on the candidates; a document that had no anchors row may keep an empty one |
| PatchRuns.RollbackInvertsEveryRun | src/magi_core/magi_core.py:2002-2185 | the same over whole runs from the first call, on documents with an anchors row or without, rollbacks that stopped half way and were followed by resumes included, given anchors faithful on the candidates; the row kept its base list |
| PatchRuns.RollbackRestarts | src/magi_core/magi_core.py:2612-2721 | a rollback stopped behind any stages before the last, any number of times, and run again restores the same stores, from any store, in step or not |
| PatchRuns.ResumeEqualsSuccess | src/magi_core/magi_core.py:2014-2155 | any two committed runs agree on rows, bodies, texts, anchors and objects, past the source limit too, and on the source sets of every object that is determined: relations, entities there before, entities that a chunk extracts by themselves, and entities to which all relations that may create them bring the same |
| PatchRuns.ExtractedSources | src/magi_core/operate.py:3540-3720 | an entity that a chunk extracts by itself has, at the end of every committed run, exactly the sources of before and those that no order can withhold, because entities are finished before the first relation |
| PatchRuns.FittingIsDetermined | src/magi_core/operate.py:2728-3130 | an entity all of whose relations stay within the source limit is determined |
| MergeOrder.SourcesDeterminedIff | src/magi_core/operate.py:3540-3720 | an object has the same sources at the end of all committed runs, whatever order the entities and behind them the relations were merged in, if and only if it is determined |
| MergeOrder.OrderMayDecide | src/magi_core/operate.py:3540-3720 | two relations of a new entity that no chunk extracts, one of them over the limit, leave it undetermined |
| PatchRuns.CommittedRuns | src/magi_core/magi_core.py:1824-1994 | every run without a standing journal is such a committed run, and calling the operation again changes nothing |
| CommittedContents.CommittedChunkIsRecorded | src/magi_core/magi_core.py:2028-2155 | however an operation came to be committed, each of its chunks is stored and listed, every entity it extracts and every relation between two entities is in the graph, tracks it and is anchored, and so are the relation's ends |
| CommittedContents.CommittedAddsNothingElse | src/magi_core/magi_core.py:2028-2155 | an object has taken in only chunks of the operation that mention it or a relation of it, behind what it recorded; other documents' rows and anchors are as before |
| Coverage.PurgeNarrows | src/magi_core/magi_core.py:4498-4715 | a purge stopped anywhere has only taken records away, even on stores out of step |
| Coverage.PurgeClears | src/magi_core/magi_core.py:4645-4675 | from the rebuild on nothing refers to a purged chunk, if the candidates named all that did, exactly when no stale object was lost |
| Coverage.RunsStayCovered | src/magi_core/magi_core.py:2005-2185 | the coverage invariant holds over all runs on all documents: calls, steps, failures, crashes, resumes, and rollbacks to any stage |
| Coverage.StagedChunksAreNamed | src/magi_core/magi_core.py:2086-2127 | in every reachable state an object that records a staged chunk of an unfinished operation is named in that document's journal, and the chunk is in no chunk list |
| Coverage.JournaledRowKeepsItsBase | src/magi_core/magi_core.py:2331-2403 | no step changes the chunk list of a row while its journal stands |
| Coverage.JournalEnds | src/magi_core/magi_core.py:2129-2185 | a journal ends in a commit adding exactly the staged chunks, or in a rollback to exactly the base list or to no row |
| JournaledRows.RunsStayPhased | src/magi_core/magi_core.py:2002-2185 | in every state that runs with crashes, stopped rollbacks and stopped deletions reach, a journal is prepared or applying as far as its operation has come, interrupted in a failed row, and left in a processing row by a crash |
| JournaledRows.SweepFindsUnfinished | src/magi_core/magi_core.py:2564-2603 | and so the rows with a journal are exactly those that both sweeps are for |
| JournaledRows.RolledBackRow | src/magi_core/magi_core.py:2612-2721 | a rollback that went through leaves no row and no body of a created document, and of a patched one a processed row without journal that lists exactly its chunks that were not staged |
| Deletion.DeletionIsPurge | src/magi_core/magi_core.py:5295-5520 | in spite of its other stage order a document deletion ends where the purge of its chunks ends |
| Deletion.DeletionRetries | src/magi_core/magi_core.py:5105-5560 | a deletion that stops at graph stages any number of times and is called again leaves the same graph, tracking, vectors, texts and anchors |
| Deletion.DeletionRetriesIffRepeatable | src/magi_core/magi_core.py:5105-5560 | and that holds for all sequences of stops if and only if its purge is repeatable |
| Deletion.DeletionIsExact | src/magi_core/magi_core.py:5105-5560 | with complete records it removes exactly the document's contributions |
| Deletion.DeletedObject | src/magi_core/magi_core.py:5111-5295 | on any stores: an object that the anchors or the journal name is gone iff its recorded sources are all the document's or an end is gone; else these are taken out, with the graph's list following unless its rebuild is lost |
| Deletion.CacheAfter | src/magi_core/magi_core.py:4955-4990 | without the option no call changes the cache, wherever it fails; with it a successful call removes exactly the extractions that earlier attempts kept or that a stored chunk of the document lists |
| Deletion.KeptAfterCacheFailure | src/magi_core/magi_core.py:5572-5602 | a cache deletion that leaves entries behind keeps for the retry exactly those of the document that are still there |
| Deletion.FailureStops | src/magi_core/magi_core.py:5295-5632 | where a failing call stops: chunks go with their cache lists before anything leaves the graph, the anchors only behind the graph and the cache |
| Deletion.DocumentIsGone | src/magi_core/magi_core.py:5590-5632 | a successful call leaves no row, body, retry record or chunk of the document, and everything of the others |
| Deletion.CollectedAre | src/magi_core/magi_core.py:5030-5065 | a call collects exactly the ids kept by earlier attempts and those of the document's chunks still stored |
| Deletion.FailureKeepsCacheIds | src/magi_core/magi_core.py:4034-4077 | every failure before the row's own deletion keeps all rows, and the retry finds every collected cache id that is still cached, in the row once the ids were saved |
| Deletion.RetriedCallConverges | src/magi_core/magi_core.py:5559-5678 | after any number of failures that can be retried, with chunks or without, another call ends with the stores of one that never failed |
| Deletion.RetryFindsRecord | src/magi_core/magi_core.py:5632-5668 | a failed call leaves a record to retry with unless the document has chunks and the record was deleted; without chunks the failure handler writes it back |
| DeletionCoverage.RunsStayKept | src/magi_core/magi_core.py:4717-5678 | with deletions stopping at any stage among the events, coverage holds over all runs whose calls and rollbacks meet their guards and whose deletions lose no stale object |
| DeletionCoverage.EveryRecordIsNamed | src/magi_core/magi_core.py:5111-5150 | in every state of such a run a recorded chunk is owned by its document and leads to the object through the anchors (committed) or the journal (staged); a document that is gone is recorded nowhere |
| LossyRuns.EveryTrackedIsNamed | src/magi_core/magi_core.py:4645-4675 | of tracked chunks the same holds whatever best-effort rebuild loses on the way |
| DeletionGuards.PlainRunsArePermitted | src/magi_core/operate.py:2477-2510 | within the source limit, and with half-deleted documents left to their deletion, every event meets its guard |
| DeletionGuards.CallGuardIsExact | src/magi_core/magi_core.py:1964-1994 | a patch stages none of the document's own chunks again if and only if none of those it brings has lost its text |
| DeletionGuards.HalfDeletedCallRestages | src/magi_core/magi_core.py:4034-4077 | without that guard: a call on a half-deleted document stages its own chunk, and its rollback empties the chunk list |
| DeletionGuards.RollbackGuardIsExact | src/magi_core/magi_core.py:2847-2915 | a patch rollback keeps the ends of every tracked relation anchored with it if and only if the ends track what keeps the relation anchored |
| UnlinkedEnd.RollbackMayUnlink | src/magi_core/magi_core.py:2847-2915 | a run from empty stores after which that guard fails: the relation was full when the chunk came, so its ends do not track it; the rollback of a later patch takes an end from the anchors while the relation goes on to record the committed chunk |
| DeletionGuards.UnlinkedEndIsExposed | src/magi_core/operate.py:2728-3130 | the next merge of such a relation gives the end a committed chunk that no anchor names |
| DeletionGuards.DeletionClearsIff | src/magi_core/magi_core.py:5295-5520 | a deletion leaves no reference to its document's chunks if and only if it lost no stale object |
| DeletionCoverage.QuietStoresAreKept | src/magi_core/magi_core.py:2405-2443 | stores without journals, with anchored sources and edges nested in their ends, satisfy that invariant |
| RollbackSweep.StatusStore.GetPage | src/magi_core/base.py:1304-1349 | a page is the next failed or processing rows in key order, at most the limit, none passed over; fewer prove exhaustion; the cursor stands behind the last consumed row |
| RollbackSweep.StatusStore.SweepPaged | src/magi_core/magi_core.py:2550-2591 | the paged sweep terminates, rolls back each row with a journal once, in key order, and reports exactly that; afterwards only rows whose rollback failed have one |
| RollbackSweep.StatusStore.SweepAll | src/magi_core/magi_core.py:2592-2603 | the unpaged scan of the failed and processing rows does the same in the store's listing order |
| RollbackSweep.CountsAreExact | src/magi_core/magi_core.py:2481-2486 | the counts are the numbers of documents rolled back and failed, and a sample is the capped prefix |
| RollbackSweep.SweepsAgree | src/magi_core/magi_core.py:2495-2610 | both sweeps visit the same rows, with the same counts and sample sizes |
| RollbackSweep.RowsConverge | src/magi_core/magi_core.py:2536-2548 | over any number of sweeps, the rows left are those whose rollback failed in each, and a sweep without failures then ends where a single one would have |
| SweptStores.SweepsConverge | src/magi_core/magi_core.py:2564-2571 | over the stores: however the rollbacks of all documents are ordered, wherever they stop and however often they are tried again, once no journal is left every store but the anchors is what undoing all operations at once gives, and the anchors too if the operations are independent |
| SweptStores.OrderShowsIffDivided | src/magi_core/magi_core.py:2564-2571 | all such sweeps end in the same stores if and only if no anchored relation is divided: spared by its document's own rollback, but without an end once all are undone |
| SweptStores.NestedIsIndependent | src/magi_core/magi_core.py:2564-2571 | where relations hand their committed sources on to both ends the operations are independent |
| DividedSweep.OrderMayShow | src/magi_core/magi_core.py:2564-2571 | a covered store with two unfinished documents on which the order shows in an anchor |
| SweptStores.SweepSettles | src/magi_core/magi_core.py:2503-2548 | in the status rows a sweep over the stores does what the sweep over the table does, rollbacks that stop half way leaving their row |
| KnowledgeBase.Stack.ClassifyContributions | src/magi_core/magi_core.py:4381-4496 | the classification loops compute the plan, absent candidates skipped |
| KnowledgeBase.Stack.PurgeContributions | src/magi_core/magi_core.py:4245-4715 | the purge, stopping behind any stage, leaves exactly the specified stores |
| KnowledgeBase.Stack.RollBackOne | src/magi_core/magi_core.py:2612-2721 | the rollback of one journal, stopping behind any stage, leaves exactly the specified stores |
| KnowledgeBase.Stack.PruneAnchors | src/magi_core/magi_core.py:2847-2915 | a candidate stays anchored iff it is not the journal's or one of the owned chunks is among its tracked sources |
| KnowledgeBase.Stack.MergeOne | src/magi_core/operate.py:2728-3130 | one object's merge rewrites tracking, graph and vectors as specified, ends of an edge included |
| KnowledgeBase.Stack.MergePhase | src/magi_core/operate.py:3540-3720 | all entities are merged, in any order, and only then the relations; stopped anywhere, it has performed merge steps of the state machine, each in turn |
| KnowledgeBase.Stack.InsertCustomChunks | src/magi_core/magi_core.py:1771-2186 | the call performs a run of the state machine; outside the states that admit it nothing changes, and in them it commits iff no store fails before its last step |
| KnowledgeBase.Stack.DeleteDocument | src/magi_core/magi_core.py:4717-5678 | the deletion, with chunks or without, failing behind any stage, leaves exactly the specified stores, cache and retry record; the cache changes only with the option |
| KnowledgeBase.Stack.HandleFailure | src/magi_core/magi_core.py:5650-5668 | the failure handler writes the record back unless the final stage of the chunk path was reached |
| EntityMerge.MergeIsQuotient | src/magi_core/utils_graph.py:1307-1425 | after the merge an edge from the target to an outsider exists iff some member of the class was adjacent to it, with the union of the sources and the maximum of the weights; edges outside the class are unchanged and no other is left |
| EntityMerge.MergeKeepsSimple | src/magi_core/utils_graph.py:1325-1425 | nodes are the outsiders and the target, no self-loop appears, edge ends exist |
| EntityMerge.TargetRecordsClass | src/magi_core/utils_graph.py:1295-1332 | the target and its vector record hold exactly what the members of the class recorded |
| EntityMerge.MergeMakesIndexesAgree | src/magi_core/utils_graph.py:1445-1553 | both vector indexes hold exactly one record per node and edge, equal to the graph's, even if they lagged behind near the class |
| EntityMerge.RelationTrackingFollows | src/magi_core/utils_graph.py:1334-1443 | a merged edge's tracking row is the ordered duplicate-free union of the rows it collapses, the graph's own list standing in for a missing row; collapsed edges lose theirs, others keep them |
| EntityMerge.RowPerEdge | src/magi_core/utils_graph.py:1334-1443 | with a row per edge before there is one behind |
| MergeRetry.MergedRowRecords | src/magi_core/utils_graph.py:1334-1443 | a merged edge's row holds each id once, exactly those on record of the edges that collapse: in the tracking row, or without one in the graph's list |
| MergeRetry.RetriedRelationTracking | src/magi_core/utils_graph.py:1334-1443 | relation tracking of a merge that failed behind any of its stages and is run again has, for every pair, the ids of one that never failed if and only if the pair is no merged edge or the graph lists that then stand in agree with the rows: always up to the rewritten edges, with the same ids once the old rows are deleted, within them elsewhere |
| MergeRetry.RetryMayLoseTracking | src/magi_core/utils_graph.py:1427-1443 | an edge over its limit, stopped behind the deletion of the old rows and run again, loses an id that an uninterrupted merge keeps |
| EntityMerge.EntityTrackingMerged | src/magi_core/utils_graph.py:1590-1640 | the target's row is the ordered duplicate-free union of the sources' rows and then its own, if it was a node; other rows are unchanged |
| EntityMerge.RetriedEntityTracking | src/magi_core/utils_graph.py:1590-1640 | entity tracking of a failed merge run again is that of one that never failed, if and only if no row was left over for a target that was no node, or it adds nothing to the sources' rows, or the failure lay before the node or behind the tracking |
| EntityMerge.FailedMergeLosesNothing | src/magi_core/utils_graph.py:1445-1588 | a merge that fails before the sources are deleted leaves every node and edge in the graph with its sources and at least its weight |
| EntityMerge.RetriedMergeConverges | src/magi_core/utils_graph.py:1445-1676 | running it again gives the nodes, edges, source sets and weights of a merge that never failed, and agreeing indexes |
| GraphDatabase.Database.MergeEntities | src/magi_core/utils_graph.py:1278-1676 | a missing source is refused before any write; otherwise the loops leave exactly the specified stores behind any stage |
| RuntimeHandles.ExecKeepsSound | src/magi_runtime/runtime.py:80-217 | the protocol's invariant holds under every interleaving of init, open, use, close and destroy, timed-out and repeated destroys included |
| RuntimeHandles.AdmittedCallsAreSafe | src/magi_runtime/runtime.py:199-217 | every admitted call has a live backend whose finalization has not begun, the one it was given, and its handle is not idle |
| RuntimeHandles.IdleMeansNoCalls | src/magi_runtime/runtime.py:37-50 | a handle's event is set iff its counter is zero iff no admitted call is running on it |
| RuntimeHandles.FinalizeOnlyWhenDrained | src/magi_runtime/runtime.py:130-150 | finalization begins only with no call admitted and no handle registered, and reading the backend never finds it missing |
| RuntimeHandles.DrainingAdmitsNothing | src/magi_runtime/runtime.py:119-135 | once the handles are marked no call and no handle is admitted until the next initialization |
| RuntimeHandles.TimedOutDestroyRepeats | src/magi_runtime/runtime.py:119-131 | a destroy that timed out can be repeated and waits for the handles still registered |
| HandleSteps.AdmissionIsCounted | src/magi_runtime/runtime.py:199-208 | a new call is admitted iff its handle is registered and open, and then the counter is one more and the event clear at once |
| HandleSteps.EndIsCounted | src/magi_runtime/runtime.py:213-217 | an ending call takes only itself away, and the event is set iff no other call is left on the handle |
| HandleSteps.NothingClearsUnderCall | src/magi_runtime/runtime.py:119-150 | whatever the other coroutines do, until an admitted call ends its handle stays registered, the backend stays, and the table is not cleared |
| HandleSteps.ClosingAdmitsNothing | src/magi_runtime/runtime.py:185-208 | a handle that is closing is never opened again and admits no call |
| HandleSteps.OpenedHandle | src/magi_runtime/runtime.py:167-184 | a new handle is registered, open and idle, iff the runtime is ready |
| HandleSteps.CloseCompletes | src/magi_runtime/runtime.py:185-197 | a close ends only after it saw the handle idle, and can once no call is left on it: the handle is closed and no longer registered |
| HandleSteps.InitCompletes | src/magi_runtime/runtime.py:80-104 | an initialization makes the runtime ready with a backend that is not dead, or fails without one |
| HandleSteps.DestroyWaits | src/magi_runtime/runtime.py:106-131 | destroying a ready or failed runtime marks every registered handle and waits for all of them |
| HandleSteps.DestroyCompletes | src/magi_runtime/runtime.py:106-150 | a destroy that waits can complete once no call is left: handles closed, none registered, backend finalized and gone, runtime new or finalized |
| Runtime.MagiRuntime.AdmitCall | src/magi_runtime/runtime.py:199-208 | admission is the protocol's step, happens iff the handle is registered and open, and is counted on it |
| Runtime.MagiRuntime.EndCall | src/magi_runtime/runtime.py:213-217 | leaving is the protocol's step: the last call of a handle sets its event |
| Runtime.MagiRuntime.MarkClosing | src/magi_runtime/runtime.py:119-124 | the marking loop closes exactly the registered handles |
| Runtime.MagiRuntime.ClearHandles | src/magi_runtime/runtime.py:133-141 | the drained handles are closed, the table cleared and finalization begun, in one step |
| TokenTrim.TrimContentToBudget | src/magi_core/multimodal_context.py:815-877 | under any tokenizer the result is within the budget; it is trimmed iff there is a budget the content exceeds; what is kept is tight beside the marker, or alone where the marker leaves no room or does not fit after all |
| TokenTrim.CharTrimmedIsTight | src/magi_core/multimodal_context.py:230-263 | a character trim keeps a fitting suffix or prefix that one more character would take over the budget, under any tokenizer |
| TokenTrim.CharTrimmedIsLongest | src/magi_core/multimodal_context.py:230-263 | under a monotone tokenizer it is the longest that fits |
| TokenTrim.SearchLast | src/magi_core/multimodal_context.py:254-263 | the loop over `lo` and `hi` ends where the halving recursion does, for any test of a position |
| TokenTrim.CharTrimTrailing | src/magi_core/multimodal_context.py:248-263 | the binary search computes that prefix |
| TokenTrim.CharTrimLeading | src/magi_core/multimodal_context.py:230-245 | the binary search computes that suffix |
| TokenTrim.PieceIsTight | src/magi_core/multimodal_context.py:377-446 | the fallback gives up iff even the empty table does not fit, and else cannot keep one more character |
| TokenTrim.RowsBeforeCharacters | src/magi_core/multimodal_context.py:271-371 | a table keeps the largest proper number of nearest rows that fits, before any row is cut |
| TableTrims.TrimHoldsRows | src/magi_core/multimodal_context.py:271-371 | a table trimmed to k rows is the one that holds exactly the k rows next to the target, the last ones before it and the first ones behind it |
| TableTrims.KeepsMostRows | src/magi_core/multimodal_context.py:271-371 | if any proper number of rows fits, the largest is kept |
| TableTrims.CutsNearestRow | src/magi_core/multimodal_context.py:371-446 | if none fits, the row next to the target is cut by characters on its far side, as little as possible; nothing is kept iff not even the empty table fits |
| Gathering.SegmentsAreText | src/magi_core/multimodal_context.py:192-221 | the segments concatenate to the text, none is empty, and a used separator gives more than one |
| Gathering.PartsAreFree | src/magi_core/multimodal_context.py:208-211 | no part of a split holds the separator any more |
| Surrounding.Atomize | src/magi_core/multimodal_context.py:106-127 | the atoms concatenate to the text |
| Surrounding.TagsAreSpans | src/magi_core/multimodal_context.py:106-127 | the tags among the atoms are what the scanner found, with their kinds, in order |
| Gathering.AccumulateText | src/magi_core/multimodal_context.py:536-586 | the loops and the recursion on ever fewer separators compute the gathered text, and terminate |
| Gathering.GatherTouches | src/magi_core/multimodal_context.py:536-586 | what is gathered from a text is a non-empty suffix of it before the target, a prefix behind it |
| Gathering.GatherGivesUp | src/magi_core/multimodal_context.py:536-586 | nothing is gathered only where no budget is left or not even the character next to the target fits into it |
| Surrounding.WalkFits | src/magi_core/multimodal_context.py:497-533 | under a subadditive tokenizer the walk stays within the budget, with tags and trimmed tables |
| Gathering.WholeIffFits | src/magi_core/multimodal_context.py:536-586 | under a subadditive tokenizer that grows with the text, a text is taken whole if and only if it fits whole |
| Surrounding.OriginsAreTrue | src/magi_core/multimodal_context.py:497-533 | every character of a half that is not of a trimmed table is the character of the text at the place it is said to come from, and the walk adds only on the far side |
| Surrounding.NearestIffContiguous | src/magi_core/multimodal_context.py:497-533 | these places are the nearest ones without a gap if and only if the first atom that is not taken whole with budget left adds nothing, or is prose that uses up the budget, or that has no atom behind it or one at which nothing can be added |
| Surrounding.ContiguousTouches | src/magi_core/multimodal_context.py:497-533 | and then the half is a suffix, or a prefix, of the text |
| Surrounding.BuildHalf | src/magi_core/multimodal_context.py:465-533 | a half is within its budget under a subadditive tokenizer, and it touches the target where its walk is contiguous, as it is on text without tags |
| Surrounding.TagsBreakContiguity | src/magi_core/multimodal_context.py:465-533 | with a drawing tag before the prose the half keeps the tag and half of the prose: it need not touch the target |
| TableMarkup.SplitHtmlRows | src/magi_core/table_markup.py:133-167 | the scanner loop gives every row the wrapper open where it stands, and none if there is no row |
| TableMarkup.SerializeHtmlRows | src/magi_core/table_markup.py:170-191 | the printer loop emits the rows with the wrapper changes between them |
| TableMarkup.SplitUndoesSerialize | src/magi_core/table_markup.py:133-191 | splitting printed rows gives the same rows |
| TableMarkup.OpenWrapper | src/magi_core/table_markup.py:133-167 | the open wrapper is the one opened last unless its own closing tag came behind; other closing tags do not count |
| TableMarkup.RowsAre | src/magi_core/table_markup.py:133-167 | splitting gives every row in order with the wrapper open where it stands |
| TableMarkup.WrappedText | src/magi_core/table_markup.py:170-191 | a wrapper is printed between its two tags, a row as it is |
| TableMarkup.SerializeAfterSplitIsIdempotent | src/magi_core/table_markup.py:133-191 | printing after splitting is idempotent |
| TableMarkup.SelectionKeepsWrappers | src/magi_core/table_markup.py:170-191 | any run of rows keeps its wrappers |
| TableMarkup.PrintedIsBalanced | src/magi_core/table_markup.py:170-191 | a printed body opens a wrapper only when none is open, and closes the one that is |
| Migration.MigrateAnchors | src/magi_core/storage_migrations.py:100-195 | documents with contributions get the computed rows, others keep theirs |
| Migration.MigrateTracking | src/magi_core/storage_migrations.py:197-329 | the batched loop equals one pass over all records, into an empty store only |
| Migration.AnchorsAre | src/magi_core/storage_migrations.py:124-163 | an object is in a document's anchors iff some record of it lists a chunk of the document |
| Migration.OwnerIsLast | src/magi_core/storage_migrations.py:100-123 | a chunk belongs to the last document that lists it |
| Migration.MigrationEstablishesAnchors | src/magi_core/storage_migrations.py:100-329 | after both migrations an object is in a document's stored row exactly when its stored tracking row meets the document's chunks, if and only if the stored rows and the last listing of the object agree on it |
| Migration.FirstMigrationAgrees | src/magi_core/storage_migrations.py:100-329 | they do on a first migration of objects listed consistently |
| Migration.AnchorsCoverTracking | src/magi_core/storage_migrations.py:100-329 | the stored anchors cover what a fresh tracking store attributes, even without consistency |
| Migration.LaterRecordHidesEarlier | src/magi_core/storage_migrations.py:244-262 | an object whose later record hides an earlier one is anchored without being tracked, and the condition fails |
| Workspaces.AvailableGeneratedId | src/magi_runtime/workspaces.py:244-260 | the suffix search terminates and returns the first free candidate |
| Workspaces.FreshIdIsFirst | src/magi_runtime/workspaces.py:244-260 | the generated id is the base if that is free, else the candidate with the smallest free suffix from 2 on |
| Workspaces.CandidateIs | src/magi_runtime/workspaces.py:253-255 | a candidate is as much of the base as leaves room, without dashes at its end, a dash, and the number |
| Workspaces.FreshId | src/magi_runtime/workspaces.py:244-260 | the generated id is not taken |
| Workspaces.CandidatesDiffer | src/magi_runtime/workspaces.py:253-255 | distinct suffixes give distinct candidates |
| Workspaces.FreshIdIsValid | src/magi_runtime/workspaces.py:244-260 | it is a valid id of at most 128 characters |
| Workspaces.IdBaseIsValid | src/magi_runtime/workspaces.py:235-242 | the base made from any label is a valid id |
| Workspaces.DashesKeep | src/magi_runtime/workspaces.py:235-242 | letters and digits stay in order, with at most one dash between them, and none where nothing else stood |
| Workspaces.DashBetween | src/magi_runtime/workspaces.py:235-242 | where something else stands between two words there is a dash |
| Workspaces.RegistryStaysSound | src/magi_runtime/workspaces.py:72-233 | from any stored registry in any schema, and over every sequence of initialize, set_active, create and delete with any write refused or failing, the active and the default workspace are registered as soon as one repair was written, and workspaces with directories of their own keep them |
| Workspaces.GeneratedCreateSucceeds | src/magi_runtime/workspaces.py:196-233 | a create with a name and without an id or a root, whose registry write works, registers a new workspace in a new directory |
| Workspaces.ValidateIs | src/magi_runtime/workspaces.py:62-70 | an id is taken as given, blanks around it aside, iff it is valid |
| Workspaces.CreateById | src/magi_runtime/workspaces.py:196-233 | a create with an id adds this workspace and nothing else iff the id is free, its directory is not there and the write works; a failed write leaves only the directory |
| Workspaces.CreateRefused | src/magi_runtime/workspaces.py:196-233 | a create with neither a usable id nor a name is refused |
| Workspaces.SetActiveById | src/magi_runtime/workspaces.py:104-116 | exactly a registered workspace becomes active, if the write works |
| Workspaces.DeleteById | src/magi_runtime/workspaces.py:154-194 | a deletion succeeds iff the workspace is registered, not the default, in its own managed directory, and the write works; the default becomes active if the deleted one was |
| Workspaces.InitializeRepairs | src/magi_runtime/workspaces.py:72-90 | initialization registers the default workspace and makes the active one a registered one, keeping the rest |
| Workspaces.FailedRepair | src/magi_runtime/workspaces.py:72-90 | while the write that would repair the registry fails no request changes anything, and a sound registry needs no such write |
| Workspaces.FailedCreateBlocksItself | src/magi_runtime/workspaces.py:196-233 | a create whose registry write fails registers nothing and makes the same request refused from then on |
| Workspaces.WorkspaceManager.Initialize | src/magi_runtime/workspaces.py:72-90 | the method writes the repaired registry, or changes nothing if that write fails |
| Workspaces.WorkspaceManager.SetActive | src/magi_runtime/workspaces.py:104-116 | the method does what the registry function says, failing writes included |
| Workspaces.WorkspaceManager.Create | src/magi_runtime/workspaces.py:196-233 | the method does what the registry function says; the directory stays when the registry write fails |
| Workspaces.WorkspaceManager.Delete | src/magi_runtime/workspaces.py:154-194 | the method, restoring the directory when the write fails, does what the registry function says |
| Rerank.ChunkDocuments | src/magi_core/rerank.py:34-130 | a window below one token is refused; otherwise, with the overlap clamped, the loops terminate and give all chunks with their documents, by tokens or by characters |
| Rerank.WindowsTile | src/magi_core/rerank.py:109-130 | the windows run from start to end, have at most the size, and consecutive ones overlap by exactly the overlap |
| Rerank.WindowsRebuild | src/magi_core/rerank.py:105-130 | dropping the overlaps rebuilds the token list |
| Rerank.WindowCount | src/magi_core/rerank.py:105-130 | the number of windows is one plus the advances the rest needs |
| Rerank.ChunkTexts | src/magi_core/rerank.py:98-130 | a document within the window is one chunk, its own text; the k-th chunk of a longer one is the text of the tokens from k advances on, of the window's size or as many as are left |
| Rerank.AdvancesRoundUp | src/magi_core/rerank.py:115-128 | the advances are the rest divided by the step, rounded up |
| Rerank.CoveredIffNotNegative | src/magi_core/rerank.py:58-71 | a long document is covered by its windows iff the overlap is not negative |
| Rerank.IndicesNameDocuments | src/magi_core/rerank.py:98-130 | chunks and indices go together, the indices name every document, in order |
| Rerank.IndicesAreRight | src/magi_core/rerank.py:98-130 | the chunks with the index of a document are exactly its chunks, in order |
| Rerank.CharacterChunks | src/magi_core/rerank.py:73-97 | without a tokenizer the chunks are windows of characters |
| Rerank.AggregateChunkScores | src/magi_core/rerank.py:133-188 | the grouping loops compute the ranked list of aggregated scores |
| Rerank.RanksByFinal | src/magi_core/rerank.py:151-188 | whatever the strategy, exactly the scored documents are ranked, each once, best first, equal ones in document order |
| Rerank.RanksByBestWindow | src/magi_core/rerank.py:151-188 | maximum aggregation scores a document by its best window |
| Rerank.RanksByMean | src/magi_core/rerank.py:151-188 | mean aggregation: counted once for each scored window, the score adds up to their sum |
| Rerank.RanksByFirst | src/magi_core/rerank.py:151-188 | first aggregation takes the first result for one of its windows |
| Rerank.ScoresAreFromWindows | src/magi_core/rerank.py:151-160 | a document's scores are those of its own chunks, and results with foreign indices are ignored |

## Left out

- Store failures inside one stage: a stage happens or does not; a crash between two store calls of one stage is not modelled.
- DeletionCoverage.EveryRecordIsNamed: asks for the guards of calls and rollbacks along the run, each shown exact for its step, and for deletions that lose no stale object; without the latter LossyRuns.EveryTrackedIsNamed says what is left.
- RollbackSweep.RowsConverge: status rows only; the stores are in SweptStores.
- EntityMerge.MergeIsQuotient: asks for a graph without self-loops, which merging never creates.
- EntityMerge.RetriedMergeConverges: compares sources as sets, because the joined `source_id` has no defined order, and leaves tracking to EntityMerge.RetriedEntityTracking and MergeRetry.RetriedRelationTracking; descriptions and other text fields are not modelled.
- Migration.MigrationEstablishesAnchors: the trigger of the migration, which looks at five documents only, is not modelled.
- Surrounding.NearestIffContiguous: speaks of places in the text; rows of a trimmed table are markup printed anew and count as none.
- Workspaces.FreshIdIsValid: supposes that the number of taken names has at most 126 digits.
- Source limits: one limit stands for the entity and the relation limit, whose defaults are equal.
- Rebuild creating missing ends of an edge: never reached when edge ends exist, as they do here.
- LLM cache entries of a rolled-back operation, recovery warnings, descriptions, episodes and other metadata of rows.
- `chunks_vdb`: it follows `text_chunks`.
- Reservations, keyed locks, the ingress mailbox and the busy-slot handoff: operations are taken one at a time. shared_storage is not part of this model.
- The JSON, HTML-entity and regular-expression libraries: functions passed in; the HTML scanner works on its tokens, tag scanning on disjoint ordered spans.
- Task cancellation, event-loop identity checks and `switch_workspace` in the runtime; the readiness check before a lock is taken, which only refuses more.
- Floating-point rounding in scores and weights: they are reals.
- Vector stores buffering writes until a flush: a failed flush is a failure behind the upserts.
- Overrides of the target's fields in an entity merge, and custom merge strategies.
- Registry files that cannot be parsed, which every call refuses.
- A cache deletion that raises after it removed some entries keeps all ids for the retry; in the model it keeps those still there.
- Atomic registry writes, log messages, metrics and file-system errors other than a failing registry write.
- Entity rename, the ingestion pipeline, querying, the REST layer and the web interface.
