# AskFlow: a verified model

AskFlow is a customer-service assistant: documents are indexed in the background for retrieval, an agent
answers, asks back, opens tickets or hands the conversation to a human, and unanswered questions feed new
knowledge. This project models the stateful protocols behind that and the loops they rest on, and proves what
they keep. `dafny verify dfyconfig.toml` checks all of it.

## How it is laid out

**Asynchronous indexing.** `IndexModel` is a labelled step system: any number of workers, one Redis queue, the
document rows, the vector store, one BM25 mirror per process and the file they share. Every store call is a
step of its own, may fail, and may fail after doing part of its work; a delete is made of its flushed row, its
call to the vector store, its refresh and its commit or rollback; a document that is published at once has its
bytes and chunks in the stores before its row commits or the publication is undone; a restart first selects rows
and later writes them by id. `IndexSafety` proves the exclusion of workers and what
follows from it, `IndexDrain` that the queue drains and that nobody is forgotten, `IndexFaults` what happens
when the assumption breaks. `IndexWorker` is the code itself, as classes with fields; each call of
`ProcessJob` is proved to be a run of the step system (`Journal` records it, `LocalRunIsRun` lifts it).

The safety results assume that the late write of a restart is safe (`SafeReset`): nobody holds the document by
then, and a row selected for a first index has not been indexed since. `ResetKeepsInvIff` shows that this is
exactly what keeps the invariant, and `IndexFaults.LateResetIsSafeIff` that, with a second worker about, it is
exactly what keeps every later state of every safe run to one worker a document and every indexed row active or
being indexed. The source does not check it. If a restart checked that the row still is the one it has
selected, it would be safe exactly as long as no live worker outlives the staleness limit
(`CheckedRequeueIsSafeIff`, `UnsafeResetMeansStaleRow`). `IndexFaults` has complete runs in which the assumption
fails: a worker that overruns the limit, and, with every worker well inside it, two processes that restart at
the same time. Two workers then interleave add, add, sweep, sweep, and an active, published document is left
with no chunk at all; or an upload job claims an indexed document and its cleanup drops everything.

**Configuration cache.** `ConfigCache` has the cache as a class (a `get` is split at its only `await`) and the
same cache among any number of loads in flight, invalidations, edits and clock ticks.

**Handoff.** `Handoff` and `HandoffSafety` model sessions, conversations and follow-up tickets changed by
concurrent database transactions that hold row locks until they commit, and `HandoffTiming` what the clock has to do
with it. A status write that would change nothing
is skipped and locks nothing. `HandoffDesk` is the code inside one transaction; `CreateIsTransaction`,
`ClaimIsTransaction`, `ResolveIsTransaction` and `SweepIsTransaction` join the two. The safety results assume
that no write is skipped while another transaction counts on the session being closed (`SafeSkip`), and that a
failed enqueue is not swallowed; `HandoffFaults` shows of each exactly when every later state is served all the
same, and that the only write a caller must avoid is closing a conversation that is closed already.

**Agent turn.** `AgentTurn` (slot filling and routing over whole conversations) and `OutputBudget` (the output
limit in its streaming and its batch form).

**Retrieval and text.** `Ranking`, `Filters`, `Bm25`, `Retriever`, `Reranker`, `Chunker`, `ChunkIds`,
`Citations`, over `Lists`, `Numerals` and `Text`.

**Knowledge loop.** `KnowledgeGaps` (counting) and `Drafts` (review and three-store publishing).

Where the source updates objects step by step the model has classes, methods and loops, proved against
functions on values; runs and interleavings are reasoned about on those values.

## Where the code and its own description differ

The model follows the code.

- `src/askflow/agent/nodes.py:129-130` says that a failed enqueue may be swallowed because the transfer has
  taken effect. If the request then still commits, the conversation is transferred, and it stays served in every
  later state exactly when it has an open session and no other transaction has closed that one with its status
  write skipped: `HandoffFaults.SwallowedFailureIsSafeIff`. Otherwise the next commits leave it transferred with
  nobody's session behind it (`HandoffFaults.SwallowingLosesServedConversation` is such a run in which it had one).
- `src/askflow/admin/service.py:93-97` publishes the invalidation before the edit commits. A load that reads in
  between is stored and served although the edit has committed (`ConfigCache.InvalidateThenCommitCanBeMissed`);
  in the other order it could not be (`ConfigCache.CommitThenInvalidateIsSeen`). What always holds is
  `ConfigCache.HitIsRecent`.
- `src/askflow/embedding/index_worker.py:214-233` resets rows by id that were selected earlier and without a lock.
  Of two processes that restart together the second can reset a row under a live worker
  (`IndexFaults.LateResetLosesAllChunks`) or put an indexed row back to pending
  (`IndexFaults.LateResetDropsIndexed`).
- `src/askflow/admin/router.py:81-103` drops a document's chunks before the delete commits. When it rolls back, an
  active row without chunks stays (`IndexFaults.DeleteRollbackLosesAllChunks`). When it commits, the document's
  bytes stay in the object store for good (`Drafts.DeleteLeavesBytes`).
- `src/askflow/admin/handoff_router.py:138-143`: resolving a session and closing a conversation that the customer
  has archived writes no status and takes no lock. A handoff turn that found the session open then commits a
  transferred conversation nobody serves and no sweep will find (`HandoffFaults.ClosingAgainLosesConversation`).
- `src/askflow/agent/handoff.py:160-170` asks for a ticket for every timed-out session, but a session whose
  conversation has one open gets that one (`HandoffSafety.EscalationRaisesTicketIff`).
- `src/askflow/knowledge/router_drafts.py:75-80` checks that a draft is pending and then writes it by id: an edit
  that waits for an approval overwrites the approved row, and the published bytes say something else
  (`Drafts.EditAfterApproval`, `Drafts.EditIsSafeIff`).
- The citation patterns of backend and frontend differ on digits other than "0" to "9", which only Python takes:
  `Citations.FrontendAgreesWithBackend`.
- "Active means indexed" fails when a reindex of a never-indexed document gives up or is retried, or a restart
  resets a row that counts chunks: `IndexFaults.ActiveMeansIndexedIff` says exactly when.
- `chunk_count` differs from the stored chunks when a text without any chunk is indexed over a document that
  had some: `IndexSafety.FinalizeCountsChunks`.
- The batch output limit adds the notice to a complete answer when an empty token follows a full budget, and
  replaces a blank answer by the fallback: `OutputBudget.BatchIsBoundedIff`.
- `src/askflow/rag/service.py:64-67` reads a legacy chunk id wrongly when the document id contains "_g":
  `ChunkIds.LegacyRoundTripIff`.
- `src/askflow/knowledge/draft_service.py:137-144`: after a failed publication that is undone the draft is as
  before except for the name of who reviewed it. `src/askflow/knowledge/publisher.py:90-101` promises that no store
  keeps orphans, but its calls are made in a fixed order and one that raises ends the undo: when the vector store
  is down the bytes are never reached. `Drafts.ApprovalOrphansIff` says exactly when something stays: when the
  database fails after both stores are written, or when a call of the undo raises and the bytes stay.
- A citation written with a leading zero is shown without it: `Citations.ShownIsContentIff`.
- `chunk_size` does not bound a chunk; `Chunker.ChunksAreBounded` is the bound that holds.

## Model

| member | source | states |
|---|---|---|
| IndexSafety.AtMostOneWorkerPerDocument | src/askflow/embedding/index_worker.py:60-199 | In every reachable state of every interleaving, with failures, retries, crashes, deletes, rollbacks and restarts whose late writes are safe, at most one worker is between claim and finalize for a document |
| IndexSafety.OnceFinalizedAlwaysWhole | src/askflow/embedding/service.py:70-79 | From the first finalize with at least one chunk on, every later state of every run has one complete generation of the document in the vector store, between add and sweep included, until a delete of the document begins to empty it |
| IndexSafety.OncePublishedAlwaysWhole | src/askflow/knowledge/publisher.py:51-87 | The same from the commit of a document that was published at once with at least one chunk |
| IndexSafety.StepKeepsWholeIff | src/askflow/admin/router.py:81-103 | A published document that keeps its row stays whole at a step if and only if the step is not a delete emptying it, in full or so far that no complete generation is spared |
| IndexSafety.UploadJobSkipsIndexed | src/askflow/repositories/document_repo.py:28-45 | A document that was once indexed is active or indexing, and an upload job's claim on it changes nothing |
| IndexSafety.CleanupSparesIndexed | src/askflow/embedding/index_worker.py:105-118 | The cleanup of a failed first upload never deletes chunks or bytes of a document that was indexed or published before |
| IndexSafety.FinalizeCountsChunks | src/askflow/embedding/index_worker.py:73-78 | After finalize, unless a delete emptied the document during the pass, chunk_count is the number of stored chunks if and only if the pass wrote chunks or none are stored |
| IndexSafety.RowSaysWhatWasWritten | src/askflow/embedding/index_worker.py:121-144 | In every reachable state a row's chunk_count and indexed_at are what the last finalize or publication of its document wrote, or those of a new row, whatever has failed, been retried or been restored since |
| IndexSafety.FailedForGood | src/askflow/embedding/index_worker.py:133-144 | The last write of a pass that failed for good leaves chunk_count and indexed_at as they were, clears the start time, and ends an upload failed and a reindex active |
| IndexSafety.ClaimWinsIff | src/askflow/embedding/index_worker.py:60-70 | A claim wins if and only if the row is there and pending, failed, or active with a reindex job; the winner's row is indexing from now on and otherwise unchanged, and a loser changes nothing |
| IndexSafety.RestartServes | src/askflow/embedding/index_worker.py:214-233 | A restart selects exactly the pending rows and those indexing for more than thirty minutes, and, unless a delete holds the row, leaves each with a first attempt announced that can claim it, counts and index time untouched |
| IndexSafety.ReindexAnnounces | src/askflow/embedding/router.py:129-152 | Reindexing announces a first attempt that reindexes, except for a failed document that was never indexed, which is uploaded anew |
| IndexSafety.DeletedStaysDeleted | src/askflow/admin/router.py:81-103 | Once a delete has committed the document never has a row again, whatever jobs, workers, restarts and reindexings of it are under way |
| IndexSafety.StepKeepsInv | src/askflow/embedding/index_worker.py:60-233 | Every step of workers, producers, publications, deletes and restarts keeps exclusion, the stage promises of each worker and the promises about each document, as long as the late writes of restarts are safe |
| IndexSafety.SafeRunKeepsInv | src/askflow/embedding/index_worker.py:60-233 | The same for every run of any length |
| IndexSafety.WorkKeepsDoc | src/askflow/embedding/index_worker.py:121-199 | Whatever a holding worker does, failing or not, its document keeps its promises and the worker's next stage has its own |
| IndexSafety.ClaimKeepsInv | src/askflow/repositories/document_repo.py:28-45 | A conditional claim, won or lost, keeps the invariant; only the winner holds the document |
| IndexSafety.ResetKeepsInvIff | src/askflow/embedding/index_worker.py:214-233 | The late write of a restart, by id over whatever the row has become, keeps the invariant if and only if nobody holds the document and a row selected for a first index has not been indexed since |
| IndexFaults.LateResetIsSafeIff | src/askflow/embedding/index_worker.py:214-233 | With a second worker about, every later state of every safe run after the write has one worker a document at most and no indexed row pending or failed, if and only if the write was safe in that sense |
| IndexSafety.CheckedRequeueIsSafeIff | src/askflow/repositories/document_repo.py:99-109 | Were only rows written that still are as they were selected, every write a restart could make would be safe if and only if no live worker has outlived the staleness limit |
| IndexSafety.UnsafeResetMeansStaleRow | src/askflow/embedding/index_worker.py:214-233 | Without such a worker an unsafe write is always one over a row that has changed since it was selected |
| IndexFaults.OverrunLosesAllChunks | src/askflow/embedding/service.py:70-81 | A concrete run past the staleness limit ends with an active, published document that has no chunk |
| IndexFaults.LateResetLosesAllChunks | src/askflow/embedding/index_worker.py:214-233 | A concrete run of two restarts at the same time ends the same way although every worker is inside the limit at every moment of it |
| IndexFaults.LateResetDropsIndexed | src/askflow/embedding/index_worker.py:105-118 | In another such run an upload job claims an indexed document, fails three times, and the cleanup drops its chunks and its bytes |
| IndexFaults.DeleteRollbackLosesAllChunks | src/askflow/admin/router.py:81-103 | A concrete run of a delete that is rolled back ends with an active document that counts one chunk and has none, and nobody is at work on it |
| IndexFaults.ActiveMeansIndexedIff | src/askflow/embedding/index_worker.py:121-144 | A step keeps "active rows have been indexed" if and only if it does not restore a row that never was |
| IndexDrain.WorkerStepCosts | src/askflow/embedding/queue.py:16-50 | Every pop, claim, work step and retry push strictly lowers the work left in queue and workers |
| IndexDrain.DrainingIsBounded | src/askflow/embedding/index_worker.py:202-211 | Without new jobs, no run of the workers is longer than the work left |
| IndexDrain.AttemptsAreBounded | src/askflow/embedding/index_worker.py:146-167 | In every reachable state every queued job's attempt is between 1 and 3 |
| IndexDrain.StepKeepsServed | src/askflow/embedding/index_worker.py:121-131 | Without lost pushes or crashes, every pending row has a job under way that can claim it, and every indexing row a worker |
| IndexDrain.SomeoneCanStep | src/askflow/embedding/index_worker.py:202-211 | No deadlock: while a job is queued or a worker is busy, some worker can move; or every busy worker waits to claim or write the very row that a delete still holds and can give back, and none is idle beside a queued job |
| IndexDrain.DrainingCompletes | src/askflow/embedding/index_worker.py:121-199 | Once producers and deletes are done the workers stop within the work left, and then no row is pending or indexing |
| IndexDrain.SnapshotWasTheStore | src/askflow/main.py:79-102 | Whatever index a process searches, rebuilt by itself or loaded at startup from the file any process may have saved, and that file too, is the whole store's contents at one moment of the run, never a mix of two |
| IndexDrain.RefreshMirrorsStore | src/askflow/embedding/service.py:79-81 | After a refresh that reaches the store the snapshot equals it, and holds exactly the new generation of the document just indexed |
| IndexDrain.StartupLoadsOrRebuilds | src/askflow/main.py:79-102 | A starting process searches the saved index if it can be read, otherwise the store's contents if that can, and otherwise nothing |
| IndexDrain.DeletedIsNotMirrored | src/askflow/embedding/service.py:91-107 | Whatever happens between a delete's emptying of a document and its refresh, the rebuilt index has nothing of it, unless a worker adds chunks of that document again |
| IndexWorker.DocumentRepo.ClaimForIndexing | src/askflow/repositories/document_repo.py:28-45 | Wins if and only if the row is pending, failed, or active and allowed; the winner's row is indexing since now, and nothing else of it or of any other row changes |
| IndexWorker.DocumentRepo.UpdateStatus | src/askflow/repositories/document_repo.py:59-78 | The new row: status, chunk count if given, indexed_at only on active, start time cleared unless indexing |
| IndexWorker.VectorStore.Add | src/askflow/rag/vector_store.py:23-35 | The collection gains exactly the landed slots of the new generation, each with its text; other documents keep theirs |
| IndexWorker.VectorStore.DeleteDocChunksExcept | src/askflow/rag/vector_store.py:54-67 | Of this document exactly the kept slots remain, other documents keep theirs, and the number deleted is returned |
| IndexWorker.VectorStore.DeleteByDocId | src/askflow/rag/vector_store.py:51-52 | The document has no chunk left and other documents keep theirs |
| IndexWorker.JobQueue.Pop | src/askflow/embedding/queue.py:40-50 | The oldest payload is taken from the tail and dropped when it is no job, or nothing from an empty list |
| IndexWorker.Worker.ReplaceChunks | src/askflow/embedding/service.py:70-89 | Add, sweep, refresh: on success the document's chunks are exactly the new texts at their places and the mirror is a full read of the collection when it can be read; a failure anywhere is a run of the protocol and touches no other document |
| IndexWorker.Worker.IndexDocument | src/askflow/embedding/service.py:32-89 | The chunk count, or none if any call raises; no store access for a text without chunks |
| IndexWorker.Worker.CleanupFirstIndex | src/askflow/embedding/index_worker.py:105-118 | Chunks and bytes of a failed first upload are dropped as far as the stores allow, in steps of the protocol |
| IndexWorker.Worker.HandleFailure | src/askflow/embedding/index_worker.py:146-167 | Below the limit the row goes back and the next attempt is pushed, at the limit an upload is cleaned up and the final status written; the row is otherwise as before the claim, and a row write that raises leaves it as the claim left it and pushes nothing |
| IndexWorker.RowAfterFailure | src/askflow/embedding/index_worker.py:121-144 | A pass that fails on the row as claimed changes its status, by kind and attempt, and its start time, and keeps chunk_count, indexed_at and the storage key |
| IndexWorker.Worker.ClaimJob | src/askflow/embedding/index_worker.py:60-70 | Some row exactly when the job's kind could claim it and neither the commit nor the reading back raises; the row is claimed unless the update or the commit failed |
| IndexWorker.Worker.FinalizeSuccess | src/askflow/embedding/index_worker.py:73-78 | The row becomes active with the new count and index time |
| IndexWorker.Worker.ProcessJob | src/askflow/embedding/index_worker.py:170-199 | One job from claim to end, for all answers of the environment, in the claim and in the failure handler too: which of skipped, succeeded, failed and abandoned it ends in; the row as it was before but for what that changes; the queue, the document's chunks, its bytes and the mirror; and the whole of it a run of the protocol |
| IndexWorker.LocalRunIsRun | src/askflow/embedding/index_worker.py:170-199 | What a worker does on its own document is a run of the whole system that changes only this document, this worker and its own mirror |
| ConfigCache.Cache.BeginGet | src/askflow/core/config_cache.py:60-67 | A hit if and only if a value is stored and younger than the TTL; otherwise a ticket with the clock and the epoch, nothing stored |
| ConfigCache.Cache.FinishGet | src/askflow/core/config_cache.py:68-75 | The loaded value is returned, and stored if and only if no invalidation came in between |
| ConfigCache.StepKeepsInv | src/askflow/core/config_cache.py:60-81 | A stored value comes from a load that began after the last invalidation, whichever load finishes last |
| ConfigCache.HitIsRecent | src/askflow/core/config_cache.py:60-81 | Any hit returns a configuration that was committed at a moment after the last invalidation and less than one TTL ago |
| ConfigCache.EditIsSeenIff | src/askflow/core/config_cache.py:60-81 | All later hits see the present configuration if and only if nothing older is fresh in the cache or still storable by a load |
| ConfigCache.CommitThenInvalidateIsSeen | src/askflow/core/config_cache.py:77-81 | An invalidation after the commit makes every later hit see the edit |
| ConfigCache.InvalidateThenCommitCanBeMissed | src/askflow/admin/service.py:93-97 | An invalidation before the commit does not: a run that hits the old configuration |
| HandoffSafety.StepKeepsInv | src/askflow/repositories/handoff_repo.py:92-141 | Every step of every enqueue, claim, resolution, sweep, archiving, deletion, ticket change, commit and rollback keeps the committed tables and all open transactions sound, as long as no failure is swallowed and no status write is skipped that somebody relies on |
| HandoffSafety.CommitKeepsCommitted | src/askflow/repositories/handoff_repo.py:23-56 | A commit keeps one open session a conversation, every transferred conversation served and every open session out of the assistant's hands, fields fitting status, escalations single and complete, one open ticket a title |
| HandoffSafety.CommitLeavesAlone | src/askflow/repositories/handoff_repo.py:129-141 | A commit disturbs nothing that another open transaction has locked or counts on, unless it closes unnoticed the session that the other has found |
| HandoffSafety.TransferredHasExactlyOneOpenSession | src/askflow/agent/nodes.py:134-148 | In every committed state of every guarded run a transferred conversation has a queued or claimed session, no conversation has two, and assignee and times are set exactly in the statuses that have them |
| HandoffSafety.SessionsHaveTheirConversation | src/askflow/agent/handoff.py:153-158 | Deletions included, every session has its conversation, and while it is open that is not active: the branch for a conversation that is gone is never taken |
| HandoffSafety.EscalatedOnceAndNeverClaimed | src/askflow/agent/handoff.py:133-176 | With any number of sweepers and claimers a session is escalated at most once, and an escalated session was never claimed |
| HandoffSafety.TimedOutIffEscalated | src/askflow/agent/handoff.py:153-176 | No expired session is lost: timed out if and only if escalated exactly once, and then there is a ticket of its conversation |
| HandoffSafety.EscalationRaisesTicketIff | src/askflow/agent/handoff.py:160-174 | At the moment of an escalation the conversation has an open ticket, one of the session's own if and only if none was open; and the conversation is locked and handed back |
| HandoffSafety.AtMostOneOpenTicket | src/askflow/repositories/ticket_repo.py:26-78 | Two open follow-up tickets never have the same title, whatever sweeps, closings and reopenings run at once |
| HandoffSafety.SweptRowIsStillQueued | src/askflow/agent/handoff.py:171-173 | The conditional close whose outcome is ignored always finds its row queued, because the sweeper holds the lock |
| HandoffTiming.TimedOutAfterTimeout | src/askflow/repositories/handoff_repo.py:129-141 | In every reachable state a timed-out session was closed more than the timeout of ten minutes after it was queued, and every session is queued, claimed and closed in this order and none of it in the future |
| HandoffTiming.SweepLeavesNoneQueued | src/askflow/agent/handoff.py:133-150 | A sweep locks exactly the sessions queued for longer than the timeout that nobody else has locked, and whatever happens meanwhile its commit leaves every one of them timed out |
| HandoffSafety.RowsMoveLegally | src/askflow/repositories/handoff_repo.py:92-127 | A committed session moves only from queued to claimed or timed out and from claimed to resolved or returned, and goes only with its conversation |
| HandoffSafety.ClosedSessionsNeverChange | src/askflow/repositories/handoff_repo.py:110-127 | Over any run a resolved, returned or timed-out session stays exactly as it is, unless its conversation is deleted, and then it is gone for good |
| HandoffSafety.ClaimIsForGood | src/askflow/repositories/handoff_repo.py:92-108 | Over any run a claimed session keeps its assignee and claim time as long as it exists |
| HandoffFaults.SkipKeepsInvIff | src/askflow/repositories/conversation_repo.py:69-77 | A skipped status write keeps the invariant if and only if no other transaction is about to transfer the conversation, counting on the session being closed |
| HandoffFaults.SkippedWriteIsSafeIff | src/askflow/admin/handoff_router.py:126-143 | After a skipped write every later state of every guarded run serves its transferred conversations if and only if that is so; otherwise two commits lose one |
| HandoffFaults.OnlyClosingAgainIsSkipped | src/askflow/admin/handoff_router.py:140-143 | The only write ever skipped is closing a conversation that is closed already |
| HandoffFaults.StatusWriteIsSafeIff | src/askflow/admin/handoff_router.py:140-143 | Knowing the status a conversation has and the one it is to get, a caller can write it safely in every state if and only if it is not closing a closed one |
| HandoffFaults.ClosingAgainLosesConversation | src/askflow/admin/handoff_router.py:126-147 | A concrete run of a waiting customer, an archiving, a second handoff and a resolution that closes: transferred, and no session open |
| HandoffFaults.SwallowedFailureIsSafeIff | src/askflow/agent/nodes.py:144-148 | After a swallowed enqueue failure every later state of every guarded run, its own commit among them, serves its transferred conversations if and only if this one has an open session and no transaction has closed that one with its status write skipped |
| HandoffFaults.SwallowingLosesServedConversation | src/askflow/agent/nodes.py:144-148 | A concrete guarded run in which the conversation has an open session when the failure is swallowed and none after the next two commits |
| HandoffDesk.HandoffRepo.Create | src/askflow/repositories/handoff_repo.py:23-56 | An open session of the conversation is returned and nothing inserted, or the conflict is unresolved if and only if somebody closes that session before it is read back, which the table then shows; otherwise exactly the new queued row |
| HandoffDesk.HandoffRepo.Claim | src/askflow/repositories/handoff_repo.py:92-108 | Only a queued session is taken; a loser gets none and changes nothing |
| HandoffDesk.HandoffRepo.Close | src/askflow/repositories/handoff_repo.py:110-127 | Only a session in the expected status is closed; a loser gets none and changes nothing |
| HandoffDesk.HandoffRepo.SweepExpired | src/askflow/repositories/handoff_repo.py:129-141 | Exactly the sessions that are queued for longer than the timeout and that nobody else has locked, each once |
| HandoffDesk.Desk.ClaimHandoff | src/askflow/admin/handoff_router.py:80-94 | Not found, conflict or claimed, each exactly when it should be, with the resulting table |
| HandoffDesk.Desk.RequireAssignee | src/askflow/admin/handoff_router.py:157-164 | Not found, conflict, forbidden or allowed, each exactly when it should be |
| HandoffDesk.Desk.ResolveHandoff | src/askflow/admin/handoff_router.py:126-147 | Succeeds if and only if the caller holds the claim; then that session is closed and its conversation released, otherwise nothing changes |
| HandoffDesk.Desk.RaiseTicket | src/askflow/repositories/ticket_repo.py:26-78 | An open ticket of the title is returned and nothing inserted, otherwise exactly the new one |
| HandoffDesk.Desk.EscalateExpired | src/askflow/agent/handoff.py:153-176 | The ticket unless one is open, the close and the hand-back, or only the close when the conversation is gone |
| HandoffDesk.Desk.SweepExpiredHandoffs | src/askflow/agent/handoff.py:133-150 | A sweep escalates exactly the expired unlocked sessions, each once, raises a ticket for exactly those whose conversation has none open, leaves everything else alone and returns their number |
| HandoffDesk.SweepEscalatesOverdue | src/askflow/agent/handoff.py:133-176 | What a sweep leaves: the sessions overdue by then closed as timed out, their conversations with the assistant and an open ticket each, every escalation counted once, and no other row, conversation or ticket changed |
| HandoffDesk.CreateIsTransaction | src/askflow/repositories/handoff_repo.py:23-56 | An enqueue that runs alone is the protocol's transaction and commits the rows that the create method promises, with the conversation transferred |
| HandoffDesk.ClaimIsTransaction | src/askflow/repositories/handoff_repo.py:92-108 | The same for a claim |
| HandoffDesk.ResolveIsTransaction | src/askflow/admin/handoff_router.py:126-147 | The same for a resolution, whether its status write is skipped or not |
| HandoffDesk.SweepIsTransaction | src/askflow/agent/handoff.py:133-150 | In whatever order it goes, a sweep that runs alone is the protocol's sweep transaction and commits the tables that the method promises |
| AgentTurn.AgentState.ResumePendingRoute | src/askflow/agent/slots.py:62-85 | Resumes the tool if and only if a record is open and the message carries an order id, with an intent above the low-confidence line |
| AgentTurn.AgentState.SettlePendingAfterClassify | src/askflow/agent/slots.py:88-108 | Ask again, give up after three questions, abandon on a confident other intent or keep the record; memory and stored record move together |
| AgentTurn.AgentState.SyncPendingAfterTool | src/askflow/agent/slots.py:111-133 | A missing slot opens or counts on the record, any other result clears it, in memory and stored |
| AgentTurn.AgentState.ChooseRoute | src/askflow/agent/harness.py:111-147 | An allowed route always, clarify when confidence is low |
| AgentTurn.Process | src/askflow/agent/service.py:113-173 | A turn takes the stored record, route and tool result where the turn function says, through harness, resume, classify, settle, route and tool |
| AgentTurn.TakenUpIff | src/askflow/agent/harness.py:71-109 | A message is taken up if and only if it has one to two thousand characters and does not steer the prompt; otherwise nothing changes |
| AgentTurn.ConfidentTurnIsRouted | src/askflow/agent/nodes.py:208-241 | A confident turn that no record steers goes to the valid route that the configured map names for its intent and otherwise to retrieval; without a map handoffs, complaints, fault reports and order queries have their own routes and everything else goes to retrieval |
| AgentTurn.RecordSteers | src/askflow/agent/slots.py:62-108 | With a record open an order id or the same intent again goes to the tool, the latter until the third question is used up, and an uncertain turn asks back |
| AgentTurn.ToolOfTurn | src/askflow/agent/tools.py:201-242 | A tool runs exactly on the tool route, and which tool and missing slot it is by intent and order id |
| AgentTurn.CounterIsQuestionsAsked | src/askflow/agent/slots.py:111-133 | In every conversation turns_waited is the number of questions asked since the record was opened, less one, and nobody is asked more than three times |
| AgentTurn.OrderIdAnswersTheQuestion | src/askflow/agent/slots.py:62-85 | In every conversation an accepted message with an order id, while a record is open, runs the order tool and closes the record, whatever classifier, routes and overrides say |
| AgentTurn.RecordClosesIff | src/askflow/agent/slots.py:88-121 | Exactly when the next turn closes an open record |
| AgentTurn.RecordOpensIff | src/askflow/agent/tools.py:214-242 | Exactly when a turn opens a record |
| AgentTurn.LowConfidenceOnlyClarifies | src/askflow/agent/harness.py:122-126 | An uncertain turn runs no tool, asks nothing, and keeps the record unless its three questions are used up |
| OutputBudget.WrapStream | src/askflow/agent/harness.py:171-199 | For every token sequence and budget: the fallback for empty text, the whole text if it fits, otherwise its first characters up to the budget and the notice |
| OutputBudget.LimitTokens | src/askflow/agent/harness.py:267-283 | The limited list, and whether it was cut |
| OutputBudget.LimitedText | src/askflow/agent/harness.py:267-283 | The limited list's text is the original, or its first characters up to the budget and the notice when it overruns |
| OutputBudget.FinalizeState | src/askflow/agent/harness.py:149-169 | The batch answer's text, with the fallback for a blank one, and the truncation flag if and only if it overran |
| OutputBudget.BatchIsStream | src/askflow/agent/harness.py:149-199 | Without empty tokens and with something to say, batch and streaming give the same tokens |
| OutputBudget.BatchIsBoundedIff | src/askflow/agent/harness.py:149-169 | The batch answer is the promised one if and only if the text is empty, or is not blank and is not followed by an empty token at a full budget |
| OutputBudget.BudgetIsKept | src/askflow/agent/harness.py:149-199 | Neither form ever exceeds the budget by more than the notice |
| Ranking.TopKIsBest | src/askflow/rag/bm25.py:81-83 | The first k of a stable descending sort: as many as there are, in order, and everything left out is behind everything kept |
| Filters.ToChromaWhere | src/askflow/rag/filters.py:39-73 | The clause accepts exactly the metadata the in-memory predicate accepts; there is none if and only if the filter is empty; conjunctions have at least two members |
| Filters.FilterIsItsKeys | src/askflow/rag/filters.py:59-73 | A filter accepts what each of its keys accepts alone: a listed source, a listed document, indexed no earlier, indexed no later; metadata that lacks a key asked for is refused |
| Bm25.BM25Index.Search | src/askflow/rag/bm25.py:64-92 | Documents of the index with their own positive scores that match, best first, at most k, and a matching one is left out only for k others that score at least as much |
| Bm25.KeptAreBest | src/askflow/rag/bm25.py:75-83 | Every matching document left out is behind every one kept, and then k are kept |
| Bm25.BM25Index.SaveToFile | src/askflow/rag/bm25.py:103-130 | The file holds the snapshot, or is unchanged without the lock |
| Bm25.BM25Index.LoadFromFile | src/askflow/rag/bm25.py:132-160 | Loads exactly a readable file of this version with as many ids as texts; anything else leaves the index as it was |
| Bm25.SaveThenLoad | src/askflow/rag/bm25.py:103-160 | Saving and loading gives an index with the same answer to every search |
| Bm25.RebuiltIndexIsTheStore | src/askflow/rag/bm25.py:162-174 | A rebuild from the store misses no matching chunk |
| Retriever.RrfFuse | src/askflow/rag/retriever.py:112-150 | The dictionary loops compute the stable top k of the union of both rankings by summed reciprocal rank, with each id's hit and raw scores |
| Retriever.FusionIsStableTopK | src/askflow/rag/retriever.py:139-150 | Distinct ids, falling scores, ties in order of first appearance, as many as asked for or all there are; whatever is left out scores no more than anything kept, and where it ties it appears later |
| Retriever.FusedScoreIsBounded | src/askflow/rag/retriever.py:126-134 | Without repeats no fused score exceeds the sum of the weights over 61 |
| Retriever.FusedResultIs | src/askflow/rag/retriever.py:126-150 | A fused result is the vector channel's hit, or else the keyword channel's, scored by the weights over 60 plus the rank in each channel, with both channels' own scores beside it |
| Retriever.AheadInBothStaysAhead | src/askflow/rag/retriever.py:112-150 | An id ahead of another in both rankings is ahead of it in the fusion, and kept whenever the other is |
| Retriever.FusionMatches | src/askflow/rag/retriever.py:139-150 | Fusion of matching hits gives at most k hits, all matching |
| Retriever.VectorSearch | src/askflow/rag/retriever.py:66-90 | The vector store's own answer for top_k and a clause that says the same as the filter, so its hits match the filter |
| Retriever.Bm25Search | src/askflow/rag/retriever.py:92-110 | The keyword index's best top_k among what the filter accepts, and nothing but it |
| Retriever.Retrieve | src/askflow/rag/retriever.py:35-64 | The vector hits are the store's answer unless it is not asked or fails, the keyword hits the index's unless it is not asked; the results are the ones, the others, or both fused when neither is empty; in every branch at most top_k, all matching the filter |
| Reranker.OrderIsPermutation | src/askflow/rag/reranker.py:60-71 | For every model reply and any table of Unicode digits the new order names every passage once: the named ones at their first mention, then the rest in their old order; none is named by a reply that cannot be read |
| Reranker.ListedComeFirst | src/askflow/rag/reranker.py:60-66 | A reply that lists distinct existing passages with commas between, and any blanks and brackets around the numbers, puts exactly these first, in its order |
| Reranker.PermutationKeepsAll | src/askflow/rag/reranker.py:68-71 | Taking the hits in that order loses and duplicates none |
| Reranker.RerankByReply | src/askflow/rag/reranker.py:60-73 | The loops produce the hits in that order, all of them before the cut, and raise if and only if a token passes the digit test and is no number |
| Reranker.Rerank | src/askflow/rag/reranker.py:21-34 | Without a model, or when asking it or reading its reply fails, the old order; always as many as asked for or all there are |
| Chunker.ChunkText | src/askflow/embedding/chunker.py:6-34 | The chunks are the text's trimmed paragraphs in order, packed greedily, each chunk after the first led by the tail of the one before unless that is blank; the last filter drops nothing |
| Chunker.OnlyOnePacking | src/askflow/embedding/chunker.py:16-32 | These requirements leave no choice: paragraphs have exactly one packing |
| Chunker.OwnParagraphsAreTheTexts | src/askflow/embedding/chunker.py:16-19 | The chunks' own paragraphs are, in order, the text's paragraphs that are not blank, each without the white space at its ends and otherwise verbatim as it stands in the text |
| Chunker.ChunksAreFilled | src/askflow/embedding/chunker.py:21-31 | Line breaks not counted, a chunk of several paragraphs keeps to the size, and the first paragraph of the next chunk would not have fitted into it |
| Chunker.SplitCutsAtRuns | src/askflow/embedding/chunker.py:37-38 | The text is cut at its runs of two or more line breaks, at all of them and nowhere else |
| Chunker.ChunkingKeepsInk | src/askflow/embedding/chunker.py:6-34 | Without the carried tails the chunks hold every character of the text that is not white space, in order |
| Chunker.ChunkStartsWithTail | src/askflow/embedding/chunker.py:23-28 | Chunk i + 1 begins with the last overlap characters of chunk i, or all of it, whenever they are not blank |
| Chunker.ChunksAreBounded | src/askflow/embedding/chunker.py:21-29 | Summed piece length is at most the larger of chunk_size and overlap plus the longest paragraph |
| Chunker.NothingBlank | src/askflow/embedding/chunker.py:34 | No chunk is blank |
| ChunkIds.RoundTrip | src/askflow/rag/service.py:59-68 | For every document id, generation and index, reading the printed id gives the document id back |
| ChunkIds.MetadataComesFirst | src/askflow/rag/service.py:59-68 | A document named in the metadata is taken as it is, and an id without either mark names none |
| ChunkIds.LegacyRoundTripIff | src/askflow/rag/service.py:64-67 | A legacy id is read back if and only if the document id contains no "_g" |
| ChunkIds.PrintIsInjective | src/askflow/embedding/service.py:59 | No two chunks of any documents, generations or places share an id |
| Citations.ExtractCitations | src/askflow/rag/verifier.py:62-73 | The loop over matches gives the duplicate-free lists of cited and of dangling numbers, for any table of digits beyond the ASCII ones |
| Citations.CitationsAreTheMarkers | src/askflow/rag/verifier.py:62-73 | Every marker's number is in exactly one of the lists, once, by whether there is such a source; nothing else is |
| Citations.CitedIff | src/askflow/rag/verifier.py:62-73 | A number is cited if and only if it stands in brackets with one or two digits somewhere in the answer and there is such a source, and dangling if it stands there and there is none |
| Citations.RenderWithCitations | web/src/lib/citations.tsx:36-74 | The segments join back to the content, chips are the markers that name a source in order, and the text keeps exactly the other markers |
| Citations.FrontendAgreesWithBackend | web/src/lib/citations.tsx:50-72 | The frontend's chips and plain markers are the markers the backend takes for valid and for invalid if and only if no marker has a digit other than "0" to "9" |
| Citations.ShownIsContentIff | web/src/lib/citations.tsx:54-63 | The reader sees the answer as written if and only if no cited source is written with a leading zero |
| KnowledgeGaps.GapRepo.Record | src/askflow/repositories/knowledge_gap_repo.py:28-74 | The question's open row gets one more signal, the new wording and the new intent if there is one, and all other rows stay, or one new row is added |
| KnowledgeGaps.GapRepo.SetStatus | src/askflow/repositories/knowledge_gap_repo.py:103-108 | Only that row's status changes, nothing for an unknown row |
| KnowledgeGaps.GapRepo.UpdateGap | src/askflow/knowledge/router.py:95-107 | An administrator can dismiss and nothing else |
| KnowledgeGaps.SignalsAreConserved | src/askflow/repositories/knowledge_gap_repo.py:44-72 | Over any run a question's rows add up to the signals sent for it, in all and by kind |
| KnowledgeGaps.TableIsSound | src/askflow/repositories/knowledge_gap_repo.py:28-74 | In every reachable table a row's frequency is the sum of its signal counts, and no question has two open rows |
| KnowledgeGaps.ClosedRowsAreFrozen | src/askflow/repositories/knowledge_gap_repo.py:62-64 | Over any run a row that left open never reopens and is never counted on again |
| Drafts.Publisher.Create | src/askflow/repositories/knowledge_draft_repo.py:21-65 | The gap's pending draft is returned, or the conflict is unresolved if and only if somebody rejects that draft before it is read back, which the table then shows; otherwise exactly the new one is inserted |
| Drafts.Publisher.BeginEdit | src/askflow/knowledge/router_drafts.py:71-76 | Not found, conflict, or the pending row is read, each exactly when it should be |
| Drafts.Publisher.FinishEdit | src/askflow/repositories/knowledge_draft_repo.py:100-113 | The fields that differ from what was read are written by id, whatever has become of the row |
| Drafts.Publisher.TransitionStatus | src/askflow/repositories/knowledge_draft_repo.py:115-145 | Wins if and only if the draft is still in the expected status; a name or note that is not given is kept |
| Drafts.Publisher.Rollback | src/askflow/knowledge/publisher.py:90-101 | Chunks, bytes and row of the document go in this order; a call that raises keeps what it has not dropped and everything behind it, and decides the error |
| Drafts.Publisher.PublishDocumentBytes | src/askflow/knowledge/publisher.py:51-87 | Success writes all three stores, a failure that is undone leaves all three as they were, and after any other failure exactly what the undo has not reached or dropped stays |
| Drafts.Publisher.Approve | src/askflow/knowledge/draft_service.py:114-149 | Outcome and resulting stores for every fault, in the undo too: published and promoted, refused, given back for review, or the tables rolled back over whatever the stores keep |
| Drafts.Publisher.Reject | src/askflow/knowledge/draft_service.py:151-170 | Only a pending draft is rejected, and its gap stays as it is |
| Drafts.Publisher.DeleteDocument | src/askflow/admin/router.py:81-103 | Not found, failed with the chunks gone that the store has dropped, or deleted: chunks, row and every reference to it go, the bytes stay |
| Drafts.ApprovalPublishes | src/askflow/knowledge/draft_service.py:114-149 | A successful approval approves the draft in the reviewer's name, makes one active document of it with exactly its chunks, and promotes the gap it answers |
| Drafts.ReviewTouchesDraft | src/askflow/knowledge/draft_service.py:137-170 | A rejection, and an approval that is undone, change this draft in the fields of the review and nothing else |
| Drafts.EditReplaces | src/askflow/repositories/knowledge_draft_repo.py:100-113 | An edit replaces the question and the answer it brings unless they are what it has read, and nothing else |
| Drafts.PublishedBytesTellAll | src/askflow/knowledge/draft_service.py:69-79 | Over any run the bytes of every document hold the question, the answer and the provenance of the draft as it was approved, in this order |
| Drafts.StepKeepsSound | src/askflow/knowledge/draft_service.py:114-170 | Every step, the halves of edits and of deletes among them, keeps drafts and documents naming each other until a delete, documents whole in all stores with the bytes of the draft as approved but for chunks a delete has taken, promotions pointing at them, one pending draft a gap, and deleted documents traced to an approved draft |
| Drafts.OneDocumentPerDraft | src/askflow/knowledge/draft_service.py:114-149 | Over any run with failures and deletes anywhere a draft becomes at most one document, exactly the approved ones become one, which is there with the bytes of the draft as approved or has been deleted, and no gap has two pending drafts |
| Drafts.DocumentsAreFrozen | src/askflow/knowledge/publisher.py:51-87 | Over any run a document stays as it was approved until its delete commits and is then gone for good; its bytes stay in either case |
| Drafts.EditIsSafeIff | src/askflow/knowledge/router_drafts.py:71-79 | At the write of an edit, every outcome of it leaves all published bytes as their drafts' rows say if and only if the draft has no published document by then |
| Drafts.BytesAreTheRow | src/askflow/knowledge/router_drafts.py:71-79 | Over any run in which no edit is written over a draft with a published document, every document's bytes are its draft's row |
| Drafts.EditAfterApproval | src/askflow/knowledge/router_drafts.py:71-79 | In any sound state, reading a pending draft, approving it and writing a longer question leaves an approved row that the published bytes contradict |
| Drafts.FailedApprovalCanBeRetried | src/askflow/knowledge/draft_service.py:137-144 | An approval after a failed one that was undone gives exactly what it would have given without the failure |
| Drafts.AnyFailureCanBeRetried | src/askflow/knowledge/draft_service.py:137-144 | After a failure of any kind it gives the same, but for bytes and chunks of the first attempt's own document |
| Drafts.ApprovalOrphansIff | src/askflow/knowledge/publisher.py:64-101 | Bytes or chunks without a document are left behind if and only if the draft was pending and the database fails after both stores are written, or a call of the undo raises while the bytes are stored and not dropped |
| Drafts.DeleteLeavesBytes | src/askflow/admin/router.py:81-103 | In any sound state a delete that commits leaves the document's bytes behind and no chunk of it |

## Left out

Assumptions of the models, and what they do not capture:

- IndexWorker.Worker.ProcessJob: error texts, metrics and audit records are not modelled; a database commit either happens or raises.
- The generation number is a millisecond clock in the source; the model asks that no earlier pass over the same document has had it.
- A restart writes and commits its selected rows one by one in the model; the source commits them together, which are the runs in which nothing comes in between.
- Withdrawing an upload whose job could not be queued is a single step. It may come at any time, and nothing is promised about the chunks of a document whose row is gone.
- HandoffSafety.StepKeepsInv: ticket contents and tickets that somebody files by hand under the very title of an escalation are not modelled; the second attempt of a ticket insert and its final error are a rollback; time is in whole minutes.
- HandoffDesk.SweepIsTransaction: compares with a sweep that runs alone, as the three lemmas beside it do for the other operations; what runs at the same time is the subject of the step system.
- AgentTurn.Process: saving the record is taken to succeed; the order-id and prompt-control patterns, the classifier and the tools' replies are inputs; the answer texts of the nodes are not modelled.
- Sanitising the conversation history in the harness is not modelled: the agent turn starts from the message at hand.
- OutputBudget.WrapStream: the stream is a finished token sequence, and an exception from it is not modelled.
- Filters.ToChromaWhere: instants are whole seconds; metadata values have the types that indexing writes.
- Bm25.BM25Index.Search: tokenising and BM25 scoring are an arbitrary function of corpus and query; scores are real numbers; pickled bytes and file locks are reduced to content and lock outcome; a consistent snapshot (as many ids, texts and metadata) is required, as every caller that builds from the store provides.
- Retriever.RrfFuse: scores are real numbers instead of floating point.
- Reranker.RerankByReply: which characters are digits is a table; white space around the whole reply is taken off before, and the interpreter's limit on the length of a number is not modelled.
- The verdict of the language-model judge (`src/askflow/rag/verifier.py:86-143`) is not modelled: its prompt, the parsing of its reply and the fallback when it cannot be asked.
- Chunker.ChunkText: file parsing and embedding are not modelled.
- KnowledgeGaps.GapRepo.Record: normalising and hashing of questions are inputs; times and example ids are not modelled.
- Drafts.Publisher.Approve: an approval is one step, because its first UPDATE locks the draft row until the commit and renders what it has locked; synthesis of answers is an input; reindexing a published document is the subject of the indexing modules.
- HTTP and WebSocket plumbing, authentication, the admin console and React pages, prompt versioning, feedback, ticket permissions, the connection manager, analytics, evaluation and migrations.
- Intent classification, PII masking, grounding scores and answer confidence.
