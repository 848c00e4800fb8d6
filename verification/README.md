# Verified core of the cleat workflow engine

This project models the parts of cleat where a wrong step loses or repeats work, and proves what those
parts promise over every input, every run or every interleaving. `dafny verify dfyconfig.toml` checks all
of it. Nothing here executes the engine.

The modules follow the engine's own components.

- `RunIds`, `EventTable`, `ChildCalls`, `ChildAnswers`: the event rows and the child calls of an execution
  session, as functions on session values and as a class that carries them out in place. `ChildAnswers` says
  what each call answers and records in terms of what it observed.
- `Journals`, `ReplayDeterminism`, `ReplayClocks`, `UnrecordedAnswers`, `ReplayEdges`: a parent workflow is
  executed again from its first call on every wake, over the durable rows earlier wakes left. The guest is any
  function from the answers so far to the next request; it may start, await and poll children, and go on after
  a refused call. The number of wakes, what each call observes of the children, the refusals, and the call at
  which a wake is lost are arbitrary. What was recorded is always repeated. Polls and refusals are answered
  without a record, and the wakes agree exactly when those are repeated too; `UnrecordedAnswers` states exactly
  when they are. A call makes at most one durable write, so a loss inside a call is a loss before or after it.
- `EventCodec`, `EventFields`, `Compaction`, `CompactionReplay`, `CompactedRuns`: folding old events into a
  checkpoint and rebuilding a replayable history. The two switches of the codec are transcribed separately and
  proved inverse; `EventFields` lists, from the code that records and replays events, what each type is recorded
  with and what replay reads of it, and measures the codec against that.
  Replay of the child calls over the rebuilt history is related to replay over the original one, for one wake
  and for whole runs with a compaction between two wakes.
- `CallIntent`, `CallAnswers`, `ReReplayWindow`, `IdempotencyKey`: the write-ahead call intent as a machine over its atomic
  statements and external sends, with any number of executions alive at once, crashes, takeovers, resends,
  lookups, operators and their audit rows, divergence, re-replays, forced ends, and the retention sweep.
  `CallAnswers` traces every answer back to the reply or the operator that brought it.
- `Flusher`, `FlusherRuns`: the batching flusher. The critical sections are methods; every interleaving of
  them with the timer and the flush goroutines is a run.
- `Tenants`, `TenantRaces`, `TenantOrigins`, `ConcurrentCreates`: tenant api keys, with the clock a transaction reads apart from
  the clock at its commit; the statement-by-statement race between creating a tenant, starting its runs and
  dropping it; and any number of identical creates at once.
- `Saga`, `Quorum`, `Selector`: the three loops of the guest SDK.

Time is the virtual or the database clock as a number; the JSON library, the service, the children, the
workers' scheduling and the network are parameters. Text columns use the empty text for SQL NULL, as the
writers' `nullStr` does.

## Where the code and its own words part

Each of these is a result of the project. The model follows the code.

- Completing an open await keeps the row's `created_at` (`engine/adaptive_flush.go:472-479`), and the
  history loader takes the timestamp from that column (`engine/store_events.go:31-34`). A wake that replays an
  await which an earlier wake had resumed therefore has an older virtual clock, and a poll after it can change
  from completed to running, although `engine/children.go:408-411` says the await closes the window
  (`UnrecordedAnswers.ClockRepeats`, `UnrecordedAnswers.PollRepeats`, `ReplayEdges.PollAfterResumedAwaitChanges`).
- A refused call records nothing, so a replayed one can take the answer of the next recorded call
  (`UnrecordedAnswers.RefusedCallRepeats`, `ReplayEdges.RefusedStartShiftsAnswers`).
- A child that settles with blank text is read as unsettled on replay, and the start after it is made again
  (`ReplayEdges.SettledAwaitReplays`, `ReplayEdges.BlankResultStartsTwice`).
- Compacting a run a second time uses the number of remaining rows as a step number and overwrites the first
  checkpoint. The rebuilt history passes the density check and is shifted; with increasing timestamps it never
  is the original one (`CompactionReplay.SecondCompaction`, `CompactionReplay.SecondCompactionNeverSurvives`,
  `CompactionReplay.TwiceCompactedRun`).
- Compaction drops the request of `await_all_children`, which replay compares
  (`CompactionReplay.CompactedAwaitAllReplays`), and closes all open children on any such event, settled or
  not (`Compaction.Closes`).
- Compaction is to give replay a complete history (`engine/compaction.go:687-690`), but drops fields replay
  reads: a call that was pending replays as one that returned blank, an acquire, release or scope event that
  failed replays as a success, and an await of a promise loses its deadline (`EventFields.ReadsSurvive`,
  `EventFields.CompactedCallReplays`, `EventFields.CompactedLockReplays`,
  `EventFields.CompactedAwaitPromiseReplays`).
- `partitionFencedBatch` says a stale generation is not waved through beside a current one
  (`engine/adaptive_flush.go:255-262`); it is, because the result is keyed by workflow id
  (`Flusher.PartitionIsExact`).
- A re-replay checks the history and acts in two transactions. After a sweep between them every call but the
  first, whose step the re-replay's own audit row takes, can be dispatched again
  (`ReReplayWindow.ReReplayIsExact`, `ReReplayWindow.WindowAtEveryLaterStep`).
- PostgreSQL's `now()` is the start of the transaction. A confirm that begins before a key lapses and commits
  after it makes the lapsed key permanent (`Tenants.DeadStepsDead`, `Tenants.LapsedKeyCanRevive`), which can
  exceed the limit of 25 keys by one for each such confirm (`Tenants.KeysStayBounded`, `Tenants.OneKeyTooMany`); and
  a revoke without force can leave a tenant without a key (`Tenants.RevokeLeavesAKey`, `Tenants.RevokeCanLockOut`).
- A drop counts unsettled runs once. A start that had read the flag before the suspension can insert its run
  after the count, as the header of `auth/tenant_drop.go` says, and the drop deletes it
  (`TenantRaces.DropFindsNoRun`, `TenantRaces.DropDeletesAnUnsettledRun`).

## Model

| member | source | states |
|---|---|---|
| RunIds.SameRunIDSet | engine/children.go:516-532 | two request texts name the same children exactly when they parse to the same multiset of ids, or, if either does not parse, are the same text |
| RunIds.SortIsCanonical | engine/children.go:523-531 | sorted lists are equal exactly when the lists are permutations of each other |
| EventTable.RowsAreWriteOnce | engine/adaptive_flush.go:472-479 | under any sequence of flushes a row only moves from absent to open to settled; a settled row never changes, and no row changes its run id, request or creation time |
| EventTable.BatchIsIdempotent | engine/adaptive_flush.go:452-495 | executing any batch a second time changes nothing and is accepted or refused as the first time, so a whole batch may be sent again after an uncertain commit; a batch that would write a row twice is refused |
| EventTable.RetryAfterOtherBatches | engine/adaptive_flush.go:699-732 | the same with any other batches executed in between, open awaits included, when two open awaits written at one step are of one kind |
| EventTable.UpsertWrites | engine/adaptive_flush.go:472-479 | a write touches its own key alone: over nothing it is the row itself, over an open row the incoming response, error, promise result and promise error under the old identity, and any other row stays |
| EventTable.OnlyAwaitsComplete | engine/store_event_write.go:143-150 | a row that is there changes only if it awaits a child, a promise or all children and has no outcome, and then always takes the incoming one |
| EventTable.ExecutedAt | engine/adaptive_flush.go:452-495 | each entry of an accepted batch is written so at its own key |
| ChildCalls.ExecSession.constructor | engine/executor.go:188-212 | a session starts at step 0, replaying exactly when it has a history |
| ChildCalls.ExecSession.AdvanceReplayStep | engine/replayer.go:54-69 | consuming a record moves on by one step and the virtual clock to its timestamp when it has one, writes no row and touches no child |
| ChildCalls.ExecSession.Record | engine/lifecycle.go:178-240 | a fresh record never moves the virtual clock back, carries its new time, and writes no row but that of its step, where it fills a gap or completes an open row |
| ChildCalls.ExecSession.ChildWorkflow | engine/children.go:106-283 | a start answers from its record, or diverges, or, past the history, is refused, suspended or creates one child and its row together |
| ChildCalls.ExecSession.AwaitChild | engine/children.go:285-375 | an await answers from a settled record; without one it returns a result exactly of a child that is done, an error exactly of one that failed or cannot be read, and suspends exactly while it runs, and the row stores that text as response or error |
| ChildCalls.ExecSession.AwaitFresh | engine/children.go:323-375 | the fresh half of that: which reading becomes which answer, and where the row stores it |
| ChildCalls.ExecSession.ReplayAny | engine/children.go:579-593 | the records that follow a suspend record of the same children are consumed up to the first result |
| ChildCalls.ExecSession.AwaitAnyChild | engine/children.go:534-610 | an await-any answers from its first result record, and resumes without a second suspend record |
| ChildCalls.ExecSession.AwaitAnyFresh | engine/children.go:609-685 | the fresh await-any records the first settled child in sorted order, or suspends |
| ChildCalls.ExecSession.AwaitAllChildren | engine/children.go:825-885 | an await-all answers from a settled record with the same request and diverges on any other |
| ChildCalls.ExecSession.AwaitAllFresh | engine/children.go:694-823 | the fresh await-all records all outcomes in request order once none is running, or suspends |
| ChildCalls.ExecSession.PollChild | engine/children.go:421-510 | a poll writes nothing, says completed or failed exactly of a child settled no later than the virtual clock, running of one not settled by then, and an error where the store cannot say |
| ChildCalls.FirstSettled | engine/children.go:619-658 | the index returned is the first child that is not running |
| ChildAnswers.StartAnswers | engine/children.go:145-283 | past the history a start is refused exactly for a policy other than the blank one, TERMINATE, ABANDON and REQUEST_CANCEL or by the store, suspended exactly while the worker stops, and otherwise starts one child and records it; nothing else is written |
| ChildAnswers.RecordedStartAnswers | engine/children.go:106-143 | over a record it answers with the recorded run id and consumes it, or diverges and consumes nothing |
| ChildAnswers.AwaitAnswers | engine/children.go:323-375 | without a settled record: result, error or suspension exactly by the child's state, and the appended record holds what the guest was told |
| ChildAnswers.RecordedAwaitAnswers | engine/children.go:287-319 | a settled record answers with its own error or response and is consumed; any other kind diverges |
| ChildAnswers.AnySuspends | engine/children.go:609-685 | a fresh await-any is refused exactly for a malformed request and suspended exactly while all its children run, with one suspend record unless it was resumed |
| ChildAnswers.AnyReturns | engine/children.go:619-660 | otherwise it returns and records the result or error of a child that does not run, while every child with a smaller id does |
| ChildAnswers.AllSuspends | engine/children.go:694-823 | a fresh await-all is refused exactly for a malformed request and suspended exactly while one of its children runs |
| ChildAnswers.AllReturns | engine/children.go:780-823 | otherwise it returns and records every child's result or error in the order of the request |
| ChildAnswers.RecordedAllAnswers | engine/children.go:825-885 | a settled await-all answers with its own text exactly when the request is the recorded one |
| ChildAnswers.ConsumesUpTo | engine/children.go:579-593 | the records after a suspend record are consumed up to the first result of the same children, which is taken, or the first record that is not theirs, which is left |
| ChildAnswers.RecordedAnyAnswers | engine/children.go:546-607 | over a suspend record the answer is the first result its children have after it, or the call goes on as a resumed await; other kinds diverge |
| Journals.RecordedRepeats | engine/children.go:106-143 | a call whose answer was recorded is answered the same, whatever the children now say, and touches nothing durable |
| Journals.RefusalRepeats | engine/children.go:145-162 | a refused call, of any kind, is refused again exactly when nothing was recorded after it and it is refused afresh, or all that was recorded is the record of a suspended await of its own kind |
| Journals.PendingCall | engine/children.go:145-283 | the first call past the recorded answers, in any of the five kinds, leaves rows that explain its answer or its suspension, and the children are exactly those of the start rows |
| ReplayDeterminism.KnownCall | engine/children.go:287-321 | a call the journal has an answer for is answered the same unless that answer was a poll's or a refusal, is suspended only if it was refused, and then or if answered the same writes nothing |
| ReplayDeterminism.WakeExtendsJournal | engine/executor.go:188-262 | one wake that does not contradict the journal only adds answers and rows to it, and answers a prefix of what is then stored, all of it unless it was lost or suspended at a start that was refused |
| ReplayDeterminism.WakesAgreeExactly | engine/children.go:106-885 | over every run of every guest, no two wakes contradict each other if and only if every poll and every refusal that a later wake comes to by the same answers is answered as before |
| ReplayDeterminism.ChildrenAreAnswers | engine/children.go:222-266 | the child workflows that exist are exactly the starts the guest was answered, in order, and no answer is a divergence or a suspension |
| ReplayDeterminism.ReplayIsDeterministic | engine/children.go:106-885 | over every such run, through any number of wakes, a later wake repeats every earlier one unless it is cut short, no call diverges, each answered start created exactly one child, and each await-any of a run without refusals left at most one suspend record |
| ReplayClocks.WakeInTime | engine/replayer.go:54-69 | at every call of every wake the virtual clock is the time of the last record consumed or written, or the workflow's creation time |
| UnrecordedAnswers.RefusedCallRepeats | engine/children.go:145-162 | between any two wakes of any run that come to a refused call by the same answers, the later is refused exactly under the condition of `Journals.RefusalRepeats` on what it has loaded |
| UnrecordedAnswers.PollRepeats | engine/children.go:376-510 | between any two wakes that come to a poll by the same answers, it is answered the same exactly when the child had ended by both virtual clocks or by neither |
| UnrecordedAnswers.ClockRepeats | engine/adaptive_flush.go:472-479 | the clock of a call made again is the time of the last loaded record before it, and is the earlier wake's clock exactly when that wake did not complete, at another time, a row left open before it |
| UnrecordedAnswers.StepsAgree | engine/replayer.go:54-69 | two wakes that come to a call by the same unrefused answers stand at the same step, and the later has recorded nothing |
| ReplayEdges.SettledAwaitReplays | engine/children.go:287-321 | a settled await is answered from its row exactly when the child's text is not blank |
| ReplayEdges.BlankResultStartsTwice | engine/children.go:291-300 | a run in which a blank result makes the second wake start another child for the same call |
| ReplayEdges.RefusedStartShiftsAnswers | engine/children.go:106-162 | a run in which a refused start takes the answer of the next start on the second wake |
| ReplayEdges.PollAfterResumedAwaitChanges | engine/children.go:404-411 | for every completion between suspension and resumption, a run of three wakes in which the poll after the resumed await is completed in the second and running in the third |
| ReplayEdges.WinnerIgnoresOrder | engine/children.go:610-660 | the winner of an await-any does not depend on the order the children were named in |
| ReplayEdges.WinnerIsLeastSettled | engine/children.go:610-660 | if any named child is settled, the winner is a settled one no greater than it |
| ReplayEdges.AwaitAllListsEveryChild | engine/children.go:694-823 | an await-all suspends exactly while a named child is running, and otherwise answers with every named child in order, with its result or its error |
| EventCodec.ScanPrint | engine/compaction.go:614-617 | the decimal text of the lock flag scans back to the flag, for every integer |
| EventCodec.CodesRoundTrip | engine/compaction.go:104-178 | the two code tables are inverse on every listed type, and exactly the unlisted types have the invalid code |
| EventCodec.ArmsAgree | engine/compaction.go:496-652 | for every type with an arm, reconstruction reads each field from the slot extraction stored it in |
| EventCodec.ArmsInjective | engine/compaction.go:496-652 | within an arm no slot is shared and no field stored twice, although slots are reused between types |
| EventCodec.RestoreCompact | engine/compaction.go:691-851 | compacting and restoring an event keeps its type, timestamp and every field its type carries, and clears every other field |
| EventFields.ArmsKeep | engine/compaction.go:496-652 | extraction stores, for each type, exactly the listed fields that are to be kept |
| EventFields.ReadIsRecorded | engine/durablecalls.go:266-385 | replay looks at no field an event is not recorded with |
| EventFields.RecordedSurvives | engine/compaction.go:691-851 | everything an event is recorded with comes back from compaction if and only if the fields it drops hold nothing |
| EventFields.ReadsSurvive | engine/compaction.go:464-851 | what replay reads of an event, for all thirty-four compactable types, comes back if and only if none of it is in a dropped field that holds something |
| EventFields.HistoryReadsSurvive | engine/compaction.go:691-851 | the same over a whole rebuilt history within the cap |
| EventFields.CompactedCallReplays | engine/durablecalls.go:266-385 | a compacted call gives the guest the same response or error if and only if it was not pending; a pending one replays as if it had returned |
| EventFields.CompactedLockReplays | engine/locking.go:93-113 | a compacted acquire, release or scope event is answered as before if and only if it did not fail |
| EventFields.CompactedAwaitPromiseReplays | engine/promises.go:190-235 | a compacted await of a promise never times out |
| Compaction.Fold | engine/compaction.go:473-652 | the fold stops at the first event it cannot represent; until then its map holds the last description of each deferred id and its set exactly the open children |
| Compaction.ListDefers | engine/compaction.go:654-660 | one entry per deferred id, with its last description |
| Compaction.ListOpenChildren | engine/compaction.go:662-674 | one entry per child with a start and no later settled await for it and no later await-all, with the name and input of its first start |
| Compaction.ExtractCompactionState | engine/compaction.go:464-685 | extraction refuses exactly when some type has no code or no arm; otherwise the checkpoint holds the newest events that fit the cap, the pending defers and the open children, exactly |
| Compaction.NewestIsTheTail | engine/compaction.go:676-682 | of more than ten thousand events exactly the last ten thousand are kept, in order |
| Compaction.BuildFullHistory | engine/compaction.go:691-851 | the rebuilt history is the restored events at steps 0, 1, 2, ... followed by the kept rows |
| Compaction.ValidateReplayStepDensity | engine/replayer.go:179-191 | the check passes exactly when every record sits at the index its step names |
| Compaction.StepsAlign | engine/compaction.go:676-682 | after one compaction of contiguous rows the rebuilt history is dense exactly when nothing was truncated or nothing was kept |
| Compaction.RebuiltRecord | engine/compaction.go:691-851 | within the cap, record i of the rebuilt history is the original record i on every field its type carries |
| CompactionReplay.ViewSurvives | engine/compaction.go:541-544 | a compacted record looks the same to the child calls exactly when it is not an await-all that names its children |
| CompactionReplay.ViewsSurvive | engine/compaction.go:464-851 | the rebuilt history looks the same to the child calls exactly when nothing was truncated and no compacted await-all names its children |
| CompactionReplay.ChildReplaySurvivesCompaction | engine/children.go:106-885 | over the rebuilt history every guest gets the same answers, ends the same way at the same step and clock, and starts the same children, whatever rows the table still holds |
| CompactionReplay.CompactedAwaitAllReplays | engine/children.go:855-880 | a settled await-all that was compacted replays as a divergence exactly when it names children |
| CompactionReplay.FirstCompaction | engine/compaction.go:340-420 | the first compaction of a run preserves what the child calls see exactly when it does nothing, or keeps a row, truncates nothing and folds no await-all that names its children |
| CompactionReplay.SecondCompaction | engine/db.go:1115-1202 | a second compaction preserves what the child calls see if and only if nothing is truncated and every record below the new cut looks, as compaction leaves it, like the one `first` steps later |
| CompactionReplay.SecondCompactionNeverSurvives | engine/compaction.go:386-400 | it never does when the first record is older than record `first` |
| CompactionReplay.SecondCompactionShifts | engine/db.go:1115-1170 | after a second compaction the history has the right length and is dense, but below the cut index i holds original record first + i, and above it record i |
| CompactionReplay.SecondCompactionAnswersWrongChild | engine/db.go:1173-1202 | for every run compacted twice whose records 0 and `first` are starts of different children, the first call is answered with the other child |
| CompactionReplay.TwiceCompactedRun | engine/compaction.go:340-420 | a run of seven starts compacted at three records and again at seven that is told it started child 2 where it started child 0 |
| CompactedRuns.PendingCallWrites | engine/lifecycle.go:178-240 | a call past the recorded answers writes at the row it left open or after the last row, so never below the cut of a compaction that kept a row |
| CompactedRuns.PrefixStays | engine/store_event_write.go:140-150 | through any wake the rows below the last one do not change |
| CompactedRuns.CompactionIsInvisible | engine/compaction.go:340-420 | for every run with a compaction between any two wakes, in which polls and refusals repeat, there is the same run without it, and every wake answers, ends and starts children as the same wake of the other; its table is the kept part |
| CompactedRuns.WakesAgreeAcrossCompaction | engine/children.go:106-885 | all wakes before and after the compaction agree if and only if polls and refusals repeat, and then no call diverges and each answered start created exactly one child |
| CallIntent.Instance.constructor | engine/callintent.go:166-170 | an instance starts ready, with no rows and no execution |
| CallIntent.Instance.FreshCallWithIntent | engine/callintent.go:166-226 | without the fence, or with a row at the step, nothing is sent and nothing changes; otherwise, with anything else happening in between, the call is sent once with its row durable, and answered exactly if at completion the lease is held and the row still pending, with the answer the row then holds and the guest is given |
| CallIntent.ReplayUnderOriginalKey | engine/callintent.go:468-561 | a call is resent exactly if its operation is declared, the age of its row is known and no more than the retention, a day by default; then at most three sends, all under the given key, further ones only while the service says the call is in flight, and an answer only from a definite reply |
| CallIntent.GuardReReplay | engine/admin_ops.go:140-174 | a re-replay proceeds exactly when no call is pending and the history is not an emptied one; a refusal names the first pending step |
| CallIntent.FindResolvable | engine/admin_intent.go:84-112 | a resolution may write exactly over a pending record of that step, and its audit record goes right after the last step |
| CallIntent.ReachKeepsInv | engine/store_intent.go:52-100 | the invariants of rows, audit rows, executions, sends, keys and deliveries hold after every sequence of events |
| CallIntent.FreshDispatchAtMostOnce | engine/callintent.go:166-226 | over every run, two fresh dispatches of a step are separated by a re-replay of an emptied history, and the step is not the first; while nothing was swept there is at most one |
| CallIntent.SeenIsDurable | engine/callintent.go:187-205 | until the history is swept, or purged with a finished run, any step the service has seen has a pending or complete row |
| CallIntent.AnswersAgree | engine/callintent.go:640-683 | two recorded answers for a step, given to guests by any executions, agree within an epoch, always while nothing was swept, and are then the one the row holds until the run is done |
| CallIntent.SameKeySameStep | engine/callintent.go:531-536 | in every state of every run two sends carry the same key exactly when they are of the same step |
| CallIntent.ZombieWritesNothing | engine/store_intent.go:60-92 | an execution that lost the lease changes no row and no status, whatever it does next |
| CallIntent.SettledOnce | engine/admin_intent.go:112-135 | a call settled by the worker, a resend, a lookup or an operator is never given another answer by any later event |
| CallAnswers.AnswersAreBrought | engine/callintent.go:640-690 | over every run, whatever a step was settled with was brought for that step by the reply to its dispatch, by the reply to a resend or lookup of it, or by an operator, and so was whatever a worker holds and has not recorded |
| CallAnswers.DeliveriesAreBrought | engine/durablecalls.go:300-385 | so every answer any guest was ever given was brought for the step it was given at |
| CallAnswers.ResolutionIsRecorded | engine/callintent.go:655-690 | a resolution, with anything others do before it is recorded, becomes the row and the guest's answer exactly if the lease is held and the row pending then, and otherwise neither |
| CallAnswers.OperatorAnswerIsRecorded | engine/admin_intent.go:84-135 | an operator's answer becomes the row exactly if the row they found is still pending, and nothing else changes |
| CallAnswers.RecordedAnswerIsDelivered | engine/durablecalls.go:372-385 | an execution that comes to a step it loaded as complete gives the guest the recorded answer |
| CallAnswers.LoadTakesTheHistory | engine/executor.go:250-262 | what a loading execution replays is the history as it stands |
| CallAnswers.ResendRepeats | engine/callintent.go:530-545 | a resend adds one send of the same step under the key the earlier send of it carried, and settles nothing |
| CallAnswers.AmbiguityIsReported | engine/durablecalls.go:349-370 | a call that stays ambiguous settles nothing and the guest goes on |
| CallAnswers.ForceEnds | engine/store_admin.go:284-420 | an operator ends exactly a run that is not finished; every lease is void, its rows stay and one audit row follows the last |
| CallAnswers.RetryReopens | engine/admin_ops.go:208-238 | a dead-lettered run becomes ready exactly when no call is pending |
| CallAnswers.FinishEnds | migrations/postgres/003_procedures.sql:34-150 | the lease holder, and no one else, ends its segment with the status it reports; a run that is done loses its history, any other keeps it |
| CallAnswers.CheckIsTheGuard | engine/admin_ops.go:140-174 | the machine's check passes exactly when the guard over the history it loads proceeds |
| CallAnswers.LoadFindsThePending | engine/admin_intent.go:84-112 | the machine finds for an operator exactly what the scan of the history finds: a pending step, and the step after the last for the audit row |
| CallAnswers.ActReopens | engine/store_admin_rereplay.go:53-123 | a re-replay approved for this generation reopens exactly a failed, terminated or dead-lettered run; earlier leases are void, its rows stay and one audit row follows the last |
| ReReplayWindow.TwoFreshSends | engine/admin_ops.go:116-190 | over every run a step is sent afresh twice only if a re-replay's check passed, then the history was swept, then the re-replay acted on what was left, and never the first step |
| ReReplayWindow.ReReplayIsExact | engine/store_admin_rereplay.go:53-123 | after a re-replay acts, a step already sent can be sent afresh again if and only if the history has been swept and is empty at that moment and the step is not the first, which holds its audit row |
| ReReplayWindow.WindowAtEveryLaterStep | engine/retention_predicates.go:88-110 | for every step, some run sends it afresh twice if and only if it is not the first |
| IdempotencyKey.MaterialIsInjective | engine/idempotency.go:47-73 | over identifiers without NUL the keyed text determines workflow, run and step |
| IdempotencyKey.NulCollides | engine/idempotency.go:60-64 | with a NUL in an identifier two calls share the keyed text |
| Flusher.AdaptiveFlusher.constructor | engine/adaptive_flush.go:94-118 | a new flusher is empty, and a batch size that is not positive becomes 200 |
| Flusher.AdaptiveFlusher.Flush | engine/adaptive_flush.go:166-222 | in batch mode the entry is appended and none is lost, the first one arms the timer, and a full accumulator leaves as one batch; otherwise nothing changes |
| Flusher.AdaptiveFlusher.OnTimer | engine/adaptive_flush.go:224-234 | the callback takes all entries and leaves the timer |
| Flusher.AdaptiveFlusher.Drain | engine/adaptive_flush.go:588-601 | Run and Shutdown take all entries and stop the timer |
| Flusher.PartitionFencedBatch | engine/adaptive_flush.go:264-396 | the batch is split, in order, by whether its workflow was confirmed |
| Flusher.PartitionIsExact | engine/adaptive_flush.go:345-396 | each entry is fenced by its own claim, for every state of the leases, exactly when no workflow appears under two claims |
| Flusher.WriteUntilKnown | engine/adaptive_flush.go:483-507 | however many of the attempts committed, the table is as if the batch had been executed once, and success is reported only of a commit; the first failure is always retried, a later one exactly if it is worth retrying |
| Flusher.FlushAndNotify | engine/adaptive_flush.go:398-507 | every entry gets one notice: excluded ones a lost fence or the check's error, written ones a common outcome; on success each of them is in the table at its own workflow and step, as its own row, as the completion of an open row, or beside a settled row that stays, and no other key ever changes |
| Flusher.AdmittedMayWrite | engine/adaptive_flush.go:264-396 | an entry is written exactly if nothing in the batch asks for fencing, or the check answered and the entry asks for none or some entry of the batch holds the lease of its workflow |
| FlusherRuns.OneNoticeEach | engine/adaptive_flush.go:398-507 | a flushed batch gives each of its channels as many notices as it has entries for it |
| FlusherRuns.ExactlyOnePlace | engine/adaptive_flush.go:166-234 | over every interleaving an accepted entry is in exactly one place: accumulator, one batch in flight, or its one outcome |
| FlusherRuns.NeverStranded | engine/adaptive_flush.go:194-221 | between critical sections the accumulator holds less than a batch, and while it holds anything the timer is armed or a callback is on its way |
| FlusherRuns.WakeUpDrains | engine/adaptive_flush.go:224-234 | that wake-up moves all waiting entries into one batch |
| FlusherRuns.AllToldOnce | engine/adaptive_flush.go:952-971 | once everything is drained and flushed every accepted entry has had exactly one outcome |
| Tenants.TenantStore.constructor | auth/tenant_store.go:60-62 | a new store has no tenant and no key that authenticates |
| Tenants.TenantStore.ReplayCreate | auth/tenant_provision.go:411-441 | a secret is handed out exactly when the transaction sees no live confirmed key; that key is then the only one of the tenant that can authenticate, and no other tenant is touched |
| Tenants.TenantStore.ConfirmProvisionedTenant | auth/tenant_provision.go:462-508 | only the creator confirms, exactly a provisional key the transaction sees live, which is permanent from then on; no other key changes, and a repeat is not an error |
| Tenants.TenantStore.MintKey | auth/tenant_keys.go:121-159 | a key is added exactly when the tenant exists and the transaction sees fewer than 25 live keys, and the tenant then has at most 25; the key is confirmed with the expiry asked for, and until then a replayed create hands out no secret and leaves it alone |
| Tenants.TenantStore.RevokeKey | auth/tenant_keys.go:225-267 | the key leaves the live keys, and no other, exactly when it is enabled and force was asked or the transaction sees another live one |
| Tenants.TenantStore.MintRecoveryKey | auth/tenant_recovery_key.go:77-125 | a recovery key is minted exactly for a tenant that is not suspended and has no key the transaction sees live, and is then the only one |
| Tenants.MintedBlocksReplay | auth/tenant_provision.go:411-441 | a minted key counts as confirmed until it expires, so a replayed create then changes nothing |
| Tenants.CreateInserts | auth/tenant_provision.go:300-380 | a create that finds no row inserts the tenant as asked, not suspended, with one provisional key of fifteen minutes, and nothing else |
| Tenants.SuspensionChangesTheFlag | auth/tenant_suspend.go:39-66 | only the creator suspends by name, an operator sets the flag either way, and that flag is all that changes |
| Tenants.DropTakesItsKeys | auth/tenant_drop.go:146-245 | a drop removes the tenant and exactly its keys |
| Tenants.KeysStayBounded | auth/tenant_keys.go:121-159 | over every run a tenant has at most one live provisional key, and never more than 25 live keys beyond those confirms revived after they had lapsed; keys belong to tenants that exist |
| Tenants.OneKeyTooMany | auth/tenant_provision.go:462-508 | a run after which a tenant has 26 live keys |
| Tenants.DeadStepsDead | auth/tenant_store.go:305-316 | an issued key that does not authenticate does so after an event exactly when the event is its creator's confirm, begun before its expiry, of a key provisional and not revoked |
| Tenants.DeadStaysDead | auth/tenant_store.go:305-316 | such a key stays dead through every run without such a confirm |
| Tenants.RevokedStaysDead | auth/tenant_keys.go:225-267 | a revoked key, and one dropped with its tenant, never authenticates again |
| Tenants.LapsedKeyCanRevive | auth/tenant_provision.go:145-153 | some event makes a lapsed key authenticate again exactly when it is provisional and not revoked |
| Tenants.PermanentStays | auth/tenant_provision.go:149-153 | a confirmed key goes on authenticating through any run until it is revoked by name or its tenant is dropped |
| Tenants.OnlyTheNamedKey | auth/tenant_keys.go:225-267 | a confirm makes exactly the named key permanent, a revoke kills exactly the named key, and no other key changes |
| Tenants.OnlyConfirmMakesPermanent | auth/tenant_provision.go:145-153 | a provisional key becomes permanent only by its tenant's creator confirming that key, unexpired when the confirm began |
| Tenants.RevokeLeavesAKey | auth/tenant_keys.go:248-261 | a revoke without force leaves a key that authenticates exactly when one of the keys it counted did not lapse before its commit; always, if it reads the clock of the commit |
| Tenants.RevokeCanLockOut | auth/tenant_keys.go:84-89 | a run in which the other key lapses while the revoke waits and none is left |
| Tenants.ReplaySecret | auth/tenant_provision.go:417-437 | a replay hands out a secret exactly when it sees no live confirmed key; then none is live at its commit, and the new key is the tenant's only live one |
| Tenants.ConfirmAfterReplayFails | auth/tenant_provision.go:449-461 | after a replay in between, confirming the first key fails, whenever it began, and confirming the replayed one succeeds |
| TenantRaces.NeverLiveAndDropped | auth/tenant_provision.go:322-355 | in every state of every interleaving of creates, starts, drops and tombstone deletions no id is both live and tombstoned |
| TenantRaces.DropRecordsTheRow | auth/tenant_drop.go:146-245 | a tombstone appears only by the commit of a drop that holds the row, counted no unsettled run under its lock, and finds the tenant live and suspended; it records the row's name, org and creator |
| TenantRaces.DropFindsNoRun | auth/tenant_drop.go:189-199 | however a drop goes on from its count, the tenant has no unsettled run at the commit, if and only if at the count no start that read the flag before the suspension was still to insert |
| TenantRaces.CommitFindsNoRun | auth/tenant_drop.go:16-40 | each way from the count to the commit: no unsettled run at the commit exactly when as many runs ended as were brought in, and a run was brought in exactly by a start in flight at the count |
| TenantRaces.DroppedIdHasNoRun | engine/tenant_list.go:144-161 | a dropped id stays without runs until its tombstone is deleted if and only if no start was in flight at the commit |
| TenantRaces.DropDeletesAnUnsettledRun | auth/tenant_drop.go:16-40 | a run in which a drop commits with an unsettled run, which it deletes |
| TenantRaces.DroppedUntilDeleted | auth/tenant_tombstone_delete.go:49-65 | a dropped id is not a tenant again until its tombstone is deleted, and only the deletion removes the tombstone |
| TenantRaces.EarlyCheckIsNotEnough | auth/tenant_provision.go:208-222 | a run showing that checking the tombstone before the insert would admit a dropped id |
| TenantOrigins.TenantsWereAsked | auth/tenant_provision.go:300-380 | in every state of every interleaving a tenant has the name, org and creator that some create of its id asked for |
| TenantOrigins.TombstonesWereAsked | auth/tenant_drop.go:146-245 | and so has the tombstone its drop leaves |
| ConcurrentCreates.EveryCreateSucceeds | auth/tenant_provision.go:233-247 | of any number of identical creates none fails and none makes a third pass, in any interleaving |
| ConcurrentCreates.ExactlyOneCreated | auth/tenant_provision.go:300-380 | when all have finished exactly one reports created and all others replayed |
| ConcurrentCreates.EveryStatementCounts | auth/tenant_provision.go:300-380 | every statement brings its create nearer its end, except an insert that waits, and then the one it waits for can go on |
| Saga.CompensateAll | cleat/runtime_workflow.go:684-697 | the compensators of the completed steps are attempted last first, and a failed one does not stop the rest |
| Saga.RunWithResult | cleat/runtime_workflow.go:670-726 | a saga failing at k has run the forwards 0 to k and the compensators below k; the result and the published state list what was completed, undone and not undone |
| Saga.UnwindShape | cleat/runtime_workflow.go:684-697 | the attempted compensators are exactly the existing ones below the failing step, in reverse order |
| Saga.FailedSagaRestores | cleat/runtime_workflow.go:670-726 | if completed steps can be undone and the failing step changed nothing, the final state is the initial state |
| Saga.ListsPartition | cleat/runtime_workflow.go:692-697 | for a saga that fails at k, the undone and not undone lists together hold each description as often as the compensators below k have it |
| Saga.CompensatorsExact | cleat/runtime_workflow.go:684-697 | the compensators to run are exactly those of the steps below the failing one, in falling order |
| Saga.CompensatorOutcome | cleat/runtime_workflow.go:684-697 | each finds the world the ones before it left and is marked as failed exactly if it returned an error |
| Saga.ListedCounts | cleat/runtime_workflow.go:692-697 | a description is in the undone or the not undone list as often as a compensator of that description ended so |
| Quorum.ContainsName | cleat/runtime_signals.go:186-193 | membership in the list |
| Quorum.WithoutName | cleat/runtime_signals.go:200-211 | the list without the first occurrence of the name |
| Quorum.AwaitSignalsWithQuorum | cleat/runtime_signals.go:98-184 | success is exactly the asked number of votes, each by a name still to vote, within the rejection limit, with one await per vote that asked for exactly the names still to vote; however it ends there are no more awaits than votes asked for and none after the time was up, and each failure has its cause |
| Quorum.DeliveredAt | cleat/runtime_signals.go:121-160 | each vote is what its own await returned, awaited in time |
| Quorum.RejectionsCount | cleat/runtime_signals.go:170-180 | the rejections are the number of votes that reject |
| Quorum.WithoutFirst | cleat/runtime_signals.go:200-211 | exactly the first occurrence of a name is removed |
| Quorum.VotesAreNames | cleat/runtime_signals.go:157-170 | votes and names still to vote are together the requested names, as multisets |
| Quorum.DistinctVoters | cleat/runtime_signals.go:108-117 | distinct requested names give distinct voters |
| Selector.Selection.constructor | cleat/selector.go:69-113 | a selection keeps its futures and starts with nothing written and no error |
| Selector.Selection.EarliestTimer | cleat/selector.go:119-127 | the earliest deadline, the first added among equals |
| Selector.Selection.CheckAll | cleat/selector.go:157-200 | the winner is the first delivered signal, or with none the first child that is not running, or with none a due timer; without a winner nothing is written and the deadline is ahead |
| Selector.Selection.AwaitChildren | cleat/selector.go:202-219 | with only children left, the first future with the returned run id is written or its failure reported, and an unknown run id is an error without a winner |
| Selector.Selection.WaitOnce | cleat/selector.go:236-292 | a wait ends with the signal it heard, its error, or the timer it slept until; one that does not end the selection writes nothing and has moved the clock by its length |
| Selector.Selection.WaitLoop | cleat/selector.go:221-293 | rounds of waiting and checking end at the earliest deadline at the latest, with a winner the host reported |
| Selector.Selection.Select | cleat/selector.go:153-293 | with a timer, or without signals, it ends; it never waits past the earliest deadline, polls children at doubling intervals up to the maximum, begins each wait with nothing to report, and its winner is what the host reported at the check after the last wait or in that wait; it writes the winner's destination only |
| Selector.IntervalsDouble | cleat/selector.go:226-234 | the first interval is a second, each next one the smaller of twice the one before and thirty seconds |

## Left out

- Host bindings, WASM backends, guest memory and the packing of results.
- SQL dialects, row-level security, encryption, checksum chains and metrics; a statement is its effect on its tables.
- The JSON encoding of the checkpoint and of requests; parsing and rendering are parameters.
- A flush that fails inside a wake: a record is durable when its call returns. The flusher's own failures are modelled in `Flusher`.
- A guest that goes on calling after a suspended call: the run of a wake ends at the first suspension.
- `runDetached`, child versions and priorities, the step callback and the defer phase.
- ReplayDeterminism.WakesAgreeExactly: assumes that settled children report some text, because recorded answers are not repeated otherwise; `ReplayEdges.SettledAwaitReplays` states the exact condition per call.
- UnrecordedAnswers.ClockRepeats: assumes that no earlier call of the wake was refused; after a refused call that was recorded over, the two wakes need not stand at the same step.
- CompactedRuns.CompactionIsInvisible: is about one compaction that keeps a row, truncates nothing and folds no await-all that names its children; `CompactionReplay.FirstCompaction` and `CompactionReplay.SecondCompaction` state what is lost otherwise.
- CompactionReplay.SecondCompactionShifts: assumes no truncation; `CompactionReplay.SecondCompaction` covers it.
- The deletion and retry of a whole workflow row, the terminating status, and re-replays whose history read fails, which the code lets through.
- CallIntent.AnswersAgree: is about recorded answers; the error handed to a guest when an intent cannot be written or completed is not recorded by the code.
- CallAnswers.RetryReopens: the guard and the statement of a retry are one step; nothing makes a call pending while a run is dead-lettered.
- EventFields.ReadsSurvive: the fields are listed per type; the replay of the calls themselves is modelled for child calls, durable calls and locks only.
- CallIntent.ReplayUnderOriginalKey: the two-second pause between attempts is a parameter that says whether the context was cancelled.
- The rate estimate that switches batch mode on and off, and the direct flush path outside batch mode.
- Name conflicts between different tenant ids, generated ids, and the creator gate and audit chain of a drop.
- ReReplayWindow.ReReplayIsExact: is about the first stale re-replay of a run; the sweep marks a run once, so there is no second one.
- `CreateAPIKey` and `CreateOAuthAPIKey`, which do not take part in the key limit.
- Selector.Selection.Select: a selection with signals and no timer may wait for ever and is not modelled.
- `AddParallel`, `SagaTyped` and the update dispatcher, which would only add easier members.
