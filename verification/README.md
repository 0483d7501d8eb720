# Verified model of the qtask task queue

qtask is a task queue on Redis. Every task lives in one shared store: a ready list, one processing
list per worker, a delay set, a dead-letter list, an audit record per task, identity owners, a
register of superseding versions, concurrency leases, a deadline index and counters. About a dozen
Lua scripts move tasks between these structures; workers, operators, cleaners and a storage server
call them at any time and in any order. This project models those scripts and the loops around them
in Dafny and proves what callers rely on, over every run and every interleaving.

`dafny verify dfyconfig.toml` checks everything.

## How it is built

- `TaskModel` is the task state machine: one function from state to state per script, with the
  scripts' branches, early returns and replies, and `Run` over any sequence of steps.
- `TaskInvariants` proves one inductive invariant of it. A script that acts on a message is shown to
  be a sound *edit* of one task (`GoodEdit`), and every sound edit keeps the invariant; admission,
  replay, expiry and cleaning are handled on their own.
- `TaskTheorems` draws the consequences callers care about.
- `ScriptAnswers` says, for every state a run can reach, when each script does which thing and what it
  leaves, in terms of the spec, the clock and the tables. `TaskIdentity`, `TaskLeases`, `TaskReplays` and
  `TaskLifetimes` follow a logical key, a lease, a planned replay, and whatever has a time to live over
  whole runs: each lasts as long as promised, and no longer.
- `StrayRecords` adds the two clients that write records outside the scripts, and says exactly when
  their writes break the invariant and what of it is left. `StrayEffects` and `StrayClaims` carry
  this on to the checker and to the workers.
- `Containers` and `RedisStore` are the store as it is kept: lists, a sorted set, hashes and
  counters, changed in place command by command. Every method of class `Store` is proved to perform
  exactly its `TaskModel` step, and each loop a run of such steps; the methods that pop, give back,
  recover and move due messages are also proved to leave the lists in the order callers see.
  `Backoff` is the retry delay `FailClaim` computes.
- `Consistency` and `Observation` are the queue's own checker and its index rebuild, run against that
  store.
- `AttemptRefunds` is about the two scripts that give attempts back, and `OutcomeFinality` adds the
  history's own update script to the clients.
- `WorkerClaims` puts worker processes on top: polling, lost replies, handler threads, crashes, and
  the table of active claims. `ClaimOverwrite` shows exactly where that protocol breaks, and
  `ClaimScenarios` gives runs from the empty queue that get there. `WorkerStops` is about the way of a
  task to its handler and about stopping.
- `HistoryPaging` and `HistoryBrowsing` are the paging protocol; `HistoryCleanup`, `StorageHandshake`,
  `ScriptGuards`, `QueueKeys`, `VersionOrder` and `EnvelopeSplice` are the cleaning loops, the external
  payload hand-over, the guards in front of the scripts, the key namespace, the version order and the
  envelope text. `StorageCollection` says what the storage server does collect, and when.

## What was found

1. **Attempt budget.** A task's handlers run at most `max_attempts` times, whatever replies are lost
   and whatever handlers die (`AdmittedWithinBudget`), provided a worker never registers a claim on
   a task it still remembers an earlier claim of. Both of its memories, the table of active claims and
   the set of spent attempts, are keyed by task id. Registering over a remembered claim can lose an
   attempt in two ways:
   - The older claim is still in the table, its handler waiting, running or done. When that handler
     leaves, it takes the newer claim out of the table (`qtask_list/worker.py:192-205, 311-319`), and
     the next poll gives back an attempt that is already running. This needs no lost heartbeat: a
     retry can fall due before the handler that asked for it has left (`RetryOvertakesItsHandler`).
   - The older attempt is remembered as spent. If the newer handler dies during a poll that had read
     the older mark, the poll forgets both when it ends (`qtask_list/worker.py:456-463`), and the next
     one gives the newer attempt back (`SpentAttemptIsReclaimed` reaches such a state).

   The guard is exact: from every state of a guarded run in which a worker that still accepts work is
   about to register a live claim of its list, registering keeps the accounting over every guarded
   continuation if and only if the worker remembers no earlier claim of that task
   (`RegistrationIsSafeIffGuarded`). A run with three handlers on a budget of two is given
   (`ThreeHandlersOnABudgetOfTwo`). No attempt is given back twice in any run, guarded or not
   (`NoAttemptIsRefundedTwice`).
2. **External payloads.** A task with a message always has its file (`LiveTaskHasItsFile`), with two
   exceptions. A script may commit after its producer has checked that no task exists and before the
   producer's delete reaches the pending set: the forced promotion then finds nothing and the delete
   goes on (`qtask_list/remote_storage/server.py:362-375`), and from every such state the file is lost
   (`LateCommitLosesTheFile`). And an upload may stall until what it wrote is no longer retained: the
   sweep takes the file and the upload goes on, to a task without its file, whichever of its steps was
   late (`SlowUploadLosesTheFile`). Everything else is collected in time: an ended task's payload from its
   date on and not before (`EndedPayload`), an unclaimed upload after its grace time (`GraceOverCollects`).
3. **Index rebuild.** `rebuild_observation_indexes` leaves the deadline index alone if and only if no
   popped task with a deadline is waiting to be begun (`RebuildKeepsIndex`); otherwise it drops those
   entries. Its own check, that no worker is alive, does not exclude such a task
   (`VanishedWorkerLeavesEntry`).
4. **History updates.** `TaskHistory.update` is meant never to reopen an outcome. It keeps the outcome
   of an ended record if and only if the caller does not give an explicitly empty one without a status
   (`UpdateKeepsOutcomeIff`); its guard has nothing to compare then, and the empty outcome is written.
   The finish time of an ended record can be overwritten by any update.
5. **Records made by a claim.** Before every begin script a worker looks whether the record of the
   popped message exists and makes one where it does not (`qtask_list/queue.py:856-875`). In a run of
   the scripts this is never needed: without a record there is no message either, and the begin script
   would stop (`EnsureIsNeverNeeded`). So the write is harmless if and only if it does not happen
   (`EnsureKeepsInvIff`, and `RecreateKeepsInvIff` where time passes between look and write). When it
   does, after a worker was so slow that its task ended elsewhere and the record is gone
   (`LateClaimHappens`), it leaves a live record without a message, without a time to live and without
   a deadline entry. The begin script answers that there is no message, and the record stays whatever
   anyone does: no cleaner, no replay and no settlement will take it (`LateClaimLeavesGhost`), short of clearing the whole history.
6. **Marks made by the cleaner.** `clean_expired` looks for the message of an ended task and, where it
   finds one, sets the flag of its record (`qtask_list/history.py:362-366`). The mark is harmless if
   and only if the message is still there by then (`MarkKeepsInvIff`). If it was purged or replayed in
   between, an ended record claims a message it does not have, which keeps it from being cleaned or
   replayed, or, if it has expired as well, a live record is made (`LateMarkHappens`).

   Neither write touches anything else. Without the stray records the state is exactly what the
   scripts alone would have made of it (`WritesAreInert`), so every result about runs of the scripts
   holds of everything but those records, and of everything while there are none
   (`InvIffNoStray`, `OrderlyRunIsSound`). The checker blames them and nothing else
   (`CheckerBlamesStrays`, `CheckerFindsStrays`), conservation is off by exactly their number
   (`ConservationUnderWrites`), and attempts still stay within their budget (`AdmittedUnderWrites`).
7. **Queue names.** Names under the library's own prefix `qtask:` are refused, the bare `qtask` is not
   (`qtask_list/queue.py:123-127`). The keys of a queue never meet the library's own keys but in that
   queue: the processing list of its worker `x` has the key under which queue `x` registers its lists
   (`ReachesIndexIff`).

## Hypotheses

- Task ids, claim tokens and lease tokens are uuids: an action that issues one issues a new one
  (`TaskModel.Fresh`). A worker id belongs to one process, and the begin script is called only on a
  message that worker has popped.
- The script language compares text by the server's locale (`qtask_list/state.py:36-49`; the note at
  `qtask_list/history.py:34`). That order is taken to be strict, transitive and total, to put `i:`
  before `s:`, and to compare equally long rows of digits as numbers (`VersionOrder.IsTextOrder`).
  Nothing else is assumed of it; byte order is one such order (`BytesAreOrdered`).
- Settlement is not abandoned when a worker stops (`qtask_list/worker.py:300-302`): a running handler
  settles, or dies and is remembered as spent.
- A storage upload takes each of its steps while what it has written is still retained
  (`StorageHandshake.Timely`, needed as finding 2 says), the storage server's clock is the store's, and
  nobody deletes a referenced key by hand.
- Reading an envelope and writing it again leaves the text of every value that is not set as it was;
  this holds of text the encoder itself wrote (`EnvelopeSplice.Rewritten`).
- Counters are in canonical decimal text, the sum of two finite durations is finite, and different
  names in a script's KEYS are different keys.
- The clock is the store's own and never runs back; sleeping, networking and randomness are left to
  the caller as parameters.

## Model

| member | source | states |
|---|---|---|
| TaskInvariants.StepKeepsInv | qtask_list/state.py:10-926 | every script, and every step of a client around the scripts but the two writes of `StrayRecords`, keeps the invariant that ties records, messages, owners, register, leases, deadline index, counters, lineage and clients' stale reads together |
| TaskInvariants.RunKeepsInv | qtask_list/state.py:10-926 | the invariant holds after any run of these steps in any interleaving; with the other two writes it holds exactly while there is no stray record (`StrayRecords.InvIffNoStray`) |
| TaskInvariants.ScriptsEdit | qtask_list/state.py:163-758 | every script on a message either does nothing or soundly edits exactly that message's task |
| ScriptAnswers.BeginVerdict | qtask_list/state.py:163-331 | on any sound state and for a popped message still in its worker's list: it is started if and only if its deadline is not past, it has no version or the register holds its version, an attempt is left and its concurrency key is unleased; it is skipped, superseded, over budget or deferred if and only if that is the first of these to fail |
| ScriptAnswers.BeginNeedsMessage | qtask_list/state.py:226-244 | a popped message that is no longer in the worker's list is never acted on, and the store does not change |
| ScriptAnswers.BeginEffect | qtask_list/state.py:163-331 | a started task is with the worker, one attempt further, with the given tokens and its lease until now + duration; a deferred one waits until now + deferral with its attempts as before; a skipped or superseded one is over until now + its time to live; one over budget is in the dead-letter list with its message |
| ScriptAnswers.NeverStartedLate | qtask_list/state.py:239-250 | over any run, a task whose start deadline has passed is never started, by any worker |
| ScriptAnswers.CompleteVerdict | qtask_list/state.py:334-392 | a completion takes effect if and only if the message is in the worker's list, and then the task is over, completed, kept until now + its time to live, and without a message; otherwise nothing changes |
| ScriptAnswers.FinalFailure | qtask_list/queue.py:1000-1088 | a failure that is permanent or has no attempt left puts the message, with its error, in the dead-letter list if and only if it is in the worker's list |
| ScriptAnswers.OtherFailure | qtask_list/state.py:395-478 | any other failure makes the task wait for its retry time with its error, unless that time is not before the start deadline: then it is skipped |
| ScriptAnswers.ReturnVerdict | qtask_list/state.py:717-750 | a claim is taken back if and only if it is in the worker's list and its attempt has begun; it is then ready with one attempt less, and otherwise nothing changes |
| ScriptAnswers.PopVerdict | qtask_list/queue.py:625-650 | a pop takes exactly a message of the ready list, and it is then in that worker's list with the same attempts |
| ScriptAnswers.RecoverVerdict | qtask_list/queue.py:1195-1226 | a message is recovered if and only if its worker has no heartbeat and the message is in its list; it is ready again with its attempts as before |
| ScriptAnswers.MoveProcessingVerdict | qtask_list/admin.py:1727-1761 | the operator's move takes a message if and only if it is in the list and the heartbeat is dead or not looked at |
| ScriptAnswers.AbandonedVerdict | qtask_list/queue.py:1245-1285 | a worker's own recovery makes the message ready, and gives an attempt back if and only if the attempt has begun and is not known to be spent |
| ScriptAnswers.DueVerdict | qtask_list/state.py:679-705 | the due loop makes a delayed message ready if and only if its score is not in the future; an operator's move does so at any time |
| ScriptAnswers.PurgeListVerdict | qtask_list/state.py:537-642 | a purge takes the message if and only if it is in that list and no living worker is at it or it is forced; a live task is then cancelled, and the record is kept until now + its time to live |
| ScriptAnswers.PurgeDelayVerdict | qtask_list/state.py:537-642 | the same on the delay set, at whatever score the message stands |
| TaskTheorems.PlaceOfEveryTask | qtask_list/queue.py:1609-1751 | after any run of the scripts a task has a message exactly when its record says so: live tasks wait, run or are delayed, failed ones may keep one in the dead-letter list, other ended ones have none, and a record has a time to live exactly when its message is gone |
| TaskTheorems.EnvelopeOfEveryTask | qtask_list/state.py:267-313 | a message still carries the task as enqueued, attempts stay within the budget, and a running message carries the record's attempt and claim token |
| TaskTheorems.RunPersists | qtask_list/state.py:233-236 | over any run of the scripts a record keeps its spec and parent, its replay list only grows, and an ended task keeps outcome, attempt and finish time and never regains a message |
| TaskTheorems.OutcomeIsFinal | qtask_list/history.py:387-417 | over any run of the scripts an outcome, once set, and its attempt count never change, and a task without a message never gets one again, so a cleaner's late delete orphans nothing |
| TaskTheorems.SettlingIsIdempotent | qtask_list/worker.py:293-302 | repeating a settlement of an ended task, however late, changes nothing |
| TaskTheorems.RepeatedSettlementIsIdempotent | qtask_list/worker.py:293-302 | once a settlement has committed, an end or a scheduled retry, every later settlement or return of that claim is a no-op after any run, provided no retry of the task was put at the very time the claim had been available |
| TaskTheorems.SameTimeRetryIsRepeated | qtask_list/queue.py:1053-1065 | the proviso is needed: a retry put at the same time can come back as the very same message, and the repeated settlement schedules it again |
| TaskTheorems.StartedIsClaim | qtask_list/state.py:285-304 | a started message carries a claim token, and a lease token if the task is keyed |
| OutcomeFinality.UpdateKeepsOutcomeIff | qtask_list/history.py:202-256 | a history update keeps the outcome of an ended record if and only if it does not write an empty outcome without a status, which reopens it |
| OutcomeFinality.OutcomeSurvivesUpdates | qtask_list/history.py:222-245 | from any state, over any interleaving of scripts and history updates, an outcome once set never changes while the record exists, unless an empty one is written over it |
| AttemptRefunds.NoAttemptIsRefundedTwice | qtask_list/queue.py:1245-1285 | in any run of any clients two steps that give an attempt back carry different claim tokens |
| AttemptRefunds.AttemptFallsOnlyByRefund | qtask_list/state.py:717-750 | a record's attempt count falls only when one of the two refunding scripts acts on a message of that task, and by one |
| TaskTheorems.Conservation | qtask_list/state.py:154 | accepted tasks are live or have ended in exactly one counted way, after any run |
| TaskTheorems.IndexesAreExact | qtask_list/state.py:131-134 | after any run of the scripts the deadline index holds exactly the live tasks with a deadline that are not running, at that deadline, and retry_wait.current counts the retry entries of the delay set |
| TaskTheorems.RetriesBeforeDeadline | qtask_list/state.py:422-460 | a task waits for a retry only at a time strictly before its start deadline |
| TaskTheorems.LiveOwnerNamesLiveTask | qtask_list/state.py:81-117 | an owner without outcome has no time to live and names an existing live task of that key |
| TaskTheorems.OneLiveTaskPerKey | qtask_list/state.py:81-117 | unless a producer forces a duplicate, two live tasks never share a logical key |
| TaskTheorems.RetentionBlocks | qtask_list/state.py:183-197 | until its dedup_until a retained key makes every rejecting enqueue under it fail with its id, over any run without a forced duplicate, a replay, a releasing purge or an operator's delete under that key; that ending a task retains its key is `TaskIdentity.EndedIsRetained`, and the two together are `TaskIdentity.AcceptedBlocks` |
| TaskIdentity.EndedIsRetained | qtask_list/state.py:183-197 | on any sound state, the step that ends the live owner of a key leaves the key with that id, its outcome and its dedup_until if that is still to come, and free if it is not or there is none, or if the task was purged with its identity released |
| TaskIdentity.AcceptedBlocks | qtask_list/state.py:81-117 | from the accepted enqueue to the refused one, over any run from the empty queue: every rejecting enqueue of the key is answered duplicate_active with that id while the task lives and duplicate_retained with that id from its end until its dedup_until, unless the key was forced, replayed, released or deleted |
| TaskIdentity.EndedFrees | qtask_list/state.py:343-355 | and not longer: once the task has ended, and its dedup_until to the full second has passed or there is none, a rejecting enqueue of the key is accepted, unless somebody else took it |
| TaskIdentity.ReleasedFrees | qtask_list/state.py:537-642 | a purge that releases the identity lets the next enqueue of the key in at once |
| TaskIdentity.ForgottenFrees | qtask_list/admin.py:1214-1258 | an operator's delete lets the next enqueue of the key in if and only if the task was read as over, or its record is gone, and the key is still its own |
| TaskIdentity.GenerationRises | qtask_list/state.py:81-117 | a task accepted under a key is of a later generation than the one the key remembers, and of the first where it remembers none |
| TaskTheorems.RegisterIsMaximum | qtask_list/state.py:136-141 | after any run the register has an entry for exactly the keys some accepted enqueue or replay offered a version of, and it is the newest of those versions, under any order of text versions |
| TaskTheorems.StartedIsNewest | qtask_list/state.py:252-265 | a started attempt of a versioned task carries a version that no accepted enqueue or replay of that key exceeds, under any order of text versions |
| TaskTheorems.LeaseFencing | qtask_list/state.py:177-181 | one step can change or remove a lease only if it carries that lease's token or is the clock passing its expiry |
| TaskTheorems.OneLeaseHolder | qtask_list/state.py:281-308 | after any run two tasks that both hold the unexpired lease of one concurrency key are the same task |
| TaskTheorems.StartTakesLease | qtask_list/state.py:281-308 | a keyed start finds the key unleased and ends up holding its lease |
| TaskLeases.EndReleasesLease | qtask_list/state.py:177-181 | every committed settlement, return, abandoned recovery and purge of a message with a concurrency key, whose lease token is the one that holds the key, leaves the key unleased |
| TaskLeases.NextOfKeyStarts | qtask_list/state.py:281-308 | after any run from the empty queue, once such a step has taken the lease's holder out, the next begin of another task of the key that waits in a worker's list, in time, current and with an attempt left, starts it |
| TaskLeases.LeaseLastsAsGranted | qtask_list/state.py:281-308 | over every run in which nobody settles, renews or releases with its token, the lease of a started attempt is its own if and only if now is before the start plus the lease time |
| TaskLeases.RenewalAndRelease | qtask_list/state.py:708-758 | a renewal grants the lease from now on and a release frees the key, each if and only if the token is the holder's |
| TaskTheorems.ReplayStartsAfresh | qtask_list/state.py:843-924 | an accepted replay starts a live task at attempt 0 with its parent set, keeps the source's verdict and attempt, appends itself to the source's replay list, leaves the source without a message and gives its record a time to live |
| TaskTheorems.OneReplayPerDeadLetter | qtask_list/queue.py:1330-1337 | after one accepted replay of a source, no replay that must remove its dead-letter message is accepted, whatever happens in between and whatever was read before |
| TaskReplays.PlanVerdict | qtask_list/queue.py:1330-1337 | on any sound state a replay may be planned if and only if the record's outcome is failed, skipped or cancelled and the task's message is in the dead-letter list, or no dead letter was asked for and the task has no message |
| TaskReplays.PlannedIsAccepted | qtask_list/state.py:761-926 | committing such a plan at once, with a fresh id and a key that is free or the source's own, is accepted |
| TaskReplays.LatePlanVerdict | qtask_list/state.py:761-926 | committing it after any run is accepted if and only if the source's record still exists, the dead letter the plan insists on is still there and the key is not another task's |
| TaskReplays.RunKeepsDeadLetter | qtask_list/state.py:761-841 | over any run a dead letter stays where it is unless it is replayed or purged |
| TaskTheorems.Lineage | qtask_list/state.py:843-861 | a record's replay list is exactly the accepted replays of that task in order, and parents are always older than children |
| TaskTheorems.HeartbeatProtects | qtask_list/queue.py:1195-1226 | while a worker's heartbeat lives, no step of anyone else, short of a forced one, takes a message out of its list |
| TaskLifetimes.AcceptedWaits | qtask_list/state.py:97-160 | an accepted task stands, with no attempt made and its message as enqueued, in the delay set at its time if that is later than now, and in the ready list otherwise |
| TaskLifetimes.ReplayWaits | qtask_list/state.py:843-924 | so does the task an accepted replay makes |
| TaskLifetimes.ScheduledWaits | qtask_list/state.py:679-705 | over every run, short of an operator's move or purge, a task scheduled for later stays where it is until that time, and from then on the due loop moves it |
| TaskLifetimes.OverIsKept | qtask_list/state.py:379-391 | over any run, the record of a task that is over and has no message exists if and only if its time to live has not run out, unless a cleaner or a replay touches it |
| TaskLifetimes.SweepVerdict | qtask_list/archiver.py:109-211 | a cleaner may plan to remove exactly an ended task without a message, and its delete then removes the record |
| TaskLifetimes.HeartbeatLapses | qtask_list/worker.py:127-138 | over any run in which the worker does not beat again or drain, it has a heartbeat if and only if its time to live has not run out |
| TaskLifetimes.DrainedIsGone | qtask_list/worker.py:140-144 | a worker that has drained has no heartbeat until it beats again |
| StrayRecords.EnsureKeepsInvIff | qtask_list/queue.py:856-875 | on a sound state, making sure of the record of a popped message keeps the invariant if and only if the record is there already |
| StrayRecords.EnsureIsNeverNeeded | qtask_list/queue.py:702-728 | on a sound state a popped message without a record has left the queue, and the begin script stops |
| StrayRecords.RecreateKeepsInvIff | qtask_list/queue.py:856-875 | after any run without a stray record, a worker's pending write keeps the invariant if and only if its look found a record |
| StrayRecords.MarkKeepsInvIff | qtask_list/history.py:358-366 | after any run without a stray record, the cleaner's pending mark keeps the invariant if and only if the message it saw is still there |
| StrayRecords.WritesAreInert | qtask_list/queue.py:856-875 | over any interleaving of scripts with both writes, the state is that of a run of the scripts alone in everything but stray records |
| StrayRecords.InvIffNoStray | qtask_list/queue.py:856-875 | after any such run the invariant holds if and only if there is no stray record |
| StrayRecords.OrderlyRunIsSound | qtask_list/queue.py:856-875 | if every look finds its record and every marked message is still there, the run is one of the scripts alone, with every result about those |
| StrayRecords.LateClaimHappens | qtask_list/queue.py:702 | a run in which a task ends and expires while a first worker, whose heartbeat lapsed, has not yet looked for its record |
| StrayRecords.LateClaimLeavesGhost | qtask_list/queue.py:702-728 | from every state of a run in which a look found no record, the write leaves a live record without a message, the begin script answers not found, and unless a cleaner had planned its sweep before the record stays over every continuation |
| StrayRecords.LateMarkHappens | qtask_list/history.py:358-366 | runs in which a message is purged between the cleaner's look and its mark, with the ended record still there and with it expired |
| StrayRecords.StrayIsNotPlanned | qtask_list/archiver.py:109-190 | no cleaner plans to remove a stray record, and no administrator to replay one |
| StrayRecords.PlaceUnderWrites | qtask_list/queue.py:1609-1751 | with the writes among the clients, a task has a message exactly when its record says so and is not stray, and a stray live record has no time to live and no deadline entry |
| StrayRecords.OutcomeUnderWrites | qtask_list/history.py:387-417 | with the writes among the clients, the record of an ended task keeps its outcome and attempt, is gone, or is a live one written in its absence, and the task never regains a message |
| StrayRecords.ConservationUnderWrites | qtask_list/state.py:154 | with the writes among the clients, conservation is off by exactly the number of live records without a message |
| StrayRecords.IndexesUnderWrites | qtask_list/state.py:131-134 | with the writes among the clients, the retry counter stays exact, and the deadline index but for live records without a message |
| StrayEffects.CheckerBlamesStrays | qtask_list/queue.py:1609-1751 | on a store after any run with the writes, and for every limit, the checker's reports on tasks and owners are about stray records: a live one without a message or a wrong flag |
| StrayEffects.CheckerFindsStrays | qtask_list/queue.py:1609-1751 | a scan that reaches all messages reports a listed task as live without a message, or with a wrong flag, if and only if its record is such a stray one |
| StrayClaims.ClaimsUnderWrites | qtask_list/worker.py:444-489 | every run of worker processes with the writes is, but for stray records, one without them, step by step |
| StrayClaims.AdmittedUnderWrites | qtask_list/worker.py:444-489 | over every guarded run with the writes, handlers are let in at most as often as the budget allows, and every record but live ones without a message counts the attempts granted and not given back |
| VersionOrder.NewerIsStrictTotalOrder | qtask_list/state.py:36-49 | the intended order of versions is strict, transitive and total, with every integer below every text, under any order of text |
| VersionOrder.BytesAreOrdered | qtask_list/history.py:33-40 | byte order is one of the orders of text for which all of this is proved |
| VersionOrder.IntegerIsNewerIsGreater | qtask_list/state.py:930-944 | on canonical decimal text of any length the script's comparison is exactly greater-than on integers |
| VersionOrder.EncodedComparison | qtask_list/state.py:36-49 | the script's comparison of two encoded versions is the intended order, whatever order of text the locale gives |
| VersionOrder.EncodeInjective | qtask_list/queue.py:270-274 | two versions have the same register text exactly when they are equal, so comparing text in the begin script is sound |
| Containers.MoveMirrors | qtask_list/state.py:271-308 | taking a message out of one container and pushing its successor into another moves exactly one task's slot and no other |
| Containers.RemoveLast | qtask_list/queue.py:1201 | on a list without repetitions popping from the right removes the same message as removing that value |
| RedisStore.Store.EnqueueTask | qtask_list/state.py:10-160 | the enqueue script performs the model's step on the real structures, and accepts exactly when the id is new and no owner stands in the way |
| RedisStore.Store.PopReady | qtask_list/queue.py:625-650 | the oldest ready message moves to the head of the worker's list, or nothing happens on an empty list |
| RedisStore.Store.BeginAttempt | qtask_list/state.py:163-331 | the begin script performs the model's step on every branch: missing, ended, late, superseded, over budget, blocked, not found, started; when that is which, and what it leaves, is `ScriptAnswers.BeginVerdict` and `BeginEffect` |
| RedisStore.Store.TakeLeaseAndStart | qtask_list/state.py:281-330 | taking the lease first and giving it back on a miss leaves the store as it was; otherwise the task is deferred or started exactly as the model says |
| RedisStore.Store.CompleteTask | qtask_list/state.py:334-392 | completion performs the model's step and removes exactly that message from the worker's list, or leaves all lists alone; what the step does to the task, its key and its lease is `ScriptAnswers.CompleteVerdict`, `TaskIdentity.EndedIsRetained` and `TaskLeases.EndReleasesLease` |
| RedisStore.Store.RetryTask | qtask_list/state.py:395-478 | the retry script performs the model's step, skipping a task whose retry would miss its deadline; what the step does is `ScriptAnswers.OtherFailure`, and that it releases the lease `TaskLeases.EndReleasesLease` |
| RedisStore.Store.FailClaim | qtask_list/queue.py:1000-1088 | the envelope's own attempt count chooses between dead letter and retry, the chosen script performs the model's step, and a retry waits at a score inside the policy's window; what the steps do is `ScriptAnswers.FinalFailure` and `OtherFailure`, and that they release the lease `TaskLeases.EndReleasesLease` |
| Backoff.PlainDoubles | qtask_list/queue.py:1053-1056 | the delay is the base at first, doubles with every attempt and stops at the largest |
| Backoff.DelayWindow | qtask_list/queue.py:1053-1061 | the delays that random spreading can give are exactly those from 0.9 to 1.1 times the plain one, or what the handler asked for where that is longer |
| RedisStore.Store.ReturnClaim | qtask_list/state.py:717-750 | a returned claim gives its attempt back and is the next message to be popped; when it is, is `ScriptAnswers.ReturnVerdict`, and that its lease is released `TaskLeases.EndReleasesLease` |
| RedisStore.Store.RecoverOldest | qtask_list/queue.py:1197-1215 | one guarded turn moves the worker's oldest message to the head of the ready list, or does nothing while the heartbeat lives |
| RedisStore.Store.RecoverProcessing | qtask_list/queue.py:1195-1226 | a dead worker's whole list goes in front of the ready list in its own order, as the model's steps one message at a time |
| RedisStore.StaleIsARun | qtask_list/queue.py:1216-1226 | draining a worker's list is a run of single recovery steps of the model |
| RedisStore.AbandonedIsARun | qtask_list/queue.py:1228-1286 | recovering what a worker has abandoned is a run of single recovery steps over its unprotected messages |
| RedisStore.DueIsARun | qtask_list/state.py:679-705 | moving due messages is a run of single moves |
| RedisStore.Store.RecoverOneAbandoned | qtask_list/queue.py:1245-1285 | one abandoned message goes to the ready list, the dead-letter list or nowhere, with or without a refund, exactly as the model says; when it gives an attempt back is `ScriptAnswers.AbandonedVerdict`, and that its lease is released `TaskLeases.EndReleasesLease` |
| RedisStore.Store.RecoverAbandonedClaims | qtask_list/queue.py:1228-1286 | what is left in the worker's list is exactly its protected messages in order, the count is what left, which is the condition under which a worker forgets its spent attempts, and the effect is the model's step for each message in turn |
| RedisStore.Store.MoveDueDelay | qtask_list/state.py:679-705 | it moves the first due entries up to the limit, in the sorted set's order of score and text, leaves nothing earlier behind, never moves one that is not due, and performs the model's steps |
| RedisStore.PoppedInDueOrder | qtask_list/state.py:679-705 | the order in which moved entries stand in the ready list is the order in which they will be popped: due order |
| RedisStore.Store.CancelFromList | qtask_list/state.py:537-642 | purging a message of a list performs the model's step, with or without a record, and refuses an active worker's list unless forced |
| RedisStore.Store.CancelFromDelay | qtask_list/state.py:537-642 | purging a delayed message performs the model's step at whatever score it stands, with or without a record |
| RedisStore.Store.PlanReplayOf | qtask_list/queue.py:1330-1337 | the reads before a replay find the source's record and its one dead-letter message, and perform the model's planning step; when that succeeds is `TaskReplays.PlanVerdict` |
| RedisStore.Store.ReplayTask | qtask_list/state.py:761-926 | the replay script performs the model's step: checks, removal of the source message, admission of the new task |
| RedisStore.Store.MoveProcessing | qtask_list/admin.py:1727-1761 | the operator's move performs the model's step and respects the heartbeat when told to |
| RedisStore.Store.MoveDelayed | qtask_list/admin.py:1778-1807 | the operator's move of a delayed message performs the model's step and keeps the retry counter |
| RedisStore.Store.RenewLeaseOf | qtask_list/state.py:708-714 | a renewal extends exactly the lease whose token it carries |
| RedisStore.Store.ReleaseLeaseOf | qtask_list/state.py:753-758 | a release removes exactly the lease whose token it carries |
| RedisStore.Store.SweepRecord | qtask_list/archiver.py:206-211 | the late, unconditional delete of a record performs the model's step and touches no container |
| RedisStore.Store.ForgetIdentity | qtask_list/admin.py:1214-1258 | an operator's delete releases the identity of a task that is over exactly if the task still owns it |
| RedisStore.Store.RecreateRecord | qtask_list/history.py:177-198 | the write of a claiming worker's look-and-write performs the model's write over whatever record is there, and touches no container |
| RedisStore.Store.MarkMessage | qtask_list/history.py:362-366 | the cleaner's write sets one field of the record, and makes a record where there is none |
| RedisStore.Store.BeatHeart | qtask_list/worker.py:127-138 | a heartbeat lasts from the store's time on |
| RedisStore.Store.StopHeart | qtask_list/worker.py:140-144 | a drained worker's heartbeat is deleted |
| RedisStore.Store.ConsiderSweep | qtask_list/archiver.py:109-190 | a record is read as removable exactly when it has ended and no message is kept for operators |
| RedisStore.Store.PassTime | qtask_list/state.py:233-250 | time removes exactly what has expired: records, owners, leases and heartbeats, never a message or a deadline entry |
| Consistency.ScanMessages | qtask_list/queue.py:1626-1653 | the checker's nested loops see exactly the first `limit` messages of the queue, and know whether that was all |
| Consistency.CheckConsistency | qtask_list/queue.py:1609-1751 | on any store a report is made if and only if what it claims holds of the scanned part |
| Consistency.CheckerIsSilent | qtask_list/queue.py:1609-1751 | on a store whose history is a run of the scripts alone, and for every limit, it never reports a live task without a message, an ended one with a message, a failed one outside the dead-letter list, a wrong flag or an orphan owner |
| Consistency.LostWorkersAreNamed | qtask_list/queue.py:1653-1664 | on every store that mirrors a sound state a listed worker is reported if and only if the message of some task is in its list and it has no heartbeat |
| Consistency.StaleEntriesAreNamed | qtask_list/queue.py:1691-1701 | a scanned history entry is reported stale if and only if its record is gone |
| Consistency.StoreConservation | qtask_list/state.py:154 | on the real lists: accepted = ready + processing + delayed + completed + failed + skipped + cancelled |
| Observation.RebuildIndexes | qtask_list/admin.py:138-200 | the rebuild refuses while a worker lives and otherwise writes the recounted index and counters |
| Observation.RebuildKeepsMetrics | qtask_list/admin.py:175-199 | on a store whose history is a run of the scripts the recount changes no counter |
| Observation.RebuildKeepsIndex | qtask_list/admin.py:160-175 | the rebuilt deadline index equals the kept one if and only if no popped task with a deadline waits to be begun |
| Observation.VanishedWorkerLeavesEntry | qtask_list/admin.py:138-160 | for every deadline a run ends with no worker alive and a popped task with that deadline, whose entry the rebuild drops |
| WorkerClaims.ClaimStepKeeps | qtask_list/worker.py:192-319 | every step of a worker process, with lost replies, crashes and stops, keeps the accounting of granted, admitted, active and spent attempts |
| WorkerClaims.ClaimStepIsAScript | qtask_list/worker.py:444-489 | a step of a worker process, but for making sure of a record before it begins, is one script of the queue or leaves the store alone |
| WorkerClaims.AdmittedWithinBudget | qtask_list/worker.py:444-489 | handlers are let in on a task at most as often as its budget allows, admitted attempts are never given back, and the record's attempt is the number of attempts granted and not given back, over every guarded run |
| WorkerClaims.GivenBackForGood | qtask_list/queue.py:1263-1267 | in the history of granted attempts, one that has been given back is never granted again, over any run |
| WorkerClaims.SettledLeaves | qtask_list/worker.py:293-302 | after any reply to a settlement the message is no longer in the worker's list |
| WorkerStops.ReadyTaskGetsItsHandler | qtask_list/worker.py:444-489 | a ready message whose begin script starts an attempt has its handler let in after the pop, the begin, the registration and the submission, by a worker that is not stopping |
| WorkerStops.LetInIffWaiting | qtask_list/worker.py:207-217 | a handler is let in if and only if its claim waits and the worker is not stopping; its attempt is then the one admitted |
| WorkerStops.StopLetsNoneIn | qtask_list/worker.py:551-560 | from any state and over any run, a worker that is told to stop stays so and no claim enters a handler on it |
| WorkerStops.LaterAdmissionsAreElsewhere | qtask_list/worker.py:551-560 | over any guarded run, every attempt admitted after a worker was told to stop was begun by another worker |
| WorkerStops.StoppedClaimIsReturned | qtask_list/worker.py:212-217 | a stopping worker's waiting claim goes back to the ready list with one attempt less, and its attempt was never admitted |
| ClaimOverwrite.RegistrationIsSafeIffGuarded | qtask_list/worker.py:307-319 | at every state of a guarded run in which a worker that accepts work is about to register a live claim of its list, doing so keeps every admitted attempt granted over every guarded continuation if and only if the worker remembers no earlier claim of that task |
| ClaimOverwrite.OverwriteLosesAttempt | qtask_list/worker.py:192-205 | registration over an active claim, its handler waiting, running or done, has a continuation that gives back an attempt whose handler was let in |
| ClaimOverwrite.SpentLosesAttempt | qtask_list/worker.py:456-463 | registration over a spent claim has such a continuation too: the newer handler dies during a poll that forgets both marks |
| ClaimOverwrite.Drain | qtask_list/queue.py:1228-1286 | recovery can always take every message a poll does not protect, and leaves the protected ones alone |
| ClaimScenarios.ThreeHandlersOnABudgetOfTwo | qtask_list/worker.py:192-205 | a run from the empty queue, with a heartbeat before every poll and one lapse of it, in which three handlers are let in on a task of two attempts |
| ClaimScenarios.RetryOvertakesItsHandler | qtask_list/worker.py:259-266 | a guarded run with every heartbeat kept and nothing recovered reaches a registration over the claim of a handler whose retry fell due before it left |
| ClaimScenarios.SpentAttemptIsReclaimed | qtask_list/worker.py:456-475 | a guarded run reaches a registration over an attempt remembered as spent |
| HistoryPaging.ByteBefore | qtask_list/history.py:33-40 | the byte loop decides the byte order of two texts |
| HistoryPaging.ReadPage | qtask_list/history.py:28-51 | the binary search returns exactly the first `count` items that are not newer than the cutoff and strictly after the anchor, whether or not the anchor still exists |
| HistoryPaging.MergeKeepsEveryItem | qtask_list/admin.py:376-392 | the merge of the queues holds every remaining item of every queue once, in that queue's order |
| HistoryPaging.MergeDescends | qtask_list/admin.py:376-392 | the merge never goes up in score and id |
| HistoryPaging.EntryVisitedOnce | qtask_list/admin.py:345-375 | whatever is added or deleted between fetches, an entry that is always there is visited at most once and is either visited or still ahead |
| HistoryPaging.EndOfChain | qtask_list/admin.py:345-375 | when a fetch comes back empty, an entry that was always there has been visited exactly once |
| HistoryBrowsing.SearchPage | qtask_list/admin.py:248-451 | each fetch reads the index as it then is; what a page visits in a queue is what its fetches saw, one after another from the cursor on; it returns the matching items, stops only at a limit or when every queue's last fetch found nothing, and visits something unless it ends; if the indexes do not change it visits a prefix of the merge and its new anchors leave exactly the rest |
| HistoryBrowsing.Browse | qtask_list/admin.py:345-451 | over any chain of pages, with the indexes changing between fetches, every entry that is always there is visited at most once, is visited or still ahead, and exactly once when the chain ends; every page makes progress; if the indexes do not change the rows are a prefix of the matching items of the merge, and all of them at the end |
| HistoryCleanup.HistoryLog.ClearTerminal | qtask_list/history.py:281-331 | the loop ends, removes exactly the ended entries without a message and the entries without a record, and returns the number removed |
| HistoryCleanup.HistoryLog.CleanExpired | qtask_list/history.py:333-385 | the loop ends despite starting over after deletions, removes exactly the due and the stale entries, keeps all other records up to the repaired flag, and counts the due ones |
| HistoryCleanup.HistoryLog.ArchiveToSqlite | qtask_list/archiver.py:109-231 | the loop ends, and exactly the due records leave the index and the records for the archive, together with stale entries |
| StorageHandshake.LiveTaskHasItsFile | qtask_list/remote_storage/server.py:145-200 | in every proper run a task that has a message has its file, and no collector or sweep is about to delete it; that the collector does take the others in time is `StorageCollection.EndedPayload` and `GraceOverCollects` |
| StorageCollection.EndedPayload | qtask_list/remote_storage/server.py:160-200 | in every proper run the payload of a task that ends is there, with its gc date, until that date, and from then on one pass of the collector leaves neither file nor entry |
| StorageCollection.PassCollects | qtask_list/remote_storage/server.py:160-200 | from any object whose gc date has passed, one pass leaves no file, no entry and no retention |
| StorageCollection.GraceOverCollects | qtask_list/remote_storage/server.py:145-200 | from any pending entry past its grace time, promotion and one pass do the same |
| StorageCollection.OfferLasts | qtask_list/remote_storage/server.py:267-341 | over every proper run an uploaded payload waits untouched, whatever sweeps and passes there are, until its grace time is over or its task or its producer takes it |
| StorageCollection.RefusedLeavesNothing | qtask_list/remote_storage/server.py:355-384 | a producer whose task is refused deletes its upload, and nothing of it is left |
| StorageCollection.CommitAfterDelete | qtask_list/remote_storage/server.py:355-384 | a script that commits only after the producer's delete creates no task and leaves nothing behind |
| StorageCollection.LostReplyKeepsPayload | qtask_list/queue.py:397-406 | a producer that lost the reply of a committed script finds its task, and the payload stays |
| StorageCollection.FailedUploadIsCleared | qtask_list/remote_storage/server.py:296-341 | an upload that fails at its pending entry leaves nothing, or an entry that is cleared after its grace time |
| StorageCollection.SweepTakesIffLate | qtask_list/remote_storage/server.py:203-232 | while an upload is under way, the retention sweep takes its file if and only if its next step is late |
| StorageHandshake.StageOnlyRises | qtask_list/remote_storage/server.py:92-98 | from pending on an object only moves forward: pending, referenced, collected |
| StorageHandshake.LateCommitLosesTheFile | qtask_list/remote_storage/server.py:356-384 | from every state in which a given-up script can still commit, the commit and the producer's delete leave a task with a message and without its file |
| StorageHandshake.LateCommitHappens | qtask_list/queue.py:397-406 | such a state is reached from the start, by an upload, a request and a check that finds no task |
| StorageHandshake.SlowUploadLosesTheFile | qtask_list/remote_storage/server.py:305-329 | from every state in which an upload's next step is late, the retention sweep and the rest of the upload lead to a task with a message and without its file |
| StorageHandshake.SlowUploadHappens | qtask_list/remote_storage/server.py:203-232 | such a state is reached from the start under every retention setting, by an upload that stalls after its pending entry is written |
| ScriptGuards.AcceptedIffBounded | qtask_list/state.py:956-970 | on canonical text the counter check passes exactly for numbers up to 9223372036854775806 either way |
| ScriptGuards.AcceptedHasRoom | qtask_list/state.py:956-970 | an accepted counter has room for one step either way in 64 bits |
| ScriptGuards.SafeNeverStopsHalfway | qtask_list/state.py:1163-1187 | a script that passes the check never fails after a write, for every store its guard accepts and every branch |
| ScriptGuards.EnqueueIsAllOrNothing | qtask_list/state.py:1190-1216 | the guarded enqueue script never fails with something written |
| ScriptGuards.BeginIsAllOrNothing | qtask_list/state.py:1217-1246 | the guarded begin script, its floating increment included, never fails with something written |
| ScriptGuards.CompleteIsAllOrNothing | qtask_list/state.py:1247-1259 | the guarded completion script never fails with something written |
| ScriptGuards.RetryIsAllOrNothing | qtask_list/state.py:1260-1282 | the guarded retry script never fails with something written |
| ScriptGuards.FailIsAllOrNothing | qtask_list/state.py:1283-1295 | the guarded failure script never fails with something written |
| ScriptGuards.ReplayIsAllOrNothing | qtask_list/state.py:1296-1325 | the guarded replay script never fails with something written |
| ScriptGuards.CancelIsAllOrNothing | qtask_list/state.py:1326-1339 | the guarded purge script never fails with something written, on a list or on the delay set |
| QueueKeys.StatePathOverlaps | qtask_list/state.py:975-982 | the loop over segments decides whether one name lies on a state path of another |
| QueueKeys.ShareAKeyIffOverlap | qtask_list/state.py:974-991 | two queues share a key if and only if they are the same or one name lies on a state path of the other |
| QueueKeys.Register | qtask_list/state.py:983-990 | a registration is refused exactly when it conflicts with a registered name, and otherwise adds the name once |
| QueueKeys.RegisteredQueuesShareNothing | qtask_list/state.py:1000-1032 | after any sequence of guarded registrations two different queues share no key |
| QueueKeys.KeyIsUnderSegment | qtask_list/queue.py:128-136 | every key a queue or its workers derive from its name is the ready list or lies on one of the reserved state paths |
| QueueKeys.EverySegmentIsUsed | qtask_list/state.py:976-977 | each reserved path is that of some key |
| QueueKeys.KeyIsNoName | qtask_list/state.py:983-990 | a name that is a key of a registered queue is refused |
| QueueKeys.RegisteredKeysDiffer | qtask_list/queue.py:128-136 | after any sequence of guarded registrations no key of one queue is a key of another |
| QueueKeys.KeysOfAQueueDiffer | qtask_list/queue.py:128-136 | within a queue different things are kept under different keys, but for placeholders |
| QueueKeys.ReachesIndexIff | qtask_list/queue.py:123-142 | a key of a queue is one of the library's own keys in exactly one case: the queue is named `qtask` and a worker of it is named like another queue |
| EnvelopeSplice.DecodeEncode | qtask_list/envelope.py:168-171 | reading the fields of an encoded envelope gives back those fields in order, with the text of every value |
| EnvelopeSplice.SpliceIsEncode | qtask_list/envelope.py:173-179 | writing one field in front of the runtime tail gives exactly the encoding of the envelope with that field set and all names different, if and only if another field is left |
| EnvelopeSplice.PayloadSurvives | qtask_list/state.py:285-304 | after any chain of starts, deferrals, retries and failures the message still reads as an envelope whose payload has the text it was enqueued with |

## Left out

- Version 1 compatibility: message and identity migration, string records, the retry list and its reset; poison messages, whose move to the dead-letter list is not atomic.
- The history updates that follow a move are not atomic with it; the moves and the update are modelled as steps of their own.
- `TaskHistory.clear` and the deletion of a whole queue (`qtask_list/state.py:1038`), which remove live state on an operator's explicit order.
- Forced recovery of an active worker by an operator is modelled as a forced move; its safety is the operator's.
- RedisStore.Store.PassTime: expiry is one step of the clock, not the store's lazy and sampled deletion.
- Consistency.CheckConsistency: its reads are taken at one instant, where the code reads key by key while others write; the repairing mode, the checks of external references and of payload sizes, and the grouping of reports are not modelled.
- HistoryBrowsing.SearchPage: filters are one predicate on items, and the pass over containers for unindexed tasks is not modelled; cursors are the anchors themselves, not their encoded text; while indexes change, nothing is said about the order between queues.
- HistoryPaging.EntryVisitedOnce: an index may change between fetches but not within one script call.
- OutcomeFinality.OutcomeSurvivesUpdates: an outcome field holds no outcome or one of the four, not other text; a record deleted and made again by a purge is a new one.
- HistoryCleanup.HistoryLog.CleanExpired: only the entries up to the cutoff are modelled, the range the loop reads; what other clients do between its look and its mark is in StrayRecords instead.
- HistoryCleanup.HistoryLog.ArchiveToSqlite: the archive is the set of written ids; its files by date are not modelled.
- WorkerClaims.AdmittedWithinBudget: worker processes are values in a state machine, because their threads interleave; a settlement abandoned at stop is not a step.
- ClaimOverwrite.RegistrationIsSafeIffGuarded: it is about claims still live in the registering worker's list; a claim that was recovered by others before it is registered is not characterised.
- StorageHandshake.LiveTaskHasItsFile: the server's requests are steps over values, because they interleave between any two commands; the gc batch limit, unmanaged uploads and the metadata file's own format are not modelled, nor is the test of enqueue and replay for a storage claim on a pending payload (`qtask_list/state.py:69-76`), since nothing in the repository makes such a claim.
- ScriptGuards.SafeNeverStopsHalfway: a loop that writes every field of a record is one write, and a run may take any of a script's commands in their order, which covers more than its branches allow.
- QueueKeys.ShareAKeyIffOverlap: it is about the keys below a queue's name; for the library's own keys see `QueueKeys.ReachesIndexIff`. A processing list under a name its caller chose is not modelled, and of the tests on names only the one for the reserved prefix is.
- EnvelopeSplice.PayloadSurvives: it is about the text of the payload; that re-encoding keeps the text of every other value is a hypothesis.
- EnvelopeSplice.SpliceIsEncode: numbers are text; the script prints a deferred time with fourteen significant digits, which the task model keeps exact.
- Metrics other than those above, the `:retry` list, storage ids and payload sizes of records, and replies' extra fields.
- Backoff.DelayWindow: durations are exact reals, rounded down to the store's microseconds; the model's retry step takes any run time.
- Handler dispatch, signals, maintenance, alerts, the command line, the dashboard and its authentication.
