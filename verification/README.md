# Verified model of the chat server's stateful cores

This project models the stateful cores of a self-hosted chat and media server and proves what they promise.

- **PersonaOutput** — the streaming filter that removes system-prompt envelopes from a reply. `PersonaOutputStreamFilter` mirrors the object that carries a buffer, a nesting depth and a flag between calls; `Scan` is an independent one-pass scanner over a whole text, and the two are proved equal however the text is cut.
- **JobQueue** — the in-process scheduler. Each block under the queue's condition variable is one atomic step of a state machine; `class JobQueue` implements the blocks over lists and dictionaries, and every method is proved to take exactly that step. `place` records where each job ever accepted is.
- **JobStore** — the durable job and turn rows and the transactions that move them. A transaction that raises rolls back. `class JobTable` changes the rows in place.
- **JobService** — registration, worker threads, user cancellation, admission rejection and shutdown, interleaved step by step. A `View` is everything that belongs to one job; `Service` adds the phases of `start` and `stop`. `class JobEntries` holds the three dictionaries and the done events, one method per block under the service's lock.
- **JobShutdown** — what a clean `stop` leaves behind, exactly, in terms of where the job is and what the calls on it did during the run.
- **Scheduling** — scheduler and service as one machine: a worker picking a job up, a cancel or reject call taking it off the queue, the end of an execution, the queue closing and a stopped job being acknowledged are single acts of both.
- **Capability** — media requests: the request row, the attachment that shows it, its job and its audit log, with approval, denial, cancellation and retry. A job's callbacks run inside `JobStore` transactions.
- **Recovery** — what happens at start-up to media requests that were interrupted.
- **Identity** — consent and reference pictures of a persona, and the revision counter that planned requests are checked against.
- **MediaPlanner** — choosing a preset: hard filter, deterministic ranking, preference tiers and the greedy LoRA slot filler.
- **ContextPolicy, ContextHistory, ContextMemory, ContextPlan** — token estimates and budgets, clipping, whole-turn history selection, compaction into summaries, memory selection, the history floor, and the whole plan.

`Common` holds `Option`, `Result` and the order of texts. Code that changes state in place is modelled by classes and by methods with loops, each proved against a specification function or step; the properties are then proved about the specification, over every input, every run or every reachable state.

Results that came out differently from what the code or its description suggests:

- The filter is independent of the cuts exactly when every character folds to one character (`StreamsIffPlain`), because offsets measured in the folded text are used on the original.
- A grouped text/image pair is picked outside the eligible list, so one-at-a-time execution per ordering key holds exactly when a selection does not start a group's image whose key is held while no eligible job is overdue (`SelectKeepsExclusionIff`); `KeyedGroupBreaksExclusion` is a run of four steps in which a keyed pair breaks it. The service submits no groups, so scheduler and service together run at most one job per key (`OneRunsPerKey`).
- Rejecting a job without its turn leaves an open turn behind exactly when there is one (`TurnlessFailureIff`, with `TurnlessFailureStrands`).
- A `stop` that ends without an error does not leave every accepted job terminal, without entries and told. `JobShutdown.StoppedIsClean` says of each of the three exactly when it fails: a call that took the job off the queue may still be before that point, or have given up when its write raised; a worker may have lost its last write; or the cancel call may have looked up the done event before the job was registered. Five runs show each of them.
- Request and job come apart exactly when a cancel finds no execution entry of a job that is still open, or when a queued submission is failed although its job exists (`StepAgreesIff`, with `EarlyCancelSplits` and `FailedSubmissionSplits`).
- Restart fails the queued attachment of a request that is waiting for confirmation and leaves the request waiting (`RestartFitsIff`).
- Clipping keeps its promise for all texts exactly from 20 tokens on (`ClipWithinIff`), and a context window is large enough for every output setting exactly from 1535 tokens on (`TooSmallIff`).
- A single character of optional lore can make planning the first message of a chat fail although leaving it out would succeed, since nothing yields to the sections before there is history (`CannotFitIff`, with `CannotFitHappens`).

## Model

| member | source | states |
|---|---|---|
| PersonaOutput.LongestMarkerPrefixSuffix | app/persona_output.py:20-32 | The loops over the two markers return the length of the longest suffix that is a proper prefix of a marker: it is one, and no longer suffix is |
| PersonaOutput.LongestFor | app/persona_output.py:25-31 | The search for one marker returns the longer of what was found before and the longest suffix that could grow into this marker |
| PersonaOutput.PersonaOutputStreamFilter.constructor | app/persona_output.py:43-47 | A new filter holds nothing, is outside every envelope, has removed nothing and is not finished |
| PersonaOutput.PersonaOutputStreamFilter.Feed | app/persona_output.py:53-105 | Refuses a chunk once finished; otherwise emits what the loop over the pending text shows and keeps the buffer, depth and flag it leaves |
| PersonaOutput.PersonaOutputStreamFilter.Drain | app/persona_output.py:62-101 | The while loop over the pending text, cutting at the first marker or holding back the longest possible beginning of one, computes the recursive form of the loop |
| PersonaOutput.PersonaOutputStreamFilter.Finish | app/persona_output.py:107-120 | Releases the held text outside an envelope and drops it inside one, once; a second call emits nothing |
| PersonaOutput.SanitizePersonaOutput | app/persona_output.py:123-132 | Sanitising a whole text is feeding it as one chunk and finishing |
| PersonaOutput.FeedCommutes | app/persona_output.py:53-105 | Text that arrives later can be appended before or after the loop runs: the shown text, the depth and the flag come out the same |
| PersonaOutput.StreamingMatchesScanner | app/persona_output.py:35-120 | For every text whose characters fold to one character and every way of cutting it, the outputs of feed and finish together, the final depth and the removed flag are those of the one-pass scanner over the whole text |
| PersonaOutput.ChunksDoNotMatter | app/persona_output.py:35-41 | Two ways of cutting the same text give the same output and flag |
| PersonaOutput.HeldBackTail | app/persona_output.py:95-100 | After any feeds the buffer is exactly the longest suffix of the text so far that is a proper prefix of a marker |
| PersonaOutput.AtMostFifteenHeld | app/persona_output.py:20-32 | With the actual markers at most 15 characters are held back |
| PersonaOutput.StreamsIffPlain | app/persona_output.py:64-93 | Independence of the cuts holds for every text exactly if no character folds to several, given some text that folds to the opening marker |
| PersonaOutput.DeclaredMarkers | app/persona_output.py:6-8 | The markers looked for are the folded forms of the two declared ones, for every folding that folds letters as case folding does |
| PersonaOutput.EnvelopeIsRemoved | app/persona_output.py:53-120 | An envelope is taken out of a reply with everything inside it, however the reply is cut and whatever the case of its markers; what stands before and after it is shown unchanged |
| PersonaOutput.BareTextPasses | app/persona_output.py:95-120 | Text without an opening bracket passes through unchanged, however it is cut, and nothing is reported as removed |
| JobQueue.EligibleJobs | app/job_queue.py:271-292 | An eligible job is pending in the lane and admitted, its key is not held, and no admitted pending job of the same key in the lane is earlier |
| JobQueue.EligibleIf | app/job_queue.py:271-292 | An admitted keyless pending job is eligible whenever the lane is not held up by coordinated interactive work |
| JobQueue.PickIsPending | app/job_queue.py:294-332 | The job picked is pending in the lane, and it is an eligible one unless it is the image of a text and image group |
| JobQueue.RunKeepsInv | app/job_queue.py:119-292 | Conservation along every run: each accepted job is in exactly one of pending, executing, finished, cancelled, detached or acknowledged, and the count of each lane is the number of its executing workers |
| JobQueue.WithinWorkers | app/job_queue.py:252-263 | The active count of a lane never exceeds its workers |
| JobQueue.RunWithinWorkers | app/job_queue.py:252-263 | In every state of every run the active count of a lane is between zero and its number of workers |
| JobQueue.FinishCounts | app/job_queue.py:261-266 | The clamp at zero when a worker finishes never bites |
| JobQueue.SelectKeepsExclusionIff | app/job_queue.py:294-317 | A selection keeps at most one executing job per ordering key, with the held keys exactly those of executing jobs, unless no eligible job is overdue, a text and image group is pending and its image's key is held; and only then does it not |
| JobQueue.RunKeepsExclusion | app/job_queue.py:243-292 | In every run whose grouped jobs are keyless at most one job per ordering key executes, and the held keys are exactly those of executing jobs |
| JobQueue.PlaceIsFinal | app/job_queue.py:119-266 | Along every run no accepted job is forgotten; an executing job can only finish, a detached one only be acknowledged, and finished, cancelled and acknowledged are final |
| JobQueue.KeyedGroupBreaksExclusion | app/job_queue.py:310-317 | From the empty queue four steps, submitting and starting a keyed job and then a keyed text and image group, make two jobs of one key execute |
| JobQueue.KeyedJobsStartInOrder | app/job_queue.py:280-291 | A keyed job is selected only when no admitted pending job of its key in the lane arrived earlier |
| JobQueue.StartedInOrder | app/job_queue.py:280-291 | In every run with keyless groups, when a keyed job starts, each accepted job of its key and lane that arrived earlier and was admitted then has left the queue, and never comes back |
| JobQueue.OverdueFirst | app/job_queue.py:299-308 | While an eligible job is overdue the lane picks it or a pending lane job that arrived no later |
| JobQueue.BoundedOvertaking | app/job_queue.py:294-308 | While an overdue job stays eligible its lane makes at most as many selections as there were other pending lane jobs with no later arrival, given later arrivals only |
| JobQueue.ClosedForGood | app/job_queue.py:170-207 | Once closed the queue stays empty, selects nothing, and keeps each detached job until that job is acknowledged |
| JobQueue.IdleIff | app/job_queue.py:209-221 | The queue reports idle exactly if nothing is pending and no worker executes a job |
| JobQueue.OrderedChoice | app/job_queue.py:334-346 | The first complete group in the order in which groups are first met is the one the specification chooses |
| JobQueue.JobQueue.constructor | app/job_queue.py:87-95 | A new queue is empty, open and idle |
| JobQueue.JobQueue.Submit | app/job_queue.py:119-125 | Refuses after closing; otherwise takes exactly the submit step |
| JobQueue.JobQueue.SubmitGroup | app/job_queue.py:127-137 | Gives all jobs one group id and each its index, and submits them in one step, or refuses after closing |
| JobQueue.JobQueue.CancelPendingForMetadata | app/job_queue.py:158-168 | Removes the first pending job with the id and says whether there was one |
| JobQueue.JobQueue.CloseAndDetachPending | app/job_queue.py:170-180 | Closes the queue and moves everything pending to the detached jobs in one step |
| JobQueue.JobQueue.AcknowledgeStoppedPending | app/job_queue.py:204-207 | Forgets exactly the detached job with the id |
| JobQueue.JobQueue.EligiblePendingForLane | app/job_queue.py:271-292 | The loop over the lane's jobs by arrival, with admission tested before a key counts as seen, computes the eligible list |
| JobQueue.JobQueue.PickNextJob | app/job_queue.py:294-332 | Overdue job, image of a group, job of the loaded model, or highest priority, in that order, with the lane's model updated as the code does; nothing exactly if there is neither an eligible job nor a group's image |
| JobQueue.JobQueue.NextTextImageGroup | app/job_queue.py:334-346 | The first group met that holds a text and an image job, its jobs in order of arrival |
| JobQueue.JobQueue.Select | app/job_queue.py:243-255 | One turn of an idle worker that saw eligible work: nothing once closed, an error without a change when the list drawn up again for the choice is empty and no group has an image, else exactly the select step |
| JobQueue.JobQueue.Finish | app/job_queue.py:261-266 | A worker's end of a job takes exactly the finish step, clamp included |
| JobQueue.GroupsInOrder | app/job_queue.py:337-341 | The dictionary of groups is met in the order of first appearance |
| JobQueue.ReasonIff | app/job_queue.py:294-332 | When each of the four choices is made: an overdue job exactly if an eligible one has waited out the limit of its class; else the image of a group exactly if there is one; else a job of the loaded model exactly if more than one job is eligible and one of them is of that model; else the best by priority |
| JobQueue.OverdueChoice | app/job_queue.py:299-308 | The overdue job chosen arrived first of all overdue ones |
| JobQueue.PriorityChoice | app/job_queue.py:15-19 | The best by priority is interactive if any eligible job is, bulk only if all are, and within its class the one that arrived first |
| JobQueue.ModelChoice | app/job_queue.py:319-324 | The job of the loaded model chosen arrived first of all eligible ones of that model |
| JobQueue.GroupChoice | app/job_queue.py:310-317 | The media lane takes a group's image exactly if some group is complete; it belongs to the complete group whose first job was submitted first, and arrived first of that group's images |
| JobQueue.MediaIsHeldUp | app/job_queue.py:271-279 | While resources are serialised and coordinated chat or text work waits, no image or video job is eligible, and only the image of a complete group can still be picked |
| JobQueue.SelectLoads | app/job_queue.py:299-332 | A group's image and the best by priority bring their own model to the lane, an overdue job and one of the loaded model leave it as it is, and no other lane is touched |
| JobQueue.LineIsKept | app/job_queue.py:119-168 | What waits keeps its place in line: submitted jobs come after it in the order given, and taking one job out leaves the order of the others |
| JobStore.TransactionKeepsConsistent | app/job_service.py:416-493 | Every transaction that handles the job's turn keeps job and turn in equal status, completion times on exactly the terminal jobs, and the committed outcome callback in agreement with the status |
| JobStore.TurnlessFailureIff | app/job_service.py:520-523 | Failing a job without its turn keeps them equal exactly if there is no turn or the job is already terminal |
| JobStore.TurnlessFailureStrands | app/job_service.py:507-523 | A new job with a turn, failed without it, leaves the turn queued, and the cancel at the end of a run or at shutdown is the only transaction that would still move the turn |
| JobStore.TerminalIsFinal | app/job_service.py:16-54 | Once a job is terminal no transaction changes its row, its turn or its committed callbacks |
| JobStore.CancelWins | app/job_service.py:357-493 | Along every interleaving of transactions a terminal status and its callbacks are kept, so nothing of a success commits after a cancel, at most one outcome callback ever commits, and job and turn have equal status |
| JobStore.JobTable.TransitionJob | app/job_service.py:40-54 | Moves a job row along the legal transitions with its time stamps, accepts the status it has, refuses any other and leaves the rest alone |
| JobStore.JobTable.TransitionTurn | app/job_service.py:57-69 | The same for a turn row, whose error code is always written |
| JobStore.JobTable.EndTurn | app/job_service.py:462-465 | Ends the turn exactly if it exists and is open |
| JobStore.JobTable.Begin | app/job_service.py:416-428 | Refuses a cancelled job, otherwise runs it and its turn, or rolls both back; every other job is unmoved |
| JobStore.JobTable.Complete | app/job_service.py:430-451 | Refuses a cancelled job, otherwise completes it and its turn, or rolls both back; every other job is unmoved |
| JobStore.JobTable.Fail | app/job_service.py:453-470 | Leaves a terminal job alone, otherwise fails it and its open turn, or rolls both back; every other job is unmoved |
| JobStore.JobTable.CloseJob | app/job_service.py:479-483 | Cancels an open job and marks any job as asked to cancel |
| JobStore.JobTable.CancelTerminal | app/job_service.py:472-493 | Cancels what is open of job and turn, runs the cancel callback only if there is one and something changed, or rolls back; every other job is unmoved |
| JobStore.JobTable.Cancel | app/job_service.py:536-552 | A user's cancel ends an open job and its turn and runs the callback only if an execution entry was read before, or rolls back |
| JobStore.TransactionDoes | app/job_service.py:416-552 | A transaction that meets a job in a status it applies to, and does not raise, gives job and turn the status it is meant to bring with its time stamps and error code, and commits its own callback; any other leaves row, turn and callbacks as they were |
| JobStore.CompletionCompletes | app/job_service.py:430-451 | A running job whose completion does not raise is completed, with its turn, at that time, and on_success is its one outcome |
| JobStore.OutcomeIff | app/job_service.py:416-552 | Along every run a job is completed, failed or cancelled exactly if such a transaction took effect on it while it was open, a completion only while it was running, and it is running exactly if a begin did and none of those has |
| JobService.StepKeepsInv | app/job_service.py:308-575 | Whatever thread takes a step, the job stays consistent, and whoever holds it (queue, worker, cancel call, reject call or shutdown) can still end it, take its entries back and tell the waiters, except for a write that raised and an event that was looked up too early, which are recorded |
| JobService.MoveKeepsServiceInv | app/job_service.py:184-292 | Every move of the whole service keeps every job's invariant and keeps each job in a place that its phase allows |
| JobService.AcceptedOnlyWhileOpen | app/job_service.py:329-332 | No submission is accepted once stop has begun, until the next start, and no accepted job is forgotten |
| JobService.OutcomeIsFinal | app/job_service.py:357-575 | Along every interleaving of submission, workers, cancel and reject calls and shutdown, once a job is terminal its row, turn and committed callbacks stay, at most one outcome callback was committed, and job and turn have equal status |
| JobService.StepKeepsOutcome | app/job_service.py:357-575 | No step of any thread changes the row, the turn or the committed callbacks of a terminal job |
| JobShutdown.StepTells | app/job_service.py:262-575 | After every step of any thread, where the job is tells whether its done event, its entries and its end were left to the calls on it, and what is left to them is as they have made it so far |
| JobShutdown.StoppedIsClean | app/job_service.py:184-306 | In every run, when stop has ended without an error, each job ever accepted is out of line and with no worker; it is terminal, it has no entries, its done event is set, each if and only if the holder has got to that point without losing a write or missing the event, or another call on the job has done it |
| JobShutdown.UnheldIsClean | app/job_service.py:184-306 | So a job that no call holds is terminal, without entries and told, if no ending write was lost and no cancel call looked up its done event before it was registered |
| JobShutdown.EarlyCancelLeavesDoneUnset | app/job_service.py:553-568 | A run with a clean stop in which a cancel call that looked up the done event too early leaves it unset |
| JobShutdown.InFlightCancelOutlivesStop | app/job_service.py:560-568 | A run with a clean stop in which a job held by a cancel call still has its entries and is not told |
| JobShutdown.InFlightRejectOutlivesStop | app/job_service.py:520-529 | A run with a clean stop in which a job held by a reject call is not even terminal |
| JobShutdown.FailedRejectDropsJob | app/job_service.py:520-529 | A run with a clean stop in which a reject call whose write raised has given up a job it took off the queue: it stays open, with its entries, and is not told |
| JobShutdown.LostWriteLeavesJobOpen | app/job_service.py:383-414 | A run with a clean stop in which a worker whose ending write raised has told the waiters of a job that stays open |
| JobShutdown.UndisturbedJobCompletes | app/job_service.py:294-451 | A run in which a job is submitted, begun, executed and completed, and after a clean stop nothing of it is left |
| JobShutdown.WaitingJobIsCancelled | app/job_service.py:531-575 | A run in which a user cancels a waiting job: it is cancelled, off the queue, told, and nothing of it is left |
| JobShutdown.WaitingJobIsRejected | app/job_service.py:520-529 | A run in which a waiting job is rejected: it has failed, is off the queue, told, and nothing of it is left |
| JobShutdown.StoppedJobIsCancelled | app/job_service.py:184-292 | A run in which a job still waits when the service stops: it is cancelled and not even its done event stays on record |
| Scheduling.ActKeepsInv | app/job_service.py:308-356 | Every act of scheduler and service together keeps the invariants of both, their agreement about where each job is, one executing job per key, and that a durably running job is with a worker unless its last write was lost |
| Scheduling.OneRunsPerKey | app/job_queue.py:243-292 | In every run of the two together at most one job per ordering key is durably running, a lost write apart |
| Scheduling.BeginsInOrder | app/job_queue.py:280-291 | Once a worker takes a keyed job, a job of its key and lane that arrived earlier and was admitted then is never taken or begun any more |
| Scheduling.PickIsTaken | app/job_queue.py:243-258 | Whatever a worker of the queue picks is a service job that waits for it, so the service can always follow |
| Scheduling.FinishedIsExecuting | app/job_queue.py:259-269 | A worker that has finished with a service job executes exactly that job in the queue |
| Scheduling.ForgottenIsDetached | app/job_service.py:262-292 | Shutdown finds the queue job of what it forgets among the detached ones |
| JobService.JobEntries.constructor | app/job_service.py:153-155 | No job has an entry at first |
| JobService.JobEntries.RegisterJob | app/job_service.py:333-336 | Writes the three entries of the job, as the register step does, and no other job's |
| JobService.JobEntries.AbandonSubmission | app/job_service.py:346-355 | Takes the entries back and signals the done event, as the abort step does |
| JobService.JobEntries.PopFinished | app/job_service.py:409-412 | Takes token and execution back and keeps hold of the done event, as the worker's pop step does |
| JobService.JobEntries.SignalFinished | app/job_service.py:413-414 | Sets the done event if one was found, as the worker's signal step does |
| JobService.JobEntries.LookUp | app/job_service.py:534-535 | Reads whether an execution entry exists, before the cancel transaction |
| JobService.JobEntries.FetchDone | app/job_service.py:553-555 | Reads the done event after the cancel transaction |
| JobService.JobEntries.DropCancelled | app/job_service.py:563-566 | Takes the entries only of a job that the call removed from the queue |
| JobService.JobEntries.SignalCancelled | app/job_service.py:567-568 | Sets the done event the call had found |
| JobService.JobEntries.ClearRejected | app/job_service.py:524-527 | Takes token and execution of a rejected job and finds its done event |
| JobService.JobEntries.ForgetFinalized | app/job_service.py:283-291 | Takes all three entries of a detached job and sets its done event |
| JobService.BeginDoes | app/job_service.py:366-428 | An open job whose begin does not raise runs, with its turn, and is executed next; a cancelled one is left alone and the worker is done with it; anything else leads to an ending |
| JobService.CompleteDoes | app/job_service.py:374-451 | A running job whose completion does not raise is completed with its turn; a cancelled one is left alone; anything else, and a result that cannot be published, leads to an ending |
| JobService.FailDoes | app/job_service.py:383-470 | A failure ends an open job as failed, with its turn, and leaves an ended one as it is; if the callback raises the end is lost |
| JobService.EndCancelledDoes | app/job_service.py:383-493 | A cancelled execution ends an open job as cancelled, with its turn, and leaves an ended one as it is; if the callback raises the end is lost |
| JobService.CancelWriteDoes | app/job_service.py:531-552 | A user's cancel ends an open job as cancelled, with its turn and with the callback if an execution entry was found, and leaves an ended one alone; if the callback raises, nothing is written and the call ends |
| JobService.RejectNoteDoes | app/job_service.py:520-529 | A rejection ends an open job as failed and leaves an ended one alone; if the callback raises, nothing is written, the call ends, and a job it took off the queue is dropped |
| JobService.FinalWriteDoes | app/job_service.py:263-280 | Shutdown ends a detached open job as cancelled, with its turn, and leaves an ended one alone; if the callback raises, the job stays detached as it was |
| JobService.AbandonedLeavesNothing | app/job_service.py:337-355 | A submission that the queue refuses leaves nothing of its job, and in every run nothing comes back: the job is never accepted, has no entries, and its waiters have been told |
| Capability.CallKeeps | app/capability_service.py:1442-1467 | No callback of a submitted job ever raises, and each keeps the log chained and the attachment in step |
| Capability.StepKeepsInv | app/capability_service.py:125-220 | Every step keeps the log chained by legal transitions, the attachment a fixed function of the request's status unless retried, and retry offered exactly for failed and cancelled requests not yet retried |
| Capability.AgreementIff | app/capability_service.py:1442-1467 | A job transaction keeps request and job in equal status exactly if it is not a cancel, by a user or at shutdown, of an open job whose execution entry was not found |
| Capability.FailSubmissionIff | app/capability_service.py:989-1003 | Failing a queued submission keeps request and job in equal status exactly if the request was not queued or has no job |
| Capability.StepAgreesIff | app/capability_service.py:1352-1467 | A step of any kind keeps agreement exactly if it is not one of these two |
| Capability.EarlyCancelSplits | app/job_service.py:534-552 | A cancel call that comes before the registration of a new request's job cancels the job and leaves the request queued |
| Capability.FailedSubmissionSplits | app/capability_service.py:989-1003 | Failing the submission of a new request leaves its job queued |
| Capability.RunAgrees | app/capability_service.py:1352-1467 | Along every run, request and job have equal statuses as long as no step has split them |
| Capability.ReplayYieldsStatus | app/capability_service.py:188-220 | Replaying a request's log, each event starting where the last one ended, yields its current status |
| Capability.StepShowsOutcome | app/capability_service.py:135-144 | Every step keeps an error code on exactly the failed requests, and a completed request with an attachment shows the media of its result |
| Capability.LogGrows | app/capability_service.py:214-220 | No step changes or removes an event already written |
| Capability.CreatedInv | app/capability_service.py:735-826 | A new request, pending, queued with a job or failed for want of a plan, starts out consistent |
| Capability.RetriedAtMostOnce | app/capability_service.py:1152-1235 | In every run of all requests together at most one request retries a given one, and every further retry of it is refused |
| Capability.CapabilityStore.SyncAttachment | app/capability_service.py:125-155 | The branches over the new status set the attachment's status, media and retry flag as specified, if there is an attachment |
| Capability.CapabilityStore.TransitionCapability | app/capability_service.py:188-220 | Refuses an illegal transition without a change; otherwise moves request, attachment and log of that request only |
| Capability.CapabilityStore.AddRequest | app/capability_service.py:752-822 | Creates the rows and events of a request, with a job exactly if it is automatic and its plan is ready, and failed with the plan's code, or the default one, if it is automatic and blocked |
| Capability.CapabilityStore.ApproveRequest | app/capability_service.py:1352-1389 | Queues a pending request with a job and asks for its submission, accepts one already under way, refuses images and ended requests |
| Capability.CapabilityStore.DenyRequest | app/capability_service.py:1391-1400 | Denies a pending request, accepts a denied one, refuses any other |
| Capability.CapabilityStore.CancelRequest | app/capability_service.py:1402-1419 | Cancels a pending request itself and leaves a queued or running one to its job's cancel |
| Capability.CapabilityStore.FailQueuedSubmission | app/capability_service.py:989-1003 | Fails a queued request and touches nothing else |
| Capability.CapabilityStore.RetryRequest | app/capability_service.py:1152-1266 | Refuses unless retry is offered for a failed or cancelled chat image; otherwise marks the original as retried and creates a new request that points at it |
| Capability.CapabilityStore.RunCallback | app/capability_service.py:1442-1467 | The four callbacks act only from the statuses they check for |
| Capability.TransitionDoes | app/capability_service.py:188-220 | A transition is refused exactly if it changes the status and no such step exists; otherwise request, attachment and log show the new status with its code, and a result that is given replaces the one before |
| Capability.CreatedDoes | app/capability_service.py:735-826 | A new request is written down once and shown as queued; a pending one has no job, an automatic one has a job exactly if its plan is ready and has otherwise failed with the plan's reason |
| Capability.ApproveDoes | app/capability_service.py:1352-1389 | Images are refused; a pending request is queued, gets a new job and two events; one queued, running or completed is left alone; any other is refused |
| Capability.DenyDoes | app/capability_service.py:1391-1400 | A pending request becomes denied with one event, a denied one stays as it is, any other is refused |
| Capability.CancelDoes | app/capability_service.py:1402-1419 | The job's cancel is asked for exactly of a queued or running request that has a job; a pending request is cancelled itself; nothing else changes |
| Capability.CancelEnds | app/capability_service.py:1402-1419 | Of every consistent request under way the job's cancel is asked for, and once that cancel, which finds the job registered, has run, request and job are cancelled together and a retry is on offer |
| Capability.FailSubmissionDoes | app/capability_service.py:989-1003 | A queued request fails with submission_failed and one event, any other is left alone |
| Capability.RetryDoes | app/capability_service.py:1152-1266 | A retry is granted exactly if the attachment offers one, the request failed or was cancelled and it is an image of a chat that still exists; the original is then shown as replaced and offers none any more, and the new request points back at it, queued with a job or failed with the reason of a blocked plan |
| Capability.CallDoes | app/capability_service.py:1442-1467 | A request starts from queued, completes with the media from running, and fails with the code or is cancelled unless it has ended; otherwise a callback leaves it as it is |
| Capability.CompletedAfterRunning | app/capability_service.py:188-220 | A chained log leads to completion only through a run, and to a run only through the queue |
| Recovery.BestIsBest | app/database.py:161-181 | The attempt found is eligible, and no eligible attempt has a better status, score or number |
| Recovery.NewestIsNewest | app/database.py:217-226 | The plan media found is usable and no usable one is newer |
| Recovery.FindSound | app/database.py:128-226 | Any media found belongs to the request's owner and chat, has its kind and its file; a plan that blocks identity claims is served only by its own result, a verified attachment or an attempt that passed or went unverified |
| Recovery.FindComplete | app/database.py:128-226 | Nothing is found only if the recorded result, the attachment's media, the best attempt's media and, where allowed, all media of the plan are unusable |
| Recovery.FindOrder | app/database.py:128-226 | A media file is served if and only if one of the four sources offers it and no source before that one offers any: recorded result, attachment, the attempt no other one beats, the media of the plan no other one is newer than; an attempt is credited exactly if it is the source |
| Recovery.VerifiedIsEarned | app/database.py:191-201 | An identity is verified after a restart only if it was before, or the media is that of an attempt that passed on a plan conditioned on an identity |
| Recovery.RestartLogs | app/database.py:309-336 | The log gains one event exactly if a request is recovered for the first time, from its status to completed, and none for an interruption |
| Recovery.RestartEndsAttempts | app/database.py:287-308 | Of the running attempts those that the recovered media stands for end passed or unverified with a media id, all others end in error, and ended ones stay |
| Recovery.RestartSettles | app/database.py:229-366 | An in-flight request, its in-flight attachment and its in-flight job all end completed with the same media id, or all failed with retry available; completed exactly if a media file is found |
| Recovery.RestartIdempotent | app/database.py:339-378 | A second recovery changes none of a request's rows, even with other files and at another time |
| Recovery.RestartAgrees | app/database.py:351-362 | Request and job in equal status before the restart are in equal status after it |
| Recovery.RestartFitsIff | app/database.py:359-366 | The attachment still fits the request's status after the restart exactly if the request was not waiting for confirmation with an attachment |
| Recovery.Database.Reconcile | app/database.py:229-336 | The loop over the in-flight rows recovers each of them and leaves every other request alone |
| Recovery.Database.Initialize | app/database.py:339-378 | The reconciliation and the updates after it, in order, restart every request and fail every open turn |
| Recovery.EligibleIff | app/database.py:161-189 | Exactly these attempts count: the owner's own with a media row of the request's owner, chat and kind, that passed or went unverified, or, where an incomplete identity is allowed, failed or were still running |
| Recovery.LeadingAttempt | app/database.py:161-189 | The leading attempt passed if any that counts did, went unverified if any did and none passed, and was running only if all were; among its like it has the highest score, a missing one counting as -1, and then the highest number |
| Recovery.PlanMediaAllowedIff | app/database.py:203-216 | The plan's own media stands in exactly if an incomplete identity is allowed and the plan has no attempts or one that did not end in error and was not cancelled |
| Recovery.PlanMediaChoice | app/database.py:217-226 | Of the usable files made for the request it is the newest, and of those the one with the greatest id |
| Recovery.FoundIdentity | app/database.py:191-201 | The identity state that goes with a file is the request's own, unless an attempt is the source; then a conditioned plan makes it verified if the attempt passed and not verified if it went unverified or failed, and a plan without conditioning makes it unconditioned |
| Recovery.RestartDoes | app/database.py:229-378 | Only if request and attachment were both under way and a file is found does a restart complete what is under way, with that file; otherwise it fails what is under way; the job ends at the time of the restart, and ended rows are left alone |
| Recovery.RestartIdentity | app/database.py:246-254 | The identity state is untouched unless a file is recovered; then it is that of the file, where one that does not apply becomes unconditioned or not verified as the plan says |
| Identity.StepKeepsInv | app/identity_service.py:178-397 | Every operation keeps: active exactly if consent is granted and some reference is approved, disabled exactly if consent is withdrawn, exactly one approved primary reference whenever any is approved, no other one primary |
| Identity.PrimaryHandsOver | app/identity_service.py:355-391 | When the primary reference is rejected or deleted the oldest approved one left takes over, and otherwise no other reference changes |
| Identity.FirstIsFirst | app/identity_service.py:358-360 | The reference that takes the primary role is approved and none of the approved ones comes before it |
| Identity.RevisionGrows | app/identity_service.py:178-397 | The revision never goes back, and equal revisions at two points of a run imply the same consent, status, policy, approved references and primary reference |
| Identity.RevalidationIsSound | app/media_catalog_service.py:1649-1655 | A request planned at a revision that still stands on an active profile was planned with granted consent, an approved primary reference and the facts that still hold |
| Identity.VisualIdentity.constructor | app/identity_service.py:165-176 | A persona without a stored profile has the default one |
| Identity.VisualIdentity.SaveValues | app/identity_service.py:178-207 | Refuses a stale expected revision; otherwise writes the policy, keeps presets not sent, and counts the revision up |
| Identity.VisualIdentity.GiveConsent | app/identity_service.py:209-222 | Grants consent and activates the profile exactly if some reference is approved |
| Identity.VisualIdentity.RevokeConsent | app/identity_service.py:224-257 | The loop deletes every reference, and the profile is disabled |
| Identity.VisualIdentity.Attach | app/identity_service.py:259-307 | Adds a pending reference only under granted consent, without a new revision |
| Identity.VisualIdentity.Review | app/identity_service.py:336-371 | Approves or rejects a live reference under granted consent, with the primary role given or handed on |
| Identity.VisualIdentity.Delete | app/identity_service.py:373-396 | Deletes a live reference, hands the primary role on and falls back to draft or disabled when none is approved |
| Identity.VisualIdentity.FirstApproved | app/repositories.py:1256-1265 | The first approved reference, primary ones first and then by age |
| Identity.WithdrawDoes | app/identity_service.py:224-257 | Withdrawing always succeeds on a stored profile: consent is withdrawn, the profile disabled, every reference deleted and none primary |
| Identity.WithdrawalLasts | app/identity_service.py:178-397 | In every run, after a withdrawal the profile stays disabled with all references deleted until consent is granted again |
| Identity.GrantDoes | app/identity_service.py:209-222 | Granting needs the attestation, activates the profile exactly if a reference is approved, and touches no reference |
| Identity.AddDoes | app/identity_service.py:259-307 | Adding needs attestation, granted consent and a source; the new reference is pending, and nothing else changes, the revision included |
| Identity.ApproveDoes | app/identity_service.py:336-371 | Exactly the reference named becomes approved and all others keep review and role; the profile is active; the reference is primary exactly if it was marked so or no other approved one is; and it is refused exactly without consent or such a live reference |
| Identity.DropDoes | app/identity_service.py:355-391 | Rejecting and deleting change the review of exactly the reference named and take its role; rejecting needs granted consent, deleting does not |
| Identity.SaveDoes | app/identity_service.py:178-207 | A save is refused exactly if a revision is expected of a stored profile and is not the current one; otherwise the new policy stands, with the old presets unless new ones were sent, and consent, status and references are untouched |
| MediaPlanner.BestIgnoresOrder | app/media_planner.py:141-149 | The head of a list sorted by a key that tells its items apart does not depend on the order of enumeration |
| MediaPlanner.StagesComplete | app/media_planner.py:429-454 | Without a rejection every declared stage is present in order, and each after the first has a workflow that takes the previous picture |
| MediaPlanner.PickShrinks | app/media_planner.py:555-577 | Each LoRA picked strictly shrinks the set of wanted domains, content tags and features still uncovered |
| MediaPlanner.SlotsAreFilledWell | app/media_planner.py:509-578 | The slot filler picks distinct LoRAs outside the fixed ones, each compatible with the base and within its slot's filters, at most each slot's maximum, at most a positive limit, and at most the demand that was open |
| MediaPlanner.ReadyIff | app/media_planner.py:53-159 | A plan is ready exactly if some enabled preset of the kind has no rejection reason, whatever the preferences; the winner is one; a tier gives way only if it names none; and without preferences no candidate ranks before the winner |
| MediaPlanner.FirstOfIsFirst | app/media_planner.py:68-73 | The first preferred id that names a candidate decides, and there is none only if no id names one |
| MediaPlanner.VramWithinBudget | app/media_planner.py:407-412 | A ready plan's estimate is base and LoRAs plus its most expensive stage, and is within any budget that is not zero |
| MediaPlanner.ReadyMeetsRequirements | app/media_planner.py:279-315 | Each required tag and feature, the operation and the identity mechanism of a ready plan comes from the preset or from a resource selected with it, and the adapter runs the operation |
| MediaPlanner.DomainsAccounted | app/media_planner.py:366-425 | A preset is credited with exactly the wanted domains that it or a resource selected with it has, and the others are reported missing |
| MediaPlanner.WinnerIsBest | app/media_planner.py:141-149 | Without a preference that applies no other candidate covers more wanted domains, has a higher priority at equal coverage, or needs less memory at equal priority |
| MediaPlanner.WorkflowIsBest | app/media_planner.py:486-506 | The workflow chosen is a compatible one that runs the operation, and none of those covers more missing features, or as many with a higher priority |
| MediaPlanner.PickIsBest | app/media_planner.py:553-571 | The LoRA picked may fill the slot and adds something, and no other one that may adds more, or as much with a higher priority, or as much with equal priority for less memory |
| MediaPlanner.PlanIgnoresOrder | app/media_planner.py:85-159 | A ready plan with its winner, resources and estimate does not depend on the order in which presets and resources are enumerated |
| MediaPlanner.PickWorkflow | app/media_planner.py:486-506 | The loop and sort choose the compatible workflow of the operation that is first by feature overlap, priority, name and id |
| MediaPlanner.PickLora | app/media_planner.py:542-571 | The loop and sort choose the contributing LoRA that is first by contribution, priority, cost, name and id |
| MediaPlanner.FillOpenSlots | app/media_planner.py:509-578 | The nested loops with their early return fill the slots as specified |
| MediaPlanner.ResolveDeclared | app/media_planner.py:429-454 | The loop resolves the stages and names each reason for a missing one |
| MediaPlanner.BuildMediaPlan | app/media_planner.py:85-230 | The loop over presets splits candidates from rejected ones and builds the specified plan |
| MediaPlanner.SlotsAreFilled | app/media_planner.py:509-578 | The slot filler leaves nothing undone: every slot has its maximum, unless the limit on all LoRAs is reached or no LoRA that fits the slot contributes anything any more |
| MediaPlanner.SlotsAreFilledGreedily | app/media_planner.py:536-577 | Slots are served in their order, and each LoRA placed was the best one for its slot given those placed before it |
| MediaPlanner.PresetIsFilled | app/media_planner.py:366-378 | The same of every candidate: its LoRAs are the fixed ones and, beside them, distinct others that fit their slots, and every slot is filled as far as the limit allows and anything in the catalog adds to what was asked |
| MediaPlanner.WorkflowIs | app/media_planner.py:252-267 | A candidate's workflow is the one its preset names, or else, if the preset leaves it open, the best compatible one for the features the base lacks, or else none |
| MediaPlanner.PassesIff | app/media_planner.py:318-426 | A preset is a candidate exactly if it is enabled and of the kind, its base is a model whose provider is installed and whose backend is reachable, every workflow, LoRA and stage it names is there, what was asked is supplied and can be run, and the estimate is within a budget that is not zero |
| MediaPlanner.ReadyRuns | app/media_planner.py:457-483 | A ready edit runs on the local backend with a workflow, a ready generation on a known adapter; and an identity mechanism that the preset does not declare is provided by a workflow of the plan that controls identity |
| MediaPlanner.ReasonsSay | app/media_planner.py:279-315 | The reasons given for a rejected preset are the true ones: each is given exactly if it applies, and names exactly the tags and features that are missing |
| MediaPlanner.BlockedLists | app/media_planner.py:102-138 | A blocked plan lists rejected presets with their reasons, at most twenty, and all of them if there are fewer |
| MediaPlanner.PreferencesDecide | app/media_planner.py:53-82 | The task model's choice, the persona's and the measured one decide in this order, each by the first of its ids that names a candidate, and only if no earlier one names any |
| ContextPolicy.ClipWithin | app/context_service.py:55-64 | A clipped text re-estimates to no more than was asked for, or 20 tokens if less was asked for |
| ContextPolicy.ClipWithinIff | app/context_service.py:55-64 | That promise without the exception holds for every text exactly if at least 20 tokens are asked for |
| ContextPolicy.ClipShape | app/context_service.py:61-64 | A clipped text is a beginning and an end of the original around the marker |
| ContextPolicy.BudgetConserved | app/context_policy.py:52-61 | Prompt budget, output and reserve make up the window, and each has its share |
| ContextPolicy.TooSmallIff | app/context_service.py:239-261 | A window is large enough whatever output is asked for exactly from 1535 tokens on |
| ContextPolicy.NeverTooSmallUncapped | app/context_service.py:755-776 | Without a provider cap the window is never too small, whatever the settings |
| ContextPolicy.OutputIsGranted | app/context_service.py:239-261 | The output asked for is granted up to half the window, and at least one token |
| ContextPolicy.WindowIsFirstSetting | app/context_service.py:755-776 | The first setting that is given decides the window, within 2048 and 262144 tokens, an unparsable one means the default, and the provider's own limit caps it |
| ContextHistory.GroupsCut | app/context_service.py:727-731 | The turn groups are the history cut at its user messages, and nothing is lost |
| ContextHistory.KeptIsLongest | app/context_service.py:732-740 | The groups kept are the longest run of newest groups within the budget |
| ContextHistory.SelectedFits | app/context_service.py:724-749 | The history selected costs no more than the room given |
| ContextHistory.SelectedAreWholeTurns | app/context_service.py:724-749 | What is selected is the longest run of whole newest turns that fits, or the newest turn clipped if not even that fits |
| ContextHistory.SelectTurns | app/context_service.py:724-749 | The loops over messages and groups select as specified |
| ContextHistory.BuildGroups | app/context_service.py:727-731 | The loop builds the turn groups |
| ContextHistory.PassShortens | app/context_service.py:584-612 | Each successful pass takes at least one message, leaves a shorter suffix and never takes one of the recent messages |
| ContextHistory.ChunkIsLongest | app/context_service.py:585-593 | One pass takes a first message whatever it costs and further ones exactly while they fit the chunk budget |
| ContextHistory.CompactSound | app/context_service.py:562-615 | Compaction ends within the pass limit with a suffix of the history; every message is at or before the summary's last message or in the tail; the recent messages stay; and only a failure or the limits leave it too long |
| ContextHistory.TakeChunk | app/context_service.py:585-593 | The loop takes at least one eligible message and then as many as the chunk budget holds |
| ContextHistory.CompactIfNeeded | app/context_service.py:562-615 | The while loop, with its three ways out, compacts as specified |
| ContextHistory.ClippedNewestIs | app/context_service.py:742-747 | A newest turn that does not fit is kept with every content clipped to its share of the budget, at least 24 tokens, if that fits, and left out otherwise |
| ContextHistory.ChunkTakes | app/context_service.py:584-593 | One pass takes the oldest messages not yet summarised, at least one, none of the recent ones, and as many as fit the chunk budget beside the summary so far |
| ContextHistory.ChunkEmptyIff | app/context_service.py:584-595 | There is nothing to summarise exactly if no message lies before the recent ones or no recent ones are kept |
| ContextHistory.CompactReports | app/context_service.py:562-615 | Compaction makes exactly the passes that are due, all successful, and stops at the first number of passes after which none is due or the next does not succeed: cancelled exactly if that one is, degraded by a failed summary exactly if that one fails, and by the limits exactly if the tail is still too long and the passes are used up or no recent messages are kept; the last pass's content, clipped, is the summary's |
| ContextMemory.SelectedMemories | app/context_service.py:677-722 | Included and omitted make up what was retrieved; no two kept memories have equal normalised text, none is blank or in the transcript, each supersedes its duplicates, their cost is within the allowance, and whatever else was a candidate would not have fitted beside them |
| ContextMemory.SelectSavedMemories | app/context_service.py:677-722 | The loops with their running counters select and count as specified, and the final sort changes nothing |
| ContextMemory.BestCopyIsKept | app/context_service.py:677-697 | Of memories with equal normalised text the one kept is of the highest scope, then the newest, then the one with the greatest id, and it is neither blank nor in the transcript |
| ContextMemory.SelectionOrder | app/context_service.py:698-722 | The selection is in retrieval order, equal ranks by scope, then newest first, then by id |
| ContextMemory.OmittedDidNotFit | app/context_service.py:707-714 | Memories are taken greedily: if no copy of a useful memory is selected, the best copy would have exceeded the allowance together with those selected that come before it |
| ContextPlan.YieldedIsLeast | app/context_service.py:340-370 | The sections dropped are the shortest prefix of the yield order, restricted to the sections present, that restores the history floor, or all of them |
| ContextPlan.FitKeepsAll | app/context_service.py:313-338 | The trim loop never removes a message: what was selected for the room left fits, or there was no room for the sections at all |
| ContextPlan.FloorMakesRoom | app/context_service.py:357-370 | With some history, dropping sections leaves room whenever the protected part alone fits |
| ContextPlan.PlanSound | app/context_service.py:132-237 | Every plan returned is estimated within its prompt budget, which with output and reserve makes up the window; its messages are sections, selected history and current message; and included and omitted add up for messages and memories |
| ContextPlan.ProtectedIntact | app/context_service.py:162-209 | The system message of a plan begins with all protected sections, and its last message is the current one |
| ContextPlan.CannotFitIff | app/context_service.py:332-337 | The error that the saved context cannot fit is raised exactly if compaction left no history and the optional sections exceed the budget; with some history it is unreachable |
| ContextPlan.CannotFitHappens | app/context_service.py:313-338 | Whatever the policy, there is a request without history that fails for a single character of lore and succeeds without it |
| ContextPlan.FitMessages | app/context_service.py:326-338 | The loop trims from the front as specified and returns an estimate within the budget, or refuses |
| ContextPlan.ProtectHistoryFloor | app/context_service.py:357-370 | The loop drops one present section after another in the fixed order as specified |
| ContextPlan.SectionsAreShown | app/context_service.py:263-311 | What is not dropped is inside the system message: examples and lore as they are, every memory counted as included, and the summary that the plan names, clipped to its share; a dropped summary is not named and dropped memories are not counted |
| ContextPlan.YieldsForHistory | app/context_service.py:340-370 | Nothing yields without history; otherwise the shortest run of summary, memory, lore and examples, of those present, that leaves history its share of the prompt budget, or all of them |
| ContextPlan.PlanErrors | app/context_service.py:132-261 | The errors, each exactly when: a window that leaves the prompt less than 512 tokens; a cancelled compaction, run on the trigger's share of the prompt budget in chunks of half of it, at least 256 tokens; and protected instructions with the current message that exceed the budget by themselves |
| ContextPlan.ShareIsCut | app/context_service.py:180 | A share of the budget is the exact product cut toward zero |

## Left out

- PersonaOutput: `casefold` is any function from one character to a text; folding that depends on neighbouring characters is not modelled. `safe_persona_output_text`, which replaces an emptied reply, is left out.
- PersonaOutput: that the output is free of markers is not claimed, because a stray closing marker at depth 0 is removed and the text around it can join to a new marker.
- JobQueue: lane snapshots, queue positions, the normalisation of worker counts and the results and errors handed to waiters. A worker whose choice raises ends its thread, which is a worker that makes no further step; an exception of the callback on selection, which would end it too, is not modelled.
- JobQueue.BoundedOvertaking: says nothing about time, only about the number of selections, as the code makes no promise about how long a job runs.
- Scheduling: the answers of the admission check, which come from the resource coordinator, are inputs; the coordinator itself is not modelled.
- JobService: events published to subscribers, metrics, the progress text written while a job waits for admission, and `wait` with its time limit. Exceptions that are not ordinary ones, which end a worker thread, are not modelled.
- JobService: `fail_unsubmitted`, with which a caller fails a job that it could not submit, is the transaction `FailTx` without a turn and no step of the service.
- Rejection by the resource coordinator is modelled for jobs without a turn only; `TurnlessFailureIff` says exactly what happens to a turn otherwise.
- Capability: planning itself, argument parsing, idempotency keys, redaction of messages and the time stamps of requests.
- Capability.CapabilityStore.SyncAttachment: does not model the additional frames, the identity state, the error text and the time stamps of the attachment, because no other operation modelled here reads them.
- Recovery: the identity validation, scene backlog, session and task-run rows that the same start-up also updates, and the texts written into a recovered result.
- Identity: the provider, the pictures' files and digests, and the validation of profile values. Approved references of equal age are taken in stored order, which the query leaves open.
- MediaPlanner: the explanation texts and execution options of a ready plan; lists stored as JSON are sets and names are given casefolded.
- Context: ratios are exact fractions, so the rounding of floating-point products, in the reserve and in the shares, is not modelled; the selection of example dialogue and lore, which arrive as texts, and the labels of the protected sections.
- HTTP routes, provider clients, the repository layer, media normalisation, secrets and observability: no part of this model.
