# Verified models of LMDJ's control plane

This project models, in Dafny 4.11, the parts of the LMDJ repository that hold its hardest state, and proves what they
promise over every input, every run and every reachable state.

**The crash-safe batch scheduler.** A journal is a chain of issue comments plus one checkpoint cell. `Chain.dfy` is the
chain and its verification, `Protocol.dfy` the protocol as atomic steps (intent, POST, landing now, later or never,
commit, operator clear), `Journal.dfy` the client that works on a store whose every change is recorded as a legal step.
`Scopes.dfy` and `Workloads.dfy` are the selections a request freezes. `Scheduler.dfy` is the event-sourced reducer, with
its loops in place; `SchedulerMeaning.dfy` says of each event exactly when it is accepted and what it leaves;
`SchedulerRuns.dfy`, `SchedulerHistory.dfy` and `SchedulerSafety.dfy` prove what any replayed log implies. `Controller.dfy`
composes journal and reducer: one locked transaction that may hand out one execution. `SchedulerFleet.dfy` lets any number
of such processes take turns with crashes, operator clears and late landings.

**The report outbox.** `Outbox.dfy` is a second reducer over the same journal, `OutboxMeaning.dfy` what each of its events
asks and leaves, `OutboxRuns.dfy` its invariants over whole logs, `OutboxClient.dfy` the process that POSTs, comments and
closes behind durable claims, `OutboxFleet.dfy` whole runs of such processes.

**The Cardputer transfer protocol.** `Frames.dfy` is the codec, `Scanner.dfy` the resynchronising scanner that edits its
buffer in place, `Staging.dfy` and `Receiver.dfy` the staging receiver as specification and as array, `Session.dfy` the
request sequencing, `Sender.dfy` the sender and the theorem from sender to sink.

**Three decision cores.** `Inventory.dfy` and `ChangeScope.dfy` classify a change into CI lanes and `ChangeMeaning.dfy` says
which lanes, mode and reasons those are, `Elastic.dfy` decides runner capacity, `CppScope.dfy` lexes C++ scopes.

## How it is stated

What the source updates in place is a class or a method with loops, tied by its `ensures` to a function or a relation on
values; run theorems are about those. An operation that the source ends with an exception returns `Failure`. What the
source reads from outside (network pages, lost answers, clocks, run states, Git) is a parameter, and a theorem holds for
every answer that meets the assumptions below. A crash is a method that stops at any failing call:
`Controllers.Controller.Valid` and `OutboxClient.Client.Valid` hold after every call, failed or not, and
`SchedulerFleet.Serve` and `OutboxFleet.Serve` carry them over every interleaving of calls, landings and operator clears.

Assumptions, each a precondition or a shape of the model:

- the journal digest is a free constructor, so it never collides; comments are only appended;
- `Faithful`: a read's pages hold every stored comment once and in order, over any number of pages, and its writer check
  passes genuine comments only; anyone may write other comments;
- one lock holder acts at a time, and a checkpoint write takes effect during the call or never;
- `Agrees`: a policy that an archive authenticates is the one recorded at that revision, and `Usable`: the policy read for
  admission is the one the archive returns for the control revision;
- main ancestry is any reflexive, transitive relation; that the cursor follows the tip also needs a truthful ancestor port;
- the outbox's events are written by outbox clients of one epoch.

## Where the code falls short of its promise

- A session's `abort` can never succeed: `abort_transfer` compares the wire request with the one that began the transfer,
  and the session has always moved past it (`Sessions.AbortNeverSucceeds`, with a run in `Sessions.AbortWitness`).
- `classify` accepts a self-test skip together with a nonempty inventory and then fails its own validator; it meets its
  validator exactly otherwise (`ChangeScope.ClassifyMeetsItsValidator`, `ChangeScope.SkipWithInventoryFails`). For a
  historical policy it also looks up jobs a retired lane need not have (`ChangeScope.RetiredLaneFails`).
- A queued report that a newer one of its bucket has overtaken is answered "stale" without an event, so it stays in front,
  and every drain stops at it: reports behind it are never reached (`OutboxClient.StarvationWitness`,
  `OutboxFleet.DrainRepeatedly`). A drain gets past the first queued report exactly when it is not overtaken
  (`OutboxClient.Client.DrainOnce`).
- `load_config` checks elastic indices but not names for repetition; a repeated name counts twice for each observation
  and is scaled in early (`Elastic.PatientExactlyWhen`, `Elastic.RepeatedNameIsHasty`).

## Model

| member | source | states |
|---|---|---|
| Chain.HeadFixesChain | scripts/ci/incremental_batch_journal.py:123-142 | a chain of records is complete and ends at a head exactly when it is the one history that head stands for; two logs with one head are equal |
| Chain.VerifyMeans | scripts/ci/incremental_batch_journal.py:123-142 | verification succeeds exactly on fresh, never edited, distinct comments that continue the chain and, past the trusted prefix, pass the writer check; what it returns is that chain, its head and its identities |
| Chain.VerifyAppend | scripts/ci/incremental_batch_journal.py:144-170 | verifying page after page is verifying everything at once, however the comments are split |
| Chain.VerifyComments | scripts/ci/incremental_batch_journal.py:123-142 | the one-comment-at-a-time loop computes that verification |
| Protocol.HistoriesNeverFork | scripts/ci/incremental_batch_journal.py:248-393 | over every run of intents, POSTs that land now, later or never, commits, operator clears and comments of anyone else: committed history only grows at its end, comments are only appended, event identities stay distinct |
| Protocol.AnchoredStep | scripts/ci/incremental_batch_journal.py:100-104 | each single step keeps the checkpoint sound and the committed history a prefix of the next |
| Protocol.TidyWithoutLateLandings | scripts/ci/incremental_batch_journal.py:248-275 | as long as no POST lands after its intent was cleared and nobody else comments, the comments are the committed chain or that chain and exactly the pending record |
| Protocol.TidyIsReadable | scripts/ci/incremental_batch_journal.py:232-247 | a tidy journal fails to load exactly while its pending record has not landed |
| Protocol.AlwaysRooted | scripts/ci/incremental_batch_journal.py:248-275 | over every run, strays included, the stored comments begin with exactly the committed chain |
| Protocol.LateLandingBlocks | scripts/ci/incremental_batch_journal.py:327-363 | in every reachable journal a stray record, of a dropped POST or of someone else, leaves the journal loadable exactly when the very same record is pending and still missing; otherwise it only blocks |
| Protocol.TwoStraysBlockForGood | scripts/ci/incremental_batch_journal.py:248-275 | once two records stand beyond the committed chain, no load or commit that starts afterwards succeeds any more |
| Protocol.LandingsCommute | scripts/ci/incremental_batch_journal.py:100-104 | a record that lands between an operation's reads and its overwrite of the cell leaves the same world as one that lands right after it, so taking an operation's read and write in one step loses no run |
| Protocol.OnePostPerIntent | scripts/ci/incremental_batch_journal.py:365-393 | between any two POSTs of a run a new intent was written, so no intent is POSTed twice |
| Journals.ReadComplete | scripts/ci/incremental_batch_journal.py:144-170 | reading pages in a loop verifies their concatenation, counting down the trusted prefix |
| Journals.ReadDelta | scripts/ci/incremental_batch_journal.py:172-206 | a delta read verifies only what follows the cache, and refuses when the reported inventory total does not fit |
| Journals.CachedReadsAgree | scripts/ci/incremental_batch_journal.py:172-206 | whatever the transport returns to either, a cached read and a complete read that reach the same head return the same history |
| Journals.DeltaEqualsFullRead | scripts/ci/incremental_batch_journal.py:172-206 | over append-only comments a delta read succeeds exactly when a complete read does, and equals it, for any page split |
| Journals.LoadVerdict | scripts/ci/incremental_batch_journal.py:248-275 | the checks a load makes on the chain it read hold exactly when the stored comments are the committed chain and the pending record, if any |
| Journals.Store.Replace | scripts/ci/incremental_batch_journal.py:100-104 | overwriting the cell takes effect or does not, and a lost answer is reported as failure either way; the stored world stays the outcome of a legal run |
| Journals.Store.Append | scripts/ci/incremental_batch_journal.py:55-56 | one POST of the pending intent: issued or not, landing or not, answered or not, and counted once exactly when issued |
| Journals.Store.Land | scripts/ci/incremental_batch_journal.py:365-370 | a POST already issued lands between two calls |
| Journals.Store.LandLate | scripts/ci/incremental_batch_journal.py:327-335 | a POST lands although its intent was dropped |
| Journals.Store.Intrude | scripts/ci/incremental_batch_journal.py:66-74 | anybody may comment at any time, with any record |
| Journals.Store.CommittedIsGenuine | scripts/ci/incremental_batch_journal.py:123-142 | every committed record stands at its own place among the comments, and the comment there is genuine, whatever a persisted prefix or a cache skipped |
| Journals.Store.AppendsAreDurable | scripts/ci/incremental_batch_journal.py:365-393 | what a successful append returned is in every later successful load, at its place and under no other identity |
| Journals.Journal.Read | scripts/ci/incremental_batch_journal.py:208-223 | every comment beyond the anchored history passes this read's own writer check, and every comment of a returned history is genuine; with authentic writers a read succeeds exactly on a linked chain |
| Journals.Journal.Fetch | scripts/ci/incremental_batch_journal.py:208-223 | the cache is used exactly while the anchor names the verified head and the reading has a cursor, and then the result extends it; otherwise the persisted prefix skips writer checks exactly up to its count, and only if it names the committed head |
| Journals.Journal.PayloadIsGood | scripts/ci/incremental_batch_journal.py:225-230 | a prefix persisted from this process always names the head it was read up to and the length of that history |
| Journals.Journal.PeekPending | scripts/ci/incremental_batch_journal.py:232-246 | the tail peek passes exactly when the newest comment is the unedited pending record that extends the head |
| Journals.Journal.Load | scripts/ci/incremental_batch_journal.py:248-275 | a load succeeds exactly when it is locked and trusted, the comments are as they should be and a needed commit goes through; it commits a visible pending record, returns the committed history, all of it genuine, never changes a comment, and POSTs nothing |
| Journals.Journal.Append | scripts/ci/incremental_batch_journal.py:365-393 | success means the event is in the committed history once, all of that history is genuine, nothing is pending, and earlier history is intact; re-appending is a no-op; a conflicting identity is refused; failure leaves at most this one event intended; at most one POST is issued, and none for a committed event; with nothing going wrong it succeeds |
| Journals.Journal.Intend | scripts/ci/incremental_batch_journal.py:379-387 | the intent is in the cell before any POST |
| Journals.Journal.Post | scripts/ci/incremental_batch_journal.py:387-389 | exactly one POST is issued if the intent is known to be written and the POST goes out, and none otherwise |
| Journals.Journal.ReconcilePending | scripts/ci/incremental_batch_journal.py:327-363 | with authentic writers an operator clear succeeds exactly when the named intent is pending and a complete read proves it absent; committed history does not change, and success means every comment read is genuine |
| Journals.Journal.PersistVerified | scripts/ci/incremental_batch_journal.py:277-300 | upgrading the anchor changes neither history nor the pending intent, and records this head with its exact length |
| Journals.Journal.ReadCommitted | scripts/ci/incremental_batch_journal.py:302-325 | without the lock: whatever writers did since the anchor was peeked, success returns exactly the history committed at the peek and means every comment is genuine; with authentic writers it succeeds exactly while the comments are that history or that history and the record pending then |
| Journals.Store.NeverForks | scripts/ci/incremental_batch_journal.py:232-275 | whatever history the store had committed at any earlier moment is a prefix of what it has committed now |
| Scopes.CanonicalIsUnique | scripts/ci/test_scope.py:201-205 | a sorted list without repetition is determined by its elements |
| Scopes.ExactMeans | scripts/ci/test_scope.py:201-205 | which selections are canonical: sorted, known suites, and a kind that agrees with them |
| Scopes.ClosureIsLeast | scripts/ci/test_scope.py:208-215 | the dependency closure is the smallest closed set around the selected suites |
| Scopes.DependencyClosure | scripts/ci/test_scope.py:208-215 | the fixed-point loop terminates and computes that closure |
| Scopes.UnionMeans | scripts/ci/test_scope.py:265-277 | a union keeps every selected suite, is canonical and closed, adds nothing closedness does not force, and is idempotent |
| Scopes.UnionOfOne | scripts/ci/test_scope.py:265-277 | a single selection is its own union exactly when it is canonical and closed |
| Scopes.UnionSucceeds | scripts/ci/test_scope.py:265-277 | with a well-formed policy a union refuses exactly the inputs that are not canonical |
| Scheduler.RebuildsMeans | scripts/ci/incremental_batch.py:137-146 | a stored request rebuilds to itself exactly when its selection is canonical and, unless it is a retry, closed, its scope fits its kind, and its workload or retry proof fits its suites |
| Scheduler.MadeRequestsRebuild | scripts/ci/incremental_batch.py:92-128 | a request made with a bounded explanation rebuilds to itself when read back without the bound |
| Scheduler.SettleOutcomes | scripts/ci/incremental_batch.py:298-308 | working the outcomes in one suite at a time opens a debt for every unverified suite, with one attempt more than before, pays the debt of every suite verified in full, and leaves every other suite alone |
| Scheduler.ResumeSuites | scripts/ci/incremental_batch.py:314-316 | resuming resets exactly the named suites |
| Scheduler.AdvanceInPlace | scripts/ci/incremental_batch.py:289-309 | the in-place advance is the transition that AdvanceMeans describes suite by suite |
| Scheduler.Apply | scripts/ci/incremental_batch.py:178-330 | the in-place reducer is the function that the run theorems and the event-by-event meanings are about: exact replays change nothing, stale epochs and generations are refused |
| SchedulerRuns.AppliedAgain | scripts/ci/incremental_batch.py:191-193 | an applied event is a no-op in every later state; its identity with other content is refused |
| SchedulerHistory.DebtStep | scripts/ci/incremental_batch.py:298-318 | a debt disappears exactly through a full-workload passed or failed result of an advanced automatic batch; only a resume naming the suite lifts a pause |
| SchedulerHistory.AdmissionCarriesDebt | scripts/ci/incremental_batch.py:167-175 | an automatic batch contains every unpaused debt, at full workload |
| SchedulerHistory.NothingIsRewritten | scripts/ci/incremental_batch.py:286-288 | no event rewrites a request or a result |
| SchedulerSafety.RepeatsVanish | scripts/ci/incremental_batch.py:186-196 | folding a log with repeated events equals folding it without them, and the generation counts the distinct ones |
| SchedulerSafety.QueueIsConserved | scripts/ci/incremental_batch.py:206-240 | explicit requests admitted so far, then the queue, are the distinct enqueued identities in enqueue order; each is admitted once; no automatic batch overtakes a waiting one |
| SchedulerSafety.CursorTilesHistory | scripts/ci/incremental_batch.py:296-309 | the advanced automatic batches tile history without a gap from nothing to the cursor, the first and only the first a bootstrap; explicit requests never move it |
| SchedulerSafety.CursorFollowsTip | scripts/ci/incremental_batch.py:198-205 | with true ancestry assertions the cursor is an ancestor of the observed tip and every automatic interval runs forward |
| SchedulerSafety.BatchesDoNotOverlap | scripts/ci/incremental_batch.py:222-256 | one heavy batch at a time, finished in admission order |
| SchedulerSafety.AdmissionsAreAuthorized | scripts/ci/incremental_batch.py:216-228 | every admission was made unblocked, on complete history and a verified base, and before the first cursor only with old runs terminal |
| SchedulerSafety.ResultsAreFaithful | scripts/ci/incremental_batch.py:265-288 | every recorded result is for an admitted request, from its executor, and says something permitted of exactly the selected suites |
| SchedulerSafety.CandidatesAreRetriedOnce | scripts/ci/incremental_batch.py:149-164 | no candidate has two retries, and a retry covers exactly what its candidate did not pass, at the same target and policy |
| SchedulerSafety.DebtsArePaced | scripts/ci/incremental_batch.py:300-303 | a debt is paused exactly from its second attempt on |
| SchedulerSafety.DebtIsNeverLost | scripts/ci/incremental_batch.py:298-305 | however a log goes on, a debt that is gone was cleared on the way by a full-workload result |
| SchedulerSafety.RecordsStand | scripts/ci/incremental_batch.py:286-288 | however a log goes on, requests and results stand |
| SchedulerSafety.SpentForEver | scripts/ci/incremental_batch.py:257-264 | a request that was admitted and claimed, or whose batch is over, can never be claimed anew |
| SchedulerSafety.WaitingFits | scripts/ci/incremental_batch.py:206-240 | whatever waits in the queue of a replayed log is an explicit request that rebuilds under the policy it froze, so it can still be admitted |
| SchedulerSafety.ClaimedAtMostOnce | scripts/ci/incremental_batch.py:257-264 | over a whole log every request is claimed for the first time at most once |
| SchedulerMeaning.AdvanceMeans | scripts/ci/incremental_batch.py:289-309 | advancing needs the recorded result of the active batch; an automatic one moves the cursor, owes each blocked, cancelled, infrastructure or missing suite for this target and result with one attempt more (paused from the second on), forgets each other suite run in full, and notes each failure once in suite order; an explicit one only ends |
| SchedulerMeaning.UnverifiedIsOwed | scripts/ci/incremental_batch.py:289-309 | in any log, a suite that an automatic batch leaves unverified is owed from its advance on until a full-workload result clears it |
| SchedulerMeaning.LossVerifiesNothing | scripts/ci/incremental_batch.py:131-134 | a lost run reports every selected suite missing, or deferred where that was frozen; advancing on it clears no debt, notes no failure and owes every suite that was not deferred |
| SchedulerMeaning.LossIsAccepted | scripts/ci/incremental_batch.py:265-288 | such a loss of the claimed run is always an acceptable result while none is recorded |
| SchedulerMeaning.ReportMeans | scripts/ci/incremental_batch.py:265-288 | a result is accepted exactly from the claimed run of the active batch, terminal, with a reference, saying of each selected suite and no other what its frozen workload permits, and never differently from before |
| SchedulerMeaning.ObserveMeans | scripts/ci/incremental_batch.py:198-205 | a tip is observed exactly when it is a full lower-case commit identity that descends from the last one |
| SchedulerMeaning.ClaimMeans | scripts/ci/incremental_batch.py:257-264 | only the admitted executor claims the active batch, once or again |
| SchedulerMeaning.EnqueueMeans | scripts/ci/incremental_batch.py:206-215 | an explicit request is queued exactly when it is well made, new or the very same, and, for a retry, explained |
| SchedulerMeaning.RetriableMeans | scripts/ci/incremental_batch.py:149-164 | a retry needs an unretried candidate of its target and policy with a recorded result, covers exactly what did not pass, and repeats each outcome |
| SchedulerMeaning.ExplanationMeans | scripts/ci/incremental_batch.py:65-89 | a retry explains each selected suite: a missing verification without jobs, or a failure whose jobs were all timed out or cancelled |
| SchedulerMeaning.ExplicitAdmissionMeans | scripts/ci/incremental_batch.py:216-236 | an explicit request is admitted exactly from the front of the queue, with nothing active or blocked and complete, verified observations |
| SchedulerMeaning.AutomaticAdmissionMeans | scripts/ci/incremental_batch.py:216-256 | an automatic batch is admitted exactly when nothing waits, it runs from the cursor to the observed tip (the same one only after a resume), and it selects every unpaused debt at full workload |
| SchedulerMeaning.ResumeMeans | scripts/ci/incremental_batch.py:310-318 | a resume with a reason resets exactly the named, owed suites and lets an unchanged tip be verified again |
| SchedulerMeaning.BlockMeans | scripts/ci/incremental_batch.py:319-326 | blocking needs a reason and a remedy, unblocking a reconciliation |
| Controllers.IntactStays | scripts/ci/batch_controller.py:210-219 | anything that only commits or drops what was intended, by any process, keeps the journal replayable and every handed-out execution spent |
| Controllers.NextReplays | scripts/ci/batch_controller.py:198-219 | reducing an event that carries the state's fence is what the journal replays to once it is committed |
| Controllers.FenceWorks | scripts/ci/batch_controller.py:210-219 | as long as no applied event has taken the name of a fence still to come, the reducer does with a fenced event whatever it would do with its data |
| Controllers.NextBatchMeans | scripts/ci/batch_controller.py:339-367 | queued requests come first under their recorded policy; an automatic batch runs from the cursor to the newest tip; a held release tip makes it wait |
| Controllers.AutomaticRunsDebt | scripts/ci/batch_controller.py:339-367 | the automatic batch that is made selects every executable debt and gives it full workload |
| Controllers.AutomaticCovers | scripts/ci/batch_controller.py:339-367 | the automatic batch covers what was asked for (every suite of the policy at first, none for an unchanged tip, else what the interval port returned) and every executable debt, closed under dependencies, and nothing that closedness does not force |
| Controllers.WorkloadIsAsked | scripts/ci/batch_controller.py:352-363 | its frozen workload is what the verification port answered for the interval, raised to full for executable debt |
| Controllers.NothingTaken | scripts/ci/batch_controller.py:342-350 | nothing is admitted exactly when nothing waits and the tip is the cursor without a resume; it waits exactly for a release tip that no candidate result has lifted; a failing release port admits nothing |
| Controllers.ChosenIsAdmissible | scripts/ci/batch_controller.py:339-382 | what the controller makes of its observations is what the reducer admits |
| Controllers.ReconstructMeans | scripts/ci/batch_controller.py:198-208 | a journal replays under the epoch of its first event, an empty one under the configured epoch, and never under another |
| Controllers.Controller.Rebuild | scripts/ci/batch_controller.py:198-208 | the replay loop folds the reducer with each request judged by the policy it froze |
| Controllers.Controller.Submit | scripts/ci/batch_controller.py:215-219 | an event is adopted only when the journal's own history replays to the validated transition |
| Controllers.Controller.Persist | scripts/ci/batch_controller.py:210-219 | a persisted event was validated, fenced, new and committed; a failure leaves at most that event behind; on a readable journal with nothing going wrong, whatever the reducer accepts is persisted |
| Controllers.Controller.ClaimActive | scripts/ci/batch_controller.py:377-382 | an execution is handed out only behind its own committed first claim, and never for a request handed out before |
| Controllers.Controller.FindReceipt | scripts/ci/batch_controller.py:241-252 | an unclaimed batch is claimed for its own executor, and success then means lost; otherwise nothing is written, a batch without suites needs no evidence, and any other answer is the authenticated result of that request and executor; with nothing going wrong the claim of an unclaimed batch succeeds |
| Controllers.Controller.RecordOutcome | scripts/ci/batch_controller.py:250-262 | a recorded result repeats the authenticated outcomes of the active request and its executor, or says of every selected suite that it is missing (deferred where that was frozen) when the loss is authenticated or was just proven by the missing claim; only the claim and the results of that batch change; with evidence at hand and nothing going wrong it is recorded |
| Controllers.Controller.WriteReport | scripts/ci/batch_controller.py:250-262 | the result that is written is backed by the authenticated receipt or by the loss of that very run, and with nothing going wrong a complete one is recorded |
| Controllers.Controller.SettleTerminal | scripts/ci/batch_controller.py:240-264 | a terminal batch whose evidence is at hand is recorded and advanced: unverified suites are owed, verified ones paid, and the batch is over |
| Controllers.Controller.SettleActive | scripts/ci/batch_controller.py:224-264 | the active batch is settled only when the run it was admitted into is terminal, and executed only when this live run owns its unclaimed admission and execution is allowed; a settled batch leaves its result, its debts and its cursor as the result says; with evidence at hand and nothing going wrong it is settled |
| Controllers.Controller.ObserveTip | scripts/ci/batch_controller.py:304-307 | afterwards the observed tip is the newest one, and it is the first, the same, or one the ancestor port affirmed |
| Controllers.Controller.ResumeOnce | scripts/ci/batch_controller.py:313-325 | a resume command already in the loaded history changes nothing |
| Controllers.Controller.ObeyCommands | scripts/ci/batch_controller.py:308-325 | an explicit request is stored as given |
| Controllers.Controller.AdmitAndClaim | scripts/ci/batch_controller.py:368-382 | the chosen batch is admitted only into this live run, with verified target and base and, before the first cursor, the old-runs port saying terminal, and claimed in the same call; an execution handed out is of that batch |
| Controllers.Controller.AdmitNext | scripts/ci/batch_controller.py:339-382 | an execution handed out is of the batch the state and the observations choose; a chosen batch, automatic or waiting, that is permitted and admissible is, with nothing going wrong, the one handed out |
| Controllers.Controller.AdmitNewest | scripts/ci/batch_controller.py:330-382 | admission re-reads the tip at its boundary and decides on that |
| Controllers.Controller.Open | scripts/ci/batch_controller.py:298-303 | the call starts from the loaded, replayed history |
| Controllers.Controller.Reconcile | scripts/ci/batch_controller.py:288-382 | at most one execution a call, after this call committed its claim, never for a request handed out before by any controller; every event it writes is justified, where it stands in the log, by the observations of that very batch, tip and request; either nothing changes or everything pending before is committed; with a readable journal, working surroundings, nothing active or blocked and a permitted request in front of the queue, exactly that request is executed; holds with any crash, lost answer or re-entry |
| Controllers.Controller.Proceed | scripts/ci/batch_controller.py:304-382 | the same from the opened journal on: tip, commands, settlement, admission |
| Controllers.Controller.Decide | scripts/ci/batch_controller.py:326-382 | settlement first, and admission only when nothing is active, nothing is blocked and the call may execute |
| Controllers.CallsStayHonest | scripts/ci/batch_controller.py:300-307 | with a truthful ancestor port, everything a call writes keeps the ancestry assertions of the log true |
| SchedulerFleet.ClaimIsFirst | scripts/ci/batch_controller.py:377-382 | the claim behind an execution is the first claim of its request in the whole committed log |
| SchedulerFleet.BackedOnce | scripts/ci/batch_controller.py:377-382 | executions that stand behind distinct first claims match those claims one to one |
| SchedulerFleet.HonestTip | scripts/ci/batch_controller.py:300-307 | over a committed log with true ancestry assertions the cursor leads to the newest observed tip |
| SchedulerFleet.Fleet.Tick | scripts/ci/batch_controller.py:288-382 | one call of one process among any number on the journal: caches of the others stay good, an execution handed out joins the record behind its own first claim, ancestry stays true under a truthful port |
| SchedulerFleet.Fleet.Take | scripts/ci/batch_controller.py:288-382 | any turn (start, call, operator clear, landing, somebody's comment, lock-free glance and read) keeps all of that |
| SchedulerFleet.Fleet.Glance | scripts/ci/incremental_batch_journal.py:80-98 | a reader without the lock keeps the anchor together with the moment of the run it was peeked at |
| SchedulerFleet.Fleet.ReadOn | scripts/ci/incremental_batch_journal.py:302-325 | whatever turns came in between, a reader that glanced earlier gets exactly the history committed at its glance, all of it genuine |
| SchedulerFleet.Serve | scripts/ci/batch_controller.py:288-382 | from an empty journal through any turns of any processes and anyone's comments: what is committed replays and was written by genuine writers, each execution stands directly behind the only first claim of its request, no request is executed twice, and with true ancestry answers the cursor leads to the tip |
| OutboxRuns.DeliveryStep | scripts/ci/report_outbox.py:190-244 | claims, clears, status, frozen content and receipts of every delivery agree after every event |
| OutboxRuns.RowStep | scripts/ci/report_outbox.py:273-333 | recoveries only move forward, and a close claim follows an exact receipt of a claimed comment |
| OutboxRuns.ReplayIsSound | scripts/ci/report_outbox.py:350-356 | every log the journal can return replays to a sound outbox state |
| OutboxRuns.NothingIsUndone | scripts/ci/report_outbox.py:152-338 | however a log goes on, frozen reports, delivered receipts, buckets, failure order and recovery progress stand |
| OutboxRuns.ClaimsAreBounded | scripts/ci/report_outbox.py:194-210 | a report's POST is claimed at most once more than claims on it were cleared |
| OutboxRuns.OneIssuePerBucket | scripts/ci/report_outbox.py:211-228 | delivered reports of one bucket are in one issue, and each claim carries exactly its frozen report |
| OutboxMeaning.QueueMeans | scripts/ci/report_outbox.py:176-189 | a report is queued exactly under its own identity with the same frozen payload, and never behind a newer one of its bucket, and becomes the latest of it |
| OutboxMeaning.ClaimMeans | scripts/ci/report_outbox.py:194-210 | a queued report is claimed exactly for a new issue while its bucket is unknown, or for a comment on the bucket, with its frozen text |
| OutboxMeaning.ReceiptMeans | scripts/ci/report_outbox.py:211-228 | an acknowledgement or delivery is accepted exactly for the claimed kind and target, the acknowledged write and the known bucket, and fixes the bucket |
| OutboxMeaning.RefusalMeans | scripts/ci/report_outbox.py:229-244 | a claimed write is refused exactly by a client error, and cleared exactly by naming what was claimed, with a reason |
| OutboxMeaning.RecoveryMeans | scripts/ci/report_outbox.py:245-272 | a recovery is queued exactly for the issue and body of a delivered managed report of its bucket |
| OutboxMeaning.RowMeans | scripts/ci/report_outbox.py:273-333 | the way of a recovery, event by event: comment claimed, answered, seen, then close claimed, answered, seen; given up exactly before the close is claimed |
| OutboxClient.EveryWriteIsFenced | scripts/ci/report_outbox.py:736-760 | whatever crashed, got lost or was repeated: POSTs of a report are at most its committed claims and these at most 1 + its clears; each POST stands at its own claim in the log, in a replayed state where no other report is unresolved; one comment and one close per recovery, each at its own claim, the close in a replayed state with the comment receipt and above the latest failure and the causal floor |
| OutboxClient.IntactWithout | scripts/ci/report_outbox.py:373-387 | environment steps and loads keep that accounting |
| OutboxClient.FenceCases | scripts/ci/report_outbox.py:373-383 | how a journal can relate to a process after uncertain attempts to append one event |
| OutboxClient.FenceWorks | scripts/ci/report_outbox.py:373-383 | the fence of a journal's own log is always a new name, so the reducer does with a fenced event whatever it would do with its data |
| OutboxClient.Client.Rebuild | scripts/ci/report_outbox.py:350-356 | the replay loop folds the reducer |
| OutboxClient.Client.Load | scripts/ci/report_outbox.py:358-371 | state is published only after replay, and with persistence on only once the anchor carries the exact verified prefix of that history |
| OutboxClient.Client.Persist | scripts/ci/report_outbox.py:373-387 | an adopted event was validated and committed; a failed write leaves the process state as it was, and may be tried again without losing count; in a current process with nothing going wrong, whatever the reducer accepts is persisted |
| OutboxClient.Client.FindReceipt | scripts/ci/report_outbox.py:389-413 | a visible receipt counts only in the known bucket, as the acknowledged write, of the claimed kind and target; one that matches is returned |
| OutboxClient.Client.Issue | scripts/ci/report_outbox.py:742-752 | the POST is issued exactly when the call saw its claim committed, and only for a queued report; with nothing going wrong the only write the report allows is issued |
| OutboxClient.Client.IssueClose | scripts/ci/report_outbox.py:542-556 | the PATCH is issued exactly when the call saw its close claim committed, and only for a delivered comment |
| OutboxClient.Client.Post | scripts/ci/report_outbox.py:742-760 | at most one POST, at the position of its newly committed claim of a queued report; every other report and every other write stands as it was |
| OutboxClient.Client.Resolve | scripts/ci/report_outbox.py:609-616 | one unresolved write is settled by its visible receipt or left exactly as it is; a refusal is never settled; with nothing going wrong a visible receipt that fits settles it and fixes the bucket |
| OutboxClient.Client.ResolveAll | scripts/ci/report_outbox.py:608-620 | the scan finishes only when no write is unresolved, and with nothing going wrong it finishes if the receipt of each such write is visible |
| OutboxClient.Client.Recover | scripts/ci/report_outbox.py:605-620 | ready means no report is claimed, acknowledged or refused; unresolved writes are at most settled, and everything queued stands; with nothing going wrong it is ready if each receipt is visible |
| OutboxClient.Client.RunAdapter | scripts/ci/report_outbox.py:692-696 | any number of proxy calls with any outcomes issue at most one POST; if the first goes through, its receipt is on record whatever is called afterwards |
| OutboxClient.Client.Attempt | scripts/ci/report_outbox.py:692-700 | a report counts as delivered only by its visible receipt, recorded; an adapter that lands and a receipt that shows are enough |
| OutboxClient.Client.Finish | scripts/ci/report_outbox.py:690-700 | the write is attempted only once no other write is unresolved |
| OutboxClient.Client.Deliver | scripts/ci/report_outbox.py:673-700 | at most one POST, of this report only, and delivered means recorded with the returned receipt; the answer is stale exactly for a report that a newer one of its bucket outruns, and then nothing is sent or queued; a deliverable report with working surroundings arrives with the receipt of its write |
| OutboxClient.Client.ClearAbsent | scripts/ci/report_outbox.py:647-661 | a claim returns to the queue only when its POST is proven absent, and the clear is counted; with nothing going wrong a proven absence clears it |
| OutboxClient.Client.ReconcileClaim | scripts/ci/report_outbox.py:622-671 | an audited settlement posts nothing, clears only what is absent and binds only the live receipt; an audit that the live state confirms succeeds with nothing going wrong |
| OutboxClient.Client.PostRecoveryComment | scripts/ci/report_outbox.py:505-519 | a recovery comment is posted once, behind its claim |
| OutboxClient.Client.CommentPhase | scripts/ci/report_outbox.py:498-526 | the comment counts as delivered only with the receipt of the second, independent read on record; a claimed one is never posted again; with nothing going wrong an unseen one is posted and a visible one delivered |
| OutboxClient.Client.ClosePhase | scripts/ci/report_outbox.py:537-566 | a close is claimed and PATCHed once, only while the recovery is newer than the latest failure and the floor; closed means the exact closed issue was seen afterwards; an untouched managed issue is closed, with nothing going wrong |
| OutboxClient.Client.AnswerClose | scripts/ci/report_outbox.py:548-566 | a close PATCH that is answered exactly and then seen closed, with nothing going wrong, closes the bucket |
| OutboxClient.Client.FinishClose | scripts/ci/report_outbox.py:477-489 | a bucket is closed only when the exact closed issue is visible, and the answer names that issue; with nothing going wrong a visible close finishes |
| OutboxClient.Client.ReconcileRecovery | scripts/ci/report_outbox.py:466-566 | a recovery is given up exactly for a newer failure or floor, and abandoned only for an issue no longer managed; otherwise, with nothing going wrong and answering ports, it closes its bucket from waiting, comment-delivered or close-claimed, with exactly one comment and one close where they were still due; never more than one of each, and no report POST; a close once claimed is never repeated |
| OutboxClient.Client.CarryForward | scripts/ci/report_outbox.py:498-566 | comment first, then the close: superseded exactly while a newer failure or floor owns the bucket, closed with nothing going wrong while none does, with exactly one close |
| OutboxClient.Client.Supersede | scripts/ci/report_outbox.py:527-535 | giving a recovery up to a newer failure is recorded as stale |
| OutboxClient.Client.FindBucket | scripts/ci/report_outbox.py:581-584 | the bucket is a delivered report of that management key, if there is one |
| OutboxClient.Client.ReserveRecovery | scripts/ci/report_outbox.py:572-602 | an overtaken success is refused without a write, and only an overtaken one; an ineligible bucket ends the recovery durably; with an open managed issue of a delivered report and nothing going wrong it is reserved |
| OutboxClient.Client.Reserve | scripts/ci/report_outbox.py:587-602 | the reservation is for the issue and body of a delivered managed report of the bucket, and waits; with nothing going wrong a well-formed one is made |
| OutboxClient.Client.RecoverSuccess | scripts/ci/report_outbox.py:568-603 | a newly authenticated success that is the newest of its key, whose managed issue is open and untouched, closes its bucket with exactly one comment and one close, with nothing going wrong; it is given up only for a newer failure or floor; the same write bounds |
| OutboxClient.Client.SelectActive | scripts/ci/report_outbox.py:707-714 | for each bucket key the unfinished recovery of greatest causal order is chosen |
| OutboxClient.Client.ReconcileActive | scripts/ci/report_outbox.py:715-721 | reconciling the chosen recoveries issues no report POST |
| OutboxClient.Client.DrainOnce | scripts/ci/report_outbox.py:702-726 | one drain issues at most one report POST; it attempts the first report that is still queued and gets past it exactly when that report is not outrun: then it arrives, otherwise the answer is stale and everything queued stands |
| OutboxClient.Client.ResumeFirst | scripts/ci/report_outbox.py:722-726 | the drain's last step: the first queued report, and no other, is attempted |
| OutboxClient.QueueStands | scripts/ci/report_outbox.py:605-620 | settling writes and carrying recoveries forward change nothing about which report is first in the queue or whether it is outrun |
| OutboxClient.OutrunForEver | scripts/ci/report_outbox.py:677-682 | a report that is outrun stays outrun, however the log goes on |
| OutboxClient.StarvationWitness | scripts/ci/report_outbox.py:722-726 | three queueings of a concrete log after which the first report is outrun and two deliverable ones wait behind it |
| OutboxFleet.DrainRepeatedly | scripts/ci/report_outbox.py:702-726 | on such a queue any number of drains posts nothing and leaves everything queued |
| OutboxFleet.Fleet.Run | scripts/ci/report_outbox.py:568-726 | one operation of one process among any number on the journal: what was sent stays on record and grows by that operation's bounds; the caches of the others stay good |
| OutboxFleet.Fleet.Take | scripts/ci/report_outbox.py:568-726 | any turn (start, operation, operator clear, landing, somebody's comment) keeps the accounting |
| OutboxFleet.Serve | scripts/ci/report_outbox.py:568-760 | from an empty journal through any turns of any processes and anyone's comments, every report, comment and close ever sent is fenced as EveryWriteIsFenced says, and every committed record was written by a genuine writer |
| Bytes.UnpackPack | scripts/cardputer-transfer.py:257-259 | little-endian fields of fixed width read back what was packed |
| Bytes.PackUnpack | scripts/cardputer-transfer.py:267 | and every byte string is the packing of what it reads as |
| Frames.DecodeAfterEncode | scripts/cardputer-transfer.py:249-275 | every admissible frame decodes from its encoding |
| Frames.EncodeAfterDecode | scripts/cardputer-transfer.py:262-275 | every accepted byte string is the encoding of the frame it decodes to |
| Frames.DecodeInvertsEncode | scripts/cardputer-transfer.py:249-275 | a byte string decodes to a frame exactly when it is that frame's encoding |
| Frames.WireLayout | scripts/cardputer-transfer.py:257-260 | an encoded frame byte by byte: LMCP, version 1, opcode, little-endian length and request, nonce, payload, little-endian CRC of all before it |
| Frames.AdmissibleMeans | scripts/cardputer-transfer.py:249-256 | encoding succeeds exactly on version 1, the twelve opcodes, a positive u32 request, a 16-byte nonce and at most 1024 payload bytes |
| Scanner.VerdictsAreStable | scripts/cardputer-transfer.py:286-304 | a prefix judged dead or complete is judged the same whatever bytes follow |
| Scanner.PopSplit | scripts/cardputer-transfer.py:278-304 | more bytes never change a popped frame, and popping after waiting equals popping everything at once |
| Scanner.PopBounds | scripts/cardputer-transfer.py:278-304 | whenever nothing is returned fewer than MAX_FRAME bytes stay buffered, and a pop consumes |
| Scanner.PopIsFirst | scripts/cardputer-transfer.py:278-304 | a pop returns the frame at the first position where one starts: every position before it starts no frame whatever bytes follow |
| Scanner.NoiseIsSkipped | scripts/cardputer-transfer.py:281-287 | bytes that cannot start a magic never change what is popped |
| Scanner.ChunkingInvariance | scripts/cardputer-transfer.py:278-304 | any cutting of a stream into chunks yields the same frames and the same rest |
| Scanner.EncodedFramesPopBack | scripts/cardputer-transfer.py:278-304 | a concatenation of encoded frames pops back in order |
| Scanner.SkipToMagic | scripts/cardputer-transfer.py:281-287 | jumping to the next magic skips only bytes no frame can start at |
| Scanner.ResponseBuffer.Extend | scripts/cardputer-transfer.py:356-359 | reading appends to the buffer |
| Scanner.ResponseBuffer.PopResponse | scripts/cardputer-transfer.py:278-304 | the in-place scanner, with its deletions, computes the pop and leaves its rest |
| Scanner.ReceiveResponse | scripts/cardputer-transfer.py:346-367 | the read loop returns the first frame of the stream, however it arrives |
| Staging.StagingOnlyGrows | scripts/cardputer-transfer.py:95-126 | under any DATA calls of either kind staged bytes are never lost or changed; a call that is not accepted changes nothing at all, and an accepted one makes its chunk the end of what is staged |
| Staging.SlicesStageAPrefix | scripts/cardputer-transfer.py:95-126 | if every chunk is a slice of one content, what is staged is a prefix of that content and a chunk is rejected exactly when a gap precedes it |
| Staging.DeliveriesAreChecked | scripts/cardputer-transfer.py:66-169 | over any calls of any kind, everything handed to the sink is complete, within the device's limit, and has the digest its BEGIN declared |
| Staging.CompleteCommit | scripts/cardputer-transfer.py:128-142 | a complete commit ends the transaction; content with another digest than declared is rejected and reaches no sink, and content with the declared one reaches it once, as staged |
| Staging.BeginMeans | scripts/cardputer-transfer.py:66-93 | a begin opens exactly a well-formed, fitting transfer on an idle device; the same one again is a duplicate, any other a rejection |
| Staging.DataMeans | scripts/cardputer-transfer.py:95-113 | data for the open request is refused without effect exactly on a gap, past the declared length or against a staged byte; a chunk that only repeats is a duplicate; otherwise exactly what is new of it is appended |
| Staging.DataTransferMeans | scripts/cardputer-transfer.py:115-126 | a transfer is fed by its name with chunks that are not empty, and accepted data alone moves its clock |
| Staging.EndMeans | scripts/cardputer-transfer.py:128-158 | nothing but the open transaction is committed or aborted, by its request or its transfer, and incomplete content stays open |
| Staging.ExpiryMeans | scripts/cardputer-transfer.py:163-169 | exactly five seconds without progress clear an identified transfer |
| Receivers.Receiver.constructor | scripts/cardputer-transfer.py:49-60 | a new receiver is idle |
| Receivers.Receiver.Begin | scripts/cardputer-transfer.py:66-77 | begin over a fixed array meets its specification: limits, duplicate, conflict |
| Receivers.Receiver.BeginTransfer | scripts/cardputer-transfer.py:79-93 | the identified begin, likewise |
| Receivers.Receiver.Data | scripts/cardputer-transfer.py:95-113 | overlap, duplicate, conflict and gap over the array in place, as specified |
| Receivers.OverlapVerdict | scripts/cardputer-transfer.py:102-107 | comparing the overlap bytewise decides agreement with what is staged |
| Receivers.Receiver.DataTransfer | scripts/cardputer-transfer.py:115-126 | the identified data call, with its progress clock |
| Receivers.Receiver.Commit | scripts/cardputer-transfer.py:128-142 | only complete content with the declared digest reaches the sink, exactly once; the transaction is cleared in every finishing case, a digest mismatch included |
| Receivers.Receiver.CommitTransfer | scripts/cardputer-transfer.py:144-147 | the identified commit |
| Receivers.Receiver.Abort | scripts/cardputer-transfer.py:149-153 | abort by transaction handle |
| Receivers.Receiver.AbortTransfer | scripts/cardputer-transfer.py:155-158 | the identified abort |
| Receivers.Receiver.Expire | scripts/cardputer-transfer.py:163-169 | five seconds without progress clear the transaction |
| Sessions.AdmittedAreConsecutive | scripts/cardputer-transfer.py:192-197 | between greetings admitted request identities are consecutive and end at the last u32, so no frame is served twice |
| Sessions.NewIsChecked | apps/cardputer-host/main/usb_transfer_endpoint.cpp:174-310 | over every run of arrivals from a new session, everything handed to the sink has the declared length and digest and fits the device |
| Sessions.GreetingMeans | scripts/cardputer-transfer.py:181-190 | a greeting is accepted exactly as request 1 with an empty payload, a zero nonce and a usable candidate |
| Sessions.RequestMeans | scripts/cardputer-transfer.py:192-197 | any other frame is let through exactly as the next request of the current nonce, and uses it up |
| Sessions.AbortNeverSucceeds | scripts/cardputer-transfer.py:214-216 | in every run no request is answered as aborted: abort compares the wire request with BEGIN's, which the session has passed |
| Sessions.AuthorizedAbortFails | scripts/cardputer-transfer.py:214-216 | an authorized ABORT that names the open transfer uses up its request identity, is rejected and aborts nothing |
| Sessions.AbortWitness | scripts/cardputer-transfer.py:155-158 | such an ABORT occurs in a run from a new session: greet, begin, abort |
| Sessions.Session.Hello | scripts/cardputer-transfer.py:181-190 | greeting drops the transaction and starts a fresh nonce at request 2 |
| Sessions.Session.Authorize | scripts/cardputer-transfer.py:192-197 | exactly the next request of the current nonce is authorized |
| Sessions.Session.HandleFrame | apps/cardputer-host/main/usb_transfer_endpoint.cpp:174-272 | each opcode reaches its session call; malformed payloads, STATUS and a BEGIN on an unarmed host do not |
| Sessions.Session.ServeAll | apps/cardputer-host/main/usb_transfer_endpoint.cpp:274-310 | serving arrivals one after another is the run the session theorems are about |
| Sender.ContentFrames | scripts/cardputer-transfer.py:222-246 | the sender succeeds exactly on inputs within its bounds and returns the encoded BEGIN, DATA and COMMIT frames |
| Sender.SendableMeans | scripts/cardputer-transfer.py:222-246 | the bounds: a positive request, a 16-byte nonce, chunks of at most 1000 bytes, a usable transfer identity, and content whose last frame still has a u32 request |
| Sender.SenderFramesAreAdmissible | scripts/cardputer-transfer.py:222-246 | all frames it builds are encodable |
| Sender.EndToEnd | scripts/cardputer-transfer.py:199-246 | for every content that fits and every legal chunk size the sink receives exactly that content once, and the answers say so |
| Sender.AlteredContentIsRefused | scripts/cardputer-transfer.py:128-246 | if the chunks that arrive are of other content of the same length, every frame is accepted up to the commit, which is rejected; nothing is delivered and the device is idle again |
| Sender.OverTheWire | scripts/cardputer-transfer.py:222-304 | the same when the byte stream is cut anywhere and scanned back into frames |
| Inventory.ParseInvertsListing | scripts/ci/change_scope.py:133-171 | the listing parser returns an inventory exactly on the listing of that valid inventory |
| Inventory.ParseNameStatus | scripts/ci/change_scope.py:133-171 | the position loop computes that parse, old paths of renames and repeated paths included |
| ChangeMeaning.StatusMeans | scripts/ci/change_scope.py:121-130 | a status is A, D, M or T, or C or R with at most three digits that say at most a hundred |
| ChangeMeaning.InventoryMeans | scripts/ci/change_scope.py:522-533 | an inventory is sound exactly when each record is a known change with its one or two paths, each relative and canonical, and no path is named twice |
| ChangeMeaning.RelativeMeans | scripts/ci/change_scope.py:112-117 | a path is canonical exactly when it is parts between slashes, none of them empty, a dot or two dots, with no backslash |
| ChangeMeaning.TopLevelMeans | scripts/ci/change_scope.py:437-439 | the top level is what stands before the first slash |
| ChangeScope.LanesAndHits | scripts/ci/change_scope.py:441-449 | the rule loops collect every matching rule |
| ChangeScope.EvaluateReadyPaths | scripts/ci/change_scope.py:404-458 | the path loop gives the lane union and every reason that forces full |
| ChangeMeaning.PathMeans | scripts/ci/change_scope.py:404-449 | a path escalates exactly when its top level is unknown, no rule gives it a lane, or a full rule covers it and it is not spared; only the inert policy data is always spared, and the scope policy after a preserving edit |
| ChangeMeaning.PathsMean | scripts/ci/change_scope.py:404-458 | paths force full exactly when one escalates or together they touch three expensive families |
| ChangeScope.ClassifyChange | scripts/ci/change_scope.py:475-625 | the imperative classification is the manifest the properties are about |
| ChangeScope.BuildManifest | scripts/ci/change_scope.py:534-623 | growing and overriding the reason sets step by step gives that manifest |
| ChangeScope.EveryLaneForcesFull | scripts/ci/change_scope.py:451-457 | selecting every lane activates all four expensive families and so forces full; focused never selects every lane |
| ChangeScope.ClassifyMeetsItsValidator | scripts/ci/change_scope.py:475-711 | on valid policy and inputs classification passes its own validator exactly when it is not a self-test skip with a nonempty inventory, and, for a historical policy, no lane without jobs is enabled |
| ChangeMeaning.AcceptableMeans | scripts/ci/change_scope.py:508-582 | what classification accepts: exact commits, a sound inventory, and each option only for its event |
| ChangeMeaning.ClassifyMeans | scripts/ci/change_scope.py:475-625 | under a valid policy, exactly which inputs give a manifest, and which mode, lanes and jobs it then has |
| ChangeMeaning.ValidatorMeans | scripts/ci/change_scope.py:628-711 | the validator accepts exactly the manifests whose lanes, mode, jobs and commits agree with the policy and, for a focused one, whose inventory asks for exactly its lanes and nothing wider |
| ChangeMeaning.ReasonsMean | scripts/ci/change_scope.py:539-624 | a full manifest has a reason and names the label, the force or the unverifiable base; a focused one has none; a skip, a request and a draft say so |
| ChangeScope.SkipWithInventoryFails | scripts/ci/change_scope.py:574-588 | a concrete accepted input that the validator then refuses |
| ChangeScope.RetiredLaneFails | scripts/ci/change_scope.py:607-610 | a concrete historical policy with a retired lane without jobs, under which a scheduled run is accepted input and fails |
| ChangeScope.LowerIsNormal | scripts/ci/change_scope.py:106-109 | a normalised commit identity is valid, in lower case and normal, and spellings that differ in case alone become one |
| ChangeScope.MoreFilesMoreLanes | scripts/ci/change_scope.py:595-599 | outside draft, requested and skip modes, adding changed files never removes a lane and never leaves full mode |
| ChangeScope.EditIsPreserving | scripts/ci/change_scope.py:364-394 | a policy edit is preserving exactly when there is a tracked inventory, lanes, jobs, families, draft lanes and service levels are equal, and every tracked path routes as before |
| ChangeScope.PreservingEditKeepsRouting | scripts/ci/change_scope.py:364-394 | after a preserving edit any change to tracked paths selects the same lanes for the same reasons |
| Elastic.Account | scripts/ci/elastic_runner.py:276-294 | the accounting loops count each configured entry once |
| Elastic.Decide | scripts/ci/elastic_runner.py:257-398 | exactly one decision a tick, scale-in before scale-out before heartbeat, none on an invalid observation |
| Elastic.ScaleInIsPatient | scripts/ci/elastic_runner.py:296-319 | with distinct elastic names a scale-in follows the required consecutive valid idle observations and never stops a worker |
| Elastic.PatientExactlyWhen | scripts/ci/elastic_runner.py:290-304 | that patience holds for every run exactly when no elastic name is configured twice or one observation is enough |
| Elastic.RepeatedNameIsHasty | scripts/ci/elastic_runner.py:144-158 | a name configured twice is scaled in after fewer observations than required |
| Elastic.ScaleOutIsJustified | scripts/ci/elastic_runner.py:321-369 | a scale-out follows the required consecutive all-busy observations, below the ceiling, with no core job and room for one more job |
| Elastic.ScaleOutExactly | scripts/ci/elastic_runner.py:321-369 | a scale-out is decided exactly when all active services have worked for the required observations, a service is stopped, and ceiling, cooldown, core jobs and resources admit one more; it starts a stopped service of least index |
| Elastic.ScaleInExactly | scripts/ci/elastic_runner.py:296-319 | a scale-in is decided exactly when a service has been idle enough, and stops one of greatest index |
| Elastic.HeartbeatExactly | scripts/ci/elastic_runner.py:371-398 | a heartbeat is decided exactly when nothing is scaled and a service is due, and it is one of least index |
| Elastic.ScaleOutHappens | scripts/ci/elastic_runner.py:321-369 | over every run: enough all-busy observations since the last scale-out, with room, do start a service |
| Elastic.ScaleInHappens | scripts/ci/elastic_runner.py:296-319 | over every run: a service idle for the required observations makes its tick a scale-in |
| Elastic.SightingsMean | scripts/ci/elastic_runner.py:276-294 | a trusted observation records exactly when each elastic service was last seen running |
| Elastic.ScaleOutsAreApart | scripts/ci/elastic_runner.py:333-338 | successive scale-outs are at least the cooldown apart |
| CppScope.Sanitize | scripts/version.py:364-425 | the lexer loop succeeds exactly on sources that are sequences of plain characters, line comments up to the newline, block comments up to the first close, and quoted literals up to the first unescaped quote, with no raw literal; it keeps every plain character and every newline and blanks every other character |
| CppScope.SanitizeMeans | scripts/version.py:364-425 | such a reading of a source exists exactly when lexing succeeds, and every such reading gives the same result |
| CppScope.SanitizeIsIdempotent | scripts/version.py:364-425 | sanitizing an accepted source again changes nothing |
| CppScope.BraceDepths | scripts/version.py:428-442 | accepts exactly the balanced sources, and the depth at each position is opens minus closes |
| CppScope.FindClosing | scripts/version.py:466-478 | the search for the end of the namespace always finds the brace that matches its opening one |
| CppScope.MatchIsUnique | scripts/version.py:466-476 | a brace has at most one match |
| CppScope.DirectlyInside | scripts/version.py:488-492 | a position of the block is at depth one exactly when every brace before it in the block is matched |

## Left out

- SHA-256 of content and CRC-32 are parameters of the theorems, and nothing is assumed of them except the digest length.
- Pagination cursors and their loop checks, page and checkpoint schema checks: a page list stands for a finished read.
- JSON encoding, schema closure, exception wording, and the text of reasons, markers and report bodies.
- Markers, key shapes and the length budgets of frozen reports and recoveries: a recovery's identity is its own digest.
- Legacy frozen reports that lack the later optional fields; the model starts from their normalised form.
- `bounded_reasons` is a parameter of request construction: any bound on the explanation rebuilds.
- `classify_release_commit`, Git queries, run-state and result APIs, and interval selection are ports of the controller.
- Iteration order of journalled dictionaries is their sorted key order, as the journal stores them.
- Event identities of the scheduler are not assumed distinct; its fence makes them so, and only the outbox reads meaning into them.
- The rest of policy validation in Change Scope and of configuration loading in the elastic controller: only what routing and decisions use is stated.
- UTF-8 decoding of change listings: fields are text.
- Floating point: load, pressure and time are real numbers.
- The regular expressions that find the namespace and the declaration, and everything else in the version script.
- Expiry and disarming between frames, and the widths of legacy integers in the device code.
- Landings between two reads of one locked operation, which are reads of the later state; a landing between its reads and its write is covered by `Protocol.LandingsCommute`.
- The heartbeat's reporting and the grace re-check of the elastic adapter.
- Daily workload selection, verdict judging, Cloudflare budgets, review input parsing and the documentation site: they keep no state between calls and none of the protocols above depends on them.
- Controllers.Controller.Reconcile: states progress for a queued explicit request; that of an automatic batch depends on what the interval and release ports answer and is stated of Controllers.Controller.AdmitNext.
- OutboxFleet.Serve: all processes are configured with one epoch, because a process with another epoch fails to replay any log that is not empty.
- Sessions.Session.HandleFrame: does not state the payloads of answers (status, offsets, identities), because the receiver's state does not depend on them.
- ChangeScope.ClassifyMeetsItsValidator: does not state Python type checks (closed keys, labels and reasons being strings), because the model is typed.
- OutboxClient.Client.Deliver: treats the report adapter as any sequence of proxy calls, because its body is foreign code.
