# LunAstra: protocols and algorithms, proved

LunAstra coordinates one root agent and helpers around a local SQLite store. This project models its protocols and
algorithms in Dafny and proves what they promise over every input, every run and every reachable state.

`dafny verify dfyconfig.toml` checks everything.

## How it is built

Where the program updates tables in place, a class has those tables as fields and a method per operation. Each method is
proved against a function on a `State` value, and the promises over whole runs are lemmas about those functions.
`Run(Initial(..), cs)` is the state after any list of commands `cs`; a refused command changes nothing. The classes of
the crew, its observer, the queue and the ledger keep a ghost `history` of the commands carried out, and `Valid()` says
that their tables are what that history leads to (`Traces`, `CrewPromises.LeadsIsRun`). What a method promises beyond
its own step is drawn from that history (`CrewPromises`). When an observer of the second protocol shares a crew's
tables, the history is the observer's.

* **Fixed crew** (`Crew`, `CrewTables`; proofs in `CrewInv`, `CrewCalls`, `CrewWaits`, `CrewBudget`, `CrewCertificate`,
  `CrewProgress`, `CrewReach`, `CrewRaces`, `CrewTurns`, `CrewPromises`): rounds of six tasks, reservations, native
  dispatches and their answers, refusals proven from transcripts and their retries, waits, bounded recovery, worker
  reports, and the phases PLAN, EXECUTE, REVIEW, COMPLETE, for wire protocol V1. When each command goes through and what
  it does then is stated once more without the functions that define it, in `CrewReports`, `CrewStatuses`,
  `CrewSchedule`, `CrewAnswers`, `CrewRecovery` and `CrewRounds`. A ticket is named by its plan and slot, because the
  program issues one fresh identifier per task and round. The `dispatches` sequence joins the tables crew_calls and
  dispatches in insertion order. `log` is a history of reviews, reports and certificates that no command reads.
* **Second wire protocol's observations** (`NativeFlow`, `NativeStatuses`, `NativeTables`): mailbox wakes and agent
  lists over the same crew tables.
* **Research queue** (`Queue`, `QueueTruth`, `QueueClaims`, `ResearchQueue`, `Wake`) with its graph checks (`Trie`,
  `Kahn`, `Graph`, `Paths`).
* **Check evidence** (`Ledger`, `LedgerTruth`, `Batch`, `Evidence`): the attempt ledger, its claims, and batches with
  reuse. The crew's root evidence is such a ledger.
* **Store** (`Store`): nested transactions and the schema cache. **Transcript receipts** (`Receipts`, `Transcripts`):
  the resumable scan, and what it answers told from the lines of the transcript alone.
* **Supporting algorithms**: workspace fingerprints (`Files`), the form of texts and the budget of work capsules
  (`Texts`, `Capsules`), plan validation (`Plans`, `PlanDfs`), the reservation scheduler (`Team`, `Work`), the quoting
  codec (`Codec`, `CodecGrammar`), reverse reachability (`CodeMap`), the lease table (`Leases`).

Hashes are replaced by the values they stand for, so they are injective; UUIDs are fresh; time is dropped; the file
system is a map from paths to contents that is a parameter of each command. `Env` holds what a command finds outside the
tables: whether the request is still the contract's, whether checks run, the root's files, the checkouts of writers, the
root's evidence. A native answer, a probe result, what the machine shows to a check and a parsed transcript line are
parameters. Texts are taken as `team.text` returns them, stripped; the built-in lenses of a round are named by their
number, and their sizes are those of their texts. A worker's session key is a hash of its agent, so the agent stands for
it.

## Findings

* `_signal` counts the jobs and looks for a ready one in two reads outside a transaction. A claim that commits in
  between makes the wake-up DEPENDENCY_BLOCKED false: `Wake.BlockedCanBeFalse` is a reachable queue where it is sent
  while the first job runs and the second waits for that one only. `Wake.BlockedIsExact` says that such a claim is
  exactly what it takes. QUEUE_DRAINED rests on the count alone and is true of it.
* `Codec.HelperCommandRoundTrip` is exact: the Windows form of an empty vector, or of one with a NUL, is refused by the
  parser; every other vector comes back. The legacy parser of install.py accepts the empty vector too, and refuses
  whatever makes its command longer than 65536 (`Codec.LegacyRoundTrip`).
* The output trie treats the part "." like any other name, while `overlaps` takes the path "." to touch everything. The
  two tests disagree exactly on the root and a path below it (`Paths.OnlyTheRootDiffers`); outputs are paths below it
  (`Trie.DisjointIsPairwise`).
* SQLite's `LIKE 'tool:%'` ignores ASCII case, Python's `startswith('tool:')` does not; the lease model keeps both, and
  reconciliation stays within its bounds because a token must also name a recorded edit event.
* `post_dispatch` marks a row running without looking at its state, and a handback rewrites the state of every dispatch
  of its ticket, refused ones included. Neither does harm: in every run a row with an open dispatch is reserved or
  running, and refusals are counted by their own records (`CrewInv.LiveIsActive`, `CrewCalls.RunIsLater`).
* crew-complete checks its guards before the transaction that commits it, and the transaction compares only the plan.
  Its certificate is backed all the same, whatever commits in between (`CrewRaces.LateFinishIsCertified`).
* A handback names no turn. The stop of an earlier turn that arrives after a recovery was sent returns the row and
  closes the new call: its answer is then ignored, its agent cannot join, and the recovery is spent
  (`CrewTurns.EarlierStopSpendsRecovery`). A taken stop does so exactly when dispatches were added since its turn began
  and one of them is open (`CrewTurns.HandbackIsExact`).
* A review is never without something to cite: the root's checks pass only if they depend on existing files, and the
  review freezes those (`CrewReach.SomethingToCite`).
* The corrupt-index refusal in `_claim` is never taken in a reachable queue (`ResearchQueue.IndexIsExact`).

## Model

| member | source | states |
|---|---|---|
| Crew.FindCall | luna_astra/crew.py:486-490 | a call found has the ID asked for, and none found means no recorded call has it, so replays are told from new calls |
| Crew.SlotOf | luna_astra/flow.py:69-73 | a slot found carries the agent in the current round, and none found means no row of the round carries it |
| CrewInv.NoRivalSpawn | luna_astra/crew.py:491-500 | when the guards of a spawn hold, every earlier spawn of the slot was refused and retried |
| CrewInv.AnswerCases | luna_astra/crew.py:506-543 | an answer is ignored, leaves its call unknown, or binds exactly the agent the slot already has or a free one |
| CrewInv.SettledHoldsNothing | luna_astra/crew.py:321-323 | a contract may be replaced only when no spawn still holds an unbound slot |
| CrewInv.ApplyKeeps | luna_astra/crew.py:254-834 | every command keeps the tables consistent: bindings, call identities, live calls, refusals, one spawn per slot |
| CrewInv.ReachableCrew | luna_astra/crew.py:468-542 | those invariants hold after any list of commands |
| CrewCalls.BindingIsForEver | luna_astra/crew.py:535-541 | a bound agent is never replaced in its slot, never sits in a second slot, and is never one bound by another root |
| CrewCalls.RunIsLater | luna_astra/crew.py:480-542 | no run rewrites an asked call, reopens a closed one, forgets a refusal, a wait snapshot, a wait result or an event |
| CrewCalls.RefuseIsLater | luna_astra/native_receipts.py:138-147 | a new refusal never overwrites a standing one |
| CrewCalls.CommandKeepsCalls | luna_astra/crew.py:479-504 | calls are append-only under every command, whatever the state |
| CrewCalls.RunRefuses | luna_astra/native_receipts.py:31-32 | a call counts as refused only if the run reconciled it with a transcript that proves its refusal |
| CrewCalls.RefusalIsOnRecord | luna_astra/native_receipts.py:88-115 | such a proof is a line of that transcript: an output of this very call with the exact text, at a place after one where this or an earlier reading found the call itself |
| CrewCalls.NoSecondSpawn | luna_astra/crew.py:819-834 | of two spawns of one slot in any run, the first was proven refused before it started and its retry was granted |
| CrewWaits.EpochNeverReturns | luna_astra/flow.py:31-32 | the dispatch list of a ticket is equal to an earlier one exactly while no dispatch was added to it |
| CrewWaits.ObserveAllTouches | luna_astra/flow.py:95-124 | a wait result leaves every ticket alone that the wait did not see as it is now |
| CrewWaits.LateResultsAreHarmless | luna_astra/flow.py:62-124 | whatever happened between a wait and its result, a changed ticket is of the same plan and got no dispatch since the wait was issued |
| CrewWaits.ReplayChangesNothing | luna_astra/flow.py:85-88 | after a result was taken, any later result for the same wait changes nothing, whatever happened in between |
| CrewBudget.DispatchWithinBudget | luna_astra/flow.py:297-333 | a dispatch, recovery included, keeps each ticket's dispatches within its recoveries plus one |
| CrewBudget.BoundedRecovery | luna_astra/flow.py:26-27 | in every run a ticket gets at most 1 + MAX_RECOVERIES dispatches besides proven refusals |
| CrewBudget.OneLiveDispatch | luna_astra/crew.py:497-498 | in every run at most one dispatch of a ticket is unanswered or running |
| CrewBudget.ReserveSlotExclusive | luna_astra/crew.py:401-407 | reserving a row never creates two writers with overlapping scopes |
| CrewBudget.WritersNeverClash | luna_astra/crew.py:394-407 | in every reachable plan no two writers that are reserved, running or returned overlap |
| CrewCertificate.SubmitInReview | luna_astra/crew.py:650-655 | a report accepted in review was made while the artifact was as frozen and cites files of it as they were frozen; slots 5 and 6 cover every requirement |
| CrewCertificate.FinishCertifies | luna_astra/crew.py:796-817 | completion is backed by the review that froze the artifact, by root checks that passed on it then and pass on it now with a valid tested claim, and by six clear reports on it since, by six different agents |
| CrewCertificate.RunRecords | luna_astra/crew.py:676-706 | in every run the review in progress and all certificates are backed in that way |
| CrewCertificate.CompleteIsCertified | luna_astra/crew.py:774-817 | a COMPLETE crew has a certificate for the artifact, requirements and six bound agents of its contract, with the review, the passed checks and the reports behind it |
| CrewCertificate.ChecksSawTheArtifact | luna_astra/crew.py:738-771 | passed root checks were decided by attempts that saw exactly the files the fingerprint records, with every path expected absent recorded as absent |
| CrewCertificate.CompletedChecksSawTheArtifact | luna_astra/crew.py:796-817 | so in every run that completes, each root check was decided on the certified artifact itself, at the review and at the end, and the artifact holds a file |
| CrewReports.FiledAsDrafted | luna_astra/crew.py:656-670 | a report that is recorded has the verdict, coverage, cited requirements, cited files and missing paths of the draft, under its author's name, with the cited files as they were |
| CrewReports.TakenExactly | luna_astra/crew.py:606-655 | a report is taken if and only if its author runs its last ticket in the round, what it cites exists within the task, what it misses does not, and in review the artifact is as frozen |
| CrewReports.RecordedReportsAreSubmitted | luna_astra/crew.py:665-669 | in every run each report on record was submitted as it stands, by a command of its author on that ticket |
| CrewReports.CertificateIsSubmitted | luna_astra/crew.py:703-704 | behind every certificate stand six clear submissions of the run, one by each of its agents on its own ticket; those of slots 5 and 6 list every requirement |
| CrewReports.StopIsRecorded | luna_astra/team.py:250-255 | a stop returns a reserved, running or returned row with its status and its agent, not integrated, and closes every call of the ticket; in any other stage it changes nothing |
| CrewReports.DeliveredReports | luna_astra/crew.py:190-196 | a delivery makes the present reports of these slots of the round count as read, and no others |
| CrewProgress.RefusalThenRetry | luna_astra/native_receipts.py:138-148 | a call whose transcript proves its refusal blocks its ticket, and the granted retry lets the same spawn go again |
| CrewProgress.FreshCompletionLands | luna_astra/flow.py:117-124 | a completion seen under the present dispatches returns an active row and closes its dispatches |
| CrewStatuses.EveryStatusCounts | luna_astra/flow.py:95-124 | errored, interrupted, shutdown and not_found fail a reserved, running, returned or accepted row, completed returns an active one, all else is only noted; for every agent a result speaks of |
| CrewStatuses.NothingElseMoves | luna_astra/flow.py:95-110 | a ticket of which no entry speaks, by its agent's own key or as the one internal path, or that the wait did not see as it is, is left alone |
| CrewStatuses.EndedIsIdle | luna_astra/flow.py:123-124 | a row that ends so has no call open |
| CrewStatuses.DeafResult | luna_astra/flow.py:89-94 | an error, a result without statuses, one of an earlier round and one with nothing recognised only finish their wait |
| CrewStatuses.WaitIsIssued | luna_astra/flow.py:52-75 | a wait is issued if and only if it names one to six different agents that have started rows in the round |
| CrewStatuses.IssuedRemembers | luna_astra/flow.py:68-75 | it remembers for each target the one ticket that carries it, with the calls that ticket has now |
| CrewAnswers.ReservedIsSent | luna_astra/crew.py:486-504 | on a reserved row a call goes out if and only if its number is new, no refusal stands, no call is open, a writer has its checkout, and kind and target fit the slot; it is added unanswered |
| CrewAnswers.OtherRowsAreNotSent | luna_astra/crew.py:491-496 | a row that is neither reserved nor returned takes no call |
| CrewAnswers.AnswerIsTaken | luna_astra/crew.py:521-542 | a clear answer seats the agent it acknowledges, runs its row and puts the call in flight, unless a spawned agent belongs to another slot or root |
| CrewAnswers.UnclearIsUnknown | luna_astra/crew.py:521-530 | an error, a spawn's answer without an agent and input without a submission leave the call unknown |
| CrewAnswers.AnswerIsIgnored | luna_astra/crew.py:506-520 | an answer to a call that is unknown, answered or of another round changes nothing |
| CrewAnswers.ForeignIsBound | luna_astra/crew.py:536-538 | another root binds exactly an agent that no slot here has |
| CrewAnswers.TranscriptIsHeard | luna_astra/native_receipts.py:123-165 | the exact refusal of a spawn fails its call and blocks its ticket, every other recorded output is taken as the answer, and without an output nothing changes |
| CrewAnswers.TranscriptIsIgnored | luna_astra/native_receipts.py:138-145 | a transcript of another call, or of one that awaits no answer in the round, changes nothing |
| CrewAnswers.RefusalText | luna_astra/native_receipts.py:31-32 | only the exact text, stripped, proves a refusal before the start |
| CrewAnswers.RetryIsGranted | luna_astra/crew.py:819-834 | a retry is granted if and only if a refusal stands on a reserved row without an agent, a call or a bound slot; it only takes the refusal off the ticket |
| CrewAnswers.JoinIsGranted | luna_astra/crew.py:555-598 | a worker joins if and only if its slot is its own and a call of the ticket is in flight, on an active row; a writer needs its checkout |
| CrewRecovery.RecoveryIsPrepared | luna_astra/flow.py:260-295 | a recovery is prepared if and only if the agent was seen completed under the present calls, the row is returned, one is left, and the handback says nothing or its blocked report went stale; and what the request says |
| CrewRecovery.RecoveryIsSent | luna_astra/flow.py:297-333 | a returned row takes a call if and only if it is the prepared one and what it was prepared for still holds; it is reserved again, counted, and a report to be judged again is withdrawn |
| CrewSchedule.TakenWasReady | luna_astra/crew.py:398-406 | a row leaves pending by crew-next only if every row it waits for is accepted |
| CrewSchedule.ReadyIsTaken | luna_astra/crew.py:401-407 | a pending row of which every dependency is accepted is reserved, unless it writes and a path of another writer that works in the round touches one of its own |
| CrewSchedule.NextReadies | luna_astra/crew.py:408-425 | reserved writers get their checkout, or become proposals where none could be made; nothing else changes |
| CrewSchedule.NextIsRefused | luna_astra/crew.py:388-392 | without an open round crew-next changes nothing |
| CrewSchedule.ReachableIsNamed | luna_astra/crew.py:233-238 | in every run the rows of a round are s1 to s6, so a dependency names a slot |
| CrewRounds.StartIsGranted | luna_astra/crew.py:254-330 | a crew starts if and only if the terms are in order, nothing is sent out or runs, and over an unfinished crew it is a revision |
| CrewRounds.StartBegins | luna_astra/crew.py:300-338 | the contract holds the terms as they are, six fresh rows look into the evidence, and unfinished rows of the crew before are abandoned |
| CrewRounds.WhenOver | luna_astra/crew.py:676-706 | what a transition asks of the six: nothing open, six different agents, reports read, and each row ended by its own agent with checked work and a report that is not blocked |
| CrewRounds.WhenProven | luna_astra/crew.py:738-772 | what a transition asks of the root: the agreed requirements proven check by check, and a check that looks at every output and every changed file |
| CrewRounds.ExecuteIsGranted | luna_astra/crew.py:717-731 | execution or repair goes through if and only if the round is over, the phase fits, and the plan names each slot once and writes only in slots 1 to 4 within the agreed outputs |
| CrewRounds.ExecuteBegins | luna_astra/crew.py:708-736 | its tasks are six fresh rows, and the old ones are accepted; a repair abandons those without checked work, a clear report or integration |
| CrewRounds.ReviewIsGranted | luna_astra/crew.py:774-789 | a review begins if and only if the round is over, the root proves the requirements, and no review of this artifact and task stands |
| CrewRounds.ReviewBegins | luna_astra/crew.py:784-794 | six inspect evidence, outputs and all that checks depend on, frozen as they are, under the root's present task |
| CrewRounds.CompletionIsGranted | luna_astra/crew.py:796-808 | a crew completes if and only if a review of the artifact and task as they are is over with six clear reports and the root's proof stands by a tested claim |
| CrewRounds.CompletionEnds | luna_astra/crew.py:809-817 | its rows are accepted and the contract is complete under the decision; else it is as it was |
| CrewRounds.IntegrationIsGranted | luna_astra/crew.py:848-856 | in execution exactly a writer's row that was handed back as tested, by a worker on its last ticket, is integrated |
| CrewRounds.AcceptanceIsGranted | luna_astra/team.py:257-269 | exactly a returned row with checked work is accepted; a writer's only tested and integrated |
| CrewProgress.RecoveryIsHonoured | luna_astra/flow.py:260-333 | a prepared recovery is authorised while nothing changed: same ticket and agent, one more recovery, a stale report withdrawn |
| CrewReach.TurnWorks | luna_astra/crew.py:468-674 | dispatch, acknowledgement, join, report within the assigned scope and handback bring one slot to its end and leave the other slots alone |
| CrewReach.RoundWorks | luna_astra/crew.py:388-465 | any opened round of investigations can be brought to six checked clear handbacks, in review with a file of the artifact to cite |
| CrewReach.CompletionIsReachable | luna_astra/crew.py:254-338 | terms and evidence that pass the guards of start, review and complete, those on texts, lists and capsules included, let any six free agents that respond take a fresh crew to COMPLETE |
| CrewReach.CompletionIsExact | luna_astra/crew.py:717-817 | under given terms and surroundings a fresh crew has a run to COMPLETE if and only if those guards hold of them |
| CrewReach.RunIsGuarded | luna_astra/crew.py:774-817 | whatever else a run does, it is in review or complete only if the guards of the phases before held |
| CrewReach.OverlongNeverStarts | luna_astra/crew.py:240-243 | goal, requirements and evidence paths that are too long together for a capsule are never agreed on, however they are split |
| Texts.TextIsStripped | luna_astra/team.py:33-36 | a text in the form that is let through is what stripping leaves alone |
| Texts.TextIsExact | luna_astra/team.py:33-36 | a text is let through if and only if stripping leaves it alone, it is not empty, within its limit and without NUL |
| Capsules.CapsuleHolds | luna_astra/crew.py:240-243 | the JSON of a capsule is longer than its goal, requirements and paths together |
| Capsules.CapsuleIsCounted | luna_astra/crew.py:242-243 | what is bounded is the length of the capsule as util.canonical writes it, character by character, for tasks with texts of their own |
| CrewTurns.HandbackIsExact | luna_astra/team.py:250-255 | the stop of a turn closes a call of a later turn if and only if it is taken for a ticket with an open call whose dispatches are not those its turn began with |
| CrewTurns.EarlierStopSpendsRecovery | luna_astra/team.py:250-255 | the stop of the turn before a recovery, arriving after it was sent, leaves a row whose new call is neither answered nor joined, and the recovery counts |
| CrewReach.SomethingToCite | luna_astra/crew.py:650-653 | passed root checks leave an existing file under the review paths, as a review report must cite one |
| CrewRaces.LateFinishIsCertified | luna_astra/crew.py:796-817 | whatever commits between the checks of crew-complete and its transaction, a completion that goes through has a backed certificate for the artifact and agents of its contract |
| CrewRaces.WorkersCannotDisturb | luna_astra/crew.py:676-706 | once a round was found returned, workers can change nothing before the transition commits but replace a handback |
| Files.FingerprintIsExact | luna_astra/crew.py:71-113 | two workspaces have the same fingerprint exactly when no file at or below the declared paths was added, removed or changed |
| Files.CoversIsPrefix | luna_astra/paths.py:29-31 | on normalised paths to cover is to be the path or an ancestor of it; the root covers everything |
| CrewTables.Tables.PreDispatch | luna_astra/crew.py:468-504 | what is sent is the only live call of its ticket and within its budget, and every earlier spawn of its slot was proven refused and retried; when it is refused every table is as before |
| CrewTables.Tables.Authorize | luna_astra/crew.py:486-500 | says exactly whether the dispatch may go, and rolls the reopened row, count and report back when not |
| CrewTables.Tables.PostDispatch | luna_astra/crew.py:506-542 | after an answer every bound agent is still bound, none sits in two slots or with two roots, and only the row of that call may differ |
| CrewTables.Tables.BindElsewhere | luna_astra/crew.py:27 | an agent is another root's exactly if none of the six slots has it |
| CrewTables.Tables.Reconcile | luna_astra/native_receipts.py:123-165 | at most this call is newly refused, and only as its transcript proves; tickets with a standing refusal are idle; bindings stay unique |
| CrewTables.Tables.Retry | luna_astra/crew.py:819-834 | a retry is granted only for a refusal proven in the run, and then the same spawn may be authorised again; when it is refused nothing changes |
| CrewTables.Tables.PreWait | luna_astra/flow.py:52-75 | a wait that is issued saw the present dispatches of every target; one unknown target refuses it |
| CrewTables.Tables.PostWait | luna_astra/flow.py:77-130 | a failure reported of a reserved, running, returned or accepted row fails it, a completion returns an active one, any other status is only noted, each as long as the wait saw the row as it is; no other ticket moves, and a wait is answered once |
| CrewTables.Tables.PrepareRecovery | luna_astra/flow.py:260-295 | a follow-up that is prepared for a bound agent is one the dispatch transaction will honour, and a recovery is left for it |
| CrewTables.Tables.BeginRound | luna_astra/crew.py:240-252 | six pending rows under a fresh plan |
| CrewTables.Tables.Start | luna_astra/crew.py:254-338 | a crew starts only on terms in order and within their budget, with six fresh rows, nothing under way, and no unfinished row of the round before |
| CrewTables.Tables.Next | luna_astra/crew.py:388-425 | a row is taken only if all it waits for was accepted, and whenever it was, unless it writes where another writer works; no two writers overlap afterwards |
| CrewTables.Tables.ReserveRow | luna_astra/crew.py:401-407 | the list of occupied scopes keeps saying exactly which tasks clash with a writer of the round |
| CrewTables.Tables.Join | luna_astra/crew.py:555-597 | a joined agent runs the ticket and is the agent of its slot and of no other |
| CrewTables.Tables.Submit | luna_astra/crew.py:606-674 | what is on record for the ticket is what its agent submitted: verdict, coverage, cited files and requirements, missing paths; in review it cites the frozen artifact, and so does every report of the round |
| CrewTables.Tables.HandBack | luna_astra/team.py:250-255 | only the ticket the agent joined last, which is of its own slot, may differ, and no call of it stays open |
| CrewTables.Tables.Integrate | luna.py:332-350 | what is integrated was handed back as tested by the slot's own agent, and writers stay apart |
| CrewTables.Tables.AcceptTask | luna_astra/team.py:257-269 | what is accepted was handed back as checked and, if it wrote, integrated, has no call open, and writers stay apart |
| CrewTables.Tables.Deliver | luna_astra/crew.py:190-196 | afterwards the reports of these slots count as read, and what was read stays read |
| CrewTables.Tables.CheckReturned | luna_astra/crew.py:676-706 | the loop over the six rows answers exactly whether all are settled as the transition asks |
| CrewTables.Tables.AcceptAll | luna_astra/crew.py:708-714 | a round is accepted row by row; a repair abandons what is unfit |
| CrewTables.Tables.Execute | luna_astra/crew.py:717-736 | an admissible plan of six within the agreed outputs and the capsule budget replaces a round that is over, with nothing under way |
| CrewTables.Tables.Review | luna_astra/crew.py:774-794 | six inspections begin of an artifact on which the root's checks passed, frozen with what they depend on |
| CrewTables.Tables.Complete | luna_astra/crew.py:796-817 | a crew that completes has its certificate: one artifact, the checks that passed on it, six clear reports |
| CrewTables.Tables.Handle | luna_astra/crew.py:254-834 | after any command on a recorded run, all invariants, budgets, exclusive scopes and records of reviews and certificates hold |
| NativeFlow.LateListIsHarmless | luna_astra/native_flow.py:55-108 | whatever crew and observer did since a list was asked for, its answer changes only tickets of the same plan that got no dispatch since |
| NativeFlow.RunKeepsAsked | luna_astra/native_flow.py:41-67 | no run rewrites an observation that was asked, what it saw, or its answer; dispatches are only appended |
| NativeFlow.AnsweredOnce | luna_astra/native_flow.py:65-67 | an observation is answered once: whatever happens in between, a second answer changes nothing |
| NativeFlow.DueUntilListed | luna_astra/native_flow.py:109-117 | in every run a wake stays due until another wake is recorded or a list that was asked after it is answered |
| NativeFlow.HandlesAreUnique | luna_astra/crew.py:530-534 | in every run a native handle answers for one slot of one root |
| NativeFlow.NewerWakeStaysDue | luna_astra/native_flow.py:109-117 | a list settles a wake only if no newer wake was recorded and all its dispatches are still current |
| NativeStatuses.ListFollows | luna_astra/native_flow.py:91-109 | every status listed of an agent of this crew does to its row what the same status in a wait does, and is noted, as long as the call saw its ticket as it is |
| NativeStatuses.LateListFollows | luna_astra/native_flow.py:42-109 | whatever crew and observer did since the list was asked for, a status counts if its ticket got no call since and its round goes on |
| NativeStatuses.UnlistedStays | luna_astra/native_flow.py:80-92 | a ticket the list says nothing of is left alone |
| NativeStatuses.AskIsRecorded | luna_astra/native_flow.py:42-53 | a call is recorded if and only if the round is open and its number new; it remembers every started slot's handle with its present calls, and nothing else |
| NativeStatuses.ListSettles | luna_astra/native_flow.py:110-117 | a readable list settles what is due if and only if all tickets it saw have only the calls it saw and no newer wake is due |
| NativeStatuses.WakeMakesDue | luna_astra/native_flow.py:69-73 | a wake of the round makes a list due; an error, an unreadable list or an answer of another round only finishes its call |
| NativeStatuses.AnswerIsStray | luna_astra/native_flow.py:60-66 | an answer of another kind, or to a call that is unknown or answered, changes nothing |
| NativeStatuses.HandleIsBound | luna_astra/crew.py:530-534 | a slot takes a handle exactly if no slot of any root has it |
| NativeFlow.Read | luna_astra/native_flow.py:76-92 | the reading loop accepts exactly the lists without bad entries and keeps this crew's statuses in order |
| NativeTables.Observer.Pre | luna_astra/native_flow.py:27-53 | a call that is recorded saw every handle of the six slots, with its present dispatches, and nothing else |
| NativeTables.Observer.Post | luna_astra/native_flow.py:55-119 | an answer is taken once; each status listed of an agent of this crew does to its row what the same status in a wait does, as long as the call saw its ticket as it is, and no other ticket moves |
| NativeTables.Observer.Bind | luna_astra/crew.py:530-534 | a handle that some slot of some root has is refused |
| NativeTables.Observer.Handle | luna_astra/native_flow.py:26-119 | after any command to crew or observer, handles are unique, calls ranked, and what is due is a wake |
| Queue.ReadyRow | luna_astra/research.py:249-255 | the row found is the first in insertion order that is pending with all dependencies verified; none found means none is |
| QueueTruth.ApplyKeepsInv | luna_astra/research.py:166-240 | every queue command keeps the graph sound, the index exact and the best score extremal, and moves rows along the job automaton only |
| QueueTruth.ReachableQueue | luna_astra/research.py:226-239 | in every run: disjoint outputs, closed acyclic dependencies, an exact index, started jobs over verified ancestors, an extremal best |
| QueueTruth.CommitKeepsInv | luna_astra/research.py:580-593 | in any completion order the recorded best is the extremum of all verified scores |
| QueueTruth.StartedRestsOnVerified | luna_astra/research.py:249-255 | a job neither pending nor cancelled has every transitive dependency verified |
| QueueTruth.BlockedIsTruthful | luna_astra/research.py:636-637 | when nothing runs and nothing is ready, each pending job has a transitive dependency that ended unverified |
| QueueTruth.HealthyQueueProgresses | luna_astra/research.py:249-255 | without failures, cancellations or running jobs, pending work always has a ready job |
| QueueTruth.BlockedNeverRuns | luna_astra/research.py:468-493 | a job with a dead ancestor is never started by any later commands |
| QueueTruth.TerminalForEver | luna_astra/research.py:580-584 | a terminal job keeps state, definition and score in every run |
| QueueTruth.StartedForEver | luna_astra/research.py:491 | a claimed job never becomes claimable again |
| QueueClaims.ClaimHandsOut | luna_astra/research.py:468-493 | an active study hands its first ready job to its controller, to run under that nonce, if there is one; a broken contract pauses it; all other claims change nothing |
| QueueClaims.CommitIsGranted | luna_astra/research.py:580-593 | a commit ends a job if and only if it comes from the claimer of a running one, with the given result and a score only if verified, and how it ranks |
| QueueClaims.BestIsBest | luna_astra/research.py:585-593 | in every run the best of the study is the largest verified score, or the smallest where that is wanted, and belongs to a verified job |
| QueueClaims.ClaimantAlone | luna_astra/research.py:490-593 | after a claim handed out a job, whatever commands follow, while it runs its claimer's commit ends it and nobody else's changes anything |
| QueueClaims.StepKeepsClaim | luna_astra/research.py:580-583 | a running job keeps its claimer until that claimer commits it or a recovery makes it an error |
| QueueClaims.CancelIsGranted | luna_astra/research.py:435-454 | exactly sets of pending or cancelled jobs are cancelled, and no other row changes |
| QueueClaims.RecoveryIsGranted | luna_astra/research.py:275-324 | after controller and jobs exited exactly the running jobs are errors, the study pauses and its best stays |
| QueueClaims.AdmissionIsExact | luna_astra/research.py:213-240 | a batch is admitted if and only if its names differ, repeated ones repeat their definition, the whole is a sound graph within its limits, and new outputs are absent |
| QueueClaims.AdmittedIsAdded | luna_astra/research.py:228-240 | what is admitted is added as a whole: old jobs stay, new ones are pending as defined, in the order of the batch |
| QueueClaims.AdmittedIsCounted | luna_astra/research.py:238-239 | the revision grows by the number of new jobs, and nothing else of the study changes |
| QueueClaims.StudyStarts | luna_astra/research.py:367-399 | a study starts from a pause under its starter's nonce, is active once that worker is up, and pauses if the launch failed |
| QueueClaims.StudyStops | luna_astra/research.py:401-417 | it pauses once nothing runs, and is finished only from a pause with nothing running or pending |
| QueueClaims.StudyBegins | luna_astra/research.py:138-164 | a study is configured once, paused, without a best |
| Wake.BlockedIsExact | luna_astra/research.py:257-265 | with counts and readiness read one after the other, DEPENDENCY_BLOCKED is true of the jobs it counted if and only if none of them was claimed in between |
| Wake.WakeUpsAreTruthful | luna_astra/research.py:631-637 | without a claim between the reads, the jobs a blocked wake-up counted can never run; a drained wake-up is always true of what it counted |
| Wake.BlockedCanBeFalse | luna_astra/research.py:257-265 | with such a claim, a reachable queue says that everything is blocked while its first job runs and the second waits for that one alone |
| Wake.PendingIsExact | luna_astra/research.py:249-255 | when no job is ready, all pending ones are blocked for good if and only if those that wait for a running job also wait for a dead one |
| Wake.WhenWoken | luna_astra/research.py:630-649 | the reason of a wake-up, in its order: a halt, a failure, nothing going on, a finished batch, and after the least interval a low queue or a better best |
| Wake.FailureIsNew | luna_astra/research.py:634-635 | a failure wake-up is about a job that was not in its state when the signal before was taken |
| ResearchQueue.ValidateGraph | luna_astra/research.py:75-104 | accepts exactly the job sets with disjoint outputs and closed acyclic dependencies |
| ResearchQueue.IndexIsExact | luna_astra/research.py:487-489 | the indexed dependencies of a job are those of its definition, so the corrupt-index refusal is never taken |
| ResearchQueue.Research.Enqueue | luna_astra/research.py:213-240 | a batch is added whole, with its index rows, exactly when it is admissible |
| ResearchQueue.Research.Claim | luna_astra/research.py:468-493 | hands a pending job to its claimer: it runs under the claimer's nonce and nothing else changes; or hands out nothing |
| ResearchQueue.Research.Commit | luna_astra/research.py:580-593 | granted to the claimer of a running job only, and then the job has the given result, and its score if verified |
| ResearchQueue.Research.Recover | luna_astra/research.py:275-324 | after an exited controller exactly the running jobs are errors, and none is replayed |
| ResearchQueue.Research.Cancel | luna_astra/research.py:435-454 | granted exactly for jobs that are all pending or cancelled; then those are cancelled and no other row changes |
| ResearchQueue.Research.Steer | luna_astra/research.py:367-417 | start, launch failure, worker, pause and finish move the study record and no job |
| Trie.Descend | luna_astra/research.py:80-84 | the walk is clear exactly when no strict ancestor of the path is an output of another job |
| Trie.SearchBelow | luna_astra/research.py:85-90 | the stack search is clear exactly when no node at or below the end belongs to another job |
| Trie.Check | luna_astra/research.py:77-91 | the scan accepts exactly the job sets whose outputs are pairwise disjoint across jobs |
| Trie.DisjointIsPairwise | luna_astra/coordination.py:27-28 | that is pairwise absence of overlaps on the '/'-joined strings of normalised non-root paths |
| Paths.OverlapsIsNested | luna_astra/coordination.py:27-28 | on normalised paths below the root the string test is the test whether one split path is a prefix of the other |
| Paths.OnlyTheRootDiffers | luna_astra/coordination.py:28 | on clean paths the two tests disagree exactly when one path is the root and the other is not |
| Paths.JoinSplit | luna_astra/research.py:81 | splitting a path at '/' and joining it again is the identity |
| Kahn.Check | luna_astra/research.py:92-104 | accepts exactly the closed acyclic maps; a refusal gives an unknown dependency or a real cycle |
| Kahn.Retire | luna_astra/research.py:99-103 | retiring a name leaves every count at its open dependencies and the queue at the names that have none |
| Kahn.StuckHasCycle | luna_astra/research.py:104 | names never retired depend on each other in a cycle |
| PlanDfs.Check | luna_astra/team.py:89-98 | the recursive visit accepts exactly the same maps |
| PlanDfs.Walker.Visit | luna_astra/team.py:90-97 | an accepted visit leaves the stack as it was and the name visited; a refusal is an unknown name or a real cycle |
| Plans.Validate | luna_astra/team.py:56-98 | accepts exactly the plans of at most 32 tasks that are well-formed, with distinct identifiers, distinct work and closed acyclic dependencies |
| Plans.WhenAdmissible | luna_astra/team.py:56-98 | a plan is accepted if and only if it has at most 32 acceptable tasks, no two of a name or with the same words, depending on tasks of the plan and not in a cycle |
| Plans.WhenAcceptable | luna_astra/team.py:56-88 | a task is acceptable if and only if its name, texts, criteria and paths are in order, a writer does not claim the root, and dependencies are named once |
| Plans.IndependentTasksAdmissible | luna_astra/team.py:78-98 | tasks that wait for nothing form a plan if each is acceptable by itself |
| Graph.TopologicalIsAcyclic | luna_astra/research.py:98-104 | an order of all names after their dependencies proves the map closed and acyclic |
| Team.Choose | luna_astra/team.py:150-161 | greedy in row order: what could start and did not lacks a slot or would be a second writer |
| Team.Plan.Reserve | luna_astra/team.py:144-165 | reserved plus running stays within the parallel limit, launches within the launch limit, no two writers overlap |
| Team.Plan.Replace | luna_astra/team.py:107-125 | the same definition asked for again changes nothing; one with started or unresolved work is never replaced |
| Team.Plan.Settle | luna_astra/team.py:223-280 | join, handback, acceptance and abandonment keep both limits and the exclusive scopes |
| Team.ReserveKeepsExclusive | luna_astra/team.py:157-158 | reserving an uncontended task keeps writers apart |
| Team.ReservedWasReady | luna_astra/team.py:150-161 | a reserved row was pending, all it waits for was accepted, and its launch is counted under a new ticket |
| Team.ReadyIsHeldBack | luna_astra/team.py:150-161 | with slots left, a pending row of which all is accepted stays pending only if it collides with a writer that works |
| Team.WhenSettled | luna_astra/team.py:223-280 | from which stages a row may be joined, handed back, accepted, failed or abandoned, stage by stage |
| Work.ClashSymmetric | luna_astra/team.py:158 | clashing is symmetric, so the one-sided scan against occupied scopes suffices |
| Leases.Coordinator.Claim | luna_astra/coordination.py:45-57 | grants exactly the unblocked claims, adds all their rows or nothing, and keeps the table compatible |
| Leases.Coordinator.Release | luna_astra/coordination.py:59-62 | drops the owner's rows, of one token or of all, and no others |
| Leases.Coordinator.ReleaseFinishedEdits | luna_astra/coordination.py:64-92 | drops exactly the owner's leases of finished structured edits |
| Leases.ClaimKeepsCompatible | luna_astra/coordination.py:50-56 | overlapping leases of a workspace belong to one owner and are not two different tool operations |
| Leases.ReconciliationIsNarrow | luna_astra/coordination.py:67-69 | a lease goes if and only if it is the owner's own, of an edit that was recorded and is not marked running |
| Leases.WhenBlocked | luna_astra/coordination.py:50-55 | a claim is refused exactly by a lease that touches one of its paths and is another owner's, or another tool call's |
| Leases.OneLeaseEach | luna_astra/coordination.py:56 | a claim adds one lease for each of its paths, and no other |
| Leases.GrantedIsExclusive | luna_astra/coordination.py:50-57 | after a grant whatever touches a claimed path is leased by the same owner, and by no other tool call of its |
| Leases.TouchingLeases | luna_astra/coordination.py:53-54 | what the table keeps means that leases that touch have one owner, and one token unless one of them is no tool call's |
| Leases.WhenFinished | luna_astra/coordination.py:74-88 | an edit is over exactly if its token names, in any case of "tool:", a recorded start of an editing tool on paths that is not marked running |
| CodeMap.Risk | luna_astra/codemap.py:285-292 | a file is affected exactly when it is changed or has an import path to a changed file |
| CodeMap.Reverse | luna_astra/codemap.py:286-288 | the reversed map has exactly the importers of each file |
| Codec.HelperCommandRoundTrip | luna_astra/transport.py:36-52 | the parser returns the printed vector for exactly the nonempty NUL-free vectors and refuses the others |
| Codec.LegacyRoundTrip | luna_astra/install.py:91-103 | the legacy parser returns the vector printed into its script exactly when the command that carries it is at most 65536 long, and else nothing |
| Codec.HelperCommandInjective | luna_astra/install.py:47 | two vectors never share a printed command |
| Codec.AcceptedIsStable | luna_astra/transport.py:47-52 | whatever the parser accepts, it reprints and reparses to itself |
| Codec.CloseQuoteAt | luna_astra/transport.py:49 | the quoted alternative of the regular expression ends exactly at the closing quote |
| CodecGrammar.AcceptedIsExact | luna_astra/transport.py:47-52 | the parser accepts exactly the NUL-free lists of quoted and plain words with one space between any two, and returns what they say |
| CodecGrammar.LegacyIsExact | luna_astra/install.py:91-103 | the legacy parser returns a vector for exactly the script that is wrapped around it, if its command is at most 65536 long |
| CodecGrammar.EncodedLengthIsExact | luna_astra/install.py:91-103 | the length that is bounded counts two bytes for every UTF-16 unit and four characters for every three bytes begun |
| Store.AtomicIsRedo | luna_astra/store.py:83-111 | nested atomic blocks of any depth mean the replay of the surviving writes: a failed block contributes none of its own and takes none from its surroundings |
| Store.Store.Run | luna_astra/store.py:47-111 | the BEGIN and SAVEPOINT machine does what the nested blocks mean; an enclosing transaction keeps its savepoints and nothing is committed early |
| Store.Store.RunOuter | luna_astra/store.py:90-111 | the outermost block commits all or leaves the file as it was |
| Store.Store.RunNested | luna_astra/store.py:91-108 | an inner block undoes only its own writes and leaves the savepoint stack as it was |
| Store.Store.RunEnsure | luna_astra/store.py:70-81 | a schema is remembered only when its creation is committed |
| Receipts.ReadReceipt | luna_astra/native_receipts.py:75-120 | one bounded call, line by line, with its saved cursor |
| Receipts.ScanResumes | luna_astra/native_receipts.py:91-120 | stopping early and going on on a longer transcript loses nothing |
| Receipts.AnyScheduleAgrees | luna_astra/native_receipts.py:75-120 | over any append schedule, partial lines and budgets, the first verdict is that of one full scan of the final transcript |
| Receipts.EnoughCallsDecide | luna_astra/native_receipts.py:91-120 | on a final transcript enough calls reach that verdict |
| Receipts.ReceiptIsRecorded | luna_astra/native_receipts.py:99-115 | after any earlier readings, a receipt is the output line of the expected call, and one of the readings found that call recorded at an earlier place, with the expected kind and input |
| Receipts.MatchedIsRecorded | luna_astra/native_receipts.py:90-119 | a cursor that started unmatched is marked matched only if a reading found the recorded call before where it stopped |
| Receipts.RecordStays | luna_astra/native_receipts.py:80 | in a transcript that was only appended to, that call is still recorded |
| Transcripts.ReadingDecides | luna_astra/native_receipts.py:91-119 | a full reading answers what the first deciding line says: a bad record, the call with another kind, input or turn, or an output after the call |
| Transcripts.ReadingGoesOn | luna_astra/native_receipts.py:92-96 | if no line decides it answers nothing yet, or an error if the next line is too long |
| Transcripts.RecordedCallIsReceived | luna_astra/native_receipts.py:75-120 | a recorded call followed by its output yields exactly that output, whatever harmless lines are around them and however the reading is cut |
| Transcripts.OtherFileIsRefused | luna_astra/native_receipts.py:78-87 | a file that was replaced, cut off or has another header is refused, and the cursor stays |
| Transcripts.FirstReading | luna_astra/native_receipts.py:62-67 | the first reading starts after the header if the cursor was saved there, else after the fragment it stands in, with nothing matched |
| Transcripts.CursorAfterReading | luna_astra/native_receipts.py:113-120 | a reading that fails leaves the saved cursor, and one that finds the output leaves it at the next line |
| LedgerTruth.ReachableLedger | luna_astra/evidence.py:161-172 | in every run at most one attempt of a check runs, running attempts are of the current definition, recorded passes are well-formed |
| LedgerTruth.ValidClaimCertifies | luna_astra/evidence.py:315-325 | a tested claim shown valid means no attempt since and every check's deciding attempt passed in the present context |
| LedgerTruth.PassedIsProven | luna_astra/evidence.py:304-309 | passed means, attempt by attempt: the task has checks, none runs, each one's deciding attempt passed in the context of now, and each requirement is listed by one |
| LedgerTruth.ValidClaimCovers | luna_astra/evidence.py:304-325 | a tested claim shown valid gives for every requirement a check that lists it and passed in the context of now |
| LedgerTruth.ClaimIsTaken | luna_astra/evidence.py:354-369 | a tested claim is taken exactly on a proven ledger, an analysis only while nothing runs |
| LedgerTruth.ClaimIsShown | luna_astra/evidence.py:315-325 | a claim is shown valid exactly as long as its task is the present one and, if tested, the ledger still proves it |
| LedgerTruth.EndIsRecorded | luna_astra/evidence.py:231-244 | an attempt passes with code 0 in an unchanged context, is stale with 0 in a changed one, fails with another code, and is an error without a context or code |
| LedgerTruth.EndIsRefused | luna_astra/evidence.py:231-244 | an attempt that does not run cannot be ended |
| LedgerTruth.StartIsGranted | luna_astra/evidence.py:193-211 | a check starts if and only if the task has it, is the one expected, and no attempt of it runs; a start withdraws the claim |
| LedgerTruth.BeginIsGranted | luna_astra/evidence.py:98-172 | a definition is taken if and only if it is new and in order and nothing runs; attempts stay, the claim goes |
| LedgerTruth.ContextIsExact | luna_astra/evidence.py:174-191 | a context holds exactly the files a check depends on, and is refused if a dependency is missing or an absent path is there |
| Batch.ReuseIsSound | luna_astra/evidence.py:249-284 | a pass that is reported now is what a new run would give |
| Batch.BatchVerdict | luna_astra/evidence.py:327-352 | from any point of a batch, all checks end up reported as passed exactly when the remaining ones would pass |
| Batch.ReuseAgreesWithForced | luna_astra/evidence.py:327-352 | from any reachable quiet ledger, a batch with reuse and a forced one agree on passed |
| Batch.BatchCovers | luna_astra/evidence.py:304-352 | a batch passes if and only if the task has checks, each would pass now, and each requirement is listed by one |
| Batch.BatchTakes | luna_astra/evidence.py:327-352 | a batch skips a check exactly if it is reusable, nothing runs and it has passed in the context of now; the first that does not pass ends it |
| Batch.BatchStaysReachable | luna_astra/evidence.py:327-352 | a batch, with or without reuse, is a run of starts and ends of attempts, so what holds of every reachable ledger holds after it |
| Evidence.Evidence.Begin | luna_astra/evidence.py:98-172 | a new definition is taken only while nothing runs, and withdraws the claim |
| Evidence.Evidence.StartRun | luna_astra/evidence.py:193-211 | an attempt starts unless its check already runs or the batch's definition changed |
| Evidence.Evidence.EndRun | luna_astra/evidence.py:231-244 | an attempt passes only with exit code 0 and an unchanged context |
| Evidence.Evidence.RunAllChecks | luna_astra/evidence.py:327-352 | with or without reuse it says passed if and only if the task has checks, each would pass now, and each requirement is listed by one of them |
| Evidence.Evidence.Finish | luna_astra/evidence.py:354-369 | a tested claim is taken exactly if nothing runs, every check passed in the present context and every requirement has a check; it is then shown valid |

## Left out

- Interleaving inside crew commands: the transitions check most guards before their transaction. CrewRaces shows what workers can still do in between, and that completion's certificate stands whatever happens; execute and review are otherwise taken as one step, because the root that issues them and the dispatches they could race with is one session.
- Interleaving of threads and processes inside one transaction, busy timeouts and lock errors beyond a failing statement: SQLite serialises writing transactions. The reads of the wake signal, which are not in one, are modelled apart.
- CrewTables.Tables.Submit: lengths and wording of its texts and the limit of 12000 characters on a whole report are one flag of the draft; a report with short texts on one cited file keeps that limit unless the file's name has thousands of characters. The blocker catalogue (blockers.py) is not modelled.
- CrewTables.Tables.Start: the mode, an expected workspace, the check against a change of wire protocol, and the baseline that a first start takes are not modelled or one flag.
- CrewTables.Tables.AcceptTask: the form of the review text is not modelled.
- CrewTables.Tables.Retry: the form of the reason is not modelled.
- CrewTables.Tables.Join: role, model and parent session of the worker are one flag.
- Files.Fingerprint: modes, empty directories, symbolic links and the entry budget are not modelled.
- Crew.RootEvidence: the state of a research study and the comparison of claim and request generation are flags; the changes since the baseline are a set of paths.
- Acknowledging an unchanged request (crew-continue), capacity annotations and the model and effort checks of a dispatch: they only gate commands.
- The list of calls crew-next prints, with its limit of 24000 characters on a message that carries a full context: rows are reserved before a message is refused, and the dispatch transaction does not look at a message's length. Flow.drive, stop corrections and progress signatures: they read tables and give advice.
- CrewTables.Tables.Take: the column that says whether a wait matched and the hint to wait for single members are not modelled, because no transition reads them.
- Wire protocol V2 beyond observations and handles: opaque message routing, dispatches checked against handles and the binding of a runtime identity at join. The observer is modelled beside the V1 commands.
- Legacy dynamic-team spawning and its status observations; sessions with a fixed crew cannot reach them.
- Receipts.ReadReceipt: JSON decoding is a parameter; remembering a transcript location (native_receipts.py:35-72) is not modelled.
- ResearchQueue.Research.Enqueue: path, program and environment checks and input snapshots are not modelled; whether new outputs are absent is a parameter.
- ResearchQueue.Research.Recover: probing and the comparison with the tables read before are one parameter each.
- Wake.WakeUpsAreTruthful: scores are reals instead of decimals; polling and time limits are not modelled.
- Evidence.Evidence.EndRun: process launch and log files are parameters; corrupt databases are not modelled.
- Plans.Validate: the JSON shape of fields and the normalisation of paths are not modelled; the case-folded words of a description are a parameter.
- Paths: case folding and separators of Windows and the resolution of symbolic links in `normalized` are not modelled.
- Codec: the POSIX forms and the base64 wrapping of the PowerShell script are library behaviour and not modelled, but for the length it gives the command.
- CodeMap: building the index and parsing sources, and the reasons and test selection that risk adds to its closure.
- Store: statements are writes to one key-value table and schema creation; reads outside a transaction see the committed file.
