# Kanban control plane: a verified model

The control plane reconciles Kanban boards (SQLite databases with cards, parent
links, comments and an append-only event log) with what GitHub says about the
pull requests and Issues behind the cards. Other writers, such as the core
dispatcher, workers and people, act on the same boards at the same time. This
project models the parts where that is hard and proves what they promise. It is
checked with `dafny verify dfyconfig.toml`.

| module | what it models |
|---|---|
| `Graph`, `AncestorSearch`, `AncestorWalks` | the three-colour ancestor search and the two ancestor walks |
| `EventLog`, `Provenance`, `NodeRoles` | the event log with its JSON payloads, the evidence read from it, the role of each card |
| `KanbanBoard`, `DependencyGate`, `TerminalConvergence`, `ConvergenceTheorems`, `RollbackWitness` | one board, the gate in its Python and SQL forms, terminal merge convergence under interference |
| `Completion`, `SyncContext`, `Projection`, `SyncPass` | the completion verdict, the refreshed body block, the guarded transition, classic sync passes |
| `ResourceAdmission`, `AdmissionProtocol`, `AdmissionTheorems`, `SingleWorker`, `Overbooking` | host-wide worker admission as interleaved steps over several boards, and the runs that break it |
| `DryRunReplay`, `ReplayTheorems` | the dry run that predicts which claims would be admitted |
| `ReworkRounds`, `RoundTheorems`, `DeliveryGate`, `ReworkDispatch` | one-shot rework commands, rounds and deliveries, the lane that starts rework workers |
| `Quiescence` | every exit of a sync pass that changes a card, as a transition system that settles |

What callers read from outside (GitHub answers, clocks, process tables, the
outcome of a write in another system) is a parameter that may take any value.
Where the source reads the board several times before it takes the write lock,
each read is a separate, unrelated snapshot.

## Results that are not what one would first expect

- Refreshing the sync context twice equals refreshing once exactly when the body
  does not hold a begin marker without any end marker; otherwise the second
  refresh swallows the text between (`SyncContext.RefreshTwice`,
  `SyncContext.StrayBeginLosesText`).
- A convergence pass whose locked checks succeed still rolls back exactly when a
  card to be changed has an ownership column that Python takes for empty and SQL
  does not take for null (`ConvergenceTheorems.RollbackNeedsFalsyColumn`); a
  board with a worker PID of zero is such a case
  (`RollbackWitness.RolledBackAlthoughUnchanged`).
- The capacity of a resource holds over every run in which no run of a live worker
  ends between its spawn and the recording of its PID. The source takes that step
  when the recording fails. From every quiet start with one free slot it leads
  past an exhausted capacity and to two live workers of one gated card
  (`AdmissionTheorems.CapacityHolds`, `Overbooking.EarlyEndOverbooks`).
- At most one live worker per gated card needs a second guard besides: when the
  reap check lets a claim go on, its card must not be a reservation whose process
  may still live. The claim has no such guard. From every quiet start with two
  free slots, on any number of boards, two dispatchers reach two live workers of
  one card without an early end (`SingleWorker.AtMostOneWorker`,
  `Overbooking.RivalsStartTwoWorkers`, `Overbooking.ReservationPassesTheReap`).
- A board has to be scanned in one look; with two queries a worker can be missed
  by both (`SingleWorker.TwoReadsMissAWorker`).
- With GitHub frozen and nobody else at work, sync passes change the status of a
  card at most four times, whatever labels, retry comments, supersede signals and
  deliveries they find; every step of someone else buys at most four changes more
  (`Quiescence.PassesSettle`). With workers and people at work throughout, passes
  open no more rounds than there were one-shot commands
  (`Quiescence.CommandsBoundRounds`).
- The dry run agrees with real claims exactly when no more candidates are
  deferred than diagnostics are kept (`ReplayTheorems.DryRunIsFaithful`).
- A label command can be consumed again right after a maintainer-retry round
  exactly when it is dated after that round's entry
  (`RoundTheorems.RetryForgetsCommands`). Retry comments, round numbers and the
  isolation of deliveries do not depend on such dates.
- A preserved completion is lost exactly when supersede evidence is on record
  (`SyncPass.DonePreservedIff`, `SyncPass.DoneSurvivesRuns`). With such evidence
  the Issue no longer counts: a verified card stays done exactly when some
  effective pull request is not superseded and all of those merged
  (`SyncPass.ReevaluationForgetsTheIssue`).
- The reason `linked_pr_not_merged` is never given: a request that counts is
  merged, open, or closed without a merge (`Completion.ReasonWhen`).
- A dispatch tick that reports a failed spawn may have started a process, when
  only the recording of it failed (`ReworkDispatch.Lane.Tick`).

## Model

| member | source | states |
|---|---|---|
| AncestorSearch.TerminalChainAncestors | edge/kanban-github-sync.py:2330-2403 | for any link table the search ends, and returns nodes exactly when the root is present and nothing above it dangles or lies on a cycle; the keys are then the root and all reachable ancestors, and each error names a real witness |
| Graph.TopologicalIsAcyclic | edge/kanban-github-sync.py:2355-2394 | a post-order in which parents precede children rules out every cycle, so finishing the search proves acyclicity |
| Graph.ClosedHoldsReachable | edge/kanban-github-sync.py:2355-2403 | a set closed under parents contains everything reachable from its members |
| AncestorSearch.FinishedSearchIsClosure | edge/kanban-github-sync.py:2394-2403 | an empty stack leaves exactly the ancestor closure collected |
| AncestorSearch.GrayParentIsCycle | edge/kanban-github-sync.py:2377-2382 | meeting a grey parent exhibits a real cycle |
| AncestorWalks.QueueWalk | edge/kanban-github-sync.py:4562-4585 | the queue walk ends on cyclic graphs and visits every present ancestor reachable through present cards once, never the start |
| AncestorWalks.StackWalk | edge/kanban_retry_signal_guard.py:409-423 | the stack walk visits exactly the same set, each once, never the start |
| AncestorWalks.MeetParents | edge/kanban_retry_signal_guard.py:416-422 | one expansion meets all and only the new present parents |
| AncestorWalks.WalksMeetTheClosure | edge/kanban-github-sync.py:4562-4585 | where no link dangles the walks meet exactly what the three-colour search collects |
| EventLog.Newest | edge/kanban-github-sync.py:4146-4155 | the newest event of some kinds, in (created_at, id) order |
| EventLog.NewestIsUnique | edge/kanban-github-sync.py:4146-4155 | with distinct ids no other event is the newest |
| EventLog.Rows | edge/kanban-github-sync.py:2634-2639 | the rows of some kinds, all of them and in ascending order |
| EventLog.AppendEvent | edge/kanban-github-sync.py:2192-2213 | the log grows at its end by one event of that card, kind, payload and time, with an unused id; it is newer than every event not dated after it |
| EventLog.PyEqWhen | edge/kanban-github-sync.py:2554-2590 | payload scalars compare as Python compares them: numbers and truth values by value, everything else only with itself |
| Provenance.ReworkProvenance | edge/kanban-github-sync.py:2523-2608 | three separate scans yield the evidence of a stale round exactly when the specification has it, and report a human hold exactly when a valid round is in force and a hold was laid on it |
| Provenance.CurrentRoundHumanHold | edge/kanban-github-sync.py:2611-2688 | the hold scan finds the first hold laid on the round since its event, and none when there is none |
| Provenance.DescribeHoldWhen | edge/kanban-github-sync.py:2640-2688 | a hold is told as a block, as unreadable attention, or as attention for another or for this very round |
| Provenance.ThreeScansAgree | edge/kanban-github-sync.py:2492-2688 | the three scans accept exactly when the newest event among the governing kinds and attention is a valid rework event |
| Provenance.TaskCreationProvenance | edge/kanban-github-sync.py:2434-2489 | the recorded role and parents of a card, exactly when every creation and link record is well formed and one record alone creates the card |
| Provenance.ScanCreation | edge/kanban-github-sync.py:2445-2489 | the scan over creation rows settles on the only record that can stand |
| Provenance.ScanRow | edge/kanban-github-sync.py:2455-2483 | one creation or link record yields exactly the parents it names, or is malformed; a linked child counts by the text it prints as |
| Provenance.DecimalReadsBack | edge/kanban-github-sync.py:2470-2480 | the text an integer prints as reads back as that integer, so a linked child is matched by value |
| Provenance.CreationIsUnique | edge/kanban-github-sync.py:2434-2489 | a log supports at most one creation record of a card |
| Provenance.CreationCountsLinks | edge/kanban-github-sync.py:2445-2489 | the recorded parents are exactly those named at creation and those linked later, and every link record names the card |
| NodeRoles.NodeProvenance | edge/kanban-github-sync.py:2691-2785 | every card of the graph gets its one role exactly when all of them are convergeable, in whatever order they are visited |
| NodeRoles.ClassifyStarted | edge/kanban-github-sync.py:2725-2754 | the first pass classifies every started card and collects the stale rework, or some card is not convergeable |
| NodeRoles.ClassifyBlocked | edge/kanban-github-sync.py:2725-2754 | a blocked card is accepted exactly when its governing round is stale and a developer was created for it under its live parents |
| NodeRoles.ClassifyUnstarted | edge/kanban-github-sync.py:2756-2785 | an unstarted card is accepted exactly when it was created for a reviewer under its live parents and waits for stale rework only |
| NodeRoles.EveryNodeHasOneRole | edge/kanban-github-sync.py:2725-2785 | each card other than the root is terminal, stale or reviewer, and only one of these |
| NodeRoles.StaleWhen | edge/kanban-github-sync.py:2725-2785 | read off links and log: stale rework was created for a developer under its live parents and its round is evidence; a stale reviewer was created for a reviewer, waits for stale rework, and for nothing else |
| DependencyGate.InternalDependencyGate | edge/kanban-github-sync.py:2216-2244 | the gate fails exactly on dangling links; otherwise it lists every parent row in id order and is clear exactly when all are terminal |
| DependencyGate.BeforeWhen | edge/kanban-github-sync.py:2225-2232 | the parents' order: a prefix comes first, otherwise the first differing character decides |
| DependencyGate.GuardAgreesWithGate | edge/kanban-github-sync.py:3305-3328 | the SQL guard counts zero exactly when all direct parents are present and terminal |
| TerminalConvergence.Attempt | edge/kanban-github-sync.py:2857-3284 | for every earlier snapshot and every board met under the lock: the exact conditions for predicted, converged and rolled back, none of them without a closed Issue, a done decision, and at least one request, all merged into the target; every refusal stands for what it says and changes nothing; converged rewrites exactly the stale cards and the root, with one event each |
| TerminalConvergence.Prevalidate | edge/kanban-github-sync.py:2897-3026 | the checks before the lock pass exactly when every condition of the design holds on the snapshots read, and each refusal names a condition that fails |
| TerminalConvergence.CheckLocked | edge/kanban-github-sync.py:3046-3179 | the checks under the lock pass exactly when the board still shows the prevalidated graph, rows, gate and roles, and each refusal names what changed |
| TerminalConvergence.MergeEvidenceWhen | edge/kanban-github-sync.py:2819-2854 | merge evidence is exactly a closed Issue with a done decision over requests that all merged into the target branch, and its heads map each number to the head of the request that carries it |
| TerminalConvergence.PrevalidatedWhen | edge/kanban-github-sync.py:2897-3026 | what is prevalidated rests on merge evidence, starts from a todo or review root, and meets only cards that are neither running nor owned |
| TerminalConvergence.WriteGraph | edge/kanban-github-sync.py:3180-3274 | all guarded updates happen, or the transaction leaves tasks and events as they were |
| TerminalConvergence.ConvergedColumns | edge/kanban-github-sync.py:3184-3259 | both writes clear claim, worker, run and block; a completed card keeps its assignee, an archived one loses it |
| TerminalConvergence.GuardPasses | edge/kanban-github-sync.py:3184-3259 | after the other cards are written, the guard in the root's update counts no open parent |
| TerminalConvergence.WalkClosure | edge/kanban-github-sync.py:2915-2923 | the walk yields the closure exactly on graphs without dangling links and cycles |
| TerminalConvergence.FirstOwned | edge/kanban-github-sync.py:2788-2816 | an owned card is named exactly when there is one |
| ConvergenceTheorems.WholeClosureIsTerminal | edge/kanban-github-sync.py:3180-3284 | after convergence every ancestor is terminal and the root done; a blocked ancestor is done, an unstarted one archived; cards outside the closure and cards already terminal are untouched |
| ConvergenceTheorems.StaleRoundsWereMerged | edge/kanban-github-sync.py:2523-2608 | whatever converges as stale rework was opened for a request that merged at the very head its round started from, and nothing governs or holds the card since |
| ConvergenceTheorems.OneEventForEachCard | edge/kanban-github-sync.py:3184-3274 | the log grows by exactly one event for each changed card, naming its old and new status, the reason, and that a human merged |
| ConvergenceTheorems.SecondPassIsIdle | edge/kanban-github-sync.py:2897-2914 | a second pass over the converged board is not eligible, whatever stale row it is given |
| ConvergenceTheorems.QuietPassIsUnchanged | edge/kanban-github-sync.py:3046-3179 | without other writers the locked checks never refuse what was prevalidated |
| ConvergenceTheorems.RollbackNeedsFalsyColumn | edge/kanban-github-sync.py:2788-2816 | once the locked checks pass, the writes succeed exactly when ownership columns are null or truthy on every card to be changed |
| RollbackWitness.RolledBackAlthoughUnchanged | edge/kanban-github-sync.py:2788-2816 | a concrete board that is prevalidated, unchanged under the lock, and still rolled back, because its root holds a worker PID of zero |
| Completion.DoneIffComplete | edge/kanban-github-sync.py:748-861 | done exactly when effective pull requests exist and all merged into the target, or the Issue is closed, none is open and each unmerged one has a newer same-head merge |
| Completion.ReasonWhen | edge/kanban-github-sync.py:748-861 | each reason of a decision exactly when: no request counts, all landed, replaced under a closed Issue, one open, or one closed unmerged; the reason linked_pr_not_merged never occurs |
| Completion.OrderDoesNotMatter | edge/kanban-github-sync.py:748-861 | the verdict does not depend on the order of the pull requests |
| Completion.LazyIsEager | edge/kanban-github-sync.py:864-939 | looking the Issue up only when needed gives the verdict of always knowing it, and it is read exactly when its state matters |
| Completion.VerifyWhen | edge/kanban-github-sync.py:864-939 | a verified verdict is missing exactly when a lookup that matters failed, done exactly for a complete card, and without linked request exactly when none counts |
| Completion.FailedIssueRead | edge/kanban-github-sync.py:905-939 | a failed Issue lookup is never turned into a completion |
| Completion.LineageIsReplacement | edge/kanban-github-sync.py:711-745 | comparing number sets amounts to each unmerged request having its own newer merge |
| SyncContext.RefreshTwice | edge/kanban-github-sync.py:1400-1417 | refreshing twice equals refreshing once with the last block exactly when no begin marker stands without an end marker |
| SyncContext.ReplaceWhen | edge/kanban-github-sync.py:1400-1417 | a refresh replaces the text from the first begin marker to the next end marker and keeps what stands before and after, on lines of its own |
| SyncContext.ReplaceElse | edge/kanban-github-sync.py:1400-1417 | without one of the markers the block goes to the end; with end markers only before the first begin marker the body cannot be refreshed |
| SyncContext.RefreshTwiceWith | edge/kanban-github-sync.py:1400-1417 | the same for any pair of markers and any bodies and blocks |
| SyncContext.StrayBeginLosesText | edge/kanban-github-sync.py:1400-1417 | in the failing family the second refresh loses text |
| SyncContext.RefreshKeepsHeader | edge/kanban-github-sync.py:455-492 | a refresh keeps the provenance header that names the source Issue, when the header stands before the block |
| Projection.ApplyDecision | edge/kanban-github-sync.py:3420-3613 | under arbitrary changes since its reads, the transition is applied exactly when the checks admitted it and all direct parents are present and terminal at the write; a refusal changes no card, event or comment |
| Projection.AdmittedWhen | edge/kanban-github-sync.py:3420-3480 | only a card in review or done is moved, a blocked one only when asked for, never to the status it has, and never beside a dangling parent |
| Projection.ProjectedColumns | edge/kanban-github-sync.py:3480-3560 | both transitions clear claim, worker and block; a completed card keeps its assignee and gets its time, a parked one has neither |
| Projection.MarkOnce | edge/kanban-github-sync.py:3394-3418 | the parking comment is added at most once |
| Projection.MarkWhen | edge/kanban-github-sync.py:3394-3418 | a comment is added exactly when no comment of the card says the same but for white space around it |
| SyncPass.DonePreservedIff | edge/kanban-github-sync.py:9100-9135 | a done card with merge evidence survives a pass without linked pull request exactly when no supersede evidence is on record |
| SyncPass.DoneTransitionIsEvidence | edge/kanban-github-sync.py:4330-4350 | a transition's payload is evidence for later passes exactly when it completes the card on merges or on their preservation |
| SyncPass.PriorDoneWhen | edge/kanban-github-sync.py:4330-4350 | a completion is on record exactly when a sync event of the card tells of one, authoritatively |
| SyncPass.SupersededWhen | edge/kanban-github-sync.py:6837-6869 | a request is superseded exactly when some event of the card abandons it, with every mark of the transition |
| SyncPass.ApplySupersede | edge/kanban-github-sync.py:3634-3707 | a parked card goes back to READY without assignee exactly when its status is still the one read, and the abandoned request joins the evidence of its own Issue and of no other |
| SyncPass.DoneSurvivesRuns | edge/kanban-github-sync.py:9100-9135 | over any run of passes without a linked pull request, with arbitrary appends to the log in between, a done card keeps its row untouched exactly as long as no supersede evidence is logged |
| SyncPass.ReevaluationForgetsTheIssue | edge/kanban-github-sync.py:9126-9135 | with supersede evidence, the verdict on a verified card is done exactly when some effective request is not superseded and all such requests merged, whatever the Issue says |
| SyncPass.VerdictWhen | edge/kanban-github-sync.py:9098-9135 | the verdict of a pass in terms of GitHub and the log: missing when a lookup that matters failed; done exactly when complete, or done on record with nothing linked that counts, or, under supersede evidence, when what is left landed |
| SyncPass.VerifiedCarriesEffective | edge/kanban-github-sync.py:864-939 | an authoritative decision carries exactly the effective requests, each once |
| SyncPass.NoLinkedPrHasNoPrs | edge/kanban-github-sync.py:748-775 | a verdict of no linked pull request carries none |
| SyncPass.RestorePending | edge/kanban-github-sync.py:2247-2296 | a parked or done intake root goes back to todo while parents are open, with one event that lists them, and no other row changes |
| SyncPass.ClassicPass | edge/kanban-github-sync.py:8978-9395 | a pass with no other lane in play changes the card exactly when it is not settled, gives it exactly the status that gate and verdict ask for, touches no other row, and leaves the card settled |
| SyncPass.VerifiedPass | edge/kanban-github-sync.py:9098-9135 | a classic pass under terminal parents ends done exactly when the verdict asks for it, otherwise in review unless its body cannot hold the context, and leaves the board alone when a lookup failed |
| SyncPass.RepeatedPasses | edge/kanban-github-sync.py:8978-9395 | with GitHub frozen any number of classic passes changes the status at most once, and exactly once when the card was not settled |
| Quiescence.PassesSettle | edge/kanban-github-sync.py:7376-8163 | with GitHub frozen, any number of passes through any exits changes the status at most four times, plus four for every step of workers, dispatchers or people in between |
| Quiescence.RankFalls | edge/kanban-github-sync.py:7376-8163 | every exit that changes the status lowers the status rank, and none raises it |
| Quiescence.MeasureDrops | edge/kanban-github-sync.py:7376-8163 | every change of status lowers (unconsumed one-shot commands, pending parents, status rank) lexicographically, and an exit that consumes a command lowers the first |
| Quiescence.CommandsRunOut | edge/kanban-github-sync.py:7043-7373 | label commands, retry comments, supersede signals and the resume response only get fewer, and each one that opens something is one less |
| Quiescence.CommandsBoundRounds | edge/kanban-github-sync.py:7043-7373 | whatever others do to the card in between, passes consume no more commands than were there at the start |
| Quiescence.VerdictIsBase | edge/kanban-github-sync.py:9100-9135 | the preservation of an earlier done only ever keeps a done card done, with nothing linked |
| Quiescence.ClassicPassIsAnExit | edge/kanban-github-sync.py:8978-9395 | a classic pass over the board that changes the card is one of the exits, restore or projection |
| Quiescence.AuthorisedReworkReopens | edge/kanban-github-sync.py:3710-3824 | an authorised label command reopens a parked or blocked card and opens the next round, as one exit of a pass |
| Quiescence.RetryCommentReopens | edge/kanban-github-sync.py:7043-7203 | a maintainer's retry comment for the open round reopens the card from review, done or blocked |
| Quiescence.SignalSupersedes | edge/kanban-github-sync.py:7209-7373 | a supersede signal for the only linked request, closed without a merge, sends the card back and is consumed |
| Quiescence.ResponseResumes | edge/kanban-github-sync.py:1957-2026 | a trusted answer that was not the last one used resumes a blocked card without pull request |
| Quiescence.AcceptedDeliveryParks | edge/kanban-github-sync.py:6619-6660 | an accepted delivery of a card whose worker is gone is recorded and parks it for review |
| Quiescence.RefusedDeliveryRequeues | edge/kanban-github-sync.py:6336-6385 | a refused delivery sends a done card, or one whose worker is gone, back to its lane unless the breaker blocks it |
| Quiescence.MergedRootConverges | edge/kanban-github-sync.py:2857-3284 | a waiting root under a closed Issue whose requests all landed is finished with its parents |
| Quiescence.BlockedCardIsProjected | edge/kanban-github-sync.py:3827-4090 | a blocked card is completed by a done verdict and parked by an open request |
| Quiescence.ExitsAreGuarded | edge/kanban-github-sync.py:7376-8163 | every exit needs its parents gate, its status, and, to reopen a card, a ready Issue and its own command or signal |
| Quiescence.OthersAreFree | edge/kanban-github-sync.py:7376-8163 | between passes others may give the card any status, worker and parents, but touch neither its log nor its evidence |
| ResourceAdmission.ActiveResourceWorkers | edge/kanban_resource_admission.py:435-527 | the list counts every occupied slot of every board once: live recorded workers of matching runs and cards, and reservations |
| ResourceAdmission.ScanRuns | edge/kanban_resource_admission.py:453-478 | the run rows of one board, also those whose card is gone, add exactly their live matching workers, without duplicates |
| ResourceAdmission.ScanCards | edge/kanban_resource_admission.py:480-522 | the running cards of one board add exactly their recorded workers or reservations, without duplicates |
| ResourceAdmission.SlotsOnWhen | edge/kanban_resource_admission.py:453-522 | read off the tables: whose live process and which running card take a slot on a board, and under which name |
| ResourceAdmission.PolicyFor | edge/kanban_resource_admission.py:206-226 | a resource is resolved exactly when one group matches |
| AdmissionProtocol.FullScanCounts | edge/kanban_resource_admission.py:435-527 | a scan of all boards, however interleaved with spawns, exits and completions, never counts less than what is occupied |
| AdmissionProtocol.ScanFindsSlot | edge/kanban_resource_admission.py:453-527 | one look at a board misses no occupied slot on it |
| AdmissionProtocol.ScanIsExact | edge/kanban_resource_admission.py:453-527 | where processes are known for what they are and no PID was reused, one look at a board counts exactly its occupied slots |
| AdmissionProtocol.ReapsWhen | edge/kanban_resource_admission.py:325-382 | the reap check ends exactly the newest recorded process, exactly when its run ended, it is alive, verified and the kill succeeds; it also moves on when that process is gone or not the card's; otherwise the lock goes back and everything lives |
| AdmissionProtocol.NothingToReap | edge/kanban_resource_admission.py:325-340 | without a recorded run the check moves on and every process lives |
| AdmissionProtocol.OthersCanHappen | edge/kanban_dynamic_resource_core.py:1411-1507 | whatever the dispatchers do, processes come and go, a claim can be given up, and an ungrouped card can be claimed |
| AdmissionProtocol.StepsAreGuarded | edge/kanban_dynamic_resource_core.py:1411-1507 | every step needs what the source asks for: an idle dispatcher and a free lock, a full count below the capacity, a waiting card without process, a running card to complete |
| AdmissionProtocol.ClaimFits | edge/kanban_dynamic_resource_core.py:1466-1494 | a claim that its scan allows leaves the resource within its capacity |
| AdmissionProtocol.ClaimOccupied | edge/kanban_dynamic_resource_core.py:1491-1507 | a claim occupies exactly one slot more on its resource and none elsewhere |
| AdmissionProtocol.RecordKeeps | edge/kanban_resource_admission.py:483-527 | recording a PID turns a reservation into a worker without breaking any scan under way |
| AdmissionProtocol.ClaimKeeps | edge/kanban_dynamic_resource_core.py:1411-1507 | a claim keeps the counts of all other resources valid, because the lock is held throughout |
| AdmissionTheorems.CapacityHolds | edge/kanban_dynamic_resource_core.py:1411-1507 | over every interleaving in which no live worker's run ends before its PID is on record, reservations plus live workers stay within the capacity (or below what the run began with), and so do live processes |
| AdmissionTheorems.OnlyFittingClaimsRaise | edge/kanban_dynamic_resource_core.py:1466-1494 | in such runs only a gated claim takes a slot, and whatever the run began with it leaves the resource within its capacity |
| AdmissionTheorems.NextKeeps | edge/kanban_dynamic_resource_core.py:1411-1507 | every step of every party keeps the invariant of locks, history, scans and bounds, unless it ends the run of a live worker that is not on record |
| AdmissionProtocol.EarlyEndKeeps | edge/kanban-github-sync.py:8754-8770 | a run that ends before its PID is recorded keeps the invariant when its process is gone or its card is in no resource group |
| AdmissionTheorems.EarlyEndCount | edge/kanban-github-sync.py:8754-8770 | an early end neither frees nor takes a slot: the forgotten worker still uses the one its reservation had |
| SingleWorker.AtMostOneWorker | edge/kanban_resource_admission.py:311-382 | over any run that keeps both guards (runs end on record, and no reap check lets a claim of a reservation go on whose process may live) a gated card has at most one live worker |
| SingleWorker.QuiesceOwned | edge/kanban_resource_admission.py:325-382 | after a reap check that meets no such reservation nothing of the card is alive, although only the newest recorded process was looked at |
| SingleWorker.NewestIsLast | edge/kanban_resource_admission.py:311-322 | the query for the newest recorded run finds the run of the latest claim |
| SingleWorker.TwoReadsMissAWorker | edge/kanban_resource_admission.py:453-489 | run rows read before a worker is recorded and card rows read after its run ended miss a live worker |
| Overbooking.EarlyEndOverbooks | edge/kanban-github-sync.py:8754-8770 | from every quiet start with one free slot, a run that keeps the reap guard and ends one run early reaches two live workers of one gated card and holds two slots more, so it exceeds a capacity with one free slot |
| Overbooking.EarlyEndAdmitsSecond | edge/kanban-github-sync.py:8754-8770 | after any early end of a live worker with a free counted slot, a second worker of the card can start, and the resource holds one slot more than when the run ended |
| Overbooking.RivalsStartTwoWorkers | edge/kanban_dynamic_resource_core.py:1435-1494 | from every quiet start with two free slots, on any number of boards, a run in which every run ends on record reaches two live workers of one gated card |
| Overbooking.ReservationPassesTheReap | edge/kanban_dynamic_resource_core.py:1435-1494 | whenever a claim goes on although its card is a reservation, not yet spawned or with a live process, a free counted slot is enough for a second live worker |
| Overbooking.LeadsIsRun | edge/kanban_dynamic_resource_core.py:1411-1507 | what guarded steps lead to from a start is reached by a run of the protocol that keeps the same guards |
| DryRunReplay.DryRun | edge/kanban_dynamic_resource_core.py:757-962 | the retained list and the whole list of diagnostics, deferrals first and then one report for each crowded row, cut at the limit, for every candidate list, profile probe, count failure and pending row |
| DryRunReplay.ReplayCandidates | edge/kanban_dynamic_resource_core.py:786-835 | the replay stops exactly on an unavailable probe, and otherwise defers exactly the candidates whose rank on their resource leaves no free slot |
| DryRunReplay.ReplayOne | edge/kanban_dynamic_resource_core.py:786-835 | one candidate: its verdict is recorded or it takes a virtual slot |
| DryRunReplay.ReportPending | edge/kanban_dynamic_resource_core.py:837-875 | exactly the waiting rows whose resource the candidates fill up are reported, in order, with the slots then in use, and never a candidate |
| DryRunReplay.Retain | edge/kanban_dynamic_resource_core.py:946-962 | the retained list is an order-preserving selection of the candidates, at exactly the positions whose id no diagnostic names |
| ReplayTheorems.DryRunIsFaithful | edge/kanban_dynamic_resource_core.py:757-962 | with existing profiles and distinct ids the retained list is what sequential gated claims admit, in order, exactly when the deferrals fit the limit |
| ReplayTheorems.ClaimsFollowRank | edge/kanban_dynamic_resource_core.py:1474-1494 | sequential claims admit a candidate exactly when its rank leaves a free slot |
| ReplayTheorems.KeepIsAdmitted | edge/kanban_dynamic_resource_core.py:919-962 | filtering by the deferred ids leaves exactly the admitted candidates |
| ReplayTheorems.TruncationLetsOneThrough | edge/kanban_dynamic_resource_core.py:877 | a truncated list always lets through a candidate that no claim admits |
| ReplayTheorems.ClaimShowsAsOneSlot | edge/kanban_dynamic_resource_core.py:1491-1494 | in the protocol a claim adds exactly its own reservation to what its board shows |
| ReworkRounds.LatestLabel | edge/kanban-github-sync.py:1016-1034 | the newest label event, identified only if every event of its second is |
| ReworkRounds.Evaluate | edge/kanban-github-sync.py:1093-1200 | a rework is authorised exactly for the one open labelled pull request, by a trusted, identified and fresh command, on a ready Issue; each refusal stands for what it says |
| ReworkRounds.FreshWhen | edge/kanban-github-sync.py:1037-1072 | a command is fresh before any round when identified; later it must be newer than the event in force and its command, or share that command's second with a larger id |
| ReworkRounds.FindRetrySignal | edge/kanban-github-sync.py:6950-6994 | the newest trusted exact unconsumed comment after the baseline, or there is none |
| ReworkRounds.Card.ApplyRework | edge/kanban-github-sync.py:3710-3824 | the card is reopened with its claim, worker and block cleared, reserved for the lane and given the next round number in one step, or nothing changes |
| ReworkRounds.NewRoundIsValid | edge/kanban-github-sync.py:3710-3824 | what a rework writes passes validation exactly for its own repository, Issue and pull request, given a full head and positive ids |
| ReworkRounds.CurrentRoundDelivery | edge/kanban-github-sync.py:6436-6525 | the newest delivery that speaks for the event's round, or there is none; the scan may stop at the first older one |
| RoundTheorems.CommandsAreOneShot | edge/kanban-github-sync.py:1037-1072 | over any log in which retries are not stamped before a consumed command, no label command opens two rounds: they strictly increase in (time, event id) |
| RoundTheorems.RetriesAreOneShot | edge/kanban-github-sync.py:6922-6994 | over any log no retry comment opens two rounds, and round numbers strictly increase |
| RoundTheorems.RoundsAreNumbered | edge/kanban-github-sync.py:3770-3798 | over any log the rounds carry exactly the numbers from 1 to their count |
| RoundTheorems.RetryForgetsCommands | edge/kanban-github-sync.py:4185-4202 | right after a retry round a command is accepted exactly when dated after that entry, consumed before or not |
| RoundTheorems.LabelRoundAdmitsLater | edge/kanban-github-sync.py:1037-1072 | right after a label round a command is fresh exactly when later than entry and command, or in the command's second, not before the entry, with a larger id |
| RoundTheorems.RequeueAdmitsLater | edge/kanban-github-sync.py:1037-1072 | a requeue moves only the entry time; the round's command still bounds what is fresh |
| RoundTheorems.LaterCommandOpens | edge/kanban-github-sync.py:1093-1200 | whatever round is in force, a trusted label later than everything on record is authorised and opens the next round |
| RoundTheorems.NextKeepsBase | edge/kanban-github-sync.py:3710-3824 | every writer keeps order, one-shot retries, numbering, and deliveries bound to the round in force |
| RoundTheorems.NextKeeps | edge/kanban-github-sync.py:3710-3824 | every writer keeps the order of label commands too, if retries are stamped late |
| RoundTheorems.LatestAppend | edge/kanban-github-sync.py:4158-4182 | with nondecreasing times the event in force is the last one appended |
| RoundTheorems.DeliveriesAreIsolated | edge/kanban-github-sync.py:6436-6525 | over any log, a delivery that speaks for an event was recorded in that event's round |
| RoundTheorems.CurrentDeliveryIsOfTheRound | edge/kanban-github-sync.py:6436-6525 | over any log, the delivery looked up for an event was recorded in that event's round with a head the round accepts, and no later delivery of the round is passed over |
| RoundTheorems.DeliveriesWereAccepted | edge/kanban-github-sync.py:5255-5428 | over any log, every delivery was accepted by the delivery gate against the event then in force, and its head moved on from the first head of its round unless a maintainer asked again |
| RoundTheorems.RoundDeliveriesAreFound | edge/kanban-github-sync.py:6436-6525 | conversely, over any log, a delivery recorded in the round, no earlier than the event, speaks for it |
| DeliveryGate.AcceptedDeliveryIsSound | edge/kanban-github-sync.py:5255-5428 | an accepted delivery carries a head GitHub showed, with a trusted marker of this card and round, is not contradicted by the run, and moved on from the first head unless a maintainer asked again and the run attests it |
| DeliveryGate.PresentMarkerDecides | edge/kanban-github-sync.py:5283-5428 | with a marker on the pull request, acceptance is decided by round and run alone |
| DeliveryGate.AbsentMarkerDecides | edge/kanban-github-sync.py:5283-5428 | without a marker on the pull request, acceptance is decided by the marker the edge obtains, the round and the run |
| DeliveryGate.RefusedWhen | edge/kanban-github-sync.py:5255-5428 | each refusal of a delivery exactly when, in the order of the checks |
| DeliveryGate.CompletionMarker | edge/kanban-github-sync.py:4890-4951 | a marker is found exactly when one completes the round, and it is the newest that does |
| DeliveryGate.EdgeMarker | edge/kanban-github-sync.py:4954-5148 | a marker written by the edge carries the live head of an open pull request and was read back |
| DeliveryGate.EdgePostsWhen | edge/kanban-github-sync.py:4954-5148 | the edge posts exactly when request, Issue, run, head and account allow it and no marker stands, and obtains a marker exactly when one stands or its own is read back |
| DeliveryGate.WrittenMarkerCompletes | edge/kanban-github-sync.py:5100-5130 | what the edge writes is a marker its readers accept, for that card, head and round alone |
| DeliveryGate.NewerCommandOpens | edge/kanban-github-sync.py:6388-6412 | the gate steps back exactly for a command that would open the next round |
| DeliveryGate.EdgeWritesOnlyAttested | edge/kanban-github-sync.py:4972-5148 | whatever it reads, the edge posts for no head but the live one that the run attests, and only where no marker stands |
| DeliveryGate.EdgeWritesOnce | edge/kanban-github-sync.py:4972-5148 | once its marker was read back the edge never posts again for that round and head, as long as the comment stands |
| ReworkDispatch.Lane.Tick | edge/kanban-github-sync.py:8403-8796 | a worker is reported exactly when the board is below its cap, a card is pending, the oldest one passes the guards, an assignee resolves, the tick is not dry and everything after works; every other exit comes exactly when its step fails; at most one card is claimed, the running count never passes the cap, and the claim stays exactly on a started worker, a failed release or a crash while storing the workspace |
| ReworkDispatch.Lane.ClaimAndSpawn | edge/kanban-github-sync.py:8609-8796 | every exit of a claim exactly when its step fails; the claim is held or the card freed, failures are counted exactly, and both phases are noted on success |
| ReworkDispatch.Lane.Launch | edge/kanban-github-sync.py:8708-8796 | the worker is reported exactly when workspace, spawn and records all worked |
| ReworkDispatch.Lane.PendingRework | edge/kanban-github-sync.py:8305-8343 | exactly the unclaimed ready rows governed by a rework, oldest first |
| ReworkDispatch.Lane.ResolveAssignee | edge/kanban-github-sync.py:8346-8391 | the reservation gives way to a real profile, and a real assignee is kept |
| ReworkDispatch.Admission | edge/kanban-github-sync.py:8471-8568 | an admitted card has the event its context was built from, no working label and no other owner of its pull request; a card for which all that holds is admitted |
| ReworkDispatch.AdmittedWhen | edge/kanban-github-sync.py:8471-8568 | a card is admitted exactly when its event is valid and the one its context was built from, no worker shows on its pull request and no other card owns it; each refusal exactly when |
| ReworkDispatch.RunningGrowsByOne | edge/kanban-github-sync.py:8449-8457 | changing one row adds at most one running card |

## Left out

- Terminal merge convergence: walk, edges, roles and gate are each one atomic read; one call reads the clock once; the merge details in event payloads (list of converged cards, merged pull requests) are not modelled; the second ownership test under the lock is omitted because it cannot fail on equal rows.
- TerminalConvergence.FirstOwned: any owned card, where the source takes the first in id order; only the wording of a refusal depends on it.
- Provenance: letter case is folded for ASCII only; an unhashable `source` value, on which the source raises, is modelled as a refusal; floats and containers never print as a card id.
- Projection.ApplyDecision: the payload omits the pull-request lists, and reading the provenance header is a predicate on the body.
- SyncContext.RefreshKeepsHeader: speaks of bodies whose heading stands before the block; a body without the heading is parsed whole, the block included.
- Completion: pull requests arrive parsed, closing keywords as a set of Issue numbers; HTTP, GraphQL and pagination are parameters.
- SyncPass.ClassicPass: the other lanes of the pass are not in play here; `Quiescence` has them as exits. A dry run is left out.
- SyncPass.RepeatedPasses: the classic lane alone; all exits of a pass are covered by `Quiescence.PassesSettle`.
- Quiescence: which exit a pass takes also depends on labels that passes edit themselves, so any exit whose other guards hold is allowed, a superset of the source's choices; the pull requests and the Issue are frozen although passes comment on them; archived cards, the `changes_requested` normalisation and the entrypoint overlay are excluded.
- AdmissionProtocol: card ids are distinct across boards, each board is scanned in one look, the identity check is right when it is readable, configuration and assignees are fixed, and claimed rows carry their own assignee; the edge lane's own gate is not a step, because its rows may hold the reservation sentinel and then bypass it; reaping is one step, so a worker that dies slowly is one that the step ends.
- AdmissionTheorems.CapacityHolds: for runs in which no live worker's run ends before its PID is on record; the source does take that step, and it breaks the bound (`Overbooking.EarlyEndOverbooks`).
- AdmissionTheorems.OnlyFittingClaimsRaise: for the same runs; the claim after an early end counts too little.
- AdmissionTheorems.NextKeeps: a step that ends the run of an unrecorded live worker does not keep the invariant.
- SingleWorker.AtMostOneWorker: for runs that keep both guards, which the source does not enforce; without either one two workers are reachable (`Overbooking.RivalsStartTwoWorkers`, `Overbooking.EarlyEndOverbooks`).
- SingleWorker.QuiesceOwned: not for a reap check that meets a reservation whose process may live, where it is false.
- DryRunReplay.DryRun: the count of a resource either always succeeds or always fails within one dry run, and existence of a profile does not change.
- ReworkRounds.CurrentRoundDelivery: the log is given in (created_at, id) order, which nondecreasing database times guarantee; payloads are records, not JSON.
- RoundTheorems: passes over a card are serialised by the sync lock; rounds that normalise a `changes_requested` event are excluded, because they may be stamped ahead of the clock.
- RoundTheorems.CommandsAreOneShot: false where a retry round is stamped before a command already consumed (`RoundTheorems.RetryForgetsCommands`).
- DeliveryGate: comments are parsed handoffs; the diagnostic for malformed markers is left out.
- ReworkDispatch.Lane.Tick: other writers do not touch the claimed row during the tick; label cleanup callbacks and the projection-failure event are left out; reserving a released row always succeeds.
- ReworkDispatch.Lane.PendingRework: of the order, only that the first row is the oldest.
- ReworkDispatch.Lane.ResolveAssignee: the `assigned` event beside the new assignee is left out.
- Operator attention, comment wording, context rendering, workspace admission, the entrypoint overlay, installer code, the overview plugin and file locks are left out: they add text formatting or single checks.
