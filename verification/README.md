# Control scripts of the Nha Trang laundry: a Dafny model

The repository runs its shop and its own delivery loop with a handful of Python control scripts. Each
keeps state across runs that may stop, repeat or fail half-way. This project models six of them and
proves what they are for. Everything is stated for all inputs and, where the claim is about runs, for all
sequences of runs.

| part | files |
|---|---|
| the application-signal counter | `SignalWindows.dfy`, `SignalCursor.dfy`, `SignalIncidents.dfy` |
| the queue of alerts that could not be sent | `AlertText.dfy`, `PendingAlerts.dfy`, `PendingMessages.dfy`, `PendingCover.dfy`, `PendingRuns.dfy`, `PendingExamples.dfy`, `PendingLoss.dfy`, `PendingCut.dfy` |
| the automation lease and attempt state machine | `AutomationIds.dfy`, `AutomationState.dfy`, `AutomationRuns.dfy` |
| the tick controller and its agreement with that machine | `TickController.dfy`, `ControllerRefinement.dfy`, `ControllerLimits.dfy` |
| the journaled transaction and the queue transitions that feed it | `DeliveryGeneration.dfy`, `DeliveryJournal.dfy`, `DeliveryTransitions.dfy`, `DeliveryRuns.dfy` |
| the dependency checker | `DependencyGraph.dfy` |

`Basics.dfy` holds the two result datatypes and Python's notion of white space.
`dafny verify dfyconfig.toml` checks the whole project.

Code that updates state step by step is a method or a class whose `ensures` equate the new state with a
specification function; the lemmas are about those functions. Code that only computes is a function.

## Conventions

- Instants are integers (microseconds in the counter, seconds in the alert queue; the shop's clock is seven
  hours ahead of UTC). Clock readings, fresh lease identifiers, Git observations, and whether a send or a
  write succeeds are parameters.
- A SHA-256 digest is the value it was taken of, and canonical YAML is the document it was dumped from. A file that
  is not canonical is any other bytes, with what the loader makes of them.
- The durable steps of the transaction are one unit of `power` each. A process with too little power stops
  between two steps, so every value of `power` is one crash point.
- `Execute` in `AutomationState` is one command of `scripts/manage_automation_state.py` on the saved state.
  `Done` is a published change, `Already` the idempotent answer, and `WriteRejected` the parser inside
  `_write_state` refusing what the command was about to publish.
- A `Trial` in `PendingRuns` is one run of the relay: what its check says, the time, and whether the write
  before the send, the send and the write after it succeed.

## Where the code does less than its comments say

- A block commit is refused by the parser inside `_write_state` when the attempt in recovery has no branch,
  base or child run, though the command's own guards pass: `AutomationRuns.BlockCommitCanBeRejected` gives
  such a state that is not a migrated one. The same parser refuses to renew a lease that was acquired in the
  clock's future: `AutomationRuns.RenewalCanBeRejected`. `AutomationRuns.WriteRejectedExactly` shows that there
  is no third case, and `AutomationRuns.Closure` that neither arises in a state reached from the empty one while
  the clock does not go back.
- `READY_NEW` and `READY_RETRY` carry identifiers that `begin-attempt` refuses in two cases:
  the work item's name is longer than 105 characters (`ControllerLimits.LongNameIsRefused`), or another item
  already holds one of the two identifiers, because its attempt was begun with identifiers the controller did
  not make (`ControllerLimits.ReadyCanBeRefused` reaches such a state from the empty one by three accepted
  commands). `ControllerRefinement.ReadyIsAccepted` shows that there is no third case in any sound state.
- When such an attempt was begun on `main` itself and failed, its retry is accepted and the next tick blocks
  it: `ControllerLimits.RetryCanBlock` is such a run, and `ControllerRefinement.BegunMovesOn` has the exact
  condition.
- "An alert is deferred only once it is kept": with a full list, and one part of the current alert already
  kept only at its front, keeping the other part drops that one. `PendingLoss.CurrentCanBeLost` is such a
  run from the empty file, and `PendingRuns.NoLoss` and `PendingRuns.DeferralIsKept` give the exact condition.
- "The same words as the current alert are already in the message when the current one goes"
  (`scripts/shop_alert_pending.py:417`): not when the current alert is longer than the limit, because the message
  then holds only its clipped beginning, and a kept alert with the words of a later line still leaves the list.
  `PendingCut.CoveredCanBeCutOff` does so from the empty file in two runs, and `PendingCover.CoveredExactly` is the
  exact condition for every current and every kept alert. The ledger of `PendingRuns.Conservation` therefore has a
  column for alerts cut off in this way beside the delivered ones.
- "The run that read it alerted" (`scripts/check_shop_operations.py:694-696`): a line is spent once it lies in a full
  window of earlier lines, also when the run that read it counted fewer because the others were spent already.
  `SignalIncidents.BurstCanGoUnreported` has eight refusals within five minutes of which no run reports five.

## Model

| member | source | states |
|---|---|---|
| SignalWindows.Unspent | scripts/check_shop_operations.py:691-712 | the one pass with its moving frontier returns, in order, exactly the instants outside every full window that ends at an earlier line |
| SignalWindows.UnspentStaysBelow | scripts/check_shop_operations.py:691-712 | what remains never reaches the threshold in any window, whatever its end |
| SignalWindows.UnspentIdempotent | scripts/check_shop_operations.py:691-712 | removing spent lines a second time changes nothing |
| SignalWindows.Bisect | scripts/check_shop_operations.py:746-749 | both variants return the insertion point of a sorted list |
| SignalWindows.LastInstantIsEnough | scripts/check_shop_operations.py:715-751 | a window that holds a fresh line can end at its last recorded instant without losing a line |
| SignalWindows.MostInAnyWindow | scripts/check_shop_operations.py:715-751 | the bisecting search returns the maximum over all windows, with any end, that hold a fresh line, of the fresh and unspent earlier lines inside |
| SignalWindows.MergedCounts | scripts/check_shop_operations.py:735-749 | the merged list counts the same in every window as the two lists do, in whatever order they came |
| SignalWindows.KeepPermuted | scripts/check_shop_operations.py:691-712 | which earlier lines are unspent does not depend on the order they are given in |
| SignalCursor.Collect | scripts/check_shop_operations.py:773-786 | one pass keeps the first line of every identity within the clock limit and counts the unreadable ones |
| SignalCursor.CountApplicationSignals | scripts/check_shop_operations.py:754-841 | the figures of a run and the cursor it returns, with both rates maximal over all windows |
| SignalCursor.MovedIsSaved | scripts/check_shop_operations.py:803-818 | after a run, settled is at most through, through is within the clock limit, and all remembered instants lie between settled and through and within the overlap |
| SignalCursor.PositionInvariant | scripts/check_shop_operations.py:803-818 | over all runs the position never moves back, keeps that shape, and is never ahead of the clock again |
| SignalCursor.NeverStartsOver | scripts/check_shop_operations.py:766-769 | after the first run the reset for a position ahead of the clock is not taken |
| SignalCursor.CountedAtMostOnce | scripts/check_shop_operations.py:754-841 | no identity is counted by two runs, whatever the order or duplication of lines |
| SignalCursor.CountedExactlyOnce | scripts/check_shop_operations.py:754-841 | an identity that becomes readable before the settled instant passes it is counted by exactly one run |
| SignalCursor.ServerErrorsAreCountedKeys | scripts/check_shop_operations.py:680-688 | the number of server errors a run reports is the number of distinct counted identities that are one |
| SignalCursor.ErrorsAreReportedOnce | scripts/check_shop_operations.py:754-841 | two runs of a history never report the same server error |
| SignalCursor.ErrorsAddUp | scripts/check_shop_operations.py:754-841 | over a history the reported figures add up to the number of distinct server errors |
| SignalCursor.IdentityIsInjective | scripts/check_shop_operations.py:646-652 | lines with a correlation id and event names without a bar have one identity only if event, id and instant agree; without a bar in the id either, no line of any other name shares it |
| SignalCursor.CountedNames | scripts/check_shop_operations.py:666-680 | the event names a figure can count have no bar, and are never the identity of a line that is known by its bytes |
| SignalIncidents.IncidentAlertsOnce | scripts/check_shop_operations.py:691-751 | over all runs: once a window of one run reached the threshold, every later run that reads its lines again takes all of them as earlier ones, and no earlier line inside that window adds to its figure |
| SignalIncidents.BurstCanGoUnreported | scripts/check_shop_operations.py:691-751 | eight refusals within five minutes, read by two runs that report four each |
| AlertText.SplitForHours | scripts/shop_alert_pending.py:307-335 | the loop over lines splits exactly the alerts that mix the hours and whose lines all have a check, into the two groups |
| AlertText.GroupsPartition | scripts/shop_alert_pending.py:319-335 | the two groups hold every line exactly once |
| AlertText.BodyFits | scripts/shop_alert_pending.py:289-295 | an alert's body is no longer than its text |
| AlertText.LineThenRest | scripts/shop_alert_pending.py:307-335 | lines that are joined are read back as they were |
| PendingAlerts.Compose | scripts/shop_alert_pending.py:384-478 | the composed message and what it settles, from the current alert, the kept ones and the limits |
| PendingAlerts.PackEntries | scripts/shop_alert_pending.py:443-466 | the packing loop carries as many entries as fit, oldest first, and returns nothing exactly when the oldest is squeezed |
| PendingAlerts.KeepParts | scripts/shop_alert_pending.py:362-374 | the parts that are not kept yet, each once, clipped to what is kept |
| PendingMessages.LengthBound | scripts/shop_alert_pending.py:384-478 | no message is ever longer than the ceiling, whatever is kept and however long the current alert |
| PendingMessages.MessageLength | scripts/shop_alert_pending.py:516-520 | a message is its headings and one more line for each line of its section |
| PendingMessages.CurrentGoesFirst | scripts/shop_alert_pending.py:420-441 | a current alert within the limit goes first and whole unless it is deferred, and with `defer=False` it is never deferred |
| PendingCover.CoveredWhole | scripts/shop_alert_pending.py:417-418 | a current alert no longer than what is kept contains every line of each kept alert it covers |
| PendingCover.CoveredExactly | scripts/shop_alert_pending.py:417-418 | of any length, the clipped current alert contains every line of a kept alert it covers if and only if it is within the limit or each of these lines survives the clip: it is in the first 3799 characters, or was cut by the same clip |
| PendingCover.OwnCopyIsCovered | scripts/shop_alert_pending.py:338-341 | it does so for the kept copy of the current alert itself, however long |
| PendingCover.CarriedIsDelivered | scripts/shop_alert_pending.py:384-478 | each carried alert may go at this hour, and its whole body or each of its lines is in the message, unless a current alert over the limit covers it and is clipped before one of them |
| PendingMessages.EntryLength | scripts/shop_alert_pending.py:352-359 | a kept alert with fewer than 10 to the 35th tries has an entry short enough to go whole beside the headings and the note on a newer one |
| PendingMessages.NothingIsHeldBackSilently | scripts/shop_alert_pending.py:96-106 | a message that defers the current alert, or clips or leaves out the oldest kept one, says so |
| PendingMessages.ReportSaysHowMany | scripts/shop_alert_pending.py:435-476 | a dropped count is reported only in a message that says it |
| PendingMessages.OldestGoes | scripts/shop_alert_pending.py:384-478 | a message without a clipped entry carries an alert at least as old as any that may go |
| PendingMessages.NoGaps | scripts/shop_alert_pending.py:384-478 | the other alerts it carries leave no older one behind that may go |
| PendingMessages.SplitKeepsHours | scripts/shop_alert_pending.py:279-282 | of the two parts of a mixed alert one may always go and the other waits exactly while it is night; together they hold each line once and every check |
| PendingRuns.PendingFile.Prepare | scripts/shop_alert_pending.py:481-513 | the message and the file when it is sent: deferring writes first, and a failed write composes without deferring |
| PendingRuns.PendingFile.Relay | scripts/relay_shop_alert.py:365-473 | one run takes the file to its specified successor and returns the message and whether it was delivered |
| PendingRuns.AfterShape | scripts/shop_alert_pending.py:523-569 | a run removes the carried alerts, counts one more try for the tried ones, appends the new parts and drops and counts the oldest beyond the limit, and nothing else |
| PendingRuns.DeferralIsKept | scripts/shop_alert_pending.py:481-513 | a deferral finds a part on disk before the send if and only if the part is not merely among the alerts that the capping drops |
| PendingRuns.FailureIsKept | scripts/shop_alert_pending.py:523-546 | a failed and recorded send leaves a part in the queue under the same exact condition |
| PendingRuns.DeferredIsQueued | scripts/shop_alert_pending.py:549-569 | when the message beside it is delivered, a deferred part is always queued or was in that message |
| PendingRuns.NoLoss | scripts/shop_alert_pending.py:481-569 | in every run an alert within the limit goes first and whole, or each part is queued or was in the delivered message, or, with one successful write, each part is queued exactly under that condition; only when the send and every write fail is nothing kept |
| PendingRuns.Conservation | scripts/shop_alert_pending.py:377-381 | over all runs every text ever kept was delivered, was cut off, is queued or was dropped, exactly once; the count is those dropped less those reported; the queue is bounded |
| PendingRuns.LedgerIsTrue | scripts/relay_shop_alert.py:449-467 | what counts as delivered was: a sent message contains the alert's body, or each of its lines |
| PendingRuns.CutOffIsExact | scripts/relay_shop_alert.py:449-467 | what counts as cut off left the list beside a sent message that starts with the current alert, over the limit and clipped, whose clipped words lack one of its lines |
| PendingRuns.CountIsClearedByItsReport | scripts/shop_alert_pending.py:549-569 | the dropped count goes back, to zero, only when a sent message said it |
| PendingRuns.ClearMovesUp | scripts/shop_alert_pending.py:384-478 | a recorded send without a clipped entry takes a sendable alert off the list as settled, drops and counts it, or moves it nearer the front |
| PendingRuns.WaitIsBounded | scripts/shop_alert_pending.py:384-478 | over all runs an alert at position `i` sees at most `i + 1` such sends while it is queued |
| PendingRuns.FollowedStays | scripts/shop_alert_pending.py:523-569 | until then it is where it is followed to, with its words, checks and first time |
| PendingRuns.FollowIsRight | scripts/shop_alert_pending.py:523-569 | one run leaves it there, with one more try exactly if it was tried |
| PendingRuns.QueueIsStorable | scripts/shop_alert_pending.py:362-374 | short of 10 to the 35th runs, whatever is queued fits whole in a message of its own |
| PendingRuns.KeptOnce | scripts/shop_alert_pending.py:362-374 | over all runs, however often an alert is raised again, no text is queued twice |
| PendingLoss.CurrentCanBeLost | scripts/shop_alert_pending.py:377-381 | from the empty file, by runs whose sends all fail and whose writes all succeed: a full list of distinct alerts, and a next run after which a part of its alert, queued before, is not queued, while over all of these runs nothing was delivered and nothing cut off |
| PendingCut.CoveredCanBeCutOff | scripts/shop_alert_pending.py:417-418 | from the empty file, in two runs: an alert of 52 characters whose send fails, then one over 4000 that covers it and is sent; the file is empty again, and the message does not name the short one's check |
| PendingExamples.MixedParts | scripts/shop_alert_pending.py:307-335 | an alert of an any-hour and a quiet-hours check splits into exactly the alerts of its two checks |
| PendingExamples.MixedCovers | scripts/shop_alert_pending.py:338-359 | and it covers the kept alert of the quiet-hours one |
| PendingLoss.NothingIsDelivered | scripts/relay_shop_alert.py:419-448 | runs whose sends fail enter nothing as delivered and nothing as cut off |
| AutomationIds.NumeralEnds | scripts/manage_automation_state.py:821-856 | an identifier that ends with a digit after a delimiter has that digit as its number |
| AutomationState.StateDirectory.AcquireLease | scripts/manage_automation_state.py:904-958 | taking over, renewing or refusing, as specified on the saved state |
| AutomationState.StateDirectory.ReleaseLease | scripts/manage_automation_state.py:961-977 | only the live owner with its identifier clears the lease |
| AutomationState.StateDirectory.WriteState | scripts/manage_automation_state.py:714-726 | a state is published only if the recovery parser accepts it |
| AutomationState.StateDirectory.Begin | scripts/manage_automation_state.py:980-1071 | the command refuses, answers idempotently or starts the next attempt, as specified |
| AutomationState.StateDirectory.BeginOn | scripts/manage_automation_state.py:1005-1071 | what it makes of the work item |
| AutomationState.StateDirectory.OpenCurrent | scripts/manage_automation_state.py:1074-1085 | the checks every attempt command starts with |
| AutomationState.StateDirectory.Attach | scripts/manage_automation_state.py:1088-1122 | attaching the child session |
| AutomationState.StateDirectory.AdvancePhase | scripts/manage_automation_state.py:1167-1197 | the two plain phase changes |
| AutomationState.StateDirectory.RecordTask | scripts/manage_automation_state.py:1200-1236 | recording the task commit once |
| AutomationState.StateDirectory.RecordControl | scripts/manage_automation_state.py:1263-1368 | recording a delivery commit after the merge or a block commit in recovery, once |
| AutomationState.StateDirectory.RequireRecovery | scripts/manage_automation_state.py:1371-1398 | only before the merge |
| AutomationState.StateDirectory.Conclude | scripts/manage_automation_state.py:1401-1467 | the four result rules |
| AutomationRuns.StepParses | scripts/manage_automation_state.py:341-463 | the parser accepts what an attempt command makes of an item exactly unless it blocks one that cannot be recovered |
| AutomationRuns.WriteRejectedExactly | scripts/manage_automation_state.py:714-726 | the check inside the write refuses a command exactly in the two cases named above |
| AutomationRuns.BlockCommitCanBeRejected | scripts/manage_automation_state.py:1317-1368 | a state and a command of the first case |
| AutomationRuns.RenewalCanBeRejected | scripts/manage_automation_state.py:904-958 | a state and a command of the second case |
| AutomationRuns.Closure | scripts/manage_automation_state.py:714-726 | from a sound state no command is refused by that check, and the state stays sound: one attempt in flight at most, both ordinals equal to the attempt counter |
| AutomationRuns.EmptyIsSound | scripts/manage_automation_state.py:612-620 | the state before the first command is sound |
| AutomationRuns.RunsStaySound | scripts/manage_automation_state.py:582-609 | so every reachable state can be read by the next process |
| AutomationRuns.Fencing | scripts/manage_automation_state.py:890-977 | over any run, a command that presents a retired lease identifier is refused and changes nothing |
| AutomationRuns.RetiredIsFenced | scripts/manage_automation_state.py:890-977 | over any run, once a command has released or taken over a lease, every later command that presents it is refused and changes nothing |
| AutomationRuns.OneActiveLease | scripts/manage_automation_state.py:890-958 | two identifiers are never both accepted by one state |
| AutomationRuns.ReplaySafety | scripts/manage_automation_state.py:980-1467 | repeating an accepted attempt command under the same live lease succeeds and leaves the whole state unchanged |
| AutomationRuns.CommandShortensLife | scripts/manage_automation_state.py:980-1467 | each change of an item strictly lowers its attempts and phases left and keeps what the attempt has recorded, and a new attempt begins only when none is in flight |
| AutomationRuns.BoundedLife | scripts/manage_automation_state.py:980-1467 | over all runs at most 21 commands change a work item, and what an attempt has recorded stays until the next one |
| AutomationRuns.AttemptEndsFirst | scripts/manage_automation_state.py:980-1467 | before a work item has more attempts the current one was terminal after some command of the run, as passed if it was merged |
| AutomationRuns.LastAttemptEnds | scripts/manage_automation_state.py:980-1467 | over any run the third attempt stays the last, and ends only as passed or blocked, as passed if it was merged |
| AutomationRuns.NoRetryAfterTheLast | scripts/manage_automation_state.py:1401-1467 | a failed, stopped or timed-out result of the third attempt is refused and changes nothing |
| TickController.DecideInFlight | scripts/run_automation_tick.py:258-270 | an action for the attempt in flight names it and carries its metadata |
| TickController.DecideRecovery | scripts/run_automation_tick.py:364-418 | the only record it names is the block commit, of a recoverable attempt, at the observed head |
| TickController.DecideMerged | scripts/run_automation_tick.py:454-491 | the only record it names is the delivery commit, at the observed head |
| ControllerRefinement.AttemptIdShape | scripts/run_automation_tick.py:221-231 | the attempt identifier carries its ordinal and is valid exactly up to 105 characters of name |
| ControllerRefinement.ChildRunIdShape | scripts/run_automation_tick.py:221-231 | the same for the child run, up to 107 |
| ControllerRefinement.AttemptIdsAreDistinct | scripts/run_automation_tick.py:221-231 | two attempts never share an attempt identifier |
| ControllerRefinement.ChildRunIdsAreDistinct | scripts/run_automation_tick.py:221-231 | nor a child run |
| ControllerRefinement.BranchesAreBranches | scripts/run_automation_tick.py:221-231 | the branches it names satisfy the branch pattern |
| ControllerRefinement.FreshIds | scripts/manage_automation_state.py:1029-1035 | the next attempt's identifiers are not in use by any item |
| ControllerRefinement.EmptyIsControlled | scripts/run_automation_tick.py:221-231 | in the state before the first command every attempt has the identifiers the controller makes |
| ControllerRefinement.RunsStayControlled | scripts/run_automation_tick.py:221-231 | while every attempt is begun with identifiers the controller made, whatever else is commanded, every attempt keeps them |
| ControllerRefinement.ReadyIsAccepted | scripts/run_automation_tick.py:526-605 | in every sound state `begin-attempt` accepts what `READY_NEW` and `READY_RETRY` carry, and writes exactly that, if and only if the name has at most 105 characters and no item holds one of the two identifiers; otherwise it names which |
| ControllerRefinement.ReadyUnderController | scripts/run_automation_tick.py:526-605 | while attempts have the controller's own identifiers, the length of the name alone decides |
| ControllerLimits.ReadyCanBeRefused | scripts/manage_automation_state.py:1029-1035 | a run of three accepted commands from the empty state, after which what `READY_NEW` carries is refused as already in use |
| ControllerLimits.RetryCanBlock | scripts/run_automation_tick.py:339-341 | a run from the empty state after which a retry on `main` is accepted and the next tick blocks |
| ControllerLimits.LongNameIsRefused | scripts/manage_automation_state.py:815-818 | a `READY_NEW` for a name of 106 characters, refused |
| ControllerRefinement.ActIsAccepted | scripts/run_automation_tick.py:328-524 | each `RECORD_*` and `FINALIZE_*` action is accepted with the metadata it carries, with the exact state it leaves |
| ControllerRefinement.RecordedMovesOn | scripts/run_automation_tick.py:328-524 | after a record the same observation leads to the next action, never to the same one or to an inconsistency |
| ControllerRefinement.BegunMovesOn | scripts/run_automation_tick.py:334-363 | after any accepted `begin-attempt` the same observation creates the branch or takes up the child on it, unless the attempt's branch is `main`, which blocks |
| ControllerRefinement.ActsInPlace | scripts/run_automation_tick.py:273-605 | in every sound state the controller acts on the attempt's own branch, or at the tip of `main` with nothing but control files changed |
| ControllerRefinement.RecordsAreProven | scripts/run_automation_tick.py:243-255 | a merge is recorded only with `main` at the task commit; a passed or blocked end only with the queue agreeing and `main` clean at one control commit on the right parent |
| ControllerRefinement.RecordsExactly | scripts/run_automation_tick.py:364-524 | a `RECORD_*` or `FINALIZE_*` action is named if and only if the Git and queue evidence for it is there, phase by phase |
| DeliveryGeneration.Validate | scripts/delivery_state.py:246-324 | the validator accepts exactly the generations with distinct well-formed items, one current item at most, the one the state names, and every phase in step with its items |
| DeliveryGeneration.CheckItems | scripts/delivery_state.py:258-280 | what the loop over items collects, and when it refuses |
| DeliveryGeneration.CheckPhases | scripts/delivery_state.py:296-324 | what the loop over phases collects, and when it refuses |
| DeliveryJournal.DeliveryDirectory.RollForward | scripts/delivery_state.py:376-406 | the replacement loop, step by step on the disk, against its specification for every stopping point |
| DeliveryJournal.DeliveryDirectory.Recover | scripts/delivery_state.py:409-420 | recovery, for every stopping point |
| DeliveryJournal.DeliveryDirectory.Commit | scripts/delivery_state.py:423-440 | a commit, for every stopping point |
| DeliveryJournal.JournalHoldsItsGeneration | scripts/delivery_state.py:204-223 | a journal that is built is valid and holds the generation it was built from |
| DeliveryJournal.RecoveryIsAtomic | scripts/delivery_state.py:376-420 | with each of the three files as it was, whatever its bytes, or new, a recovery, wherever it stops, leaves such a disk or a finished one |
| DeliveryJournal.CommitIsAtomic | scripts/delivery_state.py:423-440 | over files of any bytes, a commit, wherever it stops, leaves them as they were, the new generation, or a journal that leads to it |
| DeliveryJournal.CrashAtomicity | scripts/delivery_state.py:376-440 | however many processes stop, and wherever, the next completed recovery leaves the three files in the last published generation, which is valid, or as they were at first if none was published, and touches no other file |
| DeliveryJournal.BadJournalChangesNothing | scripts/delivery_state.py:339-366 | a journal that is not exactly one valid generation is refused before any file is touched |
| DeliveryTransitions.LeastIsFirst | scripts/run_delivery_loop.py:114-133 | what is selected is startable, and no startable item comes before it |
| DeliveryTransitions.DeliveryControl.SynchronizeProgram | scripts/record_delivery_evidence.py:110-128 | the loop over phases, and when it refuses |
| DeliveryTransitions.DeliveryControl.Guard | scripts/record_delivery_evidence.py:145-237 | the guards of the four transitions, in their order |
| DeliveryTransitions.DeliveryControl.Apply | scripts/record_delivery_evidence.py:131-252 | a request is refused and changes nothing, or the three documents become the advanced generation |
| DeliveryTransitions.AdvancedIsValid | scripts/record_delivery_evidence.py:110-252 | whatever passes the guards yields a generation the validator accepts, and no phase is left without items |
| DeliveryTransitions.SelectedIsStartable | scripts/record_delivery_evidence.py:171-180 | what `--start` accepts is startable and first |
| DeliveryTransitions.DependenciesStayComplete | scripts/record_delivery_evidence.py:131-252 | one request keeps every dependency of what is in progress or complete complete |
| DeliveryTransitions.DeliverySafety | scripts/record_delivery_evidence.py:131-252 | so does any sequence of requests, and what is complete stays complete |
| DeliveryRuns.EvidenceSafety | scripts/record_delivery_evidence.py:145-252 | however many evidence processes run and wherever each stops, from files that are canonical or not, the next completed recovery leaves one generation in which no dependency is missing, and what was complete still is; files that are no generation stay as they are |
| DependencyGraph.Checker.Visit | scripts/check_context_drift.py:156-167 | the recursive search terminates on every graph and ends normally, at a real cycle or at a real unknown dependency |
| DependencyGraph.RequireAcyclic | scripts/check_context_drift.py:152-170 | it returns normally if and only if every dependency is a known node and no node lies on a cycle |
| DependencyGraph.DependenciesFirstMeansWellFormed | scripts/check_context_drift.py:152-170 | finishing every node after its dependencies rules out every cycle |
| DependencyGraph.CheckCapability | scripts/check_context_drift.py:212-223 | the check of direct dependencies accepts exactly the gate lists that leave out nothing their gates depend on, however far down |
| DependencyGraph.DirectClosureIsTransitive | scripts/check_context_drift.py:219-222 | a list closed under direct dependencies is closed under walks |

## Left out

- Files, locks, subprocesses, Docker, Git, HTTP, fsync and file modes: a durable step is atomic, a write or a send succeeds or fails, and one process runs at a time.
- Reading JSON, YAML, log lines and dates: a document that does not have the modelled types is outside the model, except where the code has a branch for it (unreadable log lines, an unparsable journal, a malformed Git entry).
- The migration of version 1 automation states; migrated items are modelled where the parser and the commands meet them, but the claims about reachable states start from states without them.
- The patterns for credential material in summaries and reasons: a summary carries whether one matches, and a reason or an evidence record is either accepted or absent.
- The form of lease identifiers: they are numbers, and the one `uuid4` would give is a parameter.
- An unreadable pending file, which is moved aside and reported, and the exit codes and log lines of the relay.
- `WorkItem`, `PendingState` and the delivery documents are values in a field of the class that saves them; the Python objects inside are updated in place, so sharing between them is not captured.
- SignalCursor.CountApplicationSignals: the remembered lines are a map where the code saves a sorted tuple, and a run that stops before saving its cursor is not part of a history.
- PendingRuns.WaitIsBounded: counts only recorded sends without a clipped entry; the code makes no progress on the queue in other runs.
- SignalCursor.IdentityIsInjective: the identity is then hashed and cut to 32 digits, and the instant is written in ISO form; both are taken as injective. A line of an uncounted event with a bar in its name can still share the identity of a counted line whose correlation id holds a bar.
- Whether reading only the end of the log gives the same rates as reading all of it; the counter's claims are about the lines it was given.
- Certificates, database grants, publishing, the web pages, the API services and the other checks: input and output around code not modelled here.
