/** The tick controller of `scripts/run_automation_tick.py`: the one next action for an observed
    automation state, delivery queue and Git worktree. */
module TickController {
  import opened Basics
  import opened AutomationIds
  import opened AutomationState
  import Delivery = DeliveryGeneration

  datatype Git = Git(branch: string, head: string, mainCommit: string, headParents: seq<string>, headPaths: seq<string>,
                     dirtyEntries: seq<string>, taskBaseIsAncestor: Option<bool>, taskDiffPaths: seq<string>,
                     retryHeadDescendsFromBase: Option<bool>)

  datatype Selected = Selected(id: string, status: Delivery.Status)

  datatype Metadata = Metadata(attempt: int, attemptId: string, baseCommit: string, branch: string, childRunId: string)

  datatype Action = CreateAttemptBranch | StartDeliveryItem | ReconcileChild(spawnAllowed: bool) | LegacyRecovery
    | PreserveFailedWork | SwitchToBaseForBlock | RecordUnstartedDeliveryBlock | RecordDeliveryBlock | CommitBlockState
    | NameBlockCommit | WaitForChild | ResumeVerification | ResumeMerge | ResumeFastForward | NameMerged
    | ResumeDeliveryCompletion | CommitDeliveryState | NameDeliveryCommit | FinalizeSuccessfulAttempt
    | FinalizeBlockedAttempt | PreserveRetryWork

  datatype Reason = ActiveLeaseRequired | LeaseFenceMismatch | MultipleNonterminalAttempts
    | AttemptRecoveryMetadataMissing | PreparedDeliveryStateMismatch | DeliveryStartedBeforeAttemptBranch
    | PreparedItemNotSelected | AttemptBranchPreconditionFailed | MainDivergedFromAttemptBase
    | PreparedWorktreeNotClean | PreparedRecoveryStateMismatch | BlockControlBaseNotClean
    | RecoveryBranchMismatch | BlockControlMainMismatch | BlockControlDirtyStateUnsafe
    | BlockControlCommitNotProven | RecoveryDeliveryStateMismatch | DeliveryAndAttemptMismatch
    | TaskCommitMetadataMissing | TaskCommitNotDescendedFromBase | TaskCommitMissingDeliveryClaim
    | TaskCommittedWorktreeNotClean | TaskBranchHeadMismatch | MergeRecoveryStateMismatch
    | PostMergeMainMismatch | DeliveryCompletionPreconditionFailed | PostMergeWorktreeNotClean
    | DeliveryStateBaseCommitMismatch | DeliveryCommitNotProven | PostMergeDeliveryStateMismatch
    | DeliveryCommitStateMismatch | BlockCommitStateMismatch | UnknownAttemptPhase
    | DeliverySnapshotInconsistent | AttemptLimitReached | PassedAttemptSelectedAgain
    | RetryableResultDeliveryStateMismatch | RetryRecoveryMetadataMissing | RetryBranchMismatch
    | MainDivergedFromRetryBase | RetryBranchNotDescendedFromBase | BlockedRetryDeliveryStateMismatch
    | BlockedRetryRequiresCleanMain | TerminalResultUnsupported | InProgressItemLacksTerminalAttempt
    | SelectedItemStatusUnsafe | NewWorkRequiresMain | MainHeadMismatch | MainWorktreeNotClean

  /** `Act` carries the item's metadata, with the delivery commit it is about to record. */
  datatype Decision =
    | Block(reason: Reason)
    | NoReadyWork
    | Act(action: Action, workItem: string, item: WorkItem, deliveryCommit: Option<string>)
    | ReadyNew(workItem: string, metadata: Metadata)
    | ReadyRetry(workItem: string, metadata: Metadata)
    | GuardError

  // ----- identifiers -----

  function Short(commit: string): string {
    if |commit| <= 12 then commit else commit[..12]
  }

  function Underscored(s: string): (r: string)
    ensures |r| == |s|
  {
    seq(|s|, i requires 0 <= i < |s| => if s[i] == '-' then '_' else s[i])
  }

  function AttemptIdFor(workItem: string, base: string, ordinal: nat): string
    requires ordinal <= 9
  {
    ToLower(workItem) + ":" + Short(base) + ":attempt-" + [Numeral(ordinal)]
  }

  function ChildRunIdFor(workItem: string, base: string, ordinal: nat): string
    requires ordinal <= 9
  {
    "codex_" + Underscored(ToLower(workItem)) + "_" + Short(base) + "_" + [Numeral(ordinal)]
  }

  function BranchFor(workItem: string): string {
    "feature/auto-dev-" + ToLower(workItem)
  }

  /** `_attempt_metadata`. */
  function AttemptMetadata(workItem: string, base: string, ordinal: nat): Metadata
    requires ordinal <= 9
  {
    Metadata(ordinal, AttemptIdFor(workItem, base, ordinal), base, BranchFor(workItem),
             ChildRunIdFor(workItem, base, ordinal))
  }

  // ----- paths -----

  function Slashed(path: string): string {
    seq(|path|, i requires 0 <= i < |path| => if path[i] == '\\' then '/' else path[i])
  }

  function PathSet(paths: seq<string>): set<string> {
    set p | p in paths :: Slashed(p)
  }

  /** `_dirty_paths`; a malformed entry is an error. */
  predicate WellFormedEntries(entries: seq<string>) {
    forall e | e in entries :: |e| >= 4
  }

  function DirtyPaths(entries: seq<string>): set<string>
    requires WellFormedEntries(entries)
  {
    set e | e in entries :: Slashed(e[3..])
  }

  const REQUIRED_PATHS := {"delivery/LOOP_STATE.yaml", "delivery/WORK_QUEUE.yaml"}
  const CONTROL_PATHS := {"delivery/LOOP_STATE.yaml", "delivery/PROGRAM_PLAN.yaml", "delivery/WORK_QUEUE.yaml"}

  predicate ControlPaths(paths: set<string>) {
    REQUIRED_PATHS <= paths <= CONTROL_PATHS
  }

  /** `_control_commit_is_proven`. */
  predicate ControlCommitProven(parent: string, git: Git) {
    |git.headParents| == 1 && git.headParents[0] == parent && ControlPaths(PathSet(git.headPaths))
  }

  // ----- decisions for an attempt in flight -----

  /** What the decision for an attempt in flight is about; `Records` names the actions that record its progress. */
  predicate About(d: Decision, id: string, item: WorkItem) {
    !d.ReadyNew? && !d.ReadyRetry? && (d.Act? ==> d.workItem == id && d.item == item)
  }

  predicate Records(d: Decision) {
    d.Act? && (d.action.NameMerged? || d.action.NameDeliveryCommit? || d.action.NameBlockCommit?
               || d.action.FinalizeSuccessfulAttempt? || d.action.FinalizeBlockedAttempt?)
  }

  predicate Waiting(status: Option<Delivery.Status>) {
    status == Some(Delivery.Pending) || status == Some(Delivery.Ready)
  }

  predicate CleanMainAt(git: Git, commit: string) {
    git.head == git.mainCommit && git.mainCommit == commit && git.dirtyEntries == []
  }

  function DecidePrepared(id: string, item: WorkItem, status: Option<Delivery.Status>, isSelected: bool,
                          git: Git): (d: Decision)
    ensures About(d, id, item) && !Records(d)
  {
    if item.branch.None? || item.baseCommit.None? then Block(AttemptRecoveryMetadataMissing)
    else if !Waiting(status) && status != Some(Delivery.InProgress) then Block(PreparedDeliveryStateMismatch)
    else if git.branch == "main" then
      if status == Some(Delivery.InProgress) then Block(DeliveryStartedBeforeAttemptBranch)
      else if !isSelected then Block(PreparedItemNotSelected)
      else if !CleanMainAt(git, item.baseCommit.value) then Block(AttemptBranchPreconditionFailed)
      else Act(CreateAttemptBranch, id, item, item.deliveryCommit)
    else if git.branch == item.branch.value then
      if git.mainCommit != item.baseCommit.value then Block(MainDivergedFromAttemptBase)
      else if git.dirtyEntries != [] && Waiting(status) then Block(PreparedWorktreeNotClean)
      else if Waiting(status) && isSelected then Act(StartDeliveryItem, id, item, item.deliveryCommit)
      else if status == Some(Delivery.InProgress) && isSelected then
        if !WellFormedEntries(git.dirtyEntries) then GuardError
        else
          var dirty := DirtyPaths(git.dirtyEntries);
          Act(ReconcileChild(dirty == {} || ControlPaths(dirty)), id, item, item.deliveryCommit)
      else Block(PreparedRecoveryStateMismatch)
    else Block(PreparedRecoveryStateMismatch)
  }

  function DecideBlocking(id: string, item: WorkItem, git: Git, action: Action): (d: Decision)
    requires item.branch.Some? && item.baseCommit.Some?
    ensures About(d, id, item)
    ensures (d.Act? ==> d.action.PreserveFailedWork? || d.action.SwitchToBaseForBlock? || d.action == action)
  {
    if git.branch == item.branch.value then
      Act(if git.dirtyEntries != [] then PreserveFailedWork else SwitchToBaseForBlock, id, item, item.deliveryCommit)
    else if git.branch == "main" then
      if !CleanMainAt(git, item.baseCommit.value) then Block(BlockControlBaseNotClean)
      else Act(action, id, item, item.deliveryCommit)
    else Block(RecoveryBranchMismatch)
  }

  function DecideRecovery(id: string, item: WorkItem, status: Option<Delivery.Status>, isSelected: bool,
                          git: Git): (d: Decision)
    ensures About(d, id, item)
    ensures (Records(d) ==> d.action.NameBlockCommit? && Recoverable(item) && d.deliveryCommit == Some(git.head))
  {
    if !Recoverable(item) then Act(LegacyRecovery, id, item, item.deliveryCommit)
    else if Waiting(status) && isSelected then DecideBlocking(id, item, git, RecordUnstartedDeliveryBlock)
    else if status == Some(Delivery.InProgress) && isSelected then DecideBlocking(id, item, git, RecordDeliveryBlock)
    else if status == Some(Delivery.Blocked) then
      if git.branch != "main" || git.head != git.mainCommit then Block(BlockControlMainMismatch)
      else if !WellFormedEntries(git.dirtyEntries) then GuardError
      else
        var dirty := DirtyPaths(git.dirtyEntries);
        if dirty != {} then
          if git.head != item.baseCommit.value || !ControlPaths(dirty) then Block(BlockControlDirtyStateUnsafe)
          else Act(CommitBlockState, id, item, item.deliveryCommit)
        else if !ControlCommitProven(item.baseCommit.value, git) then Block(BlockControlCommitNotProven)
        else Act(NameBlockCommit, id, item, Some(git.head))
    else Block(RecoveryDeliveryStateMismatch)
  }

  function DecideTaskCommitted(id: string, item: WorkItem, status: Option<Delivery.Status>, isSelected: bool,
                               git: Git): (d: Decision)
    ensures About(d, id, item) && (Records(d) ==> d.action.NameMerged?)
  {
    if status != Some(Delivery.InProgress) || !isSelected then Block(DeliveryAndAttemptMismatch)
    else if item.taskCommit.None? || item.baseCommit.None? then Block(TaskCommitMetadataMissing)
    else if git.taskBaseIsAncestor != Some(true) then Block(TaskCommitNotDescendedFromBase)
    else if !(REQUIRED_PATHS <= PathSet(git.taskDiffPaths)) then Block(TaskCommitMissingDeliveryClaim)
    else if git.dirtyEntries != [] then Block(TaskCommittedWorktreeNotClean)
    else if Some(git.branch) == item.branch then
      if git.head != item.taskCommit.value then Block(TaskBranchHeadMismatch)
      else if git.mainCommit != item.baseCommit.value then Block(MainDivergedFromAttemptBase)
      else Act(ResumeMerge, id, item, item.deliveryCommit)
    else if git.branch == "main" && git.head == git.mainCommit == item.baseCommit.value then
      Act(ResumeFastForward, id, item, item.deliveryCommit)
    else if git.branch == "main" && git.head == git.mainCommit == item.taskCommit.value then
      Act(NameMerged, id, item, item.deliveryCommit)
    else Block(MergeRecoveryStateMismatch)
  }

  function DecideMerged(id: string, item: WorkItem, status: Option<Delivery.Status>, isSelected: bool,
                        git: Git): (d: Decision)
    ensures About(d, id, item) && (Records(d) ==> d.action.NameDeliveryCommit? && d.deliveryCommit == Some(git.head))
  {
    if item.taskCommit.None? || item.baseCommit.None? || git.taskBaseIsAncestor != Some(true)
    then Block(TaskCommitMetadataMissing)
    else if git.branch != "main" || git.head != git.mainCommit then Block(PostMergeMainMismatch)
    else if !WellFormedEntries(git.dirtyEntries) then GuardError
    else
      var dirty := DirtyPaths(git.dirtyEntries);
      if status == Some(Delivery.InProgress) then
        if !isSelected || git.head != item.taskCommit.value || dirty != {}
        then Block(DeliveryCompletionPreconditionFailed)
        else Act(ResumeDeliveryCompletion, id, item, item.deliveryCommit)
      else if status == Some(Delivery.Complete) then
        if dirty != {} && !ControlPaths(dirty) then Block(PostMergeWorktreeNotClean)
        else if dirty != {} then
          if git.head != item.taskCommit.value then Block(DeliveryStateBaseCommitMismatch)
          else Act(CommitDeliveryState, id, item, item.deliveryCommit)
        else if !ControlCommitProven(item.taskCommit.value, git) then Block(DeliveryCommitNotProven)
        else Act(NameDeliveryCommit, id, item, Some(git.head))
      else Block(PostMergeDeliveryStateMismatch)
  }

  /** The worktree stands, clean, on the recorded control commit, a child of `parent`. */
  predicate AtControlCommit(commit: Option<string>, parent: Option<string>, git: Git) {
    && commit.Some? && parent.Some? && git.branch == "main" && git.head == git.mainCommit == commit.value
    && git.dirtyEntries == [] && ControlCommitProven(parent.value, git)
  }

  function DecideInFlight(id: string, item: WorkItem, status: Option<Delivery.Status>, isSelected: bool,
                          git: Git): (d: Decision)
    ensures About(d, id, item)
  {
    match item.phase
    case None => Block(UnknownAttemptPhase)
    case Some(phase) =>
      match phase
      case Prepared => DecidePrepared(id, item, status, isSelected, git)
      case RecoveryRequired => DecideRecovery(id, item, status, isSelected, git)
      case TaskCommitted => DecideTaskCommitted(id, item, status, isSelected, git)
      case Merged => DecideMerged(id, item, status, isSelected, git)
      case DeliveryCommitted =>
        if status != Some(Delivery.Complete) || !AtControlCommit(item.deliveryCommit, item.taskCommit, git)
        then Block(DeliveryCommitStateMismatch) else Act(FinalizeSuccessfulAttempt, id, item, item.deliveryCommit)
      case BlockCommitted =>
        if status != Some(Delivery.Blocked) || !AtControlCommit(item.deliveryCommit, item.baseCommit, git)
        then Block(BlockCommitStateMismatch) else Act(FinalizeBlockedAttempt, id, item, item.deliveryCommit)
      case Terminal => Block(UnknownAttemptPhase)
      case _ =>
        if status != Some(Delivery.InProgress) || !isSelected then Block(DeliveryAndAttemptMismatch)
        else if Some(git.branch) != item.branch then Block(RecoveryBranchMismatch)
        else Act(if phase.ChildRunning? then WaitForChild else ResumeVerification, id, item, item.deliveryCommit)
  }

  // ----- decisions for selected work -----

  function DecideAfterTerminal(id: string, prior: WorkItem, status: Delivery.Status, git: Git): Decision
    requires 0 <= prior.attempts < MAX_ATTEMPTS
  {
    if prior.lastResult == Some(Passed) then Block(PassedAttemptSelectedAgain)
    else if prior.lastResult.Some? && Retryable(prior.lastResult.value) then
      if !status.InProgress? then Block(RetryableResultDeliveryStateMismatch)
      else if prior.branch.None? || prior.baseCommit.None? then Block(RetryRecoveryMetadataMissing)
      else if git.branch != prior.branch.value then Block(RetryBranchMismatch)
      else if git.mainCommit != prior.baseCommit.value then Block(MainDivergedFromRetryBase)
      else if git.retryHeadDescendsFromBase != Some(true) then Block(RetryBranchNotDescendedFromBase)
      else if git.dirtyEntries != [] then Act(PreserveRetryWork, id, prior, prior.deliveryCommit)
      else ReadyRetry(id,
                      AttemptMetadata(id, prior.baseCommit.value, prior.attempts + 1).(branch := prior.branch.value))
    else if prior.lastResult == Some(Blocked) then
      if !Waiting(Some(status)) then Block(BlockedRetryDeliveryStateMismatch)
      else if git.branch != "main" || git.head != git.mainCommit || git.dirtyEntries != []
      then Block(BlockedRetryRequiresCleanMain)
      else ReadyRetry(id, AttemptMetadata(id, git.head, prior.attempts + 1)
                            .(branch := BranchFor(id) + "-attempt-" + [Numeral(prior.attempts + 1)]))
    else Block(TerminalResultUnsupported)
  }

  function DecideSelected(items: map<string, WorkItem>, selected: Selected, statuses: map<string, Delivery.Status>,
                          git: Git): Decision {
    var id, prior := selected.id, Present(items, selected.id);
    if !(id in statuses && statuses[id] == selected.status) then Block(DeliverySnapshotInconsistent)
    else if prior.attempts < 0 then GuardError
    else if prior.attempts >= MAX_ATTEMPTS then Block(AttemptLimitReached)
    else if prior.phase == Some(Terminal) then DecideAfterTerminal(id, prior, selected.status, git)
    else if selected.status.InProgress? then Block(InProgressItemLacksTerminalAttempt)
    else if !Waiting(Some(selected.status)) then Block(SelectedItemStatusUnsafe)
    else if git.branch != "main" then Block(NewWorkRequiresMain)
    else if git.head != git.mainCommit then Block(MainHeadMismatch)
    else if git.dirtyEntries != [] then Block(MainWorktreeNotClean)
    else ReadyNew(id, AttemptMetadata(id, git.head, prior.attempts + 1))
  }

  function ActiveIds(items: map<string, WorkItem>): set<string> {
    set id | id in items && items[id].attempts > 0 && items[id].phase != Some(Terminal)
  }

  /** What the controller observes besides the automation state. */
  datatype Observation = Observation(selected: Option<Selected>, statuses: map<string, Delivery.Status>, git: Git)

  /** `decide_tick`; the status command reports a lease as active while it has not expired. */
  ghost function DecideTick(s: State, o: Observation, owner: string, leaseId: LeaseId, now: int): Decision {
    if s.lease.None? then Block(ActiveLeaseRequired)
    else if s.lease.value.owner != owner || s.lease.value.id != leaseId || s.lease.value.expiresAt <= now
    then Block(LeaseFenceMismatch)
    else
      var active := ActiveIds(s.workItems);
      if |active| > 1 then Block(MultipleNonterminalAttempts)
      else if active != {} then
        var id :| id in active;
        DecideInFlight(id, s.workItems[id], if id in o.statuses then Some(o.statuses[id]) else None,
                       o.selected.Some? && o.selected.value.id == id, o.git)
      else if o.selected.None? then NoReadyWork
      else DecideSelected(s.workItems, o.selected.value, o.statuses, o.git)
  }
}
