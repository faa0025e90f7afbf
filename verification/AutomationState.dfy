/** The automation lease and the attempt state machine of `scripts/manage_automation_state.py`. */
module AutomationState {
  import opened Basics
  import opened AutomationIds

  const MAX_ATTEMPTS: nat := 3
  const MAX_TTL := 86_400
  const MAX_SUMMARY := 2_000

  /** A canonical UUID. */
  type LeaseId = nat

  datatype Lease = Lease(id: LeaseId, owner: string, acquiredAt: int, expiresAt: int, ttl: int)

  datatype Phase = Prepared | ChildRunning | Verifying | TaskCommitted | Merged | DeliveryCommitted
    | BlockCommitted | Terminal | RecoveryRequired

  datatype Verdict = Passed | Failed | Blocked | Stopped | TimedOut

  /** A summary, and whether one of the patterns for credential material matches it. */
  datatype Summary = Summary(text: string, sensitive: bool)

  datatype WorkItem = WorkItem(attempts: int, attemptId: Option<string>, lastAttemptAt: Option<int>,
    lastResult: Option<Verdict>, lastSummary: Option<Summary>, lastResultAt: Option<int>, phase: Option<Phase>,
    branch: Option<string>, baseCommit: Option<string>, childRunId: Option<string>, childSession: Option<string>,
    taskCommit: Option<string>, deliveryCommit: Option<string>, legacyMigrated: bool)

  datatype State = State(updatedAt: int, lease: Option<Lease>, workItems: map<string, WorkItem>)

  const EMPTY_ITEM := WorkItem(0, None, None, None, None, None, None, None, None, None, None, None, None, false)

  predicate Retryable(v: Verdict) { v.Failed? || v.Stopped? || v.TimedOut? }

  predicate InFlight(item: WorkItem) {
    item.phase.Some? && item.phase.value != Terminal
  }

  // ----- the recovery parser -----

  predicate ValidSummary(s: Summary) {
    (exists i | 0 <= i < |s.text| :: !Space(s.text[i])) && |s.text| <= MAX_SUMMARY && '\0' !in s.text && !s.sensitive
  }

  predicate Optionally(value: Option<string>, accepts: string -> bool) {
    value.Some? ==> accepts(value.value)
  }

  predicate ParsesCommon(item: WorkItem) {
    && 0 <= item.attempts <= MAX_ATTEMPTS
    && Optionally(item.attemptId, s => Safe(s, 128))
    && (item.lastSummary.Some? ==> ValidSummary(item.lastSummary.value))
    && (item.attempts == 0 ==>
          item.attemptId.None? && item.lastAttemptAt.None? && item.lastResult.None? && item.lastSummary.None?
          && item.lastResultAt.None?)
    && (item.attempts > 0 ==> item.attemptId.Some? && item.lastAttemptAt.Some?)
    && item.lastResult.None? == item.lastSummary.None? == item.lastResultAt.None?
  }

  predicate ParsesStrings(item: WorkItem) {
    && Optionally(item.branch, Branch) && Optionally(item.baseCommit, Commit)
    && Optionally(item.childRunId, s => Safe(s, 128)) && Optionally(item.childSession, s => Safe(s, 256))
    && Optionally(item.taskCommit, Commit) && Optionally(item.deliveryCommit, Commit)
  }

  /** The attempt can be recovered: its branch, base and child run are known. */
  predicate Recoverable(item: WorkItem) {
    item.branch.Some? && item.baseCommit.Some? && item.childRunId.Some?
  }

  /** `_validate_phase_shape`. */
  predicate ValidShape(item: WorkItem) {
    if item.attempts == 0 then
      && !item.legacyMigrated && item.phase.None? && item.branch.None? && item.baseCommit.None? && item.childRunId.None?
      && item.childSession.None? && item.taskCommit.None? && item.deliveryCommit.None?
    else
      && item.phase.Some? && var phase := item.phase.value;
      && (item.legacyMigrated ==> phase.Terminal? || phase.RecoveryRequired?)
      && (!phase.Terminal? && !phase.RecoveryRequired? ==> Recoverable(item))
      && (phase in {ChildRunning, Verifying, TaskCommitted, Merged, DeliveryCommitted} ==> item.childSession.Some?)
      && (phase in {TaskCommitted, Merged, DeliveryCommitted} ==> item.taskCommit.Some?)
      && (phase in {Prepared, ChildRunning, Verifying} ==> item.taskCommit.None?)
      && (phase in {DeliveryCommitted, BlockCommitted} ==> item.deliveryCommit.Some?)
      && (phase !in {DeliveryCommitted, BlockCommitted, Terminal} ==> item.deliveryCommit.None?)
      && (phase.Prepared? ==> item.childSession.None?)
      && (phase.Terminal? <==> item.lastResult.Some?)
      && (phase.Terminal? ==> ValidTerminal(item))
  }

  predicate ValidTerminal(item: WorkItem)
    requires item.lastResult.Some?
  {
    var result := item.lastResult.value;
    var bare := item.legacyMigrated && item.branch.None? && item.baseCommit.None? && item.childRunId.None?
                && item.childSession.None? && item.taskCommit.None? && item.deliveryCommit.None?;
    && (result.Passed? && !bare ==>
          Recoverable(item) && item.childSession.Some? && item.taskCommit.Some? && item.deliveryCommit.Some?)
    && (result.Blocked? && !bare ==> Recoverable(item) && item.deliveryCommit.Some?)
    && (Retryable(result) ==> item.deliveryCommit.None?)
    && (!item.legacyMigrated ==> Recoverable(item))
    && (Retryable(result) ==> item.attempts < MAX_ATTEMPTS)
  }

  predicate ParsesItem(id: string, item: WorkItem) {
    WorkItemId(id) && ParsesCommon(item) && ParsesStrings(item) && ValidShape(item)
  }

  predicate ParsesLease(lease: Lease) {
    Safe(lease.owner, 128) && 1 <= lease.ttl <= MAX_TTL && lease.acquiredAt < lease.expiresAt
  }

  predicate AtMostOneInFlight(items: map<string, WorkItem>) {
    forall a, b | a in items && b in items && InFlight(items[a]) && InFlight(items[b]) :: a == b
  }

  /** `_parse_state` on the current schema. */
  predicate Parses(s: State) {
    && (forall id | id in s.workItems :: ParsesItem(id, s.workItems[id]))
    && AtMostOneInFlight(s.workItems) && (s.lease.Some? ==> ParsesLease(s.lease.value))
  }

  // ----- commands -----

  datatype Step = BeginAttempt(branch: string, baseCommit: string, childRunId: string) | AttachChild(session: string)
    | BeginVerification | RecordTaskCommit(taskCommit: string) | RecordMerged
    | RecordDeliveryCommit(deliveryCommit: string)
    | RecordBlockCommit(blockCommit: string) | RecordRecoveryRequired | RecordResult(verdict: Verdict, summary: Summary)

  datatype Command =
    | Acquire(owner: string, ttl: int, renewing: Option<LeaseId>)
    | Release(owner: string, leaseId: LeaseId)
    | OnItem(owner: string, leaseId: LeaseId, workItem: string, attemptId: string, step: Step)

  datatype Refusal = InvalidArgument | Unreadable | NoLease | LeaseBusy | NotARenewal | NoAttempt | NotCurrentAttempt
    | WrongPhase | AlreadyDifferent | WrongOrdinal | IdInUse | AnotherInFlight | AttemptLimit | ResultNotAllowed

  /** `Already` is the idempotent answer; `WriteRejected` is the parser refusing the state in `_write_state`. */
  datatype Reply = Done | Already | Refused(why: Refusal) | WriteRejected

  predicate ValidStep(step: Step) {
    match step
    case BeginAttempt(branch, base, run) => Branch(branch) && Commit(base) && Safe(run, 128) && RunOrdinal(run).Some?
    case AttachChild(session) => Safe(session, 256)
    case RecordTaskCommit(c) => Commit(c)
    case RecordDeliveryCommit(c) => Commit(c)
    case RecordBlockCommit(c) => Commit(c)
    case RecordResult(_, summary) => ValidSummary(summary)
    case _ => true
  }

  predicate ValidArguments(c: Command) {
    && Safe(c.owner, 128)
    && match c
       case Acquire(_, ttl, _) => 1 <= ttl <= MAX_TTL
       case Release(_, _) => true
       case OnItem(_, _, workItem, attemptId, step) =>
         && WorkItemId(workItem) && Safe(attemptId, 128) && ValidStep(step)
         && (step.BeginAttempt? ==> AttemptOrdinal(attemptId).Some?)
  }

  /** `_require_active_owner`. */
  function OwnerRefusal(s: State, owner: string, leaseId: LeaseId, now: int): Option<Refusal> {
    if s.lease.None? then Some(NoLease)
    else if s.lease.value.owner != owner || s.lease.value.id != leaseId || s.lease.value.expiresAt <= now
    then Some(LeaseBusy)
    else None
  }

  /** What a step makes of the work items: nothing, one changed item, or a refusal. */
  datatype Effect = Same | Becomes(item: WorkItem) | Refuses(why: Refusal)

  function Present(items: map<string, WorkItem>, id: string): WorkItem {
    if id in items then items[id] else EMPTY_ITEM
  }

  predicate IdTaken(items: map<string, WorkItem>, attemptId: string, childRunId: string) {
    exists other | other in items ::
        items[other].attemptId == Some(attemptId) || items[other].childRunId == Some(childRunId)
  }

  predicate AnyInFlight(items: map<string, WorkItem>) {
    exists other | other in items :: InFlight(items[other])
  }

  function BeginEffect(items: map<string, WorkItem>, id: string, attemptId: string, step: Step, now: int): Effect
    requires step.BeginAttempt?
  {
    var item, base, run := Present(items, id), ToLower(step.baseCommit), step.childRunId;
    if item.attemptId == Some(attemptId) then
      if item.branch != Some(step.branch) || item.baseCommit != Some(base) || item.childRunId != Some(run)
      then Refuses(AlreadyDifferent) else Same
    else if AttemptOrdinal(attemptId) != Some(item.attempts + 1) || RunOrdinal(run) != Some(item.attempts + 1)
    then Refuses(WrongOrdinal)
    else if IdTaken(items, attemptId, run) then Refuses(IdInUse)
    else if AnyInFlight(items) then Refuses(AnotherInFlight)
    else if item.attempts >= MAX_ATTEMPTS then Refuses(AttemptLimit)
    else Becomes(WorkItem(item.attempts + 1, Some(attemptId), Some(now), None, None, None, Some(Prepared),
                          Some(step.branch), Some(base), Some(run), None, None, None, false))
  }

  /** `_advance_phase`. */
  function AdvanceEffect(item: WorkItem, source: Phase, target: Phase): Effect {
    if item.phase == Some(target) then Same
    else if item.phase != Some(source) then Refuses(WrongPhase)
    else Becomes(item.(phase := Some(target)))
  }

  function ResultEffect(item: WorkItem, verdict: Verdict, summary: Summary, now: int): Effect {
    if item.phase == Some(Terminal) then
      if item.lastResult == Some(verdict) && item.lastSummary == Some(summary) then Same else Refuses(AlreadyDifferent)
    else if (verdict.Passed? && item.phase != Some(DeliveryCommitted)) || (verdict.Blocked?
             && item.phase != Some(BlockCommitted))
      || (Retryable(verdict) && item.attempts >= MAX_ATTEMPTS)
      || (Retryable(verdict)
          && item.phase !in {Some(Prepared), Some(ChildRunning), Some(Verifying), Some(TaskCommitted)})
    then Refuses(ResultNotAllowed)
    else Becomes(item.(lastResult := Some(verdict), lastSummary := Some(summary), lastResultAt := Some(now),
                       phase := Some(Terminal)))
  }

  function StepEffect(items: map<string, WorkItem>, id: string, attemptId: string, step: Step, now: int): Effect {
    if step.BeginAttempt? then BeginEffect(items, id, attemptId, step, now)
    else if id !in items || items[id].attempts == 0 then Refuses(NoAttempt)
    else if items[id].attemptId != Some(attemptId) then Refuses(NotCurrentAttempt)
    else
      var item := items[id];
      match step
      case AttachChild(session) =>
        if item.phase == Some(ChildRunning)
        then (if item.childSession != Some(session) then Refuses(AlreadyDifferent) else Same)
        else if item.phase != Some(Prepared) || item.childSession.Some? then Refuses(WrongPhase)
        else Becomes(item.(childSession := Some(session), phase := Some(ChildRunning)))
      case BeginVerification => AdvanceEffect(item, ChildRunning, Verifying)
      case RecordTaskCommit(c) =>
        if item.phase == Some(TaskCommitted)
        then (if item.taskCommit != Some(ToLower(c)) then Refuses(AlreadyDifferent) else Same)
        else if item.phase != Some(Verifying) || item.taskCommit.Some? then Refuses(WrongPhase)
        else Becomes(item.(taskCommit := Some(ToLower(c)), phase := Some(TaskCommitted)))
      case RecordMerged => AdvanceEffect(item, TaskCommitted, Merged)
      case RecordDeliveryCommit(c) =>
        if item.phase == Some(DeliveryCommitted)
        then (if item.deliveryCommit != Some(ToLower(c)) then Refuses(AlreadyDifferent) else Same)
        else if item.phase != Some(Merged) || item.deliveryCommit.Some? then Refuses(WrongPhase)
        else Becomes(item.(deliveryCommit := Some(ToLower(c)), phase := Some(DeliveryCommitted)))
      case RecordBlockCommit(c) =>
        if item.phase == Some(BlockCommitted)
        then (if item.deliveryCommit != Some(ToLower(c)) then Refuses(AlreadyDifferent) else Same)
        else if item.phase != Some(RecoveryRequired) || item.deliveryCommit.Some? then Refuses(WrongPhase)
        else Becomes(item.(deliveryCommit := Some(ToLower(c)), phase := Some(BlockCommitted)))
      case RecordRecoveryRequired =>
        if item.phase == Some(RecoveryRequired) then Same
        else if !InFlight(item) || item.phase in {Some(Merged), Some(DeliveryCommitted), Some(BlockCommitted)}
        then Refuses(WrongPhase)
        else Becomes(item.(phase := Some(RecoveryRequired)))
      case RecordResult(verdict, summary) => ResultEffect(item, verdict, summary, now)
  }

  /** `_write_state`: the new state is published only if the recovery parser accepts it. */
  function Written(s: State, next: State): (State, Reply) {
    if Parses(next) then (next, Done) else (s, WriteRejected)
  }

  function AcquireState(s: State, c: Command, now: int, minted: LeaseId): Result<State, Refusal>
    requires c.Acquire?
  {
    var live := s.lease.Some? && s.lease.value.expiresAt > now;
    if live && (s.lease.value.owner != c.owner || c.renewing != Some(s.lease.value.id)) then Failure(LeaseBusy)
    else if !live && c.renewing.Some? then Failure(NotARenewal)
    else
      var (id, acquired) := if live then (s.lease.value.id, s.lease.value.acquiredAt) else (minted, now);
      Success(s.(updatedAt := now, lease := Some(Lease(id, c.owner, acquired, now + c.ttl, c.ttl))))
  }

  /** One command on the saved state; `minted` is the identifier `uuid4` would give a new lease. */
  function Execute(s: State, c: Command, now: int, minted: LeaseId): (State, Reply) {
    if !ValidArguments(c) then (s, Refused(InvalidArgument))
    else if !Parses(s) then (s, Refused(Unreadable))
    else if c.Acquire? then
      match AcquireState(s, c, now, minted)
      case Failure(why) => (s, Refused(why))
      case Success(next) => Written(s, next)
    else if OwnerRefusal(s, c.owner, c.leaseId, now).Some?
    then (s, Refused(OwnerRefusal(s, c.owner, c.leaseId, now).value))
    else if c.Release? then Written(s, s.(lease := None, updatedAt := now))
    else Carried(s, c.workItem, StepEffect(s.workItems, c.workItem, c.attemptId, c.step, now), now)
  }

  function Carried(s: State, id: string, effect: Effect, now: int): (State, Reply) {
    match effect
    case Refuses(why) => (s, Refused(why))
    case Same => (s, Already)
    case Becomes(item) => Written(s, s.(updatedAt := now, workItems := s.workItems[id := item]))
  }

  /** A command that mints no lease took the saved state from `before` to `after`. */
  ghost predicate Executes(before: State, c: Command, now: int, after: State, reply: Reply) {
    forall minted :: (after, reply) == Execute(before, c, now, minted)
  }

  /** The common checks pass, so what the step makes of the item decides. */
  ghost predicate Decides(before: State, c: Command, now: int)
    requires c.OnItem?
  {
    var effect := StepEffect(before.workItems, c.workItem, c.attemptId, c.step, now);
    var (after, reply) := Carried(before, c.workItem, effect, now);
    Executes(before, c, now, after, reply)
  }

  // ----- the commands, on the saved file -----

  class StateDirectory {
    var saved: State

    constructor (s: State)
      ensures saved == s
    {
      saved := s;
    }

    /** `_write_state`. */
    method WriteState(next: State) returns (reply: Reply)
      modifies this
      ensures (saved, reply) == Written(old(saved), next)
    {
      if !Parses(next) {
        return WriteRejected;
      }
      saved := next;
      return Done;
    }

    method AcquireLease(owner: string, ttl: int, renewing: Option<LeaseId>, now: int,
                        minted: LeaseId) returns (reply: Reply)
      modifies this
      ensures (saved, reply) == Execute(old(saved), Acquire(owner, ttl, renewing), now, minted)
    {
      if !Safe(owner, 128) || !(1 <= ttl <= MAX_TTL) { return Refused(InvalidArgument); }
      if !Parses(saved) { return Refused(Unreadable); }
      var state, previous := saved, saved.lease;
      if previous.Some? && previous.value.expiresAt > now && (previous.value.owner != owner
                                                              || renewing != Some(previous.value.id)) {
        return Refused(LeaseBusy);
      }
      var next, acquiredAt := minted, now;
      if previous.None? || previous.value.expiresAt <= now {
        if renewing.Some? { return Refused(NotARenewal); }
      } else {
        next, acquiredAt := previous.value.id, previous.value.acquiredAt;
      }
      state := state.(lease := Some(Lease(next, owner, acquiredAt, now + ttl, ttl)));
      state := state.(updatedAt := now);
      reply := WriteState(state);
    }

    method ReleaseLease(owner: string, leaseId: LeaseId, now: int) returns (reply: Reply)
      modifies this
      ensures Executes(old(saved), Release(owner, leaseId), now, saved, reply)
    {
      if !Safe(owner, 128) { return Refused(InvalidArgument); }
      if !Parses(saved) { return Refused(Unreadable); }
      var refusal := OwnerRefusal(saved, owner, leaseId, now);
      if refusal.Some? { return Refused(refusal.value); }
      var state := saved.(lease := None);
      state := state.(updatedAt := now);
      reply := WriteState(state);
    }

    /** The checks that every work-item command starts with. */
    method Open(owner: string, leaseId: LeaseId, workItem: string, attemptId: string, step: Step,
                now: int) returns (refusal: Option<Refusal>)
      ensures refusal.Some? ==>
        Executes(saved, OnItem(owner, leaseId, workItem, attemptId, step), now, saved, Refused(refusal.value))
      ensures refusal.None? ==> Decides(saved, OnItem(owner, leaseId, workItem, attemptId, step), now)
    {
      if !ValidArguments(OnItem(owner, leaseId, workItem, attemptId, step)) { return Some(InvalidArgument); }
      if !Parses(saved) { return Some(Unreadable); }
      return OwnerRefusal(saved, owner, leaseId, now);
    }

    /** Publishes the item with its new phase and time. */
    method Save(workItem: string, item: WorkItem, now: int) returns (reply: Reply)
      modifies this
      ensures (saved, reply)
              == Written(old(saved), old(saved).(updatedAt := now, workItems := old(saved).workItems[workItem := item]))
    {
      reply := WriteState(saved.(updatedAt := now, workItems := saved.workItems[workItem := item]));
    }

    /** `begin_attempt`, after the common checks: what it makes of the item. */
    method BeginOn(workItem: string, attemptId: string, branch: string, baseCommit: string, childRunId: string,
                   now: int) returns (effect: Effect)
      ensures effect
              == BeginEffect(saved.workItems, workItem, attemptId, BeginAttempt(branch, baseCommit, childRunId), now)
    {
      var item, base := Present(saved.workItems, workItem), ToLower(baseCommit);
      if item.attemptId == Some(attemptId) {
        if item.branch != Some(branch) || item.baseCommit != Some(base) || item.childRunId != Some(childRunId) {
          return Refuses(AlreadyDifferent);
        }
        return Same;
      }
      var next := item.attempts + 1;
      if AttemptOrdinal(attemptId) != Some(next) || RunOrdinal(childRunId) != Some(next) {
        return Refuses(WrongOrdinal);
      }
      if IdTaken(saved.workItems, attemptId, childRunId) { return Refuses(IdInUse); }
      if AnyInFlight(saved.workItems) { return Refuses(AnotherInFlight); }
      if item.attempts >= MAX_ATTEMPTS { return Refuses(AttemptLimit); }
      item := item.(attempts := item.attempts + 1, attemptId := Some(attemptId), lastAttemptAt := Some(now));
      item := item.(lastResult := None, lastSummary := None, lastResultAt := None, phase := Some(Prepared));
      item := item.(branch := Some(branch), baseCommit := Some(base), childRunId := Some(childRunId));
      item := item.(childSession := None, taskCommit := None, deliveryCommit := None, legacyMigrated := false);
      return Becomes(item);
    }

    method Begin(owner: string, leaseId: LeaseId, workItem: string, attemptId: string, branch: string,
                 baseCommit: string, childRunId: string, now: int) returns (reply: Reply)
      modifies this
      ensures var step := BeginAttempt(branch, baseCommit, childRunId);
        Executes(old(saved), OnItem(owner, leaseId, workItem, attemptId, step), now, saved, reply)
    {
      var refusal := Open(owner, leaseId, workItem, attemptId, BeginAttempt(branch, baseCommit, childRunId), now);
      if refusal.Some? { return Refused(refusal.value); }
      var effect := BeginOn(workItem, attemptId, branch, baseCommit, childRunId, now);
      match effect {
        case Refuses(why) => reply := Refused(why);
        case Same => reply := Already;
        case Becomes(item) => reply := Save(workItem, item, now);
      }
    }

    /** `_require_current_attempt`, after the common checks. */
    method OpenCurrent(owner: string, leaseId: LeaseId, workItem: string, attemptId: string, step: Step,
                       now: int) returns (refusal: Option<Refusal>)
      requires !step.BeginAttempt?
      ensures refusal.Some? ==>
        Executes(saved, OnItem(owner, leaseId, workItem, attemptId, step), now, saved, Refused(refusal.value))
      ensures refusal.None? ==> Decides(saved, OnItem(owner, leaseId, workItem, attemptId, step), now)
      ensures refusal.None? ==> workItem in saved.workItems && saved.workItems[workItem].attempts != 0
      ensures refusal.None? ==> saved.workItems[workItem].attemptId == Some(attemptId)
    {
      refusal := Open(owner, leaseId, workItem, attemptId, step, now);
      if refusal.None? {
        if workItem !in saved.workItems || saved.workItems[workItem].attempts == 0 { return Some(NoAttempt); }
        if saved.workItems[workItem].attemptId != Some(attemptId) { return Some(NotCurrentAttempt); }
      }
    }

    method Attach(owner: string, leaseId: LeaseId, workItem: string, attemptId: string, session: string,
                  now: int) returns (reply: Reply)
      modifies this
      ensures Executes(old(saved), OnItem(owner, leaseId, workItem, attemptId, AttachChild(session)), now, saved, reply)
    {
      var refusal := OpenCurrent(owner, leaseId, workItem, attemptId, AttachChild(session), now);
      if refusal.Some? { return Refused(refusal.value); }
      var item := saved.workItems[workItem];
      if item.phase == Some(ChildRunning) {
        return if item.childSession != Some(session) then Refused(AlreadyDifferent) else Already;
      }
      if item.phase != Some(Prepared) || item.childSession.Some? { return Refused(WrongPhase); }
      item := item.(childSession := Some(session));
      item := item.(phase := Some(ChildRunning));
      reply := Save(workItem, item, now);
    }

    /** `_advance_phase`, for `begin_verification` and `record_merged`. */
    method AdvancePhase(owner: string, leaseId: LeaseId, workItem: string, attemptId: string, step: Step,
                        now: int) returns (reply: Reply)
      requires step.BeginVerification? || step.RecordMerged?
      modifies this
      ensures Executes(old(saved), OnItem(owner, leaseId, workItem, attemptId, step), now, saved, reply)
    {
      var source := if step.RecordMerged? then TaskCommitted else ChildRunning;
      var target := if step.RecordMerged? then Merged else Verifying;
      var refusal := OpenCurrent(owner, leaseId, workItem, attemptId, step, now);
      if refusal.Some? { return Refused(refusal.value); }
      var item := saved.workItems[workItem];
      if item.phase == Some(target) { return Already; }
      if item.phase != Some(source) { return Refused(WrongPhase); }
      item := item.(phase := Some(target));
      reply := Save(workItem, item, now);
    }

    method RecordTask(owner: string, leaseId: LeaseId, workItem: string, attemptId: string, commit: string,
                      now: int) returns (reply: Reply)
      modifies this
      ensures Executes(old(saved), OnItem(owner, leaseId, workItem, attemptId, RecordTaskCommit(commit)),
                       now, saved, reply)
    {
      var refusal := OpenCurrent(owner, leaseId, workItem, attemptId, RecordTaskCommit(commit), now);
      if refusal.Some? { return Refused(refusal.value); }
      var item, recorded := saved.workItems[workItem], Some(ToLower(commit));
      if item.phase == Some(TaskCommitted) {
        return if item.taskCommit != recorded then Refused(AlreadyDifferent) else Already;
      }
      if item.phase != Some(Verifying) || item.taskCommit.Some? { return Refused(WrongPhase); }
      item := item.(taskCommit := recorded);
      item := item.(phase := Some(TaskCommitted));
      reply := Save(workItem, item, now);
    }

    /** `record_delivery_commit` after a merge, `record_block_commit` when recovery is required. */
    method RecordControl(owner: string, leaseId: LeaseId, workItem: string, attemptId: string, step: Step,
                         now: int) returns (reply: Reply)
      requires step.RecordDeliveryCommit? || step.RecordBlockCommit?
      modifies this
      ensures Executes(old(saved), OnItem(owner, leaseId, workItem, attemptId, step), now, saved, reply)
    {
      var source, target, commit := Merged, DeliveryCommitted, "";
      if step.RecordBlockCommit? {
        source, target, commit := RecoveryRequired, BlockCommitted, step.blockCommit;
      } else {
        commit := step.deliveryCommit;
      }
      var refusal := OpenCurrent(owner, leaseId, workItem, attemptId, step, now);
      if refusal.Some? { return Refused(refusal.value); }
      var item, recorded := saved.workItems[workItem], Some(ToLower(commit));
      if item.phase == Some(target) {
        return if item.deliveryCommit != recorded then Refused(AlreadyDifferent) else Already;
      }
      if item.phase != Some(source) || item.deliveryCommit.Some? { return Refused(WrongPhase); }
      item := item.(deliveryCommit := recorded);
      item := item.(phase := Some(target));
      reply := Save(workItem, item, now);
    }

    method RequireRecovery(owner: string, leaseId: LeaseId, workItem: string, attemptId: string,
                           now: int) returns (reply: Reply)
      modifies this
      ensures Executes(old(saved), OnItem(owner, leaseId, workItem, attemptId, RecordRecoveryRequired),
                       now, saved, reply)
    {
      var refusal := OpenCurrent(owner, leaseId, workItem, attemptId, RecordRecoveryRequired, now);
      if refusal.Some? { return Refused(refusal.value); }
      var item := saved.workItems[workItem];
      if item.phase == Some(RecoveryRequired) { return Already; }
      if !InFlight(item) { return Refused(WrongPhase); }
      if item.phase in {Some(Merged), Some(DeliveryCommitted), Some(BlockCommitted)} { return Refused(WrongPhase); }
      item := item.(phase := Some(RecoveryRequired));
      reply := Save(workItem, item, now);
    }

    method Conclude(owner: string, leaseId: LeaseId, workItem: string, attemptId: string, verdict: Verdict,
                    summary: Summary, now: int) returns (reply: Reply)
      modifies this
      ensures Executes(old(saved), OnItem(owner, leaseId, workItem, attemptId, RecordResult(verdict, summary)),
                       now, saved, reply)
    {
      var refusal := OpenCurrent(owner, leaseId, workItem, attemptId, RecordResult(verdict, summary), now);
      if refusal.Some? { return Refused(refusal.value); }
      var item := saved.workItems[workItem];
      if item.phase == Some(Terminal) {
        return if item.lastResult == Some(verdict) && item.lastSummary == Some(summary) then Already
          else Refused(AlreadyDifferent);
      }
      if verdict.Passed? && item.phase != Some(DeliveryCommitted) { return Refused(ResultNotAllowed); }
      if verdict.Blocked? && item.phase != Some(BlockCommitted) { return Refused(ResultNotAllowed); }
      if Retryable(verdict) && item.attempts >= MAX_ATTEMPTS { return Refused(ResultNotAllowed); }
      if Retryable(verdict) && item.phase !in {Some(Prepared), Some(ChildRunning), Some(Verifying),
                                               Some(TaskCommitted)} {
        return Refused(ResultNotAllowed);
      }
      item := item.(lastResult := Some(verdict));
      item := item.(lastSummary := Some(summary));
      item := item.(lastResultAt := Some(now));
      item := item.(phase := Some(Terminal));
      reply := Save(workItem, item, now);
    }
  }
}
