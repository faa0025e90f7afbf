/** What every run of the automation commands keeps (`scripts/manage_automation_state.py`). */
module AutomationRuns {
  import opened Basics
  import opened AutomationIds
  import opened AutomationState

  // ----- closure: what a command writes, the next one can read -----

  /** An attempt that `begin_attempt` issued: recoverable, and its two ordinals are its number. */
  predicate Issued(item: WorkItem) {
    && !item.legacyMigrated
    && (item.attempts > 0 ==>
          Recoverable(item) && item.attemptId.Some?
          && AttemptOrdinal(item.attemptId.value) == Some(item.attempts)
          && RunOrdinal(item.childRunId.value) == Some(item.attempts))
  }

  /** The states that commands reach from an empty one. */
  predicate Sound(s: State) {
    && Parses(s) && (forall id | id in s.workItems :: Issued(s.workItems[id]))
    && (s.lease.Some? ==> s.lease.value.acquiredAt <= s.updatedAt)
  }

  /** The state before the first command. */
  function Empty(now: int): State { State(now, None, map[]) }

  lemma EmptyIsSound(now: int)
    ensures Sound(Empty(now))
  {
  }

  lemma LowerCommit(c: string)
    requires Commit(c)
    ensures Commit(ToLower(c))
  {
  }

  /** A changed item: the parser accepts it unless it blocks an attempt that cannot be recovered. */
  lemma StepParses(items: map<string, WorkItem>, id: string, attemptId: string, step: Step, now: int)
    requires WorkItemId(id) && Safe(attemptId, 128) && ValidStep(step) && (id in items ==> ParsesItem(id, items[id]))
    requires StepEffect(items, id, attemptId, step, now).Becomes?
    ensures var item := StepEffect(items, id, attemptId, step, now).item;
      ParsesItem(id, item) <==> !(step.RecordBlockCommit? && (items[id].legacyMigrated || !Recoverable(items[id])))
  {
    match step
    case BeginAttempt(_, _, _) => BegunParses(items, id, attemptId, step, now);
    case RecordTaskCommit(c) => LowerCommit(c);
    case RecordDeliveryCommit(c) => LowerCommit(c);
    case RecordBlockCommit(c) => LowerCommit(c);
    case _ =>
  }

  lemma BegunParses(items: map<string, WorkItem>, id: string, attemptId: string, step: Step, now: int)
    requires WorkItemId(id) && Safe(attemptId, 128) && ValidStep(step) && (id in items ==> ParsesItem(id, items[id]))
    requires step.BeginAttempt? && BeginEffect(items, id, attemptId, step, now).Becomes?
    ensures ParsesItem(id, BeginEffect(items, id, attemptId, step, now).item)
  {
    LowerCommit(step.baseCommit);
  }

  /** A step puts an item in flight only if it already was, or if none was. */
  lemma StepKeepsOneInFlight(items: map<string, WorkItem>, id: string, attemptId: string, step: Step, now: int)
    requires AtMostOneInFlight(items) && (id in items ==> ParsesItem(id, items[id]))
    requires StepEffect(items, id, attemptId, step, now).Becomes?
    ensures AtMostOneInFlight(items[id := StepEffect(items, id, attemptId, step, now).item])
  {
    var item := StepEffect(items, id, attemptId, step, now).item;
    var after := items[id := item];
    forall a, b | a in after && b in after && InFlight(after[a]) && InFlight(after[b]) ensures a == b {
      if step.BeginAttempt? {
        assert !AnyInFlight(items);
      } else {
        assert InFlight(items[id]);
      }
    }
  }

  /** Exactly when the parser refuses what a command is about to publish: blocking an attempt that lacks
      recovery metadata, or renewing a lease acquired too far in the clock's future. */
  predicate Unwritable(s: State, c: Command, now: int) {
    match c
    case Acquire(owner, ttl, _) =>
      s.lease.Some? && s.lease.value.expiresAt > now && now + ttl <= s.lease.value.acquiredAt
    case Release(_, _) => false
    case OnItem(_, _, id, _, step) =>
      step.RecordBlockCommit? && id in s.workItems && (s.workItems[id].legacyMigrated || !Recoverable(s.workItems[id]))
  }

  /** The command gets as far as `_write_state`. */
  predicate Writes(s: State, c: Command, now: int, minted: LeaseId) {
    ValidArguments(c) && Parses(s) && !Execute(s, c, now, minted).1.Refused? && Execute(s, c, now, minted).1 != Already
  }

  lemma WrittenItems(s: State, id: string, item: WorkItem, now: int)
    requires Parses(s) && AtMostOneInFlight(s.workItems[id := item])
    ensures Written(s, s.(updatedAt := now, workItems := s.workItems[id := item])).1
            == if ParsesItem(id, item) then Done else WriteRejected
  {
    var after := s.workItems[id := item];
    assert after[id] == item;
    assert forall other :: other in after ==>
      other == id || (other in s.workItems && after[other] == s.workItems[other]);
  }

  lemma WriteRejectedExactly(s: State, c: Command, now: int, minted: LeaseId)
    requires Writes(s, c, now, minted)
    ensures Execute(s, c, now, minted).1 == WriteRejected <==> Unwritable(s, c, now)
  {
    if c.OnItem? {
      var effect := StepEffect(s.workItems, c.workItem, c.attemptId, c.step, now);
      assert effect.Becomes? && Execute(s, c, now, minted) == Carried(s, c.workItem, effect, now);
      StepParses(s.workItems, c.workItem, c.attemptId, c.step, now);
      StepKeepsOneInFlight(s.workItems, c.workItem, c.attemptId, c.step, now);
      WrittenItems(s, c.workItem, effect.item, now);
    }
  }

  const STRANDED := EMPTY_ITEM.(attempts := 1, attemptId := Some("attempt-1"), lastAttemptAt := Some(0),
                                phase := Some(RecoveryRequired))

  lemma StrandedParses()
    ensures ParsesItem("AB-001", STRANDED) && Safe("attempt-1", 128) && Commit("0123456")
  {
  }

  /** The parser accepts an attempt in recovery without a branch; blocking it is then refused. */
  lemma BlockCommitCanBeRejected() returns (s: State, c: Command)
    ensures Parses(s) && (forall id :: id in s.workItems ==> !s.workItems[id].legacyMigrated)
    ensures Execute(s, c, 0, 0) == (s, WriteRejected)
  {
    StrandedParses();
    s := State(0, Some(Lease(7, "o", 0, 1, 1)), map["AB-001" := STRANDED]);
    c := OnItem("o", 7, "AB-001", "attempt-1", RecordBlockCommit("0123456"));
    assert Parses(s);
    assert StepEffect(s.workItems, "AB-001", "attempt-1", c.step, 0).Becomes?;
    assert Writes(s, c, 0, 0);
    WriteRejectedExactly(s, c, 0, 0);
  }

  /** The parser accepts a lease acquired in the clock's future; renewing it for less is then refused. */
  lemma RenewalCanBeRejected() returns (s: State, c: Command)
    ensures Parses(s) && c.Acquire? && c.renewing.Some? && Execute(s, c, 50, 0) == (s, WriteRejected)
  {
    s := State(0, Some(Lease(7, "o", 100, 200, 100)), map[]);
    c := Acquire("o", 1, Some(7));
    assert Safe("o", 128);
    WriteRejectedExactly(s, c, 50, 0);
  }

  lemma StepStaysIssued(items: map<string, WorkItem>, id: string, attemptId: string, step: Step, now: int)
    requires id in items ==> Issued(items[id])
    requires StepEffect(items, id, attemptId, step, now).Becomes?
    ensures Issued(StepEffect(items, id, attemptId, step, now).item)
  {
    if step.BeginAttempt? {
      BegunIsIssued(items, id, attemptId, step, now);
    }
  }

  lemma BegunIsIssued(items: map<string, WorkItem>, id: string, attemptId: string, step: Step, now: int)
    requires step.BeginAttempt? && BeginEffect(items, id, attemptId, step, now).Becomes?
    ensures Issued(BeginEffect(items, id, attemptId, step, now).item)
  {
  }

  lemma ItemClosure(s: State, c: Command, now: int, minted: LeaseId)
    requires Sound(s) && s.updatedAt <= now && c.OnItem? && Writes(s, c, now, minted)
    ensures Execute(s, c, now, minted).1 == Done && Sound(Execute(s, c, now, minted).0)
  {
    var items, id := s.workItems, c.workItem;
    var item := StepEffect(items, id, c.attemptId, c.step, now).item;
    assert id in items ==> Issued(items[id]);
    StepStaysIssued(items, id, c.attemptId, c.step, now);
    WriteRejectedExactly(s, c, now, minted);
  }

  lemma LeaseClosure(s: State, c: Command, now: int, minted: LeaseId)
    requires Sound(s) && s.updatedAt <= now && !c.OnItem? && Writes(s, c, now, minted)
    ensures Execute(s, c, now, minted).1 == Done && Sound(Execute(s, c, now, minted).0)
  {
    WriteRejectedExactly(s, c, now, minted);
    var after := Execute(s, c, now, minted).0;
    assert after.workItems == s.workItems;
  }

  lemma CarriedChanges(s: State, id: string, effect: Effect, now: int)
    ensures var (after, reply) := Carried(s, id, effect, now);
      (reply == Done ==> after.updatedAt == now && Parses(after)) && (reply != Done ==> after == s)
  {
  }

  /** Only a completed write changes the file, and it stamps the time. */
  lemma OnlyWritesChange(s: State, c: Command, now: int, minted: LeaseId)
    ensures var (after, reply) := Execute(s, c, now, minted);
      && (reply == Done ==> after.updatedAt == now && Parses(after)) && (reply != Done ==> after == s)
  {
    if c.OnItem? {
      var effect := StepEffect(s.workItems, c.workItem, c.attemptId, c.step, now);
      CarriedChanges(s, c.workItem, effect, now);
    }
  }

  lemma ReadableReply(s: State, c: Command, now: int, minted: LeaseId)
    requires Parses(s)
    ensures Execute(s, c, now, minted).1 != Refused(Unreadable)
  {
    if c.OnItem? {
      var effect := StepEffect(s.workItems, c.workItem, c.attemptId, c.step, now);
      NeverUnreadable(s.workItems, c.workItem, c.attemptId, c.step, now);
    }
  }

  lemma NeverUnreadable(items: map<string, WorkItem>, id: string, attemptId: string, step: Step, now: int)
    ensures StepEffect(items, id, attemptId, step, now) != Refuses(Unreadable)
  {
    match step
    case BeginAttempt(_, _, _) => BeginNeverUnreadable(items, id, attemptId, step, now);
    case RecordResult(verdict, summary) =>
      if id in items { ResultNeverUnreadable(items[id], verdict, summary, now); }
    case _ =>
  }

  lemma BeginNeverUnreadable(items: map<string, WorkItem>, id: string, attemptId: string, step: Step, now: int)
    requires step.BeginAttempt?
    ensures BeginEffect(items, id, attemptId, step, now) != Refuses(Unreadable)
  {
  }

  lemma ResultNeverUnreadable(item: WorkItem, verdict: Verdict, summary: Summary, now: int)
    ensures ResultEffect(item, verdict, summary, now) != Refuses(Unreadable)
  {
  }

  lemma DoneWrites(s: State, c: Command, now: int, minted: LeaseId)
    requires Parses(s) && (Execute(s, c, now, minted).1 == Done || Execute(s, c, now, minted).1 == WriteRejected)
    ensures Writes(s, c, now, minted)
  {
  }

  /** From a sound state, with a clock that does not go back: the write is never refused, and the state
      stays sound (at most one attempt in flight, both ordinals equal to the attempt counter). */
  lemma Closure(s: State, c: Command, now: int, minted: LeaseId)
    requires Sound(s) && s.updatedAt <= now
    ensures Sound(Execute(s, c, now, minted).0) && Execute(s, c, now, minted).0.updatedAt <= now
    ensures Execute(s, c, now, minted).1 != WriteRejected && Execute(s, c, now, minted).1 != Refused(Unreadable)
  {
    OnlyWritesChange(s, c, now, minted);
    ReadableReply(s, c, now, minted);
    if Execute(s, c, now, minted).1 == Done || Execute(s, c, now, minted).1 == WriteRejected {
      DoneWrites(s, c, now, minted);
      if c.OnItem? {
        ItemClosure(s, c, now, minted);
      } else {
        LeaseClosure(s, c, now, minted);
      }
    }
  }

  // ----- runs -----

  datatype Event = Event(command: Command, now: int, minted: LeaseId)

  function Run(s: State, events: seq<Event>): State
    decreases |events|
  {
    if events == [] then s else Run(Execute(s, events[0].command, events[0].now, events[0].minted).0, events[1..])
  }

  predicate ClockFrom(now: int, events: seq<Event>)
    decreases |events|
  {
    events != [] ==> now <= events[0].now && ClockFrom(events[0].now, events[1..])
  }

  /** Every reachable state is sound, so every saved file can be read by the next process. */
  lemma {:induction false} RunsStaySound(s: State, events: seq<Event>)
    requires Sound(s) && ClockFrom(s.updatedAt, events)
    ensures Sound(Run(s, events))
    decreases |events|
  {
    if events != [] {
      var e := events[0];
      Closure(s, e.command, e.now, e.minted);
      EarlierClock(Execute(s, e.command, e.now, e.minted).0.updatedAt, e.now, events[1..]);
      RunsStaySound(Execute(s, e.command, e.now, e.minted).0, events[1..]);
    }
  }

  lemma EarlierClock(earlier: int, now: int, events: seq<Event>)
    requires earlier <= now && ClockFrom(now, events)
    ensures ClockFrom(earlier, events)
  {
  }

  // ----- fencing -----

  /** The identifier gives no right at `now` or later: released, taken over, or expired. */
  predicate Dead(s: State, id: LeaseId, now: int) {
    s.lease.None? || s.lease.value.id != id || s.lease.value.expiresAt <= now
  }

  predicate Presents(c: Command, id: LeaseId) {
    match c
    case Acquire(_, _, renewing) => renewing == Some(id)
    case Release(_, leaseId) => leaseId == id
    case OnItem(_, leaseId, _, _, _) => leaseId == id
  }

  lemma DeadIsRefused(s: State, id: LeaseId, c: Command, now: int, minted: LeaseId)
    requires Dead(s, id, now) && Presents(c, id)
    ensures Execute(s, c, now, minted).0 == s && Execute(s, c, now, minted).1.Refused?
  {
  }

  lemma DeadStaysDead(s: State, id: LeaseId, c: Command, now: int, minted: LeaseId)
    requires Dead(s, id, now) && minted != id
    ensures Dead(Execute(s, c, now, minted).0, id, now)
  {
  }

  /** A release, a takeover or the clock retires an identifier. */
  lemma Retired(s: State, c: Command, now: int, minted: LeaseId)
    requires Execute(s, c, now, minted).1 == Done
    ensures c.Release? ==> Dead(Execute(s, c, now, minted).0, c.leaseId, now)
    ensures c.Acquire? && s.lease.Some? && minted != s.lease.value.id && c.renewing.None? ==>
      Dead(Execute(s, c, now, minted).0, s.lease.value.id, now)
  {
  }

  /** Once an identifier is dead, no later command that presents it changes anything, over any run in
      which new leases get new identifiers and the clock does not go back. */
  lemma {:induction false} Fencing(s: State, id: LeaseId, now: int, events: seq<Event>, k: nat)
    requires Dead(s, id, now) && ClockFrom(now, events) && k < |events|
    requires forall i :: 0 <= i < |events| ==> events[i].minted != id
    requires Presents(events[k].command, id)
    ensures Run(s, events[..k + 1]) == Run(s, events[..k])
    ensures Execute(Run(s, events[..k]), events[k].command, events[k].now, events[k].minted).1.Refused?
    decreases k
  {
    var e := events[0];
    assert Dead(s, id, e.now);
    assert events[..k + 1][0] == e;
    if k == 0 {
      DeadIsRefused(s, id, e.command, e.now, e.minted);
      assert events[..1][1..] == [];
    } else {
      DeadStaysDead(s, id, e.command, e.now, e.minted);
      Fencing(Execute(s, e.command, e.now, e.minted).0, id, e.now, events[1..], k - 1);
      assert events[..k + 1][1..] == events[1..][..k] && events[..k][1..] == events[1..][..k - 1];
    }
  }

  lemma {:induction false} RunSplit(s: State, events: seq<Event>, m: nat)
    requires m <= |events|
    ensures Run(s, events) == Run(Run(s, events[..m]), events[m..])
    decreases m
  {
    if m == 0 {
      assert events[0..] == events;
    } else {
      var e := events[0];
      RunSplit(Execute(s, e.command, e.now, e.minted).0, events[1..], m - 1);
      assert events[..m][0] == e && events[..m][1..] == events[1..][..m - 1] && events[m..] == events[1..][m - 1..];
    }
  }

  lemma {:induction false} ClockAfter(now: int, events: seq<Event>, j: nat)
    requires ClockFrom(now, events) && j < |events|
    ensures ClockFrom(events[j].now, events[j + 1..])
    decreases j
  {
    if j > 0 {
      ClockAfter(events[0].now, events[1..], j - 1);
      assert events[j + 1..] == events[1..][j..];
    }
  }

  /** The command releases the lease `id`, or takes over from it. */
  predicate Retires(s: State, c: Command, id: LeaseId) {
    (c.Release? && c.leaseId == id) || (c.Acquire? && c.renewing.None? && s.lease.Some? && s.lease.value.id == id)
  }

  lemma RunOneMore(s: State, events: seq<Event>, j: nat)
    requires j < |events|
    ensures var e := events[j];
      Run(s, events[..j + 1]) == Execute(Run(s, events[..j]), e.command, e.now, e.minted).0
  {
    RunSplit(s, events[..j + 1], j);
    assert events[..j + 1][..j] == events[..j] && events[..j + 1][j..] == [events[j]] && [events[j]][1..] == [];
  }

  lemma RunThrough(s: State, events: seq<Event>, j: nat, m: nat)
    requires j < m <= |events|
    ensures Run(s, events[..m]) == Run(Run(s, events[..j + 1]), events[j + 1..][..m - j - 1])
  {
    RunSplit(s, events[..m], j + 1);
    assert events[..m][..j + 1] == events[..j + 1] && events[..m][j + 1..] == events[j + 1..][..m - j - 1];
  }

  lemma RetiredIsDead(s: State, c: Command, now: int, minted: LeaseId, id: LeaseId)
    requires Retires(s, c, id) && minted != id && Execute(s, c, now, minted).1 == Done
    ensures Dead(Execute(s, c, now, minted).0, id, now)
  {
    Retired(s, c, now, minted);
  }

  /** Over any run in which new leases get new identifiers and the clock does not go back: once a command has
      released or taken over a lease, every later command that presents it is refused and changes nothing. */
  lemma RetiredIsFenced(s: State, events: seq<Event>, id: LeaseId, j: nat, k: nat)
    requires ClockFrom(s.updatedAt, events) && j < k < |events| && Presents(events[k].command, id)
    requires forall i :: j <= i < |events| ==> events[i].minted != id
    requires Retires(Run(s, events[..j]), events[j].command, id)
    requires var e := events[j]; Execute(Run(s, events[..j]), e.command, e.now, e.minted).1 == Done
    ensures Run(s, events[..k + 1]) == Run(s, events[..k])
    ensures Execute(Run(s, events[..k]), events[k].command, events[k].now, events[k].minted).1.Refused?
  {
    var before, e := Run(s, events[..j]), events[j];
    RunOneMore(s, events, j);
    RetiredIsDead(before, e.command, e.now, e.minted, id);
    DeadIsFenced(s, events, id, j, k);
  }

  lemma DeadIsFenced(s: State, events: seq<Event>, id: LeaseId, j: nat, k: nat)
    requires ClockFrom(s.updatedAt, events) && j < k < |events| && Presents(events[k].command, id)
    requires forall i :: j <= i < |events| ==> events[i].minted != id
    requires Dead(Run(s, events[..j + 1]), id, events[j].now)
    ensures Run(s, events[..k + 1]) == Run(s, events[..k])
    ensures Execute(Run(s, events[..k]), events[k].command, events[k].now, events[k].minted).1.Refused?
  {
    ClockAfter(s.updatedAt, events, j);
    Fencing(Run(s, events[..j + 1]), id, events[j].now, events[j + 1..], k - j - 1);
    RunThrough(s, events, j, k);
    RunThrough(s, events, j, k + 1);
  }

  /** Two identifiers are never both accepted by one state. */
  lemma OneActiveLease(s: State, a: Command, b: Command, now: int, minted: LeaseId, idA: LeaseId, idB: LeaseId)
    requires Presents(a, idA) && Presents(b, idB)
    requires !Execute(s, a, now, minted).1.Refused? && !Execute(s, b, now, minted).1.Refused?
    ensures idA == idB
  {
  }

  // ----- replay -----

  lemma StepReplays(items: map<string, WorkItem>, id: string, attemptId: string, step: Step, now: int, later: int)
    requires id in items ==> ParsesItem(id, items[id])
    requires StepEffect(items, id, attemptId, step, now).Becomes?
    ensures var item := StepEffect(items, id, attemptId, step, now).item;
      StepEffect(items[id := item], id, attemptId, step, later) == Same
  {
  }

  /** Repeating an attempt command that was just accepted, under the same unexpired lease, succeeds and
      changes nothing. */
  lemma ReplaySafety(s: State, c: Command, now: int, later: int, minted: LeaseId, minted': LeaseId)
    requires c.OnItem? && Execute(s, c, now, minted).1 in {Done, Already}
    requires s.lease.Some? && later < s.lease.value.expiresAt
    ensures var after := Execute(s, c, now, minted).0;
      Execute(after, c, later, minted') == (after, Already)
  {
    var after := Execute(s, c, now, minted).0;
    var effect := StepEffect(s.workItems, c.workItem, c.attemptId, c.step, now);
    if effect.Becomes? {
      StepReplays(s.workItems, c.workItem, c.attemptId, c.step, now, later);
      assert after == s.(updatedAt := now, workItems := s.workItems[c.workItem := effect.item]);
      assert StepEffect(after.workItems, c.workItem, c.attemptId, c.step, later) == Same;
    } else {
      SameLater(s.workItems, c.workItem, c.attemptId, c.step, now, later);
    }
  }

  lemma SameLater(items: map<string, WorkItem>, id: string, attemptId: string, step: Step, now: int, later: int)
    requires StepEffect(items, id, attemptId, step, now) == Same
    ensures StepEffect(items, id, attemptId, step, later) == Same
  {
  }

  // ----- the life of a work item -----

  /** How many phase changes the attempt still has at most. */
  function PhasesLeft(phase: Phase): nat {
    match phase
    case Prepared => 6
    case ChildRunning => 5
    case Verifying => 4
    case TaskCommitted => 3
    case Merged => 2
    case RecoveryRequired => 2
    case DeliveryCommitted => 1
    case BlockCommitted => 1
    case Terminal => 0
  }

  /** Seven changes to an attempt, beginning included, and three attempts. */
  function LifeLeft(item: WorkItem): int {
    7 * (MAX_ATTEMPTS - item.attempts) + if item.phase.Some? then PhasesLeft(item.phase.value) else 0
  }

  /** The work is merged: the attempt can end only as passed. */
  predicate PostMerge(item: WorkItem) {
    item.phase == Some(Merged) || item.phase == Some(DeliveryCommitted)
    || (item.phase == Some(Terminal) && item.lastResult == Some(Passed))
  }

  predicate KeptOnceSet(before: Option<string>, after: Option<string>) {
    before.Some? ==> after == before
  }

  /** `after` continues `before`: a later attempt, or the same one with everything recorded so far. */
  predicate Continues(before: WorkItem, after: WorkItem) {
    || before.attempts < after.attempts
    || (&& before.attempts == after.attempts
        && KeptOnceSet(before.attemptId, after.attemptId) && KeptOnceSet(before.branch, after.branch)
        && KeptOnceSet(before.baseCommit, after.baseCommit) && KeptOnceSet(before.childRunId, after.childRunId)
        && KeptOnceSet(before.childSession, after.childSession) && KeptOnceSet(before.taskCommit, after.taskCommit)
        && KeptOnceSet(before.deliveryCommit, after.deliveryCommit)
        && (PostMerge(before) ==> PostMerge(after))
        && (before.lastResult.Some? ==> after.lastResult == before.lastResult))
  }

  lemma BeginShortensLife(items: map<string, WorkItem>, id: string, attemptId: string, step: Step, now: int)
    requires (id in items ==> ParsesItem(id, items[id])) && step.BeginAttempt?
    requires BeginEffect(items, id, attemptId, step, now).Becomes?
    ensures var item := BeginEffect(items, id, attemptId, step, now).item;
      0 <= LifeLeft(item) < LifeLeft(Present(items, id)) && Present(items, id).attempts < item.attempts
    ensures !InFlight(Present(items, id))
  {
    assert id in items ==> !InFlight(items[id]);
  }

  lemma StepShortensLife(items: map<string, WorkItem>, id: string, attemptId: string, step: Step, now: int)
    requires id in items ==> ParsesItem(id, items[id])
    requires StepEffect(items, id, attemptId, step, now).Becomes?
    ensures var item := StepEffect(items, id, attemptId, step, now).item;
      && 0 <= LifeLeft(item) < LifeLeft(Present(items, id)) && Continues(Present(items, id), item)
      && (Present(items, id).attempts < item.attempts ==> !InFlight(Present(items, id)))
  {
    if step.BeginAttempt? {
      BeginShortensLife(items, id, attemptId, step, now);
    }
  }

  lemma ItemsAfter(s: State, c: Command, now: int, minted: LeaseId)
    requires Parses(s)
    ensures var after := Execute(s, c, now, minted).0;
      || after.workItems == s.workItems
      || (c.OnItem? && var effect := StepEffect(s.workItems, c.workItem, c.attemptId, c.step, now);
          effect.Becomes? && after.workItems == s.workItems[c.workItem := effect.item])
  {
    if c.OnItem? {
      var effect := StepEffect(s.workItems, c.workItem, c.attemptId, c.step, now);
      ExecuteCarries(s, c, now, minted);
      CarriedItems(s, c.workItem, effect, now);
    }
  }

  lemma ExecuteCarries(s: State, c: Command, now: int, minted: LeaseId)
    requires c.OnItem?
    ensures var effect := StepEffect(s.workItems, c.workItem, c.attemptId, c.step, now);
      Execute(s, c, now, minted).0 == s || Execute(s, c, now, minted) == Carried(s, c.workItem, effect, now)
  {
  }

  lemma CarriedItems(s: State, id: string, effect: Effect, now: int)
    ensures var after := Carried(s, id, effect, now).0;
      after.workItems == s.workItems || (effect.Becomes? && after.workItems == s.workItems[id := effect.item])
  {
  }

  /** What one command does to one work item; a new attempt begins only after the last one has ended. */
  lemma CommandShortensLife(s: State, c: Command, now: int, minted: LeaseId, id: string)
    requires Parses(s)
    ensures var before, after := Present(s.workItems, id), Present(Execute(s, c, now, minted).0.workItems, id);
      && Parses(Execute(s, c, now, minted).0) && Continues(before, after)
      && (after == before || 0 <= LifeLeft(after) < LifeLeft(before))
      && (before.attempts < after.attempts ==> !InFlight(before))
  {
    OnlyWritesChange(s, c, now, minted);
    ItemsAfter(s, c, now, minted);
    var after := Execute(s, c, now, minted).0;
    if after.workItems != s.workItems {
      StepShortensLife(s.workItems, c.workItem, c.attemptId, c.step, now);
      assert id != c.workItem ==> Present(after.workItems, id) == Present(s.workItems, id);
    }
  }

  /** How many commands of the run changed the work item. */
  function Changes(s: State, events: seq<Event>, id: string): nat
    decreases |events|
  {
    if events == [] then 0
    else
      var next := Execute(s, events[0].command, events[0].now, events[0].minted).0;
      (if Present(next.workItems, id) != Present(s.workItems, id) then 1 else 0) + Changes(next, events[1..], id)
  }

  /** Whatever the run: at most twenty-one commands change a work item, and what an attempt has recorded
      stays until the next attempt. */
  lemma {:induction false} BoundedLife(s: State, events: seq<Event>, id: string)
    requires Parses(s)
    ensures var before, after := Present(s.workItems, id), Present(Run(s, events).workItems, id);
      && Parses(Run(s, events)) && Continues(before, after)
      && Changes(s, events, id) <= LifeLeft(before) - LifeLeft(after) <= 21
    decreases |events|
  {
    LifeIsBounded(s, id);
    if events != [] {
      var e := events[0];
      CommandShortensLife(s, e.command, e.now, e.minted, id);
      BoundedLife(Execute(s, e.command, e.now, e.minted).0, events[1..], id);
    }
  }

  lemma LifeIsBounded(s: State, id: string)
    requires Parses(s)
    ensures 0 <= LifeLeft(Present(s.workItems, id)) <= 21
  {
  }

  /** The attempt that `item` is in has ended, as passed if it was merged before. */
  predicate EndOf(before: WorkItem, item: WorkItem) {
    && item.attempts == before.attempts && item.phase == Some(Terminal) && item.lastResult.Some?
    && (PostMerge(before) ==> item.lastResult == Some(Passed))
  }

  lemma EndedAlready(s: State, id: string)
    requires Parses(s) && 0 < Present(s.workItems, id).attempts && !InFlight(Present(s.workItems, id))
    ensures EndOf(Present(s.workItems, id), Present(s.workItems, id))
  {
    assert ParsesItem(id, s.workItems[id]);
  }

  lemma EndOfLater(before: WorkItem, next: WorkItem, item: WorkItem)
    requires Continues(before, next) && before.attempts == next.attempts && EndOf(next, item)
    ensures EndOf(before, item)
  {
  }

  /** No run abandons an attempt. Before a work item has more attempts, the current one was `TERMINAL` after
      some command, and with the result `PASSED` if it was merged. */
  lemma {:induction false} AttemptEndsFirst(s: State, events: seq<Event>, id: string) returns (k: nat)
    requires Parses(s) && 0 < Present(s.workItems, id).attempts < Present(Run(s, events).workItems, id).attempts
    ensures k < |events| && EndOf(Present(s.workItems, id), Present(Run(s, events[..k]).workItems, id))
    decreases |events|
  {
    var e := events[0];
    var next := Execute(s, e.command, e.now, e.minted).0;
    CommandShortensLife(s, e.command, e.now, e.minted, id);
    if Present(s.workItems, id).attempts < Present(next.workItems, id).attempts {
      k := 0;
      EndedAlready(s, id);
    } else {
      var m := AttemptEndsFirst(next, events[1..], id);
      k := m + 1;
      assert events[..k][0] == e && events[..k][1..] == events[1..][..m];
      EndOfLater(Present(s.workItems, id), Present(next.workItems, id), Present(Run(s, events[..k]).workItems, id));
    }
  }

  /** A failed, stopped or timed-out result is not accepted for the third attempt. */
  lemma NoRetryAfterTheLast(s: State, c: Command, now: int, minted: LeaseId)
    requires c.OnItem? && c.step.RecordResult? && Retryable(c.step.verdict)
    requires Present(s.workItems, c.workItem).attempts == MAX_ATTEMPTS
    ensures Execute(s, c, now, minted).0 == s && Execute(s, c, now, minted).1.Refused?
  {
    assert Parses(s) && c.workItem in s.workItems ==> ParsesItem(c.workItem, s.workItems[c.workItem]);
    if c.workItem in s.workItems && ParsesItem(c.workItem, s.workItems[c.workItem]) {
      LastResultIsRefused(s.workItems[c.workItem], c.step.verdict, c.step.summary, now);
    }
  }

  lemma LastResultIsRefused(item: WorkItem, verdict: Verdict, summary: Summary, now: int)
    requires ValidShape(item) && item.attempts == MAX_ATTEMPTS && Retryable(verdict)
    ensures ResultEffect(item, verdict, summary, now).Refuses?
  {
  }

  /** Over any run the third attempt stays the last, and ends only as passed or blocked. */
  lemma LastAttemptEnds(s: State, events: seq<Event>, id: string)
    requires Parses(s) && Present(s.workItems, id).attempts == MAX_ATTEMPTS
    ensures var item := Present(Run(s, events).workItems, id);
      && item.attempts == MAX_ATTEMPTS
      && (!InFlight(item) ==> item.lastResult == Some(Passed) || item.lastResult == Some(Blocked))
      && (PostMerge(Present(s.workItems, id)) && !InFlight(item) ==> item.lastResult == Some(Passed))
  {
    BoundedLife(s, events, id);
    PresentIsShaped(Run(s, events), id);
    ContinuesLast(Present(s.workItems, id), Present(Run(s, events).workItems, id));
  }

  lemma PresentIsShaped(s: State, id: string)
    requires Parses(s)
    ensures ParsesCommon(Present(s.workItems, id)) && ValidShape(Present(s.workItems, id))
  {
    assert id in s.workItems ==> ParsesItem(id, s.workItems[id]);
  }

  lemma ContinuesLast(before: WorkItem, after: WorkItem)
    requires Continues(before, after) && before.attempts == MAX_ATTEMPTS && ParsesCommon(after) && ValidShape(after)
    ensures after.attempts == MAX_ATTEMPTS
    ensures !InFlight(after) ==> after.lastResult == Some(Passed) || after.lastResult == Some(Blocked)
    ensures PostMerge(before) && !InFlight(after) ==> after.lastResult == Some(Passed)
  {
  }
}
