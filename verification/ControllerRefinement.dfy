/** The controller and the state commands agree: what `run_automation_tick.py` decides,
    `manage_automation_state.py` accepts, and the next tick on the same worktree moves on. */
module ControllerRefinement {
  import opened Basics
  import opened AutomationIds
  import opened AutomationState
  import opened AutomationRuns
  import opened TickController
  import Delivery = DeliveryGeneration

  // ----- the identifiers the controller makes -----

  /** A full commit id as Git prints it. */
  predicate GitCommit(s: string) {
    |s| == 40 && forall i | 0 <= i < |s| :: Digit(s[i]) || 'a' <= s[i] <= 'f'
  }

  predicate AllSafe(s: string) {
    forall i | 0 <= i < |s| :: SafeChar(s[i])
  }

  predicate SlugChar(c: char) { Digit(c) || Lower(c) || c == '-' }

  predicate Slug(s: string) {
    forall i | 0 <= i < |s| :: SlugChar(s[i])
  }

  lemma LowerIsSlug(w: string)
    requires WorkItemId(w)
    ensures Slug(ToLower(w)) && AllSafe(Underscored(ToLower(w))) && Lower(ToLower(w)[0])
  {
    forall i | 0 <= i < |w| ensures SlugChar(ToLower(w)[i]) {
      assert Upper(w[i]) || w[i] == '-' || Digit(w[i]);
    }
  }

  lemma GitCommitFacts(base: string)
    requires GitCommit(base)
    ensures Commit(base) && ToLower(base) == base && |Short(base)| == 12 && AllSafe(Short(base))
  {
  }

  function AttemptPrefix(w: string, base: string): string {
    ToLower(w) + ":" + Short(base) + ":" + "attempt-"
  }

  lemma AttemptIdText(w: string, base: string, n: nat)
    requires GitCommit(base) && n <= 9
    ensures AttemptIdFor(w, base, n) == AttemptPrefix(w, base) + [Numeral(n)] && |AttemptPrefix(w, base)| == |w| + 22
  {
    assert ":attempt-" == ":" + "attempt-";
  }

  lemma AttemptIdOrdinal(w: string, base: string, n: nat)
    requires GitCommit(base) && 1 <= n <= 9
    ensures AttemptOrdinal(AttemptIdFor(w, base, n)) == Some(n)
  {
    var prefix, s := AttemptPrefix(w, base), AttemptIdFor(w, base, n);
    AttemptIdText(w, base, n);
    NumeralEnds(prefix, n);
    assert s[|prefix| - 8..|prefix|] == "attempt-" && s[|prefix| - 9] == prefix[|prefix| - 9] == ':';
  }

  /** The attempt identifier carries its ordinal, and fits in 128 characters for names up to 105. */
  lemma AttemptIdShape(w: string, base: string, n: nat)
    requires WorkItemId(w) && GitCommit(base) && 1 <= n <= 9
    ensures AttemptOrdinal(AttemptIdFor(w, base, n)) == Some(n)
    ensures |AttemptIdFor(w, base, n)| == |w| + 23 && AttemptIdFor(w, base, n)[..|w|] == ToLower(w)
    ensures Safe(AttemptIdFor(w, base, n), 128) <==> |w| <= 105
  {
    AttemptIdOrdinal(w, base, n);
    AttemptIdText(w, base, n);
    AttemptIdIsSafe(w, base, n);
    assert AttemptPrefix(w, base)[..|w|] == ToLower(w);
  }

  lemma AttemptIdIsSafe(w: string, base: string, n: nat)
    requires WorkItemId(w) && GitCommit(base) && 1 <= n <= 9
    ensures var s := AttemptPrefix(w, base) + [Numeral(n)]; AllSafe(s) && Lower(s[0])
  {
    LowerIsSlug(w);
    GitCommitFacts(base);
    assert AllSafe(ToLower(w)) && AllSafe(":") && AllSafe("attempt-");
    SafeTogether(ToLower(w), ":");
    SafeTogether(ToLower(w) + ":", Short(base));
    SafeTogether(ToLower(w) + ":" + Short(base), ":");
    SafeTogether(ToLower(w) + ":" + Short(base) + ":", "attempt-");
    SafeTogether(AttemptPrefix(w, base), [Numeral(n)]);
  }

  lemma SafeTogether(a: string, b: string)
    requires AllSafe(a) && AllSafe(b)
    ensures AllSafe(a + b)
  {
  }

  lemma ChildRunIdShape(w: string, base: string, n: nat)
    requires WorkItemId(w) && GitCommit(base) && 1 <= n <= 9
    ensures RunOrdinal(ChildRunIdFor(w, base, n)) == Some(n)
    ensures |ChildRunIdFor(w, base, n)| == |w| + 21 && ChildRunIdFor(w, base, n)[6..6 + |w|] == Underscored(ToLower(w))
    ensures Safe(ChildRunIdFor(w, base, n), 128) <==> |w| <= 107
  {
    LowerIsSlug(w);
    GitCommitFacts(base);
    var prefix := "codex_" + Underscored(ToLower(w)) + "_" + Short(base) + "_";
    NumeralEnds(prefix, n);
    assert ChildRunIdFor(w, base, n) == prefix + [Numeral(n)];
    assert AllSafe(prefix) && AllSafe(prefix + [Numeral(n)]);
    assert prefix[0] == 'c';
  }

  lemma SlugIsBranchable(c: char, next: Option<char>)
    requires SlugChar(c)
    ensures !Unbranchable(c, next)
  {
  }

  lemma BranchShape(rest: string)
    requires Slug(rest) && 1 <= |rest| <= 240
    ensures Branch("feature/" + rest)
  {
    var s := "feature/" + rest;
    forall i | 0 <= i < |s| ensures BranchableAt(s, i) {
      if i == 7 {
        assert s[7] == '/' && s[8] == rest[0] && SlugChar(rest[0]);
      } else {
        assert if i < 7 then s[i] == "feature"[i] else s[i] == rest[i - 8];
        SlugIsBranchable(s[i], if i + 1 < |s| then Some(s[i + 1]) else None);
      }
    }
    assert s[|s| - 1] == rest[|rest| - 1] && s[0] == 'f' && SlugChar(rest[|rest| - 1]);
  }

  lemma BranchesAreBranches(w: string, n: nat)
    requires WorkItemId(w) && |w| <= 105 && n <= 9
    ensures Branch(BranchFor(w)) && Branch(BranchFor(w) + "-attempt-" + [Numeral(n)])
  {
    LowerIsSlug(w);
    assert BranchFor(w) == "feature/" + ("auto-dev-" + ToLower(w)) by {
      assert "feature/auto-dev-" == "feature/" + "auto-dev-";
    }
    BranchShape("auto-dev-" + ToLower(w));
    assert BranchFor(w) + "-attempt-" + [Numeral(n)]
           == "feature/" + ("auto-dev-" + ToLower(w) + "-attempt-" + [Numeral(n)]);
    BranchShape("auto-dev-" + ToLower(w) + "-attempt-" + [Numeral(n)]);
  }

  lemma LowerIsInjective(a: string, b: string)
    requires WorkItemId(a) && WorkItemId(b) && |a| == |b|
    requires ToLower(a) == ToLower(b) || Underscored(ToLower(a)) == Underscored(ToLower(b))
    ensures a == b
  {
    forall i | 0 <= i < |a| ensures a[i] == b[i] {
      assert Upper(a[i]) || a[i] == '-' || Digit(a[i]);
      assert Upper(b[i]) || b[i] == '-' || Digit(b[i]);
      assert Underscored(ToLower(a))[i] == Underscored(ToLower(b))[i];
      assert ToLower(a)[i] == LowerChar(a[i]) && ToLower(b)[i] == LowerChar(b[i]);
    }
  }

  lemma SameLower(a: string, b: string, idA: string, idB: string)
    requires WorkItemId(a) && WorkItemId(b) && |a| == |b| && idA == idB
    requires |a| + 6 <= |idA|
    requires (idA[..|a|] == ToLower(a) && idB[..|b|] == ToLower(b))
             || (idA[6..6 + |a|] == Underscored(ToLower(a)) && idB[6..6 + |b|] == Underscored(ToLower(b)))
    ensures a == b
  {
    LowerIsInjective(a, b);
  }

  /** Two attempts of two work items, or of one, never share an identifier. */
  lemma AttemptIdsAreDistinct(a: string, b: string, baseA: string, baseB: string, n: nat, m: nat)
    requires WorkItemId(a) && WorkItemId(b) && GitCommit(baseA) && GitCommit(baseB) && 1 <= n <= 9 && 1 <= m <= 9
    requires AttemptIdFor(a, baseA, n) == AttemptIdFor(b, baseB, m)
    ensures a == b && n == m
  {
    AttemptIdShape(a, baseA, n);
    AttemptIdShape(b, baseB, m);
    SameLower(a, b, AttemptIdFor(a, baseA, n), AttemptIdFor(b, baseB, m));
  }

  lemma ChildRunIdsAreDistinct(a: string, b: string, baseA: string, baseB: string, n: nat, m: nat)
    requires WorkItemId(a) && WorkItemId(b) && GitCommit(baseA) && GitCommit(baseB) && 1 <= n <= 9 && 1 <= m <= 9
    requires ChildRunIdFor(a, baseA, n) == ChildRunIdFor(b, baseB, m)
    ensures a == b && n == m
  {
    ChildRunIdShape(a, baseA, n);
    ChildRunIdShape(b, baseB, m);
    SameLower(a, b, ChildRunIdFor(a, baseA, n), ChildRunIdFor(b, baseB, m));
  }

  // ----- states reached under the controller -----

  /** The item's current attempt was begun with the metadata the controller makes for it. */
  predicate IssuedByController(id: string, item: WorkItem) {
    item.attempts == 0 || (
      && 1 <= item.attempts <= MAX_ATTEMPTS && item.baseCommit.Some? && GitCommit(item.baseCommit.value)
      && item.branch.Some? && item.branch.value != "main"
      && item.attemptId == Some(AttemptIdFor(id, item.baseCommit.value, item.attempts))
      && item.childRunId == Some(ChildRunIdFor(id, item.baseCommit.value, item.attempts)))
  }

  predicate Controlled(s: State) {
    Sound(s) && forall id | id in s.workItems :: IssuedByController(id, s.workItems[id])
  }

  /** A `begin-attempt` with the identifiers `_attempt_metadata` makes; any other command. */
  predicate FromController(c: Command) {
    c.OnItem? && c.step.BeginAttempt? ==>
      && GitCommit(c.step.baseCommit) && c.step.branch != "main"
      && exists n: nat | 1 <= n <= MAX_ATTEMPTS :: c.attemptId == AttemptIdFor(c.workItem, c.step.baseCommit, n)
                                         && c.step.childRunId == ChildRunIdFor(c.workItem, c.step.baseCommit, n)
  }

  lemma StepKeepsIdentity(items: map<string, WorkItem>, id: string, attemptId: string, step: Step, now: int)
    requires !step.BeginAttempt? && StepEffect(items, id, attemptId, step, now).Becomes?
    ensures id in items && var item := StepEffect(items, id, attemptId, step, now).item;
      && item.attempts == items[id].attempts && item.baseCommit == items[id].baseCommit
      && item.attemptId == items[id].attemptId && item.childRunId == items[id].childRunId
      && item.branch == items[id].branch
  {
  }

  lemma BegunItem(items: map<string, WorkItem>, id: string, attemptId: string, step: Step, n: nat, now: int)
    requires step.BeginAttempt? && BeginEffect(items, id, attemptId, step, now).Becomes?
    requires AttemptOrdinal(attemptId) == Some(n) && ToLower(step.baseCommit) == step.baseCommit
    ensures var item := BeginEffect(items, id, attemptId, step, now).item;
      && item.attempts == n <= MAX_ATTEMPTS && item.attemptId == Some(attemptId)
      && item.baseCommit == Some(step.baseCommit)
      && item.branch == Some(step.branch) && item.childRunId == Some(step.childRunId)
  {
  }

  lemma BegunByController(items: map<string, WorkItem>, id: string, base: string, branch: string, n: nat, now: int)
    requires WorkItemId(id) && GitCommit(base) && branch != "main" && 1 <= n <= MAX_ATTEMPTS
    requires BeginEffect(items, id, AttemptIdFor(id, base, n), BeginAttempt(branch, base, ChildRunIdFor(id, base, n)),
                         now).Becomes?
    ensures IssuedByController(id, BeginEffect(items, id, AttemptIdFor(id, base, n),
                                               BeginAttempt(branch, base, ChildRunIdFor(id, base, n)), now).item)
  {
    AttemptIdOrdinal(id, base, n);
    GitCommitFacts(base);
    BegunItem(items, id, AttemptIdFor(id, base, n), BeginAttempt(branch, base, ChildRunIdFor(id, base, n)), n, now);
  }

  lemma StepStaysIssuedByController(items: map<string, WorkItem>, c: Command, now: int)
    requires c.OnItem? && FromController(c) && ValidArguments(c)
    requires c.workItem in items ==>
      ParsesItem(c.workItem, items[c.workItem]) && IssuedByController(c.workItem, items[c.workItem])
    requires StepEffect(items, c.workItem, c.attemptId, c.step, now).Becomes?
    ensures IssuedByController(c.workItem, StepEffect(items, c.workItem, c.attemptId, c.step, now).item)
  {
    if c.step.BeginAttempt? {
      var n: nat :| 1 <= n <= MAX_ATTEMPTS && c.attemptId == AttemptIdFor(c.workItem, c.step.baseCommit, n)
                    && c.step.childRunId == ChildRunIdFor(c.workItem, c.step.baseCommit, n);
      BegunByController(items, c.workItem, c.step.baseCommit, c.step.branch, n, now);
    } else {
      StepKeepsIdentity(items, c.workItem, c.attemptId, c.step, now);
    }
  }

  lemma StaysControlled(s: State, c: Command, now: int, minted: LeaseId)
    requires Controlled(s) && FromController(c) && s.updatedAt <= now
    ensures Controlled(Execute(s, c, now, minted).0) && Execute(s, c, now, minted).0.updatedAt <= now
  {
    Closure(s, c, now, minted);
    ItemsAfter(s, c, now, minted);
    var after := Execute(s, c, now, minted).0;
    if after.workItems != s.workItems {
      assert c.workItem in s.workItems ==> IssuedByController(c.workItem, s.workItems[c.workItem]);
      StepStaysIssuedByController(s.workItems, c, now);
    }
  }

  lemma EmptyIsControlled(now: int)
    ensures Controlled(Empty(now))
  {
    EmptyIsSound(now);
  }

  /** Whatever the controller, its child and its operator have commanded, in any order. */
  lemma {:induction false} RunsStayControlled(s: State, events: seq<Event>)
    requires Controlled(s) && ClockFrom(s.updatedAt, events)
    requires forall i :: 0 <= i < |events| ==> FromController(events[i].command)
    ensures Controlled(Run(s, events))
    decreases |events|
  {
    if events != [] {
      var e := events[0];
      StaysControlled(s, e.command, e.now, e.minted);
      EarlierClock(Execute(s, e.command, e.now, e.minted).0.updatedAt, e.now, events[1..]);
      RunsStayControlled(Execute(s, e.command, e.now, e.minted).0, events[1..]);
    }
  }

  // ----- what the controller sees -----

  lemma ActiveMeaning(s: State)
    requires Parses(s)
    ensures ActiveIds(s.workItems) == {} <==> !AnyInFlight(s.workItems)
    ensures |ActiveIds(s.workItems)| <= 1
    ensures forall id :: id in ActiveIds(s.workItems) <==> id in s.workItems && InFlight(s.workItems[id])
    ensures forall id :: id in ActiveIds(s.workItems) ==> ActiveIds(s.workItems) == {id}
  {
    var active := ActiveIds(s.workItems);
    forall id | id in s.workItems ensures id in active <==> InFlight(s.workItems[id]) {
      assert ParsesItem(id, s.workItems[id]);
    }
    if id :| id in active {
      assert active == {id};
    }
  }

  predicate Leased(s: State, owner: string, leaseId: LeaseId, now: int) {
    s.lease.Some? && s.lease.value.owner == owner && s.lease.value.id == leaseId && now < s.lease.value.expiresAt
  }

  function StatusOf(o: Observation, id: string): Option<Delivery.Status> {
    if id in o.statuses then Some(o.statuses[id]) else None
  }

  predicate IsSelected(o: Observation, id: string) {
    o.selected.Some? && o.selected.value.id == id
  }

  lemma TickOnInFlight(s: State, o: Observation, owner: string, leaseId: LeaseId, now: int, id: string)
    requires Parses(s) && Leased(s, owner, leaseId, now) && id in s.workItems && InFlight(s.workItems[id])
    ensures DecideTick(s, o, owner, leaseId, now)
            == DecideInFlight(id, s.workItems[id], StatusOf(o, id), IsSelected(o, id), o.git)
  {
    ActiveMeaning(s);
    assert ActiveIds(s.workItems) == {id};
  }

  lemma TickOnSelected(s: State, o: Observation, owner: string, leaseId: LeaseId, now: int)
    requires Parses(s) && Leased(s, owner, leaseId, now) && !AnyInFlight(s.workItems) && o.selected.Some?
    ensures DecideTick(s, o, owner, leaseId, now) == DecideSelected(s.workItems, o.selected.value, o.statuses, o.git)
  {
    ActiveMeaning(s);
  }

  /** Where a decision comes from: an attempt in flight, or the selected item when there is none. */
  lemma TickCases(s: State, o: Observation, owner: string, leaseId: LeaseId, now: int) returns (id: string)
    requires Parses(s) && Leased(s, owner, leaseId, now)
    ensures if AnyInFlight(s.workItems)
            then id in s.workItems && InFlight(s.workItems[id])
                 && DecideTick(s, o, owner, leaseId, now)
                   == DecideInFlight(id, s.workItems[id], StatusOf(o, id), IsSelected(o, id), o.git)
            else DecideTick(s, o, owner, leaseId, now)
                 == if o.selected.None? then NoReadyWork
                   else DecideSelected(s.workItems, o.selected.value, o.statuses, o.git)
  {
    ActiveMeaning(s);
    if AnyInFlight(s.workItems) {
      id :| id in s.workItems && InFlight(s.workItems[id]);
      TickOnInFlight(s, o, owner, leaseId, now, id);
    } else {
      id := "";
    }
  }

  // ----- `READY_NEW` and `READY_RETRY` -----

  lemma FreshIds(s: State, w: string, base: string, n: nat)
    requires Controlled(s) && WorkItemId(w) && GitCommit(base) && 1 <= n <= MAX_ATTEMPTS
    requires n == Present(s.workItems, w).attempts + 1
    ensures !IdTaken(s.workItems, AttemptIdFor(w, base, n), ChildRunIdFor(w, base, n))
    ensures Present(s.workItems, w).attemptId != Some(AttemptIdFor(w, base, n))
  {
    forall other | other in s.workItems
      ensures s.workItems[other].attemptId != Some(AttemptIdFor(w, base, n))
      ensures s.workItems[other].childRunId != Some(ChildRunIdFor(w, base, n))
    {
      var item := s.workItems[other];
      assert ParsesItem(other, item) && IssuedByController(other, item);
      if item.attempts > 0 {
        if item.attemptId == Some(AttemptIdFor(w, base, n)) {
          AttemptIdsAreDistinct(other, w, item.baseCommit.value, base, item.attempts, n);
        }
        if item.childRunId == Some(ChildRunIdFor(w, base, n)) {
          ChildRunIdsAreDistinct(other, w, item.baseCommit.value, base, item.attempts, n);
        }
      }
    }
  }

  /** Metadata for the next attempt of `w`. */
  predicate NextAttempt(items: map<string, WorkItem>, w: string, m: Metadata) {
    && WorkItemId(w) && GitCommit(m.baseCommit)
    && 1 <= m.attempt <= MAX_ATTEMPTS && m.attempt == Present(items, w).attempts + 1
    && m.attemptId == AttemptIdFor(w, m.baseCommit, m.attempt)
    && m.childRunId == ChildRunIdFor(w, m.baseCommit, m.attempt)
    && (|w| <= 105 ==> Branch(m.branch))
  }

  /** The command the controller's metadata is for, and the item it makes. */
  function BeginCommand(owner: string, leaseId: LeaseId, w: string, m: Metadata): Command {
    OnItem(owner, leaseId, w, m.attemptId, BeginAttempt(m.branch, m.baseCommit, m.childRunId))
  }

  function Begun(m: Metadata, now: int): WorkItem {
    WorkItem(m.attempt, Some(m.attemptId), Some(now), None, None, None, Some(Prepared), Some(m.branch),
             Some(m.baseCommit),
             Some(m.childRunId), None, None, None, false)
  }

  lemma NextAttemptArguments(items: map<string, WorkItem>, owner: string, leaseId: LeaseId, w: string, m: Metadata)
    requires NextAttempt(items, w, m) && Safe(owner, 128)
    ensures ValidArguments(BeginCommand(owner, leaseId, w, m)) <==> |w| <= 105
    ensures ToLower(m.baseCommit) == m.baseCommit
    ensures AttemptOrdinal(m.attemptId) == Some(m.attempt) && RunOrdinal(m.childRunId) == Some(m.attempt)
  {
    AttemptIdShape(w, m.baseCommit, m.attempt);
    ChildRunIdShape(w, m.baseCommit, m.attempt);
    GitCommitFacts(m.baseCommit);
  }

  lemma BeginWithNextIds(items: map<string, WorkItem>, w: string, m: Metadata, now: int)
    requires Present(items, w).attemptId != Some(m.attemptId) && !AnyInFlight(items)
    requires AttemptOrdinal(m.attemptId) == Some(m.attempt) && RunOrdinal(m.childRunId) == Some(m.attempt)
    requires m.attempt == Present(items, w).attempts + 1 <= MAX_ATTEMPTS && ToLower(m.baseCommit) == m.baseCommit
    ensures BeginEffect(items, w, m.attemptId, BeginAttempt(m.branch, m.baseCommit, m.childRunId), now)
            == if IdTaken(items, m.attemptId, m.childRunId) then Refuses(IdInUse) else Becomes(Begun(m, now))
  {
  }

  /** A sound item's identifier has its own number, so it is not the next one's. */
  lemma NextIdIsNotCurrent(items: map<string, WorkItem>, w: string, m: Metadata)
    requires w in items ==> ParsesCommon(items[w]) && Issued(items[w])
    requires AttemptOrdinal(m.attemptId) == Some(m.attempt) && m.attempt == Present(items, w).attempts + 1
    ensures Present(items, w).attemptId != Some(m.attemptId)
  {
  }

  lemma NextAttemptBegins(s: State, w: string, m: Metadata, now: int)
    requires Sound(s) && NextAttempt(s.workItems, w, m) && !AnyInFlight(s.workItems)
    ensures BeginEffect(s.workItems, w, m.attemptId, BeginAttempt(m.branch, m.baseCommit, m.childRunId), now)
            == if IdTaken(s.workItems, m.attemptId, m.childRunId) then Refuses(IdInUse) else Becomes(Begun(m, now))
  {
    NextAttemptArguments(s.workItems, "o", 0, w, m);
    assert w in s.workItems ==> ParsesItem(w, s.workItems[w]) && Issued(s.workItems[w]);
    NextIdIsNotCurrent(s.workItems, w, m);
    BeginWithNextIds(s.workItems, w, m, now);
  }

  lemma StepIsRefused(s: State, c: Command, now: int, minted: LeaseId, why: Refusal)
    requires Parses(s) && c.OnItem? && ValidArguments(c) && Leased(s, c.owner, c.leaseId, now)
    requires StepEffect(s.workItems, c.workItem, c.attemptId, c.step, now) == Refuses(why)
    ensures Execute(s, c, now, minted) == (s, Refused(why))
  {
  }

  lemma StepIsWritten(s: State, c: Command, now: int, minted: LeaseId, item: WorkItem)
    requires Sound(s) && s.updatedAt <= now && c.OnItem? && ValidArguments(c) && Leased(s, c.owner, c.leaseId, now)
    requires StepEffect(s.workItems, c.workItem, c.attemptId, c.step, now) == Becomes(item)
    ensures Execute(s, c, now, minted) == (s.(updatedAt := now, workItems := s.workItems[c.workItem := item]), Done)
  {
    assert Execute(s, c, now, minted) == Carried(s, c.workItem, Becomes(item), now);
    ItemClosure(s, c, now, minted);
  }

  lemma BranchIsNotMain(w: string, suffix: string)
    ensures BranchFor(w) + suffix != "main" && BranchFor(w) != "main"
  {
    assert (BranchFor(w) + suffix)[0] == 'f' && BranchFor(w)[0] == 'f' && "main"[0] == 'm';
  }

  predicate ReadyFor(d: Decision, w: string, m: Metadata) {
    d == ReadyNew(w, m) || d == ReadyRetry(w, m)
  }

  lemma MadeMetadata(items: map<string, WorkItem>, w: string, base: string, n: nat, branch: string)
    requires WorkItemId(w) && GitCommit(base) && 1 <= n <= MAX_ATTEMPTS && n == Present(items, w).attempts + 1
    requires |w| <= 105 ==> Branch(branch)
    ensures NextAttempt(items, w, AttemptMetadata(w, base, n).(branch := branch))
  {
  }

  lemma MadeBranches(w: string, n: nat)
    requires WorkItemId(w) && n <= 9
    ensures BranchFor(w) != "main" && BranchFor(w) + "-attempt-" + [Numeral(n)] != "main"
    ensures |w| <= 105 ==> Branch(BranchFor(w)) && Branch(BranchFor(w) + "-attempt-" + [Numeral(n)])
  {
    BranchIsNotMain(w, "-attempt-" + [Numeral(n)]);
    assert BranchFor(w) + ("-attempt-" + [Numeral(n)]) == BranchFor(w) + "-attempt-" + [Numeral(n)];
    if |w| <= 105 { BranchesAreBranches(w, n); }
  }

  /** A new branch will start at a clean `main`. */
  predicate FromMain(status: Delivery.Status, git: Git, m: Metadata) {
    Waiting(Some(status)) && git.branch == "main" && git.head == git.mainCommit == m.baseCommit
    && git.dirtyEntries == []
  }

  /** The branch of the last attempt goes on, its base still the tip of `main`. */
  predicate FromBranch(status: Delivery.Status, git: Git, m: Metadata) {
    status.InProgress? && git.branch == m.branch && git.mainCommit == m.baseCommit && git.dirtyEntries == []
  }

  function RetryOnBranch(w: string, prior: WorkItem): Metadata
    requires 0 <= prior.attempts < MAX_ATTEMPTS && prior.branch.Some? && prior.baseCommit.Some?
  {
    AttemptMetadata(w, prior.baseCommit.value, prior.attempts + 1).(branch := prior.branch.value)
  }

  function RetryOnMain(w: string, head: string, n: nat): Metadata
    requires n <= MAX_ATTEMPTS
  {
    AttemptMetadata(w, head, n).(branch := BranchFor(w) + "-attempt-" + [Numeral(n)])
  }

  lemma RetryCases(w: string, prior: WorkItem, status: Delivery.Status, git: Git, v: string, m: Metadata)
    requires 0 <= prior.attempts < MAX_ATTEMPTS && DecideAfterTerminal(w, prior, status, git) == ReadyRetry(v, m)
    ensures v == w
    ensures || (FromMain(status, git, m) && m == RetryOnMain(w, git.head, prior.attempts + 1))
            || (prior.branch.Some? && prior.baseCommit.Some? && FromBranch(status, git, m)
                && m == RetryOnBranch(w, prior))
  {
  }

  /** Where the branch of ready work starts: a new one at `main`, or the last attempt's where it stands. */
  predicate Starts(status: Delivery.Status, git: Git, m: Metadata) {
    (FromMain(status, git, m) && m.branch != "main") || FromBranch(status, git, m)
  }

  lemma RetryMetadata(items: map<string, WorkItem>, w: string, status: Delivery.Status, git: Git, v: string,
                      m: Metadata)
    requires WorkItemId(w) && w in items && ParsesStrings(items[w]) && 1 <= items[w].attempts < MAX_ATTEMPTS
    requires GitCommit(git.head) && GitCommit(git.mainCommit)
    requires DecideAfterTerminal(w, items[w], status, git) == ReadyRetry(v, m)
    ensures v == w && NextAttempt(items, w, m) && Starts(status, git, m)
  {
    var prior, n := items[w], items[w].attempts + 1;
    RetryCases(w, prior, status, git, v, m);
    MadeBranches(w, n);
    if FromMain(status, git, m) && m == RetryOnMain(w, git.head, n) {
      MadeMetadata(items, w, git.head, n, BranchFor(w) + "-attempt-" + [Numeral(n)]);
    } else {
      MadeMetadata(items, w, prior.baseCommit.value, n, prior.branch.value);
    }
  }

  lemma SelectedCases(items: map<string, WorkItem>, selected: Selected, statuses: map<string, Delivery.Status>,
                      git: Git, w: string, m: Metadata)
    requires ReadyFor(DecideSelected(items, selected, statuses, git), w, m)
    ensures selected.id in statuses && statuses[selected.id] == selected.status
    ensures 0 <= Present(items, selected.id).attempts < MAX_ATTEMPTS
    ensures var prior := Present(items, selected.id);
      || (prior.phase == Some(Terminal)
          && DecideAfterTerminal(selected.id, prior, selected.status, git) == ReadyRetry(w, m))
      || (FromMain(selected.status, git, m) && w == selected.id
          && m == AttemptMetadata(w, git.head, prior.attempts + 1))
  {
  }

  lemma ReadyMetadata(items: map<string, WorkItem>, selected: Selected, statuses: map<string, Delivery.Status>,
                      git: Git,
                      w: string, m: Metadata)
    requires WorkItemId(selected.id) && GitCommit(git.head) && GitCommit(git.mainCommit)
    requires selected.id in items ==>
      var item := items[selected.id]; ParsesStrings(item) && (item.phase.Some? ==> item.attempts > 0)
    requires ReadyFor(DecideSelected(items, selected, statuses, git), w, m)
    ensures w == selected.id && w in statuses && statuses[w] == selected.status
    ensures NextAttempt(items, w, m) && Starts(selected.status, git, m)
  {
    SelectedCases(items, selected, statuses, git, w, m);
    var prior := Present(items, selected.id);
    if prior.phase == Some(Terminal)
       && DecideAfterTerminal(selected.id, prior, selected.status, git) == ReadyRetry(w, m) {
      RetryMetadata(items, selected.id, selected.status, git, w, m);
    } else {
      MadeBranches(w, prior.attempts + 1);
      MadeMetadata(items, w, git.head, prior.attempts + 1, BranchFor(w));
    }
  }

  /** What Git and the queue report: full commit ids, and a work item by its identifier. */
  predicate Observed(o: Observation) {
    && GitCommit(o.git.head) && GitCommit(o.git.mainCommit)
    && (o.selected.Some? ==> WorkItemId(o.selected.value.id))
  }

  /** `READY_NEW` and `READY_RETRY` come from the selected item, when no attempt is in flight. */
  lemma ReadyCase(s: State, o: Observation, owner: string, leaseId: LeaseId, now: int, w: string, m: Metadata)
    requires Parses(s) && Observed(o) && ReadyFor(DecideTick(s, o, owner, leaseId, now), w, m)
    ensures Leased(s, owner, leaseId, now) && Safe(owner, 128) && !AnyInFlight(s.workItems) && IsSelected(o, w)
    ensures StatusOf(o, w) == Some(o.selected.value.status)
    ensures NextAttempt(s.workItems, w, m) && Starts(o.selected.value.status, o.git, m)
  {
    var id := TickCases(s, o, owner, leaseId, now);
    if !AnyInFlight(s.workItems) {
      var selected := o.selected.value.id;
      assert selected in s.workItems ==> ParsesItem(selected, s.workItems[selected]);
      ReadyMetadata(s.workItems, o.selected.value, o.statuses, o.git, w, m);
    }
  }

  /** What `begin-attempt` answers to `READY_NEW` and `READY_RETRY`, both ordinals included, in every sound
      state. It accepts exactly when the work item's name leaves room for the attempt identifier and no
      item holds one of the two identifiers already. */
  lemma ReadyIsAccepted(s: State, o: Observation, owner: string, leaseId: LeaseId, now: int, minted: LeaseId,
                        w: string, m: Metadata)
    requires Sound(s) && s.updatedAt <= now && Observed(o)
    requires ReadyFor(DecideTick(s, o, owner, leaseId, now), w, m)
    ensures Execute(s, BeginCommand(owner, leaseId, w, m), now, minted) ==
      if |w| > 105 then (s, Refused(InvalidArgument))
      else if IdTaken(s.workItems, m.attemptId, m.childRunId) then (s, Refused(IdInUse))
      else (s.(updatedAt := now, workItems := s.workItems[w := Begun(m, now)]), Done)
  {
    ReadyCase(s, o, owner, leaseId, now, w, m);
    NextAttemptArguments(s.workItems, owner, leaseId, w, m);
    if |w| <= 105 {
      NextAttemptBegins(s, w, m, now);
      if IdTaken(s.workItems, m.attemptId, m.childRunId) {
        StepIsRefused(s, BeginCommand(owner, leaseId, w, m), now, minted, IdInUse);
      } else {
        StepIsWritten(s, BeginCommand(owner, leaseId, w, m), now, minted, Begun(m, now));
      }
    }
  }

  /** No item holds them while every attempt is begun with the controller's own identifiers. */
  lemma ReadyUnderController(s: State, o: Observation, owner: string, leaseId: LeaseId, now: int, minted: LeaseId,
                             w: string, m: Metadata)
    requires Controlled(s) && s.updatedAt <= now && Observed(o)
    requires ReadyFor(DecideTick(s, o, owner, leaseId, now), w, m)
    ensures Execute(s, BeginCommand(owner, leaseId, w, m), now, minted).1
            == if |w| > 105 then Refused(InvalidArgument) else Done
  {
    ReadyCase(s, o, owner, leaseId, now, w, m);
    FreshIds(s, w, m.baseCommit, m.attempt);
    ReadyIsAccepted(s, o, owner, leaseId, now, minted, w, m);
  }

  // ----- `RECORD_*` and `FINALIZE_*` -----

  /** The step an action names, with the commit it carries. */
  function StepFor(action: Action, commit: Option<string>, summary: Summary): Option<Step> {
    match action
    case NameMerged => Some(RecordMerged)
    case NameDeliveryCommit => if commit.Some? then Some(RecordDeliveryCommit(commit.value)) else None
    case NameBlockCommit => if commit.Some? then Some(RecordBlockCommit(commit.value)) else None
    case FinalizeSuccessfulAttempt => Some(RecordResult(Passed, summary))
    case FinalizeBlockedAttempt => Some(RecordResult(Blocked, summary))
    case _ => None
  }

  /** The phase an action is decided in, and the commit it carries. */
  lemma ActionPhase(id: string, item: WorkItem, status: Option<Delivery.Status>, isSelected: bool, git: Git)
    requires DecideInFlight(id, item, status, isSelected, git).Act?
    ensures var d := DecideInFlight(id, item, status, isSelected, git);
      && (d.action.NameMerged? ==> item.phase == Some(TaskCommitted))
      && (d.action.NameDeliveryCommit? ==> item.phase == Some(Merged) && d.deliveryCommit == Some(git.head))
      && (d.action.NameBlockCommit? ==>
            item.phase == Some(RecoveryRequired) && Recoverable(item) && d.deliveryCommit == Some(git.head))
      && (d.action.FinalizeSuccessfulAttempt? ==> item.phase == Some(DeliveryCommitted))
      && (d.action.FinalizeBlockedAttempt? ==> item.phase == Some(BlockCommitted))
  {
  }

  /** The item after the step an action names. */
  function ItemAfter(item: WorkItem, action: Action, head: string, summary: Summary, now: int): WorkItem {
    match action
    case NameMerged => item.(phase := Some(Merged))
    case NameDeliveryCommit => item.(deliveryCommit := Some(head), phase := Some(DeliveryCommitted))
    case NameBlockCommit => item.(deliveryCommit := Some(head), phase := Some(BlockCommitted))
    case FinalizeSuccessfulAttempt =>
      item.(lastResult := Some(Passed), lastSummary := Some(summary), lastResultAt := Some(now),
            phase := Some(Terminal))
    case FinalizeBlockedAttempt =>
      item.(lastResult := Some(Blocked), lastSummary := Some(summary), lastResultAt := Some(now),
            phase := Some(Terminal))
    case _ => item
  }

  /** The item is in the phase an action was decided in. */
  predicate ReadyForAction(action: Action, item: WorkItem) {
    && (action.NameMerged? ==> item.phase == Some(TaskCommitted))
    && (action.NameDeliveryCommit? ==> item.phase == Some(Merged) && item.deliveryCommit.None?)
    && (action.NameBlockCommit? ==> item.phase == Some(RecoveryRequired) && item.deliveryCommit.None?)
    && (action.FinalizeSuccessfulAttempt? ==> item.phase == Some(DeliveryCommitted))
    && (action.FinalizeBlockedAttempt? ==> item.phase == Some(BlockCommitted))
  }

  lemma ActionSteps(items: map<string, WorkItem>, id: string, attemptId: string, action: Action, head: string,
                    summary: Summary, now: int)
    requires id in items && items[id].attempts != 0 && items[id].attemptId == Some(attemptId) && ToLower(head) == head
    requires ReadyForAction(action, items[id]) && StepFor(action, Some(head), summary).Some?
    ensures StepEffect(items, id, attemptId, StepFor(action, Some(head), summary).value, now)
            == Becomes(ItemAfter(items[id], action, head, summary, now))
  {
  }

  lemma DecidedIsReady(id: string, item: WorkItem, status: Option<Delivery.Status>, isSelected: bool, git: Git,
                       d: Decision, summary: Summary)
    requires ValidShape(item) && InFlight(item) && d == DecideInFlight(id, item, status, isSelected, git) && d.Act?
    requires StepFor(d.action, d.deliveryCommit, summary).Some?
    ensures d.workItem == id && d.item == item && item.attempts != 0 && ReadyForAction(d.action, item)
    ensures StepFor(d.action, d.deliveryCommit, summary) == StepFor(d.action, Some(git.head), summary)
  {
    ActionPhase(id, item, status, isSelected, git);
  }

  lemma InFlightAct(s: State, o: Observation, owner: string, leaseId: LeaseId, now: int,
                    d: Decision) returns (id: string)
    requires Sound(s) && d == DecideTick(s, o, owner, leaseId, now) && d.Act? && !d.action.PreserveRetryWork?
    ensures Leased(s, owner, leaseId, now) && id in s.workItems && ParsesItem(id, s.workItems[id])
    ensures InFlight(s.workItems[id])
    ensures s.workItems[id].attemptId.Some? && Safe(owner, 128)
    ensures d == DecideInFlight(id, s.workItems[id], StatusOf(o, id), IsSelected(o, id), o.git)
  {
    id := TickCases(s, o, owner, leaseId, now);
    if AnyInFlight(s.workItems) {
      InFlightParses(s, id);
    } else {
      SelectedPreservesOnly(s.workItems, o.selected.value, o.statuses, o.git);
    }
  }

  lemma InFlightParses(s: State, id: string)
    requires Parses(s) && id in s.workItems && InFlight(s.workItems[id])
    ensures ParsesItem(id, s.workItems[id]) && s.workItems[id].attemptId.Some?
  {
    assert ParsesItem(id, s.workItems[id]);
  }

  /** The only action about a selected item without an attempt in flight keeps its uncommitted work. */
  lemma SelectedPreservesOnly(items: map<string, WorkItem>, selected: Selected, statuses: map<string, Delivery.Status>,
                              git: Git)
    ensures var d := DecideSelected(items, selected, statuses, git); d.Act? ==> d.action.PreserveRetryWork?
  {
  }

  /** The command an action names, and the state it leaves. */
  function ActCommand(owner: string, leaseId: LeaseId, d: Decision, step: Step): Command
    requires d.Act? && d.item.attemptId.Some?
  {
    OnItem(owner, leaseId, d.workItem, d.item.attemptId.value, step)
  }

  function StateAfter(s: State, d: Decision, head: string, summary: Summary, now: int): State
    requires d.Act?
  {
    s.(updatedAt := now, workItems := s.workItems[d.workItem := ItemAfter(d.item, d.action, head, summary, now)])
  }

  lemma ActArguments(owner: string, leaseId: LeaseId, d: Decision, head: string, summary: Summary)
    requires Safe(owner, 128) && GitCommit(head) && ValidSummary(summary) && d.Act? && ParsesItem(d.workItem, d.item)
    requires d.item.attemptId.Some?
    requires StepFor(d.action, Some(head), summary).Some?
    ensures ValidArguments(ActCommand(owner, leaseId, d, StepFor(d.action, Some(head), summary).value))
  {
    GitCommitFacts(head);
  }

  /** Such an action is about the attempt in flight, as it is saved. */
  lemma ActIsInFlight(s: State, o: Observation, owner: string, leaseId: LeaseId, now: int, summary: Summary,
                      d: Decision)
    requires Sound(s) && d == DecideTick(s, o, owner, leaseId, now) && d.Act?
    requires StepFor(d.action, d.deliveryCommit, summary).Some?
    ensures Leased(s, owner, leaseId, now) && Safe(owner, 128) && d.item.attemptId.Some? && d.item.attempts != 0
    ensures d.workItem in s.workItems && s.workItems[d.workItem] == d.item && InFlight(d.item)
    ensures ParsesItem(d.workItem, d.item) && ReadyForAction(d.action, d.item)
    ensures d == DecideInFlight(d.workItem, d.item, StatusOf(o, d.workItem), IsSelected(o, d.workItem), o.git)
    ensures StepFor(d.action, d.deliveryCommit, summary) == StepFor(d.action, Some(o.git.head), summary)
  {
    var id := InFlightAct(s, o, owner, leaseId, now, d);
    DecidedIsReady(id, s.workItems[id], StatusOf(o, id), IsSelected(o, id), o.git, d, summary);
  }

  /** The command such an action names is accepted, with the metadata the action carries. */
  lemma ActIsAccepted(s: State, o: Observation, owner: string, leaseId: LeaseId, now: int, minted: LeaseId,
                      summary: Summary, d: Decision)
    requires Sound(s) && s.updatedAt <= now && GitCommit(o.git.head) && ValidSummary(summary)
    requires d == DecideTick(s, o, owner, leaseId, now) && d.Act? && StepFor(d.action, d.deliveryCommit, summary).Some?
    ensures d.item.attemptId.Some? && d.workItem in s.workItems && s.workItems[d.workItem] == d.item
    ensures Execute(s, ActCommand(owner, leaseId, d, StepFor(d.action, d.deliveryCommit, summary).value), now, minted)
            == (StateAfter(s, d, o.git.head, summary, now), Done)
  {
    ActIsInFlight(s, o, owner, leaseId, now, summary, d);
    ActArguments(owner, leaseId, d, o.git.head, summary);
    GitCommitFacts(o.git.head);
    ActionSteps(s.workItems, d.workItem, d.item.attemptId.value, d.action, o.git.head, summary, now);
    var c := ActCommand(owner, leaseId, d, StepFor(d.action, d.deliveryCommit, summary).value);
    StepIsWritten(s, c, now, minted, ItemAfter(d.item, d.action, o.git.head, summary, now));
  }

  // ----- the next tick -----

  /** What the controller decides next, on the same worktree and queue, after its action was recorded. */
  function NextAction(d: Decision): Option<Action> {
    match d
    case Act(NameMerged, _, _, _) => Some(ResumeDeliveryCompletion)
    case Act(NameDeliveryCommit, _, _, _) => Some(FinalizeSuccessfulAttempt)
    case Act(NameBlockCommit, _, _, _) => Some(FinalizeBlockedAttempt)
    case _ => None
  }

  lemma DirtHasAPath(entries: seq<string>)
    requires WellFormedEntries(entries) && entries != []
    ensures DirtyPaths(entries) != {}
  {
    assert Slashed(entries[0][3..]) in DirtyPaths(entries);
  }

  lemma MergedMovesOn(id: string, item: WorkItem, status: Option<Delivery.Status>, isSelected: bool, git: Git,
                      d: Decision)
    requires item.phase == Some(TaskCommitted) && d == DecideInFlight(id, item, status, isSelected, git) && d.Act?
    requires d.action.NameMerged?
    ensures var next := item.(phase := Some(Merged));
      DecideInFlight(id, next, status, isSelected, git) == Act(ResumeDeliveryCompletion, id, next, item.deliveryCommit)
  {
  }

  lemma DeliveryCommitMovesOn(id: string, item: WorkItem, status: Option<Delivery.Status>, isSelected: bool, git: Git,
                              d: Decision)
    requires item.phase == Some(Merged) && d == DecideInFlight(id, item, status, isSelected, git) && d.Act?
    requires d.action.NameDeliveryCommit?
    ensures var next := item.(deliveryCommit := Some(git.head), phase := Some(DeliveryCommitted));
      DecideInFlight(id, next, status, isSelected, git) == Act(FinalizeSuccessfulAttempt, id, next, Some(git.head))
  {
    if git.dirtyEntries != [] { DirtHasAPath(git.dirtyEntries); }
  }

  lemma BlockCommitMovesOn(id: string, item: WorkItem, status: Option<Delivery.Status>, isSelected: bool, git: Git,
                           d: Decision)
    requires item.phase == Some(RecoveryRequired) && d == DecideInFlight(id, item, status, isSelected, git) && d.Act?
    requires d.action.NameBlockCommit?
    ensures var next := item.(deliveryCommit := Some(git.head), phase := Some(BlockCommitted));
      DecideInFlight(id, next, status, isSelected, git) == Act(FinalizeBlockedAttempt, id, next, Some(git.head))
  {
    if git.dirtyEntries != [] { DirtHasAPath(git.dirtyEntries); }
  }

  predicate NamesRecord(d: Decision) {
    d.Act? && (d.action.NameMerged? || d.action.NameDeliveryCommit? || d.action.NameBlockCommit?)
  }

  lemma RecordedDecision(id: string, item: WorkItem, status: Option<Delivery.Status>, isSelected: bool, git: Git,
                         d: Decision, next: WorkItem, summary: Summary, now: int)
    requires d == DecideInFlight(id, item, status, isSelected, git) && NamesRecord(d) && ReadyForAction(d.action, item)
    requires next == ItemAfter(item, d.action, git.head, summary, now)
    ensures var e := DecideInFlight(id, next, status, isSelected, git); e.Act? && Some(e.action) == NextAction(d)
  {
    match d.action
    case NameMerged => MergedMovesOn(id, item, status, isSelected, git, d);
    case NameDeliveryCommit => DeliveryCommitMovesOn(id, item, status, isSelected, git, d);
    case NameBlockCommit => BlockCommitMovesOn(id, item, status, isSelected, git, d);
  }

  lemma TickAfter(s: State, o: Observation, owner: string, leaseId: LeaseId, now: int, later: int, id: string,
                  item: WorkItem)
    requires Leased(s, owner, leaseId, later) && InFlight(item)
    requires Parses(s.(updatedAt := now, workItems := s.workItems[id := item]))
    ensures DecideTick(s.(updatedAt := now, workItems := s.workItems[id := item]), o, owner, leaseId, later)
            == DecideInFlight(id, item, StatusOf(o, id), IsSelected(o, id), o.git)
  {
    TickOnInFlight(s.(updatedAt := now, workItems := s.workItems[id := item]), o, owner, leaseId, later, id);
  }

  lemma DoneParses(s: State, c: Command, now: int, minted: LeaseId, after: State)
    requires Execute(s, c, now, minted) == (after, Done)
    ensures Parses(after)
  {
    OnlyWritesChange(s, c, now, minted);
  }

  lemma StateAfterParses(s: State, o: Observation, owner: string, leaseId: LeaseId, now: int, summary: Summary,
                         d: Decision)
    requires Sound(s) && s.updatedAt <= now && GitCommit(o.git.head) && ValidSummary(summary)
    requires d == DecideTick(s, o, owner, leaseId, now) && d.Act? && StepFor(d.action, d.deliveryCommit, summary).Some?
    ensures Parses(StateAfter(s, d, o.git.head, summary, now))
  {
    ActIsAccepted(s, o, owner, leaseId, now, 0, summary, d);
    DoneParses(s, ActCommand(owner, leaseId, d, StepFor(d.action, d.deliveryCommit, summary).value), now, 0,
               StateAfter(s, d, o.git.head, summary, now));
  }

  /** After `RECORD_MERGED`, `RECORD_DELIVERY_COMMIT` or `RECORD_BLOCK_COMMIT` was accepted, the same
      observation leads on: the controller neither repeats itself nor finds its own record inconsistent. */
  lemma RecordedMovesOn(s: State, o: Observation, owner: string, leaseId: LeaseId, now: int, later: int,
                        summary: Summary, d: Decision)
    requires Sound(s) && s.updatedAt <= now && GitCommit(o.git.head) && ValidSummary(summary)
    requires d == DecideTick(s, o, owner, leaseId, now) && NamesRecord(d) && Leased(s, owner, leaseId, later)
    requires StepFor(d.action, d.deliveryCommit, summary).Some?
    ensures var e := DecideTick(StateAfter(s, d, o.git.head, summary, now), o, owner, leaseId, later);
      e.Act? && Some(e.action) == NextAction(d)
  {
    ActIsInFlight(s, o, owner, leaseId, now, summary, d);
    StateAfterParses(s, o, owner, leaseId, now, summary, d);
    RecordedTick(s, o, owner, leaseId, now, later, summary, d);
  }

  lemma RecordedTick(s: State, o: Observation, owner: string, leaseId: LeaseId, now: int, later: int, summary: Summary,
                     d: Decision)
    requires NamesRecord(d)
    requires d == DecideInFlight(d.workItem, d.item, StatusOf(o, d.workItem), IsSelected(o, d.workItem), o.git)
    requires ReadyForAction(d.action, d.item) && Leased(s, owner, leaseId, later)
    requires Parses(StateAfter(s, d, o.git.head, summary, now))
    ensures var e := DecideTick(StateAfter(s, d, o.git.head, summary, now), o, owner, leaseId, later);
      e.Act? && Some(e.action) == NextAction(d)
  {
    var id, next := d.workItem, ItemAfter(d.item, d.action, o.git.head, summary, now);
    TickAfter(s, o, owner, leaseId, now, later, id, next);
    RecordedDecision(id, d.item, StatusOf(o, id), IsSelected(o, id), o.git, d, next, summary, now);
  }

  /** What the controller decides about an attempt it has just begun. */
  function AfterBegin(w: string, m: Metadata, git: Git, now: int): Decision {
    if m.branch == "main" then Block(DeliveryStartedBeforeAttemptBranch)
    else Act(if git.branch == "main" then CreateAttemptBranch else ReconcileChild(true), w, Begun(m, now), None)
  }

  lemma BegunDecision(w: string, m: Metadata, status: Delivery.Status, git: Git, now: int)
    requires Starts(status, git, m)
    ensures DecideInFlight(w, Begun(m, now), Some(status), true, git) == AfterBegin(w, m, git, now)
  {
    assert git.dirtyEntries == [] ==> DirtyPaths(git.dirtyEntries) == {};
  }

  /** After `READY_NEW` or `READY_RETRY` was accepted, the same observation creates the attempt's branch, or
      takes up the child on the branch that is already there; it stops only where an attempt that someone
      else began on `main` itself is retried. */
  lemma BegunMovesOn(s: State, o: Observation, owner: string, leaseId: LeaseId, now: int, later: int, minted: LeaseId,
                     w: string, m: Metadata)
    requires Sound(s) && s.updatedAt <= now && Observed(o) && Leased(s, owner, leaseId, later)
    requires ReadyFor(DecideTick(s, o, owner, leaseId, now), w, m)
    requires Execute(s, BeginCommand(owner, leaseId, w, m), now, minted).1 == Done
    ensures DecideTick(Execute(s, BeginCommand(owner, leaseId, w, m), now, minted).0, o, owner, leaseId, later)
            == AfterBegin(w, m, o.git, now)
  {
    ReadyCase(s, o, owner, leaseId, now, w, m);
    ReadyIsAccepted(s, o, owner, leaseId, now, minted, w, m);
    var after := s.(updatedAt := now, workItems := s.workItems[w := Begun(m, now)]);
    DoneParses(s, BeginCommand(owner, leaseId, w, m), now, minted, after);
    TickAfter(s, o, owner, leaseId, now, later, w, Begun(m, now));
    BegunDecision(w, m, o.selected.value.status, o.git, now);
  }

  // ----- where the controller acts -----

  /** At the tip of `main`, with nothing but control files changed, if anything. */
  predicate AtTipOfMain(git: Git) {
    && git.branch == "main" && git.head == git.mainCommit && WellFormedEntries(git.dirtyEntries)
    && (DirtyPaths(git.dirtyEntries) == {} || ControlPaths(DirtyPaths(git.dirtyEntries)))
  }

  predicate InPlace(branch: Option<string>, git: Git) {
    Some(git.branch) == branch || AtTipOfMain(git)
  }

  lemma CleanIsInPlace(git: Git)
    requires git.branch == "main" && git.head == git.mainCommit && git.dirtyEntries == []
    ensures AtTipOfMain(git)
  {
    assert DirtyPaths(git.dirtyEntries) == {};
  }

  lemma PreparedInPlace(id: string, item: WorkItem, status: Option<Delivery.Status>, isSelected: bool, git: Git)
    requires DecidePrepared(id, item, status, isSelected, git).Act?
    ensures InPlace(item.branch, git)
  {
    if git.branch == "main" { CleanIsInPlace(git); }
  }

  lemma RecoveryInPlace(id: string, item: WorkItem, status: Option<Delivery.Status>, isSelected: bool, git: Git)
    requires DecideRecovery(id, item, status, isSelected, git).Act? && Recoverable(item)
    ensures InPlace(item.branch, git)
  {
    if git.branch == "main" && git.head == git.mainCommit && git.dirtyEntries == [] { CleanIsInPlace(git); }
  }

  lemma TaskCommittedInPlace(id: string, item: WorkItem, status: Option<Delivery.Status>, isSelected: bool, git: Git)
    requires DecideTaskCommitted(id, item, status, isSelected, git).Act?
    ensures InPlace(item.branch, git)
  {
    if git.branch == "main" && git.head == git.mainCommit { CleanIsInPlace(git); }
  }

  lemma MergedInPlace(id: string, item: WorkItem, status: Option<Delivery.Status>, isSelected: bool, git: Git)
    requires DecideMerged(id, item, status, isSelected, git).Act?
    ensures AtTipOfMain(git)
  {
  }

  lemma InFlightInPlace(id: string, item: WorkItem, status: Option<Delivery.Status>, isSelected: bool, git: Git)
    requires DecideInFlight(id, item, status, isSelected, git).Act?
    requires (item.phase == Some(RecoveryRequired) ==> Recoverable(item))
    ensures InPlace(item.branch, git)
  {
    match item.phase.value
    case Prepared => PreparedInPlace(id, item, status, isSelected, git);
    case RecoveryRequired => RecoveryInPlace(id, item, status, isSelected, git);
    case TaskCommitted => TaskCommittedInPlace(id, item, status, isSelected, git);
    case Merged => MergedInPlace(id, item, status, isSelected, git);
    case DeliveryCommitted => CleanIsInPlace(git);
    case BlockCommitted => CleanIsInPlace(git);
    case _ =>
  }

  /** The branch a decision is for. */
  function BranchOf(d: Decision): Option<string> {
    match d
    case Act(_, _, item, _) => item.branch
    case ReadyNew(_, m) => Some(m.branch)
    case ReadyRetry(_, m) => Some(m.branch)
    case _ => None
  }

  predicate Acts(d: Decision) { d.Act? || d.ReadyNew? || d.ReadyRetry? }

  lemma SelectedInPlace(items: map<string, WorkItem>, selected: Selected, statuses: map<string, Delivery.Status>,
                        git: Git)
    requires Acts(DecideSelected(items, selected, statuses, git))
    ensures InPlace(BranchOf(DecideSelected(items, selected, statuses, git)), git)
  {
    if git.branch == "main" && git.head == git.mainCommit && git.dirtyEntries == [] { CleanIsInPlace(git); }
  }

  lemma InFlightActsInPlace(d: Decision, item: WorkItem, o: Observation)
    requires d.Act?
    requires d == DecideInFlight(d.workItem, item, StatusOf(o, d.workItem), IsSelected(o, d.workItem), o.git)
    requires item.phase == Some(RecoveryRequired) ==> Recoverable(item)
    ensures InPlace(BranchOf(d), o.git)
  {
    InFlightInPlace(d.workItem, item, StatusOf(o, d.workItem), IsSelected(o, d.workItem), o.git);
  }

  lemma SoundIsRecoverable(s: State, id: string)
    requires Sound(s) && id in s.workItems
    ensures s.workItems[id].phase == Some(RecoveryRequired) ==> Recoverable(s.workItems[id])
  {
    assert Issued(s.workItems[id]) && ParsesItem(id, s.workItems[id]);
  }

  /** In every sound state and on every worktree: the controller acts on the attempt's own branch, or at
      the tip of `main` with nothing but control files changed. */
  lemma ActsInPlace(s: State, o: Observation, owner: string, leaseId: LeaseId, now: int, d: Decision)
    requires Sound(s) && d == DecideTick(s, o, owner, leaseId, now) && Acts(d)
    ensures InPlace(BranchOf(d), o.git)
  {
    var id := TickCases(s, o, owner, leaseId, now);
    if AnyInFlight(s.workItems) {
      SoundIsRecoverable(s, id);
      InFlightActsInPlace(d, s.workItems[id], o);
    } else {
      SelectedInPlace(s.workItems, o.selected.value, o.statuses, o.git);
    }
  }

  /** What an action that records progress is evidence of. */
  predicate Proven(d: Decision, status: Option<Delivery.Status>, git: Git)
    requires TickController.Records(d)
  {
    match d.action
    case NameMerged =>
      git.branch == "main" && git.taskBaseIsAncestor == Some(true)
      && d.item.taskCommit == Some(git.head) == Some(git.mainCommit)
    case NameBlockCommit =>
      status == Some(Delivery.Blocked) && AtControlCommit(d.deliveryCommit, d.item.baseCommit, git)
    case FinalizeBlockedAttempt =>
      status == Some(Delivery.Blocked) && AtControlCommit(d.deliveryCommit, d.item.baseCommit, git)
    case _ => status == Some(Delivery.Complete) && AtControlCommit(d.deliveryCommit, d.item.taskCommit, git)
  }

  /** A merge is recorded only with `main` at the task commit; a passed or blocked end only with the queue
      saying so and `main` clean at one control commit on top of the task commit or of the base. */
  lemma RecordsAreProven(id: string, item: WorkItem, status: Option<Delivery.Status>, isSelected: bool, git: Git)
    requires TickController.Records(DecideInFlight(id, item, status, isSelected, git))
    ensures Proven(DecideInFlight(id, item, status, isSelected, git), status, git)
  {
    var d := DecideInFlight(id, item, status, isSelected, git);
    match item.phase.value
    case RecoveryRequired => BlockCommitMovesOn(id, item, status, isSelected, git, d);
    case Merged => DeliveryCommitMovesOn(id, item, status, isSelected, git, d);
    case _ =>
  }

  /** The Git and queue evidence that progress can be recorded on, phase by phase. */
  predicate Evidenced(item: WorkItem, status: Option<Delivery.Status>, isSelected: bool, git: Git) {
    match item.phase
    case Some(TaskCommitted) =>
      && status == Some(Delivery.InProgress) && isSelected && git.branch == "main" && item.branch != Some("main")
      && item.taskCommit == Some(git.head) == Some(git.mainCommit) && item.baseCommit.Some?
      && item.baseCommit != item.taskCommit
      && git.taskBaseIsAncestor == Some(true) && REQUIRED_PATHS <= PathSet(git.taskDiffPaths) && git.dirtyEntries == []
    case Some(Merged) =>
      && status == Some(Delivery.Complete) && item.baseCommit.Some? && git.taskBaseIsAncestor == Some(true)
      && AtControlCommit(Some(git.head), item.taskCommit, git)
    case Some(RecoveryRequired) =>
      status == Some(Delivery.Blocked) && Recoverable(item) && AtControlCommit(Some(git.head), item.baseCommit, git)
    case Some(DeliveryCommitted) =>
      status == Some(Delivery.Complete) && AtControlCommit(item.deliveryCommit, item.taskCommit, git)
    case Some(BlockCommitted) =>
      status == Some(Delivery.Blocked) && AtControlCommit(item.deliveryCommit, item.baseCommit, git)
    case _ => false
  }

  lemma CleanHasNoPath(entries: seq<string>)
    ensures entries == [] <==> WellFormedEntries(entries) && DirtyPaths(entries) == {}
  {
    if entries != [] && WellFormedEntries(entries) { DirtHasAPath(entries); }
  }

  lemma MergeRecordedExactly(id: string, item: WorkItem, status: Option<Delivery.Status>, isSelected: bool, git: Git)
    requires item.phase == Some(TaskCommitted)
    ensures TickController.Records(DecideTaskCommitted(id, item, status, isSelected, git))
            <==> Evidenced(item, status, isSelected, git)
  {
  }

  lemma DeliveryRecordedExactly(id: string, item: WorkItem, status: Option<Delivery.Status>, isSelected: bool, git: Git)
    requires item.phase == Some(Merged)
    ensures TickController.Records(DecideMerged(id, item, status, isSelected, git))
            <==> Evidenced(item, status, isSelected, git)
  {
    CleanHasNoPath(git.dirtyEntries);
  }

  lemma BlockRecordedExactly(id: string, item: WorkItem, status: Option<Delivery.Status>, isSelected: bool, git: Git)
    requires item.phase == Some(RecoveryRequired)
    ensures TickController.Records(DecideRecovery(id, item, status, isSelected, git))
            <==> Evidenced(item, status, isSelected, git)
  {
    CleanHasNoPath(git.dirtyEntries);
  }

  /** The controller names a `RECORD_*` or `FINALIZE_*` action exactly when the evidence for it is there. */
  lemma RecordsExactly(id: string, item: WorkItem, status: Option<Delivery.Status>, isSelected: bool, git: Git)
    ensures TickController.Records(DecideInFlight(id, item, status, isSelected, git))
            <==> Evidenced(item, status, isSelected, git)
  {
    match item.phase
    case Some(TaskCommitted) => MergeRecordedExactly(id, item, status, isSelected, git);
    case Some(Merged) => DeliveryRecordedExactly(id, item, status, isSelected, git);
    case Some(RecoveryRequired) => BlockRecordedExactly(id, item, status, isSelected, git);
    case _ =>
  }
}
