/** Where `begin-attempt` refuses what the controller names: one input for each case of `ReadyIsAccepted`. */
module ControllerLimits {
  import opened Basics
  import opened AutomationIds
  import opened AutomationState
  import opened AutomationRuns
  import opened TickController
  import opened ControllerRefinement
  import Delivery = DeliveryGeneration

  const OWNER := "o"
  const LEASE: LeaseId := 1
  const HELD := Lease(LEASE, OWNER, 0, 100, 100)

  function EmptyWithLease(): State { State(0, Some(HELD), map[]) }

  lemma LeaseIsAcquired()
    ensures Execute(Empty(0), Acquire(OWNER, 100, None), 0, LEASE) == (EmptyWithLease(), Done)
    ensures Sound(EmptyWithLease()) && Safe(OWNER, 128)
  {
    assert Safe(OWNER, 128);
  }

  /** A clean `main` at `base`, and a pending work item that was never attempted. */
  function FirstSight(w: string, base: string): Observation {
    Observation(Some(Selected(w, Delivery.Pending)), map[w := Delivery.Pending],
                Git("main", base, base, [], [], [], None, [], None))
  }

  lemma NewWorkIsReady(s: State, w: string, base: string, now: int)
    requires Parses(s) && Leased(s, OWNER, LEASE, now) && !AnyInFlight(s.workItems) && w !in s.workItems
    ensures DecideTick(s, FirstSight(w, base), OWNER, LEASE, now) == ReadyNew(w, AttemptMetadata(w, base, 1))
  {
    TickOnSelected(s, FirstSight(w, base), OWNER, LEASE, now);
  }

  // ----- an identifier that another item holds -----

  /** A first attempt of `other` under the attempt identifier that the controller makes for `w`. */
  function Foreign(w: string, other: string, base: string): Metadata {
    Metadata(1, AttemptIdFor(w, base, 1), base, BranchFor(other), ChildRunIdFor(other, base, 1))
  }

  const FAILURE := RecordResult(Failed, Summary("failed", false))

  function ForeignEvents(other: string, m: Metadata): seq<Event> {
    [Event(Acquire(OWNER, 100, None), 0, LEASE),
     Event(BeginCommand(OWNER, LEASE, other, m), 1, 0),
     Event(OnItem(OWNER, LEASE, other, m.attemptId, FAILURE), 2, 0)]
  }

  function ForeignBegun(other: string, m: Metadata): State {
    State(1, Some(HELD), map[other := Begun(m, 1)])
  }

  function ForeignEnded(other: string, m: Metadata): State {
    State(2, Some(HELD), map[other := Failing(Begun(m, 1), 2)])
  }

  predicate ShortName(w: string) { WorkItemId(w) && |w| <= 105 }

  /** A first attempt that the empty state lets anyone begin. */
  predicate CanBegin(other: string, m: Metadata) {
    && m.attempt == 1 && ValidArguments(BeginCommand(OWNER, LEASE, other, m)) && ToLower(m.baseCommit) == m.baseCommit
    && AttemptOrdinal(m.attemptId) == Some(1) && RunOrdinal(m.childRunId) == Some(1)
  }

  lemma ForeignCanBegin(w: string, other: string, base: string)
    requires ShortName(w) && ShortName(other) && GitCommit(base)
    ensures CanBegin(other, Foreign(w, other, base))
  {
    AttemptIdShape(w, base, 1);
    ChildRunIdShape(other, base, 1);
    BranchesAreBranches(other, 1);
    GitCommitFacts(base);
    LeaseIsAcquired();
  }

  lemma ForeignBegins(other: string, m: Metadata)
    requires CanBegin(other, m)
    ensures Execute(EmptyWithLease(), BeginCommand(OWNER, LEASE, other, m), 1, 0) == (ForeignBegun(other, m), Done)
    ensures Sound(ForeignBegun(other, m))
  {
    var s, c := EmptyWithLease(), BeginCommand(OWNER, LEASE, other, m);
    LeaseIsAcquired();
    BeginWithNextIds(s.workItems, other, m, 1);
    StepIsWritten(s, c, 1, 0, Begun(m, 1));
    Closure(s, c, 1, 0);
  }

  function Failing(item: WorkItem, now: int): WorkItem {
    item.(lastResult := Some(Failed), lastSummary := Some(FAILURE.summary), lastResultAt := Some(now),
          phase := Some(Terminal))
  }

  lemma FailureEnds(items: map<string, WorkItem>, other: string, attemptId: string, now: int)
    requires other in items && items[other].attempts == 1 && items[other].attemptId == Some(attemptId)
    requires items[other].phase == Some(Prepared)
    ensures StepEffect(items, other, attemptId, FAILURE, now) == Becomes(Failing(items[other], now))
  {
  }

  lemma FailureArguments(other: string, attemptId: string)
    requires WorkItemId(other) && Safe(attemptId, 128)
    ensures ValidArguments(OnItem(OWNER, LEASE, other, attemptId, FAILURE))
  {
    LeaseIsAcquired();
    assert !Space(FAILURE.summary.text[0]);
  }

  lemma FailureIsWritten(s: State, other: string, attemptId: string, now: int)
    requires Sound(s) && s.updatedAt <= now && Leased(s, OWNER, LEASE, now) && WorkItemId(other) && Safe(attemptId, 128)
    requires other in s.workItems && s.workItems[other].attempts == 1 && s.workItems[other].attemptId == Some(attemptId)
    requires s.workItems[other].phase == Some(Prepared)
    ensures var after := s.(updatedAt := now, workItems := s.workItems[other := Failing(s.workItems[other], now)]);
      Execute(s, OnItem(OWNER, LEASE, other, attemptId, FAILURE), now, 0) == (after, Done) && Sound(after)
  {
    var c := OnItem(OWNER, LEASE, other, attemptId, FAILURE);
    FailureArguments(other, attemptId);
    FailureEnds(s.workItems, other, attemptId, now);
    StepIsWritten(s, c, now, 0, Failing(s.workItems[other], now));
    Closure(s, c, now, 0);
  }

  lemma EndedAfterBegun(other: string, m: Metadata)
    ensures var s := ForeignBegun(other, m);
      && ForeignEnded(other, m) == s.(updatedAt := 2, workItems := s.workItems[other := Failing(s.workItems[other], 2)])
      && s.workItems[other] == Begun(m, 1)
  {
    var s := ForeignBegun(other, m);
    assert s.workItems[other := Failing(Begun(m, 1), 2)] == ForeignEnded(other, m).workItems;
  }

  lemma ForeignEnds(other: string, m: Metadata)
    requires CanBegin(other, m)
    ensures Execute(ForeignBegun(other, m), OnItem(OWNER, LEASE, other, m.attemptId, FAILURE), 2, 0)
            == (ForeignEnded(other, m), Done)
    ensures Sound(ForeignEnded(other, m))
  {
    EndedAfterBegun(other, m);
    BegunFacts(other, m);
    FailureIsWritten(ForeignBegun(other, m), other, m.attemptId, 2);
  }

  lemma BegunFacts(other: string, m: Metadata)
    requires CanBegin(other, m)
    ensures WorkItemId(other) && Safe(m.attemptId, 128) && Leased(ForeignBegun(other, m), OWNER, LEASE, 2)
    ensures Sound(ForeignBegun(other, m))
  {
    ForeignBegins(other, m);
  }

  function Then(s: State, e: Event): State { Execute(s, e.command, e.now, e.minted).0 }

  lemma RunOfThree(s0: State, s1: State, s2: State, events: seq<Event>)
    requires |events| == 3 && s1 == Then(s0, events[0]) && s2 == Then(s1, events[1])
    ensures Run(s0, events) == Then(s2, events[2])
  {
    assert Run(s2, events[2..]) == Run(Then(s2, events[2]), events[2..][1..]);
    assert events[1..][1..] == events[2..] && events[2..][1..] == [];
  }

  lemma ForeignIsReached(other: string, m: Metadata)
    requires CanBegin(other, m)
    ensures Run(Empty(0), ForeignEvents(other, m)) == ForeignEnded(other, m)
  {
    LeaseIsAcquired();
    ForeignBegins(other, m);
    ForeignEnds(other, m);
    RunOfThree(Empty(0), EmptyWithLease(), ForeignBegun(other, m), ForeignEvents(other, m));
  }

  lemma ForeignClock(other: string, m: Metadata)
    ensures ClockFrom(0, ForeignEvents(other, m))
  {
    var events := ForeignEvents(other, m);
    assert events[1..] == [events[1], events[2]] && [events[1], events[2]][1..] == [events[2]];
    assert ClockFrom(2, []) && [events[2]][1..] == [];
    assert ClockFrom(1, [events[2]]);
    assert ClockFrom(0, [events[1], events[2]]);
  }

  lemma ForeignHolds(other: string, m: Metadata, w: string, childRunId: string)
    requires w != other
    ensures var items := ForeignEnded(other, m).workItems;
      w !in items && !AnyInFlight(items) && IdTaken(items, m.attemptId, childRunId)
  {
    assert ForeignEnded(other, m).workItems[other].attemptId == Some(m.attemptId);
  }

  /** After three accepted commands on the empty state, a `READY_NEW` that `begin-attempt` refuses. */
  lemma ForeignIdIsRefused(w: string, other: string, base: string, minted: LeaseId)
    requires ShortName(w) && ShortName(other) && GitCommit(base) && w != other
    ensures var s, m := ForeignEnded(other, Foreign(w, other, base)), AttemptMetadata(w, base, 1);
      && Sound(s) && DecideTick(s, FirstSight(w, base), OWNER, LEASE, 3) == ReadyNew(w, m)
      && Execute(s, BeginCommand(OWNER, LEASE, w, m), 3, minted) == (s, Refused(IdInUse))
  {
    var s, o, m := ForeignEnded(other, Foreign(w, other, base)), FirstSight(w, base), AttemptMetadata(w, base, 1);
    ForeignCanBegin(w, other, base);
    ForeignEnds(other, Foreign(w, other, base));
    ForeignHolds(other, Foreign(w, other, base), w, m.childRunId);
    NewWorkIsReady(s, w, base, 3);
    ReadyIsAccepted(s, o, OWNER, LEASE, 3, minted, w, m);
  }

  lemma TwoNames()
    ensures ShortName("AB-001") && ShortName("AB-002") && "AB-001" != "AB-002"
  {
    assert "AB-001"[5] != "AB-002"[5];
  }

  /** One such run from the empty state, with its names. */
  lemma ReadyCanBeRefused() returns (events: seq<Event>, s: State, o: Observation, w: string, m: Metadata)
    ensures ClockFrom(0, events) && s == Run(Empty(0), events) && Sound(s) && Observed(o) && |w| <= 105
    ensures DecideTick(s, o, OWNER, LEASE, 3) == ReadyNew(w, m)
    ensures Execute(s, BeginCommand(OWNER, LEASE, w, m), 3, 0) == (s, Refused(IdInUse))
  {
    var base := seq(40, i => '0');
    w := "AB-001";
    TwoNames();
    var foreign := Foreign(w, "AB-002", base);
    events, s := ForeignEvents("AB-002", foreign), ForeignEnded("AB-002", foreign);
    o, m := FirstSight(w, base), AttemptMetadata(w, base, 1);
    ForeignClock("AB-002", foreign);
    ForeignCanBegin(w, "AB-002", base);
    ForeignIsReached("AB-002", foreign);
    ForeignIdIsRefused(w, "AB-002", base, 0);
  }

  // ----- a name too long -----

  function LongName(n: nat): string { seq(n, i => 'A') + "-001" }

  /** A work item with a name of 106 characters. */
  lemma LongNameIsRefused() returns (s: State, o: Observation, w: string, m: Metadata)
    ensures Sound(s) && Observed(o) && |w| == 106
    ensures DecideTick(s, o, OWNER, LEASE, 1) == ReadyNew(w, m)
    ensures Execute(s, BeginCommand(OWNER, LEASE, w, m), 1, 0) == (s, Refused(InvalidArgument))
  {
    var base := seq(40, i => '0');
    w := LongName(102);
    s, o, m := EmptyWithLease(), FirstSight(w, base), AttemptMetadata(w, base, 1);
    LeaseIsAcquired();
    NewWorkIsReady(s, w, base, 1);
    ReadyIsAccepted(s, o, OWNER, LEASE, 1, 0, w, m);
  }

  // ----- an attempt on `main` -----

  /** A first attempt under the controller's identifiers, but with `main` for its branch. */
  function OnMain(w: string, base: string): Metadata {
    Metadata(1, AttemptIdFor(w, base, 1), base, "main", ChildRunIdFor(w, base, 1))
  }

  function SecondOnMain(w: string, base: string): Metadata {
    AttemptMetadata(w, base, 2).(branch := "main")
  }

  /** The work item in progress, and a clean `main` that still stands at `base`. */
  function InProgressOnMain(w: string, base: string): Observation {
    Observation(Some(Selected(w, Delivery.InProgress)), map[w := Delivery.InProgress],
                Git("main", base, base, [], [], [], None, [], Some(true)))
  }

  lemma MainIsABranch()
    ensures Branch("main")
  {
    var s := "main";
    forall i | 0 <= i < |s| ensures BranchableAt(s, i) {
      SlugIsBranchable(s[i], if i + 1 < |s| then Some(s[i + 1]) else None);
    }
  }

  lemma OnMainCanBegin(w: string, base: string)
    requires ShortName(w) && GitCommit(base)
    ensures CanBegin(w, OnMain(w, base))
  {
    AttemptIdShape(w, base, 1);
    ChildRunIdShape(w, base, 1);
    GitCommitFacts(base);
    LeaseIsAcquired();
    MainIsABranch();
  }

  lemma FailedOnMainRetries(items: map<string, WorkItem>, w: string, base: string)
    requires w in items && items[w].attempts == 1 && items[w].phase == Some(Terminal)
    requires items[w].lastResult == Some(Failed) && items[w].branch == Some("main") && items[w].baseCommit == Some(base)
    ensures var o := InProgressOnMain(w, base);
      DecideSelected(items, o.selected.value, o.statuses, o.git) == ReadyRetry(w, SecondOnMain(w, base))
  {
  }

  lemma RetryIsReady(w: string, base: string)
    requires ShortName(w) && Sound(ForeignEnded(w, OnMain(w, base)))
    ensures DecideTick(ForeignEnded(w, OnMain(w, base)), InProgressOnMain(w, base), OWNER, LEASE, 3)
            == ReadyRetry(w, SecondOnMain(w, base))
  {
    var s, o := ForeignEnded(w, OnMain(w, base)), InProgressOnMain(w, base);
    assert s.workItems[w] == Failing(Begun(OnMain(w, base), 1), 2);
    TickOnSelected(s, o, OWNER, LEASE, 3);
    FailedOnMainRetries(s.workItems, w, base);
  }

  lemma SecondIdsAreNew(w: string, base: string)
    requires ShortName(w) && GitCommit(base)
    ensures var m := SecondOnMain(w, base);
      !IdTaken(ForeignEnded(w, OnMain(w, base)).workItems, m.attemptId, m.childRunId)
  {
    var item := ForeignEnded(w, OnMain(w, base)).workItems[w];
    if item.attemptId == Some(AttemptIdFor(w, base, 2)) { AttemptIdsAreDistinct(w, w, base, base, 1, 2); }
    if item.childRunId == Some(ChildRunIdFor(w, base, 2)) { ChildRunIdsAreDistinct(w, w, base, base, 1, 2); }
  }

  lemma RetryBlocks(w: string, base: string)
    requires ShortName(w) && GitCommit(base)
    ensures var s, o, m := ForeignEnded(w, OnMain(w, base)), InProgressOnMain(w, base), SecondOnMain(w, base);
      && DecideTick(s, o, OWNER, LEASE, 3) == ReadyRetry(w, m)
      && Execute(s, BeginCommand(OWNER, LEASE, w, m), 3, 0).1 == Done
      && DecideTick(Execute(s, BeginCommand(OWNER, LEASE, w, m), 3, 0).0, o, OWNER, LEASE, 4)
         == Block(DeliveryStartedBeforeAttemptBranch)
  {
    var s, o, m := ForeignEnded(w, OnMain(w, base)), InProgressOnMain(w, base), SecondOnMain(w, base);
    OnMainCanBegin(w, base);
    ForeignEnds(w, OnMain(w, base));
    RetryIsReady(w, base);
    SecondIdsAreNew(w, base);
    ReadyIsAccepted(s, o, OWNER, LEASE, 3, 0, w, m);
    BegunMovesOn(s, o, OWNER, LEASE, 3, 4, 0, w, m);
  }

  /** A run from the empty state after which an accepted retry leaves the controller blocked. */
  lemma RetryCanBlock() returns (events: seq<Event>, s: State, o: Observation, w: string, m: Metadata)
    ensures ClockFrom(0, events) && s == Run(Empty(0), events)
    ensures DecideTick(s, o, OWNER, LEASE, 3) == ReadyRetry(w, m)
    ensures Execute(s, BeginCommand(OWNER, LEASE, w, m), 3, 0).1 == Done
    ensures DecideTick(Execute(s, BeginCommand(OWNER, LEASE, w, m), 3, 0).0, o, OWNER, LEASE, 4)
            == Block(DeliveryStartedBeforeAttemptBranch)
  {
    var base := seq(40, i => '0');
    w := "AB-001";
    TwoNames();
    events, s := ForeignEvents(w, OnMain(w, base)), ForeignEnded(w, OnMain(w, base));
    o, m := InProgressOnMain(w, base), SecondOnMain(w, base);
    ForeignClock(w, OnMain(w, base));
    OnMainCanBegin(w, base);
    ForeignIsReached(w, OnMain(w, base));
    RetryBlocks(w, base);
  }
}
