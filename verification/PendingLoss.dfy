/** How an alert that could not be delivered is lost all the same: the one case that `NoLoss` leaves. */
module PendingLoss {
  import opened Basics
  import opened AlertText
  import opened PendingAlerts
  import opened PendingMessages
  import opened PendingCover
  import opened PendingRuns
  import opened PendingExamples

  // ----- a full list -----

  /** Run `k`, five minutes after the one before it, starting at 07:00: its one failure is not delivered. */
  function FailingRun(k: nat): Trial {
    Trial(Some(One(LOUD, Figure(k))), [LOUD], 300 * k, true, false, true)
  }

  function FailingRuns(n: nat): (r: seq<Trial>)
    ensures |r| == n
  {
    if n == 0 then [] else FailingRuns(n - 1) + [FailingRun(n - 1)]
  }

  const NOTHING := PendingState([], 0)

  function Queue(n: nat): PendingState { AfterAll(NOTHING, FailingRuns(n)) }

  lemma {:induction false} OneMoreRun(state: PendingState, ts: seq<Trial>, t: Trial)
    ensures AfterAll(state, ts + [t]) == After(AfterAll(state, ts), t)
    decreases |ts|
  {
    if ts == [] {
      assert ([] + [t])[1..] == [];
    } else {
      assert (ts + [t])[1..] == ts[1..] + [t];
      OneMoreRun(After(state, ts[0]), ts[1..], t);
    }
  }

  /** The texts of the failing runs, in order. */
  predicate Filled(alerts: seq<PendingAlert>, n: nat) {
    |alerts| == n && forall i :: 0 <= i < n ==> alerts[i].text == One(LOUD, Figure(i))
  }

  lemma FigureIsNew(alerts: seq<PendingAlert>, n: nat)
    requires Filled(alerts, n)
    ensures One(LOUD, Figure(n)) !in Texts(alerts) && |One(LOUD, Figure(n))| == 50 + n
  {
    OneLength(LOUD, Figure(n));
    forall i | 0 <= i < n ensures |One(LOUD, Figure(i))| == 50 + i {
      OneLength(LOUD, Figure(i));
    }
  }

  lemma FillsOneMore(state: PendingState, n: nat)
    requires n < MAX_PENDING && Filled(state.alerts, n)
    ensures Filled(After(state, FailingRun(n)).alerts, n + 1)
  {
    var t := FailingRun(n);
    FigureIsNew(state.alerts, n);
    FailureJoins(state, t, LOUD);
    TextsOf(state.alerts, After(state, t).alerts, t.current.value);
  }

  lemma {:induction false} QueueFills(n: nat)
    requires n <= MAX_PENDING
    ensures Filled(Queue(n).alerts, n)
  {
    if n > 0 {
      QueueFills(n - 1);
      OneMoreRun(NOTHING, FailingRuns(n - 1), FailingRun(n - 1));
      FillsOneMore(Queue(n - 1), n - 1);
    }
  }

  lemma TextsOf(before: seq<PendingAlert>, after: seq<PendingAlert>, text: string)
    requires TextList(after) == TextList(before) + [text]
    ensures |after| == |before| + 1 && after[|before|].text == text
    ensures forall i :: 0 <= i < |before| ==> after[i].text == before[i].text
  {
    forall i | 0 <= i < |after| ensures after[i].text == (TextList(before) + [text])[i] {
      assert TextList(after)[i] == after[i].text;
    }
  }

  // ----- the loss -----

  /** The next failure repeats the oldest one and adds one that waits for the morning. */
  const LOSING := Trial(Some(Mixed(LOUD, Figure(0), QUIET, Figure(0))), [LOUD, QUIET], 7200, true, false, true)

  lemma LosingNames()
    ensures PlainName(LOUD) && PlainName(QUIET) && !Quiet(LOUD) && Quiet(QUIET) && Plain(Figure(0))
    ensures |Mixed(LOUD, Figure(0), QUIET, Figure(0))| <= MAX_MESSAGE
  {
    Names();
    HeadingLengths();
  }

  lemma LosingParts()
    ensures PartsFor(LOSING.current.value, LOSING.checks)
            == [Part(One(LOUD, Figure(0)), [LOUD]), Part(One(QUIET, Figure(0)), [QUIET])]
    ensures |PartsFor(LOSING.current.value, LOSING.checks)| == 2 && PartText(LOSING, 0) == One(LOUD, Figure(0))
  {
    LosingNames();
    MixedParts(LOUD, Figure(0), QUIET, Figure(0));
    OneLength(LOUD, Figure(0));
  }

  lemma QuietIsNew(alerts: seq<PendingAlert>, n: nat)
    requires Filled(alerts, n)
    ensures One(QUIET, Figure(0)) !in Texts(alerts)
  {
    HeadingLengths();
    forall i | 0 <= i < n ensures One(LOUD, Figure(i)) != One(QUIET, Figure(0)) {
      assert One(LOUD, Figure(i))[32] == 'd' && One(QUIET, Figure(0))[32] == 'c';
    }
  }

  lemma OneJoins(parts: seq<Part>, now: int, attempts: int, present: set<string>)
    requires |parts| == 2 && Clip(parts[0].text, KEPT) in present && Clip(parts[1].text, KEPT) !in present
    ensures |KeptOf(parts, now, attempts, present)| == 1
  {
    assert parts[..1][..0] == [];
    assert KeptOf(parts[..1], now, attempts, present) == [];
  }

  lemma StoredWhole(name: string)
    requires |name| <= 100
    ensures Clip(One(name, Figure(0)), KEPT) == One(name, Figure(0))
  {
    OneLength(name, Figure(0));
  }

  lemma LosingJoins(state: PendingState, attempts: int)
    requires Filled(state.alerts, MAX_PENDING)
    ensures |Joining(state, LOSING, attempts)| == 1
  {
    LosingParts();
    QuietIsNew(state.alerts, MAX_PENDING);
    StoredWhole(LOUD);
    StoredWhole(QUIET);
    assert state.alerts[0] in state.alerts;
    OneJoins(PartsFor(LOSING.current.value, LOSING.checks), LOSING.now, attempts, Texts(state.alerts));
  }

  lemma OldestDoesNotStay(alerts: seq<PendingAlert>)
    requires Filled(alerts, MAX_PENDING)
    ensures One(LOUD, Figure(0)) in Texts(alerts) && !StaysIn(alerts, 1, One(LOUD, Figure(0)))
  {
    forall i: nat | i < MAX_PENDING ensures |One(LOUD, Figure(i))| == 50 + i {
      OneLength(LOUD, Figure(i));
    }
    assert alerts[0] in alerts;
  }

  lemma LostUnlessItStays(state: PendingState, t: Trial, text: string)
    requires |state.alerts| <= MAX_PENDING && t.current.Some? && |t.current.value| <= MAX_MESSAGE && t.saves && !t.sends
    requires |PartsFor(t.current.value, t.checks)| > 0 && text == PartText(t, 0)
    requires |Joining(state, t, 0)| == |Joining(state, t, 1)| == 1 && !StaysIn(state.alerts, 1, text)
    ensures text !in Texts(After(state, t).alerts)
  {
    NoLoss(state, t, 0);
  }

  lemma {:induction false} NothingIsDelivered(state: PendingState, ts: seq<Trial>)
    requires forall i :: 0 <= i < |ts| ==> !ts[i].sends
    ensures LedgerOf(state, ts).delivered == multiset{} && LedgerOf(state, ts).cutOff == multiset{}
    decreases |ts|
  {
    if ts != [] {
      NothingIsDelivered(After(state, ts[0]), ts[1..]);
      assert ChangeOf(state, ts[0]).gone == [];
      NoneGoneAtAll(state.alerts);
      assert TextList([]) == [];
    }
  }

  lemma {:induction false} AllFail(n: nat)
    ensures forall i :: 0 <= i < n ==> !FailingRuns(n)[i].sends && FailingRuns(n)[i].saves
  {
    if n > 0 { AllFail(n - 1); }
  }

  lemma OldestIsLost(state: PendingState)
    requires Filled(state.alerts, MAX_PENDING)
    ensures |PartsFor(LOSING.current.value, LOSING.checks)| == 2 && PartText(LOSING, 0) in Texts(state.alerts)
    ensures PartText(LOSING, 0) !in Texts(After(state, LOSING).alerts)
  {
    LosingNames();
    LosingParts();
    LosingJoins(state, 0);
    LosingJoins(state, 1);
    OldestDoesNotStay(state.alerts);
    LostUnlessItStays(state, LOSING, One(LOUD, Figure(0)));
  }

  lemma QueueIsFull()
    ensures Filled(Queue(MAX_PENDING).alerts, MAX_PENDING) && DistinctTexts(Queue(MAX_PENDING).alerts)
  {
    QueueFills(MAX_PENDING);
    KeptOnce(NOTHING, FailingRuns(MAX_PENDING));
  }

  /** No run of the history says a kept alert. */
  predicate NeverSaid(ts: seq<Trial>) {
    LedgerOf(NOTHING, ts).delivered == multiset{} && LedgerOf(NOTHING, ts).cutOff == multiset{}
  }

  lemma LosingHistory()
    ensures NeverSaid(FailingRuns(MAX_PENDING) + [LOSING])
  {
    AllFail(MAX_PENDING);
    NothingIsDelivered(NOTHING, FailingRuns(MAX_PENDING) + [LOSING]);
  }

  /** From the empty file, with every send failing and every write succeeding: after twenty-four runs the list
      is full of distinct alerts, and the next run's alert, no longer than the limit, loses a part. The part
      was queued before that run, it is not queued after it, and nothing was ever delivered. */
  lemma CurrentCanBeLost() returns (ts: seq<Trial>, state: PendingState, t: Trial)
    ensures forall i :: 0 <= i < |ts| ==> !ts[i].sends && ts[i].saves
    ensures state == AfterAll(NOTHING, ts) && |state.alerts| == MAX_PENDING && DistinctTexts(state.alerts)
    ensures t.current.Some? && |t.current.value| <= MAX_MESSAGE && !t.sends && t.saves
    ensures |PartsFor(t.current.value, t.checks)| == 2 && PartText(t, 0) in Texts(state.alerts)
    ensures PartText(t, 0) !in Texts(After(state, t).alerts)
    ensures NeverSaid(ts + [t])
  {
    ts, state, t := FailingRuns(MAX_PENDING), Queue(MAX_PENDING), LOSING;
    AllFail(MAX_PENDING);
    LosingNames();
    QueueIsFull();
    OldestIsLost(state);
    LosingHistory();
  }
}
