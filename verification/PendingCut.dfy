/** How a kept alert leaves the list unsaid: a current alert longer than the limit covers it and is clipped first. */
module PendingCut {
  import opened Basics
  import opened AlertText
  import opened PendingAlerts
  import opened PendingMessages
  import opened PendingCover
  import opened PendingRuns
  import opened PendingExamples

  const NONE_KEPT := PendingState([], 0)
  const SHORT := One(QUIET, Figure(0))
  const LONG := Mixed(LOUD, Figure(3999), QUIET, Figure(0))

  // ----- the long message -----

  lemma HeadingHasNoName(i: nat)
    requires i < 29
    ensures |ALERT_HEADING| == 29 && (ALERT_HEADING[i] == 'c' && i < 28 ==> ALERT_HEADING[i + 1] != 'o')
    ensures ALERT_HEADING[28] == ':'
  {
  }

  lemma LoudHasNoName(detail: string, j: nat)
    requires j < |Line(LOUD, detail)| && forall k :: 0 <= k < |detail| ==> detail[k] == '9'
    ensures Line(LOUD, detail)[j] != 'c'
  {
    assert |LOUD| == 15 && forall k :: 0 <= k < |LOUD| ==> LOUD[k] != 'c';
  }

  /** The message: the heading and the beginning of the long line. */
  lemma LongMessage()
    ensures |LONG| > MAX_MESSAGE && |Clip(LONG, MAX_MESSAGE)| == MAX_MESSAGE
    ensures var message := Clip(LONG, MAX_MESSAGE);
      && (forall i :: 0 <= i < 29 ==> message[i] == ALERT_HEADING[i]) && message[29] == '\n'
      && (forall i :: 30 <= i < MAX_MESSAGE - 1 ==> message[i] == Line(LOUD, Figure(3999))[i - 30])
      && message[MAX_MESSAGE - 1] == '…'
  {
    HeadingLengths();
    assert |Line(LOUD, Figure(3999))| == 4019;
  }

  lemma NoPairOfTheName(i: nat)
    requires i + 1 < MAX_MESSAGE
    ensures |Clip(LONG, MAX_MESSAGE)| == MAX_MESSAGE
    ensures Clip(LONG, MAX_MESSAGE)[i] == 'c' ==> Clip(LONG, MAX_MESSAGE)[i + 1] != 'o'
  {
    LongMessage();
    if i < 29 {
      HeadingHasNoName(i);
    } else if i >= 30 {
      LoudHasNoName(Figure(3999), i - 30);
    }
  }

  lemma PairOfTheName(message: string, i: nat)
    requires i <= |message| && QUIET <= message[i..]
    ensures i + 1 < |message| && message[i] == 'c' && message[i + 1] == 'o'
  {
    assert QUIET[0] == 'c' && QUIET[1] == 'o' && message[i..][0] == message[i] && message[i..][1] == message[i + 1];
  }

  /** The message does not name the check of the short alert. */
  lemma NeverNamed()
    ensures !Contains(Clip(LONG, MAX_MESSAGE), QUIET)
  {
    var message := Clip(LONG, MAX_MESSAGE);
    LongMessage();
    if Contains(message, QUIET) {
      var i :| 0 <= i <= |message| && QUIET <= message[i..];
      PairOfTheName(message, i);
      NoPairOfTheName(i);
    }
  }

  lemma ShortNames()
    ensures SplitLines(SHORT) == [ALERT_HEADING, Line(QUIET, Figure(0))] && Contains(Line(QUIET, Figure(0)), QUIET)
  {
    Names();
    LineNames(QUIET, Figure(0));
    HeadingIsPlain();
    LastLine(Line(QUIET, Figure(0)));
    LineThenRest(ALERT_HEADING, Line(QUIET, Figure(0)));
    ContainsBetween("• ", QUIET, ": " + Figure(0));
    assert Line(QUIET, Figure(0)) == "• " + QUIET + (": " + Figure(0));
  }

  /** The long alert covers the short one, and is clipped before it. */
  lemma ShortIsCutOff()
    ensures SHORT in PartsOf(Some(LONG)) && CutOff(Some(LONG), false, SHORT)
  {
    Names();
    MixedCovers(LOUD, Figure(3999), QUIET, Figure(0));
    ShortNames();
    NeverNamed();
    if Whole(Clip(LONG, MAX_MESSAGE), SHORT) {
      ContainsDeeper(Clip(LONG, MAX_MESSAGE), SplitLines(SHORT)[1], QUIET);
    }
    CoveredExactly(LONG, SHORT);
  }

  // ----- the two runs -----

  /** When the one kept alert is covered, the message is the current alert, and settles it. */
  lemma OneCovered(first: seq<string>, words: set<string>, entries: seq<string>, state: PendingState, now: int,
                   defer: bool)
    requires |first| == 1 && |entries| == |state.alerts| == 1 && state.dropped == 0
    requires state.alerts[0].text in words && !Waits(state.alerts[0], now)
    ensures ComposeWith(first, words, entries, state, MAX_MESSAGE, CEILING, now, defer)
            == Composition(Some(first[0]), [0], false, 0, false, false)
  {
    assert Positions(0, MaySend(state.alerts, now)) == [];
    assert Positions(0, MaySendWords(state.alerts, now, words, true)) == [];
    assert Positions(0, MaySendWords(state.alerts, now, words, false)) == [];
    assert MaySend(state.alerts, now)(0) && MaySendWords(state.alerts, now, words, true)(0);
    assert !MaySendWords(state.alerts, now, words, false)(0);
  }

  lemma CoveredComposition(state: PendingState, t: Trial)
    requires |state.alerts| == 1 && state.dropped == 0 && !Waits(state.alerts[0], t.now)
    requires t.current.Some? && state.alerts[0].text in PartsOf(t.current)
    ensures Prepared(state, t).0 == CoveringMessage(t)
  {
    OneCovered(First(t.current, MAX_MESSAGE), PartsOf(t.current), EntriesOf(state.alerts), state, t.now, true);
  }

  lemma OneLeaves(a: PendingAlert)
    ensures Left([a], [0]) == [] && Gone([a], [0]) == [a]
  {
    assert [a][..0] == [];
    assert Left([], [0]) == [] && Gone([], [0]) == [];
  }

  lemma WhichOfOne(a: PendingAlert, texts: set<string>)
    requires a.text in texts
    ensures Words(Which([a], texts, true)) == multiset{a.text} && Words(Which([a], texts, false)) == multiset{}
  {
    assert [a][..0] == [];
    assert Which([], texts, true) == [] && Which([], texts, false) == [];
    assert TextList([a]) == [a.text] && TextList([]) == [];
  }

  /** A message for one covered alert. */
  function CoveringMessage(t: Trial): Composition
    requires t.current.Some?
  {
    Composition(Some(Clip(t.current.value, MAX_MESSAGE)), [0], false, 0, false, false)
  }

  lemma CoveredChange(state: PendingState, t: Trial)
    requires t.sends && t.saves && t.current.Some? && |state.alerts| == 1 && state.dropped == 0
    requires Prepared(state, t).0 == CoveringMessage(t)
    ensures ChangeOf(state, t) == Change([0], [], [], 0)
  {
    CoveringIsRecorded(state, t, Prepared(state, t).0);
  }

  lemma CoveringIsRecorded(state: PendingState, t: Trial, c: Composition)
    requires t.sends && t.saves && t.current.Some? && |state.alerts| == 1 && state.dropped == 0
    requires c == CoveringMessage(t)
    ensures ChangeFor(state, t, c) == Change([0], [], [], 0)
  {
    CarryingIsRecorded(state, t, c, 0);
  }

  /** Delivered and recorded, it empties the file, and the ledger says which way. */
  lemma CoveredEmpties(state: PendingState, t: Trial)
    requires |state.alerts| == 1 && ChangeOf(state, t) == Change([0], [], [], 0)
    ensures After(state, t) == NONE_KEPT
  {
    AfterShape(state, t);
    NoneTried(state.alerts, t.now);
    OneLeaves(state.alerts[0]);
    assert state.alerts == [state.alerts[0]];
  }

  lemma CutTextsOfOne(a: PendingAlert, current: Option<string>, deferred: bool)
    requires CutOff(current, deferred, a.text)
    ensures a.text in CutTexts([a], current, deferred)
  {
    assert a in [a];
  }

  lemma CoveredIsSettled(state: PendingState, t: Trial)
    requires |state.alerts| == 1 && ChangeOf(state, t).gone == [0]
    ensures Settled(state, t) == [state.alerts[0]]
  {
    OneLeaves(state.alerts[0]);
    assert state.alerts == [state.alerts[0]];
  }

  lemma CoveredIsEntered(state: PendingState, t: Trial)
    requires |state.alerts| == 1 && ChangeOf(state, t).gone == [0]
    requires CutOff(t.current, Prepared(state, t).0.deferred, state.alerts[0].text)
    ensures Entered(state, t).cutOff == multiset{state.alerts[0].text} && Entered(state, t).delivered == multiset{}
  {
    CoveredIsSettled(state, t);
    CutTextsOfOne(state.alerts[0], t.current, Prepared(state, t).0.deferred);
    WhichOfOne(state.alerts[0], CutBy(state, t));
  }

  lemma CoveredRun(state: PendingState, t: Trial, text: string)
    requires TextList(state.alerts) == [text] && state.dropped == 0 && !QuietHours(t.now)
    requires t.sends && t.saves && CutOff(t.current, false, text)
    ensures Prepared(state, t).0.text == Some(Clip(t.current.value, MAX_MESSAGE)) && After(state, t) == NONE_KEPT
    ensures Entered(state, t).cutOff == multiset{text} && Entered(state, t).delivered == multiset{}
  {
    assert |state.alerts| == 1 && state.alerts[0].text == TextList(state.alerts)[0];
    CoveredComposition(state, t);
    CoveredChange(state, t);
    CoveredEmpties(state, t);
    CoveredIsEntered(state, t);
  }

  /** The two alerts and the check of the short one, by what matters of them. */
  lemma TheAlerts() returns (short: string, long: string, name: string)
    ensures name == QUIET && |short| == 52 && Contains(short, name)
    ensures CutOff(Some(long), false, short) == true && !Contains(Clip(long, MAX_MESSAGE), name)
  {
    short, long, name := SHORT, LONG, QUIET;
    OneLength(QUIET, Figure(0));
    ShortIsCutOff();
    NeverNamed();
    ShortNames();
    LinesOf(SHORT, 1);
    ContainsDeeper(SHORT, Line(QUIET, Figure(0)), QUIET);
  }

  lemma AfterFirst(t: Trial, text: string)
    requires t.current == Some(text) && |t.checks| == 1 && !t.sends && t.saves && |text| <= KEPT
    ensures TextList(After(NONE_KEPT, t).alerts) == [text] && After(NONE_KEPT, t).dropped == 0
  {
    FailureJoins(NONE_KEPT, t, t.checks[0]);
    FailureChange(NONE_KEPT, t);
    AfterShape(NONE_KEPT, t);
    RunBalances(NONE_KEPT, t);
    assert TextList([]) == [];
    assert |TextList(After(NONE_KEPT, t).alerts)| == 1;
  }

  lemma Morning()
    ensures !QuietHours(0) && !QuietHours(300)
  {
  }

  /** At 07:00 and five minutes later; every write succeeds. */
  lemma TheRuns(short: string, long: string, name: string) returns (t1: Trial, t2: Trial)
    ensures t1.current == Some(short) && t1.checks == [name] && t1.now == 0 && !t1.sends && t1.saves
    ensures t2.current == Some(long) && t2.checks == [LOUD, name] && t2.now == 300 && t2.sends && t2.saves
    ensures !QuietHours(t2.now)
  {
    t1, t2 := Trial(Some(short), [name], 0, true, false, true), Trial(Some(long), [LOUD, name], 300, true, true, true);
    Morning();
  }

  /** The first run keeps its alert, and the second takes it off the list. */
  predicate CutsOff(empty: PendingState, t1: Trial, t2: Trial, short: string, name: string) {
    var state := After(empty, t1);
    var message := Prepared(state, t2).0.text;
    && TextList(state.alerts) == [short] && After(state, t2) == empty
    && message.Some? && !Contains(message.value, name)
    && Entered(state, t2).cutOff == multiset{short} && Entered(state, t2).delivered == multiset{}
  }

  lemma TwoRuns(t1: Trial, t2: Trial, short: string, long: string, name: string)
    requires t1.current == Some(short) && |t1.checks| == 1 && !t1.sends && t1.saves && |short| <= KEPT
    requires t2.current == Some(long) && t2.sends && t2.saves && !QuietHours(t2.now)
    requires CutOff(Some(long), false, short) == true && !Contains(Clip(long, MAX_MESSAGE), name)
    ensures CutsOff(NONE_KEPT, t1, t2, short, name) == true
  {
    AfterFirst(t1, short);
    CoveredRun(After(NONE_KEPT, t1), t2, short);
  }

  /** From the empty file: at 07:00 an alert of 52 characters is not delivered and kept. Five minutes later it is
      raised again, behind a long one, and delivered: the message does not even name its check, and takes it off
      the list, neither queued nor counted as dropped. */
  lemma CoveredCanBeCutOff() returns (short: string, name: string, t1: Trial, t2: Trial)
    ensures name == QUIET && |short| == 52 && Contains(short, name)
    ensures t1.current == Some(short) && !t1.sends && t1.saves && t2.sends && t2.saves
    ensures CutsOff(NONE_KEPT, t1, t2, short, name) == true
  {
    var long;
    short, long, name := TheAlerts();
    t1, t2 := TheRuns(short, long, name);
    TwoRuns(t1, t2, short, long, name);
  }
}
