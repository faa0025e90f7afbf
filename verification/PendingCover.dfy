/** Kept alerts that a message does not repeat because the current alert has their words: which of their
    lines it does say (`scripts/shop_alert_pending.py`). */
module PendingCover {
  import opened Basics
  import opened AlertText
  import opened PendingAlerts
  import opened PendingMessages

  // ----- lines -----

  predicate Plain(text: string) { forall i :: 0 <= i < |text| ==> !LineBreak(text[i]) }

  /** Every line of `text` is in `message`. */
  predicate Whole(message: string, text: string) {
    forall k :: 0 <= k < |SplitLines(text)| ==> Contains(message, SplitLines(text)[k])
  }

  lemma {:induction false} BeforeFirstBreak(text: string)
    ensures Plain(text[..FirstBreak(text)])
  {
    if text != "" && !LineBreak(text[0]) {
      BeforeFirstBreak(text[1..]);
      var k := FirstBreak(text);
      assert forall i :: 1 <= i < k ==> text[..k][i] == text[1..][..k - 1][i - 1];
    }
  }

  /** Where the next line begins. */
  function NextLine(text: string): (n: nat)
    ensures FirstBreak(text) < |text| ==> FirstBreak(text) < n <= |text|
  {
    var k := FirstBreak(text);
    if k + 1 < |text| && text[k] == '\r' && text[k + 1] == '\n' then k + 2 else k + 1
  }

  predicate LineOf(text: string, line: string) { Plain(line) && Contains(text, line) }

  lemma FirstIsLine(text: string)
    ensures LineOf(text, text[..FirstBreak(text)])
  {
    BeforeFirstBreak(text);
    StartIsIn(text, FirstBreak(text));
  }

  lemma LaterIsLine(text: string, from: nat, line: string)
    requires from <= |text| && LineOf(text[from..], line)
    ensures LineOf(text, line)
  {
    ContainsRest(text, from, line);
  }

  lemma SplitOnce(text: string)
    requires FirstBreak(text) < |text|
    ensures SplitLines(text) == [text[..FirstBreak(text)]] + SplitLines(text[NextLine(text)..])
  {
  }

  /** A line of a text has no break, and is in it. */
  lemma {:induction false} AllLines(text: string)
    ensures forall l :: l in SplitLines(text) ==> LineOf(text, l)
    decreases |text|
  {
    FirstIsLine(text);
    if FirstBreak(text) == |text| {
      assert text[..|text|] == text;
    } else {
      var rest := SplitLines(text[NextLine(text)..]);
      SplitOnce(text);
      AllLines(text[NextLine(text)..]);
      forall l | l in rest ensures LineOf(text, l) { LaterIsLine(text, NextLine(text), l); }
    }
  }

  lemma LinesOf(text: string, n: nat)
    requires n < |SplitLines(text)|
    ensures LineOf(text, SplitLines(text)[n])
  {
    AllLines(text);
  }

  lemma StartIsIn(text: string, k: nat)
    requires k <= |text|
    ensures Contains(text, text[..k])
  {
    assert text[0..] == text;
  }

  lemma ContainsRest(text: string, from: nat, words: string)
    requires from <= |text| && Contains(text[from..], words)
    ensures Contains(text, words)
  {
    var i :| 0 <= i <= |text[from..]| && words <= text[from..][i..];
    assert text[from..][i..] == text[from + i..];
  }

  lemma TextIsWhole(text: string)
    ensures Whole(text, text)
  {
    forall k | 0 <= k < |SplitLines(text)| ensures Contains(text, SplitLines(text)[k]) { LinesOf(text, k); }
  }

  /** Lines that are joined are read back, except that an empty one may be lost at the end. */
  lemma {:induction false} JoinedLines(lines: seq<string>)
    requires forall k :: 0 <= k < |lines| ==> Plain(lines[k])
    ensures forall l :: l in SplitLines(Join("\n", lines)) ==> l in lines
  {
    if |lines| == 1 {
      LineAlone(lines[0], "");
      assert lines[0] + "" == lines[0];
    } else if |lines| > 1 {
      JoinedLines(lines[1..]);
      LineThenRest(lines[0], Join("\n", lines[1..]));
    }
  }

  lemma {:induction false} GroupMembers(lines: seq<string>, quiet: bool)
    ensures forall l :: l in Group(lines, quiet) ==> l in lines
  {
    if lines != [] {
      GroupMembers(lines[..|lines| - 1], quiet);
    }
  }

  lemma {:induction false} GroupWeight(lines: seq<string>, quiet: bool)
    ensures Weight(Group(lines, quiet)) <= Weight(lines)
  {
    if lines != [] {
      var sooner, last := lines[..|lines| - 1], [lines[|lines| - 1]];
      GroupWeight(sooner, quiet);
      assert lines == sooner + last;
      WeightSplit(sooner, last);
      WeightSplit(Group(sooner, quiet), last);
      assert Group(sooner, quiet) + [] == Group(sooner, quiet);
    }
  }

  // ----- parts -----

  function PartLines(text: string, quiet: bool): seq<string> {
    var lines := SplitLines(text);
    (if HasHeading(lines) then [lines[0]] else []) + Group(WithoutHeading(lines), quiet)
  }

  lemma PartLinesMembers(lines: seq<string>, quiet: bool)
    ensures forall l ::
      l in (if HasHeading(lines) then [lines[0]] else []) + Group(WithoutHeading(lines), quiet) ==> l in lines
  {
    GroupMembers(WithoutHeading(lines), quiet);
    if HasHeading(lines) {
      assert forall l :: l in lines[1..] ==> l in lines;
    }
  }

  /** The text is made of lines of the alert, and no longer than it. */
  predicate Made(current: string, text: string) {
    (forall l :: l in SplitLines(text) ==> l in SplitLines(current)) && |text| <= |current|
  }

  lemma PartLinesAreLines(text: string, quiet: bool)
    ensures forall l :: l in SplitLines(Join("\n", PartLines(text, quiet))) ==> l in SplitLines(text)
  {
    var lines, some := SplitLines(text), PartLines(text, quiet);
    PartLinesMembers(lines, quiet);
    forall k | 0 <= k < |some| ensures Plain(some[k]) {
      assert some[k] in lines;
      var n :| 0 <= n < |lines| && lines[n] == some[k];
      LinesOf(text, n);
    }
    JoinedLines(some);
  }

  lemma PartIsNoLonger(text: string, quiet: bool)
    ensures |Join("\n", PartLines(text, quiet))| <= |text|
  {
    var lines, some := SplitLines(text), PartLines(text, quiet);
    PartWeight(lines, quiet);
    LinesFit(text);
    if some != [] { JoinWeight(some); }
    if lines != [] { JoinWeight(lines); }
  }

  lemma PartOfLines(text: string, checks: seq<string>, quiet: bool)
    ensures Made(text, PartOf(text, checks, quiet).text)
  {
    PartLinesAreLines(text, quiet);
    PartIsNoLonger(text, quiet);
    assert PartOf(text, checks, quiet).text == Join("\n", PartLines(text, quiet));
  }

  lemma PartWeight(lines: seq<string>, quiet: bool)
    ensures Weight((if HasHeading(lines) then [lines[0]] else []) + Group(WithoutHeading(lines), quiet))
            <= Weight(lines)
  {
    GroupWeight(WithoutHeading(lines), quiet);
    if HasHeading(lines) {
      WeightSplit([lines[0]], Group(lines[1..], quiet));
      assert [lines[0]][1..] == [];
    } else {
      assert [] + Group(lines, quiet) == Group(lines, quiet);
    }
  }

  lemma PartsAreMade(current: string, checks: seq<string>, k: nat)
    requires k < |PartsFor(current, checks)|
    ensures Made(current, PartsFor(current, checks)[k].text)
  {
    if Splits(current, checks) {
      PartOfLines(current, checks, false);
      PartOfLines(current, checks, true);
    }
  }

  lemma PartTextLines(current: string, text: string)
    requires text in PartTexts(current)
    ensures Made(current, text)
  {
    if text != current {
      var parts := PartsFor(current, BulletChecks(SplitLines(current)));
      var k :| 0 <= k < |parts| && parts[k].text == text;
      PartsAreMade(current, BulletChecks(SplitLines(current)), k);
    }
  }

  /** A current alert within the limit says every line of the kept alerts it covers. */
  lemma CoveredWhole(current: string, text: string)
    requires |current| <= KEPT && text in PartsOf(Some(current))
    ensures Whole(current, text)
  {
    forall t | t in PartTexts(current) ensures Clip(t, KEPT) == t { PartTextLines(current, t); }
    PartTextLines(current, text);
    forall k | 0 <= k < |SplitLines(text)| ensures Contains(current, SplitLines(text)[k]) {
      assert SplitLines(text)[k] in SplitLines(text);
      var n :| 0 <= n < |SplitLines(current)| && SplitLines(current)[n] == SplitLines(text)[k];
      LinesOf(current, n);
    }
  }

  // ----- a current alert longer than the limit -----

  predicate EndsWith(text: string, words: string) {
    |words| <= |text| && text[|text| - |words|..] == words
  }

  /** The line is in what the clip leaves of the alert, or was cut by the same clip. */
  predicate Survives(current: string, line: string) {
    |current| >= MAX_MESSAGE &&
    var left := current[..MAX_MESSAGE - 1];
    Contains(left, line) || AtMark(left, line)
  }

  predicate AtMark(left: string, line: string) {
    line != "" && line[|line| - 1] == '…' && EndsWith(left, line[..|line| - 1])
  }

  lemma ContainsBeforeMark(left: string, line: string)
    ensures Contains(left + "…", line) <==> Contains(left, line) || AtMark(left, line)
  {
    var text := left + "…";
    if Contains(text, line) {
      var i :| 0 <= i <= |text| && line <= text[i..];
      InsideOrAtMark(left, line, i);
    } else if Contains(left, line) {
      ContainsMore(left, line);
    } else if AtMark(left, line) {
      MarkContains(left, line);
    }
  }

  lemma ContainsMore(left: string, line: string)
    requires Contains(left, line)
    ensures Contains(left + "…", line)
  {
    var i :| 0 <= i <= |left| && line <= left[i..];
    assert (left + "…")[i..] == left[i..] + "…";
  }

  lemma MarkContains(left: string, line: string)
    requires AtMark(left, line)
    ensures Contains(left + "…", line)
  {
    var i := |left| - (|line| - 1);
    assert (left + "…")[i..] == left[i..] + "…" == line;
  }

  lemma InsideOrAtMark(left: string, line: string, i: nat)
    requires i <= |left| + 1 && line <= (left + "…")[i..]
    ensures Contains(left, line) || AtMark(left, line)
  {
    var text := left + "…";
    if line == "" {
      assert "" <= left[0..];
    } else if i + |line| <= |left| {
      assert line == text[i..][..|line|] == left[i..][..|line|];
    } else {
      assert line == text[i..];
      assert line[..|line| - 1] == left[i..];
    }
  }

  /** The condition under which a message that starts with the current alert says all of a kept one it covers. */
  predicate Covered(current: string, text: string) {
    |current| <= MAX_MESSAGE || forall k :: 0 <= k < |SplitLines(text)| ==> Survives(current, SplitLines(text)[k])
  }

  /** It is exact, for every current alert and every kept one that it covers. */
  lemma CoveredExactly(current: string, text: string)
    requires text in PartsOf(Some(current))
    ensures Whole(Clip(current, MAX_MESSAGE), text) <==> Covered(current, text)
  {
    if |current| <= MAX_MESSAGE {
      CoveredWhole(current, text);
    } else {
      forall k | 0 <= k < |SplitLines(text)|
        ensures Contains(Clip(current, MAX_MESSAGE), SplitLines(text)[k]) <==> Survives(current, SplitLines(text)[k])
      {
        ContainsBeforeMark(current[..MAX_MESSAGE - 1], SplitLines(text)[k]);
      }
    }
  }

  /** It holds of the kept copy of the current alert itself. */
  lemma OwnCopyIsCovered(current: string)
    ensures Covered(current, Clip(current, KEPT))
  {
    TextIsWhole(Clip(current, KEPT));
    CoveredExactly(current, Clip(current, KEPT));
  }

  lemma WholeInLonger(message: string, start: string, text: string)
    requires start <= message && Whole(start, text)
    ensures Whole(message, text)
  {
    forall k | 0 <= k < |SplitLines(text)| ensures Contains(message, SplitLines(text)[k]) {
      assert message[0..] == message;
      assert Contains(message, start);
      ContainsDeeper(message, start, SplitLines(text)[k]);
    }
  }

  // ----- what a message says of the alerts it settles -----

  /** The kept alert is settled by the current one, which is clipped too early to say all of it. */
  predicate CutOff(current: Option<string>, deferred: bool, text: string) {
    !deferred && current.Some? && text in PartsOf(current) && !Covered(current.value, text)
  }

  /** The message has the alert's body, or each of its lines. */
  predicate Said(message: string, text: string) {
    Contains(message, Body(text)) || Whole(message, text)
  }

  lemma CoveredIsSaid(current: string, message: string, text: string)
    requires text in PartsOf(Some(current)) && Clip(current, MAX_MESSAGE) <= message && Covered(current, text)
    ensures Said(message, text)
  {
    CoveredExactly(current, text);
    WholeInLonger(message, Clip(current, MAX_MESSAGE), text);
  }

  lemma CoveringGoesFirst(current: Option<string>, state: PendingState, now: int, defer: bool)
    requires current.Some?
    ensures var c := ComposeOf(current, state, MAX_MESSAGE, CEILING, now, defer);
      !c.deferred ==> c.text.Some? && Clip(current.value, MAX_MESSAGE) <= c.text.value
  {
    FirstGoesFirst(First(current, MAX_MESSAGE), PartsOf(current), EntriesOf(state.alerts), state, now, defer);
  }

  /** What a message does for a kept alert that it settles. */
  predicate Settles(c: Composition, current: Option<string>, alert: PendingAlert) {
    && c.text.Some?
    && (CutOff(current, c.deferred, alert.text) ==> Clip(current.value, MAX_MESSAGE) <= c.text.value)
    && (Storable(alert) && !CutOff(current, c.deferred, alert.text) ==> Said(c.text.value, alert.text))
  }

  lemma CoveredSettles(c: Composition, current: Option<string>, alert: PendingAlert)
    requires !c.deferred && current.Some? && alert.text in PartsOf(current)
    requires c.text.Some? && Clip(current.value, MAX_MESSAGE) <= c.text.value
    ensures Settles(c, current, alert)
  {
    if Covered(current.value, alert.text) {
      CoveredIsSaid(current.value, c.text.value, alert.text);
    }
  }

  lemma NothingCovers(current: Option<string>, text: string)
    requires text in PartsOf(current)
    ensures current.Some?
  {
  }

  /** Each carried alert may go at this hour, and its words are in the message, unless it is settled by a
      current alert that the message clips before all of its lines. */
  lemma CarriedIsDelivered(current: Option<string>, state: PendingState, now: int, defer: bool, i: nat)
    requires i in ComposeOf(current, state, MAX_MESSAGE, CEILING, now, defer).carried
    ensures i < |state.alerts| && !Waits(state.alerts[i], now)
    ensures Settles(ComposeOf(current, state, MAX_MESSAGE, CEILING, now, defer), current, state.alerts[i])
  {
    var c := ComposeOf(current, state, MAX_MESSAGE, CEILING, now, defer);
    CarriedWith(First(current, MAX_MESSAGE), PartsOf(current), EntriesOf(state.alerts), state, now, defer, i);
    var text := state.alerts[i].text;
    if !c.deferred && text in PartsOf(current) {
      NothingCovers(current, text);
      CoveringGoesFirst(current, state, now, defer);
      CoveredSettles(c, current, state.alerts[i]);
    } else {
      EntryIsCarried(state.alerts, c.text, i);
    }
  }
}
