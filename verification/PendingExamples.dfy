/** Alerts of one or two checks, as `scripts/check_shop_operations.py` writes them, and runs that raise one. */
module PendingExamples {
  import opened Basics
  import opened AlertText
  import opened PendingAlerts
  import opened PendingMessages
  import opened PendingCover
  import opened PendingRuns

  // ----- an alert of one or two checks -----

  /** One failure, as `alert_text` writes it. */
  function Line(name: string, detail: string): string { "• " + name + ": " + detail }

  function One(name: string, detail: string): string { ALERT_HEADING + "\n" + Line(name, detail) }

  /** An any-hour failure and a quiet-hours one. */
  function Mixed(loud: string, a: string, quiet: string, b: string): string {
    ALERT_HEADING + "\n" + (Line(loud, a) + "\n" + Line(quiet, b))
  }

  predicate PlainName(name: string) {
    && name != "" && !Space(name[0]) && !Space(name[|name| - 1]) && Plain(name)
    && forall i :: 0 <= i < |name| ==> name[i] != ':'
  }

  lemma {:induction false} ColonAt(name: string, rest: string)
    requires forall i :: 0 <= i < |name| ==> name[i] != ':'
    ensures Colon(name + ":" + rest) == |name|
  {
    if name == "" {
      assert "" + ":" + rest == ":" + rest;
    } else {
      assert (name + ":" + rest)[1..] == name[1..] + ":" + rest;
      ColonAt(name[1..], rest);
    }
  }

  lemma LineNames(name: string, detail: string)
    requires PlainName(name) && Plain(detail)
    ensures BulletCheck(Line(name, detail)) == Some(name) && Plain(Line(name, detail))
  {
    var line, rest := Line(name, detail), name + ":" + (" " + detail);
    ColonAt(name, " " + detail);
    assert line[2..] == rest && rest[..|name|] == name;
    StripsToItself(name);
  }

  lemma StripsToItself(s: string)
    requires s != "" && !Space(s[0]) && !Space(s[|s| - 1])
    ensures Strip(s) == s
  {
  }

  lemma HeadingIsPlain()
    ensures Plain(ALERT_HEADING) && Strip(ALERT_HEADING) == ALERT_HEADING && ALERT_HEADING != ""
  {
    HeadingLengths();
    assert ALERT_HEADING[0] == 'B' && ALERT_HEADING[28] == ':';
    StripsToItself(ALERT_HEADING);
    HeadingHasNoBreak();
  }

  lemma HeadingHasNoBreak()
    ensures Plain(ALERT_HEADING)
  {
  }

  lemma LastLine(line: string)
    requires line != "" && Plain(line)
    ensures SplitLines(line) == [line]
  {
    LineAlone(line, "");
    assert line + "" == line;
  }

  lemma MixedLines(loud: string, a: string, quiet: string, b: string)
    requires PlainName(loud) && PlainName(quiet) && Plain(a) && Plain(b)
    ensures var lines := SplitLines(Mixed(loud, a, quiet, b));
      lines == [ALERT_HEADING, Line(loud, a), Line(quiet, b)] && HasHeading(lines)
      && WithoutHeading(lines) == [Line(loud, a), Line(quiet, b)]
  {
    var first, second := Line(loud, a), Line(quiet, b);
    LineNames(loud, a);
    LineNames(quiet, b);
    ThreeLines(first, second);
    HeadedLines([ALERT_HEADING, first, second]);
    assert [ALERT_HEADING, first, second][1..] == [first, second];
  }

  lemma ThreeLines(a: string, b: string)
    requires a != "" && b != "" && Plain(a) && Plain(b)
    ensures SplitLines(ALERT_HEADING + "\n" + (a + "\n" + b)) == [ALERT_HEADING, a, b]
  {
    HeadingIsPlain();
    LastLine(b);
    LineThenRest(a, b);
    LineThenRest(ALERT_HEADING, a + "\n" + b);
  }

  lemma HeadedLines(lines: seq<string>)
    requires lines != [] && lines[0] == ALERT_HEADING
    ensures HasHeading(lines) && WithoutHeading(lines) == lines[1..]
  {
    HeadingIsPlain();
  }

  lemma TwoLineGroups(a: string, b: string, loud: string, quiet: string)
    requires BulletCheck(a) == Some(loud) && BulletCheck(b) == Some(quiet) && !Quiet(loud) && Quiet(quiet)
    ensures Group([a, b], false) == [a] && Group([a, b], true) == [b] && Attributed([a, b])
  {
    assert [a, b][..1] == [a] && [a][..0] == [];
    assert Group([a], false) == [a] && Group([a], true) == [];
  }

  lemma TwoChosen(loud: string, quiet: string)
    requires !Quiet(loud) && Quiet(quiet)
    ensures Chosen([loud, quiet], false) == [loud] && Chosen([loud, quiet], true) == [quiet]
  {
    assert [loud, quiet][..1] == [loud] && [loud][..0] == [];
    assert Chosen([loud], false) == [loud] && Chosen([loud], true) == [];
  }

  lemma HeadedPart(text: string, checks: seq<string>, quiet: bool, line: string)
    requires var lines := SplitLines(text);
      HasHeading(lines) && lines[0] == ALERT_HEADING && Group(WithoutHeading(lines), quiet) == [line]
    ensures PartOf(text, checks, quiet) == Part(ALERT_HEADING + "\n" + line, Chosen(checks, quiet))
  {
    JoinTwo("\n", ALERT_HEADING, line);
    assert [ALERT_HEADING] + [line] == [ALERT_HEADING, line];
  }

  /** The two parts of a mixed alert are the alerts of its two checks. */
  lemma MixedParts(loud: string, a: string, quiet: string, b: string)
    requires PlainName(loud) && PlainName(quiet) && Plain(a) && Plain(b) && !Quiet(loud) && Quiet(quiet)
    ensures PartsFor(Mixed(loud, a, quiet, b), [loud, quiet])
            == [Part(One(loud, a), [loud]), Part(One(quiet, b), [quiet])]
  {
    var first, second := Line(loud, a), Line(quiet, b);
    LineNames(loud, a);
    LineNames(quiet, b);
    MixedLines(loud, a, quiet, b);
    TwoLineGroups(first, second, loud, quiet);
    TwoChosen(loud, quiet);
    HeadedPart(Mixed(loud, a, quiet, b), [loud, quiet], false, first);
    HeadedPart(Mixed(loud, a, quiet, b), [loud, quiet], true, second);
  }

  /** Its own lines name the same two checks. */
  lemma MixedChecks(loud: string, a: string, quiet: string, b: string)
    requires PlainName(loud) && PlainName(quiet) && Plain(a) && Plain(b)
    ensures BulletChecks(SplitLines(Mixed(loud, a, quiet, b))) == [loud, quiet]
  {
    var first, second := Line(loud, a), Line(quiet, b);
    LineNames(loud, a);
    LineNames(quiet, b);
    MixedLines(loud, a, quiet, b);
    HeadingNamesNothing();
    ThreeChecks(ALERT_HEADING, first, second, loud, quiet);
  }

  lemma ThreeChecks(heading: string, first: string, second: string, loud: string, quiet: string)
    requires BulletCheck(heading) == None && BulletCheck(first) == Some(loud) && BulletCheck(second) == Some(quiet)
    ensures BulletChecks([heading, first, second]) == [loud, quiet]
  {
    assert [heading, first, second][..2] == [heading, first];
    assert [heading, first][..1] == [heading] && [heading][..0] == [];
    assert BulletChecks([heading]) == [];
    assert BulletChecks([heading, first]) == [loud];
  }

  lemma HeadingNamesNothing()
    ensures BulletCheck(ALERT_HEADING) == None
  {
    assert ALERT_HEADING[0] == 'B';
  }

  /** So the alerts of the two checks are among the texts that a mixed alert covers. */
  lemma MixedCovers(loud: string, a: string, quiet: string, b: string)
    requires PlainName(loud) && PlainName(quiet) && Plain(a) && Plain(b) && !Quiet(loud) && Quiet(quiet)
    ensures One(quiet, b) in PartsOf(Some(Mixed(loud, a, quiet, b)))
  {
    MixedParts(loud, a, quiet, b);
    MixedChecks(loud, a, quiet, b);
    var p := PartsFor(Mixed(loud, a, quiet, b), [loud, quiet])[1];
    assert p in PartsFor(Mixed(loud, a, quiet, b), [loud, quiet]) && p.text == One(quiet, b);
  }

  lemma OneChosen(name: string)
    ensures Chosen([name], true) == [] || Chosen([name], false) == []
  {
    assert [name][..0] == [];
  }

  lemma OneLength(name: string, detail: string)
    ensures |One(name, detail)| == 34 + |name| + |detail|
  {
    HeadingLengths();
  }

  const LOUD := "database_volume"
  const QUIET := "console_reachable"

  /** The failures of successive runs differ in their figures. */
  function Figure(k: nat): string { seq(k + 1, i => '9') }

  lemma Names()
    ensures PlainName(LOUD) && PlainName(QUIET) && !Quiet(LOUD) && Quiet(QUIET)
  {
    assert LOUD[0] == 'd' && QUIET[0] == 'c';
  }

  // ----- one run with one failure -----

  lemma TextIsComposed(state: PendingState, t: Trial)
    requires t.current.Some? && |t.current.value| <= MAX_MESSAGE
    ensures Prepared(state, t).0.text.Some?
  {
    CurrentGoesFirst(t.current.value, state, t.now, true);
    CurrentGoesFirst(t.current.value, state, t.now, false);
    PreparedShape(state, t);
  }

  lemma SingleJoins(state: PendingState, t: Trial, attempts: int, check: string)
    requires t.current.Some? && t.checks == [check] && |t.current.value| <= KEPT
    requires t.current.value !in Texts(state.alerts)
    ensures TextList(Joining(state, t, attempts)) == [t.current.value]
  {
    OneChosen(check);
    var parts := [Part(t.current.value, t.checks)];
    assert PartsFor(t.current.value, t.checks) == parts && parts[..0] == [];
    assert KeptOf([], t.now, attempts, Texts(state.alerts)) == [];
  }

  lemma FailureChange(state: PendingState, t: Trial)
    requires t.current.Some? && |t.current.value| <= MAX_MESSAGE && !t.sends && t.saves
    ensures var change := ChangeOf(state, t);
      change.gone == [] && (change.kept == Joining(state, t, 0) || change.kept == Joining(state, t, 1))
  {
    TextIsComposed(state, t);
  }

  lemma AppliedJoins(alerts: seq<PendingAlert>, change: Change, now: int)
    requires change.gone == [] && |alerts| + |change.kept| <= MAX_PENDING
    ensures TextList(Applied(alerts, change, now).alerts) == TextList(alerts) + TextList(change.kept)
  {
    var tried := Tried(alerts, change.tried, now);
    NoneGone(tried);
    assert TextList(tried + change.kept) == TextList(tried) + TextList(change.kept);
    assert TextList(tried) == TextList(alerts);
  }

  /** A failure that is new and not delivered joins the end of the list. */
  lemma FailureJoins(state: PendingState, t: Trial, check: string)
    requires |state.alerts| < MAX_PENDING && !t.sends && t.saves
    requires t.current.Some? && t.checks == [check] && |t.current.value| <= KEPT
    requires t.current.value !in Texts(state.alerts)
    ensures TextList(After(state, t).alerts) == TextList(state.alerts) + [t.current.value]
  {
    FailureChange(state, t);
    AfterShape(state, t);
    SingleJoins(state, t, 0, check);
    SingleJoins(state, t, 1, check);
    AppliedJoins(state.alerts, ChangeOf(state, t), t.now);
  }
}
