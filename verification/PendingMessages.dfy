/** What one message of `scripts/shop_alert_pending.py` carries, for all inputs at the default limits. */
module PendingMessages {
  import opened Basics
  import opened AlertText
  import opened PendingAlerts

  // ----- lengths -----

  function Weight(section: seq<string>): nat {
    if section == [] then 0 else 1 + |section[0]| + Weight(section[1..])
  }

  lemma {:induction false} WeightSplit(a: seq<string>, b: seq<string>)
    ensures Weight(a + b) == Weight(a) + Weight(b)
  {
    if a == [] {
      assert a + b == b;
    } else {
      assert (a + b)[1..] == a[1..] + b;
      WeightSplit(a[1..], b);
    }
  }

  lemma {:induction false} JoinWeight(lines: seq<string>)
    requires lines != []
    ensures |Join("\n", lines)| == Weight(lines) - 1
  {
    if |lines| > 1 {
      JoinWeight(lines[1..]);
    } else {
      assert lines[1..] == [];
    }
  }

  lemma JoinTwo(separator: string, a: string, b: string)
    ensures Join(separator, [a, b]) == a + separator + b
  {
    assert [a, b][1..] == [b];
  }

  function Base(parts: seq<string>): nat {
    if parts == [] then 29 + 1 + 32 else |parts[0]| + 2 + 32
  }

  lemma HeadingLengths()
    ensures |ALERT_HEADING| == 29 && |REDELIVERY_HEADING| == 32 && |NEWER_FOLLOWS| == 61
    ensures |KEPT_CLIPPED| == 71 && |KEPT_LEFT_OUT| == 59
  {
  }

  lemma HeadingsLength(parts: seq<string>)
    ensures |Headings(parts)| == if parts == [] then 62 else 32
  {
    HeadingLengths();
  }

  /** A message is its headings and one more line for each line of its section. */
  lemma MessageLength(parts: seq<string>, section: seq<string>)
    requires |parts| <= 1
    ensures |Message(parts, section)| == Base(parts) + Weight(section)
  {
    var lines := [Headings(parts)] + section;
    HeadingsLength(parts);
    JoinWeight(lines);
    assert lines[1..] == section;
    if parts == [] {
      assert parts + [Join("\n", lines)] == [Join("\n", lines)];
    } else {
      assert parts + [Join("\n", lines)] == [parts[0], Join("\n", lines)];
      JoinTwo("\n\n", parts[0], Join("\n", lines));
    }
  }

  /** A plan as `PlanFor` makes it: at most one part, and none when the current alert waits. */
  predicate Proper(plan: Plan) {
    |plan.parts| <= 1 && (plan.deferred ==> plan.parts == []) && |plan.lines| == |plan.others|
  }

  lemma {:induction false} PackedFits(parts: seq<string>, lines: seq<string>, k: nat, tail: seq<string>, limit: nat,
                                      bound: nat)
    requires k <= |lines| && limit <= bound && |Message(parts, lines[..k] + tail)| <= bound
    ensures |Message(parts, lines[..Packed(parts, lines, k, tail, limit)] + tail)| <= bound
    decreases |lines| - k
  {
    if k < |lines| && |Message(parts, lines[..k + 1] + tail)| <= limit {
      PackedFits(parts, lines, k + 1, tail, limit, bound);
    }
  }

  lemma TailWeight(deferred: bool)
    ensures Weight(Tail(deferred)) == if deferred then 62 else 0
  {
    HeadingLengths();
    assert [NEWER_FOLLOWS][1..] == [];
  }

  lemma OneLine(parts: seq<string>, line: string, deferred: bool)
    requires |parts| <= 1
    ensures |Message(parts, [line] + Tail(deferred))| == Base(parts) + 1 + |line| + (if deferred then 62 else 0)
    ensures |Message(parts, Tail(deferred))| == Base(parts) + (if deferred then 62 else 0)
    ensures |Message(parts, [line])| == Base(parts) + 1 + |line|
  {
    TailWeight(deferred);
    MessageLength(parts, [line] + Tail(deferred));
    MessageLength(parts, Tail(deferred));
    MessageLength(parts, [line]);
    assert ([line] + Tail(deferred))[1..] == Tail(deferred) && [line][1..] == [];
  }

  /** The oldest entry goes whole when it is no longer than this, whatever is around it. */
  const LONGEST_ENTRY: nat := CEILING - 62 - 1 - 62

  lemma OldestFits(plan: Plan, limit: nat)
    requires Proper(plan) && plan.lines != [] && limit <= CEILING && !Squeezes(plan, limit, CEILING)
    ensures |Message(plan.parts, [Fitted(plan, limit, CEILING)[0]] + Tail(plan.deferred))| <= CEILING
    ensures |plan.lines[0]| <= LONGEST_ENTRY ==> Fitted(plan, limit, CEILING) == plan.lines
  {
    OneLine(plan.parts, plan.lines[0], plan.deferred);
    OneLine(plan.parts, Fitted(plan, limit, CEILING)[0], plan.deferred);
    assert !plan.deferred ==> [plan.lines[0]] + Tail(plan.deferred) == [plan.lines[0]];
  }

  lemma TwoLines(parts: seq<string>, a: string, b: string)
    requires |parts| <= 1
    ensures |Message(parts, [a, b])| == Base(parts) + 2 + |a| + |b|
  {
    MessageLength(parts, [a, b]);
    assert [a, b][1..] == [b] && [b][1..] == [];
    assert Weight([b]) == 1 + |b| + Weight([]);
  }

  lemma SqueezedFits(parts: seq<string>, oldest: string)
    requires |parts| == 1 && |parts[0]| <= MAX_MESSAGE
    ensures |Squeezed(parts, oldest, CEILING)| <= CEILING
  {
    var room := CEILING - |Message(parts, [KEPT_CLIPPED])| - 1;
    HeadingLengths();
    OneLine(parts, KEPT_LEFT_OUT, false);
    OneLine(parts, KEPT_CLIPPED, false);
    TwoLines(parts, Clip(oldest, room), KEPT_CLIPPED);
  }

  lemma ComposedFits(plan: Plan, n: nat, dropped: int, waiting: nat)
    requires Proper(plan) && (plan.parts != [] ==> |plan.parts[0]| <= MAX_MESSAGE)
    ensures var c := Composed(plan, n, dropped, waiting, MAX_MESSAGE, CEILING);
      c.text.Some? ==> |c.text.value| <= CEILING
  {
    if plan.lines == [] {
      assert [] + [DroppedNote(dropped)] + Tail(plan.deferred) == [DroppedNote(dropped)] + Tail(plan.deferred);
    } else if Squeezes(plan, MAX_MESSAGE, CEILING) {
      SqueezedFits(plan.parts, plan.lines[0]);
    } else {
      var lines, tail := Fitted(plan, MAX_MESSAGE, CEILING), Tail(plan.deferred);
      OldestFits(plan, MAX_MESSAGE);
      assert lines[..1] == [lines[0]];
      PackedFits(plan.parts, lines, 1, tail, MAX_MESSAGE, CEILING);
      var entries := Entries(plan, MAX_MESSAGE, CEILING);
      assert entries + [] == entries;
    }
  }

  lemma PlanIsProper(first: seq<string>, words: set<string>, alerts: seq<PendingAlert>, entries: seq<string>,
                     limit: nat, now: int, defer: bool)
    requires |first| <= 1 && |entries| == |alerts|
    ensures var plan := PlanFor(first, words, alerts, entries, limit, now, defer);
      Proper(plan) && (plan.parts == first || plan.parts == [])
  {
  }

  lemma BoundWith(first: seq<string>, words: set<string>, entries: seq<string>, state: PendingState, now: int,
                  defer: bool)
    requires |first| <= 1 && (first != [] ==> |first[0]| <= MAX_MESSAGE) && |entries| == |state.alerts|
    ensures var c := ComposeWith(first, words, entries, state, MAX_MESSAGE, CEILING, now, defer);
      c.text.Some? ==> |c.text.value| <= CEILING
  {
    PlanIsProper(first, words, state.alerts, entries, MAX_MESSAGE, now, defer);
    ComposedFits(PlanFor(first, words, state.alerts, entries, MAX_MESSAGE, now, defer), |state.alerts|, state.dropped,
                 WaitingIn(state.alerts, now));
  }

  /** Whatever is kept, and however long the current alert: no message is longer than the ceiling. */
  lemma LengthBound(current: Option<string>, state: PendingState, now: int, defer: bool)
    ensures var c := ComposeOf(current, state, MAX_MESSAGE, CEILING, now, defer);
      c.text.Some? ==> |c.text.value| <= CEILING
  {
    BoundWith(First(current, MAX_MESSAGE), PartsOf(current), EntriesOf(state.alerts), state, now, defer);
  }

  // ----- words -----

  lemma ContainsBetween(before: string, words: string, after: string)
    ensures Contains(before + words + after, words)
  {
    assert (before + words + after)[|before|..] == words + after;
  }

  lemma DropFromPrefix(a: string, b: string, j: nat)
    requires a <= b && j <= |a|
    ensures a[j..] <= b[j..]
  {
    assert b[j..][..|a| - j] == a[j..];
  }

  lemma PrefixOfPrefix(a: string, b: string, c: string)
    requires a <= b && b <= c
    ensures a <= c
  {
  }

  lemma ContainsDeeper(text: string, words: string, inner: string)
    requires Contains(text, words) && Contains(words, inner)
    ensures Contains(text, inner)
  {
    var i :| 0 <= i <= |text| && words <= text[i..];
    var j :| 0 <= j <= |words| && inner <= words[j..];
    DropFromPrefix(words, text[i..], j);
    PrefixOfPrefix(inner, words[j..], text[i..][j..]);
    assert text[i + j..] == text[i..][j..];
  }

  lemma {:induction false} JoinContains(separator: string, lines: seq<string>, k: nat)
    requires k < |lines|
    ensures Contains(Join(separator, lines), lines[k])
  {
    var joined := Join(separator, lines);
    if |lines| == 1 {
      assert joined[0..] == lines[0];
    } else if k == 0 {
      assert joined[0..] == joined && lines[0] <= joined;
    } else {
      JoinContains(separator, lines[1..], k - 1);
      ContainsBetween(lines[0] + separator, Join(separator, lines[1..]), "");
      assert joined == lines[0] + separator + Join(separator, lines[1..]) + "";
      ContainsDeeper(joined, Join(separator, lines[1..]), lines[k]);
    }
  }

  lemma MessageContains(parts: seq<string>, section: seq<string>, k: nat)
    requires k < |section|
    ensures Contains(Message(parts, section), section[k])
  {
    var lines := [Headings(parts)] + section;
    JoinContains("\n", lines, k + 1);
    JoinContains("\n\n", parts + [Join("\n", lines)], |parts|);
    assert lines[k + 1] == section[k] && (parts + [Join("\n", lines)])[|parts|] == Join("\n", lines);
    ContainsDeeper(Message(parts, section), Join("\n", lines), section[k]);
  }

  lemma MessageStarts(parts: seq<string>, section: seq<string>)
    requires |parts| == 1
    ensures parts[0] <= Message(parts, section)
  {
    var rest := Join("\n", [Headings(parts)] + section);
    assert parts + [rest] == [parts[0], rest];
    JoinTwo("\n\n", parts[0], rest);
  }

  lemma ComposedStarts(plan: Plan, n: nat, dropped: int, waiting: nat, limit: nat, ceiling: nat)
    requires Proper(plan) && plan.parts != []
    ensures var c := Composed(plan, n, dropped, waiting, limit, ceiling); c.text.Some? && plan.parts[0] <= c.text.value
  {
    var entries := if plan.lines == [] then [] else Entries(plan, limit, ceiling);
    MessageStarts(plan.parts, Section(plan, entries, dropped, waiting, limit));
    MessageStarts(plan.parts, [DroppedNote(dropped)] + Tail(plan.deferred));
    MessageStarts(plan.parts, [KEPT_LEFT_OUT]);
    if plan.lines != [] {
      var room := ceiling - |Message(plan.parts, [KEPT_CLIPPED])| - 1;
      MessageStarts(plan.parts, [Clip(plan.lines[0], room), KEPT_CLIPPED]);
    }
  }

  lemma FirstGoesFirst(first: seq<string>, words: set<string>, entries: seq<string>, state: PendingState, now: int,
                       defer: bool)
    requires |first| == 1 && |entries| == |state.alerts|
    ensures var c := ComposeWith(first, words, entries, state, MAX_MESSAGE, CEILING, now, defer);
      (!c.deferred ==> c.text.Some? && first[0] <= c.text.value) && (!defer ==> !c.deferred)
  {
    var plan := PlanFor(first, words, state.alerts, entries, MAX_MESSAGE, now, defer);
    PlanIsProper(first, words, state.alerts, entries, MAX_MESSAGE, now, defer);
    PlanInOrder(first, words, state.alerts, entries, MAX_MESSAGE, now, defer);
    if !plan.deferred {
      ComposedStarts(plan, |state.alerts|, state.dropped,
                     WaitingIn(state.alerts, now), MAX_MESSAGE, CEILING);
    }
  }

  /** A current alert no longer than the limit, unless it is deferred, goes first and whole. */
  lemma CurrentGoesFirst(current: string, state: PendingState, now: int, defer: bool)
    requires |current| <= MAX_MESSAGE
    ensures var c := ComposeOf(Some(current), state, MAX_MESSAGE, CEILING, now, defer);
      (!c.deferred ==> c.text.Some? && current <= c.text.value) && (!defer ==> !c.deferred)
  {
    FirstGoesFirst([current], PartsOf(Some(current)), EntriesOf(state.alerts), state, now, defer);
  }

  // ----- what is carried -----

  /** The `k`th entry is in the message, whole if it can be. */
  predicate Carries(text: Option<string>, line: string) {
    text.Some? && (|line| <= LONGEST_ENTRY ==> Contains(text.value, line))
  }

  predicate CarriesOne(plan: Plan, text: Option<string>, i: nat) {
    |plan.lines| == |plan.others| && exists k ::
        0 <= k < |plan.others| && plan.others[k] == i && Carries(text, plan.lines[k])
  }

  lemma PackedCarries(plan: Plan, dropped: int, waiting: nat, k: nat)
    requires Proper(plan) && plan.lines != [] && !Squeezes(plan, MAX_MESSAGE, CEILING)
    requires k < |Entries(plan, MAX_MESSAGE, CEILING)|
    ensures Carries(Some(Message(plan.parts, Section(plan, Entries(plan, MAX_MESSAGE, CEILING), dropped, waiting,
                                                     MAX_MESSAGE))), plan.lines[k])
  {
    var entries := Entries(plan, MAX_MESSAGE, CEILING);
    var section := Section(plan, entries, dropped, waiting, MAX_MESSAGE);
    MessageContains(plan.parts, section, k);
    OldestFits(plan, MAX_MESSAGE);
    assert section[k] == entries[k] == Fitted(plan, MAX_MESSAGE, CEILING)[k];
  }

  /** What is carried: the kept copies of the current alert, and a prefix of the others with their entries. */
  lemma ComposedCarries(plan: Plan, n: nat, dropped: int, waiting: nat, i: nat)
    requires Proper(plan) && i in Composed(plan, n, dropped, waiting, MAX_MESSAGE, CEILING).carried
    ensures i in plan.base || CarriesOne(plan, Composed(plan, n, dropped, waiting, MAX_MESSAGE, CEILING).text, i)
  {
    if i !in plan.base {
      var entries := Entries(plan, MAX_MESSAGE, CEILING);
      assert Among(plan.base + plan.others[..|entries|])(i);
      var k :| 0 <= k < |entries| && plan.others[k] == i;
      PackedCarries(plan, dropped, waiting, k);
    }
  }

  /** What a plan carries may go, and its lines are the entries of the alerts. */
  predicate PlanFits(plan: Plan, words: set<string>, alerts: seq<PendingAlert>, entries: seq<string>, now: int) {
    && |entries| == |alerts| && |plan.lines| == |plan.others|
    && (forall i :: i in plan.base ==>
          !plan.deferred && i < |alerts| && !Waits(alerts[i], now) && alerts[i].text in words)
    && (forall k :: 0 <= k < |plan.others| ==>
          && plan.others[k] < |alerts| && !Waits(alerts[plan.others[k]], now)
          && plan.lines[k] == entries[plan.others[k]])
  }

  lemma PlanHolds(first: seq<string>, words: set<string>, alerts: seq<PendingAlert>, entries: seq<string>, now: int,
                  defer: bool)
    requires |first| <= 1 && |entries| == |alerts|
    ensures PlanFits(PlanFor(first, words, alerts, entries, MAX_MESSAGE, now, defer), words, alerts, entries, now)
  {
  }

  lemma ComposedSettles(plan: Plan, words: set<string>, alerts: seq<PendingAlert>, entries: seq<string>, now: int,
                        dropped: int, waiting: nat, i: nat)
    requires Proper(plan) && PlanFits(plan, words, alerts, entries, now)
    requires i in Composed(plan, |alerts|, dropped, waiting, MAX_MESSAGE, CEILING).carried
    ensures i < |alerts| && !Waits(alerts[i], now)
    ensures (!plan.deferred && alerts[i].text in words)
            || Carries(Composed(plan, |alerts|, dropped, waiting, MAX_MESSAGE, CEILING).text, entries[i])
  {
    ComposedCarries(plan, |alerts|, dropped, waiting, i);
  }

  lemma CarriedWith(first: seq<string>, words: set<string>, entries: seq<string>, state: PendingState, now: int,
                    defer: bool, i: nat)
    requires |first| <= 1 && |entries| == |state.alerts|
    requires i in ComposeWith(first, words, entries, state, MAX_MESSAGE, CEILING, now, defer).carried
    ensures var c := ComposeWith(first, words, entries, state, MAX_MESSAGE, CEILING, now, defer);
      i < |state.alerts| && !Waits(state.alerts[i], now)
      && ((!c.deferred && state.alerts[i].text in words) || Carries(c.text, entries[i]))
  {
    var plan := PlanFor(first, words, state.alerts, entries, MAX_MESSAGE, now, defer);
    PlanIsProper(first, words, state.alerts, entries, MAX_MESSAGE, now, defer);
    PlanHolds(first, words, state.alerts, entries, now, defer);
    ComposedFlags(first, words, entries, state, now, defer);
    ComposedSettles(plan, words, state.alerts, entries, now, state.dropped,
                    WaitingIn(state.alerts, now), i);
  }

  /** An alert as the queue stores it, with fewer than 10 to the 35th tries. */
  predicate Storable(alert: PendingAlert) {
    |alert.text| <= KEPT && |Decimal(alert.attempts)| <= 35
  }

  lemma WhyLength(attempts: int)
    requires |Decimal(attempts)| <= 35
    ensures |Why(attempts)| <= 53
  {
    assert |" lần chưa gửi được"| == 18 && |"chưa gửi — tin trước đã đầy"| == 27;
  }

  lemma EntryLength(alert: PendingAlert)
    requires Storable(alert)
    ensures |Entry(alert)| <= LONGEST_ENTRY && Contains(Entry(alert), Body(alert.text))
  {
    WhyLength(alert.attempts);
    BodyFits(alert.text);
    EntryParts(alert, Stamp(alert.first), Why(alert.attempts), Body(alert.text));
  }

  lemma EntryParts(alert: PendingAlert, stamp: string, why: string, body: string)
    requires stamp == Stamp(alert.first) && why == Why(alert.attempts) && body == Body(alert.text)
    ensures |Entry(alert)| == 22 + |why| + |body| && Contains(Entry(alert), body)
  {
    var head := "— lúc " + stamp + " (" + why + "):\n";
    ContainsBetween(head, body, "");
    assert Entry(alert) == head + body + "";
  }

  lemma EntryIsCarried(alerts: seq<PendingAlert>, text: Option<string>, i: nat)
    requires i < |alerts|
    ensures Carries(text, EntriesOf(alerts)[i]) && Storable(alerts[i]) ==> Contains(text.value, Body(alerts[i].text))
  {
    if Carries(text, EntriesOf(alerts)[i]) && Storable(alerts[i]) {
      EntryLength(alerts[i]);
      ContainsDeeper(text.value, Entry(alerts[i]), Body(alerts[i].text));
    }
  }

  lemma ComposedReports(plan: Plan, n: nat, dropped: int, waiting: nat, limit: nat, ceiling: nat)
    requires |plan.lines| == |plan.others| && Composed(plan, n, dropped, waiting, limit, ceiling).reportedDropped
    ensures var c := Composed(plan, n, dropped, waiting, limit, ceiling);
      dropped != 0 && waiting == 0 && c.text.Some? && Contains(c.text.value, DroppedNote(dropped))
  {
    if plan.lines == [] {
      MessageContains(plan.parts, [DroppedNote(dropped)] + Tail(plan.deferred), 0);
    } else {
      var entries := Entries(plan, limit, ceiling);
      MessageContains(plan.parts, Section(plan, entries, dropped, waiting, limit), |entries|);
    }
  }

  lemma ReportsWith(first: seq<string>, words: set<string>, entries: seq<string>, state: PendingState, now: int,
                    defer: bool)
    requires |entries| == |state.alerts|
    requires ComposeWith(first, words, entries, state, MAX_MESSAGE, CEILING, now, defer).reportedDropped
    ensures var c := ComposeWith(first, words, entries, state, MAX_MESSAGE, CEILING, now, defer);
      state.dropped != 0 && c.text.Some? && Contains(c.text.value, DroppedNote(state.dropped))
  {
    ComposedReports(PlanFor(first, words, state.alerts, entries, MAX_MESSAGE, now, defer), |state.alerts|,
                    state.dropped,
                    WaitingIn(state.alerts, now), MAX_MESSAGE, CEILING);
  }

  /** A dropped count is reported only in a message that says it. */
  lemma ReportSaysHowMany(current: Option<string>, state: PendingState, now: int, defer: bool)
    requires ComposeOf(current, state, MAX_MESSAGE, CEILING, now, defer).reportedDropped
    ensures var c := ComposeOf(current, state, MAX_MESSAGE, CEILING, now, defer);
      state.dropped != 0 && c.text.Some? && Contains(c.text.value, DroppedNote(state.dropped))
  {
    ReportsWith(First(current, MAX_MESSAGE), PartsOf(current), EntriesOf(state.alerts), state, now, defer);
  }

  predicate Announces(c: Composition) {
    && (c.deferred ==> c.text.Some? && Contains(c.text.value, NEWER_FOLLOWS))
    && (c.keptClipped ==>
          c.text.Some? && (Contains(c.text.value, KEPT_CLIPPED) || Contains(c.text.value, KEPT_LEFT_OUT)))
  }

  lemma ComposedAnnounces(plan: Plan, n: nat, dropped: int, waiting: nat)
    requires Proper(plan)
    ensures Announces(Composed(plan, n, dropped, waiting, MAX_MESSAGE, CEILING))
  {
    if plan.lines != [] {
      if Squeezes(plan, MAX_MESSAGE, CEILING) {
        var room := CEILING - |Message(plan.parts, [KEPT_CLIPPED])| - 1;
        MessageContains(plan.parts, [KEPT_LEFT_OUT], 0);
        MessageContains(plan.parts, [Clip(plan.lines[0], room), KEPT_CLIPPED], 1);
      } else if plan.deferred {
        var section := Section(plan, Entries(plan, MAX_MESSAGE, CEILING), dropped, waiting, MAX_MESSAGE);
        MessageContains(plan.parts, section, |section| - 1);
      }
    }
  }

  lemma AnnouncesWith(first: seq<string>, words: set<string>, entries: seq<string>, state: PendingState, now: int,
                      defer: bool)
    requires |first| <= 1 && |entries| == |state.alerts|
    ensures Announces(ComposeWith(first, words, entries, state, MAX_MESSAGE, CEILING, now, defer))
  {
    PlanIsProper(first, words, state.alerts, entries, MAX_MESSAGE, now, defer);
    ComposedAnnounces(PlanFor(first, words, state.alerts, entries, MAX_MESSAGE, now, defer), |state.alerts|,
                      state.dropped, WaitingIn(state.alerts, now));
  }

  /** A message that leaves the current alert, or part of the oldest kept one, for later says so. */
  lemma NothingIsHeldBackSilently(current: Option<string>, state: PendingState, now: int, defer: bool)
    ensures Announces(ComposeOf(current, state, MAX_MESSAGE, CEILING, now, defer))
  {
    AnnouncesWith(First(current, MAX_MESSAGE), PartsOf(current), EntriesOf(state.alerts), state, now, defer);
  }

  lemma QuietMembers(text: string, checks: seq<string>)
    requires Splits(text, checks)
    ensures (forall c :: c in Chosen(checks, true) ==> Quiet(c))
    ensures (exists c :: c in Chosen(checks, false) && !Quiet(c))
    ensures forall c :: c in checks <==> c in Chosen(checks, true) || c in Chosen(checks, false)
  {
    ChosenMembers(checks, true);
    ChosenMembers(checks, false);
    assert Chosen(checks, false)[0] in Chosen(checks, false);
  }

  /** An alert that mixes the hours becomes two that together hold each of its lines once and each of its
      checks: one that may go at any hour, and one that waits exactly while it is night. */
  lemma SplitKeepsHours(text: string, checks: seq<string>, loud: PendingAlert, quiet: PendingAlert, now: int)
    requires Splits(text, checks)
    requires loud.checks == PartsFor(text, checks)[0].checks
    requires quiet.checks == PartsFor(text, checks)[|PartsFor(text, checks)| - 1].checks
    ensures !Waits(loud, now) && (Waits(quiet, now) <==> QuietHours(now))
    ensures forall c :: c in checks <==> c in loud.checks || c in quiet.checks
    ensures var lines := WithoutHeading(SplitLines(text));
      multiset(Group(lines, false)) + multiset(Group(lines, true)) == multiset(lines)
  {
    QuietMembers(text, checks);
    GroupsPartition(WithoutHeading(SplitLines(text)));
  }

  // ----- progress -----

  /** The oldest of the planned others goes, and the rest that go follow it without a gap. */
  lemma ComposedProgress(plan: Plan, n: nat, dropped: int, waiting: nat, i: nat, j: nat)
    requires Proper(plan) && InOrder(plan) && !Composed(plan, n, dropped, waiting, MAX_MESSAGE, CEILING).keptClipped
    requires i in plan.others && i <= j < n
    requires j == plan.others[0] || (j in Composed(plan, n, dropped, waiting, MAX_MESSAGE, CEILING).carried
                                     && j in plan.others && j !in plan.base)
    ensures i in Composed(plan, n, dropped, waiting, MAX_MESSAGE, CEILING).carried
  {
    var entries := Entries(plan, MAX_MESSAGE, CEILING);
    var all := plan.base + plan.others[..|entries|];
    assert j != plan.others[0] ==> Among(all)(j);
    var k :| 0 <= k < |entries| && plan.others[k] == j;
    var m :| 0 <= m < |plan.others| && plan.others[m] == i;
    assert m <= k && all[|plan.base| + m] == i;
    assert Among(all)(i);
  }

  lemma BaseIsCarried(plan: Plan, n: nat, dropped: int, waiting: nat, i: nat)
    requires Proper(plan) && i in plan.base && i < n
    ensures i in Composed(plan, n, dropped, waiting, MAX_MESSAGE, CEILING).carried
  {
    if plan.lines != [] && !Squeezes(plan, MAX_MESSAGE, CEILING) {
      var all := plan.base + plan.others[..|Entries(plan, MAX_MESSAGE, CEILING)|];
      var k :| 0 <= k < |plan.base| && plan.base[k] == i;
      assert all[k] == i;
      assert Among(all)(i);
    }
  }

  lemma PlanCovers(first: seq<string>, words: set<string>, alerts: seq<PendingAlert>, entries: seq<string>, now: int,
                   defer: bool, i: nat)
    requires |first| <= 1 && |entries| == |alerts| && i < |alerts| && !Waits(alerts[i], now)
    ensures var plan := PlanFor(first, words, alerts, entries, MAX_MESSAGE, now, defer);
      && (plan.deferred || alerts[i].text !in words ==> i in plan.others)
      && (!plan.deferred && alerts[i].text in words ==> i in plan.base)
      && (forall k :: k in plan.others ==> k < |alerts|) && (plan.deferred ==> plan.base == [])
      && (forall k :: k in plan.base ==> k < |alerts| && alerts[k].text in words)
  {
    var may := MaySend(alerts, now);
    assert may(i);
    assert MaySendWords(alerts, now, words, true)(i) || MaySendWords(alerts, now, words, false)(i);
  }

  lemma ComposedFlags(first: seq<string>, words: set<string>, entries: seq<string>, state: PendingState, now: int,
                      defer: bool)
    requires |first| <= 1 && |entries| == |state.alerts|
    ensures var c := ComposeWith(first, words, entries, state, MAX_MESSAGE, CEILING, now, defer);
      && c.deferred == PlanFor(first, words, state.alerts, entries, MAX_MESSAGE, now, defer).deferred
      && (defer ==> !c.keptClipped) && (c.keptClipped ==> !c.deferred) && (c.deferred ==> c.text.Some?)
  {
    var plan := PlanFor(first, words, state.alerts, entries, MAX_MESSAGE, now, defer);
    PlanIsProper(first, words, state.alerts, entries, MAX_MESSAGE, now, defer);
    PlanInOrder(first, words, state.alerts, entries, MAX_MESSAGE, now, defer);
  }

  /** Every message without a clipped entry carries the oldest kept alert that may go, or an older copy of the
      current one. */
  lemma OldestGoes(first: seq<string>, words: set<string>, entries: seq<string>, state: PendingState, now: int,
                   defer: bool, i: nat) returns (j: nat)
    requires |first| <= 1 && |entries| == |state.alerts| && i < |state.alerts| && !Waits(state.alerts[i], now)
    requires !ComposeWith(first, words, entries, state, MAX_MESSAGE, CEILING, now, defer).keptClipped
    ensures j <= i && j in ComposeWith(first, words, entries, state, MAX_MESSAGE, CEILING, now, defer).carried
  {
    var plan := PlanFor(first, words, state.alerts, entries, MAX_MESSAGE, now, defer);
    PlanIsProper(first, words, state.alerts, entries, MAX_MESSAGE, now, defer);
    PlanInOrder(first, words, state.alerts, entries, MAX_MESSAGE, now, defer);
    PlanCovers(first, words, state.alerts, entries, now, defer, i);
    j := OldestOfPlan(plan, |state.alerts|, state.dropped, WaitingIn(state.alerts, now), i);
  }

  lemma OldestOfPlan(plan: Plan, n: nat, dropped: int, waiting: nat, i: nat) returns (j: nat)
    requires Proper(plan) && InOrder(plan) && !Composed(plan, n, dropped, waiting, MAX_MESSAGE, CEILING).keptClipped
    requires i < n && (i in plan.others || i in plan.base)
    ensures j <= i && j in Composed(plan, n, dropped, waiting, MAX_MESSAGE, CEILING).carried
  {
    if i in plan.others {
      j := plan.others[0];
      ComposedProgress(plan, n, dropped, waiting, j, j);
    } else {
      j := i;
      BaseIsCarried(plan, n, dropped, waiting, i);
    }
  }

  /** The other alerts that a message carries leave no older one behind that may go. */
  lemma NoGaps(first: seq<string>, words: set<string>, entries: seq<string>, state: PendingState, now: int, defer: bool,
               i: nat, j: nat)
    requires |first| <= 1 && |entries| == |state.alerts| && i <= j < |state.alerts| && !Waits(state.alerts[i], now)
    requires var c := ComposeWith(first, words, entries, state, MAX_MESSAGE, CEILING, now, defer);
      !c.keptClipped && j in c.carried && (c.deferred || state.alerts[j].text !in words)
    ensures i in ComposeWith(first, words, entries, state, MAX_MESSAGE, CEILING, now, defer).carried
  {
    var plan := PlanFor(first, words, state.alerts, entries, MAX_MESSAGE, now, defer);
    var n, waiting := |state.alerts|, WaitingIn(state.alerts, now);
    PlanIsProper(first, words, state.alerts, entries, MAX_MESSAGE, now, defer);
    PlanInOrder(first, words, state.alerts, entries, MAX_MESSAGE, now, defer);
    ComposedFlags(first, words, entries, state, now, defer);
    PlanCovers(first, words, state.alerts, entries, now, defer, i);
    ComposedCarries(plan, n, state.dropped, waiting, j);
    if i in plan.others {
      ComposedProgress(plan, n, state.dropped, waiting, i, j);
    } else {
      BaseIsCarried(plan, n, state.dropped, waiting, i);
    }
  }
}
