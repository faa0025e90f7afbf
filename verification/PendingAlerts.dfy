/** Alerts that could not be delivered, kept until they are: `scripts/shop_alert_pending.py`. */
module PendingAlerts {
  import opened Basics
  import opened AlertText

  datatype PendingAlert = PendingAlert(first: int, last: int, attempts: int, text: string, checks: seq<string>)

  datatype PendingState = PendingState(alerts: seq<PendingAlert>, dropped: int)

  datatype Composition = Composition(text: Option<string>, carried: seq<nat>, reportedDropped: bool, waiting: nat,
                                     deferred: bool, keptClipped: bool)

  // ----- positions -----

  /** The positions below `n` that satisfy `chosen`, in order. */
  function Positions(n: nat, chosen: nat -> bool): (r: seq<nat>)
    ensures |r| <= n && forall k :: 0 <= k < |r| ==> r[k] < n && chosen(r[k])
    ensures forall j, k :: 0 <= j < k < |r| ==> r[j] < r[k]
    ensures forall i: nat :: i < n && chosen(i) ==> i in r
  {
    if n == 0 then [] else Positions(n - 1, chosen) + if chosen(n - 1) then [n - 1] else []
  }

  /** A kept alert of quiet-hours checks only, at night. */
  predicate Waits(alert: PendingAlert, now: int) {
    alert.checks != [] && (forall c :: c in alert.checks ==> Quiet(c)) && QuietHours(now)
  }

  function MaySend(alerts: seq<PendingAlert>, now: int): nat -> bool {
    (i: nat) => i < |alerts| && !Waits(alerts[i], now)
  }

  function MaySendWords(alerts: seq<PendingAlert>, now: int, words: set<string>, same: bool): nat -> bool {
    (i: nat) => i < |alerts| && !Waits(alerts[i], now) && (alerts[i].text in words) == same
  }

  function Among(some: seq<nat>): nat -> bool { i => i in some }

  // ----- messages -----

  function Why(attempts: int): string {
    if attempts == 0 then "chưa gửi — tin trước đã đầy" else Decimal(attempts) + " lần chưa gửi được"
  }

  /** `_entry`. */
  function Entry(alert: PendingAlert): string {
    "— lúc " + Stamp(alert.first) + " (" + Why(alert.attempts) + "):\n" + Body(alert.text)
  }

  function DroppedNote(dropped: int): string {
    "(và " + Decimal(dropped) + " cảnh báo cũ hơn đã bị bỏ vì danh sách đầy)"
  }

  function Headings(parts: seq<string>): string {
    if parts != [] then REDELIVERY_HEADING else ALERT_HEADING + "\n" + REDELIVERY_HEADING
  }

  /** `_message`. */
  function Message(parts: seq<string>, section: seq<string>): string {
    Join("\n\n", parts + [Join("\n", [Headings(parts)] + section)])
  }

  // ----- `compose` -----

  /** What a message starts with, which kept alerts it goes on to carry, and their entries, oldest first. */
  datatype Plan = Plan(deferred: bool, parts: seq<string>, base: seq<nat>, others: seq<nat>, lines: seq<string>)

  function Selected(entries: seq<string>, some: seq<nat>): (r: seq<string>)
    requires forall k :: 0 <= k < |some| ==> some[k] < |entries|
    ensures |r| == |some| && forall k :: 0 <= k < |r| ==> r[k] == entries[some[k]]
  {
    seq(|some|, k requires 0 <= k < |some| => entries[some[k]])
  }

  function Tail(deferred: bool): seq<string> {
    if deferred then [NEWER_FOLLOWS] else []
  }

  /** A deferred message carries something, and what it carries is oldest first. */
  predicate InOrder(plan: Plan) {
    (plan.lines == [] ==> !plan.deferred) && forall j, k :: 0 <= j < k < |plan.others| ==>
      plan.others[j] < plan.others[k]
  }

  /** `first` is the current alert, if any; `words` are the texts it covers; `entries` are the kept alerts'. */
  function PlanFor(first: seq<string>, words: set<string>, alerts: seq<PendingAlert>, entries: seq<string>, limit: nat,
                   now: int, defer: bool): (plan: Plan)
    requires |entries| == |alerts|
    ensures |plan.lines| == |plan.others|
  {
    var same := Positions(|alerts|, MaySendWords(alerts, now, words, true));
    var others := Positions(|alerts|, MaySendWords(alerts, now, words, false));
    if defer && first != [] && others != [] && |Message(first, [entries[others[0]]])| > limit then
      var sendable := Positions(|alerts|, MaySend(alerts, now));
      Plan(true, [], [], sendable, Selected(entries, sendable))
    else Plan(false, first, same, others, Selected(entries, others))
  }

  /** The oldest kept alert does not fit beside a current alert that could not be kept. */
  predicate Squeezes(plan: Plan, limit: nat, ceiling: nat)
    requires plan.lines != []
  {
    && |Message(plan.parts, [plan.lines[0]] + Tail(plan.deferred))| > limit
    && plan.parts != [] && |Message(plan.parts, [plan.lines[0]])| > ceiling
  }

  function Squeezed(parts: seq<string>, oldest: string, ceiling: nat): string {
    var room := ceiling - |Message(parts, [KEPT_CLIPPED])| - 1;
    Message(parts, if room < MIN_CLIPPED_ENTRY then [KEPT_LEFT_OUT] else [Clip(oldest, room), KEPT_CLIPPED])
  }

  /** The entries as they go: the oldest clipped only if even the ceiling is too low for it. */
  function Fitted(plan: Plan, limit: nat, ceiling: nat): (r: seq<string>)
    requires plan.lines != []
    ensures |r| == |plan.lines|
  {
    var alone := |Message(plan.parts, [plan.lines[0]] + Tail(plan.deferred))|;
    if alone > limit && alone > ceiling
    then plan.lines[0 := Clip(plan.lines[0], ceiling - |Message(plan.parts, Tail(plan.deferred))| - 1)] else plan.lines
  }

  /** How many of the lines go when the first `k` do: as many more, each whole, as fit. */
  function Packed(parts: seq<string>, lines: seq<string>, k: nat, tail: seq<string>, limit: nat): (n: nat)
    requires k <= |lines|
    ensures k <= n <= |lines|
    decreases |lines| - k
  {
    if k == |lines| || |Message(parts, lines[..k + 1] + tail)| > limit then k
    else Packed(parts, lines, k + 1, tail, limit)
  }

  function Entries(plan: Plan, limit: nat, ceiling: nat): (r: seq<string>)
    requires plan.lines != []
    ensures 1 <= |r| <= |plan.lines|
  {
    var lines := Fitted(plan, limit, ceiling);
    lines[..Packed(plan.parts, lines, 1, Tail(plan.deferred), limit)]
  }

  predicate ReportsDropped(plan: Plan, entries: seq<string>, dropped: int, waiting: nat, limit: nat) {
    && dropped != 0 && waiting == 0 && |entries| == |plan.lines|
    && |Message(plan.parts, entries + [DroppedNote(dropped)] + Tail(plan.deferred))| <= limit
  }

  function Section(plan: Plan, entries: seq<string>, dropped: int, waiting: nat, limit: nat): seq<string> {
    entries + (if ReportsDropped(plan, entries, dropped, waiting, limit) then [DroppedNote(dropped)] else [])
      + Tail(plan.deferred)
  }

  function Composed(plan: Plan, n: nat, dropped: int, waiting: nat, limit: nat, ceiling: nat): Composition
    requires |plan.lines| == |plan.others|
  {
    if plan.lines == [] then
      if ReportsDropped(plan, [], dropped, waiting, limit)
      then Composition(Some(Message(plan.parts, [DroppedNote(dropped)] + Tail(plan.deferred))), plan.base, true,
                       waiting, false, false)
      else Composition(if plan.parts != [] then Some(plan.parts[0]) else None, plan.base, false, waiting, false, false)
    else if Squeezes(plan, limit, ceiling)
    then Composition(Some(Squeezed(plan.parts, plan.lines[0], ceiling)), plan.base, false, waiting, false, true)
    else
      var entries := Entries(plan, limit, ceiling);
      Composition(Some(Message(plan.parts, Section(plan, entries, dropped, waiting, limit))),
                  Positions(n, Among(plan.base + plan.others[..|entries|])),
                  ReportsDropped(plan, entries, dropped, waiting, limit), waiting, plan.deferred, false)
  }

  /** How many kept alerts wait for the morning. */
  function WaitingIn(alerts: seq<PendingAlert>, now: int): nat {
    |alerts| - |Positions(|alerts|, MaySend(alerts, now))|
  }

  function ComposeWith(first: seq<string>, words: set<string>, entries: seq<string>, state: PendingState,
                       limit: nat, ceiling: nat, now: int, defer: bool): Composition
    requires |entries| == |state.alerts|
  {
    Composed(PlanFor(first, words, state.alerts, entries, limit, now, defer), |state.alerts|, state.dropped,
             WaitingIn(state.alerts, now), limit, ceiling)
  }

  function First(current: Option<string>, limit: nat): seq<string> {
    if current.None? then [] else [Clip(current.value, limit)]
  }

  function EntriesOf(alerts: seq<PendingAlert>): (r: seq<string>)
    ensures |r| == |alerts|
  {
    seq(|alerts|, i requires 0 <= i < |alerts| => Entry(alerts[i]))
  }

  function ComposeOf(current: Option<string>, state: PendingState, limit: nat, ceiling: nat, now: int,
                     defer: bool): Composition {
    ComposeWith(First(current, limit), PartsOf(current), EntriesOf(state.alerts), state, limit, ceiling, now, defer)
  }

  method Sendable(alerts: seq<PendingAlert>, now: int) returns (sendable: seq<nat>, waiting: nat)
    ensures sendable == Positions(|alerts|, MaySend(alerts, now)) && waiting == WaitingIn(alerts, now)
  {
    sendable, waiting := [], 0;
    for index := 0 to |alerts|
      invariant sendable == Positions(index, MaySend(alerts, now)) && waiting == index - |sendable|
    {
      if Waits(alerts[index], now) { waiting := waiting + 1; } else { sendable := sendable + [index]; }
    }
  }

  /** The loop that packs the entries, with the position of each; none when the oldest is squeezed. */
  method PackEntries(plan: Plan, limit: nat, ceiling: nat) returns (entries: seq<string>, carried: seq<nat>)
    requires plan.lines != [] && |plan.lines| == |plan.others|
    ensures entries == [] <==> Squeezes(plan, limit, ceiling)
    ensures entries != [] ==>
      entries == Entries(plan, limit, ceiling) && carried == plan.base + plan.others[..|entries|]
  {
    var parts, others, tail := plan.parts, plan.others, Tail(plan.deferred);
    entries, carried := [], plan.base;
    ghost var lines := Fitted(plan, limit, ceiling);
    for position := 0 to |others|
      invariant entries == lines[..position] && carried == plan.base + others[..position]
      invariant position > 0 ==> !Squeezes(plan, limit, ceiling)
      invariant position > 0 ==> Packed(parts, lines, position, tail, limit) == Packed(parts, lines, 1, tail, limit)
    {
      var entry := plan.lines[position];
      assert position > 0 ==> lines[..position + 1] == entries + [entry];
      assert position == 0 ==> entries + [entry] + tail == [entry] + tail;
      if |Message(parts, entries + [entry] + tail)| > limit {
        if position > 0 { break; }
        if parts != [] && |Message(parts, [entry])| > ceiling { return [], carried; }
        if |Message(parts, [entry] + tail)| > ceiling { entry := Clip(entry, ceiling - |Message(parts, tail)| - 1); }
      }
      entries := entries + [entry];
      carried := carried + [others[position]];
    }
  }

  method Finish(plan: Plan, n: nat, dropped: int, waiting: nat, limit: nat, ceiling: nat) returns (c: Composition)
    requires |plan.lines| == |plan.others| && InOrder(plan)
    ensures c == Composed(plan, n, dropped, waiting, limit, ceiling)
  {
    var parts, note, tail := plan.parts, DroppedNote(dropped), Tail(plan.deferred);
    if plan.lines == [] {
      assert [] + [note] + tail == [note] && [note] + tail == [note];
      if dropped != 0 && waiting == 0 {
        var message := Message(parts, [note]);
        if |message| <= limit { return Composition(Some(message), plan.base, true, waiting, false, false); }
      }
      return Composition(if parts != [] then Some(parts[0]) else None, plan.base, false, waiting, false, false);
    }
    var entries, carried := PackEntries(plan, limit, ceiling);
    if entries == [] {
      var room := ceiling - |Message(parts, [KEPT_CLIPPED])| - 1;
      var section := [Clip(plan.lines[0], room), KEPT_CLIPPED];
      if room < MIN_CLIPPED_ENTRY { section := [KEPT_LEFT_OUT]; }
      return Composition(Some(Message(parts, section)), plan.base, false, waiting, false, true);
    }
    var everyOtherCarried := carried[|carried| - 1] == plan.others[|plan.others| - 1];
    var section := entries;
    var reported := dropped != 0 && waiting == 0 && everyOtherCarried
        && |Message(parts, entries + [note] + tail)| <= limit;
    if reported { section := entries + [note]; }
    assert section + tail == Section(plan, entries, dropped, waiting, limit);
    return Composition(Some(Message(parts, section + tail)), Positions(n, Among(carried)), reported, waiting,
                       plan.deferred, false);
  }

  lemma PlanInOrder(first: seq<string>, words: set<string>, alerts: seq<PendingAlert>, entries: seq<string>, limit: nat,
                    now: int, defer: bool)
    requires |entries| == |alerts|
    ensures InOrder(PlanFor(first, words, alerts, entries, limit, now, defer))
  {
    var others := Positions(|alerts|, MaySendWords(alerts, now, words, false));
    if others != [] {
      assert others[0] in Positions(|alerts|, MaySend(alerts, now));
    }
  }

  method ComposeParts(first: seq<string>, words: set<string>, entries: seq<string>, state: PendingState,
                      limit: nat, ceiling: nat, now: int, defer: bool) returns (c: Composition)
    requires |entries| == |state.alerts|
    ensures c == ComposeWith(first, words, entries, state, limit, ceiling, now, defer)
  {
    var _, waiting := Sendable(state.alerts, now);
    var plan := PlanFor(first, words, state.alerts, entries, limit, now, defer);
    PlanInOrder(first, words, state.alerts, entries, limit, now, defer);
    c := Finish(plan, |state.alerts|, state.dropped, waiting, limit, ceiling);
  }

  method Compose(current: Option<string>, state: PendingState, limit: nat, ceiling: nat, now: int,
                 defer: bool) returns (c: Composition)
    ensures c == ComposeOf(current, state, limit, ceiling, now, defer)
  {
    c := ComposeParts(First(current, limit), PartsOf(current), EntriesOf(state.alerts), state, limit, ceiling, now,
                      defer);
  }

  // ----- what is kept -----

  /** `_capped`. */
  function Capped(alerts: seq<PendingAlert>, dropped: int): (r: PendingState)
    ensures |r.alerts| <= MAX_PENDING
  {
    if |alerts| > MAX_PENDING then PendingState(alerts[|alerts| - MAX_PENDING..], dropped + |alerts| - MAX_PENDING)
    else PendingState(alerts, dropped)
  }

  function Texts(alerts: seq<PendingAlert>): set<string> {
    set a | a in alerts :: a.text
  }

  /** The parts of an alert that are not in `present`, as kept alerts. */
  function KeptOf(parts: seq<Part>, now: int, attempts: int, present: set<string>): seq<PendingAlert> {
    if parts == [] then []
    else
      var sooner, last := KeptOf(parts[..|parts| - 1], now, attempts, present), parts[|parts| - 1];
      if Clip(last.text, KEPT) in present || Clip(last.text, KEPT) in Texts(sooner) then sooner
      else sooner + [PendingAlert(now, now, attempts, Clip(last.text, KEPT), last.checks)]
  }

  /** `_kept_parts`. */
  method KeepParts(current: string, checks: seq<string>, now: int, attempts: int,
                   present: set<string>) returns (kept: seq<PendingAlert>)
    ensures kept == KeptOf(PartsFor(current, checks), now, attempts, present)
  {
    kept := [];
    var seen := present;
    var parts := SplitForHours(current, checks);
    for i := 0 to |parts|
      invariant kept == KeptOf(parts[..i], now, attempts, present) && seen == present + Texts(kept)
    {
      assert parts[..i + 1][..i] == parts[..i];
      var stored := Clip(parts[i].text, KEPT);
      if stored !in seen {
        seen := seen + {stored};
        kept := kept + [PendingAlert(now, now, attempts, stored, parts[i].checks)];
      }
    }
    assert parts[..|parts|] == parts;
  }

  function Tried(alerts: seq<PendingAlert>, attempted: seq<nat>, now: int): (r: seq<PendingAlert>)
    ensures |r| == |alerts|
    ensures forall i :: 0 <= i < |r| ==>
      r[i].text == alerts[i].text && r[i].checks == alerts[i].checks && r[i].first == alerts[i].first
  {
    seq(|alerts|, i requires 0 <= i < |alerts| =>
      if i in attempted then alerts[i].(attempts := alerts[i].attempts + 1, last := now) else alerts[i])
  }

  /** `after_failure`. */
  function AfterFailure(state: PendingState, current: Option<string>, checks: seq<string>, now: int,
                        attempted: seq<nat>, deferred: bool): PendingState {
    var alerts := Tried(state.alerts, attempted, now);
    var kept := if current.None? then []
      else KeptOf(PartsFor(current.value, checks), now, if deferred then 0 else 1, Texts(alerts));
    Capped(alerts + kept, state.dropped)
  }

  /** The alerts that are not at the carried positions. */
  function Left(alerts: seq<PendingAlert>, carried: seq<nat>): seq<PendingAlert> {
    if alerts == [] then []
    else Left(alerts[..|alerts| - 1], carried) + if |alerts| - 1 in carried then [] else [alerts[|alerts| - 1]]
  }

  /** `after_success`. */
  function AfterSuccess(state: PendingState, carried: seq<nat>, reportedDropped: bool, deferred: Option<string>,
                        checks: seq<string>, now: int): PendingState {
    var kept := if deferred.None? then [] else KeptOf(PartsFor(deferred.value, checks), now, 0, Texts(state.alerts));
    Capped(Left(state.alerts, carried) + kept, if reportedDropped then 0 else state.dropped)
  }
}
