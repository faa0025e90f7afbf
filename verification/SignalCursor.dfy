/** The application-signal counter of `scripts/check_shop_operations.py`: each run re-reads an
    overlapping stretch of a log whose lines come late, out of order or twice, and must still count
    every signal once. Instants are microseconds. */
module SignalCursor {
  import opened Basics
  import opened SignalWindows

  const WINDOW: nat := 300_000_000
  const LIVENESS_WINDOW := 900_000_000
  const CLOCK_SKEW := 60_000_000
  const OVERLAP := 900_000_000
  const REFUSED := "database.request_refused"
  const BOUNDARY := "auth.browser_boundary"
  const COMPLETED := "http.request.completed"
  const REFUSAL_THRESHOLD := 5
  const BOUNDARY_THRESHOLD := 10

  /** One API event. `rest` stands for whatever else the line's bytes hold, so equal values are
      exactly equal lines; an empty `correlation` is a line without a correlation id. */
  datatype ApiEvent = ApiEvent(event: string, status: Option<int>, route: string, correlation: string, at: int,
                               rest: nat)

  /** A line of the log as `_api_event` reads it. */
  datatype Line = Unreadable | OtherComponent | Api(e: ApiEvent)

  /** The hashes that identify a line, as the values hashed: what the line is, or its bytes. */
  datatype Key = Named(event: string, correlation: string, at: int) | Bytes(e: ApiEvent) | Text(e: ApiEvent)

  datatype Cursor = Cursor(through: int, seenAtThrough: set<Key>, recent: map<Key, int>, settledThrough: Option<int>)
  {
    function Settled(): int {
      if settledThrough.Some? then settledThrough.value else through - 1
    }

    function Known(): set<Key> {
      seenAtThrough + recent.Keys
    }
  }

  function KeyOf(e: ApiEvent): Key {
    if e.correlation != "" then Named(e.event, e.correlation, e.at) else Bytes(e)
  }

  /** When the line a key stands for occurred. */
  function Instant(k: Key): int {
    match k
    case Named(_, _, at) => at
    case Bytes(e) => e.at
    case Text(e) => e.at
  }

  predicate CouldCount(e: ApiEvent) {
    || e.event == REFUSED || e.event == BOUNDARY
    || (e.event == COMPLETED && e.status.Some? && e.status.value >= 500)
  }

  predicate IsServerError(e: ApiEvent, refused: set<string>) {
    && e.status.Some? && e.status.value >= 500
    && (e.status.value != 503 || (!(e.correlation != "" && e.correlation in refused) && e.route != "/readyz"))
  }

  function Latest(now: int): int { now + CLOCK_SKEW }

  predicate Ahead(cursor: Option<Cursor>, now: int) {
    cursor.Some? && cursor.value.through > Latest(now)
  }

  /** The position a run counts from: the saved one, or the last window on a first run. */
  function Start(cursor: Option<Cursor>, now: int): Cursor {
    if cursor.None? || Ahead(cursor, now) then Cursor(now - WINDOW, {}, map[], None) else cursor.value
  }

  function Readable(lines: seq<Line>, latest: int): seq<ApiEvent> {
    if lines == [] then []
    else Readable(lines[..|lines| - 1], latest)
         + (var line := lines[|lines| - 1]; if line.Api? && line.e.at <= latest then [line.e] else [])
  }

  function UnreadableIn(lines: seq<Line>): nat {
    if lines == [] then 0
    else UnreadableIn(lines[..|lines| - 1]) + (if lines[|lines| - 1].Unreadable? then 1 else 0)
  }

  function KeysOf(events: seq<ApiEvent>): set<Key> {
    set e | e in events :: KeyOf(e)
  }

  /** `dict.setdefault` over the lines: the first line of each key. */
  function Unique(events: seq<ApiEvent>): seq<ApiEvent> {
    if events == [] then []
    else
      var firsts, e := Unique(events[..|events| - 1]), events[|events| - 1];
      if KeyOf(e) in KeysOf(firsts) then firsts else firsts + [e]
  }

  predicate IsNew(e: ApiEvent, from: Cursor) {
    e.at > from.Settled() && KeyOf(e) !in from.Known() && Text(e) !in from.Known()
  }

  function NewAmong(events: seq<ApiEvent>, from: Cursor): seq<ApiEvent> {
    if events == [] then []
    else NewAmong(events[..|events| - 1], from)
         + (var e := events[|events| - 1]; if IsNew(e, from) then [e] else [])
  }

  function Newest(events: seq<ApiEvent>, least: int): int {
    if events == [] then least
    else
      var sofar, e := Newest(events[..|events| - 1], least), events[|events| - 1];
      if e.at > sofar then e.at else sofar
  }

  function ServerErrors(events: seq<ApiEvent>, refused: set<string>): nat {
    if events == [] then 0
    else ServerErrors(events[..|events| - 1], refused)
         + (var e := events[|events| - 1]; if e.event == COMPLETED && IsServerError(e, refused) then 1 else 0)
  }

  function Refused(events: seq<ApiEvent>): set<string> {
    set e | e in events && e.event == REFUSED :: e.correlation
  }

  function AliveSince(events: seq<ApiEvent>, start: int): nat {
    if events == [] then 0
    else AliveSince(events[..|events| - 1], start) + (if events[|events| - 1].at >= start then 1 else 0)
  }

  /** The instants of the events called `name` that are not in `skip`. */
  function InstantsOf(events: seq<ApiEvent>, name: string, skip: seq<ApiEvent>): seq<int> {
    if events == [] then []
    else InstantsOf(events[..|events| - 1], name, skip)
         + (var e := events[|events| - 1]; if e.event == name && e !in skip then [e.at] else [])
  }

  /** What this run reads, and which of it is new. */
  function EventsOf(lines: seq<Line>, now: int): seq<ApiEvent> {
    Unique(Readable(lines, Latest(now)))
  }

  function NewOf(lines: seq<Line>, now: int, cursor: Option<Cursor>): seq<ApiEvent> {
    NewAmong(EventsOf(lines, now), Start(cursor, now))
  }

  /** The keys of this run's new lines that can move a figure. */
  function CountedKeys(lines: seq<Line>, now: int, cursor: Option<Cursor>): set<Key> {
    set e | e in NewOf(lines, now, cursor) && CouldCount(e) :: KeyOf(e)
  }

  /** The position this run saves. */
  function Moved(lines: seq<Line>, now: int, cursor: Option<Cursor>): Cursor {
    var from, new' := Start(cursor, now), NewOf(lines, now, cursor);
    var through := Newest(new', from.through);
    var settled := if from.Settled() > through - OVERLAP then from.Settled() else through - OVERLAP;
    var remembered := from.recent + (map k | k in from.seenAtThrough :: from.through)
                      + (map k | k in CountedKeys(lines, now, cursor) :: Instant(k));
    Cursor(through, {}, map k | k in remembered && remembered[k] > settled :: remembered[k], Some(settled))
  }

  datatype Counts = Counts(serverErrors: nat, databaseRefusals: nat, boundaryRejections: nat, alive: nat,
                           unreadable: nat, countedAfter: int, cursor: Cursor, cursorWasAhead: bool)

  // ----- `count_application_signals` -----

  lemma TakeNext<T>(s: seq<T>, i: nat)
    requires i < |s|
    ensures s[..i + 1][..i] == s[..i] && s[..i + 1][i] == s[i]
  {
  }

  method Collect(lines: seq<Line>, latest: int) returns (events: seq<ApiEvent>, unreadable: nat)
    ensures events == Unique(Readable(lines, latest)) && unreadable == UnreadableIn(lines)
  {
    var all: seq<ApiEvent> := [];
    unreadable := 0;
    for i := 0 to |lines|
      invariant all == Readable(lines[..i], latest) && unreadable == UnreadableIn(lines[..i])
    {
      TakeNext(lines, i);
      match lines[i] {
        case Unreadable => unreadable := unreadable + 1;
        case OtherComponent =>
        case Api(e) => if e.at <= latest { all := all + [e]; }
      }
    }
    assert lines[..|lines|] == lines;
    events := [];
    for i := 0 to |all|
      invariant events == Unique(all[..i])
    {
      TakeNext(all, i);
      if KeyOf(all[i]) !in KeysOf(events) {
        events := events + [all[i]];
      }
    }
    assert all[..|all|] == all;
  }

  /** The figure of a rate: the most `name` lines in any window that holds a new one. */
  ghost predicate IsRate(figure: nat, lines: seq<Line>, now: int, cursor: Option<Cursor>, name: string,
                         threshold: int) {
    var new', events := NewOf(lines, now, cursor), EventsOf(lines, now);
    IsMost(figure, InstantsOf(new', name, []), InstantsOf(events, name, new'), WINDOW, threshold)
  }

  method CountApplicationSignals(lines: seq<Line>, now: int, cursor: Option<Cursor>) returns (c: Counts)
    ensures c.cursor == Moved(lines, now, cursor)
    ensures c.serverErrors == ServerErrors(NewOf(lines, now, cursor), Refused(EventsOf(lines, now)))
    ensures IsRate(c.databaseRefusals, lines, now, cursor, REFUSED, REFUSAL_THRESHOLD)
    ensures IsRate(c.boundaryRejections, lines, now, cursor, BOUNDARY, BOUNDARY_THRESHOLD)
    ensures c.alive == AliveSince(EventsOf(lines, now), now - LIVENESS_WINDOW)
    ensures c.unreadable == UnreadableIn(lines)
    ensures c.countedAfter == Start(cursor, now).through && c.cursorWasAhead == Ahead(cursor, now)
  {
    var from := Start(cursor, now);
    var events, unreadable := Collect(lines, Latest(now));
    var new' := NewAmong(events, from);
    var refusals := MostInAnyWindow(InstantsOf(new', REFUSED, []), InstantsOf(events, REFUSED, new'),
                                    WINDOW, REFUSAL_THRESHOLD);
    var rejections := MostInAnyWindow(InstantsOf(new', BOUNDARY, []), InstantsOf(events, BOUNDARY, new'),
                                      WINDOW, BOUNDARY_THRESHOLD);
    c := Counts(ServerErrors(new', Refused(events)), refusals, rejections,
                AliveSince(events, now - LIVENESS_WINDOW), unreadable, from.through,
                Moved(lines, now, cursor), Ahead(cursor, now));
  }

  // ----- the identity that is hashed -----

  predicate Unbarred(s: string) { '|' !in s }

  /** What a line with a correlation id is, as one string; `stamp` is its instant in ISO format. */
  function Identity(event: string, correlation: string, stamp: string): string {
    event + "|" + correlation + "|" + stamp
  }

  /** How many characters stand before the first bar, and after the last. */
  function BeforeBar(s: string): nat {
    if s == "" || s[0] == '|' then 0 else 1 + BeforeBar(s[1..])
  }

  function AfterBar(s: string): nat {
    if s == "" || s[|s| - 1] == '|' then 0 else 1 + AfterBar(s[..|s| - 1])
  }

  lemma {:induction false} BarAfter(a: string, x: string)
    requires Unbarred(a)
    ensures BeforeBar(a + "|" + x) == |a|
  {
    if a == "" {
      assert "" + "|" + x == "|" + x;
    } else {
      assert (a + "|" + x)[1..] == a[1..] + "|" + x;
      BarAfter(a[1..], x);
    }
  }

  lemma {:induction false} BarBefore(x: string, a: string)
    requires Unbarred(a)
    ensures AfterBar(x + "|" + a) == |a|
  {
    var s := x + "|" + a;
    if a == "" {
      assert s[|s| - 1] == '|';
    } else {
      assert s[..|s| - 1] == x + "|" + a[..|a| - 1];
      BarBefore(x, a[..|a| - 1]);
    }
  }

  lemma FirstBar(a: string, x: string, b: string, y: string)
    requires Unbarred(a) && Unbarred(b) && a + "|" + x == b + "|" + y
    ensures a == b && x == y
  {
    var s := a + "|" + x;
    BarAfter(a, x);
    BarAfter(b, y);
    assert a == s[..|a|] && b == s[..|b|] && x == s[|a| + 1..] && y == s[|b| + 1..];
  }

  lemma LastBar(x: string, a: string, y: string, b: string)
    requires Unbarred(a) && Unbarred(b) && x + "|" + a == y + "|" + b
    ensures x == y && a == b
  {
    var s := x + "|" + a;
    BarBefore(x, a);
    BarBefore(y, b);
    assert x == s[..|x|] && y == s[..|y|] && a == s[|x| + 1..] && b == s[|y| + 1..];
  }

  lemma OneBar(e: string, c: string, e': string, c': string)
    requires Unbarred(e) && Unbarred(c) && e + "|" + c == e' + "|" + c'
    ensures Unbarred(e')
  {
    var s := e + "|" + c;
    assert s[|e'|] == '|' && forall i :: 0 <= i < |e'| ==> s[i] == e'[i];
    assert forall i :: 0 <= i < |s| && s[i] == '|' ==> i == |e|;
  }

  /** Names without a bar are told apart whatever the correlation ids hold; and if its id has none either, a line
      with such a name is told apart from every other. */
  lemma IdentityIsInjective(e: string, c: string, s: string, e': string, c': string, s': string)
    requires Unbarred(e) && (Unbarred(e') || Unbarred(c)) && Unbarred(s) && Unbarred(s')
    requires Identity(e, c, s) == Identity(e', c', s')
    ensures e == e' && c == c' && s == s'
  {
    LastBar(e + "|" + c, s, e' + "|" + c', s');
    if Unbarred(c) { OneBar(e, c, e', c'); }
    FirstBar(e, c, e', c');
  }

  /** The names that a figure can count have none, and none of them is that of a line identified by its bytes. */
  lemma CountedNames(name: string, c: string, s: string, hash: string)
    requires name == REFUSED || name == BOUNDARY || name == COMPLETED
    ensures Unbarred(name) && Identity(name, c, s) != "bytes|" + hash
  {
    if Identity(name, c, s) == "bytes|" + hash {
      assert name + "|" + (c + "|" + s) == Identity(name, c, s) && "bytes|" + hash == "bytes" + "|" + hash;
      FirstBar(name, c + "|" + s, "bytes", hash);
    }
  }

  // ----- membership -----

  lemma {:induction false} ReadableMembers(lines: seq<Line>, latest: int)
    ensures forall e :: e in Readable(lines, latest) <==> Api(e) in lines && e.at <= latest
  {
    if lines != [] {
      ReadableMembers(lines[..|lines| - 1], latest);
      assert lines == lines[..|lines| - 1] + [lines[|lines| - 1]];
    }
  }

  ghost predicate Distinct(events: seq<ApiEvent>) {
    forall i, j :: 0 <= i < j < |events| ==> KeyOf(events[i]) != KeyOf(events[j])
  }

  /** Every line read is represented by one with its key, and no key occurs twice. */
  lemma UniqueMembers(events: seq<ApiEvent>)
    ensures forall e :: e in Unique(events) ==> e in events
    ensures KeysOf(Unique(events)) == KeysOf(events)
    ensures Distinct(Unique(events))
  {
    UniqueAmong(events);
    UniqueKeys(events);
    UniqueApart(events);
  }

  lemma {:induction false} UniqueAmong(events: seq<ApiEvent>)
    ensures forall e :: e in Unique(events) ==> e in events
  {
    if events != [] {
      UniqueAmong(events[..|events| - 1]);
      assert events == events[..|events| - 1] + [events[|events| - 1]];
    }
  }

  lemma KeysOfMore(events: seq<ApiEvent>, e: ApiEvent)
    ensures KeysOf(events + [e]) == KeysOf(events) + {KeyOf(e)}
  {
  }

  lemma {:induction false} UniqueKeys(events: seq<ApiEvent>)
    ensures KeysOf(Unique(events)) == KeysOf(events)
  {
    if events != [] {
      var sooner, e := events[..|events| - 1], events[|events| - 1];
      UniqueKeys(sooner);
      assert events == sooner + [e];
      KeysOfMore(sooner, e);
      KeysOfMore(Unique(sooner), e);
    }
  }

  lemma DistinctMore(events: seq<ApiEvent>, e: ApiEvent)
    requires Distinct(events) && KeyOf(e) !in KeysOf(events)
    ensures Distinct(events + [e])
  {
    assert forall i :: 0 <= i < |events| ==> KeyOf(events[i]) in KeysOf(events);
  }

  lemma {:induction false} UniqueApart(events: seq<ApiEvent>)
    ensures Distinct(Unique(events))
  {
    if events != [] {
      var sooner, e := events[..|events| - 1], events[|events| - 1];
      UniqueApart(sooner);
      UniqueKeys(sooner);
      if KeyOf(e) !in KeysOf(Unique(sooner)) { DistinctMore(Unique(sooner), e); }
    }
  }

  lemma {:induction false} NewMembers(events: seq<ApiEvent>, from: Cursor)
    ensures forall e :: e in NewAmong(events, from) <==> e in events && IsNew(e, from)
  {
    if events != [] {
      NewMembers(events[..|events| - 1], from);
      assert events == events[..|events| - 1] + [events[|events| - 1]];
    }
  }

  lemma {:induction false} NewestBounds(events: seq<ApiEvent>, least: int)
    ensures Newest(events, least) >= least
    ensures forall e :: e in events ==> e.at <= Newest(events, least)
    ensures Newest(events, least) == least || exists e :: e in events && e.at == Newest(events, least)
  {
    if events != [] {
      NewestBounds(events[..|events| - 1], least);
      assert events == events[..|events| - 1] + [events[|events| - 1]];
    }
  }

  lemma NewOfMembers(lines: seq<Line>, now: int, cursor: Option<Cursor>)
    ensures forall e :: e in NewOf(lines, now, cursor) ==>
      Api(e) in lines && e.at <= Latest(now) && IsNew(e, Start(cursor, now))
  {
    ReadableMembers(lines, Latest(now));
    UniqueMembers(Readable(lines, Latest(now)));
    NewMembers(EventsOf(lines, now), Start(cursor, now));
  }

  // ----- one run -----

  /** What a run saves: everything at or before `settled` is final, and what is remembered lies
      between `settled` and `through`, within the overlap. */
  predicate Saved(c: Cursor, now: int) {
    && c.settledThrough.Some? && c.seenAtThrough == {}
    && c.Settled() <= c.through <= Latest(now) && c.through - OVERLAP <= c.Settled()
    && forall k :: k in c.recent ==> c.Settled() < c.recent[k] <= c.through
  }

  /** A position a run can find: one that was saved, or one of version 1, which remembers only bytes. */
  predicate Loadable(c: Cursor) {
    || (c.settledThrough.None? && c.recent == map[])
    || (c.settledThrough.Some? && c.Settled() <= c.through && c.seenAtThrough == {}
        && forall k :: k in c.recent ==> c.recent[k] <= c.through)
  }

  /** The position will not let a line with this key be new again. */
  predicate Remembers(c: Cursor, k: Key) {
    Instant(k) <= c.Settled() || (k in c.recent && c.recent[k] == Instant(k))
  }

  predicate Forward(before: Cursor, after: Cursor) {
    before.through <= after.through && before.Settled() <= after.Settled()
  }

  /** Everything the whole-run arguments use of one run. */
  ghost predicate RunFacts(before: Option<Cursor>, now: int, after: Cursor, counted: set<Key>) {
    && Saved(after, now) && Forward(Start(before, now), after)
    && (forall k :: k in counted ==> Remembers(after, k))
    && (forall k :: k in after.Known() ==> k in counted || k in Start(before, now).Known())
    && (forall k {:trigger Remembers(after, k)} ::
          Start(before, now).seenAtThrough == {} && Remembers(Start(before, now), k) ==>
          Remembers(after, k) && k !in counted)
  }

  lemma MovedIsSaved(lines: seq<Line>, now: int, cursor: Option<Cursor>)
    requires cursor.Some? ==> Loadable(cursor.value)
    ensures Saved(Moved(lines, now, cursor), now) && Loadable(Moved(lines, now, cursor))
    ensures Forward(Start(cursor, now), Moved(lines, now, cursor))
  {
    NewOfMembers(lines, now, cursor);
    NewestBounds(NewOf(lines, now, cursor), Start(cursor, now).through);
  }

  lemma RunHasFacts(lines: seq<Line>, now: int, cursor: Option<Cursor>)
    requires cursor.Some? ==> Loadable(cursor.value)
    ensures RunFacts(cursor, now, Moved(lines, now, cursor), CountedKeys(lines, now, cursor))
  {
    MovedIsSaved(lines, now, cursor);
    NewOfMembers(lines, now, cursor);
  }

  // ----- every sequence of runs -----

  datatype Run = Run(lines: seq<Line>, now: int)

  function CountedBy(run: Run, found: Option<Cursor>): set<Key> {
    CountedKeys(run.lines, run.now, found)
  }

  /** `positions[i]` is what run `i` finds, and the next one is what it saves; the clock may stand
      still but does not go back. */
  ghost predicate History(runs: seq<Run>, positions: seq<Option<Cursor>>) {
    && |positions| == |runs| + 1 && (positions[0].Some? ==> Loadable(positions[0].value))
    && (forall i :: 0 <= i < |runs| ==> positions[i + 1] == Some(Moved(runs[i].lines, runs[i].now, positions[i])))
    && (forall i :: 1 <= i < |runs| ==> runs[i - 1].now <= runs[i].now)
  }

  ghost predicate Linked(runs: seq<Run>, positions: seq<Option<Cursor>>, counted: seq<set<Key>>, i: nat)
    requires |positions| == |runs| + 1 && |counted| == |runs| && i < |runs|
  {
    positions[i + 1].Some? && RunFacts(positions[i], runs[i].now, positions[i + 1].value, counted[i])
  }

  /** The same history, known only by the facts of its runs. */
  ghost predicate Chain(runs: seq<Run>, positions: seq<Option<Cursor>>, counted: seq<set<Key>>) {
    && |positions| == |runs| + 1 && |counted| == |runs|
    && (forall i: nat :: i < |runs| ==> Linked(runs, positions, counted, i))
    && (forall i :: 1 <= i < |runs| ==> runs[i - 1].now <= runs[i].now)
  }

  lemma {:induction false} Loaded(runs: seq<Run>, positions: seq<Option<Cursor>>, i: nat)
    requires History(runs, positions) && i <= |runs|
    ensures positions[i].Some? ==> Loadable(positions[i].value)
  {
    if i > 0 {
      Loaded(runs, positions, i - 1);
      MovedIsSaved(runs[i - 1].lines, runs[i - 1].now, positions[i - 1]);
    }
  }

  lemma Link(runs: seq<Run>, positions: seq<Option<Cursor>>, counted: seq<set<Key>>, i: nat)
    requires Chain(runs, positions, counted) && i < |runs|
    ensures positions[i + 1].Some? && RunFacts(positions[i], runs[i].now, positions[i + 1].value, counted[i])
    ensures i > 0 ==> runs[i - 1].now <= runs[i].now
  {
    assert Linked(runs, positions, counted, i);
  }

  lemma HistoryIsChain(runs: seq<Run>, positions: seq<Option<Cursor>>) returns (counted: seq<set<Key>>)
    requires History(runs, positions)
    ensures Chain(runs, positions, counted)
    ensures forall i :: 0 <= i < |runs| ==> counted[i] == CountedBy(runs[i], positions[i])
  {
    counted := seq(|runs|, i requires 0 <= i < |runs| => CountedBy(runs[i], positions[i]));
    forall i: nat | i < |runs| ensures Linked(runs, positions, counted, i) {
      Loaded(runs, positions, i);
      RunHasFacts(runs[i].lines, runs[i].now, positions[i]);
    }
  }

  /** After the first run no run finds the position ahead of its clock, so none starts over. */
  lemma NeverStartsOver(runs: seq<Run>, positions: seq<Option<Cursor>>, counted: seq<set<Key>>, i: nat)
    requires Chain(runs, positions, counted) && 1 <= i < |runs|
    ensures positions[i].Some? && !Ahead(positions[i], runs[i].now)
    ensures Start(positions[i], runs[i].now) == positions[i].value && positions[i].value.seenAtThrough == {}
  {
    Link(runs, positions, counted, i);
    Link(runs, positions, counted, i - 1);
  }

  lemma {:induction false} ChainMovesForward(runs: seq<Run>, positions: seq<Option<Cursor>>, counted: seq<set<Key>>,
                                             i: nat, j: nat)
    requires Chain(runs, positions, counted) && 1 <= i <= j <= |runs|
    ensures positions[i].Some? && positions[j].Some? && Forward(positions[i].value, positions[j].value)
    decreases j
  {
    Link(runs, positions, counted, j - 1);
    if i < j {
      ChainMovesForward(runs, positions, counted, i, j - 1);
      NeverStartsOver(runs, positions, counted, j - 1);
    }
  }

  /** The saved position: bounded by the accepted clock, holding only instants inside the overlap,
      never moving back, and never again found ahead of the clock. */
  lemma PositionInvariant(runs: seq<Run>, positions: seq<Option<Cursor>>, i: nat, j: nat)
    requires History(runs, positions) && 1 <= i <= j <= |runs|
    ensures positions[i].Some? && positions[j].Some? && Saved(positions[j].value, runs[j - 1].now)
    ensures Forward(positions[i].value, positions[j].value)
    ensures j < |runs| ==> !Ahead(positions[j], runs[j].now)
  {
    var counted := HistoryIsChain(runs, positions);
    ChainMovesForward(runs, positions, counted, i, j);
    if j < |runs| {
      NeverStartsOver(runs, positions, counted, j);
    }
    Link(runs, positions, counted, j - 1);
  }

  lemma {:induction false} RememberedFrom(runs: seq<Run>, positions: seq<Option<Cursor>>, counted: seq<set<Key>>,
                                          i: nat, j: nat, k: Key)
    requires Chain(runs, positions, counted) && i < j <= |runs| && k in counted[i]
    ensures positions[j].Some? && Remembers(positions[j].value, k)
    ensures j < |runs| ==> k !in counted[j]
    decreases j
  {
    Link(runs, positions, counted, j - 1);
    if i < j - 1 {
      RememberedFrom(runs, positions, counted, i, j - 1, k);
      NeverStartsOver(runs, positions, counted, j - 1);
    }
    assert Remembers(positions[j].value, k);
    if j < |runs| {
      NeverStartsOver(runs, positions, counted, j);
      Link(runs, positions, counted, j);
      assert Remembers(positions[j + 1].value, k);
    }
  }

  /** No signal is counted by two runs, however its lines arrive and however often. */
  lemma CountedAtMostOnce(runs: seq<Run>, positions: seq<Option<Cursor>>, i: nat, j: nat, k: Key)
    requires History(runs, positions) && i < |runs| && j < |runs|
    requires k in CountedBy(runs[i], positions[i]) && k in CountedBy(runs[j], positions[j])
    ensures i == j
  {
    var counted := HistoryIsChain(runs, positions);
    if i < j {
      RememberedFrom(runs, positions, counted, i, j, k);
    } else if j < i {
      RememberedFrom(runs, positions, counted, j, i, k);
    }
  }

  /** Whatever a position knows was counted by an earlier run, or was known at the start. */
  lemma {:induction false} KnownWasCounted(runs: seq<Run>, positions: seq<Option<Cursor>>, counted: seq<set<Key>>,
                                           j: nat, k: Key)
    requires Chain(runs, positions, counted) && j <= |runs|
    requires positions[j].Some? && k in positions[j].value.Known()
    ensures (positions[0].Some? && k in positions[0].value.Known()) || exists i :: 0 <= i < j && k in counted[i]
  {
    if j > 0 {
      Link(runs, positions, counted, j - 1);
      if k !in counted[j - 1] {
        KnownWasCounted(runs, positions, counted, j - 1, k);
      }
    }
  }

  /** A key whose every line is a signal (one request writes one event at one instant), and which the
      first position did not already know. */
  ghost predicate SignalFrom(runs: seq<Run>, first: Option<Cursor>, k: Key) {
    && (forall i, e :: 0 <= i < |runs| && Api(e) in runs[i].lines && KeyOf(e) == k ==>
          CouldCount(e) && (first.Some? ==> Text(e) !in first.value.Known()))
    && (first.Some? ==> k !in first.value.Known())
  }

  /** The first line of a readable key is new unless the position knows it. */
  lemma CountedUnlessKnown(run: Run, found: Option<Cursor>, e: ApiEvent) returns (first: ApiEvent)
    requires Api(e) in run.lines && e.at <= Latest(run.now) && e.at > Start(found, run.now).Settled()
    ensures Api(first) in run.lines && KeyOf(first) == KeyOf(e)
    ensures CouldCount(first) && {KeyOf(e), Text(first)} !! Start(found, run.now).Known() ==>
      KeyOf(e) in CountedBy(run, found)
  {
    var all := Readable(run.lines, Latest(run.now));
    ReadableMembers(run.lines, Latest(run.now));
    UniqueMembers(all);
    assert KeyOf(e) in KeysOf(all);
    first :| first in Unique(all) && KeyOf(first) == KeyOf(e);
    assert Instant(KeyOf(first)) == Instant(KeyOf(e));
    NewMembers(Unique(all), Start(found, run.now));
  }

  lemma TextIsNeverCounted(run: Run, found: Option<Cursor>, e: ApiEvent)
    ensures Text(e) !in CountedBy(run, found)
  {
  }

  /** A signal that is readable in some run, after the settled instant, has been counted by exactly
      one run, and by no later one than that. */
  lemma CountedExactlyOnce(runs: seq<Run>, positions: seq<Option<Cursor>>, j: nat, e: ApiEvent) returns (i: nat)
    requires History(runs, positions) && j < |runs| && SignalFrom(runs, positions[0], KeyOf(e))
    requires Api(e) in runs[j].lines && e.at <= Latest(runs[j].now)
    requires e.at > Start(positions[j], runs[j].now).Settled()
    ensures i <= j && KeyOf(e) in CountedBy(runs[i], positions[i])
    ensures forall other: nat :: other < |runs| && KeyOf(e) in CountedBy(runs[other], positions[other]) ==> other == i
  {
    var k := KeyOf(e);
    var counted := HistoryIsChain(runs, positions);
    if i': nat :| i' < j && k in counted[i'] {
      i := i';
    } else {
      i := j;
      var first := CountedUnlessKnown(runs[j], positions[j], e);
      forall key | key == k || key == Text(first) ensures key !in Start(positions[j], runs[j].now).Known() {
        if positions[j].Some? && key in positions[j].value.Known() {
          KnownWasCounted(runs, positions, counted, j, key);
          var m :| 0 <= m < j && key in counted[m];
          TextIsNeverCounted(runs[m], positions[m], first);
        }
      }
    }
    forall other: nat | other < |runs| && k in CountedBy(runs[other], positions[other]) ensures other == i {
      CountedAtMostOnce(runs, positions, i, other, k);
    }
  }

  // ----- the figure -----

  function ErrorKeys(events: seq<ApiEvent>, refused: set<string>): set<Key> {
    if events == [] then {}
    else ErrorKeys(events[..|events| - 1], refused)
         + (var e := events[|events| - 1]; if e.event == COMPLETED && IsServerError(e, refused) then {KeyOf(e)} else {})
  }

  lemma {:induction false} ErrorKeyMembers(events: seq<ApiEvent>, refused: set<string>, k: Key)
    ensures k in ErrorKeys(events, refused) <==>
            exists i ::
                0 <= i < |events| && KeyOf(events[i]) == k && events[i].event == COMPLETED
                && IsServerError(events[i], refused)
  {
    if events != [] {
      ErrorKeyMembers(events[..|events| - 1], refused, k);
    }
  }

  lemma {:induction false} ErrorsAreDistinct(events: seq<ApiEvent>, refused: set<string>)
    requires Distinct(events)
    ensures ServerErrors(events, refused) == |ErrorKeys(events, refused)|
  {
    if events != [] {
      ErrorsAreDistinct(events[..|events| - 1], refused);
      ErrorKeyMembers(events[..|events| - 1], refused, KeyOf(events[|events| - 1]));
    }
  }

  lemma {:induction false} NewStaysDistinct(events: seq<ApiEvent>, from: Cursor)
    requires Distinct(events)
    ensures Distinct(NewAmong(events, from))
  {
    if events != [] {
      var shorter := events[..|events| - 1];
      NewStaysDistinct(shorter, from);
      NewMembers(shorter, from);
      var fewer := NewAmong(shorter, from);
      forall i | 0 <= i < |fewer| ensures KeyOf(fewer[i]) != KeyOf(events[|events| - 1]) {
        assert fewer[i] in shorter;
        var m :| 0 <= m < |shorter| && shorter[m] == fewer[i];
        assert shorter[m] == events[m];
      }
    }
  }

  /** The keys of the server errors that a run reports. */
  function ErrorsOf(run: Run, found: Option<Cursor>): set<Key> {
    ErrorKeys(NewOf(run.lines, run.now, found), Refused(EventsOf(run.lines, run.now)))
  }

  /** The reported server errors are as many as the keys they stand for, and every one of those keys is counted. */
  lemma ServerErrorsAreCountedKeys(run: Run, found: Option<Cursor>)
    ensures ServerErrors(NewOf(run.lines, run.now, found), Refused(EventsOf(run.lines, run.now)))
            == |ErrorsOf(run, found)|
    ensures ErrorsOf(run, found) <= CountedBy(run, found)
  {
    var new', refused := NewOf(run.lines, run.now, found), Refused(EventsOf(run.lines, run.now));
    UniqueMembers(Readable(run.lines, Latest(run.now)));
    NewStaysDistinct(EventsOf(run.lines, run.now), Start(found, run.now));
    ErrorsAreDistinct(new', refused);
    forall k | k in ErrorKeys(new', refused) ensures k in CountedBy(run, found) {
      ErrorKeyMembers(new', refused, k);
    }
  }

  /** Two runs never report the same server error. */
  lemma ErrorsAreReportedOnce(runs: seq<Run>, positions: seq<Option<Cursor>>, i: nat, j: nat)
    requires History(runs, positions) && i < |runs| && j < |runs| && i != j
    ensures ErrorsOf(runs[i], positions[i]) !! ErrorsOf(runs[j], positions[j])
  {
    ServerErrorsAreCountedKeys(runs[i], positions[i]);
    ServerErrorsAreCountedKeys(runs[j], positions[j]);
    forall k | k in ErrorsOf(runs[i], positions[i]) ensures k !in ErrorsOf(runs[j], positions[j]) {
      if k in ErrorsOf(runs[j], positions[j]) {
        CountedAtMostOnce(runs, positions, i, j, k);
      }
    }
  }

  /** The server errors of the first `n` runs: the sum of the figures, and all of the keys. */
  function SumOfErrors(runs: seq<Run>, positions: seq<Option<Cursor>>, n: nat): nat
    requires n <= |runs| <= |positions|
  {
    if n == 0 then 0
    else
      var run, found := runs[n - 1], positions[n - 1];
      SumOfErrors(runs, positions, n - 1)
      + ServerErrors(NewOf(run.lines, run.now, found), Refused(EventsOf(run.lines, run.now)))
  }

  function AllErrors(runs: seq<Run>, positions: seq<Option<Cursor>>, n: nat): set<Key>
    requires n <= |runs| <= |positions|
  {
    if n == 0 then {} else AllErrors(runs, positions, n - 1) + ErrorsOf(runs[n - 1], positions[n - 1])
  }

  lemma {:induction false} AllErrorsMembers(runs: seq<Run>, positions: seq<Option<Cursor>>, n: nat, k: Key)
    requires n <= |runs| <= |positions| && k in AllErrors(runs, positions, n)
    ensures exists i :: 0 <= i < n && k in ErrorsOf(runs[i], positions[i])
  {
    if k !in ErrorsOf(runs[n - 1], positions[n - 1]) {
      AllErrorsMembers(runs, positions, n - 1, k);
    }
  }

  /** Over a history the figures add up to the number of distinct server errors, none reported twice. */
  lemma {:induction false} ErrorsAddUp(runs: seq<Run>, positions: seq<Option<Cursor>>, n: nat)
    requires History(runs, positions) && n <= |runs|
    ensures SumOfErrors(runs, positions, n) == |AllErrors(runs, positions, n)|
  {
    if n > 0 {
      ErrorsAddUp(runs, positions, n - 1);
      ServerErrorsAreCountedKeys(runs[n - 1], positions[n - 1]);
      var sofar, last := AllErrors(runs, positions, n - 1), ErrorsOf(runs[n - 1], positions[n - 1]);
      forall k | k in sofar ensures k !in last {
        AllErrorsMembers(runs, positions, n - 1, k);
        var i :| 0 <= i < n - 1 && k in ErrorsOf(runs[i], positions[i]);
        ErrorsAreReportedOnce(runs, positions, i, n - 1);
      }
    }
  }
}
