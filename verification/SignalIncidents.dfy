/** One incident alerts once, over runs of the application-signal counter (`scripts/check_shop_operations.py`). */
module SignalIncidents {
  import opened Basics
  import opened SignalWindows
  import opened SignalCursor

  // ----- what is old stays old -----

  /** A position that the current version saved: it remembers keys with the instants of their lines. */
  predicate Modern(c: Cursor) {
    c.seenAtThrough == {} && forall k :: k in c.recent ==> c.recent[k] == Instant(k) && !k.Text?
  }

  /** No line with this key is new from the position. */
  predicate OldFor(k: Key, c: Cursor) {
    Instant(k) <= c.Settled() || k in c.recent
  }

  lemma KeysSay(e: ApiEvent, f: ApiEvent)
    requires KeyOf(e) == KeyOf(f)
    ensures e.event == f.event && e.at == f.at && Instant(KeyOf(e)) == e.at
  {
  }

  lemma OldIsNotNew(e: ApiEvent, c: Cursor)
    requires Modern(c)
    ensures IsNew(e, c) <==> !OldFor(KeyOf(e), c)
  {
  }

  lemma StartIsModern(cursor: Option<Cursor>, now: int)
    requires cursor.Some? ==> Modern(cursor.value)
    ensures Modern(Start(cursor, now))
  {
  }

  lemma OneRunLater(lines: seq<Line>, now: int, cursor: Option<Cursor>, k: Key)
    requires cursor.Some? ==> Modern(cursor.value)
    ensures Modern(Moved(lines, now, cursor))
    ensures OldFor(k, Start(cursor, now)) || k in CountedKeys(lines, now, cursor) ==>
      OldFor(k, Moved(lines, now, cursor))
  {
    StartIsModern(cursor, now);
  }

  lemma {:induction false} StaysModern(runs: seq<Run>, positions: seq<Option<Cursor>>, i: nat)
    requires History(runs, positions) && (positions[0].Some? ==> Modern(positions[0].value)) && i <= |runs|
    ensures positions[i].Some? ==> Modern(positions[i].value)
  {
    if i > 0 {
      StaysModern(runs, positions, i - 1);
      OneRunLater(runs[i - 1].lines, runs[i - 1].now, positions[i - 1], Bytes(ApiEvent("", None, "", "", 0, 0)));
    }
  }

  lemma NextStart(runs: seq<Run>, positions: seq<Option<Cursor>>, j: nat)
    requires History(runs, positions) && 1 <= j < |runs|
    ensures Start(positions[j], runs[j].now) == Moved(runs[j - 1].lines, runs[j - 1].now, positions[j - 1])
  {
    var counted := HistoryIsChain(runs, positions);
    NeverStartsOver(runs, positions, counted, j);
  }

  /** The key is old for run `j`, or counted by it. */
  predicate SeenBy(runs: seq<Run>, positions: seq<Option<Cursor>>, j: nat, k: Key)
    requires j < |runs| < |positions|
  {
    OldFor(k, Start(positions[j], runs[j].now)) || k in CountedBy(runs[j], positions[j])
  }

  lemma SeenIsOld(run: Run, found: Option<Cursor>, k: Key, next: Cursor)
    requires (found.Some? ==> Modern(found.value)) && next == Moved(run.lines, run.now, found)
    requires OldFor(k, Start(found, run.now)) || k in CountedBy(run, found)
    ensures OldFor(k, next)
  {
    OneRunLater(run.lines, run.now, found, k);
  }

  lemma SeenIsOldNext(runs: seq<Run>, positions: seq<Option<Cursor>>, j: nat, k: Key)
    requires History(runs, positions) && (positions[0].Some? ==> Modern(positions[0].value)) && 1 <= j < |runs|
    requires SeenBy(runs, positions, j - 1, k)
    ensures OldFor(k, Start(positions[j], runs[j].now))
  {
    StaysModern(runs, positions, j - 1);
    NextStart(runs, positions, j);
    SeenIsOld(runs[j - 1], positions[j - 1], k, Start(positions[j], runs[j].now));
  }

  /** A key that was old for run `i`, or counted by it, is old for every later run. */
  lemma {:induction false} StaysOld(runs: seq<Run>, positions: seq<Option<Cursor>>, i: nat, j: nat, k: Key)
    requires History(runs, positions) && (positions[0].Some? ==> Modern(positions[0].value)) && i < j < |runs|
    requires SeenBy(runs, positions, i, k)
    ensures OldFor(k, Start(positions[j], runs[j].now))
    decreases j
  {
    if i < j - 1 {
      StaysOld(runs, positions, i, j - 1, k);
    }
    SeenIsOldNext(runs, positions, j, k);
  }

  // ----- counting lines by their keys -----

  predicate InWindowOf(e: ApiEvent, name: string, skip: seq<ApiEvent>, lo: int, hi: int) {
    e.event == name && e !in skip && lo <= e.at <= hi
  }

  function WindowKeys(events: seq<ApiEvent>, name: string, skip: seq<ApiEvent>, lo: int, hi: int): set<Key> {
    set e | e in events && InWindowOf(e, name, skip, lo, hi) :: KeyOf(e)
  }

  lemma LastApart(events: seq<ApiEvent>)
    requires Distinct(events) && events != []
    ensures Distinct(events[..|events| - 1])
    ensures forall e :: e in events[..|events| - 1] ==> KeyOf(e) != KeyOf(events[|events| - 1])
  {
  }

  lemma OneMoreKey(shorter: seq<ApiEvent>, e: ApiEvent, name: string, skip: seq<ApiEvent>, lo: int, hi: int)
    requires forall f :: f in shorter ==> KeyOf(f) != KeyOf(e)
    ensures |WindowKeys(shorter + [e], name, skip, lo, hi)|
            == |WindowKeys(shorter, name, skip, lo, hi)| + if InWindowOf(e, name, skip, lo, hi) then 1 else 0
  {
    var some := WindowKeys(shorter, name, skip, lo, hi);
    assert KeyOf(e) !in some;
    assert WindowKeys(shorter + [e], name, skip, lo, hi)
        == some + if InWindowOf(e, name, skip, lo, hi) then {KeyOf(e)} else {};
  }

  lemma OneMoreInstant(shorter: seq<ApiEvent>, e: ApiEvent, name: string, skip: seq<ApiEvent>, lo: int, hi: int)
    ensures CountIn(InstantsOf(shorter + [e], name, skip), lo, hi)
            == CountIn(InstantsOf(shorter, name, skip), lo, hi) + if InWindowOf(e, name, skip, lo, hi) then 1 else 0
  {
    var last := if e.event == name && e !in skip then [e.at] else [];
    CountSplit(InstantsOf(shorter, name, skip), last, lo, hi);
    assert (shorter + [e])[..|shorter|] == shorter;
    assert last == [] || last[1..] == [];
  }

  lemma {:induction false} CountIsKeys(events: seq<ApiEvent>, name: string, skip: seq<ApiEvent>, lo: int, hi: int)
    requires Distinct(events)
    ensures CountIn(InstantsOf(events, name, skip), lo, hi) == |WindowKeys(events, name, skip, lo, hi)|
  {
    if events != [] {
      var shorter, e := events[..|events| - 1], events[|events| - 1];
      LastApart(events);
      CountIsKeys(shorter, name, skip, lo, hi);
      OneMoreKey(shorter, e, name, skip, lo, hi);
      OneMoreInstant(shorter, e, name, skip, lo, hi);
      assert events == shorter + [e];
    }
  }

  lemma SameLine(events: seq<ApiEvent>, e: ApiEvent, f: ApiEvent)
    requires Distinct(events) && e in events && f in events && KeyOf(e) == KeyOf(f)
    ensures e == f
  {
  }

  lemma EventsAreDistinct(run: Run, found: Option<Cursor>)
    ensures Distinct(EventsOf(run.lines, run.now)) && Distinct(NewOf(run.lines, run.now, found))
    ensures forall e :: e in NewOf(run.lines, run.now, found) <==>
      e in EventsOf(run.lines, run.now) && IsNew(e, Start(found, run.now))
  {
    UniqueMembers(Readable(run.lines, Latest(run.now)));
    NewStaysDistinct(EventsOf(run.lines, run.now), Start(found, run.now));
    NewMembers(EventsOf(run.lines, run.now), Start(found, run.now));
  }

  // ----- an alert's lines, read again -----

  function NewIn(runs: seq<Run>, positions: seq<Option<Cursor>>, i: nat): seq<ApiEvent>
    requires i < |runs| < |positions|
  {
    NewOf(runs[i].lines, runs[i].now, positions[i])
  }

  function ReadIn(runs: seq<Run>, i: nat): seq<ApiEvent>
    requires i < |runs|
  {
    EventsOf(runs[i].lines, runs[i].now)
  }

  /** The keys that a window of run `i` holds: of its new lines, and of the earlier ones it re-reads. */
  function FreshKeys(runs: seq<Run>, positions: seq<Option<Cursor>>, i: nat, name: string, end: int): set<Key>
    requires i < |runs| < |positions|
  {
    WindowKeys(NewIn(runs, positions, i), name, [], end - WINDOW, end)
  }

  function EarlierKeys(runs: seq<Run>, positions: seq<Option<Cursor>>, i: nat, name: string, end: int): set<Key>
    requires i < |runs| < |positions|
  {
    WindowKeys(ReadIn(runs, i), name, NewIn(runs, positions, i), end - WINDOW, end)
  }

  lemma FreshOrEarlier(runs: seq<Run>, positions: seq<Option<Cursor>>, i: nat, name: string, end: int)
    requires i < |runs| < |positions|
    ensures FreshKeys(runs, positions, i, name, end) !! EarlierKeys(runs, positions, i, name, end)
  {
    var read, latest := ReadIn(runs, i), NewIn(runs, positions, i);
    EventsAreDistinct(runs[i], positions[i]);
    forall k | k in FreshKeys(runs, positions, i, name, end) ensures k !in EarlierKeys(runs, positions, i, name, end) {
      var e :| e in latest && KeyOf(e) == k;
      forall f | f in read && KeyOf(f) == k ensures f in latest { SameLine(read, e, f); }
    }
  }

  /** Whatever a rate's window holds, run `i` has seen. */
  lemma WindowIsSeen(runs: seq<Run>, positions: seq<Option<Cursor>>, i: nat, name: string, end: int, k: Key)
    requires i < |runs| < |positions| && (positions[i].Some? ==> Modern(positions[i].value))
    requires name == REFUSED || name == BOUNDARY
    requires k in FreshKeys(runs, positions, i, name, end) + EarlierKeys(runs, positions, i, name, end)
    ensures SeenBy(runs, positions, i, k)
  {
    EventsAreDistinct(runs[i], positions[i]);
    StartIsModern(positions[i], runs[i].now);
    if k in FreshKeys(runs, positions, i, name, end) {
      var e :| e in NewIn(runs, positions, i) && InWindowOf(e, name, [], end - WINDOW, end) && KeyOf(e) == k;
      assert CouldCount(e);
    } else {
      var e :| e in ReadIn(runs, i) && KeyOf(e) == k
        && InWindowOf(e, name, NewIn(runs, positions, i), end - WINDOW, end);
      OldIsNotNew(e, Start(positions[i], runs[i].now));
    }
  }

  /** Run `j` reads again every line that the window of run `i` holds. */
  predicate ReadsAgain(runs: seq<Run>, positions: seq<Option<Cursor>>, i: nat, j: nat, name: string, end: int)
    requires i < |runs| < |positions| && j < |runs|
  {
    forall k :: k in FreshKeys(runs, positions, i, name, end) + EarlierKeys(runs, positions, i, name, end) ==>
      k in KeysOf(ReadIn(runs, j))
  }

  lemma AgainIsEarlier(runs: seq<Run>, positions: seq<Option<Cursor>>, i: nat, j: nat, name: string, end: int, k: Key)
    requires History(runs, positions) && (positions[0].Some? ==> Modern(positions[0].value)) && i < j < |runs|
    requires name == REFUSED || name == BOUNDARY
    requires ReadsAgain(runs, positions, i, j, name, end)
    requires k in FreshKeys(runs, positions, i, name, end) + EarlierKeys(runs, positions, i, name, end)
    ensures k in EarlierKeys(runs, positions, j, name, end)
  {
    StaysModern(runs, positions, i);
    StaysModern(runs, positions, j);
    WindowIsSeen(runs, positions, i, name, end, k);
    StaysOld(runs, positions, i, j, k);
    var f :| f in ReadIn(runs, j) && KeyOf(f) == k;
    SameEvent(runs, positions, i, name, end, k, f);
    EventsAreDistinct(runs[j], positions[j]);
    StartIsModern(positions[j], runs[j].now);
    OldIsNotNew(f, Start(positions[j], runs[j].now));
    assert InWindowOf(f, name, NewIn(runs, positions, j), end - WINDOW, end);
  }

  lemma SameEvent(runs: seq<Run>, positions: seq<Option<Cursor>>, i: nat, name: string, end: int, k: Key, f: ApiEvent)
    requires i < |runs| < |positions| && KeyOf(f) == k
    requires k in FreshKeys(runs, positions, i, name, end) + EarlierKeys(runs, positions, i, name, end)
    ensures f.event == name && end - WINDOW <= f.at <= end
  {
    if k in FreshKeys(runs, positions, i, name, end) {
      var e :| e in NewIn(runs, positions, i) && InWindowOf(e, name, [], end - WINDOW, end) && KeyOf(e) == k;
      KeysSay(e, f);
    } else {
      var e :| e in ReadIn(runs, i) && KeyOf(e) == k
        && InWindowOf(e, name, NewIn(runs, positions, i), end - WINDOW, end);
      KeysSay(e, f);
    }
  }

  /** The instants of the new lines of a name, and of the earlier ones, as the rate counts them. */
  function NewInstants(runs: seq<Run>, positions: seq<Option<Cursor>>, i: nat, name: string): seq<int>
    requires i < |runs| < |positions|
  {
    InstantsOf(NewIn(runs, positions, i), name, [])
  }

  function EarlierInstants(runs: seq<Run>, positions: seq<Option<Cursor>>, i: nat, name: string): seq<int>
    requires i < |runs| < |positions|
  {
    InstantsOf(ReadIn(runs, i), name, NewIn(runs, positions, i))
  }

  lemma WindowCounts(runs: seq<Run>, positions: seq<Option<Cursor>>, i: nat, name: string, threshold: int, end: int)
    requires i < |runs| < |positions|
    ensures InWindow(NewInstants(runs, positions, i, name), EarlierInstants(runs, positions, i, name), WINDOW,
                     threshold, end)
            <= |FreshKeys(runs, positions, i, name, end) + EarlierKeys(runs, positions, i, name, end)|
    ensures CountIn(EarlierInstants(runs, positions, i, name), end - WINDOW, end)
            == |EarlierKeys(runs, positions, i, name, end)|
  {
    var earlier := EarlierInstants(runs, positions, i, name);
    EventsAreDistinct(runs[i], positions[i]);
    CountIsKeys(NewIn(runs, positions, i), name, [], end - WINDOW, end);
    CountIsKeys(ReadIn(runs, i), name, NewIn(runs, positions, i), end - WINDOW, end);
    KeepMembers(earlier, earlier, threshold, WINDOW);
    FreshOrEarlier(runs, positions, i, name, end);
  }

  /** All lines of a full window are spent. */
  lemma FullIsSpent(earlier: seq<int>, threshold: int, end: int, t: int)
    requires threshold > 0 && CountIn(earlier, end - WINDOW, end) >= threshold
    requires t in earlier && end - WINDOW <= t <= end
    ensures Spent(earlier, t, threshold, WINDOW)
  {
    var last := LatestIn(earlier, end - WINDOW, end);
    CountWider(earlier, end - WINDOW, end, last - WINDOW, last);
    var k :| 0 <= k < |earlier| && earlier[k] == t;
  }

  lemma SmallerSet<T>(a: set<T>, b: set<T>)
    requires a <= b
    ensures |a| <= |b|
  {
    assert b == a + (b - a);
  }

  /** One incident alerts once: when a window of run `i` reached the threshold and run `j` reads its lines again,
      none of the earlier lines in that window adds to a figure of run `j`, and all of those lines are earlier. */
  lemma IncidentAlertsOnce(runs: seq<Run>, positions: seq<Option<Cursor>>, i: nat, j: nat, name: string, threshold: int,
                           end: int)
    requires History(runs, positions) && (positions[0].Some? ==> Modern(positions[0].value)) && i < j < |runs|
    requires (name == REFUSED || name == BOUNDARY) && threshold > 0 && ReadsAgain(runs, positions, i, j, name, end)
    requires InWindow(NewInstants(runs, positions, i, name), EarlierInstants(runs, positions, i, name), WINDOW,
                      threshold, end)
             >= threshold
    ensures FreshKeys(runs, positions, i, name, end) + EarlierKeys(runs, positions, i, name, end)
            <= EarlierKeys(runs, positions, j, name, end)
    ensures forall t :: t in EarlierInstants(runs, positions, j, name) && end - WINDOW <= t <= end ==>
      t !in UnspentOf(EarlierInstants(runs, positions, j, name), threshold, WINDOW)
  {
    var seen := FreshKeys(runs, positions, i, name, end) + EarlierKeys(runs, positions, i, name, end);
    var earlier := EarlierInstants(runs, positions, j, name);
    forall k | k in seen ensures k in EarlierKeys(runs, positions, j, name, end) {
      AgainIsEarlier(runs, positions, i, j, name, end, k);
    }
    SmallerSet(seen, EarlierKeys(runs, positions, j, name, end));
    WindowCounts(runs, positions, i, name, threshold, end);
    WindowCounts(runs, positions, j, name, threshold, end);
    KeepMembers(earlier, earlier, threshold, WINDOW);
    forall t | t in earlier && end - WINDOW <= t <= end ensures t !in UnspentOf(earlier, threshold, WINDOW) {
      FullIsSpent(earlier, threshold, end, t);
    }
  }

  // ----- a burst that no run reports -----

  const MINUTE := 60_000_000

  /** `n` lines in one minute. */
  function Lines(n: nat, minute: int): seq<int> { seq(n, i => minute * MINUTE) }

  lemma LinesCount(n: nat, minute: int, lo: int, hi: int)
    ensures CountIn(Lines(n, minute), lo, hi) == if lo <= minute * MINUTE <= hi then n else 0
  {
    if lo <= minute * MINUTE <= hi {
      CountEvery(Lines(n, minute), lo, hi);
    } else {
      CountNone(Lines(n, minute), lo, hi);
    }
  }

  lemma {:induction false} KeepNone(s: seq<int>, earlier: seq<int>, threshold: int, window: nat)
    requires forall i :: 0 <= i < |s| ==> Spent(earlier, s[i], threshold, window)
    ensures Keep(s, earlier, threshold, window) == []
  {
    if s != [] { KeepNone(s[1..], earlier, threshold, window); }
  }

  /** With every earlier line spent, the figure is that of the new lines alone. */
  lemma NewAlone(n: nat, minute: int, rest: seq<int>)
    requires n > 0 && UnspentOf(rest, REFUSAL_THRESHOLD, WINDOW) == []
    ensures IsMost(n, Lines(n, minute), rest, WINDOW, REFUSAL_THRESHOLD)
  {
    var new' := Lines(n, minute);
    forall end ensures InWindow(new', rest, WINDOW, REFUSAL_THRESHOLD, end) == CountIn(new', end - WINDOW, end) <= n {
      LinesCount(n, minute, end - WINDOW, end);
    }
    LinesCount(n, minute, minute * MINUTE - WINDOW, minute * MINUTE);
    assert new'[0] in new' && HoldsFresh(new', WINDOW, minute * MINUTE);
  }

  /** The refusals before the runs at minutes eight and twelve. */
  function BeforeEight(): seq<int> { Lines(5, 0) + Lines(1, 4) }

  function BeforeTwelve(): seq<int> { BeforeEight() + Lines(4, 8) }

  lemma EarlierCounts(lo: int, hi: int)
    ensures CountIn(BeforeEight(), lo, hi) == CountIn(Lines(5, 0), lo, hi) + CountIn(Lines(1, 4), lo, hi)
    ensures CountIn(BeforeTwelve(), lo, hi) == CountIn(BeforeEight(), lo, hi) + CountIn(Lines(4, 8), lo, hi)
  {
    CountSplit(Lines(5, 0), Lines(1, 4), lo, hi);
    CountSplit(BeforeEight(), Lines(4, 8), lo, hi);
  }

  lemma BeforeEightIsSpent()
    ensures UnspentOf(BeforeEight(), REFUSAL_THRESHOLD, WINDOW) == []
  {
    var all, end := BeforeEight(), 4 * MINUTE;
    EarlierCounts(end - WINDOW, end);
    LinesCount(5, 0, end - WINDOW, end);
    LinesCount(1, 4, end - WINDOW, end);
    assert all[5] == end && end in all;
    KeepNone(all, all, REFUSAL_THRESHOLD, WINDOW);
  }

  lemma BeforeTwelveIsSpent()
    ensures UnspentOf(BeforeTwelve(), REFUSAL_THRESHOLD, WINDOW) == []
  {
    var all, four, eight := BeforeTwelve(), 4 * MINUTE, 8 * MINUTE;
    EarlierCounts(four - WINDOW, four);
    EarlierCounts(eight - WINDOW, eight);
    LinesCount(5, 0, four - WINDOW, four);
    LinesCount(1, 4, four - WINDOW, four);
    LinesCount(4, 8, four - WINDOW, four);
    LinesCount(5, 0, eight - WINDOW, eight);
    LinesCount(1, 4, eight - WINDOW, eight);
    LinesCount(4, 8, eight - WINDOW, eight);
    assert all[5] == four && four in all && all[6] == eight && eight in all;
    forall i | 0 <= i < |all| ensures Spent(all, all[i], REFUSAL_THRESHOLD, WINDOW) {
      assert all[i] == if i < 5 then 0 else if i == 5 then four else eight;
    }
    KeepNone(all, all, REFUSAL_THRESHOLD, WINDOW);
  }

  /** Eight refusals within five minutes, four read by each of two runs, and neither run reports five: the first
      four are spent, though the run that read them did not alert. */
  lemma BurstCanGoUnreported()
    ensures IsMost(5, Lines(5, 0), [], WINDOW, REFUSAL_THRESHOLD)
    ensures IsMost(4, Lines(4, 8), BeforeEight(), WINDOW, REFUSAL_THRESHOLD)
    ensures IsMost(4, Lines(4, 12), BeforeTwelve(), WINDOW, REFUSAL_THRESHOLD)
    ensures CountIn(BeforeTwelve() + Lines(4, 12), 12 * MINUTE - WINDOW, 12 * MINUTE) == 8 > REFUSAL_THRESHOLD
  {
    NewAlone(5, 0, []);
    BeforeEightIsSpent();
    NewAlone(4, 8, BeforeEight());
    BeforeTwelveIsSpent();
    NewAlone(4, 12, BeforeTwelve());
    var lo, hi := 12 * MINUTE - WINDOW, 12 * MINUTE;
    CountSplit(BeforeTwelve(), Lines(4, 12), lo, hi);
    EarlierCounts(lo, hi);
    LinesCount(5, 0, lo, hi);
    LinesCount(1, 4, lo, hi);
    LinesCount(4, 8, lo, hi);
    LinesCount(4, 12, lo, hi);
  }
}
