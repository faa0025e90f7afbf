/** The two sliding-window algorithms of `scripts/check_shop_operations.py`: which earlier lines an
    alert was already sent for (`_unspent`), and the most lines in any window (`_most_in_any_window`).
    Instants are integers (microseconds). */
module SignalWindows {

  ghost predicate Sorted(s: seq<int>) {
    forall i, j :: 0 <= i <= j < |s| ==> s[i] <= s[j]
  }

  /** How many of `s` lie in the closed window `[lo, hi]`. */
  function CountIn(s: seq<int>, lo: int, hi: int): (n: nat)
    ensures n <= |s|
  {
    if s == [] then 0 else (if lo <= s[0] <= hi then 1 else 0) + CountIn(s[1..], lo, hi)
  }

  /** `t` lies in a window, ending at one of `earlier`, that holds `threshold` or more of `earlier`. */
  ghost predicate Spent(earlier: seq<int>, t: int, threshold: int, window: nat) {
    threshold > 0 && exists end ::
        end in earlier && end - window <= t <= end && CountIn(earlier, end - window, end) >= threshold
  }

  /** The members of `s` that no crossing window of `earlier` holds, in order. */
  ghost function Keep(s: seq<int>, earlier: seq<int>, threshold: int, window: nat): (kept: seq<int>) {
    if s == [] then []
    else (if Spent(earlier, s[0], threshold, window) then [] else [s[0]]) + Keep(s[1..], earlier, threshold, window)
  }

  ghost function UnspentOf(earlier: seq<int>, threshold: int, window: nat): seq<int> {
    Keep(earlier, earlier, threshold, window)
  }

  /** The closed window of width `window` ending at `end` holds one of `recent`. */
  ghost predicate HoldsFresh(recent: seq<int>, window: nat, end: int) {
    exists f :: f in recent && end - window <= f <= end
  }

  // ----- counting -----

  lemma {:induction false} CountSplit(a: seq<int>, b: seq<int>, lo: int, hi: int)
    ensures CountIn(a + b, lo, hi) == CountIn(a, lo, hi) + CountIn(b, lo, hi)
  {
    if a == [] {
      assert a + b == b;
    } else {
      CountSplit(a[1..], b, lo, hi);
      assert (a + b)[1..] == a[1..] + b;
    }
  }

  lemma {:induction false} CountEvery(s: seq<int>, lo: int, hi: int)
    requires forall i :: 0 <= i < |s| ==> lo <= s[i] <= hi
    ensures CountIn(s, lo, hi) == |s|
  {
    if s != [] { CountEvery(s[1..], lo, hi); }
  }

  lemma {:induction false} CountNone(s: seq<int>, lo: int, hi: int)
    requires forall i :: 0 <= i < |s| ==> !(lo <= s[i] <= hi)
    ensures CountIn(s, lo, hi) == 0
  {
    if s != [] { CountNone(s[1..], lo, hi); }
  }

  lemma {:induction false} CountSome(s: seq<int>, lo: int, hi: int, x: int)
    requires x in s && lo <= x <= hi
    ensures CountIn(s, lo, hi) > 0
  {
    if s[0] != x { CountSome(s[1..], lo, hi, x); }
  }

  lemma {:induction false} CountZero(s: seq<int>, lo: int, hi: int)
    requires CountIn(s, lo, hi) == 0
    ensures forall i :: 0 <= i < |s| ==> !(lo <= s[i] <= hi)
  {
    if s != [] {
      CountZero(s[1..], lo, hi);
      assert s == [s[0]] + s[1..];
    }
  }

  lemma {:induction false} CountWider(s: seq<int>, lo: int, hi: int, lo': int, hi': int)
    requires forall i :: 0 <= i < |s| && lo <= s[i] <= hi ==> lo' <= s[i] <= hi'
    ensures CountIn(s, lo, hi) <= CountIn(s, lo', hi')
  {
    if s != [] {
      CountWider(s[1..], lo, hi, lo', hi');
    }
  }

  lemma SplitAt(b: seq<int>, k: nat)
    requires k < |b|
    ensures b == b[..k] + ([b[k]] + b[k + 1..])
    ensures multiset(b) == multiset{b[k]} + multiset(b[..k] + b[k + 1..])
  {
    assert b == b[..k] + ([b[k]] + b[k + 1..]);
    assert multiset(b) == multiset(b[..k]) + (multiset{b[k]} + multiset(b[k + 1..]));
  }

  lemma SplitHead(a: seq<int>)
    requires a != []
    ensures multiset(a) == multiset{a[0]} + multiset(a[1..])
  {
    assert a == [a[0]] + a[1..];
  }

  lemma IndexOf(b: seq<int>, x: int) returns (k: nat)
    requires x in multiset(b)
    ensures k < |b| && b[k] == x
  {
    k :| 0 <= k < |b| && b[k] == x;
  }

  lemma Cancel(x: int, m: multiset<int>, n: multiset<int>)
    requires multiset{x} + m == multiset{x} + n
    ensures m == n
  {
    assert (multiset{x} + m) - multiset{x} == m && (multiset{x} + n) - multiset{x} == n;
  }

  lemma RemoveCommon(a: seq<int>, b: seq<int>) returns (k: nat)
    requires multiset(a) == multiset(b) && a != []
    ensures k < |b| && b[k] == a[0]
    ensures b == b[..k] + ([b[k]] + b[k + 1..])
    ensures multiset(a[1..]) == multiset(b[..k] + b[k + 1..])
  {
    SplitHead(a);
    k := IndexOf(b, a[0]);
    SplitAt(b, k);
    Cancel(a[0], multiset(a[1..]), multiset(b[..k] + b[k + 1..]));
  }

  lemma {:induction false} CountPermuted(a: seq<int>, b: seq<int>, lo: int, hi: int)
    requires multiset(a) == multiset(b)
    ensures CountIn(a, lo, hi) == CountIn(b, lo, hi)
  {
    if a == [] {
      assert b == [] by { assert |multiset(b)| == 0; }
    } else {
      var k := RemoveCommon(a, b);
      CountPermuted(a[1..], b[..k] + b[k + 1..], lo, hi);
      CountSplit(b[..k], b[k + 1..], lo, hi);
      CountSplit(b[..k], [b[k]] + b[k + 1..], lo, hi);
      assert ([b[k]] + b[k + 1..])[1..] == b[k + 1..];
    }
  }

  /** The two bisections of a sorted list delimit exactly the members of the window. */
  lemma {:induction false} CountBetween(s: seq<int>, lo: int, hi: int, left: nat, right: nat)
    requires lo <= hi && left <= |s| && right <= |s|
    requires forall i :: 0 <= i < |s| ==> (i < left <==> s[i] < lo)
    requires forall i :: 0 <= i < |s| ==> (i < right <==> s[i] <= hi)
    ensures left <= right && CountIn(s, lo, hi) == right - left
  {
    if s != [] {
      CountBetween(s[1..], lo, hi, if left == 0 then 0 else left - 1, if right == 0 then 0 else right - 1);
      assert 0 < left <==> s[0] < lo;
      assert 0 < right <==> s[0] <= hi;
    }
  }

  // ----- what remains after `_unspent` -----

  lemma {:induction false} KeepMembers(s: seq<int>, earlier: seq<int>, threshold: int, window: nat)
    ensures forall x :: x in Keep(s, earlier, threshold, window) <==> x in s && !Spent(earlier, x, threshold, window)
    ensures forall lo, hi :: CountIn(Keep(s, earlier, threshold, window), lo, hi) <= CountIn(s, lo, hi)
  {
    if s != [] {
      KeepMembers(s[1..], earlier, threshold, window);
      assert forall x :: x in s <==> x == s[0] || x in s[1..];
      var head := if Spent(earlier, s[0], threshold, window) then [] else [s[0]];
      forall lo, hi ensures CountIn(Keep(s, earlier, threshold, window), lo, hi) <= CountIn(s, lo, hi) {
        CountSplit(head, Keep(s[1..], earlier, threshold, window), lo, hi);
        assert head == [] || (head[0] == s[0] && head[1..] == []);
      }
    }
  }

  lemma {:induction false} LatestIn(s: seq<int>, lo: int, hi: int) returns (last: int)
    requires CountIn(s, lo, hi) > 0
    ensures last in s && lo <= last <= hi
    ensures forall i :: 0 <= i < |s| && lo <= s[i] <= hi ==> s[i] <= last
  {
    if CountIn(s[1..], lo, hi) == 0 {
      last := s[0];
      CountZero(s[1..], lo, hi);
    } else {
      last := LatestIn(s[1..], lo, hi);
      if lo <= s[0] <= hi && s[0] > last { last := s[0]; }
    }
    assert s == [s[0]] + s[1..];
  }

  /** The last line of a full window of kept lines ends a full window of all lines. */
  lemma FullWindow(kept: seq<int>, earlier: seq<int>, threshold: int, window: nat, end: int) returns (last: int)
    requires threshold > 0 && CountIn(kept, end - window, end) >= threshold
    requires forall x :: x in kept ==> x in earlier
    requires forall lo, hi :: CountIn(kept, lo, hi) <= CountIn(earlier, lo, hi)
    ensures last in kept && Spent(earlier, last, threshold, window)
  {
    last := LatestIn(kept, end - window, end);
    CountWider(kept, end - window, end, last - window, last);
    assert last in earlier && CountIn(earlier, last - window, last) >= threshold;
  }

  /** What `_unspent` leaves never fills a window to the threshold. */
  lemma UnspentStaysBelow(earlier: seq<int>, threshold: int, window: nat, end: int)
    requires threshold > 0
    ensures CountIn(UnspentOf(earlier, threshold, window), end - window, end) < threshold
  {
    var kept := UnspentOf(earlier, threshold, window);
    KeepMembers(earlier, earlier, threshold, window);
    if CountIn(kept, end - window, end) >= threshold {
      var last := FullWindow(kept, earlier, threshold, window, end);
    }
  }

  lemma {:induction false} KeepAll(s: seq<int>, earlier: seq<int>, threshold: int, window: nat)
    requires forall x :: x in s ==> !Spent(earlier, x, threshold, window)
    ensures Keep(s, earlier, threshold, window) == s
  {
    if s != [] {
      KeepAll(s[1..], earlier, threshold, window);
    }
  }

  /** A second application changes nothing. */
  lemma UnspentIdempotent(earlier: seq<int>, threshold: int, window: nat)
    ensures var kept := UnspentOf(earlier, threshold, window);
            UnspentOf(kept, threshold, window) == kept
  {
    var kept := UnspentOf(earlier, threshold, window);
    forall x | x in kept ensures !Spent(kept, x, threshold, window) {
      if Spent(kept, x, threshold, window) {
        var end :| end in kept && end - window <= x <= end && CountIn(kept, end - window, end) >= threshold;
        UnspentStaysBelow(earlier, threshold, window, end);
      }
    }
    KeepAll(kept, kept, threshold, window);
  }

  // ----- library calls -----

  /** `bisect.bisect_left` (strict) and `bisect.bisect_right` (not strict) on a sorted list. */
  method Bisect(s: seq<int>, x: int, strict: bool) returns (k: nat)
    requires Sorted(s)
    ensures k <= |s|
    ensures forall i :: 0 <= i < |s| ==> (i < k <==> if strict then s[i] < x else s[i] <= x)
  {
    var lo, hi := 0, |s|;
    while lo < hi
      invariant 0 <= lo <= hi <= |s|
      invariant forall i :: 0 <= i < lo ==> if strict then s[i] < x else s[i] <= x
      invariant forall i :: hi <= i < |s| ==> if strict then s[i] >= x else s[i] > x
    {
      var mid := (lo + hi) / 2;
      if (if strict then s[mid] < x else s[mid] <= x) {
        lo := mid + 1;
      } else {
        hi := mid;
      }
    }
    k := lo;
  }

  lemma Inserted(r: seq<int>, k: nat, x: int)
    requires k <= |r| && Sorted(r)
    requires (forall i :: 0 <= i < k ==> r[i] <= x) && (forall i :: k <= i < |r| ==> x <= r[i])
    ensures Sorted(r[..k] + [x] + r[k..]) && multiset(r[..k] + [x] + r[k..]) == multiset(r) + multiset{x}
  {
    assert r == r[..k] + r[k..];
  }

  /** `sorted`. */
  method SortInstants(s: seq<int>) returns (r: seq<int>)
    ensures Sorted(r) && multiset(r) == multiset(s)
  {
    r := [];
    for i := 0 to |s|
      invariant Sorted(r) && multiset(r) == multiset(s[..i])
    {
      var k := Bisect(r, s[i], false);
      Inserted(r, k, s[i]);
      r := r[..k] + [s[i]] + r[k..];
      assert s[..i + 1] == s[..i] + [s[i]];
    }
    assert s[..|s|] == s;
  }

  // ----- the two algorithms -----

  /** The window ending at `earlier[e]` crosses the threshold and reaches back to `t`. */
  ghost predicate Crosses(earlier: seq<int>, e: nat, t: int, threshold: int, window: nat)
    requires e < |earlier|
  {
    earlier[e] - window <= t <= earlier[e] && CountIn(earlier, earlier[e] - window, earlier[e]) >= threshold
  }

  ghost predicate SpentBefore(earlier: seq<int>, i: nat, t: int, threshold: int, window: nat)
    requires i <= |earlier|
  {
    exists e: nat :: e < i && Crosses(earlier, e, t, threshold, window)
  }

  /** `earlier[e]` ends a crossing window and `marked` is just past it. */
  ghost predicate Frontier(earlier: seq<int>, e: nat, marked: int, threshold: int, window: nat)
    requires e < |earlier|
  {
    && CountIn(earlier, earlier[e] - window, earlier[e]) >= threshold
    && forall j :: 0 <= j < |earlier| ==> (j < marked <==> earlier[j] <= earlier[e])
  }

  lemma SettledAlready(earlier: seq<int>, i: nat, marked: int, j: nat, threshold: int, window: nat)
    requires Sorted(earlier) && i < |earlier| && j < marked <= |earlier| && earlier[i] - window <= earlier[j]
    requires exists e: nat :: e < i && Frontier(earlier, e, marked, threshold, window)
    ensures SpentBefore(earlier, i, earlier[j], threshold, window)
  {
    var e: nat :| e < i && Frontier(earlier, e, marked, threshold, window);
    assert Crosses(earlier, e, earlier[j], threshold, window);
  }

  /** The indices of the window ending at `earlier[i]`, when that window crosses; none otherwise. */
  lemma CrossingIndices(earlier: seq<int>, i: nat, start: nat, last: nat, threshold: int, window: nat)
    requires Sorted(earlier) && i < |earlier| && start <= |earlier| && last <= |earlier|
    requires forall j :: 0 <= j < |earlier| ==> (j < start <==> earlier[j] < earlier[i] - window)
    requires forall j :: 0 <= j < |earlier| ==> (j < last <==> earlier[j] <= earlier[i])
    ensures last - start == CountIn(earlier, earlier[i] - window, earlier[i])
    ensures forall j :: 0 <= j < |earlier| ==>
      (Crosses(earlier, i, earlier[j], threshold, window) <==> start <= j < last && last - start >= threshold)
    ensures last - start >= threshold ==> Frontier(earlier, i, last, threshold, window)
  {
    CountBetween(earlier, earlier[i] - window, earlier[i], start, last);
  }

  lemma SpentNext(earlier: seq<int>, i: nat, t: int, threshold: int, window: nat)
    requires i < |earlier|
    ensures SpentBefore(earlier, i + 1, t, threshold, window) <==>
            SpentBefore(earlier, i, t, threshold, window) || Crosses(earlier, i, t, threshold, window)
  {
    if SpentBefore(earlier, i + 1, t, threshold, window) {
      var e: nat :| e < i + 1 && Crosses(earlier, e, t, threshold, window);
      assert e == i || SpentBefore(earlier, i, t, threshold, window);
    }
  }

  /** `_unspent`: one pass; `marked` is the end of the last crossing window. */
  method Unspent(earlier: seq<int>, threshold: int, window: nat) returns (kept: seq<int>)
    requires Sorted(earlier)
    ensures kept == UnspentOf(earlier, threshold, window)
  {
    if threshold <= 0 || |earlier| < threshold {
      KeepAll(earlier, earlier, threshold, window);
      return earlier;
    }
    var spent := new bool[|earlier|](_ => false);
    var marked := 0;
    for i := 0 to |earlier|
      invariant 0 <= marked <= |earlier|
      invariant forall j :: 0 <= j < |earlier| ==>
        (spent[j] <==> SpentBefore(earlier, i, earlier[j], threshold, window))
      invariant marked == 0 || exists e: nat :: e < i && Frontier(earlier, e, marked, threshold, window)
    {
      var start := Bisect(earlier, earlier[i] - window, true);
      var last := Bisect(earlier, earlier[i], false);
      CrossingIndices(earlier, i, start, last, threshold, window);
      forall j | 0 <= j < |earlier|
        ensures start <= j < marked ==> spent[j]
        ensures SpentBefore(earlier, i + 1, earlier[j], threshold, window) <==>
                spent[j] || (start <= j < last && last - start >= threshold)
      {
        SpentNext(earlier, i, earlier[j], threshold, window);
        if start <= j < marked {
          SettledAlready(earlier, i, marked, j, threshold, window);
        }
      }
      if last - start >= threshold {
        MarkRange(spent, if start < marked then marked else start, last);
        marked := if marked < last then last else marked;
      }
    }
    forall j | 0 <= j < |earlier| ensures spent[j] <==> Spent(earlier, earlier[j], threshold, window) {
      SpentByIndex(earlier, earlier[j], threshold, window);
    }
    UnmarkedKept(earlier, spent[..], earlier, threshold, window);
    kept := Unmarked(earlier, spent[..]);
  }

  /** The instants whose mark is not set. */
  function Unmarked(s: seq<int>, gone: seq<bool>): seq<int>
    requires |gone| == |s|
  {
    if s == [] then [] else (if gone[0] then [] else [s[0]]) + Unmarked(s[1..], gone[1..])
  }

  lemma {:induction false} UnmarkedKept(s: seq<int>, gone: seq<bool>, earlier: seq<int>, threshold: int, window: nat)
    requires |gone| == |s|
    requires forall j :: 0 <= j < |s| ==> (gone[j] <==> Spent(earlier, s[j], threshold, window))
    ensures Unmarked(s, gone) == Keep(s, earlier, threshold, window)
  {
    if s != [] { UnmarkedKept(s[1..], gone[1..], earlier, threshold, window); }
  }

  lemma SpentByIndex(earlier: seq<int>, t: int, threshold: int, window: nat)
    requires threshold > 0
    ensures SpentBefore(earlier, |earlier|, t, threshold, window) <==> Spent(earlier, t, threshold, window)
  {
    if SpentBefore(earlier, |earlier|, t, threshold, window) {
      var e: nat :| e < |earlier| && Crosses(earlier, e, t, threshold, window);
      assert earlier[e] in earlier;
    }
    if Spent(earlier, t, threshold, window) {
      var end :| end in earlier && end - window <= t <= end && CountIn(earlier, end - window, end) >= threshold;
      var e: nat :| e < |earlier| && earlier[e] == end;
      assert Crosses(earlier, e, t, threshold, window);
    }
  }

  method MarkRange(spent: array<bool>, first: nat, last: nat)
    requires last <= spent.Length
    modifies spent
    ensures forall j :: 0 <= j < spent.Length ==> (spent[j] <==> old(spent[j]) || first <= j < last)
  {
    var index := first;
    while index < last
      invariant first <= index && (index <= last || index == first)
      invariant forall j :: 0 <= j < spent.Length ==> (spent[j] <==> old(spent[j]) || first <= j < index)
    {
      spent[index] := true;
      index := index + 1;
    }
  }

  ghost function InWindow(new': seq<int>, rest: seq<int>, window: nat, threshold: int, end: int): nat {
    CountIn(new', end - window, end) + CountIn(UnspentOf(rest, threshold, window), end - window, end)
  }

  lemma MergedCount(instants: seq<int>, unspent: seq<int>, recent: seq<int>, new': seq<int>, lo: int, hi: int)
    requires multiset(instants) == multiset(unspent + recent) && multiset(recent) == multiset(new')
    ensures CountIn(instants, lo, hi) == CountIn(new', lo, hi) + CountIn(unspent, lo, hi)
  {
    CountPermuted(instants, unspent + recent, lo, hi);
    CountPermuted(recent, new', lo, hi);
    CountSplit(unspent, recent, lo, hi);
  }

  /** The merged list counts new lines and unspent earlier ones, whatever order they came in. */
  lemma MergedCounts(new': seq<int>, rest: seq<int>, recent: seq<int>, earlier: seq<int>, instants: seq<int>,
                     window: nat, threshold: int, end: int)
    requires multiset(recent) == multiset(new') && multiset(earlier) == multiset(rest)
    requires multiset(instants) == multiset(UnspentOf(earlier, threshold, window) + recent)
    ensures CountIn(instants, end - window, end) == InWindow(new', rest, window, threshold, end)
  {
    MergedCount(instants, UnspentOf(earlier, threshold, window), recent, new', end - window, end);
    KeepPermuted(earlier, rest, threshold, window, end - window, end);
  }

  /** Ending the window at its last recorded instant loses nothing. */
  lemma LastInstantIsEnough(instants: seq<int>, recent: seq<int>, window: nat, end: int) returns (k: nat)
    requires forall f :: f in recent ==> f in instants
    requires HoldsFresh(recent, window, end)
    ensures k < |instants| && HoldsFresh(recent, window, instants[k])
    ensures 1 <= CountIn(instants, end - window, end) <= CountIn(instants, instants[k] - window, instants[k])
  {
    var f :| f in recent && end - window <= f <= end;
    CountSome(instants, end - window, end, f);
    var last := LatestIn(instants, end - window, end);
    k :| 0 <= k < |instants| && instants[k] == last;
    CountWider(instants, end - window, end, last - window, last);
  }

  /** `most` is reached by a window that holds a recent line, and by no such window exceeded. */
  ghost predicate IsMost(most: nat, new': seq<int>, rest: seq<int>, window: nat, threshold: int) {
    && (forall end :: HoldsFresh(new', window, end) ==> InWindow(new', rest, window, threshold, end) <= most)
    && if new' == [] then most == 0
       else exists end :: HoldsFresh(new', window, end) && InWindow(new', rest, window, threshold, end) == most
  }

  lemma TriedEndsAreEnough(new': seq<int>, rest: seq<int>, recent: seq<int>, earlier: seq<int>,
                           instants: seq<int>, window: nat, threshold: int, most: nat, at: int)
    requires new' != [] && multiset(recent) == multiset(new') && multiset(earlier) == multiset(rest)
    requires multiset(instants) == multiset(UnspentOf(earlier, threshold, window) + recent)
    requires forall k :: 0 <= k < |instants| && HoldsFresh(recent, window, instants[k]) ==>
      CountIn(instants, instants[k] - window, instants[k]) <= most
    requires most == 0 || (HoldsFresh(recent, window, at) && CountIn(instants, at - window, at) == most)
    ensures IsMost(most, new', rest, window, threshold)
  {
    SameMembers(recent, new');
    assert forall f :: f in recent ==> f in instants by {
      SameMembers(instants, UnspentOf(earlier, threshold, window) + recent);
    }
    forall end | HoldsFresh(new', window, end) ensures 1 <= InWindow(new', rest, window, threshold, end) <= most {
      MergedCounts(new', rest, recent, earlier, instants, window, threshold, end);
      var k := LastInstantIsEnough(instants, recent, window, end);
    }
    assert new'[0] in new' && HoldsFresh(new', window, new'[0]);
    MergedCounts(new', rest, recent, earlier, instants, window, threshold, at);
  }

  lemma SameMembers(a: seq<int>, b: seq<int>)
    requires multiset(a) == multiset(b)
    ensures forall x :: x in a <==> x in b
  {
    assert forall x :: (x in a <==> x in multiset(a)) && (x in b <==> x in multiset(b));
  }

  /** `_most_in_any_window`, for the instants of one event name: `new'` are this run's lines, `rest`
      the others. Only ends at recorded instants are tried, yet the figure is the maximum over every
      end point whose window holds a new line. */
  method MostInAnyWindow(new': seq<int>, rest: seq<int>, window: nat, threshold: int) returns (most: nat)
    ensures IsMost(most, new', rest, window, threshold)
  {
    if new' == [] {
      return 0;
    }
    var recent := SortInstants(new');
    var earlier := SortInstants(rest);
    var unspent := Unspent(earlier, threshold, window);
    var instants := SortInstants(unspent + recent);
    most := 0;
    ghost var at := 0;
    for i := 0 to |instants|
      invariant forall k :: 0 <= k < i && HoldsFresh(recent, window, instants[k]) ==>
        CountIn(instants, instants[k] - window, instants[k]) <= most
      invariant most == 0 || (HoldsFresh(recent, window, at) && CountIn(instants, at - window, at) == most)
    {
      var end := instants[i];
      if i == 0 || instants[i - 1] != end { // `sorted(set(instants))` tries each instant once
        var reaches := Bisect(recent, end - window, true);
        if reaches < |recent| && recent[reaches] <= end {
          assert recent[reaches] in recent && end - window <= recent[reaches];
          var right := Bisect(instants, end, false);
          var left := Bisect(instants, end - window, true);
          CountBetween(instants, end - window, end, left, right);
          if right - left > most {
            most, at := right - left, end;
          }
        }
      }
    }
    TriedEndsAreEnough(new', rest, recent, earlier, instants, window, threshold, most, at);
  }

  /** The kept instants do not depend on the order the lines were read in. */
  lemma KeepPermuted(a: seq<int>, b: seq<int>, threshold: int, window: nat, lo: int, hi: int)
    requires multiset(a) == multiset(b)
    ensures CountIn(UnspentOf(a, threshold, window), lo, hi) == CountIn(UnspentOf(b, threshold, window), lo, hi)
  {
    forall l, h { CountPermuted(a, b, l, h); }
    assert forall x :: (x in a <==> x in multiset(a)) && (x in b <==> x in multiset(b));
    assert forall t :: Spent(a, t, threshold, window) <==> Spent(b, t, threshold, window);
    KeepSame(b, a, b, threshold, window);
    KeepShuffled(a, b, a, threshold, window);
    CountPermuted(UnspentOf(a, threshold, window), UnspentOf(b, threshold, window), lo, hi);
  }

  lemma {:induction false} KeepSame(s: seq<int>, a: seq<int>, b: seq<int>, threshold: int, window: nat)
    requires forall t :: Spent(a, t, threshold, window) <==> Spent(b, t, threshold, window)
    ensures Keep(s, a, threshold, window) == Keep(s, b, threshold, window)
  {
    if s != [] {
      KeepSame(s[1..], a, b, threshold, window);
    }
  }

  lemma {:induction false} KeepSplit(s: seq<int>, t: seq<int>, earlier: seq<int>, threshold: int, window: nat)
    ensures Keep(s + t, earlier, threshold, window)
            == Keep(s, earlier, threshold, window) + Keep(t, earlier, threshold, window)
  {
    if s == [] {
      assert s + t == t;
    } else {
      var head := if Spent(earlier, s[0], threshold, window) then [] else [s[0]];
      calc {
        Keep(s + t, earlier, threshold, window);
        { assert (s + t)[0] == s[0] && (s + t)[1..] == s[1..] + t; }
        head + Keep(s[1..] + t, earlier, threshold, window);
        { KeepSplit(s[1..], t, earlier, threshold, window); }
        head + (Keep(s[1..], earlier, threshold, window) + Keep(t, earlier, threshold, window));
        (head + Keep(s[1..], earlier, threshold, window)) + Keep(t, earlier, threshold, window);
      }
    }
  }

  lemma {:induction false} KeepShuffled(s: seq<int>, t: seq<int>, earlier: seq<int>, threshold: int, window: nat)
    requires multiset(s) == multiset(t)
    ensures multiset(Keep(s, earlier, threshold, window)) == multiset(Keep(t, earlier, threshold, window))
  {
    if s == [] {
      assert t == [] by { assert |multiset(t)| == 0; }
    } else {
      var k := RemoveCommon(s, t);
      KeepShuffled(s[1..], t[..k] + t[k + 1..], earlier, threshold, window);
      KeepSplit(t[..k], t[k + 1..], earlier, threshold, window);
      KeepSplit(t[..k], [t[k]] + t[k + 1..], earlier, threshold, window);
      assert ([t[k]] + t[k + 1..])[1..] == t[k + 1..];
    }
  }
}
