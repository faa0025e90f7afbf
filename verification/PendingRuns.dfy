/** Runs of the relay over an unreliable send and an unreliable disk: `prepare` in
    `scripts/shop_alert_pending.py` and the sends around it in `scripts/relay_shop_alert.py`. */
module PendingRuns {
  import opened Basics
  import opened AlertText
  import opened PendingAlerts
  import opened PendingMessages
  import opened PendingCover

  /** One run: what its check says, and whether the write before the send, the send, and the write after
      it succeed. Without a pending file no write does. */
  datatype Trial = Trial(current: Option<string>, checks: seq<string>, now: int, keeps: bool, sends: bool, saves: bool)

  /** The state `prepare` writes before it defers the current alert. */
  function Deferring(state: PendingState, t: Trial): PendingState {
    AfterSuccess(state, [], false, t.current, t.checks, t.now)
  }

  /** `prepare`: the message, and the file when it is sent. */
  function Prepared(state: PendingState, t: Trial): (Composition, PendingState) {
    var c := ComposeOf(t.current, state, MAX_MESSAGE, CEILING, t.now, true);
    if !c.deferred then (c, state)
    else if t.keeps then (c, Deferring(state, t))
    else (ComposeOf(t.current, state, MAX_MESSAGE, CEILING, t.now, false), state)
  }

  /** What the run writes after the send. */
  function Recorded(state: PendingState, t: Trial, c: Composition): PendingState {
    if t.sends
    then AfterSuccess(state, c.carried, c.reportedDropped, if c.deferred then t.current else None, t.checks, t.now)
    else AfterFailure(state, t.current, t.checks, t.now, c.carried, c.deferred)
  }

  predicate Records(state: PendingState, t: Trial, c: Composition) {
    c.text.Some? && t.saves && !(t.sends && Recorded(state, t, c) == state)
  }

  function FileAfter(state: PendingState, t: Trial, c: Composition, early: PendingState): PendingState {
    if Records(state, t, c) then Recorded(state, t, c) else early
  }

  function After(state: PendingState, t: Trial): PendingState {
    var (c, early) := Prepared(state, t);
    FileAfter(state, t, c, early)
  }

  class PendingFile {
    var saved: PendingState

    constructor (s: PendingState)
      ensures saved == s
    {
      saved := s;
    }

    /** `try_save`. */
    method TrySave(next: PendingState, writable: bool) returns (ok: bool)
      modifies this
      ensures ok == writable && saved == if writable then next else old(saved)
    {
      if writable { saved := next; }
      return writable;
    }

    /** The alert is deferred only once it is kept. */
    method Prepare(state: PendingState, t: Trial) returns (c: Composition, givenUp: bool)
      requires state == saved
      modifies this
      ensures (c, saved) == Prepared(old(saved), t)
    {
      c := Compose(t.current, state, MAX_MESSAGE, CEILING, t.now, true);
      if !c.deferred { return c, false; }
      var kept := AfterSuccess(state, [], false, t.current, t.checks, t.now);
      var ok := TrySave(kept, t.keeps);
      if ok { return c, false; }
      c := Compose(t.current, state, MAX_MESSAGE, CEILING, t.now, false);
      return c, true;
    }

    /** One run of the relay, from the file to the file. */
    method Relay(t: Trial) returns (c: Composition, delivered: bool)
      modifies this
      ensures saved == After(old(saved), t) && c == Prepared(old(saved), t).0 && delivered == (c.text.Some? && t.sends)
    {
      var state := saved;
      var givenUp;
      c, givenUp := Prepare(state, t);
      if c.text.None? { return c, false; }
      if t.sends {
        var remaining := AfterSuccess(state, c.carried, c.reportedDropped, if c.deferred then t.current else None,
                                      t.checks, t.now);
        if remaining != state { var _ := TrySave(remaining, t.saves); }
        return c, true;
      }
      var failed := AfterFailure(state, t.current, t.checks, t.now, c.carried, c.deferred);
      var _ := TrySave(failed, t.saves);
      return c, false;
    }
  }

  // ----- one run as one change of the list -----

  /** The positions that leave, those that were tried, the alerts that join, and the count before capping. */
  datatype Change = Change(gone: seq<nat>, tried: seq<nat>, kept: seq<PendingAlert>, dropped: int)

  function Joining(state: PendingState, t: Trial, attempts: int): seq<PendingAlert> {
    if t.current.None? then [] else KeptOf(PartsFor(t.current.value, t.checks), t.now, attempts, Texts(state.alerts))
  }

  function ChangeFor(state: PendingState, t: Trial, c: Composition): Change {
    if Records(state, t, c) then
      if t.sends then Change(c.carried, [], if c.deferred then Joining(state, t, 0) else [],
                             if c.reportedDropped then 0 else state.dropped)
      else Change([], c.carried, Joining(state, t, if c.deferred then 0 else 1), state.dropped)
    else Change([], [], if c.deferred then Joining(state, t, 0) else [], state.dropped)
  }

  function ChangeOf(state: PendingState, t: Trial): Change {
    ChangeFor(state, t, Prepared(state, t).0)
  }

  function Uncapped(alerts: seq<PendingAlert>, change: Change, now: int): seq<PendingAlert> {
    Left(Tried(alerts, change.tried, now), change.gone) + change.kept
  }

  function Applied(alerts: seq<PendingAlert>, change: Change, now: int): PendingState {
    Capped(Uncapped(alerts, change, now), change.dropped)
  }

  lemma NoneTried(alerts: seq<PendingAlert>, now: int)
    ensures Tried(alerts, [], now) == alerts
  {
  }

  lemma {:induction false} NoneGone(alerts: seq<PendingAlert>)
    ensures Left(alerts, []) == alerts
  {
    if alerts != [] {
      NoneGone(alerts[..|alerts| - 1]);
    }
  }

  lemma TriedTexts(alerts: seq<PendingAlert>, attempted: seq<nat>, now: int)
    ensures Texts(Tried(alerts, attempted, now)) == Texts(alerts)
  {
    var tried := Tried(alerts, attempted, now);
    forall text | text in Texts(alerts) ensures text in Texts(tried) {
      var i :| 0 <= i < |alerts| && alerts[i].text == text;
      assert tried[i] in tried;
    }
  }

  lemma RecordedShape(state: PendingState, t: Trial, c: Composition)
    requires |state.alerts| <= MAX_PENDING && (c.deferred ==> t.current.Some?)
    ensures FileAfter(state, t, c, if c.deferred then Deferring(state, t) else state)
            == Applied(state.alerts, ChangeFor(state, t, c), t.now)
  {
    NoneTried(state.alerts, t.now);
    NoneGone(state.alerts);
    NoneGone(Tried(state.alerts, c.carried, t.now));
    TriedTexts(state.alerts, c.carried, t.now);
    assert state.alerts + [] == state.alerts && Left(state.alerts, c.carried) + [] == Left(state.alerts, c.carried);
    assert Tried(state.alerts, c.carried, t.now) + [] == Tried(state.alerts, c.carried, t.now);
  }

  lemma PreparedShape(state: PendingState, t: Trial)
    ensures var (c, early) := Prepared(state, t);
      && early == (if c.deferred then Deferring(state, t) else state)
      && (c.deferred ==> t.current.Some? && t.keeps && c.text.Some?)
      && (c == ComposeOf(t.current, state, MAX_MESSAGE, CEILING, t.now, true)
          || c == ComposeOf(t.current, state, MAX_MESSAGE, CEILING, t.now, false))
  {
    ComposeFlags(t.current, state, t.now, true);
    ComposeFlags(t.current, state, t.now, false);
  }

  lemma ComposeFlags(current: Option<string>, state: PendingState, now: int, defer: bool)
    ensures var c := ComposeOf(current, state, MAX_MESSAGE, CEILING, now, defer);
      && (c.deferred ==> defer && current.Some? && c.text.Some?) && (defer ==> !c.keptClipped)
  {
    var first, words, entries := First(current, MAX_MESSAGE), PartsOf(current), EntriesOf(state.alerts);
    ComposedFlags(first, words, entries, state, now, defer);
    PlanFlags(first, words, state.alerts, entries, now, defer);
  }

  lemma PlanFlags(first: seq<string>, words: set<string>, alerts: seq<PendingAlert>, entries: seq<string>, now: int,
                  defer: bool)
    requires |entries| == |alerts|
    ensures PlanFor(first, words, alerts, entries, MAX_MESSAGE, now, defer).deferred ==> defer && first != []
  {
  }

  /** What a run does to the file: some alerts leave, some are tried once more, some join, the oldest
      beyond the limit are dropped and counted. */
  lemma AfterShape(state: PendingState, t: Trial)
    requires |state.alerts| <= MAX_PENDING
    ensures After(state, t) == Applied(state.alerts, ChangeOf(state, t), t.now)
  {
    PreparedShape(state, t);
    RecordedShape(state, t, Prepared(state, t).0);
  }

  // ----- conservation -----

  function TextList(alerts: seq<PendingAlert>): (r: seq<string>)
    ensures |r| == |alerts|
  {
    seq(|alerts|, i requires 0 <= i < |alerts| => alerts[i].text)
  }

  /** The kept texts, each as often as it is kept. */
  function Words(alerts: seq<PendingAlert>): multiset<string> {
    multiset(TextList(alerts))
  }

  lemma WordsSplit(a: seq<PendingAlert>, b: seq<PendingAlert>)
    ensures Words(a + b) == Words(a) + Words(b)
  {
    assert TextList(a + b) == TextList(a) + TextList(b);
  }

  function Gone(alerts: seq<PendingAlert>, gone: seq<nat>): seq<PendingAlert> {
    if alerts == [] then []
    else Gone(alerts[..|alerts| - 1], gone) + if |alerts| - 1 in gone then [alerts[|alerts| - 1]] else []
  }

  lemma {:induction false} LeftAndGone(alerts: seq<PendingAlert>, gone: seq<nat>)
    ensures Words(Left(alerts, gone)) + Words(Gone(alerts, gone)) == Words(alerts)
  {
    if alerts != [] {
      var sooner, last := alerts[..|alerts| - 1], [alerts[|alerts| - 1]];
      LeftAndGone(sooner, gone);
      WordsSplit(sooner, last);
      assert sooner + last == alerts;
      WordsSplit(Left(sooner, gone), last);
      WordsSplit(Gone(sooner, gone), last);
      assert Left(sooner, gone) + [] == Left(sooner, gone) && Gone(sooner, gone) + [] == Gone(sooner, gone);
    }
  }

  lemma {:induction false} GoneTried(alerts: seq<PendingAlert>, tried: seq<nat>, now: int, gone: seq<nat>)
    requires tried == [] || gone == []
    ensures Words(Left(Tried(alerts, tried, now), gone)) + Words(Gone(alerts, gone)) == Words(alerts)
  {
    if tried == [] {
      NoneTried(alerts, now);
    }
    LeftAndGone(Tried(alerts, tried, now), gone);
    assert TextList(Tried(alerts, tried, now)) == TextList(alerts);
    if gone == [] {
      NoneGoneAtAll(alerts);
      NoneGone(Tried(alerts, tried, now));
    }
  }

  lemma {:induction false} NoneGoneAtAll(alerts: seq<PendingAlert>)
    ensures Gone(alerts, []) == []
  {
    if alerts != [] {
      NoneGoneAtAll(alerts[..|alerts| - 1]);
    }
  }

  /** How many of the oldest alerts are dropped. */
  function Excess(n: nat): nat {
    if n > MAX_PENDING then n - MAX_PENDING else 0
  }

  function Overflow(alerts: seq<PendingAlert>, change: Change, now: int): seq<PendingAlert> {
    var all := Uncapped(alerts, change, now);
    all[..Excess(|all|)]
  }

  lemma Conserved(alerts: seq<PendingAlert>, change: Change, now: int)
    requires change.tried == [] || change.gone == []
    ensures var after := Applied(alerts, change, now);
      && Words(alerts) + Words(change.kept)
        == Words(after.alerts) + Words(Gone(alerts, change.gone)) + Words(Overflow(alerts, change, now))
      && after.dropped == change.dropped + |Words(Overflow(alerts, change, now))| && |after.alerts| <= MAX_PENDING
  {
    var all := Uncapped(alerts, change, now);
    var left := Left(Tried(alerts, change.tried, now), change.gone);
    GoneTried(alerts, change.tried, now, change.gone);
    WordsSplit(left, change.kept);
    CappedSplit(all, change.dropped);
    Regroup(Words(alerts), Words(left), Words(Gone(alerts, change.gone)), Words(change.kept),
            Words(all[..Excess(|all|)]),
            Words(Capped(all, change.dropped).alerts));
  }

  lemma CappedSplit(all: seq<PendingAlert>, dropped: int)
    ensures var after := Capped(all, dropped);
      Words(all) == Words(all[..Excess(|all|)]) + Words(after.alerts)
      && after.dropped == dropped + |Words(all[..Excess(|all|)])|
  {
    var cut := Excess(|all|);
    WordsSplit(all[..cut], all[cut..]);
    assert all == all[..cut] + all[cut..] && Capped(all, dropped).alerts == all[cut..];
  }

  lemma Regroup(w: multiset<string>, l: multiset<string>, g: multiset<string>, k: multiset<string>, o: multiset<string>,
                r: multiset<string>)
    requires l + g == w && l + k == o + r
    ensures w + k == r + g + o
  {
    assert forall x :: (w + k)[x] == (l + k)[x] + g[x];
  }

  // ----- what a delivered message settles -----

  /** The texts of the alerts that the message cuts off. */
  function CutTexts(alerts: seq<PendingAlert>, current: Option<string>, deferred: bool): set<string> {
    set a | a in alerts && CutOff(current, deferred, a.text) :: a.text
  }

  /** The alerts with one of the texts, or the others. */
  function Which(alerts: seq<PendingAlert>, texts: set<string>, among: bool): seq<PendingAlert> {
    if alerts == [] then []
    else
      var last := alerts[|alerts| - 1];
      Which(alerts[..|alerts| - 1], texts, among) + if (last.text in texts) == among then [last] else []
  }

  lemma {:induction false} WhichSplit(alerts: seq<PendingAlert>, texts: set<string>)
    ensures Words(Which(alerts, texts, false)) + Words(Which(alerts, texts, true)) == Words(alerts)
  {
    if alerts != [] {
      var sooner, last := alerts[..|alerts| - 1], [alerts[|alerts| - 1]];
      var others, some := Which(sooner, texts, false), Which(sooner, texts, true);
      WhichSplit(sooner, texts);
      WordsSplit(sooner, last);
      assert sooner + last == alerts;
      WordsSplit(others, last);
      WordsSplit(some, last);
      assert others + [] == others && some + [] == some;
    }
  }

  lemma {:induction false} WhichMembers(alerts: seq<PendingAlert>, texts: set<string>, among: bool)
    ensures forall a :: a in Which(alerts, texts, among) ==> a in alerts && (a.text in texts) == among
  {
    if alerts != [] {
      WhichMembers(alerts[..|alerts| - 1], texts, among);
    }
  }

  /** What a run of runs has kept; what has left the list beside a delivered message, said by it or cut off in it;
      and what was dropped, and reported as dropped. */
  datatype Ledger = Ledger(kept: multiset<string>, delivered: multiset<string>, cutOff: multiset<string>,
                           dropped: multiset<string>, reported: int)

  /** What the run settles, and which of it the message cuts off. */
  function Settled(state: PendingState, t: Trial): seq<PendingAlert> {
    Gone(state.alerts, ChangeOf(state, t).gone)
  }

  function CutBy(state: PendingState, t: Trial): set<string> {
    CutTexts(Settled(state, t), t.current, Prepared(state, t).0.deferred)
  }

  function Entered(state: PendingState, t: Trial): Ledger {
    var change, settled, cuts := ChangeOf(state, t), Settled(state, t), CutBy(state, t);
    Ledger(Words(change.kept), Words(Which(settled, cuts, false)), Words(Which(settled, cuts, true)),
           Words(Overflow(state.alerts, change, t.now)), state.dropped - change.dropped)
  }

  function Total(a: Ledger, b: Ledger): Ledger {
    Ledger(a.kept + b.kept, a.delivered + b.delivered, a.cutOff + b.cutOff, a.dropped + b.dropped,
           a.reported + b.reported)
  }

  function LedgerOf(state: PendingState, ts: seq<Trial>): Ledger
    decreases |ts|
  {
    if ts == [] then Ledger(multiset{}, multiset{}, multiset{}, multiset{}, 0)
    else Total(Entered(state, ts[0]), LedgerOf(After(state, ts[0]), ts[1..]))
  }

  function AfterAll(state: PendingState, ts: seq<Trial>): PendingState
    decreases |ts|
  {
    if ts == [] then state else AfterAll(After(state, ts[0]), ts[1..])
  }

  predicate Balances(before: PendingState, after: PendingState, ledger: Ledger) {
    && Words(before.alerts) + ledger.kept == Words(after.alerts) + ledger.delivered + ledger.cutOff + ledger.dropped
    && after.dropped == before.dropped + |ledger.dropped| - ledger.reported && |after.alerts| <= MAX_PENDING
  }

  lemma SplitGone(w: multiset<string>, k: multiset<string>, r: multiset<string>, g: multiset<string>,
                  o: multiset<string>, said: multiset<string>, cut: multiset<string>)
    requires w + k == r + g + o && said + cut == g
    ensures w + k == r + said + cut + o
  {
  }

  lemma RunBalances(state: PendingState, t: Trial)
    requires |state.alerts| <= MAX_PENDING
    ensures Balances(state, After(state, t), Entered(state, t))
  {
    var change, settled, cuts := ChangeOf(state, t), Settled(state, t), CutBy(state, t);
    AfterShape(state, t);
    Conserved(state.alerts, change, t.now);
    WhichSplit(settled, cuts);
    SplitGone(Words(state.alerts), Words(change.kept), Words(After(state, t).alerts), Words(settled),
              Words(Overflow(state.alerts, change, t.now)), Words(Which(settled, cuts, false)),
              Words(Which(settled, cuts, true)));
  }

  lemma BalancesAdd(a: PendingState, b: PendingState, c: PendingState, first: Ledger, second: Ledger)
    requires Balances(a, b, first) && Balances(b, c, second)
    ensures Balances(a, c, Total(first, second))
  {
    var wa, wb, wc := Words(a.alerts), Words(b.alerts), Words(c.alerts);
    Telescope(wa, wb, wc, first, second);
  }

  lemma Telescope(a: multiset<string>, b: multiset<string>, c: multiset<string>, first: Ledger, second: Ledger)
    requires a + first.kept == b + first.delivered + first.cutOff + first.dropped
    requires b + second.kept == c + second.delivered + second.cutOff + second.dropped
    ensures var sum := Total(first, second); a + sum.kept == c + sum.delivered + sum.cutOff + sum.dropped
  {
    assert forall x :: a[x] + first.kept[x] == (a + first.kept)[x] && b[x] + second.kept[x] == (b + second.kept)[x];
  }

  /** Over all runs, whatever fails: every text ever kept was said by a delivered message, was cut off in one, is
      still queued or was dropped, exactly once; the count of dropped alerts is those dropped less those
      reported; the queue is bounded. */
  lemma {:induction false} Conservation(state: PendingState, ts: seq<Trial>)
    requires |state.alerts| <= MAX_PENDING
    ensures Balances(state, AfterAll(state, ts), LedgerOf(state, ts))
    decreases |ts|
  {
    if ts != [] {
      RunBalances(state, ts[0]);
      Conservation(After(state, ts[0]), ts[1..]);
      BalancesAdd(state, After(state, ts[0]), AfterAll(state, ts), Entered(state, ts[0]),
                  LedgerOf(After(state, ts[0]), ts[1..]));
    }
  }

  lemma {:induction false} GoneAt(alerts: seq<PendingAlert>, gone: seq<nat>, a: PendingAlert)
    requires a in Gone(alerts, gone)
    ensures exists i :: 0 <= i < |alerts| && i in gone && alerts[i] == a
  {
    var sooner := alerts[..|alerts| - 1];
    if a in Gone(sooner, gone) {
      GoneAt(sooner, gone, a);
      var i :| 0 <= i < |sooner| && i in gone && sooner[i] == a;
      assert alerts[i] == a;
    } else {
      assert |alerts| - 1 in gone && alerts[|alerts| - 1] == a;
    }
  }

  lemma GoneIsSettled(state: PendingState, t: Trial, i: nat)
    requires i in ChangeOf(state, t).gone
    ensures t.sends && i < |state.alerts| && Settles(Prepared(state, t).0, t.current, state.alerts[i])
  {
    PreparedShape(state, t);
    if Prepared(state, t).0 == ComposeOf(t.current, state, MAX_MESSAGE, CEILING, t.now, true) {
      CarriedIsDelivered(t.current, state, t.now, true, i);
    } else {
      CarriedIsDelivered(t.current, state, t.now, false, i);
    }
  }

  lemma EnteredIsSettled(state: PendingState, t: Trial, cut: bool, text: string) returns (a: PendingAlert)
    requires text in Words(Which(Settled(state, t), CutBy(state, t), cut))
    ensures a in state.alerts && a.text == text && t.sends && Settles(Prepared(state, t).0, t.current, a)
    ensures CutOff(t.current, Prepared(state, t).0.deferred, text) == cut
  {
    var settled := Settled(state, t);
    a := ListedAlert(Which(settled, CutBy(state, t), cut), text);
    WhichMembers(settled, CutBy(state, t), cut);
    GoneAt(state.alerts, ChangeOf(state, t).gone, a);
    var i :| 0 <= i < |state.alerts| && i in ChangeOf(state, t).gone && state.alerts[i] == a;
    GoneIsSettled(state, t, i);
  }

  lemma ListedAlert(alerts: seq<PendingAlert>, text: string) returns (a: PendingAlert)
    requires text in Words(alerts)
    ensures a in alerts && a.text == text
  {
    assert text in TextList(alerts);
    var i :| 0 <= i < |alerts| && TextList(alerts)[i] == text;
    a := alerts[i];
  }

  /** What the ledger calls delivered was: a sent message said it. */
  lemma LedgerIsTrue(state: PendingState, t: Trial, text: string)
    requires text in Entered(state, t).delivered
    requires forall a :: a in state.alerts ==> Storable(a)
    ensures t.sends && Prepared(state, t).0.text.Some? && Said(Prepared(state, t).0.text.value, text)
  {
    var a := EnteredIsSettled(state, t, false, text);
  }

  /** What it calls cut off was covered by a current alert longer than the limit, which the sent message starts with
      but clips before all of the kept alert's lines. */
  lemma CutOffIsExact(state: PendingState, t: Trial, text: string)
    requires text in Entered(state, t).cutOff
    ensures t.sends && t.current.Some? && |t.current.value| > MAX_MESSAGE && text in PartsOf(t.current)
    ensures var message, start := Prepared(state, t).0.text, Clip(t.current.value, MAX_MESSAGE);
      message.Some? && start <= message.value && !Whole(start, text)
  {
    var a := EnteredIsSettled(state, t, true, text);
    CoveredExactly(t.current.value, text);
  }

  /** The count of dropped alerts goes back to zero only when a sent message said it. */
  lemma CountIsClearedByItsReport(state: PendingState, t: Trial)
    requires ChangeOf(state, t).dropped != state.dropped
    ensures var c := Prepared(state, t).0;
      ChangeOf(state, t).dropped == 0 && t.sends && c.text.Some? && Contains(c.text.value, DroppedNote(state.dropped))
  {
    PreparedShape(state, t);
    if Prepared(state, t).0 == ComposeOf(t.current, state, MAX_MESSAGE, CEILING, t.now, true) {
      ReportSaysHowMany(t.current, state, t.now, true);
    } else {
      ReportSaysHowMany(t.current, state, t.now, false);
    }
  }

  // ----- no loss -----

  /** Each part is kept already or joins, once; what joins is new. */
  lemma {:induction false} KeptOfCovers(parts: seq<Part>, now: int, attempts: int, present: set<string>)
    ensures var kept := KeptOf(parts, now, attempts, present);
      && |kept| <= |parts| && Texts(kept) !! present
      && (forall k :: 0 <= k < |parts| ==>
            Clip(parts[k].text, KEPT) in present || Clip(parts[k].text, KEPT) in Texts(kept))
      && ((exists k :: 0 <= k < |parts| && Clip(parts[k].text, KEPT) in present) ==> |kept| < |parts|)
  {
    if parts != [] {
      var sooner, last := parts[..|parts| - 1], parts[|parts| - 1];
      KeptOfCovers(sooner, now, attempts, present);
      var before, kept := KeptOf(sooner, now, attempts, present), KeptOf(parts, now, attempts, present);
      assert kept != before ==> Texts(kept) == Texts(before) + {Clip(last.text, KEPT)} by {
        if kept != before { TextsSplit(before, kept[|before|..]); }
      }
      forall k | 0 <= k < |parts|
        ensures Clip(parts[k].text, KEPT) in present || Clip(parts[k].text, KEPT) in Texts(kept)
      {
        if k < |parts| - 1 { assert sooner[k] == parts[k]; }
      }
      if k :| 0 <= k < |parts| && Clip(parts[k].text, KEPT) in present {
        if k < |parts| - 1 { assert sooner[k] == parts[k]; }
      }
    }
  }

  lemma TextsSplit(a: seq<PendingAlert>, b: seq<PendingAlert>)
    ensures Texts(a + b) == Texts(a) + Texts(b)
  {
    forall x | x in Texts(a) + Texts(b) ensures x in Texts(a + b) {
      if i :| 0 <= i < |a| && a[i].text == x {
        assert (a + b)[i] in a + b;
      } else {
        var j :| 0 <= j < |b| && b[j].text == x;
        assert (a + b)[|a| + j] in a + b;
      }
    }
  }

  /** `text`, if it is kept, is not only among the alerts that capping drops when `joining` more join. */
  predicate StaysIn(alerts: seq<PendingAlert>, joining: nat, text: string) {
    text !in Texts(alerts) || exists i :: Excess(|alerts| + joining) <= i < |alerts| && alerts[i].text == text
  }

  lemma CappedTexts(left: seq<PendingAlert>, kept: seq<PendingAlert>, dropped: int, text: string)
    requires |kept| <= 2
    ensures text in Texts(Capped(left + kept, dropped).alerts)
            <==> text in Texts(kept) || exists i :: Excess(|left| + |kept|) <= i < |left| && left[i].text == text
  {
    var cut := Excess(|left| + |kept|);
    assert Capped(left + kept, dropped).alerts == left[cut..] + kept;
    TextsSplit(left[cut..], kept);
    if i :| cut <= i < |left| && left[i].text == text { assert left[cut..][i - cut] in left[cut..]; }
  }

  /** When nothing leaves the list, a part of the current alert ends up queued exactly when it stays. */
  lemma PartIsQueued(alerts: seq<PendingAlert>, tried: seq<nat>, now: int, current: string, checks: seq<string>,
                     attempts: int, dropped: int, k: nat)
    requires k < |PartsFor(current, checks)|
    ensures var kept := KeptOf(PartsFor(current, checks), now, attempts, Texts(alerts));
      var text := Clip(PartsFor(current, checks)[k].text, KEPT);
      text in Texts(Capped(Tried(alerts, tried, now) + kept, dropped).alerts) <==> StaysIn(alerts, |kept|, text)
  {
    var parts, after := PartsFor(current, checks), Tried(alerts, tried, now);
    KeptOfCovers(parts, now, attempts, Texts(alerts));
    CappedTexts(after, KeptOf(parts, now, attempts, Texts(alerts)), dropped, Clip(parts[k].text, KEPT));
  }

  function PartText(t: Trial, k: nat): string
    requires t.current.Some? && k < |PartsFor(t.current.value, t.checks)|
  {
    Clip(PartsFor(t.current.value, t.checks)[k].text, KEPT)
  }

  /** A deferral is on disk before the send: exactly when none of its parts is dropped by the capping. */
  lemma DeferralIsKept(state: PendingState, t: Trial, k: nat)
    requires t.current.Some? && k < |PartsFor(t.current.value, t.checks)| && Prepared(state, t).0.deferred
    ensures PartText(t, k) in Texts(Prepared(state, t).1.alerts)
            <==> StaysIn(state.alerts, |Joining(state, t, 0)|, PartText(t, k))
  {
    PreparedShape(state, t);
    NoneTried(state.alerts, t.now);
    NoneGone(state.alerts);
    PartIsQueued(state.alerts, [], t.now, t.current.value, t.checks, 0, state.dropped, k);
  }

  /** A failed send that is recorded queues each part, exactly when it is not dropped by the capping. */
  lemma FailureIsKept(state: PendingState, t: Trial, k: nat)
    requires t.current.Some? && k < |PartsFor(t.current.value, t.checks)| && !t.sends && t.saves
    requires Prepared(state, t).0.text.Some?
    ensures PartText(t, k) in Texts(After(state, t).alerts)
            <==> StaysIn(state.alerts, |Joining(state, t, if Prepared(state, t).0.deferred then 0 else 1)|,
                         PartText(t, k))
  {
    var c := Prepared(state, t).0;
    TriedTexts(state.alerts, c.carried, t.now);
    PartIsQueued(state.alerts, c.carried, t.now, t.current.value, t.checks, if c.deferred then 0 else 1, state.dropped,
                 k);
  }

  lemma {:induction false} LeftTexts(alerts: seq<PendingAlert>, carried: seq<nat>, i: nat)
    requires i < |alerts| && i !in carried
    ensures alerts[i].text in Texts(Left(alerts, carried))
  {
    var sooner := alerts[..|alerts| - 1];
    var last := if |alerts| - 1 in carried then [] else [alerts[|alerts| - 1]];
    if i < |sooner| { LeftTexts(sooner, carried, i); }
    TextsSplit(Left(sooner, carried), last);
  }

  lemma {:induction false} LeftLength(alerts: seq<PendingAlert>, carried: seq<nat>)
    ensures |Left(alerts, carried)| <= |alerts|
    ensures (exists i :: i in carried && i < |alerts|) ==> |Left(alerts, carried)| < |alerts|
  {
    if alerts != [] {
      LeftLength(alerts[..|alerts| - 1], carried);
    }
  }

  /** A delivered message that carries something makes the room the deferred alert needs. */
  lemma DeliveryKeepsDeferred(alerts: seq<PendingAlert>, carried: seq<nat>, parts: seq<Part>, now: int, dropped: int,
                              k: nat)
    requires |alerts| <= MAX_PENDING && k < |parts| <= 2 && exists i :: i in carried && i < |alerts|
    ensures var text := Clip(parts[k].text, KEPT);
      || text in Texts(Capped(Left(alerts, carried) + KeptOf(parts, now, 0, Texts(alerts)), dropped).alerts)
      || exists i :: 0 <= i < |alerts| && i in carried && alerts[i].text == text
  {
    var left, kept, text := Left(alerts, carried), KeptOf(parts, now, 0, Texts(alerts)), Clip(parts[k].text, KEPT);
    KeptOfCovers(parts, now, 0, Texts(alerts));
    LeftLength(alerts, carried);
    CappedTexts(left, kept, dropped, text);
    if text in Texts(alerts) {
      var i :| 0 <= i < |alerts| && alerts[i].text == text;
      if i !in carried {
        LeftTexts(alerts, carried, i);
        var j :| 0 <= j < |left| && left[j].text == text;
        assert Excess(|left| + |kept|) == 0;
      }
    }
  }

  lemma DeferredCarriesSome(state: PendingState, t: Trial) returns (i: nat)
    requires Prepared(state, t).0.deferred
    ensures i in Prepared(state, t).0.carried && i < |state.alerts|
  {
    PreparedShape(state, t);
    ComposeFlags(t.current, state, t.now, false);
    i := DeferringCarriesSome(First(t.current, MAX_MESSAGE), PartsOf(t.current), EntriesOf(state.alerts), state, t.now);
  }

  lemma DeferringCarriesSome(first: seq<string>, words: set<string>, entries: seq<string>, state: PendingState,
                             now: int) returns (i: nat)
    requires |first| <= 1 && |entries| == |state.alerts|
    requires ComposeWith(first, words, entries, state, MAX_MESSAGE, CEILING, now, true).deferred
    ensures i in ComposeWith(first, words, entries, state, MAX_MESSAGE, CEILING, now, true).carried
    ensures i < |state.alerts|
  {
    ComposedFlags(first, words, entries, state, now, true);
    PlanInOrder(first, words, state.alerts, entries, MAX_MESSAGE, now, true);
    PlanHolds(first, words, state.alerts, entries, now, true);
    var plan := PlanFor(first, words, state.alerts, entries, MAX_MESSAGE, now, true);
    i := OldestGoes(first, words, entries, state, now, true, plan.others[0]);
  }

  lemma DeliveryChanges(alerts: seq<PendingAlert>, carried: seq<nat>, parts: seq<Part>, now: int, dropped: int)
    requires |alerts| <= MAX_PENDING && |parts| <= 2 && exists i :: i in carried && i < |alerts|
    ensures Capped(Left(alerts, carried) + KeptOf(parts, now, 0, Texts(alerts)), dropped).alerts != alerts
  {
    var left, kept := Left(alerts, carried), KeptOf(parts, now, 0, Texts(alerts));
    KeptOfCovers(parts, now, 0, Texts(alerts));
    LeftLength(alerts, carried);
    if kept != [] {
      var after := Capped(left + kept, dropped).alerts;
      assert after[|after| - 1] == kept[|kept| - 1];
      assert kept[|kept| - 1].text in Texts(kept);
    }
  }

  /** A deferred alert whose message is delivered is queued, or its words were in that message. */
  lemma DeferredIsQueued(state: PendingState, t: Trial, k: nat)
    requires |state.alerts| <= MAX_PENDING && t.sends && t.saves && Prepared(state, t).0.deferred
    requires t.current.Some? && k < |PartsFor(t.current.value, t.checks)|
    ensures || PartText(t, k) in Texts(After(state, t).alerts)
            || exists i ::
                0 <= i < |state.alerts| && i in Prepared(state, t).0.carried && state.alerts[i].text == PartText(t, k)
  {
    PreparedShape(state, t);
    var i := DeferredCarriesSome(state, t);
    var c := Prepared(state, t).0;
    CarryingIsRecorded(state, t, c, i);
    DeliveryKeepsDeferred(state.alerts, c.carried, PartsFor(t.current.value, t.checks), t.now,
                          if c.reportedDropped then 0 else state.dropped, k);
  }

  lemma UnrecordedIsEarly(state: PendingState, t: Trial)
    requires !t.saves
    ensures After(state, t) == Prepared(state, t).1
  {
  }

  /** What becomes of each part of an alert no longer than the limit, in every run. Sent at once, the alert
      goes first and whole. Deferred beside a message that is delivered and recorded, the part is queued or
      was in that message. With one write and no such delivery, it is queued, unless it was kept already
      and only among the alerts that the joining ones push out. Only when the send and every write fail is
      nothing kept of it. */
  lemma NoLoss(state: PendingState, t: Trial, k: nat)
    requires |state.alerts| <= MAX_PENDING && t.current.Some? && |t.current.value| <= MAX_MESSAGE
    requires k < |PartsFor(t.current.value, t.checks)|
    ensures var c, text := Prepared(state, t).0, PartText(t, k);
      if t.sends && !c.deferred then c.text.Some? && t.current.value <= c.text.value
      else if t.sends && t.saves then
        text in Texts(After(state, t).alerts) || exists i ::
            0 <= i < |state.alerts| && i in c.carried && state.alerts[i].text == text
      else if t.saves || c.deferred then
        var joining := Joining(state, t, if c.deferred then 0 else 1);
        text in Texts(After(state, t).alerts) <==> StaysIn(state.alerts, |joining|, text)
      else After(state, t) == state
  {
    CurrentGoesFirst(t.current.value, state, t.now, true);
    CurrentGoesFirst(t.current.value, state, t.now, false);
    PreparedShape(state, t);
    if !t.saves {
      UnrecordedIsEarly(state, t);
      if Prepared(state, t).0.deferred { DeferralIsKept(state, t, k); }
    } else if !t.sends {
      FailureIsKept(state, t, k);
    } else if Prepared(state, t).0.deferred {
      DeferredIsQueued(state, t, k);
    }
  }

  // ----- no alert twice -----

  predicate DistinctTexts(alerts: seq<PendingAlert>) {
    forall i, j :: 0 <= i < j < |alerts| ==> alerts[i].text != alerts[j].text
  }

  lemma JoinDistinct(a: seq<PendingAlert>, b: seq<PendingAlert>)
    requires DistinctTexts(a) && DistinctTexts(b) && Texts(a) !! Texts(b)
    ensures DistinctTexts(a + b)
  {
    forall i, j | 0 <= i < j < |a + b| ensures (a + b)[i].text != (a + b)[j].text {
      if i < |a| <= j { assert a[i].text in Texts(a) && b[j - |a|].text in Texts(b); }
    }
  }

  lemma {:induction false} LeftDistinct(alerts: seq<PendingAlert>, gone: seq<nat>)
    requires DistinctTexts(alerts)
    ensures DistinctTexts(Left(alerts, gone)) && Texts(Left(alerts, gone)) <= Texts(alerts)
  {
    if alerts != [] {
      var sooner, last := alerts[..|alerts| - 1], alerts[|alerts| - 1];
      LeftDistinct(sooner, gone);
      TextsSplit(sooner, [last]);
      assert alerts == sooner + [last];
      if |alerts| - 1 !in gone {
        TextsSplit(Left(sooner, gone), [last]);
        assert last.text !in Texts(sooner);
        JoinDistinct(Left(sooner, gone), [last]);
      }
    }
  }

  lemma {:induction false} KeptOfDistinct(parts: seq<Part>, now: int, attempts: int, present: set<string>)
    ensures DistinctTexts(KeptOf(parts, now, attempts, present))
  {
    if parts != [] {
      var before := KeptOf(parts[..|parts| - 1], now, attempts, present);
      KeptOfDistinct(parts[..|parts| - 1], now, attempts, present);
      var kept := KeptOf(parts, now, attempts, present);
      if kept != before {
        assert kept == before + [kept[|kept| - 1]];
        JoinDistinct(before, [kept[|kept| - 1]]);
      }
    }
  }

  lemma JoiningIsNew(state: PendingState, t: Trial, attempts: int)
    ensures DistinctTexts(Joining(state, t, attempts)) && Texts(Joining(state, t, attempts)) !! Texts(state.alerts)
  {
    if t.current.Some? {
      KeptOfDistinct(PartsFor(t.current.value, t.checks), t.now, attempts, Texts(state.alerts));
      KeptOfCovers(PartsFor(t.current.value, t.checks), t.now, attempts, Texts(state.alerts));
    }
  }

  lemma AppliedDistinct(alerts: seq<PendingAlert>, change: Change, now: int)
    requires DistinctTexts(alerts) && DistinctTexts(change.kept) && Texts(change.kept) !! Texts(alerts)
    ensures DistinctTexts(Applied(alerts, change, now).alerts)
  {
    var tried := Tried(alerts, change.tried, now);
    TriedTexts(alerts, change.tried, now);
    LeftDistinct(tried, change.gone);
    JoinDistinct(Left(tried, change.gone), change.kept);
  }

  lemma RunKeepsDistinct(state: PendingState, t: Trial)
    requires |state.alerts| <= MAX_PENDING && DistinctTexts(state.alerts)
    ensures DistinctTexts(After(state, t).alerts)
  {
    AfterShape(state, t);
    JoiningIsNew(state, t, 0);
    JoiningIsNew(state, t, 1);
    AppliedDistinct(state.alerts, ChangeOf(state, t), t.now);
  }

  /** Over all runs, however often an alert is raised again while it is kept: it is kept once. */
  lemma {:induction false} KeptOnce(state: PendingState, ts: seq<Trial>)
    requires |state.alerts| <= MAX_PENDING && DistinctTexts(state.alerts)
    ensures DistinctTexts(AfterAll(state, ts).alerts)
    decreases |ts|
  {
    if ts != [] {
      RunBalances(state, ts[0]);
      RunKeepsDistinct(state, ts[0]);
      KeptOnce(After(state, ts[0]), ts[1..]);
    }
  }

  // ----- bounded wait -----

  /** How many of the positions before `i` stay. */
  function StayBefore(gone: seq<nat>, i: nat): (n: nat)
    ensures n <= i && ((exists j :: j in gone && j < i) ==> n < i)
  {
    if i == 0 then 0 else StayBefore(gone, i - 1) + if i - 1 in gone then 0 else 1
  }

  lemma {:induction false} LeftAt(alerts: seq<PendingAlert>, gone: seq<nat>, i: nat)
    requires i < |alerts| && i !in gone
    ensures StayBefore(gone, i) < |Left(alerts, gone)| && Left(alerts, gone)[StayBefore(gone, i)] == alerts[i]
    decreases |alerts|
  {
    var sooner := alerts[..|alerts| - 1];
    if i < |sooner| {
      LeftAt(sooner, gone, i);
    } else {
      LeftCount(sooner, gone);
    }
  }

  lemma {:induction false} LeftCount(alerts: seq<PendingAlert>, gone: seq<nat>)
    ensures |Left(alerts, gone)| == StayBefore(gone, |alerts|)
  {
    if alerts != [] {
      LeftCount(alerts[..|alerts| - 1], gone);
    }
  }

  /** Where a run leaves the alert at position `i`: nowhere once it is delivered or dropped. */
  function Follow(alerts: seq<PendingAlert>, change: Change, i: nat): Option<nat> {
    var excess := Excess(|Left(alerts, change.gone)| + |change.kept|);
    if i in change.gone || StayBefore(change.gone, i) < excess then None else Some(StayBefore(change.gone, i) - excess)
  }

  predicate SameAlert(a: PendingAlert, b: PendingAlert) {
    a.first == b.first && a.text == b.text && a.checks == b.checks
  }

  lemma {:induction false} LeftOfTried(alerts: seq<PendingAlert>, tried: seq<nat>, now: int, gone: seq<nat>)
    ensures |Left(Tried(alerts, tried, now), gone)| == |Left(alerts, gone)|
  {
    LeftCount(alerts, gone);
    LeftCount(Tried(alerts, tried, now), gone);
  }

  lemma CappedAt(all: seq<PendingAlert>, dropped: int, p: nat)
    requires Excess(|all|) <= p < |all|
    ensures p - Excess(|all|) < |Capped(all, dropped).alerts|
    ensures Capped(all, dropped).alerts[p - Excess(|all|)] == all[p]
  {
  }

  lemma FollowIsRight(alerts: seq<PendingAlert>, change: Change, now: int, i: nat)
    requires i < |alerts| && Follow(alerts, change, i).Some?
    ensures var after, j := Applied(alerts, change, now).alerts, Follow(alerts, change, i).value;
      && j <= i && j < |after| && SameAlert(after[j], alerts[i])
      && after[j].attempts == alerts[i].attempts + if i in change.tried then 1 else 0
  {
    var tried, p := Tried(alerts, change.tried, now), StayBefore(change.gone, i);
    var left := Left(tried, change.gone);
    LeftAt(tried, change.gone, i);
    LeftOfTried(alerts, change.tried, now, change.gone);
    assert (left + change.kept)[p] == left[p] == tried[i];
    CappedAt(left + change.kept, change.dropped, p);
  }

  /** The run sends and records a message without a clipped entry, at an hour when the alert may go. */
  predicate Clear(state: PendingState, t: Trial, i: nat) {
    i < |state.alerts| && !Waits(state.alerts[i], t.now) && t.sends && t.saves && !Prepared(state, t).0.keptClipped
  }

  lemma OldestIsCarried(current: Option<string>, state: PendingState, now: int, defer: bool, i: nat) returns (j: nat)
    requires i < |state.alerts| && !Waits(state.alerts[i], now)
    requires !ComposeOf(current, state, MAX_MESSAGE, CEILING, now, defer).keptClipped
    ensures j <= i && j in ComposeOf(current, state, MAX_MESSAGE, CEILING, now, defer).carried
    ensures ComposeOf(current, state, MAX_MESSAGE, CEILING, now, defer).text.Some?
  {
    var first, words, entries := First(current, MAX_MESSAGE), PartsOf(current), EntriesOf(state.alerts);
    j := OldestGoes(first, words, entries, state, now, defer, i);
    CarriedWith(first, words, entries, state, now, defer, j);
    if current.Some? { FirstGoesFirst(first, words, entries, state, now, defer); }
    ComposeFlags(current, state, now, defer);
  }

  lemma ClearCarries(state: PendingState, t: Trial, i: nat) returns (j: nat)
    requires Clear(state, t, i)
    ensures j <= i && j in Prepared(state, t).0.carried && Prepared(state, t).0.text.Some?
  {
    PreparedShape(state, t);
    if Prepared(state, t).0 == ComposeOf(t.current, state, MAX_MESSAGE, CEILING, t.now, true) {
      j := OldestIsCarried(t.current, state, t.now, true, i);
    } else {
      j := OldestIsCarried(t.current, state, t.now, false, i);
    }
  }

  lemma CarryingIsRecorded(state: PendingState, t: Trial, c: Composition, j: nat)
    requires |state.alerts| <= MAX_PENDING && t.sends && t.saves && c.text.Some? && j in c.carried && j < |state.alerts|
    ensures Records(state, t, c)
  {
    var parts := if c.deferred && t.current.Some? then PartsFor(t.current.value, t.checks) else [];
    DeliveryChanges(state.alerts, c.carried, parts, t.now, if c.reportedDropped then 0 else state.dropped);
  }

  lemma FollowFalls(alerts: seq<PendingAlert>, change: Change, i: nat, j: nat)
    requires j in change.gone && j <= i
    ensures Follow(alerts, change, i).Some? ==> Follow(alerts, change, i).value < i
  {
  }

  lemma RecordedDelivery(state: PendingState, t: Trial, c: Composition)
    requires Records(state, t, c) && t.sends
    ensures ChangeFor(state, t, c).gone == c.carried
  {
  }

  /** A clear run takes the alert off beside a delivered message, drops it and counts it, or moves it up. */
  lemma ClearMovesUp(state: PendingState, t: Trial, i: nat)
    requires |state.alerts| <= MAX_PENDING && Clear(state, t, i)
    ensures var next := Follow(state.alerts, ChangeOf(state, t), i); next.Some? ==> next.value < i
  {
    var j := ClearCarries(state, t, i);
    CarryingIsRecorded(state, t, Prepared(state, t).0, j);
    RecordedDelivery(state, t, Prepared(state, t).0);
    FollowFalls(state.alerts, ChangeOf(state, t), i, j);
  }

  function FollowAll(state: PendingState, ts: seq<Trial>, i: nat): Option<nat>
    decreases |ts|
  {
    if ts == [] then Some(i)
    else
      var next := Follow(state.alerts, ChangeOf(state, ts[0]), i);
      if next.None? then None else FollowAll(After(state, ts[0]), ts[1..], next.value)
  }

  /** How many clear runs the alert sees while it is queued. */
  function ClearRuns(state: PendingState, ts: seq<Trial>, i: nat): nat
    decreases |ts|
  {
    if ts == [] then 0
    else
      var next := Follow(state.alerts, ChangeOf(state, ts[0]), i);
      (if Clear(state, ts[0], i) then 1 else 0)
        + if next.None? then 0 else ClearRuns(After(state, ts[0]), ts[1..], next.value)
  }

  lemma OneRun(state: PendingState, t: Trial, i: nat)
    requires |state.alerts| <= MAX_PENDING && i < |state.alerts|
    ensures |After(state, t).alerts| <= MAX_PENDING
    ensures var next := Follow(state.alerts, ChangeOf(state, t), i);
      next.Some? ==> && next.value + (if Clear(state, t, i) then 1 else 0) <= i && next.value < |After(state, t).alerts|
                     && SameAlert(After(state, t).alerts[next.value], state.alerts[i])
  {
    AfterShape(state, t);
    var change := ChangeOf(state, t);
    if Follow(state.alerts, change, i).Some? { FollowIsRight(state.alerts, change, t.now, i); }
    if Clear(state, t, i) { ClearMovesUp(state, t, i); }
  }

  /** Over all runs: an alert at position `i` leaves the queue, settled by a delivered message or dropped and
      counted, with its `i + 1`st clear run at the latest; until then every clear run moves it nearer the front. */
  lemma {:induction false} WaitIsBounded(state: PendingState, ts: seq<Trial>, i: nat)
    requires |state.alerts| <= MAX_PENDING && i < |state.alerts|
    ensures ClearRuns(state, ts, i) <= i + 1
    ensures FollowAll(state, ts, i).Some? ==> ClearRuns(state, ts, i) + FollowAll(state, ts, i).value <= i
    decreases |ts|
  {
    if ts != [] {
      OneRun(state, ts[0], i);
      var next := Follow(state.alerts, ChangeOf(state, ts[0]), i);
      if next.Some? { WaitIsBounded(After(state, ts[0]), ts[1..], next.value); }
    }
  }

  /** Until it leaves, the alert is at the position where it is followed, with its words and first time. */
  lemma {:induction false} FollowedStays(state: PendingState, ts: seq<Trial>, i: nat)
    requires |state.alerts| <= MAX_PENDING && i < |state.alerts| && FollowAll(state, ts, i).Some?
    ensures var j, after := FollowAll(state, ts, i).value, AfterAll(state, ts).alerts;
      j < |after| && SameAlert(after[j], state.alerts[i])
    decreases |ts|
  {
    if ts != [] {
      OneRun(state, ts[0], i);
      var next := Follow(state.alerts, ChangeOf(state, ts[0]), i);
      FollowedStays(After(state, ts[0]), ts[1..], next.value);
    }
  }

  // ----- what is stored -----

  predicate Aged(alerts: seq<PendingAlert>, most: nat) {
    forall a :: a in alerts ==> |a.text| <= KEPT && 0 <= a.attempts <= most
  }

  lemma {:induction false} KeptOfAged(parts: seq<Part>, now: int, attempts: int, present: set<string>, most: nat)
    requires 0 <= attempts <= most
    ensures Aged(KeptOf(parts, now, attempts, present), most)
  {
    if parts != [] {
      KeptOfAged(parts[..|parts| - 1], now, attempts, present, most);
    }
  }

  lemma {:induction false} LeftAged(alerts: seq<PendingAlert>, gone: seq<nat>, most: nat)
    requires Aged(alerts, most)
    ensures Aged(Left(alerts, gone), most)
  {
    if alerts != [] {
      var sooner := alerts[..|alerts| - 1];
      assert forall a :: a in sooner ==> a in alerts;
      LeftAged(sooner, gone, most);
    }
  }

  lemma AppliedAged(alerts: seq<PendingAlert>, change: Change, now: int, most: nat)
    requires Aged(alerts, most) && Aged(change.kept, most + 1)
    ensures Aged(Applied(alerts, change, now).alerts, most + 1)
  {
    var tried := Tried(alerts, change.tried, now);
    forall a | a in tried ensures |a.text| <= KEPT && 0 <= a.attempts <= most + 1 {
      var i :| 0 <= i < |tried| && tried[i] == a;
      assert alerts[i] in alerts;
    }
    LeftAged(tried, change.gone, most + 1);
  }

  lemma RunAges(state: PendingState, t: Trial, most: nat)
    requires |state.alerts| <= MAX_PENDING && Aged(state.alerts, most)
    ensures Aged(After(state, t).alerts, most + 1)
  {
    AfterShape(state, t);
    var change := ChangeOf(state, t);
    if t.current.Some? {
      var parts := PartsFor(t.current.value, t.checks);
      KeptOfAged(parts, t.now, 0, Texts(state.alerts), most + 1);
      KeptOfAged(parts, t.now, 1, Texts(state.alerts), most + 1);
    }
    AppliedAged(state.alerts, change, t.now, most);
  }

  function Power10(k: nat): nat {
    if k == 0 then 1 else 10 * Power10(k - 1)
  }

  lemma {:induction false} DecimalDigits(n: nat, k: nat)
    requires 1 <= k && n < Power10(k)
    ensures |Decimal(n)| <= k
    decreases k
  {
    if n >= 10 {
      assert k > 1;
      DecimalDigits(n / 10, k - 1);
    }
  }

  /** However many runs follow, short of 10 to the 35th: whatever is queued fits whole in a message of its own. */
  lemma {:induction false} QueueIsStorable(state: PendingState, ts: seq<Trial>, most: nat)
    requires |state.alerts| <= MAX_PENDING && Aged(state.alerts, most) && most + |ts| < Power10(35)
    ensures forall a :: a in AfterAll(state, ts).alerts ==> Storable(a)
    decreases |ts|
  {
    if ts == [] {
      forall a | a in state.alerts ensures Storable(a) { DecimalDigits(a.attempts, 35); }
    } else {
      RunBalances(state, ts[0]);
      RunAges(state, ts[0], most);
      QueueIsStorable(After(state, ts[0]), ts[1..], most + 1);
    }
  }
}
