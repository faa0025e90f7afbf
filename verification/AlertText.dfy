/** The words of a kept alert: `scripts/shop_alert_pending.py` on the text of one message. */
module AlertText {
  import opened Basics

  const MAX_PENDING: nat := 24
  const MAX_MESSAGE: nat := 3800
  const KEPT: nat := MAX_MESSAGE
  const CEILING: nat := 4096 - 96
  const MIN_CLIPPED_ENTRY := 120

  const ALERT_HEADING := "Bảng vận hành — cần xem ngay:"
  const REDELIVERY_HEADING := "Cảnh báo trước đó chưa gửi được:"
  const NEWER_FOLLOWS := "(còn một cảnh báo mới hơn — gửi ở tin sau, vì tin này đã đầy)"
  const KEPT_CLIPPED := "(cảnh báo cũ bị cắt cho vừa tin; bản đầy đủ vẫn được giữ và sẽ gửi lại)"
  const KEPT_LEFT_OUT := "(còn cảnh báo cũ chưa gửi được; vẫn được giữ và sẽ gửi lại)"

  const QUIET_CHECKS := {"console_reachable", "console_certificate"}

  // ----- strings -----

  /** `_clip`; the limit may be negative. */
  function Clip(text: string, limit: int): (r: string)
    ensures |r| <= limit || |r| == 1
    ensures |text| <= limit ==> r == text
  {
    if |text| <= limit then text else text[..if limit > 1 then limit - 1 else 0] + "…"
  }

  function Join(separator: string, parts: seq<string>): string {
    if parts == [] then "" else if |parts| == 1 then parts[0]
    else parts[0] + separator + Join(separator, parts[1..])
  }

  predicate LineBreak(c: char) {
    '\n' <= c <= '\r' || '\U{1c}' <= c <= '\U{1e}' || c == '\U{85}' || c == '\U{2028}' || c == '\U{2029}'
  }

  function FirstBreak(text: string): (k: nat)
    ensures k <= |text|
  {
    if text == "" || LineBreak(text[0]) then 0 else 1 + FirstBreak(text[1..])
  }

  /** `str.splitlines`. */
  function SplitLines(text: string): seq<string> {
    var k := FirstBreak(text);
    if text == "" then []
    else if k == |text| then [text]
    else
      var next := if text[k] == '\r' && k + 1 < |text| && text[k + 1] == '\n' then k + 2 else k + 1;
      [text[..k]] + SplitLines(text[next..])
  }

  function StripStart(s: string): (r: string)
    ensures |r| <= |s|
  {
    if s != "" && Space(s[0]) then StripStart(s[1..]) else s
  }

  function StripEnd(s: string): (r: string)
    ensures |r| <= |s|
  {
    if s != "" && Space(s[|s| - 1]) then StripEnd(s[..|s| - 1]) else s
  }

  function Strip(s: string): (r: string)
    ensures |r| <= |s|
  {
    StripEnd(StripStart(s))
  }

  predicate Contains(text: string, words: string) {
    exists i :: 0 <= i <= |text| && words <= text[i..]
  }

  function Decimal(n: int): string
    decreases if n < 0 then 1 - n else n
  {
    if n < 0 then "-" + Decimal(-n) else (if n < 10 then "" else Decimal(n / 10)) + ['0' + (n % 10) as char]
  }

  /** The last two digits. */
  function Pad(n: int): (r: string)
    ensures |r| == 2
  {
    ['0' + (n / 10 % 10) as char, '0' + (n % 10) as char]
  }

  // ----- the shop's clock: seconds since the epoch, seven hours ahead of UTC -----

  function ShopTime(now: int): int { now + 7 * 3600 }

  function Hour(now: int): int { ShopTime(now) / 3600 % 24 }

  /** The day of the month and the month, in the Gregorian calendar. */
  function DayAndMonth(now: int): (int, int) {
    var z := ShopTime(now) / 86_400 + 719_468;
    var ofEra := z % 146_097;
    var year := (ofEra - ofEra / 1460 + ofEra / 36_524 - ofEra / 146_096) / 365;
    var ofYear := ofEra - (365 * year + year / 4 - year / 100);
    var m := (5 * ofYear + 2) / 153;
    (ofYear - (153 * m + 2) / 5 + 1, if m < 10 then m + 3 else m - 9)
  }

  /** `%H:%M %d/%m`. */
  function Stamp(now: int): (r: string)
    ensures |r| == 11
  {
    Pad(Hour(now)) + ":" + Pad(ShopTime(now) / 60 % 60) + " " + Pad(DayAndMonth(now).0) + "/" + Pad(DayAndMonth(now).1)
  }

  /** `in_quiet_hours`: from 21:00 until 07:00. */
  predicate QuietHours(now: int) { Hour(now) >= 21 || Hour(now) < 7 }

  // ----- a kept alert's lines -----

  predicate HasHeading(lines: seq<string>) {
    lines != [] && Strip(lines[0]) == ALERT_HEADING
  }

  function WithoutHeading(lines: seq<string>): seq<string> {
    if HasHeading(lines) then lines[1..] else lines
  }

  /** `_body`. */
  function Body(text: string): string {
    Strip(Join("\n", WithoutHeading(SplitLines(text))))
  }

  function Colon(s: string): (k: nat)
    ensures k <= |s|
  {
    if s == "" || s[0] == ':' then 0 else 1 + Colon(s[1..])
  }

  /** `_bullet_check`. */
  function BulletCheck(line: string): Option<string> {
    if |line| < 2 || line[0] != '•' || line[1] != ' ' then None
    else
      var rest := line[2..];
      var name := Strip(rest[..Colon(rest)]);
      if Colon(rest) < |rest| && name != "" then Some(name) else None
  }

  // ----- `split_for_hours` -----

  datatype Part = Part(text: string, checks: seq<string>)

  predicate Quiet(check: string) { check in QUIET_CHECKS }

  function Chosen(checks: seq<string>, quiet: bool): (r: seq<string>) {
    if checks == [] then []
    else
      var last := checks[|checks| - 1];
      Chosen(checks[..|checks| - 1], quiet) + if Quiet(last) == quiet then [last] else []
  }

  /** The check a line is about: its own bullet, or the last bullet above it. */
  function OwnerOf(lines: seq<string>): Option<string> {
    if lines == [] then None
    else
      var name := BulletCheck(lines[|lines| - 1]);
      if name.Some? then name else OwnerOf(lines[..|lines| - 1])
  }

  /** The lines about quiet-hours checks, or the others. */
  function Group(lines: seq<string>, quiet: bool): seq<string> {
    if lines == [] then []
    else
      var owner := OwnerOf(lines);
      Group(lines[..|lines| - 1], quiet)
        + if owner.Some? && Quiet(owner.value) == quiet then [lines[|lines| - 1]] else []
  }

  /** Every line is about some check. */
  predicate Attributed(lines: seq<string>) {
    lines == [] || BulletCheck(lines[0]).Some?
  }

  function PartOf(text: string, checks: seq<string>, quiet: bool): Part {
    var lines := SplitLines(text);
    Part(Join("\n", (if HasHeading(lines) then [lines[0]] else []) + Group(WithoutHeading(lines), quiet)),
         Chosen(checks, quiet))
  }

  predicate Splits(text: string, checks: seq<string>) {
    var lines := WithoutHeading(SplitLines(text));
    && Chosen(checks, true) != [] && Chosen(checks, false) != [] && Attributed(lines)
    && Group(lines, true) != [] && Group(lines, false) != []
  }

  function PartsFor(text: string, checks: seq<string>): (r: seq<Part>)
    ensures 1 <= |r| <= 2
  {
    if Splits(text, checks) then [PartOf(text, checks, false), PartOf(text, checks, true)] else [Part(text, checks)]
  }

  lemma {:induction false} AttributedOwners(lines: seq<string>)
    requires Attributed(lines) && lines != []
    ensures OwnerOf(lines).Some?
  {
    if |lines| > 1 && BulletCheck(lines[|lines| - 1]).None? {
      AttributedOwners(lines[..|lines| - 1]);
    }
  }

  /** The lines about any-hour and quiet-hours checks; none when a line cannot be attributed. */
  method GroupLines(lines: seq<string>) returns (attributed: bool, loud: seq<string>, quiet: seq<string>)
    ensures attributed == Attributed(lines)
    ensures attributed ==> loud == Group(lines, false) && quiet == Group(lines, true)
  {
    loud, quiet := [], [];
    var target: Option<bool> := None;
    for i := 0 to |lines|
      invariant i > 0 ==> target.Some? && Attributed(lines)
      invariant target == (match OwnerOf(lines[..i]) case None => None case Some(owner) => Some(Quiet(owner)))
      invariant loud == Group(lines[..i], false) && quiet == Group(lines[..i], true)
    {
      assert lines[..i + 1][..i] == lines[..i] && lines[..i + 1][i] == lines[i];
      var name := BulletCheck(lines[i]);
      if name.Some? {
        target := Some(Quiet(name.value));
      } else if target.None? {
        return false, loud, quiet;
      }
      if target.value { quiet := quiet + [lines[i]]; } else { loud := loud + [lines[i]]; }
    }
    assert lines[..|lines|] == lines;
    return true, loud, quiet;
  }

  method SplitForHours(text: string, checks: seq<string>) returns (parts: seq<Part>)
    ensures parts == PartsFor(text, checks)
  {
    var quiet, loud := Chosen(checks, true), Chosen(checks, false);
    if quiet == [] || loud == [] {
      return [Part(text, checks)];
    }
    var lines := SplitLines(text);
    var attributed, loudLines, quietLines := GroupLines(WithoutHeading(lines));
    if !attributed || loudLines == [] || quietLines == [] {
      return [Part(text, checks)];
    }
    var prefix := if HasHeading(lines) then [lines[0]] else [];
    return [Part(Join("\n", prefix + loudLines), loud), Part(Join("\n", prefix + quietLines), quiet)];
  }

  /** Splitting loses no line and repeats none. */
  lemma {:induction false} GroupsPartition(lines: seq<string>)
    requires Attributed(lines)
    ensures multiset(Group(lines, true)) + multiset(Group(lines, false)) == multiset(lines)
  {
    if lines != [] {
      AttributedOwners(lines);
      GroupsPartition(lines[..|lines| - 1]);
      assert lines == lines[..|lines| - 1] + [lines[|lines| - 1]];
    }
  }

  lemma {:induction false} ChosenMembers(checks: seq<string>, quiet: bool)
    ensures forall c :: c in Chosen(checks, quiet) <==> c in checks && Quiet(c) == quiet
  {
    if checks != [] {
      ChosenMembers(checks[..|checks| - 1], quiet);
      assert checks == checks[..|checks| - 1] + [checks[|checks| - 1]];
    }
  }

  /** The texts a kept alert would have if it were the current one: `_parts_of`. */
  function BulletChecks(lines: seq<string>): seq<string> {
    if lines == [] then []
    else
      var name := BulletCheck(lines[|lines| - 1]);
      BulletChecks(lines[..|lines| - 1]) + if name.Some? then [name.value] else []
  }

  function PartTexts(current: string): set<string> {
    {current} + set p | p in PartsFor(current, BulletChecks(SplitLines(current))) :: p.text
  }

  function PartsOf(current: Option<string>): set<string> {
    if current.None? then {}
    else PartTexts(current.value) + set t | t in PartTexts(current.value) :: Clip(t, KEPT)
  }

  lemma {:induction false} LineAlone(line: string, rest: string)
    requires forall i :: 0 <= i < |line| ==> !LineBreak(line[i])
    requires rest == "" || LineBreak(rest[0])
    ensures FirstBreak(line + rest) == |line|
  {
    if line == "" {
      assert line + rest == rest;
    } else {
      assert (line + rest)[1..] == line[1..] + rest;
      LineAlone(line[1..], rest);
    }
  }

  /** Two lines are read back as they were joined. */
  lemma LineThenRest(line: string, rest: string)
    requires forall i :: 0 <= i < |line| ==> !LineBreak(line[i])
    ensures SplitLines(line + "\n" + rest) == [line] + SplitLines(rest)
  {
    LineAlone(line, "\n" + rest);
    var text := line + "\n" + rest;
    assert text == line + ("\n" + rest);
    assert text[..|line|] == line && text[|line| + 1..] == rest;
  }

  // ----- lengths -----

  lemma {:induction false} LinesFit(text: string)
    ensures |Join("\n", SplitLines(text))| <= |text|
    decreases |text|
  {
    var k := FirstBreak(text);
    if k < |text| {
      var rest := text[if text[k] == '\r' && k + 1 < |text| && text[k + 1] == '\n' then k + 2 else k + 1..];
      LinesFit(rest);
      assert SplitLines(text)[1..] == SplitLines(rest);
    }
  }

  lemma BodyFits(text: string)
    ensures |Body(text)| <= |text|
  {
    var lines := SplitLines(text);
    LinesFit(text);
    if |lines| == 1 { assert lines[1..] == []; }
  }
}
