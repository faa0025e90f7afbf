/** The identifiers of `scripts/manage_automation_state.py`, as the sets of strings its patterns accept,
    and the ordinals that attempt and child-run identifiers end with. */
module AutomationIds {
  import opened Basics

  predicate Digit(c: char) { '0' <= c <= '9' }

  predicate Upper(c: char) { 'A' <= c <= 'Z' }

  predicate Lower(c: char) { 'a' <= c <= 'z' }

  predicate Hex(c: char) { Digit(c) || 'a' <= c <= 'f' || 'A' <= c <= 'F' }

  predicate Delimiter(c: char) { c == ':' || c == '/' || c == '_' || c == '-' }

  predicate SafeChar(c: char) {
    Digit(c) || Upper(c) || Lower(c) || Delimiter(c) || c == '.' || c == '@'
  }

  /** `[A-Za-z0-9][A-Za-z0-9._:@/-]{0,most-1}`: owners, attempts, child runs and sessions. */
  predicate Safe(s: string, most: nat) {
    && 1 <= |s| <= most && (Digit(s[0]) || Upper(s[0]) || Lower(s[0]))
    && forall i | 0 <= i < |s| :: SafeChar(s[i])
  }

  predicate Commit(s: string) {
    7 <= |s| <= 64 && forall i | 0 <= i < |s| :: Hex(s[i])
  }

  predicate WorkItemId(s: string) {
    && |s| >= 5 && Upper(s[0]) && Upper(s[|s| - 5]) && s[|s| - 4] == '-'
    && (forall i | |s| - 3 <= i < |s| :: Digit(s[i]))
    && (forall i | 0 <= i < |s| - 4 :: Upper(s[i]) || (s[i] == '-' && Upper(s[i + 1])))
  }

  /** A character that no branch name may hold, or may not hold before `next`. */
  predicate Unbranchable(c: char, next: Option<char>) {
    || c in "~^:?*[]\\" || Space(c)
    || (next.Some?
        && ((c == '.' && next.value == '.') || (c == '/' && next.value == '/') || (c == '@' && next.value == '{')))
  }

  predicate BranchableAt(s: string, i: int)
    requires 0 <= i < |s|
  {
    !Unbranchable(s[i], if i + 1 < |s| then Some(s[i + 1]) else None)
  }

  predicate Branch(s: string) {
    && 1 <= |s| <= 255 && s[0] != '/' && s[|s| - 1] != '/' && s[|s| - 1] != '.'
    && forall i | 0 <= i < |s| :: BranchableAt(s, i)
  }

  function LowerChar(c: char): char {
    if Upper(c) then c - 'A' + 'a' else c
  }

  /** `str.lower` on the ASCII strings it is used on. */
  function ToLower(s: string): (r: string)
    ensures |r| == |s|
  {
    seq(|s|, i requires 0 <= i < |s| => LowerChar(s[i]))
  }

  // ----- ordinals -----

  /** Where the trailing digits of `s` begin. */
  function DigitsFrom(s: string): (k: nat)
    ensures k <= |s| && (forall i :: k <= i < |s| ==> Digit(s[i])) && (k > 0 ==> !Digit(s[k - 1]))
  {
    if s != [] && Digit(s[|s| - 1]) then DigitsFrom(s[..|s| - 1]) else |s|
  }

  function ToNumber(digits: string): nat
    requires forall i :: 0 <= i < |digits| ==> Digit(digits[i])
  {
    if digits == [] then 0
    else
      var last := digits[|digits| - 1];
      assert Digit(last);
      10 * ToNumber(digits[..|digits| - 1]) + (last as int - '0' as int)
  }

  /** The number that `s` ends with, when it stands alone: at the start or after a delimiter. The pattern
      strips leading zeros and wants a digit from 1 to 9 after them, so zero is no ordinal. */
  function RunOrdinal(s: string): Option<nat> {
    var k := DigitsFrom(s);
    if (k == 0 || Delimiter(s[k - 1])) && ToNumber(s[k..]) > 0 then Some(ToNumber(s[k..])) else None
  }

  const ATTEMPT: string := "attempt-"

  /** The same after `attempt-`, itself at the start or after a delimiter. */
  function AttemptOrdinal(s: string): Option<nat> {
    var k := DigitsFrom(s);
    if k >= 8 && s[k - 8..k] == ATTEMPT && (k == 8 || Delimiter(s[k - 9])) && ToNumber(s[k..]) > 0
    then Some(ToNumber(s[k..])) else None
  }

  /** One attempt has one digit: the budget is three. */
  function Numeral(n: nat): char
    requires n <= 9
    ensures Digit(Numeral(n))
  {
    '0' + n as char
  }

  lemma NumeralEnds(prefix: string, n: nat)
    requires 1 <= n <= 9 && prefix != [] && !Digit(prefix[|prefix| - 1])
    ensures DigitsFrom(prefix + [Numeral(n)]) == |prefix|
    ensures ToNumber((prefix + [Numeral(n)])[|prefix|..]) == n
  {
    var s := prefix + [Numeral(n)];
    assert s[..|s| - 1] == prefix;
    assert s[|prefix|..] == [Numeral(n)];
    assert [Numeral(n)][..0] == [];
    assert ToNumber([Numeral(n)]) == 10 * ToNumber([]) + n;
  }
}
