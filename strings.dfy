/**
 * The JavaScript string operations the judge relies on: `startsWith`,
 * `endsWith`, `includes`, `slice(0, n)`, `trimEnd` and number-to-text.
 * A JavaScript string is modelled as a sequence of characters.
 */
module Strings {

  /** `s.startsWith(prefix)`. */
  predicate StartsWith(s: string, prefix: string) {
    |prefix| <= |s| && s[..|prefix|] == prefix
  }

  /** `s.endsWith(suffix)`. */
  predicate EndsWith(s: string, suffix: string) {
    |suffix| <= |s| && s[|s| - |suffix|..] == suffix
  }

  /** `s.replace(/<suffix>$/, '')`: drops `suffix` once, and only at the very end. */
  function StripSuffix(s: string, suffix: string): (r: string)
    ensures EndsWith(s, suffix) ==> r + suffix == s
    ensures !EndsWith(s, suffix) ==> r == s
  {
    if EndsWith(s, suffix) then
      assert s == s[..|s| - |suffix|] + s[|s| - |suffix|..];
      s[..|s| - |suffix|]
    else s
  }

  /** `sub` occurs in `s` starting at index `i`. */
  ghost predicate OccursAt(s: string, sub: string, i: int) {
    0 <= i && i + |sub| <= |s| && s[i..i + |sub|] == sub
  }

  /** `s.includes(sub)`: a left-to-right scan for an occurrence of `sub`. */
  function Includes(s: string, sub: string): (r: bool)
    ensures r <==> exists i :: OccursAt(s, sub, i)
    decreases |s|
  {
    if StartsWith(s, sub) then
      assert OccursAt(s, sub, 0);
      true
    else if s == [] then
      false
    else
      var rest := Includes(s[1..], sub);
      assert !OccursAt(s, sub, 0);
      assert forall i :: OccursAt(s[1..], sub, i) ==> OccursAt(s, sub, i + 1);
      assert forall i :: OccursAt(s, sub, i) ==> OccursAt(s[1..], sub, i - 1);
      rest
  }

  /** `s.slice(0, n)`: the first `n` characters, or all of `s` when it is shorter. */
  function Slice(s: string, n: nat): (r: string)
    ensures r <= s
    ensures |r| == if |s| <= n then |s| else n
  {
    if |s| <= n then s else s[..n]
  }

  /**
   * The characters `String.prototype.trimEnd` removes: the Unicode White_Space
   * characters, the byte order mark and the line terminators.
   */
  predicate IsJsWhitespace(c: char) {
    var n := c as int;
    n == 0x09 || n == 0x0A || n == 0x0B || n == 0x0C || n == 0x0D || n == 0x20
    || n == 0xA0 || n == 0x1680 || (0x2000 <= n <= 0x200A) || n == 0x2028
    || n == 0x2029 || n == 0x202F || n == 0x205F || n == 0x3000 || n == 0xFEFF
  }

  /** `s.trimEnd()`: the longest prefix of `s` after which only whitespace follows. */
  function TrimEnd(s: string): (r: string)
    ensures r <= s
    ensures r == [] || !IsJsWhitespace(r[|r| - 1])
    ensures forall i :: |r| <= i < |s| ==> IsJsWhitespace(s[i])
  {
    if s != [] && IsJsWhitespace(s[|s| - 1]) then TrimEnd(s[..|s| - 1]) else s
  }

  predicate IsDigit(c: char) {
    '0' <= c <= '9'
  }

  function DigitChar(d: nat): (c: char)
    requires d < 10
    ensures IsDigit(c) && (c as int) - ('0' as int) == d
  {
    (('0' as int) + d) as char
  }

  /** The number a string of decimal digits denotes. */
  function DigitsValue(s: string): nat
    requires forall i :: 0 <= i < |s| ==> IsDigit(s[i])
  {
    if s == [] then 0
    else
      assert IsDigit(s[|s| - 1]);
      10 * DigitsValue(s[..|s| - 1]) + ((s[|s| - 1] as int) - ('0' as int))
  }

  /** The decimal text of a natural number, as `String(n)` writes it. */
  function NatToDecimal(n: nat): (r: string)
    ensures |r| > 0
    ensures forall i :: 0 <= i < |r| ==> IsDigit(r[i])
    ensures r[0] == '0' ==> n == 0 && r == "0"
    ensures DigitsValue(r) == n
  {
    if n < 10 then
      [DigitChar(n)]
    else
      var front := NatToDecimal(n / 10);
      var r := front + [DigitChar(n % 10)];
      assert r[..|r| - 1] == front;
      r
  }
}
