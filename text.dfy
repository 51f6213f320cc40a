/** String helpers shared by every version: the prefix tests, searches and slices the
    original code performs with .NET `string` methods and Python slicing. */
module Text {
  import opened Wrappers

  predicate StartsWith(s: string, p: string) {
    |p| <= |s| && s[..|p|] == p
  }

  /** .NET `s.IndexOf(c, from)`: the first position at or after `from` holding `c`. */
  function IndexOfFrom(s: string, c: char, from: nat): (r: Option<nat>)
    ensures r.Some? ==> from <= r.value < |s| && s[r.value] == c
    ensures r.Some? ==> forall k | from <= k < r.value :: s[k] != c
    ensures r.None? ==> forall k | from <= k < |s| :: s[k] != c
    decreases |s| - from
  {
    if from >= |s| then None
    else if s[from] == c then Some(from)
    else IndexOfFrom(s, c, from + 1)
  }

  function Min(a: int, b: int): int {
    if a <= b then a else b
  }

  /** Python `s[i:j]` for non-negative bounds: out-of-range bounds are clipped. */
  function PySlice(s: string, i: nat, j: nat): (r: string)
    ensures |r| <= |s| && |r| <= j
    ensures i <= j <= |s| ==> r == s[i..j]
  {
    var e := Min(j, |s|);
    var b := Min(i, e);
    s[b..e]
  }

  /** Python `s.lstrip(c)` for a single character. */
  function LStrip(s: string, c: char): (r: string)
    ensures |r| <= |s| && (r == [] || r[0] != c)
    ensures r == s[|s| - |r|..]
    ensures forall k | 0 <= k < |s| - |r| :: s[k] == c
  {
    if s != [] && s[0] == c then LStrip(s[1..], c) else s
  }

  /** Python `s.replace(c, '')` for a single character. */
  function RemoveChar(s: string, c: char): (r: string)
    ensures c !in r
    ensures |r| <= |s|
    ensures c !in s ==> r == s
  {
    if s == [] then []
    else if s[0] == c then RemoveChar(s[1..], c)
    else [s[0]] + RemoveChar(s[1..], c)
  }

  /** .NET `Char.IsWhiteSpace`: the Unicode separators plus the control characters
      U+0009..U+000D and U+0085. */
  predicate IsWhiteSpace(c: char) {
    || ('\t' <= c <= '\r') || c == ' ' || c == '\U{0085}' || c == '\U{00A0}' || c == '\U{1680}'
    || ('\U{2000}' <= c <= '\U{200A}') || c == '\U{2028}' || c == '\U{2029}' || c == '\U{202F}'
    || c == '\U{205F}' || c == '\U{3000}'
  }

  /** Python's `str.isspace` on one character: .NET's white space and the separators
      U+001C..U+001F. */
  predicate IsPySpace(c: char) {
    IsWhiteSpace(c) || ('\U{001C}' <= c <= '\U{001F}')
  }

  /** .NET `string.IsNullOrWhiteSpace` for a line that was read (never null). */
  predicate IsBlank(s: string) {
    forall k | 0 <= k < |s| :: IsWhiteSpace(s[k])
  }

  predicate IsDigit(c: char) {
    '0' <= c <= '9'
  }

  predicate AllDigits(s: string) {
    forall k | 0 <= k < |s| :: IsDigit(s[k])
  }

  /** The decimal value of a string of ASCII digits, as Python's `int` computes it. */
  function DigitsValue(s: string): (n: nat)
    requires AllDigits(s)
  {
    if s == [] then 0 else DigitsValue(s[..|s| - 1]) * 10 + (s[|s| - 1] as int - '0' as int)
  }

  /** The shortest decimal spelling of `n`, as Python's `str` writes it. */
  function NatToString(n: nat): (s: string)
    ensures |s| >= 1 && AllDigits(s)
  {
    if n < 10 then [('0' as int + n) as char]
    else NatToString(n / 10) + [('0' as int + n % 10) as char]
  }

  /** Reading back what `NatToString` writes gives the number again. */
  lemma {:induction false} DigitsValueOfNatToString(n: nat)
    ensures DigitsValue(NatToString(n)) == n
  {
    if n >= 10 {
      var s := NatToString(n);
      var init := NatToString(n / 10);
      assert s[..|s| - 1] == init;
      DigitsValueOfNatToString(n / 10);
    }
  }

  /** The length of the longest run of ASCII digits at the front of `s`. */
  function DigitRun(s: string): (n: nat)
    ensures n <= |s| && AllDigits(s[..n])
    ensures n < |s| ==> !IsDigit(s[n])
  {
    if s != [] && IsDigit(s[0]) then
      var n := 1 + DigitRun(s[1..]);
      assert s[..n] == [s[0]] + s[1..][..n - 1];
      n
    else 0
  }
}
