/**
 * The few .NET string operations the generator relies on, written out over
 * `seq<char>`: decimal formatting of an `int`, `Char.IsWhiteSpace`,
 * `String.Trim`, prefix and suffix tests, literal replacement, and the
 * line-ending escape applied to embedded shader sources.
 */
module Strings {

  // ---------------------------------------------------------------------------
  // Decimal formatting (what `"..." + counter` produces for a non-negative int)
  // ---------------------------------------------------------------------------

  predicate IsDigit(c: char) {
    '0' <= c <= '9'
  }

  predicate AllDigits(s: string) {
    forall i :: 0 <= i < |s| ==> IsDigit(s[i])
  }

  function DigitChar(d: nat): (c: char)
    requires d < 10
    ensures IsDigit(c) && c as int - '0' as int == d
  {
    (48 + d) as char
  }

  /** The value a string of decimal digits denotes. */
  function DecimalValue(s: string): nat
    requires AllDigits(s)
  {
    if s == [] then 0 else DecimalValue(s[..|s| - 1]) * 10 + (s[|s| - 1] as int - '0' as int)
  }

  /** Shortest decimal representation of `n`, as `Int32.ToString()` prints it. */
  function DecimalString(n: nat): (s: string)
    ensures |s| >= 1 && AllDigits(s)
    ensures s[0] == '0' ==> s == "0"
    decreases n
  {
    if n < 10 then [DigitChar(n)] else DecimalString(n / 10) + [DigitChar(n % 10)]
  }

  lemma {:induction false} DecimalRoundTrip(n: nat)
    ensures DecimalValue(DecimalString(n)) == n
    decreases n
  {
    if n >= 10 {
      DecimalRoundTrip(n / 10);
      var s := DecimalString(n);
      assert s[..|s| - 1] == DecimalString(n / 10);
    }
  }

  /**
   * `Int32.ToString()` for any sign: a minus sign exactly for a negative
   * number, then decimal digits that read back as its magnitude.
   */
  function IntString(n: int): (s: string)
    ensures |s| >= 1 && (n < 0 <==> s[0] == '-')
    ensures var digits := if n < 0 then s[1..] else s;
            AllDigits(digits) && DecimalValue(digits) == (if n < 0 then -n else n)
  {
    var d := DecimalString(if n < 0 then -n else n);
    DecimalRoundTrip(if n < 0 then -n else n);
    if n < 0 then
      assert ("-" + d)[1..] == d;
      "-" + d
    else
      d
  }

  /** Distinct numbers print differently, so distinct texture units read differently. */
  lemma DecimalStringInjective(m: nat, n: nat)
    ensures DecimalString(m) == DecimalString(n) <==> m == n
  {
    DecimalRoundTrip(m);
    DecimalRoundTrip(n);
  }

  // ---------------------------------------------------------------------------
  // White space and trimming
  // ---------------------------------------------------------------------------

  /**
   * `Char.IsWhiteSpace`: the Unicode space, line and paragraph separators plus
   * the control characters U+0009 to U+000D and U+0085.
   */
  predicate IsWhiteSpace(c: char) {
    var n := c as int;
    n == 0x20 || 0x09 <= n <= 0x0D || n == 0x85 || n == 0xA0 || n == 0x1680
    || 0x2000 <= n <= 0x200A || n == 0x2028 || n == 0x2029 || n == 0x202F
    || n == 0x205F || n == 0x3000
  }

  function TrimStart(s: string): (r: string)
    ensures |r| <= |s| && r == s[|s| - |r|..]
    ensures forall i :: 0 <= i < |s| - |r| ==> IsWhiteSpace(s[i])
    ensures r != [] ==> !IsWhiteSpace(r[0])
  {
    if s != [] && IsWhiteSpace(s[0]) then TrimStart(s[1..]) else s
  }

  function TrimEnd(s: string): (r: string)
    ensures |r| <= |s| && r == s[..|r|]
    ensures forall i :: |r| <= i < |s| ==> IsWhiteSpace(s[i])
    ensures r != [] ==> !IsWhiteSpace(r[|r| - 1])
  {
    if s != [] && IsWhiteSpace(s[|s| - 1]) then TrimEnd(s[..|s| - 1]) else s
  }

  /** Every character of `s` is white space. */
  predicate AllWhiteSpace(s: string) {
    forall i :: 0 <= i < |s| ==> IsWhiteSpace(s[i])
  }

  /** `String.Trim()`: drops leading and trailing white space, nothing else. */
  function Trim(s: string): (r: string)
    ensures |r| <= |s|
    ensures r != [] ==> !IsWhiteSpace(r[0]) && !IsWhiteSpace(r[|r| - 1])
    ensures r == [] <==> AllWhiteSpace(s)
    ensures exists a, b :: 0 <= a <= b <= |s| && r == s[a..b] && AllWhiteSpace(s[..a]) && AllWhiteSpace(s[b..])
  {
    var t := TrimStart(s);
    var r := TrimEnd(t);
    TrimmedAway(s, t, r);
    assert AllWhiteSpace(s[..|s| - |t|]) && AllWhiteSpace(t[|r|..]);
    TrimmedSlice(s, t, r);
    r
  }

  /** What trimming keeps is the slice between the white space it drops at either end. */
  lemma TrimmedSlice(s: string, t: string, r: string)
    requires |t| <= |s| && t == s[|s| - |t|..] && AllWhiteSpace(s[..|s| - |t|])
    requires |r| <= |t| && r == t[..|r|] && AllWhiteSpace(t[|r|..])
    ensures exists a, b :: 0 <= a <= b <= |s| && r == s[a..b] && AllWhiteSpace(s[..a]) && AllWhiteSpace(s[b..])
  {
    var a := |s| - |t|;
    var b := a + |r|;
    assert r == s[a..b] by {
      forall i | 0 <= i < |r| ensures r[i] == s[a + i] {
        assert r[i] == t[i] == s[a..][i];
      }
    }
    assert s[b..] == t[|r|..];
  }

  lemma TrimmedAway(s: string, t: string, r: string)
    requires t == TrimStart(s) && r == TrimEnd(t)
    ensures r != [] ==> !IsWhiteSpace(r[0])
    ensures r == [] <==> AllWhiteSpace(s)
  {
    if r == [] {
      assert t == [];
    } else {
      assert r[0] == t[0] == s[|s| - |t|];
    }
  }

  // ---------------------------------------------------------------------------
  // Prefixes and suffixes
  // ---------------------------------------------------------------------------

  predicate StartsWith(s: string, prefix: string) {
    |prefix| <= |s| && s[..|prefix|] == prefix
  }

  function LowerChar(c: char): (l: char)
    ensures 'A' <= c <= 'Z' ==> l as int == c as int + 32
    ensures !('A' <= c <= 'Z') ==> l == c
  {
    if 'A' <= c <= 'Z' then (c as int + 32) as char else c
  }

  function Lower(s: string): (r: string)
    ensures |r| == |s| && forall i :: 0 <= i < |s| ==> r[i] == LowerChar(s[i])
  {
    seq(|s|, i requires 0 <= i < |s| => LowerChar(s[i]))
  }

  /** `s.EndsWith(suffix, true, null)`, with case folded over the ASCII letters. */
  predicate EndsWithIgnoreCase(s: string, suffix: string) {
    |suffix| <= |s| && Lower(s[|s| - |suffix|..]) == Lower(suffix)
  }

  lemma EndsWithIgnoresCase(s: string, suffix: string)
    ensures EndsWithIgnoreCase(s, suffix) == EndsWithIgnoreCase(Lower(s), suffix)
    ensures EndsWithIgnoreCase(s, suffix) == EndsWithIgnoreCase(s, Lower(suffix))
  {
    if |suffix| <= |s| {
      var t := s[|s| - |suffix|..];
      assert Lower(Lower(s)[|s| - |suffix|..]) == Lower(t);
      assert Lower(Lower(suffix)) == Lower(suffix);
    }
  }

  // ---------------------------------------------------------------------------
  // Literal replacement
  // ---------------------------------------------------------------------------

  predicate OccursAt(s: string, pat: string, i: nat) {
    i + |pat| <= |s| && s[i..i + |pat|] == pat
  }

  predicate Contains(s: string, pat: string) {
    exists i: nat | i <= |s| :: OccursAt(s, pat, i)
  }

  /**
   * Replaces, left to right, every non-overlapping occurrence of `pat` by
   * `rep`, as `Regex.Replace` does for a pattern without metacharacters.
   */
  function ReplaceAll(s: string, pat: string, rep: string): (r: string)
    requires pat != []
    ensures !Contains(s, pat) ==> r == s
    decreases |s|
  {
    if StartsWith(s, pat) then
      assert OccursAt(s, pat, 0);
      rep + ReplaceAll(s[|pat|..], pat, rep)
    else if s == [] then
      []
    else
      var rest := ReplaceAll(s[1..], pat, rep);
      assert !Contains(s, pat) ==> !Contains(s[1..], pat) by {
        if Contains(s[1..], pat) {
          var i: nat :| i <= |s[1..]| && OccursAt(s[1..], pat, i);
          assert s[i + 1..i + 1 + |pat|] == s[1..][i..i + |pat|];
          assert OccursAt(s, pat, i + 1);
        }
      }
      [s[0]] + rest
  }

  // ---------------------------------------------------------------------------
  // Line endings
  // ---------------------------------------------------------------------------

  predicate IsLineEnding(c: char) {
    c == '\r' || c == '\n'
  }

  predicate NoLineEndings(s: string) {
    forall i :: 0 <= i < |s| ==> !IsLineEnding(s[i])
  }

  /**
   * `Regex.Replace(s, "(\r\n|\r|\n)", "\\n")`: each CRLF, lone CR or lone LF
   * becomes the two characters backslash and `n`.
   */
  function EscapeLineEndings(s: string): (r: string)
    ensures NoLineEndings(r)
    ensures NoLineEndings(s) ==> r == s
    ensures '\\' !in s ==> DecodeNewlineEscapes(r) == NormalizeLineEndings(s)
  {
    if s == [] then
      []
    else if |s| >= 2 && s[0] == '\r' && s[1] == '\n' then
      var rest := EscapeLineEndings(s[2..]);
      assert ("\\n" + rest)[2..] == rest;
      "\\n" + rest
    else if IsLineEnding(s[0]) then
      var rest := EscapeLineEndings(s[1..]);
      assert ("\\n" + rest)[2..] == rest;
      "\\n" + rest
    else
      var rest := EscapeLineEndings(s[1..]);
      assert ([s[0]] + rest)[1..] == rest;
      assert NoLineEndings(s) ==> NoLineEndings(s[1..]) by {
        if NoLineEndings(s) {
          forall i | 0 <= i < |s| - 1 ensures !IsLineEnding(s[1..][i]) {
            assert s[1..][i] == s[i + 1];
          }
        }
      }
      [s[0]] + rest
  }

  /** The text with every CRLF and every lone CR turned into LF. */
  function NormalizeLineEndings(s: string): (r: string)
    ensures '\r' !in r
  {
    if s == [] then []
    else if |s| >= 2 && s[0] == '\r' && s[1] == '\n' then "\n" + NormalizeLineEndings(s[2..])
    else if IsLineEnding(s[0]) then "\n" + NormalizeLineEndings(s[1..])
    else [s[0]] + NormalizeLineEndings(s[1..])
  }

  /** How a C# regular string literal reads the `\n` escape back (other escapes are not used). */
  function DecodeNewlineEscapes(t: string): string
  {
    if t == [] then []
    else if |t| >= 2 && t[0] == '\\' && t[1] == 'n' then "\n" + DecodeNewlineEscapes(t[2..])
    else [t[0]] + DecodeNewlineEscapes(t[1..])
  }
}
