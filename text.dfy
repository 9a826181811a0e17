/** The string operations the components use, stated once with the
    semantics of the language each component is written in (JavaScript for
    the front end, Python for the server). Case mapping covers the ASCII
    letters only; see README. */
module Text {

  /** JavaScript's `\s` class; `String.prototype.trim` removes exactly these. */
  predicate IsJsSpace(c: char) {
    c == ' ' || c == '\t' || c == '\n' || c == '\r' || c == '\U{000B}' || c == '\U{000C}'
    || c == '\U{00A0}' || c == '\U{1680}' || ('\U{2000}' <= c <= '\U{200A}')
    || c == '\U{2028}' || c == '\U{2029}' || c == '\U{202F}' || c == '\U{205F}'
    || c == '\U{3000}' || c == '\U{FEFF}'
  }

  /** Python's whitespace: `str.isspace`, `str.strip()` and `\s` in a `str` pattern. */
  predicate IsPySpace(c: char) {
    ('\t' <= c <= '\r') || ('\U{001C}' <= c <= '\U{001F}') || c == ' ' || c == '\U{0085}'
    || c == '\U{00A0}' || c == '\U{1680}' || ('\U{2000}' <= c <= '\U{200A}')
    || c == '\U{2028}' || c == '\U{2029}' || c == '\U{202F}' || c == '\U{205F}'
    || c == '\U{3000}'
  }

  predicate IsAsciiUpper(c: char) { 'A' <= c <= 'Z' }

  predicate IsAsciiLower(c: char) { 'a' <= c <= 'z' }

  predicate IsDigit(c: char) { '0' <= c <= '9' }

  /** JavaScript's `\w` class (a regular expression without the `u` flag). */
  predicate IsJsWordChar(c: char) { IsAsciiUpper(c) || IsAsciiLower(c) || IsDigit(c) || c == '_' }

  function LowerChar(c: char): char { if IsAsciiUpper(c) then (c as int + 32) as char else c }

  function UpperChar(c: char): char { if IsAsciiLower(c) then (c as int - 32) as char else c }

  function ToLower(s: string): string { seq(|s|, i requires 0 <= i < |s| => LowerChar(s[i])) }

  function ToUpper(s: string): string { seq(|s|, i requires 0 <= i < |s| => UpperChar(s[i])) }

  /** Lower-casing leaves a string without upper-case letters unchanged. */
  lemma LowerOfLowerCase(s: string)
    requires forall i :: 0 <= i < |s| ==> !IsAsciiUpper(s[i])
    ensures ToLower(s) == s
  {
  }

  // ---------------------------------------------------------------- trimming

  /** `s` without its leading run of `isSpace` characters. */
  function TrimStart(s: string, isSpace: char -> bool): (r: string)
    ensures |r| <= |s| && r == s[|s| - |r|..]
    ensures forall i :: 0 <= i < |s| - |r| ==> isSpace(s[i])
    ensures r == [] || !isSpace(r[0])
  {
    if s != [] && isSpace(s[0]) then
      var r := TrimStart(s[1..], isSpace);
      assert forall i :: 1 <= i < |s| - |r| ==> s[i] == s[1..][i - 1];
      r
    else s
  }

  /** `s` without its trailing run of `isSpace` characters. */
  function TrimEnd(s: string, isSpace: char -> bool): (r: string)
    ensures |r| <= |s| && r == s[..|r|]
    ensures forall i :: |r| <= i < |s| ==> isSpace(s[i])
    ensures r == [] || !isSpace(r[|r| - 1])
  {
    if s != [] && isSpace(s[|s| - 1]) then
      var r := TrimEnd(s[..|s| - 1], isSpace);
      assert forall i :: |r| <= i < |s| - 1 ==> s[i] == s[..|s| - 1][i];
      r
    else s
  }

  function Trim(s: string, isSpace: char -> bool): string {
    TrimEnd(TrimStart(s, isSpace), isSpace)
  }

  /** `String.prototype.trim`. */
  function JsTrim(s: string): string { Trim(s, IsJsSpace) }

  /** Trimming leaves a string that neither starts nor ends with a space as it is. */
  lemma TrimKeepsUnpadded(s: string, isSpace: char -> bool)
    requires s == [] || (!isSpace(s[0]) && !isSpace(s[|s| - 1]))
    ensures Trim(s, isSpace) == s
  {
  }

  /** `r` is `s` from position `a` on, with only white space before `a`
      and after the end of `r`. */
  predicate StrippedAt(s: string, r: string, a: nat) {
    a + |r| <= |s| && r == s[a..a + |r|]
    && (forall i :: 0 <= i < a ==> IsPySpace(s[i]))
    && (forall i :: a + |r| <= i < |s| ==> IsPySpace(s[i]))
  }

  /** Trimming the front and then the back of `s` leaves `s` from the
      first kept position on, with only white space around it. */
  lemma TrimmedBothEnds(s: string, t: string, r: string)
    requires |t| <= |s| && t == s[|s| - |t|..] && forall i :: 0 <= i < |s| - |t| ==> IsPySpace(s[i])
    requires |r| <= |t| && r == t[..|r|] && forall i :: |r| <= i < |t| ==> IsPySpace(t[i])
    ensures StrippedAt(s, r, |s| - |t|)
  {
    var a := |s| - |t|;
    assert forall i :: a + |r| <= i < |s| ==> s[i] == t[i - a];
    assert forall j :: 0 <= j < |r| ==> r[j] == s[a + j];
  }

  /** Python's `str.strip()`. */
  function PyStrip(s: string): (r: string)
    ensures r == [] || (!IsPySpace(r[0]) && !IsPySpace(r[|r| - 1]))
    ensures exists a: nat :: StrippedAt(s, r, a)
  {
    var t := TrimStart(s, IsPySpace);
    var r := TrimEnd(t, IsPySpace);
    assert r != [] ==> r[0] == t[0];
    TrimmedBothEnds(s, t, r);
    r
  }

  // ------------------------------------------------------- searching

  /** `s.includes(t)` in JavaScript, `t in s` in Python. */
  predicate Contains(s: string, t: string) {
    exists i | 0 <= i <= |s| :: OccursAt(s, t, i)
  }

  /** `t` occurs in `s` starting at position `i`. */
  predicate OccursAt(s: string, t: string, i: int) {
    0 <= i <= |s| - |t| && s[i..i + |t|] == t
  }

  lemma ContainsEmpty(s: string)
    ensures Contains(s, [])
  {
    assert OccursAt(s, [], 0);
  }

  lemma ContainsSelf(s: string)
    ensures Contains(s, s)
  {
    assert OccursAt(s, s, 0);
  }

  predicate StartsWith(s: string, prefix: string) {
    |prefix| <= |s| && s[..|prefix|] == prefix
  }

  predicate EndsWith(s: string, suffix: string) {
    |suffix| <= |s| && s[|s| - |suffix|..] == suffix
  }

  // ------------------------------------------------------- splitting

  /** Index of the first JavaScript whitespace character of `s`, or `|s|`. */
  function FirstJsSpace(s: string): (i: nat)
    ensures i <= |s| && (i < |s| ==> IsJsSpace(s[i]))
    ensures forall k :: 0 <= k < i ==> !IsJsSpace(s[k])
  {
    if s == [] || IsJsSpace(s[0]) then 0 else 1 + FirstJsSpace(s[1..])
  }

  /** JavaScript's `s.split(/\s+/)`: the pieces between maximal runs of
      whitespace. A leading or trailing run yields an empty first or last
      piece, and the empty string splits into `[""]`. */
  function SplitJsWhitespace(s: string): (r: seq<string>)
    ensures |r| >= 1
    decreases |s|
  {
    var i := FirstJsSpace(s);
    if i == |s| then [s]
    else
      var rest := TrimStart(s[i..], IsJsSpace);
      assert |rest| < |s[i..]|;
      [s[..i]] + SplitJsWhitespace(rest)
  }

  // ------------------------------------------------------- numbers

  function DigitChar(d: nat): (c: char)
    requires d < 10
    ensures IsDigit(c)
  {
    ('0' as int + d) as char
  }

  predicate AllDigits(s: string) { forall i :: 0 <= i < |s| ==> IsDigit(s[i]) }

  /** `n.toString()` for a non-negative integer: decimal, no leading zeros. */
  function NatToString(n: nat): (r: string)
    ensures |r| >= 1 && AllDigits(r)
    ensures r[0] == '0' ==> n == 0
    ensures n < 10 <==> |r| == 1
  {
    if n < 10 then [DigitChar(n)] else NatToString(n / 10) + [DigitChar(n % 10)]
  }

  /** Numbers below 100 take at most two digits. */
  lemma TwoDigitsBelowHundred(n: nat)
    requires n < 100
    ensures |NatToString(n)| <= 2
  {
    if n >= 10 {
      assert NatToString(n) == NatToString(n / 10) + [DigitChar(n % 10)];
    }
  }

  /** The number a string of decimal digits denotes. */
  function DigitsValue(s: string): nat
    requires AllDigits(s)
  {
    if s == [] then 0 else 10 * DigitsValue(s[..|s| - 1]) + (s[|s| - 1] as int - '0' as int)
  }

  /** Reading back what `NatToString` writes gives the number again. */
  lemma {:induction false} NatToStringRoundTrip(n: nat)
    ensures DigitsValue(NatToString(n)) == n
  {
    if n >= 10 {
      var s := NatToString(n);
      assert s[..|s| - 1] == NatToString(n / 10);
      NatToStringRoundTrip(n / 10);
    }
  }

  /** A leading zero does not change the value of a digit string. */
  lemma {:induction false} LeadingZeroValue(s: string)
    requires AllDigits(s)
    ensures AllDigits("0" + s) && DigitsValue("0" + s) == DigitsValue(s)
  {
    if s != [] {
      var z := "0" + s;
      assert z[..|z| - 1] == "0" + s[..|s| - 1];
      LeadingZeroValue(s[..|s| - 1]);
    }
  }

  /** `r` reads as a clock showing `seconds`: the part before the last
      three characters is at least `width` digits of minutes, then a colon,
      then exactly two digits of seconds below 60, and minutes * 60 plus
      seconds is `seconds`. */
  predicate ReadsAsClock(r: string, width: nat, seconds: nat) {
    var k := |r| - 3;
    k >= width && r[k] == ':' && AllDigits(r[..k]) && AllDigits(r[k + 1..])
    && DigitsValue(r[k + 1..]) < 60
    && DigitsValue(r[..k]) * 60 + DigitsValue(r[k + 1..]) == seconds
  }

  /** A clock face `m:ss` splits back into its parts at the third
      character from the end. */
  lemma SplitClock(m: string, sec: string)
    requires |sec| == 2
    ensures var r := m + ":" + sec; var k := |r| - 3;
      k == |m| && r[k] == ':' && r[..k] == m && r[k + 1..] == sec
  {
    var r := m + ":" + sec;
    assert r[..|m|] == m;
    assert r[|m| + 1..] == sec;
  }

  /** `s.padStart(2, '0')`. */
  function PadStart2(s: string): (r: string)
    requires AllDigits(s)
    ensures AllDigits(r) && |r| >= 2 && DigitsValue(r) == DigitsValue(s)
    ensures |s| >= 2 ==> r == s
    ensures |s| <= 2 ==> |r| == 2
  {
    if |s| >= 2 then s
    else if |s| == 1 then LeadingZeroValue(s); "0" + s
    else LeadingZeroValue(s); LeadingZeroValue("0" + s); "00"
  }
}
