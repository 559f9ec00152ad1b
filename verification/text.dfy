/** The few Python string operations the client relies on: `str.strip()`,
    `str.rstrip(chars)`, `str.upper()` on HTTP verbs and `str(n)` of a
    status code. */
module Text {
  import opened Wrappers

  /** Python's `value or ""`: a missing (or empty) value reads as "". */
  function OrEmpty(value: Option<string>): (r: string)
    ensures value.Some? ==> r == value.value
    ensures r == [] <==> value.None? || value.value == []
  {
    if value.Some? then value.value else ""
  }

  /** The characters for which Python's `str.isspace()` holds; these are what
      `str.strip()` with no argument removes from both ends. */
  predicate IsSpace(c: char) {
    || c == ' '
    || '\t' <= c <= '\r'
    || '\U{1c}' <= c <= '\U{1f}'
    || c == '\U{85}' || c == '\U{a0}' || c == '\U{1680}'
    || '\U{2000}' <= c <= '\U{200a}'
    || c == '\U{2028}' || c == '\U{2029}' || c == '\U{202f}'
    || c == '\U{205f}' || c == '\U{3000}'
  }

  predicate IsDigit(c: char) {
    '0' <= c <= '9'
  }

  predicate IsLowerAscii(c: char) {
    'a' <= c <= 'z'
  }

  /** Every character of `s` satisfies `p`. */
  predicate All(s: string, p: char -> bool) {
    forall i :: 0 <= i < |s| ==> p(s[i])
  }

  /** The first position at or after `i` whose character does not satisfy
      `p` (or `|s|`): scanning forward over a run of `p`-characters. */
  function ScanForward(s: string, p: char -> bool, i: nat): (j: nat)
    requires i <= |s|
    ensures i <= j <= |s|
    ensures forall k :: i <= k < j ==> p(s[k])
    ensures j < |s| ==> !p(s[j])
    decreases |s| - i
  {
    if i == |s| || !p(s[i]) then i else ScanForward(s, p, i + 1)
  }

  /** The end of `s[lo..j]` once its trailing run of `p`-characters is
      dropped: scanning backward from `j`, never past `lo`. */
  function ScanBackward(s: string, p: char -> bool, lo: nat, j: nat): (e: nat)
    requires lo <= j <= |s|
    ensures lo <= e <= j
    ensures forall k :: e <= k < j ==> p(s[k])
    ensures e > lo ==> !p(s[e - 1])
    decreases j
  {
    if j == lo || !p(s[j - 1]) then j else ScanBackward(s, p, lo, j - 1)
  }

  /** Python's `str.strip()`: the middle of `s` left once the whitespace
      before position `lead` and after `lead + |r|` is cut off; `lead` is
      the length of the leading run of whitespace. */
  function Strip(s: string): (r: string)
    ensures var lead := ScanForward(s, IsSpace, 0);
            && lead + |r| <= |s| && r == s[lead..lead + |r|]
            && (forall i :: 0 <= i < lead ==> IsSpace(s[i]))
            && (forall i :: lead + |r| <= i < |s| ==> IsSpace(s[i]))
    ensures r != [] ==> !IsSpace(r[0]) && !IsSpace(r[|r| - 1])
  {
    var lead := ScanForward(s, IsSpace, 0);
    s[lead..ScanBackward(s, IsSpace, lead, |s|)]
  }

  /** Only an all-whitespace string strips to nothing. */
  lemma StripEmptyIff(s: string)
    ensures Strip(s) == [] <==> All(s, IsSpace)
  {
    var lead := ScanForward(s, IsSpace, 0);
    if All(s, IsSpace) {
      assert lead == |s|;
    }
  }

  /** Stripping is idempotent: a stripped string has nothing left to strip. */
  lemma StripIdempotent(s: string)
    ensures Strip(Strip(s)) == Strip(s)
  {
    var r := Strip(s);
    assert ScanForward(r, IsSpace, 0) == 0;
    assert ScanBackward(r, IsSpace, 0, |r|) == |r|;
    assert r[0..|r|] == r;
  }

  /** Python's `str.upper()` restricted to ASCII letters. */
  function Upper(s: string): (r: string)
    ensures |r| == |s|
    ensures forall i :: 0 <= i < |r| ==> !IsLowerAscii(r[i])
    ensures forall i :: 0 <= i < |s| && !IsLowerAscii(s[i]) ==> r[i] == s[i]
    ensures forall i :: 0 <= i < |s| && IsLowerAscii(s[i]) ==>
              'A' <= r[i] <= 'Z' && r[i] as int - 'A' as int == s[i] as int - 'a' as int
  {
    seq(|s|, i requires 0 <= i < |s| =>
      if IsLowerAscii(s[i]) then (s[i] as int - 32) as char else s[i])
  }

  /** A string without lower-case ASCII letters is its own upper case. */
  lemma UpperIdentity(s: string)
    requires forall i :: 0 <= i < |s| ==> !IsLowerAscii(s[i])
    ensures Upper(s) == s
  {
  }

  function DigitChar(d: nat): (c: char)
    requires d < 10
    ensures IsDigit(c)
  {
    ('0' as int + d) as char
  }

  /** Python's `str(n)` for a non-negative integer: its decimal digits. */
  function Decimal(n: nat): (s: string)
    ensures |s| >= 1 && All(s, IsDigit)
    ensures |s| > 1 ==> s[0] != '0'
    decreases n
  {
    if n < 10 then [DigitChar(n)] else Decimal(n / 10) + [DigitChar(n % 10)]
  }

  /** The value of a string of decimal digits (the inverse of `Decimal`). */
  function ParseDecimal(s: string): nat
    requires All(s, IsDigit)
  {
    if s == [] then 0
    else ParseDecimal(s[..|s| - 1]) * 10 + (s[|s| - 1] as int - '0' as int)
  }

  /** `Decimal` loses nothing: its digits read back as the same number. */
  lemma {:induction false} DecimalRoundTrip(n: nat)
    ensures ParseDecimal(Decimal(n)) == n
    decreases n
  {
    if n >= 10 {
      var s := Decimal(n);
      assert s[..|s| - 1] == Decimal(n / 10);
      DecimalRoundTrip(n / 10);
    }
  }
}
