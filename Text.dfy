/**
 * String helpers used by the listing engine: the digit strip that turns a
 * display price into a number, decimal formatting with locale digit grouping,
 * ASCII case folding, substring search and JavaScript's `trim`.
 */
module Text {

  predicate IsDigit(c: char) {
    '0' <= c <= '9'
  }

  predicate AllDigits(s: string) {
    forall i :: 0 <= i < |s| ==> IsDigit(s[i])
  }

  function DigitValue(c: char): (d: nat)
    requires IsDigit(c)
    ensures d < 10
  {
    c as int - '0' as int
  }

  function DigitChar(d: nat): (c: char)
    requires d < 10
    ensures IsDigit(c) && DigitValue(c) == d
  {
    ('0' as int + d) as char
  }

  /** `s.replace(/[^0-9]/g, "")`: keeps exactly the ASCII digits, in order. */
  function StripNonDigits(s: string): (r: string)
    ensures AllDigits(r)
    ensures |r| <= |s|
  {
    if s == [] then []
    else (if IsDigit(s[0]) then [s[0]] else []) + StripNonDigits(s[1..])
  }

  lemma {:induction false} StripConcat(a: string, b: string)
    ensures StripNonDigits(a + b) == StripNonDigits(a) + StripNonDigits(b)
  {
    if a != [] {
      var head := if IsDigit(a[0]) then [a[0]] else [];
      assert (a + b)[0] == a[0] && (a + b)[1..] == a[1..] + b;
      StripConcat(a[1..], b);
      calc {
        StripNonDigits(a + b);
        head + StripNonDigits(a[1..] + b);
        head + (StripNonDigits(a[1..]) + StripNonDigits(b));
        (head + StripNonDigits(a[1..])) + StripNonDigits(b);
      }
    } else {
      assert a + b == b;
    }
  }

  lemma {:induction false} StripDigitsIsIdentity(s: string)
    requires AllDigits(s)
    ensures StripNonDigits(s) == s
  {
    if s != [] {
      StripDigitsIsIdentity(s[1..]);
    }
  }

  /** A separator-only string contributes nothing to the digit strip. */
  lemma {:induction false} StripNoDigits(s: string)
    requires forall i :: 0 <= i < |s| ==> !IsDigit(s[i])
    ensures StripNonDigits(s) == []
  {
    if s != [] {
      StripNoDigits(s[1..]);
    }
  }

  /** `Number(ds)` for a string of decimal digits; the empty string is 0. */
  function ParseDigits(ds: string): nat
    requires AllDigits(ds)
  {
    if ds == [] then 0
    else 10 * ParseDigits(ds[..|ds| - 1]) + DigitValue(ds[|ds| - 1])
  }

  /** The shortest decimal representation of `n`, as `String(n)` prints it. */
  function Digits(n: nat): (r: string)
    ensures |r| >= 1 && AllDigits(r)
  {
    if n < 10 then [DigitChar(n)]
    else Digits(n / 10) + [DigitChar(n % 10)]
  }

  lemma {:induction false} ParseDigitsOfDigits(n: nat)
    ensures ParseDigits(Digits(n)) == n
  {
    if n >= 10 {
      var ds := Digits(n);
      assert ds[..|ds| - 1] == Digits(n / 10);
      ParseDigitsOfDigits(n / 10);
    }
  }

  /** Only a zero is printed with a leading '0'. */
  lemma {:induction false} DigitsNoLeadingZero(n: nat)
    ensures Digits(n)[0] == '0' <==> n == 0
  {
    if n >= 10 {
      DigitsNoLeadingZero(n / 10);
    }
  }

  /**
   * How `Number.prototype.toLocaleString` groups the integer digits: the
   * rightmost group has `primary` digits, every group to its left has
   * `secondary` digits, and groups are joined by `separator`
   * (en-US: 3, 3, ','; en-IN: 3, 2, ',').
   */
  datatype NumberLocale = NumberLocale(primary: nat, secondary: nat, separator: char)

  predicate ValidLocale(loc: NumberLocale) {
    loc.primary > 0 && loc.secondary > 0 && !IsDigit(loc.separator)
  }

  const EnUS: NumberLocale := NumberLocale(3, 3, ',')
  const EnIN: NumberLocale := NumberLocale(3, 2, ',')

  /** Inserts `sep` so that the rightmost group has `size` characters and the others `rest`. */
  function GroupDigits(ds: string, size: nat, rest: nat, sep: char): string
    requires size > 0 && rest > 0
    decreases |ds|
  {
    if |ds| <= size then ds
    else GroupDigits(ds[..|ds| - size], rest, rest, sep) + [sep] + ds[|ds| - size..]
  }

  function FormatGrouped(loc: NumberLocale, n: nat): string
    requires ValidLocale(loc)
  {
    GroupDigits(Digits(n), loc.primary, loc.secondary, loc.separator)
  }

  /** Grouping only inserts separators: stripping them gives the digits back. */
  lemma {:induction false} StripGroupDigits(ds: string, size: nat, rest: nat, sep: char)
    requires size > 0 && rest > 0 && !IsDigit(sep)
    ensures StripNonDigits(GroupDigits(ds, size, rest, sep)) == StripNonDigits(ds)
    decreases |ds|
  {
    if |ds| > size {
      var hi, lo := ds[..|ds| - size], ds[|ds| - size..];
      StripGroupDigits(hi, rest, rest, sep);
      StripConcat(GroupDigits(hi, rest, rest, sep), [sep]);
      StripConcat(GroupDigits(hi, rest, rest, sep) + [sep], lo);
      StripConcat(hi, lo);
      assert hi + lo == ds;
      assert StripNonDigits([sep]) == [] by { StripNoDigits([sep]); }
    }
  }

  /** Digit-stripping a grouped number, whatever the locale, gives the number back. */
  lemma FormatGroupedRoundTrip(loc: NumberLocale, n: nat)
    requires ValidLocale(loc)
    ensures AllDigits(StripNonDigits(FormatGrouped(loc, n)))
    ensures ParseDigits(StripNonDigits(FormatGrouped(loc, n))) == n
  {
    StripGroupDigits(Digits(n), loc.primary, loc.secondary, loc.separator);
    StripDigitsIsIdentity(Digits(n));
    ParseDigitsOfDigits(n);
  }

  /** ASCII part of `toLowerCase`. */
  function LowerChar(c: char): (r: char)
    ensures !('A' <= r <= 'Z')
  {
    if 'A' <= c <= 'Z' then (c as int + 32) as char else c
  }

  /**
   * `toLowerCase` on ASCII: no upper-case letter is left, each upper-case
   * letter becomes its lower-case partner, and every other character stays.
   */
  function Lower(s: string): (r: string)
    ensures |r| == |s|
    ensures forall i :: 0 <= i < |r| ==> !('A' <= r[i] <= 'Z')
    ensures forall i :: 0 <= i < |s| && !('A' <= s[i] <= 'Z') ==> r[i] == s[i]
    ensures forall i :: 0 <= i < |s| && 'A' <= s[i] <= 'Z' ==>
      'a' <= r[i] <= 'z' && r[i] as int - s[i] as int == 'a' as int - 'A' as int
  {
    seq(|s|, i requires 0 <= i < |s| => LowerChar(s[i]))
  }

  /** Lower-casing twice is lower-casing once. */
  lemma LowerIdempotent(s: string)
    ensures Lower(Lower(s)) == Lower(s)
  {
    var r := Lower(s);
    assert forall i :: 0 <= i < |r| ==> Lower(r)[i] == r[i];
  }

  /** `s.includes(sub)`: `sub` occurs as a contiguous block of `s`. */
  predicate Includes(s: string, sub: string)
    decreases |s|
  {
    sub <= s || (s != [] && Includes(s[1..], sub))
  }

  lemma {:induction false} IncludesAt(s: string, sub: string, k: nat)
    requires k + |sub| <= |s| && s[k..k + |sub|] == sub
    ensures Includes(s, sub)
    decreases k
  {
    if k > 0 {
      assert s[1..][k - 1..k - 1 + |sub|] == sub;
      IncludesAt(s[1..], sub, k - 1);
    }
  }

  lemma {:induction false} IncludesWitness(s: string, sub: string) returns (k: nat)
    requires Includes(s, sub)
    ensures k + |sub| <= |s| && s[k..k + |sub|] == sub
    decreases |s|
  {
    if sub <= s {
      k := 0;
    } else {
      var k' := IncludesWitness(s[1..], sub);
      k := k' + 1;
      assert s[k..k + |sub|] == s[1..][k'..k' + |sub|];
    }
  }

  /** The characters JavaScript's `trim` removes: WhiteSpace and LineTerminator. */
  predicate IsJsWhiteSpace(c: char) {
    var k := c as int;
    k == 0x09 || k == 0x0A || k == 0x0B || k == 0x0C || k == 0x0D || k == 0x20 ||
    k == 0xA0 || k == 0x1680 || (0x2000 <= k <= 0x200A) || k == 0x2028 ||
    k == 0x2029 || k == 0x202F || k == 0x205F || k == 0x3000 || k == 0xFEFF
  }

  predicate IsBlank(s: string) {
    forall i :: 0 <= i < |s| ==> IsJsWhiteSpace(s[i])
  }

  function TrimStart(s: string): string {
    if s != [] && IsJsWhiteSpace(s[0]) then TrimStart(s[1..]) else s
  }

  function TrimEnd(s: string): string {
    if s != [] && IsJsWhiteSpace(s[|s| - 1]) then TrimEnd(s[..|s| - 1]) else s
  }

  /** `s.trim()`. */
  function Trim(s: string): string {
    TrimEnd(TrimStart(s))
  }

  lemma {:induction false} TrimStartEmpty(s: string)
    ensures TrimStart(s) == [] <==> IsBlank(s)
  {
    if s != [] {
      TrimStartEmpty(s[1..]);
      if IsJsWhiteSpace(s[0]) {
        assert IsBlank(s) <==> IsBlank(s[1..]) by {
          if IsBlank(s[1..]) {
            forall i | 0 <= i < |s| ensures IsJsWhiteSpace(s[i]) {
              if i > 0 { assert s[i] == s[1..][i - 1]; }
            }
          }
        }
      }
    }
  }

  lemma {:induction false} TrimStartHead(s: string)
    ensures TrimStart(s) != [] ==> !IsJsWhiteSpace(TrimStart(s)[0])
  {
    if s != [] && IsJsWhiteSpace(s[0]) {
      TrimStartHead(s[1..]);
    }
  }

  /** A string that starts with a non-white-space character survives `TrimEnd`. */
  lemma {:induction false} TrimEndKeepsHead(s: string)
    requires s != [] && !IsJsWhiteSpace(s[0])
    ensures TrimEnd(s) != []
    decreases |s|
  {
    if IsJsWhiteSpace(s[|s| - 1]) {
      var t := s[..|s| - 1];
      assert t[0] == s[0];
      TrimEndKeepsHead(t);
    }
  }

  /** `s.trim() !== ""` exactly when `s` has a character that is not white space. */
  lemma TrimEmptyIffBlank(s: string)
    ensures Trim(s) == [] <==> IsBlank(s)
  {
    TrimStartEmpty(s);
    TrimStartHead(s);
    if TrimStart(s) != [] {
      TrimEndKeepsHead(TrimStart(s));
    }
  }
}
