/**
 * The C library text conversions the depth-map program relies on:
 * `isspace`, `atoi`, and the `%s` and `%d` conversions of the `scanf`
 * family. Every scanner takes the input that is still unread and returns
 * what it leaves unread, so that a scanner's result on `a + b` can be
 * stated in terms of `b` directly.
 */
module CText {
  import opened Wrappers

  /** The characters `isspace` accepts in the "C" locale: blank, and tab through carriage return (9 to 13). */
  predicate IsSpace(c: char) {
    c == ' ' || '\t' <= c <= '\r'
  }

  predicate IsDigit(c: char) {
    '0' <= c <= '9'
  }

  predicate AllDigits(s: string) {
    forall k | 0 <= k < |s| :: IsDigit(s[k])
  }

  /** A non-empty string with no white space in it: what one `%s` reads. */
  predicate IsToken(s: string) {
    |s| > 0 && forall k | 0 <= k < |s| :: !IsSpace(s[k])
  }

  /** `s` ends where it does, or goes on with white space. */
  predicate EndsToken(s: string) {
    s == [] || IsSpace(s[0])
  }

  /** `s` is empty or starts with a character that no scanner skips. */
  predicate StartsUnskippable(s: string) {
    s == [] || !IsSpace(s[0])
  }

  /** The input left after skipping leading white space. */
  function SkipSpaces(s: string): (rest: string)
    ensures |rest| <= |s| && rest == s[|s| - |rest|..]
    ensures StartsUnskippable(rest)
  {
    if s != [] && IsSpace(s[0]) then SkipSpaces(s[1..]) else s
  }

  /** Length of the run of non-space characters that starts s. */
  function TokenLength(s: string): (n: nat)
    ensures n <= |s|
    ensures n == |s| || IsSpace(s[n])
  {
    if s != [] && !IsSpace(s[0]) then 1 + TokenLength(s[1..]) else 0
  }

  /** Number of decimal digits that start s, counting at most max of them. */
  function DigitCount(s: string, max: nat): (n: nat)
    ensures n <= max && n <= |s|
    ensures AllDigits(s[..n])
    ensures n == max || n == |s| || !IsDigit(s[n])
  {
    if max > 0 && s != [] && IsDigit(s[0]) then
      var n := 1 + DigitCount(s[1..], max - 1);
      assert s[..n] == [s[0]] + s[1..][..n - 1];
      n
    else 0
  }

  function DigitValue(c: char): (d: nat)
    requires IsDigit(c)
    ensures d < 10
  {
    c as int - '0' as int
  }

  function DigitChar(d: nat): (c: char)
    requires d < 10
    ensures IsDigit(c) && DigitValue(c) == d
  {
    ('0' as int + d) as char
  }

  /** The value of a string of decimal digits, most significant first. */
  function DecimalValue(d: string): nat
    requires AllDigits(d)
  {
    if d == [] then 0 else 10 * DecimalValue(d[..|d| - 1]) + DigitValue(d[|d| - 1])
  }

  /** `printf("%d")` of a natural number: its decimal digits, no leading zeros. */
  function NatString(n: nat): (s: string)
    ensures |s| > 0 && AllDigits(s)
    ensures n < 10 <==> |s| == 1
  {
    (if n < 10 then [] else NatString(n / 10)) + [DigitChar(n % 10)]
  }

  /** `printf("%02d")` of a number below 100: exactly two digits, zero-padded. */
  function TwoDigits(n: nat): (s: string)
    requires n < 100
    ensures |s| == 2 && AllDigits(s)
  {
    [DigitChar(n / 10), DigitChar(n % 10)]
  }

  /** Outcome of reading an optionally signed decimal integer. */
  datatype IntScan = NoDigits(rest: string) | Scanned(value: int, rest: string)

  /** Reads decimal digits, at most `max` of them. */
  function ScanDigits(s: string, max: nat): (r: IntScan)
    ensures |r.rest| <= |s| && r.rest == s[|s| - |r.rest|..]
    ensures r.Scanned? ==> |r.rest| < |s| && r.value >= 0
  {
    var n := DigitCount(s, max);
    if n == 0 then NoDigits(s) else Scanned(DecimalValue(s[..n]), s[n..])
  }

  /**
   * Reads an optional sign and then decimal digits, using at most `width`
   * characters in all. When no digit follows, the sign, if there was one,
   * has still been consumed: it is a prefix of a number, which is what the
   * C standard's scanf reads as the input item before failing.
   */
  function ScanSigned(s: string, width: nat): (r: IntScan)
    ensures |r.rest| <= |s| && r.rest == s[|s| - |r.rest|..]
    ensures r.Scanned? ==> |r.rest| < |s|
  {
    if width > 0 && s != [] && (s[0] == '+' || s[0] == '-') then
      match ScanDigits(s[1..], width - 1)
      case NoDigits(rest) => NoDigits(rest)
      case Scanned(m, rest) => Scanned(if s[0] == '-' then -m else m, rest)
    else ScanDigits(s, width)
  }

  /**
   * `atoi`: leading white space, an optional sign, then the longest run of
   * digits; 0 when there is no digit. (The C function's behaviour on values
   * that do not fit an `int` is undefined; here integers are unbounded.)
   */
  function Atoi(s: string): int {
    var t := SkipSpaces(s);
    match ScanSigned(t, |t|)
    case NoDigits(_) => 0
    case Scanned(v, _) => v
  }

  /**
   * The `%s` conversion: skip white space, then read the next run of
   * non-space characters. None means the input ended first.
   */
  function ScanString(s: string): (r: Option<(string, string)>)
    ensures r.Some? ==> r.value.0 + r.value.1 == SkipSpaces(s)
  {
    var t := SkipSpaces(s);
    if t == [] then None
    else
      var n := TokenLength(t);
      assert t == t[..n] + t[n..];
      Some((t[..n], t[n..]))
  }

  /** Outcome of one `%d` conversion. */
  datatype IntField =
    | IntEnd                          // the input ended before any character of the field
    | IntMismatch(rest: string)       // a matching failure: no digits where a number belongs
    | IntRead(value: int, rest: string)

  /** The `%d` conversion of `scanf`: skip white space, then a signed decimal number. */
  function ScanIntField(s: string): (r: IntField)
    ensures !r.IntEnd? ==> |r.rest| <= |s|
    ensures r.IntRead? ==> |r.rest| < |s|
  {
    var t := SkipSpaces(s);
    if t == [] then IntEnd
    else
      match ScanSigned(t, |t|)
      case NoDigits(rest) => IntMismatch(rest)
      case Scanned(v, rest) => IntRead(v, rest)
  }

  // ----- Properties

  lemma {:induction false} NatStringValue(n: nat)
    ensures DecimalValue(NatString(n)) == n
  {
    var s := NatString(n);
    assert s[..|s| - 1] == if n < 10 then [] else NatString(n / 10);
    if n >= 10 {
      NatStringValue(n / 10);
    }
  }

  lemma TwoDigitsValue(n: nat)
    requires n < 100
    ensures DecimalValue(TwoDigits(n)) == n
  {
    var s := TwoDigits(n);
    assert s[..1][..0] == [];
    assert DecimalValue(s[..1]) == n / 10;
  }

  /** A run of digits followed by a non-digit, or exactly as long as the limit, is counted exactly. */
  lemma {:induction false} DigitCountPrefix(d: string, rest: string, max: nat)
    requires AllDigits(d) && |d| <= max
    requires |d| == max || rest == [] || !IsDigit(rest[0])
    ensures DigitCount(d + rest, max) == |d|
  {
    if d != [] {
      assert (d + rest)[1..] == d[1..] + rest;
      DigitCountPrefix(d[1..], rest, max - 1);
    }
  }

  /** Everything `SkipSpaces` skips is white space. */
  lemma {:induction false} SkipSpacesSkipsSpaces(s: string)
    ensures forall k | 0 <= k < |s| - |SkipSpaces(s)| :: IsSpace(s[k])
  {
    if s != [] && IsSpace(s[0]) {
      SkipSpacesSkipsSpaces(s[1..]);
      forall k | 0 < k < |s| - |SkipSpaces(s)| ensures IsSpace(s[k]) {
        assert s[k] == s[1..][k - 1];
      }
    }
  }

  /** The token `TokenLength` measures holds no white space. */
  lemma {:induction false} TokenLengthNoSpace(s: string)
    ensures forall k | 0 <= k < TokenLength(s) :: !IsSpace(s[k])
  {
    if s != [] && !IsSpace(s[0]) {
      TokenLengthNoSpace(s[1..]);
      forall k | 0 < k < TokenLength(s) ensures !IsSpace(s[k]) {
        assert s[k] == s[1..][k - 1];
      }
    }
  }

  /** A run of white space is skipped exactly. */
  lemma {:induction false} SkipSpacesPrefix(w: string, rest: string)
    requires forall k | 0 <= k < |w| :: IsSpace(w[k])
    requires StartsUnskippable(rest)
    ensures SkipSpaces(w + rest) == rest
  {
    if w != [] {
      assert (w + rest)[1..] == w[1..] + rest;
      SkipSpacesPrefix(w[1..], rest);
    }
  }

  /** A token followed by white space (or nothing) is read exactly. */
  lemma {:induction false} TokenLengthPrefix(t: string, rest: string)
    requires forall k | 0 <= k < |t| :: !IsSpace(t[k])
    requires EndsToken(rest)
    ensures TokenLength(t + rest) == |t|
  {
    if t != [] {
      assert (t + rest)[1..] == t[1..] + rest;
      TokenLengthPrefix(t[1..], rest);
    }
  }

  /** A run of digits that fits the width and is followed by a non-digit, or fills the width, is read exactly. */
  lemma ScanDigitsPrefix(d: string, rest: string, max: nat)
    requires AllDigits(d) && 0 < |d| <= max
    requires |d| == max || rest == [] || !IsDigit(rest[0])
    ensures ScanDigits(d + rest, max) == Scanned(DecimalValue(d), rest)
  {
    DigitCountPrefix(d, rest, max);
    assert (d + rest)[..|d|] == d && (d + rest)[|d|..] == rest;
  }

  /** Without a sign, `ScanSigned` reads digits only. */
  lemma ScanSignedAtDigit(s: string, width: nat)
    requires s != [] && IsDigit(s[0])
    ensures ScanSigned(s, width) == ScanDigits(s, width)
  {
  }

  /** Reading back a printed natural number. */
  lemma ScanSignedNatString(n: nat, rest: string, width: nat)
    requires rest == [] || !IsDigit(rest[0])
    requires width >= |NatString(n)|
    ensures ScanSigned(NatString(n) + rest, width) == Scanned(n, rest)
  {
    var d := NatString(n);
    assert (d + rest)[0] == d[0];
    ScanSignedAtDigit(d + rest, width);
    ScanDigitsPrefix(d, rest, width);
    NatStringValue(n);
  }

  /** `%02d` reads back a zero-padded number below 100, whatever follows it. */
  lemma ScanSignedTwoDigits(n: nat, rest: string)
    requires n < 100
    ensures ScanSigned(TwoDigits(n) + rest, 2) == Scanned(n, rest)
  {
    var d := TwoDigits(n);
    assert (d + rest)[0] == d[0];
    ScanSignedAtDigit(d + rest, 2);
    ScanDigitsPrefix(d, rest, 2);
    TwoDigitsValue(n);
  }

  /** Nothing is skipped before a digit. */
  lemma SkipSpacesAtDigit(s: string)
    requires s != [] && IsDigit(s[0])
    ensures SkipSpaces(s) == s
  {
  }

  /** `atoi` reads back a printed natural number, whatever non-digit follows it. */
  lemma AtoiNatString(n: nat, rest: string)
    requires rest == [] || !IsDigit(rest[0])
    ensures Atoi(NatString(n) + rest) == n
  {
    var s := NatString(n) + rest;
    assert !IsSpace(s[0]);
    ScanSignedNatString(n, rest, |s|);
  }

  /** `%s` reports the end of input exactly when nothing but white space is left. */
  lemma ScanStringEnd(s: string)
    ensures ScanString(s).None? <==> forall k | 0 <= k < |s| :: IsSpace(s[k])
  {
    var t := SkipSpaces(s);
    SkipSpacesSkipsSpaces(s);
    if t != [] {
      assert s[|s| - |t|] == t[0];
    }
  }

  /** `%d` reports the end of input exactly when nothing but white space is left. */
  lemma ScanIntFieldEnd(s: string)
    ensures ScanIntField(s).IntEnd? <==> forall k | 0 <= k < |s| :: IsSpace(s[k])
  {
    var t := SkipSpaces(s);
    SkipSpacesSkipsSpaces(s);
    if t != [] {
      assert s[|s| - |t|] == t[0];
    }
  }

  /** What `%s` reads is a whole token: non-empty, without white space, and not followed by more of it. */
  lemma ScanStringReadsToken(s: string)
    ensures ScanString(s).Some? ==> IsToken(ScanString(s).value.0) && EndsToken(ScanString(s).value.1)
  {
    var t := SkipSpaces(s);
    if t != [] {
      var n := TokenLength(t);
      var token, rest := t[..n], t[n..];
      TokenLengthNoSpace(t);
      assert n > 0 by { assert !IsSpace(t[0]); }
      assert IsToken(token) by {
        forall k | 0 <= k < |token| ensures !IsSpace(token[k]) { assert token[k] == t[k]; }
      }
      assert EndsToken(rest) by { if rest != [] { assert rest[0] == t[n]; } }
    }
  }

  /** `%s` reads a token that is followed by white space or the end of input. */
  lemma ScanStringToken(w: string, t: string, rest: string)
    requires forall k | 0 <= k < |w| :: IsSpace(w[k])
    requires IsToken(t) && EndsToken(rest)
    ensures ScanString(w + t + rest) == Some((t, rest))
  {
    assert w + t + rest == w + (t + rest);
    assert StartsUnskippable(t + rest) by { assert (t + rest)[0] == t[0]; }
    SkipSpacesPrefix(w, t + rest);
    TokenLengthPrefix(t, rest);
    ScanStringSplit(w + t + rest, t, rest);
  }

  /** Once white space is skipped, `%s` reads the token up to the first white space. */
  lemma ScanStringSplit(s: string, t: string, rest: string)
    requires t != [] && SkipSpaces(s) == t + rest && TokenLength(t + rest) == |t|
    ensures ScanString(s) == Some((t, rest))
  {
    assert (t + rest)[..|t|] == t && (t + rest)[|t|..] == rest;
  }

  /** `%d` reads a printed natural number that is followed by white space or the end of input. */
  lemma ScanIntFieldNat(w: string, n: nat, rest: string)
    requires forall k | 0 <= k < |w| :: IsSpace(w[k])
    requires EndsToken(rest)
    ensures ScanIntField(w + NatString(n) + rest) == IntRead(n, rest)
  {
    var d := NatString(n);
    assert w + d + rest == w + (d + rest);
    assert StartsUnskippable(d + rest) by { assert (d + rest)[0] == d[0]; }
    SkipSpacesPrefix(w, d + rest);
    assert rest == [] || !IsDigit(rest[0]);
    ScanSignedNatString(n, rest, |d + rest|);
    ScanIntFieldSplit(w + d + rest, d + rest, n, rest);
  }

  /** Once white space is skipped, `%d` yields what the signed-number scan reads. */
  lemma ScanIntFieldSplit(s: string, t: string, v: int, rest: string)
    requires t != [] && SkipSpaces(s) == t && ScanSigned(t, |t|) == Scanned(v, rest)
    ensures ScanIntField(s) == IntRead(v, rest)
  {
  }
}
