/**
 * The JavaScript string built-ins the modelled code relies on: `String.prototype.split`
 * with a literal separator (what `str.split(new RegExp(exp))` does for the separators
 * "\r\n\r\n", "\r\n", " " and ": ", none of which holds a regular-expression
 * metacharacter), `Array.prototype.join`, `parseInt` with its default radix,
 * `String(n)` for integers and the ASCII lower-casing that header names undergo.
 */
module JsText {
  import opened Wrappers

  // ---------------------------------------------------------------------------
  // Occurrences of a separator

  /** `sep` occurs in `s` starting at index `k`. */
  predicate OccursAt(s: string, sep: string, k: int) {
    0 <= k && k + |sep| <= |s| && s[k..k + |sep|] == sep
  }

  ghost predicate Contains(s: string, sep: string) {
    exists k :: OccursAt(s, sep, k)
  }

  /** `k` is the first index at which `sep` occurs in `s`. */
  ghost predicate FirstAt(s: string, sep: string, k: int) {
    OccursAt(s, sep, k) && forall j :: 0 <= j < k ==> !OccursAt(s, sep, j)
  }

  /** No proper prefix of `sep` is also a suffix of it, so two occurrences never overlap. */
  ghost predicate BorderFree(sep: string) {
    forall m :: 0 < m < |sep| ==> sep[m..] != sep[..|sep| - m]
  }

  /** No occurrence of `sep` in `a + sep + ...` starts inside `a` and ends after it. */
  ghost predicate NoStraddle(a: string, sep: string) {
    forall m :: 0 < m < |sep| && m <= |a| ==> a[|a| - m..] != sep[..m] || sep[m..] != sep[..|sep| - m]
  }

  /** The first index at or after `from` where `sep` occurs, if any. */
  function IndexFrom(s: string, sep: string, from: nat): (r: Option<nat>)
    requires |sep| > 0
    ensures r.Some? ==> from <= r.value && OccursAt(s, sep, r.value)
    ensures r.Some? ==> forall j :: from <= j < r.value ==> !OccursAt(s, sep, j)
    ensures r.None? ==> forall j :: from <= j ==> !OccursAt(s, sep, j)
    decreases |s| - from
  {
    if from + |sep| > |s| then None
    else if s[from..from + |sep|] == sep then Some(from)
    else IndexFrom(s, sep, from + 1)
  }

  /** `String.prototype.indexOf`, with `None` for -1. */
  function IndexOf(s: string, sep: string): (r: Option<nat>)
    requires |sep| > 0
    ensures r.Some? ==> FirstAt(s, sep, r.value)
    ensures r.None? <==> !Contains(s, sep)
  {
    IndexFrom(s, sep, 0)
  }

  lemma IndexOfIsFirst(s: string, sep: string, i: int)
    requires |sep| > 0 && FirstAt(s, sep, i)
    ensures IndexOf(s, sep) == Some(i)
  {
    var r := IndexOf(s, sep);
    assert r.Some?;
    assert !(r.value < i) && !(i < r.value);
  }

  lemma PrefixBeforeFirst(s: string, sep: string, i: int)
    requires |sep| > 0 && FirstAt(s, sep, i)
    ensures !Contains(s[..i], sep)
  {
    forall k ensures !OccursAt(s[..i], sep, k) {
      if 0 <= k && k + |sep| <= i {
        assert s[..i][k..k + |sep|] == s[k..k + |sep|];
        assert !OccursAt(s, sep, k);
      }
    }
  }

  // ---------------------------------------------------------------------------
  // split and join

  /** `Array.prototype.join(sep)` over strings. */
  function Join(parts: seq<string>, sep: string): string {
    if |parts| == 0 then ""
    else if |parts| == 1 then parts[0]
    else parts[0] + sep + Join(parts[1..], sep)
  }

  /**
   * `s.split(sep)` for a non-empty literal separator: the pieces between successive
   * non-overlapping occurrences, scanned left to right. Joining the pieces gives `s`
   * back, and no piece holds the separator.
   */
  function Split(s: string, sep: string): (parts: seq<string>)
    requires |sep| > 0
    ensures |parts| >= 1
    ensures Join(parts, sep) == s
    ensures forall i :: 0 <= i < |parts| ==> !Contains(parts[i], sep)
    decreases |s|
  {
    match IndexOf(s, sep)
    case None => [s]
    case Some(i) =>
      PrefixBeforeFirst(s, sep, i);
      var rest := Split(s[i + |sep|..], sep);
      assert s == s[..i] + sep + s[i + |sep|..];
      assert ([s[..i]] + rest)[1..] == rest;
      [s[..i]] + rest
  }

  lemma SplitWithout(s: string, sep: string)
    requires |sep| > 0 && !Contains(s, sep)
    ensures Split(s, sep) == [s]
  {
  }

  /** Splitting cuts at the first occurrence and then splits the rest. */
  lemma SplitAtFirst(s: string, sep: string, i: int)
    requires |sep| > 0 && FirstAt(s, sep, i)
    ensures Split(s, sep) == [s[..i]] + Split(s[i + |sep|..], sep)
  {
    IndexOfIsFirst(s, sep, i);
  }

  /** In `a + sep + b` the first occurrence is the one after `a`, when `a` holds none and none straddles. */
  lemma FirstAtBoundary(a: string, sep: string, b: string)
    requires |sep| > 0 && !Contains(a, sep) && NoStraddle(a, sep)
    ensures FirstAt(a + sep + b, sep, |a|)
  {
    var s := a + sep + b;
    assert s[|a|..|a| + |sep|] == sep;
    forall j | 0 <= j < |a| ensures !OccursAt(s, sep, j) {
      if j + |sep| <= |a| {
        assert s[j..j + |sep|] == a[j..j + |sep|];
        assert !OccursAt(a, sep, j);
      } else {
        var m := |a| - j;
        assert s[j..|a|] == a[|a| - m..];
        assert s[|a|..j + |sep|] == sep[..|sep| - m];
        assert s[j..j + |sep|] == s[j..|a|] + s[|a|..j + |sep|];
        assert a[|a| - m..] != sep[..m] || sep[m..] != sep[..|sep| - m];
        var x := s[j..j + |sep|];
        assert x[..m] == s[j..|a|];
        assert x[m..] == s[|a|..j + |sep|];
      }
    }
  }

  lemma BorderFreeNoStraddle(a: string, sep: string)
    requires BorderFree(sep)
    ensures NoStraddle(a, sep)
  {
  }

  /** For a separator whose occurrences cannot overlap, split undoes join. */
  lemma {:induction false} SplitJoin(parts: seq<string>, sep: string)
    requires |sep| > 0 && BorderFree(sep) && |parts| >= 1
    requires forall i :: 0 <= i < |parts| ==> !Contains(parts[i], sep)
    ensures Split(Join(parts, sep), sep) == parts
  {
    if |parts| == 1 {
      SplitWithout(parts[0], sep);
    } else {
      var a, rest := parts[0], parts[1..];
      var s := Join(parts, sep);
      assert s == a + sep + Join(rest, sep);
      BorderFreeNoStraddle(a, sep);
      FirstAtBoundary(a, sep, Join(rest, sep));
      SplitAtFirst(s, sep, |a|);
      assert s[..|a|] == a;
      assert s[|a| + |sep|..] == Join(rest, sep);
      SplitJoin(rest, sep);
      assert parts == [a] + rest;
    }
  }

  /** The first piece of `a + sep + b` is `a`, when no occurrence starts inside `a`. */
  lemma SplitFirstPiece(a: string, sep: string, b: string)
    requires |sep| > 0 && !Contains(a, sep) && NoStraddle(a, sep)
    ensures Split(a + sep + b, sep) == [a] + Split(b, sep)
  {
    FirstAtBoundary(a, sep, b);
    SplitAtFirst(a + sep + b, sep, |a|);
    assert (a + sep + b)[..|a|] == a;
    assert (a + sep + b)[|a| + |sep|..] == b;
  }

  lemma {:induction false} JoinAppend(parts: seq<string>, sep: string, last: string)
    requires |parts| >= 1
    ensures Join(parts + [last], sep) == Join(parts, sep) + sep + last
  {
    if |parts| == 1 {
      assert parts + [last] == [parts[0], last];
    } else {
      assert (parts + [last])[1..] == parts[1..] + [last];
      JoinAppend(parts[1..], sep, last);
    }
  }

  /** A string that lacks the separator's first character cannot contain the separator. */
  lemma NotContainsFirstChar(s: string, sep: string)
    requires |sep| > 0 && sep[0] !in s
    ensures !Contains(s, sep)
  {
    forall k ensures !OccursAt(s, sep, k) {
      if 0 <= k && k + |sep| <= |s| {
        assert s[k..k + |sep|][0] == s[k];
      }
    }
  }

  /** Joining adds no character that is in neither the parts nor the separator. */
  lemma {:induction false} JoinChars(parts: seq<string>, sep: string, c: char)
    requires c !in sep && forall i :: 0 <= i < |parts| ==> c !in parts[i]
    ensures c !in Join(parts, sep)
  {
    if |parts| > 1 {
      JoinChars(parts[1..], sep, c);
    }
  }

  /** With a one-character separator, containing it is containing that character. */
  lemma ContainsChar(s: string, c: char)
    ensures Contains(s, [c]) <==> c in s
  {
    if Contains(s, [c]) {
      var k :| OccursAt(s, [c], k);
      assert s[k..k + 1][0] == s[k];
    }
    if c in s {
      var k :| 0 <= k < |s| && s[k] == c;
      assert OccursAt(s, [c], k);
    }
  }

  lemma SingleCharBorderFree(c: char)
    ensures BorderFree([c])
  {
  }

  // ---------------------------------------------------------------------------
  // Lower-casing of header names (ASCII only, as for HTTP field names)

  function LowerChar(c: char): char {
    if 'A' <= c <= 'Z' then (c as int + 32) as char else c
  }

  function AsciiLower(s: string): string {
    seq(|s|, i requires 0 <= i < |s| => LowerChar(s[i]))
  }

  /** Lower-casing a lower-cased name changes nothing, so stored names match their own lookups. */
  lemma AsciiLowerIdempotent(s: string)
    ensures AsciiLower(AsciiLower(s)) == AsciiLower(s)
  {
  }

  // ---------------------------------------------------------------------------
  // Integers as text: String(n) and parseInt

  predicate IsDecDigit(c: char) {
    '0' <= c <= '9'
  }

  predicate IsHexDigit(c: char) {
    IsDecDigit(c) || 'a' <= c <= 'f' || 'A' <= c <= 'F'
  }

  function DigitValue(c: char): nat
    requires IsHexDigit(c)
  {
    if IsDecDigit(c) then c as int - '0' as int
    else if 'a' <= c <= 'f' then c as int - 'a' as int + 10
    else c as int - 'A' as int + 10
  }

  ghost predicate AllHexDigits(d: string) {
    forall i :: 0 <= i < |d| ==> IsHexDigit(d[i])
  }

  /** The value of a digit string in the given base, most significant digit first. */
  function DigitsValue(d: string, base: nat): nat
    requires AllHexDigits(d)
    decreases |d|
  {
    if d == [] then 0 else DigitsValue(d[..|d| - 1], base) * base + DigitValue(d[|d| - 1])
  }

  function DigitChar(d: nat): char
    requires d < 10
  {
    ('0' as int + d) as char
  }

  /** `String(n)` for a natural number: its decimal digits, with no leading zero unless `n` is 0. */
  function DecimalString(n: nat): (r: string)
    ensures |r| >= 1
    ensures forall i :: 0 <= i < |r| ==> IsDecDigit(r[i])
    ensures r[0] == '0' ==> n == 0
  {
    (if n < 10 then "" else DecimalString(n / 10)) + [DigitChar(n % 10)]
  }

  /**
   * `String(n)` for an integer, as JavaScript writes a safe integer. Past `MaxSafeInteger`
   * a JavaScript number is rounded, and from 10^21 on `String` uses exponent notation.
   */
  function IntToString(n: int): string {
    if n < 0 then "-" + DecimalString(-n) else DecimalString(n)
  }

  lemma {:induction false} DecimalStringValue(n: nat)
    ensures DigitsValue(DecimalString(n), 10) == n
  {
    var last := DigitChar(n % 10);
    var front := if n < 10 then "" else DecimalString(n / 10);
    assert DecimalString(n) == front + [last];
    DigitsValueSnoc(front, last, 10);
    if n >= 10 {
      DecimalStringValue(n / 10);
    }
  }

  lemma DigitsValueSnoc(front: string, last: char, base: nat)
    requires AllHexDigits(front) && IsHexDigit(last)
    ensures AllHexDigits(front + [last])
    ensures DigitsValue(front + [last], base) == DigitsValue(front, base) * base + DigitValue(last)
  {
    assert (front + [last])[..|front|] == front;
  }

  /**
   * The characters `parseInt` skips before a number: ECMAScript WhiteSpace
   * (tab, vertical tab, form feed, space, no-break space, byte order mark and the
   * other Unicode space separators) and LineTerminator.
   */
  predicate IsJsSpace(c: char) {
    var n := c as int;
    n == 0x09 || n == 0x0A || n == 0x0B || n == 0x0C || n == 0x0D || n == 0x20 || n == 0xA0
    || n == 0x1680 || (0x2000 <= n <= 0x200A) || n == 0x2028 || n == 0x2029 || n == 0x202F
    || n == 0x205F || n == 0x3000 || n == 0xFEFF
  }

  /** `s` without its leading JavaScript white space. */
  function TrimStart(s: string): (t: string)
    ensures |t| <= |s| && t == s[|s| - |t|..]
    ensures t == [] || !IsJsSpace(t[0])
    ensures forall i :: 0 <= i < |s| - |t| ==> IsJsSpace(s[i])
  {
    if s != [] && IsJsSpace(s[0]) then TrimStart(s[1..]) else s
  }

  /** The longest prefix of `s` made of decimal digits. */
  function DecPrefix(s: string): (d: string)
    ensures |d| <= |s| && d == s[..|d|]
    ensures forall i :: 0 <= i < |d| ==> IsDecDigit(d[i])
    ensures |d| == |s| || !IsDecDigit(s[|d|])
  {
    if s != [] && IsDecDigit(s[0]) then [s[0]] + DecPrefix(s[1..]) else ""
  }

  /** The longest prefix of `s` made of hexadecimal digits. */
  function HexPrefix(s: string): (d: string)
    ensures |d| <= |s| && d == s[..|d|]
    ensures forall i :: 0 <= i < |d| ==> IsHexDigit(d[i])
    ensures |d| == |s| || !IsHexDigit(s[|d|])
  {
    if s != [] && IsHexDigit(s[0]) then [s[0]] + HexPrefix(s[1..]) else ""
  }

  /** The digits `parseInt` reads after the sign: hexadecimal after "0x"/"0X", decimal otherwise. */
  function ParseUnsigned(u: string): Option<nat> {
    if |u| >= 2 && u[0] == '0' && (u[1] == 'x' || u[1] == 'X') then
      var d := HexPrefix(u[2..]);
      if d == [] then None else Some(DigitsValue(d, 16))
    else
      var d := DecPrefix(u);
      if d == [] then None else Some(DigitsValue(d, 10))
  }

  /**
   * `parseInt(s)` with no radix (section 19.2.5 of ECMA-262): skip leading white space,
   * take an optional sign, read base 16 after a "0x"/"0X" prefix and base 10 otherwise,
   * and stop at the first character that is not a digit. `None` stands for NaN.
   */
  function ParseInt(s: string): Option<int> {
    var t := TrimStart(s);
    if |t| > 0 && t[0] == '-' then Signed(-1, ParseUnsigned(t[1..]))
    else if |t| > 0 && t[0] == '+' then Signed(1, ParseUnsigned(t[1..]))
    else Signed(1, ParseUnsigned(t))
  }

  function Signed(sign: int, v: Option<nat>): Option<int> {
    match v
    case None => None
    case Some(n) => Some(sign * n)
  }

  /** What may follow a number without `parseInt` reading it as part of the number. */
  predicate EndsNumber(suffix: string) {
    suffix == [] || (!IsDecDigit(suffix[0]) && suffix[0] != 'x' && suffix[0] != 'X')
  }

  lemma {:induction false} DecPrefixOfDigits(d: string, t: string)
    requires forall i :: 0 <= i < |d| ==> IsDecDigit(d[i])
    requires t == [] || !IsDecDigit(t[0])
    ensures DecPrefix(d + t) == d
  {
    if d != [] {
      assert (d + t)[0] == d[0];
      assert (d + t)[1..] == d[1..] + t;
      DecPrefixOfDigits(d[1..], t);
      assert d == [d[0]] + d[1..];
    }
  }

  lemma UnsignedRoundTrip(m: nat, suffix: string)
    requires EndsNumber(suffix)
    ensures ParseUnsigned(DecimalString(m) + suffix) == Some(m)
  {
    var digits := DecimalString(m);
    var u := digits + suffix;
    LeadingZero(m);
    assert u[0] == digits[0];
    assert |u| >= 2 && u[0] == '0' ==> u[1] == suffix[0];
    DecPrefixOfDigits(digits, suffix);
    DecimalStringValue(m);
  }

  /** Only 0 is written with a leading zero. */
  lemma LeadingZero(m: nat)
    ensures DecimalString(m)[0] == '0' ==> DecimalString(m) == "0"
  {
  }

  lemma TrimStartNoSpace(s: string)
    requires s != [] && !IsJsSpace(s[0])
    ensures TrimStart(s) == s
  {
  }

  /** `parseInt` reads back what `String(n)` writes, whatever non-digit text follows it. */
  lemma ParseIntRoundTrip(n: int, suffix: string)
    requires EndsNumber(suffix)
    ensures ParseInt(IntToString(n) + suffix) == Some(n)
  {
    if n < 0 {
      ParseNegative(n, suffix);
    } else {
      ParseNonNegative(n, suffix);
    }
  }

  lemma ParseNonNegative(n: nat, suffix: string)
    requires EndsNumber(suffix)
    ensures ParseInt(IntToString(n) + suffix) == Some(n)
  {
    var s := DecimalString(n) + suffix;
    assert IntToString(n) + suffix == s;
    UnsignedRoundTrip(n, suffix);
    assert IsDecDigit(s[0]);
    TrimStartNoSpace(s);
  }

  lemma ParseNegative(n: int, suffix: string)
    requires n < 0 && EndsNumber(suffix)
    ensures ParseInt(IntToString(n) + suffix) == Some(n)
  {
    UnsignedRoundTrip(-n, suffix);
    MinusSign(DecimalString(-n), suffix, -n);
  }

  /** A minus sign before digits `parseInt` reads as `m` makes it read `-m`. */
  lemma MinusSign(d: string, suffix: string, m: nat)
    requires ParseUnsigned(d + suffix) == Some(m)
    ensures ParseInt((['-'] + d) + suffix) == Some(-(m as int))
  {
    var s := (['-'] + d) + suffix;
    assert s[0] == '-' && s[1..] == d + suffix;
    TrimStartNoSpace(s);
  }
}
