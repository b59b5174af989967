/**
 * The string operations the editor's text builders use: `trim`, `join`,
 * `split` on one character, `Number.prototype.toString` in base 10 and 16,
 * `padStart`, and `Number(...)` on decimal text.
 */
module JsText {
  import opened Wrappers
  import opened JsNumber

  /** The characters `String.prototype.trim` removes: WhiteSpace and LineTerminator. */
  predicate IsWhitespace(c: char) {
    c == ' ' || c == '\t' || c == '\n' || c == '\r' || c == '\U{000B}' || c == '\U{000C}' ||
    c == '\U{00A0}' || c == '\U{1680}' || ('\U{2000}' <= c <= '\U{200A}') ||
    c == '\U{2028}' || c == '\U{2029}' || c == '\U{202F}' || c == '\U{205F}' ||
    c == '\U{3000}' || c == '\U{FEFF}'
  }

  predicate AllWhitespace(s: string) {
    forall k :: 0 <= k < |s| ==> IsWhitespace(s[k])
  }

  /** Every character of `s` satisfies `p`. */
  predicate All(s: string, p: char -> bool) {
    forall k :: 0 <= k < |s| ==> p(s[k])
  }

  /** How many characters at the start of `s` satisfy `p`. */
  function LeadingCount(s: string, p: char -> bool): (n: nat)
    ensures n <= |s|
    ensures forall k :: 0 <= k < n ==> p(s[k])
    ensures n < |s| ==> !p(s[n])
  {
    if s != [] && p(s[0]) then
      var m := LeadingCount(s[1..], p);
      assert forall k :: 1 <= k < m + 1 ==> s[k] == s[1..][k - 1];
      m + 1
    else 0
  }

  /** How many characters at the end of `s` satisfy `p`. */
  function TrailingCount(s: string, p: char -> bool): (n: nat)
    ensures n <= |s|
    ensures forall k :: |s| - n <= k < |s| ==> p(s[k])
    ensures n < |s| ==> !p(s[|s| - n - 1])
  {
    if s != [] && p(s[|s| - 1]) then
      var m := TrailingCount(s[..|s| - 1], p);
      assert forall k :: |s| - 1 - m <= k < |s| - 1 ==> s[k] == s[..|s| - 1][k];
      m + 1
    else 0
  }

  /**
   * Both passes: no character satisfying `p` is left at either end, and
   * nothing is left exactly when every character satisfies `p`.
   */
  function Strip(s: string, p: char -> bool): (r: string)
    ensures r != [] ==> !p(r[0]) && !p(r[|r| - 1])
    ensures r == [] <==> All(s, p)
  {
    var i := LeadingCount(s, p);
    var t := s[i..];
    var j := TrailingCount(t, p);
    assert forall k :: |t| - j <= k < |t| ==> t[k] == s[i + k];
    t[..|t| - j]
  }

  /** A text whose ends do not satisfy `p` is its own strip. */
  lemma StripUnpadded(s: string, p: char -> bool)
    requires s != [] ==> !p(s[0]) && !p(s[|s| - 1])
    ensures Strip(s, p) == s
  {
  }

  /** `s.trim()` */
  function Trim(s: string): (r: string)
    ensures r != [] ==> !IsWhitespace(r[0]) && !IsWhitespace(r[|r| - 1])
    ensures r == [] <==> AllWhitespace(s)
  {
    var r := Strip(s, IsWhitespace);
    assert All(s, IsWhitespace) <==> AllWhitespace(s);
    r
  }

  /** A string with no whitespace at either end is its own trim. */
  lemma TrimUnpadded(s: string)
    requires s != [] ==> !IsWhitespace(s[0]) && !IsWhitespace(s[|s| - 1])
    ensures Trim(s) == s
  {
    StripUnpadded(s, IsWhitespace);
  }

  /** Trimming is idempotent. */
  lemma TrimIdempotent(s: string)
    ensures Trim(Trim(s)) == Trim(s)
  {
    TrimUnpadded(Trim(s));
  }

  /** `s.startsWith(prefix)` */
  predicate StartsWith(s: string, prefix: string) {
    |prefix| <= |s| && s[..|prefix|] == prefix
  }

  /** `s.endsWith(suffix)` */
  predicate EndsWith(s: string, suffix: string) {
    |suffix| <= |s| && s[|s| - |suffix|..] == suffix
  }

  lemma PrefixOfConcat(a: string, b: string)
    ensures StartsWith(a + b, a)
  {
    assert (a + b)[..|a|] == a;
  }

  lemma SuffixOfConcat(a: string, b: string)
    ensures EndsWith(a + b, b)
  {
    assert (a + b)[|a|..] == b;
  }

  /** `parts.join(sep)` */
  function Join(parts: seq<string>, sep: string): (r: string)
    ensures parts == [] ==> r == []
    ensures |parts| == 1 ==> r == parts[0]
  {
    if |parts| == 0 then []
    else if |parts| == 1 then parts[0]
    else parts[0] + sep + Join(parts[1..], sep)
  }

  /** A join starts with its first part. */
  lemma {:induction false} JoinStartsWithFirst(parts: seq<string>, sep: string)
    requires parts != []
    ensures StartsWith(Join(parts, sep), parts[0])
  {
    if |parts| > 1 {
      assert Join(parts, sep) == parts[0] + (sep + Join(parts[1..], sep));
    }
  }

  /** `s.split(c)` for a one-character separator: the maximal runs between separators. */
  function Split(s: string, c: char): (parts: seq<string>)
    ensures |parts| >= 1
    ensures forall i :: 0 <= i < |parts| ==> c !in parts[i]
  {
    if s == [] then [[]]
    else
      var rest := Split(s[1..], c);
      if s[0] == c then [[]] + rest else [[s[0]] + rest[0]] + rest[1..]
  }

  /** Joining the pieces of a split with the separator gives back the string. */
  lemma {:induction false} JoinSplit(s: string, c: char)
    ensures Join(Split(s, c), [c]) == s
  {
    if s != [] {
      var rest := Split(s[1..], c);
      JoinSplit(s[1..], c);
      if s[0] == c {
        assert Split(s, c) == [[]] + rest;
        if |rest| == 1 {
          assert Join([[]] + rest, [c]) == [] + [c] + rest[0];
        } else {
          assert ([[]] + rest)[1..] == rest;
        }
      } else {
        assert Split(s, c) == [[s[0]] + rest[0]] + rest[1..];
        if |rest| == 1 {
          assert Join(rest, [c]) == rest[0];
        } else {
          assert Join(rest, [c]) == rest[0] + [c] + Join(rest[1..], [c]);
          assert ([[s[0]] + rest[0]] + rest[1..])[1..] == rest[1..];
        }
      }
    }
  }

  /** Splitting a string without the separator gives the string itself. */
  lemma {:induction false} SplitNoSeparator(s: string, c: char)
    requires c !in s
    ensures Split(s, c) == [s]
  {
    if s != [] {
      SplitNoSeparator(s[1..], c);
      assert [s[0]] + s[1..] == s;
    }
  }

  /** Splitting `a + [c] + b` where `a` holds no separator peels off `a`. */
  lemma {:induction false} SplitAtSeparator(a: string, c: char, b: string)
    requires c !in a
    ensures Split(a + [c] + b, c) == [a] + Split(b, c)
  {
    if a == [] {
      assert ([c] + b)[1..] == b;
    } else {
      SplitAtSeparator(a[1..], c, b);
      assert (a + [c] + b)[1..] == a[1..] + [c] + b;
      assert [a[0]] + a[1..] == a;
    }
  }

  /** Splitting a join of separator-free pieces gives back the pieces. */
  lemma {:induction false} SplitJoin(parts: seq<string>, c: char)
    requires |parts| >= 1
    requires forall i :: 0 <= i < |parts| ==> c !in parts[i]
    ensures Split(Join(parts, [c]), c) == parts
  {
    if |parts| == 1 {
      SplitNoSeparator(parts[0], c);
    } else {
      SplitJoin(parts[1..], c);
      SplitAtSeparator(parts[0], c, Join(parts[1..], [c]));
      assert [parts[0]] + parts[1..] == parts;
    }
  }

  /** The reverse of a sequence (`Array.prototype.reverse`). */
  function Reverse<T>(s: seq<T>): (r: seq<T>)
    ensures |r| == |s|
    ensures forall i :: 0 <= i < |s| ==> r[i] == s[|s| - 1 - i]
  {
    if s == [] then [] else Reverse(s[1..]) + [s[0]]
  }

  // ---------------------------------------------------------------------------
  // Digits: Number.prototype.toString(base) on integers, and reading digits back.

  /** The digit character for `d` in base 16 or below, lower-case letters past 9. */
  function DigitChar(d: nat): (c: char)
    requires d < 16
    ensures ('0' <= c <= '9' || 'a' <= c <= 'f') && CharValue(c) == d
  {
    if d < 10 then ('0' as int + d) as char else ('a' as int + d - 10) as char
  }

  predicate IsDigit(c: char, base: nat) {
    ('0' <= c <= '9' || 'a' <= c <= 'f') && CharValue(c) < base
  }

  predicate AllDigits(s: string, base: nat) {
    forall k :: 0 <= k < |s| ==> IsDigit(s[k], base)
  }

  /** The value of one digit character. */
  function CharValue(c: char): nat {
    if '0' <= c <= '9' then c as int - '0' as int
    else if 'a' <= c <= 'f' then c as int - 'a' as int + 10
    else 0
  }

  /** The natural number written by a string of digits; the empty string is 0. */
  function DigitsValue(s: string, base: nat): nat {
    if s == [] then 0 else DigitsValue(s[..|s| - 1], base) * base + CharValue(s[|s| - 1])
  }

  /** The radixes the editor writes numbers in: 10 for ids and sizes, 16 for colours. */
  predicate IsRadix(base: nat) {
    base == 10 || base == 16
  }

  /** `n` without its last digit in the radix. */
  function Quot(n: nat, base: nat): (q: nat)
    requires IsRadix(base)
    ensures n >= base ==> q < n
  {
    if base == 10 then n / 10 else n / 16
  }

  /** The last digit of `n` in the radix. */
  function Rem(n: nat, base: nat): (d: nat)
    requires IsRadix(base)
    ensures d < base && n == Quot(n, base) * base + d
  {
    if base == 10 then n % 10 else n % 16
  }

  /** `n.toString(base)` for a natural number. */
  function NatDigits(n: nat, base: nat): (s: string)
    requires IsRadix(base)
    ensures |s| >= 1 && AllDigits(s, base)
  {
    if n < base then [DigitChar(n)]
    else
      var prefix := NatDigits(Quot(n, base), base);
      var last := DigitChar(Rem(n, base));
      assert IsDigit(last, base);
      assert forall k :: 0 <= k < |prefix| ==> (prefix + [last])[k] == prefix[k];
      prefix + [last]
  }

  function Pow(b: nat, k: nat): nat {
    if k == 0 then 1 else b * Pow(b, k - 1)
  }

  /** Reading the digits back gives the number. */
  lemma {:induction false} NatDigitsRoundTrip(n: nat, base: nat)
    requires IsRadix(base)
    ensures DigitsValue(NatDigits(n, base), base) == n
  {
    if n >= base {
      NatDigitsRoundTrip(Quot(n, base), base);
      NatDigitsStep(n, base);
    } else {
      NatDigitsSingle(n, base);
    }
  }

  /** A number below the base is one digit. */
  lemma NatDigitsSingle(n: nat, base: nat)
    requires IsRadix(base) && n < base
    ensures DigitsValue(NatDigits(n, base), base) == n
  {
    assert NatDigits(n, base) == [] + [DigitChar(n)];
    DigitsValueSnoc([], DigitChar(n), base);
  }

  /** One more digit on the right: the inductive step of the round trip. */
  lemma NatDigitsStep(n: nat, base: nat)
    requires IsRadix(base) && base <= n
    requires DigitsValue(NatDigits(Quot(n, base), base), base) == Quot(n, base)
    ensures DigitsValue(NatDigits(n, base), base) == n
  {
    var q, d := Quot(n, base), Rem(n, base);
    var p := NatDigits(q, base);
    assert NatDigits(n, base) == p + [DigitChar(d)];
    DigitsValueSnoc(p, DigitChar(d), base);
  }

  /** Appending a digit multiplies the value by the base and adds the digit. */
  lemma DigitsValueSnoc(p: string, c: char, base: nat)
    ensures DigitsValue(p + [c], base) == DigitsValue(p, base) * base + CharValue(c)
  {
    assert (p + [c])[..|p + [c]| - 1] == p;
  }

  /** A number below `16^k` takes at most `k` hexadecimal digits. */
  lemma {:induction false} HexDigitsAtMost(n: nat, k: nat)
    requires k >= 1 && n < Pow(16, k)
    ensures |NatDigits(n, 16)| <= k
  {
    if n >= 16 {
      assert Pow(16, 1) == 16;
      assert Pow(16, k) == 16 * Pow(16, k - 1);
      HexDigitsAtMost(n / 16, k - 1);
    }
  }

  /** A number of at least `16^(k-1)` takes at least `k` hexadecimal digits. */
  lemma {:induction false} HexDigitsAtLeast(n: nat, k: nat)
    requires k >= 1 && n >= Pow(16, k - 1)
    ensures |NatDigits(n, 16)| >= k
  {
    if k >= 2 {
      assert Pow(16, k - 1) == 16 * Pow(16, k - 2);
      PowPositive(16, k - 2);
      HexDigitsAtLeast(n / 16, k - 1);
    }
  }

  lemma {:induction false} PowPositive(b: nat, k: nat)
    requires b >= 1
    ensures Pow(b, k) >= 1
  {
    if k > 0 {
      PowPositive(b, k - 1);
    }
  }

  /** `n.toString(10)` for any integer: a minus sign before the digits of `|n|`. */
  function IntText(n: int): string {
    if n < 0 then "-" + NatDigits(-n, 10) else NatDigits(n, 10)
  }

  /** `n.toString(16)` for any integer: lower-case digits, a minus sign when negative. */
  function HexText(n: int): string {
    if n < 0 then "-" + NatDigits(-n, 16) else NatDigits(n, 16)
  }

  /** `s.padStart(width, c)` */
  function PadStart(s: string, width: nat, c: char): (r: string)
    ensures |r| == if |s| >= width then |s| else width
    ensures r[|r| - |s|..] == s
    ensures forall k :: 0 <= k < |r| - |s| ==> r[k] == c
  {
    if |s| >= width then s else seq(width - |s|, _ => c) + s
  }

  /** Leading zeros do not change the value of a digit string. */
  lemma {:induction false} LeadingZerosValue(z: string, s: string, base: nat)
    requires forall k :: 0 <= k < |z| ==> z[k] == '0'
    ensures DigitsValue(z + s, base) == DigitsValue(s, base)
  {
    if z != [] {
      var rest := z[1..] + s;
      assert z + s == ['0'] + rest;
      ZeroThenDigits(rest, base);
      LeadingZerosValue(z[1..], s, base);
    } else {
      assert z + s == s;
    }
  }

  lemma {:induction false} ZeroThenDigits(s: string, base: nat)
    ensures DigitsValue(['0'] + s, base) == DigitsValue(s, base)
  {
    if s != [] {
      var t := ['0'] + s;
      assert t[..|t| - 1] == ['0'] + s[..|s| - 1];
      ZeroThenDigits(s[..|s| - 1], base);
    } else {
      assert (['0'] + s)[..0] == [];
    }
  }

  // ---------------------------------------------------------------------------
  // Number(...) on text.

  /** `10^k` as a real. */
  function Pow10(k: nat): (r: real)
    ensures r >= 1.0
  {
    if k == 0 then 1.0 else 10.0 * Pow10(k - 1)
  }

  /**
   * The value of unsigned decimal text `digits[.digits]`, `.digits` or `digits.`;
   * None for anything else.
   */
  function UnsignedDecimal(s: string): Option<real> {
    var parts := Split(s, '.');
    if |parts| == 1 && parts[0] != [] && AllDigits(parts[0], 10) then
      Some(DigitsValue(parts[0], 10) as real)
    else if |parts| == 2 && (parts[0] != [] || parts[1] != []) &&
            AllDigits(parts[0], 10) && AllDigits(parts[1], 10) then
      Some(DigitsValue(parts[0], 10) as real + DigitsValue(parts[1], 10) as real / Pow10(|parts[1]|))
    else None
  }

  /**
   * `Number(s)` for text that has already been trimmed: the empty string is 0,
   * an optional sign may precede a decimal numeral or `Infinity`, and
   * everything else is NaN.
   */
  function ParseNumber(s: string): (r: Num)
    ensures s == [] ==> r == Fin(0.0)
  {
    if s == [] then Fin(0.0)
    else if s == "Infinity" || s == "+Infinity" then PosInf
    else if s == "-Infinity" then NegInf
    else
      var negative := s[0] == '-';
      var body := if s[0] == '-' || s[0] == '+' then s[1..] else s;
      match UnsignedDecimal(body)
      case None => NaN
      case Some(v) => Fin(if negative then -v else v)
  }

  /** Decimal text of an integer reads back as that integer. */
  lemma IntTextParses(n: int)
    ensures ParseNumber(IntText(n)) == Fin(n as real)
  {
    var m: nat := if n < 0 then -n else n;
    var digits := NatDigits(m, 10);
    NatDigitsRoundTrip(m, 10);
    SplitNoSeparator(digits, '.');
    if n < 0 {
      assert IntText(n)[1..] == digits;
      assert IntText(n) != "Infinity" && IntText(n) != "+Infinity" && IntText(n) != "-Infinity" by {
        assert "-Infinity"[1] == 'I';
        assert IsDigit(IntText(n)[1], 10);
      }
    } else {
      assert IntText(n) != "Infinity" && IntText(n) != "+Infinity" && IntText(n) != "-Infinity" by {
        assert IsDigit(IntText(n)[0], 10);
      }
    }
  }

  // ---------------------------------------------------------------------------
  // Number-to-text in template literals.

  /** Up to `limit` decimal digits of a fraction in [0, 1), stopping when nothing is left. */
  function FractionDigits(f: real, limit: nat): string
    requires 0.0 <= f < 1.0
    decreases limit
  {
    if f == 0.0 || limit == 0 then []
    else
      var d := (f * 10.0).Floor;
      assert 0 <= d < 10;
      [DigitChar(d)] + FractionDigits(f * 10.0 - d as real, limit - 1)
  }

  /**
   * `${n}` for a number: "NaN", "Infinity", "-Infinity", integers in decimal,
   * other values as a decimal fraction (at most 20 fractional digits).
   */
  function Show(n: Num): string {
    match n
    case NaN => "NaN"
    case PosInf => "Infinity"
    case NegInf => "-Infinity"
    case Fin(v) =>
      if v == v.Floor as real then IntText(v.Floor)
      else
        var m := if v < 0.0 then -v else v;
        (if v < 0.0 then "-" else "") + NatDigits(m.Floor, 10) + "." +
        FractionDigits(m - m.Floor as real, 20)
  }

  /** `${x}` for a finite real. */
  function ShowReal(x: real): string {
    Show(Fin(x))
  }
}
