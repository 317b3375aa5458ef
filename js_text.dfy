/**
 * The parts of the JavaScript runtime that the storefront's logic leans on:
 * `String(n)`, `padStart`, `split`, `Number(s)`, `parseInt(s)`, `trim()` and
 * the falsy-default `x || d` on numbers.  All on `seq<char>`.
 */
module JsText {
  import opened Wrappers

  predicate IsDigit(c: char) { '0' <= c <= '9' }

  predicate AllDigits(s: string) { forall i :: 0 <= i < |s| ==> IsDigit(s[i]) }

  function DigitChar(d: nat): (c: char)
    requires d < 10
    ensures IsDigit(c) && DigitValue(c) == d
  {
    ('0' as int + d) as char
  }

  function DigitValue(c: char): (d: nat)
    requires IsDigit(c)
    ensures d < 10
  {
    c as int - '0' as int
  }

  /** The value of a string of decimal digits, most significant first. */
  function ParseDigits(s: string): nat
    requires AllDigits(s)
  {
    if s == [] then 0 else ParseDigits(s[..|s| - 1]) * 10 + DigitValue(s[|s| - 1])
  }

  /** The decimal digits of `n` without leading zeros: `String(n)` for n >= 0. */
  function Digits(n: nat): (s: string)
    ensures |s| > 0
  {
    if n < 10 then [DigitChar(n)] else Digits(n / 10) + [DigitChar(n % 10)]
  }

  /** `String(n)` is a run of digits whose value is `n`, one digit long exactly when `n < 10`. */
  lemma {:induction false} DigitsValue(n: nat)
    ensures AllDigits(Digits(n)) && ParseDigits(Digits(n)) == n
    ensures n < 10 <==> |Digits(n)| == 1
    decreases n
  {
    if n >= 10 {
      DigitsValue(n / 10);
      var s := Digits(n);
      assert s[..|s| - 1] == Digits(n / 10);
    }
  }

  /** JavaScript's `String(n)` for an integer `n`. */
  function Decimal(n: int): string {
    if n < 0 then "-" + Digits(-n) else Digits(n)
  }

  /** `s.padStart(width, [fill])`: fill on the left up to `width`; never truncates. */
  function PadStart(s: string, width: nat, fill: char): (r: string)
    ensures |r| == if |s| >= width then |s| else width
    decreases width - |s|
  {
    if |s| >= width then s else PadStart([fill] + s, width, fill)
  }

  /** The padded string ends with `s` and everything before it is the fill character. */
  lemma {:induction false} PadStartShape(s: string, width: nat, fill: char)
    ensures var r := PadStart(s, width, fill);
      r == r[..|r| - |s|] + s && forall i :: 0 <= i < |r| - |s| ==> r[i] == fill
    decreases width - |s|
  {
    if |s| < width {
      PadStartShape([fill] + s, width, fill);
      var r := PadStart(s, width, fill);
      var k := |r| - |s|;
      assert r[..k - 1] + [fill] == r[..k];
    }
  }

  /** `String(n).padStart(2, '0')`, the two-digit field of the `HH:mm` and ISO formats. */
  function Pad2(n: int): string {
    PadStart(Decimal(n), 2, '0')
  }

  lemma {:induction false} ZeroPrefix(t: string)
    requires AllDigits(t)
    ensures AllDigits("0" + t) && ParseDigits("0" + t) == ParseDigits(t)
    decreases |t|
  {
    if t != [] {
      var u := "0" + t;
      assert u[..|u| - 1] == "0" + t[..|t| - 1];
      ZeroPrefix(t[..|t| - 1]);
    }
  }

  lemma {:induction false} ZerosPrefix(z: string, t: string)
    requires forall i :: 0 <= i < |z| ==> z[i] == '0'
    requires AllDigits(t)
    ensures AllDigits(z + t) && ParseDigits(z + t) == ParseDigits(t)
    decreases |z|
  {
    if z != [] {
      ZerosPrefix(z[1..], t);
      ZeroPrefix(z[1..] + t);
      assert z + t == "0" + (z[1..] + t);
    } else {
      assert z + t == t;
    }
  }

  /** Zero padding does not change the value a digit string denotes. */
  lemma PaddedDigits(n: nat, width: nat)
    ensures AllDigits(PadStart(Digits(n), width, '0'))
    ensures ParseDigits(PadStart(Digits(n), width, '0')) == n
  {
    var s := Digits(n);
    var r := PadStart(s, width, '0');
    DigitsValue(n);
    PadStartShape(s, width, '0');
    ZerosPrefix(r[..|r| - |s|], s);
  }

  // ---------------------------------------------------------------------------
  // Number(s)

  /**
   * JavaScript's `Number(s)`, for the strings this model produces: the empty
   * string is 0 and a run of decimal digits is its value.  Every other string
   * is `None`: NaN, or a value (signed, fractional, hexadecimal, padded with
   * whitespace) that the model does not represent.
   */
  function JsNumber(s: string): (r: Option<nat>)
    ensures s == "" ==> r == Some(0)
    ensures r.Some? && s != "" ==> AllDigits(s) && r.value == ParseDigits(s)
    ensures s != "" && AllDigits(s) ==> r.Some?
  {
    if s == "" then Some(0)
    else if AllDigits(s) then Some(ParseDigits(s))
    else None
  }

  /** `Number(String(n).padStart(k, '0')) == n`. */
  lemma NumberOfPadded(n: nat, width: nat)
    ensures JsNumber(PadStart(Digits(n), width, '0')) == Some(n)
  {
    PaddedDigits(n, width);
  }

  // ---------------------------------------------------------------------------
  // split

  /** `s.split(sep)` for a one-character separator: the pieces between separators, at least one. */
  function Split(s: string, sep: char): (parts: seq<string>)
    ensures |parts| >= 1
    ensures sep !in s ==> parts == [s]
  {
    if |s| == 0 then [""]
    else if s[0] == sep then [""] + Split(s[1..], sep)
    else
      var rest := Split(s[1..], sep);
      assert s == [s[0]] + s[1..];
      [[s[0]] + rest[0]] + rest[1..]
  }

  /** Splitting `a + sep + b`, where `a` holds no separator, yields `a` and then the pieces of `b`. */
  lemma {:induction false} SplitAt(a: string, sep: char, b: string)
    requires sep !in a
    ensures Split(a + [sep] + b, sep) == [a] + Split(b, sep)
    decreases |a|
  {
    if a == [] {
      assert a + [sep] + b == [sep] + b;
      assert ([sep] + b)[1..] == b;
    } else {
      var s := a + [sep] + b;
      assert s[0] == a[0] && s[1..] == a[1..] + [sep] + b;
      SplitAt(a[1..], sep, b);
      assert [a[0]] + a[1..] == a;
    }
  }

  lemma RegroupTail<T>(a: seq<T>, b: seq<T>, c: seq<T>, d: seq<T>, e: seq<T>)
    ensures a + b + c + d + e == a + b + (c + d + e)
  {
  }

  /** Splitting three separator-free pieces joined by the separator gives back the pieces. */
  lemma SplitJoin3(a: string, b: string, c: string, sep: char)
    requires sep !in a && sep !in b && sep !in c
    ensures Split(a + [sep] + b + [sep] + c, sep) == [a, b, c]
  {
    RegroupTail(a, [sep], b, [sep], c);
    SplitAt(a, sep, b + [sep] + c);
    SplitAt(b, sep, c);
  }

  // ---------------------------------------------------------------------------
  // trim

  /** WhiteSpace and LineTerminator code points of ECMAScript (what `trim` removes). */
  predicate IsJsWhitespace(c: char) {
    c == '\t' || c == '\n' || c == '\U{000B}' || c == '\U{000C}' || c == '\r' || c == ' '
    || c == '\U{00A0}' || c == '\U{1680}' || ('\U{2000}' <= c <= '\U{200A}')
    || c == '\U{2028}' || c == '\U{2029}' || c == '\U{202F}' || c == '\U{205F}'
    || c == '\U{3000}' || c == '\U{FEFF}'
  }

  predicate AllWhitespace(s: string) { forall i :: 0 <= i < |s| ==> IsJsWhitespace(s[i]) }

  /** `s.trimStart()`: the suffix left after dropping the leading whitespace. */
  function TrimStart(s: string): (r: string)
    ensures |r| <= |s| && r == s[|s| - |r|..]
    ensures AllWhitespace(s[..|s| - |r|])
    ensures |r| > 0 ==> !IsJsWhitespace(r[0])
  {
    if |s| > 0 && IsJsWhitespace(s[0]) then TrimStart(s[1..]) else s
  }

  /** `s.trimEnd()`: the prefix left after dropping the trailing whitespace. */
  function TrimEnd(s: string): (r: string)
    ensures |r| <= |s| && r == s[..|r|]
    ensures AllWhitespace(s[|r|..])
    ensures |r| > 0 ==> !IsJsWhitespace(r[|r| - 1])
  {
    if |s| > 0 && IsJsWhitespace(s[|s| - 1]) then TrimEnd(s[..|s| - 1]) else s
  }

  /** `s.trim()`. */
  function Trim(s: string): string {
    TrimEnd(TrimStart(s))
  }

  lemma {:induction false} TrimStartAllWhitespace(s: string)
    requires AllWhitespace(s)
    ensures TrimStart(s) == ""
    decreases |s|
  {
    if |s| > 0 {
      assert AllWhitespace(s[1..]) by {
        forall i | 0 <= i < |s| - 1 ensures IsJsWhitespace(s[1..][i]) {
          assert s[1..][i] == s[i + 1];
        }
      }
      TrimStartAllWhitespace(s[1..]);
    }
  }

  /** `s.trim()` is empty exactly when every character of `s` is whitespace. */
  lemma TrimEmptyIff(s: string)
    ensures Trim(s) == "" <==> AllWhitespace(s)
  {
    if AllWhitespace(s) {
      TrimStartAllWhitespace(s);
    }
    if Trim(s) == "" {
      var t := TrimStart(s);
      assert AllWhitespace(t[0..]);
      assert t[0..] == t;
      assert t == [];
      assert s[..|s|] == s;
    }
  }

  // ---------------------------------------------------------------------------
  // parseInt

  /** The longest prefix of `s` made of decimal digits. */
  function DigitPrefix(s: string): (r: string)
    ensures AllDigits(r) && |r| <= |s| && r == s[..|r|]
    ensures |r| < |s| ==> !IsDigit(s[|r|])
  {
    if |s| > 0 && IsDigit(s[0]) then [s[0]] + DigitPrefix(s[1..]) else ""
  }

  /**
   * `parseInt(s)` with no radix: leading whitespace, an optional sign, then the
   * longest run of decimal digits; `None` is NaN (no digit after the sign).
   * The `0x` hexadecimal prefix is not modelled.
   */
  function ParseInt(s: string): Option<int> {
    var t := TrimStart(s);
    var signed := |t| > 0 && (t[0] == '-' || t[0] == '+');
    var negative := |t| > 0 && t[0] == '-';
    var digits := DigitPrefix(if signed then t[1..] else t);
    if digits == "" then None
    else
      var magnitude: int := ParseDigits(digits);
      Some(if negative then -magnitude else magnitude)
  }

  /** `parseInt(String(n)) == n`. */
  lemma ParseIntOfDecimal(n: int)
    ensures ParseInt(Decimal(n)) == Some(n)
  {
    var s := Decimal(n);
    var d := Digits(if n < 0 then -n else n);
    DigitsValue(if n < 0 then -n else n);
    assert !IsJsWhitespace(s[0]);
    assert TrimStart(s) == s;
    var body := if n < 0 then s[1..] else s;
    assert body == d;
    assert DigitPrefix(d) == d;
  }

  /** JavaScript's `v || d` on a number: NaN and 0 are falsy and give way to `d`. */
  function IntOr(v: Option<int>, d: int): (r: int)
    ensures r == d || (v.Some? && r == v.value)
    ensures r == d <== v.None? || v == Some(0)
    ensures v.Some? && v.value != 0 ==> r == v.value
  {
    match v
    case Some(n) => if n != 0 then n else d
    case None => d
  }
}
