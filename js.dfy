/**
 * The JavaScript values and operators the task tracker relies on: truthiness, `||`
 * defaults, strict and loose equality, `parseInt`, `Number(...)`, `String(...)` and
 * `String.prototype.trim`.
 */
module Js {
  import opened Wrappers

  /**
   * A JavaScript value as it reaches the server or the browser: a property that is
   * absent is `Undefined`; JSON bodies, query strings and path parameters supply the rest.
   * Booleans, fractional numbers and objects are not modelled.
   */
  datatype Value = Undefined | Null | NaN | Num(n: int) | Str(s: string)

  /** `!!v` */
  predicate Truthy(v: Value) {
    match v
    case Undefined => false
    case Null => false
    case NaN => false
    case Num(n) => n != 0
    case Str(s) => s != ""
  }

  /** `a || b` */
  function Or(a: Value, b: Value): Value {
    if Truthy(a) then a else b
  }

  /** `a === b`: identical primitive values, except that `NaN` equals nothing. */
  predicate StrictEq(a: Value, b: Value) {
    a != NaN && a == b
  }

  // ---------------------------------------------------------------------------
  // Digits and decimal text

  predicate IsDigit(c: char) { '0' <= c <= '9' }

  predicate AllDigits(s: string) {
    forall i :: 0 <= i < |s| ==> IsDigit(s[i])
  }

  function DigitValue(c: char): nat
    requires IsDigit(c)
  {
    (c as int) - ('0' as int)
  }

  function DigitChar(d: nat): (c: char)
    requires d < 10
    ensures IsDigit(c) && DigitValue(c) == d
  {
    (('0' as int) + d) as char
  }

  /** The number a run of decimal digits denotes, most significant digit first. */
  function DigitsValue(s: string): nat
    requires AllDigits(s)
    decreases |s|
  {
    if s == [] then 0 else DigitsValue(s[..|s| - 1]) * 10 + DigitValue(s[|s| - 1])
  }

  /** The decimal text of a natural number, without leading zeros. */
  function NatString(n: nat): (r: string)
    ensures |r| > 0 && AllDigits(r)
    decreases n
  {
    if n < 10 then [DigitChar(n)] else NatString(n / 10) + [DigitChar(n % 10)]
  }

  /** `String(n)` for an integer `n`. */
  function DecimalString(n: int): string {
    if n < 0 then "-" + NatString(-n) else NatString(n)
  }

  /**
   * A plain integer literal: an optional `+` or `-`, then one or more decimal digits,
   * and nothing else. This is the form of text that the model reads as an integer, both
   * for SQLite's INTEGER affinity and for `Number(...)`; each of them accepts further
   * forms that the model does not (a decimal point or an exponent, and for `Number`
   * also `0x`, `0o` and `0b` literals).
   */
  function IntegerLiteral(s: string): Option<int> {
    if |s| > 1 && (s[0] == '-' || s[0] == '+') && AllDigits(s[1..]) then
      Some(if s[0] == '-' then 0 - DigitsValue(s[1..]) else DigitsValue(s[1..]) as int)
    else if |s| > 0 && AllDigits(s) then
      Some(DigitsValue(s))
    else
      None
  }

  lemma {:induction false} NatStringValue(n: nat)
    ensures DigitsValue(NatString(n)) == n
    decreases n
  {
    if n >= 10 {
      NatStringValue(n / 10);
      var s := NatString(n);
      assert s[..|s| - 1] == NatString(n / 10);
    }
  }

  /** Printing an integer and reading it back gives the integer. */
  lemma DecimalRoundTrip(n: int)
    ensures IntegerLiteral(DecimalString(n)) == Some(n)
  {
    if n < 0 {
      NatStringValue(-n);
      assert DecimalString(n)[1..] == NatString(-n);
    } else {
      NatStringValue(n);
      assert DecimalString(n)[0] != '-';
    }
  }

  // ---------------------------------------------------------------------------
  // Whitespace

  /**
   * The characters `trim`, `parseInt` and `Number` skip: ECMAScript's WhiteSpace (tab,
   * vertical tab, form feed, space, no-break space, the byte order mark and the other
   * space separators of Unicode category Zs) and LineTerminator (line feed, carriage
   * return, line and paragraph separator).
   */
  predicate IsSpace(c: char) {
    var n := c as int;
    n == 0x09 || n == 0x0A || n == 0x0B || n == 0x0C || n == 0x0D || n == 0x20 || n == 0xA0 ||
    n == 0x1680 || (0x2000 <= n <= 0x200A) || n == 0x2028 || n == 0x2029 || n == 0x202F ||
    n == 0x205F || n == 0x3000 || n == 0xFEFF
  }

  function TrimStart(s: string): (r: string)
    ensures |r| <= |s| && r == s[|s| - |r|..]
    ensures r == [] || !IsSpace(r[0])
    ensures forall j :: 0 <= j < |s| - |r| ==> IsSpace(s[j])
    decreases |s|
  {
    if s != [] && IsSpace(s[0]) then TrimStart(s[1..]) else s
  }

  function TrimEnd(s: string): (r: string)
    ensures |r| <= |s| && r == s[..|r|]
    ensures r == [] || !IsSpace(r[|r| - 1])
    ensures forall j :: |r| <= j < |s| ==> IsSpace(s[j])
    decreases |s|
  {
    if s != [] && IsSpace(s[|s| - 1]) then TrimEnd(s[..|s| - 1]) else s
  }

  /**
   * `s.trim()`: the text between the leading and the trailing white space. The result
   * is a slice of `s`, everything cut from either end is white space, and the result
   * neither starts nor ends with white space.
   */
  function Trim(s: string): (r: string)
    ensures var i := |s| - |TrimStart(s)|;
      i + |r| <= |s| && r == s[i..i + |r|] &&
      (forall j :: 0 <= j < i ==> IsSpace(s[j])) && (forall j :: i + |r| <= j < |s| ==> IsSpace(s[j]))
    ensures r == [] || (!IsSpace(r[0]) && !IsSpace(r[|r| - 1]))
  {
    var u := TrimStart(s);
    var r := TrimEnd(u);
    PrefixOfSuffix(s, u, r);
    r
  }

  /** A prefix `r` of a suffix `u` of `s` is the slice of `s` that starts where `u` does. */
  lemma PrefixOfSuffix(s: string, u: string, r: string)
    requires |u| <= |s| && u == s[|s| - |u|..] && |r| <= |u| && r == u[..|r|]
    ensures var i := |s| - |u|; r == s[i..i + |r|] && forall j :: i <= j < |s| ==> s[j] == u[j - i]
  {
  }

  /** Trimming a text that neither starts nor ends with white space leaves it unchanged. */
  lemma TrimNoSpace(s: string)
    requires s == [] || (!IsSpace(s[0]) && !IsSpace(s[|s| - 1]))
    ensures Trim(s) == s
  {
  }

  /** A trimmed text is empty exactly when the original was all white space. */
  lemma TrimEmpty(s: string)
    ensures Trim(s) == [] <==> forall i :: 0 <= i < |s| ==> IsSpace(s[i])
  {
  }

  // ---------------------------------------------------------------------------
  // Conversions

  /** The longest run of digits at the start of `s`. */
  function DigitPrefix(s: string): (r: string)
    ensures |r| <= |s| && AllDigits(r) && r == s[..|r|]
    ensures |r| == |s| || !IsDigit(s[|r|])
    decreases |s|
  {
    if s != [] && IsDigit(s[0]) then [s[0]] + DigitPrefix(s[1..]) else []
  }

  predicate IsHexDigit(c: char) { IsDigit(c) || 'a' <= c <= 'f' || 'A' <= c <= 'F' }

  predicate AllHexDigits(s: string) {
    forall i :: 0 <= i < |s| ==> IsHexDigit(s[i])
  }

  function HexDigitValue(c: char): (d: nat)
    requires IsHexDigit(c)
    ensures d < 16
  {
    if IsDigit(c) then DigitValue(c)
    else if 'a' <= c <= 'f' then (c as int) - ('a' as int) + 10
    else (c as int) - ('A' as int) + 10
  }

  /** The number a run of hexadecimal digits denotes, most significant digit first. */
  function HexValue(s: string): nat
    requires AllHexDigits(s)
    decreases |s|
  {
    if s == [] then 0 else HexValue(s[..|s| - 1]) * 16 + HexDigitValue(s[|s| - 1])
  }

  /** The longest run of hexadecimal digits at the start of `s`. */
  function HexPrefix(s: string): (r: string)
    ensures |r| <= |s| && AllHexDigits(r) && r == s[..|r|]
    ensures |r| == |s| || !IsHexDigit(s[|r|])
    decreases |s|
  {
    if s != [] && IsHexDigit(s[0]) then [s[0]] + HexPrefix(s[1..]) else []
  }

  /** Whether the text after the sign starts with `0x` or `0X`, which makes `parseInt` read base 16. */
  predicate HexMarked(s: string) {
    |s| >= 2 && s[0] == '0' && (s[1] == 'x' || s[1] == 'X')
  }

  /**
   * `parseInt(s)` without a radix: leading white space is skipped, then an optional
   * sign; a following `0x` or `0X` selects base 16, otherwise base 10; then the longest
   * run of digits of that base is read. With no such digits the result is `NaN`.
   */
  function ParseInt(s: string): (r: Value)
    ensures r == NaN || r.Num?
  {
    var u := TrimStart(s);
    var signed := |u| > 0 && (u[0] == '-' || u[0] == '+');
    ParseDigits(if signed then u[1..] else u, signed && u[0] == '-')
  }

  /** The digits `parseInt` reads after the sign, in base 16 after `0x` and in base 10 otherwise. */
  function ParseDigits(body: string, negative: bool): (r: Value)
    ensures r == NaN || r.Num?
  {
    if HexMarked(body) then
      var digits := HexPrefix(body[2..]);
      if digits == [] then NaN
      else if negative then Num(0 - HexValue(digits))
      else Num(HexValue(digits))
    else
      var digits := DigitPrefix(body);
      if digits == [] then NaN
      else if negative then Num(0 - DigitsValue(digits))
      else Num(DigitsValue(digits))
  }

  /** `Number(s)` for a text: white space around an integer literal is ignored and the empty text is 0. */
  function ToNumber(s: string): (r: Value)
    ensures r == NaN || r.Num?
    ensures (forall i :: 0 <= i < |s| ==> IsSpace(s[i])) ==> r == Num(0)
  {
    TrimEmpty(s);
    var u := Trim(s);
    if u == [] then Num(0)
    else match IntegerLiteral(u)
      case Some(k) => Num(k)
      case None => NaN
  }

  /** `String(v)`, as a template literal `${v}` renders it. */
  function ToText(v: Value): string {
    match v
    case Undefined => "undefined"
    case Null => "null"
    case NaN => "NaN"
    case Num(n) => DecimalString(n)
    case Str(s) => s
  }

  /**
   * `a == b`: `null` and `undefined` equal each other and nothing else; a number and a
   * text compare after converting the text with `Number(...)`; `NaN` equals nothing.
   */
  predicate LooseEq(a: Value, b: Value)
    ensures LooseEq(a, b) ==> a != NaN && b != NaN
  {
    if a.Undefined? || a.Null? then b.Undefined? || b.Null?
    else if a.Num? && b.Num? then a.n == b.n
    else if a.Str? && b.Str? then a.s == b.s
    else if a.Num? && b.Str? then ToNumber(b.s) == a
    else if a.Str? && b.Num? then ToNumber(a.s) == b
    else false
  }

  /** Loose equality is symmetric. */
  lemma LooseEqSymmetric(a: Value, b: Value)
    ensures LooseEq(a, b) <==> LooseEq(b, a)
  {
  }

  /** Strict equality implies loose equality. */
  lemma StrictImpliesLoose(a: Value, b: Value)
    ensures StrictEq(a, b) ==> LooseEq(a, b)
  {
  }

  /** A number never strictly equals a text, while it loosely equals any integer literal that denotes it. */
  lemma {:induction false} NumberMeetsLiteral(k: int, p: string)
    requires IntegerLiteral(p) == Some(k)
    ensures ToNumber(p) == Num(k) && LooseEq(Num(k), Str(p)) && !StrictEq(Num(k), Str(p))
  {
    assert p != [] && IsDigit(p[|p| - 1]) && (IsDigit(p[0]) || p[0] == '-' || p[0] == '+') by {
      if AllDigits(p) {
        assert IsDigit(p[0]) && IsDigit(p[|p| - 1]);
      } else {
        assert IsDigit(p[1..][|p| - 2]);
      }
    }
    NumeralNotSpace(p[0]);
    NumeralNotSpace(p[|p| - 1]);
    TrimNoSpace(p);
    assert ToNumber(p) == Num(k);
  }

  /** Digits and signs are not white space. */
  lemma NumeralNotSpace(c: char)
    requires IsDigit(c) || c == '-' || c == '+'
    ensures !IsSpace(c)
  {
  }

  /** `parseInt` reads back the decimal text of any integer. */
  lemma ParseIntDecimal(n: int)
    ensures ParseInt(DecimalString(n)) == Num(n)
  {
    var s := DecimalString(n);
    NatStringValue(if n < 0 then -n else n);
    NumeralNotSpace(s[0]);
    if n < 0 {
      assert s[1..] == NatString(-n);
      assert !HexMarked(s[1..]) by { DigitsNotHexMarked(s[1..]); }
      DigitPrefixAll(s[1..]);
    } else {
      assert !HexMarked(s) by { DigitsNotHexMarked(s); }
      DigitPrefixAll(s);
    }
  }

  lemma DigitsNotHexMarked(s: string)
    requires AllDigits(s)
    ensures !HexMarked(s)
  {
    if |s| >= 2 {
      assert IsDigit(s[1]);
    }
  }

  /**
   * `parseInt` reads a `0x` or `0X` text in base 16: `parseInt("0x1f")` is 31, and a bare
   * `0x` is `NaN`.
   */
  lemma ParseIntHex(h: string, x: char)
    requires AllHexDigits(h) && (x == 'x' || x == 'X')
    ensures ParseInt(['0', x] + h) == (if h == [] then NaN else Num(HexValue(h)))
  {
    ParseIntUnsigned(['0', x] + h);
    ParseDigitsHex(h, x, false);
  }

  /** The same after a sign: `parseInt("-0X1F")` is -31 and `parseInt("+0x1f")` is 31. */
  lemma ParseIntSignedHex(h: string, x: char, sign: char)
    requires AllHexDigits(h) && (x == 'x' || x == 'X') && (sign == '-' || sign == '+')
    ensures ParseInt([sign, '0', x] + h) ==
      (if h == [] then NaN else if sign == '-' then Num(0 - HexValue(h)) else Num(HexValue(h)))
  {
    var s := [sign, '0', x] + h;
    assert s[1..] == ['0', x] + h;
    ParseIntSigned(s);
    ParseDigitsHex(h, x, sign == '-');
  }

  lemma ParseDigitsHex(h: string, x: char, negative: bool)
    requires AllHexDigits(h) && (x == 'x' || x == 'X')
    ensures ParseDigits(['0', x] + h, negative) ==
      (if h == [] then NaN else if negative then Num(0 - HexValue(h)) else Num(HexValue(h)))
  {
    assert (['0', x] + h)[2..] == h;
    HexPrefixAll(h);
  }

  /** `parseInt` of a text that starts with neither white space nor a sign reads the text itself. */
  lemma ParseIntUnsigned(s: string)
    requires s != [] && !IsSpace(s[0]) && s[0] != '-' && s[0] != '+'
    ensures ParseInt(s) == ParseDigits(s, false)
  {
  }

  /** `parseInt` of a text that starts with a sign reads the rest of it. */
  lemma ParseIntSigned(s: string)
    requires s != [] && (s[0] == '-' || s[0] == '+')
    ensures ParseInt(s) == ParseDigits(s[1..], s[0] == '-')
  {
    assert !IsSpace(s[0]);
  }

  lemma {:induction false} HexPrefixAll(s: string)
    requires AllHexDigits(s)
    ensures HexPrefix(s) == s
    decreases |s|
  {
    if s != [] {
      HexPrefixAll(s[1..]);
    }
  }

  lemma {:induction false} DigitPrefixAll(s: string)
    requires AllDigits(s)
    ensures DigitPrefix(s) == s
    decreases |s|
  {
    if s != [] {
      DigitPrefixAll(s[1..]);
    }
  }
}
