/**
 * The few pieces of JavaScript value semantics the application relies on:
 * optional values (`undefined`), truthiness of strings and numbers in `if`
 * guards, `parseInt` with no radix, and the truncating `%`; and
 * the query string of a URL as `URLSearchParams` holds it.
 */
module Js {

  /** `None` is JavaScript's `undefined` (or `null`); for numbers it also stands for `NaN`. */
  datatype Option<+T> = None | Some(value: T)

  /** `if (s)` for a string that may be undefined: both `undefined` and `""` are falsy. */
  predicate TruthyString(s: Option<string>) {
    s.Some? && s.value != ""
  }

  /** `if (n)` for a number that may be undefined or NaN: those and `0` are falsy. */
  predicate TruthyNumber(n: Option<int>) {
    n.Some? && n.value != 0
  }

  predicate IsDigit(c: char) {
    '0' <= c <= '9'
  }

  /** The two radixes `parseInt` reads when it is given none: decimal, and hexadecimal after `0x`. */
  datatype Radix = Decimal | Hex

  function Base(radix: Radix): (b: nat)
    ensures b == 10 || b == 16
  {
    match radix
    case Decimal => 10
    case Hex => 16
  }

  predicate IsDigitIn(radix: Radix, c: char) {
    match radix
    case Decimal => IsDigit(c)
    case Hex => IsDigit(c) || 'a' <= c <= 'f' || 'A' <= c <= 'F'
  }

  predicate AllDigitsIn(radix: Radix, s: string) {
    forall i :: 0 <= i < |s| ==> IsDigitIn(radix, s[i])
  }

  /** The value of one digit; hexadecimal letters count in either case. */
  function DigitValue(radix: Radix, c: char): (d: nat)
    requires IsDigitIn(radix, c)
    ensures d < Base(radix)
  {
    if IsDigit(c) then c as int - '0' as int
    else if 'a' <= c <= 'f' then c as int - 'a' as int + 10
    else c as int - 'A' as int + 10
  }

  function DigitChar(d: nat): (c: char)
    requires d < 10
    ensures IsDigit(c) && DigitValue(Decimal, c) == d
  {
    ('0' as int + d) as char
  }

  /** Length of the longest prefix of `s` made of digits of the radix. */
  function DigitRunLength(radix: Radix, s: string): (k: nat)
    ensures k <= |s|
    ensures AllDigitsIn(radix, s[..k])
    ensures k < |s| ==> !IsDigitIn(radix, s[k])
  {
    if s == [] || !IsDigitIn(radix, s[0]) then 0
    else
      var k := 1 + DigitRunLength(radix, s[1..]);
      assert s[..k] == [s[0]] + s[1..][..k - 1];
      k
  }

  /** The number a string of digits denotes, most significant digit first. */
  function ValueIn(radix: Radix, s: string): nat
    requires AllDigitsIn(radix, s)
  {
    if s == [] then 0 else Base(radix) * ValueIn(radix, s[..|s| - 1]) + DigitValue(radix, s[|s| - 1])
  }

  /**
   * The characters `parseInt` skips before the number: ECMAScript's WhiteSpace
   * (tab, vertical tab, form feed, the byte order mark and the Unicode space
   * separators) and LineTerminator (line feed, carriage return, the line and
   * paragraph separators).
   */
  predicate IsJsSpace(c: char) {
    c == '\t' || c == '\n' || c == '\U{000B}' || c == '\U{000C}' || c == '\r' ||
    c == ' ' || c == '\U{00A0}' || c == '\U{1680}' || '\U{2000}' <= c <= '\U{200A}' ||
    c == '\U{2028}' || c == '\U{2029}' || c == '\U{202F}' || c == '\U{205F}' ||
    c == '\U{3000}' || c == '\U{FEFF}'
  }

  /** `s` without its leading white space. */
  function TrimStart(s: string): (t: string)
    ensures |t| <= |s| && t == s[|s| - |t|..]
    ensures t != [] ==> !IsJsSpace(t[0])
    ensures forall i :: 0 <= i < |s| - |t| ==> IsJsSpace(s[i])
  {
    if s != [] && IsJsSpace(s[0]) then
      var t := TrimStart(s[1..]);
      assert forall i :: 1 <= i < |s| - |t| ==> s[i] == s[1..][i - 1];
      t
    else s
  }

  /** The sign `parseInt` reads after the white space: a leading `-` makes the number negative. */
  predicate Negative(s: string) {
    var t := TrimStart(s);
    t != [] && t[0] == '-'
  }

  /** What follows the white space and the optional sign. */
  function Unsigned(s: string): (u: string)
    ensures var t := TrimStart(s); u == if t != [] && (t[0] == '+' || t[0] == '-') then t[1..] else t
  {
    var t := TrimStart(s);
    if t != [] && (t[0] == '+' || t[0] == '-') then t[1..] else t
  }

  predicate HasHexPrefix(u: string) {
    |u| >= 2 && u[0] == '0' && (u[1] == 'x' || u[1] == 'X')
  }

  /** The radix of the unsigned text: hexadecimal after a `0x` or `0X` prefix. */
  function RadixOf(u: string): (radix: Radix)
    ensures radix == Hex <==> HasHexPrefix(u)
  {
    if HasHexPrefix(u) then Hex else Decimal
  }

  /** The unsigned text without its `0x` or `0X` prefix. */
  function DigitsOf(u: string): (digits: string)
    ensures HasHexPrefix(u) ==> u == u[..2] + digits
    ensures !HasHexPrefix(u) ==> digits == u
  {
    if HasHexPrefix(u) then u[2..] else u
  }

  /** A nonempty run of decimal digits has no white space, sign or hexadecimal prefix to skip. */
  lemma DigitsAreUnsigned(s: string)
    requires AllDigitsIn(Decimal, s) && s != []
    ensures TrimStart(s) == s && !Negative(s) && Unsigned(s) == s && !HasHexPrefix(s)
  {
    assert IsDigit(s[0]);
    assert |s| >= 2 ==> IsDigit(s[1]);
  }

  /** The digit run of a text made only of digits is the whole text. */
  lemma ParseIntLength(s: string)
    requires AllDigitsIn(Decimal, s)
    ensures DigitRunLength(Decimal, s) == |s|
  {
  }

  /**
   * The number at the start of unsigned text: hexadecimal digits after a `0x`
   * or `0X` prefix, decimal digits otherwise, up to the first character that
   * is not a digit. No digits at all is NaN (None).
   */
  function ParseDigits(u: string): (r: Option<nat>)
    ensures var radix, digits := RadixOf(u), DigitsOf(u);
            && (r.None? <==> (digits == [] || !IsDigitIn(radix, digits[0])))
            && (r.Some? ==> r.value == ValueIn(radix, digits[..DigitRunLength(radix, digits)]))
    ensures AllDigitsIn(Decimal, u) && u != [] ==> r == Some(ValueIn(Decimal, u))
  {
    var radix, digits := RadixOf(u), DigitsOf(u);
    var k := DigitRunLength(radix, digits);
    assert AllDigitsIn(Decimal, u) && u != [] ==> digits == u && k == |u| && u[..k] == u by {
      if AllDigitsIn(Decimal, u) && u != [] { DigitsAreUnsigned(u); ParseIntLength(u); }
    }
    if k == 0 then None else Some(ValueIn(radix, digits[..k]))
  }

  /** A number read after a sign: negated after `-`, and NaN stays NaN. */
  function Signed(negative: bool, d: Option<nat>): (r: Option<int>)
    ensures r.None? <==> d.None?
    ensures r.Some? && !negative ==> r.value == d.value
    ensures r.Some? && negative ==> r.value == -(d.value as int)
  {
    match d
    case None => None
    case Some(v) => Some(if negative then -(v as int) else v)
  }

  /**
   * `parseInt(s)` with no radix, as section 19.2.5 of ECMA-262 defines it:
   * skip leading white space, read an optional sign, then read the number
   * after it; no digits at all is NaN (None).
   */
  function ParseInt(s: string): (r: Option<int>)
    ensures r.None? <==> ParseDigits(Unsigned(s)).None?
    ensures r.Some? && !Negative(s) ==> r.value == ParseDigits(Unsigned(s)).value
    ensures r.Some? && Negative(s) ==> r.value == -(ParseDigits(Unsigned(s)).value as int)
    ensures r.Some? && !Negative(s) ==> r.value >= 0
    ensures r.Some? && Negative(s) ==> r.value <= 0
    ensures AllDigitsIn(Decimal, s) && s != [] ==> r == Some(ValueIn(Decimal, s))
  {
    assert AllDigitsIn(Decimal, s) && s != [] ==> !Negative(s) && Unsigned(s) == s by {
      if AllDigitsIn(Decimal, s) && s != [] { DigitsAreUnsigned(s); }
    }
    Signed(Negative(s), ParseDigits(Unsigned(s)))
  }

  /** `parseInt` stops at the first character that is not a digit: "3 BHK" reads as 3. */
  lemma ParseIntTrailingText()
    ensures ParseInt("3 BHK") == Some(3)
  {
    assert "3 BHK"[0] == '3' && "3 BHK"[1] == ' ';
    assert TrimStart("3 BHK") == "3 BHK";
    assert Unsigned("3 BHK") == "3 BHK" && !Negative("3 BHK") && DigitsOf("3 BHK") == "3 BHK";
    assert "3 BHK"[1..][0] == ' ';
    assert DigitRunLength(Decimal, "3 BHK") == 1;
    assert "3 BHK"[..1] == "3" && ValueIn(Decimal, "3") == 3;
  }

  /** Text that does not start with a digit is NaN. */
  lemma ParseIntNoDigits()
    ensures ParseInt("BHK") == None
  {
    assert "BHK"[0] == 'B';
    assert TrimStart("BHK") == "BHK";
    assert Unsigned("BHK") == "BHK" && DigitsOf("BHK") == "BHK";
  }

  /** The digits "12" in decimal, each step spelled out. */
  lemma TwelveValue()
    ensures DigitRunLength(Decimal, "12") == 2 && "12"[..2] == "12" && ValueIn(Decimal, "12") == 12
  {
    assert "12"[0] == '1' && "12"[1] == '2' && "12"[1..] == "2" && "12"[..1] == "1";
    assert DigitRunLength(Decimal, "2") == 1;
  }

  /** White space before the number changes nothing. */
  lemma ParseIntSkipsSpace(c: char, t: string)
    requires IsJsSpace(c)
    ensures ParseInt([c] + t) == ParseInt(t)
  {
    assert ([c] + t)[1..] == t;
    assert TrimStart([c] + t) == TrimStart(t);
    assert Unsigned([c] + t) == Unsigned(t) && Negative([c] + t) == Negative(t);
  }

  /** A minus sign in front of an unsigned number negates it, and leaves NaN as NaN. */
  lemma ParseIntNegates(t: string)
    requires t == [] || (!IsJsSpace(t[0]) && t[0] != '+' && t[0] != '-')
    ensures ParseInt("-" + t) == if ParseInt(t).Some? then Some(-ParseInt(t).value) else None
  {
    MinusSign(t);
    NoSign(t);
    SignedNegates(ParseDigits(t));
  }

  /** After a minus sign, `parseInt` reads the rest negated. */
  lemma MinusSign(t: string)
    ensures ParseInt("-" + t) == Signed(true, ParseDigits(t))
  {
    var m := "-" + t;
    assert m[0] == '-' && m[1..] == t;
    assert TrimStart(m) == m;
    assert Negative(m) && Unsigned(m) == t;
  }

  /** Text with no leading white space or sign is read as it stands. */
  lemma NoSign(t: string)
    requires t == [] || (!IsJsSpace(t[0]) && t[0] != '+' && t[0] != '-')
    ensures ParseInt(t) == Signed(false, ParseDigits(t))
  {
    assert TrimStart(t) == t;
    assert !Negative(t) && Unsigned(t) == t;
  }

  lemma SignedNegates(d: Option<nat>)
    ensures Signed(true, d) == if Signed(false, d).Some? then Some(-Signed(false, d).value) else None
  {
  }

  /** Leading white space is skipped: " 12" reads as 12. */
  lemma ParseIntLeadingSpace()
    ensures ParseInt(" 12") == Some(12)
  {
    assert " 12" == [' '] + "12";
    ParseIntSkipsSpace(' ', "12");
    TwelveValue();
  }

  /** A leading minus sign negates the number: "-12" reads as -12. */
  lemma ParseIntMinus()
    ensures ParseInt("-12") == Some(-12)
  {
    assert "12"[0] == '1';
    ParseIntNegates("12");
    assert "-12" == "-" + "12";
    TwelveValue();
  }

  /** Only one sign is read: "--5" is NaN. */
  lemma ParseIntTwoSigns()
    ensures ParseInt("--5") == None
  {
    assert "--5"[0] == '-' && "--5"[1..] == "-5" && "-5"[0] == '-';
    assert TrimStart("--5") == "--5";
    assert Unsigned("--5") == "-5" && DigitsOf("-5") == "-5";
  }

  /** A `0x` prefix makes `parseInt` read hexadecimal digits: "0x3" reads as 3. */
  lemma ParseIntHexPrefix()
    ensures ParseInt("0x3") == Some(3)
  {
    assert "0x3"[0] == '0' && "0x3"[1] == 'x' && "0x3"[2..] == "3";
    assert TrimStart("0x3") == "0x3";
    assert Unsigned("0x3") == "0x3" && !Negative("0x3") && DigitsOf("0x3") == "3";
    assert DigitRunLength(Hex, "3") == 1 && "3"[..1] == "3" && ValueIn(Hex, "3") == 3;
  }

  /** Hexadecimal letters count in either case after `0X`: "0X1f" reads as 31. */
  lemma ParseIntHexLetters()
    ensures ParseInt("0X1f") == Some(31)
  {
    assert "0X1f"[0] == '0' && "0X1f"[1] == 'X' && "0X1f"[2..] == "1f";
    assert TrimStart("0X1f") == "0X1f";
    assert Unsigned("0X1f") == "0X1f" && !Negative("0X1f") && DigitsOf("0X1f") == "1f";
    assert "1f"[0] == '1' && "1f"[1] == 'f' && "1f"[..1] == "1" && "1f"[1..] == "f";
    assert DigitRunLength(Hex, "1f") == 2 && "1f"[..2] == "1f";
    assert ValueIn(Hex, "1f") == 31;
  }

  /** The `0x` prefix with no digit after it is NaN, not 0. */
  lemma ParseIntBareHexPrefix()
    ensures ParseInt("0x") == None
  {
    assert "0x"[0] == '0' && "0x"[1] == 'x' && "0x"[2..] == "";
    assert TrimStart("0x") == "0x";
    assert Unsigned("0x") == "0x" && DigitsOf("0x") == "";
  }

  /** The decimal representation of a natural number, as `String(n)` writes it. */
  function DecimalString(n: nat): (s: string)
    ensures s != [] && AllDigitsIn(Decimal, s)
    ensures n != 0 ==> s[0] != '0'
  {
    if n < 10 then [DigitChar(n)] else DecimalString(n / 10) + [DigitChar(n % 10)]
  }

  lemma {:induction false} DecimalStringValue(n: nat)
    ensures ValueIn(Decimal, DecimalString(n)) == n
  {
    var s := DecimalString(n);
    if n >= 10 {
      DecimalStringValue(n / 10);
      assert s[..|s| - 1] == DecimalString(n / 10);
    }
  }

  /** `parseInt(String(n)) === n` for every natural number. */
  lemma ParseIntDecimalString(n: nat)
    ensures ParseInt(DecimalString(n)) == Some(n)
  {
    DecimalStringValue(n);
  }

  /**
   * JavaScript's `a % n` for a positive divisor: the remainder of division
   * truncated toward zero, so it takes the sign of `a`.
   */
  function JsRem(a: int, n: int): (r: int)
    requires n > 0
    ensures -n < r < n
    ensures a >= 0 ==> r >= 0
    ensures a <= 0 ==> r <= 0
    ensures a >= 0 ==> r == a % n
  {
    if a >= 0 then a % n else -((-a) % n)
  }

  /** `URLSearchParams`: the query string's key/value pairs, in order. */
  type Params = seq<(string, string)>

  /** `params.get(key)`: the value of the first pair with that key, or null (None). */
  function ParamGet(params: Params, key: string): (r: Option<string>)
    ensures r.None? <==> forall i :: 0 <= i < |params| ==> params[i].0 != key
    ensures r.Some? ==> exists i :: 0 <= i < |params| && params[i] == (key, r.value) &&
                                    forall j :: 0 <= j < i ==> params[j].0 != key
  {
    if params == [] then None
    else if params[0].0 == key then Some(params[0].1)
    else
      var r := ParamGet(params[1..], key);
      assert r.Some? ==> exists i :: 0 < i < |params| && params[i] == (key, r.value) &&
                                     forall j :: 0 <= j < i ==> params[j].0 != key by {
        if r.Some? {
          var i :| 0 <= i < |params| - 1 && params[1..][i] == (key, r.value) &&
                   forall j :: 0 <= j < i ==> params[1..][j].0 != key;
          assert params[i + 1] == (key, r.value);
          forall j | 0 <= j < i + 1 ensures params[j].0 != key {
            if j > 0 { assert params[j] == params[1..][j - 1]; }
          }
        }
      }
      assert r.None? ==> forall i :: 0 <= i < |params| ==> params[i].0 != key by {
        if r.None? {
          forall i | 0 <= i < |params| ensures params[i].0 != key {
            if i > 0 { assert params[i] == params[1..][i - 1]; }
          }
        }
      }
      r
  }

  /** `x || ""` for a value that may be null. */
  function OrEmpty(s: Option<string>): (r: string)
    ensures TruthyString(s) ==> r == s.value
    ensures !TruthyString(s) ==> r == ""
  {
    if s.Some? then s.value else ""
  }
}
