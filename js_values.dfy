/**
 * The JavaScript value semantics the handlers rely on: the values a JSON request body
 * carries, truthiness (`!x`), strict equality (`===`), `parseInt`, `String(x)`, ASCII
 * `toLowerCase`, `includes`, and decimal formatting of integers.
 */
module JsValues {
  import opened Wrappers

  /** A value read from `req.body`, `req.params` or `req.query`. Numbers are integers. */
  datatype JsVal = Undefined | Null | Bool(b: bool) | Num(n: int) | Str(s: string)

  /** JavaScript truthiness: `!v` is `!Truthy(v)`. */
  predicate Truthy(v: JsVal) {
    match v
    case Undefined => false
    case Null => false
    case Bool(b) => b
    case Num(n) => n != 0
    case Str(s) => s != ""
  }

  /** A JavaScript number as the modelled code produces it: an integer or NaN. */
  datatype Number = NaN | Int(i: int)

  /** `x - 1`; NaN stays NaN. */
  function Pred(x: Number): (r: Number)
    ensures r.NaN? <==> x.NaN?
    ensures x.Int? ==> r.i + 1 == x.i
  {
    match x
    case NaN => NaN
    case Int(i) => Int(i - 1)
  }

  // ---------------------------------------------------------------- decimal text

  predicate IsDigit(c: char) { '0' <= c <= '9' }

  predicate AllDigits(s: string) { forall k :: 0 <= k < |s| ==> IsDigit(s[k]) }

  function DigitChar(d: nat): (c: char)
    requires d < 10
    ensures IsDigit(c) && c as int - '0' as int == d
  {
    ('0' as int + d) as char
  }

  /** The value of a string of decimal digits, most significant first. */
  function DigitsValue(s: string): nat
    requires AllDigits(s)
  {
    if s == [] then 0 else DigitsValue(s[..|s| - 1]) * 10 + (s[|s| - 1] as int - '0' as int)
  }

  /** Decimal rendering of a natural number, without leading zeros. */
  function NatToString(n: nat): (s: string)
    ensures |s| >= 1 && AllDigits(s)
    ensures n >= 1 ==> s[0] != '0'
  {
    if n < 10 then [DigitChar(n)] else NatToString(n / 10) + [DigitChar(n % 10)]
  }

  /** `String(i)` for an integer. */
  function IntToString(i: int): string {
    if i < 0 then "-" + NatToString(-i) else NatToString(i)
  }

  lemma {:induction false} NatToStringValue(n: nat)
    ensures DigitsValue(NatToString(n)) == n
  {
    var s := NatToString(n);
    if n >= 10 {
      NatToStringValue(n / 10);
      assert s[..|s| - 1] == NatToString(n / 10);
    }
  }

  /** Distinct numbers have distinct renderings. */
  lemma NatToStringInjective(a: nat, b: nat)
    ensures NatToString(a) == NatToString(b) ==> a == b
  {
    NatToStringValue(a);
    NatToStringValue(b);
  }

  /** Leading zeros do not change the value of a digit string. */
  lemma {:induction false} LeadingZerosValue(k: nat, s: string)
    requires AllDigits(s)
    ensures AllDigits(Zeros(k) + s) && DigitsValue(Zeros(k) + s) == DigitsValue(s)
  {
    if s == [] {
      assert Zeros(k) + s == Zeros(k);
      ZerosValue(k);
    } else {
      var t := Zeros(k) + s;
      assert t[..|t| - 1] == Zeros(k) + s[..|s| - 1];
      LeadingZerosValue(k, s[..|s| - 1]);
    }
  }

  function Zeros(k: nat): (z: string)
    ensures |z| == k && forall j :: 0 <= j < k ==> z[j] == '0'
  {
    if k == 0 then [] else Zeros(k - 1) + ['0']
  }

  lemma {:induction false} ZerosValue(k: nat)
    ensures AllDigits(Zeros(k)) && DigitsValue(Zeros(k)) == 0
  {
    if k > 0 {
      ZerosValue(k - 1);
      assert Zeros(k)[..k - 1] == Zeros(k - 1);
    }
  }

  /** Python's `str.zfill(width)` on a digit string: left-pad with '0' to `width`. */
  function Zfill(s: string, width: nat): (r: string)
    ensures |r| == if |s| < width then width else |s|
    ensures r[|r| - |s|..] == s
  {
    if |s| < width then Zeros(width - |s|) + s else s
  }

  // ---------------------------------------------------------------- parseInt

  /** The white space and line terminators `parseInt` skips before the number. */
  predicate IsSpace(c: char) {
    c == ' ' || c == '\t' || c == '\n' || c == '\r' || c == '\U{000B}' || c == '\U{000C}' ||
    c == '\U{00A0}' || c == '\U{1680}' || ('\U{2000}' <= c <= '\U{200A}') || c == '\U{2028}' || c == '\U{2029}' ||
    c == '\U{202F}' || c == '\U{205F}' || c == '\U{3000}' || c == '\U{FEFF}'
  }

  /** The longest prefix of `s` made of decimal digits. */
  function LeadingDigits(s: string): (d: string)
    ensures |d| <= |s| && d == s[..|d|] && AllDigits(d)
    ensures |d| < |s| ==> !IsDigit(s[|d|])
  {
    if s == [] || !IsDigit(s[0]) then [] else [s[0]] + LeadingDigits(s[1..])
  }

  predicate IsHexDigit(c: char) { IsDigit(c) || 'a' <= c <= 'f' || 'A' <= c <= 'F' }

  predicate AllHex(s: string) { forall k :: 0 <= k < |s| ==> IsHexDigit(s[k]) }

  function HexDigitValue(c: char): (d: nat)
    requires IsHexDigit(c)
    ensures d < 16
  {
    if IsDigit(c) then c as int - '0' as int
    else if 'a' <= c <= 'f' then c as int - 'a' as int + 10
    else c as int - 'A' as int + 10
  }

  /** The value of a string of hexadecimal digits, most significant first. */
  function HexValue(s: string): nat
    requires AllHex(s)
  {
    if s == [] then 0 else HexValue(s[..|s| - 1]) * 16 + HexDigitValue(s[|s| - 1])
  }

  /** The longest prefix of `s` made of hexadecimal digits. */
  function LeadingHexDigits(s: string): (d: string)
    ensures |d| <= |s| && d == s[..|d|] && AllHex(d)
    ensures |d| < |s| ==> !IsHexDigit(s[|d|])
  {
    if s == [] || !IsHexDigit(s[0]) then [] else [s[0]] + LeadingHexDigits(s[1..])
  }

  /** `0x` or `0X`, which switches the default radix of `parseInt` to 16. */
  predicate HexPrefixed(s: string) {
    |s| >= 2 && s[0] == '0' && (s[1] == 'x' || s[1] == 'X')
  }

  /** The sign applied to a magnitude. */
  function Signed(neg: bool, m: nat): Number {
    if neg then Int(-(m as int)) else Int(m)
  }

  /** `parseInt(s)` with the default radix: leading blanks, an optional sign, then after a
      `0x`/`0X` prefix the longest run of hexadecimal digits, otherwise the longest run of
      decimal digits; NaN when that run is empty. */
  function ParseIntText(s: string): Number {
    if s != [] && IsSpace(s[0]) then ParseIntText(s[1..])
    else
      var neg := s != [] && s[0] == '-';
      var rest := if s != [] && (s[0] == '-' || s[0] == '+') then s[1..] else s;
      if HexPrefixed(rest) then
        var h := LeadingHexDigits(rest[2..]);
        if h == [] then NaN else Signed(neg, HexValue(h))
      else
        var d := LeadingDigits(rest);
        if d == [] then NaN else Signed(neg, DigitsValue(d))
  }

  /** The hexadecimal branch: `parseInt("0x2")` is 2 and `parseInt("-0X1A")` is -26. */
  lemma ParseIntHexExamples()
    ensures ParseIntText("0x2") == Int(2) && ParseIntText("-0X1A") == Int(-26)
  {
    assert LeadingHexDigits("2") == "2";
    assert LeadingHexDigits("1A") == "1A" by {
      assert LeadingHexDigits("A") == "A";
    }
    assert HexValue("1A") == 26 by {
      assert "1A"[..1] == "1";
      assert HexValue("1") == 1;
    }
  }

  lemma LeadingHexOfHex(s: string)
    requires AllHex(s)
    ensures LeadingHexDigits(s) == s
  {
    if s != [] {
      LeadingHexOfHex(s[1..]);
    }
  }

  /** Hexadecimal text after `0x` is read whole, in base 16. */
  lemma ParseIntHex(h: string)
    requires h != [] && AllHex(h)
    ensures ParseIntText("0x" + h) == Int(HexValue(h))
  {
    LeadingHexOfHex(h);
    assert ("0x" + h)[2..] == h;
  }

  /** A prefix without hexadecimal digits after it is NaN. */
  lemma ParseIntBarePrefix()
    ensures ParseIntText("0x") == NaN && ParseIntText("0xg") == NaN
  {
    assert LeadingHexDigits("") == [];
    assert LeadingHexDigits("g") == [];
  }

  /** A leading zero without `x` stays decimal: `parseInt("012")` is 12. */
  lemma ParseIntLeadingZero()
    ensures ParseIntText("012") == Int(12)
  {
    assert LeadingDigits("012") == "012" by {
      assert LeadingDigits("12") == "12" by {
        assert LeadingDigits("2") == "2";
      }
    }
    assert DigitsValue("012") == 12 by {
      assert "012"[..2] == "01" && "01"[..1] == "0";
      assert DigitsValue("01") == 1;
    }
  }

  /** `String(v)`: the text `parseInt` and template literals see. */
  function ToText(v: JsVal): string {
    match v
    case Undefined => "undefined"
    case Null => "null"
    case Bool(b) => if b then "true" else "false"
    case Num(n) => IntToString(n)
    case Str(s) => s
  }

  /** `parseInt(v)`. */
  function ParseInt(v: JsVal): Number {
    ParseIntText(ToText(v))
  }

  lemma LeadingDigitsOfDigits(s: string)
    requires AllDigits(s)
    ensures LeadingDigits(s) == s
  {
    if s != [] {
      LeadingDigitsOfDigits(s[1..]);
    }
  }

  /** `parseInt(String(n)) === n` for every integer. */
  lemma ParseIntRoundTrip(n: int)
    ensures ParseIntText(IntToString(n)) == Int(n)
  {
    var m: nat := if n < 0 then -n else n;
    var t := NatToString(m);
    assert !HexPrefixed(t) by {
      if m >= 1 { assert t[0] != '0'; } else { assert t == "0"; }
    }
    LeadingDigitsOfDigits(t);
    NatToStringValue(m);
    if n < 0 {
      assert ("-" + t)[1..] == t;
    }
  }

  /** A number in a request body is what `parseInt` makes of it. */
  lemma ParseIntOfNumber(n: int)
    ensures ParseInt(Num(n)) == Int(n)
  {
    ParseIntRoundTrip(n);
  }

  // ---------------------------------------------------------------- SQL parameters

  /** The text node-postgres sends for a query parameter; `None` is SQL NULL. */
  function SqlText(v: JsVal): Option<string> {
    match v
    case Undefined => None
    case Null => None
    case _ => Some(ToText(v))
  }

  /** `column = $1` in a WHERE clause: NULL matches nothing. */
  predicate SqlEquals(column: string, param: JsVal) {
    SqlText(param) == Some(column)
  }

  // ---------------------------------------------------------------- strings

  function LowerChar(c: char): char {
    if 'A' <= c <= 'Z' then (c as int + 32) as char else c
  }

  /** `s.toLowerCase()` on ASCII letters. */
  function ToLower(s: string): (r: string)
    ensures |r| == |s| && forall k :: 0 <= k < |s| ==> r[k] == LowerChar(s[k])
  {
    if s == [] then [] else [LowerChar(s[0])] + ToLower(s[1..])
  }

  /** `s.includes(sub)`: `sub` occurs in `s` at some position. */
  predicate Includes(s: string, sub: string) {
    exists i | 0 <= i <= |s| - |sub| :: OccursAt(s, sub, i)
  }

  predicate OccursAt(s: string, sub: string, i: int)
    requires 0 <= i <= |s| - |sub|
  {
    s[i..i + |sub|] == sub
  }

  lemma IncludesEmpty(s: string)
    ensures Includes(s, "")
  {
    assert OccursAt(s, "", 0);
  }

  lemma {:induction false} LowerIsIdempotent(s: string)
    ensures ToLower(ToLower(s)) == ToLower(s)
  {
    if s != [] {
      LowerIsIdempotent(s[1..]);
    }
  }
}
