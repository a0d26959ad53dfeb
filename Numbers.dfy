/**
 * The two number/string conversions the prompt selector depends on: an item's
 * value is `id.toString()`, and the chosen value is read back with `parseInt`.
 * Numbers are integers here (saved-prompt ids are integers).
 */
module Numbers {
  import opened Wrappers
  import Text

  /** The digit character for 0 <= d < 10. */
  function DecimalChar(d: nat): char
    requires d < 10
  {
    ('0' as int + d) as char
  }

  /** The value of a digit in the given radix (10 or 16), if it is one. */
  function DigitValue(c: char, radix: nat): (r: Option<nat>)
    requires radix == 10 || radix == 16
    ensures r.Some? ==> r.value < radix
  {
    if '0' <= c <= '9' then Some(c as int - '0' as int)
    else if radix == 16 && 'a' <= c <= 'f' then Some(c as int - 'a' as int + 10)
    else if radix == 16 && 'A' <= c <= 'F' then Some(c as int - 'A' as int + 10)
    else None
  }

  ghost predicate AllDigits(s: string, radix: nat)
    requires radix == 10 || radix == 16
  {
    forall i :: 0 <= i < |s| ==> DigitValue(s[i], radix).Some?
  }

  /** The length of the run of digits of the radix at the start of `s`. */
  function DigitRunLength(s: string, radix: nat): (k: nat)
    requires radix == 10 || radix == 16
    ensures k <= |s| && AllDigits(s[..k], radix)
    ensures k < |s| ==> DigitValue(s[k], radix).None?
  {
    if s != [] && DigitValue(s[0], radix).Some? then
      var k := 1 + DigitRunLength(s[1..], radix);
      assert forall i :: 1 <= i < k ==> s[..k][i] == s[1..][..k - 1][i - 1];
      k
    else 0
  }

  /** The longest prefix of `s` made of digits of the radix. */
  function TakeDigits(s: string, radix: nat): (r: string)
    requires radix == 10 || radix == 16
    ensures AllDigits(r, radix)
  {
    s[..DigitRunLength(s, radix)]
  }

  /** The value of a string of digits, most significant first. */
  function DigitsValue(ds: string, radix: nat): nat
    requires radix == 10 || radix == 16
    requires AllDigits(ds, radix)
  {
    if ds == [] then 0
    else DigitsValue(ds[..|ds| - 1], radix) * radix + DigitValue(ds[|ds| - 1], radix).value
  }

  /** The decimal numeral of a natural number, without leading zeros. */
  function NatToString(n: nat): (r: string)
    ensures |r| >= 1 && AllDigits(r, 10)
    ensures |r| > 1 ==> r[0] != '0'
  {
    if n < 10 then [DecimalChar(n)] else NatToString(n / 10) + [DecimalChar(n % 10)]
  }

  /** `Number.prototype.toString()` of an integer: its decimal numeral, with a
      leading minus sign when negative. */
  function IntToString(n: int): (r: string)
    ensures |r| >= 1 && (r[0] == '-' <==> n < 0)
    ensures AllDigits(if n < 0 then r[1..] else r, 10)
  {
    if n < 0 then "-" + NatToString(-n) else NatToString(n)
  }

  /** `parseInt(s)` with no radix argument: skip leading whitespace, take an
      optional sign, switch to radix 16 after a `0x` or `0X` prefix, and read the
      longest run of digits that follows. `None` stands for `NaN`, the result when
      no digit follows; `NaN` is equal to no number. Trailing text is ignored. */
  function ParseInt(s: string): (r: Option<int>)
    ensures Text.IsBlank(s) ==> r.None?
  {
    var t := Text.TrimStart(s);
    if t != [] && t[0] == '-' then
      match ParseMagnitude(t[1..])
      case None => None
      case Some(m) => Some(-(m as int))
    else if t != [] && t[0] == '+' then ParseMagnitude(t[1..])
    else ParseMagnitude(t)
  }

  /** The unsigned part of `parseInt`: a `0x` or `0X` prefix selects radix 16. */
  function ParseMagnitude(u: string): (r: Option<nat>)
    ensures u == [] || DigitValue(u[0], 10).None? ==> r.None?
  {
    var hex := |u| >= 2 && u[0] == '0' && (u[1] == 'x' || u[1] == 'X');
    var radix := if hex then 16 else 10;
    var digits := TakeDigits(if hex then u[2..] else u, radix);
    if digits == [] then None else Some(DigitsValue(digits, radix))
  }

  /** Reading the decimal numeral of `n` gives `n` back. */
  lemma {:induction false} NatToStringValue(n: nat)
    ensures DigitsValue(NatToString(n), 10) == n
  {
    var r := NatToString(n);
    if n >= 10 {
      NatToStringValue(n / 10);
      assert r[..|r| - 1] == NatToString(n / 10);
    }
  }

  /** A string of digits is its own longest digit prefix. */
  lemma TakeAllDigits(s: string, radix: nat)
    requires radix == 10 || radix == 16
    requires AllDigits(s, radix)
    ensures TakeDigits(s, radix) == s
  {
    TakeDigitsStops(s, [], radix);
    assert s + [] == s;
  }

  /** A numeral that starts with a decimal digit and is not a hexadecimal prefix
      reads as the value of its leading run of digits. */
  lemma ParseIntOfDecimal(d: string, rest: string)
    requires |d| >= 1 && AllDigits(d, 10)
    requires rest == [] || DigitValue(rest[0], 10).None?
    requires d == "0" && rest != [] ==> rest[0] != 'x' && rest[0] != 'X'
    ensures ParseMagnitude(d + rest) == Some(DigitsValue(d, 10))
    ensures ParseInt(d + rest) == Some(DigitsValue(d, 10))
  {
    var s := d + rest;
    NoHexPrefix(d, rest);
    TakeDigitsStops(d, rest, 10);
    MagnitudeOfDecimal(s, d);
    assert s[0] == d[0];
    UnsignedParse(s);
  }

  /** Without whitespace or a sign in front, `parseInt` reads just the magnitude. */
  lemma UnsignedParse(s: string)
    requires s != [] && '0' <= s[0] <= '9'
    ensures ParseInt(s) == ParseMagnitude(s)
  {
    assert !Text.IsJsWhitespace(s[0]);
    Text.TrimStartKeeps(s);
    assert s[0] != '-' && s[0] != '+';
  }

  /** A run of decimal digits followed by a non-digit never looks like `0x`. */
  lemma NoHexPrefix(d: string, rest: string)
    requires |d| >= 1 && AllDigits(d, 10)
    requires rest == [] || DigitValue(rest[0], 10).None?
    requires d == "0" && rest != [] ==> rest[0] != 'x' && rest[0] != 'X'
    ensures var s := d + rest; |s| >= 2 && s[0] == '0' ==> s[1] != 'x' && s[1] != 'X'
  {
    var s := d + rest;
    if |d| == 1 {
      assert |s| >= 2 ==> s[1] == rest[0];
    } else {
      assert s[1] == d[1];
    }
  }

  /** The magnitude of a decimal string is the value of its digit run. */
  lemma MagnitudeOfDecimal(s: string, d: string)
    requires |d| >= 1 && AllDigits(d, 10)
    requires |s| >= 2 && s[0] == '0' ==> s[1] != 'x' && s[1] != 'X'
    requires TakeDigits(s, 10) == d
    ensures ParseMagnitude(s) == Some(DigitsValue(d, 10))
  {
  }

  /** The round trip the prompt selector relies on: `parseInt(id.toString()) === id`. */
  lemma ParseIntOfToString(n: int)
    ensures ParseInt(IntToString(n)) == Some(n)
  {
    var m: nat := if n < 0 then -n else n;
    var d := NatToString(m);
    NatToStringValue(m);
    ParseIntOfDecimal(d, []);
    assert d + [] == d;
    if n < 0 {
      NegativeParse(d);
    }
  }

  /** A minus sign in front negates the magnitude that follows it. */
  lemma NegativeParse(d: string)
    requires d != []
    ensures ParseInt("-" + d) == match ParseMagnitude(d) case None => None case Some(m) => Some(-(m as int))
  {
    var s := "-" + d;
    assert s[0] == '-' && s[1..] == d;
    SignedParse(s);
  }

  /** A string that starts with a minus sign is read as the negated magnitude of
      the rest. */
  lemma SignedParse(s: string)
    requires s != [] && s[0] == '-'
    ensures ParseInt(s) == match ParseMagnitude(s[1..]) case None => None case Some(m) => Some(-(m as int))
  {
    assert !Text.IsJsWhitespace(s[0]);
    Text.TrimStartKeeps(s);
  }

  /** Distinct integers have distinct decimal strings. */
  lemma IntToStringInjective(a: int, b: int)
    requires IntToString(a) == IntToString(b)
    ensures a == b
  {
    ParseIntOfToString(a);
    ParseIntOfToString(b);
  }

  /** `parseInt` stops at the first character that is not a digit, so a numeral
      followed by any such text still reads as that numeral, except that `0`
      followed by `x` or `X` starts a hexadecimal numeral. */
  lemma ParseIntIgnoresTrailing(n: nat, rest: string)
    requires rest == [] || DigitValue(rest[0], 10).None?
    requires n == 0 && rest != [] ==> rest[0] != 'x' && rest[0] != 'X'
    ensures ParseInt(NatToString(n) + rest) == Some(n)
  {
    var d := NatToString(n);
    assert d == "0" ==> n == 0;
    NatToStringValue(n);
    ParseIntOfDecimal(d, rest);
  }

  /** The digit prefix of a run of digits followed by a non-digit is that run. */
  lemma TakeDigitsStops(d: string, rest: string, radix: nat)
    requires radix == 10 || radix == 16
    requires AllDigits(d, radix)
    requires rest == [] || DigitValue(rest[0], radix).None?
    ensures TakeDigits(d + rest, radix) == d
  {
    var s := d + rest;
    var k := DigitRunLength(s, radix);
    assert forall i :: 0 <= i < |d| ==> DigitValue(s[i], radix).Some? by {
      forall i | 0 <= i < |d| ensures s[i] == d[i] { }
    }
    assert |d| < |s| ==> s[|d|] == rest[0];
    assert k == |d|;
    assert s[..|d|] == d;
  }
}
