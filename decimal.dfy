/** Stand-in for Go's `strconv.ParseFloat(s, 64)`: prices are kept as exact decimals
    (mantissa * 10^-scale) instead of float64, and only plain decimal literals are accepted. */
module Decimal {
  import opened Wrappers

  /** An opaque price value: `mantissa` scaled down by `scale` decimal places. */
  datatype Price = Price(mantissa: int, scale: nat)

  predicate IsDigit(c: char) {
    '0' <= c <= '9'
  }

  predicate AllDigits(s: string) {
    forall i :: 0 <= i < |s| ==> IsDigit(s[i])
  }

  /** The natural number written by a string of decimal digits (most significant first). */
  function DigitsValue(s: string): nat
    requires AllDigits(s)
  {
    if s == [] then 0 else DigitsValue(s[..|s| - 1]) * 10 + (s[|s| - 1] as int - '0' as int)
  }

  /** Index of the first '.', or |s| when there is none. */
  function PointIndex(s: string): (k: nat)
    ensures k <= |s|
    ensures forall i :: 0 <= i < k ==> s[i] != '.'
    ensures k < |s| ==> s[k] == '.'
  {
    if s == [] || s[0] == '.' then 0 else 1 + PointIndex(s[1..])
  }

  /** `digits[.digits]` with at least one digit in all. */
  function ParseUnsigned(s: string): Option<Price> {
    var k := PointIndex(s);
    var whole := s[..k];
    var fraction := if k < |s| then s[k + 1..] else [];
    if |whole| + |fraction| == 0 || !AllDigits(whole) || !AllDigits(fraction) then None
    else
      assert AllDigits(whole + fraction);
      Some(Price(DigitsValue(whole + fraction), |fraction|))
  }

  /** An optional sign followed by an unsigned decimal literal; `None` is ParseFloat's syntax error. */
  function ParsePrice(s: string): (r: Option<Price>)
    ensures s == [] ==> r.None?
  {
    if s != [] && (s[0] == '-' || s[0] == '+') then
      match ParseUnsigned(s[1..])
      case None => None
      case Some(p) => Some(if s[0] == '-' then Price(-p.mantissa, p.scale) else p)
    else
      ParseUnsigned(s)
  }

  /** Price texts from the tests: a plain decimal parses to its value. */
  lemma ParseWholeExample()
    ensures ParsePrice("123") == Some(Price(123, 0))
  {
    assert PointIndex("123") == 3 && "123"[..3] + [] == "123";
    assert DigitsValue("123") == 123 by {
      assert "123"[..2] == "12" && "12"[..1] == "1" && "1"[..0] == "";
    }
  }

  /** A fractional decimal keeps its digits and counts its decimal places. */
  lemma ParseFraction100Example()
    ensures ParsePrice("100.0") == Some(Price(1000, 1))
  {
    assert PointIndex("100.0") == 3 && "100.0"[..3] + "100.0"[4..] == "1000";
    assert DigitsValue("1000") == 1000 by {
      assert "1000"[..3] == "100" && "100"[..2] == "10" && "10"[..1] == "1" && "1"[..0] == "";
    }
  }

  lemma ParseFraction200Example()
    ensures ParsePrice("200.0") == Some(Price(2000, 1))
  {
    assert PointIndex("200.0") == 3 && "200.0"[..3] + "200.0"[4..] == "2000";
    assert DigitsValue("2000") == 2000 by {
      assert "2000"[..3] == "200" && "200"[..2] == "20" && "20"[..1] == "2" && "2"[..0] == "";
    }
  }

  /** Letters are a syntax error. */
  lemma ParseLettersExample()
    ensures ParsePrice("abc") == None
  {
    assert PointIndex("abc") == 3 && !IsDigit("abc"[0]);
  }
}
