/**
 * Decimal number text. `ParseNumber` stands in for `float.TryParse` on the
 * plain decimal forms the telemetry sender produces (an optional sign, digits,
 * an optional point and fraction digits); `FormatDecimal` writes such text.
 */
module Numbers {
  import opened Wrappers
  import Text

  predicate IsDigit(ch: char) {
    '0' <= ch <= '9'
  }

  predicate AllDigits(s: string) {
    forall k :: 0 <= k < |s| ==> IsDigit(s[k])
  }

  function DigitValue(ch: char): (d: nat)
    requires IsDigit(ch)
    ensures d < 10
  {
    ch as int - '0' as int
  }

  function Digit(d: nat): (ch: char)
    requires d < 10
    ensures IsDigit(ch) && DigitValue(ch) == d
  {
    ('0' as int + d) as char
  }

  function Pow10(k: nat): (r: nat)
    ensures r >= 1
  {
    if k == 0 then 1 else 10 * Pow10(k - 1)
  }

  /** The value of a string of decimal digits, most significant first. */
  function DigitsValue(s: string): nat
    requires AllDigits(s)
    decreases |s|
  {
    if s == [] then 0 else DigitsValue(s[..|s| - 1]) * 10 + DigitValue(s[|s| - 1])
  }

  /** `n.ToString()` for a natural number: its shortest decimal digits. */
  function NatToDigits(n: nat): (r: string)
    ensures |r| >= 1 && AllDigits(r)
  {
    if n < 10 then [Digit(n)] else NatToDigits(n / 10) + [Digit(n % 10)]
  }

  /** The last `k` decimal digits of `n`, with leading zeros. */
  function PaddedDigits(n: nat, k: nat): (r: string)
    ensures |r| == k && AllDigits(r)
  {
    if k == 0 then [] else PaddedDigits(n / 10, k - 1) + [Digit(n % 10)]
  }

  lemma {:induction false} NatToDigitsValue(n: nat)
    ensures DigitsValue(NatToDigits(n)) == n
  {
    if n >= 10 {
      NatToDigitsValue(n / 10);
      var r := NatToDigits(n);
      assert r[..|r| - 1] == NatToDigits(n / 10);
    }
  }

  lemma SmallNatToDigits(n: nat)
    requires n < 10
    ensures NatToDigits(n) == [Digit(n)]
  {
  }

  /** `n` with its last `k` decimal digits dropped (`n / 10^k`). */
  function DropDigits(n: nat, k: nat): nat {
    if k == 0 then n else DropDigits(n / 10, k - 1)
  }

  /** The number formed by the last `k` decimal digits of `n` (`n % 10^k`). */
  function LowDigits(n: nat, k: nat): nat {
    if k == 0 then 0 else LowDigits(n / 10, k - 1) * 10 + n % 10
  }

  /** Dropped and low digits split `n` as quotient and remainder by `10^k`. */
  lemma {:induction false} DigitsSplit(n: nat, k: nat)
    ensures DropDigits(n, k) * Pow10(k) + LowDigits(n, k) == n
    ensures LowDigits(n, k) < Pow10(k)
  {
    if k > 0 {
      var m, d := n / 10, n % 10;
      DigitsSplit(m, k - 1);
      var q, l, p := DropDigits(m, k - 1), LowDigits(m, k - 1), Pow10(k - 1);
      assert DropDigits(n, k) == q && LowDigits(n, k) == l * 10 + d && Pow10(k) == 10 * p;
      ShiftDigit(n, m, d, q, l, p);
    }
  }

  /** Appending the digit `d` to `m = q * p + l` appends it to the remainder `l`. */
  lemma ShiftDigit(n: int, m: int, d: int, q: int, l: int, p: int)
    requires n == 10 * m + d && 0 <= d < 10
    requires q * p + l == m && 0 <= l < p
    ensures q * (10 * p) + (l * 10 + d) == n && l * 10 + d < 10 * p
  {
    assert q * (10 * p) == 10 * (q * p);
  }

  /** The `k` padded digits of `n` denote its last `k` digits. */
  lemma {:induction false} PaddedDigitsValue(n: nat, k: nat)
    ensures DigitsValue(PaddedDigits(n, k)) == LowDigits(n, k)
  {
    if k > 0 {
      PaddedDigitsValue(n / 10, k - 1);
      var r := PaddedDigits(n, k);
      assert r[..|r| - 1] == PaddedDigits(n / 10, k - 1);
    }
  }

  /** The value of integer digits `ip` followed by fraction digits `fp`. */
  function DecimalValue(ip: string, fp: string): real
    requires AllDigits(ip) && AllDigits(fp)
  {
    DigitsValue(ip) as real + DigitsValue(fp) as real / Pow10(|fp|) as real
  }

  /**
   * `float.TryParse` restricted to `[+-]digits[.digits]`: at least one digit
   * in all, at most one point; anything else fails.
   */
  function ParseNumber(s: string): (r: Option<real>)
    ensures r.Some? ==> s != []
  {
    var negative := s != [] && s[0] == '-';
    var body := if s != [] && (s[0] == '-' || s[0] == '+') then s[1..] else s;
    var pieces := Text.Split(body, '.');
    if |pieces| > 2 then None
    else
      var ip := pieces[0];
      var fp := if |pieces| == 2 then pieces[1] else [];
      if !AllDigits(ip) || !AllDigits(fp) || |ip| + |fp| == 0 then None
      else
        var v := DecimalValue(ip, fp);
        Some(if negative then -v else v)
  }

  /**
   * Every text the parser accepts reads as its digits say: an optional sign,
   * integer digits `ip`, and when `point` a point and fraction digits `fp`,
   * with at least one digit in all (so `+5`, `007`, `.5` and `5.` included).
   */
  lemma {:induction false} ParseDecimalText(sign: string, ip: string, point: bool, fp: string)
    requires sign == "" || sign == "-" || sign == "+"
    requires AllDigits(ip) && AllDigits(fp) && |ip| + |fp| >= 1
    requires point || fp == []
    ensures var v := DecimalValue(ip, fp);
            ParseNumber(sign + (if point then ip + "." + fp else ip)) == Some(if sign == "-" then -v else v)
  {
    var body := if point then ip + "." + fp else ip;
    UnsignedSplit(ip, point, fp);
    var s := sign + body;
    var stripped := if s != [] && (s[0] == '-' || s[0] == '+') then s[1..] else s;
    assert stripped == body && (s != [] && s[0] == '-') == (sign == "-") by {
      if sign != "" {
        assert s[0] == sign[0] && s[1..] == body;
      } else {
        assert s == body;
      }
    }
    ParseNumberOf(s, body, ip, fp);
  }

  /** ParseNumber on a text whose unsigned part `body` splits at its point into the digits `ip` and `fp`. */
  lemma ParseNumberOf(s: string, body: string, ip: string, fp: string)
    requires AllDigits(ip) && AllDigits(fp) && |ip| + |fp| >= 1
    requires body == if s != [] && (s[0] == '-' || s[0] == '+') then s[1..] else s
    requires Text.Split(body, '.') == [ip, fp] || (Text.Split(body, '.') == [ip] && fp == [])
    ensures var v := DecimalValue(ip, fp);
            ParseNumber(s) == Some(if s != [] && s[0] == '-' then -v else v)
  {
    var pieces := Text.Split(body, '.');
    assert pieces[0] == ip && (if |pieces| == 2 then pieces[1] else []) == fp;
  }

  /** The text after the sign splits at its point into the integer and the fraction digits, and starts with no sign. */
  lemma UnsignedSplit(ip: string, point: bool, fp: string)
    requires AllDigits(ip) && AllDigits(fp) && |ip| + |fp| >= 1
    requires point || fp == []
    ensures var body := if point then ip + "." + fp else ip;
            Text.Split(body, '.') == (if point then [ip, fp] else [ip]) &&
            body != [] && body[0] != '-' && body[0] != '+'
  {
    var body := if point then ip + "." + fp else ip;
    DigitsHaveNoPoint(ip);
    DigitsHaveNoPoint(fp);
    if point {
      Text.SplitJoin([ip, fp], '.');
      assert Text.Join([ip, fp], '.') == body;
    } else {
      Text.SplitJoin([ip], '.');
    }
    if ip != [] {
      assert body[0] == ip[0] && IsDigit(ip[0]);
    } else {
      assert point && body[0] == '.';
    }
  }

  /** A decimal number: the value `mantissa / 10^scale`, written with `scale` fraction digits. */
  datatype Decimal = Decimal(mantissa: int, scale: nat) {
    function Value(): real {
      mantissa as real / Pow10(scale) as real
    }
  }

  function Abs(m: int): nat {
    if m < 0 then -m else m
  }

  /** Text made only of digits, minus signs and points. */
  predicate NumberText(s: string) {
    forall k :: 0 <= k < |s| ==> IsDigit(s[k]) || s[k] == '-' || s[k] == '.'
  }

  /** Integer digits of `q`, then a point and `fp` when `fp` is not empty. */
  function UnsignedText(q: nat, fp: string): (r: string)
    requires AllDigits(fp)
    ensures r != [] && IsDigit(r[0]) && IsDigit(r[|r| - 1]) && NumberText(r)
  {
    var ip := NatToDigits(q);
    if fp == [] then ip else ip + "." + fp
  }

  /** The text of a decimal number: sign, integer digits, and when `scale > 0` a point and the fraction digits. */
  function FormatDecimal(d: Decimal): (r: string)
    ensures r != [] && IsDigit(r[|r| - 1]) && NumberText(r)
  {
    var n := Abs(d.mantissa);
    var body := UnsignedText(DropDigits(n, d.scale), PaddedDigits(n, d.scale));
    if d.mantissa < 0 then "-" + body else body
  }

  lemma DigitsHaveNoPoint(s: string)
    requires AllDigits(s)
    ensures '.' !in s
  {
    forall k | 0 <= k < |s| ensures s[k] != '.' {
      assert IsDigit(s[k]);
    }
  }

  /** Integer and fraction parts recombine into the value they were taken from. */
  lemma QuotientRemainderReal(n: nat, p: nat, q: nat, r: nat)
    requires p >= 1 && q * p + r == n
    ensures q as real + r as real / p as real == n as real / p as real
  {
    assert (n as real) == (q as real) * (p as real) + (r as real);
    calc {
      (q as real) + (r as real) / (p as real);
      ((q as real) * (p as real) + (r as real)) / (p as real);
      (n as real) / (p as real);
    }
  }

  /** Unsigned number text splits at its point into the integer and fraction digits. */
  lemma {:induction false} UnsignedPieces(q: nat, fp: string)
    requires AllDigits(fp)
    ensures Text.Split(UnsignedText(q, fp), '.') == if fp == [] then [NatToDigits(q)] else [NatToDigits(q), fp]
  {
    var ip := NatToDigits(q);
    DigitsHaveNoPoint(ip);
    if fp == [] {
      Text.SplitJoin([ip], '.');
    } else {
      DigitsHaveNoPoint(fp);
      Text.SplitJoin([ip, fp], '.');
      assert Text.Join([ip, fp], '.') == ip + "." + fp;
    }
  }

  /** A sign in front of unsigned text negates the parsed value, and no sign leaves it. */
  lemma {:induction false} ParseSigned(body: string, negative: bool)
    requires body != [] && IsDigit(body[0])
    ensures var s := if negative then "-" + body else body;
            ParseNumber(s) == match ParseNumber(body)
                              case None => None
                              case Some(v) => Some(if negative then -v else v)
  {
    if negative {
      var s := "-" + body;
      assert s[0] == '-' && s[1..] == body;
    }
  }

  /** Unsigned number text parses to the value of its two digit strings. */
  lemma ParseUnsigned(q: nat, fp: string)
    requires AllDigits(fp)
    ensures ParseNumber(UnsignedText(q, fp)) == Some(DecimalValue(NatToDigits(q), fp))
  {
    var body := UnsignedText(q, fp);
    UnsignedPieces(q, fp);
    assert body[0] != '-' && body[0] != '+';
  }

  /** The digits of a decimal number's magnitude denote its value without sign. */
  lemma {:induction false} MagnitudeValue(d: Decimal)
    ensures var n := Abs(d.mantissa);
            DecimalValue(NatToDigits(DropDigits(n, d.scale)), PaddedDigits(n, d.scale))
            == n as real / Pow10(d.scale) as real
  {
    var n := Abs(d.mantissa);
    var q, f := DropDigits(n, d.scale), LowDigits(n, d.scale);
    NatToDigitsValue(q);
    PaddedDigitsValue(n, d.scale);
    DigitsSplit(n, d.scale);
    QuotientRemainderReal(n, Pow10(d.scale), q, f);
  }

  lemma SignedValue(m: int, p: nat)
    requires p >= 1
    ensures (if m < 0 then -(Abs(m) as real / p as real) else Abs(m) as real / p as real) == m as real / p as real
  {
  }

  /** Parsing the text of a decimal number gives back its value. */
  lemma {:induction false} ParseFormat(d: Decimal)
    ensures ParseNumber(FormatDecimal(d)) == Some(d.Value())
  {
    var n := Abs(d.mantissa);
    var fp := PaddedDigits(n, d.scale);
    var body := UnsignedText(DropDigits(n, d.scale), fp);
    ParseUnsigned(DropDigits(n, d.scale), fp);
    MagnitudeValue(d);
    var v := n as real / Pow10(d.scale) as real;
    assert ParseNumber(body) == Some(v);
    ParseSigned(body, d.mantissa < 0);
    assert FormatDecimal(d) == if d.mantissa < 0 then "-" + body else body;
    assert ParseNumber(FormatDecimal(d)) == Some(if d.mantissa < 0 then -v else v);
    SignedValue(d.mantissa, Pow10(d.scale));
  }
}
