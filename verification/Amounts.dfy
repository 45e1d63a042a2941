/** Numbers keep their amount when they are written in plain notation, whatever exponent they were written with. */
module Amounts {
  import opened Json
  import opened RoundTrip

  /****** What digits are worth ******/

  /** Ten to the power of `e`. */
  function Ten(e: int): real
    decreases if e < 0 then -e else e
  {
    if e == 0 then 1.0 else if e > 0 then 10.0 * Ten(e - 1) else Ten(e + 1) / 10.0
  }

  /** The amount of a natural number in decimal digits, scaled by ten to the power of `e`. */
  function Worth(digits: string, e: int): real
    requires Digits(digits)
  {
    Natural(digits) as real * Ten(e)
  }

  lemma TenTimes(e: int)
    ensures Ten(e + 1) == 10.0 * Ten(e)
  {
  }

  lemma Reassociate(n: real, t: real)
    ensures (n * 10.0) * t == n * (10.0 * t)
  {
  }

  lemma OneZeroLess(digits: string, e: int)
    requires Digits(digits)
    ensures Worth(digits + "0", e) == Worth(digits, e + 1)
  {
    var more := digits + "0";
    assert more[..|more| - 1] == digits;
    assert Natural(more) == Natural(digits) * 10;
    TenTimes(e);
    Reassociate(Natural(digits) as real, Ten(e));
  }

  lemma {:induction false} ZerosLess(digits: string, n: nat, e: int)
    requires Digits(digits)
    ensures Digits(digits + Zeros(n)) && Worth(digits + Zeros(n), e) == Worth(digits, e + n)
    decreases n
  {
    if n == 0 {
      assert digits + Zeros(0) == digits;
    } else {
      assert digits + Zeros(n) == digits + Zeros(n - 1) + "0";
      ZerosLess(digits, n - 1, e + 1);
      OneZeroLess(digits + Zeros(n - 1), e);
    }
  }

  lemma {:induction false} ZeroInFront(digits: string)
    requires Digits(digits)
    ensures Digits("0" + digits) && Natural("0" + digits) == Natural(digits)
    decreases |digits|
  {
    var more := "0" + digits;
    if digits == "" {
      assert more[..0] == "";
    } else {
      ZeroInFront(digits[..|digits| - 1]);
      assert more[..|more| - 1] == "0" + digits[..|digits| - 1];
    }
  }

  lemma {:induction false} ZerosInFront(n: nat, digits: string)
    requires Digits(digits)
    ensures Digits(Zeros(n) + digits) && Natural(Zeros(n) + digits) == Natural(digits)
    decreases n
  {
    if n == 0 {
      assert Zeros(0) + digits == digits;
    } else {
      ZerosInFront(n - 1, digits);
      ZeroInFront(Zeros(n - 1) + digits);
      assert Zeros(n) + digits == "0" + (Zeros(n - 1) + digits);
    }
  }

  /****** What plain notation does ******/

  /** Moving the point. */
  function Pointed(digits: string, point: int): (string, string) {
    if point <= 0 then ("", Zeros(-point) + digits)
    else if point >= |digits| then (digits + Zeros(point - |digits|), "")
    else (digits[..point], digits[point..])
  }

  lemma SameNatural(x: string, y: string, e: int)
    requires Digits(x) && Digits(y) && Natural(x) == Natural(y)
    ensures Worth(x, e) == Worth(y, e)
  {
  }

  lemma PointInFront(digits: string, n: int)
    requires Digits(digits) && n >= 0
    ensures var after := Zeros(n) + digits;
            Digits(after) && Worth("" + after, -|after|) == Worth(digits, -n - |digits|)
  {
    var after := Zeros(n) + digits;
    ZerosInFront(n, digits);
    assert "" + after == after;
    SameNatural(after, digits, -|after|);
  }

  lemma PointBehind(digits: string, n: nat)
    requires Digits(digits)
    ensures var before := digits + Zeros(n); Digits(before) && Worth(before + "", 0) == Worth(digits, n)
  {
    var before := digits + Zeros(n);
    ZerosLess(digits, n, 0);
    assert before + "" == before;
  }

  lemma PointedIsWorthTheSame(digits: string, point: int, p: (string, string))
    requires Digits(digits) && p == Pointed(digits, point)
    ensures Digits(p.0) && Digits(p.1)
    ensures Worth(p.0 + p.1, -|p.1|) == Worth(digits, point - |digits|)
  {
    if point <= 0 {
      PointInFront(digits, -point);
    } else if point >= |digits| {
      PointBehind(digits, point - |digits|);
    } else {
      assert p.0 + p.1 == digits;
    }
  }

  lemma {:induction false} DropsLeadingZeros(before: string, after: string)
    requires Digits(before) && Digits(after)
    ensures var b := DropLeadingZeros(before);
            Digits(b) && (b != "" ==> b[0] != '0') && Natural(b + after) == Natural(before + after)
    decreases |before|
  {
    if before != "" && before[0] == '0' {
      var rest := before[1..];
      DropsLeadingZeros(rest, after);
      ZeroInFront(rest + after);
      assert before + after == "0" + (rest + after);
      assert DropLeadingZeros(before) == DropLeadingZeros(rest);
    }
  }

  lemma {:induction false} DropsTrailingZeros(before: string, after: string)
    requires Digits(before) && Digits(after)
    ensures var a := DropTrailingZeros(after);
            && Digits(a) && (a != "" ==> a[|a| - 1] != '0')
            && Worth(before + a, -|a|) == Worth(before + after, -|after|)
    decreases |after|
  {
    if after != "" && after[|after| - 1] == '0' {
      var shorter := after[..|after| - 1];
      DropsTrailingZeros(before, shorter);
      OneZeroLess(before + shorter, -|after|);
      assert before + after == before + shorter + "0";
    }
  }

  function WholePart(before: string): string {
    if DropLeadingZeros(before) == "" then "0" else DropLeadingZeros(before)
  }

  lemma WholePartIsWorthTheSame(before: string, after: string)
    requires Digits(before) && Digits(after)
    ensures var w := WholePart(before);
            Digits(w) && w != "" && (w[0] == '0' ==> w == "0") && Natural(w + after) == Natural(before + after)
  {
    DropsLeadingZeros(before, after);
    if DropLeadingZeros(before) == "" {
      ZeroInFront(after);
      assert "" + after == after;
    }
  }

  lemma PlainInParts(minus: bool, whole: string, fraction: string, exponent: int, p: (string, string))
    requires p == Pointed(whole + fraction, |whole| + exponent)
    ensures Plain(minus, whole, fraction, exponent) == Decimal(minus, WholePart(p.0), DropTrailingZeros(p.1))
  {
  }

  lemma DroppingIsWorthTheSame(before: string, after: string, w: string, f: string)
    requires Digits(before) && Digits(after) && w == WholePart(before) && f == DropTrailingZeros(after)
    ensures PlainParts(w, f) && Worth(w + f, -|f|) == Worth(before + after, -|after|)
  {
    DropsTrailingZeros(before, after);
    WholePartIsWorthTheSame(before, f);
    SameNatural(w + f, before + f, -|f|);
  }

  /** A number comes out as a plain numeral: without exponent and superfluous zeros, of the same sign and worth as
      the digits and the exponent that went in. */
  lemma PlainKeepsTheAmount(minus: bool, whole: string, fraction: string, exponent: int)
      returns (w: string, f: string)
    requires Digits(whole) && Digits(fraction)
    ensures PlainParts(w, f) && Plain(minus, whole, fraction, exponent) == Decimal(minus, w, f)
    ensures Worth(w + f, -|f|) == Worth(whole + fraction, exponent - |fraction|)
  {
    var digits, point := whole + fraction, |whole| + exponent;
    var p := Pointed(digits, point);
    w, f := WholePart(p.0), DropTrailingZeros(p.1);
    PlainInParts(minus, whole, fraction, exponent, p);
    PointedIsWorthTheSame(digits, point, p);
    DroppingIsWorthTheSame(p.0, p.1, w, f);
    assert point - |digits| == exponent - |fraction|;
  }

  /****** Numbers in a JSON text ******/

  /** The number that the digits, the point and the exponent spell. */
  ghost predicate SpeltBy(n: string, minus: bool, whole: string, fraction: string, exponent: int)
    requires Digits(whole) && Digits(fraction)
  {
    exists w: string, f: string :: PlainParts(w, f) && IsPlainFor(n, w, f, minus, whole, fraction, exponent)
  }

  predicate IsPlainFor(n: string, w: string, f: string, minus: bool, whole: string, fraction: string, exponent: int)
    requires PlainParts(w, f) && Digits(whole) && Digits(fraction)
  {
    && n == Decimal(minus, w, f) && Digits(w + f) && Digits(whole + fraction)
    && Worth(w + f, -|f|) == Worth(whole + fraction, exponent - |fraction|)
  }

  predicate Unread(tail: string) { tail == "" || (!Digit(tail[0]) && tail[0] != '.') }

  /** Reading a number, with its exponent if there is one, gives the plain numeral of the same amount. */
  lemma ReadsAmount(minus: bool, whole: string, fraction: string, tail: string, exponent: int, rest: string, s: string)
    requires PlainParts(whole, "") && Digits(fraction)
    requires Unread(tail) && ParseExponent(tail) == Parsed(exponent, rest)
    requires s == (if minus then "-" else "") + (whole + ((if fraction == "" then "" else "." + fraction) + tail))
    ensures ParseNumber(s).Parsed? && ParseNumber(s).rest == rest
    ensures SpeltBy(ParseNumber(s).value.numeral, minus, whole, fraction, exponent)
  {
    var t := (if fraction == "" then "" else "." + fraction) + tail;
    ReadsFraction(fraction, tail, t);
    ParsesWhole(whole, t, whole + t);
    SignIsTaken(minus, whole, t, s);
    NumberInParts(s, minus, whole, t, fraction, tail, exponent, rest);
    SpeltPlainly(minus, whole, fraction, exponent);
  }

  lemma SpeltPlainly(minus: bool, whole: string, fraction: string, exponent: int)
    requires Digits(whole) && Digits(fraction)
    ensures SpeltBy(Plain(minus, whole, fraction, exponent), minus, whole, fraction, exponent)
  {
    var w, f := PlainKeepsTheAmount(minus, whole, fraction, exponent);
    assert IsPlainFor(Plain(minus, whole, fraction, exponent), w, f, minus, whole, fraction, exponent);
  }

  lemma NumberInParts(s: string, minus: bool, whole: string, t: string, fraction: string, tail: string, exponent: int,
                      rest: string)
    requires s != "" && minus == (s[0] == '-')
    requires ParseWhole(if minus then s[1..] else s) == Parsed(whole, t)
    requires ParseFraction(t) == Parsed(fraction, tail) && ParseExponent(tail) == Parsed(exponent, rest)
    ensures ParseNumber(s) == Parsed(JNumber(Plain(minus, whole, fraction, exponent)), rest)
  {
  }

  lemma SignIsTaken(minus: bool, whole: string, t: string, s: string)
    requires whole != "" && Digit(whole[0]) && s == (if minus then "-" else "") + (whole + t)
    ensures s != "" && minus == (s[0] == '-') && (if minus then s[1..] else s) == whole + t
  {
  }

  lemma ReadsFraction(fraction: string, tail: string, t: string)
    requires Digits(fraction) && Unread(tail) && t == (if fraction == "" then "" else "." + fraction) + tail
    ensures ParseFraction(t) == Parsed(fraction, tail) && (t == "" || !Digit(t[0]))
  {
    if fraction == "" {
      assert t == tail;
    } else {
      assert t[1..] == fraction + tail;
      TakesDigits(fraction, tail);
    }
  }

  function Signed(sign: string, digits: string): int
    requires Digits(digits)
  {
    if sign == "-" then 0 - Natural(digits) else Natural(digits)
  }

  /** An exponent in all its spellings. */
  lemma ReadsExponent(mark: char, sign: string, digits: string, rest: string, tail: string)
    requires mark in "eE" && sign in ["", "+", "-"] && Digits(digits) && digits != ""
    requires rest == "" || !Digit(rest[0])
    requires tail == [mark] + (sign + (digits + rest))
    ensures Unread(tail) && ParseExponent(tail) == Parsed(Signed(sign, digits), rest)
  {
    TakesDigits(digits, rest);
    if sign == "" {
      assert tail[1..] == digits + rest && tail[1] == digits[0];
    } else {
      assert tail[2..] == digits + rest && tail[1] == sign[0];
    }
  }

  /** Without an exponent the number is as it stands. */
  lemma NoExponent(rest: string)
    requires Ends(rest)
    ensures Unread(rest) && ParseExponent(rest) == Parsed(0, rest)
  {
    if rest != "" { EndsPlainly(rest); }
  }

  lemma AnyNumberIsPlain(s: string)
    requires ParseNumber(s).Parsed?
    ensures Numeral(ParseNumber(s).value.numeral)
  {
    var minus := s != "" && s[0] == '-';
    var u := if minus then s[1..] else s;
    var Parsed(whole, t) := ParseWhole(u);
    var Parsed(fraction, v) := ParseFraction(t);
    TakenAreDigits(u);
    if t != "" { TakenAreDigits(t[1..]); }
    var w, f := PlainKeepsTheAmount(minus, whole, fraction, ParseExponent(v).value);
  }
}
