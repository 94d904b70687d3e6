/** Sample values: decimal numerals that must equal one. */
module MetricNumber {
  import opened Common
  import opened Decimal
  import opened PrometheusText

  const MAX_VALUE_BYTES := 32

  datatype Exponent = Exponent(mark: char, sign: string, digits: string)

  /** A numeral as it is written. */
  datatype Numeral = Numeral(sign: string, whole: string, dot: bool, fraction: string, exponent: Option<Exponent>)

  predicate IsSign(s: string) { s == "" || s == "+" || s == "-" }

  predicate WellFormed(n: Numeral) {
    && IsSign(n.sign) && AllDigits(n.whole) && AllDigits(n.fraction) && (n.fraction != "" ==> n.dot) && n.whole + n.fraction != ""
    && (n.exponent.Some? ==>
          var e := n.exponent.value;
          (e.mark == 'e' || e.mark == 'E') && IsSign(e.sign) && e.digits != "" && AllDigits(e.digits))
  }

  function PrintExponent(e: Option<Exponent>): string {
    if e.None? then "" else [e.value.mark] + (e.value.sign + (e.value.digits + ""))
  }

  function Print(n: Numeral): string {
    n.sign + (n.whole + if n.dot then "." + (n.fraction + PrintExponent(n.exponent)) else PrintExponent(n.exponent))
  }

  /** The value is exactly one, as rational numbers go. */
  predicate IsOne(n: Numeral)
    requires WellFormed(n)
  {
    var mantissa, places := Value(n.whole + n.fraction), |n.fraction|;
    n.sign != "-" &&
    if n.exponent.None? then mantissa == Power(places)
    else if n.exponent.value.sign == "-" then mantissa == Power(places + Value(n.exponent.value.digits))
    else mantissa * Power(Value(n.exponent.value.digits)) == Power(places)
  }

  // ---- scanning ----

  function Digits(t: string, done: string): (r: Scanned<string>)
    ensures |r.value| + |r.rest| == |done| + |t|
    ensures AllDigits(done) ==> AllDigits(r.value)
    decreases |t|
  {
    if t != "" && IsDigit(t[0]) then Digits(t[1..], done + [t[0]]) else Scanned(done, t)
  }

  function Sign(t: string): (r: Scanned<string>)
    ensures IsSign(r.value)
  {
    if t != "" && t[0] == '+' then Scanned("+", t[1..]) else if t != "" && t[0] == '-' then Scanned("-", t[1..]) else Scanned("", t)
  }

  function ScanExponent(t: string): (r: Option<Option<Exponent>>) {
    if t == "" then Some(None)
    else if t[0] != 'e' && t[0] != 'E' then None
    else
      var sign := Sign(t[1..]);
      var digits := Digits(sign.rest, "");
      if digits.value == "" || digits.rest != "" then None else Some(Some(Exponent(t[0], sign.value, digits.value)))
  }

  function Scan(t: string): (r: Option<Numeral>)
    ensures r.Some? ==> WellFormed(r.value)
  {
    var sign := Sign(t);
    var whole := Digits(sign.rest, "");
    var dot := whole.rest != "" && whole.rest[0] == '.';
    var fraction := if dot then Digits(whole.rest[1..], "") else Scanned("", whole.rest);
    var exponent := ScanExponent(fraction.rest);
    if whole.value + fraction.value == "" || exponent.None? then None
    else Some(Numeral(sign.value, whole.value, dot, fraction.value, exponent.value))
  }

  predicate ValidMetricValue(value: string) {
    value != "" && |value| <= MAX_VALUE_BYTES && Scan(value).Some? && IsOne(Scan(value).value)
  }

  // ---- scanning inverts printing, and the other way round ----

  predicate StartsWithDigit(t: string) { t != "" && IsDigit(t[0]) }

  lemma {:induction false} ScansDigits(digits: string, rest: string, done: string)
    requires AllDigits(digits) && !StartsWithDigit(rest)
    ensures Digits(digits + rest, done) == Scanned(done + digits, rest)
    decreases |digits|
  {
    if digits == "" {
      assert digits + rest == rest && done + digits == done;
    } else {
      ScansDigits(digits[1..], rest, done + [digits[0]]);
      assert (digits + rest)[1..] == digits[1..] + rest && done + [digits[0]] + digits[1..] == done + digits;
    }
  }

  lemma ScansAllDigits(digits: string, rest: string)
    requires AllDigits(digits) && !StartsWithDigit(rest)
    ensures Digits(digits + rest, "") == Scanned(digits, rest)
  {
    ScansDigits(digits, rest, "");
    assert "" + digits == digits;
  }

  predicate StartsWithSign(t: string) { t != "" && (t[0] == '+' || t[0] == '-') }

  lemma ScansSign(sign: string, rest: string)
    requires IsSign(sign) && !StartsWithSign(rest)
    ensures Sign(sign + rest) == Scanned(sign, rest)
  {
    if sign == "" {
      assert sign + rest == rest;
    } else {
      assert (sign + rest)[0] == sign[0] && (sign + rest)[1..] == rest;
    }
  }

  lemma ScansExponent(e: Option<Exponent>)
    requires e.Some? ==> (e.value.mark == 'e' || e.value.mark == 'E') && IsSign(e.value.sign) && e.value.digits != "" && AllDigits(e.value.digits)
    ensures ScanExponent(PrintExponent(e)) == Some(e)
    ensures !StartsWithDigit(PrintExponent(e)) && !StartsWithSign(PrintExponent(e)) && (e.Some? ==> PrintExponent(e)[0] != '.')
  {
    if e.Some? {
      var digits := e.value.digits + "";
      assert digits[0] == e.value.digits[0] && PrintExponent(e)[1..] == e.value.sign + digits;
      ScansSign(e.value.sign, digits);
      ScansAllDigits(e.value.digits, "");
    }
  }

  lemma ScansFraction(n: Numeral, tail: string)
    requires WellFormed(n) && !StartsWithDigit(tail) && !StartsWithSign(tail) && (tail != "" ==> tail[0] != '.')
    ensures var rest := if n.dot then "." + (n.fraction + tail) else tail;
            && !StartsWithDigit(rest) && (rest != "" && rest[0] == '.' <==> n.dot)
            && (n.dot ==> Digits(rest[1..], "") == Scanned(n.fraction, tail)) && !StartsWithSign(n.whole + rest)
  {
    var rest := if n.dot then "." + (n.fraction + tail) else tail;
    if n.dot {
      assert rest[1..] == n.fraction + tail;
      ScansAllDigits(n.fraction, tail);
    }
    if n.whole == "" {
      assert n.whole + rest == rest;
    } else {
      assert (n.whole + rest)[0] == n.whole[0];
    }
  }

  lemma PrintedIsScanned(n: Numeral)
    requires WellFormed(n)
    ensures Scan(Print(n)) == Some(n)
  {
    var tail := PrintExponent(n.exponent);
    var rest := if n.dot then "." + (n.fraction + tail) else tail;
    ScansExponent(n.exponent);
    ScansFraction(n, tail);
    ScansSign(n.sign, n.whole + rest);
    ScansAllDigits(n.whole, rest);
  }

  lemma {:induction false} DigitsAreKept(t: string, done: string)
    ensures Digits(t, done).value + Digits(t, done).rest == done + t
    ensures !StartsWithDigit(Digits(t, done).rest)
    decreases |t|
  {
    if StartsWithDigit(t) {
      DigitsAreKept(t[1..], done + [t[0]]);
      assert done + [t[0]] + t[1..] == done + t;
    }
  }

  lemma SignIsKept(t: string)
    ensures Sign(t).value + Sign(t).rest == t
  {
    if StartsWithSign(t) {
      assert t == [t[0]] + t[1..];
    } else {
      assert "" + t == t;
    }
  }

  lemma ExponentIsKept(t: string)
    requires ScanExponent(t).Some?
    ensures PrintExponent(ScanExponent(t).value) == t
  {
    if t != "" {
      var sign := Sign(t[1..]);
      var digits := Digits(sign.rest, "");
      SignIsKept(t[1..]);
      DigitsAreKept(sign.rest, "");
      assert "" + sign.rest == sign.rest && t == [t[0]] + t[1..];
      assert digits.value + "" == sign.rest;
    }
  }

  /** With `PrintedIsScanned`: the accepted texts are exactly the printed numerals. */
  lemma ScannedIsPrinted(t: string)
    requires Scan(t).Some?
    ensures Print(Scan(t).value) == t
  {
    var sign := Sign(t);
    var whole := Digits(sign.rest, "");
    SignIsKept(t);
    DigitsAreKept(sign.rest, "");
    assert "" + sign.rest == sign.rest;
    if whole.rest != "" && whole.rest[0] == '.' {
      var fraction := Digits(whole.rest[1..], "");
      DigitsAreKept(whole.rest[1..], "");
      assert "" + whole.rest[1..] == whole.rest[1..] && whole.rest == "." + whole.rest[1..];
      ExponentIsKept(fraction.rest);
    } else {
      ExponentIsKept(whole.rest);
    }
  }

  // ---- the loop ----

  method SkipDigits(value: string, start: nat) returns (next: nat)
    requires start <= |value|
    ensures start <= next <= |value| && Digits(value[start..], "") == Scanned(value[start..next], value[next..])
  {
    next := start;
    assert value[start..start] == "";
    while next < |value| && '0' <= value[next] <= '9'
      invariant start <= next <= |value| && Digits(value[start..], "") == Digits(value[next..], value[start..next])
    {
      assert value[next..][1..] == value[next + 1..];
      assert value[start..next] + [value[next]] == value[start..next + 1];
      next := next + 1;
    }
  }

  method ValidExponent(value: string, start: nat) returns (ok: bool)
    requires start <= |value|
    ensures ok <==> ScanExponent(value[start..]).Some?
  {
    if start == |value| {
      return true;
    }
    if value[start] != 'e' && value[start] != 'E' {
      return false;
    }
    var position := start + 1;
    assert value[start..][1..] == value[position..];
    if position < |value| && (value[position] == '+' || value[position] == '-') {
      assert value[position..][1..] == value[position + 1..];
      position := position + 1;
    }
    var exponentStart := position;
    position := SkipDigits(value, position);
    ok := position != exponentStart && position == |value|;
  }

  method ValidDeprecatedApiMetricValue(value: string) returns (ok: bool)
    ensures ok == ValidMetricValue(value)
  {
    if value == "" || |value| > MAX_VALUE_BYTES {
      return false;
    }
    var position := 0;
    assert value[0..] == value;
    if value[position] == '+' || value[position] == '-' {
      position := 1;
    }
    var wholeStart := position;
    assert Sign(value).rest == value[wholeStart..];
    position := SkipDigits(value, position);
    var digitCount := position - wholeStart;
    if position < |value| && value[position] == '.' {
      assert value[position..][1..] == value[position + 1..];
      var fractionStart := position + 1;
      position := SkipDigits(value, fractionStart);
      digitCount := digitCount + position - fractionStart;
    }
    assert Scan(value).Some? <==> digitCount > 0 && ScanExponent(value[position..]).Some?;
    if digitCount == 0 {
      return false;
    }
    var exponent := ValidExponent(value, position);
    if !exponent {
      return false;
    }
    ok := IsOne(Scan(value).value);
  }
}

/** The numbers behind the numerals. */
module MetricValues {
  import opened Common
  import opened Decimal
  import opened MetricNumber

  /** `x` with its decimal point moved by `k` places. */
  function Shifted(x: real, k: int): real
    decreases if k < 0 then -k else k
  {
    if k == 0 then x else if k > 0 then Shifted(10.0 * x, k - 1) else Shifted(x / 10.0, k + 1)
  }

  function ExponentOf(e: Option<Exponent>): int
    requires e.Some? ==> AllDigits(e.value.digits)
  {
    if e.None? then 0 else if e.value.sign == "-" then 0 - Value(e.value.digits) as int else Value(e.value.digits)
  }

  /** The rational number that a numeral denotes: its digits with the point moved behind the whole ones,
      and then by the exponent. */
  function Denotes(n: Numeral): real
    requires WellFormed(n)
  {
    var unsigned := Shifted(Value(n.whole + n.fraction) as real, ExponentOf(n.exponent) - |n.fraction|);
    if n.sign == "-" then -unsigned else unsigned
  }

  lemma {:induction false} ShiftKeepsSign(x: real, k: int)
    requires x >= 0.0
    ensures Shifted(x, k) >= 0.0
    decreases if k < 0 then -k else k
  {
    if k > 0 { ShiftKeepsSign(10.0 * x, k - 1); } else if k < 0 { ShiftKeepsSign(x / 10.0, k + 1); }
  }

  lemma {:induction false} ShiftedDownIsOne(x: real, k: int)
    requires k >= 0
    ensures Shifted(x, -k) == 1.0 <==> x == Power(k) as real
    decreases k
  {
    if k > 0 { ShiftedDownIsOne(x / 10.0, k - 1); }
  }

  lemma {:induction false} ShiftedUpIsOne(m: nat, k: nat)
    ensures Shifted(m as real, k) == 1.0 <==> m * Power(k) == 1
    decreases k
  {
    if k > 0 {
      ShiftedUpIsOne(10 * m, k - 1);
      assert (10 * m) as real == 10.0 * m as real && 10 * m * Power(k - 1) == m * Power(k);
    }
  }

  /** Places up and places down cancel. */
  lemma {:induction false} ShiftedIsOne(m: nat, up: nat, down: int)
    requires down >= 0
    ensures Shifted(m as real, up - down) == 1.0 <==> m * Power(up) == Power(down)
    decreases up
  {
    if up == 0 {
      ShiftedDownIsOne(m as real, down);
    } else if down == 0 {
      ShiftedUpIsOne(m, up);
    } else {
      ShiftedIsOne(m, up - 1, down - 1);
      assert m * Power(up) == 10 * (m * Power(up - 1));
    }
  }

  /** The sample value is accepted as one exactly if it denotes the number one. */
  lemma IsOneIff(n: Numeral)
    requires WellFormed(n)
    ensures IsOne(n) <==> Denotes(n) == 1.0
  {
    var m, places := Value(n.whole + n.fraction), |n.fraction|;
    if n.sign == "-" {
      ShiftKeepsSign(m as real, ExponentOf(n.exponent) - places);
    } else if n.exponent.None? {
      ShiftedDownIsOne(m as real, places);
    } else {
      var e := Value(n.exponent.value.digits);
      if n.exponent.value.sign == "-" {
        ShiftedDownIsOne(m as real, places + e);
      } else {
        ShiftedIsOne(m, e, places);
      }
    }
  }

  /** A sample value is accepted exactly if it has at most 32 bytes and writes the number one. */
  lemma AcceptedMeansOne(value: string)
    ensures ValidMetricValue(value) <==> |value| <= 32 && exists n :: WellFormed(n) && Print(n) == value && Denotes(n) == 1.0
  {
    if ValidMetricValue(value) {
      var n := Scan(value).value;
      ScannedIsPrinted(value);
      IsOneIff(n);
      assert WellFormed(n) && Print(n) == value;
    }
    if n :| WellFormed(n) && Print(n) == value && Denotes(n) == 1.0 {
      PrintedIsScanned(n);
      IsOneIff(n);
      assert value != "" by { assert n.whole + n.fraction != ""; }
    }
  }

  /** In particular, plain "1" is accepted. */
  lemma PlainOneIsAccepted()
    ensures ValidMetricValue("1")
  {
    var one := Numeral("", "1", false, "", None);
    assert Value("1") == 1 && one.whole + one.fraction == "1";
    assert Print(one) == "1";
    PrintedIsScanned(one);
  }
}
