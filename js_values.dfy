/** JavaScript values as the estimator's store holds them, and the built-in
    conversions the estimation arithmetic relies on: truthiness, property
    keys, `Number.prototype.toString` on counters and `parseFloat`. */
module JsValues {

  datatype Option<+T> = None | Some(value: T) {
    /** `x || d` where `x` is None exactly when it is NaN. */
    function GetOr(default: T): T {
      match this
      case Some(v) => v
      case None => default
    }
  }

  /** The outcome of code that may throw: only a TypeError (reading a
      property of `undefined`) arises in the modelled code. */
  datatype Result<+T> = Ok(value: T) | TypeError

  /** A property value: `undefined`, a boolean, a finite number or a string. */
  datatype Val = Undef | Bool(b: bool) | Num(n: real) | Str(s: string)

  /** JavaScript truthiness (a finite number is falsy only when it is zero). */
  predicate Truthy(v: Val) {
    match v
    case Undef => false
    case Bool(b) => b
    case Num(n) => n != 0.0
    case Str(s) => s != ""
  }

  /** `a || b` */
  function Or(a: Val, b: Val): (r: Val)
    ensures Truthy(a) ==> r == a
    ensures !Truthy(a) ==> r == b
  {
    if Truthy(a) then a else b
  }

  /** The property key that `obj[v]` looks up. Numbers are not converted:
      a numeric key never matches in this model. */
  function PropertyKey(v: Val): Option<string> {
    match v
    case Undef => Some("undefined")
    case Bool(b) => Some(if b then "true" else "false")
    case Num(_) => None
    case Str(s) => Some(s)
  }

  /** The property `obj[v] = x` stores under: the string form of `v`. A
      number keeps a key of its own, which no string id matches. */
  datatype Key = Name(name: string) | Number(n: real)

  function KeyOf(v: Val): (k: Key)
    ensures v.Str? ==> k == Name(v.s)
    ensures k.Name? <==> PropertyKey(v).Some?
  {
    match v
    case Num(n) => Number(n)
    case _ => Name(PropertyKey(v).value)
  }

  /** `obj[v]`, with `undefined` as None. */
  function Lookup<T>(m: map<string, T>, v: Val): (r: Option<T>)
    ensures r.Some? <==> PropertyKey(v).Some? && PropertyKey(v).value in m
    ensures r.Some? ==> r.value == m[PropertyKey(v).value]
  {
    match PropertyKey(v)
    case None => None
    case Some(k) => if k in m then Some(m[k]) else None
  }

  // ---------------------------------------------------------------------
  // Decimal digits and the string form of a counter

  predicate IsDigit(c: char) {
    '0' <= c <= '9'
  }

  predicate AllDigits(s: string) {
    forall i :: 0 <= i < |s| ==> IsDigit(s[i])
  }

  /** The value of a decimal digit (0 for any other character). */
  function DigitValue(c: char): nat {
    if IsDigit(c) then c as int - '0' as int else 0
  }

  function DigitChar(d: nat): (c: char)
    requires d < 10
    ensures IsDigit(c) && DigitValue(c) == d
  {
    ('0' as int + d) as char
  }

  /** The value of a string of decimal digits, most significant first. */
  function DigitsValue(s: string): nat {
    if s == [] then 0 else 10 * DigitsValue(s[..|s| - 1]) + DigitValue(s[|s| - 1])
  }

  /** `n.toString()` for a non-negative integer `n`. */
  function NatToString(n: nat): (r: string)
    ensures |r| > 0 && AllDigits(r)
  {
    if n < 10 then [DigitChar(n)] else NatToString(n / 10) + [DigitChar(n % 10)]
  }

  /** Reading back the string form of a counter gives the counter. */
  lemma {:induction false} NatToStringRoundTrip(n: nat)
    ensures DigitsValue(NatToString(n)) == n
  {
    var r := NatToString(n);
    if n >= 10 {
      NatToStringRoundTrip(n / 10);
      assert r[..|r| - 1] == NatToString(n / 10);
    }
  }

  /** Distinct counters give distinct strings. */
  lemma NatToStringInjective(m: nat, n: nat)
    requires NatToString(m) == NatToString(n)
    ensures m == n
  {
    NatToStringRoundTrip(m);
    NatToStringRoundTrip(n);
  }

  /** Distinct counters give distinct prefixed identifiers such as "group-3". */
  lemma PrefixedInjective(prefix: string, m: nat, n: nat)
    requires prefix + NatToString(m) == prefix + NatToString(n)
    ensures m == n
  {
    assert NatToString(m) == (prefix + NatToString(m))[|prefix|..];
    assert NatToString(n) == (prefix + NatToString(n))[|prefix|..];
    NatToStringInjective(m, n);
  }

  // ---------------------------------------------------------------------
  // parseFloat

  /** The white-space and line-terminator characters that `parseFloat`
      skips before the number. */
  predicate IsJsSpace(c: char) {
    c == '\t' || c == '\n' || c == '\U{000B}' || c == '\U{000C}' || c == '\r' || c == ' '
    || c == '\U{00A0}' || c == '\U{1680}' || ('\U{2000}' <= c <= '\U{200A}')
    || c == '\U{2028}' || c == '\U{2029}' || c == '\U{202F}' || c == '\U{205F}'
    || c == '\U{3000}' || c == '\U{FEFF}'
  }

  function TrimStart(s: string): (r: string)
    ensures |r| <= |s|
  {
    if s != [] && IsJsSpace(s[0]) then TrimStart(s[1..]) else s
  }

  /** The length of the longest run of digits at the head of `s`. */
  function DigitRun(s: string): (k: nat)
    ensures k <= |s|
  {
    if s != [] && IsDigit(s[0]) then 1 + DigitRun(s[1..]) else 0
  }

  /** The run is all digits and stops at the first non-digit. */
  lemma {:induction false} DigitRunSpec(s: string)
    ensures AllDigits(s[..DigitRun(s)])
    ensures DigitRun(s) < |s| ==> !IsDigit(s[DigitRun(s)])
  {
    if s != [] && IsDigit(s[0]) {
      DigitRunSpec(s[1..]);
      var k := DigitRun(s);
      assert s[..k] == [s[0]] + s[1..][..k - 1];
    }
  }

  /** The value of the digits after a decimal point: "25" is 0.25. */
  function FractionValue(s: string): (r: real)
    ensures 0.0 <= r < 1.0
  {
    if s == [] then 0.0 else (DigitValue(s[0]) as real + FractionValue(s[1..])) / 10.0
  }

  /** `m` times ten to the power `e`. */
  function Scale(m: real, e: int): real
    decreases if e < 0 then -e else e
  {
    if e == 0 then m
    else if e > 0 then 10.0 * Scale(m, e - 1)
    else Scale(m, e + 1) / 10.0
  }

  /** The exponent part at the head of `s` ("e", an optional sign and at
      least one digit), or 0 when there is none. */
  function Exponent(s: string): int {
    if |s| >= 2 && (s[0] == 'e' || s[0] == 'E') then
      var digits := if s[1] == '+' || s[1] == '-' then s[2..] else s[1..];
      var k := DigitRun(digits);
      if k == 0 then 0
      else if s[1] == '-' then -(DigitsValue(digits[..k]) as int)
      else DigitsValue(digits[..k])
    else 0
  }

  /** The unsigned decimal literal at the head of `s` (digits, an optional
      fraction, an optional exponent), or None when `s` does not start with
      one. Whatever follows the literal is ignored. */
  function UnsignedDecimal(s: string): Option<real> {
    var i := DigitRun(s);
    var hasDot := i < |s| && s[i] == '.';
    var fraction := if hasDot then s[i + 1..] else [];
    var f := DigitRun(fraction);
    if i + f == 0 then None
    else
      var mantissa := DigitsValue(s[..i]) as real + FractionValue(fraction[..f]);
      var rest := if hasDot then fraction[f..] else s[i..];
      Some(Scale(mantissa, Exponent(rest)))
  }

  /** `parseFloat(s)`; None stands for NaN. The literal "Infinity" is not a
      decimal and so is None too, and a literal too large for a double keeps
      its exact value instead of becoming Infinity. */
  function ParseFloat(s: string): Option<real> {
    var t := TrimStart(s);
    if t != [] && (t[0] == '+' || t[0] == '-') then
      match UnsignedDecimal(t[1..])
      case None => None
      case Some(v) => Some(if t[0] == '-' then -v else v)
    else UnsignedDecimal(t)
  }

  /** `parseFloat(v)` for any property value: a number is itself, a string
      is parsed, `undefined` and booleans are NaN. */
  function ParseNumber(v: Val): Option<real> {
    match v
    case Num(n) => Some(n)
    case Str(s) => ParseFloat(s)
    case _ => None
  }

  /** `parseFloat(v) || 0`. */
  function Coerce(v: Val): real {
    ParseNumber(v).GetOr(0.0)
  }

  /** The string form of a counter parses back to the counter. */
  lemma ParseFloatOfNat(n: nat)
    ensures ParseFloat(NatToString(n)) == Some(n as real)
  {
    var s := NatToString(n);
    assert IsDigit(s[0]);
    assert TrimStart(s) == s;
    UnsignedDecimalOfDigits(s);
    NatToStringRoundTrip(n);
  }

  /** A plain run of digits is read as the integer it spells. */
  lemma UnsignedDecimalOfDigits(s: string)
    requires |s| > 0 && AllDigits(s)
    ensures UnsignedDecimal(s) == Some(DigitsValue(s) as real)
  {
    DigitRunAll(s);
    assert s[..|s|] == s;
    var empty: string := [];
    assert DigitRun(empty) == 0;
    assert empty[..0] == empty;
    assert FractionValue(empty) == 0.0;
    assert s[|s|..] == empty;
    assert Exponent(empty) == 0;
  }

  lemma {:induction false} DigitRunAll(s: string)
    requires AllDigits(s)
    ensures DigitRun(s) == |s|
  {
    if s != [] {
      DigitRunAll(s[1..]);
    }
  }
}
