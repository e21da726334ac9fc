/** JavaScript's number conversions as the client uses them on form input: `parseFloat`,
    `parseInt`, the implicit `ToNumber` of comparisons and arithmetic, and `*` and `/`.
    Numbers are exact reals; decimal literals without exponents are understood. */
module JsNumbers {
  import opened Js
  import opened JsStrings

  /** The length of the run of digits `s` starts with. */
  function DigitRun(s: string): (n: nat)
    ensures n <= |s| && AllDigits(s[..n])
    ensures n < |s| ==> !IsDigit(s[n])
  {
    if s != [] && IsDigit(s[0]) then
      var n := 1 + DigitRun(s[1..]);
      assert s[..n] == [s[0]] + s[1..][..n - 1];
      n
    else 0
  }

  /** The value of a string of decimal digits, most significant first. */
  function DecimalValue(d: string): nat
    requires AllDigits(d)
  {
    if d == [] then 0 else DecimalValue(d[..|d| - 1]) * 10 + DigitValue(d[|d| - 1])
  }

  /** The value of the digits written after a decimal point. */
  function FractionValue(d: string): real
    requires AllDigits(d)
  {
    if d == [] then 0.0 else (DigitValue(d[0]) as real + FractionValue(d[1..])) / 10.0
  }

  /** The length of an optional leading sign. */
  function SignLength(s: string): nat {
    if s != [] && (s[0] == '+' || s[0] == '-') then 1 else 0
  }

  /** The magnitude `m` with the sign `s` starts with. */
  function Signed(s: string, m: real): real {
    if s != [] && s[0] == '-' then -m else m
  }

  /** A decimal literal `[sign] digits [. digits]` at the start of `s`, with at least one digit:
      the length it covers and its value; `None` when `s` does not start with one. */
  function DecimalPrefix(s: string): (r: Option<(nat, real)>)
    ensures r.Some? ==> SignLength(s) < r.value.0 <= |s|
  {
    var k := SignLength(s);
    var body := s[k..];
    var whole := DigitRun(body);
    var hasDot := whole < |body| && body[whole] == '.';
    var frac := if hasDot then DigitRun(body[whole + 1..]) else 0;
    if whole == 0 && frac == 0 then None
    else
      var fracDigits := if hasDot then body[whole + 1..][..frac] else "";
      var len := k + whole + (if hasDot then 1 + frac else 0);
      Some((len, Signed(s, DecimalValue(body[..whole]) as real + FractionValue(fracDigits))))
  }

  /** `parseFloat(v)`: the decimal literal the text of `v` starts with, after leading
      whitespace; `NaN` when there is none. */
  function ParseFloat(v: Value): (r: Value)
    ensures r.Num? || r == NaN
  {
    match v
    case Num(n) => Num(n)
    case Str(s) =>
      (match DecimalPrefix(TrimStart(s))
       case Some(p) => Num(p.1)
       case None => NaN)
    case _ => NaN
  }

  /** `parseInt(v)`: the signed run of digits the text of `v` starts with, after leading
      whitespace; a number is truncated toward zero; `NaN` when there are no digits. */
  function ParseInt(v: Value): (r: Value)
    ensures r.Num? || r == NaN
  {
    match v
    case Num(n) => Num(if n >= 0.0 then n.Floor as real else -((-n).Floor as real))
    case Str(s) =>
      var t := TrimStart(s);
      var body := t[SignLength(t)..];
      var d := DigitRun(body);
      if d == 0 then NaN else Num(Signed(t, DecimalValue(body[..d]) as real))
    case _ => NaN
  }

  /** `ToNumber(v)`, used by comparisons and arithmetic: a blank string is 0, other strings
      must be a decimal literal as a whole once trimmed. */
  function ToNumber(v: Value): (r: Value)
    ensures r.Num? || r == NaN
  {
    match v
    case Undefined => NaN
    case Null => Num(0.0)
    case Bool(b) => Num(if b then 1.0 else 0.0)
    case Num(n) => Num(n)
    case NaN => NaN
    case Str(s) =>
      var t := Trim(s);
      if t == "" then Num(0.0)
      else
        (match DecimalPrefix(t)
         case Some(p) => if p.0 == |t| then Num(p.1) else NaN
         case None => NaN)
    case _ => NaN
  }

  /** `v <= 0`: false whenever `v` converts to `NaN`. */
  predicate AtMostZero(v: Value) {
    var x := ToNumber(v);
    x.Num? && x.n <= 0.0
  }

  /** `a * b`. */
  function Mul(a: Value, b: Value): Value {
    var x, y := ToNumber(a), ToNumber(b);
    if x.Num? && y.Num? then Num(x.n * y.n) else NaN
  }

  /** `a / b`; a zero divisor gives `NaN` here (see the README). */
  function Div(a: Value, b: Value): Value {
    var x, y := ToNumber(a), ToNumber(b);
    if x.Num? && y.Num? && y.n != 0.0 then Num(x.n / y.n) else NaN
  }

  /** `isNaN(v)` for the values `parseFloat` produces. */
  predicate IsNaN(v: Value) {
    ToNumber(v) == NaN
  }

  lemma {:induction false} DecimalValueOfText(n: nat)
    ensures DecimalValue(NatToString(n)) == n
  {
    if n >= 10 {
      var s := NatToString(n);
      assert s[..|s| - 1] == NatToString(n / 10);
      DecimalValueOfText(n / 10);
    }
  }

  lemma {:induction false} DigitRunOfDigits(s: string)
    requires AllDigits(s)
    ensures DigitRun(s) == |s|
  {
    if s != [] {
      DigitRunOfDigits(s[1..]);
    }
  }

  lemma DecimalPrefixOfDigits(s: string)
    requires |s| >= 1 && AllDigits(s)
    ensures DecimalPrefix(s) == Some((|s|, DecimalValue(s) as real))
  {
    assert !(s[0] == '+' || s[0] == '-');
    assert SignLength(s) == 0;
    var body := s[0..];
    assert body == s;
    DigitRunOfDigits(s);
    assert DigitRun(body) == |s| && body[..|s|] == s;
    assert FractionValue("") == 0.0;
  }

  lemma TrimOfDigits(s: string)
    requires |s| >= 1 && AllDigits(s)
    ensures TrimStart(s) == s && Trim(s) == s
  {
    assert !IsSpace(s[0]) && !IsSpace(s[|s| - 1]);
  }

  /** Number text round trip: `parseFloat`, `parseInt` and `ToNumber` all read back the
      natural number `String` wrote. */
  lemma ParseNatText(n: nat)
    ensures ParseFloat(Str(NatToString(n))) == Num(n as real)
    ensures ParseInt(Str(NatToString(n))) == Num(n as real)
    ensures ToNumber(Str(NatToString(n))) == Num(n as real)
  {
    var s := NatToString(n);
    TrimOfDigits(s);
    DecimalPrefixOfDigits(s);
    DigitRunOfDigits(s);
    assert SignLength(s) == 0;
    assert s[0..] == s && s[..|s|] == s;
    DecimalValueOfText(n);
  }

  /** Text that does not start with a digit, a sign or a point, after whitespace, is `NaN`
      to `parseFloat` and to `parseInt`. */
  lemma ParseNoDigits(s: string)
    requires var t := TrimStart(s); t == [] || !(IsDigit(t[0]) || t[0] in "+-.")
    ensures ParseFloat(Str(s)) == NaN
    ensures ParseInt(Str(s)) == NaN
  {
    var t := TrimStart(s);
    assert SignLength(t) == 0;
    assert t[0..] == t;
  }

  /** The text a template literal writes for a value: a string as it is, `undefined`, `null`,
      the booleans, `NaN`, a whole non-negative number in decimal and any object as
      `[object Object]`. */
  function Interpolate(v: Value): (s: string)
    ensures v.Str? ==> s == v.s
    ensures Nullish(v) ==> s == (if v == Null then "null" else "undefined")
  {
    match v
    case Str(t) => t
    case Undefined => "undefined"
    case Null => "null"
    case Bool(b) => if b then "true" else "false"
    case NaN => "NaN"
    case Num(n) => if n >= 0.0 && n == n.Floor as real then NatToString(n.Floor) else ""
    case Obj(_) => "[object Object]"
    case Arr(_) => ""
  }

  /** A whole count written into a message reads back as the same number. */
  lemma InterpolateCount(n: nat)
    ensures Interpolate(Num(n as real)) == NatToString(n)
    ensures ParseFloat(Str(Interpolate(Num(n as real)))) == Num(n as real)
  {
    assert (n as real).Floor == n;
    ParseNatText(n);
  }
}
