/** Values exchanged by the game: JSON values as the Python code sees them
    after `json.loads`, and the Python coercions (`float(x)`, `int(x)`,
    `str(n)`) the server, the engine and the client apply to them. */
module Values {

  datatype Option<T> = None | Some(value: T) {
    function GetOr(default: T): T {
      if Some? then value else default
    }
  }

  newtype byte = x: int | 0 <= x < 256

  /** The byte of the newline that ends every message on the wire. */
  const NEWLINE: byte := 10

  /** A decoded JSON value. Python ints and floats are both `Num`. */
  datatype Value =
    | Null
    | Bool(b: bool)
    | Num(r: real)
    | Str(s: string)
    | Arr(items: seq<Value>)
    | Obj(fields: map<string, Value>)

  /** `d.get(key)` on a decoded JSON object: a missing key reads as `None`. */
  function Lookup(fields: map<string, Value>, key: string): Value {
    if key in fields then fields[key] else Null
  }

  // ---------------------------------------------------------------------
  // Characters and digit strings

  /** The ASCII characters `str.isspace` accepts: space, tab, line feed,
      carriage return, vertical tab, form feed and the four separators
      0x1C-0x1F. */
  predicate IsSpace(c: char) {
    c == ' ' || c == '\t' || c == '\n' || c == '\r' || c == '\U{B}' || c == '\U{C}'
    || ('\U{1C}' <= c <= '\U{1F}')
  }

  predicate IsDigit(c: char) {
    '0' <= c <= '9'
  }

  predicate AllDigits(s: string) {
    forall i :: 0 <= i < |s| ==> IsDigit(s[i])
  }

  /** The value of a digit character; the parsers apply it to digits only. */
  function DigitValue(c: char): nat {
    if IsDigit(c) then (c as int) - ('0' as int) else 0
  }

  function DigitChar(d: nat): (c: char)
    requires d < 10
    ensures IsDigit(c) && DigitValue(c) == d
  {
    (('0' as int) + d) as char
  }

  /** Length of the run of digits that starts `s`. */
  function DigitRun(s: string): (n: nat)
    ensures n <= |s|
    ensures n == |s| || !IsDigit(s[n])
  {
    if s == [] || !IsDigit(s[0]) then 0 else DigitRun(s[1..]) + 1
  }

  /** The number a string of decimal digits denotes. */
  function DigitsValue(s: string): nat {
    if s == [] then 0 else DigitsValue(s[..|s| - 1]) * 10 + DigitValue(s[|s| - 1])
  }

  function Pow10(n: nat): (p: nat)
    ensures p >= 1
  {
    if n == 0 then 1 else 10 * Pow10(n - 1)
  }

  /** `x * 10^e` for a possibly negative exponent. */
  function Scale(x: real, e: int): real {
    if e >= 0 then x * (Pow10(e) as real) else x / (Pow10(-e) as real)
  }

  /** `s.strip()` restricted to ASCII whitespace. */
  function Strip(s: string): (t: string)
    ensures |t| <= |s|
    ensures t != [] ==> !IsSpace(t[0]) && !IsSpace(t[|t| - 1])
  {
    if s == [] then []
    else if IsSpace(s[0]) then Strip(s[1..])
    else if IsSpace(s[|s| - 1]) then Strip(s[..|s| - 1])
    else s
  }

  // ---------------------------------------------------------------------
  // float(str) and int(str)

  /** Where the text after an optional leading sign starts. */
  function SignEnd(t: string): (n: nat)
    ensures n <= 1 && n <= |t|
  {
    if t != [] && (t[0] == '+' || t[0] == '-') then 1 else 0
  }

  predicate NoDigit(s: string) {
    forall i :: 0 <= i < |s| ==> !IsDigit(s[i])
  }

  /** An optional exponent `e [sign] digits`; an absent one is `10^0`. */
  function ParseExponent(rest: string): Option<int> {
    if rest == [] then Some(0)
    else if rest[0] == 'e' || rest[0] == 'E' then
      var ex := rest[1..];
      var k := SignEnd(ex);
      var digits := ex[k..];
      if digits == [] || DigitRun(digits) != |digits| then None
      else
        var e: int := DigitsValue(digits);
        Some(if k == 1 && ex[0] == '-' then -e else e)
    else None
  }

  /** The value of the digits `whole "." frac`. */
  function Mantissa(whole: string, frac: string): real {
    (DigitsValue(whole) as real) + (DigitsValue(frac) as real) / (Pow10(|frac|) as real)
  }

  lemma ScaleZero(x: real)
    ensures Scale(x, 0) == x
  {
  }

  /** The value of digits, a fraction part and an optional exponent, when
      the exponent is well formed. */
  function DecimalValue(whole: string, frac: string, rest: string): Option<real> {
    match ParseExponent(rest)
    case None => None
    case Some(e) => Some(Scale(Mantissa(whole, frac), e))
  }

  /** An unsigned decimal: `digits [. [digits]]` or `. digits`, then an optional exponent. */
  function ParseUnsignedFloat(b: string): Option<real> {
    var n := DigitRun(b);
    var whole := b[..n];
    var afterWhole := b[n..];
    var hasPoint := afterWhole != [] && afterWhole[0] == '.';
    var afterPoint := if hasPoint then afterWhole[1..] else afterWhole;
    var m := DigitRun(afterPoint);
    var frac := if hasPoint then afterPoint[..m] else [];
    var rest := if hasPoint then afterPoint[m..] else afterWhole;
    if n + |frac| == 0 then None
    else DecimalValue(whole, frac, rest)
  }

  /** Python's `float(s)` on the decimal forms, surrounded by whitespace. */
  function ParseFloat(s: string): Option<real> {
    var t := Strip(s);
    var k := SignEnd(t);
    match ParseUnsignedFloat(t[k..])
    case None => None
    case Some(v) => Some(if k == 1 && t[0] == '-' then -v else v)
  }

  /** Python's `int(s)` on `[sign] digits`, surrounded by whitespace. */
  function ParseInt(s: string): Option<int> {
    var t := Strip(s);
    var k := SignEnd(t);
    var body := t[k..];
    if body == [] || DigitRun(body) != |body| then None
    else
      var v: int := DigitsValue(body);
      Some(if k == 1 && t[0] == '-' then -v else v)
  }

  lemma StripNoDigit(s: string)
    requires NoDigit(s)
    ensures NoDigit(Strip(s))
  {
    if s != [] && IsSpace(s[0]) {
      StripNoDigit(s[1..]);
    } else if s != [] && IsSpace(s[|s| - 1]) {
      StripNoDigit(s[..|s| - 1]);
    }
  }

  /** `str(n)` for a non-negative int. */
  function NatToString(n: nat): (s: string)
    ensures s != [] && AllDigits(s)
  {
    if n < 10 then [DigitChar(n)] else NatToString(n / 10) + [DigitChar(n % 10)]
  }

  /** `str(n)` for an int. */
  function IntToString(n: int): string {
    if n < 0 then "-" + NatToString(-n) else NatToString(n)
  }

  lemma {:induction false} NatToStringValue(n: nat)
    ensures DigitsValue(NatToString(n)) == n
  {
    var s := NatToString(n);
    if n >= 10 {
      NatToStringValue(n / 10);
      assert s[..|s| - 1] == NatToString(n / 10);
    }
  }

  /** A non-empty text with no whitespace at either end. */
  predicate Trimmed(s: string) {
    s != [] && !IsSpace(s[0]) && !IsSpace(s[|s| - 1])
  }

  /** A trimmed text that does not start with a sign. */
  predicate Bare(b: string) {
    Trimmed(b) && b[0] != '+' && b[0] != '-'
  }

  predicate IsSign(sign: string) {
    sign == "" || sign == "+" || sign == "-"
  }

  lemma NoSpaceStrip(s: string)
    requires Trimmed(s)
    ensures Strip(s) == s
  {
  }

  /** `int(str(n)) == n`: the column count written into the environment by
      the server reads back unchanged. */
  lemma IntStringRoundTrip(n: int)
    ensures ParseInt(IntToString(n)) == Some(n)
  {
    var s := IntToString(n);
    var digits := if n < 0 then NatToString(-n) else NatToString(n);
    assert IsDigit(digits[|digits| - 1]) && IsDigit(digits[0]);
    assert s[|s| - 1] == digits[|digits| - 1];
    NoSpaceStrip(s);
    assert s[SignEnd(s)..] == digits;
    assert DigitRun(digits) == |digits|;
    NatToStringValue(if n < 0 then -n else n);
  }

  /** A digit run followed by a non-digit (or nothing) is measured exactly. */
  lemma {:induction false} DigitRunPrefix(w: string, rest: string)
    requires AllDigits(w) && (rest == [] || !IsDigit(rest[0]))
    ensures DigitRun(w + rest) == |w|
  {
    if w == [] {
      assert w + rest == rest;
    } else {
      assert (w + rest)[1..] == w[1..] + rest;
      DigitRunPrefix(w[1..], rest);
    }
  }

  /** `float()` of a text without surrounding whitespace is the value of
      the text after its sign, negated after a minus sign. */
  lemma SignedFloat(s: string, v: real)
    requires Trimmed(s)
    requires ParseUnsignedFloat(s[SignEnd(s)..]) == Some(v)
    ensures ParseFloat(s) == Some(if SignEnd(s) == 1 && s[0] == '-' then -v else v)
  {
    assert Strip(s) == s by {
      NoSpaceStrip(s);
    }
  }

  /** A digit string alone is an unsigned float literal. */
  lemma UnsignedInteger(digits: string)
    requires digits != [] && AllDigits(digits)
    ensures ParseUnsignedFloat(digits) == Some(DigitsValue(digits) as real)
  {
    DigitRunPrefix(digits, []);
    assert digits + [] == digits;
    assert digits[..|digits|] == digits && digits[|digits|..] == [];
    assert ParseExponent([]) == Some(0);
    assert Mantissa(digits, []) == DigitsValue(digits) as real;
    ScaleZero(Mantissa(digits, []));
  }

  /** `float(str(n)) == n`: the decimal text of every integer parses as that
      number. */
  lemma FloatOfIntString(n: int)
    ensures ParseFloat(IntToString(n)) == Some(n as real)
  {
    var m: nat := if n < 0 then -n else n;
    IntStringShape(n);
    assert ParseUnsignedFloat(NatToString(m)) == Some(m as real) by {
      UnsignedInteger(NatToString(m));
      NatToStringValue(m);
    }
    SignedFloat(IntToString(n), m as real);
  }

  /** `str(n)` has no surrounding space, and after an optional minus (there
      exactly when `n` is negative) come the digits of `|n|`. */
  lemma IntStringShape(n: int)
    ensures var s := IntToString(n);
            && Trimmed(s) && s[SignEnd(s)..] == NatToString(if n < 0 then -n else n)
            && (SignEnd(s) == 1 && s[0] == '-' <==> n < 0)
  {
    var s := IntToString(n);
    var digits := NatToString(if n < 0 then -n else n);
    assert IsDigit(digits[|digits| - 1]) && IsDigit(digits[0]);
    assert s[|s| - 1] == digits[|digits| - 1];
  }

  /** The unsigned part `whole "." frac` of a decimal. */
  lemma UnsignedDecimal(whole: string, frac: string)
    requires AllDigits(whole) && AllDigits(frac) && |whole| + |frac| > 0
    ensures ParseUnsignedFloat(whole + "." + frac) == Some(Mantissa(whole, frac))
  {
    var b := whole + "." + frac;
    var tail := "." + frac;
    assert b == whole + tail;
    DigitRunPrefix(whole, tail);
    var n := DigitRun(b);
    assert n == |whole|;
    assert b[..n] == whole;
    assert b[n..] == tail;
    assert tail[1..] == frac;
    DigitRunPrefix(frac, []);
    assert frac + [] == frac;
    var m := DigitRun(frac);
    assert m == |frac|;
    assert frac[..m] == frac && frac[m..] == [];
    assert ParseExponent([]) == Some(0);
    ScaleZero(Mantissa(whole, frac));
  }

  /** A sign in front of a text that starts with neither a sign nor a
      blank is read back as that sign. */
  lemma SignPrefix(sign: string, b: string)
    requires IsSign(sign) && Bare(b)
    ensures var s := sign + b;
            && Trimmed(s)
            && SignEnd(s) == |sign| && s[SignEnd(s)..] == b
            && (SignEnd(s) == 1 && s[0] == '-' <==> sign == "-")
  {
    var s := sign + b;
    assert s[|s| - 1] == b[|b| - 1];
    assert s[|sign|..] == b;
    if sign == "" {
      assert s == b;
    } else {
      assert s[0] == sign[0];
    }
  }

  /** The unsigned text of a decimal starts with a digit or the point and
      ends with one, and has the decimal's value. */
  lemma DecimalText(whole: string, frac: string)
    requires AllDigits(whole) && AllDigits(frac) && |whole| + |frac| > 0
    ensures Bare(whole + "." + frac)
    ensures ParseUnsignedFloat(whole + "." + frac) == Some(Mantissa(whole, frac))
  {
    var b := whole + "." + frac;
    assert b[0] == if whole != [] then whole[0] else '.';
    assert b[|b| - 1] == if frac != [] then frac[|frac| - 1] else '.';
    UnsignedDecimal(whole, frac);
  }

  /** `v` after the sign `sign`: negated after a minus. */
  function Signed(sign: string, v: real): real {
    if sign == "-" then -v else v
  }

  /** `float(sign + b)` for an unsigned literal `b` with value `v`. */
  lemma SignedText(sign: string, b: string, v: real)
    requires IsSign(sign) && Bare(b)
    requires ParseUnsignedFloat(b) == Some(v)
    ensures ParseFloat(sign + b) == Some(Signed(sign, v))
  {
    SignPrefix(sign, b);
    SignedFloat(sign + b, v);
  }

  /** `float(sign + whole + "." + frac)`: an optional sign, digits and a
      fraction part (either digit string may be empty, not both) denote
      `whole + frac / 10^|frac|`, negated after a minus sign. */
  lemma FloatOfDecimal(sign: string, whole: string, frac: string)
    requires IsSign(sign)
    requires AllDigits(whole) && AllDigits(frac) && |whole| + |frac| > 0
    ensures ParseFloat(sign + (whole + "." + frac)) == Some(Signed(sign, Mantissa(whole, frac)))
  {
    var b := whole + "." + frac;
    var v := Mantissa(whole, frac);
    assert Bare(b) && ParseUnsignedFloat(b) == Some(v) by {
      DecimalText(whole, frac);
    }
    SignedText(sign, b, v);
  }

  // ---------------------------------------------------------------------
  // Coercions of decoded values

  /** `float(x)` if `isinstance(x, (int, float))`, else `float(str(x))`; `None`
      when that raises. A bool is an int in Python. Only a string's `str` can
      parse as a number: `str(None)`, lists and dicts never do. */
  function AsFloat(v: Value): (r: Option<real>)
    ensures v.Num? ==> r == Some(v.r)
    ensures v.Bool? ==> r == Some(if v.b then 1.0 else 0.0)
    ensures v.Str? ==> r == ParseFloat(v.s)
    ensures v.Null? || v.Arr? || v.Obj? ==> r == None
  {
    match v
    case Num(x) => Some(x)
    case Bool(b) => Some(if b then 1.0 else 0.0)
    case Str(s) => ParseFloat(s)
    case _ => None
  }

  /** `int(x)` rounding toward zero for a number. */
  function Truncate(x: real): (n: int)
    ensures x >= 0.0 ==> n as real <= x < n as real + 1.0
    ensures x < 0.0 ==> n as real - 1.0 < x <= n as real
  {
    if x >= 0.0 then x.Floor else -((-x).Floor)
  }

  /** `int(x)`, `None` when it raises (None, lists, dicts, non-integer strings). */
  function AsInt(v: Value): (r: Option<int>)
    ensures v.Num? ==> r == Some(Truncate(v.r))
    ensures v.Bool? ==> r == Some(if v.b then 1 else 0)
    ensures v.Str? ==> r == ParseInt(v.s)
    ensures v.Null? || v.Arr? || v.Obj? ==> r == None
  {
    match v
    case Num(x) => Some(Truncate(x))
    case Bool(b) => Some(if b then 1 else 0)
    case Str(s) => ParseInt(s)
    case _ => None
  }

  /** Without a digit there is no unsigned float literal. */
  lemma UnsignedNoDigit(b: string)
    requires NoDigit(b)
    ensures ParseUnsignedFloat(b) == None
  {
    if b != [] {
      assert !IsDigit(b[0]);
    }
    assert DigitRun(b) == 0;
    if |b| > 1 {
      assert b[1..][0] == b[1] && !IsDigit(b[1]);
    }
  }

  /** A string without a digit parses neither as a float nor as an int; in
      particular the trajectory labels are never numbers. */
  lemma NoDigitNoNumber(s: string)
    requires NoDigit(s)
    ensures ParseFloat(s) == None && ParseInt(s) == None
  {
    StripNoDigit(s);
    var t := Strip(s);
    var body := t[SignEnd(t)..];
    assert NoDigit(body);
    UnsignedNoDigit(body);
    if body != [] {
      assert !IsDigit(body[0]);
    }
  }

  lemma LabelsAreNotNumbers()
    ensures ParseFloat("left") == None && ParseFloat("center") == None && ParseFloat("right") == None
  {
    assert NoDigit("left") by { forall i | 0 <= i < 4 ensures !IsDigit("left"[i]) { } }
    assert NoDigit("center") by { forall i | 0 <= i < 6 ensures !IsDigit("center"[i]) { } }
    assert NoDigit("right") by { forall i | 0 <= i < 5 ensures !IsDigit("right"[i]) { } }
    NoDigitNoNumber("left");
    NoDigitNoNumber("center");
    NoDigitNoNumber("right");
  }
}
