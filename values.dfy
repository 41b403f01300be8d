/** Scalars exchanged with the database engine, the errors the core raises,
    and Python's `str()` and truthiness on those scalars. */
module Values {

  datatype Option<+T> = None | Some(value: T)

  /** A scalar value of a fetched row (a Python object in the server). */
  datatype Value =
    | Null                 // None
    | Bool(b: bool)
    | Int(i: int)
    | Text(s: string)
    | Float(repr: string)  // a Python float, kept as its str() text
    | Other(repr: string)  // dates, times, decimals, nested lists and dicts: kept as their str() text

  /** The exceptions that travel through the core. */
  datatype Error =
    | EngineError(message: string)  // raised by the engine: connect, execute or fetch
    | NotIterable                   // the cursor description is None (TypeError)
    | KeyMissing(key: string)       // KeyError from a record lookup
    | NotSerializable               // TypeError from `json.dumps` on a value it cannot encode

  datatype Result<+T> = Ok(value: T) | Err(error: Error)

  /** Python truthiness: None, False, 0, 0.0 and "" are false. Every `Other`
      value is taken to be true, a zero decimal or an empty list included. */
  predicate Truthy(v: Value)
  {
    match v
    case Null => false
    case Bool(b) => b
    case Int(i) => i != 0
    case Text(s) => s != ""
    case Float(r) => r != "0.0" && r != "-0.0"
    case Other(_) => true
  }

  /** `json.dumps` encodes the value: None, booleans, integers, strings and
      floats are JSON; dates, times and decimals raise a TypeError. Nested
      lists and dicts, kept as `Other`, are taken to raise one too. */
  predicate Serializable(v: Value)
  {
    !v.Other?
  }

  /** `str(v)`, as an f-string interpolates it. */
  function Render(v: Value): string
  {
    match v
    case Null => "None"
    case Bool(b) => if b then "True" else "False"
    case Int(i) => Decimal(i)
    case Text(s) => s
    case Float(r) => r
    case Other(r) => r
  }

  predicate IsDigit(c: char)
  {
    '0' <= c <= '9'
  }

  predicate AllDigits(s: string)
  {
    forall i :: 0 <= i < |s| ==> IsDigit(s[i])
  }

  function DigitChar(d: nat): (c: char)
    requires d < 10
    ensures IsDigit(c)
  {
    ('0' as int + d) as char
  }

  function DigitValue(c: char): (d: nat)
    requires IsDigit(c)
    ensures d < 10 && DigitChar(d) == c
  {
    c as int - '0' as int
  }

  /** The decimal digits of `n`, most significant first, without leading zeros. */
  function Digits(n: nat): (s: string)
    ensures |s| >= 1 && AllDigits(s)
    ensures s[0] == '0' <==> n == 0
    ensures n < 10 <==> |s| == 1
    decreases n
  {
    if n < 10 then [DigitChar(n)] else Digits(n / 10) + [DigitChar(n % 10)]
  }

  /** `f"{n}"` for a Python int: an optional minus sign, then the digits. */
  function Decimal(n: int): (s: string)
    ensures |s| >= 1
    ensures s[0] == '-' <==> n < 0
    ensures n >= 0 ==> AllDigits(s)
  {
    if n < 0 then "-" + Digits(-n) else Digits(n)
  }

  /** Reads back a string of decimal digits. */
  function ParseDigits(s: string): nat
    requires |s| >= 1 && AllDigits(s)
    decreases |s|
  {
    if |s| == 1 then DigitValue(s[0])
    else 10 * ParseDigits(s[..|s| - 1]) + DigitValue(s[|s| - 1])
  }

  /** Reads back an optionally signed decimal integer; the reference for `Decimal`. */
  function ParseDecimal(s: string): Option<int>
  {
    if |s| >= 2 && s[0] == '-' && AllDigits(s[1..]) then Some(-(ParseDigits(s[1..]) as int))
    else if |s| >= 1 && AllDigits(s) then Some(ParseDigits(s))
    else None
  }

  lemma {:induction false} DigitsRoundTrip(n: nat)
    ensures ParseDigits(Digits(n)) == n
    decreases n
  {
    if n >= 10 {
      var s := Digits(n);
      assert s[..|s| - 1] == Digits(n / 10);
      DigitsRoundTrip(n / 10);
    }
  }

  lemma NegativeRoundTrip(m: nat)
    requires m > 0
    ensures ParseDecimal("-" + Digits(m)) == Some(-(m as int))
  {
    var d := Digits(m);
    DigitsRoundTrip(m);
    assert ("-" + d)[1..] == d;
  }

  lemma ParseUnsigned(d: string)
    requires |d| >= 1 && AllDigits(d)
    ensures ParseDecimal(d) == Some(ParseDigits(d))
  {
    assert IsDigit(d[0]);
  }

  /** Reading the text of `limit` back gives `limit`: the rendering loses nothing. */
  lemma DecimalRoundTrip(n: int)
    ensures ParseDecimal(Decimal(n)) == Some(n)
  {
    if n < 0 {
      NegativeRoundTrip(-n);
    } else {
      DigitsRoundTrip(n);
      ParseUnsigned(Digits(n));
    }
  }

  /** Different integers are rendered as different text. */
  lemma DecimalInjective(m: int, n: int)
    requires Decimal(m) == Decimal(n)
    ensures m == n
  {
    DecimalRoundTrip(m);
    DecimalRoundTrip(n);
  }
}
