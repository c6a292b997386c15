/** Python's `int(x)` as the industry-code manager applies it to sector and
    group ids: whole numbers pass, floats truncate toward zero, strings are
    read as an optional sign followed by decimal digits. */
module IntParse {
  import opened Python

  predicate IsDigit(c: char) {
    '0' <= c <= '9'
  }

  predicate AllDigits(s: string) {
    forall i :: 0 <= i < |s| ==> IsDigit(s[i])
  }

  /** The number written by a string of decimal digits. */
  function DigitsValue(s: string): nat
    requires AllDigits(s)
  {
    if s == [] then 0
    else DigitsValue(s[..|s| - 1]) * 10 + (s[|s| - 1] as int - '0' as int)
  }

  /** An optional sign followed by at least one decimal digit. */
  predicate Numeral(s: string) {
    (s != [] && AllDigits(s)) || (|s| > 1 && (s[0] == '+' || s[0] == '-') && AllDigits(s[1..]))
  }

  /** A sign-plus-digits reading of a string, as `int('…')` does; an empty
      string, a lone sign or any other character is a parse failure. */
  function ParseDecimal(s: string): (r: Option<int>)
    ensures r.Some? <==> Numeral(s)
    ensures r.Some? && s[0] == '-' ==> r.value <= 0
    ensures r.Some? && s[0] != '-' ==> r.value >= 0
  {
    if |s| > 1 && (s[0] == '+' || s[0] == '-') && AllDigits(s[1..]) then
      var n: int := DigitsValue(s[1..]);
      Some(if s[0] == '-' then -n else n)
    else if s != [] && AllDigits(s) then
      Some(DigitsValue(s))
    else
      None
  }

  /** `int(x)` for a float: truncation toward zero. */
  function Truncate(x: real): (n: int)
    ensures 0.0 <= x ==> n as real <= x < n as real + 1.0
    ensures x < 0.0 ==> n as real - 1.0 < x <= n as real
  {
    if 0.0 <= x then x.Floor else -((-x).Floor)
  }

  /** `int(x)` for each kind of value; `None` where Python raises (None, a
      malformed string, a model instance). */
  function ParseInt(v: Value): (r: Option<int>)
    ensures v.PyInt? ==> r == Some(v.i)
    ensures v.PyNone? || v.PyObj? ==> r.None?
  {
    match v
    case PyNone => None
    case PyBool(b) => Some(if b then 1 else 0)
    case PyInt(i) => Some(i)
    case PyFloat(x) => Some(Truncate(x))
    case PyStr(s) => ParseDecimal(s)
    case PyObj(_) => None
  }

  /** `str(n)` for a natural number. */
  function Decimal(n: nat): (s: string)
    ensures s != [] && AllDigits(s)
  {
    if n < 10 then ["0123456789"[n]] else Decimal(n / 10) + ["0123456789"[n % 10]]
  }

  /** Reading back the decimal rendering of a number gives the number. */
  lemma {:induction false} DecimalValue(n: nat)
    ensures DigitsValue(Decimal(n)) == n
  {
    var s := Decimal(n);
    if n < 10 {
      assert s[..0] == [];
    } else {
      DecimalValue(n / 10);
      assert s[..|s| - 1] == Decimal(n / 10);
    }
  }

  /** `int(str(n)) == n` for every integer n, and a leading '+' is accepted. */
  lemma DecimalRoundTrip(n: int)
    ensures n >= 0 ==> ParseInt(PyStr(Decimal(n))) == Some(n)
    ensures n >= 0 ==> ParseInt(PyStr("+" + Decimal(n))) == Some(n)
    ensures n < 0 ==> ParseInt(PyStr("-" + Decimal(-n))) == Some(n)
  {
    if n >= 0 {
      DecimalValue(n);
      var s := Decimal(n);
      assert ("+" + s)[1..] == s;
      assert s[0] != '+' && s[0] != '-';
    } else {
      DecimalValue(-n);
      var s := Decimal(-n);
      assert ("-" + s)[1..] == s;
    }
  }

  /** A non-numeric id such as "abc" does not parse. */
  lemma NonNumericFails()
    ensures ParseInt(PyStr("abc")) == None
    ensures ParseInt(PyStr("")) == None
    ensures ParseInt(PyStr("-")) == None
  {
    assert !IsDigit("abc"[0]);
  }
}
