/**
 * The decoded form of a signaling message and the few Python behaviours the
 * relay relies on when it inspects one: truth value, hashability and `str()`.
 */
module Json {

  import opened Wrappers

  /** A value produced by `json.loads` (numbers are integers in this model). */
  datatype Value =
    | JNull
    | JBool(b: bool)
    | JInt(n: int)
    | JStr(s: string)
    | JArr(items: seq<Value>)
    | JObj(fields: map<string, Value>)

  /** Python truth value: None, False, 0, "", [] and {} are false, everything else is true. */
  predicate Truthy(j: Value) {
    match j
    case JNull => false
    case JBool(b) => b
    case JInt(n) => n != 0
    case JStr(s) => s != ""
    case JArr(items) => items != []
    case JObj(fields) => fields != map[]
  }

  /** Lists and dicts cannot be used as dictionary keys; every other decoded value can. */
  predicate Hashable(j: Value) {
    !j.JArr? && !j.JObj?
  }

  predicate IsDigit(c: char) {
    '0' <= c <= '9'
  }

  function DigitChar(d: nat): (c: char)
    requires d < 10
    ensures IsDigit(c) && DigitValue(c) == d
  {
    ('0' as int + d) as char
  }

  function DigitValue(c: char): nat
    requires IsDigit(c)
  {
    c as int - '0' as int
  }

  /** Decimal digits of a natural number, most significant first, without leading zeros. */
  function Digits(n: nat): (r: string)
    ensures |r| > 0
    ensures forall i :: 0 <= i < |r| ==> IsDigit(r[i])
    ensures r[0] == '0' ==> n == 0 && r == "0"
    decreases n
  {
    if n < 10 then [DigitChar(n)] else Digits(n / 10) + [DigitChar(n % 10)]
  }

  /** Canonical decimal text: no leading zeros, and no minus sign in front of zero. */
  predicate Canonical(r: string) {
    r == "0" || (|r| > 0 && r[0] != '0' && (r[0] == '-' ==> |r| > 1 && r[1] != '0'))
  }

  /** Python's `str()` of an int: an optional minus sign followed by the digits. */
  function DecimalString(n: int): (r: string)
    ensures |r| > 0
    ensures (r[0] == '-') <==> n < 0
    ensures Canonical(r)
  {
    if n < 0 then "-" + Digits(-n) else Digits(n)
  }

  /** Value of a non-empty run of decimal digits. */
  function DigitsValue(s: string): nat
    requires |s| > 0 && forall i :: 0 <= i < |s| ==> IsDigit(s[i])
    decreases |s|
  {
    if |s| == 1 then DigitValue(s[0])
    else DigitsValue(s[..|s| - 1]) * 10 + DigitValue(s[|s| - 1])
  }

  /** Reads back an integer written as an optional minus sign and digits. */
  function ParseDecimal(s: string): Option<int> {
    if |s| > 0 && s[0] == '-' then
      if |s| > 1 && forall i :: 1 <= i < |s| ==> IsDigit(s[i]) then
        Some(-(DigitsValue(s[1..]) as int))
      else None
    else if |s| > 0 && forall i :: 0 <= i < |s| ==> IsDigit(s[i]) then
      Some(DigitsValue(s))
    else None
  }

  lemma {:induction false} DigitsRoundTrip(n: nat)
    ensures DigitsValue(Digits(n)) == n
    decreases n
  {
    if n >= 10 {
      var r := Digits(n);
      DigitsRoundTrip(n / 10);
      assert r[..|r| - 1] == Digits(n / 10);
    }
  }

  /** `str()` of an int is injective: the integer can be read back from its text. */
  lemma DecimalRoundTrip(n: int)
    ensures ParseDecimal(DecimalString(n)) == Some(n)
  {
    if n < 0 {
      DigitsRoundTrip(-n);
      assert DecimalString(n)[1..] == Digits(-n);
    } else {
      DigitsRoundTrip(n);
    }
  }

  /** Python's `str()` of a hashable decoded value, as an f-string renders it. */
  function PyStr(j: Value): (r: string)
    requires Hashable(j)
    ensures j.JStr? ==> r == j.s
    ensures j.JInt? ==> ParseDecimal(r) == Some(j.n) && Canonical(r)
    ensures j.JBool? ==> r == (if j.b then "True" else "False")
    ensures j.JNull? ==> r == "None"
  {
    match j
    case JNull => "None"
    case JBool(b) => if b then "True" else "False"
    case JInt(n) => DecimalRoundTrip(n); DecimalString(n)
    case JStr(s) => s
  }
}
