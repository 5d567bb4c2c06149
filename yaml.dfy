/**
 * The scalar values a YAML loader produces for the configuration keys whose value the script
 * truth-tests or formats, with Python's truth test and `str()` on them.
 */
module Yaml {

  /** `null`, a boolean, an integer or a string, as the YAML loader returns them. */
  datatype Scalar = Null | Bool(b: bool) | Int(i: int) | Str(s: string)

  /** Python's truth value: `None`, `False`, `0` and `""` are false, every other scalar is true. */
  predicate Truthy(v: Scalar) {
    match v
    case Null => false
    case Bool(b) => b
    case Int(i) => i != 0
    case Str(s) => s != ""
  }

  /** Python's `str(v)`, which an f-string applies to an interpolated value. */
  function Render(v: Scalar): string {
    match v
    case Null => "None"
    case Bool(b) => if b then "True" else "False"
    case Int(i) => Decimal(i)
    case Str(s) => s
  }

  /** The decimal digits of `n`, most significant first, without leading zeros. */
  function Digits(n: nat): (r: string)
    ensures |r| >= 1
    ensures forall k :: 0 <= k < |r| ==> '0' <= r[k] <= '9'
    ensures |r| > 1 ==> r[0] != '0'
    decreases n
  {
    var last := [('0' as int + n % 10) as char];
    if n < 10 then last else Digits(n / 10) + last
  }

  /** `str(i)` for an integer: an optional minus sign, then the digits of its magnitude. */
  function Decimal(i: int): (r: string)
    ensures |r| >= 1 && (r[0] == '-' <==> i < 0)
    // After the optional sign: the digits of the magnitude, with no leading zero.
    ensures var m := if i < 0 then 1 else 0;
      |r| > m && (forall k :: m <= k < |r| ==> '0' <= r[k] <= '9') &&
      (|r| > m + 1 ==> r[m] != '0') &&
      DigitsValue(r[m..]) == if i < 0 then -i else i
  {
    var magnitude: nat := if i < 0 then -i else i;
    DigitsRoundTrip(magnitude);
    var digits := Digits(magnitude);
    if i < 0 then
      assert ("-" + digits)[1..] == digits;
      "-" + digits
    else digits
  }

  /** The number a string of decimal digits denotes. */
  function DigitsValue(s: string): nat
    requires forall k :: 0 <= k < |s| ==> '0' <= s[k] <= '9'
    decreases |s|
  {
    if s == [] then 0 else 10 * DigitsValue(s[..|s| - 1]) + (s[|s| - 1] as int - '0' as int)
  }

  /** Reading the digits back gives the number: the text is the decimal form of `n`. */
  lemma {:induction false} DigitsRoundTrip(n: nat)
    ensures DigitsValue(Digits(n)) == n
    decreases n
  {
    if n >= 10 {
      var d := Digits(n);
      DigitsRoundTrip(n / 10);
      assert d[..|d| - 1] == Digits(n / 10);
    }
  }
}
