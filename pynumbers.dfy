/**
  Python numbers as `app.py` uses them. An `int` and a `float` with the same
  value print differently (`500` against `500.0`), and `app.py` formats both
  into quantity texts, so the two are kept apart. Float arithmetic is modelled on
  exact reals; `round(x, 2)` and `str()` of a float are left abstract, as the
  fields of a `Numerics` value that every caller passes in.
*/
module PyNumbers {

  datatype PyNum = PyInt(i: int) | PyFloat(f: real) {
    function Value(): real {
      match this
      case PyInt(i) => i as real
      case PyFloat(f) => f
    }
  }

  /** Python's `+`: an int only when both operands are ints. */
  function Add(a: PyNum, b: PyNum): (r: PyNum)
    ensures r.Value() == a.Value() + b.Value()
    ensures r.PyInt? <==> a.PyInt? && b.PyInt?
  {
    if a.PyInt? && b.PyInt? then PyInt(a.i + b.i) else PyFloat(a.Value() + b.Value())
  }

  /** The two float operations whose exact binary behaviour is not modelled:
      `round(x, 2)` and the text `str(x)` (which `f"{x}"` uses). */
  datatype Numerics = Numerics(round2: real -> real, showFloat: real -> string)

  /** `x` has at most two decimal places. */
  predicate IsCents(x: real) {
    (x * 100.0).Floor as real == x * 100.0
  }

  /** Assumption, not proved: `round(x, 2)` leaves a value with at most two
      decimal places alone. */
  ghost predicate RoundKeepsCents(num: Numerics) {
    forall x: real :: IsCents(x) ==> num.round2(x) == x
  }

  function DigitChar(d: nat): (c: char)
    requires d < 10
    ensures '0' <= c <= '9'
  {
    "0123456789"[d]
  }

  /** `str(n)` for a non-negative int: its decimal digits, no leading zeros. */
  function NatToString(n: nat): (s: string)
    ensures |s| > 0
    ensures forall k :: 0 <= k < |s| ==> '0' <= s[k] <= '9'
    decreases n
  {
    if n < 10 then [DigitChar(n)] else NatToString(n / 10) + [DigitChar(n % 10)]
  }

  /** `str(n)` for any int. */
  function IntToString(n: int): (s: string)
    ensures |s| > 0
  {
    if n < 0 then "-" + NatToString(-n) else NatToString(n)
  }

  /** The value of a run of decimal digits, as `int()` and `float()` read it. */
  function DigitsValue(s: string): (n: nat)
    requires forall k :: 0 <= k < |s| ==> '0' <= s[k] <= '9'
    decreases |s|
  {
    if s == [] then 0 else 10 * DigitsValue(s[..|s| - 1]) + (s[|s| - 1] as int - '0' as int)
  }

  /** Reading back what `str()` printed gives the same int. */
  lemma {:induction false} DigitsValueOfNatToString(n: nat)
    ensures DigitsValue(NatToString(n)) == n
    decreases n
  {
    var s := NatToString(n);
    if n >= 10 {
      DigitsValueOfNatToString(n / 10);
      assert s[..|s| - 1] == NatToString(n / 10);
    }
  }

  /** `str(v)` for an int or a float. */
  function Show(num: Numerics, v: PyNum): string {
    match v
    case PyInt(i) => IntToString(i)
    case PyFloat(f) => num.showFloat(f)
  }

  /** `f"{v} {unit}"`. */
  function FormatQty(num: Numerics, v: PyNum, unit: string): (s: string)
    ensures v.PyInt? && v.i >= 0 ==> s == NatToString(v.i) + " " + unit
  {
    Show(num, v) + " " + unit
  }
}
