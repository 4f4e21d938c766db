/**
 * The Python built-ins that alerts/alerts.py leans on, stated on exact values:
 * the objects that can reach the core, `float(...)`, `abs`, `round(x, 2)`,
 * `str.isdigit`, `any` and `list.count`.
 */
module Builtins {

  datatype Option<+T> = None | Some(value: T)

  datatype Result<+T, +E> = Success(value: T) | Failure(error: E)

  /** The Python objects a caller can hand to the core: JSON text, numbers,
      lists and None. Floats are exact reals here. */
  datatype PyValue =
    | PyStr(text: string)
    | PyInt(n: int)
    | PyFloat(x: real)
    | PyList(items: seq<PyValue>)
    | PyNone

  /** The smallest magnitude of an int that `float(...)` refuses with
      `OverflowError`: 2^1024 - 2^970, the midpoint between the largest
      finite double and 2^1024, from which rounding reaches infinity. */
  const FloatOverflowBound: int := 0xfffffffffffffc00000000000000000000000000000000000000000000000000000000000000000000000000000000000000000000000000000000000000000000000000000000000000000000000000000000000000000000000000000000000000000000000000000000000000000000000000000000000000000000000000

  /** Python's `float(v)`: an int converts exactly unless it is too large
      for a double, a float converts exactly, text goes to Python's float
      parser (supplied by the caller, since that parser is not part of this
      model), and a list or None raises. Every raise is `None` here. */
  function ToFloat(parseFloat: string -> Option<real>, v: PyValue): (r: Option<real>)
    ensures v.PyStr? ==> r == parseFloat(v.text)
    ensures v.PyInt? ==> (r.Some? <==> -FloatOverflowBound < v.n < FloatOverflowBound)
    ensures v.PyInt? && r.Some? ==> r.value == v.n as real
    ensures v.PyFloat? ==> r == Some(v.x)
    ensures v.PyList? || v.PyNone? ==> r == None
  {
    match v
    case PyStr(s) => parseFloat(s)
    case PyInt(n) => if Abs(n as real) >= FloatOverflowBound as real then None else Some(n as real)
    case PyFloat(x) => Some(x)
    case PyList(_) => None
    case PyNone => None
  }

  /** Python's `abs` on a number. */
  function Abs(x: real): (r: real)
    ensures r >= 0.0
    ensures r == x || r == -x
  {
    if x < 0.0 then -x else x
  }

  /** `str.isdigit` on one character, restricted to the ASCII digits. */
  function IsDigit(c: char): (r: bool)
    ensures r <==> c in "0123456789"
  {
    '0' <= c <= '9'
  }

  /** Python's `any`: true when some element of the list is true. */
  function Any(bs: seq<bool>): (r: bool)
    ensures r <==> exists i :: 0 <= i < |bs| && bs[i]
  {
    if |bs| == 0 then false else bs[0] || Any(bs[1..])
  }

  /** Python's `list.count(x)`: how many elements of the list equal `x`. */
  function Count<T(==)>(xs: seq<T>, x: T): (r: nat)
    ensures r == multiset(xs)[x]
    ensures r > 0 <==> x in xs
  {
    if |xs| == 0 then 0
    else
      assert xs == [xs[0]] + xs[1..];
      (if xs[0] == x then 1 else 0) + Count(xs[1..], x)
  }

  /** Python's `round(y)`: the nearest integer, an exact tie going to the
      even one. */
  function RoundHalfEven(y: real): (n: int)
    ensures Abs(n as real - y) <= 0.5
    ensures Abs(n as real - y) == 0.5 ==> n % 2 == 0
  {
    var f := y.Floor;
    var frac := y - f as real;
    assert 0.0 <= frac < 1.0;
    if frac < 0.5 then f
    else if frac > 0.5 then f + 1
    else if f % 2 == 0 then f
    else f + 1
  }

  /** Python's `round(x, 2)`: the nearest multiple of 1/100, an exact tie
      going to the even multiple. */
  function Round2(x: real): (r: real)
    ensures (r * 100.0).Floor as real == r * 100.0
    ensures Abs(r - x) <= 0.005
    ensures Abs(r - x) == 0.005 ==> (r * 100.0).Floor % 2 == 0
  {
    var n := RoundHalfEven(x * 100.0);
    var r := n as real / 100.0;
    assert r * 100.0 == n as real;
    assert (r * 100.0).Floor == n;
    assert Abs(r - x) * 100.0 == Abs(n as real - x * 100.0);
    r
  }

  /** No multiple of 1/100 is closer to `x` than `round(x, 2)`. */
  lemma Round2Nearest(x: real, k: int)
    ensures Abs(Round2(x) - x) <= Abs(k as real / 100.0 - x)
  {
    var r := Round2(x);
    var n := (r * 100.0).Floor;
    assert r == n as real / 100.0;
    var y := x * 100.0;
    // Scale everything by 100: |n - y| <= 1/2, and a different integer k is
    // at least 1 away from n, so at least 1/2 away from y.
    assert Abs(r - x) * 100.0 == Abs(n as real - y);
    assert Abs(k as real / 100.0 - x) * 100.0 == Abs(k as real - y);
    assert Abs(n as real - y) <= 0.5;
    if k != n {
      assert Abs(k as real - n as real) >= 1.0;
      assert Abs(k as real - y) >= 0.5;
    }
  }

  /** Rounding an already rounded value changes nothing. */
  lemma Round2Idempotent(x: real)
    ensures Round2(Round2(x)) == Round2(x)
  {
    var r := Round2(x);
    var n := (r * 100.0).Floor;
    assert r * 100.0 == n as real;
    assert (r * 100.0).Floor == n;
  }
}
