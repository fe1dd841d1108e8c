/** Small value types and the C#/.NET integer and real conversions the rest of the model uses. */
module Common {

  datatype Option<T> = None | Some(value: T)

  newtype byte = x: int | 0 <= x < 256

  /** C#'s unchecked `(byte)` cast of an int: the low 8 bits. */
  function ToByte(x: int): (b: byte)
    ensures 0 <= x < 256 ==> b as int == x
    ensures (b as int - x) % 256 == 0
  {
    (x % 256) as byte
  }

  const Int32Min: int := -0x8000_0000
  const Int32Max: int := 0x7FFF_FFFF

  predicate IsInt32(x: int)
  {
    Int32Min <= x <= Int32Max
  }

  /** C#'s unchecked `x++` on an int: one more modulo 2^32, so int.MaxValue wraps to int.MinValue. */
  function WrappingIncrement(x: int): (r: int)
    requires IsInt32(x)
    ensures IsInt32(r) && (r - (x + 1)) % 0x1_0000_0000 == 0
    ensures x < Int32Max ==> r == x + 1
  {
    if x == Int32Max then Int32Min else x + 1
  }

  /** C#'s integer `/`: the quotient is truncated toward zero. */
  function TruncDiv(a: int, b: int): (q: int)
    requires b > 0
    ensures a >= 0 ==> q == a / b
    ensures a < 0 ==> q == -((-a) / b)
  {
    if a >= 0 then a / b else -((-a) / b)
  }

  /** C#'s integer `%`: the remainder takes the sign of the dividend. */
  function TruncRem(a: int, b: int): (r: int)
    requires b > 0
    ensures TruncDiv(a, b) * b + r == a
    ensures a >= 0 ==> 0 <= r < b
    ensures a < 0 ==> -b < r <= 0
  {
    a - TruncDiv(a, b) * b
  }

  lemma MulAtLeast(d: int, b: int)
    requires d >= 1 && b > 0
    ensures d * b >= b
  {
    var e := d - 1;
    assert e * b >= 0;
    assert d * b == e * b + b;
  }

  /** Quotient and remainder are determined by a == q * b + r with 0 <= r < b. */
  lemma DivModUnique(a: int, b: int, q: int, r: int)
    requires b > 0 && 0 <= r < b && a == q * b + r
    ensures a / b == q && a % b == r
  {
    var q', r' := a / b, a % b;
    assert a == q' * b + r';
    var d := q - q';
    assert d * b == r' - r;
    if d >= 1 {
      MulAtLeast(d, b);
    } else if d <= -1 {
      assert (-d) * b == r - r';
      MulAtLeast(-d, b);
    }
    assert d == 0;
  }

  /** A truncated remainder is zero exactly when the floor remainder is. */
  lemma TruncRemZero(a: int, b: int)
    requires b > 0
    ensures (TruncRem(a, b) == 0) <==> (a % b == 0)
  {
    if a < 0 {
      var m := -a;
      var q, r := m / b, m % b;
      assert m == q * b + r;
      assert TruncRem(a, b) == -r;
      if r == 0 {
        DivModUnique(a, b, -q, 0);
      } else {
        DivModUnique(a, b, -q - 1, b - r);
      }
    }
  }

  /** Math.Clamp on int. */
  function ClampInt(x: int, lo: int, hi: int): (r: int)
    requires lo <= hi
    ensures lo <= r <= hi
    ensures lo <= x <= hi ==> r == x
    ensures x < lo ==> r == lo
    ensures x > hi ==> r == hi
  {
    if x < lo then lo else if x > hi then hi else x
  }

  /** Math.Clamp on double, with doubles read as reals. */
  function ClampReal(x: real, lo: real, hi: real): (r: real)
    requires lo <= hi
    ensures lo <= r <= hi
    ensures lo <= x <= hi ==> r == x
    ensures x < lo ==> r == lo
    ensures x > hi ==> r == hi
  {
    if x < lo then lo else if x > hi then hi else x
  }

  /** The C# cast `(int)x` of a double: truncation toward zero (overflow is not modelled). */
  function TruncToInt(x: real): (n: int)
    ensures x >= 0.0 ==> n as real <= x < n as real + 1.0
    ensures x < 0.0 ==> n as real - 1.0 < x <= n as real
  {
    if x >= 0.0 then x.Floor else -((-x).Floor)
  }

  function Abs(x: real): (r: real)
    ensures r >= 0.0 && (r == x || r == -x)
  {
    if x < 0.0 then -x else x
  }

  function MinInt(a: int, b: int): (r: int)
    ensures r <= a && r <= b && (r == a || r == b)
  {
    if a < b then a else b
  }

  function MaxInt(a: int, b: int): (r: int)
    ensures r >= a && r >= b && (r == a || r == b)
  {
    if a < b then b else a
  }
}
