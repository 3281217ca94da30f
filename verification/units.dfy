/** Time units: the simplified timeline uses seconds, the native document
    integer microseconds. Every crossing into the native document is
    a multiplication by 1 000 000 followed by truncation toward zero; the way back
    is a plain division by 1 000 000. */
module Units {

  const MicrosPerSecond: real := 1000000.0

  /** Python's `int()` on a number: truncation toward zero. */
  function Trunc(x: real): (r: int)
    ensures 0.0 <= x ==> 0 <= r && r as real <= x < r as real + 1.0
    ensures x < 0.0 ==> r <= 0 && r as real - 1.0 < x <= r as real
  {
    if x >= 0.0 then x.Floor else -((-x).Floor)
  }

  /** Seconds to microseconds, truncated toward zero. */
  function Micros(seconds: real): int {
    Trunc(seconds * MicrosPerSecond)
  }

  /** Microseconds back to seconds (`us / 1_000_000`). */
  function Seconds(us: int): real {
    us as real / MicrosPerSecond
  }

  /** `x` seconds is a whole number of microseconds. */
  predicate WholeMicros(x: real) {
    (x * MicrosPerSecond).Floor as real == x * MicrosPerSecond
  }

  /** A whole number of microseconds survives the conversion exactly. */
  lemma MicrosExact(x: real)
    requires WholeMicros(x)
    ensures Micros(x) as real == x * MicrosPerSecond
    ensures Seconds(Micros(x)) == x
  {
    var y := x * MicrosPerSecond;
    if y < 0.0 {
      assert (-y).Floor == -(y.Floor);
    }
  }

  /** Any value survives the conversion to within one microsecond. */
  lemma MicrosError(x: real)
    ensures -1.0 / MicrosPerSecond < Seconds(Micros(x)) - x < 1.0 / MicrosPerSecond
  {
    var y := x * MicrosPerSecond;
    var r := Micros(x);
    assert -1.0 < r as real - y < 1.0;
    assert Seconds(r) - x == (r as real - y) / MicrosPerSecond;
  }

  /** The difference of two whole-microsecond values is whole too, and
      truncating it loses nothing. */
  lemma MicrosOfDifference(a: real, b: real)
    requires WholeMicros(a) && WholeMicros(b)
    ensures WholeMicros(b - a)
    ensures Micros(a) + Micros(b - a) == Micros(b)
  {
    MicrosExact(a);
    MicrosExact(b);
    var d := (b - a) * MicrosPerSecond;
    assert d == (Micros(b) - Micros(a)) as real;
    assert d.Floor == Micros(b) - Micros(a);
    MicrosExact(b - a);
  }
}
