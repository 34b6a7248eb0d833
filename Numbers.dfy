/** Values shared by the measurement engine and the test task: an optional value,
    the Java `double` results the core can produce, and Java's `long` division. */
module Numbers {

  datatype Option<+T> = None | Some(value: T)

  /** Largest Java `long`, the initial minimum in the latency aggregation. */
  const LongMax: int := 0x7fff_ffff_ffff_ffff

  /** A Java `double` as this core can produce it: a finite value, or the positive
      infinity that an upload timed at zero milliseconds divides into. (No result
      of the core can be NaN or negative infinity: every dividend is positive.) */
  datatype Double = Finite(value: real) | PositiveInfinity
  {
    /** Java's `d >= 0` */
    predicate AtLeastZero() {
      match this
      case Finite(x) => x >= 0.0
      case PositiveInfinity => true
    }

    /** Java's `d == 0` */
    predicate IsZero() {
      this == Finite(0.0)
    }
  }

  /** Java's `a / b` on `long` for a positive divisor: the quotient is truncated
      toward zero, whereas Dafny's `/` rounds toward negative infinity. */
  function JavaDiv(a: int, b: int): (q: int)
    requires b > 0
    ensures a >= 0 ==> 0 <= q && q * b <= a < q * b + b
    ensures a < 0 ==> q <= 0 && q * b - b < a <= q * b
  {
    if a >= 0 then
      DivBounds(a, b);
      a / b
    else
      DivBounds(-a, b);
      var p := (-a) / b;
      assert (-p) * b == -(p * b);
      -p
  }

  /** Dafny's quotient of a non-negative dividend by a positive divisor. */
  lemma DivBounds(a: int, b: int)
    requires a >= 0 && b > 0
    ensures 0 <= a / b && (a / b) * b <= a < (a / b) * b + b
  {
    var q, r := a / b, a % b;
    assert a == b * q + r && 0 <= r < b;
    assert q * b == b * q;
  }

  /** The truncated quotient lies between any bounds that the dividend, spread
      over the divisor, lies between. */
  lemma JavaDivBetween(a: int, n: int, lo: int, hi: int)
    requires n > 0
    requires n * lo <= a <= n * hi
    ensures lo <= JavaDiv(a, n) <= hi
  {
    var q := JavaDiv(a, n);
    if a >= 0 {
      CancelLe(n, q, hi);
      Succ(n, q);
      CancelLt(n, lo, q + 1);
    } else {
      CancelLe(n, lo, q);
      Succ(n, q - 1);
      CancelLt(n, q - 1, hi);
    }
  }

  /** Dividing both sides by a positive number keeps a non-strict order. */
  lemma CancelLe(n: int, x: int, y: int)
    requires n > 0 && x * n <= y * n
    ensures x <= y
  {
    assert (x - y) * n == x * n - y * n;
  }

  /** Dividing both sides by a positive number keeps a strict order. */
  lemma CancelLt(n: int, x: int, y: int)
    requires n > 0 && x * n < y * n
    ensures x < y
  {
    assert (x - y) * n == x * n - y * n;
  }

  lemma Succ(n: int, y: int)
    ensures (y + 1) * n == y * n + n
  {
  }
}
