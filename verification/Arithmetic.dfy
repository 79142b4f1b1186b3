/** Integer time arithmetic: the GStreamer helpers the plugin computes with.

    Clock times are nanoseconds held in unbounded naturals. The one place where the
    64-bit width shows is unsigned subtraction, which wraps (Sub64). */
module Arithmetic {

  const SECOND: nat := 1_000_000_000
  const MSECOND: nat := 1_000_000
  const TWO32: nat := 0x1_0000_0000
  const TWO64: nat := 0x1_0000_0000_0000_0000

  datatype Option<+T> = None | Some(value: T)

  /** gst_util_uint64_scale: floor of v * n / d, with no overflow on the way. */
  function Scale(v: nat, n: nat, d: nat): nat
    requires d > 0
  {
    v * n / d
  }

  /** Subtraction of guint64 values: wraps modulo 2^64. */
  function Sub64(a: nat, b: nat): nat {
    if b <= a then a - b else (a - b) % TWO64
  }

  /** The difference that fits into 64 bits. */
  lemma Sub64Exact(a: nat, b: nat)
    requires a < TWO64 && b < TWO64
    ensures Sub64(a, b) < TWO64 && (Sub64(a, b) + b == a || Sub64(a, b) + b == a + TWO64)
  {}

  function Min(a: int, b: int): int { if a <= b then a else b }

  function Max(a: int, b: int): int { if a <= b then b else a }

  function Distance(a: nat, b: nat): nat { if a > b then a - b else b - a }

  lemma MulMonotone(a: int, b: int, c: int)
    requires a <= b && 0 <= c
    ensures a * c <= b * c
  {}

  lemma MulCancel(a: int, b: int, c: int)
    requires a * c < b * c && 0 <= c
    ensures a < b
  {
    if b <= a {
      MulMonotone(b, a, c);
    }
  }

  /** The defining property of floor division, as a squeeze. */
  lemma FloorBounds(p: nat, d: nat)
    requires d > 0
    ensures p / d * d <= p < (p / d + 1) * d
  {
    assert p == p / d * d + p % d;
  }

  lemma ScaleBounds(v: nat, n: nat, d: nat)
    requires d > 0
    ensures Scale(v, n, d) * d <= v * n < (Scale(v, n, d) + 1) * d
  {
    FloorBounds(v * n, d);
  }

  /** Scale is the largest q with q * d <= v * n. */
  lemma ScaleAtLeast(v: nat, n: nat, d: nat, q: nat)
    requires d > 0
    ensures q <= Scale(v, n, d) <==> q * d <= v * n
  {
    ScaleBounds(v, n, d);
    var s := Scale(v, n, d);
    if q <= s {
      MulMonotone(q, s, d);
    } else {
      MulMonotone(s + 1, q, d);
    }
  }

  /** Scaling a sum loses at most one unit against the sum of the scaled parts. */
  lemma ScaleSum(a: nat, b: nat, n: nat, d: nat)
    requires d > 0
    ensures Scale(a, n, d) + Scale(b, n, d) <= Scale(a + b, n, d) <= Scale(a, n, d) + Scale(b, n, d) + 1
  {
    ScaleBounds(a, n, d);
    ScaleBounds(b, n, d);
    var p, q := Scale(a, n, d), Scale(b, n, d);
    assert (a + b) * n == a * n + b * n;
    assert (p + q) * d == p * d + q * d;
    assert (p + q + 2) * d == (p + 1) * d + (q + 1) * d;
    ScaleAtLeast(a + b, n, d, p + q);
    ScaleAtLeast(a + b, n, d, p + q + 2);
  }

  lemma ScaleMonotone(a: nat, b: nat, n: nat, d: nat)
    requires d > 0 && a <= b
    ensures Scale(a, n, d) <= Scale(b, n, d)
  {
    ScaleSum(a, b - a, n, d);
  }

  lemma ScaleStrict(a: nat, b: nat, n: nat, d: nat)
    requires 0 < d <= n && a < b
    ensures Scale(a, n, d) < Scale(b, n, d)
  {
    ScaleSum(a, b - a, n, d);
    MulMonotone(1, b - a, n);
    ScaleAtLeast(b - a, n, d, 1);
  }

  /** Scaling the same quantity by two close fractions: if the fractions differ by at most
      1/k then the results differ by at most v/k, rounded up. */
  lemma ScaleCloseFractions(v: nat, n1: nat, d1: nat, n2: nat, d2: nat, k: nat)
    requires d1 > 0 && d2 > 0 && k > 0
    requires k * Distance(n1 * d2, n2 * d1) <= d1 * d2
    ensures Distance(Scale(v, n1, d1), Scale(v, n2, d2)) <= v / k + 1
  {
    var x, y := n1 * d2, n2 * d1;
    assert k * (x - y) <= d1 * d2 by { MulMonotone(x - y, Distance(x, y), k); }
    assert k * (y - x) <= d2 * d1 by { MulMonotone(y - x, Distance(x, y), k); }
    ScaleOneSided(v, n1, d1, n2, d2, k);
    ScaleOneSided(v, n2, d2, n1, d1, k);
  }

  lemma ScaleOneSided(v: nat, n1: nat, d1: nat, n2: nat, d2: nat, k: nat)
    requires d1 > 0 && d2 > 0 && k > 0
    requires k * (n1 * d2 - n2 * d1) <= d1 * d2
    ensures Scale(v, n1, d1) <= Scale(v, n2, d2) + v / k + 1
  {
    var p, q, r := Scale(v, n1, d1), Scale(v, n2, d2), v / k;
    ScaleBounds(v, n1, d1);
    ScaleBounds(v, n2, d2);
    FloorBounds(v, k);
    // Bring all three divisions to the common denominator d1 * d2.
    CrossMultiply(p, d1, v * n1, d2);
    CrossMultiply(-(q + 1), d2, -(v * n2), d1);
    var D, x, y := d1 * d2, n1 * d2, n2 * d1;
    assert p * D <= v * x by { Reassociate(v, n1, d2); }
    assert v * y <= (q + 1) * D by { Reassociate(v, n2, d1); Commute(d1, d2); }
    FractionGap(p, q + 1, r, v, x, y, D, k);
  }

  lemma Commute(a: int, b: int)
    ensures a * b == b * a
  {}

  lemma Reassociate(a: int, b: int, c: int)
    ensures (a * b) * c == a * (b * c)
  {}

  lemma CrossMultiply(p: int, d: nat, w: int, e: nat)
    requires p * d <= w
    ensures p * (d * e) <= w * e
  {
    MulMonotone(p * d, w, e);
    Reassociate(p, d, e);
  }

  /** From p*D <= v*x, v*y <= q*D and k*(x-y) <= D: p - q is at most v/k. */
  lemma FractionGap(p: int, q: int, r: nat, v: nat, x: int, y: int, D: nat, k: nat)
    requires D > 0 && k > 0
    requires p * D <= v * x && v * y <= q * D
    requires k * (x - y) <= D && v < (r + 1) * k
    ensures p <= q + r
  {
    var g := x - y;
    assert v * g == v * x - v * y;
    assert (p - q) * D == p * D - q * D;
    // (p - q) * D * k <= v * g * k <= v * D < (r + 1) * k * D
    MulMonotone((p - q) * D, v * g, k);
    MulMonotone(k * g, D, v);
    assert v * g * k == k * g * v by { Reassociate(v, g, k); Commute(g, k); Commute(v, k * g); }
    Commute(D, v);
    assert (p - q) * D * k <= v * D;
    assert v * D < (r + 1) * k * D by {
      assert (r + 1) * k - v >= 1;
      MulMonotone(1, (r + 1) * k - v, D);
      assert ((r + 1) * k - v) * D == (r + 1) * k * D - v * D;
    }
    assert (p - q) * D * k == (p - q) * (D * k) by { Reassociate(p - q, D, k); }
    assert (r + 1) * k * D == (r + 1) * (D * k) by { Reassociate(r + 1, k, D); Commute(k, D); }
    MulCancel(p - q, r + 1, D * k);
  }
}
