// The Wilson lower bound of a success rate and the search for the number of
// successes still missing, over the reals. The square root is a parameter.
module Wilson {
  import opened Text

  const Z: real := 1.959963984540054

  // The results below hold for every positive quantile, Z among them.
  type Quantile = z: real | z > 0.0 witness Z

  const CAP: nat := 10000000

  datatype Error = InvalidCounts | InvalidThreshold | DivisionByZero

  ghost predicate IsRoot(root: real -> real) {
    forall x: real :: x >= 0.0 ==> root(x) >= 0.0 && root(x) * root(x) == x
  }

  predicate ValidCounts(k: int, n: int) {
    0 <= k <= n
  }

  function Rate(k: int, n: int): real
    requires n > 0
  {
    k as real / n as real
  }

  lemma ProductPositive(a: real, b: real)
    requires a > 0.0 && b > 0.0
    ensures a * b > 0.0
  {
  }

  lemma RatioPositive(a: real, d: real)
    requires a >= 0.0 && d > 0.0
    ensures a / d >= 0.0
  {
  }

  // The textbook expression for a rate p over d observations.
  function BoundOf(root: real -> real, p: real, d: real, z: Quantile): real
    requires d > 0.0
  {
    ProductPositive(d, d);
    RatioPositive(z * z, d);
    (p + z * z / (2.0 * d) - z * root(p * (1.0 - p) / d + z * z / (4.0 * d * d))) / (1.0 + z * z / d)
  }

  function Bound(root: real -> real, z: Quantile, k: int, n: int): real
    requires ValidCounts(k, n)
  {
    if n == 0 then 0.0 else BoundOf(root, Rate(k, n), n as real, z)
  }

  function LowerBound(root: real -> real, z: Quantile, k: int, n: int): Result<real, Error> {
    if !ValidCounts(k, n) then Err(InvalidCounts) else Ok(Bound(root, z, k, n))
  }

  // -------------------------------------------------------- arithmetic of the bound

  lemma ProductSign(a: real, b: real)
    requires a >= 0.0 && b >= 0.0
    ensures a * b >= 0.0
  {
  }

  lemma Squares(a: real, b: real)
    requires a >= 0.0 && b >= 0.0
    ensures a * a >= b * b <==> a >= b
  {
    assert a * a - b * b == (a - b) * (a + b);
    if a >= b {
      ProductSign(a - b, a + b);
    } else {
      ProductPositive(b - a, a + b);
      assert (b - a) * (a + b) == b * b - a * a;
    }
  }

  lemma LessTimes(x: real, a: real, b: real)
    requires x > 0.0
    ensures a < b ==> x * a < x * b
  {
    if a < b {
      ProductPositive(x, b - a);
      assert x * (b - a) == x * b - x * a;
    }
  }

  lemma CancelPositive(x: real, a: real, b: real)
    requires x > 0.0 && x * a >= x * b
    ensures a >= b
  {
    LessTimes(x, a, b);
  }

  // With u for z*z/n and b for z times the root.
  ghost predicate Parts(p: real, u: real, b: real) {
    0.0 <= p <= 1.0 && u > 0.0 && b >= 0.0 && b * b == u * p * (1.0 - p) + u * u / 4.0
  }

  lemma AtLeastZero(p: real, u: real, b: real)
    requires Parts(p, u, b)
    ensures b <= p + u / 2.0
  {
    var a := p + u / 2.0;
    ProductSign(p, p);
    ProductSign(p * p, u);
    assert a * a - b * b == p * p + p * p * u;
    Squares(a, b);
  }

  lemma AtMostRate(p: real, u: real, b: real)
    requires Parts(p, u, b)
    ensures p + u / 2.0 - b <= p * (1.0 + u)
  {
    var c := u * (0.5 - p);
    if c > 0.0 {
      ProductSign(p, 1.0 - p);
      ProductSign(u, p * (1.0 - p));
      ProductSign(u, u * (p * (1.0 - p)));
      assert c * c == u * u / 4.0 - u * (u * (p * (1.0 - p)));
      assert b * b - c * c == u * (p * (1.0 - p)) + u * (u * (p * (1.0 - p)));
      Squares(b, c);
    }
    assert p + u / 2.0 - b - p * (1.0 + u) == c - b;
  }

  // The difference of squares that decides the comparison with a threshold.
  lemma Difference(p: real, u: real, b: real, t: real, c: real)
    requires Parts(p, u, b) && c == p + u / 2.0 - t * (1.0 + u)
    ensures c * c - b * b == (1.0 + u) * ((p - t) * (p - t) - u * (t * (1.0 - t)))
  {
    assert c == (p - t) + u * (0.5 - t);
    assert c * c == (p - t) * (p - t) + 2.0 * ((p - t) * (u * (0.5 - t))) + u * (0.5 - t) * (u * (0.5 - t));
    assert u * (0.5 - t) * (u * (0.5 - t)) == u * u / 4.0 - u * u * (t * (1.0 - t));
    assert 2.0 * ((p - t) * (u * (0.5 - t))) == u * ((p - t) * (1.0 - 2.0 * t));
    assert (p - t) * (1.0 - 2.0 * t) - p * (1.0 - p) == (p - t) * (p - t) - t * (1.0 - t);
    assert u * ((p - t) * (1.0 - 2.0 * t)) - u * (p * (1.0 - p)) == u * ((p - t) * (p - t) - t * (1.0 - t));
  }

  ghost predicate FarEnough(p: real, u: real, t: real) {
    (p - t) * (p - t) >= u * (t * (1.0 - t))
  }

  lemma FarIsElsewhere(p: real, u: real, t: real)
    requires FarEnough(p, u, t) && u * (t * (1.0 - t)) > 0.0
    ensures p != t
  {
  }

  lemma SquaresDecide(p: real, u: real, b: real, t: real, c: real)
    requires Parts(p, u, b) && c == p + u / 2.0 - t * (1.0 + u)
    ensures c * c >= b * b <==> FarEnough(p, u, t)
  {
    Difference(p, u, b, t, c);
    var e := (p - t) * (p - t) - u * (t * (1.0 - t));
    if e >= 0.0 {
      ProductSign(1.0 + u, e);
    } else {
      ProductPositive(1.0 + u, -e);
      assert (1.0 + u) * -e == -((1.0 + u) * e);
    }
  }

  // A rate that is far enough above the threshold.
  lemma AboveIsPositive(p: real, u: real, t: real, c: real)
    requires 0.0 <= p <= 1.0 && u > 0.0 && 0.0 <= t < 1.0 && c == p + u / 2.0 - t * (1.0 + u)
    requires p >= t && FarEnough(p, u, t)
    ensures c >= 0.0
  {
    assert c == (p - t) + u * (0.5 - t);
    if t > 0.5 {
      ProductSign(t, (1.0 - t) - (p - t));
      ProductSign(u, t * ((1.0 - t) - (p - t)));
      assert u * (t * (1.0 - t)) >= u * (t * (p - t));
      assert (p - t) * (p - t) >= (p - t) * (u * t);
      ProductPositive(t, 1.0 - t);
      ProductPositive(u, t * (1.0 - t));
      FarIsElsewhere(p, u, t);
      CancelPositive(p - t, p - t, u * t);
      assert u * (t - 0.5) <= u * t;
    } else {
      ProductSign(u, 0.5 - t);
    }
  }

  // Reaching the threshold from below is impossible.
  lemma BelowIsNegative(p: real, u: real, t: real, c: real)
    requires 0.0 <= p <= 1.0 && u > 0.0 && 0.0 <= t <= 1.0 && c == p + u / 2.0 - t * (1.0 + u)
    requires p < t && FarEnough(p, u, t)
    ensures c < 0.0
  {
    assert c == (p - t) + u * (0.5 - t);
    var x := t - p;
    ProductSign(1.0 - t, t - x);
    ProductSign(u, (1.0 - t) * (t - x));
    assert u * ((1.0 - t) * t) >= u * ((1.0 - t) * x);
    assert x * x == (p - t) * (p - t);
    assert x * x >= x * (u * (1.0 - t));
    CancelPositive(x, x, u * (1.0 - t));
    assert u * (0.5 - t) < u * (1.0 - t);
  }

  // The comparison in terms of p, u and b.
  lemma PartsDecide(p: real, u: real, b: real, t: real)
    requires Parts(p, u, b) && 0.0 <= t < 1.0
    ensures p + u / 2.0 - b >= t * (1.0 + u) <==> p >= t && FarEnough(p, u, t)
  {
    var c := p + u / 2.0 - t * (1.0 + u);
    SquaresDecide(p, u, b, t, c);
    if c >= b {
      Squares(c, b);
      if p < t {
        BelowIsNegative(p, u, t, c);
      }
    }
    if p >= t && FarEnough(p, u, t) {
      AboveIsPositive(p, u, t, c);
      Squares(c, b);
    }
  }

  lemma NeverOne(p: real, u: real, b: real)
    requires Parts(p, u, b)
    ensures p + u / 2.0 - b < 1.0 + u
  {
    AtMostRate(p, u, b);
    if p < 1.0 {
      assert p * (1.0 + u) < 1.0 + u;
    }
  }

  // ------------------------------------------------------------ the bound itself

  // The parts of the bound, without divisions.
  lemma BoundParts(root: real -> real, z: Quantile, k: int, n: int) returns (u: real, b: real)
    requires IsRoot(root) && ValidCounts(k, n) && n > 0
    ensures Parts(Rate(k, n), u, b) && u == z * z / (n as real)
    ensures u > 0.0 && Bound(root, z, k, n) == (Rate(k, n) + u / 2.0 - b) / (1.0 + u)
  {
    RateRange(k, n);
    u, b := GeneralParts(root, Rate(k, n), n as real, z);
  }

  lemma GeneralParts(root: real -> real, p: real, d: real, z: real) returns (u: real, b: real)
    requires IsRoot(root) && 0.0 <= p <= 1.0 && d > 0.0 && z > 0.0
    ensures Parts(p, u, b) && u == z * z / d
    ensures BoundOf(root, p, d, z) == (p + u / 2.0 - b) / (1.0 + u)
  {
    var z2 := SquarePositive(z);
    u, b := RootParts(root, p, d, z, z2);
    Halves(z2, d);
  }

  lemma RootParts(root: real -> real, p: real, d: real, z: real, z2: real) returns (u: real, b: real)
    requires IsRoot(root) && 0.0 <= p <= 1.0 && d > 0.0 && z > 0.0 && z2 == z * z && z2 > 0.0
    ensures Parts(p, u, b) && u == z2 / d && b == z * root(p * (1.0 - p) / d + z2 / (4.0 * d * d))
  {
    u := z2 / d;
    var x := p * (1.0 - p) / d + z2 / (4.0 * d * d);
    ProductSign(p, 1.0 - p);
    RadicandParts(p, z2, d, u, x);
    var r := root(x);
    ProductSign(z, r);
    b := z * r;
    RootTimes(z, r, x, z2);
    assert u * (p * (1.0 - p)) == u * p * (1.0 - p);
  }

  lemma SquarePositive(z: real) returns (z2: real)
    requires z > 0.0
    ensures z2 == z * z && z2 > 0.0
  {
    z2 := z * z;
    PositiveProduct(z, z, z2);
  }

  lemma PositiveProduct(a: real, b: real, c: real)
    requires a > 0.0 && b > 0.0 && c == a * b
    ensures c > 0.0
  {
    ProductPositive(a, b);
  }

  lemma RootTimes(z: real, r: real, x: real, z2: real)
    requires r * r == x && z2 == z * z
    ensures (z * r) * (z * r) == z2 * x
  {
    assert (z * r) * (z * r) == (z * z) * (r * r);
  }

  lemma RateRange(k: int, n: int)
    requires ValidCounts(k, n) && n > 0
    ensures 0.0 <= Rate(k, n) <= 1.0
    ensures Rate(k, n) * (n as real) == k as real
  {
  }

  lemma Halves(z2: real, d: real)
    requires d > 0.0
    ensures z2 / (2.0 * d) == (z2 / d) / 2.0
    ensures (z2 / d) * d == z2
  {
  }

  lemma RadicandParts(p: real, z2: real, d: real, u: real, x: real)
    requires d > 0.0 && z2 > 0.0 && u == z2 / d && x == p * (1.0 - p) / d + z2 / (4.0 * d * d)
    requires p * (1.0 - p) >= 0.0
    ensures u > 0.0 && x >= 0.0
    ensures z2 * x == u * (p * (1.0 - p)) + u * u / 4.0
  {
    var v, q := 1.0 / d, p * (1.0 - p);
    Reciprocal(d, q);
    Reciprocal(d, z2);
    Quarter(z2, d, v);
    ProductPositive(z2, v);
    ProductSign(q, v);
    ProductSign(u, v);
    assert x == q * v + u * v / 4.0;
    assert z2 * (q * v) == (z2 * v) * q;
    assert z2 * (u * v) == (z2 * v) * u;
  }

  lemma Reciprocal(d: real, a: real)
    requires d > 0.0
    ensures 1.0 / d > 0.0 && d * (1.0 / d) == 1.0 && a / d == a * (1.0 / d)
  {
  }

  lemma Quarter(z2: real, d: real, v: real)
    requires d > 0.0 && v == 1.0 / d
    ensures z2 / (4.0 * d * d) == (z2 * v) * v / 4.0
  {
    var w, c := z2 / (4.0 * d * d), 4.0 * d * d;
    ProductPositive(d, d);
    assert w * c == z2;
    Reciprocal(d, z2);
    assert (z2 * v) * v / 4.0 * c == z2 * ((v * d) * (v * d));
    SameQuotient(w, (z2 * v) * v / 4.0, c);
  }

  lemma SameQuotient(a: real, b: real, c: real)
    requires c > 0.0 && a * c == b * c
    ensures a == b
  {
    LessTimes(c, a, b);
    LessTimes(c, b, a);
  }

  lemma Quotients(a: real, c: real, t: real)
    requires c > 0.0
    ensures a / c >= t <==> a >= t * c
  {
    assert (a / c) * c == a;
    Multiples(a / c, t, c);
  }

  lemma Multiples(w: real, t: real, c: real)
    requires c > 0.0
    ensures w >= t <==> w * c >= t * c
  {
    LessTimes(c, w, t);
    LessTimes(c, t, w);
    assert c * w == w * c && c * t == t * c;
  }

  // The bound lies between zero and the observed rate.
  lemma BoundRange(root: real -> real, z: Quantile, k: int, n: int)
    requires IsRoot(root) && ValidCounts(k, n) && n > 0
    ensures 0.0 <= Bound(root, z, k, n) <= Rate(k, n)
  {
    hide Bound, Rate;
    var u, b := BoundParts(root, z, k, n);
    var p := Rate(k, n);
    AtLeastZero(p, u, b);
    AtMostRate(p, u, b);
    Quotients(p + u / 2.0 - b, 1.0 + u, 0.0);
    Quotients(-(p + u / 2.0 - b), 1.0 + u, -p);
    Negated(p + u / 2.0 - b, 1.0 + u);
  }

  lemma Negated(a: real, c: real)
    requires c > 0.0
    ensures (-a) / c == -(a / c)
  {
    SameQuotient((-a) / c, -(a / c), c);
  }

  // Whether counts reach a threshold, without square root and division.
  predicate Reaches(z: Quantile, k: int, n: int, t: real)
    requires n > 0
  {
    FarAbove(Rate(k, n), n as real, z * z, t)
  }

  predicate FarAbove(p: real, d: real, z2: real, t: real) {
    t < 1.0 && p >= t && d * ((p - t) * (p - t)) >= z2 * (t * (1.0 - t))
  }

  lemma FarScaled(p: real, z2: real, d: real, t: real)
    requires d > 0.0
    ensures FarEnough(p, z2 / d, t) <==> d * ((p - t) * (p - t)) >= z2 * (t * (1.0 - t))
  {
    var u, e, g := z2 / d, (p - t) * (p - t), t * (1.0 - t);
    assert u * d == z2;
    assert d * (u * g) == z2 * g;
    LessTimes(d, e, u * g);
    LessTimes(d, u * g, e);
  }

  // The bound reaches a threshold exactly when the threshold is below one, the
  // rate reaches it, and the rate is far enough above it for the sample. A
  // threshold of one is reached by no sample at all.
  lemma ThresholdDecides(root: real -> real, z: Quantile, k: int, n: int, t: real)
    requires IsRoot(root) && ValidCounts(k, n) && n > 0 && 0.0 <= t <= 1.0
    ensures Bound(root, z, k, n) >= t <==> Reaches(z, k, n, t)
  {
    hide Bound, Rate, Parts, IsRoot, FarAbove;
    var u, b := BoundParts(root, z, k, n);
    DecideScaled(Rate(k, n), z * z, n as real, u, b, t, Bound(root, z, k, n));
  }

  lemma DecideScaled(p: real, z2: real, d: real, u: real, b: real, t: real, w: real)
    requires d > 0.0 && u == z2 / d && 0.0 <= t <= 1.0 && Parts(p, u, b) && 1.0 + u > 0.0
    requires w == (p + u / 2.0 - b) / (1.0 + u)
    ensures w >= t <==> FarAbove(p, d, z2, t)
  {
    hide Parts, FarEnough;
    Quotients(p + u / 2.0 - b, 1.0 + u, t);
    FarScaled(p, z2, d, t);
    if t < 1.0 {
      PartsDecide(p, u, b, t);
    } else {
      NeverOne(p, u, b);
    }
  }

  // All successes, and still below a threshold of one, although the rate is one
  // and nothing is missing from it.
  lemma PerfectIsBelowOne(root: real -> real, z: Quantile, n: int)
    requires IsRoot(root) && n > 0
    ensures Bound(root, z, n, n) < 1.0 && Rate(n, n) == 1.0
    ensures (n as real) * ((Rate(n, n) - 1.0) * (Rate(n, n) - 1.0)) >= z * z * (1.0 * (1.0 - 1.0))
  {
    ThresholdDecides(root, z, n, n, 1.0);
  }

  // --------------------------------------------------------------- more successes

  lemma RateGrows(k: int, n: int)
    requires ValidCounts(k, n) && n > 0
    ensures Rate(k + 1, n + 1) >= Rate(k, n)
  {
    var p, q, d := Rate(k, n), Rate(k + 1, n + 1), n as real;
    RateRange(k, n);
    RateRange(k + 1, n + 1);
    assert (d + 1.0) * q - (d + 1.0) * p == 1.0 - p;
    LessTimes(d + 1.0, q, p);
  }

  lemma MoreIsFarther(x: real, y: real, d: real)
    requires 0.0 <= x <= y && d > 0.0
    ensures (d + 1.0) * (y * y) >= d * (x * x)
  {
    Squares(y, x);
    ProductSign(d, y * y - x * x);
    ProductSign(y, y);
    assert (d + 1.0) * (y * y) == d * (x * x) + d * (y * y - x * x) + y * y;
  }

  // One more success never takes the bound back below a threshold it reached.
  lemma OneMoreSuccess(root: real -> real, z: Quantile, k: int, n: int, t: real)
    requires IsRoot(root) && ValidCounts(k, n) && n > 0 && 0.0 <= t <= 1.0
    requires Bound(root, z, k, n) >= t
    ensures Bound(root, z, k + 1, n + 1) >= t
  {
    hide Bound, Rate;
    ThresholdDecides(root, z, k, n, t);
    ThresholdDecides(root, z, k + 1, n + 1, t);
    RateGrows(k, n);
    MoreIsFarther(Rate(k, n) - t, Rate(k + 1, n + 1) - t, n as real);
    assert (n + 1) as real == n as real + 1.0;
  }

  lemma {:induction false} MoreSuccesses(root: real -> real, z: Quantile, k: int, n: int, m: nat, t: real)
    requires IsRoot(root) && ValidCounts(k, n) && n > 0 && 0.0 <= t <= 1.0
    requires Bound(root, z, k, n) >= t
    ensures Bound(root, z, k + m, n + m) >= t
  {
    hide Bound;
    if m > 0 {
      MoreSuccesses(root, z, k, n, m - 1, t);
      OneMoreSuccess(root, z, k + m - 1, n + m - 1, t);
    }
  }

  // ------------------------------------------------------------------ the search

  // With m more successes the sample is not empty and reaches the threshold.
  predicate Passes(root: real -> real, z: Quantile, k: int, n: int, m: nat, t: real)
    requires ValidCounts(k, n)
  {
    n + m >= 1 && Bound(root, z, k + m, n + m) >= t
  }

  method RequiredDenominator(root: real -> real, z: Quantile, k: int, n: int, t: real) returns (r: Result<nat, Error>)
    ensures r.Err? <==> !ValidCounts(k, n) || !(0.0 <= t <= 1.0)
    ensures r.Ok? && Passes(root, z, k, n, 0, t) ==> r.value == 0
    ensures r.Ok? && r.value < CAP ==>
      Passes(root, z, k, n, r.value, t) && forall m: nat | m < r.value :: !Passes(root, z, k, n, m, t)
    ensures r.Ok? ==> r.value <= CAP
    ensures r.Ok? && r.value == CAP ==> forall m: nat | n + m < CAP :: !Passes(root, z, k, n, m, t)
  {
    hide Bound;
    if !ValidCounts(k, n) || !(0.0 <= t <= 1.0) {
      return Err(InvalidCounts);
    }
    if Bound(root, z, k, n) >= t && n != 0 {
      assert Passes(root, z, k, n, 0, t);
      return Ok(0);
    }
    assert !Passes(root, z, k, n, 0, t);
    var total := if n < 1 then 1 else n;
    while total < CAP + 1
      invariant n <= total && 1 <= total
      invariant total <= CAP + 1 || total == n
      invariant forall m: nat | n + m < total :: !Passes(root, z, k, n, m, t)
      decreases CAP + 1 - total
    {
      if Bound(root, z, k + total - n, total) >= t {
        assert k + total - n == k + (total - n) && total == n + (total - n);
        return Ok(total - n);
      }
      total := total + 1;
    }
    return Ok(CAP);
  }

  // Below the cap the answer is the least number of successes that passes, and
  // any larger number passes as well.
  lemma ShortfallIsLeast(root: real -> real, z: Quantile, k: int, n: int, m: nat, more: nat, t: real)
    requires IsRoot(root) && ValidCounts(k, n) && 0.0 <= t <= 1.0 && Passes(root, z, k, n, m, t) && more >= m
    ensures Passes(root, z, k, n, more, t)
  {
    MoreSuccesses(root, z, k + m, n + m, more - m, t);
  }

  // No number of successes makes up for a threshold of one.
  lemma OneIsNeverReached(root: real -> real, z: Quantile, k: int, n: int, m: nat)
    requires IsRoot(root) && ValidCounts(k, n)
    ensures !Passes(root, z, k, n, m, 1.0)
  {
    hide Bound;
    if n + m >= 1 {
      ThresholdDecides(root, z, k + m, n + m, 1.0);
    }
  }

  // With m more successes the sample is large enough and reaches the threshold.
  predicate Meets(root: real -> real, z: Quantile, k: int, n: int, minimum: int, m: nat, t: real)
    requires ValidCounts(k, n)
  {
    n + m >= minimum && Passes(root, z, k, n, m, t)
  }

  // The larger of what the threshold and what the size of the sample want.
  lemma LargerIsLeast(root: real -> real, z: Quantile, k: int, n: int, minimum: int, required: nat, m: nat, t: real)
    requires IsRoot(root) && ValidCounts(k, n) && 0.0 <= t <= 1.0
    requires Passes(root, z, k, n, required, t) && forall i: nat | i < required :: !Passes(root, z, k, n, i, t)
    requires m == if minimum - n > required then minimum - n else required
    ensures Meets(root, z, k, n, minimum, m, t) && forall i: nat | i < m :: !Meets(root, z, k, n, minimum, i, t)
  {
    hide Passes, IsRoot;
    ShortfallIsLeast(root, z, k, n, required, m, t);
  }

  datatype Metric = Metric(bound: real, rate: real, passed: bool, shortfall: nat)

  method BernoulliMetric(root: real -> real, z: Quantile, k: int, n: int, pointThreshold: real, threshold: real, minimum: int)
    returns (r: Result<Metric, Error>)
    ensures r.Err? <==> !ValidCounts(k, n) || !(0.0 <= threshold <= 1.0) || (n == 0 && minimum <= 0)
    ensures r.Ok? ==> r.value.bound == Bound(root, z, k, n)
    ensures r.Ok? ==>
      (r.value.passed <==> n >= minimum && n > 0 && Rate(k, n) >= pointThreshold && Bound(root, z, k, n) >= threshold)
    ensures r.Ok? ==> (r.value.shortfall == 0 <==> n >= minimum && n > 0 && Bound(root, z, k, n) >= threshold)
    ensures r.Ok? && r.value.passed ==> r.value.shortfall == 0
    ensures IsRoot(root) && r.Ok? && r.value.shortfall < CAP ==>
      Meets(root, z, k, n, minimum, r.value.shortfall, threshold)
      && forall m: nat | m < r.value.shortfall :: !Meets(root, z, k, n, minimum, m, threshold)
    ensures r.Ok? && r.value.shortfall >= CAP ==>
      forall m: nat | n + m < CAP :: !Meets(root, z, k, n, minimum, m, threshold)
  {
    hide Bound, Rate, IsRoot;
    var lower := LowerBound(root, z, k, n);
    if lower.Err? {
      return Err(InvalidCounts);
    }
    var bound := lower.value;
    var required := RequiredDenominator(root, z, k, n, threshold);
    if required.Err? {
      return Err(InvalidThreshold);
    }
    var shortfall := required.value;
    assert n > 0 && bound >= threshold ==> Passes(root, z, k, n, 0, threshold);
    if n < minimum && minimum - n > shortfall {
      shortfall := minimum - n;
    }
    if IsRoot(root) && required.value < CAP {
      LargerIsLeast(root, z, k, n, minimum, required.value, shortfall, threshold);
    }
    if n >= minimum && n == 0 {
      return Err(DivisionByZero);
    }
    var passed := n >= minimum && Rate(k, n) >= pointThreshold && bound >= threshold;
    return Ok(Metric(bound, if n > 0 then Rate(k, n) else 0.0, passed, shortfall));
  }
}
