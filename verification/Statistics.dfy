/** Means, variances and the one-sided Chebyshev bound over sequences of reals. */
module Statistics {

  /** The sum of `f` over `s`. */
  function Sum(f: real -> real, s: seq<real>): real {
    if s == [] then 0.0 else Sum(f, s[..|s| - 1]) + f(s[|s| - 1])
  }

  /** A product, named so that equal factors are seen to give equal products. */
  function Mul(a: real, b: real): real {
    a * b
  }

  /** A quotient, named for the same reason. */
  function Div(a: real, b: real): real
    requires b != 0.0
  {
    a / b
  }

  function Id(): real -> real {
    x => x
  }

  function Dist(c: real): real -> real {
    x => (x - c) * (x - c)
  }

  function Total(s: seq<real>): real {
    Sum(Id(), s)
  }

  /** The sum of the squared distances to `c`. */
  function Spread(s: seq<real>, c: real): real {
    Sum(Dist(c), s)
  }

  function Mean(s: seq<real>): real
    requires s != []
  {
    Div(Total(s), |s| as real)
  }

  function Variance(s: seq<real>): real
    requires s != []
  {
    Div(Spread(s, Mean(s)), |s| as real)
  }

  /** How many elements lie below `t`. */
  function CountBelow(s: seq<real>, t: real): nat {
    if s == [] then 0 else CountBelow(s[..|s| - 1], t) + (if s[|s| - 1] < t then 1 else 0)
  }

  // ---- Arithmetic ----

  lemma Quotient(a: real, n: real)
    requires n > 0.0
    ensures Mul(Div(a, n), n) == a
  {
  }

  lemma SameSigns(a: real, b: real, e: real)
    requires e == a * b && ((a > 0.0 && b > 0.0) || (a < 0.0 && b < 0.0))
    ensures e > 0.0
  {
  }

  lemma ZeroFactor(a: real, b: real, e: real)
    requires e == a * b && a == 0.0
    ensures e == 0.0
  {
  }

  lemma DistSign(c: real, x: real)
    ensures Dist(c)(x) >= 0.0
    ensures Dist(c)(x) > 0.0 <==> x != c
  {
    if x == c {
      ZeroFactor(x - c, x - c, Dist(c)(x));
    } else {
      SameSigns(x - c, x - c, Dist(c)(x));
    }
  }

  lemma Distribute(a: real, b: real, d: real, g: real, t: real, n: real, e: real, x: real)
    ensures (Mul(a, g) - Mul(b, t) + Mul(n, d)) + (Mul(a, e) - Mul(b, x) + d) ==
            Mul(a, g + e) - Mul(b, t + x) + Mul(n + 1.0, d)
  {
  }

  // ---- Sums ----

  /** A sum of combinations is the combination of the sums. */
  lemma {:induction false} SumCombines(f: real -> real, g: real -> real, a: real, b: real, d: real, s: seq<real>)
    requires forall x :: f(x) == Mul(a, g(x)) - Mul(b, x) + d
    ensures Sum(f, s) == Mul(a, Sum(g, s)) - Mul(b, Total(s)) + Mul(|s| as real, d)
  {
    if s != [] {
      var n := |s| - 1;
      SumCombines(f, g, a, b, d, s[..n]);
      Distribute(a, b, d, Sum(g, s[..n]), Total(s[..n]), n as real, g(s[n]), s[n]);
      assert Id()(s[n]) == s[n];
      assert |s| as real == n as real + 1.0;
    }
  }

  predicate Some(f: real -> real, s: seq<real>) {
    exists x :: x in s && f(x) > 0.0
  }

  lemma {:induction false} SumSign(f: real -> real, s: seq<real>)
    requires forall x :: f(x) >= 0.0
    ensures Sum(f, s) >= 0.0
    ensures Sum(f, s) > 0.0 <==> Some(f, s)
  {
    if s != [] {
      var n := |s| - 1;
      SumSign(f, s[..n]);
      assert s == s[..n] + [s[n]];
      assert s[n] in s;
      assert forall x :: x in s <==> x in s[..n] || x == s[n];
      assert Some(f, s) <==> Some(f, s[..n]) || f(s[n]) > 0.0;
    }
  }

  /** `m` times `w`, by addition. */
  function Times(m: nat, w: real): real {
    if m == 0 then 0.0 else Times(m - 1, w) + w
  }

  lemma {:induction false} TimesIs(m: nat, w: real)
    ensures Times(m, w) == m as real * w
  {
    if m > 0 {
      TimesIs(m - 1, w);
      assert m as real * w == (m - 1) as real * w + w;
    }
  }

  /** Each element below `t` contributes more than `w`. */
  lemma {:induction false} SumBound(f: real -> real, s: seq<real>, t: real, w: real)
    requires forall x :: f(x) >= 0.0
    requires forall x :: x < t ==> f(x) > w
    ensures Sum(f, s) >= Times(CountBelow(s, t), w)
    ensures CountBelow(s, t) > 0 ==> Sum(f, s) > Times(CountBelow(s, t), w)
  {
    if s != [] {
      var n := |s| - 1;
      SumBound(f, s[..n], t, w);
    }
  }

  // ---- Variance ----

  lemma MeanTimesCount(s: seq<real>)
    requires s != []
    ensures Mul(Mean(s), |s| as real) == Total(s)
    ensures Mul(Variance(s), |s| as real) == Spread(s, Mean(s))
  {
    Quotient(Total(s), |s| as real);
    Quotient(Spread(s, Mean(s)), |s| as real);
  }

  lemma DistSplits(c: real, x: real)
    ensures Dist(c)(x) == Mul(1.0, Dist(0.0)(x)) - Mul(2.0 * c, x) + Mul(c, c)
  {
    assert (x - c) * (x - c) == x * x - 2.0 * c * x + c * c;
    assert x - 0.0 == x;
  }

  lemma SpreadAround(squares: real, spread: real, total: real, m: real, b: real, n: real)
    requires n > 0.0 && Mul(m, n) == total && b == 2.0 * m
    requires spread == Mul(1.0, squares) - Mul(b, total) + Mul(n, Mul(m, m))
    ensures Div(spread, n) == Div(squares, n) - Mul(m, m)
  {
    assert b * total == 2.0 * (n * (m * m));
    assert spread == squares - n * (m * m);
    assert (squares / n - m * m) * n == squares - n * (m * m);
  }

  lemma VarianceAround(s: seq<real>, m: real, b: real)
    requires s != [] && Mul(m, |s| as real) == Total(s) && b == 2.0 * m
    ensures Div(Spread(s, m), |s| as real) == Div(Spread(s, 0.0), |s| as real) - Mul(m, m)
  {
    forall x ensures Dist(m)(x) == Mul(1.0, Dist(0.0)(x)) - Mul(b, x) + Mul(m, m) {
      DistSplits(m, x);
    }
    SumCombines(Dist(m), Dist(0.0), 1.0, b, Mul(m, m), s);
    SpreadAround(Spread(s, 0.0), Spread(s, m), Total(s), m, b, |s| as real);
  }

  /** The variance is the mean of the squares minus the square of the mean. */
  lemma VarianceFormula(s: seq<real>)
    requires s != []
    ensures Variance(s) == Div(Spread(s, 0.0), |s| as real) - Mul(Mean(s), Mean(s))
  {
    MeanTimesCount(s);
    VarianceAround(s, Mean(s), 2.0 * Mean(s));
  }

  lemma {:induction false} ConstantTotal(s: seq<real>, c: real)
    requires forall x | x in s :: x == c
    ensures Total(s) == Mul(|s| as real, c)
  {
    if s != [] {
      var n := |s| - 1;
      assert s[n] in s;
      assert forall x | x in s[..n] :: x in s;
      ConstantTotal(s[..n], c);
      assert Id()(s[n]) == c;
      OneMoreTime(n as real, |s| as real, c);
    }
  }

  lemma OneMoreTime(n: real, m: real, c: real)
    requires m == n + 1.0
    ensures Mul(m, c) == Mul(n, c) + c
  {
  }

  lemma QuotientSign(a: real, n: real)
    requires n > 0.0 && a >= 0.0
    ensures Div(a, n) >= 0.0
    ensures Div(a, n) > 0.0 <==> a > 0.0
  {
    Quotient(a, n);
  }

  lemma QuotientOf(c: real, n: real)
    requires n > 0.0
    ensures Div(Mul(n, c), n) == c
  {
  }

  lemma SpreadSign(s: seq<real>, c: real)
    ensures Spread(s, c) >= 0.0
    ensures Spread(s, c) > 0.0 <==> exists x :: x in s && x != c
  {
    forall x ensures Dist(c)(x) >= 0.0 && (Dist(c)(x) > 0.0 <==> x != c) {
      DistSign(c, x);
    }
    SumSign(Dist(c), s);
    if x :| x in s && x != c {
      assert Dist(c)(x) > 0.0;
    }
  }

  /** The variance is never negative, and zero exactly when all elements are equal. */
  lemma VarianceSign(s: seq<real>)
    requires s != []
    ensures Variance(s) >= 0.0
    ensures Variance(s) > 0.0 <==> exists x, y :: x in s && y in s && x != y
  {
    var m := Mean(s);
    SpreadSign(s, m);
    QuotientSign(Spread(s, m), |s| as real);
    if forall y | y in s :: y == s[0] {
      ConstantTotal(s, s[0]);
      QuotientOf(s[0], |s| as real);
      assert m == s[0];
    } else {
      var y :| y in s && y != s[0];
      assert s[0] in s;
      assert y != m || s[0] != m;
    }
  }

  // ---- Cantelli ----

  function Tilt(k: real, c: real, u: real): real -> real {
    x => (k * (x - c) - u) * (k * (x - c) - u)
  }

  lemma TiltSplits(k: real, c: real, u: real, x: real)
    ensures Tilt(k, c, u)(x) == Mul(k * k, Dist(c)(x)) - Mul(2.0 * (k * u), x) + (2.0 * (k * u) * c + u * u)
  {
    var d := x - c;
    var p := k * d;
    assert (p - u) * (p - u) == p * p - 2.0 * (p * u) + u * u;
    assert p * p == k * k * (d * d);
    assert p * u == (k * u) * d;
    assert 2.0 * (k * u) * d == 2.0 * (k * u) * x - 2.0 * (k * u) * c;
  }

  /** What an element far below the centre contributes at least. */
  function Weight(k: real, u: real): real {
    (k * k + 1.0) * u * ((k * k + 1.0) * u)
  }

  lemma LargerSquare(a: real, b: real)
    requires 0.0 < a < b
    ensures a * a < b * b
  {
    assert a * a < a * b < b * b;
  }

  lemma FarElement(k: real, c: real, u: real, x: real)
    requires k > 0.0 && u > 0.0 && x < c - k * u
    ensures Tilt(k, c, u)(x) > Weight(k, u)
  {
    var d := x - c;
    var a, b := (k * k + 1.0) * u, u - k * d;
    FarDistance(k, d, u);
    LargerSquare(a, b);
    assert Tilt(k, c, u)(x) == b * b;
  }

  lemma FarDistance(k: real, d: real, u: real)
    requires k > 0.0 && u > 0.0 && d < -(k * u)
    ensures 0.0 < (k * k + 1.0) * u < u - k * d
  {
    assert k * d < k * -(k * u);
    assert k * -(k * u) == -(k * k * u);
    assert (k * k + 1.0) * u == k * k * u + u;
    assert k * k > 0.0;
    assert k * k * u > 0.0;
  }

  lemma TiltSign(k: real, c: real, u: real, x: real)
    ensures Tilt(k, c, u)(x) >= 0.0
  {
    var d := k * (x - c) - u;
    if d == 0.0 {
      ZeroFactor(d, d, Tilt(k, c, u)(x));
    } else {
      SameSigns(d, d, Tilt(k, c, u)(x));
    }
  }

  /** With the sum on one side `a * v * n` and on the other more than `m * (a * a * v)`. */
  lemma CompareSides(m: nat, n: real, q: real, v: real, sum: real, spread: real, w: real)
    requires q > 0.0 && v > 0.0 && spread == Mul(v, n)
    requires sum == Mul(q, spread) + Mul(n, v) && sum > Times(m, w) && w == (q + 1.0) * (q + 1.0) * v
    ensures Mul(m as real, 1.0 + q) < n
  {
    TimesIs(m, w);
    ScaledBack(m as real, n, q, v, sum, spread, w);
  }

  lemma ScaledBack(m: real, n: real, q: real, v: real, sum: real, spread: real, w: real)
    requires q > 0.0 && v > 0.0 && spread == v * n
    requires sum == q * spread + n * v && sum > m * w && w == (q + 1.0) * (q + 1.0) * v
    ensures m * (1.0 + q) < n
  {
    var f := (q + 1.0) * v;
    assert f > 0.0;
    assert sum == f * n;
    assert m * w == f * (m * (1.0 + q));
    Cancel(f, m * (1.0 + q), n);
  }

  lemma Cancel(f: real, x: real, y: real)
    requires f > 0.0 && f * x < f * y
    ensures x < y
  {
  }

  lemma Collapse(spread: real, a: real, f: real, total: real, n: real, mean: real, v: real, d: real)
    requires Mul(mean, n) == total && d == f * mean + v
    ensures Mul(a, spread) - Mul(f, total) + Mul(n, d) == Mul(a, spread) + Mul(n, v)
  {
    assert f * total == n * (f * mean);
    assert n * d == n * (f * mean) + n * v;
  }

  lemma TiltForm(k: real, mean: real, u: real, a: real, b: real, d: real)
    requires a == k * k && b == 2.0 * (k * u) && d == b * mean + u * u
    ensures forall x :: Tilt(k, mean, u)(x) == Mul(a, Dist(mean)(x)) - Mul(b, x) + d
  {
    forall x ensures Tilt(k, mean, u)(x) == Mul(a, Dist(mean)(x)) - Mul(b, x) + d {
      TiltSplits(k, mean, u, x);
    }
  }

  lemma TiltSum(s: seq<real>, k: real, mean: real, u: real, a: real, b: real, d: real, v: real)
    requires Mul(mean, |s| as real) == Total(s) && v == u * u
    requires a == k * k && b == 2.0 * (k * u) && d == b * mean + v
    ensures Sum(Tilt(k, mean, u), s) == Mul(a, Spread(s, mean)) + Mul(|s| as real, v)
  {
    TiltForm(k, mean, u, a, b, d);
    SumCombines(Tilt(k, mean, u), Dist(mean), a, b, d, s);
    Collapse(Spread(s, mean), a, b, Total(s), |s| as real, mean, v, d);
  }

  lemma TiltBound(s: seq<real>, k: real, c: real, u: real, w: real)
    requires w == Weight(k, u) && k > 0.0 && u > 0.0 && CountBelow(s, c - k * u) > 0
    ensures Sum(Tilt(k, c, u), s) > Times(CountBelow(s, c - k * u), w)
  {
    forall x ensures Tilt(k, c, u)(x) >= 0.0 {
      TiltSign(k, c, u, x);
    }
    forall x | x < c - k * u ensures Tilt(k, c, u)(x) > w {
      FarElement(k, c, u, x);
    }
    SumBound(Tilt(k, c, u), s, c - k * u, w);
  }

  lemma CantelliAround(s: seq<real>, k: real, mean: real, u: real, q: real, v: real)
    requires k > 0.0 && u > 0.0 && q == k * k && v == u * u && Mul(mean, |s| as real) == Total(s)
    requires Mul(v, |s| as real) == Spread(s, mean) && CountBelow(s, mean - k * u) > 0
    ensures Mul(CountBelow(s, mean - k * u) as real, 1.0 + q) < |s| as real
  {
    TiltSum(s, k, mean, u, q, 2.0 * (k * u), 2.0 * (k * u) * mean + v, v);
    TiltBound(s, k, mean, u, Weight(k, u));
    SameSigns(k, k, q);
    SameSigns(u, u, v);
    WeightIs(k, u, q, v);
    CompareSides(CountBelow(s, mean - k * u), |s| as real, q, v, Sum(Tilt(k, mean, u), s), Spread(s, mean),
                 Weight(k, u));
  }

  lemma WeightIs(k: real, u: real, q: real, v: real)
    requires q == k * k && v == u * u
    ensures Weight(k, u) == (q + 1.0) * (q + 1.0) * v
  {
  }

  /** The one-sided Chebyshev bound: of `n` values strictly fewer than `n / (1 + k * k)` lie more than `k`
      standard deviations below their mean. */
  lemma Cantelli(s: seq<real>, k: real, sigma: real)
    requires s != [] && k > 0.0 && sigma > 0.0 && sigma * sigma == Variance(s)
    ensures Mul(CountBelow(s, Mean(s) - k * sigma) as real, 1.0 + k * k) < |s| as real
  {
    MeanTimesCount(s);
    if CountBelow(s, Mean(s) - k * sigma) > 0 {
      CantelliAround(s, k, Mean(s), sigma, k * k, sigma * sigma);
    } else {
      ZeroFactor(0.0, 1.0 + k * k, Mul(0.0, 1.0 + k * k));
    }
  }
}
