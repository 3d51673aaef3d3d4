/** The hour-of-day drift test: at most four hours of the day can ever raise an alert. */
module TemporalDrift {
  import opened Documents
  import Sequences
  import opened Statistics

  const HOURS := 24
  const FEW := 3

  /** The fields of a baseline record the test reads. */
  datatype Baseline = Baseline(action: string, histogram: seq<nat>)

  datatype Observed = Observed(action: string, resource: string, hour: nat)

  datatype Severity = Low | Medium | High | Critical

  datatype Alert = Alert(action: string, resource: string, hour: nat, severity: Severity)

  function SeverityOf(weight: int): Severity {
    if weight >= 10 then Critical else if weight >= 7 then High else if weight >= 3 then Medium else Low
  }

  predicate Usable(b: Baseline) {
    |b.histogram| == HOURS
  }

  /** The histogram in force for an action: the last usable one. */
  function InForce(bs: seq<Baseline>, action: string): Option<seq<nat>> {
    if bs == [] then None
    else
      var b := bs[|bs| - 1];
      if Usable(b) && b.action == action then Some(b.histogram) else InForce(bs[..|bs| - 1], action)
  }

  lemma {:induction false} InForceUsable(bs: seq<Baseline>, action: string)
    ensures InForce(bs, action).Some? ==> |InForce(bs, action).value| == HOURS
  {
    if bs != [] {
      InForceUsable(bs[..|bs| - 1], action);
    }
  }

  /** The actions with a histogram, in order of first appearance. */
  function Actions(bs: seq<Baseline>): seq<string> {
    if bs == [] then []
    else
      var rest := Actions(bs[..|bs| - 1]);
      var b := bs[|bs| - 1];
      if Usable(b) && b.action !in rest then rest + [b.action] else rest
  }

  lemma {:induction false} ActionsInForce(bs: seq<Baseline>, action: string)
    ensures action in Actions(bs) <==> InForce(bs, action).Some?
  {
    if bs != [] {
      ActionsInForce(bs[..|bs| - 1], action);
    }
  }

  /** How many events the histograms of `actions` record in an hour. */
  function TotalAt(bs: seq<Baseline>, actions: seq<string>, hour: nat): nat
    requires hour < HOURS
  {
    if actions == [] then 0
    else
      var last := InForce(bs, actions[|actions| - 1]);
      TotalAt(bs, actions[..|actions| - 1], hour) +
      (if last.Some? && |last.value| == HOURS then last.value[hour] else 0)
  }

  function TotalHistogram(bs: seq<Baseline>): (r: seq<nat>)
    ensures |r| == HOURS
  {
    seq(HOURS, h requires 0 <= h < HOURS => TotalAt(bs, Actions(bs), h))
  }

  function SumOf(hist: seq<nat>): nat {
    if hist == [] then 0 else SumOf(hist[..|hist| - 1]) + hist[|hist| - 1]
  }

  function Divisor(hist: seq<nat>): (r: nat)
    ensures r > 0
  {
    if SumOf(hist) == 0 then 1 else SumOf(hist)
  }

  function Fractions(hist: seq<nat>): (r: seq<real>)
    ensures |r| == |hist|
  {
    seq(|hist|, h requires 0 <= h < |hist| => Div(hist[h] as real, Divisor(hist) as real))
  }

  /** `sigma` is the standard deviation of the fractions. */
  predicate Deviation(hist: seq<nat>, sigma: real)
    requires |hist| == HOURS
  {
    sigma >= 0.0 && sigma * sigma == Variance(Fractions(hist))
  }

  function Threshold(hist: seq<nat>, sigma: real): real
    requires |hist| == HOURS
  {
    Mean(Fractions(hist)) - 2.0 * sigma
  }

  /** The hour is one the test objects to. */
  predicate Odd(hist: seq<nat>, sigma: real, hour: nat)
    requires |hist| == HOURS && hour < HOURS
  {
    sigma != 0.0 && Fractions(hist)[hour] < Threshold(hist, sigma) && hist[hour] < FEW
  }

  function AlertsOf(observed: seq<Observed>, hist: seq<nat>, sigma: real, weight: string -> int): seq<Alert>
    requires |hist| == HOURS && forall o | o in observed :: o.hour < HOURS
  {
    if observed == [] then []
    else
      var o := observed[|observed| - 1];
      AlertsOf(observed[..|observed| - 1], hist, sigma, weight) +
      (if Odd(hist, sigma, o.hour) then [Alert(o.action, o.resource, o.hour, SeverityOf(weight(o.action)))] else [])
  }

  // ---- The bound ----

  /** The indices whose element lies below `t`. */
  function Below(s: seq<real>, t: real): set<nat> {
    set h: nat | h < |s| && s[h] < t
  }

  lemma {:induction false} BelowCounted(s: seq<real>, t: real)
    ensures |Below(s, t)| == CountBelow(s, t)
  {
    if s == [] {
      assert Below(s, t) == {};
    } else {
      var n := |s| - 1;
      BelowCounted(s[..n], t);
      if s[n] < t {
        assert Below(s, t) == Below(s[..n], t) + {n};
      } else {
        assert Below(s, t) == Below(s[..n], t);
      }
    }
  }

  lemma Fewer(m: nat)
    requires Mul(m as real, 1.0 + 2.0 * 2.0) < 24.0
    ensures m <= 4
  {
  }

  /** Whatever the histogram, at most 4 of the 24 hours lie below the threshold. */
  lemma AtMostFourHours(hist: seq<nat>, sigma: real)
    requires |hist| == HOURS && Deviation(hist, sigma) && sigma != 0.0
    ensures |Below(Fractions(hist), Threshold(hist, sigma))| <= 4
  {
    var f := Fractions(hist);
    BelowCounted(f, Threshold(hist, sigma));
    Cantelli(f, 2.0, sigma);
    Fewer(CountBelow(f, Threshold(hist, sigma)));
  }

  lemma DivOrder(a: real, b: real, n: real)
    requires a <= b && n > 0.0
    ensures Div(a, n) <= Div(b, n)
  {
  }

  /** An hour raises an alert only when at most three other hours are as quiet: when five hours of the day
      carry no events, no hour without events is ever odd. */
  lemma OddHoursAreRare(hist: seq<nat>, sigma: real, hour: nat)
    requires |hist| == HOURS && hour < HOURS && Deviation(hist, sigma) && Odd(hist, sigma, hour)
    ensures |set h: nat | h < HOURS && hist[h] <= hist[hour]| <= 4
  {
    AtMostFourHours(hist, sigma);
    var quiet := set h: nat | h < HOURS && hist[h] <= hist[hour];
    var below := Below(Fractions(hist), Threshold(hist, sigma));
    forall h | h in quiet ensures h in below {
      DivOrder(hist[h] as real, hist[hour] as real, Divisor(hist) as real);
    }
    Sequences.SubsetSize(quiet, below);
  }

  lemma {:induction false} AlertHours(observed: seq<Observed>, hist: seq<nat>, sigma: real, weight: string -> int)
    requires |hist| == HOURS && forall o | o in observed :: o.hour < HOURS
    ensures forall a | a in AlertsOf(observed, hist, sigma, weight) :: a.hour < HOURS && Odd(hist, sigma, a.hour)
    ensures forall o | o in observed && Odd(hist, sigma, o.hour) ::
              Alert(o.action, o.resource, o.hour, SeverityOf(weight(o.action))) in
              AlertsOf(observed, hist, sigma, weight)
  {
    if observed != [] {
      var n := |observed| - 1;
      assert observed == observed[..n] + [observed[n]];
      AlertHours(observed[..n], hist, sigma, weight);
    }
  }

  /** So all alerts of one call fall in at most four hours. */
  lemma AlertsInFourHours(observed: seq<Observed>, hist: seq<nat>, sigma: real, weight: string -> int)
    requires |hist| == HOURS && Deviation(hist, sigma) && forall o | o in observed :: o.hour < HOURS
    ensures |set a | a in AlertsOf(observed, hist, sigma, weight) :: a.hour| <= 4
  {
    var alerts := AlertsOf(observed, hist, sigma, weight);
    var hours := set a | a in alerts :: a.hour;
    AlertHours(observed, hist, sigma, weight);
    if sigma == 0.0 {
      assert hours == {};
    } else {
      AtMostFourHours(hist, sigma);
      Sequences.SubsetSize(hours, Below(Fractions(hist), Threshold(hist, sigma)));
    }
  }

  lemma {:induction false} NoDeviationNoAlerts(observed: seq<Observed>, hist: seq<nat>, weight: string -> int)
    requires |hist| == HOURS && forall o | o in observed :: o.hour < HOURS
    ensures AlertsOf(observed, hist, 0.0, weight) == []
  {
    if observed != [] {
      NoDeviationNoAlerts(observed[..|observed| - 1], hist, weight);
    }
  }

  // ---- The test in whole numbers ----

  function Squares(hist: seq<nat>): nat {
    if hist == [] then 0 else Squares(hist[..|hist| - 1]) + hist[|hist| - 1] * hist[|hist| - 1]
  }

  function Scaled(hist: seq<nat>, n: real): (r: seq<real>)
    requires n > 0.0
    ensures |r| == |hist|
  {
    seq(|hist|, h requires 0 <= h < |hist| => Div(hist[h] as real, n))
  }

  lemma {:induction false} ScaledSums(hist: seq<nat>, n: real)
    requires n > 0.0
    ensures Mul(Total(Scaled(hist, n)), n) == SumOf(hist) as real
    ensures Mul(Mul(Spread(Scaled(hist, n), 0.0), n), n) == Squares(hist) as real
  {
    if hist != [] {
      var k := |hist| - 1;
      var s := Scaled(hist, n);
      ScaledSums(hist[..k], n);
      assert s[..k] == Scaled(hist[..k], n);
      Quotient(hist[k] as real, n);
      AddScaled(Total(s[..k]), s[k], n);
      assert Id()(s[k]) == s[k];
      DistZero(s[k]);
      AddSquare(Spread(s[..k], 0.0), s[k], n, hist[k] as real, Dist(0.0)(s[k]));
      SquareCast(hist[k]);
    }
  }

  lemma SquareCast(h: nat)
    ensures (h * h) as real == Mul(h as real, h as real)
  {
  }

  lemma DistZero(x: real)
    ensures Dist(0.0)(x) == Mul(x, x)
  {
    assert x - 0.0 == x;
  }

  lemma AddScaled(a: real, b: real, n: real)
    ensures Mul(a + b, n) == Mul(a, n) + Mul(b, n)
  {
  }

  lemma AddSquare(a: real, f: real, n: real, h: real, e: real)
    requires Mul(f, n) == h && e == Mul(f, f)
    ensures Mul(Mul(a + e, n), n) == Mul(Mul(a, n), n) + Mul(h, h)
  {
    assert f * f * n * n == h * h;
  }

  /** With `t` events, `q` the sum of the squared counts, `m` and `v` the mean and variance of the fractions,
      and `s` their deviation, 24 t s squares to 24 q - t t. */
  lemma DeviationScaled(t: real, q: real, m: real, spread: real, v: real, s: real, x: real)
    requires x == 24.0 * t * s && t > 0.0 && Mul(Mul(spread, t), t) == q && Mul(m, 24.0) == 1.0
    requires v == Div(spread, 24.0) - Mul(m, m) && s * s == v
    ensures Mul(x, x) == 24.0 * q - Mul(t, t)
  {
    assert m == 1.0 / 24.0;
    assert 576.0 * v == 24.0 * spread - 1.0;
    assert 24.0 * t * s * (24.0 * t * s) == t * t * (576.0 * v);
    assert t * t * (24.0 * spread - 1.0) == 24.0 * (spread * t * t) - t * t;
  }

  lemma CompareSquares(x: real, y: real)
    requires x > 0.0
    ensures y > 2.0 * x <==> y > 0.0 && Mul(y, y) > 4.0 * Mul(x, x)
  {
    if y > 2.0 * x {
      assert y * y > 2.0 * x * y;
      assert 2.0 * x * y > 2.0 * x * (2.0 * x);
    } else if y > 0.0 {
      assert y * y <= 2.0 * x * y;
      assert 2.0 * x * y <= 2.0 * x * (2.0 * x);
    }
  }

  lemma BelowScaled(h: real, t: real, f: real, m: real, s: real, x: real)
    requires x == 24.0 * t * s && t > 0.0 && Mul(f, t) == h && Mul(m, 24.0) == 1.0
    ensures f < m - 2.0 * s <==> t - 24.0 * h > 2.0 * x
  {
    var gap := m - 2.0 * s - f;
    assert 24.0 * t * gap == t * (24.0 * m) - 2.0 * (24.0 * t * s) - 24.0 * h;
    if gap > 0.0 {
      assert t * gap > 0.0;
    } else {
      assert t * gap <= 0.0;
    }
  }

  /** The test on fractions is a test on the counts alone: with `t` events, an hour with `h` of them lies below
      the threshold exactly when 24h < t and (t - 24h)^2 > 4 (24 q - t^2), where q sums the squared counts. */
  lemma WholeNumberTest(hist: seq<nat>, sigma: real, hour: nat)
    requires |hist| == HOURS && hour < HOURS && SumOf(hist) > 0 && Deviation(hist, sigma) && sigma > 0.0
    ensures var t, h := SumOf(hist), hist[hour];
            Fractions(hist)[hour] < Threshold(hist, sigma) <==>
            24 * h < t && (t - 24 * h) * (t - 24 * h) > 4 * (24 * Squares(hist) - t * t)
  {
    var t, h, q := SumOf(hist), hist[hour], Squares(hist);
    var f := Fractions(hist);
    var n := t as real;
    assert f == Scaled(hist, n);
    ScaledSums(hist, n);
    UnitTotal(Total(f), n);
    MeanTimesCount(f);
    VarianceFormula(f);
    var x := 24.0 * n * sigma;
    DeviationScaled(n, q as real, Mean(f), Spread(f, 0.0), Variance(f), sigma, x);
    Quotient(h as real, n);
    BelowScaled(h as real, n, f[hour], Mean(f), sigma, x);
    assert x > 0.0;
    CompareSquares(x, n - 24.0 * h as real);
    Cast(t, h, q, x);
  }

  lemma UnitTotal(total: real, n: real)
    requires n > 0.0 && Mul(total, n) == n
    ensures total == 1.0
  {
  }

  lemma Cast(t: nat, h: nat, q: nat, x: real)
    requires Mul(x, x) == 24.0 * q as real - Mul(t as real, t as real)
    ensures var y := t as real - 24.0 * h as real;
            y > 0.0 && Mul(y, y) > 4.0 * Mul(x, x) <==> 24 * h < t && (t - 24 * h) * (t - 24 * h) > 4 * (24 * q - t * t)
  {
    var y := t - 24 * h;
    assert y as real == t as real - 24.0 * h as real;
    assert (y * y) as real == y as real * y as real;
    assert (t * t) as real == t as real * t as real;
  }

  /** Four is reached: four empty hours beside twenty with one event each are all odd. */
  lemma FourHoursHappen(sigma: real)
    requires Deviation(FourQuietHours(), sigma) && sigma > 0.0
    ensures Odd(FourQuietHours(), sigma, 0) && Odd(FourQuietHours(), sigma, 1)
    ensures Odd(FourQuietHours(), sigma, 2) && Odd(FourQuietHours(), sigma, 3)
  {
    var hist := FourQuietHours();
    CountsSum(4, 20);
    forall k: nat | k < 4 ensures Odd(hist, sigma, k) {
      WholeNumberTest(hist, sigma, k);
    }
  }

  function Counts(zeros: nat, ones: nat): (r: seq<nat>)
    ensures |r| == zeros + ones && forall k | 0 <= k < zeros :: r[k] == 0
  {
    if ones > 0 then Counts(zeros, ones - 1) + [1] else if zeros > 0 then Counts(zeros - 1, 0) + [0] else []
  }

  function FourQuietHours(): (r: seq<nat>)
    ensures |r| == HOURS
  {
    Counts(4, 20)
  }

  lemma {:induction false} CountsSum(zeros: nat, ones: nat)
    ensures SumOf(Counts(zeros, ones)) == ones && Squares(Counts(zeros, ones)) == ones
    decreases ones, zeros
  {
    var s := Counts(zeros, ones);
    if ones > 0 {
      CountsSum(zeros, ones - 1);
      assert s[..|s| - 1] == Counts(zeros, ones - 1);
    } else if zeros > 0 {
      CountsSum(zeros - 1, 0);
      assert s[..|s| - 1] == Counts(zeros - 1, 0);
    }
  }

  // ---- What the detector reports, from the baselines themselves ----

  /** Baseline `k` is the last usable one of its action. */
  predicate LastUsable(bs: seq<Baseline>, k: nat) {
    k < |bs| && |bs[k].histogram| == 24 &&
    forall j | k < j < |bs| && bs[j].action == bs[k].action :: |bs[j].histogram| != 24
  }

  /** `histograms` maps each action with a usable baseline to the last one's histogram; `order` lists its actions,
      each once. */
  ghost predicate Dictionary(bs: seq<Baseline>, order: seq<string>, histograms: map<string, seq<nat>>) {
    && Sequences.NoDuplicates(order)
    && (forall a :: a in order <==> a in histograms)
    && (forall k: nat | LastUsable(bs, k) ::
          bs[k].action in histograms && histograms[bs[k].action] == bs[k].histogram)
    && (forall a | a in histograms :: exists k: nat :: LastUsable(bs, k) && bs[k].action == a)
  }

  function AtHour(histograms: map<string, seq<nat>>, hour: nat): string -> int {
    a => if a in histograms && hour < |histograms[a]| then histograms[a][hour] else 0
  }

  function Same(): nat -> int {
    x => x
  }

  function Square(): nat -> int {
    x => x * x
  }

  /** The hour has fewer than three events, and so few that, with `t` events in all, `h` of them in this hour and `q`
      the sum of the squared counts, 24h < t and (t - 24h)^2 > 4 (24q - t^2). */
  predicate QuietHour(total: seq<nat>, hour: nat)
    requires hour < |total|
  {
    var t, q, h := Sequences.Sum(Same(), total), Sequences.Sum(Square(), total), total[hour];
    h < 3 && 24 * h < t && (t - 24 * h) * (t - 24 * h) > 4 * (24 * q - t * t)
  }

  /** `total` adds up the histograms in force, hour by hour. */
  ghost predicate Totals(bs: seq<Baseline>, total: seq<nat>) {
    |total| == 24 && exists order, histograms :: Dictionary(bs, order, histograms) && Adds(order, histograms, total)
  }

  ghost predicate Adds(order: seq<string>, histograms: map<string, seq<nat>>, total: seq<nat>)
    requires |total| == 24
  {
    forall h: nat | h < 24 :: total[h] == Sequences.Sum(AtHour(histograms, h), order)
  }

  /** The alert is about this action, and as severe as its weight has it. */
  predicate About(alert: Alert, o: Observed, weight: string -> int) {
    && alert.action == o.action && alert.resource == o.resource && alert.hour == o.hour
    && (alert.severity == Critical <==> weight(o.action) >= 10)
    && (alert.severity == High <==> 7 <= weight(o.action) < 10)
    && (alert.severity == Medium <==> 3 <= weight(o.action) < 7)
  }

  /** One alert for each observed action in a quiet hour, in order, and no others. */
  predicate Reports(observed: seq<Observed>, total: seq<nat>, weight: string -> int, alerts: seq<Alert>)
    requires |total| == 24
  {
    var quiet := Sequences.Filter((o: Observed) => o.hour < 24 && QuietHour(total, o.hour), observed);
    |alerts| == |quiet| && forall i | 0 <= i < |alerts| :: About(alerts[i], quiet[i], weight)
  }

  lemma {:induction false} SumsAgree(hist: seq<nat>)
    ensures SumOf(hist) == Sequences.Sum(Same(), hist) && Squares(hist) == Sequences.Sum(Square(), hist)
    decreases |hist|
  {
    if hist != [] {
      var n := |hist| - 1;
      SumsAgree(hist[..n]);
      assert hist == hist[..n] + [hist[n]] && [hist[n]][1..] == [];
      Sequences.SumAppend(Same(), hist[..n], [hist[n]]);
      Sequences.SumAppend(Square(), hist[..n], [hist[n]]);
    }
  }

  lemma ZeroFractions(hist: seq<nat>, h: nat)
    requires SumOf(hist) == 0 && h < |hist|
    ensures Fractions(hist)[h] == 0.0
  {
    SumHolds(hist, h);
  }

  lemma {:induction false} SumHolds(hist: seq<nat>, h: nat)
    requires h < |hist|
    ensures hist[h] <= SumOf(hist)
    decreases |hist|
  {
    var n := |hist| - 1;
    if h < n {
      SumHolds(hist[..n], h);
    }
  }

  lemma NoEventsNoDeviation(hist: seq<nat>, sigma: real)
    requires |hist| == HOURS && Deviation(hist, sigma) && SumOf(hist) == 0
    ensures sigma == 0.0
  {
    var f := Fractions(hist);
    forall x | x in f ensures x == 0.0 {
      var h :| 0 <= h < |f| && f[h] == x;
      ZeroFractions(hist, h);
    }
    VarianceSign(f);
    NoSquareNoRoot(sigma);
  }

  lemma NoSquareNoRoot(sigma: real)
    requires sigma * sigma <= 0.0
    ensures sigma == 0.0
  {
    if sigma != 0.0 {
      SameSigns(sigma, sigma, sigma * sigma);
    }
  }

  lemma {:induction false} EqualSum(hist: seq<nat>, x: nat)
    requires forall h | 0 <= h < |hist| :: hist[h] == x
    ensures SumOf(hist) == x * |hist|
    decreases |hist|
  {
    if hist != [] {
      EqualSum(hist[..|hist| - 1], x);
    }
  }

  lemma SameQuotient(a: real, b: real, n: real)
    requires n > 0.0 && Div(a, n) == Div(b, n)
    ensures a == b
  {
    Quotient(a, n);
    Quotient(b, n);
  }

  /** There is no deviation exactly when all hours have equally many events. */
  lemma NoDeviationExactly(hist: seq<nat>)
    requires |hist| == HOURS
    ensures Deviation(hist, 0.0) <==> forall h, k | 0 <= h < k < 24 :: hist[h] == hist[k]
  {
    var f := Fractions(hist);
    VarianceSign(f);
    if Deviation(hist, 0.0) {
      forall h, k | 0 <= h < k < 24 ensures hist[h] == hist[k] {
        assert f[h] in f && f[k] in f;
        SameQuotient(hist[h] as real, hist[k] as real, Divisor(hist) as real);
      }
    } else {
      var x, y :| x in f && y in f && x != y;
      var h :| 0 <= h < |f| && f[h] == x;
      var k :| 0 <= k < |f| && f[k] == y;
      assert hist[h] != hist[k];
    }
  }

  lemma NoDeviationAllEqual(hist: seq<nat>, hour: nat)
    requires |hist| == HOURS && hour < HOURS && Deviation(hist, 0.0)
    ensures SumOf(hist) == 24 * hist[hour]
  {
    NoDeviationExactly(hist);
    EqualSum(hist, hist[hour]);
  }

  /** The test of the detector, deviation and all, objects exactly to the quiet hours. */
  lemma OddExactly(hist: seq<nat>, sigma: real, hour: nat)
    requires |hist| == HOURS && hour < HOURS && Deviation(hist, sigma)
    ensures Odd(hist, sigma, hour) <==> QuietHour(hist, hour)
  {
    SumsAgree(hist);
    if SumOf(hist) == 0 {
      NoEventsNoDeviation(hist, sigma);
    } else if sigma == 0.0 {
      NoDeviationAllEqual(hist, hour);
    } else {
      WholeNumberTest(hist, sigma, hour);
    }
  }

  lemma {:induction false} AlertsReport(observed: seq<Observed>, hist: seq<nat>, sigma: real, weight: string -> int)
    requires |hist| == HOURS && Deviation(hist, sigma) && forall o | o in observed :: o.hour < HOURS
    ensures Reports(observed, hist, weight, AlertsOf(observed, hist, sigma, weight))
    decreases |observed|
  {
    if observed != [] {
      var n := |observed| - 1;
      assert observed[n] in observed;
      AlertsReport(observed[..n], hist, sigma, weight);
      OddExactly(hist, sigma, observed[n].hour);
    }
  }

  lemma {:induction false} TotalIsSum(bs: seq<Baseline>, actions: seq<string>, histograms: map<string, seq<nat>>,
                                      h: nat)
    requires h < HOURS
    requires forall a | a in actions :: a in histograms && InForce(bs, a) == Some(histograms[a])
    ensures TotalAt(bs, actions, h) == Sequences.Sum(AtHour(histograms, h), actions)
    decreases |actions|
  {
    if actions != [] {
      var n := |actions| - 1;
      assert actions == actions[..n] + [actions[n]] && [actions[n]][1..] == [];
      TotalIsSum(bs, actions[..n], histograms, h);
      Sequences.SumAppend(AtHour(histograms, h), actions[..n], [actions[n]]);
      InForceUsable(bs, actions[n]);
    }
  }

  lemma {:induction false} InForceIsLast(bs: seq<Baseline>, action: string)
    ensures forall k: nat | LastUsable(bs, k) && bs[k].action == action :: InForce(bs, action) == Some(bs[k].histogram)
    ensures InForce(bs, action).Some? ==> exists k: nat :: LastUsable(bs, k) && bs[k].action == action
    decreases |bs|
  {
    if bs != [] {
      var n := |bs| - 1;
      var init := bs[..n];
      InForceIsLast(init, action);
      if Usable(bs[n]) && bs[n].action == action {
        assert LastUsable(bs, n);
      } else {
        forall k: nat | k < n && bs[k].action == action ensures LastUsable(bs, k) <==> LastUsable(init, k) {
          assert forall j | 0 <= j < n :: init[j] == bs[j];
        }
      }
    }
  }

  lemma {:induction false} ActionsOnce(bs: seq<Baseline>)
    ensures Sequences.NoDuplicates(Actions(bs))
    decreases |bs|
  {
    if bs != [] {
      ActionsOnce(bs[..|bs| - 1]);
    }
  }

  lemma CollectedDictionary(bs: seq<Baseline>, order: seq<string>, histograms: map<string, seq<nat>>)
    requires order == Actions(bs) && forall a :: a in order <==> a in histograms
    requires forall a | a in order :: InForce(bs, a) == Some(histograms[a])
    ensures Dictionary(bs, order, histograms)
  {
    ActionsOnce(bs);
    forall k: nat | LastUsable(bs, k)
      ensures bs[k].action in histograms && histograms[bs[k].action] == bs[k].histogram
    {
      InForceIsLast(bs, bs[k].action);
      ActionsInForce(bs, bs[k].action);
    }
    forall a | a in histograms ensures exists k: nat :: LastUsable(bs, k) && bs[k].action == a {
      InForceIsLast(bs, a);
      ActionsInForce(bs, a);
    }
  }

  lemma {:induction false} SumAtLeast(f: string -> int, s: seq<string>, x: string)
    requires forall y :: f(y) >= 0
    ensures Sequences.Sum(f, s) >= 0 && (x in s ==> Sequences.Sum(f, s) >= f(x))
  {
    if s != [] {
      SumAtLeast(f, s[1..], x);
    }
  }

  /** An hour in which some action's histogram in force has three events or more is not quiet. */
  lemma BusyHourIsNotQuiet(bs: seq<Baseline>, total: seq<nat>, k: nat, hour: nat)
    requires Totals(bs, total) && LastUsable(bs, k) && hour < HOURS && bs[k].histogram[hour] >= 3
    ensures !QuietHour(total, hour)
  {
    var order, histograms :| Dictionary(bs, order, histograms) && Adds(order, histograms, total);
    SumAtLeast(AtHour(histograms, hour), order, bs[k].action);
  }

  /** No alert falls in an hour in which some action's histogram in force has three events or more. */
  ghost predicate SparesBusyHours(bs: seq<Baseline>, alerts: seq<Alert>) {
    forall k: nat, a | LastUsable(bs, k) && a in alerts :: a.hour < 24 && bs[k].histogram[a.hour] < 3
  }

  lemma ReportsSpare(bs: seq<Baseline>, observed: seq<Observed>, total: seq<nat>, weight: string -> int,
                     alerts: seq<Alert>)
    requires Totals(bs, total) && Reports(observed, total, weight, alerts)
    ensures SparesBusyHours(bs, alerts)
  {
    var quiet: Observed -> bool := (o: Observed) => o.hour < 24 && QuietHour(total, o.hour);
    forall k: nat, a | LastUsable(bs, k) && a in alerts ensures a.hour < 24 && bs[k].histogram[a.hour] < 3 {
      var i :| 0 <= i < |alerts| && alerts[i] == a;
      Sequences.FilterMember(quiet, observed, Sequences.Filter(quiet, observed)[i]);
      assert About(alerts[i], Sequences.Filter(quiet, observed)[i], weight);
      if bs[k].histogram[a.hour] >= 3 {
        BusyHourIsNotQuiet(bs, total, k, a.hour);
        assert false;
      }
    }
  }

  // ---- The detector ----

  /** `detect_temporal_anomaly`. The square root is a parameter: the non-negative real whose square is the
      variance. One alert for each observed action in a quiet hour, `total` being the sum of the last usable
      histograms; so none in an hour in which one of them has three events or more. */
  method DetectTemporalAnomaly(observed: seq<Observed>, baselines: seq<Baseline>, stddev: real, weight: string -> int)
    returns (alerts: seq<Alert>, ghost total: seq<nat>)
    requires Deviation(TotalHistogram(baselines), stddev)
    requires forall o | o in observed :: o.hour < HOURS
    ensures Actions(baselines) != [] ==> alerts == AlertsOf(observed, TotalHistogram(baselines), stddev, weight)
    ensures Actions(baselines) == [] ==> alerts == []
    ensures |set a | a in alerts :: a.hour| <= 4
    ensures Totals(baselines, total) && Reports(observed, total, weight, alerts)
    ensures SparesBusyHours(baselines, alerts)
  {
    alerts := [];
    var order, histograms := CollectHistograms(baselines);
    if order == [] {
      assert (set a | a in alerts :: a.hour) == {};
      total := NoBaselines(baselines, observed, histograms, weight);
      return;
    }
    ghost var hist := TotalHistogram(baselines);
    var totalHist := AddHistograms(baselines, order, histograms);
    assert totalHist[..] == hist;
    total := hist;
    TotalsOf(baselines, order, histograms, total);
    var totalEvents := CountEvents(totalHist);
    AlertsInFourHours(observed, hist, stddev, weight);
    alerts := Compare(observed, totalHist, totalEvents, stddev, weight);
    AlertsReport(observed, hist, stddev, weight);
    ReportsSpare(baselines, observed, total, weight, alerts);
  }

  lemma TotalsOf(bs: seq<Baseline>, order: seq<string>, histograms: map<string, seq<nat>>, total: seq<nat>)
    requires |total| == HOURS && Dictionary(bs, order, histograms)
    requires forall h: nat | h < HOURS :: total[h] == Sequences.Sum(AtHour(histograms, h), order)
    ensures Totals(bs, total)
  {
    assert Adds(order, histograms, total);
  }

  /** How many events there are, at least one. */
  method CountEvents(totalHist: array<nat>) returns (totalEvents: nat)
    requires totalHist.Length == HOURS
    ensures totalEvents == Divisor(totalHist[..])
  {
    totalEvents := 0;
    ghost var hist := totalHist[..];
    for h := 0 to HOURS
      invariant totalEvents == SumOf(hist[..h])
    {
      totalEvents := totalEvents + totalHist[h];
      assert hist[..h + 1][..h] == hist[..h];
    }
    assert hist[..HOURS] == hist;
    if totalEvents == 0 {
      totalEvents := 1;
    }
  }

  /** The dictionary of histograms: a later usable baseline of an action replaces an earlier one. */
  method CollectHistograms(baselines: seq<Baseline>) returns (order: seq<string>, histograms: map<string, seq<nat>>)
    ensures order == Actions(baselines) && Dictionary(baselines, order, histograms)
    ensures forall a | a in order :: a in histograms && InForce(baselines, a) == Some(histograms[a])
  {
    order, histograms := [], map[];
    for k := 0 to |baselines|
      invariant order == Actions(baselines[..k]) && forall a :: a in order <==> a in histograms
      invariant forall a | a in order :: a in histograms && InForce(baselines[..k], a) == Some(histograms[a])
    {
      var b := baselines[k];
      assert baselines[..k + 1][..k] == baselines[..k];
      if |b.histogram| == HOURS {
        if b.action !in order {
          order := order + [b.action];
        }
        histograms := histograms[b.action := b.histogram];
      }
    }
    assert baselines[..|baselines|] == baselines;
    CollectedDictionary(baselines, order, histograms);
  }

  lemma NoBaselines(bs: seq<Baseline>, observed: seq<Observed>, histograms: map<string, seq<nat>>,
                    weight: string -> int)
    returns (total: seq<nat>)
    requires Dictionary(bs, [], histograms)
    ensures Totals(bs, total) && Reports(observed, total, weight, []) && SparesBusyHours(bs, [])
  {
    total := seq(24, _ => 0);
    assert Adds([], histograms, total);
    EqualSum(total, 0);
    SumsAgree(total);
    NothingPasses((o: Observed) => o.hour < 24 && QuietHour(total, o.hour), observed);
  }

  lemma {:induction false} NothingPasses(p: Observed -> bool, s: seq<Observed>)
    requires forall o :: !p(o)
    ensures Sequences.Filter(p, s) == []
    decreases |s|
  {
    if s != [] {
      NothingPasses(p, s[..|s| - 1]);
    }
  }

  /** Adding up in place: each hour holds the sum over the actions of what their histograms have there. */
  method AddHistograms(baselines: seq<Baseline>, order: seq<string>, histograms: map<string, seq<nat>>)
    returns (total: array<nat>)
    requires order == Actions(baselines)
    requires forall a | a in order :: a in histograms && InForce(baselines, a) == Some(histograms[a])
    ensures fresh(total) && total.Length == HOURS && total[..] == TotalHistogram(baselines)
    ensures forall h: nat | h < HOURS :: total[h] == Sequences.Sum(AtHour(histograms, h), order)
  {
    total := new nat[HOURS](_ => 0);
    for k := 0 to |order|
      invariant fresh(total)
      invariant forall h: nat | h < HOURS :: total[h] == TotalAt(baselines, order[..k], h)
    {
      InForceUsable(baselines, order[k]);
      assert order[..k + 1][..k] == order[..k];
      var hist := histograms[order[k]];
      for i := 0 to HOURS
        invariant forall h: nat | h < i :: total[h] == TotalAt(baselines, order[..k + 1], h)
        invariant forall h: nat | i <= h < HOURS :: total[h] == TotalAt(baselines, order[..k], h)
      {
        total[i] := total[i] + hist[i];
      }
    }
    assert order[..|order|] == order;
    forall h: nat | h < HOURS ensures total[h] == Sequences.Sum(AtHour(histograms, h), order) {
      TotalIsSum(baselines, order, histograms, h);
    }
  }

  /** The fractions, their mean, and the test of each observed action. */
  method Compare(observed: seq<Observed>, totalHist: array<nat>, totalEvents: nat, stddev: real, weight: string -> int)
    returns (alerts: seq<Alert>)
    requires totalHist.Length == HOURS && totalEvents == Divisor(totalHist[..])
    requires forall o | o in observed :: o.hour < HOURS
    ensures alerts == AlertsOf(observed, totalHist[..], stddev, weight)
  {
    alerts := [];
    ghost var hist := totalHist[..];
    ghost var f := Fractions(hist);
    var fractions: seq<real> := [];
    var sum := 0.0;
    for h := 0 to HOURS
      invariant fractions == f[..h] && sum == Total(f[..h])
    {
      var fraction := Div(totalHist[h] as real, totalEvents as real);
      assert f[..h + 1][..h] == f[..h];
      fractions := fractions + [fraction];
      sum := sum + fraction;
    }
    assert f[..HOURS] == f;
    var mean := Div(sum, 24.0);
    if stddev == 0.0 {
      NoDeviationNoAlerts(observed, hist, weight);
      return;
    }
    for k := 0 to |observed|
      invariant alerts == AlertsOf(observed[..k], hist, stddev, weight)
    {
      var o := observed[k];
      assert observed[..k + 1][..k] == observed[..k];
      if fractions[o.hour] < mean - 2.0 * stddev && totalHist[o.hour] < FEW {
        alerts := alerts + [Alert(o.action, o.resource, o.hour, SeverityOf(weight(o.action)))];
      }
    }
    assert observed[..|observed|] == observed;
  }
}
