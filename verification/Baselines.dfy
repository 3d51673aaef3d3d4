/** Rolling per-action statistics of one identity's events. */
module Baselines {
  import Sequences
  import opened Statistics
  import opened TemporalDrift

  const WINDOW_HOURS := 720

  /** An event in the window: its day and its hour of that day, in UTC. */
  datatype Event = Event(action: string, resource: string, day: int, hour: nat)

  datatype ActionKey = ActionKey(action: string, resource: string)

  datatype Stats = Stats(key: ActionKey, mean: real, variance: real, sampleCount: nat, histogram: seq<nat>,
                         perHourMean: real, perHourVariance: real)

  function KeyOf(e: Event): ActionKey {
    ActionKey(e.action, e.resource)
  }

  /** The events of one action on one resource, in order. */
  function Of(events: seq<Event>, key: ActionKey): seq<Event> {
    Sequences.Filter(HasKey(key), events)
  }

  function HasKey(key: ActionKey): Event -> bool {
    (e: Event) => KeyOf(e) == key
  }

  function InHour(hour: nat): Event -> bool {
    (e: Event) => e.hour == hour
  }

  function Equals(x: int): int -> bool {
    (y: int) => y == x
  }

  function Days(events: seq<Event>): (r: seq<int>)
    ensures |r| == |events|
  {
    if events == [] then [] else Days(events[..|events| - 1]) + [events[|events| - 1].day]
  }

  /** The hour of the calendar an event falls in. */
  function Hours(events: seq<Event>): (r: seq<int>)
    ensures |r| == |events|
  {
    if events == [] then []
    else Hours(events[..|events| - 1]) + [events[|events| - 1].day * HOURS + events[|events| - 1].hour]
  }

  function Keys(events: seq<Event>): seq<ActionKey> {
    if events == [] then []
    else
      var rest := Keys(events[..|events| - 1]);
      var key := KeyOf(events[|events| - 1]);
      if key in rest then rest else rest + [key]
  }

  /** How often `x` occurs. */
  function Occurrences(s: seq<int>, x: int): nat {
    Sequences.Count(Equals(x), s)
  }

  lemma {:induction false} OccursWhenMember(s: seq<int>, x: int)
    ensures Occurrences(s, x) > 0 <==> x in s
  {
    if s != [] {
      OccursWhenMember(s[..|s| - 1], x);
      assert s == s[..|s| - 1] + [s[|s| - 1]];
    }
  }

  function HourCount(events: seq<Event>, hour: nat): nat {
    Sequences.Count(InHour(hour), events)
  }

  function Reals(counts: seq<nat>): (r: seq<real>)
    ensures |r| == |counts|
  {
    seq(|counts|, k requires 0 <= k < |counts| => counts[k] as real)
  }

  lemma {:induction false} RealsTotal(counts: seq<nat>)
    ensures Total(Reals(counts)) == SumOf(counts) as real
  {
    if counts != [] {
      var n := |counts| - 1;
      RealsTotal(counts[..n]);
      assert Reals(counts)[..n] == Reals(counts[..n]);
      assert Id()(Reals(counts)[n]) == Reals(counts)[n];
    }
  }

  /** `counts` tells how often each of the distinct values `keys` occurs in `s`, which holds nothing else. */
  ghost predicate Tallies(s: seq<int>, keys: seq<int>, counts: seq<nat>) {
    && |keys| == |counts|
    && (forall i, j | 0 <= i < j < |keys| :: keys[i] != keys[j])
    && (forall x :: x in s <==> x in keys)
    && (forall i | 0 <= i < |keys| :: counts[i] == Occurrences(s, keys[i]) && counts[i] > 0)
  }

  /** The counts of a tally: none is below one, they add up to the number of values, and all are equal
      exactly when all values occur equally often. */
  lemma TallyFacts(s: seq<int>, keys: seq<int>, counts: seq<nat>)
    requires s != [] && Tallies(s, keys, counts) && SumOf(counts) == |s|
    ensures counts != [] && Mul(Mean(Reals(counts)), |counts| as real) == |s| as real
    ensures Mean(Reals(counts)) >= 1.0
    ensures Variance(Reals(counts)) ==
            Div(Spread(Reals(counts), 0.0), |counts| as real) - Mul(Mean(Reals(counts)), Mean(Reals(counts)))
    ensures Variance(Reals(counts)) >= 0.0
    ensures Variance(Reals(counts)) > 0.0 <==> exists x, y :: x in s && y in s && Occurrences(s, x) != Occurrences(s, y)
  {
    var x := s[0];
    assert x in s && x in keys;
    var r := Reals(counts);
    RealsTotal(counts);
    MeanTimesCount(r);
    VarianceFormula(r);
    VarianceSign(r);
    AtLeastCount(counts);
    MeanAtLeastOne(Mean(r), |counts| as real, |s| as real);
    UnequalCounts(s, keys, counts);
  }

  lemma {:induction false} AtLeastCount(counts: seq<nat>)
    requires forall i | 0 <= i < |counts| :: counts[i] > 0
    ensures SumOf(counts) >= |counts|
  {
    if counts != [] {
      AtLeastCount(counts[..|counts| - 1]);
    }
  }

  lemma MeanAtLeastOne(mean: real, n: real, total: real)
    requires n > 0.0 && Mul(mean, n) == total && total >= n
    ensures mean >= 1.0
  {
  }

  lemma UnequalCounts(s: seq<int>, keys: seq<int>, counts: seq<nat>)
    requires Tallies(s, keys, counts)
    ensures (exists a, b :: a in Reals(counts) && b in Reals(counts) && a != b) <==>
            (exists x, y :: x in s && y in s && Occurrences(s, x) != Occurrences(s, y))
  {
    if a, b :| a in Reals(counts) && b in Reals(counts) && a != b {
      var i :| 0 <= i < |counts| && Reals(counts)[i] == a;
      var j :| 0 <= j < |counts| && Reals(counts)[j] == b;
      assert keys[i] in keys && keys[j] in keys;
      assert Occurrences(s, keys[i]) != Occurrences(s, keys[j]);
    }
    if x, y :| x in s && y in s && Occurrences(s, x) != Occurrences(s, y) {
      var i :| 0 <= i < |keys| && keys[i] == x;
      var j :| 0 <= j < |keys| && keys[j] == y;
      assert Reals(counts)[i] in Reals(counts) && Reals(counts)[j] in Reals(counts);
    }
  }

  // ---- The loops of the pipeline ----

  lemma OneMoreOccurrence(s: seq<int>, x: int, y: int)
    ensures Occurrences(s + [x], y) == Occurrences(s, y) + if y == x then 1 else 0
  {
    Sequences.CountStep(Equals(y), s, x);
  }

  lemma TallyKnown(s: seq<int>, x: int, keys: seq<int>, counts: seq<nat>, i: nat)
    requires Tallies(s, keys, counts) && i < |keys| && keys[i] == x
    ensures Tallies(s + [x], keys, counts[i := counts[i] + 1])
  {
    forall j | 0 <= j < |keys| ensures Occurrences(s + [x], keys[j]) == counts[i := counts[i] + 1][j] {
      OneMoreOccurrence(s, x, keys[j]);
    }
    assert x in keys;
  }

  lemma TallyNew(s: seq<int>, x: int, keys: seq<int>, counts: seq<nat>)
    requires Tallies(s, keys, counts) && x !in keys
    ensures Tallies(s + [x], keys + [x], counts + [1])
  {
    OccursWhenMember(s, x);
    forall j | 0 <= j < |keys + [x]| ensures Occurrences(s + [x], (keys + [x])[j]) == (counts + [1])[j] {
      OneMoreOccurrence(s, x, (keys + [x])[j]);
    }
  }

  /** The counting dictionaries: one count per distinct value, in order of first appearance. */
  method Tally(s: seq<int>) returns (keys: seq<int>, counts: seq<nat>)
    ensures Tallies(s, keys, counts) && SumOf(counts) == |s|
  {
    keys, counts := [], [];
    for k := 0 to |s|
      invariant Tallies(s[..k], keys, counts) && SumOf(counts) == k
    {
      assert s[..k + 1] == s[..k] + [s[k]];
      keys, counts := CountOne(s[..k], s[k], keys, counts);
    }
    assert s[..|s|] == s;
  }

  /** `counts[x] += 1`, from zero if `x` is new. */
  method CountOne(ghost s: seq<int>, x: int, keys: seq<int>, counts: seq<nat>)
    returns (keys': seq<int>, counts': seq<nat>)
    requires Tallies(s, keys, counts)
    ensures Tallies(s + [x], keys', counts') && SumOf(counts') == SumOf(counts) + 1
  {
    var i := IndexOf(keys, x);
    if i == |keys| {
      TallyNew(s, x, keys, counts);
      assert (counts + [1])[..|counts|] == counts;
      keys', counts' := keys + [x], counts + [1];
    } else {
      TallyKnown(s, x, keys, counts, i);
      SumOfUpdate(counts, i, counts[i] + 1);
      keys', counts' := keys, counts[i := counts[i] + 1];
    }
  }

  /** Where `x` stands; the length if it is not there. */
  method IndexOf(keys: seq<int>, x: int) returns (i: nat)
    ensures i <= |keys| && (i < |keys| ==> keys[i] == x) && (i == |keys| <==> x !in keys)
  {
    i := 0;
    while i < |keys| && keys[i] != x
      invariant i <= |keys| && forall j | 0 <= j < i :: keys[j] != x
    {
      i := i + 1;
    }
  }

  lemma {:induction false} SumOfUpdate(s: seq<nat>, i: nat, x: nat)
    requires i < |s|
    ensures SumOf(s[i := x]) == SumOf(s) - s[i] + x
  {
    var n := |s| - 1;
    if i == n {
      assert s[i := x][..n] == s[..n];
    } else {
      assert s[i := x][..n] == s[..n][i := x];
      SumOfUpdate(s[..n], i, x);
    }
  }

  /** `hour_histogram`. */
  method HourHistogram(events: seq<Event>) returns (histogram: array<nat>)
    requires forall e | e in events :: e.hour < HOURS
    ensures fresh(histogram) && histogram.Length == HOURS
    ensures forall h: nat | h < HOURS :: histogram[h] == HourCount(events, h)
    ensures SumOf(histogram[..]) == |events|
  {
    histogram := new nat[HOURS](_ => 0);
    ZeroSum(histogram[..]);
    for k := 0 to |events|
      invariant fresh(histogram)
      invariant forall h: nat | h < HOURS :: histogram[h] == HourCount(events[..k], h)
      invariant SumOf(histogram[..]) == k
    {
      assert events[..k + 1][..k] == events[..k];
      var hour := events[k].hour;
      ghost var before := histogram[..];
      SumOfUpdate(before, hour, before[hour] + 1);
      histogram[hour] := histogram[hour] + 1;
      assert histogram[..] == before[hour := before[hour] + 1];
    }
    assert events[..|events|] == events;
  }

  lemma {:induction false} ZeroSum(s: seq<nat>)
    requires forall i | 0 <= i < |s| :: s[i] == 0
    ensures SumOf(s) == 0
  {
    if s != [] {
      ZeroSum(s[..|s| - 1]);
    }
  }

  method MeanAndVariance(counts: seq<nat>) returns (mean: real, variance: real)
    requires counts != []
    ensures mean == Mean(Reals(counts)) && variance == Variance(Reals(counts))
  {
    ghost var r := Reals(counts);
    var sum := 0;
    for k := 0 to |counts|
      invariant sum == SumOf(counts[..k])
    {
      assert counts[..k + 1][..k] == counts[..k];
      sum := sum + counts[k];
    }
    assert counts[..|counts|] == counts;
    RealsTotal(counts);
    mean := Div(sum as real, |counts| as real);
    var spread := 0.0;
    for k := 0 to |counts|
      invariant spread == Spread(r[..k], mean)
    {
      assert r[..k + 1][..k] == r[..k];
      spread := spread + Dist(mean)(counts[k] as real);
    }
    assert r[..|counts|] == r;
    variance := Div(spread, |counts| as real);
  }

  /** What holds of the statistics of the events `own` of one key. */
  ghost predicate Describes(b: Stats, own: seq<Event>) {
    && own != [] && |b.histogram| == HOURS
    && (forall h: nat | h < HOURS :: b.histogram[h] == HourCount(own, h))
    && SumOf(b.histogram) == |own|
    && Mul(b.mean, b.sampleCount as real) == |own| as real
    && b.mean >= 1.0 && b.variance >= 0.0
    && (b.variance > 0.0 <==>
        exists x, y :: x in Days(own) && y in Days(own) && Occurrences(Days(own), x) != Occurrences(Days(own), y))
    && (exists days, counts ::
          && Tallies(Days(own), days, counts) && b.sampleCount == |days| && days != []
          && b.mean == Mean(Reals(counts))
          && b.variance == Div(Spread(Reals(counts), 0.0), |counts| as real) - Mul(b.mean, b.mean))
    && Mul(b.perHourMean, WINDOW_HOURS as real) == |own| as real
    && b.perHourVariance >= 0.0
    && (b.perHourVariance > 0.0 <==>
        exists x, y :: x in Hours(own) && y in Hours(own) && Occurrences(Hours(own), x) != Occurrences(Hours(own), y))
  }

  // ---- The same, from the events' own fields ----

  /** How many of the events fall on the day. */
  function OnDay(own: seq<Event>, day: int): nat {
    |Sequences.Filter((e: Event) => e.day == day, own)|
  }

  /** How many fall in the hour of that day. */
  function InHourOf(own: seq<Event>, day: int, hour: nat): nat {
    |Sequences.Filter((e: Event) => e.day == day && e.hour == hour, own)|
  }

  /** All hours that have any have equally many. */
  predicate EvenHours(own: seq<Event>) {
    forall d, e | d in own && e in own :: InHourOf(own, d.day, d.hour) == InHourOf(own, e.day, e.hour)
  }

  /** All days that have any have equally many. */
  predicate EvenDays(own: seq<Event>) {
    forall d, e | d in own && e in own :: OnDay(own, d.day) == OnDay(own, e.day)
  }

  /** The record counts these events by hour of the day; the mean is per day that has any, the hourly one over the
      window; neither deviates exactly when all days, or all hours, that have any have equally many. */
  ghost predicate Summarizes(b: Stats, own: seq<Event>) {
    && own != [] && |b.histogram| == 24
    && (forall h: nat | h < 24 :: b.histogram[h] == |Sequences.Filter((e: Event) => e.hour == h, own)|)
    && b.sampleCount == |set e | e in own :: e.day|
    && Mul(b.mean, b.sampleCount as real) == |own| as real
    && Mul(b.perHourMean, 720.0) == |own| as real
    && b.variance >= 0.0 && b.perHourVariance >= 0.0
    && (b.variance == 0.0 <==> EvenDays(own)) && (b.perHourVariance == 0.0 <==> EvenHours(own))
  }

  lemma {:induction false} DaysCount(own: seq<Event>, day: int)
    ensures Occurrences(Days(own), day) == OnDay(own, day)
    ensures day in Days(own) <==> exists e | e in own :: e.day == day
  {
    if own != [] {
      var n := |own| - 1;
      assert own == own[..n] + [own[n]];
      DaysCount(own[..n], day);
      Sequences.CountStep(Equals(day), Days(own[..n]), own[n].day);
      Sequences.FilterStep((e: Event) => e.day == day, own[..n], own[n]);
    }
  }

  /** The day and the hour are told by the hour of the calendar. */
  lemma HourTells(e: Event, day: int, hour: nat)
    requires e.hour < HOURS && hour < HOURS
    ensures e.day * HOURS + e.hour == day * HOURS + hour <==> e.day == day && e.hour == hour
  {
  }

  lemma {:induction false} HoursCount(own: seq<Event>, day: int, hour: nat)
    requires hour < HOURS && forall e | e in own :: e.hour < HOURS
    ensures Occurrences(Hours(own), day * HOURS + hour) == InHourOf(own, day, hour)
    decreases |own|
  {
    if own != [] {
      var n := |own| - 1;
      assert own == own[..n] + [own[n]];
      assert own[n] in own;
      HoursCount(own[..n], day, hour);
      HourTells(own[n], day, hour);
      Sequences.CountStep(Equals(day * HOURS + hour), Hours(own[..n]), own[n].day * HOURS + own[n].hour);
      Sequences.FilterStep((e: Event) => e.day == day && e.hour == hour, own[..n], own[n]);
    }
  }

  lemma {:induction false} HoursMet(own: seq<Event>, x: int)
    ensures x in Hours(own) <==> exists e | e in own :: e.day * HOURS + e.hour == x
  {
    if own != [] {
      var n := |own| - 1;
      assert own == own[..n] + [own[n]];
      HoursMet(own[..n], x);
    }
  }

  lemma HourCounted(own: seq<Event>, h: nat)
    ensures HourCount(own, h) == |Sequences.Filter((e: Event) => e.hour == h, own)|
  {
    Sequences.CountAsFilter(InHour(h), own);
    Sequences.FilterSame(InHour(h), (e: Event) => e.hour == h, own);
  }

  lemma DistinctDays(own: seq<Event>, days: seq<int>)
    requires forall i, j | 0 <= i < j < |days| :: days[i] != days[j]
    requires forall x :: x in Days(own) <==> x in days
    ensures |days| == |set e | e in own :: e.day|
  {
    var met := set e | e in own :: e.day;
    forall x ensures x in met <==> x in days {
      DaysCount(own, x);
    }
    assert met == set x | x in days;
    Sequences.SetOfDistinct(days);
  }

  lemma SameOnAllDays(own: seq<Event>)
    ensures EquallyOften(Days(own)) <==> EvenDays(own)
  {
    forall x ensures Occurrences(Days(own), x) == OnDay(own, x)
             ensures x in Days(own) <==> exists e | e in own :: e.day == x
    {
      DaysCount(own, x);
    }
  }

  lemma HoursOfTwo(own: seq<Event>, d: Event, e: Event)
    requires (forall e | e in own :: e.hour < HOURS) && d in own && e in own
    ensures d.day * HOURS + d.hour in Hours(own) && e.day * HOURS + e.hour in Hours(own)
    ensures Occurrences(Hours(own), d.day * HOURS + d.hour) == Occurrences(Hours(own), e.day * HOURS + e.hour) <==>
            InHourOf(own, d.day, d.hour) == InHourOf(own, e.day, e.hour)
  {
    HoursMet(own, d.day * HOURS + d.hour);
    HoursMet(own, e.day * HOURS + e.hour);
    HoursCount(own, d.day, d.hour);
    HoursCount(own, e.day, e.hour);
  }

  predicate EquallyOften(s: seq<int>) {
    forall x, y | x in s && y in s :: Occurrences(s, x) == Occurrences(s, y)
  }

  lemma SameInAllHours(own: seq<Event>)
    requires forall e | e in own :: e.hour < HOURS
    ensures EquallyOften(Hours(own)) <==> EvenHours(own)
  {
    if EquallyOften(Hours(own)) {
      forall d, e | d in own && e in own ensures InHourOf(own, d.day, d.hour) == InHourOf(own, e.day, e.hour) {
        HoursOfTwo(own, d, e);
      }
    }
    if EvenHours(own) {
      EvenHoursEqual(own);
    }
  }

  /** How often an hour of the calendar occurs is how many events fall in it. */
  lemma HourTally(own: seq<Event>, x: int) returns (d: Event)
    requires x in Hours(own) && forall e | e in own :: e.hour < HOURS
    ensures d in own && Occurrences(Hours(own), x) == InHourOf(own, d.day, d.hour)
  {
    HoursMet(own, x);
    d :| d in own && d.day * HOURS + d.hour == x;
    HoursCount(own, d.day, d.hour);
  }

  lemma EvenPair(own: seq<Event>, x: int, y: int)
    requires EvenHours(own) && forall e | e in own :: e.hour < HOURS
    requires x in Hours(own) && y in Hours(own)
    ensures Occurrences(Hours(own), x) == Occurrences(Hours(own), y)
  {
    var d := HourTally(own, x);
    var e := HourTally(own, y);
  }

  lemma EvenHoursEqual(own: seq<Event>)
    requires EvenHours(own) && forall e | e in own :: e.hour < HOURS
    ensures EquallyOften(Hours(own))
  {
    forall x, y | x in Hours(own) && y in Hours(own) ensures Occurrences(Hours(own), x) == Occurrences(Hours(own), y) {
      EvenPair(own, x, y);
    }
  }

  lemma DescribedIsSummary(b: Stats, own: seq<Event>)
    requires Describes(b, own) && forall e | e in own :: e.hour < HOURS
    ensures Summarizes(b, own)
  {
    forall h: nat | h < 24 ensures b.histogram[h] == |Sequences.Filter((e: Event) => e.hour == h, own)| {
      HourCounted(own, h);
    }
    var days, counts :| Tallies(Days(own), days, counts) && b.sampleCount == |days|;
    DistinctDays(own, days);
    SameOnAllDays(own);
    SameInAllHours(own);
  }

  /** The statistics of one key. */
  method StatsFor(key: ActionKey, own: seq<Event>) returns (b: Stats)
    requires own != [] && forall e | e in own :: e.hour < HOURS
    ensures b.key == key && Describes(b, own) && Summarizes(b, own)
  {
    var dates := Days(own);
    var days, counts := Tally(dates);
    TallyFacts(dates, days, counts);
    var mean, variance := MeanAndVariance(counts);
    var histogram := HourHistogram(own);
    var hours := Hours(own);
    var hourKeys, hourCounts := Tally(hours);
    TallyFacts(hours, hourKeys, hourCounts);
    var hMean, hVariance := MeanAndVariance(hourCounts);
    Quotient(|own| as real, WINDOW_HOURS as real);
    b := Stats(key, mean, variance, |counts|, histogram[..], Div(|own| as real, WINDOW_HOURS as real), hVariance);
    DescribedIsSummary(b, own);
  }

  lemma {:induction false} OfFacts(events: seq<Event>, key: ActionKey)
    ensures key in Keys(events) <==> Of(events, key) != []
    ensures forall e | e in Of(events, key) :: e in events && KeyOf(e) == key
    ensures NoRepeats(Keys(events))
  {
    if events != [] {
      var n := |events| - 1;
      assert events == events[..n] + [events[n]];
      OfFacts(events[..n], key);
    }
  }

  predicate NoRepeats(keys: seq<ActionKey>) {
    forall i, j | 0 <= i < j < |keys| :: keys[i] != keys[j]
  }

  /** The grouping dictionary. */
  method Group(events: seq<Event>) returns (order: seq<ActionKey>, groups: map<ActionKey, seq<Event>>)
    ensures order == Keys(events) && forall key | key in order :: key in groups && groups[key] == Of(events, key)
  {
    order, groups := [], map[];
    for k := 0 to |events|
      invariant order == Keys(events[..k])
      invariant forall key | key in order :: key in groups && groups[key] == Of(events[..k], key)
    {
      assert events[..k + 1][..k] == events[..k];
      var key := KeyOf(events[k]);
      if key !in order {
        OfFacts(events[..k], key);
        order, groups := order + [key], groups[key := [events[k]]];
      } else {
        groups := groups[key := groups[key] + [events[k]]];
      }
    }
    assert events[..|events|] == events;
  }

  ghost predicate Entry(b: Stats, key: ActionKey, events: seq<Event>) {
    b.key == key && Describes(b, Of(events, key))
  }

  /** The records of the keys met, in order. */
  ghost predicate Listed(baselines: seq<Stats>, events: seq<Event>) {
    && |baselines| == |Keys(events)|
    && forall i | 0 <= i < |baselines| :: Entry(baselines[i], Keys(events)[i], events)
  }

  /** The body of the pipeline for one identity: one record per action and resource met, each describing
      exactly that key's events. */
  method ComputeBaselines(events: seq<Event>) returns (baselines: seq<Stats>)
    requires forall e | e in events :: e.hour < HOURS
    ensures Listed(baselines, events) && Covers(baselines, events)
  {
    var order, groups := Group(events);
    baselines := [];
    for k := 0 to |order|
      invariant |baselines| == k
      invariant forall i | 0 <= i < k :: Entry(baselines[i], order[i], events)
    {
      var b := OneBaseline(events, order[k], groups);
      baselines := baselines + [b];
    }
    ListedCovers(baselines, events);
  }

  method OneBaseline(events: seq<Event>, key: ActionKey, groups: map<ActionKey, seq<Event>>) returns (b: Stats)
    requires forall e | e in events :: e.hour < HOURS
    requires key in Keys(events) && key in groups && groups[key] == Of(events, key)
    ensures Entry(b, key, events)
  {
    OfFacts(events, key);
    b := StatsFor(key, groups[key]);
  }

  function Same(key: ActionKey): Event -> bool {
    (e: Event) => e.action == key.action && e.resource == key.resource
  }

  /** There is one record for the action and resource of each event, and it sums up the events with both. */
  ghost predicate Covers(baselines: seq<Stats>, events: seq<Event>) {
    && (forall b | b in baselines :: Summarizes(b, Sequences.Filter(Same(b.key), events)))
    && (forall e | e in events :: exists b | b in baselines :: b.key.action == e.action && b.key.resource == e.resource)
    && (forall i, j | 0 <= i < j < |baselines| :: baselines[i].key != baselines[j].key)
  }

  lemma ListedCovers(baselines: seq<Stats>, events: seq<Event>)
    requires Listed(baselines, events) && forall e | e in events :: e.hour < HOURS
    ensures Covers(baselines, events)
  {
    OfFacts(events, ActionKey("", ""));
    EveryKey(events);
    forall b | b in baselines ensures Summarizes(b, Sequences.Filter(Same(b.key), events)) {
      var i :| 0 <= i < |baselines| && baselines[i] == b;
      OfFacts(events, b.key);
      DescribedIsSummary(b, Of(events, b.key));
      Sequences.FilterSame(HasKey(b.key), Same(b.key), events);
    }
    forall e | e in events
      ensures exists b | b in baselines :: b.key.action == e.action && b.key.resource == e.resource
    {
      var i :| 0 <= i < |baselines| && Keys(events)[i] == KeyOf(e);
      assert baselines[i] in baselines;
    }
  }

  lemma {:induction false} EveryKey(events: seq<Event>)
    ensures forall e | e in events :: KeyOf(e) in Keys(events)
  {
    if events != [] {
      var n := |events| - 1;
      assert events == events[..n] + [events[n]];
      EveryKey(events[..n]);
    }
  }
}
