/** Hourly, daily and weekly activity features. Times are microseconds since 0001-01-01T00:00Z, a Monday. */
module FeatureAggregation {
  import opened Sequences

  const HOUR: nat := 3600 * 1000000
  const DAY: nat := 24 * HOUR
  const WEEK: nat := 7 * DAY

  datatype Activity = Activity(tenant: string, principal: string, action: string, at: nat, resource: string,
                               result: string)

  datatype Bucket = Hour | Day | Week

  datatype BucketKey = BucketKey(principal: string, action: string, bucket: Bucket, start: nat)

  datatype Feature = Feature(tenant: string, count: nat, success: nat, failure: nat, distinct: nat, first: nat,
                             last: nat)

  function Width(b: Bucket): nat {
    match b
    case Hour => HOUR
    case Day => DAY
    case Week => WEEK
  }

  /** `_bucket_start`: minutes and below dropped; hours too; days back to Monday. */
  function BucketStart(at: nat, b: Bucket): nat {
    if b == Hour then at - at % HOUR
    else
      var day := at - at % DAY;
      if b == Day then day else day - (day / DAY % 7) * DAY
  }

  lemma BucketStartIs(at: nat, b: Bucket)
    ensures BucketStart(at, b) == at - at % Width(b)
  {
    if b == Week {
      var d := at / DAY;
      assert at - at % DAY == d * DAY;
      assert (at - at % DAY) / DAY == d;
      assert at / WEEK == d / 7;
    }
  }

  lemma Separated(p: nat, q: nat, w: nat, r: nat)
    requires r < w
    ensures p * w == q * w <==> q * w <= p * w + r < q * w + w
  {
    if p < q {
      assert (p + 1) * w <= q * w;
    } else if q < p {
      assert (q + 1) * w <= p * w;
    }
  }

  lemma Split(x: nat, w: nat)
    requires w > 0
    ensures x == x / w * w + x % w
  {
  }

  lemma Aligned(at: nat, w: nat, start: nat)
    requires w > 0 && start % w == 0
    ensures at - at % w == start <==> start <= at < start + w
  {
    Split(at, w);
    Split(start, w);
    Separated(at / w, start / w, w, at % w);
  }

  lemma AwayFromZero(d: int, w: nat)
    ensures d >= 1 ==> d * w >= w
    ensures d <= -1 ==> d * w <= 0 - w
  {
  }

  lemma MultipleOf(q: nat, w: nat)
    requires w > 0
    ensures q * w % w == 0
  {
    var t := q * w / w;
    Split(q * w, w);
    assert (q - t) * w == q * w % w;
    AwayFromZero(q - t, w);
  }

  lemma Multiple(at: nat, w: nat)
    requires w > 0
    ensures (at - at % w) % w == 0
  {
    Split(at, w);
    MultipleOf(at / w, w);
  }

  /** A bucket starts at a multiple of its width and holds the times from there up to its end. */
  lemma BucketHolds(at: nat, b: Bucket, start: nat)
    requires start % Width(b) == 0
    ensures BucketStart(at, b) % Width(b) == 0
    ensures BucketStart(at, b) == start <==> start <= at < start + Width(b)
  {
    BucketStartIs(at, b);
    Aligned(at, Width(b), start);
    Multiple(at, Width(b));
  }

  function KeyOf(e: Activity, b: Bucket): BucketKey {
    BucketKey(e.principal, e.action, b, BucketStart(e.at, b))
  }

  function InBucket(key: BucketKey): Activity -> bool {
    e => KeyOf(e, key.bucket) == key
  }

  /** The events of one bucket, in order. */
  function Matching(events: seq<Activity>, key: BucketKey): seq<Activity> {
    Filter(InBucket(key), events)
  }

  function Any(): Activity -> bool {
    e => true
  }

  function Succeeded(): Activity -> bool {
    (e: Activity) => e.result == "success"
  }

  function Failed(): Activity -> bool {
    (e: Activity) => e.result != "success"
  }

  function Time(): Activity -> nat {
    (e: Activity) => e.at
  }

  function Resources(events: seq<Activity>): set<string> {
    set e | e in events && e.resource != "" :: e.resource
  }

  /** The feature record of the events of one bucket. */
  function FeatureOf(own: seq<Activity>): Feature
    requires own != []
  {
    Feature(own[0].tenant, |own|, Count(Succeeded(), own), Count(Failed(), own), |Resources(own)|, MinOf(Time(), own),
            MaxOf(Time(), own))
  }

  // ---- The aggregator ----

  function Rank(b: Bucket): nat {
    match b
    case Hour => 0
    case Day => 1
    case Week => 2
  }

  /** The events counted under a key while the buckets of event `k` are being visited, `rank` of them done. */
  function Counted(events: seq<Activity>, k: nat, rank: nat, key: BucketKey): seq<Activity>
    requires k < |events|
  {
    Matching(if Rank(key.bucket) < rank then events[..k + 1] else events[..k], key)
  }

  ghost predicate Holds(aggregates: map<BucketKey, Feature>, resources: map<BucketKey, set<string>>, key: BucketKey,
                        own: seq<Activity>) {
    && (key in aggregates <==> own != [])
    && (key in resources <==> own != [])
    && (own != [] ==> aggregates[key] == FeatureOf(own) && resources[key] == Resources(own))
  }

  /** The record of a bucket met for the first time, before its event is counted. */
  function Blank(e: Activity): Feature {
    Feature(e.tenant, 0, 0, 0, 0, e.at, e.at)
  }

  function Advanced(f: Feature, e: Activity, distinct: nat): Feature {
    Feature(f.tenant, f.count + 1,
            f.success + (if e.result == "success" then 1 else 0),
            f.failure + (if e.result == "success" then 0 else 1), distinct,
            if e.at < f.first then e.at else f.first, if e.at > f.last then e.at else f.last)
  }

  lemma ResourcesStep(own: seq<Activity>, e: Activity)
    ensures Resources(own + [e]) == Resources(own) + (if e.resource != "" then {e.resource} else {})
  {
    var more := own + [e];
    assert e in more;
    forall d | d in own ensures d in more {
    }
  }

  /** Counting one more event is advancing the record. */
  lemma FeatureStep(own: seq<Activity>, e: Activity)
    ensures FeatureOf(own + [e]) ==
            Advanced(if own == [] then Blank(e) else FeatureOf(own), e, |Resources(own + [e])|)
  {
    Sequences.CountStep(Succeeded(), own, e);
    Sequences.CountStep(Failed(), own, e);
    ExtremesStep(Time(), own, e);
    assert own != [] ==> (own + [e])[0] == own[0];
  }

  /** What the dictionaries hold for a bucket, or start from. */
  lemma CountedStep(own: seq<Activity>, e: Activity, current: Feature, before: set<string>, after: set<string>)
    requires if own == [] then current == Blank(e) && before == {}
             else current == FeatureOf(own) && before == Resources(own)
    requires after == before + (if e.resource != "" then {e.resource} else {})
    ensures after == Resources(own + [e]) && FeatureOf(own + [e]) == Advanced(current, e, |after|)
  {
    assert own == [] ==> Resources(own) == {};
    ResourcesStep(own, e);
    FeatureStep(own, e);
  }

  /** One event counted under one of its keys. */
  method CountEvent(event: Activity, key: BucketKey, aggregates: map<BucketKey, Feature>,
                    resources: map<BucketKey, set<string>>, ghost own: seq<Activity>)
    returns (feature: Feature, seen: set<string>)
    requires Holds(aggregates, resources, key, own)
    ensures feature == FeatureOf(own + [event]) && seen == Resources(own + [event])
  {
    var current := if key in aggregates then aggregates[key] else Feature(event.tenant, 0, 0, 0, 0, event.at, event.at);
    seen := if key in resources then resources[key] else {};
    ghost var before := seen;
    if event.resource != "" {
      seen := seen + {event.resource};
    }
    CountedStep(own, event, current, before, seen);
    feature := Feature(current.tenant, current.count + 1,
                       current.success + (if event.result == "success" then 1 else 0),
                       current.failure + (if event.result != "success" then 1 else 0),
                       |seen|,
                       if event.at < current.first then event.at else current.first,
                       if event.at > current.last then event.at else current.last);
  }

  /** Visiting bucket `rank` of event `k` adds the event under one key and changes no other. */
  lemma VisitBucket(events: seq<Activity>, k: nat, b: Bucket, next: nat, other: BucketKey)
    requires k < |events| && next == Rank(b) + 1
    ensures var key := KeyOf(events[k], b);
            Counted(events, k, next, other) ==
            if other == key then Counted(events, k, Rank(b), key) + [events[k]] else Counted(events, k, Rank(b), other)
  {
    assert events[..k + 1] == events[..k] + [events[k]];
    FilterStep(InBucket(other), events[..k], events[k]);
  }

  // ---- What a record says of the events in its bucket's span ----

  /** The event is of the key's principal and action and falls into the hour, day or week from its start on. */
  predicate Belongs(e: Activity, key: BucketKey) {
    && e.principal == key.principal && e.action == key.action && key.start <= e.at
    && (key.bucket == Hour ==> key.start % 3600000000 == 0 && e.at < key.start + 3600000000)
    && (key.bucket == Day ==> key.start % 86400000000 == 0 && e.at < key.start + 86400000000)
    && (key.bucket == Week ==> key.start % 604800000000 == 0 && e.at < key.start + 604800000000)
  }

  function In(key: BucketKey): Activity -> bool {
    e => Belongs(e, key)
  }

  /** The record counts these events by result and by distinct resource, has the first one's tenant, and its two times
      are the earliest and the latest of theirs. */
  ghost predicate Summarizes(f: Feature, own: seq<Activity>) {
    && own != [] && f.tenant == own[0].tenant && f.count == |own|
    && f.success == |Filter((e: Activity) => e.result == "success", own)| && f.failure == f.count - f.success
    && f.distinct == |set e | e in own && e.resource != "" :: e.resource|
    && (forall e | e in own :: f.first <= e.at <= f.last)
    && (exists e | e in own :: e.at == f.first) && (exists e | e in own :: e.at == f.last)
  }

  lemma BelongsExactly(e: Activity, key: BucketKey)
    ensures KeyOf(e, key.bucket) == key <==> Belongs(e, key)
  {
    BucketHolds(e.at, key.bucket, 0);
    if key.start % Width(key.bucket) == 0 {
      BucketHolds(e.at, key.bucket, key.start);
    }
  }

  lemma MatchingBelong(events: seq<Activity>, key: BucketKey)
    ensures Matching(events, key) == Filter(In(key), events)
  {
    forall e | e in events ensures InBucket(key)(e) == In(key)(e) {
      BelongsExactly(e, key);
    }
    FilterSame(InBucket(key), In(key), events);
  }

  lemma FeatureSummarizes(own: seq<Activity>)
    requires own != []
    ensures Summarizes(FeatureOf(own), own)
  {
    var good := (e: Activity) => e.result == "success";
    OutcomesSplit(own);
    CountAsFilter(Succeeded(), own);
    FilterSame(Succeeded(), good, own);
    Extremes(Time(), own);
  }

  method Aggregate(events: seq<Activity>) returns (aggregates: map<BucketKey, Feature>)
    ensures forall key :: key in aggregates <==> exists e :: e in events && Belongs(e, key)
    ensures forall key | key in aggregates :: Summarizes(aggregates[key], Filter(In(key), events))
    ensures forall key :: key in aggregates <==> Matching(events, key) != []
    ensures forall key | key in aggregates :: aggregates[key] == FeatureOf(Matching(events, key))
  {
    aggregates := map[];
    var resources: map<BucketKey, set<string>> := map[];
    var buckets := [Hour, Day, Week];
    for k := 0 to |events|
      invariant forall key :: Holds(aggregates, resources, key, Matching(events[..k], key))
    {
      var event := events[k];
      for i := 0 to 3
        invariant forall key :: Holds(aggregates, resources, key, Counted(events, k, i, key))
      {
        var key := KeyOf(event, buckets[i]);
        var feature, seen := CountEvent(event, key, aggregates, resources, Counted(events, k, i, key));
        aggregates, resources := aggregates[key := feature], resources[key := seen];
        ghost var next := i + 1;
        forall other ensures Holds(aggregates, resources, other, Counted(events, k, next, other)) {
          VisitBucket(events, k, buckets[i], next, other);
        }
      }
      ghost var upToHere := events[..k + 1];
      forall key ensures Holds(aggregates, resources, key, Matching(upToHere, key)) {
        assert Holds(aggregates, resources, key, Counted(events, k, 3, key));
      }
    }
    assert events[..|events|] == events;
    assert forall key :: Holds(aggregates, resources, key, Matching(events, key));
    forall key
      ensures key in aggregates ==> Summarizes(aggregates[key], Filter(In(key), events))
      ensures key in aggregates <==> exists e :: e in events && Belongs(e, key)
    {
      RecordMeans(events, key);
      assert Holds(aggregates, resources, key, Matching(events, key));
    }
  }

  lemma RecordMeans(events: seq<Activity>, key: BucketKey)
    ensures Matching(events, key) != [] <==> exists e :: e in events && Belongs(e, key)
    ensures Matching(events, key) != [] ==> Summarizes(FeatureOf(Matching(events, key)), Filter(In(key), events))
  {
    MatchingBelong(events, key);
    var own := Matching(events, key);
    forall e ensures e in own <==> e in events && Belongs(e, key) {
      FilterMember(In(key), events, e);
    }
    if own != [] {
      FeatureSummarizes(own);
      assert own[0] in own;
    }
  }

  // ---- What the buckets say ----

  lemma {:induction false} OutcomesSplit(events: seq<Activity>)
    ensures Count(Succeeded(), events) + Count(Failed(), events) == |events| == Count(Any(), events)
  {
    if events != [] {
      OutcomesSplit(events[..|events| - 1]);
    }
  }

  lemma {:induction false} FewResources(events: seq<Activity>)
    ensures |Resources(events)| <= |events|
  {
    if events == [] {
      assert Resources(events) == {};
    } else {
      var n := |events| - 1;
      assert events == events[..n] + [events[n]];
      FewResources(events[..n]);
      ResourcesStep(events[..n], events[n]);
    }
  }

  /** Every feature is consistent: successes and failures make up the count, resources do not exceed it, and
      its events fall into its bucket. */
  lemma FeatureBounds(events: seq<Activity>, key: BucketKey)
    requires Matching(events, key) != []
    ensures var f := FeatureOf(Matching(events, key));
            && f.count == f.success + f.failure > 0 && f.distinct <= f.count
            && key.start <= f.first <= f.last < key.start + Width(key.bucket)
            && key.start % Width(key.bucket) == 0
  {
    var own := Matching(events, key);
    OutcomesSplit(own);
    FewResources(own);
    Extremes(Time(), own);
    forall e | e in own
      ensures key.start <= e.at < key.start + Width(key.bucket) && key.start % Width(key.bucket) == 0
    {
      FilterMember(InBucket(key), events, e);
      BucketHolds(e.at, key.bucket, 0);
      BucketHolds(e.at, key.bucket, key.start);
    }
    assert own[0] in own;
  }

  // ---- Hours add up to days, days to weeks ----

  function Narrower(b: Bucket): Bucket
    requires b != Hour
  {
    if b == Day then Hour else Day
  }

  /** How many narrower buckets a bucket spans. */
  function Parts(b: Bucket): nat
    requires b != Hour
  {
    if b == Day then 24 else 7
  }

  function Part(key: BucketKey, j: nat): BucketKey
    requires key.bucket != Hour
  {
    key.(bucket := Narrower(key.bucket), start := key.start + j * Width(Narrower(key.bucket)))
  }

  /** The tallies of the first `n` narrower buckets together. */
  function PartsTally(events: seq<Activity>, key: BucketKey, which: Activity -> bool, n: nat): nat
    requires key.bucket != Hour
  {
    SumTo(PartTally(events, key, which), n)
  }

  /** The tally of the narrower bucket `k`. */
  function PartTally(events: seq<Activity>, key: BucketKey, which: Activity -> bool): nat -> nat
    requires key.bucket != Hour
  {
    (k: nat) => Count(which, Matching(events, Part(key, k)))
  }

  function SumTo(f: nat -> nat, n: nat): nat {
    if n == 0 then 0 else SumTo(f, n - 1) + f(n - 1)
  }

  /** At `k`, `f` exceeds `g` by one if `inside` sets in there, which it does at most once. */
  predicate SetsIn(f: nat -> nat, g: nat -> nat, inside: nat -> bool, hit: bool, k: nat) {
    && (inside(k) ==> inside(k + 1))
    && f(k) == g(k) + if inside(k + 1) && !inside(k) && hit then 1 else 0
  }

  lemma {:induction false} SumsDiffer(f: nat -> nat, g: nat -> nat, inside: nat -> bool, hit: bool, n: nat)
    requires !inside(0) && forall k: nat :: SetsIn(f, g, inside, hit, k)
    ensures SumTo(f, n) == SumTo(g, n) + if inside(n) && hit then 1 else 0
    decreases n
  {
    if n > 0 {
      SumsDiffer(f, g, inside, hit, n - 1);
      assert SetsIn(f, g, inside, hit, n - 1);
    }
  }

  /** The event lies in one of the first `n` parts. */
  predicate InParts(e: Activity, key: BucketKey, n: nat)
    requires key.bucket != Hour
  {
    n > 0 && (InParts(e, key, n - 1) || KeyOf(e, Narrower(key.bucket)) == Part(key, n - 1))
  }

  /** The event lies in the span of the first `n` parts. */
  predicate InSpan(e: Activity, key: BucketKey, n: nat)
    requires key.bucket != Hour
  {
    e.principal == key.principal && e.action == key.action &&
    key.start <= e.at < key.start + n * Width(Narrower(key.bucket))
  }

  lemma PartStart(key: BucketKey, j: nat)
    requires key.bucket != Hour && key.start % Width(key.bucket) == 0
    ensures Part(key, j).start % Width(Narrower(key.bucket)) == 0
  {
    if key.bucket == Day {
      Split(key.start, DAY);
      MultipleOf(key.start / DAY * 24 + j, HOUR);
      assert Part(key, j).start == (key.start / DAY * 24 + j) * HOUR;
    } else {
      Split(key.start, WEEK);
      MultipleOf(key.start / WEEK * 7 + j, DAY);
      assert Part(key, j).start == (key.start / WEEK * 7 + j) * DAY;
    }
  }

  /** The span of the first `n + 1` parts is that of the first `n` and the next part. */
  lemma PartHolds(e: Activity, key: BucketKey, n: nat)
    requires key.bucket != Hour && key.start % Width(key.bucket) == 0
    ensures InSpan(e, key, n + 1) <==> InSpan(e, key, n) || KeyOf(e, Narrower(key.bucket)) == Part(key, n)
    ensures !(InSpan(e, key, n) && KeyOf(e, Narrower(key.bucket)) == Part(key, n))
  {
    var w := Width(Narrower(key.bucket));
    PartStart(key, n);
    BucketHolds(e.at, Narrower(key.bucket), Part(key, n).start);
    assert (n + 1) * w == n * w + w;
  }

  lemma {:induction false} PartsSpan(e: Activity, key: BucketKey, n: nat)
    requires key.bucket != Hour && key.start % Width(key.bucket) == 0
    ensures InParts(e, key, n) <==> InSpan(e, key, n)
    decreases n
  {
    if n > 0 {
      PartsSpan(e, key, n - 1);
      PartHolds(e, key, n - 1);
    }
  }

  lemma MatchingStep(events: seq<Activity>, e: Activity, key: BucketKey, which: Activity -> bool)
    ensures Count(which, Matching(events + [e], key)) ==
            Count(which, Matching(events, key)) + (if KeyOf(e, key.bucket) == key && which(e) then 1 else 0)
  {
    FilterStep(InBucket(key), events, e);
    Sequences.CountStep(which, Matching(events, key), e);
  }

  lemma OnePart(events: seq<Activity>, e: Activity, key: BucketKey, which: Activity -> bool, n: nat)
    requires key.bucket != Hour && key.start % Width(key.bucket) == 0
    ensures InParts(e, key, n) ==> InParts(e, key, n + 1)
    ensures Count(which, Matching(events + [e], Part(key, n))) ==
            Count(which, Matching(events, Part(key, n))) +
            (if InParts(e, key, n + 1) && !InParts(e, key, n) && which(e) then 1 else 0)
  {
    PartsSpan(e, key, n);
    PartHolds(e, key, n);
    MatchingStep(events, e, Part(key, n), which);
  }

  lemma OneMoreEvent(events: seq<Activity>, e: Activity, key: BucketKey, which: Activity -> bool, n: nat)
    requires key.bucket != Hour && key.start % Width(key.bucket) == 0
    ensures PartsTally(events + [e], key, which, n) ==
            PartsTally(events, key, which, n) + (if InParts(e, key, n) && which(e) then 1 else 0)
  {
    var f, g := PartTally(events + [e], key, which), PartTally(events, key, which);
    var inside := (k: nat) => InParts(e, key, k);
    forall k: nat ensures SetsIn(f, g, inside, which(e), k) {
      OnePart(events, e, key, which, k);
    }
    SumsDiffer(f, g, inside, which(e), n);
  }

  /** The parts of a bucket together hold what the bucket holds. */
  lemma {:induction false} PartsAddUp(events: seq<Activity>, key: BucketKey, which: Activity -> bool)
    requires key.bucket != Hour && key.start % Width(key.bucket) == 0
    ensures Count(which, Matching(events, key)) == PartsTally(events, key, which, Parts(key.bucket))
    decreases |events|
  {
    if events == [] {
      NoEvents(key, which, Parts(key.bucket));
    } else {
      var n := |events| - 1;
      var e, init := events[n], events[..n];
      assert events == init + [e];
      PartsAddUp(init, key, which);
      OneMoreEvent(init, e, key, which, Parts(key.bucket));
      BucketHolds(e.at, key.bucket, key.start);
      MatchingStep(init, e, key, which);
      PartsSpan(e, key, Parts(key.bucket));
      assert Parts(key.bucket) * Width(Narrower(key.bucket)) == Width(key.bucket);
    }
  }

  lemma NoEvents(key: BucketKey, which: Activity -> bool, n: nat)
    requires key.bucket != Hour
    ensures PartsTally([], key, which, n) == 0
  {
    var f := PartTally([], key, which);
    assert forall k: nat :: f(k) == 0;
    SumOfNothing(f, n);
  }

  lemma {:induction false} SumOfNothing(f: nat -> nat, n: nat)
    requires forall k: nat :: f(k) == 0
    ensures SumTo(f, n) == 0
    decreases n
  {
    if n > 0 {
      SumOfNothing(f, n - 1);
    }
  }

  /** A day's count, successes and failures are the sums over its 24 hours, a week's over its seven days. */
  lemma BucketsAddUp(events: seq<Activity>, key: BucketKey)
    requires key.bucket != Hour && Matching(events, key) != []
    ensures var f := FeatureOf(Matching(events, key));
            && f.count == PartsTally(events, key, Any(), Parts(key.bucket))
            && f.success == PartsTally(events, key, Succeeded(), Parts(key.bucket))
            && f.failure == PartsTally(events, key, Failed(), Parts(key.bucket))
  {
    FeatureBounds(events, key);
    PartsAddUp(events, key, Any());
    PartsAddUp(events, key, Succeeded());
    PartsAddUp(events, key, Failed());
    OutcomesSplit(Matching(events, key));
  }

  // ---- The order of the events ----

  predicate OneTenant(events: seq<Activity>) {
    forall d, e | d in events && e in events :: d.tenant == e.tenant
  }

  predicate Rearranged(a: seq<Activity>, b: seq<Activity>) {
    multiset(a) == multiset(b)
  }

  /** The features depend on which events there are, not on their order, up to the tenant a record is labelled
      with. */
  lemma OrderDoesNotMatter(a: seq<Activity>, b: seq<Activity>, key: BucketKey)
    requires Rearranged(a, b)
    ensures multiset(Matching(a, key)) == multiset(Matching(b, key))
    ensures Matching(a, key) != [] <==> Matching(b, key) != []
    ensures Matching(a, key) != [] ==>
              FeatureOf(Matching(a, key)).(tenant := "") == FeatureOf(Matching(b, key)).(tenant := "")
  {
    var x, y := Matching(a, key), Matching(b, key);
    FilterArrangement(InBucket(key), a, b);
    CountArrangement(Succeeded(), x, y);
    CountArrangement(Failed(), x, y);
    forall e ensures e in x <==> e in y {
      Sequences.SameMembers(x, y, e);
    }
    if x != [] {
      ExtremesArrangement(Time(), x, y);
      assert Resources(x) == Resources(y);
    }
  }

  /** Another arrangement of the events gives the bucket another record. */
  ghost predicate RecordVaries(a: seq<Activity>, key: BucketKey, b: seq<Activity>)
    requires Matching(a, key) != []
  {
    Rearranged(a, b) && (Matching(b, key) == [] || FeatureOf(Matching(b, key)) != FeatureOf(Matching(a, key)))
  }

  /** The record of a bucket is the same for every order of the events if and only if the bucket's events belong to
      one tenant; otherwise the first of them decides the label. */
  lemma TenantFollowsOrder(a: seq<Activity>, key: BucketKey)
    requires Matching(a, key) != []
    ensures OneTenant(Matching(a, key)) <==> forall b :: !RecordVaries(a, key, b)
  {
    var own := Matching(a, key);
    if OneTenant(own) {
      forall b ensures !RecordVaries(a, key, b) {
        if Rearranged(a, b) {
          SameRecord(a, b, key);
        }
      }
    } else {
      var e :| e in own && e.tenant != own[0].tenant;
      FilterMember(InBucket(key), a, e);
      var b := BringForward(InBucket(key), a, e);
      assert FeatureOf(Matching(b, key)).tenant == e.tenant;
      assert RecordVaries(a, key, b);
    }
  }

  lemma SameRecord(a: seq<Activity>, b: seq<Activity>, key: BucketKey)
    requires Rearranged(a, b) && Matching(a, key) != [] && OneTenant(Matching(a, key))
    ensures Matching(b, key) != [] && FeatureOf(Matching(b, key)) == FeatureOf(Matching(a, key))
  {
    OrderDoesNotMatter(a, b, key);
    var x, y := Matching(a, key), Matching(b, key);
    Sequences.SameMembers(x, y, y[0]);
    assert x[0] in x && y[0] in y;
  }
}
