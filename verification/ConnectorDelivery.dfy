/** Deliveries to connectors: retries over any number of sweeps, some of them cut short. */
module ConnectorDelivery {
  import opened Documents
  import opened Sequences

  const MAX_ATTEMPTS := 5
  const CAP_MINUTES := 60

  datatype Status = Waiting | Delivered | Failed | DeadLetter

  /** The fields of a delivery the worker reads or sets; times in minutes. */
  datatype Delivery = Delivery(status: Status, attempts: nat, nextAt: Option<int>)

  /** What becomes of one attempt: no connector record; an error raised before anything is sent (disabled, secret,
      endpoint); a network error while sending; or a response. */
  datatype Reply = NoConnector | Raised(retryable: bool) | NetworkError | Response(code: int)

  function Power(n: nat): nat {
    if n == 0 then 1 else 2 * Power(n - 1)
  }

  function Wait(attempts: nat): nat {
    if Power(attempts) < CAP_MINUTES then Power(attempts) else CAP_MINUTES
  }

  /** Something was sent to the connector. */
  predicate Posts(r: Reply) {
    r.NetworkError? || r.Response?
  }

  predicate RetryableCode(code: int) {
    code == 429 || code >= 500
  }

  /** The dispatcher's account of a response. */
  function AfterResponse(d: Delivery, code: int, now: int): Delivery {
    var attempts := d.attempts + 1;
    if code >= 400 then
      var retryable := code == 429 || code >= 500;
      Delivery(if attempts >= MAX_ATTEMPTS || !retryable then DeadLetter else Failed,
               attempts,
               if retryable && attempts < MAX_ATTEMPTS then Some(now + Wait(attempts)) else None)
    else Delivery(Delivered, attempts, None)
  }

  /** The worker's account of an error raised on the way, which is retryable or not. */
  function AfterException(d: Delivery, retryable: bool, now: int): Delivery {
    var attempts := d.attempts + 1;
    Delivery(if retryable && attempts < MAX_ATTEMPTS then Failed else DeadLetter,
             attempts,
             if retryable && attempts < MAX_ATTEMPTS then Some(now + Wait(attempts)) else None)
  }

  /** A missing connector leaves an earlier retry time in place. */
  function After(d: Delivery, r: Reply, now: int): Delivery {
    match r
    case NoConnector => Delivery(DeadLetter, d.attempts + 1, d.nextAt)
    case Raised(retryable) => AfterException(d, retryable, now)
    case NetworkError => AfterException(d, true, now)
    case Response(code) => AfterResponse(d, code, now)
  }

  predicate Due(d: Delivery, now: int) {
    d.status == Waiting || (d.status == Failed && d.nextAt.Some? && d.nextAt.value <= now)
  }

  predicate Terminal(d: Delivery) {
    d.status == Delivered || d.status == DeadLetter
  }

  // ---- Histories ----

  /** One attempt; `kept` is false when the worker dies before the updated delivery is stored. */
  datatype Attempt = Attempt(id: string, now: int, reply: Reply, kept: bool)

  /** The stored deliveries, and per delivery what was posted, how many updates were lost and how many minutes of
      waiting were scheduled. */
  datatype World = World(deliveries: map<string, Delivery>, posts: map<string, nat>, lost: map<string, nat>,
                         waited: map<string, nat>)

  function At(m: map<string, nat>, id: string): nat {
    if id in m then m[id] else 0
  }

  predicate Enabled(w: World, a: Attempt) {
    a.id in w.deliveries && Due(w.deliveries[a.id], a.now)
  }

  function Next(w: World, a: Attempt): World
    requires Enabled(w, a)
  {
    var d := After(w.deliveries[a.id], a.reply, a.now);
    var posts := w.posts[a.id := At(w.posts, a.id) + if Posts(a.reply) then 1 else 0];
    if a.kept then
      World(w.deliveries[a.id := d], posts, w.lost,
            w.waited[a.id := At(w.waited, a.id) + if d.status == Failed then Wait(d.attempts) else 0])
    else World(w.deliveries, posts, w.lost[a.id := At(w.lost, a.id) + 1], w.waited)
  }

  predicate Legal(w: World, steps: seq<Attempt>)
    decreases |steps|
  {
    steps == [] || (Enabled(w, steps[0]) && Legal(Next(w, steps[0]), steps[1..]))
  }

  function Exec(w: World, steps: seq<Attempt>): World
    requires Legal(w, steps)
    decreases |steps|
  {
    if steps == [] then w else Exec(Next(w, steps[0]), steps[1..])
  }

  /** Deliveries as they are created: waiting, with no attempts. */
  predicate Fresh(w: World) {
    && (forall id | id in w.deliveries :: w.deliveries[id] == Delivery(Waiting, 0, None))
    && w.posts == map[] && w.lost == map[] && w.waited == map[]
  }

  /** The minutes scheduled by the first `k` failures. */
  function WaitSum(k: nat): nat {
    if k == 0 then 0 else WaitSum(k - 1) + Power(k)
  }

  predicate DeliveryOk(d: Delivery, posts: nat, lost: nat, waited: nat) {
    && d.attempts <= MAX_ATTEMPTS && posts <= d.attempts + lost
    && (d.status == Waiting ==> d.attempts == 0 && waited == 0)
    && (d.status == Failed ==> 1 <= d.attempts < MAX_ATTEMPTS && d.nextAt.Some? && waited == WaitSum(d.attempts))
    && (Terminal(d) ==> d.attempts > 0 && waited == WaitSum(d.attempts - 1))
  }

  predicate Inv(w: World) {
    forall id | id in w.deliveries :: DeliveryOk(w.deliveries[id], At(w.posts, id), At(w.lost, id), At(w.waited, id))
  }

  lemma SmallPowers()
    ensures Power(1) == 2 && Power(2) == 4 && Power(3) == 8 && Power(4) == 16
    ensures WaitSum(0) == 0 && WaitSum(1) == 2 && WaitSum(2) == 6 && WaitSum(3) == 14 && WaitSum(4) == 30
  {
    assert Power(0) == 1;
    assert Power(1) == 2;
    assert Power(2) == 4;
    assert Power(3) == 8;
    assert WaitSum(1) == 2;
    assert WaitSum(2) == 6;
  }

  /** The cap on the waiting time never binds. */
  lemma CapNeverBinds(attempts: nat)
    requires 1 <= attempts < MAX_ATTEMPTS
    ensures Wait(attempts) == Power(attempts) < CAP_MINUTES
    ensures WaitSum(attempts) == WaitSum(attempts - 1) + Wait(attempts) <= 30
  {
    SmallPowers();
    if attempts == 1 {
    } else if attempts == 2 {
    } else if attempts == 3 {
    } else {
      assert attempts == 4;
    }
  }

  /** An attempt keeps what is known of its delivery, whether or not its update is stored. */
  lemma AttemptOk(d: Delivery, posts: nat, lost: nat, waited: nat, r: Reply, now: int)
    requires DeliveryOk(d, posts, lost, waited) && Due(d, now)
    ensures var d' := After(d, r, now);
            DeliveryOk(d', posts + (if Posts(r) then 1 else 0), lost,
                       waited + if d'.status == Failed then Wait(d'.attempts) else 0)
    ensures DeliveryOk(d, posts + (if Posts(r) then 1 else 0), lost + 1, waited)
  {
    var d' := After(d, r, now);
    assert WaitSum(0) == 0;
    if d'.status == Failed {
      CapNeverBinds(d'.attempts);
    }
  }

  lemma StepKeepsInv(w: World, a: Attempt)
    requires Inv(w) && Enabled(w, a)
    ensures Inv(Next(w, a))
  {
    var w' := Next(w, a);
    forall id | id in w'.deliveries
      ensures DeliveryOk(w'.deliveries[id], At(w'.posts, id), At(w'.lost, id), At(w'.waited, id))
    {
      if id == a.id {
        AttemptOk(w.deliveries[id], At(w.posts, id), At(w.lost, id), At(w.waited, id), a.reply, a.now);
      } else {
        assert w'.deliveries[id] == w.deliveries[id] && At(w'.posts, id) == At(w.posts, id);
        assert At(w'.lost, id) == At(w.lost, id) && At(w'.waited, id) == At(w.waited, id);
      }
    }
  }

  lemma {:induction false} RunKeepsInv(w: World, steps: seq<Attempt>)
    requires Inv(w) && Legal(w, steps)
    ensures Inv(Exec(w, steps))
    decreases |steps|
  {
    if steps != [] {
      StepKeepsInv(w, steps[0]);
      RunKeepsInv(Next(w, steps[0]), steps[1..]);
    }
  }

  /** Over any number of sweeps a delivery is posted at most five times plus once for every update that was lost;
      a failed one has one to four attempts and a retry time; the waits scheduled for it sum to at most 30 minutes. */
  lemma BoundedRetries(w: World, steps: seq<Attempt>, id: string)
    requires Fresh(w) && Legal(w, steps) && id in Exec(w, steps).deliveries
    ensures var end := Exec(w, steps);
            var d := end.deliveries[id];
            && At(end.posts, id) <= MAX_ATTEMPTS + At(end.lost, id)
            && (d.attempts >= MAX_ATTEMPTS ==> Terminal(d))
            && (d.status == Failed ==> 1 <= d.attempts < MAX_ATTEMPTS && d.nextAt.Some?)
            && At(end.waited, id) <= 30
  {
    RunKeepsInv(w, steps);
    var end := Exec(w, steps);
    var d := end.deliveries[id];
    assert DeliveryOk(d, At(end.posts, id), At(end.lost, id), At(end.waited, id));
    SmallPowers();
    if d.attempts > 1 {
      CapNeverBinds(d.attempts - 1);
    }
    if d.status == Failed {
      CapNeverBinds(d.attempts);
    }
  }

  /** A delivered or dead-lettered delivery is never attempted again and never changes. */
  lemma {:induction false} TerminalStays(w: World, steps: seq<Attempt>, id: string)
    requires Legal(w, steps) && id in w.deliveries && Terminal(w.deliveries[id])
    ensures var end := Exec(w, steps);
            && id in end.deliveries && end.deliveries[id] == w.deliveries[id] && At(end.posts, id) == At(w.posts, id)
    decreases |steps|
  {
    if steps != [] {
      TerminalStays(Next(w, steps[0]), steps[1..], id);
    }
  }

  /** `n` attempts whose updates are all lost. */
  function LostAttempts(id: string, now: int, n: nat): seq<Attempt> {
    if n == 0 then [] else [Attempt(id, now, Response(200), false)] + LostAttempts(id, now, n - 1)
  }

  /** When updates get lost there is no bound: a waiting delivery can be posted any number of times. */
  lemma {:induction false} LostUpdatesRepeatPosts(w: World, id: string, now: int, n: nat)
    requires id in w.deliveries && w.deliveries[id].status == Waiting
    ensures Legal(w, LostAttempts(id, now, n))
    ensures var end := Exec(w, LostAttempts(id, now, n));
            && At(end.posts, id) == At(w.posts, id) + n && At(end.lost, id) == At(w.lost, id) + n
            && end.deliveries == w.deliveries
    decreases n
  {
    if n > 0 {
      var steps := LostAttempts(id, now, n);
      assert steps[1..] == LostAttempts(id, now, n - 1);
      LostUpdatesRepeatPosts(Next(w, steps[0]), id, now, n - 1);
    }
  }

  /** The two error paths, written separately, agree: an exception and an error response leave the same delivery if
      and only if both are retryable, or neither is, or the attempts are used up anyway. */
  lemma ErrorPathsAgree(d: Delivery, retryable: bool, code: int, now: int)
    requires code >= 400
    ensures AfterException(d, retryable, now) == AfterResponse(d, code, now) <==>
            (retryable <==> RetryableCode(code)) || d.attempts + 1 >= MAX_ATTEMPTS
  {
    if d.attempts + 1 < MAX_ATTEMPTS {
      assert AfterException(d, retryable, now).status == Failed <==> retryable;
      assert AfterResponse(d, code, now).status == Failed <==> RetryableCode(code);
    }
  }

  // ---- The bound is reached ----

  /** Server errors from the `k`-th attempt on, far enough apart. */
  function ServerErrors(id: string, now: int, k: nat): seq<Attempt>
    requires k <= MAX_ATTEMPTS
    decreases MAX_ATTEMPTS - k
  {
    if k == MAX_ATTEMPTS then []
    else [Attempt(id, now + k * CAP_MINUTES, Response(503), true)] + ServerErrors(id, now, k + 1)
  }

  lemma WaitWithinCap(k: nat)
    ensures Wait(k) <= CAP_MINUTES
  {
  }

  lemma ServerErrorOnce(w: World, id: string, now: int, k: nat) returns (w': World)
    requires k < MAX_ATTEMPTS && id in w.deliveries
    requires w.deliveries[id].attempts == k && Due(w.deliveries[id], now + k * CAP_MINUTES)
    ensures Enabled(w, ServerErrors(id, now, k)[0]) && w' == Next(w, ServerErrors(id, now, k)[0])
    ensures At(w'.posts, id) == At(w.posts, id) + 1 && At(w'.lost, id) == At(w.lost, id)
    ensures id in w'.deliveries && w'.deliveries[id].attempts == k + 1
    ensures if k + 1 < MAX_ATTEMPTS then Due(w'.deliveries[id], now + (k + 1) * CAP_MINUTES)
            else w'.deliveries[id].status == DeadLetter
  {
    w' := Next(w, ServerErrors(id, now, k)[0]);
    WaitWithinCap(k + 1);
  }

  /** A delivery with `k` attempts that is due goes on to five posts in all. */
  lemma {:induction false} ErrorsUntilTheEnd(w: World, id: string, now: int, k: nat)
    requires k < MAX_ATTEMPTS && id in w.deliveries
    requires w.deliveries[id].attempts == k && Due(w.deliveries[id], now + k * CAP_MINUTES)
    ensures Legal(w, ServerErrors(id, now, k))
    ensures var end := Exec(w, ServerErrors(id, now, k));
            && At(end.posts, id) == At(w.posts, id) + MAX_ATTEMPTS - k && At(end.lost, id) == At(w.lost, id)
            && id in end.deliveries && end.deliveries[id].status == DeadLetter
    decreases MAX_ATTEMPTS - k
  {
    var steps := ServerErrors(id, now, k);
    assert steps[1..] == ServerErrors(id, now, k + 1);
    var w1 := ServerErrorOnce(w, id, now, k);
    if k + 1 < MAX_ATTEMPTS {
      ErrorsUntilTheEnd(w1, id, now, k + 1);
    } else {
      assert Exec(w1, []) == w1;
    }
  }

  lemma {:induction false} ExecAppend(w: World, a: seq<Attempt>, b: seq<Attempt>)
    requires Legal(w, a) && Legal(Exec(w, a), b)
    ensures Legal(w, a + b) && Exec(w, a + b) == Exec(Exec(w, a), b)
    decreases |a|
  {
    if a == [] {
      assert a + b == b;
    } else {
      assert (a + b)[1..] == a[1..] + b;
      ExecAppend(Next(w, a[0]), a[1..], b);
    }
  }

  /** The bound on posts is reached, for every number of lost updates. */
  lemma BoundIsReached(w: World, id: string, now: int, lost: nat) returns (steps: seq<Attempt>)
    requires Fresh(w) && id in w.deliveries
    ensures Legal(w, steps) && At(Exec(w, steps).lost, id) == lost &&
            At(Exec(w, steps).posts, id) == MAX_ATTEMPTS + lost
  {
    var first, second := LostAttempts(id, now, lost), ServerErrors(id, now, 0);
    LostUpdatesRepeatPosts(w, id, now, lost);
    ErrorsUntilTheEnd(Exec(w, first), id, now, 0);
    ExecAppend(w, first, second);
    steps := first + second;
  }

  // ---- What each reply leaves ----

  /** A failure that is worth another attempt: a network error, an error raised as retryable, or 429 or 5xx. */
  predicate WorthRetrying(r: Reply) {
    r.NetworkError? || (r.Raised? && r.retryable) || (r.Response? && (r.code == 429 || r.code >= 500))
  }

  predicate Accepted(r: Reply) {
    r.Response? && r.code < 400
  }

  /** What is stored of a delivery after one attempt. Below 400 it is delivered; a missing connector leaves it dead
      with its retry time untouched; of other failures those worth retrying make it wait 2, 4, 8 or 16 minutes until
      the fifth attempt, and all others leave it dead. */
  predicate Recorded(d: Delivery, r: Reply, now: int, d': Delivery) {
    && d'.attempts == d.attempts + 1
    && (Accepted(r) ==> d'.status == Delivered && d'.nextAt == None)
    && (r.NoConnector? ==> d'.status == DeadLetter && d'.nextAt == d.nextAt)
    && (WorthRetrying(r) && d'.attempts < 5 ==>
          d'.status == Failed && d'.nextAt == Some(now + [2, 4, 8, 16][d.attempts]))
    && (WorthRetrying(r) && d'.attempts >= 5 ==> d'.status == DeadLetter && d'.nextAt == None)
    && (!WorthRetrying(r) && !Accepted(r) && !r.NoConnector? ==> d'.status == DeadLetter && d'.nextAt == None)
  }

  lemma AfterIsRecorded(d: Delivery, r: Reply, now: int)
    ensures Recorded(d, r, now, After(d, r, now))
  {
    SmallPowers();
    if d.attempts < 4 {
      CapNeverBinds(d.attempts + 1);
      assert Wait(d.attempts + 1) == [2, 4, 8, 16][d.attempts];
    }
  }

  /** Each delivery that waits, or has failed and whose retry time has come, was attempted once more. */
  predicate AllAttempted(before: map<string, Delivery>, now: int, after: map<string, Delivery>) {
    forall id | id in before ::
      (before[id].status == Waiting ||
       (before[id].status == Failed && before[id].nextAt.Some? && before[id].nextAt.value <= now))
      ==> id in after && after[id].attempts == before[id].attempts + 1
  }

  /** Each delivery that has ended, or whose retry time is still to come, stays as it was. */
  predicate OthersStay(before: map<string, Delivery>, now: int, after: map<string, Delivery>) {
    forall id | id in before && (before[id].status == Delivered || before[id].status == DeadLetter ||
                                 (before[id].nextAt.Some? && before[id].status == Failed &&
                                  before[id].nextAt.value > now)) ::
      id in after && after[id] == before[id]
  }

  // ---- The worker ----

  /** What the query for due deliveries may return: due ones, each once, and all of them below the limit. */
  predicate Listing(deliveries: map<string, Delivery>, now: int, limit: nat, ids: seq<string>) {
    && NoDuplicates(ids) && |ids| <= limit
    && (forall id | id in ids :: id in deliveries && Due(deliveries[id], now))
    && (|ids| < limit ==> forall id | id in deliveries && Due(deliveries[id], now) :: id in ids)
  }

  /** What a sweep over the listed deliveries means for those listed and those not. */
  lemma SweepMeans(before: map<string, Delivery>, now: int, limit: nat, ids: seq<string>, reply: string -> Reply,
                   dies: nat, after: map<string, Delivery>)
    requires Listing(before, now, limit, ids)
    requires forall k | 0 <= k < |ids| && k < dies ::
               ids[k] in after && after[ids[k]] == After(before[ids[k]], reply(ids[k]), now)
    requires forall id | id in before && (forall k | 0 <= k < |ids| && k < dies :: ids[k] != id) ::
               id in after && after[id] == before[id]
    ensures forall k | 0 <= k < |ids| && k < dies ::
              ids[k] in after && Recorded(before[ids[k]], reply(ids[k]), now, after[ids[k]])
    ensures OthersStay(before, now, after)
    ensures |ids| < limit && |ids| <= dies ==> AllAttempted(before, now, after)
  {
    forall k | 0 <= k < |ids| && k < dies
      ensures ids[k] in after && Recorded(before[ids[k]], reply(ids[k]), now, after[ids[k]])
    {
      AfterIsRecorded(before[ids[k]], reply(ids[k]), now);
    }
    forall id | id in before && !Due(before[id], now) ensures id in after && after[id] == before[id] {
      assert id !in ids;
    }
    if |ids| < limit && |ids| <= dies {
      forall id | id in before && Due(before[id], now)
        ensures id in after && after[id].attempts == before[id].attempts + 1
      {
        var k :| 0 <= k < |ids| && ids[k] == id;
      }
    }
  }

  class DeliveryRepo {
    var deliveries: map<string, Delivery>

    constructor (initial: map<string, Delivery>)
      ensures deliveries == initial
    {
      deliveries := initial;
    }

    /** `process_due`, in a worker that dies before storing the `dies`-th update. Every delivery listed and reached is
        replaced by what its reply makes of it; the others stay. What happened is a history as above. */
    method ProcessDue(now: int, limit: nat, ids: seq<string>, reply: string -> Reply, dies: nat, ghost w: World)
      returns (ghost steps: seq<Attempt>)
      requires Listing(deliveries, now, limit, ids) && w.deliveries == deliveries
      modifies this
      ensures Legal(w, steps) && deliveries == Exec(w, steps).deliveries
      ensures forall k | 0 <= k < |ids| && k < dies ::
                ids[k] in deliveries && deliveries[ids[k]] == After(old(deliveries)[ids[k]], reply(ids[k]), now)
      ensures forall k | 0 <= k < |ids| && k < dies ::
                Recorded(old(deliveries)[ids[k]], reply(ids[k]), now, deliveries[ids[k]])
      ensures OthersStay(old(deliveries), now, deliveries)
      ensures |ids| < limit && |ids| <= dies ==> AllAttempted(old(deliveries), now, deliveries)
      ensures forall id | id in old(deliveries) && (forall k | 0 <= k < |ids| && k < dies :: ids[k] != id) ::
                id in deliveries && deliveries[id] == old(deliveries)[id]
    {
      steps := [];
      ghost var before, end := deliveries, w;
      for k := 0 to |ids|
        invariant k <= dies
        invariant Legal(w, steps) && end == Exec(w, steps) && end.deliveries == deliveries
        invariant forall i | 0 <= i < k ::
                  ids[i] in deliveries && deliveries[ids[i]] == After(before[ids[i]], reply(ids[i]), now)
        invariant forall id | id in before && (forall i | 0 <= i < k :: ids[i] != id) ::
                    id in deliveries && deliveries[id] == before[id]
      {
        var id := ids[k];
        assert id in ids;
        assert forall i | 0 <= i < k :: ids[i] != id;
        ghost var step := Attempt(id, now, reply(id), k < dies);
        assert [step][1..] == [] && Exec(end, [step]) == Next(end, step);
        ExecAppend(w, steps, [step]);
        steps, end := steps + [step], Next(end, step);
        if k >= dies {
          SweepMeans(before, now, limit, ids, reply, dies, deliveries);
          return;
        }
        deliveries := deliveries[id := After(deliveries[id], reply(id), now)];
      }
      SweepMeans(before, now, limit, ids, reply, dies, deliveries);
    }
  }
}
