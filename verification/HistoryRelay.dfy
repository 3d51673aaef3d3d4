/** The status poller's relay of orchestration history events. */
module HistoryRelay {
  import opened Sequences

  /** A poll that failed, or the history it returned. */
  datatype Poll<H> = Failed | Got(history: seq<H>)

  /** The history of the last successful poll. */
  function LastSeen<H>(polls: seq<Poll<H>>): seq<H> {
    if polls == [] then []
    else if polls[|polls| - 1].Got? then polls[|polls| - 1].history
    else LastSeen(polls[..|polls| - 1])
  }

  /** The slice from `k` on; empty when the sequence is not that long. */
  function From<H>(s: seq<H>, k: nat): seq<H> {
    if k <= |s| then s[k..] else []
  }

  /** The relevant events of one poll's new part. */
  method Emit<H>(history: seq<H>, index: nat, relevant: H -> bool) returns (emitted: seq<H>)
    ensures emitted == Filter(relevant, From(history, index))
  {
    emitted := [];
    var added := if index <= |history| then history[index..] else [];
    for i := 0 to |added|
      invariant emitted == Filter(relevant, added[..i])
    {
      assert added[..i + 1] == added[..i] + [added[i]];
      FilterStep(relevant, added[..i], added[i]);
      if relevant(added[i]) {
        emitted := emitted + [added[i]];
      }
    }
    assert added[..|added|] == added;
  }

  /** The poll loop: each successful poll publishes the relevant events behind the index of the one before, then
      moves the index to the length of its history. */
  method Relay<H>(polls: seq<Poll<H>>, relevant: H -> bool) returns (published: seq<H>)
    ensures published == Published(polls, relevant)
    ensures (forall i, j | 0 <= i < j < |polls| && polls[i].Got? && polls[j].Got? ::
             polls[i].history <= polls[j].history)
            ==> published == Filter(relevant, LastSeen(polls))
    ensures forall k: nat | LastGot(polls, k) :: LastSeen(polls) == polls[k].history
  {
    published := [];
    var index := 0;
    for k := 0 to |polls|
      invariant published == Published(polls[..k], relevant)
      invariant index == |LastSeen(polls[..k])|
    {
      assert polls[..k + 1][..k] == polls[..k];
      if polls[k].Failed? {
        continue;
      }
      var emitted := Emit(polls[k].history, index, relevant);
      published := published + emitted;
      index := |polls[k].history|;
    }
    assert polls[..|polls|] == polls;
    GrowingExactly(polls);
    if Growing(polls) {
      GrowingIsFiltered(polls, relevant);
    }
    forall k: nat | LastGot(polls, k) ensures LastSeen(polls) == polls[k].history {
      LastGotSeen(polls, k);
    }
  }

  /** Poll `k` is the last that succeeded. */
  predicate LastGot<H>(polls: seq<Poll<H>>, k: nat) {
    k < |polls| && polls[k].Got? && forall j | k < j < |polls| :: polls[j].Failed?
  }

  lemma {:induction false} LastGotSeen<H>(polls: seq<Poll<H>>, k: nat)
    requires LastGot(polls, k)
    ensures LastSeen(polls) == polls[k].history
    decreases |polls|
  {
    if k < |polls| - 1 {
      LastGotSeen(polls[..|polls| - 1], k);
    }
  }

  /** What a sequence of polls publishes. */
  function Published<H>(polls: seq<Poll<H>>, relevant: H -> bool): seq<H> {
    if polls == [] then []
    else
      var init, last := polls[..|polls| - 1], polls[|polls| - 1];
      Published(init, relevant) +
      (if last.Got? then Filter(relevant, From(last.history, |LastSeen(init)|)) else [])
  }

  /** Each history extends the one seen before it. */
  predicate Growing<H(==)>(polls: seq<Poll<H>>) {
    polls == [] ||
    (Growing(polls[..|polls| - 1]) &&
     (polls[|polls| - 1].Got? ==> LastSeen(polls[..|polls| - 1]) <= polls[|polls| - 1].history))
  }

  lemma {:induction false} LastSeenFrom<H>(polls: seq<Poll<H>>) returns (k: nat)
    requires LastSeen(polls) != []
    ensures LastGot(polls, k) && LastSeen(polls) == polls[k].history
    decreases |polls|
  {
    var n := |polls| - 1;
    if polls[n].Got? {
      k := n;
    } else {
      k := LastSeenFrom(polls[..n]);
    }
  }

  /** Every later history extends every earlier one. */
  predicate Extending<H(==)>(polls: seq<Poll<H>>) {
    forall i, j | 0 <= i < j < |polls| && polls[i].Got? && polls[j].Got? :: polls[i].history <= polls[j].history
  }

  lemma {:induction false} GrowingExactly<H>(polls: seq<Poll<H>>)
    ensures Growing(polls) <==> Extending(polls)
    decreases |polls|
  {
    if polls != [] {
      var n := |polls| - 1;
      var init := polls[..n];
      GrowingExactly(init);
      if Extending(polls) {
        assert forall i | 0 <= i < n :: init[i] == polls[i];
        if polls[n].Got? && LastSeen(init) != [] {
          var k := LastSeenFrom(init);
        }
      }
      if Growing(polls) {
        ExtendingStep(polls);
      }
    }
  }

  lemma ExtendingStep<H>(polls: seq<Poll<H>>)
    requires polls != [] && Extending(polls[..|polls| - 1])
    requires polls[|polls| - 1].Got? ==> LastSeen(polls[..|polls| - 1]) <= polls[|polls| - 1].history
    ensures Extending(polls)
  {
    var n := |polls| - 1;
    var init := polls[..n];
    assert forall i | 0 <= i < n :: init[i] == polls[i];
    forall i: nat | i < n && init[i].Got? ensures init[i].history <= LastSeen(init) {
      EarlierIsPrefix(init, i);
    }
  }

  lemma {:induction false} EarlierIsPrefix<H>(polls: seq<Poll<H>>, i: nat)
    requires Extending(polls) && i < |polls| && polls[i].Got?
    ensures polls[i].history <= LastSeen(polls)
    decreases |polls|
  {
    var n := |polls| - 1;
    if polls[n].Failed? {
      assert forall j | 0 <= j < n :: polls[..n][j] == polls[j];
      EarlierIsPrefix(polls[..n], i);
    }
  }

  /** Over any number of polls returning growing histories, some of them failing, the events published are the
      relevant ones of the last history, in order and once each. */
  lemma {:induction false} GrowingIsFiltered<H>(polls: seq<Poll<H>>, relevant: H -> bool)
    requires Growing(polls)
    ensures Published(polls, relevant) == Filter(relevant, LastSeen(polls))
  {
    if polls != [] {
      var init, last := polls[..|polls| - 1], polls[|polls| - 1];
      GrowingIsFiltered(init, relevant);
      if last.Got? {
        var seen := LastSeen(init);
        assert last.history == seen + last.history[|seen|..];
        FilterAppend(relevant, seen, last.history[|seen|..]);
      }
    }
  }

  // ---- When the histories do not grow ----

  /** Polls that return prefixes of one history, of these lengths. */
  function Prefixes<H>(history: seq<H>, lengths: seq<nat>): seq<Poll<H>>
    requires forall i | 0 <= i < |lengths| :: lengths[i] <= |history|
  {
    seq(|lengths|, i requires 0 <= i < |lengths| => Got(history[..lengths[i]]))
  }

  function LastLength(lengths: seq<nat>): nat {
    if lengths == [] then 0 else lengths[|lengths| - 1]
  }

  /** Whatever a poll's history lacks of the one before it is irrelevant. */
  predicate OnlyNoiseRepeats<H>(history: seq<H>, lengths: seq<nat>, relevant: H -> bool)
    requires forall i | 0 <= i < |lengths| :: lengths[i] <= |history|
  {
    forall i, k | 1 <= i < |lengths| && lengths[i] <= k < lengths[i - 1] :: !relevant(history[k])
  }

  lemma {:induction false} FilterNothing<H>(p: H -> bool, s: seq<H>)
    ensures Filter(p, s) == [] <==> forall k | 0 <= k < |s| :: !p(s[k])
  {
    if s != [] {
      var n := |s| - 1;
      FilterNothing(p, s[..n]);
      assert forall k | 0 <= k < n :: s[..n][k] == s[k];
    }
  }

  /** The relevant events of a longer prefix are those of a shorter one and those between. */
  lemma FilterBetween<H>(p: H -> bool, history: seq<H>, from: nat, upTo: nat)
    requires from <= upTo <= |history|
    ensures Filter(p, history[..upTo]) == Filter(p, history[..from]) + Filter(p, history[from..upTo])
    ensures Filter(p, history[from..upTo]) == [] <==> forall k | from <= k < upTo :: !p(history[k])
  {
    assert history[..upTo] == history[..from] + history[from..upTo];
    FilterAppend(p, history[..from], history[from..upTo]);
    FilterNothing(p, history[from..upTo]);
    var between := history[from..upTo];
    assert forall k | from <= k < upTo :: history[k] == between[k - from];
    assert forall k | 0 <= k < |between| :: between[k] == history[from + k];
  }

  /** The last step of a sequence of polls repeats only noise. */
  predicate LastStepQuiet<H>(history: seq<H>, lengths: seq<nat>, relevant: H -> bool)
    requires forall i | 0 <= i < |lengths| :: lengths[i] <= |history|
  {
    |lengths| < 2 || forall k | lengths[|lengths| - 1] <= k < lengths[|lengths| - 2] :: !relevant(history[k])
  }

  lemma NoiseByStep<H>(history: seq<H>, lengths: seq<nat>, relevant: H -> bool)
    requires lengths != [] && forall i | 0 <= i < |lengths| :: lengths[i] <= |history|
    ensures OnlyNoiseRepeats(history, lengths, relevant) <==>
            OnlyNoiseRepeats(history, lengths[..|lengths| - 1], relevant) && LastStepQuiet(history, lengths, relevant)
  {
    var n := |lengths| - 1;
    var init := lengths[..n];
    assert forall i | 0 <= i < n :: init[i] == lengths[i];
    if OnlyNoiseRepeats(history, init, relevant) && LastStepQuiet(history, lengths, relevant) {
      forall i, k | 1 <= i < |lengths| && lengths[i] <= k < lengths[i - 1] ensures !relevant(history[k]) {
        if i < n {
          assert init[i] <= k < init[i - 1];
        }
      }
    }
    if OnlyNoiseRepeats(history, lengths, relevant) {
      forall i, k | 1 <= i < |init| && init[i] <= k < init[i - 1] ensures !relevant(history[k]) {
        assert lengths[i] <= k < lengths[i - 1];
      }
    }
  }

  /** What one more poll publishes. */
  lemma PublishedStep<H>(history: seq<H>, lengths: seq<nat>, relevant: H -> bool)
    requires lengths != [] && forall i | 0 <= i < |lengths| :: lengths[i] <= |history|
    requires LastSeen(Prefixes(history, lengths[..|lengths| - 1])) == history[..LastLength(lengths[..|lengths| - 1])]
    ensures LastSeen(Prefixes(history, lengths)) == history[..LastLength(lengths)]
    ensures var before, last := LastLength(lengths[..|lengths| - 1]), LastLength(lengths);
            Published(Prefixes(history, lengths), relevant) ==
            Published(Prefixes(history, lengths[..|lengths| - 1]), relevant) +
            (if before <= last then Filter(relevant, history[before..last]) else [])
  {
    var n := |lengths| - 1;
    var before, last := LastLength(lengths[..n]), lengths[n];
    assert Prefixes(history, lengths)[..n] == Prefixes(history, lengths[..n]);
    assert From(history[..last], before) == if before <= last then history[before..last] else [];
  }

  /** Polls publish at least the relevant events of the last prefix, and exactly those when only noise repeats. */
  lemma {:induction false} PublishedPrefixes<H>(history: seq<H>, lengths: seq<nat>, relevant: H -> bool)
    requires forall i | 0 <= i < |lengths| :: lengths[i] <= |history|
    ensures LastSeen(Prefixes(history, lengths)) == history[..LastLength(lengths)]
    ensures var published, last := Published(Prefixes(history, lengths), relevant),
            Filter(relevant, history[..LastLength(lengths)]);
            && |published| >= |last|
            && (|published| == |last| ==> OnlyNoiseRepeats(history, lengths, relevant))
            && (OnlyNoiseRepeats(history, lengths, relevant) ==> published == last)
    decreases |lengths|
  {
    if lengths != [] {
      var n := |lengths| - 1;
      var before, last := LastLength(lengths[..n]), lengths[n];
      PublishedPrefixes(history, lengths[..n], relevant);
      PublishedStep(history, lengths, relevant);
      NoiseByStep(history, lengths, relevant);
      if before <= last {
        FilterBetween(relevant, history, before, last);
      } else {
        FilterBetween(relevant, history, last, before);
      }
    }
  }

  /** Whatever successful polls return is a prefix of the history. */
  predicate PrefixesOf<H(==)>(polls: seq<Poll<H>>, history: seq<H>) {
    forall k | 0 <= k < |polls| && polls[k].Got? :: polls[k].history <= history
  }

  /** The lengths of what the successful polls returned. */
  function Lengths<H>(polls: seq<Poll<H>>): seq<nat> {
    if polls == [] then []
    else
      var n := |polls| - 1;
      Lengths(polls[..n]) + (if polls[n].Got? then [|polls[n].history|] else [])
  }

  lemma OnePollMore<H>(polls: seq<Poll<H>>, poll: Poll<H>, relevant: H -> bool)
    ensures LastSeen(polls + [poll]) == if poll.Got? then poll.history else LastSeen(polls)
    ensures Published(polls + [poll], relevant) ==
            Published(polls, relevant) +
            (if poll.Got? then Filter(relevant, From(poll.history, |LastSeen(polls)|)) else [])
  {
    assert (polls + [poll])[..|polls|] == polls;
  }

  /** The polls publish and see what successful ones of these lengths do. */
  predicate LikePrefixes<H(==)>(polls: seq<Poll<H>>, history: seq<H>, lengths: seq<nat>, relevant: H -> bool) {
    && (forall i | 0 <= i < |lengths| :: lengths[i] <= |history|)
    && Published(polls, relevant) == Published(Prefixes(history, lengths), relevant)
    && LastSeen(polls) == LastSeen(Prefixes(history, lengths))
  }

  lemma PrefixesMore<H>(history: seq<H>, lengths: seq<nat>, poll: Poll<H>)
    requires forall i | 0 <= i < |lengths| :: lengths[i] <= |history|
    requires poll.Got? && poll.history <= history
    ensures Prefixes(history, lengths + [|poll.history|]) == Prefixes(history, lengths) + [poll]
  {
    assert history[..|poll.history|] == poll.history;
  }

  lemma OneMoreAlike<H>(polls: seq<Poll<H>>, poll: Poll<H>, history: seq<H>, lengths: seq<nat>, relevant: H -> bool)
    requires LikePrefixes(polls, history, lengths, relevant) && (poll.Got? ==> poll.history <= history)
    ensures LikePrefixes(polls + [poll], history, if poll.Got? then lengths + [|poll.history|] else lengths, relevant)
  {
    OnePollMore(polls, poll, relevant);
    if poll.Got? {
      PrefixesMore(history, lengths, poll);
      OnePollMore(Prefixes(history, lengths), poll, relevant);
    }
  }

  /** Failed polls change nothing. */
  lemma {:induction false} FailuresDoNothing<H>(polls: seq<Poll<H>>, history: seq<H>, relevant: H -> bool)
    requires PrefixesOf(polls, history)
    ensures LikePrefixes(polls, history, Lengths(polls), relevant)
  {
    if polls != [] {
      var n := |polls| - 1;
      FailuresDoNothing(polls[..n], history, relevant);
      assert polls == polls[..n] + [polls[n]];
      OneMoreAlike(polls[..n], polls[n], history, Lengths(polls[..n]), relevant);
      assert Lengths(polls) == if polls[n].Got? then Lengths(polls[..n]) + [|polls[n].history|]
             else Lengths(polls[..n]);
    }
  }

  /** Polls that fail or return prefixes of one history publish exactly its relevant events, up to the last prefix, if
      and only if every stretch that a shorter prefix takes back, and a later one may bring again, holds no relevant
      event; otherwise more than these are published. */
  lemma RepeatsWhenShrinking<H>(polls: seq<Poll<H>>, history: seq<H>, relevant: H -> bool)
    requires forall k | 0 <= k < |polls| && polls[k].Got? :: polls[k].history <= history
    ensures forall i | 0 <= i < |Lengths(polls)| :: Lengths(polls)[i] <= |history|
    ensures Published(polls, relevant) == Filter(relevant, LastSeen(polls)) <==>
            OnlyNoiseRepeats(history, Lengths(polls), relevant)
    ensures !OnlyNoiseRepeats(history, Lengths(polls), relevant) ==>
              |Published(polls, relevant)| > |Filter(relevant, LastSeen(polls))|
  {
    FailuresDoNothing(polls, history, relevant);
    PublishedPrefixes(history, Lengths(polls), relevant);
  }

  /** When every event is relevant, the condition says that no poll returned less than the one before it. */
  lemma NoNoise<H>(history: seq<H>, lengths: seq<nat>, relevant: H -> bool)
    requires forall i | 0 <= i < |lengths| :: lengths[i] <= |history|
    requires forall h :: relevant(h)
    ensures OnlyNoiseRepeats(history, lengths, relevant) <==>
            forall i | 1 <= i < |lengths| :: lengths[i - 1] <= lengths[i]
  {
    if i :| 1 <= i < |lengths| && lengths[i] < lengths[i - 1] {
      var k := lengths[i];
      assert relevant(history[k]);
    }
  }
}
