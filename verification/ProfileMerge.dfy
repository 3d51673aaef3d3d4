/** Identity profiles built run by run, and built from scratch. */
module ProfileMerge {
  import opened Documents
  import opened Sequences

  datatype Event = Event(action: string, resource: string, at: nat)

  datatype Observed = Observed(action: string, resource: string, count: nat, first: nat, last: nat)

  datatype Profile = Profile(observed: seq<Observed>, actionCount: nat, first: nat, last: nat)

  /** The dictionary key of an action on a resource; an absent resource is empty. */
  function KeyOf(action: string, resource: string): string {
    action + "|" + resource
  }

  function HasKey(key: string): Event -> bool {
    (e: Event) => KeyOf(e.action, e.resource) == key
  }

  function Time(): Event -> nat {
    (e: Event) => e.at
  }

  /** The events under a key, in order. */
  function Under(events: seq<Event>, key: string): seq<Event> {
    Filter(HasKey(key), events)
  }

  /** The keys met, in order of first appearance. */
  function Keys(events: seq<Event>): seq<string> {
    if events == [] then []
    else
      var rest := Keys(events[..|events| - 1]);
      var last := events[|events| - 1];
      var key := KeyOf(last.action, last.resource);
      if key in rest then rest else rest + [key]
  }

  /** What is recorded of the events under one key. */
  function Observe(own: seq<Event>): Observed
    requires own != []
  {
    Observed(own[0].action, own[0].resource, |own|, MinOf(Time(), own), MaxOf(Time(), own))
  }

  lemma {:induction false} KeysMet(events: seq<Event>, key: string)
    ensures key in Keys(events) <==> Under(events, key) != []
    ensures NoDuplicates(Keys(events))
  {
    if events != [] {
      KeysMet(events[..|events| - 1], key);
    }
  }

  lemma {:induction false} UnderHasKey(events: seq<Event>, key: string)
    ensures forall e | e in Under(events, key) :: e in events && KeyOf(e.action, e.resource) == key
  {
    forall e | e in Under(events, key) ensures e in events && KeyOf(e.action, e.resource) == key {
      FilterMember(HasKey(key), events, e);
    }
  }

  /** The observed actions of a history: one entry per key. */
  ghost predicate Lists(observed: seq<Observed>, history: seq<Event>) {
    && |observed| == |Keys(history)|
    && forall i | 0 <= i < |observed| ::
         Under(history, Keys(history)[i]) != [] && observed[i] == Observe(Under(history, Keys(history)[i]))
  }

  /** The profile is that of the history: its actions, its size, and a span that holds all its events. */
  ghost predicate Describes(p: Profile, history: seq<Event>) {
    Lists(p.observed, history) && p.actionCount == |history| && forall e | e in history :: p.first <= e.at <= p.last
  }

  // ---- The same, from the events' own fields ----

  /** The entry has the number of these events, the label of the first, and the earliest and latest of their times. */
  ghost predicate Records(o: Observed, own: seq<Event>) {
    && own != [] && o.action == own[0].action && o.resource == own[0].resource && o.count == |own|
    && (forall e | e in own :: o.first <= e.at <= o.last)
    && (exists e | e in own :: e.at == o.first) && (exists e | e in own :: e.at == o.last)
  }

  /** The event's action and resource, joined, are those of the entry. */
  function Alike(o: Observed): Event -> bool {
    (e: Event) => e.action + "|" + e.resource == o.action + "|" + o.resource
  }

  /** Every event of the history is recorded in exactly one entry, which records nothing else. */
  ghost predicate Accounts(observed: seq<Observed>, history: seq<Event>) {
    && (forall o | o in observed :: Records(o, Filter(Alike(o), history)))
    && (forall e | e in history :: exists o | o in observed :: Alike(o)(e))
    && (forall i, j, e | 0 <= i < j < |observed| && Alike(observed[i])(e) :: !Alike(observed[j])(e))
  }

  lemma EntryRecords(own: seq<Event>)
    requires own != []
    ensures Records(Observe(own), own)
  {
    Extremes(Time(), own);
  }

  lemma EntryKey(history: seq<Event>, key: string)
    requires Under(history, key) != []
    ensures var o := Observe(Under(history, key));
            KeyOf(o.action, o.resource) == key && Filter(Alike(o), history) == Under(history, key)
  {
    var own := Under(history, key);
    var o := Observe(own);
    UnderHasKey(history, key);
    assert own[0] in own;
    FilterSame(HasKey(key), Alike(o), history);
  }

  lemma ListsAccount(observed: seq<Observed>, history: seq<Event>)
    requires Lists(observed, history)
    ensures Accounts(observed, history)
  {
    var keys := Keys(history);
    forall i: nat | i < |observed|
      ensures KeyOf(observed[i].action, observed[i].resource) == keys[i]
      ensures Records(observed[i], Filter(Alike(observed[i]), history))
    {
      EntryKey(history, keys[i]);
      EntryRecords(Under(history, keys[i]));
    }
    forall e | e in history ensures exists o | o in observed :: Alike(o)(e) {
      var key := KeyOf(e.action, e.resource);
      FilterMember(HasKey(key), history, e);
      KeysMet(history, key);
      var i: nat :| i < |keys| && keys[i] == key;
      assert observed[i] in observed && Alike(observed[i])(e);
    }
    KeysMet(history, "");
    forall i, j, e | 0 <= i < j < |observed| && Alike(observed[i])(e) ensures !Alike(observed[j])(e) {
      assert keys[i] != keys[j];
    }
  }

  // ---- The dictionary ----

  ghost predicate Holds(order: seq<string>, observedMap: map<string, Observed>, history: seq<Event>) {
    && order == Keys(history)
    && forall key | key in order ::
         key in observedMap && Under(history, key) != [] && observedMap[key] == Observe(Under(history, key))
  }

  lemma ObserveStep(own: seq<Event>, e: Event)
    ensures own == [] ==> Observe(own + [e]) == Observed(e.action, e.resource, 1, e.at, e.at)
    ensures own != [] ==>
              var o := Observe(own);
              Observe(own + [e]) ==
                Observed(o.action, o.resource, o.count + 1, if e.at < o.first then e.at else o.first,
                                             if e.at > o.last then e.at else o.last)
  {
    ExtremesStep(Time(), own, e);
    if own != [] {
      assert (own + [e])[0] == own[0];
    } else {
      assert own + [e] == [e];
    }
  }

  /** One event counted in the dictionary. */
  lemma HoldsStep(order: seq<string>, before: map<string, Observed>, history: seq<Event>, e: Event,
                  after: map<string, Observed>)
    requires Holds(order, before, history)
    requires var key := KeyOf(e.action, e.resource);
             after == before[key := Observe(Under(history, key) + [e])]
    ensures Holds(if KeyOf(e.action, e.resource) in order then order else order + [KeyOf(e.action, e.resource)],
                  after, history + [e])
  {
    var more := history + [e];
    assert more[..|more| - 1] == history;
    forall key | key in Keys(more)
      ensures key in after && Under(more, key) != [] && after[key] == Observe(Under(more, key))
    {
      FilterStep(HasKey(key), history, e);
      assert KeyOf(e.action, e.resource) != key ==> key in order;
    }
  }

  /** The loop over an identity's events, on the dictionary of what was observed before. */
  method MergeEvents(order: seq<string>, before: map<string, Observed>, events: seq<Event>, ghost history: seq<Event>)
    returns (order': seq<string>, observedMap: map<string, Observed>)
    requires Holds(order, before, history)
    ensures Holds(order', observedMap, history + events)
  {
    order', observedMap := order, before;
    assert history + events[..0] == history;
    for k := 0 to |events|
      invariant Holds(order', observedMap, history + events[..k])
    {
      var evt := events[k];
      var key := KeyOf(evt.action, evt.resource);
      ghost var soFar := history + events[..k];
      ghost var previous := observedMap;
      KeysMet(soFar, key);
      ObserveStep(Under(soFar, key), evt);
      ghost var keys := order';
      if key in order' {
        var oa := observedMap[key];
        observedMap := observedMap[key := Observed(oa.action, oa.resource, oa.count + 1,
                                                   if evt.at < oa.first then evt.at else oa.first,
                                                   if evt.at > oa.last then evt.at else oa.last)];
      } else {
        observedMap := observedMap[key := Observed(evt.action, evt.resource, 1, evt.at, evt.at)];
        order' := order' + [key];
      }
      HoldsStep(keys, previous, soFar, evt, observedMap);
      assert history + events[..k + 1] == soFar + [evt];
    }
    assert events[..|events|] == events;
  }

  /** The stored entries put back into a dictionary, by the key of their own action and resource. */
  method LoadObserved(observed: seq<Observed>, ghost history: seq<Event>)
    returns (order: seq<string>, observedMap: map<string, Observed>)
    requires Lists(observed, history)
    ensures Holds(order, observedMap, history)
  {
    order, observedMap := [], map[];
    KeysMet(history, "");
    for k := 0 to |observed|
      invariant order == Keys(history)[..k]
      invariant forall i | 0 <= i < k :: order[i] in observedMap && observedMap[order[i]] == observed[i]
    {
      var oa := observed[k];
      var key := KeyOf(oa.action, oa.resource);
      UnderHasKey(history, Keys(history)[k]);
      assert Under(history, Keys(history)[k])[0] in Under(history, Keys(history)[k]);
      assert key == Keys(history)[k];
      order, observedMap := order + [key], observedMap[key := oa];
    }
  }

  method ListValues(order: seq<string>, observedMap: map<string, Observed>, ghost history: seq<Event>)
    returns (observed: seq<Observed>)
    requires Holds(order, observedMap, history)
    ensures Lists(observed, history)
  {
    observed := [];
    for k := 0 to |order|
      invariant |observed| == k
      invariant forall i | 0 <= i < k :: order[i] in order && observed[i] == observedMap[order[i]]
    {
      observed := observed + [observedMap[order[k]]];
    }
  }

  method Span(events: seq<Event>, now: nat) returns (earliest: nat, latest: nat)
    ensures earliest == Earliest(events, now) && latest == Latest(events, now)
    ensures forall e | e in events :: earliest <= e.at <= latest
  {
    earliest, latest := now, now;
    for k := 0 to |events|
      invariant earliest == Earliest(events[..k], now) && latest == Latest(events[..k], now)
    {
      assert events[..k + 1] == events[..k] + [events[k]];
      ExtremesStep(Time(), events[..k], events[k]);
      if k == 0 || events[k].at < earliest {
        earliest := events[k].at;
      }
      if k == 0 || events[k].at > latest {
        latest := events[k].at;
      }
    }
    assert events[..|events|] == events;
    if events != [] {
      Extremes(Time(), events);
    }
  }

  function Earliest(events: seq<Event>, now: nat): nat {
    if events == [] then now else MinOf(Time(), events)
  }

  function Latest(events: seq<Event>, now: nat): nat {
    if events == [] then now else MaxOf(Time(), events)
  }

  /** The times a run may widen the span by: those of its events, or its own when it has none. */
  predicate TimeOf(events: seq<Event>, now: nat, t: nat) {
    if events == [] then t == now else exists e | e in events :: e.at == t
  }

  /** The span is the narrowest around the stored one, if any, and the times of the run. */
  ghost predicate SpanOf(p: Profile, stored: seq<(nat, nat)>, events: seq<Event>, now: nat) {
    && (forall t: nat | TimeOf(events, now, t) :: p.first <= t <= p.last)
    && (forall s | s in stored :: p.first <= s.0 && s.1 <= p.last)
    && (TimeOf(events, now, p.first) || exists s | s in stored :: s.0 == p.first)
    && (TimeOf(events, now, p.last) || exists s | s in stored :: s.1 == p.last)
  }

  lemma SpanAttained(events: seq<Event>, now: nat)
    ensures forall t: nat | TimeOf(events, now, t) :: Earliest(events, now) <= t <= Latest(events, now)
    ensures TimeOf(events, now, Earliest(events, now)) && TimeOf(events, now, Latest(events, now))
  {
    if events != [] {
      Extremes(Time(), events);
    }
  }

  // ---- The two ways to a profile ----

  /** The merge of one ingest run into the stored profile. `history` is every event merged before. */
  method Ingest(existing: Option<Profile>, events: seq<Event>, now: nat, ghost history: seq<Event>) returns (p: Profile)
    requires if existing.Some? then Describes(existing.value, history) else history == []
    ensures Describes(p, history + events) && Accounts(p.observed, history + events)
    ensures SpanOf(p, if existing.Some? then [(existing.value.first, existing.value.last)] else [], events, now)
    ensures var earliest, latest := Earliest(events, now), Latest(events, now);
            && p.first == (if existing.Some? && existing.value.first < earliest then existing.value.first else earliest)
            && p.last == (if existing.Some? && existing.value.last > latest then existing.value.last else latest)
  {
    var order, observedMap := [], map[];
    if existing.Some? {
      order, observedMap := LoadObserved(existing.value.observed, history);
    }
    order, observedMap := MergeEvents(order, observedMap, events, history);
    var observed := ListValues(order, observedMap, history + events);
    var first, last := Span(events, now);
    var count := |events|;
    if existing.Some? {
      first := if existing.value.first < first then existing.value.first else first;
      last := if existing.value.last > last then existing.value.last else last;
      count := existing.value.actionCount + count;
    }
    p := Profile(observed, count, first, last);
    ListsAccount(observed, history + events);
    SpanAttained(events, now);
  }

  /** `_process_single_identity`: all stored events at once. */
  method FromScratch(events: seq<Event>, now: nat) returns (p: Profile)
    ensures Describes(p, events) && p.first == Earliest(events, now) && p.last == Latest(events, now)
    ensures Accounts(p.observed, events) && SpanOf(p, [], events, now)
  {
    var order, observedMap := MergeEvents([], map[], events, []);
    assert [] + events == events;
    var observed := ListValues(order, observedMap, events);
    var first, last := Span(events, now);
    p := Profile(observed, |events|, first, last);
    ListsAccount(observed, events);
    SpanAttained(events, now);
  }

  datatype Run = Run(events: seq<Event>, now: nat)

  function EventsOf(runs: seq<Run>): seq<Event> {
    if runs == [] then [] else EventsOf(runs[..|runs| - 1]) + runs[|runs| - 1].events
  }

  /** The latest of all events and of the times of the runs that brought none. */
  function LastOf(runs: seq<Run>): nat
    requires runs != []
  {
    var last := Latest(runs[|runs| - 1].events, runs[|runs| - 1].now);
    if |runs| == 1 || last > LastOf(runs[..|runs| - 1]) then last else LastOf(runs[..|runs| - 1])
  }

  lemma RunsStep(runs: seq<Run>, k: nat)
    requires k < |runs|
    ensures EventsOf(runs[..k + 1]) == EventsOf(runs[..k]) + runs[k].events
    ensures var last := Latest(runs[k].events, runs[k].now);
            LastOf(runs[..k + 1]) == if k == 0 || last > LastOf(runs[..k]) then last else LastOf(runs[..k])
  {
    assert runs[..k + 1][..k] == runs[..k];
  }

  /** Any number of runs: the profile is the one a single pass over all their events would describe. */
  method IngestAll(runs: seq<Run>) returns (p: Profile)
    requires runs != []
    ensures Describes(p, EventsOf(runs)) && p.last == LastOf(runs)
    ensures Accounts(p.observed, EventsOf(runs))
  {
    p := Ingest(None, runs[0].events, runs[0].now, []);
    ghost var history := [] + runs[0].events;
    RunsStep(runs, 0);
    assert EventsOf(runs[..0]) == [];
    for k := 1 to |runs|
      invariant Describes(p, history) && history == EventsOf(runs[..k]) && p.last == LastOf(runs[..k])
    {
      RunsStep(runs, k);
      p := Ingest(Some(p), runs[k].events, runs[k].now, history);
      history := history + runs[k].events;
    }
    assert runs[..|runs|] == runs;
    ListsAccount(p.observed, EventsOf(runs));
  }

  /** A history determines the actions and the count of its profile, so merging run by run and rebuilding
      from scratch agree on them. */
  lemma SameHistorySameProfile(p: Profile, q: Profile, history: seq<Event>)
    requires Describes(p, history) && Describes(q, history)
    ensures p.observed == q.observed && p.actionCount == q.actionCount
  {
    assert forall i | 0 <= i < |p.observed| ::
           p.observed[i] == Observe(Under(history, Keys(history)[i])) == q.observed[i];
  }

  lemma {:induction false} LastOfBounds(runs: seq<Run>)
    requires runs != []
    ensures forall e | e in EventsOf(runs) :: e.at <= LastOf(runs)
    ensures forall r | r in runs && r.events == [] :: r.now <= LastOf(runs)
    ensures (exists e | e in EventsOf(runs) :: e.at == LastOf(runs)) ||
            (exists r | r in runs :: r.events == [] && r.now == LastOf(runs))
  {
    var n := |runs| - 1;
    var last := runs[n];
    assert runs == runs[..n] + [last];
    assert last in runs;
    if last.events != [] {
      Extremes(Time(), last.events);
      assert forall e | e in last.events :: e in EventsOf(runs);
    }
    if n > 0 {
      LastOfBounds(runs[..n]);
      assert forall e | e in EventsOf(runs[..n]) :: e in EventsOf(runs);
      assert forall r | r in runs[..n] :: r in runs;
    } else {
      assert EventsOf(runs[..n]) == [];
    }
  }

  /** `last_seen` is the time of the last event exactly when no run without events took place after it: such a
      run moves it to its own time. */
  lemma LastSeenIsLastEvent(runs: seq<Run>)
    requires EventsOf(runs) != []
    ensures runs != [] && (LastOf(runs) == MaxOf(Time(), EventsOf(runs)) <==>
                           forall r | r in runs && r.events == [] :: r.now <= MaxOf(Time(), EventsOf(runs)))
  {
    LastOfBounds(runs);
    Extremes(Time(), EventsOf(runs));
  }

  // ---- What a profile says ----

  function CountOf(): Observed -> int {
    (o: Observed) => o.count
  }

  /** How many events lie under the given keys. */
  function Together(history: seq<Event>, keys: seq<string>): nat {
    if keys == [] then 0
    else Together(history, keys[..|keys| - 1]) + |Under(history, keys[|keys| - 1])|
  }

  lemma {:induction false} TogetherStep(history: seq<Event>, e: Event, keys: seq<string>)
    requires NoDuplicates(keys)
    ensures Together(history + [e], keys) ==
            Together(history, keys) + if KeyOf(e.action, e.resource) in keys then 1 else 0
    decreases |keys|
  {
    if keys != [] {
      var n := |keys| - 1;
      assert keys == keys[..n] + [keys[n]];
      TogetherStep(history, e, keys[..n]);
      FilterStep(HasKey(keys[n]), history, e);
    }
  }

  lemma {:induction false} AllTogether(history: seq<Event>)
    ensures Together(history, Keys(history)) == |history|
  {
    if history != [] {
      var n := |history| - 1;
      var e, init := history[n], history[..n];
      assert history == init + [e];
      var key := KeyOf(e.action, e.resource);
      AllTogether(init);
      KeysMet(init, key);
      KeysMet(history, key);
      TogetherStep(init, e, Keys(history));
      if key !in Keys(init) {
        assert Keys(history)[..|Keys(history)| - 1] == Keys(init);
      }
    }
  }

  lemma {:induction false} CountsTogether(observed: seq<Observed>, history: seq<Event>, k: nat)
    requires Lists(observed, history) && k <= |observed|
    ensures Sum(CountOf(), observed[..k]) == Together(history, Keys(history)[..k])
    decreases k
  {
    if k > 0 {
      CountsTogether(observed, history, k - 1);
      assert observed[..k] == observed[..k - 1] + [observed[k - 1]];
      SumAppend(CountOf(), observed[..k - 1], [observed[k - 1]]);
      assert [observed[k - 1]][1..] == [];
      assert Keys(history)[..k][..k - 1] == Keys(history)[..k - 1];
    }
  }

  /** The action count is the sum of the counts observed, and the profile's span holds each action's. */
  lemma ProfileAddsUp(p: Profile, history: seq<Event>)
    requires Describes(p, history)
    ensures p.actionCount == Sum(CountOf(), p.observed)
    ensures forall o | o in p.observed :: p.first <= o.first <= o.last <= p.last && o.count > 0
  {
    AllTogether(history);
    CountsTogether(p.observed, history, |p.observed|);
    assert p.observed[..|p.observed|] == p.observed && Keys(history)[..|Keys(history)|] == Keys(history);
    forall o | o in p.observed ensures p.first <= o.first <= o.last <= p.last && o.count > 0 {
      var i :| 0 <= i < |p.observed| && p.observed[i] == o;
      var own := Under(history, Keys(history)[i]);
      UnderHasKey(history, Keys(history)[i]);
      Extremes(Time(), own);
    }
  }

  // ---- Order and keys ----

  predicate Rearranged(a: seq<Event>, b: seq<Event>) {
    multiset(a) == multiset(b)
  }

  /** Under each key, counts and times depend on which events there are, not on their order. */
  lemma OrderDoesNotMatter(a: seq<Event>, b: seq<Event>, key: string)
    requires Rearranged(a, b)
    ensures key in Keys(a) <==> key in Keys(b)
    ensures Under(a, key) != [] <==> Under(b, key) != []
    ensures Under(a, key) != [] ==>
              var o, q := Observe(Under(a, key)), Observe(Under(b, key));
              o.count == q.count && o.first == q.first && o.last == q.last
    ensures multiset(Under(a, key)) == multiset(Under(b, key))
  {
    var x, y := Under(a, key), Under(b, key);
    KeysMet(a, key);
    KeysMet(b, key);
    FilterArrangement(HasKey(key), a, b);
    assert |multiset(x)| == |x| && |multiset(y)| == |y|;
    if x != [] {
      ExtremesArrangement(Time(), x, y);
    }
  }

  /** All these events carry one action and one resource. */
  predicate OneLabel(own: seq<Event>) {
    forall d, e | d in own && e in own :: d.action == e.action && d.resource == e.resource
  }

  /** Another arrangement of the events gives the key another entry. */
  ghost predicate EntryVaries(a: seq<Event>, key: string, b: seq<Event>)
    requires Under(a, key) != []
  {
    Rearranged(a, b) && (Under(b, key) == [] || Observe(Under(b, key)) != Observe(Under(a, key)))
  }

  /** The entry of a key is the same for every order of the events if and only if the events under that key carry
      one label; otherwise the first of them decides it. */
  lemma EntryFollowsOrder(a: seq<Event>, key: string)
    requires Under(a, key) != []
    ensures OneLabel(Under(a, key)) <==> forall b :: !EntryVaries(a, key, b)
  {
    var own := Under(a, key);
    if OneLabel(own) {
      forall b ensures !EntryVaries(a, key, b) {
        if Rearranged(a, b) {
          OrderDoesNotMatter(a, b, key);
          var other := Under(b, key);
          SameMembers(own, other, other[0]);
          assert own[0] in own && other[0] in other;
        }
      }
    } else {
      var e :| e in own && (e.action != own[0].action || e.resource != own[0].resource);
      UnderHasKey(a, key);
      var b := BringForward(HasKey(key), a, e);
      assert Observe(Under(b, key)).action == e.action && Observe(Under(b, key)).resource == e.resource;
      assert EntryVaries(a, key, b);
    }
  }

  /** Another action and resource have the same key. */
  predicate Shares(action: string, resource: string, action': string, resource': string) {
    (action' != action || resource' != resource) && KeyOf(action', resource') == KeyOf(action, resource)
  }

  /** Equal keys without the separator in either action come from equal pairs. */
  lemma KeysTellApart(action: string, resource: string, action': string, resource': string)
    requires '|' !in action && '|' !in action'
    ensures !Shares(action, resource, action', resource')
  {
    var k, k' := KeyOf(action, resource), KeyOf(action', resource');
    if k == k' {
      assert k[|action|] == '|' && k'[|action'|] == '|';
      assert forall i | 0 <= i < |action| :: k[i] == action[i] && action[i] in action;
      assert forall i | 0 <= i < |action'| :: k'[i] == action'[i] && action'[i] in action';
      assert |action| == |action'|;
      assert action == k[..|action|] && action' == k'[..|action'|];
      assert resource == k[|action| + 1..] && resource' == k'[|action'| + 1..];
    }
  }

  /** An action and a resource share their key with some other pair if and only if one of them contains the
      separator. */
  lemma KeysCollideExactly(action: string, resource: string)
    ensures (exists action', resource' :: Shares(action, resource, action', resource')) <==>
            '|' in action || '|' in resource
  {
    if '|' in action {
      var i :| 0 <= i < |action| && action[i] == '|';
      var action', resource' := action[..i], action[i + 1..] + "|" + resource;
      assert action == action[..i] + "|" + action[i + 1..];
      assert KeyOf(action', resource') == KeyOf(action, resource);
      assert Shares(action, resource, action', resource');
    } else if '|' in resource {
      var i :| 0 <= i < |resource| && resource[i] == '|';
      var action', resource' := action + "|" + resource[..i], resource[i + 1..];
      assert resource == resource[..i] + "|" + resource[i + 1..];
      assert KeyOf(action', resource') == KeyOf(action, resource);
      assert Shares(action, resource, action', resource');
    } else {
      forall action', resource' ensures !Shares(action, resource, action', resource') {
        OneSeparator(action, resource, action', resource');
      }
    }
  }

  /** A key with one separator can be read in one way only. */
  lemma OneSeparator(action: string, resource: string, action': string, resource': string)
    requires '|' !in action && '|' !in resource
    ensures !Shares(action, resource, action', resource')
  {
    var k, k' := KeyOf(action, resource), KeyOf(action', resource');
    if k == k' {
      var i := |action'|;
      assert k'[i] == '|';
      assert forall j | 0 <= j < |action| :: k[j] == action[j] && action[j] in action;
      assert forall j | |action| < j < |k| ::
             k[j] == resource[j - |action| - 1] && resource[j - |action| - 1] in resource;
      assert i == |action|;
      assert action == k[..i] && action' == k'[..i] && resource == k[i + 1..] && resource' == k'[i + 1..];
    }
  }
}
