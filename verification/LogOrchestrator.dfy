/** The page loop of the two log orchestrators, run on the scan history and the event store beside any other writers. */
module LogOrchestrator {
  import opened Documents
  import opened ScanState
  import opened LogCollection
  import opened LogCounts
  import opened LogProgress

  /** What other writers do ahead of a round of the loop, and while its update is read and not yet written; the time of
      the update. */
  datatype Meanwhile = Meanwhile(before: seq<Step>, between: seq<Step>, now: int)

  /** How a round of the loop goes: attempts to fetch the page that die after some upserts, then one that succeeds
      unless the retries are used up. Upserts of the refused events fail, which no attempt notices. */
  datatype Fate = Fate(deaths: seq<nat>, givenUp: bool, refused: set<Event>, others: Meanwhile)

  /** The events among the first `n` of a page. */
  function Part(pages: Pages, page: nat, n: nat): set<Event>
    requires page < |pages| && n <= |pages[page]|
  {
    set e | e in pages[page][..n]
  }

  /** The events of a page that an attempt which dies after so many upserts has come to. */
  function UpTo(pages: Pages, page: nat, death: nat): set<Event>
    requires page < |pages|
  {
    set i | 0 <= i < |pages[page]| && i < death :: pages[page][i]
  }

  /** Whatever the attempts that died came to, and was not refused, is stored. */
  predicate DiedStoring(pages: Pages, page: nat, deaths: seq<nat>, refused: set<Event>, events: set<Event>)
    requires page < |pages|
  {
    forall k | 0 <= k < |deaths| :: UpTo(pages, page, deaths[k]) - refused <= events
  }

  class EventStore {
    var events: set<Event>

    constructor ()
      ensures events == {}
    {
      events := {};
    }

    /** The upserts of a page's first events; a refused one leaves no trace. */
    method StoreEvents(pages: Pages, page: nat, n: nat, refused: set<Event>)
      requires page < |pages| && n <= |pages[page]|
      modifies this
      ensures events == old(events) + (Part(pages, page, n) - refused)
    {
      for k := 0 to n
        invariant events == old(events) + (Part(pages, page, k) - refused)
      {
        assert pages[page][..k + 1] == pages[page][..k] + [pages[page][k]];
        if pages[page][k] !in refused {
          events := events + {pages[page][k]};
        }
      }
    }

    /** `fetch_*_log_page_activity` when it succeeds: every event of the page is upserted, then the page's
        size and link are reported, whatever was refused. */
    method FetchPage(pages: Pages, page: nat, refused: set<Event>) returns (count: nat, next: Option<Link>)
      requires page < |pages|
      modifies this
      ensures events == old(events) + (PageEvents(pages, page) - refused)
      ensures count == |pages[page]| && next == NextLink(pages, page)
    {
      StoreEvents(pages, page, |pages[page]|, refused);
      assert pages[page][..|pages[page]|] == pages[page];
      count, next := |pages[page]|, NextLink(pages, page);
    }

    /** The activity when it dies during its upserts. */
    method FetchDying(pages: Pages, page: nat, death: nat, refused: set<Event>) returns (kept: set<Event>)
      requires page < |pages|
      modifies this
      ensures kept == UpTo(pages, page, death) - refused && kept <= PageEvents(pages, page)
      ensures events == old(events) + kept
    {
      var n := if death < |pages[page]| then death else |pages[page]|;
      StoreEvents(pages, page, n, refused);
      kept := Part(pages, page, n) - refused;
      forall e ensures e in Part(pages, page, n) <==> e in UpTo(pages, page, death) {
        if e in UpTo(pages, page, death) {
          var i :| 0 <= i < |pages[page]| && i < death && pages[page][i] == e;
          assert pages[page][..n][i] == e;
        }
      }
    }
  }

  datatype Outcome = Completed(count: nat) | Error(count: nat)

  // ---- The step system's side ----

  /** Some further history leads from one world to the other. */
  ghost predicate Follows(g: Graph, w: World, w': World) {
    exists steps :: Following(g, w, steps, w')
  }

  ghost predicate Following(g: Graph, w: World, steps: seq<Step>, w': World) {
    Legal(g, w, steps) && Exec(g, w, steps) == w'
  }

  lemma FollowsSelf(g: Graph, w: World)
    ensures Follows(g, w, w)
  {
    assert Following(g, w, [], w);
  }

  lemma FollowsStep(g: Graph, w0: World, w: World, step: Step)
    requires Follows(g, w0, w) && Enabled(g, w, step)
    ensures Follows(g, w0, Next(g, w, step))
    ensures Reachable(g, w) ==> Reachable(g, Next(g, w, step))
  {
    var steps :| Following(g, w0, steps, w);
    var one := [step];
    assert one[1..] == [] && Exec(g, w, one) == Next(g, w, step);
    ExecAppend(g, w0, steps, one);
    assert Following(g, w0, steps + one, Next(g, w, step));
    if Reachable(g, w) {
      var past :| Reaching(g, past, w);
      ExecAppend(g, Start(), past, one);
      assert Reaching(g, past + one, Next(g, w, step));
    }
  }

  function Me(scan: string, l: Log): Actor {
    CollectorOf(scan, l)
  }

  /** The steps only this collector takes. */
  predicate Own(step: Step, scan: string, l: Log) {
    match step
    case StartLog(s, m) => s == scan && m == l
    case Fetch(s, m, _) => s == scan && m == l
    case FetchDies(s, m, _) => s == scan && m == l
    case Fail(s, m) => s == scan && m == l
    case Read(a) => a == Me(scan, l)
    case Write(a) => a == Me(scan, l)
    case Advance(a) => a == Me(scan, l)
    case _ => false
  }

  /** The collector's run is registered and its collectors have been started. */
  predicate Present(w: World, scan: string, l: Log) {
    scan in w.docs && HasRun(w, scan, true) && !w.runs[scan].Get(l).NotStarted?
  }

  /** What others do leaves the collector's state and its update as they are, and takes no event away. */
  predicate Undisturbed(w: World, w': World, scan: string, l: Log) {
    && Present(w, scan, l) && Present(w', scan, l) && w'.runs[scan].Get(l) == w.runs[scan].Get(l)
    && (Me(scan, l) in w'.pending <==> Me(scan, l) in w.pending)
    && (Me(scan, l) in w.pending ==> w'.pending[Me(scan, l)] == w.pending[Me(scan, l)])
    && w.stored <= w'.stored
  }

  lemma OthersDoNotDisturb(g: Graph, w: World, step: Step, scan: string, l: Log)
    requires Present(w, scan, l) && Enabled(g, w, step) && !Own(step, scan, l)
    ensures Undisturbed(w, Next(g, w, step), scan, l)
  {
    var w' := Next(g, w, step);
    match step
    case StartLog(s, m) => if s == scan { assert w'.runs[scan].Get(l) == w.runs[scan].Get(l); }
    case Fetch(s, m, _) => if s == scan { assert w'.runs[scan].Get(l) == w.runs[scan].Get(l); }
    case Fail(s, m) => if s == scan { assert w'.runs[scan].Get(l) == w.runs[scan].Get(l); }
    case Write(a) => WriteElsewhere(w.runs, a, scan, l);
    case Advance(a) => AdvanceElsewhere(w.runs, a, scan, l);
    case _ =>
  }

  lemma WriteElsewhere(runs: map<string, Run>, a: Actor, scan: string, l: Log)
    requires scan in runs && runs[scan].main.Collecting? && a != Me(scan, l)
    ensures a.scan == scan ==>
            MarkWritten(runs[scan], a).main.Collecting? && MarkWritten(runs[scan], a).Get(l) == runs[scan].Get(l)
  {
  }

  lemma AdvanceElsewhere(runs: map<string, Run>, a: Actor, scan: string, l: Log)
    requires scan in runs && runs[scan].main.Collecting? && a != Me(scan, l)
    ensures a.scan == scan ==>
            AdvanceRun(runs[scan], a).main.Collecting? && AdvanceRun(runs[scan], a).Get(l) == runs[scan].Get(l)
  {
  }

  // ---- The containers' side ----

  /** The containers are those of the step system's world, where this collector is at the given point. */
  ghost predicate At(g: Graph, w: World, history: ScanHistory, store: EventStore, scan: string, l: Log, c: Collector)
    reads history, store
  {
    && Reachable(g, w) && Present(w, scan, l) && w.runs[scan].Get(l) == c && !c.NotStarted?
    && history.Valid() && w.docs == history.scans && w.stored == store.events
  }

  /** Where a link points; no link is the first page. */
  function PageOf(link: Option<Link>): Link {
    if link.Some? then link.value else 0
  }

  /** The events of pages `from` up to, not including, `upTo` are all in the set. */
  predicate PagesIn(pages: Pages, from: nat, upTo: nat, events: set<Event>)
    requires upTo <= |pages|
  {
    forall i | from <= i < upTo :: PageEvents(pages, i) <= events
  }

  predicate Foreign(steps: seq<Step>, scan: string, l: Log) {
    forall step | step in steps :: !Own(step, scan, l)
  }

  /** What the steps make of the world that are not this collector's and can be taken: any history of the others. */
  method Act(g: Graph, ghost w0: World, w: World, scan: string, l: Log, steps: seq<Step>) returns (w': World)
    requires Reachable(g, w) && Follows(g, w0, w) && Present(w, scan, l)
    ensures Reachable(g, w') && Follows(g, w0, w') && Undisturbed(w, w', scan, l) && (steps == [] ==> w' == w)
    ensures Legal(g, w, steps) && Foreign(steps, scan, l) ==> w' == Exec(g, w, steps)
  {
    w' := w;
    assert steps[0..] == steps;
    for k := 0 to |steps|
      invariant Reachable(g, w') && Follows(g, w0, w') && Undisturbed(w, w', scan, l) && (k == 0 ==> w' == w)
      invariant Legal(g, w, steps) && Foreign(steps, scan, l) ==>
                  Legal(g, w', steps[k..]) && Exec(g, w', steps[k..]) == Exec(g, w, steps)
    {
      assert steps[k..][0] == steps[k] && steps[k..][1..] == steps[k + 1..] && steps[k] in steps;
      if Enabled(g, w', steps[k]) && !Own(steps[k], scan, l) {
        FollowsStep(g, w0, w', steps[k]);
        OthersDoNotDisturb(g, w', steps[k], scan, l);
        w' := Next(g, w', steps[k]);
      }
    }
  }

  /** Other scans, this scan's other collector and all outside writers act on the containers. */
  method Others(g: Graph, ghost w0: World, w: World, history: ScanHistory, store: EventStore, scan: string, l: Log,
                steps: seq<Step>, ghost c: Collector) returns (w': World)
    requires At(g, w, history, store, scan, l, c) && Follows(g, w0, w)
    modifies history, store
    ensures At(g, w', history, store, scan, l, c) && Follows(g, w0, w')
    ensures Undisturbed(w, w', scan, l) && (steps == [] ==> w' == w)
    ensures Legal(g, w, steps) && Foreign(steps, scan, l) ==> w' == Exec(g, w, steps)
  {
    w' := Act(g, w0, w, scan, l, steps);
    history.Adopt(w'.docs);
    store.events := w'.stored;
  }

  /** The attempts that die before the one that decides. */
  method Retry(g: Graph, ghost w0: World, w: World, history: ScanHistory, store: EventStore, scan: string, l: Log,
               pages: Pages, page: nat, ghost total: nat, fate: Fate)
    returns (w': World)
    requires pages == g.Chain(l) && At(g, w, history, store, scan, l, Fetching(total, page)) && Follows(g, w0, w)
    requires page < |pages|
    modifies store
    ensures Follows(g, w0, w') && At(g, w', history, store, scan, l, Fetching(total, page))
    ensures w.stored <= w'.stored && w'.docs == w.docs
    ensures DiedStoring(pages, page, fate.deaths, fate.refused, w'.stored)
  {
    w' := w;
    for k := 0 to |fate.deaths|
      invariant Follows(g, w0, w') && At(g, w', history, store, scan, l, Fetching(total, page))
      invariant w.stored <= w'.stored && w'.docs == w.docs
      invariant DiedStoring(pages, page, fate.deaths[..k], fate.refused, w'.stored)
    {
      assert fate.deaths[..k + 1] == fate.deaths[..k] + [fate.deaths[k]];
      var kept := store.FetchDying(pages, page, fate.deaths[k], fate.refused);
      FollowsStep(g, w0, w', FetchDies(scan, l, kept));
      assert PageEvents(pages, page) * kept == kept;
      w' := Next(g, w', FetchDies(scan, l, kept));
    }
    assert fate.deaths[..|fate.deaths|] == fate.deaths;
  }

  /** The collector is about to report `items` under the status, with the link. */
  predicate Reports(c: Collector, status: string, items: nat, link: Option<Link>) {
    || (c == Reporting(items, link, false) && status == RUNNING)
    || (c == Completing(items, false) && status == COMPLETED && link == None)
  }

  /** What the collector does once its report is written. */
  function Reported(c: Collector): Collector
    requires c.Reporting? || c.Completing?
  {
    if c.Completing? then Ended(c.total)
    else if c.next.Some? then Fetching(c.total, c.next.value) else Completing(c.total, false)
  }

  lemma ReadStep(g: Graph, w0: World, w: World, scan: string, l: Log, c: Collector, status: string, items: nat,
                 link: Option<Link>) returns (w': World)
    requires Reachable(g, w) && Follows(g, w0, w) && Present(w, scan, l) && w.runs[scan].Get(l) == c
    requires Reports(c, status, items, link)
    ensures Enabled(g, w, Read(Me(scan, l))) && w' == Next(g, w, Read(Me(scan, l)))
    ensures Reachable(g, w') && Follows(g, w0, w') && Present(w', scan, l) && w'.runs[scan].Get(l) == c
    ensures Me(scan, l) in w'.pending
    ensures w'.pending[Me(scan, l)] == ApplyUpdate(w.docs[scan], NameOf(l), status, items, link)
    ensures w'.docs == w.docs && w'.stored == w.stored
  {
    FollowsStep(g, w0, w, Read(Me(scan, l)));
    w' := Next(g, w, Read(Me(scan, l)));
  }

  lemma WriteSteps(g: Graph, w0: World, w: World, scan: string, l: Log, c: Collector, phases: Phases)
    returns (w1: World, w': World)
    requires Reachable(g, w) && Follows(g, w0, w) && Present(w, scan, l) && w.runs[scan].Get(l) == c
    requires Me(scan, l) in w.pending && w.pending[Me(scan, l)] == phases && (c.Reporting? || c.Completing?)
    ensures Enabled(g, w, Write(Me(scan, l))) && w1 == Next(g, w, Write(Me(scan, l)))
    ensures Enabled(g, w1, Advance(Me(scan, l))) && w' == Next(g, w1, Advance(Me(scan, l)))
    ensures Reachable(g, w') && Follows(g, w0, w') && Present(w', scan, l) && w'.runs[scan].Get(l) == Reported(c)
    ensures Me(scan, l) !in w'.pending && w'.docs == w.docs[scan := phases] && w'.stored == w.stored
  {
    FollowsStep(g, w0, w, Write(Me(scan, l)));
    w1 := Next(g, w, Write(Me(scan, l)));
    FollowsStep(g, w0, w1, Advance(Me(scan, l)));
    w' := Next(g, w1, Advance(Me(scan, l)));
  }

  /** `update_scan_phase` by the collector, with its two container calls apart, then what the collector does next. */
  method ReportPhase(g: Graph, ghost w0: World, w: World, history: ScanHistory, store: EventStore, scan: string, l: Log,
                     status: string, items: nat, link: Option<Link>, between: seq<Step>, now: int, ghost c: Collector)
    returns (w': World)
    requires At(g, w, history, store, scan, l, c) && Follows(g, w0, w) && Reports(c, status, items, link)
    modifies history, store
    ensures Follows(g, w0, w') && Me(scan, l) !in w'.pending && w.stored <= w'.stored
    ensures At(g, w', history, store, scan, l, Reported(c))
    ensures w'.docs[scan] == ApplyUpdate(w.docs[scan], NameOf(l), status, items, link)
    ensures between == [] ==> w'.docs == w.docs[scan := ApplyUpdate(w.docs[scan], NameOf(l), status, items, link)]
    ensures history.stamps[scan] == StampsAfter(w.docs[scan], old(history.stamps)[scan], NameOf(l), status, now)
  {
    var phases, times := history.ReadPhases(scan);
    phases, times := ScanHistory.UpdateEntry(phases, times, NameOf(l), status, items, link, now);
    ghost var read := ReadStep(g, w0, w, scan, l, c, status, items, link);
    var w1 := Next(g, w, Read(Me(scan, l)));
    var w2 := Others(g, w0, w1, history, store, scan, l, between, c);
    history.WritePhases(scan, phases, times);
    ghost var written, advanced := WriteSteps(g, w0, w2, scan, l, c, phases);
    w' := Next(g, w2, Write(Me(scan, l)));
    w' := Next(g, w', Advance(Me(scan, l)));
  }

  // ---- The names of a record's phases ----

  /** Every record, and every copy about to be written, has the five phases. */
  predicate AllStandard(w: World) {
    && (forall scan | scan in w.docs :: Standard(w.docs[scan]))
    && (forall a | a in w.pending :: Standard(w.pending[a]))
  }

  lemma UpdateIsStandard(phases: Phases, name: string, status: string, items: nat, link: Option<Link>)
    requires Standard(phases)
    ensures Standard(ApplyUpdate(phases, name, status, items, link))
  {
    forall i: nat | i < |phases| ensures ApplyUpdate(phases, name, status, items, link)[i].name == phases[i].name {
      NameStays(phases, Update(name, status, items, link, 0), i);
    }
  }

  lemma FinalIsStandard(phases: Phases)
    requires Standard(phases)
    ensures Standard(FinalizePhases(phases))
  {
    forall i: nat | i < |phases| ensures FinalizePhases(phases)[i].name == phases[i].name {
      FinalizedAt(phases, i);
    }
  }

  lemma ChangeIsStandard(w: World, a: Actor, phases: Phases)
    requires Standard(phases) && Change(w, a, phases).Some?
    ensures Standard(Change(w, a, phases).value)
  {
    var run := w.runs[a.scan];
    match a
    case MainOf(_) => UpdateIsStandard(phases, NameOf(run.main.l), RUNNING, 0, None);
    case CollectorOf(_, l) =>
      var c := run.Get(l);
      UpdateIsStandard(phases, NameOf(l), if c.Reporting? then RUNNING else COMPLETED, c.total,
                       if c.Reporting? then c.next else None);
    case Outside(_, _, FailOpenPhases) => FinalIsStandard(phases);
    case Outside(_, _, LeavePhases) =>
    case Outside(_, _, OtherPhase(name, status, items)) => UpdateIsStandard(phases, name, status, items, None);
  }

  lemma StepKeepsStandard(g: Graph, w: World, step: Step)
    requires AllStandard(w) && Enabled(g, w, step)
    ensures AllStandard(Next(g, w, step))
  {
    if step.Read? {
      ChangeIsStandard(w, step.actor, w.docs[step.actor.scan]);
    }
  }

  lemma {:induction false} RunKeepsStandard(g: Graph, w: World, steps: seq<Step>)
    requires AllStandard(w) && Legal(g, w, steps)
    ensures AllStandard(Exec(g, w, steps))
    decreases |steps|
  {
    if steps != [] {
      StepKeepsStandard(g, w, steps[0]);
      RunKeepsStandard(g, Next(g, w, steps[0]), steps[1..]);
    }
  }

  lemma ReachableIsStandard(g: Graph, w: World)
    requires Reachable(g, w)
    ensures AllStandard(w)
  {
    var steps :| Reaching(g, steps, w);
    RunKeepsStandard(g, Start(), steps);
  }

  // ---- The loop ----

  lemma FetchStep(g: Graph, w0: World, w: World, scan: string, l: Log, total: nat, page: nat, refused: set<Event>)
    returns (w': World)
    requires Reachable(g, w) && Follows(g, w0, w) && Present(w, scan, l) && w.runs[scan].Get(l) == Fetching(total, page)
    requires page < |g.Chain(l)|
    ensures Enabled(g, w, Fetch(scan, l, refused)) && w' == Next(g, w, Fetch(scan, l, refused))
    ensures Reachable(g, w') && Follows(g, w0, w') && Present(w', scan, l)
    ensures w'.runs[scan].Get(l) == Reporting(total + |g.Chain(l)[page]|, NextLink(g.Chain(l), page), false)
    ensures w'.docs == w.docs && w'.stored == w.stored + (PageEvents(g.Chain(l), page) - refused)
  {
    FollowsStep(g, w0, w, Fetch(scan, l, refused));
    w' := Next(g, w, Fetch(scan, l, refused));
  }

  lemma FailStep(g: Graph, w0: World, w: World, scan: string, l: Log, total: nat, page: nat) returns (w': World)
    requires Reachable(g, w) && Follows(g, w0, w) && Present(w, scan, l) && w.runs[scan].Get(l) == Fetching(total, page)
    ensures Enabled(g, w, Step.Fail(scan, l)) && w' == Next(g, w, Step.Fail(scan, l))
    ensures Reachable(g, w') && Follows(g, w0, w') && Present(w', scan, l)
    ensures w'.runs[scan].Get(l) == Collector.Failed(total) && w'.docs == w.docs && w'.stored == w.stored
  {
    FollowsStep(g, w0, w, Step.Fail(scan, l));
    w' := Next(g, w, Step.Fail(scan, l));
  }

  /** One successful fetch and its report. */
  method CollectPage(g: Graph, ghost w0: World, w: World, history: ScanHistory, store: EventStore, scan: string, l: Log,
                     pages: Pages, total: nat, link: Option<Link>, fate: Fate)
    returns (newTotal: nat, next: Option<Link>, w': World)
    requires pages == g.Chain(l) && At(g, w, history, store, scan, l, Fetching(total, PageOf(link))) &&
             Follows(g, w0, w)
    requires PageOf(link) < |pages|
    modifies history, store
    ensures Follows(g, w0, w') && w.stored + (PageEvents(pages, PageOf(link)) - fate.refused) <= w'.stored
    ensures newTotal == total + |pages[PageOf(link)]| && next == NextLink(pages, PageOf(link))
    ensures At(g, w', history, store, scan, l,
               if next.Some? then Fetching(newTotal, next.value) else Completing(newTotal, false))
    ensures w'.docs[scan] == ApplyUpdate(w.docs[scan], NameOf(l), RUNNING, newTotal, next)
  {
    var count;
    count, next := store.FetchPage(pages, PageOf(link), fate.refused);
    newTotal := total + count;
    ghost var fetched := FetchStep(g, w0, w, scan, l, total, PageOf(link), fate.refused);
    w' := Next(g, w, Fetch(scan, l, fate.refused));
    w' := ReportPhase(g, w0, w', history, store, scan, l, RUNNING, newTotal, next, fate.others.between, fate.others.now,
                      Reporting(newTotal, next, false));
  }

  lemma PageExists(g: Graph, w: World, scan: string, l: Log)
    requires Reachable(g, w) && Present(w, scan, l) && w.runs[scan].Get(l).Fetching?
    ensures w.runs[scan].Get(l).page < |g.Chain(l)|
  {
    FetchingPage(g, w, scan, l);
  }

  /** One round of the page loop: others act, attempts die, then one decides. */
  method VisitPage(g: Graph, ghost w0: World, w: World, history: ScanHistory, store: EventStore, scan: string, l: Log,
                   pages: Pages, total: nat, link: Option<Link>, fate: Fate)
    returns (newTotal: nat, next: Option<Link>, w': World)
    requires pages == g.Chain(l) && At(g, w, history, store, scan, l, Fetching(total, PageOf(link))) &&
             Follows(g, w0, w)
    requires PageOf(link) < |pages|
    modifies history, store
    ensures Follows(g, w0, w') && w.stored <= w'.stored
    ensures DiedStoring(pages, PageOf(link), fate.deaths, fate.refused, w'.stored)
    ensures fate.givenUp ==> newTotal == total && At(g, w', history, store, scan, l, Collector.Failed(total))
    ensures !fate.givenUp ==>
              && newTotal == total + |pages[PageOf(link)]| && next == NextLink(pages, PageOf(link))
              && PageEvents(pages, PageOf(link)) - fate.refused <= w'.stored
              && At(g, w', history, store, scan, l,
                    if next.Some? then Fetching(newTotal, next.value) else Completing(newTotal, false))
  {
    w' := Others(g, w0, w, history, store, scan, l, fate.others.before, Fetching(total, PageOf(link)));
    w' := Retry(g, w0, w', history, store, scan, l, pages, PageOf(link), total, fate);
    if fate.givenUp {
      ghost var failed := FailStep(g, w0, w', scan, l, total, PageOf(link));
      w' := Next(g, w', Step.Fail(scan, l));
      return total, None, w';
    }
    newTotal, next, w' := CollectPage(g, w0, w', history, store, scan, l, pages, total, link, fate);
  }

  /** What the first `n` page fetches refused. */
  ghost function Refused(fates: nat -> Fate, n: nat): set<Event> {
    if n == 0 then {} else Refused(fates, n - 1) + fates(n - 1).refused
  }

  /** Pages `start` up to `start + n` are counted once and their events stored or refused. */
  ghost predicate Progressed(pages: Pages, start: nat, n: nat, items: nat, total: nat, events: set<Event>,
                             fates: nat -> Fate) {
    && start + n <= |pages| && total == items + Count(pages, start + n) - Count(pages, start)
    && PagesIn(pages, start, start + n, events + Refused(fates, n))
  }

  lemma ProgressStep(pages: Pages, start: nat, n: nat, items: nat, total: nat, before: set<Event>, after: set<Event>,
                     fates: nat -> Fate)
    requires Progressed(pages, start, n, items, total, before, fates) && start + n < |pages|
    requires before <= after && PageEvents(pages, start + n) - fates(n).refused <= after
    ensures Progressed(pages, start, n + 1, items, total + |pages[start + n]|, after, fates)
  {
  }

  /** More events stored, no more pages counted. */
  lemma ProgressKept(pages: Pages, start: nat, n: nat, items: nat, total: nat, before: set<Event>, after: set<Event>,
                     fates: nat -> Fate)
    requires Progressed(pages, start, n, items, total, before, fates) && before <= after
    ensures Progressed(pages, start, n, items, total, after, fates)
  {
  }

  predicate NoneGivenUp(fates: nat -> Fate, n: nat) {
    forall k: nat | k < n :: !fates(k).givenUp
  }

  /** The loop stands at the page of the link, `n` pages after page `start`. */
  ghost predicate Looping(g: Graph, w0: World, w: World, history: ScanHistory, store: EventStore, scan: string, l: Log,
                          start: nat, items: nat, n: nat, total: nat, link: Option<Link>, fates: nat -> Fate)
    reads history, store
  {
    && Follows(g, w0, w) && At(g, w, history, store, scan, l, Fetching(total, PageOf(link)))
    && start + n == PageOf(link) < |g.Chain(l)| && Progressed(g.Chain(l), start, n, items, total, w.stored, fates)
    && NoneGivenUp(fates, n)
  }

  /** The loop has ended after `n` pages, at a page given up or behind the last one. */
  ghost predicate Stopped(g: Graph, w0: World, w: World, history: ScanHistory, store: EventStore, scan: string, l: Log,
                          start: nat, items: nat, n: nat, total: nat, failed: bool, fates: nat -> Fate)
    reads history, store
  {
    && Follows(g, w0, w)
    && At(g, w, history, store, scan, l, if failed then Collector.Failed(total) else Completing(total, false))
    && Progressed(g.Chain(l), start, n, items, total, w.stored, fates)
    && (failed <==> start + n < |g.Chain(l)|) && (failed ==> fates(n).givenUp) && NoneGivenUp(fates, n)
  }

  method Round(g: Graph, ghost w0: World, w: World, history: ScanHistory, store: EventStore, scan: string, l: Log,
               pages: Pages, total: nat, link: Option<Link>, fates: nat -> Fate, n: nat, ghost start: nat,
               ghost items: nat)
    returns (newTotal: nat, next: Option<Link>, w': World)
    requires pages == g.Chain(l) && Looping(g, w0, w, history, store, scan, l, start, items, n, total, link, fates)
    modifies history, store
    ensures if fates(n).givenUp then Stopped(g, w0, w', history, store, scan, l, start, items, n, newTotal, true, fates)
            else if next.None? then Stopped(g, w0, w', history, store, scan, l, start, items, n + 1, newTotal, false,
                                            fates)
            else start + n < |pages| &&
                 Looping(g, w0, w', history, store, scan, l, start, items, n + 1, newTotal, next, fates)
  {
    newTotal, next, w' := VisitPage(g, w0, w, history, store, scan, l, pages, total, link, fates(n));
    if fates(n).givenUp {
      ProgressKept(pages, start, n, items, total, w.stored, w'.stored, fates);
    } else {
      ProgressStep(pages, start, n, items, total, w.stored, w'.stored, fates);
    }
  }

  lemma LoopBegins(g: Graph, w: World, history: ScanHistory, store: EventStore, scan: string, l: Log, items: nat,
                   link: Option<Link>, fates: nat -> Fate)
    requires At(g, w, history, store, scan, l, Fetching(items, PageOf(link)))
    ensures Looping(g, w, w, history, store, scan, l, PageOf(link), items, 0, items, link, fates)
  {
    FollowsSelf(g, w);
    PageExists(g, w, scan, l);
  }

  /** The page loop, each round with its fate. */
  method CollectPages(g: Graph, w: World, history: ScanHistory, store: EventStore, scan: string, l: Log, pages: Pages,
                      resumeItems: nat, resumeLink: Option<Link>, fates: nat -> Fate)
    returns (total: nat, failed: bool, fetched: nat, w': World)
    requires pages == g.Chain(l) && At(g, w, history, store, scan, l, Fetching(resumeItems, PageOf(resumeLink)))
    modifies history, store
    ensures Stopped(g, w, w', history, store, scan, l, PageOf(resumeLink), resumeItems, fetched, total, failed, fates)
  {
    var nextLink := resumeLink;
    fetched, total, failed, w' := 0, resumeItems, false, w;
    LoopBegins(g, w, history, store, scan, l, resumeItems, resumeLink, fates);
    while true
      invariant Looping(g, w, w', history, store, scan, l, PageOf(resumeLink), resumeItems, fetched, total, nextLink,
                        fates)
      decreases |pages| - fetched
    {
      total, nextLink, w' := Round(g, w, w', history, store, scan, l, pages, total, nextLink, fates, fetched,
                                   PageOf(resumeLink), resumeItems);
      if fates(fetched).givenUp {
        return total, true, fetched, w';
      }
      fetched := fetched + 1;
      if nextLink.None? {
        return total, false, fetched, w';
      }
    }
  }

  /** The last update, when there is no page left. */
  method Complete(g: Graph, ghost w0: World, w: World, history: ScanHistory, store: EventStore, scan: string, l: Log,
                  total: nat, others: Meanwhile)
    returns (w': World)
    requires At(g, w, history, store, scan, l, Completing(total, false)) && Follows(g, w0, w)
    modifies history, store
    ensures Follows(g, w0, w') && At(g, w', history, store, scan, l, Ended(total)) && w.stored <= w'.stored
    ensures Standard(w'.docs[scan])
    ensures EntryOf(w', scan, l).status == COMPLETED && EntryOf(w', scan, l).items == total
  {
    w' := Others(g, w0, w, history, store, scan, l, others.before, Completing(total, false));
    ghost var read := w';
    w' := ReportPhase(g, w0, w', history, store, scan, l, COMPLETED, total, None, others.between, others.now,
                      Completing(total, false));
    CompletedEntry(g, read, w', scan, l, total);
  }

  lemma CompletedEntry(g: Graph, w: World, w': World, scan: string, l: Log, total: nat)
    requires Reachable(g, w) && scan in w.docs && scan in w'.docs
    requires w'.docs[scan] == ApplyUpdate(w.docs[scan], NameOf(l), COMPLETED, total, None)
    ensures Standard(w'.docs[scan])
    ensures EntryOf(w', scan, l).status == COMPLETED && EntryOf(w', scan, l).items == total
  {
    ReachableIsStandard(g, w);
    StandardUpdate(w.docs[scan], l, COMPLETED, total, None);
  }

  /** `orchestrate_audit_logs` / `orchestrate_sign_in_logs`. Whatever fetches die or are given up, whatever upserts are
      refused and whatever other scans and writers do meanwhile, also to the same record and between the reading and the
      writing of an update: what happens to the containers is a history of the step system. The run ends completed
      exactly when no fetch it makes is given up; then every page from the starting one on is counted once, its events
      are stored or were refused, and the record as the run leaves it says completed with that count. */
  method OrchestrateLogs(g: Graph, w: World, history: ScanHistory, store: EventStore, scan: string, l: Log,
                         pages: Pages,
                         resumeItems: nat, resumeLink: Option<Link>, fates: nat -> Fate, last: Meanwhile)
    returns (outcome: Outcome, fetched: nat, w': World)
    requires pages == g.Chain(l) && At(g, w, history, store, scan, l, Fetching(resumeItems, PageOf(resumeLink)))
    modifies history, store
    ensures Follows(g, w, w')
    ensures At(g, w', history, store, scan, l,
               if outcome.Completed? then Ended(outcome.count) else Collector.Failed(outcome.count))
    ensures Progressed(pages, PageOf(resumeLink), fetched, resumeItems, outcome.count, store.events, fates)
    ensures outcome.Error? ==> PageOf(resumeLink) + fetched < |pages| && fates(fetched).givenUp
    ensures NoneGivenUp(fates, fetched)
    ensures outcome.Completed? ==>
              && PageOf(resumeLink) + fetched == |pages| && Standard(w'.docs[scan])
              && EntryOf(w', scan, l).status == COMPLETED && EntryOf(w', scan, l).items == outcome.count
              && EntryOf(w', scan, l).name == if l == AuditLogs then "audit_logs" else "sign_in_logs"
  {
    var total, failed;
    total, failed, fetched, w' := CollectPages(g, w, history, store, scan, l, pages, resumeItems, resumeLink, fates);
    if failed {
      return Error(total), fetched, w';
    }
    ghost var before := w'.stored;
    w' := Complete(g, w, w', history, store, scan, l, total, last);
    ProgressKept(pages, PageOf(resumeLink), fetched, resumeItems, total, before, w'.stored, fates);
    outcome := Completed(total);
  }

  // ---- From the checkpoint on ----

  /** What the checkpoints hold for the log's phase. */
  function CheckpointOf(checkpoints: map<string, PhaseEntry>, l: Log): Option<PhaseEntry> {
    var name := if l == AuditLogs then "audit_logs" else "sign_in_logs";
    if name in checkpoints then Some(checkpoints[name]) else None
  }

  /** The main orchestrator's part for one log: a phase that the checkpoint has as completed is skipped, with its count;
      otherwise the pages are collected from the checkpoint's link on with its count, or from the start with none. */
  method CollectLog(g: Graph, w: World, history: ScanHistory, store: EventStore, scan: string, l: Log,
                    fates: nat -> Fate, last: Meanwhile)
    returns (outcome: Outcome, fetched: nat, w': World)
    requires Reachable(g, w) && scan in w.docs && HasRun(w, scan, true) && w.runs[scan].Get(l) == NotStarted
    requires history.Valid() && w.docs == history.scans && w.stored == store.events
    modifies history, store
    ensures Follows(g, w, w')
    ensures var pages := if l == AuditLogs then g.audit else g.signIn;
            var saved := CheckpointOf(w.runs[scan].checkpoints, l);
            if saved.Some? && saved.value.status == "completed" then
              outcome == Completed(saved.value.items) && fetched == 0 && store.events == old(store.events) &&
              history.scans == old(history.scans)
            else
              var resumed := saved.Some? && saved.value.checkpoint.Some?;
              var from, items := if resumed then saved.value.checkpoint.value else 0,
                                 if resumed then saved.value.items else 0;
              && Progressed(pages, from, fetched, items, outcome.count, store.events, fates)
              && NoneGivenUp(fates, fetched)
              && (outcome.Error? ==> from + fetched < |pages| && fates(fetched).givenUp)
              && (outcome.Completed? ==> from + fetched == |pages| && PhaseDone(w', scan, l, outcome.count))
  {
    FollowsSelf(g, w);
    FollowsStep(g, w, w, StartLog(scan, l));
    var w1 := Next(g, w, StartLog(scan, l));
    var c := w1.runs[scan].Get(l);
    assert At(g, w1, history, store, scan, l, c);
    if c.Ended? {
      return Completed(c.total), 0, w1;
    }
    var saved := CheckpointOf(w.runs[scan].checkpoints, l);
    var link := if saved.Some? then saved.value.checkpoint else None;
    var pages := g.Chain(l);
    outcome, fetched, w' := OrchestrateLogs(g, w1, history, store, scan, l, pages, c.total, link, fates, last);
    FollowsTransitive(g, w, w1, w');
  }

  /** The record says completed with that count. */
  ghost predicate PhaseDone(w: World, scan: string, l: Log, count: nat) {
    && scan in w.docs && Standard(w.docs[scan]) && EntryOf(w, scan, l).status == "completed"
    && EntryOf(w, scan, l).items == count
    && EntryOf(w, scan, l).name == if l == AuditLogs then "audit_logs" else "sign_in_logs"
  }

  lemma FollowsTransitive(g: Graph, w: World, w1: World, w2: World)
    requires Follows(g, w, w1) && Follows(g, w1, w2)
    ensures Follows(g, w, w2)
  {
    var a :| Following(g, w, a, w1);
    var b :| Following(g, w1, b, w2);
    ExecAppend(g, w, a, b);
    assert Following(g, w, a + b, w2);
  }
}
