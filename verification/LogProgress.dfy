/** Histories that exist: every one can be continued to a completed phase, and the double count happens. */
module LogProgress {
  import opened Documents
  import opened ScanState
  import opened LogCollection
  import opened LogCounts

  /** Some further history with atomic updates leads from one world to the other. */
  ghost predicate Leads(g: Graph, w: World, w': World) {
    exists steps :: Leading(g, w, steps, w')
  }

  ghost predicate Leading(g: Graph, w: World, steps: seq<Step>, w': World) {
    Legal(g, w, steps) && Atomic(steps) && Exec(g, w, steps) == w'
  }

  /** Some history, updates racing as they may, leads to the world. */
  ghost predicate Reachable(g: Graph, w: World) {
    g.Valid() && exists steps :: Reaching(g, steps, w)
  }

  ghost predicate Reaching(g: Graph, steps: seq<Step>, w: World) {
    Legal(g, Start(), steps) && Exec(g, Start(), steps) == w
  }

  lemma {:induction false} ExecAppend(g: Graph, w: World, a: seq<Step>, b: seq<Step>)
    requires Legal(g, w, a) && Legal(g, Exec(g, w, a), b)
    ensures Legal(g, w, a + b) && Exec(g, w, a + b) == Exec(g, Exec(g, w, a), b)
    decreases |a|
  {
    if a == [] {
      assert a + b == b;
    } else {
      assert (a + b)[1..] == a[1..] + b;
      ExecAppend(g, Next(g, w, a[0]), a[1..], b);
    }
  }

  lemma {:induction false} AtomicAppend(a: seq<Step>, b: seq<Step>)
    requires Atomic(a) && Atomic(b)
    ensures Atomic(a + b)
    decreases |a|
  {
    if a == [] {
      assert a + b == b;
    } else if a[0].Read? {
      assert (a + b)[2..] == a[2..] + b;
      AtomicAppend(a[2..], b);
    } else {
      assert (a + b)[1..] == a[1..] + b;
      AtomicAppend(a[1..], b);
    }
  }

  lemma LeadsTransitive(g: Graph, w: World, w1: World, w2: World)
    requires Leads(g, w, w1) && Leads(g, w1, w2)
    ensures Leads(g, w, w2)
  {
    var a :| Leading(g, w, a, w1);
    var b :| Leading(g, w1, b, w2);
    ExecAppend(g, w, a, b);
    AtomicAppend(a, b);
    assert Leading(g, w, a + b, w2);
  }

  lemma LeadsSelf(g: Graph, w: World)
    ensures Leads(g, w, w)
  {
    assert Leading(g, w, [], w);
  }

  lemma ReachesOn(g: Graph, w: World, w': World)
    requires Reachable(g, w) && Leads(g, w, w')
    ensures Reachable(g, w')
  {
    var a :| Reaching(g, a, w);
    var b :| Leading(g, w, b, w');
    ExecAppend(g, Start(), a, b);
    assert Reaching(g, a + b, w');
  }

  /** What the invariant kept under races says of a reachable world. */
  lemma Invariant(g: Graph, w: World)
    requires Reachable(g, w)
    ensures Inv(g, w)
  {
    var steps :| Reaching(g, steps, w);
    RunOfStepsOk(g, Start(), steps);
  }

  lemma OneStep(g: Graph, w: World, step: Step)
    requires Enabled(g, w, step) && !step.Read? && !step.Write?
    ensures Leads(g, w, Next(g, w, step))
    ensures Reachable(g, w) ==> Reachable(g, Next(g, w, step))
  {
    var w' := Next(g, w, step);
    var one := [step];
    assert one[0] == step && one[1..] == [];
    assert Legal(g, w', []) && Exec(g, w', []) == w' && Atomic([]);
    assert Leading(g, w, one, w');
    if Reachable(g, w) {
      ReachesOn(g, w, w');
    }
  }

  function Updating(w: World, a: Actor): World
    requires a.scan in w.docs && a.scan in w.runs && Change(w, a, w.docs[a.scan]).Some?
  {
    w.(docs := w.docs[a.scan := Change(w, a, w.docs[a.scan]).value],
       runs := w.runs[a.scan := MarkWritten(w.runs[a.scan], a)])
  }

  /** A read and its write. */
  lemma OneUpdate(g: Graph, w: World, a: Actor)
    requires a !in w.pending && a.scan in w.runs && Enabled(g, w, Read(a))
    ensures Leads(g, w, Updating(w, a))
    ensures Reachable(g, w) ==> Reachable(g, Updating(w, a))
  {
    var w1 := Next(g, w, Read(a));
    var w2 := Next(g, w1, Write(a));
    assert w2.pending == w.pending;
    assert w2 == Updating(w, a);
    var both, second := [Read(a), Write(a)], [Write(a)];
    assert both[1..] == second && second[1..] == [] && both[2..] == [];
    assert Legal(g, w2, []) && Exec(g, w2, []) == w2 && Atomic([]);
    assert Legal(g, w1, second) && Exec(g, w1, second) == w2;
    assert Leading(g, w, both, w2);
    if Reachable(g, w) {
      ReachesOn(g, w, w2);
    }
  }

  /** A scan of a reachable world with its record, which nobody is about to write. */
  ghost predicate Alone(g: Graph, w: World, scan: string) {
    && Reachable(g, w) && scan in w.runs && scan in w.docs && Standard(w.docs[scan])
    && forall a | a in w.pending :: a.scan != scan
  }

  ghost predicate Collects(g: Graph, w: World, scan: string) {
    Alone(g, w, scan) && w.runs[scan].main.Collecting?
  }

  /** An update names one of the standard phases. */
  lemma StandardUpdate(phases: Phases, l: Log, status: string, items: nat, link: Option<Link>)
    requires Standard(phases)
    ensures ApplyUpdate(phases, NameOf(l), status, items, link) ==
            phases[Index(l) := Updated(phases[Index(l)], status, items, link)]
    ensures Standard(ApplyUpdate(phases, NameOf(l), status, items, link))
  {
    UpdateAt(phases, NameOf(l), status, items, link, Index(l));
  }

  /** An actor's update, then its next state. */
  lemma UpdateAndAdvance(g: Graph, w: World, a: Actor) returns (w': World)
    requires Alone(g, w, a.scan) && !a.Outside? && Change(w, a, w.docs[a.scan]).Some?
    ensures Leads(g, w, w') && Reachable(g, w')
    ensures w' == w.(docs := w.docs[a.scan := Change(w, a, w.docs[a.scan]).value],
                     runs := w.runs[a.scan := AdvanceRun(MarkWritten(w.runs[a.scan], a), a)])
  {
    OneUpdate(g, w, a);
    var w1 := Updating(w, a);
    OneStep(g, w1, Advance(a));
    w' := Next(g, w1, Advance(a));
    LeadsTransitive(g, w, w1, w');
    assert w'.runs == w.runs[a.scan := AdvanceRun(MarkWritten(w.runs[a.scan], a), a)];
  }

  // ---- Pages ----

  /** The scan's entry for a log. */
  function EntryOf(w: World, scan: string, l: Log): PhaseEntry
    requires scan in w.docs && Standard(w.docs[scan])
  {
    w.docs[scan][Index(l)]
  }

  lemma FetchingPage(g: Graph, w: World, scan: string, l: Log)
    requires Reachable(g, w) && scan in w.runs && w.runs[scan].Get(l).Fetching?
    ensures w.runs[scan].Get(l).page < |g.Chain(l)|
  {
    Invariant(g, w);
    assert CollectorOk(g, w, l, w.runs[scan].Get(l));
  }

  /** A page fetched and stored except for the events refused. */
  lemma FetchPage(g: Graph, w: World, scan: string, l: Log, refused: set<Event>) returns (w': World)
    requires Collects(g, w, scan) && w.runs[scan].Get(l).Fetching?
    ensures Leads(g, w, w') && Collects(g, w', scan) && w'.docs == w.docs && w'.runs.Keys == w.runs.Keys
    ensures var c := w.runs[scan].Get(l);
            var pages := g.Chain(l);
            && c.page < |pages|
            && w'.runs[scan].Get(l) == Reporting(c.total + |pages[c.page]|, NextLink(pages, c.page), false)
            && w'.stored == w.stored + (PageEvents(pages, c.page) - refused)
            && w'.lost == w.lost + PageEvents(pages, c.page) * refused
  {
    FetchingPage(g, w, scan, l);
    OneStep(g, w, Fetch(scan, l, refused));
    w' := Next(g, w, Fetch(scan, l, refused));
  }

  /** One page: fetched, stored except for the events refused, reported in full. */
  lemma PageCycle(g: Graph, w: World, scan: string, l: Log, refused: set<Event>) returns (w': World)
    requires Collects(g, w, scan) && w.runs[scan].Get(l).Fetching?
    ensures Leads(g, w, w') && Collects(g, w', scan)
    ensures var c := w.runs[scan].Get(l);
            var pages := g.Chain(l);
            && c.page < |pages|
            && w'.runs[scan].Get(l) ==
               (if c.page + 1 < |pages| then Fetching(c.total + |pages[c.page]|, c.page + 1)
                else Completing(c.total + |pages[c.page]|, false))
            && w'.docs == w.docs[scan := ApplyUpdate(w.docs[scan], NameOf(l), RUNNING, c.total + |pages[c.page]|,
                                                     NextLink(pages, c.page))]
            && w'.stored == w.stored + (PageEvents(pages, c.page) - refused)
            && w'.lost == w.lost + PageEvents(pages, c.page) * refused
    ensures w'.runs.Keys == w.runs.Keys
  {
    var w1 := FetchPage(g, w, scan, l, refused);
    w' := UpdateAndAdvance(g, w1, CollectorOf(scan, l));
    LeadsTransitive(g, w, w1, w');
    var c := w1.runs[scan].Get(l);
    StandardUpdate(w.docs[scan], l, RUNNING, c.total, c.next);
  }

  lemma FinishCycle(g: Graph, w: World, scan: string, l: Log) returns (w': World)
    requires Collects(g, w, scan) && w.runs[scan].Get(l).Completing?
    ensures Leads(g, w, w') && Collects(g, w', scan)
    ensures var total := w.runs[scan].Get(l).total;
            && w'.runs[scan].Get(l) == Ended(total) && w'.stored == w.stored && w'.lost == w.lost
            && w'.docs == w.docs[scan := ApplyUpdate(w.docs[scan], NameOf(l), COMPLETED, total, None)]
            && EntryOf(w', scan, l).status == COMPLETED && EntryOf(w', scan, l).items == total
  {
    w' := UpdateAndAdvance(g, w, CollectorOf(scan, l));
    StandardUpdate(w.docs[scan], l, COMPLETED, w.runs[scan].Get(l).total, None);
  }

  /** The events not refused and not stored before. */
  predicate OnlyAccepted(w: World, w': World, refused: set<Event>) {
    (forall e | e in refused && e !in w.stored :: e !in w'.stored) && (refused == {} ==> w'.lost == w.lost)
  }

  /** Fetching page after page ends in a completed phase, each page counted in full. */
  lemma {:induction false} CollectRest(g: Graph, w: World, scan: string, l: Log, refused: set<Event>)
    returns (w': World)
    requires Collects(g, w, scan)
    requires w.runs[scan].Get(l).Fetching? || w.runs[scan].Get(l).Completing?
    ensures Leads(g, w, w') && Collects(g, w', scan) && OnlyAccepted(w, w', refused)
    ensures EntryOf(w', scan, l).status == COMPLETED
    ensures var c := w.runs[scan].Get(l);
            var pages := g.Chain(l);
            if c.Completing? then EntryOf(w', scan, l).items == c.total
            else
              c.page < |pages| && EntryOf(w', scan, l).items == c.total + Count(pages, |pages|) - Count(pages, c.page)
    decreases if w.runs[scan].Get(l).Fetching? then |g.Chain(l)| - w.runs[scan].Get(l).page else 0
  {
    if w.runs[scan].Get(l).Completing? {
      w' := FinishCycle(g, w, scan, l);
    } else {
      var w1 := PageCycle(g, w, scan, l, refused);
      w' := CollectRest(g, w1, scan, l, refused);
      LeadsTransitive(g, w, w1, w');
    }
  }

  // ---- Scans ----

  /** A new scan is started and registered. */
  lemma NewScan(g: Graph, w: World, scan: string, resume: Option<string>) returns (w': World)
    requires Reachable(g, w) && scan !in w.runs
    ensures Leads(g, w, w') && Alone(g, w', scan)
    ensures w' == w.(docs := w.docs[scan := FreshPhases()],
                     runs := w.runs[scan := Run(resume, map[], Loading, NotStarted, NotStarted)])
  {
    Invariant(g, w);
    OneStep(g, w, StartScan(scan, resume));
    var w1 := Next(g, w, StartScan(scan, resume));
    OneStep(g, w1, Register(scan));
    w' := Next(g, w1, Register(scan));
    LeadsTransitive(g, w, w1, w');
  }

  /** What a scan finds when it resumes. */
  function ResumeFrom(w: World, resume: Option<string>): map<string, PhaseEntry> {
    if resume.Some? && resume.value in w.docs then Checkpoints(w.docs[resume.value]) else map[]
  }

  lemma LoadStep(g: Graph, w: World, scan: string) returns (w': World)
    requires Alone(g, w, scan) && w.runs[scan].main.Loading?
    ensures Leads(g, w, w') && Alone(g, w', scan)
    ensures var run := w.runs[scan];
            w' == w.(runs := w.runs[scan :=
                                    run.(checkpoints := ResumeFrom(w, run.resume), main := Marking(AuditLogs, false))])
  {
    OneStep(g, w, LoadCheckpoint(scan));
    w' := Next(g, w, LoadCheckpoint(scan));
  }

  /** A new scan has loaded the checkpoints it resumes from. */
  lemma LoadScan(g: Graph, w: World, scan: string, resume: Option<string>) returns (w': World)
    requires Reachable(g, w) && scan !in w.runs && resume != Some(scan)
    ensures Leads(g, w, w') && Alone(g, w', scan)
    ensures w' == w.(docs := w.docs[scan := FreshPhases()],
                     runs := w.runs[scan :=
                                    Run(resume, ResumeFrom(w, resume), Marking(AuditLogs, false), NotStarted,
                                        NotStarted)])
  {
    var w1 := NewScan(g, w, scan, resume);
    w' := LoadStep(g, w1, scan);
    LeadsTransitive(g, w, w1, w');
    assert ResumeFrom(w1, resume) == ResumeFrom(w, resume);
  }

  /** The main orchestrator marks one log phase as running. */
  lemma MarkPhase(g: Graph, w: World, scan: string) returns (w': World)
    requires Alone(g, w, scan) && w.runs[scan].main.Marking?
    ensures Leads(g, w, w') && Alone(g, w', scan) && w'.stored == w.stored && w'.lost == w.lost
    ensures var run := w.runs[scan];
            w'.runs == w.runs[scan := run.(main := if run.main.l.AuditLogs? then Marking(SignInLogs, false)
                                           else Collecting)]
  {
    w' := UpdateAndAdvance(g, w, MainOf(scan));
    StandardUpdate(w.docs[scan], w.runs[scan].main.l, RUNNING, 0, None);
  }

  lemma MarkBoth(g: Graph, w: World, scan: string) returns (w': World)
    requires Alone(g, w, scan) && w.runs[scan].main == Marking(AuditLogs, false)
    ensures Leads(g, w, w') && Alone(g, w', scan) && w'.stored == w.stored && w'.lost == w.lost
    ensures w'.runs == w.runs[scan := w.runs[scan].(main := Collecting)]
  {
    var w1 := MarkPhase(g, w, scan);
    w' := MarkPhase(g, w1, scan);
    LeadsTransitive(g, w, w1, w');
  }

  /** A new scan reaches the point of starting its collectors. */
  lemma OpenScan(g: Graph, w: World, scan: string, resume: Option<string>) returns (w': World)
    requires Reachable(g, w) && scan !in w.runs && resume != Some(scan)
    ensures Leads(g, w, w') && Collects(g, w', scan) && w'.stored == w.stored && w'.lost == w.lost
    ensures w'.runs == w.runs[scan := Run(resume, ResumeFrom(w, resume), Collecting, NotStarted, NotStarted)]
  {
    var w1 := LoadScan(g, w, scan, resume);
    w' := MarkBoth(g, w1, scan);
    LeadsTransitive(g, w, w1, w');
    assert w'.runs == w.runs[scan := Run(resume, ResumeFrom(w, resume), Collecting, NotStarted, NotStarted)];
  }

  /** A new scan starts one of its collectors. */
  lemma OpenCollector(g: Graph, w: World, scan: string, resume: Option<string>, l: Log) returns (w': World)
    requires Reachable(g, w) && scan !in w.runs && resume != Some(scan)
    ensures Leads(g, w, w') && Collects(g, w', scan) && w'.stored == w.stored && w'.lost == w.lost
    ensures w'.runs[scan].Get(l) == Begin(ResumeFrom(w, resume), l)
    ensures w'.runs.Keys == w.runs.Keys + {scan}
  {
    var w1 := OpenScan(g, w, scan, resume);
    OneStep(g, w1, StartLog(scan, l));
    w' := Next(g, w1, StartLog(scan, l));
    LeadsTransitive(g, w, w1, w');
  }

  /** The phase a scan would resume from is complete, so that it is skipped. */
  predicate Skipped(w: World, resume: Option<string>, l: Log) {
    NameOf(l) in ResumeFrom(w, resume) && ResumeFrom(w, resume)[NameOf(l)].status == COMPLETED
  }

  /** Whatever happened before, races and refused upserts included, a new scan, started afresh or resumed from any
      record whose phase is not complete, can bring the phase to completion without losing an event. */
  lemma CanAlwaysComplete(g: Graph, steps: seq<Step>, scan: string, resume: Option<string>, l: Log) returns (w': World)
    requires g.Valid() && Legal(g, Start(), steps)
    requires scan !in Exec(g, Start(), steps).runs && resume != Some(scan) &&
             !Skipped(Exec(g, Start(), steps), resume, l)
    ensures var w := Exec(g, Start(), steps);
            && Leads(g, w, w') && w'.lost == w.lost
            && scan in w'.docs && Standard(w'.docs[scan]) && EntryOf(w', scan, l).status == COMPLETED
  {
    var w := Exec(g, Start(), steps);
    assert Reaching(g, steps, w);
    var w1 := OpenCollector(g, w, scan, resume, l);
    w' := CollectRest(g, w1, scan, l, {});
    LeadsTransitive(g, w, w1, w');
  }

  // ---- A refused event ----

  /** Whatever happened before, a scan started afresh during which every upsert of one event is refused can still
      complete the phase with the full count: an event not stored before then is missing. */
  lemma RefusedEventGoesMissing(g: Graph, steps: seq<Step>, scan: string, l: Log, e: Event) returns (w': World)
    requires g.Valid() && Legal(g, Start(), steps)
    requires scan !in Exec(g, Start(), steps).runs && e !in Exec(g, Start(), steps).stored
    ensures Leads(g, Exec(g, Start(), steps), w')
    ensures scan in w'.docs && Standard(w'.docs[scan])
    ensures EntryOf(w', scan, l).name == NameOf(l) && EntryOf(w', scan, l).status == COMPLETED
    ensures EntryOf(w', scan, l).items == Count(g.Chain(l), |g.Chain(l)|) && e !in w'.stored
    ensures forall k: nat | k < |g.Chain(l)| && e in PageEvents(g.Chain(l), k) :: e in w'.lost
  {
    var w := Exec(g, Start(), steps);
    assert Reaching(g, steps, w);
    var w1 := OpenCollector(g, w, scan, None, l);
    w' := CollectRest(g, w1, scan, l, {e});
    LeadsTransitive(g, w, w1, w');
    CompletedIsCovered(g, w', scan, l);
  }

  lemma CompletedIsCovered(g: Graph, w: World, scan: string, l: Log)
    requires Reachable(g, w) && scan in w.docs && Standard(w.docs[scan]) && EntryOf(w, scan, l).status == COMPLETED
    ensures forall k: nat | k < |g.Chain(l)| :: PageEvents(g.Chain(l), k) <= w.stored + w.lost
  {
    Invariant(g, w);
    assert EntryOf(w, scan, l) in w.docs[scan];
    assert EntryOk(g, w, EntryOf(w, scan, l)) && EntryOf(w, scan, l).name == NameOf(l);
  }

  // ---- The double count ----

  /** Up to the last page. */
  lemma {:induction false} CollectToLast(g: Graph, w: World, scan: string, l: Log) returns (w': World)
    requires Collects(g, w, scan) && w.runs[scan].Get(l).Fetching?
    requires w.runs[scan].Get(l).page + 1 < |g.Chain(l)|
    requires w.runs[scan].Get(l).total == Count(g.Chain(l), w.runs[scan].Get(l).page)
    ensures Leads(g, w, w') && Collects(g, w', scan) && w'.lost == w.lost
    ensures var pages := g.Chain(l);
            && w'.runs[scan].Get(l) == Fetching(Count(pages, |pages| - 1), |pages| - 1)
            && EntryOf(w', scan, l).checkpoint == Some(|pages| - 1)
    ensures w'.runs.Keys == w.runs.Keys
    decreases |g.Chain(l)| - w.runs[scan].Get(l).page
  {
    var c := w.runs[scan].Get(l);
    var w1 := PageCycle(g, w, scan, l, {});
    StandardUpdate(w.docs[scan], l, RUNNING, c.total + |g.Chain(l)[c.page]|, NextLink(g.Chain(l), c.page));
    if w1.runs[scan].Get(l).page + 1 < |g.Chain(l)| {
      w' := CollectToLast(g, w1, scan, l);
      LeadsTransitive(g, w, w1, w');
    } else {
      w' := w1;
    }
  }

  /** The collector dies between counting the last page and completing the phase. */
  lemma DieAtEnd(g: Graph, w: World, scan: string, l: Log) returns (w': World)
    requires Collects(g, w, scan)
    requires var pages := g.Chain(l);
             && w.runs[scan].Get(l) == Fetching(Count(pages, |pages| - 1), |pages| - 1)
             && EntryOf(w, scan, l).checkpoint == Some(|pages| - 1)
    ensures Leads(g, w, w') && Reachable(g, w') && scan in w'.docs && Standard(w'.docs[scan]) && w'.lost == w.lost
    ensures Tail(g.Chain(l), EntryOf(w', scan, l))
    ensures w'.runs.Keys == w.runs.Keys
  {
    var fetch, a := Fetch(scan, l, {}), CollectorOf(scan, l);
    OneStep(g, w, fetch);
    var w1 := Next(g, w, fetch);
    OneUpdate(g, w1, a);
    w' := Updating(w1, a);
    LeadsTransitive(g, w, w1, w');
    var c := w1.runs[scan].Get(l);
    StandardUpdate(w.docs[scan], l, RUNNING, c.total, c.next);
  }

  lemma {:induction false} CheckpointsHas(phases: Phases, e: PhaseEntry)
    requires e in phases
    ensures e.name in Checkpoints(phases)
    decreases |phases|
  {
    var n := |phases| - 1;
    assert phases == phases[..n] + [phases[n]];
    if e in phases[..n] {
      CheckpointsHas(phases[..n], e);
    }
  }

  lemma CheckpointsAt(phases: Phases, l: Log)
    requires Standard(phases)
    ensures NameOf(l) in Checkpoints(phases) && Checkpoints(phases)[NameOf(l)] == phases[Index(l)]
  {
    assert phases[Index(l)].name == NameOf(l);
    CheckpointsHas(phases, phases[Index(l)]);
    StandardLookup(phases, Checkpoints(phases)[NameOf(l)], l);
  }

  /** A scan that leaves a tail record. */
  lemma StopAtEnd(g: Graph, w: World, scan: string, l: Log) returns (w': World)
    requires Reachable(g, w) && scan !in w.runs && |g.Chain(l)| >= 2
    ensures Leads(g, w, w') && Reachable(g, w') && scan in w'.docs && Standard(w'.docs[scan]) && w'.lost == w.lost
    ensures Tail(g.Chain(l), EntryOf(w', scan, l)) && w'.runs.Keys == w.runs.Keys + {scan}
  {
    var w1 := OpenCollector(g, w, scan, None, l);
    assert Count(g.Chain(l), 0) == 0;
    var w2 := CollectToLast(g, w1, scan, l);
    w' := DieAtEnd(g, w2, scan, l);
    LeadsTransitive(g, w, w1, w2);
    LeadsTransitive(g, w, w2, w');
  }

  lemma TailBegins(pages: Pages, phases: Phases, l: Log)
    requires Standard(phases) && Tail(pages, phases[Index(l)])
    ensures Begin(Checkpoints(phases), l) == Fetching(Count(pages, |pages|), |pages| - 1)
  {
    CheckpointsAt(phases, l);
  }

  lemma OpenAtTail(g: Graph, w: World, from: string, scan: string, l: Log) returns (w': World)
    requires Reachable(g, w) && scan !in w.runs && from != scan && from in w.docs && Standard(w.docs[from])
    requires Tail(g.Chain(l), EntryOf(w, from, l))
    ensures Leads(g, w, w') && Collects(g, w', scan) && w'.lost == w.lost
    ensures w'.runs[scan].Get(l) == Fetching(Count(g.Chain(l), |g.Chain(l)|), |g.Chain(l)| - 1)
  {
    TailBegins(g.Chain(l), w.docs[from], l);
    w' := OpenCollector(g, w, scan, Some(from), l);
  }

  /** A scan that resumes from a tail record counts the last page again. */
  lemma ResumeAtTail(g: Graph, w: World, from: string, scan: string, l: Log) returns (w': World)
    requires Reachable(g, w) && scan !in w.runs && from != scan && from in w.docs && Standard(w.docs[from])
    requires Tail(g.Chain(l), EntryOf(w, from, l))
    ensures Leads(g, w, w') && w'.lost == w.lost && scan in w'.docs && Standard(w'.docs[scan])
    ensures EntryOf(w', scan, l).status == COMPLETED
    ensures var pages := g.Chain(l);
            EntryOf(w', scan, l).items == Count(pages, |pages|) + |pages[|pages| - 1]|
  {
    var w1 := OpenAtTail(g, w, from, scan, l);
    w' := CollectRest(g, w1, scan, l, {});
    LeadsTransitive(g, w, w1, w');
  }

  /** For every chain of at least two pages, and after any history, the double count happens: a scan that stops
      between its last progress write and its completion, then is resumed, reports the last page twice, though
      updates are atomic and no upsert is refused. */
  lemma DoubleCountHappens(g: Graph, steps: seq<Step>, l: Log, first: string, second: string) returns (w': World)
    requires g.Valid() && |g.Chain(l)| >= 2 && Legal(g, Start(), steps)
    requires first != second && first !in Exec(g, Start(), steps).runs && second !in Exec(g, Start(), steps).runs
    ensures var w := Exec(g, Start(), steps);
            Leads(g, w, w') && w'.lost == w.lost && second in w'.docs && Standard(w'.docs[second])
    ensures var e := EntryOf(w', second, l);
            var pages := g.Chain(l);
            e.name == NameOf(l) && e.status == COMPLETED &&
            e.items == Count(pages, |pages|) + |pages[|pages| - 1]|
  {
    var w := Exec(g, Start(), steps);
    assert Reaching(g, steps, w);
    var w3 := StopAtEnd(g, w, first, l);
    w' := ResumeAtTail(g, w3, first, second, l);
    LeadsTransitive(g, w, w3, w');
  }
}
