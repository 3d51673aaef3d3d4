/** How many events a completed phase reports, when each phase update is atomic. */
module LogCounts {
  import opened Documents
  import opened ScanState
  import opened LogCollection

  /** Every read of a record is followed at once by its write. */
  predicate Atomic(steps: seq<Step>)
    decreases |steps|
  {
    steps == [] ||
    (if steps[0].Read? then |steps| >= 2 && steps[1] == Write(steps[0].actor) && Atomic(steps[2..])
     else !steps[0].Write? && Atomic(steps[1..]))
  }

  /** The record interrupted after the last page was counted but before the phase was completed: its link
      still leads to the last page, since a missing link is never recorded. */
  predicate Tail(pages: Pages, e: PhaseEntry) {
    && pages != [] && e.status != COMPLETED
    && e.checkpoint == Some(|pages| - 1) && e.items == Count(pages, |pages|)
  }

  /** The checkpoint a run's collector starts from, if any was loaded. */
  predicate StartsAtTail(g: Graph, run: Run, l: Log) {
    NameOf(l) in run.checkpoints && Tail(g.Chain(l), run.checkpoints[NameOf(l)])
  }

  /** What a run's collector counts twice: the last page, when it starts from a tail record. */
  function Twice(g: Graph, run: Run, l: Log): nat
    requires g.Valid()
  {
    if StartsAtTail(g, run, l) then |g.Chain(l)[|g.Chain(l)| - 1]| else 0
  }

  function Index(l: Log): nat {
    match l
    case AuditLogs => 0
    case SignInLogs => 1
  }

  predicate Standard(phases: Phases) {
    |phases| == |FreshPhases()| && forall i | 0 <= i < |phases| :: phases[i].name == FreshPhases()[i].name
  }

  /** A record's link and number agree, or the record is a tail. */
  predicate Consistent(pages: Pages, e: PhaseEntry) {
    e.checkpoint.Some? ==>
      && e.checkpoint.value < |pages|
      && (e.items == Count(pages, e.checkpoint.value) ||
          (e.checkpoint.value == |pages| - 1 && e.items == Count(pages, |pages|)))
  }

  predicate CollectorCount(g: Graph, run: Run, l: Log)
    requires g.Valid()
  {
    var pages := g.Chain(l);
    var twice := Twice(g, run, l);
    match run.Get(l)
    case Fetching(total, page) =>
      && page < |pages| && total == Count(pages, page) + twice
      && (StartsAtTail(g, run, l) ==> page == |pages| - 1)
    case Reporting(total, next, _) =>
      if next.Some? then
        0 < next.value < |pages| && total == Count(pages, next.value) && !StartsAtTail(g, run, l)
      else total == Count(pages, |pages|) + twice
    case Completing(total, _) => total == Count(pages, |pages|) + twice
    case _ => true
  }

  /** The links the record can hold, by where its collector is. */
  predicate LinkFits(g: Graph, run: Run, l: Log, link: Link) {
    match run.Get(l)
    case NotStarted => false
    case Fetching(_, page) => link == page
    case Reporting(_, next, written) =>
      if next.Some? then link == next.value || (!written && link + 1 == next.value)
      else link + 1 == |g.Chain(l)|
    case Completing(_, _) => link + 1 == |g.Chain(l)|
    case _ => true
  }

  predicate EntryCount(g: Graph, run: Run, l: Log, e: PhaseEntry)
    requires g.Valid()
  {
    && Consistent(g.Chain(l), e)
    && (e.checkpoint.Some? ==> !StartsAtTail(g, run, l) && LinkFits(g, run, l, e.checkpoint.value))
    && (e.status == COMPLETED ==>
          !run.Get(l).NotStarted? && e.items == Count(g.Chain(l), |g.Chain(l)|) + Twice(g, run, l))
  }

  predicate RecordCount(g: Graph, run: Run, phases: Phases)
    requires g.Valid()
  {
    Standard(phases) && forall l: Log :: EntryCount(g, run, l, phases[Index(l)])
  }

  predicate RunCount(g: Graph, run: Run)
    requires g.Valid()
  {
    && (forall l: Log :: CollectorCount(g, run, l))
    && (forall l: Log | NameOf(l) in run.checkpoints :: Consistent(g.Chain(l), run.checkpoints[NameOf(l)]))
  }

  predicate CountInv(g: Graph, w: World)
    requires g.Valid()
  {
    && Inv(g, w) && w.pending == map[]
    && (forall s | s in w.runs :: RunCount(g, w.runs[s]))
    && (forall s | s in w.docs :: RecordCount(g, w.runs[s], w.docs[s]))
  }

  lemma OneRun(g: Graph, w: World, w': World, scan: string, run: Run)
    requires g.Valid() && CountInv(g, w) && Inv(g, w')
    requires w'.pending == map[] && w'.runs == w.runs[scan := run]
    requires forall s | s in w'.docs && s != scan :: s in w.docs && w'.docs[s] == w.docs[s]
    requires RunCount(g, run)
    requires scan in w'.docs ==> RecordCount(g, run, w'.docs[scan])
    ensures CountInv(g, w')
  {
  }

  /** Only the place and the start of a collector matter to its counts. */
  lemma SetCount(g: Graph, run: Run, l: Log, c: Collector)
    requires g.Valid() && RunCount(g, run)
    requires CollectorCount(g, run.Set(l, c), l)
    ensures RunCount(g, run.Set(l, c))
  {
    var run' := run.Set(l, c);
    forall m: Log ensures CollectorCount(g, run', m) {
      if m != l {
        assert CollectorCount(g, run, m) && run'.Get(m) == run.Get(m);
      }
    }
  }

  lemma SetRecord(g: Graph, run: Run, l: Log, c: Collector, phases: Phases)
    requires g.Valid() && RecordCount(g, run, phases)
    requires EntryCount(g, run.Set(l, c), l, phases[Index(l)])
    ensures RecordCount(g, run.Set(l, c), phases)
  {
    var run' := run.Set(l, c);
    forall m: Log ensures EntryCount(g, run', m, phases[Index(m)]) {
      if m != l {
        assert EntryCount(g, run, m, phases[Index(m)]) && run'.Get(m) == run.Get(m);
      }
    }
  }

  /** Moving one collector on. */
  lemma MoveCollector(g: Graph, w: World, w': World, scan: string, l: Log, c: Collector)
    requires g.Valid() && CountInv(g, w) && Inv(g, w') && scan in w.runs
    requires w'.pending == map[] && w'.docs == w.docs && w'.runs == w.runs[scan := w.runs[scan].Set(l, c)]
    requires CollectorCount(g, w.runs[scan].Set(l, c), l)
    requires scan in w.docs ==> EntryCount(g, w.runs[scan].Set(l, c), l, w.docs[scan][Index(l)])
    ensures CountInv(g, w')
  {
    SetCount(g, w.runs[scan], l, c);
    if scan in w.docs {
      SetRecord(g, w.runs[scan], l, c, w.docs[scan]);
    }
    OneRun(g, w, w', scan, w.runs[scan].Set(l, c));
  }

  lemma StartLogCount(g: Graph, w: World, step: Step)
    requires g.Valid() && CountInv(g, w) && Enabled(g, w, step) && step.StartLog?
    ensures CountInv(g, Next(g, w, step))
  {
    StepOk(g, w, step);
    var run, l := w.runs[step.scan], step.l;
    var c := Begin(run.checkpoints, l);
    BeginOk(g, w, run, l);
    assert CollectorOk(g, w, l, c) && RunCount(g, run);
    if NameOf(l) in run.checkpoints {
      assert Consistent(g.Chain(l), run.checkpoints[NameOf(l)]);
    }
    assert CollectorCount(g, run.Set(l, c), l);
    if step.scan in w.docs {
      assert EntryCount(g, run, l, w.docs[step.scan][Index(l)]);
    }
    MoveCollector(g, w, Next(g, w, step), step.scan, l, c);
  }

  lemma FetchCount(g: Graph, w: World, step: Step)
    requires g.Valid() && CountInv(g, w) && Enabled(g, w, step) && step.Fetch?
    ensures CountInv(g, Next(g, w, step))
  {
    StepOk(g, w, step);
    var run, l := w.runs[step.scan], step.l;
    assert CollectorCount(g, run, l);
    if step.scan in w.docs {
      assert EntryCount(g, run, l, w.docs[step.scan][Index(l)]);
    }
    MoveCollector(g, w, Next(g, w, step), step.scan, l, Next(g, w, step).runs[step.scan].Get(l));
  }

  lemma FailCount(g: Graph, w: World, step: Step)
    requires g.Valid() && CountInv(g, w) && Enabled(g, w, step) && step.Fail?
    ensures CountInv(g, Next(g, w, step))
  {
    StepOk(g, w, step);
    var run, l := w.runs[step.scan], step.l;
    if step.scan in w.docs {
      assert EntryCount(g, run, l, w.docs[step.scan][Index(l)]);
    }
    MoveCollector(g, w, Next(g, w, step), step.scan, l, Failed(TotalOf(run.Get(l))));
  }

  lemma AdvanceCount(g: Graph, w: World, step: Step)
    requires g.Valid() && CountInv(g, w) && Enabled(g, w, step) && step.Advance?
    ensures CountInv(g, Next(g, w, step))
  {
    StepOk(g, w, step);
    var scan := step.actor.scan;
    var run := w.runs[scan];
    var w' := Next(g, w, step);
    assert RunCount(g, run);
    if step.actor.MainOf? {
      MainCount(g, run, w'.runs[scan]);
      OneRun(g, w, w', scan, w'.runs[scan]);
    } else {
      var l := step.actor.l;
      assert CollectorCount(g, run, l);
      if scan in w.docs {
        assert EntryCount(g, run, l, w.docs[scan][Index(l)]);
      }
      MoveCollector(g, w, w', scan, l, w'.runs[scan].Get(l));
    }
  }

  /** The main orchestrator's place does not matter to the counts. */
  lemma MainCount(g: Graph, run: Run, run': Run)
    requires g.Valid() && RunCount(g, run)
    requires run' == run.(main := run'.main)
    ensures RunCount(g, run')
    ensures forall phases :: RecordCount(g, run, phases) ==> RecordCount(g, run', phases)
  {
    forall l: Log ensures CollectorCount(g, run', l) {
      assert CollectorCount(g, run, l) && run'.Get(l) == run.Get(l);
    }
    forall phases | RecordCount(g, run, phases) ensures RecordCount(g, run', phases) {
      forall l: Log ensures EntryCount(g, run', l, phases[Index(l)]) {
        assert EntryCount(g, run, l, phases[Index(l)]) && run'.Get(l) == run.Get(l);
      }
    }
  }

  lemma StandardLookup(phases: Phases, e: PhaseEntry, l: Log)
    requires Standard(phases) && e in phases && e.name == NameOf(l)
    ensures e == phases[Index(l)]
  {
    var i :| 0 <= i < |phases| && phases[i] == e;
  }

  lemma LoadCount(g: Graph, w: World, step: Step)
    requires g.Valid() && CountInv(g, w) && Enabled(g, w, step) && step.LoadCheckpoint?
    ensures CountInv(g, Next(g, w, step))
  {
    StepOk(g, w, step);
    var scan := step.scan;
    var w' := Next(g, w, step);
    var run, run' := w.runs[scan], w'.runs[scan];
    assert RunOk(g, w, run);
    forall l: Log | NameOf(l) in run'.checkpoints ensures Consistent(g.Chain(l), run'.checkpoints[NameOf(l)]) {
      var from := w.docs[run.resume.value];
      assert RecordCount(g, w.runs[run.resume.value], from);
      StandardLookup(from, run'.checkpoints[NameOf(l)], l);
      assert EntryCount(g, w.runs[run.resume.value], l, from[Index(l)]);
    }
    forall l: Log ensures CollectorCount(g, run', l) {
      assert run'.Get(l) == run.Get(l) && run.Get(l).NotStarted?;
    }
    if scan in w.docs {
      forall l: Log ensures EntryCount(g, run', l, w.docs[scan][Index(l)]) {
        assert w.docs[scan][Index(l)] in w.docs[scan] && w.docs[scan][Index(l)].name == NameOf(l);
      }
    }
    OneRun(g, w, w', scan, run');
  }

  lemma OtherCount(g: Graph, w: World, step: Step)
    requires g.Valid() && CountInv(g, w) && Enabled(g, w, step)
    requires step.StartScan? || step.Register? || step.FetchDies?
    ensures CountInv(g, Next(g, w, step))
  {
    StepOk(g, w, step);
    var w' := Next(g, w, step);
    var run' := w'.runs[step.scan];
    if !step.StartScan? {
      assert w'.runs == w.runs[step.scan := w.runs[step.scan]];
      assert RunCount(g, run');
    }
    OneRun(g, w, w', step.scan, run');
  }

  // ---- Atomic updates ----

  lemma {:induction false} UpdateElsewhere(phases: Phases, name: string, status: string, items: nat,
                                           link: Option<Link>, i: nat)
    requires i < |phases|
    ensures ApplyUpdate(phases, name, status, items, link)[i].name == phases[i].name
    ensures phases[i].name != name ==> ApplyUpdate(phases, name, status, items, link)[i] == phases[i]
  {
    if phases[0].name != name && i > 0 {
      UpdateElsewhere(phases[1..], name, status, items, link, i - 1);
    }
  }

  lemma FinalizeCount(g: Graph, run: Run, phases: Phases)
    requires g.Valid() && RecordCount(g, run, phases)
    ensures RecordCount(g, run, FinalizePhases(phases))
  {
    forall i | 0 <= i < |phases| ensures FinalizePhases(phases)[i] == Finalized(phases[i]) {
      FinalizedAt(phases, i);
    }
    forall l: Log ensures EntryCount(g, run, l, FinalizePhases(phases)[Index(l)]) {
      assert EntryCount(g, run, l, phases[Index(l)]);
    }
  }

  lemma OtherPhaseCount(g: Graph, run: Run, phases: Phases, name: string, status: string, items: nat)
    requires g.Valid() && RecordCount(g, run, phases) && name != NameOf(AuditLogs) && name != NameOf(SignInLogs)
    ensures RecordCount(g, run, ApplyUpdate(phases, name, status, items, None))
  {
    var after := ApplyUpdate(phases, name, status, items, None);
    forall i | 0 <= i < |phases|
      ensures after[i].name == phases[i].name && (phases[i].name != name ==> after[i] == phases[i])
    {
      UpdateElsewhere(phases, name, status, items, None, i);
    }
    forall l: Log ensures EntryCount(g, run, l, after[Index(l)]) {
      assert EntryCount(g, run, l, phases[Index(l)]) && phases[Index(l)].name == NameOf(l);
    }
  }

  /** Updating a log's own entry. */
  lemma OwnPhaseCount(g: Graph, run: Run, run': Run, phases: Phases, l: Log, status: string, items: nat,
                      link: Option<Link>)
    requires g.Valid() && RecordCount(g, run, phases)
    requires run'.checkpoints == run.checkpoints && forall m: Log | m != l :: run'.Get(m) == run.Get(m)
    requires EntryCount(g, run', l, Updated(phases[Index(l)], status, items, link))
    ensures RecordCount(g, run', ApplyUpdate(phases, NameOf(l), status, items, link))
  {
    var after := ApplyUpdate(phases, NameOf(l), status, items, link);
    UpdateAt(phases, NameOf(l), status, items, link, Index(l));
    forall m: Log ensures EntryCount(g, run', m, after[Index(m)]) {
      if m != l {
        assert EntryCount(g, run, m, phases[Index(m)]);
      }
    }
  }

  lemma CollectorUpdateCount(g: Graph, run: Run, phases: Phases, l: Log, scan: string)
    requires g.Valid() && RunCount(g, run) && RecordCount(g, run, phases)
    requires run.Get(l).Reporting? || run.Get(l).Completing?
    ensures var c := run.Get(l);
            var after := if c.Reporting? then ApplyUpdate(phases, NameOf(l), RUNNING, c.total, c.next)
                         else ApplyUpdate(phases, NameOf(l), COMPLETED, c.total, None);
            RunCount(g, MarkWritten(run, CollectorOf(scan, l))) &&
            RecordCount(g, MarkWritten(run, CollectorOf(scan, l)), after)
  {
    var c := run.Get(l);
    var run' := MarkWritten(run, CollectorOf(scan, l));
    var c' := run'.Get(l);
    assert CollectorCount(g, run, l) && EntryCount(g, run, l, phases[Index(l)]);
    assert run' == run.Set(l, c');
    SetCount(g, run, l, c');
    if c.Reporting? {
      OwnPhaseCount(g, run, run', phases, l, RUNNING, c.total, c.next);
    } else {
      OwnPhaseCount(g, run, run', phases, l, COMPLETED, c.total, None);
    }
  }

  lemma MainUpdateCount(g: Graph, w: World, run: Run, phases: Phases, scan: string)
    requires g.Valid() && RunCount(g, run) && RecordCount(g, run, phases) && RunOk(g, w, run)
    requires run.main.Marking? && Untouched(phases)
    ensures RunCount(g, MarkWritten(run, MainOf(scan)))
    ensures RecordCount(g, MarkWritten(run, MainOf(scan)), ApplyUpdate(phases, NameOf(run.main.l), RUNNING, 0, None))
  {
    var run' := MarkWritten(run, MainOf(scan));
    var l := run.main.l;
    MainCount(g, run, run');
    assert EntryCount(g, run, l, phases[Index(l)]) && run.Get(l).NotStarted?;
    assert phases[Index(l)] in phases && phases[Index(l)].name == NameOf(l);
    OwnPhaseCount(g, run, run', phases, l, RUNNING, 0, None);
  }

  /** What an update makes of run and record keeps the counts. */
  lemma ChangeCount(g: Graph, w: World, a: Actor)
    requires g.Valid() && CountInv(g, w) && Enabled(g, w, Read(a))
    ensures RunCount(g, MarkWritten(w.runs[a.scan], a))
    ensures RecordCount(g, MarkWritten(w.runs[a.scan], a), Change(w, a, w.docs[a.scan]).value)
  {
    var run, phases := w.runs[a.scan], w.docs[a.scan];
    assert RunCount(g, run) && RecordCount(g, run, phases) && RunOk(g, w, run);
    match a {
      case MainOf(_) => MainUpdateCount(g, w, run, phases, a.scan);
      case CollectorOf(_, l) => CollectorUpdateCount(g, run, phases, l, a.scan);
      case Outside(_, _, FailOpenPhases) => FinalizeCount(g, run, phases);
      case Outside(_, _, LeavePhases) =>
      case Outside(_, _, OtherPhase(name, status, items)) => OtherPhaseCount(g, run, phases, name, status, items);
    }
  }

  /** What a read and its write, with nothing between, make of the world. */
  lemma UpdatedWorld(g: Graph, w: World, a: Actor) returns (w2: World)
    requires g.Valid() && CountInv(g, w) && Enabled(g, w, Read(a))
    ensures Enabled(g, Next(g, w, Read(a)), Write(a)) && w2 == Next(g, Next(g, w, Read(a)), Write(a)) && Inv(g, w2)
    ensures w2.docs == w.docs[a.scan := Change(w, a, w.docs[a.scan]).value]
    ensures w2.runs == w.runs[a.scan := MarkWritten(w.runs[a.scan], a)]
    ensures w2.pending == map[] && w2.stored == w.stored && w2.lost == w.lost
  {
    StepOk(g, w, Read(a));
    var w1 := Next(g, w, Read(a));
    StepOk(g, w1, Write(a));
    w2 := Next(g, w1, Write(a));
    assert w2.pending == map[];
  }

  lemma UpdateCount(g: Graph, w: World, a: Actor)
    requires g.Valid() && CountInv(g, w) && Enabled(g, w, Read(a))
    ensures Enabled(g, Next(g, w, Read(a)), Write(a))
    ensures CountInv(g, Next(g, Next(g, w, Read(a)), Write(a)))
  {
    var w2 := UpdatedWorld(g, w, a);
    ChangeCount(g, w, a);
    OneRun(g, w, w2, a.scan, MarkWritten(w.runs[a.scan], a));
  }

  lemma SingleStepCount(g: Graph, w: World, step: Step)
    requires g.Valid() && CountInv(g, w) && Enabled(g, w, step) && !step.Read? && !step.Write?
    ensures CountInv(g, Next(g, w, step))
  {
    if step.LoadCheckpoint? {
      LoadCount(g, w, step);
    } else if step.StartLog? {
      StartLogCount(g, w, step);
    } else if step.Fetch? {
      FetchCount(g, w, step);
    } else if step.Advance? {
      AdvanceCount(g, w, step);
    } else if step.Fail? {
      FailCount(g, w, step);
    } else {
      OtherCount(g, w, step);
    }
  }

  lemma {:induction false} AtomicRun(g: Graph, w: World, steps: seq<Step>)
    requires g.Valid() && CountInv(g, w) && Legal(g, w, steps) && Atomic(steps)
    ensures CountInv(g, Exec(g, w, steps))
    decreases |steps|
  {
    if steps == [] {
    } else if steps[0].Read? {
      var a := steps[0].actor;
      var w1 := Next(g, w, steps[0]);
      UpdateCount(g, w, a);
      assert steps[1..][0] == Write(a) && steps[1..][1..] == steps[2..];
      AtomicRun(g, Next(g, w1, Write(a)), steps[2..]);
    } else {
      SingleStepCount(g, w, steps[0]);
      AtomicRun(g, Next(g, w, steps[0]), steps[1..]);
    }
  }

  /** With atomic updates, after any chain of failures and resumes, a completed phase reports the exact number
      of events of the chain, plus the last page once more exactly when its run was resumed from a tail record. */
  lemma CompletedCount(g: Graph, steps: seq<Step>, scan: string, e: PhaseEntry, l: Log)
    requires g.Valid() && Legal(g, Start(), steps) && Atomic(steps)
    requires scan in Exec(g, Start(), steps).docs && e in Exec(g, Start(), steps).docs[scan]
    requires e.name == NameOf(l) && e.status == COMPLETED
    ensures scan in Exec(g, Start(), steps).runs
    ensures var run := Exec(g, Start(), steps).runs[scan];
            var last := g.Chain(l)[|g.Chain(l)| - 1];
            && e.items == Count(g.Chain(l), |g.Chain(l)|) + (if StartsAtTail(g, run, l) then |last| else 0)
            && (e.items == Count(g.Chain(l), |g.Chain(l)|) <==> !StartsAtTail(g, run, l) || last == [])
  {
    AtomicRun(g, Start(), steps);
    var w := Exec(g, Start(), steps);
    assert RecordCount(g, w.runs[scan], w.docs[scan]);
    StandardLookup(w.docs[scan], e, l);
    assert EntryCount(g, w.runs[scan], l, e);
  }
}
