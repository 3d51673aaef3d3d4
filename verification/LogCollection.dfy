/** Audit and sign-in log collection as a step system: any number of scans, each resuming from an earlier
    record or from nothing, with two collectors, the main orchestrator and outside writers doing unlocked
    read-modify-write on one scan record, and failures anywhere. */
module LogCollection {
  import opened Documents
  import opened ScanState

  type Event = string
  type Pages = seq<seq<Event>>

  datatype Log = AuditLogs | SignInLogs

  function NameOf(l: Log): string {
    match l
    case AuditLogs => "audit_logs"
    case SignInLogs => "sign_in_logs"
  }

  /** The two page chains Graph serves; the first page always exists. */
  datatype Graph = Graph(audit: Pages, signIn: Pages) {
    function Chain(l: Log): Pages {
      match l
      case AuditLogs => audit
      case SignInLogs => signIn
    }

    predicate Valid() {
      audit != [] && signIn != []
    }
  }

  /** The link a page carries to the next one. */
  function NextLink(pages: Pages, k: nat): Option<Link> {
    if k + 1 < |pages| then Some(k + 1) else None
  }

  /** A collector. `Reporting` and `Completing` are the two phase updates; `written` says that the pending
      update has reached the record at least once. */
  datatype Collector =
    | NotStarted
    | Fetching(total: nat, page: nat)
    | Reporting(total: nat, next: Option<Link>, written: bool)
    | Completing(total: nat, written: bool)
    | Ended(total: nat)
    | Failed(total: nat)

  datatype Main = Loading | Marking(l: Log, written: bool) | Collecting

  datatype Run = Run(resume: Option<string>, checkpoints: map<string, PhaseEntry>, main: Main,
                     audit: Collector, signIn: Collector)
  {
    function Get(l: Log): Collector {
      match l
      case AuditLogs => audit
      case SignInLogs => signIn
    }

    function Set(l: Log, c: Collector): (r: Run)
      ensures r.Get(l) == c && forall m | m != l :: r.Get(m) == Get(m)
      ensures r.main == main && r.checkpoints == checkpoints && r.resume == resume
    {
      match l
      case AuditLogs => this.(audit := c)
      case SignInLogs => this.(signIn := c)
    }
  }

  /** What a writer outside the collection phase does to a record: the poller and the cancel request fail
      open phases, the orchestrator updates its later phases, the queue and heartbeat leave phases alone. */
  datatype Edit = FailOpenPhases | LeavePhases | OtherPhase(name: string, status: string, items: nat)

  datatype Actor = MainOf(scan: string) | CollectorOf(scan: string, l: Log) | Outside(scan: string, id: nat, edit: Edit)

  datatype World = World(stored: set<Event>, lost: set<Event>, docs: map<string, Phases>,
                         runs: map<string, Run>, pending: map<Actor, Phases>)

  datatype Step =
    | StartScan(scan: string, resume: Option<string>)
    | Register(scan: string)
    | LoadCheckpoint(scan: string)
    | StartLog(scan: string, l: Log)
    | Fetch(scan: string, l: Log, dropped: set<Event>)
    | FetchDies(scan: string, l: Log, kept: set<Event>)
    | Read(actor: Actor)
    | Write(actor: Actor)
    | Advance(actor: Actor)
    | Fail(scan: string, l: Log)

  /** The phases of a new scan record. */
  function FreshPhases(): Phases {
    [PhaseEntry("audit_logs", PENDING, 0, None), PhaseEntry("sign_in_logs", PENDING, 0, None),
     PhaseEntry("role_assignments", PENDING, 0, None), PhaseEntry("identity_profiles", PENDING, 0, None),
     PhaseEntry("action_events", PENDING, 0, None)]
  }

  function PageEvents(pages: Pages, k: nat): set<Event>
    requires k < |pages|
  {
    set e | e in pages[k]
  }

  /** The update an actor is about to make, if it is at such a point. */
  function Change(w: World, a: Actor, phases: Phases): Option<Phases> {
    if a.scan !in w.runs then None
    else
      var run := w.runs[a.scan];
      match a
      case MainOf(_) =>
        if run.main.Marking? then Some(ApplyUpdate(phases, NameOf(run.main.l), RUNNING, 0, None)) else None
      case CollectorOf(_, l) =>
        var c := run.Get(l);
        if c.Reporting? then Some(ApplyUpdate(phases, NameOf(l), RUNNING, c.total, c.next))
        else if c.Completing? then Some(ApplyUpdate(phases, NameOf(l), COMPLETED, c.total, None))
        else None
      case Outside(_, _, FailOpenPhases) => Some(FinalizePhases(phases))
      case Outside(_, _, LeavePhases) => Some(phases)
      case Outside(_, _, OtherPhase(name, status, items)) =>
        if name == NameOf(AuditLogs) || name == NameOf(SignInLogs) then None
        else Some(ApplyUpdate(phases, name, status, items, None))
  }

  /** How a collector begins, given the checkpoint loaded for its phase. */
  function Begin(checkpoints: map<string, PhaseEntry>, l: Log): Collector {
    if NameOf(l) !in checkpoints then Fetching(0, 0)
    else
      var e := checkpoints[NameOf(l)];
      if e.status == COMPLETED then Ended(e.items)
      else if e.checkpoint.Some? then Fetching(e.items, e.checkpoint.value)
      else Fetching(0, 0)
  }

  predicate HasRun(w: World, scan: string, main: bool) {
    scan in w.runs && (main ==> w.runs[scan].main.Collecting?)
  }

  /** The phase update the actor was making has been written. */
  predicate UpdateDone(run: Run, a: Actor) {
    match a
    case MainOf(_) => run.main.Marking? && run.main.written
    case CollectorOf(_, l) => (run.Get(l).Reporting? || run.Get(l).Completing?) && run.Get(l).written
    case Outside(_, _, _) => false
  }

  predicate Enabled(g: Graph, w: World, step: Step) {
    match step
    case StartScan(scan, _) => scan !in w.runs
    case Register(scan) => scan in w.runs
    case LoadCheckpoint(scan) => scan in w.runs && w.runs[scan].main.Loading?
    case StartLog(scan, l) => HasRun(w, scan, true) && w.runs[scan].Get(l).NotStarted?
    case Fetch(scan, l, _) => HasRun(w, scan, true) && w.runs[scan].Get(l).Fetching? &&
      w.runs[scan].Get(l).page < |g.Chain(l)|
    case FetchDies(scan, l, _) => HasRun(w, scan, true) && w.runs[scan].Get(l).Fetching? &&
      w.runs[scan].Get(l).page < |g.Chain(l)|
    case Read(a) => a.scan in w.docs && Change(w, a, w.docs[a.scan]).Some?
    case Write(a) => a in w.pending && a.scan in w.runs
    case Advance(a) =>
      a !in w.pending && a.scan in w.runs && UpdateDone(w.runs[a.scan], a)
    case Fail(scan, l) => scan in w.runs && !w.runs[scan].Get(l).NotStarted? && !w.runs[scan].Get(l).Ended?
  }

  function TotalOf(c: Collector): nat {
    match c
    case NotStarted => 0
    case Fetching(t, _) => t
    case Reporting(t, _, _) => t
    case Completing(t, _) => t
    case Ended(t) => t
    case Failed(t) => t
  }

  function SetRun(w: World, scan: string, run: Run): World {
    w.(runs := w.runs[scan := run])
  }

  function MarkWritten(run: Run, a: Actor): Run {
    match a
    case MainOf(_) => if run.main.Marking? then run.(main := run.main.(written := true)) else run
    case CollectorOf(_, l) =>
      var c := run.Get(l);
      if c.Reporting? then run.Set(l, Reporting(c.total, c.next, true))
      else if c.Completing? then run.Set(l, Completing(c.total, true))
      else run
    case Outside(_, _, _) => run
  }

  function AdvanceRun(run: Run, a: Actor): Run {
    match a
    case MainOf(_) =>
      if run.main.Marking? then
        run.(main := if run.main.l.AuditLogs? then Marking(SignInLogs, false) else Collecting)
      else run
    case CollectorOf(_, l) =>
      var c := run.Get(l);
      if c.Reporting? then
        run.Set(l, if c.next.Some? then Fetching(c.total, c.next.value) else Completing(c.total, false))
      else if c.Completing? then run.Set(l, Ended(c.total))
      else run
    case Outside(_, _, _) => run
  }

  function Next(g: Graph, w: World, step: Step): World
    requires Enabled(g, w, step)
  {
    match step
    case StartScan(scan, resume) => SetRun(w, scan, Run(resume, map[], Loading, NotStarted, NotStarted))
    case Register(scan) => w.(docs := w.docs[scan := FreshPhases()])
    case LoadCheckpoint(scan) =>
      var run := w.runs[scan];
      var from := if run.resume.Some? && run.resume.value in w.docs then Checkpoints(w.docs[run.resume.value])
          else map[];
      SetRun(w, scan, run.(checkpoints := from, main := Marking(AuditLogs, false)))
    case StartLog(scan, l) => SetRun(w, scan, w.runs[scan].Set(l, Begin(w.runs[scan].checkpoints, l)))
    case Fetch(scan, l, dropped) =>
      var c := w.runs[scan].Get(l);
      var page := g.Chain(l)[c.page];
      SetRun(w, scan, w.runs[scan].Set(l, Reporting(c.total + |page|, NextLink(g.Chain(l), c.page), false)))
        .(stored := w.stored + (PageEvents(g.Chain(l), c.page) - dropped),
          lost := w.lost + (PageEvents(g.Chain(l), c.page) * dropped))
    case FetchDies(scan, l, kept) =>
      w.(stored := w.stored + (PageEvents(g.Chain(l), w.runs[scan].Get(l).page) * kept))
    case Read(a) => w.(pending := w.pending[a := Change(w, a, w.docs[a.scan]).value])
    case Write(a) =>
      SetRun(w, a.scan, MarkWritten(w.runs[a.scan], a))
        .(docs := w.docs[a.scan := w.pending[a]], pending := w.pending - {a})
    case Advance(a) => SetRun(w, a.scan, AdvanceRun(w.runs[a.scan], a))
    case Fail(scan, l) => SetRun(w, scan, w.runs[scan].Set(l, Failed(TotalOf(w.runs[scan].Get(l)))))
  }

  function Start(): World {
    World({}, {}, map[], map[], map[])
  }

  predicate Legal(g: Graph, w: World, steps: seq<Step>)
    decreases |steps|
  {
    steps == [] || (Enabled(g, w, steps[0]) && Legal(g, Next(g, w, steps[0]), steps[1..]))
  }

  function Exec(g: Graph, w: World, steps: seq<Step>): World
    requires Legal(g, w, steps)
    decreases |steps|
  {
    if steps == [] then w else Exec(g, Next(g, w, steps[0]), steps[1..])
  }

  // ---- The invariant ----

  /** How many events the first `k` pages carry. */
  function Count(pages: Pages, k: nat): nat
    requires k <= |pages|
  {
    if k == 0 then 0 else Count(pages, k - 1) + |pages[k - 1]|
  }

  lemma {:induction false} CountMonotone(pages: Pages, k: nat, m: nat)
    requires k <= m <= |pages|
    ensures Count(pages, k) <= Count(pages, m)
    decreases m
  {
    if k < m {
      CountMonotone(pages, k, m - 1);
    }
  }

  /** Every event of the first `k` pages is stored, or was refused by the container when written. */
  predicate Covered(w: World, pages: Pages, k: nat)
    requires k <= |pages|
  {
    forall i, j | 0 <= i < k && 0 <= j < |pages[i]| :: pages[i][j] in w.stored + w.lost
  }

  predicate Reached(w: World, pages: Pages, k: nat, items: nat) {
    k <= |pages| && Covered(w, pages, k) && Count(pages, k) <= items
  }

  predicate EntryOk(g: Graph, w: World, e: PhaseEntry) {
    forall l: Log | e.name == NameOf(l) ::
      && (e.checkpoint.Some? ==>
          0 < e.checkpoint.value < |g.Chain(l)| && Reached(w, g.Chain(l), e.checkpoint.value, e.items))
      && (e.status == COMPLETED ==> Reached(w, g.Chain(l), |g.Chain(l)|, e.items))
  }

  predicate PhasesOk(g: Graph, w: World, phases: Phases) {
    forall e | e in phases :: EntryOk(g, w, e)
  }

  /** No collector has written to these phases yet. */
  predicate Untouched(phases: Phases) {
    forall e, l: Log | e in phases && e.name == NameOf(l) :: e.checkpoint.None? && e.status != COMPLETED
  }

  predicate CollectorOk(g: Graph, w: World, l: Log, c: Collector) {
    var pages := g.Chain(l);
    match c
    case NotStarted => true
    case Fetching(total, page) => page < |pages| && Reached(w, pages, page, total)
    case Reporting(total, next, _) =>
      if next.Some? then 0 < next.value < |pages| && Reached(w, pages, next.value, total)
      else Reached(w, pages, |pages|, total)
    case Completing(total, _) => Reached(w, pages, |pages|, total)
    case Ended(total) => Reached(w, pages, |pages|, total)
    case Failed(_) => true
  }

  predicate RunOk(g: Graph, w: World, run: Run) {
    && (forall name | name in run.checkpoints ::
        run.checkpoints[name].name == name && EntryOk(g, w, run.checkpoints[name]))
    && (forall l: Log :: CollectorOk(g, w, l, run.Get(l)))
    && (!run.main.Collecting? ==> forall l: Log :: run.Get(l).NotStarted?)
  }

  predicate Inv(g: Graph, w: World) {
    && (forall scan | scan in w.docs :: scan in w.runs && PhasesOk(g, w, w.docs[scan]))
    && (forall a | a in w.pending :: a.scan in w.runs && PhasesOk(g, w, w.pending[a]))
    && (forall scan | scan in w.runs :: RunOk(g, w, w.runs[scan]))
    && (forall scan | scan in w.docs && !w.runs[scan].main.Collecting? :: Untouched(w.docs[scan]))
    && (forall a | a in w.pending && !w.runs[a.scan].main.Collecting? :: Untouched(w.pending[a]))
  }

  predicate Grows(w: World, w': World) {
    w.stored <= w'.stored && w.lost <= w'.lost
  }

  lemma ReachedGrows(w: World, w': World, pages: Pages, k: nat, items: nat)
    requires Grows(w, w') && Reached(w, pages, k, items)
    ensures Reached(w', pages, k, items)
  {
  }

  lemma EntryGrows(g: Graph, w: World, w': World, e: PhaseEntry)
    requires Grows(w, w') && EntryOk(g, w, e)
    ensures EntryOk(g, w', e)
  {
    forall l: Log | e.name == NameOf(l)
      ensures e.checkpoint.Some? ==> Reached(w', g.Chain(l), e.checkpoint.value, e.items)
      ensures e.status == COMPLETED ==> Reached(w', g.Chain(l), |g.Chain(l)|, e.items)
    {
      if e.checkpoint.Some? {
        ReachedGrows(w, w', g.Chain(l), e.checkpoint.value, e.items);
      }
      if e.status == COMPLETED {
        ReachedGrows(w, w', g.Chain(l), |g.Chain(l)|, e.items);
      }
    }
  }

  lemma PhasesGrow(g: Graph, w: World, w': World, phases: Phases)
    requires Grows(w, w') && PhasesOk(g, w, phases)
    ensures PhasesOk(g, w', phases)
  {
    forall e | e in phases ensures EntryOk(g, w', e) {
      EntryGrows(g, w, w', e);
    }
  }

  lemma CollectorGrows(g: Graph, w: World, w': World, l: Log, c: Collector)
    requires Grows(w, w') && CollectorOk(g, w, l, c)
    ensures CollectorOk(g, w', l, c)
  {
  }

  lemma RunGrows(g: Graph, w: World, w': World, run: Run)
    requires Grows(w, w') && RunOk(g, w, run)
    ensures RunOk(g, w', run)
  {
    forall name | name in run.checkpoints ensures EntryOk(g, w', run.checkpoints[name]) {
      EntryGrows(g, w, w', run.checkpoints[name]);
    }
    forall l: Log ensures CollectorOk(g, w', l, run.Get(l)) {
      CollectorGrows(g, w, w', l, run.Get(l));
    }
  }

  /** Steps that touch one run, and the event store, keep the invariant if the run stays good. */
  lemma RunStep(g: Graph, w: World, w': World, scan: string, run: Run)
    requires Inv(g, w) && Grows(w, w')
    requires w'.runs == w.runs[scan := run] && w'.docs == w.docs && w'.pending == w.pending
    requires RunOk(g, w', run)
    requires scan in w.runs ==> (w.runs[scan].main.Collecting? ==> run.main.Collecting?)
    ensures Inv(g, w')
  {
    forall s | s in w'.docs ensures s in w'.runs && PhasesOk(g, w', w'.docs[s]) {
      PhasesGrow(g, w, w', w.docs[s]);
    }
    forall a | a in w'.pending ensures a.scan in w'.runs && PhasesOk(g, w', w'.pending[a]) {
      PhasesGrow(g, w, w', w.pending[a]);
    }
    forall s | s in w'.runs ensures RunOk(g, w', w'.runs[s]) {
      if s != scan {
        RunGrows(g, w, w', w.runs[s]);
      }
    }
  }

  lemma PageCovered(g: Graph, w: World, w': World, l: Log, page: nat, total: nat)
    requires page < |g.Chain(l)| && Reached(w, g.Chain(l), page, total) && Grows(w, w')
    requires PageEvents(g.Chain(l), page) <= w'.stored + w'.lost
    ensures Reached(w', g.Chain(l), page + 1, total + |g.Chain(l)[page]|)
  {
    var pages := g.Chain(l);
    forall i, j | 0 <= i < page + 1 && 0 <= j < |pages[i]| ensures pages[i][j] in w'.stored + w'.lost {
      if i == page {
        assert pages[i][j] in PageEvents(pages, page);
      }
    }
  }

  lemma FetchOk(g: Graph, w: World, step: Step)
    requires Inv(g, w) && Enabled(g, w, step) && step.Fetch?
    ensures Inv(g, Next(g, w, step))
  {
    var w' := Next(g, w, step);
    var run, l := w.runs[step.scan], step.l;
    var c := run.Get(l);
    assert CollectorOk(g, w, l, c);
    var events := PageEvents(g.Chain(l), c.page);
    assert events == (events - step.dropped) + (events * step.dropped);
    PageCovered(g, w, w', l, c.page, c.total);
    RunGrows(g, w, w', run);
    RunStep(g, w, w', step.scan, w'.runs[step.scan]);
  }

  lemma BeginOk(g: Graph, w: World, run: Run, l: Log)
    requires g.Valid() && RunOk(g, w, run)
    ensures CollectorOk(g, w, l, Begin(run.checkpoints, l))
  {
    if NameOf(l) in run.checkpoints {
      assert EntryOk(g, w, run.checkpoints[NameOf(l)]);
    }
  }

  lemma StartLogOk(g: Graph, w: World, step: Step)
    requires g.Valid() && Inv(g, w) && Enabled(g, w, step) && step.StartLog?
    ensures Inv(g, Next(g, w, step))
  {
    var run := w.runs[step.scan];
    var run' := run.Set(step.l, Begin(run.checkpoints, step.l));
    var w' := Next(g, w, step);
    assert RunOk(g, w, run);
    BeginOk(g, w, run, step.l);
    RunGrows(g, w, w', run);
    assert RunOk(g, w', run');
    RunStep(g, w, w', step.scan, run');
  }

  lemma LoadOk(g: Graph, w: World, step: Step)
    requires Inv(g, w) && Enabled(g, w, step) && step.LoadCheckpoint?
    ensures Inv(g, Next(g, w, step))
  {
    var w' := Next(g, w, step);
    var run, run' := w.runs[step.scan], w'.runs[step.scan];
    assert RunOk(g, w, run);
    forall name | name in run'.checkpoints
      ensures run'.checkpoints[name].name == name && EntryOk(g, w, run'.checkpoints[name])
    {
      assert PhasesOk(g, w, w.docs[run.resume.value]);
    }
    forall l: Log ensures CollectorOk(g, w', l, run'.Get(l)) && run'.Get(l).NotStarted? {
      assert run'.Get(l) == run.Get(l) && CollectorOk(g, w, l, run.Get(l));
    }
    assert RunOk(g, w', run');
    RunStep(g, w, w', step.scan, run');
  }

  lemma FetchDiesOk(g: Graph, w: World, step: Step)
    requires Inv(g, w) && Enabled(g, w, step) && step.FetchDies?
    ensures Inv(g, Next(g, w, step))
  {
    var w' := Next(g, w, step);
    var run := w.runs[step.scan];
    assert w'.runs == w.runs[step.scan := run];
    RunGrows(g, w, w', run);
    RunStep(g, w, w', step.scan, run);
  }

  lemma StartScanOk(g: Graph, w: World, step: Step)
    requires Inv(g, w) && Enabled(g, w, step) && step.StartScan?
    ensures Inv(g, Next(g, w, step))
  {
    var w' := Next(g, w, step);
    RunStep(g, w, w', step.scan, w'.runs[step.scan]);
  }

  lemma FailedRunOk(g: Graph, w: World, run: Run, l: Log)
    requires RunOk(g, w, run) && !run.Get(l).NotStarted?
    ensures RunOk(g, w, run.Set(l, Failed(TotalOf(run.Get(l)))))
  {
    var run' := run.Set(l, Failed(TotalOf(run.Get(l))));
    forall k: Log ensures CollectorOk(g, w, k, run'.Get(k)) {
      assert CollectorOk(g, w, k, run.Get(k));
    }
  }

  lemma FailOk(g: Graph, w: World, step: Step)
    requires Inv(g, w) && Enabled(g, w, step) && step.Fail?
    ensures Inv(g, Next(g, w, step))
  {
    var w' := Next(g, w, step);
    var run := w.runs[step.scan];
    var run' := run.Set(step.l, Failed(TotalOf(run.Get(step.l))));
    FailedRunOk(g, w, run, step.l);
    RunGrows(g, w, w', run');
    RunStep(g, w, w', step.scan, run');
  }

  lemma AdvanceRunOk(g: Graph, w: World, run: Run, a: Actor)
    requires RunOk(g, w, run) && UpdateDone(run, a) && g.Valid()
    ensures RunOk(g, w, AdvanceRun(run, a))
    ensures run.main.Collecting? ==> AdvanceRun(run, a).main.Collecting?
  {
    var run' := AdvanceRun(run, a);
    forall l: Log ensures CollectorOk(g, w, l, run'.Get(l)) {
      assert CollectorOk(g, w, l, run.Get(l));
    }
    if !run'.main.Collecting? {
      assert !run.main.Collecting?;
      forall l: Log ensures run'.Get(l).NotStarted? {
        assert run.Get(l).NotStarted?;
      }
    }
  }

  lemma AdvanceOk(g: Graph, w: World, step: Step)
    requires g.Valid() && Inv(g, w) && Enabled(g, w, step) && step.Advance?
    ensures Inv(g, Next(g, w, step))
  {
    var scan := step.actor.scan;
    var w' := Next(g, w, step);
    AdvanceRunOk(g, w, w.runs[scan], step.actor);
    RunGrows(g, w, w', AdvanceRun(w.runs[scan], step.actor));
    RunStep(g, w, w', scan, AdvanceRun(w.runs[scan], step.actor));
  }

  // ---- Reads and writes of scan records ----

  lemma UpdateOk(g: Graph, w: World, phases: Phases, name: string, status: string, items: nat, link: Option<Link>)
    requires PhasesOk(g, w, phases)
    requires forall e | e in phases && e.name == name :: EntryOk(g, w, Updated(e, status, items, link))
    ensures PhasesOk(g, w, ApplyUpdate(phases, name, status, items, link))
  {
    var after := ApplyUpdate(phases, name, status, items, link);
    forall e | e in after ensures EntryOk(g, w, e) {
      UpdateEntries(phases, name, status, items, link, e);
    }
  }

  lemma EntryUntouched(phases: Phases, name: string, status: string, items: nat, e: PhaseEntry, l: Log)
    requires Untouched(phases) && (status != COMPLETED || name != NameOf(l))
    requires e in ApplyUpdate(phases, name, status, items, None) && e.name == NameOf(l)
    ensures e.checkpoint.None? && e.status != COMPLETED
  {
    UpdateEntries(phases, name, status, items, None, e);
  }

  lemma UpdateUntouched(phases: Phases, name: string, status: string, items: nat)
    requires Untouched(phases)
    requires status != COMPLETED || (name != NameOf(AuditLogs) && name != NameOf(SignInLogs))
    ensures Untouched(ApplyUpdate(phases, name, status, items, None))
  {
    var after := ApplyUpdate(phases, name, status, items, None);
    forall e, l: Log | e in after && e.name == NameOf(l) ensures e.checkpoint.None? && e.status != COMPLETED {
      EntryUntouched(phases, name, status, items, e, l);
    }
  }

  lemma FinalizeOk(g: Graph, w: World, phases: Phases)
    requires PhasesOk(g, w, phases)
    ensures PhasesOk(g, w, FinalizePhases(phases))
    ensures Untouched(phases) ==> Untouched(FinalizePhases(phases))
  {
    forall e | e in FinalizePhases(phases) ensures EntryOk(g, w, e) {
      FinalizeEntries(phases, e);
    }
    if Untouched(phases) {
      forall e, l: Log | e in FinalizePhases(phases) && e.name == NameOf(l)
        ensures e.checkpoint.None? && e.status != COMPLETED {
        FinalizeEntries(phases, e);
      }
    }
  }

  /** A collector's own update is good whatever good copy of the record it is applied to: a link it does
      not overwrite is covered, because its total is then the final one. */
  lemma CollectorUpdateOk(g: Graph, w: World, l: Log, c: Collector, e: PhaseEntry)
    requires EntryOk(g, w, e) && e.name == NameOf(l) && CollectorOk(g, w, l, c)
    ensures c.Reporting? ==> EntryOk(g, w, Updated(e, RUNNING, c.total, c.next))
    ensures c.Completing? ==> EntryOk(g, w, Updated(e, COMPLETED, c.total, None))
  {
    var pages := g.Chain(l);
    if e.checkpoint.Some? {
      CountMonotone(pages, e.checkpoint.value, |pages|);
    }
    assert forall m: Log :: NameOf(m) == NameOf(l) ==> m == l;
  }

  lemma ChangeOk(g: Graph, w: World, a: Actor, phases: Phases)
    requires Inv(g, w) && PhasesOk(g, w, phases) && Change(w, a, phases).Some?
    requires !w.runs[a.scan].main.Collecting? ==> Untouched(phases)
    ensures PhasesOk(g, w, Change(w, a, phases).value)
    ensures !w.runs[a.scan].main.Collecting? ==> Untouched(Change(w, a, phases).value)
  {
    var run := w.runs[a.scan];
    assert RunOk(g, w, run);
    match a
    case MainOf(_) =>
      UpdateUntouched(phases, NameOf(run.main.l), RUNNING, 0);
      UpdateOk(g, w, phases, NameOf(run.main.l), RUNNING, 0, None);
    case CollectorOf(_, l) =>
      var c := run.Get(l);
      forall e | e in phases && e.name == NameOf(l)
        ensures c.Reporting? ==> EntryOk(g, w, Updated(e, RUNNING, c.total, c.next))
        ensures c.Completing? ==> EntryOk(g, w, Updated(e, COMPLETED, c.total, None))
      {
        CollectorUpdateOk(g, w, l, c, e);
      }
      if c.Reporting? {
        UpdateOk(g, w, phases, NameOf(l), RUNNING, c.total, c.next);
      } else {
        UpdateOk(g, w, phases, NameOf(l), COMPLETED, c.total, None);
      }
    case Outside(_, _, FailOpenPhases) => FinalizeOk(g, w, phases);
    case Outside(_, _, LeavePhases) =>
    case Outside(_, _, OtherPhase(name, status, items)) =>
      UpdateOk(g, w, phases, name, status, items, None);
      if Untouched(phases) {
        UpdateUntouched(phases, name, status, items);
      }
  }

  lemma ReadOk(g: Graph, w: World, a: Actor)
    requires Inv(g, w) && Enabled(g, w, Read(a))
    ensures Inv(g, Next(g, w, Read(a)))
  {
    ChangeOk(g, w, a, w.docs[a.scan]);
    var w' := Next(g, w, Read(a));
    forall s | s in w'.docs ensures PhasesOk(g, w', w'.docs[s]) {
      PhasesGrow(g, w, w', w.docs[s]);
    }
    forall b | b in w'.pending ensures PhasesOk(g, w', w'.pending[b]) {
      PhasesGrow(g, w, w', w'.pending[b]);
    }
    forall s | s in w'.runs ensures RunOk(g, w', w'.runs[s]) {
      RunGrows(g, w, w', w.runs[s]);
    }
  }

  lemma RecordOk(g: Graph, w: World, w': World, scan: string, phases: Phases, run: Run)
    requires Inv(g, w) && scan in w.runs && Grows(w, w')
    requires PhasesOk(g, w', phases) && RunOk(g, w', run)
    requires !run.main.Collecting? ==> Untouched(phases)
    requires run.main.Collecting? == w.runs[scan].main.Collecting?
    requires w'.docs == w.docs[scan := phases] && w'.runs == w.runs[scan := run]
    requires forall a | a in w'.pending :: a in w.pending && w'.pending[a] == w.pending[a]
    ensures Inv(g, w')
  {
    forall s | s in w'.docs ensures PhasesOk(g, w', w'.docs[s]) {
      if s != scan {
        PhasesGrow(g, w, w', w.docs[s]);
      }
    }
    forall b | b in w'.pending ensures PhasesOk(g, w', w'.pending[b]) {
      PhasesGrow(g, w, w', w.pending[b]);
    }
    forall s | s in w'.runs ensures RunOk(g, w', w'.runs[s]) {
      if s != scan {
        RunGrows(g, w, w', w.runs[s]);
      }
    }
  }

  lemma MarkWrittenOk(g: Graph, w: World, run: Run, a: Actor)
    requires RunOk(g, w, run)
    ensures RunOk(g, w, MarkWritten(run, a))
    ensures MarkWritten(run, a).main.Collecting? == run.main.Collecting?
  {
    forall l: Log ensures CollectorOk(g, w, l, MarkWritten(run, a).Get(l)) {
      assert CollectorOk(g, w, l, run.Get(l));
    }
    forall l: Log | !run.main.Collecting? ensures MarkWritten(run, a).Get(l).NotStarted? {
      assert run.Get(l).NotStarted?;
    }
  }

  lemma WriteOk(g: Graph, w: World, a: Actor)
    requires Inv(g, w) && Enabled(g, w, Write(a))
    ensures Inv(g, Next(g, w, Write(a)))
  {
    var w' := Next(g, w, Write(a));
    PhasesGrow(g, w, w', w.pending[a]);
    RunGrows(g, w, w', w.runs[a.scan]);
    MarkWrittenOk(g, w', w.runs[a.scan], a);
    RecordOk(g, w, w', a.scan, w.pending[a], MarkWritten(w.runs[a.scan], a));
  }

  lemma RegisterOk(g: Graph, w: World, step: Step)
    requires Inv(g, w) && Enabled(g, w, step) && step.Register?
    ensures Inv(g, Next(g, w, step))
  {
    var w' := Next(g, w, step);
    RunGrows(g, w, w', w.runs[step.scan]);
    assert w'.runs == w.runs[step.scan := w.runs[step.scan]];
    RecordOk(g, w, w', step.scan, FreshPhases(), w.runs[step.scan]);
  }

  lemma StepOk(g: Graph, w: World, step: Step)
    requires g.Valid() && Inv(g, w) && Enabled(g, w, step)
    ensures Inv(g, Next(g, w, step))
  {
    match step
    case Register(_) => RegisterOk(g, w, step);
    case LoadCheckpoint(_) => LoadOk(g, w, step);
    case StartLog(_, _) => StartLogOk(g, w, step);
    case Fetch(_, _, _) => FetchOk(g, w, step);
    case Read(a) => ReadOk(g, w, a);
    case Write(a) => WriteOk(g, w, a);
    case Advance(_) => AdvanceOk(g, w, step);
    case FetchDies(_, _, _) => FetchDiesOk(g, w, step);
    case StartScan(_, _) => StartScanOk(g, w, step);
    case Fail(_, _) => FailOk(g, w, step);
  }

  lemma {:induction false} RunOfStepsOk(g: Graph, w: World, steps: seq<Step>)
    requires g.Valid() && Inv(g, w) && Legal(g, w, steps)
    ensures Inv(g, Exec(g, w, steps))
    decreases |steps|
  {
    if steps != [] {
      StepOk(g, w, steps[0]);
      RunOfStepsOk(g, Next(g, w, steps[0]), steps[1..]);
    }
  }

  /** No single upsert of any fetched page was refused. */
  predicate NothingDropped(steps: seq<Step>) {
    forall step | step in steps && step.Fetch? :: step.dropped == {}
  }

  lemma {:induction false} LostOnlyByDropping(g: Graph, w: World, steps: seq<Step>)
    requires Legal(g, w, steps) && NothingDropped(steps)
    ensures Exec(g, w, steps).lost == w.lost
    decreases |steps|
  {
    if steps != [] {
      LostOnlyByDropping(g, Next(g, w, steps[0]), steps[1..]);
    }
  }

  /** The events of the first `k` pages are all in the store. */
  predicate Stored(w: World, pages: Pages, k: nat)
    requires k <= |pages|
  {
    forall i, j | 0 <= i < k && 0 <= j < |pages[i]| :: pages[i][j] in w.stored
  }

  /** Over any chain of failed and resumed scans, under any interleaving of the unlocked updates: a recorded
      link has every page before it stored, a phase marked completed has the whole chain stored, and the
      number recorded is never below the number of events behind it. Events may miss only if the container
      refused one of their upserts, which the fetch activity does not check. */
  lemma RecordsAreSafe(g: Graph, steps: seq<Step>, scan: string, e: PhaseEntry, l: Log)
    requires g.Valid() && Legal(g, Start(), steps)
    requires scan in Exec(g, Start(), steps).docs && e in Exec(g, Start(), steps).docs[scan]
    requires e.name == if l == AuditLogs then "audit_logs" else "sign_in_logs"
    ensures var pages := if l == AuditLogs then g.audit else g.signIn;
            var w := Exec(g, Start(), steps);
            && (e.checkpoint.Some? ==>
                  && 0 < e.checkpoint.value < |pages|
                  && Covered(w, pages, e.checkpoint.value) && Count(pages, e.checkpoint.value) <= e.items
                  && (NothingDropped(steps) ==> Stored(w, pages, e.checkpoint.value)))
            && (e.status == "completed" ==>
                  && Covered(w, pages, |pages|) && Count(pages, |pages|) <= e.items
                  && (NothingDropped(steps) ==> Stored(w, pages, |pages|)))
  {
    var w := Exec(g, Start(), steps);
    RunOfStepsOk(g, Start(), steps);
    assert PhasesOk(g, w, w.docs[scan]) && EntryOk(g, w, e);
    assert e.name == NameOf(l);
    if NothingDropped(steps) {
      LostOnlyByDropping(g, Start(), steps);
    }
  }

  /** What an outside writer can do to any record: fail exactly its pending and running phases, leave all phases
      alone, or set the first phase of any name but the collectors' two. */
  lemma OutsideWrites(g: Graph, w: World, scan: string, id: nat, edit: Edit) returns (w': World)
    requires scan in w.docs && scan in w.runs
    requires edit.OtherPhase? ==> edit.name != "audit_logs" && edit.name != "sign_in_logs"
    ensures var a := Outside(scan, id, edit);
            Legal(g, w, [Read(a), Write(a)]) && Exec(g, w, [Read(a), Write(a)]) == w'
    ensures w'.docs.Keys == w.docs.Keys && |w'.docs[scan]| == |w.docs[scan]|
    ensures edit == FailOpenPhases ==> forall k | 0 <= k < |w.docs[scan]| ::
              var was := w.docs[scan][k];
              w'.docs[scan][k] == if was.status == "pending" || was.status == "running" then was.(status := "failed")
                                  else was
    ensures edit == LeavePhases ==> w'.docs == w.docs
    ensures edit.OtherPhase? ==> forall k: nat | FirstNamed(w.docs[scan], edit.name, k) ::
              w'.docs[scan] == w.docs[scan][k := PhaseEntry(edit.name, edit.status, edit.items,
                                                            w.docs[scan][k].checkpoint)]
    ensures w'.stored == w.stored && w'.lost == w.lost
  {
    var a := Outside(scan, id, edit);
    var phases := w.docs[scan];
    var w1 := Next(g, w, Read(a));
    w' := Next(g, w1, Write(a));
    var both := [Read(a), Write(a)];
    assert both[1..] == [Write(a)] && [Write(a)][1..] == [] && Legal(g, w', []);
    assert Legal(g, w1, [Write(a)]) && Exec(g, w1, [Write(a)]) == w';
    match edit
    case FailOpenPhases =>
      forall k: nat | k < |phases| ensures FinalizePhases(phases)[k] == Finalized(phases[k]) {
        FinalizedAt(phases, k);
      }
    case LeavePhases =>
    case OtherPhase(name, status, items) =>
      forall k: nat | FirstNamed(phases, name, k)
        ensures ApplyUpdate(phases, name, status, items, None) == phases[k := Updated(phases[k], status, items, None)]
      {
        UpdateAt(phases, name, status, items, None, k);
      }
  }
}
