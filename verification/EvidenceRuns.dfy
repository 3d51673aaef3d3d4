/** Collecting evidence from a provider's page chain under a saved cursor, as a step system: any number of
    runs, overlapping or not, each starting from the cursor it found saved and ending anywhere. */
module EvidenceRuns {
  import opened Documents

  /** A timestamp; `aware` says whether it carries a UTC offset. Microseconds. */
  datatype Stamp = Stamp(aware: bool, at: int)

  /** A provider record after the field lookups of the adapter. */
  datatype Record = Record(id: string, principal: string, action: string, occurred: Option<Stamp>)

  predicate Acceptable(r: Record) {
    r.principal != "" && r.action != "" && r.occurred.Some?
  }

  /** A page; `trusted` says that its URL is https on the allowed host. */
  datatype Page = Page(records: seq<Record>, trusted: bool)

  /** The chain of pages from the initial URL on. A URL is the index of the page it leads to. */
  type Chain = seq<Page>

  type Cursor = Option<nat>

  datatype Activity = Activity(record: Record, held: bool)

  function ActivityKey(r: Record): Key {
    Key(r.principal, r.id)
  }

  const RUNNING := "running"
  const READY := "ready"
  const THROTTLED := "throttled"
  const FAILED := "failed"

  datatype Saved = Saved(cursor: Cursor, watermark: Option<Stamp>, status: string)

  datatype Quality = Quality(start: Option<Stamp>, end: Option<Stamp>, completeness: real, confidence: real, gap: bool)

  /** The containers, for one tenant and one source. */
  datatype RepoState = RepoState(activities: map<Key, Activity>, saved: Option<Saved>, quality: Option<Quality>)

  /** The accumulators of one run. */
  datatype Progress = Progress(count: nat, first: Option<Stamp>, last: Option<Stamp>, latest: Cursor)

  datatype RunState =
    | Chosen(cursor: Cursor, held: bool)
    | Fetching(cursor: Cursor, held: bool, page: nat, progress: Progress)
    | Reading(cursor: Cursor, held: bool, page: nat, index: nat, progress: Progress)
    | Finished(cursor: Cursor, held: bool, progress: Progress)

  datatype World = World(repo: RepoState, runs: map<nat, RunState>)

  datatype Step =
    | Choose(run: nat, held: bool)
    | Begin(run: nat)
    | Fetch(run: nat)
    | Refuse(run: nat, status: int)
    | Take(run: nat)
    | Turn(run: nat)
    | Finish(run: nat)
    | Assess(run: nat)
    | Die(run: nat)

  function PageOf(c: Cursor): nat {
    if c.Some? then c.value else 0
  }

  function NextCursor(chain: Chain, page: nat): Cursor {
    if page + 1 < |chain| then Some(page + 1) else None
  }

  /** Which provider failures are worth retrying. */
  predicate Retryable(status: int) {
    status == 429 || status >= 500
  }

  predicate Comparable(p: Progress, s: Stamp) {
    (p.first.Some? ==> p.first.value.aware == s.aware) && (p.last.Some? ==> p.last.value.aware == s.aware)
  }

  function Earlier(a: Option<Stamp>, s: Stamp): Option<Stamp> {
    if a.Some? && a.value.at <= s.at then a else Some(s)
  }

  function Later(a: Option<Stamp>, s: Stamp): Option<Stamp> {
    if a.Some? && a.value.at >= s.at then a else Some(s)
  }

  /** The accumulators after one stored record of a page whose continuation is `next`. */
  function Advance(p: Progress, s: Stamp, next: Cursor): Progress {
    Progress(p.count + 1, Earlier(p.first, s), Later(p.last, s), if next.Some? then next else p.latest)
  }

  const DAY: int := 86400 * 1000000

  /** `timedelta.days` of a non-negative difference. */
  function Days(d: int): int {
    d / DAY
  }

  function CoverageDays(p: Progress): int {
    if p.first.Some? && p.last.Some? then Days(p.last.value.at - p.first.value.at) + 1 else 0
  }

  function Assessed(p: Progress): Quality {
    var days := CoverageDays(p);
    var share := days as real / 90.0;
    Quality(p.first, p.last, if share <= 1.0 then share else 1.0, if p.count > 0 then 1.0 else 0.0, days < 90)
  }

  // ---- Steps ----

  predicate Enabled(chain: Chain, w: World, step: Step) {
    if step.Choose? then step.run !in w.runs
    else
      step.run in w.runs &&
      var r := w.runs[step.run];
      match step
      case Begin(_) => r.Chosen?
      case Fetch(_) => r.Fetching? && r.page < |chain| && chain[r.page].trusted
      case Refuse(_, status) => r.Fetching? && r.page < |chain| && chain[r.page].trusted && status >= 400
      case Take(_) => r.Reading? && r.page < |chain| && r.index < |chain[r.page].records|
      case Turn(_) => r.Reading? && r.page + 1 < |chain| && r.index == |chain[r.page].records|
      case Finish(_) => r.Reading? && r.page + 1 == |chain| && r.index == |chain[r.page].records|
      case Assess(_) => r.Finished?
      case Die(_) => true
      case Choose(_, _) => true
  }

  /** The cursor a new run starts from. */
  function SavedCursor(repo: RepoState): Cursor {
    if repo.saved.Some? then repo.saved.value.cursor else None
  }

  /** One record: skipped, or stored and accumulated. The accumulation raises when a stamp with an offset
      meets one without, after the record was stored. */
  function TakeRecord(chain: Chain, w: World, id: nat): World
    requires Enabled(chain, w, Take(id))
  {
    var r := w.runs[id];
    var record := chain[r.page].records[r.index];
    if !Acceptable(record) then w.(runs := w.runs[id := r.(index := r.index + 1)])
    else
      var repo := w.repo.(activities := w.repo.activities[ActivityKey(record) := Activity(record, r.held)]);
      if Comparable(r.progress, record.occurred.value) then
        World(repo, w.runs[id := r.(index := r.index + 1,
                                    progress := Advance(r.progress, record.occurred.value, NextCursor(chain, r.page)))])
      else World(repo, w.runs - {id})
  }

  function Next(chain: Chain, w: World, step: Step): World
    requires Enabled(chain, w, step)
  {
    match step
    case Choose(id, held) => w.(runs := w.runs[id := Chosen(SavedCursor(w.repo), held)])
    case Begin(id) =>
      var r := w.runs[id];
      World(w.repo.(saved := Some(Saved(r.cursor, None, RUNNING))),
            w.runs[id := Fetching(r.cursor, r.held, PageOf(r.cursor), Progress(0, None, None, r.cursor))])
    case Fetch(id) =>
      var r := w.runs[id];
      w.(runs := w.runs[id := Reading(r.cursor, r.held, r.page, 0, r.progress)])
    case Refuse(id, status) =>
      var p := w.runs[id].progress;
      World(w.repo.(saved := Some(Saved(p.latest, p.last, if Retryable(status) then THROTTLED else FAILED))),
            w.runs - {id})
    case Take(id) => TakeRecord(chain, w, id)
    case Turn(id) =>
      var r := w.runs[id];
      w.(runs := w.runs[id := Fetching(r.cursor, r.held, r.page + 1, r.progress)])
    case Finish(id) =>
      var r := w.runs[id];
      World(w.repo.(saved := Some(Saved(r.progress.latest, r.progress.last, READY))),
            w.runs[id := Finished(r.cursor, r.held, r.progress)])
    case Assess(id) => World(w.repo.(quality := Some(Assessed(w.runs[id].progress))), w.runs - {id})
    case Die(id) => w.(runs := w.runs - {id})
  }

  predicate Legal(chain: Chain, w: World, steps: seq<Step>)
    decreases |steps|
  {
    steps == [] || (Enabled(chain, w, steps[0]) && Legal(chain, Next(chain, w, steps[0]), steps[1..]))
  }

  function Exec(chain: Chain, w: World, steps: seq<Step>): World
    requires Legal(chain, w, steps)
    decreases |steps|
  {
    if steps == [] then w else Exec(chain, Next(chain, w, steps[0]), steps[1..])
  }

  function Start(): World {
    World(RepoState(map[], None, None), map[])
  }

  // ---- What the records say ----

  /** The acceptable records among the first `n` of a page, in order. */
  function Accepted(records: seq<Record>, n: nat): seq<Record>
    requires n <= |records|
  {
    if n == 0 then []
    else Accepted(records, n - 1) + (if Acceptable(records[n - 1]) then [records[n - 1]] else [])
  }

  /** The acceptable records of pages `from` up to, not including, `upTo`. */
  function AcceptedPages(chain: Chain, from: nat, upTo: nat): seq<Record>
    requires from <= upTo <= |chain|
    decreases upTo
  {
    if from == upTo then []
      else AcceptedPages(chain, from, upTo - 1) + Accepted(chain[upTo - 1].records, |chain[upTo - 1].records|)
  }

  /** What a run that started at page `from` has stored when it is at record `index` of page `upTo`. */
  function Taken(chain: Chain, from: nat, upTo: nat, index: nat): seq<Record>
    requires from <= upTo < |chain| && index <= |chain[upTo].records|
  {
    AcceptedPages(chain, from, upTo) + Accepted(chain[upTo].records, index)
  }

  /** The record is stored: under its key stands an acceptable record of the chain with that key. */
  predicate IsStored(chain: Chain, repo: RepoState, r: Record) {
    ActivityKey(r) in repo.activities && FromChain(chain, repo.activities[ActivityKey(r)].record, ActivityKey(r))
  }

  predicate FromChain(chain: Chain, r: Record, key: Key) {
    Acceptable(r) && ActivityKey(r) == key && exists i | 0 <= i < |chain| :: r in chain[i].records
  }

  predicate OnChain(chain: Chain, r: Record) {
    exists i | 0 <= i < |chain| :: r in chain[i].records
  }

  /** The record names its principal, its action and its time. */
  predicate Complete(r: Record) {
    r.principal != "" && r.action != "" && r.occurred != None
  }

  /** Some activity is a complete record of the chain with the principal and the id of `r`. */
  ghost predicate Held(chain: Chain, repo: RepoState, r: Record) {
    exists k | k in repo.activities :: var s := repo.activities[k].record;
                                       s.principal == r.principal && s.id == r.id && Complete(s) && OnChain(chain, s)
  }

  ghost predicate HeldItself(repo: RepoState, r: Record) {
    exists k | k in repo.activities :: repo.activities[k].record == r
  }

  /** No other complete record of the chain has the principal and the id of `r`. */
  ghost predicate Alone(chain: Chain, r: Record) {
    forall s | Complete(s) && OnChain(chain, s) && s.principal == r.principal && s.id == r.id :: s == r
  }

  /** Of the complete records of the first `k` pages, those with a pair of their own are held themselves, and the
      others' pairs are held. */
  ghost predicate AllHeld(chain: Chain, repo: RepoState, k: nat)
    requires k <= |chain|
  {
    forall i, r | 0 <= i < k && r in chain[i].records && r.principal != "" && r.action != "" && r.occurred.Some? ::
      Held(chain, repo, r) && (Alone(chain, r) ==> HeldItself(repo, r))
  }

  predicate PagesKept(chain: Chain, repo: RepoState, k: nat)
    requires k <= |chain|
  {
    forall i, r | 0 <= i < k && r in chain[i].records && Acceptable(r) :: IsStored(chain, repo, r)
  }

  predicate RecordsKept(chain: Chain, repo: RepoState, page: nat, n: nat)
    requires page < |chain| && n <= |chain[page].records|
  {
    forall r | r in chain[page].records[..n] && Acceptable(r) :: IsStored(chain, repo, r)
  }

  lemma KeptIsHeld(chain: Chain, repo: RepoState, k: nat)
    requires k <= |chain| && PagesKept(chain, repo, k)
    ensures AllHeld(chain, repo, k)
  {
    forall i, r | 0 <= i < k && r in chain[i].records && Acceptable(r)
      ensures Held(chain, repo, r) && (Alone(chain, r) ==> HeldItself(repo, r))
    {
      assert IsStored(chain, repo, r);
      var s := repo.activities[ActivityKey(r)].record;
      assert Complete(s) && OnChain(chain, s);
    }
  }

  /** Every acceptable record before the cursor is stored. */
  predicate CursorSafe(chain: Chain, repo: RepoState, c: Cursor) {
    PageOf(c) < |chain| && PagesKept(chain, repo, PageOf(c))
  }

  /** The accumulators describe the records taken. */
  predicate Describes(p: Progress, taken: seq<Record>) {
    && p.count == |taken|
    && (taken == [] <==> p.first.None?) && (taken == [] <==> p.last.None?)
    && (forall r | r in taken :: Acceptable(r) && p.first.value.at <= r.occurred.value.at <= p.last.value.at)
    && (taken != [] ==>
          (exists r | r in taken :: r.occurred == p.first) && (exists r | r in taken :: r.occurred == p.last))
    && (forall r | r in taken :: r.occurred.value.aware == p.first.value.aware == p.last.value.aware)
  }

  /** The page has a record the adapter accepts. */
  predicate Yields(page: Page) {
    Accepted(page.records, |page.records|) != []
  }

  /** The continuation of the last page before `upTo` that yielded a record; where the run started if none did. */
  function Latest(chain: Chain, cursor: Cursor, upTo: nat): Cursor
    requires PageOf(cursor) <= upTo <= |chain|
    decreases upTo
  {
    if upTo == PageOf(cursor) then cursor
    else
      if NextCursor(chain, upTo - 1).Some? && Yields(chain[upTo - 1]) then Some(upTo)
      else Latest(chain, cursor, upTo - 1)
  }

  predicate RunOk(chain: Chain, repo: RepoState, r: RunState) {
    && CursorSafe(chain, repo, r.cursor)
    && match r
       case Chosen(_, _) => true
       case Fetching(c, _, page, p) =>
         && PageOf(c) <= page < |chain| && PagesKept(chain, repo, page)
         && p.latest == Latest(chain, c, page) && Describes(p, AcceptedPages(chain, PageOf(c), page))
       case Reading(c, _, page, index, p) =>
         && PageOf(c) <= page < |chain| && index <= |chain[page].records|
         && PagesKept(chain, repo, page) && RecordsKept(chain, repo, page, index)
         && p.latest == (if NextCursor(chain, page).Some? &&
                         Accepted(chain[page].records, index) != [] then Some(page + 1)
                         else Latest(chain, c, page))
         && Describes(p, Taken(chain, PageOf(c), page, index))
       case Finished(c, _, p) =>
         && PagesKept(chain, repo, |chain|) && p.latest == Latest(chain, c, |chain|)
         && Describes(p, AcceptedPages(chain, PageOf(c), |chain|))
  }

  predicate Inv(chain: Chain, w: World) {
    && (w.repo.saved.Some? ==> CursorSafe(chain, w.repo, w.repo.saved.value.cursor))
    && forall id | id in w.runs :: RunOk(chain, w.repo, w.runs[id])
  }

  /** Nothing stored is lost, and nothing that is not an acceptable record of the chain is written. */
  predicate Grows(chain: Chain, repo: RepoState, repo': RepoState) {
    forall k | k in repo.activities ::
      k in repo'.activities &&
        (repo'.activities[k] == repo.activities[k] || FromChain(chain, repo'.activities[k].record, k))
  }

  lemma KeptGrows(chain: Chain, repo: RepoState, repo': RepoState, k: nat)
    requires Grows(chain, repo, repo') && k <= |chain| && PagesKept(chain, repo, k)
    ensures PagesKept(chain, repo', k)
  {
    forall i, r | 0 <= i < k && r in chain[i].records && Acceptable(r) ensures IsStored(chain, repo', r) {
      assert IsStored(chain, repo, r);
    }
  }

  lemma RecordsKeptGrow(chain: Chain, repo: RepoState, repo': RepoState, page: nat, n: nat)
    requires Grows(chain, repo, repo') && page < |chain| && n <= |chain[page].records|
    requires RecordsKept(chain, repo, page, n)
    ensures RecordsKept(chain, repo', page, n)
  {
    forall r | r in chain[page].records[..n] && Acceptable(r) ensures IsStored(chain, repo', r) {
      assert IsStored(chain, repo, r);
    }
  }

  lemma RunGrows(chain: Chain, repo: RepoState, repo': RepoState, r: RunState)
    requires Grows(chain, repo, repo') && RunOk(chain, repo, r)
    ensures RunOk(chain, repo', r)
  {
    KeptGrows(chain, repo, repo', PageOf(r.cursor));
    if r.Fetching? || r.Reading? {
      KeptGrows(chain, repo, repo', r.page);
    }
    if r.Reading? {
      RecordsKeptGrow(chain, repo, repo', r.page, r.index);
    }
    if r.Finished? {
      KeptGrows(chain, repo, repo', |chain|);
    }
  }

  /** A step changes one run and the repository; the rest follows by growth. */
  lemma OneRun(chain: Chain, w: World, w': World, id: nat)
    requires Inv(chain, w) && Grows(chain, w.repo, w'.repo)
    requires forall k | k in w'.runs && k != id :: k in w.runs && w'.runs[k] == w.runs[k]
    requires id in w'.runs ==> RunOk(chain, w'.repo, w'.runs[id])
    requires w'.repo.saved == w.repo.saved ||
             (w'.repo.saved.Some? && CursorSafe(chain, w'.repo, w'.repo.saved.value.cursor))
    ensures Inv(chain, w')
  {
    forall k | k in w'.runs ensures RunOk(chain, w'.repo, w'.runs[k]) {
      if k != id {
        RunGrows(chain, w.repo, w'.repo, w.runs[k]);
      }
    }
    if w'.repo.saved == w.repo.saved && w.repo.saved.Some? {
      KeptGrows(chain, w.repo, w'.repo, PageOf(w.repo.saved.value.cursor));
    }
  }

  /** A saved cursor never points behind the run's start nor past a page that is not wholly stored. */
  lemma {:induction false} LatestSafe(chain: Chain, repo: RepoState, cursor: Cursor, upTo: nat)
    requires CursorSafe(chain, repo, cursor) && PageOf(cursor) <= upTo <= |chain| && PagesKept(chain, repo, upTo)
    ensures CursorSafe(chain, repo, Latest(chain, cursor, upTo))
    ensures PageOf(cursor) <= PageOf(Latest(chain, cursor, upTo)) <= upTo
    decreases upTo
  {
    if upTo > PageOf(cursor) {
      LatestSafe(chain, repo, cursor, upTo - 1);
    }
  }

  lemma DescribesMore(p: Progress, taken: seq<Record>, r: Record, next: Cursor)
    requires Describes(p, taken) && Acceptable(r) && Comparable(p, r.occurred.value)
    ensures Describes(Advance(p, r.occurred.value, next), taken + [r])
  {
    var p' := Advance(p, r.occurred.value, next);
    var more := taken + [r];
    assert r in more;
    if p'.first != r.occurred {
      var f :| f in taken && f.occurred == p.first;
      assert f in more;
    }
    if p'.last != r.occurred {
      var l :| l in taken && l.occurred == p.last;
      assert l in more;
    }
  }

  lemma BeginOk(chain: Chain, w: World, step: Step)
    requires chain != [] && Inv(chain, w) && Enabled(chain, w, step)
    requires step.Choose? || step.Begin? || step.Die? || step.Fetch?
    ensures Inv(chain, Next(chain, w, step))
  {
    var w' := Next(chain, w, step);
    if step.Begin? {
      assert RunOk(chain, w.repo, w.runs[step.run]);
      KeptGrows(chain, w.repo, w'.repo, PageOf(w.runs[step.run].cursor));
    } else if step.Fetch? {
      var r := w.runs[step.run];
      assert RunOk(chain, w.repo, r);
      assert chain[r.page].records[..0] == [];
      assert Taken(chain, PageOf(r.cursor), r.page, 0) == AcceptedPages(chain, PageOf(r.cursor), r.page);
    }
    OneRun(chain, w, w', step.run);
  }

  lemma RefuseOk(chain: Chain, w: World, step: Step)
    requires Inv(chain, w) && Enabled(chain, w, step) && step.Refuse?
    ensures Inv(chain, Next(chain, w, step))
  {
    var w' := Next(chain, w, step);
    var r := w.runs[step.run];
    assert RunOk(chain, w.repo, r);
    RunGrows(chain, w.repo, w'.repo, r);
    LatestSafe(chain, w'.repo, r.cursor, r.page);
    OneRun(chain, w, w', step.run);
  }

  lemma PageKept(chain: Chain, repo: RepoState, page: nat)
    requires page < |chain| && PagesKept(chain, repo, page) && RecordsKept(chain, repo, page, |chain[page].records|)
    ensures PagesKept(chain, repo, page + 1)
  {
    assert chain[page].records[..|chain[page].records|] == chain[page].records;
  }

  lemma TurnOk(chain: Chain, w: World, step: Step)
    requires Inv(chain, w) && Enabled(chain, w, step) && (step.Turn? || step.Finish?)
    ensures Inv(chain, Next(chain, w, step))
    ensures step.Finish? ==> PagesKept(chain, Next(chain, w, step).repo, |chain|)
  {
    var w' := Next(chain, w, step);
    var r := w.runs[step.run];
    assert RunOk(chain, w.repo, r);
    RunGrows(chain, w.repo, w'.repo, r);
    PageKept(chain, w'.repo, r.page);
    assert AcceptedPages(chain, PageOf(r.cursor), r.page + 1) == Taken(chain, PageOf(r.cursor), r.page, r.index);
    LatestSafe(chain, w'.repo, r.cursor, r.page + 1);
    OneRun(chain, w, w', step.run);
  }

  lemma TakeOk(chain: Chain, w: World, step: Step)
    requires Inv(chain, w) && Enabled(chain, w, step) && step.Take?
    ensures Inv(chain, Next(chain, w, step))
  {
    var w' := Next(chain, w, step);
    var r := w.runs[step.run];
    var records := chain[r.page].records;
    var record := records[r.index];
    assert RunOk(chain, w.repo, r);
    assert records[..r.index + 1] == records[..r.index] + [record];
    if Acceptable(record) {
      assert FromChain(chain, record, ActivityKey(record));
    }
    assert Grows(chain, w.repo, w'.repo);
    RunGrows(chain, w.repo, w'.repo, r);
    if step.run in w'.runs {
      TakenOk(chain, w'.repo, r, w'.runs[step.run]);
    }
    OneRun(chain, w, w', step.run);
  }

  /** The run's own account after one more record. */
  lemma TakenOk(chain: Chain, repo: RepoState, r: RunState, r': RunState)
    requires r.Reading? && RunOk(chain, repo, r) && r.index < |chain[r.page].records|
    requires Acceptable(chain[r.page].records[r.index]) ==>
               && IsStored(chain, repo, chain[r.page].records[r.index])
               && Comparable(r.progress, chain[r.page].records[r.index].occurred.value)
    requires r' == r.(index := r.index + 1,
                      progress := if Acceptable(chain[r.page].records[r.index])
                                  then Advance(r.progress, chain[r.page].records[r.index].occurred.value,
                                               NextCursor(chain, r.page))
                                  else r.progress)
    ensures RunOk(chain, repo, r')
  {
    var records := chain[r.page].records;
    var record := records[r.index];
    var taken := Taken(chain, PageOf(r.cursor), r.page, r.index);
    assert records[..r.index + 1] == records[..r.index] + [record];
    if Acceptable(record) {
      DescribesMore(r.progress, taken, record, NextCursor(chain, r.page));
      assert Taken(chain, PageOf(r.cursor), r.page, r.index + 1) == taken + [record];
    } else {
      assert Accepted(records, r.index + 1) == Accepted(records, r.index);
    }
  }

  lemma StepOk(chain: Chain, w: World, step: Step)
    requires chain != [] && Inv(chain, w) && Enabled(chain, w, step)
    ensures Inv(chain, Next(chain, w, step))
  {
    if step.Take? {
      TakeOk(chain, w, step);
    } else if step.Turn? || step.Finish? {
      TurnOk(chain, w, step);
    } else if step.Refuse? {
      RefuseOk(chain, w, step);
    } else if step.Assess? {
      OneRun(chain, w, Next(chain, w, step), step.run);
    } else {
      BeginOk(chain, w, step);
    }
  }

  lemma {:induction false} StepsOk(chain: Chain, w: World, steps: seq<Step>)
    requires chain != [] && Inv(chain, w) && Legal(chain, w, steps)
    ensures Inv(chain, Exec(chain, w, steps))
    decreases |steps|
  {
    if steps != [] {
      StepOk(chain, w, steps[0]);
      StepsOk(chain, Next(chain, w, steps[0]), steps[1..]);
    }
  }

  /** In every state any runs can reach, every acceptable record before the saved cursor is stored. */
  lemma SavedCursorIsSafe(chain: Chain, steps: seq<Step>)
    requires chain != [] && Legal(chain, Start(), steps)
    ensures var repo := Exec(chain, Start(), steps).repo;
            repo.saved.Some? ==>
              && CursorSafe(chain, repo, repo.saved.value.cursor)
              && AllHeld(chain, repo, PageOf(repo.saved.value.cursor))
  {
    StepsOk(chain, Start(), steps);
    var repo := Exec(chain, Start(), steps).repo;
    if repo.saved.Some? {
      KeptIsHeld(chain, repo, PageOf(repo.saved.value.cursor));
    }
  }

  /** Once some run has finished, every acceptable record of the chain is stored, however many runs failed
      before it, and stays stored. */
  lemma {:induction false} FinishStoresAll(chain: Chain, w: World, steps: seq<Step>, k: nat)
    requires chain != [] && Inv(chain, w) && Legal(chain, w, steps) && k < |steps| && steps[k].Finish?
    ensures PagesKept(chain, Exec(chain, w, steps).repo, |chain|)
    ensures AllHeld(chain, Exec(chain, w, steps).repo, |chain|)
    decreases |steps|
  {
    var w' := Next(chain, w, steps[0]);
    StepOk(chain, w, steps[0]);
    if k == 0 {
      TurnOk(chain, w, steps[0]);
      KeptForever(chain, w', steps[1..], |chain|);
      KeptIsHeld(chain, Exec(chain, w, steps).repo, |chain|);
    } else {
      FinishStoresAll(chain, w', steps[1..], k - 1);
    }
  }

  lemma StepGrows(chain: Chain, w: World, step: Step)
    requires Enabled(chain, w, step)
    ensures Grows(chain, w.repo, Next(chain, w, step).repo)
  {
    if step.Take? {
      var r := w.runs[step.run];
      var record := chain[r.page].records[r.index];
      if Acceptable(record) {
        assert FromChain(chain, record, ActivityKey(record));
      }
    }
  }

  lemma {:induction false} KeptForever(chain: Chain, w: World, steps: seq<Step>, k: nat)
    requires Legal(chain, w, steps) && k <= |chain| && PagesKept(chain, w.repo, k)
    ensures PagesKept(chain, Exec(chain, w, steps).repo, k)
    decreases |steps|
  {
    if steps != [] {
      var w' := Next(chain, w, steps[0]);
      StepGrows(chain, w, steps[0]);
      KeptGrows(chain, w.repo, w'.repo, k);
      KeptForever(chain, w', steps[1..], k);
    }
  }

  // ---- What the quality record says ----

  /** Coverage reaches 90 days, so that no gap is reported and completeness is 1, exactly when two of the
      records the run took lie at least 89 days apart. A run that took nothing reports no coverage at all. */
  lemma CoverageMeaning(p: Progress, taken: seq<Record>)
    requires Describes(p, taken)
    ensures Assessed(p).gap <==>
            !exists a, b | a in taken && b in taken :: b.occurred.value.at - a.occurred.value.at >= 89 * DAY
    ensures !Assessed(p).gap <==> Assessed(p).completeness == 1.0
    ensures 0.0 <= Assessed(p).completeness <= 1.0
    ensures taken == [] <==> Assessed(p).completeness == 0.0
    ensures Assessed(p).confidence == (if taken == [] then 0.0 else 1.0)
  {
    if taken != [] {
      var a :| a in taken && a.occurred == p.first;
      var b :| b in taken && b.occurred == p.last;
      assert CoverageDays(p) == (b.occurred.value.at - a.occurred.value.at) / DAY + 1;
      assert b.occurred.value.at - a.occurred.value.at >= 89 * DAY <==> CoverageDays(p) >= 90;
      assert a.occurred.value.at <= b.occurred.value.at;
      assert CoverageDays(p) >= 1;
      var share := CoverageDays(p) as real / 90.0;
      assert share > 0.0;
    }
  }

  /** Pages that yield nothing never move the cursor: it is where the run started, or right behind the last
      page that yielded a record and was not the end of the chain. */
  lemma {:induction false} LatestMeaning(chain: Chain, cursor: Cursor, upTo: nat)
    requires PageOf(cursor) <= upTo <= |chain|
    ensures var c := Latest(chain, cursor, upTo);
            && (c == cursor || (c.Some? && PageOf(cursor) < c.value < |chain| && c.value <= upTo &&
                                Yields(chain[c.value - 1])))
            && (forall i | PageOf(c) <= i < upTo && i + 1 < |chain| :: !Yields(chain[i]))
    decreases upTo
  {
    if upTo > PageOf(cursor) {
      LatestMeaning(chain, cursor, upTo - 1);
      LatestBound(chain, cursor, upTo - 1);
    }
  }

  lemma {:induction false} LatestBound(chain: Chain, cursor: Cursor, upTo: nat)
    requires PageOf(cursor) <= upTo <= |chain|
    ensures PageOf(cursor) <= PageOf(Latest(chain, cursor, upTo)) <= upTo
    decreases upTo
  {
    if upTo > PageOf(cursor) {
      LatestBound(chain, cursor, upTo - 1);
    }
  }
}
