/** `EvidenceCollectionService.run` over the paged adapter, tied to the step system of the runs. */
module EvidenceService {
  import opened Documents
  import opened EvidenceRuns

  /** What a GET of a page comes back with; `NoResponse` is a transport or parse failure. */
  datatype Response = Response(status: int) | NoResponse

  /** Where things go wrong: page requests by page, record upserts by number, and the three other writes. */
  datatype Faults = Faults(get: nat -> Response, upsert: nat -> bool, begin: bool, save: bool, assess: bool) {
    ghost predicate Nothing() {
      (forall k: nat :: get(k).Response? && get(k).status < 400) && (forall k: nat :: !upsert(k)) && !begin && !save &&
        !assess
    }
  }

  /** How a run ends: before its first write, by an exception it does not handle, by a provider error it
      records and re-raises, without its quality record, or well. */
  datatype Outcome = NotStarted | Crashed | ProviderError(status: int) | NotAssessed | Ready(quality: Quality)

  class EvidenceRepo {
    var activities: map<Key, Activity>
    var saved: Option<Saved>
    var quality: Option<Quality>

    constructor ()
      ensures State() == Start().repo
    {
      activities, saved, quality := map[], None, None;
    }

    ghost function State(): RepoState
      reads this
    {
      RepoState(activities, saved, quality)
    }

    method UpsertActivity(activity: Activity)
      modifies this
      ensures State() == old(State()).(activities :=
                old(activities)[Key(activity.record.principal, activity.record.id) := activity])
    {
      activities := activities[ActivityKey(activity.record) := activity];
    }

    method UpsertCollectionCursor(cursor: Saved)
      modifies this
      ensures State() == old(State()).(saved := Some(cursor))
    {
      saved := Some(cursor);
    }

    method UpsertDataQuality(q: Quality)
      modifies this
      ensures State() == old(State()).(quality := Some(q))
    {
      quality := Some(q);
    }
  }

  /** Some sequence of steps leads from one world to the other. */
  ghost predicate Leads(chain: Chain, w: World, w': World) {
    exists steps :: Leading(chain, w, steps, w')
  }

  ghost predicate Leading(chain: Chain, w: World, steps: seq<Step>, w': World) {
    Legal(chain, w, steps) && Exec(chain, w, steps) == w'
  }

  lemma {:induction false} LeadingAppend(chain: Chain, w: World, a: seq<Step>, w1: World, b: seq<Step>, w2: World)
    requires Leading(chain, w, a, w1) && Leading(chain, w1, b, w2)
    ensures Leading(chain, w, a + b, w2)
    decreases |a|
  {
    if a == [] {
      assert a + b == b;
    } else {
      LeadingAppend(chain, Next(chain, w, a[0]), a[1..], w1, b, w2);
      assert (a + b)[1..] == a[1..] + b;
    }
  }

  lemma LeadsTransitive(chain: Chain, w: World, w1: World, w2: World)
    requires Leads(chain, w, w1) && Leads(chain, w1, w2)
    ensures Leads(chain, w, w2)
  {
    var a :| Leading(chain, w, a, w1);
    var b :| Leading(chain, w1, b, w2);
    LeadingAppend(chain, w, a, w1, b, w2);
  }

  lemma LeadsSelf(chain: Chain, w: World)
    ensures Leads(chain, w, w)
  {
    assert Leading(chain, w, [], w);
  }

  ghost predicate Possible(chain: Chain, w: World) {
    chain != [] && Leads(chain, Start(), w)
  }

  lemma Invariant(chain: Chain, w: World)
    requires Possible(chain, w)
    ensures Inv(chain, w)
  {
    var steps :| Leading(chain, Start(), steps, w);
    StepsOk(chain, Start(), steps);
  }

  /** One more step of a history. */
  lemma LeadsStep(chain: Chain, w: World, w1: World, step: Step)
    requires Possible(chain, w1) && Leads(chain, w, w1) && Enabled(chain, w1, step)
    ensures Leads(chain, w, Next(chain, w1, step)) && Possible(chain, Next(chain, w1, step))
  {
    var w2 := Next(chain, w1, step);
    var one := [step];
    assert one[0] == step && one[1..] == [] && Legal(chain, w2, []);
    assert Leading(chain, w1, one, w2);
    LeadsTransitive(chain, w, w1, w2);
    LeadsTransitive(chain, Start(), w1, w2);
  }

  /** The repository is that of a world in which the run is at the given point. */
  ghost predicate At(chain: Chain, w: World, repo: EvidenceRepo, id: nat, r: RunState)
    reads repo
  {
    Possible(chain, w) && w.repo == repo.State() && id in w.runs && w.runs[id] == r
  }

  ghost predicate Gone(chain: Chain, w: World, repo: EvidenceRepo, id: nat)
    reads repo
  {
    Possible(chain, w) && w.repo == repo.State() && id !in w.runs
  }

  lemma Bounds(chain: Chain, w: World, id: nat)
    requires Possible(chain, w) && id in w.runs
    ensures var r := w.runs[id];
            && PageOf(r.cursor) < |chain|
            && (r.Fetching? || r.Reading? ==> PageOf(r.cursor) <= r.page < |chain|)
            && (r.Reading? ==> r.index <= |chain[r.page].records|)
  {
    Invariant(chain, w);
    assert RunOk(chain, w.repo, w.runs[id]);
  }

  /** Stamps with an offset and stamps without one do not meet. */
  predicate Uniform(taken: seq<Record>) {
    forall a, b | a in taken && b in taken && Acceptable(a) && Acceptable(b) ::
      a.occurred.value.aware == b.occurred.value.aware
  }

  /** The page is on the host and its request is answered below 400. */
  predicate Served(chain: Chain, faults: Faults, page: nat)
    requires page < |chain|
  {
    chain[page].trusted && faults.get(page).Response? && faults.get(page).status < 400
  }

  /** What a page that is not served does to a run: a provider error that is noted, or else an exception. */
  function FailureOf(chain: Chain, faults: Faults, page: nat): Outcome
    requires page < |chain|
  {
    if chain[page].trusted && faults.get(page).Response? then ProviderError(faults.get(page).status) else Crashed
  }

  /** The page is the first from `start` on that is not served. */
  predicate FirstUnserved(chain: Chain, faults: Faults, start: nat, page: nat) {
    start <= page < |chain| && !Served(chain, faults, page) && forall i | start <= i < page :: Served(chain, faults, i)
  }

  /** The run reads to the end if all pages are served, and else ends as the first that is not has it. */
  ghost predicate Foreseen(chain: Chain, faults: Faults, start: nat, atEnd: bool, outcome: Outcome) {
    && (AllServed(chain, faults, start) ==> atEnd)
    && forall page: nat | FirstUnserved(chain, faults, start, page) :: outcome == FailureOf(chain, faults, page)
  }

  lemma ForeseenFailure(chain: Chain, faults: Faults, start: nat, page: nat, outcome: Outcome)
    requires start <= page < |chain| && !Served(chain, faults, page)
    requires forall i | start <= i < page :: Served(chain, faults, i)
    requires outcome == FailureOf(chain, faults, page)
    ensures Foreseen(chain, faults, start, false, outcome)
  {
    forall p: nat | FirstUnserved(chain, faults, start, p) ensures p == page {
    }
  }

  lemma ForeseenEnd(chain: Chain, faults: Faults, start: nat, outcome: Outcome)
    requires forall i | start <= i < |chain| :: Served(chain, faults, i)
    ensures Foreseen(chain, faults, start, true, outcome)
  {
  }

  predicate ServedTo(chain: Chain, faults: Faults, start: nat, page: nat)
    requires page <= |chain|
  {
    forall i | start <= i < page :: Served(chain, faults, i)
  }

  predicate TrustedTo(chain: Chain, start: nat, page: nat)
    requires page <= |chain|
  {
    forall i | start <= i < page :: chain[i].trusted
  }

  lemma NothingFails(chain: Chain, faults: Faults, start: nat)
    requires start <= |chain|
    ensures faults.Nothing() && TrustedFrom(chain, start) && Uniform(AcceptedPages(chain, start, |chain|)) ==>
              RecordsFine(chain, start, faults) && AllServed(chain, faults, start)
  {
  }

  predicate AllServed(chain: Chain, faults: Faults, start: nat) {
    forall i | start <= i < |chain| :: Served(chain, faults, i)
  }

  /** No record fails: no upsert does, and all stamps agree. */
  ghost predicate RecordsFine(chain: Chain, start: nat, faults: Faults)
    requires start <= |chain|
  {
    (forall n: nat :: !faults.upsert(n)) && Uniform(AcceptedPages(chain, start, |chain|))
  }

  predicate TrustedFrom(chain: Chain, page: nat) {
    forall i | page <= i < |chain| :: chain[i].trusted
  }

  lemma {:induction false} AcceptedPrefix(records: seq<Record>, n: nat, m: nat)
    requires n <= m <= |records|
    ensures Accepted(records, n) <= Accepted(records, m)
    decreases m
  {
    if n < m {
      AcceptedPrefix(records, n, m - 1);
    }
  }

  lemma {:induction false} PagesPrefix(chain: Chain, start: nat, k: nat, m: nat)
    requires start <= k <= m <= |chain|
    ensures AcceptedPages(chain, start, k) <= AcceptedPages(chain, start, m)
    decreases m
  {
    if k < m {
      PagesPrefix(chain, start, k, m - 1);
    }
  }

  /** The next record of a page is among all the records of the run. */
  lemma RecordAmongAll(chain: Chain, start: nat, page: nat, index: nat)
    requires start <= page < |chain| && index < |chain[page].records| && Acceptable(chain[page].records[index])
    ensures Taken(chain, start, page, index) + [chain[page].records[index]] <= AcceptedPages(chain, start, |chain|)
  {
    var records := chain[page].records;
    AcceptedPrefix(records, index + 1, |records|);
    PagesPrefix(chain, start, page + 1, |chain|);
    assert AcceptedPages(chain, start, page) + Accepted(records, index + 1) <= AcceptedPages(chain, start, page + 1);
    assert AcceptedPages(chain, start, page) + Accepted(records, index + 1) ==
           Taken(chain, start, page, index) + [records[index]];
  }

  lemma UniformPrefix(p: Progress, taken: seq<Record>, r: Record, all: seq<Record>)
    requires Describes(p, taken) && taken + [r] <= all && Uniform(all) && Acceptable(r)
    ensures Comparable(p, r.occurred.value)
  {
    var more := taken + [r];
    assert more[|taken|] == r && all[|taken|] == r;
    assert r in all;
    if taken != [] {
      assert more[0] == taken[0] && all[0] == taken[0];
      assert taken[0] in taken && taken[0] in all;
    }
  }

  /** When all stamps agree, the next record compares with what was accumulated. */
  lemma UniformCompares(chain: Chain, w: World, id: nat)
    requires Possible(chain, w) && Enabled(chain, w, Take(id)) && PageOf(w.runs[id].cursor) < |chain|
    requires Acceptable(chain[w.runs[id].page].records[w.runs[id].index])
    requires Uniform(AcceptedPages(chain, PageOf(w.runs[id].cursor), |chain|))
    ensures Comparable(w.runs[id].progress, chain[w.runs[id].page].records[w.runs[id].index].occurred.value)
  {
    Invariant(chain, w);
    var r := w.runs[id];
    assert RunOk(chain, w.repo, r);
    RecordAmongAll(chain, PageOf(r.cursor), r.page, r.index);
    UniformPrefix(r.progress, Taken(chain, PageOf(r.cursor), r.page, r.index), chain[r.page].records[r.index],
                  AcceptedPages(chain, PageOf(r.cursor), |chain|));
  }

  /** What is known of a run that has read its last page. */
  lemma FinishedFacts(chain: Chain, w: World, id: nat)
    requires Possible(chain, w) && id in w.runs && w.runs[id].Finished?
    ensures var r := w.runs[id];
            && PageOf(r.cursor) < |chain| && PagesKept(chain, w.repo, |chain|)
            && r.progress.latest == Latest(chain, r.cursor, |chain|)
            && Describes(r.progress, AcceptedPages(chain, PageOf(r.cursor), |chain|))
            && Uniform(AcceptedPages(chain, PageOf(r.cursor), |chain|))
  {
    Invariant(chain, w);
    assert RunOk(chain, w.repo, w.runs[id]);
  }

  lemma FetchingFacts(chain: Chain, w: World, id: nat)
    requires Possible(chain, w) && id in w.runs && w.runs[id].Fetching?
    ensures var r := w.runs[id];
            PageOf(r.cursor) <= r.page < |chain| && r.progress.latest == Latest(chain, r.cursor, r.page)
  {
    Invariant(chain, w);
    assert RunOk(chain, w.repo, w.runs[id]);
  }

  /** One record: passed over, or stored and accumulated. */
  method TakeRecord(ghost w0: World, ghost w: World, id: nat, repo: EvidenceRepo, chain: Chain, cursor: Cursor,
                    held: bool,
                    page: nat, k: nat, progress: Progress, upsertFails: nat -> bool)
    returns (ok: bool, after: Progress, ghost w': World)
    requires page < |chain| && k < |chain[page].records| && PageOf(cursor) < |chain| && Leads(chain, w0, w)
    requires At(chain, w, repo, id, Reading(cursor, held, page, k, progress))
    modifies repo
    ensures var r := chain[page].records[k];
            var stored := r.principal != "" && r.action != "" && r.occurred.Some? && !upsertFails(progress.count);
            repo.activities == if stored then old(repo.activities)[Key(r.principal, r.id) := Activity(r, held)]
                               else old(repo.activities)
    ensures Leads(chain, w0, w') && repo.saved == old(repo.saved)
    ensures ok ==> At(chain, w', repo, id, Reading(cursor, held, page, k + 1, after))
    ensures !ok ==> Gone(chain, w', repo, id)
    ensures (forall n: nat :: !upsertFails(n)) && Uniform(AcceptedPages(chain, PageOf(cursor), |chain|)) ==> ok
  {
    var record := chain[page].records[k];
    if Acceptable(record) && upsertFails(progress.count) {
      LeadsStep(chain, w0, w, Die(id));
      return false, progress, Next(chain, w, Die(id));
    }
    LeadsStep(chain, w0, w, Take(id));
    w' := Next(chain, w, Take(id));
    if !Acceptable(record) {
      return true, progress, w';
    }
    if Uniform(AcceptedPages(chain, PageOf(cursor), |chain|)) {
      UniformCompares(chain, w, id);
    }
    repo.UpsertActivity(Activity(record, held));
    ok, after := Accumulate(progress, record.occurred.value, if page + 1 < |chain| then Some(page + 1) else None);
  }

  /** The count, the two times and the cursor after one stored record; comparing its stamp with the two may raise. */
  method Accumulate(progress: Progress, at: Stamp, next: Cursor) returns (ok: bool, after: Progress)
    ensures ok <==> Comparable(progress, at)
    ensures after == if ok then Advance(progress, at, next) else progress
  {
    var first, last := progress.first, progress.last;
    if (first.Some? && first.value.aware != at.aware) || (last.Some? && last.value.aware != at.aware) {
      return false, progress;
    }
    ok := true;
    after := Progress(progress.count + 1, if first.Some? && first.value.at <= at.at then first else Some(at),
                      if last.Some? && last.value.at >= at.at then last else Some(at),
                      if next.Some? then next else progress.latest);
  }

  /** The records of one page, up to the first that fails. */
  method ReadPage(ghost w: World, id: nat, repo: EvidenceRepo, chain: Chain, cursor: Cursor, held: bool, page: nat,
                  progress: Progress, upsertFails: nat -> bool)
    returns (ok: bool, after: Progress, ghost w': World)
    requires At(chain, w, repo, id, Reading(cursor, held, page, 0, progress))
    modifies repo
    ensures Leads(chain, w, w') && page < |chain| && repo.saved == old(repo.saved)
    ensures ok ==> At(chain, w', repo, id, Reading(cursor, held, page, |chain[page].records|, after))
    ensures !ok ==> Gone(chain, w', repo, id)
    ensures PageOf(cursor) < |chain|
    ensures (forall n: nat :: !upsertFails(n)) && Uniform(AcceptedPages(chain, PageOf(cursor), |chain|)) ==> ok
  {
    w' := w;
    LeadsSelf(chain, w);
    Bounds(chain, w, id);
    ok, after := true, progress;
    for k := 0 to |chain[page].records|
      invariant ok && At(chain, w', repo, id, Reading(cursor, held, page, k, after))
      invariant Leads(chain, w, w') && repo.saved == old(repo.saved)
    {
      ok, after, w' := TakeRecord(w, w', id, repo, chain, cursor, held, page, k, after, upsertFails);
      if !ok {
        return;
      }
    }
  }

  /** One page of the adapter's loop: the boundary check, the request, then the page's records. */
  method VisitPage(ghost w0: World, ghost w: World, id: nat, repo: EvidenceRepo, chain: Chain, cursor: Cursor,
                   held: bool, page: nat,
                   progress: Progress, faults: Faults)
    returns (outcome: Outcome, after: Progress, ghost w': World)
    requires At(chain, w, repo, id, Fetching(cursor, held, page, progress)) && page < |chain| && Leads(chain, w0, w)
    modifies repo
    ensures Leads(chain, w0, w') && repo.saved == old(repo.saved) && PageOf(cursor) < |chain|
    ensures outcome == NotAssessed || outcome == Crashed || outcome.ProviderError?
    ensures outcome == NotAssessed ==>
              chain[page].trusted && At(chain, w', repo, id, Reading(cursor, held, page, |chain[page].records|, after))
    ensures outcome == Crashed ==> Gone(chain, w', repo, id)
    ensures outcome.ProviderError? ==>
              outcome.status >= 400 && chain[page].trusted && after == progress &&
              At(chain, w', repo, id, Fetching(cursor, held, page, progress))
    ensures RecordsFine(chain, PageOf(cursor), faults) ==>
              outcome == if Served(chain, faults, page) then NotAssessed else FailureOf(chain, faults, page)
  {
    Bounds(chain, w, id);
    if !chain[page].trusted || faults.get(page).NoResponse? {
      LeadsStep(chain, w0, w, Die(id));
      return Crashed, progress, Next(chain, w, Die(id));
    }
    if faults.get(page).status >= 400 {
      return ProviderError(faults.get(page).status), progress, w;
    }
    LeadsStep(chain, w0, w, Fetch(id));
    ghost var w1 := Next(chain, w, Fetch(id));
    var ok;
    ok, after, w' := ReadPage(w1, id, repo, chain, cursor, held, page, progress, faults.upsert);
    LeadsTransitive(chain, w0, w1, w');
    outcome := if ok then NotAssessed else Crashed;
  }

  /** The run is at a page whose request was refused. */
  ghost predicate Refused(chain: Chain, w: World, repo: EvidenceRepo, id: nat, cursor: Cursor, held: bool,
                          progress: Progress)
    reads repo
  {
    && id in w.runs && w.runs[id].Fetching? && w.runs[id].page < |chain| && chain[w.runs[id].page].trusted
    && At(chain, w, repo, id, Fetching(cursor, held, w.runs[id].page, progress))
  }

  lemma CollectForeseen(chain: Chain, faults: Faults, start: nat, page: nat, outcome: Outcome)
    requires start <= page < |chain| && (outcome == NotAssessed ==> page + 1 == |chain|)
    requires RecordsFine(chain, start, faults) ==>
               && ServedTo(chain, faults, start, page)
               && outcome == if Served(chain, faults, page) then NotAssessed else FailureOf(chain, faults, page)
    ensures RecordsFine(chain, start, faults) ==>
              Foreseen(chain, faults, start, outcome == NotAssessed, outcome)
  {
    if RecordsFine(chain, start, faults) {
      if Served(chain, faults, page) {
        ForeseenEnd(chain, faults, start, outcome);
      } else {
        ForeseenFailure(chain, faults, start, page, outcome);
      }
    }
  }

  /** From one page read to the next. */
  lemma Turned(chain: Chain, w0: World, w: World, repo: EvidenceRepo, id: nat, cursor: Cursor, held: bool, page: nat,
               progress: Progress) returns (w': World)
    requires page + 1 < |chain| && Leads(chain, w0, w)
    requires At(chain, w, repo, id, Reading(cursor, held, page, |chain[page].records|, progress))
    ensures At(chain, w', repo, id, Fetching(cursor, held, page + 1, progress)) && Leads(chain, w0, w')
  {
    LeadsStep(chain, w0, w, Turn(id));
    w' := Next(chain, w, Turn(id));
  }

  /** The loop stands at a page, those before it served and on the host. */
  ghost predicate Looping(chain: Chain, w0: World, w: World, repo: EvidenceRepo, id: nat, cursor: Cursor, held: bool,
                          page: nat, progress: Progress, faults: Faults)
    reads repo
  {
    && Leads(chain, w0, w) && At(chain, w, repo, id, Fetching(cursor, held, page, progress))
    && PageOf(cursor) <= page < |chain| && TrustedTo(chain, PageOf(cursor), page)
    && (RecordsFine(chain, PageOf(cursor), faults) ==> ServedTo(chain, faults, PageOf(cursor), page))
  }

  /** The loop has ended: behind the last page, by an exception, or at a page whose request was refused. */
  ghost predicate Collected(chain: Chain, w0: World, w: World, repo: EvidenceRepo, id: nat, cursor: Cursor, held: bool,
                            progress: Progress, faults: Faults, outcome: Outcome)
    reads repo
  {
    && Leads(chain, w0, w) && PageOf(cursor) < |chain|
    && (outcome == NotAssessed || outcome == Crashed || outcome.ProviderError?)
    && (outcome == NotAssessed ==>
          && At(chain, w, repo, id, Reading(cursor, held, |chain| - 1, |chain[|chain| - 1].records|, progress))
          && TrustedFrom(chain, PageOf(cursor)))
    && (outcome == Crashed ==> Gone(chain, w, repo, id))
    && (outcome.ProviderError? ==> outcome.status >= 400 && Refused(chain, w, repo, id, cursor, held, progress))
    && (RecordsFine(chain, PageOf(cursor), faults) ==>
          Foreseen(chain, faults, PageOf(cursor), outcome == NotAssessed, outcome))
  }

  /** One round of the loop. */
  method Round(ghost w0: World, ghost w: World, id: nat, repo: EvidenceRepo, chain: Chain, cursor: Cursor, held: bool,
               page: nat, progress: Progress, faults: Faults)
    returns (done: bool, outcome: Outcome, after: Progress, ghost w': World)
    requires Looping(chain, w0, w, repo, id, cursor, held, page, progress, faults)
    modifies repo
    ensures repo.saved == old(repo.saved)
    ensures if done then Collected(chain, w0, w', repo, id, cursor, held, after, faults, outcome)
            else page + 1 < |chain| && Looping(chain, w0, w', repo, id, cursor, held, page + 1, after, faults)
  {
    outcome, after, w' := VisitPage(w0, w, id, repo, chain, cursor, held, page, progress, faults);
    done := outcome != NotAssessed || page + 1 == |chain|;
    if done {
      CollectForeseen(chain, faults, PageOf(cursor), page, outcome);
    } else {
      w' := Turned(chain, w0, w', repo, id, cursor, held, page, after);
    }
  }

  /** The adapter's loop over the pages, with the service's loop over the records inside. */
  method Collect(ghost w: World, id: nat, repo: EvidenceRepo, chain: Chain, cursor: Cursor, held: bool, faults: Faults)
    returns (outcome: Outcome, after: Progress, ghost w': World)
    requires At(chain, w, repo, id, Fetching(cursor, held, PageOf(cursor), Progress(0, None, None, cursor)))
    modifies repo
    ensures repo.saved == old(repo.saved) && Collected(chain, w, w', repo, id, cursor, held, after, faults, outcome)
    ensures faults.Nothing() && TrustedFrom(chain, PageOf(cursor)) &&
            Uniform(AcceptedPages(chain, PageOf(cursor), |chain|)) ==>
              outcome == NotAssessed
  {
    w' := w;
    LeadsSelf(chain, w);
    Bounds(chain, w, id);
    var page := PageOf(cursor);
    after := Progress(0, None, None, cursor);
    while true
      invariant repo.saved == old(repo.saved)
      invariant Looping(chain, w, w', repo, id, cursor, held, page, after, faults)
      decreases |chain| - page
    {
      var done;
      done, outcome, after, w' := Round(w, w', id, repo, chain, cursor, held, page, after, faults);
      if done {
        NothingFails(chain, faults, PageOf(cursor));
        return;
      }
      page := page + 1;
    }
  }

  /** The span from start to end reaches into its `days`-th day, and completeness is that many days of ninety. */
  predicate ShareOf(q: Quality, days: nat) {
    && q.start.Some? && q.end.Some?
    && (days - 1) * DAY <= q.end.value.at - q.start.value.at < days * DAY
    && q.completeness == days as real / 90.0
  }

  /** The coverage arithmetic at the end of `run`, and what it says of the records taken: their earliest and latest
      times; a gap, and less than full completeness, unless two of them lie at least 89 days apart; completeness in
      proportion to the days begun between the two ends; confidence whenever there is any record. */
  method QualityOf(progress: Progress, ghost taken: seq<Record>) returns (quality: Quality)
    requires Describes(progress, taken)
    ensures taken == [] <==> quality.start.None? && quality.end.None?
    ensures taken != [] ==>
              && quality.start.Some? && quality.end.Some?
              && (forall r | r in taken :: quality.start.value.at <= r.occurred.value.at <= quality.end.value.at)
              && (exists a, b | a in taken && b in taken :: a.occurred == quality.start && b.occurred == quality.end)
    ensures quality.gap <==>
            !exists a, b | a in taken && b in taken ::
                b.occurred.value.at - a.occurred.value.at >= 89 * 86_400_000_000
    ensures !quality.gap <==> quality.completeness == 1.0
    ensures 0.0 <= quality.completeness <= 1.0 && (taken == [] <==> quality.completeness == 0.0)
    ensures quality.gap && taken != [] ==> exists days: nat :: ShareOf(quality, days)
    ensures quality.confidence == if taken == [] then 0.0 else 1.0
    ensures quality == Assessed(progress)
  {
    CoverageMeaning(progress, taken);
    var days := 0;
    if progress.first.Some? && progress.last.Some? {
      days := Days(progress.last.value.at - progress.first.value.at) + 1;
    }
    var completeness := days as real / 90.0;
    if completeness > 1.0 {
      completeness := 1.0;
    }
    quality := Quality(progress.first, progress.last, completeness, if progress.count > 0 then 1.0 else 0.0, days < 90);
    assert quality.gap && taken != [] ==> ShareOf(quality, days);
  }

  /** The writes of a run that has read its last page. */
  method Save(ghost w: World, ghost w2: World, id: nat, repo: EvidenceRepo, chain: Chain, cursor: Cursor, held: bool,
              progress: Progress, assessFails: bool)
    returns (outcome: Outcome, ghost w': World)
    requires chain != [] && Leads(chain, w, w2)
    requires At(chain, w2, repo, id, Reading(cursor, held, |chain| - 1, |chain[|chain| - 1].records|, progress))
    modifies repo
    ensures Leads(chain, w, w') && Gone(chain, w', repo, id) && PageOf(cursor) < |chain|
    ensures PagesKept(chain, repo.State(), |chain|)
    ensures repo.saved == Some(Saved(Latest(chain, cursor, |chain|), progress.last, READY))
    ensures outcome == if assessFails then NotAssessed else Ready(Assessed(progress))
    ensures outcome.Ready? ==> repo.quality == Some(outcome.quality)
    ensures Describes(progress, AcceptedPages(chain, PageOf(cursor), |chain|))
    ensures Uniform(AcceptedPages(chain, PageOf(cursor), |chain|))
  {
    LeadsStep(chain, w, w2, Finish(id));
    ghost var w3 := Next(chain, w2, Finish(id));
    FinishedFacts(chain, w3, id);
    repo.UpsertCollectionCursor(Saved(progress.latest, progress.last, READY));
    if assessFails {
      LeadsStep(chain, w, w3, Die(id));
      return NotAssessed, Next(chain, w3, Die(id));
    }
    LeadsStep(chain, w, w3, Assess(id));
    w' := Next(chain, w3, Assess(id));
    var quality := QualityOf(progress, AcceptedPages(chain, PageOf(cursor), |chain|));
    repo.UpsertDataQuality(quality);
    outcome := Ready(quality);
  }

  /** `run`, from the cursor chosen for it. Whatever fails, what it does to the containers is a history of
      the step system. It ends well exactly when nothing fails, no continuation leaves the provider's host
      and the stamps it meets agree on having an offset; then every acceptable record of the chain is
      stored, also those before the cursor. */
  method Run(ghost w: World, id: nat, repo: EvidenceRepo, chain: Chain, cursor: Cursor, legalHold: bool, faults: Faults)
    returns (outcome: Outcome, ghost w': World)
    requires At(chain, w, repo, id, Chosen(cursor, legalHold))
    modifies repo
    ensures Leads(chain, w, w') && Gone(chain, w', repo, id)
    ensures outcome.Ready? || outcome == NotAssessed ==>
              && AllHeld(chain, repo.State(), |chain|) && PageOf(cursor) < |chain|
              && repo.saved.Some? && repo.saved.value.status == "ready"
              && repo.saved.value.cursor == Latest(chain, cursor, |chain|)
    ensures outcome.Ready? ==>
              && repo.quality == Some(outcome.quality) && PageOf(cursor) < |chain|
              && exists p ::
                   outcome.quality == Assessed(p) && Describes(p, AcceptedPages(chain, PageOf(cursor), |chain|))
    ensures outcome.Ready? ==> repo.saved.Some? && repo.saved.value.watermark == outcome.quality.end
    ensures outcome.ProviderError? ==>
              && repo.saved.Some?
              && repo.saved.value.status ==
                 (if outcome.status == 429 || outcome.status >= 500 then "throttled" else "failed")
              && exists page | PageOf(cursor) <= page < |chain| ::
                   repo.saved.value.cursor == Latest(chain, cursor, page)
    ensures outcome == Crashed ==> repo.saved == Some(Saved(cursor, None, "running"))
    ensures outcome == NotStarted ==> repo.State() == old(repo.State())
    ensures faults.begin <==> outcome == NotStarted
    ensures faults.save ==> outcome == NotStarted || outcome == Crashed
    ensures PageOf(cursor) < |chain| && RecordsFine(chain, PageOf(cursor), faults) && !faults.begin && !faults.save ==>
              Foreseen(chain, faults, PageOf(cursor), if faults.assess then outcome == NotAssessed else outcome.Ready?,
                       outcome)
    ensures faults.Nothing() && PageOf(cursor) < |chain| ==>
              (outcome.Ready? <==>
                 TrustedFrom(chain, PageOf(cursor)) && Uniform(AcceptedPages(chain, PageOf(cursor), |chain|)))
  {
    LeadsSelf(chain, w);
    if faults.begin {
      LeadsStep(chain, w, w, Die(id));
      return NotStarted, Next(chain, w, Die(id));
    }
    LeadsStep(chain, w, w, Begin(id));
    ghost var w1 := Next(chain, w, Begin(id));
    repo.UpsertCollectionCursor(Saved(cursor, None, RUNNING));
    var progress;
    ghost var w2;
    outcome, progress, w2 := Collect(w1, id, repo, chain, cursor, legalHold, faults);
    LeadsTransitive(chain, w, w1, w2);
    if outcome == Crashed {
      return Crashed, w2;
    }
    if faults.save {
      LeadsStep(chain, w, w2, Die(id));
      return Crashed, Next(chain, w2, Die(id));
    }
    if outcome.ProviderError? {
      FetchingFacts(chain, w2, id);
      LeadsStep(chain, w, w2, Refuse(id, outcome.status));
      w' := Next(chain, w2, Refuse(id, outcome.status));
      var status := if Retryable(outcome.status) then THROTTLED else FAILED;
      repo.UpsertCollectionCursor(Saved(progress.latest, progress.last, status));
      return;
    }
    outcome, w' := Save(w, w2, id, repo, chain, cursor, legalHold, progress, faults.assess);
    KeptIsHeld(chain, repo.State(), |chain|);
  }

  /** A run that picks up the saved cursor, or begins at the start of the chain when none is saved, after any history of
      other runs. With nothing failing it ends well exactly when, from there on, no continuation leaves the host and the
      stamps agree; then every record of the whole chain is held. */
  method Resume(ghost w: World, id: nat, repo: EvidenceRepo, chain: Chain, legalHold: bool, faults: Faults)
    returns (outcome: Outcome, ghost w': World)
    requires Possible(chain, w) && w.repo == repo.State() && id !in w.runs
    modifies repo
    ensures Leads(chain, w, w') && Gone(chain, w', repo, id)
    ensures outcome.Ready? || outcome == NotAssessed ==> AllHeld(chain, repo.State(), |chain|)
    ensures var start := if old(repo.saved).Some? && old(repo.saved).value.cursor.Some?
                         then old(repo.saved).value.cursor.value else 0;
            && start < |chain|
            && (faults.Nothing() ==>
                  (outcome.Ready? <==> TrustedFrom(chain, start) && Uniform(AcceptedPages(chain, start, |chain|))))
  {
    var cursor := if repo.saved.Some? then repo.saved.value.cursor else None;
    LeadsSelf(chain, w);
    LeadsStep(chain, w, w, Choose(id, legalHold));
    ghost var chosen := Next(chain, w, Choose(id, legalHold));
    Bounds(chain, chosen, id);
    outcome, w' := Run(chosen, id, repo, chain, cursor, legalHold, faults);
    LeadsTransitive(chain, w, chosen, w');
  }
}
