/** The buffering batch writer of the backend and the sequential batch upsert of the function app. */
module BatchWriting {
  import opened Sequences
  import opened Documents
  import opened Buffering
  import opened FlushProtocol
  import opened FlushLiveness
  import opened FlushSchedules
  import opened FlushResults
  import opened RaisedChunks

  class CosmosContainer {
    var items: Store

    constructor ()
      ensures items == map[]
    {
      items := map[];
    }
  }

  /** Neither a batch nor a single upsert fails with anything but a Cosmos response error. */
  predicate OnlyCosmosErrors(steps: seq<Step>) {
    forall step | step in steps :: !step.BatchCrashed? && !step.SingleCrashed?
  }

  predicate NothingRaised(s: State) {
    forall t | t in s.tasks :: !t.phase.Raised? && Crashed !in t.singles
  }

  lemma StepRaisesNothing(c: Container, chunks: Chunks, s: State, step: Step)
    requires WellSized(chunks, s) && Enabled(s, step) && NothingRaised(s)
    requires !step.BatchCrashed? && !step.SingleCrashed?
    ensures NothingRaised(Next(c, chunks, s, step))
  {
    var t := s.tasks[step.i];
    var s' := Next(c, chunks, s, step);
    var t' := s'.tasks[step.i];
    assert t in s.tasks && s'.tasks == s.tasks[step.i := t'];
    assert forall j | 0 <= j < |t.singles| :: t.singles[j] in t.singles;
    assert !t'.phase.Raised? && forall j | 0 <= j < |t'.singles| :: t'.singles[j] != Crashed;
  }

  /** `steps` is a history of a flush of `chunks` beside the orphans, and `end` where it leads. */
  ghost predicate History(c: Container, chunks: Chunks, rest: Chunks, orphans: seq<Task>, free: int, store0: Store,
                          steps: seq<Step>, end: State) {
    var all, start := chunks + rest, Begin(chunks, orphans, free, store0);
    WellSized(all, start) && Legal(c, all, start, steps) && end == Exec(c, all, start, steps)
  }

  /** A history during which `flush` waits. */
  ghost predicate Flushed(c: Container, chunks: Chunks, rest: Chunks, orphans: seq<Task>, free: int, store0: Store,
                          steps: seq<Step>, end: State) {
    && History(c, chunks, rest, orphans, free, store0, steps, end)
    && Waits(c, chunks + rest, Begin(chunks, orphans, free, store0), steps)
  }

  /** The schedule is one that can run step by step while the flush waits. */
  ghost predicate Possible(c: Container, chunks: Chunks, rest: Chunks, orphans: seq<Task>, free: int, store0: Store,
                           schedule: seq<Step>) {
    exists end :: Flushed(c, chunks, rest, orphans, free, store0, schedule, end)
  }

  /** The number a finished flush of `chunks` returns, and what it leaves running. */
  predicate Returns(chunks: Chunks, rest: Chunks, end: State, written: int, rest': Chunks, orphans': seq<Task>) {
    && |end.tasks| == |chunks + rest|
    && written == Sum(Result, end.tasks[..|chunks|])
    && rest' == LeftoverDocs(chunks + rest, end.tasks) && orphans' == Leftovers(end.tasks)
  }

  /** The dictionary with `d` at the end of the list under `pk`. */
  function Joined(groups: map<string, seq<Doc>>, pk: string, d: Doc): map<string, seq<Doc>> {
    groups[pk := (if pk in groups then groups[pk] else []) + [d]]
  }

  /** `setdefault(pk, []).append(d)`. */
  method AppendTo(layout: Container, ghost docs: seq<Doc>, order0: seq<string>, groups0: map<string, seq<Doc>>, d: Doc)
    returns (order: seq<string>, groups: map<string, seq<Doc>>)
    requires Grouped(layout, docs, order0, groups0)
    ensures Grouped(layout, docs + [d], order, groups)
  {
    var pk := layout.Pk(d);
    if pk in groups0 {
      order, groups := order0, groups0[pk := groups0[pk] + [d]];
    } else {
      order, groups := order0 + [pk], groups0[pk := [d]];
      assert [] + [d] == [d];
    }
    GroupOneMore(layout, docs, d, order0, groups0, order, groups);
  }

  lemma GroupsJoin(c: Container, docs: seq<Doc>, d: Doc, order: seq<string>, groups: map<string, seq<Doc>>,
                   order': seq<string>, groups': map<string, seq<Doc>>)
    requires Grouped(c, docs, order, groups) && Grouped(c, docs + [d], order', groups')
    ensures groups' == Joined(groups, c.Pk(d), d)
  {
    var joined := Joined(groups, c.Pk(d), d);
    forall pk
      ensures pk in groups' <==> pk in joined
      ensures pk in groups' ==> groups'[pk] == joined[pk]
    {
      InPartitionSnoc(c, docs, d, pk);
    }
    assert groups'.Keys == joined.Keys;
  }

  class BatchWriter {
    const target: CosmosContainer
    const layout: Container
    const maxBuffer: nat
    var order: seq<string>
    var buffer: map<string, seq<Doc>>
    var totalBuffered: nat
    var permits: int
    // What the event loop still runs of earlier flushes.
    var orphans: seq<Task>
    var orphanDocs: Chunks
    ghost var added: seq<Doc>

    ghost predicate Valid()
      reads this
    {
      && Grouped(layout, added, order, buffer)
      && totalBuffered == |added|
      && (forall k | 0 <= k < |added| :: added[k].pos == k)
      && Orphans(orphanDocs, orphans, permits)
      && layout.missingId == ""
    }

    constructor (target: CosmosContainer, pkField: string, maxBuffer: nat)
      ensures Valid() && added == [] && permits == PERMITS && orphans == []
      ensures this.target == target && layout == Container(pkField, "") && this.maxBuffer == maxBuffer
    {
      this.target, this.layout, this.maxBuffer := target, Container(pkField, ""), maxBuffer;
      order, buffer, totalBuffered, permits := [], map[], 0, PERMITS;
      orphans, orphanDocs, added := [], [], [];
    }

    /** The document joins the list of its partition field's value; without the field, that of its id. */
    method Add(fields: map<string, string>)
      requires Valid()
      modifies this
      ensures var d := Doc(|old(added)|, fields);
              && (layout.pkField in fields ==> buffer == Joined(old(buffer), fields[layout.pkField], d))
              && (layout.pkField !in fields && "id" in fields ==> buffer == Joined(old(buffer), fields["id"], d))
              && (layout.pkField !in fields && "id" !in fields ==> buffer == Joined(old(buffer), "", d))
      ensures Valid() && permits == old(permits) && orphans == old(orphans) && orphanDocs == old(orphanDocs)
      ensures added == old(added) + [Doc(|old(added)|, fields)]
    {
      var d := Doc(totalBuffered, fields);
      order, buffer := AppendTo(layout, added, order, buffer, d);
      GroupsJoin(layout, added, d, old(order), old(buffer), order, buffer);
      totalBuffered := totalBuffered + 1;
      added := added + [d];
    }

    method ShouldFlush() returns (r: bool)
      requires Valid()
      ensures r <==> |added| >= maxBuffer
    {
      r := totalBuffered >= maxBuffer;
    }

    /** The slicing loop over one group. */
    static method CutGroup(docs: seq<Doc>) returns (chunks: Chunks)
      ensures chunks == Cut(docs)
    {
      chunks := [];
      var i := 0;
      assert docs[0..] == docs;
      while i < |docs|
        invariant Cut(docs) == chunks + Cut(docs[if i < |docs| then i else |docs|..])
      {
        var end := if i + BATCH_MAX < |docs| then i + BATCH_MAX else |docs|;
        CutStep(docs, i, end);
        chunks := chunks + [docs[i..end]];
        i := i + BATCH_MAX;
      }
    }

    /** The task list of `flush`: the groups in the order first met, each cut into batches. It holds what was added,
        each batch within one partition, and all batches of a partition full but its last. */
    method BuildTasks() returns (chunks: Chunks)
      requires Valid()
      ensures chunks == ChunksOf(order, buffer)
      ensures multiset(Flatten(chunks)) == multiset(added) && OnePartitionEach(layout, chunks)
      ensures forall chunk, d, e | chunk in chunks && d in chunk && e in chunk &&
                                   layout.pkField in d.fields && layout.pkField in e.fields ::
                d.fields[layout.pkField] == e.fields[layout.pkField]
    {
      ChunksArePermutation(layout, added, order, buffer);
      BatchesByPartition(layout, added, order, buffer);
      chunks := [];
      var k := 0;
      while k < |order|
        invariant k <= |order|
        invariant chunks + ChunksOf(order[k..], buffer) == ChunksOf(order, buffer)
      {
        assert order[k..][1..] == order[k + 1..];
        var batches := CutGroup(buffer[order[k]]);
        chunks := chunks + batches;
        k := k + 1;
      }
    }

    /** `asyncio.gather` over the chunk tasks, under a schedule of the event loop: steps that cannot run
        are passed over, and the wait ends when every chunk task has. */
    method Gather(chunks: Chunks, s0: State, schedule: seq<Step>) returns (s: State, steps: seq<Step>)
      requires WellSized(chunks, s0)
      ensures Legal(layout, chunks, s0, steps) && s == Exec(layout, chunks, s0, steps)
      ensures Waits(layout, chunks, s0, steps)
      ensures forall step | step in steps :: step in schedule
      ensures Legal(layout, chunks, s0, schedule) && Waits(layout, chunks, s0, schedule) ==> steps == schedule
    {
      s, steps := s0, [];
      assert schedule[0..] == schedule;
      for n := 0 to |schedule|
        invariant WellSized(chunks, s)
        invariant Legal(layout, chunks, s0, schedule) && Waits(layout, chunks, s0, schedule) ==>
                    steps == schedule[..n] && Legal(layout, chunks, s, schedule[n..]) &&
                    Waits(layout, chunks, s, schedule[n..])
        invariant Legal(layout, chunks, s0, steps) && s == Exec(layout, chunks, s0, steps)
        invariant Waits(layout, chunks, s0, steps)
        invariant forall step | step in steps :: step in schedule
      {
        assert schedule[n..][0] == schedule[n] && schedule[n..][1..] == schedule[n + 1..];
        if AllDone(s) {
          break;
        }
        if Enabled(s, schedule[n]) {
          var one := [schedule[n]];
          assert one[1..] == [];
          assert Exec(layout, chunks, s, one) == Next(layout, chunks, s, schedule[n]);
          WaitsOn(layout, chunks, s0, steps, s, one);
          steps := steps + one;
          s := Next(layout, chunks, s, schedule[n]);
        }
      }
    }

    /** The loop over the results of the chunk tasks. */
    static method Written(tasks: seq<Task>) returns (total: int)
      ensures total == Sum(Result, tasks)
    {
      total := 0;
      for k := 0 to |tasks|
        invariant total + Sum(Result, tasks[k..]) == Sum(Result, tasks)
      {
        assert tasks[k..][1..] == tasks[k + 1..];
        if tasks[k].phase.Returned? {
          total := total + tasks[k].phase.written;
        }
      }
    }

    /** `flush` up to the end of the wait. */
    method SendAll(chunks: Chunks, schedule: seq<Step>) returns (end: State, steps: seq<Step>)
      requires Valid()
      ensures Flushed(layout, chunks, orphanDocs, orphans, permits, target.items, steps, end)
      ensures Inv(layout, chunks + orphanDocs, target.items, end)
      ensures forall step | step in steps :: step in schedule
      ensures Possible(layout, chunks, orphanDocs, orphans, permits, target.items, schedule) ==> steps == schedule
    {
      var all, start := chunks + orphanDocs, Begin(chunks, orphans, permits, target.items);
      BeginInv(layout, chunks, orphanDocs, orphans, permits, target.items);
      end, steps := Gather(all, start, schedule);
      RunKeepsInv(layout, all, target.items, start, steps);
    }

    /** What `flush` does once every chunk task has ended in `end`. */
    method Finish(chunks: Chunks, end: State) returns (written: int)
      requires Inv(layout, chunks + orphanDocs, target.items, end) && AllDone(end)
      modifies `order, `buffer, `totalBuffered, `added, `orphans, `orphanDocs
      ensures Returns(chunks, old(orphanDocs), end, written, orphanDocs, orphans)
      ensures Orphans(orphanDocs, orphans, end.free)
      ensures Grouped(layout, added, order, buffer) && totalBuffered == 0 && added == []
    {
      FlushLeaves(layout, chunks + orphanDocs, target.items, end);
      written := Written(end.tasks[..|chunks|]);
      orphans, orphanDocs := Leftovers(end.tasks), LeftoverDocs(chunks + orphanDocs, end.tasks);
      order, buffer, totalBuffered, added := [], map[], 0, [];
    }

    /** One flush under a schedule of the event loop, beside what earlier flushes left running. `None`: the
        schedule ran out with `flush` still waiting. */
    method Flush(schedule: seq<Step>) returns (written: Option<int>, ghost end: State, ghost steps: seq<Step>)
      requires Valid()
      modifies this, target
      ensures forall step | step in steps :: step in schedule
      ensures Flushed(layout, ChunksOf(old(order), old(buffer)), old(orphanDocs), old(orphans), old(permits),
                      old(target.items), steps, end)
      ensures (Possible(layout, ChunksOf(old(order), old(buffer)), old(orphanDocs), old(orphans), old(permits),
                        old(target.items), schedule)
               ==> steps == schedule)
      ensures target.items == end.store && permits == end.free
      ensures layout.Wrote(old(target.items), end.log, target.items)
      ensures written.Some? <==> AllDone(end)
      ensures written.Some? ==>
                && Returns(ChunksOf(old(order), old(buffer)), old(orphanDocs), end, written.value, orphanDocs, orphans)
                && Valid() && added == []
      ensures written.None? ==> added == old(added) && order == old(order) && buffer == old(buffer) &&
                                totalBuffered == old(totalBuffered)
    {
      var chunks := BuildTasks();
      var s: State;
      s, steps := SendAll(chunks, schedule);
      layout.UpsertAllWrites(target.items, s.log);
      end, written := s, None;
      if AllDone(s) {
        var total := Finish(chunks, s);
        written := Some(total);
      }
      target.items, permits := s.store, s.free;
    }
  }

  lemma BufferedDistinct(c: Container, docs: seq<Doc>, order: seq<string>, groups: map<string, seq<Doc>>)
    requires Grouped(c, docs, order, groups)
    requires forall k | 0 <= k < |docs| :: docs[k].pos == k
    ensures var flat := Flatten(ChunksOf(order, groups));
            && DistinctPositions(flat)
            && (forall d :: d in docs <==> d in flat)
            && (c.SameKeySameFields(docs) <==> c.SameKeySameFields(flat))
            && NonemptyChunks(ChunksOf(order, groups))
  {
    ChunksArePermutation(c, docs, order, groups);
    PermutationKeepsDistinct(c, docs, Flatten(ChunksOf(order, groups)));
    ChunkSizes(order, groups);
  }

  lemma {:induction false} CosmosErrorsOnly(c: Container, chunks: Chunks, s: State, steps: seq<Step>)
    requires WellSized(chunks, s) && Legal(c, chunks, s, steps) && OnlyCosmosErrors(steps) && NothingRaised(s)
    ensures NothingRaised(Exec(c, chunks, s, steps))
    decreases |steps|
  {
    if steps != [] {
      StepRaisesNothing(c, chunks, s, steps[0]);
      CosmosErrorsOnly(c, chunks, Next(c, chunks, s, steps[0]), steps[1..]);
    }
  }

  lemma {:induction false} SelectCount(docs: seq<Doc>, ok: set<nat>, d: Doc)
    ensures multiset(Select(docs, ok))[d] == if d.pos in ok then multiset(docs)[d] else 0
    decreases |docs|
  {
    if docs != [] {
      var n := |docs| - 1;
      assert docs == docs[..n] + [docs[n]];
      SelectCount(docs[..n], ok, d);
    }
  }

  lemma SelectMultiset(a: seq<Doc>, b: seq<Doc>, ok: set<nat>)
    requires multiset(a) == multiset(b)
    ensures multiset(Select(a, ok)) == multiset(Select(b, ok))
    ensures |Select(a, ok)| == |Select(b, ok)|
  {
    forall d ensures multiset(Select(a, ok))[d] == multiset(Select(b, ok))[d] {
      SelectCount(a, ok, d);
      SelectCount(b, ok, d);
    }
    assert |Select(a, ok)| == |multiset(Select(a, ok))|;
  }

  lemma FlushCount(c: Container, docs: seq<Doc>, order: seq<string>, groups: map<string, seq<Doc>>,
                   store0: Store, end: State)
    requires Grouped(c, docs, order, groups)
    requires forall k | 0 <= k < |docs| :: docs[k].pos == k
    requires Inv(c, ChunksOf(order, groups), store0, end) && LogOk(ChunksOf(order, groups), end)
    requires AllDone(end) && Sum(Uncounted, end.tasks) == 0
    ensures Sum(Result, end.tasks) == |Select(docs, Positions(end.log))|
  {
    var chunks := ChunksOf(order, groups);
    BufferedDistinct(c, docs, order, groups);
    ReturnedNumber(c, chunks, store0, end);
    ChunksArePermutation(c, docs, order, groups);
    SelectMultiset(docs, Flatten(chunks), Positions(end.log));
  }

  lemma DoneIsSettled(s: State)
    requires NothingRaised(s) && AllDone(s) && forall t | t in s.tasks :: ShapeOk(t)
    ensures AllSettled(s)
    ensures Sum(Uncounted, s.tasks) == 0
    ensures Sum(TaskPermits, s.tasks) == 0
  {
    forall t | t in s.tasks ensures Queued !in t.singles && Sending !in t.singles && TaskPermits(t) == 0 {
      PermitsBySendings(t);
    }
    SumAllZero(Uncounted, s.tasks);
    SumAllZero(TaskPermits, s.tasks);
  }

  lemma FlushStore(c: Container, docs: seq<Doc>, order: seq<string>, groups: map<string, seq<Doc>>,
                   store0: Store, end: State)
    requires Grouped(c, docs, order, groups)
    requires forall k | 0 <= k < |docs| :: docs[k].pos == k
    requires Inv(c, ChunksOf(order, groups), store0, end) && LogOk(ChunksOf(order, groups), end)
    requires c.SameKeySameFields(docs)
    ensures end.store == c.UpsertAll(store0, Select(docs, Positions(end.log)))
  {
    var chunks := ChunksOf(order, groups);
    var flat, ok := Flatten(chunks), Positions(end.log);
    BufferedDistinct(c, docs, order, groups);
    StoreIsSequential(c, chunks, store0, end);
    SameKeyByMembers(c, docs, Select(flat, ok));
    c.OrderIrrelevant(store0, Select(flat, ok), Select(docs, ok));
  }

  /** Any flush that returns, if only Cosmos response errors occurred, returns the number of buffered
      documents it stored; and when no key was buffered with two contents, the container holds what upserting
      exactly those documents one by one, in the order they were added, would leave. It leaves nothing running. */
  lemma FlushRefinesUpserts(c: Container, docs: seq<Doc>, order: seq<string>, groups: map<string, seq<Doc>>,
                            store0: Store, steps: seq<Step>, end: State)
    requires Grouped(c, docs, order, groups)
    requires forall k | 0 <= k < |docs| :: docs[k].pos == k
    requires History(c, ChunksOf(order, groups), [], [], PERMITS, store0, steps, end)
    requires OnlyCosmosErrors(steps) && AllDone(end)
    ensures var ok := Positions(end.log);
            && Sum(Result, end.tasks) == |Select(docs, ok)|
            && (c.SameKeySameFields(docs) ==> end.store == c.UpsertAll(store0, Select(docs, ok)))
    ensures AllSettled(end) && end.free == PERMITS && Leftovers(end.tasks) == []
  {
    var chunks := ChunksOf(order, groups);
    BeginFirst(chunks, store0);
    ReachableInv(c, chunks, store0, steps);
    CosmosErrorsOnly(c, chunks, Init(chunks, store0), steps);
    DoneIsSettled(end);
    LeftoverPermits(end.tasks);
    FlushCount(c, docs, order, groups, store0, end);
    if c.SameKeySameFields(docs) {
      FlushStore(c, docs, order, groups, store0, end);
    }
  }

  /** A flush beside what earlier ones left running: the container holds what upserting the documents stored
      meanwhile, one by one in the order stored, leaves; the number returned leaves out what raised tasks stored,
      the orphans among them; and what it leaves running is again such that the next flush may begin beside it. */
  lemma FlushBesideOrphans(c: Container, chunks: Chunks, rest: Chunks, orphans: seq<Task>, free: int, store0: Store,
                           steps: seq<Step>, end: State)
    requires Orphans(rest, orphans, free) && History(c, chunks, rest, orphans, free, store0, steps, end)
    ensures end.store == c.UpsertAll(store0, end.log) && LogOk(chunks + rest, end)
    ensures AllDone(end) ==>
              && Sum(Result, end.tasks[..|chunks|]) == |end.log| - Sum(Uncounted, end.tasks)
              && Orphans(LeftoverDocs(chunks + rest, end.tasks), Leftovers(end.tasks), end.free)
  {
    BeginInv(c, chunks, rest, orphans, free, store0);
    RunKeepsInv(c, chunks + rest, store0, Begin(chunks, orphans, free, store0), steps);
    if AllDone(end) {
      ReturnedFromLog(c, chunks + rest, store0, end);
      OrphansStayRaised(c, chunks, rest, orphans, free, store0, steps);
      RaisedReturnNothing(end.tasks, |chunks|);
      FlushLeaves(c, chunks + rest, store0, end);
    }
  }

  // ---- Which buffered documents make a long chunk ----

  /** Two of the documents lie in one partition. */
  predicate SharedPartition(c: Container, docs: seq<Doc>, pk: string) {
    exists i, j | 0 <= i < j < |docs| :: c.Pk(docs[i]) == pk && c.Pk(docs[j]) == pk
  }

  lemma {:induction false} TwoInPartition(c: Container, docs: seq<Doc>, pk: string)
    ensures |c.InPartition(docs, pk)| >= 1 <==> exists i | 0 <= i < |docs| :: c.Pk(docs[i]) == pk
    ensures |c.InPartition(docs, pk)| >= 2 <==> SharedPartition(c, docs, pk)
    decreases |docs|
  {
    if docs != [] {
      var n := |docs| - 1;
      var init := docs[..n];
      TwoInPartition(c, init, pk);
      assert forall i | 0 <= i < n :: init[i] == docs[i];
      if SharedPartition(c, init, pk) {
        var i, j :| 0 <= i < j < n && c.Pk(init[i]) == pk && c.Pk(init[j]) == pk;
        assert c.Pk(docs[i]) == pk && c.Pk(docs[j]) == pk;
      }
      if i :| 0 <= i < n && c.Pk(init[i]) == pk {
        assert c.Pk(docs[i]) == pk;
      }
      if i, j :| 0 <= i < j < |docs| && c.Pk(docs[i]) == pk && c.Pk(docs[j]) == pk {
        assert c.Pk(init[i]) == pk && (j < n ==> c.Pk(init[j]) == pk);
      }
    }
  }

  lemma LongCut(docs: seq<Doc>)
    ensures AnyLong(Cut(docs)) <==> |docs| >= 2
  {
    CutIsPartition(docs);
    if |docs| >= 2 {
      assert Long(Cut(docs)[0]) && Cut(docs)[0] in Cut(docs);
    } else if docs != [] {
      assert Cut(docs) == [docs];
    }
  }

  lemma {:induction false} LongGroup(order: seq<string>, groups: map<string, seq<Doc>>)
    requires forall pk | pk in order :: pk in groups
    ensures AnyLong(ChunksOf(order, groups)) <==> exists pk | pk in order :: |groups[pk]| >= 2
  {
    if order != [] {
      assert order == [order[0]] + order[1..];
      LongCut(groups[order[0]]);
      LongGroup(order[1..], groups);
      var first, others := Cut(groups[order[0]]), ChunksOf(order[1..], groups);
      assert forall chunk :: chunk in first + others <==> chunk in first || chunk in others;
    }
  }

  /** The batches of a flush include one of two documents or more exactly when two of the buffered documents lie in one
      partition: a writer whose documents all have keys of their own never miscounts nor leaves anything running. */
  lemma LongExactly(c: Container, docs: seq<Doc>, order: seq<string>, groups: map<string, seq<Doc>>)
    requires Grouped(c, docs, order, groups)
    ensures AnyLong(ChunksOf(order, groups)) <==>
            exists i, j | 0 <= i < j < |docs| :: SamePartition(c, docs[i].fields, docs[j].fields)
  {
    forall i, j | 0 <= i < j < |docs|
      ensures SamePartition(c, docs[i].fields, docs[j].fields) <==> c.Pk(docs[i]) == c.Pk(docs[j])
    {
      SamePartitionByKey(c, docs[i], docs[j]);
    }
    LongGroup(order, groups);
    if AnyLong(ChunksOf(order, groups)) {
      var pk :| pk in order && |groups[pk]| >= 2;
      TwoInPartition(c, docs, pk);
    }
    if i, j :| 0 <= i < j < |docs| && c.Pk(docs[i]) == c.Pk(docs[j]) {
      var pk := c.Pk(docs[i]);
      assert SharedPartition(c, docs, pk);
      TwoInPartition(c, docs, pk);
      assert pk in order;
    }
  }

  // ---- From how many documents on a flush can hang ----

  lemma {:induction false} CutCount(docs: seq<Doc>)
    ensures |Cut(docs)| == (|docs| + BATCH_MAX - 1) / BATCH_MAX
    decreases |docs|
  {
    if |docs| > BATCH_MAX {
      CutCount(docs[BATCH_MAX..]);
    }
  }

  lemma {:induction false} ShortChunks(chunks: Chunks)
    requires NonemptyChunks(chunks) && !AnyLong(chunks)
    ensures |Flatten(chunks)| == |chunks|
  {
    if chunks != [] {
      assert chunks[0] in chunks && !Long(chunks[0]);
      assert forall chunk | chunk in chunks[1..] :: chunk in chunks;
      ShortChunks(chunks[1..]);
    }
  }

  predicate OnePartition(c: Container, docs: seq<Doc>, pk: string) {
    forall d | d in docs :: c.Pk(d) == pk
  }

  lemma OneGroup(c: Container, docs: seq<Doc>, order: seq<string>, groups: map<string, seq<Doc>>, pk: string)
    requires Grouped(c, docs, order, groups) && OnePartition(c, docs, pk) && docs != []
    ensures ChunksOf(order, groups) == Cut(docs)
  {
    c.InPartitionAll(docs, pk);
    assert pk in order && groups[pk] == docs;
    forall i | 0 <= i < |order| ensures order[i] == pk {
      assert c.InPartition(docs, order[i]) != [];
    }
    assert pk in order;
    var last := |order| - 1;
    assert order[last] == order[0];
    assert order[1..] == [];
    assert ChunksOf(order[1..], groups) == [];
  }

  /** When all that is buffered lies in one partition, a flush can hang exactly from 2401 documents on; when no two
      lie in one, exactly from 25 on. */
  lemma HangsFromHowMany(c: Container, docs: seq<Doc>, order: seq<string>, groups: map<string, seq<Doc>>,
                         rest: Chunks, orphans: seq<Task>, free: int, store0: Store)
    requires Grouped(c, docs, order, groups) && Orphans(rest, orphans, free)
    ensures var chunks := ChunksOf(order, groups);
            var hangs := CanHang(c, chunks + rest, Begin(chunks, orphans, free, store0));
            && ((forall d, e | d in docs && e in docs :: SamePartition(c, d.fields, e.fields)) ==>
                  (hangs <==> |docs| > 2400))
            && ((forall i, j | 0 <= i < j < |docs| :: !SamePartition(c, docs[i].fields, docs[j].fields)) ==>
                  (hangs <==> |docs| >= 25))
  {
    var chunks := ChunksOf(order, groups);
    ChunkSizes(order, groups);
    assert forall chunk | chunk in chunks :: chunk != [];
    HangsExactlyFrom25Chunks(c, chunks, rest, orphans, free, store0);
    ChunksArePermutation(c, docs, order, groups);
    assert |multiset(Flatten(chunks))| == |multiset(docs)| == |docs| == |Flatten(chunks)|;
    if forall i, j | 0 <= i < j < |docs| :: !SamePartition(c, docs[i].fields, docs[j].fields) {
      LongExactly(c, docs, order, groups);
      ShortChunks(chunks);
    }
    if docs != [] && forall d, e | d in docs && e in docs :: SamePartition(c, d.fields, e.fields) {
      forall d | d in docs ensures c.Pk(d) == c.Pk(docs[0]) {
        SamePartitionByKey(c, d, docs[0]);
      }
      OneGroup(c, docs, order, groups, c.Pk(docs[0]));
      CutCount(docs);
    }
  }

  // ---- functions/utils/cosmos_writer.py ----

  function Tag(bodies: seq<map<string, string>>): seq<Doc> {
    seq(|bodies|, i requires 0 <= i < |bodies| => Doc(i, bodies[i]))
  }

  /** The documents whose flag is set, in order. */
  function Pick(docs: seq<Doc>, flags: seq<bool>): seq<Doc>
    requires |docs| == |flags|
    decreases |docs|
  {
    if docs == [] then []
    else Pick(docs[..|docs| - 1], flags[..|docs| - 1]) +
         (if flags[|docs| - 1] then [docs[|docs| - 1]] else [])
  }

  lemma {:induction false} PickAppend(a: seq<Doc>, fa: seq<bool>, b: seq<Doc>, fb: seq<bool>)
    requires |a| == |fa| && |b| == |fb|
    ensures Pick(a + b, fa + fb) == Pick(a, fa) + Pick(b, fb)
    decreases |b|
  {
    if b == [] {
      assert a + b == a && fa + fb == fa;
    } else {
      var n := |b| - 1;
      assert (a + b)[..|a + b| - 1] == a + b[..n] && (fa + fb)[..|a + b| - 1] == fa + fb[..n];
      PickAppend(a, fa, b[..n], fb[..n]);
    }
  }

  lemma {:induction false} PickMembers(docs: seq<Doc>, flags: seq<bool>, k: nat)
    requires |docs| == |flags| && k < |docs| && DistinctPositions(docs)
    ensures docs[k].pos in Positions(Pick(docs, flags)) <==> flags[k]
    ensures forall d | d in Pick(docs, flags) :: d in docs
    decreases |docs|
  {
    var n := |docs| - 1;
    if n > 0 {
      PickMembers(docs[..n], flags[..n], if k < n then k else 0);
      if k == n {
        forall d | d in Pick(docs[..n], flags[..n]) ensures d.pos != docs[n].pos {
          var m :| 0 <= m < n && docs[..n][m] == d;
          assert docs[m] == d;
        }
      }
    }
  }

  lemma {:induction false} PickIsSelect(docs: seq<Doc>, flags: seq<bool>, ok: set<nat>)
    requires |docs| == |flags|
    requires forall k | 0 <= k < |docs| :: flags[k] <==> docs[k].pos in ok
    ensures Pick(docs, flags) == Select(docs, ok)
    decreases |docs|
  {
    if docs != [] {
      PickIsSelect(docs[..|docs| - 1], flags[..|docs| - 1], ok);
    }
  }

  /** Which documents of a batch get written: all if the batch goes through, else those accepted singly. */
  function Flags(batchOk: bool, chunk: seq<Doc>, docOk: nat -> bool): (r: seq<bool>)
    ensures |r| == |chunk|
  {
    seq(|chunk|, j requires 0 <= j < |chunk| => batchOk || docOk(chunk[j].pos))
  }

  function AllFlags(chunks: Chunks, batchOk: nat -> bool, docOk: nat -> bool): (r: seq<bool>)
    ensures |r| == |Flatten(chunks)|
  {
    if chunks == [] then []
    else
      var n := |chunks| - 1;
      assert chunks == chunks[..n] + [chunks[n]];
      FlattenAppend(chunks[..n], [chunks[n]]);
      assert [chunks[n]][1..] == [];
      AllFlags(chunks[..n], batchOk, docOk) + Flags(batchOk(n), chunks[n], docOk)
  }

  lemma AllFlagsSnoc(done: Chunks, chunk: seq<Doc>, batchOk: nat -> bool, docOk: nat -> bool)
    ensures Flatten(done + [chunk]) == Flatten(done) + chunk
    ensures AllFlags(done + [chunk], batchOk, docOk) ==
            AllFlags(done, batchOk, docOk) + Flags(batchOk(|done|), chunk, docOk)
  {
    FlattenAppend(done, [chunk]);
    assert [chunk][1..] == [];
    assert (done + [chunk])[..|done|] == done;
  }

  function Writes(chunks: Chunks, batchOk: nat -> bool, docOk: nat -> bool): seq<Doc> {
    Pick(Flatten(chunks), AllFlags(chunks, batchOk, docOk))
  }

  /** One batch of `_batch_upsert`: the transactional call, or else the documents one by one. */
  method UpsertChunk(layout: Container, target: CosmosContainer, chunk: seq<Doc>, batchOk: bool, docOk: nat -> bool)
    returns (n: nat)
    modifies target
    ensures target.items == layout.UpsertAll(old(target.items), Pick(chunk, Flags(batchOk, chunk, docOk)))
    ensures n == |Pick(chunk, Flags(batchOk, chunk, docOk))|
  {
    ghost var flags := Flags(batchOk, chunk, docOk);
    ghost var store0 := target.items;
    if batchOk {
      target.items := layout.UpsertAll(target.items, chunk);
      n := |chunk|;
      PickEverything(chunk, flags);
    } else {
      n := 0;
      for k := 0 to |chunk|
        invariant target.items == layout.UpsertAll(store0, Pick(chunk[..k], flags[..k]))
        invariant n == |Pick(chunk[..k], flags[..k])|
      {
        var d := chunk[k];
        ghost var before := Pick(chunk[..k], flags[..k]);
        layout.UpsertAllAppend(store0, before, [d]);
        assert [d][1..] == [];
        assert layout.UpsertAll(store0, before + [d]) == layout.Upsert(target.items, d);
        assert chunk[..k + 1][..k] == chunk[..k] && flags[..k + 1][..k] == flags[..k];
        assert Pick(chunk[..k + 1], flags[..k + 1]) == before + if docOk(d.pos) then [d] else [];
        assert before + [] == before;
        if docOk(d.pos) {
          target.items := layout.Upsert(target.items, d);
          n := n + 1;
        }
      }
      assert chunk[..|chunk|] == chunk && flags[..|chunk|] == flags;
    }
  }

  lemma {:induction false} PickEverything(docs: seq<Doc>, flags: seq<bool>)
    requires |docs| == |flags| && forall k | 0 <= k < |flags| :: flags[k]
    ensures Pick(docs, flags) == docs
    decreases |docs|
  {
    if docs != [] {
      PickEverything(docs[..|docs| - 1], flags[..|docs| - 1]);
    }
  }

  method GroupItems(layout: Container, bodies: seq<map<string, string>>)
    returns (order: seq<string>, groups: map<string, seq<Doc>>)
    ensures Grouped(layout, Tag(bodies), order, groups)
  {
    order, groups := [], map[];
    ghost var items := Tag(bodies);
    for i := 0 to |bodies|
      invariant Grouped(layout, items[..i], order, groups)
    {
      var d := Doc(i, bodies[i]);
      order, groups := AppendTo(layout, items[..i], order, groups, d);
      assert items[..i + 1] == items[..i] + [d];
    }
    assert items[..|bodies|] == items;
  }

  /** The chunk loop of `_batch_upsert` for one group, `done` being the chunks already written. */
  method WriteGroup(layout: Container, target: CosmosContainer, docs: seq<Doc>, batchOk: nat -> bool,
                    docOk: nat -> bool, firstBatch: nat, total: nat, ghost store0: Store, ghost done: Chunks)
    returns (batchNumber: nat, totalWritten: nat)
    requires firstBatch == |done|
    requires target.items == layout.UpsertAll(store0, Writes(done, batchOk, docOk))
    requires total == |Writes(done, batchOk, docOk)|
    modifies target
    ensures batchNumber == |done + Cut(docs)|
    ensures target.items == layout.UpsertAll(store0, Writes(done + Cut(docs), batchOk, docOk))
    ensures totalWritten == |Writes(done + Cut(docs), batchOk, docOk)|
  {
    batchNumber, totalWritten := firstBatch, total;
    ghost var written := done;
    var i := 0;
    assert docs[0..] == docs;
    while i < |docs|
      invariant i <= |docs|
      invariant written + Cut(docs[i..]) == done + Cut(docs)
      invariant batchNumber == |written|
      invariant target.items == layout.UpsertAll(store0, Writes(written, batchOk, docOk))
      invariant totalWritten == |Writes(written, batchOk, docOk)|
    {
      var end := if i + BATCH_MAX < |docs| then i + BATCH_MAX else |docs|;
      var chunk := docs[i..end];
      ChunkDone(docs, i, end, written);
      WritesSnoc(layout, store0, written, chunk, batchOk, docOk);
      var n := UpsertChunk(layout, target, chunk, batchOk(batchNumber), docOk);
      totalWritten := totalWritten + n;
      batchNumber := batchNumber + 1;
      written := written + [chunk];
      i := end;
    }
    assert docs[i..] == [] && written + [] == written;
  }

  lemma ChunkDone(docs: seq<Doc>, i: nat, end: nat, written: Chunks)
    requires i < |docs| && end == if i + BATCH_MAX < |docs| then i + BATCH_MAX else |docs|
    ensures written + Cut(docs[i..]) == (written + [docs[i..end]]) + Cut(docs[end..])
  {
    CutStep(docs, i, end);
  }

  lemma WritesSnoc(layout: Container, store0: Store, done: Chunks, chunk: seq<Doc>,
                   batchOk: nat -> bool, docOk: nat -> bool)
    ensures var more := Pick(chunk, Flags(batchOk(|done|), chunk, docOk));
            && Writes(done + [chunk], batchOk, docOk) == Writes(done, batchOk, docOk) + more
            && layout.UpsertAll(store0, Writes(done + [chunk], batchOk, docOk)) ==
               layout.UpsertAll(layout.UpsertAll(store0, Writes(done, batchOk, docOk)), more)
  {
    var flags := Flags(batchOk(|done|), chunk, docOk);
    AllFlagsSnoc(done, chunk, batchOk, docOk);
    PickAppend(Flatten(done), AllFlags(done, batchOk, docOk), chunk, flags);
    layout.UpsertAllAppend(store0, Writes(done, batchOk, docOk), Pick(chunk, flags));
  }

  /** The group loop of `_batch_upsert`. */
  method WriteGroups(layout: Container, target: CosmosContainer, order: seq<string>, groups: map<string, seq<Doc>>,
                     batchOk: nat -> bool, docOk: nat -> bool)
    returns (totalWritten: nat)
    requires forall pk | pk in order :: pk in groups
    modifies target
    ensures target.items == layout.UpsertAll(old(target.items), Writes(ChunksOf(order, groups), batchOk, docOk))
    ensures totalWritten == |Writes(ChunksOf(order, groups), batchOk, docOk)|
  {
    ghost var store0 := target.items;
    ghost var done: Chunks := [];
    totalWritten := 0;
    var batchNumber := 0;
    assert order[0..] == order && Writes([], batchOk, docOk) == [];
    for g := 0 to |order|
      invariant done + ChunksOf(order[g..], groups) == ChunksOf(order, groups)
      invariant batchNumber == |done|
      invariant target.items == layout.UpsertAll(store0, Writes(done, batchOk, docOk))
      invariant totalWritten == |Writes(done, batchOk, docOk)|
    {
      GroupDone(order, groups, g, done);
      batchNumber, totalWritten :=
        WriteGroup(layout, target, groups[order[g]], batchOk, docOk, batchNumber, totalWritten, store0, done);
      done := done + Cut(groups[order[g]]);
    }
    assert order[|order|..] == [] && done + [] == done;
  }

  lemma GroupDone(order: seq<string>, groups: map<string, seq<Doc>>, g: nat, done: Chunks)
    requires g < |order| && forall pk | pk in order :: pk in groups
    ensures done + ChunksOf(order[g..], groups) ==
            (done + Cut(groups[order[g]])) + ChunksOf(order[g + 1..], groups)
  {
    assert order[g..][1..] == order[g + 1..];
  }

  /** Body `i` is the last accepted one that names this partition and id. */
  predicate LastAccepted(c: Container, bodies: seq<map<string, string>>, ok: set<nat>, i: nat, pk: string, id: string) {
    && i < |bodies| && i in ok && c.Names(bodies[i], pk, id)
    && forall j | i < j < |bodies| && j in ok :: !c.Names(bodies[j], pk, id)
  }

  predicate NoneAccepted(c: Container, bodies: seq<map<string, string>>, ok: set<nat>, pk: string, id: string) {
    forall j | 0 <= j < |bodies| && j in ok :: !c.Names(bodies[j], pk, id)
  }

  lemma LastUnderSnoc(c: Container, docs: seq<Doc>, d: Doc, k: Key)
    ensures c.LastUnder(docs + [d], k) == if c.KeyOf(d) == k then Some(d) else c.LastUnder(docs, k)
  {
    assert (docs + [d])[..|docs|] == docs;
  }

  lemma SelectSnoc(docs: seq<Doc>, d: Doc, ok: set<nat>)
    ensures Select(docs + [d], ok) == Select(docs, ok) + if d.pos in ok then [d] else []
  {
    assert (docs + [d])[..|docs|] == docs;
  }

  lemma {:induction false} LastSelected(c: Container, docs: seq<Doc>, ok: set<nat>, i: nat, k: Key)
    requires i < |docs| && docs[i].pos in ok && c.KeyOf(docs[i]) == k
    requires forall j | i < j < |docs| && docs[j].pos in ok :: c.KeyOf(docs[j]) != k
    ensures c.LastUnder(Select(docs, ok), k) == Some(docs[i])
    decreases |docs|
  {
    var n := |docs| - 1;
    var init, last := docs[..n], docs[n];
    assert docs == init + [last];
    SelectSnoc(init, last, ok);
    LastUnderSnoc(c, Select(init, ok), last, k);
    if i < n {
      LastSelected(c, init, ok, i, k);
      assert Select(init, ok) + [] == Select(init, ok);
    }
  }

  /** `s'` is `s` with the accepted bodies written over it: the last accepted one to name a partition and an id stands
      there with its own fields, and where none does, all is as before. */
  ghost predicate AcceptedStand(c: Container, bodies: seq<map<string, string>>, ok: set<nat>, s: Store, s': Store) {
    && (forall i: nat, pk, id | LastAccepted(c, bodies, ok, i, pk, id) :: c.Holds(s', pk, id, bodies[i]))
    && (forall pk, id | NoneAccepted(c, bodies, ok, pk, id) ::
          (Key(pk, id) in s' <==> Key(pk, id) in s) && (Key(pk, id) in s' ==> s'[Key(pk, id)] == s[Key(pk, id)]))
  }

  lemma UpsertAccepted(c: Container, bodies: seq<map<string, string>>, ok: set<nat>, s: Store)
    ensures AcceptedStand(c, bodies, ok, s, c.UpsertAll(s, Select(Tag(bodies), ok)))
  {
    var docs := Select(Tag(bodies), ok);
    var s' := c.UpsertAll(s, docs);
    forall i: nat, pk, id | LastAccepted(c, bodies, ok, i, pk, id) ensures c.Holds(s', pk, id, bodies[i]) {
      forall j | i <= j < |bodies| ensures c.KeyOf(Tag(bodies)[j]) == Key(pk, id) <==> c.Names(bodies[j], pk, id) {
        c.NamesItsKey(Tag(bodies)[j], pk, id);
      }
      LastSelected(c, Tag(bodies), ok, i, Key(pk, id));
      c.UpsertAllLookup(s, docs, Key(pk, id));
    }
    forall pk, id | NoneAccepted(c, bodies, ok, pk, id)
      ensures Key(pk, id) in s' <==> Key(pk, id) in s
      ensures Key(pk, id) in s' ==> s'[Key(pk, id)] == s[Key(pk, id)]
    {
      var k := Key(pk, id);
      c.LastUnderIsMember(docs, k);
      if c.LastUnder(docs, k).Some? {
        c.NamesItsKey(c.LastUnder(docs, k).value, pk, id);
      }
      c.UpsertAllLookup(s, docs, k);
    }
  }

  /** With the partition field and the id in all bodies: no later accepted body agrees with body `i` on both. */
  predicate LastOfItsFields(c: Container, bodies: seq<map<string, string>>, ok: set<nat>, i: nat) {
    && i < |bodies| && i in ok
    && (forall j | i <= j < |bodies| && j in ok :: c.pkField in bodies[j] && "id" in bodies[j])
    && forall j | i < j < |bodies| && j in ok ::
         bodies[j][c.pkField] != bodies[i][c.pkField] || bodies[j]["id"] != bodies[i]["id"]
  }

  lemma LastStands(c: Container, bodies: seq<map<string, string>>, ok: set<nat>, s: Store, s': Store, i: nat)
    requires AcceptedStand(c, bodies, ok, s, s') && LastOfItsFields(c, bodies, ok, i)
    ensures c.Holds(s', bodies[i][c.pkField], bodies[i]["id"], bodies[i])
  {
    assert LastAccepted(c, bodies, ok, i, bodies[i][c.pkField], bodies[i]["id"]);
  }

  /** `_batch_upsert`, with `batchOk` and `docOk` saying which batches (by number) and which single
      upserts (by position in `bodies`) the container accepts. The container ends up as if exactly the
      documents accepted had been upserted one by one in input order, even when keys repeat: the last accepted
      body with a given partition field and id stands there with its own fields. */
  method BatchUpsert(layout: Container, target: CosmosContainer, bodies: seq<map<string, string>>,
                     batchOk: nat -> bool, docOk: nat -> bool)
    returns (totalWritten: nat, ghost chunks: Chunks, ghost ok: set<nat>)
    modifies target
    ensures multiset(Flatten(chunks)) == multiset(Tag(bodies))
    ensures forall chunk | chunk in chunks :: 0 < |chunk| <= BATCH_MAX
    ensures forall b: nat, j: nat | b < |chunks| && j < |chunks[b]| ::
              chunks[b][j].pos in ok <==> batchOk(b) || docOk(chunks[b][j].pos)
    ensures target.items == layout.UpsertAll(old(target.items), Select(Tag(bodies), ok))
    ensures totalWritten == |Select(Tag(bodies), ok)|
    ensures AcceptedStand(layout, bodies, ok, old(target.items), target.items)
    ensures forall i: nat | LastOfItsFields(layout, bodies, ok, i) ::
              Key(bodies[i][layout.pkField], bodies[i]["id"]) in target.items &&
              target.items[Key(bodies[i][layout.pkField], bodies[i]["id"])] == bodies[i]
    ensures OnePartitionEach(layout, chunks)
  {
    var order, groups := GroupItems(layout, bodies);
    chunks := ChunksOf(order, groups);
    ok := Positions(Writes(chunks, batchOk, docOk));
    BatchUpsertOutcome(layout, Tag(bodies), order, groups, AllFlags(chunks, batchOk, docOk), target.items);
    forall b: nat, j: nat | b < |chunks| && j < |chunks[b]|
      ensures chunks[b][j].pos in ok <==> batchOk(b) || docOk(chunks[b][j].pos)
    {
      var k := FlagAt(chunks, batchOk, docOk, b, j);
    }
    UpsertAccepted(layout, bodies, ok, target.items);
    ghost var done := layout.UpsertAll(target.items, Select(Tag(bodies), ok));
    forall i: nat | LastOfItsFields(layout, bodies, ok, i)
      ensures layout.Holds(done, bodies[i][layout.pkField], bodies[i]["id"], bodies[i])
    {
      LastStands(layout, bodies, ok, target.items, done, i);
    }
    ChunksArePermutation(layout, Tag(bodies), order, groups);
    BatchesByPartition(layout, Tag(bodies), order, groups);
    ChunkSizes(order, groups);
    totalWritten := WriteGroups(layout, target, order, groups, batchOk, docOk);
  }

  lemma {:induction false} FlagAt(chunks: Chunks, batchOk: nat -> bool, docOk: nat -> bool, b: nat, j: nat)
    returns (k: nat)
    requires b < |chunks| && j < |chunks[b]|
    ensures k < |Flatten(chunks)| && Flatten(chunks)[k] == chunks[b][j]
    ensures AllFlags(chunks, batchOk, docOk)[k] <==> batchOk(b) || docOk(chunks[b][j].pos)
    decreases |chunks|
  {
    var n := |chunks| - 1;
    assert chunks == chunks[..n] + [chunks[n]];
    AllFlagsSnoc(chunks[..n], chunks[n], batchOk, docOk);
    if b == n {
      k := |Flatten(chunks[..n])| + j;
    } else {
      k := FlagAt(chunks[..n], batchOk, docOk, b, j);
    }
  }

  /** Writing group by group leaves the container as writing in input order would. */
  lemma BatchUpsertOutcome(c: Container, items: seq<Doc>, order: seq<string>, groups: map<string, seq<Doc>>,
                           flags: seq<bool>, store0: Store)
    requires Grouped(c, items, order, groups) && DistinctPositions(items)
    requires |flags| == |Flatten(ChunksOf(order, groups))|
    ensures var flat := Flatten(ChunksOf(order, groups));
            var ok := Positions(Pick(flat, flags));
            && c.UpsertAll(store0, Pick(flat, flags)) == c.UpsertAll(store0, Select(items, ok))
            && |Pick(flat, flags)| == |Select(items, ok)|
            && forall k | 0 <= k < |flat| :: flags[k] <==> flat[k].pos in ok
  {
    var flat := Flatten(ChunksOf(order, groups));
    var ok := Positions(Pick(flat, flags));
    ChunksArePermutation(c, items, order, groups);
    PermutationKeepsDistinct(c, items, flat);
    forall k | 0 <= k < |flat| ensures flags[k] <==> flat[k].pos in ok {
      PickMembers(flat, flags, k);
    }
    PickIsSelect(flat, flags, ok);
    SelectMultiset(items, flat, ok);
    ChunksKeepPartitions(c, items, order, groups);
    SelectedPartitions(c, flat, items, ok);
    c.PartitionsCommute(store0, Select(flat, ok), Select(items, ok));
  }

  lemma SelectedPartitions(c: Container, a: seq<Doc>, b: seq<Doc>, ok: set<nat>)
    requires forall pk :: c.InPartition(a, pk) == c.InPartition(b, pk)
    ensures forall pk :: c.InPartition(Select(a, ok), pk) == c.InPartition(Select(b, ok), pk)
  {
    forall pk ensures c.InPartition(Select(a, ok), pk) == c.InPartition(Select(b, ok), pk) {
      SelectInPartition(c, a, ok, pk);
      SelectInPartition(c, b, ok, pk);
    }
  }
}
