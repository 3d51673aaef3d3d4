/** What a flush leaves in the container and what it returns, compared with upserting one by one. */
module FlushResults {
  import opened Sequences
  import opened Documents
  import opened FlushProtocol
  import opened FlushLiveness
  import opened FlushSchedules

  function Positions(docs: seq<Doc>): set<nat> {
    set d | d in docs :: d.pos
  }

  /** One-by-one upsert, in buffered order, of exactly the documents acknowledged in `s`. */
  function Sequential(c: Container, chunks: Chunks, store0: Store, s: State): Store {
    c.UpsertAll(store0, Select(Flatten(chunks), Positions(s.log)))
  }

  lemma LogWithin(chunks: Chunks, s: State)
    requires LogOk(chunks, s)
    ensures forall d | d in s.log :: d in Flatten(chunks)
  {
    forall d | d in s.log ensures d in Flatten(chunks) {
      var i: nat, j: nat :| HasSingle(s, i, j, Stored) && chunks[i][j] == d;
      assert d in chunks[i];
      FlattenMember(chunks, d);
    }
  }

  lemma SelectedAreLogged(chunks: Chunks, s: State, d: Doc)
    requires LogOk(chunks, s) && DistinctPositions(Flatten(chunks))
    ensures d in s.log <==> d in Select(Flatten(chunks), Positions(s.log))
  {
    LogWithin(chunks, s);
    if d in Select(Flatten(chunks), Positions(s.log)) {
      var e :| e in s.log && e.pos == d.pos;
      assert e in Flatten(chunks);
    }
  }

  lemma StoreIsSequential(c: Container, chunks: Chunks, store0: Store, s: State)
    requires Inv(c, chunks, store0, s) && LogOk(chunks, s)
    requires DistinctPositions(Flatten(chunks)) && c.SameKeySameFields(Flatten(chunks))
    ensures s.store == Sequential(c, chunks, store0, s)
  {
    var sel := Select(Flatten(chunks), Positions(s.log));
    forall d ensures d in s.log <==> d in sel {
      SelectedAreLogged(chunks, s, d);
    }
    LogWithin(chunks, s);
    c.OrderIrrelevant(store0, s.log, sel);
  }

  // ---- When the order does not matter ----

  /** The document at the place can still be stored: its chunk has not started, or has it waiting, or is an earlier
      flush's and left it open. */
  predicate CanLand(s: State, i: nat, j: nat) {
    && i < |s.tasks| && j < |s.tasks[i].singles|
    && match s.tasks[i].phase
       case Pending => true
       case InFallback => s.tasks[i].singles[j].Queued?
       case Raised => s.tasks[i].singles[j].Queued? || s.tasks[i].singles[j].Sending?
       case _ => false
  }

  ghost predicate Landable(chunks: Chunks, s: State, d: Doc)
    requires WellSized(chunks, s)
  {
    exists i: nat, j: nat :: CanLand(s, i, j) && chunks[i][j] == d
  }

  /** Two documents that can still be stored share a key and differ. */
  ghost predicate Conflict(c: Container, chunks: Chunks, s: State, d: Doc, e: Doc)
    requires WellSized(chunks, s)
  {
    Landable(chunks, s, d) && Landable(chunks, s, e) && c.KeyOf(d) == c.KeyOf(e) && d.fields != e.fields
  }

  lemma LandPlace(c: Container, chunks: Chunks, s: State, i: nat, j: nat) returns (steps: seq<Step>)
    requires WellSized(chunks, s) && CanLand(s, i, j) && s.free > 1
    ensures Legal(c, chunks, s, steps)
    ensures var end := Exec(c, chunks, s, steps);
            && end.log == s.log + [chunks[i][j]] && end.free >= s.free - 1
            && Sum(BusyFlag, end.tasks) <= Sum(BusyFlag, s.tasks) + 1
            && forall k: nat, l: nat | (k != i || l != j) && CanLand(s, k, l) :: CanLand(end, k, l)
  {
    if s.tasks[i].phase.Raised? {
      steps := LandSingle(c, chunks, s, i, j);
      OneMoreBusy(s, i, SetSingle(s, i, j, Stored).tasks[i]);
    } else {
      steps := StoreOne(c, chunks, s, i, j);
      var end := Exec(c, chunks, s, steps);
      forall k: nat, l: nat | (k != i || l != j) && CanLand(s, k, l) ensures CanLand(end, k, l) {
        if k == i {
          assert HasSingle(end, i, l, Queued);
        } else {
          assert end.tasks[k] == s.tasks[k];
        }
      }
    }
  }

  /** Beside whatever an earlier flush left running, any two documents that can be stored can be stored in either
      order and everything else can fail: all ends with exactly these two stored. */
  lemma WriteTwo(c: Container, chunks: Chunks, store0: Store, s: State, i: nat, j: nat, k: nat, l: nat)
    returns (steps: seq<Step>)
    requires Inv(c, chunks, store0, s) && LogOk(chunks, s) && Early(s)
    requires CanLand(s, i, j) && CanLand(s, k, l) && (i != k || j != l)
    ensures Ends(c, chunks, s, steps)
    ensures Exec(c, chunks, s, steps).log == s.log + [chunks[i][j]] + [chunks[k][l]]
  {
    var room := MakeRoom(c, chunks, store0, s, i, j, k, l);
    var s1 := Exec(c, chunks, s, room);
    NothingBusy(s1);
    var first := LandPlace(c, chunks, s1, i, j);
    var s2 := Exec(c, chunks, s1, first);
    ExecAppend(c, chunks, s, room, first);
    var second := LandPlace(c, chunks, s2, k, l);
    var s3 := Exec(c, chunks, s2, second);
    ExecAppend(c, chunks, s, room + first, second);
    RunKeepsInv(c, chunks, store0, s, room + first + second);
    var rest := CanEndQuietly(c, chunks, store0, s3);
    ExecAppend(c, chunks, s, room + first + second, rest);
    steps := room + first + second + rest;
  }

  /** A run that ends everything, the upserts of earlier flushes included. */
  predicate Ends(c: Container, chunks: Chunks, s: State, steps: seq<Step>) {
    WellSized(chunks, s) && Legal(c, chunks, s, steps) && AllSettled(Exec(c, chunks, s, steps))
  }

  /** Two runs that end everything with the same documents stored leave two stores. */
  ghost predicate Differ(c: Container, chunks: Chunks, s: State, a: seq<Step>, b: seq<Step>) {
    && Ends(c, chunks, s, a) && Ends(c, chunks, s, b)
    && multiset(Exec(c, chunks, s, a).log) == multiset(Exec(c, chunks, s, b).log)
    && Exec(c, chunks, s, a).store != Exec(c, chunks, s, b).store
  }

  lemma LastOfTwo(c: Container, store0: Store, d: Doc, e: Doc)
    ensures c.KeyOf(e) in c.UpsertAll(store0, [d, e])
    ensures c.UpsertAll(store0, [d, e])[c.KeyOf(e)] == e.fields
  {
    assert [d, e] == [d] + [e] && [e][1..] == [] && [d][1..] == [];
    c.UpsertAllAppend(store0, [d], [e]);
    assert c.UpsertAll(c.UpsertAll(store0, [d]), [e]) == c.Upsert(c.UpsertAll(store0, [d]), e);
  }

  lemma PlaceOf(chunks: Chunks, d: Doc) returns (i: nat, j: nat)
    requires d in Flatten(chunks)
    ensures i < |chunks| && j < |chunks[i]| && chunks[i][j] == d
  {
    FlattenMember(chunks, d);
    i :| i < |chunks| && d in chunks[i];
    j :| j < |chunks[i]| && chunks[i][j] == d;
  }

  /** What is stored in the end and was not in the beginning could be stored then. */
  lemma StoredCouldLand(c: Container, chunks: Chunks, s: State, steps: seq<Step>, i: nat, j: nat)
    requires WellSized(chunks, s) && Legal(c, chunks, s, steps) && Early(s)
    requires HasSingle(Exec(c, chunks, s, steps), i, j, Stored) && !HasSingle(s, i, j, Stored)
    ensures CanLand(s, i, j)
  {
    assert s.tasks[i] in s.tasks;
    if !CanLand(s, i, j) {
      RaisedKeeps(c, chunks, s, steps, i, j);
    }
  }

  lemma NothingStored(chunks: Chunks, orphans: seq<Task>, free: int, store0: Store, i: nat, j: nat)
    requires forall t | t in orphans :: Orphan(t)
    ensures !HasSingle(Begin(chunks, orphans, free, store0), i, j, Stored)
  {
    var s := Begin(chunks, orphans, free, store0);
    if |chunks| <= i < |s.tasks| && j < |s.tasks[i].singles| {
      assert s.tasks[i] == orphans[i - |chunks|] && orphans[i - |chunks|] in orphans;
      assert s.tasks[i].singles[j] in s.tasks[i].singles;
    }
  }

  lemma StoredWasLandable(c: Container, chunks: Chunks, rest: Chunks, orphans: seq<Task>, free: int, store0: Store,
                          steps: seq<Step>, d: Doc)
    requires Orphans(rest, orphans, free)
    requires Legal(c, chunks + rest, Begin(chunks, orphans, free, store0), steps)
    requires d in Exec(c, chunks + rest, Begin(chunks, orphans, free, store0), steps).log
    ensures Landable(chunks + rest, Begin(chunks, orphans, free, store0), d)
  {
    var all, s := chunks + rest, Begin(chunks, orphans, free, store0);
    BeginInv(c, chunks, rest, orphans, free, store0);
    EarlyAtFirst(chunks, orphans, free, store0);
    RunKeepsInv(c, all, store0, s, steps);
    var i: nat, j: nat :| HasSingle(Exec(c, all, s, steps), i, j, Stored) && all[i][j] == d;
    NothingStored(chunks, orphans, free, store0, i, j);
    StoredCouldLand(c, all, s, steps, i, j);
  }

  lemma LogAgrees(c: Container, chunks: Chunks, rest: Chunks, orphans: seq<Task>, free: int, store0: Store,
                  steps: seq<Step>)
    requires Orphans(rest, orphans, free)
    requires Legal(c, chunks + rest, Begin(chunks, orphans, free, store0), steps)
    requires forall d, e :: !Conflict(c, chunks + rest, Begin(chunks, orphans, free, store0), d, e)
    ensures c.SameKeySameFields(Exec(c, chunks + rest, Begin(chunks, orphans, free, store0), steps).log)
  {
    var log := Exec(c, chunks + rest, Begin(chunks, orphans, free, store0), steps).log;
    forall k, l | 0 <= k < |log| && 0 <= l < |log| && c.KeyOf(log[k]) == c.KeyOf(log[l])
      ensures log[k].fields == log[l].fields
    {
      StoredWasLandable(c, chunks, rest, orphans, free, store0, steps, log[k]);
      StoredWasLandable(c, chunks, rest, orphans, free, store0, steps, log[l]);
      assert !Conflict(c, chunks + rest, Begin(chunks, orphans, free, store0), log[k], log[l]);
    }
  }

  lemma SameMembers(x: seq<Doc>, y: seq<Doc>)
    requires multiset(x) == multiset(y)
    ensures forall d :: d in x <==> d in y
  {
    forall d ensures d in x <==> d in y {
      assert d in x <==> d in multiset(x);
      assert d in y <==> d in multiset(y);
    }
  }

  /** Without a conflict, the documents stored decide the store. */
  lemma SameStore(c: Container, chunks: Chunks, store0: Store, s: State, a: seq<Step>, b: seq<Step>)
    requires Inv(c, chunks, store0, s) && LogOk(chunks, s) && Legal(c, chunks, s, a) && Legal(c, chunks, s, b)
    requires c.SameKeySameFields(Exec(c, chunks, s, a).log)
    requires multiset(Exec(c, chunks, s, a).log) == multiset(Exec(c, chunks, s, b).log)
    ensures Exec(c, chunks, s, a).store == Exec(c, chunks, s, b).store
  {
    RunKeepsInv(c, chunks, store0, s, a);
    RunKeepsInv(c, chunks, store0, s, b);
    SameMembers(Exec(c, chunks, s, a).log, Exec(c, chunks, s, b).log);
    c.OrderIrrelevant(store0, Exec(c, chunks, s, a).log, Exec(c, chunks, s, b).log);
  }

  /** Storing two conflicting documents in both orders leaves two stores. */
  lemma ConflictShows(c: Container, chunks: Chunks, rest: Chunks, orphans: seq<Task>, free: int, store0: Store,
                      d: Doc, e: Doc) returns (there: seq<Step>, back: seq<Step>)
    requires Orphans(rest, orphans, free)
    requires Conflict(c, chunks + rest, Begin(chunks, orphans, free, store0), d, e)
    ensures Differ(c, chunks + rest, Begin(chunks, orphans, free, store0), there, back)
  {
    var all, s := chunks + rest, Begin(chunks, orphans, free, store0);
    BeginInv(c, chunks, rest, orphans, free, store0);
    EarlyAtFirst(chunks, orphans, free, store0);
    var i: nat, j: nat :| CanLand(s, i, j) && all[i][j] == d;
    var k: nat, l: nat :| CanLand(s, k, l) && all[k][l] == e;
    there := WriteTwo(c, all, store0, s, i, j, k, l);
    back := WriteTwo(c, all, store0, s, k, l, i, j);
    TwoStores(c, all, store0, s, there, back, d, e);
  }

  lemma EarlyAtFirst(chunks: Chunks, orphans: seq<Task>, free: int, store0: Store)
    requires forall t | t in orphans :: t.phase.Raised?
    ensures Early(Begin(chunks, orphans, free, store0))
  {
  }

  lemma TwoStores(c: Container, chunks: Chunks, store0: Store, s: State, there: seq<Step>, back: seq<Step>, d: Doc,
                  e: Doc)
    requires Inv(c, chunks, store0, s) && LogOk(chunks, s) && s.log == []
    requires Ends(c, chunks, s, there) && Ends(c, chunks, s, back)
    requires Exec(c, chunks, s, there).log == s.log + [d] + [e] && Exec(c, chunks, s, back).log == s.log + [e] + [d]
    requires c.KeyOf(d) == c.KeyOf(e) && d.fields != e.fields
    ensures Differ(c, chunks, s, there, back)
  {
    RunKeepsInv(c, chunks, store0, s, there);
    RunKeepsInv(c, chunks, store0, s, back);
    LastOfTwo(c, store0, d, e);
    LastOfTwo(c, store0, e, d);
    assert s.log + [d] + [e] == [d, e] && s.log + [e] + [d] == [e, d];
    assert multiset([d, e]) == multiset([e, d]);
  }

  /** Beside whatever an earlier flush left running, the documents stored decide the store, whatever the schedule, if
      and only if no two documents that can be stored, buffered or left open, share a key and differ. */
  lemma OrderFreeExactlyWithoutConflicts(c: Container, chunks: Chunks, rest: Chunks, orphans: seq<Task>, free: int,
                                         store0: Store)
    requires Orphans(rest, orphans, free)
    ensures (forall d, e :: !Conflict(c, chunks + rest, Begin(chunks, orphans, free, store0), d, e)) <==>
            (forall a, b :: !Differ(c, chunks + rest, Begin(chunks, orphans, free, store0), a, b))
  {
    var all, s := chunks + rest, Begin(chunks, orphans, free, store0);
    if forall d, e :: !Conflict(c, all, s, d, e) {
      forall a, b ensures !Differ(c, all, s, a, b) {
        if Differ(c, all, s, a, b) {
          BeginInv(c, chunks, rest, orphans, free, store0);
          LogAgrees(c, chunks, rest, orphans, free, store0, a);
          SameStore(c, all, store0, s, a, b);
        }
      }
    } else {
      var d, e :| Conflict(c, all, s, d, e);
      var there, back := ConflictShows(c, chunks, rest, orphans, free, store0, d, e);
    }
  }

  // ---- Compared with upserting one by one ----

  /** A run that ends everything with another store than upserting the stored documents one by one in buffered order. */
  ghost predicate Deviates(c: Container, chunks: Chunks, store0: Store, steps: seq<Step>) {
    && Ends(c, chunks, Init(chunks, store0), steps)
    && var end := Exec(c, chunks, Init(chunks, store0), steps);
       end.store != Sequential(c, chunks, store0, end)
  }

  lemma LandableAtFirst(chunks: Chunks, store0: Store, d: Doc)
    requires d in Flatten(chunks)
    ensures Landable(chunks, Init(chunks, store0), d)
  {
    var i, j := PlaceOf(chunks, d);
    assert CanLand(Init(chunks, store0), i, j);
  }

  /** Of two runs that differ with the same documents stored one deviates. */
  lemma OneDeviates(c: Container, chunks: Chunks, store0: Store, a: seq<Step>, b: seq<Step>)
    requires Differ(c, chunks, Init(chunks, store0), a, b)
    ensures Deviates(c, chunks, store0, a) || Deviates(c, chunks, store0, b)
  {
    var x, y := Exec(c, chunks, Init(chunks, store0), a).log, Exec(c, chunks, Init(chunks, store0), b).log;
    SameMembers(x, y);
    assert Positions(x) == Positions(y);
  }

  /** Nothing being left of an earlier flush: every run that ends everything leaves what upserting the stored documents
      one by one in buffered order leaves, exactly when no key is buffered with two different contents. */
  lemma SequentialExactlyWithoutConflicts(c: Container, chunks: Chunks, store0: Store)
    requires DistinctPositions(Flatten(chunks))
    ensures c.SameKeySameFields(Flatten(chunks)) <==> forall steps :: !Deviates(c, chunks, store0, steps)
  {
    if c.SameKeySameFields(Flatten(chunks)) {
      forall steps ensures !Deviates(c, chunks, store0, steps) {
        if Legal(c, chunks, Init(chunks, store0), steps) {
          ReachableInv(c, chunks, store0, steps);
          StoreIsSequential(c, chunks, store0, Exec(c, chunks, Init(chunks, store0), steps));
        }
      }
    } else {
      var flat := Flatten(chunks);
      var k, l :| 0 <= k < |flat| && 0 <= l < |flat| &&
                  c.KeyOf(flat[k]) == c.KeyOf(flat[l]) && flat[k].fields != flat[l].fields;
      LandableAtFirst(chunks, store0, flat[k]);
      LandableAtFirst(chunks, store0, flat[l]);
      BeginFirst(chunks, store0);
      NoOrphans();
      var a, b := ConflictShows(c, chunks, [], [], PERMITS, store0, flat[k], flat[l]);
      OneDeviates(c, chunks, store0, a, b);
    }
  }

  lemma NoOrphans()
    ensures Orphans([], [], PERMITS)
  {
  }

  // ---- The returned number ----

  /** What a chunk's task adds to the number `flush` returns; a raised task adds nothing. */
  function Result(t: Task): int {
    if t.phase.Returned? then t.phase.written else 0
  }

  function Uncounted(t: Task): int {
    if t.phase.Raised? then StoredCount(t) else 0
  }

  lemma {:induction false} ResultsByTask(ts: seq<Task>)
    requires forall t | t in ts :: ShapeOk(t) && (t.phase.Returned? || t.phase.Raised?)
    ensures Sum(Result, ts) == Sum(StoredCount, ts) - Sum(Uncounted, ts)
  {
    if ts != [] {
      assert forall t | t in ts[1..] :: t in ts;
      ResultsByTask(ts[1..]);
    }
  }

  lemma {:induction false} SelectedCount(docs: seq<Doc>, singles: seq<Single>, ok: set<nat>)
    requires |docs| == |singles|
    requires forall j | 0 <= j < |docs| :: singles[j].Stored? <==> docs[j].pos in ok
    ensures |Select(docs, ok)| == Sum(One, singles)
    decreases |docs|
  {
    if docs != [] {
      var n := |docs| - 1;
      SelectedCount(docs[..n], singles[..n], ok);
      assert singles == singles[..n] + [singles[n]];
      SumAppend(One, singles[..n], [singles[n]]);
      assert [singles[n]][1..] == [];
    }
  }

  lemma {:induction false} SelectedTotal(chunks: Chunks, ts: seq<Task>, ok: set<nat>)
    requires |chunks| == |ts| && forall i | 0 <= i < |ts| :: |ts[i].singles| == |chunks[i]|
    requires forall i, j | 0 <= i < |ts| && 0 <= j < |chunks[i]| ::
               ts[i].singles[j].Stored? <==> chunks[i][j].pos in ok
    ensures |Select(Flatten(chunks), ok)| == Sum(StoredCount, ts)
  {
    if chunks != [] {
      SelectedTotal(chunks[1..], ts[1..], ok);
      SelectedCount(chunks[0], ts[0].singles, ok);
      SelectAppend(chunks[0], Flatten(chunks[1..]), ok);
    }
  }

  lemma FirstChunkApart(chunks: Chunks, j: nat, i': nat, j': nat)
    requires DistinctPositions(Flatten(chunks)) && chunks != []
    requires j < |chunks[0]| && 0 < i' < |chunks| && j' < |chunks[i']|
    ensures chunks[0][j].pos != chunks[i'][j'].pos
  {
    var rest := Flatten(chunks[1..]);
    var flat := chunks[0] + rest;
    var d := chunks[i'][j'];
    assert d in chunks[1..][i' - 1];
    FlattenMember(chunks[1..], d);
    var m :| 0 <= m < |rest| && rest[m] == d;
    assert flat == Flatten(chunks) && flat[|chunks[0]| + m] == d && flat[j] == chunks[0][j];
  }

  lemma RestDistinct(chunks: Chunks)
    requires DistinctPositions(Flatten(chunks)) && chunks != []
    ensures DistinctPositions(Flatten(chunks[1..])) && DistinctPositions(chunks[0])
  {
    var rest := Flatten(chunks[1..]);
    var flat := Flatten(chunks);
    forall p, q | 0 <= p < q < |rest| ensures rest[p].pos != rest[q].pos {
      assert rest[p] == flat[|chunks[0]| + p] && rest[q] == flat[|chunks[0]| + q];
    }
    forall p, q | 0 <= p < q < |chunks[0]| ensures chunks[0][p].pos != chunks[0][q].pos {
      assert chunks[0][p] == flat[p] && chunks[0][q] == flat[q];
    }
  }

  /** No two places in the chunks hold the same document. */
  lemma {:induction false} PlacesDiffer(chunks: Chunks, i: nat, j: nat, i': nat, j': nat)
    requires DistinctPositions(Flatten(chunks))
    requires i < |chunks| && j < |chunks[i]| && i' < |chunks| && j' < |chunks[i']|
    requires chunks[i][j].pos == chunks[i'][j'].pos
    ensures i == i' && j == j'
    decreases i + i'
  {
    RestDistinct(chunks);
    if i == 0 && i' > 0 {
      FirstChunkApart(chunks, j, i', j');
    } else if i > 0 && i' == 0 {
      FirstChunkApart(chunks, j', i, j);
    } else if i > 0 && i' > 0 {
      PlacesDiffer(chunks[1..], i - 1, j, i' - 1, j');
    }
  }

  /** When all chunk tasks have ended, the number returned is the number of documents stored meanwhile, less those
      stored by tasks that raised: the same number exactly when no raised task stored any. */
  lemma ReturnedFromLog(c: Container, chunks: Chunks, store0: Store, s: State)
    requires Inv(c, chunks, store0, s) && AllDone(s)
    ensures Sum(Result, s.tasks) == |s.log| - Sum(Uncounted, s.tasks)
    ensures Sum(Uncounted, s.tasks) == 0 <==>
            forall t | t in s.tasks && t.phase.Raised? :: Stored !in t.singles
  {
    ResultsByTask(s.tasks);
    UncountedZero(s.tasks);
  }

  /** In a flush with no other left running, the documents stored meanwhile are buffered ones. */
  lemma ReturnedNumber(c: Container, chunks: Chunks, store0: Store, s: State)
    requires Inv(c, chunks, store0, s) && LogOk(chunks, s) && DistinctPositions(Flatten(chunks))
    requires AllDone(s)
    ensures Sum(Result, s.tasks) == |Select(Flatten(chunks), Positions(s.log))| - Sum(Uncounted, s.tasks)
    ensures Sum(Uncounted, s.tasks) == 0 <==>
            forall t | t in s.tasks && t.phase.Raised? :: Stored !in t.singles
  {
    ResultsByTask(s.tasks);
    forall i, j | 0 <= i < |s.tasks| && 0 <= j < |chunks[i]|
      ensures s.tasks[i].singles[j].Stored? <==> chunks[i][j].pos in Positions(s.log)
    {
      if s.tasks[i].singles[j].Stored? {
        assert HasSingle(s, i, j, Stored);
        assert IsStored(chunks, s, chunks[i][j]);
      }
      if chunks[i][j].pos in Positions(s.log) {
        var d :| d in s.log && d.pos == chunks[i][j].pos;
        var i': nat, j': nat :| HasSingle(s, i', j', Stored) && chunks[i'][j'] == d;
        PlacesDiffer(chunks, i, j, i', j');
      }
    }
    SelectedTotal(chunks, s.tasks, Positions(s.log));
    ReturnedFromLog(c, chunks, store0, s);
  }

  lemma {:induction false} UncountedZero(ts: seq<Task>)
    ensures Sum(Uncounted, ts) >= 0
    ensures Sum(Uncounted, ts) == 0 <==> forall t | t in ts && t.phase.Raised? :: Stored !in t.singles
  {
    if ts != [] {
      UncountedZero(ts[1..]);
      var t := ts[0];
      assert ts == [t] + ts[1..];
      SumBounds(One, t.singles, 0, 1);
      if Stored in t.singles {
        var j :| 0 <= j < |t.singles| && t.singles[j] == Stored;
        SumUpdate(One, t.singles, j, Refused);
        SumBounds(One, t.singles[j := Refused], 0, 1);
      } else {
        assert forall x | x in t.singles :: One(x) == 0;
        SumAllZero(One, t.singles);
      }
    }
  }
}
