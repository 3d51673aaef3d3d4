/** What a chunk that raises does to its flush and to the next one: upserts left running, documents not counted,
    documents overtaken. */
module RaisedChunks {
  import opened Sequences
  import opened Documents
  import opened FlushProtocol
  import opened FlushLiveness
  import opened FlushSchedules
  import opened FlushResults

  // ---- What a flush leaves running ----

  /** Upserts of the task still wait or are under way. */
  predicate Open(t: Task) {
    Queued in t.singles || Sending in t.singles
  }

  /** An open task with what it stored put behind it. */
  function Carried(t: Task): Task {
    t.(singles := seq(|t.singles|, j requires 0 <= j < |t.singles| =>
                        if t.singles[j].Stored? then Refused else t.singles[j]))
  }

  function Leftovers(tasks: seq<Task>): seq<Task> {
    if tasks == [] then [] else (if Open(tasks[0]) then [Carried(tasks[0])] else []) + Leftovers(tasks[1..])
  }

  function LeftoverDocs(chunks: Chunks, tasks: seq<Task>): Chunks
    requires |chunks| == |tasks|
  {
    if tasks == [] then []
    else (if Open(tasks[0]) then [chunks[0]] else []) + LeftoverDocs(chunks[1..], tasks[1..])
  }

  lemma CarriedIsOrphan(t: Task)
    requires Done(t) && ShapeOk(t) && Open(t)
    ensures Orphan(Carried(t)) && TaskPermits(Carried(t)) == TaskPermits(t)
  {
    var u := Carried(t);
    if j: nat :| j < |t.singles| && t.singles[j] == Crashed {
      assert u.singles[j] == Crashed;
    }
    assert t.phase.Raised? && u.phase == t.phase && Idle !in t.singles;
    CarriedPermits(t.singles, u.singles);
  }

  lemma {:induction false} CarriedPermits(a: seq<Single>, b: seq<Single>)
    requires |a| == |b| && forall j | 0 <= j < |a| :: b[j] == if a[j].Stored? then Refused else a[j]
    ensures Sum(SinglePermit, a) == Sum(SinglePermit, b)
  {
    if a != [] {
      CarriedPermits(a[1..], b[1..]);
    }
  }

  lemma OneLeftover(t: Task, rest: seq<Task>)
    requires Done(t) && ShapeOk(t)
    ensures Sum(TaskPermits, Leftovers([t] + rest)) == TaskPermits(t) + Sum(TaskPermits, Leftovers(rest))
    ensures Leftovers([t] + rest) == [] <==> !Open(t) && Leftovers(rest) == []
  {
    assert ([t] + rest)[1..] == rest;
    if Open(t) {
      CarriedIsOrphan(t);
      assert Leftovers([t] + rest)[1..] == Leftovers(rest);
    } else {
      PermitsBySendings(t);
      assert Leftovers([t] + rest) == Leftovers(rest);
    }
  }

  lemma {:induction false} LeftoverPermits(tasks: seq<Task>)
    requires forall t | t in tasks :: Done(t) && ShapeOk(t)
    ensures Sum(TaskPermits, Leftovers(tasks)) == Sum(TaskPermits, tasks)
    ensures Leftovers(tasks) == [] <==> forall t | t in tasks :: !Open(t)
  {
    if tasks != [] {
      assert tasks == [tasks[0]] + tasks[1..];
      LeftoverPermits(tasks[1..]);
      OneLeftover(tasks[0], tasks[1..]);
    }
  }

  lemma {:induction false} LeftoverShapes(chunks: Chunks, tasks: seq<Task>)
    requires |chunks| == |tasks| && forall i | 0 <= i < |tasks| :: |tasks[i].singles| == |chunks[i]|
    requires forall t | t in tasks :: Done(t) && ShapeOk(t)
    ensures |Leftovers(tasks)| == |LeftoverDocs(chunks, tasks)|
    ensures forall i | 0 <= i < |Leftovers(tasks)| ::
              |Leftovers(tasks)[i].singles| == |LeftoverDocs(chunks, tasks)[i]| && Orphan(Leftovers(tasks)[i])
  {
    if tasks != [] {
      assert forall u | u in tasks[1..] :: u in tasks;
      LeftoverShapes(chunks[1..], tasks[1..]);
      if Open(tasks[0]) {
        CarriedIsOrphan(tasks[0]);
        assert Leftovers(tasks) == [Carried(tasks[0])] + Leftovers(tasks[1..]);
      }
    }
  }

  /** What a flush leaves running is what the next one may begin beside. */
  lemma FlushLeaves(c: Container, chunks: Chunks, store0: Store, s: State)
    requires Inv(c, chunks, store0, s) && AllDone(s)
    ensures Orphans(LeftoverDocs(chunks, s.tasks), Leftovers(s.tasks), s.free)
  {
    LeftoverPermits(s.tasks);
    LeftoverShapes(chunks, s.tasks);
  }

  lemma {:induction false} LeftoverAt(chunks: Chunks, tasks: seq<Task>, a: nat) returns (i: nat)
    requires |chunks| == |tasks| && a < |tasks| && Open(tasks[a])
    ensures i < |Leftovers(tasks)| && Leftovers(tasks)[i] == Carried(tasks[a])
    ensures i < |LeftoverDocs(chunks, tasks)| && LeftoverDocs(chunks, tasks)[i] == chunks[a]
  {
    if a == 0 {
      i := 0;
    } else {
      i := LeftoverAt(chunks[1..], tasks[1..], a - 1);
      i := if Open(tasks[0]) then i + 1 else i;
    }
  }

  lemma {:induction false} LeftoverFrom(chunks: Chunks, tasks: seq<Task>, i: nat) returns (a: nat)
    requires |chunks| == |tasks| && i < |LeftoverDocs(chunks, tasks)|
    ensures a < |tasks| && Open(tasks[a]) && LeftoverDocs(chunks, tasks)[i] == chunks[a]
  {
    if Open(tasks[0]) && i == 0 {
      a := 0;
    } else {
      a := LeftoverFrom(chunks[1..], tasks[1..], if Open(tasks[0]) then i - 1 else i);
      a := a + 1;
    }
  }

  // ---- Which flushes leave something running ----

  /** A batch of two documents or more. */
  predicate Long(chunk: seq<Doc>) {
    |chunk| >= 2
  }

  predicate AnyLong(chunks: Chunks) {
    exists chunk | chunk in chunks :: Long(chunk)
  }

  predicate AnyOpen(orphans: seq<Task>) {
    exists t | t in orphans :: Open(t)
  }

  /** A raised task that has something open, or something stored, has a document besides the one that crashed. */
  lemma RaisedAndMore(t: Task, x: Single)
    requires Done(t) && ShapeOk(t) && x in t.singles
    requires x.Queued? || x.Sending? || (x.Stored? && t.phase.Raised?)
    ensures t.phase.Raised? && |t.singles| >= 2
  {
    var k: nat :| k < |t.singles| && t.singles[k] == x;
    var l: nat :| l < |t.singles| && t.singles[l] == Crashed;
    assert k != l;
  }

  lemma OrphanWasOpen(c: Container, chunks: Chunks, s: State, steps: seq<Step>, i: nat, x: Single)
    requires WellSized(chunks, s) && Legal(c, chunks, s, steps) && i < |s.tasks| && Orphan(s.tasks[i])
    requires x in Exec(c, chunks, s, steps).tasks[i].singles && (x.Queued? || x.Sending? || x.Stored?)
    ensures Open(s.tasks[i])
  {
    var t := s.tasks[i];
    var j: nat :| j < |t.singles| && Exec(c, chunks, s, steps).tasks[i].singles[j] == x;
    assert t.singles[j] in t.singles;
    if !Open(t) {
      RaisedKeeps(c, chunks, s, steps, i, j);
    }
  }

  /** What is open or stored at the end in a raised task was open in the beginning, or belongs to a long chunk. */
  lemma OpenFromWhere(c: Container, chunks: Chunks, rest: Chunks, orphans: seq<Task>, free: int, store0: Store,
                      steps: seq<Step>, i: nat, x: Single)
    requires Orphans(rest, orphans, free)
    requires Legal(c, chunks + rest, Begin(chunks, orphans, free, store0), steps)
    requires var end := Exec(c, chunks + rest, Begin(chunks, orphans, free, store0), steps);
             && i < |end.tasks| && x in end.tasks[i].singles && Done(end.tasks[i])
             && (x.Queued? || x.Sending? || (x.Stored? && end.tasks[i].phase.Raised?))
    ensures AnyLong(chunks) || AnyOpen(orphans)
    ensures i < |chunks| ==> Long(chunks[i])
  {
    var all, s := chunks + rest, Begin(chunks, orphans, free, store0);
    if i < |chunks| {
      BeginInv(c, chunks, rest, orphans, free, store0);
      RunKeepsInv(c, all, store0, s, steps);
      RaisedAndMore(Exec(c, all, s, steps).tasks[i], x);
      assert all[i] == chunks[i] && chunks[i] in chunks;
    } else {
      var t := orphans[i - |chunks|];
      assert s.tasks[i] == t && t in orphans;
      OrphanWasOpen(c, all, s, steps, i, x);
    }
  }

  /** Chunk `a` in fallback with one upsert crashed raises, and all other chunks have ended: `flush` returns. */
  lemma RaiseLast(c: Container, chunks: Chunks, s: State, a: nat)
    requires WellSized(chunks, s) && HasTask(s, a, InFallback) && Crashed in s.tasks[a].singles
    requires forall i | 0 <= i < |s.tasks| && i != a :: s.tasks[i].phase.Raised?
    ensures Returning(c, chunks, s, [Raise(a)])
    ensures Exec(c, chunks, s, [Raise(a)]) == SetPhase(s, a, Raised).(free := s.free + 1)
  {
    var s1 := Next(c, chunks, s, Raise(a));
    assert [Raise(a)][1..] == [];
    assert s.tasks[a] in s.tasks && !Done(s.tasks[a]);
    assert Exec(c, chunks, s, [Raise(a)]) == s1 && AllDone(s1);
  }

  /** The state in which a flush returns whose chunks all crashed as batches, but for `a`, of which upsert `x` crashed
      and the others wait. */
  function OneLeft(s: State, a: nat, x: nat): State
    requires a < |s.tasks| && x < |s.tasks[a].singles|
  {
    var t := Task(Raised, Repeat(Queued, |s.tasks[a].singles|)[x := Crashed]);
    var s1 := Crash(s, a, |s.tasks|);
    s1.(tasks := s1.tasks[a := t])
  }

  /** A chunk of a flush with nothing else under way is refused as a batch, one upsert crashes, and it raises. */
  lemma LeaveOpen(c: Container, chunks: Chunks, s: State, a: nat, x: nat) returns (steps: seq<Step>)
    requires WellSized(chunks, s) && Early(s) && s.free > 1 && HasTask(s, a, Pending) && x < |chunks[a]|
    ensures Returning(c, chunks, s, steps) && Exec(c, chunks, s, steps) == OneLeft(s, a, x)
  {
    var crash := RunCrashes(c, chunks, s, a, |s.tasks|);
    var s1 := Crash(s, a, |s.tasks|);
    assert s1.tasks[a] == s.tasks[a];
    var open := [Start(a), BatchRefused(a)];
    OpenFallback(c, chunks, s1, a);
    var s2 := Exec(c, chunks, s1, open);
    ExecAppend(c, chunks, s, crash, open);
    var fail := [SingleStart(a, x), SingleCrashed(a, x)];
    CrashSingle(c, chunks, s2, a, x);
    var s3 := SetSingle(s2, a, x, Crashed);
    ExecAppend(c, chunks, s, crash + open, fail);
    var before := crash + open + fail;
    assert s3.tasks[a].singles[x] == Crashed;
    forall i | 0 <= i < |s.tasks| && i != a ensures s3.tasks[i].phase.Raised? {
      assert s.tasks[i] in s.tasks;
    }
    RaiseLast(c, chunks, s3, a);
    assert s3.tasks[a] in s3.tasks && !Done(s3.tasks[a]);
    ReturningAfter(c, chunks, s, before, [Raise(a)]);
    steps := before + [Raise(a)];
    assert SetPhase(s3, a, Raised).(free := s3.free + 1).tasks == OneLeft(s, a, x).tasks;
  }

  lemma SettledStops(s: State, step: Step)
    requires AllSettled(s)
    ensures !Enabled(s, step)
  {
    if step.i < |s.tasks| {
      assert s.tasks[step.i] in s.tasks;
    }
  }

  /** A run to an end with something open passes through a return with something open. */
  lemma ReturnOpen(c: Container, chunks: Chunks, s: State, steps: seq<Step>) returns (first: seq<Step>)
    requires WellSized(chunks, s) && Legal(c, chunks, s, steps)
    requires AllDone(Exec(c, chunks, s, steps)) && !AllSettled(Exec(c, chunks, s, steps))
    ensures Returning(c, chunks, s, first) && !AllSettled(Exec(c, chunks, s, first))
  {
    var mid, rest;
    first, mid, rest := FirstReturn(c, chunks, s, steps, Exec(c, chunks, s, steps));
    if AllSettled(mid) && rest != [] {
      SettledStops(mid, rest[0]);
    }
  }

  lemma LongLeaves(c: Container, chunks: Chunks, rest: Chunks, orphans: seq<Task>, free: int, store0: Store, a: nat)
    returns (steps: seq<Step>)
    requires Orphans(rest, orphans, free) && a < |chunks| && Long(chunks[a])
    ensures LeavesRunning(c, chunks, rest, orphans, free, store0, steps)
  {
    var all, s := chunks + rest, Begin(chunks, orphans, free, store0);
    BeginInv(c, chunks, rest, orphans, free, store0);
    EarlyAtFirst(chunks, orphans, free, store0);
    var room := MakeRoom(c, all, store0, s, a, 0, a, 0);
    var s1 := Exec(c, all, s, room);
    assert s1.tasks[a] == s.tasks[a];
    var last := LeaveOpen(c, all, s1, a, 0);
    ExecAppend(c, all, s, room, last);
    assert OneLeft(s1, a, 0).tasks[a].singles[1] == Queued;
    assert OneLeft(s1, a, 0).tasks[a] in OneLeft(s1, a, 0).tasks;
    steps := ReturnOpen(c, all, s, room + last);
  }

  lemma OrphanLeaves(c: Container, chunks: Chunks, rest: Chunks, orphans: seq<Task>, free: int, store0: Store,
                     i: nat, j: nat) returns (steps: seq<Step>)
    requires Orphans(rest, orphans, free) && i < |rest| && j < |rest[i]|
    requires orphans[i].singles[j].Queued? || orphans[i].singles[j].Sending?
    ensures LeavesRunning(c, chunks, rest, orphans, free, store0, steps)
  {
    var all, s, k := chunks + rest, Begin(chunks, orphans, free, store0), |chunks| + i;
    BeginInv(c, chunks, rest, orphans, free, store0);
    EarlyAtFirst(chunks, orphans, free, store0);
    assert orphans[i] in orphans;
    var room := MakeRoom(c, all, store0, s, k, j, k, j);
    var s1 := Exec(c, all, s, room);
    var crash := RunCrashes(c, all, s1, |all|, |all|);
    ExecAppend(c, all, s, room, crash);
    var end := Crash(s1, |all|, |all|);
    forall t | t in end.tasks ensures Done(t) {
      var m :| 0 <= m < |end.tasks| && end.tasks[m] == t;
      assert s1.tasks[m] in s1.tasks;
    }
    assert end.tasks[k].singles[j] in end.tasks[k].singles && end.tasks[k] in end.tasks;
    steps := ReturnOpen(c, all, s, room + crash);
  }

  /** The flush returns with an upsert still waiting or under way. */
  ghost predicate LeavesRunning(c: Container, chunks: Chunks, rest: Chunks, orphans: seq<Task>, free: int,
                                store0: Store, steps: seq<Step>) {
    && Returning(c, chunks + rest, Begin(chunks, orphans, free, store0), steps)
    && !AllSettled(Exec(c, chunks + rest, Begin(chunks, orphans, free, store0), steps))
  }

  /** A flush can return with something still running exactly when it has a chunk of two documents or more, or began
      beside something running. */
  lemma LeavesRunningExactly(c: Container, chunks: Chunks, rest: Chunks, orphans: seq<Task>, free: int, store0: Store)
    requires Orphans(rest, orphans, free)
    ensures (exists steps :: LeavesRunning(c, chunks, rest, orphans, free, store0, steps)) <==>
            AnyLong(chunks) || AnyOpen(orphans)
  {
    if steps :| LeavesRunning(c, chunks, rest, orphans, free, store0, steps) {
      var end := Exec(c, chunks + rest, Begin(chunks, orphans, free, store0), steps);
      var t := Unsettled(end);
      var i: nat :| i < |end.tasks| && end.tasks[i] == t;
      OpenFromWhere(c, chunks, rest, orphans, free, store0, steps, i, if Queued in t.singles then Queued else Sending);
    }
    if AnyLong(chunks) {
      var a: nat :| a < |chunks| && Long(chunks[a]);
      var steps := LongLeaves(c, chunks, rest, orphans, free, store0, a);
    } else if AnyOpen(orphans) {
      var i, j := OpenPlace(rest, orphans, free);
      var steps := OrphanLeaves(c, chunks, rest, orphans, free, store0, i, j);
    }
  }

  lemma OpenPlace(rest: Chunks, orphans: seq<Task>, free: int) returns (i: nat, j: nat)
    requires Orphans(rest, orphans, free) && AnyOpen(orphans)
    ensures i < |rest| && j < |rest[i]| && (orphans[i].singles[j].Queued? || orphans[i].singles[j].Sending?)
  {
    i :| i < |orphans| && Open(orphans[i]);
    j :| j < |orphans[i].singles| && (orphans[i].singles[j].Queued? || orphans[i].singles[j].Sending?);
  }

  // ---- Which flushes can return a wrong number ----

  lemma RaisedReturnNothing(ts: seq<Task>, n: nat)
    requires n <= |ts| && forall i | n <= i < |ts| :: ts[i].phase.Raised?
    ensures Sum(Result, ts[..n]) == Sum(Result, ts)
  {
    assert ts == ts[..n] + ts[n..];
    SumAppend(Result, ts[..n], ts[n..]);
    SumAllZero(Result, ts[n..]);
  }

  /** The flush returns another number than it stored documents. */
  ghost predicate Miscounts(c: Container, chunks: Chunks, rest: Chunks, orphans: seq<Task>, free: int,
                            store0: Store, steps: seq<Step>) {
    && Returning(c, chunks + rest, Begin(chunks, orphans, free, store0), steps)
    && var end := Exec(c, chunks + rest, Begin(chunks, orphans, free, store0), steps);
       |end.tasks| >= |chunks| && Sum(Result, end.tasks[..|chunks|]) != |end.log|
  }

  /** What the number returned leaves out is what raised tasks stored. */
  lemma NotCounted(c: Container, chunks: Chunks, rest: Chunks, orphans: seq<Task>, free: int, store0: Store,
                   steps: seq<Step>)
    requires Orphans(rest, orphans, free)
    requires Returning(c, chunks + rest, Begin(chunks, orphans, free, store0), steps)
    ensures var end := Exec(c, chunks + rest, Begin(chunks, orphans, free, store0), steps);
            Miscounts(c, chunks, rest, orphans, free, store0, steps) <==>
            exists t | t in end.tasks && t.phase.Raised? :: Stored in t.singles
  {
    var all, s := chunks + rest, Begin(chunks, orphans, free, store0);
    BeginInv(c, chunks, rest, orphans, free, store0);
    RunKeepsInv(c, all, store0, s, steps);
    var end := Exec(c, all, s, steps);
    ReturnedFromLog(c, all, store0, end);
    OrphansStayRaised(c, chunks, rest, orphans, free, store0, steps);
    RaisedReturnNothing(end.tasks, |chunks|);
  }

  /** A chunk with one document stored and another crashed raises, and `flush` goes on to return. */
  lemma RaiseAndReturn(c: Container, chunks: Chunks, store0: Store, s: State, a: nat, x: nat) returns (steps: seq<Step>)
    requires Inv(c, chunks, store0, s) && LogOk(chunks, s) && Sum(BusyFlag, s.tasks) < PERMITS
    requires HasTask(s, a, InFallback) && Crashed in s.tasks[a].singles && HasSingle(s, a, x, Stored)
    ensures Returning(c, chunks, s, steps)
    ensures HasTask(Exec(c, chunks, s, steps), a, Raised) && HasSingle(Exec(c, chunks, s, steps), a, x, Stored)
  {
    var s1 := Next(c, chunks, s, Raise(a));
    StepKeepsInv(c, chunks, store0, s, Raise(a));
    OneMoreBusy(s, a, s1.tasks[a]);
    var rest := ReturnQuietly(c, chunks, store0, s1);
    RaisedKeeps(c, chunks, s1, rest, a, x);
    steps := [Raise(a)] + rest;
    assert steps[0] == Raise(a) && steps[1..] == rest;
    assert s.tasks[a] in s.tasks && !Done(s.tasks[a]);
    ReturningBefore(c, chunks, s, steps, s1, rest);
  }

  lemma StoreAndCrash(c: Container, chunks: Chunks, s: State, a: nat, x: nat, y: nat) returns (steps: seq<Step>)
    requires WellSized(chunks, s) && Early(s) && s.free > 3 && HasTask(s, a, Pending)
    requires x < |chunks[a]| && y < |chunks[a]| && x != y
    ensures Legal(c, chunks, s, steps)
    ensures var end := Exec(c, chunks, s, steps);
            && HasTask(end, a, InFallback) && HasSingle(end, a, x, Stored) && HasSingle(end, a, y, Crashed)
            && Sum(BusyFlag, end.tasks) < PERMITS
  {
    NothingBusy(s);
    var first := StoreOne(c, chunks, s, a, x);
    var s1 := Exec(c, chunks, s, first);
    assert HasSingle(s1, a, y, Queued);
    CrashSingle(c, chunks, s1, a, y);
    var second := [SingleStart(a, y), SingleCrashed(a, y)];
    ExecAppend(c, chunks, s, first, second);
    steps := first + second;
    OneMoreBusy(s1, a, SetSingle(s1, a, y, Crashed).tasks[a]);
  }

  lemma LongMiscounts(c: Container, chunks: Chunks, rest: Chunks, orphans: seq<Task>, free: int, store0: Store, a: nat)
    returns (steps: seq<Step>)
    requires Orphans(rest, orphans, free) && a < |chunks| && Long(chunks[a])
    ensures Miscounts(c, chunks, rest, orphans, free, store0, steps)
  {
    var all, s := chunks + rest, Begin(chunks, orphans, free, store0);
    BeginInv(c, chunks, rest, orphans, free, store0);
    EarlyAtFirst(chunks, orphans, free, store0);
    var room := MakeRoom(c, all, store0, s, a, 0, a, 1);
    var s1 := Exec(c, all, s, room);
    var second := StoreAndCrash(c, all, s1, a, 0, 1);
    ExecAppend(c, all, s, room, second);
    var s2 := Exec(c, all, s1, second);
    RunKeepsInv(c, all, store0, s, room + second);
    assert s2.tasks[a].singles[1] in s2.tasks[a].singles;
    var last := RaiseAndReturn(c, all, store0, s2, a, 0);
    assert s2.tasks[a] in s2.tasks && !Done(s2.tasks[a]);
    ReturningAfter(c, all, s, room + second, last);
    steps := room + second + last;
    StoredShows(c, chunks, rest, orphans, free, store0, steps, a, 0);
  }

  lemma StoredShows(c: Container, chunks: Chunks, rest: Chunks, orphans: seq<Task>, free: int, store0: Store,
                    steps: seq<Step>, i: nat, j: nat)
    requires Orphans(rest, orphans, free)
    requires Returning(c, chunks + rest, Begin(chunks, orphans, free, store0), steps)
    requires var end := Exec(c, chunks + rest, Begin(chunks, orphans, free, store0), steps);
             HasTask(end, i, Raised) && HasSingle(end, i, j, Stored)
    ensures Miscounts(c, chunks, rest, orphans, free, store0, steps)
  {
    var end := Exec(c, chunks + rest, Begin(chunks, orphans, free, store0), steps);
    assert end.tasks[i] in end.tasks && end.tasks[i].singles[j] in end.tasks[i].singles;
    NotCounted(c, chunks, rest, orphans, free, store0, steps);
  }

  lemma OrphanMiscounts(c: Container, chunks: Chunks, rest: Chunks, orphans: seq<Task>, free: int, store0: Store,
                        i: nat, j: nat) returns (steps: seq<Step>)
    requires Orphans(rest, orphans, free) && i < |rest| && j < |rest[i]| && chunks != []
    requires orphans[i].singles[j].Queued? || orphans[i].singles[j].Sending?
    ensures Miscounts(c, chunks, rest, orphans, free, store0, steps)
  {
    var all, s, k := chunks + rest, Begin(chunks, orphans, free, store0), |chunks| + i;
    BeginInv(c, chunks, rest, orphans, free, store0);
    EarlyAtFirst(chunks, orphans, free, store0);
    assert orphans[i] in orphans;
    var room := MakeRoom(c, all, store0, s, k, j, k, j);
    var s1 := Exec(c, all, s, room);
    var land := LandSingle(c, all, s1, k, j);
    ExecAppend(c, all, s, room, land);
    var s2 := Exec(c, all, s1, land);
    RunKeepsInv(c, all, store0, s, room + land);
    NothingBusy(s2);
    var last := ReturnQuietly(c, all, store0, s2);
    assert s2.tasks[0] == s.tasks[0] && s2.tasks[0] in s2.tasks && !Done(s2.tasks[0]);
    ReturningAfter(c, all, s, room + land, last);
    RaisedKeeps(c, all, s2, last, k, j);
    steps := room + land + last;
    StoredShows(c, chunks, rest, orphans, free, store0, steps, k, j);
  }

  /** A flush can return another number than it stored documents exactly when it has a chunk of two documents or more,
      or waits at all beside something an earlier flush left running. */
  lemma MiscountsExactly(c: Container, chunks: Chunks, rest: Chunks, orphans: seq<Task>, free: int, store0: Store)
    requires Orphans(rest, orphans, free)
    ensures (exists steps :: Miscounts(c, chunks, rest, orphans, free, store0, steps)) <==>
            AnyLong(chunks) || (chunks != [] && AnyOpen(orphans))
  {
    if steps :| Miscounts(c, chunks, rest, orphans, free, store0, steps) {
      MiscountMeans(c, chunks, rest, orphans, free, store0, steps);
    }
    if AnyLong(chunks) {
      var a: nat :| a < |chunks| && Long(chunks[a]);
      var steps := LongMiscounts(c, chunks, rest, orphans, free, store0, a);
    } else if chunks != [] && AnyOpen(orphans) {
      var i, j := OpenPlace(rest, orphans, free);
      var steps := OrphanMiscounts(c, chunks, rest, orphans, free, store0, i, j);
    }
  }

  /** A flush of nothing returns 0 at once. */
  lemma WithoutChunks(c: Container, rest: Chunks, orphans: seq<Task>, free: int, store0: Store, steps: seq<Step>)
    requires Orphans(rest, orphans, free)
    ensures !Miscounts(c, [], rest, orphans, free, store0, steps)
  {
    var s := Begin([], orphans, free, store0);
    assert s.tasks == orphans;
    assert forall t | t in orphans :: Done(t);
  }

  lemma MiscountMeans(c: Container, chunks: Chunks, rest: Chunks, orphans: seq<Task>, free: int, store0: Store,
                      steps: seq<Step>)
    requires Orphans(rest, orphans, free) && Miscounts(c, chunks, rest, orphans, free, store0, steps)
    ensures AnyLong(chunks) || (chunks != [] && AnyOpen(orphans))
  {
    var end := Exec(c, chunks + rest, Begin(chunks, orphans, free, store0), steps);
    WithoutChunks(c, rest, orphans, free, store0, steps);
    NotCounted(c, chunks, rest, orphans, free, store0, steps);
    var t :| t in end.tasks && t.phase.Raised? && Stored in t.singles;
    var i: nat :| i < |end.tasks| && end.tasks[i] == t;
    OpenFromWhere(c, chunks, rest, orphans, free, store0, steps, i, Stored);
  }

  // ---- Documents overtaken by those of an earlier flush ----

  /** An upsert that waits is under way, room is made for a batch, and nothing else has started. */
  lemma ReadyForBatch(c: Container, chunks: Chunks, store0: Store, s: State, i: nat, j: nat) returns (steps: seq<Step>)
    requires Inv(c, chunks, store0, s) && LogOk(chunks, s) && Early(s)
    requires HasSingle(s, i, j, Queued) || HasSingle(s, i, j, Sending)
    ensures Legal(c, chunks, s, steps)
    ensures var s1 := Exec(c, chunks, s, steps);
            && s1.free > 0 && s1.store == s.store && s1.log == s.log && Early(s1) && HasSingle(s1, i, j, Sending)
            && forall m | 0 <= m < |s.tasks| && s.tasks[m].phase.Pending? :: s1.tasks[m] == s.tasks[m]
  {
    var room := MakeRoom(c, chunks, store0, s, i, j, i, j);
    var s1 := Exec(c, chunks, s, room);
    if HasSingle(s1, i, j, Sending) {
      steps := room;
    } else {
      var start := [SingleStart(i, j)];
      RunKeepsInv(c, chunks, store0, s, room);
      assert s1.tasks[i] in s1.tasks && s1.tasks[i].singles[j] in s1.tasks[i].singles;
      assert start[1..] == [] && Exec(c, chunks, s1, start) == Next(c, chunks, s1, start[0]);
      ExecAppend(c, chunks, s, room, start);
      steps := room + start;
    }
  }

  /** An upsert under way lands, and everything else ends without storing anything. */
  lemma LandAndEnd(c: Container, chunks: Chunks, store0: Store, s: State, i: nat, j: nat) returns (steps: seq<Step>)
    requires Inv(c, chunks, store0, s) && LogOk(chunks, s) && HasSingle(s, i, j, Sending)
    requires forall t | t in s.tasks :: !Busy(t)
    ensures Legal(c, chunks, s, steps)
    ensures var end := Exec(c, chunks, s, steps);
            AllSettled(end) && end.log == s.log + [chunks[i][j]] && end.store == c.Upsert(s.store, chunks[i][j])
  {
    var first := [SingleStored(i, j)];
    var s1 := Next(c, chunks, s, first[0]);
    assert first[1..] == [] && Exec(c, chunks, s, first) == s1;
    StepKeepsInv(c, chunks, store0, s, first[0]);
    assert s.tasks[i] in s.tasks;
    SumAllZero(BusyFlag, s1.tasks);
    var last := CanEndQuietly(c, chunks, store0, s1);
    ExecAppend(c, chunks, s, first, last);
    steps := first + last;
  }

  lemma BatchThenLate(c: Container, chunks: Chunks, store0: Store, s: State, a: nat, i: nat, j: nat)
    returns (steps: seq<Step>)
    requires Inv(c, chunks, store0, s) && LogOk(chunks, s) && Early(s) && s.free > 0
    requires HasTask(s, a, Pending) && HasSingle(s, i, j, Sending) && i != a
    ensures Legal(c, chunks, s, steps)
    ensures var end := Exec(c, chunks, s, steps);
            && AllSettled(end) && end.log == s.log + chunks[a] + [chunks[i][j]]
            && end.store == c.Upsert(c.UpsertAll(s.store, chunks[a]), chunks[i][j])
  {
    var first := [Start(a), BatchStored(a)];
    StoreBatch(c, chunks, s, a);
    var s1 := Exec(c, chunks, s, first);
    RunKeepsInv(c, chunks, store0, s, first);
    var last := LandAndEnd(c, chunks, store0, s1, i, j);
    ExecAppend(c, chunks, s, first, last);
    steps := first + last;
  }

  /** Any upsert that an earlier flush left running can land after any batch of the next one; the flush then ends
      with what it wrote in place, however much newer the documents of the batch are. */
  lemma LateUpsertLast(c: Container, chunks: Chunks, rest: Chunks, orphans: seq<Task>, free: int, store0: Store,
                       a: nat, i: nat, j: nat) returns (steps: seq<Step>, end: State)
    requires Orphans(rest, orphans, free) && a < |chunks| && i < |rest| && j < |rest[i]|
    requires orphans[i].singles[j].Queued? || orphans[i].singles[j].Sending?
    ensures Ends(c, chunks + rest, Begin(chunks, orphans, free, store0), steps)
    ensures end == Exec(c, chunks + rest, Begin(chunks, orphans, free, store0), steps)
    ensures end.log == chunks[a] + [rest[i][j]] && end.store == c.Upsert(c.UpsertAll(store0, chunks[a]), rest[i][j])
  {
    var all, s, k := chunks + rest, Begin(chunks, orphans, free, store0), |chunks| + i;
    BeginInv(c, chunks, rest, orphans, free, store0);
    EarlyAtFirst(chunks, orphans, free, store0);
    var first := ReadyForBatch(c, all, store0, s, k, j);
    var s1 := Exec(c, all, s, first);
    RunKeepsInv(c, all, store0, s, first);
    var last := BatchThenLate(c, all, store0, s1, a, k, j);
    ExecAppend(c, all, s, first, last);
    steps := first + last;
    end := Exec(c, all, s1, last);
  }

  /** A flush of `first` returns after `a`; a flush of `second` begins beside what is left, and `b` ends everything. */
  ghost predicate TwoFlushes(c: Container, first: Chunks, second: Chunks, store0: Store, a: seq<Step>, b: seq<Step>,
                             end: State) {
    && Returning(c, first, Init(first, store0), a)
    && var mid := Exec(c, first, Init(first, store0), a);
       var all := second + LeftoverDocs(first, mid.tasks);
       var s := Begin(second, Leftovers(mid.tasks), mid.free, mid.store);
       Ends(c, all, s, b) && end == Exec(c, all, s, b)
  }

  /** No document of the chunks has this content under the key. */
  predicate NoneHas(c: Container, chunks: Chunks, key: Key, fields: map<string, string>) {
    forall f | f in Flatten(chunks) && c.KeyOf(f) == key :: f.fields != fields
  }

  /** The document was stored, but its key ends with what no document of its flush has under that key. */
  predicate Overtaken(c: Container, chunks: Chunks, end: State, e: Doc) {
    && e in Flatten(chunks) && e in end.log && c.KeyOf(e) in end.store
    && NoneHas(c, chunks, c.KeyOf(e), end.store[c.KeyOf(e)])
  }

  predicate InLong(chunks: Chunks, d: Doc) {
    exists chunk | chunk in chunks :: Long(chunk) && d in chunk
  }

  /** `d`, of a long chunk of the first flush, shares its key with `e` of the second, and no document of the second has
      its content under that key. */
  predicate CanOvertake(c: Container, first: Chunks, second: Chunks, d: Doc, e: Doc) {
    && InLong(first, d) && e in Flatten(second) && c.KeyOf(d) == c.KeyOf(e)
    && NoneHas(c, second, c.KeyOf(e), d.fields)
  }

  lemma OrphansAfter(c: Container, chunks: Chunks, store0: Store, steps: seq<Step>)
    requires Returning(c, chunks, Init(chunks, store0), steps)
    ensures var mid := Exec(c, chunks, Init(chunks, store0), steps);
            Orphans(LeftoverDocs(chunks, mid.tasks), Leftovers(mid.tasks), mid.free)
  {
    ReachableInv(c, chunks, store0, steps);
    FlushLeaves(c, chunks, store0, Exec(c, chunks, Init(chunks, store0), steps));
  }

  /** What is left of a flush comes from its long chunks. */
  lemma LeftFromLong(c: Container, chunks: Chunks, store0: Store, steps: seq<Step>, i: nat, d: Doc)
    requires Returning(c, chunks, Init(chunks, store0), steps)
    requires var left := LeftoverDocs(chunks, Exec(c, chunks, Init(chunks, store0), steps).tasks);
             i < |left| && d in left[i]
    ensures InLong(chunks, d)
  {
    var mid := Exec(c, chunks, Init(chunks, store0), steps);
    ReachableInv(c, chunks, store0, steps);
    var a := LeftoverFrom(chunks, mid.tasks, i);
    var t := mid.tasks[a];
    assert t in mid.tasks;
    RaisedAndMore(t, if Queued in t.singles then Queued else Sending);
    assert chunks[a] in chunks && Long(chunks[a]);
  }

  /** What the store holds under a stored document's key was stored meanwhile. */
  lemma StoredUnder(c: Container, chunks: Chunks, store0: Store, end: State, e: Doc) returns (f: Doc, i: nat)
    requires Inv(c, chunks, store0, end) && LogOk(chunks, end) && e in end.log && c.KeyOf(e) in end.store
    ensures c.KeyOf(f) == c.KeyOf(e) && end.store[c.KeyOf(e)] == f.fields && i < |chunks| && f in chunks[i]
  {
    c.LastUnderIsMember(end.log, c.KeyOf(e));
    c.UpsertAllLookup(store0, end.log, c.KeyOf(e));
    f := c.LastUnder(end.log, c.KeyOf(e)).value;
    var k: nat, j: nat :| HasSingle(end, k, j, Stored) && chunks[k][j] == f;
    i := k;
  }

  /** Only what was left of an earlier flush overtakes. */
  lemma OvertakenByLeft(c: Container, chunks: Chunks, rest: Chunks, orphans: seq<Task>, free: int, store0: Store,
                        steps: seq<Step>, e: Doc) returns (d: Doc, i: nat)
    requires Orphans(rest, orphans, free)
    requires Legal(c, chunks + rest, Begin(chunks, orphans, free, store0), steps)
    requires Overtaken(c, chunks, Exec(c, chunks + rest, Begin(chunks, orphans, free, store0), steps), e)
    ensures i < |rest| && d in rest[i] && c.KeyOf(d) == c.KeyOf(e)
    ensures NoneHas(c, chunks, c.KeyOf(e), d.fields)
  {
    var all, s := chunks + rest, Begin(chunks, orphans, free, store0);
    BeginInv(c, chunks, rest, orphans, free, store0);
    RunKeepsInv(c, all, store0, s, steps);
    d, i := StoredUnder(c, all, store0, Exec(c, all, s, steps), e);
    if i < |chunks| {
      assert d in chunks[i];
      FlattenMember(chunks, d);
      assert false;
    }
    i := i - |chunks|;
  }

  lemma OvertakenMeans(c: Container, first: Chunks, second: Chunks, store0: Store, a: seq<Step>, b: seq<Step>,
                       end: State, e: Doc) returns (d: Doc)
    requires TwoFlushes(c, first, second, store0, a, b, end) && Overtaken(c, second, end, e)
    ensures CanOvertake(c, first, second, d, e)
  {
    var mid := Exec(c, first, Init(first, store0), a);
    OrphansAfter(c, first, store0, a);
    var i;
    d, i := OvertakenByLeft(c, second, LeftoverDocs(first, mid.tasks), Leftovers(mid.tasks), mid.free, mid.store, b, e);
    LeftFromLong(c, first, store0, a, i, d);
  }

  /** One upsert of a long chunk crashes, another stays waiting: what the next flush begins beside. */
  lemma LeaveWaiting(c: Container, chunks: Chunks, store0: Store, d: Doc) returns (steps: seq<Step>, i: nat, j: nat)
    requires InLong(chunks, d)
    ensures Returning(c, chunks, Init(chunks, store0), steps)
    ensures var mid := Exec(c, chunks, Init(chunks, store0), steps);
            var rest, orphans := LeftoverDocs(chunks, mid.tasks), Leftovers(mid.tasks);
            i < |rest| && i < |orphans| && j < |rest[i]| && rest[i][j] == d && j < |orphans[i].singles| &&
            orphans[i].singles[j].Queued?
  {
    var a: nat :| a < |chunks| && Long(chunks[a]) && d in chunks[a];
    var y: nat :| y < |chunks[a]| && chunks[a][y] == d;
    var x := if y == 0 then 1 else 0;
    var s := Init(chunks, store0);
    steps := LeaveOpen(c, chunks, s, a, x);
    var t := OneLeft(s, a, x).tasks[a];
    assert t.singles[y] == Queued;
    i := LeftoverAt(chunks, OneLeft(s, a, x).tasks, a);
    j := y;
  }

  lemma LastIsOver(c: Container, chunks: Chunks, store0: Store, end: State, k: nat, d: Doc, e: Doc)
    requires k < |chunks| && e in chunks[k] && e in Flatten(chunks) && c.KeyOf(d) == c.KeyOf(e)
    requires end.log == chunks[k] + [d] && end.store == c.Upsert(c.UpsertAll(store0, chunks[k]), d)
    requires NoneHas(c, chunks, c.KeyOf(e), d.fields)
    ensures Overtaken(c, chunks, end, e)
  {
  }

  lemma LateOvertakes(c: Container, chunks: Chunks, rest: Chunks, orphans: seq<Task>, free: int, store0: Store,
                      i: nat, j: nat, e: Doc) returns (steps: seq<Step>, end: State)
    requires Orphans(rest, orphans, free) && i < |rest| && j < |rest[i]| && e in Flatten(chunks)
    requires orphans[i].singles[j].Queued? || orphans[i].singles[j].Sending?
    requires c.KeyOf(rest[i][j]) == c.KeyOf(e)
    requires NoneHas(c, chunks, c.KeyOf(e), rest[i][j].fields)
    ensures Ends(c, chunks + rest, Begin(chunks, orphans, free, store0), steps)
    ensures end == Exec(c, chunks + rest, Begin(chunks, orphans, free, store0), steps) && Overtaken(c, chunks, end, e)
  {
    var k, l := PlaceOf(chunks, e);
    steps, end := LateUpsertLast(c, chunks, rest, orphans, free, store0, k, i, j);
    LastIsOver(c, chunks, store0, end, k, rest[i][j], e);
  }

  lemma OvertakeHappens(c: Container, first: Chunks, second: Chunks, store0: Store, d: Doc, e: Doc)
    returns (a: seq<Step>, b: seq<Step>, end: State)
    requires CanOvertake(c, first, second, d, e)
    ensures TwoFlushes(c, first, second, store0, a, b, end) && Overtaken(c, second, end, e)
  {
    var i, j;
    a, i, j := LeaveWaiting(c, first, store0, d);
    var mid := Exec(c, first, Init(first, store0), a);
    var rest, orphans := LeftoverDocs(first, mid.tasks), Leftovers(mid.tasks);
    OrphansAfter(c, first, store0, a);
    b, end := LateOvertakes(c, second, rest, orphans, mid.free, mid.store, i, j, e);
  }

  /** After two flushes a document of the second can be overtaken by an upsert the first left running, exactly when a
      chunk of two documents or more of the first has one under the same key with a content of its own. */
  lemma OvertakesExactly(c: Container, first: Chunks, second: Chunks, store0: Store)
    ensures (exists a, b, end, e ::
             TwoFlushes(c, first, second, store0, a, b, end) && Overtaken(c, second, end, e)) <==>
            (exists d, e :: CanOvertake(c, first, second, d, e))
  {
    if a, b, end, e :| TwoFlushes(c, first, second, store0, a, b, end) && Overtaken(c, second, end, e) {
      var d := OvertakenMeans(c, first, second, store0, a, b, end, e);
    }
    if d, e :| CanOvertake(c, first, second, d, e) {
      var a, b, end := OvertakeHappens(c, first, second, store0, d, e);
    }
  }
}
