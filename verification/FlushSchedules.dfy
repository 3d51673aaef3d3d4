/** Building blocks of schedules: when `flush` returns, and how single documents, batches and the upserts of an
    earlier flush can be made to go through or fail. */
module FlushSchedules {
  import opened Sequences
  import opened Documents
  import opened FlushProtocol
  import opened FlushLiveness

  // ---- When a flush returns ----

  /** `flush` has not returned before the last of the steps. */
  predicate Waits(c: Container, chunks: Chunks, s: State, steps: seq<Step>)
    requires WellSized(chunks, s) && Legal(c, chunks, s, steps)
    decreases |steps|
  {
    steps == [] || (!AllDone(s) && Waits(c, chunks, Next(c, chunks, s, steps[0]), steps[1..]))
  }

  /** A run up to the point where every chunk task has ended and `flush` returns. */
  predicate Returning(c: Container, chunks: Chunks, s: State, steps: seq<Step>) {
    && WellSized(chunks, s) && Legal(c, chunks, s, steps) && Waits(c, chunks, s, steps)
    && AllDone(Exec(c, chunks, s, steps))
  }

  lemma StepKeepsDone(c: Container, chunks: Chunks, s: State, step: Step)
    requires WellSized(chunks, s) && Enabled(s, step) && AllDone(s)
    ensures AllDone(Next(c, chunks, s, step))
  {
    var s' := Next(c, chunks, s, step);
    assert s.tasks[step.i] in s.tasks;
    forall t | t in s'.tasks ensures Done(t) {
      var i :| 0 <= i < |s'.tasks| && s'.tasks[i] == t;
      assert s.tasks[i] in s.tasks;
    }
  }

  lemma {:induction false} DoneStays(c: Container, chunks: Chunks, s: State, steps: seq<Step>)
    requires WellSized(chunks, s) && Legal(c, chunks, s, steps) && AllDone(s)
    ensures AllDone(Exec(c, chunks, s, steps))
    decreases |steps|
  {
    if steps != [] {
      StepKeepsDone(c, chunks, s, steps[0]);
      DoneStays(c, chunks, Next(c, chunks, s, steps[0]), steps[1..]);
    }
  }

  /** Steps that end with a task still going were taken while `flush` waited, and it may go on waiting from there. */
  lemma {:induction false} WaitsOn(c: Container, chunks: Chunks, s: State, a: seq<Step>, mid: State, b: seq<Step>)
    requires WellSized(chunks, s) && Legal(c, chunks, s, a) && mid == Exec(c, chunks, s, a) && !AllDone(mid)
    requires Legal(c, chunks, mid, b) && Waits(c, chunks, mid, b)
    ensures Legal(c, chunks, s, a + b) && Waits(c, chunks, s, a + b)
    ensures Exec(c, chunks, s, a + b) == Exec(c, chunks, mid, b)
    decreases |a|
  {
    if a == [] {
      assert a + b == b;
    } else {
      var s1, rest := FirstStep(c, chunks, s, a, mid);
      if AllDone(s) {
        DoneStays(c, chunks, s, a);
      }
      WaitsOn(c, chunks, s1, rest, mid, b);
      GoesOn(c, chunks, s, a, b, s1, rest);
      WaitsBefore(c, chunks, s, a + b, s1, rest + b);
    }
  }

  lemma WaitsBefore(c: Container, chunks: Chunks, s: State, steps: seq<Step>, s1: State, rest: seq<Step>)
    requires Goes(c, chunks, s, steps, s1, rest) && !AllDone(s)
    requires Legal(c, chunks, s1, rest) && Waits(c, chunks, s1, rest)
    ensures Legal(c, chunks, s, steps) && Waits(c, chunks, s, steps)
    ensures Exec(c, chunks, s, steps) == Exec(c, chunks, s1, rest)
  {
  }

  lemma ReturningAfter(c: Container, chunks: Chunks, s: State, a: seq<Step>, b: seq<Step>)
    requires WellSized(chunks, s) && Legal(c, chunks, s, a) && !AllDone(Exec(c, chunks, s, a))
    requires Returning(c, chunks, Exec(c, chunks, s, a), b)
    ensures Returning(c, chunks, s, a + b)
    ensures Exec(c, chunks, s, a + b) == Exec(c, chunks, Exec(c, chunks, s, a), b)
  {
    WaitsOn(c, chunks, s, a, Exec(c, chunks, s, a), b);
  }

  lemma ReturningBefore(c: Container, chunks: Chunks, s: State, steps: seq<Step>, s1: State, rest: seq<Step>)
    requires Goes(c, chunks, s, steps, s1, rest) && !AllDone(s) && Returning(c, chunks, s1, rest)
    ensures Returning(c, chunks, s, steps) && Exec(c, chunks, s, steps) == Exec(c, chunks, s1, rest)
  {
  }

  /** The run from `s` to `end` passes through `mid`, where `flush` returns. */
  predicate Passes(c: Container, chunks: Chunks, s: State, steps: seq<Step>, end: State, first: seq<Step>, mid: State,
                   rest: seq<Step>) {
    && steps == first + rest && Returning(c, chunks, s, first) && mid == Exec(c, chunks, s, first)
    && WellSized(chunks, mid) && Legal(c, chunks, mid, rest) && Exec(c, chunks, mid, rest) == end
  }

  lemma PassesHere(c: Container, chunks: Chunks, s: State, steps: seq<Step>, end: State)
    requires WellSized(chunks, s) && Legal(c, chunks, s, steps) && end == Exec(c, chunks, s, steps) && AllDone(s)
    ensures Passes(c, chunks, s, steps, end, [], s, steps)
  {
    assert steps == [] + steps;
  }

  lemma PassesLater(c: Container, chunks: Chunks, s: State, steps: seq<Step>, end: State, s1: State, tail: seq<Step>,
                    head: seq<Step>, mid: State, rest: seq<Step>)
    requires Goes(c, chunks, s, steps, s1, tail) && !AllDone(s)
    requires Passes(c, chunks, s1, tail, end, head, mid, rest)
    ensures Passes(c, chunks, s, steps, end, [steps[0]] + head, mid, rest)
  {
    var first := [steps[0]] + head;
    assert first[0] == steps[0] && first[1..] == head;
    assert steps == [steps[0]] + tail;
    ReturningBefore(c, chunks, s, first, s1, head);
  }

  /** Any run to a state where all chunk tasks have ended passes through the point where `flush` returns. */
  lemma {:induction false} FirstReturn(c: Container, chunks: Chunks, s: State, steps: seq<Step>, end: State)
    returns (first: seq<Step>, mid: State, rest: seq<Step>)
    requires WellSized(chunks, s) && Legal(c, chunks, s, steps) && end == Exec(c, chunks, s, steps) && AllDone(end)
    ensures Passes(c, chunks, s, steps, end, first, mid, rest)
    decreases |steps|
  {
    if AllDone(s) {
      first, mid, rest := [], s, steps;
      PassesHere(c, chunks, s, steps, end);
    } else {
      var s1, tail := FirstStep(c, chunks, s, steps, end);
      var head;
      head, mid, rest := FirstReturn(c, chunks, s1, tail, end);
      first := [steps[0]] + head;
      PassesLater(c, chunks, s, steps, end, s1, tail, head, mid, rest);
    }
  }

  /** Steps that store nothing leave store and log alone. */
  lemma {:induction false} QuietStores(c: Container, chunks: Chunks, s: State, steps: seq<Step>)
    requires WellSized(chunks, s) && Legal(c, chunks, s, steps) && forall step | step in steps :: Quiet(step)
    ensures Exec(c, chunks, s, steps).store == s.store && Exec(c, chunks, s, steps).log == s.log
    decreases |steps|
  {
    if steps != [] {
      assert steps[0] in steps;
      QuietStores(c, chunks, Next(c, chunks, s, steps[0]), steps[1..]);
    }
  }

  /** From any state with fewer than 25 chunks busy some run makes `flush` return without storing anything more. */
  lemma ReturnQuietly(c: Container, chunks: Chunks, store0: Store, s: State) returns (steps: seq<Step>)
    requires Inv(c, chunks, store0, s) && LogOk(chunks, s) && Sum(BusyFlag, s.tasks) < PERMITS
    ensures Returning(c, chunks, s, steps)
    ensures Exec(c, chunks, s, steps).store == s.store && Exec(c, chunks, s, steps).log == s.log
  {
    var all := CanEndQuietly(c, chunks, store0, s);
    var mid, rest;
    steps, mid, rest := FirstReturn(c, chunks, s, all, Exec(c, chunks, s, all));
    assert forall step | step in steps :: step in all;
    QuietStores(c, chunks, s, steps);
  }

  // ---- What raised tasks keep ----

  /** In a raised task what was stored stays stored, and what neither waits nor is under way stays as it is. */
  lemma {:induction false} RaisedKeeps(c: Container, chunks: Chunks, s: State, steps: seq<Step>, i: nat, j: nat)
    requires WellSized(chunks, s) && Legal(c, chunks, s, steps)
    requires i < |s.tasks| && s.tasks[i].phase.Raised? && j < |s.tasks[i].singles|
    requires !s.tasks[i].singles[j].Queued? && !s.tasks[i].singles[j].Sending?
    ensures Exec(c, chunks, s, steps).tasks[i].phase.Raised?
    ensures Exec(c, chunks, s, steps).tasks[i].singles[j] == s.tasks[i].singles[j]
    decreases |steps|
  {
    if steps != [] {
      RaisedKeeps(c, chunks, Next(c, chunks, s, steps[0]), steps[1..], i, j);
    }
  }

  // ---- Single chunks ----

  lemma OpenFallback(c: Container, chunks: Chunks, s: State, i: nat)
    requires WellSized(chunks, s) && HasTask(s, i, Pending) && s.free > 0
    ensures var steps := [Start(i), BatchRefused(i)];
            && Legal(c, chunks, s, steps)
            && Exec(c, chunks, s, steps) ==
               s.(free := s.free - 1, tasks := s.tasks[i := Task(InFallback, Repeat(Queued, |chunks[i]|))])
  {
    var s1 := Next(c, chunks, s, Start(i));
    var s2 := Next(c, chunks, s1, BatchRefused(i));
    assert [Start(i), BatchRefused(i)][1..] == [BatchRefused(i)];
    assert [BatchRefused(i)][1..] == [];
    assert Exec(c, chunks, s1, [BatchRefused(i)]) == s2;
    assert s2.tasks == s.tasks[i := Task(InFallback, Repeat(Queued, |chunks[i]|))];
  }

  lemma StoreSingle(c: Container, chunks: Chunks, s: State, i: nat, j: nat)
    requires WellSized(chunks, s) && HasSingle(s, i, j, Queued) && s.free > 0
    ensures var steps := [SingleStart(i, j), SingleStored(i, j)];
            && Legal(c, chunks, s, steps)
            && Exec(c, chunks, s, steps) ==
               SetSingle(s, i, j, Stored).(store := c.Upsert(s.store, chunks[i][j]), log := s.log + [chunks[i][j]])
  {
    var s1 := Next(c, chunks, s, SingleStart(i, j));
    var s2 := Next(c, chunks, s1, SingleStored(i, j));
    assert [SingleStart(i, j), SingleStored(i, j)][1..] == [SingleStored(i, j)];
    assert [SingleStored(i, j)][1..] == [];
    assert Exec(c, chunks, s1, [SingleStored(i, j)]) == s2;
    var u := s.tasks[i];
    assert u.singles[j := Sending][j := Stored] == u.singles[j := Stored];
    assert s2.tasks == SetSingle(s, i, j, Stored).tasks;
  }

  /** A chunk refused as a batch becomes one more busy one. */
  lemma OneMoreBusy(s: State, i: nat, t: Task)
    requires i < |s.tasks|
    ensures Sum(BusyFlag, s.tasks[i := t]) <= Sum(BusyFlag, s.tasks) + 1
    ensures Busy(s.tasks[i]) ==> Sum(BusyFlag, s.tasks[i := t]) <= Sum(BusyFlag, s.tasks)
  {
    SumUpdate(BusyFlag, s.tasks, i, t);
  }

  /** Open chunk `a`, unless it is open, and store its document `x`. */
  lemma StoreOne(c: Container, chunks: Chunks, s: State, a: nat, x: nat) returns (steps: seq<Step>)
    requires WellSized(chunks, s) && a < |chunks| && x < |chunks[a]| && s.free > 1
    requires HasTask(s, a, Pending) || (HasTask(s, a, InFallback) && HasSingle(s, a, x, Queued))
    ensures Legal(c, chunks, s, steps)
    ensures var end := Exec(c, chunks, s, steps);
            && end.log == s.log + [chunks[a][x]] && end.free >= s.free - 1
            && Sum(BusyFlag, end.tasks) <= Sum(BusyFlag, s.tasks) + 1
            && (forall i | 0 <= i < |s.tasks| && i != a :: end.tasks[i] == s.tasks[i])
            && HasTask(end, a, InFallback) && HasSingle(end, a, x, Stored)
            && (forall j: nat | j < |chunks[a]| && j != x :: HasTask(s, a, Pending) || HasSingle(s, a, j, Queued) ==>
                HasSingle(end, a, j, Queued))
  {
    var open := if HasTask(s, a, Pending) then [Start(a), BatchRefused(a)] else [];
    var write := [SingleStart(a, x), SingleStored(a, x)];
    if HasTask(s, a, Pending) {
      OpenFallback(c, chunks, s, a);
    }
    var s1 := Exec(c, chunks, s, open);
    OneMoreBusy(s, a, s1.tasks[a]);
    StoreSingle(c, chunks, s1, a, x);
    ExecAppend(c, chunks, s, open, write);
    steps := open + write;
    var end := Exec(c, chunks, s, steps);
    OneMoreBusy(s1, a, end.tasks[a]);
  }

  lemma StoreBatch(c: Container, chunks: Chunks, s: State, a: nat)
    requires WellSized(chunks, s) && HasTask(s, a, Pending) && s.free > 0
    ensures var steps := [Start(a), BatchStored(a)];
            && Legal(c, chunks, s, steps)
            && Exec(c, chunks, s, steps) ==
               s.(tasks := s.tasks[a := Task(Returned(|chunks[a]|), Repeat(Stored, |chunks[a]|))],
                  store := c.UpsertAll(s.store, chunks[a]), log := s.log + chunks[a])
  {
    var s1 := Next(c, chunks, s, Start(a));
    var s2 := Next(c, chunks, s1, BatchStored(a));
    assert [Start(a), BatchStored(a)][1..] == [BatchStored(a)] && [BatchStored(a)][1..] == [];
    assert Exec(c, chunks, s1, [BatchStored(a)]) == s2;
    assert s2.tasks == s.tasks[a := Task(Returned(|chunks[a]|), Repeat(Stored, |chunks[a]|))];
  }

  /** A waiting upsert of a chunk in fallback crashes. */
  lemma CrashSingle(c: Container, chunks: Chunks, s: State, a: nat, y: nat)
    requires WellSized(chunks, s) && HasTask(s, a, InFallback) && HasSingle(s, a, y, Queued) && s.free > 0
    ensures var steps := [SingleStart(a, y), SingleCrashed(a, y)];
            Legal(c, chunks, s, steps) && Exec(c, chunks, s, steps) == SetSingle(s, a, y, Crashed)
  {
    var s1 := Next(c, chunks, s, SingleStart(a, y));
    var s2 := Next(c, chunks, s1, SingleCrashed(a, y));
    assert [SingleStart(a, y), SingleCrashed(a, y)][1..] == [SingleCrashed(a, y)];
    assert [SingleCrashed(a, y)][1..] == [];
    assert Exec(c, chunks, s1, [SingleCrashed(a, y)]) == s2;
    var u := s.tasks[a];
    assert u.singles[y := Sending][y := Crashed] == u.singles[y := Crashed];
    assert s2.tasks == SetSingle(s, a, y, Crashed).tasks;
  }

  /** The batches of the first `n` chunks, but for `a`, have crashed. */
  function Crash(s: State, a: nat, n: nat): State
    requires n <= |s.tasks|
  {
    s.(tasks := seq(|s.tasks|, i requires 0 <= i < |s.tasks| =>
                  if i < n && i != a && s.tasks[i].phase.Pending? then s.tasks[i].(phase := Raised) else s.tasks[i]))
  }

  lemma CrashBatch(c: Container, chunks: Chunks, s: State, i: nat)
    requires WellSized(chunks, s) && HasTask(s, i, Pending) && s.free > 0
    ensures var steps := [Start(i), BatchCrashed(i)];
            Legal(c, chunks, s, steps) && Exec(c, chunks, s, steps) == SetPhase(s, i, Raised)
  {
    var s1 := Next(c, chunks, s, Start(i));
    var s2 := Next(c, chunks, s1, BatchCrashed(i));
    assert [Start(i), BatchCrashed(i)][1..] == [BatchCrashed(i)] && [BatchCrashed(i)][1..] == [];
    assert Exec(c, chunks, s1, [BatchCrashed(i)]) == s2;
    assert s2.tasks == SetPhase(s, i, Raised).tasks;
  }

  lemma {:induction false} RunCrashes(c: Container, chunks: Chunks, s: State, a: nat, n: nat) returns (steps: seq<Step>)
    requires WellSized(chunks, s) && n <= |s.tasks| && s.free > 0
    ensures Legal(c, chunks, s, steps) && Exec(c, chunks, s, steps) == Crash(s, a, n)
  {
    if n == 0 {
      steps := [];
      assert Crash(s, a, 0).tasks == s.tasks;
    } else {
      var first := RunCrashes(c, chunks, s, a, n - 1);
      var s1 := Crash(s, a, n - 1);
      if n - 1 != a && s.tasks[n - 1].phase.Pending? {
        CrashBatch(c, chunks, s1, n - 1);
        assert SetPhase(s1, n - 1, Raised).tasks == Crash(s, a, n).tasks;
        ExecAppend(c, chunks, s, first, [Start(n - 1), BatchCrashed(n - 1)]);
        steps := first + [Start(n - 1), BatchCrashed(n - 1)];
      } else {
        steps := first;
        assert s1.tasks == Crash(s, a, n).tasks;
      }
    }
  }

  // ---- Upserts left from an earlier flush ----

  lemma WithoutSending(s: State)
    requires Early(s) && forall i: nat, j: nat :: !HasSingle(s, i, j, Sending)
    ensures Sum(TaskPermits, s.tasks) == 0
  {
    forall t | t in s.tasks ensures TaskPermits(t) == 0 {
      var i: nat :| i < |s.tasks| && s.tasks[i] == t;
      if j: nat :| j < |t.singles| && t.singles[j] == Sending {
        assert HasSingle(s, i, j, Sending);
      }
      PermitsBySendings(t);
    }
    SumAllZero(TaskPermits, s.tasks);
  }

  /** Ending one upsert frees at most one permit. */
  lemma OneFreed(s: State, i: nat, j: nat)
    requires i < |s.tasks| && j < |s.tasks[i].singles|
    ensures Sum(TaskPermits, SetSingle(s, i, j, Refused).tasks) >= Sum(TaskPermits, s.tasks) - 1
  {
    SumUpdate(TaskPermits, s.tasks, i, s.tasks[i].(singles := s.tasks[i].singles[j := Refused]));
    SingleChange(s.tasks[i], j, Refused);
  }

  /** Two upserts hold at most two permits, so if more are held another one is under way. */
  lemma ThirdSending(s: State, i: nat, j: nat, k: nat, l: nat) returns (m: nat, n: nat)
    requires Early(s) && Sum(TaskPermits, s.tasks) > 2
    requires i < |s.tasks| && j < |s.tasks[i].singles| && k < |s.tasks| && l < |s.tasks[k].singles|
    ensures HasSingle(s, m, n, Sending) && (m != i || n != j) && (m != k || n != l)
  {
    if p: nat, q: nat :| HasSingle(s, p, q, Sending) && (p != i || q != j) && (p != k || q != l) {
      return p, q;
    }
    var s1 := SetSingle(s, i, j, Refused);
    var s2 := SetSingle(s1, k, l, Refused);
    OneFreed(s, i, j);
    OneFreed(s1, k, l);
    forall p: nat, q: nat ensures !HasSingle(s2, p, q, Sending) {
      assert HasSingle(s2, p, q, Sending) ==> HasSingle(s, p, q, Sending);
    }
    WithoutSending(s2);
    assert false;
  }

  /** Store, log, two upserts and the tasks not yet started are left alone. */
  predicate Spared(s: State, s1: State, i: nat, j: nat, k: nat, l: nat) {
    && s1.store == s.store && s1.log == s.log && |s1.tasks| == |s.tasks| && Early(s1)
    && (forall m | 0 <= m < |s.tasks| :: s1.tasks[m].phase == s.tasks[m].phase)
    && (forall m | 0 <= m < |s.tasks| && s.tasks[m].phase.Pending? :: s1.tasks[m] == s.tasks[m])
    && SameSingle(s, s1, i, j) && SameSingle(s, s1, k, l)
  }

  predicate SameSingle(s: State, s1: State, i: nat, j: nat) {
    && i < |s.tasks| && j < |s.tasks[i].singles| && i < |s1.tasks| && j < |s1.tasks[i].singles|
    && s1.tasks[i].singles[j] == s.tasks[i].singles[j]
  }

  /** Room for three more. */
  predicate Roomy(s: State, s1: State, i: nat, j: nat, k: nat, l: nat) {
    s1.free > 3 && Spared(s, s1, i, j, k, l)
  }

  lemma RefuseThird(c: Container, chunks: Chunks, s: State, i: nat, j: nat, k: nat, l: nat) returns (step: Step)
    requires WellSized(chunks, s) && Early(s) && Sum(TaskPermits, s.tasks) > 2
    requires forall t | t in s.tasks :: ShapeOk(t)
    requires i < |s.tasks| && j < |s.tasks[i].singles| && k < |s.tasks| && l < |s.tasks[k].singles|
    ensures Enabled(s, step) && Spared(s, Next(c, chunks, s, step), i, j, k, l)
  {
    var m, n := ThirdSending(s, i, j, k, l);
    assert s.tasks[m].singles[n] in s.tasks[m].singles && s.tasks[m] in s.tasks;
    step := SingleRefused(m, n);
  }

  /** Before anything of a flush starts, permits can be freed without touching two given upserts. */
  lemma {:induction false} MakeRoom(c: Container, chunks: Chunks, store0: Store, s: State, i: nat, j: nat, k: nat,
                                    l: nat)
    returns (steps: seq<Step>)
    requires Inv(c, chunks, store0, s) && LogOk(chunks, s) && Early(s)
    requires i < |s.tasks| && j < |s.tasks[i].singles| && k < |s.tasks| && l < |s.tasks[k].singles|
    ensures Legal(c, chunks, s, steps) && Roomy(s, Exec(c, chunks, s, steps), i, j, k, l)
    decreases TotalRank(s)
  {
    if s.free > 3 {
      steps := [];
    } else {
      var step := RefuseThird(c, chunks, s, i, j, k, l);
      var s1 := Next(c, chunks, s, step);
      StepDecreases(c, chunks, store0, s, step);
      RankNonNegative(s1);
      StepKeepsInv(c, chunks, store0, s, step);
      var rest := MakeRoom(c, chunks, store0, s1, i, j, k, l);
      steps := [step] + rest;
      ExecOneMore(c, chunks, s, step, s1, rest);
    }
  }

  lemma ExecOneMore(c: Container, chunks: Chunks, s: State, step: Step, s1: State, rest: seq<Step>)
    requires WellSized(chunks, s) && Enabled(s, step) && s1 == Next(c, chunks, s, step)
    requires WellSized(chunks, s1) && Legal(c, chunks, s1, rest)
    ensures Legal(c, chunks, s, [step] + rest)
    ensures Exec(c, chunks, s, [step] + rest) == Exec(c, chunks, s1, rest)
  {
    assert ([step] + rest)[0] == step && ([step] + rest)[1..] == rest;
  }

  /** An upsert that waits or is under way goes through. */
  lemma LandSingle(c: Container, chunks: Chunks, s: State, i: nat, j: nat) returns (steps: seq<Step>)
    requires WellSized(chunks, s) && s.free > 0 && (HasSingle(s, i, j, Queued) || HasSingle(s, i, j, Sending))
    ensures Legal(c, chunks, s, steps)
    ensures var end := Exec(c, chunks, s, steps);
            && end.log == s.log + [chunks[i][j]] && end.store == c.Upsert(s.store, chunks[i][j])
            && end.tasks == SetSingle(s, i, j, Stored).tasks && end.free >= s.free
  {
    if HasSingle(s, i, j, Queued) {
      StoreSingle(c, chunks, s, i, j);
      steps := [SingleStart(i, j), SingleStored(i, j)];
    } else {
      steps := [SingleStored(i, j)];
      assert steps[1..] == [];
      assert Exec(c, chunks, s, steps) == Next(c, chunks, s, steps[0]);
    }
  }

  lemma NothingBusy(s: State)
    requires Early(s)
    ensures Sum(BusyFlag, s.tasks) == 0
  {
    SumAllZero(BusyFlag, s.tasks);
  }
}
