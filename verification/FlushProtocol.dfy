/** The concurrent flush of the batch writer as a step system: one task per chunk and one per document
    of a chunk in fallback, all taking permits from one semaphore. Any interleaving is a run. */
module FlushProtocol {
  import opened Sequences
  import opened Documents

  /** `_BATCH_CONCURRENCY`. */
  const PERMITS := 25

  /** One document of a chunk. `Stored` also marks the documents of a batch that went through. */
  datatype Single = Idle | Queued | Sending | Stored | Refused | Crashed

  /** One `_execute_batch` task. `InFallback` still holds the permit taken for the batch. */
  datatype Phase = Pending | InBatch | InFallback | Returned(written: nat) | Raised

  datatype Task = Task(phase: Phase, singles: seq<Single>)

  datatype State = State(free: int, tasks: seq<Task>, store: Store, log: seq<Doc>)

  /** `*Refused` steps are Cosmos response errors, `*Crashed` steps any other exception. */
  datatype Step =
    | Start(i: nat)
    | BatchStored(i: nat)
    | BatchRefused(i: nat)
    | BatchCrashed(i: nat)
    | SingleStart(i: nat, j: nat)
    | SingleStored(i: nat, j: nat)
    | SingleRefused(i: nat, j: nat)
    | SingleCrashed(i: nat, j: nat)
    | Finish(i: nat)
    | Raise(i: nat)

  type Chunks = seq<seq<Doc>>

  function Init(chunks: Chunks, store: Store): State {
    State(PERMITS, seq(|chunks|, i requires 0 <= i < |chunks| => Fresh(|chunks[i]|)), store, [])
  }

  function Fresh(n: nat): Task {
    Task(Pending, Repeat(Idle, n))
  }

  function Repeat(x: Single, n: nat): seq<Single> {
    seq(n, i => x)
  }

  predicate Settled(x: Single) {
    x.Stored? || x.Refused?
  }

  function One(x: Single): int {
    if x.Stored? then 1 else 0
  }

  function StoredCount(t: Task): int {
    Sum(One, t.singles)
  }

  predicate HasTask(s: State, i: nat, p: Phase) {
    i < |s.tasks| && s.tasks[i].phase == p
  }

  predicate HasSingle(s: State, i: nat, j: nat, x: Single) {
    i < |s.tasks| && j < |s.tasks[i].singles| && s.tasks[i].singles[j] == x
  }

  predicate Enabled(s: State, step: Step) {
    match step
    case Start(i) => s.free > 0 && HasTask(s, i, Pending)
    case BatchStored(i) => HasTask(s, i, InBatch)
    case BatchRefused(i) => HasTask(s, i, InBatch)
    case BatchCrashed(i) => HasTask(s, i, InBatch)
    case SingleStart(i, j) => s.free > 0 && HasSingle(s, i, j, Queued)
    case SingleStored(i, j) => HasSingle(s, i, j, Sending)
    case SingleRefused(i, j) => HasSingle(s, i, j, Sending)
    case SingleCrashed(i, j) => HasSingle(s, i, j, Sending)
    case Finish(i) => HasTask(s, i, InFallback) && forall x | x in s.tasks[i].singles :: Settled(x)
    case Raise(i) => HasTask(s, i, InFallback) && Crashed in s.tasks[i].singles
  }

  function SetPhase(s: State, i: nat, p: Phase): State
    requires i < |s.tasks|
  {
    s.(tasks := s.tasks[i := s.tasks[i].(phase := p)])
  }

  function SetSingle(s: State, i: nat, j: nat, x: Single): State
    requires i < |s.tasks| && j < |s.tasks[i].singles|
  {
    s.(tasks := s.tasks[i := s.tasks[i].(singles := s.tasks[i].singles[j := x])])
  }

  function Next(c: Container, chunks: Chunks, s: State, step: Step): State
    requires WellSized(chunks, s) && Enabled(s, step)
  {
    match step
    case Start(i) => SetPhase(s, i, InBatch).(free := s.free - 1)
    case BatchStored(i) =>
      var n := |chunks[i]|;
      s.(free := s.free + 1,
         tasks := s.tasks[i := Task(Returned(n), Repeat(Stored, n))],
         store := c.UpsertAll(s.store, chunks[i]),
         log := s.log + chunks[i])
    case BatchRefused(i) => s.(tasks := s.tasks[i := Task(InFallback, Repeat(Queued, |chunks[i]|))])
    case BatchCrashed(i) => SetPhase(s, i, Raised).(free := s.free + 1)
    case SingleStart(i, j) => SetSingle(s, i, j, Sending).(free := s.free - 1)
    case SingleStored(i, j) =>
      SetSingle(s, i, j, Stored).(free := s.free + 1,
                                  store := c.Upsert(s.store, chunks[i][j]),
                                  log := s.log + [chunks[i][j]])
    case SingleRefused(i, j) => SetSingle(s, i, j, Refused).(free := s.free + 1)
    case SingleCrashed(i, j) => SetSingle(s, i, j, Crashed).(free := s.free + 1)
    case Finish(i) =>
      SumBounds(One, s.tasks[i].singles, 0, 1);
      SetPhase(s, i, Returned(StoredCount(s.tasks[i]))).(free := s.free + 1)
    case Raise(i) => SetPhase(s, i, Raised).(free := s.free + 1)
  }

  predicate WellSized(chunks: Chunks, s: State) {
    && |s.tasks| == |chunks|
    && forall i | 0 <= i < |chunks| :: |s.tasks[i].singles| == |chunks[i]|
  }

  predicate Legal(c: Container, chunks: Chunks, s: State, steps: seq<Step>)
    requires WellSized(chunks, s)
    decreases |steps|
  {
    steps == [] ||
    (Enabled(s, steps[0]) && Legal(c, chunks, Next(c, chunks, s, steps[0]), steps[1..]))
  }

  function Exec(c: Container, chunks: Chunks, s: State, steps: seq<Step>): (r: State)
    requires WellSized(chunks, s) && Legal(c, chunks, s, steps)
    ensures WellSized(chunks, r)
    decreases |steps|
  {
    if steps == [] then s else Exec(c, chunks, Next(c, chunks, s, steps[0]), steps[1..])
  }

  /** The run begins with a step to `s1` and goes on with `rest`. */
  ghost predicate Goes(c: Container, chunks: Chunks, s: State, steps: seq<Step>, s1: State, rest: seq<Step>) {
    && steps != [] && rest == steps[1..] && WellSized(chunks, s) && WellSized(chunks, s1)
    && Enabled(s, steps[0]) && s1 == Next(c, chunks, s, steps[0])
  }

  lemma FirstStep(c: Container, chunks: Chunks, s: State, steps: seq<Step>, end: State)
    returns (s1: State, rest: seq<Step>)
    requires WellSized(chunks, s) && steps != [] && Legal(c, chunks, s, steps) && end == Exec(c, chunks, s, steps)
    ensures Goes(c, chunks, s, steps, s1, rest) && Legal(c, chunks, s1, rest) && end == Exec(c, chunks, s1, rest)
  {
    s1, rest := Next(c, chunks, s, steps[0]), steps[1..];
  }

  lemma StepBefore(c: Container, chunks: Chunks, s: State, steps: seq<Step>, s1: State, rest: seq<Step>, end: State)
    requires Goes(c, chunks, s, steps, s1, rest) && Legal(c, chunks, s1, rest) && end == Exec(c, chunks, s1, rest)
    ensures Legal(c, chunks, s, steps) && end == Exec(c, chunks, s, steps)
  {
  }

  lemma GoesOn(c: Container, chunks: Chunks, s: State, a: seq<Step>, b: seq<Step>, s1: State, rest: seq<Step>)
    requires Goes(c, chunks, s, a, s1, rest)
    ensures Goes(c, chunks, s, a + b, s1, rest + b)
  {
    assert (a + b)[0] == a[0] && (a + b)[1..] == a[1..] + b;
  }

  lemma {:induction false} ExecOnward(c: Container, chunks: Chunks, s: State, a: seq<Step>, mid: State, b: seq<Step>,
                                      end: State)
    requires WellSized(chunks, s) && Legal(c, chunks, s, a) && mid == Exec(c, chunks, s, a)
    requires Legal(c, chunks, mid, b) && end == Exec(c, chunks, mid, b)
    ensures Legal(c, chunks, s, a + b) && end == Exec(c, chunks, s, a + b)
    decreases |a|
  {
    if a == [] {
      assert a + b == b;
    } else {
      var s1, rest := FirstStep(c, chunks, s, a, mid);
      ExecOnward(c, chunks, s1, rest, mid, b, end);
      GoesOn(c, chunks, s, a, b, s1, rest);
      StepBefore(c, chunks, s, a + b, s1, rest + b, end);
    }
  }

  lemma ExecAppend(c: Container, chunks: Chunks, s: State, a: seq<Step>, b: seq<Step>)
    requires WellSized(chunks, s) && Legal(c, chunks, s, a)
    requires Legal(c, chunks, Exec(c, chunks, s, a), b)
    ensures Legal(c, chunks, s, a + b)
    ensures Exec(c, chunks, s, a + b) == Exec(c, chunks, Exec(c, chunks, s, a), b)
  {
    var mid := Exec(c, chunks, s, a);
    ExecOnward(c, chunks, s, a, mid, b, Exec(c, chunks, mid, b));
  }

  // ---- What every step keeps ----

  function SinglePermit(x: Single): int {
    if x.Sending? then 1 else 0
  }

  /** Permits a chunk's task and its single upserts hold. */
  function TaskPermits(t: Task): int {
    (if t.phase.InBatch? || t.phase.InFallback? then 1 else 0) + Sum(SinglePermit, t.singles)
  }

  predicate ShapeOk(t: Task) {
    match t.phase
    case Pending => forall x | x in t.singles :: x == Idle
    case InBatch => forall x | x in t.singles :: x == Idle
    case InFallback => Idle !in t.singles
    case Returned(n) => (forall x | x in t.singles :: Settled(x)) && n == StoredCount(t)
    case Raised => (forall x | x in t.singles :: x == Idle) || (Idle !in t.singles && Crashed in t.singles)
  }

  ghost predicate IsStored(chunks: Chunks, s: State, d: Doc)
    requires WellSized(chunks, s)
  {
    exists i: nat, j: nat :: HasSingle(s, i, j, Stored) && chunks[i][j] == d
  }

  ghost predicate Inv(c: Container, chunks: Chunks, store0: Store, s: State) {
    && WellSized(chunks, s)
    && s.free >= 0
    && s.free + Sum(TaskPermits, s.tasks) == PERMITS
    && (forall i | 0 <= i < |s.tasks| :: ShapeOk(s.tasks[i]))
    && s.store == c.UpsertAll(store0, s.log)
    && |s.log| == Sum(StoredCount, s.tasks)
  }

  /** The acknowledged documents are exactly those marked stored. */
  ghost predicate LogOk(chunks: Chunks, s: State) {
    WellSized(chunks, s) && forall d :: d in s.log <==> IsStored(chunks, s, d)
  }

  lemma {:induction false} SumRepeat(f: Single -> int, x: Single, n: nat)
    ensures Sum(f, Repeat(x, n)) == n * f(x)
  {
    if n > 0 {
      assert Repeat(x, n)[1..] == Repeat(x, n - 1);
      SumRepeat(f, x, n - 1);
      assert n * f(x) == f(x) + (n - 1) * f(x);
    }
  }

  lemma {:induction false} SumConstant(f: Single -> int, x: Single, s: seq<Single>)
    requires forall y | y in s :: y == x
    ensures Sum(f, s) == |s| * f(x)
  {
    assert forall i | 0 <= i < |s| :: s[i] in s;
    assert s == Repeat(x, |s|);
    SumRepeat(f, x, |s|);
  }

  lemma {:induction false} SumAllZero<T>(f: T -> int, s: seq<T>)
    requires forall x | x in s :: f(x) == 0
    ensures Sum(f, s) == 0
  {
    if s != [] {
      SumAllZero(f, s[1..]);
    }
  }

  lemma InitInv(c: Container, chunks: Chunks, store0: Store)
    ensures Inv(c, chunks, store0, Init(chunks, store0))
  {
    var s := Init(chunks, store0);
    forall i | 0 <= i < |chunks| ensures TaskPermits(s.tasks[i]) == 0 && StoredCount(s.tasks[i]) == 0 {
      SumRepeat(SinglePermit, Idle, |chunks[i]|);
      SumRepeat(One, Idle, |chunks[i]|);
    }
    SumAllZero(TaskPermits, s.tasks);
    SumAllZero(StoredCount, s.tasks);
  }

  lemma InitLog(chunks: Chunks, store0: Store)
    ensures LogOk(chunks, Init(chunks, store0))
  {
  }

  /** A step touches one task; `added` are the documents it acknowledges. */
  lemma {:induction false} ChangeTask(c: Container, chunks: Chunks, store0: Store, s: State, s': State,
                   i: nat, t: Task, added: seq<Doc>)
    requires Inv(c, chunks, store0, s) && i < |s.tasks|
    requires s'.tasks == s.tasks[i := t]
    requires s'.store == c.UpsertAll(s.store, added) && s'.log == s.log + added
    requires |t.singles| == |chunks[i]| && ShapeOk(t)
    requires s'.free >= 0 && s'.free + TaskPermits(t) == s.free + TaskPermits(s.tasks[i])
    requires StoredCount(t) == StoredCount(s.tasks[i]) + |added|
    ensures Inv(c, chunks, store0, s')
  {
    SumUpdate(TaskPermits, s.tasks, i, t);
    SumUpdate(StoredCount, s.tasks, i, t);
    c.UpsertAllAppend(store0, s.log, added);
  }

  lemma ChangeLog(chunks: Chunks, s: State, s': State, i: nat, t: Task, added: seq<Doc>)
    requires LogOk(chunks, s) && i < |s.tasks|
    requires s'.tasks == s.tasks[i := t] && s'.log == s.log + added
    requires |t.singles| == |chunks[i]|
    requires forall j | 0 <= j < |t.singles| :: s.tasks[i].singles[j].Stored? ==> t.singles[j].Stored?
    requires forall j | 0 <= j < |t.singles| ::
               t.singles[j].Stored? ==> s.tasks[i].singles[j].Stored? || chunks[i][j] in added
    requires forall d | d in added :: exists j: nat :: HasSingle(s', i, j, Stored) && chunks[i][j] == d
    ensures LogOk(chunks, s')
  {
    forall d ensures d in s'.log <==> IsStored(chunks, s', d) {
      if d in s.log {
        var i0: nat, j0: nat :| HasSingle(s, i0, j0, Stored) && chunks[i0][j0] == d;
        assert HasSingle(s', i0, j0, Stored);
      } else if d in added {
        var j: nat :| HasSingle(s', i, j, Stored) && chunks[i][j] == d;
      }
      if IsStored(chunks, s', d) {
        var i0: nat, j0: nat :| HasSingle(s', i0, j0, Stored) && chunks[i0][j0] == d;
        if i0 != i || s.tasks[i].singles[j0].Stored? {
          assert HasSingle(s, i0, j0, Stored);
          assert IsStored(chunks, s, d);
        }
      }
    }
  }

  lemma SingleChange(t: Task, j: nat, x: Single)
    requires j < |t.singles|
    ensures var u := t.(singles := t.singles[j := x]);
            && TaskPermits(u) == TaskPermits(t) - SinglePermit(t.singles[j]) + SinglePermit(x)
            && StoredCount(u) == StoredCount(t) - One(t.singles[j]) + One(x)
  {
    SumUpdate(SinglePermit, t.singles, j, x);
    SumUpdate(One, t.singles, j, x);
  }

  lemma StepOnTask(c: Container, chunks: Chunks, store0: Store, s: State, step: Step)
    requires Inv(c, chunks, store0, s) && Enabled(s, step)
    requires step.Start? || step.BatchStored? || step.BatchRefused? || step.BatchCrashed? || step.Finish? || step.Raise?
    ensures Inv(c, chunks, store0, Next(c, chunks, s, step))
  {
    var s' := Next(c, chunks, s, step);
    var i := step.i;
    var t, t' := s.tasks[i], s'.tasks[i];
    SumBounds(One, t.singles, 0, 1);
    if step.BatchStored? || step.BatchRefused? {
      SumConstant(SinglePermit, Idle, t.singles);
      SumConstant(One, Idle, t.singles);
      SumRepeat(SinglePermit, if step.BatchStored? then Stored else Queued, |chunks[i]|);
      SumRepeat(One, if step.BatchStored? then Stored else Queued, |chunks[i]|);
    }
    var added := if step.BatchStored? then chunks[i] else [];
    assert s'.log == s.log + added;
    ChangeTask(c, chunks, store0, s, s', i, t', added);
  }

  lemma StepOnSingle(c: Container, chunks: Chunks, store0: Store, s: State, step: Step)
    requires Inv(c, chunks, store0, s) && Enabled(s, step)
    requires step.SingleStart? || step.SingleStored? || step.SingleRefused? || step.SingleCrashed?
    ensures Inv(c, chunks, store0, Next(c, chunks, s, step))
  {
    var s' := Next(c, chunks, s, step);
    var i, j := step.i, step.j;
    var t, t' := s.tasks[i], s'.tasks[i];
    assert t.singles[j] in t.singles;
    SingleChange(t, j, t'.singles[j]);
    assert t' == t.(singles := t.singles[j := t'.singles[j]]);
    assert ShapeOk(t') by {
      assert t'.phase.InFallback? || t'.phase.Raised?;
      if t.phase.Raised? {
        var k: nat :| k < |t.singles| && t.singles[k] == Crashed;
        assert t'.singles[k] == Crashed;
      }
    }
    var added := if step.SingleStored? then [chunks[i][j]] else [];
    assert s'.log == s.log + added;
    assert s'.store == c.UpsertAll(s.store, added) by {
      assert [chunks[i][j]][1..] == [];
    }
    ChangeTask(c, chunks, store0, s, s', i, t', added);
  }

  lemma StepLog(c: Container, chunks: Chunks, s: State, step: Step)
    requires LogOk(chunks, s) && Enabled(s, step)
    requires forall t | t in s.tasks :: ShapeOk(t)
    ensures LogOk(chunks, Next(c, chunks, s, step))
  {
    var s' := Next(c, chunks, s, step);
    var i := step.i;
    assert s.tasks[i] in s.tasks;
    var added := match step
      case BatchStored(_) => chunks[i]
      case SingleStored(_, j) => [chunks[i][j]]
      case _ => [];
    assert s'.log == s.log + added;
    forall d | d in added ensures exists j: nat :: HasSingle(s', i, j, Stored) && chunks[i][j] == d {
      var j: nat :| j < |chunks[i]| && chunks[i][j] == d && (step.SingleStored? ==> j == step.j);
      assert HasSingle(s', i, j, Stored);
    }
    forall j | 0 <= j < |chunks[i]| && s.tasks[i].singles[j].Stored? ensures s'.tasks[i].singles[j].Stored? {
      assert s.tasks[i].singles[j] in s.tasks[i].singles;
    }
    ChangeLog(chunks, s, s', i, s'.tasks[i], added);
  }

  lemma StepKeepsInv(c: Container, chunks: Chunks, store0: Store, s: State, step: Step)
    requires Inv(c, chunks, store0, s) && LogOk(chunks, s) && Enabled(s, step)
    ensures Inv(c, chunks, store0, Next(c, chunks, s, step))
    ensures LogOk(chunks, Next(c, chunks, s, step))
  {
    if step.SingleStart? || step.SingleStored? || step.SingleRefused? || step.SingleCrashed? {
      StepOnSingle(c, chunks, store0, s, step);
    } else {
      StepOnTask(c, chunks, store0, s, step);
    }
    StepLog(c, chunks, s, step);
  }

  /** Under every schedule and every pattern of failures, the permits in the semaphore and the permits
      held add up to 25, and the store is what the acknowledged documents leave, in their order. */
  lemma {:induction false} RunKeepsInv(c: Container, chunks: Chunks, store0: Store, s: State, steps: seq<Step>)
    requires Inv(c, chunks, store0, s) && LogOk(chunks, s) && Legal(c, chunks, s, steps)
    ensures Inv(c, chunks, store0, Exec(c, chunks, s, steps))
    ensures LogOk(chunks, Exec(c, chunks, s, steps))
    decreases |steps|
  {
    if steps != [] {
      StepKeepsInv(c, chunks, store0, s, steps[0]);
      RunKeepsInv(c, chunks, store0, Next(c, chunks, s, steps[0]), steps[1..]);
    }
  }

  lemma ReachableInv(c: Container, chunks: Chunks, store0: Store, steps: seq<Step>)
    requires Legal(c, chunks, Init(chunks, store0), steps)
    ensures Inv(c, chunks, store0, Exec(c, chunks, Init(chunks, store0), steps))
    ensures LogOk(chunks, Exec(c, chunks, Init(chunks, store0), steps))
  {
    InitInv(c, chunks, store0);
    InitLog(chunks, store0);
    RunKeepsInv(c, chunks, store0, Init(chunks, store0), steps);
  }

  // ---- A flush beside what an earlier flush left running ----

  /** A task that raised while upserts of its chunk waited or were under way. */
  predicate Orphan(t: Task) {
    t.phase.Raised? && ShapeOk(t) && Stored !in t.singles
  }

  /** `orphans` are left of the chunks `rest`, and the semaphore has `free` permits beside theirs. */
  predicate Orphans(rest: Chunks, orphans: seq<Task>, free: int) {
    && |orphans| == |rest|
    && (forall i | 0 <= i < |rest| :: |orphans[i].singles| == |rest[i]|)
    && (forall t | t in orphans :: Orphan(t))
    && free >= 0 && free + Sum(TaskPermits, orphans) == PERMITS
  }

  /** A flush of `chunks` begins: its tasks join the orphans in the event loop. */
  function Begin(chunks: Chunks, orphans: seq<Task>, free: int, store: Store): State {
    State(free, Init(chunks, store).tasks + orphans, store, [])
  }

  lemma BeginFirst(chunks: Chunks, store: Store)
    ensures Begin(chunks, [], PERMITS, store) == Init(chunks, store) && chunks + [] == chunks
  {
    assert Init(chunks, store).tasks + [] == Init(chunks, store).tasks;
  }

  lemma BeginInv(c: Container, chunks: Chunks, rest: Chunks, orphans: seq<Task>, free: int, store0: Store)
    requires Orphans(rest, orphans, free)
    ensures Inv(c, chunks + rest, store0, Begin(chunks, orphans, free, store0))
    ensures LogOk(chunks + rest, Begin(chunks, orphans, free, store0))
  {
    var s, s0 := Begin(chunks, orphans, free, store0), Init(chunks, store0);
    InitInv(c, chunks, store0);
    forall t | t in orphans ensures StoredCount(t) == 0 {
      SumAllZero(One, t.singles);
    }
    SumAllZero(StoredCount, orphans);
    SumAppend(TaskPermits, s0.tasks, orphans);
    SumAppend(StoredCount, s0.tasks, orphans);
    forall i | 0 <= i < |s.tasks| ensures ShapeOk(s.tasks[i]) && Stored !in s.tasks[i].singles {
      if i < |chunks| {
        assert s.tasks[i] == s0.tasks[i];
      } else {
        assert s.tasks[i] == orphans[i - |chunks|] && orphans[i - |chunks|] in orphans;
      }
    }
    assert c.UpsertAll(store0, []) == store0;
  }

  /** The tasks from the `n`-th on have raised. */
  predicate RaisedFrom(s: State, n: nat) {
    forall i | n <= i < |s.tasks| :: s.tasks[i].phase.Raised?
  }

  lemma {:induction false} RaisedStay(c: Container, chunks: Chunks, s: State, steps: seq<Step>, n: nat)
    requires WellSized(chunks, s) && Legal(c, chunks, s, steps) && RaisedFrom(s, n)
    ensures RaisedFrom(Exec(c, chunks, s, steps), n)
    decreases |steps|
  {
    if steps != [] {
      RaisedStay(c, chunks, Next(c, chunks, s, steps[0]), steps[1..], n);
    }
  }
}
