/** When a flush can hang, and why it ends otherwise. */
module FlushLiveness {
  import opened Sequences
  import opened Documents
  import opened FlushProtocol

  predicate Done(t: Task) {
    t.phase.Returned? || t.phase.Raised?
  }

  /** Every chunk task has ended: `flush` returns. */
  predicate AllDone(s: State) {
    forall t | t in s.tasks :: Done(t)
  }

  /** Nothing is left running, not even upserts orphaned by a raised chunk. */
  predicate AllSettled(s: State) {
    AllDone(s) && forall t | t in s.tasks :: Queued !in t.singles && Sending !in t.singles
  }

  ghost predicate Stuck(s: State) {
    !AllSettled(s) && forall step: Step :: !Enabled(s, step)
  }

  /** A chunk in fallback whose upserts all wait for a permit or have ended, and which cannot end. */
  predicate Blocked(t: Task) {
    t.phase.InFallback? && Crashed !in t.singles && Sending !in t.singles && Queued in t.singles
  }

  function BlockedFlag(t: Task): int {
    if Blocked(t) then 1 else 0
  }

  predicate NonemptyChunks(chunks: Chunks) {
    forall chunk | chunk in chunks :: chunk != []
  }

  lemma {:induction false} PermitsBySendings(t: Task)
    ensures Sum(SinglePermit, t.singles) >= 0
    ensures Sum(SinglePermit, t.singles) == 0 <==> Sending !in t.singles
    ensures TaskPermits(t) >= 0
  {
    SumPointwise(ZeroSingle, SinglePermit, t.singles);
    SumAllZero(ZeroSingle, t.singles);
    assert Sending in t.singles ==> exists j | 0 <= j < |t.singles| :: t.singles[j] == Sending;
    assert forall j | 0 <= j < |t.singles| :: t.singles[j] in t.singles;
  }

  function ZeroSingle(x: Single): int {
    0
  }

  lemma PermitsBound(s: State)
    ensures forall i | 0 <= i < |s.tasks| :: BlockedFlag(s.tasks[i]) <= TaskPermits(s.tasks[i])
    ensures Sum(BlockedFlag, s.tasks) <= Sum(TaskPermits, s.tasks)
  {
    forall i | 0 <= i < |s.tasks| ensures BlockedFlag(s.tasks[i]) <= TaskPermits(s.tasks[i]) {
      PermitsBySendings(s.tasks[i]);
    }
    SumPointwise(BlockedFlag, TaskPermits, s.tasks);
  }

  /** The shape of a task none of whose own steps is enabled. */
  lemma NoOwnStep(s: State, i: nat)
    requires i < |s.tasks| && ShapeOk(s.tasks[i])
    requires forall step: Step :: !Enabled(s, step)
    ensures !s.tasks[i].phase.InBatch? && Sending !in s.tasks[i].singles
    ensures s.tasks[i].phase.InFallback? ==> Blocked(s.tasks[i])
    ensures s.free > 0 ==> !s.tasks[i].phase.Pending? && Queued !in s.tasks[i].singles
    ensures TaskPermits(s.tasks[i]) == BlockedFlag(s.tasks[i])
  {
    var t := s.tasks[i];
    assert !Enabled(s, BatchStored(i)) && !Enabled(s, Finish(i)) && !Enabled(s, Raise(i)) && !Enabled(s, Start(i));
    if Sending in t.singles {
      var j: nat :| j < |t.singles| && t.singles[j] == Sending;
      assert Enabled(s, SingleStored(i, j));
    }
    if s.free > 0 && Queued in t.singles {
      var j: nat :| j < |t.singles| && t.singles[j] == Queued;
      assert Enabled(s, SingleStart(i, j));
    }
    PermitsBySendings(t);
  }

  /** In every reachable state: the flush is stuck exactly when 25 chunks in fallback hold all the permits
      and each of them waits for a permit. */
  lemma StuckExactly(c: Container, chunks: Chunks, store0: Store, s: State)
    requires Inv(c, chunks, store0, s)
    ensures Stuck(s) <==> Sum(BlockedFlag, s.tasks) == PERMITS
  {
    PermitsBound(s);
    if Stuck(s) {
      forall i | 0 <= i < |s.tasks| ensures TaskPermits(s.tasks[i]) == BlockedFlag(s.tasks[i]) {
        NoOwnStep(s, i);
      }
      SumPointwise(BlockedFlag, TaskPermits, s.tasks);
      if s.free > 0 {
        forall t | t in s.tasks ensures Done(t) && Queued !in t.singles && Sending !in t.singles {
          var i: nat :| i < |s.tasks| && s.tasks[i] == t;
          NoOwnStep(s, i);
        }
        assert AllSettled(s);
      }
    }
    if Sum(BlockedFlag, s.tasks) == PERMITS {
      SumPointwise(BlockedFlag, TaskPermits, s.tasks);
      forall step: Step ensures !Enabled(s, step) {
        if step.i < |s.tasks| {
          var t := s.tasks[step.i];
          assert TaskPermits(t) == BlockedFlag(t);
          PermitsBySendings(t);
        }
      }
      if AllSettled(s) {
        assert forall t | t in s.tasks :: BlockedFlag(t) == 0;
        SumAllZero(BlockedFlag, s.tasks);
      }
    }
  }

  /** Raised tasks wait for nothing, so only the chunks of this flush can block. */
  lemma FewChunksNeverStuck(c: Container, chunks: Chunks, store0: Store, s: State, n: nat)
    requires Inv(c, chunks, store0, s) && n <= |chunks| && n < PERMITS && RaisedFrom(s, n)
    ensures !Stuck(s)
  {
    StuckExactly(c, chunks, store0, s);
    assert s.tasks == s.tasks[..n] + s.tasks[n..];
    SumAppend(BlockedFlag, s.tasks[..n], s.tasks[n..]);
    SumBounds(BlockedFlag, s.tasks[..n], 0, 1);
    SumBounds(BlockedFlag, s.tasks[n..], 0, 0);
  }

  // ---- The schedule that hangs: the first 25 batches are sent, then all are refused ----

  function Starts(n: nat): seq<Step> {
    seq(n, i requires 0 <= i < n => Start(i))
  }

  function Refusals(n: nat): seq<Step> {
    seq(n, i requires 0 <= i < n => BatchRefused(i))
  }

  function Started(s: State, n: nat): State
    requires n <= |s.tasks|
  {
    s.(free := s.free - n,
       tasks := seq(|s.tasks|, i requires 0 <= i < |s.tasks| =>
                  if i < n then s.tasks[i].(phase := InBatch) else s.tasks[i]))
  }

  function Refuse(t: Task): Task {
    Task(InFallback, Repeat(Queued, |t.singles|))
  }

  function RefusedUpTo(s: State, n: nat): State
    requires n <= |s.tasks|
  {
    s.(tasks := seq(|s.tasks|, i requires 0 <= i < |s.tasks| => if i < n then Refuse(s.tasks[i]) else s.tasks[i]))
  }

  lemma {:induction false} RunStarts(c: Container, chunks: Chunks, s: State, n: nat)
    requires WellSized(chunks, s) && n <= |chunks| && n <= s.free
    requires forall i | 0 <= i < n :: s.tasks[i].phase.Pending?
    ensures Legal(c, chunks, s, Starts(n)) && Exec(c, chunks, s, Starts(n)) == Started(s, n)
  {
    if n == 0 {
      assert Started(s, 0).tasks == s.tasks;
    } else {
      RunStarts(c, chunks, s, n - 1);
      var mid := Started(s, n - 1);
      assert Starts(n) == Starts(n - 1) + [Start(n - 1)];
      assert [Start(n - 1)][1..] == [];
      ghost var next := Next(c, chunks, mid, Start(n - 1));
      assert next.tasks == Started(s, n).tasks;
      assert Exec(c, chunks, mid, [Start(n - 1)]) == next;
      ExecAppend(c, chunks, s, Starts(n - 1), [Start(n - 1)]);
    }
  }

  lemma {:induction false} RunRefusals(c: Container, chunks: Chunks, s: State, n: nat)
    requires WellSized(chunks, s) && n <= |chunks|
    requires forall i | 0 <= i < n :: s.tasks[i].phase.InBatch?
    ensures Legal(c, chunks, s, Refusals(n)) && Exec(c, chunks, s, Refusals(n)) == RefusedUpTo(s, n)
  {
    if n == 0 {
      assert RefusedUpTo(s, 0).tasks == s.tasks;
    } else {
      RunRefusals(c, chunks, s, n - 1);
      var mid := RefusedUpTo(s, n - 1);
      assert Refusals(n) == Refusals(n - 1) + [BatchRefused(n - 1)];
      assert [BatchRefused(n - 1)][1..] == [];
      ghost var next := Next(c, chunks, mid, BatchRefused(n - 1));
      assert next.tasks == RefusedUpTo(s, n).tasks;
      assert Exec(c, chunks, mid, [BatchRefused(n - 1)]) == next;
      ExecAppend(c, chunks, s, Refusals(n - 1), [BatchRefused(n - 1)]);
    }
  }

  lemma FirstBlocked(s: State)
    requires |s.tasks| >= PERMITS
    requires forall i | 0 <= i < PERMITS :: Blocked(s.tasks[i])
    requires Sum(TaskPermits, s.tasks) <= PERMITS
    ensures Sum(BlockedFlag, s.tasks) == PERMITS
  {
    assert s.tasks == s.tasks[..PERMITS] + s.tasks[PERMITS..];
    SumAppend(BlockedFlag, s.tasks[..PERMITS], s.tasks[PERMITS..]);
    SumBounds(BlockedFlag, s.tasks[..PERMITS], 1, 1);
    SumBounds(BlockedFlag, s.tasks[PERMITS..], 0, 1);
    PermitsBound(s);
  }

  lemma RefusedAreBlocked(chunks: Chunks, s: State)
    requires WellSized(chunks, s) && |chunks| >= PERMITS
    requires forall i | 0 <= i < PERMITS :: chunks[i] != []
    ensures var end := RefusedUpTo(Started(s, PERMITS), PERMITS);
            forall i | 0 <= i < PERMITS :: Blocked(end.tasks[i])
  {
    var end := RefusedUpTo(Started(s, PERMITS), PERMITS);
    forall i | 0 <= i < PERMITS ensures Blocked(end.tasks[i]) {
      assert end.tasks[i].singles == Repeat(Queued, |chunks[i]|);
      assert end.tasks[i].singles[0] == Queued;
    }
  }

  /** With all permits free, 25 chunks that are sent and then refused block each other. */
  lemma StickFrom(c: Container, chunks: Chunks, store0: Store, s: State) returns (steps: seq<Step>)
    requires Inv(c, chunks, store0, s) && LogOk(chunks, s) && s.free == PERMITS && |chunks| >= PERMITS
    requires forall i | 0 <= i < PERMITS :: chunks[i] != [] && s.tasks[i].phase.Pending?
    ensures Legal(c, chunks, s, steps) && Stuck(Exec(c, chunks, s, steps))
    ensures forall step | step in steps :: step.Start? || step.BatchRefused?
  {
    steps := Starts(PERMITS) + Refusals(PERMITS);
    var end := RefusedUpTo(Started(s, PERMITS), PERMITS);
    assert Legal(c, chunks, s, steps) && Exec(c, chunks, s, steps) == end by {
      RunStarts(c, chunks, s, PERMITS);
      RunRefusals(c, chunks, Started(s, PERMITS), PERMITS);
      ExecAppend(c, chunks, s, Starts(PERMITS), Refusals(PERMITS));
    }
    RunKeepsInv(c, chunks, store0, s, steps);
    RefusedAreBlocked(chunks, s);
    FirstBlocked(end);
    StuckExactly(c, chunks, store0, end);
  }

  /** Tasks that raised can end their upserts while those not started yet wait. */
  predicate Early(s: State) {
    forall t | t in s.tasks :: t.phase.Pending? || t.phase.Raised?
  }

  /** The next step of an orphaned upsert, if one is left; otherwise all permits are free. */
  lemma OrphanStep(c: Container, chunks: Chunks, store0: Store, s: State) returns (step: Option<Step>)
    requires Inv(c, chunks, store0, s) && Early(s)
    ensures step.Some? ==> Enabled(s, step.value) && (step.value.SingleStart? || step.value.SingleRefused?)
    ensures step.Some? ==> s.tasks[step.value.i].phase.Raised?
    ensures step.None? ==> s.free == PERMITS
  {
    if i: nat, j: nat :| HasSingle(s, i, j, Sending) {
      assert s.tasks[i].singles[j] in s.tasks[i].singles && s.tasks[i] in s.tasks;
      return Some(SingleRefused(i, j));
    }
    forall t | t in s.tasks ensures TaskPermits(t) == 0 {
      var i: nat :| i < |s.tasks| && s.tasks[i] == t;
      if j: nat :| j < |t.singles| && t.singles[j] == Sending {
        assert HasSingle(s, i, j, Sending);
      }
      PermitsBySendings(t);
    }
    SumAllZero(TaskPermits, s.tasks);
    if i: nat, j: nat :| HasSingle(s, i, j, Queued) {
      assert s.tasks[i].singles[j] in s.tasks[i].singles && s.tasks[i] in s.tasks;
      return Some(SingleStart(i, j));
    }
    return None;
  }

  /** The orphans of an earlier flush can all end before anything of this one starts. */
  lemma {:induction false} Drain(c: Container, chunks: Chunks, store0: Store, s: State) returns (steps: seq<Step>)
    requires Inv(c, chunks, store0, s) && LogOk(chunks, s) && Early(s)
    ensures Legal(c, chunks, s, steps)
    ensures forall step | step in steps :: step.i < |s.tasks| && s.tasks[step.i].phase.Raised?
    ensures var end := Exec(c, chunks, s, steps);
            end.free == PERMITS && forall i | 0 <= i < |s.tasks| && s.tasks[i].phase.Pending? ::
              end.tasks[i] == s.tasks[i]
    decreases TotalRank(s)
  {
    var step := OrphanStep(c, chunks, store0, s);
    if step.None? {
      steps := [];
    } else {
      var s1 := Next(c, chunks, s, step.value);
      StepDecreases(c, chunks, store0, s, step.value);
      RankNonNegative(s1);
      StepKeepsInv(c, chunks, store0, s, step.value);
      var rest := Drain(c, chunks, store0, s1);
      steps := [step.value] + rest;
      assert steps[0] == step.value && steps[1..] == rest;
    }
  }

  /** Any flush of at least 25 chunks has a schedule that hangs, whatever an earlier flush left running. */
  lemma ManyChunksCanStick(c: Container, chunks: Chunks, rest: Chunks, orphans: seq<Task>, free: int, store0: Store)
    returns (steps: seq<Step>)
    requires NonemptyChunks(chunks) && |chunks| >= PERMITS && Orphans(rest, orphans, free)
    ensures Legal(c, chunks + rest, Begin(chunks, orphans, free, store0), steps)
    ensures Stuck(Exec(c, chunks + rest, Begin(chunks, orphans, free, store0), steps))
    ensures forall step | step in steps :: step.i >= |chunks| || step.Start? || step.BatchRefused?
  {
    var all, s := chunks + rest, Begin(chunks, orphans, free, store0);
    BeginInv(c, chunks, rest, orphans, free, store0);
    var first := Drain(c, all, store0, s);
    var mid := Exec(c, all, s, first);
    RunKeepsInv(c, all, store0, s, first);
    assert forall i | 0 <= i < PERMITS :: all[i] in chunks && mid.tasks[i] == s.tasks[i];
    var second := StickFrom(c, all, store0, mid);
    ExecAppend(c, all, s, first, second);
    steps := first + second;
  }

  ghost predicate CanHang(c: Container, chunks: Chunks, s: State)
    requires WellSized(chunks, s)
  {
    exists steps :: Legal(c, chunks, s, steps) && Stuck(Exec(c, chunks, s, steps))
  }

  /** Whatever runs, the tasks behind the first `|chunks|` have raised. */
  lemma OrphansStayRaised(c: Container, chunks: Chunks, rest: Chunks, orphans: seq<Task>, free: int, store0: Store,
                          steps: seq<Step>)
    requires Orphans(rest, orphans, free)
    requires Legal(c, chunks + rest, Begin(chunks, orphans, free, store0), steps)
    ensures RaisedFrom(Exec(c, chunks + rest, Begin(chunks, orphans, free, store0), steps), |chunks|)
  {
    var s := Begin(chunks, orphans, free, store0);
    forall i | |chunks| <= i < |s.tasks| ensures s.tasks[i].phase.Raised? {
      assert s.tasks[i] == orphans[i - |chunks|] && s.tasks[i] in orphans;
    }
    RaisedStay(c, chunks + rest, s, steps, |chunks|);
  }

  lemma FewChunksNeverHang(c: Container, chunks: Chunks, rest: Chunks, orphans: seq<Task>, free: int, store0: Store,
                           steps: seq<Step>)
    requires |chunks| < PERMITS && Orphans(rest, orphans, free)
    requires Legal(c, chunks + rest, Begin(chunks, orphans, free, store0), steps)
    ensures !Stuck(Exec(c, chunks + rest, Begin(chunks, orphans, free, store0), steps))
  {
    var all, s := chunks + rest, Begin(chunks, orphans, free, store0);
    BeginInv(c, chunks, rest, orphans, free, store0);
    RunKeepsInv(c, all, store0, s, steps);
    OrphansStayRaised(c, chunks, rest, orphans, free, store0, steps);
    FewChunksNeverStuck(c, all, store0, Exec(c, all, s, steps), |chunks|);
  }

  /** A flush can hang exactly when it has at least as many chunks as the semaphore has permits, whatever upserts
      an earlier flush left running. */
  lemma HangsExactlyFrom25Chunks(c: Container, chunks: Chunks, rest: Chunks, orphans: seq<Task>, free: int,
                                 store0: Store)
    requires NonemptyChunks(chunks) && Orphans(rest, orphans, free)
    ensures CanHang(c, chunks + rest, Begin(chunks, orphans, free, store0)) <==> |chunks| >= PERMITS
  {
    if |chunks| >= PERMITS {
      var steps := ManyChunksCanStick(c, chunks, rest, orphans, free, store0);
    } else if steps :| Legal(c, chunks + rest, Begin(chunks, orphans, free, store0), steps) &&
                       Stuck(Exec(c, chunks + rest, Begin(chunks, orphans, free, store0), steps)) {
      FewChunksNeverHang(c, chunks, rest, orphans, free, store0, steps);
    }
  }

  // ---- Every run is finite ----

  function SingleRank(x: Single): int {
    if x.Queued? then 2 else if x.Sending? then 1 else 0
  }

  function Rank(t: Task): int {
    match t.phase
    case Pending => 2 * |t.singles| + 3
    case InBatch => 2 * |t.singles| + 2
    case InFallback => 1 + Sum(SingleRank, t.singles)
    case _ => Sum(SingleRank, t.singles)
  }

  function TotalRank(s: State): int {
    Sum(Rank, s.tasks)
  }

  lemma RankNonNegative(s: State)
    ensures TotalRank(s) >= 0
  {
    forall t: Task ensures Rank(t) >= 0 {
      SumBounds(SingleRank, t.singles, 0, 2);
    }
    SumPointwise(ZeroTask, Rank, s.tasks);
    SumAllZeroTasks(s.tasks);
  }

  function ZeroTask(t: Task): int {
    0
  }

  lemma SumAllZeroTasks(ts: seq<Task>)
    ensures Sum(ZeroTask, ts) == 0
  {
    SumAllZero(ZeroTask, ts);
  }

  lemma StepDecreases(c: Container, chunks: Chunks, store0: Store, s: State, step: Step)
    requires Inv(c, chunks, store0, s) && Enabled(s, step)
    ensures TotalRank(Next(c, chunks, s, step)) < TotalRank(s)
  {
    var s' := Next(c, chunks, s, step);
    var i := step.i;
    var t, t' := s.tasks[i], s'.tasks[i];
    SumUpdate(Rank, s.tasks, i, t');
    assert ShapeOk(t);
    match step
    case Start(_) =>
    case BatchStored(_) => SumRepeat(SingleRank, Stored, |chunks[i]|);
    case BatchRefused(_) => SumRepeat(SingleRank, Queued, |chunks[i]|);
    case BatchCrashed(_) => SumConstant(SingleRank, Idle, t.singles);
    case Finish(_) =>
    case Raise(_) =>
    case _ => SingleDecreases(c, chunks, s, step);
  }

  lemma SingleDecreases(c: Container, chunks: Chunks, s: State, step: Step)
    requires WellSized(chunks, s) && Enabled(s, step) && step.i < |s.tasks| && ShapeOk(s.tasks[step.i])
    requires step.SingleStart? || step.SingleStored? || step.SingleRefused? || step.SingleCrashed?
    ensures Rank(Next(c, chunks, s, step).tasks[step.i]) < Rank(s.tasks[step.i])
  {
    var t, t' := s.tasks[step.i], Next(c, chunks, s, step).tasks[step.i];
    assert t.singles[step.j] in t.singles;
    SumUpdate(SingleRank, t.singles, step.j, t'.singles[step.j]);
    assert t'.singles == t.singles[step.j := t'.singles[step.j]];
  }

  /** No schedule takes more steps than two per document and three per chunk. */
  lemma {:induction false} RunLength(c: Container, chunks: Chunks, store0: Store, s: State, steps: seq<Step>)
    requires Inv(c, chunks, store0, s) && LogOk(chunks, s) && Legal(c, chunks, s, steps)
    ensures |steps| <= TotalRank(s) - TotalRank(Exec(c, chunks, s, steps))
    decreases |steps|
  {
    if steps != [] {
      StepDecreases(c, chunks, store0, s, steps[0]);
      StepKeepsInv(c, chunks, store0, s, steps[0]);
      RunLength(c, chunks, store0, Next(c, chunks, s, steps[0]), steps[1..]);
    }
  }

  function ChunkCost(chunk: seq<Doc>): int {
    2 * |chunk| + 3
  }

  lemma {:induction false} InitialRank(chunks: Chunks, store0: Store)
    ensures TotalRank(Init(chunks, store0)) == Sum(ChunkCost, chunks)
  {
    var s := Init(chunks, store0);
    if chunks != [] {
      assert s.tasks[1..] == Init(chunks[1..], store0).tasks;
      InitialRank(chunks[1..], store0);
    }
  }

  /** With at most 24 chunks every schedule ends within a bound, and when nothing more can run, all chunk
      tasks and all upserts have ended, those an earlier flush left behind included. */
  lemma FlushEnds(c: Container, chunks: Chunks, rest: Chunks, orphans: seq<Task>, free: int, store0: Store,
                  steps: seq<Step>)
    requires |chunks| < PERMITS && Orphans(rest, orphans, free)
    requires Legal(c, chunks + rest, Begin(chunks, orphans, free, store0), steps)
    ensures |steps| <= Sum(ChunkCost, chunks) + Sum(Rank, orphans)
    ensures (forall step: Step ::
             !Enabled(Exec(c, chunks + rest, Begin(chunks, orphans, free, store0), steps), step)) ==>
              AllSettled(Exec(c, chunks + rest, Begin(chunks, orphans, free, store0), steps))
  {
    var all, s0 := chunks + rest, Begin(chunks, orphans, free, store0);
    BeginInv(c, chunks, rest, orphans, free, store0);
    InitialRank(chunks, store0);
    SumAppend(Rank, Init(chunks, store0).tasks, orphans);
    RunLength(c, all, store0, s0, steps);
    RankNonNegative(Exec(c, all, s0, steps));
    FewChunksNeverHang(c, chunks, rest, orphans, free, store0, steps);
  }

  // ---- Every flush that is not too busy can be brought to its end ----

  predicate Busy(t: Task) {
    t.phase.InBatch? || t.phase.InFallback?
  }

  function BusyFlag(t: Task): int {
    if Busy(t) then 1 else 0
  }

  /** A step that stores nothing. */
  predicate Quiet(step: Step) {
    step.Start? || step.BatchRefused? || step.SingleStart? || step.SingleRefused? || step.Finish? || step.Raise?
  }

  /** No upsert is under way, so that the permits held are those of the busy chunks. */
  lemma BusyHolds(s: State)
    requires forall i | 0 <= i < |s.tasks| :: Sending !in s.tasks[i].singles
    ensures Sum(BusyFlag, s.tasks) == Sum(TaskPermits, s.tasks)
  {
    forall i | 0 <= i < |s.tasks| ensures BusyFlag(s.tasks[i]) == TaskPermits(s.tasks[i]) {
      PermitsBySendings(s.tasks[i]);
    }
    SumPointwise(BusyFlag, TaskPermits, s.tasks);
  }

  /** A step on a task of a state that keeps the number of busy chunks below the permits. */
  lemma BusyAfter(c: Container, chunks: Chunks, s: State, step: Step)
    requires WellSized(chunks, s) && Enabled(s, step) && Quiet(step) && Sum(BusyFlag, s.tasks) < PERMITS
    requires step.Start? ==> Sum(BusyFlag, s.tasks) == 0
    ensures Sum(BusyFlag, Next(c, chunks, s, step).tasks) < PERMITS
    ensures Next(c, chunks, s, step).store == s.store && Next(c, chunks, s, step).log == s.log
  {
    var s' := Next(c, chunks, s, step);
    SumUpdate(BusyFlag, s.tasks, step.i, s'.tasks[step.i]);
    assert s'.tasks == s.tasks[step.i := s'.tasks[step.i]];
  }

  /** What an unsettled task needs next, once no upsert is under way. */
  lemma QuietMove(s: State, i: nat) returns (step: Step)
    requires i < |s.tasks| && ShapeOk(s.tasks[i]) && s.free > 0 && Sending !in s.tasks[i].singles
    requires !s.tasks[i].phase.Pending? && (!Done(s.tasks[i]) || Queued in s.tasks[i].singles)
    ensures Enabled(s, step) && Quiet(step) && !step.Start?
  {
    var t := s.tasks[i];
    if Queued in t.singles {
      var j: nat :| j < |t.singles| && t.singles[j] == Queued;
      step := SingleStart(i, j);
    } else if t.phase.InBatch? {
      step := BatchRefused(i);
    } else if Crashed in t.singles {
      step := Raise(i);
    } else {
      assert t.phase.InFallback?;
      forall x | x in t.singles ensures Settled(x) {
        assert x != Idle && x != Queued && x != Sending && x != Crashed;
      }
      step := Finish(i);
    }
  }

  /** While something is unsettled, some step that stores nothing is possible. */
  lemma QuietStep(c: Container, chunks: Chunks, store0: Store, s: State) returns (step: Step)
    requires Inv(c, chunks, store0, s) && Sum(BusyFlag, s.tasks) < PERMITS && !AllSettled(s)
    ensures Enabled(s, step) && Quiet(step) && (step.Start? ==> Sum(BusyFlag, s.tasks) == 0)
  {
    if i: nat :| i < |s.tasks| && Sending in s.tasks[i].singles {
      var j: nat :| j < |s.tasks[i].singles| && s.tasks[i].singles[j] == Sending;
      step := SingleRefused(i, j);
    } else {
      assert forall i | 0 <= i < |s.tasks| :: Sending !in s.tasks[i].singles;
      BusyHolds(s);
      if i: nat :| i < |s.tasks| && !s.tasks[i].phase.Pending? && (!Done(s.tasks[i]) || Queued in s.tasks[i].singles) {
        step := QuietMove(s, i);
      } else {
        step := QuietStart(s);
      }
    }
  }

  /** Nothing is busy and something is left, so a chunk is still to be started. */
  lemma QuietStart(s: State) returns (step: Step)
    requires s.free > 0 && !AllSettled(s) && forall i | 0 <= i < |s.tasks| :: Sending !in s.tasks[i].singles
    requires forall i | 0 <= i < |s.tasks| ::
             s.tasks[i].phase.Pending? || (Done(s.tasks[i]) && Queued !in s.tasks[i].singles)
    ensures Enabled(s, step) && step.Start? && Sum(BusyFlag, s.tasks) == 0
  {
    forall t | t in s.tasks ensures BusyFlag(t) == 0 {
    }
    SumAllZero(BusyFlag, s.tasks);
    var t := Unsettled(s);
    var i: nat :| i < |s.tasks| && s.tasks[i] == t;
    step := Start(i);
  }

  lemma Unsettled(s: State) returns (t: Task)
    requires !AllSettled(s)
    ensures t in s.tasks && !(Done(t) && Queued !in t.singles && Sending !in t.singles)
  {
    if !AllDone(s) {
      t :| t in s.tasks && !Done(t);
    } else {
      t :| t in s.tasks && !(Queued !in t.singles && Sending !in t.singles);
    }
  }

  /** From any state with fewer than 25 chunks busy some schedule ends the flush without storing anything more. */
  lemma {:induction false} CanEndQuietly(c: Container, chunks: Chunks, store0: Store, s: State)
    returns (steps: seq<Step>)
    requires Inv(c, chunks, store0, s) && LogOk(chunks, s) && Sum(BusyFlag, s.tasks) < PERMITS
    ensures Legal(c, chunks, s, steps) && forall step | step in steps :: Quiet(step)
    ensures var end := Exec(c, chunks, s, steps);
            AllSettled(end) && end.store == s.store && end.log == s.log
    decreases TotalRank(s)
  {
    if AllSettled(s) {
      steps := [];
    } else {
      var step := QuietStep(c, chunks, store0, s);
      var s1 := Next(c, chunks, s, step);
      StepDecreases(c, chunks, store0, s, step);
      RankNonNegative(s1);
      StepKeepsInv(c, chunks, store0, s, step);
      BusyAfter(c, chunks, s, step);
      var rest := CanEndQuietly(c, chunks, store0, s1);
      steps := [step] + rest;
      assert steps[0] == step && steps[1..] == rest;
    }
  }
}
