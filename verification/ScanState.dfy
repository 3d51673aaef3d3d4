/** Scan records and the phase entries in them (functions/utils/scan_state.py). */
module ScanState {
  import opened Documents

  /** A continuation link, as the number of the page it leads to; the first page has none. */
  type Link = nat

  datatype PhaseEntry = PhaseEntry(name: string, status: string, items: nat, checkpoint: Option<Link>)

  type Phases = seq<PhaseEntry>

  const PENDING := "pending"
  const RUNNING := "running"
  const COMPLETED := "completed"
  const FAILED := "failed"
  const SKIPPED := "skipped"

  /** When a phase started and ended. */
  datatype Stamp = Stamp(started: Option<int>, completed: Option<int>)

  /** The scan's own fields. */
  datatype Header = Header(status: string, completed: Option<int>, owner: Option<string>, heartbeat: Option<int>,
                           lease: Option<int>, error: string)

  datatype Project = Project(lastScan: Option<int>, lastStatus: string, identities: int, updated: Option<int>)

  /** What an update makes of the entry it names; a missing link leaves the recorded one. */
  function Updated(e: PhaseEntry, status: string, items: nat, checkpoint: Option<Link>): PhaseEntry {
    PhaseEntry(e.name, status, items, if checkpoint.Some? then checkpoint else e.checkpoint)
  }

  /** The first entry of that name is updated, the others stay. */
  function ApplyUpdate(phases: Phases, name: string, status: string, items: nat, checkpoint: Option<Link>): (r: Phases)
    ensures |r| == |phases|
  {
    if phases == [] then []
    else if phases[0].name == name then [Updated(phases[0], status, items, checkpoint)] + phases[1..]
    else [phases[0]] + ApplyUpdate(phases[1..], name, status, items, checkpoint)
  }

  function Finalized(e: PhaseEntry): PhaseEntry {
    if e.status == PENDING || e.status == RUNNING then e.(status := FAILED) else e
  }

  function FinalizePhases(phases: Phases): (r: Phases)
    ensures |r| == |phases|
  {
    if phases == [] then [] else [Finalized(phases[0])] + FinalizePhases(phases[1..])
  }

  lemma {:induction false} FinalizedAt(phases: Phases, k: nat)
    requires k < |phases|
    ensures FinalizePhases(phases)[k] == Finalized(phases[k])
  {
    if k > 0 {
      FinalizedAt(phases[1..], k - 1);
    }
  }

  lemma {:induction false} UpdateAt(phases: Phases, name: string, status: string, items: nat, checkpoint: Option<Link>,
                                    k: nat)
    requires k < |phases| && phases[k].name == name
    requires forall i | 0 <= i < k :: phases[i].name != name
    ensures ApplyUpdate(phases, name, status, items, checkpoint) ==
            phases[k := Updated(phases[k], status, items, checkpoint)]
  {
    if k > 0 {
      assert phases[0].name != name;
      assert forall i | 0 <= i < k - 1 :: phases[1..][i] == phases[i + 1];
      UpdateAt(phases[1..], name, status, items, checkpoint, k - 1);
      assert phases == [phases[0]] + phases[1..];
    }
  }

  lemma {:induction false} UpdateNone(phases: Phases, name: string, status: string, items: nat,
                                      checkpoint: Option<Link>)
    requires forall e | e in phases :: e.name != name
    ensures ApplyUpdate(phases, name, status, items, checkpoint) == phases
  {
    if phases != [] {
      UpdateNone(phases[1..], name, status, items, checkpoint);
    }
  }

  /** Every entry after an update is an old entry, or the update of an old entry of that name. */
  lemma {:induction false} UpdateEntries(phases: Phases, name: string, status: string, items: nat,
                                         checkpoint: Option<Link>, e: PhaseEntry)
    requires e in ApplyUpdate(phases, name, status, items, checkpoint)
    ensures e in phases || exists was | was in phases ::
              was.name == name && e == Updated(was, status, items, checkpoint)
  {
    if phases != [] && phases[0].name != name && e != phases[0] {
      UpdateEntries(phases[1..], name, status, items, checkpoint, e);
    } else if phases != [] && phases[0].name == name && e !in phases[1..] {
      assert phases[0] in phases;
    }
  }

  lemma {:induction false} FinalizeEntries(phases: Phases, e: PhaseEntry)
    requires e in FinalizePhases(phases)
    ensures exists was | was in phases :: e == Finalized(was)
  {
    if phases != [] {
      if e == Finalized(phases[0]) {
        assert phases[0] in phases;
      } else {
        FinalizeEntries(phases[1..], e);
      }
    }
  }

  /** The dictionary `load_checkpoint_activity` builds: for repeated names the last entry counts. */
  function Checkpoints(phases: Phases): (r: map<string, PhaseEntry>)
    ensures forall name | name in r :: r[name] in phases && r[name].name == name
  {
    if phases == [] then map[]
    else
      var n := |phases| - 1;
      assert phases == phases[..n] + [phases[n]];
      Checkpoints(phases[..n])[phases[n].name := phases[n]]
  }

  predicate Named(phases: Phases, name: string) {
    exists e | e in phases :: e.name == name
  }

  /** The last entry of the name is at `k`. */
  predicate LastNamed(phases: Phases, name: string, k: nat) {
    k < |phases| && phases[k].name == name && forall j | k < j < |phases| :: phases[j].name != name
  }

  /** The dictionary has exactly the names of the record, each with its last entry. */
  ghost predicate HoldsLast(r: map<string, PhaseEntry>, phases: Phases) {
    && (forall name :: name in r <==> Named(phases, name))
    && (forall name | name in r :: exists k: nat :: LastNamed(phases, name, k) && r[name] == phases[k])
  }

  lemma {:induction false} CheckpointsMeaning(phases: Phases)
    ensures HoldsLast(Checkpoints(phases), phases)
  {
    if phases != [] {
      var n := |phases| - 1;
      var init, last := phases[..n], phases[n];
      assert phases == init + [last];
      CheckpointsMeaning(init);
      var r := Checkpoints(phases);
      forall name | name in r ensures exists k: nat :: LastNamed(phases, name, k) && r[name] == phases[k] {
        if name == last.name {
          assert LastNamed(phases, name, n);
        } else {
          var k: nat :| LastNamed(init, name, k) && Checkpoints(init)[name] == init[k];
          assert LastNamed(phases, name, k);
        }
      }
      assert last in phases;
      forall name ensures Named(phases, name) <==> Named(init, name) || name == last.name {
        if Named(init, name) {
          var e :| e in init && e.name == name;
          assert e in phases;
        }
      }
    }
  }

  // ---- Times ----

  predicate Ending(status: string) {
    status == COMPLETED || status == FAILED || status == SKIPPED
  }

  /** The start is set once, by the first update to running; the end by every update to an ending status. */
  function Stamped(st: Stamp, status: string, now: int): Stamp {
    Stamp(if status == RUNNING && st.started.None? then Some(now) else st.started,
          if Ending(status) then Some(now) else st.completed)
  }

  function StampsAfter(phases: Phases, stamps: seq<Stamp>, name: string, status: string, now: int): (r: seq<Stamp>)
    requires |stamps| == |phases|
    ensures |r| == |stamps|
  {
    if phases == [] then []
    else if phases[0].name == name then [Stamped(stamps[0], status, now)] + stamps[1..]
    else [stamps[0]] + StampsAfter(phases[1..], stamps[1..], name, status, now)
  }

  lemma {:induction false} StampAt(phases: Phases, stamps: seq<Stamp>, name: string, status: string, now: int, k: nat)
    requires |stamps| == |phases| && k < |phases| && phases[k].name == name
    requires forall i | 0 <= i < k :: phases[i].name != name
    ensures StampsAfter(phases, stamps, name, status, now) == stamps[k := Stamped(stamps[k], status, now)]
  {
    if k > 0 {
      assert phases[0].name != name;
      assert forall i | 0 <= i < k - 1 :: phases[1..][i] == phases[i + 1];
      StampAt(phases[1..], stamps[1..], name, status, now, k - 1);
      assert stamps == [stamps[0]] + stamps[1..];
    }
  }

  lemma {:induction false} StampNone(phases: Phases, stamps: seq<Stamp>, name: string, status: string, now: int)
    requires |stamps| == |phases| && forall e | e in phases :: e.name != name
    ensures StampsAfter(phases, stamps, name, status, now) == stamps
  {
    if phases != [] {
      StampNone(phases[1..], stamps[1..], name, status, now);
    }
  }

  predicate Unfinished(e: PhaseEntry) {
    e.status == PENDING || e.status == RUNNING
  }

  /** The phases that a failed scan fails end at its end. */
  function EndStamps(phases: Phases, stamps: seq<Stamp>, now: int): (r: seq<Stamp>)
    requires |stamps| == |phases|
    ensures |r| == |stamps|
  {
    seq(|stamps|, k requires 0 <= k < |stamps| =>
      if Unfinished(phases[k]) then stamps[k].(completed := Some(now)) else stamps[k])
  }

  // ---- The same, field by field ----

  /** The entry at `k` is the first of the name. */
  predicate FirstNamed(phases: Phases, name: string, k: nat) {
    k < |phases| && phases[k].name == name && forall i | 0 <= i < k :: phases[i].name != name
  }

  /** The first phase of the name has the status, the count and the link, if one was given; it started now if it had not
      and is running, and ended now if the status ends it. Nothing else changes. */
  ghost predicate PhaseSet(phases: Phases, stamps: seq<Stamp>, name: string, status: string, items: nat,
                           checkpoint: Option<Link>, now: int, phases': Phases, stamps': seq<Stamp>)
    requires |stamps| == |phases|
  {
    && (forall k: nat | FirstNamed(phases, name, k) ::
          && phases' == phases[k := PhaseEntry(name, status, items, if checkpoint.Some? then checkpoint
                                                                    else phases[k].checkpoint)]
          && stamps' == stamps[k := Stamp(if status == "running" && stamps[k].started.None? then Some(now)
                                          else stamps[k].started,
                                          if status == "completed" || status == "failed" || status == "skipped"
                                          then Some(now) else stamps[k].completed)])
    && (!Named(phases, name) ==> phases' == phases && stamps' == stamps)
  }

  lemma UpdateSetsPhase(phases: Phases, stamps: seq<Stamp>, name: string, status: string, items: nat,
                        checkpoint: Option<Link>, now: int)
    requires |stamps| == |phases|
    ensures PhaseSet(phases, stamps, name, status, items, checkpoint, now,
                     ApplyUpdate(phases, name, status, items, checkpoint),
                     StampsAfter(phases, stamps, name, status, now))
  {
    forall k: nat | FirstNamed(phases, name, k)
      ensures ApplyUpdate(phases, name, status, items, checkpoint) ==
              phases[k := Updated(phases[k], status, items, checkpoint)]
      ensures StampsAfter(phases, stamps, name, status, now) == stamps[k := Stamped(stamps[k], status, now)]
    {
      UpdateAt(phases, name, status, items, checkpoint, k);
      StampAt(phases, stamps, name, status, now, k);
    }
    if !Named(phases, name) {
      UpdateNone(phases, name, status, items, checkpoint);
      StampNone(phases, stamps, name, status, now);
    }
  }

  /** A failed scan has failed its pending and running phases and ended them; other phases, and all phases of a scan
      that has not failed, stay. */
  predicate PhasesClosed(phases: Phases, stamps: seq<Stamp>, status: string, now: int, phases': Phases,
                         stamps': seq<Stamp>)
    requires |stamps| == |phases|
  {
    && |phases'| == |phases| && |stamps'| == |phases|
    && forall k | 0 <= k < |phases| ::
         if status == "failed" && (phases[k].status == "pending" || phases[k].status == "running")
         then phases'[k] == phases[k].(status := "failed") && stamps'[k] == stamps[k].(completed := Some(now))
         else phases'[k] == phases[k] && stamps'[k] == stamps[k]
  }

  lemma EndCloses(phases: Phases, stamps: seq<Stamp>, status: string, now: int)
    requires |stamps| == |phases|
    ensures PhasesClosed(phases, stamps, status, now, EndedPhases(phases, status),
                         EndedStamps(phases, stamps, status, now))
  {
    forall k: nat | k < |phases| ensures FinalizePhases(phases)[k] == Finalized(phases[k]) {
      FinalizedAt(phases, k);
    }
  }

  /** The record has ended: status, end and any error are noted, and owner, heartbeat and lease are gone. */
  predicate RecordEnded(h: Header, status: string, error: string, now: int, h': Header) {
    && h'.status == status && h'.completed == Some(now) && h'.owner == None && h'.heartbeat == None && h'.lease == None
    && h'.error == (if error != "" then error else h.error)
  }

  /** The project's last scan is noted; its number of identities changes only with a completed scan's summary. */
  predicate ScanNoted(p: Project, status: string, summary: Option<nat>, now: int, p': Project) {
    && p'.lastScan == Some(now) && p'.lastStatus == status && p'.updated == Some(now)
    && (summary.Some? && status == "completed" ==> p'.identities == summary.value)
    && (summary.None? || status != "completed" ==> p'.identities == p.identities)
  }

  datatype Update = Update(name: string, status: string, items: nat, checkpoint: Option<Link>, now: int)

  /** The times of a record's phases after a sequence of updates. */
  function Times(phases: Phases, stamps: seq<Stamp>, us: seq<Update>): (r: seq<Stamp>)
    requires |stamps| == |phases|
    ensures |r| == |stamps|
    decreases |us|
  {
    if us == [] then stamps
    else
      var u := us[0];
      Times(ApplyUpdate(phases, u.name, u.status, u.items, u.checkpoint),
            StampsAfter(phases, stamps, u.name, u.status, u.now), us[1..])
  }

  /** The time of the first update that sets the phase running. */
  function FirstRunning(us: seq<Update>, name: string): Option<int> {
    if us == [] then None
    else if us[0].name == name && us[0].status == RUNNING then Some(us[0].now)
    else FirstRunning(us[1..], name)
  }

  /** The time of the last update that ends the phase. */
  function LastEnding(us: seq<Update>, name: string): Option<int> {
    if us == [] then None
    else
      var later := LastEnding(us[1..], name);
      if later.None? && us[0].name == name && Ending(us[0].status) then Some(us[0].now) else later
  }

  /** Over any updates, a phase that had not started starts when it is first set running, and that time stays whatever
      follows; it ends when it was last set to an ending status. */
  lemma {:induction false} PhaseTimes(phases: Phases, stamps: seq<Stamp>, us: seq<Update>, k: nat)
    requires |stamps| == |phases| && k < |phases| && forall i | 0 <= i < k :: phases[i].name != phases[k].name
    ensures var st := Times(phases, stamps, us)[k];
            && st.started == (if stamps[k].started.Some? then stamps[k].started else FirstRunning(us, phases[k].name))
            && st.completed == (if LastEnding(us, phases[k].name).Some? then LastEnding(us, phases[k].name)
                                else stamps[k].completed)
    decreases |us|
  {
    if us != [] {
      var u := us[0];
      var phases1 := ApplyUpdate(phases, u.name, u.status, u.items, u.checkpoint);
      var stamps1 := StampsAfter(phases, stamps, u.name, u.status, u.now);
      OneUpdateAt(phases, stamps, u, k);
      PhaseTimes(phases1, stamps1, us[1..], k);
    }
  }

  /** One update stamps the first phase of its name and leaves all names alone. */
  lemma {:induction false} OneUpdateAt(phases: Phases, stamps: seq<Stamp>, u: Update, k: nat)
    requires |stamps| == |phases| && k < |phases| && forall i | 0 <= i < k :: phases[i].name != phases[k].name
    ensures var after := ApplyUpdate(phases, u.name, u.status, u.items, u.checkpoint);
            && after[k].name == phases[k].name && forall i | 0 <= i < k :: after[i].name != phases[k].name
    ensures StampsAfter(phases, stamps, u.name, u.status, u.now)[k] ==
            if phases[k].name == u.name then Stamped(stamps[k], u.status, u.now) else stamps[k]
  {
    forall i: nat | i <= k
      ensures ApplyUpdate(phases, u.name, u.status, u.items, u.checkpoint)[i].name == phases[i].name {
      NameStays(phases, u, i);
    }
    if phases[k].name == u.name {
      StampAt(phases, stamps, u.name, u.status, u.now, k);
    } else {
      OtherStamp(phases, stamps, u.name, u.status, u.now, k);
    }
  }

  lemma {:induction false} NameStays(phases: Phases, u: Update, i: nat)
    requires i < |phases|
    ensures ApplyUpdate(phases, u.name, u.status, u.items, u.checkpoint)[i].name == phases[i].name
  {
    if i > 0 && phases[0].name != u.name {
      NameStays(phases[1..], u, i - 1);
    }
  }

  lemma {:induction false} OtherStamp(phases: Phases, stamps: seq<Stamp>, name: string, status: string, now: int,
                                      k: nat)
    requires |stamps| == |phases| && k < |phases| && phases[k].name != name
    ensures StampsAfter(phases, stamps, name, status, now)[k] == stamps[k]
  {
    if k > 0 && phases[0].name != name {
      OtherStamp(phases[1..], stamps[1..], name, status, now, k - 1);
    }
  }

  /** The `scan_history` container and the project's record. */
  class ScanHistory {
    var scans: map<string, Phases>
    var stamps: map<string, seq<Stamp>>
    var headers: map<string, Header>
    var project: Project

    /** Every record has its phases, their times and its own fields. */
    ghost predicate Valid()
      reads this
    {
      && scans.Keys == stamps.Keys == headers.Keys
      && forall id | id in scans :: |stamps[id]| == |scans[id]|
    }

    constructor (project: Project)
      ensures Valid() && scans == map[] && this.project == project
    {
      scans, stamps, headers := map[], map[], map[];
      this.project := project;
    }

    /** `read_item`, as far as the phases go. A record that does not exist raises. */
    method ReadPhases(id: string) returns (phases: Phases, times: seq<Stamp>)
      requires Valid() && id in scans
      ensures phases == scans[id] && times == stamps[id] && |times| == |phases|
    {
      return scans[id], stamps[id];
    }

    /** `upsert_item` of a record that was read. */
    method WritePhases(id: string, phases: Phases, times: seq<Stamp>)
      requires Valid() && id in scans && |times| == |phases|
      modifies `scans, `stamps
      ensures Valid() && scans == old(scans)[id := phases] && stamps == old(stamps)[id := times]
    {
      scans, stamps := scans[id := phases], stamps[id := times];
    }

    /** `update_scan_phase`: read the record, change one phase in place, write the record back. */
    method UpdateScanPhase(id: string, name: string, status: string, items: nat, checkpoint: Option<Link>, now: int)
      returns (found: bool)
      requires Valid()
      modifies `scans, `stamps
      ensures Valid() && (found <==> id in old(scans))
      ensures scans == if found then old(scans)[id := ApplyUpdate(old(scans)[id], name, status, items, checkpoint)]
                       else old(scans)
      ensures stamps == if found then old(stamps)[id := StampsAfter(old(scans)[id], old(stamps)[id], name, status, now)]
                        else old(stamps)
      ensures found ==> PhaseSet(old(scans)[id], old(stamps)[id], name, status, items, checkpoint, now, scans[id],
                                 stamps[id])
    {
      if id !in scans {
        return false;
      }
      var phases, times := ReadPhases(id);
      UpdateSetsPhase(phases, times, name, status, items, checkpoint, now);
      phases, times := UpdateEntry(phases, times, name, status, items, checkpoint, now);
      WritePhases(id, phases, times);
      return true;
    }

    /** The loop of `update_scan_phase`, which ends at the first phase of the name. */
    static method UpdateEntry(entries: Phases, times: seq<Stamp>, name: string, status: string, items: nat,
                              checkpoint: Option<Link>, now: int) returns (phases: Phases, stamps: seq<Stamp>)
      requires |times| == |entries|
      ensures phases == ApplyUpdate(entries, name, status, items, checkpoint)
      ensures stamps == StampsAfter(entries, times, name, status, now)
    {
      phases, stamps := entries, times;
      var k := 0;
      while k < |phases|
        invariant k <= |phases| && phases == entries && stamps == times
        invariant forall i | 0 <= i < k :: phases[i].name != name
      {
        if phases[k].name == name {
          UpdateAt(phases, name, status, items, checkpoint, k);
          StampAt(phases, times, name, status, now, k);
          var phase, time := phases[k].(status := status, items := items), times[k];
          if status == RUNNING && time.started.None? {
            time := time.(started := Some(now));
          }
          if status in {COMPLETED, FAILED, SKIPPED} {
            time := time.(completed := Some(now));
          }
          if checkpoint.Some? {
            phase := phase.(checkpoint := checkpoint);
          }
          return phases[k := phase], stamps[k := time];
        }
        k := k + 1;
      }
      UpdateNone(phases, name, status, items, checkpoint);
      StampNone(phases, times, name, status, now);
    }

    /** The loop of `finalize_scan` over the phase entries. */
    static method FailOpen(entries: Phases, times: seq<Stamp>, now: int) returns (phases: Phases, stamps: seq<Stamp>)
      requires |times| == |entries|
      ensures phases == FinalizePhases(entries) && stamps == EndStamps(entries, times, now)
    {
      phases, stamps := entries, times;
      for k := 0 to |phases|
        invariant |phases| == |entries| == |stamps|
        invariant forall j | 0 <= j < |phases| :: phases[j] == if j < k then Finalized(entries[j]) else entries[j]
        invariant forall j | 0 <= j < |phases| ::
                    stamps[j] == if j < k && Unfinished(entries[j]) then times[j].(completed := Some(now)) else times[j]
      {
        if phases[k].status == PENDING || phases[k].status == RUNNING {
          phases := phases[k := phases[k].(status := FAILED)];
          stamps := stamps[k := stamps[k].(completed := Some(now))];
        }
      }
      forall k: nat | k < |entries| ensures phases[k] == FinalizePhases(entries)[k] {
        FinalizedAt(entries, k);
      }
    }

    /** The record of `finalize_scan`. */
    method CloseRecord(id: string, status: string, error: string, now: int)
      requires Valid() && id in scans
      modifies `scans, `stamps, `headers
      ensures Valid()
      ensures scans == old(scans)[id := EndedPhases(old(scans)[id], status)]
      ensures stamps == old(stamps)[id := EndedStamps(old(scans)[id], old(stamps)[id], status, now)]
      ensures headers == old(headers)[id := Closed(old(headers)[id], status, error, now)]
    {
      var header := headers[id].(status := status, completed := Some(now), owner := None, heartbeat := None,
                                 lease := None);
      if error != "" {
        header := header.(error := error);
      }
      var phases, times := scans[id], stamps[id];
      if status == FAILED {
        phases, times := FailOpen(phases, times, now);
      }
      scans, stamps, headers := scans[id := phases], stamps[id := times], headers[id := header];
    }

    /** The project's record in `finalize_scan`. */
    method NoteProject(status: string, summary: Option<nat>, now: int)
      modifies `project
      ensures project == Noted(old(project), status, summary, now)
    {
      var record := project.(lastScan := Some(now), lastStatus := status);
      if summary.Some? && status == COMPLETED {
        record := record.(identities := summary.value);
      }
      project := record.(updated := Some(now));
    }

    /** `finalize_scan`. `summary` is the number of identities of a summary given; `projectFails` says that the
        project's record cannot be read or written, which is logged and passed over. */
    method FinalizeScan(id: string, status: string, summary: Option<nat>, error: string, now: int, projectFails: bool)
      returns (found: bool)
      requires Valid()
      modifies this
      ensures Valid() && (found <==> id in old(scans))
      ensures found ==>
                && scans == old(scans)[id := EndedPhases(old(scans)[id], status)]
                && stamps == old(stamps)[id := EndedStamps(old(scans)[id], old(stamps)[id], status, now)]
                && headers == old(headers)[id := Closed(old(headers)[id], status, error, now)]
                && project == if projectFails then old(project) else Noted(old(project), status, summary, now)
      ensures found ==>
                && PhasesClosed(old(scans)[id], old(stamps)[id], status, now, scans[id], stamps[id])
                && RecordEnded(old(headers)[id], status, error, now, headers[id])
                && (!projectFails ==> ScanNoted(old(project), status, summary, now, project))
      ensures !found ==>
                scans == old(scans) && stamps == old(stamps) && headers == old(headers) && project == old(project)
    {
      if id !in scans {
        return false;
      }
      EndCloses(scans[id], stamps[id], status, now);
      CloseRecord(id, status, error, now);
      if !projectFails {
        NoteProject(status, summary, now);
      }
      return true;
    }

    /** What other writers leave in the container. */
    method Adopt(records: map<string, Phases>)
      requires Valid()
      modifies `scans, `stamps, `headers
      ensures Valid() && scans == records
    {
      stamps := map id | id in records ::
                  if id in stamps && |stamps[id]| == |records[id]| then stamps[id]
                  else seq(|records[id]|, k => Stamp(None, None));
      headers := map id | id in records ::
                   if id in headers then headers[id] else Header(RUNNING, None, None, None, None, "");
      scans := records;
    }

    /** `load_checkpoint_activity` over `get_previous_scan_phases`: an unknown scan has no checkpoints. */
    method LoadCheckpoints(id: string) returns (r: map<string, PhaseEntry>)
      ensures HoldsLast(r, if id in scans then scans[id] else [])
      ensures r == if id in scans then Checkpoints(scans[id]) else map[]
    {
      r := map[];
      if id in scans {
        var phases := scans[id];
        for k := 0 to |phases|
          invariant r == Checkpoints(phases[..k])
        {
          assert phases[..k + 1][..k] == phases[..k];
          r := r[phases[k].name := phases[k]];
        }
        assert phases[..|phases|] == phases;
        CheckpointsMeaning(phases);
      }
    }
  }

  /** Only a failed scan touches its phases. */
  function EndedPhases(phases: Phases, status: string): (r: Phases)
    ensures |r| == |phases|
  {
    if status == FAILED then FinalizePhases(phases) else phases
  }

  function EndedStamps(phases: Phases, stamps: seq<Stamp>, status: string, now: int): (r: seq<Stamp>)
    requires |stamps| == |phases|
    ensures |r| == |stamps|
  {
    if status == FAILED then EndStamps(phases, stamps, now) else stamps
  }

  /** A closed record has no owner and no lease, and keeps an earlier error unless given one. */
  function Closed(h: Header, status: string, error: string, now: int): Header {
    Header(status, Some(now), None, None, None, if error != "" then error else h.error)
  }

  /** The project keeps its number of identities unless a completed scan reports one. */
  function Noted(p: Project, status: string, summary: Option<nat>, now: int): Project {
    Project(Some(now), status, if summary.Some? && status == COMPLETED then summary.value else p.identities, Some(now))
  }

  /** After a failed scan no phase is open; every phase it failed ends with the scan, the others keep their times. */
  lemma FailedScanIsClosed(phases: Phases, stamps: seq<Stamp>, now: int, k: nat)
    requires |stamps| == |phases| && k < |phases|
    ensures var after, times := FinalizePhases(phases), EndStamps(phases, stamps, now);
            && !Unfinished(after[k]) && times[k].started == stamps[k].started
            && (Unfinished(phases[k]) ==> after[k].status == FAILED && times[k].completed == Some(now))
            && (!Unfinished(phases[k]) ==> after[k] == phases[k] && times[k] == stamps[k])
  {
    FinalizedAt(phases, k);
  }
}
