/** The copy of a project's evidence into the tenant store, stopped anywhere and rerun any number of times. */
module Migration {
  import opened Documents

  const PAGE: nat := 200

  datatype Source = Source(identities: seq<Identity>, actions: seq<Action>)

  datatype Identity = Identity(id: string, details: string)

  /** An action event; `principal` is also the partition its evidence lives in. */
  datatype Action = Action(id: string, principal: string, details: string)

  datatype Lineage = Lineage(recordId: string, scan: string)

  /** The tenant containers: nodes by id, activities by principal and id, lineage by evidence id. The evidence id
      of an action of one tenant stands for the action's id. */
  datatype Tenant = Tenant(nodes: map<string, Identity>, activities: map<Key, Action>, lineage: map<string, Lineage>)

  datatype Write =
    | PutNode(identity: Identity)
    | PutActivity(action: Action)
    | CreateLineage(action: Action, scan: string)

  /** A lineage record that exists already is left as it is. */
  function Apply(t: Tenant, w: Write): Tenant {
    match w
    case PutNode(i) => t.(nodes := t.nodes[i.id := i])
    case PutActivity(a) => t.(activities := t.activities[Key(a.principal, a.id) := a])
    case CreateLineage(a, scan) =>
      if a.id in t.lineage then t
      else t.(lineage := t.lineage[a.id := Lineage(a.id, scan)])
  }

  function ApplyAll(t: Tenant, ws: seq<Write>): Tenant {
    if ws == [] then t else Apply(ApplyAll(t, ws[..|ws| - 1]), ws[|ws| - 1])
  }

  function NodeWrites(identities: seq<Identity>): (r: seq<Write>)
    ensures |r| == |identities|
  {
    if identities == [] then []
      else NodeWrites(identities[..|identities| - 1]) + [PutNode(identities[|identities| - 1])]
  }

  function ActionWrites(actions: seq<Action>, scan: string): (r: seq<Write>)
    ensures |r| == 2 * |actions|
  {
    if actions == [] then []
    else
      var a := actions[|actions| - 1];
      ActionWrites(actions[..|actions| - 1], scan) + [PutActivity(a), CreateLineage(a, scan)]
  }

  /** What one run writes, in order. */
  function Writes(s: Source, scan: string): (r: seq<Write>)
    ensures |r| == |s.identities| + 2 * |s.actions|
  {
    NodeWrites(s.identities) + ActionWrites(s.actions, scan)
  }

  // ---- The migrator ----

  class TenantRepo {
    var state: Tenant
    var left: nat

    /** A repository whose process stops at the `budget + 1`-st write. */
    constructor (initial: Tenant, budget: nat)
      ensures state == initial && left == budget
    {
      state, left := initial, budget;
    }

    method Do(w: Write) returns (alive: bool)
      modifies this
      ensures alive <==> old(left) > 0
      ensures state == if alive then Apply(old(state), w) else old(state)
      ensures left == if alive then old(left) - 1 else 0
    {
      if left == 0 {
        return false;
      }
      state, left := Apply(state, w), left - 1;
      return true;
    }
  }

  lemma ApplyStep(t: Tenant, ws: seq<Write>, w: Write)
    ensures ApplyAll(t, ws + [w]) == Apply(ApplyAll(t, ws), w)
  {
    assert (ws + [w])[..|ws + [w]| - 1] == ws;
  }

  /** The state after the first `n` writes of a run, with `n` writes of the budget used. */
  ghost predicate After(repo: TenantRepo, before: Tenant, budget: nat, all: seq<Write>, n: nat)
    reads repo
  {
    n <= |all| && n <= budget && repo.left == budget - n && repo.state == ApplyAll(before, all[..n])
  }

  lemma AfterStep(before: Tenant, all: seq<Write>, n: nat, w: Write)
    requires n < |all| && all[n] == w
    ensures ApplyAll(before, all[..n + 1]) == Apply(ApplyAll(before, all[..n]), w)
  {
    assert all[..n + 1] == all[..n] + [w];
    ApplyStep(before, all[..n], w);
  }

  lemma {:induction false} NodeWriteAt(identities: seq<Identity>, i: nat)
    requires i < |identities|
    ensures NodeWrites(identities)[i] == PutNode(identities[i])
  {
    if i < |identities| - 1 {
      NodeWriteAt(identities[..|identities| - 1], i);
    }
  }

  lemma {:induction false} ActionWriteAt(actions: seq<Action>, scan: string, i: nat)
    requires i < |actions|
    ensures ActionWrites(actions, scan)[2 * i] == PutActivity(actions[i])
    ensures ActionWrites(actions, scan)[2 * i + 1] == CreateLineage(actions[i], scan)
  {
    if i < |actions| - 1 {
      ActionWriteAt(actions[..|actions| - 1], scan, i);
    }
  }

  /** One page of the offset query. */
  function ListIdentities(s: Source, offset: nat): (seq<Identity>, nat) {
    if offset >= |s.identities| then ([], |s.identities|)
    else if offset + PAGE <= |s.identities| then (s.identities[offset..offset + PAGE], |s.identities|)
    else (s.identities[offset..], |s.identities|)
  }

  datatype Result = Stopped | Counts(identities: nat, actions: nat)

  /** The identities of one page. */
  method MigratePage(s: Source, scan: string, repo: TenantRepo, page: seq<Identity>, offset: nat, ghost before: Tenant,
                     ghost budget: nat)
    returns (alive: bool)
    requires offset + |page| <= |s.identities| && page == s.identities[offset..offset + |page|]
    requires After(repo, before, budget, Writes(s, scan), offset)
    modifies repo
    ensures alive ==> After(repo, before, budget, Writes(s, scan), offset + |page|)
    ensures !alive ==> budget < |s.identities| && After(repo, before, budget, Writes(s, scan), budget)
  {
    for k := 0 to |page|
      invariant After(repo, before, budget, Writes(s, scan), offset + k)
    {
      NodeWriteAt(s.identities, offset + k);
      AfterStep(before, Writes(s, scan), offset + k, PutNode(page[k]));
      alive := repo.Do(PutNode(page[k]));
      if !alive {
        return;
      }
    }
    alive := true;
  }

  /** The offset loop: each identity is written once, in order. */
  method MigrateIdentities(s: Source, scan: string, repo: TenantRepo, ghost before: Tenant, ghost budget: nat)
    returns (alive: bool, migrated: nat)
    requires After(repo, before, budget, Writes(s, scan), 0)
    modifies repo
    ensures alive ==> migrated == |s.identities| && After(repo, before, budget, Writes(s, scan), |s.identities|)
    ensures !alive ==> budget < |s.identities| && After(repo, before, budget, Writes(s, scan), budget)
  {
    migrated := 0;
    var offset := 0;
    while true
      invariant After(repo, before, budget, Writes(s, scan), migrated) && offset == migrated <= |s.identities|
      decreases |s.identities| - offset
    {
      var (page, total) := ListIdentities(s, offset);
      alive := MigratePage(s, scan, repo, page, offset, before, budget);
      if !alive {
        return;
      }
      migrated := migrated + |page|;
      offset := offset + |page|;
      if page == [] || offset >= total {
        break;
      }
    }
    alive := true;
  }

  /** One action: upserted, then given its lineage record. */
  method MigrateAction(s: Source, scan: string, repo: TenantRepo, k: nat, ghost before: Tenant, ghost budget: nat,
                       ghost n: nat)
    returns (alive: bool)
    requires k < |s.actions| && n == |s.identities| + 2 * k && After(repo, before, budget, Writes(s, scan), n)
    modifies repo
    ensures alive ==> After(repo, before, budget, Writes(s, scan), n + 2)
    ensures !alive ==> budget < |Writes(s, scan)| && After(repo, before, budget, Writes(s, scan), budget)
  {
    ghost var all := Writes(s, scan);
    var action := s.actions[k];
    ActionWriteAt(s.actions, scan, k);
    AfterStep(before, all, n, PutActivity(action));
    alive := repo.Do(PutActivity(action));
    if alive {
      AfterStep(before, all, n + 1, CreateLineage(action, scan));
      alive := repo.Do(CreateLineage(action, scan));
    }
  }

  /** The stream of actions. */
  method MigrateActions(s: Source, scan: string, repo: TenantRepo, ghost before: Tenant, ghost budget: nat)
    returns (alive: bool, migrated: nat)
    requires After(repo, before, budget, Writes(s, scan), |s.identities|)
    modifies repo
    ensures alive ==> migrated == |s.actions| && After(repo, before, budget, Writes(s, scan), |Writes(s, scan)|)
    ensures !alive ==> budget < |Writes(s, scan)| && After(repo, before, budget, Writes(s, scan), budget)
  {
    migrated := 0;
    ghost var n := |s.identities|;
    while migrated < |s.actions|
      invariant migrated <= |s.actions| && n == |s.identities| + 2 * migrated
      invariant After(repo, before, budget, Writes(s, scan), n)
    {
      alive := MigrateAction(s, scan, repo, migrated, before, budget, n);
      if !alive {
        return;
      }
      n := n + 2;
      migrated := migrated + 1;
    }
    alive := true;
  }

  /** `migrate`, in a process that stops when its budget of writes is used up. */
  method Migrate(s: Source, scan: string, repo: TenantRepo) returns (result: Result)
    modifies repo
    ensures repo.state == ApplyAll(old(repo.state),
                                   Writes(s, scan)[..if old(repo.left) < |Writes(s, scan)| then old(repo.left)
                                                   else |Writes(s, scan)|])
    ensures result == if old(repo.left) < |Writes(s, scan)| then Stopped else Counts(|s.identities|, |s.actions|)
  {
    ghost var before, budget, all := repo.state, repo.left, Writes(s, scan);
    assert all[..0] == [];
    var alive, identities := MigrateIdentities(s, scan, repo, before, budget);
    if !alive {
      return Stopped;
    }
    var actions;
    alive, actions := MigrateActions(s, scan, repo, before, budget);
    result := if alive then Counts(identities, actions) else Stopped;
  }

  // ---- Replays ----

  /** A run that got as far as `stop` writes. */
  datatype Attempt = Attempt(scan: string, stop: nat)

  predicate Possible(s: Source, attempts: seq<Attempt>) {
    forall a | a in attempts :: a.stop <= |Writes(s, a.scan)|
  }

  function RunAll(t: Tenant, s: Source, attempts: seq<Attempt>): Tenant
    requires Possible(s, attempts)
  {
    if attempts == [] then t
    else
      var last := attempts[|attempts| - 1];
      assert last in attempts;
      ApplyAll(RunAll(t, s, attempts[..|attempts| - 1]), Writes(s, last.scan)[..last.stop])
  }

  /** The tenants differ at most in what a run overwrites. */
  ghost predicate Outside(t: Tenant, u: Tenant, s: Source) {
    && (forall k | !NodeOf(s, k) :: (k in t.nodes <==> k in u.nodes) && (k in t.nodes ==> t.nodes[k] == u.nodes[k]))
    && (forall k | !ActivityOf(s, k) ::
        (k in t.activities <==> k in u.activities) && (k in t.activities ==> t.activities[k] == u.activities[k]))
  }

  predicate NodeOf(s: Source, id: string) {
    exists i | i in s.identities :: i.id == id
  }

  predicate ActivityOf(s: Source, key: Key) {
    exists a | a in s.actions :: Key(a.principal, a.id) == key
  }

  /** The write concerns an identity or action of the source. */
  predicate Within(s: Source, w: Write) {
    match w
    case PutNode(i) => i in s.identities
    case PutActivity(a) => a in s.actions
    case CreateLineage(a, _) => a in s.actions
  }

  lemma {:induction false} NodeWritesWithin(s: Source, identities: seq<Identity>)
    requires forall i | i in identities :: i in s.identities
    ensures forall w | w in NodeWrites(identities) :: w.PutNode? && Within(s, w)
  {
    if identities != [] {
      var n := |identities| - 1;
      assert identities == identities[..n] + [identities[n]];
      NodeWritesWithin(s, identities[..n]);
    }
  }

  lemma {:induction false} ActionWritesWithin(s: Source, actions: seq<Action>, scan: string)
    requires forall a | a in actions :: a in s.actions
    ensures forall w | w in ActionWrites(actions, scan) :: !w.PutNode? && Within(s, w)
  {
    if actions != [] {
      var n := |actions| - 1;
      assert actions == actions[..n] + [actions[n]];
      ActionWritesWithin(s, actions[..n], scan);
    }
  }

  lemma {:induction false} ApplyKeepsOutside(t: Tenant, s: Source, ws: seq<Write>)
    requires forall w | w in ws :: Within(s, w)
    ensures Outside(t, ApplyAll(t, ws), s)
  {
    if ws != [] {
      var n := |ws| - 1;
      assert ws == ws[..n] + [ws[n]];
      ApplyKeepsOutside(t, s, ws[..n]);
      var w := ws[n];
      assert w in ws && Within(s, w);
      match w
      case PutNode(i) => assert NodeOf(s, i.id);
      case PutActivity(a) => assert ActivityOf(s, Key(a.principal, a.id));
      case CreateLineage(_, _) =>
    }
  }

  lemma {:induction false} AttemptsKeepOutside(t: Tenant, s: Source, attempts: seq<Attempt>)
    requires Possible(s, attempts)
    ensures Outside(t, RunAll(t, s, attempts), s)
  {
    if attempts != [] {
      var n := |attempts| - 1;
      var last := attempts[n];
      assert last in attempts;
      AttemptsKeepOutside(t, s, attempts[..n]);
      NodeWritesWithin(s, s.identities);
      ActionWritesWithin(s, s.actions, last.scan);
      ApplyKeepsOutside(RunAll(t, s, attempts[..n]), s, Writes(s, last.scan)[..last.stop]);
    }
  }

  /** From two tenants that agree outside the source, a whole run ends in the same nodes and activities. */
  lemma {:induction false} WholeNodes(t: Tenant, u: Tenant, identities: seq<Identity>, k: string)
    requires ((k in t.nodes <==> k in u.nodes) && (k in t.nodes ==> t.nodes[k] == u.nodes[k])) ||
             exists i | i in identities :: i.id == k
    ensures var a, b := ApplyAll(t, NodeWrites(identities)), ApplyAll(u, NodeWrites(identities));
            && (k in a.nodes <==> k in b.nodes) && (k in a.nodes ==> a.nodes[k] == b.nodes[k])
            && a.activities == t.activities && b.activities == u.activities
  {
    if identities != [] {
      var n := |identities| - 1;
      var init, last := identities[..n], identities[n];
      assert identities == init + [last];
      ApplyStep(t, NodeWrites(init), PutNode(last));
      ApplyStep(u, NodeWrites(init), PutNode(last));
      if last.id == k {
        NodesOnly(t, init);
        NodesOnly(u, init);
      } else {
        WholeNodes(t, u, init, k);
      }
    }
  }

  lemma {:induction false} NodesOnly(t: Tenant, identities: seq<Identity>)
    ensures ApplyAll(t, NodeWrites(identities)).activities == t.activities
    ensures ApplyAll(t, NodeWrites(identities)).lineage == t.lineage
  {
    if identities != [] {
      var n := |identities| - 1;
      NodesOnly(t, identities[..n]);
      ApplyStep(t, NodeWrites(identities[..n]), PutNode(identities[n]));
    }
  }

  lemma ActionStep(t: Tenant, actions: seq<Action>, a: Action, scan: string)
    ensures ApplyAll(t, ActionWrites(actions + [a], scan)) ==
            Apply(Apply(ApplyAll(t, ActionWrites(actions, scan)), PutActivity(a)), CreateLineage(a, scan))
  {
    assert (actions + [a])[..|actions + [a]| - 1] == actions;
    var ws := ActionWrites(actions, scan);
    assert ws + [PutActivity(a), CreateLineage(a, scan)] == (ws + [PutActivity(a)]) + [CreateLineage(a, scan)];
    ApplyStep(t, ws, PutActivity(a));
    ApplyStep(t, ws + [PutActivity(a)], CreateLineage(a, scan));
  }

  lemma {:induction false} WholeActivities(t: Tenant, u: Tenant, actions: seq<Action>, scan: string, scan': string,
                                           k: Key)
    requires ((k in t.activities <==> k in u.activities) &&
              (k in t.activities ==> t.activities[k] == u.activities[k])) ||
             exists a | a in actions :: Key(a.principal, a.id) == k
    ensures var a, b := ApplyAll(t, ActionWrites(actions, scan)), ApplyAll(u, ActionWrites(actions, scan'));
            && (k in a.activities <==> k in b.activities) && (k in a.activities ==> a.activities[k] == b.activities[k])
            && a.nodes == t.nodes && b.nodes == u.nodes
  {
    if actions != [] {
      var n := |actions| - 1;
      var init, last := actions[..n], actions[n];
      assert actions == init + [last];
      ActionStep(t, init, last, scan);
      ActionStep(u, init, last, scan');
      if Key(last.principal, last.id) == k {
        ActionsOnly(t, init, scan);
        ActionsOnly(u, init, scan');
      } else {
        WholeActivities(t, u, init, scan, scan', k);
      }
    }
  }

  lemma {:induction false} ActionsOnly(t: Tenant, actions: seq<Action>, scan: string)
    ensures ApplyAll(t, ActionWrites(actions, scan)).nodes == t.nodes
  {
    if actions != [] {
      var n := |actions| - 1;
      assert actions == actions[..n] + [actions[n]];
      ActionsOnly(t, actions[..n], scan);
      ActionStep(t, actions[..n], actions[n], scan);
    }
  }

  lemma {:induction false} ApplyAppend(t: Tenant, a: seq<Write>, b: seq<Write>)
    ensures ApplyAll(t, a + b) == ApplyAll(ApplyAll(t, a), b)
    decreases |b|
  {
    if b == [] {
      assert a + b == a;
    } else {
      var n := |b| - 1;
      assert (a + b)[..|a + b| - 1] == a + b[..n];
      ApplyAppend(t, a, b[..n]);
    }
  }

  lemma WholeRun(t: Tenant, u: Tenant, s: Source, scan: string, scan': string)
    requires Outside(t, u, s)
    ensures ApplyAll(t, Writes(s, scan)).nodes == ApplyAll(u, Writes(s, scan')).nodes
    ensures ApplyAll(t, Writes(s, scan)).activities == ApplyAll(u, Writes(s, scan')).activities
  {
    ApplyAppend(t, NodeWrites(s.identities), ActionWrites(s.actions, scan));
    ApplyAppend(u, NodeWrites(s.identities), ActionWrites(s.actions, scan'));
    var t1, u1 := ApplyAll(t, NodeWrites(s.identities)), ApplyAll(u, NodeWrites(s.identities));
    NodesOnly(t, s.identities);
    NodesOnly(u, s.identities);
    ActionsOnly(t1, s.actions, scan);
    ActionsOnly(u1, s.actions, scan');
    var a, b := ApplyAll(t1, ActionWrites(s.actions, scan)), ApplyAll(u1, ActionWrites(s.actions, scan'));
    forall k ensures (k in a.nodes <==> k in b.nodes) && (k in a.nodes ==> a.nodes[k] == b.nodes[k]) {
      WholeNodes(t, u, s.identities, k);
    }
    forall k
      ensures (k in a.activities <==> k in b.activities) && (k in a.activities ==> a.activities[k] == b.activities[k])
    {
      WholeActivities(t1, u1, s.actions, scan, scan', k);
    }
    assert a.nodes == b.nodes;
    assert a.activities == b.activities;
  }

  /** However many runs were stopped wherever, and under whatever scan ids, one whole run then leaves the nodes and
      activities of a single uninterrupted run. */
  lemma ReplaysAreSafe(t: Tenant, s: Source, attempts: seq<Attempt>, scan: string, scan': string)
    requires Possible(s, attempts)
    ensures var replayed, once := ApplyAll(RunAll(t, s, attempts), Writes(s, scan)), ApplyAll(t, Writes(s, scan'));
            replayed.nodes == once.nodes && replayed.activities == once.activities
  {
    AttemptsKeepOutside(t, s, attempts);
    WholeRun(RunAll(t, s, attempts), t, s, scan, scan');
  }

  // ---- A whole run that is not the last ----

  /** Records under one id or key are the same record. */
  predicate Consistent(s: Source) {
    && (forall i, j | i in s.identities && j in s.identities && i.id == j.id :: i == j)
    && (forall a, b | a in s.actions && b in s.actions && Key(a.principal, a.id) == Key(b.principal, b.id) :: a == b)
  }

  /** Every record of the source is in its place. */
  predicate InPlace(t: Tenant, s: Source) {
    && (forall i | i in s.identities :: i.id in t.nodes && t.nodes[i.id] == i)
    && (forall a | a in s.actions ::
        Key(a.principal, a.id) in t.activities && t.activities[Key(a.principal, a.id)] == a)
  }

  predicate SameEvidence(t: Tenant, u: Tenant) {
    t.nodes == u.nodes && t.activities == u.activities
  }

  lemma {:induction false} NodesInPlace(t: Tenant, identities: seq<Identity>)
    requires forall i, j | i in identities && j in identities && i.id == j.id :: i == j
    ensures var nodes := ApplyAll(t, NodeWrites(identities)).nodes;
            forall i | i in identities :: i.id in nodes && nodes[i.id] == i
  {
    if identities != [] {
      var n := |identities| - 1;
      assert identities == identities[..n] + [identities[n]];
      NodesInPlace(t, identities[..n]);
      ApplyStep(t, NodeWrites(identities[..n]), PutNode(identities[n]));
    }
  }

  lemma {:induction false} ActivitiesInPlace(t: Tenant, actions: seq<Action>, scan: string)
    requires forall a, b | a in actions && b in actions && Key(a.principal, a.id) == Key(b.principal, b.id) :: a == b
    ensures var activities := ApplyAll(t, ActionWrites(actions, scan)).activities;
            forall a | a in actions :: Key(a.principal, a.id) in activities && activities[Key(a.principal, a.id)] == a
  {
    if actions != [] {
      var n := |actions| - 1;
      assert actions == actions[..n] + [actions[n]];
      ActivitiesInPlace(t, actions[..n], scan);
      ActionStep(t, actions[..n], actions[n], scan);
    }
  }

  lemma WholeRunPlaces(t: Tenant, s: Source, scan: string)
    requires Consistent(s)
    ensures InPlace(ApplyAll(t, Writes(s, scan)), s)
  {
    var t1 := ApplyAll(t, NodeWrites(s.identities));
    ApplyAppend(t, NodeWrites(s.identities), ActionWrites(s.actions, scan));
    NodesInPlace(t, s.identities);
    ActionsOnly(t1, s.actions, scan);
    ActivitiesInPlace(t1, s.actions, scan);
  }

  lemma {:induction false} StoppedRunKeeps(t: Tenant, s: Source, scan: string, n: nat)
    requires InPlace(t, s) && n <= |Writes(s, scan)|
    ensures SameEvidence(ApplyAll(t, Writes(s, scan)[..n]), t)
  {
    if n > 0 {
      StoppedRunKeeps(t, s, scan, n - 1);
      NodeWritesWithin(s, s.identities);
      ActionWritesWithin(s, s.actions, scan);
      assert Writes(s, scan)[n - 1] in Writes(s, scan) && Within(s, Writes(s, scan)[n - 1]);
      AfterStep(t, Writes(s, scan), n - 1, Writes(s, scan)[n - 1]);
    }
  }

  lemma {:induction false} AttemptsKeep(t: Tenant, s: Source, attempts: seq<Attempt>)
    requires InPlace(t, s) && Possible(s, attempts)
    ensures SameEvidence(RunAll(t, s, attempts), t)
  {
    if attempts != [] {
      var n := |attempts| - 1;
      assert attempts[n] in attempts;
      AttemptsKeep(t, s, attempts[..n]);
      StoppedRunKeeps(RunAll(t, s, attempts[..n]), s, attempts[n].scan, attempts[n].stop);
    }
  }

  /** Whatever runs follow, stopped wherever, the nodes and activities stay. */
  ghost predicate Lasting(t: Tenant, s: Source) {
    forall attempts | Possible(s, attempts) :: SameEvidence(RunAll(t, s, attempts), t)
  }

  /** A run stopped right behind a record leaves that record in place. */
  lemma StoppedBehind(t: Tenant, s: Source, n: nat)
    requires Lasting(t, s) && n < |Writes(s, "")|
    ensures SameEvidence(Apply(ApplyAll(t, Writes(s, "")[..n]), Writes(s, "")[n]), t)
  {
    var one := [Attempt("", n + 1)];
    assert Possible(s, one) && one[..0] == [];
    assert RunAll(t, s, one) == ApplyAll(t, Writes(s, "")[..n + 1]);
    AfterStep(t, Writes(s, ""), n, Writes(s, "")[n]);
  }

  lemma LastingIsInPlace(t: Tenant, s: Source)
    requires Lasting(t, s)
    ensures InPlace(t, s)
  {
    forall i | i in s.identities ensures i.id in t.nodes && t.nodes[i.id] == i {
      var n :| 0 <= n < |s.identities| && s.identities[n] == i;
      NodeWriteAt(s.identities, n);
      StoppedBehind(t, s, n);
    }
    forall a | a in s.actions
      ensures Key(a.principal, a.id) in t.activities && t.activities[Key(a.principal, a.id)] == a {
      var n :| 0 <= n < |s.actions| && s.actions[n] == a;
      ActionWriteAt(s.actions, "", n);
      assert Writes(s, "")[|s.identities| + 2 * n] == PutActivity(a);
      StoppedBehind(t, s, |s.identities| + 2 * n);
    }
  }

  /** One whole run anywhere among the attempts is enough, exactly when no id stands for two different records. */
  lemma WholeRunLasts(t: Tenant, s: Source, scan: string)
    ensures Lasting(ApplyAll(t, Writes(s, scan)), s) <==> Consistent(s)
  {
    var whole := ApplyAll(t, Writes(s, scan));
    if Consistent(s) {
      WholeRunPlaces(t, s, scan);
      forall attempts | Possible(s, attempts) ensures SameEvidence(RunAll(whole, s, attempts), whole) {
        AttemptsKeep(whole, s, attempts);
      }
    }
    if Lasting(whole, s) {
      LastingIsInPlace(whole, s);
    }
  }

  // ---- Lineage ----

  /** A lineage record, once there, stays as it is. */
  lemma {:induction false} LineageStays(t: Tenant, ws: seq<Write>, id: string)
    requires id in t.lineage
    ensures id in ApplyAll(t, ws).lineage && ApplyAll(t, ws).lineage[id] == t.lineage[id]
  {
    if ws != [] {
      LineageStays(t, ws[..|ws| - 1], id);
    }
  }

  /** The first write that creates a record for the id decides it. */
  lemma {:induction false} LineageIsFirst(t: Tenant, ws: seq<Write>, id: string, n: nat)
    requires id !in t.lineage && n < |ws| && ws[n].CreateLineage? && ws[n].action.id == id
    requires forall i | 0 <= i < n :: ws[i].CreateLineage? ==> ws[i].action.id != id
    ensures id in ApplyAll(t, ws).lineage && ApplyAll(t, ws).lineage[id] == Lineage(id, ws[n].scan)
  {
    NoLineageYet(t, ws[..n], id);
    var upTo := ws[..n + 1];
    assert upTo == ws[..n] + [ws[n]];
    ApplyStep(t, ws[..n], ws[n]);
    assert ws == upTo + ws[n + 1..];
    ApplyAppend(t, upTo, ws[n + 1..]);
    LineageStays(ApplyAll(t, upTo), ws[n + 1..], id);
  }

  lemma {:induction false} NoLineageYet(t: Tenant, ws: seq<Write>, id: string)
    requires id !in t.lineage && forall w | w in ws && w.CreateLineage? :: w.action.id != id
    ensures id !in ApplyAll(t, ws).lineage
  {
    if ws != [] {
      var n := |ws| - 1;
      assert ws == ws[..n] + [ws[n]];
      NoLineageYet(t, ws[..n], id);
    }
  }

  /** All writes of a sequence of attempts, one after the other. */
  function AllWrites(s: Source, attempts: seq<Attempt>): seq<Write>
    requires Possible(s, attempts)
  {
    if attempts == [] then []
    else
      var last := attempts[|attempts| - 1];
      assert last in attempts;
      AllWrites(s, attempts[..|attempts| - 1]) + Writes(s, last.scan)[..last.stop]
  }

  lemma {:induction false} RunAllIsAllWrites(t: Tenant, s: Source, attempts: seq<Attempt>)
    requires Possible(s, attempts)
    ensures RunAll(t, s, attempts) == ApplyAll(t, AllWrites(s, attempts))
  {
    if attempts != [] {
      var n := |attempts| - 1;
      var last := attempts[n];
      assert last in attempts;
      RunAllIsAllWrites(t, s, attempts[..n]);
      ApplyAppend(t, AllWrites(s, attempts[..n]), Writes(s, last.scan)[..last.stop]);
    }
  }

  /** Over any attempts, an action's lineage record is that of the attempt that first got as far as creating it. */
  lemma LineageOfAttempts(t: Tenant, s: Source, attempts: seq<Attempt>, id: string, n: nat)
    requires Possible(s, attempts) && id !in t.lineage
    requires n < |AllWrites(s, attempts)| && AllWrites(s, attempts)[n].CreateLineage? &&
             AllWrites(s, attempts)[n].action.id == id
    requires forall i | 0 <= i < n :: AllWrites(s, attempts)[i].CreateLineage? ==>
             AllWrites(s, attempts)[i].action.id != id
    ensures id in RunAll(t, s, attempts).lineage
    ensures RunAll(t, s, attempts).lineage[id] == Lineage(id, AllWrites(s, attempts)[n].scan)
  {
    RunAllIsAllWrites(t, s, attempts);
    LineageIsFirst(t, AllWrites(s, attempts), id, n);
  }

  /** After a whole run every action of the source has its record. */
  lemma EveryActionHasLineage(t: Tenant, s: Source, scan: string, a: Action)
    requires a in s.actions
    ensures a.id in ApplyAll(t, Writes(s, scan)).lineage
  {
    var i :| 0 <= i < |s.actions| && s.actions[i] == a;
    ActionWriteAt(s.actions, scan, i);
    var ws := Writes(s, scan);
    var n := |s.identities| + 2 * i + 1;
    assert ws[n] == CreateLineage(a, scan);
    var upTo := ws[..n + 1];
    assert upTo == ws[..n] + [ws[n]];
    ApplyStep(t, ws[..n], ws[n]);
    assert ws == upTo + ws[n + 1..];
    ApplyAppend(t, upTo, ws[n + 1..]);
    LineageStays(ApplyAll(t, upTo), ws[n + 1..], a.id);
  }
}
