/** Scoring built-in roles against a set of required permissions. `covers` is the wildcard test of a pattern. */
module RoleMatching {
  import opened Sequences
  import opened Wildcards

  datatype Role = Role(id: string, permissions: seq<string>)

  datatype Match = Match(roleId: string, score: real, matched: nat, total: nat, excess: seq<string>)

  /** The required permissions some pattern of the role covers. */
  function Matched(required: set<string>, permissions: seq<string>, covers: (string, string) -> bool): set<string> {
    set r | r in required && exists p | p in permissions :: covers(p, r)
  }

  /** The pattern covers nothing that is required. */
  function Useless(required: set<string>, covers: (string, string) -> bool): string -> bool {
    (p: string) => forall r | r in required :: !covers(p, r)
  }

  function Excess(required: set<string>, permissions: seq<string>, covers: (string, string) -> bool): seq<string> {
    Filter(Useless(required, covers), permissions)
  }

  function Kept(required: set<string>, permissions: seq<string>, covers: (string, string) -> bool): seq<string> {
    Filter((p: string) => !Useless(required, covers)(p), permissions)
  }

  /** How many are required, at least one. */
  function Needed(required: set<string>): nat {
    if |required| == 0 then 1 else |required|
  }

  function Score(required: set<string>, permissions: seq<string>, covers: (string, string) -> bool): real {
    |Matched(required, permissions, covers)| as real / Needed(required) as real
  }

  lemma ScoreOrder(a: nat, b: nat, n: nat)
    requires a <= b && n > 0
    ensures a as real / n as real <= b as real / n as real
  {
  }

  /** The score is between 0 and 1; 1 exactly when every requirement is covered and there is one. */
  lemma ScoreRange(required: set<string>, permissions: seq<string>, covers: (string, string) -> bool)
    ensures 0.0 <= Score(required, permissions, covers) <= 1.0
    ensures Score(required, permissions, covers) == 1.0 <==>
            required != {} && Matched(required, permissions, covers) == required
  {
    var m := Matched(required, permissions, covers);
    SubsetSize(m, required);
    ScoreOrder(0, |m|, Needed(required));
    ScoreOrder(|m|, |required|, Needed(required));
    Whole(|m|, Needed(required));
  }

  lemma Whole(m: nat, n: nat)
    requires n > 0
    ensures m as real / n as real == 1.0 <==> m == n
    ensures n as real / n as real == 1.0 && 0.0 / n as real == 0.0
  {
    var q := m as real / n as real;
    assert q * n as real == m as real;
  }

  /** More permissions never match less nor score lower. */
  lemma MorePermissions(required: set<string>, few: seq<string>, many: seq<string>, covers: (string, string) -> bool)
    requires forall p | p in few :: p in many
    ensures Matched(required, few, covers) <= Matched(required, many, covers)
    ensures Score(required, few, covers) <= Score(required, many, covers)
  {
    SubsetSize(Matched(required, few, covers), Matched(required, many, covers));
    ScoreOrder(|Matched(required, few, covers)|, |Matched(required, many, covers)|, Needed(required));
  }

  /** Dropping all excess permissions of a role changes neither what it matches nor its score, and leaves no excess. */
  lemma DroppingExcess(required: set<string>, permissions: seq<string>, covers: (string, string) -> bool)
    ensures Matched(required, Kept(required, permissions, covers), covers) == Matched(required, permissions, covers)
    ensures Score(required, Kept(required, permissions, covers), covers) == Score(required, permissions, covers)
    ensures Excess(required, Kept(required, permissions, covers), covers) == []
    ensures |Kept(required, permissions, covers)| + |Excess(required, permissions, covers)| == |permissions|
  {
    var useless := Useless(required, covers);
    var useful := (p: string) => !Useless(required, covers)(p);
    var kept := Filter(useful, permissions);
    assert kept == Kept(required, permissions, covers);
    forall p ensures p in kept <==> p in permissions && !useless(p) {
      FilterMember(useful, permissions, p);
    }
    var before, after := Matched(required, permissions, covers), Matched(required, kept, covers);
    forall r ensures r in before <==> r in after {
      if r in before {
        var p :| p in permissions && covers(p, r);
        assert p in kept;
      }
    }
    assert before == after;
    var excess := Filter(useless, kept);
    if excess != [] {
      FilterMember(useless, kept, excess[0]);
      assert false;
    }
    Partition(useful, useless, permissions);
  }

  lemma {:induction false} Partition<T>(p: T -> bool, q: T -> bool, s: seq<T>)
    requires forall x :: p(x) <==> !q(x)
    ensures |Filter(p, s)| + |Filter(q, s)| == |s|
  {
    if s != [] {
      Partition(p, q, s[..|s| - 1]);
    }
  }

  // ---- With the two wildcard tests ----

  function Entra(lower: string -> string): (string, string) -> bool {
    (pattern: string, target: string) => EntraCovers(pattern, target, lower)
  }

  function Azure(lower: string -> string): (string, string) -> bool {
    (pattern: string, target: string) => AzureCovers(pattern, target, lower)
  }

  /** A requirement the role holds, up to case, is matched under both tests. */
  lemma HeldIsMatched(required: set<string>, permissions: seq<string>, lower: string -> string, r: string, p: string)
    requires r in required && p in permissions && lower(p) == lower(r)
    ensures r in Matched(required, permissions, Azure(lower))
    ensures r in Matched(required, permissions, Entra(lower))
  {
    GlobSelf(lower(p));
    EntraIsWider(p, r, lower);
    assert Azure(lower)(p, r) && Entra(lower)(p, r);
  }

  /** The Entra test matches and scores at least what the plain one does. */
  lemma EntraScoresHigher(required: set<string>, permissions: seq<string>, lower: string -> string)
    ensures Matched(required, permissions, Azure(lower)) <= Matched(required, permissions, Entra(lower))
    ensures Score(required, permissions, Azure(lower)) <= Score(required, permissions, Entra(lower))
  {
    var few, many := Matched(required, permissions, Azure(lower)), Matched(required, permissions, Entra(lower));
    forall r | r in few ensures r in many {
      var p :| p in permissions && Azure(lower)(p, r);
      EntraIsWider(p, r, lower);
      assert Entra(lower)(p, r);
    }
    SubsetSize(few, many);
    ScoreOrder(|few|, |many|, Needed(required));
  }

  lemma StarCoversAll(text: string)
    ensures Glob("*", text)
  {
    assert "*" + "" == "*" && text[|text|..] == "";
    StarMeaning("", text);
    assert SomeSuffix("", text);
  }

  /** A role that holds the star scores 1 whenever something is required, and has no use for another pattern. */
  lemma StarScoresOne(required: set<string>, permissions: seq<string>, lower: string -> string, p: string)
    requires required != {} && p in permissions && lower(p) == "*"
    ensures Score(required, permissions, Azure(lower)) == 1.0 && Score(required, permissions, Entra(lower)) == 1.0
    ensures p !in Excess(required, permissions, Azure(lower)) && p !in Excess(required, permissions, Entra(lower))
  {
    forall r | r in required ensures Azure(lower)(p, r) && Entra(lower)(p, r) {
      StarCoversAll(lower(r));
      EntraIsWider(p, r, lower);
    }
    assert Matched(required, permissions, Azure(lower)) == required;
    assert Matched(required, permissions, Entra(lower)) == required;
    ScoreRange(required, permissions, Azure(lower));
    ScoreRange(required, permissions, Entra(lower));
    FilterMember(Useless(required, Azure(lower)), permissions, p);
    FilterMember(Useless(required, Entra(lower)), permissions, p);
  }

  /** A role without stars matches, under the plain test, exactly the requirements it holds up to case. */
  lemma LiteralRole(required: set<string>, permissions: seq<string>, lower: string -> string, r: string)
    requires r in required && forall p | p in permissions :: '*' !in lower(p)
    ensures r in Matched(required, permissions, Azure(lower)) <==> exists p | p in permissions :: lower(p) == lower(r)
  {
    forall p | p in permissions ensures Azure(lower)(p, r) <==> lower(p) == lower(r) {
      LiteralPattern(lower(p), lower(r));
    }
  }

  // ---- The loops ----

  /** The first loop of a role: which requirements some pattern covers. */
  method CollectMatched(permissions: seq<string>, list: seq<string>, covers: (string, string) -> bool)
    returns (matched: set<string>)
    ensures matched == Matched((set r | r in list), permissions, covers)
  {
    matched := {};
    for k := 0 to |list|
      invariant matched == Matched((set r | r in list[..k]), permissions, covers)
    {
      assert list[..k + 1] == list[..k] + [list[k]];
      var covered := CoveredBy(permissions, list[k], covers);
      if covered {
        matched := matched + {list[k]};
      }
    }
    assert list[..|list|] == list;
  }

  method CoveredBy(permissions: seq<string>, req: string, covers: (string, string) -> bool) returns (covered: bool)
    ensures covered <==> exists p | p in permissions :: covers(p, req)
  {
    for i := 0 to |permissions|
      invariant forall p | p in permissions[..i] :: !covers(p, req)
    {
      assert permissions[..i + 1] == permissions[..i] + [permissions[i]];
      if covers(permissions[i], req) {
        return true;
      }
    }
    assert permissions[..|permissions|] == permissions;
    covered := false;
  }

  /** The second loop: the permissions that cover nothing required. */
  method CollectExcess(permissions: seq<string>, list: seq<string>, covers: (string, string) -> bool)
    returns (excess: seq<string>)
    ensures excess == Excess((set r | r in list), permissions, covers)
  {
    ghost var useless := Useless((set r | r in list), covers);
    excess := [];
    for i := 0 to |permissions|
      invariant excess == Filter(useless, permissions[..i])
    {
      var p := permissions[i];
      assert permissions[..i + 1] == permissions[..i] + [p];
      FilterStep(useless, permissions[..i], p);
      var coversAny := CoversAny(p, list, covers);
      if !coversAny {
        excess := excess + [p];
      }
    }
    assert permissions[..|permissions|] == permissions;
  }

  method CoversAny(p: string, list: seq<string>, covers: (string, string) -> bool) returns (any: bool)
    ensures any <==> exists r | r in list :: covers(p, r)
  {
    any := false;
    for k := 0 to |list|
      invariant any <==> exists r | r in list[..k] :: covers(p, r)
    {
      assert list[..k + 1] == list[..k] + [list[k]];
      any := any || covers(p, list[k]);
    }
    assert list[..|list|] == list;
  }

  /** One role against the requirements; `list` holds them in the order the set gives. */
  method MatchRole(role: Role, list: seq<string>, covers: (string, string) -> bool, round: real -> real)
    returns (m: Match)
    requires NoDuplicates(list)
    ensures Describes(m, role, (set r | r in list), covers, round)
  {
    var matched := CollectMatched(role.permissions, list, covers);
    var excess := CollectExcess(role.permissions, list, covers);
    SetOfDistinct(list);
    var needed := if |list| == 0 then 1 else |list|;
    m := Match(role.id, round(|matched| as real / needed as real), |matched|, |role.permissions|, excess);
  }

  /** The match is the role's: what it matches, what it has in excess, and its rounded score. */
  predicate Describes(m: Match, role: Role, required: set<string>, covers: (string, string) -> bool,
                      round: real -> real) {
    && m.roleId == role.id && m.total == |role.permissions|
    && m.excess == Excess(required, role.permissions, covers)
    && m.matched == |Matched(required, role.permissions, covers)|
    && m.score == round(Score(required, role.permissions, covers))
  }

  /** The match names the role and its number of permissions; it has the number of the listed requirements that some
      permission covers, that number over the length of the list, rounded, and the permissions that cover none. */
  predicate Reports(m: Match, role: Role, list: seq<string>, covers: (string, string) -> bool, round: real -> real) {
    var met := Filter((r: string) => exists p | p in role.permissions :: covers(p, r), list);
    && m.roleId == role.id && m.total == |role.permissions| && m.matched == |met|
    && m.score == round(if list == [] then 0.0 else |met| as real / |list| as real)
    && m.excess == Filter((p: string) => forall r | r in list :: !covers(p, r), role.permissions)
  }

  lemma {:induction false} FilterNoDuplicates(p: string -> bool, s: seq<string>)
    requires NoDuplicates(s)
    ensures NoDuplicates(Filter(p, s))
  {
    if s != [] {
      var n := |s| - 1;
      assert s == s[..n] + [s[n]];
      FilterNoDuplicates(p, s[..n]);
      FilterMember(p, s[..n], s[n]);
    }
  }

  lemma MetCount(list: seq<string>, permissions: seq<string>, covers: (string, string) -> bool)
    requires NoDuplicates(list)
    ensures |Filter((r: string) => exists p | p in permissions :: covers(p, r), list)| ==
            |Matched((set r | r in list), permissions, covers)|
  {
    var meets := (r: string) => exists p | p in permissions :: covers(p, r);
    var met := Filter(meets, list);
    FilterNoDuplicates(meets, list);
    forall r ensures r in met <==> r in Matched((set r | r in list), permissions, covers) {
      FilterMember(meets, list, r);
    }
    SetOfDistinct(met);
    assert (set r | r in met) == Matched((set r | r in list), permissions, covers);
  }

  lemma DescribedReports(m: Match, role: Role, list: seq<string>, covers: (string, string) -> bool, round: real -> real)
    requires NoDuplicates(list) && Describes(m, role, (set r | r in list), covers, round)
    ensures Reports(m, role, list, covers, round)
  {
    MetCount(list, role.permissions, covers);
    SetOfDistinct(list);
    FilterSame(Useless((set r | r in list), covers), (p: string) => forall r | r in list :: !covers(p, r),
               role.permissions);
  }

  /** A match and the place of its role in the catalog. */
  datatype Placed = Placed(place: nat, result: Match)

  /** Higher scores first; among equal scores the catalog's order. */
  predicate Before(a: Placed, b: Placed) {
    a.result.score > b.result.score || (a.result.score == b.result.score && a.place < b.place)
  }

  predicate Ordered(s: seq<Placed>) {
    forall i, j | 0 <= i < j < |s| :: Before(s[i], s[j])
  }

  lemma OrderedInsert(s: seq<Placed>, x: Placed, k: nat)
    requires Ordered(s) && forall i | 0 <= i < |s| :: s[i].place < x.place
    requires k <= |s| && (forall i | 0 <= i < k :: s[i].result.score >= x.result.score)
    requires k < |s| ==> s[k].result.score < x.result.score
    ensures Ordered(s[..k] + [x] + s[k..])
  {
    var r := s[..k] + [x] + s[k..];
    forall i, j | 0 <= i < j < |r| ensures Before(r[i], r[j]) {
      var a, b := r[i], r[j];
      assert a == (if i < k then s[i] else if i == k then x else s[i - 1]);
      assert b == (if j < k then s[j] else if j == k then x else s[j - 1]);
      if i == k && j - 1 > k {
        assert Before(s[k], s[j - 1]);
      }
    }
  }

  /** Where a stable descending sort puts one more element: behind all that score at least as much. */
  method Insert(s: seq<Placed>, x: Placed) returns (r: seq<Placed>)
    requires Ordered(s) && forall i | 0 <= i < |s| :: s[i].place < x.place
    ensures Ordered(r) && multiset(r) == multiset(s + [x])
  {
    var k := 0;
    while k < |s| && s[k].result.score >= x.result.score
      invariant k <= |s| && forall i | 0 <= i < k :: s[i].result.score >= x.result.score
    {
      k := k + 1;
    }
    OrderedInsert(s, x, k);
    r := s[..k] + [x] + s[k..];
    assert s == s[..k] + s[k..];
  }

  /** `find_matching_entra_roles` and its Azure sibling: every role once, scored, and sorted stably from the highest
      score down. `placed` lists the matches in the catalog's order. */
  method FindMatchingRoles(roles: seq<Role>, list: seq<string>, covers: (string, string) -> bool, round: real -> real)
    returns (results: seq<Placed>, ghost placed: seq<Placed>)
    requires NoDuplicates(list)
    ensures Ordered(results) && multiset(results) == multiset(placed) && |placed| == |roles|
    ensures forall i: nat | i < |roles| ::
            placed[i].place == i && Describes(placed[i].result, roles[i], (set r | r in list), covers, round)
    ensures forall i, j | 0 <= i < j < |results| ::
              results[i].result.score > results[j].result.score ||
              (results[i].result.score == results[j].result.score && results[i].place < results[j].place)
    ensures forall i: nat | i < |roles| :: Reports(placed[i].result, roles[i], list, covers, round)
  {
    results, placed := [], [];
    for k := 0 to |roles|
      invariant Ordered(results) && multiset(results) == multiset(placed) && |placed| == k
      invariant forall i: nat | i < k ::
                placed[i].place == i && Describes(placed[i].result, roles[i], (set r | r in list), covers, round)
    {
      var m := MatchRole(roles[k], list, covers, round);
      var x := Placed(k, m);
      forall i | 0 <= i < |results| ensures results[i].place < k {
        assert results[i] in multiset(placed);
      }
      assert multiset(results + [x]) == multiset(placed + [x]);
      results := Insert(results, x);
      placed := placed + [x];
    }
    forall i: nat | i < |roles| ensures Reports(placed[i].result, roles[i], list, covers, round) {
      DescribedReports(placed[i].result, roles[i], list, covers, round);
    }
  }
}
