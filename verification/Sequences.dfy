/** Sums, concatenation and duplicate-freedom of sequences, shared by the models. */
module Sequences {

  /** The sum of `f` over `s`. */
  function Sum<T>(f: T -> int, s: seq<T>): int {
    if s == [] then 0 else f(s[0]) + Sum(f, s[1..])
  }

  lemma {:induction false} SumAppend<T>(f: T -> int, a: seq<T>, b: seq<T>)
    ensures Sum(f, a + b) == Sum(f, a) + Sum(f, b)
  {
    if a == [] {
      assert a + b == b;
    } else {
      assert (a + b)[1..] == a[1..] + b;
      SumAppend(f, a[1..], b);
    }
  }

  lemma {:induction false} SumUpdate<T>(f: T -> int, s: seq<T>, i: nat, x: T)
    requires i < |s|
    ensures Sum(f, s[i := x]) == Sum(f, s) - f(s[i]) + f(x)
  {
    if i == 0 {
      assert s[0 := x][1..] == s[1..];
    } else {
      assert s[i := x][1..] == s[1..][i - 1 := x];
      SumUpdate(f, s[1..], i - 1, x);
    }
  }

  /** Pointwise order carries over to sums, and equal sums force pointwise equality. */
  lemma {:induction false} SumPointwise<T>(f: T -> int, g: T -> int, s: seq<T>)
    requires forall i | 0 <= i < |s| :: f(s[i]) <= g(s[i])
    ensures Sum(f, s) <= Sum(g, s)
    ensures Sum(f, s) == Sum(g, s) <==> forall i | 0 <= i < |s| :: f(s[i]) == g(s[i])
  {
    if s != [] {
      assert forall i | 0 <= i < |s[1..]| :: s[1..][i] == s[i + 1];
      SumPointwise(f, g, s[1..]);
      if Sum(f, s) == Sum(g, s) {
        forall i | 0 <= i < |s| ensures f(s[i]) == g(s[i]) {
          if i > 0 {
            assert s[i] == s[1..][i - 1];
          }
        }
      }
    }
  }

  lemma {:induction false} SumBounds<T>(f: T -> int, s: seq<T>, lo: int, hi: int)
    requires forall i | 0 <= i < |s| :: lo <= f(s[i]) <= hi
    ensures lo * |s| <= Sum(f, s) <= hi * |s|
  {
    if s != [] {
      assert forall i | 0 <= i < |s[1..]| :: s[1..][i] == s[i + 1];
      SumBounds(f, s[1..], lo, hi);
    }
  }

  /** The concatenation of a sequence of sequences. */
  function Flatten<T>(ss: seq<seq<T>>): seq<T> {
    if ss == [] then [] else ss[0] + Flatten(ss[1..])
  }

  lemma {:induction false} FlattenAppend<T>(a: seq<seq<T>>, b: seq<seq<T>>)
    ensures Flatten(a + b) == Flatten(a) + Flatten(b)
  {
    if a == [] {
      assert a + b == b;
    } else {
      assert (a + b)[1..] == a[1..] + b;
      FlattenAppend(a[1..], b);
    }
  }

  lemma {:induction false} FlattenMember<T>(ss: seq<seq<T>>, x: T)
    ensures x in Flatten(ss) <==> exists i | 0 <= i < |ss| :: x in ss[i]
  {
    if ss != [] {
      FlattenMember(ss[1..], x);
      assert forall i | 0 <= i < |ss[1..]| :: ss[1..][i] == ss[i + 1];
      if x in Flatten(ss) {
        if x in ss[0] {
        } else {
          var i :| 0 <= i < |ss[1..]| && x in ss[1..][i];
          assert x in ss[i + 1];
        }
      }
      if i :| 0 <= i < |ss| && x in ss[i] {
        if i > 0 {
          assert x in ss[1..][i - 1];
        }
      }
    }
  }

  lemma SubsetSize<T>(a: set<T>, b: set<T>)
    requires a <= b
    ensures |a| <= |b|
    ensures |a| == |b| <==> a == b
  {
    assert b == a + (b - a);
  }

  predicate NoDuplicates<T(==)>(s: seq<T>) {
    forall i, j | 0 <= i < j < |s| :: s[i] != s[j]
  }

  lemma {:induction false} SetOfDistinct<T>(s: seq<T>)
    requires NoDuplicates(s)
    ensures |set x | x in s| == |s|
  {
    if s == [] {
      assert (set x | x in s) == {};
    } else {
      var n := |s| - 1;
      assert s == s[..n] + [s[n]];
      SetOfDistinct(s[..n]);
      assert (set x | x in s) == (set x | x in s[..n]) + {s[n]};
    }
  }

  /** The elements of `s` that satisfy `p`, in order. */
  function Filter<T>(p: T -> bool, s: seq<T>): seq<T> {
    if s == [] then [] else Filter(p, s[..|s| - 1]) + (if p(s[|s| - 1]) then [s[|s| - 1]] else [])
  }

  lemma {:induction false} FilterAppend<T>(p: T -> bool, a: seq<T>, b: seq<T>)
    ensures Filter(p, a + b) == Filter(p, a) + Filter(p, b)
    decreases |b|
  {
    if b == [] {
      assert a + b == a;
    } else {
      var n := |b| - 1;
      assert a + b == (a + b[..n]) + [b[n]] && b == b[..n] + [b[n]];
      FilterAppend(p, a, b[..n]);
      FilterStep(p, a + b[..n], b[n]);
      FilterStep(p, b[..n], b[n]);
    }
  }

  /** Any element that passes a filter can be arranged to come first. */
  lemma BringForward<T>(p: T -> bool, s: seq<T>, x: T) returns (r: seq<T>)
    requires x in s && p(x)
    ensures multiset(r) == multiset(s) && Filter(p, r) != [] && Filter(p, r)[0] == x
  {
    var i :| 0 <= i < |s| && s[i] == x;
    var rest := s[..i] + s[i + 1..];
    r := [x] + rest;
    assert s == s[..i] + [x] + s[i + 1..];
    FilterAppend(p, [x], rest);
    FilterStep(p, [], x);
    assert [] + [x] == [x];
  }

  /** How many elements of `s` satisfy `p`. */
  function Count<T>(p: T -> bool, s: seq<T>): nat {
    if s == [] then 0 else Count(p, s[..|s| - 1]) + (if p(s[|s| - 1]) then 1 else 0)
  }

  lemma FilterStep<T>(p: T -> bool, s: seq<T>, x: T)
    ensures Filter(p, s + [x]) == if p(x) then Filter(p, s) + [x] else Filter(p, s)
  {
    assert (s + [x])[..|s + [x]| - 1] == s;
  }

  lemma CountStep<T>(p: T -> bool, s: seq<T>, x: T)
    ensures Count(p, s + [x]) == Count(p, s) + if p(x) then 1 else 0
  {
    assert (s + [x])[..|s + [x]| - 1] == s;
  }

  lemma {:induction false} FilterSame<T>(p: T -> bool, q: T -> bool, s: seq<T>)
    requires forall x | x in s :: p(x) == q(x)
    ensures Filter(p, s) == Filter(q, s)
  {
    if s != [] {
      var n := |s| - 1;
      assert s == s[..n] + [s[n]];
      FilterSame(p, q, s[..n]);
    }
  }

  lemma {:induction false} FilterMember<T>(p: T -> bool, s: seq<T>, x: T)
    ensures x in Filter(p, s) <==> x in s && p(x)
  {
    if s != [] {
      var n := |s| - 1;
      assert s == s[..n] + [s[n]];
      FilterMember(p, s[..n], x);
    }
  }

  lemma {:induction false} FilterMultiset<T>(p: T -> bool, s: seq<T>, x: T)
    ensures multiset(Filter(p, s))[x] == if p(x) then multiset(s)[x] else 0
  {
    if s != [] {
      var n := |s| - 1;
      assert s == s[..n] + [s[n]];
      FilterMultiset(p, s[..n], x);
    }
  }

  /** Filtering two arrangements of the same elements gives two arrangements of the same elements. */
  lemma FilterArrangement<T>(p: T -> bool, a: seq<T>, b: seq<T>)
    requires multiset(a) == multiset(b)
    ensures multiset(Filter(p, a)) == multiset(Filter(p, b))
  {
    var left, right := multiset(Filter(p, a)), multiset(Filter(p, b));
    forall x | x in left + right ensures left[x] == right[x] {
      FilterMultiset(p, a, x);
      FilterMultiset(p, b, x);
    }
    assert left == right;
  }

  lemma {:induction false} CountAsFilter<T>(p: T -> bool, s: seq<T>)
    ensures Count(p, s) == |Filter(p, s)|
  {
    if s != [] {
      CountAsFilter(p, s[..|s| - 1]);
    }
  }

  lemma CountArrangement<T>(p: T -> bool, a: seq<T>, b: seq<T>)
    requires multiset(a) == multiset(b)
    ensures |a| == |b| && Count(p, a) == Count(p, b)
  {
    FilterArrangement(p, a, b);
    CountAsFilter(p, a);
    CountAsFilter(p, b);
    assert |multiset(a)| == |a| && |multiset(b)| == |b|;
    assert |multiset(Filter(p, a))| == |Filter(p, a)| && |multiset(Filter(p, b))| == |Filter(p, b)|;
  }

  lemma SameMembers<T>(a: seq<T>, b: seq<T>, x: T)
    requires multiset(a) == multiset(b)
    ensures x in a <==> x in b
  {
    assert x in multiset(a) <==> x in multiset(b);
  }

  /** The least value of `f` over `s`. */
  function MinOf<T>(f: T -> nat, s: seq<T>): nat
    requires s != []
  {
    var last := f(s[|s| - 1]);
    if |s| == 1 || last < MinOf(f, s[..|s| - 1]) then last else MinOf(f, s[..|s| - 1])
  }

  function MaxOf<T>(f: T -> nat, s: seq<T>): nat
    requires s != []
  {
    var last := f(s[|s| - 1]);
    if |s| == 1 || last > MaxOf(f, s[..|s| - 1]) then last else MaxOf(f, s[..|s| - 1])
  }

  lemma ExtremesStep<T>(f: T -> nat, s: seq<T>, x: T)
    ensures MinOf(f, s + [x]) == if s == [] || f(x) < MinOf(f, s) then f(x) else MinOf(f, s)
    ensures MaxOf(f, s + [x]) == if s == [] || f(x) > MaxOf(f, s) then f(x) else MaxOf(f, s)
  {
    assert (s + [x])[..|s + [x]| - 1] == s;
  }

  lemma {:induction false} Extremes<T>(f: T -> nat, s: seq<T>)
    requires s != []
    ensures forall x | x in s :: MinOf(f, s) <= f(x) <= MaxOf(f, s)
    ensures exists x | x in s :: f(x) == MinOf(f, s)
    ensures exists x | x in s :: f(x) == MaxOf(f, s)
  {
    var n := |s| - 1;
    assert s == s[..n] + [s[n]];
    assert s[n] in s;
    if n > 0 {
      Extremes(f, s[..n]);
      var a :| a in s[..n] && f(a) == MinOf(f, s[..n]);
      var b :| b in s[..n] && f(b) == MaxOf(f, s[..n]);
      assert a in s && b in s;
    }
  }

  lemma ExtremesArrangement<T>(f: T -> nat, a: seq<T>, b: seq<T>)
    requires multiset(a) == multiset(b) && a != [] && b != []
    ensures MinOf(f, a) == MinOf(f, b) && MaxOf(f, a) == MaxOf(f, b)
  {
    Extremes(f, a);
    Extremes(f, b);
    forall x ensures x in a <==> x in b {
      SameMembers(a, b, x);
    }
  }
}
