/** Cosmos containers as keyed maps, and what a sequence of upserts leaves in them. */
module Documents {

  /** A document: its arrival number (which tells equal documents apart) and its JSON fields. */
  datatype Doc = Doc(pos: nat, fields: map<string, string>)

  datatype Key = Key(pk: string, id: string)

  type Store = map<Key, map<string, string>>

  datatype Option<T> = None | Some(value: T)

  /** A container: the field its partition key is read from, and what stands in for a missing `id`. */
  datatype Container = Container(pkField: string, missingId: string) {

    function Pk(d: Doc): string {
      if pkField in d.fields then d.fields[pkField]
      else if "id" in d.fields then d.fields["id"]
      else missingId
    }

    function KeyOf(d: Doc): Key {
      Key(Pk(d), if "id" in d.fields then d.fields["id"] else missingId)
    }

    function Upsert(s: Store, d: Doc): Store {
      s[KeyOf(d) := d.fields]
    }

    /** Upserts one by one, left to right. */
    function UpsertAll(s: Store, docs: seq<Doc>): Store
      decreases |docs|
    {
      if docs == [] then s else UpsertAll(Upsert(s, docs[0]), docs[1..])
    }

    /** The last document of `docs` under key `k`: the one whose fields stay. */
    function LastUnder(docs: seq<Doc>, k: Key): Option<Doc> {
      if docs == [] then None
      else if KeyOf(docs[|docs| - 1]) == k then Some(docs[|docs| - 1])
      else LastUnder(docs[..|docs| - 1], k)
    }

    /** The documents of one partition, in order. */
    function InPartition(docs: seq<Doc>, pk: string): seq<Doc> {
      if docs == [] then []
      else InPartition(docs[..|docs| - 1], pk) +
           (if Pk(docs[|docs| - 1]) == pk then [docs[|docs| - 1]] else [])
    }

    /** Documents that share a key have the same fields. */
    predicate SameKeySameFields(docs: seq<Doc>) {
      forall i, j | 0 <= i < |docs| && 0 <= j < |docs| ::
        KeyOf(docs[i]) == KeyOf(docs[j]) ==> docs[i].fields == docs[j].fields
    }

    lemma {:induction false} UpsertAllAppend(s: Store, a: seq<Doc>, b: seq<Doc>)
      ensures UpsertAll(s, a + b) == UpsertAll(UpsertAll(s, a), b)
      decreases |a|
    {
      if a == [] {
        assert a + b == b;
      } else {
        assert (a + b)[1..] == a[1..] + b;
        UpsertAllAppend(Upsert(s, a[0]), a[1..], b);
      }
    }

    /** A store after upserts holds, under each key, the last document written or what was there. */
    lemma {:induction false} UpsertAllLookup(s: Store, docs: seq<Doc>, k: Key)
      ensures k in UpsertAll(s, docs) <==> k in s || LastUnder(docs, k).Some?
      ensures LastUnder(docs, k).Some? ==> UpsertAll(s, docs)[k] == LastUnder(docs, k).value.fields
      ensures LastUnder(docs, k).None? && k in s ==> UpsertAll(s, docs)[k] == s[k]
      decreases |docs|
    {
      if docs != [] {
        var init, last := docs[..|docs| - 1], docs[|docs| - 1];
        assert docs == init + [last];
        UpsertAllAppend(s, init, [last]);
        assert UpsertAll(UpsertAll(s, init), [last]) == Upsert(UpsertAll(s, init), last) by {
          assert [last][1..] == [];
        }
        UpsertAllLookup(s, init, k);
      }
    }

    lemma StoresAgree(s: Store, a: seq<Doc>, b: seq<Doc>)
      requires forall k :: LastUnder(a, k).Some? == LastUnder(b, k).Some?
      requires forall k :: LastUnder(a, k).Some? ==>
                             LastUnder(a, k).value.fields == LastUnder(b, k).value.fields
      ensures UpsertAll(s, a) == UpsertAll(s, b)
    {
      var x, y := UpsertAll(s, a), UpsertAll(s, b);
      forall k: Key ensures (k in x <==> k in y) && (k in x ==> x[k] == y[k]) {
        UpsertAllLookup(s, a, k);
        UpsertAllLookup(s, b, k);
      }
      assert x.Keys == y.Keys;
    }

    lemma {:induction false} LastUnderIsMember(docs: seq<Doc>, k: Key)
      ensures LastUnder(docs, k).Some? ==>
                LastUnder(docs, k).value in docs && KeyOf(LastUnder(docs, k).value) == k
      ensures LastUnder(docs, k).None? ==> forall d | d in docs :: KeyOf(d) != k
      decreases |docs|
    {
      if docs != [] {
        var init := docs[..|docs| - 1];
        LastUnderIsMember(init, k);
        assert docs == init + [docs[|docs| - 1]];
      }
    }

    /** The body names partition `pk` and id `id`: one without the partition field names its id for both, one without an
        id the stand-in. */
    predicate Names(fields: map<string, string>, pk: string, id: string) {
      && (pkField in fields ==> fields[pkField] == pk)
      && ("id" in fields ==> fields["id"] == id)
      && ("id" !in fields ==> id == missingId)
      && (pkField !in fields ==> pk == id)
    }

    /** Document `i` is the last of `docs` that names this partition and id. */
    predicate LastToName(docs: seq<Doc>, i: nat, pk: string, id: string) {
      i < |docs| && Names(docs[i].fields, pk, id) &&
      forall j | i < j < |docs| :: !Names(docs[j].fields, pk, id)
    }

    predicate Holds(s: Store, pk: string, id: string, fields: map<string, string>) {
      Key(pk, id) in s && s[Key(pk, id)] == fields
    }

    /** After upserts, the last body that names a partition and an id stands there with its own fields, and where no
        body does, all is as before. */
    ghost predicate Wrote(s: Store, docs: seq<Doc>, s': Store) {
      && (forall i: nat, pk, id | LastToName(docs, i, pk, id) :: Holds(s', pk, id, docs[i].fields))
      && (forall pk, id | (forall d | d in docs :: !Names(d.fields, pk, id)) ::
            (Key(pk, id) in s' <==> Key(pk, id) in s) && (Key(pk, id) in s ==> s'[Key(pk, id)] == s[Key(pk, id)]))
    }

    lemma NamesItsKey(d: Doc, pk: string, id: string)
      ensures Names(d.fields, pk, id) <==> KeyOf(d) == Key(pk, id)
    {
    }

    lemma {:induction false} LastNamer(docs: seq<Doc>, i: nat, pk: string, id: string)
      requires LastToName(docs, i, pk, id)
      ensures LastUnder(docs, Key(pk, id)) == Some(docs[i])
      decreases |docs|
    {
      var n := |docs| - 1;
      NamesItsKey(docs[n], pk, id);
      if i < n {
        LastNamer(docs[..n], i, pk, id);
      }
    }

    lemma UpsertAllWrites(s: Store, docs: seq<Doc>)
      ensures Wrote(s, docs, UpsertAll(s, docs))
    {
      var s' := UpsertAll(s, docs);
      forall i: nat, pk, id | LastToName(docs, i, pk, id) ensures Holds(s', pk, id, docs[i].fields) {
        LastNamer(docs, i, pk, id);
        UpsertAllLookup(s, docs, Key(pk, id));
      }
      forall pk, id | forall d | d in docs :: !Names(d.fields, pk, id)
        ensures Key(pk, id) in s' <==> Key(pk, id) in s
        ensures Key(pk, id) in s ==> s'[Key(pk, id)] == s[Key(pk, id)]
      {
        var k := Key(pk, id);
        LastUnderIsMember(docs, k);
        if LastUnder(docs, k).Some? {
          NamesItsKey(LastUnder(docs, k).value, pk, id);
        }
        UpsertAllLookup(s, docs, k);
      }
    }

    lemma {:induction false} LastUnderInPartition(docs: seq<Doc>, k: Key)
      ensures LastUnder(docs, k) == LastUnder(InPartition(docs, k.pk), k)
      decreases |docs|
    {
      if docs != [] {
        var init, last := docs[..|docs| - 1], docs[|docs| - 1];
        LastUnderInPartition(init, k);
        var part := InPartition(init, k.pk);
        if Pk(last) == k.pk {
          assert (part + [last])[..|part + [last]| - 1] == part;
        } else {
          assert InPartition(docs, k.pk) == part;
        }
      }
    }

    /** Upserts may be regrouped freely as long as each partition keeps its own order. */
    lemma PartitionsCommute(s: Store, a: seq<Doc>, b: seq<Doc>)
      requires forall pk :: InPartition(a, pk) == InPartition(b, pk)
      ensures UpsertAll(s, a) == UpsertAll(s, b)
    {
      forall k: Key ensures LastUnder(a, k) == LastUnder(b, k) {
        LastUnderInPartition(a, k);
        LastUnderInPartition(b, k);
      }
      StoresAgree(s, a, b);
    }

    /** When no key carries two different documents, only the set of documents written matters. */
    lemma OrderIrrelevant(s: Store, a: seq<Doc>, b: seq<Doc>)
      requires SameKeySameFields(a)
      requires forall d :: d in a <==> d in b
      ensures UpsertAll(s, a) == UpsertAll(s, b)
    {
      forall k: Key
        ensures LastUnder(a, k).Some? == LastUnder(b, k).Some?
        ensures LastUnder(a, k).Some? ==> LastUnder(a, k).value.fields == LastUnder(b, k).value.fields
      {
        LastUnderIsMember(a, k);
        LastUnderIsMember(b, k);
        if LastUnder(a, k).Some? {
          assert LastUnder(a, k).value in b;
        }
        if LastUnder(b, k).Some? {
          assert LastUnder(b, k).value in a;
        }
      }
      StoresAgree(s, a, b);
    }

    lemma {:induction false} InPartitionAppend(a: seq<Doc>, b: seq<Doc>, pk: string)
      ensures InPartition(a + b, pk) == InPartition(a, pk) + InPartition(b, pk)
      decreases |b|
    {
      if b == [] {
        assert a + b == a;
      } else {
        var init, last := b[..|b| - 1], b[|b| - 1];
        assert (a + b)[..|a + b| - 1] == a + init;
        InPartitionAppend(a, init, pk);
      }
    }

    lemma {:induction false} InPartitionMember(docs: seq<Doc>, pk: string, d: Doc)
      ensures d in InPartition(docs, pk) <==> d in docs && Pk(d) == pk
      decreases |docs|
    {
      if docs != [] {
        assert docs == docs[..|docs| - 1] + [docs[|docs| - 1]];
        InPartitionMember(docs[..|docs| - 1], pk, d);
      }
    }

    lemma {:induction false} InPartitionAll(docs: seq<Doc>, pk: string)
      requires forall d | d in docs :: Pk(d) == pk
      ensures InPartition(docs, pk) == docs
      ensures forall other | other != pk :: InPartition(docs, other) == []
      decreases |docs|
    {
      if docs != [] {
        assert docs == docs[..|docs| - 1] + [docs[|docs| - 1]];
        InPartitionAll(docs[..|docs| - 1], pk);
      }
    }
  }

  /** The documents whose arrival number is in `ok`, in order. */
  function Select(docs: seq<Doc>, ok: set<nat>): (r: seq<Doc>)
    ensures forall d :: d in r <==> d in docs && d.pos in ok
    ensures |r| <= |docs|
  {
    if docs == [] then []
    else
      assert docs == docs[..|docs| - 1] + [docs[|docs| - 1]];
      Select(docs[..|docs| - 1], ok) + (if docs[|docs| - 1].pos in ok then [docs[|docs| - 1]] else [])
  }

  lemma {:induction false} SelectAppend(a: seq<Doc>, b: seq<Doc>, ok: set<nat>)
    ensures Select(a + b, ok) == Select(a, ok) + Select(b, ok)
    decreases |b|
  {
    if b == [] {
      assert a + b == a;
    } else {
      var init := b[..|b| - 1];
      assert (a + b)[..|a + b| - 1] == a + init;
      SelectAppend(a, init, ok);
    }
  }

  lemma {:induction false} SelectInPartition(c: Container, docs: seq<Doc>, ok: set<nat>, pk: string)
    ensures Select(c.InPartition(docs, pk), ok) == c.InPartition(Select(docs, ok), pk)
    decreases |docs|
  {
    if docs != [] {
      var init, last := docs[..|docs| - 1], docs[|docs| - 1];
      SelectInPartition(c, init, ok, pk);
      var tail := if c.Pk(last) == pk then [last] else [];
      SelectAppend(c.InPartition(init, pk), tail, ok);
      var tail' := if last.pos in ok then [last] else [];
      c.InPartitionAppend(Select(init, ok), tail', pk);
      assert [last][..0] == [] && [last][|[last]| - 1] == last;
    }
  }

  /** Arrival numbers tell the documents apart. */
  predicate DistinctPositions(docs: seq<Doc>) {
    forall i, j | 0 <= i < j < |docs| :: docs[i].pos != docs[j].pos
  }
}
