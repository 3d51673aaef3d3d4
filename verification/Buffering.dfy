/** Grouping documents by partition key and cutting each group into transactional batches. */
module Buffering {
  import opened Sequences
  import opened Documents

  /** The Cosmos limit on the operations of one transactional batch. */
  const BATCH_MAX := 100

  /** What `docs[i : i + 100] for i in range(0, len(docs), 100)` yields. */
  function Cut(docs: seq<Doc>): seq<seq<Doc>> {
    if docs == [] then []
    else if |docs| <= BATCH_MAX then [docs]
    else [docs[..BATCH_MAX]] + Cut(docs[BATCH_MAX..])
  }

  /** `groups` holds each partition's documents in arrival order, `order` its keys as first met. */
  ghost predicate Grouped(c: Container, docs: seq<Doc>, order: seq<string>, groups: map<string, seq<Doc>>) {
    && NoDuplicates(order)
    && (forall pk :: pk in order <==> pk in groups)
    && (forall pk :: pk in groups <==> c.InPartition(docs, pk) != [])
    && (forall pk | pk in groups :: groups[pk] == c.InPartition(docs, pk))
  }

  function ChunksOf(order: seq<string>, groups: map<string, seq<Doc>>): seq<seq<Doc>>
    requires forall pk | pk in order :: pk in groups
  {
    if order == [] then [] else Cut(groups[order[0]]) + ChunksOf(order[1..], groups)
  }

  lemma {:induction false} CutIsPartition(docs: seq<Doc>)
    ensures Flatten(Cut(docs)) == docs
    ensures forall chunk | chunk in Cut(docs) :: 0 < |chunk| <= BATCH_MAX
    ensures forall i | 0 <= i < |Cut(docs)| - 1 :: |Cut(docs)[i]| == BATCH_MAX
    decreases |docs|
  {
    if |docs| > BATCH_MAX {
      CutIsPartition(docs[BATCH_MAX..]);
      assert docs == docs[..BATCH_MAX] + docs[BATCH_MAX..];
      assert Cut(docs)[1..] == Cut(docs[BATCH_MAX..]);
      forall i | 0 <= i < |Cut(docs)| - 1 ensures |Cut(docs)[i]| == BATCH_MAX {
        if i > 0 {
          assert Cut(docs)[i] == Cut(docs[BATCH_MAX..])[i - 1];
        }
      }
    } else if docs != [] {
      assert [docs][1..] == [];
    }
  }

  /** One step of the slicing loop. */
  lemma CutStep(docs: seq<Doc>, i: nat, end: nat)
    requires i < |docs| && end == if i + BATCH_MAX < |docs| then i + BATCH_MAX else |docs|
    ensures Cut(docs[i..]) == [docs[i..end]] + Cut(docs[end..])
  {
    var rest := docs[i..];
    if |rest| > BATCH_MAX {
      assert rest[..BATCH_MAX] == docs[i..end] && rest[BATCH_MAX..] == docs[end..];
    } else {
      assert docs[i..end] == rest && docs[end..] == [];
    }
  }

  lemma {:induction false} ChunkSizes(order: seq<string>, groups: map<string, seq<Doc>>)
    requires forall pk | pk in order :: pk in groups
    ensures forall chunk | chunk in ChunksOf(order, groups) :: 0 < |chunk| <= BATCH_MAX
  {
    if order != [] {
      CutIsPartition(groups[order[0]]);
      ChunkSizes(order[1..], groups);
    }
  }

  lemma {:induction false} ChunksHoldGroups(c: Container, docs: seq<Doc>, order: seq<string>,
                                            groups: map<string, seq<Doc>>, pk: string)
    requires NoDuplicates(order)
    requires forall k | k in order :: k in groups && groups[k] == c.InPartition(docs, k)
    ensures c.InPartition(Flatten(ChunksOf(order, groups)), pk) ==
            if pk in order then c.InPartition(docs, pk) else []
  {
    if order != [] {
      var head, rest := order[0], order[1..];
      assert order == [head] + rest;
      assert forall i | 0 <= i < |rest| :: rest[i] == order[i + 1];
      ChunksHoldGroups(c, docs, rest, groups, pk);
      CutIsPartition(groups[head]);
      FlattenAppend(Cut(groups[head]), ChunksOf(rest, groups));
      c.InPartitionAppend(groups[head], Flatten(ChunksOf(rest, groups)), pk);
      forall d ensures d in groups[head] ==> c.Pk(d) == head {
        c.InPartitionMember(docs, head, d);
      }
      c.InPartitionAll(groups[head], head);
    }
  }

  /** Chunking keeps every partition's documents and their order. */
  lemma ChunksKeepPartitions(c: Container, docs: seq<Doc>, order: seq<string>, groups: map<string, seq<Doc>>)
    requires Grouped(c, docs, order, groups)
    ensures forall pk :: c.InPartition(Flatten(ChunksOf(order, groups)), pk) == c.InPartition(docs, pk)
  {
    forall pk ensures c.InPartition(Flatten(ChunksOf(order, groups)), pk) == c.InPartition(docs, pk) {
      ChunksHoldGroups(c, docs, order, groups, pk);
    }
  }

  lemma {:induction false} PartitionCount(c: Container, docs: seq<Doc>, d: Doc)
    ensures multiset(c.InPartition(docs, c.Pk(d)))[d] == multiset(docs)[d]
    decreases |docs|
  {
    if docs != [] {
      var n := |docs| - 1;
      assert docs == docs[..n] + [docs[n]];
      PartitionCount(c, docs[..n], d);
    }
  }

  /** Every document lands in exactly one chunk, once. */
  lemma ChunksArePermutation(c: Container, docs: seq<Doc>, order: seq<string>, groups: map<string, seq<Doc>>)
    requires Grouped(c, docs, order, groups)
    ensures multiset(Flatten(ChunksOf(order, groups))) == multiset(docs)
  {
    var flat := Flatten(ChunksOf(order, groups));
    ChunksKeepPartitions(c, docs, order, groups);
    forall d: Doc ensures multiset(flat)[d] == multiset(docs)[d] {
      PartitionCount(c, flat, d);
      PartitionCount(c, docs, d);
    }
  }

  lemma TwiceCounted(s: seq<Doc>, i: nat, j: nat)
    requires i < j < |s| && s[i] == s[j]
    ensures multiset(s)[s[i]] >= 2
  {
    assert s == s[..i] + [s[i]] + s[i + 1..j] + [s[j]] + s[j + 1..];
  }

  lemma {:induction false} OnceCounted(s: seq<Doc>, d: Doc)
    requires DistinctPositions(s)
    ensures multiset(s)[d] <= 1
    decreases |s|
  {
    if s != [] {
      var n := |s| - 1;
      assert s == s[..n] + [s[n]];
      OnceCounted(s[..n], d);
    }
  }

  lemma PermutationKeepsDistinct(c: Container, a: seq<Doc>, b: seq<Doc>)
    requires multiset(a) == multiset(b) && DistinctPositions(a)
    ensures DistinctPositions(b)
    ensures forall d :: d in a <==> d in b
    ensures c.SameKeySameFields(a) <==> c.SameKeySameFields(b)
  {
    forall d ensures d in a <==> d in b {
      assert d in multiset(a) <==> d in multiset(b);
    }
    forall i, j | 0 <= i < j < |b| ensures b[i].pos != b[j].pos {
      OnceCounted(a, b[i]);
      if b[i] == b[j] {
        TwiceCounted(b, i, j);
      }
      assert b[i] in a && b[j] in a;
    }
    SameKeyByMembers(c, a, b);
    SameKeyByMembers(c, b, a);
  }

  lemma SameKeyByMembers(c: Container, a: seq<Doc>, b: seq<Doc>)
    requires forall d | d in b :: d in a
    ensures c.SameKeySameFields(a) ==> c.SameKeySameFields(b)
  {
    if c.SameKeySameFields(a) {
      forall i, j | 0 <= i < |b| && 0 <= j < |b| && c.KeyOf(b[i]) == c.KeyOf(b[j])
        ensures b[i].fields == b[j].fields
      {
        assert b[i] in a && b[j] in a;
      }
    }
  }

  lemma InPartitionSnoc(c: Container, docs: seq<Doc>, d: Doc, pk: string)
    ensures c.InPartition(docs + [d], pk) == c.InPartition(docs, pk) + if c.Pk(d) == pk then [d] else []
  {
    assert (docs + [d])[..|docs + [d]| - 1] == docs;
  }

  /** `groups.setdefault(pk, []).append(d)` keeps the grouping. */
  lemma GroupOneMore(c: Container, docs: seq<Doc>, d: Doc, order: seq<string>, groups: map<string, seq<Doc>>,
                     order': seq<string>, groups': map<string, seq<Doc>>)
    requires Grouped(c, docs, order, groups)
    requires order' == if c.Pk(d) in groups then order else order + [c.Pk(d)]
    requires groups' == groups[c.Pk(d) := (if c.Pk(d) in groups then groups[c.Pk(d)] else []) + [d]]
    ensures Grouped(c, docs + [d], order', groups')
  {
    var mine := c.Pk(d);
    forall pk
      ensures pk in groups' <==> c.InPartition(docs + [d], pk) != []
      ensures pk in groups' ==> groups'[pk] == c.InPartition(docs + [d], pk)
    {
      InPartitionSnoc(c, docs, d, pk);
    }
    forall pk ensures pk in order' <==> pk in groups' {
      assert pk in order' <==> pk in order || pk == mine;
    }
  }

  // ---- Which documents share a group and a batch, by their own fields ----

  /** The two bodies name one partition. */
  ghost predicate SamePartition(c: Container, a: map<string, string>, b: map<string, string>) {
    exists pk, i, j :: c.Names(a, pk, i) && c.Names(b, pk, j)
  }

  lemma SamePartitionByKey(c: Container, d: Doc, e: Doc)
    ensures SamePartition(c, d.fields, e.fields) <==> c.Pk(d) == c.Pk(e)
  {
    c.NamesItsKey(d, c.KeyOf(d).pk, c.KeyOf(d).id);
    c.NamesItsKey(e, c.KeyOf(e).pk, c.KeyOf(e).id);
    forall pk, i, j | c.Names(d.fields, pk, i) && c.Names(e.fields, pk, j) ensures c.Pk(d) == c.Pk(e) {
      c.NamesItsKey(d, pk, i);
      c.NamesItsKey(e, pk, j);
    }
  }

  /** A document with the partition field lies in the group of that field's value and in no other, one without it in
      the group of its id, one without both in that of the stand-in. */
  lemma GroupOfDoc(c: Container, docs: seq<Doc>, order: seq<string>, groups: map<string, seq<Doc>>, d: Doc, pk: string)
    requires Grouped(c, docs, order, groups)
    ensures c.pkField in d.fields ==>
              (pk in groups && d in groups[pk] <==> d in docs && pk == d.fields[c.pkField])
    ensures c.pkField !in d.fields && "id" in d.fields ==>
              (pk in groups && d in groups[pk] <==> d in docs && pk == d.fields["id"])
    ensures c.pkField !in d.fields && "id" !in d.fields ==>
              (pk in groups && d in groups[pk] <==> d in docs && pk == c.missingId)
  {
    c.InPartitionMember(docs, pk, d);
  }

  /** Two documents lie in one group exactly when their bodies name one partition; both having the partition field,
      when its values agree. */
  lemma SameGroupExactly(c: Container, docs: seq<Doc>, order: seq<string>, groups: map<string, seq<Doc>>, d: Doc,
                         e: Doc)
    requires Grouped(c, docs, order, groups) && d in docs && e in docs
    ensures SamePartition(c, d.fields, e.fields) <==>
            exists pk :: pk in groups && d in groups[pk] && e in groups[pk]
    ensures c.pkField in d.fields && c.pkField in e.fields ==>
              (SamePartition(c, d.fields, e.fields) <==> d.fields[c.pkField] == e.fields[c.pkField])
  {
    SamePartitionByKey(c, d, e);
    GroupOfDoc(c, docs, order, groups, d, c.Pk(d));
    GroupOfDoc(c, docs, order, groups, e, c.Pk(d));
    forall pk | pk in groups && d in groups[pk] && e in groups[pk] ensures SamePartition(c, d.fields, e.fields) {
      GroupOfDoc(c, docs, order, groups, d, pk);
      GroupOfDoc(c, docs, order, groups, e, pk);
    }
  }

  /** No batch mixes partitions, and one that is followed by another of its partition is full. */
  ghost predicate OnePartitionEach(c: Container, chunks: seq<seq<Doc>>) {
    && (forall chunk, d, e | chunk in chunks && d in chunk && e in chunk :: SamePartition(c, d.fields, e.fields))
    && (forall a, b, d, e | 0 <= a < b < |chunks| && d in chunks[a] && e in chunks[b] &&
                            SamePartition(c, d.fields, e.fields) :: |chunks[a]| == BATCH_MAX)
  }

  lemma CutHolds(docs: seq<Doc>)
    ensures forall chunk, d | chunk in Cut(docs) && d in chunk :: d in docs
    ensures forall i | 0 <= i < |Cut(docs)| - 1 :: |Cut(docs)[i]| == BATCH_MAX
  {
    CutIsPartition(docs);
    FlattenMembers(Cut(docs));
  }

  /** All documents of the batch come from the group. */
  predicate Within(chunk: seq<Doc>, group: seq<Doc>) {
    forall d | d in chunk :: d in group
  }

  /** Where two batches come from: `k` and `m` are the indices of their groups. */
  lemma {:induction false} BatchOrigin(order: seq<string>, groups: map<string, seq<Doc>>, a: nat, b: nat)
    returns (k: nat, m: nat)
    requires forall pk | pk in order :: pk in groups
    requires a < b < |ChunksOf(order, groups)|
    ensures k <= m < |order|
    ensures Within(ChunksOf(order, groups)[a], groups[order[k]]) && Within(ChunksOf(order, groups)[b], groups[order[m]])
    ensures k == m ==> |ChunksOf(order, groups)[a]| == BATCH_MAX
  {
    var first, rest := Cut(groups[order[0]]), ChunksOf(order[1..], groups);
    CutHolds(groups[order[0]]);
    if b < |first| {
      k, m := 0, 0;
    } else if a < |first| {
      m := ChunkOrigin(order[1..], groups, b - |first|);
      k, m := 0, m + 1;
    } else {
      k, m := BatchOrigin(order[1..], groups, a - |first|, b - |first|);
      k, m := k + 1, m + 1;
    }
  }

  lemma {:induction false} FlattenMembers(chunks: seq<seq<Doc>>)
    ensures forall chunk, d | chunk in chunks && d in chunk :: d in Flatten(chunks)
  {
    if chunks != [] {
      FlattenMembers(chunks[1..]);
      assert chunks == [chunks[0]] + chunks[1..];
    }
  }

  lemma {:induction false} ChunkOrigin(order: seq<string>, groups: map<string, seq<Doc>>, a: nat) returns (k: nat)
    requires forall pk | pk in order :: pk in groups
    requires a < |ChunksOf(order, groups)|
    ensures k < |order| && Within(ChunksOf(order, groups)[a], groups[order[k]])
  {
    var first := Cut(groups[order[0]]);
    CutHolds(groups[order[0]]);
    if a < |first| {
      k := 0;
    } else {
      k := ChunkOrigin(order[1..], groups, a - |first|);
      k := k + 1;
    }
  }

  lemma BatchesByPartition(c: Container, docs: seq<Doc>, order: seq<string>, groups: map<string, seq<Doc>>)
    requires Grouped(c, docs, order, groups)
    ensures OnePartitionEach(c, ChunksOf(order, groups))
  {
    var chunks := ChunksOf(order, groups);
    forall chunk, d, e | chunk in chunks && d in chunk && e in chunk ensures SamePartition(c, d.fields, e.fields) {
      var a: nat :| a < |chunks| && chunks[a] == chunk;
      var k := ChunkOrigin(order, groups, a);
      GroupOfDoc(c, docs, order, groups, d, order[k]);
      GroupOfDoc(c, docs, order, groups, e, order[k]);
      SamePartitionByKey(c, d, e);
    }
    forall a, b, d, e | 0 <= a < b < |chunks| && d in chunks[a] && e in chunks[b] &&
                        SamePartition(c, d.fields, e.fields) ensures |chunks[a]| == BATCH_MAX
    {
      var k, m := BatchOrigin(order, groups, a, b);
      GroupOfDoc(c, docs, order, groups, d, order[k]);
      GroupOfDoc(c, docs, order, groups, e, order[m]);
      SamePartitionByKey(c, d, e);
    }
  }
}
