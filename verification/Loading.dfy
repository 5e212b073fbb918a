/** Opening a partition: the snapshot from what is stored, and the sizes counted
    from the document records (`load_ivf`, `count_postings`). */
module Loading {
  import opened Codes
  import opened Vectors
  import opened Counts
  import opened Partition
  import opened Store

  const PAGE := 4096

  /** The sizes so far and those of the records still to scan make up the whole. */
  ghost predicate PartlyCounted(t: Table, v: Vec, left: Vec) {
    forall p, u :: Get(t, p, u) + Recount(left, p, u) == Recount(v, p, u)
  }

  lemma CountedMore(t: Table, v: Vec, left: Vec, d: Doc)
    requires PartlyCounted(t, v, left) && d in left
    ensures PartlyCounted(AddAll(t, Postings(left[d])), v, left - {d})
  {
    forall p, u ensures Get(AddAll(t, Postings(left[d])), p, u) + Recount(left - {d}, p, u) == Recount(v, p, u) {
      assert Get(t, p, u) + Recount(left, p, u) == Recount(v, p, u);
      RecountAnyOrder(left, d, p, u);
      AddAllTallies(t, Postings(left[d]), p, u);
    }
  }

  /** The records not yet scanned. */
  ghost function LeftOf(v: Vec, docs: seq<Doc>, k: nat): Vec
    requires k <= |docs|
  {
    v - (set d | d in docs[..k])
  }

  lemma LeftStep(v: Vec, docs: seq<Doc>, k: nat)
    requires k < |docs| && docs[k] in v && forall i, j :: 0 <= i < j < |docs| ==> docs[i] < docs[j]
    ensures docs[k] in LeftOf(v, docs, k) && LeftOf(v, docs, k)[docs[k]] == v[docs[k]]
    ensures LeftOf(v, docs, k + 1) == LeftOf(v, docs, k) - {docs[k]}
  {
    assert docs[..k + 1] == docs[..k] + [docs[k]];
    assert forall i :: 0 <= i < k ==> docs[i] < docs[k];
  }

  lemma CountedAll(t: Table, v: Vec, docs: seq<Doc>)
    requires PartlyCounted(t, v, LeftOf(v, docs, |docs|)) && forall d :: d in docs <==> d in v
    ensures Agrees(t, v)
  {
    assert docs[..|docs|] == docs;
    assert LeftOf(v, docs, |docs|) == map[];
    forall p, u ensures Get(t, p, u) == Recount(v, p, u) {
      assert Get(t, p, u) + Recount(LeftOf(v, docs, |docs|), p, u) == Recount(v, p, u);
    }
  }

  /** `count_postings`: the document records, a page at a time. */
  method CountPostings(v: Vec) returns (t: Table)
    ensures Agrees(t, v)
  {
    hide PartlyCounted, LeftOf, Agrees;
    t := map[];
    var docs := Ascending(v.Keys);
    AscendingAscends(v.Keys);
    NoneCounted(v, docs);
    var cursor := 0;
    while cursor < |docs|
      invariant cursor <= |docs| && PartlyCounted(t, v, LeftOf(v, docs, cursor))
    {
      var next := Min(cursor + PAGE, |docs|);
      while cursor < next
        invariant cursor <= next && PartlyCounted(t, v, LeftOf(v, docs, cursor))
      {
        LeftStep(v, docs, cursor);
        CountedMore(t, v, LeftOf(v, docs, cursor), docs[cursor]);
        t := AddAll(t, Postings(v[docs[cursor]]));
        cursor := cursor + 1;
      }
    }
    CountedAll(t, v, docs);
  }

  lemma NoneCounted(v: Vec, docs: seq<Doc>)
    ensures PartlyCounted(map[], v, LeftOf(v, docs, 0))
  {
    assert LeftOf(v, docs, 0) == v;
  }
}
