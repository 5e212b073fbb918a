/** What maintenance remembers of postings it could not divide or merge, and what
    makes such a mark true. */
module Marks {
  import opened Codes
  import opened Vectors
  import opened Counts
  import opened Partition
  import opened Neighbours
  import G = Geometry

  /** What balanced 2-means yields: two centres and the size of the smaller half. */
  datatype Halves = Halves(centres: (Point, Point), smaller: nat)

  type TwoMeans = (nat, nat, seq<VectorIndex>) -> Option<Halves>

  /** A partition as maintenance finds it: its snapshot, the sizes of its postings,
      the documents' vectors, and whether no one else writes. */
  datatype Found = Found(snap: Snapshot, counts: Table, vec: Vec, alone: bool)

  /** The documents with a key under a posting. */
  function DocsUnder(v: Vec, p: nat): set<Doc> {
    set d | d in v && p in v[d].keys
  }

  /** The chunks stored under a posting, document by document. */
  function CodesUnder(v: Vec, docs: seq<Doc>, p: nat): seq<VectorIndex> {
    if docs == [] then [] else HeldAt(At(v, docs[0]), p) + CodesUnder(v, docs[1..], p)
  }

  function StoredCodes(v: Vec, p: nat): seq<VectorIndex> {
    CodesUnder(v, Ascending(DocsUnder(v, p)), p)
  }

  lemma {:induction false} CodesUnderConcat(v: Vec, a: seq<Doc>, b: seq<Doc>, p: nat)
    ensures CodesUnder(v, a + b, p) == CodesUnder(v, a, p) + CodesUnder(v, b, p)
  {
    if a == [] {
      assert a + b == b;
    } else {
      assert (a + b)[1..] == a[1..] + b;
      CodesUnderConcat(v, a[1..], b, p);
    }
  }

  lemma {:induction false} CodesUnderAgree(v: Vec, v': Vec, docs: seq<Doc>, p: nat)
    requires forall d :: d in docs ==> At(v', d) == At(v, d)
    ensures CodesUnder(v', docs, p) == CodesUnder(v, docs, p)
  {
    if docs != [] {
      CodesUnderAgree(v, v', docs[1..], p);
    }
  }

  lemma AscendingFirst(s: set<nat>, o: nat)
    requires o in s && forall x: nat :: x in s ==> o <= x
    ensures Ascending(s) == [o] + Ascending(s - {o})
  {
  }

  lemma {:induction false} AscendingWithout(s: set<nat>, d: nat) returns (before: seq<nat>, after: seq<nat>)
    requires d in s
    ensures Ascending(s) == before + [d] + after && Ascending(s - {d}) == before + after
    decreases |s|
  {
    hide Ascending;
    var o := Least(s);
    AscendingFirst(s, o);
    if o == d {
      before, after := [], Ascending(s - {o});
    } else {
      before, after := AscendingWithout(s - {o}, d);
      assert s - {d} - {o} == s - {o} - {d};
      AscendingFirst(s - {d}, o);
      before := [o] + before;
    }
  }

  /** Of each chunk, the posting's stored codes have as many copies as the documents
      together: any of them may be counted first. */
  lemma StoredCodesAnyOrder(v: Vec, d: Doc, p: nat, b: VectorIndex)
    ensures Count(StoredCodes(v, p), b) == Count(HeldAt(At(v, d), p), b) + Count(StoredCodes(v - {d}, p), b)
    ensures StoredCodes(map[], p) == []
  {
    hide HeldAt, Ascending, CodesUnder;
    var under := DocsUnder(v, p);
    var rest := v - {d};
    assert DocsUnder(rest, p) == under - {d};
    assert forall x :: x != d ==> At(rest, x) == At(v, x);
    assert forall x :: x in Ascending(under - {d}) ==> x in under - {d};
    CodesUnderAgree(v, rest, Ascending(under - {d}), p);
    if d in under {
      var before, after := AscendingWithout(under, d);
      OneAmong(v, before, d, after, p, b);
    } else {
      assert under - {d} == under;
      NothingUnder(v, d, p);
    }
    NoDocsUnder(p);
  }

  lemma NothingUnder(v: Vec, d: Doc, p: nat)
    requires d !in DocsUnder(v, p)
    ensures HeldAt(At(v, d), p) == []
  {
  }

  lemma NoDocsUnder(p: nat)
    ensures StoredCodes(map[], p) == []
  {
    assert DocsUnder(map[], p) == {};
  }

  lemma OneAmong(v: Vec, before: seq<Doc>, d: Doc, after: seq<Doc>, p: nat, b: VectorIndex)
    ensures Count(CodesUnder(v, before + [d] + after, p), b)
         == Count(HeldAt(At(v, d), p), b) + Count(CodesUnder(v, before + after, p), b)
  {
    hide HeldAt, Count;
    CodesUnderConcat(v, before + [d], after, p);
    CodesUnderConcat(v, before, [d], p);
    CodesUnderConcat(v, before, after, p);
    assert CodesUnder(v, [d], p) == HeldAt(At(v, d), p) + CodesUnder(v, [d][1..], p);
    assert CodesUnder(v, [d], p) == HeldAt(At(v, d), p);
    var (x, y, z) := (CodesUnder(v, before, p), HeldAt(At(v, d), p), CodesUnder(v, after, p));
    CountConcat(x + y, z, b);
    CountConcat(x, y, b);
    CountConcat(x, z, b);
  }

  predicate Marked(marks: map<nat, nat>, p: nat, chunks: nat) {
    p in marks && marks[p] == chunks
  }

  // ── splits ──

  /** The posting is active, and 2-means could not part the chunks it holds into halves
      both above the merge limit. The journal is empty then, so the operation that
      would part them is the first. */
  ghost predicate NoHalves(twoMeans: TwoMeans, mergeLimit: nat, at: Found, posting: nat) {
    var halves := twoMeans(posting, NextOpId(map[]), StoredCodes(at.vec, posting));
    && IsActive(at.snap.postings, posting)
    && (halves.Some? ==> halves.value.smaller <= mergeLimit)
  }

  /** Every posting marked unsplittable was refused when it held that many chunks:
      `refused` is the partition it was found in. */
  ghost predicate RefusalsTrue(twoMeans: TwoMeans, mergeLimit: nat, unsplittable: map<nat, nat>,
                               refused: map<nat, Found>)
  {
    forall p :: p in unsplittable ==>
      && p in refused
      && |StoredCodes(refused[p].vec, p)| == unsplittable[p]
      && NoHalves(twoMeans, mergeLimit, refused[p], p)
  }

  lemma Refuse(twoMeans: TwoMeans, mergeLimit: nat, unsplittable: map<nat, nat>, refused: map<nat, Found>, p: nat,
               at: Found)
    requires RefusalsTrue(twoMeans, mergeLimit, unsplittable, refused) && NoHalves(twoMeans, mergeLimit, at, p)
    ensures RefusalsTrue(twoMeans, mergeLimit, unsplittable[p := |StoredCodes(at.vec, p)|], refused[p := at])
  {
  }

  // ── merges ──

  const MERGE_CANDIDATES := 64

  function ChunksOf(t: Table, p: nat): nat { Get(t, p, Chunks) }

  /** The first of `qs` with room for `chunks` more. */
  function FirstWithRoom(t: Table, qs: seq<nat>, chunks: nat, limit: nat): (q: Option<nat>)
    ensures q.Some? ==> chunks + ChunksOf(t, q.value) < limit
    ensures q.Some? ==> exists k :: 0 <= k < |qs| && qs[k] == q.value
                                    && forall j :: 0 <= j < k ==> chunks + ChunksOf(t, qs[j]) >= limit
    ensures q.None? ==> forall x :: x in qs ==> chunks + ChunksOf(t, x) >= limit
  {
    if qs == [] then None
    else if chunks + ChunksOf(t, qs[0]) < limit then Some(qs[0])
    else
      var later := FirstWithRoom(t, qs[1..], chunks, limit);
      assert later.Some? ==> forall k :: 0 <= k < |qs| - 1 ==> qs[1..][k] == qs[k + 1];
      later
  }

  /** The postings a merge looks through: the 64 other active ones nearest `posting`. */
  function MergeCandidates(s: Snapshot, space: G.Space, posting: nat): seq<nat>
    requires HasCentre(s, posting)
  {
    G.Neighbours(space, CentreOf(s, posting), AllBut(ActiveCentres(s), {posting}), MERGE_CANDIDATES)
  }

  /** A posting is a candidate if and only if it is another active one, and fewer than
      64 of those come before it. */
  lemma CandidateIffFewCloser(s: Snapshot, space: G.Space, p: nat, q: nat)
    requires HasCentre(s, p) && HasCentre(s, q)
    ensures q in MergeCandidates(s, space, p) <==>
            && q in Routable(s) - {p}
            && |CloserThan(s, space, CentreOf(s, p), Routable(s) - {p}, q)| < 64
  {
    hide ActiveCentres, Routable, CloserThan, AllBut;
    OthersAreListed(s, {p});
    NeighbourIffFewCloser(s, space, CentreOf(s, p), Routable(s) - {p}, AllBut(ActiveCentres(s), {p}),
      MERGE_CANDIDATES, q);
  }

  lemma CandidatesAreOthers(s: Snapshot, space: G.Space, posting: nat)
    requires HasCentre(s, posting)
    ensures forall q :: q in MergeCandidates(s, space, posting) ==> q in Routable(s) && q != posting
  {
    hide ActiveCentres, Routable;
    var others := AllBut(ActiveCentres(s), {posting});
    OthersAreListed(s, {posting});
    NeighboursInOrder(s, space, CentreOf(s, posting), Routable(s) - {posting}, others, MERGE_CANDIDATES);
  }

  /** The partner a merge finds is the first with room: every active posting before
      it among the neighbours is too large. */
  lemma FirstIsClosest(s: Snapshot, space: G.Space, t: Table, p: nat, chunks: nat, limit: nat)
    requires HasCentre(s, p)
    ensures var q := FirstWithRoom(t, MergeCandidates(s, space, p), chunks, limit);
            q.Some? ==>
              && q.value in Routable(s) && q.value != p && q.value in MergeCandidates(s, space, p)
              && forall x :: x in CloserThan(s, space, CentreOf(s, p), Routable(s) - {p}, q.value) ==>
                               chunks + ChunksOf(t, x) >= limit
  {
    hide ActiveCentres, Routable, CloserThan, FirstWithRoom, G.Neighbours;
    var (near, centre, ids) := (MergeCandidates(s, space, p), CentreOf(s, p), Routable(s) - {p});
    OthersAreListed(s, {p});
    NeighboursInOrder(s, space, centre, ids, AllBut(ActiveCentres(s), {p}), MERGE_CANDIDATES);
    FirstInOrder(s, space, t, centre, ids, near, chunks, limit);
  }

  lemma FirstInOrder(s: Snapshot, space: G.Space, t: Table, centre: Point, ids: set<nat>, near: seq<nat>, chunks: nat,
                     limit: nat)
    requires ids <= Routable(s) && forall i :: 0 <= i < |near| ==> near[i] in ids
    requires forall i, j :: 0 <= i < j < |near| ==> Closer(s, space, centre, near[i], near[j])
    requires forall i, q :: 0 <= i < |near| && q in ids && q !in near ==> Closer(s, space, centre, near[i], q)
    ensures var q := FirstWithRoom(t, near, chunks, limit);
            q.Some? ==>
              && q.value in near && q.value in ids
              && forall x :: x in CloserThan(s, space, centre, ids, q.value) ==> chunks + ChunksOf(t, x) >= limit
  {
    hide Routable, Closer, FirstWithRoom;
    RoutableHasCentre(s);
    var q := FirstWithRoom(t, near, chunks, limit);
    if q.Some? {
      var k :| 0 <= k < |near| && near[k] == q.value
               && forall j :: 0 <= j < k ==> chunks + ChunksOf(t, near[j]) >= limit;
      forall x | x in CloserThan(s, space, centre, ids, q.value) ensures chunks + ChunksOf(t, x) >= limit {
        CloserOneWay(s, space, centre, x, q.value);
        if x in near {
          var j :| 0 <= j < |near| && near[j] == x;
        }
      }
    }
  }

  /** The posting is active, and no active posting near it has room for its chunks. */
  ghost predicate NoRoom(space: G.Space, splitLimit: nat, at: Found, posting: nat) {
    && IsActive(at.snap.postings, posting) && HasCentre(at.snap, posting)
    && forall q :: q in MergeCandidates(at.snap, space, posting) ==>
         ChunksOf(at.counts, posting) + ChunksOf(at.counts, q) >= splitLimit
  }

  /** Every posting marked unmergeable found no room when it had that size:
      `declined` is the partition it found. */
  ghost predicate DeclinesTrue(space: G.Space, splitLimit: nat, unmergeable: map<nat, nat>, declined: map<nat, Found>) {
    forall p :: p in unmergeable ==>
      p in declined && ChunksOf(declined[p].counts, p) == unmergeable[p] && NoRoom(space, splitLimit, declined[p], p)
  }

  lemma Decline(space: G.Space, splitLimit: nat, unmergeable: map<nat, nat>, declined: map<nat, Found>, p: nat,
                at: Found)
    requires DeclinesTrue(space, splitLimit, unmergeable, declined) && NoRoom(space, splitLimit, at, p)
    ensures DeclinesTrue(space, splitLimit, unmergeable[p := ChunksOf(at.counts, p)], declined[p := at])
  {
  }

  /** A mark lasts while its posting's size does, whatever becomes of the others. A
      posting that found no room still has none if and only if none of those near it
      now has room that were not near it then, or have shrunk since. */
  lemma StillNoRoomIff(space: G.Space, splitLimit: nat, at: Found, now: Found, p: nat)
    requires NoRoom(space, splitLimit, at, p) && ChunksOf(now.counts, p) == ChunksOf(at.counts, p)
    requires IsActive(now.snap.postings, p) && HasCentre(now.snap, p)
    ensures NoRoom(space, splitLimit, now, p) <==>
            forall q :: q in MergeCandidates(now.snap, space, p) && IsNewOrSmaller(space, at, now, p, q) ==>
              ChunksOf(now.counts, p) + ChunksOf(now.counts, q) >= splitLimit
  {
  }

  /** `q` was not near `p`, or was larger. */
  ghost predicate IsNewOrSmaller(space: G.Space, at: Found, now: Found, p: nat, q: nat)
    requires HasCentre(at.snap, p)
  {
    q !in MergeCandidates(at.snap, space, p) || ChunksOf(now.counts, q) < ChunksOf(at.counts, q)
  }

  /** Where there are few postings, each is a candidate of every other. */
  lemma FewAreAllCandidates(s: Snapshot, space: G.Space, p: nat, q: nat)
    requires {p, q} <= Routable(s) && p != q && |Routable(s)| <= MERGE_CANDIDATES
    ensures q in MergeCandidates(s, space, p)
  {
    CandidateIffFewCloser(s, space, p, q);
    var before := CloserThan(s, space, CentreOf(s, p), Routable(s) - {p}, q);
    Within(before + {q}, Routable(s) - {p});
  }

  // ── publishing ──

  /** The marks of postings still active. */
  function Retain(marks: map<nat, nat>, s: Snapshot): map<nat, nat> {
    map p | p in marks && p in s.postings && s.postings[p].state.Active? :: marks[p]
  }

  lemma RetainedStayTrue(twoMeans: TwoMeans, space: G.Space, mergeLimit: nat, splitLimit: nat,
                         unsplittable: map<nat, nat>, refused: map<nat, Found>,
                         unmergeable: map<nat, nat>, declined: map<nat, Found>, s: Snapshot)
    requires RefusalsTrue(twoMeans, mergeLimit, unsplittable, refused)
    requires DeclinesTrue(space, splitLimit, unmergeable, declined)
    ensures RefusalsTrue(twoMeans, mergeLimit, Retain(unsplittable, s), refused)
            && DeclinesTrue(space, splitLimit, Retain(unmergeable, s), declined)
  {
  }
}
