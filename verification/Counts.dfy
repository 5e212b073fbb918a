/** Posting sizes: the table kept current by deltas, and the recount from the
    document records it must agree with. */
module Counts {
  import opened Codes
  import opened Vectors

  /** How a vector write changed posting sizes: `(posting, chunks)` of each entry
      written and of each entry deleted. */
  datatype Delta = Delta(added: seq<(nat, nat)>, removed: seq<(nat, nat)>)

  const NO_CHANGE := Delta([], [])

  function Extend(a: Delta, b: Delta): Delta {
    Delta(a.added + b.added, a.removed + b.removed)
  }

  /** A posting's size has two parts: its entries (one per document) and their
      chunks. */
  datatype Part = Entries | Chunks

  datatype Size = Size(entries: nat, chunks: nat) {
    function Of(u: Part): nat { if u.Entries? then entries else chunks }
  }

  type Table = map<nat, Size>

  /** A posting's count: 0 for one never counted. */
  function Get(t: Table, p: nat, u: Part): nat {
    if p in t then t[p].Of(u) else 0
  }

  function Less(a: nat, b: nat): nat { if a < b then 0 else a - b }

  function AddAll(t: Table, es: seq<(nat, nat)>): Table
    decreases |es|
  {
    if es == [] then t
    else
      var (p, n) := es[0];
      AddAll(t[p := Size(Get(t, p, Entries) + 1, Get(t, p, Chunks) + n)], es[1..])
  }

  function RemoveAll(t: Table, es: seq<(nat, nat)>): Table
    decreases |es|
  {
    if es == [] then t
    else
      var (p, n) := es[0];
      RemoveAll(t[p := Size(Less(Get(t, p, Entries), 1), Less(Get(t, p, Chunks), n))], es[1..])
  }

  /** `CountTable::apply`: additions first; a count never goes below 0. */
  function ApplyDelta(t: Table, d: Delta): Table {
    RemoveAll(AddAll(t, d.added), d.removed)
  }

  /** What a list of entries counts for posting `p`. */
  function Tally(es: seq<(nat, nat)>, p: nat, u: Part): nat {
    if es == [] then 0
    else (if es[0].0 != p then 0 else if u.Entries? then 1 else es[0].1) + Tally(es[1..], p, u)
  }

  lemma {:induction false} TallyConcat(a: seq<(nat, nat)>, b: seq<(nat, nat)>, p: nat, u: Part)
    ensures Tally(a + b, p, u) == Tally(a, p, u) + Tally(b, p, u)
  {
    if a == [] {
      assert a + b == b;
    } else {
      assert (a + b)[1..] == a[1..] + b;
      TallyConcat(a[1..], b, p, u);
    }
  }

  lemma {:induction false} AddAllTallies(t: Table, es: seq<(nat, nat)>, p: nat, u: Part)
    ensures Get(AddAll(t, es), p, u) == Get(t, p, u) + Tally(es, p, u)
    decreases |es|
  {
    if es != [] {
      var (q, n) := es[0];
      AddAllTallies(t[q := Size(Get(t, q, Entries) + 1, Get(t, q, Chunks) + n)], es[1..], p, u);
    }
  }

  lemma {:induction false} RemoveAllTallies(t: Table, es: seq<(nat, nat)>, p: nat, u: Part)
    ensures Get(RemoveAll(t, es), p, u) == Less(Get(t, p, u), Tally(es, p, u))
    decreases |es|
  {
    if es != [] {
      var (q, n) := es[0];
      RemoveAllTallies(t[q := Size(Less(Get(t, q, Entries), 1), Less(Get(t, q, Chunks), n))], es[1..], p, u);
    }
  }

  /** Applying one delta is exact for a posting if and only if the table and the
      additions together cover the removals: otherwise a count saturates at 0. */
  lemma ApplyIsExactIff(t: Table, d: Delta, p: nat, u: Part)
    ensures var before := Get(t, p, u) + Tally(d.added, p, u);
            var gone := Tally(d.removed, p, u);
            Get(ApplyDelta(t, d), p, u) + gone == before <==> gone <= before
  {
    AddAllTallies(t, d.added, p, u);
    RemoveAllTallies(AddAll(t, d.added), d.removed, p, u);
  }

  // ── The recount ──

  /** What one document's record counts for `p`. */
  function Counted(dv: DocVec, p: nat, u: Part): nat {
    if dv.meta.Some? then Tally(dv.meta.value.postings, p, u) else 0
  }

  /** The sum over every document record of what it counts for `p`. */
  ghost function Recount(v: Vec, p: nat, u: Part): nat
    decreases |v|
  {
    if v == map[] then 0
    else
      var d: Doc :| d in v;
      Counted(v[d], p, u) + Recount(v - {d}, p, u)
  }

  /** The recount does not depend on the order of the scan. */
  lemma {:induction false} RecountAnyOrder(v: Vec, d: Doc, p: nat, u: Part)
    requires d in v
    ensures Recount(v, p, u) == Counted(v[d], p, u) + Recount(v - {d}, p, u)
    decreases |v|
  {
    var x: Doc :| x in v && Recount(v, p, u) == Counted(v[x], p, u) + Recount(v - {x}, p, u);
    if x != d {
      RecountAnyOrder(v - {x}, d, p, u);
      RecountAnyOrder(v - {d}, x, p, u);
      assert v - {x} - {d} == v - {d} - {x};
    }
  }

  lemma RecountAfter(v: Vec, d: Doc, dv: DocVec, p: nat, u: Part)
    ensures Recount(v[d := dv], p, u) + Counted(At(v, d), p, u) == Recount(v, p, u) + Counted(dv, p, u)
  {
    var v' := v[d := dv];
    RecountAnyOrder(v', d, p, u);
    if d in v {
      RecountAnyOrder(v, d, p, u);
      assert v' - {d} == v - {d};
    } else {
      assert v' - {d} == v;
    }
  }

  /** The table agrees with a recount of `v`. */
  ghost predicate Agrees(t: Table, v: Vec) {
    forall p, u :: Get(t, p, u) == Recount(v, p, u)
  }

  /** A delta that accounts for the change from `v` to `v'`. */
  ghost predicate Accounts(v: Vec, v': Vec, d: Delta) {
    forall p, u :: Recount(v', p, u) + Tally(d.removed, p, u) == Recount(v, p, u) + Tally(d.added, p, u)
  }

  /** Applying such a delta keeps the table equal to a recount: nothing saturates. */
  lemma ApplyKeepsAgreement(t: Table, v: Vec, v': Vec, d: Delta)
    requires Agrees(t, v) && Accounts(v, v', d)
    ensures Agrees(ApplyDelta(t, d), v')
  {
    forall p, u ensures Get(ApplyDelta(t, d), p, u) == Recount(v', p, u) {
      assert Get(t, p, u) == Recount(v, p, u);
      assert Recount(v', p, u) + Tally(d.removed, p, u) == Recount(v, p, u) + Tally(d.added, p, u);
      ApplyIsExactIff(t, d, p, u);
    }
  }

  /** Changes made one after the other are accounted for by their deltas together. */
  lemma AccountsCompose(a: Vec, b: Vec, c: Vec, d1: Delta, d2: Delta)
    requires Accounts(a, b, d1) && Accounts(b, c, d2)
    ensures Accounts(a, c, Extend(d1, d2))
  {
    forall p, u
      ensures Recount(c, p, u) + Tally(Extend(d1, d2).removed, p, u)
           == Recount(a, p, u) + Tally(Extend(d1, d2).added, p, u)
    {
      TallyConcat(d1.added, d2.added, p, u);
      TallyConcat(d1.removed, d2.removed, p, u);
      assert Recount(b, p, u) + Tally(d1.removed, p, u) == Recount(a, p, u) + Tally(d1.added, p, u);
      assert Recount(c, p, u) + Tally(d2.removed, p, u) == Recount(b, p, u) + Tally(d2.added, p, u);
    }
  }

  /** A change to one document's record, accounted for by a delta between the two
      records. */
  ghost predicate RecordDelta(was: DocVec, now: DocVec, d: Delta) {
    forall p, u :: Counted(now, p, u) + Tally(d.removed, p, u) == Counted(was, p, u) + Tally(d.added, p, u)
  }

  /** A recount sees only what each document holds. */
  lemma {:induction false} RecountPointwise(v: Vec, v': Vec, p: nat, u: Part)
    requires forall x :: At(v, x) == At(v', x)
    ensures Recount(v, p, u) == Recount(v', p, u)
    decreases |v| + |v'|
  {
    if v != map[] || v' != map[] {
      var d: Doc :| d in v || d in v';
      RecountWithout(v, d, p, u);
      RecountWithout(v', d, p, u);
      assert At(v, d) == At(v', d);
      PointwiseWithout(v, v', d);
      RecountPointwise(v - {d}, v' - {d}, p, u);
    }
  }

  lemma RecountWithout(v: Vec, d: Doc, p: nat, u: Part)
    ensures Recount(v, p, u) == Counted(At(v, d), p, u) + Recount(v - {d}, p, u)
  {
    if d in v {
      RecountAnyOrder(v, d, p, u);
    } else {
      assert v - {d} == v;
    }
  }

  lemma PointwiseWithout(v: Vec, v': Vec, d: Doc)
    requires forall x :: At(v, x) == At(v', x)
    ensures forall x :: At(v - {d}, x) == At(v' - {d}, x)
  {
    forall x ensures At(v - {d}, x) == At(v' - {d}, x) {
      assert At(v, x) == At(v', x);
    }
  }

  /** A change to one document accounted for by a delta between its records. */
  lemma RecordAccounts(v: Vec, v': Vec, d: Doc, delta: Delta)
    requires forall x :: x != d ==> At(v', x) == At(v, x)
    requires RecordDelta(At(v, d), At(v', d), delta)
    ensures Accounts(v, v', delta)
  {
    forall p, u ensures Recount(v', p, u) + Tally(delta.removed, p, u) == Recount(v, p, u) + Tally(delta.added, p, u) {
      RecountAfter(v, d, At(v', d), p, u);
      RecountPointwise(v', v[d := At(v', d)], p, u);
      assert Counted(At(v', d), p, u) + Tally(delta.removed, p, u)
        == Counted(At(v, d), p, u) + Tally(delta.added, p, u);
    }
  }

  // ── Deltas as they land ──

  /** The table after deltas have landed, in this order. */
  function ApplyDeltas(t: Table, ds: seq<Delta>): Table
    decreases |ds|
  {
    if ds == [] then t else ApplyDeltas(ApplyDelta(t, ds[0]), ds[1..])
  }

  function Added(ds: seq<Delta>, p: nat, u: Part): nat {
    if ds == [] then 0 else Tally(ds[0].added, p, u) + Added(ds[1..], p, u)
  }

  function Removed(ds: seq<Delta>, p: nat, u: Part): nat {
    if ds == [] then 0 else Tally(ds[0].removed, p, u) + Removed(ds[1..], p, u)
  }

  /** No delta removes more of `p` than the table it meets and its own additions
      hold: what `CountTable::apply` could check before it subtracts. */
  predicate NeverShort(t: Table, ds: seq<Delta>, p: nat, u: Part)
    decreases |ds|
  {
    ds == [] || (Tally(ds[0].removed, p, u) <= Get(t, p, u) + Tally(ds[0].added, p, u)
      && NeverShort(ApplyDelta(t, ds[0]), ds[1..], p, u))
  }

  /** Deltas landing in any order never count too little; they count exactly what
      they add and remove together if and only if none lands short. */
  lemma {:induction false} LandedExactlyIff(t: Table, ds: seq<Delta>, p: nat, u: Part)
    ensures Get(ApplyDeltas(t, ds), p, u) + Removed(ds, p, u) >= Get(t, p, u) + Added(ds, p, u)
    ensures Get(ApplyDeltas(t, ds), p, u) + Removed(ds, p, u) == Get(t, p, u) + Added(ds, p, u) <==>
            NeverShort(t, ds, p, u)
    decreases |ds|
  {
    if ds != [] {
      AddAllTallies(t, ds[0].added, p, u);
      RemoveAllTallies(AddAll(t, ds[0].added), ds[0].removed, p, u);
      LandedExactlyIff(ApplyDelta(t, ds[0]), ds[1..], p, u);
    }
  }

  /** Deltas that together account for the change from `v` to `v'`, in whatever
      order they land. */
  ghost predicate TogetherAccount(v: Vec, v': Vec, ds: seq<Delta>) {
    forall p, u :: Recount(v', p, u) + Removed(ds, p, u) == Recount(v, p, u) + Added(ds, p, u)
  }

  /** Once all have landed the table agrees with a recount if and only if none
      landed short: otherwise some posting counts too many from then on. */
  lemma AgreesIffNeverShort(t: Table, v: Vec, v': Vec, ds: seq<Delta>)
    requires Agrees(t, v) && TogetherAccount(v, v', ds)
    ensures Agrees(ApplyDeltas(t, ds), v') <==> forall p, u :: NeverShort(t, ds, p, u)
    ensures forall p, u :: Get(ApplyDeltas(t, ds), p, u) >= Recount(v', p, u)
  {
    var after := ApplyDeltas(t, ds);
    forall p, u ensures Get(after, p, u) >= Recount(v', p, u) {
      CountsIffNeverShort(t, v, v', ds, p, u);
    }
    if Agrees(after, v') {
      forall p, u ensures NeverShort(t, ds, p, u) {
        CountsIffNeverShort(t, v, v', ds, p, u);
      }
    } else {
      var p, u :| Get(after, p, u) != Recount(v', p, u);
      CountsIffNeverShort(t, v, v', ds, p, u);
    }
  }

  lemma CountsIffNeverShort(t: Table, v: Vec, v': Vec, ds: seq<Delta>, p: nat, u: Part)
    requires Agrees(t, v) && TogetherAccount(v, v', ds)
    ensures Get(ApplyDeltas(t, ds), p, u) >= Recount(v', p, u)
    ensures Get(ApplyDeltas(t, ds), p, u) == Recount(v', p, u) <==> NeverShort(t, ds, p, u)
  {
    LandedExactlyIff(t, ds, p, u);
    assert Get(t, p, u) == Recount(v, p, u);
    assert Recount(v', p, u) + Removed(ds, p, u) == Recount(v, p, u) + Added(ds, p, u);
  }

  /** What each of some writes makes of the records, and its delta. */
  ghost predicate Changes(vs: seq<Vec>, ds: seq<Delta>) {
    && |vs| == |ds| + 1
    && forall k :: 0 <= k < |ds| ==> Accounts(vs[k], vs[k + 1], ds[k])
  }

  /** Deltas that land in the order of their writes are never short. */
  lemma {:induction false} InOrderNeverShort(t: Table, vs: seq<Vec>, ds: seq<Delta>, p: nat, u: Part)
    requires Changes(vs, ds) && Agrees(t, vs[0])
    ensures NeverShort(t, ds, p, u) && Agrees(ApplyDeltas(t, ds), vs[|ds|])
    decreases |ds|
  {
    if ds != [] {
      ApplyKeepsAgreement(t, vs[0], vs[1], ds[0]);
      assert Get(t, p, u) == Recount(vs[0], p, u);
      assert Recount(vs[1], p, u) + Tally(ds[0].removed, p, u) == Recount(vs[0], p, u) + Tally(ds[0].added, p, u);
      InOrderNeverShort(ApplyDelta(t, ds[0]), vs[1..], ds[1..], p, u);
    }
  }

  /** Two writers apply their deltas after releasing the document's lock. If the
      later delete's delta lands before the earlier upsert's, it lands short and the
      posting is counted for ever after: here a document with three chunks in
      posting 7, written and deleted, leaves one entry and three chunks although no
      record is left. */
  lemma OutOfOrderDeltasDrift(u: Part)
    ensures var write := Delta([(7, 3)], []);
            var erase := Delta([], [(7, 3)]);
            && !NeverShort(map[], [erase, write], 7, u)
            && Get(ApplyDelta(ApplyDelta(map[], write), erase), 7, u) == 0
            && Get(ApplyDelta(ApplyDelta(map[], erase), write), 7, u) == if u.Entries? then 1 else 3
  {
    var write := Delta([(7, 3)], []);
    var erase := Delta([], [(7, 3)]);
    ApplyIsExactIff(ApplyDelta(map[], write), erase, 7, u);
    ApplyIsExactIff(map[], write, 7, u);
    RemoveAllTallies(map[], erase.removed, 7, u);
    ApplyIsExactIff(ApplyDelta(map[], erase), write, 7, u);
    assert Tally([(7, 3)], 7, u) == (if u.Entries? then 1 else 3) + Tally([(7, 3)][1..], 7, u);
  }
}
