/** Copying chunks to other postings: a document's meta first, then its keys,
    a batch of documents at a time (`copy_into_batch`, `drain_copy`). */
module Copying {
  import opened Codes
  import opened Vectors
  import opened Counts
  import opened Partition
  import opened Marks
  import opened Store
  import opened Steps
  import G = Geometry

  // ── What a copy does to one document ──

  /** A document after `codes` are copied under `dest`. */
  function Filed(dv: DocVec, dest: nat, codes: seq<VectorIndex>): DocVec {
    dv.(keys := dv.keys[dest := Merged(HeldAt(dv, dest), codes)])
  }

  /** Codes filed where `rule` sends them. */
  function Refile(s: G.Space, centres: map<nat, Point>, rule: G.DrainRule,
                  codes: seq<VectorIndex>): (r: seq<VectorIndex>)
    requires rule.NearestOf? ==> rule.postings != []
    ensures |r| == |codes|
    ensures forall i :: 0 <= i < |r| ==> r[i] == codes[i].(clusterId := G.Destination(s, centres, rule, codes[i]))
  {
    seq(|codes|, i requires 0 <= i < |codes| => codes[i].(clusterId := G.Destination(s, centres, rule, codes[i])))
  }

  /** The index of `dest` in a meta's list, or its length. */
  function Find(ps: seq<(nat, nat)>, dest: nat): (i: nat)
    ensures i <= |ps| && (i < |ps| ==> ps[i].0 == dest)
    ensures i == |ps| ==> dest !in Ids(ps)
  {
    if ps == [] then 0
    else if ps[0].0 == dest then 0
    else
      assert ps == [ps[0]] + ps[1..];
      1 + Find(ps[1..], dest)
  }

  /** A meta's list once `dest` is listed with `n` chunks, and the delta. */
  function ListAt(ps: seq<(nat, nat)>, dest: nat, n: nat): (seq<(nat, nat)>, Delta) {
    var i := Find(ps, dest);
    if i == |ps| then (ps + [(dest, n)], Delta([(dest, n)], []))
    else if ps[i].1 == n then (ps, NO_CHANGE)
    else (ps[i := (dest, n)], Delta([(dest, n)], [(dest, ps[i].1)]))
  }

  /** A delta that accounts for the change from one list to another. */
  ghost predicate Relists(ps: seq<(nat, nat)>, ps': seq<(nat, nat)>, d: Delta) {
    && (forall p, u :: Tally(ps', p, u) + Tally(d.removed, p, u) == Tally(ps, p, u) + Tally(d.added, p, u))
    && (d == NO_CHANGE ==> ps' == ps)
  }

  lemma {:induction false} TallyUpdate(ps: seq<(nat, nat)>, i: nat, e: (nat, nat), p: nat, u: Part)
    requires i < |ps|
    ensures Tally(ps[i := e], p, u) + Tally([ps[i]], p, u) == Tally(ps, p, u) + Tally([e], p, u)
  {
    if i == 0 {
      assert ps[0 := e][1..] == ps[1..];
    } else {
      assert ps[i := e][1..] == ps[1..][i - 1 := e];
      TallyUpdate(ps[1..], i - 1, e, p, u);
    }
  }

  lemma ListAtRelists(ps: seq<(nat, nat)>, dest: nat, n: nat)
    ensures Relists(ps, ListAt(ps, dest, n).0, ListAt(ps, dest, n).1)
    ensures Ids(ListAt(ps, dest, n).0) == Ids(ps) + {dest}
    ensures (dest, n) in ListAt(ps, dest, n).0
  {
    var (ps', d) := ListAt(ps, dest, n);
    var i := Find(ps, dest);
    forall p, u ensures Tally(ps', p, u) + Tally(d.removed, p, u) == Tally(ps, p, u) + Tally(d.added, p, u) {
      if i == |ps| {
        TallyConcat(ps, [(dest, n)], p, u);
      } else if ps[i].1 != n {
        TallyUpdate(ps, i, (dest, n), p, u);
      }
    }
    if i < |ps| {
      assert ps[i] in ps && ps'[i] in ps';
      forall x ensures x in Ids(ps') <==> x in Ids(ps) {
        if x in Ids(ps) {
          var k :| 0 <= k < |ps| && ps[k].0 == x;
          assert ps'[k] in ps' && ps'[k].0 == x;
        }
        if x in Ids(ps') {
          var k :| 0 <= k < |ps'| && ps'[k].0 == x;
          assert ps[k] in ps && ps[k].0 == x;
        }
      }
    } else {
      assert ps'[|ps|] == (dest, n);
    }
  }

  lemma RelistsCompose(a: seq<(nat, nat)>, b: seq<(nat, nat)>, c: seq<(nat, nat)>, d1: Delta, d2: Delta)
    requires Relists(a, b, d1) && Relists(b, c, d2)
    ensures Relists(a, c, Extend(d1, d2))
  {
    forall p, u
      ensures Tally(c, p, u) + Tally(Extend(d1, d2).removed, p, u)
           == Tally(a, p, u) + Tally(Extend(d1, d2).added, p, u)
    {
      TallyConcat(d1.added, d2.added, p, u);
      TallyConcat(d1.removed, d2.removed, p, u);
      assert Tally(b, p, u) + Tally(d1.removed, p, u) == Tally(a, p, u) + Tally(d1.added, p, u);
      assert Tally(c, p, u) + Tally(d2.removed, p, u) == Tally(b, p, u) + Tally(d2.added, p, u);
    }
  }

  predicate StrictlyUp(s: seq<nat>) {
    forall i, j :: 0 <= i < j < |s| ==> s[i] < s[j]
  }

  lemma NothingRelisted(ps: seq<(nat, nat)>)
    ensures Relists(ps, ps, NO_CHANGE)
  {
  }

  /** Listing one posting leaves the entries of others, and its own has the size. */
  lemma ListAtKeeps(ps: seq<(nat, nat)>, dest: nat, n: nat, e: (nat, nat))
    requires e in ps && e.0 != dest
    ensures e in ListAt(ps, dest, n).0
  {
    var i :| 0 <= i < |ps| && ps[i] == e;
    assert ListAt(ps, dest, n).0[i] == e;
  }

  /** The meta lists each destination at the size its key will have. */
  method ListDestinations(dv: DocVec, ps: seq<(nat, nat)>, moving: map<nat, seq<VectorIndex>>, dests: seq<nat>)
    returns (ps': seq<(nat, nat)>, delta: Delta)
    requires (forall q :: q in dests ==> q in moving) && StrictlyUp(dests)
    ensures Relists(ps, ps', delta)
    ensures Ids(ps') == Ids(ps) + (set q | q in dests)
    ensures forall q :: q in dests ==> (q, |Merged(HeldAt(dv, q), moving[q])|) in ps'
  {
    hide Relists, ListAt, Merged;
    ps', delta := ps, NO_CHANGE;
    NothingRelisted(ps);
    for k := 0 to |dests|
      invariant Relists(ps, ps', delta)
      invariant Ids(ps') == Ids(ps) + (set q | q in dests[..k])
      invariant forall j :: 0 <= j < k ==> (dests[j], |Merged(HeldAt(dv, dests[j]), moving[dests[j]])|) in ps'
    {
      var n := |Merged(HeldAt(dv, dests[k]), moving[dests[k]])|;
      var (next, d) := ListAt(ps', dests[k], n);
      ListAtRelists(ps', dests[k], n);
      forall j | 0 <= j < k ensures (dests[j], |Merged(HeldAt(dv, dests[j]), moving[dests[j]])|) in next {
        assert dests[j] < dests[k];
        ListAtKeeps(ps', dests[k], n, (dests[j], |Merged(HeldAt(dv, dests[j]), moving[dests[j]])|));
      }
      RelistsCompose(ps, ps', next, delta, d);
      ps', delta := next, Extend(delta, d);
      assert dests[..k + 1] == dests[..k] + [dests[k]];
    }
    assert dests[..|dests|] == dests;
  }

  /** Only `d`'s present state differs. */
  ghost predicate OnlyDoc(v: Vec, v': Vec, d: Doc) {
    forall x :: x != d ==> At(v', x) == At(v, x)
  }

  /** A posting chunks may be copied to. */
  ghost predicate MayReceive(r: Rules, dest: nat) {
    dest in r.live && dest !in r.planned
  }

  /** Nothing is being deleted, so chunks may be copied. */
  ghost predicate OnlyCopying(r: Rules) {
    r.copied.None? && r.moves.None? && r.loose == {}
  }

  /** One logged maintenance write. */
  method LogWrite(ix: Index, d: Doc, w: Write) returns (r: Outcome)
    requires ix.Safe() && Good(ix.C(), ix.R(), d, Apply(At(Now(ix.log), d), w))
    modifies ix`budget, ix`log
    ensures ix.Safe() && !r.Corrupt? && Spent(old(ix.budget), ix.budget, r)
    ensures r.Fine? ==>
            OnlyDoc(Now(old(ix.log)), Now(ix.log), d) && At(Now(ix.log), d) == Apply(At(Now(old(ix.log)), d), w)
  {
    hide PartsOk, PlanOk, RulesOf, AllGood, Good;
    r := ix.PutLogged(d, w);
  }

  /** Copy chunks the document holds (`from`) under `dest`: one logged write, and
      none if the destination holds them all. */
  method CopyKey(ix: Index, ghost from: set<VectorIndex>, d: Doc, dest: nat, codes: seq<VectorIndex>)
    returns (r: Outcome)
    requires ix.Safe() && OnlyCopying(ix.R()) && MayReceive(ix.R(), dest)
    requires var dv := At(Now(ix.log), d);
             && from <= HeldSet(dv) && dest in Lists(dv.meta) && codes != []
             && forall c :: c in codes ==> c.clusterId == dest && Bare(c) in from
    modifies ix`budget, ix`log
    ensures ix.Safe() && !r.Corrupt? && Spent(old(ix.budget), ix.budget, r)
    ensures r.Fine? ==> OnlyDoc(Now(old(ix.log)), Now(ix.log), d)
    ensures r.Fine? ==> At(Now(ix.log), d) == Filed(At(Now(old(ix.log)), d), dest, codes)
  {
    hide PartsOk, PlanOk, RulesOf, Good, Keyed;
    var dv := At(Now(ix.log), d);
    var merged := Merged(HeldAt(dv, dest), codes);
    if |merged| > |HeldAt(dv, dest)| {
      assert Good(ix.C(), ix.R(), d, At(ix.log[|ix.log| - 1], d));
      CopyIsAllowed(ix.C(), ix.R(), d, dv, from, dest, codes);
      r := LogWrite(ix, d, PutKey(dest, merged));
    } else {
      NothingMissing(dv, dest, codes);
      r := Fine;
    }
  }

  lemma NothingMissing(dv: DocVec, dest: nat, codes: seq<VectorIndex>)
    requires codes != [] && |Merged(HeldAt(dv, dest), codes)| <= |HeldAt(dv, dest)|
    ensures Filed(dv, dest, codes) == dv
  {
    var held := HeldAt(dv, dest);
    MergedAdds(held, codes);
    MergedHolds(held, codes);
    assert Bare(codes[0]) in Held(codes);
    assert Merged(held, codes) == held;
    assert dv.keys[dest := held] == dv.keys;
  }

  lemma CopyIsAllowed(c: Claims, r: Rules, d: Doc, dv: DocVec, from: set<VectorIndex>, dest: nat,
                      codes: seq<VectorIndex>)
    requires Good(c, r, d, dv) && OnlyCopying(r) && MayReceive(r, dest)
    requires from <= HeldSet(dv) && dest in Lists(dv.meta) && codes != []
    requires forall x :: x in codes ==> x.clusterId == dest && Bare(x) in from
    ensures Good(c, r, d, Apply(dv, PutKey(dest, Merged(HeldAt(dv, dest), codes))))
  {
    var held := HeldAt(dv, dest);
    MergedAdds(held, codes);
    MergedHolds(held, codes);
    assert dest in dv.keys ==> KeyOk(r, dv.meta, dest, dv.keys[dest]);
    assert Bare(codes[0]) in Held(codes);
    CopyKeeps(c, r, d, dv, dest, Merged(held, codes));
  }

  /** What is to be copied of `from`, by destination. */
  ghost predicate Movable(r: Rules, from: set<VectorIndex>, moving: map<nat, seq<VectorIndex>>) {
    forall q :: q in moving ==>
      && MayReceive(r, q) && moving[q] != []
      && forall c :: c in moving[q] ==> c.clusterId == q && Bare(c) in from
  }

  /** Under `p`, if it is one of `dests`, is what was there and what was missing of
      what moved there; otherwise what was there. */
  ghost predicate CopiedAt(dv: DocVec, dv': DocVec, moving: map<nat, seq<VectorIndex>>, dests: seq<nat>, p: nat) {
    if p in dests && p in moving then p in dv'.keys && dv'.keys[p] == Merged(HeldAt(dv, p), moving[p])
    else (p in dv'.keys <==> p in dv.keys) && HeldAt(dv', p) == HeldAt(dv, p)
  }

  /** The keys of `dests` hold what they held and what was missing of what moved
      there; nothing else changed. */
  ghost predicate CopiedInto(dv: DocVec, dv': DocVec, moving: map<nat, seq<VectorIndex>>, dests: seq<nat>) {
    dv'.meta == dv.meta && dv'.dense == dv.dense && forall p :: CopiedAt(dv, dv', moving, dests, p)
  }

  lemma CopiedMore(dv: DocVec, dv': DocVec, moving: map<nat, seq<VectorIndex>>, dests: seq<nat>, k: nat)
    requires k < |dests| && dests[k] in moving && StrictlyUp(dests)
    requires CopiedInto(dv, dv', moving, dests[..k])
    ensures CopiedInto(dv, Filed(dv', dests[k], moving[dests[k]]), moving, dests[..k + 1])
  {
    hide Merged;
    var after := Filed(dv', dests[k], moving[dests[k]]);
    var more := dests[..k + 1];
    forall p ensures CopiedAt(dv, after, moving, more, p) {
      assert CopiedAt(dv, dv', moving, dests[..k], p);
      OneMoreOf(dests, k, p);
    }
  }

  lemma OneMoreOf(dests: seq<nat>, k: nat, p: nat)
    requires k < |dests| && StrictlyUp(dests)
    ensures p in dests[..k + 1] <==> p in dests[..k] || p == dests[k]
    ensures dests[k] !in dests[..k]
  {
    assert dests[..k + 1] == dests[..k] + [dests[k]];
  }

  lemma CopiedHolds(dv: DocVec, dv': DocVec, moving: map<nat, seq<VectorIndex>>, dests: seq<nat>)
    requires (forall q :: q in dests ==> q in moving) && CopiedInto(dv, dv', moving, dests)
    ensures HeldSet(dv) <= HeldSet(dv')
  {
    forall b | b in HeldSet(dv) ensures b in HeldSet(dv') {
      var p :| p in dv.keys && b in Held(dv.keys[p]);
      assert CopiedAt(dv, dv', moving, dests, p);
      if p in dests {
        MergedHolds(HeldAt(dv, p), moving[p]);
        assert b in Held(dv'.keys[p]);
      } else {
        assert p in dv'.keys && b in Held(dv'.keys[p]);
      }
    }
  }

  /** Write the chunks at each destination. */
  method CopyKeys(ix: Index, ghost from: set<VectorIndex>, d: Doc, moving: map<nat, seq<VectorIndex>>, dests: seq<nat>)
    returns (r: Outcome)
    requires ix.Safe() && OnlyCopying(ix.R()) && Movable(ix.R(), from, moving)
    requires from <= HeldSet(At(Now(ix.log), d))
    requires (forall q :: q in dests ==> q in moving && q in Lists(At(Now(ix.log), d).meta)) && StrictlyUp(dests)
    modifies ix`budget, ix`log
    ensures ix.Safe() && !r.Corrupt? && Spent(old(ix.budget), ix.budget, r)
    ensures r.Fine? ==> OnlyDoc(Now(old(ix.log)), Now(ix.log), d)
    ensures r.Fine? ==> CopiedInto(At(Now(old(ix.log)), d), At(Now(ix.log), d), moving, dests)
  {
    hide PartsOk, PlanOk, RulesOf, AllGood, Filed, Held, Merged, HeldSet, OnlyCopying, StrictlyUp;
    ghost var dv := At(Now(ix.log), d);
    assert dests[..0] == [];
    for k := 0 to |dests|
      invariant Spent(old(ix.budget), ix.budget, Fine)
      invariant ix.Safe() && OnlyDoc(Now(old(ix.log)), Now(ix.log), d)
      invariant CopiedInto(dv, At(Now(ix.log), d), moving, dests[..k])
    {
      CopiedMore(dv, At(Now(ix.log), d), moving, dests, k);
      CopiedHolds(dv, At(Now(ix.log), d), moving, dests[..k]);
      :- CopyKey(ix, from, d, dests[k], moving[dests[k]]);
    }
    assert dests[..|dests|] == dests;
    return Fine;
  }

  lemma ListIsAllowed(c: Claims, r: Rules, d: Doc, dv: DocVec, from: set<VectorIndex>,
                      moving: map<nat, seq<VectorIndex>>,
                      dests: seq<nat>, ps: seq<(nat, nat)>)
    requires Good(c, r, d, dv) && dv.meta.Some? && OnlyCopying(r) && Movable(r, from, moving)
    requires forall q :: q in dests <==> q in moving
    requires Ids(ps) == Ids(dv.meta.value.postings) + (set q | q in dests)
    requires r.live <= r.known
    ensures Good(c, r, d, Apply(dv, PutMeta(Meta(dv.meta.value.hash, ps))))
  {
    forall q | q in dests ensures q in r.known - r.planned {
      assert MayReceive(r, q);
    }
    ListingKeeps(c, r, d, dv, Meta(dv.meta.value.hash, ps));
  }

  lemma ListRecords(dv: DocVec, m: Meta, change: Delta)
    requires dv.meta.Some? && Relists(dv.meta.value.postings, m.postings, change)
    ensures RecordDelta(dv, Apply(dv, PutMeta(m)), change)
    ensures HeldSet(Apply(dv, PutMeta(m))) == HeldSet(dv)
  {
    forall p, u
      ensures Tally(m.postings, p, u) + Tally(change.removed, p, u)
           == Tally(dv.meta.value.postings, p, u) + Tally(change.added, p, u)
    {
    }
  }

  /** The meta of a copy, if it changes. */
  method WriteList(ix: Index, ghost from: set<VectorIndex>, d: Doc, moving: map<nat, seq<VectorIndex>>, dests: seq<nat>,
                   ps: seq<(nat, nat)>, change: Delta) returns (r: Outcome)
    requires ix.Safe() && OnlyCopying(ix.R()) && At(Now(ix.log), d).meta.Some?
    requires Movable(ix.R(), from, moving) && forall q :: q in dests <==> q in moving
    requires Relists(At(Now(ix.log), d).meta.value.postings, ps, change)
    requires Ids(ps) == Ids(At(Now(ix.log), d).meta.value.postings) + (set q | q in dests)
    modifies ix`budget, ix`log
    ensures ix.Safe() && !r.Corrupt? && Spent(old(ix.budget), ix.budget, r)
    ensures r.Fine? ==> OnlyDoc(Now(old(ix.log)), Now(ix.log), d)
    ensures var dv := At(Now(old(ix.log)), d);
            r.Fine? ==> At(Now(ix.log), d) == dv.(meta := Some(Meta(dv.meta.value.hash, ps)))
    ensures r.Fine? ==> RecordDelta(At(Now(old(ix.log)), d), At(Now(ix.log), d), change)
    ensures r.Fine? ==> HeldSet(At(Now(ix.log), d)) == HeldSet(At(Now(old(ix.log)), d))
  {
    hide PartsOk, PlanOk, Movable, Good, RecordDelta, Relists, HeldSet, OnlyCopying;
    var dv := At(Now(ix.log), d);
    var m := Meta(dv.meta.value.hash, ps);
    ListRecords(dv, m, change);
    if change == NO_CHANGE {
      NoChangeSameList(dv.meta.value.postings, ps);
      r := Fine;
    } else {
      assert Good(ix.C(), ix.R(), d, At(ix.log[|ix.log| - 1], d));
      ListIsAllowed(ix.C(), ix.R(), d, dv, from, moving, dests, ps);
      r := LogWrite(ix, d, PutMeta(m));
    }
  }

  lemma NoChangeSameList(ps: seq<(nat, nat)>, ps': seq<(nat, nat)>)
    requires Relists(ps, ps', NO_CHANGE)
    ensures ps' == ps
  {
  }

  /** A document after a copy: each destination holds the larger of what it held
      and what moved there, and is listed at its size; nothing else changed. */
  ghost predicate Gained(dv: DocVec, dv': DocVec, moving: map<nat, seq<VectorIndex>>) {
    && dv.meta.Some? && dv'.meta.Some? && dv'.meta.value.hash == dv.meta.value.hash && dv'.dense == dv.dense
    && Ids(dv'.meta.value.postings) == Ids(dv.meta.value.postings) + moving.Keys
    && (forall q :: q in moving ==>
          && q in dv'.keys && dv'.keys[q] == Merged(HeldAt(dv, q), moving[q])
          && (q, |dv'.keys[q]|) in dv'.meta.value.postings)
    && (forall p :: p !in moving ==> (p in dv'.keys <==> p in dv.keys) && HeldAt(dv', p) == HeldAt(dv, p))
  }

  lemma SameRecordDelta(dv: DocVec, listed: DocVec, dv': DocVec, change: Delta)
    requires RecordDelta(dv, listed, change) && forall p, u :: Counted(dv', p, u) == Counted(listed, p, u)
    ensures RecordDelta(dv, dv', change)
  {
  }

  lemma ListedAndCopied(dv: DocVec, listed: DocVec, dv': DocVec, moving: map<nat, seq<VectorIndex>>, dests: seq<nat>,
                        ps: seq<(nat, nat)>)
    requires dv.meta.Some? && listed == dv.(meta := Some(Meta(dv.meta.value.hash, ps)))
    requires (forall q :: q in dests <==> q in moving) && CopiedInto(listed, dv', moving, dests)
    requires Ids(ps) == Ids(dv.meta.value.postings) + (set q | q in dests)
    requires forall q :: q in dests ==> (q, |Merged(HeldAt(dv, q), moving[q])|) in ps
    ensures Gained(dv, dv', moving)
    ensures forall p, u :: Counted(dv', p, u) == Counted(listed, p, u)
  {
    hide Merged;
    assert (set q | q in dests) == moving.Keys;
    forall q
      ensures q in moving ==> q in dv'.keys && dv'.keys[q] == Merged(HeldAt(dv, q), moving[q])
      ensures q !in moving ==> (q in dv'.keys <==> q in dv.keys) && HeldAt(dv', q) == HeldAt(dv, q)
    {
      assert CopiedAt(listed, dv', moving, dests, q) && HeldAt(listed, q) == HeldAt(dv, q);
    }
  }

  /** `copy_into_batch`, for one document that has a meta: its chunks of `moving`
      are added at their destinations, the meta first. */
  method CopyInto(ix: Index, ghost from: set<VectorIndex>, d: Doc, moving: map<nat, seq<VectorIndex>>)
    returns (r: Outcome, delta: Delta)
    requires ix.Safe() && OnlyCopying(ix.R()) && At(Now(ix.log), d).meta.Some?
    requires Movable(ix.R(), from, moving) && from <= HeldSet(At(Now(ix.log), d))
    modifies ix`budget, ix`log
    ensures ix.Safe() && !r.Corrupt? && Spent(old(ix.budget), ix.budget, r)
    ensures r.Fine? ==> OnlyDoc(Now(old(ix.log)), Now(ix.log), d)
    ensures r.Fine? ==> RecordDelta(At(Now(old(ix.log)), d), At(Now(ix.log), d), delta)
    ensures r.Fine? ==> Gained(At(Now(old(ix.log)), d), At(Now(ix.log), d), moving)
  {
    hide PartsOk, PlanOk, RulesOf, AllGood, OnlyCopying, Movable, HeldSet, Held, Relists, Merged, CopiedInto, Gained,
         RecordDelta;
    delta := NO_CHANGE;
    var dv := At(Now(ix.log), d);
    var dests := Ascending(moving.Keys);
    AscendingAscends(moving.Keys);
    var ps, change := ListDestinations(dv, dv.meta.value.postings, moving, dests);
    :- WriteList(ix, from, d, moving, dests, ps, change);
    ghost var listed := At(Now(ix.log), d);
    :- CopyKeys(ix, from, d, moving, dests);
    ListedAndCopied(dv, listed, At(Now(ix.log), d), moving, dests, ps);
    SameRecordDelta(dv, listed, At(Now(ix.log), d), change);
    return Fine, change;
  }

  // ── What a pass over documents does ──

  /** The documents of `ds` changed by `rel`, the others not at all. */
  ghost predicate Only(rel: (DocVec, DocVec) -> bool, v: Vec, v': Vec, ds: set<Doc>) {
    forall d :: if d in ds then rel(At(v, d), At(v', d)) else At(v', d) == At(v, d)
  }

  lemma OnlyNone(rel: (DocVec, DocVec) -> bool, v: Vec, docs: seq<Doc>)
    ensures Only(rel, v, v, Elements(docs[..0]))
  {
  }

  /** One document more. */
  lemma OnlyOneMore(rel: (DocVec, DocVec) -> bool, v: Vec, v1: Vec, v2: Vec, docs: seq<Doc>, k: nat)
    requires k < |docs| && StrictlyUp(docs) && Only(rel, v, v1, Elements(docs[..k]))
    requires OnlyDoc(v1, v2, docs[k]) && rel(At(v1, docs[k]), At(v2, docs[k]))
    ensures Only(rel, v, v2, Elements(docs[..k + 1]))
  {
    assert docs[..k + 1] == docs[..k] + [docs[k]];
    forall d ensures if d in Elements(docs[..k + 1]) then rel(At(v, d), At(v2, d)) else At(v2, d) == At(v, d) {
      assert if d in Elements(docs[..k]) then rel(At(v, d), At(v1, d)) else At(v1, d) == At(v, d);
    }
  }

  lemma SlicesGoUp(docs: seq<Doc>, i: nat, j: nat)
    requires StrictlyUp(docs) && i <= j <= |docs|
    ensures StrictlyUp(docs[i..j])
  {
  }

  /** A batch more. */
  lemma OnlyMore(rel: (DocVec, DocVec) -> bool, v: Vec, v1: Vec, v2: Vec, docs: seq<Doc>, i: nat, j: nat)
    requires i <= j <= |docs| && StrictlyUp(docs)
    requires Only(rel, v, v1, Elements(docs[..i])) && Only(rel, v1, v2, Elements(docs[i..j]))
    ensures Only(rel, v, v2, Elements(docs[..j]))
  {
    assert docs[..j] == docs[..i] + docs[i..j];
    forall d ensures if d in Elements(docs[..j]) then rel(At(v, d), At(v2, d)) else At(v2, d) == At(v, d) {
      assert if d in Elements(docs[..i]) then rel(At(v, d), At(v1, d)) else At(v1, d) == At(v, d);
      assert if d in Elements(docs[i..j]) then rel(At(v1, d), At(v2, d)) else At(v2, d) == At(v1, d);
    }
  }

  // ── A drain's copy ──

  /** A rule that sends chunks only where they may go, and not back. */
  ghost predicate RuleOk(rule: G.DrainRule, r: Rules, drained: nat) {
    && (rule.NearestOf? ==> rule.postings != [])
    && forall q :: q in G.Targets(rule) ==> MayReceive(r, q) && q != drained
  }

  lemma RefiledIsMovable(s: G.Space, centres: map<nat, Point>, r: Rules, rule: G.DrainRule, drained: nat,
                         codes: seq<VectorIndex>, moving: map<nat, seq<VectorIndex>>)
    requires RuleOk(rule, r, drained)
    requires Groups(Refile(s, centres, rule, codes), moving)
    ensures Movable(r, Held(codes), moving) && drained !in moving
  {
    hide G.Destination, G.Targets, Groups, FiledUnder;
    var refiled := Refile(s, centres, rule, codes);
    GroupsMembers(refiled, moving);
    forall q | q in moving
      ensures MayReceive(r, q) && moving[q] != [] && q != drained
      ensures forall c :: c in moving[q] ==> c.clusterId == q && Bare(c) in Held(codes)
    {
      var c :| c in refiled && c.clusterId == q;
      var i :| 0 <= i < |refiled| && refiled[i] == c;
      G.DestinationIsATarget(s, centres, rule, codes[i]);
      forall c | c in moving[q] ensures c.clusterId == q && Bare(c) in Held(codes) {
        var i :| 0 <= i < |refiled| && refiled[i] == c;
        assert codes[i] in codes && Bare(codes[i]) == Bare(c);
      }
    }
  }

  /** A drain's rule against the snapshot it was built from, and the posting it
      drains. */
  datatype Placing = Placing(space: G.Space, centres: map<nat, Point>, rule: G.DrainRule, drained: nat) {
    function Dest(c: VectorIndex): nat
      requires rule.NearestOf? ==> rule.postings != []
    {
      G.Destination(space, centres, rule, c)
    }
  }

  ghost predicate PlacingOk(ix: Index, pl: Placing)
    reads ix
  {
    RuleOk(pl.rule, ix.R(), pl.drained)
  }

  /** Every chunk still under the drained posting is also where the rule sends it. */
  ghost predicate Placed(pl: Placing, dv: DocVec)
  {
    pl.drained in dv.keys ==> RuleHasTargets(pl) && forall c :: c in dv.keys[pl.drained] ==>
      Bare(c) in Held(HeldAt(dv, pl.Dest(c)))
  }

  ghost predicate RuleHasTargets(pl: Placing) {
    pl.rule.NearestOf? ==> pl.rule.postings != []
  }

  lemma PlacedIsCovered(pl: Placing, r: Rules, dv: DocVec)
    requires RuleOk(pl.rule, r, pl.drained) && Placed(pl, dv)
    ensures Covered(pl.drained, dv)
  {
    if pl.drained in dv.keys {
      forall b | b in Held(dv.keys[pl.drained])
        ensures exists q :: q in dv.keys && q != pl.drained && b in Held(dv.keys[q])
      {
        var c :| c in dv.keys[pl.drained] && Bare(c) == b;
        G.DestinationIsATarget(pl.space, pl.centres, pl.rule, c);
        assert pl.Dest(c) in dv.keys && b in Held(dv.keys[pl.Dest(c)]);
      }
    }
  }

  /** Once the document has gained what its drained key was to give, that key's
      chunks are placed. */
  lemma GainedIsPlaced(pl: Placing, r: Rules, dv: DocVec, dv': DocVec, moving: map<nat, seq<VectorIndex>>)
    requires RuleOk(pl.rule, r, pl.drained) && pl.drained in dv.keys
    requires Groups(Refile(pl.space, pl.centres, pl.rule, dv.keys[pl.drained]), moving)
    requires pl.drained !in moving && Gained(dv, dv', moving)
    ensures Placed(pl, dv')
  {
    hide G.Destination, Groups, FiledUnder, Merged;
    var codes := dv.keys[pl.drained];
    var refiled := Refile(pl.space, pl.centres, pl.rule, codes);
    GroupsMembers(refiled, moving);
    assert dv'.keys[pl.drained] == HeldAt(dv', pl.drained) == codes;
    forall c | c in codes ensures Bare(c) in Held(HeldAt(dv', pl.Dest(c))) {
      var i :| 0 <= i < |codes| && codes[i] == c;
      var q := pl.Dest(c);
      assert refiled[i] in refiled && refiled[i].clusterId == q && Bare(refiled[i]) == Bare(c);
      MergedHolds(HeldAt(dv, q), moving[q]);
      assert Bare(c) in Held(moving[q]);
    }
  }

  /** A document after its drained key is copied out: each destination holds the
      larger of what it held and what the rule sends there. */
  ghost predicate CopiedOut(pl: Placing, dv: DocVec, dv': DocVec) {
    if pl.drained in dv.keys then
      && RuleHasTargets(pl)
      && exists moving :: SentOut(pl, dv.keys[pl.drained], moving) && Gained(dv, dv', moving)
    else dv' == dv
  }

  ghost predicate SentOut(pl: Placing, codes: seq<VectorIndex>, moving: map<nat, seq<VectorIndex>>)
    requires RuleHasTargets(pl)
  {
    Groups(Refile(pl.space, pl.centres, pl.rule, codes), moving)
  }

  ghost function Copies(pl: Placing): (DocVec, DocVec) -> bool {
    (dv, dv') => CopiedOut(pl, dv, dv')
  }

  /** A document without a meta has no keys. */
  lemma NothingToPlace(ix: Index, pl: Placing, d: Doc)
    requires ix.Safe() && PlacingOk(ix, pl) && (pl.drained !in At(Now(ix.log), d).keys || At(Now(ix.log), d).meta.None?)
    ensures Placed(pl, At(Now(ix.log), d)) && CopiedOut(pl, At(Now(ix.log), d), At(Now(ix.log), d))
    ensures RecordDelta(At(Now(ix.log), d), At(Now(ix.log), d), NO_CHANGE)
  {
    var dv := At(Now(ix.log), d);
    assert Good(ix.C(), ix.R(), d, At(ix.log[|ix.log| - 1], d));
    assert Keyed(ix.R(), dv);
  }

  lemma UnderIsHeld(dv: DocVec, p: nat)
    requires p in dv.keys
    ensures Held(dv.keys[p]) <= HeldSet(dv)
  {
  }

  /** One document of a drain's copy, under its lock. */
  method CopyDoc(ix: Index, pl: Placing, d: Doc) returns (r: Outcome, delta: Delta)
    requires ix.Safe() && OnlyCopying(ix.R()) && PlacingOk(ix, pl)
    modifies ix`budget, ix`log
    ensures ix.Safe() && !r.Corrupt? && Spent(old(ix.budget), ix.budget, r)
    ensures r.Fine? ==> OnlyDoc(Now(old(ix.log)), Now(ix.log), d) && Placed(pl, At(Now(ix.log), d))
    ensures r.Fine? ==> CopiedOut(pl, At(Now(old(ix.log)), d), At(Now(ix.log), d))
    ensures r.Fine? ==> RecordDelta(At(Now(old(ix.log)), d), At(Now(ix.log), d), delta)
  {
    hide PartsOk, PlanOk, RulesOf, AllGood, Movable, Groups, Placed, Held, HeldSet, RecordDelta, OnlyCopying, Gained;
    delta := NO_CHANGE;
    var dv := At(Now(ix.log), d);
    if pl.drained !in dv.keys || dv.meta.None? {
      // Already moved on, or being deleted.
      NothingToPlace(ix, pl, d);
      return Fine, delta;
    }
    var moving := Group(Refile(pl.space, pl.centres, pl.rule, dv.keys[pl.drained]));
    RefiledIsMovable(pl.space, pl.centres, ix.R(), pl.rule, pl.drained, dv.keys[pl.drained], moving);
    UnderIsHeld(dv, pl.drained);
    delta :- CopyInto(ix, Held(dv.keys[pl.drained]), d, moving);
    GainedIsPlaced(pl, ix.R(), dv, At(Now(ix.log), d), moving);
    assert SentOut(pl, dv.keys[pl.drained], moving);
    return Fine, delta;
  }

  // ── Batches ──

  /** A batch, under its documents' locks, synced before they are released. */
  method CopyBatch(ix: Index, pl: Placing, batch: seq<Doc>) returns (r: Outcome)
    requires ix.Safe() && OnlyCopying(ix.R()) && PlacingOk(ix, pl)
    requires Agrees(ix.counts, Now(ix.log)) && StrictlyUp(batch)
    modifies ix`budget, ix`log, ix`counts
    ensures ix.Safe() && !r.Corrupt? && Spent(old(ix.budget), ix.budget, r)
    ensures r.Fine? ==> |ix.log| == 1 && Agrees(ix.counts, Now(ix.log))
    ensures r.Fine? ==> Only(Copies(pl), Now(old(ix.log)), Now(ix.log), Elements(batch))
    ensures r.Fine? ==> forall d :: d in batch ==> Placed(pl, At(Now(ix.log), d))
  {
    hide PartsOk, PlanOk, RulesOf, AllGood, RuleOk, Placed, Agrees, Accounts, RecordDelta, CopiedOut, Only, StrictlyUp;
    ghost var was := Now(ix.log);
    var delta := NO_CHANGE;
    NothingAccounts(was);
    OnlyNone(Copies(pl), was, batch);
    for k := 0 to |batch|
      invariant Spent(old(ix.budget), ix.budget, Fine)
      invariant ix.Safe() && Accounts(was, Now(ix.log), delta) && ix.counts == old(ix.counts)
      invariant Only(Copies(pl), was, Now(ix.log), Elements(batch[..k]))
      invariant forall d :: d in batch[..k] ==> Placed(pl, At(Now(ix.log), d))
    {
      ghost var before := Now(ix.log);
      var change :- CopyDoc(ix, pl, batch[k]);
      RecordAccounts(before, Now(ix.log), batch[k], change);
      AccountsCompose(was, before, Now(ix.log), delta, change);
      delta := Extend(delta, change);
      OnlyOneMore(Copies(pl), was, before, Now(ix.log), batch, k);
      assert batch[..k + 1] == batch[..k] + [batch[k]];
    }
    assert batch[..|batch|] == batch;
    :- ix.SyncLog();
    ApplyKeepsAgreement(ix.counts, was, Now(ix.log), delta);
    ix.counts := ApplyDelta(ix.counts, delta);
    return Fine;
  }

  lemma NothingAccounts(v: Vec)
    ensures Accounts(v, v, NO_CHANGE)
  {
  }

  /** Every chunk under the drained posting is placed, but perhaps in documents of
      `rest`. */
  ghost predicate PlacedBut(log: Log, pl: Placing, rest: set<Doc>)
  {
    forall i, d :: 0 <= i < |log| && d !in rest ==> Placed(pl, At(log[i], d))
  }

  lemma OthersKeepPlaced(routed: set<nat>, log: Log, log': Log, pl: Placing, rest: set<Doc>)
    requires Interfered(routed, log, log') && pl.drained !in routed
    requires PlacedBut(log, pl, rest)
    ensures PlacedBut(log', pl, rest)
  {
    forall i, d | 0 <= i < |log'| && d !in rest ensures Placed(pl, At(log'[i], d)) {
      assert FromOld(log, d, At(log'[i], d)) || At(log'[i], d).keys.Keys <= routed;
    }
  }

  lemma BatchPlaces(log: Log, log': Log, pl: Placing, rest: set<Doc>, batch: seq<Doc>)
    requires PlacedBut(log, pl, rest) && |log'| == 1
    requires Only(Copies(pl), Now(log), Now(log'), Elements(batch))
    requires forall d :: d in batch ==> Placed(pl, At(Now(log'), d))
    ensures PlacedBut(log', pl, rest - (set d | d in batch))
  {
    forall i, d | 0 <= i < |log'| && d !in rest - (set d | d in batch) ensures Placed(pl, At(log'[i], d)) {
      if d !in batch {
        assert Placed(pl, At(log[|log| - 1], d));
      }
    }
  }

  lemma NotUnder(log: Log, p: nat)
    requires Settled(log) || |log| == 1
    ensures forall i, d :: 0 <= i < |log| && d !in DocsUnder(Now(log), p) ==> p !in At(log[i], d).keys
  {
    forall i, d | 0 <= i < |log| && d !in DocsUnder(Now(log), p) ensures p !in At(log[i], d).keys {
      if Settled(log) {
        assert SettledDoc(At(log[i], d), At(Now(log), d));
      }
    }
  }

  lemma AloneIsSettled(c: Claims, r: Rules, log: Log)
    requires AllGood(c, r, log) && |log| == 1
    requires forall p :: p in r.loose ==> NoKeys(log, p)
    ensures Settled(log)
  {
    forall i, d | 0 <= i < |log| ensures SettledDoc(At(log[i], d), At(Now(log), d)) {
      assert Good(c, r, d, At(log[i], d));
      forall p | p in At(log[i], d).keys ensures p in Lists(At(log[i], d).meta) {
        assert KeyOk(r, At(log[i], d).meta, p, At(log[i], d).keys[p]);
      }
    }
  }

  /** After a batch nothing is half done. */
  lemma QuietAfterBatch(ix: Index)
    requires ix.Safe() && Agrees(ix.counts, Now(ix.log)) && |ix.log| == 1 && (ix.needsRecovery || ix.SnapOk())
    requires forall p :: p in ix.R().loose ==> NoKeys(ix.log, p)
    ensures ix.Quiet()
  {
    AloneIsSettled(ix.C(), ix.R(), ix.log);
  }

  function RestOf(docs: seq<Doc>, i: nat): set<Doc>
    requires i <= |docs|
  {
    set d | d in docs[i..]
  }

  lemma StartPlaced(log: Log, pl: Placing, docs: seq<Doc>)
    requires (Settled(log) || |log| == 1)
    requires forall d :: d in docs <==> d in DocsUnder(Now(log), pl.drained)
    ensures PlacedBut(log, pl, RestOf(docs, 0))
  {
    NotUnder(log, pl.drained);
    assert docs[0..] == docs;
  }

  lemma RestSplits(docs: seq<Doc>, i: nat, j: nat)
    requires i <= j <= |docs|
    ensures RestOf(docs, i) - (set d | d in docs[i..j]) <= RestOf(docs, j)
  {
    assert docs[i..] == docs[i..j] + docs[j..];
  }

  /** Every chunk still under the drained posting is where the rule sends it, in
      every state a crash may leave. */
  ghost predicate AllPlaced(log: Log, pl: Placing)
  {
    forall i, d :: 0 <= i < |log| ==> Placed(pl, At(log[i], d))
  }

  lemma AllArePlaced(log: Log, pl: Placing, r: Rules)
    requires RuleOk(pl.rule, r, pl.drained) && PlacedBut(log, pl, {})
    ensures AllPlaced(log, pl) && AllCovered(log, pl.drained)
  {
    var none: set<Doc> := {};
    forall i, d | 0 <= i < |log| ensures Placed(pl, At(log[i], d)) && Covered(pl.drained, At(log[i], d)) {
      assert PlacedBut(log, pl, none) && d !in none;
      PlacedIsCovered(pl, r, At(log[i], d));
    }
  }

  lemma PlacedButFewer(log: Log, pl: Placing, rest: set<Doc>, more: set<Doc>)
    requires PlacedBut(log, pl, rest) && rest <= more
    ensures PlacedBut(log, pl, more)
  {
  }

  /** Others' turn, then one batch. */
  method CopyTurn(ix: Index, pl: Placing, batch: seq<Doc>, ghost rest: set<Doc>, ghost past: Past) returns (r: Outcome)
    requires ix.Quiet() && OnlyCopying(ix.R()) && PlacingOk(ix, pl)
    requires StrictlyUp(batch)
    requires pl.drained !in ix.Routed() && PlacedBut(ix.log, pl, rest) && Since(past, PastOf(ix), Fine)
    modifies ix`docs, ix`queue, ix`lost, ix`log, ix`counts, ix`budget, ix`kept, ix`requests
    ensures ix.Safe() && !r.Corrupt? && Spent(old(ix.budget), ix.budget, r) && Since(past, PastOf(ix), r)
    ensures r.Fine? && old(ix.Alone()) ==> Only(Copies(pl), Now(old(ix.log)), Now(ix.log), Elements(batch))
    ensures r.Fine? ==> ix.Quiet() && PlacedBut(ix.log, pl, rest - (set d | d in batch))
  {
    hide PartsOk, PlanOk, RulesOf, AllGood, Placed, PlacedBut, Agrees, Settled, Only, Since, Interfered, Index.Sound,
         Index.SnapOk, Index.Routed;
    ghost var log0, past0 := ix.log, PastOf(ix);
    r := ix.Yield();
    SinceYield(past0, ix, r);
    SinceCompose(past, past0, PastOf(ix), r);
    if r.Fine? {
      OthersKeepPlaced(ix.Routed(), log0, ix.log, pl, rest);
      ghost var log1 := ix.log;
      :- CopyBatch(ix, pl, batch);
      BatchPlaces(log1, ix.log, pl, rest, batch);
      QuietAfterBatch(ix);
    }
  }

  /** A document with nothing under the drained posting has nothing to copy. */
  lemma AllCopiedOut(pl: Placing, v: Vec, v': Vec, docs: seq<Doc>)
    requires Only(Copies(pl), v, v', Elements(docs[..|docs|])) && forall d :: d in docs <==>
             d in DocsUnder(v, pl.drained)
    ensures forall d :: CopiedOut(pl, At(v, d), At(v', d))
  {
    assert docs[..|docs|] == docs;
    forall d ensures CopiedOut(pl, At(v, d), At(v', d)) {
      assert if d in Elements(docs) then Copies(pl)(At(v, d), At(v', d)) else At(v', d) == At(v, d);
    }
  }

  /** Copy each document's chunks from the drained posting to where `rule` sends
      them. Others may run before each batch: an upsert or a delete may move a
      document on first. */
  method DrainCopy(ix: Index, pl: Placing) returns (r: Outcome)
    requires ix.Quiet() && OnlyCopying(ix.R()) && PlacingOk(ix, pl)
    requires pl.drained !in ix.Routed()
    modifies ix`docs, ix`queue, ix`lost, ix`log, ix`counts, ix`budget, ix`kept, ix`requests
    ensures ix.Safe() && !r.Corrupt? && Spent(old(ix.budget), ix.budget, r) && Since(old(PastOf(ix)), PastOf(ix), r)
    ensures r.Fine? && old(ix.Alone()) ==> forall d :: CopiedOut(pl, At(Now(old(ix.log)), d), At(Now(ix.log), d))
    ensures r.Fine? ==> ix.Quiet() && AllPlaced(ix.log, pl) && AllCovered(ix.log, pl.drained)
  {
    hide PartsOk, PlanOk, RulesOf, AllGood, Placed, Agrees, Settled, Since, Only, StrictlyUp, CopiedOut, PlacedBut,
         AllPlaced, AllCovered, RuleOk, OnlyCopying, Index.Sound, Index.SnapOk, Index.Routed;
    var docs := Ascending(DocsUnder(Now(ix.log), pl.drained));
    AscendingAscends(DocsUnder(Now(ix.log), pl.drained));
    ghost var past, was := PastOf(ix), Now(ix.log);
    SinceNow(past);
    OnlyNone(Copies(pl), was, docs);
    StartPlaced(ix.log, pl, docs);
    var i := 0;
    while i < |docs|
      invariant Spent(old(ix.budget), ix.budget, Fine)
      invariant i <= |docs| && ix.Quiet() && Since(past, PastOf(ix), Fine)
      invariant PlacedBut(ix.log, pl, RestOf(docs, i))
      invariant old(ix.Alone()) ==> ix.Alone() && Only(Copies(pl), was, Now(ix.log), Elements(docs[..i]))
    {
      var j := Min(i + BATCH_DOCS, |docs|);
      ghost var before := Now(ix.log);
      SlicesGoUp(docs, i, j);
      r := CopyTurn(ix, pl, docs[i..j], RestOf(docs, i), past);
      if !r.Fine? {
        return;
      }
      RestSplits(docs, i, j);
      if old(ix.Alone()) {
        StaysAlone(past, ix);
        OnlyMore(Copies(pl), was, before, Now(ix.log), docs, i, j);
      }
      PlacedButFewer(ix.log, pl, RestOf(docs, i) - (set d | d in docs[i..j]), RestOf(docs, j));
      i := j;
    }
    assert RestOf(docs, |docs|) == {};
    AllArePlaced(ix.log, pl, ix.R());
    if old(ix.Alone()) {
      AllCopiedOut(pl, was, Now(ix.log), docs);
    }
    return Fine;
  }
}
