/** What moving chunks is for: when every chunk is under a posting none is nearer
    than, a split or a merge leaves none in reach behind (LIRE). Stated by distances
    alone, and by how far the code's error lets a comparison be off. */
module Lire {
  import opened Codes
  import opened Vectors
  import opened Counts
  import opened Partition
  import opened Neighbours
  import opened Marks
  import opened Store
  import opened Copying
  import opened Draining
  import opened Effects
  import opened Reassigning
  import opened Protocol
  import opened Maintenance
  import G = Geometry

  /** Whether `a` is nearer to `x` than `c` is; with the gate, by more than the code's
      error lets that comparison be off. */
  predicate Beats(space: G.Space, x: Point, code: VectorIndex, gate: bool, a: Point, c: Point) {
    var lead := space.dist(x, c) - space.dist(x, a);
    lead > 0.0 && (gate ==> lead > space.slack(Bare(code), a, c))
  }

  /** The one of `ids` that comes before all the others around `x`. */
  ghost predicate NearestAmong(space: G.Space, s: Snapshot, ids: set<nat>, x: Point, n: nat)
    requires ids <= Routable(s)
  {
    n in ids && forall q :: q in ids && q != n ==> Closer(s, space, x, n, q)
  }

  /** An active posting none is nearer to `x` than. */
  ghost predicate Nearest(space: G.Space, s: Snapshot, x: Point, p: nat) {
    p in Routable(s) && forall q :: q in Routable(s) ==> space.dist(x, CentreOf(s, p)) <= space.dist(x, CentreOf(s, q))
  }

  lemma NearestIsNearest(space: G.Space, s: Snapshot, ids: set<nat>, cs: seq<(nat, Point)>, x: Point) returns (n: nat)
    requires Listing(s, ids, cs) && ids != {}
    ensures NearestAmong(space, s, ids, x, n) && HasCentre(s, n)
    ensures G.Nearest(space, x, cs) == Some((n, CentreOf(s, n)))
  {
    hide Routable;
    RoutableHasCentre(s);
    var some :| some in ids;
    assert exists k :: 0 <= k < |cs| && cs[k] == (some, CentreOf(s, some));
    var k := G.NearestIsFirstLeast(space, x, cs);
    assert cs[k] in cs;
    n := cs[k].0;
    forall q | q in ids && q != n ensures Closer(s, space, x, n, q) {
      var j :| 0 <= j < |cs| && cs[j] == (q, CentreOf(s, q));
      assert j > k ==> cs[k].0 < cs[j].0;
    }
  }

  lemma NearestIsOne(space: G.Space, s: Snapshot, ids: set<nat>, x: Point, n: nat, n': nat)
    requires ids <= Routable(s) && NearestAmong(space, s, ids, x, n) && NearestAmong(space, s, ids, x, n')
    ensures n == n'
  {
    if n != n' {
      CloserOneWay(s, space, x, n, n');
    }
  }

  // ── Reassignment ──

  /** The half a chunk is nearer to, the first on a tie. */
  function NearerHalf(space: G.Space, s: Snapshot, x: Point, children: (nat, nat)): nat
    requires HasCentre(s, children.0) && HasCentre(s, children.1)
  {
    if space.dist(x, CentreOf(s, children.1)) < space.dist(x, CentreOf(s, children.0)) then children.1 else children.0
  }

  /** Exactly which chunks a reassignment moves, and where. A source is one of its
      scope that is active. A chunk in a half moves if the old centre beats the
      half's; elsewhere, if the nearer half beats both the old centre and its own;
      and then only to its nearest active posting, if that beats its own. One that
      cannot be reconstructed stays. */
  lemma MovesIff(space: G.Space, s: Snapshot, gate: bool, op: Op, m: Moves, k: nat, chunk: VectorIndex,
                 x: Option<Point>, n: nat)
    requires op.Reassign? && MovesOf(s, space, gate, op) == Some(m) && k < |m.sources|
    requires x == G.Reconstruct(space, s.centres, Bare(chunk))
    requires x.Some? ==> NearestAmong(space, s, Routable(s), x.value, n)
    ensures m.sources[k].0 in op.scope && m.sources[k].0 in Routable(s)
    ensures x.None? ==> m.To(k, chunk).None?
    ensures x.Some? ==>
              var (p, parent) := (m.sources[k].0, s.centres[op.parentCentre]);
              var half := NearerHalf(space, s, x.value, op.children);
              var own := CentreOf(s, p);
              var candidate :=
                if p == op.children.0 || p == op.children.1 then Beats(space, x.value, chunk, gate, parent, own)
                else Beats(space, x.value, chunk, gate, CentreOf(s, half), parent)
                     && Beats(space, x.value, chunk, gate, CentreOf(s, half), own);
              m.To(k, chunk) ==
              if candidate && n != p && Beats(space, x.value, chunk, gate, CentreOf(s, n), own) then Some(n) else None
  {
    hide ActiveCentres, NearestAmong, Routable, G.Nearest;
    assert m.sources[k] in m.sources;
    if x.Some? {
      ActiveAreListed(s);
      SomeActive(s, m.sources[k].0);
      var n' := NearestIsNearest(space, s, Routable(s), ActiveCentres(s), x.value);
      NearestIsOne(space, s, Routable(s), x.value, n, n');
    }
  }

  lemma SomeActive(s: Snapshot, p: nat)
    requires p in Routable(s)
    ensures Routable(s) != {}
  {
  }

  /** Where a chunk was filed before a split, none was nearer: now it is in the nearer
      half, and no other posting is nearer than the old centre; or it is elsewhere,
      under a posting no farther than the old centre and the others. */
  ghost predicate WasNearest(space: G.Space, s: Snapshot, op: Op, x: Point, p: nat)
    requires op.Reassign? && op.parentCentre in s.centres && HasCentre(s, op.children.0) && HasCentre(s, op.children.1)
    requires HasCentre(s, p)
  {
    var (parent, halves) := (s.centres[op.parentCentre], {op.children.0, op.children.1});
    var before := if p in halves then parent else CentreOf(s, p);
    && (p in halves ==> p == NearerHalf(space, s, x, op.children))
    && (p !in halves ==> space.dist(x, before) <= space.dist(x, parent))
    && forall q :: q in Routable(s) - halves ==> space.dist(x, before) <= space.dist(x, CentreOf(s, q))
  }

  /** LIRE leaves none behind: with the gate off, a chunk of a source that was filed
      under the nearest before the split, and that the reassignment lets stay, is
      under an active posting none is nearer than. */
  lemma NoneLeftBehind(space: G.Space, s: Snapshot, op: Op, m: Moves, k: nat, chunk: VectorIndex, x: Point)
    requires op.Reassign? && MovesOf(s, space, false, op) == Some(m) && k < |m.sources|
    requires G.Reconstruct(space, s.centres, Bare(chunk)) == Some(x) && m.To(k, chunk).None?
    requires HasCentre(s, m.sources[k].0) && WasNearest(space, s, op, x, m.sources[k].0)
    ensures Nearest(space, s, x, m.sources[k].0)
  {
    hide ActiveCentres, MovesOf, G.Decide;
    var p := m.sources[k].0;
    MovesOfKnows(space, s, false, op, m);
    RoutableHasCentre(s);
    assert m.sources[k] in m.sources;
    ActiveAreListed(s);
    SourceIsActive(space, s, false, op, m, k);
    var n := NearestIsNearest(space, s, Routable(s), ActiveCentres(s), x);
    MovesIff(space, s, false, op, m, k, chunk, Some(x), n);
    forall q | q in Routable(s) ensures space.dist(x, CentreOf(s, p)) <= space.dist(x, CentreOf(s, q)) {
      assert q != n ==> Closer(s, space, x, n, q);
    }
  }

  lemma MovesOfKnows(space: G.Space, s: Snapshot, gate: bool, op: Op, m: Moves)
    requires op.Reassign? && MovesOf(s, space, gate, op) == Some(m)
    ensures op.parentCentre in s.centres && HasCentre(s, op.children.0) && HasCentre(s, op.children.1)
    ensures m.space == space && m.centres == s.centres && m.rule.active == ActiveCentres(s)
    ensures m.sources == Sources(s, op.scope)
  {
  }

  lemma SourceIsActive(space: G.Space, s: Snapshot, gate: bool, op: Op, m: Moves, k: nat)
    requires op.Reassign? && MovesOf(s, space, gate, op) == Some(m) && k < |m.sources|
    ensures m.sources[k].0 in Routable(s) && m.sources[k].0 in op.scope && Routable(s) != {}
  {
    assert m.sources[k] in m.sources;
  }

  /** So after the reassignment every chunk under a source is under an active posting
      none is nearer than, if it was filed so before the split or has just moved there. */
  lemma RehomedLeavesNoneBehind(space: G.Space, s: Snapshot, op: Op, m: Moves, dv: DocVec, dv': DocVec,
                                b: VectorIndex, x: Point, p: nat)
    requires op.Reassign? && MovesOf(s, space, false, op) == Some(m) && Rehomed(m, dv, dv')
    requires G.Reconstruct(space, s.centres, Bare(b)) == Some(x)
    requires p in op.scope && p in Routable(s) && Count(HeldAt(dv', p), b) > 0
    requires op.parentCentre in s.centres && HasCentre(s, op.children.0) && HasCentre(s, op.children.1)
    requires Count(HeldAt(dv, p), b) > 0 ==> WasNearest(space, s, op, x, p)
    ensures Nearest(space, s, x, p)
  {
    hide ActiveCentres, G.Decide, G.Nearest, WasNearest, MovesOf, Routable;
    MovesOfKnows(space, s, false, op, m);
    RoutableHasCentre(s);
    ActiveAreListed(s);
    var n := NearestIsNearest(space, s, Routable(s), ActiveCentres(s), x);
    if p == n {
      forall q | q in Routable(s) ensures space.dist(x, CentreOf(s, p)) <= space.dist(x, CentreOf(s, q)) {
        assert q != n ==> Closer(s, space, x, n, q);
      }
    } else {
      assert Count(HeldAt(dv', p), b) == RehomedCount(m, dv, p, b);
      var k := SourcesAreActive(s, op.scope, p);
      assert m.sources[k].0 == p;
      NoneLeftBehind(space, s, op, m, k, b, x);
    }
  }

  // ── A split ──

  /** Every posting's centre is known, as a snapshot's always are. */
  ghost predicate CentresKnown(s: Snapshot) {
    forall p :: p in s.postings ==> HasCentre(s, p)
  }

  /** What a split leaves of the partition: two new active halves, under ids and
      centres never used, each with its centre to route by; the posting retired,
      without one; everything else as it was. */
  lemma SplitParts(ix: Index, a: Found, b: Found, p: nat, cs: (Point, Point))
    requires SplitMade(ix, a, b, p, cs)
    ensures var ((k0, k1), (c0, c1)) := (SplitOf(a.snap, p).children, SplitOf(a.snap, p).centres);
            && (forall q :: q in a.snap.postings ==> q < k0 < k1) && (forall c :: c in a.snap.centres ==> c < c0 < c1)
            && b.snap.postings.Keys == a.snap.postings.Keys + {k0, k1}
            && b.snap.postings[k0] == Posting(cs.0, c0, Active, Some(p), Half)
            && b.snap.postings[k1] == Posting(cs.1, c1, Active, Some(p), Half)
            && b.snap.postings[p] == a.snap.postings[p].(state := Retired, routing := [])
            && (forall q :: q in a.snap.postings && q != p ==> b.snap.postings[q] == a.snap.postings[q])
            && b.snap.centres == a.snap.centres[c0 := cs.0][c1 := cs.1]
  {
    hide SplitEffect;
    var (k0, k1) := SplitOf(a.snap, p).children;
    assert forall q :: q in a.snap.postings ==> q in a.snap.postings.Keys;
    assert forall c :: c in a.snap.centres ==> c in a.snap.centres.Keys;
    var halved := Halved(a.snap.postings, SplitOf(a.snap, p), cs);
    assert p in halved && halved[p] == a.snap.postings[p];
  }

  /** Writers route where they did, but to two new halves instead of the posting; and
      every centre is what it was. */
  ghost predicate RoutedToHalves(s: Snapshot, s': Snapshot, p: nat, ks: (nat, nat), cs: (Point, Point)) {
    && ks.0 != ks.1 && ks.0 !in s.postings && ks.1 !in s.postings
    && HasCentre(s', ks.0) && CentreOf(s', ks.0) == cs.0
    && HasCentre(s', ks.1) && CentreOf(s', ks.1) == cs.1
    && HasCentre(s, p) && HasCentre(s', p) && CentreOf(s', p) == CentreOf(s, p)
    && Routable(s') == Routable(s) - {p} + {ks.0, ks.1}
    && (forall q :: q in Routable(s) && q != p ==> HasCentre(s', q) && CentreOf(s', q) == CentreOf(s, q))
    && (forall c :: c in s.centres ==> c in s'.centres && s'.centres[c] == s.centres[c])
  }

  lemma SplitRoutes(ix: Index, a: Found, b: Found, p: nat, cs: (Point, Point))
    requires SplitMade(ix, a, b, p, cs) && p in a.snap.postings && CentresKnown(a.snap)
    ensures RoutedToHalves(a.snap, b.snap, p, SplitOf(a.snap, p).children, cs)
    ensures b.snap.centres == Centred(a.snap.centres, SplitOf(a.snap, p), cs)
  {
    hide SplitEffect, SplitOf, SplitMade, Retiring, Halved;
    SplitParts(ix, a, b, p, cs);
    SplitSnap(ix, a, b, p, cs);
    SplitNames(a.snap, p);
    PartsRoute(a.snap, b.snap, p, SplitOf(a.snap, p).children, SplitOf(a.snap, p).centres, cs);
  }

  lemma PartsRoute(s: Snapshot, s': Snapshot, p: nat, ks: (nat, nat), ids: (nat, nat), cs: (Point, Point))
    requires IsActive(s.postings, p) && CentresKnown(s)
    requires (forall q :: q in s.postings ==> q < ks.0 < ks.1) && (forall c :: c in s.centres ==> c < ids.0 < ids.1)
    requires s'.postings.Keys == s.postings.Keys + {ks.0, ks.1}
    requires s'.postings[ks.0] == Posting(cs.0, ids.0, Active, Some(p), Half)
    requires s'.postings[ks.1] == Posting(cs.1, ids.1, Active, Some(p), Half)
    requires s'.postings[p] == s.postings[p].(state := Retired, routing := [])
    requires forall q :: q in s.postings && q != p ==> s'.postings[q] == s.postings[q]
    requires s'.centres == s.centres[ids.0 := cs.0][ids.1 := cs.1]
    ensures RoutedToHalves(s, s', p, ks, cs)
  {
    assert HasCentre(s, p);
    forall q ensures q in Routable(s') <==> q in Routable(s) - {p} + {ks.0, ks.1} {
      assert q in s'.postings <==> q in s.postings || q == ks.0 || q == ks.1;
    }
    forall q | q in Routable(s) && q != p ensures HasCentre(s', q) && CentreOf(s', q) == CentreOf(s, q) {
    }
  }

  lemma SplitSnap(ix: Index, a: Found, b: Found, p: nat, cs: (Point, Point))
    requires SplitMade(ix, a, b, p, cs)
    ensures IsActive(a.snap.postings, p)
    ensures b.snap.centres == Centred(a.snap.centres, SplitOf(a.snap, p), cs)
  {
    hide SplitEffect;
  }

  /** Drained into the halves, a chunk filed under the nearest is still filed so. */
  lemma DrainedWasNearest(ix: Index, a: Found, b: Found, p: nat, cs: (Point, Point), op: Op, dv: DocVec, mid: DocVec,
                          c: VectorIndex, x: Point, q: nat)
    requires SplitMade(ix, a, b, p, cs) && p in a.snap.postings && CentresKnown(a.snap)
    requires Drained(HalvesPlacing(ix.space, a.snap, p, cs), dv, mid)
    requires op.Reassign? && op.parentCentre == a.snap.postings[p].centreId
             && op.children == SplitOf(a.snap, p).children
    requires op.parentCentre in b.snap.centres && HasCentre(b.snap, op.children.0) && HasCentre(b.snap, op.children.1)
    requires HasCentre(b.snap, q)
    requires G.Reconstruct(ix.space, b.snap.centres, Bare(c)) == Some(x)
    requires forall o :: Count(HeldAt(dv, o), c) > 0 ==> Nearest(ix.space, a.snap, x, o)
    requires Count(HeldAt(mid, q), c) > 0
    ensures WasNearest(ix.space, b.snap, op, x, q)
  {
    hide SplitMade, SplitOf, Routable, G.Destination, Drained;
    SplitRoutes(ix, a, b, p, cs);
    RoutableHasCentre(a.snap);
    SplitNames(a.snap, p);
    var (k0, k1) := SplitOf(a.snap, p).children;
    var pl := HalvesPlacing(ix.space, a.snap, p, cs);
    assert Count(HeldAt(mid, q), c) == DrainedCount(pl, dv, q, c) by {
      DrainedCounts(pl, dv, mid, q, c);
    }
    NotUnderNew(ix.space, a.snap, dv, c, x, k0);
    NotUnderNew(ix.space, a.snap, dv, c, x, k1);
    if q == k0 || q == k1 {
      assert pl.Dest(c) == q && Count(HeldAt(dv, p), c) > 0;
      HalfIsNearer(ix.space, b.snap.centres, pl, (k0, k1), cs, c, x);
      assert Nearest(ix.space, a.snap, x, p);
    } else {
      HalvesOnly(pl, (k0, k1), cs, c);
      assert Count(HeldAt(dv, q), c) > 0 && Nearest(ix.space, a.snap, x, q);
      SplitSnap(ix, a, b, p, cs);
      NearestIsHere(ix, a, p);
    }
  }

  lemma DrainedCounts(pl: Placing, dv: DocVec, dv': DocVec, q: nat, c: VectorIndex)
    requires Drained(pl, dv, dv')
    ensures RuleHasTargets(pl) && Count(HeldAt(dv', q), c) == DrainedCount(pl, dv, q, c)
  {
  }

  lemma NotUnderNew(space: G.Space, s: Snapshot, dv: DocVec, c: VectorIndex, x: Point, k: nat)
    requires forall o :: Count(HeldAt(dv, o), c) > 0 ==> Nearest(space, s, x, o)
    requires k !in s.postings
    ensures Count(HeldAt(dv, k), c) == 0
  {
  }

  lemma HalfIsNearer(space: G.Space, centres: map<nat, Point>, pl: Placing, ks: (nat, nat), cs: (Point, Point),
                     c: VectorIndex, x: Point)
    requires pl.space == space && pl.centres == centres && pl.rule == G.DrainRule.Split(ks, cs)
    requires G.Reconstruct(space, centres, Bare(c)) == Some(x)
    ensures RuleHasTargets(pl)
    ensures pl.Dest(c) == if space.dist(x, cs.1) < space.dist(x, cs.0) then ks.1 else ks.0
  {
  }

  lemma HalvesOnly(pl: Placing, ks: (nat, nat), cs: (Point, Point), c: VectorIndex)
    requires pl.rule == G.DrainRule.Split(ks, cs)
    ensures RuleHasTargets(pl) && pl.Dest(c) in {ks.0, ks.1}
  {
  }

  lemma NearestIsHere(ix: Index, a: Found, p: nat)
    requires IsActive(a.snap.postings, p) && HasCentre(a.snap, p)
    ensures p in Routable(a.snap)
  {
  }

  /** A split leaves no chunk in reach behind. With the gate off and no one else
      writing, let every copy of a chunk be under an active posting none is nearer
      than, and split a posting. Then every copy under a half, or under one of the
      other active postings nearest the old centre that the reassignment looks
      through, is again under an active posting none is nearer than. */
  lemma SplitLeavesNoneBehind(ix: Index, a: Found, b: Found, p: nat, cs: (Point, Point), d: Doc, c: VectorIndex,
                              x: Point, q: nat)
    requires SplitMade(ix, a, b, p, cs) && a.alone && !ix.ops.gate && p in a.snap.postings
             && CentresKnown(a.snap)
    requires G.Reconstruct(ix.space, a.snap.centres, Bare(c)) == Some(x)
    requires forall o :: Count(HeldAt(At(a.vec, d), o), c) > 0 ==> Nearest(ix.space, a.snap, x, o)
    requires Count(HeldAt(At(b.vec, d), q), c) > 0 && q in Routable(b.snap)
    requires var (k0, k1) := SplitOf(a.snap, p).children;
             || q == k0 || q == k1
             || |CloserThan(b.snap, ix.space, CentreOf(a.snap, p), Routable(b.snap) - {k0, k1},
                q)| < ix.ops.reassignRange
    ensures Nearest(ix.space, b.snap, x, q)
  {
    hide SplitMade, SplitOf, Drained, Rehomed, Nearest, MovesOf, PlanReassign, CloserThan, HalvesPlacing;
    SplitRoutes(ix, a, b, p, cs);
    SplitNames(a.snap, p);
    var op, m, mid := SplitMoves(ix, a, b, p, cs, d);
    ScopeIsNearest(b.snap, ix.space, ix.ops, p, SplitOf(a.snap, p).children, q);
    MovesOfKnows(ix.space, b.snap, false, op, m);
    if Count(HeldAt(mid, q), c) > 0 {
      DrainedWasNearest(ix, a, b, p, cs, op, At(a.vec, d), mid, c, x, q);
    }
    RehomedLeavesNoneBehind(ix.space, b.snap, op, m, mid, At(b.vec, d), c, x, q);
  }

  /** The reassignment a split runs, and what it finds. */
  lemma SplitMoves(ix: Index, a: Found, b: Found, p: nat, cs: (Point, Point), d: Doc)
    returns (op: Op, m: Moves, mid: DocVec)
    requires SplitMade(ix, a, b, p, cs) && a.alone && HasCentre(a.snap, p)
    ensures op.Reassign? && op.children == SplitOf(a.snap, p).children
    ensures op.parentCentre == a.snap.postings[p].centreId
    ensures PlanReassign(b.snap, ix.space, ix.ops, p, SplitOf(a.snap, p).children) == Some(Record(Planned, op))
    ensures MovesOf(b.snap, ix.space, ix.ops.gate, op) == Some(m)
    ensures Drained(HalvesPlacing(ix.space, a.snap, p, cs), At(a.vec, d), mid) && Rehomed(m, mid, At(b.vec, d))
  {
    hide Drained, Rehomed, SplitOf, HalvesPlacing, Halved, Centred, Retiring, StoredCodes;
    SplitParts(ix, a, b, p, cs);
    SplitNames(a.snap, p);
    var planned := PlanReassign(b.snap, ix.space, ix.ops, p, SplitOf(a.snap, p).children);
    assert MovesFor(b.snap, ix.space, ix.ops, SplitOf(a.snap, p)).Some?;
    op, m := planned.value.op, MovesFor(b.snap, ix.space, ix.ops, SplitOf(a.snap, p)).value;
    assert SplitUp(HalvesPlacing(ix.space, a.snap, p, cs), m, At(a.vec, d), At(b.vec, d));
    mid :| Drained(HalvesPlacing(ix.space, a.snap, p, cs), At(a.vec, d), mid) && Rehomed(m, mid, At(b.vec, d));
  }

  // ── A merge ──

  /** Where a merge takes the drained chunks: if the drained centre beats the kept one,
      to the nearest other active posting, if that beats the kept centre too; and
      otherwise to the kept one. Its copies there are the larger number, and no other
      posting's change. */
  lemma MergeTakesTheNearest(space: G.Space, ops: Settings, s: Snapshot, drained: nat, kept: nat, v: Vec, v': Vec,
                             d: Doc, c: VectorIndex, x: Option<Point>, n: nat, p: nat)
    requires {drained, kept} <= Routable(s) && drained != kept
    requires MergeEffect(space, ops, s, drained, kept, true, v, v')
    requires x == G.Reconstruct(space, s.centres, Bare(c))
    requires x.Some? ==> NearestAmong(space, s, Routable(s) - {drained}, x.value, n)
    ensures var (from, to) := (CentreOf(s, drained), CentreOf(s, kept));
            var dest :=
              if && x.Some? && Beats(space, x.value, c, ops.gate, from, to)
                 && n != kept && Beats(space, x.value, c, ops.gate, CentreOf(s, n), to)
              then n else kept;
            Count(HeldAt(At(v', d), p), c) ==
            if p == drained then 0
            else if p == dest then Max(Count(HeldAt(At(v, d), p), c), Count(HeldAt(At(v, d), drained), c))
            else Count(HeldAt(At(v, d), p), c)
  {
    hide ActiveCentres, NearestAmong, Routable, G.Nearest;
    RoutableHasCentre(s);
    var s' := s.(postings := s.postings[drained := s.postings[drained].(state := Draining)]);
    DrainingIsNotRouted(s, drained);
    var pl := PlacingFor(s', space, ops, Merge(drained, kept)).value;
    if x.Some? {
      ActiveAreListed(s');
      var n' := NearestIsNearest(space, s', Routable(s'), ActiveCentres(s'), x.value);
      SameNearest(space, s, s', Routable(s'), x.value, n');
      NearestIsOne(space, s, Routable(s'), x.value, n, n');
    }
    DrainedCounts(pl, At(v, d), At(v', d), p, c);
  }

  lemma DrainingIsNotRouted(s: Snapshot, p: nat)
    requires p in Routable(s)
    ensures var s' := s.(postings := s.postings[p := s.postings[p].(state := Draining)]);
            && Routable(s') == Routable(s) - {p}
            && forall q :: q in s.postings ==> HasCentre(s', q) == HasCentre(s, q)
                                               && (HasCentre(s, q) ==> CentreOf(s', q) == CentreOf(s, q))
    ensures forall q :: q in Routable(s) ==> q in s.postings && HasCentre(s, q)
  {
  }

  lemma SameNearest(space: G.Space, s: Snapshot, s': Snapshot, ids: set<nat>, x: Point, n: nat)
    requires ids <= Routable(s) && ids <= Routable(s') && NearestAmong(space, s', ids, x, n)
    requires forall q :: q in ids ==> CentreOf(s', q) == CentreOf(s, q)
    ensures NearestAmong(space, s, ids, x, n)
  {
    forall q | q in ids && q != n ensures Closer(s, space, x, n, q) {
      assert Closer(s', space, x, n, q);
    }
  }

  /** Writers route where they did, but not to the drained posting. */
  lemma MergeRoutes(ix: Index, a: Found, b: Found, posting: nat, drained: nat, kept: nat)
    requires MergeMade(ix, a, b, posting, drained, kept) && CentresKnown(a.snap)
    ensures {drained, kept} <= Routable(a.snap) && drained != kept
    ensures b.snap.centres == a.snap.centres && Routable(b.snap) == Routable(a.snap) - {drained}
    ensures CentresKnown(b.snap)
    ensures forall q :: q in Routable(b.snap) ==> CentreOf(b.snap, q) == CentreOf(a.snap, q)
  {
    hide MergeEffect, MergeCandidates, CloserThan;
  }

  /** Every copy of a document's chunk is under an active posting none is nearer than. */
  ghost predicate AllNearest(space: G.Space, f: Found, d: Doc, c: VectorIndex, x: Point) {
    forall p :: Count(HeldAt(At(f.vec, d), p), c) > 0 ==> Nearest(space, f.snap, x, p)
  }

  /** A merge leaves no chunk behind at all: with the gate off and no one else writing,
      if every copy was under an active posting none is nearer than, every copy still is. */
  lemma MergeLeavesNoneBehind(ix: Index, a: Found, b: Found, posting: nat, drained: nat, kept: nat, d: Doc,
                              c: VectorIndex, x: Point)
    requires MergeMade(ix, a, b, posting, drained, kept) && a.alone && !ix.ops.gate && CentresKnown(a.snap)
    requires G.Reconstruct(ix.space, a.snap.centres, Bare(c)) == Some(x)
    requires AllNearest(ix.space, a, d, c, x)
    ensures AllNearest(ix.space, b, d, c, x)
  {
    hide MergeMade, Routable, ActiveCentres, G.Nearest, MergeEffect;
    MergeRoutes(ix, a, b, posting, drained, kept);
    RoutableHasCentre(a.snap);
    RoutableHasCentre(b.snap);
    ActiveAreListed(b.snap);
    assert kept in Routable(b.snap);
    var n := NearestIsNearest(ix.space, b.snap, Routable(b.snap), ActiveCentres(b.snap), x);
    SameNearest(ix.space, a.snap, b.snap, Routable(b.snap), x, n);
    forall p | Count(HeldAt(At(b.vec, d), p), c) > 0 ensures Nearest(ix.space, b.snap, x, p) {
      MergedEffect(ix, a, b, posting, drained, kept);
      MergeTakesTheNearest(ix.space, ix.ops, a.snap, drained, kept, a.vec, b.vec, d, c, Some(x), n, p);
      if Count(HeldAt(At(a.vec, d), p), c) > 0 {
        assert Nearest(ix.space, a.snap, x, p);
      } else {
        assert Nearest(ix.space, a.snap, x, drained);
        forall q | q in Routable(b.snap)
          ensures ix.space.dist(x, CentreOf(b.snap, p)) <= ix.space.dist(x, CentreOf(b.snap, q))
        {
          assert q != n ==> Closer(a.snap, ix.space, x, n, q);
          assert kept != n ==> Closer(a.snap, ix.space, x, n, kept);
        }
      }
    }
  }

  lemma MergedEffect(ix: Index, a: Found, b: Found, posting: nat, drained: nat, kept: nat)
    requires MergeMade(ix, a, b, posting, drained, kept)
    ensures drained in a.snap.postings
    ensures MergeEffect(ix.space, ix.ops, a.snap, drained, kept, a.alone, a.vec, b.vec) && (a.alone ==> b.alone)
  {
  }

  // ── Whole runs ──

  /** After a split nothing is filed but under active postings, if nothing was before. */
  lemma SplitFilesUnderActive(ix: Index, a: Found, b: Found, p: nat, cs: (Point, Point), d: Doc, c: VectorIndex,
                              x: Point, q: nat)
    requires SplitMade(ix, a, b, p, cs) && a.alone && p in a.snap.postings && CentresKnown(a.snap)
    requires G.Reconstruct(ix.space, a.snap.centres, Bare(c)) == Some(x) && AllNearest(ix.space, a, d, c, x)
    requires Count(HeldAt(At(b.vec, d), q), c) > 0
    ensures q in Routable(b.snap)
  {
    hide SplitMade, SplitOf, Drained, Nearest, MovesOf, PlanReassign, Routable, HalvesPlacing, ActiveCentres, G.Nearest;
    SplitRoutes(ix, a, b, p, cs);
    SplitNames(a.snap, p);
    var op, m, mid := SplitMoves(ix, a, b, p, cs, d);
    MovesOfKnows(ix.space, b.snap, ix.ops.gate, op, m);
    assert Count(HeldAt(At(b.vec, d), q), c) == RehomedCount(m, mid, q, c);
    var home := G.Home(m.space, m.centres, m.rule, c);
    if home.Some? && home.value.0 == q {
      HomeIsActive(m, b.snap, c);
    } else {
      DrainedUnderActive(ix, a, b, p, cs, At(a.vec, d), mid, d, c, x, q);
    }
  }

  lemma HomeIsActive(m: Moves, s: Snapshot, c: VectorIndex)
    requires m.rule.active == ActiveCentres(s) && G.Home(m.space, m.centres, m.rule, c).Some?
    ensures G.Home(m.space, m.centres, m.rule, c).value.0 in Routable(s)
  {
    var x := G.Reconstruct(m.space, m.centres, Bare(c)).value;
    if m.rule.active != [] {
      var k := G.NearestIsFirstLeast(m.space, x, m.rule.active);
    }
  }

  lemma DrainedUnderActive(ix: Index, a: Found, b: Found, p: nat, cs: (Point, Point), dv: DocVec, mid: DocVec, d: Doc,
                           c: VectorIndex, x: Point, q: nat)
    requires SplitMade(ix, a, b, p, cs) && p in a.snap.postings && CentresKnown(a.snap) && dv == At(a.vec, d)
    requires AllNearest(ix.space, a, d, c, x)
    requires Drained(HalvesPlacing(ix.space, a.snap, p, cs), dv, mid) && Count(HeldAt(mid, q), c) > 0
    ensures q in Routable(b.snap)
  {
    hide SplitMade, SplitOf, Routable, G.Destination, Drained;
    SplitRoutes(ix, a, b, p, cs);
    SplitNames(a.snap, p);
    var pl := HalvesPlacing(ix.space, a.snap, p, cs);
    DrainedCounts(pl, dv, mid, q, c);
    HalvesOnly(pl, SplitOf(a.snap, p).children, cs, c);
    if Count(HeldAt(dv, q), c) > 0 {
      assert Nearest(ix.space, a.snap, x, q);
    }
  }

  /** One split or merge leaves no chunk behind, if the reassignment's range takes in
      every active posting. */
  lemma MadeLeavesNoneBehind(ix: Index, a: Found, b: Found, d: Doc, c: VectorIndex, x: Point)
    requires Made(ix, a, b) && a.alone && !ix.ops.gate && CentresKnown(a.snap)
    requires |Routable(b.snap)| <= ix.ops.reassignRange
    requires G.Reconstruct(ix.space, a.snap.centres, Bare(c)) == Some(x) && AllNearest(ix.space, a, d, c, x)
    ensures b.alone && CentresKnown(b.snap) && AllNearest(ix.space, b, d, c, x)
    ensures G.Reconstruct(ix.space, b.snap.centres, Bare(c)) == Some(x)
  {
    hide SplitMade, MergeMade, Nearest, Routable, SplitOf, CloserThan, AllNearest;
    if p, cs :| SplitMade(ix, a, b, p, cs) {
      SplitSnap(ix, a, b, p, cs);
      SplitNames(a.snap, p);
      SplitRoutes(ix, a, b, p, cs);
      SplitKnows(ix, a, b, p, cs);
      RoutableHasCentre(b.snap);
      forall q | Count(HeldAt(At(b.vec, d), q), c) > 0 ensures Nearest(ix.space, b.snap, x, q) {
        SplitFilesUnderActive(ix, a, b, p, cs, d, c, x, q);
        AllAreInRange(b.snap, ix.space, CentreOf(a.snap, p), SplitOf(a.snap, p).children, q);
        AllNearestEach(ix.space, a, d, c, x);
        SplitLeavesNoneBehind(ix, a, b, p, cs, d, c, x, q);
      }
      EachNearest(ix.space, b, d, c, x);
    } else {
      var p, drained, kept :| MergeMade(ix, a, b, p, drained, kept);
      MergeRoutes(ix, a, b, p, drained, kept);
      MergedEffect(ix, a, b, p, drained, kept);
      MergeLeavesNoneBehind(ix, a, b, p, drained, kept, d, c, x);
    }
  }

  lemma AllNearestEach(space: G.Space, f: Found, d: Doc, c: VectorIndex, x: Point)
    requires AllNearest(space, f, d, c, x)
    ensures forall o :: Count(HeldAt(At(f.vec, d), o), c) > 0 ==> Nearest(space, f.snap, x, o)
  {
    hide Nearest;
  }

  lemma EachNearest(space: G.Space, f: Found, d: Doc, c: VectorIndex, x: Point)
    requires forall o :: Count(HeldAt(At(f.vec, d), o), c) > 0 ==> Nearest(space, f.snap, x, o)
    ensures AllNearest(space, f, d, c, x)
  {
    hide Nearest;
  }

  lemma SplitKnows(ix: Index, a: Found, b: Found, p: nat, cs: (Point, Point))
    requires SplitMade(ix, a, b, p, cs) && CentresKnown(a.snap)
    ensures CentresKnown(b.snap) && (a.alone ==> b.alone)
  {
    hide SplitEffect;
    SplitParts(ix, a, b, p, cs);
  }

  lemma AllAreInRange(s: Snapshot, space: G.Space, centre: Point, ks: (nat, nat), q: nat)
    requires q in Routable(s) && HasCentre(s, q) && {ks.0, ks.1} <= Routable(s)
    ensures |CloserThan(s, space, centre, Routable(s) - {ks.0, ks.1}, q)| < |Routable(s)|
  {
    hide Routable;
    var before := CloserThan(s, space, centre, Routable(s) - {ks.0, ks.1}, q);
    Within(before + {ks.0}, Routable(s));
  }

  /** Maintenance leaves no chunk behind. With the gate off, no one else writing, and
      a reassignment range that takes in every active posting: if every copy of a
      chunk was under an active posting none is nearer than, then so it is in each
      partition maintenance goes through, and in the last. */
  lemma {:induction false} MaintenanceLeavesNoneBehind(ix: Index, way: seq<Found>, k: nat, d: Doc, c: VectorIndex,
                                                       x: Point)
    requires Leads(way, ix) && k < |way| && way[0].alone && !ix.ops.gate && CentresKnown(way[0].snap)
    requires forall j :: 0 < j < |way| ==> |Routable(way[j].snap)| <= ix.ops.reassignRange
    requires G.Reconstruct(ix.space, way[0].snap.centres, Bare(c)) == Some(x)
    requires AllNearest(ix.space, way[0], d, c, x)
    ensures way[k].alone && CentresKnown(way[k].snap) && AllNearest(ix.space, way[k], d, c, x)
    ensures G.Reconstruct(ix.space, way[k].snap.centres, Bare(c)) == Some(x)
  {
    hide AllNearest, Made, Routable, CentresKnown;
    if k > 0 {
      MaintenanceLeavesNoneBehind(ix, way, k - 1, d, c, x);
      MadeLeavesNoneBehind(ix, way[k - 1], way[k], d, c, x);
    }
  }
}
