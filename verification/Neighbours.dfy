/** The active postings nearest a centre: in which order they come, and which are
    among the first. */
module Neighbours {
  import opened Codes
  import opened Vectors
  import opened Partition
  import G = Geometry

  /** Whether posting `a` comes before `b` around a centre: its own is nearer, or as
      near, and its id smaller. */
  predicate Closer(s: Snapshot, space: G.Space, centre: Point, a: nat, b: nat)
    requires HasCentre(s, a) && HasCentre(s, b)
  {
    var (da, db) := (space.dist(centre, CentreOf(s, a)), space.dist(centre, CentreOf(s, b)));
    da < db || (da == db && a < b)
  }

  /** Those of `ids` that come before `q`. */
  function CloserThan(s: Snapshot, space: G.Space, centre: Point, ids: set<nat>, q: nat): set<nat>
    requires ids <= Routable(s) && HasCentre(s, q)
  {
    set x | x in ids && Closer(s, space, centre, x, q)
  }

  /** `cs` are the postings `ids`, each once, with their centres. */
  ghost predicate Listing(s: Snapshot, ids: set<nat>, cs: seq<(nat, Point)>) {
    && ids <= Routable(s)
    && (forall i, j :: 0 <= i < j < |cs| ==> cs[i].0 < cs[j].0)
    && (forall c :: c in cs ==> c.0 in ids && c.1 == CentreOf(s, c.0))
    && (forall q :: q in ids ==> exists k :: 0 <= k < |cs| && cs[k] == (q, CentreOf(s, q)))
  }

  lemma CloserOneWay(s: Snapshot, space: G.Space, centre: Point, a: nat, b: nat)
    requires HasCentre(s, a) && HasCentre(s, b)
    ensures Closer(s, space, centre, a, b) ==> a != b && !Closer(s, space, centre, b, a)
  {
  }

  lemma {:induction false} DistinctSize(s: seq<nat>)
    requires Distinct(s)
    ensures |Elements(s)| == |s|
  {
    if s != [] {
      var rest := Elements(s[1..]);
      assert forall i, j :: 0 <= i < j < |s| - 1 ==> s[1..][i] == s[i + 1] && s[1..][j] == s[j + 1];
      DistinctSize(s[1..]);
      forall x | x in rest ensures x != s[0] {
        var j :| 0 <= j < |s[1..]| && s[1..][j] == x;
        assert s[j + 1] == x;
      }
      assert Elements(s) == {s[0]} + rest;
    }
  }

  lemma Within(a: set<nat>, b: set<nat>)
    requires a <= b
    ensures |a| <= |b|
  {
    assert b == a + (b - a);
  }

  lemma ListingSize(s: Snapshot, ids: set<nat>, cs: seq<(nat, Point)>)
    requires Listing(s, ids, cs)
    ensures |cs| == |ids|
  {
    hide Routable;
    RoutableHasCentre(s);
    var names := seq(|cs|, i requires 0 <= i < |cs| => cs[i].0);
    DistinctSize(names);
    forall q ensures q in ids <==> q in names {
      if q in ids {
        var k :| 0 <= k < |cs| && cs[k] == (q, CentreOf(s, q));
        assert names[k] == q;
      }
      if q in names {
        var k :| 0 <= k < |names| && names[k] == q;
        assert cs[k] in cs;
      }
    }
    assert ids == Elements(names);
  }

  /** The neighbours with their distances, and the postings left out. */
  lemma NeighbourRanks(s: Snapshot, space: G.Space, centre: Point, ids: set<nat>, cs: seq<(nat, Point)>, n: nat)
    returns (taken: seq<G.Ranked>, left: seq<G.Ranked>)
    requires Listing(s, ids, cs)
    ensures |taken| == |G.Neighbours(space, centre, cs, n)| == Min(n, |ids|)
    ensures forall i :: 0 <= i < |taken| ==> taken[i].1 == G.Neighbours(space, centre, cs, n)[i]
    ensures Distinct(G.Neighbours(space, centre, cs, n)) && G.SortedByRank(taken)
    ensures forall a, b :: a in taken && b in left ==> G.Before(a, b)
    ensures forall r :: r in taken || r in left ==> r.1 in ids && r.0 == space.dist(centre, CentreOf(s, r.1))
    ensures forall q :: q in ids ==> var r := (space.dist(centre, CentreOf(s, q)), q); r in taken || r in left
  {
    hide Routable, G.Neighbours;
    RoutableHasCentre(s);
    ListingSize(s, ids, cs);
    G.NeighboursDiffer(space, centre, cs, n);
    taken, left := G.NeighboursAreTheLeast(space, centre, cs, n);
    var ranks := G.Ranks(space, centre, cs);
    forall r | r in taken || r in left ensures r.1 in ids && r.0 == space.dist(centre, CentreOf(s, r.1)) {
      assert r in multiset(taken) + multiset(left) && r in multiset(ranks);
      var k :| 0 <= k < |ranks| && ranks[k] == r;
      assert cs[k] in cs;
    }
    forall q | q in ids ensures var r := (space.dist(centre, CentreOf(s, q)), q); r in taken || r in left {
      var k :| 0 <= k < |cs| && cs[k] == (q, CentreOf(s, q));
      assert ranks[k] in multiset(ranks) && ranks[k] in multiset(taken) + multiset(left);
    }
  }

  /** The neighbours come in order, and none before one of them is left out. */
  lemma NeighboursInOrder(s: Snapshot, space: G.Space, centre: Point, ids: set<nat>, cs: seq<(nat, Point)>, n: nat)
    requires Listing(s, ids, cs)
    ensures var near := G.Neighbours(space, centre, cs, n);
            && |near| == Min(n, |ids|) && Distinct(near)
            && (forall i :: 0 <= i < |near| ==> near[i] in ids)
            && (forall i, j :: 0 <= i < j < |near| ==> Closer(s, space, centre, near[i], near[j]))
            && (forall i, q :: 0 <= i < |near| && q in ids && q !in near ==> Closer(s, space, centre, near[i], q))
  {
    hide G.Neighbours, Routable;
    RoutableHasCentre(s);
    var near := G.Neighbours(space, centre, cs, n);
    var taken, left := NeighbourRanks(s, space, centre, ids, cs, n);
    forall i | 0 <= i < |near|
      ensures near[i] in ids && taken[i] == (space.dist(centre, CentreOf(s, near[i])), near[i])
    {
      assert taken[i] in taken;
    }
    forall i, q | 0 <= i < |near| && q in ids && q !in near ensures Closer(s, space, centre, near[i], q) {
      var r := (space.dist(centre, CentreOf(s, q)), q);
      assert forall j :: 0 <= j < |taken| ==> taken[j].1 == near[j] && near[j] in near;
      assert taken[i] in taken && r in left && G.Before(taken[i], r);
    }
    forall i, j | 0 <= i < j < |near| ensures Closer(s, space, centre, near[i], near[j]) {
      assert G.Before(taken[i], taken[j]);
    }
  }

  /** A posting is among the `n` nearest if and only if fewer than `n` come before it. */
  lemma NeighbourIffFewCloser(s: Snapshot, space: G.Space, centre: Point, ids: set<nat>, cs: seq<(nat, Point)>,
                              n: nat, q: nat)
    requires Listing(s, ids, cs) && HasCentre(s, q)
    ensures q in G.Neighbours(space, centre, cs, n) <==> q in ids && |CloserThan(s, space, centre, ids, q)| < n
  {
    hide G.Neighbours, CloserThan, Routable;
    RoutableHasCentre(s);
    NeighboursInOrder(s, space, centre, ids, cs, n);
    if q in G.Neighbours(space, centre, cs, n) {
      NeighbourHasFewCloser(s, space, centre, ids, cs, n, q);
    } else if q in ids {
      OtherHasManyCloser(s, space, centre, ids, cs, n, q);
    }
  }

  lemma NeighbourHasFewCloser(s: Snapshot, space: G.Space, centre: Point, ids: set<nat>, cs: seq<(nat, Point)>,
                              n: nat, q: nat)
    requires Listing(s, ids, cs) && HasCentre(s, q) && q in G.Neighbours(space, centre, cs, n)
    ensures |CloserThan(s, space, centre, ids, q)| < n
  {
    hide G.Neighbours, Closer, Routable;
    RoutableHasCentre(s);
    var near, before := G.Neighbours(space, centre, cs, n), CloserThan(s, space, centre, ids, q);
    NeighboursInOrder(s, space, centre, ids, cs, n);
    var i :| 0 <= i < |near| && near[i] == q;
    forall x | x in before ensures x in near[..i] {
      CloserOneWay(s, space, centre, x, q);
      if x in near {
        var j :| 0 <= j < |near| && near[j] == x;
      }
    }
    DistinctSize(near[..i]);
    Within(before, Elements(near[..i]));
  }

  lemma OtherHasManyCloser(s: Snapshot, space: G.Space, centre: Point, ids: set<nat>, cs: seq<(nat, Point)>,
                           n: nat, q: nat)
    requires Listing(s, ids, cs) && q in ids && HasCentre(s, q) && q !in G.Neighbours(space, centre, cs, n)
    ensures |CloserThan(s, space, centre, ids, q)| >= n
  {
    hide G.Neighbours, Closer, Routable;
    RoutableHasCentre(s);
    var near, before := G.Neighbours(space, centre, cs, n), CloserThan(s, space, centre, ids, q);
    NeighboursInOrder(s, space, centre, ids, cs, n);
    var all := Elements(near);
    DistinctSize(near);
    forall x | x in all ensures x in before && x in ids {
      var j :| 0 <= j < |near| && near[j] == x;
    }
    Within(all, before);
    Within(all + {q}, ids);
  }

  // ── Which postings are compared ──

  /** All those writers route to. */
  lemma ActiveAreListed(s: Snapshot)
    ensures Listing(s, Routable(s), ActiveCentres(s))
  {
    hide ActiveCentres;
    ActiveCentresAreAll(s);
    forall c | c in ActiveCentres(s) ensures c.0 in Routable(s) && c.1 == CentreOf(s, c.0) {
      var k :| 0 <= k < |ActiveCentres(s)| && ActiveCentres(s)[k] == c;
    }
  }

  /** The postings of a listing but for `but`. */
  function AllBut(cs: seq<(nat, Point)>, but: set<nat>): (r: seq<(nat, Point)>)
    ensures forall c :: c in r <==> c in cs && c.0 !in but
  {
    if cs == [] then [] else (if cs[0].0 in but then [] else [cs[0]]) + AllBut(cs[1..], but)
  }

  lemma {:induction false} ButStaysUp(cs: seq<(nat, Point)>, but: set<nat>)
    requires forall i, j :: 0 <= i < j < |cs| ==> cs[i].0 < cs[j].0
    ensures forall i, j :: 0 <= i < j < |AllBut(cs, but)| ==> AllBut(cs, but)[i].0 < AllBut(cs, but)[j].0
  {
    if cs != [] {
      ButStaysUp(cs[1..], but);
      var rest := AllBut(cs[1..], but);
      forall j | 0 <= j < |rest| ensures cs[0].0 < rest[j].0 {
        assert rest[j] in rest && rest[j] in cs[1..];
      }
    }
  }

  lemma OthersAreListed(s: Snapshot, but: set<nat>)
    ensures Listing(s, Routable(s) - but, AllBut(ActiveCentres(s), but))
  {
    hide ActiveCentres, Routable, AllBut;
    RoutableHasCentre(s);
    var all, others := ActiveCentres(s), AllBut(ActiveCentres(s), but);
    ActiveAreListed(s);
    ButStaysUp(all, but);
    forall q | q in Routable(s) - but ensures exists k :: 0 <= k < |others| && others[k] == (q, CentreOf(s, q)) {
      var k :| 0 <= k < |all| && all[k] == (q, CentreOf(s, q));
      assert all[k] in others;
    }
  }
}
