/** Where a drained chunk goes: nearest centres, the uncertainty gate, and the
    rule of each kind of drain. Distances are real; how a code is reconstructed
    and how far its error lets a comparison be off are uninterpreted. */
module Geometry {
  import opened Codes

  type Point = seq<real>

  /** `slack(code, a, b)` is `2 · error_bound · ‖a − b‖`. */
  datatype Space = Space(
    dist: (Point, Point) -> real,
    reconstruct: (VectorIndex, Point) -> Option<Point>,
    slack: (VectorIndex, Point, Point) -> real)

  /** Whether centre `a` is nearer to `x` than centre `b`; with `gate`, by more
      than the code's estimate of that comparison can be off. */
  predicate Nearer(s: Space, x: Point, a: Point, b: Point, code: VectorIndex, gate: bool) {
    var da, db := s.dist(x, a), s.dist(x, b);
    da < db && (!gate || db - da > s.slack(code, a, b))
  }

  type Candidate = (nat, Point)

  /** The first of the nearest candidates. */
  ghost predicate IsNearest(s: Space, x: Point, cs: seq<Candidate>, k: nat) {
    && k < |cs|
    && (forall j :: 0 <= j < |cs| ==> s.dist(x, cs[k].1) <= s.dist(x, cs[j].1))
    && (forall j :: 0 <= j < k ==> s.dist(x, cs[k].1) < s.dist(x, cs[j].1))
  }

  /** `nearest`, as a fold keeping the best so far. */
  function NearestFrom(s: Space, x: Point, cs: seq<Candidate>, best: Option<Candidate>): Option<Candidate> {
    if cs == [] then best
    else NearestFrom(s, x, cs[1..], if best.None? || s.dist(x, cs[0].1) < s.dist(x, best.value.1) then Some(cs[0])
      else best)
  }

  function Nearest(s: Space, x: Point, cs: seq<Candidate>): Option<Candidate> {
    NearestFrom(s, x, cs, None)
  }

  method FindNearest(s: Space, x: Point, cs: seq<Candidate>) returns (best: Option<Candidate>)
    ensures best == Nearest(s, x, cs)
    ensures best.None? <==> cs == []
    ensures best.Some? ==> exists k: nat :: IsNearest(s, x, cs, k) && cs[k] == best.value
  {
    best := None;
    ghost var k := 0;
    assert cs[0..] == cs;
    for i := 0 to |cs|
      invariant best.None? <==> i == 0
      invariant best.Some? ==> IsNearest(s, x, cs[..i], k) && cs[k] == best.value
      invariant NearestFrom(s, x, cs[i..], best) == Nearest(s, x, cs)
    {
      var c := cs[i];
      assert cs[i..][0] == c && cs[i..][1..] == cs[i + 1..] && cs[..i + 1] == cs[..i] + [c];
      if best.None? || s.dist(x, c.1) < s.dist(x, best.value.1) {
        best, k := Some(c), i;
      }
    }
    assert cs[..|cs|] == cs;
  }

  lemma {:induction false} NearestFromIs(s: Space, x: Point, cs: seq<Candidate>, i: nat, k: nat) returns (r: nat)
    requires i <= |cs|
    requires i == 0 || IsNearest(s, x, cs[..i], k)
    ensures |cs| > 0 ==>
              && IsNearest(s, x, cs, r)
              && NearestFrom(s, x, cs[i..], if i == 0 then None else Some(cs[k])) == Some(cs[r])
    decreases |cs| - i
  {
    if i == |cs| {
      r := k;
      assert cs[..i] == cs;
    } else {
      var c := cs[i];
      assert cs[i..][0] == c && cs[i..][1..] == cs[i + 1..] && cs[..i + 1] == cs[..i] + [c];
      r := NearestFromIs(s, x, cs, i + 1, if i == 0 || s.dist(x, c.1) < s.dist(x, cs[k].1) then i else k);
    }
  }

  /** `nearest` returns a nearest candidate, and on a tie the first. */
  lemma NearestIsFirstLeast(s: Space, x: Point, cs: seq<Candidate>) returns (k: nat)
    requires cs != []
    ensures IsNearest(s, x, cs, k) && Nearest(s, x, cs) == Some(cs[k])
  {
    assert cs[0..] == cs;
    k := NearestFromIs(s, x, cs, 0, 0);
  }

  // ── Drain rules ──

  datatype DrainRule =
    | Split(children: (nat, nat), centres: (Point, Point))
    | Merge(kept: nat, keptCentre: Point, fromCentre: Point, active: seq<Candidate>, gate: bool)
    | NearestOf(postings: seq<Candidate>)

  /** A code's reconstruction, if its centre is known. */
  function Reconstruct(s: Space, centres: map<nat, Point>, code: VectorIndex): Option<Point> {
    if code.centreId in centres then s.reconstruct(code, centres[code.centreId]) else None
  }

  /** Where a rule sends a chunk, whichever posting it is filed under. */
  function Destination(s: Space, centres: map<nat, Point>, rule: DrainRule, code: VectorIndex): nat
    requires rule.NearestOf? ==> rule.postings != []
  {
    var x, b := Reconstruct(s, centres, Bare(code)), Bare(code);
    match rule
    case Split(children, cs) =>
      if x.Some? && s.dist(x.value, cs.1) < s.dist(x.value, cs.0) then children.1 else children.0
    case Merge(kept, keptCentre, fromCentre, active, gate) =>
      if x.None? || !Nearer(s, x.value, fromCentre, keptCentre, b, gate) then kept
      else
        var n := Nearest(s, x.value, active);
        if n.Some? && n.value.0 != kept && Nearer(s, x.value, n.value.1, keptCentre, b, gate) then n.value.0
          else kept
    case NearestOf(postings) =>
      if x.Some? && Nearest(s, x.value, postings).Some? then Nearest(s, x.value, postings).value.0 else postings[0].0
  }

  /** The postings a rule can send a chunk to. */
  function Targets(rule: DrainRule): set<nat> {
    match rule
    case Split(children, _) => {children.0, children.1}
    case Merge(kept, _, _, active, _) => {kept} + (set c | c in active :: c.0)
    case NearestOf(postings) => set c | c in postings :: c.0
  }

  /** A chunk never goes outside its rule's targets: in particular never back to
      a posting being drained, which is in none of them. */
  lemma DestinationIsATarget(s: Space, centres: map<nat, Point>, rule: DrainRule, code: VectorIndex)
    requires rule.NearestOf? ==> rule.postings != []
    ensures Destination(s, centres, rule, code) in Targets(rule)
  {
    var x := Reconstruct(s, centres, Bare(code));
    if x.Some? {
      match rule
      case Split(_, _) =>
      case Merge(_, _, _, active, _) =>
        if active != [] {
          var k := NearestIsFirstLeast(s, x.value, active);
          assert active[k] in active;
        }
      case NearestOf(postings) =>
        var k := NearestIsFirstLeast(s, x.value, postings);
        assert postings[k] in postings;
    } else {
      assert rule.NearestOf? ==> rule.postings[0] in rule.postings;
    }
  }

  /** A merge sends a chunk away from the kept posting only when its old centre
      beats the kept one, and then only to its nearest active posting, strictly
      nearer than the kept one; gated or not, no chunk ends farther away. */
  lemma MergeNeverGoesFarther(s: Space, centres: map<nat, Point>, rule: DrainRule, code: VectorIndex, x: Point)
    requires rule.Merge?
    requires Reconstruct(s, centres, Bare(code)) == Some(x)
    ensures Destination(s, centres, rule, code) == rule.kept ||
            exists k: nat :: && IsNearest(s, x, rule.active, k)
                        && rule.active[k].0 == Destination(s, centres, rule, code)
                        && s.dist(x, rule.active[k].1) < s.dist(x, rule.keptCentre)
                        && s.dist(x, rule.fromCentre) < s.dist(x, rule.keptCentre)
  {
    if rule.active != [] {
      var k := NearestIsFirstLeast(s, x, rule.active);
    }
  }

  /** A rebuild sends a chunk to a nearest new posting, the first on a tie. */
  lemma RebuildGoesToNearest(s: Space, centres: map<nat, Point>, rule: DrainRule, code: VectorIndex, x: Point)
    requires rule.NearestOf? && rule.postings != []
    requires Reconstruct(s, centres, Bare(code)) == Some(x)
    ensures exists k: nat ::
              IsNearest(s, x, rule.postings, k) && rule.postings[k].0 == Destination(s, centres, rule, code)
  {
    var k := NearestIsFirstLeast(s, x, rule.postings);
  }

  // ── Reassignment ──

  /** LIRE's conditions for one reassignment: the split posting's old centre, the
      halves, and every active posting. */
  datatype MoveRule = MoveRule(parent: Point, children: (nat, nat), halves: (Point, Point), active: seq<Candidate>,
    gate: bool)

  /** A chunk's nearest active posting. */
  function Home(s: Space, centres: map<nat, Point>, rule: MoveRule, chunk: VectorIndex): Option<Candidate> {
    var x := Reconstruct(s, centres, Bare(chunk));
    if x.None? then None else Nearest(s, x.value, rule.active)
  }

  /** Whether a chunk under `src` is a candidate: in a half, if the old centre is
      nearer than the half's; elsewhere, if the nearer half beats both the old
      centre and the chunk's own. */
  predicate IsCandidate(s: Space, rule: MoveRule, src: Candidate, x: Point, chunk: VectorIndex) {
    if src.0 == rule.children.0 || src.0 == rule.children.1 then
      Nearer(s, x, rule.parent, src.1, chunk, rule.gate)
    else
      var half := if s.dist(x, rule.halves.1) < s.dist(x, rule.halves.0) then rule.halves.1 else rule.halves.0;
      Nearer(s, x, half, rule.parent, chunk, rule.gate) && Nearer(s, x, half, src.1, chunk, rule.gate)
  }

  /** `decide`: where a chunk under `src` moves, `None` to stay. */
  function Decide(s: Space, centres: map<nat, Point>, rule: MoveRule, src: Candidate, chunk: VectorIndex): Option<nat> {
    var x, b := Reconstruct(s, centres, Bare(chunk)), Bare(chunk);
    if x.None? || !IsCandidate(s, rule, src, x.value, b) then None
    else
      var n := Nearest(s, x.value, rule.active);
      if n.Some? && n.value.0 != src.0 && Nearer(s, x.value, n.value.1, src.1, b, rule.gate) then Some(n.value.0)
        else None
  }

  /** A chunk moves only to its nearest active posting, so a copy that is there
      never moves away again; and it ends strictly nearer. */
  lemma MovesHome(s: Space, centres: map<nat, Point>, rule: MoveRule, src: Candidate, chunk: VectorIndex)
    requires Decide(s, centres, rule, src, chunk).Some?
    ensures Home(s, centres, rule, chunk).Some? && Home(s, centres, rule, chunk).value in rule.active
    ensures var home := Home(s, centres, rule, chunk).value;
            && home.0 == Decide(s, centres, rule, src, chunk).value && home.0 != src.0
            && Reconstruct(s, centres, Bare(chunk)).Some?
            && s.dist(Reconstruct(s, centres, Bare(chunk)).value,
               home.1) < s.dist(Reconstruct(s, centres, Bare(chunk)).value, src.1)
    ensures forall p: Point :: Decide(s, centres, rule, (Home(s, centres, rule, chunk).value.0, p), chunk).None?
  {
    var x := Reconstruct(s, centres, Bare(chunk)).value;
    assert rule.active != [];
    var k := NearestIsFirstLeast(s, x, rule.active);
  }

  // ── neighbours ──

  type Ranked = (real, nat)

  predicate Before(a: Ranked, b: Ranked) {
    a.0 < b.0 || (a.0 == b.0 && a.1 <= b.1)
  }

  predicate SortedByRank(s: seq<Ranked>) {
    forall i, j :: 0 <= i < j < |s| ==> Before(s[i], s[j])
  }

  function InsertRanked(e: Ranked, s: seq<Ranked>): (r: seq<Ranked>)
    ensures |r| == |s| + 1
  {
    if s == [] || Before(e, s[0]) then [e] + s else [s[0]] + InsertRanked(e, s[1..])
  }

  function SortRanked(s: seq<Ranked>): (r: seq<Ranked>)
    ensures |r| == |s|
  {
    if s == [] then [] else InsertRanked(s[0], SortRanked(s[1..]))
  }

  lemma {:induction false} InsertKeepsAll(e: Ranked, s: seq<Ranked>)
    ensures multiset(InsertRanked(e, s)) == multiset(s) + multiset{e}
  {
    if s != [] && !Before(e, s[0]) {
      InsertKeepsAll(e, s[1..]);
      assert s == [s[0]] + s[1..];
    }
  }

  lemma {:induction false} InsertKeepsOrder(e: Ranked, s: seq<Ranked>)
    requires SortedByRank(s)
    ensures SortedByRank(InsertRanked(e, s))
  {
    if s != [] && !Before(e, s[0]) {
      var rest := InsertRanked(e, s[1..]);
      assert SortedByRank(s[1..]);
      InsertKeepsOrder(e, s[1..]);
      InsertKeepsAll(e, s[1..]);
      forall j | 0 <= j < |rest| ensures Before(s[0], rest[j]) {
        assert rest[j] in multiset(rest);
        assert rest[j] == e || rest[j] in s[1..];
      }
    } else {
      forall j | 0 <= j < |s| ensures Before(e, s[j]) {
        assert j > 0 ==> Before(s[0], s[j]);
      }
    }
  }

  lemma {:induction false} SortIsSortedPermutation(s: seq<Ranked>)
    ensures SortedByRank(SortRanked(s)) && multiset(SortRanked(s)) == multiset(s)
  {
    if s != [] {
      SortIsSortedPermutation(s[1..]);
      InsertKeepsOrder(s[0], SortRanked(s[1..]));
      InsertKeepsAll(s[0], SortRanked(s[1..]));
      assert s == [s[0]] + s[1..];
    }
  }

  function Ranks(s: Space, centre: Point, cs: seq<Candidate>): (r: seq<Ranked>)
    ensures |r| == |cs| && forall i :: 0 <= i < |cs| ==> r[i] == (s.dist(centre, cs[i].1), cs[i].0)
  {
    seq(|cs|, i requires 0 <= i < |cs| => (s.dist(centre, cs[i].1), cs[i].0))
  }

  /** The `n` postings of `cs` nearest `centre`, nearest first. */
  function Neighbours(s: Space, centre: Point, cs: seq<Candidate>, n: nat): seq<nat> {
    var sorted := SortRanked(Ranks(s, centre, cs));
    var taken := sorted[..Min(n, |sorted|)];
    seq(|taken|, i requires 0 <= i < |taken| => taken[i].1)
  }

  /** `neighbours` returns exactly the `n` least by distance, then by id, in that
      order: what it takes and what it leaves make up the candidates, and nothing
      left comes before anything taken. */
  lemma NeighboursAreTheLeast(s: Space, centre: Point, cs: seq<Candidate>, n: nat)
    returns (taken: seq<Ranked>, left: seq<Ranked>)
    ensures |taken| == Min(n, |cs|) == |Neighbours(s, centre, cs, n)|
    ensures forall i :: 0 <= i < |taken| ==> Neighbours(s, centre, cs, n)[i] == taken[i].1
    ensures multiset(taken) + multiset(left) == multiset(Ranks(s, centre, cs))
    ensures SortedByRank(taken)
    ensures forall a, b :: a in taken && b in left ==> Before(a, b)
  {
    var sorted := SortRanked(Ranks(s, centre, cs));
    SortIsSortedPermutation(Ranks(s, centre, cs));
    var m := Min(n, |sorted|);
    taken, left := sorted[..m], sorted[m..];
    assert sorted == taken + left;
    forall a, b | a in taken && b in left ensures Before(a, b) {
      var i :| 0 <= i < m && a == sorted[i];
      var j :| 0 <= j < |left| && b == left[j];
      assert left[j] == sorted[m + j];
    }
  }

  /** `neighbours` of different postings are different. */
  lemma NeighboursDiffer(s: Space, centre: Point, cs: seq<Candidate>, n: nat)
    requires forall i, j :: 0 <= i < j < |cs| ==> cs[i].0 != cs[j].0
    ensures forall i, j :: 0 <= i < j < |Neighbours(s, centre, cs, n)| ==>
            Neighbours(s, centre, cs, n)[i] != Neighbours(s, centre, cs, n)[j]
    ensures forall q :: q in Neighbours(s, centre, cs, n) ==> exists c :: c in cs && c.0 == q
  {
    var ranks := Ranks(s, centre, cs);
    var taken, left := NeighboursAreTheLeast(s, centre, cs, n);
    var near := Neighbours(s, centre, cs, n);
    forall i | 0 <= i < |taken| ensures exists k :: 0 <= k < |cs| && ranks[k] == taken[i] {
      assert taken[i] in multiset(taken) && taken[i] in multiset(ranks);
    }
    forall q | q in near ensures exists c :: c in cs && c.0 == q {
      var i :| 0 <= i < |near| && near[i] == q;
      var k :| 0 <= k < |cs| && ranks[k] == taken[i];
      assert cs[k] in cs;
    }
    forall i, j | 0 <= i < j < |near| ensures near[i] != near[j] {
      if near[i] == near[j] {
        var k :| 0 <= k < |cs| && ranks[k] == taken[i];
        var l :| 0 <= l < |cs| && ranks[l] == taken[j];
        assert k == l;
        TwiceIn(taken, i, j);
        OnceIn(ranks, k);
        assert false;
      }
    }
  }

  lemma TwiceIn(s: seq<Ranked>, i: nat, j: nat)
    requires i < j < |s| && s[i] == s[j]
    ensures multiset(s)[s[i]] >= 2
  {
    assert s == s[..j] + [s[j]] + s[j + 1..];
    assert s[i] in s[..j];
  }

  lemma OnceIn(s: seq<Ranked>, k: nat)
    requires k < |s| && forall j :: 0 <= j < |s| && j != k ==> s[j] != s[k]
    ensures multiset(s)[s[k]] == 1
  {
    assert s == s[..k] + [s[k]] + s[k + 1..];
    assert s[k] !in s[..k] && s[k] !in s[k + 1..];
  }
}
