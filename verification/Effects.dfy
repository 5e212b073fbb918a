/** What a drain and a reassignment do to one document, chunk by chunk. */
module Effects {
  import opened Codes
  import opened Vectors
  import opened Counts
  import opened Partition
  import opened Store
  import opened Copying
  import opened Draining
  import opened Shrinking
  import G = Geometry

  // ── A drain ──

  /** How many copies of a chunk are under `p` once the drain is done: none under the
      drained posting; where the rule sends the chunk, the larger of what was there
      and what came; elsewhere as many as before. */
  ghost function DrainedCount(pl: Placing, dv: DocVec, p: nat, b: VectorIndex): nat
    requires RuleHasTargets(pl)
  {
    if p == pl.drained then 0
    else if pl.Dest(b) == p then Max(Count(HeldAt(dv, p), b), Count(HeldAt(dv, pl.drained), b))
    else Count(HeldAt(dv, p), b)
  }

  /** A document after a drain. */
  ghost predicate Drained(pl: Placing, dv: DocVec, dv': DocVec) {
    && RuleHasTargets(pl)
    && pl.drained !in dv'.keys
    && dv'.dense == dv.dense
    && ContentOf(dv').hash == ContentOf(dv).hash
    && forall p, b :: Count(HeldAt(dv', p), b) == DrainedCount(pl, dv, p, b)
  }

  lemma SameDestination(s: G.Space, centres: map<nat, Point>, rule: G.DrainRule, c: VectorIndex)
    requires rule.NearestOf? ==> rule.postings != []
    ensures G.Destination(s, centres, rule, c) == G.Destination(s, centres, rule, Bare(c))
  {
    assert Bare(Bare(c)) == Bare(c);
  }

  /** Of each chunk, all the copies go to its destination. */
  lemma {:induction false} RefiledCount(s: G.Space, centres: map<nat, Point>, rule: G.DrainRule,
                                        codes: seq<VectorIndex>, p: nat, b: VectorIndex)
    requires rule.NearestOf? ==> rule.postings != []
    ensures Count(FiledUnder(Refile(s, centres, rule, codes), p), b) ==
            if G.Destination(s, centres, rule, b) == p then Count(codes, b) else 0
  {
    hide G.Destination;
    if codes != [] {
      var refiled := Refile(s, centres, rule, codes);
      var c := refiled[0];
      assert refiled[1..] == Refile(s, centres, rule, codes[1..]);
      assert Bare(c) == Bare(codes[0]);
      SameDestination(s, centres, rule, codes[0]);
      RefiledCount(s, centres, rule, codes[1..], p, b);
      CountConcat(if c.clusterId == p then [c] else [], FiledUnder(refiled[1..], p), b);
      assert Count([c], b) == (if Bare(c) == b then 1 else 0) + Count([c][1..], b);
    }
  }

  /** Of a group, as many copies of a chunk as are filed there. */
  lemma GroupCounts(codes: seq<VectorIndex>, groups: map<nat, seq<VectorIndex>>, p: nat, b: VectorIndex)
    requires Groups(codes, groups)
    ensures Count(if p in groups then groups[p] else [], b) == Count(FiledUnder(codes, p), b)
  {
    if p !in groups {
      NoneUnder(codes, p);
    }
  }

  /** After a copy each destination has the larger number of copies. */
  lemma GainedCounts(dv: DocVec, dv': DocVec, moving: map<nat, seq<VectorIndex>>, p: nat, b: VectorIndex)
    requires Gained(dv, dv', moving)
    ensures Count(HeldAt(dv', p), b) == Max(Count(HeldAt(dv, p), b), Count(if p in moving then moving[p] else [], b))
  {
    if p in moving {
      MergedIsMultisetMaximum(HeldAt(dv, p), moving[p], b);
    }
  }

  /** Copied out and then deleted, a document is drained. */
  lemma CopiedThenEmptied(pl: Placing, dv: DocVec, mid: DocVec, dv': DocVec)
    requires RuleHasTargets(pl) && pl.drained !in G.Targets(pl.rule)
    requires CopiedOut(pl, dv, mid) && dv' == Emptied(mid, pl.drained)
    ensures Drained(pl, dv, dv')
  {
    hide G.Destination, G.Targets, Groups, Gained;
    EmptiedOnly(mid, pl.drained);
    forall p, b ensures Count(HeldAt(dv', p), b) == DrainedCount(pl, dv, p, b) {
      G.DestinationIsATarget(pl.space, pl.centres, pl.rule, b);
      if pl.drained in dv.keys {
        var codes := dv.keys[pl.drained];
        var moving :| SentOut(pl, codes, moving) && Gained(dv, mid, moving);
        GroupCounts(Refile(pl.space, pl.centres, pl.rule, codes), moving, p, b);
        RefiledCount(pl.space, pl.centres, pl.rule, codes, p, b);
        GainedCounts(dv, mid, moving, p, b);
      }
    }
    if pl.drained in dv.keys {
      var moving :| SentOut(pl, dv.keys[pl.drained], moving) && Gained(dv, mid, moving);
      GainedKeepsRest(dv, mid, moving);
    }
  }

  lemma AllDrained(pl: Placing, v: Vec, mid: Vec, v': Vec)
    requires RuleHasTargets(pl) && pl.drained !in G.Targets(pl.rule)
    requires forall d :: CopiedOut(pl, At(v, d), At(mid, d))
    requires forall d :: At(v', d) == Emptied(At(mid, d), pl.drained)
    ensures forall d :: Drained(pl, At(v, d), At(v', d))
  {
    forall d ensures Drained(pl, At(v, d), At(v', d)) {
      CopiedThenEmptied(pl, At(v, d), At(mid, d), At(v', d));
    }
  }

  lemma EmptiedOnly(dv: DocVec, p: nat)
    ensures p !in Emptied(dv, p).keys && forall q :: q != p ==> HeldAt(Emptied(dv, p), q) == HeldAt(dv, q)
    ensures Emptied(dv, p).dense == dv.dense && ContentOf(Emptied(dv, p)).hash == ContentOf(dv).hash
  {
  }

  lemma GainedKeepsRest(dv: DocVec, dv': DocVec, moving: map<nat, seq<VectorIndex>>)
    requires Gained(dv, dv', moving)
    ensures dv'.dense == dv.dense && ContentOf(dv').hash == ContentOf(dv).hash
  {
  }

  // ── A reassignment ──

  /** The chunks of the `k`th source that move, filed where they go. */
  function Departing(m: Moves, k: nat, codes: seq<VectorIndex>): (r: seq<VectorIndex>)
    requires k < |m.sources|
    ensures forall x :: x in r ==> exists c :: c in codes && m.To(k, c) == Some(x.clusterId) && Bare(x) == Bare(c)
    ensures r == [] <==> forall c :: c in codes ==> m.To(k, c).None?
  {
    if codes == [] then []
    else
      var rest := Departing(m, k, codes[1..]);
      assert forall c :: c in codes <==> c == codes[0] || c in codes[1..];
      if m.To(k, codes[0]).Some? then
        assert codes[0] in codes;
        [codes[0].(clusterId := m.To(k, codes[0]).value)] + rest
      else rest
  }

  /** Every source's moves together, so two sources moving into one key are copied
      as one. */
  function AllDeparting(m: Moves, dv: DocVec, n: nat): seq<VectorIndex>
    requires n <= |m.sources|
  {
    if n == 0 then [] else AllDeparting(m, dv, n - 1) + Departing(m, n - 1, HeldAt(dv, m.sources[n - 1].0))
  }

  /** A document after its moving chunks are copied home: each home holds the larger
      of what it held and what moved there, and nothing else changed. */
  ghost predicate MovedOut(m: Moves, dv: DocVec, dv': DocVec) {
    || (AllDeparting(m, dv, |m.sources|) == [] && dv' == dv)
    || exists moving :: Groups(AllDeparting(m, dv, |m.sources|), moving) && Gained(dv, dv', moving)
  }

  ghost function MovesOut(m: Moves): (DocVec, DocVec) -> bool {
    (dv, dv') => MovedOut(m, dv, dv')
  }

  ghost function Shrinks(m: Moves): (DocVec, DocVec) -> bool {
    (dv, dv') => Shrunken(m, dv, dv')
  }

  /** A source the chunk moves from. */
  ghost predicate MovesFrom(m: Moves, p: nat, b: VectorIndex) {
    exists k :: 0 <= k < |m.sources| && m.sources[k].0 == p && m.To(k, b).Some?
  }

  /** How many copies of a chunk are under `p` once the reassignment is done: none
      under a source it moves from; at its home, if it moves, the larger of what was
      there and what all its sources had; elsewhere as many as before. */
  ghost function RehomedCount(m: Moves, dv: DocVec, p: nat, b: VectorIndex): nat {
    var home := G.Home(m.space, m.centres, m.rule, b);
    if MovesFrom(m, p, b) then 0
    else if home.Some? && home.value.0 == p then Max(Count(HeldAt(dv, p), b), Total(m, dv, |m.sources|, b))
    else Count(HeldAt(dv, p), b)
  }

  /** A document after a reassignment. */
  ghost predicate Rehomed(m: Moves, dv: DocVec, dv': DocVec) {
    && dv'.dense == dv.dense
    && ContentOf(dv').hash == ContentOf(dv).hash
    && forall p, b :: Count(HeldAt(dv', p), b) == RehomedCount(m, dv, p, b)
  }

  lemma {:induction false} DepartingCount(m: Moves, k: nat, codes: seq<VectorIndex>, p: nat, b: VectorIndex)
    requires k < |m.sources|
    ensures Count(FiledUnder(Departing(m, k, codes), p), b) == if m.To(k, b) == Some(p) then Count(codes, b) else 0
  {
    if codes != [] {
      DepartingCount(m, k, codes[1..], p, b);
      assert Bare(Bare(codes[0])) == Bare(codes[0]);
      if m.To(k, codes[0]).Some? {
        var c := codes[0].(clusterId := m.To(k, codes[0]).value);
        var rest := Departing(m, k, codes[1..]);
        assert Departing(m, k, codes) == [c] + rest && ([c] + rest)[1..] == rest;
        CountConcat(if c.clusterId == p then [c] else [], FiledUnder(rest, p), b);
        assert Count([c], b) == (if Bare(c) == b then 1 else 0) + Count([c][1..], b);
      }
    }
  }

  lemma {:induction false} FiledUnderConcat(a: seq<VectorIndex>, b: seq<VectorIndex>, p: nat)
    ensures FiledUnder(a + b, p) == FiledUnder(a, p) + FiledUnder(b, p)
  {
    if a == [] {
      assert a + b == b;
    } else {
      assert (a + b)[1..] == a[1..] + b;
      FiledUnderConcat(a[1..], b, p);
    }
  }

  /** Of each chunk that moves, all the copies the sources have go home. */
  lemma {:induction false} AllDepartingCount(m: Moves, dv: DocVec, n: nat, p: nat, b: VectorIndex)
    requires n <= |m.sources|
    ensures var home := G.Home(m.space, m.centres, m.rule, b);
            Count(FiledUnder(AllDeparting(m, dv, n), p), b) ==
            if home.Some? && home.value.0 == p then Total(m, dv, n, b) else 0
  {
    hide Departing, G.Home, G.Decide, FiledUnder, HeldAt;
    if n > 0 {
      var codes := HeldAt(dv, m.sources[n - 1].0);
      AllDepartingCount(m, dv, n - 1, p, b);
      DepartingCount(m, n - 1, codes, p, b);
      FiledUnderConcat(AllDeparting(m, dv, n - 1), Departing(m, n - 1, codes), p);
      CountConcat(FiledUnder(AllDeparting(m, dv, n - 1), p), FiledUnder(Departing(m, n - 1, codes), p), b);
      if m.To(n - 1, b).Some? {
        G.MovesHome(m.space, m.centres, m.rule, m.sources[n - 1], b);
      }
    }
  }

  /** After the copy. */
  lemma MovedOutCounts(m: Moves, dv: DocVec, dv': DocVec, p: nat, b: VectorIndex)
    requires MovedOut(m, dv, dv')
    ensures var home := G.Home(m.space, m.centres, m.rule, b);
            Count(HeldAt(dv', p), b) ==
            Max(Count(HeldAt(dv, p), b), if home.Some? && home.value.0 == p then Total(m, dv, |m.sources|, b) else 0)
    ensures dv'.dense == dv.dense && ContentOf(dv').hash == ContentOf(dv).hash
  {
    var all := AllDeparting(m, dv, |m.sources|);
    AllDepartingCount(m, dv, |m.sources|, p, b);
    if !(all == [] && dv' == dv) {
      var moving :| Groups(all, moving) && Gained(dv, dv', moving);
      GroupCounts(all, moving, p, b);
      GainedCounts(dv, dv', moving, p, b);
    }
  }

  /** The sources agree on what they have of a chunk. */
  lemma {:induction false} TotalsAgree(m: Moves, dv: DocVec, dv': DocVec, n: nat, b: VectorIndex)
    requires n <= |m.sources|
    requires forall k :: 0 <= k < |m.sources| && m.To(k, b).Some? ==>
               Count(HeldAt(dv', m.sources[k].0), b) == Count(HeldAt(dv, m.sources[k].0), b)
    ensures Total(m, dv', n, b) == Total(m, dv, n, b)
  {
    if n > 0 {
      TotalsAgree(m, dv, dv', n - 1, b);
    }
  }

  lemma {:induction false} TotalCovers(m: Moves, dv: DocVec, n: nat, k: nat, b: VectorIndex)
    requires k < n <= |m.sources|
    ensures Wanted(m, dv, k, b) <= Total(m, dv, n, b)
  {
    if k < n - 1 {
      TotalCovers(m, dv, n - 1, k, b);
    }
  }

  /** A document none of whose chunks moves is already as a shrink leaves it. */
  lemma NothingDeparts(m: Moves, dv: DocVec)
    requires AllDeparting(m, dv, |m.sources|) == []
    ensures MovedOut(m, dv, dv) && Shrunken(m, dv, dv)
  {
    forall b ensures Total(m, dv, |m.sources|, b) == 0 {
      NothingTotal(m, dv, |m.sources|, b);
    }
  }

  lemma {:induction false} NothingTotal(m: Moves, dv: DocVec, n: nat, b: VectorIndex)
    requires n <= |m.sources| && AllDeparting(m, dv, n) == []
    ensures Total(m, dv, n, b) == 0
  {
    if n > 0 {
      NothingTotal(m, dv, n - 1, b);
      DepartingCount(m, n - 1, HeldAt(dv, m.sources[n - 1].0), if m.To(n - 1, b).Some? then m.To(n - 1, b).value
        else 0, b);
    }
  }

  /** A document after a split: drained into the halves, and then rehomed. */
  ghost predicate SplitUp(pl: Placing, m: Moves, dv: DocVec, dv': DocVec) {
    exists mid :: Drained(pl, dv, mid) && Rehomed(m, mid, dv')
  }

  /** Copied home, and the sources then shrunk, a document is rehomed. */
  lemma MovedThenShrunken(m: Moves, dv: DocVec, mid: DocVec, dv': DocVec)
    requires MovedOut(m, dv, mid) && Shrunken(m, mid, dv')
    ensures Rehomed(m, dv, dv')
  {
    hide MovedOut;
    forall p, b ensures Count(HeldAt(dv', p), b) == RehomedCount(m, dv, p, b) {
      MovedThenShrunkenAt(m, dv, mid, dv', p, b);
    }
    MovedOutCounts(m, dv, mid, 0, VectorIndex(0, 0, SingleBit, 0, 0, 0, []));
  }

  lemma MovedThenShrunkenAt(m: Moves, dv: DocVec, mid: DocVec, dv': DocVec, p: nat, b: VectorIndex)
    requires MovedOut(m, dv, mid) && Shrunken(m, mid, dv')
    ensures Count(HeldAt(dv', p), b) == RehomedCount(m, dv, p, b)
  {
    hide MovedOut, G.Home, G.Decide;
    var n := |m.sources|;
    var home := G.Home(m.space, m.centres, m.rule, b);
    forall k | 0 <= k < n && m.To(k, b).Some?
      ensures Count(HeldAt(mid, m.sources[k].0), b) == Count(HeldAt(dv, m.sources[k].0), b)
      ensures home.Some? && home.value.0 != m.sources[k].0
    {
      G.MovesHome(m.space, m.centres, m.rule, m.sources[k], b);
      MovedOutCounts(m, dv, mid, m.sources[k].0, b);
    }
    TotalsAgree(m, dv, mid, n, b);
    MovedOutCounts(m, dv, mid, p, b);
    if MovesFrom(m, p, b) {
      var k :| 0 <= k < n && m.sources[k].0 == p && m.To(k, b).Some?;
      MovedOutCounts(m, dv, mid, home.value.0, b);
      TotalCovers(m, dv', n, k, b);
    } else if p in SourceIds(Some(m)) {
      var k :| 0 <= k < n && m.sources[k].0 == p;
      assert m.To(k, b).None?;
    }
  }

  lemma AllSplitUp(pl: Placing, m: Moves, v: Vec, mid: Vec, v': Vec)
    requires forall d :: Drained(pl, At(v, d), At(mid, d))
    requires forall d :: Rehomed(m, At(mid, d), At(v', d))
    ensures forall d :: SplitUp(pl, m, At(v, d), At(v', d))
  {
    forall d ensures SplitUp(pl, m, At(v, d), At(v', d)) {
      assert Drained(pl, At(v, d), At(mid, d)) && Rehomed(m, At(mid, d), At(v', d));
    }
  }
}
