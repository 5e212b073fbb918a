/** Installing a new snapshot (`evolve`, `publish`) and changing a posting's
    state. */
module Publishing {
  import opened Codes
  import opened Vectors
  import opened Counts
  import opened Partition
  import opened Marks
  import opened Store
  import opened Steps

  function Rows(m: map<nat, Posting>): map<nat, Posting> {
    map p | p in m :: m[p].Row()
  }

  lemma {:induction false} WithPostingsSnoc(m: map<nat, Posting>, changed: seq<(nat, Posting)>, id: nat, p: Posting)
    ensures WithPostings(m, changed + [(id, p)]) == WithPostings(m, changed)[id := p]
    decreases |changed|
  {
    if changed == [] {
      assert [] + [(id, p)] == [(id, p)];
      assert WithPostings(m[id := p], [(id, p)][1..]) == m[id := p];
    } else {
      assert (changed + [(id, p)])[1..] == changed[1..] + [(id, p)];
      WithPostingsSnoc(m[changed[0].0 := changed[0].1], changed[1..], id, p);
    }
  }

  /** What is stored is what the snapshot becomes with these changes. */
  ghost predicate Behind(s: Snapshot, added: seq<(nat, Point)>, changed: seq<(nat, Posting)>,
                         postings: map<nat, Posting>, centres: map<nat, Point>, dim: nat)
  {
    && WithCentres(s.centres, added, dim) == Some(centres)
    && Rows(WithPostings(s.postings, changed)) == postings
  }

  /** The snapshot is what is stored, and everyone inside entered by it. */
  ghost predicate Current(ix: Index)
    reads ix
  {
    ix.snap == ix.entered == Snapshot(ix.postings, ix.centres)
  }

  lemma CurrentIsBehindNothing(ix: Index)
    requires Current(ix) && PartsOk(ix.postings, ix.centres, ix.dim)
    ensures Behind(ix.snap, [], [], ix.postings, ix.centres, ix.dim) && Rows(ix.snap.postings) == ix.snap.postings
  {
    forall p | p in ix.postings ensures ix.postings[p].Row() == ix.postings[p] {
    }
    assert Rows(ix.postings) == ix.postings;
  }

  lemma EvolvesToStored(s: Snapshot, added: seq<(nat, Point)>, changed: seq<(nat, Posting)>, ix: Index)
    requires Behind(s, added, changed, ix.postings, ix.centres, ix.dim) && PartsOk(ix.postings, ix.centres, ix.dim)
             && SomeLive(ix.postings)
    ensures Evolve(s, added, changed, ix.dim) == Some(Snapshot(ix.postings, ix.centres))
  {
    var w := WithPostings(s.postings, changed);
    forall p | p in w ensures p in ix.postings && w[p].Row() == ix.postings[p] {
      assert p in Rows(w) && Rows(w)[p] == w[p].Row();
    }
    forall p | p in ix.postings ensures p in w {
      assert p in Rows(w);
    }
    var p :| p in ix.postings && !ix.postings[p].state.Retired?;
    assert w[p].Row() == ix.postings[p];
    assert ix.postings[p].centreId in ix.centres;
  }

  lemma SafeHasLive(ix: Index)
    requires ix.Safe()
    ensures SomeLive(ix.postings)
  {
    var plan, postings := ix.plan, ix.postings;
    assert PlanOk(plan, postings, ix.centres);
    if plan.Idle? {
      var p :| IsActive(postings, p);
    } else {
      match plan.rec.op
      case Split(p, _, ks) =>
        assert IsActive(postings, ks.0) || (p in postings && !postings[p].state.Retired?);
      case Merge(_, kept) => assert IsActive(postings, kept);
      case Reassign(_, _, ks, _) => assert IsActive(postings, ks.0);
    }
  }

  /** Every mark is of a posting 2-means refused, or of one that found no room, at
      the size marked. */
  ghost predicate MarksTrue(ix: Index)
    reads ix`unsplittable, ix`unmergeable, ix`refused, ix`declined
  {
    && RefusalsTrue(ix.twoMeans, ix.ops.mergeLimit, ix.unsplittable, ix.refused)
    && DeclinesTrue(ix.space, ix.ops.splitLimit, ix.unmergeable, ix.declined)
  }

  /** Build the next snapshot and install it; those inside entered by the one before.
      Marks of postings no longer active are dropped. */
  method Replace(ix: Index, added: seq<(nat, Point)>, changed: seq<(nat, Posting)>) returns (r: Outcome)
    requires ix.Safe() && Behind(ix.snap, added, changed, ix.postings, ix.centres, ix.dim)
    modifies ix`snap, ix`unsplittable, ix`unmergeable
    ensures r.Fine? && ix.Safe() && ix.snap == Snapshot(ix.postings, ix.centres)
    ensures ix.unsplittable == (map p | p in old(ix.unsplittable) && IsActive(ix.postings, p) ::
                                  old(ix.unsplittable)[p])
    ensures ix.unmergeable == (map p | p in old(ix.unmergeable) && IsActive(ix.postings, p) :: old(ix.unmergeable)[p])
    ensures old(MarksTrue(ix)) ==> MarksTrue(ix)
  {
    hide PlanOk, AllGood, RulesOf, Evolve, Behind, RefusalsTrue, DeclinesTrue;
    SafeHasLive(ix);
    EvolvesToStored(ix.snap, added, changed, ix);
    var next := Evolve(ix.snap, added, changed, ix.dim);
    r := if next.None? then Corrupt else Fine;
    if next.Some? {
      if MarksTrue(ix) {
        RetainedStayTrue(ix.twoMeans, ix.space, ix.ops.mergeLimit, ix.ops.splitLimit, ix.unsplittable, ix.refused,
                         ix.unmergeable, ix.declined, next.value);
      }
      ix.unsplittable, ix.unmergeable := Retain(ix.unsplittable, next.value), Retain(ix.unmergeable, next.value);
      ix.snap := next.value;
    }
  }

  lemma ActiveSomewhere(ix: Index)
    requires ix.Safe() && ix.snap == Snapshot(ix.postings, ix.centres) && PlannedChildren(ix.plan) == {}
    ensures Routable(ix.snap) != {}
  {
    var plan, postings := ix.plan, ix.postings;
    assert exists p :: IsActive(postings, p) by {
      if !plan.Idle? {
        match plan.rec.op
        case Split(_, _, ks) => assert IsActive(postings, ks.0);
        case Merge(_, kept) => assert IsActive(postings, kept);
        case Reassign(_, _, ks, _) => assert IsActive(postings, ks.0);
      }
    }
    var p :| IsActive(postings, p);
    assert p in Routable(ix.snap);
  }

  /** With the snapshot current and no split planned, others may run. */
  lemma CurrentMayBeUsed(ix: Index)
    requires ix.Safe() && Current(ix) && PlannedChildren(ix.plan) == {}
    ensures ix.SnapOk()
  {
    ActiveSomewhere(ix);
  }

  /** Every posting `s` routes to is stored and not retired. */
  ghost predicate StillLive(s: Snapshot, postings: map<nat, Posting>) {
    forall p :: p in Routable(s) ==> p in postings && !postings[p].state.Retired?
  }

  /** The snapshot about to be replaced still routes somewhere, and nowhere retired;
      everyone inside entered by it. */
  ghost predicate Replaceable(ix: Index)
    reads ix
  {
    ix.snap == ix.entered && Routable(ix.snap) != {} && StillLive(ix.snap, ix.postings)
  }

  /** Just after an installation, those inside may route by the snapshot before. */
  lemma BothMayBeUsed(ix: Index)
    requires ix.Safe() && ix.snap == Snapshot(ix.postings, ix.centres) && PlannedChildren(ix.plan) == {}
    requires Routable(ix.entered) != {} && StillLive(ix.entered, ix.postings)
    requires CopiedDrain(ix.plan).Some? ==> CopiedDrain(ix.plan).value !in Routable(ix.entered)
    ensures ix.SnapOk()
  {
    ActiveSomewhere(ix);
  }

  lemma RoutedIsBoth(ix: Index)
    ensures ix.Routed() == Routable(ix.snap) + Routable(ix.entered)
  {
  }

  /** Wait until everyone who entered by the snapshot before has left: they and
      others run meanwhile. */
  method WaitOut(ix: Index) returns (r: Outcome)
    requires ix.Quiet() && ix.snap == Snapshot(ix.postings, ix.centres) && PlannedChildren(ix.plan) == {}
    modifies ix`docs, ix`queue, ix`lost, ix`log, ix`counts, ix`budget, ix`kept, ix`requests, ix`entered
    ensures ix.Safe() && !r.Corrupt? && Spent(old(ix.budget), ix.budget, r) && Since(old(PastOf(ix)), PastOf(ix), r)
    ensures r.Fine? ==> ix.Quiet() && Current(ix)
    ensures old(ix.Alone()) ==> ix.log == old(ix.log)
    ensures r.Fine? ==> Interfered(Routable(ix.snap) + Routable(old(ix.entered)), old(ix.log), ix.log)
  {
    hide PartsOk, PlanOk, AllGood, RulesOf, Since, Agrees, Settled, Interfered, Index.Sound, Index.SnapOk, Index.Routed;
    ghost var past := PastOf(ix);
    RoutedIsBoth(ix);
    r := ix.Yield();
    SinceYield(past, ix, r);
    ix.entered := ix.snap;
    CurrentMayBeUsed(ix);
  }

  /** `publish`: install the next snapshot, and wait out everyone who entered by the
      one before. On return nobody routes by an older snapshot. */
  method Publish(ix: Index, added: seq<(nat, Point)>, changed: seq<(nat, Posting)>) returns (r: Outcome)
    requires ix.Safe() && Behind(ix.snap, added, changed, ix.postings, ix.centres, ix.dim) && Replaceable(ix)
    requires Agrees(ix.counts, Now(ix.log)) && (if ix.needsRecovery then |ix.log| == 1 else Settled(ix.log))
    requires PlannedChildren(ix.plan) == {}
    requires CopiedDrain(ix.plan).Some? ==> CopiedDrain(ix.plan).value !in Routable(ix.snap)
    modifies ix`docs, ix`queue, ix`lost, ix`log, ix`counts, ix`budget, ix`kept, ix`requests,
             ix`snap, ix`entered, ix`unsplittable, ix`unmergeable
    ensures ix.Safe() && !r.Corrupt? && Spent(old(ix.budget), ix.budget, r) && Since(old(PastOf(ix)), PastOf(ix), r)
    ensures old(MarksTrue(ix)) ==> MarksTrue(ix)
    ensures r.Fine? ==> ix.Quiet() && Current(ix)
    ensures old(ix.Alone()) ==> ix.log == old(ix.log)
    ensures r.Fine? ==> Interfered(Routable(ix.snap) + Routable(old(ix.snap)), old(ix.log), ix.log)
  {
    hide PartsOk, PlanOk, AllGood, RulesOf, Since, Behind, Agrees, Settled, MarksTrue, Retain, Interfered, StillLive,
         Index.Sound, Index.SnapOk;
    r := Replace(ix, added, changed);
    BothMayBeUsed(ix);
    r := WaitOut(ix);
  }

  /** `write_posting`, with the change noted for the next snapshot. */
  method StorePosting(ix: Index, s: Snapshot, added: seq<(nat, Point)>, changed: seq<(nat, Posting)>, id: nat,
                      p: Posting)
    returns (r: Outcome, more: seq<(nat, Posting)>)
    requires ix.Safe() && Behind(s, added, changed, ix.postings, ix.centres, ix.dim)
    requires id in ix.postings ==> p.Same(ix.postings[id])
    requires PartsOk(ix.postings[id := p.Row()], ix.centres, ix.dim)
    requires PlanOk(ix.plan, ix.postings[id := p.Row()], ix.centres)
    requires AllGood(ix.C(), ix.RulesAt(ix.plan, ix.postings[id := p.Row()]), ix.log)
    modifies ix`postings, ix`budget
    ensures ix.Safe() && !r.Corrupt? && Spent(old(ix.budget), ix.budget, r) && Since(old(PastOf(ix)), PastOf(ix), r)
    ensures r.Fine? ==> ix.postings == old(ix.postings)[id := p.Row()]
    ensures r.Fine? ==> more == changed + [(id, p)] && Behind(s, added, more, ix.postings, ix.centres, ix.dim)
  {
    hide PlanOk, PartsOk, AllGood, RulesOf, Since;
    more := changed + [(id, p)];
    WithPostingsSnoc(s.postings, changed, id, p);
    RowsAfter(WithPostings(s.postings, changed), id, p);
    r := WritePosting(ix, id, p);
  }

  lemma RowsAfter(m: map<nat, Posting>, id: nat, p: Posting)
    ensures Rows(m[id := p]) == Rows(m)[id := p.Row()]
  {
  }
}
