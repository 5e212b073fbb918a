/** Splitting and merging postings, and the loop that keeps at it
    (`split_locked`, `merge_locked`, `maintain_locked`). */
module Maintenance {
  import opened Codes
  import opened Vectors
  import opened Counts
  import opened Partition
  import opened Neighbours
  import opened Marks
  import opened Requests
  import opened Store
  import opened Steps
  import opened Copying
  import opened Draining
  import opened Publishing
  import opened Effects
  import opened Reassigning
  import opened Protocol
  import G = Geometry

  /** Between operations: nothing unfinished, the snapshot what is stored. */
  ghost predicate Resting(ix: Index)
    reads ix
  {
    ix.Live() && Current(ix) && ix.plan.Idle? && MarksTrue(ix)
  }

  // ── split: plan and prepare ──

  /** A split not yet published, as planned: its ids are above all in use. */
  function SplitOf(s: Snapshot, posting: nat): Op {
    var c, p := MaxId(s.centres.Keys), MaxId(s.postings.Keys);
    Split(posting, (c + 1, c + 2), (p + 1, p + 2))
  }

  lemma MayPlanSplit(ix: Index, posting: nat, op: nat)
    requires Resting(ix) && IsActive(ix.postings, posting)
    ensures var plan := One(op, Record(Planned, SplitOf(ix.snap, posting)));
            && JournalOf(plan) == ix.journal[op := plan.rec]
            && PlanOk(plan, ix.postings, ix.centres)
            && AllGood(ix.C(), ix.RulesAt(plan, ix.postings), ix.log)
  {
    var plan := One(op, Record(Planned, SplitOf(ix.snap, posting)));
    assert posting in ix.snap.postings.Keys;
    LaxerRulesKeep(ix.C(), ix.R(), ix.RulesAt(plan, ix.postings), ix.log);
  }

  /** Write the record, and append the two new centres. */
  method WriteCentres(ix: Index, op: nat, posting: nat, cs: (Point, Point)) returns (r: Outcome)
    requires Resting(ix) && IsActive(ix.postings, posting) && |cs.0| == ix.dim && |cs.1| == ix.dim
    modifies ix`journal, ix`plan, ix`budget, ix`centres
    ensures ix.Safe() && !r.Corrupt? && Spent(old(ix.budget), ix.budget, r) && Since(old(PastOf(ix)), PastOf(ix), r)
    ensures r.Fine? ==> ix.plan == One(op, Record(Planned, SplitOf(ix.snap, posting)))
    ensures r.Fine? ==> ix.centres == Centred(old(ix.centres), SplitOf(ix.snap, posting), cs)
    ensures r.Fine? ==> Behind(ix.snap, [(ix.plan.rec.op.centres.0, cs.0), (ix.plan.rec.op.centres.1, cs.1)], [],
            ix.postings, ix.centres, ix.dim)
  {
    hide PartsOk, PlanOk, AllGood, RulesOf, Since, Behind, Agrees, Settled, MarksTrue;
    var planned := SplitOf(ix.snap, posting);
    ghost var past := PastOf(ix);
    SinceNow(past);
    MayPlanSplit(ix, posting, op);
    CurrentIsBehindNothing(ix);
    FreshCentres(ix, planned.centres, cs);
    :- WriteRecord(ix, op, Record(Planned, planned), One(op, Record(Planned, planned)));
    r := WriteCentre(ix, planned.centres.0, cs.0);
    ghost var past1 := PastOf(ix);
    if r.Fine? {
      r := WriteCentre(ix, planned.centres.1, cs.1);
      SinceCompose(past, past1, PastOf(ix), r);
    }
    if r.Fine? {
      BehindWithCentres(ix, old(ix.centres), planned.centres, cs);
    }
  }

  lemma FreshCentres(ix: Index, ids: (nat, nat), cs: (Point, Point))
    requires Current(ix) && ids == (MaxId(ix.snap.centres.Keys) + 1, MaxId(ix.snap.centres.Keys) + 2)
    ensures ids.0 !in ix.centres && ids.1 !in ix.centres && ids.0 != ids.1
  {
    assert ids.0 !in ix.snap.centres.Keys && ids.1 !in ix.snap.centres.Keys;
  }

  lemma BehindWithCentres(ix: Index, before: map<nat, Point>, ids: (nat, nat), cs: (Point, Point))
    requires ix.snap == Snapshot(ix.postings, before) && Rows(ix.postings) == ix.postings
    requires ids.0 !in before && ids.1 !in before && ids.0 != ids.1 && |cs.0| == ix.dim && |cs.1| == ix.dim
    requires ix.centres == before[ids.0 := cs.0][ids.1 := cs.1]
    ensures Behind(ix.snap, [(ids.0, cs.0), (ids.1, cs.1)], [], ix.postings, ix.centres, ix.dim)
  {
    var added: seq<(nat, Point)> := [(ids.0, cs.0), (ids.1, cs.1)];
    assert added[1..] == [(ids.1, cs.1)] && |added| == 2;
    assert WithCentres(before[ids.0 := cs.0], added[1..], ix.dim) == Some(ix.centres);
  }

  /** A child of a split: routed to once published. */
  function Child(posting: nat, centre: nat, c: Point): Posting {
    Posting(c, centre, Active, Some(posting), Half)
  }

  /** A planned split, and the centres it has appended. */
  ghost predicate Preparing(ix: Index, op: nat, split: Op, cs: (Point, Point))
    reads ix
  {
    && ix.plan == One(op, Record(Planned, split)) && split.Split?
    && split.centres.0 in ix.centres && split.centres.1 in ix.centres
    && ix.centres[split.centres.0] == cs.0 && ix.centres[split.centres.1] == cs.1
  }

  lemma MayStoreChild(ix: Index, op: nat, split: Op, cs: (Point, Point), second: bool)
    requires ix.Safe() && Preparing(ix, op, split, cs)
    requires var id := if second then split.children.1 else split.children.0; id !in ix.postings
    ensures var id := if second then split.children.1 else split.children.0;
            var child := if second then Child(split.posting, split.centres.1, cs.1)
              else Child(split.posting, split.centres.0, cs.0);
            var after := ix.postings[id := child.Row()];
            && PartsOk(after, ix.centres, ix.dim) && PlanOk(ix.plan, after, ix.centres)
            && AllGood(ix.C(), ix.RulesAt(ix.plan, after), ix.log)
  {
    var id := if second then split.children.1 else split.children.0;
    var child := if second then Child(split.posting, split.centres.1, cs.1)
      else Child(split.posting, split.centres.0, cs.0);
    LaxerRulesKeep(ix.C(), ix.R(), ix.RulesAt(ix.plan, ix.postings[id := child.Row()]), ix.log);
  }

  /** Write both children, active. */
  method StoreChildren(ix: Index, s: Snapshot, added: seq<(nat, Point)>, op: nat, split: Op, cs: (Point, Point))
    returns (r: Outcome, changed: seq<(nat, Posting)>)
    requires ix.Safe() && Preparing(ix, op, split, cs) && Behind(s, added, [], ix.postings, ix.centres, ix.dim)
    requires split.children.0 !in ix.postings && split.children.1 !in ix.postings
             && split.children.0 != split.children.1
    modifies ix`postings, ix`budget
    ensures ix.Safe() && !r.Corrupt? && Spent(old(ix.budget), ix.budget, r) && Since(old(PastOf(ix)), PastOf(ix), r)
    ensures r.Fine? ==> Behind(s, added, changed, ix.postings, ix.centres, ix.dim)
    ensures r.Fine? ==> ix.postings == Halved(old(ix.postings), split, cs)
  {
    hide PartsOk, PlanOk, AllGood, RulesOf, Since, Behind;
    ghost var past := PastOf(ix);
    MayStoreChild(ix, op, split, cs, false);
    changed := [];
    changed :- StorePosting(ix, s, added, changed, split.children.0, Child(split.posting, split.centres.0, cs.0));
    ghost var past1 := PastOf(ix);
    MayStoreChild(ix, op, split, cs, true);
    r, changed := StorePosting(ix, s, added, changed, split.children.1, Child(split.posting, split.centres.1, cs.1));
    SinceCompose(past, past1, PastOf(ix), r);
  }

  lemma MayDrain(ix: Index, op: nat, rec: Record)
    requires ix.Safe() && ix.plan == One(op, rec) && rec.state.Planned? && rec.op.Drained().Some?
    requires IsActive(ix.postings, rec.op.posting)
    ensures var after := ix.postings[rec.op.posting := ix.postings[rec.op.posting].(state := Draining).Row()];
            && PartsOk(after, ix.centres, ix.dim) && PlanOk(ix.plan, after, ix.centres)
            && AllGood(ix.C(), ix.RulesAt(ix.plan, after), ix.log)
  {
    var after := ix.postings[rec.op.posting := ix.postings[rec.op.posting].(state := Draining).Row()];
    LaxerRulesKeep(ix.C(), ix.R(), ix.RulesAt(ix.plan, after), ix.log);
  }

  /** A planned drain ready to publish. */
  ghost predicate Ready(ix: Index, op: nat, rec: Record)
    reads ix
  {
    && ix.plan == One(op, rec) && rec.state.Planned? && rec.op.Drained().Some?
    && rec.op.posting in ix.postings && ix.postings[rec.op.posting].state.Draining?
    && (rec.op.Split? ==>
          && IsActive(ix.postings, rec.op.children.0) && IsActive(ix.postings, rec.op.children.1)
          && rec.op.centres.0 in ix.centres && rec.op.centres.1 in ix.centres)
  }

  lemma MayPublish(ix: Index, op: nat, rec: Record)
    requires ix.Safe() && Ready(ix, op, rec)
    ensures var plan := One(op, rec.With(Published));
            && JournalOf(plan) == ix.journal[op := plan.rec]
            && PlanOk(plan, ix.postings, ix.centres)
            && AllGood(ix.C(), ix.RulesAt(plan, ix.postings), ix.log)
  {
    LaxerRulesKeep(ix.C(), ix.R(), ix.RulesAt(One(op, rec.With(Published)), ix.postings), ix.log);
  }

  method RecordPublished(ix: Index, op: nat, rec: Record) returns (r: Outcome)
    requires ix.Safe() && Ready(ix, op, rec)
    modifies ix`journal, ix`plan, ix`budget
    ensures ix.Safe() && !r.Corrupt? && Spent(old(ix.budget), ix.budget, r)
    ensures r.Fine? ==> ix.plan == One(op, rec.With(Published))
  {
    hide PartsOk, PlanOk, AllGood, RulesOf;
    MayPublish(ix, op, rec);
    r := WriteRecord(ix, op, rec.With(Published), One(op, rec.With(Published)));
  }

  /** `publish_drain`: record first, then install the snapshot and let out
      everyone who entered by the old one. */
  method PublishDrain(ix: Index, op: nat, rec: Record, added: seq<(nat, Point)>, changed: seq<(nat, Posting)>)
    returns (r: Outcome)
    requires ix.Safe() && !ix.needsRecovery && Settled(ix.log) && Agrees(ix.counts, Now(ix.log))
    requires Ready(ix, op, rec) && Replaceable(ix) && Behind(ix.snap, added, changed, ix.postings, ix.centres, ix.dim)
    modifies ix`docs, ix`queue, ix`lost, ix`log, ix`counts, ix`budget, ix`kept, ix`requests, ix`journal, ix`plan,
             ix`snap, ix`entered, ix`unsplittable, ix`unmergeable
    ensures ix.Safe() && !r.Corrupt? && Spent(old(ix.budget), ix.budget, r) && Since(old(PastOf(ix)), PastOf(ix), r)
    ensures old(MarksTrue(ix)) ==> MarksTrue(ix)
    ensures old(ix.Alone()) ==> ix.log == old(ix.log)
    ensures r.Fine? ==> ix.Quiet() && Current(ix) && ix.plan == One(op, rec.With(Published))
  {
    hide PartsOk, PlanOk, AllGood, RulesOf, Since, Behind, Agrees, Settled, MarksTrue, Interfered, StillLive,
         Index.Sound;
    SinceNow(PastOf(ix));
    :- RecordPublished(ix, op, rec);
    r := Publish(ix, added, changed);
  }

  /** What a drain does to the documents, with no one else about: every chunk goes where
      the drain's rule sends it, and after a split home. */
  ghost predicate CarriedOut(space: G.Space, ops: Settings, op: Op, prepared: Snapshot, after: Snapshot, alone: bool,
                             v: Vec, v': Vec)
    requires op.Split? || op.Merge?
  {
    var pl := PlacingFor(prepared, space, ops, op);
    && pl.Some?
    && (op.Split? ==> MovesFor(after, space, ops, op).Some?)
    && (alone && op.Merge? ==> forall d :: Drained(pl.value, At(v, d), At(v', d)))
    && (alone && op.Split? ==>
          forall d :: SplitUp(pl.value, MovesFor(after, space, ops, op).value, At(v, d), At(v', d)))
  }

  /** A prepared drain, from its publication to its last record. */
  method CarryOut(ix: Index, op: nat, rec: Record, added: seq<(nat, Point)>, changed: seq<(nat, Posting)>)
    returns (r: Outcome)
    requires ix.Safe() && !ix.needsRecovery && Settled(ix.log) && Agrees(ix.counts, Now(ix.log)) && MarksTrue(ix)
    requires Ready(ix, op, rec) && Replaceable(ix) && Behind(ix.snap, added, changed, ix.postings, ix.centres, ix.dim)
    modifies ix`docs, ix`queue, ix`lost, ix`log, ix`counts, ix`budget, ix`kept, ix`requests, ix`journal, ix`plan,
             ix`postings, ix`snap, ix`entered, ix`unsplittable, ix`unmergeable
    ensures ix.Safe() && !r.Corrupt? && Spent(old(ix.budget), ix.budget, r) && Since(old(PastOf(ix)), PastOf(ix), r)
    ensures r.Fine? ==> Resting(ix) && ix.postings == Retiring(old(ix.postings), rec.op.posting)
    ensures var prepared := Snapshot(old(ix.postings), old(ix.centres));
            r.Fine? ==>
              CarriedOut(ix.space, ix.ops, rec.op, prepared, ix.snap, old(ix.Alone()), Now(old(ix.log)), Now(ix.log))
  {
    hide PartsOk, PlanOk, AllGood, RulesOf, Since, Behind, Agrees, Settled, Spared, Interfered, Index.Sound, Retain,
         MarksTrue, Retiring, PlacingFor, MovesFor, Drained, SplitUp, Index.SnapOk, Index.Routed;
    ghost var past, alone := PastOf(ix), ix.Alone();
    r := PublishDrain(ix, op, rec, added, changed);
    if r.Fine? {
      ghost var past1 := PastOf(ix);
      if alone {
        StaysAlone(past, ix);
      }
      r := FinishDrain(ix, op, rec.With(Published));
      SinceCompose(past, past1, PastOf(ix), r);
    }
  }

  // ── split ──

  datatype SplitOutcome = NotNeeded | Unsplittable | Done(children: (nat, nat))

  lemma FreshChildren(ix: Index, posting: nat)
    requires Current(ix)
    ensures var ks := SplitOf(ix.snap, posting).children; ks.0 !in ix.postings && ks.1 !in ix.postings && ks.0 != ks.1
  {
    var ks := SplitOf(ix.snap, posting).children;
    assert ks.0 !in ix.snap.postings.Keys && ks.1 !in ix.snap.postings.Keys;
  }

  /** The centres once a split's two are appended. */
  function Centred(centres: map<nat, Point>, split: Op, cs: (Point, Point)): map<nat, Point>
    requires split.Split?
  {
    centres[split.centres.0 := cs.0][split.centres.1 := cs.1]
  }

  /** The postings once a split's two halves are stored. */
  function Halved(postings: map<nat, Posting>, split: Op, cs: (Point, Point)): map<nat, Posting>
    requires split.Split?
  {
    postings[split.children.0 := Child(split.posting, split.centres.0, cs.0)]
            [split.children.1 := Child(split.posting, split.centres.1, cs.1)]
  }

  /** Prepare: centres, children, and the parent draining; nothing is published. */
  method PrepareSplit(ix: Index, op: nat, posting: nat, cs: (Point, Point))
    returns (r: Outcome, changed: seq<(nat, Posting)>)
    requires Resting(ix) && IsActive(ix.postings, posting) && |cs.0| == ix.dim && |cs.1| == ix.dim
    modifies ix`journal, ix`plan, ix`budget, ix`centres, ix`postings
    ensures ix.Safe() && !r.Corrupt? && Spent(old(ix.budget), ix.budget, r) && Since(old(PastOf(ix)), PastOf(ix), r)
    ensures r.Fine? ==> Ready(ix, op, Record(Planned, SplitOf(ix.snap, posting)))
    ensures r.Fine? ==> ix.centres == Centred(old(ix.centres), SplitOf(ix.snap, posting), cs)
    ensures var halved := Halved(old(ix.postings), SplitOf(ix.snap, posting), cs);
            r.Fine? ==> ix.postings == halved[posting := old(ix.postings)[posting].(state := Draining)]
    ensures r.Fine? ==> Replaceable(ix)
    ensures var split := SplitOf(ix.snap, posting);
            r.Fine? ==> Behind(ix.snap, [(split.centres.0, cs.0), (split.centres.1, cs.1)], changed, ix.postings,
              ix.centres, ix.dim)
  {
    hide PartsOk, PlanOk, AllGood, RulesOf, Since, Behind, Agrees, Settled, MarksTrue, Index.Sound, Index.SnapOk,
         Index.Routed;
    changed := [];
    var split := SplitOf(ix.snap, posting);
    FreshChildren(ix, posting);
    ActiveIsRouted(ix, posting);
    ghost var past := PastOf(ix);
    :- WriteCentres(ix, op, posting, cs);
    ghost var past1 := PastOf(ix);
    var added := [(split.centres.0, cs.0), (split.centres.1, cs.1)];
    BehindHasCentres(ix, split, cs, changed);
    r, changed := StoreChildren(ix, ix.snap, added, op, split, cs);
    ghost var past2 := PastOf(ix);
    SinceCompose(past, past1, past2, r);
    if r.Fine? {
      MayDrain(ix, op, Record(Planned, split));
      HalvedStaysLive(ix.snap, ix.postings, split, cs, ix.postings[posting].(state := Draining));
      r, changed := StorePosting(ix, ix.snap, added, changed, posting, ix.postings[posting].(state := Draining));
      SinceCompose(past, past2, PastOf(ix), r);
    }
  }

  lemma ActiveIsRouted(ix: Index, p: nat)
    requires ix.Safe() && Current(ix) && IsActive(ix.postings, p)
    ensures p in Routable(ix.snap)
  {
  }

  lemma HalvedStaysLive(s: Snapshot, halved: map<nat, Posting>, split: Op, cs: (Point, Point), drained: Posting)
    requires split.Split? && halved == Halved(s.postings, split, cs) && drained.state.Draining?
    requires split.posting in Routable(s)
    ensures StillLive(s, halved[split.posting := drained.Row()]) && Routable(s) != {}
  {
  }

  lemma BehindHasCentres(ix: Index, split: Op, cs: (Point, Point), changed: seq<(nat, Posting)>)
    requires split.Split? && Behind(ix.snap, [(split.centres.0, cs.0), (split.centres.1, cs.1)], changed, ix.postings,
             ix.centres, ix.dim)
    ensures split.centres.0 in ix.centres && split.centres.1 in ix.centres
    ensures ix.centres[split.centres.0] == cs.0 && ix.centres[split.centres.1] == cs.1
  {
    var added: seq<(nat, Point)> := [(split.centres.0, cs.0), (split.centres.1, cs.1)];
    var c0 := ix.snap.centres[split.centres.0 := cs.0];
    assert added[1..] == [(split.centres.1, cs.1)];
    assert WithCentres(c0, added[1..], ix.dim) == Some(ix.centres);
    assert WithCentres(c0, added[1..], ix.dim) == Some(c0[split.centres.1 := cs.1]);
  }

  lemma SplitNames(s: Snapshot, posting: nat)
    ensures SplitOf(s, posting).Split? && SplitOf(s, posting).posting == posting
  {
  }

  lemma DrainThenRetire(postings: map<nat, Posting>, split: Op, cs: (Point, Point))
    requires split.Split? && split.posting in postings
    requires split.children.0 !in postings && split.children.1 !in postings
    ensures var halved := Halved(postings, split, cs);
            Retiring(halved[split.posting := postings[split.posting].(state := Draining)], split.posting)
              == Retiring(halved, split.posting)
  {
  }

  /** Where a split sends each chunk: to the nearer half. */
  function HalvesPlacing(space: G.Space, s: Snapshot, posting: nat, cs: (Point, Point)): Placing {
    var split := SplitOf(s, posting);
    Placing(space, Centred(s.centres, split, cs), G.DrainRule.Split(split.children, cs), posting)
  }

  /** A drained posting's copies of a chunk are then in the half nearer to it, the first
      on a tie, or if it cannot be reconstructed, and no other posting's change. */
  lemma HalvesTakeTheNearer(space: G.Space, s: Snapshot, posting: nat, cs: (Point, Point), dv: DocVec, dv': DocVec,
                            b: VectorIndex, x: Option<Point>, p: nat)
    requires posting in s.postings && Drained(HalvesPlacing(space, s, posting, cs), dv, dv')
    requires x == G.Reconstruct(space, Centred(s.centres, SplitOf(s, posting), cs), Bare(b))
    ensures var (first, second) := SplitOf(s, posting).children;
            var near := if x.Some? && space.dist(x.value, cs.1) < space.dist(x.value, cs.0) then second else first;
            && Count(HeldAt(dv', near), b) == Max(Count(HeldAt(dv, near), b), Count(HeldAt(dv, posting), b))
            && (p != near && p != posting ==> Count(HeldAt(dv', p), b) == Count(HeldAt(dv, p), b))
            && Count(HeldAt(dv', posting), b) == 0
  {
    assert posting in s.postings.Keys;
  }

  /** What a split does to the documents, with no one else about: each chunk goes to
      the nearer half, and from there, or from a posting around, home. */
  ghost predicate SplitEffect(space: G.Space, ops: Settings, s: Snapshot, s': Snapshot, posting: nat,
                              cs: (Point, Point),
                              alone: bool, v: Vec, v': Vec)
  {
    var moves := MovesFor(s', space, ops, SplitOf(s, posting));
    && moves.Some?
    && (alone ==> forall d :: SplitUp(HalvesPlacing(space, s, posting, cs), moves.value, At(v, d), At(v', d)))
  }

  /** What a merge does: each chunk goes to the kept posting, or, if its old centre is
      nearer than the kept one, to its nearest active posting. */
  ghost predicate MergeEffect(space: G.Space, ops: Settings, s: Snapshot, drained: nat, kept: nat, alone: bool, v: Vec,
                              v': Vec)
    requires drained in s.postings
  {
    var prepared := s.(postings := s.postings[drained := s.postings[drained].(state := Draining)]);
    var pl := PlacingFor(prepared, space, ops, Merge(drained, kept));
    && pl.Some?
    && (alone ==> forall d :: Drained(pl.value, At(v, d), At(v', d)))
  }

  /** Divide a posting, from its record to its reassignment. */
  method Divide(ix: Index, op: nat, posting: nat, cs: (Point, Point)) returns (r: Outcome)
    requires Resting(ix) && IsActive(ix.postings, posting) && |cs.0| == ix.dim && |cs.1| == ix.dim
    modifies ix`docs, ix`queue, ix`lost, ix`log, ix`counts, ix`budget, ix`kept, ix`requests, ix`journal, ix`plan,
             ix`centres, ix`postings, ix`snap, ix`entered, ix`unsplittable, ix`unmergeable
    ensures ix.Safe() && !r.Corrupt? && Spent(old(ix.budget), ix.budget, r) && Since(old(PastOf(ix)), PastOf(ix), r)
    ensures r.Fine? ==> Resting(ix)
    ensures r.Fine? ==> ix.centres == Centred(old(ix.centres), SplitOf(old(ix.snap), posting), cs)
    ensures r.Fine? ==> ix.postings == Retiring(Halved(old(ix.postings), SplitOf(old(ix.snap), posting), cs), posting)
    ensures r.Fine? ==>
              SplitEffect(ix.space, ix.ops, old(ix.snap), ix.snap, posting, cs, old(ix.Alone()), Now(old(ix.log)),
                Now(ix.log))
  {
    hide PartsOk, PlanOk, AllGood, RulesOf, Since, Behind, Agrees, Settled, Spared, Interfered, Index.Sound, Halved,
         Centred, Retain, MarksTrue, Retiring, SplitOf, CarriedOut, SplitEffect, Index.SnapOk, Index.Routed;
    FreshChildren(ix, posting);
    SplitNames(ix.snap, posting);
    DrainThenRetire(ix.postings, SplitOf(ix.snap, posting), cs);
    var split := SplitOf(ix.snap, posting);
    var added := [(split.centres.0, cs.0), (split.centres.1, cs.1)];
    ghost var past, snap, alone, was := PastOf(ix), ix.snap, ix.Alone(), Now(ix.log);
    var changed :- PrepareSplit(ix, op, posting, cs);
    ghost var past1 := PastOf(ix);
    ghost var prepared := Snapshot(ix.postings, ix.centres);
    r := CarryOut(ix, op, Record(Planned, split), added, changed);
    SinceCompose(past, past1, PastOf(ix), r);
    if r.Fine? {
      SplitCarriedOut(ix.space, ix.ops, snap, prepared, ix.snap, posting, cs, alone, was, Now(ix.log));
    }
  }

  lemma SplitCarriedOut(space: G.Space, ops: Settings, s: Snapshot, prepared: Snapshot, s': Snapshot, posting: nat,
                        cs: (Point, Point), alone: bool, v: Vec, v': Vec)
    requires CarriedOut(space, ops, SplitOf(s, posting), prepared, s', alone, v, v')
    requires prepared.centres == Centred(s.centres, SplitOf(s, posting), cs)
    ensures SplitEffect(space, ops, s, s', posting, cs, alone, v, v')
  {
    hide MovesFor, SplitUp;
    assert PlacingFor(prepared, space, ops, SplitOf(s, posting)) == Some(HalvesPlacing(space, s, posting, cs));
  }

  /** What a split that changes nothing leaves. */
  twostate predicate OnlyMarks(ix: Index)
    reads ix
  {
    && unchanged(ix`docs, ix`queue, ix`lost, ix`log, ix`counts, ix`kept, ix`requests, ix`journal, ix`plan,
                 ix`centres, ix`postings, ix`snap, ix`entered)
  }

  /** The partition as it is now. */
  ghost function FoundNow(ix: Index): Found
    reads ix
  {
    Found(ix.snap, ix.counts, Now(ix.log), ix.Alone())
  }

  /** A split of `a`'s posting `p` by the centres 2-means yields for what it holds. */
  ghost predicate SplitMade(ix: Index, a: Found, b: Found, p: nat, cs: (Point, Point)) {
    && IsActive(a.snap.postings, p)
    && |StoredCodes(a.vec, p)| > ix.ops.splitLimit
    && (var halves := ix.twoMeans(p, NextOpId(map[]), StoredCodes(a.vec, p));
        halves.Some? && halves.value.smaller > ix.ops.mergeLimit && halves.value.centres == cs)
    && b.snap == Snapshot(Retiring(Halved(a.snap.postings, SplitOf(a.snap, p), cs), p),
       Centred(a.snap.centres, SplitOf(a.snap, p), cs))
    && SplitEffect(ix.space, ix.ops, a.snap, b.snap, p, cs, a.alone, a.vec, b.vec)
    && (a.alone ==> b.alone)
  }

  /** Part a posting by the centres 2-means yields. */
  method Part(ix: Index, posting: nat, cs: (Point, Point)) returns (r: Outcome)
    requires Resting(ix) && IsActive(ix.postings, posting) && |cs.0| == ix.dim && |cs.1| == ix.dim
    requires |StoredCodes(Now(ix.log), posting)| > ix.ops.splitLimit
    requires var halves := ix.twoMeans(posting, NextOpId(map[]), StoredCodes(Now(ix.log), posting));
             halves.Some? && halves.value.smaller > ix.ops.mergeLimit && halves.value.centres == cs
    modifies ix`docs, ix`queue, ix`lost, ix`log, ix`counts, ix`budget, ix`kept, ix`requests, ix`journal, ix`plan,
             ix`centres, ix`postings, ix`snap, ix`entered, ix`unsplittable, ix`unmergeable
    ensures ix.Safe() && !r.Corrupt? && Spent(old(ix.budget), ix.budget, r) && Since(old(PastOf(ix)), PastOf(ix), r)
    ensures r.Fine? ==> Resting(ix) && SplitMade(ix, old(FoundNow(ix)), FoundNow(ix), posting, cs)
  {
    hide PartsOk, PlanOk, AllGood, RulesOf, Since, Agrees, Settled, SplitEffect, StoredCodes, Retiring, Halved, Centred,
         Spared, MarksTrue, Index.Sound, Index.SnapOk, Index.Routed;
    ghost var past := PastOf(ix);
    r := Divide(ix, NextOpId(ix.journal), posting, cs);
    if r.Fine? && past.requests == [] {
      StaysAlone(past, ix);
    }
  }

  /** `mark_unsplittable`. */
  method MarkUnsplittable(ix: Index, posting: nat)
    requires Resting(ix) && NoHalves(ix.twoMeans, ix.ops.mergeLimit, FoundNow(ix), posting)
    modifies ix`unsplittable, ix`refused
    ensures Resting(ix)
    ensures ix.unsplittable == old(ix.unsplittable)[posting := |StoredCodes(Now(ix.log), posting)|]
    ensures ix.refused == old(ix.refused)[posting := FoundNow(ix)]
  {
    hide PartsOk, PlanOk, AllGood, RulesOf, Agrees, Settled, RefusalsTrue, DeclinesTrue, StoredCodes, NoHalves,
         Index.Sound, Index.SnapOk, Index.Routed;
    Refuse(ix.twoMeans, ix.ops.mergeLimit, ix.unsplittable, ix.refused, posting, FoundNow(ix));
    ix.unsplittable := ix.unsplittable[posting := |StoredCodes(Now(ix.log), posting)|];
    ix.refused := ix.refused[posting := FoundNow(ix)];
  }

  /** `split_locked`: recount from the stored codes, divide them, and drain the
      posting into its two halves; unless it needs none, or 2-means cannot part
      it into halves that would not be merged again. */
  method SplitLocked(ix: Index, posting: nat) returns (r: Outcome, o: SplitOutcome)
    requires Resting(ix)
    modifies ix`docs, ix`queue, ix`lost, ix`log, ix`counts, ix`budget, ix`kept, ix`requests, ix`journal, ix`plan,
             ix`centres, ix`postings, ix`snap, ix`entered, ix`unsplittable, ix`unmergeable, ix`refused
    ensures ix.Safe() && !r.Corrupt? && Spent(old(ix.budget), ix.budget, r) && Since(old(PastOf(ix)), PastOf(ix), r)
    ensures r.Fine? ==> Resting(ix)
    ensures r.Fine? && !o.Done? ==> OnlyMarks(ix) && ix.unmergeable == old(ix.unmergeable)
    ensures r.Fine? && o.NotNeeded? ==> ix.unsplittable == old(ix.unsplittable)
    ensures o.NotNeeded? <==>
            !old(IsActive(ix.postings, posting)) || |StoredCodes(Now(old(ix.log)), posting)| <= ix.ops.splitLimit
    ensures var (held, halves) := old((StoredCodes(Now(ix.log), posting),
              ix.twoMeans(posting, NextOpId(ix.journal), StoredCodes(Now(ix.log), posting))));
            o.Done? <==>
              && old(IsActive(ix.postings, posting)) && |held| > ix.ops.splitLimit
              && !Marked(old(ix.unsplittable), posting, |held|)
              && halves.Some? && halves.value.smaller > ix.ops.mergeLimit
    ensures !r.Fine? || !o.Unsplittable? || Marked(old(ix.unsplittable), posting, |StoredCodes(Now(ix.log), posting)|)
            ==> ix.refused == old(ix.refused)
    ensures r.Fine? && o.Unsplittable?
            && !Marked(old(ix.unsplittable), posting, |StoredCodes(Now(ix.log), posting)|) ==>
              ix.refused == old(ix.refused)[posting := FoundNow(ix)]
    ensures r.Fine? && o.Unsplittable? ==>
            ix.unsplittable == old(ix.unsplittable)[posting := |StoredCodes(Now(ix.log), posting)|]
    ensures r.Fine? && o.Done? ==>
              && o.children == SplitOf(old(ix.snap), posting).children
              && SplitMade(ix, old(FoundNow(ix)), FoundNow(ix), posting,
                   ix.twoMeans(posting, NextOpId(map[]), old(StoredCodes(Now(ix.log), posting))).value.centres)
  {
    hide PartsOk, PlanOk, AllGood, RulesOf, Since, Agrees, Settled, MarksTrue, SplitMade, StoredCodes, Spared,
         Index.SnapOk, Index.Routed;
    SinceNow(PastOf(ix));
    o := NotNeeded;
    if posting !in ix.snap.postings || !ix.snap.postings[posting].state.Active? {
      return Fine, o;
    }
    var codes := StoredCodes(Now(ix.log), posting);
    var chunks := |codes|;
    if chunks <= ix.ops.splitLimit {
      return Fine, o;
    }
    o := Unsplittable;
    if Marked(ix.unsplittable, posting, chunks) {
      assert ix.unsplittable[posting := chunks] == ix.unsplittable;
      return Fine, o;
    }
    var op := NextOpId(ix.journal);
    var halves := ix.twoMeans(posting, op, codes);
    if halves.None? || halves.value.smaller <= ix.ops.mergeLimit {
      MarkUnsplittable(ix, posting);
      return Fine, o;
    }
    o := Done(SplitOf(ix.snap, posting).children);
    r := Part(ix, posting, halves.value.centres);
  }

  // ── merge ──

  lemma MayPlanMerge(ix: Index, op: nat, drained: nat, kept: nat)
    requires Resting(ix) && IsActive(ix.postings, drained) && IsActive(ix.postings, kept) && drained != kept
    ensures var plan := One(op, Record(Planned, Merge(drained, kept)));
            && JournalOf(plan) == ix.journal[op := plan.rec]
            && PlanOk(plan, ix.postings, ix.centres)
            && AllGood(ix.C(), ix.RulesAt(plan, ix.postings), ix.log)
  {
    LaxerRulesKeep(ix.C(), ix.R(), ix.RulesAt(One(op, Record(Planned, Merge(drained, kept))), ix.postings), ix.log);
  }

  /** Record a merge and mark its smaller posting draining. */
  method PrepareMerge(ix: Index, op: nat, drained: nat, kept: nat) returns (r: Outcome, changed: seq<(nat, Posting)>)
    requires Resting(ix) && IsActive(ix.postings, drained) && IsActive(ix.postings, kept) && drained != kept
    modifies ix`journal, ix`plan, ix`budget, ix`postings
    ensures ix.Safe() && !r.Corrupt? && Spent(old(ix.budget), ix.budget, r) && Since(old(PastOf(ix)), PastOf(ix), r)
    ensures r.Fine? ==> Ready(ix, op, Record(Planned, Merge(drained, kept)))
    ensures r.Fine? ==>
            ix.postings == old(ix.postings)[drained := old(ix.postings)[drained].(state := Draining)] && Replaceable(ix)
    ensures r.Fine? ==> Behind(ix.snap, [], changed, ix.postings, ix.centres, ix.dim)
  {
    hide PartsOk, PlanOk, AllGood, RulesOf, Since, Behind, Agrees, Settled, MarksTrue;
    changed := [];
    SinceNow(PastOf(ix));
    MayPlanMerge(ix, op, drained, kept);
    CurrentIsBehindNothing(ix);
    :- WriteRecord(ix, op, Record(Planned, Merge(drained, kept)), One(op, Record(Planned, Merge(drained, kept))));
    MayDrain(ix, op, Record(Planned, Merge(drained, kept)));
    r, changed := StorePosting(ix, ix.snap, [], changed, drained, ix.postings[drained].(state := Draining));
  }

  /** Fold one posting into another, from the record to its deletion. */
  method Fold(ix: Index, op: nat, drained: nat, kept: nat) returns (r: Outcome)
    requires Resting(ix) && IsActive(ix.postings, drained) && IsActive(ix.postings, kept) && drained != kept
    modifies ix`docs, ix`queue, ix`lost, ix`log, ix`counts, ix`budget, ix`kept, ix`requests, ix`journal, ix`plan,
             ix`postings, ix`snap, ix`entered, ix`unsplittable, ix`unmergeable
    ensures ix.Safe() && !r.Corrupt? && Spent(old(ix.budget), ix.budget, r) && Since(old(PastOf(ix)), PastOf(ix), r)
    ensures r.Fine? ==> Resting(ix) && ix.postings == Retiring(old(ix.postings), drained)
    ensures r.Fine? ==> drained in old(ix.snap).postings
    ensures r.Fine? ==>
              MergeEffect(ix.space, ix.ops, old(ix.snap), drained, kept, old(ix.Alone()), Now(old(ix.log)), Now(ix.log))
  {
    hide PartsOk, PlanOk, AllGood, RulesOf, Since, Behind, Agrees, Settled, MarksTrue, Spared, Interfered, CarriedOut,
         MergeEffect, Index.Sound, Index.SnapOk, Index.Routed;
    ghost var past, snap, alone, was := PastOf(ix), ix.snap, ix.Alone(), Now(ix.log);
    var changed :- PrepareMerge(ix, op, drained, kept);
    ghost var past1, prepared := PastOf(ix), Snapshot(ix.postings, ix.centres);
    r := CarryOut(ix, op, Record(Planned, Merge(drained, kept)), [], changed);
    SinceCompose(past, past1, PastOf(ix), r);
    if r.Fine? {
      MergeCarriedOut(ix.space, ix.ops, snap, prepared, ix.snap, drained, kept, alone, was, Now(ix.log));
    }
  }

  lemma MergeCarriedOut(space: G.Space, ops: Settings, s: Snapshot, prepared: Snapshot, s': Snapshot, drained: nat,
                        kept: nat, alone: bool, v: Vec, v': Vec)
    requires drained in s.postings && CarriedOut(space, ops, Merge(drained, kept), prepared, s', alone, v, v')
    requires prepared == s.(postings := s.postings[drained := s.postings[drained].(state := Draining)])
    ensures MergeEffect(space, ops, s, drained, kept, alone, v, v')
  {
  }

  /** Two different active postings, one of them `posting` at or under the merge
      limit and the other the first of those near it that fits together with it
      under the split limit; the smaller of them is drained, on a tie `posting`. */
  ghost predicate Mergeable(space: G.Space, ops: Settings, at: Found, posting: nat, drained: nat, kept: nat) {
    && drained != kept
    && IsActive(at.snap.postings, drained)
    && IsActive(at.snap.postings, kept)
    && HasCentre(at.snap, posting)
    && ChunksOf(at.counts, posting) <= ops.mergeLimit
    && (var partner := if posting == drained then kept else drained;
        && partner in MergeCandidates(at.snap, space, posting)
        && ChunksOf(at.counts, posting) + ChunksOf(at.counts, partner) < ops.splitLimit
        && HasCentre(at.snap, partner)
        && (forall q :: q in CloserThan(at.snap, space, CentreOf(at.snap, posting), Routable(at.snap) - {posting},
              partner) ==>
              ChunksOf(at.counts, posting) + ChunksOf(at.counts, q) >= ops.splitLimit)
        && if ChunksOf(at.counts, partner) >= ChunksOf(at.counts, posting) then drained == posting else kept == posting)
  }

  /** A merge of `a` made for `posting`. */
  ghost predicate MergeMade(ix: Index, a: Found, b: Found, posting: nat, drained: nat, kept: nat) {
    && Mergeable(ix.space, ix.ops, a, posting, drained, kept)
    && b.snap == Snapshot(Retiring(a.snap.postings, drained), a.snap.centres)
    && MergeEffect(ix.space, ix.ops, a.snap, drained, kept, a.alone, a.vec, b.vec)
    && (a.alone ==> b.alone)
  }

  /** `mark_unmergeable`. */
  method MarkUnmergeable(ix: Index, posting: nat)
    requires Resting(ix) && NoRoom(ix.space, ix.ops.splitLimit, FoundNow(ix), posting)
    modifies ix`unmergeable, ix`declined
    ensures Resting(ix)
    ensures ix.unmergeable == old(ix.unmergeable)[posting := ChunksOf(ix.counts, posting)]
    ensures ix.declined == old(ix.declined)[posting := FoundNow(ix)]
  {
    hide PartsOk, PlanOk, AllGood, RulesOf, Agrees, Settled, RefusalsTrue, DeclinesTrue, NoRoom, Index.Sound,
         Index.SnapOk, Index.Routed;
    Decline(ix.space, ix.ops.splitLimit, ix.unmergeable, ix.declined, posting, FoundNow(ix));
    ix.unmergeable := ix.unmergeable[posting := ChunksOf(ix.counts, posting)];
    ix.declined := ix.declined[posting := FoundNow(ix)];
  }

  /** Fold one posting into another, for the one that looked for room. */
  method FoldFor(ix: Index, posting: nat, drained: nat, kept: nat) returns (r: Outcome)
    requires Resting(ix) && Mergeable(ix.space, ix.ops, FoundNow(ix), posting, drained, kept)
    modifies ix`docs, ix`queue, ix`lost, ix`log, ix`counts, ix`budget, ix`kept, ix`requests, ix`journal, ix`plan,
             ix`postings, ix`snap, ix`entered, ix`unsplittable, ix`unmergeable
    ensures ix.Safe() && !r.Corrupt? && Spent(old(ix.budget), ix.budget, r) && Since(old(PastOf(ix)), PastOf(ix), r)
    ensures r.Fine? ==> Resting(ix) && MergeMade(ix, old(FoundNow(ix)), FoundNow(ix), posting, drained, kept)
  {
    hide PartsOk, PlanOk, AllGood, RulesOf, Since, Agrees, Settled, MergeCandidates, ActiveCentres, Retiring, Spared,
         MarksTrue, MergeEffect, Index.Sound, Index.SnapOk, Index.Routed;
    ghost var past := PastOf(ix);
    r := Fold(ix, NextOpId(ix.journal), drained, kept);
    if r.Fine? && past.requests == [] {
      StaysAlone(past, ix);
    }
  }

  /** `merge_locked`: fold a posting at or under the merge limit into the first
      near one with room, keeping the larger of the two. */
  method MergeLocked(ix: Index, posting: nat) returns (r: Outcome, done: bool)
    requires Resting(ix)
    modifies ix`docs, ix`queue, ix`lost, ix`log, ix`counts, ix`budget, ix`kept, ix`requests, ix`journal, ix`plan,
             ix`postings, ix`snap, ix`entered, ix`unsplittable, ix`unmergeable, ix`declined
    ensures ix.Safe() && !r.Corrupt? && Spent(old(ix.budget), ix.budget, r) && Since(old(PastOf(ix)), PastOf(ix), r)
    ensures r.Fine? ==> Resting(ix)
    ensures r.Fine? && !done ==> OnlyMarks(ix) && ix.unsplittable == old(ix.unsplittable)
    ensures r.Fine? && !done && IsActive(ix.postings, posting) && ChunksOf(ix.counts, posting) <= ix.ops.mergeLimit ==>
              ix.unmergeable == old(ix.unmergeable)[posting := ChunksOf(ix.counts, posting)]
    ensures done <==>
            && old(IsActive(ix.postings, posting)) && ChunksOf(old(ix.counts), posting) <= ix.ops.mergeLimit
            && !Marked(old(ix.unmergeable), posting, ChunksOf(old(ix.counts), posting))
            && !NoRoom(ix.space, ix.ops.splitLimit, old(FoundNow(ix)), posting)
    ensures r.Fine? && !done && ix.unmergeable != old(ix.unmergeable) ==>
              NoRoom(ix.space, ix.ops.splitLimit, FoundNow(ix), posting)
                && ix.declined == old(ix.declined)[posting := FoundNow(ix)]
              && ix.unmergeable == old(ix.unmergeable)[posting := ChunksOf(ix.counts, posting)]
    ensures done || ix.unmergeable == old(ix.unmergeable) ==> ix.declined == old(ix.declined)
    ensures r.Fine? && done ==>
              exists drained, kept :: MergeMade(ix, old(FoundNow(ix)), FoundNow(ix), posting, drained, kept)
  {
    hide PartsOk, PlanOk, AllGood, RulesOf, Since, Agrees, Settled, Index.Sound, MergeCandidates, ActiveCentres,
         Retiring, Spared, MarksTrue, MergeMade, Index.SnapOk, Index.Routed, MergeEffect;
    SinceNow(PastOf(ix));
    done := false;
    if posting !in ix.snap.postings || !ix.snap.postings[posting].state.Active? {
      return Fine, done;
    }
    var chunks := ChunksOf(ix.counts, posting);
    if chunks > ix.ops.mergeLimit || Marked(ix.unmergeable, posting, chunks) {
      assert Marked(ix.unmergeable, posting, chunks) ==> ix.unmergeable[posting := chunks] == ix.unmergeable;
      return Fine, done;
    }
    assert HasCentre(ix.snap, posting) by { CentresExist(ix); }
    var partner := FirstWithRoom(ix.counts, MergeCandidates(ix.snap, ix.space, posting), chunks, ix.ops.splitLimit);
    if partner.None? {
      MarkUnmergeable(ix, posting);
      return Fine, done;
    }
    FirstIsClosest(ix.snap, ix.space, ix.counts, posting, chunks, ix.ops.splitLimit);
    var (drained, kept) := if ChunksOf(ix.counts, partner.value) >= chunks then (posting, partner.value)
      else (partner.value, posting);
    done := true;
    assert Mergeable(ix.space, ix.ops, FoundNow(ix), posting, drained, kept);
    r := FoldFor(ix, posting, drained, kept);
  }

  lemma CentresExist(ix: Index)
    requires ix.Safe() && Current(ix)
    ensures forall p :: p in ix.snap.postings ==> HasCentre(ix.snap, p)
  {
  }

  // ── the loop ──

  function Sized(t: Table, ids: seq<nat>): (r: seq<G.Ranked>)
    ensures |r| == |ids| && forall i :: 0 <= i < |r| ==> r[i] == (ChunksOf(t, ids[i]) as real, ids[i])
  {
    seq(|ids|, i requires 0 <= i < |ids| => (ChunksOf(t, ids[i]) as real, ids[i]))
  }

  /** `ids` by size, then id: the smallest first. */
  function SmallestFirst(t: Table, ids: seq<nat>): (r: seq<nat>)
    ensures |r| == |ids|
  {
    var sorted := G.SortRanked(Sized(t, ids));
    seq(|sorted|, i requires 0 <= i < |sorted| => sorted[i].1)
  }

  function LargestFirst(t: Table, ids: seq<nat>): (r: seq<nat>)
    ensures |r| == |ids|
  {
    var s := SmallestFirst(t, ids);
    seq(|s|, i requires 0 <= i < |s| => s[|s| - 1 - i])
  }

  lemma SortKeepsAll(t: Table, ids: seq<nat>, p: nat)
    ensures p in ids <==> p in SmallestFirst(t, ids)
    ensures p in ids <==> p in LargestFirst(t, ids)
  {
    hide G.SortRanked;
    var (sized, small, large) := (Sized(t, ids), SmallestFirst(t, ids), LargestFirst(t, ids));
    var sorted := G.SortRanked(sized);
    G.SortIsSortedPermutation(sized);
    if p in ids {
      var i :| 0 <= i < |ids| && ids[i] == p;
      assert sized[i] in multiset(sized) && sized[i] in multiset(sorted);
      var k :| 0 <= k < |sorted| && sorted[k] == sized[i];
      assert small[k] == p;
    }
    if p in small {
      var k :| 0 <= k < |small| && small[k] == p;
      assert sorted[k] in multiset(sorted) && sorted[k] in multiset(sized);
      var i :| 0 <= i < |sized| && sized[i] == sorted[k];
      assert ids[i] == p;
    }
    BackwardsKeepsAll(small, large, p);
  }

  lemma BackwardsKeepsAll(s: seq<nat>, r: seq<nat>, p: nat)
    requires |r| == |s| && forall i :: 0 <= i < |s| ==> r[i] == s[|s| - 1 - i]
    ensures p in s <==> p in r
  {
    if p in s {
      var k :| 0 <= k < |s| && s[k] == p;
      assert r[|s| - 1 - k] == p;
    }
    if p in r {
      var k :| 0 <= k < |r| && r[k] == p;
      assert s[|s| - 1 - k] == p;
    }
  }

  /** Each is no smaller than the one before, and on a tie of a greater id. */
  lemma SmallestFirstAscends(t: Table, ids: seq<nat>, i: nat, j: nat)
    requires i < j < |ids|
    ensures var s := SmallestFirst(t, ids);
            ChunksOf(t, s[i]) < ChunksOf(t, s[j]) || (ChunksOf(t, s[i]) == ChunksOf(t, s[j]) && s[i] <= s[j])
    ensures var l := LargestFirst(t, ids); ChunksOf(t, l[i]) >= ChunksOf(t, l[j])
  {
    SizesSorted(t, ids, i, j);
    SizesSorted(t, ids, |ids| - 1 - j, |ids| - 1 - i);
  }

  lemma SizesSorted(t: Table, ids: seq<nat>, i: nat, j: nat)
    requires i < j < |ids|
    ensures var s := SmallestFirst(t, ids);
            ChunksOf(t, s[i]) < ChunksOf(t, s[j]) || (ChunksOf(t, s[i]) == ChunksOf(t, s[j]) && s[i] <= s[j])
  {
    var sized := Sized(t, ids);
    var sorted := G.SortRanked(sized);
    G.SortIsSortedPermutation(sized);
    SizedIs(t, ids, i);
    SizedIs(t, ids, j);
    assert G.Before(sorted[i], sorted[j]);
  }

  lemma SizedIs(t: Table, ids: seq<nat>, i: nat)
    requires i < |ids|
    ensures G.SortRanked(Sized(t, ids))[i] == (ChunksOf(t, SmallestFirst(t, ids)[i]) as real, SmallestFirst(t, ids)[i])
  {
    var sized := Sized(t, ids);
    var sorted := G.SortRanked(sized);
    G.SortIsSortedPermutation(sized);
    assert sorted[i] in multiset(sorted) && sorted[i] in multiset(sized);
    var k :| 0 <= k < |sized| && sized[k] == sorted[i];
  }

  function ActiveIds(s: Snapshot): set<nat> {
    set p | p in s.postings && s.postings[p].state.Active?
  }

  function NotRetired(s: Snapshot): set<nat> {
    set p | p in s.postings && !s.postings[p].state.Retired?
  }

  /** No split is left to make of `p`: it is within the limit, or 2-means refused what
      it held when it was last tried with as many chunks as the table or storage has. */
  ghost predicate NoSplit(ix: Index, p: nat)
    reads ix
  {
    || ChunksOf(ix.counts, p) <= ix.ops.splitLimit
    || |StoredCodes(Now(ix.log), p)| <= ix.ops.splitLimit
    || (&& p in ix.refused
        && |StoredCodes(ix.refused[p].vec, p)| in {ChunksOf(ix.counts, p), |StoredCodes(Now(ix.log), p)|}
        && NoHalves(ix.twoMeans, ix.ops.mergeLimit, ix.refused[p], p))
  }

  /** No merge is left to make of `p`: it is above the limit, or when it last tried
      with as many chunks no near posting had room. */
  ghost predicate NoMerge(ix: Index, p: nat)
    reads ix
  {
    || ChunksOf(ix.counts, p) > ix.ops.mergeLimit
    || (p in ix.declined && ChunksOf(ix.declined[p].counts, p) == ChunksOf(ix.counts, p)
        && NoRoom(ix.space, ix.ops.splitLimit, ix.declined[p], p))
  }

  // ── the way the partition goes ──

  /** One split, or one merge, made of `a`. */
  ghost predicate Made(ix: Index, a: Found, b: Found) {
    || (exists p, cs :: SplitMade(ix, a, b, p, cs))
    || (exists p, drained, kept :: MergeMade(ix, a, b, p, drained, kept))
  }

  /** A way to a partition: each on it made of the one before, the last this one, and
      each with the sizes a recount of it gives. */
  ghost predicate GoesTo(ix: Index, way: seq<Found>, at: Found) {
    && way != []
    && way[|way| - 1] == at
    && (forall k :: 0 < k < |way| ==> Made(ix, way[k - 1], way[k]))
    && (forall k :: 0 <= k < |way| ==> Agrees(way[k].counts, way[k].vec))
  }

  /** The partitions maintenance has gone through, up to the present one. */
  ghost predicate Leads(way: seq<Found>, ix: Index)
    reads ix
  {
    GoesTo(ix, way, FoundNow(ix))
  }

  lemma GoesOn(ix: Index, way: seq<Found>, a: Found, b: Found)
    requires GoesTo(ix, way, a) && Made(ix, a, b) && Agrees(b.counts, b.vec)
    ensures GoesTo(ix, way + [b], b)
  {
    hide Made, Agrees;
  }

  /** Where each posting was refused or declined lies on the way, or was known before. */
  ghost predicate SeenOn(way: seq<Found>, before: map<nat, Found>, seen: map<nat, Found>) {
    forall p :: p in seen ==> seen[p] in way || (p in before && before[p] == seen[p])
  }

  lemma NoneSeen(way: seq<Found>, seen: map<nat, Found>)
    ensures SeenOn(way, seen, seen)
  {
  }

  lemma SeenFurther(way: seq<Found>, more: Found, before: map<nat, Found>, seen: map<nat, Found>)
    requires SeenOn(way, before, seen)
    ensures SeenOn(way + [more], before, seen)
  {
  }

  lemma SeenHere(ix: Index, way: seq<Found>, at: Found, before: map<nat, Found>, seen: map<nat, Found>,
                 seen': map<nat, Found>)
    requires GoesTo(ix, way, at) && SeenOn(way, before, seen) && SeenOn([at], seen, seen')
    ensures SeenOn(way, before, seen')
  {
    hide Made, Agrees;
    assert at in way;
  }

  /** In `at` no split is left to make of `p`: it is within the limit, or 2-means has
      refused it at that size. */
  ghost predicate Undivided(ix: Index, at: Found, p: nat) {
    || ChunksOf(at.counts, p) <= ix.ops.splitLimit
    || |StoredCodes(at.vec, p)| <= ix.ops.splitLimit
    || exists f: Found :: && NoHalves(ix.twoMeans, ix.ops.mergeLimit, f, p)
                          && |StoredCodes(f.vec, p)| in {ChunksOf(at.counts, p), |StoredCodes(at.vec, p)|}
  }

  /** In `at` no merge is left to make of `p`: it is above the limit, or it found no room
      at that size. */
  ghost predicate Unmerged(ix: Index, at: Found, p: nat) {
    || ChunksOf(at.counts, p) > ix.ops.mergeLimit
    || exists f: Found :: && NoRoom(ix.space, ix.ops.splitLimit, f, p)
                          && ChunksOf(f.counts, p) == ChunksOf(at.counts, p)
  }

  /** `b` is `a` split at the first of `over` that can be. */
  ghost predicate FirstSplit(ix: Index, a: Found, b: Found, over: seq<nat>) {
    exists k, cs :: 0 <= k < |over| && SplitMade(ix, a, b, over[k], cs)
                    && forall j :: 0 <= j < k ==> Undivided(ix, a, over[j])
  }

  /** `b` is `a` with a merge made for the first of `under` for which one can be. */
  ghost predicate FirstMerge(ix: Index, a: Found, b: Found, under: seq<nat>) {
    exists k, drained, kept :: 0 <= k < |under| && MergeMade(ix, a, b, under[k], drained, kept)
                               && forall j :: 0 <= j < k ==> Unmerged(ix, a, under[j])
  }

  lemma SplitIsFirst(ix: Index, a: Found, b: Found, over: seq<nat>, k: nat, cs: (Point, Point))
    requires k < |over| && SplitMade(ix, a, b, over[k], cs) && forall p :: p in over[..k] ==> Undivided(ix, a, p)
    ensures FirstSplit(ix, a, b, over)
  {
    hide SplitMade, Undivided;
    forall j | 0 <= j < k ensures Undivided(ix, a, over[j]) {
      assert over[..k][j] == over[j];
    }
  }

  lemma MergeIsFirst(ix: Index, a: Found, b: Found, under: seq<nat>, k: nat, drained: nat, kept: nat)
    requires k < |under| && MergeMade(ix, a, b, under[k], drained, kept)
    requires forall p :: p in under[..k] ==> Unmerged(ix, a, p)
    ensures FirstMerge(ix, a, b, under)
  {
    hide MergeMade, Unmerged;
    forall j | 0 <= j < k ensures Unmerged(ix, a, under[j]) {
      assert under[..k][j] == under[j];
    }
  }

  lemma NoSplitIsUndivided(ix: Index, p: nat)
    requires NoSplit(ix, p)
    ensures Undivided(ix, FoundNow(ix), p)
  {
    hide NoHalves, StoredCodes;
  }

  lemma NoMergeIsUnmerged(ix: Index, p: nat)
    requires NoMerge(ix, p)
    ensures Unmerged(ix, FoundNow(ix), p)
  {
    hide NoRoom;
  }

  datatype Exit = Stopped | Capped | Finished

  /** What a pass has done, and how many more checks will not see a stop, if one is
      coming. */
  datatype Progress = Progress(stopped: bool, done: nat, patience: Option<nat>)

  function OneLess(patience: Option<nat>): Option<nat>
    requires patience != Some(0)
  {
    if patience.Some? then Some(patience.value - 1) else None
  }

  function RetiredIds(postings: map<nat, Posting>): set<nat> {
    set p | p in postings && postings[p].state.Retired?
  }

  lemma SplitRetiresOne(postings: map<nat, Posting>, split: Op, cs: (Point, Point))
    requires split.Split? && IsActive(postings, split.posting)
    requires split.children.0 !in postings && split.children.1 !in postings
    ensures |RetiredIds(Retiring(Halved(postings, split, cs), split.posting))| == |RetiredIds(postings)| + 1
  {
    var after := Retiring(Halved(postings, split, cs), split.posting);
    assert RetiredIds(after) == RetiredIds(postings) + {split.posting};
  }

  lemma RetiringRetiresOne(postings: map<nat, Posting>, p: nat)
    requires IsActive(postings, p)
    ensures |RetiredIds(Retiring(postings, p))| == |RetiredIds(postings)| + 1
  {
    assert RetiredIds(Retiring(postings, p)) == RetiredIds(postings) + {p};
  }

  /** One posting of a pass. */
  method SplitOne(ix: Index, posting: nat) returns (r: Outcome, o: SplitOutcome)
    requires Resting(ix)
    modifies ix`docs, ix`queue, ix`lost, ix`log, ix`counts, ix`budget, ix`kept, ix`requests, ix`journal, ix`plan,
             ix`centres, ix`postings, ix`snap, ix`entered, ix`unsplittable, ix`unmergeable, ix`refused
    ensures ix.Safe() && !r.Corrupt? && Spent(old(ix.budget), ix.budget, r) && Since(old(PastOf(ix)), PastOf(ix), r)
    ensures r.Fine? ==> Resting(ix)
    ensures r.Fine? && !o.Done? ==> OnlyMarks(ix) && ix.unmergeable == old(ix.unmergeable)
    ensures r.Fine? && !o.Done? && IsActive(ix.postings, posting) ==> NoSplit(ix, posting)
    ensures r.Fine? && !o.Done? ==> forall p :: old(NoSplit(ix, p)) ==> NoSplit(ix, p)
    ensures r.Fine? && !o.Done? ==> SeenOn([FoundNow(ix)], old(ix.refused), ix.refused)
    ensures r.Fine? && o.Done? ==> ix.refused == old(ix.refused) && Made(ix, old(FoundNow(ix)), FoundNow(ix))
    ensures r.Fine? && o.Done? ==> exists cs :: SplitMade(ix, old(FoundNow(ix)), FoundNow(ix), posting, cs)
    ensures r.Fine? ==> |RetiredIds(ix.postings)| == |RetiredIds(old(ix.postings))| + if o.Done? then 1 else 0
  {
    hide PartsOk, PlanOk, AllGood, RulesOf, Since, Agrees, Settled, Retiring, Halved, Centred, Index.Sound,
         DeclinesTrue, StoredCodes, SplitEffect, Index.SnapOk, Index.Routed;
    FreshChildren(ix, posting);
    ghost var split, halves, postings, at :=
      SplitOf(ix.snap, posting), ix.twoMeans(posting, NextOpId(map[]), StoredCodes(Now(ix.log), posting)), ix.postings,
      FoundNow(ix);
    r, o := SplitLocked(ix, posting);
    if r.Fine? && o.Done? {
      assert SplitMade(ix, at, FoundNow(ix), posting, halves.value.centres);
      SplitRetiresOne(postings, split, halves.value.centres);
    }
  }

  lemma RestingIsSafe(ix: Index)
    requires Resting(ix)
    ensures ix.Safe() && Agrees(ix.counts, Now(ix.log))
  {
  }

  /** One pass over the postings to split. A stop, if one is asked for, is seen at the
      check after `patience` others. */
  method SplitPass(ix: Index, over: seq<nat>, patience: Option<nat>, ghost way: seq<Found>)
    returns (r: Outcome, t: Progress, ghost went: seq<Found>)
    requires Resting(ix) && Leads(way, ix) && forall p :: p in over ==> IsActive(ix.postings, p)
    modifies ix`docs, ix`queue, ix`lost, ix`log, ix`counts, ix`budget, ix`kept, ix`requests, ix`journal, ix`plan,
             ix`centres, ix`postings, ix`snap, ix`entered, ix`unsplittable, ix`unmergeable, ix`refused
    ensures ix.Safe() && !r.Corrupt? && Spent(old(ix.budget), ix.budget, r) && Since(old(PastOf(ix)), PastOf(ix), r)
    ensures r.Fine? ==> Resting(ix)
    ensures r.Fine? ==> |RetiredIds(ix.postings)| == |RetiredIds(old(ix.postings))| + t.done
    ensures r.Fine? && t.done == 0 ==> OnlyMarks(ix) && ix.unmergeable == old(ix.unmergeable)
    ensures r.Fine? && t.done == 0 && !t.stopped ==> forall p :: p in over || old(NoSplit(ix, p)) ==> NoSplit(ix, p)
    ensures r.Fine? ==> SeenOn(went, old(ix.refused), ix.refused)
    ensures r.Fine? ==> Leads(went, ix) && way <= went && |went| == |way| + t.done
    ensures r.Fine? && t.done > 0 ==> FirstSplit(ix, old(FoundNow(ix)), went[|way|], over)
    ensures patience.None? ==> t.patience.None? && !t.stopped
  {
    hide PartsOk, PlanOk, AllGood, RulesOf, Since, Agrees, Settled, NoSplit, Made, MarksTrue, SplitMade, Undivided,
         FirstSplit, Resting, Current, GoesTo, SeenOn, Index.Sound, Index.SnapOk, Index.Routed;
    t, went := Progress(false, 0, patience), way;
    SinceNow(PastOf(ix));
    RestingIsSafe(ix);
    NoneSeen(went, ix.refused);
    for k := 0 to |over|
      invariant Spent(old(ix.budget), ix.budget, Fine)
      invariant ix.Safe() && Resting(ix) && Since(old(PastOf(ix)), PastOf(ix), Fine) && !t.stopped
      invariant |RetiredIds(ix.postings)| == |RetiredIds(old(ix.postings))| + t.done
      invariant t.done == 0 ==> OnlyMarks(ix) && ix.unmergeable == old(ix.unmergeable)
      invariant t.done == 0 ==> forall p :: p in over[..k] || old(NoSplit(ix, p)) ==> NoSplit(ix, p)
      invariant t.done == 0 ==> forall p :: p in over[..k] ==> Undivided(ix, old(FoundNow(ix)), p)
      invariant SeenOn(went, old(ix.refused), ix.refused)
      invariant Leads(went, ix) && way <= went && |went| == |way| + t.done
      invariant t.done > 0 ==> FirstSplit(ix, old(FoundNow(ix)), went[|way|], over)
      invariant patience.None? ==> t.patience.None?
    {
      if t.patience == Some(0) {
        t := t.(stopped := true);
        return Fine, t, went;
      }
      ghost var past, at, seen := PastOf(ix), FoundNow(ix), ix.refused;
      var o;
      r, o := SplitOne(ix, over[k]);
      SinceCompose(old(PastOf(ix)), past, PastOf(ix), r);
      if !r.Fine? {
        return;
      }
      RestingIsSafe(ix);
      if o.Done? {
        if t.done == 0 {
          ghost var cs :| SplitMade(ix, old(FoundNow(ix)), FoundNow(ix), over[k], cs);
          SplitIsFirst(ix, old(FoundNow(ix)), FoundNow(ix), over, k, cs);
        }
        GoesOn(ix, went, at, FoundNow(ix));
        SeenFurther(went, FoundNow(ix), old(ix.refused), seen);
        went := went + [FoundNow(ix)];
      } else {
        SeenHere(ix, went, at, old(ix.refused), seen, ix.refused);
        if t.done == 0 {
          NoSplitIsUndivided(ix, over[k]);
        }
      }
      t := Progress(false, t.done + if o.Done? then 1 else 0, OneLess(t.patience));
      assert over[..k + 1] == over[..k] + [over[k]];
    }
    assert over[..|over|] == over;
    r := Fine;
  }

  /** One posting of a pass. */
  method MergeOne(ix: Index, posting: nat) returns (r: Outcome, done: bool)
    requires Resting(ix)
    modifies ix`docs, ix`queue, ix`lost, ix`log, ix`counts, ix`budget, ix`kept, ix`requests, ix`journal, ix`plan,
             ix`postings, ix`snap, ix`entered, ix`unsplittable, ix`unmergeable, ix`declined
    ensures ix.Safe() && !r.Corrupt? && Spent(old(ix.budget), ix.budget, r) && Since(old(PastOf(ix)), PastOf(ix), r)
    ensures r.Fine? ==> Resting(ix)
    ensures r.Fine? && !done ==> OnlyMarks(ix) && ix.unsplittable == old(ix.unsplittable)
    ensures r.Fine? && !done && IsActive(ix.postings, posting) ==> NoMerge(ix, posting)
    ensures r.Fine? && !done ==> forall p :: old(NoMerge(ix, p)) ==> NoMerge(ix, p)
    ensures r.Fine? && !done ==> SeenOn([FoundNow(ix)], old(ix.declined), ix.declined)
    ensures done ==> ix.declined == old(ix.declined)
    ensures r.Fine? && done ==> Made(ix, old(FoundNow(ix)), FoundNow(ix))
    ensures r.Fine? && done ==>
              exists drained, kept :: MergeMade(ix, old(FoundNow(ix)), FoundNow(ix), posting, drained, kept)
    ensures r.Fine? ==> |RetiredIds(ix.postings)| == |RetiredIds(old(ix.postings))| + if done then 1 else 0
  {
    hide PartsOk, PlanOk, AllGood, RulesOf, Since, Agrees, Settled, Retiring, NoRoom, RefusalsTrue;
    ghost var postings, at := ix.postings, FoundNow(ix);
    r, done := MergeLocked(ix, posting);
    if r.Fine? && done {
      ghost var drained: nat, kept: nat :| MergeMade(ix, at, FoundNow(ix), posting, drained, kept);
      RetiringRetiresOne(postings, drained);
    }
  }

  /** One pass over the postings to merge. */
  method MergePass(ix: Index, under: seq<nat>, patience: Option<nat>, ghost way: seq<Found>)
    returns (r: Outcome, t: Progress, ghost went: seq<Found>)
    requires Resting(ix) && Leads(way, ix) && forall p :: p in under ==> IsActive(ix.postings, p)
    modifies ix`docs, ix`queue, ix`lost, ix`log, ix`counts, ix`budget, ix`kept, ix`requests, ix`journal, ix`plan,
             ix`postings, ix`snap, ix`entered, ix`unsplittable, ix`unmergeable, ix`declined
    ensures ix.Safe() && !r.Corrupt? && Spent(old(ix.budget), ix.budget, r) && Since(old(PastOf(ix)), PastOf(ix), r)
    ensures r.Fine? ==> Resting(ix)
    ensures r.Fine? ==> |RetiredIds(ix.postings)| == |RetiredIds(old(ix.postings))| + t.done
    ensures r.Fine? && t.done == 0 ==> OnlyMarks(ix) && ix.unsplittable == old(ix.unsplittable)
    ensures r.Fine? && t.done == 0 && !t.stopped ==> forall p :: p in under || old(NoMerge(ix, p)) ==> NoMerge(ix, p)
    ensures r.Fine? ==> Leads(went, ix) && way <= went && |went| == |way| + t.done
    ensures r.Fine? && t.done > 0 ==> FirstMerge(ix, old(FoundNow(ix)), went[|way|], under)
    ensures patience.None? ==> t.patience.None? && !t.stopped
    ensures r.Fine? ==> SeenOn(went, old(ix.declined), ix.declined)
  {
    hide PartsOk, PlanOk, AllGood, RulesOf, Since, Agrees, Settled, NoMerge, Made, MarksTrue, MergeMade, Unmerged,
         FirstMerge, Resting, Current, GoesTo, SeenOn, Index.Sound, Index.SnapOk, Index.Routed;
    t, went := Progress(false, 0, patience), way;
    SinceNow(PastOf(ix));
    RestingIsSafe(ix);
    NoneSeen(went, ix.declined);
    for k := 0 to |under|
      invariant Spent(old(ix.budget), ix.budget, Fine)
      invariant ix.Safe() && Resting(ix) && Since(old(PastOf(ix)), PastOf(ix), Fine) && !t.stopped
      invariant |RetiredIds(ix.postings)| == |RetiredIds(old(ix.postings))| + t.done
      invariant t.done == 0 ==> OnlyMarks(ix) && ix.unsplittable == old(ix.unsplittable)
      invariant t.done == 0 ==> forall p :: p in under[..k] || old(NoMerge(ix, p)) ==> NoMerge(ix, p)
      invariant Leads(went, ix) && way <= went && |went| == |way| + t.done
      invariant t.done == 0 ==> forall p :: p in under[..k] ==> Unmerged(ix, old(FoundNow(ix)), p)
      invariant t.done > 0 ==> FirstMerge(ix, old(FoundNow(ix)), went[|way|], under)
      invariant patience.None? ==> t.patience.None?
      invariant SeenOn(went, old(ix.declined), ix.declined)
    {
      if t.patience == Some(0) {
        t := t.(stopped := true);
        return Fine, t, went;
      }
      ghost var past, at, seen := PastOf(ix), FoundNow(ix), ix.declined;
      var done;
      r, done := MergeOne(ix, under[k]);
      SinceCompose(old(PastOf(ix)), past, PastOf(ix), r);
      if !r.Fine? {
        return;
      }
      RestingIsSafe(ix);
      if done {
        if t.done == 0 {
          ghost var drained: nat, kept: nat :|
            MergeMade(ix, old(FoundNow(ix)), FoundNow(ix), under[k], drained, kept);
          MergeIsFirst(ix, old(FoundNow(ix)), FoundNow(ix), under, k, drained, kept);
        }
        GoesOn(ix, went, at, FoundNow(ix));
        SeenFurther(went, FoundNow(ix), old(ix.declined), seen);
        went := went + [FoundNow(ix)];
      } else {
        SeenHere(ix, went, at, old(ix.declined), seen, ix.declined);
        if t.done == 0 {
          NoMergeIsUnmerged(ix, under[k]);
        }
      }
      t := Progress(false, t.done + if done then 1 else 0, OneLess(t.patience));
      assert under[..k + 1] == under[..k] + [under[k]];
    }
    assert under[..|under|] == under;
    r := Fine;
  }

  /** The active postings over the split limit that may yet be divided. */
  function Over(ix: Index): (r: seq<nat>)
    reads ix
  {
    var ids := set p | p in ActiveIds(ix.snap) && ChunksOf(ix.counts, p) > ix.ops.splitLimit
                    && !Marked(ix.unsplittable, p, ChunksOf(ix.counts, p));
    LargestFirst(ix.counts, Ascending(ids))
  }

  function Under(ix: Index): (r: seq<nat>)
    reads ix
  {
    var ids := set p | p in ActiveIds(ix.snap) && ChunksOf(ix.counts, p) <= ix.ops.mergeLimit
                    && !Marked(ix.unmergeable, p, ChunksOf(ix.counts, p));
    SmallestFirst(ix.counts, Ascending(ids))
  }

  lemma OverIsTheRest(ix: Index, p: nat)
    requires Current(ix) && MarksTrue(ix)
    ensures p in Over(ix) ==> IsActive(ix.postings, p)
    ensures IsActive(ix.postings, p) ==> p in Over(ix) || NoSplit(ix, p)
  {
    var ids := set p | p in ActiveIds(ix.snap) && ChunksOf(ix.counts, p) > ix.ops.splitLimit
                    && !Marked(ix.unsplittable, p, ChunksOf(ix.counts, p));
    SortKeepsAll(ix.counts, Ascending(ids), p);
  }

  lemma UnderIsTheRest(ix: Index, p: nat)
    requires Current(ix) && MarksTrue(ix)
    ensures p in Under(ix) ==> IsActive(ix.postings, p)
    ensures IsActive(ix.postings, p) ==> p in Under(ix) || NoMerge(ix, p)
  {
    var ids := set p | p in ActiveIds(ix.snap) && ChunksOf(ix.counts, p) <= ix.ops.mergeLimit
                    && !Marked(ix.unmergeable, p, ChunksOf(ix.counts, p));
    SortKeepsAll(ix.counts, Ascending(ids), p);
  }

  /** No split and no merge is left to make. */
  ghost predicate AtFixpoint(ix: Index)
    reads ix
  {
    forall p :: IsActive(ix.postings, p) ==> NoSplit(ix, p) && NoMerge(ix, p)
  }

  /** At the fixpoint a posting at or under the merge limit has no room now, if and only
      if no posting near it now has room that has come near it, or shrunk, since it
      was declined. */
  lemma RoomOnlyIfChanged(ix: Index, p: nat)
    requires ix.Safe() && Current(ix) && AtFixpoint(ix)
    requires IsActive(ix.postings, p) && ChunksOf(ix.counts, p) <= ix.ops.mergeLimit
    ensures p in ix.declined && NoRoom(ix.space, ix.ops.splitLimit, ix.declined[p], p)
    ensures var (at, now) := (ix.declined[p], FoundNow(ix));
            NoRoom(ix.space, ix.ops.splitLimit, now, p) <==>
              forall q :: q in MergeCandidates(now.snap, ix.space, p) && IsNewOrSmaller(ix.space, at, now, p, q) ==>
                ChunksOf(now.counts, p) + ChunksOf(now.counts, q) >= ix.ops.splitLimit
  {
    hide PlanOk, AllGood, NoRoom, MergeCandidates, NoSplit;
    assert NoMerge(ix, p);
    CentresExist(ix);
    StillNoRoomIff(ix.space, ix.ops.splitLimit, ix.declined[p], FoundNow(ix), p);
  }

  /** So a mark can outlive its reason: posting 1 has one chunk and finds its only
      neighbour, 2, full with nine; 2 is split into halves of five and four, either of
      which has room, but the mark still stands. */
  lemma MarkOutlivesItsReason(space: G.Space) returns (at: Found, now: Found, cs: (Point, Point))
    ensures now.snap.postings == Retiring(Halved(at.snap.postings, SplitOf(at.snap, 2), cs), 2)
    ensures now.snap.centres == Centred(at.snap.centres, SplitOf(at.snap, 2), cs)
    ensures NoRoom(space, 10, at, 1) && !NoRoom(space, 10, now, 1)
    ensures Marked(map[1 := ChunksOf(at.counts, 1)], 1, ChunksOf(now.counts, 1))
  {
    hide MergeCandidates;
    var posting := Posting([], 0, Active, None, Root);
    var s := Snapshot(map[1 := posting, 2 := posting], map[0 := []]);
    at, cs := Found(s, map[1 := Size(1, 1), 2 := Size(1, 9)], map[], true), ([], []);
    var split := SplitOf(s, 2);
    var (a, b) := split.children;
    assert s.postings.Keys == {1, 2} && a != 1 && a != 2 && b != 1 && b != 2 && a != b;
    var s' := Snapshot(Retiring(Halved(s.postings, split, cs), 2), Centred(s.centres, split, cs));
    now := Found(s', map[1 := Size(1, 1), a := Size(1, 5), b := Size(1, 4)], map[], true);
    assert Routable(s) == {1, 2};
    CandidatesAreOthers(s, space, 1);
    ThreeRoutable(s, split, cs);
    FewAreAllCandidates(s', space, 1, a);
  }

  lemma ThreeRoutable(s: Snapshot, split: Op, cs: (Point, Point))
    requires split == SplitOf(s, 2) && Routable(s) == s.postings.Keys == {1, 2}
    ensures var s' := Snapshot(Retiring(Halved(s.postings, split, cs), 2), Centred(s.centres, split, cs));
            Routable(s') == {1, split.children.0, split.children.1}
  {
  }

  /** `b` is `a` with the largest posting split of those that can be. */
  ghost predicate LargestSplit(ix: Index, a: Found, b: Found) {
    exists p, cs :: && SplitMade(ix, a, b, p, cs)
                    && forall q :: IsActive(a.snap.postings, q) && ChunksOf(a.counts, q) > ChunksOf(a.counts, p) ==>
                                     Undivided(ix, a, q)
  }

  /** `b` is `a` with a merge made for the smallest posting of those for which one can be. */
  ghost predicate SmallestMerge(ix: Index, a: Found, b: Found) {
    exists p, drained, kept :: && MergeMade(ix, a, b, p, drained, kept)
                               && forall q :: IsActive(a.snap.postings, q) ==>
                                    ChunksOf(a.counts, q) < ChunksOf(a.counts, p) ==> Unmerged(ix, a, q)
  }

  lemma FirstIsLargest(ix: Index, b: Found)
    requires Current(ix) && MarksTrue(ix) && FirstSplit(ix, FoundNow(ix), b, Over(ix))
    ensures LargestSplit(ix, FoundNow(ix), b)
  {
    hide SplitMade, Undivided, NoSplit, Over, MarksTrue;
    var (a, over) := (FoundNow(ix), Over(ix));
    var k, cs :| 0 <= k < |over| && SplitMade(ix, a, b, over[k], cs)
                 && forall j :: 0 <= j < k ==> Undivided(ix, a, over[j]);
    forall q | IsActive(a.snap.postings, q) && ChunksOf(a.counts, q) > ChunksOf(a.counts, over[k])
      ensures Undivided(ix, a, q)
    {
      OverIsTheRest(ix, q);
      if q in over {
        var j :| 0 <= j < |over| && over[j] == q;
        if k < j {
          OverIsLargestFirst(ix, k, j);
        }
        assert j < k;
      } else {
        NoSplitIsUndivided(ix, q);
      }
    }
  }

  /** The postings over the limit are taken largest first, and those under it smallest
      first. */
  lemma OverIsLargestFirst(ix: Index, i: nat, j: nat)
    requires i < j < |Over(ix)|
    ensures ChunksOf(ix.counts, Over(ix)[i]) >= ChunksOf(ix.counts, Over(ix)[j])
  {
    var ids := set p | p in ActiveIds(ix.snap) && ChunksOf(ix.counts, p) > ix.ops.splitLimit
                    && !Marked(ix.unsplittable, p, ChunksOf(ix.counts, p));
    SmallestFirstAscends(ix.counts, Ascending(ids), i, j);
  }

  lemma UnderIsSmallestFirst(ix: Index, i: nat, j: nat)
    requires i < j < |Under(ix)|
    ensures ChunksOf(ix.counts, Under(ix)[i]) <= ChunksOf(ix.counts, Under(ix)[j])
  {
    var ids := set p | p in ActiveIds(ix.snap) && ChunksOf(ix.counts, p) <= ix.ops.mergeLimit
                    && !Marked(ix.unmergeable, p, ChunksOf(ix.counts, p));
    SmallestFirstAscends(ix.counts, Ascending(ids), i, j);
  }

  lemma FirstIsSmallest(ix: Index, b: Found)
    requires Current(ix) && MarksTrue(ix) && FirstMerge(ix, FoundNow(ix), b, Under(ix))
    ensures SmallestMerge(ix, FoundNow(ix), b)
  {
    hide MergeMade, Unmerged, NoMerge, Under, MarksTrue;
    var (a, under) := (FoundNow(ix), Under(ix));
    var k, drained, kept :| 0 <= k < |under| && MergeMade(ix, a, b, under[k], drained, kept)
                            && forall j :: 0 <= j < k ==> Unmerged(ix, a, under[j]);
    forall q | IsActive(a.snap.postings, q) && ChunksOf(a.counts, q) < ChunksOf(a.counts, under[k])
      ensures Unmerged(ix, a, q)
    {
      UnderIsTheRest(ix, q);
      if q in under {
        var j :| 0 <= j < |under| && under[j] == q;
        if k < j {
          UnderIsSmallestFirst(ix, k, j);
        }
        assert j < k;
      } else {
        NoMergeIsUnmerged(ix, q);
      }
    }
  }

  /** The first pass: the postings over the split limit, the largest first. */
  method SplitLargest(ix: Index, patience: Option<nat>, ghost way: seq<Found>)
    returns (r: Outcome, t: Progress, ghost went: seq<Found>)
    requires Resting(ix) && Leads(way, ix)
    modifies ix`docs, ix`queue, ix`lost, ix`log, ix`counts, ix`budget, ix`kept, ix`requests, ix`journal, ix`plan,
             ix`centres, ix`postings, ix`snap, ix`entered, ix`unsplittable, ix`unmergeable, ix`refused
    ensures ix.Safe() && !r.Corrupt? && Spent(old(ix.budget), ix.budget, r) && Since(old(PastOf(ix)), PastOf(ix), r)
    ensures r.Fine? ==> Resting(ix)
    ensures r.Fine? ==> |RetiredIds(ix.postings)| == |RetiredIds(old(ix.postings))| + t.done
    ensures r.Fine? && t.done == 0 ==> OnlyMarks(ix) && ix.unmergeable == old(ix.unmergeable)
    ensures r.Fine? && t.done == 0 && !t.stopped ==> forall p :: IsActive(ix.postings, p) ==> NoSplit(ix, p)
    ensures r.Fine? ==> SeenOn(went, old(ix.refused), ix.refused)
    ensures r.Fine? ==> Leads(went, ix) && way <= went && |went| == |way| + t.done
    ensures r.Fine? && t.done > 0 ==> LargestSplit(ix, old(FoundNow(ix)), went[|way|])
    ensures patience.None? ==> t.patience.None? && !t.stopped
  {
    hide PartsOk, PlanOk, AllGood, RulesOf, Since, Agrees, Settled, NoSplit, Over, Made, MarksTrue, FirstSplit,
         LargestSplit, Index.Sound, Index.SnapOk, Index.Routed;
    forall p
      ensures p in Over(ix) ==> IsActive(ix.postings, p)
      ensures IsActive(ix.postings, p) ==> p in Over(ix) || NoSplit(ix, p)
    {
      OverIsTheRest(ix, p);
    }
    forall b | FirstSplit(ix, FoundNow(ix), b, Over(ix)) ensures LargestSplit(ix, FoundNow(ix), b) {
      FirstIsLargest(ix, b);
    }
    r, t, went := SplitPass(ix, Over(ix), patience, way);
  }

  /** The second: those at or under the merge limit, the smallest first. */
  method MergeSmallest(ix: Index, patience: Option<nat>, ghost way: seq<Found>)
    returns (r: Outcome, t: Progress, ghost went: seq<Found>)
    requires Resting(ix) && Leads(way, ix)
    modifies ix`docs, ix`queue, ix`lost, ix`log, ix`counts, ix`budget, ix`kept, ix`requests, ix`journal, ix`plan,
             ix`postings, ix`snap, ix`entered, ix`unsplittable, ix`unmergeable, ix`declined
    ensures ix.Safe() && !r.Corrupt? && Spent(old(ix.budget), ix.budget, r) && Since(old(PastOf(ix)), PastOf(ix), r)
    ensures r.Fine? ==> Resting(ix)
    ensures r.Fine? ==> |RetiredIds(ix.postings)| == |RetiredIds(old(ix.postings))| + t.done
    ensures r.Fine? && t.done == 0 ==> OnlyMarks(ix) && ix.unsplittable == old(ix.unsplittable)
    ensures r.Fine? && t.done == 0 && !t.stopped ==> forall p :: IsActive(ix.postings, p) ==> NoMerge(ix, p)
    ensures r.Fine? ==> Leads(went, ix) && way <= went && |went| == |way| + t.done
    ensures r.Fine? && t.done > 0 ==> SmallestMerge(ix, old(FoundNow(ix)), went[|way|])
    ensures patience.None? ==> t.patience.None? && !t.stopped
    ensures r.Fine? ==> SeenOn(went, old(ix.declined), ix.declined)
  {
    hide PartsOk, PlanOk, AllGood, RulesOf, Since, Agrees, Settled, NoMerge, Under, Made, MarksTrue, FirstMerge,
         SmallestMerge, Index.Sound, Index.SnapOk, Index.Routed;
    forall p
      ensures p in Under(ix) ==> IsActive(ix.postings, p)
      ensures IsActive(ix.postings, p) ==> p in Under(ix) || NoMerge(ix, p)
    {
      UnderIsTheRest(ix, p);
    }
    forall b | FirstMerge(ix, FoundNow(ix), b, Under(ix)) ensures SmallestMerge(ix, FoundNow(ix), b) {
      FirstIsSmallest(ix, b);
    }
    r, t, went := MergePass(ix, Under(ix), patience, way);
  }

  /** What a round makes first: a split of the largest posting that can be split, or, if
      none can, a merge for the smallest posting for which one can be made. */
  ghost predicate MadeFirst(ix: Index, a: Found, b: Found) {
    || LargestSplit(ix, a, b)
    || ((forall p :: IsActive(a.snap.postings, p) ==> Undivided(ix, a, p)) && SmallestMerge(ix, a, b))
  }

  /** Both passes. */
  method Round(ix: Index, patience: Option<nat>, ghost way: seq<Found>)
    returns (r: Outcome, t: Progress, ghost went: seq<Found>)
    requires Resting(ix) && Leads(way, ix)
    modifies ix`docs, ix`queue, ix`lost, ix`log, ix`counts, ix`budget, ix`kept, ix`requests, ix`journal, ix`plan,
             ix`centres, ix`postings, ix`snap, ix`entered, ix`unsplittable, ix`unmergeable, ix`refused, ix`declined
    ensures ix.Safe() && !r.Corrupt? && Spent(old(ix.budget), ix.budget, r) && Since(old(PastOf(ix)), PastOf(ix), r)
    ensures r.Fine? ==> Resting(ix)
    ensures r.Fine? && t.done == 0 && !t.stopped ==> AtFixpoint(ix)
    ensures r.Fine? ==> |RetiredIds(ix.postings)| == |RetiredIds(old(ix.postings))| + t.done
    ensures r.Fine? ==> Leads(went, ix) && way <= went && |went| == |way| + t.done
    ensures r.Fine? && t.done > 0 ==> MadeFirst(ix, old(FoundNow(ix)), went[|way|])
    ensures patience.None? ==> t.patience.None? && !t.stopped
    ensures r.Fine? ==> SeenOn(went, old(ix.refused), ix.refused) && SeenOn(went, old(ix.declined), ix.declined)
  {
    hide PartsOk, PlanOk, AllGood, RulesOf, Since, Agrees, Settled, NoMerge, NoSplit, Made, MarksTrue, LargestSplit,
         SmallestMerge, Undivided, Index.Sound, Index.SnapOk, Index.Routed;
    ghost var past := PastOf(ix);
    r, t, went := SplitLargest(ix, patience, way);
    if !r.Fine? || t.stopped {
      return;
    }
    if t.done == 0 {
      forall p | IsActive(ix.postings, p) ensures Undivided(ix, FoundNow(ix), p) {
        NoSplitIsUndivided(ix, p);
      }
    }
    label Split:
    ghost var past1 := PastOf(ix);
    var m;
    r, m, went := MergeSmallest(ix, t.patience, went);
    SinceCompose(past, past1, PastOf(ix), r);
    if r.Fine? && t.done == 0 && m.done == 0 {
      MarksKeepNoSplit@Split(ix);
    }
    t := Progress(m.stopped, t.done + m.done, m.patience);
  }

  twostate lemma MarksKeepNoSplit(ix: Index)
    requires OnlyMarks(ix) && ix.refused == old(ix.refused)
    ensures forall p :: old(NoSplit(ix, p)) ==> NoSplit(ix, p)
  {
  }

  /** `maintain_locked`: split and merge until a round makes neither, a stop is
      asked for, or the cap on operations is reached. The partitions it goes
      through (`way`) are each one split or merge away from the one before, which
      retires exactly one posting. Finished, it leaves nothing to make: every
      active posting is within the limits, or was refused by 2-means at its size,
      or found no room in a partition on the way, or before. */
  method MaintainLocked(ix: Index, patience: Option<nat>)
    returns (r: Outcome, exit: Exit, done: nat, ghost way: seq<Found>)
    requires Resting(ix)
    modifies ix`docs, ix`queue, ix`lost, ix`log, ix`counts, ix`budget, ix`kept, ix`requests, ix`journal, ix`plan,
             ix`centres, ix`postings, ix`snap, ix`entered, ix`unsplittable, ix`unmergeable, ix`refused, ix`declined
    ensures ix.Safe() && !r.Corrupt? && Spent(old(ix.budget), ix.budget, r) && Since(old(PastOf(ix)), PastOf(ix), r)
    ensures r.Fine? ==> Resting(ix)
    ensures r.Fine? && exit.Finished? ==> AtFixpoint(ix)
    ensures r.Fine? && exit.Capped? ==> done >= 16 * (|NotRetired(old(ix.snap))| + 64)
    ensures r.Fine? ==> |RetiredIds(ix.postings)| == |RetiredIds(old(ix.postings))| + done
    ensures r.Fine? ==> Leads(way, ix) && way[0] == old(FoundNow(ix)) && |way| == done + 1
    ensures patience.None? ==> !exit.Stopped?
    ensures r.Fine? ==> SeenOn(way, old(ix.refused), ix.refused) && SeenOn(way, old(ix.declined), ix.declined)
  {
    hide PartsOk, PlanOk, AllGood, RulesOf, Since, Agrees, Settled, NoMerge, NoSplit, Made, MarksTrue;
    var cap := 16 * (|NotRetired(ix.snap)| + 64);
    var left := patience;
    done := 0;
    SinceNow(PastOf(ix));
    exit, way := Finished, [FoundNow(ix)];
    while true
      invariant Spent(old(ix.budget), ix.budget, Fine)
      invariant Resting(ix) && Since(old(PastOf(ix)), PastOf(ix), Fine) && done < cap
      invariant |RetiredIds(ix.postings)| == |RetiredIds(old(ix.postings))| + done
      invariant Leads(way, ix) && way[0] == old(FoundNow(ix)) && |way| == done + 1
      invariant patience.None? ==> left.None?
      invariant SeenOn(way, old(ix.refused), ix.refused) && SeenOn(way, old(ix.declined), ix.declined)
      decreases cap - done
    {
      ghost var past, way1 := PastOf(ix), way;
      var t;
      r, t, way := Round(ix, left, way);
      SinceCompose(old(PastOf(ix)), past, PastOf(ix), r);
      done, left := done + t.done, t.patience;
      if !r.Fine? {
        return;
      }
      if t.stopped {
        return Fine, Stopped, done, way;
      }
      if t.done == 0 {
        return Fine, Finished, done, way;
      }
      if done >= cap {
        return Fine, Capped, done, way;
      }
    }
  }
}
