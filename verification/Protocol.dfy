/** The steps of a drain and its follow-up, and what a restart finishes or
    abandons (`split_locked` to `abandon`). */
module Protocol {
  import opened Codes
  import opened Vectors
  import opened Counts
  import opened Partition
  import opened Neighbours
  import opened Marks
  import opened Requests
  import opened Store
  import opened Steps
  import opened Copying
  import opened Draining
  import opened Publishing
  import opened Effects
  import opened Reassigning
  import G = Geometry

  // ── What holds at each step ──

  /** A posting being drained is in no one's reach. */
  lemma DrainedIsNotRouted(ix: Index)
    requires ix.Safe() && Current(ix) && !ix.plan.Idle? && !ix.plan.rec.state.Planned?
    requires ix.plan.rec.op.Drained().Some?
    ensures ix.plan.rec.op.Drained().value !in ix.Routed()
  {
  }

  // ── Drain rules ──

  /** `drain_rule`: where an operation sends a drained posting's chunks. */
  function DrainRuleOf(s: Snapshot, ops: Settings, op: Op): Option<G.DrainRule>
    requires op.Split? || op.Merge?
  {
    match op
    case Split(_, cs, ks) =>
      if cs.0 in s.centres && cs.1 in s.centres then Some(G.DrainRule.Split(ks, (s.centres[cs.0], s.centres[cs.1])))
        else None
    case Merge(p, kept) =>
      if HasCentre(s, p) && HasCentre(s, kept) then
        Some(G.DrainRule.Merge(kept, CentreOf(s, kept), CentreOf(s, p), ActiveCentres(s), ops.gate))
      else None
  }

  /** The rule of a published drain exists, and never sends a chunk back to the
      drained posting or to one that is not live. */
  lemma RuleExists(ix: Index, op: nat, rec: Record)
    requires ix.Safe() && Current(ix) && ix.plan == One(op, rec) && rec.state.Published? && rec.op.Drained().Some?
    ensures DrainRuleOf(ix.snap, ix.ops, rec.op).Some?
    ensures RuleOk(DrainRuleOf(ix.snap, ix.ops, rec.op).value, ix.R(), rec.op.posting)
  {
    var rule := DrainRuleOf(ix.snap, ix.ops, rec.op).value;
    forall q | q in G.Targets(rule) ensures MayReceive(ix.R(), q) && q != rec.op.posting {
      if rule.Merge? && q != rule.kept {
        var i :| 0 <= i < |rule.active| && rule.active[i].0 == q;
        assert rule.active[i].0 in Routable(ix.snap);
      }
    }
  }

  // ── 4 and 5: copy, then the barrier ──

  lemma SyncKeepsCovered(log: Log, p: nat)
    requires AllCovered(log, p)
    ensures AllCovered(Synced(log), p)
  {
    assert Synced(log)[0] == log[|log| - 1];
  }

  lemma MayRecordCopied(ix: Index, op: nat, rec: Record)
    requires ix.Safe() && ix.plan == One(op, rec) && rec.state.Published? && rec.op.Drained().Some?
    requires AllCovered(ix.log, rec.op.posting)
    ensures var next := One(op, rec.With(Copied));
            && JournalOf(next) == ix.journal[op := rec.With(Copied)]
            && PlanOk(next, ix.postings, ix.centres)
            && AllGood(ix.C(), ix.RulesAt(next, ix.postings), ix.log)
  {
    LaxerRulesKeep(ix.C(), ix.R(), ix.RulesAt(One(op, rec.With(Copied)), ix.postings), ix.log);
  }

  /** A drain's rule, and what it is applied to. */
  function PlacingFor(s: Snapshot, space: G.Space, ops: Settings, op: Op): Option<Placing>
    requires op.Split? || op.Merge?
  {
    var rule := DrainRuleOf(s, ops, op);
    if rule.None? then None else Some(Placing(space, s.centres, rule.value, op.posting))
  }

  /** Copy every chunk, make the copies durable, and only then record `Copied`. */
  method CopyPhase(ix: Index, op: nat, rec: Record) returns (r: Outcome)
    requires ix.Quiet() && Current(ix) && ix.plan == One(op, rec) && rec.state.Published? && rec.op.Drained().Some?
    modifies ix`docs, ix`queue, ix`lost, ix`log, ix`counts, ix`budget, ix`kept, ix`requests, ix`journal, ix`plan
    ensures ix.Safe() && !r.Corrupt? && Spent(old(ix.budget), ix.budget, r) && Since(old(PastOf(ix)), PastOf(ix), r)
    ensures r.Fine? ==> ix.Quiet() && Current(ix) && ix.plan == One(op, rec.With(Copied))
    ensures PlacingFor(old(ix.snap), ix.space, ix.ops, rec.op).Some?
    ensures r.Fine? && old(ix.Alone()) ==>
              forall d :: CopiedOut(PlacingFor(ix.snap, ix.space, ix.ops, rec.op).value,
                                  At(Now(old(ix.log)), d), At(Now(ix.log), d))
  {
    hide PartsOk, PlanOk, AllGood, Agrees, Settled, Since, RuleOk, AllCovered, AllPlaced, Loose, CopiedOut;
    ghost var past := PastOf(ix);
    SinceNow(past);
    var rule := DrainRuleOf(ix.snap, ix.ops, rec.op);
    RuleExists(ix, op, rec);
    DrainedIsNotRouted(ix);
    LooseOnlyWhenCopied(ix.plan);
    r := if rule.None? then Corrupt else Fine;
    if rule.Some? {
      :- DrainCopy(ix, Placing(ix.space, ix.snap.centres, rule.value, rec.op.posting));
      SinceEver(past, PastOf(ix));
      r := Barrier(ix, op, rec);
    }
  }

  lemma LooseOnlyWhenCopied(plan: Plan)
    ensures plan.Idle? || !plan.rec.state.Copied? ==>
            forall s, space, gate :: OnlyCopying(RulesOf(plan, s, space, gate))
  {
  }

  method Barrier(ix: Index, op: nat, rec: Record) returns (r: Outcome)
    requires ix.Quiet() && Current(ix) && ix.plan == One(op, rec) && rec.state.Published? && rec.op.Drained().Some?
    requires AllCovered(ix.log, rec.op.posting)
    modifies ix`log, ix`budget, ix`journal, ix`plan
    ensures ix.Safe() && !r.Corrupt? && Spent(old(ix.budget), ix.budget, r) && PastOf(ix) == old(PastOf(ix))
    ensures r.Fine? ==> Now(ix.log) == Now(old(ix.log))
    ensures r.Fine? ==> ix.Quiet() && Current(ix) && ix.plan == One(op, rec.With(Copied))
  {
    hide PartsOk, PlanOk, AllGood, Agrees, Settled, AllCovered, Index.Sound, Index.SnapOk, Index.Routed;
    SyncKeepsCovered(ix.log, rec.op.posting);
    if Settled(ix.log) {
      SyncSettles(ix.log);
    }
    :- ix.SyncLog();
    MayRecordCopied(ix, op, rec);
    :- WriteRecord(ix, op, rec.With(Copied), One(op, rec.With(Copied)));
    CurrentMayBeUsed(ix);
    return Fine;
  }

  // ── 6 and 7: delete, then retire ──

  /** A drain whose copies are made, with or without its follow-up recorded. */
  ghost predicate CopiesMade(plan: Plan, op: nat, rec: Record) {
    && rec.state.Copied? && rec.op.Drained().Some?
    && (plan == One(op, rec) || (plan.Two? && plan.op == op && plan.rec == rec))
  }

  lemma CopiedLoosens(plan: Plan, op: nat, rec: Record)
    requires CopiesMade(plan, op, rec)
    ensures PlannedChildren(plan) == {}
    ensures forall s, space, gate :: Emptying(RulesOf(plan, s, space, gate), rec.op.posting)
  {
  }

  lemma MayRetire(ix: Index, op: nat, rec: Record)
    requires ix.Safe() && CopiesMade(ix.plan, op, rec) && NoKeys(ix.log, rec.op.posting)
    ensures rec.op.posting in ix.postings
    ensures var p := rec.op.posting;
            var after := ix.postings[p := ix.postings[p].(state := Retired).Row()];
            && PartsOk(after, ix.centres, ix.dim) && PlanOk(ix.plan, after, ix.centres)
            && AllGood(ix.C(), ix.RulesAt(ix.plan, after), ix.log)
  {
    var p := rec.op.posting;
    var after := ix.postings[p := ix.postings[p].(state := Retired).Row()];
    var r, r' := ix.R(), ix.RulesAt(ix.plan, after);
    assert r'.known == r.known;
    EmptiedPostingRetires(ix.C(), r, r', ix.log, p);
  }

  /** The stored postings once `p` is retired. */
  function Retiring(postings: map<nat, Posting>, p: nat): map<nat, Posting> {
    if p in postings then postings[p := postings[p].(state := Retired).Row()] else postings
  }

  /** The drained posting is not routed to, and the others stay live. */
  lemma RetiringStaysLive(ix: Index, op: nat, rec: Record)
    requires ix.Safe() && Current(ix) && CopiesMade(ix.plan, op, rec)
    ensures Routable(ix.snap) != {} && StillLive(ix.snap, Retiring(ix.postings, rec.op.posting))
    ensures rec.op.posting !in Routable(ix.snap)
  {
    ActiveSomewhere(ix);
  }

  lemma RetiredIsNotRouted(ix: Index, p: nat)
    requires Current(ix) && p in ix.postings && ix.postings[p].state.Retired?
    ensures p !in Routable(ix.snap)
  {
  }

  /** Others file nothing under a posting nobody routes to. */
  lemma OthersAddNoKeysAtAll(routed: set<nat>, old': Log, new': Log, p: nat)
    requires Interfered(routed, old', new') && p !in routed && NoKeys(old', p)
    ensures NoKeys(new', p)
  {
    forall i, d | 0 <= i < |new'| ensures p !in At(new'[i], d).keys {
      assert FromOld(old', d, At(new'[i], d)) || At(new'[i], d).keys.Keys <= routed;
    }
  }

  /** Retire the drained posting: its keys are gone. */
  method Retire(ix: Index, op: nat, rec: Record) returns (r: Outcome)
    requires ix.Quiet() && Current(ix) && CopiesMade(ix.plan, op, rec) && NoKeys(ix.log, rec.op.posting)
    modifies ix`docs, ix`queue, ix`lost, ix`log, ix`counts, ix`budget, ix`kept, ix`requests,
             ix`postings, ix`snap, ix`entered, ix`unsplittable, ix`unmergeable
    ensures ix.Safe() && !r.Corrupt? && Spent(old(ix.budget), ix.budget, r) && Since(old(PastOf(ix)), PastOf(ix), r)
    ensures old(MarksTrue(ix)) ==> MarksTrue(ix)
    ensures old(ix.Alone()) ==> ix.log == old(ix.log)
    ensures r.Fine? ==> ix.Quiet() && Current(ix) && NoKeys(ix.log, rec.op.posting)
    ensures r.Fine? ==> rec.op.posting in ix.postings && ix.postings == Retiring(old(ix.postings), rec.op.posting)
  {
    hide PartsOk, PlanOk, AllGood, Agrees, Settled, NoKeys, Since, Behind, RulesOf, MarksTrue, Interfered;
    ghost var past := PastOf(ix);
    MayRetire(ix, op, rec);
    CurrentIsBehindNothing(ix);
    RetiringStaysLive(ix, op, rec);
    var retired := ix.postings[rec.op.posting].(state := Retired);
    var changed :- StorePosting(ix, ix.snap, [], [], rec.op.posting, retired);
    ghost var past1, log, routed := PastOf(ix), ix.log, Routable(ix.snap);
    CopiedLoosens(ix.plan, op, rec);
    r := Publish(ix, [], changed);
    SinceCompose(past, past1, PastOf(ix), r);
    if r.Fine? {
      RetiredIsNotRouted(ix, rec.op.posting);
      OthersAddNoKeysAtAll(Routable(ix.snap) + routed, log, ix.log, rec.op.posting);
    }
  }

  /** After an epoch barrier: delete the originals, and retire the posting. */
  method DeletePhase(ix: Index, op: nat, rec: Record) returns (r: Outcome)
    requires ix.Quiet() && Current(ix) && CopiesMade(ix.plan, op, rec)
    modifies ix`docs, ix`queue, ix`lost, ix`log, ix`counts, ix`budget, ix`kept, ix`requests,
             ix`postings, ix`snap, ix`entered, ix`unsplittable, ix`unmergeable
    ensures ix.Safe() && !r.Corrupt? && Spent(old(ix.budget), ix.budget, r) && Since(old(PastOf(ix)), PastOf(ix), r)
    ensures old(MarksTrue(ix)) ==> MarksTrue(ix)
    ensures r.Fine? && old(ix.Alone()) ==>
              forall d :: At(Now(ix.log), d) == Emptied(At(Now(old(ix.log)), d), rec.op.posting)
    ensures r.Fine? ==> ix.Quiet() && Current(ix) && NoKeys(ix.log, rec.op.posting)
    ensures r.Fine? ==> rec.op.posting in ix.postings && ix.postings == Retiring(old(ix.postings), rec.op.posting)
  {
    hide PartsOk, PlanOk, AllGood, Agrees, Settled, NoKeys, Since, Spared, Emptying, RulesOf, Interfered, Index.Sound,
         MarksTrue;
    ghost var past0 := PastOf(ix);
    CopiedLoosens(ix.plan, op, rec);
    DrainedIsNotRouted(ix);
    r := ix.Yield();
    SinceYield(past0, ix, r);
    if !r.Fine? {
      return;
    }
    ghost var past1 := PastOf(ix);
    if old(ix.Alone()) {
      StaysAlone(past0, ix);
    }
    r := DrainDelete(ix, rec.op.posting);
    ghost var past2 := PastOf(ix);
    SinceCompose(past0, past1, past2, r);
    if !r.Fine? {
      return;
    }
    if old(ix.Alone()) {
      StaysAlone(past0, ix);
    }
    r := Retire(ix, op, rec);
    SinceCompose(past0, past2, PastOf(ix), r);
  }

  // ── The follow-up of a split ──

  /** A planned reassignment's scope is the halves, and the other active postings
      before which, around the old centre, come fewer than the range; each once. */
  lemma ScopeIsNearest(s: Snapshot, space: G.Space, ops: Settings, parent: nat, children: (nat, nat), q: nat)
    requires children.0 != children.1
    requires HasCentre(s, parent) && HasCentre(s, children.0) && HasCentre(s, children.1) && HasCentre(s, q)
    ensures var (ra, ids) := (PlanReassign(s, space, ops, parent, children), Routable(s) - {children.0, children.1});
            && ra.Some? && ra.value.state.Planned? && ra.value.op.Reassign?
            && ra.value.op.parent == parent && ra.value.op.children == children
            && ra.value.op.parentCentre == s.postings[parent].centreId
            && Distinct(ra.value.op.scope)
            && (q in ra.value.op.scope <==>
                || q == children.0 || q == children.1
                || (q in ids && |CloserThan(s, space, CentreOf(s, parent), ids, q)| < ops.reassignRange))
  {
    hide ActiveCentres, Routable, CloserThan, AllBut, G.Neighbours;
    var (centre, but) := (CentreOf(s, parent), {children.0, children.1});
    var (ids, others) := (Routable(s) - but, AllBut(ActiveCentres(s), but));
    OthersAreListed(s, but);
    NeighboursInOrder(s, space, centre, ids, others, ops.reassignRange);
    NeighbourIffFewCloser(s, space, centre, ids, others, ops.reassignRange, q);
    var near := G.Neighbours(space, centre, others, ops.reassignRange);
    var scope := [children.0, children.1] + near;
    forall i, j | 0 <= i < j < |scope| ensures scope[i] != scope[j] {
      assert i >= 2 ==> scope[i] == near[i - 2];
      assert j >= 2 ==> scope[j] == near[j - 2] && near[j - 2] in ids;
    }
  }

  lemma ScopeDiffers(s: Snapshot, space: G.Space, ops: Settings, parent: nat, children: (nat, nat))
    requires children.0 != children.1
    ensures var ra := PlanReassign(s, space, ops, parent, children);
            ra.Some? ==> ra.value.op.Reassign? && Distinct(ra.value.op.scope)
  {
    hide ActiveCentres, Routable, AllBut, CloserThan;
    if HasCentre(s, parent) && HasCentre(s, children.0) && HasCentre(s, children.1) {
      ScopeIsNearest(s, space, ops, parent, children, children.0);
    }
  }

  lemma MayPlanReassign(ix: Index, op: nat, rec: Record, next: nat)
    requires ix.Safe() && Current(ix) && ix.plan == One(op, rec) && rec.op.Split? && rec.state.Copied?
    requires rec.op.posting in ix.postings && ix.postings[rec.op.posting].state.Retired? && next > op
    ensures PlanReassign(ix.snap, ix.space, ix.ops, rec.op.posting, rec.op.children).Some?
    ensures var ra := PlanReassign(ix.snap, ix.space, ix.ops, rec.op.posting, rec.op.children).value;
            var plan := Two(op, rec, next, ra);
            && ra.op.Reassign? && JournalOf(plan) == ix.journal[next := ra]
            && PlanOk(plan, ix.postings, ix.centres)
            && AllGood(ix.C(), ix.RulesAt(plan, ix.postings), ix.log)
  {
    assert ix.postings[rec.op.posting].centreId in ix.centres;
    assert ix.postings[rec.op.children.0].centreId in ix.centres
      && ix.postings[rec.op.children.1].centreId in ix.centres;
    var ra := PlanReassign(ix.snap, ix.space, ix.ops, rec.op.posting, rec.op.children).value;
    ScopeDiffers(ix.snap, ix.space, ix.ops, rec.op.posting, rec.op.children);
    LaxerRulesKeep(ix.C(), ix.R(), ix.RulesAt(Two(op, rec, next, ra), ix.postings), ix.log);
  }

  /** The journal holds at most one reassignment of a posting: the recorded one
      is found, or there is none. */
  lemma FoundIfRecorded(plan: Plan, op: nat, rec: Record, postings: map<nat, Posting>, centres: map<nat, Point>)
    requires CopiesMade(plan, op, rec) && PlanOk(plan, postings, centres)
    requires rec.op.Split?
    ensures forall o :: o in Ascending(JournalOf(plan).Keys) ==> o in JournalOf(plan)
    ensures FindReassign(JournalOf(plan), Ascending(JournalOf(plan).Keys), rec.op.posting)
            == if plan.Two? then Some(plan.next) else None
  {
    var j := JournalOf(plan);
    assert op in j;
    var o := FindReassign(j, Ascending(j.Keys), rec.op.posting);
    if plan.Two? {
      assert plan.next in j && plan.next in Ascending(j.Keys);
    }
  }

  lemma MayDropSplit(ix: Index)
    requires ix.Safe() && ix.plan.Two? && NoKeys(ix.log, ix.plan.rec.op.posting)
    requires ix.postings[ix.plan.rec.op.posting].state.Retired?
    ensures var plan := One(ix.plan.next, ix.plan.reassign);
            && JournalOf(plan) == ix.journal - {ix.plan.op}
            && PlanOk(plan, ix.postings, ix.centres)
            && AllGood(ix.C(), ix.RulesAt(plan, ix.postings), ix.log)
  {
    var plan := One(ix.plan.next, ix.plan.reassign);
    EmptiedPostingRetires(ix.C(), ix.R(), ix.RulesAt(plan, ix.postings), ix.log, ix.plan.rec.op.posting);
  }

  lemma MayDropMerge(ix: Index, op: nat, rec: Record)
    requires ix.Safe() && ix.plan == One(op, rec) && rec.op.Merge? && rec.state.Copied?
             && NoKeys(ix.log, rec.op.posting)
    requires ix.postings[rec.op.posting].state.Retired?
    ensures JournalOf(Idle) == ix.journal - {op} && PlanOk(Idle, ix.postings, ix.centres)
    ensures AllGood(ix.C(), ix.RulesAt(Idle, ix.postings), ix.log)
  {
    assert IsActive(ix.postings, rec.op.kept);
    EmptiedPostingRetires(ix.C(), ix.R(), ix.RulesAt(Idle, ix.postings), ix.log, rec.op.posting);
  }

  /** The reassignment is recorded before the split's record goes, so a crash
      between the two still reassigns; one recorded already is run, never a
      second. */
  method RecordReassign(ix: Index, op: nat, rec: Record) returns (r: Outcome)
    requires ix.Quiet() && Current(ix) && CopiesMade(ix.plan, op, rec) && rec.op.Split?
    requires rec.op.posting in ix.postings && ix.postings[rec.op.posting].state.Retired?
    modifies ix`journal, ix`plan, ix`budget
    ensures ix.Safe() && !r.Corrupt? && Spent(old(ix.budget), ix.budget, r)
    ensures r.Fine? ==> ix.Quiet() && ix.plan.Two? && ix.plan.op == op && ix.plan.rec == rec
    ensures old(ix.plan.Two?) ==> ix.plan == old(ix.plan)
    ensures r.Fine? && !old(ix.plan.Two?) ==>
              Some(ix.plan.reassign) == PlanReassign(ix.snap, ix.space, ix.ops, rec.op.posting, rec.op.children)
  {
    hide PartsOk, PlanOk, AllGood, Agrees, Settled;
    r := Fine;
    FoundIfRecorded(ix.plan, op, rec, ix.postings, ix.centres);
    var recorded := FindReassign(ix.journal, Ascending(ix.journal.Keys), rec.op.posting);
    if recorded.None? {
      var planned := PlanReassign(ix.snap, ix.space, ix.ops, rec.op.posting, rec.op.children);
      var next := NextOpId(ix.journal);
      assert op in ix.journal;
      MayPlanReassign(ix, op, rec, next);
      r := if planned.None? then Corrupt else Fine;
      if planned.Some? {
        r := WriteRecord(ix, next, planned.value, Two(op, rec, next, planned.value));
        if r.Fine? {
          CurrentMayBeUsed(ix);
        }
      }
    }
  }

  /** What the reassignment planned for a split moves. */
  function MovesFor(s: Snapshot, space: G.Space, ops: Settings, split: Op): Option<Moves>
    requires split.Split?
  {
    var planned := PlanReassign(s, space, ops, split.posting, split.children);
    if planned.None? || !planned.value.op.Reassign? then None
    else MovesOf(s, space, ops.gate, planned.value.op)
  }

  /** What the reassignment after a split moves: the recorded one, or, if there is
      none yet, the one planned now. */
  function MovesAfter(plan: Plan, s: Snapshot, space: G.Space, ops: Settings, split: Op): Option<Moves>
    requires split.Split?
  {
    if !plan.Two? then MovesFor(s, space, ops, split)
    else if plan.reassign.op.Reassign? then MovesOf(s, space, ops.gate, plan.reassign.op)
    else None
  }

  lemma PlannedReassign(s: Snapshot, space: G.Space, ops: Settings, parent: nat, children: (nat, nat))
    ensures var ra := PlanReassign(s, space, ops, parent, children);
            ra.Some? ==> ra.value.op.Reassign? && ra.value.state.Planned?
  {
  }

  lemma RecordedReassign(plan: Plan, postings: map<nat, Posting>, centres: map<nat, Point>)
    requires PlanOk(plan, postings, centres)
    ensures plan.Two? ==> plan.reassign.op.Reassign? && plan.reassign.state.Planned?
  {
  }

  /** A split's record goes once its reassignment is recorded. */
  method PassOn(ix: Index, op: nat, rec: Record) returns (r: Outcome, next: nat)
    requires ix.Quiet() && Current(ix) && CopiesMade(ix.plan, op, rec) && NoKeys(ix.log, rec.op.posting)
             && rec.op.Split?
    requires rec.op.posting in ix.postings && ix.postings[rec.op.posting].state.Retired?
    modifies ix`budget, ix`journal, ix`plan
    ensures ix.Safe() && !r.Corrupt? && Spent(old(ix.budget), ix.budget, r)
    ensures r.Fine? ==> ix.Quiet() && ix.plan.One? && ix.plan.op == next && ix.plan.rec.op.Reassign?
    ensures r.Fine? && old(ix.plan.Two?) ==> ix.plan == One(old(ix.plan.next), old(ix.plan.reassign))
    ensures r.Fine? && old(ix.plan.One?) ==>
              Some(ix.plan.rec) == PlanReassign(ix.snap, ix.space, ix.ops, rec.op.posting, rec.op.children)
  {
    hide PartsOk, PlanOk, AllGood, Agrees, Settled, NoKeys, PlanReassign, Index.Sound, Index.SnapOk, Index.Routed;
    next := 0;
    :- RecordReassign(ix, op, rec);
    FoundIfRecorded(ix.plan, op, rec, ix.postings, ix.centres);
    next := FindReassign(ix.journal, Ascending(ix.journal.Keys), rec.op.posting).value;
    r := DropSplit(ix, op, rec);
  }

  /** Then the reassignment is run. */
  method RehomeAfter(ix: Index, op: nat, rec: Record) returns (r: Outcome)
    requires ix.Quiet() && Current(ix) && CopiesMade(ix.plan, op, rec) && NoKeys(ix.log, rec.op.posting)
             && rec.op.Split?
    requires rec.op.posting in ix.postings && ix.postings[rec.op.posting].state.Retired?
    modifies ix`docs, ix`queue, ix`lost, ix`log, ix`counts, ix`budget, ix`kept, ix`requests, ix`journal, ix`plan
    ensures ix.Safe() && !r.Corrupt? && Spent(old(ix.budget), ix.budget, r) && Since(old(PastOf(ix)), PastOf(ix), r)
    ensures r.Fine? ==> ix.Quiet() && Current(ix) && ix.plan.Idle?
    ensures r.Fine? ==> MovesAfter(old(ix.plan), ix.snap, ix.space, ix.ops, rec.op).Some?
    ensures r.Fine? && old(ix.Alone()) ==>
              forall d :: Rehomed(MovesAfter(old(ix.plan), ix.snap, ix.space, ix.ops, rec.op).value,
                                  At(Now(old(ix.log)), d), At(Now(ix.log), d))
  {
    hide PartsOk, PlanOk, AllGood, Agrees, Settled, Since, NoKeys, Rehomed, MovesOf, PlanReassign, Index.Sound,
         Index.SnapOk, Index.Routed;
    SinceNow(PastOf(ix));
    PlannedReassign(ix.snap, ix.space, ix.ops, rec.op.posting, rec.op.children);
    RecordedReassign(ix.plan, ix.postings, ix.centres);
    var next :- PassOn(ix, op, rec);
    r := RunReassign(ix, next, ix.journal[next]);
  }

  /** Drop a finished drain's record; a split goes on to its reassignment. */
  method FollowUp(ix: Index, op: nat, rec: Record) returns (r: Outcome)
    requires ix.Quiet() && Current(ix) && CopiesMade(ix.plan, op, rec) && NoKeys(ix.log, rec.op.posting)
    requires rec.op.posting in ix.postings && ix.postings[rec.op.posting].state.Retired?
    modifies ix`docs, ix`queue, ix`lost, ix`log, ix`counts, ix`budget, ix`kept, ix`requests, ix`journal, ix`plan
    ensures ix.Safe() && !r.Corrupt? && Spent(old(ix.budget), ix.budget, r) && Since(old(PastOf(ix)), PastOf(ix), r)
    ensures r.Fine? ==> ix.Quiet() && Current(ix) && ix.plan.Idle?
    ensures !rec.op.Split? ==> ix.log == old(ix.log)
    ensures r.Fine? && rec.op.Split? ==> MovesAfter(old(ix.plan), ix.snap, ix.space, ix.ops, rec.op).Some?
    ensures r.Fine? && rec.op.Split? && old(ix.Alone()) ==>
              forall d :: Rehomed(MovesAfter(old(ix.plan), ix.snap, ix.space, ix.ops, rec.op).value,
                                  At(Now(old(ix.log)), d), At(Now(ix.log), d))
  {
    hide PartsOk, PlanOk, AllGood, Agrees, Settled, Since, NoKeys, Rehomed, MovesAfter, Index.Sound, Index.SnapOk,
         Index.Routed;
    SinceNow(PastOf(ix));
    if rec.op.Split? {
      r := RehomeAfter(ix, op, rec);
    } else {
      NotMerge(ix, op, rec);
      MayDropMerge(ix, op, rec);
      r := DeleteRecord(ix, op, Idle);
      if r.Fine? {
        CurrentMayBeUsed(ix);
      }
    }
  }

  lemma NotMerge(ix: Index, op: nat, rec: Record)
    requires ix.Safe() && CopiesMade(ix.plan, op, rec) && !rec.op.Split?
    ensures rec.op.Merge? && ix.plan == One(op, rec)
  {
  }

  method DropSplit(ix: Index, op: nat, rec: Record) returns (r: Outcome)
    requires ix.Quiet() && Current(ix) && ix.plan.Two? && ix.plan.op == op && ix.plan.rec == rec
             && NoKeys(ix.log, rec.op.posting)
    requires rec.op.posting in ix.postings && ix.postings[rec.op.posting].state.Retired?
    modifies ix`budget, ix`journal, ix`plan
    ensures ix.Safe() && !r.Corrupt? && Spent(old(ix.budget), ix.budget, r)
    ensures r.Fine? ==>
            ix.Quiet() && ix.plan == One(old(ix.plan.next), old(ix.plan.reassign)) && ix.plan.rec.op.Reassign?
  {
    hide PartsOk, AllGood, Agrees, Settled, NoKeys;
    MayDropSplit(ix);
    r := DeleteRecord(ix, op, One(ix.plan.next, ix.plan.reassign));
    if r.Fine? {
      CurrentMayBeUsed(ix);
    }
  }

  /** Copy, make durable, delete and retire, from wherever the record says. */
  method MoveOut(ix: Index, op: nat, rec: Record) returns (r: Outcome)
    requires ix.Quiet() && Current(ix) && rec.op.Drained().Some?
    requires (ix.plan == One(op, rec) && rec.state.Published?) || CopiesMade(ix.plan, op, rec)
    modifies ix`docs, ix`queue, ix`lost, ix`log, ix`counts, ix`budget, ix`kept, ix`requests, ix`journal, ix`plan,
             ix`postings, ix`snap, ix`entered, ix`unsplittable, ix`unmergeable
    ensures ix.Safe() && !r.Corrupt? && Spent(old(ix.budget), ix.budget, r) && Since(old(PastOf(ix)), PastOf(ix), r)
    ensures old(MarksTrue(ix)) ==> MarksTrue(ix)
    ensures r.Fine? ==> ix.Quiet() && Current(ix) && NoKeys(ix.log, rec.op.posting)
    ensures r.Fine? ==> CopiesMade(ix.plan, op, rec.With(Copied)) && (rec.state.Published? ==> ix.plan.One?)
    ensures rec.state.Published? ==> PlacingFor(old(ix.snap), ix.space, ix.ops, rec.op).Some?
    ensures r.Fine? && rec.state.Published? && old(ix.Alone()) ==>
              forall d :: Drained(PlacingFor(old(ix.snap), ix.space, ix.ops, rec.op).value,
                                  At(Now(old(ix.log)), d), At(Now(ix.log), d))
    ensures r.Fine? && rec.state.Copied? ==> ix.plan == old(ix.plan)
    ensures r.Fine? && rec.state.Copied? && old(ix.Alone()) ==>
              forall d :: At(Now(ix.log), d) == Emptied(At(Now(old(ix.log)), d), rec.op.posting)
    ensures r.Fine? ==> rec.op.posting in ix.postings && ix.postings == Retiring(old(ix.postings), rec.op.posting)
  {
    hide PartsOk, PlanOk, AllGood, Agrees, Settled, Since, NoKeys, MarksTrue, Drained, CopiedOut, Emptied, PlacingFor,
         G.Targets, RuleHasTargets, Index.Sound, Index.SnapOk, Index.Routed;
    ghost var past, was := PastOf(ix), Now(ix.log);
    ghost var pl: Option<Placing> := None;
    SinceNow(past);
    if rec.state.Published? {
      PlacingIsSound(ix, op, rec);
      pl := PlacingFor(ix.snap, ix.space, ix.ops, rec.op);
      :- CopyPhase(ix, op, rec);
    }
    ghost var past1, copied := PastOf(ix), Now(ix.log);
    if old(ix.Alone()) {
      StaysAlone(past, ix);
    }
    r := DeletePhase(ix, op, rec.With(Copied));
    SinceCompose(past, past1, PastOf(ix), r);
    if r.Fine? && old(ix.Alone()) && rec.state.Published? {
      AllDrained(pl.value, was, copied, Now(ix.log));
    }
  }

  /** A document once a drain whose copies are made is finished: its keys under the
      posting are gone, and after a split its chunks have then gone home. */
  ghost predicate Finished(op: Op, moves: Option<Moves>, dv: DocVec, dv': DocVec)
    requires op.Split? || op.Merge?
  {
    if op.Merge? then dv' == Emptied(dv, op.posting)
    else moves.Some? && Rehomed(moves.value, Emptied(dv, op.posting), dv')
  }

  /** Steps 4 to 7 of a published drain, from wherever its record says. With no one
      else about, every chunk ends where the rule sends it, or, if the copies are
      made, is gone from the posting; after a split, it may then have gone home. */
  method FinishDrain(ix: Index, op: nat, rec: Record) returns (r: Outcome)
    requires ix.Quiet() && Current(ix) && rec.op.Drained().Some?
    requires (ix.plan == One(op, rec) && rec.state.Published?) || CopiesMade(ix.plan, op, rec)
    modifies ix`docs, ix`queue, ix`lost, ix`log, ix`counts, ix`budget, ix`kept, ix`requests, ix`journal, ix`plan,
             ix`postings, ix`snap, ix`entered, ix`unsplittable, ix`unmergeable
    ensures ix.Safe() && !r.Corrupt? && Spent(old(ix.budget), ix.budget, r) && Since(old(PastOf(ix)), PastOf(ix), r)
    ensures old(MarksTrue(ix)) ==> MarksTrue(ix)
    ensures r.Fine? ==> ix.Quiet() && Current(ix) && ix.plan.Idle?
    ensures rec.state.Published? ==> PlacingFor(old(ix.snap), ix.space, ix.ops, rec.op).Some?
    ensures r.Fine? && rec.state.Published? && rec.op.Split? ==> MovesFor(ix.snap, ix.space, ix.ops, rec.op).Some?
    ensures r.Fine? && rec.state.Published? && rec.op.Merge? && old(ix.Alone()) ==>
              forall d :: Drained(PlacingFor(old(ix.snap), ix.space, ix.ops, rec.op).value,
                                  At(Now(old(ix.log)), d), At(Now(ix.log), d))
    ensures r.Fine? && rec.state.Published? && rec.op.Split? && old(ix.Alone()) ==>
              forall d :: SplitUp(PlacingFor(old(ix.snap), ix.space, ix.ops, rec.op).value,
                MovesFor(ix.snap, ix.space, ix.ops, rec.op).value,
                                  At(Now(old(ix.log)), d), At(Now(ix.log), d))
    ensures rec.op.Split? || rec.op.Merge?
    ensures r.Fine? && rec.state.Copied? && old(ix.Alone()) ==>
              forall d :: Finished(rec.op, if rec.op.Split? then
                                     MovesAfter(old(ix.plan), ix.snap, ix.space, ix.ops, rec.op) else None,
                                   At(Now(old(ix.log)), d), At(Now(ix.log), d))
    ensures r.Fine? ==> ix.postings == Retiring(old(ix.postings), rec.op.posting)
  {
    hide PartsOk, PlanOk, AllGood, Agrees, Settled, Since, NoKeys, MarksTrue, Drained, Rehomed, SplitUp, PlacingFor,
         MovesFor, MovesAfter, Finished, Emptied, Index.Sound, Index.SnapOk, Index.Routed;
    ghost var past, was, pl := PastOf(ix), Now(ix.log),
      if rec.state.Published? then PlacingFor(ix.snap, ix.space, ix.ops, rec.op) else None;
    :- MoveOut(ix, op, rec);
    RetiredNow(old(ix.postings), rec.op.posting);
    ghost var past1, emptied, plan := PastOf(ix), Now(ix.log), ix.plan;
    if old(ix.Alone()) {
      StaysAlone(past, ix);
    }
    r := FollowUp(ix, op, rec.With(Copied));
    SinceCompose(past, past1, PastOf(ix), r);
    if r.Fine? && rec.op.Split? {
      ghost var moves := MovesAfter(plan, ix.snap, ix.space, ix.ops, rec.op);
      if rec.state.Published? {
        PlannedAfter(plan, ix.snap, ix.space, ix.ops, rec.op);
        if old(ix.Alone()) {
          AllSplitUp(pl.value, moves.value, was, emptied, Now(ix.log));
        }
      } else if old(ix.Alone()) {
        AllFinished(rec.op, moves, was, emptied, Now(ix.log));
      }
    }
    if r.Fine? && rec.op.Merge? && rec.state.Copied? && old(ix.Alone()) {
      AllEmptiedFinished(rec.op, was, Now(ix.log));
    }
  }

  lemma PlannedAfter(plan: Plan, s: Snapshot, space: G.Space, ops: Settings, split: Op)
    requires split.Split? && plan.One?
    ensures MovesAfter(plan, s, space, ops, split) == MovesFor(s, space, ops, split)
  {
  }

  lemma AllFinished(op: Op, moves: Option<Moves>, v: Vec, mid: Vec, v': Vec)
    requires op.Split? && moves.Some?
    requires forall d :: At(mid, d) == Emptied(At(v, d), op.posting)
    requires forall d :: Rehomed(moves.value, At(mid, d), At(v', d))
    ensures forall d :: Finished(op, moves, At(v, d), At(v', d))
  {
    hide Rehomed, Emptied;
    forall d ensures Finished(op, moves, At(v, d), At(v', d)) {
      assert Rehomed(moves.value, At(mid, d), At(v', d)) && At(mid, d) == Emptied(At(v, d), op.posting);
    }
  }

  lemma AllEmptiedFinished(op: Op, v: Vec, v': Vec)
    requires op.Merge? && forall d :: At(v', d) == Emptied(At(v, d), op.posting)
    ensures forall d :: Finished(op, None, At(v, d), At(v', d))
  {
    hide Emptied;
  }

  lemma RetiredNow(postings: map<nat, Posting>, p: nat)
    ensures p in Retiring(postings, p) ==> Retiring(postings, p)[p].state.Retired?
  {
  }

  lemma PlacingIsSound(ix: Index, op: nat, rec: Record)
    requires ix.Safe() && Current(ix) && ix.plan == One(op, rec) && rec.state.Published? && rec.op.Drained().Some?
    ensures rec.op.Split? || rec.op.Merge?
    ensures var pl := PlacingFor(ix.snap, ix.space, ix.ops, rec.op);
            && pl.Some? && pl.value.drained == rec.op.posting
            && RuleHasTargets(pl.value) && pl.value.drained !in G.Targets(pl.value.rule)
  {
    hide PartsOk, AllGood;
    RuleExists(ix, op, rec);
  }
}
