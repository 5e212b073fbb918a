/** What a restart does: reload what survived the crash, then finish or abandon
    what the journal holds (`load_ivf`, `recover_locked`, `abandon`). */
module Recovery {
  import opened Codes
  import opened Vectors
  import opened Counts
  import opened Partition
  import opened Marks
  import opened Requests
  import opened Store
  import opened Steps
  import opened Loading
  import opened Copying
  import opened Draining
  import opened Effects
  import opened Shrinking
  import opened Publishing
  import opened Reassigning
  import opened Protocol
  import G = Geometry
  import Q = Queue

  // ── abandon ──

  lemma MayRetireChild(ix: Index, child: nat)
    requires ix.Safe() && child in PlannedChildren(ix.plan) && child in ix.postings
    ensures var after := ix.postings[child := ix.postings[child].(state := Retired).Row()];
            && PartsOk(after, ix.centres, ix.dim) && PlanOk(ix.plan, after, ix.centres)
            && AllGood(ix.C(), ix.RulesAt(ix.plan, after), ix.log)
  {
    var after := ix.postings[child := ix.postings[child].(state := Retired).Row()];
    LaxerRulesKeep(ix.C(), ix.R(), ix.RulesAt(ix.plan, after), ix.log);
  }

  /** A child a planned split stored is retired, empty. */
  method RetireChild(ix: Index, s: Snapshot, changed: seq<(nat, Posting)>, child: nat)
    returns (r: Outcome, more: seq<(nat, Posting)>)
    requires ix.Safe() && Behind(s, [], changed, ix.postings, ix.centres, ix.dim) && child in PlannedChildren(ix.plan)
    modifies ix`postings, ix`budget
    ensures ix.Safe() && !r.Corrupt? && Spent(old(ix.budget), ix.budget, r) && Since(old(PastOf(ix)), PastOf(ix), r)
    ensures r.Fine? ==> Behind(s, [], more, ix.postings, ix.centres, ix.dim)
    ensures r.Fine? ==> ix.postings == if child in old(ix.postings) then
            old(ix.postings)[child := old(ix.postings)[child].(state := Retired).Row()] else old(ix.postings)
  {
    hide PartsOk, PlanOk, AllGood, Since, Behind, RulesOf;
    more := changed;
    SinceNow(PastOf(ix));
    r := Fine;
    if child in ix.postings {
      MayRetireChild(ix, child);
      r, more := StorePosting(ix, s, [], changed, child, ix.postings[child].(state := Retired));
    }
  }

  /** A drain never published. */
  ghost predicate Unpublished(plan: Plan, op: nat, rec: Record) {
    plan == One(op, rec) && rec.state.Planned? && rec.op.Drained().Some?
  }

  lemma MayReactivate(ix: Index, op: nat, rec: Record)
    requires ix.Safe() && Unpublished(ix.plan, op, rec)
    ensures rec.op.posting in ix.postings && !ix.postings[rec.op.posting].state.Retired?
    ensures rec.op.Split? ==> rec.op.posting !in {rec.op.children.0, rec.op.children.1}
    ensures var after := ix.postings[rec.op.posting := ix.postings[rec.op.posting].(state := Active).Row()];
            && PartsOk(after, ix.centres, ix.dim) && PlanOk(ix.plan, after, ix.centres)
            && AllGood(ix.C(), ix.RulesAt(ix.plan, after), ix.log)
  {
    var after := ix.postings[rec.op.posting := ix.postings[rec.op.posting].(state := Active).Row()];
    LaxerRulesKeep(ix.C(), ix.R(), ix.RulesAt(ix.plan, after), ix.log);
  }

  /** The posting it was to drain is active again. */
  method Reactivate(ix: Index, s: Snapshot, changed: seq<(nat, Posting)>, op: nat, rec: Record)
    returns (r: Outcome, more: seq<(nat, Posting)>)
    requires ix.Safe() && Behind(s, [], changed, ix.postings, ix.centres, ix.dim) && Unpublished(ix.plan, op, rec)
    modifies ix`postings, ix`budget
    ensures ix.Safe() && !r.Corrupt? && Spent(old(ix.budget), ix.budget, r) && Since(old(PastOf(ix)), PastOf(ix), r)
    ensures r.Fine? ==> Behind(s, [], more, ix.postings, ix.centres, ix.dim) && IsActive(ix.postings, rec.op.posting)
    ensures r.Fine? ==> rec.op.posting in old(ix.postings)
    ensures r.Fine? ==> ix.postings == old(ix.postings)[rec.op.posting :=
            old(ix.postings)[rec.op.posting].(state := Active)]
  {
    hide PartsOk, PlanOk, AllGood, Since, Behind, RulesOf;
    more := changed;
    SinceNow(PastOf(ix));
    r := Fine;
    MayReactivate(ix, op, rec);
    var p := rec.op.posting;
    if ix.postings[p].state.Draining? {
      r, more := StorePosting(ix, s, [], changed, p, ix.postings[p].(state := Active));
    } else {
      assert ix.postings[p := ix.postings[p].(state := Active)] == ix.postings;
    }
  }

  lemma MayForgetDrain(ix: Index, op: nat, rec: Record)
    requires ix.Safe() && Unpublished(ix.plan, op, rec) && IsActive(ix.postings, rec.op.posting)
    ensures JournalOf(Idle) == ix.journal - {op} && PlanOk(Idle, ix.postings, ix.centres)
    ensures AllGood(ix.C(), ix.RulesAt(Idle, ix.postings), ix.log)
  {
    LaxerRulesKeep(ix.C(), ix.R(), ix.RulesAt(Idle, ix.postings), ix.log);
  }

  /** The centres an operation appended that the snapshot lacks. */
  function NewCentres(s: Snapshot, centres: map<nat, Point>, ids: seq<nat>): seq<(nat, Point)> {
    if ids == [] then []
    else
      (if ids[0] !in s.centres && ids[0] in centres then [(ids[0], centres[ids[0]])] else [])
      + NewCentres(s, centres, ids[1..])
  }

  lemma {:induction false} NoneNew(s: Snapshot, centres: map<nat, Point>, ids: seq<nat>)
    requires s.centres == centres
    ensures NewCentres(s, centres, ids) == []
  {
    if ids != [] {
      NoneNew(s, centres, ids[1..]);
    }
  }

  ghost predicate ChildrenRetired(postings: map<nat, Posting>, op: Op) {
    op.Split? ==> forall p :: p in postings && p in {op.children.0, op.children.1} ==> postings[p].state.Retired?
  }

  /** The postings an unpublished drain is abandoned to. */
  function Restored(postings: map<nat, Posting>, op: Op): map<nat, Posting>
    requires op.Split? || op.Merge?
  {
    var retired := if op.Split? then Retiring(Retiring(postings, op.children.0), op.children.1) else postings;
    if op.posting in retired then retired[op.posting := retired[op.posting].(state := Active)] else retired
  }

  /** The drained posting is active, the children, if stored, retired and without a
      centroid, and every other posting as it was. */
  lemma RestoredIs(postings: map<nat, Posting>, op: Op, p: nat)
    requires op.Drained().Some? && p in postings
    requires op.Split? ==> op.posting != op.children.0 && op.posting != op.children.1
    ensures Restored(postings, op).Keys == postings.Keys
    ensures Restored(postings, op)[p] ==
            if p == op.posting then postings[p].(state := Active)
            else if op.Split? && (p == op.children.0 || p == op.children.1) then
              postings[p].(state := Retired, routing := [])
            else postings[p]
  {
  }

  /** Retire the children a split stored; nothing was ever filed under them. */
  method RetireChildren(ix: Index, op: nat, rec: Record) returns (r: Outcome, changed: seq<(nat, Posting)>)
    requires ix.Safe() && Current(ix) && Unpublished(ix.plan, op, rec)
    modifies ix`postings, ix`budget
    ensures ix.Safe() && !r.Corrupt? && Spent(old(ix.budget), ix.budget, r) && Since(old(PastOf(ix)), PastOf(ix), r)
    ensures r.Fine? ==> Behind(ix.snap, [], changed, ix.postings, ix.centres, ix.dim)
    ensures r.Fine? ==> ChildrenRetired(ix.postings, rec.op)
    ensures r.Fine? && rec.op.Split? ==>
            ix.postings == Retiring(Retiring(old(ix.postings), rec.op.children.0), rec.op.children.1)
    ensures r.Fine? && !rec.op.Split? ==> ix.postings == old(ix.postings)
  {
    hide PartsOk, PlanOk, AllGood, Since, Behind, RulesOf;
    changed := [];
    ghost var past := PastOf(ix);
    SinceNow(past);
    CurrentIsBehindNothing(ix);
    if rec.op.Split? {
      changed :- RetireChild(ix, ix.snap, changed, rec.op.children.0);
      ghost var past1 := PastOf(ix);
      r, changed := RetireChild(ix, ix.snap, changed, rec.op.children.1);
      SinceCompose(past, past1, PastOf(ix), r);
      return;
    }
    r := Fine;
  }

  method RestorePostings(ix: Index, op: nat, rec: Record) returns (r: Outcome, changed: seq<(nat, Posting)>)
    requires ix.Safe() && Current(ix) && Unpublished(ix.plan, op, rec)
    modifies ix`postings, ix`budget
    ensures ix.Safe() && !r.Corrupt? && Spent(old(ix.budget), ix.budget, r) && Since(old(PastOf(ix)), PastOf(ix), r)
    ensures r.Fine? ==>
            Behind(ix.snap, [], changed, ix.postings, ix.centres, ix.dim) && Rows(ix.snap.postings) == ix.snap.postings
    ensures r.Fine? ==> IsActive(ix.postings, rec.op.posting) && ChildrenRetired(ix.postings, rec.op)
    ensures r.Fine? ==> ix.postings == Restored(old(ix.postings), rec.op)
  {
    hide PartsOk, AllGood, Since, Behind, RulesOf, PlanOk, Rows;
    ghost var past := PastOf(ix);
    CurrentIsBehindNothing(ix);
    changed :- RetireChildren(ix, op, rec);
    MayReactivate(ix, op, rec);
    ghost var past1 := PastOf(ix);
    r, changed := Reactivate(ix, ix.snap, changed, op, rec);
    SinceCompose(past, past1, PastOf(ix), r);
  }

  /** The postings as they were, but for the children, in storage and in memory. */
  method RestoreAndPublish(ix: Index, op: nat, rec: Record) returns (r: Outcome)
    requires ix.Safe() && Current(ix) && Unpublished(ix.plan, op, rec)
    modifies ix`postings, ix`snap, ix`entered, ix`unsplittable, ix`unmergeable, ix`budget
    ensures ix.Safe() && !r.Corrupt? && Spent(old(ix.budget), ix.budget, r) && Since(old(PastOf(ix)), PastOf(ix), r)
    ensures old(MarksTrue(ix)) ==> MarksTrue(ix)
    ensures r.Fine? ==> Current(ix) && ix.postings == Restored(old(ix.postings), rec.op)
    ensures r.Fine? ==> IsActive(ix.postings, rec.op.posting) && ChildrenRetired(ix.postings, rec.op)
  {
    hide PartsOk, AllGood, Since, Behind, RulesOf, PlanOk, Rows, ChildrenRetired, Index.Sound, NewCentres, Restored,
         Retiring, Spared, Retain, MarksTrue;
    var changed :- RestorePostings(ix, op, rec);
    var centres := if rec.op.Split? then [rec.op.centres.0, rec.op.centres.1] else [];
    NoneNew(ix.snap, ix.centres, centres);
    r := PublishIfChanged(ix, NewCentres(ix.snap, ix.centres, centres), changed);
  }

  /** `abandon`: a drain that never published leaves its children retired and
      its posting active, with every chunk where it was. Cut short and redone,
      it ends the same. */
  method Abandon(ix: Index, op: nat, rec: Record) returns (r: Outcome)
    requires ix.Quiet() && ix.needsRecovery && Current(ix) && Unpublished(ix.plan, op, rec)
    modifies ix`postings, ix`snap, ix`entered, ix`unsplittable, ix`unmergeable, ix`budget, ix`journal, ix`plan
    ensures ix.Safe() && !r.Corrupt? && Spent(old(ix.budget), ix.budget, r) && Since(old(PastOf(ix)), PastOf(ix), r)
    ensures old(MarksTrue(ix)) ==> MarksTrue(ix)
    ensures r.Fine? ==> ix.Quiet() && Current(ix) && ix.plan.Idle?
    ensures r.Fine? ==> IsActive(ix.postings, rec.op.posting) && ChildrenRetired(ix.postings, rec.op)
    ensures r.Fine? ==> ix.postings == Restored(old(ix.postings), rec.op)
  {
    hide PartsOk, AllGood, Since, Behind, RulesOf, Agrees, PlanOk, Rows, ChildrenRetired, Settled, Index.Sound,
         NewCentres, Restored, Retiring, Spared, Retain, MarksTrue, Index.SnapOk, Index.Routed;
    ghost var past := PastOf(ix);
    :- RestoreAndPublish(ix, op, rec);
    SinceEver(past, PastOf(ix));
    r := ForgetDrain(ix, op, rec);
  }

  method ForgetDrain(ix: Index, op: nat, rec: Record) returns (r: Outcome)
    requires ix.Safe() && Unpublished(ix.plan, op, rec) && IsActive(ix.postings, rec.op.posting)
    modifies ix`budget, ix`journal, ix`plan
    ensures ix.Safe() && !r.Corrupt? && Spent(old(ix.budget), ix.budget, r)
    ensures r.Fine? ==> ix.plan.Idle?
  {
    hide PartsOk, PlanOk, AllGood, RulesOf;
    MayForgetDrain(ix, op, rec);
    r := DeleteRecord(ix, op, Idle);
  }

  /** During recovery nobody is in the routing epoch to wait for. */
  method PublishIfChanged(ix: Index, added: seq<(nat, Point)>, changed: seq<(nat, Posting)>) returns (r: Outcome)
    requires ix.Safe() && Behind(ix.snap, added, changed, ix.postings, ix.centres, ix.dim)
             && Rows(ix.snap.postings) == ix.snap.postings
    requires ix.entered == ix.snap
    modifies ix`snap, ix`entered, ix`unsplittable, ix`unmergeable
    ensures r.Fine? && ix.Safe() && Current(ix)
    ensures old(MarksTrue(ix)) ==> MarksTrue(ix)
  {
    r := Fine;
    if added != [] || changed != [] {
      r := Replace(ix, added, changed);
      ix.entered := ix.snap;
    }
  }

  // ── recover ──

  /** The oldest record is the one the plan starts with. */
  lemma OldestIsFirst(plan: Plan, postings: map<nat, Posting>, centres: map<nat, Point>)
    requires !plan.Idle? && PlanOk(plan, postings, centres)
    ensures JournalOf(plan) != map[] && Oldest(JournalOf(plan)) == plan.op && JournalOf(plan)[plan.op] == plan.rec
    ensures !plan.rec.op.Rebuild?
  {
    assert plan.op in JournalOf(plan);
    if plan.Two? {
      assert plan.next in JournalOf(plan);
    }
  }

  lemma StagesOf(plan: Plan, postings: map<nat, Posting>, centres: map<nat, Point>)
    requires !plan.Idle? && PlanOk(plan, postings, centres)
    ensures plan.rec.op.Reassign? ==> plan == One(plan.op, plan.rec)
    ensures !plan.rec.op.Reassign? ==> plan.rec.op.Drained().Some?
    ensures !plan.rec.op.Reassign? && plan.rec.state.Planned? ==> Unpublished(plan, plan.op, plan.rec)
    ensures !plan.rec.op.Reassign? && plan.rec.state.Published? ==> plan == One(plan.op, plan.rec)
    ensures !plan.rec.op.Reassign? && plan.rec.state.Copied? ==> CopiesMade(plan, plan.op, plan.rec)
  {
  }

  /** What finishing or abandoning the journal's operation makes of a document, stage by
      stage. A reassignment planned is run, one whose copies are made only shrinks its
      sources. A drain never published leaves the document alone; one published is
      carried out, a split with its reassignment; of one whose copies are made the
      originals go, and after a split the reassignment recorded, or planned now, is run. */
  ghost predicate RecoveredDoc(plan: Plan, space: G.Space, ops: Settings, s: Snapshot, s': Snapshot, dv: DocVec,
                               dv': DocVec)
    requires !plan.Idle?
  {
    var (op, state) := (plan.rec.op, plan.rec.state);
    match op
    case Reassign(_, _, _, _) =>
      var m := MovesOf(s, space, ops.gate, op);
      m.Some? && (if state.Planned? then Rehomed(m.value, dv, dv') else Shrunken(m.value, dv, dv'))
    case Split(_, _, _) =>
      (match state
       case Planned => dv' == dv
       case Published =>
         var (pl, m) := (PlacingFor(s, space, ops, op), MovesFor(s', space, ops, op));
         pl.Some? && m.Some? && SplitUp(pl.value, m.value, dv, dv')
       case Copied => Finished(op, MovesAfter(plan, s', space, ops, op), dv, dv'))
    case Merge(_, _) =>
      (match state
       case Planned => dv' == dv
       case Published => var pl := PlacingFor(s, space, ops, op); pl.Some? && Drained(pl.value, dv, dv')
       case Copied => dv' == Emptied(dv, op.posting))
    case Rebuild(_, _, _, _) => false
  }

  /** What it makes of the postings. */
  ghost predicate RecoveredPostings(plan: Plan, postings: map<nat, Posting>, postings': map<nat, Posting>)
    requires !plan.Idle?
  {
    if plan.rec.op.Split? || plan.rec.op.Merge? then
      if plan.rec.state.Planned? then postings' == Restored(postings, plan.rec.op)
      else postings' == Retiring(postings, plan.rec.op.posting)
    else postings' == postings
  }

  /** What recovery makes of a store with a plan in its journal: nothing, if it is empty. */
  ghost predicate Recovered(plan: Plan, space: G.Space, ops: Settings, s: Snapshot, s': Snapshot, v: Vec, v': Vec) {
    if plan.Idle? then s' == s && v' == v
    else
      && s'.centres == s.centres && RecoveredPostings(plan, s.postings, s'.postings)
      && forall d :: RecoveredDoc(plan, space, ops, s, s', At(v, d), At(v', d))
  }

  /** Finish or abandon one operation: every stage leaves the journal empty, and makes
      of the documents what it stands for. */
  method RecoverOne(ix: Index, op: nat, rec: Record) returns (r: Outcome)
    requires ix.Quiet() && ix.needsRecovery && Current(ix) && !ix.plan.Idle? && ix.plan.op == op && ix.plan.rec == rec
    modifies ix`docs, ix`queue, ix`lost, ix`log, ix`counts, ix`budget, ix`kept, ix`requests, ix`journal, ix`plan,
             ix`postings, ix`snap, ix`entered, ix`unsplittable, ix`unmergeable
    ensures ix.Safe() && !r.Corrupt? && Spent(old(ix.budget), ix.budget, r) && Since(old(PastOf(ix)), PastOf(ix), r)
    ensures old(MarksTrue(ix)) ==> MarksTrue(ix)
    ensures r.Fine? ==> ix.Quiet() && Current(ix) && ix.plan.Idle?
    ensures r.Fine? ==>
              Recovered(old(ix.plan), ix.space, ix.ops, old(ix.snap), ix.snap, Now(old(ix.log)), Now(ix.log))
  {
    hide PartsOk, PlanOk, AllGood, Since, RulesOf, Agrees, Settled, MarksTrue, MovesOf, MovesFor, MovesAfter,
         PlacingFor, Rehomed, Shrunken, Drained, SplitUp, Finished, Emptied, Restored, Retiring, Recovered, Index.Sound,
         Index.SnapOk, Index.Routed;
    StagesOf(ix.plan, ix.postings, ix.centres);
    ghost var plan, s, was := ix.plan, ix.snap, Now(ix.log);
    if rec.op.Reassign? {
      StatesOf(ix, op, rec);
      CurrentMayBeUsed(ix);
      r := RunReassign(ix, op, rec);
      if r.Fine? {
        ReassignRecovers(plan, ix.space, ix.ops, s, was, Now(ix.log));
      }
    } else if rec.state.Planned? {
      r := Abandon(ix, op, rec);
      if r.Fine? {
        AbandonRecovers(plan, ix.space, ix.ops, s, ix.snap, was);
      }
    } else {
      r := FinishDrain(ix, op, rec);
      if r.Fine? {
        DrainRecovers(plan, ix.space, ix.ops, s, ix.snap, was, Now(ix.log));
      }
    }
  }

  lemma ReassignRecovers(plan: Plan, space: G.Space, ops: Settings, s: Snapshot, v: Vec, v': Vec)
    requires !plan.Idle? && plan.rec.op.Reassign? && MovesOf(s, space, ops.gate, plan.rec.op).Some?
    requires var m := MovesOf(s, space, ops.gate, plan.rec.op).value;
             || (plan.rec.state.Planned? && forall d :: Rehomed(m, At(v, d), At(v', d)))
             || (plan.rec.state.Copied? && forall d :: Shrunken(m, At(v, d), At(v', d)))
    ensures Recovered(plan, space, ops, s, s, v, v')
  {
    hide MovesOf, Rehomed, Shrunken;
  }

  lemma AbandonRecovers(plan: Plan, space: G.Space, ops: Settings, s: Snapshot, s': Snapshot, v: Vec)
    requires !plan.Idle? && plan.rec.op.Drained().Some? && plan.rec.state.Planned?
    requires s' == Snapshot(Restored(s.postings, plan.rec.op), s.centres)
    ensures Recovered(plan, space, ops, s, s', v, v)
  {
    hide Restored;
  }

  lemma DrainRecovers(plan: Plan, space: G.Space, ops: Settings, s: Snapshot, s': Snapshot, v: Vec, v': Vec)
    requires !plan.Idle? && plan.rec.op.Drained().Some?
    requires s' == Snapshot(Retiring(s.postings, plan.rec.op.posting), s.centres)
    requires plan.rec.state.Published? ==>
               && PlacingFor(s, space, ops, plan.rec.op).Some?
               && (plan.rec.op.Split? ==> MovesFor(s', space, ops, plan.rec.op).Some?)
               && forall d ::
                    if plan.rec.op.Merge? then
                      Drained(PlacingFor(s, space, ops, plan.rec.op).value, At(v, d), At(v', d))
                    else
                      SplitUp(PlacingFor(s, space, ops, plan.rec.op).value,
                              MovesFor(s', space, ops, plan.rec.op).value, At(v, d), At(v', d))
    requires plan.rec.state.Copied? ==>
               forall d :: Finished(plan.rec.op, if plan.rec.op.Split? then
                                      MovesAfter(plan, s', space, ops, plan.rec.op) else None, At(v, d), At(v', d))
    requires !plan.rec.state.Planned?
    ensures Recovered(plan, space, ops, s, s', v, v')
  {
    hide PlacingFor, MovesFor, MovesAfter, Drained, SplitUp, Rehomed, Emptied, Retiring;
    forall d ensures RecoveredDoc(plan, space, ops, s, s', At(v, d), At(v', d)) {
      assert plan.rec.state.Copied? ==>
          Finished(plan.rec.op, if plan.rec.op.Split? then MovesAfter(plan, s', space, ops, plan.rec.op) else None,
                   At(v, d), At(v', d));
    }
  }

  /** `recover_locked`: take the oldest unfinished operation, finish or abandon
      it, and read the journal again until it is empty. Each turn empties the
      journal, so no record is ever met twice. */
  method RecoverLocked(ix: Index) returns (r: Outcome)
    requires ix.Quiet() && ix.needsRecovery && Current(ix)
    modifies ix`docs, ix`queue, ix`lost, ix`log, ix`counts, ix`budget, ix`kept, ix`requests, ix`journal, ix`plan,
             ix`postings, ix`snap, ix`entered, ix`unsplittable, ix`unmergeable, ix`needsRecovery
    ensures ix.Safe() && !r.Corrupt? && Spent(old(ix.budget), ix.budget, r)
    ensures old(MarksTrue(ix)) ==> MarksTrue(ix)
    ensures IdsKept(old(ix.postings), old(ix.centres), ix.postings, ix.centres)
    ensures ix.kept == old(ix.kept) && ix.requests == old(ix.requests) && ix.docs == old(ix.docs)
            && ix.queue == old(ix.queue)
    ensures r.Fine? ==> ix.Live() && Current(ix) && ix.plan.Idle? && |ix.log| == 1
    ensures r.Fine? ==>
              Recovered(old(ix.plan), ix.space, ix.ops, old(ix.snap), ix.snap, Now(old(ix.log)), Now(ix.log))
    ensures !r.Fine? ==> ix.needsRecovery
  {
    hide PartsOk, PlanOk, AllGood, RulesOf, Agrees, Settled, MarksTrue, RecoveredDoc, RecoveredPostings;
    var last: Option<(nat, Record)> := None;
    while ix.journal != map[]
      invariant Spent(old(ix.budget), ix.budget, Fine)
      invariant ix.Quiet() && ix.needsRecovery && Current(ix)
      invariant Since(old(PastOf(ix)), PastOf(ix), Fine)
      invariant last.Some? ==> ix.plan.Idle?
      invariant last.None? ==> unchanged(ix`plan, ix`snap, ix`log)
      invariant last.Some? ==>
                  Recovered(old(ix.plan), ix.space, ix.ops, old(ix.snap), ix.snap, Now(old(ix.log)), Now(ix.log))
      invariant old(MarksTrue(ix)) ==> MarksTrue(ix)
      decreases |ix.journal|
    {
      assert !ix.plan.Idle?;
      OldestIsFirst(ix.plan, ix.postings, ix.centres);
      var op := Oldest(ix.journal);
      var rec := ix.journal[op];
      ghost var past := PastOf(ix);
      r := if last == Some((op, rec)) then Corrupt else Fine;
      if r.Fine? {
        r := RecoverOne(ix, op, rec);
        SinceCompose(old(PastOf(ix)), past, PastOf(ix), r);
      }
      if !r.Fine? {
        return;
      }
      assert |JournalOf(Idle)| == 0;
      last := Some((op, rec));
    }
    IdleWhenEmpty(ix.plan);
    NothingLoose(ix);
    ix.needsRecovery := false;
    r := Fine;
  }

  lemma IdleWhenEmpty(plan: Plan)
    ensures JournalOf(plan) == map[] <==> plan.Idle?
  {
    if !plan.Idle? {
      assert plan.op in JournalOf(plan);
    }
  }

  lemma NothingLoose(ix: Index)
    requires ix.Safe() && ix.plan.Idle? && Current(ix) && |ix.log| == 1
    ensures ix.SnapOk() && Settled(ix.log)
  {
    CurrentMayBeUsed(ix);
    AloneIsSettled(ix.C(), ix.R(), ix.log);
  }

  // ── crash and reload ──

  /** More queued, less to vouch for. */
  lemma MoreQueued(c: Claims, c': Claims, r: Rules, log: Log)
    requires AllGood(c, r, log) && c.queued <= c'.queued && c' == c.(queued := c'.queued)
    ensures AllGood(c', r, log)
  {
    forall i, d | 0 <= i < |log| ensures Good(c', r, d, At(log[i], d)) {
      assert Good(c, r, d, At(log[i], d));
    }
  }

  function Among(m: map<Doc, Q.Entry>, ds: set<Doc>): map<Doc, Q.Entry> {
    map d | d in m && d in ds :: m[d]
  }

  lemma NoMarksAreTrue(twoMeans: TwoMeans, space: G.Space, ops: Settings)
    ensures RefusalsTrue(twoMeans, ops.mergeLimit, map[], map[])
    ensures DeclinesTrue(space, ops.splitLimit, map[], map[])
  {
  }

  /** Build what is kept in memory from what is stored. */
  method Load(ix: Index) returns (r: Outcome)
    requires ix.Safe() && |ix.log| == 1
    modifies ix`snap, ix`entered, ix`counts, ix`unsplittable, ix`unmergeable, ix`refused, ix`declined, ix`needsRecovery
    ensures r.Fine? && ix.Quiet() && ix.needsRecovery && Current(ix) && ix.refused == map[] == ix.declined
            && MarksTrue(ix)
  {
    hide PartsOk, PlanOk, RulesOf, Agrees, Settled, FromParts, AllGood, RefusalsTrue, DeclinesTrue, SomeLive,
         Index.Sound, Index.SnapOk, Index.Routed;
    SafeHasLive(ix);
    NoMarksAreTrue(ix.twoMeans, ix.space, ix.ops);
    LoadsStored(ix);
    var loaded := FromParts(ix.postings, ix.centres, ix.dim);
    r := if loaded.None? then Corrupt else Fine;
    if loaded.Some? {
      ix.snap, ix.entered, ix.needsRecovery := loaded.value, loaded.value, true;
      ix.counts := CountPostings(Now(ix.log));
      ix.unsplittable, ix.unmergeable, ix.refused, ix.declined := map[], map[], map[], map[];
    }
  }

  /** The process dies and another opens the store: of the vector index WAL some
      prefix survived, of the removals from the queue that no WAL recorded some
      did not, and everything in memory is built again. */
  method Reload(ix: Index, survivor: nat, back: set<Doc>, budget: Option<nat>) returns (r: Outcome)
    requires ix.Safe() && survivor < |ix.log|
    modifies ix`log, ix`queue, ix`lost, ix`snap, ix`entered, ix`counts, ix`unsplittable, ix`unmergeable, ix`refused,
      ix`declined,
      ix`needsRecovery, ix`budget
    ensures r.Fine? && ix.Quiet() && ix.needsRecovery && Current(ix) && ix.refused == map[] == ix.declined
            && MarksTrue(ix)
    ensures ix.log == [old(ix.log)[survivor]]
    ensures ix.queue.Keys == old(ix.queue.Keys) + old(ix.lost.Keys) * back
    ensures forall d :: d in ix.queue ==>
              ix.queue[d] == if d in old(ix.queue) then old(ix.queue)[d] else old(ix.lost)[d]
    ensures ix.budget == budget
  {
    hide PartsOk, PlanOk, RulesOf, Agrees, Settled, FromParts, AllGood, Index.Sound;
    CrashKeeps(ix.C(), ix.R(), ix.log, survivor);
    var queue := Among(ix.lost, back) + ix.queue;
    MoreQueued(ix.C(), Claims(ix.e, queue.Keys, ix.docs, ix.kept), ix.R(), [ix.log[survivor]]);
    ix.log, ix.queue, ix.lost, ix.budget := [ix.log[survivor]], queue, map[], budget;
    r := Load(ix);
  }

  lemma LoadsStored(ix: Index)
    requires PartsOk(ix.postings, ix.centres, ix.dim) && SomeLive(ix.postings)
    ensures FromParts(ix.postings, ix.centres, ix.dim) == Some(Snapshot(ix.postings, ix.centres))
  {
    var p :| p in ix.postings && !ix.postings[p].state.Retired?;
    SoundPartsLoad(ix.postings, ix.centres, ix.dim, p);
  }
}
