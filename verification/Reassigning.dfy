/** The reassignment that follows every split: chunks of the halves and of the
    postings around them that are now nearer another posting move there, between
    active postings (`reassign::plan`, `reassign::run`). */
module Reassigning {
  import opened Codes
  import opened Vectors
  import opened Counts
  import opened Partition
  import opened Neighbours
  import opened Marks
  import opened Requests
  import opened Store
  import opened Steps
  import opened Copying
  import opened Publishing
  import opened Shrinking
  import opened Effects
  import G = Geometry

  /** `reassign::plan`: the halves, and the active postings nearest the old centre. */
  function PlanReassign(s: Snapshot, space: G.Space, ops: Settings, parent: nat, children: (nat, nat)): Option<Record> {
    if !HasCentre(s, parent) || !HasCentre(s, children.0) || !HasCentre(s, children.1) then None
    else
      var others := AllBut(ActiveCentres(s), {children.0, children.1});
      var near := G.Neighbours(space, CentreOf(s, parent), others, ops.reassignRange);
      Some(Record(Planned, Reassign(parent, s.postings[parent].centreId, children, [children.0, children.1] + near)))
  }

  /** The first recorded reassignment of `parent`, in operation order. */
  function FindReassign(j: Journal, ops: seq<nat>, parent: nat): (o: Option<nat>)
    requires forall op :: op in ops ==> op in j
    ensures o.Some? ==> o.value in j && j[o.value].op.Reassign? && j[o.value].op.parent == parent
    ensures o.None? ==> forall op :: op in ops ==> !(j[op].op.Reassign? && j[op].op.parent == parent)
  {
    if ops == [] then None
    else if j[ops[0]].op.Reassign? && j[ops[0]].op.parent == parent then Some(ops[0])
    else FindReassign(j, ops[1..], parent)
  }

  // ── What a reassignment moves ──

  lemma SourcesDiffer(s: Snapshot, scope: seq<nat>)
    requires Distinct(scope)
    ensures forall i, j :: 0 <= i < j < |Sources(s, scope)| ==> Sources(s, scope)[i].0 != Sources(s, scope)[j].0
  {
    if scope != [] {
      var rest := Sources(s, scope[1..]);
      forall i, j | 0 <= i < j < |scope[1..]| ensures scope[1..][i] != scope[1..][j] {
        assert scope[i + 1] != scope[j + 1];
      }
      SourcesDiffer(s, scope[1..]);
      forall j | 0 <= j < |rest| ensures rest[j].0 != scope[0] {
        assert rest[j] in rest && rest[j].0 in scope[1..];
        var k :| 0 <= k < |scope[1..]| && scope[1..][k] == rest[j].0;
        assert scope[k + 1] == rest[j].0;
      }
    }
  }

  /** The sources are exactly the postings of the scope that are active, with their
      centres. */
  lemma {:induction false} SourcesAreActive(s: Snapshot, scope: seq<nat>, p: nat) returns (k: nat)
    requires p in scope && p in Routable(s)
    ensures k < |Sources(s, scope)| && Sources(s, scope)[k] == (p, CentreOf(s, p))
  {
    if scope[0] == p {
      k := 0;
    } else {
      var i := SourcesAreActive(s, scope[1..], p);
      k := if scope[0] in Routable(s) then i + 1 else i;
    }
  }

  /** The reassignment in the journal: every centre it names is known, its
      sources differ, and it moves chunks only to active postings. */
  lemma MovesExist(ix: Index, op: nat, rec: Record)
    requires ix.Safe() && Current(ix) && ix.plan == One(op, rec) && rec.op.Reassign?
    ensures var m := MovesOf(ix.snap, ix.space, ix.ops.gate, rec.op);
            && m.Some? && DistinctSources(m.value)
            && (forall c :: c in m.value.rule.active ==> MayReceive(ix.R(), c.0))
            && (rec.state.Copied? ==> ShrinkingBy(ix.R(), m.value))
            && (rec.state.Planned? ==> OnlyCopying(ix.R()))
  {
    assert ix.postings[rec.op.parent].centreId in ix.centres;
    assert ix.postings[rec.op.children.0].centreId in ix.centres
      && ix.postings[rec.op.children.1].centreId in ix.centres;
    SourcesDiffer(ix.snap, rec.op.scope);
    var m := MovesOf(ix.snap, ix.space, ix.ops.gate, rec.op).value;
    forall c | c in m.rule.active ensures MayReceive(ix.R(), c.0) {
      var i :| 0 <= i < |ActiveCentres(ix.snap)| && ActiveCentres(ix.snap)[i] == c;
      assert c.0 in Routable(ix.snap);
    }
  }

  lemma {:induction false} DepartingIsHeld(m: Moves, dv: DocVec, n: nat)
    requires n <= |m.sources|
    ensures forall x :: x in AllDeparting(m, dv, n) ==>
            Bare(x) in HeldSet(dv) && exists c :: c in m.rule.active && c.0 == x.clusterId
  {
    if n > 0 {
      DepartingIsHeld(m, dv, n - 1);
      var codes := HeldAt(dv, m.sources[n - 1].0);
      forall x | x in Departing(m, n - 1, codes)
        ensures Bare(x) in HeldSet(dv) && exists c :: c in m.rule.active && c.0 == x.clusterId
      {
        var c :| c in codes && m.To(n - 1, c) == Some(x.clusterId) && Bare(x) == Bare(c);
        G.MovesHome(m.space, m.centres, m.rule, m.sources[n - 1], c);
        assert m.sources[n - 1].0 in dv.keys && Bare(c) in Held(dv.keys[m.sources[n - 1].0]);
      }
    }
  }

  lemma {:induction false} DepartsFrom(m: Moves, dv: DocVec, n: nat, k: nat)
    requires k < n <= |m.sources| && Departing(m, k, HeldAt(dv, m.sources[k].0)) != []
    ensures AllDeparting(m, dv, n) != []
  {
    hide Departing, HeldAt, G.Decide, Leaving;
    if k < n - 1 {
      DepartsFrom(m, dv, n - 1, k);
    }
  }

  lemma DepartingIsMovable(r: Rules, m: Moves, dv: DocVec, moving: map<nat, seq<VectorIndex>>)
    requires Groups(AllDeparting(m, dv, |m.sources|), moving)
    requires forall c :: c in m.rule.active ==> MayReceive(r, c.0)
    ensures Movable(r, HeldSet(dv), moving)
  {
    DepartingIsHeld(m, dv, |m.sources|);
    GroupsMembers(AllDeparting(m, dv, |m.sources|), moving);
    forall q | q in moving
      ensures MayReceive(r, q) && moving[q] != [] && forall c :: c in moving[q] ==>
              c.clusterId == q && Bare(c) in HeldSet(dv)
    {
      var x :| x in AllDeparting(m, dv, |m.sources|) && x.clusterId == q;
    }
  }

  /** The documents holding a chunk that moves. */
  function Selected(m: Moves, v: Vec): set<Doc> {
    set d | d in v && AllDeparting(m, v[d], |m.sources|) != []
  }

  // ── Copy ──

  lemma NothingMoves(ix: Index, m: Moves, d: Doc, moving: map<nat, seq<VectorIndex>>)
    requires ix.Safe() && Groups(AllDeparting(m, At(Now(ix.log), d), |m.sources|), moving)
    requires moving == map[] || At(Now(ix.log), d).meta.None?
    ensures MovedOut(m, At(Now(ix.log), d), At(Now(ix.log), d))
  {
    var dv := At(Now(ix.log), d);
    assert Good(ix.C(), ix.R(), d, At(ix.log[|ix.log| - 1], d)) && Keyed(ix.R(), dv);
    var all := AllDeparting(m, dv, |m.sources|);
    DepartingIsHeld(m, dv, |m.sources|);
    NoMembers(all);
  }

  lemma NoMembers(s: seq<VectorIndex>)
    ensures s == [] <==> forall x :: x !in s
  {
    assert s != [] ==> s[0] in s;
  }

  /** One document's moves, under its lock. */
  method MoveDoc(ix: Index, m: Moves, d: Doc) returns (r: Outcome, delta: Delta)
    requires ix.Safe() && OnlyCopying(ix.R()) && forall c :: c in m.rule.active ==> MayReceive(ix.R(), c.0)
    modifies ix`budget, ix`log
    ensures ix.Safe() && !r.Corrupt? && Spent(old(ix.budget), ix.budget, r)
    ensures r.Fine? ==> OnlyDoc(Now(old(ix.log)), Now(ix.log), d)
    ensures r.Fine? ==> RecordDelta(At(Now(old(ix.log)), d), At(Now(ix.log), d), delta)
    ensures r.Fine? ==> MovedOut(m, At(Now(old(ix.log)), d), At(Now(ix.log), d))
  {
    hide PartsOk, PlanOk, RulesOf, AllGood, Movable, Groups, HeldSet, OnlyCopying, MayReceive, AllDeparting, Gained;
    delta := NO_CHANGE;
    var dv := At(Now(ix.log), d);
    var moving := Group(AllDeparting(m, dv, |m.sources|));
    if moving == map[] || dv.meta.None? {
      NothingMoves(ix, m, d, moving);
      return Fine, delta;
    }
    DepartingIsMovable(ix.R(), m, dv, moving);
    delta :- CopyInto(ix, HeldSet(dv), d, moving);
    return Fine, delta;
  }

  /** A batch of moves, synced before its locks are released. */
  method MoveBatch(ix: Index, m: Moves, batch: seq<Doc>) returns (r: Outcome)
    requires StrictlyUp(batch)
    requires ix.Quiet() && OnlyCopying(ix.R()) && forall c :: c in m.rule.active ==> MayReceive(ix.R(), c.0)
    modifies ix`budget, ix`log, ix`counts
    ensures ix.Safe() && !r.Corrupt? && Spent(old(ix.budget), ix.budget, r)
    ensures r.Fine? ==> ix.Quiet() && |ix.log| == 1
    ensures r.Fine? ==> Only(MovesOut(m), Now(old(ix.log)), Now(ix.log), Elements(batch))
  {
    hide PartsOk, PlanOk, RulesOf, AllGood, Agrees, Accounts, RecordDelta, MayReceive, Settled, Only, StrictlyUp,
         MovedOut;
    ghost var was := Now(ix.log);
    var delta := NO_CHANGE;
    NothingAccounts(was);
    OnlyNone(MovesOut(m), was, batch);
    for k := 0 to |batch|
      invariant Spent(old(ix.budget), ix.budget, Fine)
      invariant Only(MovesOut(m), was, Now(ix.log), Elements(batch[..k]))
      invariant ix.Safe() && Accounts(was, Now(ix.log), delta) && ix.counts == old(ix.counts)
    {
      ghost var before := Now(ix.log);
      var change :- MoveDoc(ix, m, batch[k]);
      RecordAccounts(before, Now(ix.log), batch[k], change);
      AccountsCompose(was, before, Now(ix.log), delta, change);
      delta := Extend(delta, change);
      OnlyOneMore(MovesOut(m), was, before, Now(ix.log), batch, k);
    }
    assert batch[..|batch|] == batch;
    :- ix.SyncLog();
    ApplyKeepsAgreement(ix.counts, was, Now(ix.log), delta);
    ix.counts := ApplyDelta(ix.counts, delta);
    QuietAfterBatch(ix);
    return Fine;
  }

  /** Others' turn, then one batch. */
  method MoveTurn(ix: Index, m: Moves, batch: seq<Doc>) returns (r: Outcome)
    requires StrictlyUp(batch)
    requires ix.Quiet() && OnlyCopying(ix.R()) && forall c :: c in m.rule.active ==> MayReceive(ix.R(), c.0)
    modifies ix`docs, ix`queue, ix`lost, ix`log, ix`counts, ix`budget, ix`kept, ix`requests
    ensures ix.Safe() && !r.Corrupt? && Spent(old(ix.budget), ix.budget, r) && Since(old(PastOf(ix)), PastOf(ix), r)
    ensures r.Fine? ==> ix.Quiet()
    ensures r.Fine? && old(ix.Alone()) ==> Only(MovesOut(m), Now(old(ix.log)), Now(ix.log), Elements(batch))
  {
    hide PartsOk, PlanOk, RulesOf, AllGood, Agrees, MayReceive, OnlyCopying, Settled, Since, Spared, Interfered,
         Index.Sound, Only;
    ghost var past := PastOf(ix);
    r := ix.Yield();
    SinceYield(past, ix, r);
    if r.Fine? {
      r := MoveBatch(ix, m, batch);
    }
  }

  /** Copy every moving chunk, others running before each batch. */
  method MoveCopies(ix: Index, m: Moves, docs: seq<Doc>) returns (r: Outcome)
    requires StrictlyUp(docs)
    requires ix.Quiet() && OnlyCopying(ix.R()) && forall c :: c in m.rule.active ==> MayReceive(ix.R(), c.0)
    modifies ix`docs, ix`queue, ix`lost, ix`log, ix`counts, ix`budget, ix`kept, ix`requests
    ensures ix.Safe() && !r.Corrupt? && Spent(old(ix.budget), ix.budget, r) && Since(old(PastOf(ix)), PastOf(ix), r)
    ensures r.Fine? ==> ix.Quiet()
    ensures r.Fine? && old(ix.Alone()) ==> Only(MovesOut(m), Now(old(ix.log)), Now(ix.log), Elements(docs))
  {
    hide PartsOk, PlanOk, RulesOf, AllGood, Agrees, MayReceive, OnlyCopying, Settled, Since, Spared, Index.Sound,
         Index.SnapOk, Index.Routed, Only, StrictlyUp;
    ghost var past, was := PastOf(ix), Now(ix.log);
    SinceNow(past);
    OnlyNone(MovesOut(m), was, docs);
    var i := 0;
    while i < |docs|
      invariant Spent(old(ix.budget), ix.budget, Fine)
      invariant i <= |docs| && ix.Quiet() && Since(past, PastOf(ix), Fine)
      invariant old(ix.Alone()) ==> ix.Alone() && Only(MovesOut(m), was, Now(ix.log), Elements(docs[..i]))
    {
      var j := Min(i + BATCH_DOCS, |docs|);
      ghost var before, was1 := PastOf(ix), Now(ix.log);
      SlicesGoUp(docs, i, j);
      r := MoveTurn(ix, m, docs[i..j]);
      SinceCompose(past, before, PastOf(ix), r);
      if !r.Fine? {
        return;
      }
      if old(ix.Alone()) {
        StaysAlone(past, ix);
        OnlyMore(MovesOut(m), was, was1, Now(ix.log), docs, i, j);
      }
      i := j;
    }
    assert docs[..|docs|] == docs;
    return Fine;
  }

  // ── Barrier ──

  lemma SyncSettles(log: Log)
    requires Settled(log)
    ensures Settled(Synced(log))
  {
    forall i, d | 0 <= i < |Synced(log)| ensures SettledDoc(At(Synced(log)[i], d), At(Now(Synced(log)), d)) {
      assert SettledDoc(At(log[|log| - 1], d), At(Now(log), d));
    }
  }

  /** Sources may be shrunk from here on: nothing is unlisted yet. */
  lemma MayRecordMoved(ix: Index, op: nat, rec: Record)
    requires ix.Safe() && Current(ix) && ix.plan == One(op, rec) && rec.op.Reassign? && rec.state.Planned?
    ensures var next := One(op, rec.With(Copied));
            && JournalOf(next) == ix.journal[op := rec.With(Copied)]
            && PlanOk(next, ix.postings, ix.centres)
            && AllGood(ix.C(), ix.RulesAt(next, ix.postings), ix.log)
  {
    var r, r' := ix.R(), ix.RulesAt(One(op, rec.With(Copied)), ix.postings);
    forall i, d | 0 <= i < |ix.log| ensures Good(ix.C(), r', d, At(ix.log[i], d)) {
      var dv := At(ix.log[i], d);
      assert Good(ix.C(), r, d, dv);
      forall p | p in dv.keys ensures KeyOk(r', dv.meta, p, dv.keys[p]) && p in Lists(dv.meta) {
        assert KeyOk(r, dv.meta, p, dv.keys[p]);
      }
    }
  }

  lemma AllListedYet(ix: Index, op: nat, rec: Record)
    requires ix.Safe() && ix.plan == One(op, rec) && rec.op.Reassign? && rec.state.Planned?
    ensures ListedBut(ix.log, {})
  {
    forall i, d | 0 <= i < |ix.log| ensures Listed(At(ix.log[i], d)) {
      var dv := At(ix.log[i], d);
      assert Good(ix.C(), ix.R(), d, dv);
      forall p | p in dv.keys ensures p in Lists(dv.meta) {
        assert KeyOk(ix.R(), dv.meta, p, dv.keys[p]);
      }
    }
  }

  /** The copies are durable before any source shrinks. */
  method MoveBarrier(ix: Index, op: nat, rec: Record) returns (r: Outcome)
    requires ix.Quiet() && Current(ix) && ix.plan == One(op, rec) && rec.op.Reassign? && rec.state.Planned?
    modifies ix`log, ix`budget, ix`journal, ix`plan
    ensures ix.Safe() && !r.Corrupt? && Spent(old(ix.budget), ix.budget, r) && PastOf(ix) == old(PastOf(ix))
    ensures r.Fine? ==> ix.Quiet() && ix.plan == One(op, rec.With(Copied)) && |ix.log| == 1 && ListedBut(ix.log, {})
    ensures r.Fine? ==> Now(ix.log) == Now(old(ix.log))
  {
    hide PartsOk, PlanOk, AllGood, Agrees, Settled, ListedBut, Index.Sound, Index.SnapOk, Index.Routed;
    if Settled(ix.log) {
      SyncSettles(ix.log);
    }
    :- ix.SyncLog();
    MayRecordMoved(ix, op, rec);
    AllListedYet(ix, op, rec);
    :- WriteRecord(ix, op, rec.With(Copied), One(op, rec.With(Copied)));
    CurrentMayBeUsed(ix);
    return Fine;
  }

  // ── Shrink ──

  /** Every document's meta lists its keys, but perhaps those of `rest`. */
  ghost predicate ListedBut(log: Log, rest: set<Doc>) {
    forall i, d :: 0 <= i < |log| && d !in rest ==> Listed(At(log[i], d))
  }

  /** A document none of whose chunks moves lists all its keys: so a redo, which
      selects the others, meets every unlisted one. */
  lemma UnselectedIsListed(c: Claims, r: Rules, d: Doc, m: Moves, dv: DocVec)
    requires Good(c, r, d, dv) && ShrinkingBy(r, m) && AllDeparting(m, dv, |m.sources|) == []
    ensures Listed(dv)
  {
    hide AllDeparting, Leaving;
    forall p | p in dv.keys ensures p in Lists(dv.meta) {
      assert KeyOk(r, dv.meta, p, dv.keys[p]);
      if p !in Lists(dv.meta) {
        LeavingDeparts(m, dv, p);
      }
    }
  }

  lemma UnlistedIsSelected(ix: Index, m: Moves, docs: seq<Doc>)
    requires ix.Quiet() && ShrinkingBy(ix.R(), m)
    requires forall d :: d in docs <==> d in Selected(m, Now(ix.log))
    ensures ix.needsRecovery ==> ListedBut(ix.log, RestOf(docs, 0))
  {
    hide PartsOk, PlanOk, RulesOf, Agrees, Settled, Good, ShrinkingBy, AllDeparting, Index.Sound;
    assert docs[0..] == docs;
    if ix.needsRecovery {
      forall d | d !in docs ensures Listed(At(ix.log[0], d)) {
        assert Good(ix.C(), ix.R(), d, At(ix.log[0], d));
        if d in ix.log[0] {
          UnselectedIsListed(ix.C(), ix.R(), d, m, At(ix.log[0], d));
        }
      }
    }
  }

  lemma LeavingDeparts(m: Moves, dv: DocVec, p: nat)
    requires p in dv.keys && dv.keys[p] != [] && p !in Lists(dv.meta) && LeavingOk(Some(m), dv)
    requires exists k :: 0 <= k < |m.sources| && m.sources[k].0 == p
    ensures AllDeparting(m, dv, |m.sources|) != []
  {
    var k :| 0 <= k < |m.sources| && m.sources[k].0 == p;
    var c := dv.keys[p][0];
    assert c in HeldAt(dv, p) && Leaving(m, dv, k);
    assert Bare(Bare(c)) == Bare(c);
    assert m.To(k, c) == m.To(k, Bare(c));
    DepartsFrom(m, dv, |m.sources|, k);
  }

  /** A batch of shrinks, synced before its locks are released. */
  method ShrinkBatch(ix: Index, m: Moves, batch: seq<Doc>) returns (r: Outcome)
    requires StrictlyUp(batch)
    requires ix.Safe() && Agrees(ix.counts, Now(ix.log)) && ShrinkingBy(ix.R(), m)
    modifies ix`budget, ix`log, ix`counts
    ensures ix.Safe() && !r.Corrupt? && Spent(old(ix.budget), ix.budget, r)
    ensures r.Fine? ==> |ix.log| == 1 && Agrees(ix.counts, Now(ix.log))
    ensures r.Fine? ==> Only(Shrinks(m), Now(old(ix.log)), Now(ix.log), Elements(batch))
    ensures r.Fine? ==> forall d :: d in batch ==> Listed(At(Now(ix.log), d))
  {
    hide PartsOk, PlanOk, RulesOf, AllGood, Agrees, Listed, ShrinkingBy, Only, StrictlyUp, Shrunken;
    ghost var was := Now(ix.log);
    OnlyNone(Shrinks(m), was, batch);
    for k := 0 to |batch|
      invariant Spent(old(ix.budget), ix.budget, Fine)
      invariant ix.Safe() && Agrees(ix.counts, Now(ix.log))
      invariant Only(Shrinks(m), was, Now(ix.log), Elements(batch[..k]))
      invariant forall d :: d in batch[..k] ==> Listed(At(Now(ix.log), d))
    {
      ghost var before := Now(ix.log);
      :- ShrinkDoc(ix, m, batch[k]);
      OnlyOneMore(Shrinks(m), was, before, Now(ix.log), batch, k);
      assert batch[..k + 1] == batch[..k] + [batch[k]];
    }
    assert batch[..|batch|] == batch;
    :- ix.SyncLog();
    return Fine;
  }

  lemma BatchLists(m: Moves, log: Log, log': Log, rest: set<Doc>, batch: seq<Doc>)
    requires |log'| == 1
    requires Only(Shrinks(m), Now(log), Now(log'), Elements(batch))
    requires forall d :: d in batch ==> Listed(At(Now(log'), d))
    ensures ListedBut(log, rest) ==> ListedBut(log', rest - (set d | d in batch))
    ensures Settled(log) ==> Settled(log')
  {
    if ListedBut(log, rest) {
      forall i, d | 0 <= i < |log'| && d !in rest - (set d | d in batch) ensures Listed(At(log'[i], d)) {
        if d !in batch {
          assert Listed(At(log[|log| - 1], d));
        }
      }
    }
    if Settled(log) {
      forall i, d | 0 <= i < |log'| ensures SettledDoc(At(log'[i], d), At(Now(log'), d)) {
        assert SettledDoc(At(log[|log| - 1], d), At(Now(log), d));
      }
    }
  }

  /** Others' turn, then one batch. */
  method ShrinkTurn(ix: Index, m: Moves, batch: seq<Doc>, ghost rest: set<Doc>, ghost past: Past) returns (r: Outcome)
    requires ix.Quiet() && ShrinkingBy(ix.R(), m) && Since(past, PastOf(ix), Fine)
    requires StrictlyUp(batch)
    requires ix.needsRecovery ==> ListedBut(ix.log, rest)
    modifies ix`docs, ix`queue, ix`lost, ix`log, ix`counts, ix`budget, ix`kept, ix`requests
    ensures ix.Safe() && !r.Corrupt? && Spent(old(ix.budget), ix.budget, r) && Since(past, PastOf(ix), r)
    ensures r.Fine? && old(ix.Alone()) ==> Only(Shrinks(m), Now(old(ix.log)), Now(ix.log), Elements(batch))
    ensures r.Fine? ==> ix.Quiet() && (ix.needsRecovery ==> ListedBut(ix.log, rest - (set d | d in batch)))
  {
    hide PartsOk, PlanOk, RulesOf, AllGood, ListedBut, Agrees, Settled, Since, ShrinkingBy, Only, Index.Sound,
         Index.SnapOk, Index.Routed;
    ghost var past0 := PastOf(ix);
    r := ix.Yield();
    SinceYield(past0, ix, r);
    SinceCompose(past, past0, PastOf(ix), r);
    if r.Fine? {
      ghost var log1 := ix.log;
      :- ShrinkBatch(ix, m, batch);
      BatchLists(m, log1, ix.log, rest, batch);
    }
  }

  lemma ListedButFewer(log: Log, rest: set<Doc>, more: set<Doc>)
    requires ListedBut(log, rest) && rest <= more
    ensures ListedBut(log, more)
  {
  }

  /** Shrink every selected document: afterwards nothing is unlisted. */
  method ShrinkSources(ix: Index, m: Moves, docs: seq<Doc>) returns (r: Outcome)
    requires ix.Quiet() && ShrinkingBy(ix.R(), m)
    requires StrictlyUp(docs)
    requires ix.needsRecovery ==> ListedBut(ix.log, RestOf(docs, 0))
    modifies ix`docs, ix`queue, ix`lost, ix`log, ix`counts, ix`budget, ix`kept, ix`requests
    ensures ix.Safe() && !r.Corrupt? && Spent(old(ix.budget), ix.budget, r) && Since(old(PastOf(ix)), PastOf(ix), r)
    ensures r.Fine? ==> ix.Quiet() && ListedBut(ix.log, {})
    ensures r.Fine? && old(ix.Alone()) ==> Only(Shrinks(m), Now(old(ix.log)), Now(ix.log), Elements(docs))
  {
    hide PartsOk, PlanOk, RulesOf, AllGood, Agrees, Settled, Since, ListedBut, ShrinkingBy, Only, StrictlyUp,
         Index.Sound, Index.SnapOk, Index.Routed;
    ghost var past, was := PastOf(ix), Now(ix.log);
    SinceNow(past);
    OnlyNone(Shrinks(m), was, docs);
    var i := 0;
    while i < |docs|
      invariant Spent(old(ix.budget), ix.budget, Fine)
      invariant i <= |docs| && ix.Quiet() && Since(past, PastOf(ix), Fine)
      invariant ix.needsRecovery ==> ListedBut(ix.log, RestOf(docs, i))
      invariant old(ix.Alone()) ==> ix.Alone() && Only(Shrinks(m), was, Now(ix.log), Elements(docs[..i]))
    {
      var j := Min(i + BATCH_DOCS, |docs|);
      ghost var before := Now(ix.log);
      SlicesGoUp(docs, i, j);
      r := ShrinkTurn(ix, m, docs[i..j], RestOf(docs, i), past);
      if !r.Fine? {
        return;
      }
      RestSplits(docs, i, j);
      if old(ix.Alone()) {
        StaysAlone(past, ix);
        OnlyMore(Shrinks(m), was, before, Now(ix.log), docs, i, j);
      }
      if ix.needsRecovery {
        ListedButFewer(ix.log, RestOf(docs, i) - (set d | d in docs[i..j]), RestOf(docs, j));
      }
      i := j;
    }
    assert RestOf(docs, |docs|) == {} && docs[..|docs|] == docs;
    if !ix.needsRecovery {
      SettledIsListedBut(ix.log);
    }
    return Fine;
  }

  lemma SettledIsListedBut(log: Log)
    requires Settled(log)
    ensures ListedBut(log, {})
  {
    forall i, d | 0 <= i < |log| ensures Listed(At(log[i], d)) {
      assert SettledDoc(At(log[i], d), At(Now(log), d));
    }
  }

  /** With every key listed, the record may go. */
  lemma MayForget(ix: Index, op: nat, rec: Record)
    requires ix.Safe() && ix.plan == One(op, rec) && rec.op.Reassign? && ListedBut(ix.log, {})
    ensures JournalOf(Idle) == ix.journal - {op} && PlanOk(Idle, ix.postings, ix.centres)
    ensures AllGood(ix.C(), ix.RulesAt(Idle, ix.postings), ix.log)
  {
    assert IsActive(ix.postings, rec.op.children.0);
    var r, r' := ix.R(), ix.RulesAt(Idle, ix.postings);
    var none: set<Doc> := {};
    forall i, d | 0 <= i < |ix.log| ensures Good(ix.C(), r', d, At(ix.log[i], d)) {
      var dv := At(ix.log[i], d);
      assert Good(ix.C(), r, d, dv) && d !in none && ListedBut(ix.log, none) && Listed(dv);
      forall p | p in dv.keys ensures KeyOk(r', dv.meta, p, dv.keys[p]) {
        assert KeyOk(r, dv.meta, p, dv.keys[p]);
      }
    }
  }

  method Forget(ix: Index, op: nat) returns (r: Outcome)
    requires ix.Quiet() && Current(ix) && ix.plan.One? && ix.plan.op == op && ix.plan.rec.op.Reassign?
             && ListedBut(ix.log, {})
    modifies ix`budget, ix`journal, ix`plan
    ensures ix.Safe() && !r.Corrupt? && Spent(old(ix.budget), ix.budget, r)
    ensures r.Fine? ==> ix.Quiet() && ix.plan.Idle?
  {
    hide PartsOk, PlanOk, AllGood, Agrees, Settled, ListedBut;
    MayForget(ix, op, ix.plan.rec);
    r := DeleteRecord(ix, op, Idle);
    if r.Fine? {
      CurrentMayBeUsed(ix);
    }
  }

  lemma AllListedBut(log: Log, docs: seq<Doc>)
    requires ListedBut(log, {})
    ensures ListedBut(log, RestOf(docs, 0))
  {
    ListedButFewer(log, {}, RestOf(docs, 0));
  }

  /** Outside `docs` nothing moves. */
  ghost predicate Covers(m: Moves, v: Vec, docs: seq<Doc>) {
    forall d :: d !in docs ==> AllDeparting(m, At(v, d), |m.sources|) == []
  }

  lemma SelectedCover(m: Moves, v: Vec, docs: seq<Doc>)
    requires forall d :: d in docs <==> d in Selected(m, v)
    ensures Covers(m, v, docs)
  {
    forall d | d !in docs ensures AllDeparting(m, At(v, d), |m.sources|) == [] {
      NothingHasNothing(m, |m.sources|);
    }
  }

  lemma {:induction false} NothingHasNothing(m: Moves, n: nat)
    requires n <= |m.sources|
    ensures AllDeparting(m, NOTHING, n) == []
  {
    hide Departing, G.Decide, G.Home;
    if n > 0 {
      NothingHasNothing(m, n - 1);
    }
  }

  lemma AscendingGoesUp(s: set<nat>)
    ensures StrictlyUp(Ascending(s))
  {
    AscendingAscends(s);
  }

  lemma CoveredAreShrunken(m: Moves, v: Vec, v': Vec, docs: seq<Doc>)
    requires Only(Shrinks(m), v, v', Elements(docs)) && Covers(m, v, docs)
    ensures forall d :: Shrunken(m, At(v, d), At(v', d))
  {
    forall d ensures Shrunken(m, At(v, d), At(v', d)) {
      assert if d in Elements(docs) then Shrinks(m)(At(v, d), At(v', d)) else At(v', d) == At(v, d);
      if d !in docs {
        NothingDeparts(m, At(v, d));
      }
    }
  }

  lemma CoveredAreMoved(m: Moves, v: Vec, v': Vec, docs: seq<Doc>)
    requires Only(MovesOut(m), v, v', Elements(docs)) && Covers(m, v, docs)
    ensures forall d :: MovedOut(m, At(v, d), At(v', d))
    ensures Covers(m, v', docs)
  {
    forall d ensures MovedOut(m, At(v, d), At(v', d)) {
      assert if d in Elements(docs) then MovesOut(m)(At(v, d), At(v', d)) else At(v', d) == At(v, d);
    }
    forall d | d !in docs ensures AllDeparting(m, At(v', d), |m.sources|) == [] {
      assert if d in Elements(docs) then MovesOut(m)(At(v, d), At(v', d)) else At(v', d) == At(v, d);
    }
  }

  /** After an epoch barrier, shrink the documents copied from; a redo, which copied
      none, selects again. */
  method ShrinkAll(ix: Index, m: Moves, reuse: Option<seq<Doc>>) returns (r: Outcome)
    requires reuse.Some? ==> StrictlyUp(reuse.value)
    requires ix.Quiet() && ShrinkingBy(ix.R(), m) && (reuse.Some? && ix.needsRecovery ==> ListedBut(ix.log, {}))
    modifies ix`docs, ix`queue, ix`lost, ix`log, ix`counts, ix`budget, ix`kept, ix`requests
    ensures ix.Safe() && !r.Corrupt? && Spent(old(ix.budget), ix.budget, r) && Since(old(PastOf(ix)), PastOf(ix), r)
    ensures r.Fine? ==> ix.Quiet() && ListedBut(ix.log, {})
    ensures r.Fine? && old(ix.Alone()) && (reuse.Some? ==> old(Covers(m, Now(ix.log), reuse.value))) ==>
              forall d :: Shrunken(m, At(Now(old(ix.log)), d), At(Now(ix.log), d))
  {
    hide PartsOk, PlanOk, AllGood, Agrees, Settled, Since, RulesOf, ShrinkingBy, ListedBut, Selected, Spared, Only,
         StrictlyUp, Shrunken, Covers, Index.Sound, Interfered;
    ghost var past, was := PastOf(ix), Now(ix.log);
    r := ix.Yield();
    SinceYield(past, ix, r);
    if r.Fine? {
      ghost var past1 := PastOf(ix);
      var docs := [];
      if reuse.Some? {
        docs := reuse.value;
        if ix.needsRecovery {
          AllListedBut(ix.log, docs);
        }
      } else {
        docs := Ascending(Selected(m, Now(ix.log)));
        AscendingAscends(Selected(m, Now(ix.log)));
        AscendingGoesUp(Selected(m, Now(ix.log)));
        SelectedCover(m, Now(ix.log), docs);
        UnlistedIsSelected(ix, m, docs);
      }
      r := ShrinkSources(ix, m, docs);
      if r.Fine? && old(ix.Alone()) && (reuse.Some? ==> Covers(m, was, docs)) {
        CoveredAreShrunken(m, was, Now(ix.log), docs);
      }
      SinceCompose(past, past1, PastOf(ix), r);
    }
  }

  /** The second half: after an epoch barrier, shrink the sources, and delete the
      record. */
  method ShrinkPhase(ix: Index, op: nat, rec: Record, m: Moves, reuse: Option<seq<Doc>>) returns (r: Outcome)
    requires ix.Quiet() && Current(ix) && ix.plan == One(op, rec) && rec.op.Reassign? && rec.state.Copied?
    requires Some(m) == MovesOf(ix.snap, ix.space, ix.ops.gate, rec.op)
    requires reuse.Some? ==> StrictlyUp(reuse.value)
    requires reuse.Some? && ix.needsRecovery ==> ListedBut(ix.log, {})
    modifies ix`docs, ix`queue, ix`lost, ix`log, ix`counts, ix`budget, ix`kept, ix`requests, ix`journal, ix`plan
    ensures ix.Safe() && !r.Corrupt? && Spent(old(ix.budget), ix.budget, r) && Since(old(PastOf(ix)), PastOf(ix), r)
    ensures r.Fine? ==> ix.Quiet() && Current(ix) && ix.plan.Idle?
    ensures r.Fine? && old(ix.Alone()) && (reuse.Some? ==> old(Covers(m, Now(ix.log), reuse.value))) ==>
              forall d :: Shrunken(m, At(Now(old(ix.log)), d), At(Now(ix.log), d))
  {
    hide PartsOk, PlanOk, AllGood, Agrees, Settled, Since, RulesOf, MovesOf, ShrinkingBy, ListedBut, Selected,
         OnlyCopying, MayReceive, Spared, Index.Sound, Interfered, Shrunken, Covers, StrictlyUp;
    MovesExist(ix, op, rec);
    ghost var past := PastOf(ix);
    :- ShrinkAll(ix, m, reuse);
    SinceEver(past, PastOf(ix));
    r := Forget(ix, op);
  }

  /** `reassign::run`: copy, record `Copied`, shrink what it copied from, and delete
      the record, from wherever its record says. */
  method RunReassign(ix: Index, op: nat, rec: Record) returns (r: Outcome)
    requires ix.Quiet() && Current(ix) && ix.plan == One(op, rec) && rec.op.Reassign?
    modifies ix`docs, ix`queue, ix`lost, ix`log, ix`counts, ix`budget, ix`kept, ix`requests, ix`journal, ix`plan
    ensures ix.Safe() && !r.Corrupt? && Spent(old(ix.budget), ix.budget, r) && Since(old(PastOf(ix)), PastOf(ix), r)
    ensures r.Fine? ==> ix.Quiet() && Current(ix) && ix.plan.Idle?
    ensures r.Fine? ==> MovesOf(ix.snap, ix.space, ix.ops.gate, rec.op).Some?
    ensures var m := MovesOf(ix.snap, ix.space, ix.ops.gate, rec.op);
            r.Fine? && old(ix.Alone()) && rec.state.Planned? ==>
              forall d :: Rehomed(m.value, At(Now(old(ix.log)), d), At(Now(ix.log), d))
    ensures var m := MovesOf(ix.snap, ix.space, ix.ops.gate, rec.op);
            r.Fine? && old(ix.Alone()) && rec.state.Copied? ==>
              forall d :: Shrunken(m.value, At(Now(old(ix.log)), d), At(Now(ix.log), d))
  {
    hide PartsOk, PlanOk, AllGood, Agrees, Settled, Since, RulesOf, MovesOf, ShrinkingBy, OnlyCopying, MayReceive,
         Selected, ListedBut, Only, StrictlyUp, Covers, MovedOut, Shrunken, Rehomed, Index.Sound, Index.SnapOk,
         Index.Routed;
    ghost var past, was := PastOf(ix), Now(ix.log);
    SinceNow(past);
    MovesExist(ix, op, rec);
    StatesOf(ix, op, rec);
    var m := MovesOf(ix.snap, ix.space, ix.ops.gate, rec.op);
    r := if m.None? then Corrupt else Fine;
    if m.Some? {
      var reuse := None;
      if rec.state.Planned? {
        var selected := Ascending(Selected(m.value, Now(ix.log)));
        AscendingGoesUp(Selected(m.value, Now(ix.log)));
        SelectedCover(m.value, Now(ix.log), selected);
        :- MoveCopies(ix, m.value, selected);
        SinceEver(past, PastOf(ix));
        :- MoveBarrier(ix, op, rec);
        reuse := Some(selected);
        if old(ix.Alone()) {
          StaysAlone(past, ix);
          CoveredAreMoved(m.value, was, Now(ix.log), selected);
        }
      }
      ghost var mid, copied := PastOf(ix), Now(ix.log);
      r := ShrinkPhase(ix, op, ix.journal[op], m.value, reuse);
      SinceCompose(past, mid, PastOf(ix), r);
      if r.Fine? && old(ix.Alone()) && rec.state.Planned? {
        AllRehomed(m.value, was, copied, Now(ix.log));
      }
    }
  }

  lemma AllRehomed(m: Moves, v: Vec, mid: Vec, v': Vec)
    requires forall d :: MovedOut(m, At(v, d), At(mid, d))
    requires forall d :: Shrunken(m, At(mid, d), At(v', d))
    ensures forall d :: Rehomed(m, At(v, d), At(v', d))
  {
    forall d ensures Rehomed(m, At(v, d), At(v', d)) {
      MovedThenShrunken(m, At(v, d), At(mid, d), At(v', d));
    }
  }

  lemma StatesOf(ix: Index, op: nat, rec: Record)
    requires ix.Safe() && ix.plan == One(op, rec) && rec.op.Reassign?
    ensures rec.state.Planned? || rec.state.Copied?
  {
  }
}
