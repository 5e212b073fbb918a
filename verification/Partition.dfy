/** A namespace's partition: its postings and centres as stored, the snapshot
    writers and searches use, and the maintenance journal. */
module Partition {
  import opened Codes
  import opened Vectors
  import G = Geometry

  type Point = G.Point

  datatype PostingState = Active | Draining | Retired

  datatype Origin = Root | Seed | Half | Rebuilt

  datatype Posting = Posting(routing: Point, centreId: nat, state: PostingState, parent: Option<nat>, origin: Origin) {
    /** The row `write_posting` stores: a retired posting goes without its
        routing centroid. */
    function Row(): Posting {
      if state.Retired? then this.(routing := []) else this
    }

    /** What makes it the same posting, whatever its state. */
    predicate Same(p: Posting) {
      centreId == p.centreId && parent == p.parent && origin == p.origin
    }
  }

  // ── The journal ──

  datatype JournalState = Planned | Published | Copied

  datatype Op =
    | Split(posting: nat, centres: (nat, nat), children: (nat, nat))
    | Merge(posting: nat, kept: nat)
    | Reassign(parent: nat, parentCentre: nat, children: (nat, nat), scope: seq<nat>)
    | Rebuild(firstCentre: nat, firstPosting: nat, postings: nat, drained: seq<nat>)
  {
    /** The posting this operation drains, if it drains one. */
    function Drained(): Option<nat> {
      if Split? || Merge? then Some(posting) else None
    }
  }

  datatype Record = Record(state: JournalState, op: Op) {
    function With(s: JournalState): Record { Record(s, op) }
  }

  type Journal = map<nat, Record>

  /** What the journal can hold: nothing, one operation, or a split whose copies
      are made with its own reassignment recorded after it. */
  datatype Plan = Idle | One(op: nat, rec: Record) | Two(op: nat, rec: Record, next: nat, reassign: Record)

  function JournalOf(plan: Plan): Journal {
    match plan
    case Idle => map[]
    case One(op, rec) => map[op := rec]
    case Two(op, rec, next, reassign) => map[op := rec, next := reassign]
  }

  /** The oldest unfinished operation. */
  function Oldest(j: Journal): nat
    requires j != map[]
  {
    assert exists o: nat :: o in j && forall p: nat :: p in j ==> o <= p by { var least := Least(j.Keys); }
    var o: nat :| o in j && forall p: nat :: p in j ==> o <= p;
    o
  }

  lemma {:induction false} Least(s: set<nat>) returns (o: nat)
    requires s != {}
    ensures o in s && forall p: nat :: p in s ==> o <= p
  {
    var x: nat :| x in s;
    o := x;
    if s != {x} {
      assert s - {x} != {};
      var y := Least(s - {x});
      o := if x < y then x else y;
      assert forall p: nat :: p in s ==> p == x || p in s - {x};
    }
  }

  /** The id a new operation takes: above every unfinished one. */
  function NextOpId(j: Journal): (r: nat)
    ensures forall o :: o in j ==> o < r
  {
    if j == map[] then 0
    else
      assert exists o: nat :: o in j && forall p: nat :: p in j ==> p <= o by { var greatest := Greatest(j.Keys); }
      var o: nat :| o in j && forall p: nat :: p in j ==> p <= o;
      o + 1
  }

  lemma {:induction false} Greatest(s: set<nat>) returns (o: nat)
    requires s != {}
    ensures o in s && forall p: nat :: p in s ==> p <= o
  {
    var x: nat :| x in s;
    o := x;
    if s != {x} {
      assert s - {x} != {};
      var y := Greatest(s - {x});
      o := if x < y then y else x;
      assert forall p: nat :: p in s ==> p == x || p in s - {x};
    }
  }

  // ── What the journal and the stored postings allow ──

  function PlannedChildren(plan: Plan): set<nat> {
    if plan.One? && plan.rec.state.Planned? && plan.rec.op.Split? then {plan.rec.op.children.0, plan.rec.op.children.1}
      else {}
  }

  function CopiedDrain(plan: Plan): Option<nat> {
    if !plan.Idle? && plan.rec.state.Copied? then plan.rec.op.Drained() else None
  }

  predicate HasCentre(s: Snapshot, p: nat) {
    p in s.postings && s.postings[p].centreId in s.centres
  }

  function CentreOf(s: Snapshot, p: nat): Point
    requires HasCentre(s, p)
  {
    s.centres[s.postings[p].centreId]
  }

  /** The postings of a scope that are still active, with their centres. */
  function Sources(s: Snapshot, scope: seq<nat>): (r: seq<(nat, Point)>)
    ensures forall c :: c in r ==> c.0 in scope && c.0 in Routable(s) && c.1 == CentreOf(s, c.0)
  {
    if scope == [] then []
    else (if scope[0] in Routable(s) then [(scope[0], CentreOf(s, scope[0]))] else []) + Sources(s, scope[1..])
  }

  /** `Rule::new`, and the sources: what a reassignment moves, if every centre it
      names is known. */
  function MovesOf(s: Snapshot, space: G.Space, gate: bool, op: Op): Option<Moves>
    requires op.Reassign?
  {
    if op.parentCentre !in s.centres || !HasCentre(s, op.children.0) || !HasCentre(s, op.children.1) then None
    else
      var rule := G.MoveRule(s.centres[op.parentCentre], op.children,
        (CentreOf(s, op.children.0), CentreOf(s, op.children.1)),
                             ActiveCentres(s), gate);
      Some(Moves(space, s.centres, rule, Sources(s, op.scope)))
  }

  /** The postings an operation in state `Copied` deletes keys of: the meta
      stops listing such a key just before it goes. */
  function Loose(plan: Plan): set<nat> {
    if CopiedDrain(plan).Some? then {CopiedDrain(plan).value} else {}
  }

  function Moving(plan: Plan, s: Snapshot, space: G.Space, gate: bool): Option<Moves> {
    if !plan.Idle? && plan.rec.state.Copied? && plan.rec.op.Reassign? then MovesOf(s, space, gate, plan.rec.op)
      else None
  }

  function SourceIds(moves: Option<Moves>): set<nat> {
    if moves.Some? then set c | c in moves.value.sources :: c.0 else {}
  }

  function RulesOf(plan: Plan, s: Snapshot, space: G.Space, gate: bool): Rules {
    var moves := Moving(plan, s, space, gate);
    Rules(s.postings.Keys, (set p | p in s.postings && !s.postings[p].state.Retired?), PlannedChildren(plan),
      CopiedDrain(plan),
          Loose(plan) + SourceIds(moves), moves)
  }

  ghost predicate IsActive(postings: map<nat, Posting>, p: nat) {
    p in postings && postings[p].state.Active?
  }

  /** A child a planned split may already have stored. */
  ghost predicate PlannedChild(postings: map<nat, Posting>, posting: nat, child: nat, centre: nat) {
    child in postings ==>
      postings[child].parent == Some(posting) && postings[child].centreId == centre && !postings[child].state.Draining?
  }

  /** What the stored postings look like while an operation is in the journal. */
  ghost predicate StepOk(rec: Record, postings: map<nat, Posting>, centres: map<nat, Point>) {
    match rec.op
    case Split(p, cs, ks) =>
      && p in postings && p != ks.0 && p != ks.1 && ks.0 != ks.1
      && (match rec.state
          case Planned =>
            && !postings[p].state.Retired?
            && PlannedChild(postings, p, ks.0, cs.0) && PlannedChild(postings, p, ks.1, cs.1)
          case Published =>
            && postings[p].state.Draining? && IsActive(postings, ks.0) && IsActive(postings, ks.1)
            && cs.0 in centres && cs.1 in centres
          case Copied =>
            && !postings[p].state.Active? && IsActive(postings, ks.0) && IsActive(postings, ks.1))
    case Merge(p, kept) =>
      && p in postings && p != kept && IsActive(postings, kept)
      && (match rec.state
          case Planned => !postings[p].state.Retired?
          case Published => postings[p].state.Draining?
          case Copied => !postings[p].state.Active?)
    case Reassign(parent, centre, ks, scope) =>
      && !rec.state.Published? && Distinct(scope)
      && parent in postings && postings[parent].state.Retired? && postings[parent].centreId == centre
      && IsActive(postings, ks.0) && IsActive(postings, ks.1)
    case Rebuild(_, _, _, _) => false
  }

  ghost predicate Distinct(s: seq<nat>) {
    forall i, j :: 0 <= i < j < |s| ==> s[i] != s[j]
  }

  ghost predicate PlanOk(plan: Plan, postings: map<nat, Posting>, centres: map<nat, Point>) {
    && (forall p :: p in postings && postings[p].state.Draining? ==> !plan.Idle? && plan.rec.op.Drained() == Some(p))
    && match plan
       case Idle => exists p :: IsActive(postings, p)
       case One(_, rec) => StepOk(rec, postings, centres)
       case Two(op, rec, next, ra) =>
         && op < next && rec.op.Split? && rec.state.Copied? && StepOk(rec, postings, centres)
         && ra.op.Reassign? && ra.state.Planned? && StepOk(ra, postings, centres)
         && ra.op.parent == rec.op.posting && ra.op.children == rec.op.children
  }

  /** Every stored posting names a stored centre and has a routing centroid
      unless retired. */
  ghost predicate PartsOk(postings: map<nat, Posting>, centres: map<nat, Point>, dim: nat) {
    && (forall c :: c in centres ==> |centres[c]| == dim)
    && (forall p :: p in postings ==>
          && postings[p].centreId in centres
          && |postings[p].routing| == if postings[p].state.Retired? then 0 else dim)
  }

  // ── Ids ──

  /** No id is ever stored for two different objects: what was stored still is,
      as the same posting or the same centre. */
  ghost predicate IdsKept(p0: map<nat, Posting>, c0: map<nat, Point>, p1: map<nat, Posting>, c1: map<nat, Point>) {
    && (forall p :: p in p0 ==> p in p1 && p1[p].Same(p0[p]))
    && (forall c :: c in c0 ==> c in c1 && c1[c] == c0[c])
  }

  // ── Snapshots ──

  datatype Snapshot = Snapshot(postings: map<nat, Posting>, centres: map<nat, Point>)

  predicate NamesUnknownCentre(postings: map<nat, Posting>, centres: map<nat, Point>) {
    exists p :: p in postings && postings[p].centreId !in centres
  }

  predicate LacksCentroid(postings: map<nat, Posting>, dim: nat) {
    exists p :: p in postings && !postings[p].state.Retired? && |postings[p].routing| != dim
  }

  predicate SomeLive(postings: map<nat, Posting>) {
    exists p :: p in postings && !postings[p].state.Retired?
  }

  /** `from_parts`: the checks every new snapshot passes. Retired postings keep
      no routing centroid. */
  function FromParts(postings: map<nat, Posting>, centres: map<nat, Point>, dim: nat): Option<Snapshot> {
    if centres == map[] || NamesUnknownCentre(postings, centres) || LacksCentroid(postings, dim)
      || !SomeLive(postings) then None
    else Some(Snapshot(map p | p in postings :: postings[p].Row(), centres))
  }

  function WithPostings(m: map<nat, Posting>, changed: seq<(nat, Posting)>): map<nat, Posting>
    decreases |changed|
  {
    if changed == [] then m else WithPostings(m[changed[0].0 := changed[0].1], changed[1..])
  }

  /** `with_added`: centres are append-only. */
  function WithCentres(m: map<nat, Point>, added: seq<(nat, Point)>, dim: nat): Option<map<nat, Point>>
    decreases |added|
  {
    if added == [] then Some(m)
    else if added[0].0 in m || |added[0].1| != dim then None
    else WithCentres(m[added[0].0 := added[0].1], added[1..], dim)
  }

  /** The partition after a change: new centres appended, changed postings added
      or replaced. */
  function Evolve(s: Snapshot, added: seq<(nat, Point)>, changed: seq<(nat, Posting)>, dim: nat): Option<Snapshot> {
    var cs := WithCentres(s.centres, added, dim);
    if cs.None? then None else FromParts(WithPostings(s.postings, changed), cs.value, dim)
  }

  /** A snapshot of sound parts is those parts. */
  lemma SoundPartsLoad(postings: map<nat, Posting>, centres: map<nat, Point>, dim: nat, p: nat)
    requires PartsOk(postings, centres, dim)
    requires p in postings && !postings[p].state.Retired?
    ensures FromParts(postings, centres, dim) == Some(Snapshot(postings, centres))
  {
    assert postings[p].centreId in centres;
    forall q | q in postings ensures postings[q].Row() == postings[q] {
      assert postings[q].state.Retired? ==> postings[q].routing == [];
    }
    assert FromParts(postings, centres, dim).value.postings == postings;
  }

  /** And what loads is sound: every posting's centre is known, a live one has its
      centroid to route by, some posting is live, and nothing else changed. */
  lemma LoadedPartsAreSound(postings: map<nat, Posting>, centres: map<nat, Point>, dim: nat)
    requires FromParts(postings, centres, dim).Some?
    ensures var s := FromParts(postings, centres, dim).value;
            && s.centres == centres && s.postings.Keys == postings.Keys
            && (forall p :: p in s.postings ==>
                  && HasCentre(s, p) && s.postings[p].Same(postings[p]) && s.postings[p].state == postings[p].state
                  && (if s.postings[p].state.Retired? then s.postings[p].routing == []
                      else |s.postings[p].routing| == dim && s.postings[p].routing == postings[p].routing))
            && exists p :: p in s.postings && !s.postings[p].state.Retired?
  {
    var s := FromParts(postings, centres, dim).value;
    var live :| live in postings && !postings[live].state.Retired?;
    assert live in s.postings;
  }

  /** The largest posting and centre ids in use. */
  function MaxId(s: set<nat>): (r: nat)
    ensures forall x :: x in s ==> x <= r
  {
    if s == {} then 0
    else
      assert exists o: nat :: o in s && forall p: nat :: p in s ==> p <= o by { var greatest := Greatest(s); }
      var o: nat :| o in s && forall p: nat :: p in s ==> p <= o;
      o
  }

  /** A set's elements in ascending order. */
  function Ascending(s: set<nat>): (r: seq<nat>)
    ensures forall x :: x in r <==> x in s
  {
    if s == {} then []
    else
      assert exists o: nat :: o in s && forall p: nat :: p in s ==> o <= p by { var least := Least(s); }
      var o: nat :| o in s && forall p: nat :: p in s ==> o <= p;
      [o] + Ascending(s - {o})
  }

  lemma {:induction false} AscendingAscends(s: set<nat>)
    ensures forall i, j :: 0 <= i < j < |Ascending(s)| ==> Ascending(s)[i] < Ascending(s)[j]
  {
    if s != {} {
      var r := Ascending(s);
      var o := r[0];
      assert r == [o] + Ascending(s - {o});
      AscendingAscends(s - {o});
      forall j | 0 < j < |r| ensures o < r[j] {
        assert r[j] == Ascending(s - {o})[j - 1] && r[j] in Ascending(s - {o});
      }
      forall i, j | 0 < i < j < |r| ensures r[i] < r[j] {
        assert r[i] == Ascending(s - {o})[i - 1] && r[j] == Ascending(s - {o})[j - 1];
      }
    }
  }

  /** The active postings that have a centre. */
  function Routable(s: Snapshot): set<nat> {
    set p | p in s.postings && s.postings[p].state.Active? && s.postings[p].centreId in s.centres
  }

  lemma RoutableHasCentre(s: Snapshot)
    ensures forall p :: p in Routable(s) ==> HasCentre(s, p)
  {
  }

  function WithCentre(s: Snapshot, ids: seq<nat>): (r: seq<(nat, Point)>)
    requires forall p :: p in ids ==> p in Routable(s)
    ensures |r| == |ids| && forall i :: 0 <= i < |r| ==>
            r[i].0 == ids[i] && r[i].0 in Routable(s) && r[i].1 == CentreOf(s, r[i].0)
  {
    if ids == [] then []
    else
      assert ids[0] in Routable(s);
      [(ids[0], s.centres[s.postings[ids[0]].centreId])] + WithCentre(s, ids[1..])
  }

  /** Every `Active` posting with its centre, in posting-id order. */
  function ActiveCentres(s: Snapshot): (r: seq<(nat, Point)>)
    ensures forall i :: 0 <= i < |r| ==> r[i].0 in Routable(s) && r[i].1 == CentreOf(s, r[i].0)
  {
    var ids := Ascending(Routable(s));
    assert forall i :: 0 <= i < |ids| ==> ids[i] in Routable(s);
    WithCentre(s, ids)
  }

  /** They are all the postings writers route to, each once. */
  lemma ActiveCentresAreAll(s: Snapshot)
    ensures forall p :: p in Routable(s) ==>
              exists k :: 0 <= k < |ActiveCentres(s)| && ActiveCentres(s)[k] == (p, CentreOf(s, p))
    ensures forall i, j :: 0 <= i < j < |ActiveCentres(s)| ==> ActiveCentres(s)[i].0 < ActiveCentres(s)[j].0
  {
    var ids := Ascending(Routable(s));
    AscendingAscends(Routable(s));
    assert forall i :: 0 <= i < |ids| ==> ids[i] in Routable(s);
    assert ActiveCentres(s) == WithCentre(s, ids);
    forall p | p in Routable(s) ensures exists k :: 0 <= k < |ActiveCentres(s)|
                                                    && ActiveCentres(s)[k] == (p, CentreOf(s, p)) {
      var k :| 0 <= k < |ids| && ids[k] == p;
      assert ActiveCentres(s)[k] == (p, CentreOf(s, p));
    }
  }
}
