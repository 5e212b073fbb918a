/** The durable single-key writes maintenance is made of: journal records,
    postings, centres. Each keeps the store safe, and none stores two different
    objects under one id. */
module Steps {
  import opened Codes
  import opened Vectors
  import opened Counts
  import opened Partition
  import opened Requests
  import opened Store
  import Q = Queue
  import G = Geometry

  /** What maintenance may only add to, and what it must spare. */
  datatype Past = Past(postings: map<nat, Posting>, centres: map<nat, Point>, kept: map<Doc, Content>,
    requests: seq<Request>, docs: map<Doc, Text>, queue: map<Doc, Q.Entry>, alone: bool)

  ghost function PastOf(ix: Index): Past
    reads ix
  {
    Past(ix.postings, ix.centres, ix.kept, ix.requests, ix.docs, ix.queue, ix.needsRecovery)
  }

  /** From `a` to `b` no id was reused; the requests taken are the first, and the
      documents what those leave, but for one being served when the process was
      killed; only documents they name stopped having to keep their content; with
      none to take, or none taken as during recovery, documents and queue are
      untouched. */
  ghost predicate Since(a: Past, b: Past, r: Outcome) {
    && IdsKept(a.postings, a.centres, b.postings, b.centres)
    && Spared(a.kept, b.kept, a.requests, b.requests)
    && Answered(a.docs, a.requests, b.docs, b.requests, Lost(r))
    && (a.alone ==> b.alone)
    && (a.alone || a.requests == [] ==>
       b.kept == a.kept && b.requests == a.requests && b.docs == a.docs && b.queue == a.queue)
  }

  lemma SinceNow(a: Past)
    ensures forall r :: Since(a, a, r)
  {
    hide Answered, Spared;
    NoneAnswered(a.docs, a.requests);
    SparedNothing(a.kept, a.requests);
  }

  lemma StaysAlone(past: Past, ix: Index)
    requires Since(past, PastOf(ix), Fine) && (past.requests == [] || past.alone)
    ensures ix.Alone()
  {
    hide Answered, Spared, IdsKept;
  }

  /** What is not cut short leaves no less than what is. */
  lemma SinceEver(a: Past, b: Past)
    requires Since(a, b, Fine)
    ensures forall r :: Since(a, b, r)
  {
    hide Answered, Spared, IdsKept;
    forall r: Outcome ensures Since(a, b, r) {
      AnsweredMore(a.docs, a.requests, b.docs, b.requests, 0, Lost(r));
    }
  }

  lemma SinceCompose(a: Past, b: Past, c: Past, r: Outcome)
    requires Since(a, b, Fine) && Since(b, c, r)
    ensures Since(a, c, r)
    ensures r.Fine? ==> forall r' :: Since(a, c, r')
  {
    hide Answered;
    AnsweredCompose(a.docs, a.requests, b.docs, b.requests, 0, c.docs, c.requests, Lost(r));
    if r.Fine? {
      SinceEver(a, c);
    }
  }

  lemma SinceYield(past: Past, ix: Index, r: Outcome)
    requires ix.postings == past.postings && ix.centres == past.centres
    requires Spared(past.kept, ix.kept, past.requests, ix.requests)
    requires Answered(past.docs, past.requests, ix.docs, ix.requests, Lost(r))
    requires past.alone == ix.needsRecovery
    requires past.alone || past.requests == [] ==>
               ix.kept == past.kept && ix.requests == past.requests && ix.docs == past.docs && ix.queue == past.queue
    ensures Since(past, PastOf(ix), r)
    ensures r.Fine? ==> forall r' :: Since(past, PastOf(ix), r')
  {
    hide Answered, Spared;
    if r.Fine? {
      SinceEver(past, PastOf(ix));
    }
  }

  method WriteRecord(ix: Index, op: nat, rec: Record, ghost next: Plan) returns (r: Outcome)
    requires ix.Safe()
    requires JournalOf(next) == ix.journal[op := rec] && PlanOk(next, ix.postings, ix.centres)
    requires AllGood(ix.C(), ix.RulesAt(next, ix.postings), ix.log)
    modifies ix`journal, ix`plan, ix`budget
    ensures ix.Safe() && !r.Corrupt? && Spent(old(ix.budget), ix.budget, r)
    ensures ix.plan == if r.Fine? then next else old(ix.plan)
  {
    r := ix.CrashPoint();
    if r.Fine? {
      ix.journal, ix.plan := ix.journal[op := rec], next;
    }
  }

  method DeleteRecord(ix: Index, op: nat, ghost next: Plan) returns (r: Outcome)
    requires ix.Safe()
    requires JournalOf(next) == ix.journal - {op} && PlanOk(next, ix.postings, ix.centres)
    requires AllGood(ix.C(), ix.RulesAt(next, ix.postings), ix.log)
    modifies ix`journal, ix`plan, ix`budget
    ensures ix.Safe() && !r.Corrupt? && Spent(old(ix.budget), ix.budget, r)
    ensures ix.plan == if r.Fine? then next else old(ix.plan)
  {
    r := ix.CrashPoint();
    if r.Fine? {
      ix.journal, ix.plan := ix.journal - {op}, next;
    }
  }

  /** What is stored may grow. */
  lemma SinceStored(a: Past, postings: map<nat, Posting>, centres: map<nat, Point>)
    requires IdsKept(a.postings, a.centres, postings, centres)
    ensures forall r :: Since(a, a.(postings := postings, centres := centres), r)
  {
    hide Answered, Spared, IdsKept;
    NoneAnswered(a.docs, a.requests);
    SparedNothing(a.kept, a.requests);
  }

  method WritePosting(ix: Index, id: nat, p: Posting) returns (r: Outcome)
    requires ix.Safe()
    requires id in ix.postings ==> p.Same(ix.postings[id])
    requires PartsOk(ix.postings[id := p.Row()], ix.centres, ix.dim)
    requires PlanOk(ix.plan, ix.postings[id := p.Row()], ix.centres)
    requires AllGood(ix.C(), ix.RulesAt(ix.plan, ix.postings[id := p.Row()]), ix.log)
    modifies ix`postings, ix`budget
    ensures ix.Safe() && !r.Corrupt? && Spent(old(ix.budget), ix.budget, r) && Since(old(PastOf(ix)), PastOf(ix), r)
    ensures ix.postings == if r.Fine? then old(ix.postings)[id := p.Row()] else old(ix.postings)
  {
    hide AllGood, PlanOk, PartsOk, RulesOf, Since;
    SinceNow(PastOf(ix));
    SinceStored(PastOf(ix), ix.postings[id := p.Row()], ix.centres);
    r := ix.CrashPoint();
    if r.Fine? {
      ix.postings := ix.postings[id := p.Row()];
    }
  }

  method WriteCentre(ix: Index, id: nat, c: Point) returns (r: Outcome)
    requires ix.Safe() && |c| == ix.dim && !ix.plan.Idle? && ix.plan.rec.op.Split?
    requires id in ix.centres ==> ix.centres[id] == c
    modifies ix`centres, ix`budget
    ensures ix.Safe() && !r.Corrupt? && Spent(old(ix.budget), ix.budget, r) && Since(old(PastOf(ix)), PastOf(ix), r)
    ensures ix.centres == if r.Fine? then old(ix.centres)[id := c] else old(ix.centres)
  {
    hide AllGood, RulesOf, PartsOk, PlanOk, Since;
    RulesIgnoreCentres(ix.plan, ix.postings, ix.centres, ix.centres[id := c], ix.space, ix.ops.gate);
    CentreMayBeAdded(ix.plan, ix.postings, ix.centres, ix.dim, id, c);
    SinceNow(PastOf(ix));
    SinceStored(PastOf(ix), ix.postings, ix.centres[id := c]);
    r := ix.CrashPoint();
    if r.Fine? {
      ix.centres := ix.centres[id := c];
    }
  }

  lemma RulesIgnoreCentres(plan: Plan, postings: map<nat, Posting>, centres: map<nat, Point>, centres': map<nat, Point>,
                           space: G.Space, gate: bool)
    requires !plan.Idle? && plan.rec.op.Split?
    ensures RulesOf(plan, Snapshot(postings, centres), space, gate)
            == RulesOf(plan, Snapshot(postings, centres'), space, gate)
  {
  }

  lemma CentreMayBeAdded(plan: Plan, postings: map<nat, Posting>, centres: map<nat, Point>, dim: nat, id: nat, c: Point)
    requires PartsOk(postings, centres, dim) && PlanOk(plan, postings, centres) && |c| == dim
    ensures PartsOk(postings, centres[id := c], dim) && PlanOk(plan, postings, centres[id := c])
  {
  }
}
