/** Whole runs: clients, the worker and maintenance over one store, through any
    number of crashes and restarts. What every reachable state satisfies. */
module Runs {
  import opened Codes
  import opened Vectors
  import opened Counts
  import opened Partition
  import opened Marks
  import opened Requests
  import opened Store
  import opened Steps
  import opened Publishing
  import opened Recovery
  import opened Maintenance
  import Q = Queue

  // ── What holds before every write, so after every crash ──

  /** Queue-first: whatever a crash leaves, a document that is not queued has
      exactly its text's vectors, and none if it has no text. */
  lemma QueueFirst(ix: Index, i: nat, d: Doc)
    requires ix.Safe() && i < |ix.log|
    ensures d in ix.queue || Exact(ix.e, TextIn(ix.docs, d), At(ix.log[i], d))
  {
    assert Good(ix.C(), ix.R(), d, At(ix.log[i], d));
  }

  /** So once the queue is empty the index is a function of the documents: any
      two stores with the same documents hold the same hashes, whole-document
      codes and, of each document, chunks that represent the same vectors. */
  lemma EmptyQueueIsFunctionOfDocuments(a: Index, b: Index, d: Doc)
    requires a.Safe() && b.Safe() && a.e == b.e && a.docs == b.docs && a.queue == map[] == b.queue
    ensures var (x, y) := (At(Now(a.log), d), At(Now(b.log), d));
            && ContentOf(x).hash == ContentOf(y).hash && x.dense == y.dense
            && (d in a.docs ==>
               Represents(a.e, a.e.chunks(a.docs[d]), HeldSet(x)) && Represents(a.e, a.e.chunks(a.docs[d]), HeldSet(y)))
            && (d !in a.docs ==> x == y == NOTHING)
  {
    QueueFirst(a, |a.log| - 1, d);
    QueueFirst(b, |b.log| - 1, d);
  }

  /** A posting keys are being deleted from: its drain, or a reassignment with it in its
      scope, is in the journal in state `Copied`. */
  ghost predicate Deleting(ix: Index, p: nat)
    reads ix
  {
    exists o :: && o in ix.journal && ix.journal[o].state.Copied?
                && match ix.journal[o].op
                   case Split(posting, _, _) => posting == p
                   case Merge(posting, _) => posting == p
                   case Reassign(_, _, _, scope) => p in scope
                   case Rebuild(_, _, _, _) => false
  }

  /** The meta lists every key, but perhaps under a posting keys are being deleted
      from; and every key is under a posting that is not retired. */
  lemma MetaListsEveryKey(ix: Index, i: nat, d: Doc, p: nat)
    requires ix.Safe() && i < |ix.log| && p in At(ix.log[i], d).keys
    ensures p in Lists(At(ix.log[i], d).meta) || Deleting(ix, p)
    ensures p in ix.postings && !ix.postings[p].state.Retired?
  {
    hide PartsOk, LeavingOk, Sources;
    assert Good(ix.C(), ix.R(), d, At(ix.log[i], d));
    assert KeyOk(ix.R(), At(ix.log[i], d).meta, p, At(ix.log[i], d).keys[p]);
    if p !in Lists(At(ix.log[i], d).meta) {
      LooseIsDeleting(ix, p);
    }
  }

  lemma LooseIsDeleting(ix: Index, p: nat)
    requires ix.Safe() && p in ix.R().loose
    ensures Deleting(ix, p)
  {
    hide PartsOk, AllGood, Sources;
    assert !ix.plan.Idle? && ix.plan.rec.state.Copied?;
    assert ix.plan.op in ix.journal && ix.journal[ix.plan.op] == ix.plan.rec;
  }

  /** While a split is `Planned`, no key and no meta names its children. */
  lemma NothingNamesPlannedChildren(ix: Index, i: nat, d: Doc, o: nat, child: nat)
    requires ix.Safe() && i < |ix.log| && o in ix.journal
    requires ix.journal[o].op.Split? && ix.journal[o].state.Planned?
    requires child == ix.journal[o].op.children.0 || child == ix.journal[o].op.children.1
    ensures child !in At(ix.log[i], d).keys && child !in Lists(At(ix.log[i], d).meta)
  {
    var dv := At(ix.log[i], d);
    assert Good(ix.C(), ix.R(), d, dv);
    assert child in dv.keys ==> KeyOk(ix.R(), dv.meta, child, dv.keys[child]);
  }

  /** The journal never holds more than a split and its own reassignment, and so
      at most one reassignment of a posting. */
  lemma JournalStaysSmall(ix: Index, o1: nat, o2: nat)
    requires ix.Safe() && o1 in ix.journal && o2 in ix.journal && o1 < o2
    ensures |ix.journal| == 2
    ensures ix.journal[o1].op.Split? && ix.journal[o2].op.Reassign?
            && ix.journal[o2].op.parent == ix.journal[o1].op.posting
  {
    assert ix.plan.Two?;
    assert |map[ix.plan.op := ix.plan.rec, ix.plan.next := ix.plan.reassign].Keys| == |{ix.plan.op, ix.plan.next}|;
  }

  // ── Content through crashes ──

  /** A document's content does not depend on what a crash leaves. */
  ghost predicate Stable(log: Log, d: Doc) {
    forall i :: 0 <= i < |log| ==> ContentOf(At(log[i], d)) == ContentOf(At(Now(log), d))
  }

  /** From here on, `ds` must keep what they hold. */
  ghost method Watch(ix: Index, ds: set<Doc>)
    requires Resting(ix) && forall d :: d in ds ==> Stable(ix.log, d)
    modifies ix`kept
    ensures Resting(ix) && ix.kept.Keys == ds
    ensures forall d :: d in ds ==> ix.kept[d] == ContentOf(At(Now(ix.log), d))
  {
    var kept := map d | d in ds :: ContentOf(At(Now(ix.log), d));
    forall i, d | 0 <= i < |ix.log| ensures Good(ix.C().(kept := kept), ix.R(), d, At(ix.log[i], d)) {
      assert Good(ix.C(), ix.R(), d, At(ix.log[i], d));
      assert d in ds ==> Stable(ix.log, d);
    }
    ix.kept := kept;
  }

  /** How a crash leaves the store: how much of the log survived, which queue
      removals did not, and how many writes the next process gets to make if it
      is killed too. */
  datatype Crash = Crash(survivor: nat, back: set<Doc>, budget: Option<nat>)

  /** Restart after a crash: reload, and recover before anything else. A restart
      that is not itself killed recovers, and makes of what survived what the journal
      stands for. */
  method Restart(ix: Index, crash: Crash) returns (r: Outcome)
    requires ix.Safe()
    modifies ix
    ensures ix.Safe() && !r.Corrupt? && Spent(crash.budget, ix.budget, r)
    ensures crash.budget.None? ==> r.Fine?
    ensures IdsKept(old(ix.postings), old(ix.centres), ix.postings, ix.centres)
    ensures ix.kept == old(ix.kept) && ix.requests == old(ix.requests) && ix.docs == old(ix.docs)
    ensures r.Fine? ==> Resting(ix) && ix.refused == map[] == ix.declined
    ensures var survivor := old(ix.log)[crash.survivor % |old(ix.log)|];
            r.Fine? ==> Recovered(old(ix.plan), ix.space, ix.ops, Snapshot(old(ix.postings), old(ix.centres)), ix.snap,
                                  survivor, Now(ix.log))
  {
    hide PartsOk, PlanOk, AllGood, RulesOf, Agrees, Settled, Recovered;
    r := Reload(ix, crash.survivor % |ix.log|, crash.back, crash.budget);
    r := RecoverLocked(ix);
  }

  /** Restart until a restart's recovery is not itself cut short, or the list of
      crashes ends: one restart that is not killed is enough. */
  method RestartUntilRecovered(ix: Index, crashes: seq<Crash>) returns (r: Outcome)
    requires ix.Safe()
    modifies ix
    ensures ix.Safe() && !r.Corrupt? && (crashes != [] && r.Crashed? ==> ix.budget == Some(0))
    ensures crashes == [] ==> ix.budget == old(ix.budget)
    ensures (exists c :: c in crashes && c.budget.None?) ==> r.Fine?
    ensures IdsKept(old(ix.postings), old(ix.centres), ix.postings, ix.centres)
    ensures ix.kept == old(ix.kept) && ix.requests == old(ix.requests) && ix.docs == old(ix.docs)
    ensures r.Fine? ==> Resting(ix)
  {
    hide PartsOk, PlanOk, AllGood, RulesOf, Agrees, Settled, Resting;
    r := Crashed;
    for k := 0 to |crashes|
      invariant ix.Safe() && r.Crashed? && ix.budget == if k > 0 then Some(0) else old(ix.budget)
      invariant forall c :: c in crashes[..k] ==> c.budget.Some?
      invariant IdsKept(old(ix.postings), old(ix.centres), ix.postings, ix.centres)
      invariant ix.kept == old(ix.kept) && ix.requests == old(ix.requests) && ix.docs == old(ix.docs)
    {
      r := Restart(ix, crashes[k]);
      if r.Fine? {
        return;
      }
      assert crashes[..k + 1] == crashes[..k] + [crashes[k]];
    }
    assert crashes[..|crashes|] == crashes;
  }

  /** A restart that is not killed, then maintenance that is not stopped: it ends
      with nothing left to split or merge, every refusal and every want of room
      found by this process, unless the cap on operations ends it. */
  method RestartAndMaintain(ix: Index, crash: Crash) returns (r: Outcome, exit: Exit, done: nat, ghost way: seq<Found>)
    requires ix.Safe()
    modifies ix
    ensures ix.Safe() && !r.Corrupt? && (crash.budget.None? ==> r.Fine?)
    ensures r.Fine? ==> Resting(ix) && Leads(way, ix) && |way| == done + 1
    ensures r.Fine? ==> exit.Finished? || done >= 16 * (|NotRetired(way[0].snap)| + 64)
    ensures r.Fine? && exit.Finished? ==>
            AtFixpoint(ix) && SeenOn(way, map[], ix.refused) && SeenOn(way, map[], ix.declined)
  {
    hide PartsOk, PlanOk, AllGood, RulesOf, Agrees, Settled, NoSplit, NoMerge, Made, MarksTrue;
    exit, done, way := Finished, 0, [];
    r := Restart(ix, crash);
    if r.Fine? {
      r, exit, done, way := MaintainLocked(ix, None);
    }
  }

  lemma KeptIsHeld(ix: Index, d: Doc, i: nat)
    requires ix.Safe() && d in ix.kept && i < |ix.log|
    ensures ContentOf(At(ix.log[i], d)) == ix.kept[d]
  {
    assert Good(ix.C(), ix.R(), d, At(ix.log[i], d));
  }

  /** Crash-safe maintenance. Splits, merges and reassignments run while clients
      and the worker do, the process may die before any write, and again before
      any write of a recovery. Wherever that leaves it: every document of `ds`
      that no request names holds exactly what it held, in every state a crash
      could still leave; the documents are what the requests taken leave, but
      perhaps for one being served when the process was killed; and no id was
      reused. If the first process or one of the
      restarts is not killed it ends with an empty journal and nothing draining; and
      the first, if no stop is asked for either, with nothing left to split or
      merge, unless the cap on operations ends it. */
  method MaintainThroughCrashes(ix: Index, ghost ds: set<Doc>, patience: Option<nat>, crashes: seq<Crash>)
    returns (r: Outcome, exit: Exit, done: nat, ghost way: seq<Found>)
    requires Resting(ix) && forall d :: d in ds ==> Stable(ix.log, d)
    modifies ix
    ensures ix.Safe() && !r.Corrupt? && (r.Crashed? ==> ix.budget == Some(0))
    ensures old(ix.budget).None? || (exists c :: c in crashes && c.budget.None?) ==> r.Fine?
    ensures IdsKept(old(ix.postings), old(ix.centres), ix.postings, ix.centres)
    ensures forall d, i :: d in ds && d !in Named(old(ix.requests)) && 0 <= i < |ix.log| ==>
              ContentOf(At(ix.log[i], d)) == ContentOf(At(Now(old(ix.log)), d))
    ensures r.Fine? ==> Resting(ix) && ix.journal == map[] && forall p :: p in ix.postings ==>
            !ix.postings[p].state.Draining?
    ensures Answered(old(ix.docs), old(ix.requests), ix.docs, ix.requests, if old(ix.budget).None? then 0 else 1)
    ensures old(ix.budget).None? ==> Leads(way, ix) && way[0] == old(FoundNow(ix)) && |way| == done + 1
    ensures old(ix.budget).None? && patience.None? ==>
              AtFixpoint(ix) || done >= 16 * (|NotRetired(old(ix.snap))| + 64)
  {
    hide PartsOk, AllGood, RulesOf, Agrees, Settled, PlanOk, Resting, AtFixpoint, Made;
    Watch(ix, ds);
    ghost var kept := ix.kept;
    r, exit, done, way := MaintainLocked(ix, patience);
    AnsweredMore(old(ix.docs), old(ix.requests), ix.docs, ix.requests, Lost(r), if ix.budget.None? then 0 else 1);
    if r.Crashed? {
      r := RestartUntilRecovered(ix, crashes);
    }
    forall d, i | d in ds && d !in Named(old(ix.requests)) && 0 <= i < |ix.log|
      ensures ContentOf(At(ix.log[i], d)) == ContentOf(At(Now(old(ix.log)), d))
    {
      assert d in kept.Keys - Named(old(ix.requests));
      KeptIsHeld(ix, d, i);
    }
    if r.Fine? {
      NothingUnfinished(ix);
    }
  }

  lemma NothingUnfinished(ix: Index)
    requires Resting(ix)
    ensures ix.journal == map[] && forall p :: p in ix.postings ==> !ix.postings[p].state.Draining?
  {
  }

  // ── Every history ──

  /** What may happen next: requests arrive and are served, maintenance runs, or
      the process is killed where it stands and another starts. A process that
      has died does nothing more until it is restarted. */
  datatype Event = Arrive(requests: seq<Request>) | Maintain(patience: Option<nat>) | Kill(crash: Crash)

  /** The requests that arrive by an event. */
  function Arriving(event: Event): seq<Request> {
    if event.Arrive? then event.requests else []
  }

  /** The documents the requests of some events name. */
  function NamedBy(events: seq<Event>): set<Doc> {
    set event, d | event in events && d in Named(Arriving(event)) :: d
  }

  /** All the requests that arrive by some events, in order. */
  function Arrived(events: seq<Event>): seq<Request> {
    if events == [] then [] else Arrived(events[..|events| - 1]) + Arriving(events[|events| - 1])
  }

  lemma ArrivedMore(events: seq<Event>, k: nat)
    requires k < |events|
    ensures Arrived(events[..k + 1]) == Arrived(events[..k]) + Arriving(events[k])
  {
    assert events[..k + 1][..k] == events[..k];
  }

  /** How many processes are killed sooner or later: the one running, and those
      restarted to be killed again. */
  function Mortal(budget: Option<nat>, events: seq<Event>): nat {
    if events == [] then if budget.Some? then 1 else 0
    else
      var last := events[|events| - 1];
      Mortal(budget, events[..|events| - 1]) + if last.Kill? && last.crash.budget.Some? then 1 else 0
  }

  lemma MortalMore(budget: Option<nat>, events: seq<Event>, k: nat)
    requires k < |events|
    ensures Mortal(budget, events[..k + 1])
            == Mortal(budget, events[..k]) + if events[k].Kill? && events[k].crash.budget.Some? then 1 else 0
  {
    assert events[..k + 1][..k] == events[..k];
  }

  lemma NamedTogether(a: seq<Request>, b: seq<Request>)
    ensures Named(a + b) == Named(a) + Named(b)
  {
  }

  lemma NamedByMore(events: seq<Event>, k: nat)
    requires k < |events|
    ensures NamedBy(events[..k + 1]) == NamedBy(events[..k]) + Named(Arriving(events[k]))
  {
    assert events[..k + 1] == events[..k] + [events[k]];
  }

  /** One event keeps the store safe, and what every document no request names
      must keep. If the process is not killed it goes on; a restart that is not
      killed brings a dead one back. */
  method Step(ix: Index, event: Event, alive: bool) returns (r: Outcome)
    requires ix.Safe() && (alive ==> Resting(ix))
    modifies ix
    ensures ix.Safe() && !r.Corrupt?
    ensures IdsKept(old(ix.postings), old(ix.centres), ix.postings, ix.centres)
    ensures Spared(old(ix.kept), ix.kept, old(ix.requests) + Arriving(event), ix.requests)
    ensures Answered(old(ix.docs), old(ix.requests) + Arriving(event), ix.docs, ix.requests,
                     if alive && !event.Kill? then Lost(r) else 0)
    ensures r.Fine? ==> Resting(ix) && (alive || event.Kill?)
    ensures (if event.Kill? then event.crash.budget.None? else alive && old(ix.budget).None?) ==>
            r.Fine? && ix.budget.None?
  {
    hide PartsOk, AllGood, RulesOf, Agrees, Settled, PlanOk, Spared, Answered, Index.Sound, Index.SnapOk, Index.Routed;
    SparedNothing(ix.kept, ix.requests + Arriving(event));
    NoneAnswered(ix.docs, ix.requests + Arriving(event));
    r := Crashed;
    match event
    case Kill(crash) =>
      assert ix.requests + [] == ix.requests;
      r := Restart(ix, crash);
    case Arrive(requests) =>
      ix.requests := ix.requests + requests;
      if alive {
        r := ix.Yield();
      }
    case Maintain(patience) =>
      assert ix.requests + [] == ix.requests;
      if alive {
        var exit, done;
        ghost var way;
        r, exit, done, way := MaintainLocked(ix, patience);
      }
  }

  /** Any history of clients, worker, maintenance, crashes and restarts keeps the
      store safe: queue-first, every key listed, ids never reused (see the lemmas
      above for what that says). Every document of `ds` that no request names
      holds exactly what it held, in every state a crash could still leave. The
      documents are those the requests taken leave, in order, but for at most one
      cut short by each process killed. And a history that ends with a restart that is not killed ends recovered. */
  method Run(ix: Index, ghost ds: set<Doc>, events: seq<Event>) returns (r: Outcome)
    requires Resting(ix) && forall d :: d in ds ==> Stable(ix.log, d)
    modifies ix
    ensures ix.Safe() && !r.Corrupt?
    ensures IdsKept(old(ix.postings), old(ix.centres), ix.postings, ix.centres)
    ensures forall d, i :: d in ds && d !in Named(old(ix.requests)) + NamedBy(events) && 0 <= i < |ix.log| ==>
              ContentOf(At(ix.log[i], d)) == ContentOf(At(Now(old(ix.log)), d))
    ensures Answered(old(ix.docs), old(ix.requests) + Arrived(events), ix.docs, ix.requests,
                     Mortal(old(ix.budget), events))
    ensures r.Fine? ==> Resting(ix)
    ensures events != [] && events[|events| - 1].Kill? && events[|events| - 1].crash.budget.None? ==> r.Fine?
  {
    hide PartsOk, AllGood, RulesOf, Agrees, Settled, PlanOk, Spared, NamedBy, Answered, Arrived, Mortal, WasAnswered,
         Index.Sound, Index.SnapOk, Index.Routed;
    r := Fine;
    Watch(ix, ds);
    ghost var kept := ix.kept;
    StillClaimedAtFirst(kept, ix.requests);
    ghost var start := StandingOf(ix, r);
    NothingArrived(start);
    for k := 0 to |events|
      invariant ix.Safe() && !r.Corrupt? && (r.Fine? ==> Resting(ix))
      invariant IdsKept(old(ix.postings), old(ix.centres), ix.postings, ix.centres)
      invariant StillClaimed(kept, ix.kept, Named(old(ix.requests)) + NamedBy(events[..k]), ix.requests)
      invariant WasAnswered(start, StandingOf(ix, r), events[..k])
      invariant k > 0 && events[k - 1].Kill? && events[k - 1].crash.budget.None? ==> r.Fine?
    {
      ghost var kept1, requests1, before := ix.kept, ix.requests, StandingOf(ix, r);
      r := Step(ix, events[k], r.Fine?);
      AnsweredMoreEvents(start, before, StandingOf(ix, r), events, k);
      NamedByMore(events, k);
      ClaimsGoOn(kept, kept1, ix.kept, Named(old(ix.requests)) + NamedBy(events[..k]), requests1, Arriving(events[k]),
        ix.requests);
    }
    assert events[..|events|] == events;
    AllAnswered(start, StandingOf(ix, r), events);
    forall d, i | d in ds && d !in Named(old(ix.requests)) + NamedBy(events) && 0 <= i < |ix.log|
      ensures ContentOf(At(ix.log[i], d)) == ContentOf(At(Now(old(ix.log)), d))
    {
      KeptIsHeld(ix, d, i);
    }
  }

  /** Where a history stands: the documents, the requests left, and whether a
      process is alive, and to be killed. */
  datatype Standing = Standing(docs: map<Doc, Text>, requests: seq<Request>, budget: Option<nat>, r: Outcome)

  ghost function StandingOf(ix: Index, r: Outcome): Standing
    reads ix
  {
    Standing(ix.docs, ix.requests, ix.budget, r)
  }

  /** Each process killed so far cut at most one request short, and the one alive none. */
  ghost predicate WasAnswered(a: Standing, b: Standing, events: seq<Event>) {
    var mortal := Mortal(a.budget, events);
    && (b.r.Fine? && b.budget.Some? ==> mortal > 0)
    && Answered(a.docs, a.requests + Arrived(events), b.docs, b.requests,
       if b.r.Fine? && b.budget.Some? then mortal - 1 else mortal)
  }

  lemma NothingArrived(a: Standing)
    requires a.r.Fine?
    ensures WasAnswered(a, a, [])
  {
    NoneAnswered(a.docs, a.requests);
    assert a.requests + Arrived([]) == a.requests;
  }

  lemma AllAnswered(a: Standing, b: Standing, events: seq<Event>)
    requires WasAnswered(a, b, events)
    ensures Answered(a.docs, a.requests + Arrived(events), b.docs, b.requests, Mortal(a.budget, events))
  {
    hide Answered;
    var mortal := Mortal(a.budget, events);
    AnsweredMore(a.docs, a.requests + Arrived(events), b.docs, b.requests,
      if b.r.Fine? && b.budget.Some? then mortal - 1 else mortal, mortal);
  }

  lemma AnsweredMoreEvents(a: Standing, b: Standing, c: Standing, events: seq<Event>, k: nat)
    requires k < |events| && WasAnswered(a, b, events[..k])
    requires Answered(b.docs, b.requests + Arriving(events[k]), c.docs, c.requests,
                      if b.r.Fine? && !events[k].Kill? then Lost(c.r) else 0)
    requires if events[k].Kill? then events[k].crash.budget.None? ==> c.r.Fine? && c.budget.None?
             else b.r.Fine? && b.budget.None? ==> c.r.Fine? && c.budget.None?
    requires b.r.Fine? || events[k].Kill? || !c.r.Fine?
    ensures WasAnswered(a, c, events[..k + 1])
  {
    hide Answered, Arrived, Mortal;
    var mortal := Mortal(a.budget, events[..k]);
    var lost := if b.r.Fine? && b.budget.Some? then mortal - 1 else mortal;
    var more := if b.r.Fine? && !events[k].Kill? then Lost(c.r) else 0;
    ArrivedMore(events, k);
    MortalMore(a.budget, events, k);
    AnsweredOn(a.docs, a.requests + Arrived(events[..k]), b.docs, b.requests, lost, Arriving(events[k]), c.docs,
      c.requests, more);
    assert a.requests + Arrived(events[..k]) + Arriving(events[k]) == a.requests + Arrived(events[..k + 1]);
    var mortal' := Mortal(a.budget, events[..k + 1]);
    AnsweredMore(a.docs, a.requests + Arrived(events[..k + 1]), c.docs, c.requests, lost + more,
      if c.r.Fine? && c.budget.Some? then mortal' - 1 else mortal');
  }

  /** Content is still claimed as it was, but of documents named so far; the
      requests still to take name no others. */
  ghost predicate StillClaimed(kept: map<Doc, Content>, now: map<Doc, Content>, named: set<Doc>,
                               requests: seq<Request>)
  {
    && Named(requests) <= named
    && forall d :: d in kept && d !in named ==> d in now && now[d] == kept[d]
  }

  lemma StillClaimedAtFirst(kept: map<Doc, Content>, requests: seq<Request>)
    ensures StillClaimed(kept, kept, Named(requests) + NamedBy([]), requests)
  {
  }

  lemma ClaimsGoOn(kept: map<Doc, Content>, k1: map<Doc, Content>, k2: map<Doc, Content>, named: set<Doc>,
                   requests: seq<Request>, arriving: seq<Request>, left: seq<Request>)
    requires StillClaimed(kept, k1, named, requests) && Spared(k1, k2, requests + arriving, left)
    ensures StillClaimed(kept, k2, named + Named(arriving), left)
  {
    NamedTogether(requests, arriving);
  }
}
