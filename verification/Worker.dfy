/** Draining the queue: one turn on every entry, a pass at a time. */
module Worker {
  import opened Codes
  import opened Vectors
  import opened Counts
  import opened Partition
  import opened Requests
  import opened Store
  import opened Publishing
  import opened Runs
  import Q = Queue

  lemma ElementsOf(s: seq<Doc>, all: set<Doc>)
    requires forall d :: d in s <==> d in all
    ensures Elements(s[..0]) == {} && Elements(s[..|s|]) == all
  {
    assert s[..|s|] == s;
  }

  lemma ElementsMore(s: seq<Doc>, k: nat)
    requires k < |s| && forall i, j :: 0 <= i < j < |s| ==> s[i] < s[j]
    ensures s[k] !in Elements(s[..k]) && Elements(s[..k + 1]) == Elements(s[..k]) + {s[k]}
  {
    assert s[..k + 1] == s[..k] + [s[k]];
    assert forall j :: 0 <= j < k ==> s[j] < s[k];
  }

  /** The queue a pass leaves, with no client about: of the entries that asked
      for what their documents hold none, of the others one that does. */
  ghost predicate Passed(queue: map<Doc, Q.Entry>, docs: map<Doc, Text>, queue': map<Doc, Q.Entry>, worked: set<Doc>) {
    forall d :: Stored(queue', d) == if d in worked then Q.Turn(Stored(queue, d), TextIn(docs, d)) else Stored(queue, d)
  }

  lemma PassedMore(queue: map<Doc, Q.Entry>, docs: map<Doc, Text>, q1: map<Doc, Q.Entry>, q2: map<Doc, Q.Entry>,
                   worked: set<Doc>, d: Doc)
    requires Passed(queue, docs, q1, worked) && d !in worked
    requires q2 - {d} == q1 - {d} && Stored(q2, d) == Q.Turn(Stored(q1, d), TextIn(docs, d))
    ensures Passed(queue, docs, q2, worked + {d})
  {
    forall x ensures Stored(q2, x) == if x in worked + {d} then Q.Turn(Stored(queue, x), TextIn(docs, x))
      else Stored(queue, x) {
      assert Stored(q1, x) == if x in worked then Q.Turn(Stored(queue, x), TextIn(docs, x)) else Stored(queue, x);
      if x != d {
        assert x in q2 <==> x in q2 - {d};
        assert x in q1 <==> x in q1 - {d};
        assert x in q2 ==> (q2 - {d})[x] == q2[x];
        assert x in q1 ==> (q1 - {d})[x] == q1[x];
      }
    }
  }

  /** One pass over a snapshot of the queue. */
  method Pass(ix: Index) returns (r: Outcome)
    requires ix.Live() && ix.requests == []
    modifies ix`docs, ix`queue, ix`lost, ix`log, ix`counts, ix`budget, ix`kept, ix`requests
    ensures ix.Safe() && !r.Corrupt? && Spent(old(ix.budget), ix.budget, r)
    ensures r.Fine? ==> ix.Live() && ix.requests == [] && ix.docs == old(ix.docs)
    ensures r.Fine? ==> Passed(old(ix.queue), ix.docs, ix.queue, old(ix.queue.Keys))
  {
    hide PartsOk, PlanOk, AllGood, RulesOf, Agrees, Settled, Passed, Elements, Spared, Interfered, Index.Sound,
         Index.SnapOk, Index.Routed;
    var entries := Ascending(ix.queue.Keys);
    AscendingAscends(ix.queue.Keys);
    ElementsOf(entries, ix.queue.Keys);
    NonePassed(ix.queue, ix.docs);
    for k := 0 to |entries|
      invariant Spent(old(ix.budget), ix.budget, Fine)
      invariant ix.Live() && ix.requests == [] && ix.docs == old(ix.docs)
      invariant Passed(old(ix.queue), ix.docs, ix.queue, Elements(entries[..k]))
    {
      ghost var before := ix.queue;
      :- ix.Work(entries[k], false);
      ElementsMore(entries, k);
      PassedMore(old(ix.queue), ix.docs, before, ix.queue, Elements(entries[..k]), entries[k]);
    }
    return Fine;
  }

  lemma NonePassed(queue: map<Doc, Q.Entry>, docs: map<Doc, Text>)
    ensures Passed(queue, docs, queue, {})
  {
  }

  /** A pass leaves only entries that ask for what their documents hold; a
      second leaves none. */
  lemma TwoPassesEmpty(q0: map<Doc, Q.Entry>, q1: map<Doc, Q.Entry>, q2: map<Doc, Q.Entry>, docs: map<Doc, Text>)
    requires Passed(q0, docs, q1, q0.Keys) && Passed(q1, docs, q2, q1.Keys)
    ensures q1.Keys <= q0.Keys && forall d :: d in q1 ==> Asks(q1, docs, d) && !Asks(q0, docs, d)
    ensures q2 == map[]
  {
    forall d ensures d in q1 ==> d in q0 && Asks(q1, docs, d) && !Asks(q0, docs, d) {
      assert Stored(q1, d) == if d in q0.Keys then Q.Turn(Stored(q0, d), TextIn(docs, d)) else Stored(q0, d);
    }
    forall d ensures d !in q2 {
      assert Stored(q2, d) == if d in q1.Keys then Q.Turn(Stored(q1, d), TextIn(docs, d)) else Stored(q1, d);
      assert Stored(q1, d) == if d in q0.Keys then Q.Turn(Stored(q0, d), TextIn(docs, d)) else Stored(q0, d);
    }
    assert q2.Keys == {};
  }

  /** The worker converges: with no client writes and every embed succeeding, the
      queue is empty after two passes, each entry rewritten at most once, and
      every document then has exactly its text's vectors, unless the process is
      killed first. */
  method DrainQueue(ix: Index) returns (r: Outcome)
    requires ix.Live() && ix.requests == []
    modifies ix`docs, ix`queue, ix`lost, ix`log, ix`counts, ix`budget, ix`kept, ix`requests
    ensures ix.Safe() && !r.Corrupt? && Spent(old(ix.budget), ix.budget, r)
    ensures old(ix.budget).None? ==> r.Fine?
    ensures r.Fine? ==> ix.Live() && ix.docs == old(ix.docs) && ix.queue == map[]
    ensures r.Fine? ==> forall d, i :: 0 <= i < |ix.log| ==> Exact(ix.e, TextIn(ix.docs, d), At(ix.log[i], d))
  {
    hide PartsOk, PlanOk, AllGood, RulesOf, Agrees, Settled, Passed, Exact;
    ghost var q0 := ix.queue;
    :- Pass(ix);
    ghost var q1 := ix.queue;
    :- Pass(ix);
    TwoPassesEmpty(q0, q1, ix.queue, ix.docs);
    forall d, i | 0 <= i < |ix.log| ensures Exact(ix.e, TextIn(ix.docs, d), At(ix.log[i], d)) {
      QueueFirst(ix, i, d);
    }
    return Fine;
  }

  /** Wherever a crash stops the store, and whatever it takes with it, restarting
      and draining the queue repairs the index, unless that process is killed too:
      what the crash audit checks. */
  method RestartAndDrain(ix: Index, crash: Crash) returns (r: Outcome)
    requires ix.Safe() && ix.requests == []
    modifies ix
    ensures ix.Safe() && !r.Corrupt? && Spent(crash.budget, ix.budget, r)
    ensures crash.budget.None? ==> r.Fine?
    ensures r.Fine? ==> ix.docs == old(ix.docs) && ix.queue == map[] && ix.journal == map[]
    ensures r.Fine? ==> forall d, i :: 0 <= i < |ix.log| ==> Exact(ix.e, TextIn(ix.docs, d), At(ix.log[i], d))
    ensures r.Fine? ==> forall d, p, i :: 0 <= i < |ix.log| && p in At(ix.log[i], d).keys ==>
            p in Lists(At(ix.log[i], d).meta)
  {
    hide PartsOk, PlanOk, AllGood, RulesOf, Agrees, Settled, Exact;
    :- Restart(ix, crash);
    :- DrainQueue(ix);
    forall d, p, i | 0 <= i < |ix.log| && p in At(ix.log[i], d).keys ensures p in Lists(At(ix.log[i], d).meta) {
      MetaListsEveryKey(ix, i, d, p);
    }
    return Fine;
  }
}
