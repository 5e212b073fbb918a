/** The striped locks over documents' vectors: a writer takes its document's
    stripe, maintenance a batch's, sorted and without repeats. */
module Stripes {

  const STRIPES := 4096

  /** `hash(namespace, doc) & (STRIPES - 1)`, for an uninterpreted hash. */
  function StripeOf(hash: nat -> nat, doc: nat): (s: nat)
    ensures s < STRIPES
  {
    hash(doc) % STRIPES
  }

  // ── The stripes of a batch ──

  predicate Sorted(s: seq<nat>) {
    forall i, j :: 0 <= i < j < |s| ==> s[i] <= s[j]
  }

  predicate StrictlyAscending(s: seq<nat>) {
    forall i, j :: 0 <= i < j < |s| ==> s[i] < s[j]
  }

  function Insert(x: nat, s: seq<nat>): (r: seq<nat>)
    requires Sorted(s)
    ensures Sorted(r) && forall y :: y in r <==> y == x || y in s
  {
    if s == [] || x <= s[0] then [x] + s
    else
      assert Sorted(s[1..]) && forall y :: y in s <==> y == s[0] || y in s[1..];
      var rest := Insert(x, s[1..]);
      assert forall k :: 0 <= k < |rest| ==> s[0] <= rest[k] by {
        forall k | 0 <= k < |rest| ensures s[0] <= rest[k] {
          assert rest[k] in rest && (rest[k] == x || rest[k] in s[1..]);
        }
      }
      [s[0]] + rest
  }

  function Sort(s: seq<nat>): (r: seq<nat>)
    ensures Sorted(r) && forall y :: y in r <==> y in s
  {
    if s == [] then [] else assert forall y :: y in s <==> y == s[0] || y in s[1..]; Insert(s[0], Sort(s[1..]))
  }

  /** `dedup`: of equal neighbours, the first. */
  method Dedup(s: seq<nat>) returns (r: seq<nat>)
    requires Sorted(s)
    ensures StrictlyAscending(r) && forall y :: y in r <==> y in s
  {
    r := [];
    for k := 0 to |s|
      invariant StrictlyAscending(r) && forall y :: y in r <==> y in s[..k]
      invariant if k == 0 then r == [] else r != [] && r[|r| - 1] == s[k - 1]
    {
      if k == 0 || s[k] != s[k - 1] {
        assert forall i :: 0 <= i < |r| ==> r[i] <= r[|r| - 1] < s[k];
        r := r + [s[k]];
      }
      assert s[..k + 1] == s[..k] + [s[k]];
    }
    assert s[..|s|] == s;
  }

  function StripesOfAll(hash: nat -> nat, docs: seq<nat>): (r: seq<nat>)
    ensures |r| == |docs| && forall i :: 0 <= i < |r| ==> r[i] == StripeOf(hash, docs[i])
  {
    seq(|docs|, i requires 0 <= i < |docs| => StripeOf(hash, docs[i]))
  }

  /** What a task locking `docs` waits for, one after the other. */
  method StripesToTake(hash: nat -> nat, docs: seq<nat>) returns (r: seq<nat>)
    ensures StrictlyAscending(r) && forall s :: s in r ==> s < STRIPES
    ensures forall d :: d in docs ==> StripeOf(hash, d) in r
    ensures forall s :: s in r ==> exists d :: d in docs && StripeOf(hash, d) == s
  {
    var all := StripesOfAll(hash, docs);
    r := Dedup(Sort(all));
    forall d | d in docs ensures StripeOf(hash, d) in r {
      var i :| 0 <= i < |docs| && docs[i] == d;
      assert all[i] in all;
    }
    forall s | s in r ensures exists d :: d in docs && StripeOf(hash, d) == s {
      assert s in all;
      var i :| 0 <= i < |all| && all[i] == s;
      assert docs[i] in docs;
    }
  }

  // ── Tasks ──

  /** A task holds the first `taken` of its stripes; with all of them it writes,
      and then lets them all go. */
  datatype Task = Task(docs: set<nat>, stripes: seq<nat>, taken: nat) {
    predicate Holds(s: nat) {
      taken <= |stripes| && s in stripes[..taken]
    }
  }

  type Tasks = map<nat, Task>

  ghost predicate TaskOk(hash: nat -> nat, t: Task) {
    && t.taken <= |t.stripes| && StrictlyAscending(t.stripes)
    && (forall s :: s in t.stripes ==> s < STRIPES)
    && (forall d :: d in t.docs ==> StripeOf(hash, d) in t.stripes)
  }

  /** No two tasks hold one stripe. */
  ghost predicate Valid(hash: nat -> nat, tasks: Tasks) {
    && (forall i :: i in tasks ==> TaskOk(hash, tasks[i]))
    && (forall i, j, s :: i in tasks && j in tasks && i != j ==> !(tasks[i].Holds(s) && tasks[j].Holds(s)))
  }

  predicate Free(tasks: Tasks, s: nat) {
    forall j :: j in tasks ==> !tasks[j].Holds(s)
  }

  /** A task can finish, or take the stripe it waits for. */
  predicate CanProceed(tasks: Tasks, i: nat)
    requires i in tasks
  {
    tasks[i].taken >= |tasks[i].stripes| || Free(tasks, tasks[i].stripes[tasks[i].taken])
  }

  function Proceed(tasks: Tasks, i: nat): Tasks
    requires i in tasks
  {
    if tasks[i].taken >= |tasks[i].stripes| then tasks - {i} else tasks[i := tasks[i].(taken := tasks[i].taken + 1)]
  }

  lemma ProceedKeepsValid(hash: nat -> nat, tasks: Tasks, i: nat)
    requires Valid(hash, tasks) && i in tasks && CanProceed(tasks, i)
    ensures Valid(hash, Proceed(tasks, i))
  {
    var t := tasks[i];
    if t.taken < |t.stripes| {
      assert t.stripes[..t.taken + 1] == t.stripes[..t.taken] + [t.stripes[t.taken]];
    }
  }

  /** Follow a blocked task to the holder of what it waits for, and on: each
      waits for a greater stripe, so one of them waits for none. */
  lemma {:induction false} Chase(hash: nat -> nat, tasks: Tasks, i: nat) returns (j: nat)
    requires Valid(hash, tasks) && i in tasks
    ensures j in tasks && CanProceed(tasks, j)
    decreases if tasks[i].taken < |tasks[i].stripes| then STRIPES - tasks[i].stripes[tasks[i].taken] else 0
  {
    j := i;
    if !CanProceed(tasks, i) {
      assert TaskOk(hash, tasks[i]);
      var s := tasks[i].stripes[tasks[i].taken];
      assert s in tasks[i].stripes;
      var k :| k in tasks && tasks[k].Holds(s);
      var t := tasks[k];
      assert TaskOk(hash, t);
      var n :| 0 <= n < t.taken && t.stripes[n] == s;
      assert t.taken < |t.stripes| ==> s < t.stripes[t.taken] && t.stripes[t.taken] in t.stripes;
      j := Chase(hash, tasks, k);
    }
  }

  /** Whatever tasks there are, some task can proceed. */
  lemma NeverDeadlocked(hash: nat -> nat, tasks: Tasks)
    requires Valid(hash, tasks) && tasks != map[]
    ensures exists i :: i in tasks && CanProceed(tasks, i)
  {
    var i :| i in tasks;
    var j := Chase(hash, tasks, i);
  }

  /** Two tasks that hold all their stripes never share a document. */
  lemma HoldersShareNoDocument(hash: nat -> nat, tasks: Tasks, i: nat, j: nat)
    requires Valid(hash, tasks) && i in tasks && j in tasks && i != j
    requires tasks[i].taken == |tasks[i].stripes| && tasks[j].taken == |tasks[j].stripes|
    ensures tasks[i].docs !! tasks[j].docs
  {
    forall d | d in tasks[i].docs ensures d !in tasks[j].docs {
      var (t, u) := (tasks[i], tasks[j]);
      assert t.stripes[..t.taken] == t.stripes && u.stripes[..u.taken] == u.stripes;
      assert t.Holds(StripeOf(hash, d)) && !u.Holds(StripeOf(hash, d));
    }
  }

  /** A task of a batch, or of one document, arrives. */
  method Arrive(hash: nat -> nat, tasks: Tasks, i: nat, docs: seq<nat>) returns (more: Tasks)
    requires Valid(hash, tasks) && i !in tasks
    ensures Valid(hash, more) && more.Keys == tasks.Keys + {i} && more[i].docs == (set d | d in docs)
  {
    var stripes := StripesToTake(hash, docs);
    more := tasks[i := Task((set d | d in docs), stripes, 0)];
  }

  /** The steps left: each task's stripes to take, and its end. */
  ghost function Left(tasks: Tasks): set<(nat, nat)> {
    set i, k | i in tasks && tasks[i].taken <= k <= |tasks[i].stripes| :: (i, k)
  }

  lemma ProceedLeavesLess(tasks: Tasks, i: nat)
    requires i in tasks && tasks[i].taken <= |tasks[i].stripes|
    ensures Left(Proceed(tasks, i)) < Left(tasks)
  {
    assert (i, tasks[i].taken) in Left(tasks) && (i, tasks[i].taken) !in Left(Proceed(tasks, i));
  }

  /** Some task that can proceed does. */
  ghost predicate OneProceeds(tasks: Tasks, next: Tasks) {
    exists i :: i in tasks && CanProceed(tasks, i) && next == Proceed(tasks, i)
  }

  ghost predicate Schedule(states: seq<Tasks>) {
    states != [] && forall k :: 0 < k < |states| ==> OneProceeds(states[k - 1], states[k])
  }

  /** However the next task is chosen, every schedule comes to an end within the
      steps there are to take, and it can end only when all tasks have finished. */
  lemma {:induction false} EveryScheduleFinishes(hash: nat -> nat, states: seq<Tasks>)
    requires Schedule(states) && Valid(hash, states[0])
    ensures |states| - 1 <= |Left(states[0])|
    ensures var last := states[|states| - 1]; last == map[] || exists i :: i in last && CanProceed(last, i)
  {
    if |states| == 1 {
      if states[0] != map[] {
        NeverDeadlocked(hash, states[0]);
      }
    } else {
      assert OneProceeds(states[1 - 1], states[1]);
      var i :| i in states[0] && CanProceed(states[0], i) && states[1] == Proceed(states[0], i);
      assert TaskOk(hash, states[0][i]);
      ProceedKeepsValid(hash, states[0], i);
      ProceedLeavesLess(states[0], i);
      SmallerIsFewer(Left(states[1]), Left(states[0]));
      ScheduleTail(states);
      EveryScheduleFinishes(hash, states[1..]);
    }
  }

  lemma ScheduleTail(states: seq<Tasks>)
    requires Schedule(states) && |states| > 1
    ensures Schedule(states[1..])
  {
    forall k | 0 < k < |states[1..]| ensures OneProceeds(states[1..][k - 1], states[1..][k]) {
      assert OneProceeds(states[k], states[k + 1]);
    }
  }

  /** Running them all: the schedule it follows ends with every task finished. */
  method RunAll(hash: nat -> nat, start: Tasks) returns (states: seq<Tasks>)
    requires Valid(hash, start)
    ensures Schedule(states) && states[0] == start && states[|states| - 1] == map[]
  {
    var tasks := start;
    states := [start];
    while tasks != map[]
      invariant Valid(hash, tasks) && Schedule(states) && states[0] == start && states[|states| - 1] == tasks
      decreases Left(tasks)
    {
      NeverDeadlocked(hash, tasks);
      var i :| i in tasks && CanProceed(tasks, i);
      ProceedKeepsValid(hash, tasks, i);
      ProceedLeavesLess(tasks, i);
      ScheduleMore(states, i);
      tasks := Proceed(tasks, i);
      states := states + [tasks];
    }
  }

  lemma ScheduleMore(states: seq<Tasks>, i: nat)
    requires Schedule(states) && i in states[|states| - 1] && CanProceed(states[|states| - 1], i)
    ensures Schedule(states + [Proceed(states[|states| - 1], i)])
  {
    var more := states + [Proceed(states[|states| - 1], i)];
    forall k | 0 < k < |more| ensures OneProceeds(more[k - 1], more[k]) {
      assert k < |states| ==> OneProceeds(states[k - 1], states[k]);
    }
  }

  lemma SmallerIsFewer(a: set<(nat, nat)>, b: set<(nat, nat)>)
    requires a < b
    ensures |a| < |b|
  {
    assert b == a + (b - a);
  }
}
