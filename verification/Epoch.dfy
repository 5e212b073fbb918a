/** The routing epoch, and why no search misses a chunk while maintenance moves it. */
module Epoch {
  import opened Codes
  import opened Vectors

  // ── The grace period ──

  /** Readers register in the current generation; a barrier starts a new one and
      waits until no reader of an earlier one is left. */
  class Grace {
    var generation: nat
    var readers: map<nat, nat>
    // The generation each reader inside entered in.
    ghost var inside: multiset<nat>

    ghost predicate Valid()
      reads this
    {
      && (forall g: nat :: g in readers <==> g in inside)
      && (forall g: nat :: g in readers ==> readers[g] == inside[g])
      && (forall g: nat :: g in inside ==> g <= generation)
    }

    constructor ()
      ensures Valid() && inside == multiset{}
    {
      generation, readers, inside := 0, map[], multiset{};
    }

    method Enter() returns (g: nat)
      requires Valid()
      modifies this
      ensures Valid() && g == generation == old(generation) && inside == old(inside) + multiset{g}
    {
      g := generation;
      readers := readers[g := (if g in readers then readers[g] else 0) + 1];
      inside := inside + multiset{g};
    }

    /** Dropping the guard. */
    method Leave(g: nat)
      requires Valid() && g in inside
      modifies this
      ensures Valid() && generation == old(generation) && inside == old(inside) - multiset{g}
    {
      if readers[g] == 1 {
        readers := readers - {g};
      } else {
        readers := readers[g := readers[g] - 1];
      }
      inside := inside - multiset{g};
    }

    /** A barrier begins: everyone inside is of generation `last` or before, and
        everyone who enters from now on of a later one. */
    method StartWait() returns (last: nat)
      requires Valid()
      modifies this
      ensures Valid() && last < generation && inside == old(inside)
      ensures forall g: nat :: g in inside ==> g <= last
    {
      last := generation;
      generation := generation + 1;
    }

    /** Whether the barrier is over: exactly when no one who was inside when it
        began still is. */
    method IsOver(last: nat) returns (over: bool)
      requires Valid()
      ensures over <==> forall g: nat :: g in inside ==> g > last
    {
      over := forall g :: g in readers ==> g > last;
    }
  }

  // ── Moving chunks, and the searches around them ──

  /** A chunk of a document. */
  type Chunk = (Doc, VectorIndex)

  /** What a drain or a reassignment moves: from which postings, and where to. */
  datatype Move = Move(chunks: set<Chunk>, from: Chunk -> set<nat>, dest: Chunk -> nat) {
    ghost predicate Valid() {
      forall c :: c in chunks ==> from(c) != {} && dest(c) !in from(c)
    }

    function Sources(): set<nat> {
      set c, p | c in chunks && p in from(c) :: p
    }

    function Dests(): set<nat> {
      set c | c in chunks :: dest(c)
    }
  }

  /** Steps 3 to 7 of a drain; a reassignment, whose postings are all published,
      starts at the copy. A search scans the postings of the snapshot it entered
      by: the sources until they are retired, the destinations once published. */
  datatype Phase = Planned | Publishing(last: nat) | Copying | Waiting(last: nat) | Deleting | Retired

  /** A search under way: what it has still to scan, and every chunk it has seen. */
  datatype Search = Search(generation: nat, targets: set<nat>, scanned: set<nat>, seen: set<Chunk>)

  datatype State = State(phase: Phase, generation: nat, searches: map<nat, Search>, keys: map<nat, set<Chunk>>)

  function Under(keys: map<nat, set<Chunk>>, p: nat): set<Chunk> {
    if p in keys then keys[p] else {}
  }

  datatype Event =
    | Enter(id: nat, targets: set<nat>) | Scan(id: nat, posting: nat) | Leave(id: nat)
    | Publish | PublishOver | Copy(chunk: Chunk) | StartBarrier | BarrierOver | Delete(chunk: Chunk, from: nat) | Retire

  ghost predicate NoneUpTo(s: State, last: nat) {
    forall i :: i in s.searches ==> s.searches[i].generation > last
  }

  /** What may happen in a state. Searches come, scan in any order and go at any
      time; maintenance takes its own steps in order. */
  ghost predicate Enabled(m: Move, s: State, e: Event) {
    match e
    case Enter(id, targets) =>
      && id !in s.searches
      && (!s.phase.Retired? ==> m.Sources() <= targets)
      && (!s.phase.Planned? ==> m.Dests() <= targets)
    case Scan(id, p) => id in s.searches && p in s.searches[id].targets - s.searches[id].scanned
    case Leave(id) => id in s.searches && s.searches[id].targets <= s.searches[id].scanned
    case Publish => s.phase.Planned?
    case PublishOver => s.phase.Publishing? && NoneUpTo(s, s.phase.last)
    case Copy(c) => s.phase.Copying? && c in m.chunks
    case StartBarrier => s.phase.Copying? && forall c :: c in m.chunks ==> c in Under(s.keys, m.dest(c))
    case BarrierOver => s.phase.Waiting? && NoneUpTo(s, s.phase.last)
    case Delete(c, p) => s.phase.Deleting? && c in m.chunks && p in m.from(c)
    case Retire => s.phase.Deleting?
  }

  function Next(m: Move, s: State, e: Event): State {
    match e
    case Enter(id, targets) => s.(searches := s.searches[id := Search(s.generation, targets, {}, {})])
    case Scan(id, p) =>
      if id !in s.searches then s
      else var q := s.searches[id];
           s.(searches := s.searches[id := q.(scanned := q.scanned + {p}, seen := q.seen + Under(s.keys, p))])
    case Leave(id) => s.(searches := s.searches - {id})
    case Publish => s.(phase := Publishing(s.generation), generation := s.generation + 1)
    case PublishOver => s.(phase := Copying)
    case Copy(c) => s.(keys := s.keys[m.dest(c) := Under(s.keys, m.dest(c)) + {c}])
    case StartBarrier => s.(phase := Waiting(s.generation), generation := s.generation + 1)
    case BarrierOver => s.(phase := Deleting)
    case Delete(c, p) => s.(keys := s.keys[p := Under(s.keys, p) - {c}])
    case Retire => s.(phase := Retired)
  }

  /** Whether the sources keep their chunks while a search of generation `g` runs. */
  predicate SourcesStay(phase: Phase, g: nat) {
    phase.Planned? || phase.Publishing? || phase.Copying? || (phase.Waiting? && g <= phase.last)
  }

  /** The search has yet to come to the posting, where the chunk is. */
  predicate Ahead(s: State, q: Search, p: nat, c: Chunk) {
    c in Under(s.keys, p) && p in q.targets - q.scanned
  }

  /** Every chunk is one the search has seen, or one it has yet to come to where
      it will still be. */
  ghost predicate WillSee(m: Move, s: State, q: Search, c: Chunk) {
    || c in q.seen
    || (SourcesStay(s.phase, q.generation) && exists p :: p in m.from(c) && Ahead(s, q, p, c))
    || Ahead(s, q, m.dest(c), c)
  }

  ghost predicate Inv(m: Move, s: State) {
    && (s.phase.Planned? || s.phase.Publishing? || s.phase.Copying? || s.phase.Waiting? ==>
          forall c, p :: c in m.chunks && p in m.from(c) ==> c in Under(s.keys, p))
    && (s.phase.Waiting? || s.phase.Deleting? || s.phase.Retired? ==> forall c :: c in m.chunks ==>
          c in Under(s.keys, m.dest(c)))
    && (s.phase.Waiting? ==> s.phase.last < s.generation)
    && (forall i :: i in s.searches ==> s.searches[i].generation <= s.generation)
    && (forall i, c :: i in s.searches && c in m.chunks ==> WillSee(m, s, s.searches[i], c))
  }

  lemma StepKeepsInv(m: Move, s: State, e: Event)
    requires m.Valid() && Inv(m, s) && Enabled(m, s, e)
    ensures Inv(m, Next(m, s, e))
  {
    var s' := Next(m, s, e);
    forall c, p | c in m.chunks && p in m.from(c) && c in Under(s.keys, p) && !e.Delete?
      ensures c in Under(s'.keys, p)
    {
    }
    forall i, c | i in s'.searches && c in m.chunks ensures WillSee(m, s', s'.searches[i], c) {
      assert m.dest(c) in m.Dests();
      var p :| p in m.from(c);
      assert p in m.Sources();
      if i in s.searches {
        assert WillSee(m, s, s.searches[i], c);
        KeepsSeeing(m, s, e, i, c);
      } else {
        assert SourcesStay(s.phase, s.generation) ==> Ahead(s', s'.searches[i], p, c);
      }
    }
  }

  lemma KeepsSeeing(m: Move, s: State, e: Event, i: nat, c: Chunk)
    requires m.Valid() && Inv(m, s) && Enabled(m, s, e)
    requires i in s.searches && i in Next(m, s, e).searches && c in m.chunks
    ensures WillSee(m, Next(m, s, e), Next(m, s, e).searches[i], c)
  {
    var s' := Next(m, s, e);
    var q, q' := s.searches[i], s'.searches[i];
    assert WillSee(m, s, q, c);
    if c !in q'.seen && !Ahead(s', q', m.dest(c), c) {
      var p :| p in m.from(c) && Ahead(s, q, p, c);
      assert Ahead(s', q', p, c);
    }
  }

  /** A run: every event enabled where it happens. */
  ghost predicate Run(m: Move, states: seq<State>, events: seq<Event>) {
    && |states| == |events| + 1
    && forall k :: 0 <= k < |events| ==>
       Enabled(m, states[k], events[k]) && states[k + 1] == Next(m, states[k], events[k])
  }

  /** How a drain (`Planned`) or a reassignment (`Copying`) begins: the sources hold
      every chunk to move, as they have since each search under way began. */
  ghost predicate Begins(m: Move, s: State) {
    && (s.phase.Planned? || s.phase.Copying?)
    && (forall c, p :: c in m.chunks && p in m.from(c) ==> c in Under(s.keys, p))
    && forall i :: i in s.searches ==>
         && s.searches[i].generation <= s.generation && m.Sources() <= s.searches[i].targets
         && forall c, p :: c in m.chunks && p in m.from(c) && p in s.searches[i].scanned ==> c in s.searches[i].seen
  }

  lemma BeginsWithInv(m: Move, s: State)
    requires m.Valid() && Begins(m, s)
    ensures Inv(m, s)
  {
    forall i, c | i in s.searches && c in m.chunks ensures WillSee(m, s, s.searches[i], c) {
      var p :| p in m.from(c);
      assert p in m.Sources();
      assert p in s.searches[i].scanned || Ahead(s, s.searches[i], p, c);
    }
  }

  lemma {:induction false} RunKeepsInv(m: Move, states: seq<State>, events: seq<Event>, k: nat)
    requires m.Valid() && Run(m, states, events) && Inv(m, states[0]) && k < |states|
    ensures Inv(m, states[k])
  {
    if k > 0 {
      RunKeepsInv(m, states, events, k - 1);
      StepKeepsInv(m, states[k - 1], events[k - 1]);
    }
  }

  /** No search misses a moving chunk: in every run of a drain or a reassignment, a
      search that leaves, whether it began before or during the run, and having
      scanned its postings in any order and at any time, has seen every chunk. */
  lemma NoSearchMissesAChunk(m: Move, states: seq<State>, events: seq<Event>, k: nat, id: nat)
    requires m.Valid() && Run(m, states, events) && Begins(m, states[0])
    requires k < |events| && events[k] == Leave(id)
    ensures id in states[k].searches && m.chunks <= states[k].searches[id].seen
  {
    BeginsWithInv(m, states[0]);
    RunKeepsInv(m, states, events, k);
    var q := states[k].searches[id];
    forall c | c in m.chunks ensures c in q.seen {
      assert WillSee(m, states[k], q, c);
    }
  }

  /** As a run, but the barrier is passed without waiting. */
  ghost predicate Hasty(m: Move, states: seq<State>, events: seq<Event>) {
    && |states| == |events| + 1
    && forall k :: 0 <= k < |events| ==>
         && (Enabled(m, states[k], events[k]) || (events[k].BarrierOver? && states[k].phase.Waiting?))
         && states[k + 1] == Next(m, states[k], events[k])
  }

  /** Without the barrier any chunk can be missed, whatever posting it leaves and
      wherever it goes: by a search that scans the destination before the copy and
      the source after the delete. */
  lemma WithoutTheBarrierAChunkIsMissed(c: Chunk, source: nat, dest: nat)
    returns (m: Move, states: seq<State>, events: seq<Event>, id: nat)
    requires source != dest
    ensures m.Valid() && m.chunks == {c} && m.from(c) == {source} && m.dest(c) == dest
    ensures Hasty(m, states, events) && Begins(m, states[0]) && states[0].searches == map[]
    ensures events != [] && events[|events| - 1] == Leave(id)
    ensures id in states[|events| - 1].searches && c !in states[|events| - 1].searches[id].seen
  {
    hide Hasty, Begins;
    m, id := Move({c}, _ => {source}, _ => dest), 0;
    var s;
    s, states, events := ScanThenCopy(m, c, source, dest);
    s, states, events := Extend(m, s, states, events, StartBarrier);
    s, states, events := Extend(m, s, states, events, BarrierOver);
    s, states, events := Extend(m, s, states, events, Delete(c, source));
    s, states, events := Extend(m, s, states, events, Scan(id, source));
    assert s.searches[id] == Search(0, {source, dest}, {dest, source}, {});
    s, states, events := Extend(m, s, states, events, Leave(id));
  }

  /** A search enters and scans the destination, and then the chunk is copied. */
  lemma ScanThenCopy(m: Move, c: Chunk, source: nat, dest: nat)
    returns (s: State, states: seq<State>, events: seq<Event>)
    requires m.chunks == {c} && m.from(c) == {source} && m.dest(c) == dest && source != dest
    ensures Hasty(m, states, events) && states[|events|] == s && Begins(m, states[0]) && states[0].searches == map[]
    ensures s == State(Copying, 0, map[0 := Search(0, {source, dest}, {dest}, {})], map[source := {c}, dest := {c}])
  {
    hide Hasty, Begins;
    s := State(Copying, 0, map[], map[source := {c}]);
    NothingYet(m, s);
    assert m.Sources() == {source} && m.Dests() == {dest};
    s, states, events := Extend(m, s, [s], [], Enter(0, {source, dest}));
    s, states, events := Extend(m, s, states, events, Scan(0, dest));
    assert s.searches[0] == Search(0, {source, dest}, {dest}, {});
    s, states, events := Extend(m, s, states, events, Copy(c));
    assert s.searches == map[0 := Search(0, {source, dest}, {dest}, {})];
    assert s.keys[dest] == {c};
    assert s.keys == map[source := {c}, dest := {c}];
  }

  lemma NothingYet(m: Move, s: State)
    requires s.phase.Copying? && s.searches == map[]
    requires forall c, p :: c in m.chunks && p in m.from(c) ==> c in Under(s.keys, p)
    ensures Hasty(m, [s], []) && Begins(m, s)
  {
  }

  lemma Extend(m: Move, s: State, states: seq<State>, events: seq<Event>, e: Event)
    returns (s': State, states': seq<State>, events': seq<Event>)
    requires Hasty(m, states, events) && states[|events|] == s
    requires Enabled(m, s, e) || (e.BarrierOver? && s.phase.Waiting?)
    ensures Hasty(m, states', events') && |events'| == |events| + 1 && events'[|events|] == e
    ensures s' == Next(m, s, e) && states'[|events'|] == s' && states'[|events|] == s && states'[0] == states[0]
  {
    s' := Next(m, s, e);
    states', events' := states + [s'], events + [e];
  }
}
