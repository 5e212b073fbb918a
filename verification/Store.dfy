/** The whole index of one namespace: clients, the vector worker, partition
    maintenance, crashes and recovery, over one store. Every write is preceded by
    a crash point, as in the crash audit: `budget` writes go through, then the
    process is killed, or it is not killed at all. */
module Store {
  import opened Codes
  import opened Vectors
  import opened Counts
  import opened Partition
  import opened Marks
  import opened Requests
  import Q = Queue
  import G = Geometry

  datatype Outcome = Fine | Crashed | Corrupt {
    predicate IsFailure() { !Fine? }
    function PropagateFailure(): Outcome
      requires IsFailure()
    { this }
  }

  /** Of the writes a process had left before it is killed (`None`: it is not
      killed), those it still has. It stops short only if it has none: a process
      that is not killed never does. */
  ghost predicate Spent(was: Option<nat>, left: Option<nat>, r: Outcome) {
    && (was.None? <==> left.None?)
    && (was.Some? ==> left.value <= was.value)
    && (r.Crashed? ==> left == Some(0))
  }

  /** How many requests may have been cut short: the one being served, if the
      process was killed. */
  function Lost(r: Outcome): nat {
    if r.Fine? then 0 else 1
  }

  /** A namespace's maintenance settings. */
  datatype Settings = Settings(splitLimit: nat, mergeLimit: nat, reassignRange: nat, gate: bool)

  const BATCH_DOCS := 16

  /** Every other document's state in `new` is its state at the same point of
      `old`. */
  ghost predicate Others(old': Log, new': Log, d: Doc) {
    && |new'| >= |old'|
    && forall i, x :: 0 <= i < |new'| && x != d ==> At(new'[i], x) == At(old'[Cap(i, |old'|)], x)
  }

  function Cap(i: nat, n: nat): nat
    requires n > 0
  {
    if i < n then i else n - 1
  }

  lemma OthersCompose(a: Log, b: Log, c: Log, d: Doc)
    requires Others(a, b, d) && Others(b, c, d)
    ensures Others(a, c, d)
  {
    forall i, x | 0 <= i < |c| && x != d ensures At(c[i], x) == At(a[Cap(i, |a|)], x) {
      assert At(c[i], x) == At(b[Cap(i, |b|)], x);
      assert At(b[Cap(i, |b|)], x) == At(a[Cap(Cap(i, |b|), |a|)], x);
    }
  }

  lemma DurableTouches(log: Log, d: Doc, w: Write)
    ensures Others(log, Durable(log, d, w), d)
    ensures |Durable(log, d, w)| == |log|
    ensures forall i :: 0 <= i < |log| ==> At(Durable(log, d, w)[i], d) == Apply(At(log[i], d), w)
  {
  }

  lemma LoggedTouches(log: Log, d: Doc, w: Write)
    ensures Others(log, Logged(log, d, w), d)
    ensures At(Now(Logged(log, d, w)), d) == Apply(At(Now(log), d), w)
    ensures forall i :: 0 <= i < |log| ==> Logged(log, d, w)[i] == log[i]
  {
  }

  lemma IdsSnoc(ps: seq<(nat, nat)>, k: nat)
    requires k < |ps|
    ensures Ids(ps[..k + 1]) == Ids(ps[..k]) + {ps[k].0}
  {
    assert ps[..k + 1] == ps[..k] + [ps[k]];
    forall x ensures x in Ids(ps[..k + 1]) <==> x in Ids(ps[..k]) + {ps[k].0} {
    }
  }

  /** A document without its keys under `gone`. */
  function Without(dv: DocVec, gone: set<nat>): DocVec {
    dv.(keys := dv.keys - gone)
  }

  function Postings(dv: DocVec): seq<(nat, nat)> {
    if dv.meta.Some? then dv.meta.value.postings else []
  }

  function Stored(queue: map<Doc, Q.Entry>, d: Doc): Option<Q.Entry> {
    if d in queue then Some(queue[d]) else None
  }

  function WithText(docs: map<Doc, Text>, d: Doc, text: Option<Text>): map<Doc, Text> {
    if text.Some? then docs[d := text.value] else docs - {d}
  }

  /** A document's meta is `m` in every state a crash may leave, and it is settled. */
  ghost predicate MetaEverywhere(log: Log, d: Doc, m: Meta) {
    forall i :: 0 <= i < |log| ==> At(log[i], d).meta == Some(m) && SettledDoc(At(log[i], d), At(Now(log), d))
  }

  lemma MetaHere(log: Log, d: Doc, m: Meta)
    requires MetaEverywhere(log, d, m)
    ensures At(Now(log), d).meta == Some(m) && At(Now(log), d).keys.Keys <= Ids(m.postings)
  {
    assert SettledDoc(At(log[|log| - 1], d), At(Now(log), d));
  }

  lemma KeyedNow(c: Claims, r: Rules, log: Log, d: Doc)
    requires AllGood(c, r, log)
    ensures Keyed(r, At(Now(log), d))
  {
    assert Good(c, r, d, At(log[|log| - 1], d));
  }

  lemma OthersNow(log: Log, d: Doc)
    ensures Others(log, log, d)
  {
  }

  lemma MetaStays(was: Log, log: Log, d: Doc, m: Meta, p: nat, codes: seq<VectorIndex>)
    requires MetaEverywhere(was, d, m) && p in Ids(m.postings)
    requires |log| == |was| + 1 && forall i :: 0 <= i < |was| ==> log[i] == was[i]
    requires At(Now(log), d) == Apply(At(Now(was), d), PutKey(p, codes))
    ensures MetaEverywhere(log, d, m)
  {
    assert SettledDoc(At(was[|was| - 1], d), At(Now(was), d));
    forall i | 0 <= i < |log| ensures At(log[i], d).meta == Some(m) && SettledDoc(At(log[i], d), At(Now(log), d)) {
      if i < |was| {
        assert SettledDoc(At(was[i], d), At(Now(was), d));
      }
    }
  }

  /** In every state a crash may leave, the document's meta lists all its keys. */
  ghost predicate ListedIn(log: Log, d: Doc) {
    forall i :: 0 <= i < |log| ==> Listed(At(log[i], d))
  }

  /** The keys of `ids` are written, each with its group. */
  ghost predicate Written(dv: DocVec, groups: map<nat, seq<VectorIndex>>, ids: seq<nat>) {
    forall p :: p in ids ==> p in groups && p in dv.keys && dv.keys[p] == groups[p]
  }

  /** The entries of a meta the document leaves. */
  function StaleOf(ps: seq<(nat, nat)>, groups: set<nat>): (r: seq<(nat, nat)>)
    ensures Ids(r) == Ids(ps) - groups
  {
    if ps == [] then []
    else
      IdsCons(ps);
      var rest := StaleOf(ps[1..], groups);
      if ps[0].0 in groups then rest
      else
        assert Ids([ps[0]] + rest) == {ps[0].0} + Ids(rest) by { IdsCons([ps[0]] + rest); }
        [ps[0]] + rest
  }

  lemma IdsCons(ps: seq<(nat, nat)>)
    requires ps != []
    ensures Ids(ps) == {ps[0].0} + Ids(ps[1..])
  {
    assert ps == [ps[0]] + ps[1..];
  }

  /** What is left of a document's keys. */
  ghost predicate Staying(dv: DocVec, was: DocVec, groups: set<nat>) {
    && dv.keys.Keys <= groups && dv.keys.Keys <= was.keys.Keys
    && dv.meta == was.meta && dv.dense == was.dense
  }

  function Sizes(groups: map<nat, seq<VectorIndex>>, ids: seq<nat>): (r: seq<(nat, nat)>)
    requires forall p :: p in ids ==> p in groups
    ensures |r| == |ids| && forall i :: 0 <= i < |r| ==> r[i] == (ids[i], |groups[ids[i]]|)
  {
    seq(|ids|, i requires 0 <= i < |ids| => (ids[i], |groups[ids[i]]|))
  }

  lemma SizesIds(groups: map<nat, seq<VectorIndex>>, ids: seq<nat>)
    requires forall p :: p in ids <==> p in groups
    ensures Ids(Sizes(groups, ids)) == groups.Keys
  {
    var ps := Sizes(groups, ids);
    forall p | p in groups ensures p in Ids(ps) {
      var i :| 0 <= i < |ids| && ids[i] == p;
      assert ps[i] in ps;
    }
  }

  /** A document after an upsert, and the delta it makes. */
  ghost predicate Upserted(was: DocVec, dv: DocVec, t: Text, vis: seq<VectorIndex>, delta: Delta) {
    && dv.meta == Some(Meta(TextHash(t), delta.added))
    && Ids(delta.added) == dv.keys.Keys
    && (forall x :: x in delta.added ==> x.0 in dv.keys && x.1 == |dv.keys[x.0]|)
    && Groups(OfPass1(vis), dv.keys)
    && dv.dense == (if OfDense(vis) == [] then was.dense else Some(OfDense(vis)))
    && delta.removed == Postings(was)
  }

  lemma SettledAfter(was: Log, log: Log, d: Doc, m: Meta)
    requires Settled(was) && Others(was, log, d) && MetaEverywhere(log, d, m)
    ensures Settled(log)
  {
    forall i, x | 0 <= i < |log| ensures SettledDoc(At(log[i], x), At(Now(log), x)) {
      if x != d {
        assert At(log[i], x) == At(was[Cap(i, |was|)], x);
        assert At(log[|log| - 1], x) == At(was[Cap(|log| - 1, |was|)], x);
        assert SettledDoc(At(was[Cap(i, |was|)], x), At(Now(was), x));
      }
    }
  }

  lemma {:induction false} Pass1Snoc(vis: seq<VectorIndex>, c: VectorIndex)
    ensures OfPass1(vis + [c]) == OfPass1(vis) + (if c.style.Pass1() then [c] else [])
  {
    if vis == [] {
      assert vis + [c] == [c];
    } else {
      assert (vis + [c])[1..] == vis[1..] + [c];
      Pass1Snoc(vis[1..], c);
    }
  }

  lemma {:induction false} DenseSnoc(vis: seq<VectorIndex>, c: VectorIndex)
    requires !c.style.MultiBit?
    ensures OfDense(vis + [c]) == OfDense(vis)
  {
    if vis == [] {
      assert vis + [c] == [c];
    } else {
      assert (vis + [c])[1..] == vis[1..] + [c];
      DenseSnoc(vis[1..], c);
    }
  }

  lemma RepresentsMore(e: Embedder, vs: seq<Vector>, v: Vector, held: set<VectorIndex>, b: VectorIndex)
    requires Represents(e, vs, held) && e.encode(v, b.centreId) == b
    ensures Represents(e, vs + [v], held + {b})
  {
    forall x | x in vs + [v] ensures Coded(e, x, held + {b}) {
      if x != v {
        assert Coded(e, x, held);
      } else {
        assert b in held + {b};
      }
    }
    forall c | c in held + {b} ensures CodeOf(e, vs + [v], c) {
      if c in held {
        assert CodeOf(e, vs, c);
      } else {
        assert v in vs + [v];
      }
    }
  }

  lemma HeldSnoc(codes: seq<VectorIndex>, c: VectorIndex)
    ensures Held(codes + [c]) == Held(codes) + {Bare(c)}
  {
  }

  /** The codes of `vs`, and nothing else, are among `vis`. */
  ghost predicate Encoded(e: Embedder, t: Text, vs: seq<Vector>, vis: seq<VectorIndex>) {
    OfDense(vis) == [e.dense(t)] && Represents(e, vs, Held(OfPass1(vis)))
  }

  lemma EncodedSnoc(e: Embedder, t: Text, vs: seq<Vector>, v: Vector, vis: seq<VectorIndex>, c: VectorIndex)
    requires Encoded(e, t, vs, vis)
    requires c.style.Pass1() && e.encode(v, c.centreId) == Bare(c)
    ensures Encoded(e, t, vs + [v], vis + [c])
  {
    DenseSnoc(vis, c);
    Pass1Snoc(vis, c);
    HeldSnoc(OfPass1(vis), c);
    RepresentsMore(e, vs, v, Held(OfPass1(vis)), Bare(c));
  }

  lemma EncodedStart(e: Embedder, t: Text)
    requires e.Valid()
    ensures Encoded(e, t, [], [e.dense(t)])
  {
    assert [e.dense(t)][1..] == [];
  }

  lemma GroupsHold(codes: seq<VectorIndex>, dv: DocVec)
    requires Groups(codes, dv.keys)
    ensures HeldSet(dv) == Held(codes)
  {
    GroupsMembers(codes, dv.keys);
    forall b | b in HeldSet(dv) ensures b in Held(codes) {
      var p :| p in dv.keys && b in Held(dv.keys[p]);
      var c :| c in dv.keys[p] && Bare(c) == b;
      assert c in codes;
    }
    forall b | b in Held(codes) ensures b in HeldSet(dv) {
      var c :| c in codes && Bare(c) == b;
      assert c in dv.keys[c.clusterId];
      assert b in Held(dv.keys[c.clusterId]);
    }
  }

  /** After an upsert a document has exactly the text's vectors if and only if the
      chunk codes written represent its chunks, and its whole-document code is the
      text's: written now, or, if none was, held before. */
  lemma UpsertIsExactIff(e: Embedder, was: DocVec, dv: DocVec, t: Text, vis: seq<VectorIndex>, delta: Delta)
    requires Upserted(was, dv, t, vis, delta)
    ensures Exact(e, Some(t), dv) <==>
            && Represents(e, e.chunks(t), Held(OfPass1(vis)))
            && (if OfDense(vis) == [] then was.dense else Some(OfDense(vis))) == Some([e.dense(t)])
  {
    GroupsHold(OfPass1(vis), dv);
  }

  /** After an upsert of a text's codes, a document has exactly its vectors. */
  lemma UpsertIsExact(e: Embedder, was: DocVec, dv: DocVec, t: Text, vis: seq<VectorIndex>, delta: Delta)
    requires Upserted(was, dv, t, vis, delta) && Encoded(e, t, e.chunks(t), vis)
    ensures Exact(e, Some(t), dv)
  {
    UpsertIsExactIff(e, was, dv, t, vis, delta);
  }

  /** A state of `x` that was already possible. */
  ghost predicate FromOld(old': Log, x: Doc, dv: DocVec) {
    exists j :: 0 <= j < |old'| && At(old'[j], x) == dv
  }

  /** No document but `d` changed, and nothing new can become of another. */
  ghost predicate Elsewhere(old': Log, new': Log, d: Doc) {
    && (forall x :: x != d ==> At(Now(new'), x) == At(Now(old'), x))
    && (forall i, x :: 0 <= i < |new'| && x != d ==> FromOld(old', x, At(new'[i], x)))
  }

  lemma OthersElsewhere(old': Log, new': Log, d: Doc)
    requires Others(old', new', d)
    ensures Elsewhere(old', new', d)
  {
    forall x | x != d ensures At(Now(new'), x) == At(Now(old'), x) {
      assert At(new'[|new'| - 1], x) == At(old'[Cap(|new'| - 1, |old'|)], x);
    }
    forall i, x | 0 <= i < |new'| && x != d ensures FromOld(old', x, At(new'[i], x)) {
      assert At(new'[i], x) == At(old'[Cap(i, |old'|)], x);
    }
  }

  lemma ElsewhereFromSync(was: Log, log1: Log, log2: Log, log3: Log, d: Doc)
    requires Others(was, log1, d) && log2 == Synced(log1) && Others(log2, log3, d)
    ensures Elsewhere(was, log3, d)
  {
    OthersElsewhere(was, log1, d);
    forall i, x | 0 <= i < |log3| && x != d ensures At(log3[i], x) == At(Now(was), x) {
      assert At(log3[i], x) == At(log2[Cap(i, |log2|)], x);
      assert log2[Cap(i, |log2|)] == Now(log1);
    }
    forall i, x | 0 <= i < |log3| && x != d ensures FromOld(was, x, At(log3[i], x)) {
      assert At(log3[i], x) == At(was[|was| - 1], x);
    }
  }

  lemma SettledAfterSync(log1: Log, log2: Log, log3: Log, d: Doc)
    requires Settled(log1) && log2 == Synced(log1) && Others(log2, log3, d)
    requires log3 == log2 || forall i :: 0 <= i < |log3| ==> At(log3[i], d) == NOTHING
    ensures Settled(log3)
  {
    forall i, x | 0 <= i < |log3| ensures SettledDoc(At(log3[i], x), At(Now(log3), x)) {
      assert SettledDoc(At(log1[|log1| - 1], x), At(Now(log1), x));
      if x != d {
        assert At(log3[i], x) == At(log2[Cap(i, |log2|)], x);
        assert At(log3[|log3| - 1], x) == At(log2[Cap(|log3| - 1, |log2|)], x);
      } else {
        assert log3 != log2 ==> At(log3[i], x) == At(log3[|log3| - 1], x) == NOTHING;
      }
    }
  }

  lemma UpsertKeys(was: DocVec, dv: DocVec, t: Text, vis: seq<VectorIndex>, delta: Delta, routed: set<nat>)
    requires Upserted(was, dv, t, vis, delta)
    requires forall c :: c in vis && c.style.Pass1() ==> c.clusterId in routed
    ensures dv.keys.Keys <= routed
  {
    GroupsMembers(OfPass1(vis), dv.keys);
    forall p | p in dv.keys ensures p in routed {
      var c :| c in OfPass1(vis) && c.clusterId == p;
    }
  }

  lemma UpsertDelta(was: DocVec, dv: DocVec, t: Text, vis: seq<VectorIndex>, delta: Delta)
    requires Upserted(was, dv, t, vis, delta)
    ensures RecordDelta(was, dv, delta)
  {
    assert Tally([], 0, Entries) == 0;
  }

  lemma MoreDelta(a: DocVec, b: DocVec, c: DocVec, d1: Delta, d2: Delta)
    requires RecordDelta(a, b, d1)
    requires (c == b && d2 == NO_CHANGE) || (c == NOTHING && d2 == Delta([], Postings(b)))
    ensures RecordDelta(a, c, Extend(d1, d2))
  {
    forall p, u
      ensures Counted(c, p, u) + Tally(Extend(d1, d2).removed, p, u)
           == Counted(a, p, u) + Tally(Extend(d1, d2).added, p, u)
    {
      assert Counted(b, p, u) + Tally(d1.removed, p, u) == Counted(a, p, u) + Tally(d1.added, p, u);
      TallyConcat(d1.added, d2.added, p, u);
      TallyConcat(d1.removed, d2.removed, p, u);
    }
  }

  /** What other writers may have done to a log: each document is as it could
      have been, or has been filed anew under routed postings. */
  ghost predicate Interfered(routed: set<nat>, old': Log, new': Log) {
    forall i, x :: 0 <= i < |new'| ==> FromOld(old', x, At(new'[i], x)) || At(new'[i], x).keys.Keys <= routed
  }

  lemma Uninterfered(routed: set<nat>, log: Log)
    ensures Interfered(routed, log, log)
  {
    forall i, x | 0 <= i < |log| ensures FromOld(log, x, At(log[i], x)) {
    }
  }

  lemma InterferedCompose(routed: set<nat>, a: Log, b: Log, c: Log)
    requires Interfered(routed, a, b) && Interfered(routed, b, c)
    ensures Interfered(routed, a, c)
  {
    forall i, x | 0 <= i < |c| ensures FromOld(a, x, At(c[i], x)) || At(c[i], x).keys.Keys <= routed {
      if FromOld(b, x, At(c[i], x)) {
        var j :| 0 <= j < |b| && At(b[j], x) == At(c[i], x);
        assert FromOld(a, x, At(b[j], x)) || At(b[j], x).keys.Keys <= routed;
      }
    }
  }

  lemma RewrittenIsInterfered(routed: set<nat>, old': Log, new': Log, d: Doc)
    requires Elsewhere(old', new', d)
    requires forall i :: 0 <= i < |new'| ==> At(new'[i], d).keys.Keys <= routed
    ensures Interfered(routed, old', new')
  {
    forall i, x | 0 <= i < |new'| ensures FromOld(old', x, At(new'[i], x)) || At(new'[i], x).keys.Keys <= routed {
    }
  }

  /** After a document's vectors are deleted and the delta is applied. */
  lemma Erased(was: Log, log: Log, d: Doc, counts: Table, delta: Delta, routed: set<nat>)
    requires Settled(was) && Agrees(counts, Now(was))
    requires |log| == |was| && Others(was, log, d)
    requires forall i :: 0 <= i < |log| ==> At(log[i], d) == NOTHING
    requires delta == Delta([], Postings(At(Now(was), d)))
    ensures Settled(log) && Agrees(ApplyDelta(counts, delta), Now(log))
    ensures Interfered(routed, was, log) && Elsewhere(was, log, d)
  {
    OthersElsewhere(was, log, d);
    RewrittenIsInterfered(routed, was, log, d);
    assert At(log[|log| - 1], d) == NOTHING;
    assert RecordDelta(At(Now(was), d), NOTHING, delta);
    RecordAccounts(Now(was), Now(log), d, delta);
    ApplyKeepsAgreement(counts, Now(was), Now(log), delta);
    forall i, x | 0 <= i < |log| ensures SettledDoc(At(log[i], x), At(Now(log), x)) {
      if x != d {
        assert At(log[i], x) == At(was[Cap(i, |was|)], x);
        assert At(log[|log| - 1], x) == At(was[Cap(|log| - 1, |was|)], x);
        assert SettledDoc(At(was[i], x), At(Now(was), x));
      }
    }
  }

  function TextIn(docs: map<Doc, Text>, x: Doc): Option<Text> {
    if x in docs then Some(docs[x]) else None
  }

  /** The queue entry of `x` asks for what the document holds. */
  ghost predicate Asks(queue: map<Doc, Q.Entry>, docs: map<Doc, Text>, x: Doc) {
    x in queue && Q.Describes(queue[x], TextIn(docs, x))
  }

  /** What clients may do to `x` while it is queued: nothing, or leave an entry
      asking for what it then holds. */
  ghost predicate Served(queue: map<Doc, Q.Entry>, docs: map<Doc, Text>, queue': map<Doc, Q.Entry>,
                         docs': map<Doc, Text>, x: Doc)
  {
    x in queue ==>
      || Asks(queue', docs', x)
      || (x in queue' && queue'[x] == queue[x] && TextIn(docs', x) == TextIn(docs, x))
  }

  /** A document in the queue stays there until its entry asks for what it holds,
      unless a client only asks for it to be embedded again. */
  lemma ServedSo(queue: map<Doc, Q.Entry>, docs: map<Doc, Text>, queue': map<Doc, Q.Entry>, docs': map<Doc, Text>,
                 q: Request, x: Doc)
    requires q.IsClient() && !(q.Reindex? && q.doc == x) && docs' == After(docs, q)
    requires queue' == (if q.PutDoc? || q.Reindex? then queue[q.doc := Q.EmbedOf(q.text)] else queue[q.doc := Q.CLEAR])
             || (q.PutBlank? && q.doc !in queue && queue' == queue)
    ensures Served(queue, docs, queue', docs', x)
  {
  }

  lemma ServedAsIs(queue: map<Doc, Q.Entry>, docs: map<Doc, Text>, x: Doc)
    ensures Served(queue, docs, queue, docs, x)
  {
  }

  lemma ServedCompose(q0: map<Doc, Q.Entry>, d0: map<Doc, Text>, q1: map<Doc, Q.Entry>, d1: map<Doc, Text>,
                      q2: map<Doc, Q.Entry>, d2: map<Doc, Text>, x: Doc)
    requires Served(q0, d0, q1, d1, x) && Served(q1, d1, q2, d2, x)
    ensures Served(q0, d0, q2, d2, x)
  {
  }

  /** An active posting no other is nearer than, by its routing centroid. */
  ghost predicate NearestRoute(space: G.Space, s: Snapshot, v: Vector, p: nat) {
    && p in Routable(s)
    && forall q :: q in Routable(s) ==> space.dist(v, s.postings[p].routing) <= space.dist(v, s.postings[q].routing)
  }

  class Index {
    const e: Embedder
    const space: G.Space
    const twoMeans: TwoMeans
    const ops: Settings
    const dim: nat

    // Durable on return.
    var docs: map<Doc, Text>
    var queue: map<Doc, Q.Entry>
    var journal: Journal
    var postings: map<nat, Posting>
    var centres: map<nat, Point>
    // Removed from the queue without the WAL: a crash may bring any of these back.
    var lost: map<Doc, Q.Entry>
    // The vector namespaces, logged.
    var log: Log
    // In memory.
    var snap: Snapshot
    // What those still in the routing epoch may have entered by: until a
    // publication has waited them out, the snapshot before it.
    var entered: Snapshot
    var counts: Table
    var unsplittable: map<nat, nat>
    var unmergeable: map<nat, nat>
    var needsRecovery: bool
    // The environment.
    var budget: Option<nat>
    var requests: seq<Request>

    ghost var plan: Plan
    ghost var kept: map<Doc, Content>
    // Where each posting was last refused a split, and last found no room to merge.
    ghost var refused: map<nat, Found>
    ghost var declined: map<nat, Found>

    ghost function C(): Claims
      reads this
    {
      Claims(e, queue.Keys, docs, kept)
    }

    ghost function R(): Rules
      reads `plan, `postings, `centres
    {
      RulesAt(plan, postings)
    }

    /** The rules a plan and postings would make. */
    ghost function RulesAt(plan: Plan, postings: map<nat, Posting>): Rules
      reads `centres
    {
      RulesOf(plan, Snapshot(postings, centres), space, ops.gate)
    }

    /** What the model asks of what it does not interpret. */
    ghost predicate Sound() {
      && e.Valid()
      && forall p, op, codes :: twoMeans(p, op, codes).Some? ==>
           var cs := twoMeans(p, op, codes).value.centres;
           |cs.0| == dim && |cs.1| == dim
    }

    /** Holds before every write, so whatever a crash leaves can be recovered. */
    ghost predicate Safe()
      reads this
    {
      && Sound()
      && journal == JournalOf(plan)
      && PartsOk(postings, centres, dim)
      && PlanOk(plan, postings, centres)
      && AllGood(C(), R(), log)
    }

    /** A namespace as `init_ivf` leaves it: one root posting at the zero centre,
        and no documents. */
    constructor (e: Embedder, space: G.Space, twoMeans: TwoMeans, ops: Settings, dim: nat)
      requires e.Valid()
      requires forall p, op, codes :: twoMeans(p, op, codes).Some? ==>
                 var cs := twoMeans(p, op, codes).value.centres;
                 |cs.0| == dim && |cs.1| == dim
      ensures Live() && plan.Idle? && snap == entered == Snapshot(postings, centres)
      ensures docs == map[] && queue == map[] && requests == [] && budget.None?
      ensures unsplittable == map[] && unmergeable == map[] && refused == map[] == declined
    {
      var zero := seq(dim, _ => 0.0);
      this.e, this.space, this.twoMeans, this.ops, this.dim := e, space, twoMeans, ops, dim;
      docs, queue, lost, log, journal := map[], map[], map[], [map[]], map[];
      centres := map[0 := zero];
      postings := map[0 := Posting(zero, 0, PostingState.Active, None, Root)];
      snap := Snapshot(map[0 := Posting(zero, 0, PostingState.Active, None, Root)], map[0 := zero]);
      entered := Snapshot(map[0 := Posting(zero, 0, PostingState.Active, None, Root)], map[0 := zero]);
      counts, unsplittable, unmergeable, needsRecovery := map[], map[], map[], false;
      budget, requests := None, [];
      plan, kept, refused, declined := Idle, map[], map[], map[];
      new;
      assert IsActive(postings, 0) && 0 in Routable(snap);
    }

    // ── Writes, each after a crash point ──

    method CrashPoint() returns (r: Outcome)
      modifies `budget
      ensures r == if old(budget) == Some(0) then Crashed else Fine
      ensures r.Fine? && old(budget).Some? ==> budget == Some(old(budget).value - 1)
      ensures Spent(old(budget), budget, r)
    {
      if budget.Some? {
        if budget.value == 0 {
          return Crashed;
        }
        budget := Some(budget.value - 1);
      }
      return Fine;
    }

    /** A write to a vector namespace through the vector index WAL. */
    method PutLogged(d: Doc, w: Write) returns (r: Outcome)
      requires Safe() && Good(C(), R(), d, Apply(At(Now(log), d), w))
      modifies `budget, `log
      ensures Safe() && !r.Corrupt? && Spent(old(budget), budget, r)
      ensures log == if r.Fine? then Logged(old(log), d, w) else old(log)
    {
      r := CrashPoint();
      if r.Fine? {
        LoggedKeeps(C(), R(), log, d, w);
        log := Logged(log, d, w);
      }
    }

    /** A write to a vector namespace through the main WAL. */
    method PutDurable(d: Doc, w: Write) returns (r: Outcome)
      requires Safe() && forall i :: 0 <= i < |log| ==> Good(C(), R(), d, Apply(At(log[i], d), w))
      modifies `budget, `log
      ensures Safe() && !r.Corrupt? && Spent(old(budget), budget, r)
      ensures log == if r.Fine? then Durable(old(log), d, w) else old(log)
    {
      r := CrashPoint();
      if r.Fine? {
        DurableKeeps(C(), R(), log, d, w);
        log := Durable(log, d, w);
      }
    }

    /** One fsync of the vector index WAL. */
    method SyncLog() returns (r: Outcome)
      requires Safe()
      modifies `budget, `log
      ensures Safe() && !r.Corrupt? && Spent(old(budget), budget, r)
      ensures log == if r.Fine? then Synced(old(log)) else old(log)
    {
      r := CrashPoint();
      if r.Fine? {
        CrashKeeps(C(), R(), log, |log| - 1);
        log := Synced(log);
      }
    }

    // ── Foreground writes ──

    /** `PutDurable`, for a document no claim is made of. */
    method Overwrite(d: Doc, w: Write) returns (r: Outcome)
      requires Safe() && !C().Watched(d)
      requires forall i :: 0 <= i < |log| ==> Keyed(R(), Apply(At(log[i], d), w))
      modifies `budget, `log
      ensures Safe() && !r.Corrupt? && Spent(old(budget), budget, r)
      ensures r.Fine? ==> |log| == |old(log)| && Others(old(log), log, d)
      ensures r.Fine? ==> forall i :: 0 <= i < |log| ==> At(log[i], d) == Apply(At(old(log)[i], d), w)
    {
      r := PutDurable(d, w);
      DurableTouches(old(log), d, w);
    }

    method EraseKey(d: Doc, p: nat) returns (r: Outcome)
      requires Safe() && !C().Watched(d) && ListedIn(log, d)
      modifies `budget, `log
      ensures Safe() && !r.Corrupt? && Spent(old(budget), budget, r)
      ensures r.Fine? ==> |log| == |old(log)| && Others(old(log), log, d) && ListedIn(log, d)
      ensures r.Fine? ==> forall i :: 0 <= i < |log| ==> At(log[i], d) == Without(At(old(log)[i], d), {p})
    {
      forall i | 0 <= i < |log| ensures Keyed(R(), Apply(At(log[i], d), DeleteKey(p))) {
        assert Good(C(), R(), d, At(log[i], d));
        KeyedAfterDrop(R(), At(log[i], d), p);
      }
      r := Overwrite(d, DeleteKey(p));
    }

    /** Delete the keys of `ps`, one by one. */
    method EraseKeys(d: Doc, ps: seq<(nat, nat)>) returns (r: Outcome)
      requires Safe() && !C().Watched(d) && ListedIn(log, d)
      modifies `budget, `log
      ensures Safe() && !r.Corrupt? && Spent(old(budget), budget, r)
      ensures r.Fine? ==> |log| == |old(log)| && Others(old(log), log, d) && ListedIn(log, d)
      ensures r.Fine? ==> forall i :: 0 <= i < |log| ==> At(log[i], d) == Without(At(old(log)[i], d), Ids(ps))
    {
      hide PartsOk, PlanOk, AllGood, RulesOf;
      ghost var was := log;
      assert forall i :: 0 <= i < |log| ==> Without(At(log[i], d), Ids(ps[..0])) == At(log[i], d);
      for k := 0 to |ps|
        invariant Spent(old(budget), budget, Fine)
        invariant Safe() && |log| == |was| && Others(was, log, d) && ListedIn(log, d)
        invariant forall i :: 0 <= i < |log| ==> At(log[i], d) == Without(At(was[i], d), Ids(ps[..k]))
      {
        ghost var before := log;
        :- EraseKey(d, ps[k].0);
        OthersCompose(was, before, log, d);
        IdsSnoc(ps, k);
      }
      assert ps[..|ps|] == ps;
      return Fine;
    }

    /** Delete a document's vectors: every key its meta lists, then the meta,
        then the whole-document code, all through the main WAL. */
    method DeleteVector(d: Doc) returns (r: Outcome, delta: Delta)
      requires Safe() && Settled(log) && !C().Watched(d)
      modifies `budget, `log
      ensures Safe() && !r.Corrupt? && Spent(old(budget), budget, r)
      ensures r.Fine? ==> |log| == |old(log)| && Others(old(log), log, d)
      ensures r.Fine? ==> forall i :: 0 <= i < |log| ==> At(log[i], d) == NOTHING
      ensures r.Fine? ==> delta == Delta([], Postings(At(Now(old(log)), d)))
    {
      hide PartsOk, PlanOk, AllGood, RulesOf;
      delta := NO_CHANGE;
      var meta := At(Now(log), d).meta;
      assert forall i :: 0 <= i < |log| ==> SettledDoc(At(log[i], d), At(Now(log), d));
      if meta.Some? {
        ghost var was := log;
        :- EraseKeys(d, meta.value.postings);
        delta := Delta([], meta.value.postings);
        assert forall i :: 0 <= i < |log| ==> Apply(At(log[i], d), DeleteMeta).keys == map[];
        ghost var before := log;
        :- Overwrite(d, DeleteMeta);
        OthersCompose(was, before, log, d);
      }
      :- EraseDense(d);
      return Fine, delta;
    }

    /** The last write of a delete. */
    method EraseDense(d: Doc) returns (r: Outcome)
      requires Safe() && !C().Watched(d)
      requires forall i :: 0 <= i < |log| ==> At(log[i], d).meta.None? && At(log[i], d).keys == map[]
      modifies `budget, `log
      ensures Safe() && !r.Corrupt? && Spent(old(budget), budget, r)
      ensures r.Fine? ==> |log| == |old(log)| && Others(old(log), log, d)
      ensures r.Fine? ==> forall i :: 0 <= i < |log| ==> At(log[i], d) == NOTHING
    {
      r := Overwrite(d, DeleteDense);
    }

    // ── The queue ──

    /** A durable queue write: `enqueue_embed`, and the tombstone of a clear. */
    method PutQueue(d: Doc, entry: Q.Entry) returns (r: Outcome)
      requires Safe() && d !in kept
      modifies `budget, `queue, `lost
      ensures Safe() && !r.Corrupt? && Spent(old(budget), budget, r)
      ensures r.Fine? ==> queue == old(queue)[d := entry] && lost == old(lost) - {d}
      ensures !r.Fine? ==> queue == old(queue) && lost == old(lost)
    {
      r := CrashPoint();
      if r.Fine? {
        ClaimsChange(C(), Claims(e, queue.Keys + {d}, docs, kept), R(), log, d);
        assert queue[d := entry].Keys == queue.Keys + {d};
        queue, lost := queue[d := entry], lost - {d};
      }
    }

    /** A durable document write or delete of a queued document. */
    method PutText(d: Doc, text: Option<Text>) returns (r: Outcome)
      requires Safe() && !C().Watched(d)
      modifies `budget, `docs
      ensures Safe() && !r.Corrupt? && Spent(old(budget), budget, r)
      ensures docs == if r.Fine? then WithText(old(docs), d, text) else old(docs)
    {
      r := CrashPoint();
      if r.Fine? {
        ClaimsChange(C(), Claims(e, queue.Keys, WithText(docs, d, text), kept), R(), log, d);
        docs := WithText(docs, d, text);
      }
    }

    /** Complete `entry`: remove it from the queue, without the WAL, only if the
        stored entry is still `entry`. */
    method CompleteEntry(d: Doc, entry: Q.Entry) returns (r: Outcome, found: Q.Completion)
      requires Safe()
      requires d in queue && queue[d].Is(entry) ==>
                 forall i :: 0 <= i < |log| ==>
                   && Exact(e, C().Text(d), At(log[i], d))
                   && (R().copied.Some? ==> Covered(R().copied.value, At(log[i], d)))
      modifies `budget, `queue, `lost
      ensures Safe() && !r.Corrupt? && Spent(old(budget), budget, r)
      ensures r.Fine? ==> (Stored(queue, d), found) == Q.Complete(Stored(old(queue), d), entry)
      ensures queue - {d} == old(queue) - {d}
      ensures !r.Fine? ==> queue == old(queue) && lost == old(lost)
    {
      found := Q.Done;
      :- CrashPoint();
      var (after, f) := Q.Complete(Stored(queue, d), entry);
      if d in queue && after.None? {
        Unqueue(C(), Claims(e, queue.Keys - {d}, docs, kept), R(), log, d);
        assert (queue - {d}).Keys == queue.Keys - {d};
        queue, lost := queue - {d}, lost[d := queue[d]];
      }
      return Fine, f;
    }

    // ── Upserts ──

    /** `PutLogged`, for a document no claim is made of. */
    method Append(d: Doc, w: Write) returns (r: Outcome)
      requires Safe() && !C().Watched(d)
      requires Keyed(R(), Apply(At(Now(log), d), w))
      modifies `budget, `log
      ensures Safe() && !r.Corrupt? && Spent(old(budget), budget, r)
      ensures r.Fine? ==> |log| == |old(log)| + 1 && Others(old(log), log, d)
      ensures r.Fine? ==> forall i :: 0 <= i < |old(log)| ==> log[i] == old(log)[i]
      ensures r.Fine? ==> At(Now(log), d) == Apply(At(Now(old(log)), d), w)
    {
      r := PutLogged(d, w);
      LoggedTouches(old(log), d, w);
    }

    /** The chunk keys of an upsert, in posting order. */
    method WriteKeys(d: Doc, m: Meta, groups: map<nat, seq<VectorIndex>>, ids: seq<nat>) returns (r: Outcome)
      requires Safe() && !C().Watched(d)
      requires Ids(m.postings) == groups.Keys && forall p :: p in groups <==> p in ids
      requires forall p :: p in groups ==> KeyOk(R(), Some(m), p, groups[p])
      requires MetaEverywhere(log, d, m)
      modifies `budget, `log
      ensures Safe() && !r.Corrupt? && Spent(old(budget), budget, r)
      ensures r.Fine? ==> Others(old(log), log, d) && MetaEverywhere(log, d, m)
      ensures r.Fine? ==> At(Now(log), d) == DocVec(Some(m), groups, At(Now(old(log)), d).dense)
    {
      hide PartsOk, PlanOk, RulesOf, AllGood, LeavingOk, Others, MetaEverywhere, KeyOk, Index.Sound;
      ghost var was := log;
      OthersNow(log, d);
      for k := 0 to |ids|
        invariant Spent(old(budget), budget, Fine)
        invariant Safe() && Others(was, log, d) && MetaEverywhere(log, d, m)
        invariant At(Now(log), d).dense == At(Now(was), d).dense
        invariant Written(At(Now(log), d), groups, ids[..k])
      {
        ghost var before := log;
        KeyedNow(C(), R(), log, d);
        MetaHere(log, d, m);
        KeyedAfterPut(R(), At(Now(log), d), ids[k], groups[ids[k]]);
        :- Append(d, PutKey(ids[k], groups[ids[k]]));
        OthersCompose(was, before, log, d);
        MetaStays(before, log, d, m, ids[k], groups[ids[k]]);
        assert ids[..k + 1] == ids[..k] + [ids[k]];
      }
      assert ids[..|ids|] == ids;
      MetaHere(log, d, m);
      assert At(Now(log), d).keys == groups;
      return Fine;
    }

    /** Delete the keys of postings the document leaves. */
    method EraseStale(d: Doc, groups: set<nat>) returns (r: Outcome)
      requires Safe() && Settled(log) && !C().Watched(d)
      modifies `budget, `log
      ensures Safe() && !r.Corrupt? && Spent(old(budget), budget, r)
      ensures r.Fine? ==> |log| == |old(log)| && Others(old(log), log, d)
      ensures r.Fine? ==> forall i :: 0 <= i < |log| ==> Staying(At(log[i], d), At(old(log)[i], d), groups)
      ensures r.Fine? ==> forall i :: 0 <= i < |log| ==> At(log[i], d).keys.Keys <= At(Now(log), d).keys.Keys
    {
      hide PartsOk, PlanOk, AllGood, RulesOf, Index.Sound, Others;
      var stale := StaleOf(Postings(At(Now(log), d)), groups);
      ghost var was := log;
      :- EraseKeys(d, stale);
      forall i | 0 <= i < |log|
        ensures Staying(At(log[i], d), At(was[i], d), groups) && At(log[i], d).keys.Keys <= At(Now(log), d).keys.Keys
      {
        assert SettledDoc(At(was[i], d), At(Now(was), d));
      }
      return Fine;
    }

    /** Replace the meta, durably, before any key it lists is written. */
    method ReplaceMeta(d: Doc, m: Meta) returns (r: Outcome)
      requires Safe() && !C().Watched(d)
      requires Ids(m.postings) <= R().known - R().planned
      requires forall i :: 0 <= i < |log| ==> At(log[i], d).keys.Keys <= At(Now(log), d).keys.Keys <= Ids(m.postings)
      modifies `budget, `log
      ensures Safe() && !r.Corrupt? && Spent(old(budget), budget, r)
      ensures r.Fine? ==> Others(old(log), log, d) && MetaEverywhere(log, d, m)
      ensures r.Fine? ==> At(Now(log), d).dense == At(Now(old(log)), d).dense
    {
      hide PartsOk, PlanOk, RulesOf, Index.Sound;
      forall i | 0 <= i < |log| ensures Keyed(R(), Apply(At(log[i], d), PutMeta(m))) {
        assert Good(C(), R(), d, At(log[i], d)) && At(log[i], d).keys.Keys <= Ids(m.postings);
        KeyedAfterMeta(R(), At(log[i], d), m);
      }
      ghost var was := log;
      :- Overwrite(d, PutMeta(m));
      forall i | 0 <= i < |log| ensures At(log[i], d).meta == Some(m) && SettledDoc(At(log[i], d), At(Now(log), d)) {
        assert At(was[i], d).keys.Keys <= At(Now(was), d).keys.Keys <= Ids(m.postings);
      }
      return Fine;
    }

    /** Replace a document's vectors: (1) the stale keys go, durably; (2) the new
        meta, durable before any key it lists; (3) the new keys and the
        whole-document code, logged. */
    method Rewrite(d: Doc, m: Meta, groups: map<nat, seq<VectorIndex>>, ids: seq<nat>, dense: seq<VectorIndex>)
      returns (r: Outcome)
      requires Safe() && Settled(log) && !C().Watched(d)
      requires Ids(m.postings) == groups.Keys && forall p :: p in groups <==> p in ids
      requires forall p :: p in groups ==> KeyOk(R(), Some(m), p, groups[p])
      requires groups.Keys <= R().known - R().planned
      modifies `budget, `log
      ensures Safe() && !r.Corrupt? && Spent(old(budget), budget, r)
      ensures r.Fine? ==> Others(old(log), log, d) && Settled(log)
      ensures r.Fine? ==> At(Now(log), d) == DocVec(Some(m), groups, if dense == [] then At(Now(old(log)), d).dense
              else Some(dense))
    {
      ghost var was := log;
      :- EraseStale(d, groups.Keys);
      ghost var log1 := log;
      assert Staying(At(Now(log1), d), At(Now(was), d), groups.Keys);
      :- ReplaceMeta(d, m);
      ghost var log2 := log;
      OthersCompose(was, log1, log2, d);
      :- WriteKeys(d, m, groups, ids);
      ghost var log3 := log;
      OthersCompose(was, log2, log3, d);
      :- WriteDense(d, m, dense);
      OthersCompose(was, log3, log, d);
      SettledAfter(was, log, d, m);
      return Fine;
    }

    /** `upsert_vectors`. */
    method UpsertVectors(d: Doc, t: Text, vis: seq<VectorIndex>) returns (r: Outcome, delta: Delta)
      requires Safe() && Settled(log) && !C().Watched(d)
      requires forall c :: c in vis && c.style.Pass1() ==> c.clusterId in R().live - R().planned
      modifies `budget, `log
      ensures Safe() && !r.Corrupt? && Spent(old(budget), budget, r)
      ensures r.Fine? && vis == [] ==> log == old(log) && delta == NO_CHANGE
      ensures r.Fine? && vis != [] ==> Others(old(log), log, d) && Settled(log)
      ensures r.Fine? && vis != [] ==> Upserted(At(Now(old(log)), d), At(Now(log), d), t, vis, delta)
    {
      hide PartsOk, PlanOk, AllGood, Index.Sound, LeavingOk, Good, Settled, TextHash, Groups;
      delta := NO_CHANGE;
      if vis == [] {
        return Fine, delta;
      }
      var groups := Group(OfPass1(vis));
      var ids := Ascending(groups.Keys);
      var ps := Sizes(groups, ids);
      SizesIds(groups, ids);
      delta := Delta(ps, Postings(At(Now(log), d)));
      GroupsMembers(OfPass1(vis), groups);
      :- Rewrite(d, Meta(TextHash(t), ps), groups, ids, OfDense(vis));
      return Fine, delta;
    }

    method WriteDense(d: Doc, m: Meta, codes: seq<VectorIndex>) returns (r: Outcome)
      requires Safe() && !C().Watched(d) && MetaEverywhere(log, d, m)
      modifies `budget, `log
      ensures Safe() && !r.Corrupt? && Spent(old(budget), budget, r)
      ensures r.Fine? ==> MetaEverywhere(log, d, m)
      ensures r.Fine? ==>
              At(Now(log), d) == At(Now(old(log)), d).(dense := if codes == [] then At(Now(old(log)), d).dense
                else Some(codes))
      ensures r.Fine? ==> Others(old(log), log, d)
    {
      if codes != [] {
        ghost var was := log;
        assert Good(C(), R(), d, At(log[|log| - 1], d)) && SettledDoc(At(log[|log| - 1], d), At(Now(log), d));
        :- Append(d, PutDense(codes));
        forall i | 0 <= i < |log| ensures At(log[i], d).meta == Some(m) && SettledDoc(At(log[i], d), At(Now(log), d)) {
          assert SettledDoc(At(was[Cap(i, |was|)], d), At(Now(was), d));
        }
      }
      return Fine;
    }

    // ── The vector worker ──

    /** The postings writers route to: by the current snapshot, or by the one they
        entered by. */
    ghost function Routed(): set<nat>
      reads `snap, `entered
    {
      Routable(snap) + Routable(entered)
    }

    /** Writers may route to any active posting of either snapshot: it is live, not
        a child still planned, and not the posting a copied drain deletes. */
    ghost predicate SnapOk()
      reads `snap, `entered, `plan, `postings, `centres
    {
      && Routable(snap) != {} && Routable(entered) != {}
      && Routed() <= R().live - R().planned
      && (R().copied.Some? ==> R().copied.value !in Routed())
    }

    ghost predicate Consistent(d: Doc)
      reads this
    {
      Asks(queue, docs, d)
    }

    /** `find_closest_cluster_id`: the active posting a chunk is filed under, a
        nearest one by its routing centroid. The postings are met in no
        particular order. */
    method Route(s: Snapshot, v: Vector) returns (p: nat)
      requires Routable(s) != {}
      ensures NearestRoute(space, s, v, p) && p in Routable(s)
    {
      var left := Routable(s);
      var best: Option<nat> := None;
      while left != {}
        invariant left <= Routable(s) && (best.None? ==> left == Routable(s))
        invariant best.Some? ==> best.value in Routable(s) - left
        invariant best.Some? ==> forall q :: q in Routable(s) - left ==>
                    space.dist(v, s.postings[best.value].routing) <= space.dist(v, s.postings[q].routing)
        decreases left
      {
        var q :| q in left;
        left := left - {q};
        if best.None? || space.dist(v, s.postings[q].routing) < space.dist(v, s.postings[best.value].routing) {
          best := Some(q);
        }
      }
      p := best.value;
    }

    /** A chunk's code is encoded against the centre of a nearest active posting,
        and filed there. */
    ghost predicate FiledNearest(s: Snapshot, v: Vector, c: VectorIndex) {
      exists p :: NearestRoute(space, s, v, p) && c == e.encode(v, s.postings[p].centreId).(clusterId := p)
    }

    /** Embed a text, and route and encode each chunk by a snapshot. */
    method EmbedText(s: Snapshot, t: Text) returns (vis: seq<VectorIndex>)
      requires e.Valid() && Routable(s) != {}
      ensures Encoded(e, t, e.chunks(t), vis)
      ensures |vis| == |e.chunks(t)| + 1 && vis[0] == e.dense(t)
      ensures forall i :: 0 <= i < |e.chunks(t)| ==> FiledNearest(s, e.chunks(t)[i], vis[i + 1])
      ensures forall c :: c in vis && c.style.Pass1() ==> c.clusterId in Routable(s)
    {
      hide Encoded, NearestRoute;
      var chunks := e.chunks(t);
      vis := [e.dense(t)];
      EncodedStart(e, t);
      for k := 0 to |chunks|
        invariant |vis| == k + 1 && vis[0] == e.dense(t)
        invariant forall i :: 0 <= i < k ==> FiledNearest(s, chunks[i], vis[i + 1])
        invariant Encoded(e, t, chunks[..k], vis)
        invariant forall c :: c in vis && c.style.Pass1() ==> c.clusterId in Routable(s)
      {
        var p := Route(s, chunks[k]);
        var code := e.encode(chunks[k], s.postings[p].centreId).(clusterId := p);
        EncodedSnoc(e, t, chunks[..k], chunks[k], vis, code);
        vis := vis + [code];
        assert chunks[..k + 1] == chunks[..k] + [chunks[k]];
      }
      assert chunks[..|chunks|] == chunks;
    }

    /** What holds whenever no write to a vector namespace is half done and the
        journal needs no recovery. */
    ghost predicate Live()
      reads this
    {
      Safe() && !needsRecovery && SnapOk() && Settled(log) && Agrees(counts, Now(log))
    }

    /** `process_clear`: delete the document's vectors, then remove the tombstone
        unless a newer entry has replaced it. */
    method ProcessClear(d: Doc) returns (r: Outcome, delta: Delta)
      requires Safe() && Settled(log) && d !in kept && Consistent(d)
      modifies `budget, `log, `queue, `lost
      ensures Safe() && !r.Corrupt? && Spent(old(budget), budget, r)
      ensures r.Fine? ==> |log| == |old(log)| && Others(old(log), log, d) && queue - {d} == old(queue) - {d}
      ensures r.Fine? ==> forall i :: 0 <= i < |log| ==> At(log[i], d) == NOTHING
      ensures r.Fine? ==> delta == Delta([], Postings(At(Now(old(log)), d)))
      ensures r.Fine? ==> Stored(queue, d) == Q.Complete(Stored(old(queue), d), Q.CLEAR).0
    {
      delta :- DeleteVector(d);
      assert forall i :: 0 <= i < |log| ==> At(log[i], d).keys == map[];
      var found :- CompleteEntry(d, Q.CLEAR);
      return Fine, delta;
    }

    /** `complete_embed`: the entry's vectors are written and durable. */
    method CompleteEmbed(d: Doc, entry: Q.Entry) returns (r: Outcome, delta: Delta)
      requires Safe() && Settled(log) && d !in kept && Consistent(d) && entry.kind.Embed?
      requires forall i :: 0 <= i < |log| ==>
                 && Exact(e, Some(entry.text), At(log[i], d))
                 && (R().copied.Some? ==> Covered(R().copied.value, At(log[i], d)))
      modifies `budget, `log, `queue, `lost
      ensures Safe() && !r.Corrupt? && Spent(old(budget), budget, r)
      ensures r.Fine? ==> Others(old(log), log, d) && queue - {d} == old(queue) - {d}
      ensures r.Fine? && d in old(queue) && old(queue)[d].kind.Clear? ==>
                && d !in queue && delta == Delta([], Postings(At(Now(old(log)), d)))
                && forall i :: 0 <= i < |log| ==> At(log[i], d) == NOTHING
      ensures r.Fine? && !(d in old(queue) && old(queue)[d].kind.Clear?) ==>
                && log == old(log) && delta == NO_CHANGE
                && Stored(queue, d) == if d in old(queue) && old(queue)[d].Is(entry) then None
                   else Stored(old(queue), d)
      ensures r.Fine? && Q.Describes(entry, C().Text(d)) ==>
              Stored(queue, d) == Q.Complete(Stored(old(queue), d), entry).0
    {
      delta := NO_CHANGE;
      var found :- CompleteEntry(d, entry);
      if found.Cleared? {
        delta :- ProcessClear(d);
      }
      return Fine, delta;
    }

    /** `finish_embed`: write the entry's vectors, make them durable, then
        complete the entry. */
    method FinishEmbed(d: Doc, entry: Q.Entry, vis: seq<VectorIndex>) returns (r: Outcome, delta: Delta)
      requires Safe() && Settled(log) && SnapOk() && d !in kept && Consistent(d) && entry.kind.Embed?
      requires Encoded(e, entry.text, e.chunks(entry.text), vis)
      requires forall c :: c in vis && c.style.Pass1() ==> c.clusterId in Routed()
      modifies `budget, `log, `queue, `lost
      ensures Safe() && !r.Corrupt? && Spent(old(budget), budget, r)
      ensures r.Fine? ==> Settled(log) && Elsewhere(old(log), log, d) && queue - {d} == old(queue) - {d}
      ensures r.Fine? ==> forall i :: 0 <= i < |log| ==> At(log[i], d).keys.Keys <= Routed()
      ensures r.Fine? ==> RecordDelta(At(Now(old(log)), d), At(Now(log), d), delta)
      ensures r.Fine? && Q.Describes(entry, C().Text(d)) ==>
              Stored(queue, d) == Q.Complete(Stored(old(queue), d), entry).0
    {
      hide PartsOk, PlanOk, AllGood, RulesOf, Elsewhere, RecordDelta, Represents, KeyOk;
      ghost var was := log;
      delta :- UpsertVectors(d, entry.text, vis);
      ghost var dv := At(Now(log), d);
      ghost var log1 := log;
      UpsertIsExact(e, At(Now(was), d), dv, entry.text, vis, delta);
      UpsertKeys(At(Now(was), d), dv, entry.text, vis, delta, Routed());
      :- SyncLog();
      ghost var log2 := log;
      var more :- CompleteEmbed(d, entry);
      ElsewhereFromSync(was, log1, log2, log, d);
      UpsertDelta(At(Now(was), d), dv, entry.text, vis, delta);
      MoreDelta(At(Now(was), d), dv, At(Now(log), d), delta, more);
      SettledAfterSync(log1, log2, log, d);
      delta := Extend(delta, more);
      return Fine, delta;
    }

    // ── Clients ──

    /** Stop claiming anything of a document a client is about to write. */
    ghost method Release(d: Doc)
      requires Safe()
      modifies `kept
      ensures Safe() && kept == old(kept) - {d}
    {
      ForgetKept(C(), R(), log, d);
      kept := kept - {d};
    }

    /** `clear_vectors`, and its delta: the tombstone first, then the vectors. */
    method ClearVectors(d: Doc) returns (r: Outcome)
      requires Live() && d !in kept
      modifies `docs, `queue, `lost, `log, `counts, `budget
      ensures Safe() && !r.Corrupt? && Spent(old(budget), budget, r)
      ensures r.Fine? ==> Live() && Interfered(Routed(), old(log), log) && Elsewhere(old(log), log, d)
      ensures r.Fine? ==> queue == old(queue)[d := Q.CLEAR]
      ensures docs == old(docs)
      ensures r.Fine? ==> forall i :: 0 <= i < |log| ==> At(log[i], d) == NOTHING
    {
      hide Others, ApplyDelta, PartsOk, PlanOk, AllGood, RulesOf, Index.Sound, Interfered, Elsewhere, Index.Routed,
           Index.SnapOk;
      ghost var was := log;
      :- PutQueue(d, Q.CLEAR);
      var delta :- DeleteVector(d);
      counts := ApplyDelta(counts, delta);
      Erased(was, log, d, old(counts), delta, Routed());
      return Fine;
    }

    /** `DocStore::put`: the queue entry first, then the document. */
    method Put(d: Doc, t: Text) returns (r: Outcome)
      requires Live() && d !in kept
      modifies `docs, `queue, `lost, `budget
      ensures Safe() && !r.Corrupt? && Spent(old(budget), budget, r)
      ensures r.Fine? ==> Live() && queue == old(queue)[d := Q.EmbedOf(t)]
      ensures docs == if r.Fine? then old(docs)[d := t] else old(docs)
    {
      hide PartsOk, PlanOk, AllGood, RulesOf, Settled, Agrees, Index.SnapOk, Index.Sound;
      r := PutQueue(d, Q.EmbedOf(t));
      if r.Fine? {
        r := PutText(d, Some(t));
      }
    }

    /** `DocStore::delete`: the tombstone and the vectors, then the document. */
    method Delete(d: Doc) returns (r: Outcome)
      requires Live() && d !in kept
      modifies `docs, `queue, `lost, `log, `counts, `budget
      ensures Safe() && !r.Corrupt? && Spent(old(budget), budget, r)
      ensures r.Fine? ==> Live() && Interfered(Routed(), old(log), log)
      ensures r.Fine? ==> queue == old(queue)[d := Q.CLEAR] && Elsewhere(old(log), log, d)
      ensures docs == if r.Fine? then old(docs) - {d} else old(docs)
      ensures r.Fine? ==> forall i :: 0 <= i < |log| ==> At(log[i], d) == NOTHING
    {
      hide PartsOk, PlanOk, AllGood, RulesOf, Settled, Agrees, Index.SnapOk, Index.Routed, Index.Sound, Interfered,
           Elsewhere;
      r := ClearVectors(d);
      if r.Fine? {
        r := PutText(d, None);
      }
    }

    /** `DocStore::put` of a document without embedding text: clear its vectors
        only if it has any vector state. */
    method PutWithoutText(d: Doc) returns (r: Outcome)
      requires Live() && d !in kept
      modifies `docs, `queue, `lost, `log, `counts, `budget
      ensures Safe() && !r.Corrupt? && Spent(old(budget), budget, r)
      ensures r.Fine? ==> Live() && Interfered(Routed(), old(log), log) && Elsewhere(old(log), log, d)
      ensures docs == if r.Fine? then old(docs) - {d} else old(docs)
      ensures var dv := At(Now(old(log)), d);
              if d in old(queue) || dv.meta.Some? || dv.dense.Some? then
                r.Fine? ==> && queue == old(queue)[d := Q.CLEAR]
                            && forall i :: 0 <= i < |log| ==> At(log[i], d) == NOTHING
              else queue == old(queue) && log == old(log)
    {
      hide PartsOk, PlanOk, RulesOf, Settled, Agrees, Index.SnapOk, Index.Routed, Index.Sound, Interfered, Elsewhere;
      var dv := At(Now(log), d);
      if d in queue || dv.meta.Some? || dv.dense.Some? {
        r := Delete(d);
      } else {
        // Nothing to clear: with no meta the document has no text to lose.
        assert Good(C(), R(), d, At(log[|log| - 1], d));
        assert d !in docs;
        assert docs - {d} == docs;
        Uninterfered(Routed(), log);
        OthersElsewhere(log, log, d);
        r := CrashPoint();
        if r.Fine? {
          docs := docs - {d};
        }
      }
    }

    /** One client request, start to end: what its document and its queue entry are
        then, and its vectors; no other document's change. The document is the last
        to be written: cut short, it is as it was. */
    method Serve(q: Request) returns (r: Outcome)
      requires Live() && q.IsClient()
      modifies `docs, `queue, `lost, `log, `counts, `budget, `kept
      ensures Safe() && !r.Corrupt? && Spent(old(budget), budget, r) && kept == old(kept) - {q.doc}
      ensures r.Fine? ==> Live() && Interfered(Routed(), old(log), log) && Elsewhere(old(log), log, q.doc)
      ensures !r.Fine? ==> docs == old(docs)
      ensures r.Fine? && q.PutDoc? ==>
                docs == old(docs)[q.doc := q.text] && queue == old(queue)[q.doc := Q.EmbedOf(q.text)] && log == old(log)
      ensures r.Fine? && q.DeleteDoc? ==>
                && docs == old(docs) - {q.doc} && queue == old(queue)[q.doc := Q.CLEAR]
                && forall i :: 0 <= i < |log| ==> At(log[i], q.doc) == NOTHING
      ensures var dv := At(Now(old(log)), q.doc);
              r.Fine? && q.PutBlank? && (q.doc in old(queue) || dv.meta.Some? || dv.dense.Some?) ==>
                && docs == old(docs) - {q.doc} && queue == old(queue)[q.doc := Q.CLEAR]
                && forall i :: 0 <= i < |log| ==> At(log[i], q.doc) == NOTHING
      ensures var dv := At(Now(old(log)), q.doc);
              r.Fine? && q.PutBlank? && !(q.doc in old(queue) || dv.meta.Some? || dv.dense.Some?) ==>
                docs == old(docs) - {q.doc} && queue == old(queue) && log == old(log)
      ensures r.Fine? && q.Reindex? ==>
                docs == old(docs) && queue == old(queue)[q.doc := Q.EmbedOf(q.text)] && log == old(log)
    {
      hide PartsOk, PlanOk, AllGood, Settled, Agrees, RulesOf, Index.Routed, Index.SnapOk;
      Release(q.doc);
      Uninterfered(Routed(), log);
      OthersElsewhere(log, log, q.doc);
      match q
      case PutDoc(d, t) => r := Put(d, t);
      case PutBlank(d) => r := PutWithoutText(d);
      case DeleteDoc(d) => r := Delete(d);
      case Reindex(d, t) => r := PutQueue(d, Q.EmbedOf(t));
    }

    /** Clients' requests while the worker has `busy` in hand, up to a pause. */
    method ServeSome(busy: Doc) returns (r: Outcome)
      requires Live()
      modifies `docs, `queue, `lost, `log, `counts, `budget, `kept, `requests
      ensures Safe() && !r.Corrupt? && Spent(old(budget), budget, r) && Spared(old(kept), kept, old(requests), requests)
              && Answered(old(docs), old(requests), docs, requests, Lost(r))
      ensures r.Fine? ==>
              Live() && Interfered(Routed(), old(log), log) && Served(old(queue), old(docs), queue, docs, busy)
      ensures r.Fine? && old(requests) == [] ==> unchanged(`docs, `queue, `log, `counts, `kept, `requests)
    {
      hide PartsOk, PlanOk, AllGood, Settled, Agrees, RulesOf, Spared, Answered, Interfered, Served, Index.Sound,
           Index.Routed, Index.SnapOk;
      Uninterfered(Routed(), log);
      SparedNothing(kept, requests);
      NoneAnswered(docs, requests);
      ServedAsIs(queue, docs, busy);
      while requests != [] && (requests[0].IsClient() || requests[0].Pause?)
        && !(requests[0].Reindex? && requests[0].doc == busy)
        invariant Spent(old(budget), budget, Fine)
        invariant Live() && Interfered(Routed(), old(log), log) && Served(old(queue), old(docs), queue, docs, busy)
        invariant Spared(old(kept), kept, old(requests), requests)
        invariant Answered(old(docs), old(requests), docs, requests, 0)
        invariant old(requests) == [] ==> unchanged(`docs, `queue, `log, `counts, `kept, `requests)
        decreases |requests|
      {
        ghost var requests1, log1, queue1, docs1, kept1 := requests, log, queue, docs, kept;
        if requests[0].Pause? {
          r := TakePause();
          SparedCompose(old(kept), kept, kept, old(requests), requests1, requests);
          AnsweredCompose(old(docs), old(requests), docs1, requests1, 0, docs, requests, 0);
          return;
        }
        r := TakeClient(busy);
        SparedCompose(old(kept), kept1, kept, old(requests), requests1, requests);
        AnsweredCompose(old(docs), old(requests), docs1, requests1, 0, docs, requests, Lost(r));
        if !r.Fine? {
          return;
        }
        InterferedCompose(Routed(), old(log), log1, log);
        ServedCompose(old(queue), old(docs), queue1, docs1, queue, docs, busy);
      }
      return Fine;
    }

    /** The next request is a client's: serve it. */
    method TakeClient(busy: Doc) returns (r: Outcome)
      requires Live() && requests != [] && requests[0].IsClient()
      modifies `docs, `queue, `lost, `log, `counts, `budget, `kept, `requests
      ensures Safe() && !r.Corrupt? && Spent(old(budget), budget, r) && Spared(old(kept), kept, old(requests), requests)
              && Answered(old(docs), old(requests), docs, requests, Lost(r))
      ensures requests == old(requests)[1..]
      ensures r.Fine? ==> Live() && Interfered(Routed(), old(log), log)
      ensures r.Fine? && !(old(requests)[0].Reindex? && old(requests)[0].doc == busy) ==>
                Served(old(queue), old(docs), queue, docs, busy)
    {
      hide PartsOk, PlanOk, AllGood, Settled, Agrees, RulesOf, Answered, Interfered, Served, Index.Sound, Index.Routed,
           Index.SnapOk, Spared, Elsewhere;
      var q := requests[0];
      ghost var kept1, requests1 := kept, requests;
      requests := requests[1..];
      SparedNothing(kept - {q.doc}, requests);
      SparedTaking(kept1, kept1 - {q.doc}, requests1, requests);
      r := Serve(q);
      OneAnswered(old(docs), requests1, docs, Lost(r));
      if r.Fine? && !(q.Reindex? && q.doc == busy) {
        ServedSo(old(queue), old(docs), queue, docs, q, busy);
      }
    }

    /** The next request is a pause: what is after it waits. */
    method TakePause() returns (r: Outcome)
      requires requests != [] && requests[0].Pause?
      modifies `requests
      ensures r.Fine? && requests == old(requests)[1..] && Spared(kept, kept, old(requests), requests)
      ensures Answered(docs, old(requests), docs, requests, 0)
    {
      SparedNothing(kept, requests);
      OneAnswered(docs, requests, docs, 0);
      requests := requests[1..];
      r := Fine;
    }

    // ── The worker's turn ──

    /** `check_entry_against_document`. */
    method CheckEntry(d: Doc, entry: Q.Entry) returns (r: Outcome, ok: bool)
      requires Safe() && d in queue && d !in kept
      modifies `budget, `queue, `lost
      ensures Safe() && !r.Corrupt? && Spent(old(budget), budget, r)
      ensures r.Fine? ==> (Stored(queue, d), ok) == Q.Check(Stored(old(queue), d), entry, TextIn(docs, d))
      ensures queue - {d} == old(queue) - {d}
    {
      ok := Q.Describes(entry, TextIn(docs, d));
      if ok {
        return Fine, ok;
      }
      if queue[d].Is(entry) {
        r := PutQueue(d, Q.Asking(TextIn(docs, d)));
      } else {
        r := CrashPoint();
      }
    }

    /** An embed entry that describes its document: embed its text, write the
        vectors, make them durable, complete the entry. */
    method WorkEmbed(d: Doc, entry: Q.Entry, late: bool) returns (r: Outcome)
      requires Live() && d !in kept && Consistent(d) && entry.kind.Embed?
      modifies `budget, `log, `queue, `lost, `counts
      ensures Safe() && !r.Corrupt? && Spent(old(budget), budget, r)
      ensures r.Fine? ==> Live() && Interfered(Routed(), old(log), log) && queue - {d} == old(queue) - {d}
      ensures r.Fine? && Q.Describes(entry, TextIn(docs, d)) ==>
              Stored(queue, d) == Q.Complete(Stored(old(queue), d), entry).0
    {
      hide PartsOk, PlanOk, AllGood, RulesOf, Settled, Agrees;
      ghost var was := log;
      var vis := EmbedText(if late then entered else snap, entry.text);
      var delta :- FinishEmbed(d, entry, vis);
      RewrittenIsInterfered(Routed(), was, log, d);
      RecordAccounts(Now(was), Now(log), d, delta);
      ApplyKeepsAgreement(counts, Now(was), Now(log), delta);
      counts := ApplyDelta(counts, delta);
      return Fine;
    }

    /** A tombstone whose document is absent: delete its vectors, then the entry. */
    method WorkClear(d: Doc) returns (r: Outcome)
      requires Live() && d !in kept && Consistent(d)
      modifies `budget, `log, `queue, `lost, `counts
      ensures Safe() && !r.Corrupt? && Spent(old(budget), budget, r)
      ensures r.Fine? ==> Live() && Interfered(Routed(), old(log), log) && queue - {d} == old(queue) - {d}
      ensures r.Fine? ==> Stored(queue, d) == Q.Complete(Stored(old(queue), d), Q.CLEAR).0
    {
      hide PartsOk, PlanOk, AllGood, RulesOf, Index.Routed, Index.SnapOk;
      ghost var was := log;
      var delta :- ProcessClear(d);
      Erased(was, log, d, counts, delta, Routed());
      counts := ApplyDelta(counts, delta);
      return Fine;
    }

    /** Carry out an entry that described its document when it was checked. */
    method Carry(d: Doc, entry: Q.Entry, late: bool) returns (r: Outcome)
      requires Live() && d !in kept && Consistent(d)
      modifies `docs, `queue, `lost, `log, `counts, `budget, `kept, `requests
      ensures Safe() && !r.Corrupt? && Spent(old(budget), budget, r) && Spared(old(kept), kept, old(requests), requests)
              && Answered(old(docs), old(requests), docs, requests, Lost(r))
      ensures r.Fine? ==> Live() && Interfered(Routed(), old(log), log)
      ensures r.Fine? && old(requests) == [] ==> docs == old(docs) && queue - {d} == old(queue) - {d}
      ensures r.Fine? && old(requests) == [] && Q.Describes(entry, TextIn(docs, d)) ==>
                Stored(old(queue), d) == Some(entry) ==> d !in queue
    {
      hide PartsOk, PlanOk, AllGood, RulesOf, Settled, Agrees, Answered, Interfered, Index.Sound, Index.Routed,
           Index.SnapOk;
      ghost var was := log;
      :- ServeSome(d);
      ghost var log1 := log;
      if entry.kind.Embed? {
        r := WorkEmbed(d, entry, late);
      } else {
        r := WorkClear(d);
      }
      AnsweredMore(old(docs), old(requests), docs, requests, 0, Lost(r));
      if r.Fine? {
        InterferedCompose(Routed(), was, log1, log);
      }
    }

    /** The check, then the turn. */
    method CheckAndCarry(d: Doc, entry: Q.Entry, late: bool) returns (r: Outcome)
      requires Live() && d !in kept && d in queue && (queue[d] == entry || Consistent(d))
      modifies `docs, `queue, `lost, `log, `counts, `budget, `kept, `requests
      ensures Safe() && !r.Corrupt? && Spent(old(budget), budget, r) && Spared(old(kept), kept, old(requests), requests)
              && Answered(old(docs), old(requests), docs, requests, Lost(r))
      ensures r.Fine? ==> Live() && Interfered(Routed(), old(log), log)
      ensures r.Fine? && old(requests) == [] ==> docs == old(docs) && queue - {d} == old(queue) - {d}
      ensures r.Fine? && old(requests) == [] && old(queue)[d] == entry ==>
              Stored(queue, d) == Q.Turn(Some(entry), TextIn(docs, d))
    {
      hide PartsOk, PlanOk, AllGood, RulesOf, Settled, Agrees, Spared, Answered, Interfered, Index.Sound, Index.Routed,
           Index.SnapOk;
      Uninterfered(Routed(), log);
      SparedNothing(kept, requests);
      NoneAnswered(docs, requests);
      var ok :- CheckEntry(d, entry);
      if ok {
        :- Carry(d, entry, late);
      }
      return Fine;
    }

    /** One turn of the vector worker on one queued document. Clients may run
        after the entry is read from the queue and after it is checked. */
    method Work(d: Doc, late: bool) returns (r: Outcome)
      requires Live()
      modifies `docs, `queue, `lost, `log, `counts, `budget, `kept, `requests
      ensures Safe() && !r.Corrupt? && Spent(old(budget), budget, r)
              && Spared(old(kept) - {d}, kept, old(requests), requests)
              && Answered(old(docs), old(requests), docs, requests, Lost(r))
      ensures r.Fine? ==> Live() && Interfered(Routed(), old(log), log)
      ensures r.Fine? && old(requests) == [] ==> docs == old(docs) && queue - {d} == old(queue) - {d}
      ensures r.Fine? && old(requests) == [] ==> Stored(queue, d) == Q.Turn(Stored(old(queue), d), TextIn(docs, d))
    {
      hide PartsOk, PlanOk, AllGood, RulesOf, Settled, Agrees, Answered, Interfered, Index.Sound, Index.Routed,
           Index.SnapOk;
      ghost var kept0, requests0, log0, docs0 := kept - {d}, requests, log, docs;
      Uninterfered(Routed(), log);
      SparedNothing(kept0, requests);
      NoneAnswered(docs, requests);
      Release(d);
      r := Fine;
      if d in queue {
        var entry := queue[d];
        :- ServeSome(d);
        ghost var kept1, requests1, log1, docs1 := kept, requests, log, docs;
        r := CheckAndCarry(d, entry, late);
        AnsweredCompose(docs0, requests0, docs1, requests1, 0, docs, requests, Lost(r));
        SparedCompose(kept0, kept1, kept, requests0, requests1, requests);
        if r.Fine? {
          InterferedCompose(Routed(), log0, log1, log);
        }
      }
    }

    /** What holds between the steps of maintenance: the journal may be in use,
        but no write is half done and the sizes are right. */
    ghost predicate Quiet()
      reads this
    {
      Safe() && Agrees(counts, Now(log)) && if needsRecovery then |log| == 1 else SnapOk() && Settled(log)
    }

    /** The next request, of a client or for the worker. */
    method TakeRequest() returns (r: Outcome)
      requires Live() && requests != [] && !requests[0].Pause?
      modifies `docs, `queue, `lost, `log, `counts, `budget, `kept, `requests
      ensures Safe() && !r.Corrupt? && Spent(old(budget), budget, r) && Spared(old(kept), kept, old(requests), requests)
              && Answered(old(docs), old(requests), docs, requests, Lost(r)) && |requests| < |old(requests)|
      ensures r.Fine? ==> Live() && Interfered(Routed(), old(log), log)
    {
      hide PartsOk, PlanOk, AllGood, Settled, Agrees, RulesOf, Spared, Interfered, Index.Sound, Index.Routed,
           Index.SnapOk, Served;
      var q := requests[0];
      if q.Work? {
        ghost var requests0 := requests;
        requests := requests[1..];
        ghost var requests1 := requests;
        r := Work(q.doc, q.late);
        SparedTaking(old(kept), kept, old(requests), requests);
        OneAnswered(old(docs), requests0, old(docs), 0);
        AnsweredCompose(old(docs), requests0, old(docs), requests1, 0, docs, requests, Lost(r));
      } else {
        r := TakeClient(q.doc);
      }
    }

    /** Whether no one else writes: nothing is requested, or recovery keeps all out. */
    ghost predicate Alone()
      reads `requests, `needsRecovery
    {
      requests == [] || needsRecovery
    }

    /** Where maintenance lets others run: clients and the worker, up to a pause.
        No one does while recovery is needed. */
    method Yield() returns (r: Outcome)
      requires Quiet()
      modifies `docs, `queue, `lost, `log, `counts, `budget, `kept, `requests
      ensures Safe() && !r.Corrupt? && Spent(old(budget), budget, r) && Spared(old(kept), kept, old(requests), requests)
              && Answered(old(docs), old(requests), docs, requests, Lost(r))
      ensures r.Fine? ==> Quiet() && Interfered(Routed(), old(log), log)
      ensures old(requests) == [] || needsRecovery ==>
              r.Fine? && unchanged(`docs, `queue, `lost, `log, `counts, `budget, `kept, `requests)
    {
      hide PartsOk, PlanOk, AllGood, Settled, Agrees, RulesOf, Spared, Answered, Interfered, Index.Sound, Index.Routed,
           Index.SnapOk;
      Uninterfered(Routed(), log);
      SparedNothing(kept, requests);
      NoneAnswered(docs, requests);
      if needsRecovery {
        return Fine;
      }
      while requests != []
        invariant Spent(old(budget), budget, Fine)
        invariant Live() && Interfered(Routed(), old(log), log) && Spared(old(kept), kept, old(requests), requests)
        invariant Answered(old(docs), old(requests), docs, requests, 0)
        invariant old(requests) == [] ==> unchanged(`docs, `queue, `lost, `log, `counts, `budget, `kept, `requests)
        decreases |requests|
      {
        ghost var requests1, log1, kept1, docs1 := requests, log, kept, docs;
        if requests[0].Pause? {
          r := TakePause();
          SparedCompose(old(kept), kept, kept, old(requests), requests1, requests);
          AnsweredCompose(old(docs), old(requests), docs1, requests1, 0, docs, requests, 0);
          return;
        }
        r := TakeRequest();
        SparedCompose(old(kept), kept1, kept, old(requests), requests1, requests);
        AnsweredCompose(old(docs), old(requests), docs1, requests1, 0, docs, requests, Lost(r));
        if !r.Fine? {
          return;
        }
        InterferedCompose(Routed(), old(log), log1, log);
      }
      return Fine;
    }
  }
}
