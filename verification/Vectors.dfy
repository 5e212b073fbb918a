/** What the vector namespaces hold, one document at a time, and which states a
    crash can leave.

    `{ns}_sparse_vector` is keyed by `posting ‖ doc` and `{ns}_sparse_vector_meta`
    and `{ns}_dense_vector` by `doc`. Every rule that protects them speaks of one
    document, so they are modelled as a map from documents to what the three
    namespaces hold for it. */
module Vectors {
  import opened Codes
  import G = Geometry

  type Doc = nat
  type Text = seq<nat>
  type Vector = seq<real>

  /** A document's index record: the hash of the text its vectors came from, and
      each posting holding its chunks with how many. */
  datatype Meta = Meta(hash: nat, postings: seq<(nat, nat)>)

  datatype DocVec = DocVec(meta: Option<Meta>, keys: map<nat, seq<VectorIndex>>, dense: Option<seq<VectorIndex>>)

  type Vec = map<Doc, DocVec>

  function Elements(s: seq<Doc>): set<Doc> {
    set d | d in s
  }

  const NOTHING := DocVec(None, map[], None)

  function At(v: Vec, d: Doc): DocVec {
    if d in v then v[d] else NOTHING
  }

  // ── Single-key writes and what survives them ──

  datatype Write =
    | PutMeta(meta: Meta) | DeleteMeta
    | PutKey(posting: nat, codes: seq<VectorIndex>) | DeleteKey(posting: nat)
    | PutDense(dense: seq<VectorIndex>) | DeleteDense

  function Apply(dv: DocVec, w: Write): DocVec {
    match w
    case PutMeta(m) => dv.(meta := Some(m))
    case DeleteMeta => dv.(meta := None)
    case PutKey(p, codes) => dv.(keys := dv.keys[p := codes])
    case DeleteKey(p) => dv.(keys := dv.keys - {p})
    case PutDense(l) => dv.(dense := Some(l))
    case DeleteDense => dv.(dense := None)
  }

  function Update(v: Vec, d: Doc, w: Write): Vec {
    v[d := Apply(At(v, d), w)]
  }

  /** The log: every state a crash now may leave, the shortest surviving log
      prefix first. The last one is the present state. */
  type Log = l: seq<Vec> | |l| > 0 witness [map[]]

  function Now(log: Log): Vec { log[|log| - 1] }

  /** A write to the vector index WAL (`put_logged`): a crash keeps it only with
      everything logged before it. */
  function Logged(log: Log, d: Doc, w: Write): (r: Log) {
    log + [Update(Now(log), d, w)]
  }

  /** A write through the main WAL (`put`, `delete`): durable on return, and the
      highest sequence for its key whatever prefix of the log survives. */
  function Durable(log: Log, d: Doc, w: Write): (r: Log)
    ensures |r| == |log| && forall i :: 0 <= i < |log| ==> r[i] == Update(log[i], d, w)
  {
    seq(|log|, i requires 0 <= i < |log| => Update(log[i], d, w))
  }

  /** One fsync of the vector index WAL. */
  function Synced(log: Log): (r: Log) { [Now(log)] }

  // ── What a document must hold ──

  /** The embedding service and the encoder, uninterpreted: a text's chunk
      vectors, its whole-document code, and a chunk vector's code against a centre. */
  datatype Embedder = Embedder(chunks: Text -> seq<Vector>, dense: Text -> VectorIndex,
    encode: (Vector, nat) -> VectorIndex) {
    ghost predicate Valid() {
      && (forall t :: dense(t).style.MultiBit?)
      && (forall v, c :: encode(v, c).style.Pass1() && encode(v, c).centreId == c && Bare(encode(v, c)) == encode(v, c))
    }
  }

  /** Stable 64-bit FNV-1a hash of a text's bytes. */
  function TextHash(t: Text): nat {
    Fnv(t, 0xcbf2_9ce4_8422_2325)
  }

  const FNV_MODULUS := 0x1_0000_0000_0000_0000

  function Fnv(t: Text, h: nat): nat {
    if t == [] then h
    else Fnv(t[1..], (Xor(h % FNV_MODULUS, t[0] % 256, 8) * 0x0100_0000_01b3) % FNV_MODULUS)
  }

  /** `a ^ b` for a `b` of at most `bits` bits. */
  function Xor(a: nat, b: nat, bits: nat): nat {
    if bits == 0 then a
    else 2 * Xor(a / 2, b / 2, bits - 1) + (if a % 2 == b % 2 then 0 else 1)
  }

  /** The postings a meta lists. */
  function Ids(ps: seq<(nat, nat)>): set<nat> {
    set e | e in ps :: e.0
  }

  function Lists(meta: Option<Meta>): set<nat> {
    if meta.Some? then Ids(meta.value.postings) else {}
  }

  /** Every chunk stored for a document, in whichever posting. */
  ghost function HeldSet(dv: DocVec): set<VectorIndex> {
    set p, b | p in dv.keys && b in Held(dv.keys[p]) :: b
  }

  /** Among `held` is the vector's code against some centre. */
  ghost predicate Coded(e: Embedder, v: Vector, held: set<VectorIndex>) {
    exists c :: c in held && e.encode(v, c.centreId) == c
  }

  /** A code is that of one of the vectors. */
  ghost predicate CodeOf(e: Embedder, vectors: seq<Vector>, c: VectorIndex) {
    exists v :: v in vectors && e.encode(v, c.centreId) == c
  }

  /** The stored chunks are those of the text: each chunk vector has its code
      against some centre, and each code is one of theirs. */
  ghost predicate Represents(e: Embedder, vectors: seq<Vector>, held: set<VectorIndex>) {
    && (forall v {:trigger Coded(e, v, held)} :: v in vectors ==> Coded(e, v, held))
    && (forall c {:trigger CodeOf(e, vectors, c)} :: c in held ==> CodeOf(e, vectors, c))
  }

  /** A document has exactly the vectors of `text` (`None`: absent, or without
      embedding text). */
  ghost predicate Exact(e: Embedder, text: Option<Text>, dv: DocVec) {
    match text
    case None => dv == NOTHING
    case Some(t) =>
      && dv.meta.Some? && dv.meta.value.hash == TextHash(t)
      && dv.dense == Some([e.dense(t)])
      && Represents(e, e.chunks(t), HeldSet(dv))
  }

  /** What the maintenance journal and the stored postings say about keys:
      postings that exist, those not retired, the children of a planned split,
      the posting whose drain is in state `Copied`, the postings whose keys an
      operation in state `Copied` may be about to delete, and what a reassignment
      in that state moves. */
  datatype Rules = Rules(known: set<nat>, live: set<nat>, planned: set<nat>, copied: Option<nat>, loose: set<nat>,
    moves: Option<Moves>)

  /** A reassignment: its rule, and the postings it moves chunks from, in order. */
  datatype Moves = Moves(space: G.Space, centres: map<nat, G.Point>, rule: G.MoveRule, sources: seq<(nat, G.Point)>) {
    /** Where a chunk under the `k`th source moves. */
    function To(k: nat, chunk: VectorIndex): Option<nat>
      requires k < |sources|
    {
      G.Decide(space, centres, rule, sources[k], chunk)
    }
  }

  function HeldAt(dv: DocVec, p: nat): seq<VectorIndex> {
    if p in dv.keys then dv.keys[p] else []
  }

  /** How many copies of a chunk the `k`th source has to give up. */
  ghost function Wanted(m: Moves, dv: DocVec, k: nat, b: VectorIndex): nat
    requires k < |m.sources|
  {
    if m.To(k, b).Some? then Count(HeldAt(dv, m.sources[k].0), b) else 0
  }

  /** How many the first `n` have together. */
  ghost function Total(m: Moves, dv: DocVec, n: nat, b: VectorIndex): nat
    requires n <= |m.sources|
  {
    if n == 0 then 0 else Total(m, dv, n - 1, b) + Wanted(m, dv, n - 1, b)
  }

  /** How many copies are where the chunk moves to. */
  ghost function AtHome(m: Moves, dv: DocVec, b: VectorIndex): nat {
    var home := G.Home(m.space, m.centres, m.rule, b);
    if home.Some? then Count(HeldAt(dv, home.value.0), b) else 0
  }

  /** Every chunk under the `k`th source moves, and there is a copy where it moves
      to for each that this source and those before it give up: so shrinking the
      sources in order empties this one. */
  ghost predicate Leaving(m: Moves, dv: DocVec, k: nat)
    requires k < |m.sources|
  {
    forall c :: c in HeldAt(dv, m.sources[k].0) ==>
      m.To(k, Bare(c)).Some? && Total(m, dv, k + 1, Bare(c)) <= AtHome(m, dv, Bare(c))
  }

  /** A source's key is unlisted only when shrinking would empty it. */
  ghost predicate LeavingOk(moves: Option<Moves>, dv: DocVec) {
    moves.Some? ==> forall k :: 0 <= k < |moves.value.sources| ==>
      (moves.value.sources[k].0 in dv.keys && moves.value.sources[k].0 !in Lists(dv.meta) ==>
        Leaving(moves.value, dv, k))
  }

  ghost predicate Listed(dv: DocVec) {
    dv.keys.Keys <= Lists(dv.meta)
  }

  ghost predicate KeyOk(r: Rules, meta: Option<Meta>, p: nat, codes: seq<VectorIndex>) {
    && p in r.live && p !in r.planned && meta.Some? && codes != []
    && (p in Lists(meta) || p in r.loose)
    && forall c :: c in codes ==> c.clusterId == p
  }

  /** The meta lists every key, except under a posting an operation in state
      `Copied` is deleting from; every key lies under a live posting, its codes filed there; and
      nothing names a posting that does not exist or was never published. */
  ghost predicate Keyed(r: Rules, dv: DocVec) {
    && (forall p :: p in dv.keys ==> KeyOk(r, dv.meta, p, dv.keys[p]))
    && Lists(dv.meta) <= r.known - r.planned
    && LeavingOk(r.moves, dv)
  }

  /** Every chunk under `p` is stored under some other posting too. */
  ghost predicate Covered(p: nat, dv: DocVec) {
    p in dv.keys ==> forall b :: b in Held(dv.keys[p]) ==> exists q :: q in dv.keys && q != p && b in Held(dv.keys[q])
  }

  /** What a document holds, wherever maintenance files it: the hash of its text,
      its chunks, and its whole-document code. */
  ghost function ContentOf(dv: DocVec): Content {
    Content(if dv.meta.Some? then Some(dv.meta.value.hash) else None, HeldSet(dv), dv.dense)
  }

  datatype Content = Content(hash: Option<nat>, chunks: set<VectorIndex>, dense: Option<seq<VectorIndex>>)

  /** What the vectors are measured against: the documents and the queue, and
      for documents no client is writing, the content they must keep. */
  datatype Claims = Claims(e: Embedder, queued: set<Doc>, docs: map<Doc, Text>, kept: map<Doc, Content>) {
    ghost function Text(d: Doc): Option<Text> {
      if d in docs then Some(docs[d]) else None
    }

    /** Whether losing a chunk of `d` would matter. */
    ghost predicate Watched(d: Doc) {
      d !in queued || d in kept
    }
  }

  /** What holds of a document in every state a crash may leave: its keys are in
      order; unless it is queued it has exactly its text's vectors; the content
      it must keep is kept; and a drain in state `Copied` could finish deleting
      without losing a chunk. */
  ghost predicate Good(c: Claims, r: Rules, d: Doc, dv: DocVec) {
    && Keyed(r, dv)
    && (d !in c.queued ==> Exact(c.e, c.Text(d), dv))
    && (d in c.kept ==> ContentOf(dv) == c.kept[d])
    && (c.Watched(d) && r.copied.Some? ==> Covered(r.copied.value, dv))
  }

  ghost predicate AllGood(c: Claims, r: Rules, log: Log) {
    forall i, d :: 0 <= i < |log| ==> Good(c, r, d, At(log[i], d))
  }

  /** What foreground writers rely on: a document's meta is the same whatever
      survives, it lists every key there is, and the present state lacks no key
      that a survivor has. */
  ghost predicate Settled(log: Log) {
    forall i, d :: 0 <= i < |log| ==> SettledDoc(At(log[i], d), At(Now(log), d))
  }

  ghost predicate SettledDoc(dv: DocVec, now: DocVec) {
    dv.meta == now.meta && dv.keys.Keys <= now.keys.Keys <= Lists(now.meta)
  }

  // ── Writes keep every document good ──

  lemma DurableKeeps(c: Claims, r: Rules, log: Log, d: Doc, w: Write)
    requires AllGood(c, r, log)
    requires forall i :: 0 <= i < |log| ==> Good(c, r, d, Apply(At(log[i], d), w))
    ensures AllGood(c, r, Durable(log, d, w))
  {
    var log' := Durable(log, d, w);
    forall i, x | 0 <= i < |log'| ensures Good(c, r, x, At(log'[i], x)) {
      assert Good(c, r, x, At(log[i], x));
      assert x != d ==> At(log'[i], x) == At(log[i], x);
    }
  }

  lemma LoggedKeeps(c: Claims, r: Rules, log: Log, d: Doc, w: Write)
    requires AllGood(c, r, log)
    requires Good(c, r, d, Apply(At(Now(log), d), w))
    ensures AllGood(c, r, Logged(log, d, w))
  {
    var log' := Logged(log, d, w);
    forall i, x | 0 <= i < |log'| ensures Good(c, r, x, At(log'[i], x)) {
      var j := if i < |log| then i else |log| - 1;
      assert Good(c, r, x, At(log[j], x));
      assert x != d ==> At(log'[i], x) == At(log[j], x);
    }
  }

  lemma CrashKeeps(c: Claims, r: Rules, log: Log, i: nat)
    requires AllGood(c, r, log) && i < |log|
    ensures AllGood(c, r, [log[i]])
  {
    forall d ensures Good(c, r, d, At([log[i]][0], d)) {
      assert Good(c, r, d, At(log[i], d));
    }
  }

  /** Documents and queue entries of one document may change while it is queued
      and nothing else is claimed of it. */
  lemma ClaimsChange(c: Claims, c': Claims, r: Rules, log: Log, d: Doc)
    requires AllGood(c, r, log)
    requires c'.e == c.e && d in c'.queued && d !in c'.kept
    requires forall x :: x != d ==> (x in c'.queued <==> x in c.queued) && c'.Text(x) == c.Text(x)
    requires forall x :: x != d ==> (x in c'.kept <==> x in c.kept) && (x in c.kept ==> c'.kept[x] == c.kept[x])
    ensures AllGood(c', r, log)
  {
    forall i, x | 0 <= i < |log| ensures Good(c', r, x, At(log[i], x)) {
      assert Good(c, r, x, At(log[i], x));
    }
  }

  /** Content a document no longer has to keep. */
  lemma ForgetKept(c: Claims, r: Rules, log: Log, d: Doc)
    requires AllGood(c, r, log)
    ensures AllGood(c.(kept := c.kept - {d}), r, log)
  {
    forall i, x | 0 <= i < |log| ensures Good(c.(kept := c.kept - {d}), r, x, At(log[i], x)) {
      assert Good(c, r, x, At(log[i], x));
    }
  }

  /** An entry may leave the queue once its document has exactly its text's
      vectors in every state a crash may leave. */
  lemma Unqueue(c: Claims, c': Claims, r: Rules, log: Log, d: Doc)
    requires AllGood(c, r, log)
    requires c' == c.(queued := c.queued - {d})
    requires forall i :: 0 <= i < |log| ==> Exact(c.e, c.Text(d), At(log[i], d))
    requires r.copied.Some? ==> forall i :: 0 <= i < |log| ==> Covered(r.copied.value, At(log[i], d))
    ensures AllGood(c', r, log)
  {
    forall i, x | 0 <= i < |log| ensures Good(c', r, x, At(log[i], x)) {
      assert Good(c, r, x, At(log[i], x));
    }
  }

  /** What may be written stays so: more postings to list, no fewer to file
      under, no fewer unlisted keys to tolerate. */
  ghost predicate Laxer(r: Rules, r': Rules) {
    && r.known - r.planned <= r'.known - r'.planned
    && r.live - r.planned <= r'.live - r'.planned
    && r.loose <= r'.loose
    && (r'.moves == r.moves || r'.moves.None?)
  }

  ghost predicate NoKeys(log: Log, p: nat) {
    forall i, d :: 0 <= i < |log| ==> p !in At(log[i], d).keys
  }

  ghost predicate AllCovered(log: Log, p: nat) {
    forall i, d :: 0 <= i < |log| ==> Covered(p, At(log[i], d))
  }

  /** Laxer rules keep every document good; a drain may become `Copied` only
      once every chunk under its posting is elsewhere too. */
  lemma LaxerRulesKeep(c: Claims, r: Rules, r': Rules, log: Log)
    requires AllGood(c, r, log) && Laxer(r, r')
    requires r'.copied.Some? && r'.copied != r.copied ==> AllCovered(log, r'.copied.value)
    ensures AllGood(c, r', log)
  {
    forall i, d | 0 <= i < |log| ensures Good(c, r', d, At(log[i], d)) {
      var dv := At(log[i], d);
      assert Good(c, r, d, dv);
      forall p | p in dv.keys ensures KeyOk(r', dv.meta, p, dv.keys[p]) {
        assert KeyOk(r, dv.meta, p, dv.keys[p]) && p in r.live - r.planned;
      }
    }
  }

  /** A posting no key is under may be retired, and need not be tolerated. */
  lemma EmptiedPostingRetires(c: Claims, r: Rules, r': Rules, log: Log, p: nat)
    requires AllGood(c, r, log) && NoKeys(log, p)
    requires r'.known == r.known && r'.planned == r.planned && r'.copied in {r.copied, None}
    requires r.live - {p} <= r'.live && r.loose - {p} <= r'.loose && r'.moves.None?
    ensures AllGood(c, r', log)
  {
    forall i, d | 0 <= i < |log| ensures Good(c, r', d, At(log[i], d)) {
      var dv := At(log[i], d);
      assert Good(c, r, d, dv);
      forall q | q in dv.keys ensures KeyOk(r', dv.meta, q, dv.keys[q]) {
        assert KeyOk(r, dv.meta, q, dv.keys[q]) && q in r.live - {p} && (q in r.loose ==> q in r.loose - {p});
      }
    }
  }

  // ── One document's maintenance writes ──

  lemma HeldAfterPut(dv: DocVec, p: nat, codes: seq<VectorIndex>)
    requires p in dv.keys ==> Held(dv.keys[p]) <= Held(codes)
    requires Held(codes) <= HeldSet(dv)
    ensures HeldSet(Apply(dv, PutKey(p, codes))) == HeldSet(dv)
  {
    var dv' := Apply(dv, PutKey(p, codes));
    forall b | b in HeldSet(dv) ensures b in HeldSet(dv') {
      var q :| q in dv.keys && b in Held(dv.keys[q]);
      assert q in dv'.keys && b in Held(dv'.keys[q]);
    }
    forall b | b in HeldSet(dv') ensures b in HeldSet(dv) {
      var q :| q in dv'.keys && b in Held(dv'.keys[q]);
      assert q != p ==> q in dv.keys && b in Held(dv.keys[q]);
    }
  }

  lemma HeldAfterDrop(dv: DocVec, p: nat)
    requires Covered(p, dv)
    ensures HeldSet(Apply(dv, DeleteKey(p))) == HeldSet(dv)
  {
    var dv' := Apply(dv, DeleteKey(p));
    forall b | b in HeldSet(dv) ensures b in HeldSet(dv') {
      var q :| q in dv.keys && b in Held(dv.keys[q]);
      if q == p {
        var o :| o in dv.keys && o != p && b in Held(dv.keys[o]);
        assert o in dv'.keys && b in Held(dv'.keys[o]);
      } else {
        assert q in dv'.keys;
      }
    }
    forall b | b in HeldSet(dv') ensures b in HeldSet(dv) {
      var q :| q in dv'.keys && b in Held(dv'.keys[q]);
      assert q in dv.keys && b in Held(dv.keys[q]);
    }
  }

  lemma KeyedAfterPut(r: Rules, dv: DocVec, p: nat, codes: seq<VectorIndex>)
    requires Keyed(r, dv) && KeyOk(r, dv.meta, p, codes)
    requires r.moves.None? || (Listed(dv) && p in Lists(dv.meta))
    ensures Keyed(r, Apply(dv, PutKey(p, codes)))
  {
    var dv' := Apply(dv, PutKey(p, codes));
    forall q | q in dv'.keys ensures KeyOk(r, dv'.meta, q, dv'.keys[q]) {
      assert q != p ==> KeyOk(r, dv.meta, q, dv.keys[q]);
    }
  }

  lemma KeyedAfterDrop(r: Rules, dv: DocVec, p: nat)
    requires Keyed(r, dv) && (r.moves.None? || Listed(dv))
    ensures Keyed(r, Apply(dv, DeleteKey(p)))
  {
    var dv' := Apply(dv, DeleteKey(p));
    forall q | q in dv'.keys ensures KeyOk(r, dv'.meta, q, dv'.keys[q]) {
      assert KeyOk(r, dv.meta, q, dv.keys[q]);
    }
  }

  lemma KeyedAfterMeta(r: Rules, dv: DocVec, m: Meta)
    requires Keyed(r, dv)
    requires dv.keys.Keys <= Ids(m.postings) <= r.known - r.planned
    ensures Keyed(r, Apply(dv, PutMeta(m)))
  {
    var dv' := Apply(dv, PutMeta(m));
    forall q | q in dv'.keys ensures KeyOk(r, dv'.meta, q, dv'.keys[q]) {
      assert KeyOk(r, dv.meta, q, dv.keys[q]);
    }
  }

  lemma CoveredAfterPut(s: nat, dv: DocVec, p: nat, codes: seq<VectorIndex>)
    requires Covered(s, dv) && p != s
    requires p in dv.keys ==> Held(dv.keys[p]) <= Held(codes)
    ensures Covered(s, Apply(dv, PutKey(p, codes)))
  {
    var dv' := Apply(dv, PutKey(p, codes));
    if s in dv'.keys {
      forall b | b in Held(dv'.keys[s]) ensures exists q :: q in dv'.keys && q != s && b in Held(dv'.keys[q]) {
        var q :| q in dv.keys && q != s && b in Held(dv.keys[q]);
        assert q in dv'.keys && b in Held(dv'.keys[q]);
      }
    }
  }

  /** Copy, first write: the meta lists the destinations before their keys exist. */
  lemma ListingKeeps(c: Claims, r: Rules, d: Doc, dv: DocVec, m: Meta)
    requires Good(c, r, d, dv) && dv.meta.Some? && r.moves.None?
    requires m.hash == dv.meta.value.hash
    requires Lists(dv.meta) <= Ids(m.postings) <= r.known - r.planned
    ensures Good(c, r, d, Apply(dv, PutMeta(m)))
  {
    var dv' := Apply(dv, PutMeta(m));
    assert dv'.keys == dv.keys && HeldSet(dv') == HeldSet(dv);
    forall p | p in dv'.keys ensures KeyOk(r, dv'.meta, p, dv'.keys[p]) {
      assert KeyOk(r, dv.meta, p, dv.keys[p]);
    }
  }

  /** Copy, second write: a destination gains codes the document already holds. */
  lemma CopyKeeps(c: Claims, r: Rules, d: Doc, dv: DocVec, p: nat, codes: seq<VectorIndex>)
    requires Good(c, r, d, dv)
    requires KeyOk(r, dv.meta, p, codes) && dv.meta.Some?
    requires p in dv.keys ==> Held(dv.keys[p]) <= Held(codes)
    requires Held(codes) <= HeldSet(dv)
    requires r.copied != Some(p) && r.moves.None?
    ensures Good(c, r, d, Apply(dv, PutKey(p, codes)))
  {
    KeyedAfterPut(r, dv, p, codes);
    HeldAfterPut(dv, p, codes);
    if c.Watched(d) && r.copied.Some? {
      CoveredAfterPut(r.copied.value, dv, p, codes);
    }
  }

  /** Delete, first write: the drained posting leaves the meta just before its
      key goes. Only a drain in state `Copied` may do this. */
  lemma UnlistingKeeps(c: Claims, r: Rules, d: Doc, dv: DocVec, m: Meta, drained: nat)
    requires Good(c, r, d, dv) && dv.meta.Some? && r.moves.None?
    requires drained in r.loose
    requires m.hash == dv.meta.value.hash
    requires Lists(dv.meta) - {drained} <= Ids(m.postings) <= Lists(dv.meta)
    ensures Good(c, r, d, Apply(dv, PutMeta(m)))
  {
    var dv' := Apply(dv, PutMeta(m));
    assert dv'.keys == dv.keys && HeldSet(dv') == HeldSet(dv);
    forall p | p in dv'.keys ensures KeyOk(r, dv'.meta, p, dv'.keys[p]) {
      assert KeyOk(r, dv.meta, p, dv.keys[p]);
    }
  }

  /** Delete, second write: every chunk under the drained posting is elsewhere. */
  lemma DroppingKeeps(c: Claims, r: Rules, d: Doc, dv: DocVec, drained: nat)
    requires Good(c, r, d, dv)
    requires r.copied == Some(drained) && r.moves.None?
    ensures Good(c, r, d, Apply(dv, DeleteKey(drained)))
  {
    KeyedAfterDrop(r, dv, drained);
    if c.Watched(d) {
      HeldAfterDrop(dv, drained);
      if d !in c.queued && c.Text(d).None? {
        assert dv == NOTHING;
      }
    }
  }
}
