/** What clients ask for while maintenance runs, and what becomes of the documents
    as they are served. */
module Requests {
  import opened Codes
  import opened Vectors

  /** What a client asks for, or a turn of the vector worker on one document, which
      may be `late`: it entered the routing epoch before the last publication. */
  datatype Request =
    | PutDoc(doc: Doc, text: Text) | PutBlank(doc: Doc) | DeleteDoc(doc: Doc) | Reindex(doc: Doc, text: Text)
    | Work(doc: Doc, late: bool) | Pause
  {
    predicate IsClient() { !Work? && !Pause? }
  }

  // ── The documents requests leave ──

  /** The documents once a request is served. */
  function After(docs: map<Doc, Text>, q: Request): map<Doc, Text> {
    match q
    case PutDoc(d, t) => docs[d := t]
    case PutBlank(d) => docs - {d}
    case DeleteDoc(d) => docs - {d}
    case _ => docs
  }

  /** `docs'` is what `taken` leaves of `docs`, served in order, all but `lost` of
      them: a request being served when the process is killed may not be. */
  ghost predicate Leaves(docs: map<Doc, Text>, taken: seq<Request>, lost: nat, docs': map<Doc, Text>)
    decreases |taken|
  {
    if taken == [] then docs' == docs
    else
      || Leaves(After(docs, taken[0]), taken[1..], lost, docs')
      || (lost > 0 && Leaves(docs, taken[1..], lost - 1, docs'))
  }

  /** Of `requests` the first were taken, and `requests'` are left. */
  ghost predicate Answered(docs: map<Doc, Text>, requests: seq<Request>, docs': map<Doc, Text>,
                           requests': seq<Request>, lost: nat)
  {
    && |requests'| <= |requests|
    && requests' == requests[|requests| - |requests'|..]
    && Leaves(docs, requests[..|requests| - |requests'|], lost, docs')
  }

  lemma {:induction false} LeavesConcat(a: map<Doc, Text>, t1: seq<Request>, l1: nat, b: map<Doc, Text>,
                                        t2: seq<Request>, l2: nat, c: map<Doc, Text>)
    requires Leaves(a, t1, l1, b) && Leaves(b, t2, l2, c)
    ensures Leaves(a, t1 + t2, l1 + l2, c)
    decreases |t1|
  {
    if t1 == [] {
      assert t1 + t2 == t2;
      LeavesMore(a, t2, l2, c, l1 + l2);
    } else {
      assert (t1 + t2)[1..] == t1[1..] + t2;
      if Leaves(After(a, t1[0]), t1[1..], l1, b) {
        LeavesConcat(After(a, t1[0]), t1[1..], l1, b, t2, l2, c);
      } else {
        LeavesConcat(a, t1[1..], l1 - 1, b, t2, l2, c);
      }
    }
  }

  lemma {:induction false} LeavesMore(docs: map<Doc, Text>, taken: seq<Request>, lost: nat, docs': map<Doc, Text>,
                                      more: nat)
    requires Leaves(docs, taken, lost, docs') && lost <= more
    ensures Leaves(docs, taken, more, docs')
    decreases |taken|
  {
    if taken != [] {
      if Leaves(After(docs, taken[0]), taken[1..], lost, docs') {
        LeavesMore(After(docs, taken[0]), taken[1..], lost, docs', more);
      } else {
        LeavesMore(docs, taken[1..], lost - 1, docs', more - 1);
      }
    }
  }

  lemma NoneAnswered(docs: map<Doc, Text>, requests: seq<Request>)
    ensures forall lost :: Answered(docs, requests, docs, requests, lost)
  {
    assert requests[0..] == requests && requests[..0] == [];
  }

  lemma OneAnswered(docs: map<Doc, Text>, requests: seq<Request>, docs': map<Doc, Text>, lost: nat)
    requires requests != []
    requires docs' == After(docs, requests[0]) || (lost > 0 && docs' == docs)
    ensures Answered(docs, requests, docs', requests[1..], lost)
  {
    var taken := requests[..1];
    assert taken == [requests[0]] && taken[1..] == [];
  }

  lemma AnsweredMore(docs: map<Doc, Text>, requests: seq<Request>, docs': map<Doc, Text>, requests': seq<Request>,
                     lost: nat, more: nat)
    requires Answered(docs, requests, docs', requests', lost) && lost <= more
    ensures Answered(docs, requests, docs', requests', more)
  {
    LeavesMore(docs, requests[..|requests| - |requests'|], lost, docs', more);
  }

  lemma AnsweredCompose(d0: map<Doc, Text>, r0: seq<Request>, d1: map<Doc, Text>, r1: seq<Request>, l1: nat,
                        d2: map<Doc, Text>, r2: seq<Request>, l2: nat)
    requires Answered(d0, r0, d1, r1, l1) && Answered(d1, r1, d2, r2, l2)
    ensures Answered(d0, r0, d2, r2, l1 + l2)
  {
    var (m, n) := (|r0| - |r1|, |r0| - |r2|);
    LeavesConcat(d0, r0[..m], l1, d1, r1[..|r1| - |r2|], l2, d2);
    assert r0[..m] + r1[..|r1| - |r2|] == r0[..n];
    assert r1[|r1| - |r2|..] == r0[n..];
  }

  /** More arrive, and some are taken. */
  lemma AnsweredOn(d0: map<Doc, Text>, r0: seq<Request>, d1: map<Doc, Text>, r1: seq<Request>, l1: nat,
                   arriving: seq<Request>, d2: map<Doc, Text>, r2: seq<Request>, l2: nat)
    requires Answered(d0, r0, d1, r1, l1) && Answered(d1, r1 + arriving, d2, r2, l2)
    ensures Answered(d0, r0 + arriving, d2, r2, l1 + l2)
  {
    var n := |r0| - |r1|;
    assert (r0 + arriving)[..n] == r0[..n] && (r0 + arriving)[n..] == r1 + arriving;
    AnsweredCompose(d0, r0 + arriving, d1, r1 + arriving, l1, d2, r2, l2);
  }

  // ── What requests give up ──

  /** The documents requests name. */
  function Named(requests: seq<Request>): set<Doc> {
    set q | q in requests && !q.Pause? :: q.doc
  }

  lemma NamedTail(requests: seq<Request>)
    requires requests != []
    ensures Named(requests) == Named(requests[1..]) + (if requests[0].Pause? then {} else {requests[0].doc})
  {
    assert requests == [requests[0]] + requests[1..];
  }

  /** Content still claimed is as it was, and is given up only for documents the
      requests taken name. */
  ghost predicate Spared(kept: map<Doc, Content>, kept': map<Doc, Content>, requests: seq<Request>,
                         requests': seq<Request>)
  {
    && kept.Keys - Named(requests) <= kept'.Keys <= kept.Keys
    && (forall d :: d in kept' ==> kept'[d] == kept[d])
    && Named(requests') <= Named(requests)
  }

  lemma SparedNothing(kept: map<Doc, Content>, requests: seq<Request>)
    ensures Spared(kept, kept, requests, requests)
    ensures requests != [] ==> Spared(kept, kept, requests, requests[1..])
  {
    if requests != [] {
      NamedTail(requests);
    }
  }

  lemma SparedCompose(k0: map<Doc, Content>, k1: map<Doc, Content>, k2: map<Doc, Content>,
                      r0: seq<Request>, r1: seq<Request>, r2: seq<Request>)
    requires Spared(k0, k1, r0, r1) && Spared(k1, k2, r1, r2)
    ensures Spared(k0, k2, r0, r2)
  {
  }

  /** A request taken gives up the content of the document it names. */
  lemma SparedTaking(kept: map<Doc, Content>, kept': map<Doc, Content>, requests: seq<Request>, requests': seq<Request>)
    requires requests != [] && !requests[0].Pause?
    requires Spared(kept - {requests[0].doc}, kept', requests[1..], requests')
    ensures Spared(kept, kept', requests, requests')
  {
    NamedTail(requests);
  }
}
