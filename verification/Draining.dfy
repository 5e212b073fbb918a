/** The second half of a drain: delete the drained posting's keys, a batch of
    documents at a time (`drain_delete`), and retire it. */
module Draining {
  import opened Codes
  import opened Vectors
  import opened Counts
  import opened Partition
  import opened Marks
  import opened Store
  import opened Steps
  import opened Copying

  /** A meta's list without its first entry for `p`. */
  function Unlist(ps: seq<(nat, nat)>, p: nat): seq<(nat, nat)>
    requires Find(ps, p) < |ps|
  {
    ps[..Find(ps, p)] + ps[Find(ps, p) + 1..]
  }

  lemma UnlistRemovesOne(ps: seq<(nat, nat)>, p: nat)
    requires Find(ps, p) < |ps|
    ensures Ids(ps) - {p} <= Ids(Unlist(ps, p)) <= Ids(ps)
    ensures forall q, u :: Tally(Unlist(ps, p), q, u) + Tally([ps[Find(ps, p)]], q, u) == Tally(ps, q, u)
  {
    var i := Find(ps, p);
    var head, tail := ps[..i], ps[i + 1..];
    assert ps == head + ([ps[i]] + tail);
    forall q, u ensures Tally(Unlist(ps, p), q, u) + Tally([ps[i]], q, u) == Tally(ps, q, u) {
      TallyConcat(head, tail, q, u);
      TallyConcat(head, [ps[i]] + tail, q, u);
      TallyConcat([ps[i]], tail, q, u);
    }
    forall x | x in Ids(ps) && x != p ensures x in Ids(Unlist(ps, p)) {
      var e :| e in ps && e.0 == x;
      assert e in head || e == ps[i] || e in tail;
    }
    forall x | x in Ids(Unlist(ps, p)) ensures x in Ids(ps) {
      var e :| e in Unlist(ps, p) && e.0 == x;
      assert e in head || e in tail;
    }
  }

  lemma UnlistRecords(dv: DocVec, p: nat)
    requires dv.meta.Some? && Find(dv.meta.value.postings, p) < |dv.meta.value.postings|
    ensures var ps := dv.meta.value.postings;
            RecordDelta(dv, dv.(meta := Some(Meta(dv.meta.value.hash, Unlist(ps, p)))), Delta([], [ps[Find(ps, p)]]))
  {
    var ps := dv.meta.value.postings;
    UnlistRemovesOne(ps, p);
    forall q, u
      ensures Tally(Unlist(ps, p), q, u) + Tally([ps[Find(ps, p)]], q, u)
           == Tally(ps, q, u) + Tally([], q, u)
    {
    }
  }

  /** A document whose meta no longer lists `p` (its first entry, the only one). */
  function Unlisted(dv: DocVec, p: nat): DocVec {
    if dv.meta.Some? && Find(dv.meta.value.postings, p) < |dv.meta.value.postings| then
      dv.(meta := Some(Meta(dv.meta.value.hash, Unlist(dv.meta.value.postings, p))))
    else dv
  }

  /** A posting whose copies are all made is being emptied, and nothing else. */
  ghost predicate Emptying(r: Rules, drained: nat) {
    r.copied == Some(drained) && r.loose == {drained} && r.moves.None?
  }

  /** The meta first: drop the drained posting from it, and from the sizes. */
  method UnlistDoc(ix: Index, drained: nat, d: Doc) returns (r: Outcome)
    requires ix.Safe() && Agrees(ix.counts, Now(ix.log)) && Emptying(ix.R(), drained)
    modifies ix`budget, ix`log, ix`counts
    ensures ix.Safe() && !r.Corrupt? && Spent(old(ix.budget), ix.budget, r)
    ensures r.Fine? ==> Agrees(ix.counts, Now(ix.log)) && OnlyDoc(Now(old(ix.log)), Now(ix.log), d)
    ensures r.Fine? ==> At(Now(ix.log), d) == Unlisted(At(Now(old(ix.log)), d), drained)
  {
    hide PartsOk, PlanOk, RulesOf, Good, Agrees, Accounts, RecordDelta;
    ghost var was := Now(ix.log);
    var dv := At(Now(ix.log), d);
    if dv.meta.Some? && Find(dv.meta.value.postings, drained) < |dv.meta.value.postings| {
      var ps := dv.meta.value.postings;
      var m := Meta(dv.meta.value.hash, Unlist(ps, drained));
      UnlistRemovesOne(ps, drained);
      UnlistRecords(dv, drained);
      assert Good(ix.C(), ix.R(), d, At(ix.log[|ix.log| - 1], d));
      UnlistingKeeps(ix.C(), ix.R(), d, dv, m, drained);
      :- LogWrite(ix, d, PutMeta(m));
      var delta := Delta([], [ps[Find(ps, drained)]]);
      RecordAccounts(was, Now(ix.log), d, delta);
      ApplyKeepsAgreement(ix.counts, was, Now(ix.log), delta);
      ix.counts := ApplyDelta(ix.counts, delta);
    }
    return Fine;
  }

  lemma SameMetaAgrees(t: Table, v: Vec, v': Vec, d: Doc)
    requires Agrees(t, v) && OnlyDoc(v, v', d) && At(v', d).meta == At(v, d).meta
    ensures Agrees(t, v')
  {
    forall p, u ensures Counted(At(v', d), p, u) + Tally([], p, u) == Counted(At(v, d), p, u) + Tally([], p, u) {
    }
    RecordAccounts(v, v', d, NO_CHANGE);
    ApplyKeepsAgreement(t, v, v', NO_CHANGE);
    assert ApplyDelta(t, NO_CHANGE) == t;
  }

  /** One document of a delete, under its lock: its meta, then its key. */
  method DeleteDoc(ix: Index, drained: nat, d: Doc) returns (r: Outcome)
    requires ix.Safe() && Agrees(ix.counts, Now(ix.log)) && Emptying(ix.R(), drained)
    modifies ix`budget, ix`log, ix`counts
    ensures ix.Safe() && !r.Corrupt? && Spent(old(ix.budget), ix.budget, r)
    ensures r.Fine? ==> Agrees(ix.counts, Now(ix.log)) && OnlyDoc(Now(old(ix.log)), Now(ix.log), d)
    ensures r.Fine? ==> At(Now(ix.log), d) == Without(Unlisted(At(Now(old(ix.log)), d), drained), {drained})
  {
    hide PartsOk, PlanOk, RulesOf, Good, Agrees;
    :- UnlistDoc(ix, drained, d);
    ghost var v := Now(ix.log);
    assert Good(ix.C(), ix.R(), d, At(ix.log[|ix.log| - 1], d));
    DroppingKeeps(ix.C(), ix.R(), d, At(Now(ix.log), d), drained);
    :- LogWrite(ix, d, DeleteKey(drained));
    SameMetaAgrees(ix.counts, v, Now(ix.log), d);
    return Fine;
  }

  /** A document without its drained key, and that key's listing. */
  function Emptied(dv: DocVec, p: nat): DocVec {
    if p in dv.keys then Without(Unlisted(dv, p), {p}) else dv
  }

  ghost function Deletes(p: nat): (DocVec, DocVec) -> bool {
    (dv, dv') => dv' == Without(Unlisted(dv, p), {p})
  }

  /** No key is under `p` but perhaps of documents of `rest`. */
  ghost predicate NoKeysBut(log: Log, p: nat, rest: set<Doc>) {
    forall i, d :: 0 <= i < |log| && d !in rest ==> p !in At(log[i], d).keys
  }

  /** A batch, synced before its locks are released. */
  method DeleteBatch(ix: Index, drained: nat, batch: seq<Doc>) returns (r: Outcome)
    requires ix.Safe() && Agrees(ix.counts, Now(ix.log)) && Emptying(ix.R(), drained) && StrictlyUp(batch)
    modifies ix`budget, ix`log, ix`counts
    ensures ix.Safe() && !r.Corrupt? && Spent(old(ix.budget), ix.budget, r)
    ensures r.Fine? ==> |ix.log| == 1 && Agrees(ix.counts, Now(ix.log))
    ensures r.Fine? ==> forall d :: d in batch ==> drained !in At(Now(ix.log), d).keys
    ensures r.Fine? ==> Only(Deletes(drained), Now(old(ix.log)), Now(ix.log), Elements(batch))
  {
    hide PartsOk, PlanOk, RulesOf, AllGood, Agrees, Only, StrictlyUp;
    ghost var was := Now(ix.log);
    OnlyNone(Deletes(drained), was, batch);
    for k := 0 to |batch|
      invariant Spent(old(ix.budget), ix.budget, Fine)
      invariant ix.Safe() && Agrees(ix.counts, Now(ix.log))
      invariant Only(Deletes(drained), was, Now(ix.log), Elements(batch[..k]))
      invariant forall d :: d in batch[..k] ==> drained !in At(Now(ix.log), d).keys
    {
      ghost var before := Now(ix.log);
      :- DeleteDoc(ix, drained, batch[k]);
      OnlyOneMore(Deletes(drained), was, before, Now(ix.log), batch, k);
      assert batch[..k + 1] == batch[..k] + [batch[k]];
    }
    assert batch[..|batch|] == batch;
    :- ix.SyncLog();
    return Fine;
  }

  lemma BatchDeletes(c: Claims, r: Rules, log: Log, log': Log, drained: nat, rest: set<Doc>, batch: seq<Doc>)
    requires AllGood(c, r, log') && |log'| == 1 && r.loose <= {drained}
    requires NoKeysBut(log, drained, rest)
    requires Only(Deletes(drained), Now(log), Now(log'), Elements(batch))
    requires forall d :: d in batch ==> drained !in At(Now(log'), d).keys
    ensures NoKeysBut(log', drained, rest - (set d | d in batch))
    ensures Settled(log) ==> Settled(log')
  {
    forall i, d | 0 <= i < |log'| && d !in rest - (set d | d in batch) ensures drained !in At(log'[i], d).keys {
      if d !in batch {
        assert drained !in At(log[|log| - 1], d).keys;
      }
    }
    if Settled(log) {
      forall i, d | 0 <= i < |log'| ensures SettledDoc(At(log'[i], d), At(Now(log'), d)) {
        assert SettledDoc(At(log[|log| - 1], d), At(Now(log), d));
        assert Good(c, r, d, At(log'[i], d));
        forall p | p in At(log'[i], d).keys ensures p in Lists(At(log'[i], d).meta) {
          assert KeyOk(r, At(log'[i], d).meta, p, At(log'[i], d).keys[p]);
        }
      }
    }
  }

  lemma OthersAddNoKeys(routed: set<nat>, log: Log, log': Log, p: nat, rest: set<Doc>)
    requires Interfered(routed, log, log') && p !in routed
    requires NoKeysBut(log, p, rest)
    ensures NoKeysBut(log', p, rest)
  {
    forall i, d | 0 <= i < |log'| && d !in rest ensures p !in At(log'[i], d).keys {
      assert FromOld(log, d, At(log'[i], d)) || At(log'[i], d).keys.Keys <= routed;
    }
  }

  /** Others' turn, then one batch. */
  method DeleteTurn(ix: Index, drained: nat, batch: seq<Doc>, ghost rest: set<Doc>, ghost past: Past)
    returns (r: Outcome)
    requires ix.Quiet() && Emptying(ix.R(), drained) && drained !in ix.Routed()
    requires StrictlyUp(batch)
    requires NoKeysBut(ix.log, drained, rest) && Since(past, PastOf(ix), Fine)
    modifies ix`docs, ix`queue, ix`lost, ix`log, ix`counts, ix`budget, ix`kept, ix`requests
    ensures ix.Safe() && !r.Corrupt? && Spent(old(ix.budget), ix.budget, r) && Since(past, PastOf(ix), r)
    ensures r.Fine? && old(ix.Alone()) ==> Only(Deletes(drained), Now(old(ix.log)), Now(ix.log), Elements(batch))
    ensures r.Fine? ==> ix.Quiet() && NoKeysBut(ix.log, drained, rest - (set d | d in batch))
  {
    hide PartsOk, PlanOk, RulesOf, AllGood, NoKeysBut, Agrees, Settled, Only, Since, Interfered, Index.Sound,
         Index.SnapOk, Index.Routed;
    ghost var log0, past0 := ix.log, PastOf(ix);
    r := ix.Yield();
    SinceYield(past0, ix, r);
    SinceCompose(past, past0, PastOf(ix), r);
    if r.Fine? {
      OthersAddNoKeys(ix.Routed(), log0, ix.log, drained, rest);
      ghost var log1 := ix.log;
      :- DeleteBatch(ix, drained, batch);
      BatchDeletes(ix.C(), ix.R(), log1, ix.log, drained, rest, batch);
    }
  }

  /** One pass over the posting's keys. */
  method DeletePass(ix: Index, drained: nat, docs: seq<Doc>) returns (r: Outcome)
    requires ix.Quiet() && Emptying(ix.R(), drained) && drained !in ix.Routed()
    requires StrictlyUp(docs)
    requires NoKeysBut(ix.log, drained, RestOf(docs, 0))
    modifies ix`docs, ix`queue, ix`lost, ix`log, ix`counts, ix`budget, ix`kept, ix`requests
    ensures ix.Safe() && !r.Corrupt? && Spent(old(ix.budget), ix.budget, r) && Since(old(PastOf(ix)), PastOf(ix), r)
    ensures r.Fine? && old(ix.Alone()) ==> Only(Deletes(drained), Now(old(ix.log)), Now(ix.log), Elements(docs))
    ensures r.Fine? ==> ix.Quiet() && NoKeys(ix.log, drained)
  {
    hide PartsOk, PlanOk, RulesOf, AllGood, Agrees, Settled, Since, NoKeysBut, Only, StrictlyUp, Index.Sound,
         Index.SnapOk, Index.Routed;
    ghost var past, was := PastOf(ix), Now(ix.log);
    SinceNow(past);
    OnlyNone(Deletes(drained), was, docs);
    var i := 0;
    while i < |docs|
      invariant Spent(old(ix.budget), ix.budget, Fine)
      invariant i <= |docs| && ix.Quiet() && Since(past, PastOf(ix), Fine)
      invariant NoKeysBut(ix.log, drained, RestOf(docs, i))
      invariant old(ix.Alone()) ==> ix.Alone() && Only(Deletes(drained), was, Now(ix.log), Elements(docs[..i]))
    {
      var j := Min(i + BATCH_DOCS, |docs|);
      ghost var before := Now(ix.log);
      SlicesGoUp(docs, i, j);
      r := DeleteTurn(ix, drained, docs[i..j], RestOf(docs, i), past);
      if !r.Fine? {
        return;
      }
      RestSplits(docs, i, j);
      if old(ix.Alone()) {
        StaysAlone(past, ix);
        OnlyMore(Deletes(drained), was, before, Now(ix.log), docs, i, j);
      }
      NoKeysButFewer(ix.log, drained, RestOf(docs, i) - (set d | d in docs[i..j]), RestOf(docs, j));
      i := j;
    }
    assert RestOf(docs, |docs|) == {} && docs[..|docs|] == docs;
    NoKeysAtAll(ix.log, drained);
    return Fine;
  }

  lemma NoKeysButFewer(log: Log, p: nat, rest: set<Doc>, more: set<Doc>)
    requires NoKeysBut(log, p, rest) && rest <= more
    ensures NoKeysBut(log, p, more)
  {
  }

  lemma NoKeysAtAll(log: Log, p: nat)
    requires NoKeysBut(log, p, {})
    ensures NoKeys(log, p)
  {
    var none: set<Doc> := {};
    forall i, d | 0 <= i < |log| ensures p !in At(log[i], d).keys {
      assert NoKeysBut(log, p, none) && d !in none;
    }
  }

  lemma StartDeleting(log: Log, p: nat, docs: seq<Doc>)
    requires Settled(log) || |log| == 1
    requires forall d :: d in docs <==> d in DocsUnder(Now(log), p)
    ensures NoKeysBut(log, p, RestOf(docs, 0))
    ensures docs == [] <==> NoKeys(log, p)
  {
    NotUnder(log, p);
    assert docs[0..] == docs;
    if docs == [] {
      forall i, d | 0 <= i < |log| ensures p !in At(log[i], d).keys {
        assert d !in docs;
      }
    } else {
      assert docs[0] in docs && p in At(log[|log| - 1], docs[0]).keys;
    }
  }

  lemma NothingToEmpty(log: Log, p: nat)
    requires NoKeys(log, p)
    ensures forall d :: Emptied(At(Now(log), d), p) == At(Now(log), d)
  {
    forall d ensures Emptied(At(Now(log), d), p) == At(Now(log), d) {
      assert p !in At(log[|log| - 1], d).keys;
    }
  }

  lemma AllEmptied(v: Vec, v': Vec, p: nat, docs: seq<Doc>)
    requires Only(Deletes(p), v, v', Elements(docs)) && forall d :: d in docs <==> d in DocsUnder(v, p)
    ensures forall d :: At(v', d) == Emptied(At(v, d), p)
  {
    forall d ensures At(v', d) == Emptied(At(v, d), p) {
      assert if d in Elements(docs) then Deletes(p)(At(v, d), At(v', d)) else At(v', d) == At(v, d);
    }
  }

  /** Delete the drained posting's keys, and the posting from each document's
      meta. Nothing routes to it any more, so its keys only go: the first pass
      deletes them all and the second finds none. */
  method DrainDelete(ix: Index, drained: nat) returns (r: Outcome)
    requires ix.Quiet() && Emptying(ix.R(), drained) && drained !in ix.Routed()
    modifies ix`docs, ix`queue, ix`lost, ix`log, ix`counts, ix`budget, ix`kept, ix`requests
    ensures ix.Safe() && !r.Corrupt? && Spent(old(ix.budget), ix.budget, r) && Since(old(PastOf(ix)), PastOf(ix), r)
    ensures r.Fine? && old(ix.Alone()) ==>
              forall d :: At(Now(ix.log), d) == Emptied(At(Now(old(ix.log)), d), drained)
    ensures r.Fine? ==> ix.Quiet() && NoKeys(ix.log, drained)
  {
    hide PartsOk, PlanOk, RulesOf, AllGood, Agrees, Settled, Since, NoKeysBut, Only, Emptied, Index.Sound, Index.SnapOk,
         Index.Routed;
    ghost var past, was := PastOf(ix), Now(ix.log);
    SinceNow(past);
    for pass := 0 to 2
      invariant Spent(old(ix.budget), ix.budget, Fine)
      invariant ix.Quiet() && Since(past, PastOf(ix), Fine)
      invariant pass > 0 ==> NoKeys(ix.log, drained)
      invariant old(ix.Alone()) ==> ix.Alone()
      invariant old(ix.Alone()) && pass == 0 ==> Now(ix.log) == was
      invariant old(ix.Alone()) && pass > 0 ==> forall d :: At(Now(ix.log), d) == Emptied(At(was, d), drained)
    {
      var docs := Ascending(DocsUnder(Now(ix.log), drained));
      AscendingAscends(DocsUnder(Now(ix.log), drained));
      StartDeleting(ix.log, drained, docs);
      if docs == [] {
        NothingToEmpty(ix.log, drained);
        return Fine;
      }
      ghost var before := PastOf(ix);
      r := DeletePass(ix, drained, docs);
      SinceCompose(past, before, PastOf(ix), r);
      if !r.Fine? {
        return;
      }
      if old(ix.Alone()) {
        StaysAlone(past, ix);
        AllEmptied(was, Now(ix.log), drained, docs);
      }
    }
    return Fine;
  }
}
