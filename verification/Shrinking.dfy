/** The second half of a reassignment: a source gives up each chunk that moves and
    whose destination holds a copy (`shrink_sources`). */
module Shrinking {
  import opened Codes
  import opened Vectors
  import opened Counts
  import opened Partition
  import opened Store
  import opened Steps
  import opened Copying
  import opened Draining
  import G = Geometry

  // ── Claiming copies ──

  /** Which copies each destination has been claimed for, shared by a document's
      sources. */
  type Flags = map<nat, seq<bool>>

  predicate FlagsOk(dv: DocVec, used: Flags) {
    used.Keys == dv.keys.Keys && forall p :: p in used ==> |used[p]| == |dv.keys[p]|
  }

  function NoneUsed(dv: DocVec): (used: Flags)
    ensures FlagsOk(dv, used)
  {
    map p | p in dv.keys :: Unused(|dv.keys[p]|)
  }

  /** Copies of a chunk where it moves to that no source has claimed. */
  ghost function FreeAtHome(m: Moves, dv: DocVec, used: Flags, b: VectorIndex): nat
    requires FlagsOk(dv, used)
  {
    var home := G.Home(m.space, m.centres, m.rule, b);
    if home.Some? && home.value.0 in dv.keys then Free(dv.keys[home.value.0], used[home.value.0], b) else 0
  }

  lemma AllFreeAtFirst(m: Moves, dv: DocVec, b: VectorIndex)
    ensures FreeAtHome(m, dv, NoneUsed(dv), b) == AtHome(m, dv, b)
  {
    var home := G.Home(m.space, m.centres, m.rule, b);
    if home.Some? && home.value.0 in dv.keys {
      UnusedIsAllFree(dv.keys[home.value.0], b);
    }
  }

  /** Claim a copy of `c`, under the `k`th source, where it moves to. */
  function Claim(m: Moves, dv: DocVec, used: Flags, k: nat, c: VectorIndex): (r: (bool, Flags))
    requires FlagsOk(dv, used) && k < |m.sources|
    ensures FlagsOk(dv, r.1)
  {
    var dest := m.To(k, c);
    if dest.Some? && dest.value in dv.keys then
      var held, flags := dv.keys[dest.value], used[dest.value];
      var j := FirstFree(c, held, flags, 0);
      if j < |held| then (true, used[dest.value := flags[j := true]]) else (false, used)
    else (false, used)
  }

  /** A claim succeeds exactly if a copy is free, and takes only that one. */
  lemma ClaimCounts(m: Moves, dv: DocVec, used: Flags, k: nat, c: VectorIndex, b: VectorIndex)
    requires FlagsOk(dv, used) && k < |m.sources|
    ensures var (taken, used') := Claim(m, dv, used, k, c);
            if Bare(c) == b && m.To(k, b).Some? then
              && (taken <==> FreeAtHome(m, dv, used, b) > 0)
              && FreeAtHome(m, dv, used', b) + (if taken then 1 else 0) == FreeAtHome(m, dv, used, b)
            else FreeAtHome(m, dv, used', b) == FreeAtHome(m, dv, used, b) && (Bare(c) == b ==> !taken)
  {
    var dest := m.To(k, c);
    assert Bare(Bare(c)) == Bare(c);
    if dest.Some? && dest.value in dv.keys {
      var held, flags := dv.keys[dest.value], used[dest.value];
      var j := FirstFree(c, held, flags, 0);
      G.MovesHome(m.space, m.centres, m.rule, m.sources[k], c);
      if j < |held| {
        SameCodeIsSameChunk(c, held[j]);
        FreeAfterClaim(held, flags, j, b);
      } else {
        NoneFree(held, flags, c);
      }
    } else if dest.Some? {
      G.MovesHome(m.space, m.centres, m.rule, m.sources[k], c);
    }
  }

  /** What shrinking one source comes to for one chunk: the smaller of what it has
      to give up and what is free is claimed, and gone from the source. */
  ghost predicate EntryCounts(m: Moves, dv: DocVec, k: nat, codes: seq<VectorIndex>, used: Flags, used': Flags,
                              remaining: seq<VectorIndex>, b: VectorIndex)
    requires FlagsOk(dv, used) && FlagsOk(dv, used') && k < |m.sources|
  {
    var taken := if m.To(k, b).Some? then Min(Count(codes, b), FreeAtHome(m, dv, used, b)) else 0;
    && FreeAtHome(m, dv, used', b) + taken == FreeAtHome(m, dv, used, b)
    && Count(remaining, b) + taken == Count(codes, b)
  }

  lemma EntryCountsMore(m: Moves, dv: DocVec, k: nat, codes: seq<VectorIndex>, used: Flags, used': Flags,
                        remaining: seq<VectorIndex>, c: VectorIndex, b: VectorIndex)
    requires FlagsOk(dv, used) && FlagsOk(dv, used') && k < |m.sources|
    requires EntryCounts(m, dv, k, codes, used, used', remaining, b)
    ensures var (taken, used2) := Claim(m, dv, used', k, c);
            EntryCounts(m, dv, k, codes + [c], used, used2, if taken then remaining else remaining + [c], b)
  {
    ClaimCounts(m, dv, used', k, c, b);
    CountConcat(codes, [c], b);
    CountConcat(remaining, [c], b);
    assert Count([c], b) == (if Bare(c) == b then 1 else 0) + Count([c][1..], b);
  }

  /** Shrink one source's codes: each that finds a copy goes, the rest remain. */
  method TakeEntry(m: Moves, dv: DocVec, k: nat, codes: seq<VectorIndex>, used: Flags)
    returns (remaining: seq<VectorIndex>, used': Flags)
    requires FlagsOk(dv, used) && k < |m.sources|
    ensures FlagsOk(dv, used') && forall b :: EntryCounts(m, dv, k, codes, used, used', remaining, b)
    ensures (forall c :: c in remaining ==> c in codes) && |remaining| <= |codes|
    ensures |remaining| == |codes| ==> remaining == codes
  {
    hide Claim, EntryCounts;
    remaining, used' := [], used;
    forall b ensures EntryCounts(m, dv, k, codes[..0], used, used', remaining, b) {
      NothingTaken(m, dv, k, used, b);
    }
    for i := 0 to |codes|
      invariant FlagsOk(dv, used') && |remaining| <= i
      invariant forall b :: EntryCounts(m, dv, k, codes[..i], used, used', remaining, b)
      invariant forall c :: c in remaining ==> c in codes
      invariant |remaining| == i ==> remaining == codes[..i]
    {
      var (taken, next) := Claim(m, dv, used', k, codes[i]);
      var rest := if taken then remaining else remaining + [codes[i]];
      ghost var seen := codes[..i + 1];
      assert seen == codes[..i] + [codes[i]];
      forall b ensures EntryCounts(m, dv, k, seen, used, next, rest, b) {
        EntryCountsMore(m, dv, k, codes[..i], used, used', remaining, codes[i], b);
      }
      remaining, used' := rest, next;
    }
    assert codes[..|codes|] == codes;
  }

  lemma NothingTaken(m: Moves, dv: DocVec, k: nat, used: Flags, b: VectorIndex)
    requires FlagsOk(dv, used) && k < |m.sources|
    ensures EntryCounts(m, dv, k, [], used, used, [], b)
  {
  }

  // ── What is to be shrunk ──

  type Shrunk = (nat, seq<VectorIndex>)

  /** What shrinking the `k`th source to `remaining` may lose and must not: what
      goes moves, and has a copy where it moves to; what stays put is kept; and it
      is emptied only if it is leaving. */
  ghost predicate ShrinksTo(m: Moves, dv: DocVec, e: Shrunk) {
    && e.0 < |m.sources| && m.sources[e.0].0 in dv.keys
    && (forall c :: c in e.1 ==> c in dv.keys[m.sources[e.0].0])
    && (forall b :: Count(e.1, b) <= Count(dv.keys[m.sources[e.0].0], b))
    && (forall b :: Count(e.1, b) < Count(dv.keys[m.sources[e.0].0], b) ==> m.To(e.0, b).Some? && AtHome(m, dv, b) > 0)
    && (e.1 == [] ==> Leaving(m, dv, e.0))
  }

  ghost predicate ShrinkPlan(m: Moves, dv: DocVec, plan: seq<Shrunk>) {
    && (forall j :: 0 <= j < |plan| ==> ShrinksTo(m, dv, plan[j]))
    && (forall i, j :: 0 <= i < j < |plan| ==> plan[i].0 < plan[j].0)
  }

  /** Every source that is leaving is emptied. */
  ghost predicate Empties(m: Moves, dv: DocVec, plan: seq<Shrunk>, n: nat)
    requires n <= |m.sources|
  {
    forall k :: 0 <= k < n && m.sources[k].0 in dv.keys && dv.keys[m.sources[k].0] != [] && Leaving(m, dv, k) ==>
      (k, []) in plan
  }

  /** What a plan leaves of the `k`th source's codes. */
  function Remaining(plan: seq<Shrunk>, k: nat, codes: seq<VectorIndex>): seq<VectorIndex> {
    if plan == [] then codes
    else if plan[|plan| - 1].0 == k then plan[|plan| - 1].1
    else Remaining(plan[..|plan| - 1], k, codes)
  }

  /** How many copies of a moving chunk a plan leaves under the first `n` sources. */
  ghost function TotalKept(m: Moves, dv: DocVec, plan: seq<Shrunk>, n: nat, b: VectorIndex): nat
    requires n <= |m.sources|
  {
    if n == 0 then 0
    else TotalKept(m, dv, plan, n - 1, b) + if m.To(n - 1, b).Some? then
      Count(Remaining(plan, n - 1, HeldAt(dv, m.sources[n - 1].0)), b) else 0
  }

  /** Sources give up exactly as many copies as there are where they move to. */
  ghost predicate KeepsRest(m: Moves, dv: DocVec, plan: seq<Shrunk>, n: nat)
    requires n <= |m.sources|
  {
    forall b :: TotalKept(m, dv, plan, n, b) == Less(Total(m, dv, n, b), AtHome(m, dv, b))
  }

  lemma RemainingSnoc(plan: seq<Shrunk>, e: Shrunk, k: nat, codes: seq<VectorIndex>)
    ensures Remaining(plan + [e], k, codes) == if e.0 == k then e.1 else Remaining(plan, k, codes)
  {
    assert (plan + [e])[..|plan|] == plan;
  }

  lemma {:induction false} NotPlanned(plan: seq<Shrunk>, k: nat, codes: seq<VectorIndex>)
    requires forall j :: 0 <= j < |plan| ==> plan[j].0 != k
    ensures Remaining(plan, k, codes) == codes
  {
    if plan != [] {
      NotPlanned(plan[..|plan| - 1], k, codes);
    }
  }

  lemma {:induction false} KeptBefore(m: Moves, dv: DocVec, plan: seq<Shrunk>, e: Shrunk, n: nat, b: VectorIndex)
    requires n <= |m.sources| && n <= e.0
    ensures TotalKept(m, dv, plan + [e], n, b) == TotalKept(m, dv, plan, n, b)
  {
    if n > 0 {
      KeptBefore(m, dv, plan, e, n - 1, b);
      RemainingSnoc(plan, e, n - 1, HeldAt(dv, m.sources[n - 1].0));
    }
  }

  /** One more source: what it keeps, whether it is in the plan or not. */
  lemma KeepsRestAfter(m: Moves, dv: DocVec, plan: seq<Shrunk>, plan': seq<Shrunk>, used: Flags, used': Flags, k: nat,
                       remaining: seq<VectorIndex>)
    requires FlagsOk(dv, used) && FlagsOk(dv, used') && k < |m.sources| && FreeLeft(m, dv, used, k)
    requires forall b :: EntryCounts(m, dv, k, HeldAt(dv, m.sources[k].0), used, used', remaining, b)
    requires KeepsRest(m, dv, plan, k) && forall j :: 0 <= j < |plan| ==> plan[j].0 < k
    requires plan' == plan + [(k, remaining)] || (plan' == plan && remaining == HeldAt(dv, m.sources[k].0))
    ensures KeepsRest(m, dv, plan', k + 1)
  {
    hide FreeAtHome, AtHome, Total;
    var codes := HeldAt(dv, m.sources[k].0);
    forall b ensures TotalKept(m, dv, plan', k + 1, b) == Less(Total(m, dv, k + 1, b), AtHome(m, dv, b)) {
      assert EntryCounts(m, dv, k, codes, used, used', remaining, b);
      assert FreeAtHome(m, dv, used, b) == Less(AtHome(m, dv, b), Total(m, dv, k, b));
      TotalStep(m, dv, k, b);
      if plan' == plan {
        NotPlanned(plan, k, codes);
      } else {
        RemainingSnoc(plan, (k, remaining), k, codes);
        KeptBefore(m, dv, plan, (k, remaining), k, b);
      }
    }
  }

  ghost predicate FreeLeft(m: Moves, dv: DocVec, used: Flags, n: nat)
    requires FlagsOk(dv, used) && n <= |m.sources|
  {
    forall b :: FreeAtHome(m, dv, used, b) == Less(AtHome(m, dv, b), Total(m, dv, n, b))
  }

  lemma FreeLeftAtFirst(m: Moves, dv: DocVec)
    ensures FreeLeft(m, dv, NoneUsed(dv), 0)
  {
    forall b ensures FreeAtHome(m, dv, NoneUsed(dv), b) == Less(AtHome(m, dv, b), Total(m, dv, 0, b)) {
      AllFreeAtFirst(m, dv, b);
    }
  }

  lemma FreeLeftAfter(m: Moves, dv: DocVec, used: Flags, used': Flags, k: nat, remaining: seq<VectorIndex>)
    requires FlagsOk(dv, used) && FlagsOk(dv, used') && k < |m.sources| && FreeLeft(m, dv, used, k)
    requires forall b :: EntryCounts(m, dv, k, HeldAt(dv, m.sources[k].0), used, used', remaining, b)
    ensures FreeLeft(m, dv, used', k + 1)
  {
    forall b ensures FreeAtHome(m, dv, used', b) == Less(AtHome(m, dv, b), Total(m, dv, k + 1, b)) {
      assert EntryCounts(m, dv, k, HeldAt(dv, m.sources[k].0), used, used', remaining, b);
      assert FreeAtHome(m, dv, used, b) == Less(AtHome(m, dv, b), Total(m, dv, k, b));
    }
  }

  lemma EntryShrinks(m: Moves, dv: DocVec, used: Flags, used': Flags, k: nat, remaining: seq<VectorIndex>)
    requires FlagsOk(dv, used) && FlagsOk(dv, used') && k < |m.sources| && FreeLeft(m, dv, used, k)
    requires m.sources[k].0 in dv.keys && forall c :: c in remaining ==> c in dv.keys[m.sources[k].0]
    requires forall b :: EntryCounts(m, dv, k, dv.keys[m.sources[k].0], used, used', remaining, b)
    ensures ShrinksTo(m, dv, (k, remaining))
    ensures Leaving(m, dv, k) ==> remaining == []
  {
    hide FreeAtHome, AtHome, Total;
    var codes := dv.keys[m.sources[k].0];
    forall b
      ensures Count(remaining, b) <= Count(codes, b)
      ensures Count(remaining, b) < Count(codes, b) ==> m.To(k, b).Some? && AtHome(m, dv, b) > 0
    {
      assert EntryCounts(m, dv, k, codes, used, used', remaining, b);
      assert FreeAtHome(m, dv, used, b) == Less(AtHome(m, dv, b), Total(m, dv, k, b));
    }
    if remaining == [] {
      forall c | c in HeldAt(dv, m.sources[k].0)
        ensures m.To(k, Bare(c)).Some? && Total(m, dv, k + 1, Bare(c)) <= AtHome(m, dv, Bare(c))
      {
        var b := Bare(c);
        assert EntryCounts(m, dv, k, codes, used, used', remaining, b);
        assert FreeAtHome(m, dv, used, b) == Less(AtHome(m, dv, b), Total(m, dv, k, b));
        CountIsHeld(codes, b);
        TotalStep(m, dv, k, b);
      }
    }
    if Leaving(m, dv, k) && remaining != [] {
      var c := remaining[0];
      var b := Bare(c);
      assert c in remaining && c in HeldAt(dv, m.sources[k].0);
      assert EntryCounts(m, dv, k, codes, used, used', remaining, b);
      assert FreeAtHome(m, dv, used, b) == Less(AtHome(m, dv, b), Total(m, dv, k, b));
      CountIsHeld(remaining, b);
      TotalStep(m, dv, k, b);
      assert false;
    }
  }

  lemma NothingKept(m: Moves, dv: DocVec)
    ensures KeepsRest(m, dv, [], 0)
  {
  }

  lemma TotalStep(m: Moves, dv: DocVec, k: nat, b: VectorIndex)
    requires k < |m.sources|
    ensures Total(m, dv, k + 1, b) == Total(m, dv, k, b) + Wanted(m, dv, k, b)
  {
  }

  /** Decide what each source keeps, in order, sharing the claims. */
  method PlanShrink(m: Moves, dv: DocVec) returns (plan: seq<Shrunk>)
    ensures ShrinkPlan(m, dv, plan) && Empties(m, dv, plan, |m.sources|) && KeepsRest(m, dv, plan, |m.sources|)
  {
    hide EntryCounts, FreeLeft, ShrinksTo, Leaving, TotalKept, Remaining;
    plan := [];
    var used := NoneUsed(dv);
    FreeLeftAtFirst(m, dv);
    NothingKept(m, dv);
    for k := 0 to |m.sources|
      invariant FlagsOk(dv, used) && FreeLeft(m, dv, used, k)
      invariant ShrinkPlan(m, dv, plan) && Empties(m, dv, plan, k) && KeepsRest(m, dv, plan, k)
      invariant forall j :: 0 <= j < |plan| ==> plan[j].0 < k
    {
      var codes := HeldAt(dv, m.sources[k].0);
      var remaining, next := TakeEntry(m, dv, k, codes, used);
      FreeLeftAfter(m, dv, used, next, k, remaining);
      KeepsRestAfter(m, dv, plan, if |remaining| < |codes| then plan + [(k, remaining)]
        else plan, used, next, k, remaining);
      if m.sources[k].0 in dv.keys {
        EntryShrinks(m, dv, used, next, k, remaining);
      }
      if |remaining| < |codes| {
        plan := plan + [(k, remaining)];
      }
      used := next;
    }
  }

  // ── The meta ──

  /** A meta's list once the entry of `p` is brought to `n` chunks, or dropped at
      none; an unlisted posting stays so. */
  function Resized(ps: seq<(nat, nat)>, p: nat, n: nat): (seq<(nat, nat)>, Delta) {
    var i := Find(ps, p);
    if i == |ps| || ps[i].1 == n then (ps, NO_CHANGE)
    else if n == 0 then (Unlist(ps, p), Delta([], [ps[i]]))
    else (ps[i := (p, n)], Delta([(p, n)], [ps[i]]))
  }

  lemma ResizedRelists(ps: seq<(nat, nat)>, p: nat, n: nat)
    ensures Relists(ps, Resized(ps, p, n).0, Resized(ps, p, n).1)
    ensures Ids(ps) - (if n == 0 then {p} else {}) <= Ids(Resized(ps, p, n).0) <= Ids(ps)
  {
    var (ps', d) := Resized(ps, p, n);
    var i := Find(ps, p);
    if i < |ps| && ps[i].1 != n {
      if n == 0 {
        UnlistRemovesOne(ps, p);
        forall q, u ensures Tally(ps', q, u) + Tally(d.removed, q, u) == Tally(ps, q, u) + Tally(d.added, q, u) {
          assert Tally(ps', q, u) + Tally([ps[i]], q, u) == Tally(ps, q, u);
        }
      } else {
        ListAtRelists(ps, p, n);
        assert ps[i] in ps;
        assert ListAt(ps, p, n).0 == ps' && ps[i] == (p, ps[i].1);
      }
    }
  }

  /** The list after every shrunk source, and the delta. */
  method Relist(m: Moves, ps: seq<(nat, nat)>, plan: seq<Shrunk>) returns (ps': seq<(nat, nat)>, delta: Delta)
    requires forall j :: 0 <= j < |plan| ==> plan[j].0 < |m.sources|
    ensures Relists(ps, ps', delta) && Ids(ps') <= Ids(ps)
    ensures forall p :: p in Ids(ps) && p !in Ids(ps') ==>
            exists j :: 0 <= j < |plan| && m.sources[plan[j].0].0 == p && plan[j].1 == []
  {
    hide Relists, Resized;
    ps', delta := ps, NO_CHANGE;
    NothingRelisted(ps);
    for i := 0 to |plan|
      invariant Relists(ps, ps', delta) && Ids(ps') <= Ids(ps)
      invariant forall p :: p in Ids(ps) && p !in Ids(ps') ==>
                exists j :: 0 <= j < i && m.sources[plan[j].0].0 == p && plan[j].1 == []
    {
      var p, n := m.sources[plan[i].0].0, |plan[i].1|;
      ResizedRelists(ps', p, n);
      var (next, d) := Resized(ps', p, n);
      RelistsCompose(ps, ps', next, delta, d);
      ps', delta := next, Extend(delta, d);
    }
  }

  // ── The keys ──

  /** A key holding what remains, or gone. */
  function Rewritten(dv: DocVec, p: nat, remaining: seq<VectorIndex>): DocVec {
    if remaining == [] then dv.(keys := dv.keys - {p}) else dv.(keys := dv.keys[p := remaining])
  }

  /** The first `i` of a plan's keys are rewritten, the others as they were, and
      copies at home untouched. */
  ghost predicate Partway(m: Moves, dv: DocVec, dv': DocVec, plan: seq<Shrunk>, i: nat)
    requires i <= |plan| && forall j :: 0 <= j < |plan| ==> plan[j].0 < |m.sources|
  {
    && dv'.meta == dv.meta && dv'.dense == dv.dense && dv'.keys.Keys <= dv.keys.Keys
    && (forall j :: i <= j < |plan| ==>
       m.sources[plan[j].0].0 in dv'.keys && HeldAt(dv', m.sources[plan[j].0].0) == HeldAt(dv, m.sources[plan[j].0].0))
    && (forall j :: 0 <= j < i && plan[j].1 == [] ==> m.sources[plan[j].0].0 !in dv'.keys)
    && (forall k, b :: 0 <= k < |m.sources| && m.To(k, b).Some? ==> AtHome(m, dv', b) == AtHome(m, dv, b))
    && (forall k :: 0 <= k < |m.sources| ==>
       HeldAt(dv', m.sources[k].0) == Remaining(plan[..i], k, HeldAt(dv, m.sources[k].0)))
    && (forall p :: p !in SourceIds(Some(m)) ==> (p in dv'.keys <==> p in dv.keys) && HeldAt(dv', p) == HeldAt(dv, p))
  }

  ghost predicate DistinctSources(m: Moves) {
    forall i, j :: 0 <= i < j < |m.sources| ==> m.sources[i].0 != m.sources[j].0
  }

  /** Rewriting a source's key leaves the copies that chunks move to where they
      are: a chunk that moves home never moves from there. */
  lemma HomesStay(m: Moves, dv: DocVec, e: Shrunk, k: nat, b: VectorIndex)
    requires e.0 < |m.sources| && k < |m.sources| && m.To(k, b).Some?
    requires forall x :: Count(e.1, x) < Count(HeldAt(dv, m.sources[e.0].0), x) ==> m.To(e.0, x).Some?
    requires forall x :: Count(e.1, x) <= Count(HeldAt(dv, m.sources[e.0].0), x)
    ensures AtHome(m, Rewritten(dv, m.sources[e.0].0, e.1), b) == AtHome(m, dv, b)
  {
    G.MovesHome(m.space, m.centres, m.rule, m.sources[k], b);
    var home := G.Home(m.space, m.centres, m.rule, b).value;
    if home.0 == m.sources[e.0].0 {
      assert G.Decide(m.space, m.centres, m.rule, (home.0, m.sources[e.0].1), b).None?;
      assert m.sources[e.0] == (home.0, m.sources[e.0].1);
      assert Count(e.1, b) == Count(HeldAt(dv, home.0), b);
    }
  }

  lemma PartwayMore(m: Moves, dv: DocVec, dv': DocVec, plan: seq<Shrunk>, i: nat)
    requires ShrinkPlan(m, dv, plan) && i < |plan| && Partway(m, dv, dv', plan, i) && DistinctSources(m)
    ensures Partway(m, dv, Rewritten(dv', m.sources[plan[i].0].0, plan[i].1), plan, i + 1)
  {
    var p := m.sources[plan[i].0].0;
    var dv2 := Rewritten(dv', p, plan[i].1);
    assert ShrinksTo(m, dv, plan[i]);
    forall j | 0 <= j < |plan| && j != i ensures m.sources[plan[j].0].0 != p {
      assert plan[j].0 != plan[i].0 by {
        assert j < i ==> plan[j].0 < plan[i].0;
        assert i < j ==> plan[i].0 < plan[j].0;
      }
    }
    forall k | 0 <= k < |m.sources|
      ensures HeldAt(dv2, m.sources[k].0)
           == Remaining(plan[..i + 1], k, HeldAt(dv, m.sources[k].0))
    {
      assert plan[..i + 1] == plan[..i] + [plan[i]];
      RemainingSnoc(plan[..i], plan[i], k, HeldAt(dv, m.sources[k].0));
    }
    assert m.sources[plan[i].0] in m.sources;
    forall k, b | 0 <= k < |m.sources| && m.To(k, b).Some? ensures AtHome(m, dv2, b) == AtHome(m, dv, b) {
      HomesStay(m, dv', plan[i], k, b);
      assert AtHome(m, dv', b) == AtHome(m, dv, b);
    }
  }

  /** Where a shrink stands: the meta is written, and some of the keys. */
  ghost predicate Shrinkable(m: Moves, r: Rules, dv: DocVec, plan: seq<Shrunk>) {
    && r.moves == Some(m) && r.copied.None? && DistinctSources(m)
    && ShrinkPlan(m, dv, plan)
    && forall k :: 0 <= k < |m.sources| && m.sources[k].0 in dv.keys && m.sources[k].0 !in Lists(dv.meta) ==>
       (k, []) in plan
  }

  lemma {:induction false} TotalShrinks(m: Moves, dv: DocVec, dv': DocVec, n: nat, b: VectorIndex)
    requires n <= |m.sources|
    requires forall k :: 0 <= k < n ==> Count(HeldAt(dv', m.sources[k].0), b) <= Count(HeldAt(dv, m.sources[k].0), b)
    ensures Total(m, dv', n, b) <= Total(m, dv, n, b)
  {
    if n > 0 {
      TotalShrinks(m, dv, dv', n - 1, b);
    }
  }

  /** Rewriting a key keeps every other leaving source leaving. */
  lemma OthersStillLeave(m: Moves, dv: DocVec, e: Shrunk, k: nat)
    requires e.0 < |m.sources| && k < |m.sources| && m.sources[k].0 != m.sources[e.0].0 && Leaving(m, dv, k)
    requires forall x :: Count(e.1, x) < Count(HeldAt(dv, m.sources[e.0].0), x) ==> m.To(e.0, x).Some?
    requires forall x :: Count(e.1, x) <= Count(HeldAt(dv, m.sources[e.0].0), x)
    ensures Leaving(m, Rewritten(dv, m.sources[e.0].0, e.1), k)
  {
    hide AtHome, Total;
    var dv' := Rewritten(dv, m.sources[e.0].0, e.1);
    forall c | c in HeldAt(dv', m.sources[k].0)
      ensures m.To(k, Bare(c)).Some? && Total(m, dv', k + 1, Bare(c)) <= AtHome(m, dv', Bare(c))
    {
      HomesStay(m, dv, e, k, Bare(c));
      TotalShrinks(m, dv, dv', k + 1, Bare(c));
    }
  }

  /** What a rewrite removes is still held where it moved to. */
  lemma RewriteHolds(m: Moves, dv: DocVec, e: Shrunk)
    requires e.0 < |m.sources| && m.sources[e.0].0 in dv.keys
    requires forall c :: c in e.1 ==> c in dv.keys[m.sources[e.0].0]
    requires forall b :: Count(e.1, b) < Count(dv.keys[m.sources[e.0].0], b) ==>
             m.To(e.0, b).Some? && AtHome(m, dv, b) > 0
    ensures HeldSet(Rewritten(dv, m.sources[e.0].0, e.1)) == HeldSet(dv)
  {
    var p := m.sources[e.0].0;
    var dv' := Rewritten(dv, p, e.1);
    forall b | b in HeldSet(dv) ensures b in HeldSet(dv') {
      var q :| q in dv.keys && b in Held(dv.keys[q]);
      if q != p {
        assert q in dv'.keys && dv'.keys[q] == dv.keys[q];
      } else if Count(e.1, b) > 0 {
        CountIsHeld(e.1, b);
        assert p in dv'.keys && b in Held(dv'.keys[p]);
      } else {
        CountIsHeld(dv.keys[p], b);
        var home := G.Home(m.space, m.centres, m.rule, b).value.0;
        G.MovesHome(m.space, m.centres, m.rule, m.sources[e.0], b);
        CountIsHeld(HeldAt(dv, home), b);
        assert home in dv'.keys && b in Held(dv'.keys[home]);
      }
    }
    forall b | b in HeldSet(dv') ensures b in HeldSet(dv) {
      var q :| q in dv'.keys && b in Held(dv'.keys[q]);
      assert q in dv.keys && b in Held(dv.keys[q]);
    }
  }

  /** The write of one key keeps the document good. */
  lemma RewriteIsAllowed(c: Claims, r: Rules, d: Doc, m: Moves, dv: DocVec, dv': DocVec, plan: seq<Shrunk>, i: nat)
    requires Good(c, r, d, dv') && Shrinkable(m, r, dv, plan) && i < |plan| && Partway(m, dv, dv', plan, i)
    ensures Good(c, r, d, Rewritten(dv', m.sources[plan[i].0].0, plan[i].1))
  {
    var e := plan[i];
    var p := m.sources[e.0].0;
    var dv2 := Rewritten(dv', p, e.1);
    assert ShrinksTo(m, dv, e);
    assert dv'.keys[p] == dv.keys[p];
    RewriteHolds(m, dv', e);
    forall q | q in dv2.keys ensures KeyOk(r, dv2.meta, q, dv2.keys[q]) {
      assert KeyOk(r, dv'.meta, q, dv'.keys[q]);
    }
    forall k | 0 <= k < |m.sources| && m.sources[k].0 in dv2.keys && m.sources[k].0 !in Lists(dv2.meta)
      ensures Leaving(m, dv2, k)
    {
      assert Leaving(m, dv', k);
      if m.sources[k].0 != p {
        OthersStillLeave(m, dv', e, k);
      }
    }
  }

  /** The meta's write makes unlisted only sources that are leaving. */
  lemma UnlistIsAllowed(c: Claims, r: Rules, d: Doc, m: Moves, dv: DocVec, plan: seq<Shrunk>, ps: seq<(nat, nat)>)
    requires Good(c, r, d, dv) && dv.meta.Some? && r.moves == Some(m) && r.copied.None? && DistinctSources(m)
    requires r.loose == (set x | x in m.sources :: x.0)
    requires ShrinkPlan(m, dv, plan) && Empties(m, dv, plan, |m.sources|)
    requires Ids(ps) <= Ids(dv.meta.value.postings)
    requires forall p :: p in Ids(dv.meta.value.postings) && p !in Ids(ps) ==>
               exists j :: 0 <= j < |plan| && m.sources[plan[j].0].0 == p && plan[j].1 == []
    ensures var dv' := Apply(dv, PutMeta(Meta(dv.meta.value.hash, ps)));
            Good(c, r, d, dv') && Shrinkable(m, r, dv', plan)
  {
    var dv' := Apply(dv, PutMeta(Meta(dv.meta.value.hash, ps)));
    assert HeldSet(dv') == HeldSet(dv);
    SameKeysSamePlan(m, dv, dv', plan);
    forall k | 0 <= k < |m.sources| && m.sources[k].0 in dv'.keys && m.sources[k].0 !in Lists(dv'.meta)
      ensures (k, []) in plan && Leaving(m, dv', k)
    {
      var p := m.sources[k].0;
      assert KeyOk(r, dv.meta, p, dv.keys[p]);
      SameKeysSameLeaving(m, dv, dv', k);
      if p in Lists(dv.meta) {
        var j :| 0 <= j < |plan| && m.sources[plan[j].0].0 == p && plan[j].1 == [];
        assert ShrinksTo(m, dv, plan[j]) && plan[j].0 == k;
      } else {
        assert Leaving(m, dv, k);
      }
    }
    forall p | p in dv'.keys ensures KeyOk(r, dv'.meta, p, dv'.keys[p]) {
      assert KeyOk(r, dv.meta, p, dv.keys[p]);
      if p in Lists(dv.meta) && p !in Lists(dv'.meta) {
        var j :| 0 <= j < |plan| && m.sources[plan[j].0].0 == p && plan[j].1 == [];
        assert ShrinksTo(m, dv, plan[j]);
        assert m.sources[plan[j].0] in m.sources;
      }
    }
  }

  lemma {:induction false} SameKeysSameTotal(m: Moves, dv: DocVec, dv': DocVec, n: nat, b: VectorIndex)
    requires dv'.keys == dv.keys && n <= |m.sources|
    ensures Total(m, dv', n, b) == Total(m, dv, n, b) && AtHome(m, dv', b) == AtHome(m, dv, b)
  {
    if n > 0 {
      SameKeysSameTotal(m, dv, dv', n - 1, b);
    }
  }

  lemma SameKeysSameLeaving(m: Moves, dv: DocVec, dv': DocVec, k: nat)
    requires dv'.keys == dv.keys && k < |m.sources|
    ensures Leaving(m, dv', k) == Leaving(m, dv, k)
  {
    forall b ensures Total(m, dv', k + 1, b) == Total(m, dv, k + 1, b) && AtHome(m, dv', b) == AtHome(m, dv, b) {
      SameKeysSameTotal(m, dv, dv', k + 1, b);
    }
  }

  lemma SameKeysSamePlan(m: Moves, dv: DocVec, dv': DocVec, plan: seq<Shrunk>)
    requires dv'.keys == dv.keys && ShrinkPlan(m, dv, plan)
    ensures ShrinkPlan(m, dv', plan)
  {
    forall j | 0 <= j < |plan| ensures ShrinksTo(m, dv', plan[j]) {
      assert ShrinksTo(m, dv, plan[j]);
      SameKeysSameLeaving(m, dv, dv', plan[j].0);
      forall b ensures AtHome(m, dv', b) == AtHome(m, dv, b) {
        SameKeysSameTotal(m, dv, dv', 0, b);
      }
    }
  }

  // ── One document ──

  /** A reassignment whose copies are made is shrinking its sources. */
  ghost predicate ShrinkingBy(r: Rules, m: Moves) {
    && r.moves == Some(m) && r.copied.None? && r.loose == (set x | x in m.sources :: x.0) && DistinctSources(m)
  }

  /** A document all of whose unlisted keys a plan has emptied lists the rest. */
  lemma AllListed(c: Claims, r: Rules, d: Doc, m: Moves, dv: DocVec, dv': DocVec, plan: seq<Shrunk>)
    requires Good(c, r, d, dv') && ShrinkingBy(r, m) && Shrinkable(m, r, dv, plan) && Partway(m, dv, dv', plan, |plan|)
    ensures Listed(dv')
  {
    forall p | p in dv'.keys ensures p in Lists(dv'.meta) {
      assert KeyOk(r, dv'.meta, p, dv'.keys[p]);
    }
  }

  lemma NothingPlanned(m: Moves, dv: DocVec, plan: seq<Shrunk>)
    requires ShrinkPlan(m, dv, plan)
    ensures plan != [] ==> dv.keys != map[]
  {
    if plan != [] {
      assert ShrinksTo(m, dv, plan[0]);
    }
  }

  /** With nothing to shrink, every key is listed. */
  lemma NothingToShrink(c: Claims, r: Rules, d: Doc, m: Moves, dv: DocVec, plan: seq<Shrunk>)
    requires Good(c, r, d, dv) && ShrinkingBy(r, m)
    requires ShrinkPlan(m, dv, plan) && Empties(m, dv, plan, |m.sources|) && (plan == [] || dv.meta.None?)
    requires KeepsRest(m, dv, plan, |m.sources|)
    ensures Listed(dv) && Shrunken(m, dv, dv)
  {
    assert Keyed(r, dv);
    NothingPlanned(m, dv, plan);
    forall k | 0 <= k < |m.sources|
      ensures HeldAt(dv, m.sources[k].0)
           == Remaining(plan, k, HeldAt(dv, m.sources[k].0))
    {
    }
    forall b ensures Total(m, dv, |m.sources|, b) == Less(Total(m, dv, |m.sources|, b), AtHome(m, dv, b)) {
      KeptIsTotal(m, dv, dv, plan, |m.sources|, b);
    }
    forall p | p in dv.keys ensures p in Lists(dv.meta) {
      assert KeyOk(r, dv.meta, p, dv.keys[p]);
    }
  }

  /** The meta first, and the sizes. */
  method ShrinkMeta(ix: Index, m: Moves, d: Doc, plan: seq<Shrunk>) returns (r: Outcome)
    requires ix.Safe() && Agrees(ix.counts, Now(ix.log)) && ShrinkingBy(ix.R(), m)
    requires At(Now(ix.log), d).meta.Some?
    requires ShrinkPlan(m, At(Now(ix.log), d), plan) && Empties(m, At(Now(ix.log), d), plan, |m.sources|)
    modifies ix`budget, ix`log, ix`counts
    ensures ix.Safe() && !r.Corrupt? && Spent(old(ix.budget), ix.budget, r)
    ensures r.Fine? ==> Agrees(ix.counts, Now(ix.log)) && OnlyDoc(Now(old(ix.log)), Now(ix.log), d)
    ensures r.Fine? ==> Shrinkable(m, ix.R(), At(Now(ix.log), d), plan)
    ensures r.Fine? ==> var (dv, dv') := (At(Now(old(ix.log)), d), At(Now(ix.log), d));
              dv'.keys == dv.keys && dv'.dense == dv.dense && dv'.meta.Some?
                && dv'.meta.value.hash == dv.meta.value.hash
  {
    hide PartsOk, PlanOk, RulesOf, Good, Agrees, Accounts, RecordDelta, Relists, Shrinkable, Empties, ShrinkPlan;
    ghost var was := Now(ix.log);
    var dv := At(Now(ix.log), d);
    PlanIsOfSources(m, dv, plan);
    var ps, delta := Relist(m, dv.meta.value.postings, plan);
    var next := Meta(dv.meta.value.hash, ps);
    assert Good(ix.C(), ix.R(), d, At(ix.log[|ix.log| - 1], d));
    UnlistIsAllowed(ix.C(), ix.R(), d, m, dv, plan, ps);
    ListRecords(dv, next, delta);
    if delta == NO_CHANGE {
      NoChangeSameList(dv.meta.value.postings, ps);
      assert Apply(dv, PutMeta(next)) == dv;
    } else {
      :- LogWrite(ix, d, PutMeta(next));
      RecordAccounts(was, Now(ix.log), d, delta);
      ApplyKeepsAgreement(ix.counts, was, Now(ix.log), delta);
      ix.counts := ApplyDelta(ix.counts, delta);
    }
    return Fine;
  }

  lemma PlanIsOfSources(m: Moves, dv: DocVec, plan: seq<Shrunk>)
    requires ShrinkPlan(m, dv, plan)
    ensures forall j :: 0 <= j < |plan| ==> plan[j].0 < |m.sources|
  {
    forall j | 0 <= j < |plan| ensures plan[j].0 < |m.sources| {
      assert ShrinksTo(m, dv, plan[j]);
    }
  }

  /** One key: what remains, or its deletion. */
  method ShrinkKey(ix: Index, m: Moves, d: Doc, ghost dv: DocVec, plan: seq<Shrunk>, i: nat) returns (r: Outcome)
    requires ix.Safe() && ShrinkingBy(ix.R(), m) && Shrinkable(m, ix.R(), dv, plan) && i < |plan|
    requires forall j :: 0 <= j < |plan| ==> plan[j].0 < |m.sources|
    requires Partway(m, dv, At(Now(ix.log), d), plan, i)
    modifies ix`budget, ix`log
    ensures ix.Safe() && !r.Corrupt? && Spent(old(ix.budget), ix.budget, r)
    ensures r.Fine? ==>
            OnlyDoc(Now(old(ix.log)), Now(ix.log), d) && At(Now(ix.log), d).meta == At(Now(old(ix.log)), d).meta
    ensures r.Fine? ==> Partway(m, dv, At(Now(ix.log), d), plan, i + 1)
  {
    hide PartsOk, PlanOk, RulesOf, Good, ShrinkPlan, Partway;
    var (k, remaining) := plan[i];
    var p := m.sources[k].0;
    assert Good(ix.C(), ix.R(), d, At(ix.log[|ix.log| - 1], d));
    RewriteIsAllowed(ix.C(), ix.R(), d, m, dv, At(Now(ix.log), d), plan, i);
    PartwayMore(m, dv, At(Now(ix.log), d), plan, i);
    if remaining == [] {
      r := LogWrite(ix, d, DeleteKey(p));
    } else {
      r := LogWrite(ix, d, PutKey(p, remaining));
    }
  }

  /** A document after a shrink: of each moving chunk the sources together have given
      up as many copies as there are where it moves to, no more and no fewer; other
      chunks, and other postings, are as they were. */
  ghost predicate Shrunken(m: Moves, dv: DocVec, dv': DocVec) {
    && (forall b :: Total(m, dv', |m.sources|, b) == Less(Total(m, dv, |m.sources|, b), AtHome(m, dv, b)))
    && (forall k, b :: 0 <= k < |m.sources| && m.To(k, b).Some? ==> AtHome(m, dv', b) == AtHome(m, dv, b))
    && (forall k, b :: 0 <= k < |m.sources| && m.To(k, b).None? ==>
          Count(HeldAt(dv', m.sources[k].0), b) == Count(HeldAt(dv, m.sources[k].0), b))
    && (forall p :: p !in SourceIds(Some(m)) ==> (p in dv'.keys <==> p in dv.keys) && HeldAt(dv', p) == HeldAt(dv, p))
    && dv'.dense == dv.dense && ContentOf(dv').hash == ContentOf(dv).hash
  }

  lemma {:induction false} KeptIsTotal(m: Moves, dv: DocVec, dv': DocVec, plan: seq<Shrunk>, n: nat, b: VectorIndex)
    requires n <= |m.sources|
    requires forall k :: 0 <= k < |m.sources| ==>
             HeldAt(dv', m.sources[k].0) == Remaining(plan, k, HeldAt(dv, m.sources[k].0))
    ensures Total(m, dv', n, b) == TotalKept(m, dv, plan, n, b)
  {
    if n > 0 {
      KeptIsTotal(m, dv, dv', plan, n - 1, b);
    }
  }

  /** A chunk that does not move stays under its source. */
  lemma {:induction false} RemainingKeeps(m: Moves, dv: DocVec, plan: seq<Shrunk>, k: nat, b: VectorIndex)
    requires (forall j :: 0 <= j < |plan| ==> ShrinksTo(m, dv, plan[j])) && k < |m.sources| && m.To(k, b).None?
    ensures Count(Remaining(plan, k, HeldAt(dv, m.sources[k].0)), b) == Count(HeldAt(dv, m.sources[k].0), b)
  {
    if plan != [] {
      var e := plan[|plan| - 1];
      assert ShrinksTo(m, dv, e);
      if e.0 != k {
        RemainingKeeps(m, dv, plan[..|plan| - 1], k, b);
      }
    }
  }

  /** `dv` as it was, `listed` once its meta was written, `dv'` once its keys were. */
  lemma PlanShrinks(m: Moves, dv: DocVec, listed: DocVec, dv': DocVec, plan: seq<Shrunk>)
    requires listed.keys == dv.keys && listed.dense == dv.dense && ContentOf(listed).hash == ContentOf(dv).hash
    requires KeepsRest(m, dv, plan, |m.sources|) && ShrinkPlan(m, dv, plan)
    requires forall j :: 0 <= j < |plan| ==> plan[j].0 < |m.sources|
    requires Partway(m, listed, dv', plan, |plan|)
    ensures Shrunken(m, dv, dv')
  {
    hide AtHome;
    assert plan[..|plan|] == plan;
    forall k ensures HeldAt(listed, k) == HeldAt(dv, k) {
    }
    forall k, b | 0 <= k < |m.sources| && m.To(k, b).None?
      ensures Count(HeldAt(dv', m.sources[k].0), b) == Count(HeldAt(dv, m.sources[k].0), b)
    {
      RemainingKeeps(m, dv, plan, k, b);
    }
    forall b ensures Total(m, dv', |m.sources|, b) == Less(Total(m, dv, |m.sources|, b), AtHome(m, dv, b))
      && AtHome(m, listed, b) == AtHome(m, dv, b) {
      KeptIsTotal(m, dv, dv', plan, |m.sources|, b);
      SameKeysSameTotal(m, dv, listed, 0, b);
    }
  }

  /** `shrink_sources`, for one document under its lock: its sources give up what is
      elsewhere, and afterwards its meta lists all its keys. */
  method ShrinkDoc(ix: Index, m: Moves, d: Doc) returns (r: Outcome)
    requires ix.Safe() && Agrees(ix.counts, Now(ix.log)) && ShrinkingBy(ix.R(), m)
    modifies ix`budget, ix`log, ix`counts
    ensures ix.Safe() && !r.Corrupt? && Spent(old(ix.budget), ix.budget, r)
    ensures r.Fine? ==> Agrees(ix.counts, Now(ix.log)) && OnlyDoc(Now(old(ix.log)), Now(ix.log), d)
    ensures r.Fine? ==> Listed(At(Now(ix.log), d)) && Shrunken(m, At(Now(old(ix.log)), d), At(Now(ix.log), d))
  {
    hide PartsOk, PlanOk, RulesOf, Good, Agrees, ShrinkPlan, Empties, Partway, Shrinkable, ShrinkingBy, Listed,
         Shrunken, KeepsRest, HeldSet;
    ghost var first := At(Now(ix.log), d);
    var plan := PlanShrink(m, At(Now(ix.log), d));
    PlanIsOfSources(m, At(Now(ix.log), d), plan);
    assert Good(ix.C(), ix.R(), d, At(ix.log[|ix.log| - 1], d));
    if plan == [] || At(Now(ix.log), d).meta.None? {
      NothingToShrink(ix.C(), ix.R(), d, m, At(Now(ix.log), d), plan);
      return Fine;
    }
    :- ShrinkMeta(ix, m, d, plan);
    ghost var dv := At(Now(ix.log), d);
    NothingRewritten(m, dv, plan);
    ghost var was := Now(old(ix.log));
    for i := 0 to |plan|
      invariant Spent(old(ix.budget), ix.budget, Fine)
      invariant ix.Safe() && Agrees(ix.counts, Now(ix.log)) && OnlyDoc(was, Now(ix.log), d)
      invariant Partway(m, dv, At(Now(ix.log), d), plan, i)
    {
      ghost var before := Now(ix.log);
      :- ShrinkKey(ix, m, d, dv, plan, i);
      SameMetaAgrees(ix.counts, before, Now(ix.log), d);
    }
    assert Good(ix.C(), ix.R(), d, At(ix.log[|ix.log| - 1], d));
    AllListed(ix.C(), ix.R(), d, m, dv, At(Now(ix.log), d), plan);
    PlanShrinks(m, first, dv, At(Now(ix.log), d), plan);
    return Fine;
  }

  lemma NothingRewritten(m: Moves, dv: DocVec, plan: seq<Shrunk>)
    requires forall j :: 0 <= j < |plan| ==> plan[j].0 < |m.sources|
    requires exists r :: Shrinkable(m, r, dv, plan)
    ensures Partway(m, dv, dv, plan, 0)
  {
    forall j | 0 <= j < |plan| ensures m.sources[plan[j].0].0 in dv.keys {
      assert ShrinksTo(m, dv, plan[j]);
    }
  }
}
