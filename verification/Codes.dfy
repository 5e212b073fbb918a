/** Chunk codes, and the greedy duplicate-aware matching that decides what a
    destination key already holds. */
module Codes {

  datatype Option<+T> = None | Some(value: T)

  datatype Style = SingleBit | MultiBit(bits: nat) | BitPlanes(bits: nat) {
    /** Whether this is a chunk (Pass-1) code, stored in the sparse namespace. */
    predicate Pass1() {
      SingleBit? || BitPlanes?
    }
  }

  /** A stored code. `addition`, `scaling` and `errorBound` are the bit patterns
      of the three floats: codes are compared bit by bit, never by value. */
  datatype VectorIndex = VectorIndex(
    clusterId: nat, centreId: nat, style: Style, addition: nat, scaling: nat, errorBound: nat, packed: seq<nat>)

  /** Whether two codes are the same chunk: everything but the posting they are
      filed under. */
  predicate SameCode(a: VectorIndex, b: VectorIndex) {
    && a.centreId == b.centreId
    && a.style == b.style
    && a.addition == b.addition
    && a.scaling == b.scaling
    && a.errorBound == b.errorBound
    && a.packed == b.packed
  }

  /** The chunk a code stands for: the code without its posting. */
  function Bare(c: VectorIndex): VectorIndex {
    c.(clusterId := 0)
  }

  lemma SameCodeIsSameChunk(a: VectorIndex, b: VectorIndex)
    ensures SameCode(a, b) <==> Bare(a) == Bare(b)
  {
  }

  /** How many of `codes` are the chunk `b`. */
  ghost function Count(codes: seq<VectorIndex>, b: VectorIndex): nat {
    if codes == [] then 0 else (if Bare(codes[0]) == b then 1 else 0) + Count(codes[1..], b)
  }

  /** The chunks among `codes`. */
  ghost function Held(codes: seq<VectorIndex>): set<VectorIndex> {
    set c | c in codes :: Bare(c)
  }

  lemma {:induction false} CountConcat(a: seq<VectorIndex>, b: seq<VectorIndex>, x: VectorIndex)
    ensures Count(a + b, x) == Count(a, x) + Count(b, x)
  {
    if a == [] {
      assert a + b == b;
    } else {
      assert (a + b)[1..] == a[1..] + b;
      CountConcat(a[1..], b, x);
    }
  }

  lemma {:induction false} CountIsHeld(a: seq<VectorIndex>, x: VectorIndex)
    ensures Count(a, x) > 0 <==> x in Held(a)
  {
    if a != [] {
      CountIsHeld(a[1..], x);
      assert forall c :: c in a <==> c == a[0] || c in a[1..];
    }
  }

  // ── matched_with ──

  /** The first unused copy of `w` in `held` at or after `i`, or `|held|`. */
  function FirstFree(w: VectorIndex, held: seq<VectorIndex>, used: seq<bool>, i: nat): (r: nat)
    requires |used| == |held| && i <= |held|
    ensures i <= r <= |held|
    ensures r < |held| ==> !used[r] && SameCode(w, held[r])
    ensures forall j :: i <= j < r ==> used[j] || !SameCode(w, held[j])
    decreases |held| - i
  {
    if i == |held| || (!used[i] && SameCode(w, held[i])) then i else FirstFree(w, held, used, i + 1)
  }

  /** What matching `wanted` one by one yields: which found a copy, and the
      copies claimed afterwards. */
  function Matching(wanted: seq<VectorIndex>, held: seq<VectorIndex>, used: seq<bool>): (r: (seq<bool>, seq<bool>))
    requires |used| == |held|
    ensures |r.0| == |wanted| && |r.1| == |held|
  {
    if wanted == [] then ([], used)
    else
      var i := FirstFree(wanted[0], held, used, 0);
      var rest := Matching(wanted[1..], held, if i < |held| then used[i := true] else used);
      ([i < |held|] + rest.0, rest.1)
  }

  /** Copies of `b` in `held` no one has claimed. */
  ghost function Free(held: seq<VectorIndex>, used: seq<bool>, b: VectorIndex): nat
    requires |used| == |held|
  {
    if held == [] then 0
    else (if !used[0] && Bare(held[0]) == b then 1 else 0) + Free(held[1..], used[1..], b)
  }

  /** How many of the `wanted` copies of `b` the flags say were found. */
  ghost function Found(wanted: seq<VectorIndex>, flags: seq<bool>, b: VectorIndex): nat
    requires |flags| == |wanted|
  {
    if wanted == [] then 0
    else (if flags[0] && Bare(wanted[0]) == b then 1 else 0) + Found(wanted[1..], flags[1..], b)
  }

  function Min(a: nat, b: nat): nat { if a < b then a else b }

  function Max(a: nat, b: nat): nat { if a < b then b else a }

  /** Claiming one free copy takes exactly one from its class. */
  lemma {:induction false} FreeAfterClaim(held: seq<VectorIndex>, used: seq<bool>, i: nat, b: VectorIndex)
    requires |used| == |held| && i < |held| && !used[i]
    ensures Free(held, used, b) == Free(held, used[i := true], b) + (if Bare(held[i]) == b then 1 else 0)
  {
    if i == 0 {
      assert used[0 := true][1..] == used[1..];
    } else {
      assert used[i := true][1..] == used[1..][i - 1 := true];
      FreeAfterClaim(held[1..], used[1..], i - 1, b);
    }
  }

  lemma {:induction false} NoneFree(held: seq<VectorIndex>, used: seq<bool>, w: VectorIndex)
    requires |used| == |held|
    requires forall j :: 0 <= j < |held| ==> used[j] || !SameCode(w, held[j])
    ensures Free(held, used, Bare(w)) == 0
  {
    if held != [] {
      SameCodeIsSameChunk(w, held[0]);
      assert forall j :: 0 <= j < |held| - 1 ==> used[1..][j] == used[j + 1] && held[1..][j] == held[j + 1];
      NoneFree(held[1..], used[1..], w);
    }
  }

  /** Greedy matching pairs, in every class of equal codes, as many as it can:
      the smaller of what is wanted and what is unclaimed; the claims it adds
      are exactly the copies it reports. */
  lemma {:induction false} MatchingIsMaximal(wanted: seq<VectorIndex>, held: seq<VectorIndex>, used: seq<bool>,
                                             b: VectorIndex)
    requires |used| == |held|
    ensures var (flags, used') := Matching(wanted, held, used);
            && Found(wanted, flags, b) == Min(Count(wanted, b), Free(held, used, b))
            && Free(held, used', b) + Found(wanted, flags, b) == Free(held, used, b)
            && forall j :: 0 <= j < |held| && used[j] ==> used'[j]
  {
    if wanted != [] {
      var w := wanted[0];
      var i := FirstFree(w, held, used, 0);
      var used1 := if i < |held| then used[i := true] else used;
      MatchingIsMaximal(wanted[1..], held, used1, b);
      var (flags, _) := Matching(wanted, held, used);
      assert flags[1..] == Matching(wanted[1..], held, used1).0;
      if i < |held| {
        SameCodeIsSameChunk(w, held[i]);
        FreeAfterClaim(held, used, i, b);
      } else {
        NoneFree(held, used, w);
      }
    }
  }

  /** Two calls that share `used` decide as one call on both lists would, so no
      copy is ever claimed twice. */
  lemma {:induction false} SharedClaims(w1: seq<VectorIndex>, w2: seq<VectorIndex>, held: seq<VectorIndex>,
                                        used: seq<bool>)
    requires |used| == |held|
    ensures var first := Matching(w1, held, used);
            var second := Matching(w2, held, first.1);
            Matching(w1 + w2, held, used) == (first.0 + second.0, second.1)
  {
    if w1 == [] {
      assert w1 + w2 == w2 && [] + Matching(w2, held, used).0 == Matching(w2, held, used).0;
    } else {
      var i := FirstFree(w1[0], held, used, 0);
      var used1 := if i < |held| then used[i := true] else used;
      assert (w1 + w2)[1..] == w1[1..] + w2;
      SharedClaims(w1[1..], w2, held, used1);
      var rest := Matching(w1[1..], held, used1);
      assert (w1 + w2)[0] == w1[0];
      assert ([i < |held|] + rest.0) + Matching(w2, held, rest.1).0
        == [i < |held|] + (rest.0 + Matching(w2, held, rest.1).0);
    }
  }

  /** The first copy no one has claimed. */
  method FindFree(w: VectorIndex, held: seq<VectorIndex>, used: array<bool>) returns (i: nat)
    requires used.Length == |held|
    ensures i == FirstFree(w, held, used[..], 0)
  {
    i := 0;
    while i < |held| && !(!used[i] && SameCode(w, held[i]))
      invariant i <= |held| && FirstFree(w, held, used[..], 0) == FirstFree(w, held, used[..], i)
    {
      i := i + 1;
    }
  }

  lemma MatchingCons(w: VectorIndex, rest: seq<VectorIndex>, held: seq<VectorIndex>, used: seq<bool>)
    requires |used| == |held|
    ensures var i := FirstFree(w, held, used, 0);
            var next := Matching(rest, held, if i < |held| then used[i := true] else used);
            Matching([w] + rest, held, used) == ([i < |held|] + next.0, next.1)
  {
    hide FirstFree;
    assert ([w] + rest)[1..] == rest && ([w] + rest)[0] == w;
  }

  lemma MatchingStep(found: seq<bool>, w: VectorIndex, rest: seq<VectorIndex>, held: seq<VectorIndex>, used: seq<bool>)
    requires |used| == |held|
    ensures var i := FirstFree(w, held, used, 0);
            var used' := if i < |held| then used[i := true] else used;
            && found + Matching([w] + rest, held, used).0 == found + [i < |held|] + Matching(rest, held, used').0
            && Matching([w] + rest, held, used).1 == Matching(rest, held, used').1
  {
    hide Matching, FirstFree;
    MatchingCons(w, rest, held, used);
    var i := FirstFree(w, held, used, 0);
    Regroup(found, i < |held|, Matching(rest, held, if i < |held| then used[i := true] else used).0);
  }

  lemma Regroup(a: seq<bool>, x: bool, b: seq<bool>)
    ensures a + ([x] + b) == a + [x] + b
  {
  }

  /** `matched_with`: the flags live in an array the caller shares between calls. */
  method MatchedWith(wanted: seq<VectorIndex>, held: seq<VectorIndex>, used: array<bool>) returns (found: seq<bool>)
    requires used.Length == |held|
    modifies used
    ensures (found, used[..]) == Matching(wanted, held, old(used[..]))
  {
    hide Matching;
    found := [];
    ghost var was := used[..];
    assert wanted[0..] == wanted && [] + Matching(wanted, held, was).0 == Matching(wanted, held, was).0;
    for k := 0 to |wanted|
      invariant |found| == k
      invariant Matching(wanted, held, was) ==
                (found + Matching(wanted[k..], held, used[..]).0, Matching(wanted[k..], held, used[..]).1)
    {
      var i := FindFree(wanted[k], held, used);
      assert wanted[k..] == [wanted[k]] + wanted[k + 1..];
      MatchingStep(found, wanted[k], wanted[k + 1..], held, used[..]);
      ghost var before := used[..];
      if i < |held| {
        used[i] := true;
        assert used[..] == before[i := true];
      }
      found := found + [i < |held|];
    }
    assert wanted[|wanted|..] == [];
    NothingMatched(held, used[..]);
    assert found + [] == found;
  }

  lemma NothingMatched(held: seq<VectorIndex>, used: seq<bool>)
    requires |used| == |held|
    ensures Matching([], held, used) == ([], used)
  {
  }

  /** `matched`: a fresh set of flags. */
  method Matched(wanted: seq<VectorIndex>, held: seq<VectorIndex>) returns (found: seq<bool>)
    ensures found == Matching(wanted, held, Unused(|held|)).0
  {
    var used := new bool[|held|](_ => false);
    assert used[..] == Unused(|held|);
    found := MatchedWith(wanted, held, used);
  }

  function Unused(n: nat): (r: seq<bool>)
    ensures |r| == n && forall i :: 0 <= i < n ==> !r[i]
  {
    seq(n, _ => false)
  }

  // ── What a copy leaves at its destination ──

  /** The codes whose flag is down. */
  function Missing(codes: seq<VectorIndex>, flags: seq<bool>): seq<VectorIndex>
    requires |flags| == |codes|
  {
    if codes == [] then []
    else (if flags[0] then [] else [codes[0]]) + Missing(codes[1..], flags[1..])
  }

  /** A destination that holds `held`, after `codes` are copied into it: only
      the copies it lacks are added. */
  function Merged(held: seq<VectorIndex>, codes: seq<VectorIndex>): seq<VectorIndex> {
    held + Missing(codes, Matching(codes, held, Unused(|held|)).0)
  }

  lemma {:induction false} MissingCounts(codes: seq<VectorIndex>, flags: seq<bool>, b: VectorIndex)
    requires |flags| == |codes|
    ensures Count(Missing(codes, flags), b) + Found(codes, flags, b) == Count(codes, b)
    ensures forall c :: c in Missing(codes, flags) ==> c in codes
    ensures |Missing(codes, flags)| <= |codes|
  {
    if codes != [] {
      MissingCounts(codes[1..], flags[1..], b);
      CountConcat(if flags[0] then [] else [codes[0]], Missing(codes[1..], flags[1..]), b);
    }
  }

  lemma {:induction false} UnusedIsAllFree(held: seq<VectorIndex>, b: VectorIndex)
    ensures Free(held, Unused(|held|), b) == Count(held, b)
  {
    if held != [] {
      assert Unused(|held|)[1..] == Unused(|held[1..]|);
      UnusedIsAllFree(held[1..], b);
    }
  }

  /** A destination ends with the larger of what it held and what moved, in
      every class of equal codes: three identical chunks need three copies, and
      copies already there are never doubled. */
  lemma MergedIsMultisetMaximum(held: seq<VectorIndex>, codes: seq<VectorIndex>, b: VectorIndex)
    ensures Count(Merged(held, codes), b) == Max(Count(held, b), Count(codes, b))
  {
    var flags := Matching(codes, held, Unused(|held|)).0;
    MatchingIsMaximal(codes, held, Unused(|held|), b);
    UnusedIsAllFree(held, b);
    MissingCounts(codes, flags, b);
    CountConcat(held, Missing(codes, flags), b);
  }

  /** So the destination holds exactly the chunks of both. */
  lemma MergedHolds(held: seq<VectorIndex>, codes: seq<VectorIndex>)
    ensures Held(Merged(held, codes)) == Held(held) + Held(codes)
  {
    forall b ensures b in Held(Merged(held, codes)) <==> b in Held(held) + Held(codes) {
      MergedIsMultisetMaximum(held, codes, b);
      CountIsHeld(Merged(held, codes), b);
      CountIsHeld(held, b);
      CountIsHeld(codes, b);
    }
  }

  lemma {:induction false} AllFound(codes: seq<VectorIndex>, flags: seq<bool>)
    requires |flags| == |codes|
    requires forall b :: Count(Missing(codes, flags), b) == 0
    ensures Missing(codes, flags) == []
  {
    if Missing(codes, flags) != [] {
      var c := Missing(codes, flags)[0];
      assert Count(Missing(codes, flags), Bare(c)) > 0;
    }
  }

  /** Redoing a copy adds nothing. */
  lemma RedoneCopyAddsNothing(held: seq<VectorIndex>, codes: seq<VectorIndex>)
    ensures Merged(Merged(held, codes), codes) == Merged(held, codes)
  {
    var once := Merged(held, codes);
    var flags := Matching(codes, once, Unused(|once|)).0;
    forall b ensures Count(Missing(codes, flags), b) == 0 {
      MergedIsMultisetMaximum(held, codes, b);
      MatchingIsMaximal(codes, once, Unused(|once|), b);
      UnusedIsAllFree(once, b);
      MissingCounts(codes, flags, b);
    }
    AllFound(codes, flags);
  }

  /** The codes a copy adds are codes that were to be copied. */
  lemma MergedAdds(held: seq<VectorIndex>, codes: seq<VectorIndex>)
    ensures |Merged(held, codes)| >= |held| && Merged(held, codes)[..|held|] == held
    ensures forall c :: c in Merged(held, codes) ==> c in held || c in codes
  {
    var flags := Matching(codes, held, Unused(|held|)).0;
    MissingCounts(codes, flags, VectorIndex(0, 0, SingleBit, 0, 0, 0, []));
  }

  // ── Grouping by posting ──

  /** The codes filed under `p`, in order. */
  function FiledUnder(codes: seq<VectorIndex>, p: nat): (r: seq<VectorIndex>)
    ensures forall c :: c in r <==> c in codes && c.clusterId == p
  {
    if codes == [] then []
    else (if codes[0].clusterId == p then [codes[0]] else []) + FiledUnder(codes[1..], p)
  }

  /** `groups` files every code of `codes` under its posting, in order, and nothing
      else. */
  ghost predicate Groups(codes: seq<VectorIndex>, groups: map<nat, seq<VectorIndex>>) {
    && (forall p :: p in groups ==> groups[p] == FiledUnder(codes, p) && groups[p] != [])
    && (forall c :: c in codes ==> c.clusterId in groups)
  }

  function FileUnder(groups: map<nat, seq<VectorIndex>>, c: VectorIndex): map<nat, seq<VectorIndex>> {
    groups[c.clusterId := (if c.clusterId in groups then groups[c.clusterId] else []) + [c]]
  }

  lemma {:induction false} FiledUnderSnoc(codes: seq<VectorIndex>, c: VectorIndex, p: nat)
    ensures FiledUnder(codes + [c], p) == FiledUnder(codes, p) + (if c.clusterId == p then [c] else [])
  {
    if codes == [] {
      assert codes + [c] == [c] && FiledUnder([c][1..], p) == [];
    } else {
      assert (codes + [c])[1..] == codes[1..] + [c];
      FiledUnderSnoc(codes[1..], c, p);
    }
  }

  lemma NoneUnder(codes: seq<VectorIndex>, p: nat)
    requires forall c :: c in codes ==> c.clusterId != p
    ensures FiledUnder(codes, p) == []
  {
  }

  lemma GroupsSnoc(codes: seq<VectorIndex>, c: VectorIndex, groups: map<nat, seq<VectorIndex>>)
    requires Groups(codes, groups)
    ensures Groups(codes + [c], FileUnder(groups, c))
  {
    forall p | p in FileUnder(groups, c) ensures FileUnder(groups, c)[p] == FiledUnder(codes + [c], p) {
      FiledUnderSnoc(codes, c, p);
      if p !in groups {
        NoneUnder(codes, p);
      }
    }
  }

  /** Each group is not empty and its codes are of its posting. */
  lemma GroupsMembers(codes: seq<VectorIndex>, groups: map<nat, seq<VectorIndex>>)
    requires Groups(codes, groups)
    ensures forall p :: p in groups ==> forall c :: c in groups[p] <==> c in codes && c.clusterId == p
    ensures forall p :: p in groups ==> exists c :: c in codes && c.clusterId == p
    ensures forall c :: c in codes ==> c.clusterId in groups && c in groups[c.clusterId]
  {
    forall p | p in groups ensures exists c :: c in codes && c.clusterId == p {
      assert groups[p][0] in FiledUnder(codes, p);
    }
  }

  lemma NoGroups()
    ensures Groups([], map[])
  {
  }

  method Group(codes: seq<VectorIndex>) returns (groups: map<nat, seq<VectorIndex>>)
    ensures Groups(codes, groups)
  {
    hide Groups, FileUnder;
    groups := map[];
    NoGroups();
    for k := 0 to |codes|
      invariant Groups(codes[..k], groups)
    {
      GroupsSnoc(codes[..k], codes[k], groups);
      groups := FileUnder(groups, codes[k]);
      assert codes[..k + 1] == codes[..k] + [codes[k]];
    }
    assert codes[..|codes|] == codes;
  }

  /** The codes of one kind, in order. */
  function OfPass1(codes: seq<VectorIndex>): (r: seq<VectorIndex>)
    ensures forall c :: c in r <==> c in codes && c.style.Pass1()
  {
    if codes == [] then []
    else if codes[0].style.Pass1() then [codes[0]] + OfPass1(codes[1..])
    else OfPass1(codes[1..])
  }

  function OfDense(codes: seq<VectorIndex>): (r: seq<VectorIndex>)
    ensures forall c :: c in r <==> c in codes && c.style.MultiBit?
  {
    if codes == [] then []
    else if codes[0].style.MultiBit? then [codes[0]] + OfDense(codes[1..])
    else OfDense(codes[1..])
  }
}
