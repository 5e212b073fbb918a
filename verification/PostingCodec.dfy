/** A posting's row as bytes, in the form written now and the seed-only one
    written before (`encode_posting`, `decode_posting`). A routing centroid's
    floats are their bit patterns, four little-endian bytes each. */
module PostingCodec {
  import opened Bytes
  import opened Codes
  import opened Partition

  const POSTING_ROW_V2: byte := 0xB2
  const NO_PARENT := 0xFFFF_FFFF

  /** A posting as a row holds it. */
  datatype Stored = Stored(routing: seq<nat>, centreId: nat, state: PostingState, parent: Option<nat>, origin: Origin) {
    /** What is stored of it: a retired posting goes without its centroid. */
    function Row(): Stored {
      if state.Retired? then this.(routing := []) else this
    }

    /** Ids and floats of 32 bits. */
    predicate HasWidth() {
      && Fits(centreId, 4) && AllFit(routing) && (parent.Some? ==> Fits(parent.value, 4))
    }
  }

  function StateByte(s: PostingState): byte {
    match s case Active => 0 case Draining => 1 case Retired => 2
  }

  function StateOf(b: byte): Option<PostingState> {
    if b == 0 then Some(Active) else if b == 1 then Some(Draining) else if b == 2 then Some(Retired) else None
  }

  function OriginByte(o: Origin): byte {
    match o case Root => 0 case Seed => 1 case Half => 2 case Rebuilt => 3
  }

  function OriginOf(b: byte): Option<Origin> {
    if b == 0 then Some(Root) else if b == 1 then Some(Seed) else if b == 2 then Some(Half)
      else if b == 3 then Some(Rebuilt) else None
  }

  function Reversed(s: seq<byte>): (r: seq<byte>)
    ensures |r| == |s| && forall i :: 0 <= i < |s| ==> r[i] == s[|s| - 1 - i]
  {
    seq(|s|, i requires 0 <= i < |s| => s[|s| - 1 - i])
  }

  function Floats(v: seq<nat>): (r: seq<byte>)
    ensures |r| == 4 * |v|
  {
    if v == [] then [] else Reversed(Be(v[0], 4)) + Floats(v[1..])
  }

  function FromFloats(b: seq<byte>): (r: seq<nat>)
    requires |b| % 4 == 0
    ensures 4 * |r| == |b|
  {
    if b == [] then [] else [FromBe(Reversed(b[..4]))] + FromFloats(b[4..])
  }

  lemma {:induction false} FromFloatsOfFloats(v: seq<nat>)
    requires AllFit(v)
    ensures FromFloats(Floats(v)) == v
  {
    if v != [] {
      var b := Floats(v);
      assert b[..4] == Reversed(Be(v[0], 4)) && b[4..] == Floats(v[1..]);
      assert Reversed(b[..4]) == Be(v[0], 4);
      FromBeOfBe(v[0], 4);
      FromFloatsOfFloats(v[1..]);
    }
  }

  lemma {:induction false} FloatsOfFromFloats(b: seq<byte>)
    requires |b| % 4 == 0
    ensures Floats(FromFloats(b)) == b
  {
    if b != [] {
      FloatsOfFromFloats(b[4..]);
      BeOfFromBe(Reversed(b[..4]));
      assert Reversed(Reversed(b[..4])) == b[..4];
      assert FromFloats(b)[1..] == FromFloats(b[4..]);
      assert b == b[..4] + b[4..];
    }
  }

  function ParentId(p: Stored): nat { if p.parent.Some? then p.parent.value else NO_PARENT }

  function Header(p: Stored): (r: seq<byte>)
    ensures |r| == 11
  {
    [POSTING_ROW_V2] + Be(p.centreId, 4) + [StateByte(p.state)] + Be(ParentId(p), 4) + [OriginByte(p.origin)]
  }

  /** `encode_posting`. */
  function Encode(p: Stored): seq<byte> {
    Header(p) + Floats(p.Row().routing)
  }

  /** The row written before: always a seed, without parent or origin. */
  function EncodeSeed(p: Stored): seq<byte> {
    Be(p.centreId, 4) + [StateByte(p.state)] + Floats(p.routing)
  }

  /** Whether a row is of the current form. */
  predicate IsCurrent(v: seq<byte>) {
    |v| >= 11 && v[0] == POSTING_ROW_V2 && (|v| - 11) % 4 == 0
  }

  function Decode(v: seq<byte>): Option<Stored> {
    if IsCurrent(v) then
      var parent := FromBe(v[6..10]);
      var state, origin := StateOf(v[5]), OriginOf(v[10]);
      if state.None? || origin.None? then None
      else Some(Stored(FromFloats(v[11..]), FromBe(v[1..5]), state.value, if parent == NO_PARENT then None
        else Some(parent), origin.value))
    else if |v| >= 5 && (|v| - 5) % 4 == 0 then
      var state := StateOf(v[4]);
      if state.None? then None else Some(Stored(FromFloats(v[5..]), FromBe(v[..4]), state.value, None, Seed))
    else None
  }

  lemma HeaderParts(p: Stored)
    ensures var v := Encode(p);
            && |v| == 11 + 4 * |p.Row().routing| && v[0] == POSTING_ROW_V2
            && v[1..5] == Be(p.centreId, 4) && v[5] == StateByte(p.state)
            && v[6..10] == Be(ParentId(p), 4) && v[10] == OriginByte(p.origin)
            && v[11..] == Floats(p.Row().routing)
  {
    var v, h := Encode(p), Header(p);
    assert v[1..5] == h[1..5] == Be(p.centreId, 4);
    assert v[6..10] == h[6..10] == Be(ParentId(p), 4);
    assert v[0] == h[0] && v[5] == h[5] && v[10] == h[10];
  }

  /** Where a row's parts are, and by which numbers its state and origin go; a float's
      bytes, least significant first. */
  lemma RowLayout(p: Stored, k: nat)
    ensures var v := Encode(p);
            && |v| == 11 + (if p.state.Retired? then 0 else 4 * |p.routing|)
            && v[0] == 0xB2 && v[1..5] == Be(p.centreId, 4)
            && v[5] == (match p.state case Active => 0 case Draining => 1 case Retired => 2)
            && v[6..10] == Be(if p.parent.Some? then p.parent.value else 0xFFFF_FFFF, 4)
            && v[10] == (match p.origin case Root => 0 case Seed => 1 case Half => 2 case Rebuilt => 3)
            && (!p.state.Retired? && k < |p.routing| ==>
                  var f := Be(p.routing[k], 4); v[11 + 4 * k..15 + 4 * k] == [f[3], f[2], f[1], f[0]])
  {
    HeaderParts(p);
    if !p.state.Retired? && k < |p.routing| {
      FloatAt(p.routing, k);
      assert Encode(p)[11 + 4 * k..15 + 4 * k] == Floats(p.routing)[4 * k..4 * k + 4];
    }
  }

  lemma {:induction false} FloatAt(v: seq<nat>, k: nat)
    requires k < |v|
    ensures Floats(v)[4 * k..4 * k + 4] == Reversed(Be(v[k], 4))
  {
    if k > 0 {
      FloatAt(v[1..], k - 1);
      assert Floats(v)[4..] == Floats(v[1..]);
      assert Floats(v)[4 * k..4 * k + 4] == Floats(v)[4..][4 * (k - 1)..4 * (k - 1) + 4];
    }
  }

  /** A row reads back as the posting, without a retired one's centroid, if and
      only if its parent is not the id that stands for none; that one reads back
      without its parent. */
  lemma RoundTripIff(p: Stored)
    requires p.HasWidth()
    ensures Decode(Encode(p)) == Some(p.Row()) <==> p.parent != Some(NO_PARENT)
    ensures p.parent == Some(NO_PARENT) ==> Decode(Encode(p)) == Some(p.Row().(parent := None))
  {
    hide Be, Fits, Floats;
    HeaderParts(p);
    FitsIsBelow(ParentId(p));
    FromBeOfBe(ParentId(p), 4);
    FromBeOfBe(p.centreId, 4);
    FromFloatsOfFloats(p.Row().routing);
  }

  /** A seed row never passes for a current one, whatever its centre id, and
      reads back as the seed it was. */
  lemma SeedRowsReadBack(p: Stored)
    requires p.HasWidth() && p.parent.None? && p.origin == Seed
    ensures !IsCurrent(EncodeSeed(p)) && Decode(EncodeSeed(p)) == Some(p)
  {
    var v := EncodeSeed(p);
    assert v[..4] == Be(p.centreId, 4) && v[4] == StateByte(p.state) && v[5..] == Floats(p.routing);
    assert |v| == 5 + 4 * |p.routing|;
    FromBeOfBe(p.centreId, 4);
    FromFloatsOfFloats(p.routing);
  }

  /** A current row that is accepted is what its posting is written as, unless it
      is a retired posting's that kept a centroid. */
  lemma EncodeDecode(v: seq<byte>)
    requires IsCurrent(v) && Decode(v).Some?
    requires Decode(v).value.state.Retired? ==> |v| == 11
    ensures Encode(Decode(v).value) == v
  {
    var p := Decode(v).value;
    BeOfFromBe(v[1..5]);
    BeOfFromBe(v[6..10]);
    FloatsOfFromFloats(v[11..]);
    assert FromBe(v[6..10]) == ParentId(p);
    assert v == [v[0]] + v[1..5] + [v[5]] + v[6..10] + [v[10]] + v[11..];
  }
}
