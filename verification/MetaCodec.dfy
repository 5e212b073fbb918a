/** A document's index record as bytes, in the form written now and two earlier
    ones (`encode_sparse_meta`, `decode_sparse_meta`). */
module MetaCodec {
  import opened Bytes
  import opened Codes
  import V = Vectors

  type Meta = V.Meta

  /** How wide an entry is: with four-byte chunk counts, two-byte ones, none. */
  datatype Width = Wide | Narrow | Bare {
    function Bytes(): nat { if Wide? then 8 else if Narrow? then 6 else 4 }
  }

  function EntryBytes(w: Width, e: (nat, nat)): (r: seq<byte>)
    ensures |r| == w.Bytes()
  {
    match w
    case Wide => Be(e.0, 4) + Be(e.1, 4)
    case Narrow => Be(e.0, 4) + Be(e.1, 2)
    case Bare => Be(e.0, 4)
  }

  function EntryOf(w: Width, b: seq<byte>): (nat, nat)
    requires |b| == w.Bytes()
  {
    (FromBe(b[..4]), if w.Bare? then 0 else FromBe(b[4..]))
  }

  function Entries(w: Width, ps: seq<(nat, nat)>): (r: seq<byte>)
    ensures |r| == w.Bytes() * |ps|
  {
    if ps == [] then [] else EntryBytes(w, ps[0]) + Entries(w, ps[1..])
  }

  function FromEntries(w: Width, b: seq<byte>, n: nat): (r: seq<(nat, nat)>)
    requires |b| == w.Bytes() * n
    ensures |r| == n
  {
    if n == 0 then [] else [EntryOf(w, b[..w.Bytes()])] + FromEntries(w, b[w.Bytes()..], n - 1)
  }

  /** `text_hash ‖ n ‖ n entries`; the number of entries is cast to two bytes. */
  function Encoded(w: Width, m: Meta): seq<byte> {
    Be(m.hash, 8) + Be(|m.postings|, 2) + Entries(w, m.postings)
  }

  /** `encode_sparse_meta`. */
  method Encode(m: Meta) returns (out: seq<byte>)
    ensures out == Encoded(Wide, m)
  {
    hide Be, Entries;
    out := Be(m.hash, 8);
    out := out + Be(|m.postings|, 2);
    ghost var head := out;
    NoEntries(Wide);
    for k := 0 to |m.postings|
      invariant out == head + Entries(Wide, m.postings[..k])
    {
      var (id, chunks) := m.postings[k];
      EntriesSnoc(Wide, m.postings[..k], (id, chunks));
      assert m.postings[..k + 1] == m.postings[..k] + [(id, chunks)];
      out := out + (Be(id, 4) + Be(chunks, 4));
    }
    assert m.postings[..|m.postings|] == m.postings;
  }

  lemma NoEntries(w: Width)
    ensures Entries(w, []) == []
  {
  }

  lemma {:induction false} EntriesSnoc(w: Width, ps: seq<(nat, nat)>, e: (nat, nat))
    ensures Entries(w, ps + [e]) == Entries(w, ps) + EntryBytes(w, e)
  {
    if ps == [] {
      assert [] + [e] == [e] && [e][1..] == [];
    } else {
      assert (ps + [e])[1..] == ps[1..] + [e];
      EntriesSnoc(w, ps[1..], e);
    }
  }

  /** `decode_sparse_meta`: the number of entries fixes the length of each. */
  function Decode(b: seq<byte>): Option<Meta> {
    if |b| < 10 then None
    else
      var n := FromBe(b[8..10]);
      var hash, rest := FromBe(b[..8]), b[10..];
      if |rest| == n * 8 then Some(V.Meta(hash, FromEntries(Wide, rest, n)))
      else if |rest| == n * 6 then Some(V.Meta(hash, FromEntries(Narrow, rest, n)))
      else if |rest| == n * 4 then Some(V.Meta(hash, FromEntries(Width.Bare, rest, n)))
      else None
  }

  /** The ids, the counts and the hash have the width their types say. */
  predicate HasWidth(w: Width, m: Meta) {
    && Fits(m.hash, 8)
    && forall i :: 0 <= i < |m.postings| ==> Fits(m.postings[i].0, 4) && match w
         case Wide => Fits(m.postings[i].1, 4)
         case Narrow => Fits(m.postings[i].1, 2)
         case Bare => m.postings[i].1 == 0
  }

  lemma EntryReadsBack(w: Width, e: (nat, nat))
    requires Fits(e.0, 4)
    requires match w case Wide => Fits(e.1, 4) case Narrow => Fits(e.1, 2) case Bare => e.1 == 0
    ensures EntryOf(w, EntryBytes(w, e)) == e
  {
    hide Be, FromBe, Fits;
    var b := EntryBytes(w, e);
    FromBeOfBe(e.0, 4);
    assert b[..4] == Be(e.0, 4);
    if w.Wide? {
      FromBeOfBe(e.1, 4);
      assert b[4..] == Be(e.1, 4);
    } else if w.Narrow? {
      FromBeOfBe(e.1, 2);
      assert b[4..] == Be(e.1, 2);
    }
  }

  lemma {:induction false} FromEntriesOfEntries(w: Width, m: Meta)
    requires HasWidth(w, m)
    ensures FromEntries(w, Entries(w, m.postings), |m.postings|) == m.postings
    decreases |m.postings|
  {
    hide Be, FromBe, Fits, EntryOf, EntryBytes;
    var ps := m.postings;
    if ps != [] {
      var b := Entries(w, ps);
      assert b[..w.Bytes()] == EntryBytes(w, ps[0]) && b[w.Bytes()..] == Entries(w, ps[1..]);
      EntryReadsBack(w, ps[0]);
      FromEntriesOfEntries(w, V.Meta(m.hash, ps[1..]));
    }
  }

  lemma Parts(w: Width, m: Meta)
    ensures var b := Encoded(w, m);
            && |b| == 10 + w.Bytes() * |m.postings|
            && b[..8] == Be(m.hash, 8) && b[8..10] == Be(|m.postings|, 2) && b[10..] == Entries(w, m.postings)
  {
  }

  /** Where a record's parts are: the hash, the number of entries, and each entry's
      posting before its count. */
  lemma MetaLayout(m: Meta, k: nat)
    requires k < |m.postings|
    ensures var b := Encoded(Wide, m);
            && |b| == 10 + 8 * |m.postings|
            && b[..8] == Be(m.hash, 8) && b[8..10] == Be(|m.postings|, 2)
            && b[10 + 8 * k..14 + 8 * k] == Be(m.postings[k].0, 4)
            && b[14 + 8 * k..18 + 8 * k] == Be(m.postings[k].1, 4)
  {
    var b, es := Encoded(Wide, m), Entries(Wide, m.postings);
    Parts(Wide, m);
    EntryAt(m.postings, k);
    assert b[10 + 8 * k..14 + 8 * k] == es[8 * k..8 * k + 4];
    assert b[14 + 8 * k..18 + 8 * k] == es[8 * k + 4..8 * k + 8];
  }

  lemma {:induction false} EntryAt(ps: seq<(nat, nat)>, k: nat)
    requires k < |ps|
    ensures Entries(Wide, ps)[8 * k..8 * k + 4] == Be(ps[k].0, 4)
    ensures Entries(Wide, ps)[8 * k + 4..8 * k + 8] == Be(ps[k].1, 4)
  {
    var es := Entries(Wide, ps);
    if k == 0 {
      assert es[..8] == Be(ps[0].0, 4) + Be(ps[0].1, 4);
      assert es[0..4] == es[..8][..4] && es[4..8] == es[..8][4..];
    } else {
      EntryAt(ps[1..], k - 1);
      var rest := Entries(Wide, ps[1..]);
      assert es[8..] == rest;
      assert es[8 * k..8 * k + 4] == rest[8 * (k - 1)..8 * (k - 1) + 4];
      assert es[8 * k + 4..8 * k + 8] == rest[8 * (k - 1) + 4..8 * (k - 1) + 8];
    }
  }

  /** Each of the three forms reads back as written, for fewer than 65,536
      postings. */
  lemma DecodeEncoded(w: Width, m: Meta)
    requires HasWidth(w, m) && |m.postings| < 0x1_0000
    ensures Decode(Encoded(w, m)) == Some(m)
  {
    Parts(w, m);
    FitsIsBelow(|m.postings|);
    FromBeOfBe(|m.postings|, 2);
    FromBeOfBe(m.hash, 8);
    FromEntriesOfEntries(w, m);
    if m.postings == [] {
      assert Entries(w, m.postings) == [];
    }
  }

  /** And exactly then: the record of a document with more postings is not
      readable at all. */
  lemma RoundTripIff(m: Meta)
    requires HasWidth(Wide, m)
    ensures Decode(Encoded(Wide, m)) == Some(m) <==> |m.postings| < 0x1_0000
    ensures |m.postings| >= 0x1_0000 ==> Decode(Encoded(Wide, m)) == None
  {
    if |m.postings| < 0x1_0000 {
      DecodeEncoded(Wide, m);
    } else {
      Parts(Wide, m);
      BeTruncates(|m.postings|);
    }
  }
}
