/** Queue keys and values as bytes (`queue_key`, `encode_queue_value` and their
    inverses). Texts are their UTF-8 bytes; which byte strings are UTF-8 is left
    open. */
module QueueCodec {
  import opened Bytes
  import opened Codes
  import Q = Queue

  type Bytestring = seq<byte>

  // ── Values ──

  datatype Value = Value(kind: Q.Kind, text: Bytestring, retries: nat, error: Option<Bytestring>) {
    /** Strings are UTF-8, and the retry count has 32 bits. */
    predicate Valid(utf8: Bytestring -> bool) {
      && utf8(text) && (error.Some? ==> utf8(error.value)) && Fits(retries, 4)
    }
  }

  const V1: byte := 1
  const V2: byte := 2
  const V3: byte := 3

  function ErrorBytes(error: Option<Bytestring>): Bytestring { if error.Some? then error.value else [] }

  function KindByte(k: Q.Kind): byte { if k.Embed? then 0 else 1 }

  /** What versions 2 and 3 share; the error's length is cast to four bytes. */
  function Tail(v: Value): Bytestring {
    Be(v.retries, 4) + Be(|ErrorBytes(v.error)|, 4) + ErrorBytes(v.error) + v.text
  }

  function EncodeV1(retries: nat, text: Bytestring): Bytestring {
    [V1] + Be(retries, 4) + text
  }

  function EncodeV2(v: Value): Bytestring { [V2] + Tail(v) }

  /** `encode_queue_value`. */
  function Encode(v: Value): Bytestring { [V3, KindByte(v.kind)] + Tail(v) }

  function DecodeTail(utf8: Bytestring -> bool, kind: Q.Kind, tail: Bytestring): Option<Value> {
    if |tail| < 8 then None
    else
      var retries, n := FromBe(tail[..4]), FromBe(tail[4..8]);
      if |tail| < 8 + n then None
      else if n > 0 && !utf8(tail[8..8 + n]) then None
      else if !utf8(tail[8 + n..]) then None
      else Some(Value(kind, tail[8 + n..], retries, if n > 0 then Some(tail[8..8 + n]) else None))
  }

  /** `decode_queue_value`: any version. */
  function Decode(utf8: Bytestring -> bool, v: Bytestring): Option<Value> {
    if v == [] then None
    else if v[0] == V1 then
      if |v| < 5 || !utf8(v[5..]) then None else Some(Value(Q.Embed, v[5..], FromBe(v[1..5]), None))
    else if v[0] == V2 then DecodeTail(utf8, Q.Embed, v[1..])
    else if v[0] == V3 then
      if |v| < 2 then None
      else if v[1] == 0 then DecodeTail(utf8, Q.Embed, v[2..])
      else if v[1] == 1 then DecodeTail(utf8, Q.Clear, v[2..])
      else None
    else None
  }

  lemma TailParts(v: Value)
    ensures var t := Tail(v);
            && |t| == 8 + |ErrorBytes(v.error)| + |v.text|
            && t[..4] == Be(v.retries, 4) && t[4..8] == Be(|ErrorBytes(v.error)|, 4)
            && t[8..8 + |ErrorBytes(v.error)|] == ErrorBytes(v.error) && t[8 + |ErrorBytes(v.error)|..] == v.text
  {
  }

  /** Where a value's parts are: the version, what is asked for, the retry count, the
      error's length and the error, and the text. */
  lemma ValueLayout(v: Value)
    ensures var (b, error) := (Encode(v), if v.error.Some? then v.error.value else []);
            && |b| == 10 + |error| + |v.text|
            && b[0] == 3 && b[1] == (if v.kind.Embed? then 0 else 1)
            && b[2..6] == Be(v.retries, 4) && b[6..10] == Be(|error|, 4)
            && b[10..10 + |error|] == error && b[10 + |error|..] == v.text
  {
    TailParts(v);
    var (b, t, n) := (Encode(v), Tail(v), |ErrorBytes(v.error)|);
    assert b[2..] == t;
    assert b[2..6] == t[..4] && b[6..10] == t[4..8] && b[10..10 + n] == t[8..8 + n] && b[10 + n..] == t[8 + n..];
  }

  /** What a shared tail reads back as: an empty error is none. */
  lemma DecodeOfTail(utf8: Bytestring -> bool, v: Value)
    requires v.Valid(utf8) && |ErrorBytes(v.error)| < 0x1_0000_0000
    ensures DecodeTail(utf8, v.kind, Tail(v)) == Some(if v.error == Some([]) then v.(error := None) else v)
  {
    TailParts(v);
    FitsIsBelow(|ErrorBytes(v.error)|);
    FromBeOfBe(|ErrorBytes(v.error)|, 4);
    FromBeOfBe(v.retries, 4);
  }

  /** An error too long for its length field is never read back. */
  lemma LongErrorIsLost(utf8: Bytestring -> bool, v: Value)
    requires |ErrorBytes(v.error)| >= 0x1_0000_0000
    ensures DecodeTail(utf8, v.kind, Tail(v)) != Some(v)
  {
    TailParts(v);
    BeTruncates(|ErrorBytes(v.error)|);
  }

  /** A value reads back as written if and only if its error is not an empty
      string and its length fits the field. */
  lemma RoundTripIff(utf8: Bytestring -> bool, v: Value)
    requires v.Valid(utf8)
    ensures Decode(utf8, Encode(v)) == Some(v) <==> v.error != Some([]) && |ErrorBytes(v.error)| < 0x1_0000_0000
  {
    assert Encode(v)[2..] == Tail(v);
    if |ErrorBytes(v.error)| < 0x1_0000_0000 {
      DecodeOfTail(utf8, v);
    } else {
      LongErrorIsLost(utf8, v);
    }
  }

  /** Values of the two earlier versions read back as embeds. */
  lemma OldValuesReadBack(utf8: Bytestring -> bool, v: Value)
    requires v.Valid(utf8) && v.kind.Embed? && v.error != Some([]) && |ErrorBytes(v.error)| < 0x1_0000_0000
    ensures Decode(utf8, EncodeV1(v.retries, v.text)) == Some(v.(error := None))
    ensures Decode(utf8, EncodeV2(v)) == Some(v)
  {
    var one := EncodeV1(v.retries, v.text);
    assert one[1..5] == Be(v.retries, 4) && one[5..] == v.text;
    FromBeOfBe(v.retries, 4);
    assert EncodeV2(v)[1..] == Tail(v);
    DecodeOfTail(utf8, v);
  }

  // ── Keys ──

  /** `queue_key`: the namespace's length, cast to two bytes, the namespace, the
      document. */
  function Key(ns: Bytestring, doc: Bytestring): Bytestring {
    Be(|ns|, 2) + ns + doc
  }

  function DecodeKey(utf8: Bytestring -> bool, k: Bytestring): Option<(Bytestring, Bytestring)> {
    if |k| < 2 then None
    else
      var n := FromBe(k[..2]);
      if |k| < 2 + n || !utf8(k[2..2 + n]) then None else Some((k[2..2 + n], k[2 + n..]))
  }

  lemma KeyParts(ns: Bytestring, doc: Bytestring)
    ensures Key(ns, doc)[..2] == Be(|ns|, 2) && Key(ns, doc)[2..2 + |ns|] == ns && Key(ns, doc)[2 + |ns|..] == doc
    ensures FromBe(Key(ns, doc)[..2]) == |ns| % 0x1_0000
  {
    BeTruncates(|ns|);
  }

  /** A key reads back as its namespace and document if and only if the
      namespace's length fits its field. */
  lemma KeyRoundTripIff(utf8: Bytestring -> bool, ns: Bytestring, doc: Bytestring)
    requires utf8(ns)
    ensures DecodeKey(utf8, Key(ns, doc)) == Some((ns, doc)) <==> |ns| < 0x1_0000
  {
    KeyParts(ns, doc);
  }

  predicate StartsWith(k: Bytestring, prefix: Bytestring) {
    |prefix| <= |k| && k[..|prefix|] == prefix
  }

  /** One namespace's prefix matches exactly its own entries, so clearing them
      touches no other namespace, and no two entries share a key. */
  lemma PrefixMatchesOwnEntries(a: Bytestring, b: Bytestring, doc: Bytestring)
    requires |a| < 0x1_0000 && |b| < 0x1_0000
    ensures StartsWith(Key(b, doc), Key(a, [])) <==> a == b
  {
    KeyParts(a, []);
    KeyParts(b, doc);
    var (p, k) := (Key(a, []), Key(b, doc));
    assert p == Be(|a|, 2) + a;
    if a == b {
      assert k == p + doc;
    }
    if StartsWith(k, p) {
      assert k[..2] == p[..2];
      assert k[2..2 + |a|] == p[2..2 + |a|] == a;
    }
  }

  lemma KeysAreInjective(a: Bytestring, b: Bytestring, d: Bytestring, e: Bytestring)
    requires |a| < 0x1_0000 && |b| < 0x1_0000 && Key(a, d) == Key(b, e)
    ensures a == b && d == e
  {
    KeyParts(a, d);
    KeyParts(b, e);
  }

  /** A longer namespace's keys are also those of its own beginning, for other
      documents: there the prefix of a short name matches entries of a long one. */
  lemma LongNamespaceCollides(ns: Bytestring, doc: Bytestring)
    requires |ns| >= 0x1_0000
    ensures var m := |ns| % 0x1_0000;
            && ns[..m] != ns
            && Key(ns, doc) == Key(ns[..m], ns[m..] + doc)
            && StartsWith(Key(ns, doc), Key(ns[..m], []))
  {
    hide Be;
    var m := |ns| % 0x1_0000;
    BeTruncates(|ns|);
    Resplit(Be(m, 2), ns, doc, m);
    assert |ns[..m]| == m;
  }

  lemma Resplit(head: Bytestring, ns: Bytestring, doc: Bytestring, m: nat)
    requires m <= |ns|
    ensures head + ns + doc == head + ns[..m] + (ns[m..] + doc)
    ensures StartsWith(head + ns + doc, head + ns[..m] + [])
  {
    assert ns == ns[..m] + ns[m..];
  }
}
