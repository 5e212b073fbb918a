/** Journal records as bytes: `version ‖ kind ‖ state ‖ ids`, every id four
    bytes. */
module JournalCodec {
  import opened Bytes
  import opened Codes
  import opened Partition

  const RECORD_VERSION: byte := 1
  const KIND_SPLIT: byte := 0
  const KIND_MERGE: byte := 1
  const KIND_REASSIGN: byte := 2
  const KIND_REBUILD: byte := 3

  function KindOf(op: Op): byte {
    match op
    case Split(_, _, _) => KIND_SPLIT
    case Merge(_, _) => KIND_MERGE
    case Reassign(_, _, _, _) => KIND_REASSIGN
    case Rebuild(_, _, _, _) => KIND_REBUILD
  }

  function IdsOf(op: Op): seq<nat> {
    match op
    case Split(p, cs, ks) => [p, cs.0, cs.1, ks.0, ks.1]
    case Merge(p, kept) => [p, kept]
    case Reassign(p, c, ks, scope) => [p, c, ks.0, ks.1] + scope
    case Rebuild(c, p, n, drained) => [c, p, n] + drained
  }

  function StateByte(s: JournalState): byte {
    match s case Planned => 1 case Published => 2 case Copied => 3
  }

  function StateOf(b: byte): Option<JournalState> {
    if b == 1 then Some(Planned) else if b == 2 then Some(Published) else if b == 3 then Some(Copied) else None
  }

  function OpOf(kind: byte, ids: seq<nat>): Option<Op> {
    if kind == KIND_SPLIT && |ids| == 5 then Some(Split(ids[0], (ids[1], ids[2]), (ids[3], ids[4])))
    else if kind == KIND_MERGE && |ids| == 2 then Some(Merge(ids[0], ids[1]))
    else if kind == KIND_REASSIGN && |ids| >= 4 then Some(Reassign(ids[0], ids[1], (ids[2], ids[3]), ids[4..]))
    else if kind == KIND_REBUILD && |ids| >= 3 then Some(Rebuild(ids[0], ids[1], ids[2], ids[3..]))
    else None
  }

  function Encode(r: Record): seq<byte> {
    [RECORD_VERSION, KindOf(r.op), StateByte(r.state)] + Ids(IdsOf(r.op))
  }

  function Decode(v: seq<byte>): Option<Record> {
    if |v| < 3 || v[0] != RECORD_VERSION || (|v| - 3) % 4 != 0 then None
    else
      var state := StateOf(v[2]);
      var op := OpOf(v[1], FromIds(v[3..]));
      if state.None? || op.None? then None else Some(Record(state.value, op.value))
  }

  /** `Record::encode`: the header, then the ids one after the other. */
  method EncodeRecord(r: Record) returns (v: seq<byte>)
    ensures v == Encode(r)
  {
    var ids := IdsOf(r.op);
    v := [RECORD_VERSION, KindOf(r.op), StateByte(r.state)];
    ghost var head := v;
    for k := 0 to |ids|
      invariant v == head + Ids(ids[..k])
    {
      v := v + Be(ids[k], 4);
      IdsConcat(ids[..k], [ids[k]]);
      assert ids[..k + 1] == ids[..k] + [ids[k]];
      assert Ids([ids[k]]) == Be(ids[k], 4) + Ids([ids[k]][1..]);
    }
    assert ids[..|ids|] == ids;
  }

  /** Where a record's parts are: the version, which operation and how far, and its
      ids in order, four bytes each. */
  lemma RecordLayout(r: Record, k: nat)
    ensures var v := Encode(r);
            && |v| >= 3 && v[0] == 1
            && v[1] == (match r.op case Split(_, _, _) => 0 case Merge(_, _) => 1 case Reassign(_, _, _, _) => 2
                        case Rebuild(_, _, _, _) => 3)
            && v[2] == (match r.state case Planned => 1 case Published => 2 case Copied => 3)
    ensures var ids := match r.op
              case Split(p, cs, ks) => [p, cs.0, cs.1, ks.0, ks.1]
              case Merge(p, kept) => [p, kept]
              case Reassign(p, c, ks, scope) => [p, c, ks.0, ks.1] + scope
              case Rebuild(c, p, n, drained) => [c, p, n] + drained;
            && |Encode(r)| == 3 + 4 * |ids|
            && (k < |ids| ==> Encode(r)[3 + 4 * k..7 + 4 * k] == Be(ids[k], 4))
  {
    var ids := IdsOf(r.op);
    if k < |ids| {
      IdAt(ids, k);
      assert Encode(r)[3 + 4 * k..7 + 4 * k] == Ids(ids)[4 * k..4 * k + 4];
    }
  }

  lemma OpOfIds(op: Op)
    ensures OpOf(KindOf(op), IdsOf(op)) == Some(op)
  {
    match op
    case Split(_, _, _) =>
    case Merge(_, _) =>
    case Reassign(p, c, ks, scope) => assert ([p, c, ks.0, ks.1] + scope)[4..] == scope;
    case Rebuild(c, p, n, drained) => assert ([c, p, n] + drained)[3..] == drained;
  }

  lemma IdsOfOp(kind: byte, ids: seq<nat>)
    requires OpOf(kind, ids).Some?
    ensures KindOf(OpOf(kind, ids).value) == kind && IdsOf(OpOf(kind, ids).value) == ids
  {
    var op := OpOf(kind, ids).value;
    if op.Reassign? {
      assert ids == [ids[0], ids[1], ids[2], ids[3]] + ids[4..];
    } else if op.Rebuild? {
      assert ids == [ids[0], ids[1], ids[2]] + ids[3..];
    }
  }

  /** A record of 32-bit ids reads back as it was. */
  lemma DecodeEncode(r: Record)
    requires AllFit(IdsOf(r.op))
    ensures Decode(Encode(r)) == Some(r)
  {
    var v := Encode(r);
    assert v[3..] == Ids(IdsOf(r.op));
    FromIdsOfIds(IdsOf(r.op));
    OpOfIds(r.op);
  }

  /** Whatever bytes are accepted are exactly what their record is written as:
      no two byte strings are one record. */
  lemma EncodeDecode(v: seq<byte>)
    requires Decode(v).Some?
    ensures Encode(Decode(v).value) == v && AllFit(IdsOf(Decode(v).value.op))
  {
    IdsOfFromIds(v[3..]);
    IdsOfOp(v[1], FromIds(v[3..]));
    assert v == [v[0], v[1], v[2]] + v[3..];
  }
}
