/** The key range of a prefix, and a scan of it that starts in the middle and
    wraps once (`sample_cached_query_embeddings`). */
module PrefixRange {
  import opened Bytes
  import opened Codes

  type Key = seq<byte>

  /** Byte order, the order keys are scanned in. */
  predicate Less(a: Key, b: Key) {
    if b == [] then false
    else if a == [] then true
    else a[0] < b[0] || (a[0] == b[0] && Less(a[1..], b[1..]))
  }

  predicate StartsWith(k: Key, prefix: Key) {
    |prefix| <= |k| && k[..|prefix|] == prefix
  }

  /** From `from` up to but not including `to`; with none, to the end. */
  predicate InRange(k: Key, from: Key, to: Option<Key>) {
    !Less(k, from) && (to.None? || Less(k, to.value))
  }

  /** The key just past every key with this prefix: its last byte that is not
      255, plus one; none if there is no such byte. */
  function PastPrefix(prefix: Key): Option<Key> {
    if prefix == [] then None
    else if prefix[|prefix| - 1] < 255 then Some(prefix[..|prefix| - 1] + [prefix[|prefix| - 1] + 1])
    else PastPrefix(prefix[..|prefix| - 1])
  }

  /** Add one to the last byte, with carry. */
  method EndOf(prefix: Key) returns (end: Option<Key>)
    ensures end == PastPrefix(prefix)
  {
    var key := prefix;
    while key != []
      invariant PastPrefix(key) == PastPrefix(prefix)
    {
      var last := key[|key| - 1];
      key := key[..|key| - 1];
      if last < 255 {
        return Some(key + [last + 1]);
      }
    }
    end := None;
  }

  lemma {:induction false} StartsBehind(k: Key, prefix: Key)
    requires StartsWith(k, prefix)
    ensures !Less(k, prefix)
  {
    if prefix != [] {
      assert k[0] == prefix[0] && StartsWith(k[1..], prefix[1..]);
      StartsBehind(k[1..], prefix[1..]);
    }
  }

  lemma SameFirst(k: Key, prefix: Key)
    requires prefix != []
    ensures StartsWith(k, prefix) ==> k != [] && k[0] == prefix[0]
  {
  }

  /** The range of keys that begin with `a` and are not past `a + [b]`. */
  lemma {:induction false} BeforeNext(k: Key, a: Key, b: byte)
    requires b < 255
    ensures !Less(k, a + [b]) && Less(k, a + [b + 1]) <==> StartsWith(k, a + [b])
  {
    if a == [] {
      assert k != [] ==> ([b] <= k <==> k[..1] == [b]);
      if k != [] && k[0] == b {
        assert [b][1..] == [] && !Less(k[1..], []);
      }
    } else {
      assert (a + [b])[1..] == a[1..] + [b] && (a + [b + 1])[1..] == a[1..] + [b + 1];
      if k != [] && k[0] == a[0] {
        BeforeNext(k[1..], a[1..], b);
        assert StartsWith(k, a + [b]) <==> StartsWith(k[1..], a[1..] + [b]) by {
          assert |k| >= |a| + 1 ==> k[..|a| + 1] == [k[0]] + k[1..][..|a|];
          assert a + [b] == [a[0]] + (a[1..] + [b]);
        }
      } else {
        SameFirst(k, a + [b]);
      }
    }
  }

  /** Keys at or after `a + [255]` and before what is past `a` begin with it. */
  lemma {:induction false} WithCarry(k: Key, a: Key)
    ensures !Less(k, a + [255]) && StartsWith(k, a) <==> StartsWith(k, a + [255])
  {
    if a == [] {
      if k != [] && k[0] == 255 {
        assert k[..1] == [255] && !Less(k[1..], [255][1..]);
      }
      assert StartsWith(k, [255]) ==> k[0] == [255][0];
    } else {
      assert (a + [255])[1..] == a[1..] + [255];
      if k != [] && k[0] == a[0] {
        WithCarry(k[1..], a[1..]);
        assert StartsWith(k, a + [255]) <==> StartsWith(k[1..], a[1..] + [255]) by {
          assert |k| >= |a| + 1 ==> k[..|a| + 1] == [k[0]] + k[1..][..|a|];
          assert a + [255] == [a[0]] + (a[1..] + [255]);
        }
        assert StartsWith(k, a) <==> StartsWith(k[1..], a[1..]) by {
          assert |k| >= |a| ==> k[..|a|] == [k[0]] + k[1..][..|a| - 1];
          assert a == [a[0]] + a[1..];
        }
      } else {
        SameFirst(k, a + [255]);
      }
    }
  }

  lemma {:induction false} LessPrefix(k: Key, a: Key, b: byte)
    requires !Less(k, a + [b])
    ensures !Less(k, a)
  {
    if a != [] {
      assert (a + [b])[1..] == a[1..] + [b];
      if k != [] && k[0] == a[0] {
        LessPrefix(k[1..], a[1..], b);
      }
    }
  }

  /** The range is exact: a key is in it if and only if it starts with the
      prefix. */
  lemma {:induction false} RangeIsExact(k: Key, prefix: Key)
    ensures InRange(k, prefix, PastPrefix(prefix)) <==> StartsWith(k, prefix)
    decreases |prefix|
  {
    if prefix == [] {
      assert k[..0] == [];
    } else {
      var (a, b) := (prefix[..|prefix| - 1], prefix[|prefix| - 1]);
      assert prefix == a + [b];
      if b < 255 {
        BeforeNext(k, a, b);
      } else {
        RangeIsExact(k, a);
        WithCarry(k, a);
        if !Less(k, prefix) {
          LessPrefix(k, a, b);
        }
        if StartsWith(k, prefix) {
          StartsBehind(k, prefix);
        }
      }
    }
  }

  /** Where a scan with `seed` starts. */
  function StartOf(prefix: Key, seed: nat): Key {
    prefix + [(seed % 256) as byte]
  }

  /** The two ranges of a wrapped scan: from the start to the end of the prefix,
      then from the prefix to the start. */
  predicate InFirst(k: Key, prefix: Key, seed: nat) {
    InRange(k, StartOf(prefix, seed), PastPrefix(prefix))
  }

  predicate InSecond(k: Key, prefix: Key, seed: nat) {
    InRange(k, prefix, Some(StartOf(prefix, seed)))
  }

  lemma {:induction false} LessThanLonger(k: Key, prefix: Key, b: byte)
    requires Less(k, prefix + [b]) && !Less(k, prefix)
    ensures StartsWith(k, prefix)
  {
    if prefix == [] {
      assert k[..0] == [];
    } else {
      assert (prefix + [b])[1..] == prefix[1..] + [b];
      LessThanLonger(k[1..], prefix[1..], b);
      assert k[..|prefix|] == [k[0]] + k[1..][..|prefix| - 1];
    }
  }

  /** For every seed the two ranges share no key, and cover exactly the keys with
      the prefix. */
  lemma WrappedRangesPartition(k: Key, prefix: Key, seed: nat)
    ensures !(InFirst(k, prefix, seed) && InSecond(k, prefix, seed))
    ensures InFirst(k, prefix, seed) || InSecond(k, prefix, seed) <==> StartsWith(k, prefix)
  {
    var b := (seed % 256) as byte;
    RangeIsExact(k, prefix);
    if InFirst(k, prefix, seed) {
      LessPrefix(k, prefix, b);
    }
    if InSecond(k, prefix, seed) {
      LessThanLonger(k, prefix, b);
    }
    if StartsWith(k, prefix) {
      StartsBehind(k, prefix);
    }
  }
}
