/** Bytes, and unsigned integers as big-endian bytes. */
module Bytes {

  newtype byte = b: int | 0 <= b < 256

  /** `n` has at most `k` bytes. */
  predicate Fits(n: nat, k: nat) {
    if k == 0 then n == 0 else Fits(n / 256, k - 1)
  }

  /** The low `k` bytes of `n`, big-endian: a cast to `k` bytes, then
      `to_be_bytes`. */
  function Be(n: nat, k: nat): (r: seq<byte>)
    ensures |r| == k
  {
    if k == 0 then [] else Be(n / 256, k - 1) + [(n % 256) as byte]
  }

  function FromBe(s: seq<byte>): nat {
    if s == [] then 0 else FromBe(s[..|s| - 1]) * 256 + s[|s| - 1] as nat
  }

  lemma {:induction false} FromBeOfBe(n: nat, k: nat)
    requires Fits(n, k)
    ensures FromBe(Be(n, k)) == n
  {
    if k > 0 {
      FromBeOfBe(n / 256, k - 1);
      assert Be(n, k)[..k - 1] == Be(n / 256, k - 1);
    }
  }

  lemma {:induction false} BeOfFromBe(s: seq<byte>)
    ensures Be(FromBe(s), |s|) == s && Fits(FromBe(s), |s|)
  {
    if s != [] {
      BeOfFromBe(s[..|s| - 1]);
      assert FromBe(s) / 256 == FromBe(s[..|s| - 1]);
      assert s == s[..|s| - 1] + [s[|s| - 1]];
    }
  }

  /** Two, four and eight bytes. */
  lemma FitsIsBelow(n: nat)
    ensures Fits(n, 2) <==> n < 0x1_0000
    ensures Fits(n, 4) <==> n < 0x1_0000_0000
    ensures Fits(n, 8) <==> n < 0x1_0000_0000_0000_0000
  {
    assert Fits(n, 2) <==> n / 256 / 256 == 0 by {
      assert Fits(n, 2) == Fits(n / 256, 1) == Fits(n / 256 / 256, 0);
    }
    var m := n / 256 / 256;
    assert Fits(n, 4) == Fits(n / 256, 3) == Fits(m, 2);
    assert Fits(m, 2) == Fits(m / 256, 1) == Fits(m / 256 / 256, 0);
    var k := m / 256 / 256;
    assert Fits(n, 8) == Fits(n / 256, 7) == Fits(m, 6) == Fits(m / 256, 5) == Fits(k, 4);
    assert Fits(k, 4) == Fits(k / 256, 3) == Fits(k / 256 / 256, 2) == Fits(k / 256 / 256 / 256, 1)
      == Fits(k / 256 / 256 / 256 / 256, 0);
  }

  /** The most significant byte comes first. */
  lemma BigEndian(n: nat)
    ensures Be(n, 2) == [(n / 0x100 % 256) as byte, (n % 256) as byte]
    ensures Be(n, 4) == [(n / 0x100_0000 % 256) as byte, (n / 0x1_0000 % 256) as byte, (n / 0x100 % 256) as byte,
                         (n % 256) as byte]
  {
    var (a, b, c) := (n / 256, n / 256 / 256, n / 256 / 256 / 256);
    assert b == n / 0x1_0000 && c == n / 0x100_0000;
    assert Be(n, 2) == Be(a, 1) + [(n % 256) as byte] && Be(a, 1) == Be(b, 0) + [(a % 256) as byte];
    assert Be(n, 4) == Be(a, 3) + [(n % 256) as byte] && Be(a, 3) == Be(b, 2) + [(a % 256) as byte];
    assert Be(b, 2) == Be(c, 1) + [(b % 256) as byte] && Be(c, 1) == Be(c / 256, 0) + [(c % 256) as byte];
  }

  /** The low `k` bytes of `n`, as a number. */
  function Low(n: nat, k: nat): nat {
    if k == 0 then 0 else Low(n / 256, k - 1) * 256 + n % 256
  }

  lemma {:induction false} FromBeIsLow(n: nat, k: nat)
    ensures FromBe(Be(n, k)) == Low(n, k)
  {
    if k > 0 {
      FromBeIsLow(n / 256, k - 1);
      assert Be(n, k)[..k - 1] == Be(n / 256, k - 1);
    }
  }

  lemma LowOfTwo(n: nat)
    ensures Low(n, 2) == n % 0x1_0000
  {
    var n1, n2 := n / 256, n / 256 / 256;
    assert Low(n, 2) == Low(n1, 1) * 256 + n % 256;
    assert Low(n1, 1) == Low(n2, 0) * 256 + n1 % 256;
    assert n == 0x1_0000 * n2 + Low(n, 2) && Low(n, 2) < 0x1_0000;
  }

  lemma LowOfFour(n: nat)
    ensures Low(n, 4) == n % 0x1_0000_0000
  {
    var n1 := n / 256;
    var n2 := n1 / 256;
    assert Low(n, 4) == Low(n1, 3) * 256 + n % 256;
    assert Low(n1, 3) == Low(n2, 2) * 256 + n1 % 256;
    LowOfTwo(n2);
    assert n == 0x1_0000 * n2 + (n1 % 256) * 256 + n % 256;
    assert Low(n, 4) == 0x1_0000 * (n2 % 0x1_0000) + (n1 % 256) * 256 + n % 256;
    Recombine(n, n2, (n1 % 256) * 256 + n % 256);
  }

  lemma Recombine(n: nat, hi: nat, lo: nat)
    requires n == 0x1_0000 * hi + lo && lo < 0x1_0000
    ensures n % 0x1_0000_0000 == 0x1_0000 * (hi % 0x1_0000) + lo
  {
    assert n == 0x1_0000_0000 * (hi / 0x1_0000) + (0x1_0000 * (hi % 0x1_0000) + lo);
  }

  /** A cast to two or four bytes keeps the remainder. */
  lemma BeTruncates(n: nat)
    ensures FromBe(Be(n, 2)) == n % 0x1_0000 && Be(n, 2) == Be(n % 0x1_0000, 2)
    ensures FromBe(Be(n, 4)) == n % 0x1_0000_0000 && Be(n, 4) == Be(n % 0x1_0000_0000, 4)
  {
    FromBeIsLow(n, 2);
    FromBeIsLow(n, 4);
    LowOfTwo(n);
    LowOfFour(n);
    BeOfFromBe(Be(n, 2));
    BeOfFromBe(Be(n, 4));
  }

  // ── Runs of four-byte integers ──

  function Ids(ids: seq<nat>): (r: seq<byte>)
    ensures |r| == 4 * |ids|
  {
    if ids == [] then [] else Be(ids[0], 4) + Ids(ids[1..])
  }

  function FromIds(s: seq<byte>): (r: seq<nat>)
    requires |s| % 4 == 0
    ensures |r| * 4 == |s|
  {
    if s == [] then [] else [FromBe(s[..4])] + FromIds(s[4..])
  }

  predicate AllFit(ids: seq<nat>) {
    forall i :: 0 <= i < |ids| ==> Fits(ids[i], 4)
  }

  lemma {:induction false} FromIdsOfIds(ids: seq<nat>)
    requires AllFit(ids)
    ensures FromIds(Ids(ids)) == ids
  {
    if ids != [] {
      FromBeOfBe(ids[0], 4);
      FromIdsOfIds(ids[1..]);
      assert Ids(ids)[..4] == Be(ids[0], 4) && Ids(ids)[4..] == Ids(ids[1..]);
    }
  }

  lemma {:induction false} IdsOfFromIds(s: seq<byte>)
    requires |s| % 4 == 0
    ensures Ids(FromIds(s)) == s && AllFit(FromIds(s))
  {
    if s != [] {
      BeOfFromBe(s[..4]);
      IdsOfFromIds(s[4..]);
      assert FromIds(s)[1..] == FromIds(s[4..]);
      assert s == s[..4] + s[4..];
    }
  }

  lemma {:induction false} IdsConcat(a: seq<nat>, b: seq<nat>)
    ensures Ids(a + b) == Ids(a) + Ids(b)
  {
    if a == [] {
      assert a + b == b;
    } else {
      assert (a + b)[1..] == a[1..] + b;
      IdsConcat(a[1..], b);
    }
  }

  lemma {:induction false} IdAt(ids: seq<nat>, k: nat)
    requires k < |ids|
    ensures Ids(ids)[4 * k..4 * k + 4] == Be(ids[k], 4)
  {
    if k > 0 {
      IdAt(ids[1..], k - 1);
      assert Ids(ids)[4..] == Ids(ids[1..]);
      assert Ids(ids)[4 * k..4 * k + 4] == Ids(ids)[4..][4 * (k - 1)..4 * (k - 1) + 4];
    }
  }
}
