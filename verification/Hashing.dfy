/** What a text's hash tells apart. */
module Hashing {
  import opened Vectors

  /** One step of the hash: a byte more. */
  function Step(h: nat, byte: nat): nat {
    (Xor(h % FNV_MODULUS, byte % 256, 8) * 0x0100_0000_01b3) % FNV_MODULUS
  }

  function Pow2(n: nat): nat {
    if n == 0 then 1 else 2 * Pow2(n - 1)
  }

  lemma {:induction false} XorTwice(a: nat, b: nat, bits: nat)
    ensures Xor(Xor(a, b, bits), b, bits) == a
  {
    if bits > 0 {
      XorTwice(a / 2, b / 2, bits - 1);
      assert Xor(a, b, bits) / 2 == Xor(a / 2, b / 2, bits - 1);
    }
  }

  lemma {:induction false} XorTellsApart(a: nat, b: nat, c: nat, bits: nat)
    requires b < Pow2(bits) && c < Pow2(bits) && Xor(a, b, bits) == Xor(a, c, bits)
    ensures b == c
  {
    if bits > 0 {
      assert Xor(a, b, bits) / 2 == Xor(a / 2, b / 2, bits - 1) && Xor(a, c, bits) / 2 == Xor(a / 2, c / 2, bits - 1);
      XorTellsApart(a / 2, b / 2, c / 2, bits - 1);
      assert b % 2 == c % 2;
    }
  }

  lemma {:induction false} XorStaysBelow(a: nat, b: nat, bits: nat, k: nat)
    requires a < k * Pow2(bits)
    ensures Xor(a, b, bits) < k * Pow2(bits)
  {
    if bits > 0 {
      var half := k * Pow2(bits - 1);
      assert k * Pow2(bits) == 2 * half;
      XorStaysBelow(a / 2, b / 2, bits - 1, k);
    }
  }

  /** Multiplying by the prime can be undone: its inverse modulo 2^64. */
  lemma PrimeCanBeUndone(x: nat)
    requires x < FNV_MODULUS
    ensures (((x * 0x0100_0000_01b3) % FNV_MODULUS) * 0xce96_5057_aff6_957b) % FNV_MODULUS == x
  {
    var z, w := x * 0x0100_0000_01b3 / FNV_MODULUS, (x * 0x0100_0000_01b3) % FNV_MODULUS;
    assert x * 0x0100_0000_01b3 == FNV_MODULUS * z + w;
  }

  lemma TimesPrimeTellsApart(x: nat, y: nat)
    requires x < FNV_MODULUS && y < FNV_MODULUS
    requires (x * 0x0100_0000_01b3) % FNV_MODULUS == (y * 0x0100_0000_01b3) % FNV_MODULUS
    ensures x == y
  {
    PrimeCanBeUndone(x);
    PrimeCanBeUndone(y);
  }

  /** From different hashes the same byte leads to different hashes; from the same
      hash, different bytes do. */
  lemma StepTellsApart(h: nat, k: nat, b: nat, c: nat)
    requires h < FNV_MODULUS && k < FNV_MODULUS && Step(h, b) == Step(k, c)
    requires b % 256 == c % 256 || h == k
    ensures h == k && b % 256 == c % 256
  {
    hide Xor;
    var (x, y) := (Xor(h, b % 256, 8), Xor(k, c % 256, 8));
    assert Pow2(8) == 256;
    XorStaysBelow(h, b % 256, 8, FNV_MODULUS / 256);
    XorStaysBelow(k, c % 256, 8, FNV_MODULUS / 256);
    TimesPrimeTellsApart(x, y);
    XorTwice(h, b % 256, 8);
    XorTwice(k, c % 256, 8);
    if h == k {
      XorTellsApart(h, b % 256, c % 256, 8);
    }
  }

  lemma {:induction false} SameRestTellsApart(t: Text, h: nat, k: nat)
    requires h < FNV_MODULUS && k < FNV_MODULUS && Fnv(t, h) == Fnv(t, k)
    ensures h == k
  {
    hide Xor;
    if t != [] {
      SameRestTellsApart(t[1..], Step(h, t[0]), Step(k, t[0]));
      StepTellsApart(h, k, t[0], t[0]);
    }
  }

  lemma {:induction false} OneByteFrom(t: Text, u: Text, i: nat, h: nat)
    requires |t| == |u| && i < |t| && h < FNV_MODULUS && t[i] % 256 != u[i] % 256
    requires forall j :: 0 <= j < |t| && j != i ==> t[j] == u[j]
    ensures Fnv(t, h) != Fnv(u, h)
    decreases |t|
  {
    hide Xor;
    if i == 0 {
      assert t[1..] == u[1..];
      if Fnv(t, h) == Fnv(u, h) {
        SameRestTellsApart(t[1..], Step(h, t[0]), Step(h, u[0]));
        StepTellsApart(h, h, t[0], u[0]);
      }
    } else {
      OneByteFrom(t[1..], u[1..], i - 1, Step(h, t[0]));
    }
  }

  /** Texts that differ in one byte hash differently, so an edit of one byte is never
      taken for no edit. */
  lemma OneByteTellsApart(t: Text, u: Text, i: nat)
    requires |t| == |u| && i < |t| && t[i] % 256 != u[i] % 256
    requires forall j :: 0 <= j < |t| && j != i ==> t[j] == u[j]
    ensures TextHash(t) != TextHash(u)
  {
    OneByteFrom(t, u, i, 0xcbf2_9ce4_8422_2325);
  }

  lemma XorStep(a: nat, b: nat, bits: nat)
    requires bits > 0
    ensures Xor(a, b, bits) == 2 * Xor(a / 2, b / 2, bits - 1) + (if a % 2 == b % 2 then 0 else 1)
  {
  }

  lemma NoBitsLeft(a: nat)
    ensures Xor(a, 0, 0) == a
  {
  }

  /** The hash is the standard one, on the texts of the repository's own check. */
  lemma KnownHashes()
    ensures TextHash([]) == 0xcbf2_9ce4_8422_2325
    ensures TextHash([97]) == 0xaf63_dc4c_8601_ec8c
  {
    hide Xor;
    XorStep(0xcbf29ce484222325, 97, 8);
    XorStep(0x65f94e7242111192, 48, 7);
    XorStep(0x32fca739210888c9, 24, 6);
    XorStep(0x197e539c90844464, 12, 5);
    XorStep(0xcbf29ce48422232, 6, 4);
    XorStep(0x65f94e724211119, 3, 3);
    XorStep(0x32fca739210888c, 1, 2);
    XorStep(0x197e539c9084446, 0, 1);
    NoBitsLeft(0xcbf29ce4842223);
    assert [97][1..] == [] && Fnv([], Step(0xcbf2_9ce4_8422_2325, 97)) == Step(0xcbf2_9ce4_8422_2325, 97);
  }
}
