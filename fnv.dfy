/**
  The 64-bit FNV-1a hash (Fowler/Noll/Vo, FNV-1a variant, as described in the
  IETF draft draft-eastlake-fnv), as Go's hash/fnv New64a computes it.
 */
module Fnv {

  newtype uint8 = x: int | 0 <= x < 0x100

  /** A Go byte slice. */
  type Bytes = seq<uint8>

  const OFFSET_BASIS_64: bv64 := 14695981039346656037
  const PRIME_64: bv64 := 1099511628211

  /** One FNV-1a round: XOR the byte into the low bits, then multiply by the prime modulo 2^64. */
  function Step(h: bv64, b: uint8): bv64 {
    (h ^ (b as bv64)) * PRIME_64
  }

  /** The rounds applied to the bytes of s in order, starting from state h. */
  function Fold(h: bv64, s: Bytes): bv64
    decreases s
  {
    if s == [] then h else Fold(Step(h, s[0]), s[1..])
  }

  /**
    The state of a fresh New64a hash after writing s: the offset basis for no
    bytes, and otherwise one more round, for the last byte, on the state after
    the bytes before it.
   */
  function Fnv1a64(s: Bytes): (h: bv64)
    ensures s == [] ==> h == OFFSET_BASIS_64
    ensures s != [] ==> h == Step(Fold(OFFSET_BASIS_64, s[..|s| - 1]), s[|s| - 1])
  {
    if s != [] then
      assert s == s[..|s| - 1] + [s[|s| - 1]];
      FoldConcat(OFFSET_BASIS_64, s[..|s| - 1], [s[|s| - 1]]);
      Fold(OFFSET_BASIS_64, s)
    else
      Fold(OFFSET_BASIS_64, s)
  }

  /** What Sum64() returns: that state read as an unsigned 64-bit integer. */
  function Sum64(s: Bytes): (n: nat)
    ensures n < 0x1_0000_0000_0000_0000
  {
    Fnv1a64(s) as int
  }

  /** Writing a + b is writing a, then b: the fold can be fed in pieces. */
  lemma {:induction false} FoldConcat(h: bv64, a: Bytes, b: Bytes)
    ensures Fold(h, a + b) == Fold(Fold(h, a), b)
    decreases a
  {
    if a != [] {
      assert (a + b)[0] == a[0] && (a + b)[1..] == a[1..] + b;
      FoldConcat(Step(h, a[0]), a[1..], b);
    } else {
      assert a + b == b;
    }
  }

  /** Reference values of FNV-1a 64 for "", "a" and "foobar". */
  lemma TestVectors()
    ensures Fnv1a64([]) == 0xcbf29ce484222325
    ensures Fnv1a64([0x61]) == 0xaf63dc4c8601ec8c
    ensures Fnv1a64([0x66, 0x6f, 0x6f, 0x62, 0x61, 0x72]) == 0x85944171f73967e8
  {
    assert Step(OFFSET_BASIS_64, 0x61) == 0xaf63dc4c8601ec8c;
    assert [0x61 as uint8][1..] == [];
    var foobar: Bytes := [0x66, 0x6f, 0x6f, 0x62, 0x61, 0x72];
    assert Step(OFFSET_BASIS_64, 0x66) == 0xaf63db4c8601ead9;
    assert Step(0xaf63db4c8601ead9, 0x6f) == 0x08985907b541d342;
    assert Step(0x08985907b541d342, 0x6f) == 0xdcb27518fed9d577;
    assert Step(0xdcb27518fed9d577, 0x62) == 0xdd120e790c2512af;
    assert Step(0xdd120e790c2512af, 0x61) == 0xcac165afa2fef40a;
    assert Step(0xcac165afa2fef40a, 0x72) == 0x85944171f73967e8;
    assert foobar == [0x66] + [0x6f] + [0x6f] + [0x62] + [0x61] + [0x72];
    FoldConcat(OFFSET_BASIS_64, [0x66] + [0x6f] + [0x6f] + [0x62] + [0x61], [0x72]);
    FoldConcat(OFFSET_BASIS_64, [0x66] + [0x6f] + [0x6f] + [0x62], [0x61]);
    FoldConcat(OFFSET_BASIS_64, [0x66] + [0x6f] + [0x6f], [0x62]);
    FoldConcat(OFFSET_BASIS_64, [0x66] + [0x6f], [0x6f]);
    FoldConcat(OFFSET_BASIS_64, [0x66], [0x6f]);
  }
}
