// What the Modbus checksum of main/Tool/app_crc.c is relied on for: two messages
// of one length whose difference lies within sixteen consecutive transmitted bits
// (least significant bit of each byte first) never share a checksum.
module CrcBurst {
  import opened Folds
  import opened CrcBits
  import opened Crc

  function FeedBit(c: bv16, t: bool): bv16 { ModbusTurn(c ^ Bv(t)) }

  function Half(b: bv16): bv16 { b >> 1 }

  function ByteBits(b: byte): (r: seq<bool>)
    ensures |r| == 8
  {
    Digits(OddWord, Half, b as bv16, 8)
  }

  // The bits of a message in transmission order.
  function Bits(data: seq<byte>): (r: seq<bool>)
    ensures |r| == 8 * |data|
  {
    Spell(ByteBits, data)
  }

  lemma {:induction false} TakesBit()
    ensures forall p, q :: ModbusTurn(Xor16(p, q)) == Xor16(FeedBit(p, OddWord(q)), Half(q))
  {
    forall p, q ensures ModbusTurn(Xor16(p, q)) == Xor16(FeedBit(p, OddWord(q)), Half(q)) {
      FirstBit(p, q, Xor16(p, q), p ^ Bv(OddWord(q)), Half(q), FeedBit(p, OddWord(q)));
    }
  }

  lemma {:induction false} WordIsBits(c: bv16, b: bv16)
    ensures Iter(ModbusTurn, Xor16(c, b), 8) == Xor16(Fold(FeedBit, c, Digits(OddWord, Half, b, 8)), Iter(Half, b, 8))
  {
    TakesBit();
    FoldDigits(ModbusTurn, FeedBit, Xor16, OddWord, Half, c, b, 8);
  }

  lemma {:induction false} ByteEmpties(b: byte)
    ensures Iter(Half, b as bv16, 8) == 0
  {
    Iter8(Half, b as bv16);
    ByteGone(b);
  }

  lemma {:induction false} XorZero(x: bv16, y: bv16, z: bv16)
    requires y == Xor16(x, z) && z == 0
    ensures y == x
  {}

  lemma {:induction false} ByteIsBits(c: bv16, b: byte)
    ensures ModbusByte(c, b) == Fold(FeedBit, c, ByteBits(b))
  {
    WordIsBits(c, b as bv16);
    ByteEmpties(b);
    XorZero(Fold(FeedBit, c, ByteBits(b)), ModbusByte(c, b), Iter(Half, b as bv16, 8));
  }

  lemma {:induction false} MessageIsBits(c: bv16, data: seq<byte>)
    ensures Fold(ModbusByte, c, data) == Fold(FeedBit, c, Bits(data))
  {
    forall s, x ensures ModbusByte(s, x) == Fold(FeedBit, s, ByteBits(x)) { ByteIsBits(s, x); }
    FoldSpelled(ModbusByte, FeedBit, ByteBits, c, data);
  }

  lemma {:induction false} ByteBitsInjective(a: byte, b: byte)
    requires ByteBits(a) == ByteBits(b)
    ensures a == b
  {
    forall p, q | OddWord(p) == OddWord(q) && Half(p) == Half(q) ensures p == q { SameHalf(p, q); }
    ByteEmpties(a); ByteEmpties(b);
    DigitsInjective(OddWord, Half, a as bv16, b as bv16, 8);
  }

  lemma {:induction false} BitsInjective(m: seq<byte>, n: seq<byte>)
    requires |m| == |n| && Bits(m) == Bits(n)
    ensures m == n
  {
    forall x, y | ByteBits(x) == ByteBits(y) ensures x == y { ByteBitsInjective(x, y); }
    SpellInjective(ByteBits, m, n);
  }

  // No bit of c at position n or above.
  predicate Within(c: bv16, n: nat) { c & Above(n) == 0 }

  lemma {:induction false} FeedMarks(c: bv16, t: bool, k: nat)
    requires k < 16 && Within(FeedBit(c, t), k)
    ensures Within(c, k + 1)
    ensures c == 0 ==> !t
  {
    FeedAbove(c, t, c ^ Bv(t), k);
  }

  // Sixteen bits cannot cancel in a sixteen-bit register.
  lemma {:induction false} BitBurst(d: seq<bool>, p: nat)
    requires exists i :: 0 <= i < |d| && d[i]
    requires forall i :: 0 <= i < |d| && !(p <= i < p + 16) ==> !d[i]
    ensures Fold(FeedBit, 0, d) != 0
  {
    forall s: bv16 ensures FeedBit(s, false) == 0 <==> s == 0 { FeedKeeps(s); }
    forall s, t, k: nat | k < 16 && Within(FeedBit(s, t), k) ensures Within(s, k + 1) { FeedMarks(s, t, k); }
    forall t, k: nat | k < 16 && Within(FeedBit(0, t), k) ensures !t && FeedBit(0, t) == 0 { FeedMarks(0, t, k); }
    BurstSurvives(FeedBit, Within, 0, d, p);
  }

  lemma {:induction false} XorSame(a: bv16)
    ensures Xor16(a, a) == 0
  {}

  lemma {:induction false} FeedBitLinear()
    ensures forall a, b, s, t :: Xor16(FeedBit(a, s), FeedBit(b, t)) == FeedBit(Xor16(a, b), s != t)
  {
    forall a, b, s, t ensures Xor16(FeedBit(a, s), FeedBit(b, t)) == FeedBit(Xor16(a, b), s != t) {
      FeedLinear(a, b, s, t, a ^ Bv(s), b ^ Bv(t), (a ^ b) ^ Bv(s != t), FeedBit(a, s), FeedBit(b, t), FeedBit(a ^ b, s != t));
    }
  }

  lemma {:induction false} DiffFold(m: seq<bool>, n: seq<bool>)
    requires |m| == |n|
    ensures Xor16(Fold(FeedBit, 0xFFFF, m), Fold(FeedBit, 0xFFFF, n)) == Fold(FeedBit, 0, Diff(m, n))
  {
    FeedBitLinear();
    FoldDiff(FeedBit, Xor16, 0xFFFF, 0xFFFF, m, n);
    XorSame(0xFFFF);
  }

  // Two different messages of one length that agree outside sixteen consecutive
  // bits have different checksums.
  lemma {:induction false} BurstDetected(m: seq<byte>, n: seq<byte>, p: nat)
    requires |m| == |n| && m != n
    requires forall i :: 0 <= i < 8 * |m| && !(p <= i < p + 16) ==> Bits(m)[i] == Bits(n)[i]
    ensures Modbus(m) != Modbus(n)
  {
    var d := Diff(Bits(m), Bits(n));
    if forall i :: 0 <= i < |d| ==> !d[i] {
      BitsInjective(m, n);
    }
    BitBurst(d, p);
    DiffFold(Bits(m), Bits(n));
    XorSame(Fold(FeedBit, 0xFFFF, Bits(m)));
    MessageIsBits(0xFFFF, m); MessageIsBits(0xFFFF, n);
  }

  // Damage confined to two adjacent bytes is always seen.
  lemma {:induction false} AdjacentBytesDetected(m: seq<byte>, n: seq<byte>, k: nat)
    requires |m| == |n| && m != n
    requires forall j :: 0 <= j < |m| && j != k && j != k + 1 ==> m[j] == n[j]
    ensures Modbus(m) != Modbus(n)
  {
    forall i | 0 <= i < 8 * |m| && !(8 * k <= i < 8 * k + 16) ensures Bits(m)[i] == Bits(n)[i] {
      SpellAt(ByteBits, m, i);
      SpellAt(ByteBits, n, i);
    }
    BurstDetected(m, n, 8 * k);
  }
}
