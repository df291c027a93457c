// Word-level facts about the three checksums of main/Tool/app_crc.c. Each turn of
// an inner loop shifts the register and adds the polynomial if a one fell out.
module CrcBits {
  import opened CrcTables

  type byte = bv8

  lemma Swap16(a: bv16, b: bv16, c: bv16, d: bv16)
    ensures (a ^ b) ^ (c ^ d) == (a ^ c) ^ (b ^ d)
  {}

  lemma Swap32(a: bv32, b: bv32, c: bv32, d: bv32)
    ensures (a ^ b) ^ (c ^ d) == (a ^ c) ^ (b ^ d)
  {}

  // The mask is the polynomial if a one falls out, zero otherwise.
  function ModbusTurn(c: bv16): bv16 { (c >> 1) ^ (0xA001 & (0 - (c & 1))) }

  lemma ModbusAsWritten(c: bv16)
    ensures ModbusTurn(c) == if c & 1 == 1 then (c >> 1) ^ 0xA001 else c >> 1
  {
    ModbusOut(c);
    ModbusMask(c & 1);
  }

  lemma ModbusOut(c: bv16)
    ensures c & 1 == 0 || c & 1 == 1
    ensures c & 1 == 1 <==> c & 1 == 1
  {}

  lemma ModbusMask(t: bv16)
    ensures t == 1 ==> 0xA001 & (0 - t) == 0xA001
    ensures t == 0 ==> 0xA001 & (0 - t) == 0
  {}

  function Modbus8(c: bv16): bv16 {
    ModbusTurn(ModbusTurn(ModbusTurn(ModbusTurn(ModbusTurn(ModbusTurn(ModbusTurn(ModbusTurn(c))))))))
  }

  lemma ModbusLinear(a: bv16, b: bv16)
    ensures ModbusTurn(a ^ b) == ModbusTurn(a) ^ ModbusTurn(b)
  {
    ModbusOutXor(a, b);
    Swap16(a >> 1, b >> 1, 0xA001 & (0 - (a & 1)), 0xA001 & (0 - (b & 1)));
  }

  lemma ModbusOutXor(a: bv16, b: bv16)
    ensures (a ^ b) >> 1 == (a >> 1) ^ (b >> 1)
    ensures 0xA001 & (0 - ((a ^ b) & 1)) == (0xA001 & (0 - (a & 1))) ^ (0xA001 & (0 - (b & 1)))
  {}

  // Eight turns on an index are the table's entry for it.
  lemma ModbusEntry(i: bv8)
    ensures ModbusTable(i) == Modbus8(i as bv16)
  {
    if i >> 4 == 0 {} else if i >> 4 == 1 {} else if i >> 4 == 2 {} else if i >> 4 == 3 {}
    else if i >> 4 == 4 {} else if i >> 4 == 5 {} else if i >> 4 == 6 {} else if i >> 4 == 7 {}
    else if i >> 4 == 8 {} else if i >> 4 == 9 {} else if i >> 4 == 10 {} else if i >> 4 == 11 {}
    else if i >> 4 == 12 {} else if i >> 4 == 13 {} else if i >> 4 == 14 {} else {}
  }

  lemma ModbusEnds(c: bv16)
    ensures c == (c & 0xFF00) ^ (c & 0x00FF)
  {}

  // Eight turns only move the end of the register that they do not reach.
  lemma ModbusFar(c: bv16)
    ensures Modbus8(c & 0xFF00) == c >> 8
  {}

  // The mask is the polynomial if a one falls out, zero otherwise.
  function XmodemTurn(c: bv16): bv16 { (c << 1) ^ (0x1021 & (0 - (c >> 15))) }

  lemma XmodemAsWritten(c: bv16)
    ensures XmodemTurn(c) == if c & 0x8000 != 0 then (c << 1) ^ 0x1021 else c << 1
  {
    XmodemOut(c);
    XmodemMask(c >> 15);
  }

  lemma XmodemOut(c: bv16)
    ensures c >> 15 == 0 || c >> 15 == 1
    ensures c & 0x8000 != 0 <==> c >> 15 == 1
  {}

  lemma XmodemMask(t: bv16)
    ensures t == 1 ==> 0x1021 & (0 - t) == 0x1021
    ensures t == 0 ==> 0x1021 & (0 - t) == 0
  {}

  function Xmodem8(c: bv16): bv16 {
    XmodemTurn(XmodemTurn(XmodemTurn(XmodemTurn(XmodemTurn(XmodemTurn(XmodemTurn(XmodemTurn(c))))))))
  }

  lemma XmodemLinear(a: bv16, b: bv16)
    ensures XmodemTurn(a ^ b) == XmodemTurn(a) ^ XmodemTurn(b)
  {
    XmodemOutXor(a, b);
    Swap16(a << 1, b << 1, 0x1021 & (0 - (a >> 15)), 0x1021 & (0 - (b >> 15)));
  }

  lemma XmodemOutXor(a: bv16, b: bv16)
    ensures (a ^ b) << 1 == (a << 1) ^ (b << 1)
    ensures 0x1021 & (0 - ((a ^ b) >> 15)) == (0x1021 & (0 - (a >> 15))) ^ (0x1021 & (0 - (b >> 15)))
  {}

  // Eight turns on an index are the table's entry for it.
  lemma XmodemEntry(i: bv8)
    ensures XmodemTable(i) == Xmodem8((i as bv16) << 8)
  {
    if i >> 4 == 0 {} else if i >> 4 == 1 {} else if i >> 4 == 2 {} else if i >> 4 == 3 {}
    else if i >> 4 == 4 {} else if i >> 4 == 5 {} else if i >> 4 == 6 {} else if i >> 4 == 7 {}
    else if i >> 4 == 8 {} else if i >> 4 == 9 {} else if i >> 4 == 10 {} else if i >> 4 == 11 {}
    else if i >> 4 == 12 {} else if i >> 4 == 13 {} else if i >> 4 == 14 {} else {}
  }

  lemma XmodemEnds(c: bv16)
    ensures c == (c & 0x00FF) ^ (c & 0xFF00)
  {}

  // Eight turns only move the end of the register that they do not reach.
  lemma XmodemFar(c: bv16)
    ensures Xmodem8(c & 0x00FF) == c << 8
  {}

  // The mask is the polynomial if a one falls out, zero otherwise.
  function Mpeg2Turn(c: bv32): bv32 { (c << 1) ^ (0x04C11DB7 & (0 - (c >> 31))) }

  lemma Mpeg2AsWritten(c: bv32)
    ensures Mpeg2Turn(c) == if c & 0x80000000 != 0 then (c << 1) ^ 0x04C11DB7 else c << 1
  {
    Mpeg2Out(c);
    Mpeg2Mask(c >> 31);
  }

  lemma Mpeg2Out(c: bv32)
    ensures c >> 31 == 0 || c >> 31 == 1
    ensures c & 0x80000000 != 0 <==> c >> 31 == 1
  {}

  lemma Mpeg2Mask(t: bv32)
    ensures t == 1 ==> 0x04C11DB7 & (0 - t) == 0x04C11DB7
    ensures t == 0 ==> 0x04C11DB7 & (0 - t) == 0
  {}

  function Mpeg28(c: bv32): bv32 {
    Mpeg2Turn(Mpeg2Turn(Mpeg2Turn(Mpeg2Turn(Mpeg2Turn(Mpeg2Turn(Mpeg2Turn(Mpeg2Turn(c))))))))
  }

  lemma Mpeg2Linear(a: bv32, b: bv32)
    ensures Mpeg2Turn(a ^ b) == Mpeg2Turn(a) ^ Mpeg2Turn(b)
  {
    Mpeg2OutXor(a, b);
    Swap32(a << 1, b << 1, 0x04C11DB7 & (0 - (a >> 31)), 0x04C11DB7 & (0 - (b >> 31)));
  }

  lemma Mpeg2OutXor(a: bv32, b: bv32)
    ensures (a ^ b) << 1 == (a << 1) ^ (b << 1)
    ensures 0x04C11DB7 & (0 - ((a ^ b) >> 31)) == (0x04C11DB7 & (0 - (a >> 31))) ^ (0x04C11DB7 & (0 - (b >> 31)))
  {}

  // Eight turns on an index are the table's entry for it.
  lemma Mpeg2Entry(i: bv8)
    ensures Mpeg2Table(i) == Mpeg28((i as bv32) << 24)
  {
    if i >> 4 == 0 {} else if i >> 4 == 1 {} else if i >> 4 == 2 {} else if i >> 4 == 3 {}
    else if i >> 4 == 4 {} else if i >> 4 == 5 {} else if i >> 4 == 6 {} else if i >> 4 == 7 {}
    else if i >> 4 == 8 {} else if i >> 4 == 9 {} else if i >> 4 == 10 {} else if i >> 4 == 11 {}
    else if i >> 4 == 12 {} else if i >> 4 == 13 {} else if i >> 4 == 14 {} else {}
  }

  lemma Mpeg2Ends(c: bv32)
    ensures c == (c & 0x00FFFFFF) ^ (c & 0xFF000000)
  {}

  // Eight turns only move the end of the register that they do not reach.
  lemma Mpeg2Far(c: bv32)
    ensures Mpeg28(c & 0x00FFFFFF) == c << 8
  {}

  // ---- How the table loops pick the entry ----

  function Low16(x: bv16): bv8 { (x & 0xFF) as bv8 }
  function Low32(x: bv32): bv8 { (x & 0xFF) as bv8 }

  lemma ModbusIndex(c: bv16, b: byte)
    ensures (c >> 8) & 0xFF == (c ^ (b as bv16)) >> 8
    ensures Low16(c ^ (b as bv16)) as bv16 == (c ^ (b as bv16)) & 0x00FF
  {}

  lemma XmodemIndex(c: bv16, b: byte)
    ensures (Low16((c >> 8) ^ (b as bv16)) as bv16) << 8 == (c ^ ((b as bv16) << 8)) & 0xFF00
    ensures (c ^ ((b as bv16) << 8)) << 8 == c << 8
  {}

  lemma Mpeg2Index(c: bv32, b: byte)
    ensures (Low32((c >> 24) ^ (b as bv32)) as bv32) << 24 == (c ^ ((b as bv32) << 24)) & 0xFF000000
    ensures (c ^ ((b as bv32) << 24)) << 8 == c << 8
  {}

  // ---- The Modbus register fed one bit at a time ----

  function Bv(t: bool): bv16 { if t then 1 else 0 }

  function OddWord(b: bv16): bool { b & 1 == 1 }

  lemma SplitLow(c: bv16, b: bv16, x: bv16, y: bv16, h: bv16)
    requires x == c ^ b && y == c ^ Bv(OddWord(b)) && h == b >> 1
    ensures x & 1 == y & 1 && x >> 1 == (y >> 1) ^ h
  {
    assert b & 1 == 0 || b & 1 == 1;
  }

  lemma SameOut(x: bv16, y: bv16, h: bv16)
    requires x & 1 == y & 1 && x >> 1 == (y >> 1) ^ h
    ensures ModbusTurn(x) == ModbusTurn(y) ^ h
  {}

  // Adding a word and turning is feeding its lowest bit and adding the rest.
  lemma FirstBit(c: bv16, b: bv16, x: bv16, y: bv16, h: bv16, r: bv16)
    requires x == c ^ b && y == c ^ Bv(OddWord(b)) && h == b >> 1 && r == ModbusTurn(y)
    ensures ModbusTurn(x) == r ^ h
  {
    SplitLow(c, b, x, y, h);
    SameOut(x, y, h);
  }

  lemma ByteGone(b: byte)
    ensures (((((((((b as bv16) >> 1) >> 1) >> 1) >> 1) >> 1) >> 1) >> 1) >> 1) == 0
  {}

  lemma SameHalf(x: bv16, y: bv16)
    requires OddWord(x) == OddWord(y) && x >> 1 == y >> 1
    ensures x == y
  {}

  lemma DiffBit(c: bv16, d: bv16, s: bool, t: bool)
    ensures (c ^ Bv(s)) ^ (d ^ Bv(t)) == (c ^ d) ^ Bv(s != t)
  {}

  lemma FeedLinear(c: bv16, d: bv16, s: bool, t: bool, x: bv16, y: bv16, z: bv16, l: bv16, m: bv16, n: bv16)
    requires x == c ^ Bv(s) && y == d ^ Bv(t) && z == (c ^ d) ^ Bv(s != t)
    requires l == ModbusTurn(x) && m == ModbusTurn(y) && n == ModbusTurn(z)
    ensures l ^ m == n
  {
    DiffBit(c, d, s, t);
    ModbusLinear(x, y);
  }

  // The bits at position n and above.
  function Above(n: nat): bv16 {
    if n == 0 then 0xFFFF else Above(n - 1) << 1
  }

  lemma AboveTop(n: nat)
    requires n <= 15
    ensures Above(n) & 0x8000 == 0x8000
  {
    assert Above(3) == 0xFFF8;
    assert Above(6) == 0xFFC0;
    assert Above(9) == 0xFE00;
    assert Above(12) == 0xF000;
  }

  // A turn that shows nothing under a mask reaching the top bit dropped a zero.
  lemma TurnWithin(x: bv16, mask: bv16)
    requires mask & 0x8000 == 0x8000 && ModbusTurn(x) & mask == 0
    ensures x & 1 == 0 && (x >> 1) & mask == 0
  {}

  lemma Uncover(c: bv16, t: bool, x: bv16, mask: bv16)
    requires x == c ^ Bv(t) && x & 1 == 0 && (x >> 1) & mask == 0
    ensures c & (mask << 1) == 0
    ensures c == 0 ==> !t
  {}

  lemma FeedWithin(c: bv16, t: bool, x: bv16, mask: bv16)
    requires x == c ^ Bv(t) && mask & 0x8000 == 0x8000 && ModbusTurn(x) & mask == 0
    ensures c & (mask << 1) == 0
    ensures c == 0 ==> !t
  {
    TurnWithin(x, mask);
    Uncover(c, t, x, mask);
  }

  lemma FeedAbove(c: bv16, t: bool, x: bv16, k: nat)
    requires k < 16 && x == c ^ Bv(t) && ModbusTurn(x) & Above(k) == 0
    ensures c & Above(k + 1) == 0
    ensures c == 0 ==> !t
  {
    AboveTop(k);
    FeedWithin(c, t, x, Above(k));
  }

  lemma FeedKeeps(c: bv16)
    ensures c ^ Bv(false) == c
    ensures ModbusTurn(c) == 0 <==> c == 0
  {}
}
