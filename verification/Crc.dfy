// main/Tool/app_crc.c: the table-driven checksums compute the bit-by-bit loops they
// replace, on every buffer.
module Crc {
  import opened CrcBits
  import opened CrcTables
  import opened Folds

  function Xor16(a: bv16, b: bv16): bv16 { a ^ b }
  function Xor32(a: bv32, b: bv32): bv32 { a ^ b }

  // ---- Bit-by-bit definitions: add the byte, then turn eight times ----

  function ModbusByte(c: bv16, b: byte): bv16 {
    Iter(ModbusTurn, c ^ (b as bv16), 8)
  }

  function XmodemByte(c: bv16, b: byte): bv16 {
    Iter(XmodemTurn, c ^ ((b as bv16) << 8), 8)
  }

  function Mpeg2Byte(c: bv32, b: byte): bv32 {
    Iter(Mpeg2Turn, c ^ ((b as bv32) << 24), 8)
  }

  function Modbus(data: seq<byte>): bv16 {
    Fold(ModbusByte, 0xFFFF, data)
  }

  // ---- Modbus: one table step is one byte ----

  lemma ModbusXor(a: bv16, b: bv16, n: nat)
    ensures Iter(ModbusTurn, Xor16(a, b), n) == Xor16(Iter(ModbusTurn, a, n), Iter(ModbusTurn, b, n))
  {
    forall p, q ensures ModbusTurn(Xor16(p, q)) == Xor16(ModbusTurn(p), ModbusTurn(q)) { ModbusLinear(p, q); }
    IterLinear(ModbusTurn, Xor16, a, b, n);
  }

  // Eight turns move one end of the register and mix the other.
  lemma ModbusSplit(c: bv16)
    ensures Iter(ModbusTurn, c, 8) == Xor16(c >> 8, Iter(ModbusTurn, c & 0x00FF, 8))
  {
    Iter8(ModbusTurn, c & 0xFF00);
    ModbusFar(c);
    ModbusEnds(c);
    ModbusXor(c & 0xFF00, c & 0x00FF, 8);
  }

  lemma ModbusJoin(x: bv16, moved: bv16, at: bv16, e: bv16)
    requires moved == x >> 8 && at == x & 0x00FF && e == Iter(ModbusTurn, at, 8)
    ensures moved ^ e == Iter(ModbusTurn, x, 8)
  {
    ModbusSplit(x);
  }

  // `at` is the word whose eight turns the table holds.
  method ModbusLookup(i: bv8, ghost at: bv16) returns (e: bv16)
    requires at == i as bv16
    ensures e == Iter(ModbusTurn, at, 8)
  {
    ModbusEntry(i);
    Iter8(ModbusTurn, at);
    e := ModbusTable(i);
  }

  // `x` is the register with the byte added, `at` the part of it that picks the entry.
  method ModbusCombine(ghost c: bv16, ghost b: byte, ghost x: bv16, ghost at: bv16, moved: bv16, i: bv8) returns (crc: bv16)
    requires x == c ^ (b as bv16)
    requires moved == x >> 8 && at == x & 0x00FF && at == i as bv16
    ensures crc == ModbusByte(c, b)
  {
    var e := ModbusLookup(i, at);
    ModbusJoin(x, moved, at, e);
    crc := moved ^ e;
  }

  method ModbusTableByte(c: bv16, b: byte) returns (crc: bv16)
    ensures crc == ModbusByte(c, b)
  {
    ModbusIndex(c, b);
    ghost var x := c ^ (b as bv16);
    crc := ModbusCombine(c, b, x, x & 0x00FF, (c >> 8) & 0xFF, Low16(c ^ (b as bv16)));
  }

  // ---- Xmodem: one table step is one byte ----

  lemma XmodemXor(a: bv16, b: bv16, n: nat)
    ensures Iter(XmodemTurn, Xor16(a, b), n) == Xor16(Iter(XmodemTurn, a, n), Iter(XmodemTurn, b, n))
  {
    forall p, q ensures XmodemTurn(Xor16(p, q)) == Xor16(XmodemTurn(p), XmodemTurn(q)) { XmodemLinear(p, q); }
    IterLinear(XmodemTurn, Xor16, a, b, n);
  }

  // Eight turns move one end of the register and mix the other.
  lemma XmodemSplit(c: bv16)
    ensures Iter(XmodemTurn, c, 8) == Xor16(c << 8, Iter(XmodemTurn, c & 0xFF00, 8))
  {
    Iter8(XmodemTurn, c & 0x00FF);
    XmodemFar(c);
    XmodemEnds(c);
    XmodemXor(c & 0x00FF, c & 0xFF00, 8);
  }

  lemma XmodemJoin(x: bv16, moved: bv16, at: bv16, e: bv16)
    requires moved == x << 8 && at == x & 0xFF00 && e == Iter(XmodemTurn, at, 8)
    ensures moved ^ e == Iter(XmodemTurn, x, 8)
  {
    XmodemSplit(x);
  }

  // `at` is the word whose eight turns the table holds.
  method XmodemLookup(i: bv8, ghost at: bv16) returns (e: bv16)
    requires at == (i as bv16) << 8
    ensures e == Iter(XmodemTurn, at, 8)
  {
    XmodemEntry(i);
    Iter8(XmodemTurn, at);
    e := XmodemTable(i);
  }

  // `x` is the register with the byte added, `at` the part of it that picks the entry.
  method XmodemCombine(ghost c: bv16, ghost b: byte, ghost x: bv16, ghost at: bv16, moved: bv16, i: bv8) returns (crc: bv16)
    requires x == c ^ ((b as bv16) << 8)
    requires moved == x << 8 && at == x & 0xFF00 && at == (i as bv16) << 8
    ensures crc == XmodemByte(c, b)
  {
    var e := XmodemLookup(i, at);
    XmodemJoin(x, moved, at, e);
    crc := moved ^ e;
  }

  method XmodemTableByte(c: bv16, b: byte) returns (crc: bv16)
    ensures crc == XmodemByte(c, b)
  {
    XmodemIndex(c, b);
    ghost var x := c ^ ((b as bv16) << 8);
    crc := XmodemCombine(c, b, x, x & 0xFF00, c << 8, Low16((c >> 8) ^ (b as bv16)));
  }

  // ---- Mpeg2: one table step is one byte ----

  lemma Mpeg2Xor(a: bv32, b: bv32, n: nat)
    ensures Iter(Mpeg2Turn, Xor32(a, b), n) == Xor32(Iter(Mpeg2Turn, a, n), Iter(Mpeg2Turn, b, n))
  {
    forall p, q ensures Mpeg2Turn(Xor32(p, q)) == Xor32(Mpeg2Turn(p), Mpeg2Turn(q)) { Mpeg2Linear(p, q); }
    IterLinear(Mpeg2Turn, Xor32, a, b, n);
  }

  // Eight turns move one end of the register and mix the other.
  lemma Mpeg2Split(c: bv32)
    ensures Iter(Mpeg2Turn, c, 8) == Xor32(c << 8, Iter(Mpeg2Turn, c & 0xFF000000, 8))
  {
    Iter8(Mpeg2Turn, c & 0x00FFFFFF);
    Mpeg2Far(c);
    Mpeg2Ends(c);
    Mpeg2Xor(c & 0x00FFFFFF, c & 0xFF000000, 8);
  }

  lemma Mpeg2Join(x: bv32, moved: bv32, at: bv32, e: bv32)
    requires moved == x << 8 && at == x & 0xFF000000 && e == Iter(Mpeg2Turn, at, 8)
    ensures moved ^ e == Iter(Mpeg2Turn, x, 8)
  {
    Mpeg2Split(x);
  }

  // `at` is the word whose eight turns the table holds.
  method Mpeg2Lookup(i: bv8, ghost at: bv32) returns (e: bv32)
    requires at == (i as bv32) << 24
    ensures e == Iter(Mpeg2Turn, at, 8)
  {
    Mpeg2Entry(i);
    Iter8(Mpeg2Turn, at);
    e := Mpeg2Table(i);
  }

  // `x` is the register with the byte added, `at` the part of it that picks the entry.
  method Mpeg2Combine(ghost c: bv32, ghost b: byte, ghost x: bv32, ghost at: bv32, moved: bv32, i: bv8) returns (crc: bv32)
    requires x == c ^ ((b as bv32) << 24)
    requires moved == x << 8 && at == x & 0xFF000000 && at == (i as bv32) << 24
    ensures crc == Mpeg2Byte(c, b)
  {
    var e := Mpeg2Lookup(i, at);
    Mpeg2Join(x, moved, at, e);
    crc := moved ^ e;
  }

  method Mpeg2TableByte(c: bv32, b: byte) returns (crc: bv32)
    ensures crc == Mpeg2Byte(c, b)
  {
    Mpeg2Index(c, b);
    ghost var x := c ^ ((b as bv32) << 24);
    crc := Mpeg2Combine(c, b, x, x & 0xFF000000, c << 8, Low32((c >> 24) ^ (b as bv32)));
  }

  // ---- The three entry points ----

  // `len` is narrowed to sixteen bits before the loop.
  method Modbus_Crc16Cal(ptr: array<byte>, len: int) returns (crc: bv16)
    requires len % 0x10000 <= ptr.Length
    ensures crc == Modbus(ptr[..len % 0x10000]) == Fold(ModbusByte, 0xFFFF, ptr[..len % 0x10000])
  {
    crc := 0xFFFF;
    var c2 := len % 0x10000;
    for c1 := 0 to c2
      invariant crc == Fold(ModbusByte, 0xFFFF, ptr[..c1])
    {
      crc := ModbusTableByte(crc, ptr[c1]);
      FoldNext(ModbusByte, 0xFFFF, ptr[..], c1, crc);
      assert ptr[..][..c1] == ptr[..c1] && ptr[..][..c1 + 1] == ptr[..c1 + 1];
    }
  }

  method Xmodem_Crc16Cal(ptr: array<byte>, len: nat) returns (crc: bv16)
    requires len <= ptr.Length
    ensures crc == Fold(XmodemByte, 0, ptr[..len])
  {
    crc := 0;
    for i := 0 to len
      invariant crc == Fold(XmodemByte, 0, ptr[..i])
    {
      crc := XmodemTableByte(crc, ptr[i]);
      FoldNext(XmodemByte, 0, ptr[..], i, crc);
      assert ptr[..][..i] == ptr[..i] && ptr[..][..i + 1] == ptr[..i + 1];
    }
  }

  // A length of zero or less leaves the register untouched.
  method Calcu_Crc32(icrc: bv32, data: array<byte>, len: int) returns (crc: bv32)
    requires len <= data.Length
    ensures crc == Fold(Mpeg2Byte, icrc, data[..if len < 0 then 0 else len])
  {
    crc := icrc;
    var i := 0;
    while i < len
      invariant 0 <= i <= (if len < 0 then 0 else len)
      invariant crc == Fold(Mpeg2Byte, icrc, data[..i])
    {
      crc := Mpeg2TableByte(crc, data[i]);
      FoldNext(Mpeg2Byte, icrc, data[..], i, crc);
      assert data[..][..i] == data[..i] && data[..][..i + 1] == data[..i + 1];
      i := i + 1;
    }
  }
}
