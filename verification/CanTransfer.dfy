// Bytes of the CAN transfer layer: a word travels low byte first.
module CanWords {
  import opened CrcBits

  function Lo(w: bv16): byte { (w & 0xFF) as bv8 }
  function Hi(w: bv16): byte { ((w >> 8) & 0xFF) as bv8 }
  function Word(lo: byte, hi: byte): bv16 { (lo as bv16) | ((hi as bv16) << 8) }

  lemma {:induction false} WordOfBytes(w: bv16)
    ensures Word(Lo(w), Hi(w)) == w
  {}

  lemma {:induction false} BytesOfWord(lo: byte, hi: byte)
    ensures Lo(Word(lo, hi)) == lo && Hi(Word(lo, hi)) == hi
  {}

  // A word used as a number.
  type u16 = x: int | 0 <= x < 0x10000

  // The value of a byte.
  function Value(b: byte): int { b as int }

  lemma SmallByte(b: byte)
    ensures 0 <= b as int < 256
  {}

  lemma NextByte(b: byte)
    ensures (b + 1) as int == if b == 255 then 0 else b as int + 1
  {}

  lemma LastByte(b: byte)
    ensures b == 255 <==> b as int == 255
  {}

  lemma SameByte(a: byte, b: byte)
    requires a as int == b as int
    ensures a == b
  {}

  // The byte with a given value.
  function ByteOf(n: nat): (b: byte)
    requires n < 256
    ensures Value(b) == n
  {
    if n == 0 then 0
    else
      NextByte(ByteOf(n - 1)); LastByte(ByteOf(n - 1));
      ByteOf(n - 1) + 1
  }

  function Low(n: u16): byte { ByteOf(n % 256) }
  function High(n: u16): byte { ByteOf(n / 256) }

  function Number(lo: byte, hi: byte): (n: u16) {
    SmallByte(lo); SmallByte(hi);
    Value(lo) + 256 * Value(hi)
  }

  lemma NumberOfBytes(n: u16)
    ensures Number(Low(n), High(n)) == n
  {
  }

  lemma Digits256(lo: nat, hi: nat)
    requires lo < 256
    ensures (lo + 256 * hi) % 256 == lo && (lo + 256 * hi) / 256 == hi
  {}

  lemma ByteBack(b: byte)
    ensures 0 <= Value(b) < 256 && ByteOf(Value(b)) == b
  {
    SmallByte(b);
    SameByte(ByteOf(Value(b)), b);
  }

  lemma SplitNumber(lo: byte, hi: byte, v: nat, w: nat, n: u16)
    requires v < 256 && w < 256 && n == v + 256 * w && ByteOf(v) == lo && ByteOf(w) == hi
    ensures Low(n) == lo && High(n) == hi
  {
    Digits256(v, w);
  }

  lemma BytesOfNumber(lo: byte, hi: byte)
    ensures Low(Number(lo, hi)) == lo && High(Number(lo, hi)) == hi
  {
    ByteBack(lo); ByteBack(hi);
    SplitNumber(lo, hi, Value(lo), Value(hi), Number(lo, hi));
  }
}

// main/Communication/Can/can_extended.c: a payload of up to 65535 bytes is announced
// by one frame and carried by numbered frames of six bytes.
module CanTransfer {
  import opened CanWords
  import opened CrcBits
  import opened Crc
  import CrcBurst

  const ADDR_MASTER: byte := 0x10
  const WRITE_START: byte := 0x60
  const WRITE_DATA: byte := 0x61
  const WRITE_RESPONSE: byte := 0x62
  const READ_DATA_START: byte := 0x64
  const READ_DATA_LOAD: byte := 0x65

  const ACK_OK := 0
  const ACK_LEN_ERR := 2
  const ACK_DATA_LOST := 3
  const ACK_CRC_ERR := 4
  const ACK_PARAM_ERR := 5
  const ACK_TIMEOUT := 6

  datatype Frame = Frame(pf: byte, edp: byte, dp: byte, ps: byte, sa: byte, data: seq<byte>)

  // One turn of a receive loop: a frame, the deadline, or a failure of the queue.
  datatype Event = Got(frame: Frame) | Late | Broken(ret: int)

  // What the master asked for.
  datatype Link = Link(target: byte, source: byte, kind: byte, offset: bv16, capacity: u16)

  function Master(source: byte): byte { if source != 0 then source else ADDR_MASTER }

  predicate Matches(f: Frame, link: Link, pf: byte) {
    f.pf == pf && f.edp == 0 && f.dp == 0 && f.ps == Master(link.source) && (link.target != 0 ==> f.sa == link.target)
  }

  // ---- Sending ----

  function Min(a: nat, b: nat): nat { if a < b then a else b }

  // The bytes that mean something in each data frame; numbers wrap at 256.
  function Loads(p: seq<byte>, kind: byte, no: byte): seq<seq<byte>> {
    if p == [] then [] else [[kind, no] + p[..Min(6, |p|)]] + Loads(p[Min(6, |p|)..], kind, no + 1)
  }

  function Announcement(kind: byte, offset: bv16, size: u16, crc: bv16): (r: seq<byte>)
    ensures |r| == 7
  {
    [kind, Lo(offset), Hi(offset), Low(size), High(size), Lo(crc), Hi(crc)]
  }

  // A frame is always sent full; what the item leaves over is zero.
  function Padded(item: seq<byte>): (data: seq<byte>)
    ensures |data| == (if |item| < 8 then 8 else |item|) && item <= data
    ensures forall i :: |item| <= i < |data| ==> data[i] == 0
    decreases 8 - |item|
  {
    if |item| >= 8 then item else Padded(item + [0])
  }

  function Sealed(pf: byte, target: byte, source: byte, item: seq<byte>): Frame {
    Frame(pf, 0, 0, target, Master(source), Padded(item))
  }

  function SealedAll(pf: byte, target: byte, source: byte, items: seq<seq<byte>>): (r: seq<Frame>)
    ensures |r| == |items|
  {
    if items == [] then [] else [Sealed(pf, target, source, items[0])] + SealedAll(pf, target, source, items[1..])
  }

  function Fragments(target: byte, source: byte, kind: byte, offset: bv16, p: seq<byte>, crc: bv16): seq<Frame>
    requires |p| < 0x10000
  {
    [Sealed(WRITE_START, target, source, Announcement(kind, offset, |p|, crc))]
    + SealedAll(WRITE_DATA, target, source, Loads(p, kind, 0))
  }

  // One turn of the sender's loop: the frame sent is the first of those still due.
  function Due(target: byte, source: byte, kind: byte, p: seq<byte>, copied: nat, no: byte): seq<Frame>
    requires copied <= |p|
  {
    SealedAll(WRITE_DATA, target, source, Loads(p[copied..], kind, no))
  }

  lemma {:induction false} DueTurn(target: byte, source: byte, kind: byte, p: seq<byte>, copied: nat, no: byte, item: seq<byte>)
    requires copied < |p| && item == [kind, no] + p[copied..copied + Min(6, |p| - copied)]
    ensures Due(target, source, kind, p, copied, no) ==
            [Sealed(WRITE_DATA, target, source, item)]
            + Due(target, source, kind, p, copied + Min(6, |p| - copied), no + 1)
  {
    var chunk := Min(6, |p| - copied);
    var items := Loads(p[copied..], kind, no);
    assert p[copied..][..chunk] == p[copied..copied + chunk];
    assert p[copied..][chunk..] == p[copied + chunk..];
    assert items[0] == item && items[1..] == Loads(p[copied + chunk..], kind, no + 1);
  }

  lemma {:induction false} NothingDue(target: byte, source: byte, kind: byte, p: seq<byte>, no: byte)
    ensures Due(target, source, kind, p, |p|, no) == []
  {
    assert p[|p|..] == [];
  }

  lemma {:induction false} TakeNext<T>(all: seq<T>, n: nat, x: T, rest: seq<T>)
    requires n <= |all| && all[n..] == [x] + rest
    ensures n < |all| && all[..n + 1] == all[..n] + [x] && all[n + 1..] == rest
  {
    assert all[n..][0] == x && all[n..][1..] == rest;
  }

  // ---- Receiving, as a function of the events seen ----

  datatype Outcome = Done(payload: seq<byte>) | Fail(ret: int, code: u16, got: seq<byte>)

  predicate Relevant(e: Event, link: Link, pf: byte, least: nat) {
    e.Got? && Matches(e.frame, link, pf) && |e.frame.data| >= least > 0 && e.frame.data[0] == link.kind
  }

  datatype Opening = Opened(size: u16, crc: bv16, rest: seq<Event>) | Failed(ret: int, code: u16)

  // Wait for the announcement.
  function Open(inbox: seq<Event>, link: Link): Opening {
    if inbox == [] || inbox[0].Late? then Failed(-5, ACK_TIMEOUT)
    else if inbox[0].Broken? then Failed(inbox[0].ret, ACK_TIMEOUT)
    else if !Relevant(inbox[0], link, READ_DATA_START, 8) then Open(inbox[1..], link)
    else
      var d := inbox[0].frame.data;
      if Word(d[1], d[2]) != link.offset then Failed(-1, ACK_PARAM_ERR)
      else if Number(d[3], d[4]) > link.capacity then Failed(-1, ACK_LEN_ERR)
      else Opened(Number(d[3], d[4]), Word(d[5], d[6]), inbox[1..])
  }

  // Collect what was announced.
  function Collect(inbox: seq<Event>, link: Link, size: u16, got: seq<byte>, no: byte): Outcome {
    if |got| >= size then Done(got)
    else if inbox == [] || inbox[0].Late? then Fail(-5, ACK_TIMEOUT, got)
    else if inbox[0].Broken? then Fail(inbox[0].ret, ACK_TIMEOUT, got)
    else if !Relevant(inbox[0], link, READ_DATA_LOAD, 2) then Collect(inbox[1..], link, size, got, no)
    else
      var d := inbox[0].frame.data;
      var chunk := Min(6, size - |got|);
      if d[1] != no || |d| - 2 < chunk then Fail(-1, ACK_DATA_LOST, got)
      else Collect(inbox[1..], link, size, got + d[2..2 + chunk], no + 1)
  }

  function Checked(o: Outcome, crc: bv16): Outcome {
    if o.Done? && Modbus(o.payload) != crc then Fail(-1, ACK_CRC_ERR, o.payload) else o
  }

  function Await(inbox: seq<Event>, link: Link): Outcome {
    match Open(inbox, link)
    case Failed(ret, code) => Fail(ret, code, [])
    case Opened(size, crc, rest) => Checked(Collect(rest, link, size, [], 0), crc)
  }

  // One turn of the second loop.
  lemma {:induction false} CollectTurn(inbox: seq<Event>, i: nat, link: Link, size: u16, got: seq<byte>, no: byte)
    requires i < |inbox| && |got| < size && inbox[i].Got?
    ensures var now, next := Collect(inbox[i..], link, size, got, no), inbox[i + 1..];
      if !Relevant(inbox[i], link, READ_DATA_LOAD, 2) then now == Collect(next, link, size, got, no)
      else
        var d, chunk := inbox[i].frame.data, Min(6, size - |got|);
        if d[1] != no || |d| - 2 < chunk then now == Fail(-1, ACK_DATA_LOST, got)
        else now == Collect(next, link, size, got + d[2..2 + chunk], no + 1)
  {
    assert inbox[i..][0] == inbox[i] && inbox[i..][1..] == inbox[i + 1..];
  }

  // ---- What acceptance means ----

  // The data frames seen carry these items one after the other.
  predicate CarriesLoads(inbox: seq<Event>, link: Link, items: seq<seq<byte>>) {
    items != [] ==>
      && inbox != [] && inbox[0].Got?
      && if Relevant(inbox[0], link, READ_DATA_LOAD, 2)
         then items[0] <= inbox[0].frame.data && CarriesLoads(inbox[1..], link, items[1..])
         else CarriesLoads(inbox[1..], link, items)
  }

  // The first start frame seen makes this announcement, and then these items follow.
  predicate Carries(inbox: seq<Event>, link: Link, start: seq<byte>, items: seq<seq<byte>>) {
    && inbox != [] && inbox[0].Got?
    && if Relevant(inbox[0], link, READ_DATA_START, 8)
       then start <= inbox[0].frame.data && CarriesLoads(inbox[1..], link, items)
       else Carries(inbox[1..], link, start, items)
  }

  lemma {:induction false} CollectExactly(inbox: seq<Event>, link: Link, p: seq<byte>, got: seq<byte>, no: byte, size: u16)
    requires |got| <= size
    ensures Collect(inbox, link, size, got, no) == Done(p) <==>
            |p| == size && got <= p && CarriesLoads(inbox, link, Loads(p[|got|..], link.kind, no))
    decreases |inbox|
  {
    if |got| == size {
      if got <= p && |p| == size { assert got == p; }
    } else if inbox != [] && inbox[0].Got? {
      var rest := inbox[1..];
      if !Relevant(inbox[0], link, READ_DATA_LOAD, 2) {
        CollectExactly(rest, link, p, got, no, size);
      } else {
        var d := inbox[0].frame.data;
        var chunk := Min(6, size - |got|);
        if d[1] == no && |d| - 2 >= chunk {
          var more := got + d[2..2 + chunk];
          CollectExactly(rest, link, p, more, no + 1, size);
          if |p| == size && got <= p {
            NextItem(d, link.kind, no, p, got, chunk);
          }
        } else if |p| == size && got <= p {
          NextItem(d, link.kind, no, p, got, chunk);
        }
      }
    }
  }

  // One data frame matches the next item exactly when it brings the next bytes.
  lemma {:induction false} NextItem(d: seq<byte>, kind: byte, no: byte, p: seq<byte>, got: seq<byte>, chunk: nat)
    requires got <= p && |got| < |p| && chunk == Min(6, |p| - |got|) && |d| >= 2 && d[0] == kind
    ensures var items := Loads(p[|got|..], kind, no);
      && items != []
      && items[1..] == Loads(p[|got| + chunk..], kind, no + 1)
      && (items[0] <= d <==> d[1] == no && |d| - 2 >= chunk && got + d[2..2 + chunk] <= p)
  {
    var tail := p[|got|..];
    assert tail[chunk..] == p[|got| + chunk..];
    assert tail[..chunk] == p[|got|..|got| + chunk];
    var item := [kind, no] + tail[..chunk];
    assert Loads(tail, kind, no)[0] == item;
    if |d| - 2 >= chunk {
      assert d[..2 + chunk] == d[..2] + d[2..2 + chunk];
      assert item <= d <==> item == d[..2 + chunk];
      if got + d[2..2 + chunk] <= p {
        assert d[2..2 + chunk] == (got + d[2..2 + chunk])[|got|..] == p[..|got| + chunk][|got|..] == tail[..chunk];
      }
      if item <= d {
        assert d[2..2 + chunk] == item[2..] == tail[..chunk];
        assert got + tail[..chunk] == p[..|got| + chunk];
      }
    }
  }

  // A start frame makes p's announcement exactly when its fields read back so.
  lemma {:induction false} Announced(d: seq<byte>, kind: byte, offset: bv16, size: u16, crc: bv16)
    requires |d| >= 8 && d[0] == kind
    ensures Announcement(kind, offset, size, crc) <= d <==>
            Word(d[1], d[2]) == offset && Number(d[3], d[4]) == size && Word(d[5], d[6]) == crc
  {
    var a := Announcement(kind, offset, size, crc);
    SameWord(offset, d[1], d[2]); SameNumber(size, d[3], d[4]); SameWord(crc, d[5], d[6]);
    assert a <= d <==> a == d[..7];
    assert d[..7] == [d[0], d[1], d[2], d[3], d[4], d[5], d[6]];
  }

  lemma {:induction false} SameWord(w: bv16, lo: byte, hi: byte)
    ensures (Lo(w) == lo && Hi(w) == hi) <==> Word(lo, hi) == w
  {
    WordOfBytes(w); BytesOfWord(lo, hi);
  }

  lemma {:induction false} SameNumber(n: u16, lo: byte, hi: byte)
    ensures (Low(n) == lo && High(n) == hi) <==> Number(lo, hi) == n
  {
    NumberOfBytes(n); BytesOfNumber(lo, hi);
  }

  // The case of a start frame at the front.
  lemma {:induction false} AcceptsFrom(inbox: seq<Event>, link: Link, p: seq<byte>, size: u16, crc: bv16)
    requires inbox != [] && Relevant(inbox[0], link, READ_DATA_START, 8)
    requires Open(inbox, link) == Opened(size, crc, inbox[1..])
    ensures Await(inbox, link) == Done(p) <==>
            |p| == size && Modbus(p) == crc && CarriesLoads(inbox[1..], link, Loads(p, link.kind, 0))
  {
    assert p[0..] == p;
    CollectExactly(inbox[1..], link, p, [], 0, size);
  }

  lemma {:induction false} CarriesFrom(inbox: seq<Event>, link: Link, p: seq<byte>)
    requires inbox != [] && Relevant(inbox[0], link, READ_DATA_START, 8) && |p| < 0x10000
    ensures var d := inbox[0].frame.data;
      Carries(inbox, link, Announcement(link.kind, link.offset, |p|, Modbus(p)), Loads(p, link.kind, 0)) <==>
        && Word(d[1], d[2]) == link.offset && Number(d[3], d[4]) == |p| && Word(d[5], d[6]) == Modbus(p)
        && CarriesLoads(inbox[1..], link, Loads(p, link.kind, 0))
  {
    Announced(inbox[0].frame.data, link.kind, link.offset, |p|, Modbus(p));
  }

  // The receiver returns p exactly when the frames it saw announce p's offset, length
  // and checksum and then carry p's fragments in order, and p fits.
  lemma {:induction false} AcceptsExactly(inbox: seq<Event>, link: Link, p: seq<byte>)
    ensures Await(inbox, link) == Done(p) <==>
            && |p| <= link.capacity
            && Carries(inbox, link, Announcement(link.kind, link.offset, |p|, Modbus(p)), Loads(p, link.kind, 0))
  {
    if inbox != [] && inbox[0].Got? {
      if !Relevant(inbox[0], link, READ_DATA_START, 8) {
        AcceptsExactly(inbox[1..], link, p);
      } else {
        if |p| <= link.capacity { CarriesFrom(inbox, link, p); }
        var o := Open(inbox, link);
        if o.Opened? { AcceptsFrom(inbox, link, p, o.size, o.crc); }
      }
    }
  }

  // ---- Round trip ----

  // A slave answers with the frames the sender would send, under the read formats.
  function Answer(f: Frame, link: Link, slave: byte): Frame {
    f.(pf := f.pf + 4, ps := Master(link.source), sa := slave)
  }

  function Answers(fs: seq<Frame>, link: Link, slave: byte): (r: seq<Frame>)
    ensures |r| == |fs|
  {
    if fs == [] then [] else [Answer(fs[0], link, slave)] + Answers(fs[1..], link, slave)
  }

  predicate Noise(e: Event, link: Link) {
    e.Got? && !Matches(e.frame, link, READ_DATA_START) && !Matches(e.frame, link, READ_DATA_LOAD)
  }

  // The frames arrive in order among others that do not match.
  predicate Woven(inbox: seq<Event>, fs: seq<Frame>, link: Link) {
    fs == [] || (inbox != [] && (
      || (inbox[0] == Got(fs[0]) && Woven(inbox[1..], fs[1..], link))
      || (Noise(inbox[0], link) && Woven(inbox[1..], fs, link))))
  }

  lemma {:induction false} LoadsArrive(inbox: seq<Event>, link: Link, slave: byte, target: byte, source: byte, items: seq<seq<byte>>)
    requires link.target != 0 ==> slave == link.target
    requires forall i :: 0 <= i < |items| ==> |items[i]| >= 2 && items[i][0] == link.kind
    requires Woven(inbox, Answers(SealedAll(WRITE_DATA, target, source, items), link, slave), link)
    ensures CarriesLoads(inbox, link, items)
    decreases |inbox|
  {
    if items != [] {
      var f := Answer(Sealed(WRITE_DATA, target, source, items[0]), link, slave);
      var fs := SealedAll(WRITE_DATA, target, source, items);
      assert fs[0] == Sealed(WRITE_DATA, target, source, items[0]);
      assert fs[1..] == SealedAll(WRITE_DATA, target, source, items[1..]);
      assert Answers(fs, link, slave)[0] == f;
      assert Answers(fs, link, slave)[1..] == Answers(fs[1..], link, slave);
      if inbox[0] == Got(f) && Woven(inbox[1..], Answers(fs, link, slave)[1..], link) {
        LoadsArrive(inbox[1..], link, slave, target, source, items[1..]);
        assert items[0] <= f.data;
      } else {
        LoadsArrive(inbox[1..], link, slave, target, source, items);
      }
    }
  }

  lemma {:induction false} StartArrives(inbox: seq<Event>, link: Link, slave: byte, target: byte, source: byte, start: seq<byte>, items: seq<seq<byte>>)
    requires link.target != 0 ==> slave == link.target
    requires |start| == 7 && start[0] == link.kind
    requires forall i :: 0 <= i < |items| ==> |items[i]| >= 2 && items[i][0] == link.kind
    requires Woven(inbox, [Answer(Sealed(WRITE_START, target, source, start), link, slave)]
                          + Answers(SealedAll(WRITE_DATA, target, source, items), link, slave), link)
    ensures Carries(inbox, link, start, items)
    decreases |inbox|
  {
    var f := Answer(Sealed(WRITE_START, target, source, start), link, slave);
    var fs := Answers(SealedAll(WRITE_DATA, target, source, items), link, slave);
    assert ([f] + fs)[0] == f && ([f] + fs)[1..] == fs;
    if inbox[0] == Got(f) && Woven(inbox[1..], fs, link) {
      LoadsArrive(inbox[1..], link, slave, target, source, items);
      assert start <= f.data;
    } else {
      StartArrives(inbox[1..], link, slave, target, source, start, items);
    }
  }

  lemma {:induction false} LoadsKind(p: seq<byte>, kind: byte, no: byte)
    ensures forall i :: 0 <= i < |Loads(p, kind, no)| ==> 2 <= |Loads(p, kind, no)[i]| <= 8 && Loads(p, kind, no)[i][0] == kind
  {
    if p != [] { LoadsKind(p[Min(6, |p|)..], kind, no + 1); }
  }

  // Any payload that fits the buffer comes back whole, whatever else is on the bus.
  lemma {:induction false} RoundTrip(inbox: seq<Event>, link: Link, slave: byte, target: byte, source: byte, p: seq<byte>)
    requires |p| <= link.capacity
    requires link.target != 0 ==> slave == link.target
    requires Woven(inbox, Answers(Fragments(target, source, link.kind, link.offset, p, Modbus(p)), link, slave), link)
    ensures Await(inbox, link) == Done(p)
  {
    var start, items := Announcement(link.kind, link.offset, |p|, Modbus(p)), Loads(p, link.kind, 0);
    var first, more := Sealed(WRITE_START, target, source, start), SealedAll(WRITE_DATA, target, source, items);
    assert ([first] + more)[1..] == more;
    LoadsKind(p, link.kind, 0);
    StartArrives(inbox, link, slave, target, source, start, items);
    AcceptsExactly(inbox, link, p);
  }

  // ---- Damage ----

  // If the announcement of p gets through, a payload of p's length that differs from
  // p only within sixteen consecutive bits is never returned in its place.
  lemma {:induction false} DamageNeverAccepted(inbox: seq<Event>, link: Link, p: seq<byte>, items: seq<seq<byte>>, q: seq<byte>, k: nat)
    requires |p| < 0x10000 && |q| == |p| && q != p
    requires Carries(inbox, link, Announcement(link.kind, link.offset, |p|, Modbus(p)), items)
    requires forall i :: 0 <= i < 8 * |p| && !(k <= i < k + 16) ==> CrcBurst.Bits(p)[i] == CrcBurst.Bits(q)[i]
    ensures Await(inbox, link) != Done(q)
  {
    if Await(inbox, link) == Done(q) {
      AcceptsExactly(inbox, link, q);
      SameAnnouncement(inbox, link, Announcement(link.kind, link.offset, |p|, Modbus(p)), items,
                       Announcement(link.kind, link.offset, |q|, Modbus(q)), Loads(q, link.kind, 0));
      WordOfBytes(Modbus(p)); WordOfBytes(Modbus(q));
      var a, b := Announcement(link.kind, link.offset, |p|, Modbus(p)), Announcement(link.kind, link.offset, |q|, Modbus(q));
      assert a[5] == b[5] && a[6] == b[6];
      CrcBurst.BurstDetected(p, q, k);
    }
  }

  lemma {:induction false} SameAnnouncement(inbox: seq<Event>, link: Link, a: seq<byte>, items: seq<seq<byte>>, b: seq<byte>, others: seq<seq<byte>>)
    requires |a| == |b| && Carries(inbox, link, a, items) && Carries(inbox, link, b, others)
    ensures a == b
  {
    if !Relevant(inbox[0], link, READ_DATA_START, 8) {
      SameAnnouncement(inbox[1..], link, a, items, b, others);
    } else {
      assert a == inbox[0].frame.data[..|a|] == b;
    }
  }

  // ---- Lost frames ----

  // The number of the i-th data frame.
  function NumberAfter(no: byte, i: nat): byte
    decreases i
  {
    if i == 0 then no else NumberAfter(no + 1, i - 1)
  }

  lemma {:induction false} NumbersWrap(no: byte, i: nat)
    ensures Value(NumberAfter(no, i)) == (Value(no) + i) % 256
    decreases i
  {
    SmallByte(no);
    if i > 0 {
      NumbersWrap(no + 1, i - 1);
      NextByte(no); LastByte(no);
      WrapStep(Value(no), i);
    }
  }

  lemma WrapStep(v: nat, i: nat)
    requires v < 256 && i > 0
    ensures ((if v == 255 then 0 else v + 1) + (i - 1)) % 256 == (v + i) % 256
  {}

  lemma {:induction false} LoadsNumbered(p: seq<byte>, kind: byte, no: byte, i: nat)
    requires i < |Loads(p, kind, no)|
    ensures |Loads(p, kind, no)[i]| >= 2 && Loads(p, kind, no)[i][1] == NumberAfter(no, i)
    decreases i
  {
    if i > 0 { LoadsNumbered(p[Min(6, |p|)..], kind, no + 1, i - 1); }
  }

  lemma {:induction false} SameCount(p: seq<byte>, q: seq<byte>, kind: byte, no: byte)
    requires |p| == |q|
    ensures |Loads(p, kind, no)| == |Loads(q, kind, no)|
  {
    if p != [] { SameCount(p[Min(6, |p|)..], q[Min(6, |p|)..], kind, no + 1); }
  }

  // What two readings of one inbox agree on.
  lemma {:induction false} SameNumbers(inbox: seq<Event>, link: Link, a: seq<seq<byte>>, b: seq<seq<byte>>, i: nat)
    requires CarriesLoads(inbox, link, a) && CarriesLoads(inbox, link, b)
    requires i < |a| && i < |b| && |a[i]| >= 2 && |b[i]| >= 2
    ensures a[i][1] == b[i][1]
    decreases |inbox|
  {
    if !Relevant(inbox[0], link, READ_DATA_LOAD, 2) {
      SameNumbers(inbox[1..], link, a, b, i);
    } else if i > 0 {
      SameNumbers(inbox[1..], link, a[1..], b[1..], i - 1);
    } else {
      var d := inbox[0].frame.data;
      assert a[0][1] == d[1] == b[0][1];
    }
  }

  lemma {:induction false} SameLoads(inbox: seq<Event>, link: Link, a: seq<byte>, items: seq<seq<byte>>, b: seq<byte>, others: seq<seq<byte>>, i: nat)
    requires Carries(inbox, link, a, items) && Carries(inbox, link, b, others)
    requires i < |items| && i < |others| && |items[i]| >= 2 && |others[i]| >= 2
    ensures items[i][1] == others[i][1]
  {
    if Relevant(inbox[0], link, READ_DATA_START, 8) {
      SameNumbers(inbox[1..], link, items, others, i);
    } else {
      SameLoads(inbox[1..], link, a, items, b, others, i);
    }
  }

  lemma {:induction false} SizeAnnounced(a: seq<byte>, m: u16, n: u16, kind: byte, offset: bv16, c: bv16, d: bv16)
    requires a == Announcement(kind, offset, m, c) == Announcement(kind, offset, n, d)
    ensures m == n
  {
    NumberOfBytes(m); NumberOfBytes(n);
    assert a[3] == Low(m) == Low(n) && a[4] == High(m) == High(n);
  }

  // If some data frames in the middle are lost, and not a multiple of 256 of them,
  // the receiver never returns a payload.
  lemma {:induction false} LostFramesNoticed(inbox: seq<Event>, link: Link, p: seq<byte>, i: nat, lost: nat, q: seq<byte>)
    requires |p| < 0x10000 && i + lost < |Loads(p, link.kind, 0)| && lost % 256 != 0
    requires Carries(inbox, link, Announcement(link.kind, link.offset, |p|, Modbus(p)),
                     Loads(p, link.kind, 0)[..i] + Loads(p, link.kind, 0)[i + lost..])
    ensures Await(inbox, link) != Done(q)
  {
    if Await(inbox, link) == Done(q) {
      AcceptsExactly(inbox, link, q);
      var all, mine := Loads(p, link.kind, 0), Loads(q, link.kind, 0);
      var items := all[..i] + all[i + lost..];
      var a, b := Announcement(link.kind, link.offset, |p|, Modbus(p)), Announcement(link.kind, link.offset, |q|, Modbus(q));
      SameAnnouncement(inbox, link, a, items, b, mine);
      SizeAnnounced(a, |p|, |q|, link.kind, link.offset, Modbus(p), Modbus(q));
      SameCount(p, q, link.kind, 0);
      assert items[i] == all[i + lost];
      LoadsNumbered(p, link.kind, 0, i + lost);
      LoadsNumbered(q, link.kind, 0, i);
      SameLoads(inbox, link, a, items, b, mine, i);
      NumbersWrap(0, i); NumbersWrap(0, i + lost);
    }
  }

  // The data frames of a transfer among what was seen.
  function Arrived(inbox: seq<Event>, link: Link): nat {
    if inbox == [] then 0
    else (if Relevant(inbox[0], link, READ_DATA_LOAD, 2) then 1 else 0) + Arrived(inbox[1..], link)
  }

  lemma {:induction false} CarriedArrived(inbox: seq<Event>, link: Link, items: seq<seq<byte>>)
    requires CarriesLoads(inbox, link, items)
    ensures |items| <= Arrived(inbox, link)
    decreases |inbox|
  {
    if items != [] {
      CarriedArrived(inbox[1..], link, if Relevant(inbox[0], link, READ_DATA_LOAD, 2) then items[1..] else items);
    }
  }

  lemma {:induction false} AllArrived(inbox: seq<Event>, link: Link, start: seq<byte>, items: seq<seq<byte>>)
    requires Carries(inbox, link, start, items)
    ensures |items| <= Arrived(inbox, link)
  {
    if Relevant(inbox[0], link, READ_DATA_START, 8) {
      CarriedArrived(inbox[1..], link, items);
    } else {
      AllArrived(inbox[1..], link, start, items);
    }
  }

  // However many frames are lost, and wherever: if fewer data frames arrive than the
  // announced payload has, none is returned.
  lemma {:induction false} TooFewNoticed(inbox: seq<Event>, link: Link, p: seq<byte>, items: seq<seq<byte>>, q: seq<byte>)
    requires |p| < 0x10000 && Carries(inbox, link, Announcement(link.kind, link.offset, |p|, Modbus(p)), items)
    requires Arrived(inbox, link) < |Loads(p, link.kind, 0)|
    ensures Await(inbox, link) != Done(q)
  {
    if Await(inbox, link) == Done(q) {
      AcceptsExactly(inbox, link, q);
      var a, b := Announcement(link.kind, link.offset, |p|, Modbus(p)), Announcement(link.kind, link.offset, |q|, Modbus(q));
      SameAnnouncement(inbox, link, a, items, b, Loads(q, link.kind, 0));
      SizeAnnounced(a, |p|, |q|, link.kind, link.offset, Modbus(p), Modbus(q));
      SameCount(p, q, link.kind, 0);
      AllArrived(inbox, link, b, Loads(q, link.kind, 0));
    }
  }

  // ---- The transfer object ----

  datatype WriteReply = WriteReply(ret: int, code: u16)

  // The first frame that answers the write decides.
  function AwaitWrite(inbox: seq<Event>, link: Link, size: u16): WriteReply {
    if inbox == [] || inbox[0].Late? then WriteReply(-5, ACK_TIMEOUT)
    else if inbox[0].Broken? then WriteReply(inbox[0].ret, ACK_TIMEOUT)
    else if !Relevant(inbox[0], link, WRITE_RESPONSE, 8) then AwaitWrite(inbox[1..], link, size)
    else
      var d := inbox[0].frame.data;
      var err: int := Number(d[5], d[6]);
      if Word(d[1], d[2]) != link.offset || Number(d[3], d[4]) != size then WriteReply(-1, err)
      else if err != ACK_OK then WriteReply(-err, err)
      else WriteReply(8, err)
  }

  // Frame k is the first to answer the write, and it echoes the write with no error.
  predicate Confirms(inbox: seq<Event>, link: Link, size: u16, k: nat) {
    && k < |inbox| && (forall j :: 0 <= j < k ==> inbox[j].Got? && !Relevant(inbox[j], link, WRITE_RESPONSE, 8))
    && Relevant(inbox[k], link, WRITE_RESPONSE, 8)
    && var d := inbox[k].frame.data;
       Word(d[1], d[2]) == link.offset && Number(d[3], d[4]) == size && Number(d[5], d[6]) == ACK_OK
  }

  lemma {:induction false} ConfirmedExactly(inbox: seq<Event>, link: Link, size: u16)
    requires forall i :: 0 <= i < |inbox| && inbox[i].Broken? ==> inbox[i].ret < 0
    ensures AwaitWrite(inbox, link, size).ret > 0 <==> exists k: nat :: Confirms(inbox, link, size, k)
  {
    if inbox != [] && inbox[0].Got? && !Relevant(inbox[0], link, WRITE_RESPONSE, 8) {
      ConfirmedExactly(inbox[1..], link, size);
      if k: nat :| Confirms(inbox[1..], link, size, k) { assert Confirms(inbox, link, size, k + 1); }
      if k: nat :| Confirms(inbox, link, size, k) { assert Confirms(inbox[1..], link, size, k - 1); }
    } else if AwaitWrite(inbox, link, size).ret > 0 {
      assert Confirms(inbox, link, size, 0);
    }
  }

  class Transfer {
    var target: byte
    var source: byte
    var kind: byte
    var offset: bv16
    var length: u16
    var txPayload: array?<byte>
    var txLen: u16
    var rxPayload: array?<byte>
    var rxCapacity: u16
    var rxLen: u16
    var crc16: bv16
    var errorCode: u16

    constructor (target: byte, source: byte, kind: byte, offset: bv16, length: u16)
      ensures this.target == target && this.source == source && this.kind == kind && this.offset == offset
      ensures this.length == length && txPayload == null && rxPayload == null
    {
      this.target, this.source, this.kind, this.offset, this.length := target, source, kind, offset, length;
      txPayload, txLen, rxPayload, rxCapacity, rxLen, crc16, errorCode := null, 0, null, 0, 0, 0, 0;
    }

    // The buffers are as long as their owner says.
    predicate Valid()
      reads `txPayload, `txLen, `rxPayload, `rxCapacity
    {
      (txPayload != null ==> txLen <= txPayload.Length) && (rxPayload != null ==> rxCapacity <= rxPayload.Length)
    }

    function Wanted(): Link
      reads `target, `source, `kind, `offset, `rxCapacity
    {
      Link(target, source, kind, offset, rxCapacity)
    }

    // Write a payload. The bus takes `accepts` frames before it first fails.
    method SendWriteSequence(accepts: nat) returns (ret: int, sent: seq<Frame>)
      requires Valid()
      modifies `length, `crc16, `errorCode
      ensures txPayload == null || txLen == 0 || old(length) > txLen ==>
        ret == -1 && sent == [] && unchanged(this)
      ensures txPayload != null && txLen != 0 && old(length) <= txLen ==>
        && length == (if old(length) != 0 then old(length) else txLen) && errorCode == ACK_OK
        && crc16 == Modbus(txPayload[..length])
        && var all := Fragments(target, source, kind, offset, txPayload[..length], crc16);
           sent == all[..Min(accepts, |all|)] && ret == if accepts < |all| then -1 else 8 * |all|
    {
      var total := if length != 0 then length else txLen;
      if txPayload == null || txLen == 0 || total > txLen { return -1, []; }
      Seal(total);
      ret, sent := SendAll(total, accepts);
    }

    method Seal(total: u16)
      requires txPayload != null && total <= txPayload.Length
      modifies `length, `crc16, `errorCode
      ensures length == total && errorCode == ACK_OK && crc16 == Modbus(txPayload[..total])
    {
      length := total;
      crc16 := Modbus_Crc16Cal(txPayload, total);
      errorCode := ACK_OK;
    }

    method SendAll(total: u16, accepts: nat) returns (ret: int, sent: seq<Frame>)
      requires txPayload != null && total <= txPayload.Length
      ensures var all := Fragments(target, source, kind, offset, txPayload[..total], crc16);
              sent == all[..Min(accepts, |all|)] && ret == if accepts < |all| then -1 else 8 * |all|
    {
      if accepts == 0 { return -1, []; }
      var first := Sealed(WRITE_START, target, source, Announcement(kind, offset, total, crc16));
      var ok, data := SendData(total, accepts - 1);
      sent := [first] + data;
      ret := if ok then 8 * |sent| else -1;
      assert txPayload[..total][0..] == txPayload[..total];
      assert Fragments(target, source, kind, offset, txPayload[..total], crc16)
          == [first] + Due(target, source, kind, txPayload[..total], 0, 0);
    }

    // The data frames, until the bus refuses one.
    method SendData(total: u16, room: nat) returns (ok: bool, sent: seq<Frame>)
      requires txPayload != null && total <= txPayload.Length
      ensures var all := Due(target, source, kind, txPayload[..total], 0, 0);
              sent == all[..Min(room, |all|)] && ok == (|all| <= room)
    {
      ghost var p := txPayload[..total];
      ghost var all := Due(target, source, kind, p, 0, 0);
      var copied, no: byte := 0, 0;
      sent := [];
      ok := true;
      while copied < total && ok
        decreases total - copied, ok
        invariant 0 <= copied <= total && |sent| <= room && |sent| <= |all|
        invariant sent == all[..|sent|]
        invariant if ok then all[|sent|..] == Due(target, source, kind, p, copied, no) else |sent| == room < |all|
      {
        ghost var rest;
        var msg, chunk;
        msg, chunk, rest := NextFrame(total, copied, no, p);
        TakeNext(all, |sent|, msg, rest);
        if |sent| == room {
          ok := false;
        } else {
          sent := sent + [msg];
          copied, no := copied + chunk, no + 1;
        }
      }
      if ok { NothingDue(target, source, kind, p, no); }
    }

    method NextFrame(total: u16, copied: nat, no: byte, ghost p: seq<byte>) returns (msg: Frame, chunk: nat, ghost rest: seq<Frame>)
      requires txPayload != null && copied < total <= txPayload.Length && p == txPayload[..total]
      ensures 0 < chunk && copied + chunk <= total
      ensures Due(target, source, kind, p, copied, no) == [msg] + rest
      ensures rest == Due(target, source, kind, p, copied + chunk, no + 1)
    {
      chunk := total - copied;
      if chunk > 6 { chunk := 6; }
      var item := [kind, no] + txPayload[copied..copied + chunk];
      DueTurn(target, source, kind, p, copied, no, item);
      msg := Sealed(WRITE_DATA, target, source, item);
      rest := Due(target, source, kind, p, copied + chunk, no + 1);
    }

    // Read a payload. The buffer changes only where the payload went.
    method ReceiveReadPayload(inbox: seq<Event>) returns (ret: int)
      requires Valid()
      modifies `length, `crc16, `errorCode, `rxLen, rxPayload
      ensures rxPayload == null || rxCapacity == 0 ==> ret == -1 && unchanged(this) && (rxPayload != null ==> unchanged(rxPayload))
      ensures rxPayload != null && rxCapacity != 0 ==> rxLen <= rxCapacity && Reports(Await(inbox, Wanted()), ret)
      ensures rxPayload != null && rxCapacity != 0 ==> rxPayload[rxLen..] == old(rxPayload[..])[rxLen..]
    {
      if rxPayload == null || rxCapacity == 0 { return -1; }
      rxLen := 0;
      errorCode := ACK_OK;
      var o := Read(inbox);
      if o.Fail? { errorCode := o.code; }
      ret := if o.Fail? then o.ret else rxLen;
    }

    method Read(inbox: seq<Event>) returns (o: Outcome)
      requires Valid() && rxPayload != null && rxLen == 0
      modifies `length, `crc16, `rxLen, rxPayload
      ensures o == Await(inbox, Wanted()) && rxLen <= rxCapacity && rxPayload[rxLen..] == old(rxPayload[..])[rxLen..]
      ensures if o.Done? then rxPayload[..rxLen] == o.payload && length == rxLen && crc16 == Modbus(o.payload)
              else rxPayload[..rxLen] == o.got
    {
      var opening := AwaitStart(inbox);
      if opening.Failed? { return Fail(opening.ret, opening.code, []); }
      length := opening.size;
      o := CollectLoads(opening.rest);
      if o.Done? { o := Check(o); }
    }

    // The fields after a read say what happened.
    ghost predicate Reports(o: Outcome, ret: int)
      requires rxPayload != null && rxLen <= rxPayload.Length
      reads `rxPayload, rxPayload, `rxLen, `errorCode, `length, `crc16
    {
      match o
      case Done(p) => ret == rxLen && rxPayload[..rxLen] == p && errorCode == ACK_OK && length == rxLen && crc16 == Modbus(p)
      case Fail(r, code, got) => ret == r && errorCode == code && rxPayload[..rxLen] == got
    }

    method Check(got: Outcome) returns (o: Outcome)
      requires rxPayload != null && rxLen <= rxPayload.Length && got == Done(rxPayload[..rxLen])
      ensures o == Checked(got, crc16)
    {
      var computed := Modbus_Crc16Cal(rxPayload, rxLen);
      o := if computed != crc16 then Fail(-1, ACK_CRC_ERR, rxPayload[..rxLen]) else got;
    }

    // Wait for an acceptable announcement.
    method AwaitStart(inbox: seq<Event>) returns (o: Opening)
      modifies `crc16
      ensures o == Open(inbox, Wanted())
      ensures o.Opened? ==> crc16 == o.crc && o.size <= rxCapacity
    {
      var i := 0;
      while i < |inbox| && inbox[i].Got?
        invariant 0 <= i <= |inbox| && Open(inbox, Wanted()) == Open(inbox[i..], Wanted())
      {
        if Relevant(inbox[i], Wanted(), READ_DATA_START, 8) {
          var d := inbox[i].frame.data;
          var size := Number(d[3], d[4]);
          crc16 := Word(d[5], d[6]);
          if Word(d[1], d[2]) != offset { return Failed(-1, ACK_PARAM_ERR); }
          if size > rxCapacity { return Failed(-1, ACK_LEN_ERR); }
          return Opened(size, crc16, inbox[i + 1..]);
        }
        i := i + 1;
      }
      return Failed(if i < |inbox| && inbox[i].Broken? then inbox[i].ret else -5, ACK_TIMEOUT);
    }

    // Collect numbered frames until the announced length is there.
    method CollectLoads(inbox: seq<Event>) returns (o: Outcome)
      requires Valid() && rxPayload != null && rxLen == 0 && length <= rxCapacity
      modifies `rxLen, rxPayload
      ensures rxLen <= length && rxPayload[rxLen..] == old(rxPayload[..])[rxLen..]
      ensures o == Collect(inbox, Wanted(), length, [], 0)
      ensures if o.Done? then o.payload == rxPayload[..rxLen] && rxLen == length else o.got == rxPayload[..rxLen]
    {
      var i, no: byte := 0, 0;
      while rxLen < length && i < |inbox| && inbox[i].Got?
        invariant 0 <= i <= |inbox| && rxLen <= length
        invariant rxPayload[rxLen..] == old(rxPayload[..])[rxLen..]
        invariant Collect(inbox, Wanted(), length, [], 0) == Collect(inbox[i..], Wanted(), length, rxPayload[..rxLen], no)
      {
        CollectTurn(inbox, i, Wanted(), length, rxPayload[..rxLen], no);
        if Relevant(inbox[i], Wanted(), READ_DATA_LOAD, 2) {
          var d := inbox[i].frame.data;
          var chunk := Min(6, length - rxLen);
          if d[1] != no || |d| - 2 < chunk { return Fail(-1, ACK_DATA_LOST, rxPayload[..rxLen]); }
          Copy(d, chunk);
          no := no + 1;
        }
        i := i + 1;
      }
      if rxLen == length { return Done(rxPayload[..rxLen]); }
      return Fail(if i < |inbox| && inbox[i].Broken? then inbox[i].ret else -5, ACK_TIMEOUT, rxPayload[..rxLen]);
    }

    // memcpy of a frame's payload behind what has been received.
    method Copy(d: seq<byte>, chunk: nat)
      requires rxPayload != null && rxLen + chunk <= rxCapacity <= rxPayload.Length && 2 + chunk <= |d|
      modifies `rxLen, rxPayload
      ensures rxLen == old(rxLen) + chunk
      ensures rxPayload[..rxLen] == old(rxPayload[..rxLen]) + d[2..2 + chunk]
      ensures rxPayload[rxLen..] == old(rxPayload[..])[rxLen..]
    {
      var at := rxLen;
      forall k | 0 <= k < chunk { rxPayload[at + k] := d[2 + k]; }
      rxLen := rxLen + chunk;
    }

    method ReceiveWriteResponse(inbox: seq<Event>) returns (ret: int)
      requires Valid()
      modifies `errorCode
      ensures Valid() && WriteReply(ret, errorCode) == AwaitWrite(inbox, Wanted(), length)
    {
      var i := 0;
      while true
        invariant 0 <= i <= |inbox|
        invariant AwaitWrite(inbox, Wanted(), length) == AwaitWrite(inbox[i..], Wanted(), length)
        decreases |inbox| - i
      {
        if i == |inbox| || inbox[i].Late? {
          errorCode := ACK_TIMEOUT;
          return -5;
        }
        if inbox[i].Broken? {
          errorCode := ACK_TIMEOUT;
          return inbox[i].ret;
        }
        if Relevant(inbox[i], Wanted(), WRITE_RESPONSE, 8) {
          var d := inbox[i].frame.data;
          var err: int := Number(d[5], d[6]);
          errorCode := err;
          if Word(d[1], d[2]) != offset || Number(d[3], d[4]) != length { return -1; }
          if err != ACK_OK { return -err; }
          return 8;
        }
        i := i + 1;
      }
    }
  }
}
