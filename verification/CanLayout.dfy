// main/Communication/Can/can_extended.c: what the frames of a transfer look like on the bus,
// byte by byte, and which frames a receiver takes no notice of.
module CanLayout {
  import opened CanWords
  import opened CrcBits
  import opened Crc
  import opened CanTransfer

  // ---- The frames of a payload ----

  lemma {:induction false} LoadAt(p: seq<byte>, kind: byte, no: byte, i: nat)
    requires 6 * i < |p|
    ensures var items := Loads(p, kind, no);
      && i < |items| && |items[i]| == 2 + Min(6, |p| - 6 * i)
      && items[i][..2] == [kind, NumberAfter(no, i)]
      && forall j :: 2 <= j < |items[i]| ==> items[i][j] == p[6 * i + j - 2]
    decreases i
  {
    if i > 0 {
      var rest := p[Min(6, |p|)..];
      LoadAt(rest, kind, no + 1, i - 1);
      assert Loads(p, kind, no)[i] == Loads(rest, kind, no + 1)[i - 1];
    }
  }

  lemma {:induction false} LoadCount(p: seq<byte>, kind: byte, no: byte)
    ensures |Loads(p, kind, no)| == (|p| + 5) / 6
  {
    if p != [] { LoadCount(p[Min(6, |p|)..], kind, no + 1); }
  }

  lemma {:induction false} SealedAt(pf: byte, target: byte, source: byte, items: seq<seq<byte>>, i: nat)
    requires i < |items|
    ensures SealedAll(pf, target, source, items)[i] == Sealed(pf, target, source, items[i])
    decreases i
  {
    if i > 0 { SealedAt(pf, target, source, items[1..], i - 1); }
  }

  predicate Addressed(f: Frame, pf: byte, target: byte, source: byte) {
    f.pf == pf && f.edp == 0 && f.dp == 0 && f.ps == target && f.sa == (if source == 0 then 0x10 else source) && |f.data| == 8
  }

  // The first frame: kind, offset, length and checksum, low byte first.
  lemma {:induction false} StartFrame(target: byte, source: byte, kind: byte, offset: bv16, p: seq<byte>, crc: bv16)
    requires |p| < 0x10000
    ensures var f := Fragments(target, source, kind, offset, p, crc)[0];
      && Addressed(f, 0x60, target, source)
      && f.data[0] == kind && f.data[7] == 0
      && f.data[1] == (offset & 0xFF) as bv8 && f.data[2] == ((offset >> 8) & 0xFF) as bv8
      && Value(f.data[3]) == |p| % 256 && Value(f.data[4]) == |p| / 256
      && f.data[5] == (crc & 0xFF) as bv8 && f.data[6] == ((crc >> 8) & 0xFF) as bv8
  {
    var item := Announcement(kind, offset, |p|, crc);
    var d := Padded(item);
    assert forall k :: 0 <= k < 7 ==> d[k] == item[k];
  }

  // One frame for every six bytes begun: kind, number modulo 256, the bytes, then zeros.
  lemma {:induction false} DataFrame(target: byte, source: byte, kind: byte, offset: bv16, p: seq<byte>, crc: bv16, i: nat)
    requires |p| < 0x10000
    ensures |Fragments(target, source, kind, offset, p, crc)| == 1 + (|p| + 5) / 6
    ensures 6 * i < |p| ==>
      var f := Fragments(target, source, kind, offset, p, crc)[1 + i];
      && Addressed(f, 0x61, target, source)
      && f.data[0] == kind && Value(f.data[1]) == i % 256
      && forall j :: 2 <= j < 8 ==> f.data[j] == if 6 * i + j - 2 < |p| then p[6 * i + j - 2] else 0
  {
    LoadCount(p, kind, 0);
    if 6 * i < |p| {
      var items := Loads(p, kind, 0);
      LoadAt(p, kind, 0, i);
      SealedAt(WRITE_DATA, target, source, items, i);
      NumbersWrap(0, i);
      var d := Padded(items[i]);
      assert items[i] == d[..|items[i]|];
      assert d[0] == items[i][..2][0] && d[1] == items[i][..2][1];
    }
  }

  // ---- Frames that do not matter ----

  // Not from the slave asked, not to this master, of another page or kind, or neither a
  // full start frame nor a data frame with a number.
  predicate Foreign(e: Event, link: Link) {
    e.Got? &&
    var f := e.frame;
    || f.edp != 0 || f.dp != 0 || f.ps != (if link.source == 0 then 0x10 else link.source)
    || (link.target != 0 && f.sa != link.target)
    || f.data == [] || f.data[0] != link.kind
    || !((f.pf == 0x64 && |f.data| >= 8) || (f.pf == 0x65 && |f.data| >= 2))
  }

  lemma {:induction false} WithoutTail(inbox: seq<Event>, k: nat)
    requires 0 < k < |inbox|
    ensures (inbox[..k] + inbox[k + 1..])[0] == inbox[0]
    ensures (inbox[..k] + inbox[k + 1..])[1..] == inbox[1..][..k - 1] + inbox[1..][k..]
  {
    assert inbox[..k][1..] == inbox[1..][..k - 1];
    assert inbox[k + 1..] == inbox[1..][k..];
  }

  lemma {:induction false} CollectWithout(inbox: seq<Event>, link: Link, size: u16, got: seq<byte>, no: byte, k: nat)
    requires k < |inbox| && Foreign(inbox[k], link)
    ensures Collect(inbox[..k] + inbox[k + 1..], link, size, got, no) == Collect(inbox, link, size, got, no)
    decreases k
  {
    if k == 0 {
      assert inbox[..0] + inbox[1..] == inbox[1..];
    } else {
      WithoutTail(inbox, k);
      if |got| < size && inbox[0].Got? {
        if !Relevant(inbox[0], link, READ_DATA_LOAD, 2) {
          CollectWithout(inbox[1..], link, size, got, no, k - 1);
        } else {
          var d := inbox[0].frame.data;
          var chunk := Min(6, size - |got|);
          if d[1] == no && |d| - 2 >= chunk { CollectWithout(inbox[1..], link, size, got + d[2..2 + chunk], no + 1, k - 1); }
        }
      }
    }
  }

  // Taking such a frame away, or putting it in anywhere, changes no read.
  lemma {:induction false} ForeignIgnored(inbox: seq<Event>, link: Link, k: nat)
    requires k < |inbox| && Foreign(inbox[k], link)
    ensures Await(inbox[..k] + inbox[k + 1..], link) == Await(inbox, link)
    decreases k
  {
    if k == 0 {
      assert inbox[..0] + inbox[1..] == inbox[1..];
    } else {
      WithoutTail(inbox, k);
      if inbox[0].Got? {
        if !Relevant(inbox[0], link, READ_DATA_START, 8) {
          ForeignIgnored(inbox[1..], link, k - 1);
        } else {
          var d := inbox[0].frame.data;
          CollectWithout(inbox[1..], link, Number(d[3], d[4]), [], 0, k - 1);
        }
      }
    }
  }

  // ---- Which frame decides ----

  predicate FirstOf(inbox: seq<Event>, link: Link, pf: byte, k: nat) {
    && k < |inbox| && (forall j :: 0 <= j < k ==> inbox[j].Got? && !Relevant(inbox[j], link, pf, 8))
    && (inbox[k].Got? ==> Relevant(inbox[k], link, pf, 8))
  }

  // The first start frame: a wrong offset is a parameter error, too long a length error;
  // the deadline or a failed queue before it is a timeout.
  lemma {:induction false} FirstStart(inbox: seq<Event>, link: Link, k: nat)
    requires FirstOf(inbox, link, 0x64, k)
    ensures inbox[k].Late? ==> Await(inbox, link) == Fail(-5, 6, [])
    ensures inbox[k].Broken? ==> Await(inbox, link) == Fail(inbox[k].ret, 6, [])
    ensures inbox[k].Got? ==>
      var d := inbox[k].frame.data;
      && (Word(d[1], d[2]) != link.offset ==> Await(inbox, link) == Fail(-1, 5, []))
      && (Word(d[1], d[2]) == link.offset && Number(d[3], d[4]) > link.capacity ==> Await(inbox, link) == Fail(-1, 2, []))
      && (Word(d[1], d[2]) == link.offset && Number(d[3], d[4]) <= link.capacity ==>
            var o := Collect(inbox[k + 1..], link, Number(d[3], d[4]), [], 0);
            Await(inbox, link) == if o.Done? && Modbus(o.payload) != Word(d[5], d[6]) then Fail(-1, 4, o.payload) else o)
    decreases k
  {
    if k > 0 {
      assert FirstOf(inbox[1..], link, 0x64, k - 1);
      FirstStart(inbox[1..], link, k - 1);
      assert inbox[1..][k - 1 + 1..] == inbox[k + 1..];
    }
  }

  // The first frame that answers a write decides, by its echo and its error code.
  lemma {:induction false} FirstAnswer(inbox: seq<Event>, link: Link, size: u16, k: nat)
    requires FirstOf(inbox, link, 0x62, k)
    ensures inbox[k].Late? ==> AwaitWrite(inbox, link, size) == WriteReply(-5, 6)
    ensures inbox[k].Broken? ==> AwaitWrite(inbox, link, size) == WriteReply(inbox[k].ret, 6)
    ensures inbox[k].Got? ==>
      var d := inbox[k].frame.data;
      var code: int := Number(d[5], d[6]);
      AwaitWrite(inbox, link, size) ==
        WriteReply(if Word(d[1], d[2]) != link.offset || Number(d[3], d[4]) != size then -1 else if code == 0 then 8 else -code, code)
    decreases k
  {
    if k > 0 {
      assert FirstOf(inbox[1..], link, 0x62, k - 1);
      FirstAnswer(inbox[1..], link, size, k - 1);
    }
  }

  // The data frames a slave would send for p.
  function Brought(p: seq<byte>, link: Link, no: byte): (r: seq<Event>)
    ensures |r| == (|p| + 5) / 6
  {
    if p == [] then []
    else [Got(Frame(0x65, 0, 0, Master(link.source), link.target, [link.kind, no] + p[..Min(6, |p|)]))] + Brought(p[Min(6, |p|)..], link, no + 1)
  }

  // Data frames bring the next bytes until the first that is out of turn or too short.
  lemma {:induction false} WrongFrame(inbox: seq<Event>, link: Link, p: seq<byte>, n: nat, e: Event, more: seq<Event>, no: byte, got: seq<byte>, size: u16)
    requires got <= p && |p| == size && 6 * n < |p| - |got|
    requires inbox == Brought(p[|got|..], link, no)[..n] + [e] + more
    requires e.Got? && Matches(e.frame, link, 0x65) && |e.frame.data| >= 2 && e.frame.data[0] == link.kind
    requires e.frame.data[1] != NumberAfter(no, n) || |e.frame.data| - 2 < Min(6, size - |got| - 6 * n)
    ensures Collect(inbox, link, size, got, no) == Fail(-1, 3, p[..|got| + 6 * n])
    decreases n
  {
    if n > 0 {
      var rest, items := p[|got|..], Brought(p[|got|..], link, no);
      var chunk := Min(6, |rest|);
      assert inbox[0] == items[0];
      assert inbox[1..] == items[1..][..n - 1] + [e] + more;
      assert p[|got| + 6..] == rest[6..];
      assert got + rest[..6] == p[..|got| + 6];
      WrongFrame(inbox[1..], link, p, n - 1, e, more, no + 1, got + rest[..6], size);
      assert inbox[0].frame.data[2..8] == rest[..6];
    } else {
      assert inbox[0] == e;
      assert p[..|got|] == got;
    }
  }
}
