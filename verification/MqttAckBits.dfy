// Several small flag sets packed into one byte: two of four bits, or four of two bits.
module MqttAckBits {
  function Get4(b: bv8, r: nat): bv8
    requires r < 2
  {
    (b >> (r * 4)) & 15
  }

  function Put4(b: bv8, r: nat, f: bv8): bv8
    requires r < 2
  {
    b | (f << (r * 4))
  }

  function Get2(b: bv8, r: nat): bv8
    requires r < 4
  {
    (b >> (r * 2)) & 3
  }

  function Put2(b: bv8, r: nat, f: bv8): bv8
    requires r < 4
  {
    b | (f << (r * 2))
  }

  // Setting flags in one place adds them there and nowhere else.
  lemma Packed4(b: bv8, r: nat, q: nat, f: bv8)
    requires r < 2 && q < 2 && f & 0xF0 == 0
    ensures Get4(Put4(b, r, f), q) == if q == r then Get4(b, q) | f else Get4(b, q)
  {
    if r == 0 {
      if q == 0 { assert ((b | (f << 0)) >> 0) & 15 == ((b >> 0) & 15) | f; }
      else { assert ((b | (f << 0)) >> 4) & 15 == (b >> 4) & 15; }
    } else {
      if q == 0 { assert ((b | (f << 4)) >> 0) & 15 == (b >> 0) & 15; }
      else { assert ((b | (f << 4)) >> 4) & 15 == ((b >> 4) & 15) | f; }
    }
  }

  lemma Packed2(b: bv8, r: nat, q: nat, f: bv8)
    requires r < 4 && q < 4 && f & 0xFC == 0
    ensures Get2(Put2(b, r, f), q) == if q == r then Get2(b, q) | f else Get2(b, q)
  {
    if r == 0 {
      if q == 0 { assert ((b | (f << 0)) >> 0) & 3 == ((b >> 0) & 3) | f; }
      else if q == 1 { assert ((b | (f << 0)) >> 2) & 3 == (b >> 2) & 3; }
      else if q == 2 { assert ((b | (f << 0)) >> 4) & 3 == (b >> 4) & 3; }
      else { assert ((b | (f << 0)) >> 6) & 3 == (b >> 6) & 3; }
    } else if r == 1 {
      if q == 0 { assert ((b | (f << 2)) >> 0) & 3 == (b >> 0) & 3; }
      else if q == 1 { assert ((b | (f << 2)) >> 2) & 3 == ((b >> 2) & 3) | f; }
      else if q == 2 { assert ((b | (f << 2)) >> 4) & 3 == (b >> 4) & 3; }
      else { assert ((b | (f << 2)) >> 6) & 3 == (b >> 6) & 3; }
    } else if r == 2 {
      if q == 0 { assert ((b | (f << 4)) >> 0) & 3 == (b >> 0) & 3; }
      else if q == 1 { assert ((b | (f << 4)) >> 2) & 3 == (b >> 2) & 3; }
      else if q == 2 { assert ((b | (f << 4)) >> 4) & 3 == ((b >> 4) & 3) | f; }
      else { assert ((b | (f << 4)) >> 6) & 3 == (b >> 6) & 3; }
    } else {
      if q == 0 { assert ((b | (f << 6)) >> 0) & 3 == (b >> 0) & 3; }
      else if q == 1 { assert ((b | (f << 6)) >> 2) & 3 == (b >> 2) & 3; }
      else if q == 2 { assert ((b | (f << 6)) >> 4) & 3 == (b >> 4) & 3; }
      else { assert ((b | (f << 6)) >> 6) & 3 == ((b >> 6) & 3) | f; }
    }
  }

  lemma Empty4()
    ensures Get4(0, 0) == 0 && Get4(0, 1) == 0
  {}

  lemma Empty2()
    ensures Get2(0, 0) == 0 && Get2(0, 1) == 0 && Get2(0, 2) == 0 && Get2(0, 3) == 0
  {}

  lemma OrCounts(before: bv8, after: bv8, f: bv8, m: bv8, same: bool)
    requires after == if same then before | f else before
    ensures after & m != 0 <==> before & m != 0 || (same && f & m != 0)
  {}

  lemma NothingMeets(m: bv8)
    ensures 0 & m == 0
  {}

  // The two flags of an event: published, deleted.
  function Both(published: bool, deleted: bool): bv8 {
    (if published then 1 else 0) | (if deleted then 2 else 0)
  }

  lemma BothRead(p: bool, d: bool)
    ensures (Both(p, d) & 1 != 0) == p && (Both(p, d) & 2 != 0) == d && Both(p, d) & 0xFC == 0
  {}

  lemma BothOr(p: bool, d: bool, q: bool, e: bool)
    ensures Both(p, d) | Both(q, e) == Both(p || q, d || e)
  {}
}
