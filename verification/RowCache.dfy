// main/DataStorage/SqLite/SqLite.c: the local table of samples. Its SQL is replaced by
// what it does to the rows; they are listed in the order of insertion.
module RowCache {
  import GapModel

  const MAX_RECORDS_COUNT := 1200
  const PN_MAX_LEN := 64
  const RECORD_ID_MAX_LEN := 28

  // pushed: 0 pending, 1 handed to MQTT, 2 acknowledged.
  datatype Row = Row(localId: int, pn: string, recordId: string, seqNo: int, step: int, time: int,
                     pushed: int, value: string, createdAt: int)

  predicate SameKey(a: Row, b: Row) { a.pn == b.pn && a.recordId == b.recordId && a.seqNo == b.seqNo }

  predicate KeysUnique(rows: seq<Row>) {
    forall i, j :: 0 <= i < j < |rows| ==> !SameKey(rows[i], rows[j])
  }

  predicate IdsAscend(rows: seq<Row>) {
    && (forall i, j :: 0 <= i < j < |rows| ==> rows[i].localId < rows[j].localId)
    && (forall i :: 0 <= i < |rows| ==> rows[i].localId >= 1)
  }

  predicate WellFormed(rows: seq<Row>) {
    KeysUnique(rows) && IdsAscend(rows) && |rows| <= MAX_RECORDS_COUNT && forall i :: 0 <= i < |rows| ==> 0 <= rows[i].pushed <= 2
  }

  // ---- What an insert does when nothing fails ----

  // The row with this key, or |rows|.
  function Existing(rows: seq<Row>, r: Row): (k: nat)
    ensures k <= |rows|
    ensures k < |rows| ==> SameKey(rows[k], r)
    ensures forall j :: 0 <= j < k ==> !SameKey(rows[j], r)
  {
    if rows == [] || SameKey(rows[0], r) then 0 else 1 + Existing(rows[1..], r)
  }

  // ORDER BY pushed DESC, local_id ASC: does row a come before row b?
  predicate Sooner(a: Row, b: Row) { a.pushed > b.pushed || (a.pushed == b.pushed && a.localId <= b.localId) }

  predicate IsVictim(rows: seq<Row>, v: nat) {
    v < |rows| && forall j :: 0 <= j < |rows| ==> Sooner(rows[v], rows[j])
  }

  function Victim(rows: seq<Row>): (v: nat)
    requires rows != []
    ensures IsVictim(rows, v)
  {
    if |rows| == 1 then 0
    else
      var front := rows[..|rows| - 1];
      var v := Victim(front);
      assert forall j :: 0 <= j < |front| ==> front[j] == rows[j] && Sooner(rows[v], rows[j]);
      if Sooner(rows[v], rows[|rows| - 1]) then v else |rows| - 1
  }

  function Without(rows: seq<Row>, k: nat): (r: seq<Row>)
    requires k < |rows|
    ensures |r| == |rows| - 1
    ensures forall j :: 0 <= j < k ==> r[j] == rows[j]
    ensures forall j :: k <= j < |r| ==> r[j] == rows[j + 1]
  {
    rows[..k] + rows[k + 1..]
  }

  // A rowid one beyond the largest in use, as SQLite assigns it.
  function NextId(rows: seq<Row>): int { if rows == [] then 1 else rows[|rows| - 1].localId + 1 }

  predicate MustEvict(rows: seq<Row>, lowSpace: bool) { rows != [] && (|rows| >= MAX_RECORDS_COUNT || lowSpace) }

  function Evicted(rows: seq<Row>, lowSpace: bool): seq<Row> {
    if MustEvict(rows, lowSpace) then Without(rows, Victim(rows)) else rows
  }

  function Inserted(rows: seq<Row>, r: Row, lowSpace: bool): seq<Row> {
    var k := Existing(rows, r);
    if k < |rows| then rows[k := r.(localId := rows[k].localId)]
    else
      var kept := Evicted(rows, lowSpace);
      kept + [r.(localId := NextId(kept))]
  }

  lemma {:induction false} InsertedWellFormed(rows: seq<Row>, r: Row, lowSpace: bool)
    requires WellFormed(rows) && 0 <= r.pushed <= 2
    ensures WellFormed(Inserted(rows, r, lowSpace))
  {
    var k := Existing(rows, r);
    if k < |rows| {
      var after := Inserted(rows, r, lowSpace);
      forall i, j | 0 <= i < j < |rows| ensures !SameKey(after[i], after[j]) { assert !SameKey(rows[i], rows[j]); }
    } else {
      EvictedWellFormed(rows, lowSpace);
      AppendWellFormed(Evicted(rows, lowSpace), r);
    }
  }

  lemma {:induction false} EvictedWellFormed(rows: seq<Row>, lowSpace: bool)
    requires WellFormed(rows)
    ensures WellFormed(Evicted(rows, lowSpace)) && |Evicted(rows, lowSpace)| < MAX_RECORDS_COUNT
    ensures forall i :: 0 <= i < |Evicted(rows, lowSpace)| ==> Evicted(rows, lowSpace)[i] in rows
  {
    if MustEvict(rows, lowSpace) { WithoutWellFormed(rows, Victim(rows)); }
  }

  lemma {:induction false} WithoutWellFormed(rows: seq<Row>, v: nat)
    requires WellFormed(rows) && v < |rows|
    ensures WellFormed(Without(rows, v)) && forall i :: 0 <= i < |rows| - 1 ==> Without(rows, v)[i] in rows
  {
    var r := Without(rows, v);
    forall i, j | 0 <= i < j < |r| ensures !SameKey(r[i], r[j]) && r[i].localId < r[j].localId {
      var a, b := if i < v then i else i + 1, if j < v then j else j + 1;
      assert r[i] == rows[a] && r[j] == rows[b] && !SameKey(rows[a], rows[b]);
    }
  }

  lemma {:induction false} AppendWellFormed(kept: seq<Row>, r: Row)
    requires WellFormed(kept) && |kept| < MAX_RECORDS_COUNT && 0 <= r.pushed <= 2
    requires forall i :: 0 <= i < |kept| ==> !SameKey(kept[i], r)
    ensures WellFormed(kept + [r.(localId := NextId(kept))])
  {
  }

  // The oldest of the rows the broker is most certain of: a pending one only when all are.
  predicate LeastNeeded(rows: seq<Row>, v: nat) {
    && v < |rows|
    && (forall j :: 0 <= j < |rows| ==> rows[j].pushed <= rows[v].pushed)
    && (forall j :: 0 <= j < v ==> rows[j].pushed < rows[v].pushed)
    && (rows[v].pushed == 0 ==> forall j :: 0 <= j < |rows| ==> rows[j].pushed == 0)
  }

  lemma {:induction false} VictimLeastNeeded(rows: seq<Row>)
    requires WellFormed(rows) && rows != []
    ensures LeastNeeded(rows, Victim(rows))
  {
    var v := Victim(rows);
    forall j | 0 <= j < |rows| ensures rows[j].pushed <= rows[v].pushed && (j < v ==> rows[j].pushed < rows[v].pushed) {
      assert Sooner(rows[v], rows[j]);
    }
  }

  // At most one row goes, the least needed; the rest keep their order and contents.
  lemma {:induction false} OnlyTheVictimGoes(rows: seq<Row>, r: Row, lowSpace: bool)
    requires WellFormed(rows) && Existing(rows, r) == |rows|
    ensures MustEvict(rows, lowSpace) ==>
      exists v: nat, x :: SameKey(x, r) && LeastNeeded(rows, v) && Inserted(rows, r, lowSpace) == Without(rows, v) + [x]
    ensures !MustEvict(rows, lowSpace) ==> exists x :: SameKey(x, r) && Inserted(rows, r, lowSpace) == rows + [x]
  {
    var x := r.(localId := NextId(Evicted(rows, lowSpace)));
    assert SameKey(x, r);
    assert Inserted(rows, r, lowSpace) == Evicted(rows, lowSpace) + [x];
    if MustEvict(rows, lowSpace) { VictimLeastNeeded(rows); }
  }

  // When a row goes: the key is new, and the table is full or the file system low on space,
  // with something in the table. Nothing is lost otherwise.
  lemma {:induction false} EvictsExactly(rows: seq<Row>, r: Row, lowSpace: bool)
    requires WellFormed(rows)
    ensures var known := exists i :: 0 <= i < |rows| && SameKey(rows[i], r);
      var after := Inserted(rows, r, lowSpace);
      && |after| == (if known || (rows != [] && (|rows| >= 1200 || lowSpace)) then |rows| else |rows| + 1)
      && (!known && (rows == [] || (|rows| < 1200 && !lowSpace)) ==> rows <= after)
      && (known ==> forall i :: 0 <= i < |rows| && !SameKey(rows[i], r) ==> after[i] == rows[i])
  {
    var k := Existing(rows, r);
    if k == |rows| {
      assert forall i :: 0 <= i < |rows| ==> !SameKey(rows[i], r);
    } else {
      assert SameKey(rows[k], r);
    }
  }

  // A freed id can be given out again; the order of ids stays the order of insertion.
  lemma {:induction false} IdsComeBack()
    ensures exists a: Row, b: Row :: WellFormed([a]) && !SameKey(a, b) && Inserted([a], b, true) == [b.(localId := a.localId)]
  {
    var a, b := Row(1, "P", "R", 0, 0, 0, 2, "{}", 0), Row(0, "P", "R", 1, 0, 0, 0, "{}", 0);
    assert Existing([a], b) == 1;
    assert Without([a], 0) == [];
    assert Inserted([a], b, true) == [b.(localId := 1)];
    assert WellFormed([a]);
  }

  // ---- Queries ----

  predicate InSession(x: Row, pn: string, rid: string, seqNo: int) {
    x.pn == pn && x.recordId == rid && (seqNo >= 0 ==> x.seqNo == seqNo)
  }

  // ORDER BY seq_no DESC LIMIT 1.
  predicate IsAnswer(rows: seq<Row>, pn: string, rid: string, seqNo: int, k: nat) {
    && k < |rows| && InSession(rows[k], pn, rid, seqNo)
    && forall j :: 0 <= j < |rows| && InSession(rows[j], pn, rid, seqNo) ==> rows[j].seqNo <= rows[k].seqNo
  }

  // What was just written is what a query for it returns.
  lemma {:induction false} InsertThenQuery(rows: seq<Row>, r: Row, lowSpace: bool, k: nat)
    requires WellFormed(rows) && 0 <= r.pushed <= 2 && r.seqNo >= 0
    requires IsAnswer(Inserted(rows, r, lowSpace), r.pn, r.recordId, r.seqNo, k)
    ensures var x := Inserted(rows, r, lowSpace)[k]; x == r.(localId := x.localId)
  {
    var after := Inserted(rows, r, lowSpace);
    InsertedWellFormed(rows, r, lowSpace);
    var e := Existing(rows, r);
    var at := if e < |rows| then e else |after| - 1;
    assert SameKey(after[at], r) && SameKey(after[k], r) && SameKey(after[at], after[k]);
    OneOfKey(after, at, k);
  }

  lemma {:induction false} OneOfKey(rows: seq<Row>, a: nat, b: nat)
    requires KeysUnique(rows) && a < |rows| && b < |rows| && SameKey(rows[a], rows[b])
    ensures a == b
  {
    assert SameKey(rows[b], rows[a]);
  }

  // ---- UPDATE ... SET pushed ----

  function PushState(state: int): int { if state == 1 || state == 2 then state else 0 }

  predicate Named(x: Row, pn: string, rid: string, seqNo: int) {
    x.pn == pn && x.seqNo == seqNo && (rid == "" || x.recordId == rid)
  }

  function Marked(rows: seq<Row>, pn: string, rid: string, seqNo: int, state: int): (r: seq<Row>)
    ensures |r| == |rows|
    ensures forall i :: 0 <= i < |rows| ==> r[i] == if Named(rows[i], pn, rid, seqNo) then rows[i].(pushed := state) else rows[i]
  {
    seq(|rows|, i requires 0 <= i < |rows| => if Named(rows[i], pn, rid, seqNo) then rows[i].(pushed := state) else rows[i])
  }

  lemma {:induction false} MarkedWellFormed(rows: seq<Row>, pn: string, rid: string, seqNo: int, state: int)
    requires WellFormed(rows) && 0 <= state <= 2
    ensures WellFormed(Marked(rows, pn, rid, seqNo, state))
  {
    var r := Marked(rows, pn, rid, seqNo, state);
    forall i, j | 0 <= i < j < |r| ensures !SameKey(r[i], r[j]) && r[i].localId < r[j].localId { assert !SameKey(rows[i], rows[j]); }
  }

  lemma {:induction false} MarkedNone(rows: seq<Row>, pn: string, rid: string, seqNo: int, state: int)
    requires forall i :: 0 <= i < |rows| ==> !Named(rows[i], pn, rid, seqNo)
    ensures Marked(rows, pn, rid, seqNo, state) == rows
  {
  }

  // A session that asks for its own row marks that row and no other.
  lemma {:induction false} MarksOne(rows: seq<Row>, k: nat, state: int)
    requires WellFormed(rows) && k < |rows| && rows[k].recordId != ""
    ensures Marked(rows, rows[k].pn, rows[k].recordId, rows[k].seqNo, state) == rows[k := rows[k].(pushed := state)]
  {
    forall i | 0 <= i < |rows| && i != k ensures !Named(rows[i], rows[k].pn, rows[k].recordId, rows[k].seqNo) {
      assert i < k ==> !SameKey(rows[i], rows[k]);
      assert k < i ==> !SameKey(rows[k], rows[i]);
    }
  }

  // A session key of exactly 28 characters is accepted for sampling, but no sample of
  // such a session can ever be stored.
  lemma {:induction false} LongestRecordIdNeverStored(pn: string, rid: string)
    requires 0 < |pn| < PN_MAX_LEN && |rid| == RECORD_ID_MAX_LEN
    ensures GapModel.BeginArgs(pn, rid) && forall seqNo, valueOk :: !InsertArgs(seqNo, pn, rid, valueOk)
  {
    forall seqNo, valueOk ensures !InsertArgs(seqNo, pn, rid, valueOk) { }
  }

  // Of the sessions that may begin, exactly those with a shorter record id can store.
  lemma {:induction false} StorableExactly(pn: string, rid: string)
    requires GapModel.BeginArgs(pn, rid)
    ensures (forall seqNo: nat :: InsertArgs(seqNo, pn, rid, true)) <==> |rid| < RECORD_ID_MAX_LEN
  {
    if forall seqNo: nat :: InsertArgs(seqNo, pn, rid, true) { assert InsertArgs(0, pn, rid, true); }
  }

  predicate InsertArgs(seqNo: int, pn: string, rid: string, valueOk: bool) {
    seqNo >= 0 && 0 < |pn| < PN_MAX_LEN && |rid| < RECORD_ID_MAX_LEN && valueOk
  }

  // Where the database may fail in the course of an insert.
  datatype Fault = NoFault | AtReady | AtBegin | AtLookup | AtCount | AtVictim | AtDelete | AtPrepare | AtStep | AtCommit

  // Does a fault there stop this insert?
  predicate Stops(f: Fault, rows: seq<Row>, r: Row, lowSpace: bool) {
    match f
    case NoFault => false
    case AtCount => Existing(rows, r) == |rows|
    case AtVictim => Existing(rows, r) == |rows| && MustEvict(rows, lowSpace)
    case AtDelete => Existing(rows, r) == |rows| && MustEvict(rows, lowSpace)
    case _ => true
  }

  class Cache {
    var rows: seq<Row>

    constructor ()
      ensures rows == [] && WellFormed(rows)
    {
      rows := [];
    }

    method FindKey(r: Row) returns (k: nat)
      ensures k == Existing(rows, r)
    {
      k := 0;
      while k < |rows| && !SameKey(rows[k], r)
        invariant k <= |rows| && forall j :: 0 <= j < k ==> !SameKey(rows[j], r)
      {
        k := k + 1;
      }
    }

    method FindVictim() returns (v: nat)
      requires rows != []
      ensures v == Victim(rows)
    {
      v := 0;
      for i := 1 to |rows|
        invariant v == Victim(rows[..i])
      {
        assert rows[..i + 1][..i] == rows[..i];
        if !Sooner(rows[v], rows[i]) { v := i; }
      }
      assert rows[..|rows|] == rows;
    }

    // A transaction: all of it, or nothing.
    method Insert(seqNo: int, pn: string, step: int, time: int, pushed: bool, value: string, valueOk: bool, rid: string,
                  lowSpace: bool, now: int, fault: Fault) returns (code: int)
      requires WellFormed(rows)
      modifies this
      ensures WellFormed(rows)
      ensures var r := Row(0, pn, rid, seqNo, step, time, if pushed then 1 else 0, value, now);
        && (code == 0 <==> InsertArgs(seqNo, pn, rid, valueOk) && !Stops(fault, old(rows), r, lowSpace))
        && rows == (if code == 0 then Inserted(old(rows), r, lowSpace) else old(rows))
      ensures fault == NoFault ==>
        (code == 0 <==> seqNo >= 0 && 0 < |pn| < PN_MAX_LEN && |rid| < RECORD_ID_MAX_LEN && valueOk)
      ensures fault != NoFault && old(rows) == [] && fault != AtVictim && fault != AtDelete ==> code != 0
    {
      if !InsertArgs(seqNo, pn, rid, valueOk) { return -1; }
      if fault == AtReady || fault == AtBegin { return -1; }
      var r := Row(0, pn, rid, seqNo, step, time, if pushed then 1 else 0, value, now);
      var saved := rows;
      code := Change(r, lowSpace, fault);
      if code != 0 { rows := saved; }
      if code == 0 { InsertedWellFormed(saved, r, lowSpace); }
    }

    // The statements between BEGIN and COMMIT.
    method Change(r: Row, lowSpace: bool, fault: Fault) returns (code: int)
      requires WellFormed(rows) && 0 <= r.pushed <= 2 && fault != AtReady && fault != AtBegin
      modifies this
      ensures code == 0 <==> !Stops(fault, old(rows), r, lowSpace)
      ensures code == 0 ==> rows == Inserted(old(rows), r, lowSpace)
    {
      if fault == AtLookup { return -1; }
      var k := FindKey(r);
      if k == |rows| {
        if fault == AtCount { return -1; }
        if |rows| > 0 && (|rows| >= MAX_RECORDS_COUNT || lowSpace) {
          if fault == AtVictim { return -1; }
          var v := FindVictim();
          if fault == AtDelete { return -1; }
          rows := Without(rows, v);
        }
        if fault == AtPrepare || fault == AtStep || fault == AtCommit { return -1; }
        rows := rows + [r.(localId := NextId(rows))];
      } else {
        if fault == AtPrepare || fault == AtStep || fault == AtCommit { return -1; }
        rows := rows[k := r.(localId := rows[k].localId)];
      }
      return 0;
    }

    // 0 and the last row of the session (or the one asked for), -1 for none, -2 for an error.
    method QueryBySession(pn: string, rid: string, seqNo: int, ready: bool) returns (code: int, answer: nat)
      ensures code == -2 <==> pn == "" || rid == "" || seqNo < -1 || !ready
      ensures code == 0 ==> IsAnswer(rows, pn, rid, seqNo, answer)
      ensures code == 0 ==>
        && answer < |rows| && rows[answer].pn == pn && rows[answer].recordId == rid && (seqNo >= 0 ==> rows[answer].seqNo == seqNo)
        && forall j :: 0 <= j < |rows| && rows[j].pn == pn && rows[j].recordId == rid && (seqNo == -1 || rows[j].seqNo == seqNo) ==>
             rows[j].seqNo <= rows[answer].seqNo
      ensures code == -1 ==> forall j :: 0 <= j < |rows| ==>
        !(rows[j].pn == pn && rows[j].recordId == rid && (seqNo == -1 || rows[j].seqNo == seqNo))
      ensures code in {0, -1, -2}
    {
      if pn == "" || rid == "" || seqNo < -1 || !ready { return -2, 0; }
      code, answer := -1, 0;
      for i := 0 to |rows|
        invariant code == -1 ==> forall j :: 0 <= j < i ==> !InSession(rows[j], pn, rid, seqNo)
        invariant code == 0 ==>
          && answer < i && InSession(rows[answer], pn, rid, seqNo)
          && forall j :: 0 <= j < i && InSession(rows[j], pn, rid, seqNo) ==> rows[j].seqNo <= rows[answer].seqNo
        invariant code in {0, -1}
      {
        if InSession(rows[i], pn, rid, seqNo) && (code == -1 || rows[answer].seqNo <= rows[i].seqNo) {
          code, answer := 0, i;
        }
      }
    }

    // Without a record id every row with that number is marked. `fault`: the lock, the
    // database or the statement fails.
    method UpdatePushState(pn: string, rid: string, seqNo: int, state: int, fault: bool) returns (code: int)
      requires WellFormed(rows)
      modifies this
      ensures WellFormed(rows)
      ensures code == 0 <==> pn != "" && seqNo >= 0 && !fault && exists i :: 0 <= i < |old(rows)| && Named(old(rows)[i], pn, rid, seqNo)
      ensures rows == if code == 0 then Marked(old(rows), pn, rid, seqNo, PushState(state)) else old(rows)
      ensures code == 0 ==> |rows| == |old(rows)| && forall i :: 0 <= i < |rows| ==>
        if old(rows)[i].pn == pn && old(rows)[i].seqNo == seqNo && (rid == "" || old(rows)[i].recordId == rid)
        then rows[i] == old(rows)[i].(pushed := if state == 1 then 1 else if state == 2 then 2 else 0)
        else rows[i] == old(rows)[i]
    {
      if pn == "" || seqNo < 0 || fault { return -1; }
      ghost var before := rows;
      var changed := Mark(pn, rid, seqNo, PushState(state));
      MarkedWellFormed(before, pn, rid, seqNo, PushState(state));
      if changed == 0 { MarkedNone(before, pn, rid, seqNo, PushState(state)); }
      code := if changed > 0 then 0 else -1;
    }

    // The UPDATE statement, row by row.
    method Mark(pn: string, rid: string, seqNo: int, state: int) returns (changed: nat)
      modifies this
      ensures rows == Marked(old(rows), pn, rid, seqNo, state)
      ensures changed > 0 <==> exists i :: 0 <= i < |old(rows)| && Named(old(rows)[i], pn, rid, seqNo)
    {
      ghost var before := rows;
      changed := 0;
      for i := 0 to |rows|
        invariant |rows| == |before| && rows[i..] == before[i..]
        invariant rows[..i] == Marked(before[..i], pn, rid, seqNo, state)
        invariant changed > 0 <==> exists j :: 0 <= j < i && Named(before[j], pn, rid, seqNo)
      {
        assert rows[i] == rows[i..][0] == before[i];
        if Named(rows[i], pn, rid, seqNo) {
          rows := rows[i := rows[i].(pushed := state)];
          changed := changed + 1;
        }
        assert before[..i + 1] == before[..i] + [before[i]];
        assert rows[i + 1..] == before[i..][1..] == before[i + 1..];
      }
      assert before[..|rows|] == before && rows[..|rows|] == rows;
    }
  }
}
