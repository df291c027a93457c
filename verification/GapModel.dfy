// main/Task/aging_gap.c: sampling sessions and the recovery of samples the server has
// not received. The table and every locked section that changes it, as functions.
module GapModel {
  import opened Options

  const GAP_PENDING_MAX := 16
  const GAP_SESSION_SLOTS := 22
  const GAP_ROUNDS_MAX := 3
  const GAP_SETTLE_MS := 5000
  const GAP_SEND_MS := 1000
  const DB_PN_MAX_LEN := 64
  const DB_RECORD_ID_MAX_LEN := 28
  const QUEUE_LENGTH := 3
  const INT_MAX := 0x7FFF_FFFF

  datatype Phase = QUERY | SEND | VERIFY

  datatype Slot = Slot(used: bool, closed: bool, intent: bool,
                       token: nat, accepted: nat, processed: nat, persisted: nat, revision: nat, trigger: nat,
                       pn: string, rid: string, nextId: int, lastId: int,
                       round: nat, phase: Phase, due: nat)

  const FREE := Slot(false, false, false, 0, 0, 0, 0, 0, 0, "", "", 0, 0, 0, QUERY, 0)

  // ---- What a slot is doing ----

  predicate Open(s: Slot) { s.used && !s.closed && !s.intent }

  predicate Draining(s: Slot) { s.used && s.closed && !s.intent && s.processed < s.accepted }

  predicate Intent(s: Slot) { s.used && s.closed && s.intent && s.processed == s.accepted && s.lastId >= 0 && s.rid != "" }

  predicate SameKey(a: Slot, b: Slot) { a.pn == b.pn && a.rid == b.rid }

  // ---- Scans ----

  // The slot of a token, or |slots|.
  function Find(slots: seq<Slot>, token: nat): (i: nat)
    ensures i <= |slots|
    ensures i < |slots| ==> slots[i].used && slots[i].token == token
    ensures forall j :: 0 <= j < i ==> !(slots[j].used && slots[j].token == token)
  {
    if slots == [] || (slots[0].used && slots[0].token == token) then 0 else 1 + Find(slots[1..], token)
  }

  function FirstFree(slots: seq<Slot>): (i: nat)
    ensures i <= |slots|
    ensures i < |slots| ==> !slots[i].used
    ensures forall j :: 0 <= j < i ==> slots[j].used
  {
    if slots == [] || !slots[0].used then 0 else 1 + FirstFree(slots[1..])
  }

  // The intent for the same product and record, or |slots|.
  function SameIntent(slots: seq<Slot>, s: Slot): (i: nat)
    ensures i <= |slots|
    ensures i < |slots| ==> slots[i].used && slots[i].intent && SameKey(slots[i], s)
    ensures forall j :: 0 <= j < i ==> !(slots[j].used && slots[j].intent && SameKey(slots[j], s))
  {
    if slots == [] || (slots[0].used && slots[0].intent && SameKey(slots[0], s)) then 0 else 1 + SameIntent(slots[1..], s)
  }

  function Sum(f: Slot -> int, slots: seq<Slot>): int {
    if slots == [] then 0 else f(slots[0]) + Sum(f, slots[1..])
  }

  function AsIntent(s: Slot): int { if s.used && s.intent then 1 else 0 }

  function Pending(slots: seq<Slot>): int { Sum(AsIntent, slots) }

  // ---- gap_finalize ----

  predicate Finished(s: Slot) { s.closed && s.accepted == s.processed && !s.intent }

  function Merged(o: Slot, s: Slot): Slot {
    o.(lastId := if o.lastId < s.lastId then s.lastId else o.lastId, revision := o.revision + 1, round := 0)
  }

  // A finished session becomes an intent, joins one, or is dropped.
  function Finalize(slots: seq<Slot>, i: nat): (r: seq<Slot>)
    requires i < |slots|
    ensures |r| == |slots|
  {
    var s := slots[i];
    if !Finished(s) then slots
    else if s.persisted == 0 || s.lastId < 0 || s.rid == "" then slots[i := s.(used := false)]
    else
      var m := SameIntent(slots, s);
      if m < |slots| then slots[m := Merged(slots[m], s)][i := s.(used := false)]
      else if Pending(slots) >= GAP_PENDING_MAX then slots[i := s.(used := false)]
      else slots[i := s.(intent := true, revision := s.revision + 1, round := 0)]
  }

  // ---- The table and its operations ----

  datatype Core = Core(slots: seq<Slot>, nextToken: nat, current: nat, running: bool, trigger: nat, ready: bool)

  predicate BeginArgs(pn: string, rid: string) {
    0 < |pn| < DB_PN_MAX_LEN && |rid| <= DB_RECORD_ID_MAX_LEN
  }

  predicate CanBegin(c: Core, pn: string, rid: string) {
    BeginArgs(pn, rid) && c.current == 0 && FirstFree(c.slots) < |c.slots|
  }

  function NewSlot(token: nat, pn: string, rid: string): Slot {
    FREE.(used := true, token := token, lastId := -1, pn := pn, rid := rid)
  }

  function Begin(c: Core, pn: string, rid: string): Core
    requires CanBegin(c, pn, rid)
  {
    var t := c.nextToken + 1;
    c.(slots := c.slots[FirstFree(c.slots) := NewSlot(t, pn, rid)], nextToken := t, current := t, running := true)
  }

  // The locked part of a resume: what was found in the database is the new start.
  function Resume(c: Core, token: nat, stored: int): Core {
    var i := Find(c.slots, token);
    if i == |c.slots| || c.slots[i].closed || c.current != token then c
    else c.(slots := c.slots[i := c.slots[i].(lastId := stored, nextId := if stored < INT_MAX then stored + 1 else INT_MAX, persisted := 1)])
  }

  function Close(c: Core): Core {
    var i := Find(c.slots, c.current);
    if i == |c.slots| then c.(current := 0)
    else c.(slots := Finalize(c.slots[i := c.slots[i].(closed := true)], i), current := 0)
  }

  function Idle(c: Core): Core {
    if c.running then c.(running := false, trigger := c.trigger + 1) else c
  }

  function MqttReady(c: Core, ready: bool): Core {
    c.(ready := ready, trigger := if ready && !c.ready then c.trigger + 1 else c.trigger)
  }

  predicate Accepts(c: Core, token: nat, queued: nat) {
    Find(c.slots, token) < |c.slots| && !c.slots[Find(c.slots, token)].closed && queued < QUEUE_LENGTH
  }

  function Submit(c: Core, token: nat): Core
    requires Find(c.slots, token) < |c.slots|
  {
    var i := Find(c.slots, token);
    c.(slots := c.slots[i := c.slots[i].(accepted := c.slots[i].accepted + 1)])
  }

  predicate HasId(c: Core, token: nat) {
    var i := Find(c.slots, token);
    i < |c.slots| && c.slots[i].processed < c.slots[i].accepted && c.slots[i].nextId < INT_MAX
  }

  // The number for the sample in hand, or -1.
  function NextId(c: Core, token: nat): int {
    if HasId(c, token) then c.slots[Find(c.slots, token)].nextId else -1
  }

  function TakeId(c: Core, token: nat): Core {
    if !HasId(c, token) then c
    else
      var i := Find(c.slots, token);
      c.(slots := c.slots[i := c.slots[i].(nextId := c.slots[i].nextId + 1, lastId := c.slots[i].nextId)])
  }

  function Processed(s: Slot, persisted: bool): Slot {
    s.(processed := s.processed + 1, persisted := s.persisted + if persisted then 1 else 0)
  }

  function Done(c: Core, token: nat, persisted: bool): Core {
    var i := Find(c.slots, token);
    if i == |c.slots| || c.slots[i].processed >= c.slots[i].accepted then c
    else c.(slots := Finalize(c.slots[i := Processed(c.slots[i], persisted)], i))
  }

  // ---- aging_gap_poll, section by section ----

  function Refresh(s: Slot, trigger: nat, now: nat): Slot {
    if s.used && s.intent && (s.round == 0 || s.trigger != trigger)
    then s.(trigger := trigger, round := 1, phase := QUERY, due := now + GAP_SETTLE_MS)
    else s
  }

  function RefreshAll(slots: seq<Slot>, trigger: nat, now: nat): (r: seq<Slot>)
    ensures |r| == |slots| && forall i :: 0 <= i < |slots| ==> r[i] == Refresh(slots[i], trigger, now)
    ensures forall i :: 0 <= i < |slots| && slots[i].used && slots[i].intent && (slots[i].round == 0 || slots[i].trigger != trigger) ==>
              r[i] == slots[i].(trigger := trigger, round := 1, phase := QUERY, due := now + 5000)
    ensures forall i :: 0 <= i < |slots| && !(slots[i].used && slots[i].intent && (slots[i].round == 0 || slots[i].trigger != trigger)) ==>
              r[i] == slots[i]
  {
    seq(|slots|, i requires 0 <= i < |slots| => Refresh(slots[i], trigger, now))
  }

  predicate Eligible(s: Slot) { s.used && s.intent && s.round <= GAP_ROUNDS_MAX }

  // The oldest intent with rounds left among the first n slots, or |slots|.
  function Oldest(slots: seq<Slot>, n: nat): (i: nat)
    requires n <= |slots|
    ensures i < n || i == |slots|
    ensures i < |slots| ==> Eligible(slots[i])
    ensures forall j :: 0 <= j < n && Eligible(slots[j]) ==> i < |slots| && slots[i].token <= slots[j].token
  {
    if n == 0 then |slots|
    else
      var b := Oldest(slots, n - 1);
      if Eligible(slots[n - 1]) && (b == |slots| || slots[n - 1].token < slots[b].token) then n - 1 else b
  }

  datatype Work = Work(token: nat, revision: nat, ids: seq<int>, index: nat, missing: nat)

  function Cleared(w: Work): Work { w.(ids := [], index := 0, missing := 0) }

  // Work is kept only for the same intent in the middle of sending.
  function Prepared(w: Work, snap: Slot): Work {
    if w.token != snap.token || w.revision != snap.revision || snap.phase == QUERY
    then Cleared(w).(token := snap.token, revision := snap.revision)
    else w
  }

  function Retry(s: Slot, now: nat): Slot {
    s.(round := s.round + 1, phase := QUERY, due := now + if s.round + 1 == 2 then 10000 else 30000)
  }

  // The slot of the snapshot, if it is still the intent the snapshot shows; else |slots|.
  function Still(slots: seq<Slot>, snap: Slot): (i: nat)
    ensures i <= |slots|
  {
    var i := Find(slots, snap.token);
    if i < |slots| && slots[i].revision == snap.revision then i else |slots|
  }

  predicate CanRun(c: Core, snap: Slot, connected: bool) {
    && c.ready && connected && !c.running
    && var i := Find(c.slots, snap.token);
       i < |c.slots| && c.slots[i].intent && c.slots[i].revision == snap.revision && c.slots[i].trigger == c.trigger
  }

  function RetryOf(c: Core, snap: Slot, now: nat): Core {
    var i := Still(c.slots, snap);
    if i == |c.slots| then c else c.(slots := c.slots[i := Retry(c.slots[i], now)])
  }

  // The server's answer for an intent: None when the request or its JSON was bad.
  function AfterAnswer(s: Slot, snap: Slot, answer: Option<seq<int>>, now: nat): Slot {
    if answer == Some([]) then s.(used := false)
    else
      var r := if answer == None || snap.phase == VERIFY then Retry(s, now) else s;
      if answer == None || (snap.phase == VERIFY && r.round > GAP_ROUNDS_MAX) then r
      else if snap.phase == QUERY then r.(phase := SEND, due := now) else r.(phase := SEND)
  }

  predicate Applies(c: Core, snap: Slot) { Still(c.slots, snap) < |c.slots| && !c.running }

  function Apply(c: Core, snap: Slot, answer: Option<seq<int>>, now: nat): Core {
    var i := Still(c.slots, snap);
    if Applies(c, snap) then c.(slots := c.slots[i := AfterAnswer(c.slots[i], snap, answer, now)]) else c
  }

  function AppliedWork(w: Work, c: Core, snap: Slot, answer: Option<seq<int>>, now: nat): Work {
    var i := Still(c.slots, snap);
    if !Applies(c, snap) || answer == None then w
    else if answer.value == [] then Cleared(w)
    else if AfterAnswer(c.slots[i], snap, answer, now).phase == SEND then Cleared(w).(ids := answer.value)
    else w
  }

  function SendOver(c: Core, snap: Slot, now: nat): Core {
    var i := Still(c.slots, snap);
    if i == |c.slots| then c else c.(slots := c.slots[i := c.slots[i].(phase := VERIFY, due := now + GAP_SETTLE_MS)])
  }

  function Sent(c: Core, snap: Slot, now: nat): Core {
    var i := Still(c.slots, snap);
    if i == |c.slots| then c else c.(slots := c.slots[i := c.slots[i].(due := now + GAP_SEND_MS)])
  }
}
