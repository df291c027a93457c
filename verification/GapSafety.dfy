// What every run of the sampling tasks keeps, and what follows from it.
module GapSafety {
  import opened GapModel
  import opened Options
  import opened GapWorld

  // ---- Sums over the table ----

  lemma {:induction false} SumUpdate(f: Slot -> int, slots: seq<Slot>, i: nat, s: Slot)
    requires i < |slots|
    ensures Sum(f, slots[i := s]) == Sum(f, slots) - f(slots[i]) + f(s)
  {
    if i > 0 {
      SumUpdate(f, slots[1..], i - 1, s);
      assert slots[i := s][1..] == slots[1..][i - 1 := s];
    } else {
      assert slots[i := s][1..] == slots[1..];
    }
  }

  lemma {:induction false} SumSame(f: Slot -> int, a: seq<Slot>, b: seq<Slot>)
    requires |a| == |b| && forall i :: 0 <= i < |a| ==> f(a[i]) == f(b[i])
    ensures Sum(f, a) == Sum(f, b)
  {
    if a != [] { SumSame(f, a[1..], b[1..]); }
  }

  lemma {:induction false} SumNone(f: Slot -> int, slots: seq<Slot>)
    requires forall i :: 0 <= i < |slots| ==> f(slots[i]) == 0
    ensures Sum(f, slots) == 0
  {
    if slots != [] { SumNone(f, slots[1..]); }
  }

  lemma {:induction false} EverySlotCounts(slots: seq<Slot>)
    requires forall i :: 0 <= i < |slots| ==> Load(slots[i]) + AsIntent(slots[i]) >= 1
    ensures |slots| <= Sum(Load, slots) + Pending(slots)
  {
    if slots != [] { EverySlotCounts(slots[1..]); }
  }

  // ---- Packets in flight ----

  lemma {:induction false} CountAppend(a: seq<Packet>, b: seq<Packet>, t: nat)
    ensures CountOf(a + b, t) == CountOf(a, t) + CountOf(b, t)
  {
    if a == [] {
      assert a + b == b;
    } else {
      assert (a + b)[1..] == a[1..] + b;
      CountAppend(a[1..], b, t);
    }
  }

  lemma {:induction false} CountMember(ps: seq<Packet>, p: Packet)
    ensures CountOf(ps, p.token) >= 0
    ensures p in ps ==> CountOf(ps, p.token) >= 1
  {
    if ps != [] { CountMember(ps[1..], p); }
  }

  lemma {:induction false} CountNone(ps: seq<Packet>, t: nat)
    requires forall p :: p in ps ==> p.token != t
    ensures CountOf(ps, t) == 0
  {
    if ps != [] { CountNone(ps[1..], t); }
  }

  // ---- One slot changed ----

  lemma {:induction false} Put(slots: seq<Slot>, i: nat, s: Slot, nextToken: nat, current: nat)
    requires i < |slots| && Others(slots, i, nextToken, current) && SlotOk(s, nextToken, current)
    requires forall j :: 0 <= j < |slots| && j != i ==> Apart(s, slots[j])
    ensures Others(slots[i := s], |slots|, nextToken, current)
  {
  }

  // A used slot keeps its token, its openness, and being an intent or not, or goes free.
  predicate Keeps(o: Slot, s: Slot) {
    && o.used && s.token == o.token
    && (s.used ==> s.processed <= s.accepted && (Open(s) <==> Open(o)) && (Open(s) || Draining(s) || Intent(s)))
    && (s.used && s.intent ==> o.intent && SameKey(s, o))
  }

  lemma {:induction false} UpdateOk(c: Core, i: nat, s: Slot)
    requires TableOk(c) && i < |c.slots| && Keeps(c.slots[i], s)
    ensures TableOk(c.(slots := c.slots[i := s]))
  {
    SumUpdate(AsIntent, c.slots, i, s);
    forall j | 0 <= j < |c.slots| && j != i ensures Apart(s, c.slots[j]) {
      assert Apart(c.slots[i], c.slots[j]);
    }
    assert SlotOk(c.slots[i], c.nextToken, c.current);
    Put(c.slots, i, s, c.nextToken, c.current);
  }

  predicate Distinct(slots: seq<Slot>) {
    forall i, j :: 0 <= i < |slots| && 0 <= j < |slots| && i != j && slots[i].used && slots[j].used ==> slots[i].token != slots[j].token
  }

  lemma {:induction false} TokensDistinct(slots: seq<Slot>, nextToken: nat, current: nat)
    requires Others(slots, |slots|, nextToken, current)
    ensures Distinct(slots)
  {
    forall i, j | 0 <= i < |slots| && 0 <= j < |slots| && i != j && slots[i].used && slots[j].used
      ensures slots[i].token != slots[j].token { assert Apart(slots[i], slots[j]); }
  }

  lemma {:induction false} LoadKept(slots: seq<Slot>, waiting: seq<Packet>, i: nat, s: Slot)
    requires Conserved(slots, waiting) && i < |slots| && slots[i].used && s.token == slots[i].token && Load(s) == Load(slots[i])
    requires Distinct(slots)
    ensures Conserved(slots[i := s], waiting)
  {
    SumUpdate(Load, slots, i, s);
    var slots' := slots[i := s];
    forall p | p in waiting ensures Find(slots', p.token) < |slots| {
      var j := Find(slots, p.token);
      CountMember(waiting, p);
      assert slots'[j].used && slots'[j].token == p.token;
    }
  }

  // ---- gap_finalize ----

  // The table while a session is being closed or its last packet settled: slot i may
  // be finished without being an intent yet.
  predicate Closing(slots: seq<Slot>, i: nat, nextToken: nat, current: nat) {
    && |slots| == GAP_SESSION_SLOTS && i < |slots| && Pending(slots) <= GAP_PENDING_MAX
    && Others(slots, i, nextToken, current) && Distinct(slots)
    && var s := slots[i];
       s.used && s.closed && !s.intent && s.processed <= s.accepted && 0 < s.token <= nextToken && s.token != current
  }

  predicate InOrder(slots: seq<Slot>, nextToken: nat, current: nat) {
    Others(slots, |slots|, nextToken, current) && Pending(slots) <= GAP_PENDING_MAX
  }

  lemma {:induction false} FreeOk(slots: seq<Slot>, i: nat, nextToken: nat, current: nat)
    requires Closing(slots, i, nextToken, current)
    ensures InOrder(slots[i := slots[i].(used := false)], nextToken, current)
  {
    SumUpdate(AsIntent, slots, i, slots[i].(used := false));
    Put(slots, i, slots[i].(used := false), nextToken, current);
  }

  lemma {:induction false} JoinOk(slots: seq<Slot>, i: nat, m: nat, nextToken: nat, current: nat)
    requires Closing(slots, i, nextToken, current) && m < |slots| && m != i && slots[m].used && slots[m].intent
    ensures InOrder(slots[m := Merged(slots[m], slots[i])][i := slots[i].(used := false)], nextToken, current)
  {
    SumUpdate(AsIntent, slots, m, Merged(slots[m], slots[i]));
    MergeOk(slots, i, m, nextToken, current);
    FreeOk(slots[m := Merged(slots[m], slots[i])], i, nextToken, current);
  }

  lemma {:induction false} IntendOk(slots: seq<Slot>, i: nat, nextToken: nat, current: nat)
    requires Closing(slots, i, nextToken, current) && Finished(slots[i]) && slots[i].lastId >= 0 && slots[i].rid != ""
    requires SameIntent(slots, slots[i]) == |slots| && Pending(slots) < GAP_PENDING_MAX
    ensures InOrder(slots[i := slots[i].(intent := true, revision := slots[i].revision + 1, round := 0)], nextToken, current)
  {
    var kept := slots[i].(intent := true, revision := slots[i].revision + 1, round := 0);
    SumUpdate(AsIntent, slots, i, kept);
    Put(slots, i, kept, nextToken, current);
  }

  lemma {:induction false} FinalizeOk(slots: seq<Slot>, i: nat, nextToken: nat, current: nat)
    requires Closing(slots, i, nextToken, current)
    ensures InOrder(Finalize(slots, i), nextToken, current)
  {
    var s := slots[i];
    var m := SameIntent(slots, s);
    if !Finished(s) {
      Put(slots, i, s, nextToken, current);
      assert slots[i := s] == slots;
    } else {
      FreeOk(slots, i, nextToken, current);
      if s.persisted == 0 || s.lastId < 0 || s.rid == "" {
      } else if m < |slots| {
        JoinOk(slots, i, m, nextToken, current);
      } else if Pending(slots) < GAP_PENDING_MAX {
        IntendOk(slots, i, nextToken, current);
      }
    }
  }

  lemma {:induction false} MergeOk(slots: seq<Slot>, i: nat, m: nat, nextToken: nat, current: nat)
    requires Closing(slots, i, nextToken, current) && m < |slots| && m != i && slots[m].used && slots[m].intent
    ensures var merged := slots[m := Merged(slots[m], slots[i])];
            Others(merged, i, nextToken, current) && Distinct(merged)
  {
    assert SlotOk(slots[m], nextToken, current);
    forall j | 0 <= j < |slots| && j != i && j != m ensures Apart(Merged(slots[m], slots[i]), slots[j]) && Apart(slots[j], Merged(slots[m], slots[i])) {
      assert Apart(slots[m], slots[j]) && Apart(slots[j], slots[m]);
    }
  }

  lemma {:induction false} JoinLoad(slots: seq<Slot>, i: nat, m: nat, nextToken: nat, current: nat, waiting: seq<Packet>)
    requires Closing(slots, i, nextToken, current) && Conserved(slots, waiting) && Finished(slots[i])
    requires m < |slots| && m != i && slots[m].used && slots[m].intent
    ensures Conserved(slots[m := Merged(slots[m], slots[i])][i := slots[i].(used := false)], waiting)
  {
    var joined := slots[m := Merged(slots[m], slots[i])];
    LoadKept(slots, waiting, m, Merged(slots[m], slots[i]));
    LoadKept(joined, waiting, i, slots[i].(used := false));
  }

  lemma {:induction false} SettledLoad(slots: seq<Slot>, i: nat, waiting: seq<Packet>)
    requires Conserved(slots, waiting) && Distinct(slots) && i < |slots| && slots[i].used && Load(slots[i]) == 0
    ensures Conserved(slots[i := slots[i].(used := false)], waiting)
    ensures Conserved(slots[i := slots[i].(intent := true, revision := slots[i].revision + 1, round := 0)], waiting)
  {
    LoadKept(slots, waiting, i, slots[i].(used := false));
    LoadKept(slots, waiting, i, slots[i].(intent := true, revision := slots[i].revision + 1, round := 0));
  }

  lemma {:induction false} FinalizeLoad(slots: seq<Slot>, i: nat, nextToken: nat, current: nat, waiting: seq<Packet>)
    requires Closing(slots, i, nextToken, current) && Conserved(slots, waiting)
    ensures Conserved(Finalize(slots, i), waiting)
  {
    var s := slots[i];
    if Finished(s) {
      var m := SameIntent(slots, s);
      SettledLoad(slots, i, waiting);
      if m < |slots| { JoinLoad(slots, i, m, nextToken, current, waiting); }
    }
  }

  lemma {:induction false} FinalizeFresh(slots: seq<Slot>, i: nat, nextToken: nat, current: nat, snap: Slot)
    requires Closing(slots, i, nextToken, current) && Fresh(slots, nextToken, snap)
    ensures Fresh(Finalize(slots, i), nextToken, snap)
  {
  }

  // ---- Each operation ----

  lemma {:induction false} BeginTable(c: Core, pn: string, rid: string)
    requires TableOk(c) && CanBegin(c, pn, rid)
    ensures TableOk(GapModel.Begin(c, pn, rid))
  {
    var i := FirstFree(c.slots);
    var s := NewSlot(c.nextToken + 1, pn, rid);
    SumUpdate(AsIntent, c.slots, i, s);
    forall j | 0 <= j < |c.slots| && j != i ensures SlotOk(c.slots[j], s.token, s.token) && Apart(s, c.slots[j]) {
      assert SlotOk(c.slots[j], c.nextToken, c.current);
    }
    Put(c.slots, i, s, s.token, s.token);
  }

  lemma {:induction false} BeginLoad(c: Core, pn: string, rid: string, waiting: seq<Packet>)
    requires TableOk(c) && CanBegin(c, pn, rid) && Conserved(c.slots, waiting)
    ensures Conserved(GapModel.Begin(c, pn, rid).slots, waiting)
  {
    var i := FirstFree(c.slots);
    var s := NewSlot(c.nextToken + 1, pn, rid);
    SumUpdate(Load, c.slots, i, s);
    var slots := c.slots[i := s];
    forall p | p in waiting ensures Find(slots, p.token) < |slots| && p.token != s.token {
      var j := Find(c.slots, p.token);
      assert SlotOk(c.slots[j], c.nextToken, c.current);
      assert slots[j].used && slots[j].token == p.token;
    }
    CountNone(waiting, s.token);
  }

  lemma {:induction false} BeginOk(w: World, pn: string, rid: string)
    requires Inv(w) && CanBegin(w.core, pn, rid)
    ensures Inv(w.(core := GapModel.Begin(w.core, pn, rid)))
  {
    BeginTable(w.core, pn, rid);
    BeginLoad(w.core, pn, rid, Waiting(w));
  }

  lemma {:induction false} CloseCore(c: Core, waiting: seq<Packet>, poll: Poll)
    requires TableOk(c) && Conserved(c.slots, waiting) && Find(c.slots, c.current) < |c.slots|
    requires !poll.Resting? ==> Fresh(c.slots, c.nextToken, poll.snap)
    ensures var d := GapModel.Close(c);
      TableOk(d) && Conserved(d.slots, waiting) && (!poll.Resting? ==> Fresh(d.slots, d.nextToken, poll.snap))
  {
    var i := Find(c.slots, c.current);
    var s := c.slots[i].(closed := true);
    var slots := c.slots[i := s];
    assert SlotOk(c.slots[i], c.nextToken, c.current);
    TokensDistinct(c.slots, c.nextToken, c.current);
    SumUpdate(AsIntent, c.slots, i, s);
    LoadKept(c.slots, waiting, i, s);
    NoneOpen(c, i);
    FinalizeOk(slots, i, c.nextToken, 0);
    FinalizeLoad(slots, i, c.nextToken, 0, waiting);
    if !poll.Resting? { FinalizeFresh(slots, i, c.nextToken, 0, poll.snap); }
  }

  lemma {:induction false} CloseOk(w: World)
    requires Inv(w)
    ensures Inv(w.(core := GapModel.Close(w.core)))
  {
    if Find(w.core.slots, w.core.current) < |w.core.slots| {
      CloseCore(w.core, Waiting(w), w.poll);
    } else {
      NoneOpen(w.core, |w.core.slots|);
    }
  }

  lemma {:induction false} NoneOpen(c: Core, i: nat)
    requires TableOk(c) && i == Find(c.slots, c.current)
    ensures Others(c.slots, i, c.nextToken, 0)
    ensures i < |c.slots| ==> Others(c.slots[i := c.slots[i].(closed := true)], i, c.nextToken, 0)
  {
    forall j | 0 <= j < |c.slots| && j != i ensures SlotOk(c.slots[j], c.nextToken, 0) {
      assert SlotOk(c.slots[j], c.nextToken, c.current);
      if i < |c.slots| { assert Apart(c.slots[i], c.slots[j]); }
    }
  }

  // Any other operation changes one slot it found by token.
  lemma {:induction false} OneSlotOk(w: World, i: nat, s: Slot)
    requires Inv(w) && i < |w.core.slots| && Keeps(w.core.slots[i], s) && Load(s) == Load(w.core.slots[i])
    requires s.used && w.core.slots[i].intent ==> s.intent && s.revision == w.core.slots[i].revision && s.lastId == w.core.slots[i].lastId
    ensures Inv(w.(core := w.core.(slots := w.core.slots[i := s])))
  {
    var c := w.core;
    TokensDistinct(c.slots, c.nextToken, c.current);
    UpdateOk(c, i, s);
    LoadKept(c.slots, Waiting(w), i, s);
  }

  lemma {:induction false} SubmitLoad(slots: seq<Slot>, i: nat, s: Slot, waiting: seq<Packet>, p: Packet)
    requires Conserved(slots, waiting) && Distinct(slots) && i == Find(slots, p.token) < |slots|
    requires s.used && s.token == p.token && Load(s) == Load(slots[i]) + 1
    ensures Conserved(slots[i := s], waiting + [p])
  {
    var slots' := slots[i := s];
    SumUpdate(Load, slots, i, s);
    forall j | 0 <= j < |slots| && slots'[j].used ensures Load(slots'[j]) == CountOf(waiting + [p], slots'[j].token) {
      CountAppend(waiting, [p], slots'[j].token);
    }
    forall q | q in waiting + [p] ensures Find(slots', q.token) < |slots| {
      var j := if q == p then i else Find(slots, q.token);
      assert slots'[j].used && slots'[j].token == q.token;
    }
  }

  lemma {:induction false} SubmitCore(c: Core, waiting: seq<Packet>, queued: nat, p: Packet)
    requires TableOk(c) && Conserved(c.slots, waiting) && Accepts(c, p.token, queued)
    ensures TableOk(GapModel.Submit(c, p.token)) && Conserved(GapModel.Submit(c, p.token).slots, waiting + [p])
  {
    var i := Find(c.slots, p.token);
    var s := c.slots[i].(accepted := c.slots[i].accepted + 1);
    assert SlotOk(c.slots[i], c.nextToken, c.current);
    TokensDistinct(c.slots, c.nextToken, c.current);
    UpdateOk(c, i, s);
    SubmitLoad(c.slots, i, s, waiting, p);
  }

  lemma {:induction false} SubmitOk(w: World, p: Packet)
    requires Inv(w) && Accepts(w.core, p.token, |w.queue|)
    ensures Inv(w.(core := GapModel.Submit(w.core, p.token), queue := w.queue + [p]))
  {
    assert Waiting(w.(queue := w.queue + [p])) == Waiting(w) + [p];
    SubmitCore(w.core, Waiting(w), |w.queue|, p);
  }

  lemma {:induction false} TakeOk(w: World)
    requires Inv(w) && w.worker.Free? && w.queue != []
    ensures Inv(w.(worker := Holding(w.queue[0]), queue := w.queue[1..]))
  {
    assert Waiting(w) == Waiting(w.(worker := Holding(w.queue[0]), queue := w.queue[1..]));
  }

  lemma {:induction false} NumberCore(c: Core, token: nat)
    requires TableOk(c) && HasId(c, token)
    ensures var i := Find(c.slots, token);
      i < |c.slots| && !c.slots[i].intent && Keeps(c.slots[i], TakeId(c, token).slots[i]) && Load(TakeId(c, token).slots[i]) == Load(c.slots[i])
      && TakeId(c, token) == c.(slots := c.slots[i := TakeId(c, token).slots[i]])
  {
    assert SlotOk(c.slots[Find(c.slots, token)], c.nextToken, c.current);
  }

  lemma {:induction false} NumberOk(w: World, token: nat)
    requires Inv(w)
    ensures Inv(w.(core := TakeId(w.core, token)))
  {
    if HasId(w.core, token) {
      NumberCore(w.core, token);
      var i := Find(w.core.slots, token);
      OneSlotOk(w, i, TakeId(w.core, token).slots[i]);
    }
  }

  lemma {:induction false} DoneCore(c: Core, p: Packet, persisted: bool, queue: seq<Packet>, poll: Poll)
    requires TableOk(c) && Conserved(c.slots, [p] + queue)
    requires !poll.Resting? ==> Fresh(c.slots, c.nextToken, poll.snap)
    ensures TableOk(GapModel.Done(c, p.token, persisted))
    ensures Conserved(GapModel.Done(c, p.token, persisted).slots, queue)
    ensures !poll.Resting? ==> Fresh(GapModel.Done(c, p.token, persisted).slots, c.nextToken, poll.snap)
  {
    AtHand(c, p, queue);
    var i := Find(c.slots, p.token);
    var s := Processed(c.slots[i], persisted);
    DoneLoad(c.slots, i, s, p, queue);
    DoneTable(c, i, s);
    if !poll.Resting? { DoneFresh(c, i, s, poll.snap); }
    DoneFinish(c, c.slots[i := s], i, queue, poll);
  }

  lemma {:induction false} AtHand(c: Core, p: Packet, queue: seq<Packet>)
    requires TableOk(c) && Conserved(c.slots, [p] + queue)
    ensures Distinct(c.slots)
    ensures var i := Find(c.slots, p.token);
      i < |c.slots| && !c.slots[i].intent && c.slots[i].processed < c.slots[i].accepted
  {
    var i := Find(c.slots, p.token);
    assert p in [p] + queue;
    CountMember([p] + queue, p);
    assert SlotOk(c.slots[i], c.nextToken, c.current);
    TokensDistinct(c.slots, c.nextToken, c.current);
  }

  lemma {:induction false} DoneFresh(c: Core, i: nat, s: Slot, snap: Slot)
    requires Fresh(c.slots, c.nextToken, snap) && i < |c.slots| && c.slots[i].used && !c.slots[i].intent && s.token == c.slots[i].token
    ensures Fresh(c.slots[i := s], c.nextToken, snap)
  {
  }

  lemma {:induction false} DoneOk(w: World)
    requires Inv(w) && w.worker.Stored?
    ensures Inv(w.(core := GapModel.Done(w.core, w.worker.p.token, w.worker.persisted), worker := Free))
  {
    assert Waiting(w) == [w.worker.p] + w.queue;
    assert Waiting(w.(worker := Free)) == w.queue;
    DoneCore(w.core, w.worker.p, w.worker.persisted, w.queue, w.poll);
  }

  lemma {:induction false} DoneFinish(c: Core, slots: seq<Slot>, i: nat, queue: seq<Packet>, poll: Poll)
    requires i < |slots| && Conserved(slots, queue)
    requires slots[i].closed ==> Closing(slots, i, c.nextToken, c.current)
    requires !poll.Resting? ==> Fresh(slots, c.nextToken, poll.snap)
    ensures Conserved(Finalize(slots, i), queue)
    ensures !poll.Resting? ==> Fresh(Finalize(slots, i), c.nextToken, poll.snap)
  {
    if slots[i].closed {
      FinalizeLoad(slots, i, c.nextToken, c.current, queue);
      if !poll.Resting? { FinalizeFresh(slots, i, c.nextToken, c.current, poll.snap); }
    }
  }

  lemma {:induction false} DoneLoad(slots: seq<Slot>, i: nat, s: Slot, p: Packet, queue: seq<Packet>)
    requires Conserved(slots, [p] + queue) && Distinct(slots) && i == Find(slots, p.token) < |slots|
    requires s.used && s.token == p.token && Load(s) == Load(slots[i]) - 1
    ensures Conserved(slots[i := s], queue)
  {
    var slots' := slots[i := s];
    SumUpdate(Load, slots, i, s);
    forall j | 0 <= j < |slots| && slots'[j].used ensures Load(slots'[j]) == CountOf(queue, slots'[j].token) {
      CountAppend([p], queue, slots'[j].token);
      assert CountOf([p], slots'[j].token) == if p.token == slots'[j].token then 1 else 0;
    }
    forall q | q in queue ensures Find(slots', q.token) < |slots| {
      assert q in [p] + queue;
      var j := Find(slots, q.token);
      assert slots'[j].used && slots'[j].token == q.token;
    }
  }

  lemma {:induction false} DoneTable(c: Core, i: nat, s: Slot)
    requires TableOk(c) && Distinct(c.slots) && i < |c.slots| && c.slots[i].used && !c.slots[i].intent && c.slots[i].processed < c.slots[i].accepted
    requires s.used && s.closed == c.slots[i].closed && !s.intent && s.token == c.slots[i].token && s.accepted == c.slots[i].accepted && s.processed == c.slots[i].processed + 1
    ensures s.closed ==> Closing(c.slots[i := s], i, c.nextToken, c.current)
    ensures InOrder(Finalize(c.slots[i := s], i), c.nextToken, c.current)
  {
    var slots := c.slots[i := s];
    SumUpdate(AsIntent, c.slots, i, s);
    assert SlotOk(c.slots[i], c.nextToken, c.current);
    assert Others(slots, i, c.nextToken, c.current);
    if s.closed {
      FinalizeOk(slots, i, c.nextToken, c.current);
    } else {
      UpdateOk(c, i, s);
    }
  }

  lemma {:induction false} ResumeOk(w: World, token: nat, stored: int)
    requires Inv(w)
    ensures Inv(w.(core := Resume(w.core, token, stored)))
  {
    var c := w.core;
    var i := Find(c.slots, token);
    if i < |c.slots| && !c.slots[i].closed && c.current == token {
      assert SlotOk(c.slots[i], c.nextToken, c.current);
      OneSlotOk(w, i, c.slots[i].(lastId := stored, nextId := if stored < INT_MAX then stored + 1 else INT_MAX, persisted := 1));
    }
  }

  // ---- The poll ----

  lemma {:induction false} RefreshOk(c: Core, waiting: seq<Packet>, now: nat)
    requires TableOk(c) && Conserved(c.slots, waiting)
    ensures TableOk(c.(slots := RefreshAll(c.slots, c.trigger, now)))
    ensures Conserved(RefreshAll(c.slots, c.trigger, now), waiting)
  {
    var slots := RefreshAll(c.slots, c.trigger, now);
    SumSame(AsIntent, c.slots, slots);
    SumSame(Load, c.slots, slots);
    forall i | 0 <= i < |slots| ensures SlotOk(slots[i], c.nextToken, c.current) { assert SlotOk(c.slots[i], c.nextToken, c.current); }
    forall i, j | 0 <= i < |slots| && 0 <= j < |slots| && i != j ensures Apart(slots[i], slots[j]) { assert Apart(c.slots[i], c.slots[j]); }
    forall p | p in waiting ensures Find(slots, p.token) < |slots| {
      var j := Find(c.slots, p.token);
      assert slots[j].used && slots[j].token == p.token;
    }
  }

  lemma {:induction false} ChosenFresh(slots: seq<Slot>, nextToken: nat, current: nat, i: nat)
    requires Others(slots, |slots|, nextToken, current) && i < |slots| && slots[i].used && slots[i].intent
    ensures Fresh(slots, nextToken, slots[i])
  {
    TokensDistinct(slots, nextToken, current);
    assert SlotOk(slots[i], nextToken, current);
  }

  lemma {:induction false} PollStartOk(w: World, connected: bool, now: nat)
    requires Inv(w)
    ensures Inv(Next(w, PollStart(connected, now)))
  {
    var c := w.core;
    var slots := RefreshAll(c.slots, c.trigger, now);
    RefreshOk(c, Waiting(w), now);
    var i := Oldest(slots, |slots|);
    if i < |slots| { ChosenFresh(slots, c.nextToken, c.current, i); }
  }

  // The slot a poll comes back to, if any, is still the intent it left.
  lemma {:induction false} StillIntent(c: Core, snap: Slot)
    requires TableOk(c) && Fresh(c.slots, c.nextToken, snap)
    ensures var i := Still(c.slots, snap);
      i < |c.slots| ==> Intent(c.slots[i]) && SameKey(c.slots[i], snap) && c.slots[i].lastId == snap.lastId
                        && c.slots[i].token == snap.token && c.slots[i].revision == snap.revision
  {
  }

  // A poll writes only the schedule of its intent, or frees the slot.
  lemma {:induction false} PollWriteOk(w: World, i: nat, s: Slot)
    requires Inv(w) && i < |w.core.slots| && Intent(w.core.slots[i])
    requires s == w.core.slots[i].(used := s.used, round := s.round, phase := s.phase, due := s.due)
    ensures Inv(w.(core := w.core.(slots := w.core.slots[i := s])))
  {
    OneSlotOk(w, i, s);
  }

  lemma {:induction false} PollRetryOk(w: World, now: nat)
    requires Inv(w) && !w.poll.Resting?
    ensures Inv(w.(core := RetryOf(w.core, w.poll.snap, now)))
  {
    var i := Still(w.core.slots, w.poll.snap);
    StillIntent(w.core, w.poll.snap);
    if i < |w.core.slots| { PollWriteOk(w, i, Retry(w.core.slots[i], now)); }
  }

  lemma {:induction false} PollApplyOk(w: World, now: nat)
    requires Inv(w) && w.poll.Applying?
    ensures Inv(w.(core := Apply(w.core, w.poll.snap, w.poll.answer, now)))
  {
    var i := Still(w.core.slots, w.poll.snap);
    StillIntent(w.core, w.poll.snap);
    if i < |w.core.slots| { PollWriteOk(w, i, AfterAnswer(w.core.slots[i], w.poll.snap, w.poll.answer, now)); }
  }

  lemma {:induction false} PollSentOk(w: World, now: nat)
    requires Inv(w) && !w.poll.Resting?
    ensures Inv(w.(core := SendOver(w.core, w.poll.snap, now)))
    ensures Inv(w.(core := Sent(w.core, w.poll.snap, now)))
  {
    var i := Still(w.core.slots, w.poll.snap);
    StillIntent(w.core, w.poll.snap);
    if i < |w.core.slots| {
      PollWriteOk(w, i, w.core.slots[i].(phase := VERIFY, due := now + GAP_SETTLE_MS));
      PollWriteOk(w, i, w.core.slots[i].(due := now + GAP_SEND_MS));
    }
  }

  // ---- Every run ----

  predicate OfPoll(e: Event) {
    e.PollStart? || e.PollNoMemory? || e.PollAsk? || e.PollAnswer? || e.PollApply? || e.PollSend? || e.PollPublished?
  }

  // The rest of the world does not matter here.
  lemma {:induction false} SameParts(w: World, v: World)
    requires Inv(w) && v.core == w.core && v.queue == w.queue && v.worker == w.worker
    requires v.poll.Resting? || (!w.poll.Resting? && v.poll.snap == w.poll.snap)
    ensures Inv(v)
  {
  }

  // What a poll that is under way can do to the table.
  lemma {:induction false} PollMoves(w: World, e: Event)
    requires OfPoll(e) && !e.PollStart? && !w.poll.Resting?
    ensures var v, c, snap := Next(w, e), w.core, w.poll.snap;
      && v.queue == w.queue && v.worker == w.worker && (v.poll.Resting? || v.poll.snap == snap)
      && (v.core == c
          || (e.PollApply? && w.poll.Applying? && v.core == Apply(c, snap, w.poll.answer, e.now))
          || (!e.PollAsk? && !e.PollAnswer? && v.core in {RetryOf(c, snap, e.now), SendOver(c, snap, e.now), Sent(c, snap, e.now)}))
  {
  }

  lemma {:induction false} PollNextOk(w: World, e: Event)
    requires Inv(w) && OfPoll(e)
    ensures Inv(Next(w, e))
  {
    if e.PollStart? {
      PollStartOk(w, e.connected, e.now);
    } else if !w.poll.Resting? {
      var v := Next(w, e);
      PollMoves(w, e);
      if v.core != w.core {
        if e.PollApply? && w.poll.Applying? { PollApplyOk(w, e.now); }
        PollRetryOk(w, e.now);
        PollSentOk(w, e.now);
      }
      SameParts(w.(core := v.core), v);
    }
  }

  lemma {:induction false} NextOk(w: World, e: Event)
    requires Inv(w)
    ensures Inv(Next(w, e))
  {
    if OfPoll(e) {
      PollNextOk(w, e);
    } else if e.Take? || e.Number? || e.Done? {
      WorkerOk(w, e);
    } else {
      SamplerOk(w, e);
    }
  }

  lemma {:induction false} SamplerOk(w: World, e: Event)
    requires Inv(w) && !OfPoll(e) && !e.Take? && !e.Number? && !e.Done?
    ensures Inv(Next(w, e))
  {
    if e.Begin? || e.EndResume? {
      OpenerOk(w, e);
    } else if e.Close? {
      CloseOk(w);
    } else if e.Submit? && Accepts(w.core, e.p.token, |w.queue|) {
      SubmitOk(w, e.p);
    }
  }

  lemma {:induction false} OpenerOk(w: World, e: Event)
    requires Inv(w) && (e.Begin? || e.EndResume?)
    ensures Inv(Next(w, e))
  {
    match e
    case Begin(pn, rid, resume) => if CanBegin(w.core, pn, rid) { BeginOk(w, pn, rid); }
    case EndResume => if w.opening.Looked? && w.opening.found.Some? { ResumeOk(w, w.opening.token, w.opening.found.value); }
    case _ =>
  }

  lemma {:induction false} WorkerOk(w: World, e: Event)
    requires Inv(w) && (e.Take? || e.Number? || e.Done?)
    ensures Inv(Next(w, e))
  {
    match e
    case Take => if w.worker.Free? && w.queue != [] { TakeOk(w); }
    case Number => if w.worker.Holding? { NumberOk(w, w.worker.p.token); }
    case Done => if w.worker.Stored? { DoneOk(w); }
    case _ =>
  }

  lemma {:induction false} AllFreeOk(slots: seq<Slot>)
    requires |slots| == GAP_SESSION_SLOTS && forall i :: 0 <= i < |slots| ==> slots[i] == FREE
    ensures TableOk(Core(slots, 0, 0, false, 0, false)) && Conserved(slots, [])
  {
    SumNone(AsIntent, slots);
    SumNone(Load, slots);
  }

  lemma {:induction false} BootOk(rows: set<Row>)
    ensures Inv(Boot(rows))
  {
    AllFreeOk(Boot(rows).core.slots);
    assert Waiting(Boot(rows)) == [];
  }

  lemma {:induction false} RunOk(rows: set<Row>, events: seq<Event>)
    ensures Inv(Run(Boot(rows), events))
  {
    if events == [] {
      BootOk(rows);
    } else {
      RunOk(rows, events[..|events| - 1]);
      NextOk(Run(Boot(rows), events[..|events| - 1]), events[|events| - 1]);
    }
  }
}
