// A resumed session against the rows already stored: its numbers lie beyond all of them,
// unless an earlier session of the same record still had numbers to store when the begin
// looked at the database.
module GapOverwrite {
  import opened GapModel
  import opened Options
  import opened GapWorld
  import opened GapSafety
  import opened GapNumbers
  import GapIntents

  predicate Live(s: Slot) { s.used && !s.intent }

  predicate Opened(s: Slot) { Open(s) && s.accepted == 0 && s.persisted == 0 }

  predicate OfKey(r: Row, s: Slot) { r.pn == s.pn && r.rid == s.rid }

  // The packets that have no number yet.
  function Unnumbered(w: World): seq<Packet> {
    if w.worker.Holding? then [w.worker.p] + w.queue else w.queue
  }

  // The number a resume starts from.
  function Start(found: Option<int>): int {
    if found == None then 0 else if found.value < INT_MAX then found.value + 1 else INT_MAX
  }

  // With this many packets to come, session s takes a number not below n.
  predicate Reaches(s: Slot, count: int, n: int) {
    count > 0 && s.nextId < INT_MAX && n < INT_MAX && s.nextId + count > n
  }

  // A number is in hand for session t, and its record has a row under it.
  predicate Overwrites(w: World, t: nat) {
    && w.worker.Numbered? && w.worker.id >= 0 && w.worker.p.token == t
    && Row(w.worker.p.pn, w.worker.p.rid, w.worker.id) in w.rows
  }

  // A number in hand for session t exceeds every one stored for its record.
  predicate Above(w: World, t: nat) {
    w.worker.Numbered? && w.worker.id >= 0 && w.worker.p.token == t ==>
      forall r :: r in w.rows && r.pn == w.worker.p.pn && r.rid == w.worker.p.rid ==> r.id < w.worker.id
  }

  // When the begin of session t looks: another session of its record will still store a
  // number that t is going to hand out.
  ghost predicate Endangered(w: World)
    requires w.opening.Looking?
  {
    var o, n := w.opening, Start(Lookup(w.rows, w.opening.pn, w.opening.rid));
    && Find(w.core.slots, o.token) < |w.core.slots|
    && (|| (w.worker.Numbered? && w.worker.id >= n && w.worker.p.pn == o.pn && w.worker.p.rid == o.rid)
        || exists i :: 0 <= i < |w.core.slots| && Comes(w.core.slots[i], o, Unnumbered(w), n))
  }

  predicate Comes(s: Slot, o: Opening, coming: seq<Packet>, n: int)
    requires o.Looking?
  {
    Live(s) && s.token != o.token && s.pn == o.pn && s.rid == o.rid && Reaches(s, CountOf(coming, s.token), n)
  }

  // ---- The database query finds the highest number ----

  lemma {:induction false} HighestExists(rows: set<Row>, pn: string, rid: string, r: Row)
    requires r in rows && r.pn == pn && r.rid == rid
    ensures exists m :: Highest(rows, pn, rid, m)
    decreases |rows|
  {
    if x :| x in rows && x.pn == pn && x.rid == rid && x.id > r.id {
      var rest := rows - {r};
      HighestExists(rest, pn, rid, x);
      var m :| Highest(rest, pn, rid, m);
      assert Row(pn, rid, m) in rest;
      assert Highest(rows, pn, rid, m);
    } else {
      assert r == Row(pn, rid, r.id);
      assert Highest(rows, pn, rid, r.id);
    }
  }

  lemma {:induction false} LookupHighest(rows: set<Row>, pn: string, rid: string)
    ensures forall r :: r in rows && r.pn == pn && r.rid == rid ==>
              Lookup(rows, pn, rid).Some? && r.id <= Lookup(rows, pn, rid).value
  {
    forall r | r in rows && r.pn == pn && r.rid == rid
      ensures Lookup(rows, pn, rid).Some? && r.id <= Lookup(rows, pn, rid).value {
      HighestExists(rows, pn, rid, r);
    }
  }

  // ---- What every run keeps about numbers in flight ----

  predicate OfSlot(slots: seq<Slot>, nextToken: nat, p: Packet) {
    0 < p.token <= nextToken &&
    forall i :: 0 <= i < |slots| && slots[i].used && slots[i].token == p.token ==> slots[i].pn == p.pn && slots[i].rid == p.rid
  }

  predicate Packets(slots: seq<Slot>, nextToken: nat, snapshots: set<Packet>, waiting: seq<Packet>) {
    && (forall p :: p in snapshots ==> OfSlot(slots, nextToken, p))
    && (forall p :: p in waiting ==> p in snapshots)
  }

  // Earlier sessions are served first.
  predicate Served(waiting: seq<Packet>) {
    forall i, j :: 0 <= i < j < |waiting| ==> waiting[i].token <= waiting[j].token
  }

  // The number in hand is the last one its session took.
  predicate InHandLast(slots: seq<Slot>, worker: Worker) {
    worker.Numbered? && worker.id >= 0 ==>
      worker.id < INT_MAX && forall i :: 0 <= i < |slots| && slots[i].used && slots[i].token == worker.p.token ==> slots[i].nextId == worker.id + 1
  }

  // The session being opened, while it is in the table, is open and has no samples.
  predicate OpeningOk(slots: seq<Slot>, nextToken: nat, o: Opening) {
    !o.Settled? ==>
      && 0 < o.token <= nextToken
      && forall i :: 0 <= i < |slots| && slots[i].used && slots[i].token == o.token ==>
           Opened(slots[i]) && slots[i].nextId == 0 && (o.Looking? ==> slots[i].pn == o.pn && slots[i].rid == o.rid)
  }

  predicate Steady(w: World) {
    && Packets(w.core.slots, w.core.nextToken, w.snapshots, Waiting(w)) && Served(Waiting(w))
    && (w.core.current == 0 || w.core.current == w.core.nextToken)
    && InHandLast(w.core.slots, w.worker) && OpeningOk(w.core.slots, w.core.nextToken, w.opening)
  }

  // A slot in use was in use before, by the same session with the same next number.
  predicate Follows(c: Core, d: Core) {
    && |d.slots| == |c.slots| && d.nextToken == c.nextToken
    && forall k :: 0 <= k < |c.slots| ==> SameNumber(c, d, k) && (d.slots[k].used ==> d.slots[k].token <= c.nextToken)
  }

  lemma {:induction false} FollowPackets(c: Core, d: Core, snapshots: set<Packet>, waiting: seq<Packet>, waiting': seq<Packet>)
    requires Packets(c.slots, c.nextToken, snapshots, waiting) && Follows(c, d) && forall p :: p in waiting' ==> p in waiting
    ensures Packets(d.slots, d.nextToken, snapshots, waiting')
  {
    forall p, i | p in snapshots && 0 <= i < |d.slots| && d.slots[i].used && d.slots[i].token == p.token
      ensures d.slots[i].pn == p.pn && d.slots[i].rid == p.rid {
      assert OfSlot(c.slots, c.nextToken, p) && SameNumber(c, d, i);
    }
    forall p | p in snapshots ensures OfSlot(d.slots, d.nextToken, p) { assert OfSlot(c.slots, c.nextToken, p); }
  }

  lemma {:induction false} FollowInHand(c: Core, d: Core, worker: Worker)
    requires InHandLast(c.slots, worker) && Follows(c, d)
    ensures InHandLast(d.slots, worker)
  {
    forall i | 0 <= i < |d.slots| && d.slots[i].used ensures d.slots[i].token == c.slots[i].token && d.slots[i].nextId == c.slots[i].nextId {
      assert SameNumber(c, d, i);
    }
  }

  lemma {:induction false} FollowOpening(c: Core, d: Core, o: Opening)
    requires OpeningOk(c.slots, c.nextToken, o) && Follows(c, d)
    requires forall k :: 0 <= k < |d.slots| && Opened(c.slots[k]) ==> d.slots[k] == c.slots[k] || !d.slots[k].used
    ensures OpeningOk(d.slots, d.nextToken, o)
  {
    forall i | 0 <= i < |d.slots| && d.slots[i].used && !o.Settled? && d.slots[i].token == o.token
      ensures Opened(d.slots[i]) && d.slots[i].nextId == 0 && (o.Looking? ==> d.slots[i].pn == o.pn && d.slots[i].rid == o.rid) {
      assert SameNumber(c, d, i);
    }
  }

  lemma {:induction false} FinalizeOther(slots: seq<Slot>, i: nat, k: nat)
    requires i < |slots| && k < |slots| && k != i && !slots[k].intent
    ensures Finalize(slots, i)[k] == slots[k]
  {
  }

  lemma {:induction false} CloseOpened(c: Core, k: nat)
    requires k < |c.slots| && Opened(c.slots[k]) && c.slots[k].processed == 0
    ensures var d := GapModel.Close(c); |d.slots| == |c.slots| && (d.slots[k] == c.slots[k] || !d.slots[k].used)
  {
    var i := Find(c.slots, c.current);
    if i < |c.slots| && i != k { FinalizeOther(c.slots[i := c.slots[i].(closed := true)], i, k); }
  }

  lemma {:induction false} DoneOpened(c: Core, token: nat, persisted: bool, k: nat)
    requires k < |c.slots| && Opened(c.slots[k])
    ensures GapModel.Done(c, token, persisted).slots[k] == c.slots[k]
  {
    var i := Find(c.slots, token);
    if i < |c.slots| && c.slots[i].processed < c.slots[i].accepted { FinalizeOther(c.slots[i := Processed(c.slots[i], persisted)], i, k); }
  }

  predicate SlotStays(c: Core, d: Core, k: nat) { |d.slots| == |c.slots| && k < |c.slots| && d.slots[k] == c.slots[k] }

  lemma {:induction false} StartOpened(w: World, e: Event, k: nat)
    requires e.PollStart? && k < |w.core.slots| && Opened(w.core.slots[k])
    ensures SlotStays(w.core, Next(w, e).core, k)
  {
  }

  lemma {:induction false} PollOpened(w: World, e: Event, k: nat)
    requires Inv(w) && OfPoll(e) && k < |w.core.slots| && Opened(w.core.slots[k])
    ensures SlotStays(w.core, Next(w, e).core, k)
  {
    if e.PollStart? {
      StartOpened(w, e, k);
    } else if !w.poll.Resting? {
      GapIntents.PollReaches(w, e);
      StillIntent(w.core, w.poll.snap);
      GapIntents.ReachOne(w.core, Next(w, e).core, w.poll.snap, GapIntents.AnswerOf(w.poll), GapIntents.NowOf(e), k);
    }
  }

  predicate Ordinary(e: Event) { e.Close? || e.Idle? || e.Ready? || e.Take? || e.Done? || e.FailResume? || OfPoll(e) }

  lemma {:induction false} OrdinaryOpened(w: World, e: Event, k: nat)
    requires Inv(w) && Ordinary(e) && k < |w.core.slots| && Opened(w.core.slots[k])
    ensures var d := Next(w, e).core; |d.slots| == |w.core.slots| && (d.slots[k] == w.core.slots[k] || !d.slots[k].used)
  {
    KeepNumber(w, e, k);
    assert SlotOk(w.core.slots[k], w.core.nextToken, w.core.current);
    if e.Close? { CloseOpened(w.core, k); }
    else if e.Done? && w.worker.Stored? { DoneOpened(w.core, w.worker.p.token, w.worker.persisted, k); }
    else if OfPoll(e) { PollOpened(w, e, k); }
  }

  lemma {:induction false} OrdinaryFollows(w: World, e: Event)
    requires Inv(w) && Ordinary(e)
    ensures Follows(w.core, Next(w, e).core) && Distinct(Next(w, e).core.slots)
  {
    var c, d := w.core, Next(w, e).core;
    NextOk(w, e);
    TokensDistinct(d.slots, d.nextToken, d.current);
    if OfPoll(e) { PollLeaves(w, e); }
    assert d.nextToken == c.nextToken;
    KeepNumber(w, e, 0);
    forall k | 0 <= k < |c.slots| ensures SameNumber(c, d, k) && (d.slots[k].used ==> d.slots[k].token <= c.nextToken) {
      KeepNumber(w, e, k);
      assert SlotOk(d.slots[k], d.nextToken, d.current);
    }
  }

  // What such an event leaves alone outside the table.
  predicate RestKept(w: World, v: World) {
    && v.rows == w.rows && v.snapshots == w.snapshots && (v.opening == w.opening || (v.opening.Settled? && w.opening.Looking?))
    && (v.worker.Numbered? ==> v.worker == w.worker) && Unnumbered(v) == Unnumbered(w)
    && (Waiting(v) == Waiting(w) || (Waiting(w) != [] && Waiting(v) == Waiting(w)[1..]))
  }

  lemma {:induction false} PollRest(w: World, e: Event)
    requires OfPoll(e)
    ensures RestKept(w, Next(w, e))
  {
    var v := Next(w, e);
    PollLeaves(w, e);
    PollQuiet(w, e);
    assert Waiting(v) == Waiting(w);
  }

  lemma {:induction false} PollQuiet(w: World, e: Event)
    requires OfPoll(e)
    ensures var v := Next(w, e); v.worker == w.worker && v.queue == w.queue && v.snapshots == w.snapshots
  {
  }

  lemma {:induction false} WorkRest(w: World, e: Event)
    requires e.Take? || e.Done?
    ensures RestKept(w, Next(w, e))
  {
    if e.Done? && w.worker.Stored? {
      assert Waiting(w)[1..] == w.queue == Waiting(Next(w, e));
    } else if e.Take? && w.worker.Free? && w.queue != [] {
      assert [w.queue[0]] + w.queue[1..] == w.queue;
    }
  }

  lemma {:induction false} OrdinaryRest(w: World, e: Event)
    requires Ordinary(e)
    ensures RestKept(w, Next(w, e))
  {
    if OfPoll(e) { PollRest(w, e); } else if e.Take? || e.Done? { WorkRest(w, e); }
  }

  lemma {:induction false} OrdinaryCurrent(w: World, e: Event)
    requires Ordinary(e)
    ensures Next(w, e).core.current in {0, w.core.current}
  {
    if OfPoll(e) && !w.poll.Resting? && !e.PollStart? { PollMoves(w, e); }
  }

  lemma {:induction false} StepSteady(w: World, v: World)
    requires Steady(w) && RestKept(w, v) && Follows(w.core, v.core) && v.core.current in {0, w.core.current}
    requires forall k :: 0 <= k < |w.core.slots| && Opened(w.core.slots[k]) ==> v.core.slots[k] == w.core.slots[k] || !v.core.slots[k].used
    ensures Steady(v)
  {
    FollowPackets(w.core, v.core, w.snapshots, Waiting(w), Waiting(v));
    FollowInHand(w.core, v.core, w.worker);
    FollowOpening(w.core, v.core, w.opening);
  }

  lemma {:induction false} OrdinarySteady(w: World, e: Event)
    requires Inv(w) && Steady(w) && Ordinary(e)
    ensures Steady(Next(w, e))
  {
    var v := Next(w, e);
    OrdinaryFollows(w, e);
    OrdinaryRest(w, e);
    OrdinaryCurrent(w, e);
    forall k | 0 <= k < |w.core.slots| && Opened(w.core.slots[k])
      ensures v.core.slots[k] == w.core.slots[k] || !v.core.slots[k].used { OrdinaryOpened(w, e, k); }
    StepSteady(w, v);
  }

  lemma {:induction false} AtWork(w: World)
    requires Inv(w) && !w.worker.Free?
    ensures var i := Find(w.core.slots, w.worker.p.token);
      i < |w.core.slots| && Live(w.core.slots[i]) && w.core.slots[i].processed < w.core.slots[i].accepted
  {
    assert Waiting(w) == [w.worker.p] + w.queue;
    AtHand(w.core, w.worker.p, w.queue);
  }

  lemma {:induction false} BeginCore(c: Core, pn: string, rid: string, snapshots: set<Packet>, waiting: seq<Packet>, worker: Worker)
    requires TableOk(c) && CanBegin(c, pn, rid) && Packets(c.slots, c.nextToken, snapshots, waiting) && InHandLast(c.slots, worker)
    requires worker.Numbered? ==> worker.p in snapshots
    ensures var d := GapModel.Begin(c, pn, rid);
      Packets(d.slots, d.nextToken, snapshots, waiting) && InHandLast(d.slots, worker)
  {
    var d := GapModel.Begin(c, pn, rid);
    forall p | p in snapshots ensures OfSlot(d.slots, d.nextToken, p) { assert OfSlot(c.slots, c.nextToken, p); }
    if worker.Numbered? { assert OfSlot(c.slots, c.nextToken, worker.p); }
  }

  // Its own slot is new and empty.
  lemma {:induction false} BeginOpening(c: Core, pn: string, rid: string)
    requires TableOk(c) && CanBegin(c, pn, rid)
    ensures var d := GapModel.Begin(c, pn, rid); OpeningOk(d.slots, d.nextToken, Looking(d.nextToken, pn, rid))
  {
    forall k | 0 <= k < |c.slots| && c.slots[k].used ensures c.slots[k].token <= c.nextToken { assert SlotOk(c.slots[k], c.nextToken, c.current); }
  }

  lemma {:induction false} BeginSteady(w: World, e: Event)
    requires Inv(w) && Steady(w) && e.Begin?
    ensures Steady(Next(w, e))
  {
    if CanBegin(w.core, e.pn, e.rid) {
      assert Waiting(Next(w, e)) == Waiting(w);
      if w.worker.Numbered? { assert w.worker.p in Waiting(w); }
      BeginCore(w.core, e.pn, e.rid, w.snapshots, Waiting(w), w.worker);
      BeginOpening(w.core, e.pn, e.rid);
    }
  }

  lemma {:induction false} SnapshotSteady(w: World)
    requires Inv(w) && Steady(w)
    ensures Steady(Next(w, Snapshot))
  {
    var c, v := w.core, Next(w, Snapshot);
    assert Waiting(v) == Waiting(w);
    var i := Find(c.slots, c.current);
    if i < |c.slots| && !c.slots[i].closed {
      TokensDistinct(c.slots, c.nextToken, c.current);
      assert SlotOk(c.slots[i], c.nextToken, c.current);
      assert OfSlot(c.slots, c.nextToken, Packet(c.current, c.slots[i].pn, c.slots[i].rid));
    }
  }

  // Only the current session takes samples, and it is the newest.
  lemma {:induction false} SubmitCurrent(w: World, p: Packet)
    requires Inv(w) && Steady(w) && Accepts(w.core, p.token, |w.queue|)
    ensures p.token == w.core.current == w.core.nextToken
  {
    assert SlotOk(w.core.slots[Find(w.core.slots, p.token)], w.core.nextToken, w.core.current);
  }

  // Slots in use keep their session.
  predicate SameSessions(a: seq<Slot>, b: seq<Slot>) {
    |b| == |a| && forall k :: 0 <= k < |a| && b[k].used ==> a[k].used && b[k].token == a[k].token && SameKey(b[k], a[k])
  }

  lemma {:induction false} SessionsPackets(a: seq<Slot>, b: seq<Slot>, nextToken: nat, snapshots: set<Packet>, waiting: seq<Packet>)
    requires Packets(a, nextToken, snapshots, waiting) && SameSessions(a, b)
    ensures Packets(b, nextToken, snapshots, waiting)
  {
    forall q | q in snapshots ensures OfSlot(b, nextToken, q) { assert OfSlot(a, nextToken, q); }
  }

  lemma {:induction false} SubmitCore(c: Core, p: Packet, worker: Worker, o: Opening)
    requires InHandLast(c.slots, worker) && OpeningOk(c.slots, c.nextToken, o)
    requires Find(c.slots, p.token) < |c.slots| && (o.Settled? || o.token != p.token)
    ensures var b := GapModel.Submit(c, p.token).slots;
      SameSessions(c.slots, b) && InHandLast(b, worker) && OpeningOk(b, c.nextToken, o)
  {
  }

  lemma {:induction false} SubmitSteady(w: World, p: Packet)
    requires Inv(w) && Steady(w) && p in w.snapshots && Unopened(w, p.token) && Accepts(w.core, p.token, |w.queue|)
    ensures Steady(w.(core := GapModel.Submit(w.core, p.token), queue := w.queue + [p]))
  {
    var c := w.core;
    assert Waiting(w.(queue := w.queue + [p])) == Waiting(w) + [p];
    SubmitCurrent(w, p);
    SubmitCore(c, p, w.worker, w.opening);
    SessionsPackets(c.slots, GapModel.Submit(c, p.token).slots, c.nextToken, w.snapshots, Waiting(w));
    ServedLast(c.slots, c.nextToken, w.snapshots, Waiting(w), p);
  }

  lemma {:induction false} ServedLast(slots: seq<Slot>, nextToken: nat, snapshots: set<Packet>, waiting: seq<Packet>, p: Packet)
    requires Packets(slots, nextToken, snapshots, waiting) && Served(waiting) && p.token == nextToken && p in snapshots
    ensures Served(waiting + [p]) && forall q :: q in waiting + [p] ==> q in snapshots
  {
    forall i | 0 <= i < |waiting| ensures waiting[i].token <= p.token { assert OfSlot(slots, nextToken, waiting[i]); }
  }

  lemma {:induction false} NumberCore(c: Core, p: Packet, o: Opening)
    requires TableOk(c) && OpeningOk(c.slots, c.nextToken, o)
    ensures var b := TakeId(c, p.token).slots;
      SameSessions(c.slots, b) && InHandLast(b, Numbered(p, NextId(c, p.token))) && OpeningOk(b, c.nextToken, o)
  {
    TokensDistinct(c.slots, c.nextToken, c.current);
  }

  lemma {:induction false} NumberSteady(w: World)
    requires Inv(w) && Steady(w) && w.worker.Holding?
    ensures Steady(Next(w, Number))
  {
    var c, p := w.core, w.worker.p;
    assert Waiting(Next(w, Number)) == Waiting(w);
    NumberCore(c, p, w.opening);
    SessionsPackets(c.slots, TakeId(c, p.token).slots, c.nextToken, w.snapshots, Waiting(w));
  }

  lemma {:induction false} ResumeSteady(w: World)
    requires Inv(w) && Steady(w) && w.opening.Looked?
    ensures Steady(Next(w, EndResume))
  {
    var c, v, t := w.core, Next(w, EndResume), w.opening.token;
    assert Waiting(v) == Waiting(w);
    forall q | q in w.snapshots ensures OfSlot(v.core.slots, c.nextToken, q) { assert OfSlot(c.slots, c.nextToken, q); }
    if w.worker.Numbered? { AtWork(w); }
  }

  lemma {:induction false} NextSteady(w: World, e: Event)
    requires Inv(w) && Steady(w)
    ensures Steady(Next(w, e))
  {
    match e
    case Begin(_, _, _) => BeginSteady(w, e);
    case Look => assert Waiting(Next(w, Look)) == Waiting(w);
    case EndResume => if w.opening.Looked? { ResumeSteady(w); }
    case Snapshot => SnapshotSteady(w);
    case Submit(p) => if p in w.snapshots && Unopened(w, p.token) && Accepts(w.core, p.token, |w.queue|) { SubmitSteady(w, p); }
    case Number => if w.worker.Holding? { NumberSteady(w); }
    case Store(ok) => assert Waiting(Next(w, Store(ok))) == Waiting(w);
    case Evict(kept) => assert Waiting(Next(w, Evict(kept))) == Waiting(w);
    case _ => OrdinarySteady(w, e);
  }

  lemma {:induction false} RunSteady(w: World, events: seq<Event>)
    requires Inv(w) && Steady(w)
    ensures Inv(Run(w, events)) && Steady(Run(w, events))
  {
    if events != [] {
      RunSteady(w, events[..|events| - 1]);
      NextOk(Run(w, events[..|events| - 1]), events[|events| - 1]);
      NextSteady(Run(w, events[..|events| - 1]), events[|events| - 1]);
    }
  }

  // ---- A session that stays ahead of the rows of its record ----

  // Everything stored or still to be stored by earlier sessions lies below b.
  predicate AheadOf(s: Slot, b: int, slots: seq<Slot>, rows: set<Row>, worker: Worker, coming: seq<Packet>) {
    && (forall r :: r in rows && OfKey(r, s) ==> r.id < b || b == INT_MAX)
    && (forall j :: 0 <= j < |slots| && Live(slots[j]) && SameKey(slots[j], s) && slots[j].token < s.token ==>
          !Reaches(slots[j], CountOf(coming, slots[j].token), b))
    && (worker.Numbered? && worker.id >= 0 && worker.p.pn == s.pn && worker.p.rid == s.rid ==>
          && (worker.p.token < s.token ==> worker.id < b)
          && (worker.p.token == s.token ==> forall r :: r in rows && OfKey(r, s) ==> r.id < worker.id))
  }

  // Where the session's numbers go on.
  function Bound(s: Slot, o: Opening): int {
    if o.Looked? && o.token == s.token then Start(o.found) else s.nextId
  }

  predicate Ahead(w: World, t: nat) {
    && 0 < t <= w.core.nextToken && !(w.opening.Looking? && w.opening.token == t)
    && forall i :: 0 <= i < |w.core.slots| && Live(w.core.slots[i]) && w.core.slots[i].token == t ==>
         AheadOf(w.core.slots[i], Bound(w.core.slots[i], w.opening), w.core.slots, w.rows, w.worker, Unnumbered(w))
  }

  // Sessions up to t keep their next number or go.
  predicate OldKept(slots: seq<Slot>, o: Opening, slots': seq<Slot>, o': Opening, t: nat) {
    |slots'| == |slots| && forall j :: 0 <= j < |slots| && Live(slots'[j]) && slots'[j].token <= t ==>
      && Live(slots[j]) && slots[j].token == slots'[j].token && SameKey(slots[j], slots'[j])
      && (if slots'[j].token == t then Bound(slots'[j], o') == Bound(slots[j], o) else slots'[j].nextId == slots[j].nextId)
  }

  lemma {:induction false} AheadKept(s: Slot, s': Slot, b: int, slots: seq<Slot>, o: Opening, slots': seq<Slot>, o': Opening, rows: set<Row>,
                                     rows': set<Row>, worker: Worker, worker': Worker, coming: seq<Packet>)
    requires AheadOf(s, b, slots, rows, worker, coming) && SameKey(s, s') && s.token == s'.token
    requires OldKept(slots, o, slots', o', s.token) && rows' <= rows && (worker' == worker || !worker'.Numbered?)
    ensures AheadOf(s', b, slots', rows', worker', coming)
  {
  }

  lemma {:induction false} AheadStays(w: World, v: World, t: nat)
    requires Ahead(w, t) && OldKept(w.core.slots, w.opening, v.core.slots, v.opening, t) && w.core.nextToken <= v.core.nextToken
    requires v.rows <= w.rows && (v.worker == w.worker || !v.worker.Numbered?) && Unnumbered(v) == Unnumbered(w)
    requires !(v.opening.Looking? && v.opening.token == t)
    ensures Ahead(v, t)
  {
    var a, d := w.core.slots, v.core.slots;
    forall i | 0 <= i < |d| && Live(d[i]) && d[i].token == t ensures AheadOf(d[i], Bound(d[i], v.opening), d, v.rows, v.worker, Unnumbered(v)) {
      AheadKept(a[i], d[i], Bound(a[i], w.opening), a, w.opening, d, v.opening, w.rows, v.rows, w.worker, v.worker, Unnumbered(w));
    }
  }

  lemma {:induction false} FollowOld(c: Core, d: Core, o: Opening, o': Opening, t: nat)
    requires Follows(c, d) && (o' == o || (o'.Settled? && o.Looking?))
    ensures OldKept(c.slots, o, d.slots, o', t)
  {
    forall j | 0 <= j < |c.slots| && Live(d.slots[j])
      ensures Live(c.slots[j]) && c.slots[j].token == d.slots[j].token && SameKey(c.slots[j], d.slots[j]) && c.slots[j].nextId == d.slots[j].nextId {
      assert SameNumber(c, d, j);
    }
  }

  lemma {:induction false} OrdinaryAhead(w: World, e: Event, t: nat)
    requires Inv(w) && Ahead(w, t) && Ordinary(e)
    ensures Ahead(Next(w, e), t)
  {
    var v := Next(w, e);
    OrdinaryFollows(w, e);
    OrdinaryRest(w, e);
    FollowOld(w.core, v.core, w.opening, v.opening, t);
    AheadStays(w, v, t);
  }

  lemma {:induction false} BeginAhead(w: World, e: Event, t: nat)
    requires Inv(w) && Steady(w) && Ahead(w, t) && e.Begin?
    ensures Ahead(Next(w, e), t)
  {
    var v := Next(w, e);
    if CanBegin(w.core, e.pn, e.rid) {
      BeginOld(w.core, w.opening, e.pn, e.rid, v.opening, t);
      AheadStays(w, v, t);
    }
  }

  // A session still being opened has left the table by the time another can begin.
  lemma {:induction false} BeginOld(c: Core, o: Opening, pn: string, rid: string, o': Opening, t: nat)
    requires TableOk(c) && CanBegin(c, pn, rid) && OpeningOk(c.slots, c.nextToken, o) && t <= c.nextToken && !o'.Looked?
    ensures OldKept(c.slots, o, GapModel.Begin(c, pn, rid).slots, o', t)
  {
    forall j | 0 <= j < |c.slots| && c.slots[j].used ensures o.Looked? ==> c.slots[j].token != o.token {
      assert SlotOk(c.slots[j], c.nextToken, c.current);
    }
  }

  lemma {:induction false} SubmitCounts(coming: seq<Packet>, p: Packet, t: nat)
    ensures p.token != t ==> CountOf(coming + [p], t) == CountOf(coming, t)
  {
    CountAppend(coming, [p], t);
  }

  lemma {:induction false} SubmitOne(s: Slot, b: int, slots: seq<Slot>, rows: set<Row>, worker: Worker, coming: seq<Packet>, p: Packet)
    requires AheadOf(s, b, slots, rows, worker, coming) && p.token >= s.token
    ensures AheadOf(s, b, slots, rows, worker, coming + [p])
  {
    forall j | 0 <= j < |slots| && slots[j].token < s.token ensures CountOf(coming + [p], slots[j].token) == CountOf(coming, slots[j].token) {
      SubmitCounts(coming, p, slots[j].token);
    }
  }

  lemma {:induction false} ComingAhead(w: World, v: World, p: Packet, t: nat)
    requires Ahead(w, t) && p.token >= t && Unnumbered(v) == Unnumbered(w) + [p]
    requires v.core == w.core && v.rows == w.rows && v.worker == w.worker && v.opening == w.opening
    ensures Ahead(v, t)
  {
    var slots := w.core.slots;
    forall i | 0 <= i < |slots| && Live(slots[i]) && slots[i].token == t
      ensures AheadOf(slots[i], Bound(slots[i], w.opening), slots, w.rows, w.worker, Unnumbered(v)) {
      SubmitOne(slots[i], Bound(slots[i], w.opening), slots, w.rows, w.worker, Unnumbered(w), p);
    }
  }

  lemma {:induction false} SubmitAhead(w: World, p: Packet, t: nat)
    requires Inv(w) && Steady(w) && Ahead(w, t) && Accepts(w.core, p.token, |w.queue|)
    ensures Ahead(w.(core := GapModel.Submit(w.core, p.token), queue := w.queue + [p]), t)
  {
    var v := w.(core := GapModel.Submit(w.core, p.token));
    SubmitCurrent(w, p);
    SubmitOld(w.core, p.token, w.opening, t);
    AheadStays(w, v, t);
    ComingAhead(v, v.(queue := w.queue + [p]), p, t);
  }

  lemma {:induction false} SubmitOld(c: Core, token: nat, o: Opening, t: nat)
    requires Find(c.slots, token) < |c.slots|
    ensures OldKept(c.slots, o, GapModel.Submit(c, token).slots, o, t)
  {
  }

  lemma {:induction false} ResumeAhead(w: World, t: nat)
    requires Inv(w) && Steady(w) && Ahead(w, t) && w.opening.Looked?
    ensures Ahead(Next(w, EndResume), t)
  {
    var v := Next(w, EndResume);
    ResumeNewest(w);
    ResumeOld(w.core.slots, v.core.slots, w.opening, w.core.nextToken, t);
    AheadStays(w, v, t);
  }

  predicate Continues(s: Slot, r: Slot, o: Opening, nextToken: nat)
    requires o.Looked?
  {
    || (r == s && (s.used && s.token == o.token ==> s.nextId == Start(o.found)))
    || (s.used && s.token == nextToken == o.token && r == s.(nextId := Start(o.found), lastId := r.lastId, persisted := 1))
  }

  lemma {:induction false} ResumeOld(a: seq<Slot>, b: seq<Slot>, o: Opening, nextToken: nat, t: nat)
    requires o.Looked? && |b| == |a| && t <= nextToken && forall j :: 0 <= j < |a| ==> Continues(a[j], b[j], o, nextToken)
    ensures OldKept(a, o, b, Settled, t)
  {
    forall j | 0 <= j < |a| && Live(b[j]) && b[j].token <= t
      ensures Live(a[j]) && a[j].token == b[j].token && SameKey(a[j], b[j])
              && (if b[j].token == t then Bound(b[j], Settled) == Bound(a[j], o) else b[j].nextId == a[j].nextId) {
      assert Continues(a[j], b[j], o, nextToken);
    }
  }

  // A resume writes the newest session only, if it writes at all.
  lemma {:induction false} ResumeNewest(w: World)
    requires Inv(w) && Steady(w) && w.opening.Looked?
    ensures var c, d, o := w.core, Next(w, EndResume).core, w.opening;
      && |d.slots| == |c.slots| && d.nextToken == c.nextToken
      && forall j :: 0 <= j < |c.slots| ==> Continues(c.slots[j], d.slots[j], o, c.nextToken)
  {
    forall j | 0 <= j < |w.core.slots|
      ensures Continues(w.core.slots[j], Next(w, EndResume).core.slots[j], w.opening, w.core.nextToken) {
      ResumeOne(w.core, w.opening, j);
    }
  }

  lemma {:induction false} ResumeOne(c: Core, o: Opening, j: nat)
    requires TableOk(c) && OpeningOk(c.slots, c.nextToken, o) && o.Looked? && (c.current == 0 || c.current == c.nextToken) && j < |c.slots|
    ensures Continues(c.slots[j], if o.found == None then c.slots[j] else Resume(c, o.token, o.found.value).slots[j], o, c.nextToken)
  {
    TokensDistinct(c.slots, c.nextToken, c.current);
    assert SlotOk(c.slots[j], c.nextToken, c.current);
  }

  // While a session may still take numbers, the worker never holds a later one's packet.
  lemma {:induction false} NoneLater(w: World, i: nat)
    requires Inv(w) && Steady(w) && !w.worker.Free? && i < |w.core.slots| && Live(w.core.slots[i])
    ensures w.worker.p.token <= w.core.slots[i].token
  {
    var c, s := w.core, w.core.slots[i];
    assert SlotOk(s, c.nextToken, c.current);
    assert Waiting(w)[0] == w.worker.p && w.worker.p in Waiting(w) && OfSlot(c.slots, c.nextToken, w.worker.p);
    if !Open(s) {
      if forall p :: p in Waiting(w) ==> p.token != s.token { CountNone(Waiting(w), s.token); assert false; }
      var k :| 0 <= k < |Waiting(w)| && Waiting(w)[k].token == s.token;
    }
  }

  lemma {:induction false} NumberAhead(w: World, t: nat)
    requires Inv(w) && Steady(w) && Ahead(w, t) && w.worker.Holding?
    ensures Ahead(Next(w, Number), t)
  {
    var c, v, p := w.core, Next(w, Number), w.worker.p;
    AtWork(w);
    TokensDistinct(c.slots, c.nextToken, c.current);
    assert p in Waiting(w) && OfSlot(c.slots, c.nextToken, p);
    forall i | 0 <= i < |c.slots| && Live(v.core.slots[i]) && v.core.slots[i].token == t
      ensures AheadOf(v.core.slots[i], Bound(v.core.slots[i], w.opening), v.core.slots, w.rows, v.worker, w.queue) {
      NoneLater(w, i);
      NumberOne(c, p, w.queue, w.rows, w.opening, i);
    }
  }

  // What an older session may still reach shrinks as the worker takes a packet.
  lemma {:induction false} NumberReaches(c: Core, p: Packet, queue: seq<Packet>, j: nat, b: int)
    requires Distinct(c.slots) && j < |c.slots| && Live(c.slots[j])
    requires !Reaches(c.slots[j], CountOf([p] + queue, c.slots[j].token), b)
    ensures var d := TakeId(c, p.token); |d.slots| == |c.slots| && !Reaches(d.slots[j], CountOf(queue, d.slots[j].token), b)
  {
    CountAppend([p], queue, c.slots[j].token);
    assert CountOf([p], c.slots[j].token) == if p.token == c.slots[j].token then 1 else 0;
  }

  // The slot of the packet at hand, next to slot i.
  predicate AtHandWith(c: Core, p: Packet, i: nat) {
    && OfSlot(c.slots, c.nextToken, p) && i < |c.slots| && Live(c.slots[i]) && p.token <= c.slots[i].token
    && var x := Find(c.slots, p.token);
       x < |c.slots| && Live(c.slots[x]) && c.slots[x].processed < c.slots[x].accepted
  }

  lemma {:induction false} NumberOne(c: Core, p: Packet, queue: seq<Packet>, rows: set<Row>, o: Opening, i: nat)
    requires Distinct(c.slots) && AtHandWith(c, p, i) && OpeningOk(c.slots, c.nextToken, o)
    requires AheadOf(c.slots[i], Bound(c.slots[i], o), c.slots, rows, Holding(p), [p] + queue)
    ensures var d, id := TakeId(c, p.token), NextId(c, p.token);
      |d.slots| == |c.slots| && AheadOf(d.slots[i], Bound(d.slots[i], o), d.slots, rows, Numbered(p, id), queue)
  {
    var d, s := TakeId(c, p.token), c.slots[i];
    var x := Find(c.slots, p.token);
    assert p.token == s.token ==> x == i && !(o.Looked? && o.token == s.token);
    assert SameKey(c.slots[x], s) <==> p.pn == s.pn && p.rid == s.rid;
    forall j | 0 <= j < |c.slots| && Live(d.slots[j]) && SameKey(d.slots[j], s) && d.slots[j].token < s.token
      ensures !Reaches(d.slots[j], CountOf(queue, d.slots[j].token), Bound(s, o)) {
      assert Live(c.slots[j]) && SameKey(c.slots[j], s) && c.slots[j].token < s.token;
      NumberReaches(c, p, queue, j, Bound(s, o));
    }
    if p.token < s.token { CountFirst(p, queue); }
  }

  lemma {:induction false} CountFirst(p: Packet, queue: seq<Packet>)
    ensures CountOf([p] + queue, p.token) == 1 + CountOf(queue, p.token) >= 1
  {
    CountAppend([p], queue, p.token);
    CountMember(queue, p);
    assert CountOf([p], p.token) == 1 + CountOf([], p.token);
  }

  lemma {:induction false} StoreOne(c: Core, p: Packet, id: int, rows: set<Row>, o: Opening, queue: seq<Packet>, i: nat)
    requires Distinct(c.slots) && AtHandWith(c, p, i) && OpeningOk(c.slots, c.nextToken, o) && InHandLast(c.slots, Numbered(p, id)) && id >= 0
    requires AheadOf(c.slots[i], Bound(c.slots[i], o), c.slots, rows, Numbered(p, id), queue)
    ensures AheadOf(c.slots[i], Bound(c.slots[i], o), c.slots, rows + {Row(p.pn, p.rid, id)}, Stored(p, true), queue)
  {
    assert p.token == c.slots[i].token ==> !(o.Looked? && o.token == p.token);
  }

  lemma {:induction false} StoreAhead(w: World, ok: bool, t: nat)
    requires Inv(w) && Steady(w) && Ahead(w, t) && w.worker.Numbered?
    ensures Ahead(Next(w, Store(ok)), t)
  {
    if ok && w.worker.id >= 0 {
      StoredAhead(w, t);
    } else {
      AheadStays(w, Next(w, Store(ok)), t);
    }
  }

  lemma {:induction false} StoredAhead(w: World, t: nat)
    requires Inv(w) && Steady(w) && Ahead(w, t) && w.worker.Numbered? && w.worker.id >= 0
    ensures Ahead(w.(rows := w.rows + {Row(w.worker.p.pn, w.worker.p.rid, w.worker.id)}, worker := Stored(w.worker.p, true)), t)
  {
    var c, p := w.core, w.worker.p;
    AtWork(w);
    TokensDistinct(c.slots, c.nextToken, c.current);
    forall i | 0 <= i < |c.slots| && Live(c.slots[i]) && c.slots[i].token == t
      ensures AheadOf(c.slots[i], Bound(c.slots[i], w.opening), c.slots, w.rows + {Row(p.pn, p.rid, w.worker.id)}, Stored(p, true), w.queue) {
      NoneLater(w, i);
      assert p in Waiting(w);
      StoreOne(c, p, w.worker.id, w.rows, w.opening, w.queue, i);
    }
  }

  lemma {:induction false} OpenerAhead(w: World, e: Event, t: nat)
    requires Inv(w) && Steady(w) && Ahead(w, t) && (e.Begin? || e.Look? || e.EndResume?)
    ensures Ahead(Next(w, e), t)
  {
    if e.Begin? { BeginAhead(w, e, t); } else if e.EndResume? && w.opening.Looked? { ResumeAhead(w, t); }
  }

  lemma {:induction false} NextAhead(w: World, e: Event, t: nat)
    requires Inv(w) && Steady(w) && Ahead(w, t)
    ensures Ahead(Next(w, e), t)
  {
    if Ordinary(e) { OrdinaryAhead(w, e, t); }
    else if e.Begin? || e.Look? || e.EndResume? { OpenerAhead(w, e, t); }
    else { SampleAhead(w, e, t); }
  }

  lemma {:induction false} SampleAhead(w: World, e: Event, t: nat)
    requires Inv(w) && Steady(w) && Ahead(w, t) && (e.Snapshot? || e.Submit? || e.Number? || e.Store? || e.Evict?)
    ensures Ahead(Next(w, e), t)
  {
    if e.Submit? && e.p in w.snapshots && Unopened(w, e.p.token) && Accepts(w.core, e.p.token, |w.queue|) { SubmitAhead(w, e.p, t); }
    else if e.Number? && w.worker.Holding? { NumberAhead(w, t); }
    else if e.Store? && w.worker.Numbered? { StoreAhead(w, e.ok, t); }
  }

  lemma {:induction false} RunAhead(w: World, events: seq<Event>, t: nat)
    requires Inv(w) && Steady(w) && Ahead(w, t)
    ensures Ahead(Run(w, events), t) && Above(Run(w, events), t)
  {
    RunSteady(w, events);
    if events != [] {
      var before := events[..|events| - 1];
      RunAhead(w, before, t);
      RunSteady(w, before);
      NextAhead(Run(w, before), events[|events| - 1], t);
    }
    NumberAbove(Run(w, events), t);
  }

  lemma {:induction false} NumberAbove(w: World, t: nat)
    requires Inv(w) && Steady(w) && Ahead(w, t)
    ensures Above(w, t)
  {
    if w.worker.Numbered? && w.worker.id >= 0 && w.worker.p.token == t {
      AtWork(w);
      var s := w.core.slots[Find(w.core.slots, t)];
      assert w.worker.p in Waiting(w) && OfSlot(w.core.slots, w.core.nextToken, w.worker.p);
      assert forall r :: OfKey(r, s) <==> r.pn == w.worker.p.pn && r.rid == w.worker.p.rid;
    }
  }

  lemma {:induction false} LookAhead(w: World)
    requires Inv(w) && Steady(w) && w.opening.Looking? && !Endangered(w)
    ensures Ahead(Next(w, Look), w.opening.token)
  {
    var c, o, v := w.core, w.opening, Next(w, Look);
    LookupHighest(w.rows, o.pn, o.rid);
    forall i | 0 <= i < |c.slots| && Live(c.slots[i]) && c.slots[i].token == o.token
      ensures AheadOf(c.slots[i], Start(v.opening.found), c.slots, w.rows, w.worker, Unnumbered(w)) {
      assert SlotOk(c.slots[i], c.nextToken, c.current);
      forall j | 0 <= j < |c.slots| && Live(c.slots[j]) && SameKey(c.slots[j], c.slots[i]) && c.slots[j].token < o.token
        ensures !Reaches(c.slots[j], CountOf(Unnumbered(w), c.slots[j].token), Start(v.opening.found)) {
        assert !Comes(c.slots[j], o, Unnumbered(w), Start(v.opening.found));
      }
      if w.worker.Numbered? && w.worker.p.token == o.token { AtWork(w); }
    }
  }
}
