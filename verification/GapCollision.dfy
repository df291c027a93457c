// Exactly when a resumed session stays clear of the rows of its record: where an earlier
// session's numbers still to be stored reach the start of the new one, some run makes the
// two meet.
module GapCollision {
  import opened GapModel
  import opened Options
  import opened GapWorld
  import opened GapSafety
  import opened GapNumbers
  import opened GapOverwrite

  // Run, seen from its first event.
  ghost function From(w: World, events: seq<Event>): World
    decreases |events|
  {
    if events == [] then w else From(Next(w, events[0]), events[1..])
  }

  lemma {:induction false} FromThen(w: World, a: seq<Event>, b: seq<Event>)
    ensures From(w, a + b) == From(From(w, a), b)
    decreases |a|
  {
    if a == [] {
      assert a + b == b;
    } else {
      assert (a + b)[1..] == a[1..] + b;
      FromThen(Next(w, a[0]), a[1..], b);
    }
  }

  lemma {:induction false} FromOne(w: World, e: Event, rest: seq<Event>)
    ensures From(w, [e] + rest) == From(Next(w, e), rest)
  {
    assert ([e] + rest)[1..] == rest;
  }

  lemma {:induction false} RunFrom(w: World, events: seq<Event>)
    ensures Run(w, events) == From(w, events)
    decreases |events|
  {
    if events != [] {
      var k := |events| - 1;
      RunFrom(w, events[..k]);
      FromThen(w, events[..k], [events[k]]);
      assert events[..k] + [events[k]] == events;
      FromOne(From(w, events[..k]), events[k], []);
    }
  }

  // ---- The earlier session's samples are stored ----

  // Session t is the current one, all its samples are settled, and its next number is n.
  predicate Resting(w: World, p: Packet, n: int) {
    && w.opening.Settled?
    && var i := Find(w.core.slots, p.token);
       i < |w.core.slots| && Open(w.core.slots[i]) && w.core.slots[i].accepted == w.core.slots[i].processed
       && w.core.slots[i].nextId == n && w.core.slots[i].pn == p.pn && w.core.slots[i].rid == p.rid
  }

  // The slot of another session of the record of p that will take the number l.
  predicate Takes(s: Slot, p: Packet, coming: seq<Packet>, l: int) {
    Live(s) && s.token != p.token && s.pn == p.pn && s.rid == p.rid && s.nextId <= l < s.nextId + CountOf(coming, s.token)
  }

  // Number l of the record of p is stored, in hand, or to come.
  predicate ToStore(w: World, p: Packet, l: int) {
    || Row(p.pn, p.rid, l) in w.rows
    || (w.worker.Numbered? && w.worker.id == l && w.worker.p.pn == p.pn && w.worker.p.rid == p.rid)
    || exists j :: 0 <= j < |w.core.slots| && Takes(w.core.slots[j], p, Unnumbered(w), l)
  }

  function Turn(w: World): Event {
    match w.worker
    case Free => Take
    case Holding(_) => Number
    case Numbered(_, _) => Store(true)
    case Stored(_, _) => Done
  }

  function Left(w: World): nat {
    4 * |w.queue| + match w.worker case Free => 0 case Holding(_) => 3 case Numbered(_, _) => 2 case Stored(_, _) => 1
  }

  // A settled session has nothing waiting.
  lemma {:induction false} NotOurs(w: World, p: Packet, n: int)
    requires Inv(w) && Steady(w) && Resting(w, p, n) && !w.worker.Free?
    ensures w.worker.p.token != p.token
  {
    CountMember(Waiting(w), w.worker.p);
  }

  lemma {:induction false} NumberRests(w: World, p: Packet, n: int)
    requires TableOk(w.core) && Resting(w, p, n) && w.worker.Holding? && w.worker.p.token != p.token
    ensures Resting(Next(w, Number), p, n)
  {
    var c, d := w.core, Next(w, Number).core;
    TokensDistinct(c.slots, c.nextToken, c.current);
    StaysThere(c.slots, d.slots, p.token);
  }

  lemma {:induction false} TurnRests(w: World, p: Packet, n: int)
    requires Inv(w) && Steady(w) && Resting(w, p, n)
    ensures Resting(Next(w, Turn(w)), p, n)
  {
    if !w.worker.Free? { NotOurs(w, p, n); }
    match w.worker
    case Free =>
    case Holding(_) => NumberRests(w, p, n);
    case Numbered(_, _) =>
    case Stored(_, _) => DoneThere(w, Find(w.core.slots, p.token));
  }

  lemma {:induction false} StaysThere(a: seq<Slot>, b: seq<Slot>, t: nat)
    requires |a| == |b| && Find(a, t) < |a| && b[Find(a, t)] == a[Find(a, t)]
    requires forall k :: 0 <= k < |a| && b[k].used ==> a[k].used && a[k].token == b[k].token
    ensures Find(b, t) == Find(a, t)
  {
    var i, j := Find(a, t), Find(b, t);
    assert b[i].used && b[i].token == t;
    assert j <= i;
  }

  // Settling a sample of another session leaves slot i as it is, if it is no intent.
  lemma {:induction false} DoneThere(w: World, i: nat)
    requires Inv(w) && w.worker.Stored? && i < |w.core.slots| && Live(w.core.slots[i]) && w.core.slots[i].token != w.worker.p.token
    ensures var a, b := w.core.slots, Next(w, Done).core.slots;
      |b| == |a| && b[i] == a[i] && Find(b, a[i].token) == Find(a, a[i].token)
  {
    var c, p, e := w.core, w.worker.p, Event.Done;
    var x, b := Find(c.slots, p.token), Next(w, e).core.slots;
    TokensDistinct(c.slots, c.nextToken, c.current);
    FinalizeOther(c.slots[x := Processed(c.slots[x], w.worker.persisted)], x, i);
    forall k | 0 <= k < |c.slots| && b[k].used ensures c.slots[k].used && c.slots[k].token == b[k].token {
      DoneNumber(c, p.token, w.worker.persisted, k);
      DoneToken(c, p.token, w.worker.persisted, k);
    }
    StaysThere(c.slots, b, c.slots[i].token);
  }

  lemma {:induction false} DoneToken(c: Core, token: nat, persisted: bool, k: nat)
    requires TableOk(c) && k < |c.slots|
    ensures var d := GapModel.Done(c, token, persisted); |d.slots| == |c.slots| && (d.slots[k].used ==> c.slots[k].used && d.slots[k].token == c.slots[k].token)
  {
  }

  lemma {:induction false} TurnStores(w: World, p: Packet, l: int)
    requires Inv(w) && Steady(w) && ToStore(w, p, l) && 0 <= l < INT_MAX
    ensures ToStore(Next(w, Turn(w)), p, l)
  {
    if j :| 0 <= j < |w.core.slots| && Takes(w.core.slots[j], p, Unnumbered(w), l) { TurnTakes(w, p, j, l); }
  }

  lemma {:induction false} TurnTakes(w: World, p: Packet, j: nat, l: int)
    requires Inv(w) && Steady(w) && j < |w.core.slots| && Takes(w.core.slots[j], p, Unnumbered(w), l) && l < INT_MAX
    ensures ToStore(Next(w, Turn(w)), p, l)
  {
    match w.worker
    case Free => TakeStores(w, p, j, l);
    case Holding(_) => NumberStores(w, p, j, l);
    case Numbered(_, _) => StoreStores(w, p, j, l);
    case Stored(_, _) => DoneStores(w, p, j, l);
  }

  lemma {:induction false} TakeStores(w: World, p: Packet, j: nat, l: int)
    requires w.worker.Free? && j < |w.core.slots| && Takes(w.core.slots[j], p, Unnumbered(w), l)
    ensures ToStore(Next(w, Take), p, l)
  {
    if w.queue != [] { assert [w.queue[0]] + w.queue[1..] == w.queue; }
    assert Takes(w.core.slots[j], p, Unnumbered(Next(w, Take)), l);
  }

  lemma {:induction false} NumberTakes(c: Core, q: Packet, queue: seq<Packet>, p: Packet, j: nat, l: int)
    requires Distinct(c.slots) && OfSlot(c.slots, c.nextToken, q) && j < |c.slots| && Takes(c.slots[j], p, [q] + queue, l) && l < INT_MAX
    requires q.token == c.slots[j].token ==> c.slots[j].processed < c.slots[j].accepted
    ensures (NextId(c, q.token) == l && q.pn == p.pn && q.rid == p.rid)
            || (|TakeId(c, q.token).slots| == |c.slots| && Takes(TakeId(c, q.token).slots[j], p, queue, l))
  {
    CountAppend([q], queue, c.slots[j].token);
    assert CountOf([q], c.slots[j].token) == if q.token == c.slots[j].token then 1 else 0;
  }

  lemma {:induction false} NumberStores(w: World, p: Packet, j: nat, l: int)
    requires Inv(w) && Steady(w) && w.worker.Holding? && j < |w.core.slots| && Takes(w.core.slots[j], p, Unnumbered(w), l) && l < INT_MAX
    ensures ToStore(Next(w, Number), p, l)
  {
    AtWork(w);
    TokensDistinct(w.core.slots, w.core.nextToken, w.core.current);
    assert w.worker.p in Waiting(w) && OfSlot(w.core.slots, w.core.nextToken, w.worker.p);
    NumberTakes(w.core, w.worker.p, w.queue, p, j, l);
  }

  lemma {:induction false} StoreStores(w: World, p: Packet, j: nat, l: int)
    requires w.worker.Numbered? && j < |w.core.slots| && Takes(w.core.slots[j], p, Unnumbered(w), l)
    ensures ToStore(Next(w, Store(true)), p, l)
  {
    assert Takes(w.core.slots[j], p, Unnumbered(Next(w, Store(true))), l);
  }

  lemma {:induction false} DoneStores(w: World, p: Packet, j: nat, l: int)
    requires Inv(w) && w.worker.Stored? && j < |w.core.slots| && Takes(w.core.slots[j], p, Unnumbered(w), l)
    ensures ToStore(Next(w, Done), p, l)
  {
    var s, q := w.core.slots[j], w.worker.p;
    if q.token == s.token {
      assert Waiting(w) == [q] + w.queue;
      CountFirst(q, w.queue);
      DoneSame(w.core, j, w.worker.persisted);
    } else {
      DoneThere(w, j);
    }
    assert Takes(Next(w, Done).core.slots[j], p, w.queue, l);
  }

  lemma {:induction false} DoneSame(c: Core, j: nat, persisted: bool)
    requires TableOk(c) && j < |c.slots| && c.slots[j].used && c.slots[j].processed + 1 < c.slots[j].accepted
    ensures var d := GapModel.Done(c, c.slots[j].token, persisted);
      |d.slots| == |c.slots| && d.slots[j] == Processed(c.slots[j], persisted)
  {
    TokensDistinct(c.slots, c.nextToken, c.current);
  }

  lemma {:induction false} TurnEnds(w: World)
    requires !(w.worker.Free? && w.queue == [])
    ensures Left(Next(w, Turn(w))) < Left(w)
  {
  }

  lemma {:induction false} TurnOk(w: World, p: Packet, n: int, l: int)
    requires Inv(w) && Steady(w) && Resting(w, p, n) && ToStore(w, p, l) && 0 <= l < INT_MAX
    ensures var v := Next(w, Turn(w)); Inv(v) && Steady(v) && Resting(v, p, n) && ToStore(v, p, l)
  {
    NextOk(w, Turn(w));
    NextSteady(w, Turn(w));
    TurnRests(w, p, n);
    TurnStores(w, p, l);
  }

  // The worker gets everything done, and number l is stored.
  lemma {:induction false} Drain(w: World, p: Packet, n: int, l: int) returns (events: seq<Event>)
    requires Inv(w) && Steady(w) && Resting(w, p, n) && ToStore(w, p, l) && 0 <= l < INT_MAX
    ensures var v := From(w, events);
      Inv(v) && Steady(v) && Resting(v, p, n) && v.worker.Free? && v.queue == [] && Row(p.pn, p.rid, l) in v.rows
    decreases Left(w)
  {
    if w.worker.Free? && w.queue == [] {
      events := [];
    } else {
      TurnEnds(w);
      TurnOk(w, p, n, l);
      var rest := Drain(Next(w, Turn(w)), p, n, l);
      events := [Turn(w)] + rest;
      FromOne(w, Turn(w), rest);
    }
  }

  // ---- The resumed session gets there ----

  predicate Quiet(w: World, p: Packet, n: int) { Resting(w, p, n) && w.worker.Free? && w.queue == [] }

  function Sampled(p: Packet): seq<Event> { [Snapshot, Submit(p), Take, Number] }

  lemma {:induction false} Four(w: World, a: Event, b: Event, c: Event, d: Event)
    ensures From(w, [a, b, c, d]) == Next(Next(Next(Next(w, a), b), c), d)
  {
    FromOne(w, a, [b, c, d]);
    FromOne(Next(w, a), b, [c, d]);
    FromOne(Next(Next(w, a), b), c, [d]);
    FromOne(Next(Next(Next(w, a), b), c), d, []);
    assert [a] + [b, c, d] == [a, b, c, d] && [b] + [c, d] == [b, c, d] && [c] + [d] == [c, d] && [d] + [] == [d];
  }

  lemma {:induction false} FindAfter(a: seq<Slot>, i: nat, s: Slot, t: nat)
    requires i < |a| && i == Find(a, t) && s.used && s.token == t
    ensures Find(a[i := s], t) == i
  {
    var b := a[i := s];
    assert b[i].used && b[i].token == t;
    forall k | 0 <= k < i ensures !(b[k].used && b[k].token == t) { assert b[k] == a[k]; }
  }

  lemma {:induction false} SampleQueued(w: World, p: Packet, n: int)
    requires Inv(w) && Quiet(w, p, n)
    ensures var v := Next(Next(w, Snapshot), Submit(p));
      v == w.(snapshots := w.snapshots + {p}, core := GapModel.Submit(w.core, p.token), queue := [p])
  {
    var c, i := w.core, Find(w.core.slots, p.token);
    assert SlotOk(c.slots[i], c.nextToken, c.current);
    assert c.current == p.token && Packet(c.current, c.slots[i].pn, c.slots[i].rid) == p;
    var v := Next(w, Snapshot);
    assert v == w.(snapshots := w.snapshots + {p});
    assert v.core == c && v.queue == w.queue && Unopened(v, p.token) && Accepts(c, p.token, |w.queue|) && w.queue + [p] == [p];
    assert Next(v, Submit(p)) == v.(core := GapModel.Submit(c, p.token), queue := [p]);
  }

  lemma {:induction false} QueuedGetsNumber(w: World, p: Packet, n: int)
    requires w.worker.Free? && w.queue == [p] && 0 <= n < INT_MAX
    requires var i := Find(w.core.slots, p.token);
      i < |w.core.slots| && w.core.slots[i].processed < w.core.slots[i].accepted && w.core.slots[i].nextId == n
    ensures var v := Next(Next(w, Take), Number);
      v == w.(core := TakeId(w.core, p.token), worker := Numbered(p, n), queue := [])
  {
    assert Next(w, Take) == w.(worker := Holding(p), queue := []);
  }

  lemma {:induction false} SampleGetsNumber(w: World, p: Packet, n: int)
    requires Inv(w) && Quiet(w, p, n) && 0 <= n < INT_MAX
    ensures var v := From(w, Sampled(p)); var i := Find(w.core.slots, p.token);
      && v.worker == Numbered(p, n) && v.queue == [] && v.rows == w.rows && v.opening == w.opening
      && i < |w.core.slots| && v.core.slots == w.core.slots[i := w.core.slots[i].(accepted := w.core.slots[i].accepted + 1, nextId := n + 1, lastId := n)]
  {
    var c, i := w.core, Find(w.core.slots, p.token);
    var s := c.slots[i].(accepted := c.slots[i].accepted + 1);
    SampleQueued(w, p, n);
    FindAfter(c.slots, i, s, p.token);
    QueuedGetsNumber(w.(snapshots := w.snapshots + {p}, core := GapModel.Submit(c, p.token), queue := [p]), p, n);
    Four(w, Snapshot, Submit(p), Take, Number);
  }

  // The sample is not stored: the session goes on with the next number.
  lemma {:induction false} SampleSettles(w: World, p: Packet, n: int)
    requires Inv(w) && w.worker == Numbered(p, n) && w.queue == [] && w.opening.Settled?
    requires var i := Find(w.core.slots, p.token);
      i < |w.core.slots| && Open(w.core.slots[i]) && w.core.slots[i].accepted == w.core.slots[i].processed + 1
      && w.core.slots[i].nextId == n + 1 && w.core.slots[i].pn == p.pn && w.core.slots[i].rid == p.rid
    ensures Quiet(Next(Next(w, Store(false)), Done), p, n + 1) && Next(Next(w, Store(false)), Done).rows == w.rows
  {
    var i := Find(w.core.slots, p.token);
    FindAfter(w.core.slots, i, Processed(w.core.slots[i], false), p.token);
  }

  lemma {:induction false} Catch(w: World, p: Packet, n: int, l: int) returns (events: seq<Event>)
    requires Inv(w) && Steady(w) && Quiet(w, p, n) && 0 <= n <= l < INT_MAX && Row(p.pn, p.rid, l) in w.rows
    ensures Overwrites(From(w, events), p.token)
    decreases l - n
  {
    SampleGetsNumber(w, p, n);
    if n == l {
      events := Sampled(p);
    } else {
      var v := From(w, Sampled(p));
      RunFrom(w, Sampled(p));
      RunSteady(w, Sampled(p));
      FindAfter(w.core.slots, Find(w.core.slots, p.token), v.core.slots[Find(w.core.slots, p.token)], p.token);
      SampleSettles(v, p, n);
      NextOk(v, Store(false));
      NextOk(Next(v, Store(false)), Done);
      NextSteady(v, Store(false));
      NextSteady(Next(v, Store(false)), Done);
      var rest := Catch(Next(Next(v, Store(false)), Done), p, n + 1, l);
      events := Sampled(p) + ([Event.Store(false)] + ([Event.Done] + rest));
      FromThen(w, Sampled(p), [Event.Store(false)] + ([Event.Done] + rest));
      FromOne(v, Store(false), [Event.Done] + rest);
      FromOne(Next(v, Store(false)), Done, rest);
    }
  }

  // ---- Exactly when ----

  lemma {:induction false} ResumeRests(c: Core, p: Packet, found: Option<int>)
    requires TableOk(c) && OpeningOk(c.slots, c.nextToken, Looking(p.token, p.pn, p.rid)) && Find(c.slots, p.token) < |c.slots|
    ensures var d := if found == None then c else Resume(c, p.token, found.value); var i := Find(c.slots, p.token);
      && |d.slots| == |c.slots| && Find(d.slots, p.token) == i && Open(d.slots[i]) && d.slots[i].accepted == d.slots[i].processed
      && d.slots[i].nextId == Start(found) && d.slots[i].pn == p.pn && d.slots[i].rid == p.rid
      && forall j :: 0 <= j < |c.slots| && c.slots[j].token != p.token ==> d.slots[j] == c.slots[j]
  {
    var i := Find(c.slots, p.token);
    assert SlotOk(c.slots[i], c.nextToken, c.current);
    if found.Some? {
      FindAfter(c.slots, i, c.slots[i].(lastId := found.value, nextId := Start(found), persisted := 1), p.token);
    }
  }

  lemma {:induction false} LookRests(w: World, p: Packet)
    requires Inv(w) && Steady(w) && w.opening == Looking(p.token, p.pn, p.rid) && Find(w.core.slots, p.token) < |w.core.slots|
    ensures var v := Next(Next(w, Look), EndResume);
      && Resting(v, p, Start(Lookup(w.rows, p.pn, p.rid))) && v.rows == w.rows && v.worker == w.worker && v.queue == w.queue
      && |v.core.slots| == |w.core.slots| && forall j :: 0 <= j < |w.core.slots| && w.core.slots[j].token != p.token ==> v.core.slots[j] == w.core.slots[j]
  {
    var found := Lookup(w.rows, p.pn, p.rid);
    ResumeRests(w.core, p, found);
    assert Next(w, Look) == w.(opening := Looked(p.token, found));
  }

  // What endangers the session is a number still to be stored, not below its start.
  lemma {:induction false} DangerNumber(w: World, p: Packet, n: int) returns (l: int)
    requires Inv(w) && Steady(w) && w.opening == Looking(p.token, p.pn, p.rid) && Endangered(w)
    requires n == Start(Lookup(w.rows, p.pn, p.rid)) && 0 <= n
    ensures n <= l < INT_MAX && ToStore(Next(Next(w, Look), EndResume), p, l)
  {
    var v := Next(Next(w, Look), EndResume);
    LookRests(w, p);
    if w.worker.Numbered? && w.worker.id >= n && w.worker.p.pn == p.pn && w.worker.p.rid == p.rid {
      l := w.worker.id;
    } else {
      var i :| 0 <= i < |w.core.slots| && Comes(w.core.slots[i], w.opening, Unnumbered(w), n);
      l := if w.core.slots[i].nextId < n then n else w.core.slots[i].nextId;
      assert Takes(v.core.slots[i], p, Unnumbered(v), l);
    }
  }

  lemma {:induction false} DangerComesTrue(w: World) returns (events: seq<Event>)
    requires Inv(w) && Steady(w) && w.opening.Looking? && Endangered(w) && Start(Lookup(w.rows, w.opening.pn, w.opening.rid)) >= 0
    ensures Overwrites(Run(Next(w, Look), events), w.opening.token)
  {
    var looked := Next(w, Look);
    var p := Packet(w.opening.token, w.opening.pn, w.opening.rid);
    var n, v := Start(Lookup(w.rows, p.pn, p.rid)), Next(looked, EndResume);
    var l := DangerNumber(w, p, n);
    LookRests(w, p);
    RunSteady(w, []);
    NextOk(w, Look);
    NextSteady(w, Look);
    NextOk(looked, EndResume);
    NextSteady(looked, EndResume);
    var drain := Drain(v, p, n, l);
    var rest := Catch(From(v, drain), p, n, l);
    events := [Event.EndResume] + (drain + rest);
    FromOne(looked, EndResume, drain + rest);
    FromThen(v, drain, rest);
    RunFrom(looked, events);
  }

  lemma {:induction false} StartsAtZero(rows: set<Row>, events: seq<Event>, pn: string, rid: string)
    requires Natural(rows)
    ensures Start(Lookup(Run(Boot(rows), events).rows, pn, rid)) >= 0
  {
    RunNumbers(rows, events);
    var stored := Run(Boot(rows), events).rows;
    var found := Lookup(stored, pn, rid);
    if found.Some? { assert Highest(stored, pn, rid, found.value) && Row(pn, rid, found.value) in stored; }
  }

  lemma {:induction false} AlwaysSteady(rows: set<Row>, events: seq<Event>)
    ensures Inv(Run(Boot(rows), events)) && Steady(Run(Boot(rows), events))
  {
    BootOk(rows);
    assert Waiting(Boot(rows)) == [];
    RunSteady(Boot(rows), events);
  }

  lemma {:induction false} StaysAhead(w: World, more: seq<Event>)
    requires Inv(w) && Steady(w) && w.opening.Looking? && !Endangered(w)
    ensures Above(Run(Next(w, Look), more), w.opening.token)
  {
    NextOk(w, Look);
    NextSteady(w, Look);
    LookAhead(w);
    RunAhead(Next(w, Look), more, w.opening.token);
  }

  ghost predicate OverwritesAfter(w: World, more: seq<Event>, t: nat) { Overwrites(Run(w, more), t) }

  ghost predicate AboveAfter(w: World, more: seq<Event>, t: nat) { Above(Run(w, more), t) }

  // Session t never gets a number its record has a row for.
  ghost predicate Safe(w: World, t: nat) { forall more: seq<Event> :: !OverwritesAfter(w, more, t) }

  // All its numbers exceed every number stored for its record.
  ghost predicate Clear(w: World, t: nat) { forall more: seq<Event> :: AboveAfter(w, more, t) }

  // Power came on with any rows in the database, anything happened since, and a begin is
  // about to look. Whatever happens after that, the resumed session never gets a number its
  // record has a row for, and all its numbers exceed every one stored -- if and only if at
  // this moment no other session of the record has a number to store from the new start on.
  lemma {:induction false} ResumeSafeExactly(rows: set<Row>, events: seq<Event>, w: World)
    requires Natural(rows) && w == Run(Boot(rows), events) && w.opening.Looking?
    ensures Safe(Next(w, Look), w.opening.token) <==> !Endangered(w)
    ensures Clear(Next(w, Look), w.opening.token) <==> !Endangered(w)
  {
    AlwaysSteady(rows, events);
    StartsAtZero(rows, events, w.opening.pn, w.opening.rid);
    SafeExactly(w);
  }

  lemma {:induction false} SafeExactly(w: World)
    requires Inv(w) && Steady(w) && w.opening.Looking? && Start(Lookup(w.rows, w.opening.pn, w.opening.rid)) >= 0
    ensures Safe(Next(w, Look), w.opening.token) <==> !Endangered(w)
    ensures Clear(Next(w, Look), w.opening.token) <==> !Endangered(w)
  {
    var v, t := Next(w, Look), w.opening.token;
    if Endangered(w) {
      var more := DangerComesTrue(w);
      assert OverwritesAfter(v, more, t) && !AboveAfter(v, more, t);
    } else {
      forall more: seq<Event> ensures AboveAfter(v, more, t) && !OverwritesAfter(v, more, t) { StaysAhead(w, more); }
    }
  }

  // The first session begun after power came on is in no danger: it resumes after all that
  // is stored.
  lemma {:induction false} FirstResumeSafe(rows: set<Row>, events: seq<Event>, w: World)
    requires Natural(rows) && w == Run(Boot(rows), events) && w.opening.Looking? && w.opening.token == 1
    ensures Clear(Next(w, Look), 1)
  {
    AlwaysSteady(rows, events);
    Alone(w);
    ResumeSafeExactly(rows, events, w);
  }

  lemma {:induction false} Alone(w: World)
    requires Inv(w) && Steady(w) && w.opening.Looking? && w.opening.token == 1
    ensures !Endangered(w)
  {
    var c := w.core;
    var i := Find(c.slots, 1);
    if i < |c.slots| {
      assert SlotOk(c.slots[i], c.nextToken, c.current);
      forall j | 0 <= j < |c.slots| && c.slots[j].used ensures c.slots[j].token == 1 { assert SlotOk(c.slots[j], c.nextToken, c.current); }
      assert OpeningOk(c.slots, c.nextToken, w.opening) && c.slots[i].accepted == 0;
      if w.worker.Numbered? {
        AtWork(w);
        assert false;
      }
    }
  }

  // ---- It happens ----

  function Earlier(): seq<Event> { [Begin("P", "R", false), Snapshot, Submit(Packet(1, "P", "R")), Close] }

  // A session is closed with one sample still queued.
  lemma {:induction false} ClosedWithSample()
    ensures var w := From(Boot({}), Earlier());
      && w.core.nextToken == 1 && w.core.current == 0 && w.opening.Settled? && w.worker.Free? && w.rows == {} && w.queue == [Packet(1, "P", "R")]
      && w.core.slots == Boot({}).core.slots[0 := NewSlot(1, "P", "R").(accepted := 1, closed := true)]
  {
    var w1 := Next(Boot({}), Begin("P", "R", false));
    assert w1.core.slots[0] == NewSlot(1, "P", "R");
    var w2 := Next(w1, Snapshot);
    var w3 := Next(w2, Submit(Packet(1, "P", "R")));
    assert w3.core.slots[0] == NewSlot(1, "P", "R").(accepted := 1);
    var w4 := Next(w3, Close);
    assert w4.core.slots[0] == NewSlot(1, "P", "R").(accepted := 1, closed := true);
    Four(Boot({}), Begin("P", "R", false), Snapshot, Submit(Packet(1, "P", "R")), Close);
  }

  // Resuming the same record right after that puts the new session in danger.
  lemma {:induction false} ResumeBehindDrain()
    ensures var w := Run(Boot({}), Earlier() + [Begin("P", "R", true)]);
      w.opening.Looking? && Endangered(w) && !Safe(Next(w, Look), w.opening.token)
  {
    var events := Earlier() + [Begin("P", "R", true)];
    var w := From(Boot({}), Earlier());
    ClosedWithSample();
    RunFrom(Boot({}), events);
    FromThen(Boot({}), Earlier(), [Begin("P", "R", true)]);
    FromOne(w, Begin("P", "R", true), []);
    BehindDrain(w);
    ResumeSafeExactly({}, events, Run(Boot({}), events));
  }

  lemma {:induction false} BehindDrain(w: World)
    requires w.core.nextToken == 1 && w.core.current == 0 && w.opening.Settled? && w.worker.Free? && w.rows == {} && w.queue == [Packet(1, "P", "R")]
    requires w.core.slots == Boot({}).core.slots[0 := NewSlot(1, "P", "R").(accepted := 1, closed := true)]
    ensures var v := Next(w, Begin("P", "R", true)); v.opening == Looking(2, "P", "R") && Endangered(v)
  {
    assert w.core.slots[1] == FREE && FirstFree(w.core.slots) == 1;
    var v := Next(w, Begin("P", "R", true));
    assert v.opening == Looking(2, "P", "R") && v.core.slots[1] == NewSlot(2, "P", "R") && v.core.slots[0] == w.core.slots[0];
    assert Lookup(v.rows, "P", "R") == None by {
      forall m ensures !Highest(v.rows, "P", "R", m) { assert Row("P", "R", m) !in v.rows; }
    }
    assert CountOf(Unnumbered(v), 1) == 1;
    assert Find(v.core.slots, 2) < |v.core.slots|;
    assert Comes(v.core.slots[0], v.opening, Unnumbered(v), 0);
  }
}
