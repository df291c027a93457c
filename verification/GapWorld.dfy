// The table of aging_gap.c together with the tasks that use it: samplers, the upload
// queue of three and its one consumer, the poll of the HTTP task, and the database.
module GapWorld {
  import opened GapModel
  import opened Options

  datatype Packet = Packet(token: nat, pn: string, rid: string)

  datatype Row = Row(pn: string, rid: string, id: int)

  // The upload consumer between two steps.
  datatype Worker = Free
                  | Holding(p: Packet)
                  | Numbered(p: Packet, id: int)
                  | Stored(p: Packet, persisted: bool)

  // A poll between two locked sections; `snap` is the intent it copied.
  datatype Poll = Resting
                | Chosen(snap: Slot)
                | Asking(snap: Slot)
                | Sending(snap: Slot)
                | Applying(snap: Slot, answer: Option<seq<int>>)
                | Publishing(snap: Slot)

  // A begin that has not returned: before, and after, it looked at the database. One whose
  // session has been closed meanwhile finds it so and changes nothing more.
  datatype Opening = Settled | Looking(token: nat, pn: string, rid: string) | Looked(token: nat, found: Option<int>)

  datatype World = World(core: Core, snapshots: set<Packet>, queue: seq<Packet>, worker: Worker,
                         opening: Opening, rows: set<Row>, poll: Poll, work: Work)

  datatype Fetch = Error | Gone | Record

  datatype Event = Begin(pn: string, rid: string, resume: bool)
                 | Look
                 | EndResume
                 | FailResume
                 | Close
                 | Idle
                 | Ready(ready: bool)
                 | Snapshot
                 | Submit(p: Packet)
                 | Take
                 | Number
                 | Store(ok: bool)
                 | Done
                 | Evict(kept: set<Row>)
                 | PollStart(connected: bool, now: nat)
                 | PollNoMemory(now: nat)
                 | PollAsk(connected: bool)
                 | PollAnswer(connected: bool, answer: Option<seq<int>>)
                 | PollApply(now: nat)
                 | PollSend(connected: bool, fetch: Fetch, now: nat)
                 | PollPublished(ok: bool, now: nat)

  // Power comes on: the table is empty, the database is as it was left.
  function Boot(rows: set<Row>): World {
    World(Core(seq(GAP_SESSION_SLOTS, _ => FREE), 0, 0, false, 0, false),
          {}, [], Free, Settled, rows, Resting, Work(0, 0, [], 0, 0))
  }

  // No insert takes a negative number.
  predicate Natural(rows: set<Row>) { forall r :: r in rows ==> r.id >= 0 }

  predicate Unopened(w: World, token: nat) { w.opening.Settled? || w.opening.token != token }

  // The highest number stored for a session, if any.
  predicate Highest(rows: set<Row>, pn: string, rid: string, m: int) {
    Row(pn, rid, m) in rows && forall r :: r in rows && r.pn == pn && r.rid == rid ==> r.id <= m
  }

  ghost function Lookup(rows: set<Row>, pn: string, rid: string): Option<int> {
    if m :| Highest(rows, pn, rid, m) then Some(m) else None
  }

  // One event; one that cannot happen now changes nothing.
  ghost function Next(w: World, e: Event): World {
    match e
    case Begin(pn, rid, resume) =>
      if CanBegin(w.core, pn, rid) then
        var c := GapModel.Begin(w.core, pn, rid);
        w.(core := c, opening := if resume && rid != "" then Looking(c.current, pn, rid) else Settled)
      else w
    case Look =>
      if w.opening.Looking? then w.(opening := Looked(w.opening.token, Lookup(w.rows, w.opening.pn, w.opening.rid))) else w
    case EndResume =>
      if !w.opening.Looked? then w
      else if w.opening.found == None then w.(opening := Settled)
      else w.(core := Resume(w.core, w.opening.token, w.opening.found.value), opening := Settled)
    case FailResume => if w.opening.Looking? then w.(opening := Settled) else w
    case Close => w.(core := GapModel.Close(w.core))
    case Idle => w.(core := GapModel.Idle(w.core))
    case Ready(ready) => w.(core := MqttReady(w.core, ready))
    case Snapshot =>
      var i := Find(w.core.slots, w.core.current);
      if i < |w.core.slots| && !w.core.slots[i].closed
      then w.(snapshots := w.snapshots + {Packet(w.core.current, w.core.slots[i].pn, w.core.slots[i].rid)}) else w
    case Submit(p) =>
      if p in w.snapshots && Unopened(w, p.token) && Accepts(w.core, p.token, |w.queue|)
      then w.(core := GapModel.Submit(w.core, p.token), queue := w.queue + [p]) else w
    case Take =>
      if w.worker.Free? && w.queue != [] then w.(worker := Holding(w.queue[0]), queue := w.queue[1..]) else w
    case Number =>
      if w.worker.Holding? then
        w.(core := TakeId(w.core, w.worker.p.token), worker := Numbered(w.worker.p, NextId(w.core, w.worker.p.token)))
      else w
    case Store(ok) =>
      if !w.worker.Numbered? then w
      else if w.worker.id >= 0 && ok then
        w.(rows := w.rows + {Row(w.worker.p.pn, w.worker.p.rid, w.worker.id)}, worker := Stored(w.worker.p, true))
      else w.(worker := Stored(w.worker.p, false))
    case Done =>
      if w.worker.Stored? then
        w.(core := GapModel.Done(w.core, w.worker.p.token, w.worker.persisted), worker := Free)
      else w
    case Evict(kept) => w.(rows := w.rows * kept)
    case PollStart(connected, now) =>
      if !w.poll.Resting? || !w.core.ready || !connected || w.core.running then w
      else
        var slots := RefreshAll(w.core.slots, w.core.trigger, now);
        var i := Oldest(slots, |slots|);
        var v := w.(core := w.core.(slots := slots));
        if i == |slots| || now < slots[i].due then v
        else v.(poll := Chosen(slots[i]), work := Prepared(w.work, slots[i]))
    case PollNoMemory(now) =>
      if w.poll.Chosen? then w.(core := RetryOf(w.core, w.poll.snap, now), poll := Resting) else w
    case PollAsk(connected) =>
      if !w.poll.Chosen? then w
      else if !CanRun(w.core, w.poll.snap, connected) then w.(poll := Resting)
      else w.(poll := if w.poll.snap.phase != SEND then Asking(w.poll.snap) else Sending(w.poll.snap))
    case PollAnswer(connected, answer) =>
      if w.poll.Asking? then
        w.(poll := if CanRun(w.core, w.poll.snap, connected) then Applying(w.poll.snap, answer) else Resting)
      else w
    case PollApply(now) =>
      if w.poll.Applying? then
        w.(core := Apply(w.core, w.poll.snap, w.poll.answer, now),
           work := AppliedWork(w.work, w.core, w.poll.snap, w.poll.answer, now), poll := Resting)
      else w
    case PollSend(connected, fetch, now) =>
      if !w.poll.Sending? then w
      else if w.work.index >= |w.work.ids| then
        w.(core := SendOver(w.core, w.poll.snap, now), work := Cleared(w.work), poll := Resting)
      else if fetch == Error then w.(core := RetryOf(w.core, w.poll.snap, now), poll := Resting)
      else if fetch == Gone then
        w.(work := w.work.(missing := w.work.missing + 1, index := w.work.index + 1), poll := Resting)
      else w.(poll := if CanRun(w.core, w.poll.snap, connected) then Publishing(w.poll.snap) else Resting)
    case PollPublished(ok, now) =>
      if !w.poll.Publishing? then w
      else if Still(w.core.slots, w.poll.snap) == |w.core.slots| then w.(poll := Resting)
      else if ok then
        w.(core := Sent(w.core, w.poll.snap, now), work := w.work.(index := w.work.index + 1), poll := Resting)
      else w.(core := RetryOf(w.core, w.poll.snap, now), poll := Resting)
  }

  ghost function Run(w: World, events: seq<Event>): World {
    if events == [] then w else Next(Run(w, events[..|events| - 1]), events[|events| - 1])
  }

  // ---- What every run keeps ----

  function Load(s: Slot): int { if s.used then s.accepted - s.processed else 0 }

  function InHand(w: World): seq<Packet> { if w.worker.Free? then [] else [w.worker.p] }

  function Waiting(w: World): seq<Packet> { InHand(w) + w.queue }

  function CountOf(ps: seq<Packet>, token: nat): int {
    if ps == [] then 0 else (if ps[0].token == token then 1 else 0) + CountOf(ps[1..], token)
  }

  // A used slot is exactly one of open, draining and intent, and only the current
  // session is open.
  predicate SlotOk(s: Slot, nextToken: nat, current: nat) {
    s.used ==>
      && 0 < s.token <= nextToken && s.processed <= s.accepted
      && (Open(s) || Draining(s) || Intent(s)) && (Open(s) <==> s.token == current)
  }

  predicate Apart(a: Slot, b: Slot) {
    a.used && b.used ==> a.token != b.token && !(a.intent && b.intent && SameKey(a, b))
  }

  // Every slot but i is in order; i == |slots| leaves none out.
  predicate Others(slots: seq<Slot>, i: nat, nextToken: nat, current: nat) {
    && (forall j :: 0 <= j < |slots| && j != i ==> SlotOk(slots[j], nextToken, current))
    && (forall j, k :: 0 <= j < |slots| && 0 <= k < |slots| && j != k && j != i && k != i ==> Apart(slots[j], slots[k]))
  }

  predicate TableOk(c: Core) {
    |c.slots| == GAP_SESSION_SLOTS && Others(c.slots, |c.slots|, c.nextToken, c.current) && Pending(c.slots) <= GAP_PENDING_MAX
  }

  // Accepted but not processed is exactly what waits in the queue or at the worker.
  predicate Conserved(slots: seq<Slot>, waiting: seq<Packet>) {
    && Sum(Load, slots) == |waiting|
    && (forall i :: 0 <= i < |slots| && slots[i].used ==> Load(slots[i]) == CountOf(waiting, slots[i].token))
    && (forall p :: p in waiting ==> Find(slots, p.token) < |slots|)
  }

  // The intent a poll copied can only have grown since, and shows it by its revision.
  predicate Fresh(slots: seq<Slot>, nextToken: nat, snap: Slot) {
    && 0 < snap.token <= nextToken
    && forall i :: 0 <= i < |slots| && slots[i].used && slots[i].token == snap.token ==>
         && Intent(slots[i]) && SameKey(slots[i], snap) && slots[i].revision >= snap.revision
         && (slots[i].revision == snap.revision ==> slots[i].lastId == snap.lastId)
  }

  predicate Inv(w: World) {
    && TableOk(w.core) && Conserved(w.core.slots, Waiting(w)) && |w.queue| <= QUEUE_LENGTH
    && (!w.poll.Resting? ==> Fresh(w.core.slots, w.core.nextToken, w.poll.snap))
  }
}
