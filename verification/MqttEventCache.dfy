// main/APP/MQTT/mqtt_app.c: reports that must reach the broker wait in a bounded queue,
// in order, until their PUBACK has come. 128 places, of which 32 are kept free of
// ordinary reports.
module MqttEventCache {
  import opened MqttAck
  import opened Options

  const EVENT_QUEUE_LEN := 128
  const EVENT_NORMAL_LIMIT := 96
  const EVENT_PAYLOAD_BYTES := 512
  const EVENT_RETRY_MS := 5000

  datatype Kind = STATE | TASKCP | CONTEXT | WARN

  datatype Item = Item(kind: Kind, generation: nat, topic: string, payload: string)

  // What happened to the events and to their acknowledgements, in order: event k (in the
  // order of acceptance) was handed to the SDK, the SDK took it under an id, and an
  // acknowledgement that counts arrived.
  datatype Act = Handed(k: nat) | Given(k: nat, id: int) | Ack(id: int, published: bool)

  // How an event left the cache; an acknowledged one, with its stretch of what happened.
  datatype Fate = Acked(id: int, begin: nat, end: nat) | Cancelled(generation: nat)

  predicate Normal(k: Kind) { k == CONTEXT || k == WARN }

  function Normals(items: seq<Item>): nat {
    if items == [] then 0 else (if Normal(items[0].kind) then 1 else 0) + Normals(items[1..])
  }

  function Urgent(items: seq<Item>): nat {
    if items == [] then 0 else (if Normal(items[0].kind) then 0 else 1) + Urgent(items[1..])
  }

  lemma {:induction false} NormalsAppend(a: seq<Item>, x: Item)
    ensures Normals(a + [x]) == Normals(a) + if Normal(x.kind) then 1 else 0
  {
    if a != [] {
      assert (a + [x])[1..] == a[1..] + [x];
      NormalsAppend(a[1..], x);
    }
  }

  lemma {:induction false} EveryOneOrTheOther(items: seq<Item>)
    ensures |items| == Normals(items) + Urgent(items)
  {
    if items != [] { EveryOneOrTheOther(items[1..]); }
  }

  function AcksIn(acts: seq<Act>): seq<(int, bool)> {
    if acts == [] then []
    else
      var last := acts[|acts| - 1];
      AcksIn(acts[..|acts| - 1]) + if last.Ack? then [(last.id, last.published)] else []
  }

  lemma {:induction false} AcksAppend(acts: seq<Act>, a: Act)
    ensures AcksIn(acts + [a]) == AcksIn(acts) + if a.Ack? then [(a.id, a.published)] else []
  {
    assert (acts + [a])[..|acts|] == acts;
  }

  lemma {:induction false} AcksMean(acts: seq<Act>, id: int, published: bool)
    ensures (id, published) in AcksIn(acts) <==> Ack(id, published) in acts
  {
    if acts != [] {
      var k := |acts| - 1;
      AcksMean(acts[..k], id, published);
      assert acts == acts[..k] + [acts[k]];
    }
  }

  // From `begin` on, event k is the one the SDK has.
  predicate Stretch(acts: seq<Act>, k: nat, begin: nat, end: nat) {
    begin < end <= |acts| && acts[begin] == Handed(k) && forall m :: begin < m < end ==> !acts[m].Handed?
  }

  // The event was handed to the SDK, sent under this id, and the broker's PUBACK for this
  // id arrived, all before anything else was handed over; or it was a step report that a
  // newer generation made obsolete.
  predicate Justified(acts: seq<Act>, k: nat, f: Fate, x: Item) {
    match f
    case Acked(id, begin, end) =>
      0 < id <= ID_MAX && Stretch(acts, k, begin, end) && Given(k, id) in acts[begin..end] && Ack(id, true) in acts[begin..end]
    case Cancelled(generation) => x.kind == TASKCP && x.generation < generation
  }

  lemma {:induction false} StillJustified(acts: seq<Act>, a: Act, k: nat, f: Fate, x: Item)
    requires Justified(acts, k, f, x)
    ensures Justified(acts + [a], k, f, x)
  {
    if f.Acked? { assert (acts + [a])[f.begin..f.end] == acts[f.begin..f.end]; }
  }

  // No acknowledgement is taken for two events.
  lemma {:induction false} StretchesApart(acts: seq<Act>, j: nat, f: Fate, x: Item, k: nat, g: Fate, y: Item)
    requires j != k && f.Acked? && g.Acked? && Justified(acts, j, f, x) && Justified(acts, k, g, y)
    ensures f.end <= g.begin || g.end <= f.begin
  {
  }

  // Everything accepted is, in the order of acceptance, retired for a reason or pending.
  predicate Accounted(acts: seq<Act>, accepted: seq<Item>, fates: seq<Fate>, pending: seq<Item>, generation: nat) {
    && |fates| <= |accepted| && accepted[|fates|..] == pending
    && (forall i :: 0 <= i < |fates| ==> Justified(acts, i, fates[i], accepted[i]))
    && (forall i :: 0 <= i < |accepted| ==> accepted[i].generation <= generation)
  }

  predicate Counted(pending: seq<Item>, count: nat, normalCount: nat) {
    count == |pending| <= EVENT_QUEUE_LEN && normalCount == Normals(pending) <= EVENT_NORMAL_LIMIT
  }

  // With fewer than 32 urgent events pending there is room, whatever the others are.
  lemma {:induction false} RoomForUrgent(pending: seq<Item>, count: nat, normalCount: nat)
    requires Counted(pending, count, normalCount)
    ensures Urgent(pending) < 32 ==> count < 128
  {
    EveryOneOrTheOther(pending);
  }

  lemma {:induction false} AccountAppend(acts: seq<Act>, accepted: seq<Item>, fates: seq<Fate>, pending: seq<Item>, generation: nat, x: Item)
    requires Accounted(acts, accepted, fates, pending, generation) && x.generation <= generation
    ensures Accounted(acts, accepted + [x], fates, pending + [x], generation)
  {
  }

  lemma {:induction false} AccountRetire(acts: seq<Act>, accepted: seq<Item>, fates: seq<Fate>, pending: seq<Item>, generation: nat, f: Fate)
    requires Accounted(acts, accepted, fates, pending, generation) && pending != [] && Justified(acts, |fates|, f, pending[0])
    ensures Accounted(acts, accepted, fates + [f], pending[1..], generation)
  {
    assert accepted[|fates|] == pending[0];
    assert accepted[|fates| + 1..] == pending[1..];
  }

  lemma {:induction false} AccountAct(acts: seq<Act>, a: Act, accepted: seq<Item>, fates: seq<Fate>, pending: seq<Item>, generation: nat)
    requires Accounted(acts, accepted, fates, pending, generation)
    ensures Accounted(acts + [a], accepted, fates, pending, generation)
  {
    forall i | 0 <= i < |fates| ensures Justified(acts + [a], i, fates[i], accepted[i]) { StillJustified(acts, a, i, fates[i], accepted[i]); }
  }

  // The event in flight: what the acknowledgement log holds is what arrived since it was
  // handed over.
  predicate Flying(acts: seq<Act>, k: nat, begin: nat, id: int, log: seq<(int, bool)>) {
    Stretch(acts, k, begin, |acts|) && log == AcksIn(acts[begin..]) && (id > 0 ==> Given(k, id) in acts[begin..])
  }

  lemma {:induction false} FlyingOn(acts: seq<Act>, a: Act, k: nat, begin: nat, id: int, log: seq<(int, bool)>)
    requires Flying(acts, k, begin, id, log) && !a.Handed?
    ensures Flying(acts + [a], k, begin, id, log + if a.Ack? then [(a.id, a.published)] else [])
  {
    assert (acts + [a])[begin..] == acts[begin..] + [a];
    AcksAppend(acts[begin..], a);
  }

  lemma {:induction false} FlyingAcked(acts: seq<Act>, k: nat, begin: nat, id: int, log: seq<(int, bool)>, x: Item)
    requires Flying(acts, k, begin, id, log) && 0 < id <= ID_MAX && (id, true) in log
    ensures Justified(acts, k, Acked(id, begin, |acts|), x)
  {
    AcksMean(acts[begin..], id, true);
    assert acts[begin..|acts|] == acts[begin..];
  }

  class EventCache {
    var queue: seq<Item>
    var hasHead: bool
    var head: Item
    var msgId: int        // 0 waiting, -1 being handed to the SDK, positive in flight
    var clientGeneration: nat
    var retryEpoch: nat
    var retryDue: nat
    var count: nat
    var normalCount: nat
    var taskcpGeneration: nat
    var cached: nat
    var submitted: nat
    var acked: nat
    var retried: nat
    var cancelled: nat
    var rejected: nat
    const ack: EventAck
    ghost var accepted: seq<Item>
    ghost var fates: seq<Fate>
    ghost var acts: seq<Act>
    ghost var begin: nat  // where the event in flight was handed over

    ghost function Pending(): seq<Item>
      reads `queue, `hasHead, `head
    {
      (if hasHead then [head] else []) + queue
    }

    ghost predicate Kept()
      reads `queue, `hasHead, `head, `count, `normalCount, `accepted, `fates, `taskcpGeneration, `acts
    {
      Accounted(acts, accepted, fates, Pending(), taskcpGeneration) && Counted(Pending(), count, normalCount)
    }

    ghost predicate InFlight()
      reads `hasHead, `msgId, `acts, `begin, `fates, ack
    {
      && -1 <= msgId <= ID_MAX
      && (msgId != 0 ==> hasHead && Flying(acts, |fates|, begin, msgId, ack.log))
      && (msgId == -1 ==> ack.capture)
      && (msgId >= 0 ==> !ack.capture && ack.msgId == msgId)
    }

    ghost predicate Valid()
      reads this, ack, ack.bytes
    {
      Kept() && InFlight() && ack.Valid()
    }

    constructor ()
      ensures Valid() && fresh(ack) && fresh(ack.bytes) && accepted == [] && fates == []
    {
      queue, hasHead, head, msgId := [], false, Item(STATE, 0, "", ""), 0;
      clientGeneration, retryEpoch, retryDue, count, normalCount, taskcpGeneration := 0, 0, 0, 0, 0, 0;
      cached, submitted, acked, retried, cancelled, rejected := 0, 0, 0, 0, 0, 0;
      accepted, fates, acts, begin := [], [], [], 0;
      ack := new EventAck();
    }

    // -1: bad report or no memory; -2: no room; 0: kept until it is acknowledged.
    method Submit(kind: Kind, topic: Option<string>, payload: string, memory: bool) returns (result: int)
      requires Valid()
      modifies `queue, `count, `normalCount, `cached, `rejected, `accepted
      ensures Valid()
      ensures result == -1 <==> topic == None || payload == "" || |payload| >= EVENT_PAYLOAD_BYTES || !memory
      ensures result != -1 ==> (result == 0 <==>
                |old(Pending())| < 128 && (Normal(kind) ==> Normals(old(Pending())) < 96))
      ensures result == 0 ==> accepted == old(accepted) + [Item(kind, taskcpGeneration, topic.value, payload)]
      ensures result != 0 ==> accepted == old(accepted) && queue == old(queue)
      ensures !Normal(kind) && Urgent(old(Pending())) < 32 ==> result != -2
    {
      RoomForUrgent(Pending(), count, normalCount);
      if topic == None || payload == "" || |payload| >= EVENT_PAYLOAD_BYTES { return -1; }
      if memory && count < EVENT_QUEUE_LEN && (!Normal(kind) || normalCount < EVENT_NORMAL_LIMIT) {
        Keep(Item(kind, taskcpGeneration, topic.value, payload));
        return 0;
      }
      rejected := rejected + 1;
      return if memory then -2 else -1;
    }

    // The guard makes the queue's send succeed: the head is counted too.
    method Keep(item: Item)
      requires Kept() && count < EVENT_QUEUE_LEN && (Normal(item.kind) ==> normalCount < EVENT_NORMAL_LIMIT)
      requires item.generation <= taskcpGeneration
      modifies `queue, `count, `normalCount, `cached, `accepted
      ensures Kept() && |old(queue)| < EVENT_QUEUE_LEN
      ensures accepted == old(accepted) + [item] && Pending() == old(Pending()) + [item]
    {
      NormalsAppend(Pending(), item);
      AccountAppend(acts, accepted, fates, Pending(), taskcpGeneration, item);
      ghost var after := Pending() + [item];
      queue := queue + [item];
      accepted := accepted + [item];
      assert Pending() == after;
      count := count + 1;
      if Normal(item.kind) { normalCount := normalCount + 1; }
      cached := cached + 1;
    }

    method CancelTaskcp()
      requires Valid()
      modifies `taskcpGeneration
      ensures Valid() && taskcpGeneration == old(taskcpGeneration) + 1
    {
      taskcpGeneration := taskcpGeneration + 1;
    }

    method RetireHead(now: nat, ghost fate: Fate)
      requires Valid() && hasHead && msgId >= 0 && Justified(acts, |fates|, fate, head)
      modifies `normalCount, `count, `hasHead, `msgId, `retryDue, `fates, ack`capture, ack`msgId, ack`flags
      ensures Valid() && !hasHead && msgId == 0 && fates == old(fates) + [fate] && retryDue == now
    {
      RemoveHead(fate);
      msgId := 0;
      retryDue := now;
      ack.Reset();
    }

    method RemoveHead(ghost fate: Fate)
      requires Kept() && hasHead && Justified(acts, |fates|, fate, head)
      modifies `normalCount, `count, `hasHead, `fates
      ensures Kept() && !hasHead && fates == old(fates) + [fate]
    {
      AccountRetire(acts, accepted, fates, Pending(), taskcpGeneration, fate);
      ghost var after := Pending()[1..];
      if Normal(head.kind) { normalCount := normalCount - 1; }
      count := count - 1;
      hasHead := false;
      fates := fates + [fate];
      assert Pending() == after;
    }

    // One look at the head. `ready` is: set up for this epoch and the session is current.
    // True means that the head is now being handed to the SDK; an event already in flight
    // is left alone, whatever happens to the connection, until its acknowledgement comes,
    // the SDK drops it, or the client is rebuilt.
    method Poll(hasClient: bool, epoch: nat, ready: bool, now: nat) returns (send: bool)
      requires Valid() && msgId != -1
      modifies this, ack, ack.bytes
      ensures Valid() && accepted == old(accepted) && send == (msgId == -1)
      ensures old(msgId) > 0 && old(Waits(hasClient)) ==> !send && msgId == old(msgId) && fates == old(fates)
      ensures old(msgId) > 0 && old((msgId, true) in ack.log) ==> !send && fates == old(fates) + [Acked(old(msgId), old(begin), old(|acts|))]
      ensures fates == old(fates) || (old(msgId) > 0 && fates == old(fates) + [Acked(old(msgId), old(begin), old(|acts|))])
              || fates == old(fates) + [Cancelled(old(taskcpGeneration))]
      ensures if send then acts == old(acts) + [Handed(|fates|)] && begin == old(|acts|) && ack.log == [] else acts == old(acts)
      ensures send ==> Pending() == old(Pending()) && head == Pending()[0]
      ensures old(msgId) == 0 ==>
        (send <==> (old(Pending()) != [] && !old(Obsolete(Pending()[0])) && ready
                    && (old(retryEpoch) != epoch || !old(hasHead) || now >= old(retryDue))))
      ensures old(msgId) > 0 && !old((msgId, true) in ack.log) && !old(Waits(hasClient)) ==>
                (send <==> !old(Obsolete(head)) && ready && old(retryEpoch) != epoch)
    {
      if msgId > 0 {
        send := PollFlying(hasClient, epoch, ready, now);
      } else {
        send := PollIdle(epoch, ready, now);
      }
    }

    // A step report of an earlier generation.
    ghost predicate Obsolete(x: Item)
      reads `taskcpGeneration
    {
      x.kind == TASKCP && x.generation != taskcpGeneration
    }

    method PollIdle(epoch: nat, ready: bool, now: nat) returns (send: bool)
      requires Valid() && msgId == 0
      modifies this, ack, ack.bytes
      ensures Valid() && accepted == old(accepted) && send == (msgId == -1)
      ensures fates == old(fates) || fates == old(fates) + [Cancelled(old(taskcpGeneration))]
      ensures if send then acts == old(acts) + [Handed(|fates|)] && begin == old(|acts|) && ack.log == [] else acts == old(acts)
      ensures send ==> Pending() == old(Pending()) && head == Pending()[0]
      ensures send <==> (old(Pending()) != [] && !old(Obsolete(Pending()[0])) && ready
                         && (old(retryEpoch) != epoch || !old(hasHead) || now >= old(retryDue)))
    {
      if !hasHead && queue != [] { TakeHead(now); }
      send := false;
      if hasHead { send := Offer(epoch, ready, now); }
    }

    method PollFlying(hasClient: bool, epoch: nat, ready: bool, now: nat) returns (send: bool)
      requires Valid() && msgId > 0
      modifies this, ack, ack.bytes
      ensures Valid() && accepted == old(accepted) && send == (msgId == -1)
      ensures old(Waits(hasClient)) ==> !send && msgId == old(msgId) && fates == old(fates)
      ensures old((msgId, true) in ack.log) ==> !send && fates == old(fates) + [Acked(old(msgId), old(begin), old(|acts|))]
      ensures !old((msgId, true) in ack.log) ==> fates == old(fates) || fates == old(fates) + [Cancelled(old(taskcpGeneration))]
      ensures if send then acts == old(acts) + [Handed(|fates|)] && begin == old(|acts|) && ack.log == [] else acts == old(acts)
      ensures send ==> Pending() == old(Pending()) && head == Pending()[0]
      ensures !old((msgId, true) in ack.log) && !old(Waits(hasClient)) ==> (send <==> !old(Obsolete(head)) && ready && old(retryEpoch) != epoch)
    {
      send := false;
      var done := LookAtAck(hasClient, now);
      if !done { send := Offer(epoch, ready, now); }
    }

    // In flight, not acknowledged, not dropped, and the client it went to is still there.
    ghost predicate Waits(hasClient: bool)
      reads `msgId, `clientGeneration, ack
    {
      (msgId, true) !in ack.log && (msgId, false) !in ack.log && hasClient && clientGeneration == ack.clientGeneration
    }

    // Cancel an obsolete step report, or hand the head to the SDK when it is due.
    method Offer(epoch: nat, ready: bool, now: nat) returns (send: bool)
      requires Valid() && hasHead && msgId == 0
      modifies `normalCount, `count, `hasHead, `msgId, `retryDue, `retryEpoch, `clientGeneration, `fates, `cancelled, `acts, `begin, ack, ack.bytes
      ensures Valid() && send == (msgId == -1) && (!send ==> msgId == 0)
      ensures if send then acts == old(acts) + [Handed(|fates|)] && begin == old(|acts|) && ack.log == [] else acts == old(acts)
      ensures fates == if old(head.kind == TASKCP && head.generation != taskcpGeneration)
                       then old(fates) + [Cancelled(taskcpGeneration)] else old(fates)
      ensures send <==> (!old(head.kind == TASKCP && head.generation != taskcpGeneration)
                         && ready && (old(retryEpoch) != epoch || now >= old(retryDue)))
      ensures send ==> hasHead && head == old(head)
    {
      if head.kind == TASKCP && head.generation != taskcpGeneration {
        CancelHead(now);
        return false;
      }
      if ready && retryEpoch != epoch {
        retryEpoch := epoch;
        retryDue := now;
      }
      if !ready || now < retryDue { return false; }
      StartSending();
      return true;
    }

    // Retire what was acknowledged, give up what was dropped, wait for the rest.
    method LookAtAck(hasClient: bool, now: nat) returns (done: bool)
      requires Valid() && msgId > 0
      modifies `normalCount, `count, `hasHead, `msgId, `retryDue, `fates, `acked, `retried, ack`capture, ack`msgId, ack`flags
      ensures Valid()
      ensures done <==> (old(msgId), true) in ack.log
                        || ((old(msgId), false) !in ack.log && hasClient && clientGeneration == ack.clientGeneration)
      ensures (old(msgId), true) in ack.log ==> msgId == 0 && fates == old(fates) + [Acked(old(msgId), begin, |acts|)]
      ensures (old(msgId), true) !in ack.log ==> hasHead && fates == old(fates) && msgId == if done then old(msgId) else 0
      ensures retryDue == if (old(msgId), true) in ack.log then now else if done then old(retryDue) else now + 5000
    {
      var published, deleted := ack.Read();
      if published {
        AckedHead(now);
        return true;
      }
      if deleted || !hasClient || clientGeneration != ack.clientGeneration {
        GiveUp(now);
        return false;
      }
      return true;
    }

    method AckedHead(now: nat)
      requires Valid() && msgId > 0 && (msgId, true) in ack.log
      modifies `normalCount, `count, `hasHead, `msgId, `retryDue, `fates, `acked, ack`capture, ack`msgId, ack`flags
      ensures Valid() && msgId == 0 && fates == old(fates) + [Acked(old(msgId), begin, |acts|)] && retryDue == now
    {
      acked := acked + 1;
      FlyingAcked(acts, |fates|, begin, msgId, ack.log, head);
      RetireHead(now, Acked(msgId, begin, |acts|));
    }

    // To be sent again.
    method GiveUp(now: nat)
      requires Valid() && msgId > 0
      modifies `msgId, `retryDue, `retried, ack`capture, ack`msgId, ack`flags
      ensures Valid() && msgId == 0 && retryDue == now + 5000
    {
      retried := retried + 1;
      msgId := 0;
      retryDue := now + EVENT_RETRY_MS;
      ack.Reset();
    }

    method CancelHead(now: nat)
      requires Valid() && hasHead && msgId == 0 && head.kind == TASKCP && head.generation != taskcpGeneration
      modifies `normalCount, `count, `hasHead, `msgId, `retryDue, `fates, `cancelled, ack`capture, ack`msgId, ack`flags
      ensures Valid() && msgId == 0 && fates == old(fates) + [Cancelled(taskcpGeneration)]
    {
      cancelled := cancelled + 1;
      assert accepted[|fates|] == Pending()[0];
      RetireHead(now, Cancelled(taskcpGeneration));
    }

    method TakeHead(now: nat)
      requires Valid() && !hasHead && queue != [] && msgId == 0
      modifies `queue, `hasHead, `head, `retryDue
      ensures Valid() && hasHead && old(Pending()) == Pending() && head == Pending()[0] && retryDue == now
    {
      ghost var before := Pending();
      head, queue, hasHead := queue[0], queue[1..], true;
      retryDue := now;
      assert Pending() == before;
    }

    method StartSending()
      requires Valid() && hasHead && msgId == 0
      modifies `clientGeneration, `msgId, `acts, `begin, ack, ack.bytes
      ensures Valid() && msgId == -1 && ack.log == [] && clientGeneration == ack.clientGeneration == old(ack.clientGeneration)
      ensures acts == old(acts) + [Handed(|fates|)] && begin == old(|acts|)
    {
      ack.Reset();
      ack.BeginClear();
      ack.BeginOn(ack.clientGeneration);
      clientGeneration := ack.clientGeneration;
      msgId := -1;
      Happened(Handed(|fates|));
      begin := |acts| - 1;
      assert acts[begin..] == [Handed(|fates|)] && AcksIn([Handed(|fates|)]) == [];
    }

    ghost method Happened(a: Act)
      requires Kept()
      modifies `acts
      ensures Kept() && acts == old(acts) + [a]
    {
      AccountAct(acts, a, accepted, fates, Pending(), taskcpGeneration);
      acts := acts + [a];
    }

    // The SDK took the head under an id, or refused it.
    method Sent(id: int, now: nat)
      requires Valid() && msgId == -1 && id <= ID_MAX
      modifies `msgId, `submitted, `retried, `retryDue, `acts, ack
      ensures Valid() && msgId == (if id > 0 then id else 0) && ack.log == old(ack.log)
      ensures acts == old(acts) + if id > 0 then [Given(|fates|, id)] else []
      ensures retryDue == if id > 0 then old(retryDue) else now + 5000
    {
      ack.Register(id);
      if id > 0 {
        FlyingOn(acts, Given(|fates|, id), |fates|, begin, -1, ack.log);
        Happened(Given(|fates|, id));
        assert acts[begin..][|acts| - begin - 1] == Given(|fates|, id);
      }
      msgId := if id > 0 then id else 0;
      if id > 0 {
        submitted := submitted + 1;
      } else {
        retried := retried + 1;
        retryDue := now + EVENT_RETRY_MS;
      }
    }

    // An acknowledgement from the SDK task, at any time between the others.
    method Callback(ours: bool, id: int, published: bool)
      requires Valid()
      modifies `acts, ack, ack.bytes
      ensures Valid() && unchanged(ack`generation, ack`clientGeneration)
      ensures if 0 < id <= ID_MAX && ours && ack.generation == ack.clientGeneration
              then ack.log == old(ack.log) + [(id, published)] && acts == old(acts) + [Ack(id, published)]
              else ack.log == old(ack.log) && acts == old(acts)
    {
      ack.Callback(ours, id, published);
      if 0 < id <= ID_MAX && ours && ack.generation == ack.clientGeneration {
        if msgId != 0 { FlyingOn(acts, Ack(id, published), |fates|, begin, msgId, old(ack.log)); }
        Happened(Ack(id, published));
      }
    }

    method NewClient()
      requires Valid()
      modifies ack
      ensures Valid() && ack.clientGeneration == old(ack.clientGeneration) + 1 && ack.log == old(ack.log)
    {
      ack.NewClient();
    }
  }
}
