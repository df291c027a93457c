// main/APP/MQTT/mqtt_app.c: acknowledgements that arrive before the call that caused them
// has returned its message id. Bytes that pack several flag sets stand for a plain map
// from message id to flags.
module MqttAck {
  import opened MqttAckBits

  const ID_MAX := 65535

  const EVENT_ACK_PUBLISHED: bv8 := 1
  const EVENT_ACK_DELETED: bv8 := 2

  // What a list of acknowledgements says about one message.
  function Gathered(acks: seq<(int, bv8)>, id: int): bv8 {
    if acks == [] then 0
    else
      var last := acks[|acks| - 1];
      if last.0 == id then Gathered(acks[..|acks| - 1], id) | last.1 else Gathered(acks[..|acks| - 1], id)
  }

  lemma {:induction false} GatheredAppend(acks: seq<(int, bv8)>, x: int, f: bv8, id: int)
    ensures Gathered(acks + [(x, f)], id) == if x == id then Gathered(acks, id) | f else Gathered(acks, id)
  {
    assert (acks + [(x, f)])[..|acks|] == acks;
  }

  predicate Carries(x: (int, bv8), id: int, m: bv8) { x.0 == id && x.1 & m != 0 }

  // A flag is on exactly when some acknowledgement of that message carried it.
  lemma {:induction false} GatheredMeans(acks: seq<(int, bv8)>, id: int, m: bv8)
    ensures Gathered(acks, id) & m != 0 <==> exists k :: 0 <= k < |acks| && Carries(acks[k], id, m)
  {
    if acks == [] {
      NothingMeets(m);
    } else {
      var n := |acks| - 1;
      GatheredMeans(acks[..n], id, m);
      OrCounts(Gathered(acks[..n], id), Gathered(acks, id), acks[n].1, m, acks[n].0 == id);
      assert Carries(acks[n], id, m) ==> exists k :: 0 <= k < |acks| && Carries(acks[k], id, m);
      assert (exists k :: 0 <= k < n && Carries(acks[..n][k], id, m)) <==> (exists k :: 0 <= k < n && Carries(acks[k], id, m));
    }
  }

  predicate Nibble(f: bv8) { f & 0xF0 == 0 }

  predicate Pair(f: bv8) { f & 0xFC == 0 }

  function At4(bytes: seq<bv8>, id: int): bv8
    requires 0 < id <= ID_MAX && |bytes| == (ID_MAX + 1) / 2
  {
    Get4(bytes[id / 2], id % 2)
  }

  function At2(bytes: seq<bv8>, id: int): bv8
    requires 0 < id <= ID_MAX && |bytes| == (ID_MAX + 1) / 4
  {
    Get2(bytes[id / 4], id % 4)
  }

  // The packed bytes as the map they stand for.
  ghost predicate Map4(bytes: seq<bv8>, acks: seq<(int, bv8)>) {
    |bytes| == (ID_MAX + 1) / 2 && forall id {:trigger Gathered(acks, id)} :: 0 < id <= ID_MAX ==> At4(bytes, id) == Gathered(acks, id)
  }

  // The two flags of an event as its acknowledgements (id, published?) give them.
  ghost function Flags(log: seq<(int, bool)>, id: int): bv8 { Both((id, true) in log, (id, false) in log) }

  ghost predicate Map2(bytes: seq<bv8>, log: seq<(int, bool)>) {
    |bytes| == (ID_MAX + 1) / 4 && forall id {:trigger Flags(log, id)} :: 0 < id <= ID_MAX ==> At2(bytes, id) == Flags(log, id)
  }

  lemma {:induction false} Place4(bytes: seq<bv8>, x: int, f: bv8, id: int)
    requires 0 < id <= ID_MAX && 0 < x <= ID_MAX && |bytes| == (ID_MAX + 1) / 2 && Nibble(f)
    ensures At4(bytes[x / 2 := Put4(bytes[x / 2], x % 2, f)], id) == if id == x then At4(bytes, id) | f else At4(bytes, id)
  {
    Packed4(bytes[x / 2], x % 2, id % 2, f);
  }

  lemma {:induction false} Place2(bytes: seq<bv8>, x: int, f: bv8, id: int)
    requires 0 < id <= ID_MAX && 0 < x <= ID_MAX && |bytes| == (ID_MAX + 1) / 4 && Pair(f)
    ensures At2(bytes[x / 4 := Put2(bytes[x / 4], x % 4, f)], id) == if id == x then At2(bytes, id) | f else At2(bytes, id)
  {
    Packed2(bytes[x / 4], x % 4, id % 4, f);
  }

  lemma {:induction false} Capture4(bytes: seq<bv8>, acks: seq<(int, bv8)>, x: int, f: bv8)
    requires Map4(bytes, acks) && Nibble(f)
    ensures Map4(if 0 < x <= ID_MAX then bytes[x / 2 := Put4(bytes[x / 2], x % 2, f)] else bytes, acks + [(x, f)])
  {
    var after := if 0 < x <= ID_MAX then bytes[x / 2 := Put4(bytes[x / 2], x % 2, f)] else bytes;
    forall id | 0 < id <= ID_MAX ensures At4(after, id) == Gathered(acks + [(x, f)], id) {
      GatheredAppend(acks, x, f, id);
      if 0 < x <= ID_MAX { Place4(bytes, x, f, id); }
    }
  }

  lemma {:induction false} FlagsAppend(log: seq<(int, bool)>, x: int, published: bool, id: int)
    ensures Flags(log + [(x, published)], id) ==
            if x == id then Flags(log, id) | Both(published, !published) else Flags(log, id)
  {
    BothOr((id, true) in log, (id, false) in log, published, !published);
  }

  lemma {:induction false} Capture2(bytes: seq<bv8>, log: seq<(int, bool)>, x: int, published: bool)
    requires Map2(bytes, log) && 0 < x <= ID_MAX
    ensures Map2(bytes[x / 4 := Put2(bytes[x / 4], x % 4, Both(published, !published))], log + [(x, published)])
  {
    BothRead(published, !published);
    forall id | 0 < id <= ID_MAX
      ensures At2(bytes[x / 4 := Put2(bytes[x / 4], x % 4, Both(published, !published))], id) == Flags(log + [(x, published)], id) {
      FlagsAppend(log, x, published, id);
      Place2(bytes, x, Both(published, !published), id);
    }
  }

  lemma {:induction false} Blank4(bytes: seq<bv8>)
    requires |bytes| == (ID_MAX + 1) / 2 && forall i :: 0 <= i < |bytes| ==> bytes[i] == 0
    ensures Map4(bytes, [])
  {
    Empty4();
  }

  lemma {:induction false} Blank2(bytes: seq<bv8>)
    requires |bytes| == (ID_MAX + 1) / 4 && forall i :: 0 <= i < |bytes| ==> bytes[i] == 0
    ensures Map2(bytes, [])
  {
    Empty2();
  }

  // Acknowledgements of the connection set-up: SUBSCRIBE and the first publication.
  class ServiceAck {
    const bytes: array<bv8>
    var epoch: nat
    var capture: bool
    var pendingId: int
    var flags: bv8
    var connectionEpoch: nat
    var linked: bool     // the phase is CONNECTED
    var connected: bool  // and the connection may be used
    ghost var acks: seq<(int, bv8)>  // those that counted since the last begin took effect
    ghost var blank: bool            // cleared and not yet capturing
    ghost var untouched: bool        // connected, and nothing begun or registered since

    ghost predicate Valid()
      reads this, bytes
    {
      && bytes.Length == (ID_MAX + 1) / 2
      && (capture ==> Map4(bytes[..], acks) && pendingId == 0)
      && (blank ==> !capture && forall i :: 0 <= i < bytes.Length ==> bytes[i] == 0)
      && (0 < pendingId <= ID_MAX ==> flags == Gathered(acks, pendingId))
      && (untouched ==> !capture && pendingId == 0 && flags == Gathered(acks, 0))
    }

    constructor ()
      ensures Valid() && fresh(bytes) && !capture && !connected && acks == []
    {
      bytes := new bv8[(ID_MAX + 1) / 2](_ => 0);
      epoch, capture, pendingId, flags, connectionEpoch, linked, connected := 0, false, 0, 0, 0, false, false;
      acks, blank, untouched := [], false, false;
    }

    // A callback of the SDK task, at any time.
    method Callback(ours: bool, id: int, f: bv8)
      requires Valid() && Nibble(f)
      modifies `flags, `acks, bytes
      ensures Valid()
      ensures acks == if ours && linked && epoch == connectionEpoch then old(acks) + [(id, f)] else old(acks)
    {
      if !(ours && linked && epoch == connectionEpoch) { return; }
      if capture {
        Capture4(bytes[..], acks, id, f);
        ghost var before := bytes[..];
        if 0 < id <= ID_MAX { bytes[id / 2] := Put4(bytes[id / 2], id % 2, f); }
        assert bytes[..] == if 0 < id <= ID_MAX then before[id / 2 := Put4(before[id / 2], id % 2, f)] else before;
      }
      GatheredAppend(acks, id, f, pendingId);
      if id == pendingId { flags := flags | f; }
      acks := acks + [(id, f)];
    }

    // The three steps of a begin; callbacks may come in between.
    method BeginOff()
      requires Valid()
      modifies `capture, `pendingId, `untouched
      ensures Valid() && !capture && pendingId == 0
    {
      capture, pendingId, untouched := false, 0, false;
    }

    method BeginClear()
      requires Valid() && !capture
      modifies `blank, bytes
      ensures Valid() && blank
    {
      forall i | 0 <= i < bytes.Length { bytes[i] := 0; }
      blank := true;
    }

    method BeginOn(now: nat) returns (current: bool)
      requires Valid() && blank && pendingId == 0
      modifies `epoch, `flags, `capture, `acks, `blank, `untouched
      ensures Valid() && current == (now == connectionEpoch && connected)
      ensures current ==> capture && epoch == now && acks == []
      ensures !current ==> !capture && acks == old(acks)
    {
      current := now == connectionEpoch && connected;
      if current {
        epoch, flags, capture, blank, acks, untouched := now, 0, true, false, [], false;
        Blank4(bytes[..]);
      }
    }

    // The SDK call has returned. No early acknowledgement is lost: what is known about
    // the message is everything that arrived for it since the begin.
    method Register(now: nat, id: int)
      requires Valid() && (now == connectionEpoch && epoch == now ==> capture)
      modifies `flags, `pendingId, `capture, `untouched
      ensures Valid()
      ensures now == connectionEpoch && epoch == now && 0 < id <= ID_MAX ==> pendingId == id && flags == Gathered(acks, id)
      ensures now == connectionEpoch && epoch == now && id <= 0 ==> pendingId == 0 && flags == 0
      ensures !(now == connectionEpoch && epoch == now) ==> unchanged(this)
    {
      if now == connectionEpoch && epoch == now {
        flags := if 0 < id <= ID_MAX then Get4(bytes[id / 2], id % 2) else 0;
        pendingId := if id > 0 then id else 0;
        capture, untouched := false, false;
        if 0 < id <= ID_MAX { assert At4(bytes[..], id) == Gathered(acks, id); }
      }
    }

    // Nothing of an earlier connection shows: before the first begin only a callback that
    // names no message could have set a flag.
    method Result(now: nat) returns (r: bv8)
      requires Valid()
      ensures now == connectionEpoch && 0 < pendingId <= ID_MAX ==> r == Gathered(acks, pendingId)
      ensures now == connectionEpoch && untouched ==> r == Gathered(acks, 0)
      ensures now != connectionEpoch ==> r == 0
    {
      r := if now == connectionEpoch then flags else 0;
    }

    // mqtt_connected of our client; a stale connection stays unused.
    method OnConnected(stale: bool)
      requires Valid()
      modifies `linked, `connected, `connectionEpoch, `epoch, `capture, `pendingId, `flags, `acks, `untouched
      ensures Valid() && linked
      ensures !stale ==> connected && epoch == connectionEpoch == old(connectionEpoch) + 1 && untouched && acks == [] && flags == 0
      ensures stale ==> unchanged(`connected, `connectionEpoch, `epoch, `capture, `pendingId, `flags, `acks)
    {
      linked := true;
      if !stale {
        connected, connectionEpoch := true, connectionEpoch + 1;
        epoch, capture, pendingId, flags := connectionEpoch, false, 0, 0;
        acks, untouched := [], true;
      }
    }

    // mqtt_disconnected, and the beginning of a stop.
    method OnDisconnected()
      requires Valid()
      modifies `linked, `connected, `connectionEpoch, `capture, `pendingId, `untouched
      ensures Valid() && !linked && !connected && connectionEpoch == old(connectionEpoch) + 1 && !capture && pendingId == 0
    {
      connectionEpoch, capture, pendingId, linked, connected := connectionEpoch + 1, false, 0, false, false;
      untouched := false;
    }

    // A disconnect has been asked for: no new begin until the next connection.
    method OnRequest()
      requires Valid()
      modifies `connected
      ensures Valid() && !connected
    {
      connected := false;
    }
  }

  // Acknowledgements of the event at the head of the cache. These survive an ordinary
  // reconnect; a new client starts a new generation.
  class EventAck {
    const bytes: array<bv8>
    var generation: nat
    var clientGeneration: nat
    var capture: bool
    var msgId: int
    var flags: bv8
    ghost var log: seq<(int, bool)>
    ghost var blank: bool

    ghost predicate Valid()
      reads this, bytes
    {
      && bytes.Length == (ID_MAX + 1) / 4
      && (capture ==> Map2(bytes[..], log) && msgId == 0)
      && (blank ==> !capture && forall i :: 0 <= i < bytes.Length ==> bytes[i] == 0)
      && (0 < msgId <= ID_MAX ==> flags == Flags(log, msgId))
    }

    constructor ()
      ensures Valid() && fresh(bytes) && !capture && msgId == 0 && log == [] && generation == clientGeneration == 0
    {
      bytes := new bv8[(ID_MAX + 1) / 4](_ => 0);
      generation, clientGeneration, capture, msgId, flags := 0, 0, false, 0, 0;
      log, blank := [], false;
    }

    // A callback of the SDK task, at any time.
    method Callback(ours: bool, id: int, published: bool)
      requires Valid()
      modifies `flags, `log, bytes
      ensures Valid()
      ensures log == if 0 < id <= ID_MAX && ours && generation == clientGeneration then old(log) + [(id, published)] else old(log)
    {
      if !(0 < id <= ID_MAX && ours && generation == clientGeneration) { return; }
      var f := if published then EVENT_ACK_PUBLISHED else EVENT_ACK_DELETED;
      AsBoth(published, f);
      if capture {
        ghost var before := bytes[..];
        Capture2(before, log, id, published);
        bytes[id / 4] := Put2(bytes[id / 4], id % 4, f);
        assert bytes[..] == before[id / 4 := Put2(before[id / 4], id % 4, f)];
      }
      FlagsAppend(log, id, published, msgId);
      if id == msgId { flags := flags | f; }
      log := log + [(id, published)];
    }

    method Reset()
      requires Valid()
      modifies `capture, `msgId, `flags
      ensures Valid() && !capture && msgId == 0
    {
      capture, msgId, flags := false, 0, 0;
    }

    method BeginClear()
      requires Valid() && !capture
      modifies `blank, bytes
      ensures Valid() && blank
    {
      forall i | 0 <= i < bytes.Length { bytes[i] := 0; }
      blank := true;
    }

    method BeginOn(now: nat)
      requires Valid() && blank && msgId == 0
      modifies `generation, `capture, `log, `blank
      ensures Valid() && capture && generation == now && log == []
    {
      generation, capture, blank, log := now, true, false, [];
      Blank2(bytes[..]);
    }

    // No early acknowledgement is lost.
    method Register(id: int)
      requires Valid() && capture
      modifies `capture, `msgId, `flags
      ensures Valid() && !capture && msgId == (if id > 0 then id else 0)
      ensures 0 < id <= ID_MAX ==> flags == Flags(log, id)
    {
      capture := false;
      msgId := if id > 0 then id else 0;
      flags := if 0 < id <= ID_MAX then Get2(bytes[id / 4], id % 4) else 0;
      if 0 < id <= ID_MAX { assert At2(bytes[..], id) == Flags(log, id); }
    }

    method Read() returns (published: bool, deleted: bool)
      requires Valid()
      ensures 0 < msgId <= ID_MAX ==> published == ((msgId, true) in log) && deleted == ((msgId, false) in log)
    {
      BothRead((msgId, true) in log, (msgId, false) in log);
      published, deleted := flags & EVENT_ACK_PUBLISHED != 0, flags & EVENT_ACK_DELETED != 0;
    }

    // The client was rebuilt.
    method NewClient()
      requires Valid()
      modifies `clientGeneration
      ensures Valid() && clientGeneration == old(clientGeneration) + 1
    {
      clientGeneration := clientGeneration + 1;
    }
  }

  lemma AsBoth(published: bool, f: bv8)
    requires f == if published then EVENT_ACK_PUBLISHED else EVENT_ACK_DELETED
    ensures f == Both(published, !published)
  {}
}
