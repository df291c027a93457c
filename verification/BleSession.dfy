// main/Communication/Ble_control/Ble_control.c and app_ble_process_auth: one word holds
// the generation of the connection and, in its lowest bit, whether it is encrypted. Other
// tasks may move to a new generation between any two steps.
module BleSession {
  import opened Options

  const BUFFER_MAX := 1200

  // What other tasks do between two steps: generations begun, link state seen next, and
  // whether a weak compare-and-exchange fails for no reason.
  datatype Between = Between(resets: nat, connected: bool, closing: bool, spurious: bool)

  function Id(word: nat): nat { word - word % 2 }

  function Encrypted(word: nat): bool { word % 2 == 1 }

  // A packet and how it was handled: did the cryptography work, did the reply go out?
  datatype Packet = Packet(session: nat, data: seq<int>, key: bool, sent: bool)

  predicate IsFirst(p: Packet) { |p.data| == 10 && p.data[0] == '*' as int && p.data[1] == '*' as int }

  predicate IsRefusal(p: Packet) { |p.data| == 7 && p.data[0] == '*' as int && p.data[1] == '*' as int && p.data[4] != 0 }

  predicate IsKey(p: Packet) { |p.data| == 146 && p.data[0] == 0 && p.data[1] == 0x86 }

  predicate IsResult(p: Packet) { |p.data| == 18 && p.data[0] == 0 && p.data[1] != 0x86 }

  predicate Answered(p: Packet) { p.key && p.sent }

  // Packet i is an answered first packet of this generation; since then only packets of
  // this generation came, none of which began anew or refused.
  predicate Begun(seen: seq<Packet>, id: nat, i: nat) {
    && i < |seen| && IsFirst(seen[i]) && Answered(seen[i])
    && (forall m :: i <= m < |seen| ==> seen[m].session == id)
    && (forall m :: i < m < |seen| ==> !IsFirst(seen[m]) && !IsRefusal(seen[m]))
  }

  // And packet j, after it, is an answered public key, the last one, with no result yet.
  predicate Keyed(seen: seq<Packet>, id: nat, i: nat, j: nat) {
    && Begun(seen, id, i) && i < j < |seen| && IsKey(seen[j]) && Answered(seen[j])
    && (forall m :: j < m < |seen| ==> !IsKey(seen[m]) && !IsResult(seen[m]))
  }

  // And packet k, after that, is the answered result.
  ghost predicate Shaken(seen: seq<Packet>, id: nat, k: nat) {
    && k < |seen| && IsResult(seen[k]) && Answered(seen[k]) && seen[k].session == id
    && exists i: nat, j: nat :: Keyed(seen[..k], id, i, j)
  }

  // The whole handshake was handled in this one generation.
  ghost predicate Handshaken(seen: seq<Packet>, id: nat) { exists k: nat :: Shaken(seen, id, k) }

  lemma {:induction false} StillHandshaken(seen: seq<Packet>, p: Packet, id: nat)
    requires Handshaken(seen, id)
    ensures Handshaken(seen + [p], id)
  {
    var k: nat :| Shaken(seen, id, k);
    assert (seen + [p])[..k] == seen[..k];
    assert Shaken(seen + [p], id, k);
  }

  lemma {:induction false} NowHandshaken(seen: seq<Packet>, p: Packet, id: nat, i: nat, j: nat)
    requires Keyed(seen, id, i, j) && IsResult(p) && Answered(p) && p.session == id
    ensures Handshaken(seen + [p], id)
  {
    assert (seen + [p])[..|seen|] == seen;
    assert Shaken(seen + [p], id, |seen|);
  }

  class Session {
    var word: nat
    var connected: bool
    var closing: bool
    var authSession: nat
    var started: bool
    var keyReady: bool
    var complete: bool
    ghost var seen: seq<Packet>  // every packet handled in a generation that was current
    ghost var firstAt: nat
    ghost var keyAt: nat

    // Encryption is on only after the whole handshake of that very generation.
    ghost predicate Valid()
      reads this
    {
      && (Encrypted(word) ==> Handshaken(seen, Id(word)) && authSession == Id(word) && complete)
      && (started ==> Begun(seen, authSession, firstAt))
      && (keyReady ==> started && !complete && Keyed(seen, authSession, firstAt, keyAt))
    }

    constructor ()
      ensures Valid() && word == 0 && seen == []
    {
      word, connected, closing, authSession := 0, false, true, 0;
      started, keyReady, complete := false, false, false;
      seen, firstAt, keyAt := [], 0, 0;
    }

    predicate IsCurrent(id: nat)
      reads `word, `connected, `closing
    {
      connected && !closing && id == Id(word)
    }

    // ble_session_reset: the loop ends with one exchange that goes through.
    method Reset(env: seq<Between>)
      modifies `word, `connected, `closing
      ensures Id(word) >= Id(old(word)) + 2 && !Encrypted(word) && (old(Valid()) ==> Valid())
    {
      var state := word;
      var i := 0;
      while i < |env| && (env[i].resets > 0 || env[i].spurious)
        invariant i <= |env| && state == word && Id(word) >= Id(old(word))
      {
        Others(env[i]);
        state := word;
        i := i + 1;
      }
      word := Id(state) + 2;
    }

    // Resets by other tasks; each begins the next generation in the clear.
    method Others(b: Between)
      modifies `word, `connected, `closing
      ensures word == if b.resets == 0 then old(word) else Id(old(word)) + 2 * b.resets
      ensures connected == b.connected && closing == b.closing
      ensures old(Valid()) ==> Valid()
    {
      if b.resets > 0 { word := Id(word) + 2 * b.resets; }
      connected, closing := b.connected, b.closing;
    }

    // ble_session_set_encrypted. It takes effect only on the generation it is meant for.
    method SetEncrypted(id: nat, on: bool, env: seq<Between>) returns (ok: bool)
      requires id % 2 == 0
      modifies `word, `connected, `closing
      ensures ok ==> word == id + (if on then 1 else 0)
      ensures !ok ==> word == old(word) || !Encrypted(word)
      ensures Id(word) >= Id(old(word)) && (ok ==> Id(old(word)) <= id)
      ensures env == [] ==> ok == old(IsCurrent(id)) && unchanged(`connected, `closing)
    {
      var state := word;
      var i := 0;
      while true
        invariant i <= |env|
        invariant word == old(word) || !Encrypted(word)
        invariant Id(old(word)) <= Id(state) <= Id(word)
        invariant env == [] ==> word == old(word) == state && unchanged(`connected, `closing)
        decreases |env| - i, if state == word then 0 else 1
      {
        if i < |env| {
          Others(env[i]);
          i := i + 1;
        }
        if !IsCurrent(id) || Id(state) != id { return false; }
        var spurious := false;
        if i < |env| {
          Others(env[i]);
          spurious := env[i].spurious;
          i := i + 1;
        }
        if word == state && !spurious {
          word := if on then Id(state) + 1 else Id(state);
          return true;
        }
        state := word;
      }
    }

    // The packet counts as handled.
    ghost method Record(p: Packet)
      requires Valid() && p.session == authSession
      requires started ==> !IsFirst(p) && !IsRefusal(p)
      requires keyReady ==> !IsKey(p) && !IsResult(p)
      modifies `seen
      ensures Valid() && seen == old(seen) + [p]
    {
      if Encrypted(word) { StillHandshaken(seen, p, Id(word)); }
      seen := seen + [p];
    }

    // The first packet starts over, in the clear.
    method FirstPacket(p: Packet, env: seq<Between>)
      requires Valid() && p.session % 2 == 0 && authSession == p.session && IsFirst(p)
      modifies this
      ensures Valid() && authSession == p.session && Id(word) >= Id(old(word))
      ensures !Encrypted(word) || word == old(word)
      ensures seen == old(seen) ==> started == old(started) && keyReady == old(keyReady) && complete == old(complete)
      ensures seen != old(seen) ==> seen == old(seen) + [p] && started == Answered(p) && !keyReady && !complete && !Encrypted(word)
      ensures env == [] && old(IsCurrent(p.session)) ==> seen == old(seen) + [p]
    {
      var ok := SetEncrypted(p.session, false, env);
      if !ok { return; }
      started, keyReady, complete := false, false, false;
      Record(p);
      if p.key && p.sent {
        started := true;
        firstAt := |seen| - 1;
      }
    }

    method KeyPacket(p: Packet)
      requires Valid() && authSession == p.session && IsKey(p)
      modifies `keyReady, `seen, `keyAt
      ensures Valid() && seen == old(seen) + [p]
      ensures keyReady == if started && !complete then Answered(p) else old(keyReady)
    {
      if started && !complete {
        keyReady := false;
        Record(p);
        if p.key && p.sent {
          keyReady := true;
          keyAt := |seen| - 1;
        }
      } else {
        Record(p);
      }
    }

    method ResultPacket(p: Packet, env: seq<Between>)
      requires Valid() && p.session % 2 == 0 && authSession == p.session && IsResult(p) && started && keyReady
      modifies this
      ensures Valid() && authSession == p.session && Id(word) >= Id(old(word))
      ensures seen == old(seen) + [p] && !keyReady && started
      ensures Encrypted(word) ==> word == p.session + 1 && Answered(p) && complete
      ensures env == [] && old(IsCurrent(p.session)) && Answered(p) ==> word == p.session + 1 && complete
    {
      keyReady := false;
      ghost var before := seen;
      Record(p);
      if p.key && p.sent {
        NowHandshaken(before, p, p.session, firstAt, keyAt);
        var ok := SetEncrypted(p.session, true, env);
        if ok { complete := true; }
      }
    }

    // app_ble_process_auth; true means that the packet belonged to the handshake. The bit
    // goes on only with the result that completes the handshake of this generation.
    method ProcessAuth(p: Packet, env: seq<Between>) returns (handled: bool)
      requires Valid() && p.session % 2 == 0
      modifies this
      ensures Valid() && Id(word) >= Id(old(word))
      ensures seen == old(seen) || seen == old(seen) + [p]
      ensures !old(Encrypted(word)) && Encrypted(word) ==>
                word == p.session + 1 && IsResult(p) && Answered(p) && Handshaken(seen, p.session) && seen == old(seen) + [p]
      ensures env == [] && old(IsCurrent(p.session)) && IsResult(p) && Answered(p) && old(authSession == p.session && keyReady) ==>
                Encrypted(word) && complete
      ensures env == [] && old(IsCurrent(p.session)) && IsFirst(p) ==> started == Answered(p) && authSession == p.session && !complete
      ensures old(IsCurrent(p.session)) && IsKey(p) && old(authSession == p.session && started && !complete) ==> keyReady == Answered(p)
    {
      if !IsCurrent(p.session) { return true; }
      if authSession != p.session {
        authSession := p.session;
        started, keyReady, complete := false, false, false;
      }
      if |p.data| < 2 {
        Record(p);
        return false;
      }
      if p.data[0] == '*' as int && p.data[1] == '*' as int {
        if |p.data| == 10 {
          FirstPacket(p, env);
        } else {
          if |p.data| == 7 && started && p.data[4] != 0 {
            started, keyReady := false, false;
          }
          Record(p);
        }
        return true;
      }
      if p.data[0] == 0 && p.data[1] == 0x86 {
        if |p.data| == 146 { KeyPacket(p); } else { Record(p); }
        return true;
      }
      if p.data[0] == 0 && |p.data| == 18 {
        if started && keyReady && !complete { ResultPacket(p, env); } else { Record(p); }
        return true;
      }
      Record(p);
      return false;
    }
  }

  // ---- Collecting the notifications of one message ----

  function Joined(chunks: seq<(nat, seq<int>)>): seq<int> {
    if chunks == [] then [] else Joined(chunks[..|chunks| - 1]) + chunks[|chunks| - 1].1
  }

  predicate AllOf(chunks: seq<(nat, seq<int>)>, session: nat) {
    forall i :: 0 <= i < |chunks| ==> chunks[i].0 == session
  }

  datatype Forward = Forward(session: nat, data: seq<int>)

  class Receiver {
    const data: array<int>
    var length: nat
    var session: nat
    ghost var chunks: seq<(nat, seq<int>)>  // what the buffer is made of

    ghost predicate Valid()
      reads this, data
    {
      && data.Length == BUFFER_MAX && length < BUFFER_MAX
      && data[..length] == Joined(chunks) && AllOf(chunks, session)
    }

    constructor ()
      ensures Valid() && fresh(data) && chunks == []
    {
      data := new int[BUFFER_MAX](_ => 0);
      length, session := 0, 0;
      chunks := [];
    }

    method Drop()
      requires Valid()
      modifies `length, `chunks
      ensures Valid() && chunks == [] && length == 0
    {
      length := 0;
      chunks := [];
    }

    // A notification arrived. False: the buffer is full and must be passed on at once.
    method Notify(from: nat, bytes: seq<int>, fromCurrent: bool, ownCurrent: bool) returns (took: bool)
      requires Valid()
      modifies this, data
      ensures Valid()
      ensures !fromCurrent ==> took && session == old(session) && chunks == if ownCurrent then old(chunks) else []
      ensures fromCurrent ==>
        && session == from
        && var before := if old(session) == from then old(chunks) else [];
           && took == (|Joined(before)| + |bytes| < BUFFER_MAX)
           && chunks == if took then before + [(from, bytes)] else before
    {
      took := true;
      if !fromCurrent {
        if !ownCurrent { Drop(); }
        return;
      }
      if session != from { Drop(); }
      session := from;
      if length + |bytes| < BUFFER_MAX {
        Append(bytes);
      } else {
        took := false;
      }
    }

    method Append(bytes: seq<int>)
      requires Valid() && length + |bytes| < BUFFER_MAX
      modifies `length, `chunks, data
      ensures Valid() && chunks == old(chunks) + [(session, bytes)]
    {
      var at := length;
      forall i | 0 <= i < |bytes| { data[at + i] := bytes[i]; }
      length := length + |bytes|;
      assert data[..length] == old(data[..length]) + bytes;
      chunks := chunks + [(session, bytes)];
      assert chunks[..|chunks| - 1] == old(chunks);
    }

    // No more came in time: pass on what there is. It is made of the notifications of
    // one generation, whole and in order.
    method Timeout(ownCurrent: bool, memory: bool) returns (out: Option<Forward>)
      requires Valid()
      modifies `length, `chunks
      ensures Valid() && chunks == []
      ensures out.Some? <==> old(length) > 0 && ownCurrent && memory
      ensures out.Some? ==> out.value.session == session && out.value.data == Joined(old(chunks)) && AllOf(old(chunks), session)
    {
      out := if length > 0 && ownCurrent && memory then Some(Forward(session, data[..length])) else None;
      Drop();
    }
  }
}
