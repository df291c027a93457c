// The session table as the source keeps it: 22 slots written in place, every method a
// section run under the table's lock.
module GapTable {
  import opened GapModel
  import opened Options

  // What the database said about a session to be resumed.
  datatype Stored = NoMemory | Failed | NotFound | Found(id: int)

  class AgingGap {
    const slots: array<Slot>
    var nextToken: nat
    var current: nat
    var running: bool
    var trigger: nat
    var ready: bool
    var work: Work

    ghost function Table(): Core
      reads this, slots
    {
      Core(slots[..], nextToken, current, running, trigger, ready)
    }

    constructor ()
      ensures slots.Length == GAP_SESSION_SLOTS && fresh(slots)
      ensures Table() == Core(seq(GAP_SESSION_SLOTS, _ => FREE), 0, 0, false, 0, false) && work == Work(0, 0, [], 0, 0)
    {
      slots := new Slot[GAP_SESSION_SLOTS](_ => FREE);
      nextToken, current, running, trigger, ready := 0, 0, false, 0, false;
      work := Work(0, 0, [], 0, 0);
      new;
      assert slots[..] == seq(GAP_SESSION_SLOTS, _ => FREE);
    }

    method FindSlot(token: nat) returns (i: nat)
      ensures i == Find(slots[..], token)
    {
      i := 0;
      while i < slots.Length && !(slots[i].used && slots[i].token == token)
        invariant i <= slots.Length && forall j :: 0 <= j < i ==> !(slots[j].used && slots[j].token == token)
      {
        i := i + 1;
      }
    }

    // Join the intent of the same session, become one, or be dropped.
    method FinalizeSlot(i: nat)
      requires i < slots.Length
      modifies slots
      ensures slots[..] == Finalize(old(slots[..]), i)
    {
      var s := slots[i];
      if !Finished(s) { return; }
      if s.persisted == 0 || s.lastId < 0 || s.rid == "" {
        slots[i] := s.(used := false);
        return;
      }
      var pending := 0;
      ghost var all := slots[..];
      assert all[0..] == all;
      var m := 0;
      while m < slots.Length && !(slots[m].used && slots[m].intent && SameKey(slots[m], s))
        invariant m <= slots.Length && pending + Pending(all[m..]) == Pending(all)
        invariant forall j :: 0 <= j < m ==> !(all[j].used && all[j].intent && SameKey(all[j], s))
      {
        if slots[m].used && slots[m].intent { pending := pending + 1; }
        assert all[m..][1..] == all[m + 1..];
        m := m + 1;
      }
      assert m == SameIntent(all, s);
      if m < slots.Length {
        slots[m] := Merged(slots[m], s);
        slots[i] := s.(used := false);
      } else if pending >= GAP_PENDING_MAX {
        slots[i] := s.(used := false);
      } else {
        slots[i] := s.(intent := true, revision := s.revision + 1, round := 0);
      }
    }

    // The locked first part of aging_gap_session_begin.
    method Begin(pn: string, rid: string) returns (ok: bool)
      modifies this, slots
      ensures ok == CanBegin(old(Table()), pn, rid) && work == old(work)
      ensures ok ==> running && current == nextToken == old(nextToken) + 1
      ensures ok <==> 0 < |pn| < 64 && |rid| <= 28 && old(current) == 0 && exists k :: 0 <= k < slots.Length && !old(slots[k].used)
      ensures Table() == if ok then GapModel.Begin(old(Table()), pn, rid) else old(Table())
    {
      if !BeginArgs(pn, rid) || current != 0 { return false; }
      var i := 0;
      while i < slots.Length && slots[i].used
        invariant i <= slots.Length && forall j :: 0 <= j < i ==> slots[j].used
      {
        i := i + 1;
      }
      assert i == FirstFree(slots[..]);
      if i == slots.Length { return false; }
      nextToken := nextToken + 1;
      slots[i] := NewSlot(nextToken, pn, rid);
      current := nextToken;
      running := true;
      return true;
    }

    // The whole of it when nothing runs in between.
    method SessionBegin(pn: string, rid: string, resume: bool, stored: Stored) returns (ok: bool)
      requires forall i :: 0 <= i < slots.Length && slots[i].used ==> slots[i].token <= nextToken
      modifies this, slots
      ensures var c := old(Table());
        if !CanBegin(c, pn, rid) then !ok && Table() == c
        else
          var b := GapModel.Begin(c, pn, rid);
          if !resume || rid == "" || stored.NotFound? then ok && Table() == b
          else if stored.Found? then ok && Table() == GapModel.Resume(b, b.current, stored.id)
          else !ok && Table() == GapModel.Idle(GapModel.Close(b))
    {
      ok := Begin(pn, rid);
      if !ok || !resume || rid == "" { return; }
      if stored.NoMemory? || stored.Failed? {
        Close();
        Idle();
        return false;
      }
      if stored.Found? {
        ghost var i := FirstFree(old(slots[..]));
        assert slots[..][i] == NewSlot(current, pn, rid) && Find(slots[..], current) == i;
        ok := Resume(current, stored.id);
      }
    }

    method Resume(token: nat, stored: int) returns (ok: bool)
      modifies slots
      ensures Table() == GapModel.Resume(old(Table()), token, stored)
      ensures var i := Find(old(slots[..]), token); ok == (i < slots.Length && !old(slots[..])[i].closed && current == token)
      ensures var i := Find(old(slots[..]), token);
        ok ==> slots[i].lastId == stored && slots[i].persisted == 1 && (stored < 0x7FFF_FFFF ==> slots[i].nextId == stored + 1)
    {
      var i := FindSlot(token);
      if i == slots.Length || slots[i].closed || current != token { return false; }
      slots[i] := slots[i].(lastId := stored, nextId := if stored < INT_MAX then stored + 1 else INT_MAX, persisted := 1);
      return true;
    }

    method Close()
      modifies `current, slots
      ensures Table() == GapModel.Close(old(Table())) && current == 0
    {
      var i := FindSlot(current);
      current := 0;
      if i == slots.Length { return; }
      slots[i] := slots[i].(closed := true);
      FinalizeSlot(i);
    }

    method Idle()
      modifies `running, `trigger
      ensures Table() == GapModel.Idle(old(Table()))
      ensures !running && trigger == old(trigger) + if old(running) then 1 else 0
    {
      if running {
        running := false;
        trigger := trigger + 1;
      }
    }

    method Ready(now: bool)
      modifies `ready, `trigger
      ensures Table() == MqttReady(old(Table()), now)
      ensures ready == now && trigger == old(trigger) + if now && !old(ready) then 1 else 0
    {
      var previous := ready;
      ready := now;
      if now && !previous { trigger := trigger + 1; }
    }

    // The queue takes the packet if it has room within the bounded wait.
    method SampleSubmit(token: nat, queued: nat) returns (accepted: bool)
      modifies slots
      ensures accepted == Accepts(old(Table()), token, queued)
      ensures var i := Find(old(slots[..]), token);
        && (accepted <==> i < slots.Length && !old(slots[..])[i].closed && queued < 3)
        && (accepted ==> slots[i] == old(slots[..])[i].(accepted := old(slots[..])[i].accepted + 1))
      ensures Table() == if accepted then GapModel.Submit(old(Table()), token) else old(Table())
    {
      var i := FindSlot(token);
      accepted := i < slots.Length && !slots[i].closed && queued < QUEUE_LENGTH;
      if accepted { slots[i] := slots[i].(accepted := slots[i].accepted + 1); }
    }

    method SampleNextId(token: nat) returns (id: int)
      modifies slots
      ensures id == GapModel.NextId(old(Table()), token) && Table() == TakeId(old(Table()), token)
      ensures var i := Find(old(slots[..]), token);
        if i < slots.Length && old(slots[..])[i].processed < old(slots[..])[i].accepted && old(slots[..])[i].nextId < 0x7FFF_FFFF
        then id == slots[i].lastId == old(slots[..])[i].nextId == slots[i].nextId - 1
        else id == -1 && slots[..] == old(slots[..])
    {
      var i := FindSlot(token);
      id := -1;
      if i < slots.Length && slots[i].processed < slots[i].accepted && slots[i].nextId < INT_MAX {
        id := slots[i].nextId;
        slots[i] := slots[i].(nextId := id + 1, lastId := id);
      }
    }

    method SampleDone(token: nat, persisted: bool)
      modifies slots
      ensures Table() == GapModel.Done(old(Table()), token, persisted)
    {
      var i := FindSlot(token);
      if i == slots.Length || slots[i].processed >= slots[i].accepted { return; }
      slots[i] := Processed(slots[i], persisted);
      FinalizeSlot(i);
    }

    // ---- The locked sections of a poll ----

    // An intent with rounds left.
    predicate Runs(s: Slot) { s.used && s.intent && s.round <= 3 }

    // The oldest intent with rounds left is chosen, if it is due.
    predicate Picks(slots: seq<Slot>, now: nat, chosen: Option<Slot>) {
      if chosen == None then
        forall k :: 0 <= k < |slots| && Runs(slots[k]) && slots[k].due <= now ==>
          exists j :: 0 <= j < |slots| && Runs(slots[j]) && slots[j].token <= slots[k].token && now < slots[j].due
      else
        && chosen.value in slots && Runs(chosen.value) && chosen.value.due <= now
        && forall j :: 0 <= j < |slots| && Runs(slots[j]) ==> chosen.value.token <= slots[j].token
    }

    lemma {:induction false} OldestPicks(slots: seq<Slot>, now: nat)
      ensures var i := Oldest(slots, |slots|); Picks(slots, now, if i == |slots| || now < slots[i].due then None else Some(slots[i]))
    {
      var i := Oldest(slots, |slots|);
      assert forall k :: 0 <= k < |slots| ==> (Runs(slots[k]) <==> Eligible(slots[k]));
    }

    // Start rounds where due and pick the oldest intent that has rounds left.
    method PollStart(connected: bool, now: nat) returns (chosen: Option<Slot>)
      modifies slots, `work
      ensures !ready || !connected || running ==> chosen == None && Table() == old(Table()) && work == old(work)
      ensures ready && connected && !running ==>
        var all := RefreshAll(old(slots[..]), trigger, now);
        var i := Oldest(all, |all|);
        && Table() == old(Table()).(slots := all)
        && chosen == (if i == |all| || now < all[i].due then None else Some(all[i]))
        && work == (if chosen.Some? then Prepared(old(work), chosen.value) else old(work))
      ensures chosen.Some? || (ready && connected && !running) ==> Picks(slots[..], now, chosen)
      ensures chosen.Some? ==> work.token == chosen.value.token && work.revision == chosen.value.revision
      ensures chosen.Some? && old(work).token == chosen.value.token && old(work).revision == chosen.value.revision && chosen.value.phase != QUERY ==>
        work == old(work)
      ensures chosen.Some? && !(old(work).token == chosen.value.token && old(work).revision == chosen.value.revision && chosen.value.phase != QUERY) ==>
        work.ids == [] && work.index == 0 && work.missing == 0
    {
      if !ready || !connected || running { return None; }
      var best := RefreshSlots(now);
      OldestPicks(slots[..], now);
      assert slots[..] == RefreshAll(old(slots[..]), trigger, now);
      if best == slots.Length || now < slots[best].due { return None; }
      work := Prepared(work, slots[best]);
      return Some(slots[best]);
    }

    method RefreshSlots(now: nat) returns (best: nat)
      modifies slots
      ensures forall j :: 0 <= j < slots.Length ==> slots[j] == Refresh(old(slots[j]), trigger, now)
      ensures best == Oldest(slots[..], slots.Length)
    {
      best := slots.Length;
      for i := 0 to slots.Length
        invariant forall j :: 0 <= j < slots.Length ==> slots[j] == if j < i then Refresh(old(slots[j]), trigger, now) else old(slots[j])
        invariant best == Oldest(slots[..], i)
      {
        ghost var was := slots[..];
        slots[i] := Refresh(slots[i], trigger, now);
        OldestNext(was, slots[..], i);
        if Eligible(slots[i]) && (best == slots.Length || slots[i].token < slots[best].token) { best := i; }
      }
    }

    lemma {:induction false} OldestNext(a: seq<Slot>, b: seq<Slot>, i: nat)
      requires i < |a| == |b| && b == a[i := b[i]]
      ensures var best := Oldest(a, i);
        Oldest(b, i + 1) == if Eligible(b[i]) && (best == |b| || b[i].token < b[best].token) then i else best
    {
      OldestSame(a, b, i);
    }

    lemma {:induction false} OldestSame(a: seq<Slot>, b: seq<Slot>, n: nat)
      requires n <= |a| == |b| && forall j :: 0 <= j < n ==> a[j] == b[j]
      ensures Oldest(a, n) == Oldest(b, n)
    {
      if n > 0 { OldestSame(a, b, n - 1); }
    }

    method MayRun(snap: Slot, connected: bool) returns (ok: bool)
      ensures ok == CanRun(Table(), snap, connected)
      ensures var i := Find(slots[..], snap.token);
        ok <==> ready && connected && !running && i < slots.Length && slots[i].intent && slots[i].revision == snap.revision && slots[i].trigger == trigger
    {
      var i := FindSlot(snap.token);
      ok := ready && connected && !running && i < slots.Length && slots[i].intent && slots[i].revision == snap.revision
            && slots[i].trigger == trigger;
    }

    method StillThere(snap: Slot) returns (i: nat)
      ensures i == Still(slots[..], snap)
      ensures var j := Find(slots[..], snap.token);
        i == if j < slots.Length && slots[j].revision == snap.revision then j else slots.Length
    {
      i := FindSlot(snap.token);
      if i < slots.Length && slots[i].revision != snap.revision { i := slots.Length; }
    }

    // One round on, to be asked about again after ten seconds the first time, thirty later.
    function Later(s: Slot, now: nat): Slot {
      s.(round := s.round + 1, phase := QUERY, due := if s.round == 1 then now + 10000 else now + 30000)
    }

    method RetryLater(snap: Slot, now: nat)
      modifies slots
      ensures Table() == RetryOf(old(Table()), snap, now)
      ensures var i := Find(old(slots[..]), snap.token);
        if i < slots.Length && old(slots[..])[i].revision == snap.revision
        then slots[..] == old(slots[..])[i := Later(old(slots[..])[i], now)]
        else slots[..] == old(slots[..])
    {
      var i := StillThere(snap);
      if i < slots.Length { slots[i] := Retry(slots[i], now); }
    }

    // What an answer makes of the slots and of the list to be sent, field by field.
    predicate AnswerTaken(slots: seq<Slot>, work: Work, slots': seq<Slot>, work': Work, running: bool,
                          snap: Slot, answer: Option<seq<int>>, now: nat) {
      var i := Find(slots, snap.token);
      if i == |slots| || slots[i].revision != snap.revision || running then slots' == slots && work' == work
      else
        var s := slots[i];
        if answer == None then slots' == slots[i := Later(s, now)] && work' == work
        else if answer.value == [] then slots' == slots[i := s.(used := false)] && work'.ids == []
        else if snap.phase == VERIFY && s.round >= 3 then slots' == slots[i := Later(s, now)] && work' == work
        else
          && work'.ids == answer.value && work'.index == 0 && work'.missing == 0
          && slots' == slots[i := if snap.phase == VERIFY then Later(s, now).(phase := SEND)
                                  else s.(phase := SEND, due := if snap.phase == QUERY then now else s.due)]
    }

    lemma {:induction false} AnswerTakes(c: Core, work: Work, snap: Slot, answer: Option<seq<int>>, now: nat)
      ensures AnswerTaken(c.slots, work, Apply(c, snap, answer, now).slots, AppliedWork(work, c, snap, answer, now), c.running, snap, answer, now)
    {
    }

    method ApplyAnswer(snap: Slot, answer: Option<seq<int>>, now: nat)
      modifies slots, `work
      ensures Table() == Apply(old(Table()), snap, answer, now)
      ensures work == AppliedWork(old(work), old(Table()), snap, answer, now)
      ensures AnswerTaken(old(slots[..]), old(work), slots[..], work, running, snap, answer, now)
    {
      AnswerTakes(Table(), work, snap, answer, now);
      var i := StillThere(snap);
      if i == slots.Length || running { return; }
      if answer == Some([]) {
        slots[i] := slots[i].(used := false);
        work := Cleared(work);
        return;
      }
      var exhausted := false;
      if answer == None || snap.phase == VERIFY {
        slots[i] := Retry(slots[i], now);
        exhausted := slots[i].round > GAP_ROUNDS_MAX;
      }
      if answer.Some? && !exhausted {
        work := Cleared(work).(ids := answer.value);
        slots[i] := slots[i].(phase := SEND, due := if snap.phase == QUERY then now else slots[i].due);
      }
    }

    method SendingOver(snap: Slot, now: nat)
      modifies slots, `work
      ensures Table() == SendOver(old(Table()), snap, now) && work == Cleared(old(work))
      ensures work.ids == [] && work.index == 0 && work.missing == 0
      ensures var i := Find(old(slots[..]), snap.token);
        i < slots.Length && old(slots[..])[i].revision == snap.revision ==> slots[i] == old(slots[..])[i].(phase := VERIFY, due := now + 5000)
    {
      work := Cleared(work);
      var i := StillThere(snap);
      if i < slots.Length { slots[i] := slots[i].(phase := VERIFY, due := now + GAP_SETTLE_MS); }
    }

    // The database has no sample under the number: on to the next.
    method Unavailable()
      modifies `work
      ensures work == old(work).(missing := old(work).missing + 1, index := old(work).index + 1)
    {
      work := work.(missing := work.missing + 1, index := work.index + 1);
    }

    method Published(snap: Slot, ok: bool, now: nat)
      modifies slots, `work
      ensures var c := old(Table());
        if Still(c.slots, snap) == |c.slots| then Table() == c && work == old(work)
        else if ok then Table() == Sent(c, snap, now) && work == old(work).(index := old(work).index + 1)
        else Table() == RetryOf(c, snap, now) && work == old(work)
      ensures var i := Find(old(slots[..]), snap.token);
        i < slots.Length && old(slots[..])[i].revision == snap.revision ==>
          slots[i] == if ok then old(slots[..])[i].(due := now + 1000) else Later(old(slots[..])[i], now)
    {
      var i := StillThere(snap);
      if i == slots.Length { return; }
      if ok {
        work := work.(index := work.index + 1);
        slots[i] := slots[i].(due := now + GAP_SEND_MS);
      } else {
        slots[i] := Retry(slots[i], now);
      }
    }
  }
}
