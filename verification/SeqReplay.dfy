// main/Task/appTask.c, mqtt_seq_*: duplicate suppression for MQTT commands. A ring
// of 32 records refines a sliding window over the list of all commands recorded.
module SeqReplay {
  import opened Options

  const CAPACITY := 32
  const REPLY_MAX := 512
  const WINDOW_MS := 600000
  const FALLBACK_CAPACITY := 16

  // A table entry. An empty payload means that no reply has been produced yet.
  datatype Record = Record(num: int, valid: bool, firstSeen: nat, suffix: string, payload: string)

  // ---- The abstract object: everything recorded, oldest first ----

  datatype Entry = Entry(num: int, time: nat, suffix: string, payload: string)

  // Where a command was last recorded, or -1.
  function Latest(log: seq<Entry>, num: int): (k: int)
    ensures -1 <= k < |log|
    ensures k >= 0 ==> log[k].num == num
    ensures forall j :: k < j < |log| ==> log[j].num != num
  {
    if log == [] then -1
    else if log[|log| - 1].num == num then |log| - 1
    else Latest(log[..|log| - 1], num)
  }

  // Recorded among the last 32 commands and not longer ago than the window.
  predicate Remembered(log: seq<Entry>, num: int, now: int) {
    var k := Latest(log, num);
    k >= 0 && |log| - k <= CAPACITY && now - log[k].time <= WINDOW_MS
  }

  // A command looked up at one moment and, if new, recorded at a later one.
  function Recorded(log: seq<Entry>, num: int, now: nat, later: nat): seq<Entry> {
    if Remembered(log, num, now) then log else log + [Entry(num, later, "", "")]
  }

  function Replied(log: seq<Entry>, num: int, now: nat, suffix: string, payload: string): seq<Entry> {
    if Remembered(log, num, now) && |payload| < REPLY_MAX
    then WithReply(log, Latest(log, num), suffix, payload)
    else log
  }

  function WithReply(log: seq<Entry>, k: nat, suffix: string, payload: string): seq<Entry>
    requires k < |log|
  {
    log[k := log[k].(suffix := Clip(suffix, 15), payload := payload)]
  }

  // strlcpy into a 16-byte field.
  function Clip(s: string, n: nat): string { if |s| <= n then s else s[..n] }

  // What is on record as the reply to a number.
  function ReplyTo(log: seq<Entry>, num: int): (string, string)
    requires Latest(log, num) >= 0
  {
    var e := log[Latest(log, num)]; (e.suffix, e.payload)
  }

  datatype Outcome = Run | Replay(suffix: string, payload: string) | Ignore

  // What happens to the log: commands arrive, replies are cached.
  datatype Event = Command(num: int, now: nat, later: nat)
                 | Reply(num: int, now: nat, suffix: string, payload: string)

  function After(log: seq<Entry>, e: Event): seq<Entry> {
    match e
    case Command(num, now, later) => Recorded(log, num, now, later)
    case Reply(num, now, suffix, payload) => Replied(log, num, now, suffix, payload)
  }

  function History(events: seq<Event>): seq<Entry> {
    if events == [] then [] else After(History(events[..|events| - 1]), events[|events| - 1])
  }

  function Ends(e: Event): nat { if e.Command? then e.later else e.now }

  predicate InOrder(events: seq<Event>) {
    && (forall i :: 0 <= i < |events| ==> events[i].now <= Ends(events[i]))
    && (forall i, j :: 0 <= i < j < |events| ==> Ends(events[i]) <= events[j].now)
  }

  lemma {:induction false} HistoryTimes(events: seq<Event>)
    requires InOrder(events)
    ensures var log := History(events);
      && (forall i, j :: 0 <= i <= j < |log| ==> log[i].time <= log[j].time)
      && (log != [] ==> events != [] && log[|log| - 1].time <= Ends(events[|events| - 1]))
  {
    if events != [] {
      var before := events[..|events| - 1];
      HistoryTimes(before);
      assert |before| > 0 ==> Ends(events[|before| - 1]) <= events[|before|].now;
    }
  }

  // A command runs exactly when it is recorded. If the same number runs twice, either
  // more than the window passed in between or at least 32 other recordings were made.
  lemma {:induction false} RunsAgainOnlyAfterWindowOrEviction(events: seq<Event>, i: nat, j: nat)
    requires InOrder(events)
    requires i < j < |History(events)| && History(events)[i].num == History(events)[j].num
    ensures var log := History(events);
      log[j].time - log[i].time > WINDOW_MS || j - i > CAPACITY
  {
    var before := events[..|events| - 1];
    HistoryTimes(before);
    if j < |History(before)| {
      RunsAgainOnlyAfterWindowOrEviction(before, i, j);
    } else {
      var k := Latest(History(before), History(events)[j].num);
      assert i <= k;
    }
  }

  // A reply goes to the latest recording of its number and changes nothing else.
  lemma {:induction false} ReplyKept(log: seq<Entry>, num: int, now: int, suffix: string, payload: string)
    requires Remembered(log, num, now) && |payload| < 512 && now >= 0
    ensures var l, k := Replied(log, num, now, suffix, payload), Latest(log, num);
      && Latest(l, num) == k >= 0 && |l| == |log|
      && l[k] == Entry(num, log[k].time, if |suffix| <= 15 then suffix else suffix[..15], payload)
      && forall j :: 0 <= j < |log| && j != k ==> l[j] == log[j]
  {
    LatestSame(log, Replied(log, num, now, suffix, payload));
  }

  // A command runs exactly when each earlier recording of its number is more than 32
  // recordings back or older than the window.
  lemma {:induction false} RunsExactly(events: seq<Event>, num: int, now: nat, later: nat)
    requires InOrder(events + [Command(num, now, later)])
    ensures var log, after := History(events), History(events + [Command(num, now, later)]);
      && (after == log || after == log + [Entry(num, later, "", "")])
      && (|after| > |log| <==> forall k :: 0 <= k < |log| && log[k].num == num ==> |log| - k > 32 || now - log[k].time > 600000)
  {
    var all := events + [Command(num, now, later)];
    assert all[..|events|] == events;
    assert InOrder(events) by {
      forall i | 0 <= i < |events| ensures events[i] == all[i] {}
    }
    HistoryTimes(events);
  }

  // Different commands at one instant, and what is recorded of them.
  function Burst(n: nat): (r: seq<Event>)
    ensures |r| == n && forall i :: 0 <= i < n ==> r[i] == Command(i, 0, 0)
  {
    if n == 0 then [] else Burst(n - 1) + [Command(n - 1, 0, 0)]
  }

  function Logged(n: nat): (r: seq<Entry>)
    ensures |r| == n && forall i :: 0 <= i < n ==> r[i] == Entry(i, 0, "", "")
  {
    if n == 0 then [] else Logged(n - 1) + [Entry(n - 1, 0, "", "")]
  }

  lemma {:induction false} BurstRecorded(n: nat)
    ensures History(Burst(n)) == Logged(n)
  {
    if n > 0 {
      BurstRecorded(n - 1);
      assert Burst(n)[..n - 1] == Burst(n - 1);
      assert Latest(Logged(n - 1), n - 1) == -1;
    }
  }

  // The ring bounds what the window promises: after a burst of n other commands a command
  // runs again, inside the window, exactly when the ring was too small for them.
  lemma {:induction false} ForgottenInsideWindow(n: nat)
    requires n > 0
    ensures InOrder(Burst(n) + [Command(0, 0, 0)])
    ensures |History(Burst(n) + [Command(0, 0, 0)])| == n + 1 <==> n > 32
  {
    BurstRecorded(n);
    AtOnce(Burst(n) + [Command(0, 0, 0)]);
    assert (Burst(n) + [Command(0, 0, 0)])[..n] == Burst(n);
    assert Logged(n)[0].num == 0;
    assert Latest(Logged(n), 0) == 0;
  }

  lemma {:induction false} AtOnce(events: seq<Event>)
    requires forall i :: 0 <= i < |events| ==> events[i].Command? && events[i].now == events[i].later == 0
    ensures InOrder(events)
  {
  }

  // Changing replies does not change who was recorded where.
  lemma {:induction false} LatestSame(a: seq<Entry>, b: seq<Entry>)
    requires |a| == |b| && forall i :: 0 <= i < |a| ==> a[i].num == b[i].num
    ensures forall n :: Latest(a, n) == Latest(b, n)
  {
    if a != [] { LatestSame(a[..|a| - 1], b[..|b| - 1]); }
  }

  lemma {:induction false} LatestAppend(log: seq<Entry>, e: Entry)
    ensures forall n :: Latest(log + [e], n) == if n == e.num then |log| else Latest(log, n)
  {
    assert (log + [e])[..|log|] == log;
  }

  // Among the last sixteen numbers noted in the old table.
  predicate FallbackKnows(log: seq<int>, num: int) {
    num in if |log| <= FALLBACK_CAPACITY then log else log[|log| - FALLBACK_CAPACITY..]
  }

  // Without the table, a command is known by the last sixteen noted.
  lemma {:induction false} FallbackMeans(log: seq<int>, num: int)
    ensures FallbackKnows(log, num) <==> exists k :: 0 <= k < |log| && log[k] == num && |log| - k <= 16
  {
    if FallbackKnows(log, num) && |log| > FALLBACK_CAPACITY {
      var n := |log| - FALLBACK_CAPACITY;
      var j :| 0 <= j < |log[n..]| && log[n..][j] == num;
      assert log[n + j] == num;
    }
    if k :| 0 <= k < |log| && log[k] == num && |log| - k <= 16 {
      if |log| > FALLBACK_CAPACITY { assert log[|log| - FALLBACK_CAPACITY..][k - (|log| - FALLBACK_CAPACITY)] == num; }
    }
  }

  // ---- Ring arithmetic ----

  // The write position and fill of a ring of size cap after n recordings.
  predicate RingShapeOf(cap: nat, n: nat, count: nat, next: nat) {
    && count == (if n < cap then n else cap)
    && next < cap && (n < cap ==> next == 0)
  }

  // Which recording slot i holds.
  function RecordingAt(cap: nat, n: nat, next: nat, i: nat): (k: int) {
    if n < cap then i else if i < next then n - next + i else n - next - cap + i
  }

  // Which slot holds recording k.
  function SlotFor(cap: nat, n: nat, next: nat, k: nat): (i: int) {
    if n < cap then k else if k >= n - next then k - (n - next) else k + next + cap - n
  }

  lemma {:induction false} SlotAndRecording(cap: nat, n: nat, count: nat, next: nat)
    requires RingShapeOf(cap, n, count, next)
    ensures forall i :: 0 <= i < count ==>
              var k := RecordingAt(cap, n, next, i);
              0 <= k < n && n - k <= cap && SlotFor(cap, n, next, k) == i
    ensures forall k :: 0 <= k < n && n - k <= cap ==>
              var i := SlotFor(cap, n, next, k);
              0 <= i < count && RecordingAt(cap, n, next, i) == k
  {
  }

  // One more recording: it takes a slot of its own, every other slot keeps what it holds.
  lemma {:induction false} Advance(cap: nat, n: nat, count: nat, next: nat, count': nat, next': nat)
    requires cap > 0 && RingShapeOf(cap, n, count, next)
    requires count' == (if count < cap then count + 1 else count)
    requires next' == if count < cap then next else (next + 1) % cap
    ensures RingShapeOf(cap, n + 1, count', next')
    ensures var idx := if count < cap then count else next;
      && RecordingAt(cap, n + 1, next', idx) == n
      && forall j :: 0 <= j < count' && j != idx ==>
           j < count && 0 <= RecordingAt(cap, n, next, j) == RecordingAt(cap, n + 1, next', j) < n
  {
    if next + 1 < cap {
      assert (next + 1) % cap == next + 1;
    } else {
      assert cap % cap == 0;
    }
  }

  predicate RingShape(n: nat, count: nat, next: nat) { RingShapeOf(CAPACITY, n, count, next) }

  function At(n: nat, next: nat, i: nat): (k: int) { RecordingAt(CAPACITY, n, next, i) }

  // A record describes recording k: it is given up (invalid) only if the number came
  // again later or once it expired.
  ghost predicate Describes(r: Record, log: seq<Entry>, k: int, now: nat) {
    && 0 <= k < |log|
    && r.num == log[k].num && r.firstSeen == log[k].time && r.suffix == log[k].suffix && r.payload == log[k].payload
    && (r.valid ==> Latest(log, r.num) == k)
    && (r.valid || Latest(log, r.num) != k || now - r.firstSeen > WINDOW_MS)
  }

  lemma {:induction false} StillDescribes(r: Record, log: seq<Entry>, k: int, now: nat, e: Entry)
    requires Describes(r, log, k, now) && !(r.valid && r.num == e.num)
    ensures Describes(r, log + [e], k, now)
  {
    LatestAppend(log, e);
  }

  // ---- The table ----

  class Dedup {
    var history: array?<Record>
    var count: nat
    var next: nat
    var allocFailed: bool
    var fallback: array<int>
    var fallbackCount: nat
    var fallbackNext: nat
    ghost var log: seq<Entry>
    ghost var fallbackLog: seq<int>
    ghost var clock: nat  // when the table was last looked at; ticks do not go back

    ghost predicate RingOk(now: nat)
      reads `history, `log, `count, `next, history
    {
      history != null ==>
        && history.Length == CAPACITY && RingShape(|log|, count, next)
        && (forall i :: 0 <= i < count ==> Describes(history[i], log, At(|log|, next, i), now))
        && (forall k :: 0 <= k < |log| ==> log[k].time <= now)
    }

    ghost predicate FallbackOk()
      reads `fallback, `fallbackLog, `fallbackCount, `fallbackNext, fallback
    {
      && fallback.Length == FALLBACK_CAPACITY
      && RingShapeOf(FALLBACK_CAPACITY, |fallbackLog|, fallbackCount, fallbackNext)
      && forall i :: 0 <= i < fallbackCount ==>
           fallback[i] == fallbackLog[RecordingAt(FALLBACK_CAPACITY, |fallbackLog|, fallbackNext, i)]
    }

    ghost predicate Valid()
      reads this, history, fallback
    {
      && RingOk(clock) && FallbackOk()
      && (history == null ==> log == [])
      && (allocFailed ==> history == null)
    }

    constructor ()
      ensures Valid() && log == [] && fallbackLog == [] && clock == 0 && history == null && !allocFailed
      ensures fresh(fallback)
    {
      history, count, next, allocFailed := null, 0, 0, false;
      fallback := new int[FALLBACK_CAPACITY];
      fallbackCount, fallbackNext := 0, 0;
      log, fallbackLog, clock := [], [], 0;
    }

    ghost predicate Absent(num: int)
      reads `history, `count, history
    {
      history != null ==> count <= history.Length && forall j :: 0 <= j < count ==> !(history[j].valid && history[j].num == num)
    }

    // The record of a command still remembered, or None.
    method Find(num: int, now: nat) returns (at: Option<nat>)
      requires Valid() && clock <= now
      modifies `clock, history
      ensures Valid() && clock == now
      ensures at.Some? <==> Remembered(log, num, now)
      ensures at.None? ==> Absent(num)
      ensures at.Some? ==> history != null && at.value < count && At(|log|, next, at.value) == Latest(log, num)
    {
      clock := now;
      if history == null { return None; }
      var i := 0;
      while i < count
        invariant 0 <= i <= count && unchanged(history)
        invariant forall j :: 0 <= j < i ==> !(history[j].valid && history[j].num == num)
      {
        if history[i].valid && history[i].num == num {
          if now - history[i].firstSeen > WINDOW_MS {
            Expire(i);
            return None;
          }
          return Some(i);
        }
        i := i + 1;
      }
      NotInRing(num);
      return None;
    }

    // No valid record: the number is new, overwritten, or expired.
    lemma {:induction false} NotInRing(num: int)
      requires history != null && RingOk(clock) && Absent(num)
      ensures !Remembered(log, num, clock)
    {
      var k := Latest(log, num);
      if k >= 0 && |log| - k <= CAPACITY {
        SlotAndRecording(CAPACITY, |log|, count, next);
        var i := SlotFor(CAPACITY, |log|, next, k);
        assert Describes(history[i], log, k, clock);
      }
    }

    // An expired record stays in its slot, marked invalid.
    method Expire(i: nat)
      requires history != null && RingOk(clock) && i < count
      requires history[i].valid && clock - history[i].firstSeen > WINDOW_MS
      modifies history
      ensures RingOk(clock) && Absent(old(history[i]).num)
    {
      SlotAndRecording(CAPACITY, |log|, count, next);
      assert forall j :: 0 <= j < count ==> SlotFor(CAPACITY, |log|, next, At(|log|, next, j)) == j;
      history[i] := history[i].(valid := false);
    }

    // Register a number; what it means to be registered already is Remembered.
    method Note(num: int, now: nat, memory: bool)
      requires Valid() && clock <= now
      modifies this, history, fallback
      ensures Valid() && clock == now && fallback == old(fallback)
      ensures old(history) != null ==> history == old(history) && log == Recorded(old(log), num, now, now)
      ensures old(history) == null && !old(allocFailed) && memory ==>
                history != null && fresh(history) && log == [Entry(num, now, "", "")]
      ensures old(history) == null && (old(allocFailed) || !memory) ==> history == null && allocFailed
      ensures history != null ==> fallbackLog == old(fallbackLog)
      ensures history == null ==>
                fallbackLog == if FallbackKnows(old(fallbackLog), num) then old(fallbackLog) else old(fallbackLog) + [num]
    {
      var ready := Ensure(memory);
      if !ready {
        clock := now;
        FallbackNote(num);
        return;
      }
      var at := Find(num, now);
      if at.Some? { return; }
      Append(num, now);
    }

    method Ensure(memory: bool) returns (ready: bool)
      requires Valid()
      modifies `history, `allocFailed, `count, `next
      ensures Valid() && ready == (history != null)
      ensures old(history) != null ==> history == old(history) && ready
      ensures old(history) == null ==> ready == (!old(allocFailed) && memory) && (ready ==> fresh(history)) && log == []
      ensures allocFailed == (old(allocFailed) || !ready)
    {
      if history != null { return true; }
      if allocFailed { return false; }
      if !memory {
        allocFailed := true;
        return false;
      }
      history := new Record[CAPACITY](_ => Record(0, false, 0, "", ""));
      count, next := 0, 0;
      return true;
    }

    // The slot to write next: a fresh one while there is room, else the oldest.
    method TakeSlot(ghost n: nat) returns (idx: nat)
      requires RingShape(n, count, next)
      modifies `count, `next
      ensures RingShape(n + 1, count, next) && idx < count && At(n + 1, next, idx) == n
      ensures forall j :: 0 <= j < count && j != idx ==> j < old(count) && At(n + 1, next, j) == At(n, old(next), j) < n
    {
      ghost var c, x := count, next;
      if count < CAPACITY {
        idx := count;
        count := count + 1;
      } else {
        idx := next;
        next := (next + 1) % CAPACITY;
      }
      Advance(CAPACITY, n, c, x, count, next);
    }

    method Append(num: int, now: nat)
      requires Valid() && history != null && now == clock && Absent(num)
      modifies `log, `count, `next, history
      ensures Valid() && log == old(log) + [Entry(num, now, "", "")]
    {
      ghost var e, ring := Entry(num, now, "", ""), history[..];
      var idx := TakeSlot(|log|);
      history[idx] := Record(num, true, now, "", "");
      log := log + [e];
      LatestAppend(old(log), e);
      forall j | 0 <= j < count ensures Describes(history[j], log, At(|log|, next, j), now) {
        if j != idx {
          assert history[j] == ring[j];
          StillDescribes(ring[j], old(log), At(|log|, next, j), now, e);
        }
      }
    }

    // Cache the reply to a remembered command for replay.
    method NoteReply(num: int, suffix: string, payload: string, now: nat)
      requires Valid() && clock <= now
      modifies `clock, `log, history
      ensures Valid() && clock == now
      ensures log == if history == null then old(log) else After(old(log), Reply(num, now, suffix, payload))
      ensures history != null && Remembered(old(log), num, now) && |payload| < REPLY_MAX ==>
                Latest(log, num) >= 0 && ReplyTo(log, num) == (if |suffix| <= 15 then suffix else suffix[..15], payload)
    {
      ghost var before := log;
      if Remembered(before, num, now) && |payload| < REPLY_MAX { ReplyKept(before, num, now, suffix, payload); }
      var at := Find(num, now);
      if at == None { return; }
      if |payload| >= REPLY_MAX { return; }
      SetReply(at.value, suffix, payload);
    }

    method SetReply(i: nat, suffix: string, payload: string)
      requires Valid() && history != null && i < count
      modifies `log, history
      ensures Valid()
      ensures 0 <= At(|log|, next, i) < |old(log)|
      ensures log == WithReply(old(log), At(|old(log)|, next, i), suffix, payload)
    {
      SlotAndRecording(CAPACITY, |log|, count, next);
      ghost var k, ring := At(|log|, next, i), history[..];
      history[i] := history[i].(suffix := Clip(suffix, 15), payload := payload);
      log := WithReply(log, k, suffix, payload);
      LatestSame(old(log), log);
      forall j | 0 <= j < count ensures Describes(history[j], log, At(|log|, next, j), clock) {
        assert Describes(ring[j], old(log), At(|log|, next, j), clock);
      }
    }

    // At most one valid entry for each number, and it is the latest recording.
    lemma {:induction false} OneValidEntry(i: nat, j: nat)
      requires RingOk(clock) && history != null && i < count && j < count && count <= history.Length
      requires history[i].valid && history[j].valid && history[i].num == history[j].num
      ensures i == j && At(|log|, next, i) == Latest(log, history[i].num)
    {
      SlotAndRecording(CAPACITY, |log|, count, next);
      assert Describes(history[i], log, At(|log|, next, i), clock) && Describes(history[j], log, At(|log|, next, j), clock);
    }

    // The old table: sixteen numbers, no replies, no expiry.
    method FallbackIsDuplicate(num: int) returns (known: bool)
      requires FallbackOk()
      ensures known <==> FallbackKnows(fallbackLog, num)
    {
      ghost var n := |fallbackLog|;
      SlotAndRecording(FALLBACK_CAPACITY, n, fallbackCount, fallbackNext);
      for i := 0 to fallbackCount
        invariant forall j :: 0 <= j < i ==> fallback[j] != num
      {
        if fallback[i] == num {
          ghost var k := RecordingAt(FALLBACK_CAPACITY, n, fallbackNext, i);
          assert n > FALLBACK_CAPACITY ==> fallbackLog[n - FALLBACK_CAPACITY..][k - (n - FALLBACK_CAPACITY)] == num;
          return true;
        }
      }
      forall k | 0 <= k < n && n - k <= FALLBACK_CAPACITY ensures fallbackLog[k] != num {
        var i := SlotFor(FALLBACK_CAPACITY, n, fallbackNext, k);
        assert fallback[i] == fallbackLog[k];
      }
      return false;
    }

    method FallbackNote(num: int)
      requires FallbackOk()
      modifies `fallbackLog, `fallbackCount, `fallbackNext, fallback
      ensures FallbackOk()
      ensures fallbackLog == if FallbackKnows(old(fallbackLog), num) then old(fallbackLog) else old(fallbackLog) + [num]
    {
      var known := FallbackIsDuplicate(num);
      if known { return; }
      ghost var n, c, x := |fallbackLog|, fallbackCount, fallbackNext;
      if fallbackCount < FALLBACK_CAPACITY {
        fallback[fallbackCount] := num;
        fallbackCount := fallbackCount + 1;
      } else {
        fallback[fallbackNext] := num;
        fallbackNext := (fallbackNext + 1) % FALLBACK_CAPACITY;
      }
      fallbackLog := fallbackLog + [num];
      Advance(FALLBACK_CAPACITY, n, c, x, fallbackCount, fallbackNext);
    }

    // What parse_jsonCommand_MQTT does with a command number, at two clock readings.
    method Arrive(num: int, now: nat, later: nat, memory: bool) returns (what: Outcome)
      requires Valid() && clock <= now <= later
      modifies this, history, fallback
      ensures Valid()
      ensures old(history) != null ==>
        && history == old(history) && fallbackLog == old(fallbackLog)
        && (what.Run? <==> !Remembered(old(log), num, now))
        && log == After(old(log), Command(num, now, later))
        && (what.Replay? <==> Remembered(old(log), num, now) && ReplyTo(old(log), num).1 != "")
        && (what.Replay? ==> (what.suffix, what.payload) == ReplyTo(old(log), num))
      ensures old(history) == null ==>
        && !what.Replay? && (what.Run? <==> !FallbackKnows(old(fallbackLog), num))
        && (history != null ==> what.Run? && log == [Entry(num, later, "", "")] && fallbackLog == old(fallbackLog))
        && (history == null ==> fallbackLog == if what.Run? then old(fallbackLog) + [num] else old(fallbackLog))
    {
      var at := Find(num, now);
      if at.Some? {
        if history[at.value].payload != "" {
          return Replay(history[at.value].suffix, history[at.value].payload);
        }
        return Ignore;
      }
      if history == null {
        var known := FallbackIsDuplicate(num);
        if known { return Ignore; }
      }
      Note(num, later, memory);
      return Run;
    }
  }
}
