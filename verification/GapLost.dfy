// A run in which the numbers a server asked for are not sent: an older session becomes an
// intent in between.
module GapLost {
  import opened GapModel
  import opened Options
  import opened GapWorld
  import opened GapSafety
  import opened GapRetry
  import opened GapBatch
  import GapCollision
  import GapRecovery

  lemma {:induction false} NothingPassed(rows: set<Row>, events: seq<Event>, t: nat)
    requires forall e :: e in events ==> !e.PollSend? && !e.PollPublished?
    ensures var b := BatchOf(rows, events, t); b.Batch? ==> b.done == [] && b.ids != []
  {
    if events != [] { NothingPassed(rows, events[..|events| - 1], t); }
  }

  function Table(a: Slot, b: Slot): seq<Slot> { seq(GAP_SESSION_SLOTS, _ => FREE)[0 := a][1 := b] }

  const OLDER := Packet(1, "P", "R")
  const KEPT: set<Row> := {Row("Q", "S", 5)}
  const DRAINING := NewSlot(1, "P", "R").(accepted := 1, closed := true)
  const NEWER := NewSlot(2, "Q", "S").(lastId := 5, nextId := 6, persisted := 1, closed := true, intent := true, revision := 1)
  const STARTED := NEWER.(trigger := 2, round := 1, due := 5000)
  const LISTED := STARTED.(phase := SEND)
  const NUMBERED := DRAINING.(nextId := 1, lastId := 0)
  const LATE := DRAINING.(processed := 1, persisted := 1, nextId := 1, lastId := 0, intent := true, revision := 1)
  const FIRST := LATE.(trigger := 2, round := 1, due := 10000)
  const SAVED: set<Row> := KEPT + {Row("P", "R", 0)}

  // An older session is closed with a sample queued; a newer one resumes, has nothing new,
  // and is an intent at once.
  function TwoSessions(): seq<Event> {
    [Begin("P", "R", false), Snapshot, Submit(OLDER), Close] + [Begin("Q", "S", true), Look, EndResume, Close]
  }

  // The server asks for number 3 of the newer one.
  function Asked(): seq<Event> {
    [Idle, Ready(true), PollStart(true, 0), PollStart(true, 5000)] + [PollAsk(true), PollAnswer(true, Some([3])), PollApply(5000)]
  }

  // Before it is sent, the older session becomes an intent, is asked about, and is complete.
  function Between(): seq<Event> {
    [Take, Number, Store(true), Done] + [PollStart(true, 5000), PollStart(true, 10000)]
    + [PollAsk(true), PollAnswer(true, Some([])), PollApply(10000)]
  }

  lemma {:induction false} Sessions()
    ensures GapCollision.From(Boot(KEPT), TwoSessions()) ==
      World(Core(Table(DRAINING, NEWER), 2, 0, true, 0, false), {OLDER}, [OLDER], Free, Settled, KEPT, Resting, Work(0, 0, [], 0, 0))
  {
    var w := World(Core(Table(DRAINING, FREE), 1, 0, true, 0, false), {OLDER}, [OLDER], Free, Settled, KEPT, Resting, Work(0, 0, [], 0, 0));
    OlderCloses();
    NewerCloses(w);
    GapCollision.FromThen(Boot(KEPT), [Begin("P", "R", false), Snapshot, Submit(OLDER), Close], [Begin("Q", "S", true), Look, EndResume, Close]);
  }

  lemma {:induction false} OlderCloses()
    ensures GapCollision.From(Boot(KEPT), [Begin("P", "R", false), Snapshot, Submit(OLDER), Close]) ==
      World(Core(Table(DRAINING, FREE), 1, 0, true, 0, false), {OLDER}, [OLDER], Free, Settled, KEPT, Resting, Work(0, 0, [], 0, 0))
  {
    var w := Next(Boot(KEPT), Begin("P", "R", false));
    assert w.core.slots == Table(NewSlot(1, "P", "R"), FREE);
    assert Find(w.core.slots, 1) == 0;
    var v := Next(Next(w, Snapshot), Submit(OLDER));
    assert v.core.slots == Table(NewSlot(1, "P", "R").(accepted := 1), FREE) && v.queue == [OLDER];
    assert Find(v.core.slots, 1) == 0;
    assert Next(v, Close).core.slots == Table(DRAINING, FREE);
    GapCollision.Four(Boot(KEPT), Begin("P", "R", false), Snapshot, Submit(OLDER), Close);
  }

  lemma {:induction false} NewerCloses(w: World)
    requires w == World(Core(Table(DRAINING, FREE), 1, 0, true, 0, false), {OLDER}, [OLDER], Free, Settled, KEPT, Resting, Work(0, 0, [], 0, 0))
    ensures GapCollision.From(w, [Begin("Q", "S", true), Look, EndResume, Close]) == w.(core := w.core.(slots := Table(DRAINING, NEWER), nextToken := 2))
  {
    assert FirstFree(w.core.slots) == 1;
    var v := Next(w, Begin("Q", "S", true));
    assert v.core.slots == Table(DRAINING, NewSlot(2, "Q", "S")) && Find(v.core.slots, 2) == 1;
    FoundFive();
    var u := Next(Next(v, Look), EndResume);
    var s := NewSlot(2, "Q", "S").(lastId := 5, nextId := 6, persisted := 1);
    assert u.core.slots == Table(DRAINING, s) && Find(u.core.slots, 2) == 1;
    NoIntent(Table(DRAINING, s.(closed := true)));
    assert u.core.slots[1 := s.(closed := true)] == Table(DRAINING, s.(closed := true));
    assert Next(u, Close).core.slots == Table(DRAINING, NEWER);
    GapCollision.Four(w, Begin("Q", "S", true), Look, EndResume, Close);
  }

  lemma {:induction false} NoIntent(slots: seq<Slot>)
    requires forall k :: 0 <= k < |slots| ==> !(slots[k].used && slots[k].intent)
    ensures Pending(slots) == 0 && forall s :: SameIntent(slots, s) == |slots|
  {
    SumNone(AsIntent, slots);
  }

  lemma {:induction false} FoundFive()
    ensures Lookup(KEPT, "Q", "S") == Some(5)
  {
    assert Highest(KEPT, "Q", "S", 5);
    forall m | Highest(KEPT, "Q", "S", m) ensures m == 5 { assert Row("Q", "S", m) in KEPT; }
  }

  lemma {:induction false} Two(w: World, a: Event, b: Event)
    ensures GapCollision.From(w, [a, b]) == Next(Next(w, a), b)
  {
    GapCollision.FromOne(w, a, [b]);
    GapCollision.FromOne(Next(w, a), b, []);
    assert [a] + [b] == [a, b] && [b] + [] == [b];
  }

  lemma {:induction false} Three(w: World, a: Event, b: Event, c: Event)
    ensures GapCollision.From(w, [a, b, c]) == Next(Next(Next(w, a), b), c)
  {
    GapCollision.FromOne(w, a, [b, c]);
    Two(Next(w, a), b, c);
    assert [a] + [b, c] == [a, b, c];
  }

  // The poll at work on the two sessions.
  function Polling(a: Slot, b: Slot, queue: seq<Packet>, rows: set<Row>, poll: Poll, work: Work): World {
    World(Core(Table(a, b), 2, 0, false, 2, true), {OLDER}, queue, Free, Settled, rows, poll, work)
  }

  lemma {:induction false} OldestOf(a: Slot, b: Slot)
    requires Eligible(b) && (Eligible(a) ==> a.token < b.token)
    ensures Oldest(Table(a, b), GAP_SESSION_SLOTS) == if Eligible(a) then 0 else 1
  {
    var slots := Table(a, b);
    assert slots[0] == a && slots[1] == b;
    var i := Oldest(slots, GAP_SESSION_SLOTS);
    assert Eligible(slots[i]);
  }

  lemma {:induction false} RefreshTable(a: Slot, b: Slot, now: nat)
    ensures RefreshAll(Table(a, b), 2, now) == Table(Refresh(a, 2, now), Refresh(b, 2, now))
  {
  }

  lemma {:induction false} FoundBoth(a: Slot, b: Slot)
    requires b.used && b.token == 2 && (a.used ==> a.token == 1)
    ensures Find(Table(a, b), 2) == 1 && (a.used ==> Find(Table(a, b), 1) == 0)
  {
    var slots := Table(a, b);
    assert slots[0] == a && slots[1] == b;
  }

  lemma {:induction false} StartsNewer()
    ensures GapCollision.From(
      World(Core(Table(DRAINING, NEWER), 2, 0, true, 0, false), {OLDER}, [OLDER], Free, Settled, KEPT, Resting, Work(0, 0, [], 0, 0)),
      [Idle, Ready(true), PollStart(true, 0), PollStart(true, 5000)])
      == Polling(DRAINING, STARTED, [OLDER], KEPT, Chosen(STARTED), Work(2, 1, [], 0, 0))
  {
    var w := World(Core(Table(DRAINING, NEWER), 2, 0, true, 0, false), {OLDER}, [OLDER], Free, Settled, KEPT, Resting, Work(0, 0, [], 0, 0));
    var v := Next(Next(w, Idle), Ready(true));
    assert v == Polling(DRAINING, NEWER, [OLDER], KEPT, Resting, Work(0, 0, [], 0, 0));
    RefreshTable(DRAINING, NEWER, 0);
    OldestOf(DRAINING, STARTED);
    var u := Next(v, PollStart(true, 0));
    assert u == Polling(DRAINING, STARTED, [OLDER], KEPT, Resting, Work(0, 0, [], 0, 0));
    RefreshTable(DRAINING, STARTED, 5000);
    GapCollision.Four(w, Idle, Ready(true), PollStart(true, 0), PollStart(true, 5000));
  }

  lemma {:induction false} NewerAnswered()
    ensures GapCollision.From(Polling(DRAINING, STARTED, [OLDER], KEPT, Chosen(STARTED), Work(2, 1, [], 0, 0)),
                              [PollAsk(true), PollAnswer(true, Some([3])), PollApply(5000)])
      == Polling(DRAINING, LISTED, [OLDER], KEPT, Resting, Work(2, 1, [3], 0, 0))
  {
    var w := Polling(DRAINING, STARTED, [OLDER], KEPT, Chosen(STARTED), Work(2, 1, [], 0, 0));
    FoundBoth(DRAINING, STARTED);
    var v := Next(Next(w, PollAsk(true)), PollAnswer(true, Some([3])));
    assert v == w.(poll := Applying(STARTED, Some([3])));
    assert Table(DRAINING, STARTED)[1 := LISTED] == Table(DRAINING, LISTED);
    Three(w, PollAsk(true), PollAnswer(true, Some([3])), PollApply(5000));
  }

  lemma {:induction false} OlderStored(w: World)
    requires w == Polling(DRAINING, LISTED, [OLDER], KEPT, Resting, Work(2, 1, [3], 0, 0))
    ensures Next(Next(Next(w, Take), Number), Store(true))
      == Polling(NUMBERED, LISTED, [], SAVED, Resting, Work(2, 1, [3], 0, 0)).(worker := Stored(OLDER, true))
  {
    FoundBoth(DRAINING, LISTED);
    var v := Next(Next(w, Take), Number);
    assert Table(DRAINING, LISTED)[0 := NUMBERED] == Table(NUMBERED, LISTED);
    assert v.core.slots == Table(NUMBERED, LISTED) && v.worker == Numbered(OLDER, 0);
  }

  lemma {:induction false} OlderIntends(c: Core)
    requires c.slots == Table(NUMBERED, LISTED)
    ensures GapModel.Done(c, 1, true) == c.(slots := Table(LATE, LISTED))
  {
    var settled := Processed(NUMBERED, true);
    FoundBoth(NUMBERED, LISTED);
    assert c.slots[0 := settled] == Table(settled, LISTED);
    OneIntent(Table(settled, LISTED), settled);
    assert Table(settled, LISTED)[0 := LATE] == Table(LATE, LISTED);
  }

  lemma {:induction false} OlderSettles()
    ensures GapCollision.From(Polling(DRAINING, LISTED, [OLDER], KEPT, Resting, Work(2, 1, [3], 0, 0)), [Take, Number, Store(true), Done])
      == Polling(LATE, LISTED, [], SAVED, Resting, Work(2, 1, [3], 0, 0))
  {
    var w := Polling(DRAINING, LISTED, [OLDER], KEPT, Resting, Work(2, 1, [3], 0, 0));
    OlderStored(w);
    OlderIntends(Next(Next(Next(w, Take), Number), Store(true)).core);
    GapCollision.Four(w, Take, Number, Store(true), Done);
  }

  lemma {:induction false} OneIntent(slots: seq<Slot>, s: Slot)
    requires |slots| == GAP_SESSION_SLOTS && slots[0] == s && !s.intent && s.pn == "P" && slots[1] == LISTED
    requires forall k :: 2 <= k < |slots| ==> slots[k] == FREE
    ensures Pending(slots) < GAP_PENDING_MAX && SameIntent(slots, s) == |slots|
  {
    assert slots[0].pn != slots[1].pn by { assert "P"[0] != "Q"[0]; }
    GapRecovery.PendingCounts(slots);
    assert GapRecovery.Intents(slots) == {1};
  }

  lemma {:induction false} OlderTakenUp()
    ensures GapCollision.From(Polling(LATE, LISTED, [], SAVED, Resting, Work(2, 1, [3], 0, 0)), [PollStart(true, 5000), PollStart(true, 10000)])
      == Polling(FIRST, LISTED, [], SAVED, Chosen(FIRST), Work(1, 1, [], 0, 0))
  {
    var w := Polling(LATE, LISTED, [], SAVED, Resting, Work(2, 1, [3], 0, 0));
    RefreshTable(LATE, LISTED, 5000);
    OldestOf(FIRST, LISTED);
    var v := Next(w, PollStart(true, 5000));
    assert v == Polling(FIRST, LISTED, [], SAVED, Resting, Work(2, 1, [3], 0, 0));
    RefreshTable(FIRST, LISTED, 10000);
    Two(w, PollStart(true, 5000), PollStart(true, 10000));
  }

  lemma {:induction false} OlderComplete()
    ensures GapCollision.From(Polling(FIRST, LISTED, [], SAVED, Chosen(FIRST), Work(1, 1, [], 0, 0)),
                              [PollAsk(true), PollAnswer(true, Some([])), PollApply(10000)])
      == Polling(FIRST.(used := false), LISTED, [], SAVED, Resting, Work(1, 1, [], 0, 0))
  {
    var w := Polling(FIRST, LISTED, [], SAVED, Chosen(FIRST), Work(1, 1, [], 0, 0));
    FoundBoth(FIRST, LISTED);
    var v := Next(Next(w, PollAsk(true)), PollAnswer(true, Some([])));
    assert v == w.(poll := Applying(FIRST, Some([])));
    assert Table(FIRST, LISTED)[0 := FIRST.(used := false)] == Table(FIRST.(used := false), LISTED);
    Three(w, PollAsk(true), PollAnswer(true, Some([])), PollApply(10000));
  }

  lemma {:induction false} NewerUnsent(w: World)
    requires w == Polling(FIRST.(used := false), LISTED, [], SAVED, Resting, Work(1, 1, [], 0, 0))
    ensures var v := GapCollision.From(w, [PollStart(true, 10000), PollAsk(true)]);
      && v.core.slots == Table(FIRST.(used := false), LISTED)
      && Next(v, PollSend(true, Record, 10000)).core.slots == Table(FIRST.(used := false), LISTED.(phase := VERIFY, due := 15000))
  {
    var freed := FIRST.(used := false);
    RefreshTable(freed, LISTED, 10000);
    OldestOf(freed, LISTED);
    FoundBoth(freed, LISTED);
    var v := Next(w, PollStart(true, 10000));
    assert v == w.(poll := Chosen(LISTED), work := Work(2, 1, [], 0, 0));
    Two(w, PollStart(true, 10000), PollAsk(true));
    assert Table(freed, LISTED)[1 := LISTED.(phase := VERIFY, due := 15000)] == Table(freed, LISTED.(phase := VERIFY, due := 15000));
  }

  function LostRun(): seq<Event> { TwoSessions() + (Asked() + (Between() + [PollStart(true, 10000), PollAsk(true)])) }

  lemma {:induction false} LostEvents(e: Event)
    requires e in LostRun()
    ensures !e.PollSend? && !e.PollPublished?
  {
  }

  lemma {:induction false} LostReaches()
    ensures GapCollision.From(Boot(KEPT), LostRun()) ==
      GapCollision.From(Polling(FIRST.(used := false), LISTED, [], SAVED, Resting, Work(1, 1, [], 0, 0)), [PollStart(true, 10000), PollAsk(true)])
  {
    var w := GapCollision.From(Boot(KEPT), TwoSessions());
    var more := [PollStart(true, 10000), PollAsk(true)];
    Sessions();
    StartsNewer();
    NewerAnswered();
    OlderSettles();
    OlderTakenUp();
    OlderComplete();
    GapCollision.FromThen(Boot(KEPT), TwoSessions(), Asked() + (Between() + more));
    GapCollision.FromThen(w, Asked(), Between() + more);
    GapCollision.FromThen(w, [Idle, Ready(true), PollStart(true, 0), PollStart(true, 5000)],
                          [PollAsk(true), PollAnswer(true, Some([3])), PollApply(5000)]);
    var v := Polling(DRAINING, LISTED, [OLDER], KEPT, Resting, Work(2, 1, [3], 0, 0));
    GapCollision.FromThen(v, Between(), more);
    GapCollision.FromThen(v, [Take, Number, Store(true), Done] + [PollStart(true, 5000), PollStart(true, 10000)],
                          [PollAsk(true), PollAnswer(true, Some([])), PollApply(10000)]);
    GapCollision.FromThen(v, [Take, Number, Store(true), Done], [PollStart(true, 5000), PollStart(true, 10000)]);
  }

  // A run in which the list is lost: nothing of it has been published or looked up when the
  // intent goes to be verified.
  lemma {:induction false} ListLost()
    ensures var w, v := Run(Boot(KEPT), LostRun()), Next(Run(Boot(KEPT), LostRun()), PollSend(true, Record, 10000));
      && |w.core.slots| == |v.core.slots| == GAP_SESSION_SLOTS && w.core.slots[1].phase == SEND && v.core.slots[1].phase == VERIFY
      && var b := BatchOf(KEPT, LostRun(), 2); b.Batch? && b.ids != [] && b.done == [] && b.lost
  {
    GapCollision.RunFrom(Boot(KEPT), LostRun());
    LostReaches();
    NewerUnsent(Polling(FIRST.(used := false), LISTED, [], SAVED, Resting, Work(1, 1, [], 0, 0)));
    forall e | e in LostRun() ensures !e.PollSend? && !e.PollPublished? { LostEvents(e); }
    NothingPassed(KEPT, LostRun(), 2);
    SentInOrder(KEPT, LostRun(), PollSend(true, Record, 10000), 1);
  }
}
