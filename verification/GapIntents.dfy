// What follows for sessions and intents: there is always room to begin, and an intent
// goes only when the server has everything.
module GapIntents {
  import opened GapModel
  import opened Options
  import opened GapWorld
  import opened GapSafety

  // ---- The size of the table ----

  // With no current session a begin always finds a slot: sixteen intents, three queued
  // packets and the one at the worker account for at most twenty.
  lemma {:induction false} BeginFindsSlot(rows: set<Row>, events: seq<Event>, pn: string, rid: string)
    requires BeginArgs(pn, rid) && Run(Boot(rows), events).core.current == 0
    ensures CanBegin(Run(Boot(rows), events).core, pn, rid)
  {
    RunOk(rows, events);
    RoomToBegin(Run(Boot(rows), events));
  }

  lemma {:induction false} RoomToBegin(w: World)
    requires Inv(w) && w.core.current == 0
    ensures FirstFree(w.core.slots) < |w.core.slots|
  {
    var slots := w.core.slots;
    if FirstFree(slots) == |slots| {
      forall i | 0 <= i < |slots| ensures Load(slots[i]) + AsIntent(slots[i]) >= 1 {
        assert SlotOk(slots[i], w.core.nextToken, w.core.current);
      }
      assert |Waiting(w)| <= 4;
      EverySlotCounts(slots);
      assert false;
    }
  }

  // ---- Intents are kept ----

  predicate Grown(s: Slot, r: Slot) {
    && r == s.(lastId := r.lastId, revision := s.revision + 1, round := 0) && r.lastId >= s.lastId
  }

  lemma {:induction false} FinalizeKeeps(slots: seq<Slot>, i: nat, k: nat)
    requires i < |slots| && k < |slots| && k != i && slots[k].used && slots[k].intent
    ensures Finalize(slots, i)[k] == slots[k] || Grown(slots[k], Finalize(slots, i)[k])
  {
  }

  predicate Keeps(slots: seq<Slot>, slots': seq<Slot>, k: nat)
    requires k < |slots|
  {
    |slots'| == |slots| && (slots'[k] == slots[k] || Grown(slots[k], slots'[k]))
  }

  lemma {:induction false} CloseKeeps(c: Core, k: nat)
    requires k < |c.slots| && Intent(c.slots[k]) && SlotOk(c.slots[k], c.nextToken, c.current)
    ensures Keeps(c.slots, GapModel.Close(c).slots, k)
  {
    var i := Find(c.slots, c.current);
    if i < |c.slots| { FinalizeKeeps(c.slots[i := c.slots[i].(closed := true)], i, k); }
  }

  lemma {:induction false} DoneKeeps(c: Core, token: nat, persisted: bool, k: nat)
    requires k < |c.slots| && Intent(c.slots[k])
    ensures Keeps(c.slots, GapModel.Done(c, token, persisted).slots, k)
  {
    var i := Find(c.slots, token);
    if i < |c.slots| && c.slots[i].processed < c.slots[i].accepted {
      FinalizeKeeps(c.slots[i := Processed(c.slots[i], persisted)], i, k);
    }
  }

  lemma {:induction false} BeginKeeps(c: Core, pn: string, rid: string, k: nat)
    requires k < |c.slots| && Intent(c.slots[k])
    ensures CanBegin(c, pn, rid) ==> Keeps(c.slots, GapModel.Begin(c, pn, rid).slots, k)
  {
  }

  lemma {:induction false} OpenKeeps(c: Core, token: nat, stored: int, k: nat)
    requires k < |c.slots| && Intent(c.slots[k])
    ensures Keeps(c.slots, Resume(c, token, stored).slots, k) && Keeps(c.slots, TakeId(c, token).slots, k)
    ensures Accepts(c, token, 0) ==> Keeps(c.slots, GapModel.Submit(c, token).slots, k)
  {
  }

  // Nothing but the poll takes an intent away or lowers what it promises.
  lemma {:induction false} OthersKeep(w: World, e: Event, k: nat)
    requires TableOk(w.core) && !OfPoll(e) && k < |w.core.slots| && Intent(w.core.slots[k])
    ensures Keeps(w.core.slots, Next(w, e).core.slots, k)
  {
    var c := w.core;
    match e
    case Begin(pn, rid, _) => BeginKeeps(c, pn, rid, k);
    case EndResume => if w.opening.Looked? && w.opening.found.Some? { OpenKeeps(c, w.opening.token, w.opening.found.value, k); }
    case Close =>
      assert SlotOk(c.slots[k], c.nextToken, c.current);
      CloseKeeps(c, k);
    case Submit(p) => OpenKeeps(c, p.token, 0, k);
    case Number => if w.worker.Holding? { OpenKeeps(c, w.worker.p.token, 0, k); }
    case Done => if w.worker.Stored? { DoneKeeps(c, w.worker.p.token, w.worker.persisted, k); }
    case _ =>
  }

  // A poll that is under way touches only the slot it came from.
  lemma {:induction false} WritesOne(c: Core, snap: Slot, answer: Option<seq<int>>, now: nat, k: nat)
    requires k < |c.slots|
    ensures forall d :: d in {RetryOf(c, snap, now), SendOver(c, snap, now), Sent(c, snap, now), Apply(c, snap, answer, now)} ==>
      |d.slots| == |c.slots| && (k != Still(c.slots, snap) ==> d.slots[k] == c.slots[k])
  {
  }

  lemma {:induction false} Writes(c: Core, snap: Slot, answer: Option<seq<int>>, now: nat)
    requires Still(c.slots, snap) < |c.slots|
    ensures var k := Still(c.slots, snap); var s := c.slots[k];
      && RetryOf(c, snap, now).slots[k] == Retry(s, now)
      && SendOver(c, snap, now).slots[k] == s.(phase := VERIFY, due := now + GAP_SETTLE_MS)
      && Sent(c, snap, now).slots[k] == s.(due := now + GAP_SEND_MS)
      && Apply(c, snap, answer, now).slots[k] == if c.running then s else AfterAnswer(s, snap, answer, now)
  {
  }

  // All a poll that is under way can make of the table.
  predicate Reachable(c: Core, d: Core, snap: Slot, answer: Option<seq<int>>, now: nat) {
    d == c || d in {RetryOf(c, snap, now), SendOver(c, snap, now), Sent(c, snap, now), Apply(c, snap, answer, now)}
  }

  lemma {:induction false} ReachOne(c: Core, d: Core, snap: Slot, answer: Option<seq<int>>, now: nat, k: nat)
    requires k < |c.slots| && Reachable(c, d, snap, answer, now)
    ensures |d.slots| == |c.slots| && d.nextToken == c.nextToken && d.trigger == c.trigger && d.current == c.current
    ensures var s := c.slots[k];
      d.slots[k] == s || (k == Still(c.slots, snap) &&
        d.slots[k] in {Retry(s, now), s.(phase := VERIFY, due := now + GAP_SETTLE_MS), s.(due := now + GAP_SEND_MS), AfterAnswer(s, snap, answer, now)})
  {
    if d != c {
      WritesOne(c, snap, answer, now, k);
      if k == Still(c.slots, snap) { Writes(c, snap, answer, now); }
    }
  }

  function AnswerOf(p: Poll): Option<seq<int>> { if p.Applying? then p.answer else None }

  function NowOf(e: Event): nat
    requires OfPoll(e)
  {
    if e.PollAsk? || e.PollAnswer? then 0 else e.now
  }

  lemma {:induction false} PollReaches(w: World, e: Event)
    requires OfPoll(e) && !e.PollStart? && !w.poll.Resting?
    ensures Reachable(w.core, Next(w, e).core, w.poll.snap, AnswerOf(w.poll), NowOf(e))
  {
    PollMoves(w, e);
  }

  predicate Rescheduled(s: Slot, r: Slot) { r == s.(trigger := r.trigger, round := r.round, phase := r.phase, due := r.due) }

  lemma {:induction false} StartKeeps(w: World, e: Event, k: nat)
    requires e.PollStart? && k < |w.core.slots|
    ensures |Next(w, e).core.slots| == |w.core.slots| && Rescheduled(w.core.slots[k], Next(w, e).core.slots[k])
  {
  }

  // How the poll's writes are distributed over its events.
  lemma {:induction false} PollActs(w: World, e: Event)
    requires OfPoll(e) && !e.PollStart? && !w.poll.Resting?
    ensures var v, c, snap := Next(w, e), w.core, w.poll.snap;
      && (v.core != c ==> !e.PollAsk? && !e.PollAnswer?)
      && (v.core != c && !e.PollApply? ==>
            v.core in {RetryOf(c, snap, e.now), Sent(c, snap, e.now)} || (w.poll.Sending? && v.core == SendOver(c, snap, e.now)))
      && (e.PollApply? && w.poll.Applying? ==> v.core == Apply(c, snap, w.poll.answer, e.now))
      && (e.PollApply? && !w.poll.Applying? ==> v.core == c)
  {
  }

  lemma {:induction false} PlainKeeps(c: Core, d: Core, snap: Slot, now: nat, k: nat)
    requires k < |c.slots| && c.slots[k].used
    requires d == c || d in {RetryOf(c, snap, now), SendOver(c, snap, now), Sent(c, snap, now)}
    ensures d.slots[k].used
  {
  }

  lemma {:induction false} ApplyFrees(c: Core, snap: Slot, answer: Option<seq<int>>, now: nat, k: nat)
    requires k < |c.slots| && c.slots[k].used && !Apply(c, snap, answer, now).slots[k].used
    ensures answer == Some([])
  {
  }

  // Only an applied answer frees a slot.
  lemma {:induction false} OnlyAnswersFree(w: World, e: Event, k: nat)
    requires OfPoll(e) && !e.PollStart? && !w.poll.Resting? && k < |w.core.slots| && w.core.slots[k].used
    requires |Next(w, e).core.slots| == |w.core.slots| && !Next(w, e).core.slots[k].used
    ensures e.PollApply? && w.poll.Applying? && w.poll.answer == Some([])
  {
    PollActs(w, e);
    var d := Next(w, e).core;
    if e.PollApply? && w.poll.Applying? { ApplyFrees(w.core, w.poll.snap, w.poll.answer, e.now, k); }
    else { PlainKeeps(w.core, d, w.poll.snap, NowOf(e), k); }
  }

  // What the poll does to an intent: start a round, reschedule it, or free it.
  predicate PolledOn(w: World, e: Event, v: World, k: nat)
    requires k < |w.core.slots|
  {
    && |v.core.slots| == |w.core.slots|
    && (Rescheduled(w.core.slots[k], v.core.slots[k]) || (!v.core.slots[k].used && Answered(w, e, w.core.slots[k])))
  }

  lemma {:induction false} ReachKeeps(c: Core, d: Core, snap: Slot, answer: Option<seq<int>>, now: nat, k: nat)
    requires k < |c.slots| && Intent(c.slots[k]) && TableOk(c) && Fresh(c.slots, c.nextToken, snap) && Reachable(c, d, snap, answer, now)
    ensures |d.slots| == |c.slots| && (d.slots[k].used ==> Rescheduled(c.slots[k], d.slots[k]))
    ensures !d.slots[k].used ==> SameKey(snap, c.slots[k]) && snap.lastId == c.slots[k].lastId
  {
    ReachOne(c, d, snap, answer, now, k);
    StillIntent(c, snap);
  }

  lemma {:induction false} UnderwayKeeps(w: World, e: Event, k: nat)
    requires Inv(w) && OfPoll(e) && !e.PollStart? && !w.poll.Resting? && k < |w.core.slots| && Intent(w.core.slots[k])
    ensures PolledOn(w, e, Next(w, e), k)
  {
    PollReaches(w, e);
    ReachKeeps(w.core, Next(w, e).core, w.poll.snap, AnswerOf(w.poll), NowOf(e), k);
    if !Next(w, e).core.slots[k].used { OnlyAnswersFree(w, e, k); }
  }

  lemma {:induction false} PollKeeps(w: World, e: Event, k: nat)
    requires Inv(w) && OfPoll(e) && k < |w.core.slots| && Intent(w.core.slots[k])
    ensures PolledOn(w, e, Next(w, e), k)
  {
    if e.PollStart? {
      StartKeeps(w, e, k);
    } else if !w.poll.Resting? {
      UnderwayKeeps(w, e, k);
    }
  }

  // The server said that nothing is missing up to the last number of this session.
  predicate Answered(w: World, e: Event, s: Slot) {
    && e.PollApply? && w.poll.Applying? && w.poll.answer == Some([])
    && SameKey(w.poll.snap, s) && w.poll.snap.lastId == s.lastId
  }

  // An intent leaves the table only when the server answered, for this session and its
  // last number as it stands at that moment, that nothing is missing. Otherwise it stays
  // in its slot and promises at least as much.
  lemma {:induction false} IntentKeptOrAnswered(rows: set<Row>, events: seq<Event>, e: Event, k: nat)
    ensures var w, v := Run(Boot(rows), events), Next(Run(Boot(rows), events), e);
      k < |w.core.slots| && Intent(w.core.slots[k]) ==>
        var s := w.core.slots[k];
        |v.core.slots| == |w.core.slots| &&
        ((Intent(v.core.slots[k]) && SameKey(v.core.slots[k], s) && v.core.slots[k].lastId >= s.lastId) || Answered(w, e, s))
  {
    RunOk(rows, events);
    KeptOrAnswered(Run(Boot(rows), events), e, k);
  }

  lemma {:induction false} KeptOrAnswered(w: World, e: Event, k: nat)
    requires Inv(w)
    ensures var v := Next(w, e);
      k < |w.core.slots| && Intent(w.core.slots[k]) ==>
        var s := w.core.slots[k];
        |v.core.slots| == |w.core.slots| &&
        ((Intent(v.core.slots[k]) && SameKey(v.core.slots[k], s) && v.core.slots[k].lastId >= s.lastId) || Answered(w, e, s))
  {
    if k < |w.core.slots| && Intent(w.core.slots[k]) {
      if OfPoll(e) { PollKeeps(w, e, k); } else { OthersKeep(w, e, k); }
    }
  }

  // The answer applied is the one that came back for the snapshot asked about.
  lemma {:induction false} AnswerBelongs(w: World, e: Event)
    requires Next(w, e).poll.Applying?
    ensures w.poll == Next(w, e).poll || (e.PollAnswer? && w.poll == Asking(Next(w, e).poll.snap) && e.answer == Next(w, e).poll.answer)
  {
  }

  // At most sixteen intents, no two for the same session.
  lemma {:induction false} IntentsDistinct(rows: set<Row>, events: seq<Event>)
    ensures var slots := Run(Boot(rows), events).core.slots;
      && Pending(slots) <= GAP_PENDING_MAX
      && forall i, j :: 0 <= i < j < |slots| && slots[i].used && slots[i].intent && slots[j].used && slots[j].intent ==> !SameKey(slots[i], slots[j])
  {
    RunOk(rows, events);
    var slots := Run(Boot(rows), events).core.slots;
    forall i, j | 0 <= i < j < |slots| && slots[i].used && slots[i].intent && slots[j].used && slots[j].intent
      ensures !SameKey(slots[i], slots[j]) { assert Apart(slots[i], slots[j]); }
  }
}
