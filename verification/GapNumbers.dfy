// Sample numbers: those handed out in one session are consecutive and never repeat.
module GapNumbers {
  import opened GapModel
  import opened Options
  import opened GapWorld
  import opened GapSafety

  // ---- Histories along a run ----

  ghost function IssuedBy(w: World, e: Event): seq<(nat, int)> {
    if e.Number? && w.worker.Holding? && NextId(w.core, w.worker.p.token) != -1
    then [(w.worker.p.token, NextId(w.core, w.worker.p.token))] else []
  }

  // Every number handed out, with the session it went to.
  ghost function Issued(rows: set<Row>, events: seq<Event>): seq<(nat, int)> {
    if events == [] then []
    else Issued(rows, events[..|events| - 1]) + IssuedBy(Run(Boot(rows), events[..|events| - 1]), events[|events| - 1])
  }

  function IdsOf(issued: seq<(nat, int)>, token: nat): seq<int> {
    if issued == [] then []
    else IdsOf(issued[..|issued| - 1], token) + if issued[|issued| - 1].0 == token then [issued[|issued| - 1].1] else []
  }

  // ---- Consecutive ----

  // Numbers already handed out, as the slot sees them.
  predicate Counted(s: Slot, ids: seq<int>) {
    s.used ==> s.nextId >= 0 && (ids != [] ==> ids[|ids| - 1] == s.nextId - 1)
  }

  predicate Consecutive(ids: seq<int>) {
    forall k :: 0 <= k < |ids| ==> ids[k] == ids[0] + k && 0 <= ids[k] < INT_MAX
  }

  // A session being opened has no samples yet.
  predicate Unsampled(s: Slot, opening: Opening) {
    !opening.Settled? && s.used && s.token == opening.token ==> s.accepted == 0
  }

  ghost predicate Histories(w: World, issued: seq<(nat, int)>) {
    && Natural(w.rows)
    && (w.opening.Looked? && w.opening.found.Some? ==> w.opening.found.value >= 0)
    && (!w.opening.Settled? ==> 0 < w.opening.token <= w.core.nextToken && IdsOf(issued, w.opening.token) == [])
    && (forall t :: t > w.core.nextToken ==> IdsOf(issued, t) == [])
    && (forall t :: Consecutive(IdsOf(issued, t)))
  }

  predicate SlotNumbers(w: World, issued: seq<(nat, int)>) {
    forall i :: 0 <= i < |w.core.slots| ==>
      Counted(w.core.slots[i], IdsOf(issued, w.core.slots[i].token)) && Unsampled(w.core.slots[i], w.opening)
  }

  ghost predicate Numbers(w: World, issued: seq<(nat, int)>) { Histories(w, issued) && SlotNumbers(w, issued) }

  // Slots keep their number, except at the worker's request and at the end of a resume.
  predicate SameNumber(c: Core, d: Core, k: nat)
    requires k < |c.slots|
  {
    && |d.slots| == |c.slots|
    && var s, r := c.slots[k], d.slots[k];
       r.used ==> || (s.used && r.token == s.token && SameKey(r, s) && (s.intent ==> r.intent)
                      && r.nextId == s.nextId && r.accepted == s.accepted)
                  || (r.token > c.nextToken && r.nextId == 0 && r.accepted == 0)
  }

  lemma {:induction false} FinalizeNumber(c: Core, slots: seq<Slot>, i: nat, k: nat)
    requires |slots| == |c.slots| && k < |slots| && i < |slots|
    requires forall j :: 0 <= j < |slots| && slots[j].used ==>
      c.slots[j].used && c.slots[j].token == slots[j].token && SameKey(c.slots[j], slots[j])
      && c.slots[j].intent == slots[j].intent && c.slots[j].nextId == slots[j].nextId && c.slots[j].accepted == slots[j].accepted
    ensures SameNumber(c, c.(slots := Finalize(slots, i)), k)
  {
  }

  lemma {:induction false} CloseNumber(c: Core, k: nat)
    requires k < |c.slots|
    ensures SameNumber(c, GapModel.Close(c), k)
  {
    var i := Find(c.slots, c.current);
    if i < |c.slots| { FinalizeNumber(c, c.slots[i := c.slots[i].(closed := true)], i, k); }
  }

  lemma {:induction false} DoneNumber(c: Core, token: nat, persisted: bool, k: nat)
    requires k < |c.slots|
    ensures SameNumber(c, GapModel.Done(c, token, persisted), k)
  {
    var i := Find(c.slots, token);
    if i < |c.slots| {
      var slots := c.slots[i := Processed(c.slots[i], persisted)];
      assert SameKey(slots[i], c.slots[i]) && slots[i].intent == c.slots[i].intent && slots[i].nextId == c.slots[i].nextId && slots[i].accepted == c.slots[i].accepted;
      FinalizeNumber(c, slots, i, k);
    }
  }

  lemma {:induction false} PollCoreNumber(c: Core, d: Core, snap: Slot, answer: Option<seq<int>>, now: nat, k: nat)
    requires k < |c.slots|
    requires d == c || d in {RetryOf(c, snap, now), SendOver(c, snap, now), Sent(c, snap, now), Apply(c, snap, answer, now)}
    ensures SameNumber(c, d, k)
  {
  }

  lemma {:induction false} StartNumber(w: World, e: Event, k: nat)
    requires e.PollStart? && k < |w.core.slots|
    ensures SameNumber(w.core, Next(w, e).core, k)
  {
  }

  lemma {:induction false} PollNumber(w: World, e: Event, k: nat)
    requires OfPoll(e) && k < |w.core.slots|
    ensures SameNumber(w.core, Next(w, e).core, k)
  {
    if e.PollStart? {
      StartNumber(w, e, k);
    } else {
      var c, d := w.core, Next(w, e).core;
      if w.poll.Resting? || d == c {
        assert d == c;
      } else {
        PollMoves(w, e);
        PollCoreNumber(c, d, w.poll.snap, if w.poll.Applying? then w.poll.answer else None, e.now, k);
      }
    }
  }

  lemma {:induction false} KeepNumber(w: World, e: Event, k: nat)
    requires k < |w.core.slots| && !e.Number? && !e.EndResume? && !e.Submit?
    ensures SameNumber(w.core, Next(w, e).core, k)
  {
    match e
    case Close => CloseNumber(w.core, k);
    case Done => if w.worker.Stored? { DoneNumber(w.core, w.worker.p.token, w.worker.persisted, k); }
    case _ => if OfPoll(e) { PollNumber(w, e, k); }
  }

  lemma {:induction false} IdsAppend(issued: seq<(nat, int)>, x: (nat, int), t: nat)
    ensures IdsOf(issued + [x], t) == IdsOf(issued, t) + if x.0 == t then [x.1] else []
  {
    assert (issued + [x])[..|issued|] == issued;
  }

  lemma {:induction false} PollLeaves(w: World, e: Event)
    requires OfPoll(e)
    ensures var v := Next(w, e);
      v.rows == w.rows && v.opening == w.opening && v.core.nextToken == w.core.nextToken
  {
    if !w.poll.Resting? && !e.PollStart? { PollMoves(w, e); }
  }

  lemma {:induction false} LookHistories(w: World, issued: seq<(nat, int)>)
    requires Histories(w, issued)
    ensures Histories(Next(w, Look), issued)
  {
    if w.opening.Looking? {
      var o := w.opening;
      var found := Lookup(w.rows, o.pn, o.rid);
      if found.Some? { assert Row(o.pn, o.rid, found.value) in w.rows; }
    }
  }

  // The session being opened changes only to a new one or to none.
  lemma {:induction false} KeepHistories(w: World, e: Event, issued: seq<(nat, int)>)
    requires Histories(w, issued) && !e.Number? && !e.EndResume? && !e.Submit?
    ensures var v := Next(w, e);
      && Histories(v, issued) && v.core.nextToken >= w.core.nextToken
      && (v.opening.Settled? || v.opening.token > w.core.nextToken || (!w.opening.Settled? && v.opening.token == w.opening.token))
  {
    if OfPoll(e) {
      PollLeaves(w, e);
    } else if e.Look? {
      LookHistories(w, issued);
    }
  }

  lemma {:induction false} KeepSlot(c: Core, d: Core, o: Opening, p: Opening, issued: seq<(nat, int)>, k: nat)
    requires k < |c.slots| && SameNumber(c, d, k) && SlotOk(c.slots[k], c.nextToken, c.current)
    requires Counted(c.slots[k], IdsOf(issued, c.slots[k].token)) && Unsampled(c.slots[k], o)
    requires forall t :: t > c.nextToken ==> IdsOf(issued, t) == []
    requires p.Settled? || p.token > c.nextToken || (!o.Settled? && p.token == o.token)
    ensures Counted(d.slots[k], IdsOf(issued, d.slots[k].token)) && Unsampled(d.slots[k], p)
  {
  }

  lemma {:induction false} KeepNumbers(w: World, e: Event, issued: seq<(nat, int)>)
    requires TableOk(w.core) && Numbers(w, issued) && !e.Number? && !e.EndResume? && !e.Submit?
    ensures Numbers(Next(w, e), issued)
  {
    var c, d := w.core, Next(w, e).core;
    KeepHistories(w, e, issued);
    KeepNumber(w, e, 0);
    forall k | 0 <= k < |c.slots|
      ensures Counted(d.slots[k], IdsOf(issued, d.slots[k].token)) && Unsampled(d.slots[k], Next(w, e).opening) {
      KeepNumber(w, e, k);
      KeepSlot(c, d, w.opening, Next(w, e).opening, issued, k);
    }
  }

  lemma {:induction false} ResumeNumbers(w: World, issued: seq<(nat, int)>)
    requires TableOk(w.core) && Numbers(w, issued)
    ensures Numbers(Next(w, EndResume), issued)
  {
    if w.opening.Looked? && w.opening.found.Some? {
      var c, t, m := w.core, w.opening.token, w.opening.found.value;
      var i, d := Find(c.slots, t), Resume(c, t, m);
      forall k | 0 <= k < |c.slots| ensures Counted(d.slots[k], IdsOf(issued, d.slots[k].token)) {
        assert Counted(c.slots[k], IdsOf(issued, c.slots[k].token));
      }
    }
  }

  lemma {:induction false} SubmitNumbers(w: World, p: Packet, issued: seq<(nat, int)>)
    requires TableOk(w.core) && Numbers(w, issued)
    ensures Numbers(Next(w, Submit(p)), issued)
  {
    var c, v := w.core, Next(w, Submit(p));
    forall k | 0 <= k < |c.slots|
      ensures Counted(v.core.slots[k], IdsOf(issued, v.core.slots[k].token)) && Unsampled(v.core.slots[k], w.opening) {
      assert Counted(c.slots[k], IdsOf(issued, c.slots[k].token)) && Unsampled(c.slots[k], w.opening);
    }
  }

  lemma {:induction false} TakeHistories(w: World, issued: seq<(nat, int)>, t: nat, id: int)
    requires TableOk(w.core) && Numbers(w, issued) && id == NextId(w.core, t) != -1
    ensures Histories(w.(core := TakeId(w.core, t)), issued + [(t, id)])
    ensures forall u :: IdsOf(issued + [(t, id)], u) == IdsOf(issued, u) + if t == u then [id] else []
  {
    var c := w.core;
    var i := Find(c.slots, t);
    assert SlotOk(c.slots[i], c.nextToken, c.current);
    assert Counted(c.slots[i], IdsOf(issued, t)) && Unsampled(c.slots[i], w.opening);
    Extended(issued, (t, id), c.nextToken);
  }

  lemma {:induction false} TakeNumbers(w: World, issued: seq<(nat, int)>)
    requires TableOk(w.core) && Numbers(w, issued) && w.worker.Holding?
    ensures Numbers(Next(w, Number), issued + IssuedBy(w, Number))
  {
    var c, t := w.core, w.worker.p.token;
    var d, id := TakeId(c, t), NextId(c, t);
    var i := Find(c.slots, t);
    if i < |c.slots| { assert Counted(c.slots[i], IdsOf(issued, t)); }
    if id == -1 {
      assert issued + IssuedBy(w, Number) == issued;
    } else {
      var all := issued + [(t, id)];
      TakeHistories(w, issued, t, id);
      TokensDistinct(c.slots, c.nextToken, c.current);
      forall k | 0 <= k < |c.slots| ensures |d.slots| == |c.slots| && Counted(d.slots[k], IdsOf(all, d.slots[k].token)) && Unsampled(d.slots[k], w.opening) {
        TakeSlot(c, t, issued, all, w.opening, k);
      }
    }
  }

  lemma {:induction false} TakeSlot(c: Core, t: nat, issued: seq<(nat, int)>, all: seq<(nat, int)>, o: Opening, k: nat)
    requires Distinct(c.slots) && k < |c.slots| && NextId(c, t) != -1
    requires Counted(c.slots[k], IdsOf(issued, c.slots[k].token)) && Unsampled(c.slots[k], o)
    requires var u := c.slots[k].token; IdsOf(all, u) == IdsOf(issued, u) + if t == u then [NextId(c, t)] else []
    ensures var d := TakeId(c, t);
      |d.slots| == |c.slots| && Counted(d.slots[k], IdsOf(all, d.slots[k].token)) && Unsampled(d.slots[k], o)
  {
    var i := Find(c.slots, t);
    if k != i && c.slots[k].used { assert c.slots[k].token != t; }
  }

  lemma {:induction false} Extended(issued: seq<(nat, int)>, x: (nat, int), nextToken: nat)
    requires forall t :: t > nextToken ==> IdsOf(issued, t) == []
    requires forall t :: Consecutive(IdsOf(issued, t))
    requires x.0 <= nextToken && 0 <= x.1 < INT_MAX
    requires var ids := IdsOf(issued, x.0); ids != [] ==> ids[|ids| - 1] == x.1 - 1
    ensures forall t :: t > nextToken ==> IdsOf(issued + [x], t) == []
    ensures forall t :: Consecutive(IdsOf(issued + [x], t))
    ensures forall t :: IdsOf(issued + [x], t) == IdsOf(issued, t) + if x.0 == t then [x.1] else []
  {
    forall t: nat
      ensures Consecutive(IdsOf(issued + [x], t)) && IdsOf(issued + [x], t) == IdsOf(issued, t) + if x.0 == t then [x.1] else [] {
      IdsAppend(issued, x, t);
      assert Consecutive(IdsOf(issued, t));
    }
  }

  lemma {:induction false} NextNumbers(w: World, e: Event, issued: seq<(nat, int)>)
    requires TableOk(w.core) && Numbers(w, issued)
    ensures Numbers(Next(w, e), issued + IssuedBy(w, e))
  {
    if e.Number? && w.worker.Holding? {
      TakeNumbers(w, issued);
    } else {
      assert issued + IssuedBy(w, e) == issued;
      if e.EndResume? { ResumeNumbers(w, issued); }
      else if e.Submit? { SubmitNumbers(w, e.p, issued); }
      else if !e.Number? { KeepNumbers(w, e, issued); }
    }
  }

  lemma {:induction false} RunNumbers(rows: set<Row>, events: seq<Event>)
    requires Natural(rows)
    ensures Numbers(Run(Boot(rows), events), Issued(rows, events))
  {
    if events != [] {
      var before := events[..|events| - 1];
      RunNumbers(rows, before);
      RunOk(rows, before);
      NextNumbers(Run(Boot(rows), before), events[|events| - 1], Issued(rows, before));
    }
  }

  // The numbers of one session run on without a gap or a repeat, and stay below INT_MAX.
  lemma {:induction false} NumbersConsecutive(rows: set<Row>, events: seq<Event>, token: nat)
    requires Natural(rows)
    ensures var ids := IdsOf(Issued(rows, events), token);
      forall k :: 0 <= k < |ids| ==> ids[k] == ids[0] + k && 0 <= ids[k] < INT_MAX
  {
    RunNumbers(rows, events);
    assert Consecutive(IdsOf(Issued(rows, events), token));
  }
}
