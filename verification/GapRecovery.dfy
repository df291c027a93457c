// What becomes of a session when its last sample is settled, and of intents when a new
// trigger comes: samples that were stored are not forgotten.
module GapRecovery {
  import opened GapModel
  import opened Options
  import opened GapWorld
  import opened GapSafety
  import opened GapRetry
  import GapIntents
  import GapOverwrite
  import GapNumbers
  import GapCollision

  // ---- A finished session becomes an intent, joins one, or is dropped ----

  function Intents(slots: seq<Slot>): set<nat> {
    set k: nat | k < |slots| && slots[k].used && slots[k].intent
  }

  lemma {:induction false} PendingCounts(slots: seq<Slot>)
    ensures Pending(slots) == |Intents(slots)|
    decreases |Intents(slots)|
  {
    if k :| k in Intents(slots) {
      var rest := slots[k := FREE];
      assert Intents(rest) == Intents(slots) - {k};
      SumUpdate(AsIntent, slots, k, FREE);
      PendingCounts(rest);
    } else {
      forall k | 0 <= k < |slots| ensures AsIntent(slots[k]) == 0 { assert k !in Intents(slots); }
      SumNone(AsIntent, slots);
    }
  }

  predicate IntentFor(x: Slot, pn: string, rid: string) { x.used && x.intent && x.pn == pn && x.rid == rid }

  // The table has an intent of this record that reaches number n.
  predicate Covers(slots: seq<Slot>, pn: string, rid: string, n: int) {
    exists k :: 0 <= k < |slots| && IntentFor(slots[k], pn, rid) && slots[k].lastId >= n
  }

  predicate Room(slots: seq<Slot>, pn: string, rid: string) {
    (exists k :: 0 <= k < |slots| && IntentFor(slots[k], pn, rid)) || |Intents(slots)| < 16
  }

  predicate Worth(s: Slot) { s.persisted > 0 && s.lastId >= 0 && s.rid != "" }

  // A session finished with stored samples, a number and a record id is recovered whenever
  // there is room; in every other case it is dropped, and only an intent that was there
  // before can cover it.
  lemma {:induction false} FinalizeRecovers(slots: seq<Slot>, i: nat)
    requires i < |slots| && slots[i].used && slots[i].closed && slots[i].accepted == slots[i].processed && !slots[i].intent
    ensures var s, d := slots[i], Finalize(slots, i);
      && |d| == |slots|
      && (Covers(d, s.pn, s.rid, s.lastId) <==> (Worth(s) && Room(slots, s.pn, s.rid)) || Covers(slots, s.pn, s.rid, s.lastId))
      && (!(Worth(s) && Room(slots, s.pn, s.rid)) ==> !d[i].used && forall k :: 0 <= k < |slots| && k != i ==> d[k] == slots[k])
  {
    var s, d := slots[i], Finalize(slots, i);
    var m := SameIntent(slots, s);
    PendingCounts(slots);
    if m < |slots| {
      assert IntentFor(slots[m], s.pn, s.rid);
      if Worth(s) { assert IntentFor(d[m], s.pn, s.rid) && d[m].lastId >= s.lastId; }
    } else {
      assert forall k :: 0 <= k < |slots| ==> !IntentFor(slots[k], s.pn, s.rid);
      if Worth(s) && |Intents(slots)| < 16 { assert IntentFor(d[i], s.pn, s.rid) && d[i].lastId >= s.lastId; }
    }
    if !Worth(s) || !Room(slots, s.pn, s.rid) {
      if Covers(slots, s.pn, s.rid, s.lastId) {
        var k :| 0 <= k < |slots| && IntentFor(slots[k], s.pn, s.rid) && slots[k].lastId >= s.lastId;
        assert d[k] == slots[k];
      }
    }
  }

  // With no intent to join, the session itself becomes one, to be started.
  lemma {:induction false} FinalizeIntends(slots: seq<Slot>, i: nat)
    requires i < |slots| && slots[i].used && slots[i].closed && slots[i].accepted == slots[i].processed && !slots[i].intent
    requires Worth(slots[i]) && |Intents(slots)| < 16 && forall j :: 0 <= j < |slots| ==> !IntentFor(slots[j], slots[i].pn, slots[i].rid)
    ensures Finalize(slots, i) == slots[i := slots[i].(intent := true, revision := slots[i].revision + 1, round := 0)]
  {
    PendingCounts(slots);
    var m := SameIntent(slots, slots[i]);
    if m < |slots| { assert IntentFor(slots[m], slots[i].pn, slots[i].rid); }
  }

  // An intent it joins is started anew and reaches the higher of the two last numbers.
  lemma {:induction false} FinalizeJoins(slots: seq<Slot>, i: nat, k: nat)
    requires i < |slots| && slots[i].used && slots[i].closed && slots[i].accepted == slots[i].processed && !slots[i].intent
    requires Worth(slots[i]) && k < |slots| && IntentFor(slots[k], slots[i].pn, slots[i].rid)
    requires forall j :: 0 <= j < |slots| && j != k ==> !IntentFor(slots[j], slots[i].pn, slots[i].rid)
    ensures var s, o, r := slots[i], slots[k], Finalize(slots, i)[k];
      && r.lastId == (if o.lastId < s.lastId then s.lastId else o.lastId) && r.revision == o.revision + 1 && r.round == 0
      && !Finalize(slots, i)[i].used
  {
    assert SameIntent(slots, slots[i]) == k;
  }

  // ---- What a run has stored for a session ----

  // The sessions with something stored: a sample settled as stored, or rows found on resume.
  ghost function CreditBy(w: World, e: Event): set<nat> {
    if e.Done? && w.worker.Stored? && w.worker.persisted then {w.worker.p.token}
    else if e.EndResume? && w.opening.Looked? && w.opening.found.Some? then {w.opening.token}
    else {}
  }

  ghost function Credited(rows: set<Row>, events: seq<Event>): set<nat> {
    if events == [] then {}
    else
      var k := |events| - 1;
      Credited(rows, events[..k]) + CreditBy(Run(Boot(rows), events[..k]), events[k])
  }

  // A sample written to the database counts for its session once it is settled.
  lemma {:induction false} StoredCounts(w: World, ok: bool)
    requires w.worker.Numbered?
    ensures var v := Next(w, Store(ok));
      && CreditBy(v, Done) == (if ok && w.worker.id >= 0 then {w.worker.p.token} else {})
      && v.rows == w.rows + (if ok && w.worker.id >= 0 then {Row(w.worker.p.pn, w.worker.p.rid, w.worker.id)} else {})
  {
  }

  // The last number of a session: handed to the worker, or found on resume; -1 before.
  ghost function LastBy(w: World, e: Event, t: nat, last: int): int {
    var v := Next(w, e);
    if e.Number? && w.worker.Holding? && w.worker.p.token == t && v.worker.Numbered? && v.worker.id != -1 then v.worker.id
    else if e.EndResume? && w.opening.Looked? && w.opening.token == t && w.opening.found.Some? then w.opening.found.value
    else last
  }

  ghost function Last(rows: set<Row>, events: seq<Event>, t: nat): int {
    if events == [] then -1
    else
      var k := |events| - 1;
      LastBy(Run(Boot(rows), events[..k]), events[k], t, Last(rows, events[..k], t))
  }

  // A session in the table that is no intent yet shows both.
  predicate Shows(s: Slot, credited: set<nat>, last: int) {
    s.used && !s.intent ==> (s.persisted > 0 <==> s.token in credited) && s.lastId == last
  }

  ghost predicate Shown(w: World, rows: set<Row>, events: seq<Event>) {
    && (forall k :: 0 <= k < |w.core.slots| ==> Shows(w.core.slots[k], Credited(rows, events), Last(rows, events, w.core.slots[k].token)))
    && (forall t: nat :: t > w.core.nextToken ==> t !in Credited(rows, events) && Last(rows, events, t) == -1)
  }

  // A session that is no intent after an event was none before and is as it was, or is new.
  predicate LiveKept(c: Core, d: Core, k: nat) {
    && k < |c.slots| == |d.slots|
    && (d.slots[k].used && !d.slots[k].intent ==>
          || (c.slots[k].used && !c.slots[k].intent && d.slots[k] == c.slots[k].(closed := d.slots[k].closed, accepted := d.slots[k].accepted))
          || (d.slots[k].token == c.nextToken + 1 == d.nextToken && d.slots[k].persisted == 0 && d.slots[k].lastId == -1))
  }

  // A poll under way writes intents only, and no trigger.
  lemma {:induction false} ReachLive(c: Core, d: Core, snap: Slot, answer: Option<seq<int>>, now: nat, k: nat)
    requires GapIntents.Reachable(c, d, snap, answer, now) && k < |c.slots|
    requires k == Still(c.slots, snap) ==> c.slots[k].intent
    ensures LiveKept(c, d, k)
  {
    GapIntents.ReachOne(c, d, snap, answer, now, k);
  }

  lemma {:induction false} ReachTrigger(c: Core, d: Core, snap: Slot, answer: Option<seq<int>>, now: nat, k: nat)
    requires GapIntents.Reachable(c, d, snap, answer, now) && k < |c.slots|
    ensures TriggerKept(c, d, k)
  {
    GapIntents.ReachOne(c, d, snap, answer, now, k);
  }

  lemma {:induction false} PollLive(w: World, e: Event, k: nat)
    requires Inv(w) && OfPoll(e) && k < |w.core.slots|
    ensures LiveKept(w.core, Next(w, e).core, k)
  {
    if e.PollStart? {
      GapIntents.StartKeeps(w, e, k);
      StartLive(w, e, k);
    } else if !w.poll.Resting? {
      GapIntents.PollReaches(w, e);
      StillIntent(w.core, w.poll.snap);
      ReachLive(w.core, Next(w, e).core, w.poll.snap, GapIntents.AnswerOf(w.poll), GapIntents.NowOf(e), k);
    }
  }

  lemma {:induction false} StartLive(w: World, e: Event, k: nat)
    requires e.PollStart? && k < |w.core.slots|
    ensures LiveKept(w.core, Next(w, e).core, k)
  {
  }

  lemma {:induction false} CloseLive(c: Core, k: nat)
    requires k < |c.slots|
    ensures LiveKept(c, GapModel.Close(c), k)
  {
    var i := Find(c.slots, c.current);
    if i < |c.slots| && i != k && !c.slots[k].intent { GapOverwrite.FinalizeOther(c.slots[i := c.slots[i].(closed := true)], i, k); }
  }

  lemma {:induction false} DoneLive(c: Core, token: nat, persisted: bool, k: nat)
    requires k < |c.slots| && !(c.slots[k].used && c.slots[k].token == token)
    ensures LiveKept(c, GapModel.Done(c, token, persisted), k)
  {
    var i := Find(c.slots, token);
    if i < |c.slots| && c.slots[i].processed < c.slots[i].accepted && !c.slots[k].intent {
      GapOverwrite.FinalizeOther(c.slots[i := Processed(c.slots[i], persisted)], i, k);
    }
  }

  lemma {:induction false} BeginLive(c: Core, pn: string, rid: string, k: nat)
    requires k < |c.slots|
    ensures CanBegin(c, pn, rid) ==> LiveKept(c, GapModel.Begin(c, pn, rid), k)
  {
  }

  lemma {:induction false} SubmitLive(c: Core, token: nat, k: nat)
    requires k < |c.slots|
    ensures Accepts(c, token, 0) ==> LiveKept(c, GapModel.Submit(c, token), k)
  {
  }

  lemma {:induction false} EventLive(w: World, e: Event, k: nat)
    requires Inv(w) && k < |w.core.slots| && !e.Number? && !e.EndResume?
    requires e.Done? && w.worker.Stored? ==> !(w.core.slots[k].used && w.core.slots[k].token == w.worker.p.token)
    ensures LiveKept(w.core, Next(w, e).core, k)
  {
    match e
    case Begin(pn, rid, _) => BeginLive(w.core, pn, rid, k);
    case Close => CloseLive(w.core, k);
    case Submit(p) => SubmitLive(w.core, p.token, k);
    case Done => if w.worker.Stored? { DoneLive(w.core, w.worker.p.token, w.worker.persisted, k); }
    case _ => if OfPoll(e) { PollLive(w, e, k); }
  }

  // The settled session itself, as long as it is no intent.
  lemma {:induction false} DoneOwn(c: Core, token: nat, persisted: bool, k: nat)
    requires TableOk(c) && k < |c.slots| && c.slots[k].used && c.slots[k].token == token && !c.slots[k].intent
    ensures var d := GapModel.Done(c, token, persisted);
      |d.slots| == |c.slots| && (d.slots[k].used && !d.slots[k].intent ==>
        d.slots[k].token == token && d.slots[k].lastId == c.slots[k].lastId
        && (c.slots[k].processed < c.slots[k].accepted ==> (d.slots[k].persisted > 0 <==> c.slots[k].persisted > 0 || persisted)))
  {
    TokensDistinct(c.slots, c.nextToken, c.current);
  }

  lemma {:induction false} OneKept(c: Core, d: Core, k: nat, a: set<nat>, b: set<nat>, m: int, n: int)
    requires LiveKept(c, d, k) && c.nextToken <= d.nextToken && Shows(c.slots[k], a, m)
    requires d.slots[k].used && !d.slots[k].intent ==> (d.slots[k].token in b <==> d.slots[k].token in a)
    requires d.slots[k].used && !d.slots[k].intent ==> n == (if d.slots[k].token > c.nextToken then -1 else m)
    requires d.slots[k].token > c.nextToken ==> d.slots[k].token !in a
    requires c.slots[k].used ==> c.slots[k].token <= c.nextToken
    ensures Shows(d.slots[k], b, n)
  {
  }

  // Handing out a number, and the slot it is for.
  lemma {:induction false} NumberShows(c: Core, token: nat, credited: set<nat>, k: nat, last: int)
    requires TableOk(c) && k < |c.slots| && Shows(c.slots[k], credited, last)
    requires forall j :: 0 <= j < |c.slots| && c.slots[j].used ==> c.slots[j].nextId >= 0
    ensures var d := TakeId(c, token); var n := NextId(c, token);
      |d.slots| == |c.slots| && d.slots[k].token == c.slots[k].token
      && Shows(d.slots[k], credited, if token == c.slots[k].token && n != -1 then n else last)
  {
    TokensDistinct(c.slots, c.nextToken, c.current);
  }

  // The end of a resume, while its session is in the table.
  lemma {:induction false} ResumeShows(c: Core, o: Opening, credited: set<nat>, k: nat, last: int)
    requires TableOk(c) && GapOverwrite.OpeningOk(c.slots, c.nextToken, o) && o.Looked? && o.found.Some?
    requires k < |c.slots| && Shows(c.slots[k], credited, last)
    ensures var d := Resume(c, o.token, o.found.value);
      |d.slots| == |c.slots| && d.slots[k].token == c.slots[k].token
      && Shows(d.slots[k], credited + {o.token}, if o.token == c.slots[k].token then o.found.value else last)
  {
    TokensDistinct(c.slots, c.nextToken, c.current);
    assert SlotOk(c.slots[k], c.nextToken, c.current);
  }

  lemma {:induction false} NextNatural(rows: set<Row>, events: seq<Event>)
    requires Natural(rows)
    ensures var slots := Run(Boot(rows), events).core.slots; forall j :: 0 <= j < |slots| && slots[j].used ==> slots[j].nextId >= 0
  {
    GapNumbers.RunNumbers(rows, events);
    var slots := Run(Boot(rows), events).core.slots;
    forall j | 0 <= j < |slots| && slots[j].used ensures slots[j].nextId >= 0 {
      assert GapNumbers.Counted(slots[j], GapNumbers.IdsOf(GapNumbers.Issued(rows, events), slots[j].token));
    }
  }

  lemma {:induction false} NumberShown(w: World, rows: set<Row>, events: seq<Event>)
    requires Inv(w) && w == Run(Boot(rows), events) && Shown(w, rows, events) && Natural(rows) && w.worker.Holding?
    ensures Shown(Next(w, Number), rows, events + [Number])
  {
    var c, v, all, t := w.core, Next(w, Number), events + [Number], w.worker.p.token;
    assert all[..|all| - 1] == events;
    NextNatural(rows, events);
    GapOverwrite.AtWork(w);
    assert SlotOk(c.slots[Find(c.slots, t)], c.nextToken, c.current);
    forall k | 0 <= k < |v.core.slots| ensures Shows(v.core.slots[k], Credited(rows, all), Last(rows, all, v.core.slots[k].token)) {
      NumberShows(c, t, Credited(rows, events), k, Last(rows, events, c.slots[k].token));
    }
  }

  lemma {:induction false} ResumeShown(w: World, rows: set<Row>, events: seq<Event>)
    requires Inv(w) && w == Run(Boot(rows), events) && Shown(w, rows, events) && GapOverwrite.Steady(w)
    ensures Shown(Next(w, EndResume), rows, events + [EndResume])
  {
    var c, v, all, o := w.core, Next(w, EndResume), events + [EndResume], w.opening;
    assert all[..|all| - 1] == events;
    if o.Looked? && o.found.Some? {
      assert v.core.nextToken == c.nextToken;
      forall k | 0 <= k < |v.core.slots| ensures Shows(v.core.slots[k], Credited(rows, all), Last(rows, all, v.core.slots[k].token)) {
        ResumeShows(c, o, Credited(rows, events), k, Last(rows, events, c.slots[k].token));
      }
    }
  }

  lemma {:induction false} OtherShown(w: World, e: Event, rows: set<Row>, events: seq<Event>)
    requires Inv(w) && w == Run(Boot(rows), events) && Shown(w, rows, events) && !e.Number? && !e.EndResume?
    ensures Shown(Next(w, e), rows, events + [e])
  {
    var c, v, all := w.core, Next(w, e), events + [e];
    assert all[..|all| - 1] == events;
    TokenOrigin(w, e, 0);
    if e.Done? && w.worker.Stored? { SettledToken(w); }
    forall k | 0 <= k < |v.core.slots| ensures Shows(v.core.slots[k], Credited(rows, all), Last(rows, all, v.core.slots[k].token)) {
      TokenOrigin(w, e, k);
      assert SlotOk(c.slots[k], c.nextToken, c.current);
      var t := c.slots[k].token;
      if e.Done? && w.worker.Stored? && c.slots[k].used && t == w.worker.p.token {
        DoneOwn(c, t, w.worker.persisted, k);
      } else {
        EventLive(w, e, k);
        var u := v.core.slots[k].token;
        assert Last(rows, all, u) == Last(rows, events, u);
        OneKept(c, v.core, k, Credited(rows, events), Credited(rows, all), Last(rows, events, t), Last(rows, all, u));
      }
    }
  }

  // The sample being settled is of a session in the table that still counts on it.
  lemma {:induction false} SettledToken(w: World)
    requires Inv(w) && w.worker.Stored?
    ensures var t := w.worker.p.token; var i := Find(w.core.slots, t);
      t <= w.core.nextToken && i < |w.core.slots| && !w.core.slots[i].intent && w.core.slots[i].processed < w.core.slots[i].accepted
    ensures Distinct(w.core.slots)
  {
    GapOverwrite.AtWork(w);
    TokensDistinct(w.core.slots, w.core.nextToken, w.core.current);
    assert SlotOk(w.core.slots[Find(w.core.slots, w.worker.p.token)], w.core.nextToken, w.core.current);
  }

  lemma {:induction false} IdleShown(w: World, rows: set<Row>, events: seq<Event>)
    requires w == Run(Boot(rows), events) && Shown(w, rows, events) && !w.worker.Holding?
    ensures Shown(Next(w, Number), rows, events + [Number])
  {
    var all := events + [Number];
    assert all[..|all| - 1] == events;
    IdleNumber(w);
    assert Credited(rows, all) == Credited(rows, events) + CreditBy(w, Number) == Credited(rows, events);
    forall t: nat ensures Last(rows, all, t) == Last(rows, events, t) {
      assert Last(rows, all, t) == LastBy(w, Number, t, Last(rows, events, t));
    }
  }

  lemma {:induction false} IdleNumber(w: World)
    requires !w.worker.Holding?
    ensures Next(w, Number) == w && CreditBy(w, Number) == {} && forall t, last :: LastBy(w, Number, t, last) == last
  {
  }

  lemma {:induction false} NextShown(w: World, e: Event, rows: set<Row>, events: seq<Event>)
    requires Natural(rows) && w == Run(Boot(rows), events) && Shown(w, rows, events) && Inv(w) && GapOverwrite.Steady(w)
    ensures Shown(Next(w, e), rows, events + [e])
  {
    if e.Number? && w.worker.Holding? { NumberShown(w, rows, events); }
    else if e.Number? { IdleShown(w, rows, events); }
    else if e.EndResume? { ResumeShown(w, rows, events); }
    else { OtherShown(w, e, rows, events); }
  }

  // In every run, until a session is an intent its slot knows whether anything of it is
  // stored, and its last number.
  lemma {:induction false} RunShown(rows: set<Row>, events: seq<Event>)
    requires Natural(rows)
    ensures Shown(Run(Boot(rows), events), rows, events)
  {
    if events != [] {
      var before, e := events[..|events| - 1], events[|events| - 1];
      RunShown(rows, before);
      GapCollision.AlwaysSteady(rows, before);
      NextShown(Run(Boot(rows), before), e, rows, before);
      assert before + [e] == events;
    }
  }

  // ---- So it is recovered ----

  // The event after which the session in slot k has nothing more to come.
  predicate Finishes(w: World, e: Event, k: nat) {
    && k < |w.core.slots| && w.core.slots[k].used && !w.core.slots[k].intent
    && var s := w.core.slots[k];
       || (e.Close? && s.token == w.core.current && s.accepted == s.processed)
       || (e.Done? && w.worker.Stored? && w.worker.p.token == s.token && s.closed && s.processed + 1 == s.accepted)
  }

  ghost predicate StoredUpTo(rows: set<Row>, events: seq<Event>, t: nat, n: int) {
    t in Credited(rows, events) && n == Last(rows, events, t) && n >= 0
  }

  lemma {:induction false} CloseRecovers(c: Core, k: nat)
    requires TableOk(c) && k < |c.slots| && c.slots[k].used && !c.slots[k].intent
    requires c.slots[k].token == c.current && c.slots[k].accepted == c.slots[k].processed
    ensures var s, d := c.slots[k], GapModel.Close(c).slots;
      && |d| == |c.slots| && !(d[k].used && !d[k].intent)
      && (Covers(d, s.pn, s.rid, s.lastId) <==> (Worth(s) && Room(c.slots, s.pn, s.rid)) || Covers(c.slots, s.pn, s.rid, s.lastId))
  {
    TokensDistinct(c.slots, c.nextToken, c.current);
    FinishSlot(c.slots, k, c.slots[k].(closed := true));
  }

  lemma {:induction false} DoneRecovers(c: Core, persisted: bool, k: nat)
    requires TableOk(c) && k < |c.slots| && c.slots[k].used && !c.slots[k].intent
    requires c.slots[k].closed && c.slots[k].processed + 1 == c.slots[k].accepted
    ensures var s, d := c.slots[k], GapModel.Done(c, c.slots[k].token, persisted).slots;
      && |d| == |c.slots| && !(d[k].used && !d[k].intent)
      && (Covers(d, s.pn, s.rid, s.lastId) <==>
            (Worth(s.(persisted := s.persisted + if persisted then 1 else 0)) && Room(c.slots, s.pn, s.rid)) || Covers(c.slots, s.pn, s.rid, s.lastId))
  {
    TokensDistinct(c.slots, c.nextToken, c.current);
    FinishSlot(c.slots, k, Processed(c.slots[k], persisted));
  }

  // Closing a session or settling a sample of it changes no intent.
  lemma {:induction false} FinishSlot(slots: seq<Slot>, k: nat, s: Slot)
    requires k < |slots| && !slots[k].intent && slots[k].used
    requires s.used && s.closed && s.accepted == s.processed && !s.intent && s.pn == slots[k].pn && s.rid == slots[k].rid && s.lastId == slots[k].lastId
    ensures var d := Finalize(slots[k := s], k);
      && |d| == |slots| && !(d[k].used && !d[k].intent)
      && (Covers(d, s.pn, s.rid, s.lastId) <==> (Worth(s) && Room(slots, s.pn, s.rid)) || Covers(slots, s.pn, s.rid, s.lastId))
  {
    var a := slots[k := s];
    FinalizeRecovers(a, k);
    assert Intents(a) == Intents(slots);
    assert forall j :: 0 <= j < |slots| ==> (IntentFor(a[j], s.pn, s.rid) <==> IntentFor(slots[j], s.pn, s.rid)) && a[j].lastId == slots[j].lastId;
    assert Covers(slots, s.pn, s.rid, s.lastId) ==> Covers(a, s.pn, s.rid, s.lastId) by {
      if j :| 0 <= j < |slots| && IntentFor(slots[j], s.pn, s.rid) && slots[j].lastId >= s.lastId { assert IntentFor(a[j], s.pn, s.rid); }
    }
    assert Room(slots, s.pn, s.rid) ==> Room(a, s.pn, s.rid) by {
      if j :| 0 <= j < |slots| && IntentFor(slots[j], s.pn, s.rid) { assert IntentFor(a[j], s.pn, s.rid); }
    }
  }

  // In every run: when a session of which something is stored up to number n is finished,
  // its record has an intent reaching n, if and only if there is room for one. For any other
  // session only an intent that was there before reaches its last number.
  lemma {:induction false} FinishRecovers(rows: set<Row>, events: seq<Event>, e: Event, k: nat, n: int)
    requires Natural(rows) && Finishes(Run(Boot(rows), events), e, k)
    requires n == Last(rows, events + [e], Run(Boot(rows), events).core.slots[k].token)
    ensures var w, v := Run(Boot(rows), events), Next(Run(Boot(rows), events), e);
      var s := w.core.slots[k];
      && (Covers(v.core.slots, s.pn, s.rid, n) <==>
            (StoredUpTo(rows, events + [e], s.token, n) && s.rid != "" && Room(w.core.slots, s.pn, s.rid))
            || Covers(w.core.slots, s.pn, s.rid, n))
      && |v.core.slots| == |w.core.slots| && !(v.core.slots[k].used && !v.core.slots[k].intent)
  {
    var w, all := Run(Boot(rows), events), events + [e];
    assert all[..|all| - 1] == events;
    RunOk(rows, events);
    RunShown(rows, events);
    assert Shows(w.core.slots[k], Credited(rows, events), Last(rows, events, w.core.slots[k].token));
    if e.Close? { CloseRecovers(w.core, k); } else { DoneRecovers(w.core, w.worker.persisted, k); }
  }

  // ---- Until the server has everything ----

  predicate NoneMissing(w: World, e: Event, pn: string, rid: string, n: int) {
    && e.PollApply? && w.poll.Applying? && w.poll.answer == Some([])
    && w.poll.snap.pn == pn && w.poll.snap.rid == rid && w.poll.snap.lastId >= n
  }

  // Some event applies an answer "none missing" for this record, up to n or further.
  ghost predicate AnsweredFor(w: World, more: seq<Event>, pn: string, rid: string, n: int)
    decreases |more|
  {
    more != [] && (NoneMissing(w, more[0], pn, rid, n) || AnsweredFor(Next(w, more[0]), more[1..], pn, rid, n))
  }

  lemma {:induction false} CoveredOn(w: World, e: Event, pn: string, rid: string, n: int)
    requires Inv(w) && Covers(w.core.slots, pn, rid, n)
    ensures Covers(Next(w, e).core.slots, pn, rid, n) || NoneMissing(w, e, pn, rid, n)
  {
    var k :| 0 <= k < |w.core.slots| && IntentFor(w.core.slots[k], pn, rid) && w.core.slots[k].lastId >= n;
    assert SlotOk(w.core.slots[k], w.core.nextToken, w.core.current);
    GapIntents.KeptOrAnswered(w, e, k);
    if Intent(Next(w, e).core.slots[k]) { assert IntentFor(Next(w, e).core.slots[k], pn, rid) || NoneMissing(w, e, pn, rid, n); }
  }

  // Whatever happens after that, the record is covered up to n until such an answer.
  lemma {:induction false} CoveredUntilAnswered(w: World, more: seq<Event>, pn: string, rid: string, n: int)
    requires Inv(w) && Covers(w.core.slots, pn, rid, n)
    ensures Covers(GapCollision.From(w, more).core.slots, pn, rid, n) || AnsweredFor(w, more, pn, rid, n)
    decreases |more|
  {
    if more != [] {
      NextOk(w, more[0]);
      CoveredOn(w, more[0], pn, rid, n);
      if Covers(Next(w, more[0]).core.slots, pn, rid, n) { CoveredUntilAnswered(Next(w, more[0]), more[1..], pn, rid, n); }
    }
  }

  // A finished session's stored samples, from its last event on: an intent reaches them until
  // the server says that none is missing.
  lemma {:induction false} RecoveredOrAnswered(rows: set<Row>, events: seq<Event>, e: Event, k: nat, n: int, more: seq<Event>)
    requires Natural(rows) && Finishes(Run(Boot(rows), events), e, k)
    requires StoredUpTo(rows, events + [e], Run(Boot(rows), events).core.slots[k].token, n)
    ensures var w := Run(Boot(rows), events); var v, s := Next(w, e), w.core.slots[k];
      s.rid != "" && Room(w.core.slots, s.pn, s.rid) ==>
        Covers(Run(v, more).core.slots, s.pn, s.rid, n) || AnsweredFor(v, more, s.pn, s.rid, n)
  {
    var w := Run(Boot(rows), events);
    var v, s := Next(w, e), w.core.slots[k];
    if s.rid != "" && Room(w.core.slots, s.pn, s.rid) {
      FinishRecovers(rows, events, e, k, n);
      RunOk(rows, events);
      NextOk(w, e);
      GapCollision.RunFrom(v, more);
      CoveredUntilAnswered(v, more, s.pn, s.rid, n);
    }
  }

  // ---- A new trigger starts every intent again ----

  // No session is at the trigger yet.
  predicate Behind(c: Core) {
    c.trigger > 0 && forall k :: 0 <= k < |c.slots| && c.slots[k].used ==> c.slots[k].trigger < c.trigger
  }

  predicate UpToTrigger(c: Core) { forall k :: 0 <= k < |c.slots| && c.slots[k].used ==> c.slots[k].trigger <= c.trigger }

  // A trigger is never taken back.
  lemma {:induction false} TriggerGrows(w: World, e: Event)
    ensures Next(w, e).core.trigger >= w.core.trigger
  {
    if OfPoll(e) && !e.PollStart? && !w.poll.Resting? {
      GapIntents.PollReaches(w, e);
      GapIntents.PollActs(w, e);
    }
  }

  predicate TriggerKept(c: Core, d: Core, k: nat) {
    k < |c.slots| == |d.slots| && (d.slots[k].used ==> d.slots[k].trigger == 0 || (c.slots[k].used && d.slots[k].trigger == c.slots[k].trigger))
  }

  lemma {:induction false} TriggersKept(w: World, e: Event, k: nat)
    requires !e.PollStart? && k < |w.core.slots|
    ensures TriggerKept(w.core, Next(w, e).core, k)
  {
    if !OfPoll(e) {
      OthersOrigin(w, e, k);
    } else if !w.poll.Resting? {
      GapIntents.PollReaches(w, e);
      ReachTrigger(w.core, Next(w, e).core, w.poll.snap, GapIntents.AnswerOf(w.poll), GapIntents.NowOf(e), k);
    }
  }

  lemma {:induction false} StartTrigger(w: World, e: Event)
    requires e.PollStart? && UpToTrigger(w.core)
    ensures UpToTrigger(Next(w, e).core)
  {
  }

  lemma {:induction false} AllKept(c: Core, d: Core)
    requires |d.slots| == |c.slots| && d.trigger >= c.trigger && forall k :: 0 <= k < |c.slots| ==> TriggerKept(c, d, k)
    ensures UpToTrigger(c) ==> UpToTrigger(d)
    ensures Behind(c) ==> Behind(d)
  {
    forall k | 0 <= k < |d.slots| && d.slots[k].used
      ensures d.slots[k].trigger == 0 || (c.slots[k].used && d.slots[k].trigger == c.slots[k].trigger) { assert TriggerKept(c, d, k); }
  }

  lemma {:induction false} NextTrigger(w: World, e: Event)
    requires !e.PollStart? && |w.core.slots| > 0
    ensures UpToTrigger(w.core) ==> UpToTrigger(Next(w, e).core)
    ensures Behind(w.core) ==> Behind(Next(w, e).core)
  {
    TriggerGrows(w, e);
    TriggersKept(w, e, 0);
    forall k | 0 <= k < |w.core.slots| ensures TriggerKept(w.core, Next(w, e).core, k) { TriggersKept(w, e, k); }
    AllKept(w.core, Next(w, e).core);
  }

  lemma {:induction false} RunTrigger(rows: set<Row>, events: seq<Event>)
    ensures UpToTrigger(Run(Boot(rows), events).core)
  {
    if events != [] {
      var w, e := Run(Boot(rows), events[..|events| - 1]), events[|events| - 1];
      RunTrigger(rows, events[..|events| - 1]);
      RunOk(rows, events[..|events| - 1]);
      if e.PollStart? { StartTrigger(w, e); } else { NextTrigger(w, e); }
    }
  }

  // The tester stops, or the broker connection becomes ready.
  predicate Edge(w: World, e: Event) { (e.Idle? && w.core.running) || (e.Ready? && e.ready && !w.core.ready) }

  lemma {:induction false} EdgeBehind(w: World, e: Event)
    requires UpToTrigger(w.core) && Edge(w, e)
    ensures Behind(Next(w, e).core)
  {
  }

  lemma {:induction false} StaysBehind(w: World, more: seq<Event>)
    requires Inv(w) && Behind(w.core) && forall e :: e in more ==> !e.PollStart?
    ensures Behind(Run(w, more).core) && Inv(Run(w, more))
  {
    if more != [] {
      var v, e := Run(w, more[..|more| - 1]), more[|more| - 1];
      StaysBehind(w, more[..|more| - 1]);
      NextOk(v, e);
      NextTrigger(v, e);
    }
  }

  lemma {:induction false} StartsAll(w: World, now: nat)
    requires Behind(w.core) && w.poll.Resting? && w.core.ready && !w.core.running
    ensures var v := Next(w, PollStart(true, now));
      |v.core.slots| == |w.core.slots| && forall k :: 0 <= k < |w.core.slots| && w.core.slots[k].used && w.core.slots[k].intent ==>
        v.core.slots[k] == w.core.slots[k].(trigger := w.core.trigger, round := 1, phase := QUERY, due := now + 5000)
  {
  }

  // After the tester stops or the connection becomes ready, the first poll that can run
  // starts every intent with round one, whatever round it was in, parked ones included.
  lemma {:induction false} EdgeRestarts(rows: set<Row>, events: seq<Event>, e: Event, more: seq<Event>, now: nat)
    requires Edge(Run(Boot(rows), events), e) && forall x :: x in more ==> !x.PollStart?
    ensures var w := Run(Next(Run(Boot(rows), events), e), more); var v := Next(w, PollStart(true, now));
      w.poll.Resting? && w.core.ready && !w.core.running ==>
        |v.core.slots| == |w.core.slots| && forall k :: 0 <= k < |w.core.slots| && w.core.slots[k].used && w.core.slots[k].intent ==>
          v.core.slots[k] == w.core.slots[k].(trigger := w.core.trigger, round := 1, phase := QUERY, due := now + 5000)
  {
    var w := Run(Boot(rows), events);
    RunOk(rows, events);
    RunTrigger(rows, events);
    EdgeBehind(w, e);
    NextOk(w, e);
    StaysBehind(Next(w, e), more);
    var u := Run(Next(w, e), more);
    if u.poll.Resting? && u.core.ready && !u.core.running { StartsAll(u, now); }
  }
}
