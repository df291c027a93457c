// The numbers the server asks for: which list is sent, how far it got, and when an intent
// goes on to be verified.
module GapBatch {
  import opened GapModel
  import opened Options
  import opened GapWorld
  import opened GapSafety
  import opened GapRetry
  import GapIntents

  // ---- An answer, on the fields ----

  // The slot still holds the intent the poll copied.
  predicate Copied(s: Slot, snap: Slot) { s.used && s.token == snap.token && s.revision == snap.revision }

  predicate StillCopied(slots: seq<Slot>, snap: Slot) { exists k :: 0 <= k < |slots| && Copied(slots[k], snap) }

  lemma {:induction false} CopiedSlot(c: Core, snap: Slot, k: nat)
    requires TableOk(c) && k < |c.slots| && Copied(c.slots[k], snap)
    ensures Still(c.slots, snap) == k
  {
    TokensDistinct(c.slots, c.nextToken, c.current);
  }

  lemma {:induction false} NotCopied(c: Core, snap: Slot)
    ensures Still(c.slots, snap) < |c.slots| ==> Copied(c.slots[Still(c.slots, snap)], snap)
  {
  }

  // What an applied answer does to the intent asked about and to the list to be sent: the
  // numbers of a non-empty answer, from the first one on.
  lemma {:induction false} AnswerListed(rows: set<Row>, events: seq<Event>, now: nat, k: nat)
    ensures var w, v := Run(Boot(rows), events), Next(Run(Boot(rows), events), PollApply(now));
      w.poll.Applying? && k < |w.core.slots| && Copied(w.core.slots[k], w.poll.snap) && !w.core.running ==>
        var s, answer, asked := w.core.slots[k], w.poll.answer, w.poll.snap.phase;
        var later := now + if s.round == 1 then 10000 else 30000;
        && |v.core.slots| == |w.core.slots| && asked in {QUERY, VERIFY}
        && (answer == None ==> v.core.slots[k] == s.(round := s.round + 1, phase := QUERY, due := later) && v.work == w.work)
        && (answer == Some([]) ==> !v.core.slots[k].used)
        && (answer.Some? && answer.value != [] && asked == QUERY ==>
              v.core.slots[k] == s.(phase := SEND, due := now) && v.work.ids == answer.value && v.work.index == 0 && v.work.missing == 0)
        && (answer.Some? && answer.value != [] && asked == VERIFY && s.round < 3 ==>
              v.core.slots[k] == s.(round := s.round + 1, phase := SEND, due := later)
              && v.work.ids == answer.value && v.work.index == 0 && v.work.missing == 0)
        && (answer.Some? && answer.value != [] && asked == VERIFY && s.round >= 3 ==>
              v.core.slots[k] == s.(round := s.round + 1, phase := QUERY, due := later) && v.work == w.work)
  {
    RunOk(rows, events);
    RunRounds(rows, events);
    var w := Run(Boot(rows), events);
    if w.poll.Applying? && k < |w.core.slots| && Copied(w.core.slots[k], w.poll.snap) {
      CopiedSlot(w.core, w.poll.snap, k);
      GapIntents.Writes(w.core, w.poll.snap, w.poll.answer, now);
      assert w.poll.snap.phase != SEND;
      assert SnapOk(w.core.slots[k], w.poll.snap);
    }
  }

  // ---- The list of a session, along a run ----

  // The last list the server gave for a session at a revision: the numbers, those that have
  // been published or found gone, and whether another intent was taken up before the last.
  datatype Batch = NoBatch | Batch(revision: nat, ids: seq<int>, done: seq<int>, lost: bool)

  // An answer that gives a list.
  predicate Lists(w: World, e: Event) {
    && e.PollApply? && w.poll.Applying? && w.poll.answer.Some? && w.poll.answer.value != [] && !w.core.running
    && exists k :: 0 <= k < |w.core.slots| && Copied(w.core.slots[k], w.poll.snap) && (w.poll.snap.phase == QUERY || w.core.slots[k].round < 3)
  }

  // A number is published, or the database has no sample under it.
  predicate Passed(w: World, e: Event) {
    && w.work.index < |w.work.ids|
    && (|| (e.PollSend? && w.poll.Sending? && e.fetch == Gone)
        || (e.PollPublished? && w.poll.Publishing? && e.ok && StillCopied(w.core.slots, w.poll.snap)))
  }

  ghost predicate TakesUp(w: World, e: Event) { e.PollStart? && w.poll.Resting? && Next(w, e).poll.Chosen? }

  ghost function BatchBy(w: World, e: Event, t: nat, b: Batch): Batch {
    if Lists(w, e) && w.poll.snap.token == t then Batch(w.poll.snap.revision, w.poll.answer.value, [], false)
    else if b.NoBatch? then b
    else if Passed(w, e) && w.poll.snap.token == t && w.poll.snap.revision == b.revision then b.(done := b.done + [w.work.ids[w.work.index]])
    else if TakesUp(w, e) && (Next(w, e).poll.snap.token != t || Next(w, e).poll.snap.revision != b.revision) && |b.done| < |b.ids| then b.(lost := true)
    else b
  }

  ghost function BatchOf(rows: set<Row>, events: seq<Event>, t: nat): Batch {
    if events == [] then NoBatch
    else
      var k := |events| - 1;
      BatchBy(Run(Boot(rows), events[..k]), events[k], t, BatchOf(rows, events[..k], t))
  }

  // ---- The list in hand is the rest of it ----

  predicate Part(b: Batch) {
    b.Batch? && |b.done| <= |b.ids| && b.done == b.ids[..|b.done|] && (b.lost ==> |b.done| < |b.ids|)
  }

  predicate InHandOf(b: Batch, work: Work)
    requires b.Batch?
  {
    || (!b.lost && work.ids == b.ids && work.index == |b.done|)
    || (work.ids == [] && (b.lost || b.done == b.ids))
  }

  predicate InStep(s: Slot, work: Work, b: Batch) {
    s.used && s.phase == SEND && s.round >= 1 ==>
      && Part(b) && b.revision == s.revision
      && (if work.token == s.token && work.revision == s.revision then InHandOf(b, work) else b.lost || b.done == b.ids)
  }

  predicate PollWorks(w: World) {
    !w.poll.Resting? ==>
      && w.work.token == w.poll.snap.token && w.work.revision == w.poll.snap.revision
      && (w.poll.Publishing? ==> w.work.index < |w.work.ids|)
  }

  ghost predicate Batches(w: World, rows: set<Row>, events: seq<Event>) {
    PollWorks(w) && forall k :: 0 <= k < |w.core.slots| ==> InStep(w.core.slots[k], w.work, BatchOf(rows, events, w.core.slots[k].token))
  }

  lemma {:induction false} OthersStep(w: World, e: Event, k: nat, b: Batch)
    requires !OfPoll(e) && k < |w.core.slots| && InStep(w.core.slots[k], w.work, b)
    ensures var v := Next(w, e);
      |v.core.slots| == |w.core.slots| && v.work == w.work
      && (v.core.slots[k].token == w.core.slots[k].token || v.core.slots[k].round == 0 || !v.core.slots[k].used)
      && InStep(v.core.slots[k], v.work, b)
  {
    OthersOrigin(w, e, k);
  }

  // The chosen intent itself, or another.
  lemma {:induction false} PreparedStep(s: Slot, work: Work, b: Batch, snap: Slot)
    requires InStep(s, work, b) && (s == snap || s.token != snap.token)
    ensures var other := b.Batch? && (snap.token != s.token || snap.revision != b.revision) && |b.done| < |b.ids|;
      InStep(s, Prepared(work, snap), if other then b.(lost := true) else b)
  {
  }

  lemma {:induction false} StartBatch(w: World, e: Event, t: nat, b: Batch)
    requires e.PollStart?
    ensures BatchBy(w, e, t, b) ==
      if TakesUp(w, e) && b.Batch? && (Next(w, e).poll.snap.token != t || Next(w, e).poll.snap.revision != b.revision) && |b.done| < |b.ids|
      then b.(lost := true) else b
  {
  }

  // What a poll starts with: the refreshed table, and perhaps one of its intents.
  predicate StartsWith(w: World, v: World, now: nat) {
    var slots := RefreshAll(w.core.slots, w.core.trigger, now);
    && v.core.slots == slots
    && ((v.poll == w.poll && v.work == w.work)
        || exists i :: 0 <= i < |slots| && slots[i].used && v.poll == Chosen(slots[i]) && v.work == Prepared(w.work, slots[i]))
  }

  lemma {:induction false} StartEffect(w: World, e: Event)
    requires e.PollStart?
    ensures Next(w, e) == w || (w.poll.Resting? && StartsWith(w, Next(w, e), e.now))
  {
  }

  lemma {:induction false} RefreshStep(s: Slot, trigger: nat, now: nat, work: Work, b: Batch)
    requires InStep(s, work, b)
    ensures InStep(Refresh(s, trigger, now), work, b) && Refresh(s, trigger, now).token == s.token
  {
  }

  lemma {:induction false} StartStep(w: World, e: Event, k: nat, b: Batch)
    requires Inv(w) && e.PollStart? && k < |w.core.slots| && InStep(w.core.slots[k], w.work, b)
    ensures var v := Next(w, e);
      |v.core.slots| == |w.core.slots| && v.core.slots[k].token == w.core.slots[k].token
      && InStep(v.core.slots[k], v.work, BatchBy(w, e, w.core.slots[k].token, b))
  {
    var v, t := Next(w, e), w.core.slots[k].token;
    NextOk(w, e);
    TokensDistinct(v.core.slots, v.core.nextToken, v.core.current);
    StartEffect(w, e);
    StartBatch(w, e, t, b);
    if v != w {
      RefreshStep(w.core.slots[k], w.core.trigger, e.now, w.work, b);
      var s := v.core.slots[k];
      assert InStep(s, w.work, b);
      if v.poll != w.poll && s.used { PreparedStep(s, w.work, b, v.poll.snap); }
    }
  }

  // A slot that is not the intent copied.
  lemma {:induction false} OffStep(s: Slot, snap: Slot, work: Work, work': Work, b: Batch)
    requires InStep(s, work, b) && !Copied(s, snap)
    requires work.token == work'.token == snap.token && work.revision == work'.revision == snap.revision
    ensures InStep(s, work', b)
  {
  }

  lemma {:induction false} OffBatch(w: World, e: Event, k: nat, b: Batch)
    requires Inv(w) && k < |w.core.slots| && w.core.slots[k].used && !w.poll.Resting? && !e.PollStart? && !Copied(w.core.slots[k], w.poll.snap)
    requires b.Batch? ==> b.revision == w.core.slots[k].revision
    ensures BatchBy(w, e, w.core.slots[k].token, b) == b
  {
    TokensDistinct(w.core.slots, w.core.nextToken, w.core.current);
  }

  predicate ListKept(work: Work, work': Work) { work'.token == work.token && work'.revision == work.revision }

  lemma {:induction false} WorkKept(w: World, e: Event)
    requires OfPoll(e) && !e.PollStart?
    ensures ListKept(w.work, Next(w, e).work)
  {
  }

  lemma {:induction false} OffPollStep(w: World, e: Event, k: nat, b: Batch)
    requires Inv(w) && PollWorks(w) && OfPoll(e) && !e.PollStart? && !w.poll.Resting? && k < |w.core.slots|
    requires InStep(w.core.slots[k], w.work, b) && !Copied(w.core.slots[k], w.poll.snap)
    ensures var v := Next(w, e);
      |v.core.slots| == |w.core.slots| && v.core.slots[k] == w.core.slots[k]
      && InStep(v.core.slots[k], v.work, BatchBy(w, e, w.core.slots[k].token, b))
  {
    var v, s, snap := Next(w, e), w.core.slots[k], w.poll.snap;
    GapIntents.PollReaches(w, e);
    NotCopied(w.core, snap);
    GapIntents.ReachOne(w.core, v.core, snap, GapIntents.AnswerOf(w.poll), GapIntents.NowOf(e), k);
    WorkKept(w, e);
    OffStep(s, snap, w.work, v.work, b);
    if s.used && s.phase == SEND && s.round >= 1 { OffBatch(w, e, k, b); }
  }

  // The intent copied, on an answer.
  lemma {:induction false} AnswerStep(w: World, e: Event, k: nat, b: Batch)
    requires Inv(w) && Rounds(w) && PollWorks(w) && e.PollApply? && w.poll.Applying?
    requires k < |w.core.slots| && InStep(w.core.slots[k], w.work, b) && Copied(w.core.slots[k], w.poll.snap)
    ensures var v := Next(w, e);
      |v.core.slots| == |w.core.slots| && v.core.slots[k].token == w.core.slots[k].token
      && InStep(v.core.slots[k], v.work, BatchBy(w, e, w.core.slots[k].token, b))
  {
    var c, snap := w.core, w.poll.snap;
    CopiedSlot(c, snap, k);
    GapIntents.Writes(c, snap, w.poll.answer, e.now);
    assert SnapOk(c.slots[k], snap) && snap.phase != SEND;
    if Lists(w, e) { TokensDistinct(c.slots, c.nextToken, c.current); }
  }

  // The intent copied, on a step of sending: it waits, moves on by one number, or is over.
  predicate SendsOn(w: World, e: Event, v: World, k: nat) {
    && k < |w.core.slots| == |v.core.slots|
    && var s, r := w.core.slots[k], v.core.slots[k];
       && r.token == s.token
       && (|| (!Passed(w, e) && v.work == w.work && r == s)
           || (!Passed(w, e) && r.phase != SEND)
           || (Passed(w, e) && v.work == w.work.(missing := v.work.missing, index := w.work.index + 1) && r == s.(due := r.due)))
  }

  lemma {:induction false} RecordEffect(w: World, e: Event, k: nat)
    requires e.PollSend? && !w.poll.Resting? && k < |w.core.slots| && k == Still(w.core.slots, w.poll.snap)
    ensures SendsOn(w, e, Next(w, e), k)
  {
    GapIntents.Writes(w.core, w.poll.snap, None, e.now);
  }

  lemma {:induction false} PublishedEffect(w: World, e: Event, k: nat)
    requires e.PollPublished? && !w.poll.Resting? && k < |w.core.slots| && k == Still(w.core.slots, w.poll.snap)
    requires PollWorks(w) && Copied(w.core.slots[k], w.poll.snap)
    ensures SendsOn(w, e, Next(w, e), k)
  {
    GapIntents.Writes(w.core, w.poll.snap, None, e.now);
  }

  lemma {:induction false} WaitEffect(w: World, e: Event, k: nat)
    requires e.PollNoMemory? || e.PollAsk? || e.PollAnswer? || (e.PollApply? && !w.poll.Applying?)
    requires !w.poll.Resting? && k < |w.core.slots| && k == Still(w.core.slots, w.poll.snap)
    ensures SendsOn(w, e, Next(w, e), k)
  {
    if e.PollNoMemory? { GapIntents.Writes(w.core, w.poll.snap, None, e.now); }
  }

  lemma {:induction false} SendBatch(w: World, e: Event, t: nat, b: Batch)
    requires !e.PollStart? && !Lists(w, e)
    ensures BatchBy(w, e, t, b) ==
      if b.Batch? && Passed(w, e) && w.poll.snap.token == t && w.poll.snap.revision == b.revision
      then b.(done := b.done + [w.work.ids[w.work.index]]) else b
  {
  }

  lemma {:induction false} PassStep(s: Slot, due: nat, work: Work, missing: nat, b: Batch)
    requires InStep(s, work, b) && s.used && s.phase == SEND && s.round >= 1
    requires work.token == s.token && work.revision == s.revision && work.index < |work.ids|
    ensures InStep(s.(due := due), work.(missing := missing, index := work.index + 1), b.(done := b.done + [work.ids[work.index]]))
  {
  }

  lemma {:induction false} SendStep(w: World, e: Event, k: nat, b: Batch)
    requires Inv(w) && PollWorks(w) && OfPoll(e) && !e.PollStart? && !w.poll.Resting?
    requires e.PollApply? ==> !w.poll.Applying?
    requires k < |w.core.slots| && InStep(w.core.slots[k], w.work, b) && Copied(w.core.slots[k], w.poll.snap)
    ensures var v := Next(w, e);
      |v.core.slots| == |w.core.slots| && v.core.slots[k].token == w.core.slots[k].token
      && InStep(v.core.slots[k], v.work, BatchBy(w, e, w.core.slots[k].token, b))
  {
    var s, v := w.core.slots[k], Next(w, e);
    CopiedSlot(w.core, w.poll.snap, k);
    if e.PollSend? { RecordEffect(w, e, k); } else if e.PollPublished? { PublishedEffect(w, e, k); } else { WaitEffect(w, e, k); }
    SendBatch(w, e, s.token, b);
    if Passed(w, e) && s.phase == SEND && s.round >= 1 { PassStep(s, v.core.slots[k].due, w.work, v.work.missing, b); }
  }

  lemma {:induction false} RestStep(w: World, e: Event, t: nat, b: Batch)
    requires OfPoll(e) && !e.PollStart? && w.poll.Resting?
    ensures Next(w, e) == w && BatchBy(w, e, t, b) == b
  {
  }

  lemma {:induction false} PollStep(w: World, e: Event, k: nat, b: Batch)
    requires Inv(w) && Rounds(w) && PollWorks(w) && OfPoll(e) && k < |w.core.slots| && InStep(w.core.slots[k], w.work, b)
    ensures var v := Next(w, e);
      |v.core.slots| == |w.core.slots| && v.core.slots[k].token == w.core.slots[k].token
      && InStep(v.core.slots[k], v.work, BatchBy(w, e, w.core.slots[k].token, b))
  {
    if e.PollStart? { StartStep(w, e, k, b); }
    else if w.poll.Resting? { RestStep(w, e, w.core.slots[k].token, b); }
    else if !Copied(w.core.slots[k], w.poll.snap) { OffPollStep(w, e, k, b); }
    else if e.PollApply? && w.poll.Applying? { AnswerStep(w, e, k, b); }
    else { SendStep(w, e, k, b); }
  }

  lemma {:induction false} NextWorks(w: World, e: Event)
    requires PollWorks(w)
    ensures PollWorks(Next(w, e))
  {
    if !OfPoll(e) { if |w.core.slots| > 0 { OthersOrigin(w, e, 0); } }
  }

  lemma {:induction false} OthersBatch(w: World, e: Event, t: nat, b: Batch)
    requires !OfPoll(e)
    ensures BatchBy(w, e, t, b) == b
  {
  }

  lemma {:induction false} RunBatches(rows: set<Row>, events: seq<Event>)
    ensures Batches(Run(Boot(rows), events), rows, events)
  {
    if events != [] {
      var before, e := events[..|events| - 1], events[|events| - 1];
      var w, v := Run(Boot(rows), before), Run(Boot(rows), events);
      RunBatches(rows, before);
      RunOk(rows, before);
      RunRounds(rows, before);
      NextWorks(w, e);
      TokenOrigin(w, e, 0);
      forall k | 0 <= k < |v.core.slots| ensures InStep(v.core.slots[k], v.work, BatchOf(rows, events, v.core.slots[k].token)) {
        var t := w.core.slots[k].token;
        if OfPoll(e) { PollStep(w, e, k, BatchOf(rows, before, t)); }
        else {
          OthersStep(w, e, k, BatchOf(rows, before, t));
          OthersBatch(w, e, t, BatchOf(rows, before, t));
        }
      }
    }
  }

  // How an intent goes from sending to being verified.
  lemma {:induction false} EndsSending(w: World, e: Event, k: nat)
    requires Inv(w) && k < |w.core.slots| && w.core.slots[k].used && w.core.slots[k].phase == SEND
    requires var r := Next(w, e).core.slots; |r| == |w.core.slots| && r[k].used && r[k].token == w.core.slots[k].token && r[k].phase == VERIFY
    ensures e.PollSend? && w.poll.Sending? && w.work.index >= |w.work.ids| && Copied(w.core.slots[k], w.poll.snap)
  {
    if !OfPoll(e) {
      OthersOrigin(w, e, k);
      assert false;
    } else if e.PollStart? {
      StartPhase(w, e, k);
      assert false;
    } else {
      UnderwayEnds(w, e, k);
    }
  }

  lemma {:induction false} StartPhase(w: World, e: Event, k: nat)
    requires e.PollStart? && k < |w.core.slots|
    ensures Next(w, e).core.slots[k].phase in {QUERY, w.core.slots[k].phase}
  {
  }

  // Only the end of the list does that.
  lemma {:induction false} OnlyOver(w: World, e: Event)
    requires OfPoll(e) && !e.PollStart? && !(e.PollSend? && w.poll.Sending? && w.work.index >= |w.work.ids|)
    ensures var c, d, snap, now := w.core, Next(w, e).core, if w.poll.Resting? then FREE else w.poll.snap, GapIntents.NowOf(e);
      d == c || d in {RetryOf(c, snap, now), GapModel.Sent(c, snap, now), Apply(c, snap, GapIntents.AnswerOf(w.poll), now)}
  {
  }

  lemma {:induction false} NoVerify(c: Core, d: Core, snap: Slot, answer: Option<seq<int>>, now: nat, k: nat)
    requires k < |c.slots| == |d.slots| && c.slots[k].phase == SEND
    requires d == c || d in {RetryOf(c, snap, now), GapModel.Sent(c, snap, now), Apply(c, snap, answer, now)}
    ensures d.slots[k].phase != VERIFY
  {
    GapIntents.WritesOne(c, snap, answer, now, k);
    if k == Still(c.slots, snap) { GapIntents.Writes(c, snap, answer, now); }
  }

  lemma {:induction false} OverElsewhere(c: Core, snap: Slot, now: nat, k: nat)
    requires k < |c.slots| && !Copied(c.slots[k], snap)
    ensures |SendOver(c, snap, now).slots| == |c.slots| && SendOver(c, snap, now).slots[k] == c.slots[k]
  {
    NotCopied(c, snap);
  }

  lemma {:induction false} UnderwayEnds(w: World, e: Event, k: nat)
    requires OfPoll(e) && !e.PollStart? && k < |w.core.slots| && w.core.slots[k].phase == SEND
    requires var r := Next(w, e).core.slots; |r| == |w.core.slots| && r[k].phase == VERIFY
    ensures e.PollSend? && w.poll.Sending? && w.work.index >= |w.work.ids| && Copied(w.core.slots[k], w.poll.snap)
  {
    if !(e.PollSend? && w.poll.Sending? && w.work.index >= |w.work.ids|) {
      OnlyOver(w, e);
      NoVerify(w.core, Next(w, e).core, if w.poll.Resting? then FREE else w.poll.snap, GapIntents.AnswerOf(w.poll), GapIntents.NowOf(e), k);
      assert false;
    } else if !Copied(w.core.slots[k], w.poll.snap) {
      OverElsewhere(w.core, w.poll.snap, e.now, k);
      assert false;
    }
  }

  // Over any run, when an intent goes from sending to being verified, what has been
  // published or found gone is an initial part of the last list given for it, in order; and
  // it is the whole list if and only if no other intent was taken up before its last number.
  lemma {:induction false} SentInOrder(rows: set<Row>, events: seq<Event>, e: Event, k: nat)
    ensures var w, v := Run(Boot(rows), events), Next(Run(Boot(rows), events), e);
      k < |w.core.slots| == |v.core.slots|
      && w.core.slots[k].used && w.core.slots[k].phase == SEND
      && v.core.slots[k].used && v.core.slots[k].token == w.core.slots[k].token && v.core.slots[k].phase == VERIFY ==>
        var b := BatchOf(rows, events, w.core.slots[k].token);
        && b.Batch? && b.revision == w.core.slots[k].revision
        && |b.done| <= |b.ids| && b.done == b.ids[..|b.done|]
        && (b.done == b.ids <==> !b.lost)
  {
    var w, v := Run(Boot(rows), events), Next(Run(Boot(rows), events), e);
    if k < |w.core.slots| == |v.core.slots|
       && w.core.slots[k].used && w.core.slots[k].phase == SEND
       && v.core.slots[k].used && v.core.slots[k].token == w.core.slots[k].token && v.core.slots[k].phase == VERIFY {
      RunBatches(rows, events);
      RunOk(rows, events);
      RunRounds(rows, events);
      EndsSending(w, e, k);
      assert SnapOk(w.core.slots[k], w.poll.snap);
      assert InStep(w.core.slots[k], w.work, BatchOf(rows, events, w.core.slots[k].token));
    }
  }

  // Only an older session's intent can come in between.
  lemma {:induction false} LostToOlder(rows: set<Row>, events: seq<Event>, e: Event, k: nat)
    ensures var w, v := Run(Boot(rows), events), Next(Run(Boot(rows), events), e);
      k < |v.core.slots| && TakesUp(w, e) && v.poll.snap.token != v.core.slots[k].token
      && v.core.slots[k].used && v.core.slots[k].intent && v.core.slots[k].phase == SEND ==>
        v.poll.snap.token < v.core.slots[k].token
  {
    var w, v := Run(Boot(rows), events), Next(Run(Boot(rows), events), e);
    if k < |v.core.slots| && TakesUp(w, e) && v.core.slots[k].phase == SEND && v.core.slots[k].used && v.core.slots[k].intent {
      assert v == Run(Boot(rows), events + [e]) by { assert (events + [e])[..|events|] == events; }
      RunRounds(rows, events + [e]);
      assert RoundOk(v.core.slots[k]);
      ChosenOldest(w, e, k);
    }
  }

  lemma {:induction false} ChosenOldest(w: World, e: Event, k: nat)
    requires TakesUp(w, e) && k < |Next(w, e).core.slots| && Eligible(Next(w, e).core.slots[k])
    ensures Next(w, e).poll.snap.token <= Next(w, e).core.slots[k].token
  {
  }
}
