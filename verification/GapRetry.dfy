// Retries of a recovery end: rounds, phases and the answers an intent may still use.
module GapRetry {
  import opened GapModel
  import opened Options
  import opened GapWorld
  import opened GapSafety
  import opened GapIntents

  // An intent's budget of answers: two for a round begun with a query, one from there on.
  function Budget(s: Slot): int { 2 * (GAP_ROUNDS_MAX - s.round) + if s.phase == QUERY then 2 else 1 }

  predicate Less(a: Slot, left: int, b: Slot, left': int) {
    || a.round < b.round
    || (a.round == b.round && ((a.phase == QUERY && b.phase != QUERY) || (a.phase == SEND && b.phase == VERIFY)))
    || (a.round == b.round && a.phase == b.phase && left' < left)
  }

  // Rounds are 0 (to be started), 1 to 3, and 4 (parked until the next trigger); and a
  // poll under way shows the round and phase its intent still has.
  predicate RoundOk(s: Slot) { s.used ==> s.round <= GAP_ROUNDS_MAX + 1 && (s.round == GAP_ROUNDS_MAX + 1 ==> s.phase == QUERY) }

  predicate SnapOk(s: Slot, snap: Slot) {
    s.used && s.token == snap.token && s.revision == snap.revision ==> s.phase == snap.phase && s.round == snap.round
  }

  predicate Rounds(w: World) {
    && (forall i :: 0 <= i < |w.core.slots| ==> RoundOk(w.core.slots[i]))
    && (!w.poll.Resting? ==>
          && 1 <= w.poll.snap.round <= GAP_ROUNDS_MAX
          && (w.poll.Asking? || w.poll.Applying? ==> w.poll.snap.phase != SEND)
          && (w.poll.Sending? || w.poll.Publishing? ==> w.poll.snap.phase == SEND)
          && forall i :: 0 <= i < |w.core.slots| ==> SnapOk(w.core.slots[i], w.poll.snap))
  }

  // A slot in use comes from the same session, or from a begin.
  predicate Origin(c: Core, d: Core, k: nat)
    requires k < |c.slots|
  {
    && |d.slots| == |c.slots|
    && var s, r := c.slots[k], d.slots[k];
       r.used ==> || (s.used && r.token == s.token && r.phase == s.phase && r.trigger == s.trigger
                      && ((r.revision == s.revision && r.round == s.round) || (r.revision > s.revision && r.round == 0)))
                  || (r.token > c.nextToken && r.round == 0 && r.trigger == 0)
  }

  lemma {:induction false} FinalizeOrigin(c: Core, slots: seq<Slot>, i: nat, k: nat)
    requires |slots| == |c.slots| && k < |slots| && i < |slots|
    requires forall j :: 0 <= j < |slots| && slots[j].used ==>
      c.slots[j].used && c.slots[j].token == slots[j].token && c.slots[j].phase == slots[j].phase && c.slots[j].trigger == slots[j].trigger
      && c.slots[j].round == slots[j].round && c.slots[j].revision == slots[j].revision
    ensures Origin(c, c.(slots := Finalize(slots, i)), k)
  {
  }

  lemma {:induction false} OpsOrigin(c: Core, token: nat, n: int, k: nat)
    requires k < |c.slots|
    ensures Origin(c, Resume(c, token, n), k) && Origin(c, TakeId(c, token), k)
    ensures Accepts(c, token, 0) ==> Origin(c, GapModel.Submit(c, token), k)
  {
  }

  lemma {:induction false} CloseOrigin(c: Core, k: nat)
    requires k < |c.slots|
    ensures Origin(c, GapModel.Close(c), k)
  {
    var i := Find(c.slots, c.current);
    if i < |c.slots| { FinalizeOrigin(c, c.slots[i := c.slots[i].(closed := true)], i, k); }
  }

  lemma {:induction false} DoneOrigin(c: Core, token: nat, persisted: bool, k: nat)
    requires k < |c.slots|
    ensures Origin(c, GapModel.Done(c, token, persisted), k)
  {
    var i := Find(c.slots, token);
    if i < |c.slots| {
      var slots := c.slots[i := Processed(c.slots[i], persisted)];
      assert slots[i].phase == c.slots[i].phase && slots[i].trigger == c.slots[i].trigger && slots[i].round == c.slots[i].round && slots[i].revision == c.slots[i].revision;
      FinalizeOrigin(c, slots, i, k);
    }
  }

  lemma {:induction false} OthersOrigin(w: World, e: Event, k: nat)
    requires !OfPoll(e) && k < |w.core.slots|
    ensures Origin(w.core, Next(w, e).core, k) && Next(w, e).poll == w.poll && Next(w, e).work == w.work
  {
    var c := w.core;
    match e
    case EndResume => if w.opening.Looked? && w.opening.found.Some? { OpsOrigin(c, w.opening.token, w.opening.found.value, k); }
    case Close => CloseOrigin(c, k);
    case Submit(p) => OpsOrigin(c, p.token, 0, k);
    case Number => if w.worker.Holding? { OpsOrigin(c, w.worker.p.token, 0, k); }
    case Done => if w.worker.Stored? { DoneOrigin(c, w.worker.p.token, w.worker.persisted, k); }
    case _ =>
  }

  lemma {:induction false} OriginRound(c: Core, d: Core, k: nat)
    requires k < |c.slots| && Origin(c, d, k) && RoundOk(c.slots[k])
    ensures RoundOk(d.slots[k])
  {
  }

  lemma {:induction false} OriginSnap(c: Core, d: Core, snap: Slot, k: nat)
    requires k < |c.slots| && Origin(c, d, k) && SnapOk(c.slots[k], snap) && Fresh(c.slots, c.nextToken, snap)
    ensures SnapOk(d.slots[k], snap)
  {
  }

  lemma {:induction false} OthersRounds(w: World, e: Event)
    requires Inv(w) && Rounds(w) && !OfPoll(e)
    ensures Rounds(Next(w, e))
  {
    var c, d := w.core, Next(w, e).core;
    OthersOrigin(w, e, 0);
    forall k | 0 <= k < |c.slots| ensures RoundOk(d.slots[k]) && (!w.poll.Resting? ==> SnapOk(d.slots[k], w.poll.snap)) {
      OthersOrigin(w, e, k);
      OriginRound(c, d, k);
      if !w.poll.Resting? { OriginSnap(c, d, w.poll.snap, k); }
    }
  }

  lemma {:induction false} RoundOne(c: Core, d: Core, snap: Slot, answer: Option<seq<int>>, now: nat, k: nat)
    requires k < |c.slots| && Reachable(c, d, snap, answer, now) && RoundOk(c.slots[k]) && SnapOk(c.slots[k], snap)
    requires snap.round <= GAP_ROUNDS_MAX
    ensures |d.slots| == |c.slots| && RoundOk(d.slots[k])
  {
    ReachOne(c, d, snap, answer, now, k);
  }

  lemma {:induction false} PollRounds(w: World, e: Event)
    requires Inv(w) && Rounds(w) && OfPoll(e)
    ensures Rounds(Next(w, e))
  {
    if e.PollStart? {
      NextOk(w, e);
      StartRounds(w, e, Next(w, e));
    } else if !w.poll.Resting? {
      var c, d, snap := w.core, Next(w, e).core, w.poll.snap;
      PollReaches(w, e);
      forall k | 0 <= k < |c.slots| ensures |d.slots| == |c.slots| && RoundOk(d.slots[k]) {
        RoundOne(c, d, snap, AnswerOf(w.poll), NowOf(e), k);
      }
      PollStays(w, e);
    }
  }

  // A poll that goes on has changed nothing yet.
  lemma {:induction false} PollStays(w: World, e: Event)
    requires OfPoll(e) && !e.PollStart? && !w.poll.Resting?
    ensures var p := Next(w, e).poll;
      !p.Resting? ==>
        && Next(w, e).core == w.core && p.snap == w.poll.snap
        && (p == w.poll || ((p.Asking? || p.Applying?) && w.poll.snap.phase != SEND) || (p.Applying? && w.poll.Asking?)
            || (p.Sending? && w.poll.snap.phase == SEND) || (p.Publishing? && w.poll.Sending?))
  {
  }

  lemma {:induction false} StartSnap(slots: seq<Slot>, i: nat)
    requires Distinct(slots) && i < |slots| && slots[i].used
    ensures forall k :: 0 <= k < |slots| ==> SnapOk(slots[k], slots[i])
  {
  }

  lemma {:induction false} StartRounds(w: World, e: Event, v: World)
    requires e.PollStart? && v == Next(w, e) && TableOk(v.core) && Rounds(w)
    ensures Rounds(v)
  {
    forall k | 0 <= k < |v.core.slots| ensures RoundOk(v.core.slots[k]) { StartRound(w, e, k); }
    if w.poll.Resting? && v.poll.Chosen? {
      TokensDistinct(v.core.slots, v.core.nextToken, v.core.current);
      StartSnap(v.core.slots, Oldest(v.core.slots, |v.core.slots|));
    }
  }

  lemma {:induction false} StartRound(w: World, e: Event, k: nat)
    requires e.PollStart? && Rounds(w) && k < |Next(w, e).core.slots|
    ensures RoundOk(Next(w, e).core.slots[k])
  {
    assert k < |w.core.slots| && RoundOk(w.core.slots[k]);
  }

  lemma {:induction false} RunRounds(rows: set<Row>, events: seq<Event>)
    ensures Rounds(Run(Boot(rows), events))
  {
    if events != [] {
      var before := events[..|events| - 1];
      RunRounds(rows, before);
      RunOk(rows, before);
      var e := events[|events| - 1];
      if OfPoll(e) { PollRounds(Run(Boot(rows), before), e); } else { OthersRounds(Run(Boot(rows), before), e); }
    }
  }

  // The slot and trigger a spell of retries is about stay what they were.
  predicate SameSpell(c: Core, d: Core, k: nat) {
    && k < |c.slots| && k < |d.slots| && d.trigger == c.trigger
    && d.slots[k].used && d.slots[k].token == c.slots[k].token && d.slots[k].revision == c.slots[k].revision
  }

  predicate Started(c: Core, k: nat) {
    k < |c.slots| && Intent(c.slots[k]) && c.slots[k].round >= 1 && c.slots[k].trigger == c.trigger
  }

  // An answer is applied to the session of this token.
  predicate AppliesAnswer(w: World, e: Event, token: nat) {
    e.PollApply? && w.poll.Applying? && w.poll.snap.token == token && Applies(w.core, w.poll.snap)
  }

  lemma {:induction false} BudgetBounds(s: Slot)
    requires RoundOk(s) && s.used && s.round >= 1
    ensures 0 <= Budget(s) <= 6
  {
  }

  // What a poll may do to its own intent never adds to the budget, and an answer that
  // does not end the intent costs at least one.
  lemma {:induction false} WritesSpend(s: Slot, snap: Slot, answer: Option<seq<int>>, now: nat)
    requires 1 <= s.round <= GAP_ROUNDS_MAX && s.phase == snap.phase && s.round == snap.round
    ensures Budget(Retry(s, now)) < Budget(s)
    ensures s.phase == SEND ==> Budget(s.(phase := VERIFY, due := now + GAP_SETTLE_MS)) == Budget(s)
    ensures Budget(s.(due := now + GAP_SEND_MS)) == Budget(s)
    ensures s.phase != SEND && answer != Some([]) ==> Budget(AfterAnswer(s, snap, answer, now)) < Budget(s)
  {
  }

  predicate Spent(s: Slot, r: Slot, cost: int) {
    r.round >= 1 && r.trigger == s.trigger && Intent(r) && Budget(r) + cost <= Budget(s)
  }

  // One event, during a spell.
  lemma {:induction false} OthersSpend(w: World, e: Event, k: nat)
    requires Inv(w) && !OfPoll(e) && Started(w.core, k) && SameSpell(w.core, Next(w, e).core, k)
    ensures Next(w, e).core.slots[k] == w.core.slots[k]
  {
    OthersKeep(w, e, k);
  }

  lemma {:induction false} StartSpends(w: World, e: Event, k: nat)
    requires e.PollStart? && Started(w.core, k)
    ensures |Next(w, e).core.slots| == |w.core.slots| && Next(w, e).core.slots[k] == w.core.slots[k]
  {
  }

  // A poll under way, seen from one slot during a spell.
  lemma {:induction false} SpendsOne(c: Core, d: Core, snap: Slot, answer: Option<seq<int>>, now: nat, k: nat)
    requires Started(c, k) && SameSpell(c, d, k) && SnapOk(c.slots[k], snap) && 1 <= snap.round <= GAP_ROUNDS_MAX
    requires d == c || d in {RetryOf(c, snap, now), Sent(c, snap, now)} || (snap.phase == SEND && d == SendOver(c, snap, now))
    ensures Spent(c.slots[k], d.slots[k], 0)
  {
    var s := c.slots[k];
    if k == Still(c.slots, snap) {
      Writes(c, snap, None, now);
      WritesSpend(s, snap, None, now);
    } else if d != c {
      WritesOne(c, snap, None, now, k);
    }
  }

  lemma {:induction false} AnswerOne(c: Core, snap: Slot, answer: Option<seq<int>>, now: nat, k: nat)
    requires Started(c, k) && SameSpell(c, Apply(c, snap, answer, now), k) && SnapOk(c.slots[k], snap)
    requires 1 <= snap.round <= GAP_ROUNDS_MAX && snap.phase != SEND
    requires Still(c.slots, snap) < |c.slots| && snap.token == c.slots[k].token ==> k == Still(c.slots, snap)
    ensures Spent(c.slots[k], Apply(c, snap, answer, now).slots[k], if snap.token == c.slots[k].token && Applies(c, snap) then 1 else 0)
  {
    if k == Still(c.slots, snap) {
      Writes(c, snap, answer, now);
      WritesSpend(c.slots[k], snap, answer, now);
    } else {
      WritesOne(c, snap, answer, now, k);
    }
  }

  lemma {:induction false} PollSpends(w: World, e: Event, k: nat)
    requires Inv(w) && Rounds(w) && OfPoll(e) && Started(w.core, k) && SameSpell(w.core, Next(w, e).core, k)
    ensures Spent(w.core.slots[k], Next(w, e).core.slots[k], if AppliesAnswer(w, e, w.core.slots[k].token) then 1 else 0)
  {
    if e.PollStart? {
      StartSpends(w, e, k);
    } else if !w.poll.Resting? {
      var c, d, snap := w.core, Next(w, e).core, w.poll.snap;
      PollActs(w, e);
      OwnToken(c, snap, k);
      assert SnapOk(c.slots[k], snap);
      if e.PollApply? && w.poll.Applying? { AnswerOne(c, snap, w.poll.answer, e.now, k); }
      else { SpendsOne(c, d, snap, None, NowOf(e), k); }
    }
  }

  lemma {:induction false} OwnToken(c: Core, snap: Slot, k: nat)
    requires TableOk(c) && k < |c.slots| && c.slots[k].used
    ensures c.slots[k].token == snap.token && Still(c.slots, snap) < |c.slots| ==> k == Still(c.slots, snap)
  {
    TokensDistinct(c.slots, c.nextToken, c.current);
  }

  // ---- A token that left does not come back ----

  lemma {:induction false} PollTokens(w: World, e: Event, k: nat)
    requires OfPoll(e) && k < |w.core.slots|
    ensures var v := Next(w, e);
      && |v.core.slots| == |w.core.slots| && v.core.nextToken == w.core.nextToken
      && (v.core.slots[k].used ==> w.core.slots[k].used && v.core.slots[k].token == w.core.slots[k].token)
  {
    if e.PollStart? {
      StartKeeps(w, e, k);
    } else if !w.poll.Resting? {
      PollReaches(w, e);
      ReachOne(w.core, Next(w, e).core, w.poll.snap, AnswerOf(w.poll), NowOf(e), k);
    }
  }

  lemma {:induction false} TokenOrigin(w: World, e: Event, k: nat)
    requires k < |w.core.slots|
    ensures var v := Next(w, e);
      && |v.core.slots| == |w.core.slots| && v.core.nextToken >= w.core.nextToken
      && (v.core.slots[k].used ==>
            (w.core.slots[k].used && v.core.slots[k].token == w.core.slots[k].token) || v.core.slots[k].token > w.core.nextToken)
  {
    if OfPoll(e) { PollTokens(w, e, k); } else { OthersOrigin(w, e, k); }
  }

  predicate Gone(c: Core, token: nat) { 0 < token <= c.nextToken && Find(c.slots, token) == |c.slots| }

  lemma {:induction false} GoneForGood(w: World, e: Event, token: nat)
    requires |w.core.slots| > 0 && Gone(w.core, token)
    ensures Gone(Next(w, e).core, token)
  {
    TokenOrigin(w, e, 0);
    var d := Next(w, e).core;
    var i := Find(d.slots, token);
    if i < |d.slots| {
      TokenOrigin(w, e, i);
      assert false;
    }
  }

  // ---- At most six answers ----

  ghost function Answers(w: World, events: seq<Event>, token: nat): nat
    decreases |events|
  {
    if events == [] then 0
    else (if AppliesAnswer(w, events[0], token) then 1 else 0) + Answers(Next(w, events[0]), events[1..], token)
  }

  // No new trigger and no merge while the intent in slot k lasts.
  ghost predicate Quiet(w: World, events: seq<Event>, k: nat)
    requires k < |w.core.slots|
    decreases |events|
  {
    events != [] ==>
      var c, d := w.core, Next(w, events[0]).core;
      && k < |d.slots| && d.trigger == c.trigger
      && (d.slots[k].used && d.slots[k].token == c.slots[k].token ==> d.slots[k].revision == c.slots[k].revision)
      && Quiet(Next(w, events[0]), events[1..], k)
  }

  lemma {:induction false} GoneNoAnswers(w: World, events: seq<Event>, token: nat)
    requires |w.core.slots| > 0 && Gone(w.core, token)
    ensures Answers(w, events, token) == 0
    decreases |events|
  {
    if events != [] {
      TokenOrigin(w, events[0], 0);
      GoneForGood(w, events[0], token);
      GoneNoAnswers(Next(w, events[0]), events[1..], token);
    }
  }

  lemma {:induction false} LeavesForGood(w: World, e: Event, k: nat)
    requires TableOk(w.core) && k < |w.core.slots| && w.core.slots[k].used
    requires !(Next(w, e).core.slots[k].used && Next(w, e).core.slots[k].token == w.core.slots[k].token)
    ensures Gone(Next(w, e).core, w.core.slots[k].token)
  {
    var d, t := Next(w, e).core, w.core.slots[k].token;
    TokenOrigin(w, e, k);
    assert SlotOk(w.core.slots[k], w.core.nextToken, w.core.current);
    var i := Find(d.slots, t);
    if i < |d.slots| {
      TokenOrigin(w, e, i);
      TokensDistinct(w.core.slots, w.core.nextToken, w.core.current);
      assert false;
    }
  }

  lemma {:induction false} AnswerNeedsBudget(w: World, e: Event, k: nat)
    requires Inv(w) && Rounds(w) && Started(w.core, k) && AppliesAnswer(w, e, w.core.slots[k].token)
    ensures Budget(w.core.slots[k]) >= 1
  {
    StillIntent(w.core, w.poll.snap);
    OwnToken(w.core, w.poll.snap, k);
    assert SnapOk(w.core.slots[k], w.poll.snap);
  }

  // While no trigger fires and nothing merges into it, an intent uses at most as many
  // answers as its budget.
  lemma {:induction false} AnswersWithinBudget(w: World, events: seq<Event>, k: nat)
    requires Inv(w) && Rounds(w) && Started(w.core, k) && Quiet(w, events, k)
    ensures Answers(w, events, w.core.slots[k].token) <= Budget(w.core.slots[k]) <= 6
    decreases |events|
  {
    var s := w.core.slots[k];
    assert RoundOk(s);
    BudgetBounds(s);
    if events != [] {
      var e, v := events[0], Next(w, events[0]);
      NextOk(w, e);
      if OfPoll(e) { PollRounds(w, e); } else { OthersRounds(w, e); }
      if AppliesAnswer(w, e, s.token) { AnswerNeedsBudget(w, e, k); }
      if v.core.slots[k].used && v.core.slots[k].token == s.token {
        SpellStep(w, e, k);
        AnswersWithinBudget(v, events[1..], k);
      } else {
        LeavesForGood(w, e, k);
        GoneNoAnswers(v, events[1..], s.token);
      }
    }
  }

  // From any state a run can reach: six answers at most, before the intent is complete,
  // parked, merged into, or started again by a new trigger.
  lemma {:induction false} AtMostSixAnswers(rows: set<Row>, before: seq<Event>, events: seq<Event>, k: nat)
    ensures var w := Run(Boot(rows), before);
      Started(w.core, k) && Quiet(w, events, k) ==> Answers(w, events, w.core.slots[k].token) <= 6
  {
    RunOk(rows, before);
    RunRounds(rows, before);
    var w := Run(Boot(rows), before);
    if Started(w.core, k) && Quiet(w, events, k) { AnswersWithinBudget(w, events, k); }
  }

  lemma {:induction false} SpellStep(w: World, e: Event, k: nat)
    requires Inv(w) && Rounds(w) && Started(w.core, k) && SameSpell(w.core, Next(w, e).core, k)
    ensures Started(Next(w, e).core, k)
    ensures Spent(w.core.slots[k], Next(w, e).core.slots[k], if AppliesAnswer(w, e, w.core.slots[k].token) then 1 else 0)
  {
    if OfPoll(e) { PollSpends(w, e, k); } else { OthersSpend(w, e, k); }
  }

  // ---- Every result moves the intent on ----

  function Left(w: Work): int { |w.ids| - w.index }

  // The intent a poll is about.
  predicate About(w: World, k: nat) {
    !w.poll.Resting? && k < |w.core.slots| && k == Still(w.core.slots, w.poll.snap)
  }

  predicate Results(w: World, e: Event) {
    || (e.PollNoMemory? && w.poll.Chosen?)
    || (e.PollApply? && w.poll.Applying? && !w.core.running)
    || (e.PollSend? && w.poll.Sending? && (w.work.index >= |w.work.ids| || e.fetch != Record))
    || (e.PollPublished? && w.poll.Publishing?)
  }

  predicate Decreases(w: World, v: World, k: nat) {
    && k < |w.core.slots| && k < |v.core.slots|
    && (!v.core.slots[k].used || Less(w.core.slots[k], Left(w.work), v.core.slots[k], Left(v.work)))
  }

  // A poll that gets a result either ends the intent or makes (rounds left, phase, ids
  // left) smaller, phases counting down from QUERY over SEND to VERIFY.
  lemma {:induction false} ResultDecreases(w: World, e: Event, k: nat)
    requires Inv(w) && Rounds(w) && About(w, k) && Results(w, e)
    ensures Decreases(w, Next(w, e), k)
  {
    assert SnapOk(w.core.slots[k], w.poll.snap);
    StillIntent(w.core, w.poll.snap);
    if e.PollApply? { AnswerDecreases(w, e, k); } else { SendDecreases(w, e, k); }
  }

  lemma {:induction false} AnswerDecreases(w: World, e: Event, k: nat)
    requires Rounds(w) && About(w, k) && Results(w, e) && e.PollApply? && SnapOk(w.core.slots[k], w.poll.snap)
    requires Intent(w.core.slots[k])
    ensures Decreases(w, Next(w, e), k)
  {
    Writes(w.core, w.poll.snap, w.poll.answer, e.now);
  }

  lemma {:induction false} SendDecreases(w: World, e: Event, k: nat)
    requires Rounds(w) && About(w, k) && Results(w, e) && !e.PollApply? && SnapOk(w.core.slots[k], w.poll.snap)
    requires Intent(w.core.slots[k])
    ensures Decreases(w, Next(w, e), k)
  {
    Writes(w.core, w.poll.snap, None, e.now);
  }
}
