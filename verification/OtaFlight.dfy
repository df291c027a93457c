// main/APP/OTA/mesh_ota.c: which transfer the SDK runs, and what the firmware knows of it.
// The SDK starts and ends transfers in a task of its own and posts a notice of each; the
// event loop delivers the notices later, in order. The firmware's flag follows the notices
// it was given, its own requests, and their refusal.
module OtaFlight {
  import opened Options

  datatype Outcome = Success | Failure

  datatype Notice = Started(t: nat) | Ended(t: nat, outcome: Outcome)

  // The SDK runs one transfer at a time, `cur`, the `made`-th being the next. `mail` is
  // posted and not delivered, `latest` the last one delivered. `silent`: the last transfer
  // ended through the callback alone. `refused`: a request was refused since `latest`.
  // `own` is the transfer taken for the present session, `finishOf` the one whose end the
  // session has on record, `clean` whether the session's own is the first that can end.
  datatype Sdk = Sdk(cur: Option<nat>, made: nat, mail: seq<Notice>, latest: Option<Notice>, silent: bool,
                     refused: bool, own: Option<nat>, finishOf: nat, clean: bool)

  // The firmware's side: its flag, whether a session is open, the end on record, and whether
  // the service task is inside its request.
  datatype Flight = Flight(inflight: bool, open: bool, finish: Option<Outcome>, starting: bool, sdk: Sdk)

  datatype Event = Resume                // the SDK takes up an old request by itself
                 | Take                  // the SDK takes the request being made
                 | End(outcome: Outcome)
                 | Extern(noticed: bool) // the SDK ends by way of the disabled external download
                 | Deliver               // the event loop hands over one notice
                 | Open(erased: bool)
                 | Answer                // the request returns
                 | Close

  function Initial(): Flight {
    Flight(false, false, None, false, Sdk(None, 0, [], None, false, false, None, 0, false))
  }

  // The first transfer whose end is underway.
  function FirstEnded(mail: seq<Notice>): Option<nat> {
    if mail == [] then None else if mail[0].Ended? then Some(mail[0].t) else FirstEnded(mail[1..])
  }

  function Launched(s: Sdk): Sdk {
    s.(cur := Some(s.made), made := s.made + 1, mail := s.mail + [Started(s.made)], silent := false)
  }

  function Closed(f: Flight): Flight { f.(open := false, finish := None) }

  // One event; one that cannot happen now changes nothing.
  function Next(f: Flight, e: Event): Flight {
    var s := f.sdk;
    match e
    case Resume => if s.cur.Some? then f else f.(sdk := Launched(s).(clean := s.clean && s.own.Some?))
    case Take => if !f.starting || s.own.Some? || s.cur.Some? then f else f.(sdk := Launched(s).(own := Some(s.made)))
    case End(o) => if s.cur == None then f else f.(sdk := s.(cur := None, mail := s.mail + [Ended(s.cur.value, o)]))
    case Extern(noticed) =>
      if s.cur == None then f
      else
        var t := s.cur.value;
        var s' := if noticed then s.(cur := None, mail := s.mail + [Ended(t, Failure)]) else s.(cur := None, silent := true);
        if f.open then f.(inflight := false, finish := Some(Failure), sdk := s'.(finishOf := t)) else f.(inflight := false, sdk := s')
    case Deliver =>
      if s.mail == [] then f
      else
        var n, s' := s.mail[0], s.(mail := s.mail[1..], latest := Some(s.mail[0]), refused := false);
        if n.Started? then f.(inflight := true, sdk := s')
        else if f.open && f.finish == None then f.(inflight := false, finish := Some(n.outcome), sdk := s'.(finishOf := n.t))
        else f.(inflight := false, sdk := s')
    case Open(erased) =>
      if f.starting then f
      else if f.inflight || !erased then Closed(f)
      else Flight(true, true, None, true, s.(own := None, clean := s.cur == None && FirstEnded(s.mail) == None))
    case Answer =>
      if !f.starting then f
      else if s.own.Some? then f.(starting := false)
      else Closed(f).(inflight := false, starting := false, sdk := s.(refused := true))
    case Close => if f.starting then f else Closed(f)
  }

  function Run(events: seq<Event>): Flight {
    if events == [] then Initial() else Next(Run(events[..|events| - 1]), events[|events| - 1])
  }

  // ---- What the notices say ----

  function LastPosted(s: Sdk): Option<Notice> {
    if s.mail != [] then Some(s.mail[|s.mail| - 1]) else s.latest
  }

  predicate SaysRunning(s: Sdk) { !s.silent && LastPosted(s).Some? && LastPosted(s).value.Started? }

  predicate Numbered(s: Sdk) {
    && (s.cur.Some? ==> s.cur.value < s.made)
    && (forall i :: 0 <= i < |s.mail| ==> s.mail[i].t < s.made)
  }

  // The SDK runs a transfer exactly when the last notice posted is of a start, and when that
  // has been delivered, only a refusal can have cleared the flag since.
  predicate Told(f: Flight) {
    && Numbered(f.sdk) && (f.sdk.cur.Some? <==> SaysRunning(f.sdk))
    && (f.sdk.mail == [] && SaysRunning(f.sdk) ==> (f.starting && f.sdk.own == None) || (f.inflight <==> !f.sdk.refused))
  }

  predicate BySdk(e: Event) { e.Resume? || e.Take? || e.End? || e.Extern? }

  lemma {:induction false} SdkTold(f: Flight, e: Event)
    requires Told(f) && BySdk(e)
    ensures Told(Next(f, e))
  {
  }

  lemma {:induction false} DeliverTold(f: Flight)
    requires Told(f)
    ensures Told(Next(f, Deliver))
  {
  }

  lemma {:induction false} AppTold(f: Flight, e: Event)
    requires Told(f) && (e.Open? || e.Answer? || e.Close?)
    ensures Told(Next(f, e))
  {
  }

  lemma {:induction false} NextTold(f: Flight, e: Event)
    requires Told(f)
    ensures Told(Next(f, e))
  {
    if BySdk(e) { SdkTold(f, e); } else if e.Deliver? { DeliverTold(f); } else { AppTold(f, e); }
  }

  lemma {:induction false} RunTold(events: seq<Event>)
    ensures Told(Run(events))
  {
    if events != [] {
      RunTold(events[..|events| - 1]);
      NextTold(Run(events[..|events| - 1]), events[|events| - 1]);
    }
  }

  // A start the flag does not show: its notice is still underway, or it was heard and a
  // request was refused after that.
  predicate Hidden(s: Sdk) { SaysRunning(s) && (s.mail != [] || s.refused) }

  // A session is opened behind a clear flag. It is alone, no other transfer being under way,
  // if and only if no start is hidden.
  lemma {:induction false} OpensAloneExactly(events: seq<Event>)
    requires !Run(events).starting && !Run(events).inflight
    ensures Next(Run(events), Open(true)).open
    ensures Run(events).sdk.cur == None <==> !Hidden(Run(events).sdk)
  {
    RunTold(events);
  }

  lemma {:induction false} RunOn(events: seq<Event>, e: Event)
    ensures Run(events + [e]) == Next(Run(events), e)
  {
    assert (events + [e])[..|events|] == events;
  }

  // The SDK takes up an old request while a new one is being made, and refuses the new one:
  // the flag is cleared, and the next session opens beside the running transfer.
  lemma {:induction false} RefusalHidesStart()
    ensures var f := Run([Open(true)] + [Resume] + [Deliver] + [Answer]);
      !f.starting && !f.inflight && f.sdk.cur == Some(0) && Next(f, Open(true)).open
  {
    RunOn([], Open(true));
    assert [] + [Open(true)] == [Open(true)];
    RunOn([Open(true)], Resume);
    RunOn([Open(true)] + [Resume], Deliver);
    RunOn([Open(true)] + [Resume] + [Deliver], Answer);
  }

  // Or its notice has not been delivered yet.
  lemma {:induction false} StartNotHeard()
    ensures var f := Run([Resume]); !f.starting && !f.inflight && f.sdk.cur == Some(0) && Next(f, Open(true)).open
  {
    RunOn([], Resume);
    assert [] + [Resume] == [Resume];
  }

  // ---- Whose end a session has on record ----

  lemma {:induction false} FirstEndedAppend(mail: seq<Notice>, n: Notice)
    ensures FirstEnded(mail + [n]) == if FirstEnded(mail).Some? then FirstEnded(mail) else if n.Ended? then Some(n.t) else None
  {
    if mail != [] {
      assert (mail + [n])[1..] == mail[1..] + [n];
      FirstEndedAppend(mail[1..], n);
    }
  }

  lemma {:induction false} FirstEndedOld(mail: seq<Notice>, made: nat)
    requires forall i :: 0 <= i < |mail| ==> mail[i].t < made
    ensures FirstEnded(mail).Some? ==> FirstEnded(mail).value < made
  {
    if mail != [] { FirstEndedOld(mail[1..], made); }
  }

  // The next end to be recorded is, or is not, that of the session's own transfer.
  predicate OwnNext(s: Sdk) {
    if s.own == None then s.cur == None && FirstEnded(s.mail) == None
    else FirstEnded(s.mail) == s.own || (FirstEnded(s.mail) == None && s.cur == s.own)
  }

  predicate OtherNext(s: Sdk) {
    if FirstEnded(s.mail).Some? then FirstEnded(s.mail) != s.own else s.cur.Some? && s.cur != s.own
  }

  predicate Recorded(f: Flight) {
    && Numbered(f.sdk) && (f.sdk.own.Some? ==> f.sdk.own.value < f.sdk.made)
    && (f.starting ==> f.open) && (f.open && !f.starting ==> f.sdk.own.Some?)
    && (f.open && f.finish == None ==> if f.sdk.clean then OwnNext(f.sdk) else OtherNext(f.sdk))
    && (f.open && f.finish == Some(Success) ==> (f.sdk.own == Some(f.sdk.finishOf) <==> f.sdk.clean))
    && (f.open && f.finish == Some(Success) && !f.sdk.clean ==> f.sdk.finishOf < f.sdk.made)
    && (f.open && f.finish.Some? && f.sdk.clean ==> f.sdk.own.Some?)
  }

  lemma {:induction false} LaunchRecorded(f: Flight, e: Event)
    requires Recorded(f) && (e.Resume? || e.Take?)
    ensures Recorded(Next(f, e))
  {
    FirstEndedOld(f.sdk.mail, f.sdk.made);
    FirstEndedAppend(f.sdk.mail, Started(f.sdk.made));
  }

  lemma {:induction false} EndRecorded(f: Flight, e: Event)
    requires Recorded(f) && (e.End? || e.Extern?)
    ensures Recorded(Next(f, e))
  {
    if f.sdk.cur.Some? { FirstEndedAppend(f.sdk.mail, Ended(f.sdk.cur.value, if e.End? then e.outcome else Failure)); }
  }

  lemma {:induction false} DeliverRecorded(f: Flight)
    requires Recorded(f)
    ensures Recorded(Next(f, Deliver))
  {
  }

  lemma {:induction false} NextRecorded(f: Flight, e: Event)
    requires Recorded(f)
    ensures Recorded(Next(f, e))
  {
    match e
    case Resume => LaunchRecorded(f, e);
    case Take => LaunchRecorded(f, e);
    case End(_) => EndRecorded(f, e);
    case Extern(_) => EndRecorded(f, e);
    case Deliver => DeliverRecorded(f);
    case Open(_) => OpenRecorded(f, e);
    case Answer =>
    case Close =>
  }

  lemma {:induction false} OpenRecorded(f: Flight, e: Event)
    requires Recorded(f) && e.Open?
    ensures Recorded(Next(f, e))
  {
  }

  lemma {:induction false} RunRecorded(events: seq<Event>)
    ensures Recorded(Run(events))
  {
    if events != [] {
      RunRecorded(events[..|events| - 1]);
      NextRecorded(Run(events[..|events| - 1]), events[|events| - 1]);
    }
  }

  // A success on record is that of the session's own transfer if and only if, when the
  // session was opened, no transfer was running and no end underway, and the SDK took up
  // nothing by itself before it took the request.
  lemma {:induction false} SuccessIsOwnExactly(events: seq<Event>)
    requires Run(events).open && Run(events).finish == Some(Success)
    ensures Run(events).sdk.own == Some(Run(events).sdk.finishOf) <==> Run(events).sdk.clean
  {
    RunRecorded(events);
  }

  // The success of an old transfer, delivered after a new session was opened.
  lemma {:induction false} OldSuccess()
    ensures var f := Run([Resume] + [End(Success)] + [Open(true)] + [Deliver] + [Deliver]);
      f.open && f.finish == Some(Success) && f.sdk.own == None && !f.sdk.clean
  {
    RunOn([], Resume);
    assert [] + [Resume] == [Resume];
    RunOn([Resume], End(Success));
    RunOn([Resume] + [End(Success)], Open(true));
    RunOn([Resume] + [End(Success)] + [Open(true)], Deliver);
    RunOn([Resume] + [End(Success)] + [Open(true)] + [Deliver], Deliver);
    assert Run([Resume] + [End(Success)]).sdk.mail == [Started(0), Ended(0, Success)];
    assert [Started(0), Ended(0, Success)][1..] == [Ended(0, Success)];
    assert FirstEnded([Ended(0, Success)]) == Some(0);
  }
}
