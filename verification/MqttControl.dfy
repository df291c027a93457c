// main/APP/MQTT/mqtt_app.c: the client handle. Publishers count themselves in before they
// use it, callbacks of the SDK task and uplink changes arrive at any time, and stop,
// start and reconnect run one at a time in several steps.
module MqttControl {
  import opened Options

  const DISCONNECT_RETRY_MAX := 3

  datatype Phase = STOPPED | CONNECTING | CONNECTED | WAIT_RECONNECT | STOPPING

  // Where the holder of the lifecycle lock is.
  datatype Life = Unlocked
                | StopNoClient          // stop, nothing to tear down
                | StopSdk               // stop, SDK task about to be stopped
                | Drain                 // stop, waiting for publishers
                | Destroy(failed: bool) // handle about to be destroyed; after a failed start?
                | Register              // start, handle just created
                | StartSdk              // start, SDK about to be started
                | StartMark             // start, SDK running
                | Reconnect(epoch: nat) // reconnect, SDK about to be asked
                | ReconnectMark

  // The connection as the state spinlock protects it.
  datatype Control = Control(client: Option<nat>, generation: nat, epoch: nat, phase: Phase, connected: bool,
                             switching: bool, requested: bool, failures: nat, route: nat, attempt: nat, refs: nat)

  datatype State = State(c: Control, started: bool, life: Life, running: bool, made: nat, holders: map<nat, nat>)

  function Initial(): State {
    State(Control(None, 0, 0, STOPPED, false, false, false, 0, 0, 0, 0), false, Unlocked, false, 0, map[])
  }

  // ---- Sections under the state spinlock ----

  predicate MayAcquire(c: Control, epoch: nat) {
    c.connected && c.phase == CONNECTED && !c.switching && (epoch == 0 || epoch == c.epoch) && c.client.Some?
  }

  function Acquire(c: Control, epoch: nat): Control {
    if MayAcquire(c, epoch) then c.(refs := c.refs + 1) else c
  }

  function BeforeConnect(c: Control, client: nat): Control {
    if c.client == Some(client) && c.phase != STOPPING
    then c.(phase := CONNECTING, attempt := c.route, requested := false) else c
  }

  predicate Running(c: Control, client: nat) { c.client == Some(client) && c.phase != STOPPING && c.phase != STOPPED }

  function Connected(c: Control, client: nat, root: bool): Control {
    if !Running(c, client) then c
    else if root && c.switching && c.attempt != c.route then c.(phase := CONNECTED)
    else c.(phase := CONNECTED, switching := false, requested := false, failures := 0, connected := true, epoch := c.epoch + 1)
  }

  function Disconnected(c: Control, client: nat): Control {
    if Running(c, client) then c.(epoch := c.epoch + 1, connected := false, phase := WAIT_RECONNECT, requested := false) else c
  }

  function UplinkChanged(c: Control, none: bool): Control {
    c.(route := c.route + 1, switching := c.phase != STOPPED && c.phase != STOPPING && !none, failures := 0,
       connected := if none then false else c.connected)
  }

  // An uplink change asks the SDK to disconnect, once.
  function RequestDisconnect(c: Control, client: nat, uplink: bool): Control {
    if c.client == Some(client) && c.phase == CONNECTED && c.switching && !c.requested && uplink && c.failures < DISCONNECT_RETRY_MAX
    then c.(requested := true, connected := false) else c
  }

  // The SDK refused to disconnect; after three refusals the old connection is kept.
  function RefusedDisconnect(c: Control, client: nat, route: nat): Control {
    if !(c.client == Some(client) && c.phase == CONNECTED) then c
    else
      var d := c.(requested := false);
      if c.route != route then d
      else if c.failures + 1 >= DISCONNECT_RETRY_MAX then d.(failures := c.failures + 1, switching := false, connected := true)
      else d.(failures := c.failures + 1)
  }

  function StopControl(c: Control): Control {
    c.(epoch := c.epoch + 1, phase := STOPPING, switching := false, connected := false)
  }

  function DestroyControl(c: Control, ok: bool): Control {
    if !ok then c.(phase := STOPPING)
    else c.(client := None, generation := c.generation + 1, phase := STOPPED, switching := false, requested := false, connected := false)
  }

  function StartControl(c: Control, client: nat, root: bool): Control {
    c.(client := Some(client), generation := c.generation + 1, epoch := c.epoch + 1,
       phase := if root then CONNECTING else WAIT_RECONNECT, switching := false, requested := false, connected := false)
  }

  // ---- The tasks together ----

  datatype Event = EAcquire(publisher: nat, epoch: nat)
                 | ERelease(publisher: nat)
                 | EBeforeConnect
                 | EConnected(root: bool)
                 | EDisconnected
                 | EUplink(none: bool)
                 | ERequest(uplink: bool)
                 | ERefused(route: nat)
                 | EStop
                 | EStart(root: bool)
                 | EReconnect
                 | ELife(ok: bool, root: bool)   // the next step of stop, start or reconnect

  // What comes next for the holder of the lifecycle lock; `ok` is what the SDK, or the
  // clock while draining, makes of it.
  function Advance(s: State, ok: bool, root: bool): State {
    match s.life
    case Unlocked => s
    case StopNoClient => s.(c := s.c.(phase := STOPPED), life := Unlocked)
    case StopSdk =>
      if !s.started then s.(life := Drain)
      else if ok then s.(started := false, running := false, life := Drain) else s.(life := Unlocked)
    case Drain =>
      if s.c.refs == 0 then s.(life := Destroy(false)) else if ok then s else s.(life := Unlocked)
    case Destroy(_) => s.(c := DestroyControl(s.c, ok), life := Unlocked)
    case Register => if !ok then s.(life := Destroy(true)) else if root then s.(life := StartSdk) else s.(life := Unlocked)
    case StartSdk => if ok then s.(running := true, life := StartMark) else s.(life := Destroy(true))
    case StartMark => s.(started := true, life := Unlocked)
    case Reconnect(epoch) =>
      if ok then (if s.started then s.(life := Unlocked) else s.(running := true, life := ReconnectMark))
      else s.(c := if epoch == s.c.epoch && s.c.phase == CONNECTING then s.c.(phase := WAIT_RECONNECT) else s.c, life := Unlocked)
    case ReconnectMark => s.(started := true, life := Unlocked)
  }

  function Next(s: State, e: Event): State {
    match e
    case EAcquire(p, epoch) =>
      if p !in s.holders && MayAcquire(s.c, epoch)
      then s.(c := Acquire(s.c, epoch), holders := s.holders[p := s.c.client.value]) else s
    case ERelease(p) =>
      if p in s.holders && s.c.refs > 0 then s.(c := s.c.(refs := s.c.refs - 1), holders := s.holders - {p}) else s
    case EBeforeConnect => if s.running && s.c.client.Some? then s.(c := BeforeConnect(s.c, s.c.client.value)) else s
    case EConnected(root) => if s.running && s.c.client.Some? then s.(c := Connected(s.c, s.c.client.value, root)) else s
    case EDisconnected => if s.running && s.c.client.Some? then s.(c := Disconnected(s.c, s.c.client.value)) else s
    case EUplink(none) => s.(c := UplinkChanged(s.c, none))
    case ERequest(uplink) => if s.c.client.Some? then s.(c := RequestDisconnect(s.c, s.c.client.value, uplink)) else s
    case ERefused(route) => if s.c.client.Some? then s.(c := RefusedDisconnect(s.c, s.c.client.value, route)) else s
    case EStop =>
      if !s.life.Unlocked? then s
      else s.(c := StopControl(s.c), life := if s.c.client == None then StopNoClient else StopSdk)
    case EStart(root) =>
      if !s.life.Unlocked? || s.c.client.Some? then s
      else s.(c := StartControl(s.c, s.made, root), made := s.made + 1, life := Register)
    case EReconnect =>
      if s.life.Unlocked? && s.c.client.Some? && s.c.phase == WAIT_RECONNECT
      then s.(c := s.c.(phase := CONNECTING), life := Reconnect(s.c.epoch)) else s
    case ELife(ok, root) => Advance(s, ok, root)
  }

  function Run(s: State, events: seq<Event>): State {
    if events == [] then s else Next(Run(s, events[..|events| - 1]), events[|events| - 1])
  }

  predicate Inv(s: State) {
    && s.c.refs == |s.holders|
    && (forall p :: p in s.holders ==> s.c.client == Some(s.holders[p]))
    && (s.c.client == None ==> !s.running && !s.started && s.holders == map[])
    && (s.c.client == None ==> s.c.phase == STOPPED || (s.c.phase == STOPPING && s.life == StopNoClient))
    && (s.c.client.Some? ==> s.c.phase != STOPPED && s.c.client.value < s.made)
    && (s.running <==> s.started || s.life == StartMark || s.life == ReconnectMark)
    && (s.c.phase == CONNECTED ==> s.running)
    && match s.life
       case Unlocked => true
       case StopNoClient => s.c.client == None && s.c.phase == STOPPING
       case StopSdk => s.c.client.Some? && s.c.phase == STOPPING
       case Drain => s.c.client.Some? && s.c.phase == STOPPING && !s.running
       case Destroy(failed) => s.c.client.Some? && !s.running && s.holders == map[] && (failed || s.c.phase == STOPPING)
       case Register => s.c.client.Some? && !s.running && s.holders == map[]
       case StartSdk => s.c.client.Some? && !s.running && s.holders == map[]
       case StartMark => s.c.client.Some? && s.running
       case Reconnect(_) => s.c.client.Some?
       case ReconnectMark => s.c.client.Some? && s.running
  }

  lemma {:induction false} HolderCounts(m: map<nat, nat>, p: nat, x: nat)
    ensures p in m ==> |m| > 0 && |m - {p}| == |m| - 1
    ensures p !in m ==> |m[p := x]| == |m| + 1
  {
    if p in m {
      assert (m - {p}).Keys == m.Keys - {p};
      assert |(m - {p}).Keys| == |m - {p}| && |m.Keys| == |m|;
    } else {
      assert m[p := x].Keys == m.Keys + {p};
      assert |m[p := x].Keys| == |m[p := x]| && |m.Keys| == |m|;
    }
  }

  lemma {:induction false} NoneHeld(m: map<nat, nat>)
    requires |m| == 0
    ensures m == map[]
  {
    assert |m.Keys| == |m|;
  }

  lemma {:induction false} PublisherOk(s: State, e: Event)
    requires Inv(s) && (e.EAcquire? || e.ERelease?)
    ensures Inv(Next(s, e))
  {
    HolderCounts(s.holders, e.publisher, if s.c.client.Some? then s.c.client.value else 0);
  }

  lemma {:induction false} SdkOk(s: State, e: Event)
    requires Inv(s) && (e.EBeforeConnect? || e.EConnected? || e.EDisconnected? || e.EUplink? || e.ERequest? || e.ERefused?)
    ensures Inv(Next(s, e))
  {
  }

  lemma {:induction false} BeginOk(s: State, e: Event)
    requires Inv(s) && (e.EStop? || e.EStart? || e.EReconnect?)
    ensures Inv(Next(s, e))
  {
  }

  lemma {:induction false} AdvanceOk(s: State, ok: bool, root: bool)
    requires Inv(s)
    ensures Inv(Advance(s, ok, root))
  {
    if s.c.refs == 0 { NoneHeld(s.holders); }
  }

  lemma {:induction false} NextOk(s: State, e: Event)
    requires Inv(s)
    ensures Inv(Next(s, e))
  {
    if e.EAcquire? || e.ERelease? { PublisherOk(s, e); }
    else if e.EStop? || e.EStart? || e.EReconnect? { BeginOk(s, e); }
    else if e.ELife? { AdvanceOk(s, e.ok, e.root); }
    else { SdkOk(s, e); }
  }

  lemma {:induction false} RunOk(events: seq<Event>)
    ensures Inv(Run(Initial(), events))
  {
    if events != [] {
      RunOk(events[..|events| - 1]);
      NextOk(Run(Initial(), events[..|events| - 1]), events[|events| - 1]);
    }
  }

  // ---- What follows for every run ----

  // The count is the number of publishers, and each of them holds the live client.
  lemma {:induction false} RefsAreHolders(events: seq<Event>)
    ensures var s := Run(Initial(), events);
      s.c.refs == |s.holders| && forall p :: p in s.holders ==> s.c.client == Some(s.holders[p])
  {
    RunOk(events);
  }

  // A client goes only when nobody holds it and the SDK task does not run.
  lemma {:induction false} NeverDestroyedWhileHeld(events: seq<Event>, e: Event)
    ensures var s, t := Run(Initial(), events), Next(Run(Initial(), events), e);
      s.c.client.Some? && t.c.client != s.c.client ==> s.holders == map[] && !s.running && t.c.phase == STOPPED
  {
    RunOk(events);
    NextOk(Run(Initial(), events), e);
  }

  // Stopping can only end in stopped.
  lemma {:induction false} StoppingIsFinal(events: seq<Event>, e: Event)
    requires Run(Initial(), events).c.phase == STOPPING
    ensures Next(Run(Initial(), events), e).c.phase in {STOPPING, STOPPED}
  {
    RunOk(events);
  }

  // Once a stop has begun nobody else gets the handle, so the drain can only progress.
  lemma {:induction false} DrainOnlyShrinks(events: seq<Event>, e: Event)
    requires Run(Initial(), events).c.phase == STOPPING
    ensures Next(Run(Initial(), events), e).c.refs <= Run(Initial(), events).c.refs
    ensures Next(Run(Initial(), events), e).holders.Keys <= Run(Initial(), events).holders.Keys
  {
    RunOk(events);
  }

  // ---- Whose handle a publisher gets ----

  predicate OfRunning(s: State) { s.running && s.c.client.Some? && s.c.phase != STOPPING && s.c.phase != STOPPED }

  // The client reports a connection.
  predicate LinksUp(s: State, e: Event) { e.EConnected? && OfRunning(s) }

  // It was made on a route since left.
  predicate Stale(s: State, e: Event) { e.EConnected? && e.root && s.c.switching && s.c.attempt != s.c.route }

  // A disconnect, a stop, a start, a new attempt, or a newer connection.
  predicate Ends(s: State, e: Event) {
    || (e.EDisconnected? && OfRunning(s))
    || (e.EBeforeConnect? && s.running && s.c.client.Some? && s.c.phase != STOPPING)
    || (e.EStop? && s.life.Unlocked?) || (e.EStart? && s.life.Unlocked? && s.c.client == None)
    || LinksUp(s, e)
  }

  // Event i brought the connection there is now.
  predicate Made(events: seq<Event>, i: nat) {
    && i < |events| && LinksUp(Run(Initial(), events[..i]), events[i])
    && forall j :: i < j < |events| ==> !Ends(Run(Initial(), events[..j]), events[j])
  }

  predicate MadeWith(events: seq<Event>, i: nat, client: Option<nat>, epoch: nat) {
    && Made(events, i) && Run(Initial(), events[..i]).c.client == client
    && epoch == Run(Initial(), events[..i]).c.epoch + (if Stale(Run(Initial(), events[..i]), events[i]) then 0 else 1)
  }

  // In a step that ends nothing the connection stays with its client and epoch.
  lemma {:induction false} StaysLinked(s: State, e: Event)
    requires Inv(s) && !Ends(s, e) && Next(s, e).c.phase == CONNECTED
    ensures s.c.phase == CONNECTED && Next(s, e).c.epoch == s.c.epoch && Next(s, e).c.client == s.c.client
  {
  }

  lemma {:induction false} Linked(events: seq<Event>)
    ensures var c := Run(Initial(), events).c;
      c.phase == CONNECTED ==> exists i: nat :: MadeWith(events, i, c.client, c.epoch)
  {
    if events != [] && Run(Initial(), events).c.phase == CONNECTED {
      var k := |events| - 1;
      var s, c := Run(Initial(), events[..k]), Run(Initial(), events).c;
      RunOk(events[..k]);
      if LinksUp(s, events[k]) {
        NewlyMade(events, k, s);
      } else {
        Linked(events[..k]);
        NotEnded(s, events[k]);
        StaysLinked(s, events[k]);
        var i: nat :| MadeWith(events[..k], i, s.c.client, s.c.epoch);
        StillMade(events, i, s);
        assert MadeWith(events, i, c.client, c.epoch);
      }
    }
  }

  lemma {:induction false} NewlyMade(events: seq<Event>, k: nat, s: State)
    requires |events| == k + 1 && s == Run(Initial(), events[..k]) && Inv(s) && LinksUp(s, events[k])
    ensures MadeWith(events, k, Next(s, events[k]).c.client, Next(s, events[k]).c.epoch)
  {
  }

  lemma {:induction false} StillMade(events: seq<Event>, i: nat, s: State)
    requires events != [] && s == Run(Initial(), events[..|events| - 1])
    requires MadeWith(events[..|events| - 1], i, s.c.client, s.c.epoch) && !Ends(s, events[|events| - 1])
    ensures MadeWith(events, i, s.c.client, s.c.epoch)
  {
    var k := |events| - 1;
    assert events[..k][..i] == events[..i];
    forall j | i < j < |events| ensures !Ends(Run(Initial(), events[..j]), events[j]) {
      if j < k { assert events[..k][..j] == events[..j] && events[..k][j] == events[j]; }
    }
  }

  lemma {:induction false} NotEnded(s: State, e: Event)
    requires Inv(s) && !LinksUp(s, e) && Next(s, e).c.phase == CONNECTED
    ensures !Ends(s, e)
  {
  }

  // A publisher that names an epoch gets the handle only of a connection that came in that
  // epoch, with no disconnect, stop, start, attempt or newer connection since. The epoch is
  // the connection's own, begun by it, if and only if it did not arrive on a route since left.
  lemma {:induction false} HandleOfEpoch(events: seq<Event>, publisher: nat, at: nat)
    requires at != 0 && publisher !in Run(Initial(), events).holders
    requires publisher in Next(Run(Initial(), events), EAcquire(publisher, at)).holders
    ensures exists i: nat :: MadeWith(events, i, Run(Initial(), events).c.client, at)
    ensures Next(Run(Initial(), events), EAcquire(publisher, at)).holders[publisher] == Run(Initial(), events).c.client.value
  {
    Linked(events);
  }

  lemma {:induction false} RunOn(events: seq<Event>, e: Event)
    ensures Run(Initial(), events + [e]) == Next(Run(Initial(), events), e)
  {
    assert (events + [e])[..|events|] == events;
  }

  function Up(): seq<Event> {
    [EStart(true)] + [ELife(true, true)] + [ELife(true, true)] + [ELife(true, true)] + [EBeforeConnect]
  }

  // Started on the root, with the first attempt under way.
  lemma {:induction false} ComesUp()
    ensures var s := Run(Initial(), Up());
      s.running && s.started && s.life.Unlocked? && s.holders == map[] && s.c == Control(Some(0), 1, 1, CONNECTING, false, false, false, 0, 0, 0, 0)
  {
    RunOn([], EStart(true));
    assert [] + [EStart(true)] == [EStart(true)];
    RunOn([EStart(true)], ELife(true, true));
    RunOn([EStart(true)] + [ELife(true, true)], ELife(true, true));
    RunOn([EStart(true)] + [ELife(true, true)] + [ELife(true, true)], ELife(true, true));
    RunOn([EStart(true)] + [ELife(true, true)] + [ELife(true, true)] + [ELife(true, true)], EBeforeConnect);
  }

  // It connects, and a publisher gets the handle.
  lemma {:induction false} ConnectsAndServes(publisher: nat)
    ensures var s := Run(Initial(), Up() + [EConnected(true)]);
      s.c.epoch == 2 && publisher in Next(s, EAcquire(publisher, 2)).holders && publisher !in Next(s, EAcquire(publisher, 1)).holders
  {
    ComesUp();
    RunOn(Up(), EConnected(true));
  }

  function ChildUp(): seq<Event> { [EStart(false)] + [ELife(true, false)] + [EReconnect] + [ELife(true, false)] + [ELife(true, false)] }

  // A child starts without connecting, and connects when its turn comes.
  lemma {:induction false} ChildStarts()
    ensures var s := Run(Initial(), ChildUp());
      s.running && s.started && s.life.Unlocked? && s.holders == map[] && s.c == Control(Some(0), 1, 1, CONNECTING, false, false, false, 0, 0, 0, 0)
  {
    RunOn([], EStart(false));
    assert [] + [EStart(false)] == [EStart(false)];
    RunOn([EStart(false)], ELife(true, false));
    RunOn([EStart(false)] + [ELife(true, false)], EReconnect);
    RunOn([EStart(false)] + [ELife(true, false)] + [EReconnect], ELife(true, false));
    RunOn([EStart(false)] + [ELife(true, false)] + [EReconnect] + [ELife(true, false)], ELife(true, false));
  }

  lemma {:induction false} ChildConnects(publisher: nat)
    ensures publisher in Next(Run(Initial(), ChildUp() + [EBeforeConnect] + [EConnected(false)]), EAcquire(publisher, 2)).holders
  {
    ChildStarts();
    RunOn(ChildUp(), EBeforeConnect);
    RunOn(ChildUp() + [EBeforeConnect], EConnected(false));
  }

  // The uplink changes while the client is connecting; the connection comes on the old
  // route, and the SDK refuses three times to drop it. It is kept and served in the epoch
  // of the start.
  lemma {:induction false} StaleKept(publisher: nat)
    ensures var s := Run(Initial(), Up() + [EUplink(false)] + [EConnected(true)] + [ERefused(1)] + [ERefused(1)] + [ERefused(1)]);
      s.c.phase == CONNECTED && s.c.epoch == 1 && publisher in Next(s, EAcquire(publisher, 1)).holders
  {
    ComesUp();
    RunOn(Up(), EUplink(false));
    RunOn(Up() + [EUplink(false)], EConnected(true));
    RunOn(Up() + [EUplink(false)] + [EConnected(true)], ERefused(1));
    RunOn(Up() + [EUplink(false)] + [EConnected(true)] + [ERefused(1)], ERefused(1));
    RunOn(Up() + [EUplink(false)] + [EConnected(true)] + [ERefused(1)] + [ERefused(1)], ERefused(1));
  }

  // After a stop has drained, the client goes.
  lemma {:induction false} StopsAndGoes()
    ensures var s := Run(Initial(), Up() + [EStop] + [ELife(true, true)] + [ELife(true, true)] + [ELife(true, true)]);
      s.c.client == None && s.c.phase == STOPPED && s.life.Unlocked? && !s.running
  {
    ComesUp();
    RunOn(Up(), EStop);
    RunOn(Up() + [EStop], ELife(true, true));
    RunOn(Up() + [EStop] + [ELife(true, true)], ELife(true, true));
    RunOn(Up() + [EStop] + [ELife(true, true)] + [ELife(true, true)], ELife(true, true));
  }

  // The static variables of the source; each method is one section under the spinlock, and
  // one event of the whole.
  class Client {
    var client: Option<nat>
    var generation: nat
    var epoch: nat
    var phase: Phase
    var connected: bool
    var switching: bool
    var requested: bool
    var failures: nat
    var route: nat
    var attempt: nat
    var refs: nat
    ghost var started: bool
    ghost var life: Life
    ghost var running: bool
    ghost var made: nat
    ghost var holders: map<nat, nat>

    function View(): Control
      reads this
    {
      Control(client, generation, epoch, phase, connected, switching, requested, failures, route, attempt, refs)
    }

    ghost function Whole(): State
      reads this
    {
      State(View(), started, life, running, made, holders)
    }

    constructor ()
      ensures Whole() == Initial()
    {
      client, generation, epoch, phase, connected := None, 0, 0, STOPPED, false;
      switching, requested, failures, route, attempt, refs := false, false, 0, 0, 0, 0;
      started, life, running, made, holders := false, Unlocked, false, 0, map[];
    }

    // The next step of stop, start or reconnect that leaves the spinlock's variables alone.
    ghost method Step(s: State, ok: bool, root: bool)
      requires s == Next(Whole(), ELife(ok, root)) && s.c == View() && s.made == made && s.holders == holders
      modifies `started, `life, `running
      ensures Whole() == s
    {
      started, life, running := s.started, s.life, s.running;
    }

    // A publisher gets the handle, and counts for it, only while the session is usable.
    method AcquireClient(at: nat, ghost publisher: nat) returns (handle: Option<nat>)
      requires publisher !in holders
      modifies `refs, `holders
      ensures Whole() == Next(old(Whole()), EAcquire(publisher, at))
      ensures handle.Some? <==> connected && phase == CONNECTED && !switching && (at == 0 || at == epoch) && client.Some?
      ensures refs == old(refs) + if handle.Some? then 1 else 0
      ensures handle.Some? ==> client == handle && publisher in holders
    {
      handle := if connected && phase == CONNECTED && !switching && (at == 0 || at == epoch) then client else None;
      if handle.Some? {
        refs := refs + 1;
        holders := holders[publisher := handle.value];
      }
    }

    method Release(ghost publisher: nat)
      requires publisher in holders && refs > 0
      modifies `refs, `holders
      ensures Whole() == Next(old(Whole()), ERelease(publisher)) && refs == old(refs) - 1
    {
      refs := refs - 1;
      holders := holders - {publisher};
    }

    // Callbacks: an event of the present client comes only while its SDK task runs.
    method OnBeforeConnect(from: nat)
      requires (client == Some(from) ==> running)
      modifies `phase, `attempt, `requested
      ensures Whole() == if client == Some(from) then Next(old(Whole()), EBeforeConnect) else old(Whole())
      ensures if client == Some(from) && old(phase) != STOPPING then phase == CONNECTING && attempt == route && !requested
              else phase == old(phase) && attempt == old(attempt) && requested == old(requested)
    {
      if client == Some(from) && phase != STOPPING {
        phase, attempt, requested := CONNECTING, route, false;
      }
    }

    // True: the connection may be used; false: stale or not ours.
    method OnConnected(from: nat, root: bool) returns (use: bool)
      requires (client == Some(from) ==> running)
      modifies `phase, `switching, `requested, `failures, `connected, `epoch
      ensures Whole() == if client == Some(from) then Next(old(Whole()), EConnected(root)) else old(Whole())
      ensures use == (client == Some(from) && old(phase) != STOPPING && old(phase) != STOPPED && !(root && old(switching) && attempt != route))
      ensures use ==> connected && phase == CONNECTED && !switching && !requested && failures == 0 && epoch == old(epoch) + 1
      ensures !use ==> connected == old(connected) && switching == old(switching) && epoch == old(epoch)
      ensures !use && phase != old(phase) ==> phase == CONNECTED && switching
    {
      var usable := client == Some(from) && phase != STOPPING && phase != STOPPED;
      var stale := usable && root && switching && attempt != route;
      if usable {
        phase := CONNECTED;
        if !stale {
          switching, requested, failures, connected, epoch := false, false, 0, true, epoch + 1;
        }
      }
      use := usable && !stale;
    }

    method OnDisconnected(from: nat)
      requires (client == Some(from) ==> running)
      modifies `epoch, `connected, `phase, `requested
      ensures Whole() == if client == Some(from) then Next(old(Whole()), EDisconnected) else old(Whole())
      ensures if client == Some(from) && old(phase) != STOPPING && old(phase) != STOPPED
              then epoch == old(epoch) + 1 && !connected && phase == WAIT_RECONNECT && !requested
              else epoch == old(epoch) && connected == old(connected) && phase == old(phase)
    {
      if client == Some(from) && phase != STOPPING && phase != STOPPED {
        epoch, connected, phase, requested := epoch + 1, false, WAIT_RECONNECT, false;
      }
    }

    method OnUplinkChanged(none: bool)
      modifies `route, `switching, `failures, `connected
      ensures Whole() == Next(old(Whole()), EUplink(none))
      ensures route == old(route) + 1 && failures == 0 && connected == (old(connected) && !none)
      ensures switching == (phase != STOPPED && phase != STOPPING && !none)
    {
      route := route + 1;
      switching, failures := phase != STOPPED && phase != STOPPING && !none, 0;
      if none { connected := false; }
    }

    // True: the SDK is asked to disconnect now.
    method Request(from: nat, uplink: bool) returns (request: bool)
      modifies `requested, `connected
      ensures Whole() == if client == Some(from) then Next(old(Whole()), ERequest(uplink)) else old(Whole())
      ensures requested == (old(requested) || request) && connected == (old(connected) && !request)
      ensures request == (client == Some(from) && phase == CONNECTED && switching && !old(requested) && uplink && failures < DISCONNECT_RETRY_MAX)
    {
      request := client == Some(from) && phase == CONNECTED && switching && !requested && uplink && failures < DISCONNECT_RETRY_MAX;
      if request { requested, connected := true, false; }
    }

    method Refused(from: nat, at: nat)
      modifies `requested, `failures, `switching, `connected
      ensures Whole() == if client == Some(from) then Next(old(Whole()), ERefused(at)) else old(Whole())
      ensures client == Some(from) && phase == CONNECTED ==> !requested
      ensures client == Some(from) && phase == CONNECTED && route == at ==>
        failures == old(failures) + 1 && (if failures >= 3 then !switching && connected else switching == old(switching) && connected == old(connected))
      ensures !(client == Some(from) && phase == CONNECTED && route == at) ==>
        failures == old(failures) && switching == old(switching) && connected == old(connected)
    {
      if client == Some(from) && phase == CONNECTED {
        requested := false;
        if route == at {
          failures := failures + 1;
          if failures >= DISCONNECT_RETRY_MAX { switching, connected := false, true; }
        }
      }
    }

    method BeginStop()
      requires life.Unlocked?
      modifies `epoch, `phase, `switching, `connected, `life
      ensures Whole() == Next(old(Whole()), EStop)
      ensures phase == STOPPING && epoch == old(epoch) + 1 && !switching && !connected
    {
      life := if client == None then StopNoClient else StopSdk;
      epoch, phase, switching, connected := epoch + 1, STOPPING, false, false;
    }

    // mqtt_destroy_client_locked
    method DestroyClient(ok: bool)
      requires life.Destroy?
      modifies `client, `generation, `phase, `switching, `requested, `connected, `life
      ensures Whole() == Next(old(Whole()), ELife(ok, false))
      ensures if ok then client == None && phase == STOPPED && generation == old(generation) + 1 && !connected
              else client == old(client) && phase == STOPPING && generation == old(generation)
    {
      Forget(ok);
      life := Unlocked;
    }

    method Forget(ok: bool)
      modifies `client, `generation, `phase, `switching, `requested, `connected
      ensures View() == DestroyControl(old(View()), ok)
    {
      if !ok {
        phase := STOPPING;
        return;
      }
      client, generation, phase := None, generation + 1, STOPPED;
      switching, requested, connected := false, false, false;
    }

    method Create(handle: nat, root: bool)
      requires life.Unlocked? && client == None && handle == made
      modifies `client, `generation, `epoch, `phase, `switching, `requested, `connected, `life, `made
      ensures Whole() == Next(old(Whole()), EStart(root))
      ensures client == Some(handle) && generation == old(generation) + 1 && epoch == old(epoch) + 1
      ensures phase == (if root then CONNECTING else WAIT_RECONNECT) && !connected && !switching
    {
      Adopt(handle, root);
      life, made := Register, made + 1;
    }

    method Adopt(handle: nat, root: bool)
      modifies `client, `generation, `epoch, `phase, `switching, `requested, `connected
      ensures View() == StartControl(old(View()), handle, root)
    {
      client, generation, epoch := Some(handle), generation + 1, epoch + 1;
      phase := if root then CONNECTING else WAIT_RECONNECT;
      switching, requested, connected := false, false, false;
    }
  }
}
