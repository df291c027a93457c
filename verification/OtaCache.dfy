// main/APP/OTA/ota_cache.c and the finalization in mesh_ota.c: a record in NVS says which
// image a slot of flash holds. Whatever step a power cut follows, the record is true.
module OtaCache {
  import opened Options
  import opened OtaRecord

  datatype Slot = Ota0 | Ota1

  function Other(s: Slot): Slot { if s == Ota0 then Ota1 else Ota0 }

  datatype Flash = Flash(zero: seq<int>, one: seq<int>)

  function At(f: Flash, s: Slot): seq<int> { if s == Ota0 then f.zero else f.one }

  function Written(f: Flash, s: Slot, bytes: seq<int>): Flash { if s == Ota0 then f.(zero := bytes) else f.(one := bytes) }

  // What the device computes with, and its two partitions.
  datatype Env = Env(hash: seq<int> -> string, crc: Record -> int, comparable: string -> bool, zero: Partition, one: Partition)

  function Place(env: Env, s: Slot): Partition { if s == Ota0 then env.zero else env.one }

  predicate Sound(env: Env) {
    env.zero.subtype == OTA_0 && env.one.subtype == OTA_1 && env.zero.address != env.one.address && env.zero.name != env.one.name
  }

  // What survives a power cut.
  datatype Stored = Stored(flash: Flash, blob: Option<Blob>, boot: Slot)

  // What does not: a session that may write, the candidate being finalized with its hash
  // once known, whether its record was committed, and whether a restart is due.
  datatype Ram = Ram(running: Slot, session: bool, candidate: Option<Record>, sha: Option<string>, persisted: bool, restart: bool)

  datatype Device = Device(s: Stored, r: Ram)

  function Boot(s: Stored): Device { Device(s, Ram(s.boot, false, None, None, false, false)) }

  function Target(d: Device): Slot { Other(d.r.running) }

  function SlotOf(r: Record): Slot { if r.subtype == OTA_0 then Ota0 else Ota1 }

  // The record is filled in for a slot, as ota_cache_record_init does.
  function For(env: Env, s: Slot, r: Record): Record {
    var p := Place(env, s);
    r.(subtype := p.subtype, address := p.address, partitionSize := p.size, partition := p.name)
  }

  // The recorded hash is that of the recorded bytes, in the slot recorded.
  predicate True(env: Env, f: Flash, r: Record) {
    r == For(env, SlotOf(r), r) && r.imageSize <= |At(f, SlotOf(r))| && env.hash(At(f, SlotOf(r))[..r.imageSize]) == r.sha
  }

  function OnRecord(env: Env, s: Stored): Option<Record> { Content(s.blob, env.crc, env.comparable) }

  datatype Event = BeginWrite(readable: bool, ok: bool, erased: bool) // ota_cache_before_write, then the session
                 | Write(bytes: seq<int>)                     // the target slot holds these bytes now
                 | Abandon
                 | Complete(r: Record)
                 | Restore(again: bool)                       // at start, or for a command naming the same image
                 | Distrust                                   // a record that fails its check is erased
                 | BindRunning(r: Record)
                 | HashCandidate
                 | StoreRecord(ok: bool, done: bool)          // an NVS commit either happens or not
                 | SelectBoot(newer: bool, ok: bool)
                 | Finish
                 | PowerCut

  function Next(env: Env, d: Device, e: Event): Device {
    var s, r := d.s, d.r;
    var idle := r.candidate == None && !r.restart;
    match e
    case BeginWrite(readable, ok, erased) =>
      if !idle || r.session then d
      else
        var p, done := Place(env, Target(d)), ok || erased;
        Device(s.(blob := AfterBeforeWrite(s.blob, p, env.crc, env.comparable, readable, done)),
               r.(session := BeforeWriteOk(s.blob, p, env.crc, env.comparable, readable, ok)))
    case Write(bytes) => if r.session then d.(s := s.(flash := Written(s.flash, Target(d), bytes))) else d
    case Abandon => d.(r := r.(session := false))
    case Complete(m) =>
      if !r.session || m.imageSize > |At(s.flash, Target(d))| then d
      else d.(r := r.(session := false, candidate := Some(For(env, Target(d), m).(origin := DOWNLOAD)), sha := None, persisted := false))
    case Restore(again) =>
      if !idle || r.session || OnRecord(env, s) == None || !True(env, s.flash, OnRecord(env, s).value) then d
      else
        var c := if again then OnRecord(env, s).value.(origin := CURRENT) else OnRecord(env, s).value;
        d.(r := r.(candidate := Some(c), sha := Some(c.sha), persisted := !again))
    case Distrust => if idle && !r.session then d.(s := s.(blob := None)) else d
    case BindRunning(m) =>
      if !idle || r.session || m.origin == DOWNLOAD || m.imageSize > |At(s.flash, r.running)| then d
      else
        var sha := env.hash(At(s.flash, r.running)[..m.imageSize]);
        d.(r := r.(candidate := Some(For(env, r.running, m).(sha := sha)), sha := Some(sha), persisted := false))
    case HashCandidate =>
      if r.candidate == None || r.sha.Some? || r.candidate.value.imageSize > |At(s.flash, SlotOf(r.candidate.value))| then d
      else d.(r := r.(sha := Some(env.hash(At(s.flash, SlotOf(r.candidate.value))[..r.candidate.value.imageSize]))))
    case StoreRecord(ok, done) =>
      if r.candidate == None || r.sha == None || r.persisted then d
      else
        var c := r.candidate.value.(sha := r.sha.value);
        d.(s := s.(blob := AfterStore(s.blob, c, env.crc, env.comparable, ok || done)), r := r.(persisted := RecordValid(c, env.comparable) && ok))
    case SelectBoot(newer, ok) =>
      if r.candidate == None || !r.persisted || r.candidate.value.origin != DOWNLOAD || !newer || !ok then d
      else d.(s := s.(boot := SlotOf(r.candidate.value)), r := r.(restart := true))
    case Finish => if r.persisted then d.(r := r.(candidate := None, sha := None, persisted := false)) else d
    case PowerCut => Boot(s)
  }

  function Run(env: Env, d: Device, events: seq<Event>): Device {
    if events == [] then d else Next(env, Run(env, d, events[..|events| - 1]), events[|events| - 1])
  }

  predicate RecordTrue(env: Env, s: Stored) { OnRecord(env, s).Some? ==> True(env, s.flash, OnRecord(env, s).value) }

  predicate CandidateOk(env: Env, d: Device) {
    d.r.candidate.Some? ==>
      && var c := d.r.candidate.value;
      && c == For(env, SlotOf(c), c) && c.imageSize <= |At(d.s.flash, SlotOf(c))|
      && (d.r.sha.Some? ==> True(env, d.s.flash, c.(sha := d.r.sha.value)))
      && (d.r.persisted ==> OnRecord(env, d.s).Some? && SlotOf(OnRecord(env, d.s).value) == SlotOf(c))
  }

  predicate Inv(env: Env, d: Device) {
    && RecordTrue(env, d.s) && CandidateOk(env, d)
    && (d.r.session ==> d.r.candidate == None && !d.r.restart && (OnRecord(env, d.s).Some? ==> SlotOf(OnRecord(env, d.s).value) != Target(d)))
    && (d.r.candidate == None ==> !d.r.persisted)
    && (d.s.boot != d.r.running ==> d.r.restart && OnRecord(env, d.s).Some? && SlotOf(OnRecord(env, d.s).value) == d.s.boot)
    && (d.r.restart ==> d.r.candidate == None || d.r.persisted)
  }

  lemma {:induction false} BeginOk(env: Env, d: Device, e: Event)
    requires Sound(env) && Inv(env, d) && e.BeginWrite?
    ensures Inv(env, Next(env, d, e))
  {
    ClearedBeforeWrite(d.s.blob, Place(env, Target(d)), env.crc, env.comparable, e.readable, e.ok, e.ok || e.erased);
  }

  lemma {:induction false} StoreOk(env: Env, d: Device, e: Event)
    requires Sound(env) && Inv(env, d) && e.StoreRecord?
    ensures Inv(env, Next(env, d, e))
  {
    if d.r.candidate.Some? && d.r.sha.Some? {
      StoredReadsBack(d.s.blob, d.r.candidate.value.(sha := d.r.sha.value), env.crc, env.comparable, e.ok || e.done);
    }
  }

  // The other events do not touch NVS, or only empty it.
  lemma {:induction false} RestOk(env: Env, d: Device, e: Event)
    requires Sound(env) && Inv(env, d) && !e.BeginWrite? && !e.StoreRecord?
    ensures Inv(env, Next(env, d, e))
  {
  }

  lemma {:induction false} NextOk(env: Env, d: Device, e: Event)
    requires Sound(env) && Inv(env, d)
    ensures Inv(env, Next(env, d, e))
  {
    if e.BeginWrite? { BeginOk(env, d, e); } else if e.StoreRecord? { StoreOk(env, d, e); } else { RestOk(env, d, e); }
  }

  lemma {:induction false} RunOk(env: Env, s: Stored, events: seq<Event>)
    requires Sound(env) && RecordTrue(env, s)
    ensures Inv(env, Run(env, Boot(s), events))
  {
    if events != [] {
      RunOk(env, s, events[..|events| - 1]);
      NextOk(env, Run(env, Boot(s), events[..|events| - 1]), events[|events| - 1]);
    }
  }

  // After any steps, with power cuts anywhere among them, what a load returns is true: the
  // slot it names holds bytes with the hash it gives.
  lemma {:induction false} RecordAlwaysTrue(env: Env, s: Stored, events: seq<Event>)
    requires Sound(env) && RecordTrue(env, s)
    ensures var t := Run(env, Boot(s), events).s;
      OnRecord(env, t).Some? ==>
        && var r := OnRecord(env, t).value;
        && r.address == Place(env, SlotOf(r)).address && r.partition == Place(env, SlotOf(r)).name
        && r.imageSize <= |At(t.flash, SlotOf(r))| && env.hash(At(t.flash, SlotOf(r))[..r.imageSize]) == r.sha
  {
    RunOk(env, s, events);
  }

  // A boot slot is chosen only while the stored record truly describes it; and as long as
  // another slot than the running one is chosen, it still does.
  lemma {:induction false} BootSlotDescribed(env: Env, s: Stored, events: seq<Event>, e: Event)
    requires Sound(env) && RecordTrue(env, s)
    ensures var d := Run(env, Boot(s), events);
      var v := Next(env, d, e);
      (v.s.boot != d.s.boot || v.s.boot != v.r.running) ==>
        OnRecord(env, v.s).Some? && SlotOf(OnRecord(env, v.s).value) == v.s.boot && True(env, v.s.flash, OnRecord(env, v.s).value)
  {
    RunOk(env, s, events);
    NextOk(env, Run(env, Boot(s), events), e);
  }

  // ---- A good image gets there ----

  predicate Quiet(d: Device) { d.r.candidate == None && d.r.sha == None && !d.r.persisted && !d.r.session && !d.r.restart }

  // The record of bytes received for a slot.
  function Received(env: Env, s: Slot, m: Record, bytes: seq<int>): Record
    requires m.imageSize <= |bytes|
  {
    For(env, s, m).(origin := DOWNLOAD, sha := env.hash(bytes[..m.imageSize]))
  }

  predicate Good(env: Env, s: Slot, m: Record, bytes: seq<int>) {
    m.imageSize <= |bytes| && RecordValid(Received(env, s, m, bytes), env.comparable)
  }

  function Download(bytes: seq<int>, m: Record): seq<Event> { [BeginWrite(true, true, true), Write(bytes), Complete(m), HashCandidate] }

  lemma {:induction false} Downloads(env: Env, d: Device, bytes: seq<int>, m: Record)
    requires Sound(env) && Quiet(d) && Good(env, Target(d), m, bytes)
    ensures var v := Run(env, d, Download(bytes, m));
      && At(v.s.flash, Target(d)) == bytes && At(v.s.flash, d.r.running) == At(d.s.flash, d.r.running) && v.s.boot == d.s.boot
      && v.r.running == d.r.running && !v.r.session && !v.r.restart && !v.r.persisted
      && v.r.candidate.Some? && v.r.sha.Some?
      && v.r.candidate.value.(sha := v.r.sha.value) == Received(env, Target(d), m, bytes) && v.r.candidate.value.origin == DOWNLOAD
      && SlotOf(v.r.candidate.value) == Target(d)
  {
    Last(env, d, [BeginWrite(true, true, true), Write(bytes), Complete(m)], HashCandidate);
    var a := Next(env, d, BeginWrite(true, true, true));
    assert a.r == d.r.(session := true) && a.s.flash == d.s.flash;
    var b := Next(env, a, Write(bytes));
    assert At(b.s.flash, Target(d)) == bytes;
    Then(env, d, [], BeginWrite(true, true, true), Write(bytes), Complete(m), a, b);
    var c := Next(env, b, Complete(m));
    assert c.r.candidate == Some(For(env, Target(d), m).(origin := DOWNLOAD)) && SlotOf(c.r.candidate.value) == Target(d);
    assert [] + [BeginWrite(true, true, true), Write(bytes), Complete(m)] == [BeginWrite(true, true, true), Write(bytes), Complete(m)];
    assert [BeginWrite(true, true, true), Write(bytes), Complete(m)] + [HashCandidate] == Download(bytes, m);
  }

  // Downloaded, hashed, stored and selected: the next start runs the new slot, and the
  // record says what is in it.
  lemma {:induction false} NewImageBoots(env: Env, d: Device, bytes: seq<int>, m: Record)
    requires Sound(env) && Quiet(d) && Good(env, Target(d), m, bytes)
    ensures var v := Run(env, d, Download(bytes, m) + [StoreRecord(true, true), SelectBoot(true, true), PowerCut]);
      && v.r.running == v.s.boot == Target(d) && At(v.s.flash, Target(d)) == bytes
      && OnRecord(env, v.s) == Some(Received(env, Target(d), m, bytes))
  {
    Downloads(env, d, bytes, m);
    var u := Run(env, d, Download(bytes, m));
    StoredReadsBack(u.s.blob, Received(env, Target(d), m, bytes), env.crc, env.comparable, true);
    var stored := Next(env, u, StoreRecord(true, true));
    Then(env, d, Download(bytes, m), StoreRecord(true, true), SelectBoot(true, true), PowerCut, stored, Next(env, stored, SelectBoot(true, true)));
  }

  // Power lost after the record was stored, before the slot was selected: the image is found
  // again and selected, without another download.
  lemma {:induction false} CutBeforeSelect(env: Env, d: Device, bytes: seq<int>, m: Record)
    requires Sound(env) && Quiet(d) && d.s.boot == d.r.running && Good(env, Target(d), m, bytes)
    ensures var v := Run(env, d, Download(bytes, m) + [StoreRecord(true, true), PowerCut, Restore(false)]);
      Next(env, v, SelectBoot(true, true)).s.boot == Target(d) && At(v.s.flash, Target(d)) == bytes
  {
    Downloads(env, d, bytes, m);
    var u := Run(env, d, Download(bytes, m));
    StoredReadsBack(u.s.blob, Received(env, Target(d), m, bytes), env.crc, env.comparable, true);
    var stored := Next(env, u, StoreRecord(true, true));
    Then(env, d, Download(bytes, m), StoreRecord(true, true), PowerCut, Restore(false), stored, Next(env, stored, PowerCut));
  }

  lemma {:induction false} Last(env: Env, d: Device, events: seq<Event>, e: Event)
    ensures Run(env, d, events + [e]) == Next(env, Run(env, d, events), e)
  {
    assert (events + [e])[..|events|] == events;
  }

  lemma {:induction false} Then(env: Env, d: Device, events: seq<Event>, a: Event, b: Event, c: Event, u: Device, v: Device)
    requires u == Next(env, Run(env, d, events), a) && v == Next(env, u, b)
    ensures Run(env, d, events + [a, b, c]) == Next(env, v, c)
  {
    Last(env, d, events, a);
    Last(env, d, events + [a], b);
    assert events + [a] + [b] == events + [a, b];
    Last(env, d, events + [a, b], c);
    assert events + [a, b] + [c] == events + [a, b, c];
  }
}
