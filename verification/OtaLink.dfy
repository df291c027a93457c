// main/APP/OTA/mesh_ota.c: when an image received from the parent may be staged, and
// when a transfer may start. The parent link, the SDK's callbacks and the service task
// change this state between one another's steps.
module OtaLink {
  import opened Options
  import opened OtaFlight

  // What becomes of the metadata of an attempt: known from an earlier one, or asked for.
  datatype Fetch = Known | Fetched | NotNewer | Failed

  class Receiver {
    // the parent link
    var online: bool
    var generation: nat
    var restarting: bool
    // the session
    var linkGeneration: nat
    var open: bool
    var accepting: bool
    var handle: bool
    var done: bool
    var validated: bool
    var failed: bool
    var finished: bool
    var reason: Outcome
    // the SDK
    var inflight: bool
    var starting: bool             // the service task is inside the SDK's start call
    ghost var sdk: Sdk
    // the service task
    var requestActive: bool
    var waitParent: bool
    var finalizing: bool
    ghost var startedAt: nat       // link generation when the session was opened
    ghost var validatedAt: nat     // link generation when the image was found good

    // The part of the state that OtaFlight is about.
    ghost function Flight(): OtaFlight.Flight
      reads `inflight, `open, `finished, `reason, `starting, `sdk
    {
      OtaFlight.Flight(inflight, open, if finished then Some(reason) else None, starting, sdk)
    }

    ghost predicate Valid()
      reads this
    {
      && (open ==> linkGeneration <= startedAt <= generation)
      && (accepting ==> open)
      && (starting ==> open)
      && (validated ==> open && done && !accepting && validatedAt == startedAt == linkGeneration)
      && (!open ==> !validated && !done && !finished && !handle && !failed)
    }

    constructor ()
      ensures Valid() && Flight() == Initial() && !online && generation == 0 && !finalizing && !restarting
    {
      online, generation, restarting, linkGeneration := false, 0, false, 0;
      open, accepting, handle, done, validated, failed, finished, reason := false, false, false, false, false, false, false, Failure;
      inflight, starting, requestActive, waitParent, finalizing := false, false, false, false, false;
      sdk, startedAt, validatedAt := Initial().sdk, 0, 0;
    }

    // receiver_link_current
    predicate LinkCurrent()
      reads `online, `generation, `linkGeneration, `restarting
    {
      online && generation == linkGeneration && !restarting
    }

    // mesh_ota_parent_link_changed: every loss of the parent is a new generation.
    method ParentLinkChanged(hasIp: bool)
      requires Valid()
      modifies `online, `generation
      ensures Valid() && online == hasIp && generation == (if hasIp then old(generation) else old(generation) + 1)
    {
      if !hasIp {
        online, generation := false, generation + 1;
      } else {
        online := true;
      }
    }

    method PlanRestart()
      requires Valid()
      modifies `restarting
      ensures Valid() && restarting
    {
      restarting := true;
    }

    // Time goes by: the parent may be lost, also several times, and a restart be planned.
    method Meanwhile(lost: nat, back: bool, restart: bool)
      requires Valid()
      modifies `online, `generation, `restarting
      ensures Valid() && generation == old(generation) + lost && restarting == (old(restarting) || restart)
      ensures online == if lost > 0 then back else old(online)
    {
      if lost > 0 { online, generation := back, generation + lost; }
      if restart { restarting := true; }
    }

    // reset_receiver_locked
    method ResetReceiver()
      requires Valid() && !starting
      modifies `open, `accepting, `handle, `done, `validated, `failed, `finished
      ensures Valid() && !open && !accepting && Flight() == Next(old(Flight()), Close)
    {
      open, accepting, handle, done, validated, failed, finished := false, false, false, false, false, false, false;
    }

    // What has been received whole and confirmed twice survives a later loss of the parent.
    method CancelForParent(keep: bool)
      requires Valid() && !starting
      modifies `open, `accepting, `handle, `done, `validated, `failed, `finished, `linkGeneration, `requestActive, `waitParent
      ensures Valid()
      ensures if keep && old(validated && finished && reason == Success)
              then open && validated && finished && linkGeneration == old(linkGeneration) && requestActive == old(requestActive)
                   && waitParent == old(waitParent) && Flight() == old(Flight())
              else !open && linkGeneration == generation && requestActive == waitParent == keep && Flight() == Next(old(Flight()), Close)
    {
      if keep && validated && finished && reason == Success { return; }
      ResetReceiver();
      linkGeneration := generation;
      requestActive, waitParent := keep, keep;
    }

    // The first part of handle_child_path: the generation of the link as it is, the
    // metadata if not known, and a second look at the link.
    method EnterAttempt(stable: bool, fetch: Fetch, lost: nat, back: bool, restart: bool) returns (go: bool)
      requires Valid() && !open && !finalizing
      modifies `open, `accepting, `handle, `done, `validated, `failed, `finished, `linkGeneration, `requestActive, `waitParent,
               `online, `generation, `restarting
      ensures Valid() && !open && Flight() == old(Flight())
      ensures go <==> old(online && !restarting && (waitParent ==> stable && generation == linkGeneration))
                      && lost == 0 && !restart && (fetch == Known || fetch == Fetched)
      ensures go ==> LinkCurrent() && !waitParent && requestActive == old(requestActive)
      ensures !go && !LinkCurrent() ==> requestActive == waitParent == !restarting
    {
      if waitParent && (generation != linkGeneration || !online || !stable) {
        CancelForParent(!restarting);
        return false;
      }
      waitParent, linkGeneration := false, generation;
      if !online || restarting {
        CancelForParent(!restarting);
        return false;
      }
      Meanwhile(lost, back, restart);
      if !LinkCurrent() {
        CancelForParent(!restarting);
        return false;
      }
      if fetch == NotNewer { requestActive := false; }
      go := fetch == Known || fetch == Fetched;
    }

    // Its second part, under the OTA mutex: no session opens while the flag says that a
    // transfer is in flight, or if the record of the slot could not be erased.
    method OpenSession(erased: bool) returns (go: bool)
      requires Valid() && !starting && !finalizing && linkGeneration <= generation
      modifies `open, `accepting, `handle, `done, `validated, `failed, `finished, `inflight, `starting, `startedAt, `sdk
      ensures Valid() && go == (!old(inflight) && erased) && (go <==> open)
      ensures Flight() == Next(old(Flight()), Open(erased))
      ensures go ==> accepting && startedAt == generation
    {
      ResetReceiver();
      if inflight || !erased { return false; }
      open, accepting, inflight, starting := true, true, true, true;
      startedAt := generation;
      sdk := sdk.(own := None, clean := sdk.cur == None && FirstEnded(sdk.mail) == None);
      return true;
    }

    // The start call returns: the SDK took the request, or refused it.
    method TransmitAnswer(ok: bool)
      requires Valid() && starting && ok == sdk.own.Some?
      modifies `open, `accepting, `handle, `done, `validated, `failed, `finished, `inflight, `starting, `sdk
      ensures Valid() && !starting && (open <==> ok) && (!ok ==> !inflight)
      ensures Flight() == Next(old(Flight()), Answer)
    {
      starting := false;
      if !ok {
        inflight := false;
        ResetReceiver();
        sdk := sdk.(refused := true);
      }
    }

    // The SDK's own steps, at any time.
    ghost method SdkActs(e: Event)
      requires Valid() && (e.Resume? || e.Take? || e.End?)
      modifies `sdk
      ensures Valid() && Flight() == Next(old(Flight()), e)
    {
      sdk := Next(Flight(), e).sdk;
    }

    // mesh_ota_event_handler: the event loop delivers the oldest notice.
    method HandleEvent(n: Notice)
      requires Valid() && sdk.mail != [] && sdk.mail[0] == n
      modifies `inflight, `finished, `reason, `sdk
      ensures Valid() && inflight == n.Started? && Flight() == Next(old(Flight()), Deliver)
      ensures n.Ended? && open && !old(finished) ==> finished && reason == n.outcome
      ensures !(n.Ended? && open && !old(finished)) ==> finished == old(finished) && reason == old(reason)
    {
      ghost var recorded := n.Ended? && open && !finished;
      sdk := sdk.(mail := sdk.mail[1..], latest := Some(n), refused := false, finishOf := if recorded then n.t else sdk.finishOf);
      if n.Started? {
        inflight := true;
      } else {
        inflight := false;
        if open && !finished { finished, reason := true, n.outcome; }
      }
    }

    // mesh_ota_extern_disabled: the transfer has ended already; its failure is recorded.
    method ExternDisabled(ghost noticed: bool)
      requires Valid() && sdk.cur.Some?
      modifies `inflight, `finished, `reason, `sdk
      ensures Valid() && !inflight && Flight() == Next(old(Flight()), Extern(noticed))
      ensures if open then finished && reason == Failure else finished == old(finished)
    {
      sdk := Next(Flight(), Extern(noticed)).sdk;
      inflight := false;
      if open { finished, reason := true, Failure; }
    }

    // get_file_cb as far as the session goes: a late or foreign chunk changes nothing, a
    // bad one ends the session, and so does one whose link is lost before it is written.
    method GetFile(good: bool, empty: bool, begun: bool, lost: nat, back: bool, restart: bool, write: bool)
      requires Valid()
      modifies `handle, `failed, `accepting, `online, `generation, `restarting
      ensures Valid()
      ensures old(!(open && accepting && !failed && LinkCurrent())) ==> unchanged(`handle, `failed, `accepting)
      ensures old(open && accepting && !failed && LinkCurrent()) ==>
        && failed == !(good && (empty || ((old(handle) || begun) && lost == 0 && !restart && write)))
        && accepting == !failed && handle == (old(handle) || (good && !empty && begun))
    {
      if !open || !accepting || failed || !LinkCurrent() { return; }
      if !good {
        failed, accepting := true, false;
        return;
      }
      if empty { return; }
      if !handle && !begun {
        failed, accepting := true, false;
        return;
      }
      handle := true;
      Meanwhile(lost, back, restart);
      if !LinkCurrent() || !write { failed, accepting := true, false; }
    }

    // get_file_done_cb: the image is good only if the link is still the one it began on.
    // The parent may be lost between the two looks at it.
    method GetFileDone(image: bool, lost: nat, back: bool, restart: bool) returns (ok: bool)
      requires Valid()
      modifies `accepting, `handle, `done, `validated, `failed, `validatedAt, `online, `generation, `restarting
      ensures Valid()
      ensures ok <==> old(open && accepting && handle && !failed && LinkCurrent()) && image && lost == 0 && !restart
      ensures ok ==> validated
      ensures validated && !old(validated) ==> ok
      ensures open ==> done && (failed <==> old(failed) || !ok)
    {
      ok := false;
      if open && accepting && !failed && handle && LinkCurrent() {
        accepting, handle := false, false;
        Meanwhile(lost, back, restart);
        if image && LinkCurrent() {
          validated, validatedAt := true, generation;
          done := true;
          return true;
        }
      }
      if open { done, failed := true, true; }
    }

    // Staged: a success was reported, the image was found good here, and the parent was
    // not lost between the opening of the session and that moment.
    method ProcessFinish(timedOut: bool) returns (stage: bool)
      requires Valid() && !starting
      modifies `open, `accepting, `handle, `done, `validated, `failed, `finished, `finalizing, `requestActive, `waitParent
      ensures Valid() && (stage ==> finalizing)
      ensures stage <==> old(open && finished && reason == Success && validated && !failed)
      ensures stage ==> old(startedAt) == old(validatedAt)
      ensures !stage ==> finalizing == old(finalizing)
      ensures old(open && finished && reason == Success && !done && !timedOut) ==> open
      ensures Flight() == if old(open && finished) && !(open && finished) then Next(old(Flight()), Close) else old(Flight())
    {
      stage := false;
      if !open || !finished { return; }
      if reason == Success && !done && !timedOut { return; }
      stage := reason == Success && validated && !failed;
      ResetReceiver();
      if stage { finalizing, requestActive, waitParent := true, false, false; }
    }

    // The parent went since the session, or since the wait for it began.
    predicate LinkLost()
      reads `online, `generation, `linkGeneration, `waitParent
    {
      (!online || generation != linkGeneration) && (!waitParent || generation != linkGeneration)
    }

    // poll_child_parent. True: start over now, on a link that has been stable.
    method PollParent(stable: bool, due: bool) returns (start: bool)
      requires Valid() && !starting
      modifies `open, `accepting, `handle, `done, `validated, `failed, `finished, `linkGeneration, `requestActive, `waitParent
      ensures Valid()
      ensures start <==> requestActive && !finalizing && !restarting && waitParent && online && stable && due && !inflight
      ensures old(requestActive && !finalizing && restarting) ==> !open && !requestActive && !waitParent
      ensures old(requestActive && !finalizing && !restarting && (!online || generation != linkGeneration) && (!waitParent || generation != linkGeneration)) ==>
        if old(validated && finished && reason == Success)
        then open && validated && requestActive && waitParent == old(waitParent) && linkGeneration == old(linkGeneration)
        else !open && requestActive && waitParent && linkGeneration == generation
      ensures old(!requestActive || finalizing || (!restarting && online && generation == linkGeneration)
                  || (!restarting && waitParent && generation == linkGeneration)) ==>
        open == old(open) && requestActive == old(requestActive) && waitParent == old(waitParent) && linkGeneration == old(linkGeneration)
      ensures Flight() == old(Flight()) || Flight() == Next(old(Flight()), Close)
    {
      start := false;
      if !requestActive || finalizing { return; }
      if restarting {
        CancelForParent(false);
        return;
      }
      if LinkLost() { CancelForParent(true); }
      if !waitParent || !online || !stable || inflight { return; }
      start := due;
    }
  }
}
