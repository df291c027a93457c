# A verified model of the aging tester firmware

The firmware runs battery aging sessions on an ESP32. Samples go to a local SQLite cache and
to an MQTT broker; samples the server did not receive are recovered after a session; firmware
images are relayed from node to node through a mesh; an upstream controller is reached over
CAN, a phone over BLE. This project models the parts whose correctness depends on more than
one function or on how tasks interleave, and proves what they are meant to keep.

| part | files |
|---|---|
| sessions, upload queue, recovery of missing samples | GapModel, GapTable, GapWorld, GapSafety, GapIntents, GapRetry, GapNumbers, GapOverwrite, GapCollision, GapRecovery, GapBatch, GapLost, GapIds |
| MQTT: event cache, early acknowledgements, client handle | MqttEventCache, MqttAck, MqttAckBits, MqttControl |
| CAN transfer layer and checksums | CanTransfer, CanLayout, Crc, CrcBits, CrcBurst, CrcTables, Folds |
| mesh OTA: supply record, crash consistency, relay, transfers and link | OtaRecord, OtaCache, OtaRelay, OtaFlight, OtaLink |
| bounded caches | SeqReplay, RowCache |
| BLE session word, JSON completeness | BleSession, JsonScanner |
| a value that may be missing | Options |

Code that updates fields or buffers in place is a class whose methods are the sections the
source runs under one lock, one atomic operation or one callback; each method's `ensures` ties
the new state to a function of the old one, and what every run keeps is proved about those
functions. Between two sections any other task may run: `GapWorld.Next`, `MqttControl.Next`,
`OtaFlight.Next` and `OtaCache.Next` are the tasks together, one event at a time, in any order.
A run of GapWorld begins at power-on with any rows in the database; a run of OtaCache may lose
power between any two events.

Counters the source keeps in 32 bits (tokens, revisions, epochs, generations, ticks) are
unbounded naturals, except where a width is part of the behaviour: sample numbers stop at
INT_MAX, packet numbers wrap at 256, sizes and offsets of an image are 32-bit, checksums are
bit vectors, the Modbus length is narrowed to 16 bits.

## What was found

- A resumed session is not always clear of the rows of its record. If an earlier session of
  the same (pn, record_id) was closed with samples still queued and the record is resumed at
  once, the begin looks at the database before those samples are stored, and both sessions
  hand out the same numbers. `GapCollision.ResumeSafeExactly` gives the exact condition, for
  every state reachable from power-on with any database: the new session never meets a row,
  and its numbers exceed every one stored, whatever happens later, if and only if, when the
  begin looks, no other session of the record has a number to store that is not below the new
  start. Both sides can be read off the table (next number plus packets accepted and not yet
  numbered) and the answer of the query. `GapCollision.ResumeBehindDrain` is a concrete run of
  five operations that breaks the condition; the first session after power-on always meets it
  (`GapCollision.FirstResumeSafe`).
- The numbers the server asked for are not always sent. There is one list, s_work, for all
  intents: when an older session becomes an intent while a newer one is in the middle of
  sending, the older is taken up first (main/Task/aging_gap.c:363-364) and the list is cleared
  (main/Task/aging_gap.c:369-372). The newer one then goes on to be verified at once and spends
  a round. `GapBatch.SentInOrder`: over any run, the list has been sent whole and in order when
  an intent goes on to be verified if and only if no other intent was taken up before its last
  number; `GapBatch.LostToOlder`: only an older session's intent can do that; `GapLost.ListLost`
  is a run in which nothing is sent.
- A connection made on a route since left is not used, and a disconnect is asked for; after
  three refusals it is kept and becomes usable, in the epoch that was current then
  (main/APP/MQTT/mqtt_app.c:330-355). `MqttControl.HandleOfEpoch`: the epoch of a handle is one
  begun by its own connection if and only if that connection did not arrive on a route since
  left; `MqttControl.StaleKept` is a run in which it is the epoch before.
- The flag s_sdk_inflight does not always show that the SDK runs a transfer, so a session can
  be opened beside one. `OtaFlight.OpensAloneExactly`: behind a clear flag the SDK runs nothing
  if and only if no start is hidden, that is, underway in the event loop, or heard and then
  cleared with a refused request (main/APP/OTA/mesh_ota.c:1168). `OtaFlight.RefusalHidesStart`
  and `OtaFlight.StartNotHeard` are the two failing runs.
- The end recorded for a session may be that of an earlier transfer, delivered late: the
  handler only asks whether a session is open. `OtaFlight.SuccessIsOwnExactly` says when a
  recorded success is the session's own, `OtaFlight.OldSuccess` is a run in which it is not.
  The image staged is checked locally in any case.
- A session may be begun with a record_id of 28 characters, but the cache refuses a record_id
  of 28 or more. Of the sessions that may begin, exactly those with a shorter record_id can
  store samples (`RowCache.StorableExactly`); with 28 none is ever stored
  (`RowCache.LongestRecordIdNeverStored`).
- main/DataStorage/SqLite/SqLite.h:20 and the comment in get_overwrite_local_id_locked say that
  rows with pushed = 1 are evicted first. The statement orders by pushed descending, as line 28
  of the header says: acknowledged rows (2) go first. The model follows the statement.
- UpdateRecordPushStateByPNAndID without a record_id marks the rows of every session of the
  product with that number.
- The replay ring promises ten minutes but holds 32 commands: after a burst of n commands the
  first one runs again inside the window exactly when n exceeds 32
  (`SeqReplay.ForgottenInsideWindow`). A lookup succeeds exactly under both bounds.
- The completeness scan accepts two objects side by side (`JsonScanner.TwoObjectsPass`); for
  one object printed per sections 4 and 7 of RFC 8259 it answers exactly from the closing
  brace on.

## Model

| member | source | states |
|---|---|---|
| GapModel.Find | main/Task/aging_gap.c:87-92 | the first used slot of a token, or none |
| GapModel.FirstFree | main/Task/aging_gap.c:163-168 | the first slot not in use, or none |
| GapModel.SameIntent | main/Task/aging_gap.c:126-138 | the first intent of the same product and record, or none |
| GapModel.RefreshAll | main/Task/aging_gap.c:349-370 | every intent not yet started, or behind the trigger, starts round one with a query due after 5 s; all other slots are as before, field by field |
| GapModel.Oldest | main/Task/aging_gap.c:349-370 | the intent of the smallest token among those with rounds left, if there is one |
| GapTable.AgingGap.constructor | main/Task/aging_gap.c:149-156 | twenty-two free slots, no current session, nothing ready |
| GapTable.AgingGap.FindSlot | main/Task/aging_gap.c:87-92 | the loop finds the slot Find names |
| GapTable.AgingGap.FinalizeSlot | main/Task/aging_gap.c:115-147 | the loop that counts intents and looks for one to join makes of the table what Finalize says; GapRecovery says what that means for the session |
| GapTable.AgingGap.Begin | main/Task/aging_gap.c:158-179 | refused exactly when an argument is bad, a session is current or no slot is free; otherwise the first free slot is the new current session, and nothing else changes |
| GapTable.AgingGap.SessionBegin | main/Task/aging_gap.c:158-202 | the new table for each answer of the database; an error closes the session again instead of numbering from zero |
| GapTable.AgingGap.Resume | main/Task/aging_gap.c:186-197 | goes on after the stored number, if the session is still the open current one |
| GapTable.AgingGap.Close | main/Task/aging_gap.c:204-217 | the current session is closed and, if settled, finalized; no session is current |
| GapTable.AgingGap.Idle | main/Task/aging_gap.c:219-227 | a running tester stops and a new trigger begins; otherwise nothing |
| GapTable.AgingGap.Ready | main/Task/aging_gap.c:282-286 | becoming ready, and only that, is a new trigger |
| GapTable.AgingGap.SampleSubmit | main/Task/aging_gap.c:243-252 | accepted exactly when the session is open and the queue has room, and then counted |
| GapTable.AgingGap.SampleNextId | main/Task/aging_gap.c:254-265 | the next number while a sample is outstanding and numbers are left, else -1 |
| GapTable.AgingGap.SampleDone | main/Task/aging_gap.c:267-280 | one more sample settled; a closed session with none left is finalized |
| GapTable.AgingGap.PollStart | main/Task/aging_gap.c:349-370 | what a poll starts on: nothing unless ready, connected and idle; else rounds are started, and of the intents with rounds left the oldest is copied if it is due; the list of numbers is kept only for the same intent past its query |
| GapTable.AgingGap.RefreshSlots | main/Task/aging_gap.c:349-370 | one pass both starts rounds and picks the oldest intent of the refreshed table |
| GapTable.AgingGap.MayRun | main/Task/aging_gap.c:331-339 | true exactly while the copied intent is still in the table at the same revision and trigger and the tester is idle and connected |
| GapTable.AgingGap.RetryLater | main/Task/aging_gap.c:342-347 | the next round, after 10 s the first time and 30 s later, if the intent is still the one copied |
| GapTable.AgingGap.ApplyAnswer | main/Task/aging_gap.c:395-420 | what an answer does to the slot and to the list of numbers, field by field: a non-empty one becomes the list, from its first number, unless the rounds are used up; nothing if the intent grew or went meanwhile |
| GapTable.AgingGap.SendingOver | main/Task/aging_gap.c:422-441 | after the last number the intent waits to be verified |
| GapTable.AgingGap.Published | main/Task/aging_gap.c:464-480 | a publication moves on to the next number, a refused one to the next round |
| GapTable.AgingGap.Unavailable | main/Task/aging_gap.c:458-462 | a number the database has no sample for is counted as missing and passed over |
| GapSafety.NextOk | main/Task/aging_gap.c:115-480 | every operation, in any order with the others and with each section of a poll, keeps the invariant of the table, the queue, the worker and the copied intent |
| GapSafety.RunOk | main/Task/aging_gap.c:115-480 | so every run from power-on has it: accepted minus processed, slot by slot and in sum, is exactly what waits in the queue of three and at the worker, and a used slot is exactly one of open, draining and intent |
| GapSafety.FinalizeOk | main/Task/aging_gap.c:115-147 | finalizing a closed session leaves every slot open, draining or an intent, no two intents of one record, at most sixteen in all |
| GapSafety.FinalizeLoad | main/Task/aging_gap.c:115-147 | finalizing loses no outstanding sample |
| GapSafety.DoneCore | main/Task/aging_gap.c:267-280 | settling the packet at hand takes exactly that packet out of the account and leaves a copied intent valid |
| GapSafety.StillIntent | main/Task/aging_gap.c:331-339 | token and revision together identify the copied intent: same record, same last number |
| GapIntents.BeginFindsSlot | main/Task/aging_gap.c:20-22 | the sizing claim: in every reachable state without a current session, a begin with good arguments finds a slot among the 22 |
| GapIntents.IntentsDistinct | main/Task/aging_gap.c:126-145 | in every run at most sixteen intents, no two for one (pn, record_id) |
| GapIntents.OthersKeep | main/Task/aging_gap.c:115-280 | nothing but the poll removes an intent; merging only raises its last number and its revision |
| GapIntents.PollKeeps | main/Task/aging_gap.c:349-480 | the poll starts a round of an intent, reschedules it, or frees it on an answer for its last number |
| GapIntents.IntentKeptOrAnswered | main/Task/aging_gap.c:366-420 | an intent leaves the table only when the server answered "none missing" for its record and its last number as it stands at removal, whatever merged, began or was reused while the request was out |
| GapIntents.AnswerBelongs | main/Task/aging_gap.c:384-400 | the answer applied is the one received for the copied intent |
| GapRetry.RunRounds | main/Task/aging_gap.c:342-480 | rounds are 0 to 4, a parked intent is in its query phase, and a poll's copy agrees with its intent on round and phase |
| GapRetry.ResultDecreases | main/Task/aging_gap.c:342-480 | every poll step with a result ends the intent or makes (rounds left, phase, numbers left) smaller |
| GapRetry.WritesSpend | main/Task/aging_gap.c:342-480 | no write of the poll adds to the budget of answers; an answer that does not end the intent costs one |
| GapRetry.GoneForGood | main/Task/aging_gap.c:87-179 | a token that left the table never comes back |
| GapRetry.AnswersWithinBudget | main/Task/aging_gap.c:342-480 | along any events without a new trigger or merge, the answers applied to an intent never exceed its budget, six at the start of a round one |
| GapRetry.AtMostSixAnswers | main/Task/aging_gap.c:342-480 | from any state a run can reach, with no new trigger or merge, an intent has at most six answers applied |
| GapNumbers.RunNumbers | main/Task/aging_gap.c:176-201 | in every run from power-on with any database the slot's next number follows the last one handed out, and a session being opened has none |
| GapNumbers.NumbersConsecutive | main/Task/aging_gap.c:254-265 | the numbers of one session, over any run, are consecutive, never repeat and stay below INT_MAX |
| GapOverwrite.LookupHighest | main/DataStorage/SqLite/SqLite.c:1999-2027 | the query's answer bounds every number stored for the record |
| GapOverwrite.RunSteady | main/Task/aging_gap.c:158-280 | in every run packets carry the key of their session and are served in the order sessions began, only the newest session is open, and the number in hand is its session's last |
| GapOverwrite.RunAhead | main/Task/aging_gap.c:180-265 | once a session lies ahead of all that is stored or still to be stored for its record, it does so after any further events, and its numbers exceed every one stored |
| GapCollision.Drain | main/Task/appTask.c:5958-5970 | the worker can always bring the queue to its end, and then the earlier session's number is stored |
| GapCollision.ResumeSafeExactly | main/Task/aging_gap.c:180-201 | from power-on with any rows stored: after the begin's look the resumed session never gets a number its record has a row for, and all its numbers exceed every one stored, if and only if no other session of the record had a number to store from the new start on |
| GapCollision.FirstResumeSafe | main/Task/appTask.c:4485 | the first session resumed after power-on always goes on above everything stored for its record |
| GapCollision.ResumeBehindDrain | main/Task/aging_gap.c:180-201 | a run that breaks the condition: close with one sample queued, then resume the same record |
| GapRecovery.FinalizeRecovers | main/Task/aging_gap.c:115-147 | a finished session with something stored, a number and a record_id has, after finalizing, an intent of its record that reaches its last number, if and only if one of its record is pending or fewer than sixteen are; in every other case it is dropped and nothing else changes |
| GapRecovery.FinalizeIntends | main/Task/aging_gap.c:143-146 | with none to join and room, the session itself becomes the intent, to be started |
| GapRecovery.FinalizeJoins | main/Task/aging_gap.c:131-138 | the intent it joins reaches the higher of the two last numbers, is one revision on and to be started; the session's slot is free |
| GapRecovery.RunShown | main/Task/aging_gap.c:186-280 | in every run, until a session is an intent its slot knows whether anything of it is stored, and its last number, as the events of the run say |
| GapRecovery.FinishRecovers | main/Task/aging_gap.c:115-280 | in every run: the event that finishes a session leaves an intent of its record reaching its last number if and only if something of it is stored, it has a record_id and there is room, or there was such an intent before |
| GapRecovery.RecoveredOrAnswered | main/Task/aging_gap.c:115-420 | from then on, whatever happens, an intent reaches that number until an answer "none missing" for the record up to it, or further, is applied |
| GapRecovery.RunTrigger | main/Task/aging_gap.c:219-286 | in every run no session is ahead of the trigger |
| GapRecovery.EdgeRestarts | main/Task/aging_gap.c:219-366 | after the tester stops or the connection becomes ready, whatever happens before it, the first poll that can run puts every intent, parked ones included, in round one with a query due after 5 s |
| GapBatch.AnswerListed | main/Task/aging_gap.c:395-420 | in every run, for the intent as copied and an idle tester: a non-empty answer to a query, or to a verification with rounds left, becomes the list to be sent, from its first number; an empty one frees the slot; a bad one, or one after the last round, costs a round and leaves the list alone |
| GapBatch.RunBatches | main/Task/aging_gap.c:349-480 | in every run, what is left of the list in hand is the part of the last list given for the intent being sent that has been neither published nor found gone, unless another intent was taken up |
| GapBatch.SentInOrder | main/Task/aging_gap.c:422-480 | over any run, when an intent goes from sending to being verified, what has been published or found gone is an initial part of the last list given for it, in order, and it is the whole list if and only if no other intent was taken up before its last number |
| GapBatch.LostToOlder | main/Task/aging_gap.c:355-372 | only the intent of an older session is taken up while one is in the middle of sending |
| GapLost.ListLost | main/Task/aging_gap.c:359-441 | a run in which an intent goes on to be verified and none of the numbers asked for has been published or looked up |
| GapIds.SortOrdered | main/Task/aging_gap.c:288-293 | sorting gives the same numbers in order |
| GapIds.Dedupe | main/Task/aging_gap.c:312-320 | in place, the kept part of an ordered array is strictly ascending and has the same numbers |
| GapIds.ParseIds | main/Task/aging_gap.c:295-323 | a list is returned exactly when every item is a whole number from 0 to the last one; it is ascending without repeats, has exactly the numbers sent, and is empty only for an empty list |
| MqttEventCache.EveryOneOrTheOther | main/APP/MQTT/mqtt_app.c:88-89 | every pending event is ordinary or urgent |
| MqttEventCache.AccountAppend | main/APP/MQTT/mqtt_app.c:1062-1105 | an accepted event goes to the end of what is pending, and the account still holds |
| MqttEventCache.AccountRetire | main/APP/MQTT/mqtt_app.c:1439-1448 | retiring the head for a reason keeps the account: accepted events are, in order, acknowledged, cancelled or pending; acknowledged means handed over, sent under an id, and that id's PUBACK arrived, all before anything else was handed over |
| MqttEventCache.StretchesApart | main/APP/MQTT/mqtt_app.c:1473-1519 | no acknowledgement is taken for two events |
| MqttEventCache.FlyingAcked | main/APP/MQTT/mqtt_app.c:1473-1477 | an acknowledgement seen for the event in flight arrived after its own hand-over, under the id it was sent with |
| MqttEventCache.RoomForUrgent | main/APP/MQTT/mqtt_app.c:88-89 | with fewer than 32 urgent events pending there is room, whatever the others are |
| MqttEventCache.EventCache.Submit | main/APP/MQTT/mqtt_app.c:1062-1105 | when an event is kept, refused for want of room, or bad; an urgent one is never refused for room while fewer than 32 urgent ones are pending |
| MqttEventCache.EventCache.Keep | main/APP/MQTT/mqtt_app.c:1085-1105 | the admission guard leaves room in the queue, so the send cannot fail |
| MqttEventCache.EventCache.CancelTaskcp | main/APP/MQTT/mqtt_app.c:1107-1121 | a new generation; nothing pending is touched |
| MqttEventCache.EventCache.RetireHead | main/APP/MQTT/mqtt_app.c:1439-1448 | the head leaves with its reason, and both counters still equal the true contents |
| MqttEventCache.EventCache.LookAtAck | main/APP/MQTT/mqtt_app.c:1467-1485 | retired on its acknowledgement, given back on a drop or a rebuilt client, otherwise waited for |
| MqttEventCache.EventCache.Offer | main/APP/MQTT/mqtt_app.c:1486-1503 | the head is handed over if and only if it is not obsolete, the connection is ready, and it is due or the epoch is new; an obsolete step report is cancelled instead; nothing else leaves |
| MqttEventCache.EventCache.Poll | main/APP/MQTT/mqtt_app.c:1452-1523 | one pass retires at most one event: for an acknowledgement of its own id since its own hand-over, or for a newer generation; a hand-over starts with an empty log, and an event in flight is left alone |
| MqttEventCache.EventCache.Sent | main/APP/MQTT/mqtt_app.c:1500-1523 | in flight under its id, or to be tried again; acknowledgements that came early are kept |
| MqttEventCache.EventCache.Callback | main/APP/MQTT/mqtt_app.c:246-260 | a callback that counts is recorded, once, for the event in flight, whether or not its id is known yet |
| MqttAckBits.Packed4 | main/APP/MQTT/mqtt_app.c:223-244 | setting four flags in a shared byte adds them there and nowhere else |
| MqttAckBits.Packed2 | main/APP/MQTT/mqtt_app.c:246-260 | setting two flags in a shared byte adds them there and nowhere else |
| MqttAck.GatheredMeans | main/APP/MQTT/mqtt_app.c:230-244 | a flag of an id is on exactly when an acknowledgement of that id carried it |
| MqttAck.Capture4 | main/APP/MQTT/mqtt_app.c:230-244 | after one more acknowledgement the packed bytes still stand for the map from id to flags |
| MqttAck.Capture2 | main/APP/MQTT/mqtt_app.c:246-260 | the same for the events' map of two flags |
| MqttAck.ServiceAck.Callback | main/APP/MQTT/mqtt_app.c:230-244 | a callback of the current connection is added to what is known, before and after the id is |
| MqttAck.ServiceAck.BeginOn | main/APP/MQTT/mqtt_app.c:1147-1164 | capturing starts with nothing known, and only for the connection it was meant for |
| MqttAck.ServiceAck.Register | main/APP/MQTT/mqtt_app.c:1166-1175 | the flags seen are exactly the acknowledgements of that id since the begin |
| MqttAck.ServiceAck.Result | main/APP/MQTT/mqtt_app.c:1177-1183 | the flags of the registered id so far; none of an earlier connection's, and none after a reconnect |
| MqttAck.ServiceAck.OnConnected | main/APP/MQTT/mqtt_app.c:441-475 | a usable connection starts a new epoch with no id and no flags; a stale one changes neither |
| MqttAck.ServiceAck.OnDisconnected | main/APP/MQTT/mqtt_app.c:477-500 | a new epoch, nothing captured or awaited |
| MqttAck.EventAck.Callback | main/APP/MQTT/mqtt_app.c:246-260 | a callback of this client's generation is recorded, whether or not the id is known yet |
| MqttAck.EventAck.Register | main/APP/MQTT/mqtt_app.c:1429-1437 | the flags seen are exactly the acknowledgements of that id since the begin |
| MqttAck.EventAck.Read | main/APP/MQTT/mqtt_app.c:1467-1479 | published and dropped as the acknowledgements of the id in flight say |
| MqttControl.RunOk | main/APP/MQTT/mqtt_app.c:315-980 | publishers, callbacks, uplink changes, reconnect, stop and start in any order keep the invariant of handle, phase, counter and SDK task |
| MqttControl.RefsAreHolders | main/APP/MQTT/mqtt_app.c:963-980 | publish_refs is the number of publishers, and each holds the present client |
| MqttControl.NeverDestroyedWhileHeld | main/APP/MQTT/mqtt_app.c:761-781 | the client goes only when nobody holds it and the SDK task is not running |
| MqttControl.StoppingIsFinal | main/APP/MQTT/mqtt_app.c:426-500 | STOPPING can only become STOPPED |
| MqttControl.DrainOnlyShrinks | main/APP/MQTT/mqtt_app.c:885-944 | while stopping nobody new gets the handle |
| MqttControl.HandleOfEpoch | main/APP/MQTT/mqtt_app.c:441-980 | over any run, a handle got for a named epoch is of a connection that came in that epoch with no disconnect, stop, start, attempt or newer connection since; the epoch is that connection's own if and only if it did not arrive on a route since left |
| MqttControl.StaleKept | main/APP/MQTT/mqtt_app.c:330-464 | a run in which a connection made on the old route is kept after three refusals and served in the epoch before it |
| MqttControl.ConnectsAndServes | main/APP/MQTT/mqtt_app.c:441-980 | after a start and a connection a publisher gets the handle in the new epoch, and not in the old one |
| MqttControl.ChildConnects | main/APP/MQTT/mqtt_app.c:441-980 | the same on the other uplink, after a reconnect |
| MqttControl.StopsAndGoes | main/APP/MQTT/mqtt_app.c:761-944 | a stop with no publisher ends with no client and nothing running |
| MqttControl.Client.AcquireClient | main/APP/MQTT/mqtt_app.c:971-980 | on the fields: the handle is given, and this publisher counted, if and only if connected, in phase CONNECTED, not switching, asked for epoch 0 or the current one, and there is a client |
| MqttControl.Client.OnBeforeConnect | main/APP/MQTT/mqtt_app.c:426-438 | an attempt of the present client, unless stopping, is connecting on the present route |
| MqttControl.Client.OnConnected | main/APP/MQTT/mqtt_app.c:441-475 | used, in a new epoch, unless it is not ours, we are stopping, or it was made on a route since left; a used one can be acquired, a stale one cannot |
| MqttControl.Client.OnDisconnected | main/APP/MQTT/mqtt_app.c:477-500 | a running client waits to reconnect in a new epoch |
| MqttControl.Client.OnUplinkChanged | main/APP/MQTT/mqtt_app.c:401-424 | a new route; with no uplink the session is not usable |
| MqttControl.Client.Request | main/APP/MQTT/mqtt_app.c:315-355 | one disconnect request per switch, and the session is not usable meanwhile |
| MqttControl.Client.Refused | main/APP/MQTT/mqtt_app.c:330-355 | three refusals on one route keep the old connection |
| MqttControl.Client.BeginStop | main/APP/MQTT/mqtt_app.c:885-900 | stopping, in a new epoch, with nothing usable |
| MqttControl.Client.DestroyClient | main/APP/MQTT/mqtt_app.c:761-781 | stopped without a client in a new generation, or still stopping if the SDK refused; the destroy step of the whole |
| MqttControl.Client.Create | main/APP/MQTT/mqtt_app.c:783-870 | the new handle, in a new generation and epoch |
| CanTransfer.Padded | main/Communication/Can/can_extended.c:273-282 | a frame is sent full, the rest zero |
| CanWords.NumberOfBytes | main/Communication/Can/can_extended.c:323-328 | a 16-bit number written low byte first reads back |
| CanWords.BytesOfNumber | main/Communication/Can/can_extended.c:447-449 | two bytes read as a number and written again are the same two bytes |
| CanTransfer.AcceptsExactly | main/Communication/Can/can_extended.c:409-519 | the reader returns p exactly when the first announcement it saw gives p's offset, length and checksum, p's fragments follow in order among frames that do not match, and p fits the buffer |
| CanTransfer.RoundTrip | main/Communication/Can/can_extended.c:248-519 | the fragments of any payload that fits, with any other traffic in between, give back that payload |
| CanTransfer.DamageNeverAccepted | main/Communication/Can/can_extended.c:467-518 | damage confined to sixteen consecutive bits is never returned in place of what was announced |
| CanTransfer.LostFramesNoticed | main/Communication/Can/can_extended.c:490-509 | if frames in the middle are lost, and not a multiple of 256 of them, no payload is returned |
| CanTransfer.TooFewNoticed | main/Communication/Can/can_extended.c:467-509 | however many frames are lost and wherever, if fewer data frames arrive than were announced no payload is returned |
| CanTransfer.NumbersWrap | main/Communication/Can/can_extended.c:335-355 | the i-th data frame carries i modulo 256 |
| CanTransfer.ConfirmedExactly | main/Communication/Can/can_extended.c:361-407 | a write succeeds exactly when the first frame that answers it echoes offset and length without error |
| CanLayout.StartFrame | main/Communication/Can/can_extended.c:273-331 | the first frame, byte by byte: kind, offset, length and checksum, low byte first, sent full to the target by the source or address 0x10 |
| CanLayout.DataFrame | main/Communication/Can/can_extended.c:333-355 | one frame for every six bytes begun: kind, number modulo 256, the bytes in their order, then zeros |
| CanLayout.ForeignIgnored | main/Communication/Can/can_extended.c:248-506 | a frame from another node, to another master, of another page, kind or format, put in or taken away anywhere, changes no read |
| CanLayout.FirstStart | main/Communication/Can/can_extended.c:416-518 | the first start frame decides: parameter error on a wrong offset, length error beyond the capacity, checksum error at the end, timeout if none comes |
| CanLayout.WrongFrame | main/Communication/Can/can_extended.c:467-509 | after n good data frames, one out of turn or too short ends the read with data lost, and exactly the bytes of those n are kept |
| CanLayout.FirstAnswer | main/Communication/Can/can_extended.c:361-407 | the first frame that answers a write decides its result and error code, the deadline or a failed queue before it |
| CanTransfer.Transfer.SendWriteSequence | main/Communication/Can/can_extended.c:305-359 | the frames sent are the fragments of the payload, all of them or those before the bus failed |
| CanTransfer.Transfer.SendData | main/Communication/Can/can_extended.c:333-359 | the loop with its wrapping counter sends exactly the data frames due |
| CanTransfer.Transfer.ReceiveReadPayload | main/Communication/Can/can_extended.c:409-519 | the result is the specified outcome; rx_len never exceeds the capacity and the buffer changes only where the payload went |
| CanTransfer.Transfer.AwaitStart | main/Communication/Can/can_extended.c:416-465 | skips what does not match and takes the first announcement, or reports why not |
| CanTransfer.Transfer.CollectLoads | main/Communication/Can/can_extended.c:467-509 | the loop collects exactly what the specification collects |
| CanTransfer.Transfer.Check | main/Communication/Can/can_extended.c:511-518 | a payload is kept only if its checksum is the one announced |
| CanTransfer.Transfer.ReceiveWriteResponse | main/Communication/Can/can_extended.c:361-407 | result and error code of the first answer to the write |
| CrcBits.ModbusAsWritten | main/Tool/app_crc.c:574-592 | one turn is the commented loop's: shift, and add the polynomial if a one fell out |
| CrcBits.XmodemAsWritten | main/Tool/app_crc.c:265-297 | one turn of the Xmodem register |
| CrcBits.Mpeg2AsWritten | main/Tool/app_crc.c:649-661 | one turn is the commented loop's |
| CrcBits.ModbusEntry | main/Tool/app_crc.c:5-262 | each of the 256 table entries is eight turns of its index |
| CrcBits.XmodemEntry | main/Tool/app_crc.c:265-297 | each of the 256 table entries is eight turns of its index at the top |
| CrcBits.Mpeg2Entry | main/Tool/app_crc.c:299-557 | each of the 256 table entries is eight turns of its index at the top |
| Crc.ModbusTableByte | main/Tool/app_crc.c:569 | one table step is one byte of the bitwise loop |
| Crc.XmodemTableByte | main/Tool/app_crc.c:601 | one table step is one byte of the bitwise loop |
| Crc.Mpeg2TableByte | main/Tool/app_crc.c:646 | one table step is one byte of the bitwise loop |
| Crc.Modbus_Crc16Cal | main/Tool/app_crc.c:560-572 | for every buffer the table form is the bitwise CRC of the first len modulo 65536 bytes |
| Crc.Xmodem_Crc16Cal | main/Tool/app_crc.c:595-605 | for every buffer the table form is the bitwise CRC |
| Crc.Calcu_Crc32 | main/Tool/app_crc.c:637-664 | for every buffer and start value the table form is the commented loop |
| CrcBurst.BurstDetected | main/Tool/app_crc.c:560-592 | two different messages of one length that agree outside sixteen consecutive bits have different Modbus CRCs |
| CrcBurst.AdjacentBytesDetected | main/Tool/app_crc.c:560-592 | so two that differ only inside two adjacent bytes never share one |
| OtaRecord.ValidFits | main/APP/OTA/ota_cache.c:37-69 | the padded image of a valid record fits its partition and 32 bits |
| OtaRecord.Cache.Store | main/APP/OTA/ota_cache.c:93-106 | an invalid record is refused; a commit replaces the record or leaves it |
| OtaRecord.Cache.Load | main/APP/OTA/ota_cache.c:108-128 | only a record that passes its checks is returned, and what went wrong otherwise |
| OtaRecord.Cache.Invalidate | main/APP/OTA/ota_cache.c:130-140 | success means that nothing is left to load |
| OtaRecord.Cache.BeforeWrite | main/APP/OTA/ota_cache.c:142-153 | when it succeeds and what is left in NVS, for a missing, an unreadable, a mistrusted and a good record |
| OtaRecord.ClearedBeforeWrite | main/APP/OTA/ota_cache.c:142-153 | success means that no record is about the partition to be erased; a record about another one stays |
| OtaRecord.StoredReadsBack | main/APP/OTA/ota_cache.c:93-128 | what is stored is what a load returns |
| OtaRecord.HashFile | main/APP/OTA/ota_cache.c:171-203 | reading 2048 bytes at a time digests the whole file in order |
| OtaRecord.Verify | main/APP/OTA/ota_cache.c:205-222 | accepted exactly when the record is valid, the partition table has a partition of that subtype and name where the record says, and the bytes there have the recorded version, length and hash |
| OtaCache.RunOk | main/APP/OTA/mesh_ota.c:671-849 | every run of writing, staging, hashing, storing, selecting and cutting power, over the record and the NVS operations above, keeps the invariant |
| OtaCache.RecordAlwaysTrue | main/APP/OTA/ota_cache.c:93-153 | with power cuts between any two steps, a stored record always describes bytes in flash whose hash is the recorded one |
| OtaCache.BootSlotDescribed | main/APP/OTA/mesh_ota.c:782-849 | a boot slot is selected only while the stored record truly describes that slot |
| OtaCache.NewImageBoots | main/APP/OTA/mesh_ota.c:671-849 | a good image downloaded, hashed, stored and selected is what the next start runs, with its record |
| OtaCache.CutBeforeSelect | main/APP/OTA/mesh_ota.c:671-849 | with power lost between storing the record and selecting the slot, it is found and selected without another download |
| OtaRelay.Aligned | main/APP/OTA/mesh_ota.c:381-388 | the next multiple of 64 KiB, or 0 exactly when the size is 0 or the sum would overflow |
| OtaRelay.AlignedLeast | main/APP/OTA/mesh_ota.c:381-388 | no smaller multiple holds the image |
| OtaRelay.Provide | main/APP/OTA/mesh_ota.c:485-524 | serves exactly the valid ranges of the file on offer: the image's bytes, then 0xFF; a request for another file or range leaves the buffer alone |
| OtaRelay.TransferHolds | main/APP/OTA/mesh_ota.c:527-581 | after chunks in any order, size and multiplicity the slot holds the image wherever a chunk fell and is erased elsewhere |
| OtaRelay.RelayCorrect | main/APP/OTA/mesh_ota.c:527-581 | once the chunks cover it, the slot begins with the provider's image |
| OtaRelay.AnyNumberOfHops | main/APP/OTA/mesh_ota.c:485-581 | after any number of hops the last node holds the first one's image |
| OtaRelay.Receiver.GetFile | main/APP/OTA/mesh_ota.c:527-581 | a chunk is written exactly when the session accepts, both looks at the link succeed, file and range are right and the flash takes it; it is then on record, and any other chunk of an accepting session ends it |
| OtaFlight.RunTold | main/APP/OTA/mesh_ota.c:620-668 | in every run the SDK runs a transfer exactly when the last notice posted is of a start, and a flag that does not show a delivered start was cleared by a refusal |
| OtaFlight.OpensAloneExactly | main/APP/OTA/mesh_ota.c:1134-1156 | behind a clear flag a session opens, and no other transfer is under way if and only if no start is hidden |
| OtaFlight.RefusalHidesStart | main/APP/OTA/mesh_ota.c:1156-1171 | open, the SDK resumes an old request, its notice arrives, the new request is refused: the next session opens beside a running transfer |
| OtaFlight.StartNotHeard | main/APP/OTA/mesh_ota.c:624-629 | a start whose notice is still underway is not seen |
| OtaFlight.SuccessIsOwnExactly | main/APP/OTA/mesh_ota.c:636-646 | a success on record is that of the session's own transfer if and only if, at the opening, nothing was running or underway, and the SDK resumed nothing before it took the request |
| OtaFlight.OldSuccess | main/APP/OTA/mesh_ota.c:636-646 | a run in which an old transfer's success is recorded for a new session |
| OtaLink.Receiver.ParentLinkChanged | main/APP/OTA/mesh_ota.c:184-198 | every loss of the parent is a new generation |
| OtaLink.Receiver.CancelForParent | main/APP/OTA/mesh_ota.c:419-440 | the session ends unless it was received whole and confirmed twice |
| OtaLink.Receiver.EnterAttempt | main/APP/OTA/mesh_ota.c:1069-1130 | an attempt goes on exactly when the link has been stable, is still the same after the metadata, and the image is newer; on a changed link the request is kept waiting for the parent |
| OtaLink.Receiver.OpenSession | main/APP/OTA/mesh_ota.c:1130-1156 | opens exactly behind a clear flag and after the slot's record is gone; the open event of the flight |
| OtaLink.Receiver.TransmitAnswer | main/APP/OTA/mesh_ota.c:1165-1171 | a refused request clears the flag and the session; the answer event of the flight |
| OtaLink.Receiver.HandleEvent | main/APP/OTA/mesh_ota.c:620-650 | the oldest notice sets or clears the flag; the first end while a session is open is its result |
| OtaLink.Receiver.ExternDisabled | main/APP/OTA/mesh_ota.c:652-668 | clears the flag and records a failure, at any time |
| OtaLink.Receiver.GetFile | main/APP/OTA/mesh_ota.c:527-581 | late or foreign chunks change nothing, a bad one, and one whose link is lost before it is written, ends the session |
| OtaLink.Receiver.GetFileDone | main/APP/OTA/mesh_ota.c:585-617 | found good exactly when the session was accepting on a current link, the image is right, and the parent was not lost up to the second look |
| OtaLink.Receiver.ProcessFinish | main/APP/OTA/mesh_ota.c:983-1014 | staged exactly with a success on record and the local check, and only if the link generation at the check is the one at the start |
| OtaLink.Receiver.PollParent | main/APP/OTA/mesh_ota.c:443-482 | a planned restart closes the session and drops the request; a lost link closes the session and keeps the request waiting, unless it is validated with a success on record; it starts over if and only if a request is waiting after that, on a stable link, due, with no transfer in flight |
| SeqReplay.SlotAndRecording | main/Task/appTask.c:2708-2733 | slot and recording of a ring determine each other, for the last recordings exactly |
| SeqReplay.Advance | main/Task/appTask.c:2718-2727 | one more recording replaces the oldest and shifts no other |
| SeqReplay.Dedup.OneValidEntry | main/Task/appTask.c:2680-2727 | at most one valid entry for a number, and it is the latest recording |
| SeqReplay.HistoryTimes | main/Task/appTask.c:2680-2733 | recordings are in order of time |
| SeqReplay.RunsExactly | main/Task/appTask.c:2680-3019 | after any run a command is run if and only if every earlier recording of its number is more than 32 recordings or more than ten minutes back |
| SeqReplay.ReplyKept | main/Task/appTask.c:2744-2771 | after a kept reply the latest recording of the number has the suffix cut to 15 characters and the payload; no other recording changes |
| SeqReplay.FallbackMeans | main/Task/appTask.c:2613-2623 | without the table a command is known by the last sixteen noted |
| SeqReplay.RunsAgainOnlyAfterWindowOrEviction | main/Task/appTask.c:2988-3019 | over any run a command number is run twice only if the window passed in between or more than 32 recordings lie between |
| SeqReplay.ForgottenInsideWindow | main/Task/appTask.c:2587-2592 | n different commands at one instant, then the first again: it runs a second time exactly when n exceeds 32 |
| SeqReplay.Dedup.Find | main/Task/appTask.c:2680-2705 | a lookup succeeds exactly when the latest recording is among the last 32 and not older than the window |
| SeqReplay.Dedup.Note | main/Task/appTask.c:2708-2733 | a new number is recorded, a known one is not |
| SeqReplay.Dedup.Ensure | main/Task/appTask.c:2643-2673 | the table is made once; after a failure it stays off |
| SeqReplay.Dedup.NoteReply | main/Task/appTask.c:2744-2771 | a reply is kept for a number still remembered, if it is shorter than 512 bytes: its suffix cut to 15 characters and its payload, whatever else is on record unchanged |
| SeqReplay.Dedup.FallbackIsDuplicate | main/Task/appTask.c:2613-2623 | known exactly when among the last sixteen noted |
| SeqReplay.Dedup.FallbackNote | main/Task/appTask.c:2625-2641 | a new number is noted once |
| SeqReplay.Dedup.Arrive | main/Task/appTask.c:2988-3019 | run, replay with the reply on record, or ignore, exactly as the log of commands says |
| RowCache.Victim | main/DataStorage/SqLite/SqLite.c:1492-1521 | the row the ORDER BY puts first |
| RowCache.VictimLeastNeeded | main/DataStorage/SqLite/SqLite.c:1492-1521 | the oldest-inserted row of the highest state; a pending row only when all are |
| RowCache.InsertedWellFormed | main/DataStorage/SqLite/SqLite.c:1593-1736 | (pn, record_id, seq_no) stays unique, at most 1200 rows, ids in order of insertion |
| RowCache.OnlyTheVictimGoes | main/DataStorage/SqLite/SqLite.c:1593-1736 | at most one row is evicted; the others keep order and contents |
| RowCache.EvictsExactly | main/DataStorage/SqLite/SqLite.c:1593-1736 | a row goes exactly when the key is new, the table is not empty, and it has 1200 rows or the file system is low on space |
| RowCache.IdsComeBack | main/DataStorage/SqLite/SqLite.c:811-823 | the id of an evicted row can be given out again |
| RowCache.InsertThenQuery | main/DataStorage/SqLite/SqLite.c:1999-2027 | the row just written is the one a query for it returns |
| RowCache.LongestRecordIdNeverStored | main/DataStorage/SqLite/SqLite.c:1547-1592 | a 28-character record_id may begin a session but no sample of it can be inserted |
| RowCache.StorableExactly | main/DataStorage/SqLite/SqLite.c:1547-1592 | of the sessions that may begin, exactly those with a record_id shorter than 28 can store samples |
| RowCache.Cache.FindKey | main/DataStorage/SqLite/SqLite.c:1455-1490 | the row of the key, if any |
| RowCache.Cache.FindVictim | main/DataStorage/SqLite/SqLite.c:1492-1521 | the scan finds the row to overwrite |
| RowCache.Cache.Insert | main/DataStorage/SqLite/SqLite.c:1547-1736 | succeeds exactly when the arguments are good and no step fails; then the rows are the specified ones, otherwise unchanged |
| RowCache.Cache.Change | main/DataStorage/SqLite/SqLite.c:1593-1736 | the statements of the transaction, and which fault stops it |
| RowCache.Cache.QueryBySession | main/DataStorage/SqLite/SqLite.c:1999-2027 | the highest-numbered row of the session, or of the number asked for; none only when there is none |
| RowCache.Cache.UpdatePushState | main/DataStorage/SqLite/SqLite.c:1808-1861 | exactly the rows named are marked, 1 and 2 as they are and anything else as 0, or none if the lock, the database or the statement fails; success exactly when there was one to mark |
| RowCache.MarksOne | main/DataStorage/SqLite/SqLite.c:1808-1861 | asked with its own record_id, a session marks that row and no other |
| BleSession.Session.Reset | main/Communication/Ble_control/Ble_control.c:72-77 | a later generation, in the clear, whatever other tasks do meanwhile |
| BleSession.Session.SetEncrypted | main/Communication/Ble_control/Ble_control.c:95-104 | the bit is set only on the generation it is meant for; a late caller changes nothing; undisturbed it succeeds exactly when that generation is current |
| BleSession.Session.FirstPacket | main/Task/appTask.c:1843-1914 | if it got through, the handshake begins anew in the clear, and has begun exactly when the packet was answered; if not, nothing changes |
| BleSession.Session.KeyPacket | main/Task/appTask.c:1875-1890 | in a begun handshake the key is ready exactly when this packet was answered; otherwise it is ignored |
| BleSession.Session.ResultPacket | main/Task/appTask.c:1843-1914 | encryption goes on only after a good result, answered, in this generation, and does when nothing interferes |
| BleSession.Session.ProcessAuth | main/Task/appTask.c:1843-1914 | the bit goes on only with the result that completes a handshake all of whose packets (10-byte first, 146-byte key, 18-byte result, each answered, no restart or refusal between) were handled in that one generation |
| BleSession.Receiver.Notify | main/Communication/Ble_control/Ble_control.c:345-376 | the buffer holds notifications of one generation, whole and in order; what does not fit is left |
| BleSession.Receiver.Timeout | main/Communication/Ble_control/Ble_control.c:377-404 | what is passed on is exactly those, and only while their generation is current |
| JsonScanner.IsCompleteJson | main/Tool/Json_data.c:183-256 | the three loops decide Complete for every buffer and length |
| JsonScanner.CompleteFromClosingBrace | main/Tool/Json_data.c:183-256 | of any object printed per RFC 8259 between blanks, a prefix is accepted if and only if it reaches the closing brace |
| JsonScanner.TwoObjectsPass | main/Tool/Json_data.c:183-256 | two objects side by side are accepted |

## Left out

- 32-bit wrap of tokens, revisions, epochs, generations and ticks: naturals that do not wrap.
- GapTable.AgingGap.SampleSubmit: the queue send that may block for a short time under the lock is one atomic step; the queue is only known by its length.
- GapTable.AgingGap.SessionBegin: states the call with nothing in between; with other tasks in between it is the events Begin, Look and EndResume of GapWorld. The lock, once created, waits without end and is taken to succeed.
- GapWorld: nobody submits on a token whose begin has not returned, because the caller stops the sampling task first (main/Task/appTask.c:4471-4485).
- GapWorld.Next: the database may lose any rows at any moment, which covers eviction by other inserts; the row of a sample is only its key and number.
- GapIds.ParseIds: qsort is an ordered arrangement of the same numbers; JSON numbers are exact reals.
- CanTransfer.LostFramesNoticed: a loss of a multiple of 256 frames does not show in the packet numbers; it is noticed by the count (CanTransfer.TooFewNoticed), unless frames of another transfer take their place.
- CanTransfer.Transfer.ReceiveReadPayload: the deadline is an event of the inbox; waits without end are not modelled. The packing of addresses into the 29-bit identifier is left out, as are remote frames, which the receiver does not tell apart.
- Crc.Modbus_Crc16Cal: the caller's buffer is at least as long as the narrowed length.
- MqttAck.ServiceAck.Register: message ids are 16-bit, as in MQTT 3.1.1; ids beyond are ignored by the callbacks.
- MqttEventCache: topic formatting, allocation and memory placement are parameters; retirement statistics are not stated.
- MqttControl: the expedited reconnect after an uplink change, the set-up of subscriptions and the retry timers are left out; each step of stop, start and reconnect between two lock sections is one event.
- OtaFlight: the SDK runs one transfer at a time, takes a request only when it runs none, answers OK exactly when it took it, posts one notice of every start and of every end except one given to the callback, and its notices are delivered in order. The mailbox that resumes a request after an idle period is left out.
- OtaLink.Receiver.GetFile: link check and flash write are separate, so a byte may still be written after the parent is lost; that nothing is staged from such a session is proved instead.
- OtaCache, OtaRecord: SHA-256, the record's checksum and the comparison of versions are function parameters; NVS keeps or loses a commit as a whole.
- OtaRelay: NOR flash can only clear bits; erasing happens with the first chunk, and a write that fails leaves the slot as it was.
- BleSession.Session.SetEncrypted: the check that the session is current reads three atomics; it is taken as one step after interference.
- BleSession.Session.ProcessAuth: the cryptography and the replies are parameters that say whether they worked.
- MqttAck.ServiceAck.Callback: a callback that names no message (id 0) can set flags while no id is awaited, as in the source.
- RowCache.Cache.Insert: SQL text, schema migration, value formatting and free-space measurement; a failing statement is a parameter.
- SeqReplay.Dedup.NoteReply: publishing the replayed reply.
- The publish-tracking table and the protocol generation slots of main/Task/appTask.c: only auxiliary marks.
- The resume of the aging step loop after power loss, restart scheduling, LED state, logging, HTTP transport, drivers, mounting, cJSON trees.
