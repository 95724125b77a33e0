# Distributed scheduler: a verified model

The scheduler starts, connects and continues abilities across devices. It keeps several tables under locks, and local
calls, remote calls, death notices, offline notices and timers change them. The modules here model those tables and prove
what they keep over every run.

| part | files | what it covers |
|---|---|---|
| connections | `Sessions`, `Service`, `Network`, `AsyncNetwork`, `ConnectCap` | the connection tables of one device as a class; any number of devices as a step system, with whole operations as steps and with every call and message as a step; the limit on connects with the check and the bookkeeping as separate steps |
| pending results | `FreeInstall`, `Continuation`, `ContinuationThreads` | tasks and missions that wait for a result, a timeout, an offline notice or a failure, as classes and thread by thread |
| missions | `MissionSync`, `SnapshotCache`, `KeyCodec`, `ListenerMap` | the subscription queue, the bounded snapshot cache, its string keys, the listeners |
| tokens | `TokenRegistry`, `TokenRelation`, `TokenSteps` | the wrapping token counter and the callbacks registered for tokens; the plain relations they amount to; registrations that overlap |
| codecs and index | `Parcels`, `Records`, `SnapshotFrame`, `MissionList`, `DeviceIndex` | byte frames, the mission list from sender to app, the uuid index |
| shared | `Common`, `Tallies` in `Common.dfy` | result codes, counting |

An object that the source updates in place is a class whose methods keep the source's branches and loops. Each method is
proved against a function or relation on values, and the properties of whole runs are proved about those: a run is a
sequence of steps in any order, and the step functions are the ones that the methods are proved against. Iteration over
a map takes the keys in an unspecified order, except where the order decides the result.

Standing assumptions:

- A connect object belongs to one caller (uid, pid, device) for its whole life, connect objects are globally unique, and
  a caller's bundle names and the local device id do not change. The code does not enforce the first one;
  `ConnectCap.SurvivesExactly` and `ConnectCap.ConnectKeepsOneUid` say what it is worth and how to keep it.
- Remote calls and notices arrive, and a broken link is noticed at both ends. `Network` takes every operation with its
  remote calls as one step; `AsyncNetwork` does not, and says exactly when the two ends then agree.
- The class `DistributedSchedService` runs one call at a time, but for the two halves of ConnectAbilityFromRemote:
  `Service.Core.PutCalleeLateExact` says what other calls in between may change.
- Posting and removing tasks and timer events succeeds; timers may fire at any moment. Registering and unregistering the
  mission change listener succeeds.
- `Continuation` takes each call as one step; `ContinuationThreads` takes each critical section and timer operation as one.
- Ticks of the clock are not negative.
- Parcels keep values in the order written, aligned to four bytes; a read that fails moves nothing. Text conversion
  between UTF-8 and UTF-16 loses nothing.
- `SplitStr` and `StrToInt` come from a utility library that is not part of the repository. They are taken to trim blanks
  and drop empty parts, and to accept an optional minus sign followed by digits within 32 bits.

Where code and documentation or intent differ, the model follows the code. The lemmas marked as counterexamples below give
concrete inputs; beside each stands the exact condition under which the property holds.

## Model

| member | source | states |
|---|---|---|
| `Sessions.ConnectedExact` | services/dtbschedmgr/src/distributed_sched_service.cpp:531-541 | A session list gains exactly the one element of the one device; it keeps one session per destination and no repeated element. |
| `Sessions.DroppedExact` | services/dtbschedmgr/src/distributed_sched_service.cpp:1376-1403 | Erasing the first session towards a device removes every session towards it and no other. |
| `Sessions.ConnectExact` | services/dtbschedmgr/src/distributed_sched_service.cpp:514-543 | One connect adds one (connect, device, element) to the table and changes no other route or element. |
| `Sessions.DropDeviceExact` | services/dtbschedmgr/src/distributed_sched_service.cpp:1376-1403 | Offline handling leaves no session towards the device, no empty list, and every other session untouched. |
| `Service.TrackingInsert` | services/dtbschedmgr/src/distributed_sched_service.cpp:523-530 | Counting a new connect keeps every counter equal to the number of connects of its uid. |
| `Service.TrackingRemove` | services/dtbschedmgr/src/distributed_sched_service.cpp:559-576 | Decreasing the counter of an erased connect keeps the counters equal to the table, with no zero stored. |
| `Service.TrackingReplace` | services/dtbschedmgr/src/distributed_sched_service.cpp:1398-1403 | Changing the sessions of a connect and no counter keeps the counters equal to the table if and only if the first session still has the same uid. |
| `Reports.ReplaysStep` | services/dtbschedmgr/src/distributed_sched_service.cpp:1088-1128 | One report that matches one change of a list keeps the replay of all reports equal to the list. |
| `Reports.ListedExactly` | services/dtbschedmgr/src/distributed_sched_service.cpp:987-1055 | A component is listed once for each connect or call of its pid, uid and first bundle, and once for each accepted connect of its bundle. |
| `Service.Core.PutConnectOk` | services/dtbschedmgr/src/distributed_sched_service.cpp:514-543 | Storing a connect keeps the whole device state consistent: table, counters, and reports that replay to the component list. |
| `Service.Core.EraseConnectOk` | services/dtbschedmgr/src/distributed_sched_service.cpp:1271-1285 | Erasing a connect with its report and counter keeps the whole device state consistent. |
| `Service.Core.PutCalleeOk` | services/dtbschedmgr/src/distributed_sched_service.cpp:1235-1243 | Recording an accepted connect with its report keeps the component list equal to the replayed reports. |
| `Service.Core.EraseCalleeOk` | services/dtbschedmgr/src/distributed_sched_service.cpp:1321-1326 | Erasing an accepted connect with its report keeps the component list equal to the replayed reports. |
| `Service.Core.PutCalleeLateExact` | services/dtbschedmgr/src/distributed_sched_service.cpp:1219-1243 | With other calls between lookup and record, recording keeps the reports replaying to the list and leaves the connect recorded if and only if the lookup's answer still holds at the record. |
| `Service.OverlapReportsTwice` | services/dtbschedmgr/src/distributed_sched_service.cpp:1219-1243 | Counterexample: two overlapping calls for a new connect report it twice. |
| `Service.DisconnectLosesConnect` | services/dtbschedmgr/src/distributed_sched_service.cpp:1219-1243 | Counterexample: a disconnect between lookup and record of a known connect leaves it accepted and unrecorded. |
| `Service.Core.PutCallerOk` | services/dtbschedmgr/src/distributed_sched_service.cpp:755-778 | Recording a call by a local caller keeps the call table well formed and the reports replaying to the list. |
| `Service.Core.EraseCallerOk` | services/dtbschedmgr/src/distributed_sched_service.cpp:780-794 | Erasing the calls of a local caller keeps the call table well formed and the reports replaying to the list. |
| `Service.DistributedSchedService.RegisterDistributedComponentListener` | services/dtbschedmgr/src/distributed_sched_service.cpp:970-978 | From the first registration on, reports replay onto the list seen at that moment; a null callback is refused. |
| `Service.DistributedSchedService.CheckDistributedConnectLocked` | services/dtbschedmgr/src/distributed_sched_service.cpp:545-557 | A connect is allowed exactly when the uid is valid and really has fewer than 600 connects in the table. |
| `Service.DistributedSchedService.DecreaseConnectLocked` | services/dtbschedmgr/src/distributed_sched_service.cpp:559-576 | A counter goes down by one and disappears at zero; unknown and invalid uids change nothing. |
| `Service.DistributedSchedService.RemoteConnectAbilityMappingLocked` | services/dtbschedmgr/src/distributed_sched_service.cpp:514-543 | The table gains the one route; counters and reports keep agreeing with it. |
| `Service.DistributedSchedService.NotifyDeviceOfflineToAppLocked` | services/dtbschedmgr/src/distributed_sched_service.cpp:1433-1443 | Exactly one offline notice per element of the session. |
| `Service.NoticesExact` | services/dtbschedmgr/src/distributed_sched_service.cpp:1376-1403 | A notice is due for a connect and an element exactly if a session of the connect to the device has the element. |
| `Service.DistributedSchedService.ProcessDeviceOffline` | services/dtbschedmgr/src/distributed_sched_service.cpp:1367-1422 | All tables lose exactly what belongs to the device, free-install tasks included; each (connect, element) of it and each waiting task with a callback is notified once; the state stays consistent; an unknown or own device changes nothing. |
| `Service.DistributedSchedService.ProcessFreeInstallOffline` | services/dtbschedmgr/src/distributed_sched_service.cpp:1424-1431 | Exactly the free-install tasks of the device end, each callback among them told once. |
| `Service.DistributedSchedService.TakeSession` | services/dtbschedmgr/src/distributed_sched_service.cpp:1380-1397 | The session to the device leaves the list, with one notice per element of it, and its caller is found. |
| `Service.DistributedSchedService.DropConnectsTo` | services/dtbschedmgr/src/distributed_sched_service.cpp:1376-1403 | The erase-while-iterating loop over the connects equals dropping the device, with one notice per (connect, element). |
| `Service.DistributedSchedService.DropCalleesFrom` | services/dtbschedmgr/src/distributed_sched_service.cpp:1404-1416 | The erase-while-iterating loop over accepted connects removes exactly those from the device. |
| `Service.DistributedSchedService.ProcessCalleeOffline` | services/dtbschedmgr/src/distributed_sched_service.cpp:796-821 | The call table loses every session to the device, no other session, and keeps no empty list. |
| `Service.DistributedSchedService.ProcessConnectDied` | services/dtbschedmgr/src/distributed_sched_service.cpp:1462-1510 | A connect stays exactly if its caller differs from the dead one in uid, pid, caller type or source device; the devices to notify are those that the dead caller reached, each once. |
| `Service.DistributedSchedService.AddTargets` | services/dtbschedmgr/src/distributed_sched_service.cpp:1482-1497 | The notify list gains the destinations of a connect and never holds a device twice. |
| `Service.DistributedSchedService.DisconnectRemoteAbility` | services/dtbschedmgr/src/distributed_sched_service.cpp:1262-1299 | Exactly this connect goes, and each device it reached is asked to release it once; errors for a null or unknown connect. |
| `Service.DistributedSchedService.ConnectAbilityFromRemote` | services/dtbschedmgr/src/distributed_sched_service.cpp:1194-1245 | An accepted connect from a well-identified device is recorded once, under its first caller; a refusal changes nothing and returns its reason; for a caller of another type, what happens for either outcome of the unset comparison. |
| `Service.DistributedSchedService.RecordConnect` | services/dtbschedmgr/src/distributed_sched_service.cpp:1235-1243 | The record step keeps the state consistent if and only if the connect was found known, or is new, or nobody listens. |
| `Service.DistributedSchedService.DisconnectAbilityFromRemote` | services/dtbschedmgr/src/distributed_sched_service.cpp:1301-1337 | A valid request removes exactly this connect; an unknown one is an error unless the call is local. |
| `Service.DistributedSchedService.NotifyProcessDiedFromRemote` | services/dtbschedmgr/src/distributed_sched_service.cpp:1339-1365 | An entry stays exactly if its caller differs from the dead one in uid, pid, caller type or source device; success means that every release succeeded, and an error is that of a release that failed. |
| `Service.DistributedSchedService.ConnectRemoteAbility` | services/dtbschedmgr/src/distributed_sched_service.cpp:586-620 | A connect succeeds exactly under the listed conditions, the limit of 600 among them, and only then is recorded; every refusal has its code. |
| `Service.DistributedSchedService.TryConnectRemoteAbility` | services/dtbschedmgr/src/distributed_sched_service.cpp:622-661 | Success is an OK answer within three tries reached through retryable failures only; the session is recorded exactly then; otherwise the code of the answer that ended the tries. |
| `Service.TriesExactly` | services/dtbschedmgr/src/distributed_sched_service.cpp:638-660 | A second and a third try are made exactly after an answer that is neither OK nor one of the two final codes and that took at most 500 ms. |
| `Service.DistributedSchedService.SaveCallerComponent` | services/dtbschedmgr/src/distributed_sched_service.cpp:755-778 | The call table gains exactly the one route, with an ADD report for a new connect only. |
| `Service.DistributedSchedService.RemoveCallerComponent` | services/dtbschedmgr/src/distributed_sched_service.cpp:780-794 | Exactly this connect leaves the call table, with its REMOVE report. |
| `Network.ReachedIffHeld` | services/dtbschedmgr/src/distributed_sched_service.cpp:1482-1497 | The devices that a dying caller's connects reach are exactly those that hold an entry of it. |
| `Network.ProcessDiedExact` | services/dtbschedmgr/src/distributed_sched_service.cpp:1462-1535 | After the notices a device holds exactly the entries whose caller differs from the dead one in uid, pid, caller type or source device, and exactly the devices that held another one were notified. |
| `Network.ConnectKeeps` | services/dtbschedmgr/src/distributed_sched_service.cpp:622-661 | A connect keeps the two ends of every connection in agreement. |
| `Network.DisconnectKeeps` | services/dtbschedmgr/src/distributed_sched_service.cpp:1262-1337 | A disconnect with its remote calls keeps the two ends of every connection in agreement. |
| `Network.ProcessDiedKeeps` | services/dtbschedmgr/src/distributed_sched_service.cpp:1462-1535 | A process death with its notices keeps the two ends of every connection in agreement. |
| `Network.LinkDownKeeps` | services/dtbschedmgr/src/distributed_sched_service.cpp:1367-1422 | A broken link, handled at both ends, keeps the two ends of every connection in agreement. |
| `Network.AlwaysMirrored` | services/dtbschedmgr/src/distributed_sched_service.cpp:1367-1422 | In every state of every run over any set of devices, a device has a session (connect, d) exactly when d holds that connect from it. |
| `Network.SplitConnectBreaksMirror` | services/dtbschedmgr/src/distributed_sched_service.cpp:640-660 | Counterexample: a link lost between acceptance and bookkeeping leaves a session no device answers for. |
| `AsyncNetwork.NextPair` | services/dtbschedmgr/src/distributed_sched_service.cpp:1194-1535 | Each step, a call, a record or the arrival of one message, changes one session or entry exactly as its kind says. |
| `AsyncNetwork.StepKeeps` | services/dtbschedmgr/src/distributed_sched_service.cpp:1194-1535 | Every step of every interleaving keeps the tables well formed. |
| `AsyncNetwork.DifferExactly` | services/dtbschedmgr/src/distributed_sched_service.cpp:622-661 | With acceptance, record and every message as separate steps in any order, the two ends differ about a connect exactly if its entry was cut after the last acceptance and its session recorded, or its session dropped and its entry not cut; with links handled in order, the second only while something is in flight. |
| `AsyncNetwork.MirrorExactly` | services/dtbschedmgr/src/distributed_sched_service.cpp:622-661 | In every state the two ends of all connections agree if and only if no history is of either kind. |
| `AsyncNetwork.QuietMeansExact` | services/dtbschedmgr/src/distributed_sched_service.cpp:622-661 | With links handled in order and nothing in flight, they agree if and only if no recorded call had its entry cut after acceptance by a lost link, the death of its caller or a disconnect. |
| `AsyncNetwork.CalmMirrors` | services/dtbschedmgr/src/distributed_sched_service.cpp:622-661 | They agree at rest whenever no message cuts an entry with a call in flight or a session that stays. |
| `AsyncNetwork.CutInFlightTears` | services/dtbschedmgr/src/distributed_sched_service.cpp:640-660 | Any cut between acceptance and record breaks the pair, whatever went before. |
| `AsyncNetwork.LossTears` | services/dtbschedmgr/src/distributed_sched_service.cpp:1367-1422 | Counterexample: a run with links in order in which a link lost in between breaks the mirror at rest. |
| `AsyncNetwork.DisconnectTears` | services/dtbschedmgr/src/distributed_sched_service.cpp:1262-1337 | Counterexample: a run with links in order in which a disconnect in between does. |
| `AsyncNetwork.DeathTears` | services/dtbschedmgr/src/distributed_sched_service.cpp:1462-1535 | Counterexample: a run with links in order in which the death of the caller in between does. |
| `AsyncNetwork.LateLossStrays` | services/dtbschedmgr/src/distributed_sched_service.cpp:1367-1422 | Counterexample: a device that handles a lost link after the devices were connected again leaves an entry behind. |
| `ConnectCap.StepCounts` | services/dtbschedmgr/src/distributed_sched_service.cpp:597-660 | Each step changes connects plus calls in flight of a uid by at most the one call that passed the limit. |
| `ConnectCap.Bounded` | services/dtbschedmgr/src/distributed_sched_service.cpp:545-557 | With at most n overlapping calls, connects plus calls in flight never exceed 599 + n, in any run. |
| `ConnectCap.Overshoots` | services/dtbschedmgr/src/distributed_sched_service.cpp:597-660 | That bound is reached for every n > 0. |
| `ConnectCap.SharedConnectBreaksCounter` | services/dtbschedmgr/src/distributed_sched_service.cpp:514-543 | Counterexample: a connect object shared by two uids makes the counter disagree with the table after one device goes offline. |
| `ConnectCap.OfflinedAgrees` | services/dtbschedmgr/src/distributed_sched_service.cpp:1376-1403 | Losing a device keeps the counters in agreement if and only if nothing is left of the connect or its first session still has the same uid. |
| `ConnectCap.SurvivesExactly` | services/dtbschedmgr/src/distributed_sched_service.cpp:1376-1403 | The counters survive the loss of any devices in any order if and only if one uid owns all sessions of the connect. |
| `ConnectCap.ConnectKeepsOneUid` | services/dtbschedmgr/src/distributed_sched_service.cpp:514-543 | Connecting keeps a connect with one uid if and only if it is new, belongs to the caller's uid, or already reaches the device. |
| `CallbackTasks.IdAtIs` | services/dtbschedmgr/src/dms_callback_task.cpp:37-45 | The n-th task id in closed form, wrap included. |
| `CallbackTasks.IdsRepeat` | services/dtbschedmgr/src/dms_callback_task.cpp:37-45 | Task ids repeat after exactly 2^63 - 1 calls and never before. |
| `CallbackTasks.DmsCallbackTask.GenerateTaskId` | services/dtbschedmgr/src/dms_callback_task.cpp:37-45 | The ids are positive and are the next of the sequence, through the wrap of the signed counter. |
| `CallbackTasks.DmsCallbackTask.PushCallback` | services/dtbschedmgr/src/dms_callback_task.cpp:47-90 | A push is accepted exactly for a fresh positive id and, for a start, a callback; table entry and timeout come together. |
| `CallbackTasks.DmsCallbackTask.PopCallback` | services/dtbschedmgr/src/dms_callback_task.cpp:92-107 | Entry and timeout leave together, and the entry is returned; without an entry nothing changes. |
| `CallbackTasks.DmsCallbackTask.NotifyDeviceOffline` | services/dtbschedmgr/src/dms_callback_task.cpp:166-181 | A task stays exactly if it was stored with another device; exactly the tasks of this device lose their timeouts, and each of them with a callback gets one offline message. |
| `CallbackTasks.OfflineExact` | services/dtbschedmgr/src/dms_callback_task.cpp:166-181 | What a lost device takes away and whom it tells, in terms of the stored devices and callbacks. |
| `FreeInstall.AlwaysConserved` | services/dtbschedmgr/src/distributed_sched_service.cpp:1712-1766 | In every interleaving of starts, results, timeouts, failures and offline notices, each pushed start task is waiting under a timeout, in delivery, or delivered exactly once. |
| `FreeInstall.PushKeeps` | services/dtbschedmgr/src/dms_callback_task.cpp:47-90 | Pushing a fresh task keeps the conservation of start tasks and the cover of waiting tasks by timeouts. |
| `FreeInstall.FailKeeps` | services/dtbschedmgr/src/distributed_sched_service.cpp:1758-1764 | A failed remote start takes the task into the hands of exactly one deliverer. |
| `FreeInstall.FireKeeps` | services/dtbschedmgr/src/dms_callback_task.cpp:183-200 | A timeout that fires leaves its task covered by the handler that took the event. |
| `FreeInstall.PopKeeps` | services/dtbschedmgr/src/distributed_sched_service.cpp:1876-1900 | Of several results for one task, one thread takes it over. |
| `FreeInstall.DeliverKeeps` | services/dtbschedmgr/src/distributed_sched_service.cpp:1902-1934 | A delivery moves a task from in delivery to delivered, once. |
| `FreeInstall.OfflineKeeps` | services/dtbschedmgr/src/dms_callback_task.cpp:166-181 | An offline notice delivers each of its waiting start tasks once. |
| `FreeInstall.TimeoutDelivers` | services/dtbschedmgr/src/dms_callback_task.cpp:183-200 | No task is stuck: running the timeout of a waiting start task to its end delivers it. |
| `FreeInstall.AlwaysAsAsked` | services/dtbschedmgr/src/distributed_sched_service.cpp:1733-1747 | In every run each task that is starting, waiting or in delivery has the callback, kind and device that were asked for under its id. |
| `FreeInstall.OfflineEndsExactly` | services/dtbschedmgr/src/dms_callback_task.cpp:166-181 | In every run the loss of a device ends exactly the waiting tasks that were asked for on it, and tells each with a callback once. |
| `FreeInstall.PushAcceptedExactly` | services/dtbschedmgr/src/dms_callback_task.cpp:47-90 | In every run a push is accepted exactly for a continuation, or for a start with a callback. |
| `FreeInstall.DeliversToAsker` | services/dtbschedmgr/src/distributed_sched_service.cpp:1902-1934 | In every run a delivery under a task id goes to the callback that asked under that id. |
| `Continuation.PushedKeeps` | services/dtbschedmgr/src/distributed_sched_continuation.cpp:153-179 | Pushing a callback and arming its timer keeps conservation, equal keys and timer cover. |
| `Continuation.FinishedKeeps` | services/dtbschedmgr/src/distributed_sched_continuation.cpp:206-226 | Delivering a result moves a waiting callback to delivered, with its device and timers gone. |
| `Continuation.TimeoutKeeps` | services/dtbschedmgr/src/distributed_sched_continuation.cpp:228-245 | A timeout event keeps conservation and cover, whatever its id. |
| `Continuation.StepKeeps` | services/dtbschedmgr/src/distributed_sched_service.cpp:297-351 | Every call and timeout keeps conservation, equal keys and timer cover. |
| `Continuation.AlwaysConserved` | services/dtbschedmgr/src/distributed_sched_continuation.cpp:153-245 | Over every run each pushed callback is waiting, delivered or cancelled, exactly one of them; the tables agree on their keys; every waiting mission with a positive id has a timer. |
| `Continuation.CancelledMeansError` | services/dtbschedmgr/src/distributed_sched_service.cpp:340-349 | A callback is cancelled only by a call that returns the error to its own caller, and only that callback. |
| `Continuation.TimeoutEnds` | services/dtbschedmgr/src/distributed_sched_continuation.cpp:228-245 | A timeout ends its waiting mission exactly when the id is positive, and then delivers its callback. |
| `Continuation.ContinuedExactly` | services/dtbschedmgr/src/distributed_sched_service.cpp:297-351 | A callback waits afterwards, with its device, install mark and timer, exactly if the mission is known and not in progress and the app is installed there, or an install is allowed, wanted and possible; otherwise what waits is as before. |
| `Continuation.FinishedExactly` | services/dtbschedmgr/src/distributed_sched_continuation.cpp:206-226 | The end of a mission takes its callback, device, install mark and timers, delivers to its callback, and touches no other mission. |
| `Continuation.WaitsAsCalled` | services/dtbschedmgr/src/distributed_sched_service.cpp:297-351 | In every run exactly the callbacks wait that the history of calls leaves waiting, each with the device and install mark of its call, and exactly the callbacks were pushed that it let in. |
| `ContinuationThreads.StepKeeps` | services/dtbschedmgr/src/distributed_sched_continuation.cpp:102-245 | Each critical section or timer operation of each thread keeps conservation, equal keys and timer cover. |
| `ContinuationThreads.AlwaysKept` | services/dtbschedmgr/src/distributed_sched_service.cpp:297-351 | In every interleaving of calls, results and timeouts, each pushed callback is waiting, held by one thread, delivered or taken back; a waiting mission with a positive id has a timer, a thread that sees to it, or lost its timer to a thread that was ending an earlier callback. |
| `ContinuationThreads.AtRest` | services/dtbschedmgr/src/distributed_sched_service.cpp:297-351 | At rest every pushed callback is waiting, delivered or taken back, and a waiting mission with a positive id has a timer if and only if no thread that was ending an earlier callback removed its timers with none set since. |
| `ContinuationThreads.Unattended` | services/dtbschedmgr/src/distributed_sched_continuation.cpp:206-226 | The same for one mission while others are busy. |
| `ContinuationThreads.TakesOwnExactly` | services/dtbschedmgr/src/distributed_sched_service.cpp:340-349 | A refused install takes back its own callback if and only if its push was accepted, which the call does not look at, and no step has taken out a callback of the mission since; a call whose push was refused never does. |
| `ContinuationThreads.AloneTakesOwn` | services/dtbschedmgr/src/distributed_sched_service.cpp:304-351 | If no two calls of one mission overlap between check and end, a refused install takes back its own callback only. |
| `ContinuationThreads.EndsAloneCovers` | services/dtbschedmgr/src/distributed_sched_continuation.cpp:206-226 | If no call pushes between the two steps in which a thread ends the mission's earlier callback, every waiting mission with a positive id has a timer or a thread that sees to it. |
| `ContinuationThreads.OverlapTakesOther` | services/dtbschedmgr/src/distributed_sched_service.cpp:340-349 | Counterexample: a run in which a call whose push was refused takes back the callback of another call. |
| `ContinuationThreads.LateDisarmLeavesNoTimer` | services/dtbschedmgr/src/distributed_sched_continuation.cpp:206-209 | Counterexample: a run at whose end a waiting mission has no timer. |
| `ContinuationThreads.CallAloneIsContinued` | services/dtbschedmgr/src/distributed_sched_service.cpp:297-351 | The steps of a call that runs alone do what the whole call does. |
| `ContinuationThreads.ResultAloneIsFinished` | services/dtbschedmgr/src/distributed_sched_service.cpp:491-512 | The steps of a result that runs alone end the mission as the whole call does. |
| `ContinuationThreads.TimeoutAloneIsTimedOut` | services/dtbschedmgr/src/distributed_sched_continuation.cpp:228-245 | The steps of a timeout that runs alone do what the whole event does. |
| `ContinuationThreads.StartAloneIsStarted` | services/dtbschedmgr/src/distributed_sched_service.cpp:431-433 | The steps of a start that runs alone set the timer that the whole call sets. |
| `ContinuationThreads.QueryAloneIsQueried` | services/dtbschedmgr/src/bundle/bundle_manager_callback_stub.cpp:58-62 | The steps of a successful query that runs alone trade the timers as the whole call does. |
| `Continuation.DSchedContinuation.PushCallback` | services/dtbschedmgr/src/distributed_sched_continuation.cpp:153-179 | Accepted exactly for a callback and a mission that is not waiting; the whole new state. |
| `Continuation.DSchedContinuation.PopCallback` | services/dtbschedmgr/src/distributed_sched_continuation.cpp:181-204 | The callback leaves with its device and install mark; the whole new state. |
| `Continuation.DSchedContinuation.NotifyMissionCenterResult` | services/dtbschedmgr/src/distributed_sched_continuation.cpp:206-226 | A waiting callback gets the result exactly once and its timers go; otherwise an error. |
| `Continuation.DSchedContinuation.ContinueLocalMission` | services/dtbschedmgr/src/distributed_sched_service.cpp:297-351 | Result code, and what waits afterwards with which device, install mark and timer, for every answer of the ability and bundle managers. |
| `Continuation.DSchedContinuation.StartContinuation` | services/dtbschedmgr/src/distributed_sched_service.cpp:409-458 | A rejected mission gets its status delivered; an unknown one gets a timer; a waiting one keeps its own; the code of every outcome. |
| `Continuation.DSchedContinuation.NotifyContinuationCallbackResult` | services/dtbschedmgr/src/distributed_sched_service.cpp:491-512 | A waiting mission gets the result, any mission loses its timers. |
| `Continuation.DSchedContinuation.NotifyContinuationResultFromRemote` | services/dtbschedmgr/src/distributed_sched_service.cpp:479-489 | A result from the remote side ends exactly its mission; ids that are not positive are refused. |
| `Continuation.DSchedContinuation.OnQueryInstallationFinished` | services/dtbschedmgr/src/bundle/bundle_manager_callback_stub.cpp:47-65 | A failed query delivers the failure; a successful one trades the old timers for one new timer and yields the target device; the code of either. |
| `Continuation.DSchedContinuation.ProcessEvent` | services/dtbschedmgr/src/distributed_sched_continuation.cpp:228-245 | A timeout of a positive id delivers the timeout error to the waiting callback; any other event only leaves the queue. |
| `MissionSync.DrainSettles` | services/dtbschedmgr/src/mission/distributed_sched_mission_manager.cpp:496-541 | Running the posted tasks in order ends registered exactly if the last posted one registers. |
| `MissionSync.StepKeeps` | services/dtbschedmgr/src/mission/distributed_sched_mission_manager.cpp:496-541 | Every step of a start, a stop or the handler keeps the relation between subscribed devices and posted tasks. |
| `MissionSync.HoldsTheSubscribed` | services/dtbschedmgr/src/mission/distributed_sched_mission_manager.cpp:496-541 | In every interleaving the set holds exactly the devices whose last call was a start, and calls in progress and overlaps are those of the history. |
| `MissionSync.SubscribedIsServed` | services/dtbschedmgr/src/mission/distributed_sched_mission_manager.cpp:496-541 | In every interleaving, if some device's last call was a start, the tasks end registered or some start call has still to post. |
| `MissionSync.QuietMeansExact` | services/dtbschedmgr/src/mission/distributed_sched_mission_manager.cpp:496-541 | With no call in progress, ending registered agrees with some device's last call being a start if and only if there is such a device or the stop that left none overlapped no start. |
| `MissionSync.SeparateMeansExact` | services/dtbschedmgr/src/mission/distributed_sched_mission_manager.cpp:496-541 | When starts and stops do not overlap, the listener ends registered exactly when some device's last call was a start. |
| `MissionSync.OverlapStaysRegistered` | services/dtbschedmgr/src/mission/distributed_sched_mission_manager.cpp:496-541 | Counterexample: a stop between the two halves of a start leaves the listener registered for nobody. |
| `MissionSync.SyncDevices.StopSyncMissionsFromRemote` | services/dtbschedmgr/src/mission/distributed_sched_mission_manager.cpp:523-541 | This device goes and every other one stays; an unregister task is posted exactly when no device is left. |
| `MissionSync.SyncDevices.EnterDevice` | services/dtbschedmgr/src/mission/distributed_sched_mission_manager.cpp:496-504 | The locked half of a start: the device is in the set before the task is posted. |
| `MissionSync.SyncDevices.PostRegister` | services/dtbschedmgr/src/mission/distributed_sched_mission_manager.cpp:505-521 | The unlocked half of a start: a register task at the end of the queue. |
| `MissionSync.SyncDevices.RunTask` | services/dtbschedmgr/src/mission/distributed_sched_mission_manager.cpp:507-537 | The first task decides the flag; the ability manager is called except to register again. |
| `SnapshotCache.StepKeeps` | services/dtbschedmgr/src/mission/distributed_sched_mission_manager.cpp:596-665 | No operation exceeds the limit or replaces a snapshot by one created earlier. |
| `SnapshotCache.AlwaysBounded` | services/dtbschedmgr/src/mission/distributed_sched_mission_manager.cpp:596-626 | The cache never holds more than ten snapshots, in any run. |
| `SnapshotCache.NeverOlder` | services/dtbschedmgr/src/mission/distributed_sched_mission_manager.cpp:596-665 | While a key stays present over any run, the creation time of its snapshot never goes back. |
| `SnapshotCache.EnqueuedExactly` | services/dtbschedmgr/src/mission/distributed_sched_mission_manager.cpp:596-626 | A snapshot that is not older than the cached one of its key is cached, no other key gains or changes one, and a least recently accessed one goes exactly if the cache was full; an older one changes nothing. |
| `SnapshotCache.HoldsTheLastStored` | services/dtbschedmgr/src/mission/distributed_sched_mission_manager.cpp:596-665 | In every run what is cached under a key is the snapshot last let in for it. |
| `SnapshotCache.DeletedExactly` | services/dtbschedmgr/src/mission/distributed_sched_mission_manager.cpp:647-665 | Among uuids of one length without underscore, deletion takes a snapshot if and only if it is the device's or the uuid is part of its mission id. |
| `SnapshotCache.DeleteIsExact` | services/dtbschedmgr/src/mission/distributed_sched_mission_manager.cpp:647-665 | Deletion takes exactly the device's snapshots if and only if its uuid is part of no mission id under which another device has one; above length 11 always. |
| `SnapshotCache.DeletedLeavesCache` | services/dtbschedmgr/src/mission/distributed_data_change_listener.cpp:59-88 | A snapshot that a notice reports deleted leaves the cache if and only if every inserted entry of the notice names a device with a network id. |
| `SnapshotCache.OthersStay` | services/dtbschedmgr/src/mission/distributed_data_change_listener.cpp:59-106 | A notice drops only snapshots that its delete or update entries name. |
| `SnapshotCache.NoticeDropsExactly` | services/dtbschedmgr/src/mission/distributed_data_change_listener.cpp:59-106 | A cached snapshot goes exactly if the handler gets past the inserted entries, and a deleted entry names it, or an updated one that the handler reaches. |
| `SnapshotCache.NoticeSentExactly` | services/dtbschedmgr/src/mission/distributed_data_change_listener.cpp:59-106 | A mission is notified exactly if an inserted entry that the handler reaches names it, or the handler gets past those and reaches an updated entry that does. |
| `SnapshotCache.DistributedSchedMissionManager.FindOldest` | services/dtbschedmgr/src/mission/distributed_sched_mission_manager.cpp:612-622 | Of the entries with the least last-access time, the first in the order of keys. |
| `SnapshotCache.OneOldest` | services/dtbschedmgr/src/mission/distributed_sched_mission_manager.cpp:612-622 | A full cache has exactly one entry to evict. |
| `SnapshotCache.DistributedSchedMissionManager.EnqueueCachedSnapshotInfo` | services/dtbschedmgr/src/mission/distributed_sched_mission_manager.cpp:596-626 | An older snapshot is refused; any other is stored, after a least recently accessed entry left a full cache. |
| `SnapshotCache.DistributedSchedMissionManager.DequeueCachedSnapshotInfo` | services/dtbschedmgr/src/mission/distributed_sched_mission_manager.cpp:628-645 | The snapshot is taken out with a new access time, and nothing else changes. |
| `SnapshotCache.DistributedSchedMissionManager.DeleteCachedSnapshotInfo` | services/dtbschedmgr/src/mission/distributed_sched_mission_manager.cpp:647-665 | Exactly the keys that contain the uuid go, by the erase-while-iterating loop. |
| `SnapshotCache.DistributedSchedMissionManager.OnChange` | services/dtbschedmgr/src/mission/distributed_data_change_listener.cpp:59-106 | Snapshots dropped and notices sent for every change notice, early returns included. |
| `KeyCodec.ToStringRoundTrip` | services/dtbschedmgr/src/mission/distributed_data_storage.cpp:422-427 | Every 32-bit id is read back from its decimal form. |
| `KeyCodec.KeyInjective` | services/dtbschedmgr/include/mission/distributed_sched_mission_manager.h:121-124 | Distinct pairs of device and id have distinct keys, for any device string. |
| `KeyCodec.ParseRoundTrip` | services/dtbschedmgr/src/mission/distributed_data_change_listener.cpp:36-55 | A generated key parses back to its device and id if and only if the device id is not empty, has no underscore and no surrounding blank. |
| `KeyCodec.LeadingUnderscoreMisread` | services/dtbschedmgr/src/mission/distributed_data_change_listener.cpp:36-55 | Counterexample family: a leading underscore makes a key parse as another device's. |
| `KeyCodec.SubstringExact` | services/dtbschedmgr/src/mission/distributed_sched_mission_manager.cpp:657-664 | A uuid without underscore is found in a key if and only if it is part of the key's uuid or of its mission id. |
| `KeyCodec.SubstringOfEqualLength` | services/dtbschedmgr/src/mission/distributed_sched_mission_manager.cpp:657-664 | Among uuids of one length it is found if and only if the key is its own or it is part of the mission id. |
| `KeyCodec.SafeLengths` | services/dtbschedmgr/src/mission/distributed_sched_mission_manager.cpp:657-664 | The match tells all devices of one length of uuid apart if and only if the length is above 11 or zero. |
| `KeyCodec.ShortIdsCollide` | services/dtbschedmgr/src/mission/distributed_sched_mission_manager.cpp:657-664 | Counterexample: for every length from 1 to 11, the key of every device can contain another uuid. |
| `ListenerMap.HoldsTheLive` | services/dtbschedmgr/src/mission/distributed_sched_mission_manager.cpp:309-448 | After any history, overlapping calls included, the map holds exactly the listeners registered and since neither unregistered, dead nor offline, and no device has an empty set. |
| `ListenerMap.CalledSinceMarked` | services/dtbschedmgr/src/mission/distributed_sched_mission_manager.cpp:346-377 | After any history a device counts as called exactly if it was marked while it had a listener and has had one ever since. |
| `ListenerMap.MissionListeners.RegisterMissionListener` | services/dtbschedmgr/src/mission/distributed_sched_mission_manager.cpp:309-344 | The listener is added for the device exactly when it is not null and the device is another one. |
| `ListenerMap.MissionListeners.UnRegisterMissionListener` | services/dtbschedmgr/src/mission/distributed_sched_mission_manager.cpp:397-429 | The listener is removed, and with the last one the entry; a device subscribed to keeps a listener if and only if this was not its last one. |
| `ListenerMap.UnregisterLeavesSubscription` | services/dtbschedmgr/src/mission/distributed_sched_mission_manager.cpp:397-429 | Counterexample: unregistering the last listener of a device leaves the subscription behind. |
| `ListenerMap.StopLeavesMark` | services/dtbschedmgr/src/mission/distributed_sched_mission_manager.cpp:450-474 | Counterexample: an explicit stop leaves the device marked as called, so that a new start asks nothing of it. |
| `ListenerMap.MissionListeners.StartSyncRemoteMissions` | services/dtbschedmgr/src/mission/distributed_sched_mission_manager.cpp:346-395 | A successful call leaves the device subscribed if and only if it was so before or a listener waited for a device not marked as called. |
| `ListenerMap.MissionListeners.StopSyncRemoteMissions` | services/dtbschedmgr/src/mission/distributed_sched_mission_manager.cpp:450-474 | The caches are cleaned in any case; called devices stay subscribed ones if and only if the stop did not reach a called device. |
| `ListenerMap.MissionListeners.CleanMissionResources` | services/dtbschedmgr/src/mission/distributed_sched_mission_manager.cpp:431-448 | The entry and the subscription of an offline device go; its caches are cleaned exactly if there was an entry. |
| `ListenerMap.MissionListeners.TakeListener` | services/dtbschedmgr/src/mission/distributed_sched_mission_manager.cpp:946-967 | The erase-while-iterating loop equals removing the dead listener everywhere, and finds the called devices that lost their last one. |
| `ListenerMap.MissionListeners.OnMissionListenerDied` | services/dtbschedmgr/src/mission/distributed_sched_mission_manager.cpp:942-974 | The dead listener is in no set, all others stay, and exactly the called devices that lost their last listener are stopped, each once. |
| `ListenerMap.DeathKeeps` | services/dtbschedmgr/src/mission/distributed_sched_mission_manager.cpp:942-974 | Devices subscribed to keep a listener if and only if each one that loses its last listener is marked as called and heeds the stop. |
| `ListenerMap.MissionListeners.StopEach` | services/dtbschedmgr/src/mission/distributed_sched_mission_manager.cpp:968-973 | Each device is cleaned once, and unsubscribed where the remote call succeeds. |
| `TokenRegistry.IssueDistinct` | services/dtbabilitymgr/src/distributed_ability_manager_service.cpp:193-203 | Tokens issued less than 100000000 registrations apart differ, and at that distance they are equal. |
| `TokenRegistry.TokensDistinct` | services/dtbabilitymgr/src/distributed_ability_manager_service.cpp:179-211 | In any run of at most 100000000 registrations all issued tokens are in range and pairwise distinct. |
| `TokenRegistry.AlwaysOk` | services/dtbabilitymgr/src/distributed_ability_manager_service.cpp:179-308 | In such a run the token lists stay non-empty, disjoint and within 600, and every callback belongs to a registered token and holds a notifier under a known type. |
| `TokenSteps.AlwaysSound` | services/dtbabilitymgr/src/distributed_ability_manager_service.cpp:179-211 | With check, drawing and insertion of a token as separate steps in any order, the lists stay non-empty and disjoint, no token is drawn twice or held before its insertion, and every callback belongs to a held token. |
| `TokenSteps.StepCounts` | services/dtbabilitymgr/src/distributed_ability_manager_service.cpp:446-455 | Only a check that finds room adds to the tokens and registrations in flight of an app. |
| `TokenSteps.Bounded` | services/dtbabilitymgr/src/distributed_ability_manager_service.cpp:446-455 | With at most n registrations of an app in flight, its tokens and registrations never exceed 599 + n, in any run. |
| `TokenSteps.TwoOvershoot` | services/dtbabilitymgr/src/distributed_ability_manager_service.cpp:179-211 | Counterexample: two registrations at the last free place both pass the check, and the app ends with 601 tokens. |
| `TokenRegistry.StepKeeps` | services/dtbabilitymgr/src/distributed_ability_manager_service.cpp:179-308 | Every call and every posted task keeps that state. |
| `TokenRelation.StepAgrees` | services/dtbabilitymgr/src/distributed_ability_manager_service.cpp:179-308 | Every call and every posted task does to the lists and nested maps what it does to two plain relations, of apps and tokens and of tokens, events and notifiers. |
| `TokenRelation.AlwaysAgrees` | services/dtbabilitymgr/src/distributed_ability_manager_service.cpp:179-308 | In a run of at most 100000000 registrations each app holds exactly the tokens, and each token has for each event exactly the notifier, that the history leaves. |
| `TokenRegistry.RemovedExact` | services/dtbabilitymgr/src/distributed_ability_manager_service.cpp:231-240 | Removing a token takes it from every app, keeps all other tokens, and keeps the lists non-empty and disjoint. |
| `TokenRegistry.ForgottenExact` | services/dtbabilitymgr/src/distributed_ability_manager_service.cpp:222-241 | A token unregistered or lost to a death is in neither map, and everything else in both is as before. |
| `TokenRegistry.SharedTokenSurvives` | services/dtbabilitymgr/src/distributed_ability_manager_service.cpp:231-240 | Counterexample: if two apps held one token, the early end of the loop could leave it with the second. |
| `TokenRegistry.EarlyEndExact` | services/dtbabilitymgr/src/distributed_ability_manager_service.cpp:231-240 | The early end does no harm, in whatever order the apps are visited, if and only if no app holds nothing but the token while another one holds it. |
| `TokenRegistry.RoomExactly` | services/dtbabilitymgr/src/distributed_ability_manager_service.cpp:446-455 | A fresh token keeps the lists well formed if and only if the app holds fewer than 600. |
| `TokenRegistry.DistributedAbilityManagerService.RemoveToken` | services/dtbabilitymgr/src/distributed_ability_manager_service.cpp:228-241 | The loop with its early end removes the token everywhere if at most one app holds it; what it does otherwise is also stated. |
| `TokenRegistry.DistributedAbilityManagerService.IsTokenRegistered` | services/dtbabilitymgr/src/distributed_ability_manager_service.cpp:477-492 | True exactly when this app holds this token. |
| `TokenRegistry.DistributedAbilityManagerService.IsExceededRegisterMaxNum` | services/dtbabilitymgr/src/distributed_ability_manager_service.cpp:446-455 | False exactly when one more fresh token keeps the lists within their limit; true exactly when a registration is refused for it. |
| `TokenRegistry.DistributedAbilityManagerService.Register` | services/dtbabilitymgr/src/distributed_ability_manager_service.cpp:179-211 | The new token follows the last one through the wrap and is added to the app, unless the mode or the number is refused. |
| `TokenRegistry.DistributedAbilityManagerService.Unregister` | services/dtbabilitymgr/src/distributed_ability_manager_service.cpp:213-245 | A token of the app leaves both maps; any other is an error. |
| `TokenRegistry.DistributedAbilityManagerService.RegisterDeviceSelectionCallback` | services/dtbabilitymgr/src/distributed_ability_manager_service.cpp:247-279 | For a known type, a token of the app and an unused type the notifier is set, and that of every other token or type is as before; otherwise the matching error. |
| `TokenRegistry.DistributedAbilityManagerService.UnregisterDeviceSelectionCallback` | services/dtbabilitymgr/src/distributed_ability_manager_service.cpp:281-308 | The notifier of the type goes, that of every other token or type is as before, and with the last one the entry goes; otherwise the matching error. |
| `TokenRegistry.DistributedAbilityManagerService.QueryTokenByNotifier` | services/dtbabilitymgr/src/distributed_ability_manager_service.cpp:654-667 | The least token with the notifier among its own, if there is one. |
| `TokenRegistry.DistributedAbilityManagerService.HandleNotifierDied` | services/dtbabilitymgr/src/distributed_ability_manager_service.cpp:678-716 | The first token of a dead notifier leaves both maps; without one nothing changes. |
| `SnapshotFrame.SnapshotRoundTrip` | services/dtbschedmgr/src/mission/snapshot.cpp:161-281 | Whatever bytes follow, the frame of any 17 fields and any picture bytes is received as those fields and that picture. |
| `SnapshotFrame.WrittenIsFramed` | services/dtbschedmgr/src/mission/snapshot.cpp:230-281 | Any field bytes in a multiple of four and any picture bytes, as the writers append them, form a frame of exactly these bytes. |
| `SnapshotFrame.InfoRoundTrip` | services/dtbschedmgr/src/mission/snapshot.cpp:84-132 | The 17 fields are read back in the order written. |
| `SnapshotFrame.WriteSnapshotInfo` | services/dtbschedmgr/src/mission/snapshot.cpp:210-239 | The parcel gains the size and the bytes of the 17 fields. |
| `SnapshotFrame.WritePixelMap` | services/dtbschedmgr/src/mission/snapshot.cpp:258-281 | A picture above 600 KiB is refused and leaves the parcel alone; any other is appended behind its size. |
| `SnapshotFrame.MissionSnapshotSequence` | services/dtbschedmgr/src/mission/distributed_sched_mission_manager.cpp:1082-1095 | A successful call has produced a frame of the fields and the picture. |
| `SnapshotFrame.FillSnapShot` | services/dtbschedmgr/src/mission/snapshot.cpp:84-132 | The 17 fields as any byte string yields them, none if a read that must succeed fails. |
| `SnapshotFrame.Create` | services/dtbschedmgr/src/mission/snapshot.cpp:161-208 | Below 2^32 bytes the result is that of the frame the bytes start with; a result always comes from such a frame; every read is inside the bytes. |
| `Parcels.TakePut` | services/dtbschedmgr/include/mission/snapshot.h:63-98 | Every typed value is read back from its bytes, whatever follows. |
| `Parcels.ReadAllPutAll` | services/dtbschedmgr/src/mission/snapshot.cpp:84-132 | A record written cell by cell is read back cell by cell and the read stops where it ends. |
| `MissionList.InfoRoundTrip` | services/dtbschedmgr/src/mission/distributed_mission_info.cpp:30-101 | All 24 fields of a mission are read back as written. |
| `MissionList.FailsOnIdsOnly` | services/dtbschedmgr/src/mission/distributed_mission_info.cpp:30-60 | A mission is read from any bytes in which the list of ids, behind four numbers, can be read. |
| `MissionList.ListRoundTrip` | services/dtbschedmgr/src/mission/distributed_mission_info.cpp:103-149 | A written list is read back, if and only if it is not empty or the receiving vector was. |
| `MissionList.Marshalling` | services/dtbschedmgr/src/mission/distributed_mission_info.cpp:73-101 | The parcel gains the 24 fields of the mission. |
| `MissionList.ReadFromParcel` | services/dtbschedmgr/src/mission/distributed_mission_info.cpp:30-60 | The mission that any byte string yields; it fails only on the list of ids. |
| `MissionList.WriteDstbMissionInfosToParcel` | services/dtbschedmgr/src/mission/distributed_mission_info.cpp:134-149 | The parcel gains the list, an empty one as a null marker. |
| `MissionList.ReadDstbMissionInfosFromParcel` | services/dtbschedmgr/src/mission/distributed_mission_info.cpp:103-132 | The list that any byte string yields: bad lengths, null entries and broken missions fail, and what a failure leaves in the vector. |
| `MissionList.ConvertToDstbMissionInfos` | services/dtbschedmgr/src/mission/mission_info_converter.cpp:29-48 | The converted missions are appended in order. |
| `MissionList.ConvertToMissionInfos` | services/dtbschedmgr/src/mission/mission_info_converter.cpp:50-68 | The missions converted back are appended in order; a null want is dereferenced if and only if some mission has none. |
| `MissionList.EndToEnd` | services/dtbschedmgr/src/mission/mission_info_converter.cpp:29-68 | The list converted and written by the sender is read back as it was, and its first missions show the sender's in the seven travelling fields. |
| `MissionList.SyncedEndToEnd` | services/dtbschedmgr/src/mission/distributed_sched_mission_manager.cpp:667-725 | If the list last synced for a device is what was read from the sender's bytes, an app that asks gets the sender's first missions. |
| `MissionList.ReadableIsAll` | services/dtbschedmgr/src/mission/distributed_mission_info.cpp:103-132 | A list is read in full exactly if every mission in it can be read. |
| `MissionList.LastSyncedExactly` | services/dtbschedmgr/src/mission/distributed_sched_mission_manager.cpp:694-725 | A list is the last synced for a device exactly if some sync brought it and no later sync or clean was about the device. |
| `MissionList.MissionCache.RebornMissionCache` | services/dtbschedmgr/src/mission/distributed_sched_mission_manager.cpp:694-709 | The list becomes the last one synced for the device's uuid. |
| `MissionList.MissionCache.CleanMissionCache` | services/dtbschedmgr/src/mission/distributed_sched_mission_manager.cpp:711-725 | The device has no synced list any more. |
| `MissionList.MissionCache.FetchCachedRemoteMissions` | services/dtbschedmgr/src/mission/distributed_sched_mission_manager.cpp:667-692 | The first min(n, size) missions of the list last synced for the device. |
| `MissionList.MissionCache.GetMissionInfos` | services/dtbschedmgr/src/mission/distributed_sched_mission_manager.cpp:70-88 | The first min(n, size) missions last synced, converted; an unknown or offline device or a count below one is refused; a null want is dereferenced if and only if one of those missions has none. |
| `DeviceIndex.EntryExactly` | services/base/src/dtbschedmgr_device_info_storage.cpp:146-162 | A network id is left for a uuid exactly if it was reported online with that uuid and no later report was about the uuid. |
| `DeviceIndex.FoundExactly` | services/base/src/dtbschedmgr_device_info_storage.cpp:248-308 | A device online is found under its uuid if and only if no report about another network id of that uuid came after its own. |
| `DeviceIndex.OldOfflineHidesNew` | services/base/src/dtbschedmgr_device_info_storage.cpp:294-304 | Counterexample: the late offline report of an old network id hides the new one. |
| `DeviceIndex.ReflectsStep` | services/base/src/dtbschedmgr_device_info_storage.cpp:146-162 | One task moves the index to what the longer history leaves. |
| `DeviceIndex.DtbschedmgrDeviceInfoStorage.GetUuidByNetworkId` | services/base/src/dtbschedmgr_device_info_storage.cpp:212-231 | In every state the answer is that of the network layer. |
| `DeviceIndex.DtbschedmgrDeviceInfoStorage.GetNetworkIdByUuid` | services/base/src/dtbschedmgr_device_info_storage.cpp:233-247 | A network id found maps back to the uuid, and is the one that the history of reports leaves. |
| `DeviceIndex.DtbschedmgrDeviceInfoStorage.RunTask` | services/base/src/dtbschedmgr_device_info_storage.cpp:262-304 | Running a task keeps index, device set and listener calls equal to what the history of tasks says. |

## Left out

- Requests between processes, interface tokens, permission and account checks, the ability and bundle managers: their answers are parameters.
- The by-call variant on the callee side (`calleeMap_`), whose reports do not balance because a known connect is reported again.
- The wrapper objects of accepted connects and the disconnect calls to the ability manager: only their results appear, as parameters.
- The uid in reports about an accepted connect: it is looked up from the bundle name, which is the identity used here.
- The kind of target component: every session here has a native one.
- The order in which map entries are visited, and with it the order of notices, reports and remote calls.
- The unsigned 32-bit width of the connect counters, which 600 connects per uid never reach.
- A failed lookup of the local device id is the same as an empty id.
- Service.DistributedSchedService.RemoveCallerComponent: also stands for HandleLocalCallerDied, which does the same to `callerMap_` before it notifies the peer.
- The peer's side of a start or release by call.
- A free-install task for a continuation hands its result to the continuation; the hand-over, which narrows a missing mission id, is not part of `FreeInstall`.
- Entries of `continuationMissionMap_` can outlive their task; nothing is claimed about them.
- Ability tokens and session ids of continuations, which the service does not use.
- Retrying a failed start of mission sync and a failed registration of the listener; after a failed start the retry finds nothing to do.
- The handling of a dead network service, which nothing calls.
- Sending mission and snapshot changes to listeners and devices, beyond the notices that `SnapshotCache` records.
- The store behind the snapshot keys, its delayed deletion, and the guards of its Insert and Delete beyond the range of ids.
- Registering and unregistering of death recipients; only the first notifier of a token gets one.
- Connecting to the device selection panel and its posted tasks.
- JPEG packing and decoding: the compressed bytes and the decoder are parameters. The capacity of a parcel is not limited.
- What happens after a null want is dereferenced: `MissionList` only says when.
- Network.AlwaysMirrored: takes every operation together with its remote calls as one step, as do the lemmas of `Network` for single steps.
- ListenerMap.MissionListeners.StartSyncRemoteMissions: leaves out the retry, and the mission cache that a success refreshes, which `MissionList.MissionCache.RebornMissionCache` states.
- SnapshotFrame.WritePixelMap: leaves out a refusal for lack of capacity.
- TokenRegistry.AlwaysOk: takes each call and each posted task as one step; `TokenSteps` splits registrations, and still takes the other calls as one step.
- Continuation.AlwaysConserved: takes each call as one step, as does `Continuation.StepKeeps`.
- A list or text longer than 2^31 - 1 items.
- The content of a device record: only whether a device is online.
