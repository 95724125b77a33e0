/** DmsCallbackTask: free-install tasks that wait for a remote result, a timeout or the loss of the device. */
module CallbackTasks {
  import opened Common

  const INT64_MAX := 0x7FFF_FFFF_FFFF_FFFF

  datatype LaunchType = FREEINSTALL_START | FREEINSTALL_CONTINUE

  datatype Item = Item(callback: Remote, taskId: int, launchType: LaunchType, deviceId: DeviceId)

  /** What PopCallback returns when it finds nothing. */
  const NO_ITEM := Item(NULL, -1, FREEINSTALL_START, "")

  /** A result delivered to the application that asked for the install. */
  datatype Sent = Sent(taskId: int, callback: Remote, resultCode: int)

  /** The tables guarded by callbackMapMutex_, and the timeout events waiting in the handler. */
  datatype Tasks = Tasks(callbackMap: map<int, Item>, timers: set<int>)

  predicate CanPush(tasks: Tasks, taskId: int, callback: Remote, launchType: LaunchType)
  {
    taskId > 0 && (launchType == FREEINSTALL_START ==> callback != NULL) && taskId !in tasks.callbackMap
  }

  function Push(tasks: Tasks, item: Item): Tasks
  {
    Tasks(tasks.callbackMap[item.taskId := item], tasks.timers + {item.taskId})
  }

  function Pop(tasks: Tasks, taskId: int): Tasks
  {
    if taskId in tasks.callbackMap then Tasks(tasks.callbackMap - {taskId}, tasks.timers - {taskId}) else tasks
  }

  function Popped(tasks: Tasks, taskId: int): Item
  {
    if taskId in tasks.callbackMap then tasks.callbackMap[taskId] else NO_ITEM
  }

  function LaunchTypeOf(tasks: Tasks, taskId: int): LaunchType
  {
    if taskId > 0 && taskId in tasks.callbackMap then tasks.callbackMap[taskId].launchType else FREEINSTALL_START
  }

  /** The tasks waiting for a device. */
  function WaitingFor(tasks: Tasks, d: DeviceId): set<int>
  {
    set t | t in tasks.callbackMap && tasks.callbackMap[t].deviceId == d
  }

  function Without(tasks: Tasks, ids: set<int>): Tasks
  {
    Tasks(tasks.callbackMap - ids, tasks.timers - ids)
  }

  function Offline(tasks: Tasks, d: DeviceId): Tasks
  {
    Without(tasks, WaitingFor(tasks, d))
  }

  /** Those of the given tasks whose application gets a message when they end. */
  function Told(tasks: Tasks, ids: set<int>): set<int>
  {
    set t | t in ids && t in tasks.callbackMap && tasks.callbackMap[t].callback != NULL
  }

  // ----- task ids -----

  /** The value of currTaskId_ after n calls of GenerateTaskId. */
  function IdAt(n: nat): (id: int)
    ensures 1 <= id <= INT64_MAX
  {
    if n == 0 then 1 else if IdAt(n - 1) == INT64_MAX then 1 else IdAt(n - 1) + 1
  }

  lemma {:induction false} IdAtIs(n: nat)
    ensures IdAt(n) == n % INT64_MAX + 1
  {
    if n > 0 {
      IdAtIs(n - 1);
    }
  }

  /** Task ids repeat after exactly 2^63 - 1 calls, so that many consecutive ids are distinct. */
  lemma IdsRepeat(i: nat, j: nat)
    ensures IdAt(i) == IdAt(j) <==> i % INT64_MAX == j % INT64_MAX
    ensures i < j < i + INT64_MAX ==> IdAt(i) != IdAt(j)
  {
    IdAtIs(i);
    IdAtIs(j);
  }

  class DmsCallbackTask {
    ghost var generated: nat
    var currTaskId: int
    var callbackMap: map<int, Item>
    var continuationMissionMap: map<int, int>
    var timers: set<int>
    var sent: seq<Sent>

    ghost predicate Valid()
      reads this
    {
      && currTaskId == IdAt(generated)
      && forall t <- callbackMap :: t > 0 && callbackMap[t].taskId == t
    }

    ghost function State(): Tasks
      reads this
    {
      Tasks(callbackMap, timers)
    }

    constructor ()
      ensures Valid() && generated == 0 && State() == Tasks(map[], {}) && continuationMissionMap == map[] && sent == []
    {
      generated, currTaskId, callbackMap, continuationMissionMap, timers, sent := 0, 1, map[], map[], {}, [];
    }

    method GenerateTaskId() returns (id: int)
      requires Valid()
      modifies this`generated, this`currTaskId
      ensures Valid() && id == IdAt(old(generated)) && generated == old(generated) + 1
    {
      id := currTaskId;
      // a signed 64-bit increment of an atomic wraps around
      var next := if currTaskId == INT64_MAX then -INT64_MAX - 1 else currTaskId + 1;
      currTaskId := if next <= 0 then 1 else next;
      generated := generated + 1;
    }

    method PushCallback(taskId: int, callback: Remote, deviceId: DeviceId, launchType: LaunchType)
      returns (result: int)
      requires Valid()
      modifies this`callbackMap, this`timers
      ensures Valid()
      ensures result == if CanPush(old(State()), taskId, callback, launchType) then ERR_OK else INVALID_PARAMETERS_ERR
      ensures State() == if result == ERR_OK then Push(old(State()), Item(callback, taskId, launchType, deviceId))
                         else old(State())
      ensures result == ERR_OK <==>
                taskId > 0 && (launchType == FREEINSTALL_CONTINUE || callback != NULL) && taskId !in old(callbackMap)
      ensures result == ERR_OK ==>
                && callbackMap == old(callbackMap)[taskId := Item(callback, taskId, launchType, deviceId)]
                && taskId in timers && old(timers) <= timers
    {
      if taskId <= 0 {
        return INVALID_PARAMETERS_ERR;
      }
      if launchType == FREEINSTALL_START {
        if callback == NULL {
          return INVALID_PARAMETERS_ERR;
        }
      }
      if taskId in callbackMap {
        return INVALID_PARAMETERS_ERR;
      }
      timers := timers + {taskId};
      callbackMap := callbackMap[taskId := Item(callback, taskId, launchType, deviceId)];
      return ERR_OK;
    }

    method PopCallback(taskId: int) returns (item: Item)
      requires Valid()
      modifies this`callbackMap, this`timers
      ensures Valid() && item == Popped(old(State()), taskId) && State() == Pop(old(State()), taskId)
      ensures taskId !in callbackMap
      ensures taskId in old(callbackMap) ==> item == old(callbackMap)[taskId] && taskId !in timers
      ensures forall t :: t != taskId ==>
                (t in callbackMap <==> t in old(callbackMap)) && (t in timers <==> t in old(timers))
      ensures forall t <- callbackMap :: callbackMap[t] == old(callbackMap)[t]
    {
      if taskId !in callbackMap {
        return NO_ITEM;
      }
      item := callbackMap[taskId];
      callbackMap := callbackMap - {taskId};
      timers := timers - {taskId};
    }

    method GetLaunchType(taskId: int) returns (launchType: LaunchType)
      requires Valid()
      ensures launchType == LaunchTypeOf(State(), taskId)
      ensures taskId in callbackMap ==> launchType == callbackMap[taskId].launchType
    {
      if taskId <= 0 || taskId !in callbackMap {
        return FREEINSTALL_START;
      }
      return callbackMap[taskId].launchType;
    }

    method SetContinuationMissionMap(taskId: int, missionId: int)
      requires Valid()
      modifies this`continuationMissionMap
      ensures Valid()
      ensures continuationMissionMap ==
              if taskId > 0 && missionId > 0 && taskId !in old(continuationMissionMap)
              then old(continuationMissionMap)[taskId := missionId] else old(continuationMissionMap)
    {
      if taskId <= 0 || missionId <= 0 || taskId in continuationMissionMap {
        return;
      }
      continuationMissionMap := continuationMissionMap[taskId := missionId];
    }

    method GetContinuaionMissionId(taskId: int) returns (missionId: int)
      ensures missionId == if taskId > 0 && taskId in continuationMissionMap then continuationMissionMap[taskId]
                           else INVALID_PARAMETERS_ERR
    {
      if taskId <= 0 || taskId !in continuationMissionMap {
        return INVALID_PARAMETERS_ERR;
      }
      return continuationMissionMap[taskId];
    }

    /** NotifyFreeInstallResult: a message goes out exactly when the item has a callback. */
    method NotifyFreeInstallResult(item: Item, resultCode: int)
      modifies this`sent
      ensures sent == old(sent) + if item.callback == NULL then [] else [Sent(item.taskId, item.callback, resultCode)]
    {
      if item.callback == NULL {
        return;
      }
      sent := sent + [Sent(item.taskId, item.callback, resultCode)];
    }

    /** One turn of the erase loop of NotifyDeviceOffline. */
    method DropTask(t: int)
      requires Valid() && t in callbackMap
      modifies this`callbackMap, this`timers, this`sent
      ensures Valid() && State() == Without(old(State()), {t})
      ensures multiset(sent) == multiset(old(sent)) + OfflineMessage(old(callbackMap)[t])
    {
      timers := timers - {callbackMap[t].taskId};
      NotifyFreeInstallResult(callbackMap[t], DEVICE_OFFLINE_ERR);
      callbackMap := callbackMap - {t};
    }

    method NotifyDeviceOffline(deviceId: DeviceId)
      requires Valid()
      modifies this`callbackMap, this`timers, this`sent
      ensures Valid() && State() == Offline(old(State()), deviceId)
      ensures multiset(sent) == multiset(old(sent)) + multiset(OfflineMessages(old(State()), deviceId))
      ensures forall t :: && (t in callbackMap <==> t in old(callbackMap) && old(callbackMap)[t].deviceId != deviceId)
                          && (t in callbackMap ==> callbackMap[t] == old(callbackMap)[t])
      ensures forall t :: t in timers <==>
                t in old(timers) && !(t in old(callbackMap) && old(callbackMap)[t].deviceId == deviceId)
      ensures forall t, callback, code ::
                multiset(sent)[Sent(t, callback, code)] == multiset(old(sent))[Sent(t, callback, code)] +
                if t in old(callbackMap) && old(callbackMap)[t].deviceId == deviceId && callback != NULL &&
                   callback == old(callbackMap)[t].callback && code == DEVICE_OFFLINE_ERR then 1 else 0
    {
      ghost var start, done: set<int> := State(), {};
      var todo := callbackMap.Keys;
      while todo != {}
        invariant Valid() && todo <= start.callbackMap.Keys
        invariant forall t :: t in done <==>
                              t in start.callbackMap && t !in todo && start.callbackMap[t].deviceId == deviceId
        invariant State() == Without(start, done)
        invariant multiset(sent) == multiset(old(sent)) + multiset(Messages(start.callbackMap, Told(start, done)))
      {
        var t := Pick(todo);
        if callbackMap[t].deviceId == deviceId {
          DropTask(t);
          MessagesAdd(start, done, t);
          done := done + {t};
        }
        todo := todo - {t};
      }
      assert forall t :: t in done <==> t in WaitingFor(start, deviceId);
      OfflineExact(start, deviceId);
    }
  }

  function OfflineMessage(item: Item): multiset<Sent>
  {
    if item.callback == NULL then multiset{} else multiset{Sent(item.taskId, item.callback, DEVICE_OFFLINE_ERR)}
  }

  /** The offline messages of a set of tasks. */
  function Messages(tasks: map<int, Item>, ids: set<int>): set<Sent>
  {
    set t | t in ids && t in tasks :: Sent(tasks[t].taskId, tasks[t].callback, DEVICE_OFFLINE_ERR)
  }

  /** One message for each task of the device that has a callback. */
  function OfflineMessages(tasks: Tasks, d: DeviceId): set<Sent>
  {
    Messages(tasks.callbackMap, Told(tasks, WaitingFor(tasks, d)))
  }

  /** A lost device takes away its own tasks, and each callback among them gets one message. */
  lemma OfflineExact(tasks: Tasks, d: DeviceId)
    requires forall t <- tasks.callbackMap :: tasks.callbackMap[t].taskId == t
    ensures forall t :: t in Offline(tasks, d).callbackMap <==> t in tasks.callbackMap && tasks.callbackMap[t].deviceId != d
    ensures forall t, callback, code ::
              Sent(t, callback, code) in OfflineMessages(tasks, d) <==>
              t in tasks.callbackMap && tasks.callbackMap[t].deviceId == d && callback != NULL &&
              callback == tasks.callbackMap[t].callback && code == DEVICE_OFFLINE_ERR
  {
    forall t, callback, code
      ensures Sent(t, callback, code) in OfflineMessages(tasks, d) <==>
              t in tasks.callbackMap && tasks.callbackMap[t].deviceId == d && callback != NULL &&
              callback == tasks.callbackMap[t].callback && code == DEVICE_OFFLINE_ERR
    {
      if t in tasks.callbackMap && tasks.callbackMap[t].deviceId == d && tasks.callbackMap[t].callback != NULL {
        assert t in Told(tasks, WaitingFor(tasks, d));
      }
    }
  }

  lemma MessagesAdd(tasks: Tasks, ids: set<int>, t: int)
    requires t in tasks.callbackMap && t !in ids && forall x <- tasks.callbackMap :: tasks.callbackMap[x].taskId == x
    ensures multiset(Messages(tasks.callbackMap, Told(tasks, ids + {t}))) ==
            multiset(Messages(tasks.callbackMap, Told(tasks, ids))) + OfflineMessage(tasks.callbackMap[t])
  {
    var m, told := tasks.callbackMap, Told(tasks, ids);
    if m[t].callback == NULL {
      assert Told(tasks, ids + {t}) == told;
    } else {
      assert Told(tasks, ids + {t}) == told + {t};
      assert Messages(m, told + {t}) == Messages(m, told) + {Sent(t, m[t].callback, DEVICE_OFFLINE_ERR)};
    }
  }
}

/** Free-install calls, results, timeouts and offline notices running side by side. */
module FreeInstall {
  import opened Common
  import opened Tallies
  import opened CallbackTasks

  /** Where a thread of the service stands between two critical sections. */
  datatype Thread =
    | Starting(item: Item)
    | Started(taskId: int)
    | Notifying(taskId: int, fired: bool)
    | Typed(taskId: int, fired: bool, launchType: LaunchType)
    | Delivering(item: Item)

  /** kind records the tasks pushed so far; told counts the messages sent per task. */
  datatype State = State(generated: nat, tasks: Tasks, threads: map<nat, Thread>,
                         kind: map<int, LaunchType>, told: multiset<int>)

  datatype Step =
    | Generate(th: nat, callback: Remote, launchType: LaunchType, deviceId: DeviceId)
    | PushTask(th: nat)
    | LeaveWaiting(th: nat)
    | FailStart(th: nat)
    | Arrive(th: nat, taskId: int)
    | Fire(th: nat, taskId: int)
    | ReadType(th: nat)
    | PopTask(th: nat)
    | Deliver(th: nat)
    | DeviceOffline(d: DeviceId)

  predicate Enabled(s: State, step: Step)
  {
    match step
    case Generate(th, _, _, _) => th !in s.threads && s.generated < INT64_MAX
    case PushTask(th) => th in s.threads && s.threads[th].Starting?
    case LeaveWaiting(th) => th in s.threads && s.threads[th].Started?
    case FailStart(th) => th in s.threads && s.threads[th].Started?
    case Arrive(th, _) => th !in s.threads
    case Fire(th, taskId) => th !in s.threads && taskId in s.tasks.timers
    case ReadType(th) => th in s.threads && s.threads[th].Notifying?
    case PopTask(th) => th in s.threads && s.threads[th].Typed?
    case Deliver(th) => th in s.threads && s.threads[th].Delivering?
    case DeviceOffline(_) => true
  }

  function Next(s: State, step: Step): State
    requires Enabled(s, step)
  {
    match step
    case Generate(th, callback, launchType, deviceId) =>
      s.(generated := s.generated + 1,
         threads := s.threads[th := Starting(Item(callback, IdAt(s.generated), launchType, deviceId))])
    case PushTask(th) =>
      var item := s.threads[th].item;
      if CanPush(s.tasks, item.taskId, item.callback, item.launchType) then
        s.(tasks := Push(s.tasks, item), threads := s.threads[th := Started(item.taskId)],
           kind := s.kind[item.taskId := item.launchType])
      else s.(threads := s.threads - {th})
    case LeaveWaiting(th) =>
      // the remote side accepted, or the caller's account could not be read: the task stays
      s.(threads := s.threads - {th})
    case FailStart(th) =>
      var t := s.threads[th].taskId;
      s.(tasks := Pop(s.tasks, t), threads := s.threads[th := Delivering(Popped(s.tasks, t))])
    case Arrive(th, taskId) =>
      s.(threads := s.threads[th := Notifying(taskId, false)])
    case Fire(th, taskId) =>
      s.(tasks := s.tasks.(timers := s.tasks.timers - {taskId}),
         threads := if taskId <= 0 then s.threads else s.threads[th := Notifying(taskId, true)])
    case ReadType(th) =>
      var Notifying(t, fired) := s.threads[th];
      s.(threads := s.threads[th := Typed(t, fired, LaunchTypeOf(s.tasks, t))])
    case PopTask(th) =>
      var Typed(t, fired, launchType) := s.threads[th];
      s.(tasks := Pop(s.tasks, t),
         threads := if launchType == FREEINSTALL_START then s.threads[th := Delivering(Popped(s.tasks, t))]
                    else s.threads - {th})
    case Deliver(th) =>
      var item := s.threads[th].item;
      s.(threads := s.threads - {th},
         told := if item.callback == NULL then s.told else s.told + multiset{item.taskId})
    case DeviceOffline(d) =>
      s.(tasks := Offline(s.tasks, d), told := s.told + multiset(Told(s.tasks, WaitingFor(s.tasks, d))))
  }

  function Holding(thread: Thread): int
  {
    if thread.Delivering? then thread.item.taskId else 0
  }

  /** How many threads are about to deliver task t. */
  function Held(s: State, t: int): nat
  {
    Tally(s.threads, Holding, t)
  }

  predicate Handles(thread: Thread, t: int)
  {
    (thread.Notifying? || thread.Typed?) && thread.taskId == t && thread.fired
  }

  /** A timeout of task t has fired and its handler has not popped the task yet. */
  ghost predicate Fired(s: State, t: int)
  {
    exists th :: th in s.threads && Handles(s.threads[th], t)
  }

  function Waiting(s: State, t: int): nat
  {
    if t in s.tasks.callbackMap then 1 else 0
  }

  /** Every pushed start task is waiting, or in the hands of one thread about to deliver it, or has been delivered once. */
  ghost predicate Conserved(s: State)
  {
    forall t <- s.kind :: s.kind[t] == FREEINSTALL_START ==> Waiting(s, t) + Held(s, t) + s.told[t] == 1
  }

  /** Every waiting task still has its timeout, or the handler of that timeout is on its way. */
  ghost predicate Covered(s: State)
  {
    forall t <- s.tasks.callbackMap :: t in s.tasks.timers || Fired(s, t)
  }

  ghost predicate ThreadOk(s: State, thread: Thread)
  {
    match thread
    case Starting(item) => 0 < item.taskId <= s.generated && item.taskId !in s.kind
    case Typed(t, _, launchType) => launchType == FREEINSTALL_CONTINUE ==> t in s.kind && s.kind[t] == FREEINSTALL_CONTINUE
    case Delivering(item) =>
      item == NO_ITEM || (item.taskId in s.kind && s.kind[item.taskId] == item.launchType &&
                          (item.launchType == FREEINSTALL_START ==> item.callback != NULL))
    case _ => true
  }

  ghost predicate ItemsOk(s: State)
  {
    forall t <- s.tasks.callbackMap ::
      var item := s.tasks.callbackMap[t];
      && item.taskId == t && t in s.kind && s.kind[t] == item.launchType
      && (item.launchType == FREEINSTALL_START ==> item.callback != NULL)
  }

  ghost predicate ThreadsOk(s: State)
  {
    && (forall th <- s.threads :: ThreadOk(s, s.threads[th]))
    && (forall a, b :: a in s.threads && b in s.threads && a != b && s.threads[a].Starting? && s.threads[b].Starting? ==>
          s.threads[a].item.taskId != s.threads[b].item.taskId)
  }

  /** Only pushed tasks were delivered or are in delivery. */
  ghost predicate NoStrangers(s: State)
  {
    forall t :: t > 0 && (t in s.told || Held(s, t) > 0) ==> t in s.kind
  }

  ghost predicate Shape(s: State)
  {
    && s.generated <= INT64_MAX && (forall t <- s.kind :: 0 < t <= s.generated)
    && ItemsOk(s) && ThreadsOk(s) && NoStrangers(s)
  }

  ghost predicate Inv(s: State)
  {
    Shape(s) && Conserved(s) && Covered(s)
  }

  /** The tally of deliveries in progress after one thread changed. */
  lemma Rehold(before: map<nat, Thread>, th: nat, thread: Thread, t: int)
    ensures Tally(before[th := thread], Holding, t) ==
            Tally(before, Holding, t) - (if th in before && Holding(before[th]) == t then 1 else 0)
            + if Holding(thread) == t then 1 else 0
  {
    if th in before {
      TallyRemove(before, Holding, th, t);
      TallyInsert(before - {th}, Holding, th, thread, t);
      assert (before - {th})[th := thread] == before[th := thread];
    } else {
      TallyInsert(before, Holding, th, thread, t);
    }
  }

  /** Steps that change no waiting task and deliver nothing. */
  predicate Quiet(step: Step)
  {
    step.Generate? || step.LeaveWaiting? || step.Arrive? || step.ReadType?
  }

  lemma QuietHeld(s: State, step: Step, t: int)
    requires Enabled(s, step) && (Quiet(step) || step.PushTask?) && t > 0
    ensures Held(Next(s, step), t) == Held(s, t)
  {
    var s' := Next(s, step);
    if step.th in s'.threads {
      Rehold(s.threads, step.th, s'.threads[step.th], t);
    } else {
      TallyRemove(s.threads, Holding, step.th, t);
    }
  }

  lemma QuietThreads(s: State, step: Step)
    requires Shape(s) && Enabled(s, step) && (Quiet(step) || step.PushTask?)
    ensures ThreadsOk(Next(s, step))
  {
    hide NoStrangers;
    var s' := Next(s, step);
    IdAtIs(s.generated);
    forall th <- s'.threads ensures ThreadOk(s', s'.threads[th]) {
      if th != step.th {
        assert ThreadOk(s, s.threads[th]);
      }
    }
  }

  lemma QuietShape(s: State, step: Step)
    requires Shape(s) && Enabled(s, step) && (Quiet(step) || step.PushTask?)
    ensures Shape(Next(s, step))
  {
    QuietThreads(s, step);
    assert step.PushTask? ==> ThreadOk(s, s.threads[step.th]);
    hide Held, ThreadsOk, ThreadOk;
    var s' := Next(s, step);
    assert ItemsOk(s') by { hide NoStrangers; }
    assert NoStrangers(s') by {
      hide ItemsOk;
      forall t | t > 0 ensures Held(s', t) == Held(s, t) { QuietHeld(s, step, t); }
    }
  }

  lemma QuietKeeps(s: State, step: Step)
    requires Inv(s) && Enabled(s, step) && Quiet(step)
    ensures Inv(Next(s, step))
  {
    QuietShape(s, step);
    hide Held;
    var s' := Next(s, step);
    forall t | t > 0 ensures Held(s', t) == Held(s, t) { QuietHeld(s, step, t); }
    forall t | Fired(s, t) ensures Fired(s', t) {
      var th :| th in s.threads && Handles(s.threads[th], t);
      assert th in s'.threads && Handles(s'.threads[th], t);
    }
  }

  lemma PushKeeps(s: State, step: Step)
    requires Inv(s) && Enabled(s, step) && step.PushTask?
    ensures Inv(Next(s, step))
  {
    hide Held;
    var s' := Next(s, step);
    QuietShape(s, step);
    forall t | t > 0 ensures Held(s', t) == Held(s, t) { QuietHeld(s, step, t); }
    FiredStays(s, s', {step.th});
    var item := s.threads[step.th].item;
    assert item.taskId > 0 && item.taskId !in s.kind && s.told[item.taskId] == 0 && Held(s, item.taskId) == 0;
  }

  /** Threads other than the given ones keep a fired timeout on its way. */
  lemma FiredStays(s: State, s': State, changed: set<nat>)
    requires forall th <- s.threads :: th !in changed ==> th in s'.threads && s'.threads[th] == s.threads[th]
    requires forall th <- changed :: th in s.threads ==> !s.threads[th].Notifying? && !s.threads[th].Typed?
    ensures forall t :: Fired(s, t) ==> Fired(s', t)
  {
  }

  lemma FailHeld(s: State, step: Step, t: int)
    requires Enabled(s, step) && step.FailStart? && t > 0
    ensures Held(Next(s, step), t) == Held(s, t) + if Popped(s.tasks, s.threads[step.th].taskId).taskId == t then 1 else 0
  {
    Rehold(s.threads, step.th, Next(s, step).threads[step.th], t);
  }

  lemma FailShape(s: State, step: Step)
    requires Shape(s) && Enabled(s, step) && step.FailStart?
    ensures Shape(Next(s, step))
  {
    hide Held;
    forall t | t > 0
      ensures Held(Next(s, step), t) ==
              Held(s, t) + if Popped(s.tasks, s.threads[step.th].taskId).taskId == t then 1 else 0 {
      FailHeld(s, step, t);
    }
  }

  lemma FailKeeps(s: State, step: Step)
    requires Inv(s) && Enabled(s, step) && step.FailStart?
    ensures Inv(Next(s, step))
  {
    hide Held;
    var s' := Next(s, step);
    FailShape(s, step);
    forall t <- s'.kind | s'.kind[t] == FREEINSTALL_START ensures Waiting(s', t) + Held(s', t) + s'.told[t] == 1 {
      FailHeld(s, step, t);
    }
    FiredStays(s, s', {step.th});
  }

  lemma FireHeld(s: State, step: Step, t: int)
    requires Enabled(s, step) && step.Fire? && t > 0
    ensures Held(Next(s, step), t) == Held(s, t)
  {
    if step.taskId > 0 {
      Rehold(s.threads, step.th, Notifying(step.taskId, true), t);
    }
  }

  lemma FireShape(s: State, step: Step)
    requires Shape(s) && Enabled(s, step) && step.Fire?
    ensures Shape(Next(s, step))
  {
    hide Held;
    forall t | t > 0 ensures Held(Next(s, step), t) == Held(s, t) { FireHeld(s, step, t); }
  }

  lemma FireKeeps(s: State, step: Step)
    requires Inv(s) && Enabled(s, step) && step.Fire?
    ensures Inv(Next(s, step))
  {
    hide Held;
    var s' := Next(s, step);
    FireShape(s, step);
    forall t <- s'.kind ensures Held(s', t) == Held(s, t) { FireHeld(s, step, t); }
    FiredStays(s, s', {step.th});
    if step.taskId > 0 {
      assert Handles(s'.threads[step.th], step.taskId) && Fired(s', step.taskId);
    }
  }

  lemma PopHeld(s: State, step: Step, t: int)
    requires Enabled(s, step) && step.PopTask? && t > 0
    ensures var s' := Next(s, step);
            Held(s', t) == Held(s, t) + if step.th in s'.threads && s'.threads[step.th].item.taskId == t then 1 else 0
  {
    var s' := Next(s, step);
    if step.th in s'.threads {
      Rehold(s.threads, step.th, s'.threads[step.th], t);
    } else {
      TallyRemove(s.threads, Holding, step.th, t);
    }
  }

  lemma PopShape(s: State, step: Step)
    requires Shape(s) && Enabled(s, step) && step.PopTask?
    ensures Shape(Next(s, step))
  {
    hide Held;
    var s' := Next(s, step);
    forall t | t > 0
      ensures Held(s', t) ==
              Held(s, t) + if step.th in s'.threads && s'.threads[step.th].item.taskId == t then 1 else 0 {
      PopHeld(s, step, t);
    }
  }

  lemma PopKeeps(s: State, step: Step)
    requires Inv(s) && Enabled(s, step) && step.PopTask?
    ensures Inv(Next(s, step))
  {
    hide Held;
    var s' := Next(s, step);
    PopShape(s, step);
    forall t <- s'.kind | s'.kind[t] == FREEINSTALL_START ensures Waiting(s', t) + Held(s', t) + s'.told[t] == 1 {
      PopHeld(s, step, t);
    }
    forall t <- s'.tasks.callbackMap ensures t in s'.tasks.timers || Fired(s', t) {
      if t !in s.tasks.timers {
        var th :| th in s.threads && Handles(s.threads[th], t);
        assert th in s'.threads && Handles(s'.threads[th], t);
      }
    }
  }

  lemma DeliverHeld(s: State, step: Step, t: int)
    requires Enabled(s, step) && step.Deliver?
    ensures t > 0 ==> Held(Next(s, step), t) == Held(s, t) - if s.threads[step.th].item.taskId == t then 1 else 0
  {
    TallyRemove(s.threads, Holding, step.th, t);
  }

  lemma DeliverKeeps(s: State, step: Step)
    requires Inv(s) && Enabled(s, step) && step.Deliver?
    ensures Inv(Next(s, step))
  {
    hide Held;
    var s' := Next(s, step);
    assert ThreadOk(s, s.threads[step.th]);
    forall t | t > 0 ensures Held(s', t) == Held(s, t) - if s.threads[step.th].item.taskId == t then 1 else 0 {
      DeliverHeld(s, step, t);
    }
    FiredStays(s, s', {step.th});
  }

  lemma OfflineKeeps(s: State, step: Step)
    requires Inv(s) && Enabled(s, step) && step.DeviceOffline?
    ensures Inv(Next(s, step))
  {
    FiredStays(s, Next(s, step), {});
  }

  /** The states of a run from an idle service. */
  ghost predicate Run(states: seq<State>, steps: seq<Step>)
  {
    && |states| == |steps| + 1 && states[0] == State(0, Tasks(map[], {}), map[], map[], multiset{})
    && forall i :: 0 <= i < |steps| ==> Enabled(states[i], steps[i]) && states[i + 1] == Next(states[i], steps[i])
  }

  /** Over every run and interleaving: each pushed start task is waiting under a timeout, being delivered, or was
      delivered exactly once. */
  lemma {:induction false} AlwaysConserved(states: seq<State>, steps: seq<Step>, i: nat)
    requires Run(states, steps) && i < |states|
    ensures Inv(states[i])
  {
    if i > 0 {
      AlwaysConserved(states, steps, i - 1);
      var s, step := states[i - 1], steps[i - 1];
      match step {
        case PushTask(_) => PushKeeps(s, step);
        case FailStart(_) => FailKeeps(s, step);
        case Fire(_, _) => FireKeeps(s, step);
        case PopTask(_) => PopKeeps(s, step);
        case Deliver(_) => DeliverKeeps(s, step);
        case DeviceOffline(_) => OfflineKeeps(s, step);
        case _ => QuietKeeps(s, step);
      }
    }
  }

  function After(s: State, step: Step): State
  {
    if Enabled(s, step) then Next(s, step) else s
  }

  /** No task is stuck: letting the pending timeout of a waiting start task run to its end delivers the task. */
  lemma TimeoutDelivers(s: State, th: nat, t: int)
    requires Inv(s) && th !in s.threads && t in s.tasks.callbackMap && t in s.tasks.timers
    requires s.kind[t] == FREEINSTALL_START
    ensures s.told[t] == 0
    ensures After(After(After(After(s, Fire(th, t)), ReadType(th)), PopTask(th)), Deliver(th)).told[t] == 1
  {
    var s1 := After(s, Fire(th, t));
    var s2 := After(s1, ReadType(th));
    var s3 := After(s2, PopTask(th));
    assert s1.threads[th] == Notifying(t, true) && s2.threads[th] == Typed(t, true, FREEINSTALL_START);
    assert s3.threads[th] == Delivering(s.tasks.callbackMap[t]) && s3.told == s.told;
  }

  // ----- what was asked for -----

  /** What StartRemoteFreeInstall was called with. */
  datatype Request = Request(callback: Remote, launchType: LaunchType, deviceId: DeviceId)

  /** The requests of a run: request k got task id k + 1. */
  function Requests(steps: seq<Step>): seq<Request>
  {
    if steps == [] then [] else
    var before := Requests(steps[..|steps| - 1]);
    match steps[|steps| - 1]
    case Generate(_, callback, launchType, deviceId) => before + [Request(callback, launchType, deviceId)]
    case _ => before
  }

  predicate IsFor(item: Item, requests: seq<Request>)
  {
    && 0 < item.taskId <= |requests|
    && var r := requests[item.taskId - 1];
       item.callback == r.callback && item.launchType == r.launchType && item.deviceId == r.deviceId
  }

  predicate ThreadIsFor(thread: Thread, requests: seq<Request>)
  {
    match thread
    case Starting(item) => IsFor(item, requests)
    case Delivering(item) => item == NO_ITEM || IsFor(item, requests)
    case _ => true
  }

  /** Every task that is starting, waiting or in delivery is the one that was asked for under its id. */
  ghost predicate AsAsked(s: State, requests: seq<Request>)
  {
    && |requests| == s.generated
    && (forall th <- s.threads :: ThreadIsFor(s.threads[th], requests))
    && (forall t <- s.tasks.callbackMap :: s.tasks.callbackMap[t].taskId == t && IsFor(s.tasks.callbackMap[t], requests))
  }

  lemma AskedStep(s: State, requests: seq<Request>, step: Step, more: seq<Request>)
    requires AsAsked(s, requests) && Enabled(s, step)
    requires more == match step
                     case Generate(_, callback, launchType, deviceId) => requests + [Request(callback, launchType, deviceId)]
                     case _ => requests
    ensures AsAsked(Next(s, step), more)
  {
    if step.Generate? {
      IdAtIs(s.generated);
    }
  }

  lemma {:induction false} AlwaysAsAsked(states: seq<State>, steps: seq<Step>, i: nat)
    requires Run(states, steps) && i < |states|
    ensures AsAsked(states[i], Requests(steps[..i]))
  {
    hide Enabled, Next, AsAsked;
    if i == 0 {
      AskedStart();
    } else {
      AlwaysAsAsked(states, steps, i - 1);
      assert steps[..i][..i - 1] == steps[..i - 1];
      AskedStep(states[i - 1], Requests(steps[..i - 1]), steps[i - 1], Requests(steps[..i]));
    }
  }

  lemma AskedStart()
    ensures AsAsked(State(0, Tasks(map[], {}), map[], map[], multiset{}), [])
  {
  }

  /** In every run: the loss of a device ends exactly the waiting tasks that were asked for on that device, and tells each
      of them that has a callback once. */
  lemma OfflineEndsExactly(states: seq<State>, steps: seq<Step>, i: nat, d: DeviceId, t: int)
    requires Run(states, steps) && i < |steps| && steps[i] == DeviceOffline(d)
    ensures var waiting, requests := states[i].tasks.callbackMap, Requests(steps[..i]);
            && (t in waiting ==> 0 < t <= |requests|)
            && (t in states[i + 1].tasks.callbackMap <==> t in waiting && requests[t - 1].deviceId != d)
            && states[i + 1].told[t] == states[i].told[t] +
               if t in waiting && requests[t - 1].deviceId == d && requests[t - 1].callback != NULL then 1 else 0
  {
    AlwaysAsAsked(states, steps, i);
  }

  /** In every run: a push is accepted exactly for a continuation, or for a start with a callback. */
  lemma PushAcceptedExactly(states: seq<State>, steps: seq<Step>, i: nat, th: nat)
    requires Run(states, steps) && i < |steps| && steps[i] == PushTask(th)
    ensures Enabled(states[i], PushTask(th))
    ensures var item := states[i].threads[th].item;
            item.taskId in states[i + 1].tasks.callbackMap <==>
            item.launchType == FREEINSTALL_CONTINUE || item.callback != NULL
  {
    AlwaysConserved(states, steps, i);
    var s := states[i];
    assert ThreadOk(s, s.threads[th]);
  }

  /** In every run: what a thread delivers under a task id goes to the callback that asked under this id. */
  lemma DeliversToAsker(states: seq<State>, steps: seq<Step>, i: nat, th: nat)
    requires Run(states, steps) && i < |steps| && steps[i] == Deliver(th)
    ensures Enabled(states[i], Deliver(th))
    ensures var item, requests := states[i].threads[th].item, Requests(steps[..i]);
            item == NO_ITEM || (0 < item.taskId <= |requests| && item.callback == requests[item.taskId - 1].callback)
  {
    AlwaysAsAsked(states, steps, i);
    assert ThreadIsFor(states[i].threads[th], Requests(steps[..i]));
  }
}
