/** The set of devices subscribed to local mission changes, and the queue of tasks that register and unregister the
    change listener. A start call inserts its device and posts its task in two steps, so other calls run in between. */
module MissionSync {
  import opened Common

  datatype Task = Register | Unregister

  /** `starting` holds the devices of start calls that have inserted but not posted; `late` is how many start calls
      were in that position when a stop call last left the set empty. */
  datatype State = State(devices: set<DeviceId>, registered: bool, queue: seq<Task>, starting: multiset<DeviceId>, late: nat)

  const IDLE: State := State({}, false, [], multiset{}, 0)

  datatype Step = Insert(d: DeviceId) | Post(d: DeviceId) | Stop(d: DeviceId) | Run

  function Inserted(s: State, d: DeviceId): State
  {
    s.(devices := s.devices + {d}, starting := s.starting + multiset{d})
  }

  function Posted(s: State, d: DeviceId): State
    requires d in s.starting
  {
    s.(queue := s.queue + [Register], starting := s.starting - multiset{d})
  }

  function Stopped(s: State, d: DeviceId): State
  {
    var rest := s.devices - {d};
    if rest == {} then s.(devices := {}, queue := s.queue + [Unregister], late := |s.starting|)
    else s.(devices := rest)
  }

  function Ran(s: State): State
    requires s.queue != []
  {
    s.(registered := s.queue[0] == Register, queue := s.queue[1..])
  }

  predicate Enabled(s: State, step: Step)
  {
    match step
    case Post(d) => d in s.starting
    case Run => s.queue != []
    case _ => true
  }

  function Next(s: State, step: Step): State
    requires Enabled(s, step)
  {
    match step
    case Insert(d) => Inserted(s, d)
    case Post(d) => Posted(s, d)
    case Stop(d) => Stopped(s, d)
    case Run => Ran(s)
  }

  /** The state in which the posted tasks have run, one by one in their order. */
  function Drained(s: State): State
    decreases |s.queue|
  {
    if s.queue == [] then s else Drained(Ran(s))
  }

  /** What the queue settles on: the kind of the last posted task. */
  predicate Settles(s: State)
  {
    if s.queue == [] then s.registered else s.queue[|s.queue| - 1] == Register
  }

  lemma {:induction false} DrainSettles(s: State)
    ensures Drained(s) == s.(registered := Settles(s), queue := [])
    decreases |s.queue|
  {
    if s.queue != [] {
      DrainSettles(Ran(s));
    }
  }

  /** While a device is subscribed, either the tasks end registered or a start call has still to post. With no device
      subscribed, they end registered exactly if a start call that the last stop overlapped has posted since. */
  ghost predicate Inv(s: State)
  {
    && (s.devices != {} ==> Settles(s) || s.starting != multiset{})
    && (s.devices == {} ==> |s.starting| <= s.late && (Settles(s) <==> |s.starting| < s.late))
  }

  lemma StepKeeps(s: State, step: Step)
    requires Inv(s) && Enabled(s, step)
    ensures Inv(Next(s, step))
  {
    if step.Post? {
      assert |s.starting - multiset{step.d}| == |s.starting| - 1;
    }
  }

  ghost predicate IsRun(states: seq<State>, steps: seq<Step>)
  {
    && |states| == |steps| + 1 && states[0] == IDLE
    && forall i :: 0 <= i < |steps| ==> Enabled(states[i], steps[i]) && states[i + 1] == Next(states[i], steps[i])
  }

  lemma {:induction false} RunKeeps(states: seq<State>, steps: seq<Step>, i: nat)
    requires IsRun(states, steps) && i < |states|
    ensures Inv(states[i])
  {
    if i > 0 {
      RunKeeps(states, steps, i - 1);
      StepKeeps(states[i - 1], steps[i - 1]);
    }
  }

  // ----- what the history of calls says -----

  /** The last call about the device was a start. */
  predicate Subscribed(steps: seq<Step>, d: DeviceId)
  {
    if steps == [] then false else
    match steps[|steps| - 1]
    case Insert(x) => x == d || Subscribed(steps[..|steps| - 1], d)
    case Stop(x) => x != d && Subscribed(steps[..|steps| - 1], d)
    case _ => Subscribed(steps[..|steps| - 1], d)
  }

  ghost predicate Anyone(steps: seq<Step>)
  {
    exists d :: Subscribed(steps, d)
  }

  /** The start calls that have inserted their device and not posted their task. */
  function InProgress(steps: seq<Step>): int
  {
    if steps == [] then 0 else
    InProgress(steps[..|steps| - 1]) + match steps[|steps| - 1]
                                       case Insert(_) => 1
                                       case Post(_) => -1
                                       case _ => 0
  }

  /** The start calls in progress when a stop call last left no device subscribed. */
  ghost function Overlapped(steps: seq<Step>): int
  {
    if steps == [] then 0
    else if steps[|steps| - 1].Stop? && !Anyone(steps) then InProgress(steps)
    else Overlapped(steps[..|steps| - 1])
  }

  /** The state is what the history says. */
  ghost predicate Reflects(s: State, steps: seq<Step>)
  {
    && (forall d :: d in s.devices <==> Subscribed(steps, d))
    && |s.starting| == InProgress(steps) && s.late == Overlapped(steps)
  }

  lemma ReflectsStep(s: State, steps: seq<Step>, step: Step)
    requires Reflects(s, steps) && Enabled(s, step)
    ensures Reflects(Next(s, step), steps + [step])
  {
    var s', more := Next(s, step), steps + [step];
    assert more[..|steps|] == steps;
    assert step.Post? ==> |s.starting - multiset{step.d}| == |s.starting| - 1;
    forall d ensures d in s'.devices <==> Subscribed(more, d) {
    }
    AnyoneIs(s', more);
  }

  lemma AnyoneIs(s: State, steps: seq<Step>)
    requires forall d :: d in s.devices <==> Subscribed(steps, d)
    ensures Anyone(steps) <==> s.devices != {}
  {
    if s.devices != {} {
      var d :| d in s.devices;
      assert Subscribed(steps, d);
    }
  }

  /** In every state of every interleaving, the set holds exactly the devices whose last call was a start. */
  lemma {:induction false} HoldsTheSubscribed(states: seq<State>, steps: seq<Step>, i: nat)
    requires IsRun(states, steps) && i < |states|
    ensures Reflects(states[i], steps[..i]) && (Anyone(steps[..i]) <==> states[i].devices != {})
  {
    hide Next, Enabled, Reflects;
    if i == 0 {
      assert Reflects(IDLE, []) by { IdleReflects(); }
    } else {
      HoldsTheSubscribed(states, steps, i - 1);
      ReflectsStep(states[i - 1], steps[..i - 1], steps[i - 1]);
      assert steps[..i - 1] + [steps[i - 1]] == steps[..i];
    }
    ReflectsAnyone(states[i], steps[..i]);
  }

  lemma IdleReflects()
    ensures Reflects(IDLE, [])
  {
  }

  lemma ReflectsAnyone(s: State, steps: seq<Step>)
    requires Reflects(s, steps)
    ensures Anyone(steps) <==> s.devices != {}
  {
    AnyoneIs(s, steps);
  }

  /** In every state of every interleaving: if some device's last call was a start, the listener is registered once the
      posted tasks have run, unless a start call has inserted its device and not posted yet. */
  lemma SubscribedIsServed(states: seq<State>, steps: seq<Step>, i: nat)
    requires IsRun(states, steps) && i < |states| && Anyone(steps[..i])
    ensures Drained(states[i]).registered || InProgress(steps[..i]) > 0
  {
    HoldsTheSubscribed(states, steps, i);
    RunKeeps(states, steps, i);
    DrainSettles(states[i]);
  }

  /** With no call in progress, the listener ends registered exactly when a device is subscribed, if and only if a device
      is subscribed or the stop call that left none overlapped no start call. */
  lemma QuietMeansExact(states: seq<State>, steps: seq<Step>, i: nat)
    requires IsRun(states, steps) && i < |states| && InProgress(steps[..i]) == 0
    ensures (Drained(states[i]).registered <==> Anyone(steps[..i]))
            <==> (Anyone(steps[..i]) || Overlapped(steps[..i]) == 0)
  {
    HoldsTheSubscribed(states, steps, i);
    RunKeeps(states, steps, i);
    DrainSettles(states[i]);
  }

  /** Stop calls never come between the insert and the post of a start call. */
  ghost predicate Separate(states: seq<State>, steps: seq<Step>)
    requires |states| > |steps|
  {
    forall i :: 0 <= i < |steps| && steps[i].Stop? ==> states[i].starting == multiset{}
  }

  lemma {:induction false} SeparateNeverLate(states: seq<State>, steps: seq<Step>, i: nat)
    requires IsRun(states, steps) && Separate(states, steps) && i < |states|
    ensures states[i].late == 0
  {
    if i > 0 {
      SeparateNeverLate(states, steps, i - 1);
      assert steps[i - 1].Stop? ==> |states[i - 1].starting| == 0;
    }
  }

  /** Without overlap, the listener ends registered exactly when some device's last call was a start. */
  lemma SeparateMeansExact(states: seq<State>, steps: seq<Step>, i: nat)
    requires IsRun(states, steps) && Separate(states, steps) && i < |states| && InProgress(steps[..i]) == 0
    ensures Drained(states[i]).registered <==> Anyone(steps[..i])
  {
    SeparateNeverLate(states, steps, i);
    HoldsTheSubscribed(states, steps, i);
    QuietMeansExact(states, steps, i);
  }

  /** An overlapping stop leaves the listener registered for nobody. */
  lemma OverlapStaysRegistered(d: DeviceId)
    ensures var s := Posted(Stopped(Inserted(IDLE, d), d), d);
            s.devices == {} && s.starting == multiset{} && Drained(s).registered && s.late == 1
  {
    var s := Posted(Stopped(Inserted(IDLE, d), d), d);
    assert s.queue == [Unregister, Register];
    DrainSettles(s);
  }

  class SyncDevices {
    var remoteSyncDeviceSet: set<DeviceId>
    var isRegMissionChange: bool
    var missionHandler: seq<Task>
    ghost var starting: multiset<DeviceId>
    ghost var late: nat

    ghost function Model(): State
      reads this
    {
      State(remoteSyncDeviceSet, isRegMissionChange, missionHandler, starting, late)
    }

    constructor ()
      ensures Model() == IDLE
    {
      remoteSyncDeviceSet, isRegMissionChange, missionHandler, starting, late := {}, false, [], multiset{}, 0;
    }

    /** The part of StartSyncMissionsFromRemote that runs under remoteSyncDeviceLock_. */
    method EnterDevice(deviceId: DeviceId)
      modifies this`remoteSyncDeviceSet, this`starting
      ensures Model() == Next(old(Model()), Insert(deviceId))
      ensures forall d :: d in remoteSyncDeviceSet <==> d in old(remoteSyncDeviceSet) || d == deviceId
    {
      remoteSyncDeviceSet := remoteSyncDeviceSet + {deviceId};
      starting := starting + multiset{deviceId};
    }

    /** The rest of StartSyncMissionsFromRemote. */
    method PostRegister(deviceId: DeviceId)
      requires Enabled(Model(), Post(deviceId))
      modifies this`missionHandler, this`starting
      ensures Model() == Next(old(Model()), Post(deviceId))
      ensures missionHandler == old(missionHandler) + [Register]
    {
      missionHandler := missionHandler + [Register];
      starting := starting - multiset{deviceId};
    }

    method StopSyncMissionsFromRemote(deviceId: DeviceId)
      modifies this
      ensures Model() == Next(old(Model()), Stop(deviceId))
      ensures forall d :: d in remoteSyncDeviceSet <==> d in old(remoteSyncDeviceSet) && d != deviceId
      ensures missionHandler == old(missionHandler) + if remoteSyncDeviceSet == {} then [Unregister] else []
    {
      remoteSyncDeviceSet := remoteSyncDeviceSet - {deviceId};
      if remoteSyncDeviceSet == {} {
        missionHandler := missionHandler + [Unregister];
        late := |starting|;
      }
    }

    /** The handler takes the first task; `asked` tells whether the ability manager was called. */
    method RunTask() returns (asked: bool)
      requires Enabled(Model(), Run)
      modifies this`missionHandler, this`isRegMissionChange
      ensures Model() == Next(old(Model()), Run)
      ensures isRegMissionChange <==> old(missionHandler)[0] == Register
      ensures missionHandler == old(missionHandler)[1..]
      ensures asked <==> !(old(missionHandler)[0] == Register && old(isRegMissionChange))
    {
      var task := missionHandler[0];
      missionHandler := missionHandler[1..];
      asked := true;
      match task
      case Register =>
        if isRegMissionChange {
          asked := false;
        } else {
          isRegMissionChange := true;
        }
      case Unregister =>
        isRegMissionChange := false;
    }

    method needSyncDevice(deviceId: DeviceId) returns (needed: bool)
      ensures needed <==> deviceId in remoteSyncDeviceSet
    {
      return deviceId in remoteSyncDeviceSet;
    }
  }
}
