/** The listeners for missions of remote devices, and the subscription to each such device. */
module ListenerMap {
  import opened Common

  datatype ListenerInfo = ListenerInfo(called: bool, listenerSet: set<Remote>)

  type ListenDevices = map<DeviceId, ListenerInfo>

  predicate Registered(m: ListenDevices, d: DeviceId, l: Remote)
  {
    d in m && l in m[d].listenerSet
  }

  predicate Called(m: ListenDevices, d: DeviceId)
  {
    d in m && m[d].called
  }

  /** The two guards of registering and unregistering; `local` is the answer to the lookup of the own device id. */
  predicate Acceptable(d: DeviceId, l: Remote, local: Option<DeviceId>)
  {
    l != NULL && local.Some? && local.value != d
  }

  function Added(m: ListenDevices, d: DeviceId, l: Remote): ListenDevices
  {
    m[d := if d in m then m[d].(listenerSet := m[d].listenerSet + {l}) else ListenerInfo(false, {l})]
  }

  function Removed(m: ListenDevices, d: DeviceId, l: Remote): ListenDevices
  {
    if !Registered(m, d, l) then m else
    var rest := m[d].listenerSet - {l};
    if rest == {} then m - {d} else m[d := m[d].(listenerSet := rest)]
  }

  function Died(m: ListenDevices, l: Remote): ListenDevices
  {
    map d <- m | m[d].listenerSet - {l} != {} :: m[d].(listenerSet := m[d].listenerSet - {l})
  }

  /** The devices whose last listener is l and to which this device is subscribed. */
  function Lost(m: ListenDevices, l: Remote): set<DeviceId>
  {
    set d <- m | m[d].listenerSet == {l} && m[d].called
  }

  function Marked(m: ListenDevices, d: DeviceId): ListenDevices
  {
    if d in m then m[d := m[d].(called := true)] else m
  }

  ghost predicate NoneEmpty(m: ListenDevices)
  {
    forall d <- m :: m[d].listenerSet != {}
  }

  // ----- every run, with the steps of overlapping calls in any order -----

  datatype Step =
    | Register(d: DeviceId, l: Remote, local: Option<DeviceId>)
    | Unregister(d: DeviceId, l: Remote, local: Option<DeviceId>)
    | Mark(d: DeviceId)
    | Die(l: Remote)
    | Offline(d: DeviceId)

  function Next(m: ListenDevices, step: Step): ListenDevices
  {
    match step
    case Register(d, l, local) => if Acceptable(d, l, local) then Added(m, d, l) else m
    case Unregister(d, l, local) => if Acceptable(d, l, local) then Removed(m, d, l) else m
    case Mark(d) => Marked(m, d)
    case Die(l) => Died(m, l)
    case Offline(d) => m - {d}
  }

  function After(steps: seq<Step>): ListenDevices
  {
    if steps == [] then map[] else Next(After(steps[..|steps| - 1]), steps[|steps| - 1])
  }

  /** Whether the history leaves listener l waiting for changes of device d: it was registered, and since then neither
      unregistered, nor reported dead, nor has the device gone offline. */
  predicate Live(steps: seq<Step>, d: DeviceId, l: Remote)
  {
    if steps == [] then false else
    var before := Live(steps[..|steps| - 1], d, l);
    match steps[|steps| - 1]
    case Register(d', l', local) => before || (d == d' && l == l' && l != NULL && local.Some? && local.value != d)
    case Unregister(d', l', local) => before && !(d == d' && l == l' && l != NULL && local.Some? && local.value != d)
    case Die(l') => before && l != l'
    case Offline(d') => before && d != d'
    case Mark(_) => before
  }

  /** The map holds exactly the live listeners, and a device has an entry only while it has one. */
  lemma {:induction false} HoldsTheLive(steps: seq<Step>)
    ensures NoneEmpty(After(steps))
    ensures forall d, l :: Registered(After(steps), d, l) <==> Live(steps, d, l)
    ensures forall d :: d in After(steps) <==> exists l :: Live(steps, d, l)
  {
    if steps != [] {
      HoldsTheLive(steps[..|steps| - 1]);
      StepKeeps(After(steps[..|steps| - 1]), steps[|steps| - 1]);
    }
    forall d ensures d in After(steps) <==> exists l :: Registered(After(steps), d, l) {
      if d in After(steps) {
        var l :| l in After(steps)[d].listenerSet;
        assert Registered(After(steps), d, l);
      }
    }
  }

  lemma StepKeeps(m: ListenDevices, step: Step)
    requires NoneEmpty(m)
    ensures NoneEmpty(Next(m, step))
  {
  }

  ghost predicate AnyLive(steps: seq<Step>, d: DeviceId)
  {
    exists l :: Live(steps, d, l)
  }

  /** The device was marked as called while it had a listener, and has had one ever since. */
  ghost predicate MarkedSince(steps: seq<Step>, d: DeviceId)
  {
    if steps == [] then false else
    var init := steps[..|steps| - 1];
    if steps[|steps| - 1] == Mark(d) then AnyLive(init, d) else MarkedSince(init, d) && AnyLive(steps, d)
  }

  /** An entry counts as called exactly if it was marked since its first listener came; so a new entry does not. */
  lemma {:induction false} CalledSinceMarked(steps: seq<Step>, d: DeviceId)
    ensures Called(After(steps), d) <==> MarkedSince(steps, d)
  {
    if steps != [] {
      var init, step := steps[..|steps| - 1], steps[|steps| - 1];
      CalledSinceMarked(init, d);
      HoldsTheLive(init);
      HoldsTheLive(steps);
      CalledStep(After(init), step, d);
    }
  }

  lemma CalledStep(m: ListenDevices, step: Step, d: DeviceId)
    requires NoneEmpty(m)
    ensures Called(Next(m, step), d) <==> if step == Mark(d) then d in m else Called(m, d) && d in Next(m, step)
  {
  }

  // ----- subscriptions, each call being one step -----

  /** What asking the remote device comes to. */
  datatype Answer = Answer(found: bool, localKnown: bool, code: int)

  function CallCode(r: Answer): int
  {
    if !r.found then GET_REMOTE_DMS_FAIL else if !r.localKnown then GET_LOCAL_DEVICE_ERR else r.code
  }

  /** Every device marked as called is subscribed to. */
  ghost predicate CalledSubscribed(m: ListenDevices, subscribed: set<DeviceId>)
  {
    forall d :: Called(m, d) ==> d in subscribed
  }

  /** Every device subscribed to has a listener that waits for it. */
  ghost predicate SubscribedListens(m: ListenDevices, subscribed: set<DeviceId>)
  {
    forall d <- subscribed :: d in m
  }

  /** The devices subscribed to after a stop. */
  function SubscribedAfterStop(subscribed: set<DeviceId>, d: DeviceId, offline: bool, answer: Answer): set<DeviceId>
  {
    if !offline && CallCode(answer) == ERR_OK then subscribed - {d} else subscribed
  }

  /** Unregistering the last listener of a device leaves the subscription behind. */
  lemma UnregisterLeavesSubscription(d: DeviceId, l: Remote)
    ensures var m: ListenDevices := map[d := ListenerInfo(true, {l})];
            SubscribedListens(m, {d}) && !SubscribedListens(Removed(m, d, l), {d})
  {
    assert {l} - {l} == {};
  }

  /** An explicit stop leaves the mark behind: the device counts as called, and a new start asks nothing of it. */
  lemma StopLeavesMark(d: DeviceId, l: Remote)
    ensures var m: ListenDevices := map[d := ListenerInfo(true, {l})];
            var subscribed := SubscribedAfterStop({d}, d, false, Answer(true, true, ERR_OK));
            CalledSubscribed(m, {d}) && !CalledSubscribed(m, subscribed) && !StartAsks(m, d)
  {
    var m: ListenDevices := map[d := ListenerInfo(true, {l})];
    assert Called(m, d);
  }

  predicate StartAsks(m: ListenDevices, d: DeviceId)
  {
    d in m && !m[d].called
  }

  class MissionListeners {
    var listenDeviceMap: ListenDevices
    /** The devices for which the mission cache, the snapshots and the stored data were cleaned, in order. */
    var cleaned: seq<DeviceId>
    /** The devices that were asked to send their mission changes, and since then neither asked to stop nor offline. */
    ghost var subscribed: set<DeviceId>

    constructor ()
      ensures listenDeviceMap == map[] && cleaned == [] && subscribed == {}
    {
      listenDeviceMap, cleaned, subscribed := map[], [], {};
    }

    method RegisterMissionListener(devId: DeviceId, listener: Remote, local: Option<DeviceId>) returns (result: int)
      modifies this`listenDeviceMap
      ensures listenDeviceMap == Next(old(listenDeviceMap), Register(devId, listener, local))
      ensures result == if listener == NULL || local.None? || local.value == devId then INVALID_PARAMETERS_ERR else ERR_OK
      ensures result == ERR_OK ==> forall d, l :: Registered(listenDeviceMap, d, l) <==>
                Registered(old(listenDeviceMap), d, l) || (d == devId && l == listener)
      ensures result != ERR_OK ==> listenDeviceMap == old(listenDeviceMap)
    {
      if listener == NULL {
        return INVALID_PARAMETERS_ERR;
      }
      if local.None? || local.value == devId {
        return INVALID_PARAMETERS_ERR;
      }
      if devId !in listenDeviceMap {
        listenDeviceMap := listenDeviceMap[devId := ListenerInfo(false, {})];
      }
      var info := listenDeviceMap[devId];
      if listener in info.listenerSet {
        assert info.listenerSet + {listener} == info.listenerSet;
        return ERR_OK;
      }
      listenDeviceMap := listenDeviceMap[devId := info.(listenerSet := info.listenerSet + {listener})];
      assert {} + {listener} == {listener};
      return ERR_OK;
    }

    method UnRegisterMissionListener(devId: DeviceId, listener: Remote, local: Option<DeviceId>) returns (result: int)
      modifies this`listenDeviceMap
      ensures listenDeviceMap == Next(old(listenDeviceMap), Unregister(devId, listener, local))
      ensures result == if listener == NULL || local.None? || local.value == devId then INVALID_PARAMETERS_ERR else ERR_OK
      ensures result == ERR_OK ==> forall d, l :: Registered(listenDeviceMap, d, l) <==>
                Registered(old(listenDeviceMap), d, l) && !(d == devId && l == listener)
      ensures result != ERR_OK ==> listenDeviceMap == old(listenDeviceMap)
      ensures SubscribedListens(old(listenDeviceMap), subscribed) ==>
                (SubscribedListens(listenDeviceMap, subscribed) <==>
                 !(Acceptable(devId, listener, local) && devId in subscribed && devId in old(listenDeviceMap) &&
                   old(listenDeviceMap)[devId].listenerSet == {listener}))
    {
      if listener == NULL {
        return INVALID_PARAMETERS_ERR;
      }
      if local.None? || local.value == devId {
        return INVALID_PARAMETERS_ERR;
      }
      if devId !in listenDeviceMap {
        return ERR_OK;
      }
      var info := listenDeviceMap[devId];
      if listener !in info.listenerSet {
        return ERR_OK;
      }
      var rest := info.listenerSet - {listener};
      listenDeviceMap := listenDeviceMap[devId := info.(listenerSet := rest)];
      if rest != {} {
        return ERR_OK;
      }
      listenDeviceMap := listenDeviceMap - {devId};
      return ERR_OK;
    }

    /** A successful start leaves the device subscribed only if it was so before, or if a listener waited for it and the
        device was not marked as called. */
    method StartSyncRemoteMissions(devId: DeviceId, local: Option<DeviceId>, remote: Answer) returns (result: int)
      modifies this`listenDeviceMap, this`subscribed
      ensures var accepted := local.Some? && local.value != devId;
              var asks := accepted && StartAsks(old(listenDeviceMap), devId);
              && result == (if !accepted then INVALID_PARAMETERS_ERR else if asks then CallCode(remote) else ERR_OK)
              && subscribed == old(subscribed) + (if asks && CallCode(remote) == ERR_OK then {devId} else {})
              && listenDeviceMap == (if asks && CallCode(remote) == ERR_OK then Marked(old(listenDeviceMap), devId)
                                     else old(listenDeviceMap))
      ensures local.Some? && local.value != devId && devId in old(listenDeviceMap) && !old(listenDeviceMap)[devId].called ==>
                && result == (if !remote.found then GET_REMOTE_DMS_FAIL else if !remote.localKnown then GET_LOCAL_DEVICE_ERR
                              else remote.code)
                && (result == ERR_OK ==> devId in subscribed && Called(listenDeviceMap, devId))
      ensures result == ERR_OK ==>
                (devId in subscribed <==> devId in old(subscribed) || StartAsks(old(listenDeviceMap), devId))
      ensures CalledSubscribed(old(listenDeviceMap), old(subscribed)) ==> CalledSubscribed(listenDeviceMap, subscribed)
      ensures SubscribedListens(old(listenDeviceMap), old(subscribed)) ==> SubscribedListens(listenDeviceMap, subscribed)
    {
      if local.None? || local.value == devId {
        return INVALID_PARAMETERS_ERR;
      }
      if devId !in listenDeviceMap {
        return ERR_OK;
      }
      if listenDeviceMap[devId].called {
        return ERR_OK;
      }
      if !remote.found {
        return GET_REMOTE_DMS_FAIL;
      }
      if !remote.localKnown {
        return GET_LOCAL_DEVICE_ERR;
      }
      if remote.code == ERR_OK {
        subscribed := subscribed + {devId};
        if devId in listenDeviceMap {
          listenDeviceMap := listenDeviceMap[devId := listenDeviceMap[devId].(called := true)];
        }
      }
      return remote.code;
    }

    /** An explicit stop leaves the device marked as called: what is called stays subscribed if and only if the stop did
        not reach a called device. */
    method StopSyncRemoteMissions(devId: DeviceId, offline: bool, remote: Answer) returns (result: int)
      modifies this`cleaned, this`subscribed
      ensures cleaned == old(cleaned) + [devId]
      ensures result == if offline then ERR_OK else if !remote.found then GET_REMOTE_DMS_FAIL
                        else if !remote.localKnown then GET_LOCAL_DEVICE_ERR else remote.code
      ensures devId in subscribed <==> devId in old(subscribed) && (offline || result != ERR_OK)
      ensures subscribed == SubscribedAfterStop(old(subscribed), devId, offline, remote)
      ensures SubscribedListens(listenDeviceMap, old(subscribed)) ==> SubscribedListens(listenDeviceMap, subscribed)
      ensures CalledSubscribed(listenDeviceMap, old(subscribed)) ==>
                (CalledSubscribed(listenDeviceMap, subscribed) <==>
                 offline || result != ERR_OK || !Called(listenDeviceMap, devId))
    {
      cleaned := cleaned + [devId];
      if offline {
        return ERR_OK;
      }
      if !remote.found {
        return GET_REMOTE_DMS_FAIL;
      }
      if !remote.localKnown {
        return GET_LOCAL_DEVICE_ERR;
      }
      if remote.code == ERR_OK {
        subscribed := subscribed - {devId};
      }
      return remote.code;
    }

    /** The device is offline: it has forgotten this device, too. */
    method CleanMissionResources(dstDevId: DeviceId)
      modifies this
      ensures listenDeviceMap == Next(old(listenDeviceMap), Offline(dstDevId))
      ensures cleaned == old(cleaned) + if dstDevId in old(listenDeviceMap) then [dstDevId] else []
      ensures subscribed == old(subscribed) - {dstDevId}
      ensures CalledSubscribed(old(listenDeviceMap), old(subscribed)) ==> CalledSubscribed(listenDeviceMap, subscribed)
      ensures SubscribedListens(old(listenDeviceMap), old(subscribed)) ==> SubscribedListens(listenDeviceMap, subscribed)
    {
      subscribed := subscribed - {dstDevId};
      if dstDevId !in listenDeviceMap {
        return;
      }
      listenDeviceMap := listenDeviceMap - {dstDevId};
      var result := StopSyncRemoteMissions(dstDevId, true, Answer(false, false, 0));
    }

    /** The part of OnMissionListenerDied that runs under listenDeviceLock_. */
    method TakeListener(remote: Remote) returns (lost: set<DeviceId>)
      requires NoneEmpty(listenDeviceMap)
      modifies this`listenDeviceMap
      ensures listenDeviceMap == Next(old(listenDeviceMap), Die(remote))
      ensures lost == Lost(old(listenDeviceMap), remote)
    {
      hide TakenBut, LostBut;
      ghost var m := listenDeviceMap;
      TakenEnds(m, remote);
      lost := {};
      var todo := listenDeviceMap.Keys;
      while todo != {}
        invariant todo <= m.Keys
        invariant listenDeviceMap == TakenBut(m, remote, todo)
        invariant lost == LostBut(m, remote, todo)
        decreases |todo|
      {
        var d := Pick(todo);
        TakenStep(m, remote, todo, d);
        todo := todo - {d};
        var info := listenDeviceMap[d];
        if remote in info.listenerSet {
          var rest := info.listenerSet - {remote};
          if rest == {} {
            if info.called {
              lost := lost + {d};
            }
            listenDeviceMap := listenDeviceMap - {d};
          } else {
            listenDeviceMap := listenDeviceMap[d := info.(listenerSet := rest)];
          }
        }
      }
    }

    /** A dead listener is in no set any more, all others stay, and exactly the subscribed devices that lost their last
        listener are cleaned and, where the remote call succeeds, unsubscribed, each of them once. */
    method OnMissionListenerDied(remote: Remote, answers: DeviceId -> Answer)
      requires NoneEmpty(listenDeviceMap)
      modifies this
      ensures listenDeviceMap == Next(old(listenDeviceMap), Die(remote))
      ensures multiset(cleaned) == multiset(old(cleaned)) + multiset(Lost(old(listenDeviceMap), remote))
      ensures subscribed == Unsubscribed(old(subscribed), Lost(old(listenDeviceMap), remote), answers)
      ensures CalledSubscribed(old(listenDeviceMap), old(subscribed)) ==> CalledSubscribed(listenDeviceMap, subscribed)
      ensures SubscribedListens(old(listenDeviceMap), old(subscribed)) ==>
                (SubscribedListens(listenDeviceMap, subscribed) <==>
                 forall d <- old(subscribed) :: old(listenDeviceMap)[d].listenerSet == {remote} ==>
                   old(listenDeviceMap)[d].called && CallCode(answers(d)) == ERR_OK)
    {
      hide Unsubscribed, Lost, Died, NoneEmpty, CalledSubscribed, SubscribedListens;
      ghost var m, before := listenDeviceMap, subscribed;
      var lost := TakeListener(remote);
      StopEach(lost, answers);
      DeathKeeps(m, before, remote, answers);
    }

    /** One stop for each device. */
    method StopEach(devices: set<DeviceId>, answers: DeviceId -> Answer)
      modifies this`cleaned, this`subscribed
      ensures multiset(cleaned) == multiset(old(cleaned)) + multiset(devices)
      ensures subscribed == Unsubscribed(old(subscribed), devices, answers)
    {
      hide Unsubscribed, CalledSubscribed, SubscribedListens, SubscribedAfterStop, CallCode;
      ghost var before, asked := subscribed, {};
      UnsubscribedEnds(before, answers);
      var todo := devices;
      while todo != {}
        invariant asked + todo == devices && asked !! todo
        invariant multiset(cleaned) == multiset(old(cleaned)) + multiset(asked)
        invariant subscribed == Unsubscribed(before, asked, answers)
        decreases |todo|
      {
        var d := Pick(todo);
        todo := todo - {d};
        UnsubscribedStep(before, asked, d, answers);
        OneMore(asked, d);
        asked := asked + {d};
        var result := StopSyncRemoteMissions(d, false, answers(d));
      }
    }
  }

  /** The devices subscribed to after the given ones were asked to stop. */
  function Unsubscribed(subscribed: set<DeviceId>, asked: set<DeviceId>, answers: DeviceId -> Answer): set<DeviceId>
  {
    set d <- subscribed | !(d in asked && CallCode(answers(d)) == ERR_OK)
  }

  lemma OneMore(devices: set<DeviceId>, d: DeviceId)
    requires d !in devices
    ensures multiset(devices + {d}) == multiset(devices) + multiset{d}
  {
  }

  lemma UnsubscribedEnds(subscribed: set<DeviceId>, answers: DeviceId -> Answer)
    ensures Unsubscribed(subscribed, {}, answers) == subscribed
  {
  }

  lemma UnsubscribedStep(subscribed: set<DeviceId>, asked: set<DeviceId>, d: DeviceId, answers: DeviceId -> Answer)
    ensures Unsubscribed(subscribed, asked + {d}, answers) ==
            SubscribedAfterStop(Unsubscribed(subscribed, asked, answers), d, false, answers(d))
  {
  }

  /** What the death of a listener keeps: a subscribed device keeps a listener exactly if each one that loses its last
      listener is marked as called and heeds the call to stop. */
  lemma DeathKeeps(m: ListenDevices, subscribed: set<DeviceId>, l: Remote, answers: DeviceId -> Answer)
    requires NoneEmpty(m)
    ensures var after := Unsubscribed(subscribed, Lost(m, l), answers);
            && (CalledSubscribed(m, subscribed) ==> CalledSubscribed(Died(m, l), after))
            && (SubscribedListens(m, subscribed) ==>
                  (SubscribedListens(Died(m, l), after) <==>
                   forall d <- subscribed :: m[d].listenerSet == {l} ==> m[d].called && CallCode(answers(d)) == ERR_OK))
  {
    forall d <- m ensures d in Died(m, l) <==> m[d].listenerSet != {l} {
      if l in m[d].listenerSet {
        assert m[d].listenerSet - {l} == {} <==> m[d].listenerSet == {l};
      } else {
        assert m[d].listenerSet - {l} == m[d].listenerSet;
      }
    }
  }

  /** The map when the devices in todo have still to be visited. */
  ghost function TakenBut(m: ListenDevices, l: Remote, todo: set<DeviceId>): ListenDevices
  {
    map d <- m | d in todo || m[d].listenerSet - {l} != {} ::
      if d in todo then m[d] else m[d].(listenerSet := m[d].listenerSet - {l})
  }

  ghost function LostBut(m: ListenDevices, l: Remote, todo: set<DeviceId>): set<DeviceId>
  {
    set d <- m | d !in todo && m[d].listenerSet == {l} && m[d].called
  }

  lemma TakenEnds(m: ListenDevices, l: Remote)
    ensures TakenBut(m, l, m.Keys) == m && LostBut(m, l, m.Keys) == {}
    ensures TakenBut(m, l, {}) == Died(m, l) && LostBut(m, l, {}) == Lost(m, l)
  {
  }

  lemma TakenStep(m: ListenDevices, l: Remote, todo: set<DeviceId>, d: DeviceId)
    requires NoneEmpty(m) && d in todo && todo <= m.Keys
    ensures var now, rest := TakenBut(m, l, todo), m[d].listenerSet - {l};
            && d in now && now[d] == m[d]
            && TakenBut(m, l, todo - {d}) == (if l !in m[d].listenerSet then now
                                              else if rest == {} then now - {d}
                                              else now[d := m[d].(listenerSet := rest)])
            && LostBut(m, l, todo - {d}) == LostBut(m, l, todo) + if l in m[d].listenerSet && rest == {} && m[d].called
                                                                  then {d} else {}
  {
    var s := m[d].listenerSet;
    if l !in s {
      assert s - {l} == s;
    } else if s - {l} == {} {
      assert s == {l};
    }
  }
}
