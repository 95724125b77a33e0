/** The devices online and the index from a device's uuid to its network id, both kept by tasks that run in order. */
module DeviceIndex {
  import opened Common

  datatype Task = Online(networkId: DeviceId) | Offline(networkId: DeviceId)

  /** The answers of the network layer: network id to uuid. */
  type Adapter = DeviceId -> DeviceId

  type Index = map<DeviceId, DeviceId>

  // ----- what the tasks that ran say -----

  /** The network id last reported online for the uuid, unless a network id of that uuid was reported offline since. */
  function Entry(ran: seq<Task>, adapter: Adapter, uuid: DeviceId): (r: Option<DeviceId>)
    ensures r.Some? ==> adapter(r.value) == uuid
  {
    if ran == [] then None else
    var task := ran[|ran| - 1];
    if adapter(task.networkId) != uuid then Entry(ran[..|ran| - 1], adapter, uuid)
    else if task.Online? then Some(task.networkId)
    else None
  }

  predicate IsOnline(ran: seq<Task>, networkId: DeviceId)
  {
    if ran == [] then false else
    var task := ran[|ran| - 1];
    if task.networkId == networkId then task.Online? else IsOnline(ran[..|ran| - 1], networkId)
  }

  /** Since the network id was last reported, no other network id of its uuid was. */
  predicate Undisturbed(ran: seq<Task>, adapter: Adapter, networkId: DeviceId)
  {
    if ran == [] then true else
    var task := ran[|ran| - 1];
    task.networkId == networkId ||
    (adapter(task.networkId) != adapter(networkId) && Undisturbed(ran[..|ran| - 1], adapter, networkId))
  }

  /** Whether the index holds, for the uuid of each network id, exactly what the tasks leave. */
  ghost predicate Reflects(index: Index, ran: seq<Task>, adapter: Adapter)
  {
    forall u :: (u in index <==> Entry(ran, adapter, u).Some?) && (u in index ==> index[u] == Entry(ran, adapter, u).value)
  }

  /** Report i brought the network id online, and no later one was about the uuid. */
  ghost predicate LastAbout(ran: seq<Task>, adapter: Adapter, uuid: DeviceId, networkId: DeviceId, i: int)
  {
    0 <= i < |ran| && ran[i] == Online(networkId) && forall j :: i < j < |ran| ==> adapter(ran[j].networkId) != uuid
  }

  lemma LastAboutStep(init: seq<Task>, task: Task, adapter: Adapter, uuid: DeviceId, networkId: DeviceId, i: int)
    ensures i != |init| ==> (LastAbout(init + [task], adapter, uuid, networkId, i) <==>
                             LastAbout(init, adapter, uuid, networkId, i) && adapter(task.networkId) != uuid)
    ensures LastAbout(init + [task], adapter, uuid, networkId, |init|) <==> task == Online(networkId)
  {
    var ran := init + [task];
    assert forall j :: 0 <= j < |init| ==> ran[j] == init[j];
    assert ran[|init|] == task;
  }

  /** A network id is left for a uuid exactly if it was reported online, with that uuid, and no later report was about the
      uuid. */
  lemma {:induction false} EntryExactly(ran: seq<Task>, adapter: Adapter, uuid: DeviceId, networkId: DeviceId)
    ensures Entry(ran, adapter, uuid) == Some(networkId) <==>
            adapter(networkId) == uuid && exists i :: LastAbout(ran, adapter, uuid, networkId, i)
  {
    if ran != [] {
      var init, task := ran[..|ran| - 1], ran[|ran| - 1];
      assert ran == init + [task];
      EntryExactly(init, adapter, uuid, networkId);
      hide LastAbout;
      forall i ensures i != |init| ==> (LastAbout(ran, adapter, uuid, networkId, i) <==>
                                        LastAbout(init, adapter, uuid, networkId, i) && adapter(task.networkId) != uuid)
               ensures LastAbout(ran, adapter, uuid, networkId, |init|) <==> task == Online(networkId)
               ensures !LastAbout(init, adapter, uuid, networkId, |init|)
      {
        LastAboutStep(init, task, adapter, uuid, networkId, i);
        assert !LastAbout(init, adapter, uuid, networkId, |init|) by { NotBeyond(init, adapter, uuid, networkId); }
      }
    } else {
      NotAtAll(adapter, uuid, networkId);
    }
  }

  lemma NotBeyond(ran: seq<Task>, adapter: Adapter, uuid: DeviceId, networkId: DeviceId)
    ensures !LastAbout(ran, adapter, uuid, networkId, |ran|)
  {
  }

  lemma NotAtAll(adapter: Adapter, uuid: DeviceId, networkId: DeviceId)
    ensures forall i :: !LastAbout([], adapter, uuid, networkId, i)
  {
  }

  /** A device online is found under its uuid exactly if no report about another network id of that uuid came after. */
  lemma {:induction false} FoundExactly(ran: seq<Task>, adapter: Adapter, networkId: DeviceId)
    requires IsOnline(ran, networkId)
    ensures Entry(ran, adapter, adapter(networkId)) == Some(networkId) <==> Undisturbed(ran, adapter, networkId)
  {
    var task := ran[|ran| - 1];
    if task.networkId != networkId {
      FoundExactly(ran[..|ran| - 1], adapter, networkId);
    }
  }

  /** Why the index is not complete: the late offline report of an old network id hides the new one. */
  lemma OldOfflineHidesNew(adapter: Adapter, old1: DeviceId, new1: DeviceId)
    requires old1 != new1 && adapter(old1) == adapter(new1)
    ensures var ran := [Online(old1), Online(new1), Offline(old1)];
            IsOnline(ran, new1) && Entry(ran, adapter, adapter(new1)) == None
  {
    var ran := [Online(old1), Online(new1), Offline(old1)];
    assert ran[..2] == [Online(old1), Online(new1)];
  }

  lemma ReflectsStep(index: Index, ran: seq<Task>, adapter: Adapter, task: Task)
    requires Reflects(index, ran, adapter)
    ensures var u := adapter(task.networkId);
            Reflects(if task.Online? then index[u := task.networkId] else index - {u}, ran + [task], adapter)
  {
    assert (ran + [task])[..|ran|] == ran;
    forall u ensures Entry(ran + [task], adapter, u) == if adapter(task.networkId) != u then Entry(ran, adapter, u)
                                                        else if task.Online? then Some(task.networkId) else None
    {
    }
  }

  class DtbschedmgrDeviceInfoStorage {
    const adapter: Adapter
    var uuidNetworkIdMap: Index
    var remoteDevices: set<DeviceId>
    var networkIdMgrHandler: seq<Task>
    var listenerCalls: seq<Task>
    ghost var ran: seq<Task>

    ghost predicate Valid()
      reads this
    {
      && Reflects(uuidNetworkIdMap, ran, adapter)
      && (forall n :: n in remoteDevices <==> IsOnline(ran, n))
      && listenerCalls == ran
    }

    constructor (adapter: Adapter)
      ensures Valid() && ran == [] && networkIdMgrHandler == [] && this.adapter == adapter
    {
      this.adapter := adapter;
      uuidNetworkIdMap, remoteDevices, networkIdMgrHandler, listenerCalls, ran := map[], {}, [], [], [];
    }

    method RegisterUuidNetworkIdMap(networkId: DeviceId)
      modifies this`uuidNetworkIdMap
      ensures uuidNetworkIdMap == old(uuidNetworkIdMap)[adapter(networkId) := networkId]
    {
      uuidNetworkIdMap := uuidNetworkIdMap[adapter(networkId) := networkId];
    }

    method UnregisterUuidNetworkIdMap(networkId: DeviceId)
      modifies this`uuidNetworkIdMap
      ensures uuidNetworkIdMap == old(uuidNetworkIdMap) - {adapter(networkId)}
    {
      uuidNetworkIdMap := uuidNetworkIdMap - {adapter(networkId)};
    }

    /** Whatever the index holds, the answer is that of the network layer. */
    method GetUuidByNetworkId(networkId: DeviceId) returns (uuid: DeviceId)
      requires Valid()
      ensures uuid == if networkId == "" then "" else adapter(networkId)
    {
      if networkId == "" {
        return "";
      }
      var todo := uuidNetworkIdMap.Keys;
      while todo != {}
        invariant todo <= uuidNetworkIdMap.Keys
        decreases |todo|
      {
        var u := Pick(todo);
        todo := todo - {u};
        if uuidNetworkIdMap[u] == networkId {
          return u;
        }
      }
      return adapter(networkId);
    }

    /** A network id found is one of that uuid, and it is the one that the tasks leave for it. */
    method GetNetworkIdByUuid(uuid: DeviceId) returns (networkId: DeviceId)
      requires Valid()
      ensures networkId != "" ==> adapter(networkId) == uuid
      ensures networkId == match Entry(ran, adapter, uuid) case Some(n) => if uuid == "" then "" else n case None => ""
    {
      if uuid == "" {
        return "";
      }
      if uuid in uuidNetworkIdMap {
        return uuidNetworkIdMap[uuid];
      }
      return "";
    }

    method DeviceOnlineNotify(devInfo: Option<DeviceId>)
      modifies this`networkIdMgrHandler
      ensures networkIdMgrHandler == old(networkIdMgrHandler) + if devInfo.Some? then [Online(devInfo.value)] else []
    {
      if devInfo.None? {
        return;
      }
      networkIdMgrHandler := networkIdMgrHandler + [Online(devInfo.value)];
    }

    method DeviceOfflineNotify(deviceId: DeviceId)
      modifies this`networkIdMgrHandler
      ensures networkIdMgrHandler == old(networkIdMgrHandler) + if deviceId != "" then [Offline(deviceId)] else []
    {
      if deviceId == "" {
        return;
      }
      networkIdMgrHandler := networkIdMgrHandler + [Offline(deviceId)];
    }

    /** The handler runs the first task. */
    method RunTask()
      requires Valid() && networkIdMgrHandler != []
      modifies this
      ensures Valid()
      ensures ran == old(ran) + [old(networkIdMgrHandler)[0]] && networkIdMgrHandler == old(networkIdMgrHandler)[1..]
    {
      var task := networkIdMgrHandler[0];
      ReflectsStep(uuidNetworkIdMap, ran, adapter, task);
      assert (ran + [task])[..|ran|] == ran;
      networkIdMgrHandler := networkIdMgrHandler[1..];
      match task {
        case Online(deviceId) =>
          RegisterUuidNetworkIdMap(deviceId);
          remoteDevices := remoteDevices + {deviceId};
          listenerCalls := listenerCalls + [task];
        case Offline(deviceId) =>
          listenerCalls := listenerCalls + [task];
          UnregisterUuidNetworkIdMap(deviceId);
          remoteDevices := remoteDevices - {deviceId};
      }
      ran := ran + [task];
    }
  }
}
