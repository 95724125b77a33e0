/** Several devices connected by remote calls: the two ends of every connection agree. */
module Network {
  import opened Common
  import opened Sessions
  import opened Reports
  import opened Service

  /** The tables of one device that a connection touches: its caller side and its callee side. */
  datatype Device = Device(connects: Table, callees: Callees)

  type Net = map<DeviceId, Device>

  /** What the callee learns of a caller: the bundle names do not travel. */
  function Wire(caller: CallerInfo): CallerInfo
  {
    caller.(bundleNames := [])
  }

  datatype Step =
    | Connect(src: DeviceId, dst: DeviceId, c: Remote, e: Element)
    | Disconnect(src: DeviceId, c: Remote, remotes: seq<DeviceId>)
    | ProcessDied(src: DeviceId, c: Remote, notifyList: seq<DeviceId>)
    | LinkDown(a: DeviceId, b: DeviceId)

  /** What a step needs: a connect goes between two known devices, from the owner of the connect object; the lists of
      remote calls are those that DisconnectRemoteAbility and ProcessConnectDied return. */
  ghost predicate Enabled(net: Net, owner: Owners, step: Step)
  {
    match step
    case Connect(src, dst, c, e) =>
      src in net && dst in net && src != dst && c != NULL && LocalCaller(owner(c), src)
    case Disconnect(src, c, remotes) =>
      src in net && NoRepeats(remotes) && SetOf(remotes) == Targets(SessionsOf(net[src].connects, c))
    case ProcessDied(src, c, notifyList) =>
      src in net && NoRepeats(notifyList) &&
      SetOf(notifyList) == if c in net[src].connects then Reached(net[src].connects, owner(c)) else {}
    case LinkDown(a, b) =>
      a in net && b in net && a != b
  }

  function Accept(net: Net, dst: DeviceId, c: Remote, info: ConnectInfo): Net
    requires dst in net
  {
    if c in net[dst].callees then net else net[dst := net[dst].(callees := net[dst].callees[c := info])]
  }

  function SetConnects(net: Net, src: DeviceId, t: Table): Net
    requires src in net
  {
    net[src := net[src].(connects := t)]
  }

  /** The remote calls of a disconnect, one after the other. */
  function Release(net: Net, remotes: seq<DeviceId>, c: Remote): (r: Net)
    ensures r.Keys == net.Keys
  {
    if remotes == [] then net
    else if remotes[0] !in net then Release(net, remotes[1..], c)
    else Release(net[remotes[0] := net[remotes[0]].(callees := net[remotes[0]].callees - {c})], remotes[1..], c)
  }

  /** The notices of a process death, one after the other. */
  function Notify(net: Net, remotes: seq<DeviceId>, caller: CallerInfo): (r: Net)
    ensures r.Keys == net.Keys
  {
    if remotes == [] then net
    else if remotes[0] !in net then Notify(net, remotes[1..], caller)
    else Notify(net[remotes[0] := net[remotes[0]].(callees := DropProcess(net[remotes[0]].callees, caller))],
                remotes[1..], caller)
  }

  function Offline(device: Device, d: DeviceId): Device
  {
    Device(DropDevice(device.connects, d), DropSource(device.callees, d))
  }

  ghost function Next(net: Net, owner: Owners, step: Step): Net
    requires Enabled(net, owner, step)
  {
    match step
    case Connect(src, dst, c, e) =>
      SetConnects(Accept(net, dst, c, ConnectInfo(Wire(owner(c)), e)), src,
                  Sessions.Connect(net[src].connects, c, dst, e, owner(c)))
    case Disconnect(src, c, remotes) =>
      Release(SetConnects(net, src, net[src].connects - {c}), remotes, c)
    case ProcessDied(src, c, notifyList) =>
      if c !in net[src].connects then net
      else Notify(SetConnects(net, src, DropCaller(net[src].connects, owner(c))), notifyList, owner(c))
    case LinkDown(a, b) =>
      net[a := Offline(net[a], b)][b := Offline(net[b], a)]
  }

  /** The caller side of device d only holds its own connects, towards devices of the net. */
  ghost predicate CallerSideOk(t: Table, owner: Owners, d: DeviceId, all: set<DeviceId>)
  {
    TableOk(t, owner) && forall c <- t :: LocalCaller(owner(c), d) && Targets(t[c]) <= all
  }

  /** The callee side of device d only holds connects of other devices of the net. */
  ghost predicate CalleeSideOk(callees: Callees, owner: Owners, d: DeviceId, all: set<DeviceId>)
  {
    forall c <- callees :: callees[c].caller == Wire(owner(c)) && owner(c).sourceDeviceId in all - {d}
  }

  ghost predicate DeviceOk(device: Device, owner: Owners, d: DeviceId, all: set<DeviceId>)
  {
    d != "" && CallerSideOk(device.connects, owner, d, all) && CalleeSideOk(device.callees, owner, d, all)
  }

  /** s has a session (c, d) exactly when d holds c as a connection from s. */
  ghost predicate Mirrored(net: Net, s: DeviceId, d: DeviceId, c: Remote)
    requires s in net && d in net
  {
    HasRoute(net[s].connects, c, d) <==> c in net[d].callees && net[d].callees[c].caller.sourceDeviceId == s
  }

  ghost predicate Mirror(net: Net)
  {
    forall s, d, c :: s in net && d in net && s != d ==> Mirrored(net, s, d, c)
  }

  ghost predicate Inv(net: Net, owner: Owners)
  {
    (forall d <- net :: DeviceOk(net[d], owner, d, net.Keys)) && Mirror(net)
  }

  lemma {:induction false} ReleaseAt(net: Net, remotes: seq<DeviceId>, c: Remote, d: DeviceId)
    requires d in net
    ensures Release(net, remotes, c)[d] ==
            if d in remotes then net[d].(callees := net[d].callees - {c}) else net[d]
  {
    if remotes != [] {
      var head := remotes[0];
      var next := if head in net then net[head := net[head].(callees := net[head].callees - {c})] else net;
      ReleaseAt(next, remotes[1..], c, d);
      assert net[d].callees - {c} - {c} == net[d].callees - {c};
    }
  }

  lemma {:induction false} NotifyAt(net: Net, remotes: seq<DeviceId>, caller: CallerInfo, d: DeviceId)
    requires d in net
    ensures Notify(net, remotes, caller)[d] ==
            if d in remotes then net[d].(callees := DropProcess(net[d].callees, caller)) else net[d]
  {
    if remotes != [] {
      var head := remotes[0];
      var next := if head in net then net[head := net[head].(callees := DropProcess(net[head].callees, caller))] else net;
      NotifyAt(next, remotes[1..], caller, d);
      assert DropProcess(DropProcess(net[d].callees, caller), caller) == DropProcess(net[d].callees, caller);
    }
  }

  lemma ConnectDevices(net: Net, owner: Owners, src: DeviceId, dst: DeviceId, c: Remote, e: Element, d: DeviceId)
    requires Inv(net, owner) && Enabled(net, owner, Connect(src, dst, c, e)) && d in net
    ensures DeviceOk(Next(net, owner, Connect(src, dst, c, e))[d], owner, d, net.Keys)
  {
    hide Mirrored;
    assert DeviceOk(net[d], owner, d, net.Keys) && DeviceOk(net[dst], owner, dst, net.Keys);
    if d == src {
      ConnectExact(net[src].connects, c, dst, e, owner(c), owner);
      ConnectedExact(SessionsOf(net[src].connects, c), dst, e, owner(c));
    }
  }

  lemma ConnectKeeps(net: Net, owner: Owners, step: Step)
    requires Inv(net, owner) && step.Connect? && Enabled(net, owner, step)
    ensures Inv(Next(net, owner, step), owner)
  {
    var Connect(src, dst, c, e) := step;
    var net' := Next(net, owner, step);
    forall d <- net' ensures DeviceOk(net'[d], owner, d, net.Keys) {
      ConnectDevices(net, owner, src, dst, c, e, d);
    }
    assert DeviceOk(net[dst], owner, dst, net.Keys) && DeviceOk(net[src], owner, src, net.Keys);
    forall s, d, x | s in net' && d in net' && s != d ensures Mirrored(net', s, d, x) {
      assert Mirrored(net, s, d, x);
      ConnectMirrored(net, owner, src, dst, c, e, s, d, x);
    }
  }

  lemma ConnectMirrored(net: Net, owner: Owners, src: DeviceId, dst: DeviceId, c: Remote, e: Element,
                        s: DeviceId, d: DeviceId, x: Remote)
    requires Enabled(net, owner, Connect(src, dst, c, e))
    requires s in net && d in net && s != d && Mirrored(net, s, d, x)
    requires TableOk(net[src].connects, owner) && dst != ""
    requires c in net[dst].callees ==> net[dst].callees[c].caller == Wire(owner(c))
    ensures Mirrored(Next(net, owner, Connect(src, dst, c, e)), s, d, x)
  {
    var net' := Next(net, owner, Connect(src, dst, c, e));
    ConnectExact(net[src].connects, c, dst, e, owner(c), owner);
    assert HasRoute(net'[s].connects, x, d) <==> HasRoute(net[s].connects, x, d) || (s == src && x == c && d == dst);
  }

  lemma DisconnectAt(net: Net, owner: Owners, src: DeviceId, c: Remote, remotes: seq<DeviceId>, d: DeviceId)
    requires Enabled(net, owner, Disconnect(src, c, remotes)) && d in net
    ensures Next(net, owner, Disconnect(src, c, remotes))[d] ==
            Device(if d == src then net[d].connects - {c} else net[d].connects,
                   if HasRoute(net[src].connects, c, d) then net[d].callees - {c} else net[d].callees)
  {
    ReleaseAt(SetConnects(net, src, net[src].connects - {c}), remotes, c, d);
    assert d in remotes <==> d in SetOf(remotes);
  }

  lemma DisconnectKeeps(net: Net, owner: Owners, step: Step)
    requires Inv(net, owner) && step.Disconnect? && Enabled(net, owner, step)
    ensures Inv(Next(net, owner, step), owner)
  {
    var Disconnect(src, c, remotes) := step;
    var net' := Next(net, owner, step);
    forall d <- net ensures DeviceOk(net'[d], owner, d, net.Keys) {
      DisconnectAt(net, owner, src, c, remotes, d);
      assert DeviceOk(net[d], owner, d, net.Keys);
    }
    NoRouteHome(net, owner, src, c);
    forall s, d, x | s in net' && d in net' && s != d ensures Mirrored(net', s, d, x) {
      assert Mirrored(net, s, d, x) && (src != d ==> Mirrored(net, src, d, c));
      DisconnectMirrored(net, owner, src, c, remotes, s, d, x);
    }
  }

  lemma NoRouteHome(net: Net, owner: Owners, src: DeviceId, c: Remote)
    requires Inv(net, owner) && src in net
    ensures !HasRoute(net[src].connects, c, src)
  {
    assert DeviceOk(net[src], owner, src, net.Keys);
  }

  lemma DisconnectMirrored(net: Net, owner: Owners, src: DeviceId, c: Remote, remotes: seq<DeviceId>,
                           s: DeviceId, d: DeviceId, x: Remote)
    requires Enabled(net, owner, Disconnect(src, c, remotes)) && s in net && d in net && s != d
    requires Mirrored(net, s, d, x) && (src != d ==> Mirrored(net, src, d, c)) && !HasRoute(net[src].connects, c, src)
    ensures Mirrored(Next(net, owner, Disconnect(src, c, remotes)), s, d, x)
  {
    DisconnectAt(net, owner, src, c, remotes, s);
    DisconnectAt(net, owner, src, c, remotes, d);
  }

  /** The devices a caller reaches are those that hold an entry of that caller. */
  lemma ReachedIffHeld(net: Net, owner: Owners, src: DeviceId, c: Remote, d: DeviceId)
    requires Inv(net, owner) && src in net && c in net[src].connects && d in net
    ensures d in Reached(net[src].connects, owner(c)) <==> Holds(net[d].callees, owner(c))
  {
    var t := net[src].connects;
    assert DeviceOk(net[src], owner, src, net.Keys) && DeviceOk(net[d], owner, d, net.Keys);
    if Holds(net[d].callees, owner(c)) {
      var x :| x in net[d].callees && owner(c).IsSameCaller(net[d].callees[x].caller);
      assert Mirrored(net, src, d, x);
      assert x in t && Front(t[x]).IsSameCaller(owner(c)) && d in Targets(t[x]);
    }
    if d in Reached(t, owner(c)) {
      var x :| x in t && Front(t[x]).IsSameCaller(owner(c)) && d in Targets(t[x]);
      assert d != src by {
        var session: Session :| session in t[x] && session.destination == d;
      }
      assert Mirrored(net, src, d, x);
    }
  }

  /** Some entry belongs to the caller. */
  ghost predicate Holds(callees: Callees, caller: CallerInfo)
  {
    exists x :: x in callees && caller.IsSameCaller(callees[x].caller)
  }

  /** After the notices of a process death, every device has dropped the dead caller and kept every other entry; and the
      devices notified, once each, are exactly those that held an entry of that caller. */
  lemma ProcessDiedExact(net: Net, owner: Owners, src: DeviceId, c: Remote, notifyList: seq<DeviceId>)
    requires Inv(net, owner) && Enabled(net, owner, ProcessDied(src, c, notifyList)) && c in net[src].connects
    ensures var net' := Next(net, owner, ProcessDied(src, c, notifyList));
            && net'.Keys == net.Keys
            && (forall d <- net :: net'[d].callees == DropProcess(net[d].callees, owner(c)))
            && (forall d <- net :: net'[d].connects == if d == src then DropCaller(net[d].connects, owner(c))
                                                       else net[d].connects)
    ensures forall d <- net :: d in notifyList <==> Holds(net[d].callees, owner(c))
    ensures var net', dead := Next(net, owner, ProcessDied(src, c, notifyList)), owner(c);
            forall d, x :: d in net ==>
              (x in net'[d].callees <==>
                 x in net[d].callees && var other := net[d].callees[x].caller;
                 other.uid != dead.uid || other.pid != dead.pid || other.callerType != dead.callerType ||
                 other.sourceDeviceId != dead.sourceDeviceId)
  {
    var net1 := SetConnects(net, src, DropCaller(net[src].connects, owner(c)));
    forall d <- net
      ensures Next(net, owner, ProcessDied(src, c, notifyList))[d] ==
              net1[d].(callees := DropProcess(net[d].callees, owner(c)))
      ensures d in notifyList <==> Holds(net[d].callees, owner(c))
    {
      NotifyAt(net1, notifyList, owner(c), d);
      assert d in notifyList <==> d in SetOf(notifyList);
      ReachedIffHeld(net, owner, src, c, d);
      if d !in notifyList {
        assert DropProcess(net[d].callees, owner(c)) == net[d].callees;
      }
    }
  }

  lemma ProcessDiedKeeps(net: Net, owner: Owners, step: Step)
    requires Inv(net, owner) && step.ProcessDied? && Enabled(net, owner, step)
    ensures Inv(Next(net, owner, step), owner)
  {
    var ProcessDied(src, c, notifyList) := step;
    var net' := Next(net, owner, step);
    if c in net[src].connects {
      ProcessDiedExact(net, owner, src, c, notifyList);
      forall d <- net' ensures DeviceOk(net'[d], owner, d, net.Keys) {
        assert DeviceOk(net[d], owner, d, net.Keys);
      }
      assert DeviceOk(net[src], owner, src, net.Keys);
      forall s, d, x | s in net' && d in net' && s != d ensures Mirrored(net', s, d, x) {
        assert Mirrored(net, s, d, x);
        assert DeviceOk(net[s], owner, s, net.Keys) && DeviceOk(net[d], owner, d, net.Keys);
        ProcessDiedMirrored(net, net', owner, src, c, s, d, x);
      }
    }
  }

  lemma ProcessDiedMirrored(net: Net, net': Net, owner: Owners, src: DeviceId, c: Remote,
                            s: DeviceId, d: DeviceId, x: Remote)
    requires src in net && c in net[src].connects && s in net && d in net && s != d && net'.Keys == net.Keys
    requires LocalCaller(owner(c), src) && Mirrored(net, s, d, x)
    requires CallerSideOk(net[s].connects, owner, s, net.Keys) && CalleeSideOk(net[d].callees, owner, d, net.Keys)
    requires net'[d].callees == DropProcess(net[d].callees, owner(c))
    requires net'[s].connects == if s == src then DropCaller(net[s].connects, owner(c)) else net[s].connects
    ensures Mirrored(net', s, d, x)
  {
    if x in net[s].connects {
      assert net[s].connects[x][0].caller == owner(x);
    }
  }

  lemma LinkDownKeeps(net: Net, owner: Owners, step: Step)
    requires Inv(net, owner) && step.LinkDown? && Enabled(net, owner, step)
    ensures Inv(Next(net, owner, step), owner)
  {
    var LinkDown(a, b) := step;
    var net' := Next(net, owner, step);
    forall d <- net' ensures DeviceOk(net'[d], owner, d, net.Keys) {
      assert DeviceOk(net[d], owner, d, net.Keys);
      OfflineOk(net[d], owner, d, if d == a then b else a, net.Keys);
    }
    forall s, d, x | s in net' && d in net' && s != d ensures Mirrored(net', s, d, x) {
      assert Mirrored(net, s, d, x);
      assert DeviceOk(net[a], owner, a, net.Keys) && DeviceOk(net[b], owner, b, net.Keys);
      DropDeviceExact(net[a].connects, b, owner);
      DropDeviceExact(net[b].connects, a, owner);
      LinkDownMirrored(net, owner, a, b, s, d, x);
    }
  }

  lemma LinkDownMirrored(net: Net, owner: Owners, a: DeviceId, b: DeviceId, s: DeviceId, d: DeviceId, x: Remote)
    requires a in net && b in net && a != b && s in net && d in net && s != d && Mirrored(net, s, d, x)
    requires HasRoute(DropDevice(net[a].connects, b), x, d) <==> HasRoute(net[a].connects, x, d) && d != b
    requires HasRoute(DropDevice(net[b].connects, a), x, d) <==> HasRoute(net[b].connects, x, d) && d != a
    ensures Mirrored(Next(net, owner, LinkDown(a, b)), s, d, x)
  {
  }

  lemma OfflineOk(device: Device, owner: Owners, d: DeviceId, gone: DeviceId, all: set<DeviceId>)
    requires DeviceOk(device, owner, d, all)
    ensures DeviceOk(Offline(device, gone), owner, d, all)
  {
    DropDeviceExact(device.connects, gone, owner);
    var t := Offline(device, gone).connects;
    forall c <- t ensures Targets(t[c]) <= all {
      forall x | x in Targets(t[c]) ensures x in all {
        assert HasRoute(t, c, x);
      }
    }
  }

  // ----- runs -----

  function Idle(devices: set<DeviceId>): Net
  {
    map d | d in devices :: Device(map[], map[])
  }

  /** The states of a run that starts with no connection. */
  ghost predicate Run(devices: set<DeviceId>, owner: Owners, states: seq<Net>, steps: seq<Step>)
  {
    && |states| == |steps| + 1 && states[0] == Idle(devices)
    && forall i :: 0 <= i < |steps| ==>
       Enabled(states[i], owner, steps[i]) && states[i + 1] == Next(states[i], owner, steps[i])
  }

  /** Mirror: in every state of every run, both ends of every connection agree. */
  lemma {:induction false} AlwaysMirrored(devices: set<DeviceId>, owner: Owners, states: seq<Net>, steps: seq<Step>, i: nat)
    requires "" !in devices && Run(devices, owner, states, steps) && i < |states|
    ensures Inv(states[i], owner)
  {
    if i > 0 {
      AlwaysMirrored(devices, owner, states, steps, i - 1);
      match steps[i - 1] {
        case Connect(_, _, _, _) => ConnectKeeps(states[i - 1], owner, steps[i - 1]);
        case Disconnect(_, _, _) => DisconnectKeeps(states[i - 1], owner, steps[i - 1]);
        case ProcessDied(_, _, _) => ProcessDiedKeeps(states[i - 1], owner, steps[i - 1]);
        case LinkDown(_, _) => LinkDownKeeps(states[i - 1], owner, steps[i - 1]);
      }
    }
  }

  /** A connect that is not one step can break the mirror: a link that fails between the callee's acceptance and the
      caller's bookkeeping leaves a session that no device answers for. AsyncNetwork says exactly when this happens. */
  lemma SplitConnectBreaksMirror(caller: CallerInfo)
    requires LocalCaller(caller, "a")
    ensures var e := Element("b", "bundle", "ability");
            var accepted := Accept(Idle({"a", "b"}), "b", 1, ConnectInfo(Wire(caller), e));
            var down := Next(accepted, _ => caller, LinkDown("a", "b"));
            !Mirror(SetConnects(down, "a", Sessions.Connect(down["a"].connects, 1, "b", e, caller)))
  {
    var e := Element("b", "bundle", "ability");
    var accepted := Accept(Idle({"a", "b"}), "b", 1, ConnectInfo(Wire(caller), e));
    var down := Next(accepted, _ => caller, LinkDown("a", "b"));
    var late := SetConnects(down, "a", Sessions.Connect(down["a"].connects, 1, "b", e, caller));
    assert late["a"].connects[1] == [Session("a", "b", [e], caller)];
    assert Session("a", "b", [e], caller) in late["a"].connects[1];
    assert !Mirrored(late, "a", "b", 1);
  }
}
