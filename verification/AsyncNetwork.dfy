/** Several devices whose calls and notices are on their way for some time: when the two ends of a connection agree. A
    connect is accepted by the other device in one step and recorded in a later one. The step of acceptance stands for both
    locked parts of ConnectAbilityFromRemote, the lookup of a known connect and the record of a new one. The remote calls of
    a disconnect, the notices of a process death and the handling of a lost link at its two ends are messages that arrive in
    any order. */
module AsyncNetwork {
  import opened Common
  import opened Sessions
  import opened Reports
  import opened Service
  import opened Network

  /** A connect that its destination accepted and its caller has not recorded yet. */
  datatype Call = Call(c: Remote, dst: DeviceId, e: Element)

  datatype Message =
    | Released(dst: DeviceId, c: Remote)
    | Died(dst: DeviceId, caller: CallerInfo)
    | Lost(at: DeviceId, peer: DeviceId)

  datatype State = State(net: Net, calls: multiset<Call>, messages: multiset<Message>)

  datatype Step =
    | Begin(call: Call)
    | Record(call: Call)
    | Drop(c: Remote)
    | Die(c: Remote)
    | Break(a: DeviceId, b: DeviceId)
    | Deliver(m: Message)

  function Home(owner: Owners, c: Remote): DeviceId { owner(c).sourceDeviceId }

  ghost predicate Enabled(s: State, owner: Owners, step: Step)
  {
    match step
    case Begin(call) =>
      && Pair(s.net, owner, call.c, call.dst) && call.c != NULL
      && LocalCaller(owner(call.c), Home(owner, call.c))
    case Record(call) => call in s.calls && Home(owner, call.c) in s.net
    case Drop(c) => Home(owner, c) in s.net
    case Die(c) => Home(owner, c) in s.net && c in s.net[Home(owner, c)].connects
    case Break(a, b) => a in s.net && b in s.net && a != b
    case Deliver(m) => m in s.messages
  }

  /** A connect object and a device it may be connected to. */
  predicate Pair(net: Net, owner: Owners, c: Remote, d: DeviceId)
  {
    d in net && Home(owner, c) in net && Home(owner, c) != d
  }

  function Addressee(m: Message): DeviceId
  {
    match m
    case Released(dst, _) => dst
    case Died(dst, _) => dst
    case Lost(at, _) => at
  }

  /** What a message does to the device that it reaches. */
  function Handled(device: Device, m: Message): Device
  {
    match m
    case Released(_, c) => device.(callees := device.callees - {c})
    case Died(_, caller) => device.(callees := DropProcess(device.callees, caller))
    case Lost(_, peer) => Offline(device, peer)
  }

  function Arrived(net: Net, m: Message): (r: Net)
    ensures r.Keys == net.Keys
  {
    var d := Addressee(m);
    if d in net then net[d := Handled(net[d], m)] else net
  }

  function CallsAfter(s: State, step: Step): multiset<Call>
  {
    match step
    case Begin(call) => s.calls + multiset{call}
    case Record(call) => s.calls - multiset{call}
    case _ => s.calls
  }

  /** A disconnect calls every device that the connect reaches, the death of a process is told to every device that its
      connects reach, and a broken link is noticed at both ends. */
  ghost function Posted(s: State, owner: Owners, step: Step): multiset<Message>
    requires Enabled(s, owner, step)
  {
    match step
    case Drop(c) =>
      multiset(set d | d in Targets(SessionsOf(s.net[Home(owner, c)].connects, c)) :: Released(d, c))
    case Die(c) =>
      multiset(set d | d in Reached(s.net[Home(owner, c)].connects, owner(c)) :: Died(d, owner(c)))
    case Break(a, b) => multiset{Lost(a, b), Lost(b, a)}
    case _ => multiset{}
  }

  ghost function NetAfter(s: State, owner: Owners, step: Step): (r: Net)
    requires Enabled(s, owner, step)
    ensures r.Keys == s.net.Keys
  {
    match step
    case Begin(call) => Accept(s.net, call.dst, call.c, ConnectInfo(Wire(owner(call.c)), call.e))
    case Record(call) =>
      var src := Home(owner, call.c);
      SetConnects(s.net, src, Sessions.Connect(s.net[src].connects, call.c, call.dst, call.e, owner(call.c)))
    case Drop(c) => SetConnects(s.net, Home(owner, c), s.net[Home(owner, c)].connects - {c})
    case Die(c) => SetConnects(s.net, Home(owner, c), DropCaller(s.net[Home(owner, c)].connects, owner(c)))
    case Break(_, _) => s.net
    case Deliver(m) => Arrived(s.net, m)
  }

  ghost function Next(s: State, owner: Owners, step: Step): (r: State)
    requires Enabled(s, owner, step)
    ensures r.net.Keys == s.net.Keys
  {
    State(NetAfter(s, owner, step), CallsAfter(s, step),
          (if step.Deliver? then s.messages - multiset{step.m} else s.messages) + Posted(s, owner, step))
  }

  // ----- the history of one connect object c and one device d -----

  predicate Begins(step: Step, c: Remote, d: DeviceId) { step.Begin? && step.call.c == c && step.call.dst == d }

  predicate Records(step: Step, c: Remote, d: DeviceId) { step.Record? && step.call.c == c && step.call.dst == d }

  /** Steps after which the caller has no session with d. */
  predicate Drops(step: Step, owner: Owners, c: Remote, d: DeviceId)
  {
    match step
    case Drop(x) => x == c
    case Die(x) => owner(x).IsSameCaller(owner(c))
    case Deliver(m) => m == Lost(Home(owner, c), d)
    case _ => false
  }

  predicate CutsPair(m: Message, owner: Owners, c: Remote, d: DeviceId)
  {
    match m
    case Released(dst, x) => dst == d && x == c
    case Died(dst, caller) => dst == d && caller.IsSameCaller(owner(c))
    case Lost(at, peer) => at == d && peer == Home(owner, c)
  }

  /** Steps after which d has no entry for the connect. */
  predicate Cuts(step: Step, owner: Owners, c: Remote, d: DeviceId)
  {
    step.Deliver? && CutsPair(step.m, owner, c, d)
  }

  /** A call was recorded, and the caller has not dropped the session since. */
  predicate Recorded(steps: seq<Step>, owner: Owners, c: Remote, d: DeviceId)
  {
    if steps == [] then false else
    var last := steps[|steps| - 1];
    Records(last, c, d) || (!Drops(last, owner, c, d) && Recorded(steps[..|steps| - 1], owner, c, d))
  }

  /** The device accepted a call, and nothing has cut its entry since. */
  predicate Uncut(steps: seq<Step>, owner: Owners, c: Remote, d: DeviceId)
  {
    if steps == [] then false else
    var last := steps[|steps| - 1];
    Begins(last, c, d) || (!Cuts(last, owner, c, d) && Uncut(steps[..|steps| - 1], owner, c, d))
  }

  /** After its last acceptance the entry was cut, yet the call is recorded and not dropped. */
  predicate Torn(steps: seq<Step>, owner: Owners, c: Remote, d: DeviceId)
  {
    Recorded(steps, owner, c, d) && !Uncut(steps, owner, c, d)
  }

  /** The call is dropped or was never recorded, yet after its last acceptance the entry was not cut. */
  predicate Stray(steps: seq<Step>, owner: Owners, c: Remote, d: DeviceId)
  {
    !Recorded(steps, owner, c, d) && Uncut(steps, owner, c, d)
  }

  /** Both devices have handled every loss of the link between them. */
  predicate Up(s: State, a: DeviceId, b: DeviceId)
  {
    Lost(a, b) !in s.messages && Lost(b, a) !in s.messages
  }

  /** Two devices are connected over a link, and a link breaks, only while it is up. */
  predicate InOrder(s: State, owner: Owners, step: Step)
  {
    match step
    case Begin(call) => Up(s, Home(owner, call.c), call.dst)
    case Break(a, b) => Up(s, a, b)
    case _ => true
  }

  // ----- what every step keeps -----

  predicate Routed(net: Net, owner: Owners, c: Remote, d: DeviceId)
    requires Pair(net, owner, c, d)
  {
    HasRoute(net[Home(owner, c)].connects, c, d)
  }

  predicate Entered(net: Net, c: Remote, d: DeviceId)
    requires d in net
  {
    c in net[d].callees
  }

  ghost predicate DevicesOk(net: Net, owner: Owners)
  {
    forall d <- net :: DeviceOk(net[d], owner, d, net.Keys)
  }

  ghost predicate CallsOk(s: State, owner: Owners)
  {
    forall call <- s.calls ::
      Pair(s.net, owner, call.c, call.dst) && call.c != NULL && LocalCaller(owner(call.c), Home(owner, call.c))
  }

  ghost predicate Calling(s: State, c: Remote, d: DeviceId)
  {
    exists call <- s.calls :: call.c == c && call.dst == d
  }

  ghost predicate CutComing(s: State, owner: Owners, c: Remote, d: DeviceId)
  {
    exists m <- s.messages :: CutsPair(m, owner, c, d)
  }

  /** An entry has a session, a call in flight, or a message on its way that will cut it. */
  ghost predicate Covered(s: State, owner: Owners, c: Remote, d: DeviceId)
    requires Pair(s.net, owner, c, d)
  {
    Entered(s.net, c, d) ==> Routed(s.net, owner, c, d) || Calling(s, c, d) || CutComing(s, owner, c, d)
  }

  /** If only the device has handled the loss of the link, it has no entry. */
  ghost predicate HalfDown(s: State, owner: Owners, c: Remote, d: DeviceId)
    requires Pair(s.net, owner, c, d)
  {
    Lost(Home(owner, c), d) in s.messages && Lost(d, Home(owner, c)) !in s.messages ==> !Entered(s.net, c, d)
  }

  ghost predicate PairOk(s: State, owner: Owners, c: Remote, d: DeviceId)
    requires Pair(s.net, owner, c, d)
  {
    Covered(s, owner, c, d) && HalfDown(s, owner, c, d)
  }

  ghost predicate Inv(s: State, owner: Owners)
  {
    DevicesOk(s.net, owner) && CallsOk(s, owner)
  }

  ghost predicate Settled(s: State, owner: Owners)
  {
    forall c, d :: Pair(s.net, owner, c, d) ==> PairOk(s, owner, c, d)
  }

  /** The two facts about one pair after a step. */
  ghost predicate StepsTo(s: State, owner: Owners, step: Step, s': State, c: Remote, d: DeviceId)
    requires Pair(s.net, owner, c, d) && s'.net.Keys == s.net.Keys
  {
    && (Routed(s'.net, owner, c, d) <==> Records(step, c, d) || (Routed(s.net, owner, c, d) && !Drops(step, owner, c, d)))
    && (Entered(s'.net, c, d) <==> Begins(step, c, d) || (Entered(s.net, c, d) && !Cuts(step, owner, c, d)))
  }

  lemma BeginPair(s: State, owner: Owners, step: Step, c: Remote, d: DeviceId)
    requires Inv(s, owner) && Enabled(s, owner, step) && step.Begin? && Pair(s.net, owner, c, d)
    ensures StepsTo(s, owner, step, Next(s, owner, step), c, d)
  {
  }

  lemma RecordPair(s: State, owner: Owners, step: Step, c: Remote, d: DeviceId)
    requires Inv(s, owner) && Enabled(s, owner, step) && step.Record? && Pair(s.net, owner, c, d)
    ensures StepsTo(s, owner, step, Next(s, owner, step), c, d)
  {
    var call, src := step.call, Home(owner, step.call.c);
    assert DeviceOk(s.net[src], owner, src, s.net.Keys) && DeviceOk(s.net[call.dst], owner, call.dst, s.net.Keys);
    ConnectExact(s.net[src].connects, call.c, call.dst, call.e, owner(call.c), owner);
  }

  lemma DropPair(s: State, owner: Owners, step: Step, c: Remote, d: DeviceId)
    requires Inv(s, owner) && Enabled(s, owner, step) && step.Drop? && Pair(s.net, owner, c, d)
    ensures StepsTo(s, owner, step, Next(s, owner, step), c, d)
  {
  }

  lemma DropCallerRoute(t: Table, owner: Owners, x: Remote, c: Remote, d: DeviceId)
    requires TableOk(t, owner)
    ensures HasRoute(DropCaller(t, owner(x)), c, d) <==> HasRoute(t, c, d) && !owner(x).IsSameCaller(owner(c))
  {
    if c in t {
      assert t[c][0].caller == owner(c);
    }
  }

  lemma DiePair(s: State, owner: Owners, step: Step, c: Remote, d: DeviceId)
    requires Inv(s, owner) && Enabled(s, owner, step) && step.Die? && Pair(s.net, owner, c, d)
    ensures StepsTo(s, owner, step, Next(s, owner, step), c, d)
  {
    var src := Home(owner, c);
    assert TableOk(s.net[src].connects, owner) by { assert DeviceOk(s.net[src], owner, src, s.net.Keys); }
    DropCallerRoute(s.net[src].connects, owner, step.c, c, d);
    hide Inv, Posted, HasRoute, DropCaller, TableOk;
  }

  /** A message takes away the sessions to the lost peer, and no other. */
  lemma HandledRoute(device: Device, m: Message, owner: Owners, c: Remote, d: DeviceId)
    requires TableOk(device.connects, owner)
    ensures HasRoute(Handled(device, m).connects, c, d) <==> HasRoute(device.connects, c, d) && !(m.Lost? && d == m.peer)
  {
    if m.Lost? {
      DropDeviceExact(device.connects, m.peer, owner);
    }
  }

  /** A message takes away the entries that it is about. */
  lemma HandledEntry(device: Device, m: Message, owner: Owners, c: Remote)
    requires c in device.callees ==> device.callees[c].caller == Wire(owner(c))
    ensures c in Handled(device, m).callees <==>
            c in device.callees && !(match m
                                     case Released(_, x) => x == c
                                     case Died(_, caller) => caller.IsSameCaller(owner(c))
                                     case Lost(_, peer) => peer == Home(owner, c))
  {
  }

  lemma DeliverRouted(net: Net, owner: Owners, m: Message, c: Remote, d: DeviceId)
    requires DevicesOk(net, owner) && Pair(net, owner, c, d)
    ensures Routed(Arrived(net, m), owner, c, d) <==> Routed(net, owner, c, d) && !Drops(Deliver(m), owner, c, d)
  {
    var src := Home(owner, c);
    assert TableOk(net[src].connects, owner) by { assert DeviceOk(net[src], owner, src, net.Keys); }
    HandledRoute(net[src], m, owner, c, d);
    ArrivedAt(net, m, src);
    hide DevicesOk, TableOk, HasRoute, Handled, Arrived;
  }

  lemma DeliverEntered(net: Net, owner: Owners, m: Message, c: Remote, d: DeviceId)
    requires DevicesOk(net, owner) && Pair(net, owner, c, d)
    ensures Entered(Arrived(net, m), c, d) <==> Entered(net, c, d) && !Cuts(Deliver(m), owner, c, d)
  {
    assert c in net[d].callees ==> net[d].callees[c].caller == Wire(owner(c)) by {
      assert DeviceOk(net[d], owner, d, net.Keys);
    }
    HandledEntry(net[d], m, owner, c);
    ArrivedAt(net, m, d);
    hide DevicesOk, Handled, Arrived;
  }

  lemma DeliverPair(s: State, owner: Owners, step: Step, c: Remote, d: DeviceId)
    requires Inv(s, owner) && Enabled(s, owner, step) && step.Deliver? && Pair(s.net, owner, c, d)
    ensures StepsTo(s, owner, step, Next(s, owner, step), c, d)
  {
    DeliverRouted(s.net, owner, step.m, c, d);
    DeliverEntered(s.net, owner, step.m, c, d);
    hide Routed, Entered, Drops, Cuts, Arrived, Posted;
  }

  lemma ArrivedAt(net: Net, m: Message, d: DeviceId)
    requires d in net
    ensures Arrived(net, m)[d] == if d == Addressee(m) then Handled(net[d], m) else net[d]
  {
  }

  lemma NextPair(s: State, owner: Owners, step: Step, c: Remote, d: DeviceId)
    requires Inv(s, owner) && Enabled(s, owner, step) && Pair(s.net, owner, c, d)
    ensures Next(s, owner, step).net.Keys == s.net.Keys && StepsTo(s, owner, step, Next(s, owner, step), c, d)
  {
    hide Inv, Enabled, StepsTo, Next;
    match step
    case Begin(_) => BeginPair(s, owner, step, c, d);
    case Record(_) => RecordPair(s, owner, step, c, d);
    case Drop(_) => DropPair(s, owner, step, c, d);
    case Die(_) => DiePair(s, owner, step, c, d);
    case Break(_, _) => BreakPair(s, owner, step, c, d);
    case Deliver(_) => DeliverPair(s, owner, step, c, d);
  }

  lemma BreakPair(s: State, owner: Owners, step: Step, c: Remote, d: DeviceId)
    requires Inv(s, owner) && Enabled(s, owner, step) && step.Break? && Pair(s.net, owner, c, d)
    ensures StepsTo(s, owner, step, Next(s, owner, step), c, d)
  {
  }

  lemma RecordedDevice(s: State, owner: Owners, call: Call, d: DeviceId)
    requires Inv(s, owner) && Enabled(s, owner, Record(call)) && d in s.net
    ensures DeviceOk(NetAfter(s, owner, Record(call))[d], owner, d, s.net.Keys)
  {
    var src := Home(owner, call.c);
    assert DeviceOk(s.net[d], owner, d, s.net.Keys);
    assert DeviceOk(s.net[src], owner, src, s.net.Keys) && DeviceOk(s.net[call.dst], owner, call.dst, s.net.Keys);
    ConnectExact(s.net[src].connects, call.c, call.dst, call.e, owner(call.c), owner);
    ConnectedExact(SessionsOf(s.net[src].connects, call.c), call.dst, call.e, owner(call.c));
    hide Sessions.Connect, DevicesOk;
  }

  lemma HandledOk(device: Device, m: Message, owner: Owners, d: DeviceId, all: set<DeviceId>)
    requires DeviceOk(device, owner, d, all)
    ensures DeviceOk(Handled(device, m), owner, d, all)
  {
    if m.Lost? {
      OfflineOk(device, owner, d, m.peer, all);
    }
  }

  lemma BegunDevice(s: State, owner: Owners, call: Call, d: DeviceId)
    requires Inv(s, owner) && Enabled(s, owner, Begin(call)) && d in s.net
    ensures DeviceOk(NetAfter(s, owner, Begin(call))[d], owner, d, s.net.Keys)
  {
    assert DeviceOk(s.net[d], owner, d, s.net.Keys);
    hide Inv, CallerSideOk;
  }

  lemma DeliveredDevice(s: State, owner: Owners, m: Message, d: DeviceId)
    requires Inv(s, owner) && Enabled(s, owner, Deliver(m)) && d in s.net
    ensures DeviceOk(NetAfter(s, owner, Deliver(m))[d], owner, d, s.net.Keys)
  {
    assert DeviceOk(s.net[d], owner, d, s.net.Keys);
    HandledOk(s.net[d], m, owner, d, s.net.Keys);
    hide Inv, Handled, DeviceOk;
  }

  lemma DevicesStay(s: State, owner: Owners, step: Step, d: DeviceId)
    requires Inv(s, owner) && Enabled(s, owner, step) && d in s.net
    ensures DeviceOk(NetAfter(s, owner, step)[d], owner, d, s.net.Keys)
  {
    assert DeviceOk(s.net[d], owner, d, s.net.Keys);
    hide Inv;
    match step
    case Begin(call) =>
      hide NetAfter;
      BegunDevice(s, owner, call, d);
    case Record(call) =>
      hide NetAfter;
      RecordedDevice(s, owner, call, d);
    case Deliver(m) =>
      hide NetAfter;
      DeliveredDevice(s, owner, m, d);
    case Drop(c) =>
      ErasedOk(s.net[d], s.net[d].connects - {c}, owner, d, s.net.Keys);
      hide DeviceOk;
    case Die(c) =>
      ErasedOk(s.net[d], DropCaller(s.net[d].connects, owner(c)), owner, d, s.net.Keys);
      hide DeviceOk;
    case Break(_, _) =>
  }

  lemma ErasedOk(device: Device, t: Table, owner: Owners, d: DeviceId, all: set<DeviceId>)
    requires DeviceOk(device, owner, d, all) && t.Keys <= device.connects.Keys
    requires forall c <- t :: t[c] == device.connects[c]
    ensures DeviceOk(device.(connects := t), owner, d, all)
  {
  }

  lemma CallsStay(s: State, owner: Owners, step: Step)
    requires Inv(s, owner) && Enabled(s, owner, step)
    ensures CallsOk(Next(s, owner, step), owner)
  {
    hide NetAfter, Posted, DevicesOk;
    var s' := Next(s, owner, step);
    forall call <- s'.calls ensures call in s.calls || step == Begin(call) {
    }
  }

  lemma ReleaseComes(s: State, owner: Owners, c: Remote, d: DeviceId)
    requires Enabled(s, owner, Drop(c)) && Pair(s.net, owner, c, d) && Routed(s.net, owner, c, d)
    ensures Released(d, c) in Posted(s, owner, Drop(c))
  {
  }

  lemma NoticeComes(s: State, owner: Owners, x: Remote, c: Remote, d: DeviceId)
    requires DevicesOk(s.net, owner) && Enabled(s, owner, Die(x)) && Pair(s.net, owner, c, d)
    requires Routed(s.net, owner, c, d) && owner(x).IsSameCaller(owner(c))
    ensures Died(d, owner(x)) in Posted(s, owner, Die(x))
  {
    var src := Home(owner, c);
    var t: Table := s.net[src].connects;
    assert DeviceOk(s.net[src], owner, src, s.net.Keys);
    assert t[c][0].caller == owner(c);
    var front: CallerInfo := Front(t[c]);
    assert front.IsSameCaller(owner(x)) && d in Targets(t[c]);
  }

  /** A session that the caller drops leaves a message behind that will cut the entry. */
  lemma DroppedIsCut(s: State, owner: Owners, step: Step, c: Remote, d: DeviceId)
    requires Inv(s, owner) && Settled(s, owner) && Enabled(s, owner, step) && Pair(s.net, owner, c, d)
    requires Routed(s.net, owner, c, d) && Entered(s.net, c, d) && Drops(step, owner, c, d)
    ensures CutComing(Next(s, owner, step), owner, c, d)
  {
    assert PairOk(s, owner, c, d);
    match step
    case Drop(_) =>
      ReleaseComes(s, owner, c, d);
      Coming(s, owner, step, Released(d, c), c, d);
    case Die(x) =>
      NoticeComes(s, owner, x, c, d);
      Coming(s, owner, step, Died(d, owner(x)), c, d);
    case Deliver(_) =>
      Coming(s, owner, step, Lost(d, Home(owner, c)), c, d);
  }

  /** A message that is posted, or waits while another one arrives, is on its way after the step. */
  lemma Coming(s: State, owner: Owners, step: Step, m: Message, c: Remote, d: DeviceId)
    requires Enabled(s, owner, step) && CutsPair(m, owner, c, d)
    requires m in Posted(s, owner, step) || (m in s.messages && step != Deliver(m))
    ensures CutComing(Next(s, owner, step), owner, c, d)
  {
    hide NetAfter, Posted, Enabled;
    assert m in Next(s, owner, step).messages;
  }

  lemma CoveredStays(s: State, owner: Owners, step: Step, c: Remote, d: DeviceId)
    requires Inv(s, owner) && Settled(s, owner) && Enabled(s, owner, step) && Pair(s.net, owner, c, d)
    requires StepsTo(s, owner, step, Next(s, owner, step), c, d)
    ensures Covered(Next(s, owner, step), owner, c, d)
  {
    hide NetAfter, Posted, DevicesOk, CallsOk, HalfDown, HasRoute, CutsPair;
    var s' := Next(s, owner, step);
    assert Covered(s, owner, c, d) by { assert PairOk(s, owner, c, d); }
    if Entered(s'.net, c, d) {
      if Begins(step, c, d) {
        assert step.call in s'.calls;
      } else if Routed(s.net, owner, c, d) {
        if Drops(step, owner, c, d) {
          DroppedIsCut(s, owner, step, c, d);
        }
      } else if call: Call :| call in s.calls && call.c == c && call.dst == d && !Routed(s'.net, owner, c, d) {
        assert call in s'.calls;
      } else if m: Message :| m in s.messages && CutsPair(m, owner, c, d) {
        assert m in s'.messages;
      }
    }
  }

  lemma NoOtherLoss(s: State, owner: Owners, step: Step, a: DeviceId, b: DeviceId)
    requires Enabled(s, owner, step)
    ensures Lost(a, b) in Posted(s, owner, step) <==> step == Break(a, b) || step == Break(b, a)
  {
  }

  lemma HalfDownStays(s: State, owner: Owners, step: Step, c: Remote, d: DeviceId)
    requires Inv(s, owner) && Settled(s, owner) && Enabled(s, owner, step) && Pair(s.net, owner, c, d)
    requires StepsTo(s, owner, step, Next(s, owner, step), c, d) && InOrder(s, owner, step)
    ensures HalfDown(Next(s, owner, step), owner, c, d)
  {
    NoOtherLoss(s, owner, step, d, Home(owner, c));
    NoOtherLoss(s, owner, step, Home(owner, c), d);
    hide NetAfter, CallsOk, DevicesOk, Covered, Posted;
    var s' := Next(s, owner, step);
    assert HalfDown(s, owner, c, d) by { assert PairOk(s, owner, c, d); }
  }

  /** The invariant holds after every step of every interleaving. */
  lemma StepKeeps(s: State, owner: Owners, step: Step)
    requires Inv(s, owner) && Enabled(s, owner, step)
    ensures Inv(Next(s, owner, step), owner)
  {
    var s' := Next(s, owner, step);
    CallsStay(s, owner, step);
    forall d <- s'.net ensures DeviceOk(s'.net[d], owner, d, s'.net.Keys) {
      DevicesStay(s, owner, step, d);
    }
  }

  lemma SettledStep(s: State, owner: Owners, step: Step)
    requires Inv(s, owner) && Settled(s, owner) && Enabled(s, owner, step) && InOrder(s, owner, step)
    ensures Settled(Next(s, owner, step), owner)
  {
    var s' := Next(s, owner, step);
    hide Inv, DeviceOk, Enabled;
    forall c, d | Pair(s'.net, owner, c, d) ensures PairOk(s', owner, c, d) {
      NextPair(s, owner, step, c, d);
      CoveredStays(s, owner, step, c, d);
      HalfDownStays(s, owner, step, c, d);
    }
  }

  // ----- runs -----

  function Start(devices: set<DeviceId>): State { State(Idle(devices), multiset{}, multiset{}) }

  ghost predicate IsRun(devices: set<DeviceId>, owner: Owners, states: seq<State>, steps: seq<Step>)
  {
    && |states| == |steps| + 1 && states[0] == Start(devices) && "" !in devices
    && forall i :: 0 <= i < |steps| ==>
       Enabled(states[i], owner, steps[i]) && states[i + 1] == Next(states[i], owner, steps[i])
  }

  /** The tables say of each pair what its history says. */
  ghost predicate Reflects(s: State, owner: Owners, steps: seq<Step>)
  {
    forall c, d :: Pair(s.net, owner, c, d) ==>
      && (Routed(s.net, owner, c, d) <==> Recorded(steps, owner, c, d))
      && (Entered(s.net, c, d) <==> Uncut(steps, owner, c, d))
  }

  lemma ReflectsStep(s: State, owner: Owners, steps: seq<Step>, step: Step)
    requires Inv(s, owner) && Reflects(s, owner, steps) && Enabled(s, owner, step)
    ensures Reflects(Next(s, owner, step), owner, steps + [step])
  {
    var s' := Next(s, owner, step);
    hide Next, Inv, Enabled, Routed, Entered, Recorded, Uncut;
    forall c, d | Pair(s'.net, owner, c, d)
      ensures Routed(s'.net, owner, c, d) <==> Recorded(steps + [step], owner, c, d)
      ensures Entered(s'.net, c, d) <==> Uncut(steps + [step], owner, c, d)
    {
      ReflectsPair(s, owner, steps, step, c, d);
    }
  }

  lemma ReflectsPair(s: State, owner: Owners, steps: seq<Step>, step: Step, c: Remote, d: DeviceId)
    requires Inv(s, owner) && Enabled(s, owner, step) && Pair(s.net, owner, c, d)
    requires Routed(s.net, owner, c, d) <==> Recorded(steps, owner, c, d)
    requires Entered(s.net, c, d) <==> Uncut(steps, owner, c, d)
    ensures Routed(Next(s, owner, step).net, owner, c, d) <==> Recorded(steps + [step], owner, c, d)
    ensures Entered(Next(s, owner, step).net, c, d) <==> Uncut(steps + [step], owner, c, d)
  {
    hide Inv, Enabled, Next, Records, Begins, Drops, Cuts, Routed, Entered, Recorded, Uncut;
    NextPair(s, owner, step, c, d);
    HistoryStep(steps, owner, step, c, d);
  }

  lemma HistoryStep(steps: seq<Step>, owner: Owners, step: Step, c: Remote, d: DeviceId)
    ensures Recorded(steps + [step], owner, c, d) <==>
            Records(step, c, d) || (!Drops(step, owner, c, d) && Recorded(steps, owner, c, d))
    ensures Uncut(steps + [step], owner, c, d) <==>
            Begins(step, c, d) || (!Cuts(step, owner, c, d) && Uncut(steps, owner, c, d))
  {
    assert (steps + [step])[..|steps|] == steps;
  }

  lemma StartOk(devices: set<DeviceId>, owner: Owners)
    requires "" !in devices
    ensures Inv(Start(devices), owner) && Reflects(Start(devices), owner, [])
  {
  }

  lemma {:induction false} RunKeeps(devices: set<DeviceId>, owner: Owners, states: seq<State>, steps: seq<Step>, i: nat)
    requires IsRun(devices, owner, states, steps) && i < |states|
    ensures Inv(states[i], owner) && Reflects(states[i], owner, steps[..i])
  {
    hide Inv, Enabled, Next, Reflects;
    if i == 0 {
      StartOk(devices, owner);
    } else {
      RunKeeps(devices, owner, states, steps, i - 1);
      StepKeeps(states[i - 1], owner, steps[i - 1]);
      ReflectsStep(states[i - 1], owner, steps[..i - 1], steps[i - 1]);
      assert steps[..i - 1] + [steps[i - 1]] == steps[..i];
    }
  }

  ghost predicate Orderly(owner: Owners, states: seq<State>, steps: seq<Step>)
    requires |states| > |steps|
  {
    forall i :: 0 <= i < |steps| ==> InOrder(states[i], owner, steps[i])
  }

  lemma {:induction false} OrderlySettles(devices: set<DeviceId>, owner: Owners, states: seq<State>, steps: seq<Step>,
                                          i: nat)
    requires IsRun(devices, owner, states, steps) && Orderly(owner, states, steps) && i < |states|
    ensures Settled(states[i], owner)
  {
    hide Inv, Enabled, Next, Settled, InOrder;
    if i == 0 {
      StartSettled(devices, owner);
    } else {
      OrderlySettles(devices, owner, states, steps, i - 1);
      RunKeeps(devices, owner, states, steps, i - 1);
      SettledStep(states[i - 1], owner, steps[i - 1]);
    }
  }

  lemma StartSettled(devices: set<DeviceId>, owner: Owners)
    ensures Settled(Start(devices), owner)
  {
  }

  /** In every state of every interleaving, the tables of the two ends differ about a connect exactly if its history is
      torn or stray. If links are handled in order, a stray entry has a call or a cutting message in flight. */
  lemma DifferExactly(devices: set<DeviceId>, owner: Owners, states: seq<State>, steps: seq<Step>, i: nat,
                      c: Remote, d: DeviceId)
    requires IsRun(devices, owner, states, steps) && i < |states| && Pair(states[i].net, owner, c, d)
    ensures var s := states[i];
            && (Routed(s.net, owner, c, d) && !Entered(s.net, c, d) <==> Torn(steps[..i], owner, c, d))
            && (Entered(s.net, c, d) && !Routed(s.net, owner, c, d) <==> Stray(steps[..i], owner, c, d))
            && (Orderly(owner, states, steps) && Stray(steps[..i], owner, c, d) ==>
                  Calling(s, c, d) || CutComing(s, owner, c, d))
  {
    RunKeeps(devices, owner, states, steps, i);
    if Orderly(owner, states, steps) {
      OrderlySettles(devices, owner, states, steps, i);
      assert PairOk(states[i], owner, c, d);
    }
  }

  predicate Quiet(s: State)
  {
    s.calls == multiset{} && s.messages == multiset{}
  }

  lemma PairMirrored(s: State, owner: Owners, c: Remote, d: DeviceId)
    requires Inv(s, owner) && Pair(s.net, owner, c, d)
    ensures Mirrored(s.net, Home(owner, c), d, c) <==> (Routed(s.net, owner, c, d) <==> Entered(s.net, c, d))
  {
    assert DeviceOk(s.net[d], owner, d, s.net.Keys);
  }

  lemma ElsewhereMirrored(s: State, owner: Owners, c: Remote, src: DeviceId, d: DeviceId)
    requires Inv(s, owner) && src in s.net && d in s.net && src != Home(owner, c)
    ensures Mirrored(s.net, src, d, c)
  {
    assert DeviceOk(s.net[src], owner, src, s.net.Keys) && DeviceOk(s.net[d], owner, d, s.net.Keys);
  }

  /** In every state, both ends of every connection agree if and only if no history is torn or stray. */
  lemma MirrorExactly(devices: set<DeviceId>, owner: Owners, states: seq<State>, steps: seq<Step>, i: nat)
    requires IsRun(devices, owner, states, steps) && i < |states|
    ensures Mirror(states[i].net) <==>
            forall c, d :: Pair(states[i].net, owner, c, d) ==>
                           !Torn(steps[..i], owner, c, d) && !Stray(steps[..i], owner, c, d)
  {
    var s := states[i];
    RunKeeps(devices, owner, states, steps, i);
    forall c, d | Pair(s.net, owner, c, d)
      ensures Mirrored(s.net, Home(owner, c), d, c) <==>
              !Torn(steps[..i], owner, c, d) && !Stray(steps[..i], owner, c, d)
    {
      DifferExactly(devices, owner, states, steps, i, c, d);
      PairMirrored(s, owner, c, d);
    }
    hide Mirrored, Torn, Stray, Inv, IsRun;
    forall src, d, c | src in s.net && d in s.net && src != d
      ensures Mirrored(s.net, src, d, c) <==>
              (src == Home(owner, c) ==> !Torn(steps[..i], owner, c, d) && !Stray(steps[..i], owner, c, d))
    {
      if src != Home(owner, c) {
        ElsewhereMirrored(s, owner, c, src, d);
      }
    }
  }

  /** If links are handled in order and nothing is in flight, both ends of every connection agree if and only if no call
      that is recorded had its entry cut after its acceptance: by the loss of the link, the death of its caller, or a
      disconnect of its connect. */
  lemma QuietMeansExact(devices: set<DeviceId>, owner: Owners, states: seq<State>, steps: seq<Step>, i: nat)
    requires IsRun(devices, owner, states, steps) && Orderly(owner, states, steps) && i < |states| && Quiet(states[i])
    ensures Mirror(states[i].net) <==>
            forall c, d :: Pair(states[i].net, owner, c, d) ==> !Torn(steps[..i], owner, c, d)
  {
    MirrorExactly(devices, owner, states, steps, i);
    hide Torn, Stray, IsRun, Orderly;
    forall c, d | Pair(states[i].net, owner, c, d) ensures !Stray(steps[..i], owner, c, d) {
      DifferExactly(devices, owner, states, steps, i, c, d);
    }
  }

  /** A cut between acceptance and record tears the pair, whatever cuts and whatever went before. */
  lemma CutInFlightTears(steps: seq<Step>, owner: Owners, call: Call, cut: Step)
    requires Cuts(cut, owner, call.c, call.dst)
    ensures Torn(steps + [cut, Record(call)], owner, call.c, call.dst)
  {
    var all := steps + [cut, Record(call)];
    assert all[..|all| - 1] == steps + [cut] && (steps + [cut])[..|steps|] == steps;
  }

  // ----- when nothing is torn -----

  /** No message cuts an entry while a call for the pair is in flight, or while the caller has a session that it is not
      about to drop. */
  ghost predicate Calm(owner: Owners, states: seq<State>, steps: seq<Step>)
    requires |states| > |steps|
  {
    forall i, c, d :: 0 <= i < |steps| && Pair(states[i].net, owner, c, d) && Cuts(steps[i], owner, c, d) ==>
      && !Calling(states[i], c, d)
      && (Routed(states[i].net, owner, c, d) ==> Lost(Home(owner, c), d) in states[i].messages)
  }

  /** A call in flight has its entry, and a session without entry is about to be dropped. */
  ghost predicate CalmPair(s: State, owner: Owners, c: Remote, d: DeviceId)
    requires Pair(s.net, owner, c, d)
  {
    && (Calling(s, c, d) ==> Entered(s.net, c, d))
    && (Routed(s.net, owner, c, d) && !Entered(s.net, c, d) ==> Lost(Home(owner, c), d) in s.messages)
  }

  lemma CalmStep(s: State, owner: Owners, step: Step, c: Remote, d: DeviceId)
    requires Inv(s, owner) && Enabled(s, owner, step) && Pair(s.net, owner, c, d) && CalmPair(s, owner, c, d)
    requires Cuts(step, owner, c, d) ==>
               !Calling(s, c, d) && (Routed(s.net, owner, c, d) ==> Lost(Home(owner, c), d) in s.messages)
    ensures CalmPair(Next(s, owner, step), owner, c, d)
  {
    NextPair(s, owner, step, c, d);
    CallingStep(s, owner, step, c, d);
    if Lost(Home(owner, c), d) in s.messages {
      LossStays(s, owner, step, c, d);
    }
    hide Next, Enabled, Inv, Routed, Entered, Calling;
  }

  /** A call in flight was so before the step, or begins with it; and a recorded one was in flight. */
  lemma CallingStep(s: State, owner: Owners, step: Step, c: Remote, d: DeviceId)
    requires Enabled(s, owner, step)
    ensures Calling(Next(s, owner, step), c, d) ==> Calling(s, c, d) || Begins(step, c, d)
    ensures Records(step, c, d) ==> Calling(s, c, d)
  {
    hide NetAfter, Posted;
    var s' := Next(s, owner, step);
    if call: Call :| call in s'.calls && call.c == c && call.dst == d {
      assert call in s.calls || step == Begin(call);
    }
  }

  /** A loss on its way to the caller stays so until it arrives, and then the session is dropped. */
  lemma LossStays(s: State, owner: Owners, step: Step, c: Remote, d: DeviceId)
    requires Enabled(s, owner, step) && Lost(Home(owner, c), d) in s.messages
    ensures Lost(Home(owner, c), d) in Next(s, owner, step).messages || Drops(step, owner, c, d)
  {
    hide NetAfter, Posted;
  }

  lemma {:induction false} CalmKeeps(devices: set<DeviceId>, owner: Owners, states: seq<State>, steps: seq<Step>, i: nat,
                                     c: Remote, d: DeviceId)
    requires IsRun(devices, owner, states, steps) && Calm(owner, states, steps) && i < |states|
    requires Pair(states[i].net, owner, c, d)
    ensures CalmPair(states[i], owner, c, d)
  {
    hide Inv, Enabled, Next, CalmPair;
    if i == 0 {
      CalmStart(devices, owner, c, d);
    } else {
      CalmKeeps(devices, owner, states, steps, i - 1, c, d);
      RunKeeps(devices, owner, states, steps, i - 1);
      CalmStep(states[i - 1], owner, steps[i - 1], c, d);
    }
  }

  lemma CalmStart(devices: set<DeviceId>, owner: Owners, c: Remote, d: DeviceId)
    requires Pair(Start(devices).net, owner, c, d)
    ensures CalmPair(Start(devices), owner, c, d)
  {
  }

  /** In an orderly and calm run both ends agree whenever nothing is in flight. */
  lemma CalmMirrors(devices: set<DeviceId>, owner: Owners, states: seq<State>, steps: seq<Step>, i: nat)
    requires IsRun(devices, owner, states, steps) && Orderly(owner, states, steps) && Calm(owner, states, steps)
    requires i < |states| && Quiet(states[i])
    ensures Mirror(states[i].net)
  {
    QuietMeansExact(devices, owner, states, steps, i);
    forall c, d | Pair(states[i].net, owner, c, d) ensures !Torn(steps[..i], owner, c, d) {
      CalmKeeps(devices, owner, states, steps, i, c, d);
      DifferExactly(devices, owner, states, steps, i, c, d);
    }
  }

  // ----- the three ways to tear a pair -----

  /** A run that ends in s; if asked for, one that handles links in order. */
  ghost predicate Runs(devices: set<DeviceId>, owner: Owners, orderly: bool, steps: seq<Step>, s: State)
  {
    exists states :: IsRun(devices, owner, states, steps) && (orderly ==> Orderly(owner, states, steps)) &&
                     states[|steps|] == s
  }

  lemma Extend(devices: set<DeviceId>, owner: Owners, orderly: bool, steps: seq<Step>, s: State, step: Step)
    requires Runs(devices, owner, orderly, steps, s) && Enabled(s, owner, step) && (orderly ==> InOrder(s, owner, step))
    ensures Runs(devices, owner, orderly, steps + [step], Next(s, owner, step))
  {
    hide Enabled, Next, InOrder;
    var states :| IsRun(devices, owner, states, steps) && (orderly ==> Orderly(owner, states, steps)) &&
                  states[|steps|] == s;
    var states', steps' := states + [Next(s, owner, step)], steps + [step];
    forall i | 0 <= i < |steps'|
      ensures Enabled(states'[i], owner, steps'[i]) && states'[i + 1] == Next(states'[i], owner, steps'[i])
      ensures orderly ==> InOrder(states'[i], owner, steps'[i])
    {
      if i < |steps| {
        assert states'[i] == states[i] && states'[i + 1] == states[i + 1] && steps'[i] == steps[i];
      }
    }
    assert IsRun(devices, owner, states', steps') && states'[|steps'|] == Next(s, owner, step);
  }

  lemma RunsKeep(devices: set<DeviceId>, owner: Owners, orderly: bool, steps: seq<Step>, s: State)
    requires Runs(devices, owner, orderly, steps, s)
    ensures Inv(s, owner) && Reflects(s, owner, steps)
  {
    hide Inv, Reflects;
    var states :| IsRun(devices, owner, states, steps) && states[|steps|] == s;
    RunKeeps(devices, owner, states, steps, |steps|);
    assert steps[..|steps|] == steps;
  }

  const AB: set<DeviceId> := {"a", "b"}

  function CallB(c: Remote): Call { Call(c, "b", Element("b", "bundle", "ability")) }

  /** One caller on device a owns every connect object. */
  ghost predicate Sole(owner: Owners, caller: CallerInfo)
  {
    LocalCaller(caller, "a") && forall c :: owner(c) == caller
  }

  /** Links handled in order and nothing in flight, yet a call that is recorded had its entry cut. */
  ghost predicate TornAtRest(owner: Owners, c: Remote, steps: seq<Step>, s: State)
  {
    Runs(AB, owner, true, steps, s) && Quiet(s) && Torn(steps, owner, c, "b") && !Mirror(s.net)
  }

  lemma AtRest(owner: Owners, caller: CallerInfo, c: Remote, steps: seq<Step>, s: State)
    requires Sole(owner, caller) && Runs(AB, owner, true, steps, s) && s.net.Keys == AB && Quiet(s)
    requires Torn(steps, owner, c, "b")
    ensures TornAtRest(owner, c, steps, s)
  {
    RunsKeep(AB, owner, true, steps, s);
    hide Inv, Torn, Recorded, Uncut, Runs;
    PairMirrored(s, owner, c, "b");
    assert !Mirrored(s.net, "a", "b", c) by { hide Mirrored; }
  }

  lemma Go(owner: Owners, orderly: bool, steps: seq<Step>, s: State, step: Step) returns (s': State, steps': seq<Step>)
    requires Runs(AB, owner, orderly, steps, s) && s.net.Keys == AB && Enabled(s, owner, step)
    requires orderly ==> InOrder(s, owner, step)
    ensures steps' == steps + [step] && Runs(AB, owner, orderly, steps', s') && s'.net.Keys == AB
    ensures s'.calls == CallsAfter(s, step)
    ensures s'.messages == (if step.Deliver? then s.messages - multiset{step.m} else s.messages) + Posted(s, owner, step)
  {
    hide Runs, NetAfter, Posted, Enabled;
    Extend(AB, owner, orderly, steps, s, step);
    s', steps' := Next(s, owner, step), steps + [step];
  }

  lemma GoBegin(owner: Owners, caller: CallerInfo, orderly: bool, steps: seq<Step>, s: State, c: Remote)
    returns (s': State, steps': seq<Step>)
    requires Sole(owner, caller) && Runs(AB, owner, orderly, steps, s) && s.net.Keys == AB && c != NULL
    requires orderly ==> Up(s, "a", "b")
    ensures steps' == steps + [Begin(CallB(c))] && Runs(AB, owner, orderly, steps', s') && s'.net.Keys == AB
    ensures s'.calls == s.calls + multiset{CallB(c)} && s'.messages == s.messages
  {
    hide Runs;
    s', steps' := Go(owner, orderly, steps, s, Begin(CallB(c)));
  }

  lemma GoRecord(owner: Owners, caller: CallerInfo, orderly: bool, steps: seq<Step>, s: State, c: Remote)
    returns (s': State, steps': seq<Step>)
    requires Sole(owner, caller) && Runs(AB, owner, orderly, steps, s) && s.net.Keys == AB && CallB(c) in s.calls
    ensures steps' == steps + [Record(CallB(c))] && Runs(AB, owner, orderly, steps', s') && s'.net.Keys == AB
    ensures s'.calls == s.calls - multiset{CallB(c)} && s'.messages == s.messages
  {
    hide Runs;
    s', steps' := Go(owner, orderly, steps, s, Record(CallB(c)));
  }

  lemma GoBreak(owner: Owners, orderly: bool, steps: seq<Step>, s: State) returns (s': State, steps': seq<Step>)
    requires Runs(AB, owner, orderly, steps, s) && s.net.Keys == AB && (orderly ==> Up(s, "a", "b"))
    ensures steps' == steps + [Break("a", "b")] && Runs(AB, owner, orderly, steps', s') && s'.net.Keys == AB
    ensures s'.calls == s.calls && s'.messages == s.messages + multiset{Lost("a", "b"), Lost("b", "a")}
  {
    hide Runs;
    s', steps' := Go(owner, orderly, steps, s, Break("a", "b"));
  }

  lemma GoDeliver(owner: Owners, orderly: bool, steps: seq<Step>, s: State, m: Message)
    returns (s': State, steps': seq<Step>)
    requires Runs(AB, owner, orderly, steps, s) && s.net.Keys == AB && m in s.messages
    ensures steps' == steps + [Deliver(m)] && Runs(AB, owner, orderly, steps', s') && s'.net.Keys == AB
    ensures s'.calls == s.calls && s'.messages == s.messages - multiset{m}
  {
    hide Runs;
    s', steps' := Go(owner, orderly, steps, s, Deliver(m));
  }

  lemma GoStart(owner: Owners, orderly: bool) returns (s: State, steps: seq<Step>)
    ensures steps == [] && Runs(AB, owner, orderly, steps, s) && s == Start(AB) && s.net.Keys == AB
  {
    s, steps := Start(AB), [];
    assert IsRun(AB, owner, [s], steps) && [s][|steps|] == s;
  }

  /** The last two steps of each of the three runs: a cut, then the record. */
  lemma CutAndRecord(owner: Owners, caller: CallerInfo, steps: seq<Step>, s: State, m: Message, c: Remote)
    returns (steps': seq<Step>, s': State)
    requires Sole(owner, caller) && Runs(AB, owner, true, steps, s) && s.net.Keys == AB
    requires s.calls == multiset{CallB(c)} && s.messages == multiset{m} && CutsPair(m, owner, c, "b")
    ensures TornAtRest(owner, c, steps', s')
  {
    hide Runs, Inv, TornAtRest, CutsPair;
    s', steps' := GoDeliver(owner, true, steps, s, m);
    s', steps' := GoRecord(owner, caller, true, steps', s', c);
    assert steps' == steps + [Deliver(m), Record(CallB(c))];
    CutInFlightTears(steps, owner, CallB(c), Deliver(m));
    AtRest(owner, caller, c, steps', s');
  }

  /** The link breaks between acceptance and record. */
  lemma LossTears(owner: Owners, caller: CallerInfo) returns (steps: seq<Step>, s: State)
    requires Sole(owner, caller)
    ensures TornAtRest(owner, 1, steps, s)
  {
    hide Runs, TornAtRest;
    s, steps := GoStart(owner, true);
    s, steps := GoBegin(owner, caller, true, steps, s, 1);
    s, steps := GoBreak(owner, true, steps, s);
    s, steps := GoDeliver(owner, true, steps, s, Lost("a", "b"));
    steps, s := CutAndRecord(owner, caller, steps, s, Lost("b", "a"), 1);
  }

  /** Connect 1 is recorded, and a call for connect c is in flight. */
  lemma Prepare(owner: Owners, caller: CallerInfo, c: Remote) returns (s: State, steps: seq<Step>)
    requires Sole(owner, caller) && c != NULL
    ensures Runs(AB, owner, true, steps, s) && s.net.Keys == AB && s.calls == multiset{CallB(c)} && s.messages == multiset{}
    ensures HasRoute(s.net["a"].connects, 1, "b")
  {
    hide Runs;
    s, steps := GoStart(owner, true);
    s, steps := GoBegin(owner, caller, true, steps, s, 1);
    s, steps := GoRecord(owner, caller, true, steps, s, 1);
    HistoryStep([Begin(CallB(1))], owner, Record(CallB(1)), 1, "b");
    HistoryStep(steps, owner, Begin(CallB(c)), 1, "b");
    s, steps := GoBegin(owner, caller, true, steps, s, c);
    RoutedAfter(owner, steps, s, 1);
  }

  lemma RoutedAfter(owner: Owners, steps: seq<Step>, s: State, c: Remote)
    requires Runs(AB, owner, true, steps, s) && s.net.Keys == AB && Home(owner, c) == "a" && Recorded(steps, owner, c, "b")
    ensures HasRoute(s.net["a"].connects, c, "b")
  {
    hide Runs, Inv, Recorded;
    RunsKeep(AB, owner, true, steps, s);
    assert Routed(s.net, owner, c, "b");
  }

  /** What leaves device a goes to device b. */
  lemma OnlyToB(owner: Owners, caller: CallerInfo, s: State, c: Remote)
    requires Sole(owner, caller) && Inv(s, owner) && s.net.Keys == AB
    ensures Targets(SessionsOf(s.net["a"].connects, c)) <= {"b"} && Reached(s.net["a"].connects, caller) <= {"b"}
  {
    var t: Table := s.net["a"].connects;
    assert DeviceOk(s.net["a"], owner, "a", AB);
    forall x, d | x in t && d in Targets(t[x]) ensures d == "b" {
      var session: Session :| session in t[x] && session.destination == d;
    }
  }

  /** The same connect is disconnected between acceptance and record of another call. */
  lemma DisconnectTears(owner: Owners, caller: CallerInfo) returns (steps: seq<Step>, s: State)
    requires Sole(owner, caller)
    ensures TornAtRest(owner, 1, steps, s)
  {
    hide Runs, TornAtRest, Inv;
    s, steps := Prepare(owner, caller, 1);
    RunsKeep(AB, owner, true, steps, s);
    OnlyToB(owner, caller, s, 1);
    assert Targets(SessionsOf(s.net["a"].connects, 1)) == {"b"};
    assert (set d | d in {"b"} :: Released(d, 1)) == {Released("b", 1)};
    s, steps := Go(owner, true, steps, s, Drop(1));
    steps, s := CutAndRecord(owner, caller, steps, s, Released("b", 1), 1);
  }

  /** The caller dies with one connect recorded and the call for another one in flight. */
  lemma DeathTears(owner: Owners, caller: CallerInfo) returns (steps: seq<Step>, s: State)
    requires Sole(owner, caller)
    ensures TornAtRest(owner, 2, steps, s)
  {
    hide Runs, TornAtRest, Inv;
    s, steps := Prepare(owner, caller, 2);
    RunsKeep(AB, owner, true, steps, s);
    OnlyToB(owner, caller, s, 1);
    ReachesB(owner, caller, s);
    assert (set d | d in {"b"} :: Died(d, caller)) == {Died("b", caller)};
    s, steps := Go(owner, true, steps, s, Die(1));
    steps, s := CutAndRecord(owner, caller, steps, s, Died("b", caller), 2);
  }

  lemma ReachesB(owner: Owners, caller: CallerInfo, s: State)
    requires Sole(owner, caller) && Inv(s, owner) && s.net.Keys == AB && HasRoute(s.net["a"].connects, 1, "b")
    ensures "b" in Reached(s.net["a"].connects, caller)
  {
    var t: Table := s.net["a"].connects;
    assert DeviceOk(s.net["a"], owner, "a", AB);
    assert t[1][0].caller == owner(1);
    var front: CallerInfo := Front(t[1]);
    assert front.IsSameCaller(caller);
  }

  /** Links not handled in order: the devices are connected again when only one of them has handled the loss, and the
      other one then drops the new session and leaves the entry behind. */
  lemma LateLossStrays(owner: Owners, caller: CallerInfo) returns (steps: seq<Step>, s: State)
    requires Sole(owner, caller)
    ensures Runs(AB, owner, false, steps, s) && Quiet(s) && Stray(steps, owner, 1, "b") && !Mirror(s.net)
  {
    hide Runs, Stray, Mirror, Inv, NetAfter, IsRun;
    s, steps := GoStart(owner, false);
    s, steps := GoBreak(owner, false, steps, s);
    s, steps := GoDeliver(owner, false, steps, s, Lost("b", "a"));
    ghost var before := steps;
    s, steps := GoBegin(owner, caller, false, steps, s, 1);
    s, steps := GoRecord(owner, caller, false, steps, s, 1);
    s, steps := GoDeliver(owner, false, steps, s, Lost("a", "b"));
    assert steps == before + [Begin(CallB(1)), Record(CallB(1)), Deliver(Lost("a", "b"))];
    DropAfterRecordStrays(before, owner, CallB(1), Deliver(Lost("a", "b")));
    StrayAtRest(owner, caller, false, 1, steps, s);
  }

  /** A drop that no cut accompanies leaves a stray entry. */
  lemma DropAfterRecordStrays(steps: seq<Step>, owner: Owners, call: Call, drop: Step)
    requires Drops(drop, owner, call.c, call.dst) && !Cuts(drop, owner, call.c, call.dst)
    ensures Stray(steps + [Begin(call), Record(call), drop], owner, call.c, call.dst)
  {
    HistoryStep(steps, owner, Begin(call), call.c, call.dst);
    HistoryStep(steps + [Begin(call)], owner, Record(call), call.c, call.dst);
    HistoryStep(steps + [Begin(call)] + [Record(call)], owner, drop, call.c, call.dst);
    assert steps + [Begin(call), Record(call), drop] == steps + [Begin(call)] + [Record(call)] + [drop];
  }

  lemma StrayAtRest(owner: Owners, caller: CallerInfo, orderly: bool, c: Remote, steps: seq<Step>, s: State)
    requires Sole(owner, caller) && Runs(AB, owner, orderly, steps, s) && s.net.Keys == AB && Stray(steps, owner, c, "b")
    ensures !Mirror(s.net)
  {
    RunsKeep(AB, owner, orderly, steps, s);
    hide Inv, Recorded, Uncut, Runs;
    PairMirrored(s, owner, c, "b");
    assert !Mirrored(s.net, "a", "b", c) by { hide Mirrored; }
  }
}
