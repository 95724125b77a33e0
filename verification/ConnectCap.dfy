/** The limit on connects per uid, when the check and the bookkeeping of a connect call are separate steps. */
module ConnectCap {
  import opened Common
  import opened Tallies
  import opened Sessions
  import opened Service

  /** A connect call that passed CheckDistributedConnectLocked and has not recorded its session yet. */
  datatype Call = Call(c: Remote, dst: DeviceId, e: Element, caller: CallerInfo)

  datatype State = State(connects: Table, inFlight: map<nat, Call>)

  datatype Step =
    | Check(id: nat, call: Call)
    | Finish(id: nat, accepted: bool)
    | Erase(c: Remote)
    | Die(caller: CallerInfo)
    | Offline(d: DeviceId)

  function Count(s: State, uid: int): nat
  {
    Tally(s.connects, FrontUid, uid)
  }

  function CallUid(call: Call): int { call.caller.uid }

  function Pending(s: State, uid: int): nat
  {
    Tally(s.inFlight, CallUid, uid)
  }

  ghost predicate Next(s: State, owner: Owners, step: Step, s': State)
  {
    match step
    case Check(id, call) =>
      && id !in s.inFlight && call.c != NULL && owner(call.c) == call.caller
      && call.dst != "" && call.dst != call.caller.sourceDeviceId
      && call.caller.uid >= 0 && Count(s, call.caller.uid) < MAX_DISTRIBUTED_CONNECT_NUM
      && s' == s.(inFlight := s.inFlight[id := call])
    case Finish(id, accepted) =>
      && id in s.inFlight
      && var call := s.inFlight[id];
         s' == State(if accepted then Connect(s.connects, call.c, call.dst, call.e, call.caller) else s.connects,
                     s.inFlight - {id})
    case Erase(c) => s' == s.(connects := s.connects - {c})
    case Die(caller) => s' == s.(connects := DropCaller(s.connects, caller))
    case Offline(d) => s' == s.(connects := DropDevice(s.connects, d))
  }

  ghost predicate Ok(s: State, owner: Owners)
  {
    && TableOk(s.connects, owner)
    && forall id <- s.inFlight ::
         var call := s.inFlight[id];
         call.c != NULL && owner(call.c) == call.caller && call.dst != "" && call.dst != call.caller.sourceDeviceId
  }

  /** The states of a run from an idle device. */
  ghost predicate Run(owner: Owners, states: seq<State>, steps: seq<Step>)
  {
    && |states| == |steps| + 1 && states[0] == State(map[], map[])
    && forall i :: 0 <= i < |steps| ==> Next(states[i], owner, steps[i], states[i + 1])
  }

  lemma StepCounts(s: State, owner: Owners, step: Step, s': State, uid: int)
    requires Ok(s, owner) && Next(s, owner, step, s')
    ensures Ok(s', owner)
    ensures match step
            case Check(_, call) =>
              && Count(s', uid) == Count(s, uid)
              && Pending(s', uid) == Pending(s, uid) + (if call.caller.uid == uid then 1 else 0)
            case _ => Count(s', uid) + Pending(s', uid) <= Count(s, uid) + Pending(s, uid)
  {
    match step
    case Check(id, call) =>
      TallyInsert(s.inFlight, CallUid, id, call, uid);
    case Finish(id, accepted) =>
      TallyRemove(s.inFlight, CallUid, id, uid);
      var call := s.inFlight[id];
      if accepted {
        var v := Connected(SessionsOf(s.connects, call.c), call.dst, call.e, call.caller);
        ConnectedExact(SessionsOf(s.connects, call.c), call.dst, call.e, call.caller);
        if call.c in s.connects {
          TallyReplace(s.connects, FrontUid, call.c, v, uid);
        } else {
          TallyInsert(s.connects, FrontUid, call.c, v, uid);
        }
      }
    case Erase(c) =>
      TallyMonotone(s'.connects, s.connects, FrontUid, uid);
    case Die(caller) =>
      TallyMonotone(s'.connects, s.connects, FrontUid, uid);
    case Offline(d) =>
      DropDeviceExact(s.connects, d, owner);
      TallyMonotone(s'.connects, s.connects, FrontUid, uid);
  }

  /** With at most n calls of a uid in flight at any time, connects plus calls in flight never exceed 599 + n. */
  lemma {:induction false} Bounded(owner: Owners, states: seq<State>, steps: seq<Step>, uid: int, n: nat, i: nat)
    requires Run(owner, states, steps) && i < |states|
    requires forall j :: 0 <= j < |states| ==> Pending(states[j], uid) <= n
    ensures Ok(states[i], owner)
    ensures Count(states[i], uid) + Pending(states[i], uid) <= MAX_DISTRIBUTED_CONNECT_NUM - 1 + n
  {
    if i > 0 {
      Bounded(owner, states, steps, uid, n, i - 1);
      StepCounts(states[i - 1], owner, steps[i - 1], states[i], uid);
    }
  }

  // ----- the bound is reached -----

  ghost predicate Reachable(s: State, owner: Owners, uid: int, n: nat)
  {
    exists states, steps :: Run(owner, states, steps) && states[|steps|] == s &&
                            forall j :: 0 <= j < |states| ==> Pending(states[j], uid) <= n
  }

  lemma Extend(s: State, owner: Owners, uid: int, n: nat, step: Step, s': State)
    requires Reachable(s, owner, uid, n) && Next(s, owner, step, s') && Pending(s', uid) <= n
    ensures Reachable(s', owner, uid, n)
  {
    var states, steps :| Run(owner, states, steps) && states[|steps|] == s &&
                         forall j :: 0 <= j < |states| ==> Pending(states[j], uid) <= n;
    var states', steps' := states + [s'], steps + [step];
    forall i | 0 <= i < |steps'| ensures Next(states'[i], owner, steps'[i], states'[i + 1]) {
      if i < |steps| {
        assert states'[i] == states[i] && states'[i + 1] == states[i + 1] && steps'[i] == steps[i];
      }
    }
    assert Run(owner, states', steps') && states'[|steps'|] == s';
  }

  const PEER: Element := Element("peer", "bundle", "ability")

  /** The n identities after k. */
  function Ids(k: nat, n: nat): (ids: set<nat>)
    ensures |ids| == n && forall c :: c in ids <==> k < c <= k + n
  {
    if n == 0 then {} else Ids(k, n - 1) + {k + n}
  }

  function Bound(caller: CallerInfo): seq<Session> { [Session(caller.sourceDeviceId, "peer", [PEER], caller)] }

  function PeerCall(caller: CallerInfo, c: Remote): Call { Call(c, "peer", PEER, caller) }

  function Calls(caller: CallerInfo, k: nat, j: nat): (calls: map<nat, Call>)
    ensures forall c :: c in calls <==> k < c <= k + j
    ensures forall c <- calls :: calls[c] == PeerCall(caller, c)
  {
    if j == 0 then map[] else Calls(caller, k, j - 1)[k + j := PeerCall(caller, k + j)]
  }

  function Bounds(caller: CallerInfo, k: nat): (t: Table)
    ensures forall c :: c in t <==> 0 < c <= k
    ensures forall c <- t :: t[c] == Bound(caller)
  {
    if k == 0 then map[] else Bounds(caller, k - 1)[k := Bound(caller)]
  }

  /** Connects 1 to k recorded, calls for connects k + 1 to k + j in flight. */
  function Busy(caller: CallerInfo, k: nat, j: nat): State
  {
    State(Bounds(caller, k), Calls(caller, k, j))
  }

  lemma BusyCounts(caller: CallerInfo, k: nat, j: nat)
    ensures Count(Busy(caller, k, j), caller.uid) == k && Pending(Busy(caller, k, j), caller.uid) == j
  {
    var s, uid := Busy(caller, k, j), caller.uid;
    TallyIs(s.connects, FrontUid, uid, Ids(0, k));
    TallyIs(s.inFlight, CallUid, uid, Ids(k, j));
  }

  /** Every connect object belongs to one remote-capable caller. */
  ghost predicate Sole(owner: Owners, caller: CallerInfo)
  {
    caller.uid >= 0 && "peer" != caller.sourceDeviceId && forall c :: owner(c) == caller
  }

  lemma CheckNext(owner: Owners, caller: CallerInfo, k: nat, j: nat)
    requires Sole(owner, caller) && k < MAX_DISTRIBUTED_CONNECT_NUM
    ensures Next(Busy(caller, k, j), owner, Check(k + j + 1, PeerCall(caller, k + j + 1)), Busy(caller, k, j + 1))
  {
    BusyCounts(caller, k, j);
  }

  lemma CallsShift(caller: CallerInfo, k: nat, j: nat)
    requires j > 0
    ensures Calls(caller, k + 1, j - 1) == Calls(caller, k, j) - {k + 1}
  {
  }

  lemma FinishNext(owner: Owners, caller: CallerInfo, k: nat, j: nat)
    requires j > 0
    ensures Next(Busy(caller, k, j), owner, Finish(k + 1, true), Busy(caller, k + 1, j - 1))
  {
    CallsShift(caller, k, j);
    assert Connected([], "peer", PEER, caller) == Bound(caller);
  }

  lemma CheckOne(owner: Owners, caller: CallerInfo, k: nat, j: nat, n: nat)
    requires Sole(owner, caller) && k < MAX_DISTRIBUTED_CONNECT_NUM && j < n
    requires Reachable(Busy(caller, k, j), owner, caller.uid, n)
    ensures Reachable(Busy(caller, k, j + 1), owner, caller.uid, n)
  {
    hide Next, Reachable, Busy;
    BusyCounts(caller, k, j + 1);
    CheckNext(owner, caller, k, j);
    Extend(Busy(caller, k, j), owner, caller.uid, n, Check(k + j + 1, PeerCall(caller, k + j + 1)),
           Busy(caller, k, j + 1));
  }

  lemma FinishOne(owner: Owners, caller: CallerInfo, k: nat, j: nat, n: nat)
    requires 0 < j <= n && Reachable(Busy(caller, k, j), owner, caller.uid, n)
    ensures Reachable(Busy(caller, k + 1, j - 1), owner, caller.uid, n)
  {
    hide Next, Reachable, Busy;
    BusyCounts(caller, k + 1, j - 1);
    FinishNext(owner, caller, k, j);
    Extend(Busy(caller, k, j), owner, caller.uid, n, Finish(k + 1, true), Busy(caller, k + 1, j - 1));
  }

  lemma IdleReachable(owner: Owners, caller: CallerInfo, n: nat)
    ensures Reachable(Busy(caller, 0, 0), owner, caller.uid, n)
  {
    var s, steps: seq<Step> := Busy(caller, 0, 0), [];
    BusyCounts(caller, 0, 0);
    assert s == State(map[], map[]);
    assert Run(owner, [s], steps) && [s][|steps|] == s;
  }

  lemma {:induction false} Fill(owner: Owners, caller: CallerInfo, k: nat, n: nat)
    requires Sole(owner, caller) && k < MAX_DISTRIBUTED_CONNECT_NUM && n > 0
    ensures Reachable(Busy(caller, k, 0), owner, caller.uid, n)
  {
    if k == 0 {
      IdleReachable(owner, caller, n);
    } else {
      hide Reachable, Busy;
      Fill(owner, caller, k - 1, n);
      CheckOne(owner, caller, k - 1, 0, n);
      FinishOne(owner, caller, k - 1, 1, n);
    }
  }

  lemma {:induction false} Queue(owner: Owners, caller: CallerInfo, j: nat, n: nat)
    requires Sole(owner, caller) && j <= n && n > 0
    ensures Reachable(Busy(caller, MAX_DISTRIBUTED_CONNECT_NUM - 1, j), owner, caller.uid, n)
  {
    hide Reachable, Busy;
    if j == 0 {
      Fill(owner, caller, MAX_DISTRIBUTED_CONNECT_NUM - 1, n);
    } else {
      Queue(owner, caller, j - 1, n);
      CheckOne(owner, caller, MAX_DISTRIBUTED_CONNECT_NUM - 1, j - 1, n);
    }
  }

  lemma {:induction false} Drain(owner: Owners, caller: CallerInfo, m: nat, n: nat)
    requires Sole(owner, caller) && m <= n && n > 0
    ensures Reachable(Busy(caller, MAX_DISTRIBUTED_CONNECT_NUM - 1 + m, n - m), owner, caller.uid, n)
  {
    hide Reachable, Busy;
    if m == 0 {
      Queue(owner, caller, n, n);
    } else {
      Drain(owner, caller, m - 1, n);
      FinishOne(owner, caller, MAX_DISTRIBUTED_CONNECT_NUM - 1 + (m - 1), n - (m - 1), n);
    }
  }

  /** The bound cannot be improved: n overlapping calls can leave a uid with 599 + n connects. */
  lemma Overshoots(owner: Owners, caller: CallerInfo, n: nat)
    requires Sole(owner, caller) && n > 0
    ensures exists s :: Reachable(s, owner, caller.uid, n) &&
                        Count(s, caller.uid) == MAX_DISTRIBUTED_CONNECT_NUM - 1 + n
  {
    Drain(owner, caller, n, n);
    BusyCounts(caller, MAX_DISTRIBUTED_CONNECT_NUM - 1 + n, 0);
  }

  /** The sessions of one connect object used by two uids, towards devices b and c. */
  function Shared(first: CallerInfo, second: CallerInfo): seq<Session>
  {
    [Session(first.sourceDeviceId, "b", [PEER], first), Session(second.sourceDeviceId, "c", [PEER], second)]
  }

  lemma SharedSteps(first: CallerInfo, second: CallerInfo)
    ensures Connected(Connected([], "b", PEER, first), "c", PEER, second) == Shared(first, second)
    ensures Dropped(Shared(first, second), "b") == Shared(first, second)[1..]
  {
    var one := Connected([], "b", PEER, first);
    assert one == [Shared(first, second)[0]];
    assert IndexTo(one, "c") == 1;
    assert IndexTo(Shared(first, second), "b") == 0;
  }

  function Only(sessions: seq<Session>): Table { map[1 := sessions] }

  lemma OneConnect(sessions: seq<Session>, uid: int)
    ensures Tally(Only(sessions), FrontUid, uid) == if uid == FrontUid(sessions) then 1 else 0
  {
    TallyIs(Only(sessions), FrontUid, uid, if uid == FrontUid(sessions) then {1} else {});
  }

  /** All sessions of a connect belong to one uid. */
  ghost predicate OneUid(sessions: seq<Session>)
  {
    forall i :: 0 <= i < |sessions| ==> sessions[i].caller.uid == FrontUid(sessions)
  }

  ghost predicate Separate(sessions: seq<Session>)
  {
    forall i, j :: 0 <= i < j < |sessions| ==> sessions[i].destination != sessions[j].destination
  }

  datatype Counted = Counted(tracking: Tracking, connects: Table)

  ghost predicate Agrees(s: Counted) { TrackingAgrees(s.tracking, s.connects) }

  /** What the offline handling of d does to connect c and its counter, whoever owns the sessions. */
  function Offlined(s: Counted, c: Remote, d: DeviceId): Counted
  {
    if c !in s.connects then s else
    var sessions, rest := s.connects[c], Dropped(s.connects[c], d);
    if rest == [] then Counted(Decreased(s.tracking, FrontUid(sessions)), s.connects - {c})
    else Counted(s.tracking, s.connects[c := rest])
  }

  function AllOfflined(s: Counted, c: Remote, ds: seq<DeviceId>): Counted
    decreases |ds|
  {
    if ds == [] then s else AllOfflined(Offlined(s, c, ds[0]), c, ds[1..])
  }

  /** Losing a device keeps a counter in agreement exactly if nothing is left of the connect, or its first session still
      belongs to the same uid. */
  lemma OfflinedAgrees(s: Counted, c: Remote, d: DeviceId)
    requires Agrees(s) && c in s.connects && FrontUid(s.connects[c]) >= 0
    ensures var rest := Dropped(s.connects[c], d);
            Agrees(Offlined(s, c, d)) <==> rest == [] || FrontUid(rest) == FrontUid(s.connects[c])
  {
    TrackingRemove(s.tracking, s.connects, c);
    TrackingReplace(s.tracking, s.connects, c, Dropped(s.connects[c], d));
  }

  ghost predicate ValidUids(sessions: seq<Session>)
  {
    sessions != [] && forall i :: 0 <= i < |sessions| ==> sessions[i].caller.uid >= 0
  }

  /** The counters survive the loss of any devices in any order exactly if one uid owns all sessions of the connect. */
  lemma SurvivesExactly(s: Counted, c: Remote)
    requires Agrees(s) && c in s.connects && ValidUids(s.connects[c]) && Separate(s.connects[c])
    ensures (forall ds :: Agrees(AllOfflined(s, c, ds))) <==> OneUid(s.connects[c])
  {
    if OneUid(s.connects[c]) {
      forall ds ensures Agrees(AllOfflined(s, c, ds)) { OneUidSurvives(s, c, ds); }
    } else {
      var ds := MixedFails(s, c);
    }
  }

  lemma {:induction false} OneUidSurvives(s: Counted, c: Remote, ds: seq<DeviceId>)
    requires Agrees(s) && (c in s.connects ==> ValidUids(s.connects[c]) && OneUid(s.connects[c]))
    ensures Agrees(AllOfflined(s, c, ds))
    decreases |ds|
  {
    if ds != [] {
      var s' := Offlined(s, c, ds[0]);
      if c in s.connects {
        OfflinedAgrees(s, c, ds[0]);
        if Dropped(s.connects[c], ds[0]) != [] {
          DroppedMembersOf(s.connects[c], ds[0]);
        }
      }
      OneUidSurvives(s', c, ds[1..]);
    }
  }

  lemma DroppedMembersOf(sessions: seq<Session>, d: DeviceId)
    requires ValidUids(sessions) && OneUid(sessions) && Dropped(sessions, d) != []
    ensures ValidUids(Dropped(sessions, d)) && OneUid(Dropped(sessions, d))
    ensures FrontUid(Dropped(sessions, d)) == FrontUid(sessions)
  {
    var rest := Dropped(sessions, d);
    forall i | 0 <= i < |rest| ensures rest[i].caller.uid == FrontUid(sessions) {
      assert rest[i] in sessions;
    }
  }

  lemma MixedTail(sessions: seq<Session>)
    requires ValidUids(sessions) && Separate(sessions) && !OneUid(sessions)
    ensures var rest := sessions[1..];
            && Dropped(sessions, sessions[0].destination) == rest && ValidUids(rest) && Separate(rest)
            && (FrontUid(rest) == FrontUid(sessions) ==> !OneUid(rest))
  {
    hide OneUid, Separate, Dropped;
    FirstDropped(sessions);
    TailUids(sessions);
    TailSeparate(sessions);
  }

  lemma TailUids(sessions: seq<Session>)
    requires ValidUids(sessions) && !OneUid(sessions)
    ensures ValidUids(sessions[1..]) && (FrontUid(sessions[1..]) == FrontUid(sessions) ==> !OneUid(sessions[1..]))
  {
    var i :| 0 <= i < |sessions| && sessions[i].caller.uid != FrontUid(sessions);
    assert i > 0 && sessions[1..][i - 1].caller.uid != FrontUid(sessions);
  }

  lemma TailSeparate(sessions: seq<Session>)
    requires Separate(sessions) && sessions != []
    ensures Separate(sessions[1..])
  {
  }

  lemma FirstDropped(sessions: seq<Session>)
    requires sessions != []
    ensures Dropped(sessions, sessions[0].destination) == sessions[1..]
  {
    assert IndexTo(sessions, sessions[0].destination) == 0;
  }

  lemma {:induction false} MixedFails(s: Counted, c: Remote) returns (ds: seq<DeviceId>)
    requires Agrees(s) && c in s.connects && ValidUids(s.connects[c]) && Separate(s.connects[c])
    requires !OneUid(s.connects[c])
    ensures !Agrees(AllOfflined(s, c, ds))
    decreases if c in s.connects then |s.connects[c]| else 0
  {
    hide OneUid, Separate, Agrees;
    var sessions := s.connects[c];
    var d, rest := sessions[0].destination, sessions[1..];
    MixedTail(sessions);
    OfflinedAgrees(s, c, d);
    var s' := Offlined(s, c, d);
    if FrontUid(rest) != FrontUid(sessions) {
      ds := [d];
      assert AllOfflined(s, c, ds) == AllOfflined(s', c, ds[1..]) == s';
    } else {
      var ds' := MixedFails(s', c);
      ds := [d] + ds';
      assert ds[1..] == ds';
    }
  }

  /** What a caller can ask before connecting: whether the connect object is new, belongs to its uid, or already has a
      session to the device. It holds exactly if the connect stays with one uid. */
  predicate MayConnect(t: Table, c: Remote, d: DeviceId, caller: CallerInfo)
  {
    c !in t || FrontUid(t[c]) == caller.uid || HasRoute(t, c, d)
  }

  lemma ConnectKeepsOneUid(t: Table, c: Remote, d: DeviceId, e: Element, caller: CallerInfo)
    requires c in t ==> t[c] != [] && OneUid(t[c])
    ensures OneUid(Connect(t, c, d, e, caller)[c]) <==> MayConnect(t, c, d, caller)
  {
    var sessions := SessionsOf(t, c);
    var r := Connected(sessions, d, e, caller);
    if IndexTo(sessions, d) < |sessions| {
      assert sessions[IndexTo(sessions, d)] in sessions;
      forall i | 0 <= i < |r| ensures r[i].caller == sessions[i].caller {
      }
    } else {
      assert r[|sessions|].caller == caller;
      forall i | 0 <= i < |sessions| ensures r[i] == sessions[i] && sessions[i].destination != d {
      }
    }
  }

  /** Why a connect object has to stay with one caller: if two uids connect through the same object, the counter no
      longer agrees with the table once the device of the first one goes offline. */
  lemma SharedConnectBreaksCounter(first: CallerInfo, second: CallerInfo)
    requires first.uid >= 0 && second.uid >= 0 && first.uid != second.uid
    ensures var t := Only(Shared(first, second));
            && Connected(Connected([], "b", PEER, first), "c", PEER, second) == t[1]
            && TrackingAgrees(map[first.uid := 1], t)
            && 1 in DropDevice(t, "b") && !TrackingAgrees(map[first.uid := 1], DropDevice(t, "b"))
  {
    SharedSteps(first, second);
    var t, rest := Only(Shared(first, second)), Shared(first, second)[1..];
    forall uid ensures Tally(t, FrontUid, uid) == if uid == first.uid then 1 else 0 { OneConnect(t[1], uid); }
    OneConnect(rest, first.uid);
    assert DropDevice(t, "b") == Only(rest);
  }
}
