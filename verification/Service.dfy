/** Component-change reports and the component list they describe. */
module Reports {
  import opened Common
  import opened Tallies
  import opened Sessions

  /** ConnectInfo without the wrapper object, which is created from the connect object itself. */
  datatype ConnectInfo = ConnectInfo(caller: CallerInfo, element: Element)

  type Callees = map<Remote, ConnectInfo>

  /** Identity of a component as it appears in a report and in the component list. */
  datatype Component =
    | ConnectCaller(pid: int, uid: int, bundle: string)
    | ConnectCallee(bundle: string)
    | CallCaller(pid: int, uid: int, bundle: string)

  datatype Change = Add | Remove

  datatype Report = Report(change: Change, component: Component)

  /** The three tables behind GetDistributedComponentList. */
  datatype Lists = Lists(connects: Table, callees: Callees, callers: Table)

  function BundleOf(caller: CallerInfo): string
  {
    if caller.bundleNames == [] then "" else caller.bundleNames[0]
  }

  function AsConnect(caller: CallerInfo): Component { ConnectCaller(caller.pid, caller.uid, BundleOf(caller)) }

  function AsCall(caller: CallerInfo): Component { CallCaller(caller.pid, caller.uid, BundleOf(caller)) }

  const NOBODY := CallerInfo(-1, -1, CALLER_TYPE_NONE, "", [])

  function Front(sessions: seq<Session>): CallerInfo
  {
    if sessions == [] then NOBODY else sessions[0].caller
  }

  function ConnectIdentity(sessions: seq<Session>): Component { AsConnect(Front(sessions)) }

  function CallIdentity(sessions: seq<Session>): Component { AsCall(Front(sessions)) }

  function CalleeIdentity(info: ConnectInfo): Component { ConnectCallee(info.element.bundleName) }

  /** How often a component occurs in the current list. */
  function Listed(lists: Lists, k: Component): nat
  {
    match k
    case ConnectCaller(_, _, _) => Tally(lists.connects, ConnectIdentity, k)
    case ConnectCallee(_) => Tally(lists.callees, CalleeIdentity, k)
    case CallCaller(_, _, _) => Tally(lists.callers, CallIdentity, k)
  }

  function Delta(r: Report, k: Component): int
  {
    if r.component != k then 0 else if r.change == Add then 1 else -1
  }

  /** ADD reports minus REMOVE reports for one component. */
  function Net(reports: seq<Report>, k: Component): int
  {
    if reports == [] then 0 else Net(reports[..|reports| - 1], k) + Delta(reports[|reports| - 1], k)
  }

  function Reported(listener: Remote, reports: seq<Report>, r: Report): seq<Report>
  {
    if listener == NULL then reports else reports + [r]
  }

  /** Replaying the reports onto the list seen at registration gives the current list. */
  ghost predicate Replays(listener: Remote, reports: seq<Report>, since: Lists, now: Lists)
  {
    if listener == NULL then reports == []
    else forall k :: Net(reports, k) == Listed(now, k) - Listed(since, k)
  }

  /** A caller with this pid and uid whose first bundle, if any, is this one. */
  predicate IsFrom(caller: CallerInfo, pid: int, uid: int, bundle: string)
  {
    && caller.pid == pid && caller.uid == uid
    && if |caller.bundleNames| == 0 then bundle == "" else bundle == caller.bundleNames[0]
  }

  function ConnectsFrom(t: Table, pid: int, uid: int, bundle: string): set<Remote>
  {
    set c | c in t && t[c] != [] && IsFrom(t[c][0].caller, pid, uid, bundle)
  }

  function AcceptedFor(callees: Callees, bundle: string): set<Remote>
  {
    set c | c in callees && callees[c].element.bundleName == bundle
  }

  /** A component is listed once for each connect, or call, of its process and bundle, and once for each accepted connect
      of its bundle. */
  lemma ListedExactly(lists: Lists, pid: int, uid: int, bundle: string)
    requires (forall c <- lists.connects :: lists.connects[c] != []) && forall c <- lists.callers :: lists.callers[c] != []
    ensures Listed(lists, ConnectCaller(pid, uid, bundle)) == |ConnectsFrom(lists.connects, pid, uid, bundle)|
    ensures Listed(lists, CallCaller(pid, uid, bundle)) == |ConnectsFrom(lists.callers, pid, uid, bundle)|
    ensures Listed(lists, ConnectCallee(bundle)) == |AcceptedFor(lists.callees, bundle)|
  {
    TallyIs(lists.connects, ConnectIdentity, ConnectCaller(pid, uid, bundle),
            ConnectsFrom(lists.connects, pid, uid, bundle));
    TallyIs(lists.callers, CallIdentity, CallCaller(pid, uid, bundle), ConnectsFrom(lists.callers, pid, uid, bundle));
    TallyIs(lists.callees, CalleeIdentity, ConnectCallee(bundle), AcceptedFor(lists.callees, bundle));
  }

  lemma ReplaysStep(listener: Remote, reports: seq<Report>, since: Lists, now: Lists, r: Report, now': Lists)
    requires Replays(listener, reports, since, now)
    requires forall k :: Listed(now', k) == Listed(now, k) + Delta(r, k)
    ensures Replays(listener, Reported(listener, reports, r), since, now')
  {
    assert (reports + [r])[..|reports|] == reports;
  }
}

/** DistributedSchedService: the connection tables of one device. */
module Service {
  import CallbackTasks
  import opened Common
  import opened Tallies
  import opened Sessions
  import opened Reports

  const MAX_DISTRIBUTED_CONNECT_NUM := 600
  const BIND_CONNECT_RETRY_TIMES := 3
  const BIND_CONNECT_TIMEOUT := 500

  type Tracking = map<int, nat>

  /** The counter of a uid is the number of its connects, and no zero is stored. */
  ghost predicate TrackingAgrees(tracking: Tracking, t: Table)
  {
    forall uid :: (if uid in tracking then tracking[uid] else 0) == Tally(t, FrontUid, uid)
                  && (uid in tracking ==> tracking[uid] > 0)
  }

  function Decreased(tracking: Tracking, uid: int): Tracking
  {
    if uid < 0 || uid !in tracking then tracking
    else if tracking[uid] <= 1 then tracking - {uid}
    else tracking[uid := tracking[uid] - 1]
  }

  lemma TrackingRemove(tracking: Tracking, t: Table, c: Remote)
    requires TrackingAgrees(tracking, t) && c in t && FrontUid(t[c]) >= 0
    ensures TrackingAgrees(Decreased(tracking, FrontUid(t[c])), t - {c})
  {
    forall uid ensures Tally(t - {c}, FrontUid, uid) == Tally(t, FrontUid, uid) - if FrontUid(t[c]) == uid then 1 else 0 {
      TallyRemove(t, FrontUid, c, uid);
    }
  }

  lemma TrackingReplace(tracking: Tracking, t: Table, c: Remote, v: seq<Session>)
    requires TrackingAgrees(tracking, t) && c in t
    ensures TrackingAgrees(tracking, t[c := v]) <==> FrontUid(v) == FrontUid(t[c])
  {
    var before, after := FrontUid(t[c]), FrontUid(v);
    forall uid
      ensures Tally(t[c := v], FrontUid, uid)
           == Tally(t, FrontUid, uid) - (if before == uid then 1 else 0) + if after == uid then 1 else 0
    {
      TallyRemove(t, FrontUid, c, uid);
      TallyInsert(t - {c}, FrontUid, c, v, uid);
      assert (t - {c})[c := v] == t[c := v];
    }
    assert before != after ==> Tally(t[c := v], FrontUid, before) != Tally(t, FrontUid, before);
  }

  lemma TrackingInsert(tracking: Tracking, t: Table, c: Remote, v: seq<Session>)
    requires TrackingAgrees(tracking, t) && c !in t
    ensures var uid := FrontUid(v); TrackingAgrees(tracking[uid := Tracked(tracking, uid) + 1], t[c := v])
  {
    forall uid ensures Tally(t[c := v], FrontUid, uid) == Tally(t, FrontUid, uid) + if FrontUid(v) == uid then 1 else 0 {
      TallyInsert(t, FrontUid, c, v, uid);
    }
  }

  function Tracked(tracking: Tracking, uid: int): nat
  {
    if uid in tracking then tracking[uid] else 0
  }

  // ----- what the loops compute -----

  function DropSource(callees: Callees, d: DeviceId): Callees
  {
    map c | c in callees && callees[c].caller.sourceDeviceId != d :: callees[c]
  }

  function DropProcess(callees: Callees, caller: CallerInfo): Callees
  {
    map c | c in callees && !caller.IsSameCaller(callees[c].caller) :: callees[c]
  }

  /** A DEVICE_OFFLINE_ERR message to the application behind a connect object. */
  datatype Notice = Notice(connect: Remote, element: Element)

  /** One notice for each (connect, element) of device d in the table. */
  ghost function NoticesFor(t: Table, d: DeviceId): set<Notice>
  {
    set c, n | c in t && n in NoticesOf(c, t[c], d) :: n
  }

  ghost function NoticesOf(c: Remote, sessions: seq<Session>, d: DeviceId): set<Notice>
  {
    set e <- ElementsTo(sessions, d) :: Notice(c, e)
  }

  /** A notice goes out for a connect and an element exactly if a session of the connect to d has the element. */
  lemma NoticesExact(t: Table, d: DeviceId)
    ensures forall c, e :: Notice(c, e) in NoticesFor(t, d) <==>
              c in t && exists i :: 0 <= i < |t[c]| && t[c][i].destination == d && e in t[c][i].elements
  {
    forall c, e ensures Notice(c, e) in NoticesFor(t, d) <==>
                        c in t && exists i :: 0 <= i < |t[c]| && t[c][i].destination == d && e in t[c][i].elements {
      if c in t {
        assert Notice(c, e) in NoticesFor(t, d) <==> Notice(c, e) in NoticesOf(c, t[c], d);
        if i :| 0 <= i < |t[c]| && t[c][i].destination == d && e in t[c][i].elements {
          assert t[c][i] in t[c];
        }
      }
    }
  }

  lemma NoticesStep(t: Table, todo: set<Remote>, c: Remote, d: DeviceId)
    requires c in todo && todo <= t.Keys
    ensures multiset(NoticesFor(t - (todo - {c}), d)) ==
            multiset(NoticesFor(t - todo, d)) + multiset(NoticesOf(c, t[c], d))
  {
    var now := t - (todo - {c});
    assert now == (t - todo)[c := t[c]];
    forall n ensures n in NoticesFor(now, d) <==> n in NoticesFor(t - todo, d) || n in NoticesOf(c, t[c], d) {
      if n in NoticesOf(c, t[c], d) {
        assert c in now && n in NoticesOf(c, now[c], d);
      } else if n in NoticesFor(t - todo, d) {
        var c' :| c' in t - todo && n in NoticesOf(c', t[c'], d);
        assert c' in now && now[c'] == t[c'];
      }
    }
    assert NoticesFor(now, d) == NoticesFor(t - todo, d) + NoticesOf(c, t[c], d);
  }

  /** A table in which the keys outside todo have lost their session towards d. */
  ghost function PartlyDropped(t: Table, todo: set<Remote>, d: DeviceId): Table
  {
    map c | c in t && (c in todo || Dropped(t[c], d) != []) :: if c in todo then t[c] else Dropped(t[c], d)
  }

  lemma PartlyDroppedStep(t: Table, todo: set<Remote>, c: Remote, d: DeviceId)
    requires c in todo && todo <= t.Keys
    ensures var part := PartlyDropped(t, todo, d);
            && c in part && part[c] == t[c]
            && PartlyDropped(t, todo - {c}, d) ==
               if Dropped(t[c], d) == [] then part - {c} else part[c := Dropped(t[c], d)]
  {
  }

  function SetOf<T>(xs: seq<T>): set<T>
  {
    set x | x in xs
  }

  /** Devices reached by the connects of one caller. */
  ghost function Reached(t: Table, caller: CallerInfo): set<DeviceId>
  {
    set c, d | c in t && Front(t[c]).IsSameCaller(caller) && d in Targets(t[c]) :: d
  }

  /** The first and the last state of the loop over the connects. */
  lemma DropEnds(t: Table, d: DeviceId)
    ensures PartlyDropped(t, t.Keys, d) == t && PartlyDropped(t, {}, d) == DropDevice(t, d)
    ensures NoticesFor(t - t.Keys, d) == {} && t - {} == t
  {
  }

  /** A table from which the keys outside todo that belong to one caller are gone. */
  ghost function PartlyErased(t: Table, todo: set<Remote>, caller: CallerInfo): Table
  {
    map c | c in t && (c in todo || !(t[c] != [] && t[c][0].caller.IsSameCaller(caller))) :: t[c]
  }

  /** The first and the last state of the loop over the connects of a dead process. */
  lemma EraseEnds(t: Table, caller: CallerInfo)
    ensures PartlyErased(t, t.Keys, caller) == t && PartlyErased(t, {}, caller) == DropCaller(t, caller)
    ensures Reached(t - t.Keys, caller) == {} && t - {} == t
  {
  }

  lemma ReachedStep(t: Table, todo: set<Remote>, c: Remote, caller: CallerInfo)
    requires c in todo && todo <= t.Keys && t[c] != []
    ensures var part, mine := PartlyErased(t, todo, caller), t[c][0].caller.IsSameCaller(caller);
            && c in part && part[c] == t[c]
            && PartlyErased(t, todo - {c}, caller) == (if mine then part - {c} else part)
            && Reached(t - (todo - {c}), caller) == Reached(t - todo, caller) + if mine then Targets(t[c]) else {}
  {
    var now := t - (todo - {c});
    assert now == (t - todo)[c := t[c]];
    forall d ensures (d in Reached(now, caller)) <==>
                     d in Reached(t - todo, caller) || (t[c][0].caller.IsSameCaller(caller) && d in Targets(t[c])) {
      if t[c][0].caller.IsSameCaller(caller) && d in Targets(t[c]) {
        assert c in now && Front(now[c]).IsSameCaller(caller) && d in Targets(now[c]);
      } else if d in Reached(t - todo, caller) {
        var c' :| c' in t - todo && Front(t[c']).IsSameCaller(caller) && d in Targets(t[c']);
        assert c' in now && now[c'] == t[c'];
      }
    }
  }

  lemma SameOwner(core: Core, c: Remote, connect: Remote, t: Table, caller: CallerInfo)
    requires core.Ok() && TableOk(t, core.connectOwner)
    requires c in t && connect in t && t[connect][0].caller == caller && t[c][0].caller.IsSameCaller(caller)
    ensures core.connectOwner(c) == caller
  {
    assert core.connectOwner(c).IsSameCaller(core.connectOwner(connect));
  }

  /** Answers of the rest of the system to one connect request. */
  datatype Surroundings = Surroundings(appIdKnown: bool, bundleNames: Option<seq<string>>, reachable: bool,
                                       accountInfo: int, replies: seq<Reply>)
  datatype Reply = Reply(result: int, elapsed: int)

  predicate GivesUp(r: Reply)
  {
    || r.result == INVALID_REMOTE_PARAMETERS_ERR
    || r.result == REMOTE_DEVICE_BIND_ABILITY_ERR
    || r.elapsed > BIND_CONNECT_TIMEOUT
  }

  /** Whether the second and third try are made, and what decides. */
  lemma TriesExactly(env: Surroundings)
    requires |env.replies| == BIND_CONNECT_RETRY_TIMES
    ensures var first, second := env.replies[0], env.replies[1];
            && (first.result == 29360131 || first.result == 29360132 || first.elapsed > 500 ==>
                  TriesEnd(env.replies) == first.result)
            && (first.result !in {0, 29360131, 29360132} && first.elapsed <= 500 ==>
                  TriesEnd(env.replies) ==
                  if second.result in {0, 29360131, 29360132} || second.elapsed > 500 then second.result
                  else env.replies[2].result)
  {
    var replies := env.replies;
    assert replies[1..][0] == replies[1] && replies[1..][1..] == replies[2..] && replies[2..][0] == replies[2];
    assert TriesEnd(replies[2..]) == replies[2].result;
  }

  /** The peer answers OK in time: an OK reply within the retries, reached through retryable ones only. */
  ghost predicate Accepted(replies: seq<Reply>)
  {
    exists k :: 0 <= k < BIND_CONNECT_RETRY_TIMES && k < |replies| && replies[k].result == ERR_OK &&
                forall j :: 0 <= j < k ==> replies[j].result != ERR_OK && !GivesUp(replies[j])
  }

  /** The code of the first reply that ends the tries, or of the last try. */
  function TriesEnd(replies: seq<Reply>): int
    requires replies != []
  {
    if replies[0].result == ERR_OK || GivesUp(replies[0]) || |replies| == 1 then replies[0].result
    else TriesEnd(replies[1..])
  }

  function TryCode(connect: Remote, env: Surroundings): int
    requires env.replies != []
  {
    if !env.reachable || connect == NULL then INVALID_PARAMETERS_ERR
    else if env.accountInfo != ERR_OK then env.accountInfo
    else TriesEnd(env.replies)
  }

  /** A caller on this device, as ConnectRemoteAbility builds it. */
  predicate LocalCaller(caller: CallerInfo, local: DeviceId)
  {
    caller.uid >= 0 && caller.callerType == CALLER_TYPE_HARMONY && caller.sourceDeviceId == local
  }

  /** Bundle names follow from the identity of a caller. */
  ghost predicate NamesStable(owner: Owners)
  {
    forall a, b {:trigger owner(a), owner(b)} :: owner(a).IsSameCaller(owner(b)) ==> owner(a) == owner(b)
  }

  /** The state of one device's service, as a value. Who owns a connect object never changes. */
  datatype Core = Core(local: DeviceId, connectOwner: Owners, callOwner: Owners,
                       connects: Table, tracking: Tracking, callees: Callees, callers: Table,
                       listener: Remote, reports: seq<Report>, since: Lists)
  {
    function Now(): Lists { Lists(connects, callees, callers) }

    ghost predicate Ok()
    {
      && NamesStable(connectOwner)
      && TableOk(connects, connectOwner)
      && (forall c <- connects :: LocalCaller(connectOwner(c), local))
      && TableOk(callers, callOwner)
      && TrackingAgrees(tracking, connects)
      && Replays(listener, reports, since, Now())
    }

    function Log(r: Report): seq<Report> { Reported(listener, reports, r) }

    function PutConnect(c: Remote, v: seq<Session>): Core
    {
      if c in connects then this.(connects := connects[c := v])
      else this.(connects := connects[c := v], reports := Log(Report(Add, ConnectIdentity(v))),
                 tracking := tracking[FrontUid(v) := Tracked(tracking, FrontUid(v)) + 1])
    }

    function EraseConnect(c: Remote): Core
      requires c in connects
    {
      this.(connects := connects - {c}, tracking := Decreased(tracking, FrontUid(connects[c])),
            reports := Log(Report(Remove, ConnectIdentity(connects[c]))))
    }

    function PutCallee(c: Remote, info: ConnectInfo): Core
    {
      this.(callees := callees[c := info], reports := Log(Report(Add, CalleeIdentity(info))))
    }

    /** The record step of an accepted connect, for which an earlier step found the connect known or new. */
    function PutCalleeLate(c: Remote, info: ConnectInfo, known: bool): Core
    {
      if known then this
      else this.(callees := if c in callees then callees else callees[c := info],
                 reports := Log(Report(Add, CalleeIdentity(info))))
    }

    function EraseCallee(c: Remote): Core
      requires c in callees
    {
      this.(callees := callees - {c}, reports := Log(Report(Remove, CalleeIdentity(callees[c]))))
    }

    function PutCaller(c: Remote, v: seq<Session>): Core
    {
      if c in callers then this.(callers := callers[c := v])
      else this.(callers := callers[c := v], reports := Log(Report(Add, CallIdentity(v))))
    }

    function EraseCaller(c: Remote): Core
      requires c in callers
    {
      this.(callers := callers - {c}, reports := Log(Report(Remove, CallIdentity(callers[c]))))
    }

    lemma PutConnectOk(c: Remote, v: seq<Session>)
      requires Ok() && c != NULL && v != [] && SessionsOk(v, connectOwner(c)) && LocalCaller(connectOwner(c), local)
      ensures PutConnect(c, v).Ok()
    {
      var next := PutConnect(c, v);
      if c in connects {
        TrackingReplace(tracking, connects, c, v);
        forall k ensures Listed(next.Now(), k) == Listed(Now(), k) {
          TallyReplace(connects, ConnectIdentity, c, v, k);
        }
      } else {
        TrackingInsert(tracking, connects, c, v);
        var r := Report(Add, ConnectIdentity(v));
        forall k ensures Listed(next.Now(), k) == Listed(Now(), k) + Delta(r, k) {
          TallyInsert(connects, ConnectIdentity, c, v, k);
        }
        ReplaysStep(listener, reports, since, Now(), r, next.Now());
      }
    }

    lemma EraseConnectOk(c: Remote)
      requires Ok() && c in connects
      ensures EraseConnect(c).Ok()
    {
      TrackingRemove(tracking, connects, c);
      var next, r := EraseConnect(c), Report(Remove, ConnectIdentity(connects[c]));
      forall k ensures Listed(next.Now(), k) == Listed(Now(), k) + Delta(r, k) {
        TallyRemove(connects, ConnectIdentity, c, k);
      }
      ReplaysStep(listener, reports, since, Now(), r, next.Now());
    }

    lemma PutCalleeOk(c: Remote, info: ConnectInfo)
      requires Ok() && c !in callees
      ensures PutCallee(c, info).Ok()
    {
      var next, r := PutCallee(c, info), Report(Add, CalleeIdentity(info));
      forall k ensures Listed(next.Now(), k) == Listed(Now(), k) + Delta(r, k) {
        TallyInsert(callees, CalleeIdentity, c, info, k);
      }
      ReplaysStep(listener, reports, since, Now(), r, next.Now());
    }

    /** Recording keeps the reports replaying to the list, and leaves the accepted connect recorded, exactly if what was
        found earlier still holds. */
    lemma PutCalleeLateExact(c: Remote, info: ConnectInfo, known: bool)
      requires Ok() && c != NULL
      ensures PutCalleeLate(c, info, known).Ok() <==> known || c !in callees || listener == NULL
      ensures c in PutCalleeLate(c, info, known).callees <==> !known || c in callees
      ensures listener != NULL ==>
                (PutCalleeLate(c, info, known).Ok() && c in PutCalleeLate(c, info, known).callees <==>
                 known == (c in callees))
    {
      if c !in callees {
        PutCalleeOk(c, info);
        assert known || PutCalleeLate(c, info, known) == PutCallee(c, info);
      } else if !known && listener != NULL {
        var r, k := Report(Add, CalleeIdentity(info)), CalleeIdentity(info);
        assert (reports + [r])[..|reports|] == reports;
        assert Net(reports + [r], k) == Net(reports, k) + 1;
      }
    }

    lemma EraseCalleeOk(c: Remote)
      requires Ok() && c in callees
      ensures EraseCallee(c).Ok()
    {
      var next, r := EraseCallee(c), Report(Remove, CalleeIdentity(callees[c]));
      forall k ensures Listed(next.Now(), k) == Listed(Now(), k) + Delta(r, k) {
        TallyRemove(callees, CalleeIdentity, c, k);
      }
      ReplaysStep(listener, reports, since, Now(), r, next.Now());
    }

    lemma PutCallerOk(c: Remote, v: seq<Session>)
      requires Ok() && c != NULL && v != [] && SessionsOk(v, callOwner(c))
      ensures PutCaller(c, v).Ok()
    {
      var next := PutCaller(c, v);
      if c in callers {
        forall k ensures Listed(next.Now(), k) == Listed(Now(), k) {
          TallyReplace(callers, CallIdentity, c, v, k);
        }
      } else {
        var r := Report(Add, CallIdentity(v));
        forall k ensures Listed(next.Now(), k) == Listed(Now(), k) + Delta(r, k) {
          TallyInsert(callers, CallIdentity, c, v, k);
        }
        ReplaysStep(listener, reports, since, Now(), r, next.Now());
      }
    }

    lemma EraseCallerOk(c: Remote)
      requires Ok() && c in callers
      ensures EraseCaller(c).Ok()
    {
      var next, r := EraseCaller(c), Report(Remove, CallIdentity(callers[c]));
      forall k ensures Listed(next.Now(), k) == Listed(Now(), k) + Delta(r, k) {
        TallyRemove(callers, CallIdentity, c, k);
      }
      ReplaysStep(listener, reports, since, Now(), r, next.Now());
    }
  }

  class DistributedSchedService {
    const localDeviceId: DeviceId
    const dmsCallbackTask: CallbackTasks.DmsCallbackTask?
    ghost const connectOwner: Owners
    ghost const callOwner: Owners

    var distributedConnectAbilityMap: Table
    var trackingUidMap: Tracking
    var connectAbilityMap: Callees
    var callerMap: Table
    var distributedComponentListener: Remote
    var reports: seq<Report>
    var notices: seq<Notice>
    ghost var since: Lists

    ghost function State(): Core
      reads this
    {
      Core(localDeviceId, connectOwner, callOwner, distributedConnectAbilityMap, trackingUidMap, connectAbilityMap,
           callerMap, distributedComponentListener, reports, since)
    }

    ghost predicate Valid()
      reads this
    {
      State().Ok()
    }

    constructor (localDeviceId: DeviceId, dmsCallbackTask: CallbackTasks.DmsCallbackTask?, ghost connectOwner: Owners,
                 ghost callOwner: Owners)
      requires NamesStable(connectOwner)
      ensures Valid() && State().Now() == Lists(map[], map[], map[])
      ensures this.localDeviceId == localDeviceId && this.connectOwner == connectOwner && this.callOwner == callOwner
      ensures this.dmsCallbackTask == dmsCallbackTask
    {
      this.dmsCallbackTask := dmsCallbackTask;
      this.localDeviceId, this.connectOwner, this.callOwner := localDeviceId, connectOwner, callOwner;
      distributedConnectAbilityMap, trackingUidMap, connectAbilityMap, callerMap := map[], map[], map[], map[];
      distributedComponentListener, reports, notices := NULL, [], [];
      since := Lists(map[], map[], map[]);
    }

    method RegisterDistributedComponentListener(callback: Remote) returns (result: int)
      requires Valid()
      modifies this`distributedComponentListener, this`since
      ensures Valid()
      ensures result == if callback == NULL then INVALID_PARAMETERS_ERR else ERR_OK
      ensures distributedComponentListener == if callback == NULL then old(distributedComponentListener) else callback
      ensures since == if callback != NULL && old(distributedComponentListener) == NULL then State().Now() else old(since)
    {
      if callback == NULL {
        return INVALID_PARAMETERS_ERR;
      }
      if distributedComponentListener == NULL {
        since := State().Now();
      }
      distributedComponentListener := callback;
      return ERR_OK;
    }

    method ReportDistributedComponentChange(r: Report)
      modifies this`reports
      ensures reports == Reported(distributedComponentListener, old(reports), r)
    {
      if distributedComponentListener == NULL {
        return;
      }
      reports := reports + [r];
    }

    method CheckDistributedConnectLocked(uid: int) returns (result: int)
      requires Valid()
      ensures result == ERR_OK <==>
              uid >= 0 && Tally(distributedConnectAbilityMap, FrontUid, uid) < MAX_DISTRIBUTED_CONNECT_NUM
      ensures result in {ERR_OK, BIND_ABILITY_UID_INVALID_ERR, BIND_ABILITY_LEAK_ERR}
      ensures result == BIND_ABILITY_UID_INVALID_ERR <==> uid < 0
    {
      if uid < 0 {
        return BIND_ABILITY_UID_INVALID_ERR;
      }
      if uid in trackingUidMap && trackingUidMap[uid] >= MAX_DISTRIBUTED_CONNECT_NUM {
        return BIND_ABILITY_LEAK_ERR;
      }
      return ERR_OK;
    }

    method DecreaseConnectLocked(uid: int)
      modifies this`trackingUidMap
      ensures trackingUidMap == Decreased(old(trackingUidMap), uid)
    {
      if uid < 0 {
        return;
      }
      if uid in trackingUidMap {
        var conns := trackingUidMap[uid];
        if conns > 0 {
          conns := conns - 1;
        }
        trackingUidMap := trackingUidMap[uid := conns];
        if conns == 0 {
          trackingUidMap := trackingUidMap - {uid};
        }
      }
    }

    static method AddSession(sessions: seq<Session>, d: DeviceId, e: Element, caller: CallerInfo)
      returns (r: seq<Session>)
      ensures r == Connected(sessions, d, e, caller)
    {
      var i := FindSession(sessions, d);
      if i < |sessions| {
        var elements := sessions[i].elements;
        if e !in elements {
          elements := elements + [e];
        }
        return sessions[i := sessions[i].(elements := elements)];
      }
      return sessions + [Session(caller.sourceDeviceId, d, [e], caller)];
    }

    static method FindSession(sessions: seq<Session>, d: DeviceId) returns (i: nat)
      ensures i == IndexTo(sessions, d)
    {
      i := 0;
      while i < |sessions| && sessions[i].destination != d
        invariant i <= |sessions|
        invariant forall j :: 0 <= j < i ==> sessions[j].destination != d
      {
        i := i + 1;
      }
    }

    method RemoteConnectAbilityMappingLocked(connect: Remote, remoteDeviceId: DeviceId, element: Element,
                                             callerInfo: CallerInfo)
      requires Valid() && remoteDeviceId != "" && remoteDeviceId != localDeviceId
      requires connect != NULL ==> connectOwner(connect) == callerInfo && LocalCaller(callerInfo, localDeviceId)
      modifies this`distributedConnectAbilityMap, this`trackingUidMap, this`reports
      ensures Valid()
      ensures distributedConnectAbilityMap ==
              if connect == NULL then old(distributedConnectAbilityMap)
              else Connect(old(distributedConnectAbilityMap), connect, remoteDeviceId, element, callerInfo)
    {
      if connect == NULL {
        return;
      }
      ghost var before := State();
      ConnectedExact(SessionsOf(before.connects, connect), remoteDeviceId, element, callerInfo);
      var sessions := SessionsOf(distributedConnectAbilityMap, connect);
      if connect !in distributedConnectAbilityMap {
        trackingUidMap := trackingUidMap[callerInfo.uid := Tracked(trackingUidMap, callerInfo.uid) + 1];
        ReportDistributedComponentChange(Report(Add, AsConnect(callerInfo)));
      }
      sessions := AddSession(sessions, remoteDeviceId, element, callerInfo);
      distributedConnectAbilityMap := distributedConnectAbilityMap[connect := sessions];
      assert State() == before.PutConnect(connect, sessions);
      before.PutConnectOk(connect, sessions);
    }

    method NotifyDeviceOfflineToAppLocked(connect: Remote, session: Session)
      requires connect != NULL && NoRepeats(session.elements)
      modifies this`notices
      ensures multiset(notices) == multiset(old(notices)) + multiset(set e <- session.elements :: Notice(connect, e))
    {
      var i := 0;
      while i < |session.elements|
        invariant i <= |session.elements|
        invariant multiset(notices) ==
                  multiset(old(notices)) + multiset(set e <- session.elements[..i] :: Notice(connect, e))
      {
        NoticesAdd(connect, session.elements, i);
        notices := notices + [Notice(connect, session.elements[i])];
        i := i + 1;
      }
      assert session.elements[..i] == session.elements;
    }

    /** Erases one connect: counter, report and entry. */
    method EraseConnect(c: Remote, uid: int, callerInfo: CallerInfo)
      requires Valid() && c in distributedConnectAbilityMap
      requires callerInfo == connectOwner(c) && uid == callerInfo.uid
      modifies this`distributedConnectAbilityMap, this`trackingUidMap, this`reports
      ensures Valid() && distributedConnectAbilityMap == old(distributedConnectAbilityMap) - {c}
    {
      ghost var before := State();
      DecreaseConnectLocked(uid);
      ReportDistributedComponentChange(Report(Remove, AsConnect(callerInfo)));
      distributedConnectAbilityMap := distributedConnectAbilityMap - {c};
      assert State() == before.EraseConnect(c);
      before.EraseConnectOk(c);
    }

    /** Takes the session towards the device out of a list and notifies the application about its elements. */
    method TakeSession(c: Remote, sessions: seq<Session>, deviceId: DeviceId, ghost owner: CallerInfo)
      returns (rest: seq<Session>, callerInfo: CallerInfo)
      requires c != NULL && SessionsOk(sessions, owner)
      modifies this`notices
      ensures rest == Dropped(sessions, deviceId)
      ensures callerInfo == if deviceId in Targets(sessions) then owner else NOBODY
      ensures multiset(notices) == multiset(old(notices)) + multiset(NoticesOf(c, sessions, deviceId))
    {
      rest, callerInfo := sessions, NOBODY;
      var i := FindSession(sessions, deviceId);
      SessionsTo(sessions, c, deviceId, owner);
      if i < |sessions| {
        assert sessions[i] in sessions;
        NotifyDeviceOfflineToAppLocked(c, sessions[i]);
        callerInfo := sessions[i].caller;
        rest := sessions[..i] + sessions[i + 1..];
      }
    }

    /** One turn of the erase-while-iterating loop of ProcessDeviceOffline. */
    method DropConnect(c: Remote, deviceId: DeviceId)
      requires Valid() && c in distributedConnectAbilityMap
      modifies this`distributedConnectAbilityMap, this`trackingUidMap, this`reports, this`notices
      ensures Valid()
      ensures var sessions := Dropped(old(distributedConnectAbilityMap)[c], deviceId);
              distributedConnectAbilityMap == if sessions == [] then old(distributedConnectAbilityMap) - {c}
                                              else old(distributedConnectAbilityMap)[c := sessions]
      ensures multiset(notices) == multiset(old(notices)) +
              multiset(NoticesOf(c, old(distributedConnectAbilityMap)[c], deviceId))
    {
      ghost var before := State();
      var sessions := distributedConnectAbilityMap[c];
      DroppedExact(sessions, deviceId, connectOwner(c));
      var uid := FrontUid(sessions);
      hide Dropped, NoticesOf;
      var rest, callerInfo := TakeSession(c, sessions, deviceId, connectOwner(c));
      if rest == [] {
        EraseConnect(c, uid, callerInfo);
      } else {
        distributedConnectAbilityMap := distributedConnectAbilityMap[c := rest];
        assert State() == before.PutConnect(c, rest);
        before.PutConnectOk(c, rest);
      }
    }

    method DropConnectsTo(deviceId: DeviceId)
      requires Valid()
      modifies this`distributedConnectAbilityMap, this`trackingUidMap, this`reports, this`notices
      ensures Valid()
      ensures distributedConnectAbilityMap == DropDevice(old(distributedConnectAbilityMap), deviceId)
      ensures multiset(notices) ==
              multiset(old(notices)) + multiset(NoticesFor(old(distributedConnectAbilityMap), deviceId))
    {
      ghost var t := distributedConnectAbilityMap;
      DropEnds(t, deviceId);
      hide Core.Ok, NoticesFor, NoticesOf, PartlyDropped, DropDevice;
      var todo := distributedConnectAbilityMap.Keys;
      while todo != {}
        invariant Valid() && todo <= t.Keys
        invariant distributedConnectAbilityMap == PartlyDropped(t, todo, deviceId)
        invariant multiset(notices) == multiset(old(notices)) + multiset(NoticesFor(t - todo, deviceId))
      {
        var c := Pick(todo);
        PartlyDroppedStep(t, todo, c, deviceId);
        NoticesStep(t, todo, c, deviceId);
        DropConnect(c, deviceId);
        todo := todo - {c};
      }
    }

    method DropCalleesFrom(deviceId: DeviceId)
      requires Valid()
      modifies this`connectAbilityMap, this`reports
      ensures Valid()
      ensures connectAbilityMap == DropSource(old(connectAbilityMap), deviceId)
    {
      ghost var t := connectAbilityMap;
      var todo := connectAbilityMap.Keys;
      while todo != {}
        invariant Valid() && todo <= t.Keys
        invariant connectAbilityMap ==
                  map c | c in t && (c in todo || t[c].caller.sourceDeviceId != deviceId) :: t[c]
      {
        var c := Pick(todo);
        ghost var before := State();
        var connectInfo := connectAbilityMap[c];
        if deviceId == connectInfo.caller.sourceDeviceId {
          ReportDistributedComponentChange(Report(Remove, CalleeIdentity(connectInfo)));
          connectAbilityMap := connectAbilityMap - {c};
          before.EraseCalleeOk(c);
          assert State() == before.EraseCallee(c);
        }
        todo := todo - {c};
      }
    }

    /** One turn of the erase-while-iterating loop of ProcessCalleeOffline. */
    method DropCaller(c: Remote, deviceId: DeviceId)
      requires Valid() && c in callerMap
      modifies this`callerMap, this`reports
      ensures Valid()
      ensures var sessions := Dropped(old(callerMap)[c], deviceId);
              callerMap == if sessions == [] then old(callerMap) - {c} else old(callerMap)[c := sessions]
    {
      ghost var before := State();
      var sessions := callerMap[c];
      DroppedExact(sessions, deviceId, callOwner(c));
      var i := FindSession(sessions, deviceId);
      var callerInfo := NOBODY;
      if i < |sessions| {
        callerInfo := sessions[i].caller;
        sessions := sessions[..i] + sessions[i + 1..];
      }
      if sessions == [] {
        ReportDistributedComponentChange(Report(Remove, AsCall(callerInfo)));
        callerMap := callerMap - {c};
        assert State() == before.EraseCaller(c);
        before.EraseCallerOk(c);
      } else {
        callerMap := callerMap[c := sessions];
        assert State() == before.PutCaller(c, sessions);
        before.PutCallerOk(c, sessions);
      }
    }

    method ProcessCalleeOffline(deviceId: DeviceId)
      requires Valid()
      modifies this`callerMap, this`reports
      ensures Valid()
      ensures callerMap == DropDevice(old(callerMap), deviceId)
    {
      ghost var t := callerMap;
      var todo := callerMap.Keys;
      while todo != {}
        invariant Valid() && todo <= t.Keys
        invariant callerMap == PartlyDropped(t, todo, deviceId)
      {
        var c := Pick(todo);
        PartlyDroppedStep(t, todo, c, deviceId);
        DropCaller(c, deviceId);
        todo := todo - {c};
      }
    }

    method ProcessFreeInstallOffline(deviceId: DeviceId)
      requires dmsCallbackTask != null ==> dmsCallbackTask.Valid()
      modifies dmsCallbackTask
      ensures dmsCallbackTask != null ==>
                && dmsCallbackTask.Valid()
                && dmsCallbackTask.State() == CallbackTasks.Offline(old(dmsCallbackTask.State()), deviceId)
                && multiset(dmsCallbackTask.sent) == multiset(old(dmsCallbackTask.sent)) +
                   multiset(CallbackTasks.OfflineMessages(old(dmsCallbackTask.State()), deviceId))
    {
      if dmsCallbackTask == null {
        return;
      }
      dmsCallbackTask.NotifyDeviceOffline(deviceId);
    }

    method ProcessDeviceOffline(deviceId: DeviceId)
      requires Valid() && (dmsCallbackTask != null ==> dmsCallbackTask.Valid())
      modifies this`distributedConnectAbilityMap, this`trackingUidMap, this`connectAbilityMap, this`callerMap
      modifies this`reports, this`notices, dmsCallbackTask
      ensures Valid()
      ensures dmsCallbackTask != null ==>
                var known := localDeviceId != "" && deviceId != "" && localDeviceId != deviceId;
                var tasks := old(dmsCallbackTask.State());
                && dmsCallbackTask.Valid()
                && dmsCallbackTask.State() == (if known then CallbackTasks.Offline(tasks, deviceId) else tasks)
                && multiset(dmsCallbackTask.sent) == multiset(old(dmsCallbackTask.sent)) +
                   multiset(if known then CallbackTasks.OfflineMessages(tasks, deviceId) else {})
      ensures var known := localDeviceId != "" && deviceId != "" && localDeviceId != deviceId;
              && distributedConnectAbilityMap == (if known then DropDevice(old(distributedConnectAbilityMap), deviceId)
                                                  else old(distributedConnectAbilityMap))
              && connectAbilityMap == (if known then DropSource(old(connectAbilityMap), deviceId)
                                       else old(connectAbilityMap))
              && callerMap == (if known then DropDevice(old(callerMap), deviceId) else old(callerMap))
              && multiset(notices) == multiset(old(notices)) +
                 multiset(if known then NoticesFor(old(distributedConnectAbilityMap), deviceId) else {})
    {
      hide Core.Ok, NoticesFor, DropDevice, DropSource, CallbackTasks.Offline, CallbackTasks.OfflineMessages;
      if localDeviceId == "" || deviceId == "" || localDeviceId == deviceId {
        return;
      }
      DropConnectsTo(deviceId);
      DropCalleesFrom(deviceId);
      ProcessCalleeOffline(deviceId);
      ProcessFreeInstallOffline(deviceId);
    }

    method ProcessConnectDied(connect: Remote) returns (notifyList: seq<DeviceId>)
      requires Valid()
      modifies this`distributedConnectAbilityMap, this`trackingUidMap, this`reports
      ensures Valid() && NoRepeats(notifyList)
      ensures connect !in old(distributedConnectAbilityMap) ==>
                notifyList == [] && distributedConnectAbilityMap == old(distributedConnectAbilityMap)
      ensures connect in old(distributedConnectAbilityMap) ==>
                && distributedConnectAbilityMap ==
                   Sessions.DropCaller(old(distributedConnectAbilityMap), connectOwner(connect))
                && SetOf(notifyList) == Reached(old(distributedConnectAbilityMap), connectOwner(connect))
      ensures connect in old(distributedConnectAbilityMap) ==>
                var dead := old(distributedConnectAbilityMap)[connect][0].caller;
                forall c <- old(distributedConnectAbilityMap) ::
                  var owner := old(distributedConnectAbilityMap)[c][0].caller;
                  && (c in distributedConnectAbilityMap <==>
                        owner.uid != dead.uid || owner.pid != dead.pid || owner.callerType != dead.callerType ||
                        owner.sourceDeviceId != dead.sourceDeviceId)
                  && (c in distributedConnectAbilityMap ==>
                        distributedConnectAbilityMap[c] == old(distributedConnectAbilityMap)[c])
    {
      notifyList := [];
      if connect == NULL || connect !in distributedConnectAbilityMap || distributedConnectAbilityMap[connect] == [] {
        return;
      }
      ghost var t := distributedConnectAbilityMap;
      var callerInfo := distributedConnectAbilityMap[connect][0].caller;
      var todo := distributedConnectAbilityMap.Keys;
      EraseEnds(t, callerInfo);
      while todo != {}
        invariant Valid() && todo <= t.Keys
        invariant distributedConnectAbilityMap == PartlyErased(t, todo, callerInfo)
        invariant NoRepeats(notifyList)
        invariant SetOf(notifyList) == Reached(t - todo, callerInfo)
      {
        var c := Pick(todo);
        ReachedStep(t, todo, c, callerInfo);
        var sessions := distributedConnectAbilityMap[c];
        if sessions != [] && sessions[0].caller.IsSameCaller(callerInfo) {
          notifyList := AddTargets(notifyList, sessions);
          SameOwner(State(), c, connect, t, callerInfo);
          EraseConnect(c, callerInfo.uid, callerInfo);
        }
        todo := todo - {c};
      }
    }

    /** Appends the destinations of a session list that are not in the list yet. */
    static method AddTargets(devices: seq<DeviceId>, sessions: seq<Session>) returns (r: seq<DeviceId>)
      requires NoRepeats(devices)
      ensures NoRepeats(r) && SetOf(r) == SetOf(devices) + Targets(sessions)
    {
      r := devices;
      var i := 0;
      while i < |sessions|
        invariant i <= |sessions| && NoRepeats(r)
        invariant SetOf(r) == SetOf(devices) + Targets(sessions[..i])
      {
        ghost var seen := r;
        if sessions[i].destination !in r {
          r := r + [sessions[i].destination];
        }
        assert SetOf(r) == SetOf(seen) + {sessions[i].destination};
        assert sessions[..i + 1] == sessions[..i] + [sessions[i]];
        i := i + 1;
      }
      assert sessions[..i] == sessions;
    }

    method DisconnectRemoteAbility(connect: Remote) returns (result: int, remotes: seq<DeviceId>)
      requires Valid()
      modifies this`distributedConnectAbilityMap, this`trackingUidMap, this`reports
      ensures Valid() && distributedConnectAbilityMap == old(distributedConnectAbilityMap) - {connect}
      ensures NoRepeats(remotes)
      ensures SetOf(remotes) == Targets(SessionsOf(old(distributedConnectAbilityMap), connect))
      ensures result == if connect == NULL then INVALID_PARAMETERS_ERR
                        else if connect in old(distributedConnectAbilityMap) then ERR_OK else NO_CONNECT_CALLBACK_ERR
    {
      if connect == NULL {
        return INVALID_PARAMETERS_ERR, [];
      }
      var sessions: seq<Session> := [];
      if connect in distributedConnectAbilityMap {
        sessions := distributedConnectAbilityMap[connect];
        EraseConnect(connect, FrontUid(sessions), Front(sessions));
      }
      if sessions == [] {
        return NO_CONNECT_CALLBACK_ERR, [];
      }
      remotes := DisconnectEach(sessions, connectOwner(connect));
      return ERR_OK, remotes;
    }

    /** One DisconnectAbilityFromRemote call per session. */
    static method DisconnectEach(sessions: seq<Session>, ghost owner: CallerInfo) returns (remotes: seq<DeviceId>)
      requires SessionsOk(sessions, owner)
      ensures NoRepeats(remotes) && SetOf(remotes) == Targets(sessions)
    {
      remotes := [];
      var i := 0;
      while i < |sessions|
        invariant i <= |sessions| && |remotes| == i
        invariant forall j :: 0 <= j < i ==> remotes[j] == sessions[j].destination
        invariant SetOf(remotes) == Targets(sessions[..i])
      {
        remotes := remotes + [sessions[i].destination];
        assert sessions[..i + 1] == sessions[..i] + [sessions[i]];
        i := i + 1;
      }
      assert sessions[..i] == sessions;
    }

    /** The first locked part of ConnectAbilityFromRemote. */
    method FindConnect(connect: Remote) returns (known: bool)
      ensures known <==> connect in connectAbilityMap
    {
      return connect in connectAbilityMap;
    }

    /** The second locked part, with what the first one found. In between, other calls may have run. */
    method RecordConnect(connect: Remote, element: Element, callerInfo: CallerInfo, known: bool)
      requires Valid() && connect != NULL
      modifies this`connectAbilityMap, this`reports
      ensures State() == old(State()).PutCalleeLate(connect, ConnectInfo(callerInfo, element), known)
      ensures Valid() <==> known || connect !in old(connectAbilityMap) || distributedComponentListener == NULL
    {
      ghost var before := State();
      var connectInfo := ConnectInfo(callerInfo, element);
      before.PutCalleeLateExact(connect, connectInfo, known);
      if !known {
        ReportDistributedComponentChange(Report(Add, CalleeIdentity(connectInfo)));
        if connect !in connectAbilityMap {
          connectAbilityMap := connectAbilityMap[connect := connectInfo];
        }
      }
      assert State() == before.PutCalleeLate(connect, connectInfo, known);
    }

    /** For a caller of another type nothing is looked up: `stray` is how the comparison with the unset iterator comes
        out. */
    method ConnectAbilityFromRemote(connect: Remote, destination: DeviceId, element: Element, callerInfo: CallerInfo,
                                    permission: int, adapterResult: int, stray: bool) returns (result: int)
      requires Valid()
      modifies this`connectAbilityMap, this`reports
      ensures result == if connect == NULL || localDeviceId == "" || destination != localDeviceId ||
                           callerInfo.sourceDeviceId == "" || callerInfo.sourceDeviceId == localDeviceId
                        then INVALID_REMOTE_PARAMETERS_ERR
                        else if permission != ERR_OK then permission else adapterResult
      ensures var known := if callerInfo.callerType == CALLER_TYPE_HARMONY then connect in old(connectAbilityMap) else stray;
              && connectAbilityMap == (if result == ERR_OK && !known && connect !in old(connectAbilityMap)
                                       then old(connectAbilityMap)[connect := ConnectInfo(callerInfo, element)]
                                       else old(connectAbilityMap))
              && (Valid() <==> result != ERR_OK || known || connect !in old(connectAbilityMap) ||
                               distributedComponentListener == NULL)
    {
      if connect == NULL {
        return INVALID_REMOTE_PARAMETERS_ERR;
      }
      if !FromRemoteOk(localDeviceId, destination, callerInfo.sourceDeviceId) {
        return INVALID_REMOTE_PARAMETERS_ERR;
      }
      if permission != ERR_OK {
        return permission;
      }
      var known := stray;
      if callerInfo.callerType == CALLER_TYPE_HARMONY {
        known := FindConnect(connect);
      }
      if adapterResult == ERR_OK {
        RecordConnect(connect, element, callerInfo, known);
      }
      return adapterResult;
    }

    method DisconnectAbilityFromRemote(connect: Remote, sourceDeviceId: DeviceId, localCalling: bool,
                                       adapterResult: int) returns (result: int)
      requires Valid()
      modifies this`connectAbilityMap, this`reports
      ensures Valid()
      ensures var accepted := connect != NULL && localDeviceId != "" && sourceDeviceId != "" &&
                              localDeviceId != sourceDeviceId;
              && connectAbilityMap == (if accepted then old(connectAbilityMap) - {connect} else old(connectAbilityMap))
              && result == if accepted && (connect in old(connectAbilityMap) || localCalling) then adapterResult
                           else INVALID_REMOTE_PARAMETERS_ERR
    {
      if connect == NULL {
        return INVALID_REMOTE_PARAMETERS_ERR;
      }
      if localDeviceId == "" || sourceDeviceId == "" || localDeviceId == sourceDeviceId {
        return INVALID_REMOTE_PARAMETERS_ERR;
      }
      if connect in connectAbilityMap {
        ghost var before := State();
        ReportDistributedComponentChange(Report(Remove, CalleeIdentity(connectAbilityMap[connect])));
        connectAbilityMap := connectAbilityMap - {connect};
        before.EraseCalleeOk(connect);
        assert State() == before.EraseCallee(connect);
      } else if !localCalling {
        return INVALID_REMOTE_PARAMETERS_ERR;
      }
      return adapterResult;
    }

    method NotifyProcessDiedFromRemote(callerInfo: CallerInfo, release: Remote -> int) returns (errCode: int)
      requires Valid()
      modifies this`connectAbilityMap, this`reports
      ensures Valid()
      ensures connectAbilityMap == DropProcess(old(connectAbilityMap), callerInfo)
      ensures forall c <- old(connectAbilityMap) ::
                var owner := old(connectAbilityMap)[c].caller;
                && (c in connectAbilityMap <==>
                      owner.uid != callerInfo.uid || owner.pid != callerInfo.pid ||
                      owner.callerType != callerInfo.callerType || owner.sourceDeviceId != callerInfo.sourceDeviceId)
                && (c in connectAbilityMap ==> connectAbilityMap[c] == old(connectAbilityMap)[c])
      ensures errCode == ERR_OK <==>
              forall c <- old(connectAbilityMap) :: callerInfo.IsSameCaller(old(connectAbilityMap)[c].caller) ==>
                                                    release(c) == ERR_OK
      ensures errCode != ERR_OK ==>
              exists c <- old(connectAbilityMap) :: callerInfo.IsSameCaller(old(connectAbilityMap)[c].caller) &&
                                                    errCode == release(c)
    {
      errCode := ERR_OK;
      ghost var t := connectAbilityMap;
      var todo := connectAbilityMap.Keys;
      while todo != {}
        invariant Valid() && todo <= t.Keys
        invariant connectAbilityMap == map c | c in t && (c in todo || !callerInfo.IsSameCaller(t[c].caller)) :: t[c]
        invariant errCode == ERR_OK <==>
                  forall c <- t :: c !in todo && callerInfo.IsSameCaller(t[c].caller) ==> release(c) == ERR_OK
        invariant errCode != ERR_OK ==> exists c <- t :: callerInfo.IsSameCaller(t[c].caller) && errCode == release(c)
      {
        var c := Pick(todo);
        ghost var before := State();
        var connectInfo := connectAbilityMap[c];
        if callerInfo.IsSameCaller(connectInfo.caller) {
          if release(c) != ERR_OK {
            errCode := release(c);
          }
          ReportDistributedComponentChange(Report(Remove, CalleeIdentity(connectInfo)));
          connectAbilityMap := connectAbilityMap - {c};
          before.EraseCalleeOk(c);
          assert State() == before.EraseCallee(c);
        }
        todo := todo - {c};
      }
    }

    method ConnectRemoteAbility(connect: Remote, remoteDeviceId: DeviceId, element: Element, callerUid: int,
                                callerPid: int, env: Surroundings) returns (result: int)
      requires Valid() && |env.replies| == BIND_CONNECT_RETRY_TIMES
      requires connect != NULL && env.bundleNames.Some? ==>
                 connectOwner(connect) ==
                 CallerInfo(callerUid, callerPid, CALLER_TYPE_HARMONY, localDeviceId, env.bundleNames.value)
      modifies this`distributedConnectAbilityMap, this`trackingUidMap, this`reports
      ensures Valid()
      ensures result == ERR_OK <==>
              && localDeviceId != "" && remoteDeviceId != "" && localDeviceId != remoteDeviceId
              && callerUid >= 0
              && Tally(old(distributedConnectAbilityMap), FrontUid, callerUid) < MAX_DISTRIBUTED_CONNECT_NUM
              && env.appIdKnown && env.bundleNames.Some? && env.reachable && connect != NULL
              && env.accountInfo == ERR_OK && Accepted(env.replies)
      ensures result ==
              if localDeviceId == "" || remoteDeviceId == "" || localDeviceId == remoteDeviceId then INVALID_PARAMETERS_ERR
              else if callerUid < 0 then BIND_ABILITY_UID_INVALID_ERR
              else if Tally(old(distributedConnectAbilityMap), FrontUid, callerUid) >= MAX_DISTRIBUTED_CONNECT_NUM
              then BIND_ABILITY_LEAK_ERR
              else if !env.appIdKnown || env.bundleNames.None? then INVALID_PARAMETERS_ERR
              else TryCode(connect, env)
      ensures distributedConnectAbilityMap ==
              if result == ERR_OK
              then Connect(old(distributedConnectAbilityMap), connect, remoteDeviceId, element, connectOwner(connect))
              else old(distributedConnectAbilityMap)
    {
      if localDeviceId == "" || remoteDeviceId == "" || localDeviceId == remoteDeviceId {
        return INVALID_PARAMETERS_ERR;
      }
      var checkResult := CheckDistributedConnectLocked(callerUid);
      if checkResult != ERR_OK {
        return checkResult;
      }
      if !env.appIdKnown || env.bundleNames.None? {
        return INVALID_PARAMETERS_ERR;
      }
      var callerInfo := CallerInfo(callerUid, callerPid, CALLER_TYPE_HARMONY, localDeviceId, env.bundleNames.value);
      result := TryConnectRemoteAbility(connect, remoteDeviceId, element, callerInfo, env);
    }

    method TryConnectRemoteAbility(connect: Remote, remoteDeviceId: DeviceId, element: Element, callerInfo: CallerInfo,
                                   env: Surroundings) returns (result: int)
      requires Valid() && |env.replies| == BIND_CONNECT_RETRY_TIMES
      requires remoteDeviceId != "" && remoteDeviceId != localDeviceId
      requires connect != NULL ==> connectOwner(connect) == callerInfo && LocalCaller(callerInfo, localDeviceId)
      modifies this`distributedConnectAbilityMap, this`trackingUidMap, this`reports
      ensures Valid()
      ensures result == TryCode(connect, env)
      ensures result == ERR_OK <==>
              env.reachable && connect != NULL && env.accountInfo == ERR_OK && Accepted(env.replies)
      ensures distributedConnectAbilityMap ==
              if result == ERR_OK
              then Connect(old(distributedConnectAbilityMap), connect, remoteDeviceId, element, callerInfo)
              else old(distributedConnectAbilityMap)
    {
      if !env.reachable || connect == NULL {
        return INVALID_PARAMETERS_ERR;
      }
      if env.accountInfo != ERR_OK {
        return env.accountInfo;
      }
      var retryTimes := BIND_CONNECT_RETRY_TIMES;
      result := REMOTE_DEVICE_BIND_ABILITY_ERR;
      while retryTimes > 0
        invariant 0 <= retryTimes <= BIND_CONNECT_RETRY_TIMES && result != ERR_OK && Valid()
        invariant distributedConnectAbilityMap == old(distributedConnectAbilityMap)
        invariant forall j :: 0 <= j < BIND_CONNECT_RETRY_TIMES - retryTimes ==>
                              env.replies[j].result != ERR_OK && !GivesUp(env.replies[j])
        invariant if retryTimes > 0
                  then TriesEnd(env.replies) == TriesEnd(env.replies[BIND_CONNECT_RETRY_TIMES - retryTimes..])
                  else result == TriesEnd(env.replies)
      {
        var reply := env.replies[BIND_CONNECT_RETRY_TIMES - retryTimes];
        retryTimes := retryTimes - 1;
        result := reply.result;
        if result == ERR_OK {
          RemoteConnectAbilityMappingLocked(connect, remoteDeviceId, element, callerInfo);
          return;
        }
        if GivesUp(reply) {
          return;
        }
      }
    }

    method SaveCallerComponent(connect: Remote, remoteDeviceId: DeviceId, element: Element, callerInfo: CallerInfo)
      requires Valid() && connect != NULL && callOwner(connect) == callerInfo
      requires remoteDeviceId != "" && remoteDeviceId != callerInfo.sourceDeviceId
      modifies this`callerMap, this`reports
      ensures Valid() && callerMap == Connect(old(callerMap), connect, remoteDeviceId, element, callerInfo)
    {
      ghost var before := State();
      ConnectedExact(SessionsOf(before.callers, connect), remoteDeviceId, element, callerInfo);
      if connect !in callerMap {
        ReportDistributedComponentChange(Report(Add, AsCall(callerInfo)));
      }
      var sessions := AddSession(SessionsOf(callerMap, connect), remoteDeviceId, element, callerInfo);
      callerMap := callerMap[connect := sessions];
      before.PutCallerOk(connect, sessions);
      assert State() == before.PutCaller(connect, sessions);
    }

    /** RemoveCallerComponent and, when the caller dies, HandleLocalCallerDied. */
    method RemoveCallerComponent(connect: Remote)
      requires Valid()
      modifies this`callerMap, this`reports
      ensures Valid() && callerMap == old(callerMap) - {connect}
    {
      if connect in callerMap {
        ghost var before := State();
        var sessions := callerMap[connect];
        if sessions != [] {
          ReportDistributedComponentChange(Report(Remove, AsCall(sessions[0].caller)));
        }
        callerMap := callerMap - {connect};
        before.EraseCallerOk(connect);
        assert State() == before.EraseCaller(connect);
      }
    }
  }

  /** Two overlapping calls for a new connect both report it: the reports then show it twice, the list once. */
  lemma OverlapReportsTwice(core: Core, c: Remote, info: ConnectInfo)
    requires core.Ok() && core.listener != NULL && c != NULL && c !in core.callees
    ensures var once := core.PutCalleeLate(c, info, false); once.Ok() && !once.PutCalleeLate(c, info, false).Ok()
  {
    core.PutCalleeLateExact(c, info, false);
    core.PutCalleeLate(c, info, false).PutCalleeLateExact(c, info, false);
  }

  /** A disconnect between the two parts of a call for a known connect leaves the accepted connect unrecorded. */
  lemma DisconnectLosesConnect(core: Core, c: Remote, info: ConnectInfo)
    requires core.Ok() && c in core.callees
    ensures var cut := core.EraseCallee(c); cut.Ok() && c !in cut.PutCalleeLate(c, info, true).callees
  {
    core.EraseCalleeOk(c);
  }

  lemma NoticesAdd(c: Remote, elements: seq<Element>, i: nat)
    requires NoRepeats(elements) && i < |elements|
    ensures multiset(set e <- elements[..i + 1] :: Notice(c, e)) ==
            multiset(set e <- elements[..i] :: Notice(c, e)) + multiset{Notice(c, elements[i])}
  {
    var sent, now := set e <- elements[..i] :: Notice(c, e), set e <- elements[..i + 1] :: Notice(c, e);
    assert elements[..i + 1] == elements[..i] + [elements[i]];
    assert now == sent + {Notice(c, elements[i])};
    assert Notice(c, elements[i]) !in sent;
  }

  /** CheckDeviceIdFromRemote. */
  predicate FromRemoteOk(local: DeviceId, destination: DeviceId, source: DeviceId)
  {
    local != "" && destination != "" && source != "" && local == destination && source != destination
  }

  lemma SessionsTo(sessions: seq<Session>, c: Remote, d: DeviceId, owner: CallerInfo)
    requires SessionsOk(sessions, owner)
    ensures var i := IndexTo(sessions, d);
            NoticesOf(c, sessions, d) == if i < |sessions| then set e <- sessions[i].elements :: Notice(c, e) else {}
  {
    var i := IndexTo(sessions, d);
    if i < |sessions| {
      assert sessions[i] in sessions;
    }
    forall s | s in sessions && s.destination == d ensures i < |sessions| && s == sessions[i] {
      var k :| 0 <= k < |sessions| && sessions[k] == s;
    }
  }
}
