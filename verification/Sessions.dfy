/** Connection tables: which sessions each connect object holds, and towards which devices. */
module Sessions {
  import opened Common

  const CALLER_TYPE_NONE := 0
  const CALLER_TYPE_HARMONY := 1
  const INVALID_CALLER_UID := -1

  datatype Element = Element(deviceId: DeviceId, bundleName: string, abilityName: string)

  datatype CallerInfo = CallerInfo(uid: int, pid: int, callerType: int, sourceDeviceId: DeviceId,
                                   bundleNames: seq<string>)
  {
    predicate IsSameCaller(other: CallerInfo)
    {
      uid == other.uid && pid == other.pid && sourceDeviceId == other.sourceDeviceId && callerType == other.callerType
    }
  }

  /** ConnectAbilitySession. The target component has one value only and is not represented. */
  datatype Session = Session(source: DeviceId, destination: DeviceId, elements: seq<Element>, caller: CallerInfo)

  type Table = map<Remote, seq<Session>>

  /** Who a connect object belongs to, for its whole life. */
  type Owners = Remote -> CallerInfo

  // ----- one session list -----

  predicate NoRepeats<T(==)>(xs: seq<T>)
  {
    forall i, j :: 0 <= i < j < |xs| ==> xs[i] != xs[j]
  }

  /** Position of the first session towards d, or the length of the list. */
  function IndexTo(sessions: seq<Session>, d: DeviceId): (i: nat)
    ensures i <= |sessions|
    ensures i < |sessions| ==> sessions[i].destination == d
    ensures forall j :: 0 <= j < i ==> sessions[j].destination != d
  {
    if sessions == [] || sessions[0].destination == d then 0 else 1 + IndexTo(sessions[1..], d)
  }

  function WithElement(elements: seq<Element>, e: Element): seq<Element>
  {
    if e in elements then elements else elements + [e]
  }

  function Connected(sessions: seq<Session>, d: DeviceId, e: Element, caller: CallerInfo): seq<Session>
  {
    var i := IndexTo(sessions, d);
    if i < |sessions| then
      sessions[i := sessions[i].(elements := WithElement(sessions[i].elements, e))]
    else
      sessions + [Session(caller.sourceDeviceId, d, [e], caller)]
  }

  function Dropped(sessions: seq<Session>, d: DeviceId): seq<Session>
  {
    var i := IndexTo(sessions, d);
    if i < |sessions| then sessions[..i] + sessions[i + 1..] else sessions
  }

  /** One session per destination, each with at least one element and no repeated one, all of one caller. */
  ghost predicate SessionsOk(sessions: seq<Session>, owner: CallerInfo)
  {
    && (forall i, j :: 0 <= i < j < |sessions| ==> sessions[i].destination != sessions[j].destination)
    && (forall i :: 0 <= i < |sessions| ==>
        && sessions[i].elements != [] && NoRepeats(sessions[i].elements)
        && sessions[i].caller == owner && sessions[i].source == owner.sourceDeviceId
        && sessions[i].destination != owner.sourceDeviceId && sessions[i].destination != "")
  }

  /** The devices a session list reaches. */
  function Targets(sessions: seq<Session>): set<DeviceId>
  {
    set s | s in sessions :: s.destination
  }

  /** The elements of device d that a session list is connected to. */
  function ElementsTo(sessions: seq<Session>, d: DeviceId): set<Element>
  {
    set s, e | s in sessions && s.destination == d && e in s.elements :: e
  }

  /** Connecting to d adds exactly element e of d and touches nothing else. */
  lemma ConnectedExact(sessions: seq<Session>, d: DeviceId, e: Element, caller: CallerInfo)
    requires SessionsOk(sessions, caller) && d != caller.sourceDeviceId && d != ""
    ensures SessionsOk(Connected(sessions, d, e, caller), caller)
    ensures Connected(sessions, d, e, caller) != []
    ensures Targets(Connected(sessions, d, e, caller)) == Targets(sessions) + {d}
    ensures forall d' :: ElementsTo(Connected(sessions, d, e, caller), d') ==
                         ElementsTo(sessions, d') + if d' == d then {e} else {}
  {
    var i, r := IndexTo(sessions, d), Connected(sessions, d, e, caller);
    ConnectedMembers(sessions, d, e, caller);
    forall d' ensures ElementsTo(r, d') == ElementsTo(sessions, d') + if d' == d then {e} else {} {
      forall x ensures x in ElementsTo(r, d') <==> x in ElementsTo(sessions, d') || (d' == d && x == e) {
        if x in ElementsTo(sessions, d') || (d' == d && x == e) {
          var s: Session :| (s in sessions && s.destination == d' && x in s.elements) || (d' == d && x == e && s == r[i]);
          assert d' == d ==> x in r[i].elements;
        }
      }
    }
  }

  /** Only the session towards d differs, and there is exactly one of it afterwards. */
  lemma ConnectedMembers(sessions: seq<Session>, d: DeviceId, e: Element, caller: CallerInfo)
    requires SessionsOk(sessions, caller)
    ensures var i, r := IndexTo(sessions, d), Connected(sessions, d, e, caller);
            && r[i] in r && r[i].destination == d
            && (forall s :: s in r && s.destination == d ==> s == r[i])
            && (forall s: Session :: s.destination != d ==> (s in r <==> s in sessions))
            && (forall x :: x in r[i].elements <==> x == e || (i < |sessions| && x in sessions[i].elements))
            && (forall s :: s in sessions && s.destination == d ==> i < |sessions| && s == sessions[i])
  {
    var i, r := IndexTo(sessions, d), Connected(sessions, d, e, caller);
    forall s | s in r && s != r[i] ensures s in sessions && s.destination != d {
      var k :| 0 <= k < |r| && r[k] == s;
      assert sessions[k] == s;
    }
    forall s | s in sessions && s.destination != d ensures s in r {
      var k :| 0 <= k < |sessions| && sessions[k] == s;
      assert r[k] == s;
    }
    forall s | s in sessions && s.destination == d ensures i < |sessions| && s == sessions[i] {
      var k :| 0 <= k < |sessions| && sessions[k] == s;
    }
  }

  lemma DroppedMembers(sessions: seq<Session>, d: DeviceId, s: Session)
    requires forall i, j :: 0 <= i < j < |sessions| ==> sessions[i].destination != sessions[j].destination
    ensures s in Dropped(sessions, d) <==> s in sessions && s.destination != d
  {
    var i, rest := IndexTo(sessions, d), Dropped(sessions, d);
    if s in sessions && s.destination != d {
      var j :| 0 <= j < |sessions| && sessions[j] == s;
      assert rest[if j < i then j else j - 1] == s;
    }
    if s in rest {
      var k :| 0 <= k < |rest| && rest[k] == s;
      assert s == sessions[if k < i then k else k + 1];
    }
  }

  /** Dropping d removes the session towards d and no other. */
  lemma DroppedExact(sessions: seq<Session>, d: DeviceId, owner: CallerInfo)
    requires SessionsOk(sessions, owner)
    ensures SessionsOk(Dropped(sessions, d), owner)
    ensures forall s :: s in Dropped(sessions, d) <==> s in sessions && s.destination != d
    ensures Targets(Dropped(sessions, d)) == Targets(sessions) - {d}
  {
    assert SessionsOk(Dropped(sessions, d), owner);
    forall s ensures s in Dropped(sessions, d) <==> s in sessions && s.destination != d {
      DroppedMembers(sessions, d, s);
    }
    hide Dropped, SessionsOk;
  }

  // ----- whole tables -----

  ghost predicate TableOk(t: Table, owner: Owners)
  {
    forall c <- t :: c != NULL && t[c] != [] && SessionsOk(t[c], owner(c))
  }

  /** Every (connect, session) pair of a table. */
  ghost function Routes(t: Table): set<(Remote, Session)>
  {
    set c, s | c in t && s in t[c] :: (c, s)
  }

  /** Some session of c goes to d. */
  predicate HasRoute(t: Table, c: Remote, d: DeviceId)
  {
    c in t && d in Targets(t[c])
  }

  function SessionsOf(t: Table, c: Remote): seq<Session>
  {
    if c in t then t[c] else []
  }

  function Connect(t: Table, c: Remote, d: DeviceId, e: Element, caller: CallerInfo): Table
  {
    t[c := Connected(SessionsOf(t, c), d, e, caller)]
  }

  function DropDevice(t: Table, d: DeviceId): Table
  {
    map c | c in t && Dropped(t[c], d) != [] :: Dropped(t[c], d)
  }

  function DropCaller(t: Table, caller: CallerInfo): Table
  {
    map c | c in t && !(t[c] != [] && t[c][0].caller.IsSameCaller(caller)) :: t[c]
  }

  /** GetUidLocked. */
  function FrontUid(sessions: seq<Session>): int
  {
    if sessions == [] then INVALID_CALLER_UID else sessions[0].caller.uid
  }

  /** Connecting c to d adds exactly element e of d to c; every other route and element stays. */
  lemma ConnectExact(t: Table, c: Remote, d: DeviceId, e: Element, caller: CallerInfo, owner: Owners)
    requires TableOk(t, owner) && c != NULL && owner(c) == caller
    requires d != caller.sourceDeviceId && d != ""
    ensures TableOk(Connect(t, c, d, e, caller), owner)
    ensures Connect(t, c, d, e, caller).Keys == t.Keys + {c}
    ensures forall c', d' :: HasRoute(Connect(t, c, d, e, caller), c', d') <==>
                             HasRoute(t, c', d') || (c' == c && d' == d)
    ensures forall c', d' :: ElementsTo(SessionsOf(Connect(t, c, d, e, caller), c'), d') ==
                             ElementsTo(SessionsOf(t, c'), d') + if c' == c && d' == d then {e} else {}
  {
    ConnectedExact(SessionsOf(t, c), d, e, caller);
  }

  /** Dropping a device removes every session towards it, no other one, and leaves no empty list. */
  lemma DropDeviceExact(t: Table, d: DeviceId, owner: Owners)
    requires TableOk(t, owner)
    ensures TableOk(DropDevice(t, d), owner)
    ensures Routes(DropDevice(t, d)) == set r <- Routes(t) | r.1.destination != d
    ensures forall c, d' :: HasRoute(DropDevice(t, d), c, d') <==> HasRoute(t, c, d') && d' != d
  {
    forall c <- t
      ensures SessionsOk(Dropped(t[c], d), owner(c))
      ensures forall s :: s in Dropped(t[c], d) <==> s in t[c] && s.destination != d
      ensures Targets(Dropped(t[c], d)) == Targets(t[c]) - {d}
    {
      DroppedExact(t[c], d, owner(c));
    }
    DropDeviceRoutes(t, d);
  }

  lemma DropDeviceRoutes(t: Table, d: DeviceId)
    requires forall c, s :: c in t ==> (s in Dropped(t[c], d) <==> s in t[c] && s.destination != d)
    ensures Routes(DropDevice(t, d)) == set r <- Routes(t) | r.1.destination != d
  {
    var t' := DropDevice(t, d);
    forall c, s ensures (c, s) in Routes(t') <==> (c, s) in Routes(t) && s.destination != d {
      if c in t && s in t[c] && s.destination != d {
        assert s in Dropped(t[c], d);
        assert c in t';
      }
    }
  }
}
