/** DSchedContinuation and the service calls that start, time out and finish the continuation of a mission. */
module Continuation {
  import opened Common

  const NOTIFYCOMPLETECONTINUATION_FAILED := 29360152
  const CONTINUE_ABILITY_TIMEOUT_ERR := 29360153
  const CONTINUE_REMOTE_UNINSTALLED_SUPPORT_FREEINSTALL := 29360202
  const CONTINUE_REMOTE_UNINSTALLED_UNSUPPORT_FREEINSTALL := 29360203
  const CONTINUE_REMOTE_UNINSTALLED_CANNOT_FREEINSTALL := 29360206

  /** One callback waiting for the result of one mission. */
  datatype Entry = Entry(missionId: int, callback: Remote)

  /** A result sent to a callback. */
  datatype Delivery = Delivery(entry: Entry, result: int)

  /** The tables under continuationLock_, the events in the handler, and what became of every push. */
  datatype State = State(callbacks: map<int, Remote>, devices: map<int, DeviceId>, freeInstall: map<int, bool>,
                         timers: multiset<int>, pushed: multiset<Entry>, delivered: multiset<Entry>,
                         cancelled: multiset<Entry>)

  const IDLE := State(map[], map[], map[], multiset{}, multiset{}, multiset{}, multiset{})

  // ----- the critical sections -----

  function Pushed(s: State, m: int, callback: Remote, device: DeviceId, isFreeInstall: bool): State
  {
    if callback == NULL || m in s.callbacks then s
    else s.(callbacks := s.callbacks[m := callback],
            devices := if m in s.devices then s.devices else s.devices[m := device],
            freeInstall := if isFreeInstall then s.freeInstall[m := true] else s.freeInstall,
            pushed := s.pushed + multiset{Entry(m, callback)})
  }

  function Popped(s: State, m: int): State
  {
    if m !in s.callbacks then s
    else s.(callbacks := s.callbacks - {m}, devices := s.devices - {m}, freeInstall := s.freeInstall - {m})
  }

  function Taken(s: State, m: int): multiset<Entry>
  {
    if m in s.callbacks then multiset{Entry(m, s.callbacks[m])} else multiset{}
  }

  function Armed(s: State, m: int): State { s.(timers := s.timers + multiset{m}) }

  function Disarmed(s: State, m: int): State { s.(timers := s.timers[m := 0]) }

  // ----- the calls -----

  /** NotifyContinuationCallbackResult: whether or not the mission is pending, its timers go. */
  function Finished(s: State, m: int): State
  {
    Disarmed(Popped(s, m), m).(delivered := s.delivered + Taken(s, m))
  }

  function Cancelled(s: State, m: int): State
  {
    Popped(Disarmed(s, m), m).(cancelled := s.cancelled + Taken(s, m))
  }

  /** Answers of the ability and bundle managers to ContinueLocalMission. */
  datatype Answers = Answers(missionKnown: bool, remoteCheck: int, wantsFreeInstall: bool, canInstall: bool,
                             continueResult: int)

  function Continued(s: State, device: DeviceId, m: int, callback: Remote, a: Answers): State
  {
    if m in s.callbacks || !a.missionKnown then s
    else if a.remoteCheck == ERR_OK then Armed(Pushed(s, m, callback, device, false), m)
    else if a.remoteCheck == CONTINUE_REMOTE_UNINSTALLED_UNSUPPORT_FREEINSTALL || !a.wantsFreeInstall then s
    else
      var waiting := Armed(Pushed(s, m, callback, device, true), m);
      if a.canInstall then waiting else Cancelled(waiting, m)
  }

  function ContinueCode(s: State, m: int, a: Answers): int
  {
    if m in s.callbacks || !a.missionKnown then INVALID_PARAMETERS_ERR
    else if a.remoteCheck == ERR_OK then a.continueResult
    else if a.remoteCheck == CONTINUE_REMOTE_UNINSTALLED_UNSUPPORT_FREEINSTALL then a.remoteCheck
    else if !a.wantsFreeInstall then CONTINUE_REMOTE_UNINSTALLED_SUPPORT_FREEINSTALL
    else if a.canInstall then ERR_OK
    else INVALID_PARAMETERS_ERR
  }

  /** StartContinuation up to the start request: a rejected mission ends, an unknown one only gets a timer. */
  function Started(s: State, m: int, status: int, flagsValid: bool): State
  {
    if status != ERR_OK then Finished(s, m)
    else if flagsValid && m !in s.callbacks then Armed(s, m)
    else s
  }

  function Queried(s: State, m: int, resultCode: int): State
  {
    if resultCode != ERR_OK then Finished(s, m) else Armed(Disarmed(s, m), m)
  }

  /** A timer event leaves the handler's queue; ids that are not positive are ignored. */
  function TimedOut(s: State, m: int): State
    requires m in s.timers
  {
    var rest := s.(timers := s.timers - multiset{m});
    if m <= 0 then rest else Finished(rest, m)
  }

  // ----- what the calls do, in terms of their inputs -----

  /** Whether a call that is not stopped by its checks pushes its callback, and whether the callback then stays. */
  predicate Pushes(a: Answers)
  {
    && a.missionKnown
    && (a.remoteCheck == ERR_OK ||
        (a.remoteCheck != CONTINUE_REMOTE_UNINSTALLED_UNSUPPORT_FREEINSTALL && a.wantsFreeInstall))
  }

  predicate Stays(a: Answers) { Pushes(a) && (a.remoteCheck == ERR_OK || a.canInstall) }

  /** What waits, and what was pushed for it or taken back. */
  ghost predicate SameWaiting(s: State, s': State)
  {
    && s'.callbacks == s.callbacks && s'.devices == s.devices && s'.freeInstall.Keys == s.freeInstall.Keys
    && s'.delivered == s.delivered
  }

  ghost predicate NowWaits(s: State, s': State, m: int, callback: Remote, device: DeviceId, install: bool)
  {
    && s'.callbacks == s.callbacks[m := callback] && s'.devices == s.devices[m := device]
    && s'.freeInstall.Keys == s.freeInstall.Keys + (if install then {m} else {})
    && s'.timers == s.timers + multiset{m} && s'.delivered == s.delivered
  }

  lemma PushedExactly(s: State, device: DeviceId, m: int, callback: Remote, install: bool)
    requires Tidy(s) && m !in s.callbacks && callback != NULL
    ensures var s' := Armed(Pushed(s, m, callback, device, install), m);
            && NowWaits(s, s', m, callback, device, install)
            && s'.pushed == s.pushed + multiset{Entry(m, callback)} && s'.cancelled == s.cancelled
  {
    assert m !in s.devices;
  }

  lemma TakenBackExactly(s: State, device: DeviceId, m: int, callback: Remote)
    requires Tidy(s) && m !in s.callbacks && callback != NULL
    ensures var s' := Cancelled(Armed(Pushed(s, m, callback, device, true), m), m);
            && SameWaiting(s, s')
            && s'.pushed == s.pushed + multiset{Entry(m, callback)}
            && s'.cancelled == s.cancelled + multiset{Entry(m, callback)}
  {
    assert m !in s.devices && m !in s.freeInstall;
    var s1 := Pushed(s, m, callback, device, true);
    assert s1.callbacks - {m} == s.callbacks && s1.devices - {m} == s.devices;
    assert (s1.freeInstall - {m}).Keys == s.freeInstall.Keys;
  }

  lemma NullExactly(s: State, device: DeviceId, m: int, install: bool)
    requires Tidy(s) && m !in s.callbacks
    ensures var s' := Armed(Pushed(s, m, NULL, device, install), m);
            && SameWaiting(s, s') && s'.pushed == s.pushed && s'.cancelled == s.cancelled
            && SameWaiting(s, Cancelled(s', m)) && Cancelled(s', m).pushed == s.pushed
            && Cancelled(s', m).cancelled == s.cancelled
  {
  }

  /** A callback waits afterwards, with its device, install mark and timer, exactly if its mission is known and not in
      progress and the app is installed there, or an install is allowed, wanted and possible. Otherwise what waits is as
      before, and a push was taken back. */
  lemma ContinuedExactly(s: State, device: DeviceId, m: int, callback: Remote, a: Answers)
    requires Tidy(s)
    ensures var s', taken := Continued(s, device, m, callback, a), TakenBack(s, m, callback, a);
            if callback != NULL && m !in s.callbacks && Stays(a) then
              && NowWaits(s, s', m, callback, device, a.remoteCheck != ERR_OK)
              && s'.pushed == s.pushed + multiset{Entry(m, callback)} && s'.cancelled == s.cancelled
            else
              SameWaiting(s, s') && s'.pushed == s.pushed + taken && s'.cancelled == s.cancelled + taken
  {
    hide NowWaits, Armed, Pushed, Cancelled, Tidy;
    if m in s.callbacks || !Pushes(a) {
      assert SameWaiting(s, s);
    } else if callback == NULL {
      NullExactly(s, device, m, false);
      NullExactly(s, device, m, true);
    } else {
      PushedExactly(s, device, m, callback, false);
      PushedExactly(s, device, m, callback, true);
      TakenBackExactly(s, device, m, callback);
    }
  }

  function TakenBack(s: State, m: int, callback: Remote, a: Answers): multiset<Entry>
  {
    if callback != NULL && m !in s.callbacks && Pushes(a) && !Stays(a) then multiset{Entry(m, callback)} else multiset{}
  }

  /** The end of a mission takes its callback, device, install mark and timers, delivers to its callback, and touches no
      other mission. */
  lemma FinishedExactly(s: State, m: int)
    requires Tidy(s)
    ensures var s' := Finished(s, m);
            && s'.callbacks == s.callbacks - {m} && s'.devices == s.devices - {m} && s'.freeInstall == s.freeInstall - {m}
            && (forall x :: s'.timers[x] == if x == m then 0 else s.timers[x])
            && s'.pushed == s.pushed && s'.cancelled == s.cancelled
            && s'.delivered == s.delivered + if m in s.callbacks then multiset{Entry(m, s.callbacks[m])} else multiset{}
  {
    assert m !in s.callbacks ==> m !in s.devices && m !in s.freeInstall;
  }

  // ----- what every call keeps -----

  predicate Waits(s: State, e: Entry)
  {
    e.missionId in s.callbacks && s.callbacks[e.missionId] == e.callback
  }

  /** Every pushed callback is waiting, was delivered, or was cancelled. */
  ghost predicate Conserved(s: State)
  {
    forall e :: Balanced(s, e)
  }

  ghost predicate Balanced(s: State, e: Entry)
  {
    s.pushed[e] == (if Waits(s, e) then 1 else 0) + s.delivered[e] + s.cancelled[e]
  }

  /** Equal keys in the tables, and a pending timer for every waiting mission with a positive id. */
  ghost predicate Tidy(s: State)
  {
    && s.callbacks.Keys == s.devices.Keys && s.freeInstall.Keys <= s.callbacks.Keys
    && (forall m <- s.callbacks :: s.callbacks[m] != NULL && (m > 0 ==> s.timers[m] > 0))
  }

  lemma PushedKeeps(s: State, m: int, callback: Remote, device: DeviceId, isFreeInstall: bool)
    requires Conserved(s) && Tidy(s)
    ensures var s' := Armed(Pushed(s, m, callback, device, isFreeInstall), m); Conserved(s') && Tidy(s')
  {
    var s' := Armed(Pushed(s, m, callback, device, isFreeInstall), m);
    forall e ensures Balanced(s', e) { assert Balanced(s, e); }
  }

  /** Everything but the timer of mission m. */
  ghost predicate TidyBut(s: State, m: int)
  {
    && s.callbacks.Keys == s.devices.Keys && s.freeInstall.Keys <= s.callbacks.Keys
    && (forall x <- s.callbacks :: s.callbacks[x] != NULL && (x > 0 && x != m ==> s.timers[x] > 0))
  }

  lemma FinishedKeeps(s: State, m: int)
    requires Conserved(s) && TidyBut(s, m)
    ensures Conserved(Finished(s, m)) && Tidy(Finished(s, m))
  {
    assert Tidy(Finished(s, m));
    forall e ensures Balanced(Finished(s, m), e) { EndedBalance(s, m, e); }
  }

  lemma CancelledKeeps(s: State, m: int)
    requires Conserved(s) && TidyBut(s, m)
    ensures Conserved(Cancelled(s, m)) && Tidy(Cancelled(s, m))
  {
    assert Tidy(Cancelled(s, m));
    forall e ensures Balanced(Cancelled(s, m), e) { EndedBalance(s, m, e); }
  }

  lemma EndedBalance(s: State, m: int, e: Entry)
    requires Balanced(s, e)
    ensures Balanced(Finished(s, m), e) && Balanced(Cancelled(s, m), e)
  {
  }

  datatype Step =
    | Continue(device: DeviceId, m: int, callback: Remote, answers: Answers)
    | Start(m: int, status: int, flagsValid: bool)
    | Result(m: int)
    | Query(m: int, resultCode: int)
    | Timeout(m: int)

  function Next(s: State, step: Step): State
  {
    match step
    case Continue(device, m, callback, answers) => Continued(s, device, m, callback, answers)
    case Start(m, status, flagsValid) => Started(s, m, status, flagsValid)
    case Result(m) => Finished(s, m)
    case Query(m, resultCode) => Queried(s, m, resultCode)
    case Timeout(m) => if m in s.timers then TimedOut(s, m) else s
  }

  lemma StepKeeps(s: State, step: Step)
    requires Conserved(s) && Tidy(s)
    ensures Conserved(Next(s, step)) && Tidy(Next(s, step))
  {
    hide Conserved, Tidy, Continued, Finished, TimedOut;
    match step
    case Continue(device, m, callback, a) => ContinueKeeps(s, device, m, callback, a);
    case Start(m, _, _) => EndOrArmKeeps(s, m);
    case Result(m) => EndOrArmKeeps(s, m);
    case Query(m, _) => EndOrArmKeeps(s, m);
    case Timeout(m) =>
      if m in s.timers {
        TimeoutKeeps(s, m);
      }
  }

  lemma ContinueKeeps(s: State, device: DeviceId, m: int, callback: Remote, a: Answers)
    requires Conserved(s) && Tidy(s)
    ensures Conserved(Continued(s, device, m, callback, a)) && Tidy(Continued(s, device, m, callback, a))
  {
    hide Conserved, Tidy, Cancelled, Armed, Pushed;
    PushedKeeps(s, m, callback, device, false);
    PushedKeeps(s, m, callback, device, true);
    ArmedTidy(Pushed(s, m, callback, device, true), m);
    CancelledKeeps(Armed(Pushed(s, m, callback, device, true), m), m);
  }

  lemma ArmedTidy(s: State, m: int)
    ensures Tidy(Armed(s, m)) ==> TidyBut(Armed(s, m), m)
  {
  }

  lemma EndOrArmKeeps(s: State, m: int)
    requires Conserved(s) && Tidy(s)
    ensures Conserved(Finished(s, m)) && Tidy(Finished(s, m))
    ensures Conserved(Armed(s, m)) && Tidy(Armed(s, m))
    ensures Conserved(Armed(Disarmed(s, m), m)) && Tidy(Armed(Disarmed(s, m), m))
  {
    FinishedKeeps(s, m);
    hide Finished;
    forall e ensures Balanced(Armed(s, m), e) && Balanced(Armed(Disarmed(s, m), m), e) {
      assert Balanced(s, e);
    }
  }

  lemma TimeoutKeeps(s: State, m: int)
    requires Conserved(s) && Tidy(s) && m in s.timers
    ensures Conserved(TimedOut(s, m)) && Tidy(TimedOut(s, m))
  {
    var rest := s.(timers := s.timers - multiset{m});
    assert TidyBut(rest, m);
    forall e ensures Balanced(rest, e) { assert Balanced(s, e); }
    if m > 0 {
      FinishedKeeps(rest, m);
    }
  }

  function After(steps: seq<Step>): State
  {
    if steps == [] then IDLE else Next(After(steps[..|steps| - 1]), steps[|steps| - 1])
  }

  /** Over every run of calls and timeouts: each pushed callback is waiting, delivered or cancelled, the tables agree on
      their keys, and no waiting mission with a positive id is without a timer. */
  lemma {:induction false} AlwaysConserved(steps: seq<Step>)
    ensures Conserved(After(steps)) && Tidy(After(steps))
  {
    if steps != [] {
      AlwaysConserved(steps[..|steps| - 1]);
      StepKeeps(After(steps[..|steps| - 1]), steps[|steps| - 1]);
    }
  }

  // ----- what the history of calls leaves waiting -----

  datatype Wait = Wait(callback: Remote, device: DeviceId, install: bool)

  /** What a step makes of what waited for a mission. */
  function AwaitedAfter(before: Option<Wait>, step: Step, m: int): Option<Wait>
  {
    match step
    case Continue(device, x, callback, a) =>
      if x == m && before.None? && callback != NULL && Stays(a) then Some(Wait(callback, device, a.remoteCheck != ERR_OK))
      else before
    case Start(x, status, _) => if x == m && status != ERR_OK then None else before
    case Result(x) => if x == m then None else before
    case Query(x, resultCode) => if x == m && resultCode != ERR_OK then None else before
    case Timeout(x) => if x == m && m > 0 then None else before
  }

  /** What a run leaves waiting for a mission: the callback of the last call that was let in, unless the mission ended. */
  function Awaited(steps: seq<Step>, m: int): Option<Wait>
  {
    if steps == [] then None else AwaitedAfter(Awaited(steps[..|steps| - 1], m), steps[|steps| - 1], m)
  }

  /** The pushes of a run, those taken back included. */
  function PushedBy(steps: seq<Step>): multiset<Entry>
  {
    if steps == [] then multiset{} else
    var init := steps[..|steps| - 1];
    PushedBy(init) +
    match steps[|steps| - 1]
    case Continue(_, m, callback, a) =>
      if Awaited(init, m).None? && callback != NULL && Pushes(a) then multiset{Entry(m, callback)} else multiset{}
    case _ => multiset{}
  }

  ghost predicate WaitsAs(s: State, m: int, w: Option<Wait>)
  {
    && (m in s.callbacks <==> w.Some?)
    && (w.Some? ==> && m in s.devices && s.callbacks[m] == w.value.callback && s.devices[m] == w.value.device
                    && (m in s.freeInstall <==> w.value.install))
  }

  lemma AwaitedCall(s: State, w: Option<Wait>, step: Step, m: int)
    requires Tidy(s) && WaitsAs(s, m, w) && step.Continue?
    ensures WaitsAs(Next(s, step), m, AwaitedAfter(w, step, m))
  {
    ContinuedExactly(s, step.device, step.m, step.callback, step.answers);
    hide Continued, Tidy, Stays, Pushes;
  }

  lemma AwaitedEnd(s: State, s': State, w: Option<Wait>, x: int, m: int)
    requires WaitsAs(s, m, w)
    requires s'.callbacks == s.callbacks - {x} && s'.devices == s.devices - {x} && s'.freeInstall == s.freeInstall - {x}
    ensures WaitsAs(s', m, if x == m then None else w)
  {
  }

  lemma AwaitedStep(s: State, w: Option<Wait>, step: Step, m: int)
    requires Tidy(s) && WaitsAs(s, m, w)
    ensures WaitsAs(Next(s, step), m, AwaitedAfter(w, step, m))
  {
    hide WaitsAs, Tidy, Continued, Finished, Armed, Disarmed, TimedOut;
    match step
    case Continue(_, _, _, _) => AwaitedCall(s, w, step, m);
    case Start(x, _, _) => EndedOrSame(s, w, x, m);
    case Result(x) => EndedOrSame(s, w, x, m);
    case Query(x, _) => EndedOrSame(s, w, x, m);
    case Timeout(x) => AwaitedTimeout(s, w, x, m);
  }

  lemma AwaitedTimeout(s: State, w: Option<Wait>, x: int, m: int)
    requires Tidy(s) && WaitsAs(s, m, w)
    ensures WaitsAs(Next(s, Timeout(x)), m, AwaitedAfter(w, Timeout(x), m))
  {
    if x in s.timers && x > 0 {
      TimeoutEndsOnly(s, x);
      AwaitedEnd(s, TimedOut(s, x), w, x, m);
      hide WaitsAs, TimedOut;
    }
  }

  lemma EndedOrSame(s: State, w: Option<Wait>, x: int, m: int)
    requires Tidy(s) && WaitsAs(s, m, w)
    ensures WaitsAs(Finished(s, x), m, if x == m then None else w)
    ensures WaitsAs(Armed(s, x), m, w) && WaitsAs(Armed(Disarmed(s, x), x), m, w)
  {
    FinishedExactly(s, x);
    AwaitedEnd(s, Finished(s, x), w, x, m);
  }

  lemma TimeoutEndsOnly(s: State, x: int)
    requires Tidy(s) && x in s.timers && x > 0
    ensures var s' := TimedOut(s, x);
            s'.callbacks == s.callbacks - {x} && s'.devices == s.devices - {x} && s'.freeInstall == s.freeInstall - {x}
            && s'.pushed == s.pushed
  {
    assert x !in s.callbacks ==> x !in s.devices && x !in s.freeInstall;
  }

  lemma PushesStep(s: State, steps: seq<Step>, step: Step)
    requires Tidy(s) && s.pushed == PushedBy(steps)
    requires step.Continue? ==> WaitsAs(s, step.m, Awaited(steps, step.m))
    ensures Next(s, step).pushed == PushedBy(steps + [step])
  {
    assert (steps + [step])[..|steps|] == steps;
    hide Continued, Awaited;
    match step
    case Continue(device, x, callback, a) => ContinuedExactly(s, device, x, callback, a);
    case _ =>
  }

  /** In every run, exactly the callbacks wait that the history of calls leaves waiting, each with the device and install
      mark of its call; and exactly the callbacks were pushed that it let in. */
  lemma {:induction false} WaitsAsCalled(steps: seq<Step>, m: int)
    ensures WaitsAs(After(steps), m, Awaited(steps, m)) && After(steps).pushed == PushedBy(steps)
  {
    if steps != [] {
      hide Next, WaitsAs, Conserved, Tidy;
      var init, step := steps[..|steps| - 1], steps[|steps| - 1];
      assert init + [step] == steps;
      WaitsAsCalled(init, m);
      if step.Continue? {
        WaitsAsCalled(init, step.m);
      }
      AlwaysConserved(init);
      AwaitedStep(After(init), Awaited(init, m), step, m);
      PushesStep(After(init), init, step);
    }
  }

  /** A callback is cancelled only by a call that reports the error to its own caller. */
  lemma CancelledMeansError(s: State, step: Step)
    ensures Next(s, step).cancelled != s.cancelled ==>
            && step.Continue? && step.m !in s.callbacks
            && Next(s, step).cancelled == s.cancelled + multiset{Entry(step.m, step.callback)}
            && ContinueCode(s, step.m, step.answers) == INVALID_PARAMETERS_ERR
  {
  }

  /** A timeout ends a waiting mission exactly when its id is positive. */
  lemma TimeoutEnds(s: State, m: int)
    requires m in s.callbacks && m in s.timers
    ensures m !in TimedOut(s, m).callbacks <==> m > 0
    ensures m > 0 ==> TimedOut(s, m).delivered == s.delivered + multiset{Entry(m, s.callbacks[m])}
  {
  }

  class DSchedContinuation {
    var callbackMap: map<int, Remote>
    var continuationDevices: map<int, DeviceId>
    var freeInstall: map<int, bool>
    var timers: multiset<int>
    var sent: seq<Delivery>
    ghost var pushed: multiset<Entry>
    ghost var delivered: multiset<Entry>
    ghost var cancelled: multiset<Entry>

    ghost function Model(): State
      reads this
    {
      State(callbackMap, continuationDevices, freeInstall, timers, pushed, delivered, cancelled)
    }

    constructor ()
      ensures Model() == IDLE && sent == []
    {
      callbackMap, continuationDevices, freeInstall, timers, sent := map[], map[], map[], multiset{}, [];
      pushed, delivered, cancelled := multiset{}, multiset{}, multiset{};
    }

    method SetTimeOut(missionId: int)
      modifies this`timers
      ensures Model() == Armed(old(Model()), missionId)
    {
      timers := timers + multiset{missionId};
    }

    method RemoveTimeOut(missionId: int)
      modifies this`timers
      ensures Model() == Disarmed(old(Model()), missionId)
    {
      timers := timers[missionId := 0];
    }

    method GetTargetDevice(missionId: int) returns (device: DeviceId)
      ensures device == if missionId in continuationDevices then continuationDevices[missionId] else ""
    {
      return if missionId in continuationDevices then continuationDevices[missionId] else "";
    }

    method PushCallback(missionId: int, callback: Remote, deviceId: DeviceId, isFreeInstall: bool) returns (ok: bool)
      modifies this`callbackMap, this`continuationDevices, this`freeInstall, this`pushed
      ensures Model() == Pushed(old(Model()), missionId, callback, deviceId, isFreeInstall)
      ensures ok <==> callback != NULL && missionId !in old(callbackMap)
    {
      if callback == NULL {
        return false;
      }
      if missionId in callbackMap {
        return false;
      }
      callbackMap := callbackMap[missionId := callback];
      if missionId !in continuationDevices {
        continuationDevices := continuationDevices[missionId := deviceId];
      }
      if isFreeInstall {
        freeInstall := freeInstall[missionId := isFreeInstall];
      }
      pushed := pushed + multiset{Entry(missionId, callback)};
      return true;
    }

    method PopCallback(missionId: int) returns (callback: Remote)
      modifies this`callbackMap, this`continuationDevices, this`freeInstall
      ensures Model() == Popped(old(Model()), missionId)
      ensures callback == if missionId in old(callbackMap) then old(callbackMap)[missionId] else NULL
    {
      if missionId !in callbackMap {
        return NULL;
      }
      callback := callbackMap[missionId];
      if missionId in continuationDevices {
        continuationDevices := continuationDevices - {missionId};
      }
      if missionId in freeInstall {
        freeInstall := freeInstall - {missionId};
      }
      callbackMap := callbackMap - {missionId};
    }

    method NotifyMissionCenterResult(missionId: int, isSuccess: int) returns (result: int)
      requires Tidy(Model())
      modifies this
      ensures Model() == Finished(old(Model()), missionId)
      ensures callbackMap == old(callbackMap) - {missionId} && continuationDevices == old(continuationDevices) - {missionId}
      ensures freeInstall == old(freeInstall) - {missionId}
      ensures forall m :: timers[m] == if m == missionId then 0 else old(timers)[m]
      ensures sent == old(sent) + if missionId in old(callbackMap)
                                  then [Delivery(Entry(missionId, old(callbackMap)[missionId]), isSuccess)] else []
      ensures result == if missionId in old(callbackMap) then ERR_OK else INVALID_PARAMETERS_ERR
    {
      FinishedExactly(Model(), missionId);
      var callback := PopCallback(missionId);
      RemoveTimeOut(missionId);
      if callback == NULL {
        return INVALID_PARAMETERS_ERR;
      }
      sent := sent + [Delivery(Entry(missionId, callback), isSuccess)];
      delivered := delivered + multiset{Entry(missionId, callback)};
      return ERR_OK;
    }

    method NotifyContinuationCallbackResult(missionId: int, isSuccess: int)
      requires Tidy(Model())
      modifies this
      ensures Model() == Finished(old(Model()), missionId)
      ensures callbackMap == old(callbackMap) - {missionId} && continuationDevices == old(continuationDevices) - {missionId}
      ensures freeInstall == old(freeInstall) - {missionId}
      ensures forall m :: timers[m] == if m == missionId then 0 else old(timers)[m]
      ensures sent == old(sent) + if missionId in old(callbackMap)
                                  then [Delivery(Entry(missionId, old(callbackMap)[missionId]), isSuccess)] else []
    {
      FinishedExactly(Model(), missionId);
      if missionId in callbackMap {
        var result := NotifyMissionCenterResult(missionId, isSuccess);
      } else {
        RemoveTimeOut(missionId);
      }
    }

    /** The remote device cannot install: what was pushed is taken back. */
    method GiveUpInstall(missionId: int)
      modifies this
      ensures Model() == Cancelled(old(Model()), missionId) && sent == old(sent)
    {
      RemoveTimeOut(missionId);
      ghost var lost := Taken(Model(), missionId);
      var callback := PopCallback(missionId);
      cancelled := cancelled + lost;
    }

    method ContinueLocalMission(dstDeviceId: DeviceId, missionId: int, callback: Remote, a: Answers) returns (result: int)
      modifies this
      ensures Model() == Continued(old(Model()), dstDeviceId, missionId, callback, a)
      ensures sent == old(sent)
      ensures result == if missionId in old(callbackMap) || !a.missionKnown then INVALID_PARAMETERS_ERR
                        else if a.remoteCheck == ERR_OK then a.continueResult
                        else if a.remoteCheck == CONTINUE_REMOTE_UNINSTALLED_UNSUPPORT_FREEINSTALL then a.remoteCheck
                        else if !a.wantsFreeInstall then CONTINUE_REMOTE_UNINSTALLED_SUPPORT_FREEINSTALL
                        else if a.canInstall then ERR_OK else INVALID_PARAMETERS_ERR
      ensures Tidy(old(Model())) ==>
                var waits := callback != NULL && missionId !in old(callbackMap) && a.missionKnown &&
                             (a.remoteCheck == ERR_OK ||
                              (a.remoteCheck != CONTINUE_REMOTE_UNINSTALLED_UNSUPPORT_FREEINSTALL &&
                               a.wantsFreeInstall && a.canInstall));
                && callbackMap == (if waits then old(callbackMap)[missionId := callback] else old(callbackMap))
                && continuationDevices == (if waits then old(continuationDevices)[missionId := dstDeviceId]
                                           else old(continuationDevices))
                && freeInstall.Keys == old(freeInstall).Keys + (if waits && a.remoteCheck != ERR_OK then {missionId} else {})
                && (waits ==> timers[missionId] > 0 && pushed == old(pushed) + multiset{Entry(missionId, callback)})
    {
      ghost var before := Model();
      if Tidy(before) {
        ContinuedExactly(before, dstDeviceId, missionId, callback, a);
      }
      hide Continued, Tidy;
      result := ContinueSteps(dstDeviceId, missionId, callback, a);
    }

    /** The body of ContinueLocalMission. */
    method ContinueSteps(dstDeviceId: DeviceId, missionId: int, callback: Remote, a: Answers) returns (result: int)
      modifies this
      ensures Model() == Continued(old(Model()), dstDeviceId, missionId, callback, a) && sent == old(sent)
      ensures result == ContinueCode(old(Model()), missionId, a)
    {
      if missionId in callbackMap {
        return INVALID_PARAMETERS_ERR;
      }
      if !a.missionKnown {
        return INVALID_PARAMETERS_ERR;
      }
      if a.remoteCheck == ERR_OK {
        var ok := PushCallback(missionId, callback, dstDeviceId, false);
        SetTimeOut(missionId);
        return a.continueResult;
      }
      if a.remoteCheck == CONTINUE_REMOTE_UNINSTALLED_UNSUPPORT_FREEINSTALL {
        return a.remoteCheck;
      }
      if !a.wantsFreeInstall {
        return CONTINUE_REMOTE_UNINSTALLED_SUPPORT_FREEINSTALL;
      }
      var ok := PushCallback(missionId, callback, dstDeviceId, true);
      SetTimeOut(missionId);
      if !a.canInstall {
        GiveUpInstall(missionId);
        return INVALID_PARAMETERS_ERR;
      }
      return ERR_OK;
    }

    /** `wantCode`, `installCode` and `startCode` are the answers to setting up the want, to starting with an install and
        to starting without. */
    method StartContinuation(missionId: int, status: int, flagsValid: bool, wantCode: int, installCode: int,
                             startCode: int) returns (result: int)
      requires Tidy(Model())
      modifies this
      ensures Model() == Started(old(Model()), missionId, status, flagsValid)
      ensures callbackMap == (if status == ERR_OK then old(callbackMap) else old(callbackMap) - {missionId})
      ensures forall m :: timers[m] == if m != missionId then old(timers)[m] else if status != ERR_OK then 0
                                       else old(timers)[m] + if flagsValid && m !in old(callbackMap) then 1 else 0
      ensures sent == old(sent) + if status != ERR_OK && missionId in old(callbackMap)
                                  then [Delivery(Entry(missionId, old(callbackMap)[missionId]), status)] else []
      ensures result == if status != ERR_OK || !flagsValid then INVALID_REMOTE_PARAMETERS_ERR
                        else if wantCode != ERR_OK then wantCode
                        else if missionId in old(freeInstall) && old(freeInstall)[missionId] then installCode
                        else startCode
    {
      if status != ERR_OK {
        NotifyContinuationCallbackResult(missionId, status);
        return INVALID_REMOTE_PARAMETERS_ERR;
      }
      if !flagsValid {
        return INVALID_REMOTE_PARAMETERS_ERR;
      }
      if missionId !in callbackMap {
        SetTimeOut(missionId);
      }
      if wantCode != ERR_OK {
        return wantCode;
      }
      return if missionId in freeInstall && freeInstall[missionId] then installCode else startCode;
    }

    method NotifyContinuationResultFromRemote(sessionId: int, isSuccess: bool) returns (result: int)
      requires Tidy(Model())
      modifies this
      ensures Model() == if sessionId <= 0 then old(Model()) else Finished(old(Model()), sessionId)
      ensures result == if sessionId <= 0 then INVALID_REMOTE_PARAMETERS_ERR else ERR_OK
      ensures sent == old(sent) + if sessionId > 0 && sessionId in old(callbackMap)
                                  then [Delivery(Entry(sessionId, old(callbackMap)[sessionId]),
                                                 if isSuccess then 0 else NOTIFYCOMPLETECONTINUATION_FAILED)]
                                  else []
    {
      if sessionId <= 0 {
        return INVALID_REMOTE_PARAMETERS_ERR;
      }
      NotifyContinuationCallbackResult(sessionId, if isSuccess then 0 else NOTIFYCOMPLETECONTINUATION_FAILED);
      return ERR_OK;
    }

    /** `continueCode` is the answer to the continuation started on the device returned. */
    method OnQueryInstallationFinished(resultCode: int, missionId: int, continueCode: int)
      returns (result: int, device: DeviceId)
      requires Tidy(Model())
      modifies this
      ensures Model() == Queried(old(Model()), missionId, resultCode)
      ensures callbackMap == (if resultCode == ERR_OK then old(callbackMap) else old(callbackMap) - {missionId})
      ensures forall m :: timers[m] == if m != missionId then old(timers)[m] else if resultCode == ERR_OK then 1 else 0
      ensures sent == old(sent) + if resultCode != ERR_OK && missionId in old(callbackMap)
                                  then [Delivery(Entry(missionId, old(callbackMap)[missionId]),
                                                 CONTINUE_REMOTE_UNINSTALLED_CANNOT_FREEINSTALL)]
                                  else []
      ensures result == if resultCode == ERR_OK then continueCode else CONTINUE_REMOTE_UNINSTALLED_CANNOT_FREEINSTALL
      ensures device == if resultCode == ERR_OK && missionId in old(continuationDevices)
                        then old(continuationDevices)[missionId] else ""
    {
      if resultCode != ERR_OK {
        NotifyContinuationCallbackResult(missionId, CONTINUE_REMOTE_UNINSTALLED_CANNOT_FREEINSTALL);
        return CONTINUE_REMOTE_UNINSTALLED_CANNOT_FREEINSTALL, "";
      }
      RemoveTimeOut(missionId);
      device := GetTargetDevice(missionId);
      SetTimeOut(missionId);
      result := continueCode;
    }

    method ProcessEvent(eventId: int)
      requires Tidy(Model()) && eventId in timers
      modifies this
      ensures Model() == TimedOut(old(Model()), eventId)
      ensures callbackMap == (if eventId > 0 then old(callbackMap) - {eventId} else old(callbackMap))
      ensures continuationDevices.Keys == callbackMap.Keys
      ensures forall m :: timers[m] == if m != eventId then old(timers)[m] else if m > 0 then 0 else old(timers)[m] - 1
      ensures sent == old(sent) + if eventId > 0 && eventId in old(callbackMap)
                                  then [Delivery(Entry(eventId, old(callbackMap)[eventId]), CONTINUE_ABILITY_TIMEOUT_ERR)]
                                  else []
    {
      timers := timers - multiset{eventId};
      if eventId <= 0 {
        return;
      }
      if eventId in callbackMap {
        var callback := PopCallback(eventId);
        RemoveTimeOut(eventId);
        sent := sent + [Delivery(Entry(eventId, callback), CONTINUE_ABILITY_TIMEOUT_ERR)];
        delivered := delivered + multiset{Entry(eventId, callback)};
      } else {
        RemoveTimeOut(eventId);
      }
    }
  }
}
