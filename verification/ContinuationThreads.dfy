/** Calls, results and timeouts of continuations running side by side, one critical section or timer operation at a time. */
module ContinuationThreads {
  import opened Common
  import opened Tallies
  import opened Continuation

  /** Where a thread stands between two critical sections. `call` numbers the ContinueLocalMission calls; `accepted` is what
      PushCallback told the call, which the call does not look at. */
  datatype Thread =
    | Checked(m: int, callback: Remote, device: DeviceId, freeInstall: bool, refused: bool, call: nat)
    | Arming(m: int, refused: bool, call: nat, accepted: bool)
    | Retracting(m: int, call: nat, accepted: bool)
    | TakingBack(m: int, call: nat, accepted: bool)
    | Notifying(m: int)
    | Ending(m: int)
    | Finishing(m: int, taken: Option<Remote>)
    | Delivering(m: int, callback: Remote)
    | Querying(m: int)
    | Rearming(m: int)

  /** `pusher` says which call pushed the waiting callback of a mission.
      `stale` holds the waiting missions whose timers were removed by a thread that was ending an earlier callback, or
      none, and whose timer was not set since. */
  datatype State = Running(t: Continuation.State, threads: map<nat, Thread>, calls: nat, pusher: map<int, nat>,
                           stale: set<int>)

  const START: State := Running(IDLE, map[], 0, map[], {})

  datatype Step =
    | Continue(th: nat, m: int, callback: Remote, device: DeviceId, freeInstall: bool, refused: bool)
    | Push(th: nat)
    | Arm(th: nat)
    | Retract(th: nat)
    | TakeBack(th: nat)
    | Result(th: nat, m: int)
    | Fire(th: nat, m: int)
    | CheckResult(th: nat)
    | Pop(th: nat)
    | Disarm(th: nat)
    | Deliver(th: nat)
    | Start(th: nat, m: int)
    | Query(th: nat, m: int)
    | QueryDisarm(th: nat)
    | Rearm(th: nat)

  predicate Enabled(s: State, step: Step)
  {
    match step
    case Continue(th, _, _, _, freeInstall, refused) => th !in s.threads && (refused ==> freeInstall)
    case Push(th) => th in s.threads && s.threads[th].Checked?
    case Arm(th) => th in s.threads && s.threads[th].Arming?
    case Retract(th) => th in s.threads && s.threads[th].Retracting?
    case TakeBack(th) => th in s.threads && s.threads[th].TakingBack?
    case Result(th, _) => th !in s.threads
    case Fire(th, m) => th !in s.threads && m in s.t.timers
    case CheckResult(th) => th in s.threads && s.threads[th].Notifying?
    case Pop(th) => th in s.threads && s.threads[th].Ending?
    case Disarm(th) => th in s.threads && s.threads[th].Finishing?
    case Deliver(th) => th in s.threads && s.threads[th].Delivering?
    case Start(th, _) => th !in s.threads
    case Query(th, _) => th !in s.threads
    case QueryDisarm(th) => th in s.threads && s.threads[th].Querying?
    case Rearm(th) => th in s.threads && s.threads[th].Rearming?
  }

  function ThreadOf(step: Step): nat { step.th }

  predicate Accepts(s: State, thread: Thread)
    requires thread.Checked?
  {
    thread.callback != NULL && thread.m !in s.t.callbacks
  }

  function Waiting(s: State, m: int): Option<Remote>
  {
    if m in s.t.callbacks then Some(s.t.callbacks[m]) else None
  }

  /** Where the stepping thread stands afterwards, if it goes on. */
  function ThreadAfter(s: State, step: Step): Option<Thread>
    requires Enabled(s, step)
  {
    match step
    case Continue(_, m, callback, device, freeInstall, refused) =>
      if m in s.t.callbacks then None else Some(Checked(m, callback, device, freeInstall, refused, s.calls))
    case Push(th) =>
      var thread := s.threads[th];
      Some(Arming(thread.m, thread.refused, thread.call, Accepts(s, thread)))
    case Arm(th) =>
      var Arming(m, refused, call, accepted) := s.threads[th];
      if refused then Some(Retracting(m, call, accepted)) else None
    case Retract(th) =>
      var Retracting(m, call, accepted) := s.threads[th];
      Some(TakingBack(m, call, accepted))
    case TakeBack(_) => None
    case Result(_, m) => Some(Notifying(m))
    case Fire(_, m) => if m <= 0 then None else Some(Notifying(m))
    case CheckResult(th) =>
      var m := s.threads[th].m;
      Some(if m in s.t.callbacks then Ending(m) else Finishing(m, None))
    case Pop(th) => Some(Finishing(s.threads[th].m, Waiting(s, s.threads[th].m)))
    case Disarm(th) =>
      var Finishing(m, taken) := s.threads[th];
      if taken.Some? then Some(Delivering(m, taken.value)) else None
    case Deliver(_) => None
    case Start(_, m) => if m in s.t.callbacks then None else Some(Rearming(m))
    case Query(_, m) => Some(Querying(m))
    case QueryDisarm(th) => Some(Rearming(s.threads[th].m))
    case Rearm(_) => None
  }

  function TablesAfter(s: State, step: Step): Continuation.State
    requires Enabled(s, step)
  {
    match step
    case Push(th) =>
      var Checked(m, callback, device, freeInstall, _, _) := s.threads[th];
      Pushed(s.t, m, callback, device, freeInstall)
    case Arm(th) => Armed(s.t, s.threads[th].m)
    case Retract(th) => Disarmed(s.t, s.threads[th].m)
    case TakeBack(th) =>
      var m := s.threads[th].m;
      Popped(s.t, m).(cancelled := s.t.cancelled + Taken(s.t, m))
    case Fire(_, m) => s.t.(timers := s.t.timers - multiset{m})
    case Pop(th) => Popped(s.t, s.threads[th].m)
    case Disarm(th) => Disarmed(s.t, s.threads[th].m)
    case Deliver(th) =>
      s.t.(delivered := s.t.delivered + multiset{Entry(s.threads[th].m, s.threads[th].callback)})
    case QueryDisarm(th) => Disarmed(s.t, s.threads[th].m)
    case Rearm(th) => Armed(s.t, s.threads[th].m)
    case _ => s.t
  }

  function PusherAfter(s: State, step: Step): map<int, nat>
    requires Enabled(s, step)
  {
    match step
    case Push(th) => if Accepts(s, s.threads[th]) then s.pusher[s.threads[th].m := s.threads[th].call] else s.pusher
    case TakeBack(th) => s.pusher - {s.threads[th].m}
    case Pop(th) => s.pusher - {s.threads[th].m}
    case _ => s.pusher
  }

  function StaleAfter(s: State, step: Step): set<int>
    requires Enabled(s, step)
  {
    match step
    case Arm(th) => s.stale - {s.threads[th].m}
    case Rearm(th) => s.stale - {s.threads[th].m}
    case TakeBack(th) => s.stale - {s.threads[th].m}
    case Pop(th) => s.stale - {s.threads[th].m}
    case Disarm(th) => if s.threads[th].m in s.t.callbacks then s.stale + {s.threads[th].m} else s.stale
    case _ => s.stale
  }

  function Next(s: State, step: Step): State
    requires Enabled(s, step)
  {
    Running(TablesAfter(s, step),
            match ThreadAfter(s, step)
            case Some(thread) => s.threads[ThreadOf(step) := thread]
            case None => s.threads - {ThreadOf(step)},
            if ThreadAfter(s, step).Some? && step.Continue? then s.calls + 1 else s.calls,
            PusherAfter(s, step), StaleAfter(s, step))
  }

  // ----- conservation -----

  /** The callback that a thread has taken out and not delivered yet. */
  function Holding(thread: Thread): Option<Entry>
  {
    match thread
    case Finishing(m, Some(callback)) => Some(Entry(m, callback))
    case Delivering(m, callback) => Some(Entry(m, callback))
    case _ => None
  }

  function Held(s: State, e: Entry): nat { Tally(s.threads, Holding, Some(e)) }

  /** Every pushed callback is waiting, in the hands of a thread, delivered or taken back. */
  ghost predicate Balanced(s: State, e: Entry)
  {
    s.t.pushed[e] == (if Waits(s.t, e) then 1 else 0) + Held(s, e) + s.t.delivered[e] + s.t.cancelled[e]
  }

  ghost predicate Conserved(s: State) { forall e :: Balanced(s, e) }

  /** The tables agree on their keys. */
  ghost predicate KeysAgree(s: State)
  {
    && s.t.callbacks.Keys == s.t.devices.Keys == s.pusher.Keys && s.t.freeInstall.Keys <= s.t.callbacks.Keys
    && (forall m <- s.t.callbacks :: s.t.callbacks[m] != NULL)
  }

  // ----- timers -----

  /** A thread that will still set a timer for the mission or end it. */
  predicate Covers(thread: Thread, m: int)
  {
    match thread
    case Arming(x, _, _, _) => x == m
    case Retracting(x, _, _) => x == m
    case TakingBack(x, _, _) => x == m
    case Notifying(x) => x == m
    case Ending(x) => x == m
    case Querying(x) => x == m
    case Rearming(x) => x == m
    case _ => false
  }

  ghost predicate InHand(s: State, m: int)
  {
    exists th :: th in s.threads && Covers(s.threads[th], m)
  }

  /** A waiting mission with a positive id has a timer or a thread that sees to it, or is stale; a stale one has no timer. */
  ghost predicate Timed(s: State)
  {
    && (forall m <- s.t.callbacks :: m > 0 ==> s.t.timers[m] > 0 || m in s.stale || InHand(s, m))
    && (forall m <- s.stale :: m in s.t.callbacks && s.t.timers[m] == 0)
  }

  ghost predicate Inv(s: State) { Conserved(s) && KeysAgree(s) && Timed(s) }

  // ----- what every step keeps -----

  function HoldsNow(s: State, th: nat, e: Entry): int
  {
    if th in s.threads && Holding(s.threads[th]) == Some(e) then 1 else 0
  }

  /** Only the stepping thread changes. */
  lemma OthersStay(s: State, step: Step)
    requires Enabled(s, step)
    ensures s.threads - {ThreadOf(step)} == Next(s, step).threads - {ThreadOf(step)}
  {
    hide TablesAfter, ThreadAfter, PusherAfter, StaleAfter;
  }

  lemma HeldAfter(s: State, s': State, th: nat, e: Entry)
    requires s.threads - {th} == s'.threads - {th}
    ensures Held(s', e) == Held(s, e) - HoldsNow(s, th, e) + HoldsNow(s', th, e)
  {
    HeldWithout(s, th, e);
    HeldWithout(s', th, e);
  }

  lemma HeldWithout(s: State, th: nat, e: Entry)
    ensures Held(s, e) == Tally(s.threads - {th}, Holding, Some(e)) + HoldsNow(s, th, e)
  {
    if th in s.threads {
      TallyRemove(s.threads, Holding, th, Some(e));
    } else {
      assert s.threads - {th} == s.threads;
    }
  }

  /** Steps that push, take out or deliver no callback. */
  predicate Quiet(step: Step)
  {
    !step.Push? && !step.Pop? && !step.TakeBack? && !step.Deliver?
  }

  lemma QuietTables(s: State, step: Step)
    requires Enabled(s, step) && Quiet(step)
    ensures TablesAfter(s, step) == s.t.(timers := TablesAfter(s, step).timers)
    ensures PusherAfter(s, step) == s.pusher
  {
    hide Popped, Pushed, Taken;
  }

  lemma QuietHolds(s: State, step: Step, e: Entry)
    requires Enabled(s, step) && Quiet(step)
    ensures HoldsNow(Next(s, step), ThreadOf(step), e) == HoldsNow(s, ThreadOf(step), e)
  {
    hide TablesAfter, PusherAfter, StaleAfter;
  }

  lemma KeepsBalance(s: State, step: Step, e: Entry)
    requires KeysAgree(s) && Balanced(s, e) && Enabled(s, step)
    ensures Balanced(Next(s, step), e)
  {
    OthersStay(s, step);
    HeldAfter(s, Next(s, step), ThreadOf(step), e);
    hide Held;
    if Quiet(step) {
      QuietTables(s, step);
      QuietHolds(s, step, e);
      hide TablesAfter, ThreadAfter, PusherAfter, StaleAfter, HoldsNow;
    } else {
      hide Next, Balanced, KeysAgree, HoldsNow;
      match step
      case Push(_) => PushBalance(s, step, e);
      case Pop(_) => PopBalance(s, step, e);
      case TakeBack(_) => TakeBackBalance(s, step, e);
      case Deliver(_) => DeliverBalance(s, step, e);
    }
  }

  lemma DeliverBalance(s: State, step: Step, e: Entry)
    requires KeysAgree(s) && Balanced(s, e) && Enabled(s, step) && step.Deliver?
    requires Held(Next(s, step), e) == Held(s, e) - HoldsNow(s, step.th, e) + HoldsNow(Next(s, step), step.th, e)
    ensures Balanced(Next(s, step), e)
  {
    hide Held, KeysAgree;
  }

  lemma PushBalance(s: State, step: Step, e: Entry)
    requires KeysAgree(s) && Balanced(s, e) && Enabled(s, step) && step.Push?
    requires Held(Next(s, step), e) == Held(s, e) - HoldsNow(s, step.th, e) + HoldsNow(Next(s, step), step.th, e)
    ensures Balanced(Next(s, step), e)
  {
    hide Held, KeysAgree;
  }

  lemma PopBalance(s: State, step: Step, e: Entry)
    requires KeysAgree(s) && Balanced(s, e) && Enabled(s, step) && step.Pop?
    requires Held(Next(s, step), e) == Held(s, e) - HoldsNow(s, step.th, e) + HoldsNow(Next(s, step), step.th, e)
    ensures Balanced(Next(s, step), e)
  {
    hide Held, KeysAgree;
  }

  lemma TakeBackBalance(s: State, step: Step, e: Entry)
    requires KeysAgree(s) && Balanced(s, e) && Enabled(s, step) && step.TakeBack?
    requires Held(Next(s, step), e) == Held(s, e) - HoldsNow(s, step.th, e) + HoldsNow(Next(s, step), step.th, e)
    ensures Balanced(Next(s, step), e)
  {
    hide Held, KeysAgree;
  }

  lemma KeepsKeys(s: State, step: Step)
    requires KeysAgree(s) && Enabled(s, step)
    ensures KeysAgree(Next(s, step))
  {
    if Quiet(step) {
      QuietTables(s, step);
      hide TablesAfter, ThreadAfter, PusherAfter, StaleAfter;
    } else if step.Push? {
      PushKeys(s, step);
    } else {
      hide Enabled, ThreadAfter, StaleAfter;
    }
  }

  lemma PushKeys(s: State, step: Step)
    requires KeysAgree(s) && Enabled(s, step) && step.Push?
    ensures KeysAgree(Next(s, step))
  {
    hide ThreadAfter, StaleAfter;
  }

  lemma StillInHand(s: State, step: Step, m: int)
    requires Enabled(s, step) && InHand(s, m)
    ensures var s', th := Next(s, step), ThreadOf(step);
            InHand(s', m) || (th in s.threads && Covers(s.threads[th], m))
  {
    OthersStay(s, step);
    hide TablesAfter, ThreadAfter, PusherAfter, StaleAfter, Enabled;
    var s', th := Next(s, step), ThreadOf(step);
    var x :| x in s.threads && Covers(s.threads[x], m);
    if x != th {
      assert x in s.threads - {th};
      assert x in s'.threads && s'.threads[x] == s.threads[x];
    }
  }

  /** A covering thread that steps sets the timer, ends the mission or goes on covering. */
  lemma CoverStep(s: State, step: Step, m: int)
    requires KeysAgree(s) && Enabled(s, step) && m in TablesAfter(s, step).callbacks
    ensures var th, next := ThreadOf(step), ThreadAfter(s, step);
            && (th in s.threads && Covers(s.threads[th], m) ==>
                  TablesAfter(s, step).timers[m] > 0 || (next.Some? && Covers(next.value, m)))
            && (m !in s.t.callbacks ==> next.Some? && Covers(next.value, m))
  {
    hide KeysAgree;
  }

  /** A timer goes only with a thread that covers the mission, or leaves a mark. */
  lemma TimerStep(s: State, step: Step, m: int)
    requires KeysAgree(s) && Enabled(s, step) && m in TablesAfter(s, step).callbacks && m > 0 && m in s.t.callbacks
    ensures var next, timers := ThreadAfter(s, step), TablesAfter(s, step).timers;
            && (s.t.timers[m] > 0 ==> timers[m] > 0 || m in StaleAfter(s, step) || (next.Some? && Covers(next.value, m)))
            && (m in s.stale ==> timers[m] > 0 || m in StaleAfter(s, step))
  {
    hide KeysAgree;
  }

  lemma StaleHasNoTimer(s: State, step: Step, m: int)
    requires KeysAgree(s) && Timed(s) && Enabled(s, step) && m in StaleAfter(s, step)
    ensures m in TablesAfter(s, step).callbacks && TablesAfter(s, step).timers[m] == 0
  {
    hide KeysAgree, InHand, ThreadAfter;
  }

  lemma KeepsTimed(s: State, step: Step)
    requires KeysAgree(s) && Timed(s) && Enabled(s, step)
    ensures Timed(Next(s, step))
  {
    var s', th := Next(s, step), ThreadOf(step);
    hide TablesAfter, ThreadAfter, PusherAfter, StaleAfter, KeysAgree, Enabled;
    forall m <- s'.stale ensures m in s'.t.callbacks && s'.t.timers[m] == 0 { StaleHasNoTimer(s, step, m); }
    forall m <- s'.t.callbacks | m > 0 ensures s'.t.timers[m] > 0 || m in s'.stale || InHand(s', m) {
      CoverStep(s, step, m);
      if m in s.t.callbacks {
        TimerStep(s, step, m);
      }
      if th in s'.threads && Covers(s'.threads[th], m) {
        assert InHand(s', m);
      } else if InHand(s, m) {
        StillInHand(s, step, m);
      }
    }
  }

  lemma StepKeeps(s: State, step: Step)
    requires Inv(s) && Enabled(s, step)
    ensures Inv(Next(s, step))
  {
    KeepsKeys(s, step);
    KeepsTimed(s, step);
    hide KeysAgree, Timed, Balanced, Next, Enabled;
    forall e ensures Balanced(Next(s, step), e) { KeepsBalance(s, step, e); }
  }

  // ----- runs -----

  function Applied(s: State, step: Step): State { if Enabled(s, step) then Next(s, step) else s }

  function After(steps: seq<Step>): State
  {
    if steps == [] then START else Applied(After(steps[..|steps| - 1]), steps[|steps| - 1])
  }

  lemma StartInv()
    ensures Inv(START)
  {
    forall e ensures Balanced(START, e) {
      TallyIs(START.threads, Holding, Some(e), {});
    }
  }

  /** Over every run and interleaving: each pushed callback is waiting, held by one thread, delivered or taken back, and a
      waiting mission with a positive id has a timer or a thread that sees to it, or is stale. */
  lemma {:induction false} AlwaysKept(steps: seq<Step>)
    ensures Inv(After(steps))
  {
    hide Inv, Enabled, Next;
    if steps == [] {
      StartInv();
    } else {
      var before, step := After(steps[..|steps| - 1]), steps[|steps| - 1];
      AlwaysKept(steps[..|steps| - 1]);
      if Enabled(before, step) {
        StepKeeps(before, step);
      }
    }
  }

  /** With no call, result or timeout in progress, every pushed callback is waiting, delivered or taken back; and a waiting
      mission with a positive id has a timer if and only if no thread that was ending an earlier callback, or none, removed
      the mission's timers after it was pushed, with none set since. */
  lemma AtRest(steps: seq<Step>, m: int)
    requires After(steps).threads == map[]
    ensures forall e :: var t := After(steps).t;
                        t.pushed[e] == (if Waits(t, e) then 1 else 0) + t.delivered[e] + t.cancelled[e]
    ensures m > 0 && m in After(steps).t.callbacks ==> (After(steps).t.timers[m] > 0 <==> m !in After(steps).stale)
  {
    var s := After(steps);
    AlwaysKept(steps);
    forall e ensures s.t.pushed[e] == (if Waits(s.t, e) then 1 else 0) + s.t.delivered[e] + s.t.cancelled[e] {
      TallyIs(s.threads, Holding, Some(e), {});
      assert Held(s, e) == 0 && Balanced(s, e);
    }
    assert !InHand(s, m);
  }

  /** The same while other missions are busy: it is enough that no thread sees to this one. */
  lemma Unattended(steps: seq<Step>, m: int)
    requires m > 0 && m in After(steps).t.callbacks && !InHand(After(steps), m)
    ensures After(steps).t.timers[m] > 0 <==> m !in After(steps).stale
  {
    AlwaysKept(steps);
  }

  // ----- whose callback a refused install takes back -----

  /** A call that has pushed and not ended. */
  predicate Pushing(thread: Thread) { thread.Arming? || thread.Retracting? || thread.TakingBack? }

  predicate InCall(thread: Thread) { thread.Checked? || Pushing(thread) }

  /** Calls have different numbers, and a call is the pusher of a callback only if its push was accepted. */
  ghost predicate Numbered(s: State)
  {
    && (forall th <- s.threads :: InCall(s.threads[th]) ==> s.threads[th].call < s.calls)
    && (forall a, b :: a in s.threads && b in s.threads && a != b && InCall(s.threads[a]) && InCall(s.threads[b]) ==>
          s.threads[a].call != s.threads[b].call)
    && (forall m <- s.pusher :: s.pusher[m] < s.calls)
    && (forall th, m :: th in s.threads && m in s.pusher && InCall(s.threads[th]) && s.pusher[m] == s.threads[th].call ==>
          Pushing(s.threads[th]) && s.threads[th].accepted && s.threads[th].m == m)
  }

  /** No step has taken out a callback of the mission since the thread pushed. */
  predicate Undisturbed(steps: seq<Step>, th: nat, m: int)
  {
    if steps == [] then true else
    var init, step := steps[..|steps| - 1], steps[|steps| - 1];
    var s := After(init);
    if !Enabled(s, step) then Undisturbed(init, th, m)
    else step == Push(th) || (!TakesOut(s, step, m) && Undisturbed(init, th, m))
  }

  predicate TakesOut(s: State, step: Step, m: int)
    requires Enabled(s, step)
  {
    (step.Pop? || step.TakeBack?) && s.threads[step.th].m == m
  }

  predicate Owns(s: State, m: int, call: nat) { m in s.pusher && s.pusher[m] == call }

  /** For each call that has pushed: what waits is its own exactly if its push was accepted and not disturbed. */
  ghost predicate OwnExactly(s: State, steps: seq<Step>)
  {
    forall th <- s.threads :: Pushing(s.threads[th]) ==>
      (Owns(s, s.threads[th].m, s.threads[th].call) <==>
       s.threads[th].accepted && Undisturbed(steps, th, s.threads[th].m))
  }

  /** Which call is the pusher of mission m after a step. */
  lemma PusherStep(s: State, step: Step, m: int)
    requires KeysAgree(s) && Enabled(s, step)
    ensures var pusher := PusherAfter(s, step);
            if step.Push? && Accepts(s, s.threads[step.th]) && s.threads[step.th].m == m then
              m !in s.pusher && m in pusher && pusher[m] == s.threads[step.th].call
            else if TakesOut(s, step, m) then m !in pusher
            else (m in pusher <==> m in s.pusher) && (m in pusher ==> pusher[m] == s.pusher[m])
  {
  }

  /** What a step makes of the call of the stepping thread. */
  lemma CallStep(s: State, step: Step)
    requires Enabled(s, step)
    ensures var before, after := ThreadOf(step), ThreadAfter(s, step);
            && (after.Some? && after.value.Checked? ==> step.Continue? && after.value.call == s.calls)
            && (after.Some? && Pushing(after.value) ==>
                  && before in s.threads && InCall(s.threads[before])
                  && after.value.call == s.threads[before].call && after.value.m == s.threads[before].m
                  && if step.Push? then s.threads[before].Checked? && after.value.accepted == Accepts(s, s.threads[before])
                     else Pushing(s.threads[before]) && after.value.accepted == s.threads[before].accepted)
  {
  }

  lemma NumberedThread(s: State, step: Step, th: nat)
    requires Numbered(s) && Enabled(s, step) && th in Next(s, step).threads && InCall(Next(s, step).threads[th])
    ensures var s', thread := Next(s, step), Next(s, step).threads[th];
            && thread.call < s'.calls
            && (forall a :: a in s'.threads && a != th && InCall(s'.threads[a]) ==> s'.threads[a].call != thread.call)
  {
    CallStep(s, step);
    hide TablesAfter, ThreadAfter, PusherAfter, StaleAfter, Enabled;
  }

  lemma NumberedPusher(s: State, step: Step, m: int)
    requires KeysAgree(s) && Numbered(s) && Enabled(s, step) && m in Next(s, step).pusher
    ensures var s', call := Next(s, step), Next(s, step).pusher[m];
            && call < s'.calls
            && forall th <- s'.threads :: InCall(s'.threads[th]) && s'.threads[th].call == call ==>
                 Pushing(s'.threads[th]) && s'.threads[th].accepted && s'.threads[th].m == m
  {
    CallStep(s, step);
    PusherStep(s, step, m);
    hide TablesAfter, ThreadAfter, PusherAfter, StaleAfter, KeysAgree, Enabled;
  }

  lemma NumberedStep(s: State, step: Step)
    requires KeysAgree(s) && Numbered(s) && Enabled(s, step)
    ensures Numbered(Next(s, step))
  {
    var s' := Next(s, step);
    hide Next, KeysAgree, Enabled;
    forall th | th in s'.threads && InCall(s'.threads[th])
      ensures s'.threads[th].call < s'.calls
      ensures forall a :: a in s'.threads && a != th && InCall(s'.threads[a]) ==> s'.threads[a].call != s'.threads[th].call
    {
      NumberedThread(s, step, th);
    }
    forall m | m in s'.pusher
      ensures s'.pusher[m] < s'.calls
      ensures forall th <- s'.threads :: InCall(s'.threads[th]) && s'.threads[th].call == s'.pusher[m] ==>
                Pushing(s'.threads[th]) && s'.threads[th].accepted && s'.threads[th].m == m
    {
      NumberedPusher(s, step, m);
    }
  }

  lemma OwnStepExactly(s: State, steps: seq<Step>, step: Step, th: nat)
    requires KeysAgree(s) && Numbered(s) && s == After(steps) && OwnExactly(s, steps) && Enabled(s, step)
    requires th in Next(s, step).threads && Pushing(Next(s, step).threads[th])
    ensures var s' := Next(s, step); var thread := s'.threads[th];
            Owns(s', thread.m, thread.call) <==> thread.accepted && Undisturbed(steps + [step], th, thread.m)
  {
    var s' := Next(s, step);
    var m := s'.threads[th].m;
    CallStep(s, step);
    PusherStep(s, step, m);
    UndisturbedStep(steps, step, th, m);
    hide TablesAfter, ThreadAfter, PusherAfter, StaleAfter, KeysAgree, Enabled, Undisturbed, After;
  }

  lemma UndisturbedStep(steps: seq<Step>, step: Step, th: nat, m: int)
    requires Enabled(After(steps), step)
    ensures Undisturbed(steps + [step], th, m) <==>
            step == Push(th) || (!TakesOut(After(steps), step, m) && Undisturbed(steps, th, m))
  {
    hide After, Enabled;
    assert (steps + [step])[..|steps|] == steps;
  }

  lemma UndisturbedSkip(steps: seq<Step>, step: Step, th: nat, m: int)
    requires !Enabled(After(steps), step)
    ensures Undisturbed(steps + [step], th, m) <==> Undisturbed(steps, th, m)
  {
    hide After, Enabled;
    assert (steps + [step])[..|steps|] == steps;
  }

  lemma InvKeys(s: State)
    requires Inv(s)
    ensures KeysAgree(s)
  {
  }

  lemma StartOwnExactly()
    ensures Numbered(START) && OwnExactly(START, [])
  {
  }

  lemma {:induction false} AlwaysOwnExactly(steps: seq<Step>)
    ensures Numbered(After(steps)) && OwnExactly(After(steps), steps)
  {
    hide Enabled, Next, Inv, Numbered, Undisturbed;
    if steps == [] {
      StartOwnExactly();
    } else {
      var init, step := steps[..|steps| - 1], steps[|steps| - 1];
      var s := After(init);
      assert init + [step] == steps;
      AlwaysOwnExactly(init);
      AlwaysKept(init);
      InvKeys(s);
      if Enabled(s, step) {
        NumberedStep(s, step);
        forall th | th in After(steps).threads && Pushing(After(steps).threads[th])
          ensures var thread := After(steps).threads[th];
                  Owns(After(steps), thread.m, thread.call) <==> thread.accepted && Undisturbed(steps, th, thread.m)
        {
          OwnStepExactly(s, init, step, th);
        }
      } else {
        forall th, m ensures Undisturbed(steps, th, m) <==> Undisturbed(init, th, m) {
          UndisturbedSkip(init, step, th, m);
        }
      }
    }
  }

  /** A refused install takes back its own callback if and only if its push was accepted, and since then no step has taken
      out a callback of the mission. So a call whose push was refused never takes back its own. */
  lemma TakesOwnExactly(steps: seq<Step>, th: nat)
    requires var s := After(steps); Enabled(s, TakeBack(th)) && s.threads[th].m in s.t.callbacks
    ensures var s := After(steps); var TakingBack(m, call, accepted) := s.threads[th];
            && m in s.pusher && (s.pusher[m] == call <==> accepted && Undisturbed(steps, th, m))
            && (!accepted ==> s.pusher[m] != call)
            && (Undisturbed(steps, th, m) ==> (s.pusher[m] == call <==> accepted))
            && Next(s, TakeBack(th)).t.cancelled == s.t.cancelled + multiset{Entry(m, s.t.callbacks[m])}
  {
    hide Numbered, Undisturbed, After;
    AlwaysOwnExactly(steps);
    AlwaysKept(steps);
  }

  // ----- calls of one mission that do not overlap -----

  /** A ContinueLocalMission call between its progress check and its end. */
  predicate Calls(thread: Thread, m: int)
  {
    InCall(thread) && thread.m == m
  }

  ghost predicate Alone(s: State)
  {
    forall a, b, m :: a in s.threads && b in s.threads && a != b && Calls(s.threads[a], m) ==> !Calls(s.threads[b], m)
  }

  ghost predicate AlwaysAlone(steps: seq<Step>)
  {
    forall i :: 0 <= i <= |steps| ==> Alone(After(steps[..i]))
  }

  /** A call that has not pushed finds nothing waiting, and afterwards nothing but what it pushed. */
  ghost predicate OwnOnly(s: State)
  {
    forall th <- s.threads ::
      var thread := s.threads[th];
      && (thread.Checked? ==> thread.m !in s.t.callbacks)
      && (Pushing(thread) ==>
            thread.m in s.t.callbacks ==> thread.m in s.pusher && s.pusher[thread.m] == thread.call)
  }

  /** Only an accepted push makes a mission wait, and says whose push it was. */
  lemma NewWaiting(s: State, step: Step, m: int)
    requires KeysAgree(s) && Enabled(s, step) && m in TablesAfter(s, step).callbacks
    ensures if m in s.t.callbacks then m in PusherAfter(s, step) && PusherAfter(s, step)[m] == s.pusher[m]
            else && step.Push? && s.threads[step.th].m == m
                 && m in PusherAfter(s, step) && PusherAfter(s, step)[m] == s.threads[step.th].call
  {
  }

  lemma OwnStep(s: State, step: Step)
    requires KeysAgree(s) && Enabled(s, step) && Alone(s) && OwnOnly(s)
    ensures OwnOnly(Next(s, step))
  {
    var s' := Next(s, step);
    forall th <- s'.threads
      ensures var thread := s'.threads[th];
              && (thread.Checked? ==> thread.m !in s'.t.callbacks)
              && (Pushing(thread) ==>
                    thread.m in s'.t.callbacks ==> thread.m in s'.pusher && s'.pusher[thread.m] == thread.call)
    {
      OwnThread(s, step, th);
    }
  }

  lemma OwnThread(s: State, step: Step, th: nat)
    requires KeysAgree(s) && Enabled(s, step) && Alone(s) && OwnOnly(s) && th in Next(s, step).threads
    ensures var s' := Next(s, step); var thread := s'.threads[th];
            && (thread.Checked? ==> thread.m !in s'.t.callbacks)
            && (Pushing(thread) ==>
                  thread.m in s'.t.callbacks ==> thread.m in s'.pusher && s'.pusher[thread.m] == thread.call)
  {
    hide TablesAfter, PusherAfter, StaleAfter, KeysAgree;
    var s' := Next(s, step);
    var thread := s'.threads[th];
    if thread.m in s'.t.callbacks {
      NewWaiting(s, step, thread.m);
      if th != step.th {
        assert s.threads[th] == thread;
        assert step.Push? ==> Calls(s.threads[step.th], s.threads[step.th].m);
      }
    }
  }

  lemma {:induction false} AloneOwns(steps: seq<Step>)
    requires AlwaysAlone(steps)
    ensures OwnOnly(After(steps))
  {
    hide Enabled, Next, OwnOnly, Alone, Inv;
    if steps == [] {
      assert OwnOnly(START) by { StartOwns(); }
    } else {
      var init := steps[..|steps| - 1];
      assert forall i :: 0 <= i <= |init| ==> init[..i] == steps[..i];
      AloneOwns(init);
      AlwaysKept(init);
      assert KeysAgree(After(init)) by { InvKeys(After(init)); }
      if Enabled(After(init), steps[|steps| - 1]) {
        OwnStep(After(init), steps[|steps| - 1]);
      }
    }
  }

  lemma StartOwns()
    ensures OwnOnly(START)
  {
  }

  /** If no two calls of one mission overlap between check and end, a refused install takes back its own callback only. */
  lemma AloneTakesOwn(steps: seq<Step>, th: nat)
    requires AlwaysAlone(steps) && Enabled(After(steps), TakeBack(th))
    ensures var s := After(steps); var m := s.threads[th].m;
            m in s.t.callbacks ==> m in s.pusher && s.pusher[m] == s.threads[th].call
  {
    AloneOwns(steps);
  }

  // ----- ends of one mission that no push interrupts -----

  /** No call pushes a callback for a mission while a thread is between taking out the mission's earlier callback, or
      finding none, and removing its timers. */
  ghost predicate EndsAlone(steps: seq<Step>)
  {
    forall i, th, other ::
      0 <= i < |steps| && steps[i] == Push(th) && Enabled(After(steps[..i]), Push(th)) && other in After(steps[..i]).threads
      && After(steps[..i]).threads[other].Finishing? && Accepts(After(steps[..i]), After(steps[..i]).threads[th]) ==>
        After(steps[..i]).threads[other].m != After(steps[..i]).threads[th].m
  }

  ghost predicate NeverStale(s: State)
  {
    s.stale == {} && forall th <- s.threads :: s.threads[th].Finishing? ==> s.threads[th].m !in s.t.callbacks
  }

  lemma NeverStaleStep(s: State, step: Step)
    requires KeysAgree(s) && Enabled(s, step) && NeverStale(s)
    requires step.Push? && Accepts(s, s.threads[step.th]) ==>
               forall other <- s.threads :: s.threads[other].Finishing? ==> s.threads[other].m != s.threads[step.th].m
    ensures NeverStale(Next(s, step))
  {
    var s' := Next(s, step);
    forall th <- s'.threads ensures s'.threads[th].Finishing? ==> s'.threads[th].m !in s'.t.callbacks {
      FinishingStep(s, step, th);
    }
  }

  lemma FinishingStep(s: State, step: Step, th: nat)
    requires KeysAgree(s) && Enabled(s, step) && NeverStale(s) && th in Next(s, step).threads
    requires step.Push? && Accepts(s, s.threads[step.th]) ==>
               forall other <- s.threads :: s.threads[other].Finishing? ==> s.threads[other].m != s.threads[step.th].m
    ensures var s' := Next(s, step); s'.threads[th].Finishing? ==> s'.threads[th].m !in s'.t.callbacks
  {
    var s' := Next(s, step);
    if s'.threads[th].Finishing? && s'.threads[th].m in s'.t.callbacks {
      NewWaiting(s, step, s'.threads[th].m);
    }
  }

  lemma {:induction false} EndsAloneNeverStale(steps: seq<Step>)
    requires EndsAlone(steps)
    ensures NeverStale(After(steps))
  {
    hide Enabled, Next, NeverStale, Inv, Accepts;
    if steps == [] {
      assert NeverStale(START) by { StartNeverStale(); }
    } else {
      var init, step := steps[..|steps| - 1], steps[|steps| - 1];
      assert forall i :: 0 <= i <= |init| ==> init[..i] == steps[..i];
      EndsAloneNeverStale(init);
      AlwaysKept(init);
      InvKeys(After(init));
      if Enabled(After(init), step) {
        NeverStaleStep(After(init), step);
      }
    }
  }

  lemma StartNeverStale()
    ensures NeverStale(START)
  {
  }

  /** Then every waiting mission with a positive id has a timer, or a thread that will set one or end it. */
  lemma EndsAloneCovers(steps: seq<Step>, m: int)
    requires EndsAlone(steps) && m > 0 && m in After(steps).t.callbacks
    ensures After(steps).t.timers[m] > 0 || InHand(After(steps), m)
  {
    EndsAloneNeverStale(steps);
    AlwaysKept(steps);
  }

  // ----- what overlaps can do -----

  /** One more step of a run. */
  lemma Go(steps: seq<Step>, s: State, step: Step) returns (steps': seq<Step>, s': State)
    requires s == After(steps) && Enabled(s, step)
    ensures steps' == steps + [step] && s' == Next(s, step) == After(steps')
    ensures s'.threads == match ThreadAfter(s, step)
                          case Some(thread) => s.threads[ThreadOf(step) := thread]
                          case None => s.threads - {ThreadOf(step)}
    ensures s'.t == TablesAfter(s, step) && s'.pusher == PusherAfter(s, step) && s'.stale == StaleAfter(s, step)
    ensures s'.calls == if ThreadAfter(s, step).Some? && step.Continue? then s.calls + 1 else s.calls
  {
    hide Enabled, After, ThreadAfter, TablesAfter, PusherAfter, StaleAfter;
    GoAfter(steps, s, step);
    steps', s' := steps + [step], Next(s, step);
  }

  lemma GoAfter(steps: seq<Step>, s: State, step: Step)
    requires s == After(steps) && Enabled(s, step)
    ensures After(steps + [step]) == Next(s, step)
  {
    hide Next, Enabled;
    assert (steps + [step])[..|steps|] == steps;
  }

  /** A call with a refused install, from its push to the point where it takes back. */
  lemma GoRetract(steps: seq<Step>, s: State, th: nat, m: int, call: nat, accepted: bool)
    returns (steps': seq<Step>, s': State)
    requires s == After(steps) && th in s.threads && s.threads[th] == Arming(m, true, call, accepted)
    ensures s' == After(steps') && s'.threads == s.threads[th := TakingBack(m, call, accepted)]
    ensures s'.t == s.t.(timers := s'.t.timers) && s'.pusher == s.pusher
  {
    hide Next, After;
    steps', s' := Go(steps, s, Arm(th));
    assert s'.threads == s.threads[th := Retracting(m, call, accepted)];
    steps', s' := Go(steps', s', Retract(th));
  }

  /** Two calls for one mission that both pass the check before the first one pushes. */
  lemma GoOverlap(m: int, first: Remote, second: Remote, device: DeviceId) returns (steps: seq<Step>, s: State)
    requires first != NULL && second != NULL
    ensures s == After(steps)
    ensures s.threads == map[0 := Arming(m, false, 0, true), 1 := Checked(m, second, device, true, true, 1)]
    ensures s.t.callbacks == map[m := first] && s.pusher == map[m := 0] && s.t.cancelled == multiset{}
  {
    s, steps := START, [];
    hide Next;
    steps, s := Go(steps, s, Step.Continue(0, m, first, device, true, false));
    assert s.threads == map[0 := Checked(m, first, device, true, false, 0)] && s.t == IDLE && s.calls == 1;
    steps, s := Go(steps, s, Step.Continue(1, m, second, device, true, true));
    assert s.threads == map[0 := Checked(m, first, device, true, false, 0), 1 := Checked(m, second, device, true, true, 1)];
    steps, s := Go(steps, s, Push(0));
  }

  /** A call whose push is refused, because another call pushed meanwhile, takes back the callback of that other call. */
  lemma OverlapTakesOther(m: int, first: Remote, second: Remote, device: DeviceId) returns (steps: seq<Step>)
    requires first != NULL && second != NULL
    ensures var s := After(steps);
            && Enabled(s, TakeBack(1)) && s.threads[1] == TakingBack(m, 1, false) && s.pusher == map[m := 0]
            && Next(s, TakeBack(1)).t.cancelled == multiset{Entry(m, first)}
  {
    var s;
    steps, s := GoOverlap(m, first, second, device);
    steps, s := GoPushRefused(steps, s, m, second, device);
    steps, s := GoRetract(steps, s, 1, m, 1, false);
    TakesBack(s, 1, m, first);
  }

  lemma GoPushRefused(steps: seq<Step>, s: State, m: int, second: Remote, device: DeviceId)
    returns (steps': seq<Step>, s': State)
    requires s == After(steps) && 1 in s.threads && s.threads[1] == Checked(m, second, device, true, true, 1)
    requires m in s.t.callbacks
    ensures s' == After(steps') && s'.threads == s.threads[1 := Arming(m, true, 1, false)]
    ensures s'.t == s.t && s'.pusher == s.pusher
  {
    hide Next, After;
    steps', s' := Go(steps, s, Push(1));
  }

  lemma TakesBack(s: State, th: nat, m: int, callback: Remote)
    requires Enabled(s, TakeBack(th)) && s.threads[th].m == m && s.t.callbacks == map[m := callback]
    ensures Next(s, TakeBack(th)).t.cancelled == s.t.cancelled + multiset{Entry(m, callback)}
  {
  }

  /** A call that finds the app installed, from check to end. */
  lemma GoCall(steps: seq<Step>, s: State, th: nat, m: int, callback: Remote, device: DeviceId)
    returns (steps': seq<Step>, s': State)
    requires s == After(steps) && th !in s.threads && callback != NULL && m !in s.t.callbacks
    ensures s' == After(steps') && s'.threads == s.threads && s'.t.callbacks == s.t.callbacks[m := callback]
    ensures s'.stale == s.stale - {m}
  {
    hide Next, After;
    steps', s' := Go(steps, s, Step.Continue(th, m, callback, device, false, false));
    assert s'.threads == s.threads[th := Checked(m, callback, device, false, false, s.calls)];
    assert s'.t == s.t && s'.stale == s.stale;
    steps', s' := GoPush(steps', s', th, m, callback, device);
    steps', s' := GoArm(steps', s', th, m);
    assert s'.threads == s.threads;
  }

  lemma GoPush(steps: seq<Step>, s: State, th: nat, m: int, callback: Remote, device: DeviceId)
    returns (steps': seq<Step>, s': State)
    requires s == After(steps) && th in s.threads && callback != NULL && m !in s.t.callbacks
    requires s.threads[th].Checked? && s.threads[th].m == m && s.threads[th].callback == callback
    requires s.threads[th].device == device && !s.threads[th].refused
    ensures s' == After(steps') && s'.threads == s.threads[th := Arming(m, false, s.threads[th].call, true)]
    ensures s'.t.callbacks == s.t.callbacks[m := callback] && s'.stale == s.stale
  {
    hide Next, After, PusherAfter;
    steps', s' := Go(steps, s, Push(th));
  }

  lemma GoArm(steps: seq<Step>, s: State, th: nat, m: int) returns (steps': seq<Step>, s': State)
    requires s == After(steps) && th in s.threads && s.threads[th].Arming? && s.threads[th].m == m && !s.threads[th].refused
    ensures s' == After(steps') && s'.threads == s.threads - {th} && s'.t.callbacks == s.t.callbacks
    ensures s'.stale == s.stale - {m}
  {
    hide Next, After, PusherAfter;
    steps', s' := Go(steps, s, Arm(th));
  }

  /** A result up to the point where the callback is taken out. */
  lemma GoTakeOut(steps: seq<Step>, s: State, th: nat, m: int) returns (steps': seq<Step>, s': State)
    requires s == After(steps) && th !in s.threads && m in s.t.callbacks
    ensures s' == After(steps') && s'.threads == s.threads[th := Finishing(m, Some(s.t.callbacks[m]))]
    ensures s'.t.callbacks == s.t.callbacks - {m} && s'.stale == s.stale - {m}
  {
    hide Next, After;
    steps', s' := Go(steps, s, Step.Result(th, m));
    steps', s' := Go(steps', s', CheckResult(th));
    assert s'.threads == s.threads[th := Ending(m)] && s'.t == s.t;
    steps', s' := Go(steps', s', Pop(th));
  }

  /** A thread that ends one callback removes the timer of the next one, pushed between its two steps. */
  lemma LateDisarmLeavesNoTimer(m: int, first: Remote, second: Remote, device: DeviceId) returns (steps: seq<Step>)
    requires first != NULL && second != NULL && m > 0
    ensures var s := After(steps);
            s.threads == map[] && s.t.callbacks == map[m := second] && s.t.timers[m] == 0 && s.stale == {m}
  {
    hide Next;
    var s := START;
    steps := [];
    steps, s := GoCall(steps, s, 0, m, first, device);
    steps, s := GoTakeOut(steps, s, 1, m);
    steps, s := GoCall(steps, s, 0, m, second, device);
    assert s.stale == {};
    steps, s := Go(steps, s, Disarm(1));
    assert s.threads == map[1 := Delivering(m, first)] && s.stale == {m};
    steps, s := Go(steps, s, Deliver(1));
  }

  // ----- a thread that runs alone does what the whole call does -----

  /** The steps of one ContinueLocalMission call; a call that its checks stop takes none. */
  function CallAlone(s: State, th: nat, m: int, callback: Remote, device: DeviceId, a: Answers): State
  {
    if !Pushes(a) then s else
    var s1 := Applied(s, Step.Continue(th, m, callback, device, a.remoteCheck != ERR_OK, !Stays(a)));
    Applied(Applied(Applied(Applied(s1, Push(th)), Arm(th)), Retract(th)), TakeBack(th))
  }

  lemma CallAloneIsContinued(s: State, th: nat, m: int, callback: Remote, device: DeviceId, a: Answers)
    requires th !in s.threads
    ensures CallAlone(s, th, m, callback, device, a).t == Continued(s.t, device, m, callback, a)
    ensures CallAlone(s, th, m, callback, device, a).threads == s.threads
  {
    if Pushes(a) && m !in s.t.callbacks {
      hide PusherAfter, StaleAfter;
      var s1 := Applied(s, Step.Continue(th, m, callback, device, a.remoteCheck != ERR_OK, !Stays(a)));
      var s2 := Applied(s1, Push(th));
      assert s1.threads[th].Checked? && s1.t == s.t;
      assert s2.t == Pushed(s.t, m, callback, device, a.remoteCheck != ERR_OK) && s2.threads[th].Arming?;
      PushedAlone(s, s2, th, m, a);
    }
  }

  lemma PushedAlone(s: State, s2: State, th: nat, m: int, a: Answers)
    requires Pushes(a) && th !in s.threads && th in s2.threads && s2.threads - {th} == s.threads
    requires s2.threads[th].Arming? && s2.threads[th].m == m && s2.threads[th].refused == !Stays(a)
    ensures var s3 := Applied(s2, Arm(th)); var s5 := Applied(Applied(s3, Retract(th)), TakeBack(th));
            && s5.threads == s.threads
            && s5.t == if Stays(a) then Armed(s2.t, m) else Cancelled(Armed(s2.t, m), m)
  {
    hide PusherAfter, StaleAfter;
    var s3 := Applied(s2, Arm(th));
    assert s3.t == Armed(s2.t, m);
    if Stays(a) {
      assert s3.threads == s.threads;
    } else {
      assert s3.threads[th].Retracting?;
      var s4 := Applied(s3, Retract(th));
      assert s4.t == Disarmed(Armed(s2.t, m), m) && s4.threads[th].TakingBack?;
    }
  }

  function ResultAlone(s: State, th: nat, m: int): State
  {
    NotifiedAlone(Applied(s, Step.Result(th, m)), th)
  }

  function NotifiedAlone(s: State, th: nat): State
  {
    Applied(Applied(Applied(Applied(s, CheckResult(th)), Pop(th)), Disarm(th)), Deliver(th))
  }

  lemma NotifiedAloneIsFinished(s: State, before: State, th: nat, m: int)
    requires th !in before.threads && th in s.threads && s.threads[th] == Notifying(m) && s.threads - {th} == before.threads
    ensures NotifiedAlone(s, th).t == Finished(s.t, m) && NotifiedAlone(s, th).threads == before.threads
  {
    hide NotifiedAlone, Finished;
    if m in s.t.callbacks {
      WaitingAlone(s, before, th, m);
    } else {
      NothingAlone(s, before, th, m);
    }
  }

  lemma WaitingAlone(s: State, before: State, th: nat, m: int)
    requires th !in before.threads && th in s.threads && s.threads[th] == Notifying(m) && s.threads - {th} == before.threads
    requires m in s.t.callbacks
    ensures NotifiedAlone(s, th).t == Finished(s.t, m) && NotifiedAlone(s, th).threads == before.threads
  {
    hide PusherAfter, StaleAfter, Popped;
    var s1 := Applied(s, CheckResult(th));
    assert s1.threads == s.threads[th := Ending(m)] && s1.t == s.t;
    var s2 := Applied(s1, Pop(th));
    assert s2.t == Popped(s.t, m) && s2.threads == s.threads[th := Finishing(m, Some(s.t.callbacks[m]))];
    FinishedAlone(s2, before, th, m, s.t.callbacks[m]);
    PoppedHistory(s.t, m);
  }

  lemma PoppedHistory(t: Continuation.State, m: int)
    ensures Popped(t, m).delivered == t.delivered
  {
  }

  lemma FinishedAlone(s: State, before: State, th: nat, m: int, callback: Remote)
    requires th !in before.threads && th in s.threads && s.threads[th] == Finishing(m, Some(callback))
    requires s.threads - {th} == before.threads
    ensures var s2 := Applied(Applied(s, Disarm(th)), Deliver(th));
            s2.threads == before.threads &&
            s2.t == Disarmed(s.t, m).(delivered := s.t.delivered + multiset{Entry(m, callback)})
  {
    hide PusherAfter, StaleAfter;
    var s1 := Applied(s, Disarm(th));
    assert s1.t == Disarmed(s.t, m) && s1.threads == s.threads[th := Delivering(m, callback)];
  }

  lemma NothingAlone(s: State, before: State, th: nat, m: int)
    requires th !in before.threads && th in s.threads && s.threads[th] == Notifying(m) && s.threads - {th} == before.threads
    requires m !in s.t.callbacks
    ensures NotifiedAlone(s, th).t == Finished(s.t, m) && NotifiedAlone(s, th).threads == before.threads
  {
    hide PusherAfter, StaleAfter;
    var s1 := Applied(s, CheckResult(th));
    assert s1.threads == s.threads[th := Finishing(m, None)] && s1.t == s.t;
    assert Applied(s1, Pop(th)) == s1;
    var s3 := Applied(s1, Disarm(th));
    assert s3.t == Disarmed(s.t, m) && s3.threads == before.threads;
  }

  lemma ResultAloneIsFinished(s: State, th: nat, m: int)
    requires th !in s.threads
    ensures ResultAlone(s, th, m).t == Finished(s.t, m) && ResultAlone(s, th, m).threads == s.threads
  {
    hide NotifiedAlone;
    NotifiedAloneIsFinished(Applied(s, Step.Result(th, m)), s, th, m);
  }

  lemma TimeoutAloneIsTimedOut(s: State, th: nat, m: int)
    requires th !in s.threads && m in s.t.timers
    ensures var s1 := Applied(s, Fire(th, m));
            NotifiedAlone(s1, th).t == TimedOut(s.t, m) && NotifiedAlone(s1, th).threads == s.threads
  {
    hide PusherAfter, StaleAfter;
    var s1 := Applied(s, Fire(th, m));
    if m > 0 {
      hide NotifiedAlone;
      NotifiedAloneIsFinished(s1, s, th, m);
    }
  }

  lemma StartAloneIsStarted(s: State, th: nat, m: int)
    requires th !in s.threads
    ensures Applied(Applied(s, Step.Start(th, m)), Rearm(th)).t == Started(s.t, m, ERR_OK, true)
  {
    hide PusherAfter, StaleAfter;
  }

  lemma QueryAloneIsQueried(s: State, th: nat, m: int)
    requires th !in s.threads
    ensures Applied(Applied(Applied(s, Step.Query(th, m)), QueryDisarm(th)), Rearm(th)).t == Queried(s.t, m, ERR_OK)
  {
    hide PusherAfter, StaleAfter;
    var s1 := Applied(s, Step.Query(th, m));
    assert s1.threads == s.threads[th := Querying(m)] && s1.t == s.t;
    var s2 := Applied(s1, QueryDisarm(th));
    assert s2.threads == s.threads[th := Rearming(m)] && s2.t == Disarmed(s.t, m);
    RearmAlone(s2, th, m);
  }

  lemma RearmAlone(s: State, th: nat, m: int)
    requires th in s.threads && s.threads[th] == Rearming(m)
    ensures Applied(s, Rearm(th)).t == Armed(s.t, m)
  {
    hide PusherAfter, StaleAfter;
  }
}
