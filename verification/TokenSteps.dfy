/** Registrations running side by side: the check of the limit, the drawing of the token and its insertion are steps of
    their own, because they hold different locks. */
module TokenSteps {
  import opened Common
  import opened TokenRegistry

  /** A token drawn for an app and not yet inserted. */
  datatype Drawn = Drawn(app: App, t: int)

  /** `checked` holds the apps of calls that passed the check and have not drawn a token. */
  datatype Fine = Fine(s: State, checked: multiset<App>, drawn: set<Drawn>)

  datatype FineStep =
    | Check(app: App, mode: Option<int>)
    | Draw(app: App)
    | Insert(app: App, t: int)
    | Other(step: Step)

  function Drew(f: Fine, app: App): Fine
  {
    var t := NextToken(f.s.token);
    Fine(f.s.(token := t, issued := f.s.issued + [t]), f.checked - multiset{app}, f.drawn + {Drawn(app, t)})
  }

  function Inserted(f: Fine, app: App, t: int): Fine
  {
    Fine(f.s.(tokens := WithToken(f.s.tokens, app, t)), f.checked, f.drawn - {Drawn(app, t)})
  }

  ghost predicate FineNext(f: Fine, step: FineStep, f': Fine)
  {
    match step
    case Check(app, mode) =>
      f' == if RegisterCode(f.s, app, mode) == ERR_OK then f.(checked := f.checked + multiset{app}) else f
    case Draw(app) => app in f.checked && f' == Drew(f, app)
    case Insert(app, t) => Drawn(app, t) in f.drawn && f' == Inserted(f, app, t)
    case Other(step) => !step.Register? && Next(f.s, step, f'.s) && f' == f.(s := f'.s)
  }

  ghost predicate IsFineRun(start: int, states: seq<Fine>, steps: seq<FineStep>)
  {
    && 0 <= start <= MAX_TOKEN_NUM
    && |states| == |steps| + 1 && states[0] == Fine(State(start, map[], map[], []), multiset{}, {})
    && forall i :: 0 <= i < |steps| ==> FineNext(states[i], steps[i], states[i + 1])
  }

  // ----- what every step keeps -----

  /** The tokens issued are the next ones from the start value. */
  ghost predicate Counted(s: State, start: int)
  {
    && 0 <= s.token <= MAX_TOKEN_NUM
    && (if s.issued == [] then s.token == start else s.token == s.issued[|s.issued| - 1])
    && (forall k :: 0 <= k < |s.issued| ==> s.issued[k] == Issue(start, k))
  }

  /** A drawn token was issued, belongs to one call, and no app holds it yet. */
  ghost predicate DrawnOk(f: Fine)
  {
    && (forall x <- f.drawn :: x.t in f.s.issued && !Held(f.s.tokens, x.t))
    && (forall x, y :: x in f.drawn && y in f.drawn && x.t == y.t ==> x == y)
  }

  ghost predicate FineOk(f: Fine, start: int)
  {
    && Counted(f.s, start) && DrawnOk(f) && ListsSound(f.s.tokens) && CallbacksOk(f.s)
    && forall t :: Held(f.s.tokens, t) ==> t in f.s.issued
  }

  lemma DrawIsFresh(s: State, start: int)
    requires 0 <= start <= MAX_TOKEN_NUM && Counted(s, start) && |s.issued| < MAX_TOKEN_NUM
    ensures NextToken(s.token) == Issue(start, |s.issued|) && NextToken(s.token) !in s.issued
    ensures 1 <= NextToken(s.token) <= MAX_TOKEN_NUM
  {
    var n := |s.issued|;
    IssueNext(start, n);
    if n > 0 {
      IssueNext(start, n - 1);
    }
    forall k | 0 <= k < n ensures s.issued[k] != NextToken(s.token) { IssueDistinct(start, k, n); }
  }

  lemma DrawKeeps(f: Fine, start: int, app: App)
    requires 0 <= start <= MAX_TOKEN_NUM && FineOk(f, start) && |f.s.issued| < MAX_TOKEN_NUM && app in f.checked
    ensures FineOk(Drew(f, app), start)
  {
    DrawIsFresh(f.s, start);
  }

  lemma InsertKeeps(f: Fine, start: int, app: App, t: int)
    requires FineOk(f, start) && Drawn(app, t) in f.drawn
    ensures FineOk(Inserted(f, app, t), start)
  {
    WithTokenSound(f.s.tokens, app, t);
  }

  lemma ForgetKeeps(f: Fine, start: int, t: int)
    requires FineOk(f, start)
    ensures FineOk(f.(s := Forgotten(f.s, t)), start)
  {
    RemovedExact(f.s.tokens, t);
  }

  lemma OtherKeeps(f: Fine, start: int, step: FineStep, f': Fine)
    requires FineOk(f, start) && step.Other? && FineNext(f, step, f')
    ensures FineOk(f', start) && forall app :: Size(f'.s.tokens, app) <= Size(f.s.tokens, app)
  {
    match step.step
    case Unregister(app, t) =>
      ForgetKeeps(f, start, t);
      RemovedExact(f.s.tokens, t);
    case SetCallback(app, t, cbType, notifier) =>
      if f' != f {
        assert Holds(f.s.tokens, app, t);
        assert cbType in f'.s.callbacks[t].notifierMap;
      }
    case ClearCallback(app, t, cbType) =>
    case NotifierDied(notifier) =>
      if t :| IsFirst(f.s.callbacks, notifier, t) && f'.s == Forgotten(f.s, t) {
        ForgetKeeps(f, start, t);
        RemovedExact(f.s.tokens, t);
      }
  }

  lemma StepKeeps(f: Fine, start: int, step: FineStep, f': Fine)
    requires 0 <= start <= MAX_TOKEN_NUM && FineOk(f, start) && FineNext(f, step, f') && |f'.s.issued| <= MAX_TOKEN_NUM
    ensures FineOk(f', start)
  {
    match step
    case Check(_, _) =>
    case Draw(app) => DrawKeeps(f, start, app);
    case Insert(app, t) => InsertKeeps(f, start, app, t);
    case Other(_) => OtherKeeps(f, start, step, f');
  }

  lemma IssuedGrows(f: Fine, step: FineStep, f': Fine)
    requires FineNext(f, step, f')
    ensures |f.s.issued| <= |f'.s.issued|
  {
  }

  lemma StartOk(start: int)
    requires 0 <= start <= MAX_TOKEN_NUM
    ensures FineOk(Fine(State(start, map[], map[], []), multiset{}, {}), start)
  {
  }

  /** However registrations overlap, in a run of at most MAX_TOKEN_NUM drawn tokens the lists stay non-empty and disjoint,
      no drawn token is drawn again or held before it is inserted, and every callback belongs to a held token. */
  lemma {:induction false} AlwaysSound(start: int, states: seq<Fine>, steps: seq<FineStep>, i: nat)
    requires IsFineRun(start, states, steps) && i < |states| && |states[i].s.issued| <= MAX_TOKEN_NUM
    ensures FineOk(states[i], start)
  {
    hide FineNext, FineOk;
    if i == 0 {
      StartOk(start);
    } else {
      IssuedGrows(states[i - 1], steps[i - 1], states[i]);
      AlwaysSound(start, states, steps, i - 1);
      StepKeeps(states[i - 1], start, steps[i - 1], states[i]);
    }
  }

  // ----- the limit -----

  /** The registrations of an app that are in flight. */
  function InFlight(f: Fine, app: App): nat
  {
    f.checked[app] + |DrawnFor(f.drawn, app)|
  }

  function DrawnFor(drawn: set<Drawn>, app: App): set<Drawn>
  {
    set x <- drawn | x.app == app
  }

  /** Only a check that finds room adds to the tokens and registrations of an app. */
  lemma StepCounts(f: Fine, start: int, step: FineStep, f': Fine, app: App)
    requires 0 <= start <= MAX_TOKEN_NUM && FineOk(f, start) && FineNext(f, step, f') && |f'.s.issued| <= MAX_TOKEN_NUM
    ensures Size(f'.s.tokens, app) + InFlight(f', app) <= Size(f.s.tokens, app) + InFlight(f, app) ||
            (Size(f'.s.tokens, app) < MAX_REGISTER_NUM && step.Check?)
  {
    match step
    case Check(_, _) =>
    case Draw(a) => DrawCounts(f, start, a, app);
    case Insert(a, t) => InsertCounts(f, start, a, t, app);
    case Other(_) => OtherKeeps(f, start, step, f');
  }

  lemma DrawCounts(f: Fine, start: int, a: App, app: App)
    requires 0 <= start <= MAX_TOKEN_NUM && FineOk(f, start) && |f.s.issued| < MAX_TOKEN_NUM && a in f.checked
    ensures InFlight(Drew(f, a), app) == InFlight(f, app)
  {
    DrawIsFresh(f.s, start);
    var x := Drawn(a, NextToken(f.s.token));
    assert x !in f.drawn;
    assert DrawnFor(f.drawn + {x}, app) == DrawnFor(f.drawn, app) + if a == app then {x} else {};
  }

  lemma InsertCounts(f: Fine, start: int, a: App, t: int, app: App)
    requires FineOk(f, start) && Drawn(a, t) in f.drawn
    ensures Size(Inserted(f, a, t).s.tokens, app) + InFlight(Inserted(f, a, t), app)
         == Size(f.s.tokens, app) + InFlight(f, app)
  {
    WithTokenSound(f.s.tokens, a, t);
    var x := Drawn(a, t);
    assert DrawnFor(f.drawn - {x}, app) == DrawnFor(f.drawn, app) - if a == app then {x} else {};
  }

  /** With at most n registrations of an app in flight at any time, its tokens and registrations never exceed 599 + n. */
  lemma {:induction false} Bounded(start: int, states: seq<Fine>, steps: seq<FineStep>, app: App, n: nat, i: nat)
    requires IsFineRun(start, states, steps) && i < |states| && |states[i].s.issued| <= MAX_TOKEN_NUM
    requires forall j :: 0 <= j < |states| ==> InFlight(states[j], app) <= n
    ensures Size(states[i].s.tokens, app) + InFlight(states[i], app) <= MAX_REGISTER_NUM - 1 + n
  {
    hide FineNext, FineOk;
    if i == 0 {
      assert DrawnFor({}, app) == {};
    } else {
      IssuedGrows(states[i - 1], steps[i - 1], states[i]);
      AlwaysSound(start, states, steps, i - 1);
      Bounded(start, states, steps, app, n, i - 1);
      StepCounts(states[i - 1], start, steps[i - 1], states[i], app);
    }
  }

  /** Two registrations at the last free place both pass the check, and the app ends with 601 tokens. */
  lemma TwoOvershoot(f: Fine, start: int, app: App)
    requires 0 <= start <= MAX_TOKEN_NUM && FineOk(f, start) && |f.s.issued| + 2 <= MAX_TOKEN_NUM
    requires Size(f.s.tokens, app) == MAX_REGISTER_NUM - 1
    ensures var f1 := f.(checked := f.checked + multiset{app});
            var f2 := f1.(checked := f1.checked + multiset{app});
            var f3, t := Drew(f2, app), NextToken(f2.s.token);
            var f4 := Inserted(f3, app, t);
            var f5, u := Drew(f4, app), NextToken(f4.s.token);
            var f6 := Inserted(f5, app, u);
            && FineNext(f, Check(app, None), f1) && FineNext(f1, Check(app, None), f2)
            && FineNext(f2, Draw(app), f3) && FineNext(f3, Insert(app, t), f4)
            && FineNext(f4, Draw(app), f5) && FineNext(f5, Insert(app, u), f6)
            && FineOk(f6, start) && Size(f6.s.tokens, app) == MAX_REGISTER_NUM + 1
  {
    var f2 := f.(checked := f.checked + multiset{app} + multiset{app});
    var f4 := DrawAndInsert(f2, start, app);
    var f6 := DrawAndInsert(f4, start, app);
  }

  lemma DrawAndInsert(f: Fine, start: int, app: App) returns (f': Fine)
    requires 0 <= start <= MAX_TOKEN_NUM && FineOk(f, start) && |f.s.issued| < MAX_TOKEN_NUM && app in f.checked
    ensures f' == Inserted(Drew(f, app), app, NextToken(f.s.token)) && FineOk(f', start)
    ensures Size(f'.s.tokens, app) == Size(f.s.tokens, app) + 1 && |f'.s.issued| == |f.s.issued| + 1
    ensures f'.checked == f.checked - multiset{app}
  {
    DrawKeeps(f, start, app);
    InsertKeeps(Drew(f, app), start, app, NextToken(f.s.token));
    WithTokenSound(f.s.tokens, app, NextToken(f.s.token));
    f' := Inserted(Drew(f, app), app, NextToken(f.s.token));
  }
}
