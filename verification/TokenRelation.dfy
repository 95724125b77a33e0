/** What the tokens and callbacks of the continuation manager amount to: which app holds which token, and which notifier
    each token has for each event. The lists and nested maps of the registry keep exactly these two relations. */
module TokenRelation {
  import opened Common
  import opened TokenRegistry

  datatype Relation = Relation(held: set<(App, int)>, notifiers: map<(int, string), Remote>, last: int)

  function TokensOf(r: Relation, app: App): set<int>
  {
    set x | x in r.held && x.0 == app :: x.1
  }

  /** A token and all that belongs to it go. */
  function Forget(r: Relation, t: int): Relation
  {
    r.(held := (set x | x in r.held && x.1 != t),
       notifiers := (map k | k in r.notifiers && k.0 != t :: r.notifiers[k]))
  }

  ghost predicate HasNotifier(r: Relation, t: int, notifier: Remote)
  {
    exists cbType :: (t, cbType) in r.notifiers && r.notifiers[(t, cbType)] == notifier
  }

  /** The least token with this notifier. */
  ghost predicate IsLeast(r: Relation, notifier: Remote, t: int)
  {
    HasNotifier(r, t, notifier) && forall x :: HasNotifier(r, x, notifier) ==> t <= x
  }

  ghost function After(r: Relation, step: Step): Relation
  {
    match step
    case Register(app, mode) =>
      if (mode.Some? && mode.value !in {0, 1}) || |TokensOf(r, app)| >= 600 then r else
      var t := if r.last == 100_000_000 then 1 else r.last + 1;
      r.(held := r.held + {(app, t)}, last := t)
    case Unregister(app, t) =>
      if (app, t) in r.held then Forget(r, t) else r
    case SetCallback(app, t, cbType, notifier) =>
      if cbType in {"deviceConnect", "deviceDisconnect"} && (app, t) in r.held && (t, cbType) !in r.notifiers then
        r.(notifiers := r.notifiers[(t, cbType) := notifier])
      else r
    case ClearCallback(app, t, cbType) =>
      if cbType in {"deviceConnect", "deviceDisconnect"} && (app, t) in r.held then
        r.(notifiers := r.notifiers - {(t, cbType)})
      else r
    case NotifierDied(notifier) =>
      if t :| IsLeast(r, notifier, t) then Forget(r, t) else r
  }

  ghost predicate SameTokens(s: State, r: Relation)
  {
    s.token == r.last && forall app, t :: (app, t) in r.held <==> app in s.tokens && t in s.tokens[app]
  }

  ghost predicate SameNotifiers(s: State, r: Relation)
  {
    forall t, cbType ::
      && ((t, cbType) in r.notifiers <==> t in s.callbacks && cbType in s.callbacks[t].notifierMap)
      && ((t, cbType) in r.notifiers ==> r.notifiers[(t, cbType)] == s.callbacks[t].notifierMap[cbType])
  }

  ghost predicate Agree(s: State, r: Relation) { SameTokens(s, r) && SameNotifiers(s, r) }

  lemma {:induction false} DistinctCount(list: seq<int>, tokens: set<int>)
    requires Distinct(list) && forall t :: t in tokens <==> t in list
    ensures |tokens| == |list|
  {
    if list == [] {
      forall t ensures t !in tokens { assert t in tokens <==> t in list; }
      assert tokens == {};
    } else {
      var rest := list[1..];
      assert list == [list[0]] + rest;
      DistinctCount(rest, tokens - {list[0]});
    }
  }

  lemma SizeIs(s: State, r: Relation, app: App)
    requires SameTokens(s, r) && ListsOk(s.tokens)
    ensures |TokensOf(r, app)| == Size(s.tokens, app)
  {
    forall t ensures t in TokensOf(r, app) <==> app in s.tokens && t in s.tokens[app] {
      if (app, t) in r.held {
        assert (app, t).0 == app && (app, t).1 == t;
      }
      if t in TokensOf(r, app) {
        var x :| x in r.held && x.0 == app && x.1 == t;
        assert x == (app, t);
      }
    }
    if app in s.tokens {
      DistinctCount(s.tokens[app], TokensOf(r, app));
    } else {
      assert TokensOf(r, app) == {};
    }
  }

  lemma RegisterAgrees(s: State, r: Relation, app: App, mode: Option<int>)
    requires Agree(s, r) && ListsOk(s.tokens) && 0 <= s.token <= MAX_TOKEN_NUM
    ensures Agree(if RegisterCode(s, app, mode) == ERR_OK then Granted(s, app) else s, After(r, Register(app, mode)))
  {
    SizeIs(s, r, app);
  }

  lemma ForgetAgrees(s: State, r: Relation, t: int)
    requires Agree(s, r)
    ensures Agree(Forgotten(s, t), Forget(r, t))
  {
    RemovedExact(s.tokens, t);
    forall app, x
      ensures (app, x) in Forget(r, t).held <==> app in Forgotten(s, t).tokens && x in Forgotten(s, t).tokens[app]
    {
      assert Holds(Forgotten(s, t).tokens, app, x) <==> Holds(s.tokens, app, x) && x != t;
    }
  }

  lemma SetAgrees(s: State, r: Relation, app: App, t: int, cbType: string, notifier: Remote)
    requires Agree(s, r) && CallbacksOk(s) && notifier != NULL
    ensures Agree(if CallbackCode(s, app, t, cbType, true) == ERR_OK then CallbackSet(s, t, cbType, notifier) else s,
                  After(r, SetCallback(app, t, cbType, notifier)))
  {
    assert t in s.callbacks ==> InfoOk(s.callbacks[t]);
  }

  lemma ClearAgrees(s: State, r: Relation, app: App, t: int, cbType: string)
    requires Agree(s, r) && CallbacksOk(s)
    ensures Agree(if CallbackCode(s, app, t, cbType, false) == ERR_OK then CallbackCleared(s, t, cbType) else s,
                  After(r, ClearCallback(app, t, cbType)))
  {
    if t in s.callbacks {
      assert InfoOk(s.callbacks[t]);
      var info := s.callbacks[t].DeleteNotifier(cbType);
      assert forall ty :: ty in info.notifierMap <==> ty in s.callbacks[t].notifierMap && ty != cbType;
    }
  }

  lemma FirstIsLeast(s: State, r: Relation, notifier: Remote, t: int)
    requires Agree(s, r)
    ensures IsFirst(s.callbacks, notifier, t) <==> IsLeast(r, notifier, t)
  {
    forall x ensures HasNotifier(r, x, notifier) <==> x in s.callbacks && s.callbacks[x].QueryNotifier(notifier) {
      if x in s.callbacks && s.callbacks[x].QueryNotifier(notifier) {
        var cbType :| cbType in s.callbacks[x].notifierMap && s.callbacks[x].notifierMap[cbType] == notifier;
        assert (x, cbType) in r.notifiers;
      }
    }
  }

  lemma DiedAgrees(s: State, r: Relation, notifier: Remote, s': State)
    requires Agree(s, r) && Next(s, NotifierDied(notifier), s')
    ensures Agree(s', After(r, NotifierDied(notifier)))
  {
    forall t ensures IsFirst(s.callbacks, notifier, t) <==> IsLeast(r, notifier, t) { FirstIsLeast(s, r, notifier, t); }
    if t :| IsFirst(s.callbacks, notifier, t) && s' == Forgotten(s, t) {
      ForgetAgrees(s, r, t);
      OneLeast(r, notifier, t);
    }
  }

  lemma OneLeast(r: Relation, notifier: Remote, t: int)
    requires IsLeast(r, notifier, t)
    ensures After(r, NotifierDied(notifier)) == Forget(r, t)
  {
    forall x | IsLeast(r, notifier, x) ensures x == t { TwoLeast(r, notifier, x, t); }
  }

  lemma TwoLeast(r: Relation, notifier: Remote, t: int, u: int)
    requires IsLeast(r, notifier, t) && IsLeast(r, notifier, u)
    ensures t == u
  {
    assert HasNotifier(r, t, notifier) && HasNotifier(r, u, notifier);
  }

  lemma StepAgrees(s: State, r: Relation, start: int, step: Step, s': State)
    requires Ok(s, start) && Agree(s, r) && Next(s, step, s')
    ensures Agree(s', After(r, step))
  {
    hide After, Agree;
    match step
    case Register(app, mode) => RegisterAgrees(s, r, app, mode);
    case Unregister(app, t) => UnregisterAgrees(s, r, app, t);
    case SetCallback(app, t, cbType, notifier) => SetAgrees(s, r, app, t, cbType, notifier);
    case ClearCallback(app, t, cbType) => ClearAgrees(s, r, app, t, cbType);
    case NotifierDied(notifier) => DiedAgrees(s, r, notifier, s');
  }

  lemma UnregisterAgrees(s: State, r: Relation, app: App, t: int)
    requires Agree(s, r)
    ensures Agree(if Holds(s.tokens, app, t) then Forgotten(s, t) else s, After(r, Unregister(app, t)))
  {
    ForgetAgrees(s, r, t);
  }

  ghost function History(start: int, steps: seq<Step>): Relation
  {
    if steps == [] then Relation({}, map[], start) else After(History(start, steps[..|steps| - 1]), steps[|steps| - 1])
  }

  /** In a run of at most MAX_TOKEN_NUM registrations, each app holds exactly the tokens, and each token has for each event
      exactly the notifier, that the history of registrations, unregistrations and deaths leaves. */
  lemma {:induction false} AlwaysAgrees(start: int, states: seq<State>, steps: seq<Step>, i: nat)
    requires IsRun(start, states, steps) && i < |states| && |states[i].issued| <= MAX_TOKEN_NUM
    ensures Agree(states[i], History(start, steps[..i]))
  {
    hide Next, Ok, Agree, After;
    if i == 0 {
      assert Agree(states[0], Relation({}, map[], start)) by { StartAgrees(start); }
    } else {
      IssuedGrows(states[i - 1], steps[i - 1], states[i]);
      AlwaysOk(start, states, steps, i - 1);
      AlwaysAgrees(start, states, steps, i - 1);
      StepAgrees(states[i - 1], History(start, steps[..i - 1]), start, steps[i - 1], states[i]);
      assert steps[..i][..i - 1] == steps[..i - 1];
    }
  }

  lemma StartAgrees(start: int)
    ensures Agree(State(start, map[], map[], []), Relation({}, map[], start))
  {
  }
}
