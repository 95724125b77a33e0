/** The tokens that apps register with the continuation manager, and the device-selection callbacks registered for them. */
module TokenRegistry {
  import opened Common

  const MAX_TOKEN_NUM: int := 100_000_000
  const MAX_REGISTER_NUM: nat := 600
  const EVENT_CONNECT: string := "deviceConnect"
  const EVENT_DISCONNECT: string := "deviceDisconnect"
  const COLLABORATION_SINGLE: int := 0
  const COLLABORATION_MUTIPLE: int := 1

  /** The access token of a calling app. */
  type App = nat

  type TokenMap = map<App, seq<int>>

  datatype NotifierInfo = NotifierInfo(notifierMap: map<string, Remote>) {
    function GetNotifier(cbType: string): Remote
    {
      if cbType in notifierMap then notifierMap[cbType] else NULL
    }

    function SetNotifier(cbType: string, notifier: Remote): NotifierInfo
    {
      NotifierInfo(notifierMap[cbType := notifier])
    }

    function DeleteNotifier(cbType: string): NotifierInfo
    {
      NotifierInfo(notifierMap - {cbType})
    }

    predicate QueryNotifier(notifier: Remote)
    {
      notifier in notifierMap.Values
    }
  }

  type CallbackMap = map<int, NotifierInfo>

  /** `issued` is the history of all tokens handed out. */
  datatype State = State(token: int, tokens: TokenMap, callbacks: CallbackMap, issued: seq<int>)

  /** The notifier of a token for an event, NULL if there is none. */
  function NotifierOf(callbacks: CallbackMap, t: int, cbType: string): Remote
  {
    if t in callbacks && cbType in callbacks[t].notifierMap then callbacks[t].notifierMap[cbType] else NULL
  }

  predicate KnownType(cbType: string)
  {
    cbType == EVENT_CONNECT || cbType == EVENT_DISCONNECT
  }

  // ----- tokens -----

  predicate Holds(tokens: TokenMap, app: App, t: int)
  {
    app in tokens && t in tokens[app]
  }

  ghost predicate Held(tokens: TokenMap, t: int)
  {
    exists app :: Holds(tokens, app, t)
  }

  ghost predicate Distinct(s: seq<int>)
  {
    forall i, j :: 0 <= i < j < |s| ==> s[i] != s[j]
  }

  /** At most one app holds the token. */
  ghost predicate Sole(tokens: TokenMap, t: int)
  {
    forall a, b :: Holds(tokens, a, t) && Holds(tokens, b, t) ==> a == b
  }

  ghost predicate NoneEmpty(tokens: TokenMap)
  {
    forall app <- tokens :: tokens[app] != []
  }

  /** No list is empty or repeats a token, and no two share one. */
  ghost predicate ListsSound(tokens: TokenMap)
  {
    NoneEmpty(tokens) && (forall app <- tokens :: Distinct(tokens[app])) && forall t :: Sole(tokens, t)
  }

  ghost predicate ListsOk(tokens: TokenMap)
  {
    ListsSound(tokens) && forall app <- tokens :: |tokens[app]| <= MAX_REGISTER_NUM
  }

  /** How many tokens the app holds. */
  function Size(tokens: TokenMap, app: App): nat
  {
    if app in tokens then |tokens[app]| else 0
  }

  function Without(s: seq<int>, t: int): (r: seq<int>)
    ensures forall x :: x in r <==> x in s && x != t
    ensures |r| <= |s|
  {
    if s == [] then [] else (if s[0] == t then [] else [s[0]]) + Without(s[1..], t)
  }

  lemma {:induction false} WithoutDistinct(s: seq<int>, t: int)
    requires Distinct(s)
    ensures Distinct(Without(s, t))
  {
    if s != [] {
      WithoutDistinct(s[1..], t);
      assert s[0] !in s[1..];
    }
  }

  lemma {:induction false} WithoutAbsent(s: seq<int>, t: int)
    requires t !in s
    ensures Without(s, t) == s
  {
    if s != [] {
      WithoutAbsent(s[1..], t);
    }
  }

  /** Every list without the token, and without the lists that this empties. */
  function Removed(tokens: TokenMap, t: int): TokenMap
  {
    map app <- tokens | Without(tokens[app], t) != [] :: Without(tokens[app], t)
  }

  lemma RemovedExact(tokens: TokenMap, t: int)
    ensures forall app, x :: Holds(Removed(tokens, t), app, x) <==> Holds(tokens, app, x) && x != t
    ensures ListsSound(tokens) ==> ListsSound(Removed(tokens, t))
    ensures forall app :: Size(Removed(tokens, t), app) <= Size(tokens, app)
    ensures ListsOk(tokens) ==> ListsOk(Removed(tokens, t))
    ensures forall x :: Held(Removed(tokens, t), x) <==> Held(tokens, x) && x != t
  {
    var after := Removed(tokens, t);
    forall app, x ensures Holds(after, app, x) <==> Holds(tokens, app, x) && x != t {
      if Holds(tokens, app, x) && x != t {
        assert x in Without(tokens[app], t);
      }
    }
    if ListsSound(tokens) {
      forall app <- after ensures Distinct(after[app]) { WithoutDistinct(tokens[app], t); }
      forall x ensures Sole(after, x) { assert Sole(tokens, x); }
    }
    forall x ensures Held(after, x) <==> Held(tokens, x) && x != t {
      if Held(tokens, x) && x != t {
        var app :| Holds(tokens, app, x);
        assert Holds(after, app, x);
      }
    }
  }

  function NextToken(token: int): int
  {
    if token + 1 > MAX_TOKEN_NUM then 1 else token + 1
  }

  function WithToken(tokens: TokenMap, app: App, t: int): TokenMap
  {
    tokens[app := (if app in tokens then tokens[app] else []) + [t]]
  }

  /** A fresh token keeps the lists sound. */
  lemma WithTokenSound(tokens: TokenMap, app: App, t: int)
    requires ListsSound(tokens) && !Held(tokens, t)
    ensures ListsSound(WithToken(tokens, app, t))
    ensures forall x :: Held(WithToken(tokens, app, t), x) <==> Held(tokens, x) || x == t
    ensures forall a :: Size(WithToken(tokens, app, t), a) == Size(tokens, a) + if a == app then 1 else 0
  {
    var after := WithToken(tokens, app, t);
    assert !Holds(tokens, app, t);
    forall x ensures Sole(after, x) && (Held(after, x) <==> Held(tokens, x) || x == t) {
      assert Sole(tokens, x);
      HeldAfter(tokens, app, t, x);
    }
  }

  /** There is room for a fresh token exactly while the app holds fewer than 600. */
  lemma RoomExactly(tokens: TokenMap, app: App, t: int)
    requires ListsOk(tokens) && !Held(tokens, t)
    ensures ListsOk(WithToken(tokens, app, t)) <==> Size(tokens, app) < MAX_REGISTER_NUM
    ensures forall x :: Held(WithToken(tokens, app, t), x) <==> Held(tokens, x) || x == t
  {
    WithTokenSound(tokens, app, t);
    assert Size(WithToken(tokens, app, t), app) == Size(tokens, app) + 1;
  }

  lemma HeldAfter(tokens: TokenMap, app: App, t: int, x: int)
    requires Sole(tokens, x) && !Held(tokens, t)
    ensures var after := WithToken(tokens, app, t); Sole(after, x) && (Held(after, x) <==> Held(tokens, x) || x == t)
  {
    var after := WithToken(tokens, app, t);
    assert forall a :: Holds(after, a, x) <==> Holds(tokens, a, x) || (a == app && x == t);
    if Held(tokens, x) {
      var a :| Holds(tokens, a, x);
      assert Holds(after, a, x);
    }
    if x == t {
      assert Holds(after, app, x);
    }
  }

  function Granted(s: State, app: App): State
  {
    var t := NextToken(s.token);
    State(t, WithToken(s.tokens, app, t), s.callbacks, s.issued + [t])
  }

  predicate ModeValid(mode: int)
  {
    COLLABORATION_SINGLE <= mode <= COLLABORATION_MUTIPLE
  }

  function RegisterCode(s: State, app: App, mode: Option<int>): int
  {
    if mode.Some? && !ModeValid(mode.value) then INVALID_CONTINUATION_MODE
    else if app in s.tokens && |s.tokens[app]| >= MAX_REGISTER_NUM then REGISTER_EXCEED_MAX_TIMES
    else ERR_OK
  }

  // ----- callbacks -----

  ghost predicate InfoOk(info: NotifierInfo)
  {
    && info.notifierMap != map[]
    && forall cbType <- info.notifierMap :: KnownType(cbType) && info.notifierMap[cbType] != NULL
  }

  ghost predicate CallbacksOk(s: State)
  {
    forall t <- s.callbacks :: Held(s.tokens, t) && InfoOk(s.callbacks[t])
  }

  function CallbackCode(s: State, app: App, t: int, cbType: string, registering: bool): int
  {
    if !KnownType(cbType) then UNKNOWN_CALLBACK_TYPE
    else if !Holds(s.tokens, app, t) then TOKEN_HAS_NOT_REGISTERED
    else
      var there := t in s.callbacks && s.callbacks[t].GetNotifier(cbType) != NULL;
      if registering && there then CALLBACK_HAS_REGISTERED
      else if !registering && !there then CALLBACK_HAS_NOT_REGISTERED
      else ERR_OK
  }

  function CallbackSet(s: State, t: int, cbType: string, notifier: Remote): State
  {
    var info := if t in s.callbacks then s.callbacks[t] else NotifierInfo(map[]);
    s.(callbacks := s.callbacks[t := info.SetNotifier(cbType, notifier)])
  }

  function CallbackCleared(s: State, t: int, cbType: string): State
    requires t in s.callbacks
  {
    var info := s.callbacks[t].DeleteNotifier(cbType);
    s.(callbacks := if info.notifierMap == map[] then s.callbacks - {t} else s.callbacks[t := info])
  }

  /** A token leaves both maps. */
  function Forgotten(s: State, t: int): State
  {
    s.(tokens := Removed(s.tokens, t), callbacks := s.callbacks - {t})
  }

  ghost predicate IsFirst(callbacks: CallbackMap, notifier: Remote, t: int)
  {
    && t in callbacks && callbacks[t].QueryNotifier(notifier)
    && forall x <- callbacks :: callbacks[x].QueryNotifier(notifier) ==> t <= x
  }

  // ----- runs -----

  datatype Step =
    | Register(app: App, mode: Option<int>)
    | Unregister(app: App, t: int)
    | SetCallback(app: App, t: int, cbType: string, notifier: Remote)
    | ClearCallback(app: App, t: int, cbType: string)
    | NotifierDied(notifier: Remote)

  ghost predicate Next(s: State, step: Step, s': State)
  {
    match step
    case Register(app, mode) => s' == if RegisterCode(s, app, mode) == ERR_OK then Granted(s, app) else s
    case Unregister(app, t) => s' == if Holds(s.tokens, app, t) then Forgotten(s, t) else s
    case SetCallback(app, t, cbType, notifier) =>
      notifier != NULL &&
      s' == if CallbackCode(s, app, t, cbType, true) == ERR_OK then CallbackSet(s, t, cbType, notifier) else s
    case ClearCallback(app, t, cbType) =>
      s' == if CallbackCode(s, app, t, cbType, false) == ERR_OK then CallbackCleared(s, t, cbType) else s
    case NotifierDied(notifier) =>
      if exists t :: IsFirst(s.callbacks, notifier, t) then
        exists t :: IsFirst(s.callbacks, notifier, t) && s' == Forgotten(s, t)
      else s' == s
  }

  ghost predicate IsRun(start: int, states: seq<State>, steps: seq<Step>)
  {
    && 0 <= start <= MAX_TOKEN_NUM
    && |states| == |steps| + 1 && states[0] == State(start, map[], map[], [])
    && forall i :: 0 <= i < |steps| ==> Next(states[i], steps[i], states[i + 1])
  }

  /** The k-th token issued from a start value. */
  function Issue(start: int, k: nat): int
  {
    (start + k) % MAX_TOKEN_NUM + 1
  }

  ghost predicate Ok(s: State, start: int)
  {
    && 0 <= s.token <= MAX_TOKEN_NUM
    && (if s.issued == [] then s.token == start else s.token == s.issued[|s.issued| - 1])
    && (forall k :: 0 <= k < |s.issued| ==> s.issued[k] == Issue(start, k))
    && (forall t :: Held(s.tokens, t) ==> t in s.issued)
    && ListsOk(s.tokens) && CallbacksOk(s)
  }

  lemma IssueNext(start: int, k: nat)
    requires 0 <= start <= MAX_TOKEN_NUM
    ensures 1 <= Issue(start, k) <= MAX_TOKEN_NUM
    ensures NextToken(Issue(start, k)) == Issue(start, k + 1) && NextToken(start) == Issue(start, 0)
  {
  }

  /** Fewer than MAX_TOKEN_NUM registrations apart, two tokens differ; at that distance they are the same. */
  lemma IssueDistinct(start: int, k: nat, l: nat)
    requires 0 <= start && k < l
    ensures l - k < MAX_TOKEN_NUM ==> Issue(start, k) != Issue(start, l)
    ensures l - k == MAX_TOKEN_NUM ==> Issue(start, k) == Issue(start, l)
  {
    var a, b := start + k, start + l;
    assert b - a == MAX_TOKEN_NUM * (b / MAX_TOKEN_NUM - a / MAX_TOKEN_NUM) + (b % MAX_TOKEN_NUM - a % MAX_TOKEN_NUM);
  }

  lemma RegisterKeeps(s: State, start: int, app: App)
    requires 0 <= start <= MAX_TOKEN_NUM && Ok(s, start) && |s.issued| < MAX_TOKEN_NUM
    requires app in s.tokens ==> |s.tokens[app]| < MAX_REGISTER_NUM
    ensures Ok(Granted(s, app), start)
  {
    var s', t, n := Granted(s, app), NextToken(s.token), |s.issued|;
    IssueNext(start, n);
    if n > 0 {
      IssueNext(start, n - 1);
    }
    assert t == Issue(start, n);
    forall k | 0 <= k < n ensures s.issued[k] != t { IssueDistinct(start, k, n); }
    assert !Held(s.tokens, t);
    RoomExactly(s.tokens, app, t);
  }

  lemma ForgottenKeeps(s: State, start: int, t: int)
    requires Ok(s, start)
    ensures Ok(Forgotten(s, t), start)
  {
    RemovedExact(s.tokens, t);
  }

  /** A forgotten token is in neither map, and everything else in both is as before. */
  lemma ForgottenExact(s: State, t: int)
    ensures var s' := Forgotten(s, t);
            && !Held(s'.tokens, t) && t !in s'.callbacks
            && (forall app, x :: x != t ==> (Holds(s'.tokens, app, x) <==> Holds(s.tokens, app, x)))
            && (forall x :: x != t ==> (x in s'.callbacks <==> x in s.callbacks))
            && (forall x <- s'.callbacks :: s'.callbacks[x] == s.callbacks[x])
  {
    RemovedExact(s.tokens, t);
  }

  lemma StepKeeps(s: State, start: int, step: Step, s': State)
    requires 0 <= start <= MAX_TOKEN_NUM && Ok(s, start) && Next(s, step, s') && |s'.issued| <= MAX_TOKEN_NUM
    ensures Ok(s', start)
  {
    match step
    case Register(app, mode) =>
      if s' != s {
        RegisterKeeps(s, start, app);
      }
    case Unregister(app, t) =>
      ForgottenKeeps(s, start, t);
    case SetCallback(app, t, cbType, notifier) =>
      if s' != s {
        assert Holds(s.tokens, app, t);
        assert cbType in s'.callbacks[t].notifierMap;
      }
    case ClearCallback(app, t, cbType) =>
    case NotifierDied(notifier) =>
      if t :| IsFirst(s.callbacks, notifier, t) && s' == Forgotten(s, t) {
        ForgottenKeeps(s, start, t);
      }
  }

  lemma IssuedGrows(s: State, step: Step, s': State)
    requires Next(s, step, s')
    ensures |s.issued| <= |s'.issued|
  {
  }

  lemma {:induction false} AlwaysOk(start: int, states: seq<State>, steps: seq<Step>, i: nat)
    requires IsRun(start, states, steps) && i < |states| && |states[i].issued| <= MAX_TOKEN_NUM
    ensures Ok(states[i], start)
  {
    hide Next, Ok;
    if i > 0 {
      IssuedGrows(states[i - 1], steps[i - 1], states[i]);
      AlwaysOk(start, states, steps, i - 1);
      StepKeeps(states[i - 1], start, steps[i - 1], states[i]);
    } else {
      StartOk(start);
    }
  }

  lemma StartOk(start: int)
    requires 0 <= start <= MAX_TOKEN_NUM
    ensures Ok(State(start, map[], map[], []), start)
  {
  }

  /** In a run of at most MAX_TOKEN_NUM registrations, all tokens issued are in range and differ from each other. */
  lemma TokensDistinct(start: int, states: seq<State>, steps: seq<Step>, i: nat)
    requires IsRun(start, states, steps) && i < |states| && |states[i].issued| <= MAX_TOKEN_NUM
    ensures Distinct(states[i].issued) && forall t <- states[i].issued :: 1 <= t <= MAX_TOKEN_NUM
  {
    hide Next;
    AlwaysOk(start, states, steps, i);
    var issued := states[i].issued;
    forall k, l | 0 <= k < l < |issued| ensures issued[k] != issued[l] { IssueDistinct(start, k, l); }
    forall k | 0 <= k < |issued| ensures 1 <= issued[k] <= MAX_TOKEN_NUM { IssueNext(start, k); }
  }

  class DistributedAbilityManagerService {
    var token: int
    var tokenMap: TokenMap
    var callbackMap: CallbackMap
    ghost var issued: seq<int>

    ghost function Model(): State
      reads this
    {
      State(token, tokenMap, callbackMap, issued)
    }

    /** `saved` is the last token, as the system parameters keep it. */
    constructor (saved: int)
      ensures Model() == State(saved, map[], map[], [])
    {
      token, tokenMap, callbackMap, issued := saved, map[], map[], [];
    }

    method IsExceededRegisterMaxNum(app: App) returns (exceeded: bool)
      ensures exceeded <==> RegisterCode(Model(), app, None) == REGISTER_EXCEED_MAX_TIMES
      ensures ListsOk(tokenMap) ==>
                forall t :: !Held(tokenMap, t) ==> (ListsOk(WithToken(tokenMap, app, t)) <==> !exceeded)
    {
      exceeded := app in tokenMap && |tokenMap[app]| >= MAX_REGISTER_NUM;
      forall t | ListsOk(tokenMap) && !Held(tokenMap, t)
        ensures ListsOk(WithToken(tokenMap, app, t)) <==> !exceeded
      {
        RoomExactly(tokenMap, app, t);
      }
    }

    method IsTokenRegistered(app: App, t: int) returns (registered: bool)
      ensures registered <==> Holds(tokenMap, app, t)
    {
      if app !in tokenMap {
        return false;
      }
      for i := 0 to |tokenMap[app]|
        invariant t !in tokenMap[app][..i]
      {
        if tokenMap[app][i] == t {
          return true;
        }
      }
      assert tokenMap[app][..|tokenMap[app]|] == tokenMap[app];
      return false;
    }

    method Register(app: App, mode: Option<int>) returns (result: int, tToken: int)
      modifies this
      ensures result == RegisterCode(old(Model()), app, mode)
      ensures result == if mode.Some? && (mode.value < 0 || mode.value > 1) then INVALID_CONTINUATION_MODE
                        else if app in old(tokenMap) && |old(tokenMap)[app]| >= 600 then REGISTER_EXCEED_MAX_TIMES
                        else ERR_OK
      ensures Next(old(Model()), Step.Register(app, mode), Model())
      ensures result == ERR_OK ==> tToken == token && Holds(tokenMap, app, tToken)
    {
      tToken := -1;
      if mode.Some? {
        if !ModeValid(mode.value) {
          return INVALID_CONTINUATION_MODE, tToken;
        }
      }
      var exceeded := IsExceededRegisterMaxNum(app);
      if exceeded {
        return REGISTER_EXCEED_MAX_TIMES, tToken;
      }
      tToken := token + 1;
      if tToken > MAX_TOKEN_NUM {
        tToken := 1;
      }
      token := tToken;
      issued := issued + [tToken];
      tokenMap := tokenMap[app := (if app in tokenMap then tokenMap[app] else []) + [tToken]];
      return ERR_OK, tToken;
    }

    /** The removal loop, which ends early at the first list that it empties: it takes the token from every list if no
        two apps hold it. */
    method RemoveToken(t: int)
      requires NoneEmpty(tokenMap)
      modifies this`tokenMap
      ensures Sole(old(tokenMap), t) ==> tokenMap == Removed(old(tokenMap), t)
      ensures exists todo :: EndsAt(old(tokenMap), t, todo) && tokenMap == RemovedBut(old(tokenMap), t, todo)
    {
      hide Removed, RemovedBut, Sole;
      ghost var before := tokenMap;
      RemovedEnds(before, t);
      var todo := tokenMap.Keys;
      while todo != {}
        invariant todo <= before.Keys
        invariant tokenMap == RemovedBut(before, t, todo)
        decreases |todo|
      {
        var app := Pick(todo);
        RemovedStep(before, t, todo, app);
        todo := todo - {app};
        var rest := Without(tokenMap[app], t);
        if rest == [] {
          tokenMap := tokenMap - {app};
          if Sole(before, t) {
            RemovedEarly(before, t, todo, app);
          }
          assert EndsAt(before, t, todo);
          return;
        } else {
          tokenMap := tokenMap[app := rest];
        }
      }
      assert EndsAt(before, t, {});
    }

    method Unregister(app: App, t: int) returns (result: int)
      requires ListsOk(tokenMap)
      modifies this`tokenMap, this`callbackMap
      ensures result == if Holds(old(tokenMap), app, t) then ERR_OK else TOKEN_HAS_NOT_REGISTERED
      ensures Next(old(Model()), Step.Unregister(app, t), Model())
    {
      var registered := IsTokenRegistered(app, t);
      if !registered {
        return TOKEN_HAS_NOT_REGISTERED;
      }
      if t in callbackMap {
        callbackMap := callbackMap - {t};
      }
      RemoveToken(t);
      return ERR_OK;
    }

    method RegisterDeviceSelectionCallback(app: App, t: int, cbType: string, notifier: Remote) returns (result: int)
      requires notifier != NULL
      modifies this`callbackMap
      ensures result == CallbackCode(old(Model()), app, t, cbType, true)
      ensures result == if cbType != "deviceConnect" && cbType != "deviceDisconnect" then UNKNOWN_CALLBACK_TYPE
                        else if !(app in tokenMap && t in tokenMap[app]) then TOKEN_HAS_NOT_REGISTERED
                        else if NotifierOf(old(callbackMap), t, cbType) != NULL then CALLBACK_HAS_REGISTERED
                        else ERR_OK
      ensures Next(old(Model()), SetCallback(app, t, cbType, notifier), Model())
      ensures forall x, ty :: NotifierOf(callbackMap, x, ty) ==
                if result == ERR_OK && x == t && ty == cbType then notifier else NotifierOf(old(callbackMap), x, ty)
    {
      if cbType != EVENT_CONNECT && cbType != EVENT_DISCONNECT {
        return UNKNOWN_CALLBACK_TYPE;
      }
      var registered := IsTokenRegistered(app, t);
      if !registered {
        return TOKEN_HAS_NOT_REGISTERED;
      }
      if t in callbackMap && callbackMap[t].GetNotifier(cbType) != NULL {
        return CALLBACK_HAS_REGISTERED;
      }
      if t in callbackMap {
        callbackMap := callbackMap[t := callbackMap[t].SetNotifier(cbType, notifier)];
      } else {
        callbackMap := callbackMap[t := NotifierInfo(map[]).SetNotifier(cbType, notifier)];
      }
      return ERR_OK;
    }

    method UnregisterDeviceSelectionCallback(app: App, t: int, cbType: string) returns (result: int)
      modifies this`callbackMap
      ensures result == CallbackCode(old(Model()), app, t, cbType, false)
      ensures result == if cbType != "deviceConnect" && cbType != "deviceDisconnect" then UNKNOWN_CALLBACK_TYPE
                        else if !(app in tokenMap && t in tokenMap[app]) then TOKEN_HAS_NOT_REGISTERED
                        else if NotifierOf(old(callbackMap), t, cbType) == NULL
                        then CALLBACK_HAS_NOT_REGISTERED
                        else ERR_OK
      ensures Next(old(Model()), ClearCallback(app, t, cbType), Model())
      ensures forall x, ty :: NotifierOf(callbackMap, x, ty) ==
                if result == ERR_OK && x == t && ty == cbType then NULL else NotifierOf(old(callbackMap), x, ty)
    {
      if cbType != EVENT_CONNECT && cbType != EVENT_DISCONNECT {
        return UNKNOWN_CALLBACK_TYPE;
      }
      var registered := IsTokenRegistered(app, t);
      if !registered {
        return TOKEN_HAS_NOT_REGISTERED;
      }
      if !(t in callbackMap && callbackMap[t].GetNotifier(cbType) != NULL) {
        return CALLBACK_HAS_NOT_REGISTERED;
      }
      var info := callbackMap[t].DeleteNotifier(cbType);
      assert forall ty :: ty in info.notifierMap <==> ty in callbackMap[t].notifierMap && ty != cbType;
      callbackMap := callbackMap[t := info];
      if info.notifierMap == map[] {
        callbackMap := callbackMap - {t};
      }
      return ERR_OK;
    }

    /** The first token, in ascending order, with the notifier among its own. */
    method QueryTokenByNotifier(notifier: Remote) returns (t: Option<int>)
      ensures t.Some? ==> IsFirst(callbackMap, notifier, t.value)
      ensures t.None? ==> forall x :: !IsFirst(callbackMap, notifier, x)
    {
      var todo := callbackMap.Keys;
      while todo != {}
        invariant todo <= callbackMap.Keys
        invariant forall x, y :: x in callbackMap && x !in todo && y in todo ==> x < y
        invariant forall x <- callbackMap :: x !in todo ==> !callbackMap[x].QueryNotifier(notifier)
        decreases |todo|
      {
        var x := PickLeast(todo);
        todo := todo - {x};
        if callbackMap[x].QueryNotifier(notifier) {
          return Some(x);
        }
      }
      return None;
    }

    /** The task that HandleNotifierDied posts. */
    method HandleNotifierDied(notifier: Remote)
      requires ListsOk(tokenMap)
      modifies this`tokenMap, this`callbackMap
      ensures Next(old(Model()), NotifierDied(notifier), Model())
    {
      var t := QueryTokenByNotifier(notifier);
      if t.None? {
        return;
      }
      if t.value in callbackMap {
        callbackMap := callbackMap - {t.value};
      }
      RemoveToken(t.value);
      assert IsFirst(old(callbackMap), notifier, t.value) && Model() == Forgotten(old(Model()), t.value);
    }
  }

  method PickLeast(s: set<int>) returns (least: int)
    requires s != {}
    ensures least in s && forall x <- s :: least <= x
  {
    least := Pick(s);
    var todo := s - {least};
    while todo != {}
      invariant todo <= s && least in s
      invariant forall x <- s :: x in todo || least <= x
      decreases |todo|
    {
      var x := Pick(todo);
      todo := todo - {x};
      least := if x < least then x else least;
    }
  }

  /** The token map when the apps in todo have still to be visited. */
  ghost function RemovedBut(tokens: TokenMap, t: int, todo: set<App>): TokenMap
  {
    map app <- tokens | app in todo || Without(tokens[app], t) != [] ::
      if app in todo then tokens[app] else Without(tokens[app], t)
  }

  /** The loop may end with these apps unvisited: none, or any once a visited list held nothing but the token. */
  ghost predicate EndsAt(tokens: TokenMap, t: int, todo: set<App>)
  {
    todo <= tokens.Keys && (todo == {} || exists app :: app in tokens.Keys - todo && Without(tokens[app], t) == [])
  }

  /** What the early end would cost if two apps held one token: the second could keep it. */
  lemma SharedTokenSurvives(a: App, b: App, t: int)
    requires a != b
    ensures var tokens := map[a := [t], b := [t]];
            && NoneEmpty(tokens) && !Sole(tokens, t)
            && EndsAt(tokens, t, {b}) && Holds(RemovedBut(tokens, t, {b}), b, t)
  {
    var tokens := map[a := [t], b := [t]];
    assert Holds(tokens, a, t) && Holds(tokens, b, t);
    assert a in tokens.Keys - {b} && Without(tokens[a], t) == [];
  }

  /** The early end does no harm, whatever the order of the visits, exactly if no app holds nothing but the token while
      another one holds it too. */
  lemma EarlyEndExact(tokens: TokenMap, t: int)
    requires NoneEmpty(tokens)
    ensures (forall todo :: EndsAt(tokens, t, todo) ==> RemovedBut(tokens, t, todo) == Removed(tokens, t)) <==>
            !exists a, b :: a != b && a in tokens && Without(tokens[a], t) == [] && Holds(tokens, b, t)
  {
    if a, b :| a != b && a in tokens && Without(tokens[a], t) == [] && Holds(tokens, b, t) {
      assert a in tokens.Keys - {b};
      assert EndsAt(tokens, t, {b});
      assert t in RemovedBut(tokens, t, {b})[b];
    } else {
      forall todo | EndsAt(tokens, t, todo) ensures RemovedBut(tokens, t, todo) == Removed(tokens, t) {
        forall b | b in todo ensures Without(tokens[b], t) == tokens[b] {
          var a :| a in tokens.Keys - todo && Without(tokens[a], t) == [];
          assert !Holds(tokens, b, t);
          WithoutAbsent(tokens[b], t);
        }
      }
    }
  }

  lemma RemovedEnds(tokens: TokenMap, t: int)
    ensures RemovedBut(tokens, t, tokens.Keys) == tokens && RemovedBut(tokens, t, {}) == Removed(tokens, t)
  {
  }

  lemma RemovedStep(tokens: TokenMap, t: int, todo: set<App>, app: App)
    requires todo <= tokens.Keys && app in todo
    ensures var now, rest := RemovedBut(tokens, t, todo), Without(tokens[app], t);
            && app in now && now[app] == tokens[app]
            && RemovedBut(tokens, t, todo - {app}) == if rest == [] then now - {app} else now[app := rest]
  {
  }

  lemma RemovedEarly(tokens: TokenMap, t: int, todo: set<App>, app: App)
    requires Sole(tokens, t) && NoneEmpty(tokens) && app in tokens && app !in todo && Without(tokens[app], t) == []
    ensures RemovedBut(tokens, t, todo) == Removed(tokens, t)
  {
    assert Holds(tokens, app, t) by { assert tokens[app][0] !in Without(tokens[app], t); }
    forall other | other in tokens && other in todo ensures Without(tokens[other], t) == tokens[other] {
      assert !Holds(tokens, other, t);
      WithoutAbsent(tokens[other], t);
    }
  }
}
