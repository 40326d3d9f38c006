/**
  The cancellation tokens.  The locked section of every call is one step; callbacks are
  invoked outside the lock, one step each, by whichever call took them, in any order.  A link
  from a parent to a child is a callback whose invocation runs the child's locked section.
 */
module Cancellation {
  import opened Wrappers

  type TokenId = nat
  type Handle = nat
  /** Names one call of `register_callback`. */
  type Registration = nat

  datatype Kind = UserRequested | Timeout | Failure | ParentCancelled

  datatype Reason = Reason(kind: Kind, message: string)

  datatype Token = Token(cancelled: bool, reason: Option<Reason>,
                         callbacks: map<Handle, Registration>, nextHandle: Handle)

  datatype Callback = User | Link(child: TokenId)

  /** What was registered, where, and the handle the caller was given (0: it ran at once). */
  datatype Entry = Entry(callback: Callback, owner: TokenId, handle: Handle)

  datatype Call = Call(who: Registration, reason: Reason)

  /** `pending` are the callbacks that some call has taken and not yet invoked. */
  datatype State = State(tokens: map<TokenId, Token>, live: set<TokenId>, entries: map<Registration, Entry>,
                         pending: map<Registration, Reason>, log: seq<Call>, removed: set<Registration>)

  datatype Action =
    | Create(t: TokenId)
    | Register(r: Registration, t: TokenId, callback: Callback)
    | Unregister(t: TokenId, h: Handle)
    | Cancel(t: TokenId, why: Reason)        // cancel() or the expired timer
    | Invoke(r: Registration)
    | Release(t: TokenId)                    // the last owner lets go of the token

  const NewToken: Token := Token(false, None, map[], 1)

  const Initial: State := State(map[], {}, map[], map[], [], {})

  predicate Enabled(s: State, a: Action) {
    match a
    case Create(t) => t !in s.tokens
    case Register(r, t, cb) => r !in s.entries && t in s.live && t in s.tokens && (cb.Link? ==> cb.child in s.tokens)
    case Unregister(t, h) => t in s.live && t in s.tokens
    case Cancel(t, why) => t in s.live && t in s.tokens && why.kind != ParentCancelled
    case Invoke(r) => r in s.pending && r in s.entries
    case Release(t) => t in s.live
  }

  /** The token after a cancellation: the first one writes the reason and empties the map. */
  function CancelledToken(k: Token, why: Reason): Token {
    if k.cancelled then k else k.(cancelled := true, reason := Some(why), callbacks := map[])
  }

  function RegisteredToken(k: Token, r: Registration): Token {
    if k.cancelled then k
    else k.(callbacks := k.callbacks[k.nextHandle := r], nextHandle := k.nextHandle + 1)
  }

  function UnregisteredToken(k: Token, h: Handle): Token {
    if h == 0 then k else k.(callbacks := k.callbacks - {h})
  }

  /** The locked section of every way to cancel. */
  function CancelToken(s: State, t: TokenId, why: Reason): State
    requires t in s.tokens
  {
    var k := s.tokens[t];
    if k.cancelled then s
    else
      s.(tokens := s.tokens[t := CancelledToken(k, why)],
         pending := map r | r in s.pending.Keys + k.callbacks.Values ::
                      if r in s.pending then s.pending[r] else why)
  }

  function RegisterStep(s: State, r: Registration, t: TokenId, cb: Callback): State
    requires t in s.tokens
  {
    var k := s.tokens[t];
    if k.cancelled then
      s.(entries := s.entries[r := Entry(cb, t, 0)],
         pending := s.pending[r := if k.reason.Some? then k.reason.value
                                   else Reason(UserRequested, "Operation cancelled")])
    else
      s.(entries := s.entries[r := Entry(cb, t, k.nextHandle)],
         tokens := s.tokens[t := RegisteredToken(k, r)])
  }

  function UnregisterStep(s: State, t: TokenId, h: Handle): State
    requires t in s.tokens
  {
    var k := s.tokens[t];
    if h == 0 || h !in k.callbacks then s
    else
      s.(tokens := s.tokens[t := UnregisteredToken(k, h)],
         removed := s.removed + {k.callbacks[h]})
  }

  const PARENT_REASON: Reason := Reason(ParentCancelled, "Parent token was cancelled")

  /** The call itself, before the link's section. */
  function Called(s: State, r: Registration): State
    requires r in s.pending
  {
    s.(pending := s.pending - {r}, log := s.log + [Call(r, s.pending[r])])
  }

  function InvokeStep(s: State, r: Registration): State
    requires r in s.pending && r in s.entries
  {
    var s' := Called(s, r);
    var cb := s.entries[r].callback;
    if cb.Link? && cb.child in s.live && cb.child in s.tokens then CancelToken(s', cb.child, PARENT_REASON) else s'
  }

  function After(s: State, a: Action): State
    requires Enabled(s, a)
  {
    match a
    case Create(t) => s.(tokens := s.tokens[t := NewToken], live := s.live + {t})
    case Register(r, t, cb) => RegisterStep(s, r, t, cb)
    case Unregister(t, h) => UnregisterStep(s, t, h)
    case Cancel(t, why) => CancelToken(s, t, why)
    case Invoke(r) => InvokeStep(s, r)
    case Release(t) => s.(live := s.live - {t})
  }

  ghost predicate IsRun(states: seq<State>, actions: seq<Action>) {
    && |states| == |actions| + 1 && states[0] == Initial
    && forall i :: 0 <= i < |actions| ==>
         Enabled(states[i], actions[i]) && states[i + 1] == After(states[i], actions[i])
  }

  // ---------------------------------------------------------------- the invariant

  predicate Registered(s: State, r: Registration) {
    r in s.entries && s.entries[r].owner in s.tokens
    && s.entries[r].handle in s.tokens[s.entries[r].owner].callbacks
    && s.tokens[s.entries[r].owner].callbacks[s.entries[r].handle] == r
  }

  predicate Invoked(s: State, r: Registration) {
    exists i :: 0 <= i < |s.log| && s.log[i].who == r
  }

  predicate IsCancelled(s: State, t: TokenId) {
    t in s.tokens && s.tokens[t].cancelled
  }

  /** The reason is there exactly when the flag is, and then no callback is left behind. */
  predicate TokenOk(k: Token) {
    && (k.cancelled <==> k.reason.Some?)
    && (k.cancelled ==> k.callbacks == map[])
    && k.nextHandle > 0
    && forall h :: h in k.callbacks ==> 0 < h < k.nextHandle
  }

  ghost predicate TokensOk(s: State) {
    && s.live <= s.tokens.Keys
    && (forall t :: t in s.tokens ==> TokenOk(s.tokens[t]))
    && forall r :: r in s.entries ==>
         s.entries[r].owner in s.tokens && (s.entries[r].callback.Link? ==> s.entries[r].callback.child in s.tokens)
  }

  /** A callback map holds nothing but what was registered there under that handle. */
  ghost predicate HandlesOk(s: State) {
    forall t, h :: t in s.tokens && h in s.tokens[t].callbacks ==>
      var r := s.tokens[t].callbacks[h];
      r in s.entries && s.entries[r].owner == t && s.entries[r].handle == h
  }

  /** One of: registered, taken, invoked, removed. */
  predicate OnePlace(s: State, r: Registration) {
    && (Registered(s, r) || r in s.pending || Invoked(s, r) || r in s.removed)
    && !(Registered(s, r) && r in s.pending) && !(Registered(s, r) && Invoked(s, r))
    && !(Registered(s, r) && r in s.removed) && !(r in s.pending && Invoked(s, r))
    && !(r in s.pending && r in s.removed) && !(Invoked(s, r) && r in s.removed)
  }

  ghost predicate PlacesOk(s: State) {
    && (forall r :: r in s.entries ==> OnePlace(s, r))
    && s.pending.Keys <= s.entries.Keys && s.removed <= s.entries.Keys
    && (forall i :: 0 <= i < |s.log| ==> s.log[i].who in s.entries)
    && forall i, j :: 0 <= i < j < |s.log| ==> s.log[i].who != s.log[j].who
  }

  /** `why` is the reason of the token that `r` was registered with. */
  predicate ReasonOf(s: State, r: Registration, why: Reason) {
    r in s.entries && IsCancelled(s, s.entries[r].owner) && s.tokens[s.entries[r].owner].reason == Some(why)
  }

  ghost predicate ReasonsOk(s: State) {
    && (forall r :: r in s.pending ==> ReasonOf(s, r, s.pending[r]))
    && forall i :: 0 <= i < |s.log| ==> ReasonOf(s, s.log[i].who, s.log[i].reason)
  }

  /** An invoked link has cancelled its child, unless the child was gone. */
  ghost predicate LinksOk(s: State) {
    forall i :: 0 <= i < |s.log| && s.log[i].who in s.entries ==>
      var cb := s.entries[s.log[i].who].callback;
      cb.Link? ==> cb.child !in s.live || IsCancelled(s, cb.child)
  }

  /** The parent's cancellation reached the child through an invoked link. */
  predicate Reached(s: State, parent: TokenId, child: TokenId) {
    exists r :: r in s.entries && s.entries[r].owner == parent && s.entries[r].callback == Link(child) && Invoked(s, r)
  }

  ghost predicate Hop(s: State, p: seq<TokenId>, i: nat)
    requires 0 < i < |p|
  {
    IsCancelled(s, p[i - 1]) && Reached(s, p[i - 1], p[i])
  }

  /** A chain of invoked links from a token that was not cancelled by a parent. */
  ghost predicate Cause(s: State, p: seq<TokenId>, t: TokenId) {
    && |p| > 0 && p[|p| - 1] == t && IsCancelled(s, p[0])
    && s.tokens[p[0]].reason.Some? && s.tokens[p[0]].reason.value.kind != ParentCancelled
    && forall i: nat {:trigger Hop(s, p, i)} :: 0 < i < |p| ==> Hop(s, p, i)
  }

  ghost predicate Rooted(s: State, t: TokenId) {
    exists p :: Cause(s, p, t)
  }

  ghost predicate CausesOk(s: State) {
    forall t :: IsCancelled(s, t) ==> Rooted(s, t)
  }

  ghost predicate Inv(s: State) {
    TokensOk(s) && HandlesOk(s) && PlacesOk(s) && ReasonsOk(s) && LinksOk(s) && CausesOk(s)
  }

  // ---------------------------------------------------------------- what every step keeps

  /** A set flag and its reason stay, entries and calls are never withdrawn, no token comes back. */
  ghost predicate Grows(s: State, s': State) {
    && (forall t :: IsCancelled(s, t) ==> IsCancelled(s', t) && s'.tokens[t].reason == s.tokens[t].reason)
    && (forall r :: r in s.entries ==> r in s'.entries && s'.entries[r] == s.entries[r])
    && s.log <= s'.log
    && (forall t :: t in s'.live && t in s.tokens ==> t in s.live)
    && s.tokens.Keys <= s'.tokens.Keys
  }

  lemma CancelGrows(s: State, t: TokenId, why: Reason)
    requires t in s.tokens
    ensures Grows(s, CancelToken(s, t, why))
  {
  }

  lemma StepGrows(s: State, a: Action)
    requires TokensOk(s) && Enabled(s, a)
    ensures Grows(s, After(s, a))
  {
    match a
    case Invoke(r) =>
      var s' := Called(s, r);
      var cb := s.entries[r].callback;
      if cb.Link? && cb.child in s.live && cb.child in s.tokens {
        CancelGrows(s', cb.child, PARENT_REASON);
      }
    case _ =>
  }

  lemma StepTokens(s: State, a: Action)
    requires TokensOk(s) && Enabled(s, a)
    ensures TokensOk(After(s, a))
  {
  }

  lemma StepHandles(s: State, a: Action)
    requires TokensOk(s) && HandlesOk(s) && Enabled(s, a)
    ensures HandlesOk(After(s, a))
  {
  }

  lemma InvokedGrows(s: State, s': State, r: Registration)
    requires s.log <= s'.log && Invoked(s, r)
    ensures Invoked(s', r)
  {
    var i :| 0 <= i < |s.log| && s.log[i].who == r;
    assert s'.log[i].who == r;
  }

  lemma CancelPlaces(s: State, t: TokenId, why: Reason)
    requires t in s.tokens && TokensOk(s) && HandlesOk(s) && PlacesOk(s)
    ensures PlacesOk(CancelToken(s, t, why))
  {
    hide TokenOk;
    var s' := CancelToken(s, t, why);
    var k := s.tokens[t];
    if !k.cancelled {
      forall r | r in s.entries
        ensures OnePlace(s', r)
      {
        assert OnePlace(s, r) && (Invoked(s', r) <==> Invoked(s, r));
        if s.entries[r].owner == t {
          assert !Registered(s', r) && (Registered(s, r) ==> r in k.callbacks.Values);
          assert r in k.callbacks.Values ==> Registered(s, r);
        } else {
          assert Registered(s', r) <==> Registered(s, r);
          assert r !in k.callbacks.Values;
        }
      }
    }
  }

  lemma RegisterPlaces(s: State, r: Registration, t: TokenId, cb: Callback)
    requires Enabled(s, Register(r, t, cb)) && TokensOk(s) && HandlesOk(s) && PlacesOk(s)
    ensures PlacesOk(RegisterStep(s, r, t, cb))
  {
    hide TokensOk, HandlesOk, OnePlace;
    var s' := RegisterStep(s, r, t, cb);
    forall q | q in s'.entries
      ensures OnePlace(s', q)
    {
      if q == r {
        RegisterOwnPlace(s, r, t, cb);
      } else {
        assert OnePlace(s, q);
        RegisterOtherPlace(s, r, t, cb, q);
      }
    }
  }

  lemma RegisterOwnPlace(s: State, r: Registration, t: TokenId, cb: Callback)
    requires Enabled(s, Register(r, t, cb)) && PlacesOk(s) && TokensOk(s)
    ensures OnePlace(RegisterStep(s, r, t, cb), r)
  {
    hide OnePlace;
    var s' := RegisterStep(s, r, t, cb);
    assert !Invoked(s, r) && (Invoked(s', r) <==> Invoked(s, r));
    assert TokenOk(s.tokens[t]);
    assert r in s'.pending || Registered(s', r);
    assert OnePlace(s', r) by { OneOf(s', r); }
  }

  lemma OneOf(s: State, r: Registration)
    requires !Invoked(s, r) && r !in s.removed && (r in s.pending <==> !Registered(s, r))
    ensures OnePlace(s, r)
  {
  }

  lemma RegisterOtherPlace(s: State, r: Registration, t: TokenId, cb: Callback, q: Registration)
    requires Enabled(s, Register(r, t, cb)) && TokensOk(s) && HandlesOk(s) && q in s.entries && OnePlace(s, q)
    ensures OnePlace(RegisterStep(s, r, t, cb), q)
  {
    var s' := RegisterStep(s, r, t, cb);
    assert Invoked(s', q) <==> Invoked(s, q);
    assert TokenOk(s.tokens[t]);
    assert Registered(s', q) <==> Registered(s, q);
  }

  lemma UnregisterPlaces(s: State, t: TokenId, h: Handle)
    requires t in s.tokens && TokensOk(s) && HandlesOk(s) && PlacesOk(s)
    ensures PlacesOk(UnregisterStep(s, t, h))
  {
    hide TokenOk;
    var s' := UnregisterStep(s, t, h);
    forall q | q in s.entries
      ensures OnePlace(s', q)
    {
      assert OnePlace(s, q) && (Invoked(s', q) <==> Invoked(s, q));
    }
  }

  lemma CalledPlaces(s: State, r: Registration)
    requires r in s.pending && r in s.entries && PlacesOk(s)
    ensures PlacesOk(Called(s, r))
  {
    var s' := Called(s, r);
    assert OnePlace(s, r);
    forall q | q in s.entries
      ensures OnePlace(s', q)
    {
      assert OnePlace(s, q);
      assert Registered(s', q) <==> Registered(s, q);
      if q == r {
        assert s'.log[|s.log|].who == r;
      } else if Invoked(s, q) {
        InvokedGrows(s, s', q);
      }
    }
    forall i, j | 0 <= i < j < |s'.log|
      ensures s'.log[i].who != s'.log[j].who
    {
      assert s'.log[i] == s.log[i];
    }
  }

  /** The state between an invocation and the link's section. */
  lemma CalledBase(s: State, r: Registration)
    requires r in s.pending && TokensOk(s) && HandlesOk(s)
    ensures TokensOk(Called(s, r)) && HandlesOk(Called(s, r))
  {
  }

  lemma StepPlaces(s: State, a: Action)
    requires TokensOk(s) && HandlesOk(s) && PlacesOk(s) && Enabled(s, a)
    ensures PlacesOk(After(s, a))
  {
    hide TokensOk, HandlesOk, PlacesOk, CancelToken, RegisterStep, UnregisterStep, Called;
    match a
    case Create(t) => CreatePlaces(s, t);
    case Register(r, t, cb) => RegisterPlaces(s, r, t, cb);
    case Unregister(t, h) => UnregisterPlaces(s, t, h);
    case Cancel(t, why) => CancelPlaces(s, t, why);
    case Release(t) => ReleasePlaces(s, t);
    case Invoke(r) =>
      CalledPlaces(s, r);
      CalledBase(s, r);
      var cb := s.entries[r].callback;
      if cb.Link? && cb.child in s.live && cb.child in s.tokens {
        CalledTokens(s, r);
        CancelPlaces(Called(s, r), cb.child, PARENT_REASON);
      }
  }

  lemma CalledTokens(s: State, r: Registration)
    requires r in s.pending
    ensures Called(s, r).tokens == s.tokens
  {
  }

  lemma CreatePlaces(s: State, t: TokenId)
    requires t !in s.tokens && TokensOk(s) && PlacesOk(s)
    ensures PlacesOk(After(s, Create(t)))
  {
    var s' := After(s, Create(t));
    forall q | q in s'.entries
      ensures OnePlace(s', q)
    {
      assert OnePlace(s, q) && (Invoked(s', q) <==> Invoked(s, q));
      assert s.entries[q].owner in s.tokens;
    }
  }

  lemma ReleasePlaces(s: State, t: TokenId)
    requires t in s.live && PlacesOk(s)
    ensures PlacesOk(After(s, Release(t)))
  {
    var s' := After(s, Release(t));
    forall q | q in s'.entries
      ensures OnePlace(s', q)
    {
      assert OnePlace(s, q) && (Invoked(s', q) <==> Invoked(s, q));
    }
  }

  // ---------------------------------------------------------------- reasons

  lemma ReasonStays(s: State, s': State, r: Registration, why: Reason)
    requires Grows(s, s') && ReasonOf(s, r, why)
    ensures ReasonOf(s', r, why)
  {
    assert IsCancelled(s, s.entries[r].owner);
  }

  lemma CancelReasons(s: State, t: TokenId, why: Reason)
    requires t in s.tokens && TokensOk(s) && HandlesOk(s) && ReasonsOk(s)
    ensures ReasonsOk(CancelToken(s, t, why))
  {
    var s' := CancelToken(s, t, why);
    CancelGrows(s, t, why);
    assert s'.log == s.log;
    forall r | r in s'.pending
      ensures ReasonOf(s', r, s'.pending[r])
    {
      if r in s.pending {
        ReasonStays(s, s', r, s.pending[r]);
      }
    }
    forall i | 0 <= i < |s.log|
      ensures ReasonOf(s', s.log[i].who, s.log[i].reason)
    {
      ReasonStays(s, s', s.log[i].who, s.log[i].reason);
    }
  }

  lemma CalledReasons(s: State, r: Registration)
    requires r in s.pending && ReasonsOk(s)
    ensures ReasonsOk(Called(s, r))
  {
    var s' := Called(s, r);
    forall q | q in s'.pending
      ensures ReasonOf(s', q, s'.pending[q])
    {
      assert ReasonOf(s, q, s.pending[q]);
    }
    forall i | 0 <= i < |s'.log|
      ensures ReasonOf(s', s'.log[i].who, s'.log[i].reason)
    {
      if i < |s.log| {
        assert ReasonOf(s, s.log[i].who, s.log[i].reason);
      } else {
        assert ReasonOf(s, r, s.pending[r]);
      }
    }
  }

  lemma QuietReasons(s: State, s': State)
    requires ReasonsOk(s) && Grows(s, s') && s'.log == s.log
    requires forall r :: r in s'.pending ==>
               (r in s.pending && s.pending[r] == s'.pending[r]) || ReasonOf(s', r, s'.pending[r])
    ensures ReasonsOk(s')
  {
    hide Grows, ReasonOf;
    forall r | r in s'.pending && r in s.pending && s.pending[r] == s'.pending[r]
      ensures ReasonOf(s', r, s'.pending[r])
    {
      ReasonStays(s, s', r, s.pending[r]);
    }
    forall i | 0 <= i < |s.log|
      ensures ReasonOf(s', s.log[i].who, s.log[i].reason)
    {
      ReasonStays(s, s', s.log[i].who, s.log[i].reason);
    }
  }

  lemma RegisterReasons(s: State, r: Registration, t: TokenId, cb: Callback)
    requires Enabled(s, Register(r, t, cb)) && TokensOk(s) && ReasonsOk(s)
    ensures ReasonsOk(RegisterStep(s, r, t, cb))
  {
    StepGrows(s, Register(r, t, cb));
    assert TokenOk(s.tokens[t]);
    QuietReasons(s, RegisterStep(s, r, t, cb));
  }

  lemma StepReasons(s: State, a: Action)
    requires TokensOk(s) && HandlesOk(s) && ReasonsOk(s) && Enabled(s, a)
    ensures ReasonsOk(After(s, a))
  {
    hide TokensOk, HandlesOk, ReasonsOk, Grows, CancelToken, RegisterStep, Called, ReasonOf;
    StepGrows(s, a);
    match a
    case Create(t) => QuietReasons(s, After(s, a));
    case Register(r, t, cb) => RegisterReasons(s, r, t, cb);
    case Unregister(t, h) => QuietReasons(s, After(s, a));
    case Cancel(t, why) => CancelReasons(s, t, why);
    case Release(t) => QuietReasons(s, After(s, a));
    case Invoke(r) =>
      CalledReasons(s, r);
      CalledBase(s, r);
      CalledTokens(s, r);
      var cb := s.entries[r].callback;
      if cb.Link? && cb.child in s.live && cb.child in s.tokens {
        CancelReasons(Called(s, r), cb.child, PARENT_REASON);
      }
  }

  // ---------------------------------------------------------------- links

  lemma InvokeLog(s: State, r: Registration)
    requires Enabled(s, Invoke(r))
    ensures InvokeStep(s, r).log == s.log + [Call(r, s.pending[r])] && InvokeStep(s, r).live == s.live
    ensures InvokeStep(s, r).entries == s.entries && InvokeStep(s, r).removed == s.removed
    ensures var cb := s.entries[r].callback;
            cb.Link? && cb.child in s.live && cb.child in s.tokens ==> IsCancelled(InvokeStep(s, r), cb.child)
  {
  }

  lemma OtherLog(s: State, a: Action)
    requires Enabled(s, a) && !a.Invoke?
    ensures After(s, a).log == s.log
  {
  }

  lemma StepLinks(s: State, a: Action)
    requires TokensOk(s) && PlacesOk(s) && LinksOk(s) && Enabled(s, a)
    ensures LinksOk(After(s, a))
  {
    hide PlacesOk, After, InvokeStep, IsCancelled;
    var s' := After(s, a);
    StepGrows(s, a);
    if a.Invoke? {
      InvokeLog(s, a.r);
      InvokeAfter(s, a.r);
    } else {
      OtherLog(s, a);
    }
    forall i | 0 <= i < |s'.log| && s'.log[i].who in s'.entries && s'.entries[s'.log[i].who].callback.Link?
      ensures var c := s'.entries[s'.log[i].who].callback.child; c !in s'.live || IsCancelled(s', c)
    {
      LoggedEntry(s, s'.log[i].who, a, i);
    }
  }

  lemma InvokeAfter(s: State, r: Registration)
    requires Enabled(s, Invoke(r))
    ensures After(s, Invoke(r)) == InvokeStep(s, r)
  {
  }

  lemma LoggedEntry(s: State, q: Registration, a: Action, i: nat)
    requires PlacesOk(s) && Enabled(s, a) && i < |After(s, a).log| && q == After(s, a).log[i].who
    ensures q in s.entries && (i < |s.log| ==> s.log[i].who == q) && (i >= |s.log| ==> a == Invoke(q))
  {
    if a.Invoke? {
      InvokeLog(s, a.r);
    } else {
      OtherLog(s, a);
    }
  }

  // ---------------------------------------------------------------- causes

  lemma CauseStays(s: State, s': State, p: seq<TokenId>, t: TokenId)
    requires Grows(s, s') && Cause(s, p, t)
    ensures Cause(s', p, t)
  {
    assert IsCancelled(s, p[0]);
    forall i: nat | 0 < i < |p|
      ensures Hop(s', p, i)
    {
      assert Hop(s, p, i);
      ReachedStays(s, s', p[i - 1], p[i]);
    }
  }

  lemma ReachedStays(s: State, s': State, a: TokenId, b: TokenId)
    requires Grows(s, s') && Reached(s, a, b)
    ensures Reached(s', a, b)
  {
    var r :| r in s.entries && s.entries[r].owner == a && s.entries[r].callback == Link(b) && Invoked(s, r);
    InvokedGrows(s, s', r);
  }

  lemma CauseExtends(s: State, p: seq<TokenId>, a: TokenId, b: TokenId)
    requires Cause(s, p, a) && IsCancelled(s, a) && Reached(s, a, b)
    ensures Rooted(s, b)
  {
    var q := p + [b];
    forall i: nat | 0 < i < |q|
      ensures Hop(s, q, i)
    {
      if i < |p| {
        assert Hop(s, p, i);
      }
    }
    assert Cause(s, q, b);
  }

  /** Who is newly cancelled by a step, and by what. */
  lemma NewlyCancelled(s: State, a: Action, t: TokenId)
    requires Enabled(s, a) && IsCancelled(After(s, a), t) && !IsCancelled(s, t)
    ensures (a.Cancel? && a.t == t && After(s, a).tokens[t].reason == Some(a.why))
            || (a.Invoke? && s.entries[a.r].callback == Link(t))
  {
  }

  lemma CauseOfNew(s: State, a: Action, t: TokenId)
    requires TokensOk(s) && ReasonsOk(s) && CausesOk(s) && Enabled(s, a)
    requires IsCancelled(After(s, a), t) && !IsCancelled(s, t)
    ensures Rooted(After(s, a), t)
  {
    hide ReasonsOk, After, InvokeStep, Cause;
    var s' := After(s, a);
    StepGrows(s, a);
    NewlyCancelled(s, a, t);
    if a.Cancel? {
      OwnCause(s', t);
    } else {
      var o := s.entries[a.r].owner;
      PendingCancelled(s, a.r);
      assert Rooted(s, o);
      var p :| Cause(s, p, o);
      CauseStays(s, s', p, o);
      InvokeAfter(s, a.r);
      InvokeLog(s, a.r);
      assert s'.log[|s.log|].who == a.r;
      assert Reached(s', o, t);
      CauseExtends(s', p, o, t);
    }
  }

  lemma PendingCancelled(s: State, r: Registration)
    requires ReasonsOk(s) && r in s.pending
    ensures r in s.entries && IsCancelled(s, s.entries[r].owner)
  {
    assert ReasonOf(s, r, s.pending[r]);
  }

  lemma OwnCause(s: State, t: TokenId)
    requires IsCancelled(s, t) && s.tokens[t].reason.Some? && s.tokens[t].reason.value.kind != ParentCancelled
    ensures Rooted(s, t)
  {
    assert Cause(s, [t], t);
  }

  lemma StepCauses(s: State, a: Action)
    requires TokensOk(s) && ReasonsOk(s) && CausesOk(s) && Enabled(s, a)
    ensures CausesOk(After(s, a))
  {
    hide After, ReasonsOk, Cause, TokensOk, IsCancelled, Grows;
    var s' := After(s, a);
    StepGrows(s, a);
    forall t | IsCancelled(s', t)
      ensures Rooted(s', t)
    {
      if IsCancelled(s, t) {
        var p :| Cause(s, p, t);
        CauseStays(s, s', p, t);
      } else {
        CauseOfNew(s, a, t);
      }
    }
  }

  lemma StepInv(s: State, a: Action)
    requires Inv(s) && Enabled(s, a)
    ensures Inv(After(s, a))
  {
    hide After, TokensOk, HandlesOk, PlacesOk, ReasonsOk, LinksOk, CausesOk;
    StepTokens(s, a);
    StepHandles(s, a);
    StepPlaces(s, a);
    StepReasons(s, a);
    StepLinks(s, a);
    StepCauses(s, a);
  }
}
