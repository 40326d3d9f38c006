/** What each request to a cancellation token brings about, at once and for the rest of every run. */
module CancellationEffects {
  import opened Cancellation
  import opened CancellationRuns
  import opened Wrappers

  /** `r` is a callback that waits at token `t`. */
  predicate WaitsAt(s: State, r: Registration, t: TokenId) {
    Registered(s, r) && s.entries[r].owner == t
  }

  /** Cancelling a token takes every callback that waits there, with the given reason. */
  ghost predicate TakesAll(s: State, s': State, t: TokenId, why: Reason) {
    && IsCancelled(s', t) && s'.tokens[t].reason == Some(why)
    && forall r :: WaitsAt(s, r, t) ==> r in s'.pending && s'.pending[r] == why && !Registered(s', r)
  }

  lemma CancelTakesAll(s: State, t: TokenId, why: Reason)
    requires HandlesOk(s) && PlacesOk(s) && t in s.tokens && !s.tokens[t].cancelled
    ensures TakesAll(s, CancelToken(s, t, why), t, why)
  {
    var s' := CancelToken(s, t, why);
    forall r | WaitsAt(s, r, t)
      ensures r in s'.pending && s'.pending[r] == why && !Registered(s', r)
    {
      assert OnePlace(s, r) && r in s.tokens[t].callbacks.Values;
    }
  }

  // ---------------------------------------------------------------- cancel

  /** A cancel request cancels its token; the first one writes the reason and takes the callbacks. */
  lemma CancelTakesEffect(states: seq<State>, actions: seq<Action>, i: nat, t: TokenId, why: Reason)
    requires IsRun(states, actions) && i < |actions| && actions[i] == Cancel(t, why)
    ensures IsCancelled(states[i + 1], t)
    ensures IsCancelled(states[i], t) ==> states[i + 1] == states[i]
    ensures !IsCancelled(states[i], t) ==> TakesAll(states[i], states[i + 1], t, why)
  {
    RunInv(states, actions, i);
    hide TokensOk, HandlesOk, PlacesOk, ReasonsOk, LinksOk, CausesOk, TakesAll;
    if !IsCancelled(states[i], t) {
      CancelTakesAll(states[i], t, why);
    }
  }

  /** So every callback that waited runs exactly once, with that reason, by the time nothing is pending. */
  lemma CancelDelivers(states: seq<State>, actions: seq<Action>, i: nat, j: nat,
                       t: TokenId, why: Reason, r: Registration)
    requires IsRun(states, actions) && i < j <= |actions| && actions[i] == Cancel(t, why)
    requires !IsCancelled(states[i], t) && WaitsAt(states[i], r, t) && states[j].pending == map[]
    ensures InvokedOnce(states[j], r, why)
  {
    CancelTakesEffect(states, actions, i, t, why);
    RunInv(states, actions, i);
    RegisteredIsTaken(states[i], actions[i], r);
    hide Inv, After, InvokedOnce;
    DeliveredExactlyOnce(states, actions, i + 1, j, r);
  }

  // ---------------------------------------------------------------- invoke

  /** An invocation is one call with the taken reason; a live, uncancelled child of a link is cancelled by it. */
  lemma InvokeTakesEffect(states: seq<State>, actions: seq<Action>, i: nat, r: Registration)
    requires IsRun(states, actions) && i < |actions| && actions[i] == Invoke(r)
    ensures r in states[i].pending && r in states[i].entries
    ensures states[i + 1].log == states[i].log + [Call(r, states[i].pending[r])] && r !in states[i + 1].pending
    ensures var cb := states[i].entries[r].callback;
            cb.Link? && cb.child in states[i].live ==>
              && IsCancelled(states[i + 1], cb.child)
              && (!IsCancelled(states[i], cb.child) ==>
                    TakesAll(states[i], states[i + 1], cb.child, Reason(ParentCancelled, "Parent token was cancelled")))
    ensures var cb := states[i].entries[r].callback;
            cb.User? || cb.child !in states[i].live ==>
              states[i + 1].tokens == states[i].tokens && states[i + 1].pending == states[i].pending - {r}
  {
    var s := states[i];
    RunInv(states, actions, i);
    var cb := s.entries[r].callback;
    InvokeLogs(s, r);
    if cb.Link? && cb.child in s.live {
      InvokeCancels(s, r);
    } else {
      InvokeOnly(s, r);
    }
    hide InvokeStep, Inv, TakesAll;
  }

  lemma InvokeLogs(s: State, r: Registration)
    requires Inv(s) && r in s.pending && r in s.entries
    ensures InvokeStep(s, r).log == s.log + [Call(r, s.pending[r])] && r !in InvokeStep(s, r).pending
  {
    assert OnePlace(s, r);
    hide CausesOk, LinksOk, ReasonsOk, TokensOk, Invoked;
  }

  lemma InvokeOnly(s: State, r: Registration)
    requires r in s.pending && r in s.entries
    requires s.entries[r].callback.User? || s.entries[r].callback.child !in s.live
    ensures InvokeStep(s, r).tokens == s.tokens && InvokeStep(s, r).pending == s.pending - {r}
  {
  }

  lemma InvokeCancels(s: State, r: Registration)
    requires Inv(s) && r in s.pending && r in s.entries
    requires s.entries[r].callback.Link? && s.entries[r].callback.child in s.live
    ensures var child := s.entries[r].callback.child;
            && IsCancelled(InvokeStep(s, r), child)
            && (!IsCancelled(s, child) ==> TakesAll(s, InvokeStep(s, r), child, PARENT_REASON))
  {
    hide CausesOk, LinksOk, ReasonsOk;
    var s', child := InvokeStep(s, r), s.entries[r].callback.child;
    assert OnePlace(s, r);
    if !IsCancelled(s, child) {
      forall q | WaitsAt(s, q, child)
        ensures q in s'.pending && s'.pending[q] == PARENT_REASON && !Registered(s', q)
      {
        assert OnePlace(s, q) && q in s.tokens[child].callbacks.Values;
      }
    }
  }

  // ---------------------------------------------------------------- create, register, unregister, release

  /** A new token is live, not cancelled, and nothing waits there. */
  lemma CreateTakesEffect(states: seq<State>, actions: seq<Action>, i: nat, t: TokenId)
    requires IsRun(states, actions) && i < |actions| && actions[i] == Create(t)
    ensures t in states[i + 1].live && t in states[i + 1].tokens && !IsCancelled(states[i + 1], t)
    ensures states[i + 1].tokens[t].reason == None && states[i + 1].tokens[t].callbacks == map[]
  {
  }

  /** A callback registered with a token that is not cancelled waits there under a handle of its own. */
  lemma RegisterTakesEffect(states: seq<State>, actions: seq<Action>, i: nat, r: Registration, t: TokenId, cb: Callback)
    requires IsRun(states, actions) && i < |actions| && actions[i] == Register(r, t, cb)
    requires !IsCancelled(states[i], t)
    ensures WaitsAt(states[i + 1], r, t) && states[i + 1].entries[r].callback == cb
    ensures states[i + 1].entries[r].handle > 0 && states[i + 1].pending == states[i].pending
    ensures forall q :: WaitsAt(states[i], q, t) ==>
              WaitsAt(states[i + 1], q, t) && states[i].entries[q].handle != states[i + 1].entries[r].handle
  {
    RunInv(states, actions, i);
    hide CausesOk, LinksOk, ReasonsOk, PlacesOk;
    assert TokenOk(states[i].tokens[t]);
  }

  /** Unregistering a callback that waits takes it alone out of the token, for good: it is never invoked. */
  lemma UnregisterTakesEffect(states: seq<State>, actions: seq<Action>, i: nat, j: nat, t: TokenId, r: Registration)
    requires IsRun(states, actions) && i < j <= |actions| && WaitsAt(states[i], r, t)
    requires actions[i] == Unregister(t, states[i].entries[r].handle)
    ensures r in states[j].removed && !Invoked(states[j], r) && r !in states[j].pending
    ensures forall q :: q != r && WaitsAt(states[i], q, t) ==> WaitsAt(states[i + 1], q, t)
  {
    RunInv(states, actions, i);
    UnregisterRemoves(states[i], t, r);
    hide After, Inv;
    StaysRemoved(states, actions, i + 1, j, r);
    RunInv(states, actions, j);
    RemovedIsSilent(states[j], r);
  }

  lemma UnregisterRemoves(s: State, t: TokenId, r: Registration)
    requires Inv(s) && WaitsAt(s, r, t)
    ensures r in UnregisterStep(s, t, s.entries[r].handle).removed
    ensures forall q :: q != r && WaitsAt(s, q, t) ==> WaitsAt(UnregisterStep(s, t, s.entries[r].handle), q, t)
  {
    hide CausesOk, LinksOk, ReasonsOk, PlacesOk;
    assert TokenOk(s.tokens[t]);
  }

  lemma RemovedIsSilent(s: State, r: Registration)
    requires Inv(s) && r in s.removed
    ensures !Invoked(s, r) && r !in s.pending
  {
    hide TokensOk, HandlesOk, CausesOk, LinksOk, ReasonsOk;
    assert OnePlace(s, r);
  }

  lemma {:induction false} StaysRemoved(states: seq<State>, actions: seq<Action>, i: nat, j: nat, r: Registration)
    requires IsRun(states, actions) && i <= j <= |actions| && r in states[i].removed
    ensures r in states[j].removed
    decreases j
  {
    hide After;
    if i < j {
      StaysRemoved(states, actions, i, j - 1, r);
      RemovedGrows(states[j - 1], actions[j - 1]);
    }
  }

  lemma RemovedGrows(s: State, a: Action)
    requires Enabled(s, a)
    ensures s.removed <= After(s, a).removed
  {
  }

  /** A token whose last owner let go is never live again. */
  lemma {:induction false} ReleaseTakesEffect(states: seq<State>, actions: seq<Action>, i: nat, j: nat, t: TokenId)
    requires IsRun(states, actions) && i < j <= |actions| && actions[i] == Release(t)
    ensures t in states[j].tokens && t !in states[j].live
    decreases j
  {
    hide Inv;
    RunInv(states, actions, j - 1);
    InvTokens(states[j - 1]);
    if i + 1 < j {
      ReleaseTakesEffect(states, actions, i, j - 1, t);
      StepGrows(states[j - 1], actions[j - 1]);
    } else {
      ReleasedIsGone(states[i], t);
    }
    hide After, TokensOk;
  }

  lemma ReleasedIsGone(s: State, t: TokenId)
    requires TokensOk(s) && Enabled(s, Release(t))
    ensures t in After(s, Release(t)).tokens && t !in After(s, Release(t)).live
  {
  }

  /** A token is live from its creation until its last owner lets go. */
  lemma {:induction false} LiveIff(states: seq<State>, actions: seq<Action>, n: nat, t: TokenId)
    requires IsRun(states, actions) && n <= |actions|
    ensures t in states[n].live <==> Create(t) in actions[..n] && Release(t) !in actions[..n]
  {
    hide After;
    if n > 0 {
      var before, a := actions[..n - 1], actions[n - 1];
      assert actions[..n] == before + [a];
      LiveIff(states, actions, n - 1, t);
      LiveStep(states[n - 1], a, t);
      if a == Create(t) && Release(t) in before {
        var m :| 0 <= m < n - 1 && actions[m] == Release(t);
        ReleaseTakesEffect(states, actions, m, n - 1, t);
      }
    }
  }

  lemma LiveStep(s: State, a: Action, t: TokenId)
    requires Enabled(s, a)
    ensures t in After(s, a).live <==> a == Create(t) || (t in s.live && a != Release(t))
    ensures a == Create(t) ==> t !in s.tokens
  {
  }
}
