/** What every interleaving of the cancellation tokens guarantees. */
module CancellationRuns {
  import opened Cancellation
  import opened Wrappers

  lemma {:induction false} RunInv(states: seq<State>, actions: seq<Action>, i: nat)
    requires IsRun(states, actions) && i <= |actions|
    ensures Inv(states[i])
  {
    hide Inv, After;
    if i == 0 {
      InitialInv();
    } else {
      RunInv(states, actions, i - 1);
      StepInv(states[i - 1], actions[i - 1]);
    }
  }

  lemma InitialInv()
    ensures Inv(Initial)
  {
  }

  // ---------------------------------------------------------------- the reason

  /** Once a token is cancelled, no later step changes the flag or the reason. */
  lemma {:induction false} ReasonWrittenOnce(states: seq<State>, actions: seq<Action>, i: nat, j: nat, t: TokenId)
    requires IsRun(states, actions) && i <= j <= |actions| && IsCancelled(states[i], t)
    ensures IsCancelled(states[j], t) && states[j].tokens[t].reason == states[i].tokens[t].reason
    ensures states[i].tokens[t].reason.Some?
    decreases j
  {
    hide After;
    RunInv(states, actions, i);
    if i < j {
      ReasonWrittenOnce(states, actions, i, j - 1, t);
      RunInv(states, actions, j - 1);
      StepGrows(states[j - 1], actions[j - 1]);
    }
  }

  /** `register_callback` on a cancelled token always finds the reason. */
  lemma RegisterFindsReason(states: seq<State>, actions: seq<Action>, i: nat, r: Registration)
    requires IsRun(states, actions) && i < |actions|
    requires actions[i].Register? && actions[i].r == r && IsCancelled(states[i], actions[i].t)
    ensures r in states[i + 1].pending && states[i].tokens[actions[i].t].reason == Some(states[i + 1].pending[r])
    ensures states[i + 1].entries[r] == Entry(actions[i].callback, actions[i].t, 0) && r !in states[i + 1].removed
    ensures states[i + 1].tokens == states[i].tokens
  {
    RunInv(states, actions, i);
    assert TokenOk(states[i].tokens[actions[i].t]);
  }

  // ---------------------------------------------------------------- exactly once

  /** Invoked by one call and by no other, with that reason. */
  ghost predicate InvokedOnce(s: State, r: Registration, why: Reason) {
    exists i :: 0 <= i < |s.log| && s.log[i] == Call(r, why)
                && forall j :: 0 <= j < |s.log| && j != i ==> s.log[j].who != r
  }

  /** When nothing is left to invoke, a callback still wanted ran once if its token is cancelled, else never. */
  lemma DrainedDelivery(s: State, r: Registration)
    requires Inv(s) && s.pending == map[] && r in s.entries && r !in s.removed
    ensures IsCancelled(s, s.entries[r].owner) ==>
              s.tokens[s.entries[r].owner].reason.Some? && InvokedOnce(s, r, s.tokens[s.entries[r].owner].reason.value)
    ensures !IsCancelled(s, s.entries[r].owner) ==> !Invoked(s, r) && Registered(s, r)
  {
    assert OnePlace(s, r);
    var t := s.entries[r].owner;
    assert TokenOk(s.tokens[t]);
    if IsCancelled(s, t) {
      assert !Registered(s, r);
      var i :| 0 <= i < |s.log| && s.log[i].who == r;
      assert ReasonOf(s, s.log[i].who, s.log[i].reason);
    } else if Invoked(s, r) {
      InvokedCancelled(s, r);
    }
  }

  lemma InvokedCancelled(s: State, r: Registration)
    requires ReasonsOk(s) && Invoked(s, r)
    ensures r in s.entries && IsCancelled(s, s.entries[r].owner)
  {
    var i :| 0 <= i < |s.log| && s.log[i].who == r;
    assert ReasonOf(s, s.log[i].who, s.log[i].reason);
  }

  /** Nothing can be unregistered from a cancelled token. */
  lemma TakenStays(s: State, a: Action, r: Registration)
    requires Inv(s) && Enabled(s, a) && r in s.entries && r !in s.removed && IsCancelled(s, s.entries[r].owner)
    ensures r !in After(s, a).removed
  {
    match a
    case Unregister(t, h) =>
      assert TokenOk(s.tokens[t]);
    case Invoke(q) => InvokeLog(s, q);
    case _ =>
  }

  /** A callback registered with a token when it is cancelled is taken by that step. */
  lemma RegisteredIsTaken(s: State, a: Action, r: Registration)
    requires Inv(s) && Enabled(s, a) && Registered(s, r) && IsCancelled(After(s, a), s.entries[r].owner)
    ensures !IsCancelled(s, s.entries[r].owner)
    ensures r in After(s, a).pending && !Registered(After(s, a), r)
    ensures r in After(s, a).entries && After(s, a).entries[r] == s.entries[r] && r !in After(s, a).removed
  {
    TakenIntoPending(s, a, r);
    hide After, LinksOk, CausesOk;
    var t := s.entries[r].owner;
    assert TokenOk(s.tokens[t]) && OnePlace(s, r);
    StepGrows(s, a);
    NewlyCancelled(s, a, t);
    RemovedOnlyByUnregister(s, a);
  }

  lemma TakenIntoPending(s: State, a: Action, r: Registration)
    requires Inv(s) && Enabled(s, a) && Registered(s, r) && IsCancelled(After(s, a), s.entries[r].owner)
    ensures r in After(s, a).pending && !Registered(After(s, a), r)
  {
    hide After;
    var s', t := After(s, a), s.entries[r].owner;
    assert TokenOk(s.tokens[t]) && OnePlace(s, r);
    StepGrows(s, a);
    StepInv(s, a);
    NewlyCancelled(s, a, t);
    RemovedOnlyByUnregister(s, a);
    assert TokenOk(s'.tokens[t]) && OnePlace(s', r);
    NotInvoked(s, a, r);
  }

  lemma NotInvoked(s: State, a: Action, r: Registration)
    requires Enabled(s, a) && r in s.entries && !Invoked(s, r) && r !in s.pending
    ensures !Invoked(After(s, a), r)
  {
    hide After;
    if a.Invoke? {
      InvokeLog(s, a.r);
      InvokeAfter(s, a.r);
    } else {
      OtherLog(s, a);
    }
  }

  lemma RemovedOnlyByUnregister(s: State, a: Action)
    requires Enabled(s, a) && !a.Unregister?
    ensures After(s, a).removed == s.removed
  {
  }

  /**
    Exactly once: from the moment its token is cancelled, a callback that has not been
    unregistered is bound to run once, with the token's reason, by the time the pending
    invocations have drained.
   */
  lemma DeliveredExactlyOnce(states: seq<State>, actions: seq<Action>, i: nat, j: nat, r: Registration)
    requires IsRun(states, actions) && i <= j <= |actions|
    requires r in states[i].entries && r !in states[i].removed && IsCancelled(states[i], states[i].entries[r].owner)
    requires states[j].pending == map[]
    ensures var reason := states[i].tokens[states[i].entries[r].owner].reason;
            reason.Some? && InvokedOnce(states[j], r, reason.value)
  {
    hide Inv, InvokedOnce, After;
    StaysTaken(states, actions, i, j, r);
    RunInv(states, actions, j);
    ReasonWrittenOnce(states, actions, i, j, states[i].entries[r].owner);
    DrainedDelivery(states[j], r);
  }

  lemma {:induction false} StaysTaken(states: seq<State>, actions: seq<Action>, i: nat, j: nat, r: Registration)
    requires IsRun(states, actions) && i <= j <= |actions|
    requires r in states[i].entries && r !in states[i].removed && IsCancelled(states[i], states[i].entries[r].owner)
    ensures r in states[j].entries && states[j].entries[r] == states[i].entries[r] && r !in states[j].removed
    decreases j
  {
    hide Inv, After, TokensOk;
    if i < j {
      StaysTaken(states, actions, i, j - 1, r);
      ReasonWrittenOnce(states, actions, i, j - 1, states[i].entries[r].owner);
      RunInv(states, actions, j - 1);
      TakenStays(states[j - 1], actions[j - 1], r);
      assert TokensOk(states[j - 1]) by { InvTokens(states[j - 1]); }
      StepGrows(states[j - 1], actions[j - 1]);
    }
  }

  lemma InvTokens(s: State)
    requires Inv(s)
    ensures TokensOk(s)
  {
  }

  /** In no state of any run has a callback been invoked twice, or after it was unregistered. */
  lemma NeverTwice(states: seq<State>, actions: seq<Action>, i: nat, a: nat, b: nat)
    requires IsRun(states, actions) && i <= |actions| && a < b < |states[i].log|
    ensures states[i].log[a].who != states[i].log[b].who
    ensures states[i].log[a].who !in states[i].removed && states[i].log[b].who !in states[i].removed
  {
    RunInv(states, actions, i);
    var s := states[i];
    assert Invoked(s, s.log[a].who) && Invoked(s, s.log[b].who);
    assert OnePlace(s, s.log[a].who) && OnePlace(s, s.log[b].who);
  }

  // ---------------------------------------------------------------- propagation

  /** There is a link from `parent` to `child` that nobody unregistered. */
  predicate Linked(s: State, parent: TokenId, child: TokenId) {
    exists r :: r in s.entries && r !in s.removed
                && s.entries[r].owner == parent && s.entries[r].callback == Link(child)
  }

  ghost predicate LinkAt(s: State, p: seq<TokenId>, i: nat)
    requires 0 < i < |p|
  {
    Linked(s, p[i - 1], p[i]) && p[i] in s.live
  }

  /** A chain of links through live tokens. */
  ghost predicate Chain(s: State, p: seq<TokenId>) {
    |p| > 0 && forall i: nat {:trigger LinkAt(s, p, i)} :: 0 < i < |p| ==> LinkAt(s, p, i)
  }

  lemma LinkPropagates(s: State, parent: TokenId, child: TokenId)
    requires Inv(s) && s.pending == map[] && Linked(s, parent, child) && child in s.live && IsCancelled(s, parent)
    ensures IsCancelled(s, child)
  {
    hide CausesOk, HandlesOk, PlacesOk;
    var r :| r in s.entries && s.entries[r].owner == parent && s.entries[r].callback == Link(child) && r !in s.removed;
    DrainedDelivery(s, r);
    var why := s.tokens[parent].reason.value;
    var i :| 0 <= i < |s.log| && s.log[i] == Call(r, why);
  }

  /** Once drained, everything linked through live tokens to a cancelled token is cancelled. */
  lemma {:induction false} Propagates(s: State, p: seq<TokenId>, k: nat)
    requires Inv(s) && s.pending == map[] && Chain(s, p) && IsCancelled(s, p[0]) && k < |p|
    ensures IsCancelled(s, p[k])
  {
    hide Inv;
    if k > 0 {
      Propagates(s, p, k - 1);
      assert LinkAt(s, p, k);
      LinkPropagates(s, p[k - 1], p[k]);
    }
  }

  /** And only those: every cancellation goes back, link by link, to one that was asked for or timed out. */
  lemma CancelledForCause(states: seq<State>, actions: seq<Action>, i: nat, t: TokenId)
    requires IsRun(states, actions) && i <= |actions| && IsCancelled(states[i], t)
    ensures exists p :: Cause(states[i], p, t)
  {
    RunInv(states, actions, i);
    assert Rooted(states[i], t);
  }

  // ---------------------------------------------------------------- draining ends

  ghost predicate IsDrain(states: seq<State>, actions: seq<Action>) {
    && |states| == |actions| + 1
    && forall i :: 0 <= i < |actions| ==>
         actions[i].Invoke? && Enabled(states[i], actions[i]) && states[i + 1] == After(states[i], actions[i])
  }

  /** How many callbacks have not been invoked yet. */
  ghost function Waiting(s: State): int {
    |s.entries.Keys| - |s.log|
  }

  lemma {:induction false} LogFits(log: seq<Call>, entries: set<Registration>)
    requires forall i :: 0 <= i < |log| ==> log[i].who in entries
    requires forall i, j :: 0 <= i < j < |log| ==> log[i].who != log[j].who
    ensures |log| <= |entries|
    decreases |log|
  {
    if log != [] {
      var n := |log| - 1;
      var rest := log[..n];
      forall i | 0 <= i < |rest|
        ensures rest[i].who in entries - {log[n].who}
      {
        assert rest[i] == log[i];
      }
      LogFits(rest, entries - {log[n].who});
    }
  }

  /** Cancellation storms end, even around a cycle of links: at most one invocation for each callback. */
  lemma {:induction false} DrainIsBounded(states: seq<State>, actions: seq<Action>)
    requires IsDrain(states, actions) && Inv(states[0])
    ensures Inv(states[|actions|]) && |actions| <= Waiting(states[0]) - Waiting(states[|actions|])
    ensures Waiting(states[|actions|]) >= 0
    decreases |actions|
  {
    hide Inv, After;
    var n := |actions|;
    if n > 0 {
      DrainIsBounded(states[..n], actions[..n - 1]);
      StepInv(states[n - 1], actions[n - 1]);
      InvokeLog(states[n - 1], actions[n - 1].r);
      InvokeAfter(states[n - 1], actions[n - 1].r);
    }
    WaitingSome(states[n]);
  }

  lemma WaitingSome(s: State)
    requires Inv(s)
    ensures Waiting(s) >= 0
  {
    LogFits(s.log, s.entries.Keys);
  }

  /** And it never gets stuck before everything was invoked. */
  lemma {:induction false} CanDrain(s: State) returns (states: seq<State>, actions: seq<Action>)
    requires Inv(s)
    ensures IsDrain(states, actions) && states[0] == s && states[|actions|].pending == map[]
    decreases Waiting(s)
  {
    hide Inv, After;
    if s.pending == map[] {
      states, actions := [s], [];
    } else {
      var r :| r in s.pending;
      InvEntries(s, r);
      var s' := After(s, Invoke(r));
      StepInv(s, Invoke(r));
      InvokeLog(s, r);
      InvokeAfter(s, r);
      WaitingSome(s');
      var rest, more := CanDrain(s');
      states, actions := [s] + rest, [Invoke(r)] + more;
      forall i | 0 <= i < |actions|
        ensures actions[i].Invoke? && Enabled(states[i], actions[i]) && states[i + 1] == After(states[i], actions[i])
      {
        if i > 0 {
          assert actions[i] == more[i - 1] && states[i] == rest[i - 1] && states[i + 1] == rest[i];
        }
      }
    }
  }

  lemma InvEntries(s: State, r: Registration)
    requires Inv(s) && r in s.pending
    ensures r in s.entries
  {
  }
}
