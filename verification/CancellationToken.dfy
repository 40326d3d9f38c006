/** The shared state behind a cancellation token, changed in place under its mutex. */
module CancellationToken {
  import opened Cancellation
  import opened Wrappers

  predicate Distinct(hs: seq<Handle>) {
    forall i, j :: 0 <= i < j < |hs| ==> hs[i] != hs[j]
  }

  /** `taken` are the callbacks stored under `hs`, in that order. */
  ghost predicate TakenFrom(m: map<Handle, Registration>, hs: seq<Handle>, taken: seq<Registration>) {
    && |hs| == |taken| && Distinct(hs) && (set h | h in hs) == m.Keys
    && forall i :: 0 <= i < |hs| ==> hs[i] in m && taken[i] == m[hs[i]]
  }

  /** Moves all callbacks of a map out, in the map's own order. */
  method TakeAll(m: map<Handle, Registration>) returns (taken: seq<Registration>, ghost hs: seq<Handle>)
    ensures TakenFrom(m, hs, taken) && forall h :: h in m ==> m[h] in taken
  {
    taken, hs := [], [];
    var rest := m.Keys;
    while rest != {}
      invariant rest <= m.Keys && |hs| == |taken| && Distinct(hs)
      invariant forall h :: h in hs <==> h in m && h !in rest
      invariant forall i :: 0 <= i < |hs| ==> hs[i] in m && taken[i] == m[hs[i]]
      decreases rest
    {
      var h :| h in rest;
      assert h !in hs;
      taken, hs := taken + [m[h]], hs + [h];
      rest := rest - {h};
    }
    forall h | h in m
      ensures m[h] in taken
    {
      var i :| 0 <= i < |hs| && hs[i] == h;
      assert taken[i] == m[h];
    }
  }

  class TokenState {
    var isCancelled: bool
    var reason: Option<Reason>
    var simpleCallbacks: map<Handle, Registration>
    var reasonCallbacks: map<Handle, Registration>
    var nextHandle: Handle

    /** The two maps share one handle counter, so together they are one map. */
    ghost function Value(): Token
      reads this
    {
      Token(isCancelled, reason, simpleCallbacks + reasonCallbacks, nextHandle)
    }

    ghost predicate Valid()
      reads this
    {
      TokenOk(Value()) && simpleCallbacks.Keys !! reasonCallbacks.Keys
    }

    constructor ()
      ensures Valid() && Value() == NewToken
    {
      isCancelled, reason, simpleCallbacks, reasonCallbacks, nextHandle := false, None, map[], map[], 1;
    }

    /** The locked section of `do_cancel`; the caller then invokes `taken`, the simple callbacks first. */
    method DoCancel(why: Reason) returns (taken: seq<Registration>, ghost hs: seq<Handle>)
      requires Valid()
      modifies this
      ensures Valid() && Value() == CancelledToken(old(Value()), why)
      ensures isCancelled && Value().callbacks == map[] && reason == if old(isCancelled) then old(reason) else Some(why)
      ensures TakenFrom(old(Value().callbacks), hs, taken)
      ensures forall i, j :: 0 <= i < j < |hs| && hs[j] in old(simpleCallbacks) ==> hs[i] in old(simpleCallbacks)
    {
      taken, hs := [], [];
      if !isCancelled {
        isCancelled := true;
        reason := Some(why);
        ghost var sh, rh;
        var simple, reasoned;
        simple, sh := TakeAll(simpleCallbacks);
        reasoned, rh := TakeAll(reasonCallbacks);
        taken, hs := simple + reasoned, sh + rh;
        Joined(simpleCallbacks, reasonCallbacks, sh, rh, simple, reasoned);
        simpleCallbacks, reasonCallbacks := map[], map[];
      }
    }

    /** `now` is the reason to call back with at once, when the token is already cancelled. */
    method RegisterCallback(r: Registration, withReason: bool) returns (handle: Handle, now: Option<Reason>)
      requires Valid()
      modifies this
      ensures Valid() && Value() == RegisteredToken(old(Value()), r)
      ensures if old(isCancelled) then handle == 0 && now.Some? && now == reason
              else now.None? && handle > 0 && handle !in old(Value().callbacks)
                   && handle in Value().callbacks && Value().callbacks[handle] == r
    {
      if isCancelled {
        return 0, reason;
      }
      handle, now := nextHandle, None;
      nextHandle := nextHandle + 1;
      if withReason {
        reasonCallbacks := reasonCallbacks[handle := r];
      } else {
        simpleCallbacks := simpleCallbacks[handle := r];
      }
    }

    method UnregisterCallback(handle: Handle)
      requires Valid()
      modifies this
      ensures Valid() && Value() == UnregisteredToken(old(Value()), handle)
      ensures handle !in Value().callbacks
      ensures forall h :: h != handle ==> (h in Value().callbacks <==> h in old(Value().callbacks))
    {
      if handle == 0 {
        return;
      }
      simpleCallbacks := simpleCallbacks - {handle};
      reasonCallbacks := reasonCallbacks - {handle};
    }
  }

  lemma Joined(a: map<Handle, Registration>, b: map<Handle, Registration>, ha: seq<Handle>, hb: seq<Handle>,
               ta: seq<Registration>, tb: seq<Registration>)
    requires a.Keys !! b.Keys && TakenFrom(a, ha, ta) && TakenFrom(b, hb, tb)
    ensures TakenFrom(a + b, ha + hb, ta + tb)
    ensures forall i, j :: 0 <= i < j < |ha + hb| && (ha + hb)[j] in a ==> (ha + hb)[i] in a
  {
    forall i | 0 <= i < |ha|
      ensures ha[i] in a.Keys
    {
    }
    forall i | 0 <= i < |hb|
      ensures hb[i] in b.Keys
    {
    }
  }
}
