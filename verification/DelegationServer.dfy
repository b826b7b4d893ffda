/**
 The delegation code on fields that are updated in place, one call at a time.  Each
 primitive is proved to do what its step in Delegation says; the list walks are loops.
 */
module DelegationServer {
  import opened Lists
  import opened Wrappers
  import opened Delegation
  import opened DelegationCoherence

  class Server {
    var delegs: map<nat, Deleg>
    var list: seq<nat>
    var ptr: map<nat, nat>
    var active: int
    var tagged: set<(nat, nat)>
    var returnBit: bool
    var delayedBit: bool
    var toDetach: multiset<nat>

    function Value(): State
      reads this
    {
      State(delegs, list, ptr, active, tagged, returnBit, delayedBit, toDetach, Idle)
    }

    constructor ()
      ensures Value() == Empty()
    {
      delegs, list, ptr, active, tagged := map[], [], map[], 0, {};
      returnBit, delayedBit, toDetach := false, false, multiset{};
    }

    method ClearVerifierDelegated(inode: Option<nat>)
      modifies this`tagged
      ensures Value() == ClearTags(old(Value()), inode)
    {
      if inode.Some? { tagged := set t | t in tagged && t.0 != inode.value; }
    }

    method MarkDelegationRevoked(d: nat)
      requires d in delegs
      modifies this
      ensures Value() == MarkRevoked(old(Value()), d)
    {
      var x := delegs[d];
      if Revoked !in x.flags {
        delegs := delegs[d := x.(flags := x.flags + {Revoked}, owed := false)];
        active := active - 1;
        if Returning !in x.flags { ClearVerifierDelegated(x.inode); }
      }
    }

    method DetachLocked(i: nat, d: nat, revoke: bool) returns (done: bool)
      requires d in delegs && (delegs[d].inode.Some? ==> delegs[d].inode.value == i)
      modifies this
      ensures Value() == Detach(old(Value()), d, revoke)
      ensures done <==> Detach(old(Value()), d, revoke) != old(Value())
    {
      var x := delegs[d];
      if i !in ptr || ptr[i] != d || x.inode.None? { return false; }
      var y := x.(inode := None, base := Dropping(revoke), detaches := x.detaches + 1, owed := false);
      delegs, list, ptr := delegs[d := y], Without(list, d), ptr - {i};
      done := true;
    }

    method StartReturnLocked(i: nat) returns (taken: Option<nat>)
      modifies this
      ensures Value() == StartReturn(old(Value()), i) && taken == Startable(old(Value()), i)
    {
      if i !in ptr || ptr[i] !in delegs { return None; }
      var d := ptr[i];
      var x := delegs[d];
      if x.inode.None? || Returning in x.flags { return None; }
      delegs := delegs[d := x.(flags := x.flags - {ReturnDelayed} + {Returning}, refcount := x.refcount + 1,
                               returners := x.returners + 1, owed := false)];
      ClearVerifierDelegated(x.inode);
      taken := Some(d);
    }

    method AbortDelegationReturn(d: nat, again: bool)
      requires d in delegs
      modifies this`delegs, this`delayedBit
      ensures Value() == AbortReturn(old(Value()), d, again)
    {
      var x := delegs[d];
      var flags := x.flags - {Returning} + (if again then {ReturnDelayed} else {});
      var owed := if again then x.inode.Some? && Revoked !in x.flags && InodeFreeing !in x.flags else x.owed;
      delegs := delegs[d := x.(flags := flags, owed := owed)];
      delayedBit := delayedBit || again;
    }

    method EndDelegationReturn(d: nat, result: Result)
      requires Returned(Value(), d)
      modifies this`delegs, this`delayedBit
      ensures Value() == Finish(old(Value()), d, result)
    {
      if result.Aborted? { AbortDelegationReturn(d, result.again); }
      var x := delegs[d];
      delegs := delegs[d := x.(refcount := x.refcount - 1, returners := x.returners - 1)];
    }

    // nfs_server_mark_return_all_delegations
    method MarkReturnAll() returns (any: bool)
      requires forall d :: d in list ==> d in delegs
      modifies this`delegs, this`returnBit
      ensures any == (list != []) && returnBit == (old(returnBit) || list != [])
      ensures delegs.Keys == old(delegs.Keys)
      ensures forall d :: d in delegs ==>
        delegs[d] == old(delegs)[d].(flags := old(delegs)[d].flags + (if d in list then {Return} else {}))
    {
      any := false;
      for k := 0 to |list|
        invariant any == (k > 0) && returnBit == (old(returnBit) || k > 0) && delegs.Keys == old(delegs.Keys)
        invariant forall d :: d in delegs ==>
          delegs[d] == old(delegs)[d].(flags := old(delegs)[d].flags + (if d in list[..k] then {Return} else {}))
      {
        var d := list[k];
        assert list[..k+1] == list[..k] + [d];
        delegs := delegs[d := delegs[d].(flags := delegs[d].flags + {Return})];
        returnBit, any := true, true;
      }
      assert list[..|list|] == list;
    }

    // nfs_server_clear_delayed_delegations: every put-off return becomes a marked one, and is announced.
    method ClearDelayed() returns (any: bool)
      requires forall d :: d in list ==> d in delegs
      modifies this`delegs, this`returnBit, this`delayedBit
      ensures !delayedBit && delegs.Keys == old(delegs.Keys)
      ensures any <==> old(delayedBit) && exists d :: d in list && ReturnDelayed in old(delegs)[d].flags
      ensures returnBit == (old(returnBit) || any)
      ensures forall d :: d in delegs ==>
        delegs[d] == if old(delayedBit) && d in list then Recycled(old(delegs)[d]) else old(delegs)[d]
    {
      any := false;
      if !delayedBit { return; }
      delayedBit := false;
      for k := 0 to |list|
        invariant !delayedBit && delegs.Keys == old(delegs.Keys) && returnBit == (old(returnBit) || any)
        invariant any <==> exists d :: d in list[..k] && ReturnDelayed in old(delegs)[d].flags
        invariant forall d :: d in delegs ==>
          delegs[d] == if d in list[..k] then Recycled(old(delegs)[d]) else old(delegs)[d]
      {
        var d := list[k];
        var x := delegs[d];
        assert list[..k+1] == list[..k] + [d];
        assert x == Recycled(old(delegs)[d]) || x == old(delegs)[d];
        if ReturnDelayed in x.flags {
          delegs := delegs[d := x.(flags := x.flags + {Return} - {ReturnDelayed})];
          returnBit, any := true, true;
        }
      }
      assert list[..|list|] == list;
    }

    // nfs_delegation_grab_inode
    method GrabInode(d: nat, grab: bool) returns (ok: bool)
      requires d in delegs
      modifies this`delegs
      ensures ok == (grab && old(delegs)[d].inode.Some?)
      ensures Value() == if ok then old(Value()) else GrabFailed(old(Value()), d)
    {
      ok := grab && delegs[d].inode.Some?;
      if !ok { delegs := delegs[d := delegs[d].(flags := delegs[d].flags + {InodeFreeing}, owed := false)]; }
    }

    // One element of the walk: consume the mark and start the return if one is due.
    method VisitOne(d: nat, grab: bool) returns (taken: bool, valid: bool)
      requires d in delegs
      modifies this
      ensures Value() == VisitAlone(old(Value()), d, grab)
      ensures taken <==> Takes(old(delegs)[d], grab)
    {
      var x := delegs[d];
      taken, valid := false, false;
      if InodeFreeing in x.flags { return; }
      delegs := delegs[d := x.(flags := x.flags - {Return} + {})];
      if !NeedReturn(x) {
        valid := Valid(x);
        return;
      }
      taken := GrabInode(d, grab);
      if taken { var got := StartReturnLocked(x.inode.value); }
    }

    // The element at position k, with at least the first clean positions swept.
    method Visit1(k: nat, clean: nat, grab: bool) returns (taken: bool, valid: bool)
      requires Swept(Value(), clean) && k < |list| && k <= clean
      modifies this
      ensures list == old(list) && ptr == old(ptr) && returnBit == old(returnBit)
      ensures Tends(old(Value()), Value()) && Spares(old(Value()), Value())
      ensures Swept(Value(), if k < clean then clean else k + 1)
      ensures taken ==> k == clean && Returned(Value(), list[k]) && Returning in delegs[list[k]].flags
    {
      VisitAloneOk(Value(), list[k], grab);
      ghost var s := Value();
      taken, valid := VisitOne(list[k], grab);
      TouchSwept(s, Value(), k, clean);
      VisitAloneTends(s, list[k], grab);
    }

    // One pass over the list from position start to the next delegation to return.
    method Walk(start: nat, clean: nat, grab: nat -> bool, first: nat)
        returns (k: nat, prev: Option<nat>, swept: nat, tries: nat)
      requires Swept(Value(), clean) && start <= clean
      modifies this
      ensures list == old(list) && ptr == old(ptr) && returnBit == old(returnBit)
      ensures Tends(old(Value()), Value()) && Spares(old(Value()), Value())
      ensures clean <= swept && Swept(Value(), swept) && k <= |list| && (prev.Some? ==> prev.value < k)
      ensures if k == |list| then swept == k
              else clean < swept == k + 1 && Returned(Value(), list[k]) && Returning in delegs[list[k]].flags
    {
      k, prev, swept, tries := start, None, clean, first;
      while k < |list|
        invariant list == old(list) && ptr == old(ptr) && returnBit == old(returnBit)
        invariant Tends(old(Value()), Value()) && Spares(old(Value()), Value())
        invariant clean <= swept && Swept(Value(), swept) && k <= swept && (prev.Some? ==> prev.value < k)
      {
        var taken, valid := Visit1(k, swept, grab(tries));
        tries := tries + 1;
        swept := if k < swept then swept else k + 1;
        if taken { return; }
        if valid { prev := Some(k); }
        k := k + 1;
      }
    }

    // Move the place holder up to the last valid delegation before k, if its inode can be held.
    method MoveHolder(prev: nat, n: nat, grab: bool) returns (held: bool)
      requires Swept(Value(), n) && prev < n
      modifies this`delegs
      ensures Swept(Value(), n) && Tends(old(Value()), Value()) && Spares(old(Value()), Value())
      ensures forall d :: d in old(delegs) ==>
        d in delegs && delegs[d].returners == old(delegs)[d].returners &&
        (Returning in delegs[d].flags <==> Returning in old(delegs)[d].flags)
    {
      ghost var s := Value();
      held := GrabInode(list[prev], grab);
      if held { return; }
      TouchSwept(s, Value(), prev, n);
    }

    method FinishAt(k: nat, n: nat, result: Result)
      requires Swept(Value(), n) && k < n && Returned(Value(), list[k]) && Returning in delegs[list[k]].flags
      modifies this
      ensures Swept(Value(), n) && list == old(list) && ptr == old(ptr) && returnBit == old(returnBit)
      ensures (result.Done? ==> Tends(old(Value()), Value())) && Spares(old(Value()), Value())
    {
      FinishTouches(Value(), list[k], result);
      ghost var s := Value();
      EndDelegationReturn(list[k], result);
      TouchSwept(s, Value(), k, n);
    }

    // From the place holder to the next return and through it; ended at the end of the list.
    method Round(holder: nat, clean: nat, grab: nat -> bool, results: nat -> Result, first: nat)
        returns (ended: bool, ok: bool, next: nat, swept: nat, tries: nat)
      requires Swept(Value(), clean) && holder <= clean
      modifies this
      ensures Swept(Value(), swept) && list == old(list) && ptr == old(ptr) && returnBit == old(returnBit)
      ensures (ok ==> Tends(old(Value()), Value())) && Spares(old(Value()), Value())
      ensures !ok ==> exists d :: d in list && !results(d).Done?
      ensures ok ==> if ended then swept == |list| else next <= swept && clean < swept
    {
      var k, prev;
      k, prev, swept, tries := Walk(holder, clean, grab, first);
      ended, ok, next := k == |list|, true, holder;
      if ended { return; }
      if prev.Some? {
        var held := MoveHolder(prev.value, swept, grab(tries));
        tries := tries + 1;
        if held { next := prev.value; }
      }
      FinishAt(k, swept, results(list[k]));
      ok := results(list[k]).Done?;
    }

    // nfs_server_return_marked_delegations without interference: the scan restarts from the place
    // holder after every return and leaves no mark behind, unless a return failed.  grab(n) is the
    // outcome of the n-th attempt to hold an inode; every delegation is returned once at most.
    method ReturnMarked(grab: nat -> bool, results: nat -> Result) returns (ok: bool)
      requires Pointed(Value())
      modifies this
      ensures Pointed(Value()) && list == old(list) && ptr == old(ptr) && Spares(old(Value()), Value())
      ensures ok && old(returnBit) ==> !returnBit && Swept(Value(), |list|) && AllReturned(old(Value()), Value())
      ensures !ok ==> old(returnBit) && returnBit && exists d :: d in list && !results(d).Done?
      ensures ok && !old(returnBit) ==> Value() == old(Value())
    {
      if !returnBit { return true; }
      returnBit := false;
      var ended := false;
      var holder: nat, swept: nat, tries: nat := 0, 0, 0;
      while !ended
        invariant Swept(Value(), swept) && list == old(list) && ptr == old(ptr) && !returnBit
        invariant if ended then swept == |list| else holder <= swept
        invariant Tends(old(Value()), Value()) && Spares(old(Value()), Value())
        decreases !ended, |list| - swept
      {
        ended, ok, holder, swept, tries := Round(holder, swept, grab, results, tries);
        if !ok {
          returnBit := true;
          return false;
        }
      }
      SweptIsReturned(old(Value()), Value());
      ok := true;
    }
  }

  // Listed delegations exist and are their inode's delegation.
  ghost predicate Pointed(s: State) {
    forall k :: 0 <= k < |s.list| ==>
      var d := s.list[k];
      d in s.delegs && s.delegs[d].inode.Some? && s.delegs[d].inode.value in s.ptr && s.ptr[s.delegs[d].inode.value] == d
  }

  // Pointed, and the first n listed delegations hold no mark, except where the inode is going away.
  ghost predicate Swept(s: State, n: nat) {
    Pointed(s) && n <= |s.list| && forall m :: 0 <= m < n ==> !Pending(s.delegs[s.list[m]])
  }

  // Due for return, being returned, or with an inode that is going away.
  predicate Tended(x: Deleg) { NeedReturn(x) || Returning in x.flags || InodeFreeing in x.flags }

  // No delegation that was due is forgotten: it is still due, or its return has started or its inode is gone.
  ghost predicate Tends(s: State, t: State) {
    forall d :: d in s.delegs && Tended(s.delegs[d]) ==> d in t.delegs && Tended(t.delegs[d])
  }

  // No return starts that was not due.
  ghost predicate Spares(s: State, t: State) {
    forall d :: d in s.delegs && Undue(s.delegs[d]) ==> d in t.delegs && Undue(t.delegs[d])
  }

  predicate Undue(x: Deleg) { !NeedReturn(x) && Returning !in x.flags }

  // Every listed delegation that was due is being returned now, or its inode is going away.
  ghost predicate AllReturned(s: State, t: State) {
    forall d :: d in s.list && d in s.delegs && NeedReturn(s.delegs[d]) ==>
      d in t.delegs && (Returning in t.delegs[d].flags || InodeFreeing in t.delegs[d].flags)
  }

  lemma SweptIsReturned(s: State, t: State)
    requires Tends(s, t) && Swept(t, |t.list|) && s.list == t.list
    ensures AllReturned(s, t)
  {
    forall d | d in s.list && d in s.delegs && NeedReturn(s.delegs[d])
      ensures d in t.delegs && (Returning in t.delegs[d].flags || InodeFreeing in t.delegs[d].flags)
    {
      var k :| 0 <= k < |t.list| && t.list[k] == d;
      assert !Pending(t.delegs[t.list[k]]);
    }
  }

  lemma VisitAloneTends(s: State, d: nat, grab: bool)
    requires d in s.delegs
    requires s.delegs[d].inode.Some? ==> s.delegs[d].inode.value in s.ptr && s.ptr[s.delegs[d].inode.value] == d
    ensures Tends(s, VisitAlone(s, d, grab)) && Spares(s, VisitAlone(s, d, grab))
  {
    VisitAloneOk(s, d, grab);
    var x := s.delegs[d];
    if InodeFreeing !in x.flags && NeedReturn(x) && Takes(x, grab) {
      assert Returning in VisitAlone(s, d, grab).delegs[d].flags;
    }
  }

  // What the scan asks for holds in every reachable state.
  lemma ReachablePointed(es: seq<Event>)
    ensures Pointed(Run(es))
  {
    RunCoherent(es);
    var s := Run(es);
    forall k | 0 <= k < |s.list| ensures s.list[k] in s.delegs && Linked(s.delegs[s.list[k]]) {
      assert s.list[k] in s.list;
    }
  }

  predicate Takes(x: Deleg, grab: bool) {
    InodeFreeing !in x.flags && NeedReturn(x) && grab && x.inode.Some?
  }

  function VisitAlone(s: State, d: nat, grab: bool): State
    requires d in s.delegs
  {
    var x := s.delegs[d];
    if InodeFreeing in x.flags then s
    else
      var t := SetFlags(s, d, {}, {Return});
      if !NeedReturn(x) then t
      else if Takes(x, grab) then StartReturn(t, x.inode.value)
      else GrabFailed(t, d)
  }

  // Only the delegation d, and tags, change; its back pointer stays.
  ghost predicate OnlyTouches(s: State, t: State, d: nat)
    requires d in s.delegs
  {
    && d in t.delegs && t.delegs == s.delegs[d := t.delegs[d]] && t.delegs[d].inode == s.delegs[d].inode
    && t.list == s.list && t.ptr == s.ptr && t.returnBit == s.returnBit
  }

  lemma TouchPointed(s: State, t: State, d: nat)
    requires Pointed(s) && d in s.delegs && OnlyTouches(s, t, d)
    ensures Pointed(t)
  {
  }

  lemma TouchSwept(s: State, t: State, k: nat, n: nat)
    requires Swept(s, n) && k < |s.list| && OnlyTouches(s, t, s.list[k])
    requires Pending(t.delegs[s.list[k]]) ==> Pending(s.delegs[s.list[k]])
    ensures Swept(t, n)
    ensures k == n && !Pending(t.delegs[s.list[k]]) ==> Swept(t, n + 1)
  {
    TouchPointed(s, t, s.list[k]);
  }

  lemma BeginTouches(s: State, d: nat, drop: set<Flag>)
    requires d in s.delegs
    ensures OnlyTouches(s, Begin(s, d, drop), d)
    ensures Return in Begin(s, d, drop).delegs[d].flags ==> Return in s.delegs[d].flags
    ensures Returned(Begin(s, d, drop), d)
  {
  }

  lemma FlagTouches(s: State, d: nat)
    requires d in s.delegs
    ensures OnlyTouches(s, SetFlags(s, d, {}, {Return}), d)
    ensures d in SetFlags(s, d, {}, {Return}).delegs && Return !in SetFlags(s, d, {}, {Return}).delegs[d].flags
  {
  }

  lemma GrabTouches(s: State, d: nat)
    requires d in s.delegs
    ensures OnlyTouches(s, GrabFailed(s, d), d) && !Pending(GrabFailed(s, d).delegs[d])
  {
  }

  lemma TouchTwice(s: State, t: State, u: State, d: nat)
    requires d in s.delegs && OnlyTouches(s, t, d) && OnlyTouches(t, u, d)
    ensures OnlyTouches(s, u, d)
  {
  }

  // At a listed delegation: nothing else changes, no mark stays, and a taken one is being returned.
  lemma VisitAloneOk(s: State, d: nat, grab: bool)
    requires d in s.delegs
    requires s.delegs[d].inode.Some? ==> s.delegs[d].inode.value in s.ptr && s.ptr[s.delegs[d].inode.value] == d
    ensures var t := VisitAlone(s, d, grab);
      && OnlyTouches(s, t, d) && !Pending(t.delegs[d])
      && (Takes(s.delegs[d], grab) ==> Returned(t, d) && Returning in t.delegs[d].flags)
  {
    var x := s.delegs[d];
    if InodeFreeing !in x.flags {
      var t := SetFlags(s, d, {}, {Return});
      FlagTouches(s, d);
      if Takes(x, grab) {
        BeginTouches(t, d, {ReturnDelayed});
        TouchTwice(s, t, Begin(t, d, {ReturnDelayed}), d);
      } else if NeedReturn(x) {
        hide OnlyTouches;
        GrabTouches(t, d);
        TouchTwice(s, t, GrabFailed(t, d), d);
      }
    }
  }

  lemma FinishTouches(s: State, d: nat, result: Result)
    requires Returned(s, d)
    ensures OnlyTouches(s, Finish(s, d, result), d)
    ensures Pending(Finish(s, d, result).delegs[d]) ==> Pending(s.delegs[d])
  {
  }

  predicate Pending(x: Deleg) { Return in x.flags && InodeFreeing !in x.flags }

  // RETURN_DELAYED turned into RETURN.
  function Recycled(x: Deleg): Deleg {
    if ReturnDelayed in x.flags then x.(flags := x.flags + {Return} - {ReturnDelayed}) else x
  }
}
