/**
 Conservation of nfs_active_delegations: over every run it is the number of published
 delegations that are not revoked, minus the number of duplicate grants thrown away, which
 are counted out without ever having been counted in.
 */
module DelegationCount {
  import opened Delegation
  import opened DelegationCoherence

  predicate IsLive(x: Deleg) { x.published && Revoked !in x.flags }

  predicate IsDiscarded(x: Deleg) { !x.published && Revoked in x.flags }

  ghost function Live(delegs: map<nat, Deleg>): set<nat> {
    set d | d in delegs && IsLive(delegs[d])
  }

  // Duplicate grants that have been freed.
  ghost function Discarded(delegs: map<nat, Deleg>): set<nat> {
    set d | d in delegs && IsDiscarded(delegs[d])
  }

  ghost predicate Counted(s: State) {
    s.active == Total(s.delegs)
  }

  // Nobody's revocation changed.
  ghost predicate SameCount(s: State, t: State) {
    && t.active == s.active && t.delegs.Keys == s.delegs.Keys
    && forall d :: d in s.delegs ==> SameRevocation(s.delegs[d], t.delegs[d])
  }

  predicate SameRevocation(x: Deleg, y: Deleg) {
    y.published == x.published && (Revoked in y.flags <==> Revoked in x.flags)
  }

  lemma SameCounted(s: State, t: State)
    requires Counted(s) && SameCount(s, t)
    ensures Counted(t)
  {
    assert Live(t.delegs) == Live(s.delegs);
    assert Discarded(t.delegs) == Discarded(s.delegs);
  }

  lemma CountTrans(s: State, t: State, u: State)
    requires SameCount(s, t) && SameCount(t, u)
    ensures SameCount(s, u)
  {
  }

  lemma PutCount(s: State, d: nat, x: Deleg)
    requires d in s.delegs && SameRevocation(s.delegs[d], x)
    ensures SameCount(s, Put(s, d, x))
  {
  }

  lemma Untouched(s: State, t: State)
    requires t.delegs == s.delegs && t.active == s.active
    ensures SameCount(s, t)
  {
  }

  lemma SetFlagsCount(s: State, d: nat, add: set<Flag>, drop: set<Flag>)
    requires d in s.delegs && Revoked !in add && Revoked !in drop
    ensures SameCount(s, SetFlags(s, d, add, drop))
  {
    PutCount(s, d, s.delegs[d].(flags := s.delegs[d].flags - drop + add));
  }

  lemma GrabFailedCount(s: State, d: nat)
    requires d in s.delegs
    ensures SameCount(s, GrabFailed(s, d))
  {
    PutCount(s, d, s.delegs[d].(flags := s.delegs[d].flags + {InodeFreeing}, owed := false));
  }

  // What one delegation adds to the count.
  function Weight(x: Deleg): int {
    if x.published then (if Revoked in x.flags then 0 else 1) else if Revoked in x.flags then -1 else 0
  }

  ghost function Total(delegs: map<nat, Deleg>): int { |Live(delegs)| - |Discarded(delegs)| }

  lemma LivePut(delegs: map<nat, Deleg>, d: nat, x: Deleg)
    ensures Live(delegs[d := x]) == Live(delegs) - {d} + (if IsLive(x) then {d} else {})
    ensures d in Live(delegs) <==> d in delegs && IsLive(delegs[d])
  {
  }

  lemma DiscardedPut(delegs: map<nat, Deleg>, d: nat, x: Deleg)
    ensures Discarded(delegs[d := x]) == Discarded(delegs) - {d} + (if IsDiscarded(x) then {d} else {})
    ensures d in Discarded(delegs) <==> d in delegs && IsDiscarded(delegs[d])
  {
  }

  lemma CardSwap(a: set<nat>, d: nat, keep: bool)
    ensures |a - {d} + (if keep then {d} else {})| == |a| - (if d in a then 1 else 0) + (if keep then 1 else 0)
  {
    if keep {
      assert a - {d} + {d} == a + {d};
    } else {
      assert a - {d} + {} == a - {d};
    }
  }

  lemma TotalPut(delegs: map<nat, Deleg>, d: nat, x: Deleg)
    ensures Total(delegs[d := x]) == Total(delegs) + Weight(x) - (if d in delegs then Weight(delegs[d]) else 0)
  {
    hide Live, Discarded;
    LivePut(delegs, d, x);
    CardSwap(Live(delegs), d, IsLive(x));
    DiscardedPut(delegs, d, x);
    CardSwap(Discarded(delegs), d, IsDiscarded(x));
  }

  lemma MarkRevokedCounted(s: State, d: nat)
    requires Counted(s) && d in s.delegs
    ensures Counted(MarkRevoked(s, d)) && d in MarkRevoked(s, d).delegs
  {
    TotalPut(s.delegs, d, s.delegs[d].(flags := s.delegs[d].flags + {Revoked}, owed := false));
  }

  lemma UnrevokedCounted(s: State, d: nat)
    requires Counted(s) && d in s.delegs && s.delegs[d].published
    ensures Counted(Unrevoked(s, d))
  {
    TotalPut(s.delegs, d, s.delegs[d].(flags := s.delegs[d].flags - {Revoked} + {}));
  }

  lemma PublishCounted(s: State, i: nat, d: nat, mode: Mode, sid: Stateid, dt: bool)
    requires Counted(s) && d !in s.delegs
    ensures Counted(Publish(s, i, d, mode, sid, dt))
  {
    TotalPut(s.delegs, d, Publish(s, i, d, mode, sid, dt).delegs[d]);
  }

  lemma DuplicateCounted(s: State, i: nat, d: nat, mode: Mode, sid: Stateid, dt: bool)
    requires Counted(s) && d !in s.delegs
    ensures Counted(Duplicate(s, i, d, mode, sid, dt))
  {
    TotalPut(s.delegs, d, Duplicate(s, i, d, mode, sid, dt).delegs[d]);
  }

  lemma UpdateInPlaceCounted(s: State, d: nat, mode: Mode, sid: Stateid)
    requires Counted(s) && d in s.delegs && s.delegs[d].published
    ensures Counted(UpdateInPlace(s, d, mode, sid))
  {
    var x := s.delegs[d].(stateid := s.delegs[d].stateid.(seqid := sid.seqid), mode := mode);
    PutCount(s, d, x);
    SameCounted(s, Put(s, d, x));
    UnrevokedCounted(Put(s, d, x), d);
  }

  lemma DetachCount(s: State, d: nat, revoke: bool)
    requires d in s.delegs
    ensures SameCount(s, Detach(s, d, revoke)) && d in Detach(s, d, revoke).delegs
  {
  }

  lemma GrantCounted(s: State, i: nat, d: nat, mode: Mode, sid: Stateid, dt: bool)
    requires Coherent(s) && Counted(s) && d !in s.delegs
    ensures Counted(Grant(s, i, d, mode, sid, dt))
  {
    hide Linkage, Refs, Total;
    if i !in s.ptr {
      PublishCounted(s, i, d, mode, sid, dt);
    } else {
      PointerKnown(s, i);
      var o := s.ptr[i];
      UpdateInPlaceCounted(s, o, mode, sid);
      DuplicateCounted(s, i, d, mode, sid, dt);
      ReplaceCounted(s, o, i, d, mode, sid, dt);
    }
  }

  lemma ReplaceCounted(s: State, o: nat, i: nat, d: nat, mode: Mode, sid: Stateid, dt: bool)
    requires Counted(s) && d !in s.delegs && o in s.delegs
    ensures var t := if Revoked in s.delegs[o].flags then s else SetFlags(s, o, {Returning}, {});
      Counted(t) && d !in Detach(t, o, true).delegs && Counted(Publish(Detach(t, o, true), i, d, mode, sid, dt))
  {
    hide Total;
    var x := s.delegs[o];
    PutCount(s, o, x.(flags := x.flags - {} + {Returning}));
    SameCounted(s, SetFlags(s, o, {Returning}, {}));
    var t := if Revoked in x.flags then s else SetFlags(s, o, {Returning}, {});
    DetachCount(t, o, true);
    SameCounted(t, Detach(t, o, true));
    PublishCounted(Detach(t, o, true), i, d, mode, sid, dt);
  }

  lemma ReclaimCounted(s: State, i: nat, d: nat, mode: Mode, sid: Stateid, dt: bool)
    requires Coherent(s) && Counted(s) && d !in s.delegs
    ensures Counted(Reclaim(s, i, d, mode, sid, dt))
  {
    hide Linkage, Refs, Total;
    GrantCounted(s, i, d, mode, sid, dt);
    if i in s.ptr {
      PointerKnown(s, i);
      RefreshCounted(s, s.ptr[i], mode, sid, dt);
    }
  }

  lemma RefreshCounted(s: State, o: nat, mode: Mode, sid: Stateid, dt: bool)
    requires Counted(s) && o in s.delegs && s.delegs[o].published
    ensures var x := s.delegs[o].(stateid := sid, mode := mode,
        flags := s.delegs[o].flags - {NeedReclaim, DelegTime} + (if dt then {DelegTime} else {}));
      Counted(Unrevoked(Put(s, o, x), o))
  {
    var x := s.delegs[o].(stateid := sid, mode := mode,
      flags := s.delegs[o].flags - {NeedReclaim, DelegTime} + (if dt then {DelegTime} else {}));
    PutCount(s, o, x);
    SameCounted(s, Put(s, o, x));
    UnrevokedCounted(Put(s, o, x), o);
  }

  lemma ReseqRevokeCounted(s: State, d: nat, seqid: Seqid)
    requires Counted(s) && d in s.delegs
    ensures Counted(MarkRevoked(Reseq(s, d, seqid), d))
  {
    SameCounted(s, Reseq(s, d, seqid));
    MarkRevokedCounted(Reseq(s, d, seqid), d);
  }

  lemma SurrenderCounted(s: State, d: nat, seqid: Seqid)
    requires Counted(s) && d in s.delegs
    ensures Counted(Surrender(s, d, seqid))
  {
    hide Total;
    ReseqRevokeCounted(s, d, seqid);
    var r := MarkRevoked(Reseq(s, d, seqid), d);
    SameCounted(r, SetFlags(r, d, {}, {Returning}));
  }

  lemma DropBaseCounted(s: State, d: nat)
    requires Counted(s) && d in s.delegs && s.delegs[d].base.Dropping?
    ensures Counted(DropBase(s, d))
  {
    hide Total, SameCount;
    MarkRevokedCounted(s, d);
    var t := if s.delegs[d].base.revoke then MarkRevoked(s, d) else s;
    var x := t.delegs[d].(refcount := t.delegs[d].refcount - 1, base := Dropped);
    PutCount(t, d, x);
    SameCounted(t, Put(t, d, x));
  }

  lemma EvictCounted(s: State, i: nat)
    requires Counted(s)
    ensures Counted(Evict(s, i))
  {
    hide Total;
    if i in s.ptr && s.ptr[i] in s.delegs {
      var d := s.ptr[i];
      DetachCount(s, d, true);
      var t := Detach(s, d, true);
      SameCounted(s, t);
      PutCount(t, d, t.delegs[d].(flags := t.delegs[d].flags - {} + {Returning, InodeFreeing}));
      SameCounted(t, SetFlags(t, d, {Returning, InodeFreeing}, {}));
    }
  }

  lemma RemoveCounted(s: State, r: Removal)
    requires Counted(s) && CanRemove(s, r)
    ensures Counted(RemoveStep(s, r))
  {
    hide Total;
    match r
    case Revoking(i, sid) =>
      if i in s.ptr && s.ptr[i] in s.delegs {
        MarkRevokedCounted(s, s.ptr[i]);
        if sid.Some? { ReseqRevokeCounted(s, s.ptr[i], sid.value.seqid); }
      }
    case MarkingReturned(i, sid) =>
      if i in s.ptr && s.ptr[i] in s.delegs {
        SurrenderCounted(s, s.ptr[i], sid.seqid);
        SameCounted(s, SetFlags(s, s.ptr[i], {}, {Returning}));
      }
    case DetachingReturned(d) =>
      DetachCount(s.(toDetach := s.toDetach - multiset{d}), d, false);
      SameCounted(s, RemoveStep(s, r));
    case ReapDetaching(d) =>
      DetachCount(s, d, true);
      SameCounted(s, RemoveStep(s, r));
    case DroppingBase(d) => DropBaseCounted(s, d);
    case Evicting(i) => EvictCounted(s, i);
  }

  lemma BeginCount(s: State, d: nat, drop: set<Flag>)
    requires d in s.delegs && Revoked !in drop
    ensures SameCount(s, Begin(s, d, drop))
  {
  }

  lemma FinishCount(s: State, d: nat, result: Result)
    requires Returned(s, d)
    ensures SameCount(s, Finish(s, d, result))
  {
  }

  lemma ReturnCount(s: State, r: Returner)
    requires CanReturn(s, r)
    ensures SameCount(s, ReturnStep(s, r))
  {
    match r
    case Starting(i) => if Startable(s, i).Some? { BeginCount(s, s.ptr[i], {ReturnDelayed}); }
    case SettingOnClose(i, _) => if i in s.ptr && s.ptr[i] in s.delegs { BeginCount(s, s.ptr[i], {}); }
    case OnClose(i, _, _) => if i in s.ptr && s.ptr[i] in s.delegs { BeginCount(s, s.ptr[i], {ReturnIfClosed}); }
    case Finishing(d, result) => FinishCount(s, d, result);
  }

  lemma MarkIfClosedCount(s: State, d: nat, closed: bool)
    requires d in s.delegs
    ensures SameCount(s, MarkIfClosed(s, d, closed))
  {
    SetFlagsCount(s, d, {Return}, {});
    SetFlagsCount(s, d, {ReturnIfClosed}, {});
  }

  lemma MarkCount(s: State, d: nat, m: Mark)
    requires d in s.delegs
    ensures SameCount(s, ApplyMark(s, d, m))
  {
    match m
    case ToReturn => SetFlagsCount(s, d, {Return}, {});
    case IfClosed(closed) => MarkIfClosedCount(s, d, closed);
    case Unreferenced(closed) =>
      SetFlagsCount(s, d, {}, {Referenced});
      MarkIfClosedCount(s, d, closed);
    case ToReclaim => SetFlagsCount(s, d, {NeedReclaim}, {});
    case ToTest => SetFlagsCount(s, d, {TestExpired}, {NeedReclaim});
    case Tested => SetFlagsCount(s, d, {}, {TestExpired});
    case Unreachable => GrabFailedCount(s, d);
  }

  lemma TakeCount(s: State, inode: nat, grabPrev: bool)
    requires s.scan.Walking?
    ensures SameCount(s, Take(s, inode, grabPrev))
  {
    var u := GrabPrev(s, s.scan.prev, grabPrev);
    assert SameCount(s, u);
    if Startable(u, inode).Some? { BeginCount(u, u.ptr[inode], {ReturnDelayed}); }
    CountTrans(s, u, StartReturn(u, inode));
  }

  lemma VisitCount(s: State, grab: bool, grabPrev: bool)
    requires CanScan(s, VisitNext(grab, grabPrev))
    ensures SameCount(s, Visit(s, grab, grabPrev))
  {
    var d := s.scan.ahead[0];
    var x := s.delegs[d];
    var t := SetFlags(s, d, {}, {Return});
    SetFlagsCount(s, d, {}, {Return});
    if InodeFreeing !in x.flags && NeedReturn(x) {
      if grab && x.inode.Some? {
        hide SameCount;
        TakeCount(t, x.inode.value, grabPrev);
        CountTrans(s, t, Take(t, x.inode.value, grabPrev));
      } else {
        hide SameRevocation;
        GrabFailedCount(t, d);
        CountTrans(s, t, GrabFailed(t, d));
      }
    }
  }

  lemma ClearVisitCount(s: State)
    requires CanScan(s, ClearNext)
    ensures SameCount(s, ClearVisit(s))
  {
    hide SetFlags;
    var d := s.scan.ahead[0];
    var t := s.(scan := Clearing(s.scan.ahead[1..]));
    SetFlagsCount(t, d, {Return}, {});
    SetFlagsCount(MarkReturn(t, d), d, {}, {ReturnDelayed});
    CountTrans(t, MarkReturn(t, d), SetFlags(MarkReturn(t, d), d, {}, {ReturnDelayed}));
  }

  lemma ScanCount(s: State, c: Scanner)
    requires CanScan(s, c)
    ensures SameCount(s, ScanStep(s, c))
  {
    hide SameRevocation;
    match c
    case VisitNext(grab, grabPrev) => VisitCount(s, grab, grabPrev);
    case Resume(result) =>
      if s.scan.deleg.Some? { FinishCount(s, s.scan.deleg.value, result); } else { Untouched(s, ScanStep(s, c)); }
    case ClearNext => ClearVisitCount(s);
    case _ => Untouched(s, ScanStep(s, c));
  }

  lemma StepCounted(s: State, e: Event)
    requires Coherent(s) && Counted(s) && Enabled(s, e)
    ensures Counted(Step(s, e))
  {
    hide Linkage, Refs, Total;
    match e
    case Granted(o) => GrantCounted(s, o.inode, o.d, o.mode, o.stateid, o.delegTime);
    case Reclaimed(o) => ReclaimCounted(s, o.inode, o.d, o.mode, o.stateid, o.delegTime);
    case Removes(r) => RemoveCounted(s, r);
    case Returner(r) => ReturnCount(s, r); SameCounted(s, ReturnStep(s, r));
    case Marks(d, m) => MarkCount(s, d, m); SameCounted(s, ApplyMark(s, d, m));
    case Verifies(i, alias, current) => SameCounted(s, SetVerifier(s, i, alias, current));
    case DropsAlias(i, alias) =>
    case Scans(c) => ScanCount(s, c); SameCounted(s, ScanStep(s, c));
  }

  // The conservation law.
  lemma {:induction false} ActiveCount(es: seq<Event>)
    ensures var s := Run(es);
      s.active == |Live(s.delegs)| - |Discarded(s.delegs)|
  {
    if es == [] {
      assert Live(map[]) == {} && Discarded(map[]) == {};
    } else {
      var s := Run(es[..|es|-1]);
      ActiveCount(es[..|es|-1]);
      RunCoherent(es[..|es|-1]);
      if Enabled(s, es[|es|-1]) { StepCounted(s, es[|es|-1]); }
    }
  }

  function Grant1(): Event { Granted(Offer(0, 0, Mode(true, false), Stateid(1, 1), false)) }

  function Grant2(): Event { Granted(Offer(0, 1, Mode(true, false), Stateid(2, 1), false)) }

  lemma AfterDuplicate()
    ensures Run([Grant1(), Grant2()]) ==
      Duplicate(Publish(Empty(), 0, 0, Mode(true, false), Stateid(1, 1), false), 0, 1, Mode(true, false), Stateid(2, 1), false)
  {
    RunSnoc([], Grant1());
    assert [] + [Grant1()] == [Grant1()];
    RunSnoc([Grant1()], Grant2());
    assert [Grant1()] + [Grant2()] == [Grant1(), Grant2()];
  }

  lemma DropDuplicate(s: State)
    requires 1 in s.delegs && s.delegs[1].base == Dropping(true) && !s.delegs[1].published
    ensures 1 in Discarded(DropBase(s, 1).delegs)
  {
  }

  // The counter therefore undercounts: one duplicate grant, freed, leaves it at zero although a
  // delegation is held.
  lemma DuplicateGrantUndercounts()
    ensures exists es :: Run(es).active < |Live(Run(es).delegs)|
  {
    hide Live, DropBase, Run;
    var es := [Grant1(), Grant2()];
    AfterDuplicate();
    DropDuplicate(Run(es));
    RunSnoc(es, Removes(DroppingBase(1)));
    ActiveCount(es + [Removes(DroppingBase(1))]);
  }
}
