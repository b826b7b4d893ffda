/**
 Coherence and reference counts: in every reachable state a published delegation is on the
 server's list exactly while its inode back pointer is set and the inode points to it, it
 is detached exactly once, and it holds references for its base owner and its returners.
 */
module DelegationCoherence {
  import opened Wrappers
  import opened Delegation
  import opened Lists

  predicate Linked(x: Deleg) { x.published && x.inode.Some? }

  predicate RefsOk(x: Deleg) {
    && x.refcount == x.returners + (if x.base.Dropped? then 0 else 1)
    && (if x.published then
          (x.inode.Some? <==> x.base.Attached?) && x.detaches == (if x.base.Attached? then 0 else 1)
        else !x.base.Attached? && x.returners == 0 && x.detaches == 0)
  }

  ghost predicate Linkage(delegs: map<nat, Deleg>, list: seq<nat>, ptr: map<nat, nat>) {
    && NoRepeats(list)
    && (forall d :: d in list <==> d in delegs && Linked(delegs[d]))
    && (forall i :: i in ptr ==> ptr[i] in delegs && Linked(delegs[ptr[i]]) && delegs[ptr[i]].inode == Some(i))
    && (forall d :: d in delegs && Linked(delegs[d]) ==>
          delegs[d].inode.value in ptr && ptr[delegs[d].inode.value] == d)
  }

  ghost predicate Refs(delegs: map<nat, Deleg>) {
    forall d :: d in delegs ==> RefsOk(delegs[d])
  }

  ghost predicate Coherent(s: State) {
    Linkage(s.delegs, s.list, s.ptr) && Refs(s.delegs)
  }

  // ---------------------------------------------------------- step relations

  // Nothing that coherence depends on changed.
  ghost predicate SameShape(s: State, t: State) {
    && t.list == s.list && t.ptr == s.ptr && t.delegs.Keys == s.delegs.Keys
    && forall d :: d in s.delegs ==> SameLinks(s.delegs[d], t.delegs[d])
  }

  predicate SameLinks(x: Deleg, y: Deleg) {
    && y.published == x.published && y.inode == x.inode && y.refcount == x.refcount
    && y.base == x.base && y.returners == x.returners && y.detaches == x.detaches
  }

  lemma SameShapeCoherent(s: State, t: State)
    requires Coherent(s) && SameShape(s, t)
    ensures Coherent(t)
  {
  }

  // One delegation's references change, its links do not.
  lemma RecountCoherent(s: State, d: nat, x: Deleg)
    requires Coherent(s) && d in s.delegs
    requires x.published == s.delegs[d].published && x.inode == s.delegs[d].inode && RefsOk(x)
    ensures Coherent(Put(s, d, x))
  {
  }

  lemma PutShape(s: State, d: nat, x: Deleg)
    requires d in s.delegs && SameLinks(s.delegs[d], x)
    ensures SameShape(s, Put(s, d, x))
  {
  }

  lemma SetFlagsShape(s: State, d: nat, add: set<Flag>, drop: set<Flag>)
    requires d in s.delegs
    ensures SameShape(s, SetFlags(s, d, add, drop))
  {
    PutShape(s, d, s.delegs[d].(flags := s.delegs[d].flags - drop + add));
  }

  lemma GrabFailedShape(s: State, d: nat)
    requires d in s.delegs
    ensures SameShape(s, GrabFailed(s, d))
  {
    PutShape(s, d, s.delegs[d].(flags := s.delegs[d].flags + {InodeFreeing}, owed := false));
  }

  lemma ShapeTrans(s: State, t: State, u: State)
    requires SameShape(s, t) && SameShape(t, u)
    ensures SameShape(s, u)
  {
  }

  lemma LinkedPointer(s: State, d: nat)
    requires Coherent(s) && d in s.delegs && Linked(s.delegs[d])
    ensures s.delegs[d].inode.value in s.ptr && s.ptr[s.delegs[d].inode.value] == d
  {
  }

  // An unlinked delegation leaves list and pointers.
  lemma UnlinkLinkage(delegs: map<nat, Deleg>, list: seq<nat>, ptr: map<nat, nat>, d: nat, y: Deleg)
    requires Linkage(delegs, list, ptr) && d in delegs && Linked(delegs[d]) && y.inode.None?
    ensures Linkage(delegs[d := y], Without(list, d), ptr - {delegs[d].inode.value})
  {
    WithoutNoRepeats(list, d);
    var gone := delegs[d].inode.value;
    var left := ptr - {gone};
    var now := delegs[d := y];
    forall i | i in left ensures left[i] in now && Linked(now[left[i]]) && now[left[i]].inode == Some(i) {
      assert ptr[i] != d;
    }
    forall e | e in now && Linked(now[e]) ensures now[e].inode.value in left && left[now[e].inode.value] == e {
      assert e != d && ptr[delegs[e].inode.value] == e && ptr[gone] == d;
    }
  }

  lemma DetachRefs(s: State, d: nat, revoke: bool)
    requires Refs(s.delegs) && d in s.delegs && Linked(s.delegs[d])
    ensures Refs(Detach(s, d, revoke).delegs)
  {
    assert RefsOk(s.delegs[d]);
  }

  lemma DetachCoherent(s: State, d: nat, revoke: bool)
    requires Coherent(s) && d in s.delegs
    ensures Coherent(Detach(s, d, revoke))
    ensures s.delegs[d].published ==> Detach(s, d, revoke).delegs[d].inode == None
    ensures Detach(s, d, revoke) == s <==> !Linked(s.delegs[d])
  {
    if Linked(s.delegs[d]) {
      hide Linkage, Refs;
      LinkedPointer(s, d);
      UnlinkLinkage(s.delegs, s.list, s.ptr, d, Detach(s, d, revoke).delegs[d]);
      DetachRefs(s, d, revoke);
    }
  }

  lemma PublishCoherent(s: State, i: nat, d: nat, mode: Mode, sid: Stateid, dt: bool)
    requires Coherent(s) && d !in s.delegs && i !in s.ptr
    ensures Coherent(Publish(s, i, d, mode, sid, dt))
  {
    var t := Publish(s, i, d, mode, sid, dt);
    assert d !in s.list;
    assert forall x :: x in t.list <==> x in s.list || x == d;
    forall x | x in t.delegs && Linked(t.delegs[x])
      ensures t.delegs[x].inode.value in t.ptr && t.ptr[t.delegs[x].inode.value] == x
    {
      if x != d { assert x in s.delegs; }
    }
  }

  lemma DuplicateCoherent(s: State, i: nat, d: nat, mode: Mode, sid: Stateid, dt: bool)
    requires Coherent(s) && d !in s.delegs
    ensures Coherent(Duplicate(s, i, d, mode, sid, dt))
  {
    assert d !in s.list;
  }

  lemma UpdateInPlaceShape(s: State, d: nat, mode: Mode, sid: Stateid)
    requires d in s.delegs
    ensures SameShape(s, UpdateInPlace(s, d, mode, sid))
  {
    var x := s.delegs[d].(stateid := s.delegs[d].stateid.(seqid := sid.seqid), mode := mode);
    PutShape(s, d, x);
    UnrevokedShape(Put(s, d, x), d);
    ShapeTrans(s, Put(s, d, x), Unrevoked(Put(s, d, x), d));
  }

  lemma UnrevokedShape(s: State, d: nat)
    requires d in s.delegs
    ensures SameShape(s, Unrevoked(s, d))
  {
    SetFlagsShape(s, d, {}, {Revoked});
  }

  // The old delegation goes, the new one is published.
  lemma ReplaceCoherent(s: State, t: State, i: nat, d: nat, mode: Mode, sid: Stateid, dt: bool)
    requires Coherent(s) && d !in s.delegs && i in s.ptr && SameShape(s, t)
    ensures var u := Detach(t, s.ptr[i], true);
      Coherent(t) && u != t && Coherent(Publish(u, i, d, mode, sid, dt))
  {
    SameShapeCoherent(s, t);
    DetachCoherent(t, s.ptr[i], true);
    PublishCoherent(Detach(t, s.ptr[i], true), i, d, mode, sid, dt);
  }

  lemma PointerKnown(s: State, i: nat)
    requires Coherent(s) && i in s.ptr
    ensures s.ptr[i] in s.delegs && Linked(s.delegs[s.ptr[i]]) && s.delegs[s.ptr[i]].inode == Some(i)
  {
  }

  lemma GrantCoherent(s: State, i: nat, d: nat, mode: Mode, sid: Stateid, dt: bool)
    requires Coherent(s) && d !in s.delegs
    ensures Coherent(Grant(s, i, d, mode, sid, dt))
  {
    hide Linkage, Refs;
    if i !in s.ptr {
      PublishCoherent(s, i, d, mode, sid, dt);
    } else {
      PointerKnown(s, i);
      var o := s.ptr[i];
      UpdateInPlaceShape(s, o, mode, sid);
      SameShapeCoherent(s, UpdateInPlace(s, o, mode, sid));
      DuplicateCoherent(s, i, d, mode, sid, dt);
      var t := if Revoked in s.delegs[o].flags then s else SetFlags(s, o, {Returning}, {});
      SetFlagsShape(s, o, {Returning}, {});
      ReplaceCoherent(s, t, i, d, mode, sid, dt);
    }
  }

  lemma RefsAt(s: State, d: nat)
    requires Coherent(s) && d in s.delegs
    ensures RefsOk(s.delegs[d])
  {
  }

  lemma BeginCoherent(s: State, d: nat, drop: set<Flag>)
    requires Coherent(s) && d in s.delegs && Linked(s.delegs[d])
    ensures Coherent(Begin(s, d, drop))
  {
    hide Linkage, Refs;
    var x := s.delegs[d];
    RefsAt(s, d);
    RecountCoherent(s, d, x.(flags := x.flags - drop + {Returning}, refcount := x.refcount + 1,
                             returners := x.returners + 1, owed := false));
  }

  lemma AbortShape(s: State, d: nat, again: bool)
    requires d in s.delegs
    ensures SameShape(s, AbortReturn(s, d, again))
  {
  }

  lemma EndCoherent(s: State, d: nat)
    requires Coherent(s) && Returned(s, d)
    ensures Coherent(EndReturn(s, d))
  {
    hide Linkage, Refs;
    var x := s.delegs[d];
    RefsAt(s, d);
    RecountCoherent(s, d, x.(refcount := x.refcount - 1, returners := x.returners - 1));
  }

  lemma FinishCoherent(s: State, d: nat, result: Result)
    requires Coherent(s) && Returned(s, d)
    ensures Coherent(Finish(s, d, result))
  {
    if result.Aborted? {
      AbortShape(s, d, result.again);
      SameShapeCoherent(s, AbortReturn(s, d, result.again));
      EndCoherent(AbortReturn(s, d, result.again), d);
    } else {
      EndCoherent(s, d);
    }
  }

  lemma ReleaseCoherent(s: State, d: nat)
    requires Coherent(s) && d in s.delegs && s.delegs[d].base.Dropping?
    ensures Coherent(Put(s, d, s.delegs[d].(refcount := s.delegs[d].refcount - 1, base := Dropped)))
  {
    hide Linkage, Refs;
    RefsAt(s, d);
    RecountCoherent(s, d, s.delegs[d].(refcount := s.delegs[d].refcount - 1, base := Dropped));
  }

  lemma DropBaseCoherent(s: State, d: nat)
    requires Coherent(s) && d in s.delegs && s.delegs[d].base.Dropping?
    ensures Coherent(DropBase(s, d))
  {
    hide Linkage, Refs;
    var t := if s.delegs[d].base.revoke then MarkRevoked(s, d) else s;
    MarkRevokedShape(s, d);
    SameShapeCoherent(s, t);
    ReleaseCoherent(t, d);
  }

  lemma EvictCoherent(s: State, i: nat)
    requires Coherent(s)
    ensures Coherent(Evict(s, i))
  {
    if i in s.ptr {
      var d := s.ptr[i];
      DetachCoherent(s, d, true);
      var t := Detach(s, d, true);
      SameShapeCoherent(t, SetFlags(t, d, {Returning, InodeFreeing}, {}));
    }
  }

  lemma TakeCoherent(s: State, inode: nat, grabPrev: bool)
    requires Coherent(s) && s.scan.Walking?
    ensures Coherent(Take(s, inode, grabPrev))
  {
    hide Linkage, Refs;
    var u := GrabPrev(s, s.scan.prev, grabPrev);
    if u != s { GrabFailedShape(s, s.scan.prev.value); }
    SameShapeCoherent(s, u);
    StartCoherent(u, inode);
    SameShapeCoherent(StartReturn(u, inode), Take(s, inode, grabPrev));
  }

  // An element the walk passes by.
  lemma PassShape(s: State, grab: bool, grabPrev: bool)
    requires CanScan(s, VisitNext(grab, grabPrev))
    requires var x := s.delegs[s.scan.ahead[0]];
      InodeFreeing in x.flags || !NeedReturn(x) || !grab || x.inode.None?
    ensures SameShape(s, Visit(s, grab, grabPrev))
  {
    var d := s.scan.ahead[0];
    var t := SetFlags(s, d, {}, {Return});
    SetFlagsShape(s, d, {}, {Return});
    GrabFailedShape(t, d);
    ShapeTrans(s, t, GrabFailed(t, d));
  }

  lemma VisitCoherent(s: State, grab: bool, grabPrev: bool)
    requires Coherent(s) && CanScan(s, VisitNext(grab, grabPrev))
    ensures Coherent(Visit(s, grab, grabPrev))
  {
    hide Linkage, Refs;
    var d := s.scan.ahead[0];
    var x := s.delegs[d];
    if InodeFreeing !in x.flags && NeedReturn(x) && grab && x.inode.Some? {
      var t := SetFlags(s, d, {}, {Return});
      SetFlagsShape(s, d, {}, {Return});
      SameShapeCoherent(s, t);
      TakeCoherent(t, x.inode.value, grabPrev);
    } else {
      PassShape(s, grab, grabPrev);
      SameShapeCoherent(s, Visit(s, grab, grabPrev));
    }
  }

  lemma StartCoherent(s: State, i: nat)
    requires Coherent(s)
    ensures Coherent(StartReturn(s, i))
  {
    if Startable(s, i).Some? { BeginCoherent(s, s.ptr[i], {ReturnDelayed}); }
  }

  lemma ResumeCoherent(s: State, result: Result)
    requires Coherent(s) && CanScan(s, Resume(result))
    ensures Coherent(ScanResume(s, result))
  {
    if s.scan.deleg.Some? {
      FinishCoherent(s, s.scan.deleg.value, result);
      SameShapeCoherent(Finish(s, s.scan.deleg.value, result), ScanResume(s, result));
    }
  }

  lemma MarkRevokedShape(s: State, d: nat)
    requires d in s.delegs
    ensures SameShape(s, MarkRevoked(s, d))
  {
    if Revoked !in s.delegs[d].flags {
      hide SameLinks;
      PutShape(s, d, s.delegs[d].(flags := s.delegs[d].flags + {Revoked}, owed := false));
    }
  }

  // Revoking after the stateid's sequence number was updated.
  lemma ReseqRevokeShape(s: State, d: nat, seqid: Seqid)
    requires d in s.delegs
    ensures SameShape(s, MarkRevoked(Reseq(s, d, seqid), d))
  {
    var t := Reseq(s, d, seqid);
    assert SameShape(s, t);
    MarkRevokedShape(t, d);
    ShapeTrans(s, t, MarkRevoked(t, d));
  }

  lemma RevokeShape(s: State, i: nat, sid: Option<Stateid>)
    ensures SameShape(s, Revoke(s, i, sid))
  {
    if i in s.ptr && s.ptr[i] in s.delegs {
      MarkRevokedShape(s, s.ptr[i]);
      if sid.Some? { ReseqRevokeShape(s, s.ptr[i], sid.value.seqid); }
    }
  }

  lemma SurrenderShape(s: State, d: nat, seqid: Seqid)
    requires d in s.delegs
    ensures SameShape(s, Surrender(s, d, seqid))
  {
    ReseqRevokeShape(s, d, seqid);
    var r := MarkRevoked(Reseq(s, d, seqid), d);
    PutShape(r, d, r.delegs[d].(flags := r.delegs[d].flags - {Returning} + {}));
    ShapeTrans(s, r, SetFlags(r, d, {}, {Returning}));
  }

  lemma MarkReturnedShape(s: State, i: nat, sid: Stateid)
    ensures SameShape(s, MarkReturned(s, i, sid))
  {
    if i in s.ptr && s.ptr[i] in s.delegs { SurrenderShape(s, s.ptr[i], sid.seqid); }
  }

  lemma MarkIfClosedShape(s: State, d: nat, closed: bool)
    requires d in s.delegs
    ensures SameShape(s, MarkIfClosed(s, d, closed))
  {
    SetFlagsShape(s, d, {Return}, {});
    SetFlagsShape(s, d, {ReturnIfClosed}, {});
  }

  lemma MarkShape(s: State, d: nat, m: Mark)
    requires d in s.delegs
    ensures SameShape(s, ApplyMark(s, d, m))
  {
    match m
    case ToReturn => SetFlagsShape(s, d, {Return}, {});
    case IfClosed(closed) => MarkIfClosedShape(s, d, closed);
    case Unreferenced(closed) =>
      SetFlagsShape(s, d, {}, {Referenced});
      MarkIfClosedShape(s, d, closed);
    case ToReclaim => SetFlagsShape(s, d, {NeedReclaim}, {});
    case ToTest => SetFlagsShape(s, d, {TestExpired}, {NeedReclaim});
    case Tested => SetFlagsShape(s, d, {}, {TestExpired});
    case Unreachable => GrabFailedShape(s, d);
  }

  lemma ClearVisitShape(s: State)
    requires CanScan(s, ClearNext)
    ensures SameShape(s, ClearVisit(s))
  {
    var d := s.scan.ahead[0];
    var t := s.(scan := Clearing(s.scan.ahead[1..]));
    SetFlagsShape(t, d, {Return}, {});
    SetFlagsShape(MarkReturn(t, d), d, {}, {ReturnDelayed});
    ShapeTrans(t, MarkReturn(t, d), SetFlags(MarkReturn(t, d), d, {}, {ReturnDelayed}));
  }

  lemma RenewShape(s: State, i: nat, d: nat, mode: Mode, sid: Stateid, dt: bool)
    requires d !in s.delegs && i in s.ptr && s.ptr[i] in s.delegs
    ensures SameShape(s, Reclaim(s, i, d, mode, sid, dt))
  {
    var o := s.ptr[i];
    var x := s.delegs[o].(stateid := sid, mode := mode,
      flags := s.delegs[o].flags - {NeedReclaim, DelegTime} + (if dt then {DelegTime} else {}));
    PutShape(s, o, x);
    UnrevokedShape(Put(s, o, x), o);
    ShapeTrans(s, Put(s, o, x), Unrevoked(Put(s, o, x), o));
  }

  lemma ReclaimCoherent(s: State, i: nat, d: nat, mode: Mode, sid: Stateid, dt: bool)
    requires Coherent(s) && d !in s.delegs
    ensures Coherent(Reclaim(s, i, d, mode, sid, dt))
  {
    if i in s.ptr {
      RenewShape(s, i, d, mode, sid, dt);
      SameShapeCoherent(s, Reclaim(s, i, d, mode, sid, dt));
    } else {
      GrantCoherent(s, i, d, mode, sid, dt);
    }
  }

  lemma VerifyCoherent(s: State, i: nat, alias: nat, current: bool)
    requires Coherent(s)
    ensures Coherent(SetVerifier(s, i, alias, current))
  {
    hide Linkage, Refs;
    SameShapeCoherent(s, SetVerifier(s, i, alias, current));
  }

  lemma DetachReturnedCoherent(s: State, d: nat)
    requires Coherent(s) && d in s.delegs && d in s.toDetach
    ensures Coherent(DetachReturned(s, d))
  {
    SameShapeCoherent(s, s.(toDetach := s.toDetach - multiset{d}));
    DetachCoherent(s.(toDetach := s.toDetach - multiset{d}), d, false);
  }

  lemma RemoveCoherent(s: State, r: Removal)
    requires Coherent(s) && CanRemove(s, r)
    ensures Coherent(RemoveStep(s, r))
  {
    match r
    case Revoking(i, sid) =>
      RevokeShape(s, i, sid);
      SameShapeCoherent(s, Revoke(s, i, sid));
    case MarkingReturned(i, sid) =>
      MarkReturnedShape(s, i, sid);
      SameShapeCoherent(s, MarkReturned(s, i, sid));
    case DetachingReturned(d) => DetachReturnedCoherent(s, d);
    case ReapDetaching(d) => DetachCoherent(s, d, true);
    case DroppingBase(d) => DropBaseCoherent(s, d);
    case Evicting(i) => EvictCoherent(s, i);
  }

  lemma ReturnCoherent(s: State, r: Returner)
    requires Coherent(s) && CanReturn(s, r)
    ensures Coherent(ReturnStep(s, r))
  {
    hide Linkage, Refs;
    match r
    case Starting(i) => StartCoherent(s, i);
    case SettingOnClose(i, closed) =>
      if i in s.ptr {
        PointerKnown(s, i);
        BeginCoherent(s, s.ptr[i], {});
        SameShapeCoherent(s, SetFlags(s, s.ptr[i], {ReturnIfClosed}, {}));
      }
    case OnClose(i, closed, watermark) =>
      if i in s.ptr {
        PointerKnown(s, i);
        BeginCoherent(s, s.ptr[i], {ReturnIfClosed});
      }
    case Finishing(d, result) => FinishCoherent(s, d, result);
  }

  lemma ScanCoherent(s: State, c: Scanner)
    requires Coherent(s) && CanScan(s, c)
    ensures Coherent(ScanStep(s, c))
  {
    hide Linkage, Refs;
    match c
    case VisitNext(grab, grabPrev) => VisitCoherent(s, grab, grabPrev);
    case Resume(result) => ResumeCoherent(s, result);
    case ClearNext =>
      ClearVisitShape(s);
      SameShapeCoherent(s, ClearVisit(s));
    case _ => SameShapeCoherent(s, ScanStep(s, c));
  }

  lemma StepCoherent(s: State, e: Event)
    requires Coherent(s) && Enabled(s, e)
    ensures Coherent(Step(s, e))
  {
    hide Linkage, Refs;
    match e
    case Granted(o) => GrantCoherent(s, o.inode, o.d, o.mode, o.stateid, o.delegTime);
    case Reclaimed(o) => ReclaimCoherent(s, o.inode, o.d, o.mode, o.stateid, o.delegTime);
    case Removes(r) => RemoveCoherent(s, r);
    case Returner(r) => ReturnCoherent(s, r);
    case Marks(d, m) =>
      MarkShape(s, d, m);
      SameShapeCoherent(s, ApplyMark(s, d, m));
    case Verifies(i, alias, current) => VerifyCoherent(s, i, alias, current);
    case DropsAlias(i, alias) => SameShapeCoherent(s, Step(s, e));
    case Scans(c) => ScanCoherent(s, c);
  }

  lemma {:induction false} RunCoherent(es: seq<Event>)
    ensures Coherent(Run(es))
  {
    if es != [] {
      var s := Run(es[..|es|-1]);
      RunCoherent(es[..|es|-1]);
      if Enabled(s, es[|es|-1]) { StepCoherent(s, es[|es|-1]); }
    }
  }

  // ---------------------------------------------------------------- theorems

  // On the list, pointed to by the inode and pointing to the inode are the same thing.
  lemma ListedIffLinked(es: seq<Event>, d: nat)
    requires d in Run(es).delegs && Run(es).delegs[d].published
    ensures var s := Run(es);
      && (d in s.list <==> s.delegs[d].inode.Some?)
      && (d in s.list <==> exists i :: i in s.ptr && s.ptr[i] == d)
      && (s.delegs[d].inode.Some? ==>
            s.delegs[d].inode.value in s.ptr && s.ptr[s.delegs[d].inode.value] == d)
  {
    RunCoherent(es);
  }

  // Detach succeeds for exactly one caller: one success once it is off the list, none before.
  lemma DetachedExactlyOnce(es: seq<Event>, d: nat)
    requires d in Run(es).delegs && Run(es).delegs[d].published
    ensures Run(es).delegs[d].detaches == if d in Run(es).list then 0 else 1
  {
    RunCoherent(es);
    assert RefsOk(Run(es).delegs[d]);
  }

  // Never freed while attached or while a returner is at work; and once the base owner and the
  // last returner are gone the count is zero, so it is freed.
  lemma NeverFreedInUse(es: seq<Event>, d: nat)
    requires d in Run(es).delegs
    ensures var s := Run(es); var x := s.delegs[d];
      && x.refcount >= 0
      && (x.refcount == 0 <==> x.base.Dropped? && x.returners == 0)
      && (d in s.list ==> x.refcount == 1 + x.returners)
  {
    RunCoherent(es);
    assert RefsOk(Run(es).delegs[d]);
  }
}
