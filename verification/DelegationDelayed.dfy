/**
 Put-off returns: after a return is aborted with -EAGAIN the delegation stays marked
 (RETURN_DELAYED or RETURN) until another return starts or it is revoked, detached or its
 inode goes away, even while the scan and the clearing pass consume and re-create the flags.
 */
module DelegationDelayed {
  import opened Wrappers
  import opened Delegation
  import opened DelegationCoherence
  import opened DelegationMarks

  predicate OwedOk(x: Deleg) {
    x.owed ==>
      && Linked(x)
      && (ReturnDelayed in x.flags || Return in x.flags)
      && Returning !in x.flags && Revoked !in x.flags && InodeFreeing !in x.flags
  }

  ghost predicate Owed(s: State) { forall d :: d in s.delegs ==> OwedOk(s.delegs[d]) }

  lemma PutOwed(s: State, d: nat, x: Deleg)
    requires Owed(s) && OwedOk(x)
    ensures Owed(Put(s, d, x))
  {
  }

  lemma MarkRevokedOwed(s: State, d: nat)
    requires Owed(s) && d in s.delegs
    ensures Owed(MarkRevoked(s, d)) && d in MarkRevoked(s, d).delegs && !MarkRevoked(s, d).delegs[d].owed
  {
  }

  lemma UnrevokedOwed(s: State, d: nat)
    requires Owed(s) && d in s.delegs
    ensures Owed(Unrevoked(s, d))
  {
  }

  lemma DetachOwed(s: State, d: nat, revoke: bool)
    requires d in s.delegs && forall e :: e in s.delegs && e != d ==> OwedOk(s.delegs[e])
    requires OwedOk(s.delegs[d]) || Detach(s, d, revoke) != s
    ensures Owed(Detach(s, d, revoke)) && d in Detach(s, d, revoke).delegs
    ensures Detach(s, d, revoke) != s ==> !Detach(s, d, revoke).delegs[d].owed
  {
  }

  lemma PublishOwed(s: State, i: nat, d: nat, mode: Mode, sid: Stateid, dt: bool)
    requires Owed(s)
    ensures Owed(Publish(s, i, d, mode, sid, dt)) && Owed(Duplicate(s, i, d, mode, sid, dt))
  {
  }

  lemma UpdateInPlaceOwed(s: State, d: nat, mode: Mode, sid: Stateid)
    requires Owed(s) && d in s.delegs
    ensures Owed(UpdateInPlace(s, d, mode, sid))
  {
    var x := s.delegs[d].(stateid := s.delegs[d].stateid.(seqid := sid.seqid), mode := mode);
    PutOwed(s, d, x);
    UnrevokedOwed(Put(s, d, x), d);
  }

  lemma ReplaceOwed(s: State, o: nat, i: nat, d: nat, mode: Mode, sid: Stateid, dt: bool)
    requires Coherent(s) && Owed(s) && o in s.delegs && Linked(s.delegs[o])
    ensures var t := if Revoked in s.delegs[o].flags then s else SetFlags(s, o, {Returning}, {});
      Detach(t, o, true) != t && Owed(Publish(Detach(t, o, true), i, d, mode, sid, dt))
  {
    hide Linkage, Refs;
    var t := if Revoked in s.delegs[o].flags then s else SetFlags(s, o, {Returning}, {});
    SameShapeCoherent(s, t);
    DetachCoherent(t, o, true);
    DetachOwed(t, o, true);
    PublishOwed(Detach(t, o, true), i, d, mode, sid, dt);
  }

  lemma GrantOwed(s: State, i: nat, d: nat, mode: Mode, sid: Stateid, dt: bool)
    requires Coherent(s) && Owed(s) && d !in s.delegs
    ensures Owed(Grant(s, i, d, mode, sid, dt))
  {
    PublishOwed(s, i, d, mode, sid, dt);
    if i in s.ptr {
      var o := s.ptr[i];
      UpdateInPlaceOwed(s, o, mode, sid);
      ReplaceOwed(s, o, i, d, mode, sid, dt);
    }
  }

  lemma ReclaimOwed(s: State, i: nat, d: nat, mode: Mode, sid: Stateid, dt: bool)
    requires Coherent(s) && Owed(s) && d !in s.delegs
    ensures Owed(Reclaim(s, i, d, mode, sid, dt))
  {
    if i in s.ptr {
      var o := s.ptr[i];
      var x := s.delegs[o].(stateid := sid, mode := mode,
        flags := s.delegs[o].flags - {NeedReclaim, DelegTime} + (if dt then {DelegTime} else {}));
      PutOwed(s, o, x);
      UnrevokedOwed(Put(s, o, x), o);
    } else {
      GrantOwed(s, i, d, mode, sid, dt);
    }
  }

  lemma ReseqRevokeOwed(s: State, d: nat, seqid: Seqid)
    requires Owed(s) && d in s.delegs
    ensures Owed(MarkRevoked(Reseq(s, d, seqid), d)) && !MarkRevoked(Reseq(s, d, seqid), d).delegs[d].owed
  {
    assert Owed(Reseq(s, d, seqid));
    MarkRevokedOwed(Reseq(s, d, seqid), d);
  }

  lemma SurrenderOwed(s: State, d: nat, seqid: Seqid)
    requires Owed(s) && d in s.delegs
    ensures Owed(Surrender(s, d, seqid))
  {
    ReseqRevokeOwed(s, d, seqid);
    var r := MarkRevoked(Reseq(s, d, seqid), d);
    PutOwed(r, d, r.delegs[d].(flags := r.delegs[d].flags - {Returning} + {}));
  }

  lemma DropBaseOwed(s: State, d: nat)
    requires Owed(s) && d in s.delegs && s.delegs[d].base.Dropping?
    ensures Owed(DropBase(s, d))
  {
    MarkRevokedOwed(s, d);
    var t := if s.delegs[d].base.revoke then MarkRevoked(s, d) else s;
    PutOwed(t, d, t.delegs[d].(refcount := t.delegs[d].refcount - 1, base := Dropped));
  }

  lemma EvictOwed(s: State, i: nat)
    requires Coherent(s) && Owed(s)
    ensures Owed(Evict(s, i))
  {
    if i in s.ptr {
      var d := s.ptr[i];
      DetachOwed(s, d, true);
      var t := Detach(s, d, true);
      if t != s { PutOwed(t, d, t.delegs[d].(flags := t.delegs[d].flags - {} + {Returning, InodeFreeing})); }
    }
  }

  lemma RemoveOwed(s: State, r: Removal)
    requires Coherent(s) && Owed(s) && CanRemove(s, r)
    ensures Owed(RemoveStep(s, r))
  {
    hide Linkage, Refs;
    match r
    case Revoking(i, sid) =>
      if i in s.ptr {
        PointerKnown(s, i);
        MarkRevokedOwed(s, s.ptr[i]);
        if sid.Some? { ReseqRevokeOwed(s, s.ptr[i], sid.value.seqid); }
      }
    case MarkingReturned(i, sid) =>
      if i in s.ptr {
        PointerKnown(s, i);
        SurrenderOwed(s, s.ptr[i], sid.seqid);
        PutOwed(s, s.ptr[i], s.delegs[s.ptr[i]].(flags := s.delegs[s.ptr[i]].flags - {Returning} + {}));
      }
    case DetachingReturned(d) => DetachOwed(s.(toDetach := s.toDetach - multiset{d}), d, false);
    case ReapDetaching(d) => DetachOwed(s, d, true);
    case DroppingBase(d) => DropBaseOwed(s, d);
    case Evicting(i) => EvictOwed(s, i);
  }

  lemma BeginOwed(s: State, d: nat, drop: set<Flag>)
    requires Owed(s) && d in s.delegs
    ensures Owed(Begin(s, d, drop))
  {
  }

  // The promise begins: an -EAGAIN abort leaves the delegation marked as put off.
  lemma FinishOwed(s: State, d: nat, result: Result)
    requires Coherent(s) && Owed(s) && Returned(s, d)
    ensures Owed(Finish(s, d, result))
  {
    hide Coherent;
    RefsAt(s, d);
    if result.Aborted? { PutOwed(s, d, AbortReturn(s, d, result.again).delegs[d]); }
    var t := if result.Aborted? then AbortReturn(s, d, result.again) else s;
    PutOwed(t, d, t.delegs[d].(refcount := t.delegs[d].refcount - 1, returners := t.delegs[d].returners - 1));
  }

  lemma ReturnOwed(s: State, r: Returner)
    requires Coherent(s) && Owed(s) && CanReturn(s, r)
    ensures Owed(ReturnStep(s, r))
  {
    match r
    case Starting(i) => if i in s.ptr { BeginOwed(s, s.ptr[i], {ReturnDelayed}); }
    case SettingOnClose(i, _) =>
      if i in s.ptr {
        BeginOwed(s, s.ptr[i], {});
        PutOwed(s, s.ptr[i], s.delegs[s.ptr[i]].(flags := s.delegs[s.ptr[i]].flags - {} + {ReturnIfClosed}));
      }
    case OnClose(i, _, _) => if i in s.ptr { BeginOwed(s, s.ptr[i], {ReturnIfClosed}); }
    case Finishing(d, result) => FinishOwed(s, d, result);
  }

  lemma SetFlagsOwed(s: State, d: nat, add: set<Flag>, drop: set<Flag>)
    requires Owed(s) && d in s.delegs && Return !in drop && ReturnDelayed !in drop
    requires Returning !in add && Revoked !in add && InodeFreeing !in add
    ensures Owed(SetFlags(s, d, add, drop))
  {
    PutOwed(s, d, s.delegs[d].(flags := s.delegs[d].flags - drop + add));
  }

  lemma MarkIfClosedOwed(s: State, d: nat, closed: bool)
    requires Owed(s) && d in s.delegs
    ensures Owed(MarkIfClosed(s, d, closed))
  {
    hide OwedOk;
    SetFlagsOwed(s, d, {Return}, {});
    SetFlagsOwed(s, d, {ReturnIfClosed}, {});
  }

  lemma MarkOwed(s: State, d: nat, m: Mark)
    requires Owed(s) && d in s.delegs
    ensures Owed(ApplyMark(s, d, m))
  {
    hide OwedOk;
    match m
    case ToReturn => SetFlagsOwed(s, d, {Return}, {});
    case IfClosed(closed) => MarkIfClosedOwed(s, d, closed);
    case Unreferenced(closed) =>
      SetFlagsOwed(s, d, {}, {Referenced});
      MarkIfClosedOwed(s, d, closed);
    case ToReclaim => SetFlagsOwed(s, d, {NeedReclaim}, {});
    case ToTest => SetFlagsOwed(s, d, {TestExpired}, {NeedReclaim});
    case Tested => SetFlagsOwed(s, d, {}, {TestExpired});
    case Unreachable => GrabFailedOwed(s, d);
  }

  lemma GrabFailedOwed(s: State, d: nat)
    requires d in s.delegs && forall e :: e in s.delegs && e != d ==> OwedOk(s.delegs[e])
    ensures Owed(GrabFailed(s, d))
  {
  }

  // A visit that consumes the mark of a put-off delegation finds RETURN_DELAYED still set, starts
  // the return, or finds the inode gone.
  lemma VisitOwed(s: State, grab: bool, grabPrev: bool)
    requires Coherent(s) && Owed(s) && CanScan(s, VisitNext(grab, grabPrev))
    ensures Owed(Visit(s, grab, grabPrev))
  {
    hide Coherent;
    var d := s.scan.ahead[0];
    var x := s.delegs[d];
    if InodeFreeing !in x.flags {
      var t := SetFlags(s, d, {}, {Return});
      assert forall e :: e in t.delegs && e != d ==> OwedOk(t.delegs[e]);
      if !NeedReturn(x) {
        PutOwed(s, d, t.delegs[d]);
      } else if !grab || x.inode.None? {
        GrabFailedOwed(t, d);
      } else {
        SetFlagsShape(s, d, {}, {Return});
        SameShapeCoherent(s, t);
        TakeOwed(t, d, x.inode.value, grabPrev);
      }
    }
  }

  lemma GrabPrevOwed(s: State, d: nat, grabPrev: bool)
    requires s.scan.Walking? && d in s.delegs
    requires forall e :: e in s.delegs && e != d ==> OwedOk(s.delegs[e])
    ensures var u := GrabPrev(s, s.scan.prev, grabPrev);
      && (forall e :: e in u.delegs && e != d ==> OwedOk(u.delegs[e]))
      && d in u.delegs && SameLinks(s.delegs[d], u.delegs[d])
      && (Returning in u.delegs[d].flags <==> Returning in s.delegs[d].flags)
      && (OwedOk(s.delegs[d]) ==> OwedOk(u.delegs[d]))
  {
  }

  // The visited delegation may have lost its mark, but its return starts right away.
  lemma TakeOwed(s: State, d: nat, inode: nat, grabPrev: bool)
    requires Coherent(s) && s.scan.Walking? && d in s.delegs && s.delegs[d].inode == Some(inode)
    requires forall e :: e in s.delegs && e != d ==> OwedOk(s.delegs[e])
    requires Returning !in s.delegs[d].flags && (s.delegs[d].owed ==> s.delegs[d].published)
    requires s.delegs[d].published || OwedOk(s.delegs[d])
    ensures Owed(Take(s, inode, grabPrev))
  {
    hide Coherent, GrabPrev, OwedOk;
    var u := GrabPrev(s, s.scan.prev, grabPrev);
    GrabPrevQuiet(s, s.scan.prev, grabPrev);
    SameShapeCoherent(s, u);
    GrabPrevOwed(s, d, grabPrev);
    StartOwed(u, d, inode);
  }

  lemma StartOwed(s: State, d: nat, inode: nat)
    requires Coherent(s) && d in s.delegs && s.delegs[d].inode == Some(inode) && Returning !in s.delegs[d].flags
    requires forall e :: e in s.delegs && e != d ==> OwedOk(s.delegs[e])
    requires s.delegs[d].published || OwedOk(s.delegs[d])
    ensures Owed(StartReturn(s, inode))
  {
    if s.delegs[d].published {
      assert s.ptr[inode] == d;
    }
  }

  lemma ScanOwed(s: State, c: Scanner)
    requires Coherent(s) && Owed(s) && CanScan(s, c)
    ensures Owed(ScanStep(s, c))
  {
    hide Coherent;
    match c
    case VisitNext(grab, grabPrev) => VisitOwed(s, grab, grabPrev);
    case Resume(result) => if s.scan.deleg.Some? { FinishOwed(s, s.scan.deleg.value, result); }
    case _ =>
  }

  lemma StepOwed(s: State, e: Event)
    requires Coherent(s) && Owed(s) && Enabled(s, e)
    ensures Owed(Step(s, e))
  {
    hide Coherent, OwedOk;
    match e
    case Granted(o) => GrantOwed(s, o.inode, o.d, o.mode, o.stateid, o.delegTime);
    case Reclaimed(o) => ReclaimOwed(s, o.inode, o.d, o.mode, o.stateid, o.delegTime);
    case Removes(r) => RemoveOwed(s, r);
    case Returner(r) => ReturnOwed(s, r);
    case Marks(d, m) => MarkOwed(s, d, m);
    case Verifies(i, alias, current) =>
      if i in s.ptr && s.ptr[i] in s.delegs { SetFlagsOwed(s, s.ptr[i], {Referenced}, {}); }
    case DropsAlias(i, alias) =>
    case Scans(c) => ScanOwed(s, c);
  }

  lemma {:induction false} RunOwed(es: seq<Event>)
    ensures Owed(Run(es))
  {
    if es != [] {
      var s := Run(es[..|es|-1]);
      RunOwed(es[..|es|-1]);
      RunCoherent(es[..|es|-1]);
      if Enabled(s, es[|es|-1]) { StepOwed(s, es[|es|-1]); }
    }
  }

  // Over every run: a put-off return nothing has happened to since is still marked, the
  // delegation is still on the list, and outside a scan the server bits say so.
  lemma PutOffReturnsAreRemembered(es: seq<Event>, d: nat)
    requires d in Run(es).delegs && Run(es).delegs[d].owed
    ensures var s := Run(es);
      && d in s.list
      && (ReturnDelayed in s.delegs[d].flags || Return in s.delegs[d].flags)
      && (s.scan.Idle? ==> s.returnBit || s.delayedBit)
  {
    RunOwed(es);
    RunCoherent(es);
    assert OwedOk(Run(es).delegs[d]);
    if Run(es).scan.Idle? { NoLostMark(es, d); }
  }

  // ---------------------------------------------------------- how it ends

  // Another return has started, or the delegation is revoked, detached or its inode going away.
  predicate Over(x: Deleg) {
    Returning in x.flags || Revoked in x.flags || InodeFreeing in x.flags || !Linked(x)
  }

  predicate OwedStill(t: State, d: nat) { d in t.delegs && (t.delegs[d].owed || Over(t.delegs[d])) }

  predicate IsOwed(s: State, d: nat) { d in s.delegs && s.delegs[d].owed }

  lemma ReplaceEnds(s: State, o: nat, i: nat, n: nat, mode: Mode, sid: Stateid, dt: bool, d: nat)
    requires o in s.delegs && n !in s.delegs && IsOwed(s, d)
    ensures var t := if Revoked in s.delegs[o].flags then s else SetFlags(s, o, {Returning}, {});
      OwedStill(t, d) && OwedStill(Publish(Detach(t, o, true), i, n, mode, sid, dt), d)
  {
  }

  lemma UpdateEnds(s: State, o: nat, mode: Mode, sid: Stateid, d: nat)
    requires o in s.delegs && IsOwed(s, d)
    ensures OwedStill(UpdateInPlace(s, o, mode, sid), d)
  {
  }

  lemma AddEnds(s: State, i: nat, n: nat, mode: Mode, sid: Stateid, dt: bool, d: nat)
    requires n !in s.delegs && IsOwed(s, d)
    ensures OwedStill(s, d) && OwedStill(Publish(s, i, n, mode, sid, dt), d)
    ensures OwedStill(Duplicate(s, i, n, mode, sid, dt), d)
  {
  }

  lemma GrantEnds(s: State, i: nat, n: nat, mode: Mode, sid: Stateid, dt: bool, d: nat)
    requires n !in s.delegs && IsOwed(s, d)
    ensures OwedStill(Grant(s, i, n, mode, sid, dt), d)
  {
    hide OwedStill, UpdateInPlace;
    AddEnds(s, i, n, mode, sid, dt, d);
    if i in s.ptr && s.ptr[i] in s.delegs {
      UpdateEnds(s, s.ptr[i], mode, sid, d);
      ReplaceEnds(s, s.ptr[i], i, n, mode, sid, dt, d);
    }
  }

  lemma ReclaimEnds(s: State, i: nat, n: nat, mode: Mode, sid: Stateid, dt: bool, d: nat)
    requires n !in s.delegs && IsOwed(s, d)
    ensures OwedStill(Reclaim(s, i, n, mode, sid, dt), d)
  {
    if !(i in s.ptr && s.ptr[i] in s.delegs) { GrantEnds(s, i, n, mode, sid, dt, d); }
  }

  lemma MarkRevokedEnds(s: State, o: nat, d: nat)
    requires o in s.delegs && IsOwed(s, d)
    ensures OwedStill(MarkRevoked(s, o), d) && o in MarkRevoked(s, o).delegs
    ensures o == d ==> Revoked in MarkRevoked(s, o).delegs[o].flags
  {
  }

  lemma ReseqEnds(s: State, o: nat, seqid: Seqid, d: nat)
    requires o in s.delegs && IsOwed(s, d)
    ensures IsOwed(Reseq(s, o, seqid), d) && o in Reseq(s, o, seqid).delegs
  {
  }

  lemma RevokeEnds(s: State, i: nat, sid: Option<Stateid>, d: nat)
    requires IsOwed(s, d)
    ensures OwedStill(Revoke(s, i, sid), d)
  {
    if i in s.ptr && s.ptr[i] in s.delegs {
      MarkRevokedEnds(s, s.ptr[i], d);
      if sid.Some? {
        ReseqEnds(s, s.ptr[i], sid.value.seqid, d);
        MarkRevokedEnds(Reseq(s, s.ptr[i], sid.value.seqid), s.ptr[i], d);
      }
    }
  }

  lemma SurrenderEnds(s: State, o: nat, seqid: Seqid, d: nat)
    requires o in s.delegs && IsOwed(s, d)
    ensures OwedStill(Surrender(s, o, seqid), d)
  {
    ReseqEnds(s, o, seqid, d);
    MarkRevokedEnds(Reseq(s, o, seqid), o, d);
  }

  lemma DetachEnds(s: State, o: nat, revoke: bool, d: nat)
    requires o in s.delegs && IsOwed(s, d)
    ensures OwedStill(Detach(s, o, revoke), d)
  {
  }

  lemma EvictEnds(s: State, i: nat, d: nat)
    requires IsOwed(s, d)
    ensures OwedStill(Evict(s, i), d)
  {
    if i in s.ptr && s.ptr[i] in s.delegs { DetachEnds(s, s.ptr[i], true, d); }
  }

  lemma DropBaseEnds(s: State, o: nat, d: nat)
    requires o in s.delegs && s.delegs[o].base.Dropping? && IsOwed(s, d)
    ensures OwedStill(DropBase(s, o), d)
  {
    MarkRevokedEnds(s, o, d);
  }

  lemma MarkReturnedEnds(s: State, i: nat, sid: Stateid, d: nat)
    requires IsOwed(s, d)
    ensures OwedStill(MarkReturned(s, i, sid), d)
  {
    if i in s.ptr && s.ptr[i] in s.delegs { SurrenderEnds(s, s.ptr[i], sid.seqid, d); }
  }

  lemma RemoveEnds(s: State, r: Removal, d: nat)
    requires CanRemove(s, r) && IsOwed(s, d)
    ensures OwedStill(RemoveStep(s, r), d)
  {
    match r
    case Revoking(i, sid) => RevokeEnds(s, i, sid, d);
    case MarkingReturned(i, sid) => MarkReturnedEnds(s, i, sid, d);
    case DetachingReturned(o) => DetachEnds(s.(toDetach := s.toDetach - multiset{o}), o, false, d);
    case ReapDetaching(o) => DetachEnds(s, o, true, d);
    case DroppingBase(o) => DropBaseEnds(s, o, d);
    case Evicting(i) => EvictEnds(s, i, d);
  }

  lemma FinishEnds(s: State, o: nat, result: Result, d: nat)
    requires Returned(s, o) && IsOwed(s, d)
    ensures OwedStill(Finish(s, o, result), d)
  {
  }

  lemma ReturnEnds(s: State, r: Returner, d: nat)
    requires CanReturn(s, r) && IsOwed(s, d)
    ensures OwedStill(ReturnStep(s, r), d)
  {
    if r.Finishing? { FinishEnds(s, r.d, r.result, d); }
  }

  lemma TakeEnds(s: State, inode: nat, grabPrev: bool, d: nat)
    requires s.scan.Walking? && IsOwed(s, d)
    ensures OwedStill(Take(s, inode, grabPrev), d)
  {
  }

  lemma VisitEnds(s: State, grab: bool, grabPrev: bool, d: nat)
    requires CanScan(s, VisitNext(grab, grabPrev)) && IsOwed(s, d)
    ensures OwedStill(Visit(s, grab, grabPrev), d)
  {
    var v := s.scan.ahead[0];
    var x := s.delegs[v];
    if InodeFreeing !in x.flags && NeedReturn(x) && grab && x.inode.Some? {
      TakeEnds(SetFlags(s, v, {}, {Return}), x.inode.value, grabPrev, d);
    }
  }

  lemma ScanEnds(s: State, c: Scanner, d: nat)
    requires CanScan(s, c) && IsOwed(s, d)
    ensures OwedStill(ScanStep(s, c), d)
  {
    match c
    case VisitNext(grab, grabPrev) => VisitEnds(s, grab, grabPrev, d);
    case Resume(result) => if s.scan.deleg.Some? { FinishEnds(s, s.scan.deleg.value, result, d); }
    case _ =>
  }

  // A put-off return stops being owed only when another return starts, or when the delegation is
  // revoked, detached or loses its inode.
  lemma OwedUntilOver(es: seq<Event>, e: Event, d: nat)
    requires Enabled(Run(es), e) && IsOwed(Run(es), d)
    ensures OwedStill(Run(es + [e]), d)
  {
    RunSnoc(es, e);
    StepEnds(Run(es), e, d);
  }

  lemma MarkEnds(s: State, o: nat, m: Mark, d: nat)
    requires o in s.delegs && IsOwed(s, d)
    ensures OwedStill(ApplyMark(s, o, m), d)
  {
  }

  lemma StepEnds(s: State, e: Event, d: nat)
    requires Enabled(s, e) && IsOwed(s, d)
    ensures OwedStill(Step(s, e), d)
  {
    match e
    case Granted(o) => GrantEnds(s, o.inode, o.d, o.mode, o.stateid, o.delegTime, d);
    case Reclaimed(o) => ReclaimEnds(s, o.inode, o.d, o.mode, o.stateid, o.delegTime, d);
    case Removes(r) => RemoveEnds(s, r, d);
    case Returner(r) => ReturnEnds(s, r, d);
    case Marks(o, m) => MarkEnds(s, o, m, d);
    case Verifies(_, _, _) =>
    case DropsAlias(_, _) =>
    case Scans(c) => ScanEnds(s, c, d);
  }

  // ------------------------------------------------------ over the event log

  // The step ends a return of d with -EAGAIN: one of the returners', or the scanner's own.
  predicate PutsOff(s: State, e: Event, d: nat) {
    && Enabled(s, e)
    && (|| e == Returner(Finishing(d, Aborted(true)))
        || (e == Scans(Resume(Aborted(true))) && s.scan.deleg == Some(d)))
  }

  lemma PutOffIsOwed(s: State, e: Event, d: nat)
    requires Coherent(s) && PutsOff(s, e, d)
    ensures OwedStill(Step(s, e), d)
  {
    assert Returned(s, d);
    FinishPutsOff(s, d);
  }

  lemma FinishPutsOff(s: State, d: nat)
    requires Returned(s, d)
    ensures OwedStill(Finish(s, d, Aborted(true)), d)
  {
  }

  // d stands: no other return, revocation, detach or freeing of its inode holds after n events.
  predicate Stands(es: seq<Event>, n: nat, d: nat)
    requires n <= |es|
  {
    d in Run(es[..n]).delegs && !Over(Run(es[..n]).delegs[d])
  }

  lemma {:induction false} OwedWhileStanding(es: seq<Event>, k: nat, n: nat, d: nat)
    requires k < n <= |es| && PutsOff(Run(es[..k]), es[k], d)
    requires forall j :: k < j <= n ==> Stands(es, j, d)
    ensures IsOwed(Run(es[..n]), d)
    decreases n
  {
    assert es[..n] == es[..n-1] + [es[n-1]];
    assert Stands(es, n, d);
    RunCoherent(es[..n-1]);
    RunSnoc(es[..n-1], es[n-1]);
    if n == k + 1 {
      PutOffIsOwed(Run(es[..k]), es[k], d);
    } else {
      OwedWhileStanding(es, k, n - 1, d);
      if Enabled(Run(es[..n-1]), es[n-1]) { OwedUntilOver(es[..n-1], es[n-1], d); }
    }
  }

  // A return of d ended with -EAGAIN, and since then no other return of d has started and it was not
  // revoked, detached or left by its inode: it is listed and marked, and outside a scan announced.
  lemma PutOffReturnsStayMarked(es: seq<Event>, k: nat, d: nat)
    requires k < |es| && PutsOff(Run(es[..k]), es[k], d)
    requires forall j :: k < j <= |es| ==> Stands(es, j, d)
    ensures var s := Run(es);
      && d in s.list && d in s.delegs
      && (ReturnDelayed in s.delegs[d].flags || Return in s.delegs[d].flags)
      && (s.scan.Idle? ==> s.returnBit || s.delayedBit)
  {
    OwedWhileStanding(es, k, |es|, d);
    assert es[..|es|] == es;
    PutOffReturnsAreRemembered(es, d);
  }
}
