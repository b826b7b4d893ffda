/**
 What becomes of a mark.  A delegation is pursued while it is marked for return, put off, being
 returned, revoked, off the list or about to lose its inode.  The scan consumes marks; here it is
 shown that a delegation stays pursued through that, and by which steps alone it stops being so.
 */
module DelegationPursuit {
  import opened Wrappers
  import opened Delegation
  import opened DelegationCoherence

  predicate Pursued(x: Deleg) {
    || Return in x.flags || ReturnDelayed in x.flags || Returning in x.flags
    || Revoked in x.flags || InodeFreeing in x.flags || !Linked(x)
  }

  // The flag is all that keeps the delegation pursued.
  predicate Only(x: Deleg, f: Flag) {
    && Linked(x) && f in x.flags
    && (f == Return || Return !in x.flags) && (f == ReturnDelayed || ReturnDelayed !in x.flags)
    && (f == Returning || Returning !in x.flags) && (f == Revoked || Revoked !in x.flags)
    && InodeFreeing !in x.flags
  }

  predicate PointsTo(s: State, i: nat, d: nat) { i in s.ptr && s.ptr[i] == d }

  // The steps that end the pursuit of d: a return that is aborted for good, a late reply that
  // takes RETURNING away, and a grant or reclaim that makes a revoked delegation good again.
  predicate Ends(s: State, e: Event, d: nat)
    requires d in s.delegs
  {
    var x := s.delegs[d];
    match e
    case Returner(Finishing(o, Aborted(again))) => o == d && !again && Only(x, Returning)
    case Scans(Resume(Aborted(again))) => s.scan.Returns? && s.scan.deleg == Some(d) && !again && Only(x, Returning)
    case Removes(MarkingReturned(i, sid)) =>
      && PointsTo(s, i, d) && sid.other == x.stateid.other && sid.seqid != 0 && IsNewer(x.stateid, sid)
      && Only(x, Returning)
    case Granted(o) =>
      && PointsTo(s, o.inode, d) && o.stateid.other == x.stateid.other && IsNewer(o.stateid, x.stateid)
      && Only(x, Revoked)
    case Reclaimed(o) => PointsTo(s, o.inode, d) && Only(x, Revoked)
    case _ => false
  }

  // The state t still has d, pursued unless the step ended that.
  predicate Outcome(t: State, d: nat, over: bool) { d in t.delegs && (Pursued(t.delegs[d]) <==> !over) }

  lemma UnrevokedPursuit(s: State, o: nat, d: nat)
    requires o in s.delegs && d in s.delegs && Pursued(s.delegs[d])
    ensures Outcome(Unrevoked(s, o), d, o == d && Only(s.delegs[d], Revoked))
  {
  }

  lemma UpdatePursuit(s: State, o: nat, mode: Mode, sid: Stateid, d: nat)
    requires o in s.delegs && d in s.delegs && Pursued(s.delegs[d])
    ensures Outcome(UpdateInPlace(s, o, mode, sid), d,
                    o == d && IsNewer(sid, s.delegs[d].stateid) && Only(s.delegs[d], Revoked))
  {
    var x := s.delegs[o];
    UnrevokedPursuit(Put(s, o, x.(stateid := x.stateid.(seqid := sid.seqid), mode := mode)), o, d);
  }

  lemma ReplacePursuit(s: State, o: nat, i: nat, n: nat, mode: Mode, sid: Stateid, dt: bool, d: nat)
    requires o in s.delegs && n !in s.delegs && d in s.delegs && Pursued(s.delegs[d])
    ensures var t := if Revoked in s.delegs[o].flags then s else SetFlags(s, o, {Returning}, {});
      Outcome(t, d, false) && Outcome(Publish(Detach(t, o, true), i, n, mode, sid, dt), d, false)
  {
  }

  lemma PublishPursuit(s: State, o: Offer, d: nat)
    requires o.d !in s.delegs && d in s.delegs && Pursued(s.delegs[d])
    ensures Outcome(Publish(s, o.inode, o.d, o.mode, o.stateid, o.delegTime), d, false)
    ensures Outcome(Duplicate(s, o.inode, o.d, o.mode, o.stateid, o.delegTime), d, false)
  {
  }

  lemma GrantPursuit(s: State, o: Offer, d: nat)
    requires o.d !in s.delegs && d in s.delegs && Pursued(s.delegs[d])
    ensures Outcome(Grant(s, o.inode, o.d, o.mode, o.stateid, o.delegTime), d, Ends(s, Granted(o), d))
  {
    PublishPursuit(s, o, d);
    if o.inode in s.ptr && s.ptr[o.inode] in s.delegs {
      var p := s.ptr[o.inode];
      if s.delegs[p].stateid.other == o.stateid.other {
        UpdatePursuit(s, p, o.mode, o.stateid, d);
      } else {
        ReplacePursuit(s, p, o.inode, o.d, o.mode, o.stateid, o.delegTime, d);
      }
    }
  }

  lemma RenewPursuit(s: State, p: nat, o: Offer, d: nat)
    requires p in s.delegs && d in s.delegs && Pursued(s.delegs[d])
    ensures var x := s.delegs[p];
      var y := x.(stateid := o.stateid, mode := o.mode,
        flags := x.flags - {NeedReclaim, DelegTime} + (if o.delegTime then {DelegTime} else {}));
      Outcome(Unrevoked(Put(s, p, y), p), d, p == d && Only(s.delegs[d], Revoked))
  {
    var x := s.delegs[p];
    var y := x.(stateid := o.stateid, mode := o.mode,
      flags := x.flags - {NeedReclaim, DelegTime} + (if o.delegTime then {DelegTime} else {}));
    UnrevokedPursuit(Put(s, p, y), p, d);
  }

  lemma ReclaimPursuit(s: State, o: Offer, d: nat)
    requires o.d !in s.delegs && d in s.delegs && Pursued(s.delegs[d])
    ensures Outcome(Reclaim(s, o.inode, o.d, o.mode, o.stateid, o.delegTime), d, Ends(s, Reclaimed(o), d))
  {
    hide Pursued, Only, Unrevoked;
    if o.inode in s.ptr && s.ptr[o.inode] in s.delegs {
      RenewPursuit(s, s.ptr[o.inode], o, d);
    } else {
      GrantPursuit(s, o, d);
    }
  }

  lemma MarkRevokedPursuit(s: State, o: nat, d: nat)
    requires o in s.delegs && d in s.delegs && Pursued(s.delegs[d])
    ensures Outcome(MarkRevoked(s, o), d, false) && o in MarkRevoked(s, o).delegs
    ensures Revoked in MarkRevoked(s, o).delegs[o].flags
  {
  }

  lemma ReseqPursuit(s: State, o: nat, seqid: Seqid, d: nat)
    requires o in s.delegs && d in s.delegs && Pursued(s.delegs[d])
    ensures Outcome(Reseq(s, o, seqid), d, false) && o in Reseq(s, o, seqid).delegs
  {
  }

  lemma RevokePursuit(s: State, i: nat, sid: Option<Stateid>, d: nat)
    requires d in s.delegs && Pursued(s.delegs[d])
    ensures Outcome(Revoke(s, i, sid), d, false)
  {
    if i in s.ptr && s.ptr[i] in s.delegs {
      MarkRevokedPursuit(s, s.ptr[i], d);
      if sid.Some? {
        ReseqPursuit(s, s.ptr[i], sid.value.seqid, d);
        MarkRevokedPursuit(Reseq(s, s.ptr[i], sid.value.seqid), s.ptr[i], d);
      }
    }
  }

  lemma SurrenderPursuit(s: State, o: nat, seqid: Seqid, d: nat)
    requires o in s.delegs && d in s.delegs && Pursued(s.delegs[d])
    ensures Outcome(Surrender(s, o, seqid), d, false)
  {
    ReseqPursuit(s, o, seqid, d);
    MarkRevokedPursuit(Reseq(s, o, seqid), o, d);
  }

  lemma LateReplyPursuit(s: State, o: nat, d: nat)
    requires o in s.delegs && d in s.delegs && Pursued(s.delegs[d])
    ensures Outcome(SetFlags(s, o, {}, {Returning}), d, o == d && Only(s.delegs[d], Returning))
  {
  }

  lemma MarkReturnedPursuit(s: State, i: nat, sid: Stateid, d: nat)
    requires d in s.delegs && Pursued(s.delegs[d])
    ensures Outcome(MarkReturned(s, i, sid), d, Ends(s, Removes(MarkingReturned(i, sid)), d))
  {
    hide Pursued, Only, Surrender, SetFlags;
    if i in s.ptr && s.ptr[i] in s.delegs {
      SurrenderPursuit(s, s.ptr[i], sid.seqid, d);
      LateReplyPursuit(s, s.ptr[i], d);
    }
  }

  lemma DetachPursuit(s: State, o: nat, revoke: bool, d: nat)
    requires o in s.delegs && d in s.delegs && Pursued(s.delegs[d])
    ensures Outcome(Detach(s, o, revoke), d, false)
  {
  }

  lemma DropBasePursuit(s: State, o: nat, d: nat)
    requires o in s.delegs && s.delegs[o].base.Dropping? && d in s.delegs && Pursued(s.delegs[d])
    ensures Outcome(DropBase(s, o), d, false)
  {
    MarkRevokedPursuit(s, o, d);
  }

  lemma EvictPursuit(s: State, i: nat, d: nat)
    requires d in s.delegs && Pursued(s.delegs[d])
    ensures Outcome(Evict(s, i), d, false)
  {
    if i in s.ptr && s.ptr[i] in s.delegs { DetachPursuit(s, s.ptr[i], true, d); }
  }

  lemma RemovePursuit(s: State, r: Removal, d: nat)
    requires CanRemove(s, r) && d in s.delegs && Pursued(s.delegs[d])
    ensures Outcome(RemoveStep(s, r), d, Ends(s, Removes(r), d))
  {
    match r
    case Revoking(i, sid) => RevokePursuit(s, i, sid, d);
    case MarkingReturned(i, sid) => MarkReturnedPursuit(s, i, sid, d);
    case DetachingReturned(o) => DetachPursuit(s.(toDetach := s.toDetach - multiset{o}), o, false, d);
    case ReapDetaching(o) => DetachPursuit(s, o, true, d);
    case DroppingBase(o) => DropBasePursuit(s, o, d);
    case Evicting(i) => EvictPursuit(s, i, d);
  }

  lemma FinishPursuit(s: State, o: nat, result: Result, d: nat)
    requires Returned(s, o) && d in s.delegs && Pursued(s.delegs[d])
    ensures Outcome(Finish(s, o, result), d,
                    o == d && result.Aborted? && !result.again && Only(s.delegs[d], Returning))
  {
  }

  lemma BeginPursuit(s: State, o: nat, drop: set<Flag>, d: nat)
    requires o in s.delegs && d in s.delegs && Pursued(s.delegs[d])
    ensures Outcome(Begin(s, o, drop), d, false)
  {
  }

  lemma ReturnPursuit(s: State, r: Returner, d: nat)
    requires CanReturn(s, r) && d in s.delegs && Pursued(s.delegs[d])
    ensures Outcome(ReturnStep(s, r), d, Ends(s, Returner(r), d))
  {
    match r
    case Starting(i) => if Startable(s, i).Some? { BeginPursuit(s, s.ptr[i], {ReturnDelayed}, d); }
    case SettingOnClose(i, _) => if i in s.ptr && s.ptr[i] in s.delegs { BeginPursuit(s, s.ptr[i], {}, d); }
    case OnClose(i, _, _) => if i in s.ptr && s.ptr[i] in s.delegs { BeginPursuit(s, s.ptr[i], {ReturnIfClosed}, d); }
    case Finishing(o, result) => FinishPursuit(s, o, result, d);
  }

  lemma SetFlagsPursuit(s: State, o: nat, add: set<Flag>, drop: set<Flag>, d: nat)
    requires o in s.delegs && d in s.delegs && Pursued(s.delegs[d])
    requires drop <= {Referenced, NeedReclaim, TestExpired, ReturnIfClosed}
    ensures Outcome(SetFlags(s, o, add, drop), d, false)
  {
  }

  lemma GrabFailedPursuit(s: State, o: nat, d: nat)
    requires o in s.delegs && d in s.delegs && (d == o || Pursued(s.delegs[d]))
    ensures Outcome(GrabFailed(s, o), d, false)
  {
  }

  lemma MarkIfClosedPursuit(s: State, o: nat, closed: bool, d: nat)
    requires o in s.delegs && d in s.delegs && Pursued(s.delegs[d])
    ensures Outcome(MarkIfClosed(s, o, closed), d, false)
  {
    hide Pursued;
    SetFlagsPursuit(s, o, {Return}, {}, d);
    SetFlagsPursuit(s, o, {ReturnIfClosed}, {}, d);
  }

  lemma MarkPursuit(s: State, o: nat, m: Mark, d: nat)
    requires o in s.delegs && d in s.delegs && Pursued(s.delegs[d])
    ensures Outcome(ApplyMark(s, o, m), d, false)
  {
    hide Pursued;
    match m
    case ToReturn => SetFlagsPursuit(s, o, {Return}, {}, d);
    case IfClosed(closed) => MarkIfClosedPursuit(s, o, closed, d);
    case Unreferenced(closed) =>
      SetFlagsPursuit(s, o, {}, {Referenced}, d);
      MarkIfClosedPursuit(s, o, closed, d);
    case ToReclaim => SetFlagsPursuit(s, o, {NeedReclaim}, {}, d);
    case ToTest => SetFlagsPursuit(s, o, {TestExpired}, {NeedReclaim}, d);
    case Tested => SetFlagsPursuit(s, o, {}, {TestExpired}, d);
    case Unreachable => GrabFailedPursuit(s, o, d);
  }

  lemma GrabPrevPursuit(s: State, grabPrev: bool, v: nat, d: nat)
    requires s.scan.Walking? && v in s.delegs && d in s.delegs
    ensures var u := GrabPrev(s, s.scan.prev, grabPrev);
      && u.ptr == s.ptr && v in u.delegs && SameLinks(s.delegs[v], u.delegs[v])
      && (Returning in u.delegs[v].flags <==> Returning in s.delegs[v].flags)
      && d in u.delegs && (Pursued(s.delegs[d]) ==> Pursued(u.delegs[d]))
  {
  }

  lemma StartPursuit(s: State, v: nat, d: nat)
    requires v in s.delegs && s.delegs[v].inode.Some? && Returning !in s.delegs[v].flags
    requires PointsTo(s, s.delegs[v].inode.value, v) || !s.delegs[v].published
    requires d in s.delegs && (d == v || Pursued(s.delegs[d]))
    ensures Outcome(StartReturn(s, s.delegs[v].inode.value), d, false)
  {
  }

  // Taking a delegation whose mark has just been consumed starts its return.
  lemma TakePursuit(s: State, v: nat, grabPrev: bool, d: nat)
    requires s.scan.Walking? && v in s.delegs && s.delegs[v].inode.Some? && Returning !in s.delegs[v].flags
    requires PointsTo(s, s.delegs[v].inode.value, v) || !s.delegs[v].published
    requires d in s.delegs && (d == v || Pursued(s.delegs[d]))
    ensures Outcome(Take(s, s.delegs[v].inode.value, grabPrev), d, false)
  {
    hide Pursued, GrabPrev;
    GrabPrevPursuit(s, grabPrev, v, d);
    StartPursuit(GrabPrev(s, s.scan.prev, grabPrev), v, d);
  }

  // Consuming the mark of a delegation that is not due: something else keeps up the pursuit.
  lemma ConsumePursuit(s: State, v: nat, d: nat)
    requires v in s.delegs && d in s.delegs && Pursued(s.delegs[d]) && (d == v ==> !NeedReturn(s.delegs[v]))
    ensures Outcome(SetFlags(s, v, {}, {Return}), d, false)
  {
  }

  // The scan consumes a mark only where something else keeps up the pursuit.
  lemma VisitPursuit(s: State, grab: bool, grabPrev: bool, d: nat)
    requires Coherent(s) && CanScan(s, VisitNext(grab, grabPrev)) && d in s.delegs && Pursued(s.delegs[d])
    ensures Outcome(Visit(s, grab, grabPrev), d, false)
  {
    hide Coherent, Pursued;
    var v := s.scan.ahead[0];
    var x := s.delegs[v];
    var t := SetFlags(s, v, {}, {Return});
    if InodeFreeing !in x.flags {
      if !NeedReturn(x) {
        ConsumePursuit(s, v, d);
      } else if grab && x.inode.Some? {
        if x.published { LinkedPointer(s, v); }
        TakePursuit(t, v, grabPrev, d);
      } else {
        GrabFailedPursuit(t, v, d);
      }
    }
  }

  lemma ClearVisitPursuit(s: State, d: nat)
    requires CanScan(s, ClearNext) && d in s.delegs && Pursued(s.delegs[d])
    ensures Outcome(ClearVisit(s), d, false)
  {
  }

  lemma ScanPursuit(s: State, c: Scanner, d: nat)
    requires Coherent(s) && CanScan(s, c) && d in s.delegs && Pursued(s.delegs[d])
    ensures Outcome(ScanStep(s, c), d, Ends(s, Scans(c), d))
  {
    hide Coherent, Pursued, Only, Visit, Finish, ClearVisit;
    match c
    case VisitNext(grab, grabPrev) => VisitPursuit(s, grab, grabPrev, d);
    case Resume(result) => if s.scan.deleg.Some? { FinishPursuit(s, s.scan.deleg.value, result, d); }
    case ClearNext => ClearVisitPursuit(s, d);
    case _ =>
  }

  lemma StepPursuit(s: State, e: Event, d: nat)
    requires Coherent(s) && Enabled(s, e) && d in s.delegs && Pursued(s.delegs[d])
    ensures Outcome(Step(s, e), d, Ends(s, e, d))
  {
    match e
    case Granted(o) => GrantPursuit(s, o, d);
    case Reclaimed(o) => ReclaimPursuit(s, o, d);
    case Removes(r) => RemovePursuit(s, r, d);
    case Returner(r) => ReturnPursuit(s, r, d);
    case Marks(o, m) => MarkPursuit(s, o, m, d);
    case Verifies(_, _, _) =>
    case DropsAlias(_, _) =>
    case Scans(c) => ScanPursuit(s, c, d);
  }

  // A marked, put-off or returning delegation stays pursued through every step, consumed marks
  // included, except exactly at the steps named by Ends.
  lemma PursuitEndsIff(es: seq<Event>, e: Event, d: nat)
    requires Enabled(Run(es), e) && d in Run(es).delegs && Pursued(Run(es).delegs[d])
    ensures d in Run(es + [e]).delegs && (Pursued(Run(es + [e]).delegs[d]) <==> !Ends(Run(es), e, d))
  {
    RunCoherent(es);
    RunSnoc(es, e);
    StepPursuit(Run(es), e, d);
  }
}
