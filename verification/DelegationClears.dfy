/**
 Dentry tags when disabling a delegation and clearing the tags of its inode are two steps, as in
 the code: a thread that starts a return or revokes a delegation sets the flag first and clears the
 tags later.  A tag on an inode without a usable delegation is then always one that somebody is
 still going to clear, with one exception that is made exact.
 */
module DelegationClears {
  import opened Wrappers
  import opened Delegation
  import opened DelegationCoherence
  import opened DelegationTags

  // A clear that is still to come: of an inode the thread has in hand, or of the inode that the
  // delegation will point to by then.
  datatype Clear = ByInode(i: nat) | ByDeleg(d: nat)

  datatype Fine = Fine(s: State, pending: multiset<Clear>)

  datatype FineEvent = Flags(e: Event) | Wipe(c: Clear)

  // nfs_mark_delegation_revoked clears tags only if no return has been started.
  predicate ClearsWhenRevoked(x: Deleg) { Revoked !in x.flags && Returning !in x.flags }

  // What a step leaves to be cleared.  nfs_delegation_mark_returned holds the delegation's lock until
  // it has cleared, so it has the inode in hand; nfs_revoke_delegation and nfs_free_delegation do not.
  function Pend(s: State, e: Event): Option<Clear>
    requires Enabled(s, e)
  {
    match e
    case Returner(Starting(i)) => if Startable(s, i).Some? then Some(ByInode(i)) else None
    case Returner(SettingOnClose(i, closed)) => if CanStart(s, i) && closed then Some(ByInode(i)) else None
    case Returner(OnClose(i, closed, watermark)) =>
      if CanStart(s, i) && (ReturnIfClosed in s.delegs[s.ptr[i]].flags || s.active >= watermark) && closed
      then Some(ByInode(i)) else None
    case Removes(Revoking(i, sid)) =>
      if Pointed(s, i) && ClearsWhenRevoked(s.delegs[s.ptr[i]]) && Revokes(s.delegs[s.ptr[i]], sid)
      then Some(ByDeleg(s.ptr[i])) else None
    case Removes(MarkingReturned(i, sid)) =>
      if Pointed(s, i) && ClearsWhenRevoked(s.delegs[s.ptr[i]]) && Revokes(s.delegs[s.ptr[i]], Some(sid))
      then Some(ByInode(i)) else None
    case Removes(DroppingBase(d)) =>
      if s.delegs[d].base.revoke && ClearsWhenRevoked(s.delegs[d]) then Some(ByDeleg(d)) else None
    case Scans(VisitNext(grab, grabPrev)) => VisitPend(s, grab, grabPrev)
    case _ => None
  }

  predicate Pointed(s: State, i: nat) { i in s.ptr && s.ptr[i] in s.delegs }

  predicate CanStart(s: State, i: nat) { Pointed(s, i) && Valid(s.delegs[s.ptr[i]]) && s.delegs[s.ptr[i]].inode.Some? }

  // The stateid given is not older than the delegation's.
  predicate Revokes(x: Deleg, sid: Option<Stateid>) {
    sid.None? || (sid.value.other == x.stateid.other && (sid.value.seqid == 0 || !IsNewer(x.stateid, sid.value)))
  }

  function VisitPend(s: State, grab: bool, grabPrev: bool): Option<Clear>
    requires CanScan(s, VisitNext(grab, grabPrev))
  {
    var d := s.scan.ahead[0];
    var x := s.delegs[d];
    if InodeFreeing in x.flags || !NeedReturn(x) || !grab || x.inode.None? then None
    else
      var u := GrabPrev(SetFlags(s, d, {}, {Return}), s.scan.prev, grabPrev);
      if Startable(u, x.inode.value).Some? then Some(ByInode(x.inode.value)) else None
  }

  function Also(pending: multiset<Clear>, c: Option<Clear>): multiset<Clear> {
    if c.Some? then pending + multiset{c.value} else pending
  }

  predicate SetsTags(e: Event) { e.Verifies? || e.DropsAlias? }

  function Target(s: State, c: Clear): Option<nat> {
    match c
    case ByInode(i) => Some(i)
    case ByDeleg(d) => if d in s.delegs then s.delegs[d].inode else None
  }

  predicate FineEnabled(f: Fine, v: FineEvent) {
    match v
    case Flags(e) => Enabled(f.s, e)
    case Wipe(c) => c in f.pending
  }

  // A step of the delegation code without its clear, or the clear of an earlier one.
  function FineStep(f: Fine, v: FineEvent): Fine
    requires FineEnabled(f, v)
  {
    match v
    case Flags(e) =>
      var t := Step(f.s, e);
      Fine(if SetsTags(e) then t else t.(tagged := f.s.tagged), Also(f.pending, Pend(f.s, e)))
    case Wipe(c) => Fine(ClearTags(f.s, Target(f.s, c)), f.pending - multiset{c})
  }

  function FineRun(vs: seq<FineEvent>): Fine {
    if vs == [] then Fine(Empty(), multiset{})
    else
      var f := FineRun(vs[..|vs|-1]);
      if FineEnabled(f, vs[|vs|-1]) then FineStep(f, vs[|vs|-1]) else f
  }

  // ------------------------------------------------------------ the invariant

  ghost predicate CoveredBy(s: State, pending: multiset<Clear>, i: nat) { exists c :: c in pending && Target(s, c) == Some(i) }

  // Every tagged inode has a usable delegation or a clear that is still to come.
  ghost predicate FineSound(f: Fine) {
    forall t :: t in f.s.tagged ==> Usable(f.s, t.0) || CoveredBy(f.s, f.pending, t.0)
  }

  // With nothing left to clear that is soundness.
  lemma SettledIsSound(f: Fine)
    requires FineSound(f) && f.pending == multiset{}
    ensures TagSound(f.s)
  {
  }

  lemma SameButTags(s: State, tags: set<(nat, nat)>)
    requires Coherent(s)
    ensures Coherent(s.(tagged := tags))
  {
    SameShapeCoherent(s, s.(tagged := tags));
  }

  lemma FineStepCoherent(f: Fine, v: FineEvent)
    requires Coherent(f.s) && FineEnabled(f, v)
    ensures Coherent(FineStep(f, v).s)
  {
    match v
    case Flags(e) =>
      StepCoherent(f.s, e);
      SameButTags(Step(f.s, e), f.s.tagged);
    case Wipe(c) => SameShapeCoherent(f.s, ClearTags(f.s, Target(f.s, c)));
  }

  lemma {:induction false} FineRunCoherent(vs: seq<FineEvent>)
    ensures Coherent(FineRun(vs).s)
  {
    if vs == [] {
      RunCoherent([]);
    } else {
      FineRunCoherent(vs[..|vs|-1]);
      var f := FineRun(vs[..|vs|-1]);
      if FineEnabled(f, vs[|vs|-1]) { FineStepCoherent(f, vs[|vs|-1]); }
    }
  }

  lemma WipeSound(f: Fine, c: Clear)
    requires FineSound(f) && c in f.pending
    ensures FineSound(FineStep(f, Wipe(c)))
  {
    var g := FineStep(f, Wipe(c));
    forall t | t in g.s.tagged ensures Usable(g.s, t.0) || CoveredBy(g.s, g.pending, t.0) {
      if !Usable(f.s, t.0) {
        var x :| x in f.pending && Target(f.s, x) == Some(t.0);
        assert x != c;
        assert x in g.pending && Target(g.s, x) == Some(t.0);
      }
    }
  }

  // ------------------------------------------------------------ what a step does to one tag

  function OneTag(s: State, i: nat): State { s.(tagged := {(i, 0)}) }

  // With one tag on inode i the step t does the same as u does without, and if it clears the tag a
  // clear of the inode is left to be done.
  predicate Agrees(t: State, u: State, i: nat, c: Option<Clear>) {
    && t.delegs == u.delegs && t.ptr == u.ptr
    && ((i, 0) in t.tagged || (c.Some? && Target(u, c.value) == Some(i)))
  }

  // Wherever RETURNING is set a clear of the delegation's inode follows.
  lemma BeginAgrees(s: State, d: nat, drop: set<Flag>, i: nat, j: nat)
    requires d in s.delegs && s.delegs[d].inode == Some(j)
    ensures Agrees(Begin(OneTag(s, i), d, drop), Begin(s, d, drop), i, Some(ByInode(j)))
  {
  }

  lemma MarkRevokedAgrees(s: State, d: nat, i: nat)
    requires d in s.delegs
    ensures Agrees(MarkRevoked(OneTag(s, i), d), MarkRevoked(s, d), i,
                   if ClearsWhenRevoked(s.delegs[d]) then Some(ByDeleg(d)) else None)
  {
  }

  lemma ReseqAgrees(s: State, d: nat, seqid: Seqid, i: nat)
    requires d in s.delegs
    ensures Reseq(OneTag(s, i), d, seqid) == OneTag(Reseq(s, d, seqid), i)
    ensures d in Reseq(s, d, seqid).delegs && Reseq(s, d, seqid).delegs[d].flags == s.delegs[d].flags
    ensures Reseq(s, d, seqid).delegs[d].inode == s.delegs[d].inode
  {
  }

  lemma ReseqRevokeAgrees(s: State, d: nat, seqid: Seqid, i: nat)
    requires d in s.delegs
    ensures d in Reseq(s, d, seqid).delegs
    ensures Agrees(MarkRevoked(Reseq(OneTag(s, i), d, seqid), d), MarkRevoked(Reseq(s, d, seqid), d), i,
                   if ClearsWhenRevoked(s.delegs[d]) then Some(ByDeleg(d)) else None)
  {
    ReseqAgrees(s, d, seqid, i);
    MarkRevokedAgrees(Reseq(s, d, seqid), d, i);
  }

  lemma RevokeAgrees(s: State, j: nat, sid: Option<Stateid>, i: nat)
    ensures Agrees(Revoke(OneTag(s, i), j, sid), Revoke(s, j, sid), i, Pend(s, Removes(Revoking(j, sid))))
  {
    if Pointed(s, j) && Revokes(s.delegs[s.ptr[j]], sid) {
      if sid.None? {
        MarkRevokedAgrees(s, s.ptr[j], i);
      } else {
        ReseqRevokeAgrees(s, s.ptr[j], sid.value.seqid, i);
      }
    }
  }

  lemma SurrenderAgrees(s: State, d: nat, seqid: Seqid, i: nat, j: nat)
    requires d in s.delegs && s.delegs[d].inode == Some(j)
    ensures Agrees(Surrender(OneTag(s, i), d, seqid), Surrender(s, d, seqid), i,
                   if ClearsWhenRevoked(s.delegs[d]) then Some(ByInode(j)) else None)
  {
    ReseqAgrees(s, d, seqid, i);
    MarkRevokedAgrees(Reseq(s, d, seqid), d, i);
  }

  // The inode's delegation points back.
  predicate Back(s: State, j: nat) { j in s.ptr ==> s.ptr[j] in s.delegs && s.delegs[s.ptr[j]].inode == Some(j) }

  lemma SetFlagsAgrees(s: State, d: nat, add: set<Flag>, drop: set<Flag>, i: nat)
    requires d in s.delegs
    ensures SetFlags(OneTag(s, i), d, add, drop) == OneTag(SetFlags(s, d, add, drop), i)
    ensures d in SetFlags(s, d, add, drop).delegs
    ensures GrabFailed(OneTag(s, i), d) == OneTag(GrabFailed(s, d), i)
  {
  }

  lemma MarkReturnedAgrees(s: State, j: nat, sid: Stateid, i: nat)
    requires Back(s, j)
    ensures Agrees(MarkReturned(OneTag(s, i), j, sid), MarkReturned(s, j, sid), i, Pend(s, Removes(MarkingReturned(j, sid))))
  {
    if j in s.ptr && sid.other == s.delegs[s.ptr[j]].stateid.other {
      if sid.seqid != 0 && IsNewer(s.delegs[s.ptr[j]].stateid, sid) {
        SetFlagsAgrees(s, s.ptr[j], {}, {Returning}, i);
      } else {
        SurrenderAgrees(s, s.ptr[j], sid.seqid, i, j);
      }
    }
  }

  lemma DropBaseAgrees(s: State, d: nat, i: nat)
    requires d in s.delegs && s.delegs[d].base.Dropping?
    ensures Agrees(DropBase(OneTag(s, i), d), DropBase(s, d), i, Pend(s, Removes(DroppingBase(d))))
  {
    MarkRevokedAgrees(s, d, i);
  }

  lemma EvictAgrees(s: State, j: nat, i: nat)
    ensures Agrees(Evict(OneTag(s, i), j), Evict(s, j), i, None)
  {
  }

  lemma RemoveAgrees(s: State, r: Removal, i: nat)
    requires (forall j :: Back(s, j)) && CanRemove(s, r) && CanRemove(OneTag(s, i), r) && !Detaches(Removes(r))
    ensures Agrees(RemoveStep(OneTag(s, i), r), RemoveStep(s, r), i, Pend(s, Removes(r)))
  {
    match r
    case Revoking(j, sid) => RevokeAgrees(s, j, sid, i);
    case MarkingReturned(j, sid) => MarkReturnedAgrees(s, j, sid, i);
    case DroppingBase(d) => DropBaseAgrees(s, d, i);
    case Evicting(j) => EvictAgrees(s, j, i);
  }

  lemma StartAgrees(s: State, j: nat, i: nat)
    requires Back(s, j)
    ensures Agrees(StartReturn(OneTag(s, i), j), StartReturn(s, j), i, if Startable(s, j).Some? then Some(ByInode(j)) else None)
  {
    if Startable(s, j).Some? { BeginAgrees(s, s.ptr[j], {ReturnDelayed}, i, j); }
  }

  lemma SetOnCloseAgrees(s: State, j: nat, closed: bool, i: nat)
    requires Back(s, j)
    ensures Agrees(SetReturnOnClose(OneTag(s, i), j, closed), SetReturnOnClose(s, j, closed), i,
                   if CanStart(s, j) && closed then Some(ByInode(j)) else None)
  {
    if CanStart(s, j) { BeginAgrees(s, s.ptr[j], {}, i, j); }
  }

  lemma OnCloseAgrees(s: State, j: nat, closed: bool, watermark: nat, i: nat)
    requires Back(s, j)
    ensures Agrees(ReturnOnClose(OneTag(s, i), j, closed, watermark), ReturnOnClose(s, j, closed, watermark), i,
                   Pend(s, Returner(OnClose(j, closed, watermark))))
  {
    if CanStart(s, j) { BeginAgrees(s, s.ptr[j], {ReturnIfClosed}, i, j); }
  }

  // The end of a return has nothing to do with tags.
  lemma FinishAgrees(s: State, d: nat, result: Result, i: nat)
    requires Returned(s, d)
    ensures Finish(OneTag(s, i), d, result) == OneTag(Finish(s, d, result), i)
  {
  }

  lemma ReturnAgrees(s: State, r: Returner, i: nat)
    requires (forall j :: Back(s, j)) && CanReturn(s, r)
    ensures Agrees(ReturnStep(OneTag(s, i), r), ReturnStep(s, r), i, Pend(s, Returner(r)))
  {
    match r
    case Starting(j) => StartAgrees(s, j, i);
    case SettingOnClose(j, closed) => SetOnCloseAgrees(s, j, closed, i);
    case OnClose(j, closed, watermark) => OnCloseAgrees(s, j, closed, watermark, i);
    case Finishing(d, result) => FinishAgrees(s, d, result, i);
  }

  // The state in which the scan starts a return.
  function BeforeTake(s: State, grabPrev: bool): State
    requires s.scan.Walking? && s.scan.ahead != [] && s.scan.ahead[0] in s.delegs
  {
    GrabPrev(SetFlags(s, s.scan.ahead[0], {}, {Return}), s.scan.prev, grabPrev)
  }

  lemma BeforeTakeAgrees(s: State, grabPrev: bool, i: nat, j: nat)
    requires s.scan.Walking? && s.scan.ahead != [] && s.scan.ahead[0] in s.delegs && Back(s, j)
    ensures BeforeTake(OneTag(s, i), grabPrev) == OneTag(BeforeTake(s, grabPrev), i) && Back(BeforeTake(s, grabPrev), j)
  {
  }

  lemma PassAgrees(s: State, grab: bool, grabPrev: bool, i: nat)
    requires CanScan(s, VisitNext(grab, grabPrev))
    requires var x := s.delegs[s.scan.ahead[0]]; InodeFreeing in x.flags || !NeedReturn(x) || !grab || x.inode.None?
    ensures Visit(OneTag(s, i), grab, grabPrev) == OneTag(Visit(s, grab, grabPrev), i)
  {
    hide SetFlags, GrabFailed;
    var d := s.scan.ahead[0];
    SetFlagsAgrees(s, d, {}, {Return}, i);
    SetFlagsAgrees(SetFlags(s, d, {}, {Return}), d, {}, {}, i);
  }

  lemma VisitAgrees(s: State, grab: bool, grabPrev: bool, i: nat)
    requires (forall j :: Back(s, j)) && CanScan(s, VisitNext(grab, grabPrev))
    ensures Agrees(Visit(OneTag(s, i), grab, grabPrev), Visit(s, grab, grabPrev), i, VisitPend(s, grab, grabPrev))
  {
    var x := s.delegs[s.scan.ahead[0]];
    if InodeFreeing !in x.flags && NeedReturn(x) && grab && x.inode.Some? {
      hide StartReturn, GrabPrev, Back;
      BeforeTakeAgrees(s, grabPrev, i, x.inode.value);
      StartAgrees(BeforeTake(s, grabPrev), x.inode.value, i);
    } else {
      hide Visit, Back;
      PassAgrees(s, grab, grabPrev, i);
    }
  }

  lemma ResumeAgrees(s: State, result: Result, i: nat)
    requires CanScan(s, Resume(result))
    ensures Agrees(ScanResume(OneTag(s, i), result), ScanResume(s, result), i, None)
  {
    if s.scan.deleg.Some? { FinishAgrees(s, s.scan.deleg.value, result, i); }
  }

  lemma ClearVisitAgrees(s: State, i: nat)
    requires CanScan(s, ClearNext)
    ensures Agrees(ClearVisit(OneTag(s, i)), ClearVisit(s), i, None)
  {
  }

  lemma ScanAgrees(s: State, c: Scanner, i: nat)
    requires (forall j :: Back(s, j)) && CanScan(s, c)
    ensures Agrees(ScanStep(OneTag(s, i), c), ScanStep(s, c), i, Pend(s, Scans(c)))
  {
    hide Visit, ScanResume, ClearVisit, Back;
    match c
    case VisitNext(grab, grabPrev) => VisitAgrees(s, grab, grabPrev, i);
    case Resume(result) => ResumeAgrees(s, result, i);
    case ClearNext => ClearVisitAgrees(s, i);
    case _ =>
  }

  lemma DetachAgrees(s: State, d: nat, revoke: bool, i: nat)
    requires d in s.delegs
    ensures Detach(OneTag(s, i), d, revoke) == OneTag(Detach(s, d, revoke), i)
    ensures Detach(OneTag(s, i), d, revoke) == OneTag(s, i) <==> Detach(s, d, revoke) == s
  {
  }

  lemma UpdateAgrees(s: State, d: nat, mode: Mode, sid: Stateid, i: nat)
    requires d in s.delegs
    ensures UpdateInPlace(OneTag(s, i), d, mode, sid) == OneTag(UpdateInPlace(s, d, mode, sid), i)
  {
  }

  lemma AddAgrees(s: State, o: Offer, i: nat)
    ensures Publish(OneTag(s, i), o.inode, o.d, o.mode, o.stateid, o.delegTime)
         == OneTag(Publish(s, o.inode, o.d, o.mode, o.stateid, o.delegTime), i)
    ensures Duplicate(OneTag(s, i), o.inode, o.d, o.mode, o.stateid, o.delegTime)
         == OneTag(Duplicate(s, o.inode, o.d, o.mode, o.stateid, o.delegTime), i)
  {
  }

  lemma GrantAgrees(s: State, o: Offer, i: nat)
    requires o.d !in s.delegs
    ensures Grant(OneTag(s, i), o.inode, o.d, o.mode, o.stateid, o.delegTime)
         == OneTag(Grant(s, o.inode, o.d, o.mode, o.stateid, o.delegTime), i)
  {
    hide Publish, Duplicate, UpdateInPlace;
    AddAgrees(s, o, i);
    if Pointed(s, o.inode) {
      var p := s.ptr[o.inode];
      UpdateAgrees(s, p, o.mode, o.stateid, i);
      var t := if Revoked in s.delegs[p].flags then s else SetFlags(s, p, {Returning}, {});
      DetachAgrees(t, p, true, i);
      AddAgrees(Detach(t, p, true), o, i);
    }
  }

  lemma ReclaimAgrees(s: State, o: Offer, i: nat)
    requires o.d !in s.delegs
    ensures Reclaim(OneTag(s, i), o.inode, o.d, o.mode, o.stateid, o.delegTime)
         == OneTag(Reclaim(s, o.inode, o.d, o.mode, o.stateid, o.delegTime), i)
  {
    if !Pointed(s, o.inode) { GrantAgrees(s, o, i); }
  }

  lemma MarkAgrees(s: State, d: nat, m: Mark, i: nat)
    requires d in s.delegs
    ensures ApplyMark(OneTag(s, i), d, m) == OneTag(ApplyMark(s, d, m), i)
  {
  }

  lemma StepAgrees(s: State, e: Event, i: nat)
    requires (forall j :: Back(s, j)) && Enabled(s, e) && Enabled(OneTag(s, i), e) && !Detaches(e) && !SetsTags(e)
    ensures Agrees(Step(OneTag(s, i), e), Step(s, e), i, Pend(s, e))
  {
    match e
    case Granted(o) => GrantAgrees(s, o, i);
    case Reclaimed(o) => ReclaimAgrees(s, o, i);
    case Removes(r) => RemoveAgrees(s, r, i);
    case Returner(r) => ReturnAgrees(s, r, i);
    case Marks(d, m) => MarkAgrees(s, d, m, i);
    case Scans(c) => ScanAgrees(s, c, i);
  }

  // ------------------------------------------------------------ what becomes of a clear to come

  // Delegation d still points to inode i, or the inode has a usable delegation.
  predicate PointsOn(t: State, d: nat, i: nat) { (d in t.delegs && t.delegs[d].inode == Some(i)) || Usable(t, i) }

  predicate PointsAt(s: State, d: nat, i: nat) { d in s.delegs && s.delegs[d].inode == Some(i) }

  lemma ReplacePoints(s: State, o: Offer, p: nat, d: nat, i: nat)
    requires o.d !in s.delegs && PointsAt(s, d, i) && p in s.delegs && (d == p ==> i == o.inode)
    ensures var t := if Revoked in s.delegs[p].flags then s else SetFlags(s, p, {Returning}, {});
      && PointsOn(t, d, i)
      && PointsOn(Publish(Detach(t, p, true), o.inode, o.d, o.mode, o.stateid, o.delegTime), d, i)
  {
  }

  lemma UpdatePoints(s: State, p: nat, mode: Mode, sid: Stateid, d: nat, i: nat)
    requires PointsAt(s, d, i) && p in s.delegs
    ensures PointsAt(UpdateInPlace(s, p, mode, sid), d, i)
  {
  }

  lemma GrantPoints(s: State, o: Offer, d: nat, i: nat)
    requires o.d !in s.delegs && PointsAt(s, d, i) && Back(s, o.inode)
    ensures PointsOn(Grant(s, o.inode, o.d, o.mode, o.stateid, o.delegTime), d, i)
  {
    if o.inode in s.ptr {
      var p := s.ptr[o.inode];
      UpdatePoints(s, p, o.mode, o.stateid, d, i);
      ReplacePoints(s, o, p, d, i);
    }
  }

  lemma ReclaimPoints(s: State, o: Offer, d: nat, i: nat)
    requires o.d !in s.delegs && PointsAt(s, d, i) && Back(s, o.inode)
    ensures PointsOn(Reclaim(s, o.inode, o.d, o.mode, o.stateid, o.delegTime), d, i)
  {
    if o.inode !in s.ptr { GrantPoints(s, o, d, i); }
  }

  lemma MarkRevokedPoints(s: State, p: nat, d: nat, i: nat)
    requires p in s.delegs && PointsAt(s, d, i)
    ensures PointsAt(MarkRevoked(s, p), d, i) && p in MarkRevoked(s, p).delegs
  {
  }

  lemma ReseqPoints(s: State, p: nat, seqid: Seqid, d: nat, i: nat)
    requires p in s.delegs && PointsAt(s, d, i)
    ensures PointsAt(Reseq(s, p, seqid), d, i) && p in Reseq(s, p, seqid).delegs
  {
  }

  lemma SurrenderPoints(s: State, p: nat, seqid: Seqid, d: nat, i: nat)
    requires p in s.delegs && PointsAt(s, d, i)
    ensures PointsAt(Surrender(s, p, seqid), d, i)
  {
    ReseqPoints(s, p, seqid, d, i);
    MarkRevokedPoints(Reseq(s, p, seqid), p, d, i);
  }

  lemma RevokePoints(s: State, j: nat, sid: Option<Stateid>, d: nat, i: nat)
    requires PointsAt(s, d, i)
    ensures PointsAt(Revoke(s, j, sid), d, i)
  {
    if Pointed(s, j) {
      MarkRevokedPoints(s, s.ptr[j], d, i);
      if sid.Some? {
        ReseqPoints(s, s.ptr[j], sid.value.seqid, d, i);
        MarkRevokedPoints(Reseq(s, s.ptr[j], sid.value.seqid), s.ptr[j], d, i);
      }
    }
  }

  lemma EvictPoints(s: State, j: nat, d: nat, i: nat)
    requires PointsAt(s, d, i) && Back(s, j) && i != j
    ensures PointsAt(Evict(s, j), d, i)
  {
  }

  lemma RemovePoints(s: State, r: Removal, d: nat, i: nat)
    requires CanRemove(s, r) && !Detaches(Removes(r)) && r != Evicting(i) && PointsAt(s, d, i) && forall j :: Back(s, j)
    ensures PointsAt(RemoveStep(s, r), d, i)
  {
    match r
    case Revoking(j, sid) => RevokePoints(s, j, sid, d, i);
    case MarkingReturned(j, sid) => if Pointed(s, j) { SurrenderPoints(s, s.ptr[j], sid.seqid, d, i); }
    case DroppingBase(p) => MarkRevokedPoints(s, p, d, i);
    case Evicting(j) => EvictPoints(s, j, d, i);
  }

  lemma ReturnPoints(s: State, r: Returner, d: nat, i: nat)
    requires CanReturn(s, r) && PointsAt(s, d, i)
    ensures PointsAt(ReturnStep(s, r), d, i)
  {
  }

  lemma StartPoints(s: State, j: nat, d: nat, i: nat)
    requires PointsAt(s, d, i)
    ensures PointsAt(StartReturn(s, j), d, i)
  {
  }

  lemma BeforeTakePoints(s: State, grabPrev: bool, d: nat, i: nat)
    requires s.scan.Walking? && s.scan.ahead != [] && s.scan.ahead[0] in s.delegs && PointsAt(s, d, i)
    ensures PointsAt(BeforeTake(s, grabPrev), d, i)
  {
  }

  lemma VisitPoints(s: State, grab: bool, grabPrev: bool, d: nat, i: nat)
    requires CanScan(s, VisitNext(grab, grabPrev)) && PointsAt(s, d, i)
    ensures PointsAt(Visit(s, grab, grabPrev), d, i)
  {
    var x := s.delegs[s.scan.ahead[0]];
    if InodeFreeing !in x.flags && NeedReturn(x) && grab && x.inode.Some? {
      BeforeTakePoints(s, grabPrev, d, i);
      StartPoints(BeforeTake(s, grabPrev), x.inode.value, d, i);
    }
  }

  lemma ScanPoints(s: State, c: Scanner, d: nat, i: nat)
    requires CanScan(s, c) && PointsAt(s, d, i)
    ensures PointsAt(ScanStep(s, c), d, i)
  {
    match c
    case VisitNext(grab, grabPrev) => VisitPoints(s, grab, grabPrev, d, i);
    case _ =>
  }

  lemma MarkPoints(s: State, p: nat, m: Mark, d: nat, i: nat)
    requires p in s.delegs && PointsAt(s, d, i)
    ensures PointsAt(ApplyMark(s, p, m), d, i)
  {
  }

  lemma StepPoints(s: State, e: Event, d: nat, i: nat)
    requires Enabled(s, e) && !Detaches(e) && e != Removes(Evicting(i)) && PointsAt(s, d, i) && forall j :: Back(s, j)
    ensures PointsOn(Step(s, e), d, i)
  {
    match e
    case Granted(o) => GrantPoints(s, o, d, i);
    case Reclaimed(o) => ReclaimPoints(s, o, d, i);
    case Removes(r) => RemovePoints(s, r, d, i);
    case Returner(r) => ReturnPoints(s, r, d, i);
    case Marks(p, m) => MarkPoints(s, p, m, d, i);
    case Verifies(_, _, _) =>
    case DropsAlias(_, _) =>
    case Scans(c) => ScanPoints(s, c, d, i);
  }

  // ------------------------------------------------------------ steps keep the invariant

  lemma CoherentBack(s: State, j: nat)
    requires Coherent(s)
    ensures Back(s, j)
  {
  }

  // A usable delegation stays usable or leaves a clear of its inode to be done.
  lemma UsableNext(s: State, e: Event, i: nat)
    requires Coherent(s) && Enabled(s, e) && !Detaches(e) && !SetsTags(e) && Usable(s, i) && e != Removes(Evicting(i))
    ensures Usable(Step(s, e), i) || (Pend(s, e).Some? && Target(Step(s, e), Pend(s, e).value) == Some(i))
  {
    forall j: nat ensures Back(s, j) { CoherentBack(s, j); }
    SameButTags(s, {(i, 0)});
    StepSound(OneTag(s, i), e);
    StepAgrees(s, e, i);
  }

  // A clear to come stays one for its inode, or the inode gets a usable delegation.
  lemma CoverNext(s: State, e: Event, pending: multiset<Clear>, i: nat)
    requires Coherent(s) && Enabled(s, e) && !Detaches(e) && CoveredBy(s, pending, i) && e != Removes(Evicting(i))
    ensures CoveredBy(Step(s, e), pending, i) || Usable(Step(s, e), i)
  {
    var c :| c in pending && Target(s, c) == Some(i);
    if c.ByDeleg? {
      forall j: nat ensures Back(s, j) { CoherentBack(s, j); }
      StepPoints(s, e, c.d, i);
    }
    if !Usable(Step(s, e), i) { assert Target(Step(s, e), c) == Some(i); }
  }

  // Neither looks at the tags.
  lemma TagsDoNotMatter(s: State, tags: set<(nat, nat)>, pending: multiset<Clear>, i: nat)
    ensures Usable(s.(tagged := tags), i) <==> Usable(s, i)
    ensures CoveredBy(s, pending, i) ==> CoveredBy(s.(tagged := tags), pending, i)
  {
    if CoveredBy(s, pending, i) {
      var c :| c in pending && Target(s, c) == Some(i);
      assert Target(s.(tagged := tags), c) == Some(i);
    }
  }

  lemma MorePending(s: State, pending: multiset<Clear>, c: Option<Clear>, i: nat)
    ensures CoveredBy(s, pending, i) ==> CoveredBy(s, Also(pending, c), i)
    ensures c.Some? && Target(s, c.value) == Some(i) ==> CoveredBy(s, Also(pending, c), i)
  {
    if CoveredBy(s, pending, i) {
      var x :| x in pending && Target(s, x) == Some(i);
      assert x in Also(pending, c);
    }
    if c.Some? { assert c.value in Also(pending, c); }
  }

  lemma FlagsSound(f: Fine, e: Event)
    requires Coherent(f.s) && FineSound(f) && Enabled(f.s, e) && !Detaches(e) && !SetsTags(e)
    ensures FineSound(FineStep(f, Flags(e)))
  {
    var u := Step(f.s, e);
    var g := FineStep(f, Flags(e));
    forall t | t in f.s.tagged ensures Usable(g.s, t.0) || CoveredBy(g.s, g.pending, t.0) {
      if Usable(f.s, t.0) { UsableNext(f.s, e, t.0); } else { CoverNext(f.s, e, f.pending, t.0); }
      MorePending(u, f.pending, Pend(f.s, e), t.0);
      TagsDoNotMatter(u, f.s.tagged, g.pending, t.0);
    }
  }

  // Tagging happens only under a usable delegation, and takes none away.
  lemma TagIsUsable(s: State, e: Event, t: (nat, nat))
    requires Enabled(s, e) && SetsTags(e)
    ensures t in Step(s, e).tagged && t !in s.tagged ==> Usable(Step(s, e), t.0)
    ensures Usable(s, t.0) ==> Usable(Step(s, e), t.0)
  {
  }

  lemma TaggingSound(f: Fine, e: Event)
    requires Coherent(f.s) && FineSound(f) && Enabled(f.s, e) && SetsTags(e)
    ensures FineSound(FineStep(f, Flags(e)))
  {
    hide Coherent, Usable, CoveredBy, Step;
    var g := FineStep(f, Flags(e));
    forall t | t in g.s.tagged ensures Usable(g.s, t.0) || CoveredBy(g.s, g.pending, t.0) {
      TagIsUsable(f.s, e, t);
      if t in f.s.tagged && !Usable(f.s, t.0) { CoverNext(f.s, e, f.pending, t.0); }
    }
  }

  // A detach does no harm if no alias is tagged or a clear is to come that will still find the inode.
  ghost predicate Harmless(f: Fine, e: Event) {
    Detaches(e) && e.removal.d in f.s.delegs && Linked(f.s.delegs[e.removal.d]) ==>
      var i := f.s.delegs[e.removal.d].inode.value;
      Untagged(f.s, i) || exists c :: c in f.pending && c != ByDeleg(e.removal.d) && Target(f.s, c) == Some(i)
  }

  // What detaching d does to the other inodes and to the clears to come.
  lemma DetachLeaves(s: State, d: nat, revoke: bool, k: nat)
    requires Coherent(s) && d in s.delegs && Linked(s.delegs[d])
    ensures Usable(Detach(s, d, revoke), k) <==> Usable(s, k) && s.delegs[d].inode != Some(k)
  {
  }

  lemma DetachTarget(s: State, d: nat, revoke: bool, c: Clear)
    requires Coherent(s) && d in s.delegs && Linked(s.delegs[d])
    ensures Target(Detach(s, d, revoke), c) == if c == ByDeleg(d) then None else Target(s, c)
  {
  }

  lemma DetachCovers(s: State, pending: multiset<Clear>, d: nat, revoke: bool, k: nat)
    requires Coherent(s) && d in s.delegs && Linked(s.delegs[d])
    ensures CoveredBy(Detach(s, d, revoke), pending, k)
            <==> exists c :: c in pending && c != ByDeleg(d) && Target(s, c) == Some(k)
  {
    hide Coherent, Target, Detach;
    forall c: Clear ensures Target(Detach(s, d, revoke), c) == if c == ByDeleg(d) then None else Target(s, c) {
      DetachTarget(s, d, revoke, c);
    }
  }

  // A clear that will not find the inode any more targets only that inode.
  lemma OtherCovers(s: State, pending: multiset<Clear>, d: nat, k: nat)
    requires d in s.delegs && s.delegs[d].inode.Some? && s.delegs[d].inode != Some(k) && CoveredBy(s, pending, k)
    ensures exists c :: c in pending && c != ByDeleg(d) && Target(s, c) == Some(k)
  {
  }

  lemma DetachIff(f: Fine, t: State, d: nat, revoke: bool)
    requires Coherent(f.s) && FineSound(f) && d in f.s.delegs && Linked(f.s.delegs[d]) && t == Detach(f.s, d, revoke)
    ensures var i := f.s.delegs[d].inode.value;
      FineSound(Fine(t, f.pending))
      <==> Untagged(f.s, i) || exists c :: c in f.pending && c != ByDeleg(d) && Target(f.s, c) == Some(i)
  {
    var i := f.s.delegs[d].inode.value;
    assert t.tagged == f.s.tagged;
    hide Coherent, Usable, Target, CoveredBy, Detach;
    DetachLeaves(f.s, d, revoke, i);
    DetachCovers(f.s, f.pending, d, revoke, i);
    forall g | g in t.tagged && g.0 != i ensures Usable(t, g.0) || CoveredBy(t, f.pending, g.0) {
      DetachLeaves(f.s, d, revoke, g.0);
      DetachCovers(f.s, f.pending, d, revoke, g.0);
      if !Usable(f.s, g.0) { OtherCovers(f.s, f.pending, d, g.0); }
    }
  }

  lemma DetachingIs(f: Fine, e: Event)
    requires Enabled(f.s, e) && Detaches(e)
    ensures var g := FineStep(f, Flags(e));
      g.pending == f.pending && g.s == Detach(f.s, e.removal.d, e.removal.ReapDetaching?).(toDetach := g.s.toDetach)
  {
  }

  lemma DetachingIff(f: Fine, e: Event)
    requires Coherent(f.s) && FineSound(f) && Enabled(f.s, e) && Detaches(e)
    ensures FineSound(FineStep(f, Flags(e))) <==> Harmless(f, e)
  {
    var d, revoke := e.removal.d, e.removal.ReapDetaching?;
    var t := Detach(f.s, d, revoke);
    DetachingIs(f, e);
    HideQueue(Fine(t, f.pending), FineStep(f, Flags(e)).s);
    if Linked(f.s.delegs[d]) { DetachIff(f, t, d, revoke); } else { DetachCoherent(f.s, d, revoke); }
  }

  // The queue of second sections has no part in it.
  lemma HideQueue(f: Fine, s: State)
    requires s == f.s.(toDetach := s.toDetach)
    ensures FineSound(Fine(s, f.pending)) <==> FineSound(f)
  {
    forall i: nat ensures CoveredBy(s, f.pending, i) <==> CoveredBy(f.s, f.pending, i) {
      forall c: Clear ensures Target(s, c) == Target(f.s, c) {}
    }
  }

  lemma FineStepIff(f: Fine, v: FineEvent)
    requires Coherent(f.s) && FineSound(f) && FineEnabled(f, v)
    ensures FineSound(FineStep(f, v)) <==> (v.Flags? ==> Harmless(f, v.e))
  {
    match v
    case Wipe(c) => WipeSound(f, c);
    case Flags(e) =>
      if Detaches(e) { DetachingIff(f, e); }
      else if SetsTags(e) { TaggingSound(f, e); }
      else { FlagsSound(f, e); }
  }

  // ------------------------------------------------------------ theorems

  ghost predicate FineAlwaysSound(vs: seq<FineEvent>) { forall k :: 0 <= k <= |vs| ==> FineSound(FineRun(vs[..k])) }

  ghost predicate HarmlessAt(vs: seq<FineEvent>, k: nat)
    requires k < |vs|
  {
    vs[k].Flags? && FineEnabled(FineRun(vs[..k]), vs[k]) ==> Harmless(FineRun(vs[..k]), vs[k].e)
  }

  lemma FineNext(vs: seq<FineEvent>, k: nat)
    requires k < |vs|
    ensures var f := FineRun(vs[..k]);
      FineRun(vs[..k+1]) == if FineEnabled(f, vs[k]) then FineStep(f, vs[k]) else f
  {
    assert vs[..k+1][..k] == vs[..k];
  }

  lemma FinePrefixIff(vs: seq<FineEvent>, k: nat)
    requires k < |vs| && FineSound(FineRun(vs[..k]))
    ensures FineSound(FineRun(vs[..k+1])) <==> HarmlessAt(vs, k)
  {
    FineNext(vs, k);
    FineRunCoherent(vs[..k]);
    if FineEnabled(FineRun(vs[..k]), vs[k]) { FineStepIff(FineRun(vs[..k]), vs[k]); }
  }

  lemma {:induction false} HarmlessSound(vs: seq<FineEvent>, k: nat)
    requires k <= |vs| && forall j :: 0 <= j < k ==> HarmlessAt(vs, j)
    ensures FineSound(FineRun(vs[..k]))
    decreases k
  {
    if k > 0 {
      HarmlessSound(vs, k - 1);
      FinePrefixIff(vs, k - 1);
    }
  }

  // At the granularity of flags and clears: throughout a run every tag has a usable delegation or a
  // clear to come, exactly when every detaching section finds no tag or a clear that will still
  // find the inode.
  lemma FineSoundIff(vs: seq<FineEvent>)
    ensures FineAlwaysSound(vs) <==> forall k :: 0 <= k < |vs| ==> HarmlessAt(vs, k)
  {
    if FineAlwaysSound(vs) {
      forall k | 0 <= k < |vs| ensures HarmlessAt(vs, k) { FinePrefixIff(vs, k); }
    } else if forall k :: 0 <= k < |vs| ==> HarmlessAt(vs, k) {
      forall k | 0 <= k <= |vs| ensures FineSound(FineRun(vs[..k])) { HarmlessSound(vs, k); }
    }
  }

  // A detaching section follows directly on its own first section, and no revocation of the same
  // delegation stands between its flag and its clear.
  ghost predicate OrderlyAt(vs: seq<FineEvent>, k: nat)
    requires k < |vs|
  {
    vs[k].Flags? && Detaches(vs[k].e) ==>
      && k > 0 && vs[k-1].Flags? && FirstSection(FineRun(vs[..k-1]).s, vs[k-1].e, vs[k].e)
      && ByDeleg(vs[k].e.removal.d) !in FineRun(vs[..k]).pending
  }

  lemma OrderlyHarmless(vs: seq<FineEvent>, k: nat)
    requires k < |vs| && OrderlyAt(vs, k) && FineSound(FineRun(vs[..k]))
    ensures HarmlessAt(vs, k)
  {
    if vs[k].Flags? && Detaches(vs[k].e) {
      hide Coherent, FineSound, Harmless, FineRun;
      var f0, f, d := FineRun(vs[..k-1]), FineRun(vs[..k]), vs[k].e.removal.d;
      FineRunCoherent(vs[..k-1]);
      FineRunCoherent(vs[..k]);
      FirstSectionDisables(f0.s, vs[k-1].e, vs[k].e);
      FineNext(vs, k - 1);
      DisabledHarmless(f, vs[k].e);
    }
  }

  lemma DisabledHarmless(f: Fine, e: Event)
    requires Coherent(f.s) && FineSound(f) && Detaches(e) && ByDeleg(e.removal.d) !in f.pending
    requires e.removal.d in f.s.delegs && !Valid(f.s.delegs[e.removal.d])
    ensures Harmless(f, e)
  {
    var x := f.s.delegs[e.removal.d];
    if Linked(x) && !Untagged(f.s, x.inode.value) {
      assert !Usable(f.s, x.inode.value);
      assert CoveredBy(f.s, f.pending, x.inode.value);
    }
  }

  lemma {:induction false} OrderlySound(vs: seq<FineEvent>, k: nat)
    requires k <= |vs| && forall j :: 0 <= j < k ==> OrderlyAt(vs, j)
    ensures FineSound(FineRun(vs[..k]))
    decreases k
  {
    if k > 0 {
      OrderlySound(vs, k - 1);
      OrderlyHarmless(vs, k - 1);
      FinePrefixIff(vs, k - 1);
    }
  }

  // In runs that are orderly in this sense every tag has a usable delegation or a clear to come, and
  // whenever nothing is left to clear the tags are sound.
  lemma OrderlyTagsAreSound(vs: seq<FineEvent>)
    requires forall k :: 0 <= k < |vs| ==> OrderlyAt(vs, k)
    ensures FineSound(FineRun(vs)) && (FineRun(vs).pending == multiset{} ==> TagSound(FineRun(vs).s))
  {
    OrderlySound(vs, |vs|);
    assert vs[..|vs|] == vs;
    if FineRun(vs).pending == multiset{} { SettledIsSound(FineRun(vs)); }
  }

  // ------------------------------------------------------------ the third race

  // Delegation 0 is inode 0's, alias 0 is tagged.
  predicate Stage(f: Fine, revoked: bool, pending: multiset<Clear>, queue: multiset<nat>) {
    && f.s.ptr == map[0 := 0] && 0 in f.s.delegs && f.s.tagged == {(0, 0)} && f.pending == pending && f.s.toDetach == queue
    && f.s.delegs[0].inode == Some(0) && f.s.delegs[0].stateid == Stateid(1, 1) && Returning !in f.s.delegs[0].flags
    && (Revoked in f.s.delegs[0].flags <==> revoked) && f.s.delegs[0].mode == Mode(true, false)
  }

  lemma FineSnoc(vs: seq<FineEvent>, v: FineEvent)
    ensures FineRun(vs + [v]) == if FineEnabled(FineRun(vs), v) then FineStep(FineRun(vs), v) else FineRun(vs)
  {
    assert (vs + [v])[..|vs|] == vs;
  }

  const FIRST_GRANT: Offer := Offer(0, 0, Mode(true, false), Stateid(1, 1), false)

  lemma StageGranted()
    ensures FineRun([Flags(Granted(FIRST_GRANT))])
         == Fine(Publish(Empty(), 0, 0, Mode(true, false), Stateid(1, 1), false), multiset{})
  {
    FineSnoc([], Flags(Granted(FIRST_GRANT)));
    assert [] + [Flags(Granted(FIRST_GRANT))] == [Flags(Granted(FIRST_GRANT))];
  }

  lemma StageTagged() returns (vs: seq<FineEvent>)
    ensures Stage(FineRun(vs), false, multiset{}, multiset{})
  {
    StageGranted();
    var tag := Flags(Verifies(0, 0, true));
    vs := [Flags(Granted(FIRST_GRANT))] + [tag];
    FineSnoc([Flags(Granted(FIRST_GRANT))], tag);
  }

  lemma StageRevoked(vs: seq<FineEvent>)
    requires Stage(FineRun(vs), false, multiset{}, multiset{})
    ensures Stage(FineRun(vs + [Flags(Removes(Revoking(0, None)))]), true, multiset{ByDeleg(0)}, multiset{})
  {
    hide Grant, FineRun;
    FineSnoc(vs, Flags(Removes(Revoking(0, None))));
  }

  lemma StageSurrendered(vs: seq<FineEvent>)
    requires Stage(FineRun(vs), true, multiset{ByDeleg(0)}, multiset{})
    ensures Stage(FineRun(vs + [Flags(Removes(MarkingReturned(0, Stateid(1, 0))))]), true, multiset{ByDeleg(0)}, multiset{0})
  {
    hide Grant, FineRun;
    FineSnoc(vs, Flags(Removes(MarkingReturned(0, Stateid(1, 0)))));
  }

  lemma StageDetached(vs: seq<FineEvent>)
    requires Stage(FineRun(vs), true, multiset{ByDeleg(0)}, multiset{0})
    ensures var f := FineRun(vs + [Flags(Removes(DetachingReturned(0)))]);
      f.s.tagged == {(0, 0)} && f.s.ptr == map[] && 0 in f.s.delegs && f.s.delegs[0].inode.None? && f.pending == multiset{ByDeleg(0)}
  {
    hide Grant, FineRun;
    FineSnoc(vs, Flags(Removes(DetachingReturned(0))));
  }

  lemma StageSound(f: Fine, queue: multiset<nat>)
    requires Stage(f, true, multiset{ByDeleg(0)}, queue)
    ensures FineSound(f)
  {
    assert ByDeleg(0) in f.pending && Target(f.s, ByDeleg(0)) == Some(0);
  }

  // The clear comes too late.
  lemma StageWiped(vs: seq<FineEvent>)
    requires var f := FineRun(vs);
      f.s.tagged == {(0, 0)} && f.s.ptr == map[] && 0 in f.s.delegs && f.s.delegs[0].inode.None? && f.pending == multiset{ByDeleg(0)}
    ensures var f := FineRun(vs + [Wipe(ByDeleg(0))]); !TagSound(f.s) && f.pending == multiset{}
  {
    hide FineRun;
    FineSnoc(vs, Wipe(ByDeleg(0)));
    var s := FineRun(vs + [Wipe(ByDeleg(0))]).s;
    assert (0, 0) in s.tagged && !Usable(s, 0);
  }

  // Detached between the flag and the clear of a revocation, the delegation no longer leads to the
  // inode, and the tag stays for good: nothing is left to clear.  Mark-returned is not interrupted.
  lemma RevokeRace() returns (vs: seq<FineEvent>)
    ensures |vs| > 1 && vs[|vs|-1] == Wipe(ByDeleg(0)) && vs[|vs|-2] == Flags(Removes(DetachingReturned(0)))
    ensures FineSound(FineRun(vs[..|vs|-2])) && !TagSound(FineRun(vs).s) && FineRun(vs).pending == multiset{}
  {
    hide FineRun, Stage, FineSound, TagSound;
    var a := StageTagged();
    StageRevoked(a);
    var b := a + [Flags(Removes(Revoking(0, None)))];
    StageSurrendered(b);
    var d := b + [Flags(Removes(MarkingReturned(0, Stateid(1, 0))))];
    StageSound(FineRun(d), multiset{0});
    StageDetached(d);
    StageWiped(d + [Flags(Removes(DetachingReturned(0)))]);
    vs := d + [Flags(Removes(DetachingReturned(0)))] + [Wipe(ByDeleg(0))];
    assert vs[..|vs|-2] == d;
  }
}
