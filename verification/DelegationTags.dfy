/**
 Dentry tags: an alias that carries the delegated verifier bit belongs to an inode whose
 delegation is neither revoked nor being returned.

 Here starting a return and revoking are one step each, together with the clearing of the tags
 that follows; nfs_delegation_mark_returned and the reap loops are split where they detach, and the
 delegation may have become usable (and an alias tagged) in between.  Both races are exhibited.  Tags
 are sound throughout a run exactly when every detaching section finds no alias tagged, and so in
 every run in which those two functions are not interrupted between their sections.
 DelegationClears splits the clearing from the flags as well.
 */
module DelegationTags {
  import opened Wrappers
  import opened Delegation
  import opened DelegationCoherence

  predicate Usable(s: State, i: nat) {
    i in s.ptr && s.ptr[i] in s.delegs && Valid(s.delegs[s.ptr[i]])
  }

  ghost predicate TagSound(s: State) {
    forall t :: t in s.tagged ==> Usable(s, t.0)
  }

  ghost predicate Untagged(s: State, i: nat) {
    forall t :: t in s.tagged ==> t.0 != i
  }

  // No tag appears and no usable delegation becomes unusable.
  ghost predicate KeepsUsable(s: State, t: State) {
    && (forall g :: g in t.tagged ==> g in s.tagged)
    && forall i :: Usable(s, i) ==> Usable(t, i)
  }

  lemma KeepsUsableSound(s: State, t: State)
    requires TagSound(s) && KeepsUsable(s, t)
    ensures TagSound(t)
  {
  }

  lemma PutUsable(s: State, d: nat, x: Deleg)
    requires d in s.delegs && (Valid(s.delegs[d]) ==> Valid(x))
    ensures KeepsUsable(s, Put(s, d, x))
  {
  }

  lemma UnrevokedUsable(s: State, d: nat)
    requires d in s.delegs
    ensures KeepsUsable(s, Unrevoked(s, d))
  {
  }

  // --------------------------------------------------------- becoming unusable

  // Revoking clears the tags unless a return already has.
  lemma MarkRevokedSound(s: State, d: nat)
    requires Linkage(s.delegs, s.list, s.ptr) && TagSound(s) && d in s.delegs
    ensures TagSound(MarkRevoked(s, d))
  {
    var t := MarkRevoked(s, d);
    forall g | g in t.tagged ensures Usable(t, g.0) {
      assert g in s.tagged && Usable(s, g.0);
    }
  }

  lemma BeginSound(s: State, d: nat, drop: set<Flag>)
    requires Linkage(s.delegs, s.list, s.ptr) && TagSound(s) && d in s.delegs && Linked(s.delegs[d])
    ensures TagSound(Begin(s, d, drop))
  {
    var t := Begin(s, d, drop);
    forall g | g in t.tagged ensures Usable(t, g.0) {
      assert g in s.tagged && Usable(s, g.0);
    }
  }

  // The exact condition for a detach: no alias of the inode is tagged.
  lemma DetachSoundIff(s: State, d: nat, revoke: bool)
    requires Coherent(s) && TagSound(s) && d in s.delegs && Linked(s.delegs[d])
    ensures TagSound(Detach(s, d, revoke)) <==> Untagged(s, s.delegs[d].inode.value)
  {
    var i := s.delegs[d].inode.value;
    var t := Detach(s, d, revoke);
    assert t.tagged == s.tagged && !Usable(t, i);
    forall k | k != i && Usable(s, k) ensures Usable(t, k) {
      assert s.ptr[k] != d;
    }
  }

  // A delegation that is revoked or being returned has no tagged alias.
  lemma UnusableUntagged(s: State, d: nat)
    requires Coherent(s) && TagSound(s) && d in s.delegs && Linked(s.delegs[d]) && !Valid(s.delegs[d])
    ensures Untagged(s, s.delegs[d].inode.value)
  {
  }

  // --------------------------------------------------------------- the steps

  // The second sections of nfs_delegation_mark_returned and of the reap loops.
  predicate Detaches(e: Event) { e.Removes? && (e.removal.DetachingReturned? || e.removal.ReapDetaching?) }

  // Such a section finds no alias tagged.
  ghost predicate Untouched(s: State, e: Event) {
    Detaches(e) && e.removal.d in s.delegs && Linked(s.delegs[e.removal.d]) ==>
      Untagged(s, s.delegs[e.removal.d].inode.value)
  }

  lemma DetachSound(s: State, d: nat, revoke: bool)
    requires Coherent(s) && TagSound(s) && d in s.delegs
    requires Linked(s.delegs[d]) ==> Untagged(s, s.delegs[d].inode.value)
    ensures TagSound(Detach(s, d, revoke))
  {
    if Linked(s.delegs[d]) { DetachSoundIff(s, d, revoke); } else { DetachCoherent(s, d, revoke); }
  }

  lemma OnlyPointer(s: State, i: nat)
    requires Coherent(s) && i in s.ptr
    ensures forall k :: k in s.ptr && k != i ==> s.ptr[k] != s.ptr[i]
  {
  }

  // Upgrade by replacement: the tags pass from the old delegation to the new one.
  lemma ReplaceSound(s: State, o: nat, i: nat, d: nat, mode: Mode, sid: Stateid, dt: bool)
    requires Coherent(s) && TagSound(s) && d !in s.delegs && i in s.ptr && s.ptr[i] == o
    ensures var t := if Revoked in s.delegs[o].flags then s else SetFlags(s, o, {Returning}, {});
      Detach(t, o, true) != t && TagSound(Publish(Detach(t, o, true), i, d, mode, sid, dt))
  {
    hide Coherent;
    PointerKnown(s, i);
    var t := if Revoked in s.delegs[o].flags then s else SetFlags(s, o, {Returning}, {});
    OnlyPointer(s, i);
    SetFlagsShape(s, o, {Returning}, {});
    SameShapeCoherent(s, t);
    DetachCoherent(t, o, true);
    SwapSound(s, t, Detach(t, o, true), o, i, d, mode, sid, dt);
  }

  lemma SwapSound(s: State, t: State, u: State, o: nat, i: nat, d: nat, mode: Mode, sid: Stateid, dt: bool)
    requires TagSound(s) && d !in s.delegs && i in s.ptr && s.ptr[i] == o
    requires forall k :: k in s.ptr && k != i ==> s.ptr[k] != o
    requires t.tagged == s.tagged && t.ptr == s.ptr && o in s.delegs && o in t.delegs && t.delegs == s.delegs[o := t.delegs[o]]
    requires u.tagged == t.tagged && u.ptr == t.ptr - {i} && o in u.delegs && u.delegs == t.delegs[o := u.delegs[o]]
    ensures TagSound(Publish(u, i, d, mode, sid, dt))
  {
    var v := Publish(u, i, d, mode, sid, dt);
    forall g | g in v.tagged ensures Usable(v, g.0) {
      assert Usable(s, g.0);
    }
  }

  lemma PublishSound(s: State, i: nat, d: nat, mode: Mode, sid: Stateid, dt: bool)
    requires TagSound(s) && d !in s.delegs
    ensures TagSound(Publish(s, i, d, mode, sid, dt))
  {
    var t := Publish(s, i, d, mode, sid, dt);
    forall g | g in t.tagged ensures Usable(t, g.0) { assert Usable(s, g.0); }
  }

  lemma UpdateInPlaceUsable(s: State, d: nat, mode: Mode, sid: Stateid)
    requires d in s.delegs
    ensures KeepsUsable(s, UpdateInPlace(s, d, mode, sid))
  {
    var x := s.delegs[d].(stateid := s.delegs[d].stateid.(seqid := sid.seqid), mode := mode);
    PutUsable(s, d, x);
    UnrevokedUsable(Put(s, d, x), d);
  }

  lemma GrantSound(s: State, i: nat, d: nat, mode: Mode, sid: Stateid, dt: bool)
    requires Coherent(s) && TagSound(s) && d !in s.delegs
    ensures TagSound(Grant(s, i, d, mode, sid, dt))
  {
    PublishSound(s, i, d, mode, sid, dt);
    if i in s.ptr {
      var o := s.ptr[i];
      UpdateInPlaceUsable(s, o, mode, sid);
      KeepsUsableSound(s, UpdateInPlace(s, o, mode, sid));
      assert KeepsUsable(s, Duplicate(s, i, d, mode, sid, dt));
      KeepsUsableSound(s, Duplicate(s, i, d, mode, sid, dt));
      ReplaceSound(s, o, i, d, mode, sid, dt);
    }
  }

  lemma ReclaimSound(s: State, i: nat, d: nat, mode: Mode, sid: Stateid, dt: bool)
    requires Coherent(s) && TagSound(s) && d !in s.delegs
    ensures TagSound(Reclaim(s, i, d, mode, sid, dt))
  {
    if i in s.ptr {
      var o := s.ptr[i];
      var x := s.delegs[o].(stateid := sid, mode := mode,
        flags := s.delegs[o].flags - {NeedReclaim, DelegTime} + (if dt then {DelegTime} else {}));
      PutUsable(s, o, x);
      KeepsUsableSound(s, Put(s, o, x));
      UnrevokedUsable(Put(s, o, x), o);
      KeepsUsableSound(Put(s, o, x), Unrevoked(Put(s, o, x), o));
    } else {
      GrantSound(s, i, d, mode, sid, dt);
    }
  }

  lemma ReseqSound(s: State, d: nat, seqid: Seqid)
    requires Coherent(s) && TagSound(s) && d in s.delegs
    ensures Coherent(Reseq(s, d, seqid)) && TagSound(Reseq(s, d, seqid))
  {
    hide Coherent, TagSound;
    if seqid != 0 {
      var x := s.delegs[d].(stateid := s.delegs[d].stateid.(seqid := seqid));
      PutShape(s, d, x);
      SameShapeCoherent(s, Put(s, d, x));
      PutUsable(s, d, x);
      KeepsUsableSound(s, Put(s, d, x));
    }
  }

  lemma ReseqRevokeSound(s: State, d: nat, seqid: Seqid)
    requires Coherent(s) && TagSound(s) && d in s.delegs
    ensures TagSound(MarkRevoked(Reseq(s, d, seqid), d))
  {
    hide Linkage, Refs, TagSound;
    ReseqSound(s, d, seqid);
    MarkRevokedSound(Reseq(s, d, seqid), d);
  }

  // Clearing RETURNING never makes a delegation unusable.
  lemma ClearReturningSound(s: State, d: nat)
    requires TagSound(s) && d in s.delegs
    ensures TagSound(SetFlags(s, d, {}, {Returning}))
  {
    PutUsable(s, d, s.delegs[d].(flags := s.delegs[d].flags - {Returning} + {}));
    KeepsUsableSound(s, SetFlags(s, d, {}, {Returning}));
  }

  lemma SurrenderSound(s: State, d: nat, seqid: Seqid)
    requires Coherent(s) && TagSound(s) && d in s.delegs
    ensures TagSound(Surrender(s, d, seqid))
  {
    ReseqRevokeSound(s, d, seqid);
    var r := MarkRevoked(Reseq(s, d, seqid), d);
    ClearReturningSound(r, d);
    KeepsUsableSound(SetFlags(r, d, {}, {Returning}), Surrender(s, d, seqid));
  }

  lemma DropBaseSound(s: State, d: nat)
    requires Coherent(s) && TagSound(s) && d in s.delegs && s.delegs[d].base.Dropping?
    ensures TagSound(DropBase(s, d))
  {
    MarkRevokedSound(s, d);
    var t := if s.delegs[d].base.revoke then MarkRevoked(s, d) else s;
    PutUsable(t, d, t.delegs[d].(refcount := t.delegs[d].refcount - 1, base := Dropped));
    KeepsUsableSound(t, DropBase(s, d));
  }

  lemma EvictSound(s: State, i: nat)
    requires Coherent(s) && TagSound(s) && Untagged(s, i)
    ensures TagSound(Evict(s, i))
  {
    if i in s.ptr {
      var d := s.ptr[i];
      DetachSound(s, d, true);
      DetachCoherent(s, d, true);
      FlagDetachedSound(Detach(s, d, true), d);
    }
  }

  lemma FlagDetachedSound(s: State, d: nat)
    requires Coherent(s) && TagSound(s) && d in s.delegs && !Linked(s.delegs[d])
    ensures TagSound(SetFlags(s, d, {Returning, InodeFreeing}, {}))
  {
    var t := SetFlags(s, d, {Returning, InodeFreeing}, {});
    forall g | g in t.tagged ensures Usable(t, g.0) { assert Usable(s, g.0); }
  }

  lemma RemoveSound(s: State, r: Removal)
    requires Coherent(s) && TagSound(s) && CanRemove(s, r) && Untouched(s, Removes(r))
    ensures TagSound(RemoveStep(s, r))
  {
    hide Linkage, Refs, TagSound;
    match r
    case Revoking(i, sid) =>
      if i in s.ptr {
        PointerKnown(s, i);
        MarkRevokedSound(s, s.ptr[i]);
        if sid.Some? { ReseqRevokeSound(s, s.ptr[i], sid.value.seqid); }
      }
    case MarkingReturned(i, sid) =>
      if i in s.ptr {
        PointerKnown(s, i);
        SurrenderSound(s, s.ptr[i], sid.seqid);
        ClearReturningSound(s, s.ptr[i]);
      }
    case DetachingReturned(d) =>
      SameShapeCoherent(s, s.(toDetach := s.toDetach - multiset{d}));
      KeepsUsableSound(s, s.(toDetach := s.toDetach - multiset{d}));
      DetachSound(s.(toDetach := s.toDetach - multiset{d}), d, false);
    case ReapDetaching(d) => DetachSound(s, d, true);
    case DroppingBase(d) => DropBaseSound(s, d);
    case Evicting(i) => EvictSound(s, i);
  }

  lemma FinishUsable(s: State, d: nat, result: Result)
    requires Returned(s, d)
    ensures KeepsUsable(s, Finish(s, d, result))
  {
  }

  lemma ReturnSound(s: State, r: Returner)
    requires Coherent(s) && TagSound(s) && CanReturn(s, r)
    ensures TagSound(ReturnStep(s, r))
  {
    match r
    case Starting(i) => if i in s.ptr { BeginSound(s, s.ptr[i], {ReturnDelayed}); }
    case SettingOnClose(i, _) =>
      if i in s.ptr {
        BeginSound(s, s.ptr[i], {});
        PutUsable(s, s.ptr[i], s.delegs[s.ptr[i]].(flags := s.delegs[s.ptr[i]].flags - {} + {ReturnIfClosed}));
        KeepsUsableSound(s, SetFlags(s, s.ptr[i], {ReturnIfClosed}, {}));
      }
    case OnClose(i, _, _) => if i in s.ptr { BeginSound(s, s.ptr[i], {ReturnIfClosed}); }
    case Finishing(d, result) =>
      FinishUsable(s, d, result);
      KeepsUsableSound(s, Finish(s, d, result));
  }

  lemma SetFlagsUsable(s: State, d: nat, add: set<Flag>, drop: set<Flag>, bit: bool)
    requires d in s.delegs && Returning !in add && Revoked !in add
    ensures KeepsUsable(s, SetFlags(s, d, add, drop).(returnBit := bit))
  {
    PutUsable(s, d, SetFlags(s, d, add, drop).delegs[d]);
  }

  lemma IfClosedUsable(s: State, d: nat, closed: bool)
    requires d in s.delegs
    ensures KeepsUsable(s, MarkIfClosed(s, d, closed))
  {
    SetFlagsUsable(s, d, {Return}, {}, true);
    SetFlagsUsable(s, d, {ReturnIfClosed}, {}, s.returnBit);
  }

  lemma MarkUsable(s: State, d: nat, m: Mark)
    requires d in s.delegs
    ensures KeepsUsable(s, ApplyMark(s, d, m))
  {
    match m
    case ToReturn => SetFlagsUsable(s, d, {Return}, {}, true);
    case IfClosed(closed) => IfClosedUsable(s, d, closed);
    case Unreferenced(closed) =>
      SetFlagsUsable(s, d, {}, {Referenced}, s.returnBit);
      IfClosedUsable(s, d, closed);
    case ToReclaim => SetFlagsUsable(s, d, {NeedReclaim}, {}, s.returnBit);
    case ToTest => SetFlagsUsable(s, d, {TestExpired}, {NeedReclaim}, s.returnBit);
    case Tested => SetFlagsUsable(s, d, {}, {TestExpired}, s.returnBit);
    case Unreachable => PutUsable(s, d, GrabFailed(s, d).delegs[d]);
  }

  lemma VerifySound(s: State, i: nat, alias: nat, current: bool)
    requires TagSound(s)
    ensures TagSound(SetVerifier(s, i, alias, current))
  {
    var t := SetVerifier(s, i, alias, current);
    forall g | g in t.tagged ensures Usable(t, g.0) {
      if g in s.tagged { assert Usable(s, g.0); }
    }
  }

  lemma GrabPrevUsable(s: State, prev: Option<nat>, grabPrev: bool)
    ensures SameShape(s, GrabPrev(s, prev, grabPrev)) && KeepsUsable(s, GrabPrev(s, prev, grabPrev))
  {
  }

  lemma TakeUsable(s: State, inode: nat, grabPrev: bool)
    requires s.scan.Walking?
    ensures KeepsUsable(StartReturn(GrabPrev(s, s.scan.prev, grabPrev), inode), Take(s, inode, grabPrev))
  {
  }

  lemma TakeSound(s: State, inode: nat, grabPrev: bool)
    requires Coherent(s) && TagSound(s) && s.scan.Walking?
    ensures TagSound(Take(s, inode, grabPrev))
  {
    hide Linkage, Refs;
    var u := GrabPrev(s, s.scan.prev, grabPrev);
    GrabPrevUsable(s, s.scan.prev, grabPrev);
    SameShapeCoherent(s, u);
    KeepsUsableSound(s, u);
    if Startable(u, inode).Some? {
      PointerKnown(u, inode);
      BeginSound(u, u.ptr[inode], {ReturnDelayed});
    }
    TakeUsable(s, inode, grabPrev);
    KeepsUsableSound(StartReturn(u, inode), Take(s, inode, grabPrev));
  }

  lemma VisitSound(s: State, grab: bool, grabPrev: bool)
    requires Coherent(s) && TagSound(s) && CanScan(s, VisitNext(grab, grabPrev))
    ensures TagSound(Visit(s, grab, grabPrev))
  {
    hide Coherent;
    var d := s.scan.ahead[0];
    var x := s.delegs[d];
    var t := SetFlags(s, d, {}, {Return});
    PutUsable(s, d, t.delegs[d]);
    KeepsUsableSound(s, t);
    if InodeFreeing !in x.flags && NeedReturn(x) {
      if grab && x.inode.Some? {
        SetFlagsShape(s, d, {}, {Return});
        SameShapeCoherent(s, t);
        TakeSound(t, x.inode.value, grabPrev);
      } else {
        PutUsable(t, d, GrabFailed(t, d).delegs[d]);
        KeepsUsableSound(t, GrabFailed(t, d));
      }
    }
  }

  lemma ClearVisitSound(s: State)
    requires TagSound(s) && CanScan(s, ClearNext)
    ensures TagSound(ClearVisit(s))
  {
    hide TagSound;
    var d := s.scan.ahead[0];
    var t := s.(scan := Clearing(s.scan.ahead[1..]));
    KeepsUsableSound(s, t);
    SetFlagsUsable(t, d, {Return}, {}, true);
    KeepsUsableSound(t, MarkReturn(t, d));
    SetFlagsUsable(MarkReturn(t, d), d, {}, {ReturnDelayed}, true);
    KeepsUsableSound(MarkReturn(t, d), SetFlags(MarkReturn(t, d), d, {}, {ReturnDelayed}));
  }

  lemma ScanSound(s: State, c: Scanner)
    requires Coherent(s) && TagSound(s) && CanScan(s, c)
    ensures TagSound(ScanStep(s, c))
  {
    hide Coherent, Visit, ClearVisit, Finish;
    match c
    case VisitNext(grab, grabPrev) => VisitSound(s, grab, grabPrev);
    case Resume(result) =>
      if s.scan.deleg.Some? {
        FinishUsable(s, s.scan.deleg.value, result);
        KeepsUsableSound(s, Finish(s, s.scan.deleg.value, result));
      }
    case ClearNext => ClearVisitSound(s);
    case _ => KeepsUsableSound(s, ScanStep(s, c));
  }

  lemma StepSound(s: State, e: Event)
    requires Coherent(s) && TagSound(s) && Enabled(s, e) && Untouched(s, e)
    ensures TagSound(Step(s, e))
  {
    match e
    case Granted(o) => GrantSound(s, o.inode, o.d, o.mode, o.stateid, o.delegTime);
    case Reclaimed(o) => ReclaimSound(s, o.inode, o.d, o.mode, o.stateid, o.delegTime);
    case Removes(r) => RemoveSound(s, r);
    case Returner(r) => ReturnSound(s, r);
    case Marks(d, m) => MarkUsable(s, d, m); KeepsUsableSound(s, ApplyMark(s, d, m));
    case Verifies(i, alias, current) => VerifySound(s, i, alias, current);
    case DropsAlias(i, alias) => KeepsUsableSound(s, Step(s, e));
    case Scans(c) => ScanSound(s, c);
  }

  // ---------------------------------------------------------------- theorems

  // Tags are sound after every prefix of the run.
  ghost predicate AlwaysSound(es: seq<Event>) { forall k :: 0 <= k <= |es| ==> TagSound(Run(es[..k])) }

  // The k-th event, if it happens, does not detach under a tag.
  ghost predicate UntouchedAt(es: seq<Event>, k: nat)
    requires k < |es|
  {
    Enabled(Run(es[..k]), es[k]) ==> Untouched(Run(es[..k]), es[k])
  }

  lemma RunNext(es: seq<Event>, k: nat)
    requires k < |es|
    ensures var s := Run(es[..k]);
      Run(es[..k+1]) == if Enabled(s, es[k]) then Step(s, es[k]) else s
  {
    assert es[..k+1] == es[..k] + [es[k]];
    RunSnoc(es[..k], es[k]);
  }

  // One step: sound before, it is sound after exactly when nothing is detached under a tag.
  lemma StepSoundIff(s: State, e: Event)
    requires Coherent(s) && TagSound(s) && Enabled(s, e)
    ensures TagSound(Step(s, e)) <==> Untouched(s, e)
  {
    if Untouched(s, e) { StepSound(s, e); } else { TaggedDetach(s, e); }
  }

  lemma TaggedDetach(s: State, e: Event)
    requires Coherent(s) && TagSound(s) && Enabled(s, e) && !Untouched(s, e)
    ensures !TagSound(Step(s, e))
  {
    var d := e.removal.d;
    if e.removal.ReapDetaching? {
      DetachSoundIff(s, d, true);
    } else {
      var t := s.(toDetach := s.toDetach - multiset{d});
      SameShapeCoherent(s, t);
      KeepsUsableSound(s, t);
      DetachSoundIff(t, d, false);
    }
  }

  lemma PrefixSoundIff(es: seq<Event>, k: nat)
    requires k < |es| && TagSound(Run(es[..k]))
    ensures TagSound(Run(es[..k+1])) <==> UntouchedAt(es, k)
  {
    RunNext(es, k);
    RunCoherent(es[..k]);
    if Enabled(Run(es[..k]), es[k]) { StepSoundIff(Run(es[..k]), es[k]); }
  }

  lemma {:induction false} UntouchedSound(es: seq<Event>, k: nat)
    requires k <= |es| && forall j :: 0 <= j < k ==> UntouchedAt(es, j)
    ensures TagSound(Run(es[..k]))
    decreases k
  {
    if k > 0 {
      UntouchedSound(es, k - 1);
      PrefixSoundIff(es, k - 1);
    }
  }

  // With flags and clears as one step, tags are sound throughout a run exactly when every detaching
  // section finds no alias tagged.
  lemma SoundIffUntouched(es: seq<Event>)
    ensures AlwaysSound(es) <==> forall k :: 0 <= k < |es| ==> UntouchedAt(es, k)
  {
    if AlwaysSound(es) {
      forall k | 0 <= k < |es| ensures UntouchedAt(es, k) { PrefixSoundIff(es, k); }
    } else if forall k :: 0 <= k < |es| ==> UntouchedAt(es, k) {
      forall k | 0 <= k <= |es| ensures TagSound(Run(es[..k])) { UntouchedSound(es, k); }
    }
  }

  // ------------------------------------------------ functions taken as one step

  // first is the section of the same call that comes before the detaching section e: it has
  // surrendered the delegation, or started its return.
  predicate FirstSection(s: State, first: Event, e: Event)
    requires Detaches(e)
  {
    var d := e.removal.d;
    if e.removal.DetachingReturned? then
      && first.Removes? && first.removal.MarkingReturned?
      && first.removal.inode in s.ptr && s.ptr[first.removal.inode] == d
      && MarkReturned(s, first.removal.inode, first.removal.stateid).toDetach != s.toDetach
    else
      && first.Returner? && first.returner.Starting?
      && Startable(s, first.returner.inode) == Some(d)
  }

  // Every detaching section follows directly on its own first section.
  ghost predicate WholeRun(es: seq<Event>) {
    forall k :: 0 <= k < |es| && Detaches(es[k]) ==> k > 0 && FirstSection(Run(es[..k-1]), es[k-1], es[k])
  }

  // The first section leaves the delegation revoked or being returned.
  lemma FirstSectionDisables(s: State, first: Event, e: Event)
    requires Coherent(s) && Detaches(e) && FirstSection(s, first, e)
    ensures Enabled(s, first) && e.removal.d in Step(s, first).delegs && !Valid(Step(s, first).delegs[e.removal.d])
  {
    if e.removal.DetachingReturned? { SurrenderRevokes(s, e.removal.d, first.removal.stateid.seqid); }
  }

  lemma WholeUntouched(es: seq<Event>, k: nat)
    requires WholeRun(es) && k < |es| && TagSound(Run(es[..k]))
    ensures UntouchedAt(es, k)
  {
    if Detaches(es[k]) {
      var s := Run(es[..k-1]);
      RunCoherent(es[..k-1]);
      RunCoherent(es[..k]);
      FirstSectionDisables(s, es[k-1], es[k]);
      RunNext(es, k - 1);
      var t := Run(es[..k]);
      if Linked(t.delegs[es[k].removal.d]) { UnusableUntagged(t, es[k].removal.d); }
    }
  }

  lemma {:induction false} WholeSound(es: seq<Event>, k: nat)
    requires WholeRun(es) && k <= |es|
    ensures TagSound(Run(es[..k]))
    decreases k
  {
    if k > 0 {
      WholeSound(es, k - 1);
      WholeUntouched(es, k - 1);
      PrefixSoundIff(es, k - 1);
    }
  }

  // Taking each delegation function as one step, tags are sound throughout every run.
  lemma TagsAreSound(es: seq<Event>)
    requires WholeRun(es)
    ensures AlwaysSound(es) && TagSound(Run(es))
  {
    forall k | 0 <= k <= |es| ensures TagSound(Run(es[..k])) { WholeSound(es, k); }
    assert es[..|es|] == es;
  }

  lemma SurrenderRevokes(s: State, d: nat, seqid: Seqid)
    requires d in s.delegs
    ensures d in Surrender(s, d, seqid).delegs && Revoked in Surrender(s, d, seqid).delegs[d].flags
  {
  }

  const READ_MODE: Mode := Mode(true, false)

  // Delegation 0 is attached to inode 0 with the given revocation, return and sequence number.
  predicate Holds(s: State, revoked: bool, returning: bool, seqid: Seqid) {
    && s.ptr == map[0 := 0] && 0 in s.delegs && 1 !in s.delegs
    && var x := s.delegs[0];
      && x.inode == Some(0) && x.published && x.mode == READ_MODE && x.stateid == Stateid(1, seqid)
      && (Revoked in x.flags <==> revoked) && (Returning in x.flags <==> returning)
  }

  function GrantRead(d: nat, seqid: Seqid): Event { Granted(Offer(0, d, READ_MODE, Stateid(1, seqid), false)) }

  lemma RaceGrant(seqid: Seqid)
    ensures Holds(Run([GrantRead(0, seqid)]), false, false, seqid) && Run([GrantRead(0, seqid)]).toDetach == multiset{}
  {
    RunSnoc([], GrantRead(0, seqid));
    assert [] + [GrantRead(0, seqid)] == [GrantRead(0, seqid)];
  }

  lemma TagHeld(s: State, seqid: Seqid)
    requires Holds(s, false, false, seqid)
    ensures var t := SetVerifier(s, 0, 7, true);
      && Holds(t, false, false, seqid) && (0, 7) in t.tagged
      && t.toDetach == s.toDetach && t.delegs[0].returners == s.delegs[0].returners
  {
  }

  lemma RaceTag(es: seq<Event>, seqid: Seqid)
    requires Holds(Run(es), false, false, seqid)
    ensures var s := Run(es + [Verifies(0, 7, true)]);
      && Holds(s, false, false, seqid) && (0, 7) in s.tagged
      && s.toDetach == Run(es).toDetach && s.delegs[0].returners == Run(es).delegs[0].returners
  {
    hide Run, SetVerifier;
    RunSnoc(es, Verifies(0, 7, true));
    TagHeld(Run(es), seqid);
  }

  lemma RaceDetach(s: State, seqid: Seqid, revoke: bool)
    requires Holds(s, false, false, seqid) && (0, 7) in s.tagged
    ensures !TagSound(Detach(s, 0, revoke))
  {
    assert !Usable(Detach(s, 0, revoke), 0) && (0, 7) in Detach(s, 0, revoke).tagged;
  }

  // Detaching delegation 0 now breaks the tags.
  lemma DetachNow(es: seq<Event>)
    requires Holds(Run(es), false, false, 2) && (0, 7) in Run(es).tagged
    ensures 0 in Run(es).toDetach ==> !TagSound(Run(es + [Removes(DetachingReturned(0))]))
    ensures Returned(Run(es), 0) ==> !TagSound(Run(es + [Removes(ReapDetaching(0))]))
  {
    var s := Run(es);
    RunSnoc(es, Removes(DetachingReturned(0)));
    RunSnoc(es, Removes(ReapDetaching(0)));
    RaceDetach(s.(toDetach := s.toDetach - multiset{0}), 2, false);
    RaceDetach(s, 2, true);
  }

  function Reply(): Event { Removes(MarkingReturned(0, Stateid(1, 1))) }

  lemma RaceSurrender(es: seq<Event>)
    requires Holds(Run(es), false, false, 1) && Run(es).toDetach == multiset{}
    ensures Holds(Run(es + [Reply()]), true, false, 1) && Run(es + [Reply()]).toDetach == multiset{0}
  {
    RunSnoc(es, Reply());
  }

  // A newer stateid for a revoked delegation makes it good again.
  lemma Revived(s: State)
    requires Holds(s, true, false, 1)
    ensures var t := UpdateInPlace(s, 0, READ_MODE, Stateid(1, 2));
      Holds(t, false, false, 2) && t.toDetach == s.toDetach
  {
    var t := Put(s, 0, s.delegs[0].(stateid := Stateid(1, 2), mode := READ_MODE));
    assert UpdateInPlace(s, 0, READ_MODE, Stateid(1, 2)) == SetFlags(t, 0, {}, {Revoked}).(active := s.active + 1);
  }

  lemma RaceRevive(es: seq<Event>)
    requires Holds(Run(es), true, false, 1)
    ensures Holds(Run(es + [GrantRead(1, 2)]), false, false, 2) && Run(es + [GrantRead(1, 2)]).toDetach == Run(es).toDetach
  {
    RunSnoc(es, GrantRead(1, 2));
    Revived(Run(es));
  }

  // Four steps none of which detaches.
  lemma NoDetachSound(a: Event, b: Event, c: Event, d: Event)
    requires !Detaches(a) && !Detaches(b) && !Detaches(c) && !Detaches(d)
    ensures AlwaysSound([a, b, c, d])
  {
    SoundIffUntouched([a, b, c, d]);
  }

  // Mark-returned surrenders the delegation, the server grants it again and an alias is tagged, and
  // then mark-returned detaches.
  function MarkReturnedInterrupted(): seq<Event> {
    [GrantRead(0, 1), Reply(), GrantRead(1, 2), Verifies(0, 7, true), Removes(DetachingReturned(0))]
  }

  lemma BeforeMarkReturnedDetaches()
    ensures var s := Run(MarkReturnedInterrupted()[..4]);
      Holds(s, false, false, 2) && (0, 7) in s.tagged && s.toDetach == multiset{0}
  {
    hide Run, Holds;
    var es := MarkReturnedInterrupted();
    RaceGrant(1);
    assert es[..1] == [GrantRead(0, 1)];
    RaceSurrender(es[..1]);
    assert es[..1] + [Reply()] == es[..2];
    RaceRevive(es[..2]);
    assert es[..2] + [GrantRead(1, 2)] == es[..3];
    RaceTag(es[..3], 2);
    assert es[..3] + [Verifies(0, 7, true)] == es[..4];
  }

  // The first race: sound up to the detach, unsound after it.
  lemma MarkReturnedRace()
    ensures AlwaysSound(MarkReturnedInterrupted()[..4]) && !TagSound(Run(MarkReturnedInterrupted()))
  {
    var es := MarkReturnedInterrupted();
    BeforeMarkReturnedDetaches();
    DetachNow(es[..4]);
    assert es[..4] + [Removes(DetachingReturned(0))] == es;
    NoDetachSound(es[0], es[1], es[2], es[3]);
    assert es[..4] == [es[0], es[1], es[2], es[3]];
  }

  lemma RaceStart(es: seq<Event>)
    requires Holds(Run(es), false, false, 2) && Run(es).toDetach == multiset{}
    ensures var s := Run(es + [Returner(Starting(0))]);
      Holds(s, false, true, 2) && s.toDetach == multiset{} && Returned(s, 0)
  {
    RunSnoc(es, Returner(Starting(0)));
  }

  lemma LateReply(s: State)
    requires Holds(s, false, true, 2)
    ensures MarkReturned(s, 0, Stateid(1, 1)) == SetFlags(s, 0, {}, {Returning})
  {
  }

  lemma RaceLateReply(es: seq<Event>)
    requires Holds(Run(es), false, true, 2) && Run(es).toDetach == multiset{} && Returned(Run(es), 0)
    ensures var s := Run(es + [Reply()]);
      Holds(s, false, false, 2) && s.toDetach == multiset{} && Returned(s, 0)
  {
    LateReply(Run(es));
    RunSnoc(es, Reply());
  }

  // The reap loop starts a return, a late reply takes RETURNING away and an alias is tagged, and
  // then the loop detaches.
  function ReapInterrupted(): seq<Event> {
    [GrantRead(0, 2), Returner(Starting(0)), Reply(), Verifies(0, 7, true), Removes(ReapDetaching(0))]
  }

  lemma BeforeReapDetaches()
    ensures var s := Run(ReapInterrupted()[..4]);
      Holds(s, false, false, 2) && (0, 7) in s.tagged && Returned(s, 0)
  {
    hide Run;
    var es := ReapInterrupted();
    RaceGrant(2);
    assert es[..1] == [GrantRead(0, 2)];
    RaceStart(es[..1]);
    assert es[..1] + [Returner(Starting(0))] == es[..2];
    RaceLateReply(es[..2]);
    assert es[..2] + [Reply()] == es[..3];
    RaceTag(es[..3], 2);
    assert es[..3] + [Verifies(0, 7, true)] == es[..4];
  }

  // The second race.
  lemma ReapRace()
    ensures AlwaysSound(ReapInterrupted()[..4]) && !TagSound(Run(ReapInterrupted()))
  {
    var es := ReapInterrupted();
    BeforeReapDetaches();
    DetachNow(es[..4]);
    assert es[..4] + [Removes(ReapDetaching(0))] == es;
    NoDetachSound(es[0], es[1], es[2], es[3]);
    assert es[..4] == [es[0], es[1], es[2], es[3]];
  }
}
