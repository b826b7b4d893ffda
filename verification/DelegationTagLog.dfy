/**
 The dentry tags told from the event log: an alias is tagged exactly when the last event with a say
 in it was a verifier set under a delegation good for reading.
 */
module DelegationTagLog {
  import opened Wrappers
  import opened Delegation
  import opened DelegationCoherence
  import opened DelegationMarks
  import opened DelegationFlags

  // The inode has a delegation that is good for reading.
  predicate Readable(s: State, i: nat) {
    i in s.ptr && s.ptr[i] in s.delegs && Valid(s.delegs[s.ptr[i]]) && s.delegs[s.ptr[i]].mode.read
  }

  // A delegation of the inode starts to be returned, or is revoked while it was good.
  ghost predicate Wipes(s: State, e: Event, i: nat) {
    exists d :: d in s.delegs && WipesBy(s, e, i, d)
  }

  predicate WipesBy(s: State, e: Event, i: nat, d: nat)
    requires d in s.delegs
  {
    s.delegs[d].inode == Some(i) && (Starts(s, e, d) || (Revokes(s, e, d) && Valid(s.delegs[d])))
  }

  ghost predicate TagLaw(s: State, e: Event, t: State, i: nat, a: nat) {
    (i, a) in t.tagged <==>
      if e == Verifies(i, a, true) then Readable(s, i)
      else (i, a) in s.tagged && e != DropsAlias(i, a) && !Wipes(s, e, i)
  }

  // Only the inode of c loses its tags, if c was good.
  lemma MarkRevokedTags(s: State, c: nat, i: nat, a: nat)
    requires c in s.delegs
    ensures (i, a) in MarkRevoked(s, c).tagged <==> (i, a) in s.tagged && !(Valid(s.delegs[c]) && s.delegs[c].inode == Some(i))
  {
  }

  lemma BeginTags(s: State, c: nat, drop: set<Flag>, i: nat, a: nat)
    requires c in s.delegs
    ensures (i, a) in Begin(s, c, drop).tagged <==> (i, a) in s.tagged && s.delegs[c].inode != Some(i)
  {
  }

  // The event wipes through c or not at all.
  lemma WipesThrough(s: State, e: Event, i: nat, c: nat)
    requires c in s.delegs && forall d :: d in s.delegs && d != c ==> !Starts(s, e, d) && !Revokes(s, e, d)
    ensures Wipes(s, e, i) <==> WipesBy(s, e, i, c)
  {
    hide Starts, Revokes;
    if WipesBy(s, e, i, c) { assert Wipes(s, e, i); }
  }

  lemma WipesNothing(s: State, e: Event, i: nat)
    requires forall d :: d in s.delegs ==> !Starts(s, e, d) && !Revokes(s, e, d)
    ensures !Wipes(s, e, i)
  {
  }

  // An event about c, which starts no return and revokes nobody else.
  lemma RevokeTags(s: State, j: nat, sid: Option<Stateid>, i: nat, a: nat)
    requires Coherent(s)
    ensures TagLaw(s, Removes(Revoking(j, sid)), Revoke(s, j, sid), i, a)
  {
    hide Coherent, MarkRevoked, IsNewer;
    var e := Removes(Revoking(j, sid));
    if j in s.ptr {
      PointerKnown(s, j);
      var c := s.ptr[j];
      WipesThrough(s, e, i, c);
      MarkRevokedTags(s, c, i, a);
      if sid.Some? { ReseqRevokeTags(s, c, sid.value.seqid, i, a); }
    } else {
      WipesNothing(s, e, i);
    }
  }

  lemma ReseqRevokeTags(s: State, c: nat, seqid: Seqid, i: nat, a: nat)
    requires c in s.delegs
    ensures c in Reseq(s, c, seqid).delegs
    ensures (i, a) in MarkRevoked(Reseq(s, c, seqid), c).tagged
       <==> (i, a) in s.tagged && !(Valid(s.delegs[c]) && s.delegs[c].inode == Some(i))
    ensures (i, a) in Surrender(s, c, seqid).tagged
       <==> (i, a) in s.tagged && !(Valid(s.delegs[c]) && s.delegs[c].inode == Some(i))
  {
    hide MarkRevoked;
    MarkRevokedTags(Reseq(s, c, seqid), c, i, a);
  }

  lemma MarkReturnedTags(s: State, j: nat, sid: Stateid, i: nat, a: nat)
    requires Coherent(s)
    ensures TagLaw(s, Removes(MarkingReturned(j, sid)), MarkReturned(s, j, sid), i, a)
  {
    hide Coherent, Surrender, IsNewer;
    var e := Removes(MarkingReturned(j, sid));
    if j in s.ptr {
      PointerKnown(s, j);
      var c := s.ptr[j];
      WipesThrough(s, e, i, c);
      ReseqRevokeTags(s, c, sid.seqid, i, a);
    } else {
      WipesNothing(s, e, i);
    }
  }

  lemma DropBaseTags(s: State, c: nat, i: nat, a: nat)
    requires c in s.delegs && s.delegs[c].base.Dropping?
    ensures TagLaw(s, Removes(DroppingBase(c)), DropBase(s, c), i, a)
  {
    hide MarkRevoked;
    WipesThrough(s, Removes(DroppingBase(c)), i, c);
    MarkRevokedTags(s, c, i, a);
  }

  lemma RemoveTags(s: State, r: Removal, i: nat, a: nat)
    requires Coherent(s) && CanRemove(s, r)
    ensures TagLaw(s, Removes(r), RemoveStep(s, r), i, a)
  {
    hide TagLaw, Coherent, Revoke, MarkReturned, DropBase;
    match r
    case Revoking(j, sid) => RevokeTags(s, j, sid, i, a);
    case MarkingReturned(j, sid) => MarkReturnedTags(s, j, sid, i, a);
    case DroppingBase(c) => DropBaseTags(s, c, i, a);
    case _ => DetachingTags(s, r, i, a);
  }

  lemma DetachingTags(s: State, r: Removal, i: nat, a: nat)
    requires CanRemove(s, r) && (r.DetachingReturned? || r.ReapDetaching? || r.Evicting?)
    ensures TagLaw(s, Removes(r), RemoveStep(s, r), i, a)
  {
    WipesNothing(s, Removes(r), i);
    assert RemoveStep(s, r).tagged == s.tagged;
  }

  lemma StartTags(s: State, r: Returner, i: nat, a: nat)
    requires Coherent(s) && !r.Finishing?
    ensures CanReturn(s, r) && TagLaw(s, Returner(r), ReturnStep(s, r), i, a)
  {
    hide Coherent, Begin;
    var e, j := Returner(r), r.inode;
    if j in s.ptr {
      PointerKnown(s, j);
      var c := s.ptr[j];
      WipesThrough(s, e, i, c);
      BeginTags(s, c, {ReturnDelayed}, i, a);
      BeginTags(s, c, {}, i, a);
      BeginTags(s, c, {ReturnIfClosed}, i, a);
    } else {
      WipesNothing(s, e, i);
    }
  }

  lemma FinishTags(s: State, c: nat, result: Result)
    requires Returned(s, c)
    ensures Finish(s, c, result).tagged == s.tagged
  {
  }

  lemma ReturnTags(s: State, r: Returner, i: nat, a: nat)
    requires Coherent(s) && CanReturn(s, r)
    ensures TagLaw(s, Returner(r), ReturnStep(s, r), i, a)
  {
    if r.Finishing? {
      WipesNothing(s, Returner(r), i);
      FinishTags(s, r.d, r.result);
    } else {
      StartTags(s, r, i, a);
    }
  }

  lemma MarkTags(s: State, c: nat, m: Mark, i: nat, a: nat)
    requires c in s.delegs
    ensures TagLaw(s, Marks(c, m), ApplyMark(s, c, m), i, a)
  {
    WipesNothing(s, Marks(c, m), i);
  }

  lemma AliasTags(s: State, e: Event, i: nat, a: nat)
    requires Enabled(s, e) && (e.Verifies? || e.DropsAlias?)
    ensures TagLaw(s, e, Step(s, e), i, a)
  {
    WipesNothing(s, e, i);
  }

  lemma OfferTags(s: State, e: Event, i: nat, a: nat)
    requires Enabled(s, e) && (e.Granted? || e.Reclaimed?)
    ensures TagLaw(s, e, Step(s, e), i, a)
  {
    hide TagLaw;
    var o := e.offer;
    GrantTags(s, o);
    WipesNothing(s, e, i);
    SameTags(s, e, Step(s, e), i, a);
  }

  lemma UpdateTags(s: State, c: nat, mode: Mode, sid: Stateid)
    requires c in s.delegs
    ensures UpdateInPlace(s, c, mode, sid).tagged == s.tagged
  {
  }

  lemma GrantTags(s: State, o: Offer)
    requires o.d !in s.delegs
    ensures Grant(s, o.inode, o.d, o.mode, o.stateid, o.delegTime).tagged == s.tagged
    ensures Reclaim(s, o.inode, o.d, o.mode, o.stateid, o.delegTime).tagged == s.tagged
  {
    hide UpdateInPlace;
    if o.inode in s.ptr && s.ptr[o.inode] in s.delegs { UpdateTags(s, s.ptr[o.inode], o.mode, o.stateid); }
  }

  lemma SameTags(s: State, e: Event, t: State, i: nat, a: nat)
    requires t.tagged == s.tagged && !Wipes(s, e, i) && !e.Verifies? && !e.DropsAlias?
    ensures TagLaw(s, e, t, i, a)
  {
  }

  lemma TakeTags(s: State, v: nat, grabPrev: bool, i: nat, a: nat)
    requires s.scan.Walking? && v in s.delegs && Returning !in s.delegs[v].flags
    requires s.delegs[v].inode.Some? && IsFor(s, s.delegs[v].inode.value, v)
    ensures (i, a) in Take(s, s.delegs[v].inode.value, grabPrev).tagged <==> (i, a) in s.tagged && s.delegs[v].inode != Some(i)
  {
    hide Begin;
    GrabPrevGives(s, s.scan.prev, grabPrev, v, Returning);
    BeginTags(GrabPrev(s, s.scan.prev, grabPrev), v, {ReturnDelayed}, i, a);
  }

  lemma VisitTakesTags(s: State, grab: bool, grabPrev: bool, i: nat, a: nat)
    requires Coherent(s) && Marked(s) && CanScan(s, VisitNext(grab, grabPrev)) && Taking(s, Scans(VisitNext(grab, grabPrev)))
    ensures TagLaw(s, Scans(VisitNext(grab, grabPrev)), Visit(s, grab, grabPrev), i, a)
  {
    hide Coherent, Marked, Take;
    WalksListed(s);
    var v := s.scan.ahead[0];
    WipesThrough(s, Scans(VisitNext(grab, grabPrev)), i, v);
    TakeTags(SetFlags(s, v, {}, {Return}), v, grabPrev, i, a);
  }

  lemma ScanTags(s: State, c: Scanner, i: nat, a: nat)
    requires Coherent(s) && Marked(s) && CanScan(s, c)
    ensures TagLaw(s, Scans(c), ScanStep(s, c), i, a)
  {
    if c.VisitNext? && Taking(s, Scans(c)) {
      VisitTakesTags(s, c.grab, c.grabPrev, i, a);
    } else {
      hide Coherent, Marked, Finish, Taking;
      OtherScanTags(s, c);
      SettledScan(s, c, i);
      SameTags(s, Scans(c), ScanStep(s, c), i, a);
    }
  }

  lemma OtherScanTags(s: State, c: Scanner)
    requires CanScan(s, c) && !(c.VisitNext? && Taking(s, Scans(c)))
    ensures ScanStep(s, c).tagged == s.tagged
  {
    hide Finish;
    if c.Resume? && s.scan.deleg.Some? { FinishTags(s, s.scan.deleg.value, c.result); }
  }

  lemma SettledScan(s: State, c: Scanner, i: nat)
    requires CanScan(s, c) && !(c.VisitNext? && Taking(s, Scans(c)))
    ensures !Wipes(s, Scans(c), i)
  {
    WipesNothing(s, Scans(c), i);
  }

  lemma StepTags(s: State, e: Event, i: nat, a: nat)
    requires Coherent(s) && Marked(s) && Enabled(s, e)
    ensures TagLaw(s, e, Step(s, e), i, a)
  {
    hide TagLaw, Coherent, Marked, RemoveStep, ReturnStep, ApplyMark, ScanStep;
    match e
    case Removes(r) => RemoveTags(s, r, i, a);
    case Returner(r) => ReturnTags(s, r, i, a);
    case Marks(c, m) => MarkTags(s, c, m, i, a);
    case Scans(c) => ScanTags(s, c, i, a);
    case Granted(_) => OfferTags(s, e, i, a);
    case Reclaimed(_) => OfferTags(s, e, i, a);
    case _ => AliasTags(s, e, i, a);
  }

  // What the log says about a tag.
  ghost function TagByLog(es: seq<Event>, i: nat, a: nat): bool {
    if es == [] then false
    else
      var before := es[..|es|-1];
      var s, e := Run(before), es[|es|-1];
      if !Enabled(s, e) then TagByLog(before, i, a)
      else if e == Verifies(i, a, true) then Readable(s, i)
      else TagByLog(before, i, a) && e != DropsAlias(i, a) && !Wipes(s, e, i)
  }

  lemma {:induction false} TagsByLog(es: seq<Event>, i: nat, a: nat)
    ensures (i, a) in Run(es).tagged <==> TagByLog(es, i, a)
  {
    if es != [] {
      hide Step, Enabled, Coherent, Marked, Wipes, Readable;
      var before := es[..|es|-1];
      TagsByLog(before, i, a);
      RunCoherent(before);
      RunMarked(before);
      if Enabled(Run(before), es[|es|-1]) { StepTags(Run(before), es[|es|-1], i, a); }
    }
  }
}
