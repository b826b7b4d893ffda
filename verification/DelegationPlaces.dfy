/**
 Where a delegation stands and on what terms, told from the event log: when it is attached and
 detached, who still has to drop its base reference, how many threads are returning it, and which
 mode and stateid the server last gave it.
 */
module DelegationPlaces {
  import opened Wrappers
  import opened Delegation
  import opened DelegationCoherence
  import opened DelegationMarks
  import opened DelegationFlags

  // ------------------------------------------------ place

  // The step takes d off its inode and the list.
  predicate Unlinks(s: State, e: Event, d: nat)
    requires d in s.delegs
  {
    && Linked(s.delegs[d])
    && match e
       case Removes(DetachingReturned(c)) => c == d
       case Removes(ReapDetaching(c)) => c == d
       case Removes(Evicting(i)) => IsFor(s, i, d)
       case _ => Replaces(s, e, d)
  }

  // A return of d comes to its end, whatever the outcome.
  predicate EndsReturn(s: State, e: Event, d: nat) {
    match e
    case Returner(Finishing(c, _)) => c == d
    case Scans(Resume(_)) => s.scan.Returns? && s.scan.deleg == Some(d)
    case _ => false
  }

  function Count(b: bool): int { if b then 1 else 0 }

  // Attached until unlinked, then the detacher's to drop (revoking it, unless it was returned).
  predicate PlaceLaw(s: State, e: Event, t: State, d: nat)
    requires d in s.delegs
  {
    && d in t.delegs
    && var x, y := s.delegs[d], t.delegs[d];
      && y.published == x.published
      && y.inode == (if Unlinks(s, e, d) then None else x.inode)
      && y.base == (if Unlinks(s, e, d) then Dropping(!(e.Removes? && e.removal.DetachingReturned?))
                    else if e == Removes(DroppingBase(d)) then Dropped else x.base)
      && y.returners == x.returners + Count(Starts(s, e, d)) - Count(EndsReturn(s, e, d))
  }

  // Nothing of this concerns d.
  predicate Stays(s: State, e: Event, d: nat)
    requires d in s.delegs
  {
    !Unlinks(s, e, d) && e != Removes(DroppingBase(d)) && !Starts(s, e, d) && !EndsReturn(s, e, d)
  }

  lemma ShapePlace(s: State, e: Event, t: State, d: nat)
    requires d in s.delegs && SameShape(s, t) && Stays(s, e, d)
    ensures PlaceLaw(s, e, t, d)
  {
    hide Unlinks, Starts, EndsReturn;
    assert SameLinks(s.delegs[d], t.delegs[d]);
  }

  lemma MarkStays(s: State, c: nat, m: Mark, d: nat)
    requires d in s.delegs
    ensures Stays(s, Marks(c, m), d)
  {
  }

  lemma AliasStays(s: State, e: Event, d: nat)
    requires d in s.delegs && (e.Verifies? || e.DropsAlias?)
    ensures Stays(s, e, d)
  {
  }

  lemma RevokingStays(s: State, e: Event, d: nat)
    requires d in s.delegs && e.Removes? && (e.removal.Revoking? || e.removal.MarkingReturned?)
    ensures Stays(s, e, d)
  {
  }

  lemma VerifyShape(s: State, i: nat, alias: nat, current: bool)
    ensures SameShape(s, SetVerifier(s, i, alias, current))
  {
    if i in s.ptr && s.ptr[i] in s.delegs { SetFlagsShape(s, s.ptr[i], {Referenced}, {}); }
  }

  // ------------------------------------------------ returners

  lemma BeginPlace(s: State, c: nat, drop: set<Flag>, d: nat)
    requires c in s.delegs && d in s.delegs
    ensures var t := Begin(s, c, drop);
      && d in t.delegs && t.delegs[d].published == s.delegs[d].published && t.delegs[d].inode == s.delegs[d].inode
      && t.delegs[d].base == s.delegs[d].base && t.delegs[d].returners == s.delegs[d].returners + Count(c == d)
  {
  }

  lemma FinishPlace(s: State, c: nat, result: Result, d: nat)
    requires Returned(s, c) && d in s.delegs
    ensures var t := Finish(s, c, result);
      && d in t.delegs && t.delegs[d].published == s.delegs[d].published && t.delegs[d].inode == s.delegs[d].inode
      && t.delegs[d].base == s.delegs[d].base && t.delegs[d].returners == s.delegs[d].returners - Count(c == d)
  {
  }

  lemma ReturnerUnlinksNone(s: State, r: Returner, d: nat)
    requires d in s.delegs
    ensures !Unlinks(s, Returner(r), d)
  {
  }

  lemma StartPlace(s: State, i: nat, d: nat)
    requires d in s.delegs
    ensures PlaceLaw(s, Returner(Starting(i)), StartReturn(s, i), d)
  {
    hide Unlinks, Begin;
    ReturnerUnlinksNone(s, Starting(i), d);
    if i in s.ptr && s.ptr[i] in s.delegs { BeginPlace(s, s.ptr[i], {ReturnDelayed}, d); }
  }

  lemma SettingOnClosePlace(s: State, i: nat, closed: bool, d: nat)
    requires d in s.delegs
    ensures PlaceLaw(s, Returner(SettingOnClose(i, closed)), SetReturnOnClose(s, i, closed), d)
  {
    hide Unlinks, Begin, SetFlags;
    ReturnerUnlinksNone(s, SettingOnClose(i, closed), d);
    if i in s.ptr && s.ptr[i] in s.delegs {
      BeginPlace(s, s.ptr[i], {}, d);
      SetFlagsShape(s, s.ptr[i], {ReturnIfClosed}, {});
      assert SameLinks(s.delegs[d], SetFlags(s, s.ptr[i], {ReturnIfClosed}, {}).delegs[d]);
    }
  }

  lemma OnClosePlace(s: State, i: nat, closed: bool, watermark: nat, d: nat)
    requires d in s.delegs
    ensures PlaceLaw(s, Returner(OnClose(i, closed, watermark)), ReturnOnClose(s, i, closed, watermark), d)
  {
    hide Unlinks, Begin;
    ReturnerUnlinksNone(s, OnClose(i, closed, watermark), d);
    if i in s.ptr && s.ptr[i] in s.delegs { BeginPlace(s, s.ptr[i], {ReturnIfClosed}, d); }
  }

  lemma ReturnerPlace(s: State, r: Returner, d: nat)
    requires CanReturn(s, r) && d in s.delegs
    ensures PlaceLaw(s, Returner(r), ReturnStep(s, r), d)
  {
    match r
    case Starting(i) => StartPlace(s, i, d);
    case SettingOnClose(i, closed) => SettingOnClosePlace(s, i, closed, d);
    case OnClose(i, closed, watermark) => OnClosePlace(s, i, closed, watermark, d);
    case Finishing(c, result) =>
      hide Unlinks, Finish;
      ReturnerUnlinksNone(s, r, d);
      FinishPlace(s, c, result, d);
  }

  // ------------------------------------------------ removals

  lemma DetachPlace(s: State, c: nat, revoke: bool, d: nat)
    requires Coherent(s) && c in s.delegs && d in s.delegs
    ensures var t := Detach(s, c, revoke);
      && d in t.delegs && t.delegs[d].published == s.delegs[d].published && t.delegs[d].returners == s.delegs[d].returners
      && t.delegs[d].inode == (if c == d && Linked(s.delegs[d]) then None else s.delegs[d].inode)
      && t.delegs[d].base == (if c == d && Linked(s.delegs[d]) then Dropping(revoke) else s.delegs[d].base)
  {
    hide Coherent;
    DetachCoherent(s, c, revoke);
    if Linked(s.delegs[c]) { LinkedPointer(s, c); }
  }

  lemma SameButQueue(s: State, queue: multiset<nat>)
    requires Coherent(s)
    ensures Coherent(s.(toDetach := queue))
  {
  }

  lemma DropBasePlace(s: State, c: nat, d: nat)
    requires Enabled(s, Removes(DroppingBase(c))) && d in s.delegs
    ensures PlaceLaw(s, Removes(DroppingBase(c)), DropBase(s, c), d)
  {
    hide MarkRevoked;
    MarkRevokedShape(s, c);
    assert SameLinks(s.delegs[d], MarkRevoked(s, c).delegs[d]);
  }

  lemma EvictPlace(s: State, i: nat, d: nat)
    requires Coherent(s) && d in s.delegs
    ensures PlaceLaw(s, Removes(Evicting(i)), Evict(s, i), d)
  {
    hide Coherent, Detach, SetFlags;
    if i in s.ptr {
      PointerKnown(s, i);
      var c := s.ptr[i];
      DetachPlace(s, c, true, d);
      DetachPlace(s, c, true, c);
      DetachCoherent(s, c, true);
      var t := Detach(s, c, true);
      SetFlagsShape(t, c, {Returning, InodeFreeing}, {});
      assert SameLinks(t.delegs[d], SetFlags(t, c, {Returning, InodeFreeing}, {}).delegs[d]);
    }
  }

  lemma DetachingPlace(s: State, r: Removal, d: nat)
    requires Coherent(s) && CanRemove(s, r) && d in s.delegs && (r.DetachingReturned? || r.ReapDetaching?)
    ensures PlaceLaw(s, Removes(r), RemoveStep(s, r), d)
  {
    hide Coherent, Detach;
    SameButQueue(s, s.toDetach - multiset{r.d});
    DetachPlace(s.(toDetach := s.toDetach - multiset{r.d}), r.d, false, d);
    DetachPlace(s, r.d, true, d);
  }

  lemma RemovalPlace(s: State, r: Removal, d: nat)
    requires Coherent(s) && CanRemove(s, r) && d in s.delegs
    ensures PlaceLaw(s, Removes(r), RemoveStep(s, r), d)
  {
    hide PlaceLaw, Coherent, Revoke, MarkReturned, DropBase, Evict, SameShape, Stays;
    match r
    case Revoking(i, sid) =>
      RevokeShape(s, i, sid);
      RevokingStays(s, Removes(r), d);
      ShapePlace(s, Removes(r), Revoke(s, i, sid), d);
    case MarkingReturned(i, sid) =>
      MarkReturnedShape(s, i, sid);
      RevokingStays(s, Removes(r), d);
      ShapePlace(s, Removes(r), MarkReturned(s, i, sid), d);
    case DetachingReturned(_) => DetachingPlace(s, r, d);
    case ReapDetaching(_) => DetachingPlace(s, r, d);
    case DroppingBase(c) => DropBasePlace(s, c, d);
    case Evicting(i) => EvictPlace(s, i, d);
  }

  // ------------------------------------------------ grants

  // An offer starts and ends no return; it unlinks what it replaces.
  lemma OfferStarts(s: State, e: Event, d: nat)
    requires d in s.delegs && (e.Granted? || e.Reclaimed?)
    ensures !Starts(s, e, d) && !EndsReturn(s, e, d)
    ensures Unlinks(s, e, d) <==> Linked(s.delegs[d]) && Replaces(s, e, d)
  {
  }

  lemma ReplacePlace(s: State, o: Offer, p: nat, d: nat)
    requires Coherent(s) && o.d !in s.delegs && d in s.delegs && o.inode in s.ptr && s.ptr[o.inode] == p
    ensures p in s.delegs
    ensures var t := if Revoked in s.delegs[p].flags then s else SetFlags(s, p, {Returning}, {});
      var u := Publish(Detach(t, p, true), o.inode, o.d, o.mode, o.stateid, o.delegTime);
      && d in u.delegs && u.delegs[d].published == s.delegs[d].published && u.delegs[d].returners == s.delegs[d].returners
      && u.delegs[d].inode == (if p == d then None else s.delegs[d].inode)
      && u.delegs[d].base == (if p == d then Dropping(true) else s.delegs[d].base)
  {
    hide Coherent, SetFlags, Detach, Publish;
    PointerKnown(s, o.inode);
    var t := if Revoked in s.delegs[p].flags then s else SetFlags(s, p, {Returning}, {});
    SetFlagsShape(s, p, {Returning}, {});
    SameShapeCoherent(s, t);
    assert SameLinks(s.delegs[d], t.delegs[d]) && SameLinks(s.delegs[p], t.delegs[p]);
    DetachPlace(t, p, true, d);
    DetachKeys(t, p, true);
    AddGives(Detach(t, p, true), o, d);
  }

  lemma GrantPlace(s: State, o: Offer, d: nat)
    requires Coherent(s) && o.d !in s.delegs && d in s.delegs
    ensures PlaceLaw(s, Granted(o), Grant(s, o.inode, o.d, o.mode, o.stateid, o.delegTime), d)
  {
    hide Coherent, Publish, Duplicate, UpdateInPlace, Detach, SetFlags, Unlinks, Starts, EndsReturn, Returned;
    OfferStarts(s, Granted(o), d);
    AddGives(s, o, d);
    if o.inode in s.ptr {
      PointerKnown(s, o.inode);
      var p := s.ptr[o.inode];
      UpdateInPlaceShape(s, p, o.mode, o.stateid);
      assert SameLinks(s.delegs[d], UpdateInPlace(s, p, o.mode, o.stateid).delegs[d]);
      ReplacePlace(s, o, p, d);
      ReplacedDetaches(s, o.inode, p);
    }
  }

  lemma ReclaimPlace(s: State, o: Offer, d: nat)
    requires Coherent(s) && o.d !in s.delegs && d in s.delegs
    ensures PlaceLaw(s, Reclaimed(o), Reclaim(s, o.inode, o.d, o.mode, o.stateid, o.delegTime), d)
  {
    hide Coherent, Publish, Unlinks, Starts, EndsReturn;
    OfferStarts(s, Reclaimed(o), d);
    ReclaimReplacesNone(s, o, d);
    AddGives(s, o, d);
    if o.inode in s.ptr {
      PointerKnown(s, o.inode);
      RenewShape(s, o.inode, o.d, o.mode, o.stateid, o.delegTime);
      ShapePlace(s, Reclaimed(o), Reclaim(s, o.inode, o.d, o.mode, o.stateid, o.delegTime), d);
    }
  }

  lemma ReclaimReplacesNone(s: State, o: Offer, d: nat)
    requires d in s.delegs
    ensures !Replaces(s, Reclaimed(o), d)
  {
  }

  // ------------------------------------------------ the scanner

  lemma ScannerUnlinksNone(s: State, c: Scanner, d: nat)
    requires d in s.delegs
    ensures !Unlinks(s, Scans(c), d)
  {
  }

  lemma TakePlace(s: State, v: nat, grabPrev: bool, d: nat)
    requires s.scan.Walking? && v in s.delegs && d in s.delegs && Returning !in s.delegs[v].flags
    requires s.delegs[v].inode.Some? && IsFor(s, s.delegs[v].inode.value, v)
    ensures var t := Take(s, s.delegs[v].inode.value, grabPrev);
      && d in t.delegs && t.delegs[d].published == s.delegs[d].published && t.delegs[d].inode == s.delegs[d].inode
      && t.delegs[d].base == s.delegs[d].base && t.delegs[d].returners == s.delegs[d].returners + Count(v == d)
  {
    hide GrabPrev, Begin;
    GrabPrevGives(s, s.scan.prev, grabPrev, v, Returning);
    GrabPrevQuiet(s, s.scan.prev, grabPrev);
    var u := GrabPrev(s, s.scan.prev, grabPrev);
    assert SameLinks(s.delegs[d], u.delegs[d]);
    BeginPlace(u, v, {ReturnDelayed}, d);
  }

  lemma VisitTakesPlace(s: State, grab: bool, grabPrev: bool, d: nat)
    requires Coherent(s) && Marked(s) && CanScan(s, VisitNext(grab, grabPrev)) && d in s.delegs
    requires Taking(s, Scans(VisitNext(grab, grabPrev)))
    ensures PlaceLaw(s, Scans(VisitNext(grab, grabPrev)), Visit(s, grab, grabPrev), d)
  {
    hide Coherent, Marked, SetFlags, Take, Unlinks;
    ScannerUnlinksNone(s, VisitNext(grab, grabPrev), d);
    WalksListed(s);
    var v := s.scan.ahead[0];
    var t := SetFlags(s, v, {}, {Return});
    SetFlagsGives(s, v, {}, {Return}, v, Returning);
    SetFlagsShape(s, v, {}, {Return});
    SetFlagsKeys(s, v, {}, {Return});
    assert SameLinks(s.delegs[d], t.delegs[d]);
    TakePlace(t, v, grabPrev, d);
  }

  lemma VisitPassesPlace(s: State, grab: bool, grabPrev: bool, d: nat)
    requires CanScan(s, VisitNext(grab, grabPrev)) && d in s.delegs && !Taking(s, Scans(VisitNext(grab, grabPrev)))
    ensures PlaceLaw(s, Scans(VisitNext(grab, grabPrev)), Visit(s, grab, grabPrev), d)
  {
    hide Visit, Unlinks;
    ScannerUnlinksNone(s, VisitNext(grab, grabPrev), d);
    PassShape(s, grab, grabPrev);
    ShapePlace(s, Scans(VisitNext(grab, grabPrev)), Visit(s, grab, grabPrev), d);
  }

  lemma ResumePlace(s: State, result: Result, d: nat)
    requires CanScan(s, Resume(result)) && d in s.delegs
    ensures PlaceLaw(s, Scans(Resume(result)), ScanResume(s, result), d)
  {
    hide Unlinks, Finish;
    ScannerUnlinksNone(s, Resume(result), d);
    if s.scan.deleg.Some? { FinishPlace(s, s.scan.deleg.value, result, d); }
  }

  lemma OtherScannerPlace(s: State, c: Scanner, d: nat)
    requires CanScan(s, c) && !c.VisitNext? && !c.Resume? && d in s.delegs
    ensures PlaceLaw(s, Scans(c), ScanStep(s, c), d)
  {
    hide ClearVisit, Unlinks;
    ScannerUnlinksNone(s, c, d);
    if c.ClearNext? { ClearVisitShape(s); }
    ShapePlace(s, Scans(c), ScanStep(s, c), d);
  }

  lemma StepPlace(s: State, e: Event, d: nat)
    requires Coherent(s) && Marked(s) && Enabled(s, e) && d in s.delegs
    ensures PlaceLaw(s, e, Step(s, e), d)
  {
    hide PlaceLaw, Coherent, Marked, Grant, Reclaim, RemoveStep, ReturnStep, ApplyMark, SetVerifier;
    hide Visit, ScanResume, Stays, SameLinks;
    match e
    case Granted(o) => GrantPlace(s, o, d);
    case Reclaimed(o) => ReclaimPlace(s, o, d);
    case Removes(r) => RemovalPlace(s, r, d);
    case Returner(r) => ReturnerPlace(s, r, d);
    case Marks(c, m) =>
      MarkShape(s, c, m);
      MarkStays(s, c, m, d);
      ShapePlace(s, e, ApplyMark(s, c, m), d);
    case Verifies(i, alias, current) =>
      VerifyShape(s, i, alias, current);
      AliasStays(s, e, d);
      ShapePlace(s, e, SetVerifier(s, i, alias, current), d);
    case DropsAlias(i, alias) =>
      AliasStays(s, e, d);
      SameDelegsShape(s, Step(s, e));
      ShapePlace(s, e, Step(s, e), d);
    case Scans(c) => ScannerPlace(s, c, d);
  }

  lemma SameDelegsShape(s: State, t: State)
    requires t.delegs == s.delegs && t.list == s.list && t.ptr == s.ptr
    ensures SameShape(s, t)
  {
  }

  lemma ScannerPlace(s: State, c: Scanner, d: nat)
    requires Coherent(s) && Marked(s) && CanScan(s, c) && d in s.delegs
    ensures PlaceLaw(s, Scans(c), ScanStep(s, c), d)
  {
    hide PlaceLaw, Coherent, Marked, Visit, ScanResume;
    match c
    case VisitNext(grab, grabPrev) =>
      if Taking(s, Scans(c)) { VisitTakesPlace(s, grab, grabPrev, d); } else { VisitPassesPlace(s, grab, grabPrev, d); }
    case Resume(result) => ResumePlace(s, result, d);
    case _ => OtherScannerPlace(s, c, d);
  }

  // ------------------------------------------------ terms

  // The sequence number that the server's word brings along, if it counts.
  function NewSeqid(s: State, e: Event, d: nat): Seqid
    requires d in s.delegs
  {
    match e
    case Removes(Revoking(_, sid)) => if sid.Some? && Revokes(s, e, d) then sid.value.seqid else 0
    case Removes(MarkingReturned(_, sid)) => if Revokes(s, e, d) then sid.seqid else 0
    case _ => 0
  }

  // Mode and stateid are the server's last offer, the sequence number its last word.
  predicate TermsLaw(s: State, e: Event, t: State, d: nat)
    requires d in s.delegs
  {
    && d in t.delegs
    && var x, y := s.delegs[d], t.delegs[d];
      && y.mode == (if Renews(s, e, d) then e.offer.mode else x.mode)
      && y.stateid == (if Renews(s, e, d) then e.offer.stateid
                       else if NewSeqid(s, e, d) != 0 then x.stateid.(seqid := NewSeqid(s, e, d)) else x.stateid)
  }

  predicate SameTerms(s: State, t: State, d: nat)
    requires d in s.delegs
  {
    d in t.delegs && t.delegs[d].mode == s.delegs[d].mode && t.delegs[d].stateid == s.delegs[d].stateid
  }

  lemma SetFlagsTerms(s: State, c: nat, add: set<Flag>, drop: set<Flag>, d: nat)
    requires c in s.delegs && d in s.delegs
    ensures SameTerms(s, SetFlags(s, c, add, drop), d)
  {
  }

  lemma GrabFailedTerms(s: State, c: nat, d: nat)
    requires c in s.delegs && d in s.delegs
    ensures SameTerms(s, GrabFailed(s, c), d)
  {
  }

  lemma BeginTerms(s: State, c: nat, drop: set<Flag>, d: nat)
    requires c in s.delegs && d in s.delegs
    ensures SameTerms(s, Begin(s, c, drop), d)
  {
  }

  lemma MarkRevokedTerms(s: State, c: nat, d: nat)
    requires c in s.delegs && d in s.delegs
    ensures c in MarkRevoked(s, c).delegs && SameTerms(s, MarkRevoked(s, c), d)
  {
  }

  lemma UnrevokedTerms(s: State, c: nat, d: nat)
    requires c in s.delegs && d in s.delegs
    ensures SameTerms(s, Unrevoked(s, c), d)
  {
  }

  lemma DetachTerms(s: State, c: nat, revoke: bool, d: nat)
    requires c in s.delegs && d in s.delegs
    ensures SameTerms(s, Detach(s, c, revoke), d)
  {
  }

  lemma FinishTerms(s: State, c: nat, result: Result, d: nat)
    requires Returned(s, c) && d in s.delegs
    ensures SameTerms(s, Finish(s, c, result), d)
  {
  }

  // Events without a word from the server about d.
  lemma QuietTerms(s: State, e: Event, t: State, d: nat)
    requires d in s.delegs && SameTerms(s, t, d)
    requires !e.Granted? && !e.Reclaimed? && !(e.Removes? && (e.removal.Revoking? || e.removal.MarkingReturned?))
    ensures TermsLaw(s, e, t, d)
  {
  }

  lemma MarkTerms(s: State, c: nat, m: Mark, d: nat)
    requires c in s.delegs && d in s.delegs
    ensures SameTerms(s, ApplyMark(s, c, m), d)
  {
    if c != d { MarkLeaves(s, c, m, d); }
  }

  lemma ReseqTerms(s: State, c: nat, seqid: Seqid, d: nat)
    requires c in s.delegs && d in s.delegs
    ensures var t := Reseq(s, c, seqid);
      && c in t.delegs && d in t.delegs && t.delegs[d].mode == s.delegs[d].mode
      && t.delegs[d].stateid == (if c == d && seqid != 0 then s.delegs[d].stateid.(seqid := seqid) else s.delegs[d].stateid)
  {
  }

  lemma ReseqRevokeTerms(s: State, c: nat, seqid: Seqid, d: nat)
    requires c in s.delegs && d in s.delegs
    ensures c in Reseq(s, c, seqid).delegs
    ensures var t := MarkRevoked(Reseq(s, c, seqid), c);
      && c in t.delegs && d in t.delegs && t.delegs[d].mode == s.delegs[d].mode
      && t.delegs[d].stateid == (if c == d && seqid != 0 then s.delegs[d].stateid.(seqid := seqid) else s.delegs[d].stateid)
  {
    hide MarkRevoked, Reseq;
    ReseqTerms(s, c, seqid, d);
    MarkRevokedTerms(Reseq(s, c, seqid), c, d);
  }

  lemma RevokeTerms(s: State, i: nat, sid: Option<Stateid>, d: nat)
    requires d in s.delegs
    ensures TermsLaw(s, Removes(Revoking(i, sid)), Revoke(s, i, sid), d)
  {
    hide MarkRevoked, Reseq, IsNewer;
    if i in s.ptr && s.ptr[i] in s.delegs {
      MarkRevokedTerms(s, s.ptr[i], d);
      if sid.Some? { ReseqRevokeTerms(s, s.ptr[i], sid.value.seqid, d); }
    }
  }

  lemma SurrenderTerms(s: State, c: nat, seqid: Seqid, d: nat)
    requires c in s.delegs && d in s.delegs
    ensures var t := Surrender(s, c, seqid);
      && d in t.delegs && t.delegs[d].mode == s.delegs[d].mode
      && t.delegs[d].stateid == (if c == d && seqid != 0 then s.delegs[d].stateid.(seqid := seqid) else s.delegs[d].stateid)
  {
    hide MarkRevoked, Reseq, SetFlags;
    ReseqRevokeTerms(s, c, seqid, d);
    SetFlagsTerms(MarkRevoked(Reseq(s, c, seqid), c), c, {}, {Returning}, d);
  }

  lemma MarkReturnedTerms(s: State, i: nat, sid: Stateid, d: nat)
    requires d in s.delegs
    ensures TermsLaw(s, Removes(MarkingReturned(i, sid)), MarkReturned(s, i, sid), d)
  {
    hide Surrender, IsNewer, SetFlags;
    if i in s.ptr && s.ptr[i] in s.delegs {
      SetFlagsTerms(s, s.ptr[i], {}, {Returning}, d);
      SurrenderTerms(s, s.ptr[i], sid.seqid, d);
    }
  }

  lemma DropBaseTerms(s: State, c: nat, d: nat)
    requires c in s.delegs && s.delegs[c].base.Dropping? && d in s.delegs
    ensures SameTerms(s, DropBase(s, c), d)
  {
    hide MarkRevoked;
    MarkRevokedShape(s, c);
    MarkRevokedTerms(s, c, d);
    MarkRevokedTerms(s, c, c);
  }

  lemma EvictTerms(s: State, i: nat, d: nat)
    requires d in s.delegs
    ensures SameTerms(s, Evict(s, i), d)
  {
    hide Detach, SetFlags;
    if i in s.ptr && s.ptr[i] in s.delegs {
      var c := s.ptr[i];
      DetachTerms(s, c, true, d);
      DetachTerms(s, c, true, c);
      SetFlagsTerms(Detach(s, c, true), c, {Returning, InodeFreeing}, {}, d);
    }
  }

  lemma RemovalTerms(s: State, r: Removal, d: nat)
    requires CanRemove(s, r) && d in s.delegs
    ensures TermsLaw(s, Removes(r), RemoveStep(s, r), d)
  {
    hide TermsLaw, Revoke, MarkReturned, DropBase, Evict, Detach;
    match r
    case Revoking(i, sid) => RevokeTerms(s, i, sid, d);
    case MarkingReturned(i, sid) => MarkReturnedTerms(s, i, sid, d);
    case DetachingReturned(c) =>
      DetachTerms(s.(toDetach := s.toDetach - multiset{c}), c, false, d);
      QuietTerms(s, Removes(r), RemoveStep(s, r), d);
    case ReapDetaching(c) =>
      DetachTerms(s, c, true, d);
      QuietTerms(s, Removes(r), RemoveStep(s, r), d);
    case DroppingBase(c) =>
      DropBaseTerms(s, c, d);
      QuietTerms(s, Removes(r), RemoveStep(s, r), d);
    case Evicting(i) =>
      EvictTerms(s, i, d);
      QuietTerms(s, Removes(r), RemoveStep(s, r), d);
  }

  lemma ReturnerTerms(s: State, r: Returner, d: nat)
    requires CanReturn(s, r) && d in s.delegs
    ensures SameTerms(s, ReturnStep(s, r), d)
  {
    hide Begin, SetFlags, Finish;
    match r
    case Starting(i) => if i in s.ptr && s.ptr[i] in s.delegs { BeginTerms(s, s.ptr[i], {ReturnDelayed}, d); }
    case SettingOnClose(i, _) =>
      if i in s.ptr && s.ptr[i] in s.delegs {
        BeginTerms(s, s.ptr[i], {}, d);
        SetFlagsTerms(s, s.ptr[i], {ReturnIfClosed}, {}, d);
      }
    case OnClose(i, _, _) => if i in s.ptr && s.ptr[i] in s.delegs { BeginTerms(s, s.ptr[i], {ReturnIfClosed}, d); }
    case Finishing(c, result) => FinishTerms(s, c, result, d);
  }

  lemma TakeTerms(s: State, i: nat, grabPrev: bool, d: nat)
    requires s.scan.Walking? && d in s.delegs
    ensures SameTerms(s, Take(s, i, grabPrev), d)
  {
    hide Begin, GrabFailed;
    var u := GrabPrev(s, s.scan.prev, grabPrev);
    if s.scan.prev.Some? && s.scan.prev.value in s.delegs { GrabFailedTerms(s, s.scan.prev.value, d); }
    if i in u.ptr && u.ptr[i] in u.delegs { BeginTerms(u, u.ptr[i], {ReturnDelayed}, d); }
  }

  lemma VisitTerms(s: State, grab: bool, grabPrev: bool, d: nat)
    requires CanScan(s, VisitNext(grab, grabPrev)) && d in s.delegs
    ensures SameTerms(s, Visit(s, grab, grabPrev), d)
  {
    hide Take, SetFlags, GrabFailed;
    var v := s.scan.ahead[0];
    var t := SetFlags(s, v, {}, {Return});
    SetFlagsTerms(s, v, {}, {Return}, d);
    SetFlagsKeys(s, v, {}, {Return});
    GrabFailedTerms(t, v, d);
    if s.delegs[v].inode.Some? { TakeTerms(t, s.delegs[v].inode.value, grabPrev, d); }
  }

  lemma ClearTerms(s: State, d: nat)
    requires CanScan(s, ClearNext) && d in s.delegs
    ensures SameTerms(s, ClearVisit(s), d)
  {
    hide SetFlags;
    var v := s.scan.ahead[0];
    var t := s.(scan := Clearing(s.scan.ahead[1..]));
    SetFlagsTerms(t, v, {Return}, {}, d);
    SetFlagsKeys(t, v, {Return}, {});
    SetFlagsTerms(MarkReturn(t, v), v, {}, {ReturnDelayed}, d);
  }

  lemma ScannerTerms(s: State, c: Scanner, d: nat)
    requires CanScan(s, c) && d in s.delegs
    ensures SameTerms(s, ScanStep(s, c), d)
  {
    hide Visit, Finish, ClearVisit;
    match c
    case VisitNext(grab, grabPrev) => VisitTerms(s, grab, grabPrev, d);
    case Resume(result) => if s.scan.deleg.Some? { FinishTerms(s, s.scan.deleg.value, result, d); }
    case ClearNext => ClearTerms(s, d);
    case _ =>
  }

  lemma UpdateTerms(s: State, c: nat, mode: Mode, sid: Stateid, d: nat)
    requires c in s.delegs && d in s.delegs
    ensures var t := UpdateInPlace(s, c, mode, sid);
      && d in t.delegs
      && t.delegs[d].mode == (if c == d && IsNewer(sid, s.delegs[c].stateid) then mode else s.delegs[d].mode)
      && t.delegs[d].stateid == (if c == d && IsNewer(sid, s.delegs[c].stateid)
                                 then s.delegs[d].stateid.(seqid := sid.seqid) else s.delegs[d].stateid)
  {
    hide Unrevoked, IsNewer;
    var x := s.delegs[c];
    UnrevokedTerms(Put(s, c, x.(stateid := x.stateid.(seqid := sid.seqid), mode := mode)), c, d);
  }

  lemma ReplaceTerms(s: State, o: Offer, p: nat, d: nat)
    requires o.d !in s.delegs && d in s.delegs && p in s.delegs
    ensures var t := if Revoked in s.delegs[p].flags then s else SetFlags(s, p, {Returning}, {});
      SameTerms(s, t, d) && SameTerms(s, Publish(Detach(t, p, true), o.inode, o.d, o.mode, o.stateid, o.delegTime), d)
  {
    hide SetFlags, Detach, Publish;
    var t := if Revoked in s.delegs[p].flags then s else SetFlags(s, p, {Returning}, {});
    SetFlagsTerms(s, p, {Returning}, {}, d);
    SetFlagsKeys(s, p, {Returning}, {});
    DetachTerms(t, p, true, d);
    DetachKeys(t, p, true);
    AddGives(Detach(t, p, true), o, d);
  }

  lemma GrantTerms(s: State, o: Offer, d: nat)
    requires Coherent(s) && o.d !in s.delegs && d in s.delegs
    ensures TermsLaw(s, Granted(o), Grant(s, o.inode, o.d, o.mode, o.stateid, o.delegTime), d)
  {
    hide Coherent, Publish, Duplicate, UpdateInPlace, Detach, SetFlags, IsNewer;
    AddGives(s, o, d);
    if o.inode in s.ptr {
      PointerKnown(s, o.inode);
      var p := s.ptr[o.inode];
      UpdateTerms(s, p, o.mode, o.stateid, d);
      ReplaceTerms(s, o, p, d);
      ReplacedDetaches(s, o.inode, p);
    }
  }

  lemma ReclaimTerms(s: State, o: Offer, d: nat)
    requires Coherent(s) && o.d !in s.delegs && d in s.delegs
    ensures TermsLaw(s, Reclaimed(o), Reclaim(s, o.inode, o.d, o.mode, o.stateid, o.delegTime), d)
  {
    hide Coherent, Publish, Unrevoked;
    AddGives(s, o, d);
    if o.inode in s.ptr {
      PointerKnown(s, o.inode);
      var p := s.ptr[o.inode];
      var x := s.delegs[p];
      UnrevokedTerms(Put(s, p, x.(stateid := o.stateid, mode := o.mode,
        flags := x.flags - {NeedReclaim, DelegTime} + (if o.delegTime then {DelegTime} else {}))), p, d);
    }
  }

  lemma StepTerms(s: State, e: Event, d: nat)
    requires Coherent(s) && Enabled(s, e) && d in s.delegs
    ensures TermsLaw(s, e, Step(s, e), d)
  {
    hide TermsLaw, Coherent, Grant, Reclaim, RemoveStep, ReturnStep, ApplyMark, SetFlags, ScanStep;
    match e
    case Granted(o) => GrantTerms(s, o, d);
    case Reclaimed(o) => ReclaimTerms(s, o, d);
    case Removes(r) => RemovalTerms(s, r, d);
    case Returner(r) => ReturnerTerms(s, r, d); QuietTerms(s, e, ReturnStep(s, r), d);
    case Marks(c, m) => MarkTerms(s, c, m, d); QuietTerms(s, e, ApplyMark(s, c, m), d);
    case Verifies(i, alias, current) =>
      if i in s.ptr && s.ptr[i] in s.delegs { SetFlagsTerms(s, s.ptr[i], {Referenced}, {}, d); }
      QuietTerms(s, e, Step(s, e), d);
    case DropsAlias(i, alias) => QuietTerms(s, e, Step(s, e), d);
    case Scans(c) => ScannerTerms(s, c, d); QuietTerms(s, e, ScanStep(s, c), d);
  }

  // ------------------------------------------------ births

  // The offer becomes the inode's delegation: there was none, or it replaces the one there was.
  predicate Publishes(s: State, e: Event) {
    match e
    case Granted(o) => o.inode !in s.ptr || (s.ptr[o.inode] in s.delegs && Replaces(s, e, s.ptr[o.inode]))
    case Reclaimed(o) => o.inode !in s.ptr
    case _ => false
  }

  // The offer is a second one for a delegation that does as well, and is thrown away.
  predicate Discards(s: State, e: Event) {
    && e.Granted? && e.offer.inode in s.ptr && s.ptr[e.offer.inode] in s.delegs
    && var x := s.delegs[s.ptr[e.offer.inode]];
      && x.stateid.other != e.offer.stateid.other && Revoked !in x.flags
      && (e.offer.mode == x.mode || !e.offer.mode.write)
  }

  // What a delegation is born as.
  predicate BornAs(s: State, e: Event, x: Deleg)
    requires e.Granted? || e.Reclaimed?
  {
    && x.published == Publishes(s, e) && x.inode == Some(e.offer.inode) && x.mode == e.offer.mode
    && x.stateid == e.offer.stateid && x.base == (if Publishes(s, e) then Attached else Dropping(true)) && x.returners == 0
  }

  lemma AddedAs(s: State, o: Offer)
    requires o.d !in s.delegs
    ensures var t := Publish(s, o.inode, o.d, o.mode, o.stateid, o.delegTime);
      && o.d in t.delegs && t.list == s.list + [o.d] && t.ptr == s.ptr[o.inode := o.d]
      && var x := t.delegs[o.d];
        && x.published && x.inode == Some(o.inode) && x.mode == o.mode && x.stateid == o.stateid
        && x.base == Attached && x.returners == 0
    ensures var t := Duplicate(s, o.inode, o.d, o.mode, o.stateid, o.delegTime);
      && o.d in t.delegs && t.list == s.list && t.ptr == s.ptr
      && var x := t.delegs[o.d];
        && !x.published && x.inode == Some(o.inode) && x.mode == o.mode && x.stateid == o.stateid
        && x.base == Dropping(true) && x.returners == 0
  {
  }

  // An offer makes its delegation exactly when it is published or thrown away, and no other.
  lemma OfferBirth(s: State, e: Event)
    requires Coherent(s) && Enabled(s, e) && (e.Granted? || e.Reclaimed?)
    ensures e.offer.d in Step(s, e).delegs <==> Publishes(s, e) || Discards(s, e)
    ensures e.offer.d in Step(s, e).delegs ==> BornAs(s, e, Step(s, e).delegs[e.offer.d])
    ensures Publishes(s, e) ==> e.offer.inode in Step(s, e).ptr && Step(s, e).ptr[e.offer.inode] == e.offer.d
  {
    hide Coherent, Publish, Duplicate, UpdateInPlace, Detach, SetFlags, SameLinks;
    var o := e.offer;
    AddedAs(s, o);
    if o.inode in s.ptr {
      PointerKnown(s, o.inode);
      var p := s.ptr[o.inode];
      UpdateInPlaceShape(s, p, o.mode, o.stateid);
      RenewShape(s, o.inode, o.d, o.mode, o.stateid, o.delegTime);
      var t := if Revoked in s.delegs[p].flags then s else SetFlags(s, p, {Returning}, {});
      SetFlagsKeys(s, p, {Returning}, {});
      DetachKeys(t, p, true);
      ReplacedDetaches(s, o.inode, p);
      AddedAs(Detach(t, p, true), o);
    }
  }

  // ------------------------------------------------ over every run

  // What the log says about a delegation.
  datatype Account = Account(published: bool, inode: Option<nat>, base: Base, returners: int, mode: Mode, stateid: Stateid)

  function AccountOf(x: Deleg): Account { Account(x.published, x.inode, x.base, x.returners, x.mode, x.stateid) }

  function Next(s: State, e: Event, d: nat, a: Account): Account
    requires d in s.delegs
  {
    Account(
      a.published,
      if Unlinks(s, e, d) then None else a.inode,
      if Unlinks(s, e, d) then Dropping(!(e.Removes? && e.removal.DetachingReturned?))
        else if e == Removes(DroppingBase(d)) then Dropped else a.base,
      a.returners + Count(Starts(s, e, d)) - Count(EndsReturn(s, e, d)),
      if Renews(s, e, d) then e.offer.mode else a.mode,
      if Renews(s, e, d) then e.offer.stateid
        else if NewSeqid(s, e, d) != 0 then a.stateid.(seqid := NewSeqid(s, e, d)) else a.stateid)
  }

  function AccountByLog(es: seq<Event>, d: nat): Option<Account> {
    if es == [] then None
    else
      var before := es[..|es|-1];
      var s, e := Run(before), es[|es|-1];
      if !Enabled(s, e) then AccountByLog(before, d)
      else if d in s.delegs then
        var a := AccountByLog(before, d);
        if a.Some? then Some(Next(s, e, d, a.value)) else None
      else if (e.Granted? || e.Reclaimed?) && e.offer.d == d && (Publishes(s, e) || Discards(s, e)) then
        Some(Account(Publishes(s, e), Some(e.offer.inode), if Publishes(s, e) then Attached else Dropping(true), 0,
                     e.offer.mode, e.offer.stateid))
      else None
  }

  lemma StepAccount(s: State, e: Event, d: nat)
    requires Coherent(s) && Marked(s) && Enabled(s, e) && d in s.delegs
    ensures d in Step(s, e).delegs && AccountOf(Step(s, e).delegs[d]) == Next(s, e, d, AccountOf(s.delegs[d]))
  {
    hide Coherent, Marked, Step, Unlinks, Starts, EndsReturn, Renews, NewSeqid;
    StepPlace(s, e, d);
    StepTerms(s, e, d);
  }

  lemma StepBirth(s: State, e: Event, d: nat)
    requires Coherent(s) && Enabled(s, e) && d !in s.delegs
    ensures d in Step(s, e).delegs <==>
      (e.Granted? || e.Reclaimed?) && e.offer.d == d && (Publishes(s, e) || Discards(s, e))
    ensures d in Step(s, e).delegs ==> BornAs(s, e, Step(s, e).delegs[d])
  {
    hide Coherent, Step, Publishes, Discards;
    if e.Granted? || e.Reclaimed? {
      OfferBirth(s, e);
      if e.offer.d != d { OtherUnborn(s, e, d); }
    } else {
      StepMakes(s, e, d);
    }
  }

  lemma OtherUnborn(s: State, e: Event, d: nat)
    requires Coherent(s) && Enabled(s, e) && (e.Granted? || e.Reclaimed?) && d !in s.delegs && e.offer.d != d
    ensures d !in Step(s, e).delegs
  {
    hide Linkage, Refs, Publish, Duplicate, UpdateInPlace, Detach, SetFlags, SameLinks;
    var o := e.offer;
    OffersOnly(s, o, d);
    if o.inode in s.ptr {
      PointerKnown(s, o.inode);
      var p := s.ptr[o.inode];
      UpdateInPlaceShape(s, p, o.mode, o.stateid);
      RenewShape(s, o.inode, o.d, o.mode, o.stateid, o.delegTime);
      var t := if Revoked in s.delegs[p].flags then s else SetFlags(s, p, {Returning}, {});
      SetFlagsKeys(s, p, {Returning}, {});
      DetachKeys(t, p, true);
      OffersOnly(Detach(t, p, true), o, d);
    }
  }

  // Over every run a delegation exists exactly since it was offered and not for nothing, and stands
  // where, and on the terms that, the log says.
  lemma {:induction false} DelegationByLog(es: seq<Event>, d: nat)
    ensures d in Run(es).delegs <==> AccountByLog(es, d).Some?
    ensures d in Run(es).delegs ==> AccountByLog(es, d) == Some(AccountOf(Run(es).delegs[d]))
  {
    if es != [] {
      hide Coherent, Marked, Step, Enabled, Next, Publishes, Discards;
      var before := es[..|es|-1];
      var s, e := Run(before), es[|es|-1];
      DelegationByLog(before, d);
      RunCoherent(before);
      RunMarked(before);
      if Enabled(s, e) {
        if d in s.delegs { StepAccount(s, e, d); } else { StepBirth(s, e, d); }
      }
    }
  }
}
