/**
 Return marks.  With marks arriving at any time and one scanner, no mark is lost: outside a
 scan every listed delegation that is marked for return (and whose inode is not going
 away) has the server's DELEGRETURN bit set, although the scan restarts from a place holder
 instead of the head of the list.  Put-off returns are not forgotten either.
 */
module DelegationMarks {
  import opened Lists
  import opened Wrappers
  import opened Delegation
  import opened DelegationCoherence

  // A mark on d will be seen by the next scan.
  predicate Settled(s: State, d: nat) {
    d in s.delegs && Return in s.delegs[d].flags && InodeFreeing !in s.delegs[d].flags ==> s.returnBit
  }

  // A put-off return of d will be seen by the next clearing pass.
  predicate Noted(s: State, d: nat) {
    d in s.delegs && ReturnDelayed in s.delegs[d].flags ==> s.delayedBit
  }

  // A walk that starts at p misses nothing.
  ghost predicate PlaceOk(s: State, p: nat) {
    p in s.list ==> forall d :: d in s.list && d !in From(s.list, p) ==> Settled(s, d)
  }

  ghost predicate Suffix(q: seq<nat>, r: seq<nat>) {
    |r| <= |q| && q[|q| - |r|..] == r
  }

  ghost predicate HolderOk(s: State, holder: Option<(nat, nat)>) {
    holder.Some? ==> PlaceOk(s, holder.value.1)
  }

  ghost predicate ScanOk(s: State) {
    match s.scan
    case Walking(ahead, prev, holder, newer) =>
      && Suffix(s.list, ahead)
      && (forall d :: d in s.list && d !in ahead ==> Settled(s, d))
      && (forall d :: d in newer ==> Settled(s, d))
      && (prev.Some? ==> PlaceOk(s, prev.value))
      && HolderOk(s, holder)
    case Returns(_, holder, newer) =>
      (forall d :: d in newer ==> Settled(s, d)) && HolderOk(s, holder)
    case _ => forall d :: d in s.list ==> Settled(s, d)
  }

  ghost predicate ClearOk(s: State) {
    match s.scan
    case Clearing(ahead) => Suffix(s.list, ahead) && forall d :: d in s.list && d !in ahead ==> Noted(s, d)
    case _ => forall d :: d in s.list ==> Noted(s, d)
  }

  // ------------------------------------------------------------ list lemmas

  lemma {:induction false} FromSuffix(q: seq<nat>, d: nat)
    requires NoRepeats(q)
    ensures Suffix(q, From(q, d))
    ensures d in q ==> From(q, d) != [] && From(q, d)[0] == d
  {
    if q != [] && q[0] != d {
      assert forall a, b :: 0 <= a < b < |q[1..]| ==> q[1..][a] == q[a+1] && q[1..][b] == q[b+1];
      FromSuffix(q[1..], d);
      var r := From(q[1..], d);
      assert q[|q| - |r|..] == q[1..][|q[1..]| - |r|..];
    }
  }

  lemma {:induction false} FromHead(q: seq<nat>, r: seq<nat>)
    requires NoRepeats(q) && Suffix(q, r) && r != []
    ensures From(q, r[0]) == r
  {
    if |q| > |r| {
      assert q[0] != q[|q| - |r|] == r[0];
      assert forall a, b :: 0 <= a < b < |q[1..]| ==> q[1..][a] == q[a+1] && q[1..][b] == q[b+1];
      assert q[1..][|q[1..]| - |r|..] == q[|q| - |r|..];
      FromHead(q[1..], r);
    }
  }

  lemma WithoutSuffix(q: seq<nat>, r: seq<nat>, d: nat)
    requires Suffix(q, r)
    ensures Suffix(Without(q, d), Without(r, d))
  {
    var a := q[..|q| - |r|];
    assert q == a + r;
    WithoutConcat(a, r, d);
  }

  lemma {:induction false} WithoutFrom(q: seq<nat>, p: nat, d: nat)
    requires p != d && p in q
    ensures From(Without(q, d), p) == Without(From(q, p), d)
  {
    if q[0] != p {
      WithoutFrom(q[1..], p, d);
      if q[0] != d { assert Without(q, d)[1..] == Without(q[1..], d); }
    }
  }

  lemma {:induction false} FromAppend(q: seq<nat>, p: nat, d: nat)
    requires p in q
    ensures From(q + [d], p) == From(q, p) + [d]
  {
    if q[0] != p {
      assert (q + [d])[1..] == q[1..] + [d];
      FromAppend(q[1..], p, d);
    }
  }

  // ------------------------------------------------------------ quiet steps

  // No mark appears without its server bit, and no bit goes away.
  ghost predicate Quiet(s: State, t: State) {
    && (s.returnBit ==> t.returnBit) && (s.delayedBit ==> t.delayedBit)
    && s.delegs.Keys <= t.delegs.Keys
    && forall d :: d in s.delegs ==> QuietFor(s, s.delegs[d], t, t.delegs[d])
  }

  predicate QuietFor(s: State, x: Deleg, t: State, y: Deleg) {
    && (Return in y.flags ==> Return in x.flags || t.returnBit)
    && (InodeFreeing in x.flags ==> InodeFreeing in y.flags)
    && (ReturnDelayed in y.flags ==> ReturnDelayed in x.flags || t.delayedBit)
  }

  lemma QuietTrans(s: State, t: State, u: State)
    requires Quiet(s, t) && Quiet(t, u)
    ensures Quiet(s, u)
  {
  }

  lemma QuietSettled(s: State, t: State, d: nat)
    requires Quiet(s, t) && d in s.delegs
    ensures Settled(s, d) ==> Settled(t, d)
    ensures Noted(s, d) ==> Noted(t, d)
  {
    assert QuietFor(s, s.delegs[d], t, t.delegs[d]);
  }

  lemma QuietSame(s: State, t: State)
    requires Coherent(s) && ScanOk(s) && ClearOk(s) && Quiet(s, t) && t.list == s.list && t.scan == s.scan
    requires forall d :: d in NewerOf(s) ==> d in s.delegs
    ensures ScanOk(t) && ClearOk(t)
  {
    hide Coherent, Quiet, Settled, Noted;
    ListKnown(s);
    QuietKeeps(s, t);
  }

  function NewerOf(s: State): set<nat> {
    match s.scan
    case Walking(_, _, _, newer) => newer
    case Returns(_, _, newer) => newer
    case _ => {}
  }

  lemma PlaceRemoved(s: State, t: State, d: nat, p: nat)
    requires Coherent(s) && Quiet(s, t) && t.list == Without(s.list, d) && PlaceOk(s, p)
    ensures PlaceOk(t, p)
  {
    WithoutNoRepeats(s.list, d);
    if p in t.list {
      WithoutFrom(s.list, p, d);
      FromNoRepeats(s.list, p);
      WithoutNoRepeats(From(s.list, p), d);
      forall e | e in t.list && e !in From(t.list, p) ensures Settled(t, e) {
        QuietSettled(s, t, e);
      }
    }
  }

  lemma FromNoRepeats(q: seq<nat>, p: nat)
    requires NoRepeats(q)
    ensures NoRepeats(From(q, p))
  {
    FromSuffix(q, p);
    SuffixNoRepeats(q, From(q, p));
  }

  lemma SuffixNoRepeats(q: seq<nat>, r: seq<nat>)
    requires NoRepeats(q) && Suffix(q, r)
    ensures NoRepeats(r) && forall d :: d in r ==> d in q
  {
    assert forall m :: 0 <= m < |r| ==> r[m] == q[|q| - |r| + m];
  }

  lemma PlaceAppended(s: State, t: State, d: nat, p: nat)
    requires Coherent(s) && Quiet(s, t) && t.list == s.list + [d] && PlaceOk(s, p)
    requires Settled(t, d) && p != d
    ensures PlaceOk(t, p)
  {
    if p in t.list {
      FromAppend(s.list, p, d);
      forall e | e in t.list && e !in From(t.list, p) ensures Settled(t, e) {
        QuietSettled(s, t, e);
      }
    }
  }

  // Everything the scanner remembers exists.
  ghost predicate Known(s: State) {
    && (forall d :: d in NewerOf(s) ==> d in s.delegs)
    && (s.scan.Walking? && s.scan.prev.Some? ==> s.scan.prev.value in s.delegs)
    && ((s.scan.Walking? || s.scan.Returns?) && s.scan.holder.Some? ==> s.scan.holder.value.1 in s.delegs)
  }

  lemma QuietDetached(s: State, t: State, d: nat)
    requires Coherent(s) && Known(s) && ScanOk(s) && ClearOk(s) && Quiet(s, t)
    requires t.list == Without(s.list, d) && t.scan == WalkOff(s.scan, d)
    ensures ScanOk(t) && ClearOk(t)
  {
    hide Coherent, Quiet, Settled, Noted;
    ListKnown(s);
    WithoutNoRepeats(s.list, d);
    QuietKeeps(s, t);
    match s.scan
    case Walking(ahead, prev, holder, newer) =>
      WithoutSuffix(s.list, ahead, d);
      SuffixNoRepeats(s.list, ahead);
      WithoutNoRepeats(ahead, d);
      if prev.Some? { PlaceRemoved(s, t, d, prev.value); }
      if holder.Some? { PlaceRemoved(s, t, d, holder.value.1); }
    case Returns(_, holder, newer) =>
      if holder.Some? { PlaceRemoved(s, t, d, holder.value.1); }
    case Clearing(ahead) =>
      WithoutSuffix(s.list, ahead, d);
      SuffixNoRepeats(s.list, ahead);
      WithoutNoRepeats(ahead, d);
    case Idle =>
  }

  lemma ListKnown(s: State)
    requires Coherent(s)
    ensures NoRepeats(s.list) && forall d :: d in s.list ==> d in s.delegs
  {
  }

  lemma QuietKeeps(s: State, t: State)
    requires Quiet(s, t)
    ensures forall d :: d in s.delegs ==> (Settled(s, d) ==> Settled(t, d)) && (Noted(s, d) ==> Noted(t, d))
  {
    forall d | d in s.delegs ensures (Settled(s, d) ==> Settled(t, d)) && (Noted(s, d) ==> Noted(t, d)) {
      QuietSettled(s, t, d);
    }
  }

  lemma QuietPublished(s: State, t: State, d: nat)
    requires Coherent(s) && Known(s) && ScanOk(s) && ClearOk(s) && Quiet(s, t) && d !in s.delegs
    requires t.list == s.list + [d] && t.scan == WalkOn(s.scan, d) && Settled(t, d) && Noted(t, d)
    ensures ScanOk(t) && ClearOk(t)
  {
    hide Coherent, Quiet, Settled, Noted;
    ListKnown(s);
    QuietKeeps(s, t);
    match s.scan
    case Walking(ahead, prev, holder, newer) =>
      assert t.list[|t.list| - |ahead + [d]|..] == s.list[|s.list| - |ahead|..] + [d];
      if prev.Some? { PlaceAppended(s, t, d, prev.value); }
      if holder.Some? { PlaceAppended(s, t, d, holder.value.1); }
    case Returns(_, holder, newer) =>
      if holder.Some? { PlaceAppended(s, t, d, holder.value.1); }
    case Clearing(ahead) =>
      assert t.list[|t.list| - |ahead + [d]|..] == s.list[|s.list| - |ahead|..] + [d];
    case Idle =>
  }

  // -------------------------------------------- steps that leave the list alone

  ghost predicate QuietStep(s: State, t: State) {
    Quiet(s, t) && t.list == s.list && t.scan == s.scan
  }

  lemma QuietStepTrans(s: State, t: State, u: State)
    requires QuietStep(s, t) && QuietStep(t, u)
    ensures QuietStep(s, u)
  {
    QuietTrans(s, t, u);
  }

  lemma QuietSelf(s: State)
    ensures QuietStep(s, s)
  {
  }

  lemma MarkRevokedQuiet(s: State, d: nat)
    requires d in s.delegs
    ensures QuietStep(s, MarkRevoked(s, d)) && d in MarkRevoked(s, d).delegs
  {
    if Revoked in s.delegs[d].flags {
      QuietSelf(s);
    } else {
      PutQuiet(s, d, s.delegs[d].(flags := s.delegs[d].flags + {Revoked}, owed := false));
    }
  }

  lemma PutQuiet(s: State, d: nat, x: Deleg)
    requires d in s.delegs && QuietFor(s, s.delegs[d], s, x)
    ensures QuietStep(s, Put(s, d, x))
  {
  }

  lemma SetFlagsQuiet(s: State, d: nat, add: set<Flag>, drop: set<Flag>)
    requires d in s.delegs && Return !in add && ReturnDelayed !in add && InodeFreeing !in drop
    ensures QuietStep(s, SetFlags(s, d, add, drop))
  {
    PutQuiet(s, d, s.delegs[d].(flags := s.delegs[d].flags - drop + add));
  }

  lemma GrabFailedQuiet(s: State, d: nat)
    requires d in s.delegs
    ensures QuietStep(s, GrabFailed(s, d))
  {
    PutQuiet(s, d, s.delegs[d].(flags := s.delegs[d].flags + {InodeFreeing}, owed := false));
  }

  lemma UnrevokedQuiet(s: State, d: nat)
    requires d in s.delegs
    ensures QuietStep(s, Unrevoked(s, d))
  {
    SetFlagsQuiet(s, d, {}, {Revoked});
  }

  lemma UpdateInPlaceQuiet(s: State, d: nat, mode: Mode, sid: Stateid)
    requires d in s.delegs
    ensures QuietStep(s, UpdateInPlace(s, d, mode, sid))
  {
    var x := s.delegs[d].(stateid := s.delegs[d].stateid.(seqid := sid.seqid), mode := mode);
    PutQuiet(s, d, x);
    UnrevokedQuiet(Put(s, d, x), d);
    QuietStepTrans(s, Put(s, d, x), Unrevoked(Put(s, d, x), d));
  }

  lemma RefreshQuiet(s: State, o: nat, mode: Mode, sid: Stateid, dt: bool)
    requires o in s.delegs
    ensures var x := s.delegs[o].(stateid := sid, mode := mode,
        flags := s.delegs[o].flags - {NeedReclaim, DelegTime} + (if dt then {DelegTime} else {}));
      QuietStep(s, Unrevoked(Put(s, o, x), o))
  {
    var x := s.delegs[o].(stateid := sid, mode := mode,
      flags := s.delegs[o].flags - {NeedReclaim, DelegTime} + (if dt then {DelegTime} else {}));
    PutQuiet(s, o, x);
    UnrevokedQuiet(Put(s, o, x), o);
    QuietStepTrans(s, Put(s, o, x), Unrevoked(Put(s, o, x), o));
  }

  lemma ReseqRevokeQuiet(s: State, d: nat, seqid: Seqid)
    requires d in s.delegs
    ensures QuietStep(s, MarkRevoked(Reseq(s, d, seqid), d))
  {
    var t := Reseq(s, d, seqid);
    assert QuietStep(s, t);
    MarkRevokedQuiet(t, d);
    QuietStepTrans(s, t, MarkRevoked(t, d));
  }

  lemma SurrenderQuiet(s: State, d: nat, seqid: Seqid)
    requires d in s.delegs
    ensures QuietStep(s, Surrender(s, d, seqid))
  {
    ReseqRevokeQuiet(s, d, seqid);
    var r := MarkRevoked(Reseq(s, d, seqid), d);
    PutQuiet(r, d, r.delegs[d].(flags := r.delegs[d].flags - {Returning} + {}));
    QuietStepTrans(s, r, SetFlags(r, d, {}, {Returning}));
  }

  lemma RevokeQuiet(s: State, i: nat, sid: Option<Stateid>)
    ensures QuietStep(s, Revoke(s, i, sid))
  {
    if i in s.ptr && s.ptr[i] in s.delegs {
      MarkRevokedQuiet(s, s.ptr[i]);
      if sid.Some? { ReseqRevokeQuiet(s, s.ptr[i], sid.value.seqid); }
    }
  }

  lemma MarkReturnedQuiet(s: State, i: nat, sid: Stateid)
    ensures QuietStep(s, MarkReturned(s, i, sid))
  {
    if i in s.ptr && s.ptr[i] in s.delegs { SurrenderQuiet(s, s.ptr[i], sid.seqid); }
  }

  lemma DropBaseQuiet(s: State, d: nat)
    requires d in s.delegs && s.delegs[d].base.Dropping?
    ensures QuietStep(s, DropBase(s, d))
  {
    MarkRevokedQuiet(s, d);
    var t := if s.delegs[d].base.revoke then MarkRevoked(s, d) else s;
    PutQuiet(t, d, t.delegs[d].(refcount := t.delegs[d].refcount - 1, base := Dropped));
    QuietStepTrans(s, t, DropBase(s, d));
  }

  lemma BeginQuiet(s: State, d: nat, drop: set<Flag>)
    requires d in s.delegs && InodeFreeing !in drop
    ensures QuietStep(s, Begin(s, d, drop))
  {
  }

  lemma FinishQuiet(s: State, d: nat, result: Result)
    requires Returned(s, d)
    ensures QuietStep(s, Finish(s, d, result))
  {
  }

  lemma ReturnQuiet(s: State, r: Returner)
    requires CanReturn(s, r)
    ensures QuietStep(s, ReturnStep(s, r))
  {
    hide QuietStep;
    QuietSelf(s);
    match r
    case Starting(i) => if Startable(s, i).Some? { BeginQuiet(s, s.ptr[i], {ReturnDelayed}); }
    case SettingOnClose(i, _) =>
      if i in s.ptr && s.ptr[i] in s.delegs {
        BeginQuiet(s, s.ptr[i], {});
        SetFlagsQuiet(s, s.ptr[i], {ReturnIfClosed}, {});
      }
    case OnClose(i, _, _) => if i in s.ptr && s.ptr[i] in s.delegs { BeginQuiet(s, s.ptr[i], {ReturnIfClosed}); }
    case Finishing(d, result) => FinishQuiet(s, d, result);
  }

  lemma MarkReturnQuiet(s: State, d: nat)
    requires d in s.delegs
    ensures QuietStep(s, MarkReturn(s, d))
  {
  }

  lemma MarkIfClosedQuiet(s: State, d: nat, closed: bool)
    requires d in s.delegs
    ensures QuietStep(s, MarkIfClosed(s, d, closed))
  {
    hide QuietStep;
    QuietSelf(s);
    MarkReturnQuiet(s, d);
    SetFlagsQuiet(s, d, {ReturnIfClosed}, {});
  }

  lemma MarkQuiet(s: State, d: nat, m: Mark)
    requires d in s.delegs
    ensures QuietStep(s, ApplyMark(s, d, m))
  {
    hide QuietStep;
    match m
    case ToReturn => MarkReturnQuiet(s, d);
    case IfClosed(closed) => MarkIfClosedQuiet(s, d, closed);
    case Unreferenced(closed) =>
      SetFlagsQuiet(s, d, {}, {Referenced});
      MarkIfClosedQuiet(s, d, closed);
    case ToReclaim =>
      QuietSelf(s);
      SetFlagsQuiet(s, d, {NeedReclaim}, {});
    case ToTest => SetFlagsQuiet(s, d, {TestExpired}, {NeedReclaim});
    case Tested => SetFlagsQuiet(s, d, {}, {TestExpired});
    case Unreachable => GrabFailedQuiet(s, d);
  }

  // ----------------------------------------------------------- invariance

  ghost predicate Marked(s: State) { Known(s) && ScanOk(s) && ClearOk(s) }

  lemma QuietMarked(s: State, t: State)
    requires Coherent(s) && Marked(s) && QuietStep(s, t)
    ensures Marked(t)
  {
    QuietSame(s, t);
  }

  lemma DetachMarked(s: State, d: nat, revoke: bool)
    requires Coherent(s) && Marked(s) && d in s.delegs
    ensures Marked(Detach(s, d, revoke))
  {
    var t := Detach(s, d, revoke);
    if t != s {
      assert Quiet(s, t);
      QuietDetached(s, t, d);
    }
  }

  lemma PublishMarked(s: State, i: nat, d: nat, mode: Mode, sid: Stateid, dt: bool)
    requires Coherent(s) && Marked(s) && d !in s.delegs
    ensures Marked(Publish(s, i, d, mode, sid, dt))
  {
    var t := Publish(s, i, d, mode, sid, dt);
    assert Quiet(s, t);
    QuietPublished(s, t, d);
  }

  lemma DuplicateMarked(s: State, i: nat, d: nat, mode: Mode, sid: Stateid, dt: bool)
    requires Coherent(s) && Marked(s) && d !in s.delegs
    ensures Marked(Duplicate(s, i, d, mode, sid, dt))
  {
    var t := Duplicate(s, i, d, mode, sid, dt);
    assert QuietStep(s, t);
    QuietMarked(s, t);
  }

  lemma RepublishMarked(s: State, o: nat, i: nat, d: nat, mode: Mode, sid: Stateid, dt: bool)
    requires Coherent(s) && Marked(s) && d !in s.delegs && o in s.delegs
    ensures d !in Detach(s, o, true).delegs && Marked(Publish(Detach(s, o, true), i, d, mode, sid, dt))
  {
    hide Coherent, Marked, Publish;
    DetachMarked(s, o, true);
    DetachCoherent(s, o, true);
    PublishMarked(Detach(s, o, true), i, d, mode, sid, dt);
  }

  lemma ReplaceMarked(s: State, o: nat, i: nat, d: nat, mode: Mode, sid: Stateid, dt: bool)
    requires Coherent(s) && Marked(s) && d !in s.delegs && o in s.delegs
    ensures var t := if Revoked in s.delegs[o].flags then s else SetFlags(s, o, {Returning}, {});
      Marked(t) && d !in Detach(t, o, true).delegs && Marked(Publish(Detach(t, o, true), i, d, mode, sid, dt))
  {
    hide Coherent, Marked, Publish, QuietStep, SameShape;
    if Revoked in s.delegs[o].flags {
      RepublishMarked(s, o, i, d, mode, sid, dt);
    } else {
      var t := SetFlags(s, o, {Returning}, {});
      SetFlagsQuiet(s, o, {Returning}, {});
      QuietMarked(s, t);
      SetFlagsShape(s, o, {Returning}, {});
      SameShapeCoherent(s, t);
      RepublishMarked(t, o, i, d, mode, sid, dt);
    }
  }

  lemma GrantMarked(s: State, i: nat, d: nat, mode: Mode, sid: Stateid, dt: bool)
    requires Coherent(s) && Marked(s) && d !in s.delegs
    ensures Marked(Grant(s, i, d, mode, sid, dt))
  {
    hide Linkage, Refs, Marked;
    if i !in s.ptr {
      PublishMarked(s, i, d, mode, sid, dt);
    } else {
      PointerKnown(s, i);
      var o := s.ptr[i];
      var x := s.delegs[o];
      if x.stateid.other == sid.other {
        UpdateInPlaceQuiet(s, o, mode, sid);
        QuietMarked(s, UpdateInPlace(s, o, mode, sid));
      } else if Revoked !in x.flags && (mode == x.mode || !mode.write) {
        DuplicateMarked(s, i, d, mode, sid, dt);
      } else {
        ReplaceMarked(s, o, i, d, mode, sid, dt);
      }
    }
  }

  lemma ReclaimMarked(s: State, i: nat, d: nat, mode: Mode, sid: Stateid, dt: bool)
    requires Coherent(s) && Marked(s) && d !in s.delegs
    ensures Marked(Reclaim(s, i, d, mode, sid, dt))
  {
    hide Linkage, Refs, Marked;
    if i in s.ptr {
      PointerKnown(s, i);
      RefreshQuiet(s, s.ptr[i], mode, sid, dt);
      QuietMarked(s, Reclaim(s, i, d, mode, sid, dt));
    } else {
      GrantMarked(s, i, d, mode, sid, dt);
    }
  }

  lemma EvictMarked(s: State, i: nat)
    requires Coherent(s) && Marked(s)
    ensures Marked(Evict(s, i))
  {
    if i in s.ptr {
      var d := s.ptr[i];
      DetachMarked(s, d, true);
      DetachCoherent(s, d, true);
      if Detach(s, d, true) != s { FreeingMarked(Detach(s, d, true), d); }
    }
  }

  lemma FreeingMarked(s: State, d: nat)
    requires Coherent(s) && Marked(s) && d in s.delegs
    ensures Marked(SetFlags(s, d, {Returning, InodeFreeing}, {}))
  {
    hide Coherent, Marked, QuietStep;
    SetFlagsQuiet(s, d, {Returning, InodeFreeing}, {});
    QuietMarked(s, SetFlags(s, d, {Returning, InodeFreeing}, {}));
  }

  lemma RemoveMarked(s: State, r: Removal)
    requires Coherent(s) && Marked(s) && CanRemove(s, r)
    ensures Marked(RemoveStep(s, r))
  {
    hide Coherent, Marked, QuietStep;
    match r
    case Revoking(i, sid) => RevokeQuiet(s, i, sid); QuietMarked(s, Revoke(s, i, sid));
    case MarkingReturned(i, sid) => MarkReturnedQuiet(s, i, sid); QuietMarked(s, MarkReturned(s, i, sid));
    case DetachingReturned(d) => DetachReturnedMarked(s, d);
    case ReapDetaching(d) => DetachMarked(s, d, true);
    case DroppingBase(d) => DropBaseQuiet(s, d); QuietMarked(s, DropBase(s, d));
    case Evicting(i) => EvictMarked(s, i);
  }

  lemma DetachReturnedMarked(s: State, d: nat)
    requires Coherent(s) && Marked(s) && d in s.delegs && d in s.toDetach
    ensures Marked(DetachReturned(s, d))
  {
    hide Coherent, Marked;
    var t := s.(toDetach := s.toDetach - multiset{d});
    QuietMarked(s, t);
    SameShapeCoherent(s, t);
    DetachMarked(t, d, false);
  }

  // ---------------------------------------------------------- the scanner

  lemma ScanStartMarked(s: State)
    requires Coherent(s) && Marked(s) && s.scan.Idle?
    ensures Marked(ScanStart(s))
  {
  }

  // The walk moves past its next element, which is settled.
  lemma MoveOn(s: State, prev: bool)
    requires NoRepeats(s.list) && ScanOk(s) && s.scan.Walking? && s.scan.ahead != [] && Settled(s, s.scan.ahead[0])
    ensures var onward := s.scan.(ahead := s.scan.ahead[1..]);
      ScanOk(s.(scan := if prev then onward.(prev := Some(s.scan.ahead[0])) else onward))
  {
    hide From;
    var w := s.scan;
    var d := w.ahead[0];
    assert s.list[|s.list| - |w.ahead[1..]|..] == w.ahead[1..];
    assert forall e :: e in w.ahead <==> e == d || e in w.ahead[1..];
    FromHead(s.list, w.ahead);
  }

  // Visiting one element that is not returned: it is settled afterwards.
  lemma VisitOnMarked(s: State, t: State, prev: bool)
    requires Coherent(s) && Marked(s) && s.scan.Walking? && s.scan.ahead != []
    requires var d := s.scan.ahead[0]; Quiet(s, t) && d in s.delegs && t.list == s.list && Settled(t, d)
    requires t.delegs.Keys == s.delegs.Keys
    requires var onward := s.scan.(ahead := s.scan.ahead[1..]);
      t.scan == if prev then onward.(prev := Some(s.scan.ahead[0])) else onward
    ensures Marked(t)
  {
    hide Coherent;
    ListKnown(s);
    var u := t.(scan := s.scan);
    QuietSame(s, u);
    MoveOn(u, prev);
  }

  // The walk visits a delegation and does not take it.
  predicate PassesBy(x: Deleg, grab: bool) { InodeFreeing in x.flags || !NeedReturn(x) || !grab || x.inode.None? }

  ghost predicate Passed(s: State, t: State, prev: bool)
    requires s.scan.Walking? && s.scan.ahead != []
  {
    var onward := s.scan.(ahead := s.scan.ahead[1..]);
    && Quiet(s, t) && t.list == s.list && t.delegs.Keys == s.delegs.Keys && Settled(t, s.scan.ahead[0])
    && t.scan == if prev then onward.(prev := Some(s.scan.ahead[0])) else onward
  }

  // No inode to hold.
  lemma LettingGo(s: State, grab: bool, grabPrev: bool)
    requires CanScan(s, VisitNext(grab, grabPrev))
    requires var x := s.delegs[s.scan.ahead[0]]; InodeFreeing !in x.flags && NeedReturn(x) && (!grab || x.inode.None?)
    ensures Passed(s, Visit(s, grab, grabPrev), false)
  {
    var d := s.scan.ahead[0];
    var t := SetFlags(s, d, {}, {Return});
    SetFlagsQuiet(s, d, {}, {Return});
    GrabFailedQuiet(t, d);
    QuietTrans(s, t, GrabFailed(t, d));
  }

  lemma PassingBy(s: State, grab: bool, grabPrev: bool)
    requires CanScan(s, VisitNext(grab, grabPrev)) && PassesBy(s.delegs[s.scan.ahead[0]], grab)
    ensures var x := s.delegs[s.scan.ahead[0]];
      Passed(s, Visit(s, grab, grabPrev), InodeFreeing !in x.flags && !NeedReturn(x) && Valid(x))
  {
    hide QuietStep, StartReturn;
    var d := s.scan.ahead[0];
    var x := s.delegs[d];
    if InodeFreeing !in x.flags && NeedReturn(x) {
      hide Passed;
      LettingGo(s, grab, grabPrev);
    } else {
      SetFlagsQuiet(s, d, {}, {Return});
    }
  }

  lemma TakingMarked(s: State, grab: bool, grabPrev: bool)
    requires Coherent(s) && Marked(s) && CanScan(s, VisitNext(grab, grabPrev)) && !PassesBy(s.delegs[s.scan.ahead[0]], grab)
    ensures Marked(Visit(s, grab, grabPrev))
  {
    hide Coherent, Marked;
    var d := s.scan.ahead[0];
    var t := SetFlags(s, d, {}, {Return});
    SetFlagsQuiet(s, d, {}, {Return});
    QuietMarked(s, t);
    SetFlagsShape(s, d, {}, {Return});
    SameShapeCoherent(s, t);
    TakeMarked(t, s.delegs[d].inode.value, grabPrev);
  }

  lemma VisitMarked(s: State, grab: bool, grabPrev: bool)
    requires Coherent(s) && Marked(s) && CanScan(s, VisitNext(grab, grabPrev))
    ensures Marked(Visit(s, grab, grabPrev))
  {
    var x := s.delegs[s.scan.ahead[0]];
    if PassesBy(x, grab) {
      PassingBy(s, grab, grabPrev);
      VisitOnMarked(s, Visit(s, grab, grabPrev), InodeFreeing !in x.flags && !NeedReturn(x) && Valid(x));
    } else {
      TakingMarked(s, grab, grabPrev);
    }
  }

  // Starting a return keeps the place holder's promise.
  lemma TakeMarked(s: State, inode: nat, grabPrev: bool)
    requires Coherent(s) && Marked(s) && s.scan.Walking?
    ensures Marked(Take(s, inode, grabPrev))
  {
    var u := GrabPrev(s, s.scan.prev, grabPrev);
    GrabPrevQuiet(s, s.scan.prev, grabPrev);
    QuietMarked(s, u);
    SameShapeCoherent(s, u);
    StartMarked(u, inode);
    LeaveWalk(StartReturn(u, inode), Startable(u, inode), Holder(s, s.scan, grabPrev));
  }

  lemma GrabPrevQuiet(s: State, prev: Option<nat>, grabPrev: bool)
    ensures QuietStep(s, GrabPrev(s, prev, grabPrev)) && SameShape(s, GrabPrev(s, prev, grabPrev))
  {
    hide QuietStep;
    QuietSelf(s);
    if prev.Some? && prev.value in s.delegs {
      GrabFailedQuiet(s, prev.value);
      GrabFailedShape(s, prev.value);
    }
  }

  lemma StartMarked(s: State, inode: nat)
    requires Coherent(s) && Marked(s)
    ensures Marked(StartReturn(s, inode)) && StartReturn(s, inode).scan == s.scan
  {
    if Startable(s, inode).Some? { BeginQuiet(s, s.ptr[inode], {ReturnDelayed}); }
    QuietMarked(s, StartReturn(s, inode));
  }

  lemma LeaveWalk(s: State, deleg: Option<nat>, holder: Option<(nat, nat)>)
    requires Marked(s) && s.scan.Walking?
    requires holder == s.scan.holder || (holder.Some? && s.scan.prev == Some(holder.value.1))
    ensures Marked(s.(scan := Returns(deleg, holder, s.scan.newer)))
  {
    var t := s.(scan := Returns(deleg, holder, s.scan.newer));
    assert forall d :: Settled(t, d) == Settled(s, d) && Noted(t, d) == Noted(s, d);
    if holder.Some? { assert PlaceOk(s, holder.value.1); }
  }

  lemma StopMarked(s: State)
    requires Known(s) && ClearOk(s) && !s.scan.Clearing?
    ensures Marked(s.(returnBit := true, scan := Idle))
  {
  }

  lemma ResumeMarked(s: State, result: Result)
    requires Coherent(s) && Marked(s) && CanScan(s, Resume(result))
    ensures Marked(ScanResume(s, result))
  {
    hide Coherent, Known, ScanOk, ClearOk;
    if s.scan.deleg.Some? {
      var t := Finish(s, s.scan.deleg.value, result);
      FinishQuiet(s, s.scan.deleg.value, result);
      QuietMarked(s, t);
      FinishCoherent(s, s.scan.deleg.value, result);
      if result.Done? { RestartMarked(t); } else { StopMarked(t); }
    } else {
      RestartMarked(s);
    }
  }

  // Restarting from the place holder misses nothing a restart from the head would find.
  lemma RestartMarked(t: State)
    requires Coherent(t) && Marked(t) && t.scan.Returns?
    ensures var w := t.scan;
      var ahead :=
        if w.holder.Some? && w.holder.value.0 in t.ptr && t.ptr[w.holder.value.0] == w.holder.value.1
        then From(t.list, w.holder.value.1) else t.list;
      Marked(t.(scan := Walking(ahead, None, w.holder, w.newer)))
  {
    var w := t.scan;
    if w.holder.Some? && w.holder.value.0 in t.ptr && t.ptr[w.holder.value.0] == w.holder.value.1 {
      FromSuffix(t.list, w.holder.value.1);
      WalkFrom(t, From(t.list, w.holder.value.1));
    } else {
      WalkFrom(t, t.list);
    }
  }

  lemma WalkFrom(t: State, ahead: seq<nat>)
    requires Marked(t) && t.scan.Returns? && Suffix(t.list, ahead)
    requires forall d :: d in t.list && d !in ahead ==> Settled(t, d)
    ensures Marked(t.(scan := Walking(ahead, None, t.scan.holder, t.scan.newer)))
  {
    var u := t.(scan := Walking(ahead, None, t.scan.holder, t.scan.newer));
    assert forall d :: Settled(u, d) == Settled(t, d) && Noted(u, d) == Noted(t, d);
    if t.scan.holder.Some? { assert PlaceOk(t, t.scan.holder.value.1); }
  }

  lemma ClearStartMarked(s: State)
    requires Coherent(s) && Marked(s) && s.scan.Idle?
    ensures Marked(ClearStart(s))
  {
  }

  lemma ClearVisitQuiet(s: State)
    requires CanScan(s, ClearNext)
    ensures Quiet(s, ClearVisit(s)) && Noted(ClearVisit(s), s.scan.ahead[0])
    ensures ClearVisit(s).delegs.Keys == s.delegs.Keys
    ensures ClearVisit(s).list == s.list && ClearVisit(s).scan == Clearing(s.scan.ahead[1..])
  {
  }

  lemma ClearVisitMarked(s: State)
    requires Coherent(s) && Marked(s) && CanScan(s, ClearNext)
    ensures Marked(ClearVisit(s))
  {
    ClearVisitQuiet(s);
    ClearOnMarked(s, ClearVisit(s));
  }

  lemma ClearOnMarked(s: State, t: State)
    requires Coherent(s) && Marked(s) && s.scan.Clearing? && s.scan.ahead != []
    requires Quiet(s, t) && Noted(t, s.scan.ahead[0]) && t.delegs.Keys == s.delegs.Keys
    requires t.list == s.list && t.scan == Clearing(s.scan.ahead[1..])
    ensures Marked(t)
  {
    hide Coherent;
    ListKnown(s);
    var d, rest := s.scan.ahead[0], s.scan.ahead[1..];
    assert t.list[|t.list| - |rest|..] == rest;
    assert forall e :: e in s.scan.ahead <==> e == d || e in rest;
    QuietKeeps(s, t);
  }

  lemma ScanMarked(s: State, c: Scanner)
    requires Coherent(s) && Marked(s) && CanScan(s, c)
    ensures Marked(ScanStep(s, c))
  {
    match c
    case BeginScan => ScanStartMarked(s);
    case VisitNext(grab, grabPrev) => VisitMarked(s, grab, grabPrev);
    case Resume(result) => ResumeMarked(s, result);
    case EndScan =>
    case BeginClear => ClearStartMarked(s);
    case ClearNext => ClearVisitMarked(s);
    case EndClear =>
  }

  lemma StepMarked(s: State, e: Event)
    requires Coherent(s) && Marked(s) && Enabled(s, e)
    ensures Marked(Step(s, e))
  {
    hide Coherent, Marked;
    match e
    case Granted(o) => GrantMarked(s, o.inode, o.d, o.mode, o.stateid, o.delegTime);
    case Reclaimed(o) => ReclaimMarked(s, o.inode, o.d, o.mode, o.stateid, o.delegTime);
    case Removes(r) => RemoveMarked(s, r);
    case Returner(r) => ReturnQuiet(s, r); QuietMarked(s, ReturnStep(s, r));
    case Marks(d, m) => MarkQuiet(s, d, m); QuietMarked(s, ApplyMark(s, d, m));
    case Verifies(i, alias, current) => QuietMarked(s, SetVerifier(s, i, alias, current));
    case DropsAlias(i, alias) => QuietMarked(s, Step(s, e));
    case Scans(c) => ScanMarked(s, c);
  }

  lemma {:induction false} RunMarked(es: seq<Event>)
    ensures Marked(Run(es))
  {
    if es != [] {
      var s := Run(es[..|es|-1]);
      RunMarked(es[..|es|-1]);
      RunCoherent(es[..|es|-1]);
      if Enabled(s, es[|es|-1]) { StepMarked(s, es[|es|-1]); }
    }
  }

  // No lost mark: whenever no scan is running, a listed delegation that is marked for return and
  // whose inode is not going away has the server bit set, so the next scan looks for it.
  lemma NoLostMark(es: seq<Event>, d: nat)
    requires Run(es).scan.Idle? && d in Run(es).list
    ensures Settled(Run(es), d) && Noted(Run(es), d)
  {
    RunMarked(es);
  }

  // While a return is running, everything outside the part of the list that a restart from the
  // place holder would walk is already taken care of.
  lemma PlaceHolderMissesNothing(es: seq<Event>, inode: nat, p: nat, d: nat)
    requires Run(es).scan.Returns? && Run(es).scan.holder == Some((inode, p)) && p in Run(es).list
    requires d in Run(es).list && d !in From(Run(es).list, p)
    ensures Settled(Run(es), d)
  {
    RunMarked(es);
    assert PlaceOk(Run(es), p);
  }
}
