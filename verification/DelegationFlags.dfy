/**
 The flag word of a delegation, flag by flag: which events raise a flag and which lower it.  Over
 every run a flag is set exactly when the last event that had a say in it raised it.
 */
module DelegationFlags {
  import opened Wrappers
  import opened Delegation
  import opened DelegationCoherence
  import opened DelegationMarks

  predicate IsFor(s: State, i: nat, d: nat) { i in s.ptr && s.ptr[i] == d }

  // A delegation for the inode that can be given back now: usable and not detached.
  predicate Idling(s: State, i: nat, d: nat) {
    IsFor(s, i, d) && d in s.delegs && Valid(s.delegs[d]) && s.delegs[d].inode.Some?
  }

  // Not marked yet in any way, and still attached.
  predicate Markable(x: Deleg) { Return !in x.flags && ReturnIfClosed !in x.flags && x.inode.Some? }

  // The walk of the scanner is at d.
  predicate VisitedBy(s: State, e: Event, d: nat) {
    e.Scans? && e.scanner.VisitNext? && s.scan.Walking? && s.scan.ahead != [] && s.scan.ahead[0] == d
  }

  // Marked, and nothing in the way of returning it now.
  predicate DueAt(s: State, d: nat) {
    && d in s.delegs && Return in s.delegs[d].flags && Returning !in s.delegs[d].flags
    && ReturnDelayed !in s.delegs[d].flags && Revoked !in s.delegs[d].flags && InodeFreeing !in s.delegs[d].flags
  }

  // The walk finds a delegation that is due and gets hold of its inode.
  predicate Taking(s: State, e: Event) {
    && e.Scans? && e.scanner.VisitNext? && e.scanner.grab && s.scan.Walking? && s.scan.ahead != []
    && DueAt(s, s.scan.ahead[0]) && s.delegs[s.scan.ahead[0]].inode.Some?
  }

  // A return of d starts with this step, asked for or by the scanner.
  predicate Starts(s: State, e: Event, d: nat) {
    match e
    case Returner(Starting(i)) => IsFor(s, i, d) && d in s.delegs && s.delegs[d].inode.Some? && Returning !in s.delegs[d].flags
    case Scans(VisitNext(_, _)) => VisitedBy(s, e, d) && Taking(s, e)
    case _ => StartsOnClose(s, e, d)
  }

  predicate StartsOnClose(s: State, e: Event, d: nat) {
    match e
    case Returner(SettingOnClose(i, closed)) => closed && Idling(s, i, d)
    case Returner(OnClose(i, closed, watermark)) =>
      closed && Idling(s, i, d) && (ReturnIfClosed in s.delegs[d].flags || s.active >= watermark)
    case _ => false
  }

  // A return of d is given up.
  predicate Aborts(s: State, e: Event, d: nat, again: bool) {
    || e == Returner(Finishing(d, Aborted(again)))
    || (e == Scans(Resume(Aborted(again))) && s.scan.Returns? && s.scan.deleg == Some(d))
  }

  // The server's stateid is not older than d's.
  predicate NotOlder(x: Deleg, sid: Stateid) {
    sid.other == x.stateid.other && (sid.seqid == 0 || !IsNewer(x.stateid, sid))
  }

  // Newer means that the difference of the seqids, read as a signed 32-bit number, is positive.
  lemma NewerIsSigned(a: Stateid, b: Stateid, n: int, q: int)
    requires a.seqid - b.seqid == n + q * 0x1_0000_0000 && -0x8000_0000 <= n < 0x8000_0000
    ensures IsNewer(a, b) <==> n > 0
  {
    assert (a.seqid - b.seqid) % 0x1_0000_0000 == n % 0x1_0000_0000;
  }

  // d is revoked.
  predicate Revokes(s: State, e: Event, d: nat)
    requires d in s.delegs
  {
    match e
    case Removes(Revoking(i, sid)) => IsFor(s, i, d) && (sid.None? || NotOlder(s.delegs[d], sid.value))
    case Removes(MarkingReturned(i, sid)) => IsFor(s, i, d) && NotOlder(s.delegs[d], sid)
    case Removes(DroppingBase(c)) => c == d && s.delegs[d].base == Dropping(true)
    case _ => false
  }

  // The server offers another delegation for the inode, which replaces d.
  predicate Replaces(s: State, e: Event, d: nat)
    requires d in s.delegs
  {
    && e.Granted? && IsFor(s, e.offer.inode, d) && s.delegs[d].stateid.other != e.offer.stateid.other
    && (Revoked in s.delegs[d].flags
        || (Returning !in s.delegs[d].flags && e.offer.mode.write && e.offer.mode != s.delegs[d].mode))
  }

  // The server confirms d with a newer stateid, or gives it back after a reboot.
  predicate Renews(s: State, e: Event, d: nat)
    requires d in s.delegs
  {
    match e
    case Granted(o) =>
      IsFor(s, o.inode, d) && o.stateid.other == s.delegs[d].stateid.other && IsNewer(o.stateid, s.delegs[d].stateid)
    case Reclaimed(o) => IsFor(s, o.inode, d)
    case _ => false
  }

  // The inode of d turns out to be going away.
  predicate InodeLost(s: State, e: Event, d: nat)
    requires d in s.delegs
  {
    match e
    case Marks(c, Unreachable) => c == d
    case Removes(Evicting(i)) => IsFor(s, i, d)
    case Scans(VisitNext(grab, grabPrev)) =>
      || (VisitedBy(s, e, d) && DueAt(s, d) && !(grab && s.delegs[d].inode.Some?))
      || (Taking(s, e) && s.scan.prev == Some(d) && !(grabPrev && s.delegs[d].inode.Some?))
    case _ => false
  }

  predicate Raises(s: State, e: Event, d: nat, f: Flag)
    requires d in s.delegs
  {
    var x := s.delegs[d];
    match f
    case Return =>
      || e == Marks(d, ToReturn)
      || (e == Marks(d, IfClosed(true)) && Markable(x))
      || (e == Marks(d, Unreferenced(true)) && Referenced !in x.flags && Markable(x))
      || PassesOn(s, e, d)
    case ReturnIfClosed =>
      || (e == Marks(d, IfClosed(false)) && Markable(x))
      || (e == Marks(d, Unreferenced(false)) && Referenced !in x.flags && Markable(x))
      || (e.Returner? && e.returner.SettingOnClose? && !e.returner.closed && Idling(s, e.returner.inode, d))
    case Referenced => e.Verifies? && e.current && IsFor(s, e.inode, d) && ValidFor(x, Mode(true, false))
    case Returning =>
      || Starts(s, e, d) || (Replaces(s, e, d) && Revoked !in x.flags)
      || (e.Removes? && e.removal.Evicting? && InodeLost(s, e, d))
    case Revoked => Revokes(s, e, d)
    case NeedReclaim => e == Marks(d, ToReclaim) && TestExpired !in x.flags
    case TestExpired => e == Marks(d, ToTest)
    case InodeFreeing => InodeLost(s, e, d)
    case ReturnDelayed => Aborts(s, e, d, true)
    case DelegTime => e.Reclaimed? && e.offer.delegTime && Renews(s, e, d)
  }

  // The clearing pass turns a put-off return into a marked one.
  predicate PassesOn(s: State, e: Event, d: nat)
    requires d in s.delegs
  {
    e == Scans(ClearNext) && s.scan.Clearing? && s.scan.ahead != [] && s.scan.ahead[0] == d && ReturnDelayed in s.delegs[d].flags
  }

  predicate Lowers(s: State, e: Event, d: nat, f: Flag)
    requires d in s.delegs
  {
    match f
    case Return => VisitedBy(s, e, d) && InodeFreeing !in s.delegs[d].flags
    case ReturnIfClosed => e.Returner? && e.returner.OnClose? && Starts(s, e, d)
    case Referenced => e.Marks? && e.d == d && e.mark.Unreferenced?
    case Returning =>
      || Aborts(s, e, d, true) || Aborts(s, e, d, false)
      || (e.Removes? && e.removal.MarkingReturned? && IsFor(s, e.removal.inode, d)
          && e.removal.stateid.other == s.delegs[d].stateid.other)
    case Revoked => Renews(s, e, d)
    case NeedReclaim => e == Marks(d, ToTest) || (e.Reclaimed? && Renews(s, e, d))
    case TestExpired => e == Marks(d, Tested)
    case InodeFreeing => false
    case ReturnDelayed => (Starts(s, e, d) && !StartsOnClose(s, e, d)) || PassesOn(s, e, d)
    case DelegTime => e.Reclaimed? && !e.offer.delegTime && Renews(s, e, d)
  }

  // The flag after the step is what the event says, or what it was.
  predicate Law(s: State, e: Event, t: State, d: nat, f: Flag)
    requires d in s.delegs
  {
    d in t.delegs && (f in t.delegs[d].flags <==> Raises(s, e, d, f) || (f in s.delegs[d].flags && !Lowers(s, e, d, f)))
  }

  // ------------------------------------------------ step by step

  lemma SetFlagsGives(s: State, c: nat, add: set<Flag>, drop: set<Flag>, d: nat, f: Flag)
    requires c in s.delegs && d in s.delegs
    ensures var t := SetFlags(s, c, add, drop);
      && c in t.delegs && d in t.delegs
      && (f in t.delegs[d].flags <==> if c == d then f in add || (f in s.delegs[d].flags && f !in drop) else f in s.delegs[d].flags)
  {
  }

  lemma GrabFailedGives(s: State, c: nat, d: nat, f: Flag)
    requires c in s.delegs && d in s.delegs
    ensures d in GrabFailed(s, c).delegs
    ensures f in GrabFailed(s, c).delegs[d].flags <==> f in s.delegs[d].flags || (c == d && f == InodeFreeing)
  {
  }

  lemma BeginGives(s: State, c: nat, drop: set<Flag>, d: nat, f: Flag)
    requires c in s.delegs && d in s.delegs
    ensures d in Begin(s, c, drop).delegs
    ensures f in Begin(s, c, drop).delegs[d].flags
       <==> if c == d then f == Returning || (f in s.delegs[d].flags && f !in drop) else f in s.delegs[d].flags
  {
  }

  // Nothing changes for d, and the event has no say in its flags.
  predicate Silent(s: State, e: Event, d: nat)
    requires d in s.delegs
  {
    && !Starts(s, e, d) && !StartsOnClose(s, e, d) && !Revokes(s, e, d) && !Replaces(s, e, d) && !Renews(s, e, d)
    && !InodeLost(s, e, d) && !Aborts(s, e, d, true) && !Aborts(s, e, d, false) && !PassesOn(s, e, d) && !VisitedBy(s, e, d)
  }

  lemma MarkIsNoOther(s: State, c: nat, m: Mark, d: nat)
    requires d in s.delegs && (m != Unreachable || c != d)
    ensures Silent(s, Marks(c, m), d)
  {
  }

  lemma UnreachableIsNoOther(s: State, d: nat)
    requires d in s.delegs
    ensures var e := Marks(d, Unreachable);
      && !Starts(s, e, d) && !StartsOnClose(s, e, d) && !Revokes(s, e, d) && !Replaces(s, e, d) && !Renews(s, e, d)
      && InodeLost(s, e, d) && !Aborts(s, e, d, true) && !Aborts(s, e, d, false) && !PassesOn(s, e, d) && !VisitedBy(s, e, d)
  {
  }

  lemma IfClosedGives(s: State, c: nat, closed: bool, d: nat, f: Flag)
    requires c in s.delegs && d in s.delegs
    ensures var t := MarkIfClosed(s, c, closed);
      && d in t.delegs
      && (f in t.delegs[d].flags
          <==> (f in s.delegs[d].flags || (c == d && Markable(s.delegs[d]) && f == if closed then Return else ReturnIfClosed)))
  {
    hide SetFlags;
    SetFlagsGives(s, c, {Return}, {}, d, f);
    SetFlagsGives(s, c, {ReturnIfClosed}, {}, d, f);
  }

  lemma ToReturnLaw(s: State, d: nat, f: Flag)
    requires d in s.delegs
    ensures Law(s, Marks(d, ToReturn), ApplyMark(s, d, ToReturn), d, f)
  {
    hide Starts, StartsOnClose, Revokes, Replaces, Renews, InodeLost, Aborts, PassesOn, VisitedBy, SetFlags, MarkIfClosed, Markable;
    MarkIsNoOther(s, d, ToReturn, d);
    SetFlagsGives(s, d, {Return}, {}, d, f);
  }

  lemma IfClosedLaw(s: State, closed: bool, d: nat, f: Flag)
    requires d in s.delegs
    ensures Law(s, Marks(d, IfClosed(closed)), ApplyMark(s, d, IfClosed(closed)), d, f)
  {
    hide Starts, StartsOnClose, Revokes, Replaces, Renews, InodeLost, Aborts, PassesOn, VisitedBy, SetFlags, MarkIfClosed, Markable;
    MarkIsNoOther(s, d, IfClosed(closed), d);
    IfClosedGives(s, d, closed, d, f);
  }

  lemma UnreferencedLaw(s: State, closed: bool, d: nat, f: Flag)
    requires d in s.delegs
    ensures Law(s, Marks(d, Unreferenced(closed)), ApplyMark(s, d, Unreferenced(closed)), d, f)
  {
    hide Starts, StartsOnClose, Revokes, Replaces, Renews, InodeLost, Aborts, PassesOn, VisitedBy, SetFlags, MarkIfClosed, Markable;
    MarkIsNoOther(s, d, Unreferenced(closed), d);
    SetFlagsGives(s, d, {}, {Referenced}, d, f);
    IfClosedGives(s, d, closed, d, f);
  }

  lemma ToReclaimLaw(s: State, d: nat, f: Flag)
    requires d in s.delegs
    ensures Law(s, Marks(d, ToReclaim), ApplyMark(s, d, ToReclaim), d, f)
  {
    hide Starts, StartsOnClose, Revokes, Replaces, Renews, InodeLost, Aborts, PassesOn, VisitedBy, SetFlags, MarkIfClosed, Markable;
    MarkIsNoOther(s, d, ToReclaim, d);
    SetFlagsGives(s, d, {NeedReclaim}, {}, d, f);
  }

  lemma ToTestLaw(s: State, d: nat, f: Flag)
    requires d in s.delegs
    ensures Law(s, Marks(d, ToTest), ApplyMark(s, d, ToTest), d, f)
  {
    hide Starts, StartsOnClose, Revokes, Replaces, Renews, InodeLost, Aborts, PassesOn, VisitedBy, SetFlags, MarkIfClosed, Markable;
    MarkIsNoOther(s, d, ToTest, d);
    SetFlagsGives(s, d, {TestExpired}, {NeedReclaim}, d, f);
  }

  lemma TestedLaw(s: State, d: nat, f: Flag)
    requires d in s.delegs
    ensures Law(s, Marks(d, Tested), ApplyMark(s, d, Tested), d, f)
  {
    hide Starts, StartsOnClose, Revokes, Replaces, Renews, InodeLost, Aborts, PassesOn, VisitedBy, SetFlags, MarkIfClosed, Markable;
    MarkIsNoOther(s, d, Tested, d);
    SetFlagsGives(s, d, {}, {TestExpired}, d, f);
  }

  lemma UnreachableLaw(s: State, d: nat, f: Flag)
    requires d in s.delegs
    ensures Law(s, Marks(d, Unreachable), ApplyMark(s, d, Unreachable), d, f)
  {
    hide Starts, StartsOnClose, Revokes, Replaces, Renews, InodeLost, Aborts, PassesOn, VisitedBy, GrabFailed;
    UnreachableIsNoOther(s, d);
    GrabFailedGives(s, d, d, f);
  }

  // The event has no say in any flag of d.
  predicate NoSay(s: State, e: Event, d: nat)
    requires d in s.delegs
  {
    && Silent(s, e, d) && !(e.Marks? && e.d == d)
    && !(e.Verifies? && IsFor(s, e.inode, d) && e.current && ValidFor(s.delegs[d], Mode(true, false)))
    && !(e.Returner? && e.returner.SettingOnClose? && Idling(s, e.returner.inode, d))
    && !(e.Removes? && e.removal.MarkingReturned? && IsFor(s, e.removal.inode, d)
         && e.removal.stateid.other == s.delegs[d].stateid.other)
  }

  lemma NoSayLaw(s: State, e: Event, t: State, d: nat, f: Flag)
    requires d in s.delegs && NoSay(s, e, d) && d in t.delegs && t.delegs[d].flags == s.delegs[d].flags
    ensures Law(s, e, t, d, f)
  {
    hide Starts, StartsOnClose, Revokes, Replaces, Renews, InodeLost, Aborts, PassesOn, VisitedBy, Idling;
  }

  // The laws of one step that concern d in no other way than the given one.
  predicate Otherwise(s: State, e: Event, d: nat)
    requires d in s.delegs
  {
    && !Revokes(s, e, d) && !Replaces(s, e, d) && !Renews(s, e, d) && !InodeLost(s, e, d)
    && !Aborts(s, e, d, true) && !Aborts(s, e, d, false) && !PassesOn(s, e, d) && !VisitedBy(s, e, d)
  }

  lemma SetFlagsLeaves(s: State, c: nat, add: set<Flag>, drop: set<Flag>, d: nat)
    requires c in s.delegs && d in s.delegs && c != d
    ensures d in SetFlags(s, c, add, drop).delegs && SetFlags(s, c, add, drop).delegs[d] == s.delegs[d]
  {
  }

  lemma MarkLeaves(s: State, c: nat, m: Mark, d: nat)
    requires c in s.delegs && d in s.delegs && c != d
    ensures d in ApplyMark(s, c, m).delegs && ApplyMark(s, c, m).delegs[d] == s.delegs[d]
  {
    hide SetFlags;
    SetFlagsLeaves(s, c, {Return}, {}, d);
    SetFlagsLeaves(s, c, {ReturnIfClosed}, {}, d);
    match m
    case Unreferenced(_) => SetFlagsLeaves(s, c, {}, {Referenced}, d);
    case ToReclaim => SetFlagsLeaves(s, c, {NeedReclaim}, {}, d);
    case ToTest => SetFlagsLeaves(s, c, {TestExpired}, {NeedReclaim}, d);
    case Tested => SetFlagsLeaves(s, c, {}, {TestExpired}, d);
    case _ =>
  }

  lemma MarkLaw(s: State, c: nat, m: Mark, d: nat, f: Flag)
    requires c in s.delegs && d in s.delegs
    ensures Law(s, Marks(c, m), ApplyMark(s, c, m), d, f)
  {
    hide Law, ApplyMark, Silent;
    if c != d {
      MarkIsNoOther(s, c, m, d);
      MarkLeaves(s, c, m, d);
      NoSayLaw(s, Marks(c, m), ApplyMark(s, c, m), d, f);
    } else {
      match m
      case ToReturn => ToReturnLaw(s, d, f);
      case IfClosed(closed) => IfClosedLaw(s, closed, d, f);
      case Unreferenced(closed) => UnreferencedLaw(s, closed, d, f);
      case ToReclaim => ToReclaimLaw(s, d, f);
      case ToTest => ToTestLaw(s, d, f);
      case Tested => TestedLaw(s, d, f);
      case Unreachable => UnreachableLaw(s, d, f);
    }
  }

  // ------------------------------------------------ returners

  lemma ReturnerIsNoOther(s: State, r: Returner, d: nat)
    requires d in s.delegs && !r.Finishing?
    ensures Otherwise(s, Returner(r), d)
  {
  }

  lemma StartingLaw(s: State, i: nat, d: nat, f: Flag)
    requires d in s.delegs
    ensures Law(s, Returner(Starting(i)), StartReturn(s, i), d, f)
  {
    hide Revokes, Replaces, Renews, InodeLost, Aborts, PassesOn, VisitedBy, Begin, Idling;
    ReturnerIsNoOther(s, Starting(i), d);
    if i in s.ptr && s.ptr[i] in s.delegs { BeginGives(s, s.ptr[i], {ReturnDelayed}, d, f); }
  }

  lemma OwnSettingOnCloseLaw(s: State, i: nat, closed: bool, d: nat, f: Flag)
    requires d in s.delegs && Idling(s, i, d)
    ensures Law(s, Returner(SettingOnClose(i, closed)), SetReturnOnClose(s, i, closed), d, f)
  {
    hide Revokes, Replaces, Renews, InodeLost, Aborts, PassesOn, VisitedBy, Begin, SetFlags;
    ReturnerIsNoOther(s, SettingOnClose(i, closed), d);
    BeginGives(s, d, {}, d, f);
    SetFlagsGives(s, d, {ReturnIfClosed}, {}, d, f);
  }

  lemma SettingOnCloseLeaves(s: State, i: nat, closed: bool, d: nat)
    requires d in s.delegs && !Idling(s, i, d)
    ensures d in SetReturnOnClose(s, i, closed).delegs && SetReturnOnClose(s, i, closed).delegs[d].flags == s.delegs[d].flags
    ensures NoSay(s, Returner(SettingOnClose(i, closed)), d)
  {
  }

  lemma SettingOnCloseLaw(s: State, i: nat, closed: bool, d: nat, f: Flag)
    requires d in s.delegs
    ensures Law(s, Returner(SettingOnClose(i, closed)), SetReturnOnClose(s, i, closed), d, f)
  {
    hide Law, NoSay, SetReturnOnClose;
    if Idling(s, i, d) {
      OwnSettingOnCloseLaw(s, i, closed, d, f);
    } else {
      SettingOnCloseLeaves(s, i, closed, d);
      NoSayLaw(s, Returner(SettingOnClose(i, closed)), SetReturnOnClose(s, i, closed), d, f);
    }
  }

  lemma OnCloseLaw(s: State, i: nat, closed: bool, watermark: nat, d: nat, f: Flag)
    requires d in s.delegs
    ensures Law(s, Returner(OnClose(i, closed, watermark)), ReturnOnClose(s, i, closed, watermark), d, f)
  {
    hide Revokes, Replaces, Renews, InodeLost, Aborts, PassesOn, VisitedBy, Begin;
    ReturnerIsNoOther(s, OnClose(i, closed, watermark), d);
    if i in s.ptr && s.ptr[i] in s.delegs { BeginGives(s, s.ptr[i], {ReturnIfClosed}, d, f); }
  }

  lemma FinishGives(s: State, c: nat, result: Result, d: nat, f: Flag)
    requires Returned(s, c) && d in s.delegs
    ensures d in Finish(s, c, result).delegs
    ensures f in Finish(s, c, result).delegs[d].flags <==>
      if c == d && result.Aborted? && f == Returning then false
      else f in s.delegs[d].flags || (c == d && result == Aborted(true) && f == ReturnDelayed)
  {
  }

  // Ending a return has no other say than through its outcome.
  predicate Ending(s: State, e: Event, d: nat)
    requires d in s.delegs
  {
    && !Starts(s, e, d) && !StartsOnClose(s, e, d) && !Revokes(s, e, d) && !Replaces(s, e, d) && !Renews(s, e, d)
    && !InodeLost(s, e, d) && !PassesOn(s, e, d) && !VisitedBy(s, e, d)
    && (e.Returner? || e.Scans?) && !(e.Returner? && (e.returner.SettingOnClose? || e.returner.OnClose?))
  }

  // An end of c's return with the given result.
  lemma EndingLaw(s: State, e: Event, t: State, c: nat, result: Result, d: nat, f: Flag)
    requires d in s.delegs && Ending(s, e, d) && Returned(s, c) && t.delegs == Finish(s, c, result).delegs
    requires forall again :: Aborts(s, e, d, again) <==> c == d && result == Aborted(again)
    ensures Law(s, e, t, d, f)
  {
    hide Starts, StartsOnClose, Revokes, Replaces, Renews, InodeLost, PassesOn, VisitedBy, Aborts, Finish, Idling;
    FinishGives(s, c, result, d, f);
    assert Aborts(s, e, d, true) <==> c == d && result == Aborted(true);
    assert Aborts(s, e, d, false) <==> c == d && result == Aborted(false);
  }

  lemma FinishingIsEnding(s: State, c: nat, result: Result, d: nat)
    requires d in s.delegs
    ensures Ending(s, Returner(Finishing(c, result)), d)
    ensures forall again :: Aborts(s, Returner(Finishing(c, result)), d, again) <==> c == d && result == Aborted(again)
  {
  }

  lemma ReturnerLaw(s: State, r: Returner, d: nat, f: Flag)
    requires CanReturn(s, r) && d in s.delegs
    ensures Law(s, Returner(r), ReturnStep(s, r), d, f)
  {
    hide Law, StartReturn, SetReturnOnClose, ReturnOnClose, Finish;
    match r
    case Starting(i) => StartingLaw(s, i, d, f);
    case SettingOnClose(i, closed) => SettingOnCloseLaw(s, i, closed, d, f);
    case OnClose(i, closed, watermark) => OnCloseLaw(s, i, closed, watermark, d, f);
    case Finishing(c, result) =>
      FinishingIsEnding(s, c, result, d);
      EndingLaw(s, Returner(r), Finish(s, c, result), c, result, d, f);
  }

  // ------------------------------------------------ aliases

  lemma VerifyIsNoOther(s: State, e: Event, d: nat)
    requires d in s.delegs && (e.Verifies? || e.DropsAlias?)
    ensures Silent(s, e, d)
  {
  }

  lemma OwnVerifyLaw(s: State, i: nat, alias: nat, d: nat, f: Flag)
    requires d in s.delegs && IsFor(s, i, d) && ValidFor(s.delegs[d], Mode(true, false))
    ensures Law(s, Verifies(i, alias, true), SetVerifier(s, i, alias, true), d, f)
  {
    hide Starts, StartsOnClose, Revokes, Replaces, Renews, InodeLost, Aborts, PassesOn, VisitedBy, SetFlags, ValidFor;
    VerifyIsNoOther(s, Verifies(i, alias, true), d);
    SetFlagsGives(s, d, {Referenced}, {}, d, f);
  }

  lemma VerifyLeaves(s: State, i: nat, alias: nat, current: bool, d: nat)
    requires d in s.delegs && !(current && IsFor(s, i, d) && ValidFor(s.delegs[d], Mode(true, false)))
    ensures d in SetVerifier(s, i, alias, current).delegs
    ensures SetVerifier(s, i, alias, current).delegs[d].flags == s.delegs[d].flags
  {
  }

  lemma VerifyLaw(s: State, i: nat, alias: nat, current: bool, d: nat, f: Flag)
    requires d in s.delegs
    ensures Law(s, Verifies(i, alias, current), SetVerifier(s, i, alias, current), d, f)
  {
    hide Law, Silent, SetVerifier;
    if current && IsFor(s, i, d) && ValidFor(s.delegs[d], Mode(true, false)) {
      OwnVerifyLaw(s, i, alias, d, f);
    } else {
      VerifyIsNoOther(s, Verifies(i, alias, current), d);
      VerifyLeaves(s, i, alias, current, d);
      NoSayLaw(s, Verifies(i, alias, current), SetVerifier(s, i, alias, current), d, f);
    }
  }

  lemma DropsAliasLaw(s: State, i: nat, alias: nat, d: nat, f: Flag)
    requires d in s.delegs
    ensures Law(s, DropsAlias(i, alias), s.(tagged := s.tagged - {(i, alias)}), d, f)
  {
    hide Silent;
    VerifyIsNoOther(s, DropsAlias(i, alias), d);
    NoSayLaw(s, DropsAlias(i, alias), s.(tagged := s.tagged - {(i, alias)}), d, f);
  }

  // ------------------------------------------------ removals

  // What becomes of the flags when d is revoked, and of nobody else's.
  lemma MarkRevokedGives(s: State, c: nat, d: nat, f: Flag)
    requires c in s.delegs && d in s.delegs
    ensures c in MarkRevoked(s, c).delegs && d in MarkRevoked(s, c).delegs
    ensures f in MarkRevoked(s, c).delegs[d].flags <==> f in s.delegs[d].flags || (c == d && f == Revoked)
  {
  }

  lemma ReseqGives(s: State, c: nat, seqid: Seqid, d: nat)
    requires c in s.delegs && d in s.delegs
    ensures c in Reseq(s, c, seqid).delegs && d in Reseq(s, c, seqid).delegs
    ensures Reseq(s, c, seqid).delegs[d].flags == s.delegs[d].flags
  {
  }

  // An event that can only revoke.
  lemma RevokingLaw(s: State, e: Event, t: State, d: nat, f: Flag)
    requires d in s.delegs && e.Removes? && (e.removal.Revoking? || e.removal.DroppingBase?)
    requires d in t.delegs && (f in t.delegs[d].flags <==> f in s.delegs[d].flags || (Revokes(s, e, d) && f == Revoked))
    ensures Law(s, e, t, d, f)
  {
    hide Revokes;
  }

  lemma RevokeLaw(s: State, i: nat, sid: Option<Stateid>, d: nat, f: Flag)
    requires d in s.delegs
    ensures Law(s, Removes(Revoking(i, sid)), Revoke(s, i, sid), d, f)
  {
    hide Law, MarkRevoked, Reseq;
    if i in s.ptr && s.ptr[i] in s.delegs {
      var c := s.ptr[i];
      MarkRevokedGives(s, c, d, f);
      if sid.Some? {
        ReseqGives(s, c, sid.value.seqid, d);
        MarkRevokedGives(Reseq(s, c, sid.value.seqid), c, d, f);
      }
    }
    RevokingLaw(s, Removes(Revoking(i, sid)), Revoke(s, i, sid), d, f);
  }

  lemma DropBaseLaw(s: State, c: nat, d: nat, f: Flag)
    requires Enabled(s, Removes(DroppingBase(c))) && d in s.delegs
    ensures Law(s, Removes(DroppingBase(c)), DropBase(s, c), d, f)
  {
    hide Law, MarkRevoked;
    MarkRevokedGives(s, c, d, f);
    RevokingLaw(s, Removes(DroppingBase(c)), DropBase(s, c), d, f);
  }

  lemma SurrenderGives(s: State, c: nat, seqid: Seqid, d: nat, f: Flag)
    requires c in s.delegs && d in s.delegs
    ensures d in Surrender(s, c, seqid).delegs
    ensures f in Surrender(s, c, seqid).delegs[d].flags
       <==> if c == d then f == Revoked || (f in s.delegs[d].flags && f != Returning) else f in s.delegs[d].flags
  {
    hide MarkRevoked, Reseq, SetFlags;
    ReseqGives(s, c, seqid, d);
    var r := Reseq(s, c, seqid);
    MarkRevokedGives(r, c, d, f);
    SetFlagsGives(MarkRevoked(r, c), c, {}, {Returning}, d, f);
  }

  lemma MarkingReturnedSays(s: State, i: nat, sid: Stateid, d: nat)
    requires d in s.delegs
    ensures var e := Removes(MarkingReturned(i, sid));
      && !Starts(s, e, d) && !StartsOnClose(s, e, d) && !Replaces(s, e, d) && !Renews(s, e, d) && !InodeLost(s, e, d)
      && !Aborts(s, e, d, true) && !Aborts(s, e, d, false) && !PassesOn(s, e, d) && !VisitedBy(s, e, d)
      && (Revokes(s, e, d) <==> IsFor(s, i, d) && NotOlder(s.delegs[d], sid))
  {
  }

  lemma MarkedReturnedFlags(s: State, i: nat, sid: Stateid, t: State, d: nat, f: Flag)
    requires d in s.delegs && d in t.delegs
    requires var own := IsFor(s, i, d) && sid.other == s.delegs[d].stateid.other;
      f in t.delegs[d].flags <==>
        (f in s.delegs[d].flags && !(own && f == Returning)) || (IsFor(s, i, d) && NotOlder(s.delegs[d], sid) && f == Revoked)
    ensures Law(s, Removes(MarkingReturned(i, sid)), t, d, f)
  {
    hide Starts, StartsOnClose, Revokes, Replaces, Renews, InodeLost, Aborts, PassesOn, VisitedBy, NotOlder;
    MarkingReturnedSays(s, i, sid, d);
  }

  lemma MarkingReturnedLaw(s: State, i: nat, sid: Stateid, d: nat, f: Flag)
    requires d in s.delegs
    ensures Law(s, Removes(MarkingReturned(i, sid)), MarkReturned(s, i, sid), d, f)
  {
    hide Law, SetFlags, Surrender, IsNewer;
    if i in s.ptr && s.ptr[i] in s.delegs {
      SurrenderGives(s, s.ptr[i], sid.seqid, d, f);
      SetFlagsGives(s, s.ptr[i], {}, {Returning}, d, f);
    }
    MarkedReturnedFlags(s, i, sid, MarkReturned(s, i, sid), d, f);
  }

  lemma DetachGives(s: State, c: nat, revoke: bool, d: nat)
    requires c in s.delegs && d in s.delegs
    ensures d in Detach(s, c, revoke).delegs && Detach(s, c, revoke).delegs[d].flags == s.delegs[d].flags
  {
  }

  lemma DetachingIsSilent(s: State, r: Removal, d: nat)
    requires d in s.delegs && (r.DetachingReturned? || r.ReapDetaching?)
    ensures NoSay(s, Removes(r), d)
  {
  }

  lemma EvictSays(s: State, i: nat, d: nat)
    requires d in s.delegs
    ensures var e := Removes(Evicting(i));
      && !Starts(s, e, d) && !StartsOnClose(s, e, d) && !Revokes(s, e, d) && !Replaces(s, e, d) && !Renews(s, e, d)
      && !Aborts(s, e, d, true) && !Aborts(s, e, d, false) && !PassesOn(s, e, d) && !VisitedBy(s, e, d)
      && (InodeLost(s, e, d) <==> IsFor(s, i, d))
  {
  }

  lemma EvictLaw(s: State, i: nat, d: nat, f: Flag)
    requires Coherent(s) && d in s.delegs
    ensures Law(s, Removes(Evicting(i)), Evict(s, i), d, f)
  {
    hide Starts, StartsOnClose, Revokes, Replaces, Renews, InodeLost, Aborts, PassesOn, VisitedBy, SetFlags, Detach, Coherent;
    EvictSays(s, i, d);
    if i in s.ptr {
      PointerKnown(s, i);
      var c := s.ptr[i];
      DetachCoherent(s, c, true);
      DetachGives(s, c, true, d);
      DetachGives(s, c, true, c);
      SetFlagsGives(Detach(s, c, true), c, {Returning, InodeFreeing}, {}, d, f);
    }
  }

  lemma RemovalLaw(s: State, r: Removal, d: nat, f: Flag)
    requires Coherent(s) && CanRemove(s, r) && d in s.delegs
    ensures Law(s, Removes(r), RemoveStep(s, r), d, f)
  {
    hide Law, NoSay, Coherent, Revoke, MarkReturned, Detach, DropBase, Evict;
    match r
    case Revoking(i, sid) => RevokeLaw(s, i, sid, d, f);
    case MarkingReturned(i, sid) => MarkingReturnedLaw(s, i, sid, d, f);
    case DetachingReturned(c) =>
      DetachingIsSilent(s, r, d);
      DetachGives(s.(toDetach := s.toDetach - multiset{c}), c, false, d);
      NoSayLaw(s, Removes(r), RemoveStep(s, r), d, f);
    case ReapDetaching(c) =>
      DetachingIsSilent(s, r, d);
      DetachGives(s, c, true, d);
      NoSayLaw(s, Removes(r), RemoveStep(s, r), d, f);
    case DroppingBase(c) => DropBaseLaw(s, c, d, f);
    case Evicting(i) => EvictLaw(s, i, d, f);
  }

  // ------------------------------------------------ grants

  lemma GrantSays(s: State, e: Event, d: nat)
    requires d in s.delegs && (e.Granted? || e.Reclaimed?)
    ensures !Starts(s, e, d) && !StartsOnClose(s, e, d) && !Revokes(s, e, d) && !InodeLost(s, e, d)
    ensures !Aborts(s, e, d, true) && !Aborts(s, e, d, false) && !PassesOn(s, e, d) && !VisitedBy(s, e, d)
    ensures !IsFor(s, e.offer.inode, d) ==> !Replaces(s, e, d) && !Renews(s, e, d)
    ensures e.Reclaimed? ==> !Replaces(s, e, d)
  {
  }

  lemma UnrevokedGives(s: State, c: nat, d: nat, f: Flag)
    requires c in s.delegs && d in s.delegs
    ensures d in Unrevoked(s, c).delegs
    ensures f in Unrevoked(s, c).delegs[d].flags <==> f in s.delegs[d].flags && !(c == d && f == Revoked)
  {
  }

  // A grant or reclaim changes no flag but REVOKED, or RETURNING when it replaces.
  lemma GrantedFlags(s: State, e: Event, t: State, d: nat, f: Flag)
    requires d in s.delegs && e.Granted? && d in t.delegs && (Renews(s, e, d) ==> !Replaces(s, e, d))
    requires f in t.delegs[d].flags <==>
      (f in s.delegs[d].flags && !(Renews(s, e, d) && f == Revoked))
      || (Replaces(s, e, d) && Revoked !in s.delegs[d].flags && f == Returning)
    ensures Law(s, e, t, d, f)
  {
    hide Starts, StartsOnClose, Revokes, Replaces, Renews, InodeLost, Aborts, PassesOn, VisitedBy;
    GrantSays(s, e, d);
  }

  lemma UpdateGives(s: State, c: nat, mode: Mode, sid: Stateid, d: nat, f: Flag)
    requires c in s.delegs && d in s.delegs
    ensures d in UpdateInPlace(s, c, mode, sid).delegs
    ensures f in UpdateInPlace(s, c, mode, sid).delegs[d].flags
       <==> f in s.delegs[d].flags && !(c == d && IsNewer(sid, s.delegs[c].stateid) && f == Revoked)
  {
    hide Unrevoked, IsNewer;
    var x := s.delegs[c];
    UnrevokedGives(Put(s, c, x.(stateid := x.stateid.(seqid := sid.seqid), mode := mode)), c, d, f);
  }

  lemma AddGives(s: State, o: Offer, d: nat)
    requires o.d !in s.delegs && d in s.delegs
    ensures var t := Publish(s, o.inode, o.d, o.mode, o.stateid, o.delegTime); d in t.delegs && t.delegs[d] == s.delegs[d]
    ensures var t := Duplicate(s, o.inode, o.d, o.mode, o.stateid, o.delegTime); d in t.delegs && t.delegs[d] == s.delegs[d]
  {
  }

  lemma ReplaceGives(s: State, o: Offer, p: nat, d: nat, f: Flag)
    requires o.d !in s.delegs && d in s.delegs && p in s.delegs
    ensures var t := if Revoked in s.delegs[p].flags then s else SetFlags(s, p, {Returning}, {});
      var u := Publish(Detach(t, p, true), o.inode, o.d, o.mode, o.stateid, o.delegTime);
      && d in u.delegs
      && (f in u.delegs[d].flags <==> f in s.delegs[d].flags || (p == d && Revoked !in s.delegs[p].flags && f == Returning))
  {
    hide SetFlags, Detach, Publish;
    SetFlagsGives(s, p, {Returning}, {}, d, f);
    SetFlagsGives(s, p, {Returning}, {}, p, f);
    var t := if Revoked in s.delegs[p].flags then s else SetFlags(s, p, {Returning}, {});
    DetachGives(t, p, true, d);
    SetFlagsKeys(s, p, {Returning}, {});
    DetachKeys(t, p, true);
    AddGives(Detach(t, p, true), o, d);
  }

  lemma SetFlagsKeys(s: State, c: nat, add: set<Flag>, drop: set<Flag>)
    requires c in s.delegs
    ensures SetFlags(s, c, add, drop).delegs.Keys == s.delegs.Keys && SetFlags(s, c, add, drop).scan == s.scan
  {
  }

  lemma DetachKeys(s: State, c: nat, revoke: bool)
    requires c in s.delegs
    ensures Detach(s, c, revoke).delegs.Keys == s.delegs.Keys
  {
  }

  // For a coherent state the replaced delegation is always detached.
  lemma ReplacedDetaches(s: State, i: nat, p: nat)
    requires Coherent(s) && i in s.ptr && s.ptr[i] == p
    ensures p in s.delegs
    ensures var t := if Revoked in s.delegs[p].flags then s else SetFlags(s, p, {Returning}, {}); Detach(t, p, true) != t
  {
    hide Linkage, Refs;
    PointerKnown(s, i);
    var t := if Revoked in s.delegs[p].flags then s else SetFlags(s, p, {Returning}, {});
    SetFlagsShape(s, p, {Returning}, {});
    SameShapeCoherent(s, t);
    DetachCoherent(t, p, true);
  }

  lemma GrantedLaw(s: State, o: Offer, d: nat, f: Flag)
    requires Coherent(s) && o.d !in s.delegs && d in s.delegs
    ensures Law(s, Granted(o), Grant(s, o.inode, o.d, o.mode, o.stateid, o.delegTime), d, f)
  {
    hide Law, Coherent, Publish, Duplicate, UpdateInPlace, Detach, SetFlags, IsNewer;
    AddGives(s, o, d);
    if o.inode in s.ptr {
      PointerKnown(s, o.inode);
      var p := s.ptr[o.inode];
      UpdateGives(s, p, o.mode, o.stateid, d, f);
      ReplaceGives(s, o, p, d, f);
      ReplacedDetaches(s, o.inode, p);
    }
    GrantedFlags(s, Granted(o), Grant(s, o.inode, o.d, o.mode, o.stateid, o.delegTime), d, f);
  }

  lemma ReclaimedFlags(s: State, e: Event, t: State, d: nat, f: Flag)
    requires d in s.delegs && e.Reclaimed? && d in t.delegs
    requires f in t.delegs[d].flags <==>
      if Renews(s, e, d) then (f == DelegTime && e.offer.delegTime) || (f in s.delegs[d].flags - {NeedReclaim, DelegTime, Revoked})
      else f in s.delegs[d].flags
    ensures Law(s, e, t, d, f)
  {
    hide Starts, StartsOnClose, Revokes, Replaces, Renews, InodeLost, Aborts, PassesOn, VisitedBy;
    GrantSays(s, e, d);
  }

  lemma ReclaimedLaw(s: State, o: Offer, d: nat, f: Flag)
    requires Coherent(s) && o.d !in s.delegs && d in s.delegs
    ensures Law(s, Reclaimed(o), Reclaim(s, o.inode, o.d, o.mode, o.stateid, o.delegTime), d, f)
  {
    hide Law, Coherent, Publish, Unrevoked;
    AddGives(s, o, d);
    if o.inode in s.ptr {
      PointerKnown(s, o.inode);
      var p := s.ptr[o.inode];
      var x := s.delegs[p];
      UnrevokedGives(Put(s, p, x.(stateid := o.stateid, mode := o.mode,
        flags := x.flags - {NeedReclaim, DelegTime} + (if o.delegTime then {DelegTime} else {}))), p, d, f);
    }
    ReclaimedFlags(s, Reclaimed(o), Reclaim(s, o.inode, o.d, o.mode, o.stateid, o.delegTime), d, f);
  }

  // ------------------------------------------------ the scanner

  lemma VisitSays(s: State, grab: bool, grabPrev: bool, d: nat)
    requires d in s.delegs
    ensures var e := Scans(VisitNext(grab, grabPrev));
      && !StartsOnClose(s, e, d) && !Revokes(s, e, d) && !Replaces(s, e, d) && !Renews(s, e, d)
      && !Aborts(s, e, d, true) && !Aborts(s, e, d, false) && !PassesOn(s, e, d)
      && (Starts(s, e, d) <==> VisitedBy(s, e, d) && Taking(s, e))
  {
  }

  // The flags a visit leaves, in the terms of the law.
  lemma VisitedFlags(s: State, e: Event, t: State, d: nat, f: Flag)
    requires d in s.delegs && e.Scans? && e.scanner.VisitNext? && d in t.delegs
    requires f in t.delegs[d].flags <==>
      || (f in s.delegs[d].flags
          && !(VisitedBy(s, e, d) && InodeFreeing !in s.delegs[d].flags && f == Return)
          && !(VisitedBy(s, e, d) && Taking(s, e) && f == ReturnDelayed))
      || (VisitedBy(s, e, d) && Taking(s, e) && f == Returning)
      || (InodeLost(s, e, d) && f == InodeFreeing)
    ensures Law(s, e, t, d, f)
  {
    hide Starts, StartsOnClose, Revokes, Replaces, Renews, InodeLost, Aborts, PassesOn, VisitedBy, Taking;
    VisitSays(s, e.scanner.grab, e.scanner.grabPrev, d);
  }

  lemma WalksListed(s: State)
    requires Coherent(s) && Marked(s) && s.scan.Walking? && s.scan.ahead != []
    ensures var v := s.scan.ahead[0];
      && v in s.list && v in s.delegs && Linked(s.delegs[v])
      && s.delegs[v].inode.value in s.ptr && s.ptr[s.delegs[v].inode.value] == v
  {
    hide Refs, ClearOk, Known, HolderOk, PlaceOk;
    var n := |s.list| - |s.scan.ahead|;
    assert s.list[n..][0] == s.list[n] == s.scan.ahead[0];
    assert s.list[n] in s.list;
  }

  lemma GrabPrevGives(s: State, prev: Option<nat>, grabPrev: bool, d: nat, f: Flag)
    requires d in s.delegs
    ensures var u := GrabPrev(s, prev, grabPrev);
      && d in u.delegs && u.ptr == s.ptr && u.delegs[d].inode == s.delegs[d].inode
      && (f in u.delegs[d].flags
          <==> (f in s.delegs[d].flags || (prev == Some(d) && !(grabPrev && s.delegs[d].inode.Some?) && f == InodeFreeing)))
  {
    hide GrabFailed;
    if prev.Some? && prev.value in s.delegs {
      GrabFailedGives(s, prev.value, d, f);
      GrabFailedShape(s, prev.value);
    }
  }

  lemma TakeGives(s: State, v: nat, grabPrev: bool, d: nat, f: Flag)
    requires s.scan.Walking? && v in s.delegs && d in s.delegs && Returning !in s.delegs[v].flags
    requires s.delegs[v].inode.Some? && IsFor(s, s.delegs[v].inode.value, v)
    ensures var t := Take(s, s.delegs[v].inode.value, grabPrev);
      && d in t.delegs
      && (f in t.delegs[d].flags <==>
          (|| (f in s.delegs[d].flags && !(v == d && f == ReturnDelayed))
           || (v == d && f == Returning)
           || (s.scan.prev == Some(d) && !(grabPrev && s.delegs[d].inode.Some?) && f == InodeFreeing)))
  {
    hide GrabPrev, Begin;
    GrabPrevGives(s, s.scan.prev, grabPrev, d, f);
    GrabPrevGives(s, s.scan.prev, grabPrev, v, Returning);
    BeginGives(GrabPrev(s, s.scan.prev, grabPrev), v, {ReturnDelayed}, d, f);
  }

  lemma VisitTakes(s: State, grab: bool, grabPrev: bool, d: nat, f: Flag)
    requires Coherent(s) && Marked(s) && CanScan(s, VisitNext(grab, grabPrev)) && d in s.delegs
    requires Taking(s, Scans(VisitNext(grab, grabPrev)))
    ensures Law(s, Scans(VisitNext(grab, grabPrev)), Visit(s, grab, grabPrev), d, f)
  {
    hide Coherent, Marked, Law, SetFlags, Take;
    WalksListed(s);
    var v := s.scan.ahead[0];
    var t := SetFlags(s, v, {}, {Return});
    SetFlagsGives(s, v, {}, {Return}, d, f);
    SetFlagsGives(s, v, {}, {Return}, v, Returning);
    SetFlagsShape(s, v, {}, {Return});
    SetFlagsKeys(s, v, {}, {Return});
    TakeGives(t, v, grabPrev, d, f);
    VisitedFlags(s, Scans(VisitNext(grab, grabPrev)), Visit(s, grab, grabPrev), d, f);
  }

  lemma VisitPasses(s: State, grab: bool, grabPrev: bool, d: nat, f: Flag)
    requires CanScan(s, VisitNext(grab, grabPrev)) && d in s.delegs && !Taking(s, Scans(VisitNext(grab, grabPrev)))
    ensures Law(s, Scans(VisitNext(grab, grabPrev)), Visit(s, grab, grabPrev), d, f)
  {
    hide Law, SetFlags, GrabFailed;
    var v := s.scan.ahead[0];
    SetFlagsGives(s, v, {}, {Return}, d, f);
    GrabFailedGives(SetFlags(s, v, {}, {Return}), v, d, f);
    VisitedFlags(s, Scans(VisitNext(grab, grabPrev)), Visit(s, grab, grabPrev), d, f);
  }

  lemma ResumeSays(s: State, result: Result, d: nat)
    requires CanScan(s, Resume(result)) && d in s.delegs
    ensures Ending(s, Scans(Resume(result)), d)
    ensures forall again :: Aborts(s, Scans(Resume(result)), d, again) <==> s.scan.deleg == Some(d) && result == Aborted(again)
  {
  }

  lemma ResumeLaw(s: State, result: Result, d: nat, f: Flag)
    requires CanScan(s, Resume(result)) && d in s.delegs
    ensures Law(s, Scans(Resume(result)), ScanResume(s, result), d, f)
  {
    hide Law, Finish, Ending, Aborts, NoSay;
    ResumeSays(s, result, d);
    if s.scan.deleg.Some? {
      EndingLaw(s, Scans(Resume(result)), ScanResume(s, result), s.scan.deleg.value, result, d, f);
    } else {
      ResumesNothing(s, result, d);
      NoSayLaw(s, Scans(Resume(result)), ScanResume(s, result), d, f);
    }
  }

  lemma ResumesNothing(s: State, result: Result, d: nat)
    requires CanScan(s, Resume(result)) && s.scan.deleg.None? && d in s.delegs
    ensures NoSay(s, Scans(Resume(result)), d)
  {
  }

  lemma ClearSays(s: State, d: nat)
    requires d in s.delegs
    ensures var e := Scans(ClearNext);
      && !Starts(s, e, d) && !StartsOnClose(s, e, d) && !Revokes(s, e, d) && !Replaces(s, e, d) && !Renews(s, e, d)
      && !InodeLost(s, e, d) && !Aborts(s, e, d, true) && !Aborts(s, e, d, false) && !VisitedBy(s, e, d)
  {
  }

  lemma ClearGives(s: State, d: nat, f: Flag)
    requires CanScan(s, ClearNext) && d in s.delegs
    ensures d in ClearVisit(s).delegs
    ensures f in ClearVisit(s).delegs[d].flags <==>
      if PassesOn(s, Scans(ClearNext), d) then f == Return || (f in s.delegs[d].flags && f != ReturnDelayed)
      else f in s.delegs[d].flags
  {
    hide SetFlags;
    var v := s.scan.ahead[0];
    var t := s.(scan := Clearing(s.scan.ahead[1..]));
    SetFlagsGives(t, v, {Return}, {}, d, f);
    SetFlagsGives(t, v, {Return}, {}, v, f);
    SetFlagsGives(MarkReturn(t, v), v, {}, {ReturnDelayed}, d, f);
  }

  lemma ClearLaw(s: State, d: nat, f: Flag)
    requires CanScan(s, ClearNext) && d in s.delegs
    ensures Law(s, Scans(ClearNext), ClearVisit(s), d, f)
  {
    hide Starts, StartsOnClose, Revokes, Replaces, Renews, InodeLost, Aborts, PassesOn, VisitedBy, ClearVisit;
    ClearSays(s, d);
    ClearGives(s, d, f);
  }

  lemma IdleScannerSays(s: State, c: Scanner, d: nat)
    requires CanScan(s, c) && d in s.delegs && (c.BeginScan? || c.EndScan? || c.BeginClear? || c.EndClear?)
    ensures NoSay(s, Scans(c), d) && ScanStep(s, c).delegs == s.delegs
  {
  }

  lemma ScannerLaw(s: State, c: Scanner, d: nat, f: Flag)
    requires Coherent(s) && Marked(s) && CanScan(s, c) && d in s.delegs
    ensures Law(s, Scans(c), ScanStep(s, c), d, f)
  {
    hide Law, NoSay, Coherent, Marked, Visit, ScanResume, ClearVisit;
    match c
    case VisitNext(grab, grabPrev) =>
      if Taking(s, Scans(c)) { VisitTakes(s, grab, grabPrev, d, f); } else { VisitPasses(s, grab, grabPrev, d, f); }
    case Resume(result) => ResumeLaw(s, result, d, f);
    case ClearNext => ClearLaw(s, d, f);
    case _ =>
      IdleScannerSays(s, c, d);
      NoSayLaw(s, Scans(c), ScanStep(s, c), d, f);
  }

  // ------------------------------------------------ every step, every run

  lemma FlagLaw(s: State, e: Event, d: nat, f: Flag)
    requires Coherent(s) && Marked(s) && Enabled(s, e) && d in s.delegs
    ensures Law(s, e, Step(s, e), d, f)
  {
    hide Law, Coherent, Marked, Grant, Reclaim, RemoveStep, ReturnStep, ApplyMark, SetVerifier, ScanStep;
    match e
    case Granted(o) => GrantedLaw(s, o, d, f);
    case Reclaimed(o) => ReclaimedLaw(s, o, d, f);
    case Removes(r) => RemovalLaw(s, r, d, f);
    case Returner(r) => ReturnerLaw(s, r, d, f);
    case Marks(c, m) => MarkLaw(s, c, m, d, f);
    case Verifies(i, alias, current) => VerifyLaw(s, i, alias, current, d, f);
    case DropsAlias(i, alias) => DropsAliasLaw(s, i, alias, d, f);
    case Scans(c) => ScannerLaw(s, c, d, f);
  }

  // A delegation is born with REFERENCED, and DELEGTIME if the server says so.
  predicate Born(e: Event, d: nat, f: Flag) {
    (e.Granted? || e.Reclaimed?) && e.offer.d == d && (f == Referenced || (f == DelegTime && e.offer.delegTime))
  }

  lemma AddedFlags(s: State, o: Offer, f: Flag)
    requires o.d !in s.delegs
    ensures var t := Publish(s, o.inode, o.d, o.mode, o.stateid, o.delegTime);
      o.d in t.delegs && (f in t.delegs[o.d].flags <==> Born(Granted(o), o.d, f))
    ensures var t := Duplicate(s, o.inode, o.d, o.mode, o.stateid, o.delegTime);
      o.d in t.delegs && (f in t.delegs[o.d].flags <==> Born(Granted(o), o.d, f))
  {
  }

  // Only grants make delegations.
  lemma StepMakes(s: State, e: Event, d: nat)
    requires Enabled(s, e) && !e.Granted? && !e.Reclaimed? && d !in s.delegs
    ensures d !in Step(s, e).delegs
  {
    match e
    case Removes(r) => RemoveMakes(s, r, d);
    case Returner(r) => ReturnMakes(s, r, d);
    case Scans(c) => ScanMakes(s, c, d);
    case _ =>
  }

  lemma RemoveMakes(s: State, r: Removal, d: nat)
    requires CanRemove(s, r) && d !in s.delegs
    ensures d !in RemoveStep(s, r).delegs
  {
    match r
    case Revoking(i, sid) => RevokeShape(s, i, sid);
    case MarkingReturned(i, sid) => MarkReturnedShape(s, i, sid);
    case DroppingBase(c) => MarkRevokedShape(s, c);
    case _ =>
  }

  lemma ReturnMakes(s: State, r: Returner, d: nat)
    requires CanReturn(s, r) && d !in s.delegs
    ensures d !in ReturnStep(s, r).delegs
  {
  }

  lemma ScanMakes(s: State, c: Scanner, d: nat)
    requires CanScan(s, c) && d !in s.delegs
    ensures d !in ScanStep(s, c).delegs
  {
    match c
    case VisitNext(grab, grabPrev) => VisitMakes(s, grab, grabPrev, d);
    case _ =>
  }

  lemma StartKeys(s: State, i: nat)
    ensures StartReturn(s, i).delegs.Keys == s.delegs.Keys
  {
  }

  lemma TakeKeys(s: State, i: nat, grabPrev: bool)
    requires s.scan.Walking?
    ensures Take(s, i, grabPrev).delegs.Keys == s.delegs.Keys
  {
    hide GrabPrev, StartReturn;
    GrabPrevQuiet(s, s.scan.prev, grabPrev);
    StartKeys(GrabPrev(s, s.scan.prev, grabPrev), i);
  }

  lemma VisitMakes(s: State, grab: bool, grabPrev: bool, d: nat)
    requires CanScan(s, VisitNext(grab, grabPrev)) && d !in s.delegs
    ensures d !in Visit(s, grab, grabPrev).delegs
  {
    hide Take, SetFlags, GrabFailed, SameLinks;
    var v := s.scan.ahead[0];
    var t := SetFlags(s, v, {}, {Return});
    SetFlagsKeys(s, v, {}, {Return});
    GrabFailedShape(t, v);
    if s.delegs[v].inode.Some? { TakeKeys(t, s.delegs[v].inode.value, grabPrev); }
  }

  lemma BornLaw(s: State, e: Event, d: nat, f: Flag)
    requires Coherent(s) && Enabled(s, e) && d !in s.delegs && d in Step(s, e).delegs
    ensures f in Step(s, e).delegs[d].flags <==> Born(e, d, f)
  {
    if e.Granted? || e.Reclaimed? { OfferMakes(s, e, d, f); } else { StepMakes(s, e, d); }
  }

  // A grant makes the delegation it offers, and no other.
  lemma GrantMakes(s: State, o: Offer, d: nat, f: Flag)
    requires Coherent(s) && o.d !in s.delegs && d !in s.delegs
    ensures var t := Grant(s, o.inode, o.d, o.mode, o.stateid, o.delegTime);
      d in t.delegs ==> (f in t.delegs[d].flags <==> Born(Granted(o), d, f))
  {
    hide Coherent, Publish, Duplicate, UpdateInPlace, Detach, SetFlags, Born, SameLinks;
    AddedFlags(s, o, f);
    if d != o.d { OffersOnly(s, o, d); }
    if o.inode in s.ptr {
      PointerKnown(s, o.inode);
      var p := s.ptr[o.inode];
      UpdateInPlaceShape(s, p, o.mode, o.stateid);
      ReplaceMakes(s, o, p, d, f);
      ReplacedDetaches(s, o.inode, p);
    }
  }

  lemma ReplaceMakes(s: State, o: Offer, p: nat, d: nat, f: Flag)
    requires o.d !in s.delegs && d !in s.delegs && p in s.delegs
    ensures var t := if Revoked in s.delegs[p].flags then s else SetFlags(s, p, {Returning}, {});
      var u := Publish(Detach(t, p, true), o.inode, o.d, o.mode, o.stateid, o.delegTime);
      && d !in t.delegs && (d in u.delegs ==> (f in u.delegs[d].flags <==> Born(Granted(o), d, f)))
  {
    hide Publish, Detach, SetFlags, Born;
    var t := if Revoked in s.delegs[p].flags then s else SetFlags(s, p, {Returning}, {});
    SetFlagsKeys(s, p, {Returning}, {});
    DetachKeys(t, p, true);
    AddedFlags(Detach(t, p, true), o, f);
    if d != o.d { OffersOnly(Detach(t, p, true), o, d); }
  }

  lemma OfferMakes(s: State, e: Event, d: nat, f: Flag)
    requires Coherent(s) && Enabled(s, e) && (e.Granted? || e.Reclaimed?) && d !in s.delegs && d in Step(s, e).delegs
    ensures f in Step(s, e).delegs[d].flags <==> Born(e, d, f)
  {
    hide Linkage, Refs, Grant, SameLinks;
    var o := e.offer;
    GrantMakes(s, o, d, f);
    if e.Reclaimed? && o.inode in s.ptr {
      PointerKnown(s, o.inode);
      RenewShape(s, o.inode, o.d, o.mode, o.stateid, o.delegTime);
    }
  }

  lemma OffersOnly(s: State, o: Offer, d: nat)
    requires d !in s.delegs && d != o.d
    ensures d !in Publish(s, o.inode, o.d, o.mode, o.stateid, o.delegTime).delegs
    ensures d !in Duplicate(s, o.inode, o.d, o.mode, o.stateid, o.delegTime).delegs
  {
  }

  // What the event log says about a flag.
  function ByLog(es: seq<Event>, d: nat, f: Flag): bool {
    if es == [] then false
    else
      var before := es[..|es|-1];
      var s, e := Run(before), es[|es|-1];
      if !Enabled(s, e) then ByLog(before, d, f)
      else if d !in s.delegs then Born(e, d, f)
      else if Raises(s, e, d, f) then true
      else if Lowers(s, e, d, f) then false
      else ByLog(before, d, f)
  }

  // Over every run each flag of each delegation is what the last event with a say in it made of it.
  lemma {:induction false} FlagsByLog(es: seq<Event>, d: nat, f: Flag)
    requires d in Run(es).delegs
    ensures f in Run(es).delegs[d].flags <==> ByLog(es, d, f)
  {
    if es != [] {
      hide Step, Enabled, Raises, Lowers, Coherent, Marked;
      var before := es[..|es|-1];
      var s, e := Run(before), es[|es|-1];
      RunCoherent(before);
      RunMarked(before);
      if Enabled(s, e) && d !in s.delegs { BornLaw(s, e, d, f); }
      if Enabled(s, e) && d in s.delegs { FlagLaw(s, e, d, f); }
      if d in s.delegs { FlagsByLog(before, d, f); }
    }
  }
}
