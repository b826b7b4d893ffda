/**
 From being asked for back to being returned, told from the event log.  A recall, or one of the
 passes over unused delegations, marks a delegation and announces the mark; the mark stays, or the
 return is under way, and the announcement reaches the scanner, until a step ends the pursuit.
 */
module DelegationRecalls {
  import opened Wrappers
  import opened Delegation
  import opened DelegationCoherence
  import opened DelegationMarks
  import opened DelegationDelayed
  import opened DelegationPursuit
  import opened DelegationFlags

  // ------------------------------------------------ announcements

  // Some listed delegation gets the mark with this step, and the scanner must hear of it.
  predicate Announces(s: State, e: Event) {
    match e
    case Marks(d, ToReturn) => true
    case Marks(d, IfClosed(closed)) => d in s.delegs && closed && Markable(s.delegs[d])
    case Marks(d, Unreferenced(closed)) =>
      d in s.delegs && closed && Markable(s.delegs[d]) && Referenced !in s.delegs[d].flags
    case Scans(ClearNext) => s.scan.Clearing? && s.scan.ahead != [] && s.scan.ahead[0] in s.delegs && PassesOn(s, e, s.scan.ahead[0])
    case Scans(Resume(result)) => s.scan.Returns? && s.scan.deleg.Some? && !result.Done?
    case _ => false
  }

  // Some return is put off with this step.
  predicate PutsOffSome(s: State, e: Event) {
    match e
    case Returner(Finishing(_, result)) => result == Aborted(true)
    case Scans(Resume(result)) => result == Aborted(true) && s.scan.Returns? && s.scan.deleg.Some?
    case _ => false
  }

  // The server's two bits: set by an announcement, cleared only by the pass that acts on them.
  predicate BitLaw(s: State, e: Event, t: State) {
    && t.returnBit == (Announces(s, e) || (s.returnBit && e != Scans(BeginScan)))
    && t.delayedBit == (PutsOffSome(s, e) || (s.delayedBit && e != Scans(BeginClear)))
  }

  predicate SameBits(s: State, t: State) { t.returnBit == s.returnBit && t.delayedBit == s.delayedBit }

  lemma UpdateBits(s: State, c: nat, mode: Mode, sid: Stateid)
    requires c in s.delegs
    ensures SameBits(s, UpdateInPlace(s, c, mode, sid))
  {
  }

  lemma GrantBits(s: State, o: Offer)
    requires o.d !in s.delegs
    ensures SameBits(s, Grant(s, o.inode, o.d, o.mode, o.stateid, o.delegTime))
    ensures SameBits(s, Reclaim(s, o.inode, o.d, o.mode, o.stateid, o.delegTime))
  {
    hide UpdateInPlace;
    if o.inode in s.ptr && s.ptr[o.inode] in s.delegs { UpdateBits(s, s.ptr[o.inode], o.mode, o.stateid); }
  }

  lemma RevokedBits(s: State, d: nat, seqid: Seqid)
    requires d in s.delegs
    ensures SameBits(s, MarkRevoked(s, d)) && d in Reseq(s, d, seqid).delegs && SameBits(s, MarkRevoked(Reseq(s, d, seqid), d))
    ensures SameBits(s, Surrender(s, d, seqid))
  {
  }

  lemma RemoveBits(s: State, r: Removal)
    requires CanRemove(s, r)
    ensures SameBits(s, RemoveStep(s, r))
  {
    hide MarkRevoked, Surrender;
    match r
    case Revoking(i, sid) =>
      if i in s.ptr && s.ptr[i] in s.delegs { RevokedBits(s, s.ptr[i], if sid.Some? then sid.value.seqid else 0); }
    case MarkingReturned(i, sid) => if i in s.ptr && s.ptr[i] in s.delegs { RevokedBits(s, s.ptr[i], sid.seqid); }
    case DroppingBase(d) => RevokedBits(s, d, 0);
    case _ =>
  }

  lemma ReturnBits(s: State, r: Returner)
    requires CanReturn(s, r)
    ensures BitLaw(s, Returner(r), ReturnStep(s, r))
  {
  }

  lemma MarkBits(s: State, d: nat, m: Mark)
    requires d in s.delegs
    ensures BitLaw(s, Marks(d, m), ApplyMark(s, d, m))
  {
  }

  lemma TakeBits(s: State, i: nat, grabPrev: bool)
    requires s.scan.Walking?
    ensures SameBits(s, Take(s, i, grabPrev))
  {
  }

  lemma VisitBits(s: State, grab: bool, grabPrev: bool)
    requires CanScan(s, VisitNext(grab, grabPrev))
    ensures SameBits(s, Visit(s, grab, grabPrev))
  {
    hide Take;
    var v := s.scan.ahead[0];
    if s.delegs[v].inode.Some? { TakeBits(SetFlags(s, v, {}, {Return}), s.delegs[v].inode.value, grabPrev); }
  }

  lemma ScanBits(s: State, c: Scanner)
    requires CanScan(s, c)
    ensures BitLaw(s, Scans(c), ScanStep(s, c))
  {
    hide Visit;
    match c
    case VisitNext(grab, grabPrev) => VisitBits(s, grab, grabPrev);
    case _ =>
  }

  lemma StepBits(s: State, e: Event)
    requires Enabled(s, e)
    ensures BitLaw(s, e, Step(s, e))
  {
    hide Grant, Reclaim, RemoveStep, ReturnStep, ApplyMark, ScanStep;
    match e
    case Granted(o) => GrantBits(s, o);
    case Reclaimed(o) => GrantBits(s, o);
    case Removes(r) => RemoveBits(s, r);
    case Returner(r) => ReturnBits(s, r);
    case Marks(d, m) => MarkBits(s, d, m);
    case Scans(c) => ScanBits(s, c);
    case _ =>
  }

  // What the log says about the two bits.
  function ReturnBitByLog(es: seq<Event>): bool {
    if es == [] then false
    else
      var s, e := Run(es[..|es|-1]), es[|es|-1];
      if Enabled(s, e) then Announces(s, e) || (e != Scans(BeginScan) && ReturnBitByLog(es[..|es|-1]))
      else ReturnBitByLog(es[..|es|-1])
  }

  function DelayedBitByLog(es: seq<Event>): bool {
    if es == [] then false
    else
      var s, e := Run(es[..|es|-1]), es[|es|-1];
      if Enabled(s, e) then PutsOffSome(s, e) || (e != Scans(BeginClear) && DelayedBitByLog(es[..|es|-1]))
      else DelayedBitByLog(es[..|es|-1])
  }

  // The bits are set exactly when something was announced since they were last acted on.
  lemma {:induction false} BitsByLog(es: seq<Event>)
    ensures Run(es).returnBit == ReturnBitByLog(es) && Run(es).delayedBit == DelayedBitByLog(es)
  {
    if es != [] {
      hide Step, Enabled;
      var s, e := Run(es[..|es|-1]), es[|es|-1];
      BitsByLog(es[..|es|-1]);
      if Enabled(s, e) { StepBits(s, e); }
    }
  }

  // ------------------------------------------------ being heard

  // The part of the list that the scanner walks when it starts again after a return.
  function Restart(s: State): seq<nat>
    requires s.scan.Returns?
  {
    var h := s.scan.holder;
    if h.Some? && h.value.0 in s.ptr && s.ptr[h.value.0] == h.value.1 then From(s.list, h.value.1) else s.list
  }

  // The scanner has yet to come to d: it has been told to walk the list, is on its way to d, or will
  // be after the return it is busy with.
  predicate Heard(s: State, d: nat) {
    s.returnBit || (s.scan.Walking? && d in s.scan.ahead) || (s.scan.Returns? && d in Restart(s))
  }

  predicate PutOffHeard(s: State, d: nat) { s.delayedBit || (s.scan.Clearing? && d in s.scan.ahead) }

  // In every state of every run the scanner still has to come to every mark.
  lemma MarkIsHeard(es: seq<Event>, d: nat)
    requires d in Run(es).list && d in Run(es).delegs
    requires Return in Run(es).delegs[d].flags && InodeFreeing !in Run(es).delegs[d].flags
    ensures Heard(Run(es), d)
  {
    RunMarked(es);
    RunCoherent(es);
    var s := Run(es);
    if !s.returnBit { HeardUnsettled(s, d); }
  }

  lemma HeardUnsettled(s: State, d: nat)
    requires Coherent(s) && ScanOk(s) && d in s.list && !Settled(s, d)
    ensures Heard(s, d)
  {
    if s.scan.Returns? && s.scan.holder.Some? {
      var h := s.scan.holder.value;
      if h.0 in s.ptr && s.ptr[h.0] == h.1 {
        assert h.1 in s.list;
        assert PlaceOk(s, h.1);
      }
    }
  }

  lemma PutOffIsHeard(es: seq<Event>, d: nat)
    requires d in Run(es).list && d in Run(es).delegs && ReturnDelayed in Run(es).delegs[d].flags
    ensures PutOffHeard(Run(es), d)
  {
    RunMarked(es);
    assert ClearOk(Run(es));
  }

  // ------------------------------------------------ recalls

  // The step asks for d back: a recall, or a pass over delegations that finds its file closed.
  predicate Recalls(s: State, e: Event, d: nat) {
    d in s.delegs && (
      || e == Marks(d, ToReturn)
      || (e == Marks(d, IfClosed(true)) && Markable(s.delegs[d]))
      || (e == Marks(d, Unreferenced(true)) && Markable(s.delegs[d]) && Referenced !in s.delegs[d].flags))
  }

  // A recall marks the delegation and is announced at once.
  lemma RecallMarks(es: seq<Event>, e: Event, d: nat)
    requires Enabled(Run(es), e) && Recalls(Run(es), e, d)
    ensures var s := Run(es + [e]); d in s.delegs && Return in s.delegs[d].flags && s.returnBit
  {
    hide Step;
    RunSnoc(es, e);
    RunCoherent(es);
    RunMarked(es);
    RecallRaises(Run(es), e, d);
    FlagLaw(Run(es), e, d, Return);
    StepBits(Run(es), e);
  }

  lemma RecallRaises(s: State, e: Event, d: nat)
    requires Recalls(s, e, d)
    ensures Raises(s, e, d, Return) && Announces(s, e)
  {
  }

  // The n-th event does not end the pursuit of d.
  predicate GoesOn(es: seq<Event>, n: nat, d: nat)
    requires n < |es|
  {
    var s := Run(es[..n]);
    Enabled(s, es[n]) && d in s.delegs ==> !Ends(s, es[n], d)
  }

  lemma {:induction false} PursuedSince(es: seq<Event>, k: nat, n: nat, d: nat)
    requires k < n <= |es| && Enabled(Run(es[..k]), es[k]) && Recalls(Run(es[..k]), es[k], d)
    requires forall j :: k < j < n ==> GoesOn(es, j, d)
    ensures d in Run(es[..n]).delegs && Pursued(Run(es[..n]).delegs[d])
    decreases n
  {
    hide Step, Ends, Recalls;
    assert es[..n] == es[..n-1] + [es[n-1]];
    if n == k + 1 {
      RecallMarks(es[..k], es[k], d);
    } else {
      PursuedSince(es, k, n - 1, d);
      assert GoesOn(es, n - 1, d);
      RunSnoc(es[..n-1], es[n-1]);
      if Enabled(Run(es[..n-1]), es[n-1]) { PursuitEndsIff(es[..n-1], es[n-1], d); }
    }
  }

  // After a recall, until one of the ends named by PursuitEndsIff: the return is under way or the
  // delegation is revoked, detached or about to lose its inode, or it is marked, or put off, and the
  // scanner has yet to come to it.
  lemma RecallIsHonoured(es: seq<Event>, k: nat, d: nat)
    requires k < |es| && Enabled(Run(es[..k]), es[k]) && Recalls(Run(es[..k]), es[k], d)
    requires forall j :: k < j < |es| ==> GoesOn(es, j, d)
    ensures var s := Run(es);
      && d in s.delegs
      && (|| Over(s.delegs[d])
          || (Return in s.delegs[d].flags && Heard(s, d))
          || (ReturnDelayed in s.delegs[d].flags && PutOffHeard(s, d)))
  {
    hide Step, Ends, Recalls, GoesOn, Heard, PutOffHeard;
    PursuedSince(es, k, |es|, d);
    assert es[..|es|] == es;
    var s := Run(es);
    if !Over(s.delegs[d]) {
      RunCoherent(es);
      assert d in s.list;
      if Return in s.delegs[d].flags { MarkIsHeard(es, d); } else { PutOffIsHeard(es, d); }
    }
  }

  // ------------------------------------------------ return on the last close

  // The step leaves d to be returned when its file is closed.
  predicate AwaitsClose(s: State, e: Event, d: nat) { d in s.delegs && Raises(s, e, d, ReturnIfClosed) }

  // The last close of the file, while d is usable.
  predicate LastClose(s: State, e: Event, d: nat) {
    e.Returner? && e.returner.OnClose? && e.returner.closed && Idling(s, e.returner.inode, d)
  }

  lemma AwaitGoesOn(s: State, e: Event, d: nat)
    requires Coherent(s) && Marked(s) && Enabled(s, e) && d in s.delegs
    requires AwaitsClose(s, e, d) || (ReturnIfClosed in s.delegs[d].flags && !LastClose(s, e, d))
    ensures d in Step(s, e).delegs && ReturnIfClosed in Step(s, e).delegs[d].flags
  {
    hide Coherent, Marked, Step, Raises, Idling;
    FlagLaw(s, e, d, ReturnIfClosed);
  }

  lemma LastCloseHappens(s: State, e: Event, d: nat)
    requires LastClose(s, e, d)
    ensures Enabled(s, e)
  {
  }

  lemma CloseReturns(s: State, e: Event, d: nat)
    requires Coherent(s) && Marked(s) && Enabled(s, e) && d in s.delegs
    requires ReturnIfClosed in s.delegs[d].flags && LastClose(s, e, d)
    ensures d in Step(s, e).delegs && Returning in Step(s, e).delegs[d].flags
  {
    hide Coherent, Marked, Step;
    FlagLaw(s, e, d, Returning);
  }

  lemma {:induction false} StillAwaits(es: seq<Event>, k: nat, n: nat, d: nat)
    requires k < n <= |es| && Enabled(Run(es[..k]), es[k]) && AwaitsClose(Run(es[..k]), es[k], d)
    requires forall j :: k < j < n ==> !(Enabled(Run(es[..j]), es[j]) && LastClose(Run(es[..j]), es[j], d))
    ensures d in Run(es[..n]).delegs && ReturnIfClosed in Run(es[..n]).delegs[d].flags
    decreases n
  {
    hide Coherent, Marked, Step, Enabled, Raises, LastClose, Run;
    assert es[..n] == es[..n-1] + [es[n-1]];
    var s, e := Run(es[..n-1]), es[n-1];
    RunSnoc(es[..n-1], e);
    RunCoherent(es[..n-1]);
    RunMarked(es[..n-1]);
    if n > k + 1 {
      StillAwaits(es, k, n - 1, d);
      assert !(Enabled(s, e) && LastClose(s, e, d));
    }
    if Enabled(s, e) { AwaitGoesOn(s, e, d); }
  }

  // A delegation that waits for the last close is returned by it.
  lemma LastCloseReturns(es: seq<Event>, k: nat, d: nat)
    requires k < |es| - 1 && Enabled(Run(es[..k]), es[k]) && AwaitsClose(Run(es[..k]), es[k], d)
    requires forall j :: k < j < |es| - 1 ==> !(Enabled(Run(es[..j]), es[j]) && LastClose(Run(es[..j]), es[j], d))
    requires LastClose(Run(es[..|es|-1]), es[|es|-1], d)
    ensures d in Run(es).delegs && Returning in Run(es).delegs[d].flags
  {
    hide Coherent, Marked, Step, Enabled, Raises, LastClose, Run;
    var n := |es| - 1;
    LastCloseHappens(Run(es[..n]), es[n], d);
    StillAwaits(es, k, n, d);
    assert es == es[..n] + [es[n]];
    RunSnoc(es[..n], es[n]);
    RunCoherent(es[..n]);
    RunMarked(es[..n]);
    CloseReturns(Run(es[..n]), es[n], d);
  }
}
