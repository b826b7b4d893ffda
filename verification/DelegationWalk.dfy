/**
 The scanner's walk over the delegations: where each of its steps takes it, and that it comes to an
 end when it is left alone.
 */
module DelegationWalk {
  import opened Wrappers
  import opened Delegation
  import opened DelegationCoherence
  import opened DelegationMarks
  import opened DelegationFlags
  import opened DelegationRecalls

  // The place holder after d was taken: the last delegation passed that could be held on to.
  function NewHolder(s: State, grabPrev: bool): Option<(nat, nat)>
    requires s.scan.Walking?
  {
    var p := s.scan.prev;
    if grabPrev && p.Some? && p.value in s.delegs && s.delegs[p.value].inode.Some?
    then Some((s.delegs[p.value].inode.value, p.value)) else s.scan.holder
  }

  // Passing d makes it a candidate for the place holder if it is usable and was not due.
  predicate Candidate(s: State, d: nat) {
    && d in s.delegs && InodeFreeing !in s.delegs[d].flags && !DueAt(s, d)
    && Revoked !in s.delegs[d].flags && Returning !in s.delegs[d].flags
  }

  // Where each step of the scanner takes it.
  ghost predicate WalkLaw(s: State, c: Scanner, t: State)
    requires CanScan(s, c)
  {
    match c
    case BeginScan => t.scan == (if s.returnBit then Walking(s.list, None, None, {}) else Idle)
    case VisitNext(_, grabPrev) =>
      var d := s.scan.ahead[0];
      t.scan ==
        if Taking(s, Scans(c)) then Returns(Some(d), NewHolder(s, grabPrev), s.scan.newer)
        else Walking(s.scan.ahead[1..], if Candidate(s, d) then Some(d) else s.scan.prev, s.scan.holder, s.scan.newer)
    case Resume(result) =>
      t.scan == if s.scan.deleg.Some? && !result.Done? then Idle else Walking(Restart(s), None, s.scan.holder, s.scan.newer)
    case EndScan => t.scan == Idle
    case BeginClear => t.scan == (if s.delayedBit then Clearing(s.list) else Idle)
    case ClearNext => t.scan == Clearing(s.scan.ahead[1..])
    case EndClear => t.scan == Idle
  }

  lemma VisitWalks(s: State, grab: bool, grabPrev: bool)
    requires Coherent(s) && Marked(s) && CanScan(s, VisitNext(grab, grabPrev))
    ensures WalkLaw(s, VisitNext(grab, grabPrev), Visit(s, grab, grabPrev))
  {
    var d := s.scan.ahead[0];
    hide Coherent, Marked, Visit;
    if Taking(s, Scans(VisitNext(grab, grabPrev))) {
      TakeWalks(s, grab, grabPrev, d);
    } else {
      VisitPasses(s, grab, grabPrev, d);
    }
  }

  lemma VisitPasses(s: State, grab: bool, grabPrev: bool, d: nat)
    requires CanScan(s, VisitNext(grab, grabPrev)) && d == s.scan.ahead[0]
    requires !Taking(s, Scans(VisitNext(grab, grabPrev)))
    ensures Visit(s, grab, grabPrev).scan ==
      Walking(s.scan.ahead[1..], if Candidate(s, d) then Some(d) else s.scan.prev, s.scan.holder, s.scan.newer)
  {
    hide Take, SetFlags, GrabFailed;
    MarkDropped(s, d);
    GrabFailedScan(SetFlags(s, d, {}, {Return}), d);
  }

  lemma MarkDropped(s: State, d: nat)
    requires d in s.delegs
    ensures SetFlags(s, d, {}, {Return}).scan == s.scan && d in SetFlags(s, d, {}, {Return}).delegs
  {
  }

  lemma GrabFailedScan(s: State, d: nat)
    requires d in s.delegs
    ensures GrabFailed(s, d).scan == s.scan
  {
  }

  lemma TakeWalks(s: State, grab: bool, grabPrev: bool, d: nat)
    requires Coherent(s) && Marked(s) && CanScan(s, VisitNext(grab, grabPrev)) && d == s.scan.ahead[0]
    requires Taking(s, Scans(VisitNext(grab, grabPrev)))
    ensures Visit(s, grab, grabPrev).scan == Returns(Some(d), NewHolder(s, grabPrev), s.scan.newer)
  {
    var t := SetFlags(s, d, {}, {Return});
    assert Visit(s, grab, grabPrev) == Take(t, s.delegs[d].inode.value, grabPrev);
    AheadIsListed(s, d);
    AttachedIsLinked(s, d);
    hide Coherent, Marked, StartReturn;
    GrabPrevKeeps(t, s.scan.prev, grabPrev, d);
  }

  // A listed delegation is the one its inode points to.
  lemma AttachedIsLinked(s: State, d: nat)
    requires Coherent(s) && d in s.list && d in s.delegs && s.delegs[d].inode.Some?
    ensures s.delegs[d].inode.value in s.ptr && s.ptr[s.delegs[d].inode.value] == d
  {
  }

  lemma GrabPrevKeeps(s: State, prev: Option<nat>, grabPrev: bool, d: nat)
    requires d in s.delegs
    ensures var u := GrabPrev(s, prev, grabPrev);
      && u.ptr == s.ptr && u.scan == s.scan && d in u.delegs && u.delegs[d].inode == s.delegs[d].inode
      && (Returning in u.delegs[d].flags <==> Returning in s.delegs[d].flags)
  {
  }

  lemma ResumeWalks(s: State, result: Result)
    requires CanScan(s, Resume(result))
    ensures WalkLaw(s, Resume(result), ScanResume(s, result))
  {
    if s.scan.deleg.Some? { FinishKeeps(s, s.scan.deleg.value, result); }
  }

  lemma FinishKeeps(s: State, d: nat, result: Result)
    requires d in s.delegs && s.delegs[d].returners > 0
    ensures Finish(s, d, result).list == s.list && Finish(s, d, result).ptr == s.ptr && Finish(s, d, result).scan == s.scan
  {
  }

  // Over every run each step of the scanner takes it where it has to go.
  lemma ScannerGoes(es: seq<Event>, c: Scanner)
    requires Enabled(Run(es), Scans(c))
    ensures WalkLaw(Run(es), c, Run(es + [Scans(c)]))
  {
    RunSnoc(es, Scans(c));
    RunCoherent(es);
    RunMarked(es);
    StepWalks(Run(es), c);
  }

  lemma StepWalks(s: State, c: Scanner)
    requires Coherent(s) && Marked(s) && CanScan(s, c)
    ensures WalkLaw(s, c, ScanStep(s, c))
  {
    hide Coherent, Marked, Visit, ScanResume;
    match c
    case VisitNext(grab, grabPrev) => VisitWalks(s, grab, grabPrev);
    case Resume(result) => ResumeWalks(s, result);
    case ClearNext => ClearWalks(s);
    case BeginScan =>
    case EndScan =>
    case BeginClear =>
    case EndClear =>
  }

  lemma ClearWalks(s: State)
    requires CanScan(s, ClearNext)
    ensures WalkLaw(s, ClearNext, ClearVisit(s))
  {
  }

  // ------------------------------------------------ it comes to an end

  // The delegations on the list that are due.
  ghost function Dues(s: State): set<nat> { set d | d in s.list && DueAt(s, d) }

  function Rank(w: Scan): nat {
    match w
    case Idle => 0
    case Walking(_, _, _, _) => 1
    case Returns(_, _, _) => 2
    case Clearing(_) => 1
  }

  function Ahead(w: Scan): nat { if w.Walking? || w.Clearing? then |w.ahead| else 0 }

  // Fewer delegations due, or as many and further on.
  ghost predicate Nearer(s: State, t: State) {
    || |Dues(t)| < |Dues(s)|
    || (|Dues(t)| == |Dues(s)| && Rank(t.scan) < Rank(s.scan))
    || (|Dues(t)| == |Dues(s)| && Rank(t.scan) == Rank(s.scan) && Ahead(t.scan) < Ahead(s.scan))
  }

  // The steps of a scan, with returns that succeed.
  predicate Proceeds(c: Scanner) { c.VisitNext? || c == Resume(Done) || c.EndScan? || c.EndClear? }

  lemma SameList(s: State, c: Scanner)
    requires CanScan(s, c)
    ensures ScanStep(s, c).list == s.list
  {
    match c
    case VisitNext(grab, grabPrev) => VisitList(s, grab, grabPrev);
    case Resume(result) => if s.scan.deleg.Some? { FinishKeeps(s, s.scan.deleg.value, result); }
    case _ =>
  }

  lemma VisitList(s: State, grab: bool, grabPrev: bool)
    requires CanScan(s, VisitNext(grab, grabPrev))
    ensures Visit(s, grab, grabPrev).list == s.list
  {
    var d := s.scan.ahead[0];
    var t := SetFlags(s, d, {}, {Return});
    GrabPrevList(t, s.scan.prev, grabPrev);
  }

  lemma GrabPrevList(s: State, prev: Option<nat>, grabPrev: bool)
    ensures GrabPrev(s, prev, grabPrev).list == s.list
  {
  }

  // No step of a scan makes another delegation due.
  lemma NothingNewDue(s: State, c: Scanner, d: nat)
    requires Coherent(s) && Marked(s) && CanScan(s, c) && Proceeds(c) && d in s.delegs
    ensures DueAt(ScanStep(s, c), d) ==> DueAt(s, d)
  {
    hide Coherent, Marked, Step, ScanStep, Raises, Lowers;
    var e := Scans(c);
    StepIsScan(s, c);
    FlagLaw(s, e, d, Return);
    FlagLaw(s, e, d, Returning);
    FlagLaw(s, e, d, ReturnDelayed);
    FlagLaw(s, e, d, Revoked);
    FlagLaw(s, e, d, InodeFreeing);
    NotMade(s, c, d);
  }

  lemma StepIsScan(s: State, c: Scanner)
    requires CanScan(s, c)
    ensures Step(s, Scans(c)) == ScanStep(s, c)
  {
    hide ScanStep;
  }

  // Such steps mark nothing, and give up nothing that keeps a delegation from being due, other than a
  // put-off mark of the one whose return starts.
  lemma NotMade(s: State, c: Scanner, d: nat)
    requires Proceeds(c) && d in s.delegs
    ensures !Raises(s, Scans(c), d, Return) && !Lowers(s, Scans(c), d, Returning) && !Lowers(s, Scans(c), d, Revoked)
    ensures Lowers(s, Scans(c), d, ReturnDelayed) ==> Raises(s, Scans(c), d, Returning)
    ensures !Lowers(s, Scans(c), d, InodeFreeing)
  {
  }

  lemma TakenIsNotDue(s: State, c: Scanner, d: nat)
    requires Coherent(s) && Marked(s) && CanScan(s, c) && Taking(s, Scans(c)) && d == s.scan.ahead[0]
    ensures d in s.list && DueAt(s, d) && !DueAt(ScanStep(s, c), d)
  {
    hide Coherent, Marked, Step, ScanStep, Raises, Lowers;
    AheadIsListed(s, d);
    StepIsScan(s, c);
    FlagLaw(s, Scans(c), d, Returning);
    TakingStarts(s, c, d);
  }

  lemma TakingStarts(s: State, c: Scanner, d: nat)
    requires Taking(s, Scans(c)) && d == s.scan.ahead[0]
    ensures Raises(s, Scans(c), d, Returning)
  {
  }

  lemma AheadIsListed(s: State, d: nat)
    requires Marked(s) && s.scan.Walking? && d in s.scan.ahead
    ensures d in s.list
  {
  }

  lemma DuesShrink(s: State, c: Scanner)
    requires Coherent(s) && Marked(s) && CanScan(s, c) && Proceeds(c)
    ensures Dues(ScanStep(s, c)) <= Dues(s)
  {
    hide Marked, ScanStep, DueAt;
    SameList(s, c);
    forall d | d in s.list && DueAt(ScanStep(s, c), d) ensures DueAt(s, d) {
      ListedIsKnown(s, d);
      NothingNewDue(s, c, d);
    }
  }

  lemma ListedIsKnown(s: State, d: nat)
    requires Coherent(s) && d in s.list
    ensures d in s.delegs
  {
  }

  lemma Fewer(a: set<nat>, b: set<nat>, d: nat)
    requires a <= b
    ensures |a| <= |b| && (d in b && d !in a ==> |a| < |b|)
  {
    assert b == a + (b - a);
    if d in b && d !in a { assert d in b - a; }
  }

  // Every step of a scan that is left alone, with returns that succeed, brings its end nearer.
  lemma ScanAdvances(es: seq<Event>, c: Scanner)
    requires Enabled(Run(es), Scans(c)) && Proceeds(c)
    ensures Nearer(Run(es), Run(es + [Scans(c)]))
  {
    RunSnoc(es, Scans(c));
    RunCoherent(es);
    RunMarked(es);
    StepNearer(Run(es), c);
  }

  lemma StepNearer(s: State, c: Scanner)
    requires Coherent(s) && Marked(s) && CanScan(s, c) && Proceeds(c)
    ensures Nearer(s, ScanStep(s, c))
  {
    hide Coherent, Marked, ScanStep, Dues;
    var t := ScanStep(s, c);
    DuesShrink(s, c);
    StepWalks(s, c);
    if Taking(s, Scans(c)) {
      var d := s.scan.ahead[0];
      TakenIsNotDue(s, c, d);
      InDues(s, t, d);
      Fewer(Dues(t), Dues(s), d);
    } else {
      Fewer(Dues(t), Dues(s), 0);
    }
  }

  lemma InDues(s: State, t: State, d: nat)
    requires d in s.list && DueAt(s, d) && !DueAt(t, d)
    ensures d in Dues(s) && d !in Dues(t)
  {
  }

  // A scanner on its walk always has a next step.
  lemma ScannerCanGoOn(es: seq<Event>) returns (c: Scanner)
    requires Run(es).scan.Walking? || Run(es).scan.Clearing?
    ensures Enabled(Run(es), Scans(c))
  {
    var s := Run(es);
    RunCoherent(es);
    RunMarked(es);
    if s.scan.Clearing? {
      c := if s.scan.ahead == [] then EndClear else ClearNext;
      if s.scan.ahead != [] { ClearAheadKnown(s); }
    } else if s.scan.ahead == [] {
      c := EndScan;
    } else {
      c := VisitNext(true, true);
      AheadIsListed(s, s.scan.ahead[0]);
      ListedIsKnown(s, s.scan.ahead[0]);
    }
  }

  lemma ClearAheadKnown(s: State)
    requires Coherent(s) && Marked(s) && s.scan.Clearing? && s.scan.ahead != []
    ensures s.scan.ahead[0] in s.delegs
  {
    assert s.scan.ahead[0] in s.scan.ahead;
  }
}
