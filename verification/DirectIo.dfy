/**
 Byte accounting of a direct I/O request.  Its parts complete, fail, are cut short at the end
 of the file, are sent again or are dropped, in any order; what is reported must be the length
 of the good prefix that a walk over the parts in file order would find.
 */
module DirectIo {
  const TWO64 := 0x1_0000_0000_0000_0000

  // Zero or a negative error code.
  type Errno = n: int | n <= 0

  const EIO: Errno := -5

  const EAGAIN: Errno := -11

  // A finished transfer.  failed and eof are the NFS_IOHDR_ERROR and NFS_IOHDR_EOF bits.
  datatype Header = Header(ioStart: nat, good: nat, failed: bool, eof: bool, error: Errno)

  datatype Event =
    | Completed(hdr: Header)
    | Redone                  // a transfer that was put back to be sent again
    | Truncated(offset: nat)  // a request that is given up
    | CommitFailed(status: Errno)  // a commit came back with an error; its pages are given up
    | SendFailed(code: Errno)      // requests could not be sent again; given up, or on -EAGAIN put off

  datatype Req = Req(ioStart: nat, count: int, maxCount: int, error: Errno)

  function Fresh(ioStart: nat, length: nat): Req { Req(ioStart, 0, length, 0) }

  function Min(a: int, b: int): int { if a < b then a else b }

  function Max(a: int, b: int): int { if a < b then b else a }

  // Where a transfer ended, and where a dropped request began, from the start of the whole request.
  function Length(ioStart: nat, hdr: Header): nat {
    if hdr.ioStart + hdr.good > ioStart then hdr.ioStart + hdr.good - ioStart else 0
  }

  function ReqStart(ioStart: nat, offset: nat): nat { (offset - ioStart) % TWO64 }

  // nfs_direct_handle_truncated
  function HandleTruncated(r: Req, hdr: Header, length: nat): Req {
    if !hdr.failed && !hdr.eof then r else
    var s := if r.maxCount >= length
      then r.(maxCount := length, count := if r.count > length then length else r.count)
      else r;
    if hdr.failed && s.error == 0 then s.(error := hdr.error) else s
  }

  // nfs_direct_count_bytes
  function CountBytes(r: Req, hdr: Header): Req {
    var length := Length(r.ioStart, hdr);
    var s := HandleTruncated(r, hdr, length);
    var good := if length > s.maxCount then s.maxCount else length;
    if s.count < good then s.(count := good) else s
  }

  // nfs_direct_truncate_request
  function Truncate(r: Req, offset: nat): Req {
    var start := ReqStart(r.ioStart, offset);
    var s := if start < r.maxCount then r.(maxCount := start) else r;
    if start < s.count then s.(count := start) else s
  }

  function Step(r: Req, e: Event): Req {
    match e
    case Completed(hdr) => CountBytes(r, hdr)
    case Redone => r
    case Truncated(offset) => Truncate(r, offset)
    case CommitFailed(status) => if status < 0 then r.(error := status) else r
    case SendFailed(code) => if r.error < 0 || code == EAGAIN then r else r.(error := if code == 0 then EIO else code)
  }

  function Run(ioStart: nat, length: nat, es: seq<Event>): Req {
    if es == [] then Fresh(ioStart, length) else Step(Run(ioStart, length, es[..|es|-1]), es[|es|-1])
  }

  // ------------------------------------------------ what the counters mean

  function End(ioStart: nat, e: Event): nat {
    if e.Completed? then Length(ioStart, e.hdr) else 0
  }

  predicate Stops(e: Event) { e.Truncated? || (e.Completed? && (e.hdr.failed || e.hdr.eof)) }

  function StopAt(ioStart: nat, e: Event): nat {
    if e.Truncated? then ReqStart(ioStart, e.offset) else End(ioStart, e)
  }

  function Furthest(ioStart: nat, es: seq<Event>): nat {
    if es == [] then 0 else Max(Furthest(ioStart, es[..|es|-1]), End(ioStart, es[|es|-1]))
  }

  function Limit(ioStart: nat, length: nat, es: seq<Event>): nat {
    if es == [] then length else
      var m := Limit(ioStart, length, es[..|es|-1]);
      if Stops(es[|es|-1]) then Min(m, StopAt(ioStart, es[|es|-1])) else m
  }

  // One event, on a request whose counters mean that already.
  lemma StepMeaning(r: Req, e: Event, furthest: nat, limit: nat)
    requires r.maxCount == limit && r.count == Min(furthest, limit)
    ensures var s := Step(r, e);
      var limit' := if Stops(e) then Min(limit, StopAt(r.ioStart, e)) else limit;
      && s.ioStart == r.ioStart && s.maxCount == limit'
      && s.count == Min(Max(furthest, End(r.ioStart, e)), limit')
  {
  }

  lemma {:induction false} RunMeaning(ioStart: nat, length: nat, es: seq<Event>)
    ensures var r := Run(ioStart, length, es);
      && r.ioStart == ioStart && r.maxCount == Limit(ioStart, length, es)
      && r.count == Min(Furthest(ioStart, es), Limit(ioStart, length, es))
  {
    if es != [] {
      var before := es[..|es|-1];
      RunMeaning(ioStart, length, before);
      StepMeaning(Run(ioStart, length, before), es[|es|-1], Furthest(ioStart, before), Limit(ioStart, length, before));
    }
  }

  lemma {:induction false} FurthestIs(ioStart: nat, es: seq<Event>)
    ensures forall e :: e in es ==> End(ioStart, e) <= Furthest(ioStart, es)
    ensures Furthest(ioStart, es) == 0 || exists e :: e in es && End(ioStart, e) == Furthest(ioStart, es)
  {
    if es != [] {
      FurthestIs(ioStart, es[..|es|-1]);
      assert es == es[..|es|-1] + [es[|es|-1]];
      assert es[|es|-1] in es;
    }
  }

  lemma {:induction false} LimitIs(ioStart: nat, length: nat, es: seq<Event>)
    ensures var m := Limit(ioStart, length, es);
      && m <= length
      && (forall e :: e in es && Stops(e) ==> m <= StopAt(ioStart, e))
      && (m == length || exists e :: e in es && Stops(e) && StopAt(ioStart, e) == m)
  {
    if es != [] {
      LimitIs(ioStart, length, es[..|es|-1]);
      assert es == es[..|es|-1] + [es[|es|-1]];
      assert es[|es|-1] in es;
    }
  }

  // The result depends only on which events happened, not on their order or repetition.
  lemma OrderIndependent(ioStart: nat, length: nat, es: seq<Event>, fs: seq<Event>)
    requires forall e :: e in es <==> e in fs
    ensures Run(ioStart, length, es).count == Run(ioStart, length, fs).count
    ensures Run(ioStart, length, es).maxCount == Run(ioStart, length, fs).maxCount
  {
    RunMeaning(ioStart, length, es);
    RunMeaning(ioStart, length, fs);
    FurthestIs(ioStart, es);
    FurthestIs(ioStart, fs);
    LimitIs(ioStart, length, es);
    LimitIs(ioStart, length, fs);
  }

  // No byte that failed, lay past the end of file or was given up is counted, and nothing
  // beyond the furthest transfer; and the count is the largest number of which that is true.
  lemma CountIsSound(ioStart: nat, length: nat, es: seq<Event>, n: nat)
    ensures n <= Run(ioStart, length, es).count <==>
      && n <= length
      && (forall e :: e in es && Stops(e) ==> n <= StopAt(ioStart, e))
      && (n == 0 || exists e :: e in es && n <= End(ioStart, e))
  {
    RunMeaning(ioStart, length, es);
    FurthestIs(ioStart, es);
    LimitIs(ioStart, length, es);
  }

  // ------------------------------------------------ the walk in file order

  // Consecutive parts of the request.  A part that was sent again may have completed whole earlier.
  datatype Outcome = Whole | Short(good: nat, failed: bool, error: Errno) | Dropped

  datatype Part = Part(length: nat, earlier: bool, outcome: Outcome)

  predicate Ok(p: Part) { p.outcome.Short? ==> p.outcome.good <= p.length }

  function Total(ps: seq<Part>): nat { if ps == [] then 0 else ps[0].length + Total(ps[1..]) }

  // The good prefix found by looking at the parts in order and stopping at the first bad one.
  function GoodPrefix(ps: seq<Part>): nat {
    if ps == [] then 0 else
    match ps[0].outcome
    case Whole => ps[0].length + GoodPrefix(ps[1..])
    case Short(good, _, _) => good
    case Dropped => 0
  }

  function WholeEvent(at: nat, length: nat): Event { Completed(Header(at, length, false, false, 0)) }

  function PartEvents(at: nat, p: Part): seq<Event> {
    var last := match p.outcome
      case Whole => WholeEvent(at, p.length)
      case Short(good, failed, error) => Completed(Header(at, good, failed, !failed, error))
      case Dropped => Truncated(at);
    if p.earlier then [WholeEvent(at, p.length), last] else [last]
  }

  function Events(at: nat, ps: seq<Part>): seq<Event>
    decreases |ps|
  {
    if ps == [] then [] else PartEvents(at, ps[0]) + Events(at + ps[0].length, ps[1..])
  }

  // Facts about the events of parts that begin at base within the request.
  lemma {:induction false} EventsStop(ioStart: nat, base: nat, ps: seq<Part>)
    requires base + Total(ps) < TWO64 && forall p :: p in ps ==> Ok(p)
    ensures forall e :: e in Events(ioStart + base, ps) && Stops(e) ==> base + GoodPrefix(ps) <= StopAt(ioStart, e)
    ensures GoodPrefix(ps) <= Total(ps)
    ensures GoodPrefix(ps) == Total(ps) ||
      exists e :: e in Events(ioStart + base, ps) && Stops(e) && StopAt(ioStart, e) == base + GoodPrefix(ps)
    decreases |ps|
  {
    if ps != [] {
      var rest := Events(ioStart + base + ps[0].length, ps[1..]);
      assert ps[0] in ps && forall p :: p in ps[1..] ==> p in ps;
      EventsStop(ioStart, base + ps[0].length, ps[1..]);
      PartStops(ioStart, base, ps[0]);
      assert Events(ioStart + base, ps) == PartEvents(ioStart + base, ps[0]) + rest;
      var e := PartEvents(ioStart + base, ps[0])[|PartEvents(ioStart + base, ps[0])|-1];
      assert e in Events(ioStart + base, ps);
    }
  }

  lemma PartStops(ioStart: nat, base: nat, p: Part)
    requires base + p.length < TWO64 && Ok(p)
    ensures var es := PartEvents(ioStart + base, p);
      && (forall e :: e in es && Stops(e) ==>
           (e == es[|es|-1] && !p.outcome.Whole?
            && StopAt(ioStart, e) == base + (if p.outcome.Short? then p.outcome.good else 0)))
      && (!p.outcome.Whole? ==> Stops(es[|es|-1]))
  {
    assert (base as int) % TWO64 == base;
  }

  lemma {:induction false} EventsReach(ioStart: nat, base: nat, ps: seq<Part>) returns (e: Event)
    requires GoodPrefix(ps) > 0
    ensures e in Events(ioStart + base, ps) && base + GoodPrefix(ps) <= End(ioStart, e)
    decreases |ps|
  {
    var es := PartEvents(ioStart + base, ps[0]);
    if ps[0].outcome.Whole? && GoodPrefix(ps[1..]) > 0 {
      e := EventsReach(ioStart, base + ps[0].length, ps[1..]);
    } else {
      e := es[|es|-1];
      assert e in es;
    }
  }

  // es are the events of the parts, in any order and multiplicity, among others that count no bytes.
  ghost predicate ComesFrom(ioStart: nat, ps: seq<Part>, es: seq<Event>) {
    && (forall e :: e in Events(ioStart, ps) ==> e in es)
    && (forall e :: e in es && (e.Completed? || e.Truncated?) ==> e in Events(ioStart, ps))
  }

  lemma CountAtLeast(ioStart: nat, ps: seq<Part>, es: seq<Event>)
    requires Total(ps) < TWO64 && (forall p :: p in ps ==> Ok(p)) && ComesFrom(ioStart, ps, es)
    ensures GoodPrefix(ps) <= Run(ioStart, Total(ps), es).count
  {
    hide PartEvents;
    assert Events(ioStart + 0, ps) == Events(ioStart, ps);
    RunMeaning(ioStart, Total(ps), es);
    assert GoodPrefix(ps) <= Limit(ioStart, Total(ps), es) by {
      EventsStop(ioStart, 0, ps);
      LimitIs(ioStart, Total(ps), es);
    }
    assert GoodPrefix(ps) <= Furthest(ioStart, es) by {
      if GoodPrefix(ps) > 0 {
        var e := EventsReach(ioStart, 0, ps);
        FurthestIs(ioStart, es);
      }
    }
  }

  lemma CountAtMost(ioStart: nat, ps: seq<Part>, es: seq<Event>)
    requires Total(ps) < TWO64 && (forall p :: p in ps ==> Ok(p)) && ComesFrom(ioStart, ps, es)
    ensures Run(ioStart, Total(ps), es).count <= GoodPrefix(ps)
  {
    assert Events(ioStart + 0, ps) == Events(ioStart, ps);
    EventsStop(ioStart, 0, ps);
    RunMeaning(ioStart, Total(ps), es);
    LimitIs(ioStart, Total(ps), es);
  }

  // Whatever order the parts come back in, however often a transfer is redone and whatever commits
  // and resends fail besides, the count is the good prefix of the walk in file order.
  lemma CountIsGoodPrefix(ioStart: nat, ps: seq<Part>, es: seq<Event>)
    requires Total(ps) < TWO64 && (forall p :: p in ps ==> Ok(p)) && ComesFrom(ioStart, ps, es)
    ensures Run(ioStart, Total(ps), es).count == GoodPrefix(ps)
  {
    CountAtLeast(ioStart, ps, es);
    CountAtMost(ioStart, ps, es);
  }

  // ------------------------------------------------ errors

  // Errors that count only while there is none yet, and those of failed commits, which always do.
  predicate Errs(e: Event) { (e.Completed? && e.hdr.failed && e.hdr.error != 0) || (e.SendFailed? && e.code != EAGAIN) }

  predicate Commits(e: Event) { e.CommitFailed? && e.status != 0 }

  function ErrorOf(e: Event): Errno {
    match e
    case Completed(hdr) => hdr.error
    case SendFailed(code) => if code == 0 then EIO else code
    case CommitFailed(status) => status
    case _ => 0
  }

  function FirstError(es: seq<Event>): Errno {
    if es == [] then 0 else if Errs(es[0]) then ErrorOf(es[0]) else FirstError(es[1..])
  }

  function LastCommit(es: seq<Event>): Errno {
    if es == [] then 0 else if Commits(es[|es|-1]) then es[|es|-1].status else LastCommit(es[..|es|-1])
  }

  lemma {:induction false} FirstErrorSnoc(es: seq<Event>, e: Event)
    ensures FirstError(es + [e]) ==
      if FirstError(es) != 0 then FirstError(es) else if Errs(e) then ErrorOf(e) else 0
  {
    if es == [] {
      assert [e][1..] == [];
      assert FirstError([e]) == if Errs(e) then ErrorOf(e) else FirstError([]);
    } else {
      assert (es + [e])[1..] == es[1..] + [e];
      FirstErrorSnoc(es[1..], e);
    }
  }

  // The error kept is the last failed commit's if there is one, otherwise the first to arrive.
  lemma {:induction false} ErrorKept(ioStart: nat, length: nat, es: seq<Event>)
    ensures Run(ioStart, length, es).error == if LastCommit(es) != 0 then LastCommit(es) else FirstError(es)
  {
    if es != [] {
      ErrorKept(ioStart, length, es[..|es|-1]);
      FirstErrorSnoc(es[..|es|-1], es[|es|-1]);
      assert es == es[..|es|-1] + [es[|es|-1]];
    }
  }

  lemma {:induction false} FirstErrorIn(es: seq<Event>)
    ensures FirstError(es) != 0 <==> exists e :: e in es && Errs(e)
    ensures FirstError(es) == 0 || exists e :: e in es && Errs(e) && ErrorOf(e) == FirstError(es)
  {
    if es != [] {
      FirstErrorIn(es[1..]);
      assert es[0] in es && forall e :: e in es[1..] ==> e in es;
    }
  }

  lemma {:induction false} LastCommitIn(es: seq<Event>)
    ensures LastCommit(es) != 0 <==> exists e :: e in es && Commits(e)
    ensures LastCommit(es) == 0 || exists e :: e in es && Commits(e) && e.status == LastCommit(es)
  {
    if es != [] {
      LastCommitIn(es[..|es|-1]);
      assert es[|es|-1] in es && es == es[..|es|-1] + [es[|es|-1]];
    }
  }

  // nfs_direct_wait: the count if there is one, otherwise the error.
  function Reported(r: Req): int { if r.count != 0 then r.count else r.error }

  // The errors among which the order decides all agree.
  ghost predicate Agree(es: seq<Event>) {
    if exists e :: e in es && Commits(e)
    then forall e, f :: e in es && f in es && Commits(e) && Commits(f) ==> e.status == f.status
    else forall e, f :: e in es && f in es && Errs(e) && Errs(f) ==> ErrorOf(e) == ErrorOf(f)
  }

  lemma AgreeingErrors(ioStart: nat, length: nat, es: seq<Event>, fs: seq<Event>)
    requires (forall e :: e in es <==> e in fs) && Agree(es)
    ensures Run(ioStart, length, es).error == Run(ioStart, length, fs).error
  {
    ErrorKept(ioStart, length, es);
    ErrorKept(ioStart, length, fs);
    FirstErrorIn(es);
    FirstErrorIn(fs);
    LastCommitIn(es);
    LastCommitIn(fs);
  }

  // Something was transferred, or the deciding errors agree: the caller's result does not depend
  // on order or repetition.
  lemma ReportedIsOrderIndependent(ioStart: nat, length: nat, es: seq<Event>, fs: seq<Event>)
    requires forall e :: e in es <==> e in fs
    requires Run(ioStart, length, es).count != 0 || Agree(es)
    ensures Reported(Run(ioStart, length, es)) == Reported(Run(ioStart, length, fs))
  {
    OrderIndependent(ioStart, length, es, fs);
    if Run(ioStart, length, es).count == 0 { AgreeingErrors(ioStart, length, es, fs); }
  }

  // Taking the k-th event out and putting it somewhere else.
  lemma Moved(es: seq<Event>, k: nat)
    requires k < |es|
    ensures multiset([es[k]] + es[..k] + es[k+1..]) == multiset(es)
    ensures multiset(es[..k] + es[k+1..] + [es[k]]) == multiset(es)
  {
    assert es == es[..k] + [es[k]] + es[k+1..];
  }

  lemma SameElements(es: seq<Event>, fs: seq<Event>)
    requires multiset(es) == multiset(fs)
    ensures forall e :: e in es <==> e in fs
  {
    forall e ensures e in es <==> e in fs {
      assert e in es <==> e in multiset(es);
      assert e in fs <==> e in multiset(fs);
    }
  }

  // Two commits that failed differently: the order of the commits decides.
  lemma CommitOrderDecides(ioStart: nat, length: nat, es: seq<Event>, i: nat, j: nat) returns (fs: seq<Event>)
    requires i < |es| && j < |es| && Commits(es[i]) && Commits(es[j]) && es[i].status != es[j].status
    ensures multiset(fs) == multiset(es) && Run(ioStart, length, es).error != Run(ioStart, length, fs).error
  {
    var k := if LastCommit(es) != es[i].status then i else j;
    fs := es[..k] + es[k+1..] + [es[k]];
    Moved(es, k);
    LastCommitIn(es);
    assert es[k] in es && fs[|fs|-1] == es[k];
    ErrorKept(ioStart, length, es);
    ErrorKept(ioStart, length, fs);
  }

  // No commit failed and two other errors differ: the order of those decides.
  lemma FirstOrderDecides(ioStart: nat, length: nat, es: seq<Event>, i: nat, j: nat) returns (fs: seq<Event>)
    requires i < |es| && j < |es| && Errs(es[i]) && Errs(es[j]) && ErrorOf(es[i]) != ErrorOf(es[j])
    requires forall e :: e in es ==> !Commits(e)
    ensures multiset(fs) == multiset(es) && Run(ioStart, length, es).error != Run(ioStart, length, fs).error
  {
    var k := if FirstError(es) != ErrorOf(es[i]) then i else j;
    fs := [es[k]] + es[..k] + es[k+1..];
    Moved(es, k);
    SameElements(es, fs);
    LastCommitIn(es);
    LastCommitIn(fs);
    ErrorKept(ioStart, length, es);
    ErrorKept(ioStart, length, fs);
  }

  // Otherwise some other order of the same events reports a different error.
  lemma ErrorDependsOnOrder(ioStart: nat, length: nat, es: seq<Event>) returns (fs: seq<Event>)
    requires Run(ioStart, length, es).count == 0 && !Agree(es)
    ensures multiset(fs) == multiset(es)
    ensures Reported(Run(ioStart, length, es)) != Reported(Run(ioStart, length, fs))
  {
    if exists e :: e in es && Commits(e) {
      var i, j :| 0 <= i < |es| && 0 <= j < |es| && Commits(es[i]) && Commits(es[j]) && es[i].status != es[j].status;
      fs := CommitOrderDecides(ioStart, length, es, i, j);
    } else {
      var i, j :| 0 <= i < |es| && 0 <= j < |es| && Errs(es[i]) && Errs(es[j]) && ErrorOf(es[i]) != ErrorOf(es[j]);
      fs := FirstOrderDecides(ioStart, length, es, i, j);
    }
    SameElements(es, fs);
    OrderIndependent(ioStart, length, es, fs);
  }

  // Both together: the result is the same in every order exactly when something was transferred
  // or the deciding errors agree.
  lemma ReportedIffAgree(ioStart: nat, length: nat, es: seq<Event>)
    ensures (forall fs :: multiset(fs) == multiset(es) ==>
              Reported(Run(ioStart, length, fs)) == Reported(Run(ioStart, length, es)))
       <==> Run(ioStart, length, es).count != 0 || Agree(es)
  {
    if Run(ioStart, length, es).count != 0 || Agree(es) {
      forall fs | multiset(fs) == multiset(es)
        ensures Reported(Run(ioStart, length, fs)) == Reported(Run(ioStart, length, es))
      {
        SameElements(es, fs);
        ReportedIsOrderIndependent(ioStart, length, es, fs);
      }
    } else {
      var fs := ErrorDependsOnOrder(ioStart, length, es);
    }
  }

  // ------------------------------------------------ on fields updated in place

  // The completion verdicts of a write.
  datatype Phase = Clear | DoCommit | ReschedWrites | Done

  function TruncateAll(r: Req, offsets: seq<nat>): Req
    decreases |offsets|
  {
    if offsets == [] then r else TruncateAll(Truncate(r, offsets[0]), offsets[1..])
  }

  // Dropping a list of requests is the run of their events.
  lemma {:induction false} TruncateAllRuns(ioStart: nat, length: nat, es: seq<Event>, offsets: seq<nat>)
    ensures TruncateAll(Run(ioStart, length, es), offsets) ==
      Run(ioStart, length, es + seq(|offsets|, i requires 0 <= i < |offsets| => Truncated(offsets[i])))
    decreases |offsets|
  {
    var cuts := seq(|offsets|, i requires 0 <= i < |offsets| => Truncated(offsets[i]));
    if offsets == [] {
      assert es + cuts == es;
    } else {
      var es' := es + [Truncated(offsets[0])];
      assert es'[..|es'|-1] == es;
      TruncateAllRuns(ioStart, length, es', offsets[1..]);
      assert es' + seq(|offsets|-1, i requires 0 <= i < |offsets|-1 => Truncated(offsets[1..][i])) == es + cuts;
    }
  }

  // A failed commit is the run of its own event and the truncations of its pages.
  lemma FailedCommitRuns(ioStart: nat, length: nat, es: seq<Event>, status: Errno, offsets: seq<nat>)
    requires status < 0
    ensures TruncateAll(Run(ioStart, length, es).(error := status), offsets) ==
      Run(ioStart, length,
          es + [CommitFailed(status)] + seq(|offsets|, i requires 0 <= i < |offsets| => Truncated(offsets[i])))
  {
    assert (es + [CommitFailed(status)])[..|es|] == es;
    TruncateAllRuns(ioStart, length, es + [CommitFailed(status)], offsets);
  }

  // A request on a commit list, and whether the server's write verifier still matches.
  datatype Page = Page(offset: nat, matches: bool)

  function Offsets(pages: seq<Page>): seq<nat> {
    seq(|pages|, i requires 0 <= i < |pages| => pages[i].offset)
  }

  function Mismatched(pages: seq<Page>): seq<Page> {
    if pages == [] then []
    else (if pages[0].matches then [] else [pages[0]]) + Mismatched(pages[1..])
  }

  class DirectReq {
    const ioStart: nat
    var count: int
    var maxCount: int
    var error: Errno
    var flags: Phase

    function Value(): Req
      reads this
    {
      Req(ioStart, count, maxCount, error)
    }

    constructor (ioStart: nat, length: nat)
      ensures Value() == Run(ioStart, length, []) && flags == Clear
    {
      this.ioStart, count, maxCount, error, flags := ioStart, 0, length, 0, Clear;
    }

    method HandleTruncatedIo(hdr: Header, length: nat)
      modifies this`count, this`maxCount, this`error
      ensures Value() == HandleTruncated(old(Value()), hdr, length)
    {
      if !(hdr.failed || hdr.eof) { return; }
      if maxCount >= length {
        maxCount := length;
        if count > length { count := length; }
      }
      if hdr.failed && error == 0 { error := hdr.error; }
    }

    method CountBytesIo(hdr: Header)
      modifies this`count, this`maxCount, this`error
      ensures Value() == CountBytes(old(Value()), hdr)
    {
      var end := hdr.ioStart + hdr.good;
      var length: int := 0;
      if end > ioStart { length := end - ioStart; }
      HandleTruncatedIo(hdr, length);
      if length > maxCount { length := maxCount; }
      if count < length { count := length; }
    }

    method TruncateRequest(offset: nat)
      modifies this`count, this`maxCount
      ensures Value() == Truncate(old(Value()), offset)
    {
      var start := ReqStart(ioStart, offset);
      if start < maxCount { maxCount := start; }
      if start < count { count := start; }
    }

    // nfs_direct_write_clear_reqs, and the second loop of nfs_direct_write_reschedule after a hard error
    method ClearRequests(offsets: seq<nat>)
      modifies this`count, this`maxCount
      ensures Value() == TruncateAll(old(Value()), offsets)
    {
      var rest := offsets;
      while rest != []
        invariant TruncateAll(Value(), rest) == TruncateAll(old(Value()), offsets)
        decreases |rest|
      {
        TruncateRequest(rest[0]);
        rest := rest[1..];
      }
    }

    // One page of nfs_direct_commit_complete.
    method SettlePage(failed: bool, page: Page) returns (again: bool)
      modifies this`count, this`maxCount, this`flags
      ensures again == (!failed && !page.matches)
      ensures Value() == if failed then Truncate(old(Value()), page.offset) else old(Value())
      ensures flags == if again && old(flags) == Clear then ReschedWrites else old(flags)
    {
      again := !failed && !page.matches;
      if failed {
        TruncateRequest(page.offset);
      } else if again && flags == Clear {
        flags := ReschedWrites;
      }
    }

    // nfs_direct_commit_complete: a failed commit drops every page, a stale verifier sends it again.
    method CommitComplete(status: Errno, pages: seq<Page>) returns (again: seq<Page>)
      modifies this
      ensures var r := old(Value()).(error := if status < 0 then status else old(error));
        Value() == (if r.error < 0 then TruncateAll(r, Offsets(pages)) else r)
      ensures again == if status < 0 || old(error) < 0 then [] else Mismatched(pages)
      ensures flags == if status < 0 then Done
                       else if again != [] && old(flags) == Clear then ReschedWrites else old(flags)
    {
      hide Truncate;
      if status < 0 { error, flags := status, Done; }
      var failed := error < 0;
      again := [];
      var rest := pages;
      ghost var r, f := Value(), flags;
      while rest != []
        invariant if failed then again == [] && TruncateAll(Value(), Offsets(rest)) == TruncateAll(r, Offsets(pages))
                  else Value() == r && again + Mismatched(rest) == Mismatched(pages)
        invariant flags == if again != [] && f == Clear then ReschedWrites else f
        decreases |rest|
      {
        assert Offsets(rest)[1..] == Offsets(rest[1..]);
        var keep := SettlePage(failed, rest[0]);
        if keep { again := again + [rest[0]]; }
        rest := rest[1..];
      }
    }
  }
}
