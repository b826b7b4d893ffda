/**
 The delegation state machine of one server (section 10.4 of RFC 8881): delegations on
 the server's list, the inode pointers, flag words, reference counts, the count of active
 delegations, the dentry tags and the thread that scans the list for marked delegations.

 Every section under a lock is one step, and steps of any number of threads interleave
 freely.  Object identities are never reused.  Replies, igrab() results, open-file checks
 and allocation are inputs.
 */
module Delegation {
  import opened Lists
  import opened Wrappers

  datatype Flag =
    | NeedReclaim | Return | ReturnIfClosed | Referenced | Returning
    | Revoked | TestExpired | InodeFreeing | ReturnDelayed | DelegTime

  datatype Mode = Mode(read: bool, write: bool)

  type Seqid = n: int | 0 <= n < 0x1_0000_0000

  datatype Stateid = Stateid(other: nat, seqid: Seqid)

  // The reference a delegation is born with: owned by the inode, by the thread that detached
  // it (which revokes it first if it frees it), or gone.
  datatype Base = Attached | Dropping(revoke: bool) | Dropped

  datatype Deleg = Deleg(
    published: bool,         // was put on the list; otherwise a discarded duplicate grant
    inode: Option<nat>,
    flags: set<Flag>,
    refcount: int,
    mode: Mode,
    stateid: Stateid,
    base: Base,
    returners: nat,          // threads between start and end of a return
    detaches: nat,           // successful detaches so far
    owed: bool)              // a return was put off with -EAGAIN and nothing happened since

  // The state manager's scan over the list.
  datatype Scan =
    | Idle
    | Walking(ahead: seq<nat>, prev: Option<nat>, holder: Option<(nat, nat)>, newer: set<nat>)
    | Returns(deleg: Option<nat>, holder: Option<(nat, nat)>, newer: set<nat>)
    | Clearing(ahead: seq<nat>)

  datatype State = State(
    delegs: map<nat, Deleg>,
    list: seq<nat>,              // server->delegations
    ptr: map<nat, nat>,          // NFS_I(inode)->delegation
    active: int,                 // nfs_active_delegations
    tagged: set<(nat, nat)>,     // (inode, alias) with the delegated verifier bit
    returnBit: bool,             // NFS4SERV_DELEGRETURN
    delayedBit: bool,            // NFS4SERV_DELEGRETURN_DELAYED
    toDetach: multiset<nat>,     // mark_returned calls between their two sections
    scan: Scan)

  function Empty(): State {
    State(map[], [], map[], 0, {}, false, false, multiset{}, Idle)
  }

  // (s32)(a - b) > 0
  predicate IsNewer(a: Stateid, b: Stateid) {
    0 < (a.seqid - b.seqid) % 0x1_0000_0000 < 0x8000_0000
  }

  predicate Valid(x: Deleg) { Revoked !in x.flags && Returning !in x.flags }

  predicate ValidFor(x: Deleg, need: Mode) {
    Valid(x) && (need.read ==> x.mode.read) && (need.write ==> x.mode.write)
  }

  // ------------------------------------------------------------- list helpers

  // The list from d on.
  function From(q: seq<nat>, d: nat): seq<nat> {
    if q == [] then [] else if q[0] == d then q else From(q[1..], d)
  }

  function WalkOn(scan: Scan, d: nat): Scan {
    match scan
    case Walking(ahead, prev, holder, newer) => Walking(ahead + [d], prev, holder, newer + {d})
    case Returns(x, holder, newer) => Returns(x, holder, newer + {d})
    case Clearing(ahead) => Clearing(ahead + [d])
    case Idle => Idle
  }

  function WalkOff(scan: Scan, d: nat): Scan {
    match scan
    case Walking(ahead, prev, holder, newer) => Walking(Without(ahead, d), prev, holder, newer)
    case Clearing(ahead) => Clearing(Without(ahead, d))
    case _ => scan
  }

  // -------------------------------------------------------------- primitives

  function Put(s: State, d: nat, x: Deleg): State { s.(delegs := s.delegs[d := x]) }

  function SetFlags(s: State, d: nat, add: set<Flag>, drop: set<Flag>): State
    requires d in s.delegs
  {
    Put(s, d, s.delegs[d].(flags := s.delegs[d].flags - drop + add))
  }

  // nfs_clear_verifier_delegated
  function ClearTags(s: State, inode: Option<nat>): State {
    if inode.None? then s else s.(tagged := set t | t in s.tagged && t.0 != inode.value)
  }

  // nfs_mark_delegation_revoked
  function MarkRevoked(s: State, d: nat): State
    requires d in s.delegs
  {
    var x := s.delegs[d];
    if Revoked in x.flags then s
    else
      var t := Put(s, d, x.(flags := x.flags + {Revoked}, owed := false)).(active := s.active - 1);
      if Returning in x.flags then t else ClearTags(t, x.inode)
  }

  function Unrevoked(s: State, d: nat): State
    requires d in s.delegs
  {
    if Revoked in s.delegs[d].flags
    then SetFlags(s, d, {}, {Revoked}).(active := s.active + 1)
    else s
  }

  // nfs_detach_delegation_locked; does nothing if somebody was faster.
  function Detach(s: State, d: nat, revoke: bool): State
    requires d in s.delegs
  {
    var x := s.delegs[d];
    if x.inode.None? || x.inode.value !in s.ptr || s.ptr[x.inode.value] != d then s
    else
      s.(delegs := s.delegs[d := x.(inode := None, base := Dropping(revoke), detaches := x.detaches + 1, owed := false)],
         list := Without(s.list, d),
         ptr := s.ptr - {x.inode.value},
         scan := WalkOff(s.scan, d))
  }

  // A return begins: RETURNING set, a reference taken, the inode's tags cleared.
  function Begin(s: State, d: nat, drop: set<Flag>): State
    requires d in s.delegs
  {
    var x := s.delegs[d];
    ClearTags(
      Put(s, d, x.(flags := x.flags - drop + {Returning}, refcount := x.refcount + 1,
                   returners := x.returners + 1, owed := false)),
      x.inode)
  }

  // nfs_start_delegation_return_locked
  function StartReturn(s: State, i: nat): State {
    if i in s.ptr && s.ptr[i] in s.delegs && s.delegs[s.ptr[i]].inode.Some?
       && Returning !in s.delegs[s.ptr[i]].flags
    then Begin(s, s.ptr[i], {ReturnDelayed})
    else s
  }

  // The last nfs_put_delegation of a returner.
  function EndReturn(s: State, d: nat): State
    requires d in s.delegs && s.delegs[d].returners > 0
  {
    var x := s.delegs[d];
    Put(s, d, x.(refcount := x.refcount - 1, returners := x.returners - 1))
  }

  // nfs_abort_delegation_return
  function AbortReturn(s: State, d: nat, again: bool): State
    requires d in s.delegs
  {
    var x := s.delegs[d];
    var flags := x.flags - {Returning} + (if again then {ReturnDelayed} else {});
    Put(s, d, x.(flags := flags,
                 owed := if again then x.inode.Some? && Revoked !in x.flags && InodeFreeing !in x.flags else x.owed))
      .(delayedBit := s.delayedBit || again)
  }

  // nfs_mark_return_delegation
  function MarkReturn(s: State, d: nat): State
    requires d in s.delegs
  {
    SetFlags(s, d, {Return}, {}).(returnBit := true)
  }

  function MarkIfClosed(s: State, d: nat, closed: bool): State
    requires d in s.delegs
  {
    var x := s.delegs[d];
    if Return in x.flags || ReturnIfClosed in x.flags || x.inode.None? then s
    else if closed then MarkReturn(s, d)
    else SetFlags(s, d, {ReturnIfClosed}, {})
  }

  // igrab() failed in nfs_delegation_grab_inode
  function GrabFailed(s: State, d: nat): State
    requires d in s.delegs
  {
    Put(s, d, s.delegs[d].(flags := s.delegs[d].flags + {InodeFreeing}, owed := false))
  }

  // -------------------------------------------------- nfs_inode_set_delegation

  function NewFlags(delegTime: bool): set<Flag> {
    {Referenced} + (if delegTime then {DelegTime} else {})
  }

  function Publish(s: State, i: nat, d: nat, mode: Mode, stateid: Stateid, delegTime: bool): State {
    s.(delegs := s.delegs[d := Deleg(true, Some(i), NewFlags(delegTime), 1, mode, stateid, Attached, 0, 0, false)],
       list := s.list + [d],
       ptr := s.ptr[i := d],
       active := s.active + 1,
       scan := WalkOn(s.scan, d))
  }

  // A duplicate grant is freed like a published one, without ever having been counted.
  function Duplicate(s: State, i: nat, d: nat, mode: Mode, stateid: Stateid, delegTime: bool): State {
    Put(s, d, Deleg(false, Some(i), NewFlags(delegTime), 1, mode, stateid, Dropping(true), 0, 0, false))
  }

  function UpdateInPlace(s: State, d: nat, mode: Mode, stateid: Stateid): State
    requires d in s.delegs
  {
    var x := s.delegs[d];
    if IsNewer(stateid, x.stateid)
    then Unrevoked(Put(s, d, x.(stateid := x.stateid.(seqid := stateid.seqid), mode := mode)), d)
    else s
  }

  function Grant(s: State, i: nat, d: nat, mode: Mode, stateid: Stateid, delegTime: bool): State
    requires d !in s.delegs
  {
    if i !in s.ptr || s.ptr[i] !in s.delegs then Publish(s, i, d, mode, stateid, delegTime)
    else
      var o := s.ptr[i];
      var x := s.delegs[o];
      if x.stateid.other == stateid.other then UpdateInPlace(s, o, mode, stateid)
      else if Revoked !in x.flags && (mode == x.mode || !mode.write) then
        Duplicate(s, i, d, mode, stateid, delegTime)
      else if Revoked !in x.flags && Returning in x.flags then s
      else
        var t := if Revoked in x.flags then s else SetFlags(s, o, {Returning}, {});
        var u := Detach(t, o, true);
        if u == t then t else Publish(u, i, d, mode, stateid, delegTime)
  }

  // nfs_inode_reclaim_delegation
  function Reclaim(s: State, i: nat, d: nat, mode: Mode, stateid: Stateid, delegTime: bool): State
    requires d !in s.delegs
  {
    if i in s.ptr && s.ptr[i] in s.delegs then
      var o := s.ptr[i];
      var x := s.delegs[o];
      Unrevoked(
        Put(s, o, x.(stateid := stateid, mode := mode,
                     flags := x.flags - {NeedReclaim, DelegTime} + (if delegTime then {DelegTime} else {}))),
        o)
    else Grant(s, i, d, mode, stateid, delegTime)
  }

  // ---------------------------------------------- revocation and forced returns

  // A non-zero sequence number from the server replaces the recorded one.
  function Reseq(s: State, d: nat, seqid: Seqid): State
    requires d in s.delegs
  {
    if seqid == 0 then s else Put(s, d, s.delegs[d].(stateid := s.delegs[d].stateid.(seqid := seqid)))
  }

  // nfs_revoke_delegation
  function Revoke(s: State, i: nat, stateid: Option<Stateid>): State {
    if i !in s.ptr || s.ptr[i] !in s.delegs then s
    else
      var d := s.ptr[i];
      var x := s.delegs[d];
      match stateid
      case None => MarkRevoked(s, d)
      case Some(sid) =>
        if sid.other != x.stateid.other || (sid.seqid != 0 && IsNewer(x.stateid, sid)) then s
        else MarkRevoked(Reseq(s, d, sid.seqid), d)
  }

  function Surrender(s: State, d: nat, seqid: Seqid): State
    requires d in s.delegs
  {
    SetFlags(MarkRevoked(Reseq(s, d, seqid), d), d, {}, {Returning}).(toDetach := s.toDetach + multiset{d})
  }

  // First section of nfs_delegation_mark_returned, under the delegation's lock.
  function MarkReturned(s: State, i: nat, sid: Stateid): State {
    if i !in s.ptr || s.ptr[i] !in s.delegs then s
    else
      var d := s.ptr[i];
      var x := s.delegs[d];
      if sid.other != x.stateid.other then s
      else if sid.seqid != 0 && IsNewer(x.stateid, sid) then SetFlags(s, d, {}, {Returning})
      else Surrender(s, d, sid.seqid)
  }

  // Second section, under the client's lock.
  function DetachReturned(s: State, d: nat): State
    requires d in s.delegs && d in s.toDetach
  {
    Detach(s.(toDetach := s.toDetach - multiset{d}), d, false)
  }

  // The detacher drops the base reference: nfs_free_delegation or nfs_put_delegation.
  function DropBase(s: State, d: nat): State
    requires d in s.delegs && s.delegs[d].base.Dropping?
  {
    var t := if s.delegs[d].base.revoke then MarkRevoked(s, d) else s;
    Put(t, d, t.delegs[d].(refcount := t.delegs[d].refcount - 1, base := Dropped))
  }

  // nfs_inode_evict_delegation; the VFS evicts an inode only once it has no alias left.
  function Evict(s: State, i: nat): State {
    if i !in s.ptr || s.ptr[i] !in s.delegs then s
    else
      var d := s.ptr[i];
      var t := Detach(s, d, true);
      if t == s then s else SetFlags(t, d, {Returning, InodeFreeing}, {})
  }

  // --------------------------------------------------------- return on close

  function SetReturnOnClose(s: State, i: nat, closed: bool): State {
    if i in s.ptr && s.ptr[i] in s.delegs && Valid(s.delegs[s.ptr[i]]) && s.delegs[s.ptr[i]].inode.Some? then
      if closed then Begin(s, s.ptr[i], {}) else SetFlags(s, s.ptr[i], {ReturnIfClosed}, {})
    else s
  }

  function ReturnOnClose(s: State, i: nat, closed: bool, watermark: nat): State {
    if && i in s.ptr && s.ptr[i] in s.delegs && Valid(s.delegs[s.ptr[i]]) && s.delegs[s.ptr[i]].inode.Some?
       && (ReturnIfClosed in s.delegs[s.ptr[i]].flags || s.active >= watermark) && closed
    then Begin(s, s.ptr[i], {ReturnIfClosed})
    else s
  }

  // ------------------------------------------------------------ dentry tags

  // nfs_set_verifier_locked
  function SetVerifier(s: State, i: nat, alias: nat, current: bool): State {
    if !current then s
    else if i in s.ptr && s.ptr[i] in s.delegs && ValidFor(s.delegs[s.ptr[i]], Mode(true, false)) then
      SetFlags(s, s.ptr[i], {Referenced}, {}).(tagged := s.tagged + {(i, alias)})
    else s.(tagged := s.tagged - {(i, alias)})
  }

  // ---------------------------------------------------------------- the scan

  // nfs_server_return_marked_delegations up to the first restart
  function ScanStart(s: State): State
    requires s.scan.Idle?
  {
    if s.returnBit then s.(returnBit := false, scan := Walking(s.list, None, None, {})) else s
  }

  predicate NeedReturn(x: Deleg) {
    Return in x.flags && Returning !in x.flags && ReturnDelayed !in x.flags && Revoked !in x.flags
  }

  // The place holder moves up to prev, if prev's inode can still be grabbed.
  predicate Keeps(s: State, prev: Option<nat>, grabPrev: bool) {
    grabPrev && prev.Some? && prev.value in s.delegs && s.delegs[prev.value].inode.Some?
  }

  function GrabPrev(s: State, prev: Option<nat>, grabPrev: bool): State {
    if prev.Some? && prev.value in s.delegs && !Keeps(s, prev, grabPrev) then GrabFailed(s, prev.value) else s
  }

  function Holder(s: State, w: Scan, grabPrev: bool): Option<(nat, nat)>
    requires w.Walking?
  {
    if Keeps(s, w.prev, grabPrev) then Some((s.delegs[w.prev.value].inode.value, w.prev.value)) else w.holder
  }

  // A marked delegation is found: move the place holder up and start the return.
  function Take(s: State, inode: nat, grabPrev: bool): State
    requires s.scan.Walking?
  {
    var u := GrabPrev(s, s.scan.prev, grabPrev);
    StartReturn(u, inode)
      .(scan := Returns(Startable(u, inode), Holder(s, s.scan, grabPrev), s.scan.newer))
  }

  // One element of the walk.
  function Visit(s: State, grab: bool, grabPrev: bool): State
    requires s.scan.Walking? && s.scan.ahead != [] && s.scan.ahead[0] in s.delegs
  {
    var w := s.scan;
    var d := w.ahead[0];
    var x := s.delegs[d];
    var onward := w.(ahead := w.ahead[1..]);
    if InodeFreeing in x.flags then s.(scan := onward)
    else
      var t := SetFlags(s, d, {}, {Return});
      if !NeedReturn(x) then t.(scan := if Valid(x) then onward.(prev := Some(d)) else onward)
      else if !grab || x.inode.None? then GrabFailed(t, d).(scan := onward)
      else Take(t, x.inode.value, grabPrev)
  }

  // The delegation StartReturn takes hold of, if any.
  function Startable(s: State, inode: nat): Option<nat> {
    if inode in s.ptr && s.ptr[inode] in s.delegs && s.delegs[s.ptr[inode]].inode.Some?
       && Returning !in s.delegs[s.ptr[inode]].flags
    then Some(s.ptr[inode]) else None
  }

  // How a return ends: aborted, given back, or failed at the server.
  datatype Result = Aborted(again: bool) | Done | Failed

  function Finish(s: State, d: nat, result: Result): State
    requires d in s.delegs && s.delegs[d].returners > 0
  {
    EndReturn(if result.Aborted? then AbortReturn(s, d, result.again) else s, d)
  }

  // After the return: restart from the place holder or the head, or give up on an error.
  function ScanResume(s: State, result: Result): State
    requires s.scan.Returns?
    requires s.scan.deleg.Some? ==> s.scan.deleg.value in s.delegs && s.delegs[s.scan.deleg.value].returners > 0
  {
    var w := s.scan;
    var t := if w.deleg.Some? then Finish(s, w.deleg.value, result) else s;
    if w.deleg.Some? && !result.Done? then t.(returnBit := true, scan := Idle)
    else
      var ahead :=
        if w.holder.Some? && w.holder.value.0 in t.ptr && t.ptr[w.holder.value.0] == w.holder.value.1
        then From(t.list, w.holder.value.1) else t.list;
      t.(scan := Walking(ahead, None, w.holder, w.newer))
  }

  // nfs_server_clear_delayed_delegations, run by the same thread after the scan.
  function ClearStart(s: State): State
    requires s.scan.Idle?
  {
    if s.delayedBit then s.(delayedBit := false, scan := Clearing(s.list)) else s
  }

  function ClearVisit(s: State): State
    requires s.scan.Clearing? && s.scan.ahead != [] && s.scan.ahead[0] in s.delegs
  {
    var d := s.scan.ahead[0];
    var t := s.(scan := Clearing(s.scan.ahead[1..]));
    if ReturnDelayed in s.delegs[d].flags then SetFlags(MarkReturn(t, d), d, {}, {ReturnDelayed}) else t
  }

  // -------------------------------------------------------------------- runs

  // What the server hands out.
  datatype Offer = Offer(inode: nat, d: nat, mode: Mode, stateid: Stateid, delegTime: bool)

  // What takes a delegation away.
  datatype Removal =
    | Revoking(inode: nat, sid: Option<Stateid>)
    | MarkingReturned(inode: nat, stateid: Stateid)
    | DetachingReturned(d: nat)
    | ReapDetaching(d: nat)
    | DroppingBase(d: nat)
    | Evicting(inode: nat)

  // What a thread that returns a delegation does.
  datatype Returner =
    | Starting(inode: nat)
    | SettingOnClose(inode: nat, closed: bool)
    | OnClose(inode: nat, closed: bool, watermark: nat)
    | Finishing(d: nat, result: Result)

  // One element of the list walks that only set flags.
  datatype Mark =
    | ToReturn | IfClosed(closed: bool) | Unreferenced(closed: bool)
    | ToReclaim | ToTest | Tested | Unreachable

  datatype Scanner =
    | BeginScan | VisitNext(grab: bool, grabPrev: bool) | Resume(result: Result) | EndScan
    | BeginClear | ClearNext | EndClear

  datatype Event =
    | Granted(offer: Offer)
    | Reclaimed(offer: Offer)
    | Removes(removal: Removal)
    | Returner(returner: Returner)
    | Marks(d: nat, mark: Mark)
    | Verifies(inode: nat, alias: nat, current: bool)
    | DropsAlias(inode: nat, alias: nat)
    | Scans(scanner: Scanner)

  predicate Returned(s: State, d: nat) { d in s.delegs && s.delegs[d].returners > 0 }

  // The scanner's own return is ended by Resume only.
  predicate Scanners(s: State, d: nat) {
    s.scan.Returns? && s.scan.deleg == Some(d) && d in s.delegs && s.delegs[d].returners == 1
  }

  predicate CanRemove(s: State, r: Removal) {
    match r
    case DetachingReturned(d) => d in s.delegs && d in s.toDetach
    case ReapDetaching(d) => Returned(s, d) && s.delegs[d].published
    case DroppingBase(d) => d in s.delegs && s.delegs[d].base.Dropping?
    case Evicting(i) => forall t :: t in s.tagged ==> t.0 != i
    case _ => true
  }

  predicate CanReturn(s: State, r: Returner) {
    r.Finishing? ==> Returned(s, r.d) && !Scanners(s, r.d)
  }

  predicate CanScan(s: State, c: Scanner) {
    match c
    case BeginScan => s.scan.Idle?
    case VisitNext(_, _) => s.scan.Walking? && s.scan.ahead != [] && s.scan.ahead[0] in s.delegs
    case Resume(_) => s.scan.Returns? && (s.scan.deleg.Some? ==> Returned(s, s.scan.deleg.value))
    case EndScan => s.scan.Walking? && forall d :: d in s.scan.ahead ==> d in s.scan.newer
    case BeginClear => s.scan.Idle?
    case ClearNext => s.scan.Clearing? && s.scan.ahead != [] && s.scan.ahead[0] in s.delegs
    case EndClear => s.scan.Clearing? && s.scan.ahead == []
  }

  // What the calling code guarantees.
  predicate Enabled(s: State, e: Event) {
    match e
    case Granted(o) => o.d !in s.delegs
    case Reclaimed(o) => o.d !in s.delegs
    case Removes(r) => CanRemove(s, r)
    case Returner(r) => CanReturn(s, r)
    case Marks(d, _) => d in s.delegs && s.delegs[d].published
    case Scans(c) => CanScan(s, c)
    case _ => true
  }

  function RemoveStep(s: State, r: Removal): State
    requires CanRemove(s, r)
  {
    match r
    case Revoking(i, sid) => Revoke(s, i, sid)
    case MarkingReturned(i, sid) => MarkReturned(s, i, sid)
    case DetachingReturned(d) => DetachReturned(s, d)
    case ReapDetaching(d) => Detach(s, d, true)
    case DroppingBase(d) => DropBase(s, d)
    case Evicting(i) => Evict(s, i)
  }

  function ReturnStep(s: State, r: Returner): State
    requires CanReturn(s, r)
  {
    match r
    case Starting(i) => StartReturn(s, i)
    case SettingOnClose(i, closed) => SetReturnOnClose(s, i, closed)
    case OnClose(i, closed, watermark) => ReturnOnClose(s, i, closed, watermark)
    case Finishing(d, result) => Finish(s, d, result)
  }

  function ApplyMark(s: State, d: nat, m: Mark): State
    requires d in s.delegs
  {
    match m
    case ToReturn => MarkReturn(s, d)
    case IfClosed(closed) => MarkIfClosed(s, d, closed)
    case Unreferenced(closed) =>
      if Referenced in s.delegs[d].flags then SetFlags(s, d, {}, {Referenced}) else MarkIfClosed(s, d, closed)
    case ToReclaim => if TestExpired in s.delegs[d].flags then s else SetFlags(s, d, {NeedReclaim}, {})
    case ToTest => SetFlags(s, d, {TestExpired}, {NeedReclaim})
    case Tested => SetFlags(s, d, {}, {TestExpired})
    case Unreachable => GrabFailed(s, d)
  }

  function ScanStep(s: State, c: Scanner): State
    requires CanScan(s, c)
  {
    match c
    case BeginScan => ScanStart(s)
    case VisitNext(grab, grabPrev) => Visit(s, grab, grabPrev)
    case Resume(result) => ScanResume(s, result)
    case EndScan => s.(scan := Idle)
    case BeginClear => ClearStart(s)
    case ClearNext => ClearVisit(s)
    case EndClear => s.(scan := Idle)
  }

  function Step(s: State, e: Event): State
    requires Enabled(s, e)
  {
    match e
    case Granted(o) => Grant(s, o.inode, o.d, o.mode, o.stateid, o.delegTime)
    case Reclaimed(o) => Reclaim(s, o.inode, o.d, o.mode, o.stateid, o.delegTime)
    case Removes(r) => RemoveStep(s, r)
    case Returner(r) => ReturnStep(s, r)
    case Marks(d, m) => ApplyMark(s, d, m)
    case Verifies(i, alias, current) => SetVerifier(s, i, alias, current)
    case DropsAlias(i, alias) => s.(tagged := s.tagged - {(i, alias)})
    case Scans(c) => ScanStep(s, c)
  }

  // A run takes the enabled events in order and skips the others.
  function Run(es: seq<Event>): State {
    if es == [] then Empty()
    else
      var s := Run(es[..|es|-1]);
      if Enabled(s, es[|es|-1]) then Step(s, es[|es|-1]) else s
  }

  lemma RunSnoc(es: seq<Event>, e: Event)
    ensures Run(es + [e]) == if Enabled(Run(es), e) then Step(Run(es), e) else Run(es)
  {
    assert (es + [e])[..|es|] == es;
  }
}
