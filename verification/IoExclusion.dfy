/**
 The protocol that keeps buffered and direct I/O on one file apart: a read/write semaphore, the
 ODIRECT flag and the count of outstanding direct requests, used by any number of threads.
 Every lock operation, flag access and wait is a step of its own, so the steps of different
 threads interleave freely.
 */
module IoExclusion {
  import opened Wrappers

  // What a thread wants the file for.  Others take the semaphore and leave the flag alone.
  datatype Kind = Read | Write | Direct | OtherShared | OtherExclusive

  // Where a thread stands.
  datatype Pc =
    | Idle
    | Probe(kind: Kind)    // shared lock held, about to test the flag
    | Retreat(kind: Kind)  // shared lock held, the test failed
    | Want(kind: Kind)     // about to take the exclusive lock
    | Excl(kind: Kind)     // exclusive lock held, about to test the flag
    | Drain(kind: Kind)    // exclusive lock held, flag cleared, in inode_dio_wait
    | Sync                 // exclusive lock held, flag set, in nfs_sync_mapping
    | Settle(kind: Kind)   // exclusive lock held, about to downgrade
    | In(kind: Kind)       // section held

  predicate Shared(p: Pc) {
    p.Probe? || p.Retreat? || (p.In? && !p.kind.Write? && !p.kind.OtherExclusive?)
  }

  predicate Exclusive(p: Pc) {
    p.Excl? || p.Drain? || p.Sync? || p.Settle? || (p.In? && (p.kind.Write? || p.kind.OtherExclusive?))
  }

  // unsynced: buffered writes that no nfs_sync_mapping has pushed out yet.
  // dio, swap: requests between inode_dio_begin and inode_dio_end.
  datatype State = State(
    pcs: map<nat, Pc>, readers: set<nat>, writer: Option<nat>,
    flag: bool, dio: nat, swap: nat, unsynced: bool)

  function Start(): State { State(map[], {}, None, false, 0, 0, false) }

  function At(s: State, t: nat): Pc { if t in s.pcs then s.pcs[t] else Idle }

  function Goto(s: State, t: nat, p: Pc): State { s.(pcs := s.pcs[t := p]) }

  datatype Event =
    | Enter(t: nat, kind: Kind)
    | Advance(t: nat)      // the thread's next step towards its section
    | Leave(t: nat)
    | Dirty(t: nat)        // a buffered write dirties a page
    | Begin(t: nat)        // inode_dio_begin inside a direct section
    | Complete             // nfs_direct_complete, in any context
    | SwapBegin | SwapEnd  // swap I/O, which takes no lock

  function FirstPc(kind: Kind): Pc {
    if kind.Read? || kind.Direct? || kind.OtherShared? then Probe(kind) else Excl(kind)
  }

  // Steps that must wait for a lock or for requests to finish.
  predicate CanLock(s: State, p: Pc) {
    if Exclusive(p) then s.writer.None? && s.readers == {} else s.writer.None?
  }

  predicate Enabled(s: State, e: Event) {
    match e
    case Enter(t, kind) => At(s, t).Idle? && CanLock(s, FirstPc(kind))
    case Advance(t) =>
      var p := At(s, t);
      && (p.Want? ==> CanLock(s, Excl(p.kind)))
      && (p.Drain? ==> s.dio == 0 && s.swap == 0)
      && !p.Idle? && !p.In?
    case Leave(t) => At(s, t).In?
    case Dirty(t) => At(s, t) == In(Write)
    case Begin(t) => At(s, t) == In(Direct)
    case Complete => s.dio > 0
    case SwapBegin => true
    case SwapEnd => s.swap > 0
  }

  function Lock(s: State, t: nat, p: Pc): State {
    var s' := Goto(s, t, p);
    if Exclusive(p) then s'.(writer := Some(t)) else s'.(readers := s.readers + {t})
  }

  function Unlock(s: State, t: nat, p: Pc): State {
    var s' := Goto(s, t, p);
    if Exclusive(At(s, t)) then s'.(writer := None) else s'.(readers := s.readers - {t})
  }

  // nfs_start_io_read, nfs_start_io_write, nfs_start_io_direct after their first lock operation.
  function Next(s: State, t: nat): State {
    match At(s, t)
    case Probe(Read) => Goto(s, t, if s.flag then Retreat(Read) else In(Read))
    case Probe(Direct) => Goto(s, t, if s.flag then In(Direct) else Retreat(Direct))
    case Probe(k) => Goto(s, t, In(k))
    case Retreat(k) => Unlock(s, t, Want(k))
    case Want(k) => Lock(s, t, Excl(k))
    case Excl(Direct) =>
      if s.flag then Goto(s, t, Settle(Direct)) else Goto(s, t, Sync).(flag := true)
    case Excl(OtherExclusive) => Goto(s, t, In(OtherExclusive))
    case Excl(k) =>
      if s.flag then Goto(s, t, Drain(k)).(flag := false) else Goto(s, t, Blocked(k))
    case Drain(k) => Goto(s, t, Blocked(k))
    case Sync => Goto(s, t, Settle(Direct)).(unsynced := false)
    case Settle(k) => Goto(s, t, In(k)).(writer := None, readers := s.readers + {t})
    case _ => s
  }

  // A buffered write keeps the exclusive lock, a buffered read goes on to downgrade it.
  function Blocked(k: Kind): Pc { if k.Write? then In(Write) else Settle(k) }

  function Step(s: State, e: Event): State {
    if !Enabled(s, e) then s else
    match e
    case Enter(t, kind) => Lock(s, t, FirstPc(kind))
    case Advance(t) => Next(s, t)
    case Leave(t) => Unlock(s, t, Idle)
    case Dirty(t) => s.(unsynced := true)
    case Begin(t) => s.(dio := s.dio + 1)
    case Complete => s.(dio := s.dio - 1)
    case SwapBegin => s.(swap := s.swap + 1)
    case SwapEnd => s.(swap := s.swap - 1)
  }

  function Run(es: seq<Event>): State {
    if es == [] then Start() else Step(Run(es[..|es|-1]), es[|es|-1])
  }

  // ------------------------------------------------------------ invariant

  // The semaphore is held by exactly the threads whose position says so.
  ghost predicate Locked(s: State) {
    && (forall t :: t in s.readers <==> Shared(At(s, t)))
    && (forall t: nat :: s.writer == Some(t) <==> Exclusive(At(s, t)))
    && (s.writer.Some? ==> s.readers == {})
  }

  // A position only a thread of the right kind can be in.
  predicate Proper(p: Pc) {
    match p
    case Retreat(k) => k.Read? || k.Direct?
    case Want(k) => k.Read? || k.Direct?
    case Probe(k) => k.Read? || k.Direct? || k.OtherShared?
    case Excl(k) => !k.OtherShared?
    case Drain(k) => k.Read? || k.Write?
    case Settle(k) => k.Read? || k.Direct?
    case _ => true
  }

  predicate Buffered(p: Pc) { (p.In? || p.Settle?) && (p.kind.Read? || p.kind.Write?) }

  predicate Straight(p: Pc) { (p.In? || p.Settle?) && p.kind.Direct? }

  // What a thread's position says about the file.
  predicate Knows(s: State, p: Pc) {
    && Proper(p)
    && (Buffered(p) ==> !s.flag && s.dio == 0)
    && (Straight(p) ==> s.flag && !s.unsynced)
    && (p.Sync? ==> s.flag) && (p.Drain? ==> !s.flag)
  }

  ghost predicate Draining(s: State) { s.writer.Some? && At(s, s.writer.value).Drain? }

  ghost predicate Syncing(s: State) { s.writer.Some? && At(s, s.writer.value).Sync? }

  ghost predicate Inv(s: State) {
    && Locked(s)
    && (forall t :: Knows(s, At(s, t)))
    && (!s.flag ==> s.dio == 0 || Draining(s))
    && (s.flag ==> !s.unsynced || Syncing(s))
  }

  lemma GotoAt(s: State, t: nat, p: Pc)
    ensures forall u :: At(Goto(s, t, p), u) == if u == t then p else At(s, u)
  {
  }

  // A move that neither takes nor gives up the semaphore.
  lemma GotoLocked(s: State, t: nat, p: Pc)
    requires Locked(s) && Shared(p) == Shared(At(s, t)) && Exclusive(p) == Exclusive(At(s, t))
    ensures Locked(Goto(s, t, p))
  {
    GotoAt(s, t, p);
  }

  lemma LockLocked(s: State, t: nat, p: Pc)
    requires Locked(s) && !Shared(At(s, t)) && !Exclusive(At(s, t)) && CanLock(s, p)
    requires Shared(p) || Exclusive(p)
    ensures Locked(Lock(s, t, p))
  {
    GotoAt(s, t, p);
    assert forall u :: At(Lock(s, t, p), u) == At(Goto(s, t, p), u);
  }

  lemma UnlockLocked(s: State, t: nat, p: Pc)
    requires Locked(s) && (Shared(At(s, t)) || Exclusive(At(s, t))) && !Shared(p) && !Exclusive(p)
    ensures Locked(Unlock(s, t, p))
  {
    GotoAt(s, t, p);
    assert forall u :: At(Unlock(s, t, p), u) == At(Goto(s, t, p), u);
  }

  lemma DowngradeLocked(s: State, t: nat, k: Kind)
    requires Locked(s) && At(s, t) == Settle(k) && Shared(In(k))
    ensures Locked(Goto(s, t, In(k)).(writer := None, readers := s.readers + {t}))
  {
    var s' := Goto(s, t, In(k)).(writer := None, readers := s.readers + {t});
    GotoAt(s, t, In(k));
    assert forall u :: At(s', u) == At(Goto(s, t, In(k)), u);
    assert s.writer == Some(t);
  }

  // While one thread holds the semaphore exclusively no other is in a section.
  lemma Alone(s: State, t: nat, u: nat)
    requires Locked(s) && Exclusive(At(s, t)) && u != t
    ensures !Shared(At(s, u)) && !Exclusive(At(s, u))
  {
    assert s.writer == Some(t);
  }

  // What threads other than t see: nothing new, or nothing at all because t has the file alone.
  ghost predicate Undisturbed(s: State, s': State, t: nat) {
    && (forall u :: u != t ==> At(s', u) == At(s, u))
    && ((s'.flag == s.flag && s'.dio == s.dio && s'.unsynced == s.unsynced) || Exclusive(At(s, t)))
  }

  lemma OthersKnow(s: State, s': State, t: nat, u: nat)
    requires Inv(s) && Undisturbed(s, s', t) && u != t
    ensures Knows(s', At(s', u))
  {
    assert Knows(s, At(s, u));
    if Exclusive(At(s, t)) { Alone(s, t, u); }
  }

  lemma Conclude(s: State, s': State, t: nat)
    requires Inv(s) && Undisturbed(s, s', t) && Locked(s') && Knows(s', At(s', t))
    requires !s'.flag ==> s'.dio == 0 || Draining(s')
    requires s'.flag ==> !s'.unsynced || Syncing(s')
    ensures Inv(s')
  {
    forall u: nat ensures Knows(s', At(s', u)) {
      if u != t { OthersKnow(s, s', t, u); }
    }
  }

  lemma EnterInv(s: State, t: nat, kind: Kind)
    requires Inv(s) && Enabled(s, Enter(t, kind))
    ensures Inv(Step(s, Enter(t, kind)))
  {
    var p := FirstPc(kind);
    LockLocked(s, t, p);
    Conclude(s, Lock(s, t, p), t);
  }

  lemma LeaveInv(s: State, t: nat)
    requires Inv(s) && Enabled(s, Leave(t))
    ensures Inv(Step(s, Leave(t)))
  {
    UnlockLocked(s, t, Idle);
    Conclude(s, Unlock(s, t, Idle), t);
  }

  lemma SharedAdvanceInv(s: State, t: nat)
    requires Inv(s) && Enabled(s, Advance(t)) && Shared(At(s, t))
    ensures Inv(Next(s, t))
  {
    var p := At(s, t);
    var s' := Next(s, t);
    assert Knows(s, p);
    if p.Retreat? {
      UnlockLocked(s, t, Want(p.kind));
    } else {
      GotoLocked(s, t, At(s', t));
    }
    Conclude(s, s', t);
  }

  lemma WantInv(s: State, t: nat)
    requires Inv(s) && Enabled(s, Advance(t)) && At(s, t).Want?
    ensures Inv(Next(s, t))
  {
    var k := At(s, t).kind;
    assert Knows(s, At(s, t));
    LockLocked(s, t, Excl(k));
    Conclude(s, Next(s, t), t);
  }

  lemma ExclusiveAdvanceInv(s: State, t: nat)
    requires Inv(s) && Enabled(s, Advance(t)) && Exclusive(At(s, t))
    ensures Inv(Next(s, t))
  {
    var p := At(s, t);
    var s' := Next(s, t);
    assert Knows(s, p) && s.writer == Some(t);
    if p.Settle? {
      DowngradeLocked(s, t, p.kind);
    } else {
      GotoLocked(s, t, At(s', t));
    }
    Conclude(s, s', t);
  }

  // A file event that moves no thread.
  lemma FileInv(s: State, e: Event)
    requires Inv(s) && Enabled(s, e) && !e.Enter? && !e.Advance? && !e.Leave?
    ensures Inv(Step(s, e))
  {
    var s' := Step(s, e);
    assert forall u :: At(s', u) == At(s, u);
    forall u: nat ensures Knows(s', At(s', u)) {
      assert Knows(s, At(s, u));
      if e.Dirty? && u != e.t { Alone(s, e.t, u); }
      if e.Begin? { assert Knows(s, At(s, e.t)); }
    }
    if e.Begin? || e.Dirty? { assert Knows(s, At(s, e.t)); }
  }

  lemma StepInv(s: State, e: Event)
    requires Inv(s)
    ensures Inv(Step(s, e))
  {
    if Enabled(s, e) {
      match e
      case Enter(t, kind) => EnterInv(s, t, kind);
      case Leave(t) => LeaveInv(s, t);
      case Advance(t) =>
        if Shared(At(s, t)) {
          SharedAdvanceInv(s, t);
        } else if Exclusive(At(s, t)) {
          ExclusiveAdvanceInv(s, t);
        } else {
          WantInv(s, t);
        }
      case _ => FileInv(s, e);
    }
  }

  lemma {:induction false} RunInv(es: seq<Event>)
    ensures Inv(Run(es))
  {
    if es != [] {
      RunInv(es[..|es|-1]);
      StepInv(Run(es[..|es|-1]), es[|es|-1]);
    }
  }

  // ------------------------------------------------------------ theorems

  // Held sections and the file, after any interleaving.
  lemma Exclusion(es: seq<Event>, t: nat, u: nat)
    ensures var s := Run(es);
      && (At(s, t).In? && (At(s, t).kind.Read? || At(s, t).kind.Write?) ==> !s.flag && s.dio == 0)
      && (At(s, t) == In(Direct) ==> s.flag && !s.unsynced)
      && (At(s, t) == In(Direct) && At(s, u).In? ==> !At(s, u).kind.Read? && !At(s, u).kind.Write?)
      && (At(s, t) == In(Write) && u != t ==> !At(s, u).In?)
  {
    var s := Run(es);
    RunInv(es);
    assert Knows(s, At(s, t)) && Knows(s, At(s, u));
    if At(s, t) == In(Write) && u != t { Alone(s, t, u); }
  }

  // The flag cannot change while a section is held, whatever the other threads do.
  lemma FlagIsPinned(es: seq<Event>, e: Event, t: nat)
    requires At(Run(es), t).In?
    ensures Step(Run(es), e).flag == Run(es).flag
  {
    var s := Run(es);
    RunInv(es);
    if e.Advance? && Enabled(s, e) && Exclusive(At(s, e.t)) { Alone(s, e.t, t); }
  }

  // A direct request that outlives its section keeps every buffered section out until it completes.
  lemma OutstandingKeepsBufferedOut(es: seq<Event>, t: nat)
    requires Run(es).dio > 0
    ensures !Buffered(At(Run(es), t))
  {
    RunInv(es);
    assert Knows(Run(es), At(Run(es), t));
  }

  // Steps that finish work already begun.
  predicate Finishing(e: Event) { e.Advance? || e.Leave? || e.Complete? || e.SwapEnd? }

  // No deadlock: while some thread is under way a finishing step is possible.
  lemma NoDeadlock(es: seq<Event>, t: nat) returns (e: Event)
    requires !At(Run(es), t).Idle?
    ensures Enabled(Run(es), e) && Finishing(e)
  {
    var s := Run(es);
    RunInv(es);
    var u :=
      if s.writer.Some? then s.writer.value
      else if s.readers != {} then (var r :| r in s.readers; r)
      else t;
    var p := At(s, u);
    assert Knows(s, p);
    e := if p.In? then Leave(u)
         else if !p.Drain? then Advance(u)
         else if s.dio > 0 then Complete
         else if s.swap > 0 then SwapEnd
         else Advance(u);
  }
}
