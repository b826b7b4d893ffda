/**
 Buffered and direct I/O told from the event log: the flag, the counts of outstanding requests and
 the unsynced data, and the way each kind of thread takes when nobody is in its way.
 */
module IoLog {
  import opened Wrappers
  import opened IoExclusion

  // ------------------------------------------------ what the log says of the file

  // The step turns the file over: to direct I/O, or to buffered I/O.
  predicate SetsFlag(s: State, e: Event) { e.Advance? && At(s, e.t) == Excl(Direct) }

  predicate ClearsFlag(s: State, e: Event) { e.Advance? && (At(s, e.t) == Excl(Read) || At(s, e.t) == Excl(Write)) }

  predicate FlagByLog(es: seq<Event>) {
    es != [] &&
    var s, e := Run(es[..|es|-1]), es[|es|-1];
    SetsFlag(s, e) || (FlagByLog(es[..|es|-1]) && !ClearsFlag(s, e))
  }

  // Requests begun and not completed.
  function DioByLog(es: seq<Event>): int {
    if es == [] then 0
    else
      var s, e := Run(es[..|es|-1]), es[|es|-1];
      DioByLog(es[..|es|-1]) + if !Enabled(s, e) then 0 else if e.Begin? then 1 else if e.Complete? then -1 else 0
  }

  function SwapByLog(es: seq<Event>): int {
    if es == [] then 0
    else
      var s, e := Run(es[..|es|-1]), es[|es|-1];
      SwapByLog(es[..|es|-1]) + if !Enabled(s, e) then 0 else if e.SwapBegin? then 1 else if e.SwapEnd? then -1 else 0
  }

  // Something was written since a thread last pushed everything out.
  predicate UnsyncedByLog(es: seq<Event>) {
    es != [] &&
    var s, e := Run(es[..|es|-1]), es[|es|-1];
    || (Enabled(s, e) && e.Dirty?)
    || (UnsyncedByLog(es[..|es|-1]) && !(Enabled(s, e) && e.Advance? && At(s, e.t) == Sync))
  }

  predicate NextLaw(s: State, t: nat, s': State) {
    && s'.dio == s.dio && s'.swap == s.swap
    && s'.flag == (SetsFlag(s, Advance(t)) || (s.flag && !ClearsFlag(s, Advance(t))))
    && s'.unsynced == (s.unsynced && At(s, t) != Sync)
  }

  lemma NextIs(s: State, t: nat)
    requires Proper(At(s, t))
    ensures NextLaw(s, t, Next(s, t))
  {
  }

  // A lock operation that must wait leaves the flag to be tested later.
  lemma WaitsElsewhere(s: State, t: nat)
    requires !Enabled(s, Advance(t))
    ensures !SetsFlag(s, Advance(t)) && !ClearsFlag(s, Advance(t))
  {
  }

  // Over every run the flag is set exactly when the last thread that turned the file over wanted direct
  // I/O, the counts are the requests begun and not ended, and data is unsynced exactly when it was
  // written since the last sync.
  lemma {:induction false} FileByLog(es: seq<Event>)
    ensures var s := Run(es);
      s.flag == FlagByLog(es) && s.dio == DioByLog(es) && s.swap == SwapByLog(es) && s.unsynced == UnsyncedByLog(es)
  {
    if es != [] {
      hide Next, NextLaw;
      var before, e := es[..|es|-1], es[|es|-1];
      var s := Run(before);
      FileByLog(before);
      RunInv(before);
      if e.Advance? {
        if Enabled(s, e) { AdvanceLaw(s, e.t); } else { WaitsElsewhere(s, e.t); }
      }
    }
  }

  lemma AdvanceLaw(s: State, t: nat)
    requires Inv(s) && Enabled(s, Advance(t))
    ensures var s' := Step(s, Advance(t));
      && s'.dio == s.dio && s'.swap == s.swap
      && s'.flag == (SetsFlag(s, Advance(t)) || (s.flag && !ClearsFlag(s, Advance(t))))
      && s'.unsynced == (s.unsynced && At(s, t) != Sync)
  {
    assert Knows(s, At(s, t));
    NextIs(s, t);
  }

  // ------------------------------------------------ the way in

  function Walk(s: State, t: nat, n: nat): State
    decreases n
  {
    if n == 0 then s else Walk(Step(s, Advance(t)), t, n - 1)
  }

  // The file is as the thread wants it, or it does not care.
  predicate Suits(s: State, kind: Kind) {
    match kind
    case Direct => s.flag
    case Read => !s.flag
    case Write => !s.flag
    case _ => true
  }

  // What a thread finds when it is in: the file turned its way, and the lock it works under.
  function Inside(s: State, t: nat, kind: Kind): State {
    var u := s.(pcs := s.pcs[t := In(kind)],
                flag := if kind.Direct? then true else if kind.Read? || kind.Write? then false else s.flag,
                unsynced := s.unsynced && !(kind.Direct? && !s.flag));
    if Exclusive(In(kind)) then u.(writer := Some(t)) else u.(readers := s.readers + {t})
  }

  // The file as the thread wants it: one lock operation and one test.  Readers and direct threads get
  // by with the shared lock, next to others.
  lemma ShortWayIn(s: State, t: nat, kind: Kind)
    requires At(s, t).Idle? && Suits(s, kind) && s.writer.None? && t !in s.readers
    requires kind.Write? || kind.OtherExclusive? ==> s.readers == {}
    ensures Walk(Step(s, Enter(t, kind)), t, 1) == Inside(s, t, kind)
  {
    var a := Step(s, Enter(t, kind));
    assert a == Lock(s, t, FirstPc(kind));
    assert Walk(a, t, 1) == Walk(Step(a, Advance(t)), t, 0);
    assert At(a, t) == FirstPc(kind);
    assert Enabled(a, Advance(t));
    assert a.pcs[t := In(kind)] == s.pcs[t := In(kind)];
  }

  // Otherwise the thread turns the file over under the exclusive lock.  A write has it from the start.
  lemma LongWayForWrite(s: State, t: nat)
    requires At(s, t).Idle? && s.flag && s.writer.None? && s.readers == {} && s.dio == 0 && s.swap == 0
    ensures Walk(Step(s, Enter(t, Write)), t, 2) == Inside(s, t, Write)
  {
    var a := Step(s, Enter(t, Write));
    var b := Step(a, Advance(t));
    assert a == Lock(s, t, Excl(Write));
    assert b == Goto(a, t, Drain(Write)).(flag := false);
    var c := Step(b, Advance(t));
    assert c == Goto(b, t, In(Write));
    assert Walk(a, t, 2) == Walk(b, t, 1) == Walk(c, t, 0);
    assert c.pcs == s.pcs[t := In(Write)];
  }

  // Readers and direct threads give up the shared lock, take the exclusive one, turn the file over, wait
  // for what is outstanding, and downgrade.
  lemma LongWayForShared(s: State, t: nat, kind: Kind)
    requires kind.Read? || kind.Direct?
    requires At(s, t).Idle? && !Suits(s, kind) && s.writer.None? && s.readers == {}
    requires kind.Read? ==> s.dio == 0 && s.swap == 0
    ensures Walk(Step(s, Enter(t, kind)), t, 6) == Inside(s, t, kind)
  {
    hide Step, Next;
    var a := Step(s, Enter(t, kind));
    var b := Step(Step(a, Advance(t)), Advance(t));
    Turned(s, t, kind);
    WalkTwo(a, t, 4);
    WalkFour(b, t);
    SettledIn(b, t, kind);
    assert s.pcs[t := Want(kind)][t := In(kind)] == s.pcs[t := In(kind)];
  }

  lemma WalkTwo(s: State, t: nat, n: nat)
    ensures Walk(s, t, n + 2) == Walk(Step(Step(s, Advance(t)), Advance(t)), t, n)
  {
    hide Step;
    assert Walk(s, t, n + 2) == Walk(Step(s, Advance(t)), t, n + 1);
  }

  lemma WalkFour(s: State, t: nat)
    ensures Walk(s, t, 4) == Step(Step(Step(Step(s, Advance(t)), Advance(t)), Advance(t)), Advance(t))
  {
    hide Step;
    WalkTwo(s, t, 2);
    WalkTwo(Step(Step(s, Advance(t)), Advance(t)), t, 0);
  }

  // Back to wanting the exclusive lock.
  lemma Turned(s: State, t: nat, kind: Kind)
    requires kind.Read? || kind.Direct?
    requires At(s, t).Idle? && !Suits(s, kind) && s.writer.None? && s.readers == {}
    ensures Step(Step(Step(s, Enter(t, kind)), Advance(t)), Advance(t)) == s.(pcs := s.pcs[t := Want(kind)])
  {
    var a := Step(s, Enter(t, kind));
    assert a == Lock(s, t, Probe(kind));
    var b := Step(a, Advance(t));
    assert b == Goto(a, t, Retreat(kind));
    var c := Step(b, Advance(t));
    assert c == Unlock(b, t, Want(kind));
    assert c.pcs == s.pcs[t := Want(kind)] && c.readers == s.readers;
  }

  lemma SettledIn(s: State, t: nat, kind: Kind)
    requires kind.Read? || kind.Direct?
    requires At(s, t) == Want(kind) && !Suits(s, kind) && s.writer.None? && s.readers == {}
    requires kind.Read? ==> s.dio == 0 && s.swap == 0
    ensures Step(Step(Step(Step(s, Advance(t)), Advance(t)), Advance(t)), Advance(t)) == Inside(s, t, kind)
  {
    hide Step, Next;
    var b := Step(Step(s, Advance(t)), Advance(t));
    TurnedOver(s, t, kind);
    Downgraded(b, t, kind);
    assert s.pcs[t := if kind.Direct? then Sync else Drain(kind)][t := In(kind)] == s.pcs[t := In(kind)];
    assert s.readers + {t} == {t};
  }

  lemma Downgraded(s: State, t: nat, kind: Kind)
    requires kind.Read? || kind.Direct?
    requires At(s, t) == (if kind.Direct? then Sync else Drain(kind)) && s.readers == {}
    requires kind.Read? ==> s.dio == 0 && s.swap == 0
    ensures Step(Step(s, Advance(t)), Advance(t)) ==
      s.(pcs := s.pcs[t := In(kind)], writer := None, readers := {t}, unsynced := s.unsynced && !kind.Direct?)
  {
    var c := Step(s, Advance(t));
    assert c == Goto(s, t, Settle(kind)).(unsynced := s.unsynced && !kind.Direct?);
    var d := Step(c, Advance(t));
    assert d == Goto(c, t, In(kind)).(writer := None, readers := {t});
    assert d.pcs == s.pcs[t := In(kind)];
  }

  lemma TurnedOver(s: State, t: nat, kind: Kind)
    requires kind.Read? || kind.Direct?
    requires At(s, t) == Want(kind) && !Suits(s, kind) && s.writer.None? && s.readers == {}
    ensures Step(Step(s, Advance(t)), Advance(t)) ==
      s.(pcs := s.pcs[t := if kind.Direct? then Sync else Drain(kind)], writer := Some(t), flag := kind.Direct?)
  {
    var a := Step(s, Advance(t));
    assert a == Lock(s, t, Excl(kind));
    var b := Step(a, Advance(t));
    assert b == Goto(a, t, if kind.Direct? then Sync else Drain(kind)).(flag := kind.Direct?);
    assert b.pcs == s.pcs[t := if kind.Direct? then Sync else Drain(kind)];
  }

  // Leaving gives back exactly the lock.
  lemma WayOut(s: State, t: nat, kind: Kind)
    requires At(s, t).Idle? && s.writer.None? && t !in s.readers
    ensures var u := Step(Inside(s, t, kind), Leave(t));
      && u.writer.None? && u.readers == s.readers && At(u, t).Idle?
      && u.flag == Inside(s, t, kind).flag && u.dio == s.dio && u.swap == s.swap
      && u.unsynced == Inside(s, t, kind).unsynced
  {
    assert s.readers + {t} - {t} == s.readers;
  }
}
