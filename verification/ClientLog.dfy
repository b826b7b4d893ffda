/**
 Client sharing told from the event log: what each record is, where each thread goes, and which
 record a search comes back with.
 */
module ClientLog {
  import opened Lists
  import opened Wrappers
  import opened ClientSharing
  import opened ClientUniqueness

  // ------------------------------------------------ the order of the list

  ghost predicate Rising(q: seq<nat>) { forall i, j :: 0 <= i < j < |q| ==> q[i] < q[j] }

  lemma {:induction false} WithoutRising(q: seq<nat>, x: nat)
    requires Rising(q)
    ensures Rising(Without(q, x))
  {
    if q != [] {
      WithoutRising(q[1..], x);
      assert forall y :: y in q[1..] ==> q[0] < y;
      var r := Without(q[1..], x);
      if q[0] != x {
        forall j | 0 <= j < |r| ensures q[0] < r[j] { assert r[j] in r; }
      }
    }
  }

  lemma PutRising(s: State, c: nat)
    requires Rising(s.list) && c in s.clients
    ensures Rising(PutClient(s, c).list)
  {
    WithoutRising(s.list, c);
  }

  lemma LookRising(s: State, t: nat)
    requires Sound(s) && Rising(s.list) && Enabled(s, Look(t))
    ensures Rising(LookStep(s, t).list)
  {
    hide Scan;
    if Scan(s.clients, s.list, At(s, t).key).NoMatch? && At(s, t).spare {
      forall i | 0 <= i < |s.list| ensures s.list[i] < s.next { assert s.list[i] in s.list; }
    }
  }

  lemma StepRising(s: State, e: Event)
    requires Sound(s) && Rising(s.list) && Enabled(s, e)
    ensures Rising(Step(s, e).list)
  {
    hide Sound, Rising, PutClient;
    match e
    case Look(t) => LookRising(s, t);
    case Wake(t, _) => PutRising(s, At(s, t).c);
    case Check(t, killed) => if killed || s.clients[At(s, t).c].cons < 0 { PutRising(s, At(s, t).c); }
    case Done(t, ok) => if !ok { PutRising(SetCons(s, At(s, t).c, -1), At(s, t).c); }
    case Trunk(t, other) => PutRising(SetCons(GetClient(s, other), At(s, t).c, -1), At(s, t).c);
    case Release(t) => PutRising(s, At(s, t).c);
    case Put(c) => PutRising(s.(clients := s.clients[c := s.clients[c].(base := s.clients[c].base - 1)]), c);
    case _ =>
  }

  // Records stand on the list in the order in which they were made.
  lemma {:induction false} OldestFirst(es: seq<Event>)
    ensures Rising(Run(es).list)
  {
    if es != [] {
      hide Sound, Rising, Step, Enabled;
      var s, e := Run(es[..|es|-1]), es[|es|-1];
      RunSound(es[..|es|-1]);
      OldestFirst(es[..|es|-1]);
      if Enabled(s, e) { StepRising(s, e); }
    } else {
      assert Run(es).list == [];
    }
  }

  // ------------------------------------------------ the search

  // The oldest record the search cannot pass.
  ghost predicate Oldest(s: State, key: Key, c: nat) {
    && c in s.clients && !Passed(s.clients[c], key)
    && forall d :: d in s.clients && !Passed(s.clients[d], key) ==> c <= d
  }

  lemma FirstIsOldest(s: State, key: Key, i: nat)
    requires Sound(s) && Rising(s.list) && FirstAt(s.clients, s.list, key, i)
    ensures Oldest(s, key, s.list[i])
  {
    forall d | d in s.clients && !Passed(s.clients[d], key) ensures s.list[i] <= d {
      assert d in s.list;
      var j :| 0 <= j < |s.list| && s.list[j] == d;
    }
  }

  // Where a search ends, told from the live records alone.
  ghost predicate Decided(s: State, p: Pc, p': Pc)
    requires p.Looking?
  {
    && (p'.Allocating? || p'.Initialising? <==> forall c :: c in s.clients ==> Passed(s.clients[c], p.key))
    && (p'.Allocating? ==> !p.spare && p' == Allocating(p.key))
    && (p'.Initialising? ==> p.spare && p' == Initialising(p.key, s.next))
    && (p'.Waiting? ==> p' == Waiting(p.key, p.spare, p'.c) && Oldest(s, p.key, p'.c) && s.clients[p'.c].cons > 0)
    && (p'.Found? ==> p' == Found(p.key, p'.c) && Oldest(s, p.key, p'.c) && s.clients[p'.c].cons == 0)
    && !p'.Idle? && !p'.Looking? && !p'.Holding?
  }

  // A search makes a record only when every live one has failed or is for another server; otherwise it
  // ends at the oldest that is neither, waiting for it or taking it.
  lemma SearchDecides(es: seq<Event>, t: nat)
    requires Enabled(Run(es), Look(t))
    ensures Decided(Run(es), At(Run(es), t), At(Run(es + [Look(t)]), t))
  {
    assert (es + [Look(t)])[..|es|] == es;
    RunSound(es);
    OldestFirst(es);
    LookDecides(Run(es), t);
  }

  lemma LookDecides(s: State, t: nat)
    requires Sound(s) && Rising(s.list) && Enabled(s, Look(t))
    ensures Decided(s, At(s, t), At(LookStep(s, t), t))
  {
    var p := At(s, t);
    ScanMeaning(s.clients, s.list, p.key);
    var out := Scan(s.clients, s.list, p.key);
    match out
    case NoMatch =>
      forall c | c in s.clients ensures Passed(s.clients[c], p.key) { assert c in s.list; }
    case Wait(c) =>
      var i :| 0 <= i < |s.list| && s.list[i] == c && FirstAt(s.clients, s.list, p.key, i);
      FirstIsOldest(s, p.key, i);
    case Match(c) =>
      var i :| 0 <= i < |s.list| && s.list[i] == c && FirstAt(s.clients, s.list, p.key, i);
      FirstIsOldest(s, p.key, i);
  }

  // ------------------------------------------------ the threads

  // Where a thread goes, other than from a search.
  function Next(s: State, e: Event, p: Pc): Pc
    requires Enabled(s, e)
  {
    match e
    case Begin(_, key) => Looking(key, false)
    case Allocate(_, ok) => if p.Allocating? && ok then Looking(p.key, true) else Idle
    case Wake(_, killed) => if p.Waiting? && !killed then Looking(p.key, p.spare) else Idle
    case Check(_, killed) =>
      if p.Found? && !killed && p.c in s.clients && s.clients[p.c].cons == 0 then Holding(p.c) else Idle
    case Done(_, ok) => if p.Initialising? && ok then Holding(p.c) else Idle
    case Trunk(_, other) => Holding(other)
    case Release(_) => Idle
    case _ => p
  }

  predicate MovesThread(e: Event) {
    e.Begin? || e.Allocate? || e.Wake? || e.Check? || e.Done? || e.Trunk? || e.Release?
  }

  // Only its own steps move a thread, and each where it has to.
  lemma ThreadGoes(es: seq<Event>, e: Event, t: nat)
    requires Enabled(Run(es), e) && e != Look(t)
    ensures At(Run(es + [e]), t) == if MovesThread(e) && e.t == t then Next(Run(es), e, At(Run(es), t)) else At(Run(es), t)
  {
    assert (es + [e])[..|es|] == es;
    ThreadStep(Run(es), e, t);
  }

  lemma ThreadStep(s: State, e: Event, t: nat)
    requires Enabled(s, e) && e != Look(t)
    ensures At(Step(s, e), t) == if MovesThread(e) && e.t == t then Next(s, e, At(s, t)) else At(s, t)
  {
    if e.Look? { LookLeavesOthers(s, e.t, t); }
  }

  // ------------------------------------------------ the records

  // What a record is, apart from the references of the threads.
  datatype Account = Account(key: Key, cons: int, extra: set<nat>, base: int)

  function AccountOf(cl: Client): Account { Account(cl.key, cl.cons, cl.extra, cl.base) }

  // The step fails the record: its initialisation failed or found another record for the server.
  predicate Fails(s: State, e: Event, c: nat) {
    && ((e.Done? && !e.ok) || e.Trunk?)
    && At(s, e.t).Initialising? && At(s, e.t).c == c
  }

  function NextAccount(s: State, e: Event, c: nat, a: Account): Account {
    if Fails(s, e, c) then a.(cons := -1)
    else if e.Mark? && e.c == c then a.(cons := e.cons)
    else if e.AddAddress? && e.c == c then a.(extra := a.extra + {e.addr})
    else if e == Get(c) then a.(base := a.base + 1)
    else if e == Put(c) then a.(base := a.base - 1)
    else a
  }

  // A search makes the record: it brings a spare one and there is none it cannot pass.
  ghost predicate Makes(s: State, e: Event, c: nat) {
    && e.Look? && c == s.next && At(s, e.t).Looking? && At(s, e.t).spare
    && forall d :: d in s.clients ==> Passed(s.clients[d], At(s, e.t).key)
  }

  ghost predicate RecordLaw(s: State, e: Event, s': State, c: nat) {
    && (c in s'.clients ==>
         if c in s.clients then AccountOf(s'.clients[c]) == NextAccount(s, e, c, AccountOf(s.clients[c]))
         else Makes(s, e, c) && AccountOf(s'.clients[c]) == Account(At(s, e.t).key, 1, {}, 0))
    && s'.next == if Makes(s, e, s.next) then s.next + 1 else s.next
  }

  lemma PutAccount(s: State, c: nat, d: nat)
    requires c in s.clients && d in PutClient(s, c).clients
    ensures d in s.clients && AccountOf(PutClient(s, c).clients[d]) == AccountOf(s.clients[d])
  {
  }

  lemma LookAccount(s: State, t: nat, c: nat)
    requires Listed(s) && Enabled(s, Look(t))
    ensures RecordLaw(s, Look(t), LookStep(s, t), c)
  {
    hide Scan, Passed;
    var p := At(s, t);
    ScanMeaning(s.clients, s.list, p.key);
    if Scan(s.clients, s.list, p.key).NoMatch? {
      forall d | d in s.clients ensures Passed(s.clients[d], p.key) { assert d in s.list; }
    } else {
      assert exists d :: d in s.clients && !Passed(s.clients[d], p.key);
    }
  }

  lemma StepRecord(s: State, e: Event, c: nat)
    requires Listed(s) && Enabled(s, e)
    ensures RecordLaw(s, e, Step(s, e), c)
  {
    if e.Look? {
      LookAccount(s, e.t, c);
    } else {
      hide Step, AccountOf, NextAccount;
      if c in Step(s, e).clients { OtherAccount(s, e, c); }
      OtherNext(s, e);
    }
  }

  lemma OtherNext(s: State, e: Event)
    requires Enabled(s, e) && !e.Look?
    ensures Step(s, e).next == s.next
  {
  }

  lemma OtherAccount(s: State, e: Event, c: nat)
    requires Enabled(s, e) && !e.Look? && c in Step(s, e).clients
    ensures c in s.clients && AccountOf(Step(s, e).clients[c]) == NextAccount(s, e, c, AccountOf(s.clients[c]))
  {
    hide PutClient;
    match e
    case Wake(t, _) => PutAccount(s, At(s, t).c, c);
    case Check(t, killed) => if killed || s.clients[At(s, t).c].cons < 0 { PutAccount(s, At(s, t).c, c); }
    case Release(t) => PutAccount(s, At(s, t).c, c);
    case Done(t, ok) => if !ok { PutAccount(SetCons(s, At(s, t).c, -1), At(s, t).c, c); }
    case Trunk(t, other) => PutAccount(SetCons(GetClient(s, other), At(s, t).c, -1), At(s, t).c, c);
    case Put(d) => PutAccount(s.(clients := s.clients[d := s.clients[d].(base := s.clients[d].base - 1)]), d, c);
    case _ =>
  }

  // A record as the log has it: made by a search for its key, under construction, then as last marked
  // or failed, with the addresses added and the references of others taken and dropped since.
  ghost function RecordByLog(es: seq<Event>, c: nat): Option<Account> {
    if es == [] then None
    else
      var s, e := Run(es[..|es|-1]), es[|es|-1];
      var was := RecordByLog(es[..|es|-1], c);
      if !Enabled(s, e) then was
      else if was.Some? then Some(NextAccount(s, e, c, was.value))
      else if Makes(s, e, c) then Some(Account(At(s, e.t).key, 1, {}, 0))
      else None
  }

  lemma {:induction false} RecordIs(es: seq<Event>, c: nat)
    requires c in Run(es).clients
    ensures RecordByLog(es, c) == Some(AccountOf(Run(es).clients[c]))
  {
    if es != [] {
      hide Step, Enabled, Counted, AccountOf, NextAccount, Makes;
      var before, e := es[..|es|-1], es[|es|-1];
      var s := Run(before);
      RunSound(before);
      if Enabled(s, e) { StepRecord(s, e, c); }
      if c in s.clients {
        RecordIs(before, c);
      } else {
        Unmade(before, c);
      }
    }
  }

  // Before it is made, the log has nothing about a record.
  lemma {:induction false} Unmade(es: seq<Event>, c: nat)
    requires c >= Run(es).next
    ensures RecordByLog(es, c).None?
  {
    if es != [] {
      hide Counted, Step, Enabled;
      var s, e := Run(es[..|es|-1]), es[|es|-1];
      RunSound(es[..|es|-1]);
      if Enabled(s, e) { StepRecord(s, e, c); }
      Unmade(es[..|es|-1], c);
    }
  }
}
