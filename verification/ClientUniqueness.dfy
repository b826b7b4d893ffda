/**
 What every run of the client-sharing protocol keeps: the list holds exactly the live records, each
 referenced as often as it is used, and at most one usable record per key.
 */
module ClientUniqueness {
  import opened Lists
  import opened Wrappers
  import opened ClientSharing

  // ------------------------------------------------ the list and the references

  ghost predicate Listed(s: State) {
    && (forall c :: c in s.list <==> c in s.clients)
    && NoRepeats(s.list)
    && (forall c :: c in s.clients ==> c < s.next)
  }

  // The record a thread holds a reference to.
  function Held(p: Pc): Option<nat> {
    match p
    case Waiting(_, _, c) => Some(c)
    case Found(_, c) => Some(c)
    case Initialising(_, c) => Some(c)
    case Holding(c) => Some(c)
    case _ => None
  }

  ghost function Holders(s: State, c: nat): set<nat> { set t | t in s.pcs && Held(s.pcs[t]) == Some(c) }

  // Every record's count is what others and the threads hold, and one more for a reference that is
  // on its way out; it is never zero, and no thread's record is gone.
  ghost predicate Counted(s: State, leaving: Option<nat>) {
    && (forall c :: c in s.clients ==>
         && s.clients[c].count > 0
         && s.clients[c].count == s.clients[c].base + |Holders(s, c)| + (if leaving == Some(c) then 1 else 0))
    && (forall t :: t in s.pcs && Held(s.pcs[t]).Some? ==> Held(s.pcs[t]).value in s.clients)
  }

  lemma GotoHolders(s: State, t: nat, p: Pc, c: nat)
    ensures |Holders(Goto(s, t, p), c)| - |Holders(s, c)|
         == (if Held(p) == Some(c) then 1 else 0) - (if Held(At(s, t)) == Some(c) then 1 else 0)
  {
    CardMove(Holders(s, c), Holders(Goto(s, t, p), c), t);
  }

  // A thread moves on and lets go of what it held.
  lemma GotoCounted(s: State, t: nat, p: Pc)
    requires Counted(s, None) && (Held(p).None? || Held(p) == Held(At(s, t)))
    ensures Counted(Goto(s, t, p), if Held(p).None? then Held(At(s, t)) else None)
  {
    forall c | c in s.clients
      ensures |Holders(Goto(s, t, p), c)| - |Holders(s, c)|
           == (if Held(p) == Some(c) then 1 else 0) - (if Held(At(s, t)) == Some(c) then 1 else 0)
    {
      GotoHolders(s, t, p, c);
    }
  }

  // A thread takes a reference to c.
  lemma TakeCounted(s: State, t: nat, p: Pc, c: nat)
    requires Counted(s, None) && c in s.clients && Held(p) == Some(c) && Held(At(s, t)) != Some(c)
    ensures Counted(Goto(GetClient(s, c), t, p), Held(At(s, t)))
  {
    var s' := Goto(GetClient(s, c), t, p);
    forall d | d in s.clients
      ensures |Holders(s', d)| - |Holders(s, d)| == (if d == c then 1 else 0) - (if Held(At(s, t)) == Some(d) then 1 else 0)
    {
      GotoHolders(s, t, p, d);
      assert Holders(s', d) == Holders(Goto(s, t, p), d);
    }
  }

  lemma NoHolder(s: State, t: nat, c: nat)
    requires |Holders(s, c)| == 0 && t in s.pcs
    ensures Held(s.pcs[t]) != Some(c)
  {
    assert t !in Holders(s, c);
  }

  lemma PutCounted(s: State, c: nat)
    requires Counted(s, Some(c)) && c in s.clients
    ensures Counted(PutClient(s, c), None)
  {
    var s' := PutClient(s, c);
    assert forall d :: Holders(s', d) == Holders(s, d);
    if s.clients[c].count == 1 {
      forall t | t in s'.pcs && Held(s'.pcs[t]).Some? ensures Held(s'.pcs[t]).value in s'.clients {
        NoHolder(s, t, c);
      }
    }
  }

  // Only what the counting looks at matters.
  ghost predicate SameCounts(s: State, s': State) {
    && s'.pcs == s.pcs && s'.clients.Keys == s.clients.Keys
    && forall c :: c in s.clients ==> s'.clients[c].count == s.clients[c].count && s'.clients[c].base == s.clients[c].base
  }

  lemma SameCountsCounted(s: State, s': State, leaving: Option<nat>)
    requires Counted(s, leaving) && SameCounts(s, s')
    ensures Counted(s', leaving)
  {
    assert forall c :: Holders(s', c) == Holders(s, c);
  }

  lemma InsertCounted(s: State, t: nat, key: Key)
    requires Counted(s, None) && Listed(s) && Held(At(s, t)).None?
    ensures Counted(Insert(s, t, key), None)
  {
    var s' := Insert(s, t, key);
    var p := Initialising(key, s.next);
    forall c | c in s'.clients
      ensures s'.clients[c].count > 0 && s'.clients[c].count == s'.clients[c].base + |Holders(s', c)|
    {
      GotoHolders(s, t, p, c);
      assert Holders(s', c) == Holders(Goto(s, t, p), c);
      if c == s.next { NobodyHolds(s, c); }
    }
  }

  lemma NobodyHolds(s: State, c: nat)
    requires Counted(s, None) && c !in s.clients
    ensures |Holders(s, c)| == 0
  {
    assert forall t :: t in s.pcs ==> Held(s.pcs[t]) != Some(c);
    assert Holders(s, c) == {};
  }

  // ------------------------------------------------ the search

  // The record is for the requested server: its own address or a further one is the requested
  // address, and the requests that made it and look for it agree in everything else.
  predicate Serves(cl: Client, key: Key) {
    key.addr in cl.extra + {cl.key.addr} && cl.key == key.(addr := cl.key.addr)
  }

  // The search has nothing to do with this record: it has failed, or is ready and for another server.
  predicate Passed(cl: Client, key: Key) { cl.cons < 0 || (cl.cons == 0 && !Serves(cl, key)) }

  // The i-th record is the first that cannot be passed.
  predicate FirstAt(clients: map<nat, Client>, list: seq<nat>, key: Key, i: nat) {
    && i < |list| && (forall j :: 0 <= j <= i ==> list[j] in clients)
    && !Passed(clients[list[i]], key) && forall j :: 0 <= j < i ==> Passed(clients[list[j]], key)
  }

  lemma FirstTail(clients: map<nat, Client>, list: seq<nat>, key: Key, i: nat)
    requires list != [] && list[0] in clients && Passed(clients[list[0]], key) && FirstAt(clients, list[1..], key, i)
    ensures FirstAt(clients, list, key, i + 1)
  {
    forall j | 0 <= j <= i + 1 ensures list[j] in clients && (j < i + 1 ==> Passed(clients[list[j]], key)) {
      if j > 0 { assert list[j] == list[1..][j-1]; }
    }
  }

  // The search stops at the first record that has not failed and is not for another server: it waits
  // for one under construction and takes one that is ready.
  lemma {:induction false} ScanMeaning(clients: map<nat, Client>, list: seq<nat>, key: Key)
    requires forall i :: 0 <= i < |list| ==> list[i] in clients
    ensures match Scan(clients, list, key)
      case Wait(c) => c in list && clients[c].cons > 0
        && exists i :: 0 <= i < |list| && list[i] == c && FirstAt(clients, list, key, i)
      case Match(c) => c in list && clients[c].cons == 0 && Serves(clients[c], key)
        && exists i :: 0 <= i < |list| && list[i] == c && FirstAt(clients, list, key, i)
      case NoMatch => forall c :: c in list ==> Passed(clients[c], key)
  {
    if list != [] {
      ScanMeaning(clients, list[1..], key);
      if Passed(clients[list[0]], key) {
        var out := Scan(clients, list[1..], key);
        if !out.NoMatch? {
          var i :| 0 <= i < |list[1..]| && list[1..][i] == out.c && FirstAt(clients, list[1..], key, i);
          FirstTail(clients, list, key, i);
          assert list[i+1] == out.c;
        }
      } else {
        assert FirstAt(clients, list, key, 0);
      }
    }
  }

  lemma PutListed(s: State, c: nat)
    requires Listed(s) && c in s.clients
    ensures Listed(PutClient(s, c))
  {
    WithoutNoRepeats(s.list, c);
  }

  lemma InsertListed(s: State, t: nat, key: Key)
    requires Listed(s)
    ensures Listed(Insert(s, t, key))
  {
    assert s.next !in s.list;
  }

  // ------------------------------------------------ each step

  ghost predicate Sound(s: State) { Listed(s) && Counted(s, None) }

  lemma PutSound(s: State, t: nat, p: Pc)
    requires Sound(s) && Held(p).None? && Held(At(s, t)).Some? && Held(At(s, t)).value in s.clients
    ensures Sound(Goto(PutClient(s, Held(At(s, t)).value), t, p))
  {
    var c := Held(At(s, t)).value;
    GotoCounted(s, t, p);
    PutCounted(Goto(s, t, p), c);
    PutListed(Goto(s, t, p), c);
    assert Goto(PutClient(s, c), t, p) == PutClient(Goto(s, t, p), c);
  }

  lemma MoveSound(s: State, t: nat, p: Pc)
    requires Sound(s) && Held(p) == Held(At(s, t))
    ensures Sound(Goto(s, t, p))
  {
    GotoCounted(s, t, p);
  }

  lemma ConsSound(s: State, c: nat, cons: int)
    requires Sound(s) && c in s.clients
    ensures Sound(SetCons(s, c, cons))
  {
    SameCountsCounted(s, SetCons(s, c, cons), None);
  }

  lemma LookSound(s: State, t: nat)
    requires Sound(s) && At(s, t).Looking?
    ensures Sound(LookStep(s, t))
  {
    var p := At(s, t);
    ScanMeaning(s.clients, s.list, p.key);
    match Scan(s.clients, s.list, p.key)
    case Wait(c) => TakeCounted(s, t, Waiting(p.key, p.spare, c), c);
    case Match(c) => TakeCounted(s, t, Found(p.key, c), c);
    case NoMatch =>
      if p.spare {
        InsertCounted(s, t, p.key);
        InsertListed(s, t, p.key);
      } else {
        MoveSound(s, t, Allocating(p.key));
      }
  }

  // The trunking step with its last reference dropped last.
  function BeforeTrunkPut(s: State, t: nat, c: nat, other: nat): State
    requires c in s.clients && other in s.clients
  {
    SetCons(Goto(GetClient(s, other), t, Holding(other)), c, -1)
  }

  lemma TrunkOrder(s: State, t: nat, other: nat)
    requires Enabled(s, Trunk(t, other))
    ensures Step(s, Trunk(t, other)) == PutClient(BeforeTrunkPut(s, t, At(s, t).c, other), At(s, t).c)
  {
  }

  lemma BeforeTrunkPutSound(s: State, t: nat, c: nat, other: nat)
    requires Sound(s) && c in s.clients && other in s.clients && other != c && Held(At(s, t)) == Some(c)
    ensures Listed(BeforeTrunkPut(s, t, c, other)) && Counted(BeforeTrunkPut(s, t, c, other), Some(c))
  {
    var s1 := Goto(GetClient(s, other), t, Holding(other));
    TakeCounted(s, t, Holding(other), other);
    SameCountsCounted(s1, SetCons(s1, c, -1), Some(c));
  }

  lemma TrunkSound(s: State, t: nat, other: nat)
    requires Sound(s) && Enabled(s, Trunk(t, other))
    ensures Sound(Step(s, Trunk(t, other)))
  {
    var c := At(s, t).c;
    TrunkOrder(s, t, other);
    BeforeTrunkPutSound(s, t, c, other);
    PutCounted(BeforeTrunkPut(s, t, c, other), c);
    PutListed(BeforeTrunkPut(s, t, c, other), c);
  }

  lemma DoneSound(s: State, t: nat, ok: bool)
    requires Sound(s) && Enabled(s, Done(t, ok))
    ensures Sound(Step(s, Done(t, ok)))
  {
    var c := At(s, t).c;
    if ok {
      MoveSound(s, t, Holding(c));
    } else {
      ConsSound(s, c, -1);
      PutSound(SetCons(s, c, -1), t, Idle);
    }
  }

  // Somebody outside lets go of c.
  lemma LeaveCounted(s: State, c: nat)
    requires Counted(s, None) && c in s.clients && s.clients[c].base > 0
    ensures Counted(s.(clients := s.clients[c := s.clients[c].(base := s.clients[c].base - 1)]), Some(c))
  {
    var s1 := s.(clients := s.clients[c := s.clients[c].(base := s.clients[c].base - 1)]);
    assert forall d :: Holders(s1, d) == Holders(s, d);
  }

  lemma LeaveListed(s: State, c: nat)
    requires Listed(s) && c in s.clients && s.clients[c].base > 0
    ensures Listed(s.(clients := s.clients[c := s.clients[c].(base := s.clients[c].base - 1)]))
  {
  }

  lemma PutOutsideSound(s: State, c: nat)
    requires Sound(s) && Enabled(s, Put(c))
    ensures Sound(Step(s, Put(c)))
  {
    hide Counted, Listed;
    var s1 := s.(clients := s.clients[c := s.clients[c].(base := s.clients[c].base - 1)]);
    LeaveCounted(s, c);
    LeaveListed(s, c);
    PutCounted(s1, c);
    PutListed(s1, c);
  }

  lemma OutsideSound(s: State, e: Event)
    requires Sound(s) && Enabled(s, e) && (e.AddAddress? || e.Get? || e.Put?)
    ensures Sound(Step(s, e))
  {
    if e.Put? {
      PutOutsideSound(s, e.c);
    } else {
      assert forall d :: Holders(Step(s, e), d) == Holders(s, d);
    }
  }

  lemma StepSound(s: State, e: Event)
    requires Sound(s) && Enabled(s, e)
    ensures Sound(Step(s, e))
  {
    match e
    case Begin(t, key) => MoveSound(s, t, Looking(key, false));
    case Look(t) => LookSound(s, t);
    case Allocate(t, ok) => MoveSound(s, t, if ok then Looking(At(s, t).key, true) else Idle);
    case Wake(t, killed) => PutSound(s, t, if killed then Idle else Looking(At(s, t).key, At(s, t).spare));
    case Check(t, killed) =>
      if killed || s.clients[At(s, t).c].cons < 0 { PutSound(s, t, Idle); } else { MoveSound(s, t, Holding(At(s, t).c)); }
    case Done(t, ok) => DoneSound(s, t, ok);
    case Trunk(t, other) => TrunkSound(s, t, other);
    case Release(t) => PutSound(s, t, Idle);
    case Mark(c, cons) => ConsSound(s, c, cons);
    case _ => OutsideSound(s, e);
  }

  lemma {:induction false} RunSound(es: seq<Event>)
    ensures Sound(Run(es))
  {
    if es == [] {
      assert forall c :: Holders(Start(), c) == {};
    } else {
      RunSound(es[..|es|-1]);
      var s := Run(es[..|es|-1]);
      if Enabled(s, es[|es|-1]) { StepSound(s, es[|es|-1]); }
    }
  }

  // ------------------------------------------------ one usable record per key

  ghost predicate Unique(s: State) {
    forall c, d :: c in s.clients && d in s.clients && c != d && s.clients[c].key == s.clients[d].key ==>
      !(Usable(s.clients[c]) && Usable(s.clients[d]))
  }

  // Another usable record has this one's key.
  ghost predicate Rival(s: State, c: nat)
    requires c in s.clients
  {
    exists d :: d in s.clients && d != c && s.clients[d].key == s.clients[c].key && Usable(s.clients[d])
  }

  // Records only go away or fail.
  ghost predicate Shrinks(s: State, s': State) {
    forall c :: c in s'.clients ==>
      c in s.clients && s'.clients[c].key == s.clients[c].key && (Usable(s'.clients[c]) ==> Usable(s.clients[c]))
  }

  lemma ShrinksUnique(s: State, s': State)
    requires Unique(s) && Shrinks(s, s')
    ensures Unique(s')
  {
  }

  // A mark keeps the records apart exactly when it does not bring back a record that has been replaced.
  lemma MarkUniqueIff(s: State, c: nat, cons: int)
    requires Unique(s) && c in s.clients
    ensures Unique(SetCons(s, c, cons)) <==> !(cons >= 0 && Rival(s, c))
  {
    var s' := SetCons(s, c, cons);
    if cons >= 0 && Rival(s, c) {
      var d :| d in s.clients && d != c && s.clients[d].key == s.clients[c].key && Usable(s.clients[d]);
      assert Usable(s'.clients[c]) && Usable(s'.clients[d]) && s'.clients[c].key == s'.clients[d].key;
    }
  }

  lemma LookUnique(s: State, t: nat)
    requires Unique(s) && Sound(s) && At(s, t).Looking?
    ensures Unique(LookStep(s, t))
  {
    hide Counted;
    var key := At(s, t).key;
    ScanMeaning(s.clients, s.list, key);
    if Scan(s.clients, s.list, key).NoMatch? && At(s, t).spare {
      forall c | c in s.clients && Usable(s.clients[c]) ensures s.clients[c].key != key {
        assert c in s.list;
      }
      InsertUnique(s, t, key);
    } else {
      ShrinksUnique(s, LookStep(s, t));
    }
  }

  lemma InsertUnique(s: State, t: nat, key: Key)
    requires Unique(s) && s.next !in s.clients
    requires forall c :: c in s.clients && Usable(s.clients[c]) ==> s.clients[c].key != key
    ensures Unique(Insert(s, t, key))
  {
  }

  predicate Revives(s: State, e: Event) { e.Mark? && e.c in s.clients && e.cons >= 0 && !Usable(s.clients[e.c]) }

  lemma StepUnique(s: State, e: Event)
    requires Unique(s) && Sound(s) && Enabled(s, e) && (Revives(s, e) ==> !Rival(s, e.c))
    ensures Unique(Step(s, e))
  {
    if e.Look? {
      LookUnique(s, e.t);
    } else if e.Mark? {
      MarkUniqueIff(s, e.c, e.cons);
    } else {
      StepShrinks(s, e);
      ShrinksUnique(s, Step(s, e));
    }
  }

  lemma PutShrinks(s: State, c: nat)
    requires c in s.clients
    ensures Shrinks(s, PutClient(s, c))
  {
  }

  lemma StepShrinks(s: State, e: Event)
    requires Enabled(s, e) && !e.Look? && !e.Mark?
    ensures Shrinks(s, Step(s, e))
  {
    match e
    case Wake(t, _) => PutShrinks(s, At(s, t).c);
    case Check(t, _) => PutShrinks(s, At(s, t).c);
    case Release(t) => PutShrinks(s, At(s, t).c);
    case Done(t, _) => PutShrinks(SetCons(s, At(s, t).c, -1), At(s, t).c);
    case Trunk(t, other) => PutShrinks(SetCons(GetClient(s, other), At(s, t).c, -1), At(s, t).c);
    case Put(c) => PutShrinks(s.(clients := s.clients[c := s.clients[c].(base := s.clients[c].base - 1)]), c);
    case _ =>
  }

  // No step of the run makes a failed record usable again while another has taken its place.
  ghost predicate NoRevival(es: seq<Event>) {
    es == [] ||
      var s := Run(es[..|es|-1]);
      var e := es[|es|-1];
      NoRevival(es[..|es|-1]) && (Enabled(s, e) && Revives(s, e) ==> !Rival(s, e.c))
  }

  // ------------------------------------------------ theorems

  lemma {:induction false} OneUsableClient(es: seq<Event>)
    requires NoRevival(es)
    ensures Unique(Run(es))
  {
    if es != [] {
      var s := Run(es[..|es|-1]);
      OneUsableClient(es[..|es|-1]);
      RunSound(es[..|es|-1]);
      if Enabled(s, es[|es|-1]) { StepUnique(s, es[|es|-1]); }
    }
  }

  // At most one usable record per key, all the time.
  ghost predicate AlwaysUnique(es: seq<Event>) { forall k :: 0 <= k <= |es| ==> Unique(Run(es[..k])) }

  lemma AlwaysPrefix(es: seq<Event>, n: nat)
    requires AlwaysUnique(es) && n <= |es|
    ensures AlwaysUnique(es[..n]) && Unique(Run(es[..n]))
  {
    forall k | 0 <= k <= n ensures Unique(Run(es[..n][..k])) { assert es[..n][..k] == es[..k]; }
  }

  // A step from uniqueness to uniqueness revives nobody who has been replaced.
  lemma UniqueStepRevivesNobody(s: State, e: Event)
    requires Unique(s) && Enabled(s, e) && Unique(Step(s, e)) && Revives(s, e)
    ensures !Rival(s, e.c)
  {
    MarkUniqueIff(s, e.c, e.cons);
  }

  lemma {:induction false} UniqueRevivesNobody(es: seq<Event>)
    requires AlwaysUnique(es)
    ensures NoRevival(es)
  {
    if es != [] {
      var s, e := Run(es[..|es|-1]), es[|es|-1];
      AlwaysPrefix(es, |es| - 1);
      UniqueRevivesNobody(es[..|es|-1]);
      assert es[..|es|] == es;
      if Enabled(s, e) && Revives(s, e) { UniqueStepRevivesNobody(s, e); }
    }
  }

  lemma {:induction false} NoRevivalPrefix(es: seq<Event>, n: nat)
    requires NoRevival(es) && n <= |es|
    ensures NoRevival(es[..n])
  {
    if n < |es| {
      NoRevivalPrefix(es[..|es|-1], n);
      assert es[..|es|-1][..n] == es[..n];
    } else {
      assert es[..n] == es;
    }
  }

  // Throughout a run there is at most one usable record per key exactly when no record that has
  // failed and been replaced is made usable again.
  lemma UniqueIffNoRevival(es: seq<Event>)
    ensures AlwaysUnique(es) <==> NoRevival(es)
  {
    if AlwaysUnique(es) {
      UniqueRevivesNobody(es);
    } else if NoRevival(es) {
      forall k | 0 <= k <= |es| ensures Unique(Run(es[..k])) {
        NoRevivalPrefix(es, k);
        OneUsableClient(es[..k]);
      }
    }
  }

  // One mark.
  lemma RevivalMakesTwo(es: seq<Event>, c: nat, cons: int)
    requires Unique(Run(es)) && c in Run(es).clients && cons >= 0
    ensures Unique(Run(es + [Mark(c, cons)])) <==> !Rival(Run(es), c)
  {
    hide Unique;
    assert (es + [Mark(c, cons)])[..|es|] == es;
    MarkUniqueIff(Run(es), c, cons);
  }

  // A thread's way to a record of its own while no other can be used.
  function Makes(t: nat, key: Key): seq<Event> { [Begin(t, key), Look(t), Allocate(t, true), Look(t)] }

  function RunFrom(s: State, es: seq<Event>): State
    decreases |es|
  {
    if es == [] then s else RunFrom(if Enabled(s, es[0]) then Step(s, es[0]) else s, es[1..])
  }

  lemma {:induction false} RunSplit(a: seq<Event>, b: seq<Event>)
    ensures Run(a + b) == RunFrom(Run(a), b)
    decreases |b|
  {
    if b == [] {
      assert a + b == a;
    } else {
      assert a + b == (a + [b[0]]) + b[1..];
      assert (a + [b[0]])[..|a|] == a;
      RunSplit(a + [b[0]], b[1..]);
    }
  }

  lemma MakesRecord(s: State, t: nat, key: Key)
    requires At(s, t).Idle? && (forall i :: 0 <= i < |s.list| ==> s.list[i] in s.clients)
    requires Scan(s.clients, s.list, key).NoMatch?
    ensures var s' := RunFrom(s, Makes(t, key));
      && s'.clients == s.clients[s.next := Client(key, 1, 1, 0, {})] && s'.list == s.list + [s.next]
      && s'.next == s.next + 1 && forall u :: u != t ==> At(s', u) == At(s, u)
  {
    var es := Makes(t, key);
    var s1 := Step(s, es[0]);
    var s2 := Step(s1, es[1]);
    var s3 := Step(s2, es[2]);
    assert es[1..] == [es[1], es[2], es[3]] && es[2..] == [es[2], es[3]] && es[3..] == [es[3]] && es[4..] == [];
    assert es[1..][1..] == es[2..] && es[2..][1..] == es[3..] && es[3..][1..] == [];
    assert RunFrom(s, es) == RunFrom(s1, es[1..]) == RunFrom(s2, es[2..]) == RunFrom(s3, es[3..]) == Step(s3, es[3]);
  }

  lemma FailedRecord(key: Key) returns (es: seq<Event>)
    ensures var s := Run(es);
      s.clients == map[0 := Client(key, -1, 1, 0, {})] && s.list == [0] && s.next == 1 && At(s, 1).Idle?
  {
    var a := Makes(0, key);
    MakesRecord(Start(), 0, key);
    assert [] + a == a;
    RunSplit([], a);
    assert At(Run(a), 1) == At(Start(), 1);
    es := a + [Mark(0, -1)];
    assert es[..|a|] == a;
  }

  lemma ReplacedRecord(key: Key) returns (es: seq<Event>)
    ensures var s := Run(es);
      s.clients == map[0 := Client(key, -1, 1, 0, {}), 1 := Client(key, 1, 1, 0, {})]
  {
    es := FailedRecord(key);
    assert [0][1..] == [];
    MakesRecord(Run(es), 1, key);
    RunSplit(es, Makes(1, key));
    es := es + Makes(1, key);
  }

  // Such runs exist: a record fails, another thread makes a new one, and the first is marked ready.
  lemma TwoUsableClients(key: Key) returns (es: seq<Event>)
    ensures !Unique(Run(es)) && !NoRevival(es)
  {
    var d := ReplacedRecord(key);
    es := d + [Mark(0, 0)];
    assert es[..|d|] == d;
    var s := Run(es);
    assert 0 in s.clients && 1 in s.clients && s.clients[0].key == s.clients[1].key;
    if NoRevival(es) { OneUsableClient(es); }
  }

  // Records are on the list exactly as long as they are referenced, and no thread's record is freed.
  lemma ListedIsReferenced(es: seq<Event>, c: nat, t: nat)
    ensures var s := Run(es);
      && (c in s.list <==> c in s.clients)
      && (c in s.clients ==> s.clients[c].count > 0 && s.clients[c].count == s.clients[c].base + |Holders(s, c)|)
      && (Held(At(s, t)).Some? ==> Held(At(s, t)).value in s.list)
  {
    RunSound(es);
  }

  // ------------------------------------------------ what a search returns

  // The record a thread has found is for the server it asked for.
  ghost predicate FoundMatches(s: State) {
    forall t :: At(s, t).Found? ==> At(s, t).c in s.clients && Serves(s.clients[At(s, t).c], At(s, t).key)
  }

  // A record keeps its key and only gains addresses.
  lemma PutGrows(s: State, c: nat, d: nat)
    requires c in s.clients && d in PutClient(s, c).clients
    ensures d in s.clients && PutClient(s, c).clients[d].(count := 0) == s.clients[d].(count := 0)
  {
  }

  predicate Grown(s: State, s': State, c: nat) {
    c in s.clients && c in s'.clients ==>
      s'.clients[c].key == s.clients[c].key && s.clients[c].extra <= s'.clients[c].extra
  }

  lemma LookGrows(s: State, t: nat, c: nat)
    requires Enabled(s, Look(t)) && s.next !in s.clients
    ensures Grown(s, LookStep(s, t), c)
  {
  }

  lemma StepGrows(s: State, e: Event, c: nat)
    requires Enabled(s, e) && s.next !in s.clients && c in Step(s, e).clients
    ensures Grown(s, Step(s, e), c)
  {
    match e
    case Look(t) => LookGrows(s, t, c);
    case Wake(t, _) => PutGrows(s, At(s, t).c, c);
    case Check(t, killed) => if killed || s.clients[At(s, t).c].cons < 0 { PutGrows(s, At(s, t).c, c); }
    case Release(t) => PutGrows(s, At(s, t).c, c);
    case Done(t, ok) => if !ok { PutGrows(SetCons(s, At(s, t).c, -1), At(s, t).c, c); }
    case Trunk(t, other) => PutGrows(SetCons(GetClient(s, other), At(s, t).c, -1), At(s, t).c, c);
    case Put(d) => PutGrows(s.(clients := s.clients[d := s.clients[d].(base := s.clients[d].base - 1)]), d, c);
    case _ =>
  }

  lemma LookFinds(s: State, t: nat)
    requires Enabled(s, Look(t)) && At(LookStep(s, t), t).Found?
    ensures var p := At(LookStep(s, t), t);
      Scan(s.clients, s.list, At(s, t).key) == Match(p.c) && p.key == At(s, t).key
  {
  }

  lemma LookLeavesOthers(s: State, t: nat, u: nat)
    requires Enabled(s, Look(t)) && u != t
    ensures At(LookStep(s, t), u) == At(s, u)
  {
  }

  lemma OthersFindNothing(s: State, e: Event, t: nat)
    requires Enabled(s, e) && !e.Look? && At(Step(s, e), t).Found?
    ensures At(s, t) == At(Step(s, e), t)
  {
  }

  lemma StepFoundMatches(s: State, e: Event, t: nat)
    requires FoundMatches(s) && Sound(s) && Enabled(s, e) && Sound(Step(s, e)) && At(Step(s, e), t).Found?
    ensures var p := At(Step(s, e), t);
      p.c in Step(s, e).clients && Serves(Step(s, e).clients[p.c], p.key)
  {
    hide Holders, Goto;
    var s' := Step(s, e);
    var p := At(s', t);
    assert t in s'.pcs && Held(s'.pcs[t]) == Some(p.c);
    if e == Look(t) {
      LookFinds(s, t);
      ScanMeaning(s.clients, s.list, p.key);
    } else if e.Look? {
      LookLeavesOthers(s, e.t, t);
    } else {
      OthersFindNothing(s, e, t);
    }
    StepGrows(s, e, p.c);
  }

  lemma {:induction false} RunFoundMatches(es: seq<Event>)
    ensures FoundMatches(Run(es))
  {
    if es != [] {
      var s := Run(es[..|es|-1]);
      RunFoundMatches(es[..|es|-1]);
      RunSound(es[..|es|-1]);
      var e := es[|es|-1];
      if Enabled(s, e) {
        StepSound(s, e);
        forall t | At(Step(s, e), t).Found?
          ensures At(Step(s, e), t).c in Step(s, e).clients
            && Serves(Step(s, e).clients[At(Step(s, e), t).c], At(Step(s, e), t).key)
        {
          StepFoundMatches(s, e, t);
        }
      }
    }
  }

  // Whoever comes back with a record that was found has one that is ready and agrees with the
  // request field by field.
  lemma FoundIsReady(es: seq<Event>, t: nat)
    requires Enabled(Run(es), Check(t, false)) && At(Run(es + [Check(t, false)]), t).Holding?
    ensures var s := Run(es + [Check(t, false)]);
      && At(s, t).c in s.clients
      && var cl, key := s.clients[At(s, t).c], At(Run(es), t).key;
        && cl.cons == 0
        && cl.key.ops == key.ops && cl.key.proto == key.proto && cl.key.minor == key.minor
        && cl.key.dataServer == key.dataServer && cl.key.policy == key.policy
        && (cl.key.addr == key.addr || key.addr in cl.extra)
  {
    assert (es + [Check(t, false)])[..|es|] == es;
    RunFoundMatches(es);
  }

  // ------------------------------------------------ on fields updated in place

  class Net {
    var clients: map<nat, Client>
    var list: seq<nat>

    // nfs_match_client from "again" to where it drops the lock, with the reference it takes.
    method MatchClient(key: Key) returns (out: Outcome)
      requires forall i :: 0 <= i < |list| ==> list[i] in clients
      modifies this`clients
      ensures out == Scan(old(clients), list, key)
      ensures out.Match? ==> out.c in list && out.c in old(clients) && Serves(old(clients)[out.c], key)
      ensures out.NoMatch? ==> forall c :: c in list && c in clients ==> Passed(clients[c], key)
      ensures !out.NoMatch? ==> out.c in old(clients)
      ensures clients == if out.NoMatch? then old(clients)
                         else old(clients)[out.c := old(clients)[out.c].(count := old(clients)[out.c].count + 1)]
    {
      ScanMeaning(clients, list, key);
      for i := 0 to |list|
        invariant clients == old(clients) && Scan(clients, list[i..], key) == Scan(clients, list, key)
      {
        var c := list[i];
        var cl := clients[c];
        assert list[i..][1..] == list[i+1..];
        if cl.cons < 0 { continue; }
        if cl.cons > 0 {
          clients := clients[c := cl.(count := cl.count + 1)];
          return Wait(c);
        }
        if !Matches(cl, key) { continue; }
        clients := clients[c := cl.(count := cl.count + 1)];
        return Match(c);
      }
      out := NoMatch;
    }

    // mynfs_put_client
    method PutClientRef(c: nat) returns (freed: bool)
      requires c in clients && clients[c].count > 0
      modifies this
      ensures freed == (old(clients)[c].count == 1)
      ensures forall s: State :: s.clients == old(clients) && s.list == old(list) ==>
        PutClient(s, c) == s.(clients := clients, list := list)
    {
      var cl := clients[c];
      freed := cl.count == 1;
      if !freed {
        clients := clients[c := cl.(count := cl.count - 1)];
        return;
      }
      var kept := [];
      for i := 0 to |list|
        invariant kept + Without(list[i..], c) == Without(list, c)
      {
        assert list[i..][1..] == list[i+1..];
        if list[i] != c { kept := kept + [list[i]]; }
      }
      clients, list := clients - {c}, kept;
    }
  }
}
