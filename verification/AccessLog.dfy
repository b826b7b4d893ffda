/**
 The access cache told from the event log: when a lookup must hit and when it must not, what stays
 cached, and in which order entries are given up.
 */
module AccessLog {
  import opened Lists
  import opened Wrappers
  import opened AccessTree
  import opened AccessCache
  import opened AccessRuns

  // ------------------------------------------------ lookups

  // Times less than half the range of the counter apart.
  predicate Near(a: nat, b: nat) { -TWO63 < a - b < TWO63 }

  lemma AfterIsLater(a: nat, b: nat)
    requires Near(a, b)
    ensures After(a, b) <==> a > b
  {
    if a >= b {
      assert (a - b) % TWO64 == a - b;
    } else {
      assert (a - b) % TWO64 == a - b + TWO64;
    }
  }

  // Whatever the times: later means that their difference, read as a signed 64-bit number, is positive.
  lemma AfterIsSigned(a: nat, b: nat, n: int, q: int)
    requires a - b == n + q * TWO64 && -TWO63 <= n < TWO63
    ensures After(a, b) <==> n > 0
  {
    assert (a - b) % TWO64 == n % TWO64;
  }

  // What a lookup must answer for an entry, or for none, on an inode that is not marked invalid.
  function Expected(x: Inode, e: Option<Entry>, login: nat, stale: bool, retry: bool, mayBlock: bool): Answer {
    if e.None? || e.value !in x.lru then NoEntry
    else if stale && retry then if mayBlock then Revalidate else WouldBlock
    else if login <= e.value.timestamp then Hit(e.value.mask)
    else NoEntry
  }

  lemma FoundIsLastValid(limit: nat, es: seq<Event>, i: nat, c: Cred)
    requires i < |Run(limit, es).inodes| && !Run(limit, es).inodes[i].invalid
    ensures var x := Run(limit, es).inodes[i];
      var e := LastValid(es, i, c);
      Search(x.tree, c) == if e.Some? && e.value in x.lru then e else None
  {
    var x := Run(limit, es).inodes[i];
    RunOk(limit, es);
    NothingOlderThanInvalidation(limit, es);
    assert InodeOk(x);
    var found := Search(x.tree, c);
    if found.Some? {
      SearchIff(x.tree, c, found.value);
      assert LastValid(es, i, found.value.cred) == found;
    }
    var e := LastValid(es, i, c);
    if e.Some? && e.value in x.lru {
      LastValidFor(es, i, c);
      SearchIff(x.tree, c, e.value);
    }
  }

  lemma {:induction false} LastValidFor(es: seq<Event>, i: nat, c: Cred)
    ensures LastValid(es, i, c).Some? ==> LastValid(es, i, c).value.cred == c
  {
    if es != [] { LastValidFor(es[..|es|-1], i, c); }
  }

  // A lookup on a valid inode hits if and only if the entry last stored for the credential since the
  // last zap and the last invalidation is still cached and was stored no earlier than the login.
  lemma LookupAnswers(limit: nat, es: seq<Event>, i: nat, c: Cred, login: nat, stale: bool, retry: bool, mayBlock: bool)
    requires i < |Run(limit, es).inodes|
    requires LastValid(es, i, c).Some? ==> Near(login, LastValid(es, i, c).value.timestamp)
    ensures var x := Run(limit, es).inodes[i];
      Locked(x, c, login, stale, retry, mayBlock).0
      == if x.invalid then Zapped else Expected(x, LastValid(es, i, c), login, stale, retry, mayBlock)
  {
    var x := Run(limit, es).inodes[i];
    if !x.invalid {
      FoundIsLastValid(limit, es, i, c);
      var e := LastValid(es, i, c);
      if e.Some? { AfterIsLater(login, e.value.timestamp); }
    }
  }

  // The lock-free check succeeds if and only if that entry is also the one used last and nothing is stale.
  lemma FastAnswers(limit: nat, es: seq<Event>, i: nat, c: Cred, login: nat, stale: bool, mask: nat)
    requires i < |Run(limit, es).inodes|
    requires LastValid(es, i, c).Some? ==> Near(login, LastValid(es, i, c).value.timestamp)
    ensures var x := Run(limit, es).inodes[i];
      var e := LastValid(es, i, c);
      Fast(x, c, login, stale) == Some(mask) <==>
        && !x.invalid && !stale && e.Some? && x.lru != [] && x.lru[|x.lru|-1] == e.value
        && login <= e.value.timestamp && e.value.mask == mask
  {
    var x := Run(limit, es).inodes[i];
    var e := LastValid(es, i, c);
    if !x.invalid && x.lru != [] {
      var tail := x.lru[|x.lru|-1];
      RunOk(limit, es);
      CmpTotal(c, tail.cred);
      LastValidFor(es, i, c);
      assert tail in x.lru;
      if tail.cred == c {
        assert InodeOk(x);
        SearchIff(x.tree, c, tail);
        FoundIsLastValid(limit, es, i, c);
        AfterIsLater(login, tail.timestamp);
      }
    }
  }

  // ------------------------------------------------ what stays cached

  // The inode's entries are given up by this step: a zap, or a lookup that finds it invalid.
  predicate Zaps(s: State, e: Event, k: nat) {
    k < |s.inodes| && (e == ZapEvent(k) || (e.Lookup? && e.i == k && s.inodes[k].invalid))
  }

  predicate Stored(e: Event, k: nat, c: Cred) { e.InsertEvent? && e.i == k && e.entry.cred == c }

  // What the shrinker and the limit leave is the younger end of the list.
  ghost predicate Younger(a: seq<Entry>, b: seq<Entry>) { |b| <= |a| && b == a[|a|-|b|..] }

  predicate Scans(e: Event) { e.ScanEvent? || e.EnforceEvent? }

  lemma VisitYounger(s: State, i: nat, k: nat)
    requires i < |s.inodes| && k < |s.inodes|
    ensures |Visit(s, i).inodes| == |s.inodes| && Younger(s.inodes[k].lru, Visit(s, i).inodes[k].lru)
    ensures Visit(s, i).inodes[k].invalid == s.inodes[k].invalid
  {
    var a, b := s.inodes[k].lru, Visit(s, i).inodes[k].lru;
    if k == i && a != [] { assert b == a[1..]; } else { assert b == a && a[0..] == a; }
  }

  lemma YoungerTrans(a: seq<Entry>, b: seq<Entry>, c: seq<Entry>)
    requires Younger(a, b) && Younger(b, c)
    ensures Younger(a, c)
  {
    assert a[|a|-|b|..][|b|-|c|..] == a[|a|-|c|..];
  }

  lemma ListedKnown(s: State, i: nat)
    requires Ok(s) && i in s.list
    ensures i < |s.inodes|
  {
  }

  lemma YoungerSelf(a: seq<Entry>)
    ensures Younger(a, a)
  {
  }

  lemma {:induction false} ScanYounger(s: State, i: nat, n: nat, k: nat)
    requires Ok(s) && i in s.list && k < |s.inodes|
    ensures |ScanFrom(s, i, n).inodes| == |s.inodes| && Younger(s.inodes[k].lru, ScanFrom(s, i, n).inodes[k].lru)
    ensures ScanFrom(s, i, n).inodes[k].invalid == s.inodes[k].invalid
    decreases n
  {
    hide Ok, Visit, Younger, NextOf;
    YoungerSelf(s.inodes[k].lru);
    ListedKnown(s, i);
    if n > 0 {
      VisitNext(s, i);
      VisitYounger(s, i, k);
      var next := NextOf(s.list, i);
      if next.Some? {
        ScanYounger(Visit(s, i), next.value, n - 1, k);
        YoungerTrans(s.inodes[k].lru, Visit(s, i).inodes[k].lru, ScanFrom(s, i, n).inodes[k].lru);
      }
    }
  }

  // Shrinker and limit take the entries used longest ago and leave the rest in order.
  lemma ScanTakesOldest(s: State, e: Event, k: nat)
    requires Ok(s) && Enabled(s, e) && Scans(e) && k < |s.inodes|
    ensures k < |Step(s, e).inodes| && Younger(s.inodes[k].lru, Step(s, e).inodes[k].lru)
    ensures Step(s, e).inodes[k].invalid == s.inodes[k].invalid
  {
    hide Ok, Younger, ScanFrom;
    YoungerSelf(s.inodes[k].lru);
    if s.list != [] {
      assert s.list[0] in s.list;
      if e.ScanEvent? {
        ScanYounger(s, s.list[0], e.n, k);
      } else if s.count > s.limit {
        ScanYounger(s, s.list[0], if s.count - s.limit < 100 then s.count - s.limit else 100, k);
      }
    }
  }

  // A turn of the scan moves the head of the list behind the others or takes it out, so the saved
  // neighbour is the new head.
  lemma VisitHead(s: State)
    requires Ok(s) && s.list != []
    ensures s.list[0] < |s.inodes|
    ensures Visit(s, s.list[0]).list == s.list[1..] + [s.list[0]] || Visit(s, s.list[0]).list == s.list[1..]
    ensures NextOf(s.list, s.list[0]) == if |s.list| == 1 then None else Some(s.list[1])
  {
    var i := s.list[0];
    assert i in s.list;
    WithoutMissing(s.list[1..], i);
  }

  lemma {:induction false} WithoutMissing(list: seq<nat>, i: nat)
    requires i !in list
    ensures Without(list, i) == list
  {
    if list != [] { WithoutMissing(list[1..], i); }
  }

  predicate Freed(s: State, t: State, n: nat) {
    && (t.count == s.count - n || (|t.list| <= 1 && s.count - n < t.count))
    && (|s.list| == 1 && n > 0 ==> t.count == s.count - 1)
  }

  // A scan frees as many entries as it was asked to, unless it comes down to a single inode: there it
  // stops after one entry.
  lemma {:induction false} ScanFrees(s: State, n: nat)
    requires Ok(s) && s.list != []
    ensures Freed(s, ScanFrom(s, s.list[0], n), n)
    decreases n
  {
    hide Ok, Visit, NextOf;
    if n > 0 {
      var i := s.list[0];
      assert i in s.list;
      VisitHead(s);
      VisitNext(s, i);
      var t := Visit(s, i);
      if |s.list| == 1 {
        assert ScanFrom(s, i, n) == t;
      } else {
        assert t.list[0] == s.list[1];
        ScanFrees(t, n - 1);
        assert ScanFrom(s, i, n) == ScanFrom(t, t.list[0], n - 1);
      }
    }
  }

  // Every other step: an entry is cached afterwards exactly when it was stored by the step, or was
  // cached and neither replaced nor given up.
  lemma KeptIff(s: State, e: Event, k: nat, y: Entry)
    requires Ok(s) && Enabled(s, e) && !Scans(e) && k < |s.inodes|
    ensures k < |Step(s, e).inodes|
    ensures y in Step(s, e).inodes[k].lru <==>
      (Stored(e, k, y.cred) && e.entry == y) || (y in s.inodes[k].lru && !Stored(e, k, y.cred) && !Zaps(s, e, k))
  {
    match e
    case ZapEvent(i) => ZapEmpties(s, i, k);
    case Lookup(i, c, login, stale, retry, mayBlock) =>
      if s.inodes[i].invalid { ZapEmpties(s, i, k); } else { LookupKeeps(s, e, k, y); }
    case _ =>
  }

  lemma ZapEmpties(s: State, i: nat, k: nat)
    requires Ok(s) && i < |s.inodes| && k < |s.inodes|
    ensures k < |Zap(s, i).inodes| && Zap(s, i).inodes[k].lru == if k == i then [] else s.inodes[k].lru
    ensures Zap(s, i).inodes[k].invalid == (s.inodes[k].invalid && !(k == i && s.inodes[i].lru != []))
  {
    var x := s.inodes[i];
    UnhookOk(x);
    NodeIffListed(x);
  }

  lemma LookupKeeps(s: State, e: Event, k: nat, y: Entry)
    requires Ok(s) && Enabled(s, e) && e.Lookup? && !s.inodes[e.i].invalid && k < |s.inodes|
    ensures k < |Step(s, e).inodes| && (y in Step(s, e).inodes[k].lru <==> y in s.inodes[k].lru)
  {
    LockedOk(s.inodes[e.i], e.cred, e.login, e.stale, e.retry, e.mayBlock);
    assert InodeOk(s.inodes[k]) && InodeOk(s.inodes[e.i]);
  }

  // The entry y of inode k, stored by the event at position n, is not touched by the j-th event.
  ghost predicate Spares(limit: nat, es: seq<Event>, j: nat, k: nat, y: Entry)
    requires j < |es|
  {
    var s, e := Run(limit, es[..j]), es[j];
    Enabled(s, e) ==>
      if Scans(e) then k < |Step(s, e).inodes| && y in Step(s, e).inodes[k].lru
      else !Stored(e, k, y.cred) && !Zaps(s, e, k)
  }

  // An entry that was stored stays until it is replaced, zapped or taken by the shrinker or the limit.
  lemma {:induction false} StaysCached(limit: nat, es: seq<Event>, n: nat, m: nat, k: nat, y: Entry)
    requires n < m <= |es| && es[n] == InsertEvent(k, y) && k < |Run(limit, es[..n]).inodes|
    requires forall j :: n < j < m ==> Spares(limit, es, j, k, y)
    ensures k < |Run(limit, es[..m]).inodes| && y in Run(limit, es[..m]).inodes[k].lru
    decreases m
  {
    hide Ok, Step;
    var s, e := Run(limit, es[..m-1]), es[m-1];
    assert es[..m][..m-1] == es[..m-1];
    RunOk(limit, es[..m-1]);
    if m > n + 1 {
      StaysCached(limit, es, n, m - 1, k, y);
      assert Spares(limit, es, m - 1, k, y);
    }
    if Enabled(s, e) && !Scans(e) { KeptIff(s, e, k, y); }
    if m == n + 1 { assert Enabled(s, e); }
  }

  // ------------------------------------------------ the order of use

  // The j-th event uses the credential's entry of inode k: it stores it, or finds it.
  predicate Uses(s: State, e: Event, k: nat, c: Cred) {
    || Stored(e, k, c)
    || (e.Lookup? && e.i == k && e.cred == c && k < |s.inodes|
        && Locked(s.inodes[k], c, e.login, e.stale, e.retry, e.mayBlock).0.Hit?)
  }

  // One more than the position of the last use; zero if there was none.
  function LastUse(limit: nat, es: seq<Event>, k: nat, c: Cred): nat {
    if es == [] then 0
    else if Enabled(Run(limit, es[..|es|-1]), es[|es|-1]) && Uses(Run(limit, es[..|es|-1]), es[|es|-1], k, c) then |es|
    else LastUse(limit, es[..|es|-1], k, c)
  }

  lemma {:induction false} LastUseBound(limit: nat, es: seq<Event>, k: nat, c: Cred)
    ensures LastUse(limit, es, k, c) <= |es|
  {
    if es != [] { LastUseBound(limit, es[..|es|-1], k, c); }
  }

  // The list goes from the entry used longest ago to the one used last.
  ghost predicate ByUse(limit: nat, es: seq<Event>, k: nat, lru: seq<Entry>) {
    forall p, q :: 0 <= p < q < |lru| ==> LastUse(limit, es, k, lru[p].cred) < LastUse(limit, es, k, lru[q].cred)
  }

  lemma {:induction false} DropOrder(limit: nat, es: seq<Event>, k: nat, lru: seq<Entry>, c: Cred)
    requires ByUse(limit, es, k, lru)
    ensures ByUse(limit, es, k, Drop(lru, c))
  {
    hide LastUse;
    if lru != [] {
      var rest := lru[1..];
      RestOrder(limit, es, k, lru);
      DropOrder(limit, es, k, rest, c);
      if lru[0].cred != c { ConsOrder(limit, es, k, lru[0], Drop(rest, c)); }
    }
  }

  lemma RestOrder(limit: nat, es: seq<Event>, k: nat, lru: seq<Entry>)
    requires lru != [] && ByUse(limit, es, k, lru)
    ensures ByUse(limit, es, k, lru[1..])
    ensures forall y :: y in lru[1..] ==> LastUse(limit, es, k, lru[0].cred) < LastUse(limit, es, k, y.cred)
  {
    hide LastUse;
    var rest := lru[1..];
    assert forall p :: 0 <= p < |rest| ==> rest[p] == lru[p+1];
  }

  lemma ConsOrder(limit: nat, es: seq<Event>, k: nat, e: Entry, r: seq<Entry>)
    requires ByUse(limit, es, k, r)
    requires forall y :: y in r ==> LastUse(limit, es, k, e.cred) < LastUse(limit, es, k, y.cred)
    ensures ByUse(limit, es, k, [e] + r)
  {
    hide LastUse;
    var all := [e] + r;
    forall p, q | 0 <= p < q < |all| ensures LastUse(limit, es, k, all[p].cred) < LastUse(limit, es, k, all[q].cred) {
      assert all[q] == r[q-1] && r[q-1] in r;
      if p > 0 { assert all[p] == r[p-1]; }
    }
  }

  lemma TailOrder(limit: nat, es: seq<Event>, k: nat, a: seq<Entry>, b: seq<Entry>)
    requires ByUse(limit, es, k, a) && Younger(a, b)
    ensures ByUse(limit, es, k, b)
  {
    var m := |a| - |b|;
    assert forall p :: 0 <= p < |b| ==> b[p] == a[m+p];
  }

  // Uses of none of the entries but the last change.
  lemma UsedLast(limit: nat, es: seq<Event>, k: nat, rest: seq<Entry>, e: Entry)
    requires es != [] && ByUse(limit, es[..|es|-1], k, rest)
    requires (forall y :: y in rest ==> y.cred != e.cred)
    requires forall c :: c != e.cred ==> LastUse(limit, es, k, c) == LastUse(limit, es[..|es|-1], k, c)
    requires LastUse(limit, es, k, e.cred) == |es|
    ensures ByUse(limit, es, k, rest + [e])
  {
    var all := rest + [e];
    forall p, q | 0 <= p < q < |all| ensures LastUse(limit, es, k, all[p].cred) < LastUse(limit, es, k, all[q].cred) {
      assert all[p] == rest[p] && rest[p] in rest;
      LastUseBound(limit, es[..|es|-1], k, rest[p].cred);
      if q < |rest| { assert all[q] == rest[q] && rest[q] in rest; }
    }
  }

  lemma Unused(limit: nat, es: seq<Event>, k: nat, lru: seq<Entry>)
    requires es != [] && ByUse(limit, es[..|es|-1], k, lru)
    requires forall c :: LastUse(limit, es, k, c) == LastUse(limit, es[..|es|-1], k, c)
    ensures ByUse(limit, es, k, lru)
  {
  }

  // What a step does to the list of inode k, when it is not a scan.
  ghost predicate ListLaw(s: State, e: Event, k: nat, a: seq<Entry>, b: seq<Entry>) {
    || (b == [] && forall c :: !Uses(s, e, k, c))
    || (b == a && forall c :: !Uses(s, e, k, c))
    || exists y: Entry :: b == Drop(a, y.cred) + [y] && forall c :: Uses(s, e, k, c) <==> c == y.cred
  }

  lemma UsedList(s: State, e: Event, k: nat)
    requires Ok(s) && Enabled(s, e) && !Scans(e) && k < |s.inodes|
    ensures k < |Step(s, e).inodes| && ListLaw(s, e, k, s.inodes[k].lru, Step(s, e).inodes[k].lru)
  {
    if e.Lookup? {
      LookupList(s, e, k);
    } else {
      hide Ok;
      if e.ZapEvent? { ZapEmpties(s, e.i, k); }
    }
  }

  lemma LookupList(s: State, e: Event, k: nat)
    requires Ok(s) && Enabled(s, e) && e.Lookup? && k < |s.inodes|
    ensures k < |Step(s, e).inodes| && ListLaw(s, e, k, s.inodes[k].lru, Step(s, e).inodes[k].lru)
  {
    if s.inodes[e.i].invalid {
      hide Ok, Drop;
      ZapEmpties(s, e.i, k);
    } else {
      var (a, x) := Locked(s.inodes[e.i], e.cred, e.login, e.stale, e.retry, e.mayBlock);
      HitList(s.inodes[e.i], e);
      assert InodeOk(s.inodes[e.i]);
      hide Ok, Drop, Locked;
      assert Step(s, e).inodes[k] == if e.i == k then x else s.inodes[k];
    }
  }

  lemma HitList(x: Inode, e: Event)
    requires InodeOk(x) && e.Lookup? && !x.invalid
    ensures var (a, y) := Locked(x, e.cred, e.login, e.stale, e.retry, e.mayBlock);
      && !a.Zapped?
      && (if a.Hit? then exists z: Entry :: z.cred == e.cred && y.lru == Drop(x.lru, z.cred) + [z] else y.lru == x.lru)
  {
    hide Drop;
    var found := Search(x.tree, e.cred);
    if found.Some? { SearchIff(x.tree, e.cred, found.value); }
  }

  // The least recently used end of the list really is: over every run each inode's list is ordered by
  // the last use of its entries, stores and hits alike.
  lemma {:induction false} ListIsByUse(limit: nat, es: seq<Event>, k: nat)
    requires k < |Run(limit, es).inodes|
    ensures ByUse(limit, es, k, Run(limit, es).inodes[k].lru)
  {
    if es != [] {
      var before, e := es[..|es|-1], es[|es|-1];
      var s := Run(limit, before);
      RunOk(limit, before);
      if k < |s.inodes| {
        ListIsByUse(limit, before, k);
        if Enabled(s, e) { StepByUse(limit, es, k); } else { Unused(limit, es, k, s.inodes[k].lru); }
      } else {
        NewIsEmpty(s, e, k);
      }
    }
  }

  lemma NewIsEmpty(s: State, e: Event, k: nat)
    requires Ok(s) && Enabled(s, e) && |s.inodes| <= k < |Step(s, e).inodes|
    ensures Step(s, e).inodes[k].lru == []
  {
    match e
    case ZapEvent(i) => ZapOk(s, i);
    case Lookup(i, _, _, _, _, _) => ZapOk(s, i);
    case EnforceEvent => if s.list != [] { EnforceOk(s); }
    case ScanEvent(n) => if s.list != [] { ScanOk(s, s.list[0], n); }
    case _ =>
  }

  lemma StepByUse(limit: nat, es: seq<Event>, k: nat)
    requires es != [] && Ok(Run(limit, es[..|es|-1])) && k < |Run(limit, es[..|es|-1]).inodes|
    requires Enabled(Run(limit, es[..|es|-1]), es[|es|-1])
    requires ByUse(limit, es[..|es|-1], k, Run(limit, es[..|es|-1]).inodes[k].lru)
    ensures k < |Run(limit, es).inodes| && ByUse(limit, es, k, Run(limit, es).inodes[k].lru)
  {
    hide Ok, Step, Uses, ByUse, Drop;
    var before, e := es[..|es|-1], es[|es|-1];
    var s := Run(limit, before);
    var a := s.inodes[k].lru;
    if Scans(e) {
      ScanTakesOldest(s, e, k);
      ScanUsesNothing(s, e, k);
      TailOrder(limit, before, k, a, Step(s, e).inodes[k].lru);
      Unused(limit, es, k, Step(s, e).inodes[k].lru);
    } else {
      UsedList(s, e, k);
      var b := Step(s, e).inodes[k].lru;
      if b == [] {
        EmptyByUse(limit, es, k);
      } else if b == a && forall c :: !Uses(s, e, k, c) {
        Unused(limit, es, k, a);
      } else {
        var y: Entry :| b == Drop(a, y.cred) + [y] && forall c :: Uses(s, e, k, c) <==> c == y.cred;
        DropOrder(limit, before, k, a, y.cred);
        UsedLast(limit, es, k, Drop(a, y.cred), y);
      }
    }
  }

  lemma EmptyByUse(limit: nat, es: seq<Event>, k: nat)
    ensures ByUse(limit, es, k, [])
  {
  }

  lemma ScanUsesNothing(s: State, e: Event, k: nat)
    requires Scans(e)
    ensures forall c :: !Uses(s, e, k, c)
  {
  }

  // ------------------------------------------------ validity

  // Told from the log: declared invalid, and its entries not given up since.
  predicate InvalidByLog(limit: nat, es: seq<Event>, k: nat) {
    es != [] &&
    var before, e := es[..|es|-1], es[|es|-1];
    var s := Run(limit, before);
    if Enabled(s, e) && e == Invalidate(k) then true
    else InvalidByLog(limit, before, k) && !(Enabled(s, e) && Zaps(s, e, k) && s.inodes[k].lru != [])
  }

  lemma StepInvalidIff(s: State, e: Event, k: nat)
    requires Ok(s) && Enabled(s, e) && k < |s.inodes|
    ensures k < |Step(s, e).inodes|
    ensures Step(s, e).inodes[k].invalid ==
      (e == Invalidate(k) || (s.inodes[k].invalid && !(Zaps(s, e, k) && s.inodes[k].lru != [])))
  {
    match e
    case ZapEvent(i) => ZapEmpties(s, i, k);
    case Lookup(i, _, _, _, _, _) => if s.inodes[i].invalid { ZapEmpties(s, i, k); }
    case EnforceEvent => ScanTakesOldest(s, e, k);
    case ScanEvent(_) => ScanTakesOldest(s, e, k);
    case _ =>
  }

  lemma NewIsValid(s: State, e: Event, k: nat)
    requires Ok(s) && Enabled(s, e) && |s.inodes| <= k < |Step(s, e).inodes|
    ensures !Step(s, e).inodes[k].invalid
  {
    match e
    case ZapEvent(i) => ZapOk(s, i);
    case Lookup(i, _, _, _, _, _) => ZapOk(s, i);
    case EnforceEvent => if s.list != [] { EnforceOk(s); }
    case ScanEvent(n) => if s.list != [] { ScanOk(s, s.list[0], n); }
    case _ =>
  }

  // An inode is marked invalid exactly when it was declared so and its entries were not given up since.
  lemma {:induction false} InvalidIff(limit: nat, es: seq<Event>, k: nat)
    ensures k < |Run(limit, es).inodes| ==> Run(limit, es).inodes[k].invalid == InvalidByLog(limit, es, k)
    ensures k >= |Run(limit, es).inodes| ==> !InvalidByLog(limit, es, k)
  {
    if es != [] {
      hide Ok, Step, Enabled;
      var before, e := es[..|es|-1], es[|es|-1];
      var s := Run(limit, before);
      InvalidIff(limit, before, k);
      RunOk(limit, before);
      if Enabled(s, e) {
        StepMade(s, e);
        if k < |s.inodes| {
          StepInvalidIff(s, e, k);
        } else {
          OnlyKnown(s, e, k);
          if k < |Step(s, e).inodes| { NewIsValid(s, e, k); }
        }
      }
    }
  }

  lemma OnlyKnown(s: State, e: Event, k: nat)
    requires Enabled(s, e) && k >= |s.inodes|
    ensures e != Invalidate(k)
  {
  }

  // ------------------------------------------------ the inodes

  function Made(es: seq<Event>): nat {
    if es == [] then 0 else Made(es[..|es|-1]) + if es[|es|-1].NewInode? then 1 else 0
  }

  lemma StepMade(s: State, e: Event)
    requires Ok(s) && Enabled(s, e)
    ensures |Step(s, e).inodes| == |s.inodes| + if e.NewInode? then 1 else 0
  {
    match e
    case ZapEvent(i) => ZapOk(s, i);
    case Lookup(i, _, _, _, _, _) => ZapOk(s, i);
    case EnforceEvent => if s.list != [] { EnforceOk(s); }
    case ScanEvent(n) => if s.list != [] { ScanOk(s, s.list[0], n); }
    case _ =>
  }

  // Inodes come as they are made, and none goes.
  lemma {:induction false} InodesAreMade(limit: nat, es: seq<Event>)
    ensures |Run(limit, es).inodes| == Made(es)
  {
    if es != [] {
      hide Ok, Step;
      InodesAreMade(limit, es[..|es|-1]);
      RunOk(limit, es[..|es|-1]);
      var s, e := Run(limit, es[..|es|-1]), es[|es|-1];
      if Enabled(s, e) { StepMade(s, e); }
    }
  }
}
