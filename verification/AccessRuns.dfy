/**
 Lookups in the access cache, every run of its operations, and the operations on fields updated
 in place.
 */
module AccessRuns {
  import opened Lists
  import opened Wrappers
  import opened AccessTree
  import opened AccessCache

  // ------------------------------------------------ lookups

  // Signed comparison of 64-bit times.
  predicate After(a: nat, b: nat) { 0 < (a - b) % TWO64 < TWO63 }

  // nfs_access_get_cached_rcu.  stale: mynfs_check_cache_invalid says so.
  function Fast(x: Inode, c: Cred, login: nat, stale: bool): Option<nat> {
    if x.invalid || x.lru == [] then None
    else
      var e := x.lru[|x.lru|-1];
      if Cmp(c, e.cred) != 0 || After(login, e.timestamp) || stale then None else Some(e.mask)
  }

  datatype Answer = Hit(mask: nat) | NoEntry | WouldBlock | Revalidate | Zapped

  // nfs_access_get_cached_locked for one hold of the lock.
  function Locked(x: Inode, c: Cred, login: nat, stale: bool, retry: bool, mayBlock: bool): (Answer, Inode) {
    if x.invalid then (Zapped, x)
    else
      var found := Search(x.tree, c);
      if found.None? then (NoEntry, x)
      else if stale && retry then (if mayBlock then Revalidate else WouldBlock, x)
      else if After(login, found.value.timestamp) then (NoEntry, x)
      else (Hit(found.value.mask), x.(lru := Drop(x.lru, found.value.cred) + [found.value]))
  }

  lemma {:induction false} DropMissing(lru: seq<Entry>, c: Cred)
    requires forall e :: e in lru ==> e.cred != c
    ensures Drop(lru, c) == lru
  {
    if lru != [] {
      assert lru[0] in lru && forall e :: e in lru[1..] ==> e in lru;
      DropMissing(lru[1..], c);
    }
  }

  lemma {:induction false} DropSnoc(lru: seq<Entry>, e: Entry)
    ensures Drop(lru + [e], e.cred) == Drop(lru, e.cred)
  {
    if lru == [] {
      assert [e][1..] == [];
    } else {
      assert (lru + [e])[1..] == lru[1..] + [e];
      DropSnoc(lru[1..], e);
    }
  }

  lemma LastDiffers(lru: seq<Entry>, k: nat)
    requires UniqueKeys(lru) && k < |lru| - 1
    ensures lru[k].cred != lru[|lru|-1].cred
  {
  }

  // Moving the most recent entry to the end changes nothing.
  lemma TouchLast(rest: seq<Entry>, e: Entry)
    requires forall x :: x in rest ==> x.cred != e.cred
    ensures Drop(rest + [e], e.cred) + [e] == rest + [e]
  {
    DropSnoc(rest, e);
    DropMissing(rest, e.cred);
  }

  // When the lock-free check succeeds, the locked lookup gives the same mask and leaves the
  // same cache.
  lemma FastIsSlow(x: Inode, c: Cred, login: nat, stale: bool, retry: bool, mayBlock: bool)
    requires InodeOk(x) && Fast(x, c, login, stale).Some?
    ensures Locked(x, c, login, stale, retry, mayBlock) == (Hit(Fast(x, c, login, stale).value), x)
  {
    var e := x.lru[|x.lru|-1];
    CmpTotal(c, e.cred);
    assert e in x.lru;
    SearchIff(x.tree, c, e);
    var rest := x.lru[..|x.lru|-1];
    assert x.lru == rest + [e];
    forall y | y in rest ensures y.cred != e.cred {
      var k :| 0 <= k < |rest| && rest[k] == y;
      LastDiffers(x.lru, k);
    }
    TouchLast(rest, e);
  }

  lemma LockedOk(x: Inode, c: Cred, login: nat, stale: bool, retry: bool, mayBlock: bool)
    requires InodeOk(x)
    ensures var (a, y) := Locked(x, c, login, stale, retry, mayBlock);
      InodeOk(y) && y.tree == x.tree && y.bit == x.bit
  {
    var found := Search(x.tree, c);
    if found.Some? {
      SearchIff(x.tree, c, found.value);
      OneEach(x, found.value);
      DropUnique(x.lru, found.value.cred);
    }
  }

  // ------------------------------------------------ runs

  datatype Event =
    | NewInode
    | InsertEvent(i: nat, entry: Entry)  // nfs_access_add_cache up to the limit check
    | EnforceEvent                       // the limit check
    | SetLimit(limit: nat)               // the module parameter is written
    | ZapEvent(i: nat)
    | ScanEvent(n: nat)
    | Lookup(i: nat, cred: Cred, login: nat, stale: bool, retry: bool, mayBlock: bool)
    | Invalidate(i: nat)

  predicate Enabled(s: State, e: Event) {
    e.NewInode? || e.ScanEvent? || e.EnforceEvent? || e.SetLimit? || e.i < |s.inodes|
  }

  function Step(s: State, e: Event): State
    requires Enabled(s, e)
  {
    match e
    case NewInode => s.(inodes := s.inodes + [Inode(Leaf, [], false, false)])
    case InsertEvent(i, entry) => Insertion(s, i, entry)
    case EnforceEvent => Enforce(s)
    case SetLimit(limit) => s.(limit := limit)
    case ZapEvent(i) => Zap(s, i)
    case ScanEvent(n) => Scan(s, n)
    case Lookup(i, c, login, stale, retry, mayBlock) =>
      var (a, x) := Locked(s.inodes[i], c, login, stale, retry, mayBlock);
      if a.Zapped? then Zap(s, i) else Set(s, i, x)
    case Invalidate(i) => Set(s, i, s.inodes[i].(invalid := true))
  }

  function Run(limit: nat, es: seq<Event>): State {
    if es == [] then State([], [], 0, limit) else
      var s := Run(limit, es[..|es|-1]);
      if Enabled(s, es[|es|-1]) then Step(s, es[|es|-1]) else s
  }

  lemma {:induction false} TotalSnoc(inodes: seq<Inode>, x: Inode)
    ensures Total(inodes + [x]) == Total(inodes) + Size(x.tree)
  {
    if inodes == [] {
      assert [x][1..] == [];
    } else {
      assert (inodes + [x])[1..] == inodes[1..] + [x];
      TotalSnoc(inodes[1..], x);
    }
  }

  lemma StepOk(s: State, e: Event)
    requires Ok(s) && Enabled(s, e)
    ensures Ok(Step(s, e))
  {
    match e
    case NewInode => TotalSnoc(s.inodes, Inode(Leaf, [], false, false));
    case InsertEvent(i, entry) => InsertionOk(s, i, entry);
    case EnforceEvent => if s.list != [] { EnforceOk(s); }
    case SetLimit(_) =>
    case ZapEvent(i) => ZapOk(s, i);
    case ScanEvent(n) => if s.list != [] { ScanOk(s, s.list[0], n); }
    case Lookup(i, c, login, stale, retry, mayBlock) =>
      var (a, x) := Locked(s.inodes[i], c, login, stale, retry, mayBlock);
      LockedOk(s.inodes[i], c, login, stale, retry, mayBlock);
      if a.Zapped? { ZapOk(s, i); } else { SetOk(s, i, x, s.list, s.count); }
    case Invalidate(i) => SetOk(s, i, s.inodes[i].(invalid := true), s.list, s.count);
  }

  // In every run tree and LRU agree, an inode is listed exactly when its bit is set and exactly
  // when it has entries, and the count is the sum of the tree sizes.
  lemma {:induction false} RunOk(limit: nat, es: seq<Event>)
    ensures Ok(Run(limit, es))
  {
    if es != [] {
      RunOk(limit, es[..|es|-1]);
      var s := Run(limit, es[..|es|-1]);
      if Enabled(s, es[|es|-1]) { StepOk(s, es[|es|-1]); }
    }
  }

  // ------------------------------------------------ the limit

  // The highest limit in force so far.
  function Highest(limit: nat, es: seq<Event>): nat {
    if es == [] then limit
    else
      var h, e := Highest(limit, es[..|es|-1]), es[|es|-1];
      if e.SetLimit? && e.limit > h then e.limit else h
  }

  // Adders that have inserted and not yet checked the limit.
  function Pending(limit: nat, es: seq<Event>): nat {
    if es == [] then 0
    else
      var before, e := es[..|es|-1], es[|es|-1];
      var n := Pending(limit, before);
      if !Enabled(Run(limit, before), e) then n
      else if e.InsertEvent? then n + 1
      else if e.EnforceEvent? && n > 0 then n - 1
      else n
  }

  lemma {:induction false} CurrentLimit(limit: nat, es: seq<Event>)
    ensures Run(limit, es).limit <= Highest(limit, es)
  {
    if es != [] {
      CurrentLimit(limit, es[..|es|-1]);
      RunOk(limit, es[..|es|-1]);
      var s := Run(limit, es[..|es|-1]);
      if Enabled(s, es[|es|-1]) { StepLimit(s, es[|es|-1]); }
    }
  }

  lemma StepLimit(s: State, e: Event)
    requires Ok(s) && Enabled(s, e)
    ensures Step(s, e).limit == if e.SetLimit? then e.limit else s.limit
  {
    match e
    case EnforceEvent => if s.list != [] { EnforceOk(s); }
    case ScanEvent(n) => if s.list != [] { ScanOk(s, s.list[0], n); }
    case _ =>
  }

  // Something to drop is on the list.
  lemma {:induction false} TotalZero(inodes: seq<Inode>)
    requires forall i :: 0 <= i < |inodes| ==> inodes[i].tree.Leaf?
    ensures Total(inodes) == 0
  {
    if inodes != [] { TotalZero(inodes[1..]); }
  }

  lemma StepCount(s: State, e: Event)
    requires Ok(s) && Enabled(s, e)
    ensures Step(s, e).count <= s.count + (if e.InsertEvent? then 1 else 0)
    ensures e.EnforceEvent? ==> Step(s, e).count <= s.limit || Step(s, e).count < s.count
  {
    match e
    case InsertEvent(i, entry) => InsertionOk(s, i, entry);
    case EnforceEvent => if s.list != [] { EnforceOk(s); } else { TotalZero(s.inodes); }
    case ScanEvent(n) => if s.list != [] { ScanOk(s, s.list[0], n); }
    case _ =>
  }

  // However adders interleave and the limit is moved, the count exceeds the highest limit in force
  // so far by at most the number of adders that have not checked it yet.
  lemma {:induction false} CountWithinLimit(limit: nat, es: seq<Event>)
    ensures 0 <= Run(limit, es).count <= Highest(limit, es) + Pending(limit, es)
  {
    RunOk(limit, es);
    if es != [] {
      var before := es[..|es|-1];
      CountWithinLimit(limit, before);
      CurrentLimit(limit, before);
      RunOk(limit, before);
      if Enabled(Run(limit, before), es[|es|-1]) { StepCount(Run(limit, before), es[|es|-1]); }
    }
  }

  // ------------------------------------------------ what is cached

  // The entry last added for a credential since the last zap.
  function LastAdded(es: seq<Event>, i: nat, c: Cred): Option<Entry> {
    if es == [] then None
    else
      var e := es[|es|-1];
      if e.InsertEvent? && e.i == i && e.entry.cred == c then Some(e.entry)
      else if e == ZapEvent(i) then None
      else LastAdded(es[..|es|-1], i, c)
  }

  // The entry last added for a credential since the last zap and the last invalidation.
  function LastValid(es: seq<Event>, i: nat, c: Cred): Option<Entry> {
    if es == [] then None
    else
      var e := es[|es|-1];
      if e.InsertEvent? && e.i == i && e.entry.cred == c then Some(e.entry)
      else if e == ZapEvent(i) || e == Invalidate(i) then None
      else LastValid(es[..|es|-1], i, c)
  }

  // No inode gains an entry.
  ghost predicate Shrinks(s: State, s': State) {
    |s'.inodes| == |s.inodes| && forall i :: 0 <= i < |s.inodes| ==> Elements(s'.inodes[i].tree) <= Elements(s.inodes[i].tree)
  }

  predicate Has(s: State, k: nat, e: Entry) { k < |s.inodes| && e in s.inodes[k].lru }

  lemma VisitHas(s: State, i: nat, k: nat, e: Entry)
    requires i < |s.inodes|
    ensures Has(Visit(s, i), k, e) ==> Has(s, k, e)
  {
  }

  lemma {:induction false} ScanHas(s: State, i: nat, n: nat, k: nat, e: Entry)
    requires Ok(s) && i in s.list
    ensures Has(ScanFrom(s, i, n), k, e) ==> Has(s, k, e)
    decreases n
  {
    if n > 0 {
      VisitNext(s, i);
      VisitHas(s, i, k, e);
      var next := NextOf(s.list, i);
      if next.Some? { ScanHas(Visit(s, i), next.value, n - 1, k, e); }
    }
  }

  lemma ScanShrinks(s: State, i: nat, n: nat)
    requires Ok(s) && i in s.list
    ensures Shrinks(s, ScanFrom(s, i, n))
  {
    ScanOk(s, i, n);
    var s' := ScanFrom(s, i, n);
    forall k, e | 0 <= k < |s.inodes| && e in Elements(s'.inodes[k].tree) ensures e in Elements(s.inodes[k].tree) {
      assert InodeOk(s.inodes[k]) && InodeOk(s'.inodes[k]);
      ScanHas(s, i, n, k, e);
    }
  }

  lemma EnforceShrinks(t: State)
    requires Ok(t)
    ensures Shrinks(t, Enforce(t))
  {
    if t.count > t.limit && t.list != [] {
      ScanShrinks(t, t.list[0], if t.count - t.limit < 100 then t.count - t.limit else 100);
    }
  }

  lemma InsertionCached(s: State, i: nat, e: Entry, k: nat, x: Entry)
    requires Ok(s) && i < |s.inodes| && k < |s.inodes| && x in Elements(Insertion(s, i, e).inodes[k].tree)
    ensures (k == i && x == e) || (x in Elements(s.inodes[k].tree) && !(k == i && x.cred == e.cred))
  {
    InsertMeaning(s.inodes[i].tree, e);
  }

  lemma ZapShrinks(s: State, i: nat)
    requires Ok(s) && i < |s.inodes|
    ensures Shrinks(s, Zap(s, i)) && Elements(Zap(s, i).inodes[i].tree) == {}
  {
    ZapOk(s, i);
  }

  lemma OtherShrinks(s: State, e: Event)
    requires Ok(s) && Enabled(s, e) && !e.InsertEvent? && !e.NewInode?
    ensures Shrinks(s, Step(s, e))
  {
    match e
    case EnforceEvent => EnforceShrinks(s);
    case SetLimit(_) =>
    case ZapEvent(i) => ZapShrinks(s, i);
    case ScanEvent(n) => if s.list != [] { ScanShrinks(s, s.list[0], n); }
    case Lookup(i, c, login, stale, retry, mayBlock) =>
      LockedOk(s.inodes[i], c, login, stale, retry, mayBlock);
      ZapShrinks(s, i);
    case Invalidate(_) =>
  }

  ghost predicate Current(s: State, es: seq<Event>) {
    forall i, e :: 0 <= i < |s.inodes| && e in Elements(s.inodes[i].tree) ==> LastAdded(es, i, e.cred) == Some(e)
  }

  // Whatever is cached is what was last added for its credential since the last zap.
  lemma {:induction false} CachedIsLastAdded(limit: nat, es: seq<Event>)
    ensures Current(Run(limit, es), es)
  {
    if es != [] {
      var before, e := es[..|es|-1], es[|es|-1];
      var s := Run(limit, before);
      CachedIsLastAdded(limit, before);
      RunOk(limit, before);
      if Enabled(s, e) {
        var s' := Step(s, e);
        forall i, x | 0 <= i < |s'.inodes| && x in Elements(s'.inodes[i].tree) ensures LastAdded(es, i, x.cred) == Some(x) {
          StepCurrent(s, e, i, x);
        }
      } else {
        assert e.ZapEvent? || e.InsertEvent? ==> e.i >= |s.inodes|;
      }
    }
  }

  // Where an entry found after a step comes from.
  lemma StepCurrent(s: State, e: Event, i: nat, x: Entry)
    requires Ok(s) && Enabled(s, e) && i < |Step(s, e).inodes| && x in Elements(Step(s, e).inodes[i].tree)
    ensures (e.InsertEvent? && e.i == i && e.entry == x)
         || (i < |s.inodes| && x in Elements(s.inodes[i].tree) && e != ZapEvent(i)
             && !(e.InsertEvent? && e.i == i && e.entry.cred == x.cred))
  {
    if e.InsertEvent? {
      InsertionCached(s, e.i, e.entry, i, x);
    } else if !e.NewInode? {
      OtherShrinks(s, e);
      if e == ZapEvent(i) { ZapShrinks(s, i); }
    }
  }

  predicate IsInvalid(s: State, k: nat) { k < |s.inodes| && s.inodes[k].invalid }

  lemma VisitKeepsInvalid(s: State, i: nat, k: nat)
    requires i < |s.inodes|
    ensures IsInvalid(s, k) ==> IsInvalid(Visit(s, i), k)
  {
  }

  // An inode stops being invalid only by losing its entries.
  lemma {:induction false} ScanKeepsInvalid(s: State, i: nat, n: nat, k: nat)
    requires Ok(s) && i in s.list
    ensures IsInvalid(s, k) ==> IsInvalid(ScanFrom(s, i, n), k)
    decreases n
  {
    if n > 0 {
      VisitNext(s, i);
      VisitKeepsInvalid(s, i, k);
      var next := NextOf(s.list, i);
      if next.Some? { ScanKeepsInvalid(Visit(s, i), next.value, n - 1, k); }
    }
  }

  lemma StepInvalid(s: State, e: Event, i: nat)
    requires Ok(s) && Enabled(s, e) && i < |s.inodes| && i < |Step(s, e).inodes| && !Step(s, e).inodes[i].invalid
    ensures e != Invalidate(i) && (s.inodes[i].invalid ==> Elements(Step(s, e).inodes[i].tree) == {})
  {
    match e
    case EnforceEvent =>
      if s.count > s.limit && s.list != [] {
        assert s.list[0] in s.list;
        ScanKeepsInvalid(s, s.list[0], if s.count - s.limit < 100 then s.count - s.limit else 100, i);
      }
    case ScanEvent(n) =>
      if s.list != [] {
        assert s.list[0] in s.list;
        ScanKeepsInvalid(s, s.list[0], n, i);
      }
    case ZapEvent(j) => ZapShrinks(s, j);
    case Lookup(j, _, _, _, _, _) => ZapShrinks(s, j);
    case _ =>
  }

  ghost predicate UpToDate(s: State, es: seq<Event>) {
    forall i, e :: 0 <= i < |s.inodes| && !s.inodes[i].invalid && e in Elements(s.inodes[i].tree) ==>
      LastValid(es, i, e.cred) == Some(e)
  }

  // While an inode is not marked invalid, nothing it has cached was added before its access rights
  // were last declared invalid.
  lemma {:induction false} NothingOlderThanInvalidation(limit: nat, es: seq<Event>)
    ensures UpToDate(Run(limit, es), es)
  {
    if es != [] {
      var before, e := es[..|es|-1], es[|es|-1];
      var s := Run(limit, before);
      NothingOlderThanInvalidation(limit, before);
      RunOk(limit, before);
      if Enabled(s, e) {
        var s' := Step(s, e);
        forall i, x | 0 <= i < |s'.inodes| && !s'.inodes[i].invalid && x in Elements(s'.inodes[i].tree)
          ensures LastValid(es, i, x.cred) == Some(x)
        {
          StepCurrent(s, e, i, x);
          if i < |s.inodes| { StepInvalid(s, e, i); }
        }
      }
    }
  }

  // So a hit, fast or slow, returns the mask last stored for that credential, stored since the
  // last invalidation of the inode.
  lemma HitIsLastStored(limit: nat, es: seq<Event>, i: nat, c: Cred, login: nat, stale: bool, retry: bool, mayBlock: bool)
    requires i < |Run(limit, es).inodes|
    ensures var x := Run(limit, es).inodes[i];
      var a := Locked(x, c, login, stale, retry, mayBlock).0;
      && (a.Hit? ==> LastValid(es, i, c).Some? && LastValid(es, i, c).value.mask == a.mask)
      && (Fast(x, c, login, stale).Some? ==> a == Hit(Fast(x, c, login, stale).value))
  {
    var x := Run(limit, es).inodes[i];
    RunOk(limit, es);
    NothingOlderThanInvalidation(limit, es);
    var found := Search(x.tree, c);
    if found.Some? { SearchIff(x.tree, c, found.value); }
    if Fast(x, c, login, stale).Some? { FastIsSlow(x, c, login, stale, retry, mayBlock); }
  }

  // ------------------------------------------------ on fields updated in place

  // access_cmp with its loop over the groups.
  method AccessCmp(a: Cred, b: Cred) returns (r: int)
    ensures r == Cmp(a, b)
  {
    if a.uid < b.uid { return -1; }
    if a.uid > b.uid { return 1; }
    if a.gid < b.gid { return -1; }
    if a.gid > b.gid { return 1; }
    if a.groups.None? { return if b.groups.None? then 0 else -1; }
    if b.groups.None? { return 1; }
    var x, y := a.groups.value, b.groups.value;
    if |x| < |y| { return -1; }
    if |x| > |y| { return 1; }
    for g := 0 to |x|
      invariant CompareFrom(x, y, g) == CompareFrom(x, y, 0)
    {
      if x[g] < y[g] { return -1; }
      if x[g] > y[g] { return 1; }
    }
    r := 0;
  }

  // nfs_access_search_rbtree
  method SearchTree(root: Tree, c: Cred) returns (found: Option<Entry>)
    ensures found == Search(root, c)
  {
    var n := root;
    while n.Node?
      invariant Search(n, c) == Search(root, c)
      decreases n
    {
      var cmp := AccessCmp(c, n.entry.cred);
      if cmp < 0 { n := n.left; } else if cmp > 0 { n := n.right; } else { return Some(n.entry); }
    }
    found := None;
  }

  class Cache {
    var inodes: seq<Inode>
    var list: seq<nat>
    var count: int
    const limit: nat

    function Value(): State
      reads this
    {
      State(inodes, list, count, limit)
    }

    ghost predicate Valid()
      reads this
    {
      Ok(Value())
    }

    constructor (limit: nat)
      ensures Value() == Run(limit, [])
    {
      this.limit := limit;
      inodes, list, count := [], [], 0;
    }

    // The body of the scan for one inode.
    method VisitInode(i: nat)
      requires i < |inodes|
      modifies this
      ensures Value() == Visit(old(Value()), i)
    {
      var x := inodes[i];
      if x.lru == [] {
        inodes, list := inodes[i := x.(bit := false)], Without(list, i);
        return;
      }
      x := x.(tree := Erase(x.tree, x.lru[0].cred), lru := x.lru[1..]);
      count := count - 1;
      if x.lru != [] {
        inodes, list := inodes[i := x], Without(list, i) + [i];
      } else {
        inodes, list := inodes[i := x.(bit := false)], Without(list, i);
      }
    }

    // The loop of nfs_do_access_cache_scan from inode start on.
    method ScanLoop(start: nat, n: nat) returns (freed: nat)
      requires Valid() && start in list
      modifies this
      ensures Valid() && Value() == ScanFrom(old(Value()), start, n) && freed == old(count) - count <= n
    {
      var i, left := start, n;
      freed := 0;
      ghost var goal := ScanFrom(Value(), i, n);
      while left > 0
        invariant Valid() && i in list && ScanFrom(Value(), i, left) == goal
        invariant freed == n - left == old(count) - count
      {
        var next := Visited(i, left);
        freed, left := freed + 1, left - 1;
        if next.None? { return; }
        i := next.value;
      }
    }

    // nfs_do_access_cache_scan
    method DoScan(n: nat) returns (freed: nat)
      requires Valid()
      modifies this
      ensures Valid() && Value() == Scan(old(Value()), n) && freed == old(count) - count <= n
    {
      if list == [] { return 0; }
      assert list[0] in list;
      freed := ScanLoop(list[0], n);
    }

    // One turn of the scan and where it goes on.
    method Visited(i: nat, ghost left: nat) returns (next: Option<nat>)
      requires Valid() && i in list && left > 0
      modifies this
      ensures Valid() && count == old(count) - 1 && (next.Some? ==> next.value in list)
      ensures ScanFrom(old(Value()), i, left) == if next.None? then Value() else ScanFrom(Value(), next.value, left - 1)
    {
      VisitNext(Value(), i);
      next := NextOf(list, i);
      VisitInode(i);
    }

    // nfs_access_zap_cache
    method ZapCache(i: nat)
      requires Valid() && i < |inodes|
      modifies this
      ensures Valid() && Value() == Zap(old(Value()), i)
    {
      hide Linked;
      ZapOk(Value(), i);
      if !inodes[i].bit { return; }
      list := Without(list, i);
      ghost var x0 := inodes[i];
      var x := inodes[i];
      while x.tree.Node?
        invariant Unhook(x) == Unhook(x0) && inodes == old(inodes) && list == Without(old(list), i)
        invariant count - Size(x.tree) == old(count) - Size(x0.tree)
        decreases Size(x.tree)
      {
        EraseFirstSize(x.tree);
        x := x.(tree := EraseFirst(x.tree), lru := Drop(x.lru, First(x.tree).cred));
        count := count - 1;
      }
      inodes := inodes[i := x.(invalid := false, bit := false)];
    }

    // nfs_access_add_cache up to the limit check.
    method InsertEntry(i: nat, e: Entry)
      requires i < |inodes|
      modifies this
      ensures Value() == Insertion(old(Value()), i, e)
    {
      var x := inodes[i];
      var replaced := SearchTree(x.tree, e.cred);
      inodes := inodes[i := AddEntry(x, e).(bit := true)];
      if replaced.None? { count := count + 1; }
      if !x.bit { list := list + [i]; }
    }

    // nfs_access_add_cache
    method AddCache(i: nat, e: Entry)
      requires Valid() && i < |inodes|
      modifies this
      ensures Valid() && Value() == Add(old(Value()), i, e)
    {
      InsertionOk(Value(), i, e);
      InsertEntry(i, e);
      if count > limit {
        var freed := DoScan(if count - limit < 100 then count - limit else 100);
      }
    }
  }
}
