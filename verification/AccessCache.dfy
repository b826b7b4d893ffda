/**
 The access cache: per inode a search tree and an LRU list of the same entries, over all inodes a
 list of those that have entries, a count and a limit.
 */
module AccessCache {
  import opened Lists
  import opened Wrappers
  import opened AccessTree

  const TWO64 := 0x1_0000_0000_0000_0000
  const TWO63 := 0x8000_0000_0000_0000

  // invalid: NFS_INO_INVALID_ACCESS is set in cache_validity.  bit: NFS_INO_ACL_LRU_SET.
  datatype Inode = Inode(tree: Tree, lru: seq<Entry>, invalid: bool, bit: bool)

  datatype State = State(inodes: seq<Inode>, list: seq<nat>, count: int, limit: nat)

  // ------------------------------------------------ lists

  function Drop(lru: seq<Entry>, c: Cred): (r: seq<Entry>)
    ensures forall e :: e in r <==> e in lru && e.cred != c
  {
    if lru == [] then [] else if lru[0].cred == c then Drop(lru[1..], c) else [lru[0]] + Drop(lru[1..], c)
  }

  // The neighbour behind i.
  function NextOf(list: seq<nat>, i: nat): (r: Option<nat>)
    ensures r.Some? ==> r.value in list
  {
    if |list| < 2 then None else if list[0] == i then Some(list[1]) else NextOf(list[1..], i)
  }

  ghost predicate UniqueKeys(lru: seq<Entry>) {
    forall i, j :: 0 <= i < j < |lru| ==> lru[i].cred != lru[j].cred
  }

  lemma {:induction false} DropUnique(lru: seq<Entry>, c: Cred)
    requires UniqueKeys(lru)
    ensures UniqueKeys(Drop(lru, c))
  {
    if lru != [] {
      DropUnique(lru[1..], c);
      assert forall e :: e in lru[1..] ==> e.cred != lru[0].cred;
    }
  }

  // ------------------------------------------------ one inode

  // nfs_access_add_rbtree
  function AddEntry(x: Inode, e: Entry): Inode {
    x.(tree := Insert(x.tree, e), lru := Drop(x.lru, e.cred) + [e])
  }

  // The oldest entry leaves.
  function Shrink(x: Inode): Inode
    requires x.lru != []
  {
    x.(tree := Erase(x.tree, x.lru[0].cred), lru := x.lru[1..])
  }

  // __nfs_access_zap_cache: unhook the first entry of the tree until none is left.
  function Unhook(x: Inode): Inode
    decreases Size(x.tree)
  {
    if x.tree.Leaf? then x.(invalid := false)
    else
      EraseFirstSize(x.tree);
      Unhook(x.(tree := EraseFirst(x.tree), lru := Drop(x.lru, First(x.tree).cred)))
  }

  lemma {:induction false} EraseFirstSize(t: Tree)
    requires t.Node?
    ensures Size(EraseFirst(t)) == Size(t) - 1
  {
    if t.left.Node? { EraseFirstSize(t.left); }
  }

  ghost predicate InodeOk(x: Inode) {
    Ordered(x.tree) && UniqueKeys(x.lru) && forall e :: e in x.lru <==> e in Elements(x.tree)
  }

  lemma AddOk(x: Inode, e: Entry)
    requires InodeOk(x)
    ensures InodeOk(AddEntry(x, e))
    ensures Size(AddEntry(x, e).tree) == Size(x.tree) + (if Search(x.tree, e.cred).Some? then 0 else 1)
  {
    InsertMeaning(x.tree, e);
    DropUnique(x.lru, e.cred);
    InsertSize(x.tree, e);
  }

  lemma {:induction false} InsertSize(t: Tree, e: Entry)
    ensures Size(Insert(t, e)) == Size(t) + (if Search(t, e.cred).Some? then 0 else 1)
  {
    if t.Node? {
      InsertSize(t.left, e);
      InsertSize(t.right, e);
    }
  }

  lemma ShrinkOk(x: Inode)
    requires InodeOk(x) && x.lru != []
    ensures InodeOk(Shrink(x)) && Size(Shrink(x).tree) == Size(x.tree) - 1
  {
    var e := x.lru[0];
    assert e in Elements(x.tree);
    EraseMeaning(x.tree, e.cred);
    OneEach(x, e);
    forall y ensures y in x.lru[1..] <==> y in x.lru && y.cred != e.cred { TailOf(x.lru, y); }
    SearchIff(x.tree, e.cred, e);
    EraseSize(x.tree, e.cred);
  }

  lemma {:induction false} EraseSize(t: Tree, c: Cred)
    ensures Size(Erase(t, c)) == Size(t) - (if Search(t, c).Some? then 1 else 0)
  {
    if t.Node? {
      EraseSize(t.left, c);
      EraseSize(t.right, c);
      if t.right.Node? { EraseFirstSize(t.right); }
    }
  }

  lemma OneEach(x: Inode, e: Entry)
    requires InodeOk(x) && e in Elements(x.tree)
    ensures forall y :: y in Elements(x.tree) && y.cred == e.cred ==> y == e
  {
    forall y | y in Elements(x.tree) && y.cred == e.cred ensures y == e {
      SearchIff(x.tree, e.cred, e);
      SearchIff(x.tree, e.cred, y);
    }
  }

  lemma TailOf(lru: seq<Entry>, y: Entry)
    requires UniqueKeys(lru) && lru != []
    ensures y in lru[1..] <==> y in lru && y.cred != lru[0].cred
  {
    assert forall j :: 0 < j < |lru| ==> lru[j].cred != lru[0].cred;
  }

  lemma {:induction false} UnhookOk(x: Inode)
    requires InodeOk(x)
    ensures Unhook(x) == x.(tree := Leaf, lru := [], invalid := false)
    decreases Size(x.tree)
  {
    if x.tree.Node? {
      var f := First(x.tree);
      var y := x.(tree := EraseFirst(x.tree), lru := Drop(x.lru, f.cred));
      EraseFirstSize(x.tree);
      FirstMeaning(x.tree);
      DropUnique(x.lru, f.cred);
      OneEach(x, f);
      assert InodeOk(y);
      UnhookOk(y);
    } else {
      NodeIffListed(x);
    }
  }

  // ------------------------------------------------ all inodes

  function Total(inodes: seq<Inode>): nat {
    if inodes == [] then 0 else Size(inodes[0].tree) + Total(inodes[1..])
  }

  lemma {:induction false} TotalUpdate(inodes: seq<Inode>, i: nat, x: Inode)
    requires i < |inodes|
    ensures Total(inodes[i := x]) == Total(inodes) - Size(inodes[i].tree) + Size(x.tree)
  {
    if i > 0 {
      TotalUpdate(inodes[1..], i - 1, x);
      assert inodes[i := x][1..] == inodes[1..][i - 1 := x];
    } else {
      assert inodes[0 := x][1..] == inodes[1..];
    }
  }

  ghost predicate Linked(s: State) {
    && NoRepeats(s.list) && (forall i :: i in s.list ==> i < |s.inodes|)
    && forall i :: 0 <= i < |s.inodes| ==>
         && (s.inodes[i].bit <==> i in s.list)
         && (s.inodes[i].bit <==> s.inodes[i].tree.Node?)
  }

  ghost predicate Ok(s: State) {
    && (forall i :: 0 <= i < |s.inodes| ==> InodeOk(s.inodes[i]))
    && Linked(s) && s.count == Total(s.inodes)
  }

  function Set(s: State, i: nat, x: Inode): State
    requires i < |s.inodes|
  {
    s.(inodes := s.inodes[i := x])
  }

  // One turn of nfs_do_access_cache_scan.
  function Visit(s: State, i: nat): State
    requires i < |s.inodes|
  {
    var x := s.inodes[i];
    if x.lru == [] then Set(s, i, x.(bit := false)).(list := Without(s.list, i))
    else
      var y := Shrink(x);
      if y.lru != [] then Set(s, i, y).(list := Without(s.list, i) + [i], count := s.count - 1)
      else Set(s, i, y.(bit := false)).(list := Without(s.list, i), count := s.count - 1)
  }

  // The loop holds on to the neighbour before the current inode moves.
  function ScanFrom(s: State, i: nat, n: nat): State
    decreases n
  {
    if n == 0 || i >= |s.inodes| then s
    else
      var next := NextOf(s.list, i);
      var s' := Visit(s, i);
      if next.None? then s' else ScanFrom(s', next.value, n - 1)
  }

  function Scan(s: State, n: nat): State { if s.list == [] then s else ScanFrom(s, s.list[0], n) }

  // nfs_access_cache_enforce_limit
  function Enforce(s: State): State {
    if s.count <= s.limit then s else Scan(s, if s.count - s.limit < 100 then s.count - s.limit else 100)
  }

  function Insertion(s: State, i: nat, e: Entry): State
    requires i < |s.inodes|
  {
    var x := s.inodes[i];
    var more := if Search(x.tree, e.cred).Some? then 0 else 1;
    Set(s, i, AddEntry(x, e).(bit := true)).(count := s.count + more, list := if x.bit then s.list else s.list + [i])
  }

  // nfs_access_add_cache
  function Add(s: State, i: nat, e: Entry): State
    requires i < |s.inodes|
  {
    Enforce(Insertion(s, i, e))
  }

  // nfs_access_zap_cache
  function Zap(s: State, i: nat): State
    requires i < |s.inodes|
  {
    var x := s.inodes[i];
    if !x.bit then s
    else Set(s, i, Unhook(x).(bit := false)).(list := Without(s.list, i), count := s.count - Size(x.tree))
  }

  lemma SetOk(s: State, i: nat, x: Inode, list: seq<nat>, count: int)
    requires Ok(s) && i < |s.inodes| && InodeOk(x) && (x.bit <==> x.tree.Node?)
    requires NoRepeats(list) && (forall j :: j != i ==> (j in list <==> j in s.list)) && (i in list <==> x.bit)
    requires count == s.count - Size(s.inodes[i].tree) + Size(x.tree)
    ensures Ok(Set(s, i, x).(list := list, count := count))
  {
    TotalUpdate(s.inodes, i, x);
  }

  lemma NodeIffListed(x: Inode)
    requires InodeOk(x)
    ensures x.tree.Node? <==> x.lru != []
  {
    if x.tree.Node? { assert x.tree.entry in Elements(x.tree); }
    if x.lru != [] { assert x.lru[0] in Elements(x.tree); }
  }

  lemma VisitOk(s: State, i: nat)
    requires Ok(s) && i in s.list
    ensures Ok(Visit(s, i)) && Visit(s, i).count == s.count - 1
    ensures |Visit(s, i).inodes| == |s.inodes| && Visit(s, i).limit == s.limit
    ensures forall j :: j != i ==> (j in Visit(s, i).list <==> j in s.list)
  {
    var x := s.inodes[i];
    NodeIffListed(x);
    ShrinkOk(x);
    var y := Shrink(x);
    NodeIffListed(y);
    WithoutNoRepeats(s.list, i);
    if y.lru != [] {
      SetOk(s, i, y, Without(s.list, i) + [i], s.count - 1);
    } else {
      SetOk(s, i, y.(bit := false), Without(s.list, i), s.count - 1);
    }
  }

  lemma {:induction false} NextDiffers(list: seq<nat>, i: nat)
    requires NoRepeats(list)
    ensures NextOf(list, i).Some? ==> NextOf(list, i).value != i
  {
    if |list| >= 2 && list[0] != i { NextDiffers(list[1..], i); }
  }

  // What one turn leaves, and where the scan goes on.
  lemma VisitNext(s: State, i: nat)
    requires Ok(s) && i in s.list
    ensures Ok(Visit(s, i)) && Visit(s, i).count == s.count - 1
    ensures |Visit(s, i).inodes| == |s.inodes| && Visit(s, i).limit == s.limit
    ensures NextOf(s.list, i).Some? ==> NextOf(s.list, i).value in Visit(s, i).list
  {
    VisitOk(s, i);
    NextDiffers(s.list, i);
  }

  lemma {:induction false} ScanKeepsOk(s: State, i: nat, n: nat)
    requires Ok(s) && i in s.list
    ensures Ok(ScanFrom(s, i, n))
    decreases n
  {
    if n > 0 {
      VisitNext(s, i);
      var next := NextOf(s.list, i);
      if next.Some? { ScanKeepsOk(Visit(s, i), next.value, n - 1); }
    }
  }

  // The number of inodes and the limit stay, and between one and n entries go.
  predicate Drops(s: State, s': State, n: nat) {
    && |s'.inodes| == |s.inodes| && s'.limit == s.limit
    && s.count - n <= s'.count <= s.count && (n > 0 ==> s'.count < s.count)
  }

  lemma {:induction false} ScanDrops(s: State, i: nat, n: nat)
    requires Ok(s) && i in s.list
    ensures Drops(s, ScanFrom(s, i, n), n)
    decreases n
  {
    hide Visit;
    if n > 0 {
      VisitNext(s, i);
      var next := NextOf(s.list, i);
      if next.Some? { ScanDrops(Visit(s, i), next.value, n - 1); }
    }
  }

  // A scan drops at least one entry and at most as many as asked for, and keeps the accounting.
  lemma ScanOk(s: State, i: nat, n: nat)
    requires Ok(s) && i in s.list
    ensures Ok(ScanFrom(s, i, n)) && Drops(s, ScanFrom(s, i, n), n)
  {
    ScanKeepsOk(s, i, n);
    ScanDrops(s, i, n);
  }

  lemma InsertionOk(s: State, i: nat, e: Entry)
    requires Ok(s) && i < |s.inodes|
    ensures var s' := Insertion(s, i, e);
      Ok(s') && s.count <= s'.count <= s.count + 1 && s'.list != [] && |s'.inodes| == |s.inodes|
  {
    var x := s.inodes[i];
    AddOk(x, e);
    var y := AddEntry(x, e).(bit := true);
    assert e in y.lru;
    NodeIffListed(AddEntry(x, e));
    var list := if x.bit then s.list else s.list + [i];
    SetOk(s, i, y, list, s.count + (if Search(x.tree, e.cred).Some? then 0 else 1));
    assert i in list;
  }

  lemma EnforceOk(t: State)
    requires Ok(t) && t.list != []
    ensures var u := Enforce(t);
      Ok(u) && |u.inodes| == |t.inodes| && u.limit == t.limit
      && (if t.count <= t.limit then u.count == t.count else u.count < t.count && u.count >= t.limit)
  {
    if t.count > t.limit {
      assert t.list[0] in t.list;
      ScanOk(t, t.list[0], if t.count - t.limit < 100 then t.count - t.limit else 100);
    }
  }

  // An add never leaves the count above the limit if it was not above before, and never raises
  // it if it was.
  lemma AddRespectsLimit(s: State, i: nat, e: Entry)
    requires Ok(s) && i < |s.inodes|
    ensures Ok(Add(s, i, e)) && |Add(s, i, e).inodes| == |s.inodes| && Add(s, i, e).limit == s.limit
    ensures s.count <= s.limit ==> Add(s, i, e).count <= s.limit
    ensures s.count > s.limit ==> Add(s, i, e).count <= s.count
  {
    InsertionOk(s, i, e);
    EnforceOk(Insertion(s, i, e));
  }

  lemma ZapOk(s: State, i: nat)
    requires Ok(s) && i < |s.inodes|
    ensures Ok(Zap(s, i)) && Zap(s, i).inodes[i].tree == Leaf && |Zap(s, i).inodes| == |s.inodes|
  {
    var x := s.inodes[i];
    if x.bit {
      UnhookOk(x);
      WithoutNoRepeats(s.list, i);
      var y := Unhook(x).(bit := false);
      assert InodeOk(y);
      SetOk(s, i, y, Without(s.list, i), s.count - Size(x.tree));
    }
  }
}
