/**
 The search tree of cached access results: the order on credentials and the tree operations.
 */
module AccessTree {
  import opened Wrappers

  // A missing group list is not the same as an empty one.
  datatype Cred = Cred(uid: nat, gid: nat, groups: Option<seq<nat>>)

  datatype Entry = Entry(cred: Cred, mask: nat, timestamp: nat)

  function Compare(a: nat, b: nat): int { if a < b then -1 else if a > b then 1 else 0 }

  // The groups from position g on.
  function CompareFrom(a: seq<nat>, b: seq<nat>, g: nat): int
    requires |a| == |b| && g <= |a|
    decreases |a| - g
  {
    if g == |a| then 0
    else if a[g] != b[g] then Compare(a[g], b[g])
    else CompareFrom(a, b, g + 1)
  }

  function CompareGroups(a: Option<seq<nat>>, b: Option<seq<nat>>): int {
    if a.None? && b.None? then 0
    else if a.None? then -1
    else if b.None? then 1
    else if |a.value| != |b.value| then Compare(|a.value|, |b.value|)
    else CompareFrom(a.value, b.value, 0)
  }

  // access_cmp
  function Cmp(a: Cred, b: Cred): int {
    if a.uid != b.uid then Compare(a.uid, b.uid)
    else if a.gid != b.gid then Compare(a.gid, b.gid)
    else CompareGroups(a.groups, b.groups)
  }

  // ------------------------------------------------ a strict total order

  lemma {:induction false} FromEqual(a: seq<nat>, b: seq<nat>, g: nat)
    requires |a| == |b| && g <= |a|
    ensures CompareFrom(a, b, g) == 0 <==> a[g..] == b[g..]
    ensures CompareFrom(b, a, g) == -CompareFrom(a, b, g)
    decreases |a| - g
  {
    if g < |a| {
      FromEqual(a, b, g + 1);
      assert a[g..] == [a[g]] + a[g+1..] && b[g..] == [b[g]] + b[g+1..];
    }
  }

  lemma {:induction false} FromTransitive(a: seq<nat>, b: seq<nat>, c: seq<nat>, g: nat)
    requires |a| == |b| == |c| && g <= |a|
    requires CompareFrom(a, b, g) < 0 && CompareFrom(b, c, g) < 0
    ensures CompareFrom(a, c, g) < 0
    decreases |a| - g
  {
    if g < |a| && a[g] == b[g] == c[g] { FromTransitive(a, b, c, g + 1); }
  }

  // Zero means equal, swapping the arguments swaps the sign.
  lemma CmpTotal(a: Cred, b: Cred)
    ensures Cmp(a, b) == 0 <==> a == b
    ensures Cmp(b, a) == -Cmp(a, b)
  {
    if a.groups.Some? && b.groups.Some? && |a.groups.value| == |b.groups.value| {
      var x, y := a.groups.value, b.groups.value;
      FromEqual(x, y, 0);
      assert x[0..] == x && y[0..] == y;
    }
  }

  lemma CmpTransitive(a: Cred, b: Cred, c: Cred)
    requires Cmp(a, b) < 0 && Cmp(b, c) < 0
    ensures Cmp(a, c) < 0
  {
    if a.uid == b.uid == c.uid && a.gid == b.gid == c.gid && a.groups.Some? && b.groups.Some? && c.groups.Some?
       && |a.groups.value| == |b.groups.value| == |c.groups.value| {
      FromTransitive(a.groups.value, b.groups.value, c.groups.value, 0);
    }
  }

  // ------------------------------------------------ the tree

  datatype Tree = Leaf | Node(left: Tree, entry: Entry, right: Tree)

  ghost function Elements(t: Tree): set<Entry> {
    if t.Leaf? then {} else Elements(t.left) + {t.entry} + Elements(t.right)
  }

  ghost predicate Ordered(t: Tree) {
    t.Leaf? || (
      && Ordered(t.left) && Ordered(t.right)
      && (forall e :: e in Elements(t.left) ==> Cmp(e.cred, t.entry.cred) < 0)
      && (forall e :: e in Elements(t.right) ==> Cmp(t.entry.cred, e.cred) < 0))
  }

  function Size(t: Tree): nat { if t.Leaf? then 0 else Size(t.left) + 1 + Size(t.right) }

  // nfs_access_search_rbtree
  function Search(t: Tree, c: Cred): Option<Entry> {
    if t.Leaf? then None
    else if Cmp(c, t.entry.cred) < 0 then Search(t.left, c)
    else if Cmp(c, t.entry.cred) > 0 then Search(t.right, c)
    else Some(t.entry)
  }

  // The place in nfs_access_add_rbtree: a new leaf, or the node of an equal credential replaced.
  function Insert(t: Tree, e: Entry): Tree {
    if t.Leaf? then Node(Leaf, e, Leaf)
    else if Cmp(e.cred, t.entry.cred) < 0 then t.(left := Insert(t.left, e))
    else if Cmp(e.cred, t.entry.cred) > 0 then t.(right := Insert(t.right, e))
    else t.(entry := e)
  }

  function First(t: Tree): Entry
    requires t.Node?
  {
    if t.left.Leaf? then t.entry else First(t.left)
  }

  // rb_erase without the rebalancing.
  function Erase(t: Tree, c: Cred): Tree {
    if t.Leaf? then Leaf
    else if Cmp(c, t.entry.cred) < 0 then t.(left := Erase(t.left, c))
    else if Cmp(c, t.entry.cred) > 0 then t.(right := Erase(t.right, c))
    else if t.right.Leaf? then t.left
    else
      var next := First(t.right);
      Node(t.left, next, EraseFirst(t.right))
  }

  function EraseFirst(t: Tree): Tree
    requires t.Node?
  {
    if t.left.Leaf? then t.right else t.(left := EraseFirst(t.left))
  }

  // In an ordered tree the search finds a credential exactly when it is cached.
  lemma {:induction false} SearchIff(t: Tree, c: Cred, e: Entry)
    requires Ordered(t)
    ensures Search(t, c) == Some(e) <==> e in Elements(t) && e.cred == c
  {
    if t.Node? {
      CmpTotal(c, t.entry.cred);
      SearchIff(t.left, c, e);
      SearchIff(t.right, c, e);
      forall x | x in Elements(t.left) && x.cred == c ensures Cmp(c, t.entry.cred) < 0 {}
      forall x | x in Elements(t.right) && x.cred == c ensures Cmp(c, t.entry.cred) > 0 {}
    }
  }

  // Inserting replaces what the same credential had and keeps the rest.
  lemma {:induction false} InsertMeaning(t: Tree, e: Entry)
    requires Ordered(t)
    ensures forall x :: x in Elements(Insert(t, e)) <==> x == e || (x in Elements(t) && x.cred != e.cred)
    ensures Ordered(Insert(t, e))
  {
    if t.Node? {
      CmpTotal(e.cred, t.entry.cred);
      SideDiffers(t, e.cred);
      if Cmp(e.cred, t.entry.cred) < 0 { InsertMeaning(t.left, e); }
      else if Cmp(e.cred, t.entry.cred) > 0 { InsertMeaning(t.right, e); }
    }
  }

  // Nothing on the other side of the root, or at it, has the credential.
  lemma SideDiffers(t: Tree, c: Cred)
    requires t.Node? && Ordered(t)
    ensures Cmp(c, t.entry.cred) <= 0 ==> forall x :: x in Elements(t.right) ==> x.cred != c
    ensures Cmp(c, t.entry.cred) >= 0 ==> forall x :: x in Elements(t.left) ==> x.cred != c
    ensures Cmp(c, t.entry.cred) != 0 ==> t.entry.cred != c
  {
    CmpTotal(c, t.entry.cred);
    forall x | x in Elements(t.right) && Cmp(c, t.entry.cred) <= 0 ensures x.cred != c { CmpTotal(x.cred, t.entry.cred); }
    forall x | x in Elements(t.left) && Cmp(c, t.entry.cred) >= 0 ensures x.cred != c { CmpTotal(x.cred, t.entry.cred); }
  }

  lemma {:induction false} FirstMeaning(t: Tree)
    requires t.Node? && Ordered(t)
    ensures First(t) in Elements(t)
    ensures Elements(EraseFirst(t)) == Elements(t) - {First(t)} && Ordered(EraseFirst(t))
    ensures forall x :: x in Elements(EraseFirst(t)) ==> Cmp(First(t).cred, x.cred) < 0
  {
    SideDiffers(t, t.entry.cred);
    if t.left.Leaf? {
      assert t.entry !in Elements(t.right);
    } else {
      FirstMeaning(t.left);
      var f := First(t.left);
      assert Cmp(f.cred, t.entry.cred) < 0;
      CmpTotal(f.cred, t.entry.cred);
      forall x | x in Elements(t.right) ensures Cmp(f.cred, x.cred) < 0 { CmpTransitive(f.cred, t.entry.cred, x.cred); }
      forall x | x in Elements(t.right) ensures x != f { CmpTotal(f.cred, x.cred); }
    }
  }

  lemma {:induction false} EraseMeaning(t: Tree, c: Cred)
    requires Ordered(t)
    ensures forall x :: x in Elements(Erase(t, c)) <==> x in Elements(t) && x.cred != c
    ensures Ordered(Erase(t, c))
  {
    if t.Node? {
      CmpTotal(c, t.entry.cred);
      SideDiffers(t, c);
      if Cmp(c, t.entry.cred) < 0 { EraseMeaning(t.left, c); }
      else if Cmp(c, t.entry.cred) > 0 { EraseMeaning(t.right, c); }
      else if t.right.Node? { EraseRoot(t); }
    }
  }

  lemma EraseRoot(t: Tree)
    requires t.Node? && t.right.Node? && Ordered(t)
    ensures var r := Node(t.left, First(t.right), EraseFirst(t.right));
      Ordered(r) && Elements(r) == Elements(t.left) + Elements(t.right)
  {
    FirstMeaning(t.right);
    var f := First(t.right);
    forall x | x in Elements(t.left) ensures Cmp(x.cred, f.cred) < 0 { CmpTransitive(x.cred, t.entry.cred, f.cred); }
  }
}
