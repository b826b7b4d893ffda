/**
 The hash table of an xattr cache as an array of bucket lists updated in place.  Through its
 operations it is the map from names to entries that the protocol model works with.
 */
module XattrTable {
  import opened Wrappers
  import opened XattrCache
  import opened XattrCaches

  datatype Item = Item(name: Name, e: nat)

  datatype BucketList = BucketList(items: seq<Item>, draining: bool)

  function Find(items: seq<Item>, n: Name): Option<nat> {
    if items == [] then None else if items[0].name == n then Some(items[0].e) else Find(items[1..], n)
  }

  function Delete(items: seq<Item>, n: Name): seq<Item> {
    if items == [] then [] else if items[0].name == n then items[1..] else [items[0]] + Delete(items[1..], n)
  }

  ghost predicate Distinct(items: seq<Item>) {
    forall i, j :: 0 <= i < j < |items| ==> items[i].name != items[j].name
  }

  ghost predicate Belong(items: seq<Item>, b: nat) { forall i :: 0 <= i < |items| ==> Bucket(items[i].name) == b }

  lemma {:induction false} FindNone(items: seq<Item>, n: Name)
    ensures Find(items, n).None? <==> forall i :: 0 <= i < |items| ==> items[i].name != n
  {
    if items != [] { FindNone(items[1..], n); }
  }

  // Deleting a name loses that name and nothing else.
  lemma {:induction false} DeleteMeaning(items: seq<Item>, n: Name, m: Name)
    requires Distinct(items)
    ensures Find(Delete(items, n), m) == if m == n then None else Find(items, m)
    ensures Distinct(Delete(items, n))
    ensures forall x :: x in Delete(items, n) ==> x in items
  {
    if items != [] {
      FindNone(items[1..], items[0].name);
      if items[0].name != n {
        DeleteMeaning(items[1..], n, m);
        var rest := Delete(items[1..], n);
        assert forall x :: x in rest ==> x.name != items[0].name;
        assert ([items[0]] + rest)[1..] == rest;
      }
    }
  }

  class Table {
    const buckets: array<BucketList>
    var nent: int
    ghost var view: map<Name, nat>

    // Every name finds in its bucket what the view has for it.
    ghost predicate Valid()
      reads this, buckets
    {
      && buckets.Length == BUCKETS
      && (forall b :: 0 <= b < BUCKETS ==> Distinct(buckets[b].items) && Belong(buckets[b].items, b))
      && (forall n: Name :: Find(buckets[Bucket(n)].items, n) == if n in view then Some(view[n]) else None)
    }

    constructor ()
      ensures Valid() && view == map[] && nent == 0 && fresh(buckets)
      ensures forall b :: 0 <= b < BUCKETS ==> !buckets[b].draining
    {
      buckets := new BucketList[BUCKETS](_ => BucketList([], false));
      nent, view := 0, map[];
    }

    // nfs4_xattr_get_entry
    method GetEntry(n: Name) returns (found: Option<nat>)
      requires Valid()
      ensures found == if n in view then Some(view[n]) else None
    {
      var b := Bucket(n);
      var items := buckets[b].items;
      for i := 0 to |items|
        invariant Find(items[i..], n) == Find(items, n)
      {
        assert items[i..][1..] == items[i+1..];
        if items[i].name == n { return Some(items[i].e); }
      }
      found := None;
    }

    // Replace one bucket: names of other buckets are not affected.
    method SetItems(b: nat, items: seq<Item>, draining: bool, ghost to: map<Name, nat>)
      requires Valid() && b < BUCKETS && Distinct(items) && Belong(items, b)
      requires forall n: Name :: Bucket(n) == b ==> Find(items, n) == if n in to then Some(to[n]) else None
      requires forall n: Name :: Bucket(n) != b ==> (n in to <==> n in view) && (n in to ==> to[n] == view[n])
      modifies buckets, this`view
      ensures Valid() && view == to && buckets[b] == BucketList(items, draining)
      ensures forall j :: 0 <= j < BUCKETS && j != b ==> buckets[j] == old(buckets[j])
    {
      buckets[b] := BucketList(items, draining);
      view := to;
    }

    // nfs4_xattr_hash_add
    method HashAdd(n: Name, e: nat) returns (ok: bool, displaced: Option<nat>)
      requires Valid()
      modifies this, buckets
      ensures Valid() && ok == !old(buckets[Bucket(n)].draining)
      ensures forall b :: 0 <= b < BUCKETS ==> buckets[b].draining == old(buckets[b].draining)
      ensures displaced == if ok && n in old(view) then Some(old(view)[n]) else None
      ensures view == if ok then old(view)[n := e] else old(view)
      ensures nent - |view| == old(nent) - |old(view)|
    {
      hide Delete, Distinct, Belong;
      var b := Bucket(n);
      if buckets[b].draining { return false, None; }
      var items := buckets[b].items;
      displaced := GetEntry(n);
      MapAddCard(view, n, e);
      if displaced.None? { nent := nent + 1; }
      AddedMeaning(items, n, e, b);
      SetItems(b, [Item(n, e)] + Delete(items, n), false, view[n := e]);
      ok := true;
    }

    // hlist_del_init
    method Unhash(n: Name)
      requires Valid() && n in view
      modifies buckets, this`view
      ensures Valid() && view == old(view) - {n}
      ensures forall b :: 0 <= b < BUCKETS ==> buckets[b].draining == old(buckets[b].draining)
    {
      var list := buckets[Bucket(n)];
      RemovedMeaning(list.items, n, Bucket(n));
      SetItems(Bucket(n), Delete(list.items, n), list.draining, view - {n});
    }

    // nfs4_xattr_hash_remove
    method HashRemove(n: Name) returns (removed: Option<nat>)
      requires Valid()
      modifies this, buckets
      ensures Valid() && view == old(view) - {n}
      ensures removed == if n in old(view) then Some(old(view)[n]) else None
      ensures forall b :: 0 <= b < BUCKETS ==> buckets[b].draining == old(buckets[b].draining)
      ensures nent - |view| == old(nent) - |old(view)|
    {
      removed := GetEntry(n);
      if removed.None? {
        RemoveAbsent(view, n);
        return;
      }
      MapRemoveCard(view, n);
      Unhash(n);
      nent := nent - 1;
    }

    // One bucket of nfs4_xattr_discard_cache: what it held is released, once for every name.
    method DrainBucket(b: nat) returns (released: seq<nat>)
      requires Valid() && b < BUCKETS
      modifies buckets, this`view
      ensures Valid() && buckets[b].draining
      ensures forall j :: 0 <= j < BUCKETS && j != b ==> buckets[j] == old(buckets[j])
      ensures view == map n | n in old(view) && Bucket(n) != b :: old(view)[n]
      ensures forall e :: multiset(released)[e] + |Holding(view, e)| == |Holding(old(view), e)|
    {
      var items := buckets[b].items;
      released := [];
      for i := 0 to |items|
        invariant released == Entries(items[..i])
      {
        assert items[..i+1][..i] == items[..i];
        released := released + [items[i].e];
      }
      assert items[..|items|] == items;
      ghost var to: map<Name, nat> := map n | n in view && Bucket(n) != b :: view[n];
      forall e ensures multiset(released)[e] + |Holding(to, e)| == |Holding(view, e)| {
        DrainedCount(items, view, to, b, e);
      }
      SetItems(b, [], true, to);
    }

    // The bucket loop of nfs4_xattr_discard_cache: every entry is released as often as it was found.
    method Discard() returns (released: seq<nat>)
      requires Valid()
      modifies this, buckets
      ensures Valid() && view == map[] && nent == 0
      ensures forall b :: 0 <= b < BUCKETS ==> buckets[b].draining
      ensures forall e :: multiset(released)[e] == |Holding(old(view), e)|
    {
      released := [];
      ghost var was := view;
      for b := 0 to BUCKETS
        invariant Valid() && forall j :: 0 <= j < b ==> buckets[j].draining
        invariant forall n :: n in view ==> Bucket(n) >= b
        invariant forall e :: multiset(released)[e] + |Holding(view, e)| == |Holding(was, e)|
      {
        var more := DrainBucket(b);
        released := released + more;
      }
      nent := 0;
      assert forall n: Name :: Bucket(n) < BUCKETS;
      assert view == map[];
    }
  }

  function Entries(items: seq<Item>): seq<nat> {
    if items == [] then [] else Entries(items[..|items|-1]) + [items[|items|-1].e]
  }

  // The names under which e is found.
  ghost function Holding(view: map<Name, nat>, e: nat): set<Name> { set n | n in view && view[n] == e }

  // The names under which a bucket holds e.
  function NamesOf(items: seq<Item>, e: nat): set<Name> {
    if items == [] then {}
    else
      var k := |items| - 1;
      NamesOf(items[..k], e) + (if items[k].e == e then {items[k].name} else {})
  }

  lemma {:induction false} NamesMeaning(items: seq<Item>, e: nat, n: Name)
    ensures n in NamesOf(items, e) <==> Item(n, e) in items
  {
    if items != [] {
      NamesMeaning(items[..|items|-1], e, n);
      assert items == items[..|items|-1] + [items[|items|-1]];
    }
  }

  lemma {:induction false} EntriesCount(items: seq<Item>, e: nat)
    requires Distinct(items)
    ensures multiset(Entries(items))[e] == |NamesOf(items, e)|
  {
    if items != [] {
      var k := |items| - 1;
      EntriesCount(items[..k], e);
      NamesMeaning(items[..k], e, items[k].name);
    }
  }

  // In the view: a name of the bucket that has e.
  lemma {:induction false} FindMeaning(items: seq<Item>, n: Name, e: nat)
    requires Distinct(items)
    ensures Find(items, n) == Some(e) <==> n in NamesOf(items, e)
  {
    NamesMeaning(items, e, n);
    FindNone(items, n);
    if Find(items, n).Some? { var i := Position(items, n); }
  }

  lemma NameInView(items: seq<Item>, view: map<Name, nat>, b: nat, e: nat, n: Name)
    requires Distinct(items) && Belong(items, b)
    requires Bucket(n) == b ==> Find(items, n) == if n in view then Some(view[n]) else None
    ensures n in NamesOf(items, e) <==> Bucket(n) == b && n in view && view[n] == e
  {
    FindMeaning(items, n, e);
    NamesMeaning(items, e, n);
  }

  lemma DrainedCount(items: seq<Item>, view: map<Name, nat>, to: map<Name, nat>, b: nat, e: nat)
    requires Distinct(items) && Belong(items, b)
    requires to == map n | n in view && Bucket(n) != b :: view[n]
    requires forall n: Name :: Bucket(n) == b ==> Find(items, n) == if n in view then Some(view[n]) else None
    ensures multiset(Entries(items))[e] + |Holding(to, e)| == |Holding(view, e)|
  {
    hide Distinct, Belong, Find, NamesOf, Entries;
    EntriesCount(items, e);
    forall n: Name ensures n in NamesOf(items, e) <==> Bucket(n) == b && n in view && view[n] == e {
      NameInView(items, view, b, e, n);
    }
    assert Holding(view, e) == NamesOf(items, e) + Holding(to, e);
    assert NamesOf(items, e) !! Holding(to, e);
  }

  lemma RemoveAbsent(t: map<Name, nat>, n: Name)
    requires n !in t
    ensures t - {n} == t
  {
  }

  lemma {:induction false} Position(items: seq<Item>, n: Name) returns (i: nat)
    requires Find(items, n).Some?
    ensures i < |items| && items[i] == Item(n, Find(items, n).value)
  {
    if items[0].name == n {
      i := 0;
    } else {
      i := Position(items[1..], n);
      i := i + 1;
    }
  }

  lemma AddedMeaning(items: seq<Item>, n: Name, e: nat, b: nat)
    requires Distinct(items) && Belong(items, b) && Bucket(n) == b
    ensures var r := [Item(n, e)] + Delete(items, n);
      && Distinct(r) && Belong(r, b)
      && forall m: Name :: Find(r, m) == if m == n then Some(e) else Find(items, m)
  {
    var rest := Delete(items, n);
    var r := [Item(n, e)] + rest;
    RemovedMeaning(items, n, b);
    assert r[1..] == rest;
    FindNone(rest, n);
    forall m: Name ensures Find(r, m) == if m == n then Some(e) else Find(items, m) { DeleteMeaning(items, n, m); }
  }

  lemma RemovedMeaning(items: seq<Item>, n: Name, b: nat)
    requires Distinct(items) && Belong(items, b)
    ensures Distinct(Delete(items, n)) && Belong(Delete(items, n), b)
    ensures forall m: Name :: Find(Delete(items, n), m) == if m == n then None else Find(items, m)
  {
    DeleteMeaning(items, n, n);
    forall m: Name ensures Find(Delete(items, n), m) == if m == n then None else Find(items, m) {
      DeleteMeaning(items, n, m);
    }
    forall i | 0 <= i < |Delete(items, n)| ensures Bucket(Delete(items, n)[i].name) == b {
      assert Delete(items, n)[i] in items;
    }
  }
}
