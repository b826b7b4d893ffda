/**
 The cache of user extended attributes.  Every section under a bucket lock, a list-slot lock or
 an inode lock is a step, and so is every drop of a reference.  Threads appear only through the
 references they hold: whatever a thread may do next with a reference it holds can happen at any
 time, in any order.
 */
module XattrCache {
  import opened Wrappers

  const BUCKETS := 64

  // hash: what the hash function gives for the text.
  datatype Name = Name(text: string, hash: nat)

  function Bucket(n: Name): nat { n.hash % BUCKETS }

  // Where an entry is found.
  datatype Home = Hashed(k: nat, name: Name) | Slotted(k: nat)

  // name: None for the result of listxattr.  lru: on an entry LRU.  added: when it became findable.
  datatype Entry = Entry(name: Option<Name>, value: nat, refs: int, home: Option<Home>, lru: bool, added: nat)

  datatype Slot = Empty | Stale | Listed(e: nat)

  // linkedAt: when it became the cache of an inode.
  datatype Cache = Cache(
    refs: int, inode: Option<nat>, table: map<Name, nat>, draining: set<nat>, nent: int, slot: Slot, linkedAt: nat)

  // wiped: when the inode's attributes were last declared invalid.
  datatype Inode = Inode(cache: Option<nat>, invalid: bool, wiped: nat)

  // held, heldEntries: references in the hands of threads.  unlinked: allocated caches not yet
  // shown to anyone.  discarding: caches being discarded, and how far: 0 the slot, b+1 bucket b.
  datatype State = State(
    inodes: map<nat, Inode>, caches: map<nat, Cache>, entries: map<nat, Entry>,
    held: multiset<nat>, heldEntries: multiset<nat>, unlinked: set<nat>, discarding: map<nat, nat>, clock: nat)

  function Start(): State { State(map[], map[], map[], multiset{}, multiset{}, {}, map[], 0) }

  datatype Event =
    | NewInode(i: nat)
    | Invalidate(i: nat)
    | Lookup(i: nat)                      // the first section of nfs4_xattr_get_cache
    | AllocCache(k: nat)
    | Link(i: nat, k: nat)                // its second section
    | DropUnlinked(k: nat)
    | PutCache(k: nat)
    | Zap(i: nat)
    | CacheIsolate(k: nat)
    | DiscardSlot(k: nat) | DrainStart(k: nat) | DrainOne(k: nat, name: Name) | DrainNext(k: nat) | DiscardEnd(k: nat)
    | AllocEntry(e: nat, about: Option<Name>, value: nat)
    | HashAdd(k: nat, e: nat)
    | HashRemove(k: nat, name: Name)
    | HashFind(k: nat, name: Name)
    | SetList(k: nat, list: Option<nat>)
    | EntryIsolate(e: nat)
    | PutEntry(e: nat)

  predicate Holds(s: State, k: nat) { s.held[k] > 0 && k in s.caches }

  predicate HoldsEntry(s: State, e: nat) { s.heldEntries[e] > 0 && e in s.entries }

  predicate Discards(s: State, k: nat) { k in s.discarding && k in s.caches }

  predicate Enabled(s: State, ev: Event) {
    match ev
    case NewInode(i) => i !in s.inodes
    case Invalidate(i) => i in s.inodes
    case Lookup(i) => i in s.inodes && (s.inodes[i].cache.Some? ==> s.inodes[i].cache.value in s.caches)
    case AllocCache(k) => k !in s.caches && s.held[k] == 0 && k !in s.discarding
    case Link(i, k) =>
      && i in s.inodes && k in s.unlinked && k in s.caches
      && (s.inodes[i].cache.Some? ==> s.inodes[i].cache.value in s.caches)
    case DropUnlinked(k) => k in s.unlinked && k in s.caches
    case PutCache(k) => Holds(s, k)
    case Zap(i) => i in s.inodes && (s.inodes[i].cache.Some? ==> s.inodes[i].cache.value in s.caches)
    case CacheIsolate(k) =>
      k in s.caches && s.caches[k].inode.Some? && s.caches[k].inode.value in s.inodes && s.caches[k].nent <= 1
    case DiscardSlot(k) => Discards(s, k) && s.discarding[k] == 0 && SlotKnown(s, k)
    case DrainStart(k) => Discards(s, k) && 0 < s.discarding[k] <= BUCKETS && s.discarding[k] - 1 !in s.caches[k].draining
    case DrainOne(k, n) =>
      && Discards(s, k) && 0 < s.discarding[k] <= BUCKETS && s.discarding[k] - 1 in s.caches[k].draining
      && n in s.caches[k].table && Bucket(n) == s.discarding[k] - 1 && s.caches[k].table[n] in s.entries
    case DrainNext(k) =>
      && Discards(s, k) && 0 < s.discarding[k] <= BUCKETS && s.discarding[k] - 1 in s.caches[k].draining
      && forall n :: n in s.caches[k].table ==> Bucket(n) != s.discarding[k] - 1
    case DiscardEnd(k) => Discards(s, k) && s.discarding[k] == BUCKETS + 1
    case AllocEntry(e, _, _) => e !in s.entries && s.heldEntries[e] == 0
    case HashAdd(k, e) =>
      && Holds(s, k) && HoldsEntry(s, e) && s.entries[e].home.None? && s.entries[e].name.Some?
      && (s.entries[e].name.value in s.caches[k].table ==> s.caches[k].table[s.entries[e].name.value] in s.entries)
    case HashRemove(k, n) => Holds(s, k) && (n in s.caches[k].table ==> s.caches[k].table[n] in s.entries)
    case HashFind(k, n) => Holds(s, k) && (n in s.caches[k].table ==> s.caches[k].table[n] in s.entries)
    case SetList(k, list) =>
      && Holds(s, k) && SlotKnown(s, k)
      && (list.Some? ==> HoldsEntry(s, list.value) && s.entries[list.value].home.None? && s.entries[list.value].name.None?)
    case EntryIsolate(e) =>
      && e in s.entries && s.entries[e].lru && s.entries[e].home.Some? && s.entries[e].home.value.k in s.caches
    case PutEntry(e) => HoldsEntry(s, e)
  }

  predicate SlotKnown(s: State, k: nat)
    requires k in s.caches
  {
    s.caches[k].slot.Listed? ==> s.caches[k].slot.e in s.entries
  }

  // ------------------------------------------------ entries

  function SetCache(s: State, k: nat, c: Cache): State { s.(caches := s.caches[k := c]) }

  function SetEntry(s: State, e: nat, x: Entry): State { s.(entries := s.entries[e := x]) }

  // An entry is unhooked; the reference of its place passes to the thread that did it.
  function Unhook(s: State, e: nat): State
    requires e in s.entries
  {
    SetEntry(s, e, s.entries[e].(home := None, lru := false)).(heldEntries := s.heldEntries + multiset{e})
  }

  // An entry is hooked up; the thread's reference passes to its place.
  function Hook(s: State, e: nat, home: Home): State
    requires e in s.entries
  {
    SetEntry(s, e, s.entries[e].(home := Some(home), lru := true, added := s.clock))
      .(heldEntries := s.heldEntries - multiset{e})
  }

  // nfs4_xattr_hash_add under the bucket lock.
  function Add(s: State, k: nat, e: nat): State
    requires Enabled(s, HashAdd(k, e))
  {
    var n := s.entries[e].name.value;
    var c := s.caches[k];
    if Bucket(n) in c.draining then s
    else
      var s1 := if n in c.table then Unhook(s, c.table[n]) else s;
      var nent := if n in c.table then c.nent else c.nent + 1;
      Hook(SetCache(s1, k, c.(table := c.table[n := e], nent := nent)), e, Hashed(k, n))
  }

  // nfs4_xattr_hash_remove under the bucket lock.
  function Remove(s: State, k: nat, n: Name): State
    requires Enabled(s, HashRemove(k, n))
  {
    var c := s.caches[k];
    if n in c.table then
      Unhook(SetCache(s, k, c.(table := c.table - {n}, nent := c.nent - 1)), c.table[n])
    else s
  }

  // nfs4_xattr_set_listcache under the slot lock.
  function Fill(s: State, k: nat, slot: Slot): State
    requires k in s.caches && SlotKnown(s, k) && (slot.Listed? ==> slot.e in s.entries)
  {
    var c := s.caches[k];
    if c.slot.Stale? then s
    else
      var s1 := if c.slot.Listed? then Unhook(s, c.slot.e) else s;
      var s2 := SetCache(s1, k, c.(slot := slot));
      if slot.Listed? then Hook(s2, slot.e, Slotted(k)) else s2
  }

  // entry_lru_isolate: one more reference besides the one of its place.
  function Isolate(s: State, e: nat): State
    requires Enabled(s, EntryIsolate(e))
  {
    var h := s.entries[e].home.value;
    var c := s.caches[h.k];
    var c' := match h
      case Hashed(_, n) => c.(table := c.table - {n}, nent := c.nent - 1)
      case Slotted(_) => c.(slot := Empty);
    var s1 := Unhook(SetCache(s, h.k, c'), e);
    SetEntry(s1, e, s1.entries[e].(refs := s1.entries[e].refs + 1)).(heldEntries := s1.heldEntries + multiset{e})
  }

  // kref_put on an entry; the last one frees it.
  function DropEntry(s: State, e: nat): State
    requires e in s.entries
  {
    var x := s.entries[e];
    var s1 := s.(heldEntries := s.heldEntries - multiset{e});
    if x.refs == 1 then s1.(entries := s.entries - {e}) else SetEntry(s1, e, x.(refs := x.refs - 1))
  }

  // ------------------------------------------------ caches

  // nfs4_xattr_cache_unlink; the link's reference passes to the one who will discard the cache.
  function Unlink(s: State, i: nat): State
    requires i in s.inodes && (s.inodes[i].cache.Some? ==> s.inodes[i].cache.value in s.caches)
  {
    var x := s.inodes[i];
    var s1 := s.(inodes := s.inodes[i := x.(cache := None, invalid := false)]);
    if x.cache.None? then s1
    else SetCache(s1, x.cache.value, s.caches[x.cache.value].(inode := None)).(discarding := s.discarding[x.cache.value := 0])
  }

  function GetRef(s: State, k: nat): State
    requires k in s.caches
  {
    SetCache(s, k, s.caches[k].(refs := s.caches[k].refs + 1)).(held := s.held + multiset{k})
  }

  function Constructed(): Cache { Cache(1, None, map[], {}, 0, Empty, 0) }

  function LinkCache(s: State, i: nat, k: nat): State
    requires Enabled(s, Link(i, k))
  {
    var x := s.inodes[i];
    if x.invalid then s
    else if x.cache.Some? then GetRef(s, x.cache.value)
    else
      SetCache(s, k, s.caches[k].(refs := s.caches[k].refs + 1, inode := Some(i), linkedAt := s.clock))
        .(inodes := s.inodes[i := x.(cache := Some(k))], unlinked := s.unlinked - {k}, held := s.held + multiset{k})
  }

  // kref_put on a cache; the last one frees it.
  function DropRef(s: State, k: nat): State
    requires k in s.caches
  {
    if s.caches[k].refs == 1 then s.(caches := s.caches - {k})
    else SetCache(s, k, s.caches[k].(refs := s.caches[k].refs - 1))
  }

  function Act(s: State, ev: Event): State
    requires Enabled(s, ev)
  {
    match ev
    case NewInode(i) => s.(inodes := s.inodes[i := Inode(None, false, s.clock)])
    case Invalidate(i) => s.(inodes := s.inodes[i := s.inodes[i].(invalid := true, wiped := s.clock)])
    case Lookup(i) =>
      if s.inodes[i].invalid then Unlink(s, i)
      else if s.inodes[i].cache.Some? then GetRef(s, s.inodes[i].cache.value) else s
    case AllocCache(k) => SetCache(s, k, Constructed()).(unlinked := s.unlinked + {k})
    case Link(i, k) => LinkCache(s, i, k)
    case DropUnlinked(k) => DropRef(s, k).(unlinked := s.unlinked - {k})
    case PutCache(k) => DropRef(s, k).(held := s.held - multiset{k})
    case Zap(i) => Unlink(s, i)
    case CacheIsolate(k) => GetRef(Unlinked(s, k), k)
    case DiscardSlot(k) => Fill(s, k, Stale).(discarding := s.discarding[k := 1])
    case DrainStart(k) =>
      SetCache(s, k, s.caches[k].(draining := s.caches[k].draining + {s.discarding[k] - 1}))
    case DrainOne(k, n) =>
      var c := s.caches[k];
      Unhook(SetCache(s, k, c.(table := c.table - {n})), c.table[n])
    case DrainNext(k) => s.(discarding := s.discarding[k := s.discarding[k] + 1])
    case DiscardEnd(k) =>
      SetCache(s, k, s.caches[k].(nent := 0)).(discarding := s.discarding - {k}, held := s.held + multiset{k})
    case AllocEntry(e, name, value) =>
      SetEntry(s, e, Entry(name, value, 1, None, false, 0)).(heldEntries := s.heldEntries + multiset{e})
    case HashAdd(k, e) => Add(s, k, e)
    case HashRemove(k, n) => Remove(s, k, n)
    case HashFind(k, n) => if n in s.caches[k].table then Ref(s, s.caches[k].table[n]) else s
    case SetList(k, list) => Fill(s, k, if list.Some? then Listed(list.value) else Empty)
    case EntryIsolate(e) => Isolate(s, e)
    case PutEntry(e) => DropEntry(s, e)
  }

  // kref_get on an entry.
  function Ref(s: State, e: nat): State
    requires e in s.entries
  {
    SetEntry(s, e, s.entries[e].(refs := s.entries[e].refs + 1)).(heldEntries := s.heldEntries + multiset{e})
  }

  // cache_lru_isolate breaks the link of a cache that is on the LRU.
  function Unlinked(s: State, k: nat): State
    requires k in s.caches && s.caches[k].inode.Some? && s.caches[k].inode.value in s.inodes
  {
    var i := s.caches[k].inode.value;
    SetCache(s, k, s.caches[k].(inode := None))
      .(inodes := s.inodes[i := s.inodes[i].(cache := None, invalid := false)], discarding := s.discarding[k := 0])
  }

  function Step(s: State, ev: Event): State
    requires Enabled(s, ev)
  {
    Act(s, ev).(clock := s.clock + 1)
  }

  function Run(es: seq<Event>): State {
    if es == [] then Start() else
      var s := Run(es[..|es|-1]);
      if Enabled(s, es[|es|-1]) then Step(s, es[|es|-1]) else s
  }
}
