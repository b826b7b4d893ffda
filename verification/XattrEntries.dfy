/**
 Entries of the xattr cache: each is found in at most one place, under its own name, and its
 references are those of its place and its holders.
 */
module XattrEntries {
  import opened Wrappers
  import opened XattrCache

  // ------------------------------------------------ places and references

  // The entry stands where it says it does.
  predicate AtHome(s: State, e: nat)
    requires e in s.entries
  {
    match s.entries[e].home
    case None => true
    case Some(Hashed(k, n)) =>
      && k in s.caches && n in s.caches[k].table && s.caches[k].table[n] == e && s.entries[e].name == Some(n)
    case Some(Slotted(k)) => k in s.caches && s.caches[k].slot == Listed(e) && s.entries[e].name == None
  }

  predicate Filed(s: State, k: nat, n: Name)
    requires k in s.caches && n in s.caches[k].table
  {
    var e := s.caches[k].table[n];
    e in s.entries && s.entries[e].home == Some(Hashed(k, n))
  }

  predicate SlotFiled(s: State, k: nat)
    requires k in s.caches
  {
    s.caches[k].slot.Listed? ==>
      s.caches[k].slot.e in s.entries && s.entries[s.caches[k].slot.e].home == Some(Slotted(k))
  }

  ghost predicate Homes(s: State) {
    && (forall e :: e in s.entries ==> AtHome(s, e))
    && (forall k, n :: k in s.caches && n in s.caches[k].table ==> Filed(s, k, n))
    && (forall k :: k in s.caches ==> SlotFiled(s, k))
  }

  // One reference for its place, one for each holder; on the LRU exactly while it has a place.
  predicate Counted(s: State, e: nat)
    requires e in s.entries
  {
    var x := s.entries[e];
    && x.refs > 0 && x.refs == s.heldEntries[e] + (if x.home.Some? then 1 else 0)
    && (x.lru <==> x.home.Some?)
  }

  ghost predicate Counts(s: State) {
    && (forall e :: e in s.entries ==> Counted(s, e))
    && (forall e :: e in s.heldEntries ==> e in s.entries)
  }

  ghost predicate Hooked(s: State) { Homes(s) && Counts(s) }

  // Hooked looks at nothing else.
  ghost predicate SameHooks(s: State, s': State) {
    && s'.entries == s.entries && s'.heldEntries == s.heldEntries && s'.caches.Keys == s.caches.Keys
    && forall k :: k in s.caches ==> s'.caches[k].table == s.caches[k].table && s'.caches[k].slot == s.caches[k].slot
  }

  lemma SameHooked(s: State, s': State)
    requires Hooked(s) && SameHooks(s, s')
    ensures Hooked(s')
  {
    forall e | e in s'.entries ensures AtHome(s', e) && Counted(s', e) { assert AtHome(s, e) && Counted(s, e); }
    forall k, n | k in s'.caches && n in s'.caches[k].table ensures Filed(s', k, n) { assert Filed(s, k, n); }
    forall k | k in s'.caches ensures SlotFiled(s', k) { assert SlotFiled(s, k); }
  }

  // ------------------------------------------------ the two moves

  function TakeOut(c: Cache, h: Home): Cache {
    match h
    case Hashed(_, n) => c.(table := c.table - {n})
    case Slotted(_) => c.(slot := Empty)
  }

  // An entry leaves its place.
  function Detach(s: State, e: nat): State
    requires e in s.entries && s.entries[e].home.Some? && s.entries[e].home.value.k in s.caches
  {
    var h := s.entries[e].home.value;
    Unhook(SetCache(s, h.k, TakeOut(s.caches[h.k], h)), e)
  }

  function PutIn(c: Cache, h: Home, e: nat): Cache {
    match h
    case Hashed(_, n) => c.(table := c.table[n := e])
    case Slotted(_) => c.(slot := Listed(e))
  }

  predicate Free(c: Cache, h: Home) {
    match h
    case Hashed(_, n) => n !in c.table
    case Slotted(_) => !c.slot.Listed?
  }

  // An entry takes a free place.
  function Attach(s: State, e: nat, h: Home): State
    requires e in s.entries && h.k in s.caches
  {
    Hook(SetCache(s, h.k, PutIn(s.caches[h.k], h, e)), e, h)
  }

  lemma DetachHomes(s: State, e: nat)
    requires Homes(s) && e in s.entries && s.entries[e].home.Some? && s.entries[e].home.value.k in s.caches
    ensures Homes(Detach(s, e))
  {
    var s' := Detach(s, e);
    assert AtHome(s, e);
    forall d | d in s'.entries ensures AtHome(s', d) { assert AtHome(s, d); }
    forall k, n | k in s'.caches && n in s'.caches[k].table ensures Filed(s', k, n) { assert Filed(s, k, n); }
    forall k | k in s'.caches ensures SlotFiled(s', k) { assert SlotFiled(s, k); }
  }

  lemma DetachCounts(s: State, e: nat)
    requires Counts(s) && e in s.entries && s.entries[e].home.Some? && s.entries[e].home.value.k in s.caches
    ensures Counts(Detach(s, e))
  {
    var s' := Detach(s, e);
    forall d | d in s'.entries ensures Counted(s', d) { assert Counted(s, d); }
  }

  predicate Fits(x: Entry, h: Home) { x.name == if h.Hashed? then Some(h.name) else None }

  lemma AttachHomes(s: State, e: nat, h: Home)
    requires Homes(s) && e in s.entries && s.entries[e].home.None? && Fits(s.entries[e], h)
    requires h.k in s.caches && Free(s.caches[h.k], h)
    ensures Homes(Attach(s, e, h))
  {
    var s' := Attach(s, e, h);
    forall d | d in s'.entries ensures AtHome(s', d) { assert AtHome(s, d); }
    forall k, n | k in s'.caches && n in s'.caches[k].table ensures Filed(s', k, n) {
      if Hashed(k, n) != h { assert Filed(s, k, n); }
    }
    forall k | k in s'.caches ensures SlotFiled(s', k) { assert SlotFiled(s, k); }
  }

  lemma AttachCounts(s: State, e: nat, h: Home)
    requires Counts(s) && HoldsEntry(s, e) && s.entries[e].home.None? && h.k in s.caches
    ensures Counts(Attach(s, e, h))
  {
    var s' := Attach(s, e, h);
    forall d | d in s'.entries ensures Counted(s', d) { assert Counted(s, d); }
  }

  // ------------------------------------------------ the operations as moves

  lemma DetachHooked(s: State, e: nat)
    requires Hooked(s) && e in s.entries && s.entries[e].home.Some? && s.entries[e].home.value.k in s.caches
    ensures Hooked(Detach(s, e))
  {
    DetachHomes(s, e);
    DetachCounts(s, e);
  }

  // The table without what the name had.
  function Before(s: State, k: nat, n: Name): State
    requires k in s.caches && (n in s.caches[k].table ==> Filed(s, k, n))
  {
    if n in s.caches[k].table then Detach(s, s.caches[k].table[n]) else s
  }

  lemma BeforeHooked(s: State, k: nat, n: Name)
    requires Hooked(s) && k in s.caches
    ensures n in s.caches[k].table ==> Filed(s, k, n)
    ensures Hooked(Before(s, k, n))
  {
    if n in s.caches[k].table {
      assert Filed(s, k, n);
      DetachHooked(s, s.caches[k].table[n]);
    }
  }

  lemma BeforeReady(s: State, k: nat, e: nat)
    requires Enabled(s, HashAdd(k, e))
    requires s.entries[e].name.value in s.caches[k].table ==> Filed(s, k, s.entries[e].name.value)
    ensures var n := s.entries[e].name.value;
      var s1 := Before(s, k, n);
      && HoldsEntry(s1, e) && s1.entries[e] == s.entries[e] && k in s1.caches && n !in s1.caches[k].table
  {
  }

  lemma AddIs(s: State, k: nat, e: nat)
    requires Enabled(s, HashAdd(k, e)) && Bucket(s.entries[e].name.value) !in s.caches[k].draining
    requires s.entries[e].name.value in s.caches[k].table ==> Filed(s, k, s.entries[e].name.value)
    requires var s1 := Before(s, k, s.entries[e].name.value);
      e in s1.entries && k in s1.caches && s1.entries[e] == s.entries[e]
    ensures SameHooks(Attach(Before(s, k, s.entries[e].name.value), e, Hashed(k, s.entries[e].name.value)), Add(s, k, e))
  {
    var n := s.entries[e].name.value;
    var t := s.caches[k].table;
    assert (t - {n})[n := e] == t[n := e];
  }

  lemma AddMoves(s: State, k: nat, e: nat)
    requires Hooked(s) && Enabled(s, HashAdd(k, e))
    ensures Hooked(Add(s, k, e))
  {
    var n := s.entries[e].name.value;
    if Bucket(n) !in s.caches[k].draining {
      hide Hooked, Add;
      BeforeHooked(s, k, n);
      BeforeReady(s, k, e);
      AddIs(s, k, e);
      AttachHooked(Before(s, k, n), e, Hashed(k, n));
      SameHooked(Attach(Before(s, k, n), e, Hashed(k, n)), Add(s, k, e));
    }
  }

  lemma AttachHooked(s: State, e: nat, h: Home)
    requires Hooked(s) && HoldsEntry(s, e) && s.entries[e].home.None? && Fits(s.entries[e], h)
    requires h.k in s.caches && Free(s.caches[h.k], h)
    ensures Hooked(Attach(s, e, h))
  {
    AttachHomes(s, e, h);
    AttachCounts(s, e, h);
  }

  lemma RemoveIs(s: State, k: nat, n: Name)
    requires Enabled(s, HashRemove(k, n)) && (n in s.caches[k].table ==> Filed(s, k, n))
    ensures SameHooks(Before(s, k, n), Remove(s, k, n))
  {
  }

  lemma RemoveMoves(s: State, k: nat, n: Name)
    requires Hooked(s) && Enabled(s, HashRemove(k, n))
    ensures Hooked(Remove(s, k, n))
  {
    BeforeHooked(s, k, n);
    RemoveIs(s, k, n);
    SameHooked(Before(s, k, n), Remove(s, k, n));
  }

  lemma DrainMoves(s: State, k: nat, n: Name)
    requires Hooked(s) && Enabled(s, DrainOne(k, n))
    ensures Hooked(Act(s, DrainOne(k, n)))
  {
    var o := s.caches[k].table[n];
    assert Filed(s, k, n);
    DetachHomes(s, o);
    DetachCounts(s, o);
    SameHooked(Detach(s, o), Act(s, DrainOne(k, n)));
  }

  // The old list leaves the slot.
  lemma EmptySlot(s: State, k: nat)
    requires Hooked(s) && k in s.caches && s.caches[k].slot.Listed?
    ensures s.caches[k].slot.e in s.entries
    ensures Hooked(SetCache(Unhook(s, s.caches[k].slot.e), k, s.caches[k].(slot := Empty)))
  {
    var o := s.caches[k].slot.e;
    assert SlotFiled(s, k);
    DetachHomes(s, o);
    DetachCounts(s, o);
    SameHooked(Detach(s, o), SetCache(Unhook(s, o), k, s.caches[k].(slot := Empty)));
  }

  // A slot without a list may be marked.
  lemma MarkSlot(s: State, k: nat, slot: Slot)
    requires Hooked(s) && k in s.caches && !s.caches[k].slot.Listed? && !slot.Listed?
    ensures Hooked(SetCache(s, k, s.caches[k].(slot := slot)))
  {
    var s' := SetCache(s, k, s.caches[k].(slot := slot));
    forall e | e in s'.entries ensures AtHome(s', e) && Counted(s', e) { assert AtHome(s, e) && Counted(s, e); }
    forall j, n | j in s'.caches && n in s'.caches[j].table ensures Filed(s', j, n) { assert Filed(s, j, n); }
    forall j | j in s'.caches ensures SlotFiled(s', j) { assert SlotFiled(s, j); }
  }

  // The slot as nfs4_xattr_set_listcache leaves it before the new list is hooked up.
  function Cleared(s: State, k: nat): State
    requires k in s.caches && SlotKnown(s, k)
  {
    SetCache(if s.caches[k].slot.Listed? then Unhook(s, s.caches[k].slot.e) else s, k, s.caches[k].(slot := Empty))
  }

  lemma ClearedHooked(s: State, k: nat)
    requires Hooked(s) && k in s.caches && SlotKnown(s, k)
    ensures Hooked(Cleared(s, k))
  {
    if s.caches[k].slot.Listed? { EmptySlot(s, k); } else { MarkSlot(s, k, Empty); }
  }

  lemma FillListIs(s: State, k: nat, e: nat)
    requires k in s.caches && SlotKnown(s, k) && !s.caches[k].slot.Stale?
    requires HoldsEntry(s, e) && s.entries[e].home.None? && s.caches[k].slot != Listed(e)
    ensures var s1 := Cleared(s, k);
      && HoldsEntry(s1, e) && s1.entries[e].home.None? && s1.entries[e].name == s.entries[e].name
      && SameHooks(Attach(s1, e, Slotted(k)), Fill(s, k, Listed(e)))
  {
  }

  lemma FillMarkIs(s: State, k: nat, slot: Slot)
    requires k in s.caches && SlotKnown(s, k) && !s.caches[k].slot.Stale? && !slot.Listed?
    ensures var s1 := Cleared(s, k); SameHooks(SetCache(s1, k, s1.caches[k].(slot := slot)), Fill(s, k, slot))
  {
  }

  lemma FillMoves(s: State, k: nat, slot: Slot)
    requires Hooked(s) && k in s.caches && SlotKnown(s, k)
    requires slot.Listed? ==>
      HoldsEntry(s, slot.e) && s.entries[slot.e].home.None? && s.entries[slot.e].name.None?
    ensures Hooked(Fill(s, k, slot))
  {
    if !s.caches[k].slot.Stale? {
      var s1 := Cleared(s, k);
      assert SlotFiled(s, k);
      ClearedHooked(s, k);
      if slot.Listed? {
        FillListIs(s, k, slot.e);
        AttachHooked(s1, slot.e, Slotted(k));
        SameHooked(Attach(s1, slot.e, Slotted(k)), Fill(s, k, slot));
      } else {
        FillMarkIs(s, k, slot);
        MarkSlot(s1, k, slot);
        SameHooked(SetCache(s1, k, s1.caches[k].(slot := slot)), Fill(s, k, slot));
      }
    }
  }

  lemma RefMoves(s: State, e: nat)
    requires Hooked(s) && e in s.entries
    ensures Hooked(Ref(s, e))
  {
    var s' := Ref(s, e);
    forall d | d in s'.entries ensures AtHome(s', d) && Counted(s', d) { assert AtHome(s, d) && Counted(s, d); }
    forall k, n | k in s'.caches && n in s'.caches[k].table ensures Filed(s', k, n) { assert Filed(s, k, n); }
    forall k | k in s'.caches ensures SlotFiled(s', k) { assert SlotFiled(s, k); }
  }

  lemma IsolateIs(s: State, e: nat)
    requires Enabled(s, EntryIsolate(e))
    ensures SameHooks(Ref(Detach(s, e), e), Isolate(s, e))
  {
  }

  lemma IsolateMoves(s: State, e: nat)
    requires Hooked(s) && Enabled(s, EntryIsolate(e))
    ensures Hooked(Isolate(s, e))
  {
    DetachHooked(s, e);
    RefMoves(Detach(s, e), e);
    IsolateIs(s, e);
    SameHooked(Ref(Detach(s, e), e), Isolate(s, e));
  }

  lemma DropHomes(s: State, e: nat)
    requires Homes(s) && e in s.entries && (s.entries[e].refs == 1 ==> s.entries[e].home.None?)
    ensures Homes(DropEntry(s, e))
  {
    var s' := DropEntry(s, e);
    forall d | d in s'.entries ensures AtHome(s', d) { assert AtHome(s, d); }
    forall k, n | k in s'.caches && n in s'.caches[k].table ensures Filed(s', k, n) { assert Filed(s, k, n); }
    forall k | k in s'.caches ensures SlotFiled(s', k) { assert SlotFiled(s, k); }
  }

  lemma DropCounts(s: State, e: nat)
    requires Counts(s) && HoldsEntry(s, e)
    ensures Counts(DropEntry(s, e))
  {
    var s' := DropEntry(s, e);
    assert Counted(s, e);
    forall d | d in s'.entries ensures Counted(s', d) { assert Counted(s, d); }
  }

  lemma CountedAt(s: State, e: nat)
    requires Counts(s) && e in s.entries
    ensures Counted(s, e)
  {
  }

  // An entry is freed only when nobody can find or hold it.
  lemma DropMoves(s: State, e: nat)
    requires Hooked(s) && HoldsEntry(s, e)
    ensures Hooked(DropEntry(s, e))
  {
    hide Homes, Counts, DropEntry;
    CountedAt(s, e);
    DropHomes(s, e);
    DropCounts(s, e);
  }

  lemma AllocMoves(s: State, e: nat, name: Option<Name>, value: nat)
    requires Hooked(s) && Enabled(s, AllocEntry(e, name, value))
    ensures Hooked(Act(s, AllocEntry(e, name, value)))
  {
    var s' := Act(s, AllocEntry(e, name, value));
    forall d | d in s'.entries ensures AtHome(s', d) && Counted(s', d) {
      if d != e { assert AtHome(s, d) && Counted(s, d); }
    }
    forall k, n | k in s'.caches && n in s'.caches[k].table ensures Filed(s', k, n) { assert Filed(s, k, n); }
    forall k | k in s'.caches ensures SlotFiled(s', k) { assert SlotFiled(s, k); }
  }

  // Caches that come or go hold nothing.
  ghost predicate CachesOnly(s: State, s': State) {
    && s'.entries == s.entries && s'.heldEntries == s.heldEntries
    && (forall k :: k in s.caches && k in s'.caches ==>
         s'.caches[k].table == s.caches[k].table && s'.caches[k].slot == s.caches[k].slot)
    && (forall k :: k in s'.caches && k !in s.caches ==> s'.caches[k].table == map[] && s'.caches[k].slot == Empty)
    && (forall k :: k in s.caches && k !in s'.caches ==> s.caches[k].table == map[] && !s.caches[k].slot.Listed?)
  }

  lemma CachesOnlyHooked(s: State, s': State)
    requires Hooked(s) && CachesOnly(s, s')
    ensures Hooked(s')
  {
    forall e | e in s'.entries ensures AtHome(s', e) && Counted(s', e) { assert AtHome(s, e) && Counted(s, e); }
    forall k, n | k in s'.caches && n in s'.caches[k].table ensures Filed(s', k, n) {
      assert k in s.caches && n in s.caches[k].table && Filed(s, k, n);
    }
    forall k | k in s'.caches ensures SlotFiled(s', k) {
      if k in s.caches { assert SlotFiled(s, k); }
    }
  }

  predicate TouchesEntries(ev: Event) {
    ev.DiscardSlot? || ev.DrainOne? || ev.AllocEntry? || ev.HashAdd? || ev.HashRemove? || ev.HashFind?
    || ev.SetList? || ev.EntryIsolate? || ev.PutEntry?
  }

  lemma DiscardSlotMoves(s: State, k: nat)
    requires Hooked(s) && Enabled(s, DiscardSlot(k))
    ensures Hooked(Act(s, DiscardSlot(k)))
  {
    hide Hooked, Fill;
    FillMoves(s, k, Stale);
    SameHooked(Fill(s, k, Stale), Act(s, DiscardSlot(k)));
  }

  lemma FindMoves(s: State, k: nat, n: Name)
    requires Hooked(s) && Enabled(s, HashFind(k, n))
    ensures Hooked(Act(s, HashFind(k, n)))
  {
    hide Hooked, Ref;
    if n in s.caches[k].table { RefMoves(s, s.caches[k].table[n]); }
  }

  lemma EntryStepHooked(s: State, ev: Event)
    requires Hooked(s) && Enabled(s, ev) && TouchesEntries(ev)
    ensures Hooked(Act(s, ev))
  {
    hide Hooked, Fill, Add, Remove, Isolate, DropEntry, Ref;
    match ev
    case DiscardSlot(k) => DiscardSlotMoves(s, k);
    case DrainOne(k, n) => DrainMoves(s, k, n);
    case AllocEntry(e, name, value) => AllocMoves(s, e, name, value);
    case HashAdd(k, e) => AddMoves(s, k, e);
    case HashRemove(k, n) => RemoveMoves(s, k, n);
    case HashFind(k, n) => FindMoves(s, k, n);
    case SetList(k, list) => FillMoves(s, k, if list.Some? then Listed(list.value) else Empty);
    case EntryIsolate(e) => IsolateMoves(s, e);
    case PutEntry(e) => DropMoves(s, e);
  }
}
