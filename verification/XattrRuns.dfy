/**
 Every run of the xattr cache.
 */
module XattrRuns {
  import opened Wrappers
  import opened XattrCache
  import opened XattrEntries
  import opened XattrCaches

  // ------------------------------------------------ steps that leave the entries alone

  // Nothing about entries changes, and dates only where a cache is new or has yet to be linked.
  predicate QuietAt(s: State, s': State, k: nat)
    requires k in s'.caches
  {
    if k in s.caches then
      && s'.caches[k].table == s.caches[k].table && s'.caches[k].slot == s.caches[k].slot
      && (s'.caches[k].linkedAt == s.caches[k].linkedAt || (k in s.unlinked && s'.caches[k].linkedAt == s.clock))
    else s'.caches[k] == Constructed()
  }

  ghost predicate Quiet(s: State, s': State) {
    && s'.entries == s.entries && s'.heldEntries == s.heldEntries
    && (forall k :: k in s'.caches ==> QuietAt(s, s', k))
    && (forall k :: k in s.caches && k !in s'.caches ==> s.caches[k].table == map[] && !s.caches[k].slot.Listed?)
  }

  lemma QuietHooked(s: State, s': State)
    requires Hooked(s) && Quiet(s, s')
    ensures Hooked(s')
  {
    assert forall k :: k in s'.caches ==> QuietAt(s, s', k);
    CachesOnlyHooked(s, s');
  }

  lemma SameCachesQuiet(s: State, s': State)
    requires s'.entries == s.entries && s'.heldEntries == s.heldEntries && s'.caches == s.caches
    ensures Quiet(s, s')
  {
  }

  lemma OneCacheQuiet(s: State, s': State, k: nat)
    requires s'.entries == s.entries && s'.heldEntries == s.heldEntries && k in s'.caches
    requires s'.caches == s.caches[k := s'.caches[k]] && QuietAt(s, s', k)
    ensures Quiet(s, s')
  {
  }

  lemma GetRefQuiet(s: State, k: nat)
    requires k in s.caches
    ensures Quiet(s, GetRef(s, k))
  {
    OneCacheQuiet(s, GetRef(s, k), k);
  }

  lemma UnlinkQuiet(s: State, i: nat)
    requires i in s.inodes && (s.inodes[i].cache.Some? ==> s.inodes[i].cache.value in s.caches)
    ensures Quiet(s, Unlink(s, i))
  {
    if s.inodes[i].cache.Some? { OneCacheQuiet(s, Unlink(s, i), s.inodes[i].cache.value); }
    else { SameCachesQuiet(s, Unlink(s, i)); }
  }

  lemma LinkQuiet(s: State, i: nat, k: nat)
    requires Enabled(s, Link(i, k))
    ensures Quiet(s, LinkCache(s, i, k))
  {
    var x := s.inodes[i];
    if x.invalid { SameCachesQuiet(s, s); }
    else if x.cache.Some? { GetRefQuiet(s, x.cache.value); }
    else { OneCacheQuiet(s, LinkCache(s, i, k), k); }
  }

  lemma IsolateQuiet(s: State, k: nat)
    requires Enabled(s, CacheIsolate(k))
    ensures Quiet(s, GetRef(Unlinked(s, k), k))
  {
    var s' := GetRef(Unlinked(s, k), k);
    assert s'.caches == s.caches[k := s'.caches[k]];
    OneCacheQuiet(s, s', k);
  }

  lemma LinkStepQuiet(s: State, ev: Event)
    requires Enabled(s, ev) && LinksChange(ev)
    ensures Quiet(s, Act(s, ev))
  {
    match ev
    case NewInode(_) => SameCachesQuiet(s, Act(s, ev));
    case Invalidate(_) => SameCachesQuiet(s, Act(s, ev));
    case Lookup(i) =>
      if s.inodes[i].invalid { UnlinkQuiet(s, i); }
      else if s.inodes[i].cache.Some? { GetRefQuiet(s, s.inodes[i].cache.value); }
      else { SameCachesQuiet(s, s); }
    case Link(i, k) => LinkQuiet(s, i, k);
    case Zap(i) => UnlinkQuiet(s, i);
    case CacheIsolate(k) => IsolateQuiet(s, k);
  }

  lemma FreedQuiet(s: State, s': State, k: nat)
    requires s'.entries == s.entries && s'.heldEntries == s.heldEntries && s'.caches == s.caches - {k}
    requires k in s.caches ==> s.caches[k].table == map[] && !s.caches[k].slot.Listed?
    ensures Quiet(s, s')
  {
  }

  lemma DropQuiet(s: State, ev: Event)
    requires Sound(s) && Enabled(s, ev) && (ev.DropUnlinked? || ev.PutCache?)
    ensures Quiet(s, Act(s, ev))
  {
    hide Sound, Quiet;
    if s.caches[ev.k].refs == 1 {
      FreedIsClean(s, ev);
      FreedQuiet(s, Act(s, ev), ev.k);
    } else {
      OneCacheQuiet(s, Act(s, ev), ev.k);
    }
  }

  lemma OtherQuiet(s: State, ev: Event)
    requires Enabled(s, ev) && (ev.AllocCache? || ev.DrainStart? || ev.DrainNext? || ev.DiscardEnd?)
    ensures Quiet(s, Act(s, ev))
  {
    if ev.DrainNext? { SameCachesQuiet(s, Act(s, ev)); } else { OneCacheQuiet(s, Act(s, ev), ev.k); }
  }

  lemma StepQuiet(s: State, ev: Event)
    requires Sound(s) && Enabled(s, ev) && !TouchesEntries(ev)
    ensures Quiet(s, Act(s, ev))
  {
    if LinksChange(ev) { LinkStepQuiet(s, ev); }
    else if ev.DropUnlinked? || ev.PutCache? { DropQuiet(s, ev); }
    else { OtherQuiet(s, ev); }
  }

  lemma StepHooked(s: State, ev: Event)
    requires Hooked(s) && Sound(s) && Enabled(s, ev)
    ensures Hooked(Act(s, ev))
  {
    if TouchesEntries(ev) {
      EntryStepHooked(s, ev);
    } else {
      StepQuiet(s, ev);
      QuietHooked(s, Act(s, ev));
    }
  }

  // ------------------------------------------------ what is found, and since when

  // Found under the name before and after, with the same value and date.
  predicate Kept(s: State, s': State, k: nat, n: Name)
    requires k in s'.caches && n in s'.caches[k].table
  {
    && k in s.caches && n in s.caches[k].table && s'.caches[k].table[n] == s.caches[k].table[n]
    && s.caches[k].table[n] in s.entries && s.caches[k].table[n] in s'.entries
    && s'.entries[s.caches[k].table[n]].value == s.entries[s.caches[k].table[n]].value
    && s'.entries[s.caches[k].table[n]].added == s.entries[s.caches[k].table[n]].added
    && s'.caches[k].linkedAt == s.caches[k].linkedAt
  }

  // This step adds a value for the name to the cache.
  predicate Writes(s: State, ev: Event, k: nat, n: Name) {
    && ev.HashAdd? && ev.k == k && Enabled(s, ev)
    && s.entries[ev.e].name == Some(n) && Bucket(n) !in s.caches[k].draining
  }

  // What the name finds was added by this step.
  predicate Added(s: State, ev: Event, s': State, k: nat, n: Name)
    requires k in s'.caches && n in s'.caches[k].table
  {
    var e := s'.caches[k].table[n];
    && Writes(s, ev, k, n) && e == ev.e && s'.caches[k].linkedAt == s.caches[k].linkedAt
    && e in s'.entries && s'.entries[e].added == s.clock && s'.entries[e].value == s.entries[e].value
  }

  // What the name finds was there before, and this step neither adds, removes nor starts afresh.
  predicate Stays(s: State, ev: Event, s': State, k: nat, n: Name)
    requires k in s'.caches && n in s'.caches[k].table
  {
    Kept(s, s', k, n) && !Writes(s, ev, k, n) && ev != HashRemove(k, n) && ev != AllocCache(k)
  }

  lemma AddKeepsOthers(s: State, k: nat, e: nat, d: nat)
    requires Enabled(s, HashAdd(k, e)) && d in s.entries && d != e
    ensures d in Add(s, k, e).entries
    ensures Add(s, k, e).entries[d].value == s.entries[d].value && Add(s, k, e).entries[d].added == s.entries[d].added
  {
  }

  lemma AddTable(s: State, k: nat, e: nat, k': nat, n: Name)
    requires Enabled(s, HashAdd(k, e)) && k' in Add(s, k, e).caches && n in Add(s, k, e).caches[k'].table
    ensures var c' := Add(s, k, e).caches[k'];
      && k' in s.caches && c'.linkedAt == s.caches[k'].linkedAt
      && if k' == k && n == s.entries[e].name.value && Bucket(n) !in s.caches[k].draining then
           c'.table[n] == e
         else n in s.caches[k'].table && c'.table[n] == s.caches[k'].table[n]
  {
  }

  lemma AddEntry(s: State, k: nat, e: nat)
    requires Enabled(s, HashAdd(k, e)) && Bucket(s.entries[e].name.value) !in s.caches[k].draining
    ensures e in Add(s, k, e).entries && Add(s, k, e).entries[e].added == s.clock
    ensures Add(s, k, e).entries[e].value == s.entries[e].value
  {
  }

  lemma AddKept(s: State, k: nat, e: nat, k': nat, n: Name)
    requires Enabled(s, HashAdd(k, e))
    requires k' in Act(s, HashAdd(k, e)).caches && n in Act(s, HashAdd(k, e)).caches[k'].table
    requires k' in s.caches && n in s.caches[k'].table ==> Filed(s, k', n)
    ensures Stays(s, HashAdd(k, e), Act(s, HashAdd(k, e)), k', n) || Added(s, HashAdd(k, e), Act(s, HashAdd(k, e)), k', n)
  {
    hide Add;
    AddTable(s, k, e, k', n);
    if k' == k && n == s.entries[e].name.value && Bucket(n) !in s.caches[k].draining {
      AddEntry(s, k, e);
    } else {
      AddKeepsOthers(s, k, e, s.caches[k'].table[n]);
    }
  }

  lemma RemoveKept(s: State, k: nat, m: Name, k': nat, n: Name)
    requires Enabled(s, HashRemove(k, m))
    requires k' in Act(s, HashRemove(k, m)).caches && n in Act(s, HashRemove(k, m)).caches[k'].table
    requires k' in s.caches && n in s.caches[k'].table ==> Filed(s, k', n)
    ensures Stays(s, HashRemove(k, m), Act(s, HashRemove(k, m)), k', n)
  {
  }

  lemma FillKeepsOthers(s: State, k: nat, slot: Slot, d: nat)
    requires k in s.caches && SlotKnown(s, k) && (slot.Listed? ==> slot.e in s.entries)
    requires d in s.entries && !(slot.Listed? && slot.e == d)
    ensures d in Fill(s, k, slot).entries
    ensures Fill(s, k, slot).entries[d].value == s.entries[d].value && Fill(s, k, slot).entries[d].added == s.entries[d].added
  {
  }

  lemma HookingSame(s: State, e: nat, h: Home)
    requires e in s.entries
    ensures Unhook(s, e).inodes == s.inodes && Unhook(s, e).caches == s.caches && e in Unhook(s, e).entries
    ensures Hook(s, e, h).inodes == s.inodes && Hook(s, e, h).caches == s.caches
    ensures forall d :: d in s.entries ==> d in Unhook(s, e).entries
  {
  }

  lemma FillCaches(s: State, k: nat, slot: Slot)
    requires k in s.caches && SlotKnown(s, k) && (slot.Listed? ==> slot.e in s.entries)
    ensures Fill(s, k, slot).inodes == s.inodes
    ensures Fill(s, k, slot).caches ==
      if s.caches[k].slot.Stale? then s.caches else s.caches[k := s.caches[k].(slot := slot)]
  {
    hide Hook, Unhook;
    var c := s.caches[k];
    if c.slot.Listed? { HookingSame(s, c.slot.e, Slotted(k)); }
    var s1 := if c.slot.Listed? then Unhook(s, c.slot.e) else s;
    if slot.Listed? { HookingSame(SetCache(s1, k, c.(slot := slot)), slot.e, Slotted(k)); }
  }

  lemma FillTables(s: State, k: nat, slot: Slot, j: nat)
    requires k in s.caches && SlotKnown(s, k) && (slot.Listed? ==> slot.e in s.entries) && j in Fill(s, k, slot).caches
    ensures j in s.caches
    ensures var c, c' := s.caches[j], Fill(s, k, slot).caches[j];
      c'.table == c.table && c'.linkedAt == c.linkedAt
  {
    hide Fill;
    FillCaches(s, k, slot);
  }

  lemma FillKept(s: State, k: nat, slot: Slot, k': nat, n: Name)
    requires k in s.caches && SlotKnown(s, k)
    requires slot.Listed? ==> HoldsEntry(s, slot.e) && s.entries[slot.e].home.None?
    requires k' in Fill(s, k, slot).caches && n in Fill(s, k, slot).caches[k'].table
    requires k' in s.caches && n in s.caches[k'].table ==> Filed(s, k', n)
    ensures Kept(s, Fill(s, k, slot), k', n)
  {
    hide Fill;
    FillTables(s, k, slot, k');
    FillKeepsOthers(s, k, slot, s.caches[k'].table[n]);
  }

  lemma ListKept(s: State, ev: Event, k: nat, n: Name)
    requires Enabled(s, ev) && (ev.DiscardSlot? || ev.SetList?)
    requires k in Act(s, ev).caches && n in Act(s, ev).caches[k].table
    requires k in s.caches && n in s.caches[k].table ==> Filed(s, k, n)
    ensures Kept(s, Act(s, ev), k, n)
  {
    hide Fill, Filed;
    if ev.DiscardSlot? { FillKept(s, ev.k, Stale, k, n); }
    else { FillKept(s, ev.k, if ev.list.Some? then Listed(ev.list.value) else Empty, k, n); }
  }

  lemma IsolateKept(s: State, e: nat, k: nat, n: Name)
    requires Enabled(s, EntryIsolate(e))
    requires k in Act(s, EntryIsolate(e)).caches && n in Act(s, EntryIsolate(e)).caches[k].table
    requires k in s.caches && n in s.caches[k].table ==> Filed(s, k, n)
    ensures Kept(s, Act(s, EntryIsolate(e)), k, n)
  {
  }

  lemma DrainKept(s: State, k: nat, m: Name, k': nat, n: Name)
    requires Enabled(s, DrainOne(k, m))
    requires k' in Act(s, DrainOne(k, m)).caches && n in Act(s, DrainOne(k, m)).caches[k'].table
    requires k' in s.caches && n in s.caches[k'].table ==> Filed(s, k', n)
    ensures Kept(s, Act(s, DrainOne(k, m)), k', n)
  {
  }

  lemma DropKept(s: State, e: nat, k: nat, n: Name)
    requires Enabled(s, PutEntry(e)) && Counted(s, e)
    requires k in Act(s, PutEntry(e)).caches && n in Act(s, PutEntry(e)).caches[k].table
    requires k in s.caches && n in s.caches[k].table ==> Filed(s, k, n)
    ensures Kept(s, Act(s, PutEntry(e)), k, n)
  {
  }

  lemma CountKept(s: State, ev: Event, k: nat, n: Name)
    requires Enabled(s, ev) && (ev.AllocEntry? || ev.HashFind?)
    requires k in Act(s, ev).caches && n in Act(s, ev).caches[k].table
    requires k in s.caches && n in s.caches[k].table ==> Filed(s, k, n)
    ensures Kept(s, Act(s, ev), k, n)
  {
  }

  lemma FiledAt(s: State, k: nat, n: Name)
    requires Hooked(s) && k in s.caches && n in s.caches[k].table
    ensures Filed(s, k, n) && AtHome(s, s.caches[k].table[n])
  {
  }

  lemma QuietPoint(s: State, s': State, k: nat)
    requires Quiet(s, s') && k in s'.caches
    ensures QuietAt(s, s', k) && s'.entries == s.entries
  {
  }

  lemma FilledIsLinked(s: State, k: nat, n: Name)
    requires Sound(s) && k in s.caches && n in s.caches[k].table
    ensures k !in s.unlinked
  {
    hide Sound;
    SoundAt(s, k);
  }

  lemma AllocIsNew(s: State, ev: Event)
    requires Enabled(s, ev)
    ensures ev.AllocCache? ==> ev.k !in s.caches
  {
  }

  // A cache with entries is not one that has yet to be linked.
  lemma CachesKept(s: State, ev: Event, k: nat, n: Name)
    requires Hooked(s) && Sound(s) && Enabled(s, ev) && !TouchesEntries(ev)
    requires k in Act(s, ev).caches && n in Act(s, ev).caches[k].table
    ensures Stays(s, ev, Act(s, ev), k, n)
  {
    hide Sound, Hooked, Act, Enabled, Quiet;
    AllocIsNew(s, ev);
    StepQuiet(s, ev);
    QuietPoint(s, Act(s, ev), k);
    FiledAt(s, k, n);
    FilledIsLinked(s, k, n);
  }

  // The steps on entries other than adding to a table and removing from it.
  lemma OtherEntryStepKept(s: State, ev: Event, k: nat, n: Name)
    requires Enabled(s, ev) && TouchesEntries(ev) && !ev.HashAdd? && !ev.HashRemove? && (ev.PutEntry? ==> Counted(s, ev.e))
    requires k in Act(s, ev).caches && n in Act(s, ev).caches[k].table
    requires k in s.caches && n in s.caches[k].table ==> Filed(s, k, n)
    ensures Kept(s, Act(s, ev), k, n)
  {
    hide Act, Enabled, Filed, Kept;
    match ev
    case DiscardSlot(_) => ListKept(s, ev, k, n);
    case DrainOne(j, m) => DrainKept(s, j, m, k, n);
    case AllocEntry(_, _, _) => CountKept(s, ev, k, n);
    case HashFind(_, _) => CountKept(s, ev, k, n);
    case SetList(_, _) => ListKept(s, ev, k, n);
    case EntryIsolate(e) => IsolateKept(s, e, k, n);
    case PutEntry(e) => DropKept(s, e, k, n);
  }

  lemma EntryStepKept(s: State, ev: Event, k: nat, n: Name)
    requires Enabled(s, ev) && TouchesEntries(ev) && (ev.PutEntry? ==> Counted(s, ev.e))
    requires k in Act(s, ev).caches && n in Act(s, ev).caches[k].table
    requires k in s.caches && n in s.caches[k].table ==> Filed(s, k, n)
    ensures Stays(s, ev, Act(s, ev), k, n) || Added(s, ev, Act(s, ev), k, n)
  {
    hide Act, Enabled, Kept, Added, Filed;
    if ev.HashAdd? {
      AddKept(s, ev.k, ev.e, k, n);
    } else if ev.HashRemove? {
      RemoveKept(s, ev.k, ev.name, k, n);
    } else {
      OtherEntryStepKept(s, ev, k, n);
    }
  }

  lemma StepKept(s: State, ev: Event, k: nat, n: Name)
    requires Hooked(s) && Sound(s) && Enabled(s, ev)
    requires k in Act(s, ev).caches && n in Act(s, ev).caches[k].table
    ensures Stays(s, ev, Act(s, ev), k, n) || Added(s, ev, Act(s, ev), k, n)
  {
    assert k in s.caches && n in s.caches[k].table ==> Filed(s, k, n);
    if ev.PutEntry? { assert Counted(s, ev.e); }
    if TouchesEntries(ev) { EntryStepKept(s, ev, k, n); } else { CachesKept(s, ev, k, n); }
  }

  // What a name finds was added after the cache was linked.
  predicate True(s: State, k: nat, n: Name)
    requires k in s.caches && n in s.caches[k].table
  {
    s.caches[k].table[n] in s.entries && s.caches[k].linkedAt < s.entries[s.caches[k].table[n]].added
  }

  ghost predicate Truthful(s: State) {
    && (forall k, n :: k in s.caches && n in s.caches[k].table ==> True(s, k, n))
    && (forall k :: k in s.caches ==> s.caches[k].linkedAt < s.clock)
  }

  // A valid link is younger than the last invalidation.
  predicate Timely(s: State, i: nat)
    requires i in s.inodes
  {
    && s.inodes[i].wiped < s.clock
    && (s.inodes[i].cache.Some? && !s.inodes[i].invalid && s.inodes[i].cache.value in s.caches ==>
         s.inodes[i].wiped < s.caches[s.inodes[i].cache.value].linkedAt)
  }

  ghost predicate AllTimely(s: State) { forall i :: i in s.inodes ==> Timely(s, i) }

  lemma StepTruthful(s: State, ev: Event)
    requires Truthful(s) && Hooked(s) && Sound(s) && Enabled(s, ev)
    ensures Truthful(Step(s, ev))
  {
    var s' := Step(s, ev);
    forall k, n | k in s'.caches && n in s'.caches[k].table ensures True(s', k, n) {
      StepKept(s, ev, k, n);
      if k in s.caches && n in s.caches[k].table { assert True(s, k, n); }
    }
    forall k | k in s'.caches ensures s'.caches[k].linkedAt < s'.clock { StepLinkedAt(s, ev, k); }
  }

  // Links and their dates stay.
  predicate SameDate(s: State, s': State, j: nat) {
    s'.inodes == s.inodes && (j in s'.caches ==> j in s.caches && s'.caches[j].linkedAt == s.caches[j].linkedAt)
  }

  lemma AddDates(s: State, k: nat, e: nat, j: nat)
    requires Enabled(s, HashAdd(k, e))
    ensures SameDate(s, Act(s, HashAdd(k, e)), j)
  {
    hide Hook, Unhook;
    var n, c := s.entries[e].name.value, s.caches[k];
    if n in c.table { HookingSame(s, c.table[n], Slotted(k)); }
    var s1 := if n in c.table then Unhook(s, c.table[n]) else s;
    var nent := if n in c.table then c.nent else c.nent + 1;
    HookingSame(SetCache(s1, k, c.(table := c.table[n := e], nent := nent)), e, Hashed(k, n));
  }

  lemma FillDates(s: State, k: nat, slot: Slot, j: nat)
    requires k in s.caches && SlotKnown(s, k) && (slot.Listed? ==> slot.e in s.entries)
    ensures SameDate(s, Fill(s, k, slot), j)
  {
    hide Fill;
    FillCaches(s, k, slot);
  }

  lemma ListDates(s: State, ev: Event, j: nat)
    requires Enabled(s, ev) && (ev.DiscardSlot? || ev.SetList?)
    ensures SameDate(s, Act(s, ev), j)
  {
    hide Fill;
    if ev.DiscardSlot? { FillDates(s, ev.k, Stale, j); }
    else { FillDates(s, ev.k, if ev.list.Some? then Listed(ev.list.value) else Empty, j); }
  }

  lemma RemoveDates(s: State, k: nat, n: Name, j: nat)
    requires Enabled(s, HashRemove(k, n))
    ensures SameDate(s, Act(s, HashRemove(k, n)), j)
  {
  }

  lemma IsolateDates(s: State, e: nat, j: nat)
    requires Enabled(s, EntryIsolate(e))
    ensures SameDate(s, Act(s, EntryIsolate(e)), j)
  {
  }

  lemma DrainDates(s: State, k: nat, n: Name, j: nat)
    requires Enabled(s, DrainOne(k, n))
    ensures SameDate(s, Act(s, DrainOne(k, n)), j)
  {
  }

  lemma CountDates(s: State, ev: Event, j: nat)
    requires Enabled(s, ev) && (ev.AllocEntry? || ev.HashFind? || ev.PutEntry?)
    ensures SameDate(s, Act(s, ev), j)
  {
    hide Act, Enabled;
    CountStepSame(s, ev);
  }

  lemma EntryStepDates(s: State, ev: Event, k: nat)
    requires Enabled(s, ev) && TouchesEntries(ev)
    ensures SameDate(s, Act(s, ev), k)
  {
    hide Act, Enabled, SameDate;
    match ev
    case DiscardSlot(_) => ListDates(s, ev, k);
    case DrainOne(j, n) => DrainDates(s, j, n, k);
    case HashAdd(j, e) => AddDates(s, j, e, k);
    case HashRemove(j, n) => RemoveDates(s, j, n, k);
    case SetList(_, _) => ListDates(s, ev, k);
    case EntryIsolate(e) => IsolateDates(s, e, k);
    case _ => CountDates(s, ev, k);
  }

  lemma StepLinkedAt(s: State, ev: Event, k: nat)
    requires Sound(s) && Enabled(s, ev) && k in Act(s, ev).caches
    ensures Act(s, ev).caches[k].linkedAt == s.clock || Act(s, ev).caches[k].linkedAt == 0
         || (k in s.caches && Act(s, ev).caches[k].linkedAt == s.caches[k].linkedAt)
  {
    if TouchesEntries(ev) {
      EntryStepDates(s, ev, k);
    } else {
      StepQuiet(s, ev);
      assert QuietAt(s, Act(s, ev), k);
    }
  }

  // ------------------------------------------------ the dates of links

  lemma SameInodesTimely(s: State, s': State, i: nat)
    requires i in s.inodes && Timely(s, i) && s'.inodes == s.inodes && s'.clock > s.clock
    requires s.inodes[i].cache.Some? && s.inodes[i].cache.value in s'.caches ==>
      s.inodes[i].cache.value in s.caches
      && s'.caches[s.inodes[i].cache.value].linkedAt == s.caches[s.inodes[i].cache.value].linkedAt
    ensures Timely(s', i)
  {
  }

  // The link is cut, or was not there.
  lemma CutTimely(s: State, s': State, i: nat, j: nat)
    requires i in s.inodes && Timely(s, i) && i in s'.inodes && s'.clock > s.clock
    requires if i == j then s'.inodes[i].cache.None? && s'.inodes[i].wiped == s.inodes[i].wiped else s'.inodes[i] == s.inodes[i]
    requires forall k :: k in s'.caches ==> k in s.caches && s'.caches[k].linkedAt == s.caches[k].linkedAt
    ensures Timely(s', i)
  {
  }

  lemma GetRefTimely(s: State, s': State, i: nat, k: nat)
    requires k in s.caches && s' == GetRef(s, k).(clock := s.clock + 1) && i in s.inodes && Timely(s, i)
    ensures Timely(s', i)
  {
  }

  lemma LinkTimely(s: State, i: nat, k: nat, j: nat)
    requires Enabled(s, Link(i, k)) && References(s) && j in s.inodes && Timely(s, j) && Inward(s, j) && Timely(s, i)
    ensures Timely(Step(s, Link(i, k)), j)
  {
    assert Referenced(s, k);
    if !s.inodes[i].invalid && s.inodes[i].cache.Some? {
      GetRefTimely(s, Step(s, Link(i, k)), j, s.inodes[i].cache.value);
    }
  }

  lemma LookupTimely(s: State, i: nat, j: nat)
    requires Enabled(s, Lookup(i)) && j in s.inodes && Timely(s, j)
    ensures Timely(Step(s, Lookup(i)), j)
  {
    if s.inodes[i].invalid {
      CutTimely(s, Step(s, Lookup(i)), j, i);
    } else if s.inodes[i].cache.Some? {
      GetRefTimely(s, Step(s, Lookup(i)), j, s.inodes[i].cache.value);
    }
  }

  lemma ZapTimely(s: State, i: nat, j: nat)
    requires Enabled(s, Zap(i)) && j in s.inodes && Timely(s, j)
    ensures Timely(Step(s, Zap(i)), j)
  {
    CutTimely(s, Step(s, Zap(i)), j, i);
  }

  lemma CacheIsolateTimely(s: State, k: nat, j: nat)
    requires Enabled(s, CacheIsolate(k)) && j in s.inodes && Timely(s, j)
    ensures Timely(Step(s, CacheIsolate(k)), j)
  {
    CutTimely(s, Step(s, CacheIsolate(k)), j, s.caches[k].inode.value);
  }

  lemma MarkTimely(s: State, ev: Event, j: nat)
    requires Enabled(s, ev) && (ev.NewInode? || ev.Invalidate?) && j in Act(s, ev).inodes && (j in s.inodes ==> Timely(s, j))
    ensures Timely(Step(s, ev), j)
  {
  }

  lemma InodesStay(s: State, ev: Event, j: nat)
    requires Enabled(s, ev) && LinksChange(ev) && j in Act(s, ev).inodes
    ensures ev.NewInode? || j in s.inodes
  {
  }

  lemma LinkStepTimely(s: State, ev: Event, j: nat)
    requires Enabled(s, ev) && LinksChange(ev) && j in Act(s, ev).inodes && Links(s) && References(s) && AllTimely(s)
    ensures Timely(Step(s, ev), j)
  {
    hide Act, Step, References, Timely, Inward;
    InodesStay(s, ev, j);
    if j in s.inodes { assert Timely(s, j) && Inward(s, j); }
    match ev
    case NewInode(_) => MarkTimely(s, ev, j);
    case Invalidate(_) => MarkTimely(s, ev, j);
    case Lookup(i) => LookupTimely(s, i, j);
    case Link(i, k) =>
      assert Timely(s, i);
      LinkTimely(s, i, k, j);
    case Zap(i) => ZapTimely(s, i, j);
    case CacheIsolate(k) => CacheIsolateTimely(s, k, j);
  }

  lemma StepTimely(s: State, ev: Event)
    requires AllTimely(s) && Links(s) && Sound(s) && Enabled(s, ev)
    ensures AllTimely(Step(s, ev))
  {
    forall i | i in Act(s, ev).inodes ensures Timely(Step(s, ev), i) {
      if LinksChange(ev) { LinkStepTimely(s, ev, i); } else { PlainTimely(s, ev, i); }
    }
  }

  lemma PlainTimely(s: State, ev: Event, i: nat)
    requires AllTimely(s) && Links(s) && Sound(s) && Enabled(s, ev) && !LinksChange(ev) && i in Act(s, ev).inodes
    ensures Timely(Step(s, ev), i)
  {
    StepSameLinks(s, ev);
    assert Timely(s, i) && Inward(s, i);
    if s.inodes[i].cache.Some? && s.inodes[i].cache.value in Act(s, ev).caches {
      var k := s.inodes[i].cache.value;
      assert Referenced(s, k);
      if TouchesEntries(ev) {
        EntryStepDates(s, ev, k);
      } else {
        StepQuiet(s, ev);
        assert QuietAt(s, Act(s, ev), k);
      }
    }
    SameInodesTimely(s, Step(s, ev), i);
  }

  // ------------------------------------------------ runs

  ghost predicate Inv(s: State) { Shaped(s) && Truthful(s) && AllTimely(s) }

  ghost predicate Shaped(s: State) { Hooked(s) && Sound(s) && Links(s) }

  // Only the time passes.
  lemma Ticked(s: State, s': State)
    requires Shaped(s) && s' == s.(clock := s'.clock)
    ensures Shaped(s')
  {
    SameHooked(s, s');
    SameCachesSound(s, s');
    SameLinksLinked(s, s');
  }

  lemma ActShape(s: State, ev: Event)
    requires Shaped(s) && Enabled(s, ev)
    ensures Shaped(Act(s, ev))
  {
    StepHooked(s, ev);
    StepSound(s, ev);
    StepLinks(s, ev);
  }

  lemma StepShape(s: State, ev: Event)
    requires Shaped(s) && Enabled(s, ev)
    ensures Shaped(Step(s, ev))
  {
    ActShape(s, ev);
    Ticked(Act(s, ev), Step(s, ev));
  }

  lemma StepInv(s: State, ev: Event)
    requires Inv(s) && Enabled(s, ev)
    ensures Inv(Step(s, ev))
  {
    StepShape(s, ev);
    StepTruthful(s, ev);
    StepTimely(s, ev);
  }

  lemma {:induction false} RunInv(es: seq<Event>)
    ensures Inv(Run(es))
  {
    if es != [] {
      RunInv(es[..|es|-1]);
      var s := Run(es[..|es|-1]);
      if Enabled(s, es[|es|-1]) { StepInv(s, es[|es|-1]); }
    }
  }

  // ------------------------------------------------ theorems

  // The value last added to cache k for the name, since it was last removed from it or the cache made.
  function LastAdded(es: seq<Event>, k: nat, n: Name): Option<nat> {
    if es == [] then None
    else
      var s, ev := Run(es[..|es|-1]), es[|es|-1];
      if Writes(s, ev, k, n) then Some(s.entries[ev.e].value)
      else if Enabled(s, ev) && (ev == HashRemove(k, n) || ev == AllocCache(k)) then None
      else LastAdded(es[..|es|-1], k, n)
  }

  // A hit returns the value last added to the cache for the name and not removed since.
  lemma {:induction false} HitIsLastAdded(es: seq<Event>, k: nat, n: Name)
    requires k in Run(es).caches && n in Run(es).caches[k].table
    ensures var s := Run(es);
      var e := s.caches[k].table[n];
      e in s.entries && s.entries[e].name == Some(n) && LastAdded(es, k, n) == Some(s.entries[e].value)
  {
    hide Truthful, AllTimely, Sound, Links, Hooked;
    RunInv(es);
    FiledAt(Run(es), k, n);
    if es != [] {
      var s, ev := Run(es[..|es|-1]), es[|es|-1];
      RunInv(es[..|es|-1]);
      if Enabled(s, ev) { StepKept(s, ev, k, n); }
      if !Writes(s, ev, k, n) { HitIsLastAdded(es[..|es|-1], k, n); }
    }
  }

  // The cache of an inode that is not marked invalid holds nothing added before the inode's
  // attributes were last declared invalid.
  lemma NothingOlderThanInvalidation(es: seq<Event>, i: nat, n: Name)
    requires i in Run(es).inodes && Run(es).inodes[i].cache.Some? && !Run(es).inodes[i].invalid
    ensures var s := Run(es);
      var k := s.inodes[i].cache.value;
      && k in s.caches
      && (n in s.caches[k].table ==>
           s.caches[k].table[n] in s.entries && s.entries[s.caches[k].table[n]].added > s.inodes[i].wiped)
  {
    var s := Run(es);
    RunInv(es);
    assert Inward(s, i) && Timely(s, i);
    if n in s.caches[s.inodes[i].cache.value].table { assert True(s, s.inodes[i].cache.value, n); }
  }

  // While no bucket is draining the count is the number of entries.
  lemma EntryCountIsRight(es: seq<Event>, k: nat)
    requires k in Run(es).caches && Run(es).caches[k].draining == {}
    ensures Run(es).caches[k].nent == |Run(es).caches[k].table|
  {
    RunInv(es);
    assert Phase(Run(es), k);
    NotDrained(Run(es).caches[k]);
  }

  lemma NotDrained(c: Cache)
    requires c.draining == {}
    ensures !Drained(c, BUCKETS)
  {
    assert 0 !in c.draining;
  }

  // An entry's references are those of its place and of its holders; it is on an LRU list
  // exactly while it can be found; and a name leads to it in one cache only.
  lemma EntryReferences(es: seq<Event>, e: nat)
    requires e in Run(es).entries
    ensures var s := Run(es);
      var x := s.entries[e];
      && x.refs > 0 && x.refs == s.heldEntries[e] + One(x.home.Some?) && (x.lru <==> x.home.Some?)
      && (forall k, n :: k in s.caches && n in s.caches[k].table ==> (s.caches[k].table[n] == e <==> x.home == Some(Hashed(k, n))))
      && (forall k :: k in s.caches ==> (s.caches[k].slot == Listed(e) <==> x.home == Some(Slotted(k))))
  {
    var s := Run(es);
    RunInv(es);
    assert Counted(s, e) && AtHome(s, e);
    forall k, n | k in s.caches && n in s.caches[k].table
      ensures s.caches[k].table[n] == e <==> s.entries[e].home == Some(Hashed(k, n))
    {
      assert Filed(s, k, n);
    }
    forall k | k in s.caches ensures s.caches[k].slot == Listed(e) <==> s.entries[e].home == Some(Slotted(k)) {
      assert SlotFiled(s, k);
    }
  }

  // Once a cache has been discarded it stays empty and takes no entry and no list.
  lemma DiscardedStaysEmpty(es: seq<Event>, k: nat)
    requires k in Run(es).caches && k !in Run(es).unlinked && Run(es).caches[k].inode.None? && k !in Run(es).discarding
    ensures var c := Run(es).caches[k];
      && c.table == map[] && c.nent == 0 && c.slot == Stale
      && forall n: Name :: Bucket(n) in c.draining
  {
    RunInv(es);
    var c := Run(es).caches[k];
    assert Phase(Run(es), k);
    FullyDrained(c);
    forall n: Name ensures Bucket(n) in c.draining { assert 0 <= Bucket(n) < BUCKETS; }
  }

  // The last reference is dropped only on an empty cache, and the callback gives it back to the
  // slab as it was constructed.
  lemma FreedIsConstructed(es: seq<Event>, k: nat)
    requires Enabled(Run(es), PutCache(k)) && Run(es).caches[k].refs == 1
    ensures AsConstructed(FreeCallback(Run(es).caches[k])) && !Run(es).caches[k].slot.Listed?
  {
    RunInv(es);
    FreedIsClean(Run(es), PutCache(k));
  }

  // A thread's references keep what it refers to alive.
  lemma HeldIsAlive(es: seq<Event>, k: nat, e: nat)
    ensures var s := Run(es);
      && (s.held[k] > 0 ==> k in s.caches && s.caches[k].refs >= s.held[k])
      && (s.heldEntries[e] > 0 ==> e in s.entries && s.entries[e].refs >= s.heldEntries[e])
  {
    var s := Run(es);
    RunInv(es);
    if s.held[k] > 0 { assert k in s.held && Referenced(s, k); }
    if s.heldEntries[e] > 0 { assert e in s.heldEntries && Counted(s, e); }
  }
}
