/**
 The xattr caches told from the event log: which cache an inode leads to, which entry a name and the
 list slot lead to, and what a lookup hands out.
 */
module XattrLog {
  import opened Wrappers
  import opened XattrCache
  import opened XattrEntries
  import opened XattrCaches
  import opened XattrRuns

  // ------------------------------------------------ names

  // The name stops leading to an entry: removed, drained away, or its entry taken by the shrinker.
  predicate Takes(s: State, ev: Event, k: nat, n: Name) {
    || ev == HashRemove(k, n) || ev == DrainOne(k, n)
    || (ev.EntryIsolate? && k in s.caches && n in s.caches[k].table && s.caches[k].table[n] == ev.e)
  }

  // What the name leads to, if anything.
  function Found(s: State, k: nat, n: Name): Option<nat> {
    if k in s.caches && n in s.caches[k].table then Some(s.caches[k].table[n]) else None
  }

  ghost predicate TableLaw(s: State, ev: Event, s': State, k: nat, n: Name)
    requires Enabled(s, ev)
  {
    k in s'.caches ==>
      Found(s', k, n) == if Writes(s, ev, k, n) then Some(ev.e) else if Takes(s, ev, k, n) then None else Found(s, k, n)
  }

  lemma AddLaw(s: State, k: nat, e: nat, j: nat, n: Name)
    requires Enabled(s, HashAdd(k, e))
    ensures TableLaw(s, HashAdd(k, e), Act(s, HashAdd(k, e)), j, n)
  {
    hide Hook, Unhook;
    var m, c := s.entries[e].name.value, s.caches[k];
    if m in c.table { HookingSame(s, c.table[m], Slotted(k)); }
    var s1 := if m in c.table then Unhook(s, c.table[m]) else s;
    var nent := if m in c.table then c.nent else c.nent + 1;
    HookingSame(SetCache(s1, k, c.(table := c.table[m := e], nent := nent)), e, Hashed(k, m));
  }

  lemma RemoveLaw(s: State, k: nat, m: Name, j: nat, n: Name)
    requires Enabled(s, HashRemove(k, m))
    ensures TableLaw(s, HashRemove(k, m), Act(s, HashRemove(k, m)), j, n)
  {
  }

  lemma DrainLaw(s: State, k: nat, m: Name, j: nat, n: Name)
    requires Enabled(s, DrainOne(k, m))
    ensures TableLaw(s, DrainOne(k, m), Act(s, DrainOne(k, m)), j, n)
  {
  }

  lemma IsolateLaw(s: State, e: nat, k: nat, n: Name)
    requires Hooked(s) && Enabled(s, EntryIsolate(e))
    ensures TableLaw(s, EntryIsolate(e), Act(s, EntryIsolate(e)), k, n)
  {
    hide Hooked, Writes;
    AtPlace(s, e);
    if k in s.caches && n in s.caches[k].table { FiledAt(s, k, n); }
    OnlyAdds(s, EntryIsolate(e), k, n);
  }

  lemma OnlyAdds(s: State, ev: Event, k: nat, n: Name)
    requires !ev.HashAdd?
    ensures !Writes(s, ev, k, n)
  {
  }

  lemma AtPlace(s: State, e: nat)
    requires Hooked(s) && e in s.entries
    ensures AtHome(s, e)
  {
  }

  lemma ListLaw(s: State, ev: Event, k: nat, n: Name)
    requires Enabled(s, ev) && (ev.DiscardSlot? || ev.SetList?)
    ensures TableLaw(s, ev, Act(s, ev), k, n)
  {
    hide Fill;
    FillCaches(s, ev.k, if ev.DiscardSlot? then Stale else if ev.list.Some? then Listed(ev.list.value) else Empty);
  }

  lemma CountLaw(s: State, ev: Event, k: nat, n: Name)
    requires Enabled(s, ev) && (ev.AllocEntry? || ev.HashFind? || ev.PutEntry?)
    ensures TableLaw(s, ev, Act(s, ev), k, n)
  {
    hide Act, Enabled;
    CountStepSame(s, ev);
  }

  lemma QuietLaw(s: State, ev: Event, k: nat, n: Name)
    requires Sound(s) && Enabled(s, ev) && !TouchesEntries(ev)
    ensures TableLaw(s, ev, Act(s, ev), k, n)
  {
    hide Act, Enabled, Sound;
    StepQuiet(s, ev);
    if k in Act(s, ev).caches { QuietPoint(s, Act(s, ev), k); }
  }

  lemma StepTable(s: State, ev: Event, k: nat, n: Name)
    requires Hooked(s) && Sound(s) && Enabled(s, ev)
    ensures TableLaw(s, ev, Act(s, ev), k, n)
  {
    hide Act, Enabled, Sound, Hooked, TableLaw;
    match ev
    case DiscardSlot(_) => ListLaw(s, ev, k, n);
    case SetList(_, _) => ListLaw(s, ev, k, n);
    case DrainOne(j, m) => DrainLaw(s, j, m, k, n);
    case HashAdd(j, e) => AddLaw(s, j, e, k, n);
    case HashRemove(j, m) => RemoveLaw(s, j, m, k, n);
    case EntryIsolate(e) => IsolateLaw(s, e, k, n);
    case AllocEntry(_, _, _) => CountLaw(s, ev, k, n);
    case HashFind(_, _) => CountLaw(s, ev, k, n);
    case PutEntry(_) => CountLaw(s, ev, k, n);
    case _ => QuietLaw(s, ev, k, n);
  }

  // The entry last added for the name and not taken out since, nor the cache made anew.
  function EntryByLog(es: seq<Event>, k: nat, n: Name): Option<nat> {
    if es == [] then None
    else
      var s, ev := Run(es[..|es|-1]), es[|es|-1];
      if !Enabled(s, ev) then EntryByLog(es[..|es|-1], k, n)
      else if Writes(s, ev, k, n) then Some(ev.e)
      else if Takes(s, ev, k, n) || ev == AllocCache(k) then None
      else EntryByLog(es[..|es|-1], k, n)
  }

  lemma NewCache(s: State, ev: Event, k: nat)
    requires Enabled(s, ev) && k in Act(s, ev).caches
    ensures k !in s.caches <==> ev == AllocCache(k)
  {
    hide Act, Enabled;
    AllocIsNew(s, ev);
    if TouchesEntries(ev) {
      EntryStepDates(s, ev, k);
    } else if LinksChange(ev) {
      LinkCaches(s, ev, k);
    } else {
      OtherCaches(s, ev, k);
    }
  }

  lemma LinkCaches(s: State, ev: Event, k: nat)
    requires Enabled(s, ev) && LinksChange(ev) && k in Act(s, ev).caches
    ensures k in s.caches
  {
    hide GetRef;
    if ev.Lookup? || ev.Link? || ev.CacheIsolate? { RefCaches(s, ev, k); }
  }

  lemma RefCaches(s: State, ev: Event, k: nat)
    requires Enabled(s, ev) && (ev.Lookup? || ev.Link? || ev.CacheIsolate?) && k in Act(s, ev).caches
    ensures k in s.caches
  {
  }

  lemma OtherCaches(s: State, ev: Event, k: nat)
    requires Enabled(s, ev) && !LinksChange(ev) && !TouchesEntries(ev) && k in Act(s, ev).caches
    ensures k in s.caches || ev == AllocCache(k)
  {
  }

  // A name leads to an entry exactly as long as it was added and neither removed, drained nor shrunk
  // away, and then to the one added last.
  lemma {:induction false} TableByLog(es: seq<Event>, k: nat, n: Name)
    requires k in Run(es).caches
    ensures Found(Run(es), k, n) == EntryByLog(es, k, n)
  {
    if es != [] {
      hide Act, Enabled, Sound, Hooked, Links, Truthful, AllTimely, Found, Takes, Writes;
      var before, ev := es[..|es|-1], es[|es|-1];
      var s := Run(before);
      RunInv(before);
      if Enabled(s, ev) {
        StepTable(s, ev, k, n);
        NewCache(s, ev, k);
        SameFound(Act(s, ev), Step(s, ev), k, n);
        if k !in s.caches { NewFound(s, ev, k, n); }
      }
      if k in s.caches { TableByLog(before, k, n); }
    }
  }

  lemma SameFound(s: State, s': State, k: nat, n: Name)
    requires s'.caches == s.caches
    ensures Found(s', k, n) == Found(s, k, n)
  {
  }

  lemma NewFound(s: State, ev: Event, k: nat, n: Name)
    requires Enabled(s, ev) && ev == AllocCache(k)
    ensures Found(s, k, n) == None && !Writes(s, ev, k, n)
  {
  }

  // A look-up under a name hands out exactly the entry last added for it, with its value, or nothing.
  lemma FindHandsOut(es: seq<Event>, k: nat, n: Name)
    requires Enabled(Run(es), HashFind(k, n))
    ensures var s, s' := Run(es), Run(es + [HashFind(k, n)]);
      var found := EntryByLog(es, k, n);
      && s'.caches == s.caches && s'.inodes == s.inodes && s'.held == s.held
      && s'.heldEntries == s.heldEntries + (if found.Some? then multiset{found.value} else multiset{})
      && (found.Some? ==> found.value in s'.entries && s'.entries[found.value].name == Some(n)
                          && Some(s'.entries[found.value].value) == LastAdded(es, k, n))
  {
    var ev := HashFind(k, n);
    assert (es + [ev])[..|es|] == es;
    TableByLog(es, k, n);
    if EntryByLog(es, k, n).Some? { HitIsLastAdded(es, k, n); }
  }

  // ------------------------------------------------ what an entry says

  function Says(s: State, e: nat): Option<(Option<Name>, nat)> {
    if e in s.entries then Some((s.entries[e].name, s.entries[e].value)) else None
  }

  lemma UnhookContent(s: State, d: nat, e: nat)
    requires d in s.entries
    ensures forall h :: Says(Hook(s, d, h), e) == Says(s, e)
    ensures Says(Unhook(s, d), e) == Says(s, e)
    ensures forall x :: x in Unhook(s, d).entries <==> x in s.entries
  {
  }

  lemma AddContent(s: State, k: nat, d: nat, e: nat)
    requires Enabled(s, HashAdd(k, d))
    ensures Says(Act(s, HashAdd(k, d)), e) == Says(s, e)
  {
    hide Hook, Unhook, Says;
    var m, c := s.entries[d].name.value, s.caches[k];
    if m in c.table { UnhookContent(s, c.table[m], e); }
    var s1 := if m in c.table then Unhook(s, c.table[m]) else s;
    var nent := if m in c.table then c.nent else c.nent + 1;
    var s2 := SetCache(s1, k, c.(table := c.table[m := d], nent := nent));
    SameEntries(s1, s2, e);
    UnhookContent(s2, d, e);
  }

  lemma SameEntries(s: State, s': State, e: nat)
    requires s'.entries == s.entries
    ensures Says(s', e) == Says(s, e)
  {
  }

  lemma FillContent(s: State, k: nat, slot: Slot, e: nat)
    requires k in s.caches && SlotKnown(s, k) && (slot.Listed? ==> slot.e in s.entries)
    ensures Says(Fill(s, k, slot), e) == Says(s, e)
  {
    hide Hook, Unhook, Says;
    var c := s.caches[k];
    if c.slot.Listed? { UnhookContent(s, c.slot.e, e); }
    var s1 := if c.slot.Listed? then Unhook(s, c.slot.e) else s;
    var s2 := SetCache(s1, k, c.(slot := slot));
    SameEntries(s1, s2, e);
    if slot.Listed? { UnhookContent(s2, slot.e, e); }
  }

  lemma ListContent(s: State, ev: Event, e: nat)
    requires Enabled(s, ev) && (ev.DiscardSlot? || ev.SetList?)
    ensures Says(Act(s, ev), e) == Says(s, e)
  {
    hide Fill;
    FillContent(s, ev.k, if ev.DiscardSlot? then Stale else if ev.list.Some? then Listed(ev.list.value) else Empty, e);
  }

  lemma TakeContent(s: State, ev: Event, e: nat)
    requires Enabled(s, ev) && (ev.DrainOne? || ev.HashRemove? || ev.EntryIsolate? || ev.HashFind?)
    ensures Says(Act(s, ev), e) == Says(s, e)
  {
  }

  lemma CountContent(s: State, ev: Event, e: nat)
    requires Enabled(s, ev) && (ev.AllocEntry? || ev.PutEntry?)
    ensures Says(Act(s, ev), e) == NextContent(s, ev, e)
  {
    if ev.PutEntry? {
      hide DropEntry, Says;
      DropContent(s, ev.e, e);
    }
  }

  lemma DropContent(s: State, d: nat, e: nat)
    requires d in s.entries
    ensures Says(DropEntry(s, d), e) == if d == e && s.entries[e].refs == 1 then None else Says(s, e)
  {
  }

  lemma QuietContent(s: State, ev: Event, e: nat)
    requires Sound(s) && Enabled(s, ev) && !TouchesEntries(ev)
    ensures Says(Act(s, ev), e) == Says(s, e)
  {
    hide Act, Enabled, Sound;
    StepQuiet(s, ev);
  }

  // An entry keeps what it was made with until it is freed.
  function NextContent(s: State, ev: Event, e: nat): Option<(Option<Name>, nat)> {
    if ev.AllocEntry? && ev.e == e then Some((ev.about, ev.value))
    else if ev.PutEntry? && ev.e == e && e in s.entries && s.entries[e].refs == 1 then None
    else Says(s, e)
  }

  lemma StepContent(s: State, ev: Event, e: nat)
    requires Sound(s) && Enabled(s, ev)
    ensures Says(Act(s, ev), e) == NextContent(s, ev, e)
  {
    hide Act, Enabled, Sound, Says;
    match ev
    case DiscardSlot(_) => ListContent(s, ev, e);
    case SetList(_, _) => ListContent(s, ev, e);
    case HashAdd(k, d) => AddContent(s, k, d, e);
    case DrainOne(_, _) => TakeContent(s, ev, e);
    case HashRemove(_, _) => TakeContent(s, ev, e);
    case EntryIsolate(_) => TakeContent(s, ev, e);
    case HashFind(_, _) => TakeContent(s, ev, e);
    case AllocEntry(_, _, _) => CountContent(s, ev, e);
    case PutEntry(_) => CountContent(s, ev, e);
    case _ => QuietContent(s, ev, e);
  }

  // What the entry was last made with.
  function MadeWith(es: seq<Event>, e: nat): Option<(Option<Name>, nat)> {
    if es == [] then None
    else
      var s, ev := Run(es[..|es|-1]), es[|es|-1];
      if Enabled(s, ev) && ev.AllocEntry? && ev.e == e then Some((ev.about, ev.value)) else MadeWith(es[..|es|-1], e)
  }

  lemma {:induction false} ContentByLog(es: seq<Event>, e: nat)
    requires e in Run(es).entries
    ensures MadeWith(es, e) == Some((Run(es).entries[e].name, Run(es).entries[e].value))
  {
    if es != [] {
      hide Act, Enabled, Sound, Hooked, Links, Truthful, AllTimely;
      var s, ev := Run(es[..|es|-1]), es[|es|-1];
      RunInv(es[..|es|-1]);
      if Enabled(s, ev) { StepContent(s, ev, e); }
      if e in s.entries { ContentByLog(es[..|es|-1], e); }
    }
  }

  // ------------------------------------------------ the list

  // Stale once the cache is being discarded; before that the list last set, unless cleared or shrunk away.
  function NextSlot(was: Slot, ev: Event, k: nat): Slot {
    if ev == AllocCache(k) then Empty
    else if ev == DiscardSlot(k) then Stale
    else if was.Stale? then Stale
    else if ev.SetList? && ev.k == k then if ev.list.Some? then Listed(ev.list.value) else Empty
    else if ev.EntryIsolate? && was == Listed(ev.e) then Empty
    else was
  }

  ghost predicate SlotLaw(s: State, ev: Event, s': State, k: nat) {
    k in s'.caches ==>
      s'.caches[k].slot == if k in s.caches then NextSlot(s.caches[k].slot, ev, k) else Empty
  }

  lemma AddSlot(s: State, k: nat, e: nat, j: nat)
    requires Enabled(s, HashAdd(k, e))
    ensures SlotLaw(s, HashAdd(k, e), Act(s, HashAdd(k, e)), j)
  {
    hide Hook, Unhook;
    var m, c := s.entries[e].name.value, s.caches[k];
    if m in c.table { HookingSame(s, c.table[m], Slotted(k)); }
    var s1 := if m in c.table then Unhook(s, c.table[m]) else s;
    var nent := if m in c.table then c.nent else c.nent + 1;
    HookingSame(SetCache(s1, k, c.(table := c.table[m := e], nent := nent)), e, Hashed(k, m));
  }

  lemma FillSlot(s: State, ev: Event, k: nat)
    requires Enabled(s, ev) && (ev.DiscardSlot? || ev.SetList?)
    ensures SlotLaw(s, ev, Act(s, ev), k)
  {
    hide Fill;
    FillCaches(s, ev.k, if ev.DiscardSlot? then Stale else if ev.list.Some? then Listed(ev.list.value) else Empty);
  }

  lemma IsolateSlot(s: State, e: nat, k: nat)
    requires Hooked(s) && Enabled(s, EntryIsolate(e))
    ensures SlotLaw(s, EntryIsolate(e), Act(s, EntryIsolate(e)), k)
  {
    hide Hooked;
    AtPlace(s, e);
    if k in s.caches { SlotPlace(s, k); }
  }

  lemma SlotPlace(s: State, k: nat)
    requires Hooked(s) && k in s.caches
    ensures SlotFiled(s, k)
  {
  }

  lemma RemoveSlot(s: State, k: nat, n: Name, j: nat)
    requires Enabled(s, HashRemove(k, n))
    ensures SlotLaw(s, HashRemove(k, n), Act(s, HashRemove(k, n)), j)
  {
  }

  lemma DrainSlot(s: State, k: nat, n: Name, j: nat)
    requires Enabled(s, DrainOne(k, n))
    ensures SlotLaw(s, DrainOne(k, n), Act(s, DrainOne(k, n)), j)
  {
  }

  lemma CountSlot(s: State, ev: Event, k: nat)
    requires Enabled(s, ev) && (ev.AllocEntry? || ev.HashFind? || ev.PutEntry?)
    ensures SlotLaw(s, ev, Act(s, ev), k)
  {
    hide Act, Enabled;
    CountStepSame(s, ev);
  }

  lemma QuietSlot(s: State, ev: Event, k: nat)
    requires Sound(s) && Enabled(s, ev) && !TouchesEntries(ev)
    ensures SlotLaw(s, ev, Act(s, ev), k)
  {
    hide Act, Enabled, Sound;
    StepQuiet(s, ev);
    if k in Act(s, ev).caches {
      AllocIsNew(s, ev);
      QuietPoint(s, Act(s, ev), k);
    }
  }

  lemma StepSlot(s: State, ev: Event, k: nat)
    requires Hooked(s) && Sound(s) && Enabled(s, ev)
    ensures SlotLaw(s, ev, Act(s, ev), k)
  {
    hide Act, Enabled, Sound, Hooked, SlotLaw;
    match ev
    case DiscardSlot(_) => FillSlot(s, ev, k);
    case SetList(_, _) => FillSlot(s, ev, k);
    case HashAdd(j, e) => AddSlot(s, j, e, k);
    case EntryIsolate(e) => IsolateSlot(s, e, k);
    case DrainOne(j, n) => DrainSlot(s, j, n, k);
    case HashRemove(j, n) => RemoveSlot(s, j, n, k);
    case AllocEntry(_, _, _) => CountSlot(s, ev, k);
    case HashFind(_, _) => CountSlot(s, ev, k);
    case PutEntry(_) => CountSlot(s, ev, k);
    case _ => QuietSlot(s, ev, k);
  }

  function ListByLog(es: seq<Event>, k: nat): Slot {
    if es == [] then Empty
    else
      var s, ev := Run(es[..|es|-1]), es[|es|-1];
      if Enabled(s, ev) then NextSlot(ListByLog(es[..|es|-1], k), ev, k) else ListByLog(es[..|es|-1], k)
  }

  // What listxattr finds in a cache.
  lemma {:induction false} SlotByLog(es: seq<Event>, k: nat)
    requires k in Run(es).caches
    ensures Run(es).caches[k].slot == ListByLog(es, k)
  {
    if es != [] {
      hide Act, Enabled, Sound, Hooked, Links, Truthful, AllTimely, NextSlot;
      var before, ev := es[..|es|-1], es[|es|-1];
      var s := Run(before);
      RunInv(before);
      if Enabled(s, ev) {
        StepSlot(s, ev, k);
        NewCache(s, ev, k);
        if k !in s.caches { NewSlot(ListByLog(before, k), k); }
      }
      if k in s.caches { SlotByLog(before, k); }
    }
  }

  lemma NewSlot(was: Slot, k: nat)
    ensures NextSlot(was, AllocCache(k), k) == Empty
  {
  }

  // ------------------------------------------------ inodes

  // The inode's cache is cut off: the inode goes, its attributes were declared invalid, or the shrinker
  // takes the cache.
  predicate CutsOff(s: State, ev: Event, i: nat) {
    || ev == Zap(i)
    || (ev == Lookup(i) && i in s.inodes && s.inodes[i].invalid)
    || (ev.CacheIsolate? && i in s.inodes && s.inodes[i].cache == Some(ev.k))
  }

  ghost predicate InodeLaw(s: State, ev: Event, s': State, i: nat) {
    if i !in s.inodes then
      (i in s'.inodes <==> ev == NewInode(i)) && (i in s'.inodes ==> s'.inodes[i].cache.None? && !s'.inodes[i].invalid)
    else
      && i in s'.inodes
      && s'.inodes[i].invalid == (ev == Invalidate(i) || (s.inodes[i].invalid && !CutsOff(s, ev, i)))
      && s'.inodes[i].cache ==
         if CutsOff(s, ev, i) then None
         else if ev.Link? && ev.i == i && !s.inodes[i].invalid && s.inodes[i].cache.None? then Some(ev.k)
         else s.inodes[i].cache
  }

  lemma StepInode(s: State, ev: Event, i: nat)
    requires Links(s) && Sound(s) && Enabled(s, ev)
    ensures InodeLaw(s, ev, Act(s, ev), i)
  {
    hide Act, Enabled, Sound, Links, InodeLaw;
    if !LinksChange(ev) {
      PlainInode(s, ev, i);
    } else if ev.CacheIsolate? {
      IsolateInode(s, ev.k, i);
    } else if ev.Link? {
      LinkInode(s, ev, i);
    } else {
      OtherInode(s, ev, i);
    }
  }

  lemma PlainInode(s: State, ev: Event, i: nat)
    requires Links(s) && Sound(s) && Enabled(s, ev) && !LinksChange(ev)
    ensures InodeLaw(s, ev, Act(s, ev), i)
  {
    hide Act, Enabled, Sound, Links;
    StepSameLinks(s, ev);
  }

  lemma IsolateInode(s: State, k: nat, i: nat)
    requires Links(s) && Enabled(s, CacheIsolate(k))
    ensures InodeLaw(s, CacheIsolate(k), Act(s, CacheIsolate(k)), i)
  {
    assert Outward(s, k);
    if i in s.inodes { assert Inward(s, i); }
  }

  lemma LinkInode(s: State, ev: Event, i: nat)
    requires Enabled(s, ev) && ev.Link?
    ensures InodeLaw(s, ev, Act(s, ev), i)
  {
  }

  lemma OtherInode(s: State, ev: Event, i: nat)
    requires Enabled(s, ev) && (ev.NewInode? || ev.Invalidate? || ev.Lookup? || ev.Zap?)
    ensures InodeLaw(s, ev, Act(s, ev), i)
  {
  }

  // Declared invalid and not cut off since.
  predicate InvalidByLog(es: seq<Event>, i: nat) {
    es != [] &&
    var s, ev := Run(es[..|es|-1]), es[|es|-1];
    if Enabled(s, ev) && ev == Invalidate(i) then true
    else InvalidByLog(es[..|es|-1], i) && !(Enabled(s, ev) && CutsOff(s, ev, i))
  }

  // The cache linked first since it was last cut off.
  function CacheByLog(es: seq<Event>, i: nat): Option<nat> {
    if es == [] then None
    else
      var s, ev := Run(es[..|es|-1]), es[|es|-1];
      var was := CacheByLog(es[..|es|-1], i);
      if !Enabled(s, ev) then was
      else if CutsOff(s, ev, i) then None
      else if ev.Link? && ev.i == i && was.None? && !InvalidByLog(es[..|es|-1], i) then Some(ev.k)
      else was
  }

  lemma {:induction false} InodeByLog(es: seq<Event>, i: nat)
    ensures i in Run(es).inodes ==>
      Run(es).inodes[i].invalid == InvalidByLog(es, i) && Run(es).inodes[i].cache == CacheByLog(es, i)
    ensures i !in Run(es).inodes ==> !InvalidByLog(es, i) && CacheByLog(es, i).None?
  {
    if es != [] {
      hide Act, Enabled, Sound, Hooked, Links, Truthful, AllTimely;
      var before, ev := es[..|es|-1], es[|es|-1];
      var s := Run(before);
      RunInv(before);
      InodeByLog(before, i);
      if Enabled(s, ev) {
        StepInode(s, ev, i);
        if i !in s.inodes { UnknownInode(s, ev, i); }
      }
    }
  }

  lemma UnknownInode(s: State, ev: Event, i: nat)
    requires Enabled(s, ev) && i !in s.inodes
    ensures ev != Invalidate(i) && !(ev.Link? && ev.i == i)
  {
  }

  // The first half of getting a cache hands out the inode's cache unless it is invalid or there is none;
  // the second half hands out the one linked meanwhile, or links and hands out the new one.
  lemma LookupHandsOut(es: seq<Event>, ev: Event)
    requires Enabled(Run(es), ev) && (ev.Lookup? || ev.Link?)
    ensures var s, s' := Run(es), Run(es + [ev]);
      var got := if InvalidByLog(es, ev.i) then None
                 else if CacheByLog(es, ev.i).None? && ev.Link? then Some(ev.k) else CacheByLog(es, ev.i);
      && s'.held == s.held + (if got.Some? then multiset{got.value} else multiset{})
      && s'.heldEntries == s.heldEntries && s'.entries == s.entries
      && (ev.Link? && got == Some(ev.k) && got != CacheByLog(es, ev.i) ==> CacheByLog(es + [ev], ev.i) == got)
  {
    assert (es + [ev])[..|es|] == es;
    InodeByLog(es, ev.i);
  }

  // ------------------------------------------------ dates

  // When the inode was last declared invalid, or made.
  ghost predicate WipedLaw(s: State, ev: Event, s': State, i: nat) {
    i in s'.inodes ==>
      s'.inodes[i].wiped ==
        if ev == Invalidate(i) || ev == NewInode(i) then s.clock else if i in s.inodes then s.inodes[i].wiped else 0
  }

  lemma StepWiped(s: State, ev: Event, i: nat)
    requires Links(s) && Sound(s) && Enabled(s, ev)
    ensures WipedLaw(s, ev, Act(s, ev), i)
  {
    if LinksChange(ev) {
      hide Links, Sound;
      LinkWiped(s, ev, i);
    } else {
      hide Act, Enabled;
      StepSameLinks(s, ev);
    }
  }

  lemma LinkWiped(s: State, ev: Event, i: nat)
    requires Enabled(s, ev) && LinksChange(ev)
    ensures WipedLaw(s, ev, Act(s, ev), i)
  {
  }

  // Of the events about the name in the cache and about the inode, the last one is an add.
  predicate AddedSince(es: seq<Event>, i: nat, k: nat, n: Name) {
    es != [] &&
    var s, ev := Run(es[..|es|-1]), es[|es|-1];
    if !Enabled(s, ev) then AddedSince(es[..|es|-1], i, k, n)
    else Writes(s, ev, k, n) || (ev != Invalidate(i) && ev != NewInode(i) && AddedSince(es[..|es|-1], i, k, n))
  }

  // When what the name leads to was added.
  function AddedAt(s: State, k: nat, n: Name): Option<nat> {
    if k in s.caches && n in s.caches[k].table && s.caches[k].table[n] in s.entries
    then Some(s.entries[s.caches[k].table[n]].added) else None
  }

  lemma StepAdded(s: State, ev: Event, k: nat, n: Name)
    requires Hooked(s) && Sound(s) && Enabled(s, ev) && AddedAt(Act(s, ev), k, n).Some?
    ensures AddedAt(Act(s, ev), k, n) == if Writes(s, ev, k, n) then Some(s.clock) else AddedAt(s, k, n)
  {
    hide Act, Enabled, Hooked, Sound;
    StepKept(s, ev, k, n);
  }

  lemma SameDates(s: State, s': State, k: nat, n: Name)
    requires s'.caches == s.caches && s'.entries == s.entries
    ensures AddedAt(s', k, n) == AddedAt(s, k, n)
  {
  }

  lemma {:induction false} AddedEarlier(es: seq<Event>, k: nat, n: Name)
    ensures AddedAt(Run(es), k, n).Some? ==> AddedAt(Run(es), k, n).value < Run(es).clock
  {
    if es != [] {
      hide Act, Enabled, Sound, Hooked, Links, Truthful, AllTimely, AddedAt;
      var before, ev := es[..|es|-1], es[|es|-1];
      var s := Run(before);
      RunInv(before);
      AddedEarlier(before, k, n);
      if Enabled(s, ev) {
        SameDates(Act(s, ev), Step(s, ev), k, n);
        if AddedAt(Act(s, ev), k, n).Some? { StepAdded(s, ev, k, n); }
      }
    } else {
      assert Run(es).caches == map[];
    }
  }

  // The dates say the same.
  lemma {:induction false} DatesAreOrder(es: seq<Event>, i: nat, k: nat, n: Name)
    requires i in Run(es).inodes && AddedAt(Run(es), k, n).Some?
    ensures AddedAt(Run(es), k, n).value > Run(es).inodes[i].wiped <==> AddedSince(es, i, k, n)
  {
    if es != [] {
      hide Act, Enabled, Sound, Hooked, Links, Truthful, AllTimely, AddedAt, Writes;
      var before, ev := es[..|es|-1], es[|es|-1];
      var s := Run(before);
      RunInv(before);
      AddedEarlier(before, k, n);
      if Enabled(s, ev) {
        SameDates(Act(s, ev), Step(s, ev), k, n);
        StepAdded(s, ev, k, n);
        StepWiped(s, ev, i);
        StepInode(s, ev, i);
        if i in s.inodes {
          InodeDated(s, i);
          if AddedAt(s, k, n).Some? { DatesAreOrder(before, i, k, n); }
        } else {
          NoAddNow(s, ev, k, n, i);
        }
        if ev == Invalidate(i) { NoAddNow(s, ev, k, n, i); }
      } else {
        DatesAreOrder(before, i, k, n);
      }
    }
  }

  lemma NoAddNow(s: State, ev: Event, k: nat, n: Name, i: nat)
    requires ev == Invalidate(i) || ev == NewInode(i)
    ensures !Writes(s, ev, k, n)
  {
  }

  lemma InodeDated(s: State, i: nat)
    requires AllTimely(s) && i in s.inodes
    ensures s.inodes[i].wiped < s.clock
  {
    assert Timely(s, i);
  }

  // What is found in the cache of an inode that is not marked invalid was added after the last event
  // that declared the inode invalid.
  lemma FoundIsFresh(es: seq<Event>, i: nat, n: Name)
    requires i in Run(es).inodes && Run(es).inodes[i].cache.Some? && !Run(es).inodes[i].invalid
    requires Found(Run(es), Run(es).inodes[i].cache.value, n).Some?
    ensures AddedSince(es, i, Run(es).inodes[i].cache.value, n)
  {
    NothingOlderThanInvalidation(es, i, n);
    DatesAreOrder(es, i, Run(es).inodes[i].cache.value, n);
  }

  // ------------------------------------------------ discarding comes to an end

  predicate OfDiscard(ev: Event, k: nat) {
    (ev.DiscardSlot? || ev.DrainStart? || ev.DrainOne? || ev.DrainNext? || ev.DiscardEnd?) && ev.k == k
  }

  // What is left to do.
  function Left(s: State, k: nat): int
    requires k in s.discarding && k in s.caches
  {
    var stage, c := s.discarding[k], s.caches[k];
    3 * (BUCKETS + 1 - stage) + |c.table| + if stage > 0 && stage - 1 in c.draining then 0 else 1
  }

  // Whoever discards a cache can always go on, and every step of it brings the end nearer.
  lemma DiscardGoesOn(es: seq<Event>, k: nat) returns (ev: Event)
    requires k in Run(es).discarding
    ensures k in Run(es).caches && Left(Run(es), k) >= 0
    ensures OfDiscard(ev, k) && Enabled(Run(es), ev)
  {
    hide Hooked, Sound, Links, Truthful, AllTimely, Run;
    var s := Run(es);
    RunInv(es);
    DiscardStage(s, k);
    var stage := s.discarding[k];
    var c := s.caches[k];
    if stage == 0 {
      SlotPlace(s, k);
      ev := DiscardSlot(k);
    } else if stage == BUCKETS + 1 {
      ev := DiscardEnd(k);
    } else if stage - 1 !in c.draining {
      ev := DrainStart(k);
    } else if n :| n in c.table && Bucket(n) == stage - 1 {
      FiledAt(s, k, n);
      ev := DrainOne(k, n);
    } else {
      ev := DrainNext(k);
    }
  }

  lemma DiscardStage(s: State, k: nat)
    requires Sound(s) && k in s.discarding
    ensures k in s.caches && s.discarding[k] <= BUCKETS + 1
  {
    assert Referenced(s, k) && Phase(s, k);
  }

  lemma DiscardAdvances(s: State, ev: Event, k: nat)
    requires Enabled(s, ev) && OfDiscard(ev, k)
    ensures k in Act(s, ev).discarding ==> k in Act(s, ev).caches && Left(Act(s, ev), k) < Left(s, k)
    ensures k !in Act(s, ev).discarding <==> ev == DiscardEnd(k)
  {
    match ev
    case DiscardSlot(_) => SlotAdvances(s, k);
    case DrainOne(_, n) => DrainAdvances(s, k, n);
    case DrainStart(_) =>
    case DrainNext(_) =>
    case DiscardEnd(_) =>
  }

  lemma SlotAdvances(s: State, k: nat)
    requires Enabled(s, DiscardSlot(k))
    ensures var s' := Act(s, DiscardSlot(k));
      k in s'.discarding && k in s'.caches && Left(s', k) < Left(s, k)
  {
    hide Fill;
    FillCaches(s, k, Stale);
  }

  lemma DrainAdvances(s: State, k: nat, n: Name)
    requires Enabled(s, DrainOne(k, n))
    ensures var s' := Act(s, DrainOne(k, n));
      k in s'.discarding && k in s'.caches && Left(s', k) < Left(s, k)
  {
    hide Unhook;
    var c := s.caches[k];
    HookingSame(SetCache(s, k, c.(table := c.table - {n})), c.table[n], Slotted(k));
    Unlisted(SetCache(s, k, c.(table := c.table - {n})), c.table[n]);
    OneLess(c.table, n);
  }

  lemma OneLess(table: map<Name, nat>, n: Name)
    requires n in table
    ensures |table - {n}| == |table| - 1
  {
    assert (table - {n}).Keys == table.Keys - {n};
    assert |table.Keys - {n}| == |table.Keys| - 1;
  }

  lemma Unlisted(s: State, e: nat)
    requires e in s.entries
    ensures Unhook(s, e).discarding == s.discarding
  {
  }
}
