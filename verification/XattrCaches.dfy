/**
 Cache structures of the xattr cache: linked to an inode, being discarded, or gone but still
 referenced; what each of these says about the table, and that a freed cache is as constructed.
 */
module XattrCaches {
  import opened Wrappers
  import opened XattrCache
  import opened XattrEntries

  // ------------------------------------------------ links

  predicate Inward(s: State, i: nat)
    requires i in s.inodes
  {
    s.inodes[i].cache.Some? ==> s.inodes[i].cache.value in s.caches && s.caches[s.inodes[i].cache.value].inode == Some(i)
  }

  predicate Outward(s: State, k: nat)
    requires k in s.caches
  {
    s.caches[k].inode.Some? ==> s.caches[k].inode.value in s.inodes && s.inodes[s.caches[k].inode.value].cache == Some(k)
  }

  ghost predicate Links(s: State) {
    && (forall i :: i in s.inodes ==> Inward(s, i))
    && (forall k :: k in s.caches ==> Outward(s, k))
  }

  // ------------------------------------------------ references

  function One(b: bool): nat { if b then 1 else 0 }

  // The link, the one who discards, the one who has just made it, and the holders.
  predicate Referenced(s: State, k: nat)
    requires k in s.caches
  {
    var c := s.caches[k];
    && c.refs > 0
    && c.refs == One(c.inode.Some?) + One(k in s.discarding) + One(k in s.unlinked) + s.held[k]
    && (k in s.unlinked ==> c.inode.None? && k !in s.discarding && s.held[k] == 0)
    && (k in s.discarding ==> c.inode.None?)
  }

  ghost predicate References(s: State) {
    && (forall k :: k in s.caches ==> Referenced(s, k))
    && (forall k :: k in s.held || k in s.discarding || k in s.unlinked ==> k in s.caches)
  }

  // ------------------------------------------------ phases

  // The first m buckets are draining and empty.
  ghost predicate Drained(c: Cache, m: nat) {
    (forall b :: 0 <= b < m ==> b in c.draining) && (forall n :: n in c.table ==> Bucket(n) >= m)
  }

  // Nothing is draining and the count of entries is right.
  predicate Running(c: Cache) { c.draining == {} && !c.slot.Stale? && c.nent == |c.table| }

  ghost predicate Discarded(c: Cache, stage: nat) {
    if stage == 0 then Running(c)
    else
      && stage <= BUCKETS + 1 && c.slot.Stale? && Drained(c, stage - 1)
      && (forall b :: b in c.draining ==> 0 <= b < stage)
      && (c.draining == {} ==> c.nent == |c.table|)
  }

  ghost predicate Phase(s: State, k: nat)
    requires k in s.caches
  {
    var c := s.caches[k];
    if k in s.unlinked then Running(c) && c.table == map[] && c.slot == Empty
    else if c.inode.Some? then Running(c)
    else if k in s.discarding then Discarded(c, s.discarding[k])
    else Drained(c, BUCKETS) && c.slot.Stale? && c.nent == 0
  }

  ghost predicate Phases(s: State) { forall k :: k in s.caches ==> Phase(s, k) }

  lemma FullyDrained(c: Cache)
    requires Drained(c, BUCKETS)
    ensures c.table == map[]
  {
    assert forall n: Name :: Bucket(n) < BUCKETS;
    assert forall n :: n !in c.table;
  }

  // ------------------------------------------------ other caches are not affected

  ghost predicate OnlyCache(s: State, s': State, k: nat) {
    && (forall j :: j != k ==> (j in s'.caches <==> j in s.caches) && (j in s.caches ==> s'.caches[j] == s.caches[j]))
    && (forall j :: j != k ==> s'.held[j] == s.held[j])
    && (forall j :: j != k ==> (j in s'.discarding <==> j in s.discarding) && (j in s.discarding ==> s'.discarding[j] == s.discarding[j]))
    && (forall j :: j != k ==> (j in s'.unlinked <==> j in s.unlinked))
  }

  ghost predicate Sound(s: State) { References(s) && Phases(s) }

  lemma SoundAt(s: State, k: nat)
    requires Sound(s) && k in s.caches
    ensures Referenced(s, k) && Phase(s, k)
  {
  }

  lemma OnlyCacheSound(s: State, s': State, k: nat)
    requires Sound(s) && OnlyCache(s, s', k)
    requires k in s'.caches ==> Referenced(s', k) && Phase(s', k)
    requires k !in s'.caches ==> s'.held[k] == 0 && k !in s'.discarding && k !in s'.unlinked
    ensures Sound(s')
  {
    forall j | j in s'.caches ensures Referenced(s', j) && Phase(s', j) {
      if j != k { assert Referenced(s, j) && Phase(s, j); }
    }
    forall j | j in s'.held || j in s'.discarding || j in s'.unlinked ensures j in s'.caches {
      if j != k { assert s'.held[j] == s.held[j]; }
    }
  }

  // A state with the same caches.
  lemma SameCachesSound(s: State, s': State)
    requires Sound(s) && s'.caches == s.caches && s'.held == s.held && s'.discarding == s.discarding && s'.unlinked == s.unlinked
    ensures Sound(s')
  {
    forall j | j in s'.caches ensures Referenced(s', j) && Phase(s', j) { assert Referenced(s, j) && Phase(s, j); }
  }

  // ------------------------------------------------ the contents change

  lemma MapAddCard(t: map<Name, nat>, n: Name, e: nat)
    ensures |t[n := e]| == |t| + One(n !in t)
  {
    assert t[n := e].Keys == t.Keys + {n};
    if n in t { assert t.Keys + {n} == t.Keys; }
    assert |t[n := e].Keys| == |t[n := e]| && |t.Keys| == |t|;
  }

  lemma MapRemoveCard(t: map<Name, nat>, n: Name)
    ensures |t - {n}| == |t| - One(n in t)
  {
    assert (t - {n}).Keys == t.Keys - {n};
    assert |(t - {n}).Keys| == |t - {n}| && |t.Keys| == |t|;
  }

  // A cache that changes only in what it holds: nothing new in a draining bucket, and the count
  // moves with the table.
  ghost predicate Refilled(c: Cache, c': Cache) {
    && c'.refs == c.refs && c'.inode == c.inode && c'.draining == c.draining && (c'.slot.Stale? <==> c.slot.Stale?)
    && (forall n :: n in c'.table ==> n in c.table || Bucket(n) !in c.draining)
    && c'.nent - |c'.table| == c.nent - |c.table|
  }

  lemma RefilledRunning(c: Cache, c': Cache)
    requires Refilled(c, c') && Running(c)
    ensures Running(c')
  {
  }

  lemma RefilledDrained(c: Cache, c': Cache, m: nat)
    requires Refilled(c, c') && Drained(c, m)
    ensures Drained(c', m)
    ensures m == BUCKETS ==> c'.nent == c.nent
  {
    if m == BUCKETS {
      FullyDrained(c);
      FullyDrained(c');
    }
  }

  lemma RefilledDiscarded(c: Cache, c': Cache, stage: nat)
    requires Refilled(c, c') && Discarded(c, stage)
    ensures Discarded(c', stage)
  {
    if stage == 0 { RefilledRunning(c, c'); } else { RefilledDrained(c, c', stage - 1); }
  }

  lemma RefilledPhase(s: State, s': State, k: nat)
    requires k in s.caches && k in s'.caches && k !in s.unlinked && Phase(s, k)
    requires s'.unlinked == s.unlinked && s'.discarding == s.discarding && Refilled(s.caches[k], s'.caches[k])
    ensures Phase(s', k)
  {
    var c, c' := s.caches[k], s'.caches[k];
    if c.inode.Some? { RefilledRunning(c, c'); }
    else if k in s.discarding { RefilledDiscarded(c, c', s.discarding[k]); }
    else { RefilledDrained(c, c', BUCKETS); }
  }

  lemma ContentsSound(s: State, s': State, k: nat)
    requires Sound(s) && k in s.caches && k !in s.unlinked && k in s'.caches && Refilled(s.caches[k], s'.caches[k])
    requires s'.caches == s.caches[k := s'.caches[k]]
    requires s'.held == s.held && s'.unlinked == s.unlinked && s'.discarding == s.discarding
    ensures Sound(s')
  {
    hide Sound;
    SoundAt(s, k);
    RefilledPhase(s, s', k);
    OnlyCacheSound(s, s', k);
  }

  lemma AddRefilled(s: State, k: nat, e: nat)
    requires Enabled(s, HashAdd(k, e)) && Bucket(s.entries[e].name.value) !in s.caches[k].draining
    ensures var s' := Add(s, k, e);
      && k in s'.caches && Refilled(s.caches[k], s'.caches[k]) && s'.caches == s.caches[k := s'.caches[k]]
      && s'.held == s.held && s'.unlinked == s.unlinked && s'.discarding == s.discarding
  {
    MapAddCard(s.caches[k].table, s.entries[e].name.value, e);
  }

  lemma AddSound(s: State, k: nat, e: nat)
    requires Sound(s) && Enabled(s, HashAdd(k, e))
    ensures Sound(Add(s, k, e))
  {
    assert Referenced(s, k);
    if Bucket(s.entries[e].name.value) !in s.caches[k].draining {
      AddRefilled(s, k, e);
      ContentsSound(s, Add(s, k, e), k);
    }
  }

  lemma RemoveRefilled(s: State, k: nat, n: Name)
    requires Enabled(s, HashRemove(k, n)) && n in s.caches[k].table
    ensures var s' := Remove(s, k, n);
      && k in s'.caches && Refilled(s.caches[k], s'.caches[k]) && s'.caches == s.caches[k := s'.caches[k]]
      && s'.held == s.held && s'.unlinked == s.unlinked && s'.discarding == s.discarding
  {
    MapRemoveCard(s.caches[k].table, n);
  }

  lemma RemoveSound(s: State, k: nat, n: Name)
    requires Sound(s) && Enabled(s, HashRemove(k, n))
    ensures Sound(Remove(s, k, n))
  {
    assert Referenced(s, k);
    if n in s.caches[k].table {
      RemoveRefilled(s, k, n);
      ContentsSound(s, Remove(s, k, n), k);
    }
  }

  lemma FillSound(s: State, k: nat, slot: Slot)
    requires Sound(s) && k in s.caches && k !in s.unlinked && SlotKnown(s, k) && !slot.Stale?
    requires slot.Listed? ==> slot.e in s.entries
    ensures Sound(Fill(s, k, slot))
  {
    if !s.caches[k].slot.Stale? { ContentsSound(s, Fill(s, k, slot), k); }
  }

  lemma IsolateRefilled(s: State, e: nat)
    requires Enabled(s, EntryIsolate(e)) && AtHome(s, e)
    ensures var k := s.entries[e].home.value.k;
      var s' := Isolate(s, e);
      && k in s'.caches && Refilled(s.caches[k], s'.caches[k]) && s'.caches == s.caches[k := s'.caches[k]]
      && s'.held == s.held && s'.unlinked == s.unlinked && s'.discarding == s.discarding
  {
    var h := s.entries[e].home.value;
    if h.Hashed? { MapRemoveCard(s.caches[h.k].table, h.name); }
  }

  lemma IsolateSound(s: State, e: nat)
    requires Sound(s) && Homes(s) && Enabled(s, EntryIsolate(e))
    ensures Sound(Isolate(s, e))
  {
    var h := s.entries[e].home.value;
    assert AtHome(s, e) && Phase(s, h.k);
    IsolateRefilled(s, e);
    ContentsSound(s, Isolate(s, e), h.k);
  }

  // ------------------------------------------------ discarding

  lemma DiscardSlotSound(s: State, k: nat)
    requires Sound(s) && Enabled(s, DiscardSlot(k))
    ensures Sound(Act(s, DiscardSlot(k)))
  {
    hide Sound;
    SoundAt(s, k);
    OnlyCacheSound(s, Act(s, DiscardSlot(k)), k);
  }

  lemma DrainStartSound(s: State, k: nat)
    requires Sound(s) && Enabled(s, DrainStart(k))
    ensures Sound(Act(s, DrainStart(k)))
  {
    hide Sound;
    SoundAt(s, k);
    OnlyCacheSound(s, Act(s, DrainStart(k)), k);
  }

  lemma DrainOneSound(s: State, k: nat, n: Name)
    requires Sound(s) && Enabled(s, DrainOne(k, n))
    ensures Sound(Act(s, DrainOne(k, n)))
  {
    hide Sound;
    SoundAt(s, k);
    OnlyCacheSound(s, Act(s, DrainOne(k, n)), k);
  }

  lemma DrainNextSound(s: State, k: nat)
    requires Sound(s) && Enabled(s, DrainNext(k))
    ensures Sound(Act(s, DrainNext(k)))
  {
    hide Sound, Discarded;
    SoundAt(s, k);
    NextDiscarded(s.caches[k], s.discarding[k]);
    OnlyCacheSound(s, Act(s, DrainNext(k)), k);
  }

  lemma NextDiscarded(c: Cache, stage: nat)
    requires Discarded(c, stage) && 0 < stage <= BUCKETS && stage - 1 in c.draining
    requires forall n :: n in c.table ==> Bucket(n) != stage - 1
    ensures Discarded(c, stage + 1)
  {
  }

  lemma DiscardEndSound(s: State, k: nat)
    requires Sound(s) && Enabled(s, DiscardEnd(k))
    ensures Sound(Act(s, DiscardEnd(k)))
  {
    hide Sound;
    SoundAt(s, k);
    OnlyCacheSound(s, Act(s, DiscardEnd(k)), k);
  }

  // ------------------------------------------------ linking and references

  lemma GetRefSound(s: State, k: nat)
    requires Sound(s) && k in s.caches && k !in s.unlinked
    ensures Sound(GetRef(s, k))
  {
    hide Sound;
    SoundAt(s, k);
    OnlyCacheSound(s, GetRef(s, k), k);
  }

  // The link's reference passes to whoever discards the cache.
  lemma UnlinkedSound(s: State, k: nat)
    requires Sound(s) && k in s.caches && s.caches[k].inode.Some? && s.caches[k].inode.value in s.inodes
    ensures Sound(Unlinked(s, k)) && k !in Unlinked(s, k).unlinked
  {
    hide Sound;
    SoundAt(s, k);
    OnlyCacheSound(s, Unlinked(s, k), k);
  }

  lemma UnlinkSound(s: State, i: nat)
    requires Sound(s) && Links(s) && i in s.inodes
    ensures s.inodes[i].cache.Some? ==> s.inodes[i].cache.value in s.caches
    ensures Sound(Unlink(s, i))
  {
    assert Inward(s, i);
    if s.inodes[i].cache.Some? {
      UnlinkedSound(s, s.inodes[i].cache.value);
      assert Unlink(s, i) == Unlinked(s, s.inodes[i].cache.value);
    } else {
      SameCachesSound(s, Unlink(s, i));
    }
  }

  lemma AllocCacheSound(s: State, k: nat)
    requires Sound(s) && Enabled(s, AllocCache(k))
    ensures Sound(Act(s, AllocCache(k)))
  {
    OnlyCacheSound(s, Act(s, AllocCache(k)), k);
  }

  lemma LinkSound(s: State, i: nat, k: nat)
    requires Sound(s) && Links(s) && Enabled(s, Link(i, k))
    ensures Sound(LinkCache(s, i, k))
  {
    var x := s.inodes[i];
    assert Inward(s, i);
    if x.invalid {
    } else if x.cache.Some? {
      assert Referenced(s, x.cache.value);
      GetRefSound(s, x.cache.value);
    } else {
      assert Referenced(s, k) && Phase(s, k);
      OnlyCacheSound(s, LinkCache(s, i, k), k);
    }
  }

  lemma DropUnlinkedSound(s: State, k: nat)
    requires Sound(s) && Enabled(s, DropUnlinked(k))
    ensures Sound(Act(s, DropUnlinked(k)))
  {
    hide Sound;
    SoundAt(s, k);
    OnlyCacheSound(s, Act(s, DropUnlinked(k)), k);
  }

  // Fewer references: nothing else about the cache.
  lemma RefsPhase(s: State, s': State, k: nat, refs: int)
    requires k in s.caches && Phase(s, k) && k in s'.caches && s'.caches[k] == s.caches[k].(refs := refs)
    requires s'.unlinked == s.unlinked && s'.discarding == s.discarding
    ensures Phase(s', k)
  {
  }

  lemma PutCacheSound(s: State, k: nat)
    requires Sound(s) && Enabled(s, PutCache(k))
    ensures Sound(Act(s, PutCache(k)))
  {
    hide Sound, Phase;
    SoundAt(s, k);
    if s.caches[k].refs != 1 { RefsPhase(s, Act(s, PutCache(k)), k, s.caches[k].refs - 1); }
    OnlyCacheSound(s, Act(s, PutCache(k)), k);
  }

  lemma DropSound(s: State, ev: Event)
    requires Sound(s) && Enabled(s, ev) && (ev.DropUnlinked? || ev.PutCache?)
    ensures Sound(Act(s, ev))
  {
    hide Sound, Act, Enabled;
    match ev
    case DropUnlinked(k) => DropUnlinkedSound(s, k);
    case PutCache(k) => PutCacheSound(s, k);
  }

  // A cache that is freed holds no entry, and the free callback leaves it as constructed.
  function FreeCallback(c: Cache): Cache { c.(draining := {}, slot := Empty) }

  predicate AsConstructed(c: Cache) { c.table == map[] && c.draining == {} && c.nent == 0 && c.slot == Empty && c.inode.None? }

  lemma FreedIsClean(s: State, ev: Event)
    requires Sound(s) && Enabled(s, ev) && (ev.DropUnlinked? || ev.PutCache?) && s.caches[ev.k].refs == 1
    ensures AsConstructed(FreeCallback(s.caches[ev.k])) && !s.caches[ev.k].slot.Listed?
  {
    assert Referenced(s, ev.k) && Phase(s, ev.k);
    if ev.PutCache? { FullyDrained(s.caches[ev.k]); }
  }

  // ------------------------------------------------ every step

  predicate LinksChange(ev: Event) {
    ev.NewInode? || ev.Invalidate? || ev.Lookup? || ev.Link? || ev.Zap? || ev.CacheIsolate?
  }

  lemma LinkStepSound(s: State, ev: Event)
    requires Sound(s) && Links(s) && Enabled(s, ev) && LinksChange(ev)
    ensures Sound(Act(s, ev))
  {
    match ev
    case NewInode(_) => SameCachesSound(s, Act(s, ev));
    case Invalidate(_) => SameCachesSound(s, Act(s, ev));
    case Lookup(i) =>
      assert Inward(s, i);
      if s.inodes[i].invalid {
        UnlinkSound(s, i);
      } else if s.inodes[i].cache.Some? {
        assert Referenced(s, s.inodes[i].cache.value);
        GetRefSound(s, s.inodes[i].cache.value);
      }
    case Link(i, k) => LinkSound(s, i, k);
    case Zap(i) => UnlinkSound(s, i);
    case CacheIsolate(k) =>
      assert Referenced(s, k);
      UnlinkedSound(s, k);
      GetRefSound(Unlinked(s, k), k);
  }

  lemma DiscardStepSound(s: State, ev: Event)
    requires Sound(s) && Enabled(s, ev)
    requires ev.DiscardSlot? || ev.DrainStart? || ev.DrainOne? || ev.DrainNext? || ev.DiscardEnd?
    ensures Sound(Act(s, ev))
  {
    hide Sound, Act, Enabled;
    match ev
    case DiscardSlot(k) => DiscardSlotSound(s, k);
    case DrainStart(k) => DrainStartSound(s, k);
    case DrainOne(k, n) => DrainOneSound(s, k, n);
    case DrainNext(k) => DrainNextSound(s, k);
    case DiscardEnd(k) => DiscardEndSound(s, k);
  }

  lemma ContentStepSound(s: State, ev: Event)
    requires Sound(s) && Homes(s) && Enabled(s, ev) && (ev.HashAdd? || ev.HashRemove? || ev.SetList? || ev.EntryIsolate?)
    ensures Sound(Act(s, ev))
  {
    hide Sound, Homes, Add, Remove, Fill, Isolate;
    match ev
    case HashAdd(k, e) => AddSound(s, k, e);
    case HashRemove(k, n) => RemoveSound(s, k, n);
    case SetList(k, list) =>
      SoundAt(s, k);
      FillSound(s, k, if list.Some? then Listed(list.value) else Empty);
    case EntryIsolate(e) => IsolateSound(s, e);
  }

  lemma CountStepSound(s: State, ev: Event)
    requires Sound(s) && Enabled(s, ev) && (ev.AllocEntry? || ev.HashFind? || ev.PutEntry?)
    ensures Sound(Act(s, ev))
  {
    CountStepSame(s, ev);
    SameCachesSound(s, Act(s, ev));
  }

  ghost predicate SameCaches(s: State, s': State) {
    && s'.inodes == s.inodes && s'.caches == s.caches && s'.held == s.held
    && s'.discarding == s.discarding && s'.unlinked == s.unlinked
  }

  lemma RefSame(s: State, e: nat)
    requires e in s.entries
    ensures SameCaches(s, Ref(s, e)) && SameCaches(s, DropEntry(s, e))
  {
  }

  lemma CountStepSame(s: State, ev: Event)
    requires Enabled(s, ev) && (ev.AllocEntry? || ev.HashFind? || ev.PutEntry?)
    ensures SameCaches(s, Act(s, ev))
  {
    match ev
    case AllocEntry(_, _, _) =>
    case HashFind(k, n) => if n in s.caches[k].table { RefSame(s, s.caches[k].table[n]); }
    case PutEntry(e) => RefSame(s, e);
  }

  lemma StepSound(s: State, ev: Event)
    requires Sound(s) && Links(s) && Homes(s) && Enabled(s, ev)
    ensures Sound(Act(s, ev))
  {
    if LinksChange(ev) {
      LinkStepSound(s, ev);
    } else if ev.AllocCache? {
      AllocCacheSound(s, ev.k);
    } else if ev.DropUnlinked? || ev.PutCache? {
      DropSound(s, ev);
    } else if ev.AllocEntry? || ev.HashFind? || ev.PutEntry? {
      CountStepSound(s, ev);
    } else if ev.HashAdd? || ev.HashRemove? || ev.SetList? || ev.EntryIsolate? {
      ContentStepSound(s, ev);
    } else {
      DiscardStepSound(s, ev);
    }
  }

  // ------------------------------------------------ links, step by step

  ghost predicate SameLinks(s: State, s': State) {
    && s'.inodes == s.inodes
    && (forall k :: k in s.caches && k in s'.caches ==> s'.caches[k].inode == s.caches[k].inode)
    && (forall k :: k in s.caches && k !in s'.caches ==> s.caches[k].inode.None?)
    && (forall k :: k in s'.caches && k !in s.caches ==> s'.caches[k].inode.None?)
  }

  lemma SameLinksLinked(s: State, s': State)
    requires Links(s) && SameLinks(s, s')
    ensures Links(s')
  {
    forall i | i in s'.inodes ensures Inward(s', i) { assert Inward(s, i); }
    forall k | k in s'.caches ensures Outward(s', k) { if k in s.caches { assert Outward(s, k); } }
  }

  lemma SetCacheLinks(s: State, s': State, k: nat)
    requires k in s.caches && s'.inodes == s.inodes
    requires k in s'.caches && s'.caches == s.caches[k := s'.caches[k]] && s'.caches[k].inode == s.caches[k].inode
    ensures SameLinks(s, s')
  {
  }

  lemma GoneLinks(s: State, s': State, k: nat)
    requires s'.inodes == s.inodes && s'.caches == s.caches - {k} && (k in s.caches ==> s.caches[k].inode.None?)
    ensures SameLinks(s, s')
  {
  }

  lemma FreedLinks(s: State, ev: Event)
    requires Sound(s) && Enabled(s, ev) && (ev.DropUnlinked? || ev.PutCache?)
    ensures SameLinks(s, Act(s, ev))
  {
    hide Sound, Phase, SameLinks;
    SoundAt(s, ev.k);
    if s.caches[ev.k].refs == 1 {
      GoneLinks(s, Act(s, ev), ev.k);
    } else {
      SetCacheLinks(s, Act(s, ev), ev.k);
    }
  }

  lemma AddLinks(s: State, k: nat, e: nat)
    requires Enabled(s, HashAdd(k, e))
    ensures SameLinks(s, Add(s, k, e))
  {
    if Bucket(s.entries[e].name.value) !in s.caches[k].draining { SetCacheLinks(s, Add(s, k, e), k); }
  }

  lemma FillLinks(s: State, k: nat, slot: Slot)
    requires k in s.caches && SlotKnown(s, k) && (slot.Listed? ==> slot.e in s.entries)
    ensures SameLinks(s, Fill(s, k, slot))
  {
    if !s.caches[k].slot.Stale? { SetCacheLinks(s, Fill(s, k, slot), k); }
  }

  lemma IsolateLinks(s: State, e: nat)
    requires Enabled(s, EntryIsolate(e))
    ensures SameLinks(s, Isolate(s, e))
  {
    SetCacheLinks(s, Isolate(s, e), s.entries[e].home.value.k);
  }

  lemma ContentLinks(s: State, ev: Event)
    requires Enabled(s, ev) && (ev.HashAdd? || ev.HashRemove? || ev.SetList? || ev.EntryIsolate?)
    ensures SameLinks(s, Act(s, ev))
  {
    match ev
    case HashAdd(k, e) => AddLinks(s, k, e);
    case HashRemove(k, n) => if n in s.caches[k].table { SetCacheLinks(s, Remove(s, k, n), k); }
    case SetList(k, list) => FillLinks(s, k, if list.Some? then Listed(list.value) else Empty);
    case EntryIsolate(e) => IsolateLinks(s, e);
  }

  lemma DiscardLinks(s: State, ev: Event)
    requires Enabled(s, ev)
    requires ev.DiscardSlot? || ev.DrainStart? || ev.DrainOne? || ev.DrainNext? || ev.DiscardEnd?
    ensures SameLinks(s, Act(s, ev))
  {
    SetCacheLinks(s, Act(s, ev), ev.k);
  }

  lemma CountLinks(s: State, ev: Event)
    requires Enabled(s, ev) && (ev.AllocEntry? || ev.HashFind? || ev.PutEntry? || ev.AllocCache?)
    ensures SameLinks(s, Act(s, ev))
  {
    if !ev.AllocCache? { CountStepSame(s, ev); }
  }

  lemma UnlinkedLinks(s: State, k: nat)
    requires Links(s) && k in s.caches && s.caches[k].inode.Some? && s.caches[k].inode.value in s.inodes
    ensures Links(Unlinked(s, k))
  {
    var s' := Unlinked(s, k);
    assert Outward(s, k);
    forall i | i in s'.inodes ensures Inward(s', i) { assert Inward(s, i); }
    forall j | j in s'.caches ensures Outward(s', j) { assert Outward(s, j); }
  }

  lemma UnlinkLinks(s: State, i: nat)
    requires Links(s) && i in s.inodes && (s.inodes[i].cache.Some? ==> s.inodes[i].cache.value in s.caches)
    ensures Links(Unlink(s, i))
  {
    assert Inward(s, i);
    if s.inodes[i].cache.Some? {
      UnlinkedLinks(s, s.inodes[i].cache.value);
      assert Unlink(s, i) == Unlinked(s, s.inodes[i].cache.value);
    } else {
      InodeLinks(s, i, s.inodes[i].(invalid := false));
      assert Unlink(s, i) == s.(inodes := s.inodes[i := s.inodes[i].(invalid := false)]);
    }
  }

  // The cache pointer stays, or a new inode has none.
  lemma InodeLinks(s: State, i: nat, x: Inode)
    requires Links(s) && x.cache == (if i in s.inodes then s.inodes[i].cache else None)
    ensures Links(s.(inodes := s.inodes[i := x]))
  {
    var s' := s.(inodes := s.inodes[i := x]);
    forall j | j in s'.inodes ensures Inward(s', j) { if j in s.inodes { assert Inward(s, j); } }
    forall k | k in s'.caches ensures Outward(s', k) { assert Outward(s, k); }
  }

  lemma LinkLinks(s: State, i: nat, k: nat)
    requires Links(s) && References(s) && Enabled(s, Link(i, k)) && !s.inodes[i].invalid && s.inodes[i].cache.None?
    ensures Links(LinkCache(s, i, k))
  {
    var s' := LinkCache(s, i, k);
    assert Referenced(s, k);
    forall j | j in s'.inodes ensures Inward(s', j) { assert Inward(s, j); }
    forall j | j in s'.caches ensures Outward(s', j) { assert Outward(s, j); }
  }

  lemma GetRefLinks(s: State, k: nat)
    requires Links(s) && k in s.caches
    ensures Links(GetRef(s, k))
  {
    SameLinksLinked(s, GetRef(s, k));
  }

  lemma LinkStepLinks(s: State, ev: Event)
    requires Sound(s) && Links(s) && Enabled(s, ev) && LinksChange(ev)
    ensures Links(Act(s, ev))
  {
    match ev
    case NewInode(i) => InodeLinks(s, i, Inode(None, false, s.clock));
    case Invalidate(i) => InodeLinks(s, i, s.inodes[i].(invalid := true, wiped := s.clock));
    case Lookup(i) =>
      if s.inodes[i].invalid { UnlinkLinks(s, i); }
      else if s.inodes[i].cache.Some? { GetRefLinks(s, s.inodes[i].cache.value); }
    case Link(i, k) =>
      if s.inodes[i].invalid { }
      else if s.inodes[i].cache.Some? { GetRefLinks(s, s.inodes[i].cache.value); }
      else { LinkLinks(s, i, k); }
    case Zap(i) => UnlinkLinks(s, i);
    case CacheIsolate(k) =>
      UnlinkedLinks(s, k);
      GetRefLinks(Unlinked(s, k), k);
  }

  lemma StepSameLinks(s: State, ev: Event)
    requires Sound(s) && Enabled(s, ev) && !LinksChange(ev)
    ensures SameLinks(s, Act(s, ev))
  {
    if ev.DropUnlinked? || ev.PutCache? {
      FreedLinks(s, ev);
    } else if ev.HashAdd? || ev.HashRemove? || ev.SetList? || ev.EntryIsolate? {
      ContentLinks(s, ev);
    } else if ev.AllocEntry? || ev.HashFind? || ev.PutEntry? || ev.AllocCache? {
      CountLinks(s, ev);
    } else {
      DiscardLinks(s, ev);
    }
  }

  lemma StepLinks(s: State, ev: Event)
    requires Sound(s) && Links(s) && Enabled(s, ev)
    ensures Links(Act(s, ev))
  {
    if LinksChange(ev) {
      LinkStepLinks(s, ev);
    } else {
      StepSameLinks(s, ev);
      SameLinksLinked(s, Act(s, ev));
    }
  }
}
