/**
 The readdir page cache: a content-addressed, partially filled, evictable cache over a
 server listing, and the directory streams that read through it.

 Positions are 64-bit cookies.  A stream is modelled from one iteration of the search and
 emit loop to the next; what happens in between (evictions, fills by other streams, the
 user buffer filling up, the end of a system call) is an input.
 */
module Readdir {
  import opened Wrappers

  type Cookie = c: int | 0 <= c < 0x1_0000_0000_0000_0000

  datatype Dirent = Dirent(name: string, ino: nat, dtype: nat)

  // One entry of the server's listing; the cookie resumes after it.
  datatype ServerEntry = ServerEntry(cookie: Cookie, dirent: Dirent)

  type Listing = seq<ServerEntry>

  // One slot of a cached page; the cookie is the one that leads to it.
  datatype CacheEntry = CacheEntry(cookie: Cookie, dirent: Dirent)

  datatype Page = Page(
    changeAttr: int, lastCookie: Cookie, entries: seq<CacheEntry>,
    full: bool, isEof: bool, ordered: bool)

  // The page cache, indexed by the hash of the first cookie of a page.
  type Pages = map<nat, Page>

  // What stays fixed: the directory's change attribute, the entries a page can hold and
  // the hash that places a page.
  datatype Dir = Dir(changeAttr: int, maxEntries: nat, slotOf: Cookie -> nat)

  // NFS_READDIR_CACHE_MISS_THRESHOLD + 2
  const FIRST_EMIT_LIMIT: nat := 18

  // --------------------------------------------------------------- one page

  function InitPage(cookie: Cookie, changeAttr: int): Page {
    Page(changeAttr, cookie, [], false, false, true)
  }

  function IndexCookie(p: Page): Cookie {
    if p.entries == [] then p.lastCookie else p.entries[0].cookie
  }

  function SetEof(p: Page): Page { p.(isEof := true, full := true) }

  datatype AppendResult = AppendResult(page: Page, fits: bool)

  function Append(p: Page, e: ServerEntry, maxEntries: nat): AppendResult {
    if p.full then AppendResult(p, false)
    else if |p.entries| == maxEntries then AppendResult(p.(full := true), false)
    else
      AppendResult(p.(entries := p.entries + [CacheEntry(p.lastCookie, e.dirent)],
                      lastCookie := e.cookie,
                      ordered := p.ordered && p.lastCookie < e.cookie), true)
  }

  function Validated(dir: Dir, pages: Pages, cookie: Cookie): Page {
    var slot := dir.slotOf(cookie);
    if slot in pages && pages[slot].changeAttr == dir.changeAttr && IndexCookie(pages[slot]) == cookie
    then pages[slot]
    else InitPage(cookie, dir.changeAttr)
  }

  function NextPage(dir: Dir, pages: Pages, cookie: Cookie): Page {
    var p := Validated(dir, pages, cookie);
    if p.lastCookie != cookie then InitPage(cookie, dir.changeAttr) else p
  }

  // nfs_readdir_folio_filler: append the reply, opening the next page whenever one is full,
  // as long as that page can be grabbed without waiting.
  function Fill(dir: Dir, pages: Pages, first: nat, cur: nat, reply: seq<ServerEntry>, eof: bool, grabs: nat): Pages
    requires cur in pages
    decreases |reply|
  {
    if reply == [] then
      if eof then pages[cur := SetEof(pages[cur])] else pages
    else
      var a := Append(pages[cur], reply[0], dir.maxEntries);
      var stored := pages[cur := a.page];
      if a.fits then Fill(dir, stored, first, cur, reply[1..], eof, grabs)
      else FillNext(dir, stored, first, cur, reply, eof, grabs)
  }

  // The current page is full: go on with the page its last cookie leads to.  Grabbing it
  // never waits, so it fails for the two pages this fill already holds.
  function FillNext(dir: Dir, pages: Pages, first: nat, cur: nat, reply: seq<ServerEntry>, eof: bool, grabs: nat): Pages
    requires cur in pages && reply != []
    decreases |reply|, 0
  {
    var cookie := pages[cur].lastCookie;
    var slot := dir.slotOf(cookie);
    if grabs == 0 || slot == first || slot == cur then pages
    else
      var b := Append(NextPage(dir, pages, cookie), reply[0], dir.maxEntries);
      if !b.fits then pages[slot := b.page]
      else Fill(dir, pages[slot := b.page], first, slot, reply[1..], eof, grabs - 1)
  }

  // ------------------------------------------------------------------ search

  datatype Stream = Stream(
    dirCookie: Cookie,       // the next entry to emit
    lastCookie: Cookie,      // the page to look at
    eof: bool,
    from: nat,               // where the last seek went
    emitted: seq<Dirent>)    // everything handed to the user since then

  datatype Outcome =
    | Found(index: nat)
    | Again                  // -EAGAIN
    | EndOfDir               // -EBADCOOKIE, eof set
    | Lost                   // -EBADCOOKIE without eof: the uncached fallback

  function SeekNext(p: Page, d: Stream): Stream {
    d.(lastCookie := if p.full then p.lastCookie else IndexCookie(p))
  }

  predicate InRange(p: Page, cookie: Cookie) {
    !p.ordered ||
    (cookie < p.lastCookie && (p.entries == [] || p.entries[0].cookie <= cookie))
  }

  // First slot at or after i that the cookie leads to.
  function Locate(p: Page, cookie: Cookie, i: nat): (r: Option<nat>)
    requires i <= |p.entries|
    decreases |p.entries| - i
  {
    if i == |p.entries| then None
    else if p.entries[i].cookie == cookie then Some(i)
    else Locate(p, cookie, i + 1)
  }

  datatype SearchResult = SearchResult(outcome: Outcome, stream: Stream)

  function SearchForCookie(p: Page, d: Stream): SearchResult {
    var hit := if InRange(p, d.dirCookie) then Locate(p, d.dirCookie, 0) else None;
    match hit
    case Some(i) => SearchResult(Found(i), d)
    case None =>
      if !p.isEof then SearchResult(Again, SeekNext(p, d))
      else if d.dirCookie == p.lastCookie then SearchResult(EndOfDir, d.(eof := true))
      else SearchResult(Lost, d)
  }

  function SearchForPos(p: Page, d: Stream): SearchResult {
    if p.entries != [] then SearchResult(Found(0), d.(dirCookie := p.entries[0].cookie))
    else if p.isEof then SearchResult(EndOfDir, d.(eof := true))
    else SearchResult(Again, SeekNext(p, d))
  }

  function Search(p: Page, d: Stream): SearchResult {
    if d.dirCookie == 0 then SearchForPos(p, d) else SearchForCookie(p, d)
  }

  // -------------------------------------------------------------------- emit

  // Hand out slot i and point the stream at the one after it.
  function EmitOne(p: Page, d: Stream, i: nat): Stream
    requires i < |p.entries|
  {
    var e := d.(emitted := d.emitted + [p.entries[i].dirent]);
    if i == |p.entries| - 1 then SeekNext(p, e.(dirCookie := p.lastCookie))
    else e.(dirCookie := p.entries[i+1].cookie, lastCookie := p.entries[0].cookie)
  }

  // nfs_do_filldir from slot i on; room is how many entries the user buffer still takes.
  function Emit(p: Page, d: Stream, i: nat, first: bool, room: nat): Stream
    requires i <= |p.entries|
    decreases |p.entries| - i
  {
    if i == |p.entries| then d.(eof := d.eof || p.isEof)
    else if (first && i > FIRST_EMIT_LIMIT) || room == 0 then
      d.(eof := d.eof && !p.isEof)
    else
      Emit(p, EmitOne(p, d, i), i + 1, first, room - 1)
  }

  // --------------------------------------------------------------- the system

  // Any number of streams sharing one cache.
  datatype State = State(pages: Pages, streams: map<nat, Stream>)

  datatype Event =
    | Open(file: nat)
    | Seek(file: nat, to: nat)
    | Evict(slot: nat)
    | Rewind(file: nat)
    | FailedFill(file: nat, clear: bool, count: nat, grabs: nat)
    | Advance(file: nat, clear: bool, count: nat, eof: bool, grabs: nat, room: nat)

  // Cookie that leads to position k of the listing.
  function CookieAt(l: Listing, k: nat): Cookie
    requires k <= |l|
  {
    if k == 0 then 0 else l[k-1].cookie
  }

  function RestAfter(l: Listing, cookie: Cookie): seq<ServerEntry> {
    if l == [] then [] else if l[0].cookie == cookie then l[1..] else RestAfter(l[1..], cookie)
  }

  // What the server has left to say after a cookie.
  function Rest(l: Listing, cookie: Cookie): seq<ServerEntry> {
    if cookie == 0 then l else RestAfter(l, cookie)
  }

  function Min(a: nat, b: nat): nat { if a < b then a else b }

  // The page the stream wants, found or started afresh.
  function Wanted(dir: Dir, pages: Pages, cookie: Cookie, clear: bool): Page {
    var got := Validated(dir, pages, cookie);
    if clear && got.full then InitPage(cookie, dir.changeAttr) else got
  }

  // Extend the page in a slot with one READDIR reply of up to count entries; the reply may say
  // end of directory only if it got there.
  function ReadReply(dir: Dir, l: Listing, pages: Pages, slot: nat, count: nat, eof: bool, grabs: nat): Pages
    requires slot in pages
  {
    var rest := Rest(l, pages[slot].lastCookie);
    var n := Min(count, |rest|);
    Fill(dir, pages, slot, slot, rest[..n], eof && n == |rest|, grabs)
  }

  function Fetched(dir: Dir, l: Listing, pages: Pages, d: Stream, clear: bool, count: nat, eof: bool, grabs: nat): Pages {
    var slot := dir.slotOf(d.lastCookie);
    var p := Wanted(dir, pages, d.lastCookie, clear);
    var locked := pages[slot := p];
    if p.full then locked else ReadReply(dir, l, locked, slot, count, eof, grabs)
  }

  // Search the page and, if the position is on it, emit from there.
  function Consume(p: Page, d: Stream, room: nat): Stream {
    var r := Search(p, d);
    match r.outcome
    case Found(i) => if i < |p.entries| then Emit(p, r.stream, i, r.stream.dirCookie == 0, room) else r.stream
    case _ => r.stream
  }

  function Step(dir: Dir, l: Listing, s: State, e: Event): State {
    match e
    case Open(file) =>
      if file in s.streams then s else s.(streams := s.streams[file := Stream(0, 0, false, 0, [])])
    case Seek(file, to) =>
      if file in s.streams && to <= |l| && CookieAt(l, to) != s.streams[file].dirCookie then
        var c := CookieAt(l, to);
        s.(streams := s.streams[file := Stream(c, c, false, to, [])])
      else s
    case Evict(slot) => s.(pages := s.pages - {slot})
    case Rewind(file) =>
      if file in s.streams then s.(streams := s.streams[file := s.streams[file].(lastCookie := 0)]) else s
    case FailedFill(file, clear, count, grabs) =>
      if file in s.streams && !s.streams[file].eof
      then s.(pages := Fetched(dir, l, s.pages, s.streams[file], clear, count, false, grabs))
      else s
    case Advance(file, _, _, _, _, _) =>
      if file in s.streams && !s.streams[file].eof then Turned(dir, l, s, e) else s
  }

  // A turn: the page the stream looks at, then what the reader takes from it.
  function Turned(dir: Dir, l: Listing, s: State, e: Event): State
    requires e.Advance? && e.file in s.streams
  {
    var d := s.streams[e.file];
    var pages := Fetched(dir, l, s.pages, d, e.clear, e.count, e.eof, e.grabs);
    var slot := dir.slotOf(d.lastCookie);
    State(pages, if slot in pages then s.streams[e.file := Consume(pages[slot], d, e.room)] else s.streams)
  }

  function Run(dir: Dir, l: Listing, s: State, es: seq<Event>): State {
    if es == [] then s else Step(dir, l, Run(dir, l, s, es[..|es|-1]), es[|es|-1])
  }

  // --------------------------------------------------------------- invariants

  // Distinct non-zero cookies.
  predicate Proper(l: Listing) {
    && (forall i :: 0 <= i < |l| ==> l[i].cookie != 0)
    && (forall i, j :: 0 <= i < j < |l| ==> l[i].cookie != l[j].cookie)
  }

  function Names(l: Listing): (r: seq<Dirent>)
    ensures |r| == |l| && forall i :: 0 <= i < |l| ==> r[i] == l[i].dirent
  {
    seq(|l|, i requires 0 <= i < |l| => l[i].dirent)
  }

  // The page is the contiguous segment of the listing that starts at position a.
  ghost predicate Segment(dir: Dir, l: Listing, p: Page, a: nat) {
    && a + |p.entries| <= |l| && |p.entries| <= dir.maxEntries
    && (forall i :: 0 <= i < |p.entries| ==> p.entries[i] == CacheEntry(CookieAt(l, a + i), l[a + i].dirent))
    && p.lastCookie == CookieAt(l, a + |p.entries|)
    && (p.isEof ==> p.full && a + |p.entries| == |l|)
    && (p.full && !p.isEof ==> p.entries != [])
    && p.changeAttr == dir.changeAttr
    && OrderedSound(p)
  }

  // The flag that enables the range shortcut tells the truth.
  ghost predicate OrderedSound(p: Page) {
    p.ordered ==>
      && (forall i :: 0 <= i < |p.entries| ==> p.entries[i].cookie < p.lastCookie)
      && (forall i, j :: 0 <= i < j < |p.entries| ==> p.entries[i].cookie < p.entries[j].cookie)
  }

  // Pages filled before the directory last changed may hold anything.
  ghost predicate CacheOk(dir: Dir, l: Listing, pages: Pages) {
    forall s :: s in pages && pages[s].changeAttr == dir.changeAttr ==> Placed(dir, l, pages[s])
  }

  ghost predicate Placed(dir: Dir, l: Listing, p: Page) { exists a :: Segment(dir, l, p, a) }

  // The stream stands at position k of the listing, has emitted exactly the entries up to
  // there, and looks at a page that starts no later, at position j.
  ghost predicate Stands(l: Listing, d: Stream, j: nat, k: nat) {
    && d.from <= k <= |l| && j <= k
    && d.dirCookie == CookieAt(l, k)
    && d.lastCookie == CookieAt(l, j)
    && d.emitted == Names(l)[d.from..k]
    && (d.eof ==> k == |l|)
  }

  ghost predicate Inv(dir: Dir, l: Listing, s: State) {
    CacheOk(dir, l, s.pages) && forall f :: f in s.streams ==> exists j, k :: Stands(l, s.streams[f], j, k)
  }

  lemma CookieInjective(l: Listing, i: nat, j: nat)
    requires Proper(l) && i <= |l| && j <= |l| && CookieAt(l, i) == CookieAt(l, j)
    ensures i == j
  {
  }

  lemma {:induction false} RestAt(l: Listing, k: nat)
    requires Proper(l) && k <= |l|
    ensures Rest(l, CookieAt(l, k)) == l[k..]
  {
    if k > 0 { RestAfterAt(l, k); }
  }

  lemma {:induction false} RestAfterAt(l: Listing, k: nat)
    requires Proper(l) && 0 < k <= |l|
    ensures RestAfter(l, l[k-1].cookie) == l[k..]
  {
    if k > 1 {
      assert l[0].cookie != l[k-1].cookie;
      RestAfterAt(l[1..], k - 1);
      assert l[1..][k-1..] == l[k..];
    }
  }

  // --------------------------------------------------------------- the search

  lemma {:induction false} LocateMeaning(p: Page, cookie: Cookie, i: nat)
    requires i <= |p.entries|
    ensures match Locate(p, cookie, i)
      case Some(r) => i <= r < |p.entries| && p.entries[r].cookie == cookie
                      && forall x :: i <= x < r ==> p.entries[x].cookie != cookie
      case None => forall x :: i <= x < |p.entries| ==> p.entries[x].cookie != cookie
    decreases |p.entries| - i
  {
    if i < |p.entries| && p.entries[i].cookie != cookie {
      LocateMeaning(p, cookie, i + 1);
    }
  }

  // Appending keeps the flag truthful, whatever the server sends.
  lemma AppendOrdered(p: Page, e: ServerEntry, maxEntries: nat)
    requires OrderedSound(p)
    ensures OrderedSound(Append(p, e, maxEntries).page)
  {
  }

  // The ordered-cookie shortcut never changes the result of the search.
  lemma ShortcutIsExact(p: Page, cookie: Cookie)
    requires OrderedSound(p)
    ensures (if InRange(p, cookie) then Locate(p, cookie, 0) else None) == Locate(p, cookie, 0)
  {
    LocateMeaning(p, cookie, 0);
  }

  lemma LocateOnSegment(dir: Dir, l: Listing, p: Page, j: nat, k: nat)
    requires Proper(l) && Segment(dir, l, p, j) && j <= k <= |l|
    ensures Locate(p, CookieAt(l, k), 0) == if k - j < |p.entries| then Some(k - j) else None
  {
    LocateMeaning(p, CookieAt(l, k), 0);
    if k - j < |p.entries| { assert p.entries[k - j].cookie == CookieAt(l, k); }
    forall x | 0 <= x < |p.entries| ensures p.entries[x].cookie == CookieAt(l, k) <==> x == k - j {
      if p.entries[x].cookie == CookieAt(l, k) { CookieInjective(l, j + x, k); }
    }
  }

  // On a page that starts at or before the position, the search finds it, moves on to a page
  // that still does not start after it, or recognises the end; it never loses the cookie.
  lemma SearchOk(dir: Dir, l: Listing, p: Page, d: Stream, j: nat, k: nat)
    requires Proper(l) && Segment(dir, l, p, j) && Stands(l, d, j, k) && !d.eof
    ensures var r := Search(p, d);
      match r.outcome
      case Found(i) => i == k - j && i < |p.entries| && r.stream == d
      case Again => j + |p.entries| <= k && Stands(l, r.stream, if p.full then j + |p.entries| else j, k)
      case EndOfDir => k == |l| && Stands(l, r.stream, j, k) && r.stream.eof
      case Lost => false
  {
    if d.dirCookie == 0 {
      CookieInjective(l, k, 0);
    } else {
      ShortcutIsExact(p, d.dirCookie);
      LocateOnSegment(dir, l, p, j, k);
    }
  }

  lemma EmitOneOk(dir: Dir, l: Listing, p: Page, d: Stream, i: nat, a: nat, j: nat)
    requires Segment(dir, l, p, a) && i < |p.entries| && Stands(l, d, j, a + i) && !d.eof
    ensures Stands(l, EmitOne(p, d, i), if i == |p.entries| - 1 && p.full then a + |p.entries| else a, a + i + 1)
  {
    assert Names(l)[d.from..a + i] + [Names(l)[a + i]] == Names(l)[d.from..a + i + 1];
  }

  // Emitting from a slot hands out the listing from there on, however early it stops.
  lemma {:induction false} EmitOk(dir: Dir, l: Listing, p: Page, d: Stream, i: nat, first: bool, room: nat, a: nat, j: nat)
    returns (j': nat, k': nat)
    requires Segment(dir, l, p, a) && i <= |p.entries|
    requires Stands(l, d, j, a + i) && !d.eof
    ensures a + i <= k' && Stands(l, Emit(p, d, i, first, room), j', k')
    decreases |p.entries| - i
  {
    hide CookieAt;
    if i == |p.entries| || (first && i > FIRST_EMIT_LIMIT) || room == 0 {
      j', k' := j, a + i;
    } else {
      EmitOneOk(dir, l, p, d, i, a, j);
      j' := if i == |p.entries| - 1 && p.full then a + |p.entries| else a;
      j', k' := EmitOk(dir, l, p, EmitOne(p, d, i), i + 1, first, room - 1, a, j');
    }
  }

  lemma ConsumeOk(dir: Dir, l: Listing, p: Page, d: Stream, room: nat, j: nat, k: nat)
    returns (j': nat, k': nat)
    requires Proper(l) && Segment(dir, l, p, j) && Stands(l, d, j, k) && !d.eof
    ensures k <= k' && Stands(l, Consume(p, d, room), j', k')
  {
    SearchOk(dir, l, p, d, j, k);
    var r := Search(p, d);
    match r.outcome
    case Found(i) => j', k' := EmitOk(dir, l, p, d, i, d.dirCookie == 0, room, j, j);
    case Again => j', k' := if p.full then j + |p.entries| else j, k;
    case EndOfDir => j', k' := j, k;
  }

  // ------------------------------------------------------------------ the fill

  lemma AppendSegment(dir: Dir, l: Listing, p: Page, a: nat)
    requires Segment(dir, l, p, a) && a + |p.entries| < |l| && dir.maxEntries > 0
    ensures Segment(dir, l, Append(p, l[a + |p.entries|], dir.maxEntries).page, a)
    ensures Append(p, l[a + |p.entries|], dir.maxEntries).fits ==>
              Append(p, l[a + |p.entries|], dir.maxEntries).page.entries
              == p.entries + [CacheEntry(p.lastCookie, l[a + |p.entries|].dirent)]
    ensures !Append(p, l[a + |p.entries|], dir.maxEntries).fits ==>
              Append(p, l[a + |p.entries|], dir.maxEntries).page == p.(full := true)
    ensures p.entries == [] ==> Append(p, l[a + |p.entries|], dir.maxEntries).fits
  {
    AppendOrdered(p, l[a + |p.entries|], dir.maxEntries);
  }

  lemma ValidatedOk(dir: Dir, l: Listing, pages: Pages, k: nat)
    requires Proper(l) && CacheOk(dir, l, pages) && k <= |l|
    ensures Segment(dir, l, Validated(dir, pages, CookieAt(l, k)), k)
  {
    var p := Validated(dir, pages, CookieAt(l, k));
    var slot := dir.slotOf(CookieAt(l, k));
    if slot in pages && p == pages[slot] && p.changeAttr == dir.changeAttr {
      var a :| Segment(dir, l, p, a);
      assert IndexCookie(p) == CookieAt(l, a);
      CookieInjective(l, a, k);
    }
  }

  lemma NextPageOk(dir: Dir, l: Listing, pages: Pages, k: nat)
    requires Proper(l) && CacheOk(dir, l, pages) && k <= |l|
    ensures Segment(dir, l, NextPage(dir, pages, CookieAt(l, k)), k)
    ensures NextPage(dir, pages, CookieAt(l, k)).entries == []
  {
    ValidatedOk(dir, l, pages, k);
    var p := Validated(dir, pages, CookieAt(l, k));
    if p.lastCookie == CookieAt(l, k) {
      CookieInjective(l, k + |p.entries|, k);
    }
  }

  lemma StoreOk(dir: Dir, l: Listing, pages: Pages, slot: nat, p: Page, a: nat)
    requires CacheOk(dir, l, pages) && Segment(dir, l, p, a)
    ensures CacheOk(dir, l, pages[slot := p])
  {
  }

  // Page a is full: the entry goes to the next page, which starts where page a ends.
  lemma OpenNextOk(dir: Dir, l: Listing, pages: Pages, slot: nat, b: nat)
    requires Proper(l) && dir.maxEntries > 0 && CacheOk(dir, l, pages) && b < |l|
    ensures var y := Append(NextPage(dir, pages, CookieAt(l, b)), l[b], dir.maxEntries);
      y.fits && |y.page.entries| == 1 && Segment(dir, l, y.page, b) && CacheOk(dir, l, pages[slot := y.page])
  {
    NextPageOk(dir, l, pages, b);
    var next := NextPage(dir, pages, CookieAt(l, b));
    AppendSegment(dir, l, next, b);
    StoreOk(dir, l, pages, slot, Append(next, l[b], dir.maxEntries).page, b);
  }

  // The reply continues the page that starts at a.
  ghost predicate Continues(l: Listing, p: Page, a: nat, reply: seq<ServerEntry>, eof: bool) {
    var b := a + |p.entries|;
    b + |reply| <= |l| && reply == l[b..b + |reply|] && (eof ==> b + |reply| == |l|)
  }

  lemma ContinuesRest(l: Listing, p: Page, a: nat, reply: seq<ServerEntry>, eof: bool, q: Page, c: nat)
    requires Continues(l, p, a, reply, eof) && reply != []
    requires c + |q.entries| == a + |p.entries| + 1
    ensures a + |p.entries| < |l| && reply[0] == l[a + |p.entries|]
    ensures Continues(l, q, c, reply[1..], eof)
  {
  }

  // The page being read (slot first) starts at a0, the page being extended (slot cur) at a.
  ghost predicate Filling(dir: Dir, l: Listing, pages: Pages, first: nat, cur: nat, a0: nat, a: nat) {
    && CacheOk(dir, l, pages)
    && first in pages && Segment(dir, l, pages[first], a0)
    && cur in pages && Segment(dir, l, pages[cur], a)
    && (cur == first ==> a == a0)
  }

  lemma ExtendFilling(dir: Dir, l: Listing, pages: Pages, first: nat, cur: nat, a0: nat, a: nat, p: Page)
    requires Filling(dir, l, pages, first, cur, a0, a) && Segment(dir, l, p, a)
    ensures Filling(dir, l, pages[cur := p], first, cur, a0, a)
  {
    StoreOk(dir, l, pages, cur, p, a);
  }

  lemma AppendFilling(dir: Dir, l: Listing, pages: Pages, first: nat, cur: nat, reply: seq<ServerEntry>, eof: bool, a0: nat, a: nat)
    requires dir.maxEntries > 0 && Filling(dir, l, pages, first, cur, a0, a)
    requires reply != [] && Continues(l, pages[cur], a, reply, eof)
    ensures var x := Append(pages[cur], reply[0], dir.maxEntries);
      && Filling(dir, l, pages[cur := x.page], first, cur, a0, a)
      && Continues(l, x.page, a, if x.fits then reply[1..] else reply, eof)
  {
    hide Segment;
    var b := a + |pages[cur].entries|;
    assert b < |l| && reply[0] == l[b];
    AppendSegment(dir, l, pages[cur], a);
    var x := Append(pages[cur], reply[0], dir.maxEntries);
    ExtendFilling(dir, l, pages, first, cur, a0, a, x.page);
    if x.fits { ContinuesRest(l, pages[cur], a, reply, eof, x.page, a); }
  }

  // Filling keeps every page a segment, and the page being read keeps its place.
  lemma {:induction false} FillOk(dir: Dir, l: Listing, pages: Pages, first: nat, cur: nat,
                                  reply: seq<ServerEntry>, eof: bool, grabs: nat, a0: nat, a: nat)
    requires Proper(l) && dir.maxEntries > 0 && Filling(dir, l, pages, first, cur, a0, a)
    requires Continues(l, pages[cur], a, reply, eof)
    ensures var r := Fill(dir, pages, first, cur, reply, eof, grabs);
      CacheOk(dir, l, r) && first in r && Segment(dir, l, r[first], a0)
    decreases |reply|
  {
    if reply == [] {
      if eof { ExtendFilling(dir, l, pages, first, cur, a0, a, SetEof(pages[cur])); }
    } else {
      AppendFilling(dir, l, pages, first, cur, reply, eof, a0, a);
      var x := Append(pages[cur], reply[0], dir.maxEntries);
      if x.fits {
        FillOk(dir, l, pages[cur := x.page], first, cur, reply[1..], eof, grabs, a0, a);
      } else {
        FillNextOk(dir, l, pages[cur := x.page], first, cur, reply, eof, grabs, a0, a);
      }
    }
  }

  lemma {:induction false} FillNextOk(dir: Dir, l: Listing, pages: Pages, first: nat, cur: nat,
                                      reply: seq<ServerEntry>, eof: bool, grabs: nat, a0: nat, a: nat)
    requires Proper(l) && dir.maxEntries > 0 && Filling(dir, l, pages, first, cur, a0, a)
    requires reply != [] && Continues(l, pages[cur], a, reply, eof)
    ensures var r := FillNext(dir, pages, first, cur, reply, eof, grabs);
      CacheOk(dir, l, r) && first in r && Segment(dir, l, r[first], a0)
    decreases |reply|, 0
  {
    hide CookieAt, CacheOk;
    var cookie := pages[cur].lastCookie;
    var slot := dir.slotOf(cookie);
    if !(grabs == 0 || slot == first || slot == cur) {
      var b := a + |pages[cur].entries|;
      OpenNextOk(dir, l, pages, slot, b);
      var y := Append(NextPage(dir, pages, cookie), reply[0], dir.maxEntries);
      ContinuesRest(l, pages[cur], a, reply, eof, y.page, b);
      FillOk(dir, l, pages[slot := y.page], first, slot, reply[1..], eof, grabs - 1, a0, b);
    }
  }

  lemma ReadReplyOk(dir: Dir, l: Listing, pages: Pages, slot: nat, count: nat, eof: bool, grabs: nat, j: nat)
    requires Proper(l) && dir.maxEntries > 0 && Filling(dir, l, pages, slot, slot, j, j)
    ensures var r := ReadReply(dir, l, pages, slot, count, eof, grabs);
      CacheOk(dir, l, r) && slot in r && Segment(dir, l, r[slot], j)
  {
    var b := j + |pages[slot].entries|;
    RestAt(l, b);
    var n := Min(count, |l| - b);
    assert l[b..][..n] == l[b..b+n];
    FillOk(dir, l, pages, slot, slot, l[b..][..n], eof && n == |l[b..]|, grabs, j, j);
  }

  lemma FetchedOk(dir: Dir, l: Listing, pages: Pages, d: Stream, clear: bool, count: nat, eof: bool, grabs: nat, j: nat)
    requires Proper(l) && dir.maxEntries > 0 && CacheOk(dir, l, pages)
    requires j <= |l| && d.lastCookie == CookieAt(l, j)
    ensures var r := Fetched(dir, l, pages, d, clear, count, eof, grabs);
      var slot := dir.slotOf(d.lastCookie);
      CacheOk(dir, l, r) && slot in r && Segment(dir, l, r[slot], j)
  {
    var slot := dir.slotOf(d.lastCookie);
    ValidatedOk(dir, l, pages, j);
    var p := Wanted(dir, pages, d.lastCookie, clear);
    StoreOk(dir, l, pages, slot, p, j);
    if !p.full { ReadReplyOk(dir, l, pages[slot := p], slot, count, eof, grabs, j); }
  }

  // ---------------------------------------------------------------- theorems

  lemma StoreStream(dir: Dir, l: Listing, s: State, file: nat, d: Stream, j: nat, k: nat)
    requires Inv(dir, l, s) && Stands(l, d, j, k)
    ensures Inv(dir, l, s.(streams := s.streams[file := d]))
  {
  }

  lemma StorePages(dir: Dir, l: Listing, s: State, pages: Pages)
    requires Inv(dir, l, s) && CacheOk(dir, l, pages)
    ensures Inv(dir, l, s.(pages := pages))
  {
  }

  // A turn on a page that starts where the stream looks.
  lemma TurnInv(dir: Dir, l: Listing, s: State, file: nat, pages: Pages, p: Page, room: nat, j: nat, k: nat)
    requires Proper(l) && Inv(dir, l, s) && CacheOk(dir, l, pages) && Segment(dir, l, p, j)
    requires file in s.streams && !s.streams[file].eof && Stands(l, s.streams[file], j, k)
    ensures Inv(dir, l, State(pages, s.streams[file := Consume(p, s.streams[file], room)]))
  {
    var j', k' := ConsumeOk(dir, l, p, s.streams[file], room, j, k);
    StorePages(dir, l, s, pages);
    StoreStream(dir, l, s.(pages := pages), file, Consume(p, s.streams[file], room), j', k');
  }

  lemma AdvanceInv(dir: Dir, l: Listing, s: State, e: Event, j: nat, k: nat)
    requires Proper(l) && dir.maxEntries > 0 && Inv(dir, l, s)
    requires e.Advance? && e.file in s.streams && !s.streams[e.file].eof && Stands(l, s.streams[e.file], j, k)
    ensures Inv(dir, l, Turned(dir, l, s, e))
  {
    var d := s.streams[e.file];
    FetchedOk(dir, l, s.pages, d, e.clear, e.count, e.eof, e.grabs, j);
    var pages := Fetched(dir, l, s.pages, d, e.clear, e.count, e.eof, e.grabs);
    TurnInv(dir, l, s, e.file, pages, pages[dir.slotOf(d.lastCookie)], e.room, j, k);
  }

  lemma FailedFillInv(dir: Dir, l: Listing, s: State, e: Event, j: nat, k: nat)
    requires Proper(l) && dir.maxEntries > 0 && Inv(dir, l, s)
    requires e.FailedFill? && e.file in s.streams && Stands(l, s.streams[e.file], j, k)
    ensures Inv(dir, l, s.(pages := Fetched(dir, l, s.pages, s.streams[e.file], e.clear, e.count, false, e.grabs)))
  {
    var d := s.streams[e.file];
    FetchedOk(dir, l, s.pages, d, e.clear, e.count, false, e.grabs, j);
    StorePages(dir, l, s, Fetched(dir, l, s.pages, d, e.clear, e.count, false, e.grabs));
  }

  // Opening, seeking and rewinding a stream, and losing a page.
  lemma PlainInv(dir: Dir, l: Listing, s: State, e: Event)
    requires Proper(l) && Inv(dir, l, s) && !e.Advance? && !e.FailedFill?
    ensures Inv(dir, l, Step(dir, l, s, e))
  {
    match e
    case Open(file) => StoreStream(dir, l, s, file, Stream(0, 0, false, 0, []), 0, 0);
    case Seek(file, to) =>
      if to <= |l| {
        StoreStream(dir, l, s, file, Stream(CookieAt(l, to), CookieAt(l, to), false, to, []), to, to);
      }
    case Evict(slot) => StorePages(dir, l, s, s.pages - {slot});
    case Rewind(file) =>
      if file in s.streams {
        var j, k :| Stands(l, s.streams[file], j, k);
        StoreStream(dir, l, s, file, s.streams[file].(lastCookie := 0), 0, k);
      }
  }

  lemma StepInv(dir: Dir, l: Listing, s: State, e: Event)
    requires Proper(l) && dir.maxEntries > 0 && Inv(dir, l, s)
    ensures Inv(dir, l, Step(dir, l, s, e))
  {
    if !e.Advance? && !e.FailedFill? {
      PlainInv(dir, l, s, e);
    } else if e.file in s.streams && !s.streams[e.file].eof {
      var j, k :| Stands(l, s.streams[e.file], j, k);
      if e.Advance? { AdvanceInv(dir, l, s, e, j, k); } else { FailedFillInv(dir, l, s, e, j, k); }
    }
  }

  // A cache left over from earlier versions of the directory, and no stream yet.
  ghost predicate Init(dir: Dir, s: State) {
    s.streams == map[] && forall slot :: slot in s.pages ==> s.pages[slot].changeAttr != dir.changeAttr
  }

  lemma {:induction false} RunInv(dir: Dir, l: Listing, s: State, es: seq<Event>)
    requires Proper(l) && dir.maxEntries > 0 && Init(dir, s)
    ensures Inv(dir, l, Run(dir, l, s, es))
  {
    if es != [] {
      RunInv(dir, l, s, es[..|es|-1]);
      StepInv(dir, l, Run(dir, l, s, es[..|es|-1]), es[|es|-1]);
    }
  }

  ghost predicate Exact(l: Listing, d: Stream) {
    && d.from + |d.emitted| <= |l|
    && d.emitted == Names(l)[d.from..d.from + |d.emitted|]
    && d.dirCookie == CookieAt(l, d.from + |d.emitted|)
    && (d.eof ==> d.emitted == Names(l)[d.from..])
  }

  lemma StandsExactly(l: Listing, d: Stream, j: nat, k: nat)
    requires Stands(l, d, j, k)
    ensures Exact(l, d)
  {
  }

  // Exactly once: over every run, what a stream has handed out since its last seek is the
  // listing from there on, in order, without a repeat or a gap, and end of directory is only
  // reported after the last entry.
  lemma ExactlyOnce(dir: Dir, l: Listing, s: State, es: seq<Event>, file: nat)
    requires Proper(l) && dir.maxEntries > 0 && Init(dir, s)
    requires file in Run(dir, l, s, es).streams
    ensures Exact(l, Run(dir, l, s, es).streams[file])
  {
    RunInv(dir, l, s, es);
    var d := Run(dir, l, s, es).streams[file];
    var j, k :| Stands(l, d, j, k);
    StandsExactly(l, d, j, k);
  }

  // The cookie is never lost: no turn of any stream falls back to the uncached path.
  lemma NeverLost(dir: Dir, l: Listing, s: State, es: seq<Event>, file: nat, clear: bool, count: nat, eof: bool, grabs: nat)
    requires Proper(l) && dir.maxEntries > 0 && Init(dir, s)
    requires file in Run(dir, l, s, es).streams && !Run(dir, l, s, es).streams[file].eof
    ensures var t := Run(dir, l, s, es);
      var d := t.streams[file];
      var pages := Fetched(dir, l, t.pages, d, clear, count, eof, grabs);
      var slot := dir.slotOf(d.lastCookie);
      slot in pages && !Search(pages[slot], d).outcome.Lost?
  {
    RunInv(dir, l, s, es);
    var t := Run(dir, l, s, es);
    var d := t.streams[file];
    var j, k :| Stands(l, d, j, k);
    FetchedOk(dir, l, t.pages, d, clear, count, eof, grabs, j);
    var pages := Fetched(dir, l, t.pages, d, clear, count, eof, grabs);
    SearchOk(dir, l, pages[dir.slotOf(d.lastCookie)], d, j, k);
  }

  // ----------------------------------------------------------------- progress

  // Filling only adds to the page being read.
  lemma {:induction false} FillKeeps(dir: Dir, pages: Pages, first: nat, cur: nat, reply: seq<ServerEntry>, eof: bool, grabs: nat)
    requires first in pages && cur in pages
    ensures var r := Fill(dir, pages, first, cur, reply, eof, grabs);
      && first in r && |r[first].entries| >= |pages[first].entries|
      && (pages[first].full ==> r[first].full)
    decreases |reply|
  {
    if reply != [] {
      var a := Append(pages[cur], reply[0], dir.maxEntries);
      var stored := pages[cur := a.page];
      if a.fits {
        FillKeeps(dir, stored, first, cur, reply[1..], eof, grabs);
      } else {
        var slot := dir.slotOf(stored[cur].lastCookie);
        var b := Append(NextPage(dir, stored, stored[cur].lastCookie), reply[0], dir.maxEntries);
        if !(grabs == 0 || slot == first || slot == cur) && b.fits {
          FillKeeps(dir, stored[slot := b.page], first, slot, reply[1..], eof, grabs - 1);
        }
      }
    }
  }

  // A server that sends something, or says it is done, fills the page or makes it longer.
  lemma FillGrows(dir: Dir, pages: Pages, first: nat, reply: seq<ServerEntry>, eof: bool, grabs: nat)
    requires first in pages && (reply != [] || eof)
    ensures var r := Fill(dir, pages, first, first, reply, eof, grabs);
      first in r && (r[first].full || |r[first].entries| > |pages[first].entries|)
  {
    if reply != [] {
      var a := Append(pages[first], reply[0], dir.maxEntries);
      var stored := pages[first := a.page];
      if a.fits {
        FillKeeps(dir, stored, first, first, reply[1..], eof, grabs);
      } else {
        var slot := dir.slotOf(a.page.lastCookie);
        var b := Append(NextPage(dir, stored, a.page.lastCookie), reply[0], dir.maxEntries);
        if !(grabs == 0 || slot == first) && b.fits {
          FillKeeps(dir, stored[slot := b.page], first, slot, reply[1..], eof, grabs - 1);
        }
      }
    }
  }

  lemma FetchedGrows(dir: Dir, l: Listing, pages: Pages, d: Stream, count: nat, grabs: nat)
    requires count > 0
    ensures var r := Fetched(dir, l, pages, d, false, count, true, grabs);
      var slot := dir.slotOf(d.lastCookie);
      slot in r && (r[slot].full || |r[slot].entries| > |Wanted(dir, pages, d.lastCookie, false).entries|)
  {
    var slot := dir.slotOf(d.lastCookie);
    var p := Wanted(dir, pages, d.lastCookie, false);
    if !p.full {
      var rest := Rest(l, p.lastCookie);
      var n := Min(count, |rest|);
      FillGrows(dir, pages[slot := p], slot, rest[..n], n == |rest|, grabs);
    }
  }

  lemma {:induction false} EmitMoves(p: Page, d: Stream, i: nat, first: bool, room: nat)
    requires i <= |p.entries|
    ensures |Emit(p, d, i, first, room).emitted| >= |d.emitted|
    ensures i < |p.entries| && room > 0 && i == 0 ==> |Emit(p, d, i, first, room).emitted| > |d.emitted|
    ensures i < |p.entries| && room > 0 && !first ==> |Emit(p, d, i, first, room).emitted| > |d.emitted|
    decreases |p.entries| - i
  {
    if i < |p.entries| && !(first && i > FIRST_EMIT_LIMIT) && room > 0 {
      EmitMoves(p, EmitOne(p, d, i), i + 1, first, room - 1);
    }
  }

  // One undisturbed turn emits something, reaches the end, or looks at a later or longer page.
  lemma ConsumeMoves(dir: Dir, l: Listing, p: Page, d: Stream, room: nat, j: nat, k: nat)
    returns (j': nat, k': nat)
    requires Proper(l) && Segment(dir, l, p, j) && Stands(l, d, j, k) && !d.eof && room > 0
    ensures Stands(l, Consume(p, d, room), j', k')
    ensures Consume(p, d, room).eof || k' > k || (k' == k && p.full && j' > j)
            || (k' == k && j' == j && !p.full && Consume(p, d, room).lastCookie == d.lastCookie)
  {
    SearchOk(dir, l, p, d, j, k);
    j', k' := ConsumeOk(dir, l, p, d, room, j, k);
    match Search(p, d).outcome
    case Found(i) =>
      if d.dirCookie == 0 { CookieInjective(l, k, 0); }
      EmitMoves(p, d, i, d.dirCookie == 0, room);
      StandsLength(l, d, j, k);
      StandsLength(l, Consume(p, d, room), j', k');
      EmitFrom(p, d, i, d.dirCookie == 0, room);
    case Again => j', k' := if p.full then j + |p.entries| else j, k;
    case EndOfDir =>
  }

  lemma StandsLength(l: Listing, d: Stream, j: nat, k: nat)
    requires Stands(l, d, j, k)
    ensures k == d.from + |d.emitted|
  {
  }

  lemma {:induction false} EmitFrom(p: Page, d: Stream, i: nat, first: bool, room: nat)
    requires i <= |p.entries|
    ensures Emit(p, d, i, first, room).from == d.from
    decreases |p.entries| - i
  {
    if i < |p.entries| && !(first && i > FIRST_EMIT_LIMIT) && room > 0 {
      EmitFrom(p, EmitOne(p, d, i), i + 1, first, room - 1);
    }
  }

  // A turn of one stream with nothing evicted, a server that answers and a buffer with room.
  predicate Undisturbed(e: Event, file: nat) {
    e.Advance? && e.file == file && !e.clear && e.count > 0 && e.eof && e.room > 0
  }

  // Turn x of an endless run of such turns.
  ghost predicate Follows(dir: Dir, l: Listing, trace: nat -> State, schedule: nat -> Event, file: nat, x: nat) {
    Undisturbed(schedule(x), file) && trace(x + 1) == Step(dir, l, trace(x), schedule(x))
  }

  // Room left on the page the stream looks at.
  function RoomLeft(dir: Dir, pages: Pages, cookie: Cookie): nat {
    var n := |Wanted(dir, pages, cookie, false).entries|;
    if n <= dir.maxEntries then dir.maxEntries - n else 0
  }

  // Progress in the order: entries emitted, page looked at, entries on that page.
  ghost predicate Closer(j: nat, k: nat, room: nat, j': nat, k': nat, room': nat) {
    k' > k || (k' == k && j' > j) || (k' == k && j' == j && room' < room)
  }

  lemma TurnMoves(dir: Dir, l: Listing, pages: Pages, d: Stream, count: nat, grabs: nat, room: nat, j: nat, k: nat)
    returns (j': nat, k': nat)
    requires Proper(l) && dir.maxEntries > 0 && CacheOk(dir, l, pages)
    requires Stands(l, d, j, k) && !d.eof && count > 0 && room > 0
    ensures var slot := dir.slotOf(d.lastCookie);
      var pages' := Fetched(dir, l, pages, d, false, count, true, grabs);
      slot in pages' &&
      var d' := Consume(pages'[slot], d, room);
      && Stands(l, d', j', k')
      && (d'.eof || Closer(j, k, RoomLeft(dir, pages, d.lastCookie), j', k', RoomLeft(dir, pages', d'.lastCookie)))
  {
    FetchedOk(dir, l, pages, d, false, count, true, grabs, j);
    FetchedGrows(dir, l, pages, d, count, grabs);
    var slot := dir.slotOf(d.lastCookie);
    var pages' := Fetched(dir, l, pages, d, false, count, true, grabs);
    j', k' := ConsumeMoves(dir, l, pages'[slot], d, room, j, k);
    if !pages'[slot].full {
      WantedIsThere(dir, l, pages', d.lastCookie, j);
    }
  }

  lemma WantedIsThere(dir: Dir, l: Listing, pages: Pages, cookie: Cookie, j: nat)
    requires j <= |l| && cookie == CookieAt(l, j)
    requires dir.slotOf(cookie) in pages && Segment(dir, l, pages[dir.slotOf(cookie)], j)
    ensures Wanted(dir, pages, cookie, false) == pages[dir.slotOf(cookie)]
  {
    assert IndexCookie(pages[dir.slotOf(cookie)]) == cookie;
  }

  // A stream in a good state that stands at (j, k) with room left on its page.
  ghost predicate Reading(dir: Dir, l: Listing, s: State, file: nat, j: nat, k: nat, room: nat) {
    && Inv(dir, l, s) && file in s.streams && Stands(l, s.streams[file], j, k)
    && room == RoomLeft(dir, s.pages, s.streams[file].lastCookie)
  }

  ghost predicate AtEnd(s: State, file: nat) { file in s.streams && s.streams[file].eof }

  lemma StepMoves(dir: Dir, l: Listing, s: State, e: Event, file: nat, j: nat, k: nat, room: nat)
    returns (t: State, j': nat, k': nat, room': nat)
    requires Proper(l) && dir.maxEntries > 0 && Reading(dir, l, s, file, j, k, room)
    requires !AtEnd(s, file) && Undisturbed(e, file)
    ensures t == Step(dir, l, s, e) && Reading(dir, l, t, file, j', k', room') && k' <= |l| && j' <= |l|
    ensures AtEnd(t, file) || Closer(j, k, room, j', k', room')
  {
    t := Step(dir, l, s, e);
    AdvanceInv(dir, l, s, e, j, k);
    j', k' := TurnMoves(dir, l, s.pages, s.streams[file], e.count, e.grabs, e.room, j, k);
    UndisturbedTurn(dir, l, s, e, file);
    room' := RoomLeft(dir, t.pages, t.streams[file].lastCookie);
  }

  // What such a turn leaves behind.
  lemma UndisturbedTurn(dir: Dir, l: Listing, s: State, e: Event, file: nat)
    requires file in s.streams && !s.streams[file].eof && Undisturbed(e, file)
    requires dir.slotOf(s.streams[file].lastCookie) in Fetched(dir, l, s.pages, s.streams[file], false, e.count, true, e.grabs)
    ensures var d := s.streams[file];
      var pages := Fetched(dir, l, s.pages, d, false, e.count, true, e.grabs);
      Step(dir, l, s, e) == State(pages, s.streams[file := Consume(pages[dir.slotOf(d.lastCookie)], d, e.room)])
  {
  }

  // A reader that is left alone gets to the end of the directory, whatever the reply sizes, the
  // buffer sizes and the pages it finds on the way.
  lemma {:induction false} Completes(dir: Dir, l: Listing, trace: nat -> State, schedule: nat -> Event, file: nat,
                                     x: nat, j: nat, k: nat, room: nat)
    returns (n: nat)
    requires Proper(l) && dir.maxEntries > 0 && j <= |l| && k <= |l| && Reading(dir, l, trace(x), file, j, k, room)
    requires forall y :: Follows(dir, l, trace, schedule, file, y)
    ensures AtEnd(trace(n), file)
    decreases |l| - k, |l| - j, room
  {
    if AtEnd(trace(x), file) {
      n := x;
    } else {
      assert Follows(dir, l, trace, schedule, file, x);
      var t, j', k', room' := StepMoves(dir, l, trace(x), schedule(x), file, j, k, room);
      n := x + 1;
      if !AtEnd(t, file) { n := Completes(dir, l, trace, schedule, file, x + 1, j', k', room'); }
    }
  }
}
