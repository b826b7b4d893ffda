/**
 One turn of a directory stream, exactly: how much of a reply the page takes, how many entries go to
 the user for a given room, when the end is reported and which page is looked at next.
 */
module ReaddirTurns {
  import opened Readdir

  // ------------------------------------------------ the page

  // Once the fill has moved on, the page it began with stays as it is.
  lemma {:induction false} FillLeaves(dir: Dir, pages: Pages, first: nat, cur: nat, reply: seq<ServerEntry>, eof: bool, grabs: nat)
    requires first in pages && cur in pages && cur != first
    ensures var r := Fill(dir, pages, first, cur, reply, eof, grabs); first in r && r[first] == pages[first]
    decreases |reply|
  {
    if reply != [] {
      var a := Append(pages[cur], reply[0], dir.maxEntries);
      var stored := pages[cur := a.page];
      if a.fits {
        FillLeaves(dir, stored, first, cur, reply[1..], eof, grabs);
      } else {
        NextLeaves(dir, stored, first, cur, reply, eof, grabs);
      }
    }
  }

  lemma {:induction false} NextLeaves(dir: Dir, pages: Pages, first: nat, cur: nat, reply: seq<ServerEntry>, eof: bool, grabs: nat)
    requires first in pages && cur in pages && reply != []
    ensures var r := FillNext(dir, pages, first, cur, reply, eof, grabs); first in r && r[first] == pages[first]
    decreases |reply|, 0
  {
    var slot := dir.slotOf(pages[cur].lastCookie);
    var b := Append(NextPage(dir, pages, pages[cur].lastCookie), reply[0], dir.maxEntries);
    if !(grabs == 0 || slot == first || slot == cur) && b.fits {
      FillLeaves(dir, pages[slot := b.page], first, slot, reply[1..], eof, grabs - 1);
    }
  }

  // The page takes as much of the reply as it has room for.  It is full when something was left over
  // or nothing is left to come, and ends the directory only when the whole rest found room.
  lemma {:induction false} FillTakes(dir: Dir, pages: Pages, slot: nat, reply: seq<ServerEntry>, eof: bool, grabs: nat)
    requires slot in pages && !pages[slot].full && !pages[slot].isEof && |pages[slot].entries| <= dir.maxEntries
    ensures var r := Fill(dir, pages, slot, slot, reply, eof, grabs);
      slot in r && var p, q, n := pages[slot], r[slot], |reply|;
      && |q.entries| == |p.entries| + Min(n, dir.maxEntries - |p.entries|)
      && (n > dir.maxEntries - |p.entries| ==> q.full && !q.isEof)
      && (n <= dir.maxEntries - |p.entries| ==> q.full == q.isEof == eof)
    decreases |reply|
  {
    if reply != [] {
      var a := Append(pages[slot], reply[0], dir.maxEntries);
      var stored := pages[slot := a.page];
      if a.fits {
        FillTakes(dir, stored, slot, reply[1..], eof, grabs);
      } else {
        NextLeaves(dir, stored, slot, slot, reply, eof, grabs);
      }
    }
  }

  // How many entries the page the stream looks at has once it is there.
  function Size(dir: Dir, l: Listing, p: Page, j: nat, count: nat): nat
    requires j + |p.entries| <= |l| && |p.entries| <= dir.maxEntries
  {
    if p.full then |p.entries|
    else |p.entries| + Min(Min(count, |l| - j - |p.entries|), dir.maxEntries - |p.entries|)
  }

  // The page tells the end of the directory: it did before, or the reply brought all the rest, said so
  // and found room.
  predicate TellsEnd(dir: Dir, l: Listing, p: Page, j: nat, count: nat, eof: bool)
    requires j + |p.entries| <= |l|
  {
    p.isEof || (!p.full && eof && |l| - j - |p.entries| <= count && |l| - j <= dir.maxEntries)
  }

  // There is more behind the page: it was full before, or the reply had more than it could take.
  predicate Overflows(dir: Dir, l: Listing, p: Page, j: nat, count: nat)
    requires j + |p.entries| <= |l|
  {
    p.full || |p.entries| + Min(count, |l| - j - |p.entries|) > dir.maxEntries
  }

  // The page as the fetch leaves it.
  predicate PageIs(dir: Dir, l: Listing, p: Page, q: Page, j: nat, count: nat, eof: bool) {
    && j + |p.entries| <= |l| && |p.entries| <= dir.maxEntries
    && |q.entries| == Size(dir, l, p, j, count)
    && (q.isEof <==> TellsEnd(dir, l, p, j, count, eof))
    && (q.full <==> TellsEnd(dir, l, p, j, count, eof) || Overflows(dir, l, p, j, count))
  }

  lemma FetchedIs(dir: Dir, l: Listing, pages: Pages, d: Stream, clear: bool, count: nat, eof: bool, grabs: nat, j: nat)
    requires Proper(l) && dir.maxEntries > 0 && CacheOk(dir, l, pages)
    requires j <= |l| && d.lastCookie == CookieAt(l, j)
    ensures var p := Wanted(dir, pages, d.lastCookie, clear);
      var r := Fetched(dir, l, pages, d, clear, count, eof, grabs);
      var slot := dir.slotOf(d.lastCookie);
      slot in r && PageIs(dir, l, p, r[slot], j, count, eof)
  {
    hide CacheOk, Fill, Rest, CookieAt;
    ValidatedOk(dir, l, pages, j);
    var p := Wanted(dir, pages, d.lastCookie, clear);
    WantedOk(dir, l, pages, clear, j);
    if !p.full { ReplyIs(dir, l, pages[dir.slotOf(d.lastCookie) := p], dir.slotOf(d.lastCookie), p, count, eof, grabs, j); }
  }

  lemma WantedOk(dir: Dir, l: Listing, pages: Pages, clear: bool, j: nat)
    requires Proper(l) && CacheOk(dir, l, pages) && j <= |l|
    ensures Segment(dir, l, Wanted(dir, pages, CookieAt(l, j), clear), j)
  {
    ValidatedOk(dir, l, pages, j);
  }

  lemma ReplyIs(dir: Dir, l: Listing, pages: Pages, slot: nat, p: Page, count: nat, eof: bool, grabs: nat, j: nat)
    requires Proper(l) && slot in pages && pages[slot] == p && !p.full && Segment(dir, l, p, j)
    ensures var r := ReadReply(dir, l, pages, slot, count, eof, grabs);
      slot in r && PageIs(dir, l, p, r[slot], j, count, eof)
  {
    hide Fill, Rest, CookieAt;
    var b := j + |p.entries|;
    RestAt(l, b);
    var n := Min(count, |l| - b);
    FillTakes(dir, pages, slot, l[b..][..n], eof && n == |l[b..]|, grabs);
  }

  // ------------------------------------------------ what goes to the user

  // The slot where the hand-out stops for want of anything but room.
  function Stop(p: Page, first: bool): nat { if first then Min(|p.entries|, FIRST_EMIT_LIMIT + 1) else |p.entries| }

  // The number of entries handed out from slot i on.
  function Count(p: Page, i: nat, first: bool, room: nat): nat {
    if i < Stop(p, first) then Min(room, Stop(p, first) - i) else 0
  }

  lemma {:induction false} EmitCount(p: Page, d: Stream, i: nat, first: bool, room: nat)
    requires i <= |p.entries| && !d.eof
    ensures var d', n := Emit(p, d, i, first, room), Count(p, i, first, room);
      && i + n <= |p.entries| && |d'.emitted| == |d.emitted| + n && d'.from == d.from
      && (d'.eof <==> p.isEof && i + n == |p.entries|)
      && d'.lastCookie == (if n == 0 then d.lastCookie
                           else if i + n < |p.entries| || !p.full then p.entries[0].cookie else p.lastCookie)
    decreases |p.entries| - i
  {
    if i < |p.entries| && !(first && i > FIRST_EMIT_LIMIT) && room > 0 {
      EmitCount(p, EmitOne(p, d, i), i + 1, first, room - 1);
    }
  }

  // ------------------------------------------------ the turn

  // From position k on a page at j with size entries, for so much room: how far the turn gets.
  function Reached(j: nat, k: nat, size: nat, room: nat): nat
    requires j <= k
  {
    var end := if k == 0 then Min(size, FIRST_EMIT_LIMIT + 1) else size;
    if k - j < end then k + Min(room, end - (k - j)) else k
  }

  // A turn of a stream, told from its position, the page it finds, the reply and the room: it hands
  // out the listing up to there, reports the end exactly when it stands there and the page says so, and
  // otherwise looks at the next page exactly when it is through with a full one.
  ghost predicate TurnLaw(dir: Dir, l: Listing, p: Page, d: Stream, d': Stream, e: Event, j: nat)
    requires e.Advance? && j + |p.entries| <= |l| && |p.entries| <= dir.maxEntries
    requires j <= d.from + |d.emitted|
  {
    var k, size := d.from + |d.emitted|, Size(dir, l, p, j, e.count);
    var k' := Reached(j, k, size, e.room);
    var ends := TellsEnd(dir, l, p, j, e.count, e.eof);
    && k' <= |l| && d'.from == d.from <= k' && d'.emitted == Names(l)[d.from..k']
    && (d'.eof <==> ends && k' == |l|)
    && (!d'.eof ==>
         d'.lastCookie == if k' >= j + size && Overflows(dir, l, p, j, e.count) then CookieAt(l, j + size) else CookieAt(l, j))
  }

  lemma TurnIs(dir: Dir, l: Listing, s: State, es: seq<Event>, e: Event, j: nat)
    requires Proper(l) && dir.maxEntries > 0 && Init(dir, s) && e.Advance?
    requires e.file in Run(dir, l, s, es).streams && !Run(dir, l, s, es).streams[e.file].eof
    requires j <= |l| && CookieAt(l, j) == Run(dir, l, s, es).streams[e.file].lastCookie
    ensures var t := Run(dir, l, s, es);
      var d, t' := t.streams[e.file], Run(dir, l, s, es + [e]);
      var p := Wanted(dir, t.pages, d.lastCookie, e.clear);
      && j <= d.from + |d.emitted| && j + |p.entries| <= |l| && |p.entries| <= dir.maxEntries
      && e.file in t'.streams && TurnLaw(dir, l, p, d, t'.streams[e.file], e, j)
  {
    var t := Run(dir, l, s, es);
    var d := t.streams[e.file];
    assert (es + [e])[..|es|] == es;
    RunInv(dir, l, s, es);
    var j0, k :| Stands(l, d, j0, k);
    CookieInjective(l, j0, j);
    AdvanceIs(dir, l, t, e, j, k);
  }

  lemma AdvanceIs(dir: Dir, l: Listing, t: State, e: Event, j: nat, k: nat)
    requires Proper(l) && dir.maxEntries > 0 && Inv(dir, l, t) && e.Advance?
    requires e.file in t.streams && !t.streams[e.file].eof && Stands(l, t.streams[e.file], j, k)
    ensures var d, t' := t.streams[e.file], Step(dir, l, t, e);
      var p := Wanted(dir, t.pages, d.lastCookie, e.clear);
      && j <= d.from + |d.emitted| && j + |p.entries| <= |l| && |p.entries| <= dir.maxEntries
      && e.file in t'.streams && TurnLaw(dir, l, p, d, t'.streams[e.file], e, j)
  {
    hide Fetched, Consume, Segment, CookieAt, Wanted, TurnLaw, PageIs, Consumed;
    var d := t.streams[e.file];
    FetchedOk(dir, l, t.pages, d, e.clear, e.count, e.eof, e.grabs, j);
    FetchedIs(dir, l, t.pages, d, e.clear, e.count, e.eof, e.grabs, j);
    var q := Fetched(dir, l, t.pages, d, e.clear, e.count, e.eof, e.grabs)[dir.slotOf(d.lastCookie)];
    ConsumeIs(dir, l, q, d, e.room, j, k);
    Together(dir, l, Wanted(dir, t.pages, d.lastCookie, e.clear), q, d, Consume(q, d, e.room), e, j, k);
  }

  // What is left of the stream by a page that starts at j.
  ghost predicate Consumed(l: Listing, q: Page, d: Stream, d': Stream, room: nat, j: nat, k: nat)
    requires j <= k
  {
    var k' := Reached(j, k, |q.entries|, room);
    && j + |q.entries| <= |l| && (q.isEof ==> j + |q.entries| == |l|)
    && d'.from == d.from <= k' <= |l| && d'.emitted == Names(l)[d.from..k'] && (d'.eof <==> q.isEof && k' == |l|)
    && (!d'.eof ==>
         d'.lastCookie == if k' >= j + |q.entries| && q.full then CookieAt(l, j + |q.entries|) else CookieAt(l, j))
  }

  lemma Together(dir: Dir, l: Listing, p: Page, q: Page, d: Stream, d': Stream, e: Event, j: nat, k: nat)
    requires e.Advance? && j <= k && k == d.from + |d.emitted|
    requires PageIs(dir, l, p, q, j, e.count, e.eof) && Consumed(l, q, d, d', e.room, j, k)
    ensures j + |p.entries| <= |l| && |p.entries| <= dir.maxEntries && TurnLaw(dir, l, p, d, d', e, j)
  {
    hide CookieAt;
  }

  lemma ConsumeIs(dir: Dir, l: Listing, q: Page, d: Stream, room: nat, j: nat, k: nat)
    requires Proper(l) && Segment(dir, l, q, j) && Stands(l, d, j, k) && !d.eof
    ensures k == d.from + |d.emitted| && Consumed(l, q, d, Consume(q, d, room), room, j, k)
  {
    hide Emit, Search;
    SearchOk(dir, l, q, d, j, k);
    match Search(q, d).outcome
    case Found(i) => FoundIs(dir, l, q, d, room, j, k);
    case Again => AgainIs(dir, l, q, d, room, j, k);
    case EndOfDir => AgainIs(dir, l, q, d, room, j, k);
  }

  lemma FoundIs(dir: Dir, l: Listing, q: Page, d: Stream, room: nat, j: nat, k: nat)
    requires Proper(l) && Segment(dir, l, q, j) && Stands(l, d, j, k) && !d.eof
    requires Search(q, d) == SearchResult(Found(k - j), d) && k - j < |q.entries|
    ensures Consumed(l, q, d, Consume(q, d, room), room, j, k)
  {
    hide Consume, Segment, Proper, CookieAt, Stands, Names;
    StandsLength(l, d, j, k);
    FoundCount(dir, l, q, d, room, j, k);
    FoundExact(dir, l, q, d, room, j, k);
  }

  lemma FoundExact(dir: Dir, l: Listing, q: Page, d: Stream, room: nat, j: nat, k: nat)
    requires Proper(l) && Segment(dir, l, q, j) && Stands(l, d, j, k) && !d.eof
    ensures var d' := Consume(q, d, room);
      d'.from + |d'.emitted| <= |l| && d'.emitted == Names(l)[d'.from..d'.from + |d'.emitted|]
  {
    hide Segment, Proper, Consume;
    var j', k' := ConsumeOk(dir, l, q, d, room, j, k);
    StandsExactly(l, Consume(q, d, room), j', k');
  }

  lemma FoundCount(dir: Dir, l: Listing, q: Page, d: Stream, room: nat, j: nat, k: nat)
    requires Proper(l) && Segment(dir, l, q, j) && Stands(l, d, j, k) && !d.eof
    requires Search(q, d) == SearchResult(Found(k - j), d) && k - j < |q.entries|
    ensures var d', k' := Consume(q, d, room), Reached(j, k, |q.entries|, room);
      && j + |q.entries| <= |l| && (q.isEof ==> j + |q.entries| == |l|)
      && d'.from == d.from && |d'.emitted| == |d.emitted| + k' - k && (d'.eof <==> q.isEof && k' == |l|)
      && d'.lastCookie == if k' >= j + |q.entries| && q.full then CookieAt(l, j + |q.entries|) else CookieAt(l, j)
  {
    hide Emit, Search;
    if d.dirCookie == 0 { CookieInjective(l, k, 0); }
    EmitCount(q, d, k - j, d.dirCookie == 0, room);
  }

  lemma AgainIs(dir: Dir, l: Listing, q: Page, d: Stream, room: nat, j: nat, k: nat)
    requires Proper(l) && Segment(dir, l, q, j) && Stands(l, d, j, k) && !d.eof
    requires Search(q, d).outcome.Again? || Search(q, d).outcome.EndOfDir?
    ensures Consumed(l, q, d, Consume(q, d, room), room, j, k)
  {
    SearchOk(dir, l, q, d, j, k);
    if d.dirCookie == 0 { CookieInjective(l, k, 0); } else { LocateOnSegment(dir, l, q, j, k); ShortcutIsExact(q, d.dirCookie); }
  }

  // ------------------------------------------------ the page that is found

  // A page in its slot that belongs to this generation and starts at the cookie.
  predicate Holds(dir: Dir, pages: Pages, cookie: Cookie) {
    var slot := dir.slotOf(cookie);
    && slot in pages && pages[slot].changeAttr == dir.changeAttr
    && cookie == if pages[slot].entries == [] then pages[slot].lastCookie else pages[slot].entries[0].cookie
  }

  // Such a page is taken as it is, unless it is full and the cache is to be cleared; otherwise a new
  // one is started there.
  lemma WantedIs(dir: Dir, pages: Pages, cookie: Cookie, clear: bool)
    ensures var p := Wanted(dir, pages, cookie, clear);
      if Holds(dir, pages, cookie) && !(clear && pages[dir.slotOf(cookie)].full) then p == pages[dir.slotOf(cookie)]
      else p.entries == [] && p.lastCookie == cookie && !p.full && !p.isEof && p.ordered && p.changeAttr == dir.changeAttr
  {
  }

  // ------------------------------------------------ the streams

  // Where the next entry comes from.
  function Position(d: Stream): nat { d.from + |d.emitted| }

  lemma OnlyEmits(p: Page, d: Stream, room: nat)
    ensures Consume(p, d, room).from == d.from
  {
    match Search(p, d).outcome
    case Found(i) =>
      if i < |p.entries| { EmitFrom(p, Search(p, d).stream, i, Search(p, d).stream.dirCookie == 0, room); }
    case _ =>
  }

  // The seek that the log shows last.  A seek to where the stream stands, or past the end, is none.
  function LastSeek(dir: Dir, l: Listing, s: State, es: seq<Event>, file: nat): nat {
    if es == [] then 0
    else
      var before, e := es[..|es|-1], es[|es|-1];
      var t := Run(dir, l, s, before);
      if e.Seek? && e.file == file && file in t.streams && e.to <= |l| && e.to != Position(t.streams[file]) then e.to
      else LastSeek(dir, l, s, before, file)
  }

  lemma SeekIs(dir: Dir, l: Listing, t: State, file: nat, to: nat)
    requires Proper(l) && Inv(dir, l, t) && file in t.streams
    ensures var d, d' := t.streams[file], Step(dir, l, t, Seek(file, to)).streams;
      && file in d'
      && d'[file] ==
         if to <= |l| && to != Position(d) then Stream(CookieAt(l, to), CookieAt(l, to), false, to, []) else d
  {
    var d := t.streams[file];
    var j, k :| Stands(l, d, j, k);
    if to <= |l| && CookieAt(l, to) == d.dirCookie { CookieInjective(l, to, k); }
  }

  lemma AdvanceStreams(dir: Dir, l: Listing, t: State, e: Event, file: nat)
    requires e.Advance?
    ensures var ds, ds' := t.streams, Step(dir, l, t, e).streams;
      && (file in ds' <==> file in ds) && (file in ds ==> ds'[file].from == ds[file].from)
      && (file in ds && e.file != file ==> ds'[file] == ds[file])
  {
    hide Fetched, Consume;
    if e.file in t.streams && !t.streams[e.file].eof {
      var d := t.streams[e.file];
      var pages := Fetched(dir, l, t.pages, d, e.clear, e.count, e.eof, e.grabs);
      var slot := dir.slotOf(d.lastCookie);
      if slot in pages { OnlyEmits(pages[slot], d, e.room); }
    }
  }

  // What a step does to the streams, other than handing out entries.
  ghost predicate StreamLaw(l: Listing, e: Event, ds: map<nat, Stream>, ds': map<nat, Stream>, file: nat) {
    && (file in ds' <==> file in ds || e == Open(file))
    && (file !in ds && e == Open(file) ==> ds'[file] == Stream(0, 0, false, 0, []))
    && (file in ds ==>
         if e.Seek? && e.file == file && e.to <= |l| && e.to != Position(ds[file])
         then ds'[file].from == e.to && ds'[file].emitted == [] && !ds'[file].eof
         else ds'[file].from == ds[file].from)
    && (file in ds && !(e.Seek? && e.file == file) && !(e.Advance? && e.file == file) ==>
         ds'[file] == if e == Rewind(file) then ds[file].(lastCookie := 0) else ds[file])
  }

  lemma StepStreams(dir: Dir, l: Listing, t: State, e: Event, file: nat)
    requires Proper(l) && Inv(dir, l, t)
    ensures StreamLaw(l, e, t.streams, Step(dir, l, t, e).streams, file)
  {
    hide Step, Inv;
    if e.Seek? && e.file == file && file in t.streams {
      SeekIs(dir, l, t, file, e.to);
    } else if e.Advance? {
      AdvanceStreams(dir, l, t, e, file);
    } else {
      OtherStreams(dir, l, t, e, file);
    }
  }

  lemma OtherStreams(dir: Dir, l: Listing, t: State, e: Event, file: nat)
    requires !e.Advance? && (e.Seek? && e.file == file ==> file !in t.streams)
    ensures StreamLaw(l, e, t.streams, Step(dir, l, t, e).streams, file)
  {
    hide Fetched;
  }

  // A stream is there once it was opened, and reads from where the log shows the last seek.
  lemma {:induction false} ReadsFromLastSeek(dir: Dir, l: Listing, s: State, es: seq<Event>, file: nat)
    requires Proper(l) && dir.maxEntries > 0 && Init(dir, s)
    ensures var t := Run(dir, l, s, es);
      && (file in t.streams <==> Open(file) in es)
      && (file in t.streams ==> t.streams[file].from == LastSeek(dir, l, s, es, file))
      && (file !in t.streams ==> LastSeek(dir, l, s, es, file) == 0)
  {
    if es != [] {
      hide Step, Inv;
      var before, e := es[..|es|-1], es[|es|-1];
      assert es == before + [e];
      RunInv(dir, l, s, before);
      ReadsFromLastSeek(dir, l, s, before, file);
      StepStreams(dir, l, Run(dir, l, s, before), e, file);
    }
  }

  // A fill that fails leaves the streams alone, and on the page what arrived before it failed.
  lemma FailedFillIs(dir: Dir, l: Listing, s: State, es: seq<Event>, e: Event, j: nat)
    requires Proper(l) && dir.maxEntries > 0 && Init(dir, s) && e.FailedFill?
    requires e.file in Run(dir, l, s, es).streams && !Run(dir, l, s, es).streams[e.file].eof
    requires j <= |l| && CookieAt(l, j) == Run(dir, l, s, es).streams[e.file].lastCookie
    ensures var t, t' := Run(dir, l, s, es), Run(dir, l, s, es + [e]);
      var cookie := t.streams[e.file].lastCookie;
      var slot := dir.slotOf(cookie);
      t'.streams == t.streams && slot in t'.pages
      && PageIs(dir, l, Wanted(dir, t.pages, cookie, e.clear), t'.pages[slot], j, e.count, false)
  {
    hide Fetched, PageIs, Wanted;
    var t := Run(dir, l, s, es);
    assert (es + [e])[..|es|] == es;
    RunInv(dir, l, s, es);
    FetchedIs(dir, l, t.pages, t.streams[e.file], e.clear, e.count, false, e.grabs, j);
  }

  // An eviction takes its page and nothing else.
  lemma Evicted(dir: Dir, l: Listing, t: State, slot: nat, other: nat)
    ensures var t' := Step(dir, l, t, Evict(slot));
      && t'.streams == t.streams && slot !in t'.pages
      && (other != slot ==> (other in t'.pages <==> other in t.pages) && (other in t.pages ==> t'.pages[other] == t.pages[other]))
  {
  }

  // ------------------------------------------------ the ordered flag

  // The flag that enables the range check is set exactly while the cookies rise.
  ghost predicate OrderedExact(p: Page) {
    p.ordered <==>
      && (forall i, j :: 0 <= i < j < |p.entries| ==> p.entries[i].cookie < p.entries[j].cookie)
      && (forall i :: 0 <= i < |p.entries| ==> p.entries[i].cookie < p.lastCookie)
  }

  lemma AppendExact(p: Page, e: ServerEntry, maxEntries: nat)
    requires OrderedExact(p)
    ensures OrderedExact(Append(p, e, maxEntries).page)
  {
    var a := Append(p, e, maxEntries);
    if a.fits {
      var q := a.page;
      var n := |p.entries|;
      assert forall i :: 0 <= i < n ==> q.entries[i] == p.entries[i];
      assert q.entries[n].cookie == p.lastCookie;
    }
  }

  ghost predicate CacheExact(dir: Dir, pages: Pages) {
    forall s :: s in pages && pages[s].changeAttr == dir.changeAttr ==> OrderedExact(pages[s])
  }

  lemma StoreExact(dir: Dir, pages: Pages, slot: nat, p: Page)
    requires CacheExact(dir, pages) && (p.changeAttr == dir.changeAttr ==> OrderedExact(p))
    ensures CacheExact(dir, pages[slot := p])
  {
  }

  lemma NextExact(dir: Dir, pages: Pages, cookie: Cookie)
    requires CacheExact(dir, pages)
    ensures OrderedExact(Validated(dir, pages, cookie)) && OrderedExact(NextPage(dir, pages, cookie))
  {
  }

  lemma {:induction false} FillExact(dir: Dir, pages: Pages, first: nat, cur: nat, reply: seq<ServerEntry>, eof: bool, grabs: nat)
    requires CacheExact(dir, pages) && cur in pages && pages[cur].changeAttr == dir.changeAttr
    ensures CacheExact(dir, Fill(dir, pages, first, cur, reply, eof, grabs))
    decreases |reply|
  {
    hide OrderedExact, CacheExact;
    CurExact(dir, pages, cur);
    if reply == [] {
      EofExact(pages[cur]);
      StoreExact(dir, pages, cur, SetEof(pages[cur]));
    } else {
      AppendExact(pages[cur], reply[0], dir.maxEntries);
      var a := Append(pages[cur], reply[0], dir.maxEntries);
      var stored := pages[cur := a.page];
      StoreExact(dir, pages, cur, a.page);
      if a.fits {
        FillExact(dir, stored, first, cur, reply[1..], eof, grabs);
      } else {
        FillNextExact(dir, stored, first, cur, reply, eof, grabs);
      }
    }
  }

  lemma CurExact(dir: Dir, pages: Pages, cur: nat)
    requires CacheExact(dir, pages) && cur in pages && pages[cur].changeAttr == dir.changeAttr
    ensures OrderedExact(pages[cur])
  {
  }

  lemma EofExact(p: Page)
    requires OrderedExact(p)
    ensures OrderedExact(SetEof(p))
  {
  }

  lemma {:induction false} FillNextExact(dir: Dir, pages: Pages, first: nat, cur: nat, reply: seq<ServerEntry>,
                                         eof: bool, grabs: nat)
    requires CacheExact(dir, pages) && cur in pages && reply != []
    ensures CacheExact(dir, FillNext(dir, pages, first, cur, reply, eof, grabs))
    decreases |reply|, 0
  {
    hide OrderedExact, CacheExact;
    var cookie := pages[cur].lastCookie;
    var slot := dir.slotOf(cookie);
    var p := NextPage(dir, pages, cookie);
    NextExact(dir, pages, cookie);
    AppendExact(p, reply[0], dir.maxEntries);
    var b := Append(p, reply[0], dir.maxEntries);
    StoreExact(dir, pages, slot, b.page);
    if !(grabs == 0 || slot == first || slot == cur) && b.fits {
      FillExact(dir, pages[slot := b.page], first, slot, reply[1..], eof, grabs - 1);
    }
  }

  lemma FetchedExact(dir: Dir, l: Listing, pages: Pages, d: Stream, clear: bool, count: nat, eof: bool, grabs: nat)
    requires CacheExact(dir, pages)
    ensures CacheExact(dir, Fetched(dir, l, pages, d, clear, count, eof, grabs))
  {
    hide OrderedExact, CacheExact, Fill;
    var slot := dir.slotOf(d.lastCookie);
    var p := Wanted(dir, pages, d.lastCookie, clear);
    NextExact(dir, pages, d.lastCookie);
    InitExact(d.lastCookie, dir.changeAttr);
    StoreExact(dir, pages, slot, p);
    if !p.full {
      var rest := Rest(l, p.lastCookie);
      var n := Min(count, |rest|);
      FillExact(dir, pages[slot := p], slot, slot, rest[..n], eof && n == |rest|, grabs);
    }
  }

  lemma InitExact(cookie: Cookie, changeAttr: int)
    ensures OrderedExact(InitPage(cookie, changeAttr))
  {
  }

  // Over every run the range check is available exactly on the pages whose cookies rise.
  lemma {:induction false} FlagIsExact(dir: Dir, l: Listing, s: State, es: seq<Event>)
    requires Init(dir, s)
    ensures CacheExact(dir, Run(dir, l, s, es).pages)
  {
    if es != [] {
      hide OrderedExact, Fetched, Consume;
      FlagIsExact(dir, l, s, es[..|es|-1]);
      var t, e := Run(dir, l, s, es[..|es|-1]), es[|es|-1];
      if (e.Advance? || e.FailedFill?) && e.file in t.streams {
        FetchedExact(dir, l, t.pages, t.streams[e.file], e.clear, e.count, e.Advance? && e.eof, e.grabs);
      }
    }
  }
}
