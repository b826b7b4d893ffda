/**
 The loops of the readdir code, on a cache and a descriptor that are updated in place.
 Each method is proved to do what its specification function in Readdir says, so the
 exactly-once theorem there is about these loops.
 */
module ReaddirLoops {
  import opened Readdir

  class PageCache {
    var pages: Pages

    constructor ()
      ensures pages == map[]
    {
      pages := map[];
    }

    // nfs_readdir_folio_filler: spread one decoded reply over the page in slot first and the
    // pages after it.
    method FolioFiller(dir: Dir, first: nat, reply: seq<ServerEntry>, eof: bool, grabs: nat)
      requires first in pages
      modifies this
      ensures pages == Fill(dir, old(pages), first, first, reply, eof, grabs)
    {
      var i, cur, left := 0, first, grabs;
      while i < |reply|
        invariant i <= |reply| && cur in pages
        invariant Fill(dir, pages, first, cur, reply[i..], eof, left)
               == Fill(dir, old(pages), first, first, reply, eof, grabs)
      {
        ghost var todo := reply[i..];
        assert todo[0] == reply[i] && todo[1..] == reply[i+1..];
        var a := Append(pages[cur], reply[i], dir.maxEntries);
        pages := pages[cur := a.page];
        if !a.fits {
          var slot := dir.slotOf(a.page.lastCookie);
          if left == 0 || slot == first || slot == cur { return; }
          var b := Append(NextPage(dir, pages, a.page.lastCookie), reply[i], dir.maxEntries);
          pages := pages[slot := b.page];
          if !b.fits { return; }
          cur, left := slot, left - 1;
        }
        i := i + 1;
      }
      if eof { pages := pages[cur := SetEof(pages[cur])]; }
    }

    // nfs_readdir_folio_get_cached and, unless the page is full, nfs_readdir_xdr_to_array.
    method FetchPage(dir: Dir, server: Listing, d: Stream, clear: bool, count: nat, eof: bool, grabs: nat)
      modifies this
      ensures pages == Fetched(dir, server, old(pages), d, clear, count, eof, grabs)
    {
      var slot := dir.slotOf(d.lastCookie);
      var p := Wanted(dir, pages, d.lastCookie, clear);
      pages := pages[slot := p];
      if !p.full {
        var rest := Rest(server, p.lastCookie);
        var n := Min(count, |rest|);
        FolioFiller(dir, slot, rest[..n], eof && n == |rest|, grabs);
      }
    }
  }

  class Descriptor {
    var dirCookie: Cookie
    var lastCookie: Cookie
    var eof: bool
    var eob: bool
    var from: nat
    var emitted: seq<Dirent>

    constructor (d: Stream)
      ensures Value() == d && !eob
    {
      dirCookie, lastCookie, eof, eob, from, emitted := d.dirCookie, d.lastCookie, d.eof, false, d.from, d.emitted;
    }

    function Value(): Stream
      reads this
    {
      Stream(dirCookie, lastCookie, eof, from, emitted)
    }

    method SeekNextArray(p: Page)
      modifies this`lastCookie
      ensures Value() == SeekNext(p, old(Value()))
    {
      lastCookie := if p.full then p.lastCookie else IndexCookie(p);
    }

    method SearchForCookie(p: Page) returns (outcome: Outcome)
      modifies this`lastCookie, this`eof
      ensures SearchResult(outcome, Value()) == Readdir.SearchForCookie(p, old(Value()))
    {
      if InRange(p, dirCookie) {
        var i := 0;
        while i < |p.entries|
          invariant i <= |p.entries| && unchanged(this)
          invariant Locate(p, dirCookie, i) == Locate(p, dirCookie, 0)
        {
          if p.entries[i].cookie == dirCookie { return Found(i); }
          i := i + 1;
        }
      }
      if !p.isEof {
        SeekNextArray(p);
        return Again;
      }
      if dirCookie == p.lastCookie {
        eof := true;
        return EndOfDir;
      }
      return Lost;
    }

    method SearchArray(p: Page) returns (outcome: Outcome)
      modifies this`dirCookie, this`lastCookie, this`eof
      ensures SearchResult(outcome, Value()) == Search(p, old(Value()))
    {
      if dirCookie != 0 {
        outcome := SearchForCookie(p);
      } else if p.entries != [] {
        dirCookie := p.entries[0].cookie;
        outcome := Found(0);
      } else if p.isEof {
        eof := true;
        outcome := EndOfDir;
      } else {
        SeekNextArray(p);
        outcome := Again;
      }
    }

    // nfs_do_filldir: room is how many entries the user's buffer takes.
    method DoFilldir(p: Page, index: nat, room: nat)
      requires index <= |p.entries| && !eof && !eob
      modifies this
      ensures Value() == Emit(p, old(Value()), index, old(dirCookie) == 0, room)
      ensures p.isEof ==> eof == !eob
      ensures !p.isEof ==> !eof
    {
      var first := dirCookie == 0;
      var i, left := index, room;
      while i < |p.entries|
        invariant index <= i <= |p.entries| && !eof && !eob
        invariant Emit(p, Value(), i, first, left) == Emit(p, old(Value()), index, first, room)
      {
        if (first && i > FIRST_EMIT_LIMIT) || left == 0 {
          eob := true;
          break;
        }
        emitted := emitted + [p.entries[i].dirent];
        if i == |p.entries| - 1 {
          dirCookie := p.lastCookie;
          SeekNextArray(p);
        } else {
          dirCookie := p.entries[i+1].cookie;
          lastCookie := p.entries[0].cookie;
        }
        i, left := i + 1, left - 1;
      }
      if p.isEof { eof := !eob; }
    }
  }

  // One turn of nfs_readdir's loop: fetch, search, emit.  It is the Advance step of the model.
  method Turn(dir: Dir, server: Listing, cache: PageCache, d: Descriptor, ghost file: nat,
              clear: bool, count: nat, eof: bool, grabs: nat, room: nat)
    requires !d.eof && !d.eob
    modifies cache, d
    ensures State(cache.pages, map[file := d.Value()])
      == Step(dir, server, State(old(cache.pages), map[file := old(d.Value())]),
              Advance(file, clear, count, eof, grabs, room))
  {
    hide Fetched, EmitOne;
    var slot := dir.slotOf(d.lastCookie);
    cache.FetchPage(dir, server, d.Value(), clear, count, eof, grabs);
    if slot in cache.pages {
      var p := cache.pages[slot];
      LocateBound(p, d.dirCookie);
      var outcome := d.SearchArray(p);
      if outcome.Found? { d.DoFilldir(p, outcome.index, room); }
    }
  }

  lemma LocateBound(p: Page, cookie: Cookie)
    ensures Locate(p, cookie, 0).Some? ==> Locate(p, cookie, 0).value < |p.entries|
  {
    LocateMeaning(p, cookie, 0);
  }
}
