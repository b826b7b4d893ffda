/**
 Every answer of the LISTXATTRS decoder, told from the bytes of the reply: which replies are
 delivered, which are too long and which are cut short.
 */
module ListErrors {
  import opened Wrappers
  import opened ListXattr

  // A name of legal length stands at pos.
  predicate NameAt(b: seq<Byte>, pos: nat, name: seq<Byte>) {
    && |name| <= NAME_MAX - |PREFIX| && pos + 4 + Pad4(|name|) <= |b|
    && Word(b, pos) == |name| && b[pos+4..pos+4+|name|] == name
  }

  // The names stand one after another from pos on.
  predicate NamesAt(b: seq<Byte>, pos: nat, names: seq<seq<Byte>>)
    decreases |names|
  {
    names == [] || (NameAt(b, pos, names[0]) && NamesAt(b, pos + 4 + Pad4(|names[0]|), names[1..]))
  }

  // The list fits what room there is.
  predicate Fits(names: seq<seq<Byte>>, room: Option<nat>) { room.Some? ==> ListSize(names) <= room.value }

  // The bytes end before the name at pos does.
  predicate CutShort(b: seq<Byte>, pos: nat) {
    pos + 4 > |b| || (Word(b, pos) <= NAME_MAX - |PREFIX| && pos + 4 + Pad4(Word(b, pos)) > |b|)
  }

  // The name at pos is longer than names may be, or than the room left behind the names before it.
  predicate TooLong(b: seq<Byte>, pos: nat, before: seq<seq<Byte>>, room: Option<nat>) {
    && pos + 4 <= |b|
    && (|| Word(b, pos) > NAME_MAX - |PREFIX|
        || (&& pos + 4 + Pad4(Word(b, pos)) <= |b|
            && room.Some? && ListSize(before) + Word(b, pos) + |PREFIX| + 1 > room.value))
  }

  datatype Reading = All(names: seq<seq<Byte>>) | Cut(names: seq<seq<Byte>>) | Long(names: seq<seq<Byte>>)

  // What the reply offers from pos on: all of the names, or those before the first one that is cut
  // short or too long.
  ghost predicate Offers(b: seq<Byte>, pos: nat, count: nat, room: Option<nat>, r: Reading) {
    && NamesAt(b, pos, r.names) && Fits(r.names, room)
    && match r
       case All(names) => |names| == count
       case Cut(names) => |names| < count && CutShort(b, pos + NamesSize(names))
       case Long(names) => |names| < count && TooLong(b, pos + NamesSize(names), names, room)
  }

  predicate Tells(w: Walk, pos: nat, r: Reading) {
    match r
    case All(names) => w == Names(names, pos + NamesSize(names))
    case Cut(_) => w == Stopped(EIO)
    case Long(_) => w == Stopped(ERANGE)
  }

  function Cons(name: seq<Byte>, r: Reading): Reading {
    match r
    case All(names) => All([name] + names)
    case Cut(names) => Cut([name] + names)
    case Long(names) => Long([name] + names)
  }

  lemma ConsSizes(name: seq<Byte>, names: seq<seq<Byte>>)
    ensures ListSize([name] + names) == |name| + |PREFIX| + 1 + ListSize(names)
    ensures NamesSize([name] + names) == 4 + Pad4(|name|) + NamesSize(names)
  {
    assert ([name] + names)[1..] == names;
  }

  lemma OffersCons(b: seq<Byte>, pos: nat, count: nat, room: Option<nat>, name: seq<Byte>, r: Reading)
    requires count > 0 && NameAt(b, pos, name) && (room.Some? ==> |name| + |PREFIX| + 1 <= room.value)
    requires Offers(b, pos + 4 + Pad4(|name|), count - 1, Less(room, name), r)
    ensures Offers(b, pos, count, room, Cons(name, r))
  {
    hide NameAt;
    ConsSizes(name, r.names);
    assert ([name] + r.names)[1..] == r.names;
  }

  // There is always such a reading, and the walk over the names is it.
  lemma {:induction false} WalkOffers(b: seq<Byte>, pos: nat, count: nat, room: Option<nat>) returns (r: Reading)
    ensures Offers(b, pos, count, room, r) && Tells(WalkNames(b, pos, count, room), pos, r)
    decreases count
  {
    hide Offers, Problem, Tells, WalkNames;
    if count == 0 {
      r := All([]);
      NothingToRead(b, pos, room);
    } else if Problem(b, pos, room).Some? {
      r := if CutShort(b, pos) then Cut([]) else Long([]);
      StopsHere(b, pos, count, room, r);
    } else {
      NoProblem(b, pos, room);
      var name := NameOf(b, pos);
      var s := WalkOffers(b, pos + 4 + Pad4(|name|), count - 1, Less(room, name));
      OffersCons(b, pos, count, room, name, s);
      r := Cons(name, s);
      TellsCons(b, pos, count, room, s);
    }
  }

  lemma NothingToRead(b: seq<Byte>, pos: nat, room: Option<nat>)
    ensures Offers(b, pos, 0, room, All([])) && Tells(WalkNames(b, pos, 0, room), pos, All([]))
  {
  }

  lemma StopsHere(b: seq<Byte>, pos: nat, count: nat, room: Option<nat>, r: Reading)
    requires count > 0 && Problem(b, pos, room).Some? && r == if CutShort(b, pos) then Cut([]) else Long([])
    ensures Offers(b, pos, count, room, r) && Tells(WalkNames(b, pos, count, room), pos, r)
  {
  }

  lemma NoProblem(b: seq<Byte>, pos: nat, room: Option<nat>)
    requires Problem(b, pos, room).None?
    ensures Problem(b, pos, None).None? && NameAt(b, pos, NameOf(b, pos))
    ensures room.Some? ==> |NameOf(b, pos)| + |PREFIX| + 1 <= room.value
  {
  }

  lemma TellsCons(b: seq<Byte>, pos: nat, count: nat, room: Option<nat>, s: Reading)
    requires count > 0 && Problem(b, pos, None).None? && Problem(b, pos, room).None?
    requires var name := NameOf(b, pos);
      Tells(WalkNames(b, pos + 4 + Pad4(|name|), count - 1, Less(room, name)), pos + 4 + Pad4(|name|), s)
    ensures Tells(WalkNames(b, pos, count, room), pos, Cons(NameOf(b, pos), s))
  {
    hide Problem;
    ConsSizes(NameOf(b, pos), s.names);
  }

  lemma SameName(b: seq<Byte>, pos: nat, x: seq<Byte>, y: seq<Byte>)
    requires NameAt(b, pos, x) && NameAt(b, pos, y)
    ensures x == y
  {
  }

  // And there is only one.
  lemma {:induction false} OffersOnce(b: seq<Byte>, pos: nat, count: nat, room: Option<nat>, r: Reading, q: Reading)
    requires Offers(b, pos, count, room, r) && Offers(b, pos, count, room, q)
    ensures r == q
    decreases count
  {
    hide Offers;
    if r.names == [] {
      OneEmpty(b, pos, count, room, r, q);
    } else if q.names == [] {
      OneEmpty(b, pos, count, room, q, r);
    } else {
      TailOffers(b, pos, count, room, r);
      TailOffers(b, pos, count, room, q);
      SameName(b, pos, r.names[0], q.names[0]);
      var name := r.names[0];
      OffersOnce(b, pos + 4 + Pad4(|name|), count - 1, Less(room, name), Tail(r), Tail(q));
      assert r.names == [name] + Tail(r).names && q.names == [name] + Tail(q).names;
    }
  }

  function Tail(r: Reading): Reading
    requires r.names != []
  {
    r.(names := r.names[1..])
  }

  lemma TailOffers(b: seq<Byte>, pos: nat, count: nat, room: Option<nat>, r: Reading)
    requires Offers(b, pos, count, room, r) && r.names != []
    ensures count > 0 && NameAt(b, pos, r.names[0]) && (room.Some? ==> |r.names[0]| + |PREFIX| + 1 <= room.value)
    ensures Offers(b, pos + 4 + Pad4(|r.names[0]|), count - 1, Less(room, r.names[0]), Tail(r))
  {
    assert ListSize(r.names) == |r.names[0]| + |PREFIX| + 1 + ListSize(r.names[1..]);
  }

  lemma OneEmpty(b: seq<Byte>, pos: nat, count: nat, room: Option<nat>, r: Reading, q: Reading)
    requires Offers(b, pos, count, room, r) && Offers(b, pos, count, room, q) && r.names == []
    ensures q == r
  {
    RestSize(q.names);
  }

  lemma RestSize(names: seq<seq<Byte>>)
    ensures names != [] ==> ListSize(names) == |names[0]| + |PREFIX| + 1 + ListSize(names[1..])
  {
  }

  // What the caller is told about a list that is too long: with the largest buffer there is, that it
  // cannot be had at all.
  function TooLongFor(length: nat): Error { if length == LIST_MAX then E2BIG else ERANGE }

  // The decoder's answer to every reply.
  lemma DecodeAnswers(status: Status, b: seq<Byte>, length: nat, room: Option<nat>, r: Reading)
    requires |b| >= 12 ==> Offers(b, 12, Word(b, 8), room, r)
    ensures Decode(TooSmall, b, length, room) == Failed(TooLongFor(length))
    ensures Decode(NoXattr, b, length, room) == Listed((0, 0), [], true)
    ensures status.Bad? ==> Decode(status, b, length, room) == Failed(Other(status.code))
    ensures var d := Decode(Success, b, length, room);
      if |b| < 12 || r.Cut? then d == Failed(EIO)
      else if r.Long? then d == Failed(TooLongFor(length))
      else
        var end := 12 + NamesSize(r.names);
        if end + 4 > |b| then d == Failed(EIO) else d == Listed((Word(b, 0), Word(b, 4)), r.names, Word(b, end) != 0)
  {
    if |b| >= 12 {
      var q := WalkOffers(b, 12, Word(b, 8), room);
      OffersOnce(b, 12, Word(b, 8), room, r, q);
    }
  }
}
