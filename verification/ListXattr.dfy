/**
 LISTXATTRS (section 8.4.3 of RFC 8276): the size of the reply the client must allow for, and the
 decoder that turns replies into the NUL-terminated list of "user." names that listxattr returns.
 */
module ListXattr {
  import opened Wrappers

  type Byte = n: int | 0 <= n < 256

  const PREFIX: seq<Byte> := [117, 115, 101, 114, 46] // "user."
  const NAME_MAX := 255
  const LIST_MAX := 65536
  const TWO32 := 0x1_0000_0000

  // XDR stores bytes in whole words of four.
  function Pad4(n: nat): (r: nat)
    ensures n <= r < n + 4 && r % 4 == 0
  {
    if n == 0 then 0 else if n <= 4 then 4 else 4 + Pad4(n - 4)
  }

  // ------------------------------------------------ the size bound

  // nfs42_listxattr_xdrsize, in 32-bit arithmetic
  function XdrSize(buflen: nat): nat {
    var size := ((8 * buflen) % TWO32 / (|PREFIX| + 2) + 4) % TWO32;
    (size + 3) % TWO32 / 4 * 4
  }

  // What the names take up in the caller's list and in the reply.
  function ListSize(names: seq<seq<Byte>>): nat {
    if names == [] then 0 else |names[0]| + |PREFIX| + 1 + ListSize(names[1..])
  }

  function NamesSize(names: seq<seq<Byte>>): nat {
    if names == [] then 0 else 4 + Pad4(|names[0]|) + NamesSize(names[1..])
  }

  lemma NameRatio(n: nat)
    ensures 7 * (4 + Pad4(n)) <= 8 * (n + 6)
  {
  }

  lemma {:induction false} NamesRatio(names: seq<seq<Byte>>)
    ensures 7 * NamesSize(names) <= 8 * ListSize(names)
  {
    if names != [] {
      NameRatio(|names[0]|);
      NamesRatio(names[1..]);
    }
  }

  // The names and the end-of-file word of every list that fits the buffer fit the computed size.
  lemma ReplyFits(names: seq<seq<Byte>>, buflen: nat)
    requires buflen < 0x2000_0000 && ListSize(names) <= buflen
    ensures NamesSize(names) + 4 <= XdrSize(buflen) && XdrSize(buflen) % 4 == 0
  {
    NamesRatio(names);
    XdrSizeIs(buflen);
    DivBelow(NamesSize(names), 8 * buflen);
  }

  lemma DivBelow(n: nat, m: nat)
    requires 7 * n <= m
    ensures n <= m / 7
  {
  }

  lemma XdrSizeIs(buflen: nat)
    requires buflen < 0x2000_0000
    ensures XdrSize(buflen) % 4 == 0
    ensures 8 * buflen / 7 + 4 <= XdrSize(buflen) <= 8 * buflen / 7 + 7
  {
    var q := 8 * buflen / 7;
    assert (8 * buflen) % TWO32 == 8 * buflen;
    assert (q + 4) % TWO32 == q + 4 && (q + 7) % TWO32 == q + 7;
  }

  // One-byte names, the worst case, leave less than one spare name and the rounding unused.
  lemma {:induction false} OneByteNames(names: seq<seq<Byte>>)
    requires forall i :: 0 <= i < |names| ==> |names[i]| == 1
    ensures ListSize(names) == 7 * |names| && NamesSize(names) == 8 * |names|
  {
    if names != [] { OneByteNames(names[1..]); }
  }

  lemma BoundIsTight(names: seq<seq<Byte>>, buflen: nat)
    requires buflen < 0x2000_0000 && forall i :: 0 <= i < |names| ==> |names[i]| == 1
    requires buflen - 7 < ListSize(names) <= buflen
    ensures XdrSize(buflen) - (NamesSize(names) + 4) < 12
  {
    OneByteNames(names);
    XdrSizePlain(buflen);
  }

  lemma XdrSizePlain(buflen: nat)
    requires buflen < 0x2000_0000
    ensures 7 * XdrSize(buflen) <= 8 * buflen + 49
  {
    XdrSizeIs(buflen);
  }

  // The arithmetic wraps from 2^29 on, and then the size is too small for some list that fits.
  lemma BoundFailsWhenWrapped(buflen: nat, names: seq<seq<Byte>>)
    requires 0x2000_0000 <= buflen < TWO32
    requires |names| == buflen / 7 && forall i :: 0 <= i < |names| ==> |names[i]| == 1
    ensures ListSize(names) <= buflen && NamesSize(names) + 4 > XdrSize(buflen)
  {
    OneByteNames(names);
    assert (8 * buflen) % TWO32 <= 8 * buflen - TWO32;
  }

  lemma BoundHoldsIff(buflen: nat)
    requires buflen < TWO32
    ensures (forall names :: ListSize(names) <= buflen ==> NamesSize(names) + 4 <= XdrSize(buflen))
       <==> buflen < 0x2000_0000
  {
    if buflen < 0x2000_0000 {
      forall names | ListSize(names) <= buflen ensures NamesSize(names) + 4 <= XdrSize(buflen) {
        ReplyFits(names, buflen);
      }
    } else {
      var names: seq<seq<Byte>> := seq(buflen / 7, _ => [97]);
      BoundFailsWhenWrapped(buflen, names);
    }
  }

  // ------------------------------------------------ the wire format

  function Join(a: int, b: int, c: int, d: int): int { ((a * 256 + b) * 256 + c) * 256 + d }

  function Word(b: seq<Byte>, pos: nat): nat
    requires pos + 4 <= |b|
  {
    Join(b[pos], b[pos+1], b[pos+2], b[pos+3])
  }

  function WordBytes(n: nat): (b: seq<Byte>)
    requires n < TWO32
    ensures |b| == 4 && Word(b, 0) == n
  {
    var m := n / 256;
    var k := m / 256;
    [k / 256, k % 256, m % 256, n % 256]
  }

  lemma WordAt(b: seq<Byte>, pos: nat, n: nat)
    requires n < TWO32 && pos + 4 <= |b| && b[pos..pos+4] == WordBytes(n)
    ensures Word(b, pos) == n
  {
    var w := b[pos..pos+4];
    assert Word(b, pos) == Join(w[0], w[1], w[2], w[3]) == Word(w, 0);
  }

  function Zeros(n: nat): seq<Byte> { seq(n, _ => 0) }

  function NameBytes(name: seq<Byte>): seq<Byte>
    requires |name| < TWO32
  {
    WordBytes(|name|) + name + Zeros(Pad4(|name|) - |name|)
  }

  function NamesBytes(names: seq<seq<Byte>>): seq<Byte>
    requires forall i :: 0 <= i < |names| ==> |names[i]| < TWO32
  {
    if names == [] then [] else NameBytes(names[0]) + NamesBytes(names[1..])
  }

  // A reply body: cookie, names, end-of-file word.
  function Encode(cookie: (nat, nat), names: seq<seq<Byte>>, eof: bool): seq<Byte>
    requires cookie.0 < TWO32 && cookie.1 < TWO32 && |names| < TWO32
    requires forall i :: 0 <= i < |names| ==> |names[i]| < TWO32
  {
    WordBytes(cookie.0) + WordBytes(cookie.1) + WordBytes(|names|) + NamesBytes(names)
      + WordBytes(if eof then 1 else 0)
  }

  // ------------------------------------------------ the decoder

  datatype Error = EIO | ERANGE | E2BIG | Other(code: int)

  datatype Walk = Stopped(error: Error) | Names(names: seq<seq<Byte>>, pos: nat)

  // The name at pos, what is wrong with it if anything, and where the next one begins.
  function Problem(b: seq<Byte>, pos: nat, room: Option<nat>): Option<Error> {
    if pos + 4 > |b| then Some(EIO)
    else if Word(b, pos) > NAME_MAX - |PREFIX| then Some(ERANGE)
    else if pos + 4 + Pad4(Word(b, pos)) > |b| then Some(EIO)
    else if room.Some? && Word(b, pos) + |PREFIX| + 1 > room.value then Some(ERANGE)
    else None
  }

  function NameOf(b: seq<Byte>, pos: nat): seq<Byte>
    requires Problem(b, pos, None).None?
  {
    b[pos+4..pos+4+Word(b, pos)]
  }

  function Less(room: Option<nat>, name: seq<Byte>): Option<nat>
    requires room.Some? ==> |name| + |PREFIX| + 1 <= room.value
  {
    if room.Some? then Some(room.value - (|name| + |PREFIX| + 1)) else None
  }

  // Read count names; with a buffer, stop at the first that no longer fits.
  function WalkNames(b: seq<Byte>, pos: nat, count: nat, room: Option<nat>): Walk
    decreases count
  {
    if count == 0 then Names([], pos)
    else
      var problem := Problem(b, pos, room);
      if problem.Some? then Stopped(problem.value)
      else
        var name := NameOf(b, pos);
        Then([name], WalkNames(b, pos + 4 + Pad4(|name|), count - 1, Less(room, name)))
  }

  function Then(names: seq<seq<Byte>>, w: Walk): Walk {
    if w.Names? then Names(names + w.names, w.pos) else w
  }

  datatype Reply = Failed(error: Error) | Listed(cookie: (nat, nat), names: seq<seq<Byte>>, eof: bool)

  // How the operation itself came back.
  datatype Status = Success | TooSmall | NoXattr | Bad(code: int)

  function Widen(e: Error, length: nat): Error { if e.ERANGE? && length == LIST_MAX then E2BIG else e }

  // decode_listxattrs; no cookie is stored when the file has no attributes at all.
  function Decode(status: Status, b: seq<Byte>, length: nat, room: Option<nat>): Reply {
    match status
    case TooSmall => Failed(Widen(ERANGE, length))
    case NoXattr => Listed((0, 0), [], true)
    case Bad(code) => Failed(Other(code))
    case Success =>
      if |b| < 12 then Failed(EIO) else
      var w := WalkNames(b, 12, Word(b, 8), room);
      if w.Stopped? then Failed(Widen(w.error, length))
      else if w.pos + 4 > |b| then Failed(EIO)
      else Listed((Word(b, 0), Word(b, 4)), w.names, Word(b, w.pos) != 0)
  }

  // x stands in b at pos.
  ghost predicate Stands(b: seq<Byte>, pos: nat, x: seq<Byte>) {
    pos + |x| <= |b| && b[pos..pos+|x|] == x
  }

  lemma StandsSplit(b: seq<Byte>, pos: nat, x: seq<Byte>, y: seq<Byte>)
    requires Stands(b, pos, x + y)
    ensures Stands(b, pos, x) && Stands(b, pos + |x|, y)
  {
    var z := b[pos..pos+|x + y|];
    assert b[pos..pos+|x|] == z[..|x|] == x;
    assert b[pos+|x|..pos+|x|+|y|] == z[|x|..] == y;
  }

  lemma NameStands(b: seq<Byte>, pos: nat, name: seq<Byte>)
    requires |name| <= NAME_MAX - |PREFIX| && Stands(b, pos, NameBytes(name))
    ensures Problem(b, pos, None).None? && NameOf(b, pos) == name
  {
    StandsSplit(b, pos, WordBytes(|name|) + name, Zeros(Pad4(|name|) - |name|));
    StandsSplit(b, pos, WordBytes(|name|), name);
    WordAt(b, pos, |name|);
  }

  // The names stand one after another from pos on.
  ghost predicate Holds(b: seq<Byte>, pos: nat, names: seq<seq<Byte>>)
    decreases |names|
  {
    names == [] ||
    (Problem(b, pos, None).None? && NameOf(b, pos) == names[0] && Holds(b, pos + 4 + Pad4(|names[0]|), names[1..]))
  }

  lemma {:induction false} WalkReads(b: seq<Byte>, pos: nat, names: seq<seq<Byte>>)
    requires Holds(b, pos, names)
    ensures WalkNames(b, pos, |names|, None) == Names(names, pos + NamesSize(names))
    decreases |names|
  {
    if names != [] {
      WalkReads(b, pos + 4 + Pad4(|names[0]|), names[1..]);
      assert [names[0]] + names[1..] == names;
    }
  }

  lemma {:induction false} EncodedHolds(b: seq<Byte>, pos: nat, names: seq<seq<Byte>>)
    requires forall i :: 0 <= i < |names| ==> |names[i]| <= NAME_MAX - |PREFIX|
    requires Stands(b, pos, NamesBytes(names))
    ensures Holds(b, pos, names)
    decreases |names|
  {
    if names != [] {
      StandsSplit(b, pos, NameBytes(names[0]), NamesBytes(names[1..]));
      NameStands(b, pos, names[0]);
      EncodedHolds(b, pos + 4 + Pad4(|names[0]|), names[1..]);
    }
  }

  // A buffer changes nothing but which lists are too long for it.
  lemma {:induction false} RoomDecides(b: seq<Byte>, pos: nat, count: nat, room: nat)
    ensures var w := WalkNames(b, pos, count, None);
      if w.Names? && ListSize(w.names) <= room then WalkNames(b, pos, count, Some(room)) == w
      else WalkNames(b, pos, count, Some(room)).Stopped?
    decreases count
  {
    if count > 0 {
      ProblemRoom(b, pos, room);
      if Problem(b, pos, None).None? {
        var name := NameOf(b, pos);
        var pos' := pos + 4 + Pad4(|name|);
        ThenSize(name, WalkNames(b, pos', count - 1, None));
        if |name| + 6 <= room { RoomDecides(b, pos', count - 1, room - (|name| + 6)); }
      }
    }
  }

  lemma ProblemRoom(b: seq<Byte>, pos: nat, room: nat)
    ensures Problem(b, pos, Some(room)).None? <==> Problem(b, pos, None).None? && |NameOf(b, pos)| + 6 <= room
  {
  }

  lemma ThenSize(name: seq<Byte>, w: Walk)
    ensures w.Names? ==> ListSize(Then([name], w).names) == |name| + 6 + ListSize(w.names)
  {
    if w.Names? { assert ([name] + w.names)[1..] == w.names; }
  }

  // Decoding a reply gives back what was encoded exactly when the list fits.
  lemma RoundTrip(cookie: (nat, nat), names: seq<seq<Byte>>, eof: bool, length: nat)
    requires cookie.0 < TWO32 && cookie.1 < TWO32 && |names| < TWO32
    requires forall i :: 0 <= i < |names| ==> |names[i]| <= NAME_MAX - |PREFIX|
    ensures Decode(Success, Encode(cookie, names, eof), length, None) == Listed(cookie, names, eof)
    ensures Decode(Success, Encode(cookie, names, eof), length, Some(length)) == Listed(cookie, names, eof)
       <==> ListSize(names) <= length
  {
    var b := Encode(cookie, names, eof);
    EncodeStands(cookie, names, eof);
    WordAt(b, 0, cookie.0);
    WordAt(b, 4, cookie.1);
    WordAt(b, 8, |names|);
    WordAt(b, 12 + |NamesBytes(names)|, if eof then 1 else 0);
    EncodedHolds(b, 12, names);
    WalkReads(b, 12, names);
    NamesBytesSize(names);
    RoomDecides(b, 12, |names|, length);
  }

  // A server may put every list that fits the caller's buffer into a reply of the size asked for
  // (the cookie and the count apart), and the client then reads all of it.
  lemma EverythingFits(cookie: (nat, nat), names: seq<seq<Byte>>, eof: bool, buflen: nat)
    requires cookie.0 < TWO32 && cookie.1 < TWO32 && |names| < TWO32 && buflen < 0x2000_0000
    requires forall i :: 0 <= i < |names| ==> |names[i]| <= NAME_MAX - |PREFIX|
    requires ListSize(names) <= buflen
    ensures |Encode(cookie, names, eof)| - 12 <= XdrSize(buflen)
    ensures Decode(Success, Encode(cookie, names, eof), buflen, Some(buflen)) == Listed(cookie, names, eof)
  {
    NamesBytesSize(names);
    ReplyFits(names, buflen);
    RoundTrip(cookie, names, eof, buflen);
  }

  lemma EncodeStands(cookie: (nat, nat), names: seq<seq<Byte>>, eof: bool)
    requires cookie.0 < TWO32 && cookie.1 < TWO32 && |names| < TWO32
    requires forall i :: 0 <= i < |names| ==> |names[i]| < TWO32
    ensures var b := Encode(cookie, names, eof);
      && |b| == 16 + |NamesBytes(names)|
      && Stands(b, 0, WordBytes(cookie.0)) && Stands(b, 4, WordBytes(cookie.1)) && Stands(b, 8, WordBytes(|names|))
      && Stands(b, 12, NamesBytes(names)) && Stands(b, 12 + |NamesBytes(names)|, WordBytes(if eof then 1 else 0))
  {
    var b := Encode(cookie, names, eof);
    var head, body := WordBytes(cookie.0) + WordBytes(cookie.1) + WordBytes(|names|), NamesBytes(names);
    var tail := WordBytes(if eof then 1 else 0);
    assert b == head + body + tail;
    assert b[0..|b|] == b;
    StandsSplit(b, 0, head + body, tail);
    StandsSplit(b, 0, head, body);
    StandsSplit(b, 0, WordBytes(cookie.0) + WordBytes(cookie.1), WordBytes(|names|));
    StandsSplit(b, 0, WordBytes(cookie.0), WordBytes(cookie.1));
  }

  lemma {:induction false} NamesBytesSize(names: seq<seq<Byte>>)
    requires forall i :: 0 <= i < |names| ==> |names[i]| < TWO32
    ensures |NamesBytes(names)| == NamesSize(names)
  {
    if names != [] { NamesBytesSize(names[1..]); }
  }

  // The list the caller sees.
  function Flatten(names: seq<seq<Byte>>): seq<Byte> {
    if names == [] then [] else PREFIX + names[0] + [0] + Flatten(names[1..])
  }

  lemma {:induction false} FlattenSize(names: seq<seq<Byte>>)
    ensures |Flatten(names)| == ListSize(names)
  {
    if names != [] { FlattenSize(names[1..]); }
  }

  lemma {:induction false} FlattenConcat(a: seq<seq<Byte>>, b: seq<seq<Byte>>)
    ensures Flatten(a + b) == Flatten(a) + Flatten(b)
    ensures ListSize(a + b) == ListSize(a) + ListSize(b)
  {
    if a == [] {
      assert a + b == b;
    } else {
      assert (a + b)[1..] == a[1..] + b;
      FlattenConcat(a[1..], b);
    }
  }

  // ------------------------------------------------ into the caller's buffer

  method CopyAt(buf: array<Byte>, at: nat, data: seq<Byte>)
    requires at + |data| <= buf.Length
    modifies buf
    ensures buf[..at] == old(buf[..at]) && buf[at..at+|data|] == data
    ensures buf[at+|data|..] == old(buf[at+|data|..])
  {
    for i := 0 to |data|
      invariant buf[..at] == old(buf[..at]) && buf[at..at+i] == data[..i]
      invariant buf[at+|data|..] == old(buf[at+|data|..])
    {
      buf[at + i] := data[i];
    }
  }

  // One name with its prefix and terminator.
  method PutName(buf: array<Byte>, at: nat, name: seq<Byte>)
    requires at + |name| + 6 <= buf.Length
    modifies buf
    ensures buf[..at] == old(buf[..at]) && buf[at..at+|name|+6] == Flatten([name])
    ensures buf[at+|name|+6..] == old(buf[at+|name|+6..])
  {
    CopyAt(buf, at, PREFIX + name + [0]);
    assert [name][1..] == [];
    assert Flatten([name]) == PREFIX + name + [0];
  }

  // The buffer with data stored from at on and everything else as it was.
  function Written(was: seq<Byte>, at: nat, data: seq<Byte>): seq<Byte>
    requires at + |data| <= |was|
  {
    was[..at] + data + was[at+|data|..]
  }

  lemma WrittenMore(was: seq<Byte>, at: nat, x: seq<Byte>, y: seq<Byte>)
    requires at + |x| + |y| <= |was|
    ensures Written(Written(was, at, x), at + |x|, y) == Written(was, at, x + y)
  {
    var mid := Written(was, at, x);
    assert mid[..at+|x|] == was[..at] + x;
    assert mid[at+|x|+|y|..] == was[at+|x|+|y|..];
  }

  lemma ThenMore(done: seq<seq<Byte>>, name: seq<Byte>, w: Walk)
    ensures Then(done, Then([name], w)) == Then(done + [name], w)
  {
    if w.Names? { assert done + ([name] + w.names) == done + [name] + w.names; }
  }

  function Room(buf: array?<Byte>, left: nat): Option<nat> { if buf == null then None else Some(left) }

  function Contents(buf: array?<Byte>): seq<Byte>
    reads if buf == null then {} else {buf}
  {
    if buf == null then [] else buf[..]
  }

  method PutAt(buf: array<Byte>, at: nat, name: seq<Byte>)
    requires at + |name| + 6 <= buf.Length
    modifies buf
    ensures |Flatten([name])| == |name| + 6 && buf[..] == Written(old(buf[..]), at, Flatten([name]))
  {
    ghost var was := buf[..];
    assert was[..at] == buf[..at] && was[at+|name|+6..] == buf[at+|name|+6..];
    PutName(buf, at, name);
    assert buf[..] == buf[..at] + buf[at..at+|name|+6] + buf[at+|name|+6..];
  }

  // What the buffer holds after these names were stored.
  ghost predicate Holding(buf: array?<Byte>, at: nat, was: seq<Byte>, names: seq<seq<Byte>>)
    reads if buf == null then {} else {buf}
  {
    buf != null ==>
      at + |Flatten(names)| <= |was| == buf.Length && Contents(buf) == Written(was, at, Flatten(names))
  }

  // Append a name to those already stored from offset at on.
  method Store(buf: array?<Byte>, at: nat, ghost was: seq<Byte>, ghost names: seq<seq<Byte>>, copied: nat, name: seq<Byte>)
    requires copied == ListSize(names) && Holding(buf, at, was, names)
    requires buf != null ==> at + copied + |name| + 6 <= buf.Length
    modifies buf
    ensures ListSize(names + [name]) == copied + |name| + 6
    ensures Holding(buf, at, was, names + [name])
  {
    FlattenSize(names);
    FlattenConcat(names, [name]);
    assert [name][1..] == [];
    assert ListSize([name]) == |name| + 6;
    if buf != null {
      PutAt(buf, at + copied, name);
      WrittenMore(was, at, Flatten(names), Flatten([name]));
    }
  }

  // One more name read.
  lemma WalkMore(b: seq<Byte>, pos: nat, todo: nat, buf: array?<Byte>, left: nat, names: seq<seq<Byte>>)
    requires todo > 0 && Problem(b, pos, Room(buf, left)).None?
    ensures var name := NameOf(b, pos);
      && (buf != null ==> |name| + 6 <= left)
      && var left' := if buf != null then left - (|name| + 6) else left;
      Then(names, WalkNames(b, pos, todo, Room(buf, left)))
        == Then(names + [name], WalkNames(b, pos + 4 + Pad4(|name|), todo - 1, Room(buf, left')))
  {
    var name := NameOf(b, pos);
    var left' := if buf != null then left - (|name| + 6) else left;
    assert Less(Room(buf, left), name) == Room(buf, left');
    ThenMore(names, name, WalkNames(b, pos + 4 + Pad4(|name|), todo - 1, Room(buf, left')));
  }

  // What is still to be read, behind the names already read.
  ghost function Ahead(b: seq<Byte>, pos: nat, todo: nat, room: Option<nat>, names: seq<seq<Byte>>): Walk {
    Then(names, WalkNames(b, pos, todo, room))
  }

  lemma AheadEnds(b: seq<Byte>, pos: nat, todo: nat, room: Option<nat>, names: seq<seq<Byte>>)
    ensures Ahead(b, pos, 0, room, names) == Names(names, pos)
    ensures Ahead(b, pos, todo, room, []) == WalkNames(b, pos, todo, room)
  {
    var w := WalkNames(b, pos, todo, room);
    assert names + [] == names;
    if w.Names? { assert [] + w.names == w.names; }
  }

  // Names stored and space left add up.
  ghost predicate Stored(buf: array?<Byte>, at: nat, was: seq<Byte>, names: seq<seq<Byte>>, copied: nat, left: nat, room: nat)
    reads if buf == null then {} else {buf}
  {
    copied == ListSize(names) && (buf != null ==> copied + left == room) && Holding(buf, at, was, names)
  }

  // One turn of the name loop.
  method DecodeName(b: seq<Byte>, pos: nat, ghost todo: nat, buf: array?<Byte>, at: nat, left: nat, copied: nat,
                    names: seq<seq<Byte>>, ghost was: seq<Byte>, ghost room: nat)
      returns (error: Option<Error>, pos': nat, left': nat, copied': nat, names': seq<seq<Byte>>)
    requires todo > 0 && Stored(buf, at, was, names, copied, left, room) && (buf != null ==> at + room <= buf.Length)
    modifies buf
    ensures Stored(buf, at, was, names', copied', left', room)
    ensures error.Some? ==> Ahead(b, pos, todo, Room(buf, left), names) == Stopped(error.value)
    ensures error.None? ==>
      Ahead(b, pos', todo - 1, Room(buf, left'), names') == Ahead(b, pos, todo, Room(buf, left), names)
  {
    error, pos', left', copied', names' := Problem(b, pos, Room(buf, left)), pos, left, copied, names;
    if error.Some? { return; }
    var name := NameOf(b, pos);
    WalkMore(b, pos, todo, buf, left, names);
    Store(buf, at, was, names, copied, name);
    if buf != null { left' := left - (|name| + 6); }
    pos', copied', names' := pos + 4 + Pad4(|name|), copied + |name| + 6, names + [name];
  }

  // The name loop of decode_listxattrs, writing at offset at of the caller's buffer if there is one.
  method DecodeNames(b: seq<Byte>, start: nat, count: nat, buf: array?<Byte>, at: nat, room: nat)
      returns (error: Option<Error>, pos: nat, copied: nat, names: seq<seq<Byte>>)
    requires buf != null ==> at + room <= buf.Length
    modifies buf
    ensures var w := WalkNames(b, start, count, Room(buf, room));
      if w.Stopped? then error == Some(w.error) else error == None && w == Names(names, pos)
    ensures copied == ListSize(names) && (buf != null ==> copied <= room)
    ensures Holding(buf, at, old(Contents(buf)), names)
  {
    var todo: nat, left: nat := count, room;
    error, pos, copied, names := None, start, 0, [];
    ghost var was, walk := Contents(buf), WalkNames(b, start, count, Room(buf, room));
    AheadEnds(b, pos, todo, Room(buf, room), []);
    while todo > 0
      invariant Ahead(b, pos, todo, Room(buf, left), names) == walk && error.None?
      invariant Stored(buf, at, was, names, copied, left, room)
    {
      error, pos, left, copied, names := DecodeName(b, pos, todo, buf, at, left, copied, names, was, room);
      if error.Some? { return; }
      todo := todo - 1;
    }
    AheadEnds(b, pos, 0, Room(buf, left), names);
  }

  // decode_listxattrs
  method DecodeListxattrs(status: Status, b: seq<Byte>, buf: array?<Byte>, at: nat, length: nat)
      returns (reply: Reply, copied: nat)
    requires buf != null ==> at + length <= buf.Length
    modifies buf
    ensures reply == Decode(status, b, length, Room(buf, length))
    ensures reply.Listed? ==> copied == ListSize(reply.names) && (buf != null ==> copied <= length)
    ensures reply.Listed? ==> Holding(buf, at, old(Contents(buf)), reply.names)
    ensures buf != null ==> |Contents(buf)| == |old(Contents(buf))| && Contents(buf)[..at] == old(Contents(buf))[..at]
  {
    copied := 0;
    match status
    case TooSmall => reply := Failed(Widen(ERANGE, length));
    case NoXattr => reply := Listed((0, 0), [], true);
    case Bad(code) => reply := Failed(Other(code));
    case Success =>
      if |b| < 12 { return Failed(EIO), 0; }
      var error, pos, names;
      error, pos, copied, names := DecodeNames(b, 12, Word(b, 8), buf, at, length);
      if error.Some? { return Failed(Widen(error.value, length)), copied; }
      if pos + 4 > |b| { return Failed(EIO), copied; }
      reply := Listed((Word(b, 0), Word(b, 4)), names, Word(b, pos) != 0);
  }

  // A reply to one LISTXATTRS call.
  datatype Answer = Answer(status: Status, body: seq<Byte>)

  // Every answer as it would be read with no buffer to limit it, up to the end or the first error.
  function Listing(answers: seq<Answer>): seq<seq<Byte>> {
    if answers == [] then []
    else
      var r := Decode(answers[0].status, answers[0].body, LIST_MAX, None);
      if r.Failed? then [] else r.names + if r.eof then [] else Listing(answers[1..])
  }

  predicate Complete(answers: seq<Answer>) {
    answers != [] &&
      var r := Decode(answers[0].status, answers[0].body, LIST_MAX, None);
      r.Listed? && (r.eof || Complete(answers[1..]))
  }

  // With a buffer an answer reads the same or fails.
  lemma SameUnlessTooLong(a: Answer, length: nat, room: Option<nat>)
    ensures var r := Decode(a.status, a.body, LIST_MAX, None);
      var s := Decode(a.status, a.body, length, room);
      && (s.Listed? ==> s == r && (room.Some? ==> ListSize(r.names) <= room.value))
      && (r.Listed? && (room.Some? ==> ListSize(r.names) <= room.value) ==> s == r)
  {
    if a.status.Success? && |a.body| >= 12 && room.Some? {
      RoomDecides(a.body, 12, Word(a.body, 8), room.value);
    }
  }

  // Given the answers so far: nothing (more are needed), the size of the whole list, or an error.
  datatype Outcome = More | Total(size: nat) | Error(error: Error)

  // One more answer behind the names stored so far.
  method TakeAnswer(a: Answer, buf: array?<Byte>, ghost was: seq<Byte>, ghost names: seq<seq<Byte>>,
                    size: nat, buflen: nat)
      returns (reply: Reply, copied: nat)
    requires size == ListSize(names) && Holding(buf, 0, was, names)
    requires buf != null ==> size + buflen <= buf.Length
    modifies buf
    ensures reply == Decode(a.status, a.body, buflen, Room(buf, buflen))
    ensures reply.Listed? ==>
      size + copied == ListSize(names + reply.names) && Holding(buf, 0, was, names + reply.names)
      && (buf != null ==> copied <= buflen)
  {
    reply, copied := DecodeListxattrs(a.status, a.body, buf, size, buflen);
    if reply.Listed? {
      FlattenSize(names);
      FlattenSize(reply.names);
      FlattenConcat(names, reply.names);
      if buf != null { WrittenMore(was, 0, Flatten(names), Flatten(reply.names)); }
    }
  }

  // The plain reading of the first answer.
  function First(answers: seq<Answer>): Reply
    requires answers != []
  {
    Decode(answers[0].status, answers[0].body, LIST_MAX, None)
  }

  lemma ListingMore(names: seq<seq<Byte>>, answers: seq<Answer>)
    requires answers != [] && First(answers).Listed?
    ensures var r := First(answers);
      names + Listing(answers) == if r.eof then names + r.names else names + r.names + Listing(answers[1..])
  {
    var r := First(answers);
    var rest := if r.eof then [] else Listing(answers[1..]);
    assert names + (r.names + rest) == names + r.names + rest;
  }

  // An answer that does not fit means the whole list does not.
  lemma TooLong(names: seq<seq<Byte>>, answers: seq<Answer>, room: nat)
    requires answers != [] && First(answers).Listed? && ListSize(First(answers).names) > room
    ensures ListSize(names + Listing(answers)) > ListSize(names) + room
  {
    var r := First(answers);
    FlattenConcat(names, Listing(answers));
    FlattenConcat(r.names, if r.eof then [] else Listing(answers[1..]));
  }

  // The loop of nfs4_listxattr_nfs4_user.  An empty buffer only asks for the size.
  method ListUser(answers: seq<Answer>, list: array<Byte>) returns (out: Outcome)
    modifies list
    ensures out.Total? ==> Complete(answers) && out.size == ListSize(Listing(answers))
    ensures out.Total? && list.Length > 0 ==>
      out.size <= list.Length && Holding(list, 0, old(list[..]), Listing(answers))
    ensures Complete(answers) && (list.Length == 0 || ListSize(Listing(answers)) <= list.Length) ==> out.Total?
  {
    var buf: array?<Byte> := if list.Length > 0 then list else null;
    var buflen: nat := if list.Length > 0 then list.Length else LIST_MAX;
    var size := 0;
    var rest := answers;
    ghost var was, full, complete := list[..], Listing(answers), Complete(answers);
    ghost var names: seq<seq<Byte>> := [];
    while rest != []
      invariant full == names + Listing(rest) && complete == Complete(rest)
      invariant size == ListSize(names) && (buf != null ==> size + buflen == list.Length)
      invariant Holding(buf, 0, was, names)
      decreases |rest|
    {
      SameUnlessTooLong(rest[0], buflen, Room(buf, buflen));
      var reply, copied := TakeAnswer(rest[0], buf, was, names, size, buflen);
      if reply.Failed? {
        if First(rest).Listed? { TooLong(names, rest, buflen); }
        return Error(reply.error);
      }
      ListingMore(names, rest);
      if buf != null { buflen := buflen - copied; }
      size := size + copied;
      if reply.eof { return Total(size); }
      names, rest := names + reply.names, rest[1..];
    }
    out := More;
  }
}
