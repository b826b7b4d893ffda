/**
 Out-of-order change tracking of one inode.

 Every reply carries the server's change counter after the operation and, often, the
 counter before it.  When replies overtake each other the cached counter jumps, and the
 jump is remembered as a gap until the replies that explain it have arrived.  Read as
 directed edges between versions, the table is the divergence between what the client
 has been told about and where its counter stands; this module proves that reading and
 draws the conclusion the caller relies on: an empty table means nobody else wrote.
 */
module OutOfOrder {
  import opened Wrappers

  // u64 change attributes; the table only ever compares them for equality.
  type Version = v: int | 0 <= v < 0x1_0000_0000_0000_0000

  // One slot of the gap table, and also one accounted change (pre, post).
  datatype Span = Span(start: Version, end: Version)

  // ---------------------------------------------------------------- divergence

  function StartSeq(g: seq<Span>): (r: seq<Version>)
    ensures |r| == |g| && forall i :: 0 <= i < |g| ==> r[i] == g[i].start
  {
    seq(|g|, i requires 0 <= i < |g| => g[i].start)
  }

  function EndSeq(g: seq<Span>): (r: seq<Version>)
    ensures |r| == |g| && forall i :: 0 <= i < |g| ==> r[i] == g[i].end
  {
    seq(|g|, i requires 0 <= i < |g| => g[i].end)
  }

  ghost function Starts(g: seq<Span>): multiset<Version> { multiset(StartSeq(g)) }

  ghost function Ends(g: seq<Span>): multiset<Version> { multiset(EndSeq(g)) }

  // Spans leaving a version minus spans entering it.
  ghost function Net(g: seq<Span>, v: Version): int {
    Starts(g)[v] as int - Ends(g)[v] as int
  }

  ghost function At(x: Version, v: Version): int { if x == v then 1 else 0 }

  // No degenerate gap, and no two gaps that chain.
  ghost predicate Canonical(g: seq<Span>) {
    forall i, j :: 0 <= i < |g| && 0 <= j < |g| ==> g[i].start != g[j].end
  }

  lemma Occurs(g: seq<Span>, v: Version)
    ensures v in Starts(g) <==> exists i :: 0 <= i < |g| && g[i].start == v
    ensures v in Ends(g) <==> exists i :: 0 <= i < |g| && g[i].end == v
  {
    var r, t := StartSeq(g), EndSeq(g);
    assert v in r <==> exists i :: 0 <= i < |r| && r[i] == v;
    assert v in t <==> exists i :: 0 <= i < |t| && t[i] == v;
  }

  lemma Append(g: seq<Span>, s: Span, v: Version)
    ensures Net(g + [s], v) == Net(g, v) + At(s.start, v) - At(s.end, v)
  {
    assert StartSeq(g + [s]) == StartSeq(g) + [s.start];
    assert EndSeq(g + [s]) == EndSeq(g) + [s.end];
  }

  // ------------------------------------------------------------- nfs_ooo_merge

  // Remove slot i by moving the last one into its place.
  function Without(g: seq<Span>, i: nat): seq<Span>
    requires i < |g|
  {
    g[i := g[|g|-1]][..|g|-1]
  }

  datatype Absorbed = Absorbed(rest: seq<Span>, span: Span)

  // The scanning loop of nfs_ooo_merge from index i: swallow every gap that chains with
  // the new range and start over.
  function Absorb(g: seq<Span>, s: Span, i: nat): Absorbed
    requires i <= |g|
    decreases |g|, |g| - i
  {
    if i == |g| then Absorbed(g, s)
    else if s.end == g[i].start then Absorb(Without(g, i), Span(s.start, g[i].end), 0)
    else if s.start == g[i].end then Absorb(Without(g, i), Span(g[i].start, s.end), 0)
    else Absorb(g, s, i + 1)
  }

  // The table after merging; None when it does not fit.
  function Insert(g: seq<Span>, s: Span, capacity: nat): Option<seq<Span>> {
    var a := Absorb(g, s, 0);
    if a.span.start == a.span.end then Some(a.rest)
    else if |a.rest| >= capacity then None
    else Some(a.rest + [a.span])
  }

  lemma WithoutNet(g: seq<Span>, i: nat, v: Version)
    requires i < |g|
    ensures Net(Without(g, i), v) == Net(g, v) - At(g[i].start, v) + At(g[i].end, v)
  {
    var n := |g| - 1;
    var h := g[i := g[n]];
    assert StartSeq(h) == StartSeq(g)[i := g[n].start];
    assert EndSeq(h) == EndSeq(g)[i := g[n].end];
    assert h == Without(g, i) + [g[n]];
    Append(Without(g, i), g[n], v);
  }

  lemma WithoutCanonical(g: seq<Span>, i: nat)
    requires i < |g| && Canonical(g)
    ensures Canonical(Without(g, i))
  {
    var h := Without(g, i);
    forall a, b | 0 <= a < |h| && 0 <= b < |h| ensures h[a].start != h[b].end {
      var a' := if a == i then |g| - 1 else a;
      var b' := if b == i then |g| - 1 else b;
      assert h[a] == g[a'] && h[b] == g[b'];
    }
  }

  // Scanning swallows gaps without changing the divergence of any version.
  lemma {:induction false} AbsorbNet(g: seq<Span>, s: Span, i: nat, v: Version)
    requires i <= |g|
    ensures var a := Absorb(g, s, i);
      Net(a.rest, v) + At(a.span.start, v) - At(a.span.end, v)
      == Net(g, v) + At(s.start, v) - At(s.end, v)
    decreases |g|, |g| - i
  {
    if i == |g| {
    } else if s.end == g[i].start {
      WithoutNet(g, i, v);
      AbsorbNet(Without(g, i), Span(s.start, g[i].end), 0, v);
    } else if s.start == g[i].end {
      WithoutNet(g, i, v);
      AbsorbNet(Without(g, i), Span(g[i].start, s.end), 0, v);
    } else {
      AbsorbNet(g, s, i + 1, v);
    }
  }

  // When the scan stops nothing left in the table chains with the new range.
  lemma {:induction false} AbsorbCanonical(g: seq<Span>, s: Span, i: nat)
    requires i <= |g| && Canonical(g)
    requires forall j :: 0 <= j < i ==> g[j].start != s.end && g[j].end != s.start
    ensures var a := Absorb(g, s, i);
      && Canonical(a.rest) && |a.rest| <= |g|
      && forall j :: 0 <= j < |a.rest| ==> a.rest[j].start != a.span.end && a.rest[j].end != a.span.start
    decreases |g|, |g| - i
  {
    if i == |g| {
    } else if s.end == g[i].start {
      WithoutCanonical(g, i);
      AbsorbCanonical(Without(g, i), Span(s.start, g[i].end), 0);
    } else if s.start == g[i].end {
      WithoutCanonical(g, i);
      AbsorbCanonical(Without(g, i), Span(g[i].start, s.end), 0);
    } else {
      AbsorbCanonical(g, s, i + 1);
    }
  }

  // Merging adds exactly the new range to the divergence and leaves a canonical table.
  lemma InsertMeaning(g: seq<Span>, s: Span, capacity: nat)
    requires Canonical(g) && |g| <= capacity
    ensures Insert(g, s, capacity).Some? ==>
      var h := Insert(g, s, capacity).value;
      && Canonical(h) && |h| <= capacity
      && forall v :: Net(h, v) == Net(g, v) + At(s.start, v) - At(s.end, v)
  {
    var a := Absorb(g, s, 0);
    AbsorbCanonical(g, s, 0);
    if Insert(g, s, capacity).Some? {
      var h := Insert(g, s, capacity).value;
      forall v ensures Net(h, v) == Net(g, v) + At(s.start, v) - At(s.end, v) {
        AbsorbNet(g, s, 0, v);
        Append(a.rest, a.span, v);
      }
    }
  }

  // A canonical table holds exactly the positive and the negative part of the divergence,
  // so its starts and ends do not depend on how it was built.
  lemma CanonicalForm(g: seq<Span>, v: Version)
    requires Canonical(g)
    ensures Starts(g)[v] == if Net(g, v) > 0 then Net(g, v) else 0
    ensures Ends(g)[v] == if Net(g, v) < 0 then -Net(g, v) else 0
  {
    Occurs(g, v);
    assert !(v in Starts(g) && v in Ends(g));
  }

  lemma CanonicalUnique(g: seq<Span>, h: seq<Span>)
    requires Canonical(g) && Canonical(h)
    requires forall v :: Net(g, v) == Net(h, v)
    ensures Starts(g) == Starts(h) && Ends(g) == Ends(h) && |g| == |h|
  {
    forall v: Version ensures Starts(g)[v] == Starts(h)[v] && Ends(g)[v] == Ends(h)[v] {
      CanonicalForm(g, v);
      CanonicalForm(h, v);
      assert Net(g, v) == Net(h, v);
    }
    assert |g| == |Starts(g)| && |h| == |Starts(h)|;
  }

  // The table overflows exactly when no table without chains has that divergence and fits.
  lemma OverflowIff(g: seq<Span>, s: Span, capacity: nat)
    requires Canonical(g) && |g| <= capacity
    ensures Insert(g, s, capacity).None? <==>
      forall h :: Canonical(h) && (forall v :: Net(h, v) == Net(g, v) + At(s.start, v) - At(s.end, v)) ==> |h| > capacity
  {
    InsertMeaning(g, s, capacity);
    if Insert(g, s, capacity).None? {
      var a := Absorb(g, s, 0);
      AbsorbCanonical(g, s, 0);
      var full := a.rest + [a.span];
      assert Canonical(full);
      forall h | Canonical(h) && (forall v :: Net(h, v) == Net(g, v) + At(s.start, v) - At(s.end, v)) ensures |h| > capacity {
        forall v ensures Net(full, v) == Net(h, v) {
          AbsorbNet(g, s, 0, v);
          Append(a.rest, a.span, v);
        }
        CanonicalUnique(full, h);
      }
    }
  }

  // --------------------------------------------------- arrival order of records

  // Merging a sequence of ranges one by one, starting from an empty table.
  function InsertAll(spans: seq<Span>, capacity: nat): Option<seq<Span>> {
    if spans == [] then Some([])
    else match InsertAll(spans[..|spans|-1], capacity)
      case None => None
      case Some(g) => Insert(g, spans[|spans|-1], capacity)
  }

  lemma {:induction false} InsertAllMeaning(spans: seq<Span>, capacity: nat)
    ensures InsertAll(spans, capacity).Some? ==>
      var g := InsertAll(spans, capacity).value;
      && Canonical(g) && |g| <= capacity
      && forall v :: Net(g, v) == Net(spans, v)
  {
    if spans != [] {
      var n := |spans| - 1;
      InsertAllMeaning(spans[..n], capacity);
      if InsertAll(spans, capacity).Some? {
        var g := InsertAll(spans[..n], capacity).value;
        InsertMeaning(g, spans[n], capacity);
        assert spans == spans[..n] + [spans[n]];
        forall v ensures Net(InsertAll(spans, capacity).value, v) == Net(spans, v) {
          Append(spans[..n], spans[n], v);
          assert Net(g, v) == Net(spans[..n], v);
        }
      }
    }
  }

  // Barring overflow, the table is empty exactly when the recorded starts and ends cancel.
  lemma EmptyIffCancelled(spans: seq<Span>, capacity: nat)
    requires InsertAll(spans, capacity).Some?
    ensures InsertAll(spans, capacity).value == [] <==> Starts(spans) == Ends(spans)
  {
    InsertAllMeaning(spans, capacity);
    var g := InsertAll(spans, capacity).value;
    if g == [] {
      forall v: Version ensures Starts(spans)[v] == Ends(spans)[v] {
        assert Net(g, v) == Net(spans, v);
      }
    } else {
      var v := g[0].start;
      Occurs(g, v);
      CanonicalForm(g, v);
      assert Net(g, v) == Net(spans, v);
    }
  }

  lemma WithoutMultiset(g: seq<Span>, i: nat)
    requires i < |g|
    ensures multiset(Without(g, i)) == multiset(g) - multiset{g[i]}
  {
    var n := |g| - 1;
    assert g[i := g[n]] == Without(g, i) + [g[n]];
    assert g == g[..n] + [g[n]];
    assert multiset(g) == multiset(Without(g, i)) + multiset{g[i]};
  }

  lemma {:induction false} PermutedNet(a: seq<Span>, b: seq<Span>, v: Version)
    requires multiset(a) == multiset(b)
    ensures Net(a, v) == Net(b, v)
  {
    assert |a| == |multiset(a)| == |multiset(b)| == |b|;
    if a != [] {
      var n := |a| - 1;
      assert a == a[..n] + [a[n]];
      assert a[n] in multiset(b);
      var i :| 0 <= i < |b| && b[i] == a[n];
      Append(a[..n], a[n], v);
      WithoutNet(b, i, v);
      WithoutMultiset(b, i);
      assert multiset(a) == multiset(a[..n]) + multiset{a[n]};
      assert multiset(a[..n]) == multiset(a) - multiset{a[n]};
      PermutedNet(a[..n], Without(b, i), v);
    }
  }

  // Whatever order the same records arrive in, the table ends with the same starts and
  // ends, hence the same size.
  lemma ArrivalOrder(a: seq<Span>, b: seq<Span>, capacity: nat)
    requires multiset(a) == multiset(b)
    requires InsertAll(a, capacity).Some? && InsertAll(b, capacity).Some?
    ensures var g, h := InsertAll(a, capacity).value, InsertAll(b, capacity).value;
      Starts(g) == Starts(h) && Ends(g) == Ends(h) && |g| == |h|
  {
    InsertAllMeaning(a, capacity);
    InsertAllMeaning(b, capacity);
    var g, h := InsertAll(a, capacity).value, InsertAll(b, capacity).value;
    forall v ensures Net(g, v) == Net(h, v) {
      PermutedNet(a, b, v);
      assert Net(g, v) == Net(a, v) && Net(h, v) == Net(b, v);
    }
    CanonicalUnique(g, h);
  }
}
