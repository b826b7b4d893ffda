/**
 Lists of identities without repetition, and how one element moves a count.
 */
module Lists {
  ghost predicate NoRepeats(q: seq<nat>) { forall i, j :: 0 <= i < j < |q| ==> q[i] != q[j] }

  // list_del
  function Without(q: seq<nat>, x: nat): (r: seq<nat>)
    ensures forall y :: y in r <==> y in q && y != x
  {
    if q == [] then [] else if q[0] == x then Without(q[1..], x) else [q[0]] + Without(q[1..], x)
  }

  lemma {:induction false} WithoutNoRepeats(q: seq<nat>, x: nat)
    requires NoRepeats(q)
    ensures NoRepeats(Without(q, x))
  {
    if q != [] {
      WithoutNoRepeats(q[1..], x);
      assert forall y :: y in q[1..] ==> y != q[0];
      if q[0] != x { assert q[0] !in Without(q[1..], x); }
    }
  }

  lemma {:induction false} WithoutConcat(a: seq<nat>, b: seq<nat>, x: nat)
    ensures Without(a + b, x) == Without(a, x) + Without(b, x)
  {
    if a == [] {
      assert a + b == b;
    } else {
      assert (a + b)[1..] == a[1..] + b;
      WithoutConcat(a[1..], b, x);
    }
  }

  // Two sets that differ in one element at most.
  lemma CardMove(h: set<nat>, h': set<nat>, x: nat)
    requires forall y :: y != x ==> (y in h <==> y in h')
    ensures |h'| - |h| == (if x in h' then 1 else 0) - (if x in h then 1 else 0)
  {
    var rest := h - {x};
    assert h' - {x} == rest;
    assert h == rest || h == rest + {x};
    assert h' == rest || h' == rest + {x};
  }
}
