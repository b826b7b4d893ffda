/**
 The change-attribute bookkeeping of an inode: which replies move the cached counter,
 which are recorded in the gap table, and what an empty table proves.

 Decisions taken from state outside this model (how recent a reply is, whether the file
 has buffered writers or a delegation, whether pages are cached, allocation failures)
 are inputs, so every theorem holds for all of their outcomes.
 */
module ChangeTracking {
  import opened Wrappers
  import opened OutOfOrder

  // Why the client believes a change from one version to the next is not foreign.
  datatype Source =
    | Reply      // the server reported this pair for one of our operations
    | ForcedWcc  // the reply had no "before" version and one was made up
    | Delegated  // the counter moved while we held a delegation

  datatype Change = Change(span: Span, source: Source)

  datatype State = State(
    iversion: Version,
    gaps: Option<seq<Span>>,
    deferInval: bool,
    dataInvalid: bool,
    base: Version,          // iversion when the table was last cleared
    changes: seq<Change>)   // changes accounted for since then

  datatype Fattr = Fattr(
    change: Option<Version>,
    preChange: Option<Version>,
    madeUp: bool,           // preChange was filled in by the client
    present: bool)          // the reply carried attributes at all

  datatype Env = Env(
    writers: bool, delegated: bool, sizeChanged: bool, noPages: bool,
    isDir: bool, xattrCapable: bool, alloc: bool, allocAgain: bool)

  // ------------------------------------------------------------ the operations

  function Table(s: State): seq<Span> {
    if s.gaps.Some? then s.gaps.value else []
  }

  function Merge(s: State, span: Span, alloc: bool, capacity: nat): State {
    if s.deferInval then s
    else if s.gaps.None? && !alloc then s.(deferInval := true)
    else match Insert(Table(s), span, capacity)
      case None => s.(deferInval := true, gaps := None)
      case Some(g) => s.(gaps := Some(g))
  }

  function Account(s: State, pre: Version, post: Version, source: Source): State {
    s.(changes := s.changes + [Change(Span(pre, post), source)])
  }

  function SourceOf(f: Fattr): Source { if f.madeUp then ForcedWcc else Reply }

  function Record(s: State, f: Fattr, alloc: bool, capacity: nat): State {
    if f.change.Some? && f.preChange.Some? then
      Account(Merge(s, Span(f.change.value, f.preChange.value), alloc, capacity),
              f.preChange.value, f.change.value, SourceOf(f))
    else s
  }

  function Clear(s: State): State {
    s.(gaps := None, deferInval := false, base := s.iversion, changes := [])
  }

  function SetCacheInvalid(s: State, data: bool, noPages: bool): State {
    var d := (s.dataInvalid || data) && !noPages;
    if noPages || d then Clear(s.(dataInvalid := d)) else s.(dataInvalid := d)
  }

  // nfs_clear_invalid_mapping, and truncation to zero: the cached data goes away.
  function DropData(s: State): State { Clear(s.(dataInvalid := false)) }

  function WccUpdate(s: State, f: Fattr, env: Env): State {
    if f.change.Some? && f.preChange.Some? && f.preChange.value == s.iversion then
      var t := Account(s.(iversion := f.change.value), s.iversion, f.change.value, SourceOf(f));
      if env.isDir then SetCacheInvalid(t, true, env.noPages)
      else if env.xattrCapable then SetCacheInvalid(t, false, env.noPages)
      else t
    else s
  }

  // One remaining gap that ends at the counter is folded back into it.
  function Fold(s: State, env: Env): State {
    if !env.writers && |Table(s)| == 1 && Table(s)[0].end == s.iversion
    then s.(iversion := Table(s)[0].start, gaps := None)
    else s
  }

  function MoveTo(s: State, f: Fattr, env: Env, capacity: nat): State
    requires f.change.Some?
  {
    var change := f.change.value;
    if env.delegated then
      Account(s, s.iversion, change, Delegated).(iversion := change)
    else if env.writers then
      Merge(Record(s, f, env.alloc, capacity), Span(s.iversion, change), env.allocAgain, capacity)
        .(iversion := change)
    else s.(iversion := change)
  }

  function Update(s: State, f: Fattr, env: Env, capacity: nat): State {
    var s1 := WccUpdate(s, f, env);
    if f.change.None? then SetCacheInvalid(s1, env.sizeChanged && !env.writers, env.noPages)
    else
      var s2 := Fold(s1, env);
      if s2.iversion == f.change.value then
        SetCacheInvalid(s2, env.sizeChanged && !env.writers, env.noPages)
      else
        var foreign := !env.writers && !env.delegated;
        SetCacheInvalid(MoveTo(s2, f, env, capacity),
                        foreign || (env.sizeChanged && !env.writers), env.noPages)
  }

  function Refresh(s: State, f: Fattr, env: Env, newer: bool, recheck: bool, capacity: nat): State {
    if newer then Update(s, f, env, capacity)
    else
      var t := Record(s, f, env.alloc, capacity);
      if recheck then SetCacheInvalid(t, false, env.noPages) else t
  }

  function PostOp(s: State, f: Fattr, env: Env, newer: bool, recheck: bool, capacity: nat): State {
    var t := SetCacheInvalid(s, env.isDir, env.noPages);
    if f.present then Refresh(t, f, env, newer, recheck, capacity) else t
  }

  function ForceWcc(s: State, f: Fattr, env: Env, cmp: int, newer: bool, recheck: bool, capacity: nat): State {
    if cmp < 0 then s
    else if !f.present || cmp == 0 then
      PostOp(Record(s, f, env.alloc, capacity), f.(preChange := None), env, newer, recheck, capacity)
    else if f.change.Some? && f.preChange.None? then
      PostOp(s, f.(preChange := Some(s.iversion), madeUp := true), env, newer, recheck, capacity)
    else PostOp(s, f, env, newer, recheck, capacity)
  }

  // -------------------------------------------------------------------- runs

  datatype Event =
    | RefreshReply(f: Fattr, env: Env, newer: bool, recheck: bool)
    | PostOpReply(f: Fattr, env: Env, newer: bool, recheck: bool)
    | WriteReply(f: Fattr, env: Env, cmp: int, newer: bool, recheck: bool)
    | Invalidate(data: bool, noPages: bool)
    | Dropped

  function Step(s: State, e: Event, capacity: nat): State {
    match e
    case RefreshReply(f, env, newer, recheck) => Refresh(s, f, env, newer, recheck, capacity)
    case PostOpReply(f, env, newer, recheck) => PostOp(s, f, env, newer, recheck, capacity)
    case WriteReply(f, env, cmp, newer, recheck) => ForceWcc(s, f, env, cmp, newer, recheck, capacity)
    case Invalidate(data, noPages) => SetCacheInvalid(s, data, noPages)
    case Dropped => DropData(s)
  }

  function Run(s: State, es: seq<Event>, capacity: nat): State {
    if es == [] then s else Step(Run(s, es[..|es|-1], capacity), es[|es|-1], capacity)
  }

  function Fresh(v: Version): State { State(v, None, false, false, v, []) }

  // --------------------------------------------------------------- invariant

  function Spans(changes: seq<Change>): (r: seq<Span>)
    ensures |r| == |changes| && forall i :: 0 <= i < |r| ==> r[i] == changes[i].span
  {
    seq(|changes|, i requires 0 <= i < |changes| => changes[i].span)
  }

  // Gaps, plus the accounted changes, plus a step back from the counter to the base.
  ghost function Balance(s: State, v: Version): int {
    Net(Table(s), v) + Net(Spans(s.changes), v) - At(s.base, v) + At(s.iversion, v)
  }

  ghost predicate WellFormed(s: State, capacity: nat) {
    Canonical(Table(s)) && |Table(s)| <= capacity
  }

  // Until the table overflows, the gaps are exactly what the accounted changes leave open.
  ghost predicate Inv(s: State, capacity: nat) {
    WellFormed(s, capacity) && (!s.deferInval ==> forall v :: Balance(s, v) == 0)
  }

  lemma EmptyNet(v: Version)
    ensures Net([], v) == 0
  {
    assert StartSeq([]) == [] && EndSeq([]) == [];
  }

  lemma ClearInv(s: State, capacity: nat)
    ensures Inv(Clear(s), capacity)
  {
    var t := Clear(s);
    assert Spans(t.changes) == [];
    forall v ensures Balance(t, v) == 0 { EmptyNet(v); }
  }

  lemma SetCacheInvalidInv(s: State, data: bool, noPages: bool, capacity: nat)
    requires Inv(s, capacity)
    ensures Inv(SetCacheInvalid(s, data, noPages), capacity)
  {
    var d := (s.dataInvalid || data) && !noPages;
    ClearInv(s.(dataInvalid := d), capacity);
    var t := s.(dataInvalid := d);
    assert forall v :: Balance(t, v) == Balance(s, v);
  }

  lemma MergeMeaning(s: State, span: Span, alloc: bool, capacity: nat)
    requires WellFormed(s, capacity)
    ensures var t := Merge(s, span, alloc, capacity);
      && WellFormed(t, capacity) && t == s.(gaps := t.gaps, deferInval := t.deferInval)
      && (!t.deferInval ==>
            && !s.deferInval
            && forall v :: Balance(t, v) == Balance(s, v) + At(span.start, v) - At(span.end, v))
  {
    InsertMeaning(Table(s), span, capacity);
  }

  lemma AccountMeaning(s: State, pre: Version, post: Version, source: Source, v: Version)
    ensures Balance(Account(s, pre, post, source), v) == Balance(s, v) + At(pre, v) - At(post, v)
  {
    var t := Account(s, pre, post, source);
    assert Spans(t.changes) == Spans(s.changes) + [Span(pre, post)];
    Append(Spans(s.changes), Span(pre, post), v);
  }

  lemma RecordInv(s: State, f: Fattr, alloc: bool, capacity: nat)
    requires Inv(s, capacity)
    ensures Inv(Record(s, f, alloc, capacity), capacity)
    ensures Record(s, f, alloc, capacity).iversion == s.iversion
  {
    if f.change.Some? && f.preChange.Some? {
      var span := Span(f.change.value, f.preChange.value);
      MergeMeaning(s, span, alloc, capacity);
      var t := Merge(s, span, alloc, capacity);
      forall v ensures Balance(Record(s, f, alloc, capacity), v) == Balance(t, v) + At(span.end, v) - At(span.start, v) {
        AccountMeaning(t, span.end, span.start, SourceOf(f), v);
      }
    }
  }

  // Moving the counter along an accounted change keeps the books balanced.
  lemma FollowInv(s: State, to: Version, source: Source, capacity: nat)
    requires Inv(s, capacity)
    ensures Inv(Account(s, s.iversion, to, source).(iversion := to), capacity)
  {
    var t := Account(s, s.iversion, to, source);
    forall v ensures Balance(t.(iversion := to), v) == Balance(s, v) {
      AccountMeaning(s, s.iversion, to, source, v);
    }
  }

  lemma WccUpdateInv(s: State, f: Fattr, env: Env, capacity: nat)
    requires Inv(s, capacity)
    ensures Inv(WccUpdate(s, f, env), capacity)
  {
    if f.change.Some? && f.preChange.Some? && f.preChange.value == s.iversion {
      FollowInv(s, f.change.value, SourceOf(f), capacity);
      var t := Account(s.(iversion := f.change.value), s.iversion, f.change.value, SourceOf(f));
      assert t == Account(s, s.iversion, f.change.value, SourceOf(f)).(iversion := f.change.value);
      SetCacheInvalidInv(t, env.isDir, env.noPages, capacity);
    }
  }

  lemma SingleNet(x: Span, v: Version)
    ensures Net([x], v) == At(x.start, v) - At(x.end, v)
  {
    EmptyNet(v);
    Append([], x, v);
    assert [] + [x] == [x];
  }

  // Folding the last gap back into the counter keeps the books balanced.
  lemma FoldInv(s: State, env: Env, capacity: nat)
    requires Inv(s, capacity)
    ensures Inv(Fold(s, env), capacity)
  {
    var t := Fold(s, env);
    if t != s {
      var x := Table(s)[0];
      assert Table(s) == [x];
      forall v ensures Balance(t, v) == Balance(s, v) {
        SingleNet(x, v);
        EmptyNet(v);
      }
    }
  }

  // Jumping the counter and recording the jump as a gap keeps the books balanced.
  lemma JumpInv(s: State, to: Version, alloc: bool, capacity: nat)
    requires Inv(s, capacity)
    ensures Inv(Merge(s, Span(s.iversion, to), alloc, capacity).(iversion := to), capacity)
  {
    MergeMeaning(s, Span(s.iversion, to), alloc, capacity);
    var t := Merge(s, Span(s.iversion, to), alloc, capacity);
    forall v ensures Balance(t.(iversion := to), v) == Balance(t, v) - At(s.iversion, v) + At(to, v) {
    }
  }

  lemma MoveToInv(s: State, f: Fattr, env: Env, capacity: nat)
    requires Inv(s, capacity) && f.change.Some? && (env.writers || env.delegated)
    ensures Inv(MoveTo(s, f, env, capacity), capacity)
  {
    if env.delegated {
      FollowInv(s, f.change.value, Delegated, capacity);
    } else {
      RecordInv(s, f, env.alloc, capacity);
      JumpInv(Record(s, f, env.alloc, capacity), f.change.value, env.allocAgain, capacity);
    }
  }

  lemma UpdateInv(s: State, f: Fattr, env: Env, capacity: nat)
    requires Inv(s, capacity)
    ensures Inv(Update(s, f, env, capacity), capacity)
  {
    WccUpdateInv(s, f, env, capacity);
    var s1 := WccUpdate(s, f, env);
    var size := env.sizeChanged && !env.writers;
    SetCacheInvalidInv(s1, size, env.noPages, capacity);
    if f.change.Some? {
      FoldInv(s1, env, capacity);
      var s2 := Fold(s1, env);
      SetCacheInvalidInv(s2, size, env.noPages, capacity);
      if s2.iversion != f.change.value {
        var t := MoveTo(s2, f, env, capacity);
        if env.writers || env.delegated {
          MoveToInv(s2, f, env, capacity);
          SetCacheInvalidInv(t, size, env.noPages, capacity);
        } else {
          ClearInv(t.(dataInvalid := !env.noPages), capacity);
        }
      }
    }
  }

  lemma RefreshInv(s: State, f: Fattr, env: Env, newer: bool, recheck: bool, capacity: nat)
    requires Inv(s, capacity)
    ensures Inv(Refresh(s, f, env, newer, recheck, capacity), capacity)
  {
    if newer {
      UpdateInv(s, f, env, capacity);
    } else {
      RecordInv(s, f, env.alloc, capacity);
      SetCacheInvalidInv(Record(s, f, env.alloc, capacity), false, env.noPages, capacity);
    }
  }

  lemma PostOpInv(s: State, f: Fattr, env: Env, newer: bool, recheck: bool, capacity: nat)
    requires Inv(s, capacity)
    ensures Inv(PostOp(s, f, env, newer, recheck, capacity), capacity)
  {
    SetCacheInvalidInv(s, env.isDir, env.noPages, capacity);
    RefreshInv(SetCacheInvalid(s, env.isDir, env.noPages), f, env, newer, recheck, capacity);
  }

  lemma StepInv(s: State, e: Event, capacity: nat)
    requires Inv(s, capacity)
    ensures Inv(Step(s, e, capacity), capacity)
  {
    match e
    case RefreshReply(f, env, newer, recheck) =>
      RefreshInv(s, f, env, newer, recheck, capacity);
    case PostOpReply(f, env, newer, recheck) =>
      PostOpInv(s, f, env, newer, recheck, capacity);
    case WriteReply(f, env, cmp, newer, recheck) =>
      RecordInv(s, f, env.alloc, capacity);
      PostOpInv(Record(s, f, env.alloc, capacity), f.(preChange := None), env, newer, recheck, capacity);
      PostOpInv(s, f.(preChange := Some(s.iversion), madeUp := true), env, newer, recheck, capacity);
      PostOpInv(s, f, env, newer, recheck, capacity);
    case Invalidate(data, noPages) =>
      SetCacheInvalidInv(s, data, noPages, capacity);
    case Dropped =>
      ClearInv(s.(dataInvalid := false), capacity);
  }

  // Every reachable state balances.
  lemma {:induction false} RunInv(v: Version, es: seq<Event>, capacity: nat)
    ensures Inv(Run(Fresh(v), es, capacity), capacity)
  {
    if es == [] {
      assert Fresh(v) == Clear(Fresh(v));
      ClearInv(Fresh(v), capacity);
    } else {
      RunInv(v, es[..|es|-1], capacity);
      StepInv(Run(Fresh(v), es[..|es|-1], capacity), es[|es|-1], capacity);
    }
  }

  // ------------------------------------------------------------ reachability

  ghost predicate Chain(p: seq<Span>, from: Version, to: Version) {
    if p == [] then from == to
    else p[|p|-1].end == to && Chain(p[..|p|-1], from, p[|p|-1].start)
  }

  ghost predicate Made(p: seq<Span>, edges: seq<Span>) {
    forall i :: 0 <= i < |p| ==> p[i] in edges
  }

  // A path of edges leads from one version to the other.
  ghost predicate Reaches(edges: seq<Span>, from: Version, to: Version) {
    exists p :: Chain(p, from, to) && Made(p, edges)
  }

  ghost function In(v: Version, r: set<Version>): int { if v in r then 1 else 0 }

  // Edges leaving the set minus edges entering it.
  ghost function Flow(edges: seq<Span>, r: set<Version>): int {
    if edges == [] then 0
    else var e := edges[|edges|-1];
      Flow(edges[..|edges|-1], r) + In(e.start, r) - In(e.end, r)
  }

  lemma {:induction false} FlowEmptySet(edges: seq<Span>)
    ensures Flow(edges, {}) == 0
  {
    if edges != [] { FlowEmptySet(edges[..|edges|-1]); }
  }

  lemma {:induction false} FlowAddVersion(edges: seq<Span>, r: set<Version>, x: Version)
    requires x !in r
    ensures Flow(edges, r + {x}) == Flow(edges, r) + Net(edges, x)
  {
    if edges == [] {
      EmptyNet(x);
    } else {
      var n := |edges| - 1;
      FlowAddVersion(edges[..n], r, x);
      Append(edges[..n], edges[n], x);
      assert edges == edges[..n] + [edges[n]];
    }
  }

  // If every edge balances except one unit out of `from` and one into `to`, the flow out of
  // any set is decided by which of the two it contains.
  lemma {:induction false} FlowOfSet(edges: seq<Span>, r: set<Version>, from: Version, to: Version)
    requires forall v :: Net(edges, v) == At(from, v) - At(to, v)
    ensures Flow(edges, r) == In(from, r) - In(to, r)
    decreases r
  {
    if r == {} {
      FlowEmptySet(edges);
    } else {
      var x :| x in r;
      FlowOfSet(edges, r - {x}, from, to);
      FlowAddVersion(edges, r - {x}, x);
      assert r - {x} + {x} == r;
      assert Net(edges, x) == At(from, x) - At(to, x);
    }
  }

  lemma {:induction false} FlowOfClosedSet(edges: seq<Span>, r: set<Version>)
    requires forall e :: e in edges && e.start in r ==> e.end in r
    ensures Flow(edges, r) <= 0
  {
    if edges != [] {
      var n := |edges| - 1;
      assert forall e :: e in edges[..n] ==> e in edges;
      FlowOfClosedSet(edges[..n], r);
      assert edges[n] in edges;
    }
  }

  // Balanced books contain a path: the versions reachable from `from` are closed under the
  // edges, so if `to` were not among them more would flow out of them than they allow.
  lemma BalancedReaches(edges: seq<Span>, from: Version, to: Version)
    requires forall v :: Net(edges, v) == At(from, v) - At(to, v)
    ensures Reaches(edges, from, to)
  {
    var touched := {from} + (set e | e in edges :: e.end);
    var r := set v | v in touched && Reaches(edges, from, v);
    assert Chain([], from, from) && Made([], edges);
    forall e | e in edges && e.start in r ensures e.end in r {
      var p :| Chain(p, from, e.start) && Made(p, edges);
      assert (p + [e])[..|p|] == p;
      assert Chain(p + [e], from, e.end) && Made(p + [e], edges);
    }
    FlowOfSet(edges, r, from, to);
    FlowOfClosedSet(edges, r);
  }

  // ---------------------------------------------------------------- theorems

  // No hidden foreign change: over every run, as long as the table has not overflowed, an
  // empty table means the accounted changes alone lead from the version at the last
  // clearing to the current counter.
  lemma NoHiddenForeignChange(v: Version, es: seq<Event>, capacity: nat)
    ensures var s := Run(Fresh(v), es, capacity);
      !s.deferInval && Table(s) == [] ==> Reaches(Spans(s.changes), s.base, s.iversion)
  {
    RunInv(v, es, capacity);
    var s := Run(Fresh(v), es, capacity);
    if !s.deferInval && Table(s) == [] {
      forall v ensures Net(Spans(s.changes), v) == At(s.base, v) - At(s.iversion, v) {
        EmptyNet(v);
        assert Balance(s, v) == 0;
      }
      BalancedReaches(Spans(s.changes), s.base, s.iversion);
    }
  }

  // And no false alarm: the table is empty exactly when the accounted changes balance to a
  // single move from the base to the counter.
  lemma EmptyIffAccounted(v: Version, es: seq<Event>, capacity: nat)
    ensures var s := Run(Fresh(v), es, capacity);
      !s.deferInval ==>
        (Table(s) == [] <==> forall x :: Net(Spans(s.changes), x) == At(s.base, x) - At(s.iversion, x))
  {
    RunInv(v, es, capacity);
    var s := Run(Fresh(v), es, capacity);
    if !s.deferInval {
      assert forall x :: Balance(s, x) == 0;
      if Table(s) == [] {
        forall x ensures Net(Spans(s.changes), x) == At(s.base, x) - At(s.iversion, x) {
          EmptyNet(x);
          assert Balance(s, x) == 0;
        }
      } else {
        var x := Table(s)[0].start;
        Occurs(Table(s), x);
        CanonicalForm(Table(s), x);
        assert Balance(s, x) == 0;
      }
    }
  }

  // Folding is justified: when one gap remains and it ends at the counter, the accounted
  // changes lead from the base to the start of that gap, which becomes the counter.
  lemma LastGapIsReached(v: Version, es: seq<Event>, capacity: nat)
    ensures var s := Run(Fresh(v), es, capacity);
      !s.deferInval && |Table(s)| == 1 && Table(s)[0].end == s.iversion ==>
        Reaches(Spans(s.changes), s.base, Table(s)[0].start)
  {
    RunInv(v, es, capacity);
    var s := Run(Fresh(v), es, capacity);
    if !s.deferInval && |Table(s)| == 1 && Table(s)[0].end == s.iversion {
      var g := Table(s)[0];
      assert Table(s) == [g];
      forall v ensures Net(Spans(s.changes), v) == At(s.base, v) - At(g.start, v) {
        SingleNet(g, v);
        assert Balance(s, v) == 0;
      }
      BalancedReaches(Spans(s.changes), s.base, g.start);
    }
  }

  // Only a write reply whose pre-change version was made up, or a delegation, can account for
  // a change the server did not report as ours.
  predicate Honest(e: Event) {
    match e
    case RefreshReply(f, env, _, _) => !env.delegated && !f.madeUp
    case PostOpReply(f, env, _, _) => !env.delegated && !f.madeUp
    case WriteReply(f, env, cmp, _, _) => !env.delegated && !f.madeUp && !MakesUp(f, cmp)
    case _ => true
  }

  // The write reply is newer, carries a change attribute and lacks the version before it.
  predicate MakesUp(f: Fattr, cmp: int) { cmp > 0 && f.present && f.change.Some? && f.preChange.None? }

  predicate AllReply(s: State) {
    forall c :: c in s.changes ==> c.source == Reply
  }

  lemma HonestRecord(s: State, f: Fattr, alloc: bool, capacity: nat)
    requires AllReply(s) && !f.madeUp
    ensures AllReply(Record(s, f, alloc, capacity))
  {
  }

  lemma HonestMoveTo(s: State, f: Fattr, env: Env, capacity: nat)
    requires AllReply(s) && !env.delegated && !f.madeUp && f.change.Some?
    ensures AllReply(MoveTo(s, f, env, capacity))
  {
    HonestRecord(s, f, env.alloc, capacity);
    assert MoveTo(s, f, env, capacity).changes ==
      (if env.writers then Record(s, f, env.alloc, capacity).changes else s.changes);
  }

  lemma HonestUpdate(s: State, f: Fattr, env: Env, capacity: nat)
    requires AllReply(s) && !env.delegated && !f.madeUp
    ensures AllReply(Update(s, f, env, capacity))
  {
    var s1 := WccUpdate(s, f, env);
    assert AllReply(s1);
    if f.change.Some? {
      var s2 := Fold(s1, env);
      HonestMoveTo(s2, f, env, capacity);
    }
  }

  lemma HonestRefresh(s: State, f: Fattr, env: Env, newer: bool, recheck: bool, capacity: nat)
    requires AllReply(s) && !env.delegated && !f.madeUp
    ensures AllReply(Refresh(s, f, env, newer, recheck, capacity))
  {
    HonestUpdate(s, f, env, capacity);
    HonestRecord(s, f, env.alloc, capacity);
  }

  lemma HonestPostOp(s: State, f: Fattr, env: Env, newer: bool, recheck: bool, capacity: nat)
    requires AllReply(s) && !env.delegated && !f.madeUp
    ensures AllReply(PostOp(s, f, env, newer, recheck, capacity))
  {
    HonestRefresh(SetCacheInvalid(s, env.isDir, env.noPages), f, env, newer, recheck, capacity);
  }

  lemma {:induction false} HonestRun(v: Version, es: seq<Event>, capacity: nat)
    requires forall i :: 0 <= i < |es| ==> Honest(es[i])
    ensures AllReply(Run(Fresh(v), es, capacity))
  {
    if es != [] {
      var n := |es| - 1;
      HonestRun(v, es[..n], capacity);
      var s := Run(Fresh(v), es[..n], capacity);
      match es[n]
      case RefreshReply(f, env, newer, recheck) =>
        HonestRefresh(s, f, env, newer, recheck, capacity);
      case PostOpReply(f, env, newer, recheck) =>
        HonestPostOp(s, f, env, newer, recheck, capacity);
      case WriteReply(f, env, cmp, newer, recheck) =>
        HonestRecord(s, f, env.alloc, capacity);
        HonestPostOp(Record(s, f, env.alloc, capacity), f.(preChange := None), env, newer, recheck, capacity);
        HonestPostOp(s, f, env, newer, recheck, capacity);
      case Invalidate(data, noPages) =>
      case Dropped =>
    }
  }
}
