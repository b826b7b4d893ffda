/**
 When cached data is declared invalid, told from the replies alone.  A newer reply whose change
 attribute is not the version the client believes in means that somebody else wrote; unless the
 client has writers or a delegation, its pages are then marked invalid and stay so until they are
 dropped.  The counter, the books and their overflow are pinned down in the same way.
 */
module DataValidity {
  import opened Wrappers
  import opened OutOfOrder
  import opened ChangeTracking

  // ------------------------------------------------ what a reply says

  // The reply's attributes are taken over: it is newer than what the client has.
  predicate Applies(e: Event) {
    match e
    case RefreshReply(_, _, newer, _) => newer
    case PostOpReply(f, _, newer, _) => f.present && newer
    case WriteReply(f, _, cmp, newer, _) => cmp >= 0 && f.present && newer
    case _ => false
  }

  // The pair of versions that the server reports, or that the client makes up for a write.
  function Pair(s: State, e: Event): Fattr
    requires Applies(e)
  {
    match e
    case WriteReply(f, _, cmp, _, _) =>
      if cmp == 0 then f.(preChange := None)
      else if f.change.Some? && f.preChange.None? then f.(preChange := Some(s.iversion), madeUp := true)
      else f
    case _ => e.f
  }

  // The gaps when the reply is compared.  A write reply that is as old as the last one is recorded first.
  function Gaps(s: State, e: Event, capacity: nat): seq<Span>
    requires Applies(e)
  {
    if e.WriteReply? && e.cmp == 0 then Table(Record(s, e.f, e.env.alloc, capacity)) else Table(s)
  }

  predicate Follows(v: Version, f: Fattr) { f.change.Some? && f.preChange == Some(v) }

  // The version the client believes the server to be at, before it looks at the reply's change
  // attribute: its counter moved along the reply's own change, and back over a lone gap.
  function Believed(v: Version, gaps: seq<Span>, f: Fattr, writers: bool): Version {
    var seen := if Follows(v, f) then f.change.value else v;
    if !writers && |gaps| == 1 && gaps[0].end == seen then gaps[0].start else seen
  }

  // The server is at a version the client does not know about.
  predicate Surprise(s: State, e: Event, capacity: nat) {
    && Applies(e) && e.f.change.Some?
    && Believed(s.iversion, Gaps(s, e, capacity), Pair(s, e), e.env.writers) != e.f.change.value
  }

  // Somebody else wrote: a surprise, with neither writers nor a delegation of our own to explain it.
  predicate Foreign(s: State, e: Event, capacity: nat) {
    Surprise(s, e, capacity) && !e.env.writers && !e.env.delegated
  }

  // The step looks at whether pages are cached.
  predicate Looks(e: Event) {
    match e
    case RefreshReply(_, _, newer, recheck) => newer || recheck
    case PostOpReply(_, _, _, _) => true
    case WriteReply(_, _, cmp, _, _) => cmp >= 0
    case _ => true
  }

  predicate NoPages(e: Event) {
    match e
    case Invalidate(_, noPages) => noPages
    case Dropped => true
    case _ => e.env.noPages
  }

  // The data is dropped, or seen to be gone.
  predicate Gone(e: Event) { Looks(e) && NoPages(e) }

  // A reason to mark pages invalid: a foreign change, a size that moved without writers, a directory
  // that was changed, or somebody's explicit request.
  predicate Alarm(s: State, e: Event, capacity: nat) {
    && !NoPages(e)
    && match e
       case Invalidate(data, _) => data
       case Dropped => false
       case _ =>
         || Foreign(s, e, capacity)
         || (Applies(e) && e.env.sizeChanged && !e.env.writers)
         || (e.env.isDir && (if e.RefreshReply? then e.newer && Follows(s.iversion, e.f) else Looks(e)))
  }

  // ------------------------------------------------ one step

  lemma InvalidLaw(s: State, data: bool, noPages: bool)
    ensures SetCacheInvalid(s, data, noPages).dataInvalid == (!noPages && (s.dataInvalid || data))
    ensures !noPages && !s.dataInvalid && !data ==> SetCacheInvalid(s, data, noPages) == s
    ensures SetCacheInvalid(s, data, noPages).iversion == s.iversion
  {
  }

  lemma RecordLaw(s: State, f: Fattr, alloc: bool, capacity: nat)
    ensures var t := Record(s, f, alloc, capacity);
      t.dataInvalid == s.dataInvalid && t.iversion == s.iversion && t.base == s.base && t.changes == s.changes + Own(f)
  {
  }

  // The pair a reply carries, as an accounted change.
  function Own(f: Fattr): seq<Change> {
    if f.change.Some? && f.preChange.Some? then [Change(Span(f.preChange.value, f.change.value), SourceOf(f))] else []
  }

  // What taking over a reply accounts for.
  function TakenOver(v: Version, gaps: seq<Span>, f: Fattr, env: Env): seq<Change> {
    (if Follows(v, f) then Own(f) else [])
    + if f.change.None? || Believed(v, gaps, f, env.writers) == f.change.value then []
      else if env.delegated then
        [Change(Span(Believed(v, gaps, f, env.writers), f.change.value), Delegated)]
      else if env.writers then Own(f)
      else []
  }

  // A regular file or symbolic link with pages that are not invalid.
  lemma WccLaw(s: State, f: Fattr, env: Env)
    ensures var t := WccUpdate(s, f, env);
      && t.iversion == (if Follows(s.iversion, f) then f.change.value else s.iversion)
      && t.dataInvalid == (if Follows(s.iversion, f) && (env.isDir || env.xattrCapable)
                           then !env.noPages && (s.dataInvalid || env.isDir) else s.dataInvalid)
      && (!env.noPages && !t.dataInvalid ==>
            t == s.(iversion := t.iversion, changes := s.changes + (if Follows(s.iversion, f) then Own(f) else [])))
  {
  }

  lemma MoveLaw(s: State, f: Fattr, env: Env, capacity: nat)
    requires f.change.Some?
    ensures var t := MoveTo(s, f, env, capacity);
      && t.iversion == f.change.value && t.dataInvalid == s.dataInvalid && t.base == s.base
      && t.changes == s.changes + if env.delegated then [Change(Span(s.iversion, f.change.value), Delegated)]
                                  else if env.writers then Own(f) else []
  {
    RecordLaw(s, f, env.alloc, capacity);
  }

  lemma FoldLaw(s: State, env: Env)
    ensures var t := Fold(s, env);
      && t.iversion == (if !env.writers && |Table(s)| == 1 && Table(s)[0].end == s.iversion then Table(s)[0].start else s.iversion)
      && t.dataInvalid == s.dataInvalid && t.base == s.base && t.changes == s.changes
  {
  }

  // Taking over a reply.
  lemma UpdateLaw(s: State, f: Fattr, env: Env, capacity: nat)
    ensures var t := Update(s, f, env, capacity);
      && t.iversion == (if f.change.Some? then f.change.value else s.iversion)
      && (env.noPages ==> !t.dataInvalid)
      && (!env.noPages && s.dataInvalid ==> t.dataInvalid)
  {
    hide SetCacheInvalid, WccUpdate, MoveTo, Fold;
    WccLaw(s, f, env);
    var s1 := WccUpdate(s, f, env);
    var size := env.sizeChanged && !env.writers;
    InvalidLaw(s1, size, env.noPages);
    if f.change.Some? {
      FoldLaw(s1, env);
      var s2 := Fold(s1, env);
      InvalidLaw(s2, size, env.noPages);
      MoveLaw(s2, f, env, capacity);
      InvalidLaw(MoveTo(s2, f, env, capacity), (!env.writers && !env.delegated) || size, env.noPages);
    }
  }

  // The same where the data was valid: exactly which replies make it invalid, and what is accounted.
  lemma UpdateValid(s: State, f: Fattr, env: Env, capacity: nat)
    requires !env.noPages && !s.dataInvalid
    ensures var t := Update(s, f, env, capacity);
      && (t.dataInvalid <==>
            || (env.isDir && Follows(s.iversion, f))
            || (env.sizeChanged && !env.writers)
            || (!env.writers && !env.delegated && f.change.Some?
                && Believed(s.iversion, Table(s), f, false) != f.change.value))
      && (!t.dataInvalid ==> t.base == s.base && t.changes == s.changes + TakenOver(s.iversion, Table(s), f, env))
  {
    hide SetCacheInvalid, WccUpdate, MoveTo, Fold;
    WccLaw(s, f, env);
    var s1 := WccUpdate(s, f, env);
    var size := env.sizeChanged && !env.writers;
    InvalidLaw(s1, size, env.noPages);
    if f.change.Some? {
      FoldLaw(s1, env);
      var s2 := Fold(s1, env);
      InvalidLaw(s2, size, env.noPages);
      MoveLaw(s2, f, env, capacity);
      InvalidLaw(MoveTo(s2, f, env, capacity), (!env.writers && !env.delegated) || size, env.noPages);
    }
  }

  // The counter is at the reply's version, and the data is invalid exactly if it was or for a reason.
  predicate Updated(s: State, t: State, f: Fattr, env: Env) {
    && t.iversion == (if f.change.Some? then f.change.value else s.iversion)
    && (t.dataInvalid <==>
          && !env.noPages
          && (|| s.dataInvalid
              || (env.isDir && Follows(s.iversion, f))
              || (env.sizeChanged && !env.writers)
              || (!env.writers && !env.delegated && f.change.Some?
                  && Believed(s.iversion, Table(s), f, false) != f.change.value)))
  }

  lemma UpdateIs(s: State, f: Fattr, env: Env, capacity: nat)
    ensures Updated(s, Update(s, f, env, capacity), f, env)
  {
    hide Update, Believed;
    UpdateLaw(s, f, env, capacity);
    if !env.noPages && !s.dataInvalid { UpdateValid(s, f, env, capacity); }
  }

  lemma RefreshLaw(s: State, f: Fattr, env: Env, newer: bool, recheck: bool, capacity: nat)
    ensures var t := Refresh(s, f, env, newer, recheck, capacity);
      && t.iversion == (if newer && f.change.Some? then f.change.value else s.iversion)
      && ((newer || recheck) && env.noPages ==> !t.dataInvalid)
      && (!((newer || recheck) && env.noPages) && s.dataInvalid ==> t.dataInvalid)
      && (!newer && !((newer || recheck) && env.noPages) ==> t.dataInvalid == s.dataInvalid)
  {
    hide Update, SetCacheInvalid, Record;
    UpdateLaw(s, f, env, capacity);
    RecordLaw(s, f, env.alloc, capacity);
    InvalidLaw(Record(s, f, env.alloc, capacity), false, env.noPages);
  }

  lemma PostOpLaw(s: State, f: Fattr, env: Env, newer: bool, recheck: bool, capacity: nat)
    ensures var t := PostOp(s, f, env, newer, recheck, capacity);
      && t.iversion == (if f.present && newer && f.change.Some? then f.change.value else s.iversion)
      && (env.noPages ==> !t.dataInvalid)
      && (!env.noPages && (s.dataInvalid || env.isDir) ==> t.dataInvalid)
  {
    hide Refresh, SetCacheInvalid;
    InvalidLaw(s, env.isDir, env.noPages);
    RefreshLaw(SetCacheInvalid(s, env.isDir, env.noPages), f, env, newer, recheck, capacity);
  }

  // What an event accounts for while the data stays valid.
  function Accounted(s: State, e: Event, capacity: nat): seq<Change> {
    match e
    case RefreshReply(f, env, newer, _) => Compared(s, e, capacity)
    case PostOpReply(f, env, newer, _) => if f.present then Compared(s, e, capacity) else []
    case WriteReply(f, env, cmp, newer, _) =>
      if cmp < 0 then []
      else if !f.present || cmp == 0 then Own(f) + (if Applies(e) then Compared(s, e, capacity) else [])
      else Compared(s, e, capacity)
    case _ => []
  }

  // A reply that is taken over, or an older one that is only recorded.
  function Compared(s: State, e: Event, capacity: nat): seq<Change>
    requires e.RefreshReply? || e.PostOpReply? || e.WriteReply?
  {
    if Applies(e) then TakenOver(s.iversion, Gaps(s, e, capacity), Pair(s, e), e.env)
    else if MakesUpPair(e) then [Change(Span(s.iversion, e.f.change.value), ForcedWcc)]
    else Own(e.f)
  }

  predicate MakesUpPair(e: Event) { e.WriteReply? && MakesUp(e.f, e.cmp) }

  // The data stays valid in the state reached, and nothing closes the books on the way.
  predicate Quiet(s: State, e: Event, t: State) { !s.dataInvalid && !Gone(e) && !t.dataInvalid }

  lemma RefreshValid(s: State, f: Fattr, env: Env, newer: bool, recheck: bool, capacity: nat)
    requires !s.dataInvalid
    ensures var e := RefreshReply(f, env, newer, recheck);
      var t := Refresh(s, f, env, newer, recheck, capacity);
      && (!Gone(e) ==> (t.dataInvalid <==> Alarm(s, e, capacity)))
      && (Quiet(s, e, t) ==> t.base == s.base && t.changes == s.changes + Accounted(s, e, capacity))
  {
    hide Update, SetCacheInvalid, Record;
    if newer {
      if !env.noPages { UpdateValid(s, f, env, capacity); }
    } else {
      RecordLaw(s, f, env.alloc, capacity);
      InvalidLaw(Record(s, f, env.alloc, capacity), false, env.noPages);
    }
  }

  lemma PostOpValid(s: State, f: Fattr, env: Env, newer: bool, recheck: bool, capacity: nat)
    requires !s.dataInvalid && !env.noPages
    ensures var e := PostOpReply(f, env, newer, recheck);
      var t := PostOp(s, f, env, newer, recheck, capacity);
      && (t.dataInvalid <==> Alarm(s, e, capacity))
      && (!t.dataInvalid ==> t.base == s.base && t.changes == s.changes + Accounted(s, e, capacity))
  {
    if env.isDir {
      PostOpLaw(s, f, env, newer, recheck, capacity);
    } else {
      hide Refresh, SetCacheInvalid;
      InvalidLaw(s, false, false);
      if f.present { RefreshValid(s, f, env, newer, recheck, capacity); }
    }
  }

  lemma WriteValid(s: State, f: Fattr, env: Env, cmp: int, newer: bool, recheck: bool, capacity: nat)
    requires !s.dataInvalid && !env.noPages && cmp >= 0
    ensures var e := WriteReply(f, env, cmp, newer, recheck);
      var t := ForceWcc(s, f, env, cmp, newer, recheck, capacity);
      && (t.dataInvalid <==> Alarm(s, e, capacity))
      && (!t.dataInvalid ==> t.base == s.base && t.changes == s.changes + Accounted(s, e, capacity))
  {
    hide PostOp, Record;
    if !f.present || cmp == 0 {
      RecordLaw(s, f, env.alloc, capacity);
      PostOpValid(Record(s, f, env.alloc, capacity), f.(preChange := None), env, newer, recheck, capacity);
    } else if f.change.Some? && f.preChange.None? {
      PostOpValid(s, f.(preChange := Some(s.iversion), madeUp := true), env, newer, recheck, capacity);
    } else {
      PostOpValid(s, f, env, newer, recheck, capacity);
    }
  }

  // Data is marked invalid exactly for a reason, and stays so until it is gone.
  lemma StepData(s: State, e: Event, capacity: nat)
    ensures Step(s, e, capacity).dataInvalid == (!Gone(e) && (s.dataInvalid || Alarm(s, e, capacity)))
  {
    match e
    case RefreshReply(f, env, newer, recheck) =>
      RefreshLaw(s, f, env, newer, recheck, capacity);
      if !s.dataInvalid { RefreshValid(s, f, env, newer, recheck, capacity); }
    case PostOpReply(f, env, newer, recheck) =>
      PostOpLaw(s, f, env, newer, recheck, capacity);
      if !s.dataInvalid && !env.noPages { PostOpValid(s, f, env, newer, recheck, capacity); }
    case WriteReply(f, env, cmp, newer, recheck) => WriteData(s, f, env, cmp, newer, recheck, capacity);
    case Invalidate(data, noPages) => InvalidLaw(s, data, noPages);
    case Dropped =>
  }

  lemma WriteData(s: State, f: Fattr, env: Env, cmp: int, newer: bool, recheck: bool, capacity: nat)
    ensures var e := WriteReply(f, env, cmp, newer, recheck);
      ForceWcc(s, f, env, cmp, newer, recheck, capacity).dataInvalid == (!Gone(e) && (s.dataInvalid || Alarm(s, e, capacity)))
  {
    if cmp >= 0 {
      if s.dataInvalid || env.noPages {
        RecordLaw(s, f, env.alloc, capacity);
        PostOpLaw(Record(s, f, env.alloc, capacity), f.(preChange := None), env, newer, recheck, capacity);
        PostOpLaw(s, f.(preChange := Some(s.iversion), madeUp := true), env, newer, recheck, capacity);
        PostOpLaw(s, f, env, newer, recheck, capacity);
      } else {
        WriteValid(s, f, env, cmp, newer, recheck, capacity);
      }
    }
  }

  // The books are closed only together with the data; otherwise they gain what the event accounts for.
  lemma StepBooks(s: State, e: Event, capacity: nat)
    requires Quiet(s, e, Step(s, e, capacity))
    ensures Step(s, e, capacity).base == s.base
    ensures Step(s, e, capacity).changes == s.changes + Accounted(s, e, capacity)
  {
    match e
    case RefreshReply(f, env, newer, recheck) => RefreshValid(s, f, env, newer, recheck, capacity);
    case PostOpReply(f, env, newer, recheck) => PostOpValid(s, f, env, newer, recheck, capacity);
    case WriteReply(f, env, cmp, newer, recheck) =>
      if cmp >= 0 { WriteValid(s, f, env, cmp, newer, recheck, capacity); }
    case Invalidate(data, noPages) => InvalidLaw(s, data, noPages);
  }

  lemma StepCounter(s: State, e: Event, capacity: nat)
    ensures Step(s, e, capacity).iversion == if Applies(e) && e.f.change.Some? then e.f.change.value else s.iversion
  {
    match e
    case RefreshReply(f, env, newer, recheck) => RefreshLaw(s, f, env, newer, recheck, capacity);
    case PostOpReply(f, env, newer, recheck) => PostOpLaw(s, f, env, newer, recheck, capacity);
    case WriteReply(f, env, cmp, newer, recheck) =>
      RecordLaw(s, f, env.alloc, capacity);
      PostOpLaw(Record(s, f, env.alloc, capacity), f.(preChange := None), env, newer, recheck, capacity);
      PostOpLaw(s, f.(preChange := Some(s.iversion), madeUp := true), env, newer, recheck, capacity);
      PostOpLaw(s, f, env, newer, recheck, capacity);
    case Invalidate(data, noPages) => InvalidLaw(s, data, noPages);
    case Dropped =>
  }

  // ------------------------------------------------ over every run

  // The version in the last reply that was taken over.
  function LastVersion(v: Version, es: seq<Event>): Version {
    if es == [] then v
    else
      var e := es[|es|-1];
      if Applies(e) && e.f.change.Some? then e.f.change.value else LastVersion(v, es[..|es|-1])
  }

  // The counter is the change attribute of the last reply taken over, whatever was folded in between.
  lemma {:induction false} CounterIsLastVersion(v: Version, es: seq<Event>, capacity: nat)
    ensures Run(Fresh(v), es, capacity).iversion == LastVersion(v, es)
  {
    if es != [] {
      CounterIsLastVersion(v, es[..|es|-1], capacity);
      StepCounter(Run(Fresh(v), es[..|es|-1], capacity), es[|es|-1], capacity);
    }
  }

  // The k-th event was a reason to mark the data invalid.
  predicate AlarmAt(v: Version, es: seq<Event>, k: nat, capacity: nat)
    requires k < |es|
  {
    Alarm(Run(Fresh(v), es[..k], capacity), es[k], capacity)
  }

  ghost predicate StandsSince(v: Version, es: seq<Event>, k: nat, capacity: nat)
    requires k < |es|
  {
    AlarmAt(v, es, k, capacity) && forall j :: k < j < |es| ==> !Gone(es[j])
  }

  lemma AlarmNotGone(s: State, e: Event, capacity: nat)
    requires Alarm(s, e, capacity)
    ensures !Gone(e)
  {
  }

  lemma Prefix(v: Version, es: seq<Event>, k: nat, capacity: nat)
    requires k < |es| - 1
    ensures StandsSince(v, es, k, capacity) <==> StandsSince(v, es[..|es|-1], k, capacity) && !Gone(es[|es|-1])
  {
    var n := |es| - 1;
    assert es[..n][..k] == es[..k] && es[..n][k] == es[k];
    forall j | k < j < n ensures es[..n][j] == es[j] {}
  }

  // The data is marked invalid exactly when some event since the data last went was a reason for it.
  lemma {:induction false} InvalidIffAlarmed(v: Version, es: seq<Event>, capacity: nat)
    ensures Run(Fresh(v), es, capacity).dataInvalid
       <==> exists k :: 0 <= k < |es| && StandsSince(v, es, k, capacity)
  {
    if es != [] {
      var n := |es| - 1;
      InvalidIffAlarmed(v, es[..n], capacity);
      StepData(Run(Fresh(v), es[..n], capacity), es[n], capacity);
      forall k | 0 <= k < n
        ensures StandsSince(v, es, k, capacity) <==> StandsSince(v, es[..n], k, capacity) && !Gone(es[n])
      {
        Prefix(v, es, k, capacity);
      }
      if AlarmAt(v, es, n, capacity) {
        AlarmNotGone(Run(Fresh(v), es[..n], capacity), es[n], capacity);
        assert StandsSince(v, es, n, capacity);
      }
      if Run(Fresh(v), es[..n], capacity).dataInvalid && !Gone(es[n]) {
        var k :| 0 <= k < n && StandsSince(v, es[..n], k, capacity);
        assert StandsSince(v, es, k, capacity);
      }
    }
  }

  // No foreign change is missed: after a newer reply with a version the client does not believe in,
  // without writers or delegation and with pages cached, the data is invalid until it is gone.
  lemma ForeignChangeInvalidates(v: Version, es: seq<Event>, k: nat, capacity: nat)
    requires k < |es| && Foreign(Run(Fresh(v), es[..k], capacity), es[k], capacity) && !NoPages(es[k])
    requires forall j :: k < j < |es| ==> !Gone(es[j])
    ensures Run(Fresh(v), es, capacity).dataInvalid
  {
    InvalidIffAlarmed(v, es, capacity);
    assert StandsSince(v, es, k, capacity);
  }

  // ------------------------------------------------ overflow

  lemma {:induction false} AbsorbShrinks(g: seq<Span>, s: Span, i: nat)
    requires i <= |g|
    ensures |Absorb(g, s, i).rest| <= |g|
    decreases |g|, |g| - i
  {
    if i < |g| {
      if s.end == g[i].start { AbsorbShrinks(Without(g, i), Span(s.start, g[i].end), 0); }
      else if s.start == g[i].end { AbsorbShrinks(Without(g, i), Span(g[i].start, s.end), 0); }
      else { AbsorbShrinks(g, s, i + 1); }
    }
  }

  // At most n ranges, and not given up.
  predicate Within(s: State, n: nat) { !s.deferInval && |Table(s)| <= n }

  lemma MergeWithin(s: State, span: Span, n: nat, capacity: nat)
    requires Within(s, n) && n < capacity
    ensures Within(Merge(s, span, true, capacity), n + 1)
  {
    AbsorbShrinks(Table(s), span, 0);
  }

  lemma RecordWithin(s: State, f: Fattr, n: nat, capacity: nat)
    requires Within(s, n) && n < capacity
    ensures Within(Record(s, f, true, capacity), n + 1)
  {
    if f.change.Some? && f.preChange.Some? { MergeWithin(s, Span(f.change.value, f.preChange.value), n, capacity); }
  }

  lemma MoveWithin(s: State, f: Fattr, env: Env, n: nat, capacity: nat)
    requires Within(s, n) && n + 1 < capacity && f.change.Some? && env.alloc && env.allocAgain
    ensures Within(MoveTo(s, f, env, capacity), n + 2)
  {
    RecordWithin(s, f, n, capacity);
    MergeWithin(Record(s, f, true, capacity), Span(s.iversion, f.change.value), n + 1, capacity);
  }

  lemma UpdateWithin(s: State, f: Fattr, env: Env, n: nat, capacity: nat)
    requires Within(s, n) && n + 1 < capacity && env.alloc && env.allocAgain
    ensures Within(Update(s, f, env, capacity), n + 2)
  {
    var s1 := WccUpdate(s, f, env);
    assert Within(s1, n);
    if f.change.Some? { MoveWithin(Fold(s1, env), f, env, n, capacity); }
  }

  lemma PostOpWithin(s: State, f: Fattr, env: Env, newer: bool, recheck: bool, n: nat, capacity: nat)
    requires Within(s, n) && n + 1 < capacity && env.alloc && env.allocAgain
    ensures Within(Refresh(s, f, env, newer, recheck, capacity), n + 2)
    ensures Within(PostOp(s, f, env, newer, recheck, capacity), n + 2)
  {
    var t := SetCacheInvalid(s, env.isDir, env.noPages);
    assert Within(t, n);
    UpdateWithin(s, f, env, n, capacity);
    RecordWithin(s, f, n, capacity);
    UpdateWithin(t, f, env, n, capacity);
    RecordWithin(t, f, n, capacity);
  }

  predicate Allocates(e: Event) {
    e.RefreshReply? || e.PostOpReply? || e.WriteReply? ==> e.env.alloc && e.env.allocAgain
  }

  lemma StepWithin(s: State, e: Event, n: nat, capacity: nat)
    requires Within(s, n) && n + 2 < capacity && Allocates(e)
    ensures Within(Step(s, e, capacity), n + 3)
  {
    match e
    case RefreshReply(f, env, newer, recheck) => PostOpWithin(s, f, env, newer, recheck, n, capacity);
    case PostOpReply(f, env, newer, recheck) => PostOpWithin(s, f, env, newer, recheck, n, capacity);
    case WriteReply(f, env, cmp, newer, recheck) =>
      RecordWithin(s, f, n, capacity);
      PostOpWithin(Record(s, f, true, capacity), f.(preChange := None), env, newer, recheck, n + 1, capacity);
      PostOpWithin(s, f.(preChange := Some(s.iversion), madeUp := true), env, newer, recheck, n, capacity);
      PostOpWithin(s, f, env, newer, recheck, n, capacity);
    case Invalidate(_, _) =>
    case Dropped =>
  }

  // Tracking is given up only for want of memory or room.
  lemma {:induction false} GivenUpOnlyWhenFull(v: Version, es: seq<Event>, capacity: nat)
    requires (forall e :: e in es ==> Allocates(e)) && 3 * |es| <= capacity
    ensures Within(Run(Fresh(v), es, capacity), 3 * |es|)
  {
    if es != [] {
      assert forall e :: e in es[..|es|-1] ==> e in es;
      GivenUpOnlyWhenFull(v, es[..|es|-1], capacity);
      StepWithin(Run(Fresh(v), es[..|es|-1], capacity), es[|es|-1], 3 * (|es| - 1), capacity);
    }
  }
}
