/**
 What every run of callback compounds keeps.
 */
module CallbackRuns {
  import opened Lists
  import opened Wrappers
  import opened Callback

  // ------------------------------------------------ one compound

  // Operations tried and result headers written.
  predicate Counted(x: Compound) {
    && (x.status == ResourceHdr ==> x.nops > 0)
    && (x.forged ==> x.status == ResourceHdr)
    && x.headers == (if x.status == ResourceHdr && !x.forged then x.nops - 1 else x.nops)
  }

  // Each reference and each lock is given back once.
  predicate Balanced(x: Compound) {
    && x.gets <= 1 && x.gets == x.puts + (if x.clp.Some? then 1 else 0)
    && x.locks <= 1 && x.locks == x.frees + (if x.slot.Some? then 1 else 0)
    && (x.slot.Some? ==> x.clp.Some?) && (x.done ==> x.clp.None? && x.waiting.None?)
  }

  // CB_SEQUENCE comes first in a session, and nothing is executed without it.
  predicate Sequenced(x: Compound) {
    && (x.waiting.Some? ==> x.slot.Some? && x.nops == 0 && x.status == Ok)
    && (x.minor == 0 ==> x.locks == 0 && x.accepted.None? && !x.replay)
    && (x.nops == 0 ==> x.executed == 0 && x.accepted.None? && !x.replay)
    && (x.minor != 0 && x.nops == 0 && x.waiting.None? ==> x.gets == 0 && x.locks == 0)
    && (x.minor != 0 && x.nops > 0 && x.status == Ok ==> x.accepted.Some? || x.replay)
    && (x.minor != 0 && x.executed > 0 ==> x.accepted.Some?)
    && (x.replay ==> x.executed == 0 && x.locks == 0 && x.accepted.None?)
  }

  predicate Fine(x: Compound) { Counted(x) && Balanced(x) && Sequenced(x) }

  ghost predicate AllFine(s: State) { forall c :: c in s.runs ==> Fine(s.runs[c]) }

  ghost predicate Known(s: State) {
    forall c :: c in s.runs && s.runs[c].clp.Some? ==> s.runs[c].clp.value in s.clients
  }

  // Only the named compound changes.
  ghost predicate OnlyRun(s: State, s': State, c: nat) {
    c in s'.runs && forall d :: d != c ==> (d in s'.runs <==> d in s.runs) && (d in s.runs ==> s'.runs[d] == s.runs[d])
  }

  lemma BeginFine(s: State, c: nat, minor: nat, total: nat, decoded: Status, ident: Option<nat>, principal: bool, room: bool)
    requires (ident.Some? ==> ident.value in s.clients) && decoded != ResourceHdr
    ensures var s' := Begin(s, c, minor, total, decoded, ident, principal, room);
      OnlyRun(s, s', c) && Fine(s'.runs[c])
  {
  }

  // The compound goes on with another operation.
  predicate Going(x: Compound) { Fine(x) && x.waiting.None? && x.status == Ok && !x.done }

  lemma RefusedFine(x: Compound, status: Status, tail: Tail)
    requires Going(x) && status != Ok
    ensures Fine(Close(x, status, tail))
  {
  }

  lemma HandledFine(x: Compound, op: Op, status: Status, tail: Tail)
    requires Going(x) && op != Sequence && !x.replay && Preprocess(x.minor, x.nops, op) == Ok
    ensures Fine(Close(x.(executed := x.executed + 1), status, tail))
  {
  }

  lemma TruncatedFine(x: Compound)
    requires Going(x)
    ensures Fine(x.(nops := x.nops + 1, status := ResourceHdr))
  {
  }

  // Operations that do not touch the session.
  lemma PlainFine(s: State, e: Event)
    requires (e.Truncated? || e.Refused? || e.Handle?) && Enabled(s, e) && Fine(s.runs[e.c])
    ensures OnlyRun(s, Step(s, e), e.c) && Fine(Step(s, e).runs[e.c])
  {
    hide Fine, Close;
    match e
    case Truncated(c) => TruncatedFine(s.runs[c]);
    case Refused(c, op, why, tail) => RefusedFine(s.runs[c], Refusal(s.runs[c], op, why), tail);
    case Handle(c, op, result, tail) => HandledFine(s.runs[c], op, result, tail);
  }

  lemma EnterFine(s: State, c: nat, env: Env, args: SeqArgs, tail: Tail)
    requires Enabled(s, SeqEnter(c, env, args, tail)) && Fine(s.runs[c])
    ensures Fine(Enter(s, c, env, args, tail).runs[c])
  {
    hide Enter, Answered, VerdictOf;
    EnterRun(s, c, env, args, tail);
    AnsweredFine(s.runs[c], env, args, tail, VerdictOf(s, env, args));
  }

  // The compound's side of CB_SEQUENCE.
  function Answered(x: Compound, env: Env, args: SeqArgs, tail: Tail, status: Status): Compound {
    if env.client.None? then Close(x, BadSession, tail)
    else
      var y := x.(clp := env.client, gets := x.gets + 1);
      if status == RetryUncachedRep then Close(y.(replay := true), Ok, tail)
      else if status != Ok then Close(y, status, tail)
      else
        var z := y.(slot := Some(args.slot), locks := y.locks + 1);
        if args.cacheThis then Close(z, RepTooBigToCache, tail) else z.(waiting := Some(args.seqid))
  }

  // The client's side of CB_SEQUENCE.
  function Asked(cl: Client, c: nat, args: SeqArgs, status: Status): Client {
    var up := cl.(refs := cl.refs + 1);
    if status == Ok then up.(used := up.used[args.slot := c]) else up
  }

  function VerdictOf(s: State, env: Env, args: SeqArgs): Status
    requires env.client.Some? ==> env.client.value in s.clients
  {
    if env.client.Some? then Verdict(s.clients[env.client.value], env, args) else BadSession
  }

  // Both sides together.
  lemma EnterIs(s: State, c: nat, env: Env, args: SeqArgs, tail: Tail)
    requires c in s.runs && (env.client.Some? ==> env.client.value in s.clients)
    ensures Enter(s, c, env, args, tail).runs == s.runs[c := Answered(s.runs[c], env, args, tail, VerdictOf(s, env, args))]
    ensures Enter(s, c, env, args, tail).clients ==
      if env.client.None? then s.clients
      else s.clients[env.client.value := Asked(s.clients[env.client.value], c, args, VerdictOf(s, env, args))]
  {
    hide Verdict, Close;
  }

  lemma EnterRun(s: State, c: nat, env: Env, args: SeqArgs, tail: Tail)
    requires c in s.runs && (env.client.Some? ==> env.client.value in s.clients)
    ensures OnlyRun(s, Enter(s, c, env, args, tail), c)
    ensures Enter(s, c, env, args, tail).runs[c] == Answered(s.runs[c], env, args, tail, VerdictOf(s, env, args))
  {
    hide Enter, Answered, VerdictOf;
    EnterIs(s, c, env, args, tail);
  }

  lemma AnsweredFine(x: Compound, env: Env, args: SeqArgs, tail: Tail, status: Status)
    requires Fine(x) && x.waiting.None? && x.status == Ok && !x.done && x.minor != 0 && x.nops == 0
    ensures Fine(Answered(x, env, args, tail, status))
  {
  }

  lemma ExitFine(s: State, c: nat, tail: Tail)
    requires Enabled(s, SeqExit(c, tail)) && Sane(s, c) && Fine(s.runs[c])
    ensures OnlyRun(s, Exit(s, c, tail), c) && Fine(Exit(s, c, tail).runs[c])
  {
  }

  lemma EndFine(s: State, c: nat)
    requires Enabled(s, Finish(c)) && Sane(s, c) && Fine(s.runs[c])
    ensures OnlyRun(s, End(s, c), c) && Fine(End(s, c).runs[c])
  {
  }

  lemma OnlyRunFine(s: State, s': State, c: nat)
    requires AllFine(s) && OnlyRun(s, s', c) && Fine(s'.runs[c])
    ensures AllFine(s')
  {
  }

  lemma StepFine(s: State, e: Event)
    requires AllFine(s) && Enabled(s, e) && (e.SeqExit? || e.Finish? ==> Sane(s, e.c))
    ensures AllFine(Step(s, e))
  {
    match e
    case NewClient(_) =>
    case Get(_) =>
    case Put(_) =>
    case Start(c, minor, total, decoded, ident, principal, room) =>
      BeginFine(s, c, minor, total, decoded, ident, principal, room);
      OnlyRunFine(s, Step(s, e), c);
    case SeqEnter(c, env, args, tail) =>
      EnterFine(s, c, env, args, tail);
      EnterRun(s, c, env, args, tail);
      OnlyRunFine(s, Step(s, e), c);
    case SeqExit(c, tail) =>
      ExitFine(s, c, tail);
      OnlyRunFine(s, Step(s, e), c);
    case Finish(c) =>
      EndFine(s, c);
      OnlyRunFine(s, Step(s, e), c);
    case _ =>
      PlainFine(s, e);
      OnlyRunFine(s, Step(s, e), e.c);
  }

  lemma FineSane(s: State, c: nat)
    requires AllFine(s) && Known(s) && c in s.runs
    ensures Sane(s, c)
  {
    assert Fine(s.runs[c]);
  }

  // ------------------------------------------------ slots and their owners

  ghost predicate Owned(s: State) {
    && (forall c :: c in s.runs && s.runs[c].slot.Some? ==> Owner(s, c))
    && (forall k, i :: k in s.clients && i in s.clients[k].used ==> OwnedBy(s, k, i, s.clients[k].used[i]))
  }

  // The slot a compound thinks it holds is locked in its name.
  predicate Owner(s: State, c: nat)
    requires c in s.runs && s.runs[c].slot.Some?
  {
    var x := s.runs[c];
    && x.clp.Some? && x.clp.value in s.clients
    && x.slot.value in s.clients[x.clp.value].used && s.clients[x.clp.value].used[x.slot.value] == c
  }

  predicate OwnedBy(s: State, k: nat, i: nat, c: nat) {
    c in s.runs && s.runs[c].clp == Some(k) && s.runs[c].slot == Some(i)
  }

  // The steps that touch neither slots nor clients' tables.
  ghost predicate SameSlots(s: State, s': State) {
    && (forall c :: c in s.runs ==>
         c in s'.runs && s'.runs[c].slot == s.runs[c].slot && (s.runs[c].slot.Some? ==> s'.runs[c].clp == s.runs[c].clp))
    && (forall c :: c in s'.runs && c !in s.runs ==> s'.runs[c].slot.None?)
    && (forall k :: k in s.clients ==> k in s'.clients && s'.clients[k].used == s.clients[k].used)
    && (forall k :: k in s'.clients && k !in s.clients ==> s'.clients[k].used == map[])
  }

  lemma SameSlotsOwned(s: State, s': State)
    requires Owned(s) && SameSlots(s, s')
    ensures Owned(s')
  {
    forall c | c in s'.runs && s'.runs[c].slot.Some? ensures Owner(s', c) {
      assert Owner(s, c);
    }
    forall k, i | k in s'.clients && i in s'.clients[k].used ensures OwnedBy(s', k, i, s'.clients[k].used[i]) {
      assert OwnedBy(s, k, i, s.clients[k].used[i]);
    }
  }

  // Does CB_SEQUENCE get as far as locking the slot?
  predicate Locks(s: State, env: Env, args: SeqArgs)
    requires env.client.Some? ==> env.client.value in s.clients
  {
    env.client.Some? && Verdict(s.clients[env.client.value], env, args) == Ok
  }

  lemma AnsweredLocks(x: Compound, env: Env, args: SeqArgs, tail: Tail)
    requires env.client.Some?
    ensures Answered(x, env, args, tail, Ok).slot == Some(args.slot) && Answered(x, env, args, tail, Ok).clp == env.client
  {
  }

  lemma LocksFreeSlot(cl: Client, env: Env, args: SeqArgs)
    requires Verdict(cl, env, args) == Ok
    ensures args.slot !in cl.used
  {
  }

  lemma LockOwned(s: State, c: nat, env: Env, args: SeqArgs, tail: Tail)
    requires Owned(s) && c in s.runs && s.runs[c].slot.None?
    requires (env.client.Some? ==> env.client.value in s.clients) && Locks(s, env, args)
    ensures Owned(Enter(s, c, env, args, tail))
  {
    hide Enter, Verdict, Close;
    var s' := Enter(s, c, env, args, tail);
    var k, i := env.client.value, args.slot;
    EnterIs(s, c, env, args, tail);
    AnsweredLocks(s.runs[c], env, args, tail);
    LocksFreeSlot(s.clients[k], env, args);
    assert s'.runs[c].slot == Some(i) && s'.runs[c].clp == Some(k);
    assert s'.clients[k].used == s.clients[k].used[i := c];
    forall d | d in s'.runs && s'.runs[d].slot.Some? ensures Owner(s', d) {
      if d != c { assert Owner(s, d); }
    }
    forall k', i' | k' in s'.clients && i' in s'.clients[k'].used ensures OwnedBy(s', k', i', s'.clients[k'].used[i']) {
      if (k', i') != (k, i) { assert OwnedBy(s, k', i', s.clients[k'].used[i']); }
    }
  }

  lemma FreeOwned(s: State, c: nat)
    requires Owned(s) && Sane(s, c) && s.runs[c].slot.Some?
    ensures Owned(End(s, c))
  {
    var s' := End(s, c);
    var k, i := s.runs[c].clp.value, s.runs[c].slot.value;
    assert Owner(s, c);
    assert s'.clients[k].used == s.clients[k].used - {i};
    forall d | d in s'.runs && s'.runs[d].slot.Some? ensures Owner(s', d) {
      assert Owner(s, d);
    }
    forall k', i' | k' in s'.clients && i' in s'.clients[k'].used ensures OwnedBy(s', k', i', s'.clients[k'].used[i']) {
      assert OwnedBy(s, k', i', s.clients[k'].used[i']);
    }
  }

  lemma CloseKeeps(x: Compound, status: Status, tail: Tail)
    ensures var y := Close(x, status, tail);
      y.slot == x.slot && y.clp == x.clp && y.waiting == x.waiting && y.accepted == x.accepted
  {
  }

  lemma AnsweredKeeps(x: Compound, env: Env, args: SeqArgs, tail: Tail, status: Status)
    ensures var y := Answered(x, env, args, tail, status);
      && y.accepted == x.accepted && y.clp == (if env.client.Some? then env.client else x.clp)
      && (env.client.None? || status != Ok ==> y.slot == x.slot && y.waiting == x.waiting)
  {
    hide Close;
    var y := x.(clp := env.client, gets := x.gets + 1);
    CloseKeeps(x, BadSession, tail);
    CloseKeeps(y.(replay := true), Ok, tail);
    CloseKeeps(y, status, tail);
    CloseKeeps(y.(slot := Some(args.slot), locks := y.locks + 1), RepTooBigToCache, tail);
  }

  // CB_SEQUENCE that fails, and the other steps.
  lemma EnterSameSlots(s: State, c: nat, env: Env, args: SeqArgs, tail: Tail)
    requires Enabled(s, SeqEnter(c, env, args, tail)) && Fine(s.runs[c]) && !Locks(s, env, args)
    ensures SameSlots(s, Enter(s, c, env, args, tail))
  {
    hide Enter, Answered, Verdict;
    EnterIs(s, c, env, args, tail);
    AnsweredKeeps(s.runs[c], env, args, tail, VerdictOf(s, env, args));
  }

  lemma ExitSameSlots(s: State, c: nat, tail: Tail)
    requires Enabled(s, SeqExit(c, tail)) && Sane(s, c)
    ensures SameSlots(s, Exit(s, c, tail))
  {
  }

  lemma RunSlots(s: State, c: nat, x: Compound)
    requires c in s.runs && x.slot == s.runs[c].slot && x.clp == s.runs[c].clp
    ensures SameSlots(s, WithRun(s, c, x))
  {
  }

  lemma ClientSlots(s: State, k: nat, cl: Client)
    requires cl.used == if k in s.clients then s.clients[k].used else map[]
    ensures SameSlots(s, WithClient(s, k, cl))
  {
  }

  lemma BeginSameSlots(s: State, e: Event)
    requires Enabled(s, e) && e.Start?
    ensures SameSlots(s, Begin(s, e.c, e.minor, e.total, e.decoded, e.ident, e.principal, e.room))
  {
  }

  lemma EndSameSlots(s: State, c: nat)
    requires Sane(s, c) && s.runs[c].slot.None?
    ensures SameSlots(s, End(s, c))
  {
  }

  lemma OtherSameSlots(s: State, e: Event)
    requires Enabled(s, e) && !e.SeqEnter? && !e.SeqExit?
    requires e.Finish? ==> Sane(s, e.c) && s.runs[e.c].slot.None?
    ensures SameSlots(s, Step(s, e))
  {
    hide SameSlots, Close, Refusal, Begin, End;
    match e
    case NewClient(k) => ClientSlots(s, k, Client(0, 0, map[], map[], map[]));
    case Get(k) => ClientSlots(s, k, s.clients[k].(refs := s.clients[k].refs + 1, base := s.clients[k].base + 1));
    case Put(k) => ClientSlots(s, k, s.clients[k].(refs := s.clients[k].refs - 1, base := s.clients[k].base - 1));
    case Start(_, _, _, _, _, _, _) => BeginSameSlots(s, e);
    case Finish(c) => EndSameSlots(s, c);
    case Truncated(c) => RunSlots(s, c, Step(s, e).runs[c]);
    case Refused(c, op, why, tail) =>
      CloseKeeps(s.runs[c], Refusal(s.runs[c], op, why), tail);
      RunSlots(s, c, Step(s, e).runs[c]);
    case Handle(c, op, result, tail) =>
      CloseKeeps(s.runs[c].(executed := s.runs[c].executed + 1), result, tail);
      RunSlots(s, c, Step(s, e).runs[c]);
  }

  lemma StepOwned(s: State, e: Event)
    requires AllFine(s) && Known(s) && Owned(s) && Enabled(s, e) && (e.SeqExit? || e.Finish? ==> Sane(s, e.c))
    ensures Owned(Step(s, e))
  {
    if e.SeqEnter? && Locks(s, e.env, e.args) {
      assert Fine(s.runs[e.c]);
      LockOwned(s, e.c, e.env, e.args, e.tail);
    } else if e.Finish? && s.runs[e.c].slot.Some? {
      FreeOwned(s, e.c);
    } else {
      if e.SeqEnter? {
        EnterSameSlots(s, e.c, e.env, e.args, e.tail);
      } else if e.SeqExit? {
        ExitSameSlots(s, e.c, e.tail);
      } else {
        OtherSameSlots(s, e);
      }
      SameSlotsOwned(s, Step(s, e));
    }
  }

  // ------------------------------------------------ accepted sequence ids

  // The n-th id accepted on a slot is n modulo 2^32, and the slot stands at the last.
  ghost predicate Consecutive(cl: Client) {
    forall i ::
      && SeqNr(cl, i) == |Log(cl, i)| % TWO32
      && forall j :: 0 <= j < |Log(cl, i)| ==> Log(cl, i)[j].0 == (j + 1) % TWO32
  }

  ghost predicate Logged(s: State) { forall k :: k in s.clients ==> Consecutive(s.clients[k]) }

  // A CB_SEQUENCE in its wait still has the next id of its slot.
  predicate NextInLine(s: State, c: nat)
    requires c in s.runs
  {
    var x := s.runs[c];
    x.waiting.Some? ==>
      && x.slot.Some? && x.clp.Some? && x.clp.value in s.clients
      && x.waiting.value == (SeqNr(s.clients[x.clp.value], x.slot.value) + 1) % TWO32
  }

  ghost predicate Waits(s: State) { forall c :: c in s.runs ==> NextInLine(s, c) }

  // A compound's place in the log is its own.
  predicate Entered(s: State, c: nat)
    requires c in s.runs
  {
    var a := s.runs[c].accepted;
    a.Some? ==>
      && a.value.0 in s.clients && a.value.2 < |Log(s.clients[a.value.0], a.value.1)|
      && Log(s.clients[a.value.0], a.value.1)[a.value.2].1 == c
  }

  ghost predicate Accepts(s: State) { forall c :: c in s.runs ==> Entered(s, c) }

  ghost predicate SameLogs(s: State, s': State) {
    && (forall k :: k in s.clients ==>
         k in s'.clients && s'.clients[k].seqs == s.clients[k].seqs && s'.clients[k].log == s.clients[k].log)
    && (forall k :: k in s'.clients && k !in s.clients ==> s'.clients[k].seqs == map[] && s'.clients[k].log == map[])
  }

  lemma SameLogsLogged(s: State, s': State)
    requires Logged(s) && SameLogs(s, s')
    ensures Logged(s')
  {
    forall k | k in s'.clients ensures Consecutive(s'.clients[k]) {
      if k in s.clients {
        assert Consecutive(s.clients[k]);
        assert forall i :: SeqNr(s'.clients[k], i) == SeqNr(s.clients[k], i);
        assert forall i :: Log(s'.clients[k], i) == Log(s.clients[k], i);
      }
    }
  }

  // Every step but the end of an accepted CB_SEQUENCE leaves the slots where they were: errors and
  // replays never move one.
  lemma StepSameLogs(s: State, e: Event)
    requires Enabled(s, e) && !e.SeqExit? && (e.Finish? ==> Sane(s, e.c))
    ensures SameLogs(s, Step(s, e))
  {
    if e.SeqEnter? { EnterSameLogs(s, e.c, e.env, e.args, e.tail); } else { OtherSameLogs(s, e); }
  }

  lemma EnterSameLogs(s: State, c: nat, env: Env, args: SeqArgs, tail: Tail)
    requires c in s.runs && (env.client.Some? ==> env.client.value in s.clients)
    ensures SameLogs(s, Enter(s, c, env, args, tail))
  {
    hide Enter, Answered, VerdictOf;
    EnterIs(s, c, env, args, tail);
  }

  lemma ClientLogs(s: State, s': State, k: nat, cl: Client)
    requires s'.clients == s.clients[k := cl]
    requires cl.seqs == (if k in s.clients then s.clients[k].seqs else map[])
    requires cl.log == if k in s.clients then s.clients[k].log else map[]
    ensures SameLogs(s, s')
  {
  }

  lemma RunLogs(s: State, s': State)
    requires s'.clients == s.clients
    ensures SameLogs(s, s')
  {
  }

  lemma BeginSameLogs(s: State, e: Event)
    requires Enabled(s, e) && e.Start?
    ensures SameLogs(s, Step(s, e))
  {
  }

  lemma OtherSameLogs(s: State, e: Event)
    requires Enabled(s, e) && !e.SeqEnter? && !e.SeqExit? && (e.Finish? ==> Sane(s, e.c))
    ensures SameLogs(s, Step(s, e))
  {
    hide SameLogs, Close, Refusal, Begin;
    match e
    case NewClient(k) => ClientLogs(s, Step(s, e), k, Step(s, e).clients[k]);
    case Get(k) => ClientLogs(s, Step(s, e), k, Step(s, e).clients[k]);
    case Put(k) => ClientLogs(s, Step(s, e), k, Step(s, e).clients[k]);
    case Start(_, _, _, _, _, _, _) => BeginSameLogs(s, e);
    case Finish(c) =>
      if s.runs[c].clp.None? { RunLogs(s, Step(s, e)); }
      else { ClientLogs(s, Step(s, e), s.runs[c].clp.value, Step(s, e).clients[s.runs[c].clp.value]); }
    case Truncated(_) => RunLogs(s, Step(s, e));
    case Refused(_, _, _, _) => RunLogs(s, Step(s, e));
    case Handle(_, _, _, _) => RunLogs(s, Step(s, e));
  }

  lemma ExitClient(s: State, c: nat, tail: Tail)
    requires Enabled(s, SeqExit(c, tail)) && Sane(s, c)
    ensures var x := s.runs[c];
      var cl, cl' := s.clients[x.clp.value], Exit(s, c, tail).clients[x.clp.value];
      && (forall i :: i != x.slot.value ==> SeqNr(cl', i) == SeqNr(cl, i) && Log(cl', i) == Log(cl, i))
      && SeqNr(cl', x.slot.value) == x.waiting.value
      && Log(cl', x.slot.value) == Log(cl, x.slot.value) + [(x.waiting.value, c)]
      && (forall k :: k != x.clp.value ==> (k in s.clients <==> k in Exit(s, c, tail).clients))
      && (forall k :: k != x.clp.value && k in s.clients ==> Exit(s, c, tail).clients[k] == s.clients[k])
  {
  }

  lemma PlusOne(n: nat)
    ensures (n % TWO32 + 1) % TWO32 == (n + 1) % TWO32
  {
  }

  lemma ExitLogged(s: State, c: nat, tail: Tail)
    requires Logged(s) && Waits(s) && Enabled(s, SeqExit(c, tail)) && Sane(s, c)
    ensures Logged(Exit(s, c, tail))
  {
    var s' := Exit(s, c, tail);
    var x := s.runs[c];
    var k, i := x.clp.value, x.slot.value;
    ExitClient(s, c, tail);
    assert NextInLine(s, c) && Consecutive(s.clients[k]);
    PlusOne(|Log(s.clients[k], i)|);
    assert Consecutive(s'.clients[k]);
    forall k' | k' in s'.clients ensures Consecutive(s'.clients[k']) {
      if k' != k { assert Consecutive(s.clients[k']); }
    }
  }

  // ------------------------------------------------ waiting

  lemma SameLogsWaits(s: State, s': State, d: nat)
    requires SameLogs(s, s') && d in s.runs && d in s'.runs && NextInLine(s, d)
    requires s'.runs[d].waiting == s.runs[d].waiting || s'.runs[d].waiting.None?
    requires s'.runs[d].waiting.Some? ==> s'.runs[d].slot == s.runs[d].slot && s'.runs[d].clp == s.runs[d].clp
    ensures NextInLine(s', d)
  {
  }

  lemma EnterWaits(s: State, c: nat, env: Env, args: SeqArgs, tail: Tail)
    requires Enabled(s, SeqEnter(c, env, args, tail))
    ensures NextInLine(Enter(s, c, env, args, tail), c)
  {
  }

  lemma ExitWaits(s: State, c: nat, tail: Tail, d: nat)
    requires Waits(s) && Owned(s) && Enabled(s, SeqExit(c, tail)) && Sane(s, c) && d in s.runs
    ensures NextInLine(Exit(s, c, tail), d)
  {
    ExitClient(s, c, tail);
    assert NextInLine(s, d) && Owner(s, c);
    if d != c && s.runs[d].waiting.Some? { assert Owner(s, d); }
  }

  lemma OtherWaits(s: State, e: Event, d: nat)
    requires Enabled(s, e) && !e.SeqEnter? && !e.SeqExit? && (e.Finish? ==> Sane(s, e.c)) && d in Step(s, e).runs
    ensures var x := Step(s, e).runs[d];
      if d in s.runs then
        x.waiting == s.runs[d].waiting && (x.waiting.Some? ==> x.slot == s.runs[d].slot && x.clp == s.runs[d].clp)
      else x.waiting.None?
  {
  }

  lemma StepWaits(s: State, e: Event)
    requires Waits(s) && Owned(s) && Enabled(s, e) && (e.SeqExit? || e.Finish? ==> Sane(s, e.c))
    ensures Waits(Step(s, e))
  {
    forall d | d in Step(s, e).runs ensures NextInLine(Step(s, e), d) {
      if e.SeqExit? { ExitWaits(s, e.c, e.tail, d); } else { StepNextInLine(s, e, d); }
    }
  }

  lemma StepNextInLine(s: State, e: Event, d: nat)
    requires Waits(s) && Enabled(s, e) && !e.SeqExit? && (e.Finish? ==> Sane(s, e.c)) && d in Step(s, e).runs
    ensures NextInLine(Step(s, e), d)
  {
    StepSameLogs(s, e);
    if e.SeqEnter? {
      EnterRun(s, e.c, e.env, e.args, e.tail);
      EnterWaits(s, e.c, e.env, e.args, e.tail);
    } else {
      OtherWaits(s, e, d);
    }
    if d in s.runs && !(e.SeqEnter? && d == e.c) {
      assert NextInLine(s, d);
      SameLogsWaits(s, Step(s, e), d);
    }
  }

  // ------------------------------------------------ places in the log

  lemma ExitEntered(s: State, c: nat, tail: Tail, d: nat)
    requires Accepts(s) && Enabled(s, SeqExit(c, tail)) && Sane(s, c) && d in s.runs
    ensures Entered(Exit(s, c, tail), d)
  {
    ExitClient(s, c, tail);
    assert Entered(s, d);
  }

  // Nothing else touches the record of acceptance.
  lemma EnterAccepted(s: State, c: nat, env: Env, args: SeqArgs, tail: Tail)
    requires c in s.runs && (env.client.Some? ==> env.client.value in s.clients)
    ensures Enter(s, c, env, args, tail).runs[c].accepted == s.runs[c].accepted
    ensures OnlyRun(s, Enter(s, c, env, args, tail), c)
  {
    hide Enter, Answered, VerdictOf;
    EnterIs(s, c, env, args, tail);
    AnsweredKeeps(s.runs[c], env, args, tail, VerdictOf(s, env, args));
  }

  lemma OtherAccepted(s: State, e: Event, d: nat)
    requires Enabled(s, e) && !e.SeqEnter? && !e.SeqExit? && (e.Finish? ==> Sane(s, e.c)) && d in Step(s, e).runs
    ensures if d in s.runs then Step(s, e).runs[d].accepted == s.runs[d].accepted else Step(s, e).runs[d].accepted.None?
  {
  }

  lemma StepAccepts(s: State, e: Event)
    requires Accepts(s) && Enabled(s, e) && (e.SeqExit? || e.Finish? ==> Sane(s, e.c))
    ensures Accepts(Step(s, e))
  {
    if e.SeqExit? {
      forall d | d in s.runs ensures Entered(Step(s, e), d) { ExitEntered(s, e.c, e.tail, d); }
    } else {
      StepSameLogs(s, e);
      forall d | d in Step(s, e).runs ensures Entered(Step(s, e), d) { StepEntered(s, e, d); }
    }
  }

  lemma StepEntered(s: State, e: Event, d: nat)
    requires Accepts(s) && Enabled(s, e) && !e.SeqExit? && (e.Finish? ==> Sane(s, e.c))
    requires SameLogs(s, Step(s, e)) && d in Step(s, e).runs
    ensures Entered(Step(s, e), d)
  {
    if e.SeqEnter? {
      EnterAccepted(s, e.c, e.env, e.args, e.tail);
    } else {
      OtherAccepted(s, e, d);
    }
    if d in s.runs {
      assert Entered(s, d);
      SameLogsEntered(s, Step(s, e), d);
    }
  }

  lemma SameLogsEntered(s: State, s': State, d: nat)
    requires SameLogs(s, s') && d in s.runs && d in s'.runs && Entered(s, d)
    requires s'.runs[d].accepted == s.runs[d].accepted
    ensures Entered(s', d)
  {
  }

  // ------------------------------------------------ references

  ghost function Holders(s: State, k: nat): set<nat> { set c | c in s.runs && s.runs[c].clp == Some(k) }

  ghost predicate Referenced(s: State) {
    forall k :: k in s.clients ==> s.clients[k].refs == s.clients[k].base + |Holders(s, k)|
  }

  function ClpOf(s: State, c: nat): Option<nat> { if c in s.runs then s.runs[c].clp else None }

  // How one compound's client pointer moves the holders of k.
  lemma HoldersMove(s: State, s': State, c: nat, k: nat)
    requires OnlyRun(s, s', c)
    ensures |Holders(s', k)| - |Holders(s, k)|
         == (if ClpOf(s', c) == Some(k) then 1 else 0) - (if ClpOf(s, c) == Some(k) then 1 else 0)
  {
    CardMove(Holders(s, k), Holders(s', k), c);
  }

  // The compound's own steps: what they do to its client pointer they do to the client's count.
  ghost predicate Moves(s: State, s': State, c: nat) {
    && OnlyRun(s, s', c)
    && (forall k :: k in s.clients <==> k in s'.clients)
    && forall k :: k in s.clients ==>
         && s'.clients[k].base == s.clients[k].base
         && s'.clients[k].refs - s.clients[k].refs
            == (if ClpOf(s', c) == Some(k) then 1 else 0) - (if ClpOf(s, c) == Some(k) then 1 else 0)
  }

  lemma MovesReferenced(s: State, s': State, c: nat)
    requires Referenced(s) && Moves(s, s', c)
    ensures Referenced(s')
  {
    forall k | k in s'.clients ensures s'.clients[k].refs == s'.clients[k].base + |Holders(s', k)| {
      HoldersMove(s, s', c, k);
    }
  }

  lemma EnterMoves(s: State, c: nat, env: Env, args: SeqArgs, tail: Tail)
    requires Enabled(s, SeqEnter(c, env, args, tail)) && s.runs[c].clp.None?
    ensures Moves(s, Enter(s, c, env, args, tail), c)
  {
    EnterAccepted(s, c, env, args, tail);
    EnterCounts(s, c, env, args, tail);
  }

  lemma EnterCounts(s: State, c: nat, env: Env, args: SeqArgs, tail: Tail)
    requires c in s.runs && s.runs[c].clp.None? && (env.client.Some? ==> env.client.value in s.clients)
    ensures var s' := Enter(s, c, env, args, tail);
      && s'.runs[c].clp == env.client && s'.clients.Keys == s.clients.Keys
      && forall k :: k in s.clients ==>
           && s'.clients[k].base == s.clients[k].base
           && s'.clients[k].refs == s.clients[k].refs + (if env.client == Some(k) then 1 else 0)
  {
    hide Enter, Answered, VerdictOf;
    EnterIs(s, c, env, args, tail);
    AnsweredKeeps(s.runs[c], env, args, tail, VerdictOf(s, env, args));
  }

  lemma BeginMoves(s: State, c: nat, minor: nat, total: nat, decoded: Status, ident: Option<nat>, principal: bool, room: bool)
    requires c !in s.runs && (ident.Some? ==> ident.value in s.clients)
    ensures Moves(s, Begin(s, c, minor, total, decoded, ident, principal, room), c)
  {
  }

  lemma ExitMoves(s: State, c: nat, tail: Tail)
    requires Enabled(s, SeqExit(c, tail)) && Sane(s, c)
    ensures Moves(s, Exit(s, c, tail), c)
  {
  }

  lemma EndMoves(s: State, c: nat)
    requires Sane(s, c)
    ensures Moves(s, End(s, c), c)
  {
  }

  lemma PlainMoves(s: State, e: Event)
    requires (e.Truncated? || e.Refused? || e.Handle?) && Enabled(s, e)
    ensures Moves(s, Step(s, e), e.c)
  {
  }

  lemma OthersReferenced(s: State, e: Event)
    requires Referenced(s) && Known(s) && (e.NewClient? || e.Get? || e.Put?) && Enabled(s, e)
    ensures Referenced(Step(s, e))
  {
    var s' := Step(s, e);
    forall k | k in s'.clients ensures s'.clients[k].refs == s'.clients[k].base + |Holders(s', k)| {
      assert Holders(s', k) == Holders(s, k);
      if k !in s.clients { assert Holders(s, k) == {}; }
    }
  }

  lemma StepReferenced(s: State, e: Event)
    requires Referenced(s) && Known(s) && AllFine(s) && Enabled(s, e) && (e.SeqExit? || e.Finish? ==> Sane(s, e.c))
    ensures Referenced(Step(s, e))
  {
    hide Referenced, Moves, Enter;
    match e
    case NewClient(_) => OthersReferenced(s, e);
    case Get(_) => OthersReferenced(s, e);
    case Put(_) => OthersReferenced(s, e);
    case Start(c, minor, total, decoded, ident, principal, room) =>
      BeginMoves(s, c, minor, total, decoded, ident, principal, room);
      MovesReferenced(s, Step(s, e), c);
    case SeqEnter(c, env, args, tail) =>
      assert Fine(s.runs[c]);
      EnterMoves(s, c, env, args, tail);
      MovesReferenced(s, Step(s, e), c);
    case SeqExit(c, tail) =>
      ExitMoves(s, c, tail);
      MovesReferenced(s, Step(s, e), c);
    case Finish(c) =>
      EndMoves(s, c);
      MovesReferenced(s, Step(s, e), c);
    case _ =>
      PlainMoves(s, e);
      MovesReferenced(s, Step(s, e), e.c);
  }

  // ------------------------------------------------ known clients

  lemma MovesKnown(s: State, s': State, c: nat)
    requires Known(s) && Moves(s, s', c) && (ClpOf(s', c).Some? ==> ClpOf(s', c).value in s.clients)
    ensures Known(s')
  {
  }

  lemma PlainClp(s: State, e: Event)
    requires (e.Truncated? || e.Refused? || e.Handle?) && Enabled(s, e)
    ensures ClpOf(Step(s, e), e.c) == ClpOf(s, e.c)
  {
    hide Close, Refusal;
    match e
    case Truncated(_) =>
    case Refused(c, op, why, tail) => CloseKeeps(s.runs[c], Refusal(s.runs[c], op, why), tail);
    case Handle(c, op, result, tail) => CloseKeeps(s.runs[c].(executed := s.runs[c].executed + 1), result, tail);
  }

  lemma OthersKnown(s: State, e: Event)
    requires Known(s) && (e.NewClient? || e.Get? || e.Put?) && Enabled(s, e)
    ensures Known(Step(s, e))
  {
  }

  lemma EnterKnown(s: State, c: nat, env: Env, args: SeqArgs, tail: Tail)
    requires Known(s) && Enabled(s, SeqEnter(c, env, args, tail)) && Fine(s.runs[c])
    ensures Known(Enter(s, c, env, args, tail))
  {
    hide Known, Moves, Enter;
    EnterMoves(s, c, env, args, tail);
    EnterCounts(s, c, env, args, tail);
    MovesKnown(s, Enter(s, c, env, args, tail), c);
  }

  lemma ExitKnown(s: State, c: nat, tail: Tail)
    requires Known(s) && Enabled(s, SeqExit(c, tail)) && Sane(s, c)
    ensures Known(Exit(s, c, tail))
  {
    hide Known, Moves;
    ExitMoves(s, c, tail);
    MovesKnown(s, Exit(s, c, tail), c);
  }

  lemma EndKnown(s: State, c: nat)
    requires Known(s) && Sane(s, c)
    ensures Known(End(s, c))
  {
    hide Known, Moves;
    EndMoves(s, c);
    MovesKnown(s, End(s, c), c);
  }

  lemma BeginKnown(s: State, e: Event)
    requires Known(s) && Enabled(s, e) && e.Start?
    ensures Known(Step(s, e))
  {
    hide Known, Moves;
    BeginMoves(s, e.c, e.minor, e.total, e.decoded, e.ident, e.principal, e.room);
    MovesKnown(s, Step(s, e), e.c);
  }

  lemma PlainKnown(s: State, e: Event)
    requires Known(s) && (e.Truncated? || e.Refused? || e.Handle?) && Enabled(s, e)
    ensures Known(Step(s, e))
  {
    PlainMoves(s, e);
    PlainClp(s, e);
    MovesKnown(s, Step(s, e), e.c);
  }

  lemma StepKnown(s: State, e: Event)
    requires Known(s) && AllFine(s) && Enabled(s, e) && (e.SeqExit? || e.Finish? ==> Sane(s, e.c))
    ensures Known(Step(s, e))
  {
    hide Known, Fine, Begin, Enter, Exit, End, Close;
    match e
    case NewClient(_) => OthersKnown(s, e);
    case Get(_) => OthersKnown(s, e);
    case Put(_) => OthersKnown(s, e);
    case Start(_, _, _, _, _, _, _) => BeginKnown(s, e);
    case SeqEnter(c, env, args, tail) => EnterKnown(s, c, env, args, tail);
    case SeqExit(c, tail) => ExitKnown(s, c, tail);
    case Finish(c) => EndKnown(s, c);
    case _ => PlainKnown(s, e);
  }

  // ------------------------------------------------ runs

  ghost predicate Inv(s: State) {
    AllFine(s) && Known(s) && Owned(s) && Logged(s) && Waits(s) && Accepts(s) && Referenced(s)
  }

  lemma StepInv(s: State, e: Event)
    requires Inv(s) && Enabled(s, e)
    ensures (e.SeqExit? || e.Finish? ==> Sane(s, e.c)) && Inv(Step(s, e))
  {
    if e.SeqExit? || e.Finish? { FineSane(s, e.c); }
    StepFine(s, e);
    StepKnown(s, e);
    StepOwned(s, e);
    if e.SeqExit? {
      ExitLogged(s, e.c, e.tail);
    } else {
      StepSameLogs(s, e);
      SameLogsLogged(s, Step(s, e));
    }
    StepWaits(s, e);
    StepAccepts(s, e);
    StepReferenced(s, e);
  }

  lemma {:induction false} RunInv(es: seq<Event>)
    ensures Inv(Run(es))
  {
    if es != [] {
      RunInv(es[..|es|-1]);
      var s, e := Run(es[..|es|-1]), es[|es|-1];
      if Enabled(s, e) { StepInv(s, e); }
    }
  }

  // ------------------------------------------------ theorems

  // The ids accepted on a slot count up by one from one, modulo 2^32, and the slot stands at the last.
  lemma SeqidsAreConsecutive(es: seq<Event>, k: nat, i: nat)
    requires k in Run(es).clients
    ensures var log := Log(Run(es).clients[k], i);
      && SeqNr(Run(es).clients[k], i) == |log| % TWO32
      && forall j :: 0 <= j < |log| ==> log[j].0 == (j + 1) % TWO32
  {
    RunInv(es);
    assert Consecutive(Run(es).clients[k]);
  }

  // A slot moves only when an accepted CB_SEQUENCE ends, and then to the next id.
  lemma OnlyAcceptanceMoves(es: seq<Event>, e: Event, k: nat, i: nat)
    requires Enabled(Run(es), e) && k in Run(es).clients
    ensures var s := Run(es);
      var s' := Run(es + [e]);
      && k in s'.clients
      && (SeqNr(s'.clients[k], i) != SeqNr(s.clients[k], i) ==>
           && e.SeqExit? && s.runs[e.c].clp == Some(k) && s.runs[e.c].slot == Some(i)
           && SeqNr(s'.clients[k], i) == (SeqNr(s.clients[k], i) + 1) % TWO32)
  {
    RunInv(es);
    RunSnoc(es, e);
    StepMovesOne(Run(es), e, k, i);
  }

  lemma StepMovesOne(s: State, e: Event, k: nat, i: nat)
    requires Waits(s) && Enabled(s, e) && (e.SeqExit? || e.Finish? ==> Sane(s, e.c)) && k in s.clients
    ensures var s' := Step(s, e);
      && k in s'.clients
      && SeqNr(s'.clients[k], i) == if e.SeqExit? && s.runs[e.c].clp == Some(k) && s.runs[e.c].slot == Some(i)
                                    then (SeqNr(s.clients[k], i) + 1) % TWO32 else SeqNr(s.clients[k], i)
  {
    if e.SeqExit? { ExitMovesOne(s, e.c, e.tail, k, i); } else { StepSameLogs(s, e); }
  }

  lemma RunSnoc(es: seq<Event>, e: Event)
    requires Enabled(Run(es), e)
    ensures (e.SeqExit? || e.Finish? ==> Sane(Run(es), e.c)) && Run(es + [e]) == Step(Run(es), e)
  {
    assert (es + [e])[..|es|] == es;
    RunInv(es);
    StepInv(Run(es), e);
  }

  lemma ExitMovesOne(s: State, c: nat, tail: Tail, k: nat, i: nat)
    requires Waits(s) && Enabled(s, SeqExit(c, tail)) && Sane(s, c) && k in s.clients
    ensures var s' := Exit(s, c, tail);
      && k in s'.clients
      && SeqNr(s'.clients[k], i) == if s.runs[c].clp == Some(k) && s.runs[c].slot == Some(i)
                                    then (SeqNr(s.clients[k], i) + 1) % TWO32 else SeqNr(s.clients[k], i)
  {
    ExitClient(s, c, tail);
    assert NextInLine(s, c);
  }

  // A slot locked and a client referenced by a compound are each released exactly once: while it
  // runs what it holds is held in its name alone, and when it is done nothing is left.
  lemma ReleasedOnce(es: seq<Event>, c: nat)
    requires c in Run(es).runs
    ensures var s := Run(es);
      var x := s.runs[c];
      && x.gets <= 1 && x.locks <= 1
      && (x.done ==> x.puts == x.gets && x.frees == x.locks)
      && (x.clp.Some? ==> x.clp.value in s.clients && s.clients[x.clp.value].refs > 0)
      && (x.slot.Some? ==> Owner(s, c))
      && (x.done ==> forall k, i :: k in s.clients && i in s.clients[k].used ==> s.clients[k].used[i] != c)
  {
    var s := Run(es);
    var x := s.runs[c];
    RunInv(es);
    assert Fine(x);
    if x.clp.Some? {
      assert c in Holders(s, x.clp.value);
    }
    forall k, i | x.done && k in s.clients && i in s.clients[k].used ensures s.clients[k].used[i] != c {
      assert OwnedBy(s, k, i, s.clients[k].used[i]);
    }
  }

  // What the reply says about the number of results.
  function Reported(x: Compound): int { if x.status == ResourceHdr then x.nops - 1 else x.nops }

  // It is the number of result headers written, unless an operation itself came up with the
  // code reserved for a header that could not be coded.
  lemma CountMatchesHeaders(es: seq<Event>, c: nat)
    requires c in Run(es).runs
    ensures Reported(Run(es).runs[c]) == Run(es).runs[c].headers <==> !Run(es).runs[c].forged
  {
    RunInv(es);
    assert Fine(Run(es).runs[c]);
  }

  // An operation whose decoder, handler or encoder comes up with that code.
  predicate Forges(e: Event) {
    match e
    case Refused(_, _, why, tail) => why == ResourceHdr || tail.encoded == ResourceHdr
    case Handle(_, _, result, tail) => result == ResourceHdr || tail.encoded == ResourceHdr
    case SeqEnter(_, _, _, tail) => tail.encoded == ResourceHdr
    case SeqExit(_, tail) => tail.encoded == ResourceHdr
    case _ => false
  }

  ghost predicate NoneForged(s: State) { forall c :: c in s.runs ==> !s.runs[c].forged }

  lemma VerdictHonest(cl: Client, env: Env, args: SeqArgs)
    ensures Verdict(cl, env, args) != ResourceHdr
  {
  }

  lemma OnlyRunHonest(s: State, s': State, c: nat)
    requires NoneForged(s) && OnlyRun(s, s', c) && !s'.runs[c].forged
    ensures NoneForged(s')
  {
  }

  lemma CloseHonest(x: Compound, status: Status, tail: Tail)
    requires !x.forged && status != ResourceHdr && tail.encoded != ResourceHdr
    ensures !Close(x, status, tail).forged
  {
  }

  lemma AnsweredHonest(x: Compound, env: Env, args: SeqArgs, tail: Tail, status: Status)
    requires !x.forged && status != ResourceHdr && tail.encoded != ResourceHdr
    ensures !Answered(x, env, args, tail, status).forged
  {
    hide Close;
    var y := x.(clp := env.client, gets := x.gets + 1);
    CloseHonest(x, BadSession, tail);
    CloseHonest(y.(replay := true), Ok, tail);
    CloseHonest(y, status, tail);
    CloseHonest(y.(slot := Some(args.slot), locks := y.locks + 1), RepTooBigToCache, tail);
  }

  lemma EnterHonest(s: State, c: nat, env: Env, args: SeqArgs, tail: Tail)
    requires NoneForged(s) && Enabled(s, SeqEnter(c, env, args, tail)) && tail.encoded != ResourceHdr
    ensures NoneForged(Enter(s, c, env, args, tail))
  {
    hide Enter, Answered, Verdict;
    if env.client.Some? { VerdictHonest(s.clients[env.client.value], env, args); }
    EnterRun(s, c, env, args, tail);
    AnsweredHonest(s.runs[c], env, args, tail, VerdictOf(s, env, args));
    OnlyRunHonest(s, Enter(s, c, env, args, tail), c);
  }

  lemma RefusalHonest(x: Compound, op: Op, why: Status)
    requires why != ResourceHdr
    ensures Refusal(x, op, why) != ResourceHdr
  {
  }

  lemma StepHonest(s: State, e: Event)
    requires NoneForged(s) && Enabled(s, e) && (e.SeqExit? || e.Finish? ==> Sane(s, e.c)) && !Forges(e)
    ensures NoneForged(Step(s, e))
  {
    hide Close, Enter, Refusal;
    match e
    case SeqEnter(c, env, args, tail) => EnterHonest(s, c, env, args, tail);
    case Refused(c, op, why, tail) =>
      RefusalHonest(s.runs[c], op, why);
      CloseHonest(s.runs[c], Refusal(s.runs[c], op, why), tail);
    case Handle(c, op, result, tail) => CloseHonest(s.runs[c].(executed := s.runs[c].executed + 1), result, tail);
    case SeqExit(c, tail) => ExitHonest(s, c, tail);
    case _ =>
  }

  lemma ExitHonest(s: State, c: nat, tail: Tail)
    requires NoneForged(s) && Enabled(s, SeqExit(c, tail)) && Sane(s, c) && tail.encoded != ResourceHdr
    ensures NoneForged(Exit(s, c, tail))
  {
  }

  // If nothing else uses that code, the count in every reply is right.
  lemma {:induction false} HonestCount(es: seq<Event>)
    requires forall e :: e in es ==> !Forges(e)
    ensures NoneForged(Run(es))
    ensures forall c :: c in Run(es).runs ==> Reported(Run(es).runs[c]) == Run(es).runs[c].headers
  {
    if es != [] {
      var s, e := Run(es[..|es|-1]), es[|es|-1];
      assert e in es && forall x :: x in es[..|es|-1] ==> x in es;
      HonestCount(es[..|es|-1]);
      RunInv(es[..|es|-1]);
      if Enabled(s, e) {
        StepInv(s, e);
        StepHonest(s, e);
      }
    }
    forall c | c in Run(es).runs ensures Reported(Run(es).runs[c]) == Run(es).runs[c].headers {
      CountMatchesHeaders(es, c);
    }
  }

  // In a session nothing is executed but under an accepted id, and no two compounds share one.
  lemma ExecutedOnce(es: seq<Event>, c: nat, d: nat)
    requires c in Run(es).runs && d in Run(es).runs && c != d
    ensures var s := Run(es);
      && (s.runs[c].minor != 0 && s.runs[c].executed > 0 ==> s.runs[c].accepted.Some?)
      && (s.runs[c].accepted.Some? ==> s.runs[c].accepted != s.runs[d].accepted)
      && (s.runs[c].replay ==> s.runs[c].executed == 0)
  {
    var s := Run(es);
    RunInv(es);
    assert Fine(s.runs[c]) && Entered(s, c) && Entered(s, d);
  }

  // A request with the id the slot stands at is never accepted and locks nothing.
  lemma ReplaysChangeNothing(es: seq<Event>, c: nat, env: Env, args: SeqArgs, tail: Tail)
    requires Enabled(Run(es), SeqEnter(c, env, args, tail)) && env.client.Some?
    requires args.seqid == SeqNr(Run(es).clients[env.client.value], args.slot)
    ensures var s := Run(es);
      var s' := Run(es + [SeqEnter(c, env, args, tail)]);
      && SameLogs(s, s') && SameSlots(s, s') && s'.runs[c].waiting.None? && s'.runs[c].accepted.None?
  {
    var s := Run(es);
    RunInv(es);
    RunSnoc(es, SeqEnter(c, env, args, tail));
    ReplayIsRefused(s, c, env, args, tail);
  }

  lemma ReplayIsRefused(s: State, c: nat, env: Env, args: SeqArgs, tail: Tail)
    requires AllFine(s) && Enabled(s, SeqEnter(c, env, args, tail)) && env.client.Some?
    requires args.seqid == SeqNr(s.clients[env.client.value], args.slot)
    ensures var s' := Enter(s, c, env, args, tail);
      && SameLogs(s, s') && SameSlots(s, s') && s'.runs[c].waiting.None? && s'.runs[c].accepted.None?
  {
    assert Fine(s.runs[c]);
    EnterSameLogs(s, c, env, args, tail);
    EnterSameSlots(s, c, env, args, tail);
  }
}
