/**
 What the server is told: when CB_SEQUENCE must accept a request and when it must refuse it and how,
 which operations are let through, and which compounds are run at all.
 */
module CallbackAnswers {
  import opened Wrappers
  import opened Callback
  import opened CallbackRuns

  // ------------------------------------------------ CB_SEQUENCE

  // Some compound that is not done holds the slot.
  ghost predicate Busy(s: State, k: nat, i: nat) {
    exists d :: d in s.runs && s.runs[d].clp == Some(k) && s.runs[d].slot == Some(i)
  }

  lemma UsedIffBusy(s: State, k: nat, i: nat)
    requires Inv(s) && k in s.clients
    ensures i in s.clients[k].used <==> Busy(s, k, i)
  {
    if i in s.clients[k].used { assert OwnedBy(s, k, i, s.clients[k].used[i]); }
    if Busy(s, k, i) {
      var d :| d in s.runs && s.runs[d].clp == Some(k) && s.runs[d].slot == Some(i);
      assert Owner(s, d);
    }
  }

  // The session is known, has a back channel and is not being drained.
  predicate InSession(env: Env) { env.client.Some? && env.backChan && !env.draining }

  // The slot exists and the server was told it may use it.
  predicate InRange(env: Env, args: SeqArgs) { args.slot <= env.maxSlot && env.found && args.slot <= env.highest }

  // How many requests were accepted on the slot.
  function Accepted(s: State, env: Env, args: SeqArgs): nat
    requires env.client.Some? && env.client.value in s.clients
  {
    |Log(s.clients[env.client.value], args.slot)|
  }

  // The request repeats the last one accepted.
  predicate Repeats(s: State, env: Env, args: SeqArgs)
    requires env.client.Some? ==> env.client.value in s.clients
  {
    InSession(env) && InRange(env, args) && args.seqid == Accepted(s, env, args) % TWO32
  }

  // The request is the one after the last one accepted.
  predicate Follows(s: State, env: Env, args: SeqArgs)
    requires env.client.Some? ==> env.client.value in s.clients
  {
    InSession(env) && InRange(env, args) && args.seqid == (Accepted(s, env, args) + 1) % TWO32
  }

  // The request finds its slot free.
  ghost predicate Unhindered(s: State, env: Env, args: SeqArgs) {
    env.client.Some? && !Busy(s, env.client.value, args.slot)
  }

  // What becomes of the compound: it waits to be accepted, is answered without a result header, is
  // known as a replay or carries the answer.
  ghost predicate Answer(s: State, c: nat, env: Env, args: SeqArgs, tail: Tail, x: Compound)
    requires env.client.Some? ==> env.client.value in s.clients
  {
    && (x.waiting.Some? <==> Follows(s, env, args) && Unhindered(s, env, args) && !args.cacheThis)
    && (x.slot.Some? <==> Follows(s, env, args) && Unhindered(s, env, args))
    && (x.replay <==> Repeats(s, env, args) && Unhindered(s, env, args) && !args.cacheThis)
    && (x.waiting.Some? ==> x.waiting == Some(args.seqid) && x.status == Ok && x.nops == 0)
    && (x.slot.Some? ==> x.slot == Some(args.slot)) && x.clp == env.client
    && (x.waiting.None? ==> x.nops == 1 && (!tail.header ==> x.status == ResourceHdr))
    && (x.replay && tail.header ==> x.status == tail.encoded)
    && (x.waiting.None? && !x.replay && tail.header ==> Reasons(s, env, args, x.status))
  }

  // Each refusal has its reason and each reason its refusal.
  ghost predicate Reasons(s: State, env: Env, args: SeqArgs, status: Status)
    requires env.client.Some? ==> env.client.value in s.clients
  {
    && (status == BadSession <==> env.client.None? || !env.backChan || (env.draining && env.resetting))
    && (status == BadSlot <==> InSession(env) && !InRange(env, args))
    && (status == Delay <==>
         || (env.client.Some? && env.backChan && env.draining && !env.resetting)
         || ((Repeats(s, env, args) || Follows(s, env, args)) && !Unhindered(s, env, args)))
    && (status == SeqFalseRetry <==> Repeats(s, env, args) && Unhindered(s, env, args) && args.cacheThis)
    && (status == RepTooBigToCache <==> Follows(s, env, args) && Unhindered(s, env, args) && args.cacheThis)
    && (status == SeqMisordered <==>
         InSession(env) && InRange(env, args) && !Repeats(s, env, args) && !Follows(s, env, args))
  }

  // In every reachable state CB_SEQUENCE answers what the log of the slot calls for.
  lemma SequenceAnswers(es: seq<Event>, c: nat, env: Env, args: SeqArgs, tail: Tail)
    requires Enabled(Run(es), SeqEnter(c, env, args, tail))
    ensures var s' := Run(es + [SeqEnter(c, env, args, tail)]);
      c in s'.runs && Answer(Run(es), c, env, args, tail, s'.runs[c])
  {
    var s := Run(es);
    RunInv(es);
    RunSnoc(es, SeqEnter(c, env, args, tail));
    EnterAnswers(s, c, env, args, tail);
  }

  lemma EnterAnswers(s: State, c: nat, env: Env, args: SeqArgs, tail: Tail)
    requires Inv(s) && Enabled(s, SeqEnter(c, env, args, tail))
    ensures c in Enter(s, c, env, args, tail).runs
    ensures Answer(s, c, env, args, tail, Enter(s, c, env, args, tail).runs[c])
  {
    hide Inv, Enter, Answered, Answer, VerdictOf, Decides;
    FreshSession(s, c);
    VerdictReasons(s, env, args);
    EnterIs(s, c, env, args, tail);
    AnsweredMeans(s, c, env, args, tail, s.runs[c], VerdictOf(s, env, args));
  }

  lemma AnsweredMeans(s: State, c: nat, env: Env, args: SeqArgs, tail: Tail, x: Compound, v: Status)
    requires env.client.Some? ==> env.client.value in s.clients
    requires x.nops == 0 && x.clp.None? && x.slot.None? && x.waiting.None? && x.status == Ok && !x.replay
    requires Decides(s, env, args, v)
    ensures Answer(s, c, env, args, tail, Answered(x, env, args, tail, v))
  {
    hide Repeats, Follows, Unhindered, InSession, InRange;
  }

  // A compound that comes to CB_SEQUENCE holds nothing yet.
  lemma FreshSession(s: State, c: nat)
    requires Inv(s) && Ready(s, c) && !s.runs[c].replay && Preprocess(s.runs[c].minor, s.runs[c].nops, Sequence) == Ok
    ensures var x := s.runs[c]; x.nops == 0 && x.clp.None? && x.slot.None? && x.waiting.None? && x.status == Ok
  {
    assert Fine(s.runs[c]);
  }

  // What CB_SEQUENCE finds before it locks the slot, with the reasons.
  ghost predicate Decides(s: State, env: Env, args: SeqArgs, v: Status)
    requires env.client.Some? ==> env.client.value in s.clients
  {
    && (v == Ok <==> Follows(s, env, args) && Unhindered(s, env, args))
    && (v == RetryUncachedRep <==> Repeats(s, env, args) && Unhindered(s, env, args) && !args.cacheThis)
    && (v == BadSession <==> env.client.None? || !env.backChan || (env.draining && env.resetting))
    && (v == BadSlot <==> InSession(env) && !InRange(env, args))
    && (v == Delay <==>
         || (env.client.Some? && env.backChan && env.draining && !env.resetting)
         || ((Repeats(s, env, args) || Follows(s, env, args)) && !Unhindered(s, env, args)))
    && (v == SeqFalseRetry <==> Repeats(s, env, args) && Unhindered(s, env, args) && args.cacheThis)
    && (v == SeqMisordered <==>
         InSession(env) && InRange(env, args) && !Repeats(s, env, args) && !Follows(s, env, args))
    && v != RepTooBigToCache && !(Repeats(s, env, args) && Follows(s, env, args))
  }

  lemma VerdictReasons(s: State, env: Env, args: SeqArgs)
    requires Inv(s) && (env.client.Some? ==> env.client.value in s.clients)
    ensures Decides(s, env, args, VerdictOf(s, env, args))
  {
    if env.client.Some? {
      SlotFacts(s, env.client.value, args.slot);
      WithFacts(s, env, args);
    }
  }

  lemma WithFacts(s: State, env: Env, args: SeqArgs)
    requires env.client.Some? && env.client.value in s.clients
    requires Facts(s, env.client.value, args.slot)
    ensures Decides(s, env, args, VerdictOf(s, env, args))
  {
    hide Busy, Log, SeqNr;
  }

  ghost predicate Facts(s: State, k: nat, i: nat)
    requires k in s.clients
  {
    var n := |Log(s.clients[k], i)|;
    && (i in s.clients[k].used <==> Busy(s, k, i))
    && SeqNr(s.clients[k], i) == n % TWO32 && (SeqNr(s.clients[k], i) + 1) % TWO32 == (n + 1) % TWO32
    && n % TWO32 != (n + 1) % TWO32
  }

  lemma SlotFacts(s: State, k: nat, i: nat)
    requires Inv(s) && k in s.clients
    ensures Facts(s, k, i)
  {
    UsedIffBusy(s, k, i);
    assert Consecutive(s.clients[k]);
    PlusOne(|Log(s.clients[k], i)|);
  }

  // ------------------------------------------------ the log

  // The log of a slot grows exactly when a compound holding it leaves the wait, by the next id in the
  // compound's name.
  lemma LogGrows(es: seq<Event>, e: Event, k: nat, i: nat)
    requires Enabled(Run(es), e) && k in Run(es).clients
    ensures var s := Run(es);
      var log := Log(s.clients[k], i);
      && k in Run(es + [e]).clients
      && Log(Run(es + [e]).clients[k], i) ==
         if e.SeqExit? && s.runs[e.c].clp == Some(k) && s.runs[e.c].slot == Some(i)
         then log + [((|log| + 1) % TWO32, e.c)] else log
  {
    var s := Run(es);
    RunInv(es);
    RunSnoc(es, e);
    StepLogGrows(s, e, k, i);
  }

  lemma StepLogGrows(s: State, e: Event, k: nat, i: nat)
    requires Inv(s) && Enabled(s, e) && (e.SeqExit? || e.Finish? ==> Sane(s, e.c)) && k in s.clients
    ensures var log := Log(s.clients[k], i);
      && k in Step(s, e).clients
      && Log(Step(s, e).clients[k], i) ==
         if e.SeqExit? && s.runs[e.c].clp == Some(k) && s.runs[e.c].slot == Some(i)
         then log + [((|log| + 1) % TWO32, e.c)] else log
  {
    if e.SeqExit? {
      ExitGrows(s, e.c, e.tail, k, i);
    } else {
      hide Step, Log;
      StepSameLogs(s, e);
    }
  }

  lemma ExitGrows(s: State, c: nat, tail: Tail, k: nat, i: nat)
    requires Inv(s) && Enabled(s, SeqExit(c, tail)) && Sane(s, c) && k in s.clients
    ensures var log := Log(s.clients[k], i);
      && k in Exit(s, c, tail).clients
      && Log(Exit(s, c, tail).clients[k], i) ==
         if s.runs[c].clp == Some(k) && s.runs[c].slot == Some(i) then log + [((|log| + 1) % TWO32, c)] else log
  {
    hide Inv, Log, SeqNr, Busy;
    SlotFacts(s, k, i);
    WaiterIsNext(s, c);
    ExitClient(s, c, tail);
  }

  lemma WaiterIsNext(s: State, c: nat)
    requires Inv(s) && c in s.runs
    ensures NextInLine(s, c)
  {
  }

  // A compound in the wait got there by a CB_SEQUENCE of its own, with the client, the slot and the id
  // it now waits with.
  ghost predicate Came(es: seq<Event>, c: nat, x: Compound) {
    exists j :: 0 <= j < |es| && es[j].SeqEnter? && es[j].c == c
      && x.clp == es[j].env.client && x.slot == Some(es[j].args.slot) && x.waiting == Some(es[j].args.seqid)
  }

  lemma {:induction false} WaitersCame(es: seq<Event>, c: nat)
    requires c in Run(es).runs && Run(es).runs[c].waiting.Some?
    ensures Came(es, c, Run(es).runs[c])
  {
    hide Came, Inv, Step, Enabled;
    if es != [] {
      var before, e := es[..|es|-1], es[|es|-1];
      var s := Run(before);
      assert es == before + [e];
      if Enabled(s, e) {
        RunInv(before);
        RunSnoc(before, e);
        WaitStep(s, e, c);
        if c in s.runs && s.runs[c].waiting.Some? {
          WaitersCame(before, c);
          CameSnoc(before, e, c, s.runs[c]);
        } else {
          CameNow(before, e, c, Step(s, e).runs[c]);
        }
      } else {
        WaitersCame(before, c);
        CameSnoc(before, e, c, s.runs[c]);
      }
    }
  }

  lemma CameSnoc(es: seq<Event>, e: Event, c: nat, x: Compound)
    requires Came(es, c, x)
    ensures Came(es + [e], c, x)
  {
    var j :| 0 <= j < |es| && es[j].SeqEnter? && es[j].c == c
      && x.clp == es[j].env.client && x.slot == Some(es[j].args.slot) && x.waiting == Some(es[j].args.seqid);
    assert (es + [e])[j] == es[j];
  }

  lemma CameNow(es: seq<Event>, e: Event, c: nat, x: Compound)
    requires e.SeqEnter? && e.c == c
    requires x.clp == e.env.client && x.slot == Some(e.args.slot) && x.waiting == Some(e.args.seqid)
    ensures Came(es + [e], c, x)
  {
    assert (es + [e])[|es|] == e;
  }

  lemma WaitStep(s: State, e: Event, c: nat)
    requires Inv(s) && Enabled(s, e) && (e.SeqExit? || e.Finish? ==> Sane(s, e.c))
    requires c in Step(s, e).runs && Step(s, e).runs[c].waiting.Some?
    ensures if c in s.runs && s.runs[c].waiting.Some? then Step(s, e).runs[c] == s.runs[c]
            else
              && e.SeqEnter? && e.c == c
              && var x := Step(s, e).runs[c];
                 x.clp == e.env.client && x.slot == Some(e.args.slot) && x.waiting == Some(e.args.seqid)
  {
    hide Inv;
    if e.SeqEnter? {
      hide Step, Answered, VerdictOf, Enter;
      StepIsEnter(s, e);
      EnterIs(s, e.c, e.env, e.args, e.tail);
      AnsweredWaits(s.runs[e.c], e.env, e.args, e.tail, VerdictOf(s, e.env, e.args));
    }
  }

  lemma AnsweredWaits(x: Compound, env: Env, args: SeqArgs, tail: Tail, v: Status)
    requires x.waiting.None?
    ensures var y := Answered(x, env, args, tail, v);
      y.waiting.Some? ==> y.clp == env.client && y.slot == Some(args.slot) && y.waiting == Some(args.seqid)
  {
  }

  lemma StepIsEnter(s: State, e: Event)
    requires e.SeqEnter? && Enabled(s, e)
    ensures Step(s, e) == Enter(s, e.c, e.env, e.args, e.tail)
  {
    hide Enter;
  }

  // ------------------------------------------------ which operations are let through

  const SESSION_OPS := {GetAttr, Recall, RecallAny, RecallSlot, LayoutRecall, NotifyDeviceid, NotifyLock}
  const UNSUPPORTED := {Notify, PushDeleg, RecallableObjAvail, WantsCancelled}

  // Sessions exist in the minor versions 1 and 2; there CB_SEQUENCE comes first and only first.
  function Permitted(minor: nat, nop: nat): set<Op> {
    if minor == 0 then {GetAttr, Recall}
    else if minor > 2 then {}
    else if nop == 0 then {Sequence}
    else SESSION_OPS + if minor == 2 then {Offload} else {}
  }

  lemma PreprocessMeans(minor: nat, nop: nat, op: Op)
    ensures Preprocess(minor, nop, op) == Ok <==> op in Permitted(minor, nop)
    ensures Preprocess(minor, nop, op) == MinorVersMismatch <==> minor > 2
    ensures Preprocess(minor, nop, op) == SequencePos <==> 1 <= minor <= 2 && op == Sequence && nop > 0
    ensures Preprocess(minor, nop, op) == OpNotInSession <==> 1 <= minor <= 2 && op != Sequence && nop == 0
    ensures Preprocess(minor, nop, op) == NotSupp <==>
      nop > 0 && ((1 <= minor <= 2 && op in UNSUPPORTED) || (minor == 2 && op == Unknown))
    ensures Preprocess(minor, nop, op) == OpIllegal <==>
      (minor == 0 && op !in {GetAttr, Recall}) || (minor == 1 && nop > 0 && op in {Offload, Unknown})
  {
  }

  // What is executed was permitted; what is refused is refused for its number, its place, as part of a
  // replay, or for want of room or arguments.
  lemma OperationAnswers(es: seq<Event>, e: Event)
    requires Enabled(Run(es), e) && (e.Handle? || e.Refused?)
    ensures var s := Run(es);
      var x, x' := s.runs[e.c], Run(es + [e]).runs[e.c];
      && x'.nops == x.nops + 1
      && (e.Handle? ==> e.op in Permitted(x.minor, x.nops) && e.op != Sequence && !x.replay && x'.executed == x.executed + 1)
      && (e.Refused? ==> x'.executed == x.executed)
      && (x'.status == Ok ==> e.Handle? && e.result == Ok && e.tail == Tail(true, Ok))
      && (e.Refused? && e.tail.header ==>
           x'.status == if e.op !in Permitted(x.minor, x.nops) then Preprocess(x.minor, x.nops, e.op)
                        else if x.replay then RetryUncachedRep else e.why)
      && (e.Handle? && e.tail.header ==> x'.status == if e.result == Ok then e.tail.encoded else e.result)
      && (!e.tail.header ==> x'.status == ResourceHdr)
  {
    var s := Run(es);
    RunSnoc(es, e);
    PreprocessMeans(s.runs[e.c].minor, s.runs[e.c].nops, e.op);
  }

  // ------------------------------------------------ which compounds are run

  // Without a session the client must be known by its callback ident and the caller must be the one
  // expected; in a session CB_SEQUENCE finds the client.  Either way the reply header must fit.
  lemma StartRuns(es: seq<Event>, e: Event)
    requires Enabled(Run(es), e) && e.Start?
    ensures var s, s' := Run(es), Run(es + [e]);
      && e.c in s'.runs
      && var x := s'.runs[e.c];
         && (!x.done <==> e.room && (e.minor == 0 ==> e.ident.Some? && e.principal))
         && x.minor == e.minor && x.total == e.total && x.status == e.decoded && x.nops == 0
         && x.clp == (if x.done || e.minor != 0 then None else e.ident)
         && x.slot.None? && x.waiting.None?
  {
    RunSnoc(es, e);
  }

  // A compound goes on as long as no operation failed and some are left; then it gives back what it holds.
  lemma FinishReleases(es: seq<Event>, c: nat)
    requires Enabled(Run(es), Finish(c))
    ensures var s, s' := Run(es), Run(es + [Finish(c)]);
      var x := s.runs[c];
      && s'.runs[c].done && s'.runs[c].status == x.status && s'.runs[c].nops == x.nops
      && (x.clp.Some? ==>
           && x.clp.value in s'.clients && s'.clients[x.clp.value].refs == s.clients[x.clp.value].refs - 1
           && (x.slot.Some? ==> !Busy(s', x.clp.value, x.slot.value)))
  {
    var s := Run(es);
    var x := s.runs[c];
    RunInv(es);
    RunSnoc(es, Finish(c));
    StepInv(s, Finish(c));
    if x.slot.Some? {
      assert Fine(x);
      UsedIffBusy(Step(s, Finish(c)), x.clp.value, x.slot.value);
    }
  }
}
