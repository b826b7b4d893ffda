/**
 Callback compounds from the server: any number of them in flight, each a loop over operations,
 sharing the back-channel slots and the reference counts of the clients.  CB_SEQUENCE
 (section 20.9 of RFC 5661) gives up the slot-table lock while it waits for referring calls,
 so it is two steps; every other operation is one.
 */
module Callback {
  import opened Wrappers

  const TWO32 := 0x1_0000_0000

  type Seqid = n: int | 0 <= n < TWO32

  datatype Status =
    | Ok | BadSession | Delay | BadSlot | RetryUncachedRep | SeqFalseRetry | SeqMisordered
    | RepTooBigToCache | Resource | ResourceHdr | OpIllegal | NotSupp | SequencePos
    | OpNotInSession | MinorVersMismatch | Other(code: nat)

  datatype Op =
    | GetAttr | Recall | Sequence | RecallAny | RecallSlot | LayoutRecall | NotifyDeviceid | NotifyLock
    | Notify | PushDeleg | RecallableObjAvail | WantsCancelled | Offload | Unknown

  // preprocess_nfs4_op
  function Preprocess40(op: Op): Status { if op.GetAttr? || op.Recall? then Ok else OpIllegal }

  // preprocess_nfs41_op
  function Preprocess41(nop: nat, op: Op): Status {
    if op.Sequence? && nop != 0 then SequencePos
    else if !op.Sequence? && nop == 0 then OpNotInSession
    else match op
      case Notify => NotSupp
      case PushDeleg => NotSupp
      case RecallableObjAvail => NotSupp
      case WantsCancelled => NotSupp
      case Offload => OpIllegal
      case Unknown => OpIllegal
      case _ => Ok
  }

  // preprocess_nfs42_op
  function Preprocess42(nop: nat, op: Op): Status {
    var status := Preprocess41(nop, op);
    if status != OpIllegal then status else if op.Offload? then Ok else NotSupp
  }

  function Preprocess(minor: nat, nop: nat, op: Op): Status {
    match minor
    case 0 => Preprocess40(op)
    case 1 => Preprocess41(nop, op)
    case 2 => Preprocess42(nop, op)
    case _ => MinorVersMismatch
  }

  datatype SeqArgs = SeqArgs(slot: nat, seqid: Seqid, cacheThis: bool)

  // validate_seqid
  function ValidateSeqid(highest: nat, locked: bool, seqNr: Seqid, args: SeqArgs): Status {
    if args.slot > highest then BadSlot
    else if args.seqid == seqNr then
      if locked then Delay else if !args.cacheThis then RetryUncachedRep else SeqFalseRetry
    else if args.seqid != (seqNr + 1) % TWO32 then SeqMisordered
    else Ok
  }

  // ------------------------------------------------ state

  // base: references held by others.  used: locked slots, with the compound that locked them.
  // log: what was accepted on each slot, and by which compound.
  datatype Client = Client(
    refs: int, base: nat, seqs: map<nat, Seqid>, used: map<nat, nat>, log: map<nat, seq<(Seqid, nat)>>)

  function SeqNr(cl: Client, i: nat): Seqid { if i in cl.seqs then cl.seqs[i] else 0 }

  function Log(cl: Client, i: nat): seq<(Seqid, nat)> { if i in cl.log then cl.log[i] else [] }

  // One compound.  nops counts operations tried and headers the result headers written; executed
  // counts handlers run other than CB_SEQUENCE.  gets, puts, locks and frees count what was done to
  // its client and slot; accepted says where in the log its CB_SEQUENCE went.
  datatype Compound = Compound(
    minor: nat, total: nat, nops: nat, status: Status, clp: Option<nat>, slot: Option<nat>, replay: bool,
    waiting: Option<Seqid>, headers: nat, forged: bool, executed: nat, accepted: Option<(nat, nat, nat)>,
    done: bool, gets: nat, puts: nat, locks: nat, frees: nat)

  datatype State = State(clients: map<nat, Client>, runs: map<nat, Compound>)

  // What the outside contributes to CB_SEQUENCE: the session's client, the state of its tables.
  datatype Env = Env(client: Option<nat>, backChan: bool, draining: bool, resetting: bool,
                     maxSlot: nat, found: bool, highest: nat)

  // What follows the handler: room for the header, and the result's encoding.
  datatype Tail = Tail(header: bool, encoded: Status)

  datatype Event =
    | NewClient(k: nat)
    | Get(k: nat) | Put(k: nat)                  // references of others
    | Start(c: nat, minor: nat, total: nat, decoded: Status, ident: Option<nat>, principal: bool, room: bool)
    | Truncated(c: nat)                          // the next operation's number is missing
    | Refused(c: nat, op: Op, why: Status, tail: Tail) // illegal here, a replay, no room or bad arguments
    | Handle(c: nat, op: Op, result: Status, tail: Tail)
    | SeqEnter(c: nat, env: Env, args: SeqArgs, tail: Tail)
    | SeqExit(c: nat, tail: Tail)
    | Finish(c: nat)

  predicate Live(s: State, c: nat) { c in s.runs && !s.runs[c].done }

  // The compound loop is about to try another operation.
  predicate Ready(s: State, c: nat) {
    Live(s, c) && s.runs[c].waiting.None? && s.runs[c].status == Ok && s.runs[c].nops != s.runs[c].total
  }

  predicate Enabled(s: State, e: Event) {
    match e
    case NewClient(k) => k !in s.clients
    case Get(k) => k in s.clients
    case Put(k) => k in s.clients && s.clients[k].base > 0
    case Start(c, minor, _, decoded, ident, _, _) =>
      c !in s.runs && decoded != Resource && decoded != ResourceHdr && (ident.Some? ==> ident.value in s.clients)
    case Truncated(c) => Ready(s, c)
    case Refused(c, _, why, _) => Ready(s, c) && why != Ok
    case Handle(c, op, _, _) =>
      && Ready(s, c) && op != Sequence && !s.runs[c].replay
      && Preprocess(s.runs[c].minor, s.runs[c].nops, op) == Ok
    case SeqEnter(c, env, _, _) =>
      && Ready(s, c) && !s.runs[c].replay
      && Preprocess(s.runs[c].minor, s.runs[c].nops, Sequence) == Ok
      && (env.client.Some? ==> env.client.value in s.clients)
    case SeqExit(c, _) => Live(s, c) && s.runs[c].waiting.Some?
    case Finish(c) => Live(s, c) && s.runs[c].waiting.None? && (s.runs[c].status != Ok || s.runs[c].nops == s.runs[c].total)
  }

  // ------------------------------------------------ steps

  function Blank(minor: nat, total: nat, decoded: Status): Compound {
    Compound(minor, total, 0, decoded, None, None, false, None, 0, false, 0, None, false, 0, 0, 0, 0)
  }

  // The end of process_op: the result header, then the result.
  function Close(x: Compound, status: Status, tail: Tail): Compound {
    if !tail.header then x.(nops := x.nops + 1, status := ResourceHdr)
    else
      var final := if status == Ok then tail.encoded else status;
      x.(nops := x.nops + 1, status := final, headers := x.headers + 1, forged := final == ResourceHdr)
  }

  // Why an operation's handler is not run.
  function Refusal(x: Compound, op: Op, why: Status): Status {
    var status := Preprocess(x.minor, x.nops, op);
    if status != Ok then status else if x.replay then RetryUncachedRep else why
  }

  function WithRun(s: State, c: nat, x: Compound): State { s.(runs := s.runs[c := x]) }

  function WithClient(s: State, k: nat, cl: Client): State { s.(clients := s.clients[k := cl]) }

  // The head of nfs4_callback_compound.
  function Begin(s: State, c: nat, minor: nat, total: nat, decoded: Status, ident: Option<nat>, principal: bool, room: bool): State
    requires ident.Some? ==> ident.value in s.clients
  {
    var x := Blank(minor, total, decoded);
    if minor != 0 then WithRun(s, c, if room then x else x.(done := true))
    else if ident.None? then WithRun(s, c, x.(done := true))
    else if !principal || !room then WithRun(s, c, x.(done := true, gets := 1, puts := 1))
    else
      var cl := s.clients[ident.value];
      WithRun(WithClient(s, ident.value, cl.(refs := cl.refs + 1)), c, x.(clp := ident, gets := 1))
  }

  // What CB_SEQUENCE answers before it may lock a slot.
  function Verdict(cl: Client, env: Env, args: SeqArgs): Status {
    if !env.backChan then BadSession
    else if env.draining then if env.resetting then BadSession else Delay
    else if args.slot > env.maxSlot || !env.found then BadSlot
    else
      var status := ValidateSeqid(env.highest, args.slot in cl.used, SeqNr(cl, args.slot), args);
      if status == Ok && args.slot in cl.used then Delay else status
  }

  // nfs4_callback_sequence up to the wait for referring calls.
  function Enter(s: State, c: nat, env: Env, args: SeqArgs, tail: Tail): State
    requires c in s.runs && (env.client.Some? ==> env.client.value in s.clients)
  {
    var x := s.runs[c];
    if env.client.None? then WithRun(s, c, Close(x, BadSession, tail))
    else
      var k := env.client.value;
      var cl := s.clients[k].(refs := s.clients[k].refs + 1);
      var y := x.(clp := Some(k), gets := x.gets + 1);
      var status := Verdict(s.clients[k], env, args);
      if status == RetryUncachedRep then
        WithRun(WithClient(s, k, cl), c, Close(y.(replay := true), Ok, tail))
      else if status != Ok then
        WithRun(WithClient(s, k, cl), c, Close(y, status, tail))
      else
        var z := y.(slot := Some(args.slot), locks := y.locks + 1);
        var locked := cl.(used := cl.used[args.slot := c]);
        WithRun(WithClient(s, k, locked), c,
                if args.cacheThis then Close(z, RepTooBigToCache, tail) else z.(waiting := Some(args.seqid)))
  }

  // The end of nfs4_callback_sequence: the slot moves on.
  function Exit(s: State, c: nat, tail: Tail): State
    requires c in s.runs && s.runs[c].waiting.Some? && s.runs[c].slot.Some?
    requires s.runs[c].clp.Some? && s.runs[c].clp.value in s.clients
  {
    var x := s.runs[c];
    var k, i, id := x.clp.value, x.slot.value, x.waiting.value;
    var cl := s.clients[k];
    var log := Log(cl, i);
    var y := x.(waiting := None, accepted := Some((k, i, |log|)));
    WithRun(WithClient(s, k, cl.(seqs := cl.seqs[i := id], log := cl.log[i := log + [(id, c)]])), c, Close(y, Ok, tail))
  }

  // nfs4_cb_free_slot and mynfs_put_client.
  function End(s: State, c: nat): State
    requires c in s.runs && (s.runs[c].clp.Some? ==> s.runs[c].clp.value in s.clients)
  {
    var x := s.runs[c];
    if x.clp.None? then WithRun(s, c, x.(done := true))
    else
      var k := x.clp.value;
      var cl := s.clients[k];
      var freed := if x.slot.Some? then cl.(used := cl.used - {x.slot.value}) else cl;
      WithRun(WithClient(s, k, freed.(refs := cl.refs - 1)), c,
              x.(done := true, clp := None, slot := None, puts := x.puts + 1,
                 frees := if x.slot.Some? then x.frees + 1 else x.frees))
  }

  // Pointers the code follows without a check.
  predicate Sane(s: State, c: nat) {
    c in s.runs &&
    var x := s.runs[c];
    && (x.clp.Some? ==> x.clp.value in s.clients)
    && (x.slot.Some? ==> x.clp.Some?)
    && (x.waiting.Some? ==> x.slot.Some?)
  }

  function Step(s: State, e: Event): State
    requires Enabled(s, e)
    requires e.SeqExit? || e.Finish? ==> Sane(s, e.c)
  {
    match e
    case NewClient(k) => WithClient(s, k, Client(0, 0, map[], map[], map[]))
    case Get(k) => WithClient(s, k, s.clients[k].(refs := s.clients[k].refs + 1, base := s.clients[k].base + 1))
    case Put(k) => WithClient(s, k, s.clients[k].(refs := s.clients[k].refs - 1, base := s.clients[k].base - 1))
    case Start(c, minor, total, decoded, ident, principal, room) =>
      Begin(s, c, minor, total, decoded, ident, principal, room)
    case Truncated(c) => WithRun(s, c, s.runs[c].(nops := s.runs[c].nops + 1, status := ResourceHdr))
    case Refused(c, op, why, tail) => WithRun(s, c, Close(s.runs[c], Refusal(s.runs[c], op, why), tail))
    case Handle(c, op, result, tail) =>
      WithRun(s, c, Close(s.runs[c].(executed := s.runs[c].executed + 1), result, tail))
    case SeqEnter(c, env, args, tail) => Enter(s, c, env, args, tail)
    case SeqExit(c, tail) => Exit(s, c, tail)
    case Finish(c) => End(s, c)
  }

  // Every run: events that cannot happen where they stand are skipped.
  function Run(es: seq<Event>): State {
    if es == [] then State(map[], map[]) else
      var s, e := Run(es[..|es|-1]), es[|es|-1];
      if Enabled(s, e) && (e.SeqExit? || e.Finish? ==> Sane(s, e.c)) then Step(s, e) else s
  }
}
