/**
 Sharing of client records: any number of threads look for a record for their server, wait for one
 another's initialisation with the list lock dropped, insert new records, mark them ready or
 failed and drop them.  Each section under the list lock is one step.
 */
module ClientSharing {
  import opened Lists

  // What a record is looked up by.
  datatype Key = Key(ops: nat, proto: nat, minor: nat, dataServer: bool, addr: nat, policy: nat)

  // cons: negative failed, zero ready, positive under construction.  extra: further addresses of
  // its transport switch.  base: references held by others than the threads here.
  datatype Client = Client(key: Key, cons: int, count: int, base: nat, extra: set<nat>)

  // Where a thread in mynfs_get_client stands.  spare: it has allocated a record of its own.
  datatype Pc =
    | Idle
    | Looking(key: Key, spare: bool)
    | Waiting(key: Key, spare: bool, c: nat)  // in nfs_match_client, lock dropped
    | Allocating(key: Key)
    | Found(key: Key, c: nat)                 // in nfs_found_client
    | Initialising(key: Key, c: nat)          // in init_client with the record it has inserted
    | Holding(c: nat)                         // returned to the caller

  // next: the next identity; identities are not used again.
  datatype State = State(clients: map<nat, Client>, list: seq<nat>, pcs: map<nat, Pc>, next: nat)

  function Start(): State { State(map[], [], map[], 0) }

  function At(s: State, t: nat): Pc { if t in s.pcs then s.pcs[t] else Idle }

  function Goto(s: State, t: nat, p: Pc): State { s.(pcs := s.pcs[t := p]) }

  predicate Usable(cl: Client) { cl.cons >= 0 }

  // The checks of nfs_match_client on a record that is ready.
  predicate Matches(cl: Client, key: Key) {
    && cl.key.ops == key.ops && cl.key.proto == key.proto && cl.key.minor == key.minor
    && cl.key.dataServer == key.dataServer
    && (cl.key.addr == key.addr || key.addr in cl.extra)
    && cl.key.policy == key.policy
  }

  datatype Outcome = NoMatch | Wait(c: nat) | Match(c: nat)

  // nfs_match_client between taking and dropping the lock.
  function Scan(clients: map<nat, Client>, list: seq<nat>, key: Key): Outcome
    requires forall i :: 0 <= i < |list| ==> list[i] in clients
  {
    if list == [] then NoMatch
    else
      var cl := clients[list[0]];
      if cl.cons < 0 then Scan(clients, list[1..], key)
      else if cl.cons > 0 then Wait(list[0])
      else if Matches(cl, key) then Match(list[0])
      else Scan(clients, list[1..], key)
  }

  function GetClient(s: State, c: nat): State
    requires c in s.clients
  {
    s.(clients := s.clients[c := s.clients[c].(count := s.clients[c].count + 1)])
  }

  // mynfs_put_client: the last reference takes the record off the list and frees it.
  function PutClient(s: State, c: nat): State
    requires c in s.clients
  {
    if s.clients[c].count == 1 then s.(clients := s.clients - {c}, list := Without(s.list, c))
    else s.(clients := s.clients[c := s.clients[c].(count := s.clients[c].count - 1)])
  }

  datatype Event =
    | Begin(t: nat, key: Key)
    | Look(t: nat)
    | Allocate(t: nat, ok: bool)
    | Wake(t: nat, killed: bool)
    | Check(t: nat, killed: bool)        // nfs_found_client after its wait
    | Done(t: nat, ok: bool)             // init_client returns the record or an error
    | Trunk(t: nat, other: nat)          // init_client finds that another record is the same server
    | Release(t: nat)
    | Mark(c: nat, cons: int)            // mynfs_mark_client_ready
    | AddAddress(c: nat, addr: nat)
    | Get(c: nat) | Put(c: nat)          // references of others

  predicate Enabled(s: State, e: Event) {
    match e
    case Begin(t, _) => At(s, t).Idle?
    case Look(t) => At(s, t).Looking? && forall i :: 0 <= i < |s.list| ==> s.list[i] in s.clients
    case Allocate(t, _) => At(s, t).Allocating?
    case Wake(t, killed) => At(s, t).Waiting? && At(s, t).c in s.clients && (killed || s.clients[At(s, t).c].cons <= 0)
    case Check(t, killed) => At(s, t).Found? && At(s, t).c in s.clients && (killed || s.clients[At(s, t).c].cons <= 0)
    case Done(t, _) => At(s, t).Initialising? && At(s, t).c in s.clients
    case Trunk(t, other) =>
      At(s, t).Initialising? && At(s, t).c in s.clients && other in s.clients && other != At(s, t).c
    case Release(t) => At(s, t).Holding? && At(s, t).c in s.clients
    case Mark(c, _) => c in s.clients
    case AddAddress(c, _) => c in s.clients
    case Get(c) => c in s.clients
    case Put(c) => c in s.clients && s.clients[c].base > 0
  }

  // One turn of the loop in mynfs_get_client up to where it drops the lock.
  function LookStep(s: State, t: nat): State
    requires At(s, t).Looking? && forall i :: 0 <= i < |s.list| ==> s.list[i] in s.clients
  {
    var p := At(s, t);
    match Scan(s.clients, s.list, p.key)
    case Wait(c) => if c in s.clients then Goto(GetClient(s, c), t, Waiting(p.key, p.spare, c)) else s
    case Match(c) => if c in s.clients then Goto(GetClient(s, c), t, Found(p.key, c)) else s
    case NoMatch =>
      if p.spare then Insert(s, t, p.key) else Goto(s, t, Allocating(p.key))
  }

  // A new record joins the list, under construction and referenced by its maker.
  function Insert(s: State, t: nat, key: Key): State {
    Goto(s, t, Initialising(key, s.next))
      .(clients := s.clients[s.next := Client(key, 1, 1, 0, {})], list := s.list + [s.next], next := s.next + 1)
  }

  function SetCons(s: State, c: nat, cons: int): State
    requires c in s.clients
  {
    s.(clients := s.clients[c := s.clients[c].(cons := cons)])
  }

  function Step(s: State, e: Event): State
    requires Enabled(s, e)
  {
    match e
    case Begin(t, key) => Goto(s, t, Looking(key, false))
    case Look(t) => LookStep(s, t)
    case Allocate(t, ok) => Goto(s, t, if ok then Looking(At(s, t).key, true) else Idle)
    case Wake(t, killed) =>
      var p := At(s, t);
      Goto(PutClient(s, p.c), t, if killed then Idle else Looking(p.key, p.spare))
    case Check(t, killed) =>
      var c := At(s, t).c;
      if killed || s.clients[c].cons < 0 then Goto(PutClient(s, c), t, Idle) else Goto(s, t, Holding(c))
    case Done(t, ok) =>
      var c := At(s, t).c;
      if ok then Goto(s, t, Holding(c)) else Goto(PutClient(SetCons(s, c, -1), c), t, Idle)
    case Trunk(t, other) =>
      var c := At(s, t).c;
      Goto(PutClient(SetCons(GetClient(s, other), c, -1), c), t, Holding(other))
    case Release(t) => Goto(PutClient(s, At(s, t).c), t, Idle)
    case Mark(c, cons) => SetCons(s, c, cons)
    case AddAddress(c, addr) =>
      s.(clients := s.clients[c := s.clients[c].(extra := s.clients[c].extra + {addr})])
    case Get(c) =>
      var cl := s.clients[c];
      s.(clients := s.clients[c := cl.(count := cl.count + 1, base := cl.base + 1)])
    case Put(c) =>
      PutClient(s.(clients := s.clients[c := s.clients[c].(base := s.clients[c].base - 1)]), c)
  }

  function Run(es: seq<Event>): State {
    if es == [] then Start() else
      var s := Run(es[..|es|-1]);
      if Enabled(s, es[|es|-1]) then Step(s, es[|es|-1]) else s
  }
}
