/** The provider call protocol as a transition system. Any number of calls, on any number
    of clients, run the complete()/stream() skeleton against one provider; the clients
    share that provider's circuit breaker and each owns a pool of connections to it.

    A step is one atomic access to shared state: a flag load or store, a breaker call, a
    pool operation under the pool mutex, or the outcome of one provider exchange. An
    action that is not possible in a state leaves the state as it is, so every sequence
    of actions is a run and every interleaving is covered. */
module CallProtocol {
  import opened Common
  import B = CircuitBreaker

  type CallId = nat

  const MAX_CONNS: nat := 16

  datatype Kind = Complete | Stream

  function MaxAttempts(kind: Kind): nat {
    match kind case Complete => 4 case Stream => 3
  }

  /** A pool of `conns` connections, numbered in creation order and never removed;
      `idle` is the stack of those free to lease, `holder` the owner of the pool mutex. */
  datatype Pool = Pool(conns: nat, idle: seq<nat>, holder: Option<CallId>)

  predicate HasRoom(p: Pool) {
    p.idle != [] || p.conns < MAX_CONNS
  }

  /** `cancels` counts the calls of cancel() that have stored the sticky bit and not yet
      the ephemeral one. */
  datatype Client = Client(hard: bool, soft: bool, cancels: nat, pool: Pool)

  const FRESH_CLIENT: Client := Client(false, false, 0, Pool(0, [], None))

  /** Where latch_sticky_cancel is called. */
  datatype Latch = AtEntry | AtLeaseAbort | AtAttempt(n: nat)

  /** Where is_request_cancelled is called. */
  datatype Check = InWait | AfterWait | AtHead(n: nat)

  datatype Fate = CancelledAtEntry | Rejected | Offline | Recorded(op: B.Op) | Escaped

  datatype Pc =
    | LatchLoad(latch: Latch)
    | Preflight(latch: Latch)
    | LatchStore(latch: Latch)
    | ClearSoft
    | AskBreaker
    | OfflineCheck
    | LockPool
    | LoadHard(check: Check)
    | LoadSoft(check: Check)
    | LoadToken(check: Check)
    | TestPool
    | Parked
    | TakeConn
    | Exchange(attempt: nat)
    | Report(op: B.Op)
    | Release(fate: Fate)
    | Returned(fate: Fate)

  /** What one provider exchange can do. `ForeignThrow` is an exception outside the
      std::exception hierarchy, which only complete() catches. */
  datatype Outcome =
    | Answered
    | ConnectFailed
    | Threw
    | ForeignThrow
    | ErrorReply(retryable: bool, gotContent: bool)

  datatype Call = Call(
    client: ClientId, kind: Kind, offline: bool, token: Option<TokenId>,
    pc: Pc, conn: Option<nat>, exchanges: nat)

  datatype Sys = Sys(
    now: int,
    breaker: B.Entry,
    log: seq<(B.Event, CallId)>,
    probe: Option<CallId>,
    clients: map<ClientId, Client>,
    calls: map<CallId, Call>,
    cancelledTokens: set<TokenId>)

  datatype Action =
    | Start(id: CallId, client: ClientId, kind: Kind, offline: bool, token: Option<TokenId>)
    | Step(id: CallId, preflightOk: bool, outcome: Outcome)
    | CancelRequest(target: TokenId)
    | CancelClientHard(client: ClientId)
    | CancelClientSoft(client: ClientId)
    | ClearHardCancel(client: ClientId)
    | Tick(ticks: nat)

  // ---- one call's own transition ----

  /** Where a latch_sticky_cancel call leads once its verdict is known. */
  function LatchVerdict(latch: Latch, cancelled: bool): Pc {
    match latch
    case AtEntry => if cancelled then Returned(CancelledAtEntry) else ClearSoft
    case AtLeaseAbort => Report(B.Abandoned)
    case AtAttempt(n) => if cancelled then Report(B.Abandoned) else LoadHard(AtHead(n))
  }

  /** Where an is_request_cancelled call leads once its verdict is known. */
  function CheckVerdict(check: Check, cancelled: bool): Pc {
    match check
    case InWait => if cancelled then LoadHard(AfterWait) else TestPool
    case AfterWait => if cancelled then LatchLoad(AtLeaseAbort) else TakeConn
    case AtHead(n) => if cancelled then Report(B.Abandoned) else Exchange(n)
  }

  /** The retry decision after exchange number `n` (counted from zero). */
  function AfterExchange(kind: Kind, n: nat, o: Outcome): Pc {
    var last := n + 1 >= MaxAttempts(kind);
    var retry := if last then Report(B.Failure) else LatchLoad(AtAttempt(n + 1));
    match o
    case Answered => Report(B.Success)
    case ConnectFailed => Report(B.Failure)
    case Threw => retry
    case ForeignThrow => if kind == Stream then Release(Escaped) else retry
    case ErrorReply(retryable, gotContent) =>
      if retryable && (kind == Complete || !gotContent) then retry else Report(B.Failure)
  }

  /** The call and the client after one step, and the breaker operation it performs. */
  datatype Moved = Moved(call: Call, client: Client, op: Option<B.Op>)

  function Goto(c: Call, cl: Client, pc: Pc): Moved {
    Moved(c.(pc := pc), cl, None)
  }

  function Unlocked(cl: Client): Client {
    cl.(pool := cl.pool.(holder := None))
  }

  /** Leaving the wait with a cancelled second check gives the pool mutex up. */
  function AfterCheck(c: Call, cl: Client, check: Check, cancelled: bool): Moved {
    Goto(c, if check == AfterWait && cancelled then Unlocked(cl) else cl, CheckVerdict(check, cancelled))
  }

  function Move(id: CallId, c: Call, cl: Client, tokenCancelled: bool, admits: bool,
                preflightOk: bool, o: Outcome): Moved
  {
    match c.pc
    case LatchLoad(l) => Goto(c, cl, if cl.hard then LatchStore(l) else Preflight(l))
    case Preflight(l) => Goto(c, cl, if preflightOk then LatchVerdict(l, false) else LatchStore(l))
    case LatchStore(l) => Goto(c, cl.(hard := true), LatchVerdict(l, true))
    case ClearSoft => Goto(c, cl.(soft := false), AskBreaker)
    case AskBreaker => Moved(c.(pc := if admits then OfflineCheck else Returned(Rejected)), cl, Some(B.Allow))
    case OfflineCheck => Goto(c, cl, if c.offline then Returned(Offline) else LockPool)
    case LockPool =>
      if cl.pool.holder.None?
      then Goto(c, cl.(pool := cl.pool.(holder := Some(id))), LoadHard(InWait))
      else Goto(c, cl, LockPool)
    case LoadHard(k) => if cl.hard then AfterCheck(c, cl, k, true) else Goto(c, cl, LoadSoft(k))
    case LoadSoft(k) => if cl.soft then AfterCheck(c, cl, k, true) else Goto(c, cl, LoadToken(k))
    case LoadToken(k) => AfterCheck(c, cl, k, tokenCancelled)
    case TestPool =>
      if HasRoom(cl.pool) then Goto(c, cl, LoadHard(AfterWait)) else Goto(c, Unlocked(cl), Parked)
    case Parked => Goto(c, cl, LockPool)
    case TakeConn =>
      var p := cl.pool;
      if p.idle != [] then
        var k := p.idle[|p.idle| - 1];
        Moved(c.(pc := LatchLoad(AtAttempt(0)), conn := Some(k)),
              cl.(pool := Pool(p.conns, p.idle[..|p.idle| - 1], None)), None)
      else
        Moved(c.(pc := LatchLoad(AtAttempt(0)), conn := Some(p.conns)),
              cl.(pool := Pool(p.conns + 1, p.idle, None)), None)
    case Exchange(n) =>
      // A streaming read re-runs the preflight now and then and latches a refusal.
      Moved(c.(pc := AfterExchange(c.kind, n, o), exchanges := c.exchanges + 1),
            if c.kind == Stream && !preflightOk then cl.(hard := true) else cl, None)
    case Report(op) => Moved(c.(pc := Release(Recorded(op))), cl, Some(op))
    case Release(f) =>
      if c.conn.None? then Goto(c, cl, Returned(f))
      else if cl.pool.holder.Some? then Goto(c, cl, Release(f))
      else Moved(c.(pc := Returned(f), conn := None),
                 cl.(pool := cl.pool.(idle := cl.pool.idle + [c.conn.value])), None)
    case Returned(f) => Goto(c, cl, Returned(f))
  }

  // ---- the whole system ----

  function Events(log: seq<(B.Event, CallId)>): (h: seq<B.Event>)
    ensures |h| == |log|
    ensures forall i :: 0 <= i < |h| ==> h[i] == log[i].0
  {
    if log == [] then [] else Events(log[..|log| - 1]) + [log[|log| - 1].0]
  }

  predicate TokenCancelled(s: Sys, c: Call) {
    c.token.Some? && c.token.value in s.cancelledTokens
  }

  predicate CanStep(s: Sys, id: CallId) {
    id in s.calls && s.calls[id].client in s.clients
  }

  function MoveOf(cfg: B.Config, s: Sys, id: CallId, preflightOk: bool, o: Outcome): Moved
    requires CanStep(s, id)
  {
    var c := s.calls[id];
    Move(id, c, s.clients[c.client], TokenCancelled(s, c), B.Admits(cfg, s.breaker, s.now), preflightOk, o)
  }

  /** A breaker call by `id`: the log grows by one, and a call that takes the breaker into
      HalfOpen becomes the probe of that episode. */
  function BreakerCall(cfg: B.Config, s: Sys, id: CallId, op: B.Op): Sys {
    var ev := B.Event(op, s.now);
    var e := B.After(cfg, s.breaker, ev);
    s.(breaker := e,
       log := s.log + [(ev, id)],
       probe := if op == B.Allow && s.breaker.state != B.HalfOpen && e.state == B.HalfOpen then Some(id) else s.probe)
  }

  /** The system after call `id` makes the move `m`. */
  function Applied(cfg: B.Config, s: Sys, id: CallId, m: Moved): Sys {
    var s := if m.op.Some? then BreakerCall(cfg, s, id, m.op.value) else s;
    s.(calls := s.calls[id := m.call], clients := s.clients[m.call.client := m.client])
  }

  function Next(cfg: B.Config, s: Sys, a: Action): Sys {
    match a
    case Start(id, client, kind, offline, token) =>
      if id in s.calls || client !in s.clients then s
      else s.(calls := s.calls[id := Call(client, kind, offline, token, LatchLoad(AtEntry), None, 0)])
    case Step(id, preflightOk, o) =>
      if !CanStep(s, id) then s
      else
        Applied(cfg, s, id, MoveOf(cfg, s, id, preflightOk, o))
    case CancelRequest(token) => s.(cancelledTokens := s.cancelledTokens + {token})
    case CancelClientHard(c) =>
      if c !in s.clients then s
      else s.(clients := s.clients[c := s.clients[c].(hard := true, cancels := s.clients[c].cancels + 1)])
    case CancelClientSoft(c) =>
      if c !in s.clients || s.clients[c].cancels == 0 then s
      else s.(clients := s.clients[c := s.clients[c].(soft := true, cancels := s.clients[c].cancels - 1)])
    case ClearHardCancel(c) =>
      if c !in s.clients then s
      else s.(clients := s.clients[c := s.clients[c].(hard := false)])
    case Tick(d) => s.(now := s.now + d)
  }

  function Run(cfg: B.Config, s: Sys, acts: seq<Action>): Sys {
    if acts == [] then s else Next(cfg, Run(cfg, s, acts[..|acts| - 1]), acts[|acts| - 1])
  }

  /** Any set of idle clients, a fresh breaker entry, no calls yet. */
  ghost predicate Initial(s: Sys) {
    && s.breaker == B.FRESH && s.log == [] && s.probe == None
    && s.calls == map[]
    && forall c :: c in s.clients ==> s.clients[c] == FRESH_CLIENT
  }
}
