/** What every run of the call protocol keeps of a client's connection pool: leases are
    exclusive and nothing is lost, whatever is cancelled or released in between. */
module ConnectionPool {
  import opened Common
  import opened CallProtocol
  import B = CircuitBreaker

  /** The steps a lease constructor performs while it owns the pool mutex. */
  predicate HoldsMutex(pc: Pc) {
    match pc
    case LoadHard(k) => !k.AtHead?
    case LoadSoft(k) => !k.AtHead?
    case LoadToken(k) => !k.AtHead?
    case TestPool => true
    case TakeConn => true
    case _ => false
  }

  /** Where a call has a connection, and where it has none; after a report it has one
      unless its lease was aborted. */
  predicate ConnPlaced(c: Call) {
    match c.pc
    case LatchLoad(l) => c.conn.Some? <==> l.AtAttempt?
    case Preflight(l) => c.conn.Some? <==> l.AtAttempt?
    case LatchStore(l) => c.conn.Some? <==> l.AtAttempt?
    case LoadHard(k) => c.conn.Some? <==> k.AtHead?
    case LoadSoft(k) => c.conn.Some? <==> k.AtHead?
    case LoadToken(k) => c.conn.Some? <==> k.AtHead?
    case Exchange(_) => c.conn.Some?
    case Report(_) => true
    case Release(_) => true
    case _ => c.conn.None?
  }

  predicate NoDup(xs: seq<nat>) {
    forall i, j :: 0 <= i < j < |xs| ==> xs[i] != xs[j]
  }

  predicate Leases(s: Sys, c: ClientId, id: CallId, k: nat) {
    id in s.calls && s.calls[id].client == c && s.calls[id].conn == Some(k)
  }

  /** The mutex has one owner: the call whose lease is being decided. */
  ghost predicate MutexOwned(s: Sys, c: ClientId)
    requires c in s.clients
  {
    var p := s.clients[c].pool;
    && (forall id :: id in s.calls && s.calls[id].client == c ==>
          (HoldsMutex(s.calls[id].pc) <==> p.holder == Some(id)))
    && (p.holder.Some? ==> p.holder.value in s.calls && s.calls[p.holder.value].client == c)
  }

  /** Idle connections are distinct and none is leased; no connection has two lessees; and
      every connection of the pool is idle or leased. */
  ghost predicate Conserved(s: Sys, c: ClientId)
    requires c in s.clients
  {
    var p := s.clients[c].pool;
    && NoDup(p.idle)
    && (forall k: nat :: k in p.idle ==> k < p.conns)
    && (forall id, k: nat :: Leases(s, c, id, k) ==> k < p.conns && k !in p.idle)
    && (forall id, id', k: nat :: Leases(s, c, id, k) && Leases(s, c, id', k) ==> id == id')
    && (forall k: nat :: k < p.conns ==> k in p.idle || exists id :: Leases(s, c, id, k))
  }

  ghost predicate Inv(s: Sys) {
    && (forall id :: id in s.calls ==> ConnPlaced(s.calls[id]) && s.calls[id].client in s.clients)
    && (forall c :: c in s.clients ==> MutexOwned(s, c) && Conserved(s, c))
  }

  // ---- the shapes a move can have, seen from the pool ----

  datatype PoolChange = Same | Locks | Unlocks | TakesIdle | TakesNew | Returns

  predicate Changes(id: CallId, c: Call, cl: Client, m: Moved, ch: PoolChange) {
    var (p, p') := (cl.pool, m.client.pool);
    var (had, has) := (HoldsMutex(c.pc), HoldsMutex(m.call.pc));
    match ch
    case Same => p' == p && m.call.conn == c.conn && had == has
    case Locks => p.holder == None && p' == p.(holder := Some(id)) && m.call.conn == c.conn && !had && has
    case Unlocks => p' == p.(holder := None) && m.call.conn == c.conn && had && !has
    case TakesIdle =>
      && p.idle != [] && p' == Pool(p.conns, p.idle[..|p.idle| - 1], None)
      && c.conn == None && m.call.conn == Some(p.idle[|p.idle| - 1]) && had && !has
    case TakesNew =>
      && p.idle == [] && p' == Pool(p.conns + 1, [], None)
      && c.conn == None && m.call.conn == Some(p.conns) && had && !has
    case Returns =>
      && p.holder == None && c.conn.Some? && p' == p.(idle := p.idle + [c.conn.value])
      && m.call.conn == None && !had && !has
  }

  function ChangeOf(c: Call, cl: Client, m: Moved): PoolChange {
    if c.pc == TakeConn then (if cl.pool.idle != [] then TakesIdle else TakesNew)
    else if c.pc.Release? && c.conn.Some? && m.call.conn.None? then Returns
    else if HoldsMutex(c.pc) == HoldsMutex(m.call.pc) then Same
    else if HoldsMutex(c.pc) then Unlocks
    else Locks
  }

  predicate PoolMove(id: CallId, c: Call, cl: Client, m: Moved) {
    && m.call.client == c.client && ConnPlaced(m.call)
    && Changes(id, c, cl, m, ChangeOf(c, cl, m))
  }

  lemma LatchPoolMove(id: CallId, c: Call, cl: Client, tok: bool, admits: bool, pre: bool, o: Outcome)
    requires ConnPlaced(c) && (c.pc.LatchLoad? || c.pc.Preflight? || c.pc.LatchStore?)
    ensures PoolMove(id, c, cl, Move(id, c, cl, tok, admits, pre, o))
  {
  }

  lemma CheckPoolMove(id: CallId, c: Call, cl: Client, tok: bool, admits: bool, pre: bool, o: Outcome)
    requires ConnPlaced(c) && (c.pc.LoadHard? || c.pc.LoadSoft? || c.pc.LoadToken?)
    ensures PoolMove(id, c, cl, Move(id, c, cl, tok, admits, pre, o))
  {
  }

  lemma LeasePoolMove(id: CallId, c: Call, cl: Client, tok: bool, admits: bool, pre: bool, o: Outcome)
    requires ConnPlaced(c) && c.pc in {LockPool, TestPool, Parked, TakeConn}
    ensures PoolMove(id, c, cl, Move(id, c, cl, tok, admits, pre, o))
  {
  }

  lemma OtherPoolMove(id: CallId, c: Call, cl: Client, tok: bool, admits: bool, pre: bool, o: Outcome)
    requires ConnPlaced(c)
    requires c.pc in {ClearSoft, AskBreaker, OfflineCheck} || c.pc.Exchange? || c.pc.Report? || c.pc.Release? || c.pc.Returned?
    ensures PoolMove(id, c, cl, Move(id, c, cl, tok, admits, pre, o))
  {
  }

  lemma StepPoolMove(cfg: B.Config, s: Sys, id: CallId, pre: bool, o: Outcome)
    requires CanStep(s, id) && ConnPlaced(s.calls[id])
    ensures PoolMove(id, s.calls[id], s.clients[s.calls[id].client], MoveOf(cfg, s, id, pre, o))
  {
    var c := s.calls[id];
    var (cl, tok, admits) := (s.clients[c.client], TokenCancelled(s, c), B.Admits(cfg, s.breaker, s.now));
    match c.pc {
      case LatchLoad(_) | Preflight(_) | LatchStore(_) => LatchPoolMove(id, c, cl, tok, admits, pre, o);
      case LoadHard(_) | LoadSoft(_) | LoadToken(_) => CheckPoolMove(id, c, cl, tok, admits, pre, o);
      case LockPool | TestPool | Parked | TakeConn => LeasePoolMove(id, c, cl, tok, admits, pre, o);
      case _ => OtherPoolMove(id, c, cl, tok, admits, pre, o);
    }
  }

  // ---- each shape keeps the invariant ----

  lemma AppliedKeepsMutex(cfg: B.Config, s: Sys, who: CallId, m: Moved, c: ClientId)
    requires CanStep(s, who) && c in s.clients && MutexOwned(s, c) && MutexOwned(s, s.calls[who].client)
    requires PoolMove(who, s.calls[who], s.clients[s.calls[who].client], m)
    ensures MutexOwned(Applied(cfg, s, who, m), c)
  {
  }

  /** Which leases the mover's client has after the move. */
  lemma LeasesAfter(cfg: B.Config, s: Sys, who: CallId, m: Moved, c: ClientId, id: CallId, k: nat)
    requires CanStep(s, who) && m.call.client == s.calls[who].client
    ensures Leases(Applied(cfg, s, who, m), c, id, k)
            <==> if id == who then m.call.client == c && m.call.conn == Some(k) else Leases(s, c, id, k)
  {
  }

  /** Lookup facts that survive appending to or popping the idle stack. */
  lemma IdleStack(idle: seq<nat>, k: nat)
    ensures forall x: nat :: x in idle + [k] <==> x in idle || x == k
    ensures NoDup(idle) && k !in idle ==> NoDup(idle + [k])
    ensures idle != [] && NoDup(idle) ==>
              && NoDup(idle[..|idle| - 1])
              && (forall x: nat :: x in idle[..|idle| - 1] <==> x in idle && x != idle[|idle| - 1])
  {
    if idle != [] {
      assert idle == idle[..|idle| - 1] + [idle[|idle| - 1]];
    }
  }

  /** Only `who`'s lease differs between the two states: from `was` to `now`. */
  ghost predicate LeaseMoves(s: Sys, s': Sys, c: ClientId, who: CallId, was: Option<nat>, now: Option<nat>) {
    && c in s.clients && c in s'.clients
    && (forall k: nat :: Leases(s, c, who, k) <==> was == Some(k))
    && (forall k: nat :: Leases(s', c, who, k) <==> now == Some(k))
    && (forall id, k: nat :: id != who ==> (Leases(s', c, id, k) <==> Leases(s, c, id, k)))
  }

  lemma StillCovered(s: Sys, s': Sys, c: ClientId, who: CallId, was: Option<nat>, now: Option<nat>, k: nat)
    requires LeaseMoves(s, s', c, who, was, now) && Conserved(s, c)
    requires k < s.clients[c].pool.conns && k !in s.clients[c].pool.idle && was != Some(k)
    ensures exists id :: Leases(s', c, id, k)
  {
    var id :| Leases(s, c, id, k);
    assert Leases(s', c, id, k);
  }

  lemma UntouchedConserved(s: Sys, s': Sys, c: ClientId, who: CallId, was: Option<nat>)
    requires LeaseMoves(s, s', c, who, was, was) && Conserved(s, c)
    requires s'.clients[c].pool.conns == s.clients[c].pool.conns && s'.clients[c].pool.idle == s.clients[c].pool.idle
    ensures Conserved(s', c)
  {
    forall k: nat | k < s'.clients[c].pool.conns && k !in s'.clients[c].pool.idle
      ensures exists id :: Leases(s', c, id, k)
    {
      if was == Some(k) { assert Leases(s', c, who, k); } else { StillCovered(s, s', c, who, was, was, k); }
    }
  }

  lemma TookConserved(s: Sys, s': Sys, c: ClientId, who: CallId, got: nat)
    requires LeaseMoves(s, s', c, who, None, Some(got)) && Conserved(s, c)
    requires
      var (p, p') := (s.clients[c].pool, s'.clients[c].pool);
      if p.idle != []
      then p'.conns == p.conns && got == p.idle[|p.idle| - 1] && p'.idle == p.idle[..|p.idle| - 1]
      else p'.conns == p.conns + 1 && got == p.conns && p'.idle == p.idle
    ensures Conserved(s', c)
  {
    var (p, p') := (s.clients[c].pool, s'.clients[c].pool);
    IdleStack(p.idle, 0);
    assert p.idle != [] ==> got in p.idle;
    assert forall k: nat :: k in p'.idle ==> k in p.idle && k != got;
    forall k: nat | k < p'.conns && k !in p'.idle ensures exists id :: Leases(s', c, id, k) {
      if k == got { assert Leases(s', c, who, k); } else { StillCovered(s, s', c, who, None, Some(got), k); }
    }
  }

  lemma ReturnedConserved(s: Sys, s': Sys, c: ClientId, who: CallId, had: nat)
    requires LeaseMoves(s, s', c, who, Some(had), None) && Conserved(s, c)
    requires s'.clients[c].pool.conns == s.clients[c].pool.conns
    requires s'.clients[c].pool.idle == s.clients[c].pool.idle + [had]
    ensures Conserved(s', c)
  {
    var (p, p') := (s.clients[c].pool, s'.clients[c].pool);
    assert Leases(s, c, who, had);
    IdleStack(p.idle, had);
    forall k: nat | k < p'.conns && k !in p'.idle ensures exists id :: Leases(s', c, id, k) {
      StillCovered(s, s', c, who, Some(had), None, k);
    }
    assert forall id, k: nat :: Leases(s', c, id, k) ==> Leases(s, c, id, k) && id != who;
  }

  lemma AppliedKeepsConserved(cfg: B.Config, s: Sys, who: CallId, m: Moved, c: ClientId)
    requires CanStep(s, who) && c in s.clients && Conserved(s, c)
    requires PoolMove(who, s.calls[who], s.clients[s.calls[who].client], m)
    ensures Conserved(Applied(cfg, s, who, m), c)
  {
    var s' := Applied(cfg, s, who, m);
    forall id, k: nat ensures Leases(s', c, id, k)
        <==> if id == who then m.call.client == c && m.call.conn == Some(k) else Leases(s, c, id, k) {
      LeasesAfter(cfg, s, who, m, c, id, k);
    }
    var was := s.calls[who].conn;
    if m.call.client != c {
      UntouchedConserved(s, s', c, who, None);
    } else {
      assert LeaseMoves(s, s', c, who, was, m.call.conn);
      match ChangeOf(s.calls[who], s.clients[c], m) {
        case TakesIdle | TakesNew => TookConserved(s, s', c, who, m.call.conn.value);
        case Returns => ReturnedConserved(s, s', c, who, was.value);
        case _ => UntouchedConserved(s, s', c, who, was);
      }
    }
  }

  lemma AppliedKeepsInv(cfg: B.Config, s: Sys, who: CallId, m: Moved)
    requires CanStep(s, who) && Inv(s)
    requires PoolMove(who, s.calls[who], s.clients[s.calls[who].client], m)
    ensures Inv(Applied(cfg, s, who, m))
  {
    var s' := Applied(cfg, s, who, m);
    forall c | c in s'.clients ensures MutexOwned(s', c) && Conserved(s', c) {
      AppliedKeepsMutex(cfg, s, who, m, c);
      AppliedKeepsConserved(cfg, s, who, m, c);
    }
  }

  lemma StartKeepsInv(cfg: B.Config, s: Sys, a: Action)
    requires Inv(s) && a.Start?
    ensures Inv(Next(cfg, s, a))
  {
    var s' := Next(cfg, s, a);
    forall c | c in s'.clients ensures MutexOwned(s', c) && Conserved(s', c) {
      assert MutexOwned(s, c) && Conserved(s, c);
      if s' != s { UntouchedConserved(s, s', c, a.id, None); }
    }
  }

  lemma FlagsKeepInv(s: Sys, s': Sys)
    requires Inv(s) && s'.calls == s.calls && s'.clients.Keys == s.clients.Keys
    requires forall c :: c in s.clients ==> s'.clients[c].pool == s.clients[c].pool
    ensures Inv(s')
  {
    forall c | c in s'.clients ensures MutexOwned(s', c) && Conserved(s', c) {
      assert MutexOwned(s, c) && Conserved(s, c);
      assert forall id, k: nat :: Leases(s', c, id, k) <==> Leases(s, c, id, k);
    }
  }

  lemma QuietKeepsInv(cfg: B.Config, s: Sys, a: Action)
    requires Inv(s) && !(a.Step? && CanStep(s, a.id))
    ensures Inv(Next(cfg, s, a))
  {
    if a.Start? { StartKeepsInv(cfg, s, a); } else { FlagsKeepInv(s, Next(cfg, s, a)); }
  }

  lemma NextKeepsInv(cfg: B.Config, s: Sys, a: Action)
    requires Inv(s)
    ensures Inv(Next(cfg, s, a))
  {
    if a.Step? && CanStep(s, a.id) {
      StepPoolMove(cfg, s, a.id, a.preflightOk, a.outcome);
      AppliedKeepsInv(cfg, s, a.id, MoveOf(cfg, s, a.id, a.preflightOk, a.outcome));
    } else {
      QuietKeepsInv(cfg, s, a);
    }
  }

  /** In every run, every pool is conserved, its mutex has one owner, and each call holds a
      connection exactly where the protocol says; a cancelled wait holds none. */
  lemma {:induction false} PoolConservation(cfg: B.Config, s0: Sys, acts: seq<Action>)
    requires Initial(s0)
    ensures Inv(Run(cfg, s0, acts))
  {
    if acts != [] {
      PoolConservation(cfg, s0, acts[..|acts| - 1]);
      NextKeepsInv(cfg, Run(cfg, s0, acts[..|acts| - 1]), acts[|acts| - 1]);
    }
  }
}
