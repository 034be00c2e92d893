/** Runs that show what the protocol does not promise: an offline client or a foreign
    exception can strand the shared breaker half-open, and clearing the sticky cancel bit at
    the wrong moment lets a pool outgrow its limit. */
module ProtocolWitnesses {
  import opened Common
  import opened CallProtocol
  import B = CircuitBreaker
  import O = CallObligations

  ghost predicate Reaches(cfg: B.Config, s0: Sys, s: Sys) {
    exists acts :: Run(cfg, s0, acts) == s
  }

  lemma Onward(cfg: B.Config, s0: Sys, s: Sys, a: Action, s': Sys)
    requires Reaches(cfg, s0, s) && Next(cfg, s, a) == s'
    ensures Reaches(cfg, s0, s')
  {
    var acts :| Run(cfg, s0, acts) == s;
    assert (acts + [a])[..|acts|] == acts;
    assert Run(cfg, s0, acts + [a]) == s';
  }

  /** The same state with call `id` elsewhere. */
  function At(s: Sys, id: CallId, pc: Pc): Sys
    requires id in s.calls
  {
    s.(calls := s.calls[id := s.calls[id].(pc := pc)])
  }

  /** One step of `id` that touches nothing but its own position. */
  lemma Advance(cfg: B.Config, s0: Sys, s: Sys, id: CallId, from: Pc, o: Outcome, to: Pc)
    requires CanStep(s, id) && Reaches(cfg, s0, At(s, id, from))
    requires
      var c := s.calls[id].(pc := from);
      var cl := s.clients[c.client];
      Move(id, c, cl, TokenCancelled(s, c), B.Admits(cfg, s.breaker, s.now), true, o) == Goto(c, cl, to)
    ensures Reaches(cfg, s0, At(s, id, to))
  {
    var t := At(s, id, from);
    var cl := s.clients[s.calls[id].client];
    assert s.clients[s.calls[id].client := cl] == s.clients;
    assert TokenCancelled(t, t.calls[id]) == TokenCancelled(s, s.calls[id].(pc := from));
    assert t.calls[id := s.calls[id].(pc := to)] == s.calls[id := s.calls[id].(pc := to)];
    Onward(cfg, s0, t, Step(id, true, o), At(s, id, to));
  }

  /** A quiet client: nothing cancelled, mutex free. */
  predicate Quiet(cl: Client) {
    !cl.hard && !cl.soft && cl.pool.holder == None
  }

  predicate Ready(cfg: B.Config, s: Sys, id: CallId) {
    && CanStep(s, id)
    && s.calls[id].pc == LatchLoad(AtEntry)
    && s.calls[id].token == None && s.calls[id].conn == None
    && Quiet(s.clients[s.calls[id].client])
    && B.Admits(cfg, s.breaker, s.now)
  }

  /** An admitted call at the offline check. */
  lemma GetAdmitted(cfg: B.Config, s0: Sys, s: Sys, id: CallId)
    requires Reaches(cfg, s0, s) && Ready(cfg, s, id)
    ensures Reaches(cfg, s0, At(BreakerCall(cfg, s, id, B.Allow), id, OfflineCheck))
  {
    var cl := s.clients[s.calls[id].client];
    assert At(s, id, LatchLoad(AtEntry)) == s by { assert s.calls[id := s.calls[id]] == s.calls; }
    Advance(cfg, s0, s, id, LatchLoad(AtEntry), Answered, Preflight(AtEntry));
    Advance(cfg, s0, s, id, Preflight(AtEntry), Answered, ClearSoft);
    Advance(cfg, s0, s, id, ClearSoft, Answered, AskBreaker);
    var t := At(s, id, AskBreaker);
    var t' := At(BreakerCall(cfg, s, id, B.Allow), id, OfflineCheck);
    assert Next(cfg, t, Step(id, true, Answered)) == t' by {
      assert s.clients[s.calls[id].client := cl] == s.clients;
      assert t.calls[id := s.calls[id].(pc := OfflineCheck)] == s.calls[id := s.calls[id].(pc := OfflineCheck)];
    }
    Onward(cfg, s0, t, Step(id, true, Answered), t');
  }

  /** The same state with the pool of `id`'s client replaced. */
  function WithPool(s: Sys, c: ClientId, p: Pool): Sys
    requires c in s.clients
  {
    s.(clients := s.clients[c := s.clients[c].(pool := p)])
  }

  /** An admitted call past the first half of its lease: it owns the mutex and is about to
      load the sticky bit inside the wait. */
  lemma EnterWait(cfg: B.Config, s0: Sys, s: Sys, id: CallId)
    requires CanStep(s, id) && s.calls[id].pc == OfflineCheck && !s.calls[id].offline
    requires s.clients[s.calls[id].client].pool.holder == None
    requires Reaches(cfg, s0, s)
    ensures
      var c := s.calls[id].client;
      Reaches(cfg, s0, At(WithPool(s, c, s.clients[c].pool.(holder := Some(id))), id, LoadHard(InWait)))
  {
    var c := s.calls[id].client;
    assert At(s, id, OfflineCheck) == s by { assert s.calls[id := s.calls[id]] == s.calls; }
    Advance(cfg, s0, s, id, OfflineCheck, Answered, LockPool);
    var t := At(s, id, LockPool);
    var t' := At(WithPool(s, c, s.clients[c].pool.(holder := Some(id))), id, LoadHard(InWait));
    assert Next(cfg, t, Step(id, true, Answered)) == t' by {
      assert t.calls[id := s.calls[id].(pc := LoadHard(InWait))] == s.calls[id := s.calls[id].(pc := LoadHard(InWait))];
    }
    Onward(cfg, s0, t, Step(id, true, Answered), t');
  }

  /** One is_request_cancelled call that finds nothing cancelled. */
  lemma PassCheck(cfg: B.Config, s0: Sys, s: Sys, id: CallId, k: Check)
    requires CanStep(s, id) && s.calls[id].token == None
    requires !s.clients[s.calls[id].client].hard && !s.clients[s.calls[id].client].soft
    requires Reaches(cfg, s0, At(s, id, LoadHard(k)))
    ensures Reaches(cfg, s0, At(s, id, CheckVerdict(k, false)))
  {
    Advance(cfg, s0, s, id, LoadHard(k), Answered, LoadSoft(k));
    Advance(cfg, s0, s, id, LoadSoft(k), Answered, LoadToken(k));
    Advance(cfg, s0, s, id, LoadToken(k), Answered, CheckVerdict(k, false));
  }

  /** A call at TakeConn takes the next new connection of a pool with nothing idle. */
  lemma TakeNew(cfg: B.Config, s0: Sys, s: Sys, id: CallId)
    requires CanStep(s, id) && s.clients[s.calls[id].client].pool.idle == []
    requires Reaches(cfg, s0, At(s, id, TakeConn))
    ensures
      var c := s.calls[id].client;
      var n := s.clients[c].pool.conns;
      Reaches(cfg, s0, WithPool(s.(calls := s.calls[id := s.calls[id].(pc := LatchLoad(AtAttempt(0)), conn := Some(n))]),
                                c, Pool(n + 1, [], None)))
  {
    var c := s.calls[id].client;
    var n := s.clients[c].pool.conns;
    var call := s.calls[id].(pc := LatchLoad(AtAttempt(0)), conn := Some(n));
    var t := At(s, id, TakeConn);
    var t' := WithPool(s.(calls := s.calls[id := call]), c, Pool(n + 1, [], None));
    assert Next(cfg, t, Step(id, true, Answered)) == t' by {
      assert t.calls[id := call] == s.calls[id := call];
    }
    Onward(cfg, s0, t, Step(id, true, Answered), t');
  }

  /** A started call, ready to run. */
  lemma Begin(cfg: B.Config, s0: Sys, s: Sys, id: CallId, c: ClientId, kind: Kind, offline: bool)
    returns (s': Sys)
    requires Reaches(cfg, s0, s) && id !in s.calls && c in s.clients
    ensures Reaches(cfg, s0, s')
    ensures s' == s.(calls := s.calls[id := Call(c, kind, offline, None, LatchLoad(AtEntry), None, 0)])
  {
    s' := s.(calls := s.calls[id := Call(c, kind, offline, None, LatchLoad(AtEntry), None, 0)]);
    Onward(cfg, s0, s, Start(id, c, kind, offline, None), s');
  }

  /** From the wait to a leased connection, when the pool has nothing idle but has room. */
  lemma LeaseNew(cfg: B.Config, s0: Sys, s: Sys, id: CallId)
    requires CanStep(s, id) && s.calls[id].token == None
    requires
      var cl := s.clients[s.calls[id].client];
      !cl.hard && !cl.soft && cl.pool.idle == [] && cl.pool.conns < MAX_CONNS
    requires Reaches(cfg, s0, At(s, id, LoadHard(InWait)))
    ensures
      var c := s.calls[id].client;
      var n := s.clients[c].pool.conns;
      Reaches(cfg, s0, WithPool(s.(calls := s.calls[id := s.calls[id].(pc := LatchLoad(AtAttempt(0)), conn := Some(n))]),
                                c, Pool(n + 1, [], None)))
  {
    PassCheck(cfg, s0, s, id, InWait);
    Advance(cfg, s0, s, id, TestPool, Answered, LoadHard(AfterWait));
    PassCheck(cfg, s0, s, id, AfterWait);
    TakeNew(cfg, s0, s, id);
  }

  /** Client 0 has leased out `n` connections to calls 0 to n - 1 and nothing is idle. */
  ghost predicate LeasedOut(s: Sys, n: nat) {
    && 0 in s.clients && s.clients[0] == FRESH_CLIENT.(pool := Pool(n, [], None))
    && s.breaker == B.FRESH
    && forall id :: id in s.calls ==> id < n
  }

  lemma LeaseOneMore(cfg: B.Config, s0: Sys, s: Sys, n: nat) returns (s': Sys)
    requires Reaches(cfg, s0, s) && LeasedOut(s, n) && n < MAX_CONNS
    ensures Reaches(cfg, s0, s') && LeasedOut(s', n + 1)
    ensures s'.calls.Keys == s.calls.Keys + {n} && s'.clients.Keys == s.clients.Keys
    ensures s'.calls[n] == Call(0, Complete, false, None, LatchLoad(AtAttempt(0)), Some(n), 0)
    ensures forall c :: c in s.clients && c != 0 ==> s'.clients[c] == s.clients[c]
  {
    var s1 := Begin(cfg, s0, s, n, 0, Complete, false);
    GetAdmitted(cfg, s0, s1, n);
    var s2 := At(BreakerCall(cfg, s1, n, B.Allow), n, OfflineCheck);
    EnterWait(cfg, s0, s2, n);
    var s3 := WithPool(s2, 0, Pool(n, [], Some(n)));
    LeaseNew(cfg, s0, s3, n);
    s' := WithPool(s3.(calls := s3.calls[n := s3.calls[n].(pc := LatchLoad(AtAttempt(0)), conn := Some(n))]),
                   0, Pool(n + 1, [], None));
  }

  // ---- an offline client strands the breaker ----

  /** From a fresh lease to the first exchange. */
  lemma ReachExchange(cfg: B.Config, s0: Sys, s: Sys, id: CallId)
    requires CanStep(s, id) && s.calls[id].token == None
    requires !s.clients[s.calls[id].client].hard && !s.clients[s.calls[id].client].soft
    requires Reaches(cfg, s0, At(s, id, LatchLoad(AtAttempt(0))))
    ensures Reaches(cfg, s0, At(s, id, Exchange(0)))
  {
    Advance(cfg, s0, s, id, LatchLoad(AtAttempt(0)), Answered, Preflight(AtAttempt(0)));
    Advance(cfg, s0, s, id, Preflight(AtAttempt(0)), Answered, LoadHard(AtHead(0)));
    PassCheck(cfg, s0, s, id, AtHead(0));
  }

  lemma FailConnect(cfg: B.Config, s0: Sys, s: Sys, id: CallId) returns (s': Sys)
    requires CanStep(s, id) && s.calls[id].pc == Exchange(0) && s.calls[id].kind == Complete
    requires Reaches(cfg, s0, s)
    ensures Reaches(cfg, s0, s')
    ensures s' == s.(calls := s'.calls) && s'.calls.Keys == s.calls.Keys && s'.calls[id].pc == Report(B.Failure)
    ensures s'.calls[id].client == s.calls[id].client && s'.calls[id].offline == s.calls[id].offline
    ensures forall k :: k in s.calls && k != id ==> s'.calls[k] == s.calls[k]
  {
    var c := s.calls[id];
    var cl := s.clients[c.client];
    s' := s.(calls := s.calls[id := c.(pc := Report(B.Failure), exchanges := c.exchanges + 1)]);
    assert s.clients[c.client := cl] == s.clients;
    Onward(cfg, s0, s, Step(id, true, ConnectFailed), s');
  }

  lemma FileReport(cfg: B.Config, s0: Sys, s: Sys, id: CallId, op: B.Op)
    requires CanStep(s, id) && s.calls[id].pc == Report(op)
    requires Reaches(cfg, s0, s)
    ensures Reaches(cfg, s0, At(BreakerCall(cfg, s, id, op), id, Release(Recorded(op))))
  {
    var c := s.calls[id];
    var cl := s.clients[c.client];
    assert s.clients[c.client := cl] == s.clients;
    Onward(cfg, s0, s, Step(id, true, Answered), At(BreakerCall(cfg, s, id, op), id, Release(Recorded(op))));
  }

  /** Call 0 on client 0 at its first exchange; nothing else has happened. */
  lemma OneExchange(cfg: B.Config, s0: Sys) returns (s: Sys)
    requires Initial(s0) && 0 in s0.clients
    ensures Reaches(cfg, s0, s) && s.breaker == B.FRESH
    ensures s.calls.Keys == {0} && CanStep(s, 0) && s.calls[0].pc == Exchange(0) && s.calls[0].kind == Complete
    ensures !s.calls[0].offline
    ensures s.clients.Keys == s0.clients.Keys && forall c :: c in s0.clients && c != 0 ==> s.clients[c] == s0.clients[c]
  {
    assert Run(cfg, s0, []) == s0;
    var s1 := LeaseOneMore(cfg, s0, s0, 0);
    assert At(s1, 0, LatchLoad(AtAttempt(0))) == s1 by { assert s1.calls[0 := s1.calls[0]] == s1.calls; }
    ReachExchange(cfg, s0, s1, 0);
    s := At(s1, 0, Exchange(0));
  }

  /** Call 0 on client 0 fails once, and with a threshold of one the breaker opens. */
  lemma OpenByOneFailure(cfg: B.Config, s0: Sys) returns (s: Sys)
    requires Initial(s0) && 0 in s0.clients && 1 in s0.clients && cfg.failureThreshold <= 1
    ensures Reaches(cfg, s0, s) && s.breaker == B.Entry(B.Open, 1, s.now, false)
    ensures s.calls.Keys == {0} && O.StandingAt(s.calls[0].pc) == O.Settled && !s.calls[0].offline
    ensures 1 in s.clients && s.clients[1] == FRESH_CLIENT
  {
    var s1 := OneExchange(cfg, s0);
    var s2 := FailConnect(cfg, s0, s1, 0);
    FileReport(cfg, s0, s2, 0, B.Failure);
    s := At(BreakerCall(cfg, s2, 0, B.Failure), 0, Release(Recorded(B.Failure)));
  }

  /** An offline call asks an open breaker whose cooldown is over. */
  lemma OfflineProbe(cfg: B.Config, s0: Sys, s: Sys) returns (s': Sys)
    requires Reaches(cfg, s0, s) && s.breaker.state == B.Open && B.Admits(cfg, s.breaker, s.now)
    requires 1 !in s.calls && 1 in s.clients && s.clients[1] == FRESH_CLIENT
    ensures Reaches(cfg, s0, s') && s'.breaker.state == B.HalfOpen
    ensures s'.calls.Keys == s.calls.Keys + {1} && s'.calls[1].pc == Returned(Offline)
    ensures forall id :: id in s.calls ==> s'.calls[id] == s.calls[id]
  {
    var s1 := Begin(cfg, s0, s, 1, 1, Complete, true);
    GetAdmitted(cfg, s0, s1, 1);
    var s2 := At(BreakerCall(cfg, s1, 1, B.Allow), 1, OfflineCheck);
    assert At(s2, 1, OfflineCheck) == s2 by { assert s2.calls[1 := s2.calls[1]] == s2.calls; }
    Advance(cfg, s0, s2, 1, OfflineCheck, Answered, Returned(Offline));
    s' := At(s2, 1, Returned(Offline));
  }

  /** Long enough for an open breaker to admit a probe. */
  function CooldownWait(cfg: B.Config): (wait: nat)
    ensures B.WholeSeconds(wait) >= cfg.cooldownSeconds
  {
    if cfg.cooldownSeconds < 0 then 0 else cfg.cooldownSeconds * B.TICKS_PER_SECOND
  }

  /** One client online and one offline is enough: the offline client's call is let through
      as the probe, returns without reporting, and the breaker is half-open for good. */
  lemma OfflineClientStrands(cfg: B.Config, s0: Sys) returns (s: Sys)
    requires Initial(s0) && 0 in s0.clients && 1 in s0.clients && cfg.failureThreshold <= 1
    ensures Reaches(cfg, s0, s) && O.Stranded(s)
  {
    var s1 := OpenByOneFailure(cfg, s0);
    var wait := CooldownWait(cfg);
    var s2 := s1.(now := s1.now + wait);
    Onward(cfg, s0, s1, Tick(wait), s2);
    s := OfflineProbe(cfg, s0, s2);
  }

  // ---- and so does a stream that a foreign exception leaves ----

  /** A streaming call as the probe of an open breaker whose cooldown is over, at its first
      exchange. */
  lemma StreamProbe(cfg: B.Config, s0: Sys, s: Sys) returns (s': Sys)
    requires Reaches(cfg, s0, s) && s.breaker.state == B.Open && B.Admits(cfg, s.breaker, s.now)
    requires 1 !in s.calls && 1 in s.clients && s.clients[1] == FRESH_CLIENT
    ensures Reaches(cfg, s0, s') && s'.breaker.state == B.HalfOpen
    ensures s'.calls.Keys == s.calls.Keys + {1} && CanStep(s', 1)
    ensures s'.calls[1].pc == Exchange(0) && s'.calls[1].kind == Stream && !s'.calls[1].offline
    ensures forall id :: id in s.calls ==> s'.calls[id] == s.calls[id]
  {
    var s1 := Begin(cfg, s0, s, 1, 1, Stream, false);
    GetAdmitted(cfg, s0, s1, 1);
    var s2 := At(BreakerCall(cfg, s1, 1, B.Allow), 1, OfflineCheck);
    EnterWait(cfg, s0, s2, 1);
    var s3 := WithPool(s2, 1, Pool(0, [], Some(1)));
    LeaseNew(cfg, s0, s3, 1);
    var s4 := WithPool(s3.(calls := s3.calls[1 := s3.calls[1].(pc := LatchLoad(AtAttempt(0)), conn := Some(0))]),
                       1, Pool(1, [], None));
    assert At(s4, 1, LatchLoad(AtAttempt(0))) == s4 by { assert s4.calls[1 := s4.calls[1]] == s4.calls; }
    ReachExchange(cfg, s0, s4, 1);
    s' := At(s4, 1, Exchange(0));
  }

  lemma CooledDown(cfg: B.Config, s0: Sys) returns (s: Sys)
    requires Initial(s0) && 0 in s0.clients && 1 in s0.clients && cfg.failureThreshold <= 1
    ensures Reaches(cfg, s0, s) && s.breaker.state == B.Open && B.Admits(cfg, s.breaker, s.now)
    ensures s.calls.Keys == {0} && O.StandingAt(s.calls[0].pc) == O.Settled && !s.calls[0].offline
    ensures 1 in s.clients && s.clients[1] == FRESH_CLIENT
  {
    var s1 := OpenByOneFailure(cfg, s0);
    var wait := CooldownWait(cfg);
    s := s1.(now := s1.now + wait);
    Onward(cfg, s0, s1, Tick(wait), s);
  }

  lemma ThrowForeign(cfg: B.Config, s0: Sys, s: Sys) returns (s': Sys)
    requires CanStep(s, 1) && s.calls[1].pc == Exchange(0) && s.calls[1].kind == Stream && Reaches(cfg, s0, s)
    ensures Reaches(cfg, s0, s') && s'.breaker == s.breaker && s'.calls.Keys == s.calls.Keys
    ensures s'.calls[1].pc == Release(Escaped) && s'.calls[1].offline == s.calls[1].offline
    ensures forall id :: id in s.calls && id != 1 ==> s'.calls[id] == s.calls[id]
  {
    var c := s.calls[1];
    s' := s.(calls := s.calls[1 := c.(pc := Release(Escaped), exchanges := c.exchanges + 1)]);
    assert s.clients[c.client := s.clients[c.client]] == s.clients;
    Onward(cfg, s0, s, Step(1, true, ForeignThrow), s');
  }

  /** The streaming probe is left by an exception stream() does not catch: the breaker is
      half-open for good, with every client online. */
  lemma ForeignThrowStrands(cfg: B.Config, s0: Sys) returns (s: Sys)
    requires Initial(s0) && 0 in s0.clients && 1 in s0.clients && cfg.failureThreshold <= 1
    ensures Reaches(cfg, s0, s) && O.Stranded(s) && forall id :: id in s.calls ==> !s.calls[id].offline
  {
    var s1 := CooledDown(cfg, s0);
    var s2 := StreamProbe(cfg, s0, s1);
    s := ThrowForeign(cfg, s0, s2);
  }

  // ---- clearing the sticky bit lets a pool outgrow its limit ----

  lemma {:induction false} LeaseOutMany(cfg: B.Config, s0: Sys, n: nat) returns (s: Sys)
    requires Initial(s0) && 0 in s0.clients && n <= MAX_CONNS
    ensures Reaches(cfg, s0, s) && LeasedOut(s, n)
  {
    if n == 0 {
      s := s0;
      assert Run(cfg, s0, []) == s0;
    } else {
      s := LeaseOutMany(cfg, s0, n - 1);
      s := LeaseOneMore(cfg, s0, s, n - 1);
    }
  }

  /** Call 16 is about to make its first check at a pool of 16 leased connections. */
  predicate WaitsAtFullPool(s: Sys) {
    var n := MAX_CONNS;
    && CanStep(s, n) && s.calls[n].client == 0 && s.calls[n].token == None && s.calls[n].pc == LoadHard(InWait)
    && s.clients[0] == FRESH_CLIENT.(pool := Pool(n, [], Some(n)))
    && n + 1 !in s.calls
  }

  lemma ReachFullPool(cfg: B.Config, s0: Sys) returns (s: Sys)
    requires Initial(s0) && 0 in s0.clients
    ensures Reaches(cfg, s0, s) && WaitsAtFullPool(s)
  {
    var n := MAX_CONNS;
    var full := LeaseOutMany(cfg, s0, n);
    var s1 := Begin(cfg, s0, full, n, 0, Complete, false);
    GetAdmitted(cfg, s0, s1, n);
    var s2 := At(BreakerCall(cfg, s1, n, B.Allow), n, OfflineCheck);
    EnterWait(cfg, s0, s2, n);
    s := At(WithPool(s2, 0, Pool(n, [], Some(n))), n, LoadHard(InWait));
  }

  /** The state with client 0's flags changed. */
  function Flagged(s: Sys, hard: bool, soft: bool, cancels: nat): Sys
    requires 0 in s.clients
  {
    s.(clients := s.clients[0 := s.clients[0].(hard := hard, soft := soft, cancels := cancels)])
  }

  lemma InPlace(s: Sys, id: CallId)
    requires id in s.calls
    ensures At(s, id, s.calls[id].pc) == s
  {
    assert s.calls[id := s.calls[id]] == s.calls;
  }

  /** A lease past its wait, with no flag up, takes one connection too many. */
  lemma TakeOneTooMany(cfg: B.Config, s0: Sys, s: Sys) returns (s': Sys)
    requires CanStep(s, MAX_CONNS) && s.calls[MAX_CONNS].client == 0 && s.calls[MAX_CONNS].token == None
    requires !s.clients[0].hard && !s.clients[0].soft && s.clients[0].pool == Pool(MAX_CONNS, [], Some(MAX_CONNS))
    requires s.calls[MAX_CONNS].pc == LoadHard(AfterWait) && Reaches(cfg, s0, s)
    ensures Reaches(cfg, s0, s') && 0 in s'.clients && s'.clients[0].pool.conns == MAX_CONNS + 1
  {
    var n := MAX_CONNS;
    InPlace(s, n);
    PassCheck(cfg, s0, s, n, AfterWait);
    TakeNew(cfg, s0, s, n);
    s' := WithPool(s.(calls := s.calls[n := s.calls[n].(pc := LatchLoad(AtAttempt(0)), conn := Some(n))]),
                   0, Pool(n + 1, [], None));
  }

  /** A lease waiting at a full pool sees the sticky bit, leaves the wait, and finds it
      cleared again: it takes a seventeenth connection. */
  lemma ClearOverfillsPool(cfg: B.Config, s0: Sys) returns (s: Sys)
    requires Initial(s0) && 0 in s0.clients
    ensures Reaches(cfg, s0, s) && 0 in s.clients && s.clients[0].pool.conns == 17
  {
    var n := MAX_CONNS;
    var s1 := ReachFullPool(cfg, s0);
    var s2 := Flagged(s1, true, false, 1);
    Onward(cfg, s0, s1, CancelClientHard(0), s2);
    InPlace(s2, n);
    Advance(cfg, s0, s2, n, LoadHard(InWait), Answered, LoadHard(AfterWait));
    var s3 := At(s2, n, LoadHard(AfterWait));
    var s4 := Flagged(s3, false, false, 1);
    Onward(cfg, s0, s3, ClearHardCancel(0), s4);
    s := TakeOneTooMany(cfg, s0, s4);
  }

  /** A call that enters drops the ephemeral flag of its client. */
  lemma EntryDropsSoft(cfg: B.Config, s0: Sys, s: Sys, id: CallId)
    requires Reaches(cfg, s0, s) && 0 in s.clients && id !in s.calls && !s.clients[0].hard
    ensures
      var call := Call(0, Complete, false, None, AskBreaker, None, 0);
      Reaches(cfg, s0, Flagged(s, false, false, s.clients[0].cancels).(calls := s.calls[id := call]))
  {
    var s1 := Begin(cfg, s0, s, id, 0, Complete, false);
    InPlace(s1, id);
    Advance(cfg, s0, s1, id, LatchLoad(AtEntry), Answered, Preflight(AtEntry));
    Advance(cfg, s0, s1, id, Preflight(AtEntry), Answered, ClearSoft);
    var call := Call(0, Complete, false, None, AskBreaker, None, 0);
    var s2 := Flagged(s, false, false, s.clients[0].cancels).(calls := s.calls[id := call]);
    assert Next(cfg, At(s1, id, ClearSoft), Step(id, true, Answered)) == s2 by {
      assert At(s1, id, ClearSoft).calls[id := call] == s.calls[id := call];
    }
    Onward(cfg, s0, At(s1, id, ClearSoft), Step(id, true, Answered), s2);
  }

  lemma CancelThenClear(cfg: B.Config, s0: Sys, s: Sys)
    requires Reaches(cfg, s0, s) && 0 in s.clients && s.clients[0].cancels == 0
    ensures Reaches(cfg, s0, Flagged(s, false, true, 0))
  {
    var s1 := Flagged(s, true, s.clients[0].soft, 1);
    Onward(cfg, s0, s, CancelClientHard(0), s1);
    var s2 := Flagged(s, true, true, 0);
    Onward(cfg, s0, s1, CancelClientSoft(0), s2);
    Onward(cfg, s0, s2, ClearHardCancel(0), Flagged(s, false, true, 0));
  }

  /** The clear need not fall between the two checks: cancel and clear before the first, which
      then sees the ephemeral flag; a call that enters drops that flag before the second. */
  lemma StaleFlagOverfillsPool(cfg: B.Config, s0: Sys) returns (s: Sys)
    requires Initial(s0) && 0 in s0.clients
    ensures Reaches(cfg, s0, s) && 0 in s.clients && s.clients[0].pool.conns == 17
  {
    var n := MAX_CONNS;
    var s1 := ReachFullPool(cfg, s0);
    CancelThenClear(cfg, s0, s1);
    var s4 := Flagged(s1, false, true, 0);
    InPlace(s4, n);
    Advance(cfg, s0, s4, n, LoadHard(InWait), Answered, LoadSoft(InWait));
    Advance(cfg, s0, s4, n, LoadSoft(InWait), Answered, LoadHard(AfterWait));
    var s5 := At(s4, n, LoadHard(AfterWait));
    EntryDropsSoft(cfg, s0, s5, n + 1);
    var call := Call(0, Complete, false, None, AskBreaker, None, 0);
    s := TakeOneTooMany(cfg, s0, Flagged(s5, false, false, 0).(calls := s5.calls[n + 1 := call]));
  }
}
