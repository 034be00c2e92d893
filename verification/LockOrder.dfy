/** The mutexes of the API client. Every operation is the sequence of its lock and unlock
    instructions; the operations follow one rank, and threads that run ranked operations
    can never wait for each other in a circle. */
module LockOrder {
  import opened Common

  type ProviderId = nat
  type ThreadId = nat

  /** tokens_mu_, a token's mu_, pool_mutex_, a pool's mu, and preflight_mu_. */
  datatype Mutex =
    | TokensMu(client: ClientId)
    | TokenMu(token: TokenId)
    | PoolMapMu(client: ClientId)
    | PoolMu(client: ClientId, provider: ProviderId)
    | PreflightMu(client: ClientId)

  function Rank(m: Mutex): nat {
    match m
    case TokensMu(_) => 0
    case TokenMu(_) => 1
    case PoolMapMu(_) => 2
    case PoolMu(_, _) => 3
    case PreflightMu(_) => 4
  }

  const RANKS: nat := 5

  datatype Instr = Lock(m: Mutex) | Unlock(m: Mutex)

  // ---- the operations ----

  function Section(m: Mutex): seq<Instr> {
    [Lock(m), Unlock(m)]
  }

  /** register_token and unregister_token. */
  function Register(c: ClientId, t: TokenId): seq<Instr> {
    [Lock(TokensMu(c)), Lock(TokenMu(t)), Unlock(TokenMu(t)), Unlock(TokensMu(c))]
  }

  /** bind_token_conn and unbind_token_conn. */
  function Bind(t: TokenId): seq<Instr> {
    Section(TokenMu(t))
  }

  /** request_cancel: wakes the pool waiters of the client that owns the token, if any. */
  function RequestCancel(t: TokenId, owner: Option<ClientId>): seq<Instr> {
    if owner.None? then Section(TokenMu(t))
    else [Lock(TokenMu(t)), Lock(PoolMapMu(owner.value)), Unlock(PoolMapMu(owner.value)), Unlock(TokenMu(t))]
  }

  /** request_cancel on each registered token in turn. */
  function CancelTokens(ts: seq<(TokenId, Option<ClientId>)>): seq<Instr> {
    if ts == [] then [] else RequestCancel(ts[0].0, ts[0].1) + CancelTokens(ts[1..])
  }

  /** The sweep over a client's pools. */
  function ShutPools(c: ClientId, ps: seq<ProviderId>): seq<Instr> {
    if ps == [] then [] else Section(PoolMu(c, ps[0])) + ShutPools(c, ps[1..])
  }

  /** cancel(): first every registered token, then every pool. */
  function CancelAll(c: ClientId, ts: seq<(TokenId, Option<ClientId>)>, ps: seq<ProviderId>): seq<Instr> {
    [Lock(TokensMu(c))] + CancelTokens(ts) + [Unlock(TokensMu(c)), Lock(PoolMapMu(c))]
    + ShutPools(c, ps) + [Unlock(PoolMapMu(c))]
  }

  function Wakeups(c: ClientId, p: ProviderId, n: nat): seq<Instr> {
    if n == 0 then [] else Section(PoolMu(c, p)) + Wakeups(c, p, n - 1)
  }

  function MaybeBind(t: Option<TokenId>): seq<Instr> {
    if t.None? then [] else Bind(t.value)
  }

  /** ConnLease: find the pool, hold its mutex once per wake-up of the wait, then bind. */
  function TakeLease(c: ClientId, p: ProviderId, wakeups: nat, t: Option<TokenId>): seq<Instr> {
    Section(PoolMapMu(c)) + Wakeups(c, p, wakeups + 1) + MaybeBind(t)
  }

  function ReturnLease(c: ClientId, p: ProviderId, t: Option<TokenId>): seq<Instr> {
    MaybeBind(t) + Section(PoolMu(c, p))
  }

  /** run_preflight copies the callback under its own mutex and calls it with none held. */
  function Preflight(c: ClientId): seq<Instr> {
    Section(PreflightMu(c))
  }

  ghost predicate ClientOperation(prog: seq<Instr>) {
    || (exists c, t :: prog == Register(c, t))
    || (exists t :: prog == Bind(t))
    || (exists t, owner :: prog == RequestCancel(t, owner))
    || (exists c, ts, ps :: prog == CancelAll(c, ts, ps))
    || (exists c, p, n, t :: prog == TakeLease(c, p, n, t))
    || (exists c, p, t :: prog == ReturnLease(c, p, t))
    || (exists c :: prog == Preflight(c))
  }

  // ---- the rank discipline ----

  ghost predicate Below(held: set<Mutex>, m: Mutex) {
    forall h :: h in held ==> Rank(h) < Rank(m)
  }

  /** From `held`, the program only acquires upwards, only releases what it holds, and ends
      with nothing held. */
  ghost predicate Ranked(held: set<Mutex>, prog: seq<Instr>)
    decreases |prog|
  {
    if prog == [] then held == {}
    else match prog[0]
      case Lock(m) => Below(held, m) && Ranked(held + {m}, prog[1..])
      case Unlock(m) => m in held && Ranked(held - {m}, prog[1..])
  }

  /** A program that leaves the held set as it found it can be put in front. */
  lemma {:induction false} RankedSection(held: set<Mutex>, m: Mutex, rest: seq<Instr>)
    requires Below(held, m) && Ranked(held, rest)
    ensures Ranked(held, Section(m) + rest)
  {
    var p := Section(m) + rest;
    assert m !in held;
    assert p[1..] == [Unlock(m)] + rest;
    assert ([Unlock(m)] + rest)[1..] == rest;
    assert held + {m} - {m} == held;
  }

  lemma RankedNested(held: set<Mutex>, m: Mutex, inner: Mutex, rest: seq<Instr>)
    requires Below(held, m) && Rank(m) < Rank(inner) && Ranked(held, rest)
    ensures Ranked(held, [Lock(m), Lock(inner), Unlock(inner), Unlock(m)] + rest)
  {
    var tail := [Unlock(m)] + rest;
    assert m !in held;
    assert tail[1..] == rest && held + {m} - {m} == held;
    RankedSection(held + {m}, inner, tail);
    var p := [Lock(m), Lock(inner), Unlock(inner), Unlock(m)] + rest;
    assert p[1..] == Section(inner) + tail;
  }

  lemma {:induction false} RankedCancelTokens(held: set<Mutex>, ts: seq<(TokenId, Option<ClientId>)>, rest: seq<Instr>)
    requires (forall h :: h in held ==> Rank(h) == 0) && Ranked(held, rest)
    ensures Ranked(held, CancelTokens(ts) + rest)
    decreases |ts|
  {
    if ts == [] {
      assert CancelTokens(ts) + rest == rest;
    } else {
      var (t, owner) := ts[0];
      RankedCancelTokens(held, ts[1..], rest);
      var tail := CancelTokens(ts[1..]) + rest;
      if owner.None? {
        RankedSection(held, TokenMu(t), tail);
      } else {
        RankedNested(held, TokenMu(t), PoolMapMu(owner.value), tail);
      }
      assert CancelTokens(ts) + rest == RequestCancel(t, owner) + tail;
    }
  }

  lemma {:induction false} RankedShutPools(held: set<Mutex>, c: ClientId, ps: seq<ProviderId>, rest: seq<Instr>)
    requires (forall h :: h in held ==> Rank(h) <= 2) && Ranked(held, rest)
    ensures Ranked(held, ShutPools(c, ps) + rest)
    decreases |ps|
  {
    if ps == [] {
      assert ShutPools(c, ps) + rest == rest;
    } else {
      RankedShutPools(held, c, ps[1..], rest);
      RankedSection(held, PoolMu(c, ps[0]), ShutPools(c, ps[1..]) + rest);
      assert ShutPools(c, ps) + rest == Section(PoolMu(c, ps[0])) + (ShutPools(c, ps[1..]) + rest);
    }
  }

  lemma RankedCancelAll(c: ClientId, ts: seq<(TokenId, Option<ClientId>)>, ps: seq<ProviderId>)
    ensures Ranked({}, CancelAll(c, ts, ps))
  {
    var last := [Unlock(PoolMapMu(c))];
    assert last[1..] == [];
    assert {PoolMapMu(c)} - {PoolMapMu(c)} == {};
    var sweep := ShutPools(c, ps) + last;
    RankedShutPools({PoolMapMu(c)}, c, ps, last);
    var second := [Unlock(TokensMu(c)), Lock(PoolMapMu(c))] + sweep;
    assert second[1..] == [Lock(PoolMapMu(c))] + sweep;
    assert second[1..][1..] == sweep;
    assert {} + {PoolMapMu(c)} == {PoolMapMu(c)};
    assert {TokensMu(c)} - {TokensMu(c)} == {};
    assert Ranked({}, second[1..]);
    RankedCancelTokens({TokensMu(c)}, ts, second);
    var all := [Lock(TokensMu(c))] + (CancelTokens(ts) + second);
    assert all[1..] == CancelTokens(ts) + second;
    assert {} + {TokensMu(c)} == {TokensMu(c)};
    assert CancelAll(c, ts, ps) == all;
  }

  lemma {:induction false} RankedWakeups(c: ClientId, p: ProviderId, n: nat, rest: seq<Instr>)
    requires Ranked({}, rest)
    ensures Ranked({}, Wakeups(c, p, n) + rest)
  {
    if n == 0 {
      assert Wakeups(c, p, n) + rest == rest;
    } else {
      RankedWakeups(c, p, n - 1, rest);
      RankedSection({}, PoolMu(c, p), Wakeups(c, p, n - 1) + rest);
      assert Wakeups(c, p, n) + rest == Section(PoolMu(c, p)) + (Wakeups(c, p, n - 1) + rest);
    }
  }

  lemma RankedAlone(m: Mutex)
    ensures Ranked({}, Section(m))
  {
    RankedSection({}, m, []);
    assert Section(m) + [] == Section(m);
  }

  lemma RankedTakeLease(c: ClientId, p: ProviderId, n: nat, t: Option<TokenId>)
    ensures Ranked({}, TakeLease(c, p, n, t))
  {
    if t.Some? { RankedAlone(TokenMu(t.value)); }
    RankedWakeups(c, p, n + 1, MaybeBind(t));
    var tail := Wakeups(c, p, n + 1) + MaybeBind(t);
    RankedSection({}, PoolMapMu(c), tail);
    assert TakeLease(c, p, n, t) == Section(PoolMapMu(c)) + tail;
  }

  lemma RankedReturnLease(c: ClientId, p: ProviderId, t: Option<TokenId>)
    ensures Ranked({}, ReturnLease(c, p, t))
  {
    RankedAlone(PoolMu(c, p));
    if t.Some? {
      RankedSection({}, TokenMu(t.value), Section(PoolMu(c, p)));
    } else {
      assert ReturnLease(c, p, t) == Section(PoolMu(c, p));
    }
  }

  lemma RankedRequestCancel(t: TokenId, owner: Option<ClientId>)
    ensures Ranked({}, RequestCancel(t, owner))
  {
    if owner.None? {
      RankedAlone(TokenMu(t));
    } else {
      RankedNested({}, TokenMu(t), PoolMapMu(owner.value), []);
      assert RequestCancel(t, owner) + [] == RequestCancel(t, owner);
    }
  }

  /** Every operation of the client, with any tokens, owners, pools and wake-ups, nests its
      mutexes in rank order. */
  lemma OperationsRanked(prog: seq<Instr>)
    requires ClientOperation(prog)
    ensures Ranked({}, prog)
  {
    if c, t :| prog == Register(c, t) {
      RankedNested({}, TokensMu(c), TokenMu(t), []);
      assert Register(c, t) + [] == Register(c, t);
    } else if t :| prog == Bind(t) {
      RankedAlone(TokenMu(t));
    } else if t, owner :| prog == RequestCancel(t, owner) {
      RankedRequestCancel(t, owner);
    } else if c, ts, ps :| prog == CancelAll(c, ts, ps) {
      RankedCancelAll(c, ts, ps);
    } else if c, p, n, t :| prog == TakeLease(c, p, n, t) {
      RankedTakeLease(c, p, n, t);
    } else if c, p, t :| prog == ReturnLease(c, p, t) {
      RankedReturnLease(c, p, t);
    } else {
      var c :| prog == Preflight(c);
      RankedAlone(PreflightMu(c));
    }
  }

  // ---- threads running operations ----

  datatype Thread = Thread(held: set<Mutex>, rest: seq<Instr>)

  type Threads = map<ThreadId, Thread>

  ghost predicate Waits(ths: Threads, t: ThreadId, m: Mutex) {
    t in ths && ths[t].rest != [] && ths[t].rest[0] == Lock(m)
  }

  ghost predicate Blocked(ths: Threads, t: ThreadId) {
    && t in ths && ths[t].rest != [] && ths[t].rest[0].Lock?
    && exists u :: u in ths && ths[t].rest[0].m in ths[u].held
  }

  datatype Action = Begin(t: ThreadId, prog: seq<Instr>) | Step(t: ThreadId)

  /** A thread with nothing left may begin an operation; a thread that is not blocked
      executes its next instruction. */
  ghost function Next(ths: Threads, a: Action): Threads {
    match a
    case Begin(t, prog) =>
      if t in ths && ths[t].rest != [] then ths
      else ths[t := Thread(if t in ths then ths[t].held else {}, prog)]
    case Step(t) =>
      if t !in ths || ths[t].rest == [] || Blocked(ths, t) then ths
      else
        var th := ths[t];
        match th.rest[0]
        case Lock(m) => ths[t := Thread(th.held + {m}, th.rest[1..])]
        case Unlock(m) => ths[t := Thread(th.held - {m}, th.rest[1..])]
  }

  ghost function Run(ths: Threads, acts: seq<Action>): Threads {
    if acts == [] then ths else Next(Run(ths, acts[..|acts| - 1]), acts[|acts| - 1])
  }

  /** Every thread is somewhere inside a ranked operation, and mutexes are exclusive. */
  ghost predicate Orderly(ths: Threads) {
    && (forall t :: t in ths ==> Ranked(ths[t].held, ths[t].rest))
    && (forall t, u :: t in ths && u in ths && t != u ==> ths[t].held !! ths[u].held)
  }

  lemma NextOrderly(ths: Threads, a: Action)
    requires Orderly(ths) && (a.Begin? ==> ClientOperation(a.prog))
    ensures Orderly(Next(ths, a))
  {
    if a.Begin? { OperationsRanked(a.prog); }
  }

  lemma {:induction false} RunOrderly(acts: seq<Action>)
    requires forall i :: 0 <= i < |acts| && acts[i].Begin? ==> ClientOperation(acts[i].prog)
    ensures Orderly(Run(map[], acts))
  {
    if acts != [] {
      RunOrderly(acts[..|acts| - 1]);
      NextOrderly(Run(map[], acts[..|acts| - 1]), acts[|acts| - 1]);
    }
  }

  /** Follow the owner of the awaited mutex: its rank only goes up. */
  lemma {:induction false} FindRunnable(ths: Threads, t: ThreadId, r: nat) returns (u: ThreadId)
    requires Orderly(ths) && t in ths && ths[t].rest != [] && r <= RANKS
    requires ths[t].rest[0].Lock? ==> Rank(ths[t].rest[0].m) >= r
    ensures u in ths && ths[u].rest != [] && !Blocked(ths, u)
    decreases RANKS - r
  {
    u := t;
    if Blocked(ths, t) {
      var m := ths[t].rest[0].m;
      var owner :| owner in ths && m in ths[owner].held;
      assert Ranked(ths[owner].held, ths[owner].rest);
      u := FindRunnable(ths, owner, Rank(m) + 1);
    }
  }

  /** A chain of threads, each waiting for a mutex the next one holds. */
  ghost predicate Chain(ths: Threads, ts: seq<ThreadId>, ms: seq<Mutex>) {
    && |ts| == |ms| > 0
    && (forall i :: 0 <= i < |ts| ==> Waits(ths, ts[i], ms[i]))
    && (forall i :: 0 < i < |ts| ==> ms[i - 1] in ths[ts[i]].held)
  }

  /** A chain whose last thread waits for a mutex of the first one. */
  ghost predicate Circle(ths: Threads, ts: seq<ThreadId>, ms: seq<Mutex>) {
    Chain(ths, ts, ms) && ms[|ms| - 1] in ths[ts[0]].held
  }

  lemma {:induction false} RanksClimb(ths: Threads, ts: seq<ThreadId>, ms: seq<Mutex>, i: nat)
    requires Orderly(ths) && Chain(ths, ts, ms) && i < |ts|
    ensures Rank(ms[0]) + i <= Rank(ms[i])
  {
    if i > 0 {
      RanksClimb(ths, ts, ms, i - 1);
      assert Waits(ths, ts[i], ms[i]);
      assert Ranked(ths[ts[i]].held, ths[ts[i]].rest);
    }
  }

  lemma NoCircle(ths: Threads, ts: seq<ThreadId>, ms: seq<Mutex>)
    requires Orderly(ths)
    ensures !Circle(ths, ts, ms)
  {
    if Chain(ths, ts, ms) {
      RanksClimb(ths, ts, ms, |ts| - 1);
      assert Waits(ths, ts[0], ms[0]);
      assert Ranked(ths[ts[0]].held, ths[ts[0]].rest);
    }
  }

  /** In every run of client operations there is no circular wait, and as long as some
      thread has work left, some thread can take its next step. */
  lemma DeadlockFree(acts: seq<Action>, ts: seq<ThreadId>, ms: seq<Mutex>)
    requires forall i :: 0 <= i < |acts| && acts[i].Begin? ==> ClientOperation(acts[i].prog)
    ensures
      var ths := Run(map[], acts);
      && !Circle(ths, ts, ms)
      && ((exists t :: t in ths && ths[t].rest != []) ==>
            exists u :: u in ths && ths[u].rest != [] && !Blocked(ths, u))
  {
    RunOrderly(acts);
    var ths := Run(map[], acts);
    NoCircle(ths, ts, ms);
    if t :| t in ths && ths[t].rest != [] {
      var u := FindRunnable(ths, t, 0);
    }
  }
}
