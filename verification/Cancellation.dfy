/** The two cancellation layers and the retry bound, over every run of the call protocol:
    a request token never poisons its siblings, a client-wide cancel stops everything that
    has not passed it yet, and a leased call finishes in a bounded number of its own steps. */
module Cancellation {
  import opened Common
  import opened CallProtocol
  import B = CircuitBreaker
  import O = CallObligations

  // ---- per-request tokens stay per-request ----

  /** Neither cancel() nor a failing preflight. */
  predicate OnlyTokens(a: Action) {
    !a.CancelClientHard? && !a.CancelClientSoft? && (a.Step? ==> a.preflightOk)
  }

  /** The call is on a cancelled path only if its own token was cancelled. */
  predicate StoppedByOwnToken(c: Call, tokenCancelled: bool) {
    match c.pc
    case LatchLoad(l) => l == AtLeaseAbort ==> tokenCancelled
    case Preflight(l) => l == AtLeaseAbort ==> tokenCancelled
    case LatchStore(_) => false
    case Report(op) => op == B.Abandoned ==> tokenCancelled
    case Release(f) => f != CancelledAtEntry && (f == Recorded(B.Abandoned) ==> tokenCancelled)
    case Returned(f) => f != CancelledAtEntry && (f == Recorded(B.Abandoned) ==> tokenCancelled)
    case _ => true
  }

  ghost predicate Unpoisoned(s: Sys) {
    && (forall c :: c in s.clients ==> !s.clients[c].hard && !s.clients[c].soft && s.clients[c].cancels == 0)
    && (forall id :: id in s.calls ==> StoppedByOwnToken(s.calls[id], TokenCancelled(s, s.calls[id])))
  }

  lemma MoveUnpoisoned(id: CallId, c: Call, cl: Client, tok: bool, admits: bool, o: Outcome)
    requires !cl.hard && !cl.soft && cl.cancels == 0 && StoppedByOwnToken(c, tok)
    ensures
      var m := Move(id, c, cl, tok, admits, true, o);
      && !m.client.hard && !m.client.soft && m.client.cancels == 0
      && m.call.token == c.token && m.call.client == c.client && StoppedByOwnToken(m.call, tok)
  {
    match c.pc {
      case Preflight(l) =>
      case LoadHard(k) =>
      case LoadSoft(k) =>
      case LoadToken(k) =>
      case Exchange(n) =>
      case _ =>
    }
  }

  lemma AppliedUnpoisoned(cfg: B.Config, s: Sys, who: CallId, m: Moved)
    requires CanStep(s, who) && Unpoisoned(s)
    requires !m.client.hard && !m.client.soft && m.client.cancels == 0
    requires m.call.token == s.calls[who].token && StoppedByOwnToken(m.call, TokenCancelled(s, s.calls[who]))
    ensures Unpoisoned(Applied(cfg, s, who, m))
  {
  }

  lemma QuietUnpoisoned(cfg: B.Config, s: Sys, a: Action)
    requires Unpoisoned(s) && OnlyTokens(a) && !(a.Step? && CanStep(s, a.id))
    ensures Unpoisoned(Next(cfg, s, a))
  {
  }

  lemma NextUnpoisoned(cfg: B.Config, s: Sys, a: Action)
    requires Unpoisoned(s) && OnlyTokens(a)
    ensures Unpoisoned(Next(cfg, s, a))
  {
    if a.Step? && CanStep(s, a.id) {
      var c := s.calls[a.id];
      MoveUnpoisoned(a.id, c, s.clients[c.client], TokenCancelled(s, c), B.Admits(cfg, s.breaker, s.now), a.outcome);
      AppliedUnpoisoned(cfg, s, a.id, MoveOf(cfg, s, a.id, true, a.outcome));
    } else {
      QuietUnpoisoned(cfg, s, a);
    }
  }

  /** Without cancel() and without a failing preflight, any number of token cancels leaves
      every client's flags down, and a call is abandoned only because of its own token. */
  lemma {:induction false} TokensStayLocal(cfg: B.Config, s0: Sys, acts: seq<Action>)
    requires Initial(s0)
    requires forall i :: 0 <= i < |acts| ==> OnlyTokens(acts[i])
    ensures Unpoisoned(Run(cfg, s0, acts))
  {
    if acts != [] {
      TokensStayLocal(cfg, s0, acts[..|acts| - 1]);
      NextUnpoisoned(cfg, Run(cfg, s0, acts[..|acts| - 1]), acts[|acts| - 1]);
    }
  }

  // ---- a client-wide cancel is sticky ----

  /** The call has already read the sticky bit for the decision it is about to make. */
  predicate PastTheBit(pc: Pc) {
    pc.Preflight? || pc.LoadSoft? || pc.LoadToken? || pc.TestPool? || pc.TakeConn? || pc.Exchange?
  }

  /** One if the call is already committed to its next exchange. */
  function Committed(pc: Pc): nat {
    match pc
    case LoadSoft(k) => if k.AtHead? then 1 else 0
    case LoadToken(k) => if k.AtHead? then 1 else 0
    case Exchange(_) => 1
    case _ => 0
  }

  /** What a call of the cancelled client may still have done between two states. */
  predicate WindsDown(was: Call, now: Call) {
    && now.client == was.client
    && now.exchanges + Committed(now.pc) <= was.exchanges + Committed(was.pc)
    && (!PastTheBit(was.pc) ==>
          && !PastTheBit(now.pc)
          && now.exchanges == was.exchanges
          && (now.conn == was.conn || now.conn == None))
  }

  /** A call begun after the cancel is refused at the door: it never asks the breaker. */
  predicate RefusedAtEntry(c: Call) {
    && c.pc in {LatchLoad(AtEntry), LatchStore(AtEntry), Returned(CancelledAtEntry)}
    && c.exchanges == 0 && c.conn == None
  }

  lemma CheckWindsDown(id: CallId, c: Call, cl: Client, tok: bool, admits: bool, pre: bool, o: Outcome)
    requires cl.hard && (c.pc.LoadHard? || c.pc.LoadSoft? || c.pc.LoadToken?)
    ensures
      var m := Move(id, c, cl, tok, admits, pre, o);
      m.client.hard && WindsDown(c, m.call)
  {
  }

  lemma MoveWindsDown(id: CallId, c: Call, cl: Client, tok: bool, admits: bool, pre: bool, o: Outcome)
    requires cl.hard
    ensures
      var m := Move(id, c, cl, tok, admits, pre, o);
      m.client.hard && WindsDown(c, m.call) && (RefusedAtEntry(c) ==> RefusedAtEntry(m.call))
  {
    match c.pc {
      case LatchLoad(_) | Preflight(_) | LatchStore(_) =>
      case LoadHard(_) | LoadSoft(_) | LoadToken(_) => CheckWindsDown(id, c, cl, tok, admits, pre, o);
      case Exchange(n) =>
      case _ =>
    }
  }

  /** State `s'` came after `s`, in which client `c` was already cancelled. */
  ghost predicate Stopped(s: Sys, s': Sys, c: ClientId) {
    && c in s'.clients && s'.clients[c].hard
    && (forall id :: id in s.calls ==> id in s'.calls && s'.calls[id].client == s.calls[id].client)
    && (forall id :: id in s'.calls && s'.calls[id].client == c ==>
          if id in s.calls then WindsDown(s.calls[id], s'.calls[id]) else RefusedAtEntry(s'.calls[id]))
  }

  lemma WindsDownOn(a: Call, b: Call, c: Call)
    requires WindsDown(a, b) && WindsDown(b, c)
    ensures WindsDown(a, c)
  {
  }

  lemma AppliedStops(cfg: B.Config, s: Sys, t: Sys, who: CallId, m: Moved, c: ClientId)
    requires Stopped(s, t, c) && CanStep(t, who) && m.call.client == t.calls[who].client
    requires t.calls[who].client == c ==>
               && m.client.hard && WindsDown(t.calls[who], m.call)
               && (RefusedAtEntry(t.calls[who]) ==> RefusedAtEntry(m.call))
    ensures Stopped(s, Applied(cfg, t, who, m), c)
  {
    if t.calls[who].client == c && who in s.calls {
      WindsDownOn(s.calls[who], t.calls[who], m.call);
    }
  }

  lemma QuietStops(cfg: B.Config, s: Sys, t: Sys, a: Action, c: ClientId)
    requires Stopped(s, t, c) && a != ClearHardCancel(c) && !(a.Step? && CanStep(t, a.id))
    ensures Stopped(s, Next(cfg, t, a), c)
  {
  }

  lemma MoveKeepsClient(id: CallId, c: Call, cl: Client, tok: bool, admits: bool, pre: bool, o: Outcome)
    ensures Move(id, c, cl, tok, admits, pre, o).call.client == c.client
  {
  }

  lemma NextStops(cfg: B.Config, s: Sys, t: Sys, a: Action, c: ClientId)
    requires Stopped(s, t, c) && a != ClearHardCancel(c)
    ensures Stopped(s, Next(cfg, t, a), c)
  {
    if a.Step? && CanStep(t, a.id) {
      var call := t.calls[a.id];
      var (cl, tok, admits) := (t.clients[call.client], TokenCancelled(t, call), B.Admits(cfg, t.breaker, t.now));
      MoveKeepsClient(a.id, call, cl, tok, admits, a.preflightOk, a.outcome);
      if call.client == c {
        MoveWindsDown(a.id, call, cl, tok, admits, a.preflightOk, a.outcome);
      }
      AppliedStops(cfg, s, t, a.id, MoveOf(cfg, t, a.id, a.preflightOk, a.outcome), c);
    } else {
      QuietStops(cfg, s, t, a, c);
    }
  }

  /** Once a client's sticky bit is set and until it is cleared, whatever other calls store
      in the ephemeral flag: a call that has not read the bit for its next decision takes
      no connection and makes no exchange any more, one that has makes at most one more,
      and a call begun later is refused at entry without asking the breaker. */
  lemma {:induction false} CancelIsSticky(cfg: B.Config, s: Sys, acts: seq<Action>, c: ClientId)
    requires c in s.clients && s.clients[c].hard
    requires forall i :: 0 <= i < |acts| ==> acts[i] != ClearHardCancel(c)
    ensures Stopped(s, Run(cfg, s, acts), c)
  {
    if acts != [] {
      CancelIsSticky(cfg, s, acts[..|acts| - 1], c);
      NextStops(cfg, s, Run(cfg, s, acts[..|acts| - 1]), acts[|acts| - 1], c);
    }
  }

  // ---- a refused preflight ----

  /** A call of client `c` is told by the preflight that it must not go on. */
  predicate RefusedBy(s: Sys, a: Action, c: ClientId) {
    && a.Step? && CanStep(s, a.id) && s.calls[a.id].client == c && !a.preflightOk
    && (s.calls[a.id].pc.Preflight? || (s.calls[a.id].pc.Exchange? && s.calls[a.id].kind == Stream))
  }

  /** The sticky bit is set, or a call is about to set it. */
  ghost predicate Latching(s: Sys, c: ClientId) {
    && c in s.clients
    && (s.clients[c].hard
        || exists id :: id in s.calls && s.calls[id].client == c && s.calls[id].pc.LatchStore?)
  }

  lemma LatchStores(cfg: B.Config, s: Sys, a: Action, c: ClientId)
    requires a.Step? && CanStep(s, a.id) && s.calls[a.id].client == c
    requires s.calls[a.id].pc.LatchStore? || RefusedBy(s, a, c)
    ensures Latching(Next(cfg, s, a), c)
    ensures !s.calls[a.id].pc.Preflight? ==> Next(cfg, s, a).clients[c].hard
  {
    var t := Next(cfg, s, a);
    assert t.calls[a.id].client == c;
  }

  lemma KeepsHard(cfg: B.Config, s: Sys, a: Action, c: ClientId)
    requires c in s.clients && s.clients[c].hard && a != ClearHardCancel(c)
    ensures c in Next(cfg, s, a).clients && Next(cfg, s, a).clients[c].hard
  {
    if a.Step? && CanStep(s, a.id) {
      var k := s.calls[a.id];
      MoveKeepsClient(a.id, k, s.clients[k.client], TokenCancelled(s, k), B.Admits(cfg, s.breaker, s.now),
                      a.preflightOk, a.outcome);
      if k.client == c {
        MoveKeepsHard(a.id, k, s.clients[c], TokenCancelled(s, k), B.Admits(cfg, s.breaker, s.now),
                      a.preflightOk, a.outcome);
      }
    }
  }

  lemma MoveKeepsHard(id: CallId, c: Call, cl: Client, tok: bool, admits: bool, pre: bool, o: Outcome)
    requires cl.hard
    ensures Move(id, c, cl, tok, admits, pre, o).client.hard
  {
  }

  lemma LatchingStays(cfg: B.Config, s: Sys, a: Action, c: ClientId)
    requires Latching(s, c) && a != ClearHardCancel(c)
    ensures Latching(Next(cfg, s, a), c)
  {
    if s.clients[c].hard {
      KeepsHard(cfg, s, a, c);
    } else {
      var id :| id in s.calls && s.calls[id].client == c && s.calls[id].pc.LatchStore?;
      if a.Step? && a.id == id { LatchStores(cfg, s, a, c); } else { OthersLatch(cfg, s, a, id); }
    }
  }

  /** A call does not move by itself. */
  lemma OthersLatch(cfg: B.Config, s: Sys, a: Action, id: CallId)
    requires id in s.calls && s.calls[id].client in s.clients && !(a.Step? && a.id == id)
    ensures id in Next(cfg, s, a).calls && Next(cfg, s, a).calls[id] == s.calls[id]
    ensures s.calls[id].client in Next(cfg, s, a).clients
  {
  }

  /** A preflight refusal sticks: from then on, until somebody clears it, the client's sticky bit
      is set, unless the refused call itself is still about to set it. In a stream it is set at
      once. */
  lemma {:induction false} RefusalSticks(cfg: B.Config, s: Sys, a: Action, acts: seq<Action>, c: ClientId)
    requires RefusedBy(s, a, c) && forall i :: 0 <= i < |acts| ==> acts[i] != ClearHardCancel(c)
    ensures Latching(Run(cfg, Next(cfg, s, a), acts), c)
    ensures s.calls[a.id].pc.Exchange? ==> Run(cfg, Next(cfg, s, a), acts).clients[c].hard
  {
    if acts == [] {
      LatchStores(cfg, s, a, c);
    } else {
      var (p, b) := (acts[..|acts| - 1], acts[|acts| - 1]);
      RefusalSticks(cfg, s, a, p, c);
      var t := Run(cfg, Next(cfg, s, a), p);
      LatchingStays(cfg, t, b, c);
      if s.calls[a.id].pc.Exchange? { KeepsHard(cfg, t, b, c); }
    }
  }

  // ---- bounded retries, bounded completion ----

  /** Attempt numbers stay below the limit, four or three, and count the exchanges made. */
  predicate AttemptsCounted(c: Call) {
    var max := if c.kind == Complete then 4 else 3;
    && c.exchanges <= max
    && match c.pc
       case LatchLoad(l) => if l.AtAttempt? then c.exchanges == l.n < max else c.exchanges == 0
       case Preflight(l) => if l.AtAttempt? then c.exchanges == l.n < max else c.exchanges == 0
       case LatchStore(l) => if l.AtAttempt? then c.exchanges == l.n < max else c.exchanges == 0
       case LoadHard(k) => if k.AtHead? then c.exchanges == k.n < max else c.exchanges == 0
       case LoadSoft(k) => if k.AtHead? then c.exchanges == k.n < max else c.exchanges == 0
       case LoadToken(k) => if k.AtHead? then c.exchanges == k.n < max else c.exchanges == 0
       case Exchange(n) => c.exchanges == n < max
       case Report(_) => true
       case Release(_) => true
       case Returned(_) => true
       case _ => c.exchanges == 0
  }

  lemma CheckCountsAttempts(id: CallId, c: Call, cl: Client, tok: bool, admits: bool, pre: bool, o: Outcome)
    requires AttemptsCounted(c) && (c.pc.LoadHard? || c.pc.LoadSoft? || c.pc.LoadToken?)
    ensures AttemptsCounted(Move(id, c, cl, tok, admits, pre, o).call)
  {
  }

  lemma MoveCountsAttempts(id: CallId, c: Call, cl: Client, tok: bool, admits: bool, pre: bool, o: Outcome)
    requires AttemptsCounted(c)
    ensures AttemptsCounted(Move(id, c, cl, tok, admits, pre, o).call)
  {
    match c.pc {
      case LatchLoad(_) | Preflight(_) | LatchStore(_) =>
      case LoadHard(_) | LoadSoft(_) | LoadToken(_) => CheckCountsAttempts(id, c, cl, tok, admits, pre, o);
      case Exchange(n) =>
      case _ =>
    }
  }

  ghost predicate AllCounted(s: Sys) {
    forall id :: id in s.calls ==> AttemptsCounted(s.calls[id])
  }

  /** In every run no call makes more exchanges than its attempt limit. */
  lemma {:induction false} RetriesBounded(cfg: B.Config, s0: Sys, acts: seq<Action>)
    requires Initial(s0)
    ensures AllCounted(Run(cfg, s0, acts))
  {
    if acts != [] {
      RetriesBounded(cfg, s0, acts[..|acts| - 1]);
      NextCounts(cfg, Run(cfg, s0, acts[..|acts| - 1]), acts[|acts| - 1]);
    }
  }

  lemma NextCounts(cfg: B.Config, s: Sys, a: Action)
    requires AllCounted(s)
    ensures AllCounted(Next(cfg, s, a))
  {
    if a.Step? && CanStep(s, a.id) {
      var c := s.calls[a.id];
      MoveCountsAttempts(a.id, c, s.clients[c.client], TokenCancelled(s, c), B.Admits(cfg, s.breaker, s.now),
                         a.preflightOk, a.outcome);
    }
  }

  /** The lease has been decided, one way or the other, and the report is still owed. */
  predicate LeaseDecided(pc: Pc) {
    match pc
    case LatchLoad(l) => !l.AtEntry?
    case Preflight(l) => !l.AtEntry?
    case LatchStore(l) => !l.AtEntry?
    case LoadHard(k) => k.AtHead?
    case LoadSoft(k) => k.AtHead?
    case LoadToken(k) => k.AtHead?
    case Exchange(_) => true
    case Report(_) => true
    case _ => false
  }

  function AttemptsLeft(c: Call, n: nat): int {
    8 * (MaxAttempts(c.kind) - 1 - n)
  }

  /** An upper bound on the call's own steps to its report. */
  function StepsLeft(c: Call): int {
    match c.pc
    case LatchLoad(l) => if l.AtAttempt? then AttemptsLeft(c, l.n) + 7 else 4
    case Preflight(l) => if l.AtAttempt? then AttemptsLeft(c, l.n) + 6 else 3
    case LatchStore(l) => 2
    case LoadHard(k) => if k.AtHead? then AttemptsLeft(c, k.n) + 5 else 0
    case LoadSoft(k) => if k.AtHead? then AttemptsLeft(c, k.n) + 4 else 0
    case LoadToken(k) => if k.AtHead? then AttemptsLeft(c, k.n) + 3 else 0
    case Exchange(n) => AttemptsLeft(c, n) + 2
    case Report(_) => 1
    case _ => 0
  }

  /** Closer to the report, or there; stream() may also be out through an exception. */
  predicate Closer(c: Call, c': Call) {
    if LeaseDecided(c'.pc) then StepsLeft(c') < StepsLeft(c)
    else O.StandingAt(c'.pc) == O.Settled || O.HasEscaped(c')
  }

  lemma ExchangeGetsCloser(id: CallId, c: Call, cl: Client, tok: bool, admits: bool, pre: bool, o: Outcome)
    requires AttemptsCounted(c) && c.pc.Exchange?
    ensures Closer(c, Move(id, c, cl, tok, admits, pre, o).call)
  {
  }

  lemma CheckGetsCloser(id: CallId, c: Call, cl: Client, tok: bool, admits: bool, pre: bool, o: Outcome)
    requires AttemptsCounted(c) && LeaseDecided(c.pc) && (c.pc.LoadHard? || c.pc.LoadSoft? || c.pc.LoadToken?)
    ensures Closer(c, Move(id, c, cl, tok, admits, pre, o).call)
  {
  }

  lemma MoveGetsCloser(id: CallId, c: Call, cl: Client, tok: bool, admits: bool, pre: bool, o: Outcome)
    requires AttemptsCounted(c) && LeaseDecided(c.pc)
    ensures Closer(c, Move(id, c, cl, tok, admits, pre, o).call)
  {
    match c.pc {
      case LoadHard(_) | LoadSoft(_) | LoadToken(_) => CheckGetsCloser(id, c, cl, tok, admits, pre, o);
      case Exchange(_) => ExchangeGetsCloser(id, c, cl, tok, admits, pre, o);
      case _ =>
    }
  }

  function OwnSteps(acts: seq<Action>, id: CallId): nat {
    if acts == [] then 0
    else
      var a := acts[|acts| - 1];
      OwnSteps(acts[..|acts| - 1], id) + if a.Step? && a.id == id then 1 else 0
  }

  /** Standing of a call that was past its lease decision `spent` own steps ago. */
  predicate Progressed(was: Call, now: Call, spent: nat) {
    && now.kind == was.kind
    && if LeaseDecided(now.pc) then StepsLeft(now) + spent <= StepsLeft(was)
       else O.StandingAt(now.pc) == O.Settled || O.HasEscaped(now)
  }

  lemma DoneStaysDone(id: CallId, c: Call, cl: Client, tok: bool, admits: bool, pre: bool, o: Outcome)
    requires c.pc.Release? || c.pc.Returned?
    ensures
      var m := Move(id, c, cl, tok, admits, pre, o);
      && (m.call.pc.Release? || m.call.pc.Returned?) && m.call.kind == c.kind
      && O.StandingAt(m.call.pc) == O.StandingAt(c.pc) && (O.HasEscaped(c) ==> O.HasEscaped(m.call))
  {
  }

  lemma MoveKeepsKind(id: CallId, c: Call, cl: Client, tok: bool, admits: bool, pre: bool, o: Outcome)
    ensures Move(id, c, cl, tok, admits, pre, o).call.kind == c.kind
  {
  }

  lemma StepProgresses(cfg: B.Config, s: Sys, id: CallId, pre: bool, o: Outcome, was: Call, spent: nat)
    requires CanStep(s, id) && AttemptsCounted(s.calls[id]) && Progressed(was, s.calls[id], spent)
    ensures Progressed(was, MoveOf(cfg, s, id, pre, o).call, spent + 1)
  {
    var c := s.calls[id];
    var (cl, tok, admits) := (s.clients[c.client], TokenCancelled(s, c), B.Admits(cfg, s.breaker, s.now));
    MoveKeepsKind(id, c, cl, tok, admits, pre, o);
    if LeaseDecided(c.pc) {
      MoveGetsCloser(id, c, cl, tok, admits, pre, o);
    } else {
      DoneStaysDone(id, c, cl, tok, admits, pre, o);
    }
  }

  ghost predicate ProgressedBy(s: Sys, t: Sys, id: CallId, spent: nat)
    requires id in s.calls
  {
    && AllCounted(t) && id in t.calls
    && t.calls[id].client in t.clients && Progressed(s.calls[id], t.calls[id], spent)
  }

  lemma NextProgresses(cfg: B.Config, s: Sys, t: Sys, a: Action, id: CallId, spent: nat)
    requires id in s.calls && ProgressedBy(s, t, id, spent)
    ensures ProgressedBy(s, Next(cfg, t, a), id, spent + if a.Step? && a.id == id then 1 else 0)
  {
    NextCounts(cfg, t, a);
    if a.Step? && CanStep(t, a.id) {
      if a.id == id { StepProgresses(cfg, t, id, a.preflightOk, a.outcome, s.calls[id], spent); }
      var call := t.calls[a.id];
      MoveKeepsClient(a.id, call, t.clients[call.client], TokenCancelled(t, call), B.Admits(cfg, t.breaker, t.now),
                      a.preflightOk, a.outcome);
    }
  }

  lemma {:induction false} RunProgresses(cfg: B.Config, s: Sys, acts: seq<Action>, id: CallId)
    requires CanStep(s, id) && AllCounted(s) && LeaseDecided(s.calls[id].pc)
    ensures ProgressedBy(s, Run(cfg, s, acts), id, OwnSteps(acts, id))
  {
    if acts != [] {
      var p := acts[..|acts| - 1];
      RunProgresses(cfg, s, p, id);
      NextProgresses(cfg, s, Run(cfg, s, p), acts[|acts| - 1], id, OwnSteps(p, id));
    }
  }

  predicate ReportedOrEscaped(s: Sys, id: CallId) {
    id in s.calls && (O.StandingAt(s.calls[id].pc) == O.Settled || O.HasEscaped(s.calls[id]))
  }

  lemma StepsLeftRange(c: Call)
    requires AttemptsCounted(c)
    ensures LeaseDecided(c.pc) ==> 0 < StepsLeft(c) <= 31
  {
  }

  lemma EnoughSteps(s: Sys, t: Sys, id: CallId, spent: nat)
    requires CanStep(s, id) && AllCounted(s) && LeaseDecided(s.calls[id].pc)
    requires ProgressedBy(s, t, id, spent) && spent >= 31
    ensures ReportedOrEscaped(t, id)
  {
    StepsLeftRange(s.calls[id]);
    StepsLeftRange(t.calls[id]);
  }

  lemma {:induction false} RunOn(cfg: B.Config, s: Sys, before: seq<Action>, acts: seq<Action>)
    ensures Run(cfg, s, before + acts) == Run(cfg, Run(cfg, s, before), acts)
  {
    if acts == [] {
      assert before + acts == before;
    } else {
      var p := acts[..|acts| - 1];
      RunOn(cfg, s, before, p);
      assert (before + acts)[..|before + acts| - 1] == before + p;
    }
  }

  /** Whatever the other calls, cancels and clears do in between, a call whose lease has been
      decided has after 31 of its own steps reported, exactly unless it is a stream that was
      left by an exception it does not catch. */
  lemma ReportsInBoundedSteps(cfg: B.Config, s0: Sys, before: seq<Action>, acts: seq<Action>, id: CallId)
    requires Initial(s0)
    requires
      var s := Run(cfg, s0, before);
      CanStep(s, id) && LeaseDecided(s.calls[id].pc)
    requires OwnSteps(acts, id) >= 31
    ensures
      var t := Run(cfg, s0, before + acts);
      && id in t.calls
      && (O.StandingAt(t.calls[id].pc) == O.Settled <==> !O.EscapedIn(cfg, s0, before + acts, id))
  {
    RetriesBounded(cfg, s0, before);
    var s := Run(cfg, s0, before);
    RunProgresses(cfg, s, acts, id);
    EnoughSteps(s, Run(cfg, s, acts), id, OwnSteps(acts, id));
    RunOn(cfg, s0, before, acts);
    O.RunKnowsExit(cfg, s0, before + acts, id);
  }
}
