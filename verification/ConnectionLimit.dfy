/** When the limit on a pool's connections holds, and exactly how it is exceeded: the lease
    constructor reads the cancellation flags twice, and they can be cleared in between. */
module ConnectionLimit {
  import opened Common
  import opened CallProtocol
  import opened ConnectionPool
  import B = CircuitBreaker

  /** A lease that has left the wait found room, or left it because of a cancellation that
      its second check is bound to see again. */
  predicate WaitJustified(c: Call, cl: Client, tokenCancelled: bool) {
    match c.pc
    case LoadHard(k) => k == AfterWait ==> HasRoom(cl.pool) || cl.hard || tokenCancelled
    case LoadSoft(k) => k == AfterWait ==> HasRoom(cl.pool) || tokenCancelled
    case LoadToken(k) => k == AfterWait ==> HasRoom(cl.pool) || tokenCancelled
    case TakeConn => HasRoom(cl.pool)
    case _ => true
  }

  predicate WithinLimit(cl: Client) {
    && cl.pool.conns <= MAX_CONNS
    && (cl.soft || cl.cancels > 0 ==> cl.hard)
  }

  ghost predicate LimitInv(s: Sys) {
    && Inv(s)
    && (forall c :: c in s.clients ==> WithinLimit(s.clients[c]))
    && (forall id :: id in s.calls ==>
          WaitJustified(s.calls[id], s.clients[s.calls[id].client], TokenCancelled(s, s.calls[id])))
  }

  lemma CheckWithinLimit(id: CallId, c: Call, cl: Client, tok: bool, admits: bool, pre: bool, o: Outcome)
    requires WaitJustified(c, cl, tok) && WithinLimit(cl)
    requires c.pc.LoadHard? || c.pc.LoadSoft? || c.pc.LoadToken? || c.pc in {TestPool, TakeConn}
    ensures
      var m := Move(id, c, cl, tok, admits, pre, o);
      WaitJustified(m.call, m.client, tok) && WithinLimit(m.client) && (cl.hard ==> m.client.hard)
  {
  }

  predicate InLatchOrExchange(pc: Pc) {
    pc.LatchLoad? || pc.Preflight? || pc.LatchStore? || pc.Exchange?
  }

  lemma LatchWithinLimit(id: CallId, c: Call, cl: Client, tok: bool, admits: bool, pre: bool, o: Outcome)
    requires WithinLimit(cl) && InLatchOrExchange(c.pc)
    ensures
      var m := Move(id, c, cl, tok, admits, pre, o);
      WaitJustified(m.call, m.client, tok) && WithinLimit(m.client) && (cl.hard ==> m.client.hard)
  {
  }

  lemma OtherWithinLimit(id: CallId, c: Call, cl: Client, tok: bool, admits: bool, pre: bool, o: Outcome)
    requires WithinLimit(cl) && !InLatchOrExchange(c.pc)
    requires !(c.pc.LoadHard? || c.pc.LoadSoft? || c.pc.LoadToken? || c.pc in {TestPool, TakeConn})
    ensures
      var m := Move(id, c, cl, tok, admits, pre, o);
      WaitJustified(m.call, m.client, tok) && WithinLimit(m.client) && (cl.hard ==> m.client.hard)
  {
  }

  /** Somebody else's move cannot take away the room a waiting lease found: the mutex is
      the waiter's until its lease is decided. */
  lemma AppliedKeepsJustified(cfg: B.Config, s: Sys, who: CallId, m: Moved, id: CallId)
    requires CanStep(s, who) && LimitInv(s) && id in s.calls && id != who
    requires PoolMove(who, s.calls[who], s.clients[s.calls[who].client], m)
    requires s.clients[s.calls[who].client].hard ==> m.client.hard
    ensures
      var s' := Applied(cfg, s, who, m);
      WaitJustified(s'.calls[id], s'.clients[s'.calls[id].client], TokenCancelled(s', s'.calls[id]))
  {
    assert MutexOwned(s, s.calls[who].client);
  }

  lemma AppliedKeepsLimit(cfg: B.Config, s: Sys, who: CallId, m: Moved)
    requires CanStep(s, who) && LimitInv(s)
    requires PoolMove(who, s.calls[who], s.clients[s.calls[who].client], m)
    requires s.clients[s.calls[who].client].hard ==> m.client.hard
    requires m.call.token == s.calls[who].token
    requires WaitJustified(m.call, m.client, TokenCancelled(s, s.calls[who])) && WithinLimit(m.client)
    ensures LimitInv(Applied(cfg, s, who, m))
  {
    AppliedKeepsInv(cfg, s, who, m);
    var s' := Applied(cfg, s, who, m);
    forall id | id in s'.calls
      ensures WaitJustified(s'.calls[id], s'.clients[s'.calls[id].client], TokenCancelled(s', s'.calls[id]))
    {
      if id != who { AppliedKeepsJustified(cfg, s, who, m, id); }
    }
  }

  lemma MoveKeepsToken(id: CallId, c: Call, cl: Client, tok: bool, admits: bool, pre: bool, o: Outcome)
    ensures Move(id, c, cl, tok, admits, pre, o).call.token == c.token
  {
  }

  /** Clearing the sticky bit is harmless when no cancel() of the client is half done or still
      shows in the ephemeral flag, and no lease of the client has left its wait for the sticky
      bit alone: at a full pool, with a live token, about to read the bit again. */
  ghost predicate HarmlessClear(s: Sys, c: ClientId) {
    c in s.clients ==>
      && !s.clients[c].soft && s.clients[c].cancels == 0
      && forall id :: id in s.calls && s.calls[id].client == c && s.calls[id].pc == LoadHard(AfterWait) ==>
           HasRoom(s.clients[c].pool) || TokenCancelled(s, s.calls[id])
  }

  lemma NextKeepsLimit(cfg: B.Config, s: Sys, a: Action)
    requires LimitInv(s) && (a.ClearHardCancel? ==> HarmlessClear(s, a.client))
    ensures LimitInv(Next(cfg, s, a))
  {
    if a.Step? && CanStep(s, a.id) {
      var c := s.calls[a.id];
      var (cl, tok, admits) := (s.clients[c.client], TokenCancelled(s, c), B.Admits(cfg, s.breaker, s.now));
      StepPoolMove(cfg, s, a.id, a.preflightOk, a.outcome);
      MoveKeepsToken(a.id, c, cl, tok, admits, a.preflightOk, a.outcome);
      if c.pc.LoadHard? || c.pc.LoadSoft? || c.pc.LoadToken? || c.pc in {TestPool, TakeConn} {
        CheckWithinLimit(a.id, c, cl, tok, admits, a.preflightOk, a.outcome);
      } else if InLatchOrExchange(c.pc) {
        LatchWithinLimit(a.id, c, cl, tok, admits, a.preflightOk, a.outcome);
      } else {
        OtherWithinLimit(a.id, c, cl, tok, admits, a.preflightOk, a.outcome);
      }
      AppliedKeepsLimit(cfg, s, a.id, MoveOf(cfg, s, a.id, a.preflightOk, a.outcome));
    } else {
      QuietKeepsInv(cfg, s, a);
      if a.ClearHardCancel? { ClearKeepsLimit(cfg, s, a.client); } else { QuietKeepsLimit(cfg, s, a); }
    }
  }

  lemma QuietKeepsLimit(cfg: B.Config, s: Sys, a: Action)
    requires LimitInv(s) && !a.ClearHardCancel? && !(a.Step? && CanStep(s, a.id))
    requires Inv(Next(cfg, s, a))
    ensures LimitInv(Next(cfg, s, a))
  {
  }

  lemma ClearKeepsLimit(cfg: B.Config, s: Sys, c: ClientId)
    requires LimitInv(s) && HarmlessClear(s, c) && Inv(Next(cfg, s, ClearHardCancel(c)))
    ensures LimitInv(Next(cfg, s, ClearHardCancel(c)))
  {
  }

  ghost predicate AllWithinLimit(s: Sys) {
    forall c :: c in s.clients ==> s.clients[c].pool.conns <= 16
  }

  /** Every clear of the run is harmless where it happens. */
  ghost predicate HarmlessClears(cfg: B.Config, s0: Sys, acts: seq<Action>) {
    forall i: nat :: i < |acts| && acts[i].ClearHardCancel? ==> HarmlessClear(Run(cfg, s0, acts[..i]), acts[i].client)
  }

  lemma {:induction false} RunKeepsLimit(cfg: B.Config, s0: Sys, acts: seq<Action>)
    requires Initial(s0) && HarmlessClears(cfg, s0, acts)
    ensures LimitInv(Run(cfg, s0, acts))
  {
    if acts != [] {
      var p := acts[..|acts| - 1];
      assert forall i :: 0 <= i < |p| ==> p[..i] == acts[..i];
      RunKeepsLimit(cfg, s0, p);
      NextKeepsLimit(cfg, Run(cfg, s0, p), acts[|acts| - 1]);
    }
  }

  /** In every run whose clears are harmless no pool outgrows the limit, whatever else is
      cancelled; a run without clears is one of them. */
  lemma PoolLimit(cfg: B.Config, s0: Sys, acts: seq<Action>)
    requires Initial(s0) && HarmlessClears(cfg, s0, acts)
    ensures AllWithinLimit(Run(cfg, s0, acts))
  {
    RunKeepsLimit(cfg, s0, acts);
    assert LimitInv(Run(cfg, s0, acts));
  }

  // ---- how a pool outgrows the limit ----

  /** This action is the load by which `id`'s first check, inside the wait, says cancelled
      while its pool is full. */
  predicate LeavesCancelled(s: Sys, a: Action, id: CallId) {
    a.Step? && a.id == id && CanStep(s, id) &&
    var c := s.calls[id];
    LeavesNow(c, s.clients[c.client], TokenCancelled(s, c))
  }

  predicate LeavesNow(c: Call, cl: Client, tok: bool) {
    && !HasRoom(cl.pool)
    && (|| (c.pc == LoadHard(InWait) && cl.hard)
        || (c.pc == LoadSoft(InWait) && cl.soft)
        || (c.pc == LoadToken(InWait) && tok))
  }

  /** This action is the last load of `id`'s second check, after the wait, and the check says
      that nothing is cancelled. */
  predicate PassesSecond(s: Sys, a: Action, id: CallId) {
    a.Step? && a.id == id && CanStep(s, id) && s.calls[id].pc == LoadToken(AfterWait) && !TokenCancelled(s, s.calls[id])
  }

  predicate Takes(s: Sys, a: Action, id: CallId) {
    a.Step? && a.id == id && CanStep(s, id) && s.calls[id].pc == TakeConn
  }

  predicate InSecondCheck(pc: Pc) {
    (pc.LoadHard? || pc.LoadSoft? || pc.LoadToken?) && pc.check == AfterWait
  }

  /** The call is done with its wait. */
  predicate PastWait(pc: Pc) {
    match pc
    case LatchLoad(l) => !l.AtEntry?
    case Preflight(l) => !l.AtEntry?
    case LatchStore(l) => !l.AtEntry?
    case LoadHard(k) => k != InWait
    case LoadSoft(k) => k != InWait
    case LoadToken(k) => k != InWait
    case TakeConn => true
    case Exchange(_) => true
    case Report(_) => true
    case Release(_) => true
    case Returned(_) => true
    case _ => false
  }

  predicate ReadsFlags(pc: Pc) {
    pc.LoadHard? || pc.LoadSoft? || pc.LoadToken?
  }

  /** What a call's own move does to a lease being decided at a full pool. */
  predicate FullPoolMove(c: Call, cl: Client, tok: bool, m: Moved) {
    && (!HasRoom(m.client.pool) && InSecondCheck(m.call.pc) ==>
          !HasRoom(cl.pool) && (InSecondCheck(c.pc) || LeavesNow(c, cl, tok)))
    && (!HasRoom(m.client.pool) && m.call.pc == TakeConn ==>
          !HasRoom(cl.pool) && c.pc == LoadToken(AfterWait) && !tok)
    && (PastWait(c.pc) || LeavesNow(c, cl, tok) ==>
          PastWait(m.call.pc) && (DecidesLease(m.call.pc) ==> (HasRoom(m.client.pool) <==> HasRoom(cl.pool))))
  }

  lemma CheckAtFullPool(id: CallId, c: Call, cl: Client, tok: bool, admits: bool, pre: bool, o: Outcome)
    requires ReadsFlags(c.pc)
    ensures FullPoolMove(c, cl, tok, Move(id, c, cl, tok, admits, pre, o))
  {
  }

  lemma LatchAtFullPool(id: CallId, c: Call, cl: Client, tok: bool, admits: bool, pre: bool, o: Outcome)
    requires InLatchOrExchange(c.pc)
    ensures FullPoolMove(c, cl, tok, Move(id, c, cl, tok, admits, pre, o))
  {
  }

  lemma OtherAtFullPool(id: CallId, c: Call, cl: Client, tok: bool, admits: bool, pre: bool, o: Outcome)
    requires !ReadsFlags(c.pc) && !InLatchOrExchange(c.pc)
    ensures FullPoolMove(c, cl, tok, Move(id, c, cl, tok, admits, pre, o))
  {
  }

  lemma StepAtFullPool(cfg: B.Config, s: Sys, id: CallId, pre: bool, o: Outcome)
    requires CanStep(s, id)
    ensures
      var c := s.calls[id];
      FullPoolMove(c, s.clients[c.client], TokenCancelled(s, c), MoveOf(cfg, s, id, pre, o))
  {
    var c := s.calls[id];
    var (cl, tok, admits) := (s.clients[c.client], TokenCancelled(s, c), B.Admits(cfg, s.breaker, s.now));
    if ReadsFlags(c.pc) {
      CheckAtFullPool(id, c, cl, tok, admits, pre, o);
    } else if InLatchOrExchange(c.pc) {
      LatchAtFullPool(id, c, cl, tok, admits, pre, o);
    } else {
      OtherAtFullPool(id, c, cl, tok, admits, pre, o);
    }
  }

  predicate DecidesLease(pc: Pc) {
    InSecondCheck(pc) || pc == TakeConn
  }

  /** `id`'s call is as it was, and so is its pool if its lease is being decided. */
  predicate LeaseKept(s: Sys, s': Sys, id: CallId)
    requires CanStep(s, id)
  {
    && CanStep(s', id) && s'.calls[id] == s.calls[id]
    && (DecidesLease(s.calls[id].pc) ==>
          s'.clients[s.calls[id].client].pool == s.clients[s.calls[id].client].pool)
  }

  lemma AppliedKeepsLease(cfg: B.Config, s: Sys, who: CallId, m: Moved, id: CallId)
    requires CanStep(s, who) && CanStep(s, id) && id != who && MutexOwned(s, s.calls[id].client)
    requires PoolMove(who, s.calls[who], s.clients[s.calls[who].client], m)
    ensures LeaseKept(s, Applied(cfg, s, who, m), id)
  {
  }

  lemma QuietKeepsLease(cfg: B.Config, s: Sys, a: Action, id: CallId)
    requires CanStep(s, id) && !(a.Step? && CanStep(s, a.id))
    ensures LeaseKept(s, Next(cfg, s, a), id)
  {
  }

  /** While a lease is being decided nobody but its call changes the pool. */
  lemma OthersKeepLease(cfg: B.Config, s: Sys, a: Action, id: CallId)
    requires Inv(s) && CanStep(s, id) && !(a.Step? && a.id == id)
    ensures LeaseKept(s, Next(cfg, s, a), id)
  {
    if a.Step? && CanStep(s, a.id) {
      StepPoolMove(cfg, s, a.id, a.preflightOk, a.outcome);
      AppliedKeepsLease(cfg, s, a.id, MoveOf(cfg, s, a.id, a.preflightOk, a.outcome), id);
    } else {
      QuietKeepsLease(cfg, s, a, id);
    }
  }

  ghost predicate LeavesAt(cfg: B.Config, s0: Sys, acts: seq<Action>, id: CallId, i: nat) {
    i < |acts| && LeavesCancelled(Run(cfg, s0, acts[..i]), acts[i], id)
  }

  ghost predicate PassesAt(cfg: B.Config, s0: Sys, acts: seq<Action>, id: CallId, j: nat) {
    j < |acts| && PassesSecond(Run(cfg, s0, acts[..j]), acts[j], id)
  }

  ghost predicate TakesAt(cfg: B.Config, s0: Sys, acts: seq<Action>, id: CallId, k: nat) {
    k < |acts| && Takes(Run(cfg, s0, acts[..k]), acts[k], id)
  }

  /** A lease being decided at a full pool left its wait cancelled, and one that may take a
      connection has also passed its second check. */
  ghost predicate CauseKnown(cfg: B.Config, s0: Sys, acts: seq<Action>, id: CallId) {
    var s := Run(cfg, s0, acts);
    CanStep(s, id) && !HasRoom(s.clients[s.calls[id].client].pool) ==>
      && (InSecondCheck(s.calls[id].pc) ==> exists i: nat :: LeavesAt(cfg, s0, acts, id, i))
      && (s.calls[id].pc == TakeConn ==>
            exists i: nat, j: nat :: i < j && LeavesAt(cfg, s0, acts, id, i) && PassesAt(cfg, s0, acts, id, j))
  }

  lemma EventsStay(cfg: B.Config, s0: Sys, p: seq<Action>, a: Action, id: CallId, n: nat)
    requires n < |p|
    ensures LeavesAt(cfg, s0, p + [a], id, n) == LeavesAt(cfg, s0, p, id, n)
    ensures PassesAt(cfg, s0, p + [a], id, n) == PassesAt(cfg, s0, p, id, n)
    ensures TakesAt(cfg, s0, p + [a], id, n) == TakesAt(cfg, s0, p, id, n)
  {
    assert (p + [a])[..n] == p[..n];
  }

  lemma LastEvent(cfg: B.Config, s0: Sys, p: seq<Action>, a: Action, id: CallId)
    ensures LeavesAt(cfg, s0, p + [a], id, |p|) == LeavesCancelled(Run(cfg, s0, p), a, id)
    ensures PassesAt(cfg, s0, p + [a], id, |p|) == PassesSecond(Run(cfg, s0, p), a, id)
    ensures TakesAt(cfg, s0, p + [a], id, |p|) == Takes(Run(cfg, s0, p), a, id)
    ensures Run(cfg, s0, p + [a]) == Next(cfg, Run(cfg, s0, p), a)
  {
    assert (p + [a])[..|p|] == p;
  }

  /** An earlier exit from the wait is still one after another action. */
  lemma LeftStays(cfg: B.Config, s0: Sys, p: seq<Action>, a: Action, id: CallId)
    requires exists i: nat :: LeavesAt(cfg, s0, p, id, i)
    ensures exists i: nat :: i < |p| && LeavesAt(cfg, s0, p + [a], id, i)
  {
    var i: nat :| LeavesAt(cfg, s0, p, id, i);
    EventsStay(cfg, s0, p, a, id, i);
  }

  lemma PassedStays(cfg: B.Config, s0: Sys, p: seq<Action>, a: Action, id: CallId)
    requires exists i: nat, j: nat :: i < j && LeavesAt(cfg, s0, p, id, i) && PassesAt(cfg, s0, p, id, j)
    ensures exists i: nat, j: nat ::
              i < j && LeavesAt(cfg, s0, p + [a], id, i) && PassesAt(cfg, s0, p + [a], id, j)
  {
    var i: nat, j: nat :| i < j && LeavesAt(cfg, s0, p, id, i) && PassesAt(cfg, s0, p, id, j);
    EventsStay(cfg, s0, p, a, id, i);
    EventsStay(cfg, s0, p, a, id, j);
  }

  lemma OtherStepKeepsCause(cfg: B.Config, s0: Sys, p: seq<Action>, a: Action, id: CallId)
    requires Inv(Run(cfg, s0, p)) && CauseKnown(cfg, s0, p, id) && !(a.Step? && a.id == id)
    requires CanStep(Run(cfg, s0, p), id)
    ensures CauseKnown(cfg, s0, p + [a], id)
  {
    var s := Run(cfg, s0, p);
    OthersKeepLease(cfg, s, a, id);
    LastEvent(cfg, s0, p, a, id);
    var c := s.calls[id];
    if !HasRoom(s.clients[c.client].pool) {
      if InSecondCheck(c.pc) { LeftStays(cfg, s0, p, a, id); }
      if c.pc == TakeConn { PassedStays(cfg, s0, p, a, id); }
    }
  }

  lemma OwnStepKeepsCause(cfg: B.Config, s0: Sys, p: seq<Action>, a: Action, id: CallId)
    requires CauseKnown(cfg, s0, p, id) && a.Step? && a.id == id && CanStep(Run(cfg, s0, p), id)
    ensures CauseKnown(cfg, s0, p + [a], id)
  {
    var s := Run(cfg, s0, p);
    var c := s.calls[id];
    var (cl, tok) := (s.clients[c.client], TokenCancelled(s, c));
    StepAtFullPool(cfg, s, id, a.preflightOk, a.outcome);
    LastEvent(cfg, s0, p, a, id);
    var m := MoveOf(cfg, s, id, a.preflightOk, a.outcome);
    if !HasRoom(m.client.pool) && DecidesLease(m.call.pc) {
      if !LeavesNow(c, cl, tok) { LeftStays(cfg, s0, p, a, id); }
      if m.call.pc == TakeConn { assert PassesAt(cfg, s0, p + [a], id, |p|); }
    }
  }

  lemma {:induction false} RunKnowsCause(cfg: B.Config, s0: Sys, acts: seq<Action>, id: CallId)
    requires Initial(s0)
    ensures CauseKnown(cfg, s0, acts, id)
  {
    if acts != [] {
      var (p, a) := (acts[..|acts| - 1], acts[|acts| - 1]);
      assert acts == p + [a];
      RunKnowsCause(cfg, s0, p, id);
      PoolConservation(cfg, s0, p);
      LastEvent(cfg, s0, p, a, id);
      var s := Run(cfg, s0, p);
      if !CanStep(s, id) {
        NewCallHasNoLease(cfg, s, a, id);
      } else if a.Step? && a.id == id {
        OwnStepKeepsCause(cfg, s0, p, a, id);
      } else {
        OtherStepKeepsCause(cfg, s0, p, a, id);
      }
    }
  }

  lemma NewCallHasNoLease(cfg: B.Config, s: Sys, a: Action, id: CallId)
    requires Inv(s) && !CanStep(s, id)
    ensures
      var s' := Next(cfg, s, a);
      CanStep(s', id) ==> !DecidesLease(s'.calls[id].pc)
  {
  }

  // ---- and the other way round ----

  /** From a cancelled exit at a full pool on, the pool stays full until the lease is decided. */
  ghost predicate StillFull(s: Sys, id: CallId, c: ClientId) {
    && CanStep(s, id) && s.calls[id].client == c && PastWait(s.calls[id].pc)
    && (DecidesLease(s.calls[id].pc) ==> !HasRoom(s.clients[c].pool))
  }

  lemma AppliedStillFull(cfg: B.Config, s: Sys, id: CallId, m: Moved)
    requires CanStep(s, id) && m.call.client == s.calls[id].client
    requires
      var c := s.calls[id];
      var (cl, tok) := (s.clients[c.client], TokenCancelled(s, c));
      FullPoolMove(c, cl, tok, m) && (StillFull(s, id, c.client) || LeavesNow(c, cl, tok))
    requires DecidesLease(m.call.pc) ==> DecidesLease(s.calls[id].pc) || !HasRoom(s.clients[m.call.client].pool)
    ensures StillFull(Applied(cfg, s, id, m), id, s.calls[id].client)
  {
  }

  /** A lease is decided right after the wait, in one go. */
  lemma StepDecides(cfg: B.Config, s: Sys, id: CallId, pre: bool, o: Outcome)
    requires CanStep(s, id) && PastWait(s.calls[id].pc)
    ensures DecidesLease(MoveOf(cfg, s, id, pre, o).call.pc) ==> DecidesLease(s.calls[id].pc)
  {
  }

  lemma StepStillFull(cfg: B.Config, s: Sys, a: Action, id: CallId, c: ClientId)
    requires Inv(s) && CanStep(s, id) && s.calls[id].client == c
    requires StillFull(s, id, c) || LeavesCancelled(s, a, id)
    ensures StillFull(Next(cfg, s, a), id, c)
  {
    if a.Step? && a.id == id {
      StepAtFullPool(cfg, s, id, a.preflightOk, a.outcome);
      StepPoolMove(cfg, s, id, a.preflightOk, a.outcome);
      if PastWait(s.calls[id].pc) { StepDecides(cfg, s, id, a.preflightOk, a.outcome); }
      AppliedStillFull(cfg, s, id, MoveOf(cfg, s, id, a.preflightOk, a.outcome));
    } else {
      OthersKeepLease(cfg, s, a, id);
    }
  }

  lemma {:induction false} RunStillFull(cfg: B.Config, s0: Sys, acts: seq<Action>, id: CallId, c: ClientId, i: nat)
    requires Initial(s0) && i < |acts| && LeavesAt(cfg, s0, acts, id, i)
    requires Run(cfg, s0, acts[..i]).calls[id].client == c
    ensures StillFull(Run(cfg, s0, acts), id, c)
    decreases |acts|
  {
    var (p, a) := (acts[..|acts| - 1], acts[|acts| - 1]);
    assert acts == p + [a];
    PoolConservation(cfg, s0, p);
    LastEvent(cfg, s0, p, a, id);
    if i < |p| {
      EventsStay(cfg, s0, p, a, id, i);
      assert acts[..i] == p[..i];
      RunStillFull(cfg, s0, p, id, c, i);
    }
    StepStillFull(cfg, Run(cfg, s0, p), a, id, c);
  }

  /** Pools only grow, and only past the limit where a lease takes from a full one. */
  predicate GrowsAs(s: Sys, s': Sys, c: ClientId, takes: bool) {
    && s'.clients.Keys == s.clients.Keys
    && (c in s.clients ==>
          var (n, n') := (s.clients[c].pool.conns, s'.clients[c].pool.conns);
          n <= n' && (n <= MAX_CONNS ==> (n' > MAX_CONNS <==> takes && !HasRoom(s.clients[c].pool))))
  }

  lemma AppliedGrows(cfg: B.Config, s: Sys, who: CallId, m: Moved, c: ClientId)
    requires CanStep(s, who) && PoolMove(who, s.calls[who], s.clients[s.calls[who].client], m)
    ensures GrowsAs(s, Applied(cfg, s, who, m), c, s.calls[who].client == c && s.calls[who].pc == TakeConn)
  {
  }

  lemma StepGrows(cfg: B.Config, s: Sys, a: Action, c: ClientId)
    requires Inv(s)
    ensures GrowsAs(s, Next(cfg, s, a), c, a.Step? && Takes(s, a, a.id) && s.calls[a.id].client == c)
  {
    if a.Step? && CanStep(s, a.id) {
      StepPoolMove(cfg, s, a.id, a.preflightOk, a.outcome);
      AppliedGrows(cfg, s, a.id, MoveOf(cfg, s, a.id, a.preflightOk, a.outcome), c);
    }
  }

  /** A lease of client `c` left its wait because it was cancelled at a full pool, was told by
      its second check that nothing is cancelled, and took a connection. */
  ghost predicate Overcommits(cfg: B.Config, s0: Sys, acts: seq<Action>, c: ClientId, id: CallId, i: nat, j: nat, k: nat) {
    && i < j < k < |acts|
    && LeavesAt(cfg, s0, acts, id, i) && PassesAt(cfg, s0, acts, id, j) && TakesAt(cfg, s0, acts, id, k)
    && Run(cfg, s0, acts[..k]).calls[id].client == c
  }

  ghost predicate Overcommitted(cfg: B.Config, s0: Sys, acts: seq<Action>, c: ClientId) {
    exists id, i, j, k :: Overcommits(cfg, s0, acts, c, id, i, j, k)
  }

  lemma OvercommitsSame(cfg: B.Config, s0: Sys, p: seq<Action>, a: Action, c: ClientId, id: CallId, i: nat, j: nat, k: nat)
    requires k < |p|
    ensures Overcommits(cfg, s0, p + [a], c, id, i, j, k) == Overcommits(cfg, s0, p, c, id, i, j, k)
  {
    if i < j < k {
      EventsStay(cfg, s0, p, a, id, i);
      EventsStay(cfg, s0, p, a, id, j);
      EventsStay(cfg, s0, p, a, id, k);
      assert (p + [a])[..k] == p[..k];
    }
  }

  lemma OvercommitStays(cfg: B.Config, s0: Sys, p: seq<Action>, a: Action, c: ClientId)
    requires Overcommitted(cfg, s0, p, c)
    ensures Overcommitted(cfg, s0, p + [a], c)
  {
    var id, i, j, k :| Overcommits(cfg, s0, p, c, id, i, j, k);
    OvercommitsSame(cfg, s0, p, a, c, id, i, j, k);
  }

  lemma OvercommitsNow(cfg: B.Config, s0: Sys, p: seq<Action>, a: Action, c: ClientId)
    requires Initial(s0) && a.Step? && Takes(Run(cfg, s0, p), a, a.id)
    requires
      var s := Run(cfg, s0, p);
      s.calls[a.id].client == c && !HasRoom(s.clients[c].pool)
    ensures Overcommitted(cfg, s0, p + [a], c)
  {
    var id := a.id;
    RunKnowsCause(cfg, s0, p, id);
    assert CauseKnown(cfg, s0, p, id);
    PassedStays(cfg, s0, p, a, id);
    var i: nat, j: nat :| i < j < |p| && LeavesAt(cfg, s0, p, id, i) && PassesAt(cfg, s0, p, id, j);
    EventsStay(cfg, s0, p, a, id, i);
    EventsStay(cfg, s0, p, a, id, j);
    LastEvent(cfg, s0, p, a, id);
    assert (p + [a])[..|p|] == p;
    assert Overcommits(cfg, s0, p + [a], c, id, i, j, |p|);
  }

  /** The taking step finds the pool still full. */
  lemma TakenAtFullPool(cfg: B.Config, s0: Sys, p: seq<Action>, a: Action, c: ClientId, id: CallId, i: nat, j: nat)
    requires Initial(s0) && Overcommits(cfg, s0, p + [a], c, id, i, j, |p|)
    ensures
      var s := Run(cfg, s0, p);
      Takes(s, a, id) && s.calls[id].client == c && !HasRoom(s.clients[c].pool)
  {
    LastEvent(cfg, s0, p, a, id);
    EventsStay(cfg, s0, p, a, id, i);
    assert (p + [a])[..|p|] == p;
    var c' := Run(cfg, s0, p[..i]).calls[id].client;
    RunStillFull(cfg, s0, p, id, c', i);
  }

  lemma OvercommitUnfolds(cfg: B.Config, s0: Sys, p: seq<Action>, a: Action, c: ClientId)
    requires Initial(s0) && Overcommitted(cfg, s0, p + [a], c)
    ensures Overcommitted(cfg, s0, p, c) ||
            (a.Step? && Takes(Run(cfg, s0, p), a, a.id) && Run(cfg, s0, p).calls[a.id].client == c
             && !HasRoom(Run(cfg, s0, p).clients[c].pool))
  {
    var id, i, j, k :| Overcommits(cfg, s0, p + [a], c, id, i, j, k);
    if k == |p| {
      TakenAtFullPool(cfg, s0, p, a, c, id, i, j);
    } else {
      OvercommitsSame(cfg, s0, p, a, c, id, i, j, k);
    }
  }

  /** In every run, a client's pool has passed its limit if and only if some lease of the
      client left its wait cancelled at a full pool, was told by its second check that
      nothing is cancelled, and took a connection. */
  lemma {:induction false} OverLimitExactly(cfg: B.Config, s0: Sys, acts: seq<Action>, c: ClientId)
    requires Initial(s0) && c in s0.clients
    ensures
      var s := Run(cfg, s0, acts);
      c in s.clients && (s.clients[c].pool.conns > 16 <==> Overcommitted(cfg, s0, acts, c))
  {
    if acts != [] {
      var (p, a) := (acts[..|acts| - 1], acts[|acts| - 1]);
      assert acts == p + [a];
      var s := Run(cfg, s0, p);
      OverLimitExactly(cfg, s0, p, c);
      PoolConservation(cfg, s0, p);
      StepGrows(cfg, s, a, c);
      if Overcommitted(cfg, s0, p, c) {
        OvercommitStays(cfg, s0, p, a, c);
      } else if a.Step? && Takes(s, a, a.id) && s.calls[a.id].client == c && !HasRoom(s.clients[c].pool) {
        OvercommitsNow(cfg, s0, p, a, c);
      }
      if Overcommitted(cfg, s0, p + [a], c) {
        OvercommitUnfolds(cfg, s0, p, a, c);
      }
    }
  }
}
