/** What a call reports to the breaker, told from what happened to it. For every run, the
    outcomes of a call's own exchanges and whether a check of its own stopped it are read off
    the actions; the record it files follows from these alone. */
module CallRecords {
  import opened Common
  import opened CallProtocol
  import B = CircuitBreaker
  import O = CallObligations

  // ---- what happened to a call ----

  /** A check or latch that finds the call cancelled, other than the one inside the wait, which
      is asked again after it. */
  predicate StopsAt(c: Call, cl: Client, tokenCancelled: bool, preflightOk: bool) {
    match c.pc
    case LatchLoad(l) => l.AtAttempt? && cl.hard
    case Preflight(l) => l.AtAttempt? && !preflightOk
    case LoadHard(k) => !k.InWait? && cl.hard
    case LoadSoft(k) => !k.InWait? && cl.soft
    case LoadToken(k) => !k.InWait? && tokenCancelled
    case _ => false
  }

  predicate StepsNow(s: Sys, a: Action, id: CallId) {
    a.Step? && a.id == id && CanStep(s, id)
  }

  /** The outcomes of the exchanges `id` has made, in order. */
  function Outcomes(cfg: B.Config, s0: Sys, acts: seq<Action>, id: CallId): seq<Outcome> {
    if acts == [] then []
    else
      var (p, a) := (acts[..|acts| - 1], acts[|acts| - 1]);
      var (s, outs) := (Run(cfg, s0, p), Outcomes(cfg, s0, p, id));
      if StepsNow(s, a, id) && s.calls[id].pc.Exchange? then outs + [a.outcome] else outs
  }

  /** A check of its own has stopped `id`. */
  predicate Stopped(cfg: B.Config, s0: Sys, acts: seq<Action>, id: CallId) {
    acts != [] &&
    var (p, a) := (acts[..|acts| - 1], acts[|acts| - 1]);
    var s := Run(cfg, s0, p);
    || Stopped(cfg, s0, p, id)
    || (StepsNow(s, a, id)
        && StopsAt(s.calls[id], s.clients[s.calls[id].client], TokenCancelled(s, s.calls[id]), a.preflightOk))
  }

  /** The last report `id` filed. */
  function RecordOf(log: seq<(B.Event, CallId)>, id: CallId): Option<B.Op> {
    if log == [] then None
    else
      var (ev, who) := log[|log| - 1];
      if who == id && ev.op != B.Allow then Some(ev.op) else RecordOf(log[..|log| - 1], id)
  }

  // ---- what it leads to ----

  /** After this the call may try again. A stream may not once it has delivered content. */
  predicate Retryable(kind: Kind, o: Outcome) {
    || o.Threw? || (o.ForeignThrow? && kind == Complete)
    || (o.ErrorReply? && o.retryable && !(kind == Stream && o.gotContent))
  }

  predicate AllRetryable(kind: Kind, outs: seq<Outcome>) {
    forall i :: 0 <= i < |outs| ==> Retryable(kind, outs[i])
  }

  /** The last exchange could not connect, got an error reply that is final, or failed and
      used the attempts up. */
  predicate FailedForGood(kind: Kind, outs: seq<Outcome>) {
    outs != [] &&
    var last := outs[|outs| - 1];
    || last.ConnectFailed?
    || (last.ErrorReply? && !Retryable(kind, last))
    || (Retryable(kind, last) && |outs| == if kind == Complete then 4 else 3)
  }

  predicate Says(kind: Kind, op: B.Op, outs: seq<Outcome>, stopped: bool) {
    match op
    case Allow => false
    case Success => !stopped && outs != [] && outs[|outs| - 1] == Answered
    case Failure => !stopped && FailedForGood(kind, outs)
    case Abandoned => stopped && AllRetryable(kind, outs) && |outs| < MaxAttempts(kind)
  }

  predicate UnderLatch(l: Latch, kind: Kind, outs: seq<Outcome>, stopped: bool, storing: bool) {
    match l
    case AtEntry => outs == [] && !stopped
    case AtLeaseAbort => outs == [] && stopped
    case AtAttempt(n) => |outs| == n < MaxAttempts(kind) && AllRetryable(kind, outs) && stopped == storing
  }

  predicate UnderCheck(k: Check, kind: Kind, outs: seq<Outcome>, stopped: bool) {
    !stopped && if k.AtHead? then |outs| == k.n < MaxAttempts(kind) && AllRetryable(kind, outs) else outs == []
  }

  predicate AtFate(f: Fate, kind: Kind, outs: seq<Outcome>, stopped: bool) {
    match f
    case Recorded(op) => Says(kind, op, outs, stopped)
    case Escaped => !stopped && kind == Stream && outs != [] && outs[|outs| - 1] == ForeignThrow
    case _ => outs == [] && !stopped
  }

  /** Where a call is fits what has happened to it. */
  predicate Fits(c: Call, outs: seq<Outcome>, stopped: bool) {
    && c.exchanges == |outs| <= MaxAttempts(c.kind)
    && (outs != [] ==> AllRetryable(c.kind, outs[..|outs| - 1]))
    && match c.pc
       case LatchLoad(l) => UnderLatch(l, c.kind, outs, stopped, false)
       case Preflight(l) => UnderLatch(l, c.kind, outs, stopped, false)
       case LatchStore(l) => UnderLatch(l, c.kind, outs, stopped, true)
       case LoadHard(k) => UnderCheck(k, c.kind, outs, stopped)
       case LoadSoft(k) => UnderCheck(k, c.kind, outs, stopped)
       case LoadToken(k) => UnderCheck(k, c.kind, outs, stopped)
       case Exchange(n) => UnderCheck(AtHead(n), c.kind, outs, stopped)
       case Report(op) => Says(c.kind, op, outs, stopped)
       case Release(f) => AtFate(f, c.kind, outs, stopped)
       case Returned(f) => AtFate(f, c.kind, outs, stopped)
       case _ => outs == [] && !stopped
  }

  lemma LatchFits(id: CallId, c: Call, cl: Client, tok: bool, admits: bool, pre: bool, o: Outcome,
                  outs: seq<Outcome>, stopped: bool)
    requires Fits(c, outs, stopped) && (c.pc.LatchLoad? || c.pc.Preflight? || c.pc.LatchStore?)
    ensures Fits(Move(id, c, cl, tok, admits, pre, o).call, outs, stopped || StopsAt(c, cl, tok, pre))
  {
  }

  lemma CheckFits(id: CallId, c: Call, cl: Client, tok: bool, admits: bool, pre: bool, o: Outcome,
                  outs: seq<Outcome>, stopped: bool)
    requires Fits(c, outs, stopped) && (c.pc.LoadHard? || c.pc.LoadSoft? || c.pc.LoadToken?)
    ensures Fits(Move(id, c, cl, tok, admits, pre, o).call, outs, stopped || StopsAt(c, cl, tok, pre))
  {
  }

  lemma ExchangeFits(id: CallId, c: Call, cl: Client, tok: bool, admits: bool, pre: bool, o: Outcome,
                     outs: seq<Outcome>, stopped: bool)
    requires Fits(c, outs, stopped) && c.pc.Exchange?
    ensures Fits(Move(id, c, cl, tok, admits, pre, o).call, outs + [o], stopped)
  {
    assert (outs + [o])[..|outs|] == outs;
  }

  lemma OtherFits(id: CallId, c: Call, cl: Client, tok: bool, admits: bool, pre: bool, o: Outcome,
                  outs: seq<Outcome>, stopped: bool)
    requires Fits(c, outs, stopped) && !c.pc.Exchange?
    requires !(c.pc.LatchLoad? || c.pc.Preflight? || c.pc.LatchStore? || c.pc.LoadHard? || c.pc.LoadSoft? || c.pc.LoadToken?)
    ensures Fits(Move(id, c, cl, tok, admits, pre, o).call, outs, stopped)
  {
  }

  // ---- over every run ----

  /** The record that a call at this point has filed. */
  function Filed(pc: Pc): Option<B.Op> {
    if pc.Release? && pc.fate.Recorded? then Some(pc.fate.op)
    else if pc.Returned? && pc.fate.Recorded? then Some(pc.fate.op)
    else None
  }

  predicate Booked(s: Sys, id: CallId, outs: seq<Outcome>, stopped: bool) {
    if id in s.calls
    then Fits(s.calls[id], outs, stopped) && RecordOf(s.log, id) == Filed(s.calls[id].pc)
    else outs == [] && !stopped && RecordOf(s.log, id) == None
  }

  lemma RecordGrows(log: seq<(B.Event, CallId)>, ev: B.Event, who: CallId, id: CallId)
    ensures RecordOf(log + [(ev, who)], id) == if who == id && ev.op != B.Allow then Some(ev.op) else RecordOf(log, id)
  {
    assert (log + [(ev, who)])[..|log|] == log;
  }

  /** A move files what it says, and otherwise leaves what was filed. */
  predicate FilesAsMoved(c: Call, m: Moved) {
    Filed(m.call.pc) == if m.op.Some? && m.op.value != B.Allow then m.op else Filed(c.pc)
  }

  lemma MoveFiles(id: CallId, c: Call, cl: Client, tok: bool, admits: bool, pre: bool, o: Outcome)
    requires O.WellPlaced(c)
    ensures FilesAsMoved(c, Move(id, c, cl, tok, admits, pre, o))
  {
    if c.pc.LatchLoad? || c.pc.Preflight? || c.pc.LatchStore? {
      LatchFiles(id, c, cl, tok, admits, pre, o);
    } else if c.pc.LoadHard? || c.pc.LoadSoft? || c.pc.LoadToken? {
      CheckFiles(id, c, cl, tok, admits, pre, o);
    } else {
      OtherFiles(id, c, cl, tok, admits, pre, o);
    }
  }

  lemma LatchFiles(id: CallId, c: Call, cl: Client, tok: bool, admits: bool, pre: bool, o: Outcome)
    requires c.pc.LatchLoad? || c.pc.Preflight? || c.pc.LatchStore?
    ensures FilesAsMoved(c, Move(id, c, cl, tok, admits, pre, o))
  {
  }

  lemma CheckFiles(id: CallId, c: Call, cl: Client, tok: bool, admits: bool, pre: bool, o: Outcome)
    requires c.pc.LoadHard? || c.pc.LoadSoft? || c.pc.LoadToken?
    ensures FilesAsMoved(c, Move(id, c, cl, tok, admits, pre, o))
  {
  }

  lemma OtherFiles(id: CallId, c: Call, cl: Client, tok: bool, admits: bool, pre: bool, o: Outcome)
    requires O.WellPlaced(c)
    requires !(c.pc.LatchLoad? || c.pc.Preflight? || c.pc.LatchStore? || c.pc.LoadHard? || c.pc.LoadSoft? || c.pc.LoadToken?)
    ensures FilesAsMoved(c, Move(id, c, cl, tok, admits, pre, o))
  {
  }

  /** The system after a step, as `id` sees it. */
  lemma AppliedBooks(cfg: B.Config, s: Sys, who: CallId, m: Moved, id: CallId,
                     outs: seq<Outcome>, stopped: bool, outs': seq<Outcome>, stopped': bool)
    requires CanStep(s, who) && Booked(s, id, outs, stopped) && FilesAsMoved(s.calls[who], m)
    requires if who == id then Fits(m.call, outs', stopped') else outs' == outs && stopped' == stopped
    ensures Booked(Applied(cfg, s, who, m), id, outs', stopped')
  {
    if m.op.Some? { RecordGrows(s.log, B.Event(m.op.value, s.now), who, id); }
  }

  lemma StepFits(cfg: B.Config, s: Sys, a: Action, outs: seq<Outcome>, stopped: bool)
    requires a.Step? && CanStep(s, a.id) && Fits(s.calls[a.id], outs, stopped)
    ensures
      var c := s.calls[a.id];
      Fits(MoveOf(cfg, s, a.id, a.preflightOk, a.outcome).call,
           if c.pc.Exchange? then outs + [a.outcome] else outs,
           stopped || StopsAt(c, s.clients[c.client], TokenCancelled(s, c), a.preflightOk))
  {
    var c := s.calls[a.id];
    var (cl, tok, admits) := (s.clients[c.client], TokenCancelled(s, c), B.Admits(cfg, s.breaker, s.now));
    if c.pc.LatchLoad? || c.pc.Preflight? || c.pc.LatchStore? {
      LatchFits(a.id, c, cl, tok, admits, a.preflightOk, a.outcome, outs, stopped);
    } else if c.pc.LoadHard? || c.pc.LoadSoft? || c.pc.LoadToken? {
      CheckFits(a.id, c, cl, tok, admits, a.preflightOk, a.outcome, outs, stopped);
    } else if c.pc.Exchange? {
      ExchangeFits(a.id, c, cl, tok, admits, a.preflightOk, a.outcome, outs, stopped);
    } else {
      OtherFits(a.id, c, cl, tok, admits, a.preflightOk, a.outcome, outs, stopped);
    }
  }

  lemma StepBooks(cfg: B.Config, s: Sys, a: Action, id: CallId, outs: seq<Outcome>, stopped: bool)
    requires a.Step? && CanStep(s, a.id) && O.WellPlaced(s.calls[a.id]) && Booked(s, id, outs, stopped)
    ensures
      var c := s.calls[a.id];
      var stops := a.id == id && StopsAt(c, s.clients[c.client], TokenCancelled(s, c), a.preflightOk);
      Booked(Next(cfg, s, a), id, if a.id == id && c.pc.Exchange? then outs + [a.outcome] else outs, stopped || stops)
  {
    var c := s.calls[a.id];
    var (cl, tok, admits) := (s.clients[c.client], TokenCancelled(s, c), B.Admits(cfg, s.breaker, s.now));
    MoveFiles(a.id, c, cl, tok, admits, a.preflightOk, a.outcome);
    var m := MoveOf(cfg, s, a.id, a.preflightOk, a.outcome);
    if a.id == id {
      StepFits(cfg, s, a, outs, stopped);
      AppliedBooks(cfg, s, id, m, id, outs, stopped, if c.pc.Exchange? then outs + [a.outcome] else outs,
                   stopped || StopsAt(c, cl, tok, a.preflightOk));
    } else {
      AppliedBooks(cfg, s, a.id, m, id, outs, stopped, outs, stopped);
    }
  }

  lemma QuietBooks(cfg: B.Config, s: Sys, a: Action, id: CallId, outs: seq<Outcome>, stopped: bool)
    requires !(a.Step? && CanStep(s, a.id)) && Booked(s, id, outs, stopped)
    ensures Booked(Next(cfg, s, a), id, outs, stopped)
  {
  }

  lemma {:induction false} RunBooks(cfg: B.Config, s0: Sys, acts: seq<Action>, id: CallId)
    requires Initial(s0)
    ensures Booked(Run(cfg, s0, acts), id, Outcomes(cfg, s0, acts, id), Stopped(cfg, s0, acts, id))
  {
    if acts != [] {
      var (p, a) := (acts[..|acts| - 1], acts[|acts| - 1]);
      RunBooks(cfg, s0, p, id);
      var (s, outs, stopped) := (Run(cfg, s0, p), Outcomes(cfg, s0, p, id), Stopped(cfg, s0, p, id));
      if a.Step? && CanStep(s, a.id) {
        O.InitialInv(cfg, s0);
        O.RunKeepsInv(cfg, s0, p);
        assert O.AccountOf(s, a.id);
        StepBooks(cfg, s, a, id, outs, stopped);
      } else {
        QuietBooks(cfg, s, a, id, outs, stopped);
      }
    }
  }

  // ---- main results ----

  /** What the breaker is told is what happened: success if and only if an exchange was
      answered, failure if and only if the last one failed for good, abandoned if and only if
      a check of the call's own stopped it. Every exchange but the last could be retried. A
      call that is through and was answered, failed for good or was stopped has said so. */
  predicate Truthful(s: Sys, id: CallId, outs: seq<Outcome>, stopped: bool) {
    id in s.calls ==>
      var (c, record) := (s.calls[id], RecordOf(s.log, id));
      && |outs| <= MaxAttempts(c.kind) && (outs != [] ==> AllRetryable(c.kind, outs[..|outs| - 1]))
      && (record.Some? ==>
            && (record.value == B.Success <==> Answered in outs)
            && (record.value == B.Failure <==> FailedForGood(c.kind, outs))
            && (record.value == B.Abandoned <==> stopped))
      && (c.pc.Returned? && (Answered in outs || FailedForGood(c.kind, outs) || stopped) ==> record.Some?)
  }

  lemma AnsweredIsLast(kind: Kind, outs: seq<Outcome>)
    requires outs != [] ==> AllRetryable(kind, outs[..|outs| - 1])
    ensures Answered in outs <==> outs != [] && outs[|outs| - 1] == Answered
  {
    if outs != [] && outs[|outs| - 1] != Answered {
      forall i | 0 <= i < |outs| ensures outs[i] != Answered {
        if i < |outs| - 1 { assert Retryable(kind, outs[..|outs| - 1][i]); }
      }
    }
  }

  lemma BookedIsTruthful(s: Sys, id: CallId, outs: seq<Outcome>, stopped: bool)
    requires Booked(s, id, outs, stopped) && O.AccountOf(s, id)
    ensures Truthful(s, id, outs, stopped)
  {
    if id in s.calls { AnsweredIsLast(s.calls[id].kind, outs); }
  }

  lemma RecordsAreTruthful(cfg: B.Config, s0: Sys, acts: seq<Action>, id: CallId)
    requires Initial(s0)
    ensures Truthful(Run(cfg, s0, acts), id, Outcomes(cfg, s0, acts, id), Stopped(cfg, s0, acts, id))
  {
    RunBooks(cfg, s0, acts, id);
    O.InitialInv(cfg, s0);
    O.RunKeepsInv(cfg, s0, acts);
    assert O.AccountOf(Run(cfg, s0, acts), id);
    BookedIsTruthful(Run(cfg, s0, acts), id, Outcomes(cfg, s0, acts, id), Stopped(cfg, s0, acts, id));
  }

  // ---- a cancelled token ----

  /** The call has not passed its last check for the coming attempt and has nothing to report. */
  predicate BeforeCheck(pc: Pc) {
    !pc.Exchange? && !pc.Report? && !pc.Release? && !pc.Returned?
  }

  /** The call is before a check, or has been given up. */
  predicate GivesUp(pc: Pc) {
    || BeforeCheck(pc) || pc == Report(B.Abandoned)
    || pc == Release(Recorded(B.Abandoned))
    || (pc.Returned? && pc.fate in {CancelledAtEntry, Rejected, Offline, Recorded(B.Abandoned)})
  }

  lemma LatchGivesUp(id: CallId, c: Call, cl: Client, admits: bool, pre: bool, o: Outcome)
    requires GivesUp(c.pc)
    requires c.pc.LatchLoad? || c.pc.Preflight? || c.pc.LatchStore? || c.pc.LoadHard? || c.pc.LoadSoft? || c.pc.LoadToken?
    ensures GivesUp(Move(id, c, cl, true, admits, pre, o).call.pc)
  {
  }

  lemma OtherGivesUp(id: CallId, c: Call, cl: Client, admits: bool, pre: bool, o: Outcome)
    requires GivesUp(c.pc)
    requires !(c.pc.LatchLoad? || c.pc.Preflight? || c.pc.LatchStore? || c.pc.LoadHard? || c.pc.LoadSoft? || c.pc.LoadToken?)
    ensures GivesUp(Move(id, c, cl, true, admits, pre, o).call.pc)
  {
  }

  /** What a call with a cancelled token may still become. */
  ghost predicate WindingDown(s: Sys, id: CallId) {
    && id in s.calls && TokenCancelled(s, s.calls[id]) && GivesUp(s.calls[id].pc)
  }

  lemma StaysWindingDown(cfg: B.Config, s: Sys, a: Action, id: CallId)
    requires WindingDown(s, id)
    ensures WindingDown(Next(cfg, s, a), id)
  {
    if a.Step? && CanStep(s, a.id) {
      var c := s.calls[a.id];
      var (cl, tok, admits) := (s.clients[c.client], TokenCancelled(s, c), B.Admits(cfg, s.breaker, s.now));
      SameToken(a.id, c, cl, tok, admits, a.preflightOk, a.outcome);
      if a.id == id {
        if c.pc.LatchLoad? || c.pc.Preflight? || c.pc.LatchStore? || c.pc.LoadHard? || c.pc.LoadSoft? || c.pc.LoadToken? {
          LatchGivesUp(id, c, cl, admits, a.preflightOk, a.outcome);
        } else {
          OtherGivesUp(id, c, cl, admits, a.preflightOk, a.outcome);
        }
      }
    }
  }

  lemma SameToken(id: CallId, c: Call, cl: Client, tok: bool, admits: bool, pre: bool, o: Outcome)
    ensures Move(id, c, cl, tok, admits, pre, o).call.token == c.token
  {
  }

  lemma OneMore(acts: seq<Action>, more: seq<Action>)
    requires more != []
    ensures
      var p := acts + more[..|more| - 1];
      acts + more != [] && (acts + more)[..|acts + more| - 1] == p && (acts + more)[|acts + more| - 1] == more[|more| - 1]
  {
  }

  lemma {:induction false} RunWindsDown(cfg: B.Config, s0: Sys, acts: seq<Action>, more: seq<Action>, id: CallId)
    requires WindingDown(Run(cfg, s0, acts), id)
    ensures WindingDown(Run(cfg, s0, acts + more), id)
    ensures Outcomes(cfg, s0, acts + more, id) == Outcomes(cfg, s0, acts, id)
    decreases |more|
  {
    if more == [] {
      assert acts + more == acts;
    } else {
      var (p, a) := (more[..|more| - 1], more[|more| - 1]);
      RunWindsDown(cfg, s0, acts, p, id);
      OneMore(acts, more);
      StaysWindingDown(cfg, Run(cfg, s0, acts + p), a, id);
    }
  }

  /** Once its token is cancelled a call makes no further exchange: whatever happens, unless it
      was already at one or about to report, it reports nothing but that it was abandoned. */
  lemma TokenStopsCall(cfg: B.Config, s0: Sys, acts: seq<Action>, more: seq<Action>, id: CallId)
    requires
      var s := Run(cfg, s0, acts);
      Initial(s0) && id in s.calls && TokenCancelled(s, s.calls[id]) && BeforeCheck(s.calls[id].pc)
    ensures Outcomes(cfg, s0, acts + more, id) == Outcomes(cfg, s0, acts, id)
    ensures RecordOf(Run(cfg, s0, acts + more).log, id) in {None, Some(B.Abandoned)}
  {
    RunWindsDown(cfg, s0, acts, more, id);
    RunBooks(cfg, s0, acts + more, id);
  }

  lemma LatchStaysAway(id: CallId, c: Call, cl: Client, admits: bool, pre: bool, o: Outcome)
    requires c.pc.LatchLoad? || c.pc.Preflight? || c.pc.LatchStore? || c.pc.LoadHard? || c.pc.LoadSoft? || c.pc.LoadToken?
    ensures !Move(id, c, cl, true, admits, pre, o).call.pc.Exchange?
  {
  }

  lemma OtherStaysAway(id: CallId, c: Call, cl: Client, admits: bool, pre: bool, o: Outcome)
    requires !(c.pc.LatchLoad? || c.pc.Preflight? || c.pc.LatchStore? || c.pc.LoadHard? || c.pc.LoadSoft? || c.pc.LoadToken?)
    ensures !Move(id, c, cl, true, admits, pre, o).call.pc.Exchange?
  {
  }

  /** A step of a call with a cancelled token never leads to an exchange. */
  lemma StepsAwayFromExchange(cfg: B.Config, s: Sys, a: Action, id: CallId)
    requires id in s.calls && TokenCancelled(s, s.calls[id])
    ensures
      var t := Next(cfg, s, a);
      && id in t.calls && TokenCancelled(t, t.calls[id])
      && (t.calls[id].pc.Exchange? ==> s.calls[id].pc.Exchange? && !StepsNow(s, a, id))
  {
    if a.Step? && CanStep(s, a.id) {
      var c := s.calls[a.id];
      var (cl, tok, admits) := (s.clients[c.client], TokenCancelled(s, c), B.Admits(cfg, s.breaker, s.now));
      SameToken(a.id, c, cl, tok, admits, a.preflightOk, a.outcome);
      if a.id == id {
        if c.pc.LatchLoad? || c.pc.Preflight? || c.pc.LatchStore? || c.pc.LoadHard? || c.pc.LoadSoft? || c.pc.LoadToken? {
          LatchStaysAway(id, c, cl, admits, a.preflightOk, a.outcome);
        } else {
          OtherStaysAway(id, c, cl, admits, a.preflightOk, a.outcome);
        }
      }
    }
  }

  /** Wherever it was when its token was cancelled, a call makes at most the exchange it was at. */
  lemma {:induction false} TokenLeavesOneExchange(cfg: B.Config, s0: Sys, acts: seq<Action>, more: seq<Action>, id: CallId)
    requires
      var s := Run(cfg, s0, acts);
      id in s.calls && TokenCancelled(s, s.calls[id])
    ensures
      var (s, t) := (Run(cfg, s0, acts), Run(cfg, s0, acts + more));
      && id in t.calls && TokenCancelled(t, t.calls[id])
      && |Outcomes(cfg, s0, acts + more, id)| + (if t.calls[id].pc.Exchange? then 1 else 0)
           <= |Outcomes(cfg, s0, acts, id)| + (if s.calls[id].pc.Exchange? then 1 else 0)
    decreases |more|
  {
    if more == [] {
      assert acts + more == acts;
    } else {
      var (p, a) := (more[..|more| - 1], more[|more| - 1]);
      TokenLeavesOneExchange(cfg, s0, acts, p, id);
      OneMore(acts, more);
      StepsAwayFromExchange(cfg, Run(cfg, s0, acts + p), a, id);
    }
  }
}
