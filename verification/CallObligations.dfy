/** What every run of the call protocol keeps between the callers and the breaker: each
    admitted call answers to the breaker exactly once, and a half-open breaker always has
    the call that is probing it. */
module CallObligations {
  import opened Common
  import opened CallProtocol
  import B = CircuitBreaker

  // ---- where a call stands towards the breaker ----

  /** Fresh: has not asked, or was cancelled before asking. TurnedAway: asked and refused.
      Owing: admitted and still to report. Leaked: admitted and never going to report.
      Settled: reported. */
  datatype Standing = Fresh | TurnedAway | Owing | Leaked | Settled

  function LatchStanding(l: Latch): Standing {
    if l.AtEntry? then Fresh else Owing
  }

  function FateStanding(f: Fate): Standing {
    match f
    case CancelledAtEntry => Fresh
    case Rejected => TurnedAway
    case Offline => Leaked
    case Escaped => Leaked
    case Recorded(_) => Settled
  }

  function StandingAt(pc: Pc): Standing {
    match pc
    case LatchLoad(l) => LatchStanding(l)
    case Preflight(l) => LatchStanding(l)
    case LatchStore(l) => LatchStanding(l)
    case ClearSoft => Fresh
    case AskBreaker => Fresh
    case Release(f) => FateStanding(f)
    case Returned(f) => FateStanding(f)
    case _ => Owing
  }

  /** The two ways to leak: the offline short-circuit, and an exception that stream() does
      not catch. */
  predicate WellPlaced(c: Call) {
    && (c.pc.Report? ==> c.pc.op != B.Allow)
    && (c.pc.Release? ==> c.pc.fate.Recorded? || c.pc.fate.Escaped?)
    && (c.pc == Returned(Offline) ==> c.offline)
    && (c.pc == Release(Escaped) || c.pc == Returned(Escaped) ==> c.kind == Stream)
  }

  // ---- what the log says about one call ----

  function RecordsBy(log: seq<(B.Event, CallId)>, id: CallId): nat {
    if log == [] then 0
    else
      var (ev, who) := log[|log| - 1];
      RecordsBy(log[..|log| - 1], id) + if who == id && ev.op != B.Allow then 1 else 0
  }

  function AsksBy(log: seq<(B.Event, CallId)>, id: CallId): nat {
    if log == [] then 0
    else
      var (ev, who) := log[|log| - 1];
      AsksBy(log[..|log| - 1], id) + if who == id && ev.op == B.Allow then 1 else 0
  }

  lemma LogGrows(log: seq<(B.Event, CallId)>, ev: B.Event, who: CallId, id: CallId)
    ensures RecordsBy(log + [(ev, who)], id) == RecordsBy(log, id) + if who == id && ev.op != B.Allow then 1 else 0
    ensures AsksBy(log + [(ev, who)], id) == AsksBy(log, id) + if who == id && ev.op == B.Allow then 1 else 0
    ensures Events(log + [(ev, who)]) == Events(log) + [ev]
  {
    assert (log + [(ev, who)])[..|log|] == log;
  }

  // ---- the invariant ----

  ghost predicate BreakerFollowsLog(cfg: B.Config, s: Sys) {
    && s.breaker == B.Replay(cfg, Events(s.log))
    && B.UpTo(Events(s.log), s.now)
  }

  predicate AccountOf(s: Sys, id: CallId) {
    if id in s.calls then
      var st := StandingAt(s.calls[id].pc);
      && WellPlaced(s.calls[id])
      && RecordsBy(s.log, id) == (if st == Settled then 1 else 0)
      && AsksBy(s.log, id) == (if st == Fresh then 0 else 1)
    else
      RecordsBy(s.log, id) == 0 && AsksBy(s.log, id) == 0
  }

  predicate ProbeKnown(s: Sys) {
    s.breaker.state == B.HalfOpen ==>
      && s.probe.Some? && s.probe.value in s.calls
      && var st := StandingAt(s.calls[s.probe.value].pc);
         st == Owing || st == Leaked
  }

  ghost predicate Inv(cfg: B.Config, s: Sys) {
    && BreakerFollowsLog(cfg, s)
    && ProbeKnown(s)
    && forall id: CallId :: AccountOf(s, id)
  }

  /** A move without a breaker call keeps the call's standing, unless it leaks; the two
      kinds of breaker call change it. */
  predicate KeepsPlace(c: Call, m: Moved, admits: bool) {
    && WellPlaced(m.call)
    && m.call.client == c.client && m.call.kind == c.kind && m.call.offline == c.offline && m.call.token == c.token
    && var (before, after) := (StandingAt(c.pc), StandingAt(m.call.pc));
       match m.op
       case None => after == before || (before == Owing && after == Leaked)
       case Some(Allow) => before == Fresh && after == if admits then Owing else TurnedAway
       case Some(_) => before == Owing && after == Settled
  }

  lemma LatchKeepsPlace(id: CallId, c: Call, cl: Client, tok: bool, admits: bool, pre: bool, o: Outcome)
    requires WellPlaced(c) && (c.pc.LatchLoad? || c.pc.Preflight? || c.pc.LatchStore?)
    ensures KeepsPlace(c, Move(id, c, cl, tok, admits, pre, o), admits)
  {
  }

  lemma CheckKeepsPlace(id: CallId, c: Call, cl: Client, tok: bool, admits: bool, pre: bool, o: Outcome)
    requires WellPlaced(c) && (c.pc.LoadHard? || c.pc.LoadSoft? || c.pc.LoadToken?)
    ensures KeepsPlace(c, Move(id, c, cl, tok, admits, pre, o), admits)
  {
  }

  lemma LeaseKeepsPlace(id: CallId, c: Call, cl: Client, tok: bool, admits: bool, pre: bool, o: Outcome)
    requires WellPlaced(c) && (c.pc.LockPool? || c.pc.TestPool? || c.pc.Parked? || c.pc.TakeConn?)
    ensures KeepsPlace(c, Move(id, c, cl, tok, admits, pre, o), admits)
  {
  }

  lemma ExchangeKeepsPlace(id: CallId, c: Call, cl: Client, tok: bool, admits: bool, pre: bool, o: Outcome)
    requires WellPlaced(c) && (c.pc.Exchange?)
    ensures KeepsPlace(c, Move(id, c, cl, tok, admits, pre, o), admits)
  {
  }

  lemma EndsKeepPlace(id: CallId, c: Call, cl: Client, tok: bool, admits: bool, pre: bool, o: Outcome)
    requires WellPlaced(c) && (c.pc in {ClearSoft, AskBreaker, OfflineCheck} || c.pc.Report? || c.pc.Release? || c.pc.Returned?)
    ensures KeepsPlace(c, Move(id, c, cl, tok, admits, pre, o), admits)
  {
  }

  lemma StepKeepsPlace(cfg: B.Config, s: Sys, id: CallId, pre: bool, o: Outcome)
    requires CanStep(s, id) && WellPlaced(s.calls[id])
    ensures KeepsPlace(s.calls[id], MoveOf(cfg, s, id, pre, o), B.Admits(cfg, s.breaker, s.now))
  {
    var c := s.calls[id];
    var (cl, tok, admits) := (s.clients[c.client], TokenCancelled(s, c), B.Admits(cfg, s.breaker, s.now));
    match c.pc {
      case LatchLoad(_) | Preflight(_) | LatchStore(_) => LatchKeepsPlace(id, c, cl, tok, admits, pre, o);
      case LoadHard(_) | LoadSoft(_) | LoadToken(_) => CheckKeepsPlace(id, c, cl, tok, admits, pre, o);
      case LockPool | TestPool | Parked | TakeConn => LeaseKeepsPlace(id, c, cl, tok, admits, pre, o);
      case Exchange(_) => ExchangeKeepsPlace(id, c, cl, tok, admits, pre, o);
      case _ => EndsKeepPlace(id, c, cl, tok, admits, pre, o);
    }
  }

  lemma AppliedKeepsAccount(cfg: B.Config, s: Sys, who: CallId, m: Moved, id: CallId)
    requires CanStep(s, who) && AccountOf(s, who) && AccountOf(s, id)
    requires KeepsPlace(s.calls[who], m, B.Admits(cfg, s.breaker, s.now))
    ensures AccountOf(Applied(cfg, s, who, m), id)
  {
    if m.op.Some? {
      LogGrows(s.log, B.Event(m.op.value, s.now), who, id);
    }
  }

  lemma BreakerCallFollowsLog(cfg: B.Config, s: Sys, id: CallId, op: B.Op)
    requires BreakerFollowsLog(cfg, s)
    ensures BreakerFollowsLog(cfg, BreakerCall(cfg, s, id, op))
  {
    var ev := B.Event(op, s.now);
    LogGrows(s.log, ev, id, id);
    B.Extended(cfg, Events(s.log), ev);
  }

  lemma AppliedKeepsProbe(cfg: B.Config, s: Sys, who: CallId, m: Moved)
    requires CanStep(s, who) && ProbeKnown(s)
    requires s.breaker.probeInFlight <==> s.breaker.state == B.HalfOpen
    requires KeepsPlace(s.calls[who], m, B.Admits(cfg, s.breaker, s.now))
    ensures ProbeKnown(Applied(cfg, s, who, m))
  {
  }

  lemma AppliedFollowsLog(cfg: B.Config, s: Sys, who: CallId, m: Moved)
    requires BreakerFollowsLog(cfg, s)
    ensures BreakerFollowsLog(cfg, Applied(cfg, s, who, m))
  {
    if m.op.Some? { BreakerCallFollowsLog(cfg, s, who, m.op.value); }
  }

  lemma AppliedKeepsInv(cfg: B.Config, s: Sys, who: CallId, m: Moved)
    requires CanStep(s, who) && Inv(cfg, s)
    requires KeepsPlace(s.calls[who], m, B.Admits(cfg, s.breaker, s.now))
    ensures Inv(cfg, Applied(cfg, s, who, m))
  {
    forall id: CallId ensures AccountOf(Applied(cfg, s, who, m), id) {
      assert AccountOf(s, who) && AccountOf(s, id);
      AppliedKeepsAccount(cfg, s, who, m, id);
    }
    AppliedFollowsLog(cfg, s, who, m);
    B.EntryInvariant(cfg, Events(s.log));
    AppliedKeepsProbe(cfg, s, who, m);
  }

  lemma NextKeepsInv(cfg: B.Config, s: Sys, a: Action)
    requires Inv(cfg, s)
    ensures Inv(cfg, Next(cfg, s, a))
  {
    if a.Step? && CanStep(s, a.id) {
      assert AccountOf(s, a.id);
      StepKeepsPlace(cfg, s, a.id, a.preflightOk, a.outcome);
      AppliedKeepsInv(cfg, s, a.id, MoveOf(cfg, s, a.id, a.preflightOk, a.outcome));
    } else {
      QuietKeepsInv(cfg, s, a);
    }
  }

  /** Actions other than a call's own step leave the breaker, its log and the running
      calls alone. */
  lemma UntouchedKeepsInv(cfg: B.Config, s: Sys, s': Sys)
    requires Inv(cfg, s)
    requires s'.breaker == s.breaker && s'.log == s.log && s'.probe == s.probe && s'.now >= s.now
    requires forall id :: id in s.calls ==> id in s'.calls && s'.calls[id] == s.calls[id]
    requires forall id :: id in s'.calls && id !in s.calls ==> s'.calls[id].pc == LatchLoad(AtEntry)
    ensures Inv(cfg, s')
  {
    forall id: CallId ensures AccountOf(s', id) {
      assert AccountOf(s, id);
    }
  }

  lemma QuietKeepsInv(cfg: B.Config, s: Sys, a: Action)
    requires Inv(cfg, s)
    requires !(a.Step? && CanStep(s, a.id))
    ensures Inv(cfg, Next(cfg, s, a))
  {
    UntouchedKeepsInv(cfg, s, Next(cfg, s, a));
  }

  lemma {:induction false} RunKeepsInv(cfg: B.Config, s: Sys, acts: seq<Action>)
    requires Inv(cfg, s)
    ensures Inv(cfg, Run(cfg, s, acts))
  {
    if acts != [] {
      RunKeepsInv(cfg, s, acts[..|acts| - 1]);
      NextKeepsInv(cfg, Run(cfg, s, acts[..|acts| - 1]), acts[|acts| - 1]);
    }
  }

  lemma InitialInv(cfg: B.Config, s: Sys)
    requires Initial(s)
    ensures Inv(cfg, s)
  {
  }

  // ---- main results ----

  /** In every run the breaker's entry is the replay of the logged calls, so everything
      proved about histories holds of the shared breaker, the admission bound included. */
  lemma BreakerIsReplay(cfg: B.Config, s0: Sys, acts: seq<Action>, opening: nat)
    requires Initial(s0)
    ensures
      var s := Run(cfg, s0, acts);
      var h := Events(s.log);
      && s.breaker == B.Replay(cfg, h)
      && (s.breaker.probeInFlight <==> s.breaker.state == B.HalfOpen)
      && (B.OpenSince(cfg, h, opening) ==>
            B.AdmittedFrom(cfg, h, opening + 1) * B.CooldownTicks(cfg) <= s.now - h[opening].at)
  {
    InitialInv(cfg, s0);
    RunKeepsInv(cfg, s0, acts);
    var s := Run(cfg, s0, acts);
    var h := Events(s.log);
    B.EntryInvariant(cfg, h);
    if B.OpenSince(cfg, h, opening) {
      B.AdmissionBound(cfg, h, opening, s.now);
    }
  }

  // ---- which probes report ----

  /** An offline call never gets past the offline check. */
  predicate OfflineStops(c: Call) {
    c.offline ==> StandingAt(c.pc) in {Fresh, TurnedAway} || c.pc == OfflineCheck || c.pc == Returned(Offline)
  }

  predicate HasEscaped(c: Call) {
    c.pc == Release(Escaped) || c.pc == Returned(Escaped)
  }

  /** The action by which `id`, a stream, is left by an exception it does not catch. */
  predicate EscapesBy(s: Sys, a: Action, id: CallId) {
    && a.Step? && a.id == id && CanStep(s, id)
    && s.calls[id].pc.Exchange? && s.calls[id].kind == Stream && a.outcome == ForeignThrow
  }

  ghost predicate EscapedIn(cfg: B.Config, s0: Sys, acts: seq<Action>, id: CallId) {
    exists n: nat :: n < |acts| && EscapesBy(Run(cfg, s0, acts[..n]), acts[n], id)
  }

  lemma EscapedInGrows(cfg: B.Config, s0: Sys, p: seq<Action>, a: Action, id: CallId)
    ensures EscapedIn(cfg, s0, p + [a], id) <==> EscapedIn(cfg, s0, p, id) || EscapesBy(Run(cfg, s0, p), a, id)
  {
    var acts := p + [a];
    assert acts[..|p|] == p;
    forall n: nat | n < |p| ensures acts[..n] == p[..n] {}
    if EscapedIn(cfg, s0, p, id) {
      var n: nat :| n < |p| && EscapesBy(Run(cfg, s0, p[..n]), p[n], id);
      assert EscapesBy(Run(cfg, s0, acts[..n]), acts[n], id);
    }
    if EscapesBy(Run(cfg, s0, p), a, id) {
      assert EscapesBy(Run(cfg, s0, acts[..|p|]), acts[|p|], id);
    }
  }

  /** How a move bears on the two ways out. */
  predicate ExitMove(c: Call, m: Moved, o: Outcome) {
    && (OfflineStops(c) ==> OfflineStops(m.call))
    && (HasEscaped(m.call) <==> HasEscaped(c) || (c.pc.Exchange? && c.kind == Stream && o == ForeignThrow))
  }

  lemma LatchExitMove(id: CallId, c: Call, cl: Client, tok: bool, admits: bool, pre: bool, o: Outcome)
    requires c.pc.LatchLoad? || c.pc.Preflight? || c.pc.LatchStore? || c.pc.LoadHard? || c.pc.LoadSoft? || c.pc.LoadToken?
    ensures ExitMove(c, Move(id, c, cl, tok, admits, pre, o), o)
  {
  }

  lemma OtherExitMove(id: CallId, c: Call, cl: Client, tok: bool, admits: bool, pre: bool, o: Outcome)
    requires !(c.pc.LatchLoad? || c.pc.Preflight? || c.pc.LatchStore? || c.pc.LoadHard? || c.pc.LoadSoft? || c.pc.LoadToken?)
    ensures ExitMove(c, Move(id, c, cl, tok, admits, pre, o), o)
  {
  }

  lemma StepExitMove(cfg: B.Config, s: Sys, id: CallId, pre: bool, o: Outcome)
    requires CanStep(s, id)
    ensures ExitMove(s.calls[id], MoveOf(cfg, s, id, pre, o), o)
  {
    var c := s.calls[id];
    var (cl, tok, admits) := (s.clients[c.client], TokenCancelled(s, c), B.Admits(cfg, s.breaker, s.now));
    if c.pc.LatchLoad? || c.pc.Preflight? || c.pc.LatchStore? || c.pc.LoadHard? || c.pc.LoadSoft? || c.pc.LoadToken? {
      LatchExitMove(id, c, cl, tok, admits, pre, o);
    } else {
      OtherExitMove(id, c, cl, tok, admits, pre, o);
    }
  }

  /** What a run knows about the exits of `id`. */
  predicate ExitKnown(s: Sys, id: CallId, escaped: bool) {
    if id in s.calls then OfflineStops(s.calls[id]) && (HasEscaped(s.calls[id]) <==> escaped) else !escaped
  }

  lemma AppliedKnowsExit(cfg: B.Config, s: Sys, who: CallId, m: Moved, o: Outcome, id: CallId, escaped: bool)
    requires CanStep(s, who) && ExitMove(s.calls[who], m, o) && ExitKnown(s, id, escaped)
    ensures
      var now := who == id && s.calls[id].pc.Exchange? && s.calls[id].kind == Stream && o == ForeignThrow;
      ExitKnown(Applied(cfg, s, who, m), id, escaped || now)
  {
  }

  lemma QuietKnowsExit(cfg: B.Config, s: Sys, a: Action, id: CallId, escaped: bool)
    requires !(a.Step? && CanStep(s, a.id)) && ExitKnown(s, id, escaped)
    ensures ExitKnown(Next(cfg, s, a), id, escaped)
  {
  }

  lemma {:induction false} RunKnowsExit(cfg: B.Config, s0: Sys, acts: seq<Action>, id: CallId)
    requires Initial(s0)
    ensures ExitKnown(Run(cfg, s0, acts), id, EscapedIn(cfg, s0, acts, id))
  {
    if acts != [] {
      var (p, a) := (acts[..|acts| - 1], acts[|acts| - 1]);
      assert acts == p + [a];
      RunKnowsExit(cfg, s0, p, id);
      EscapedInGrows(cfg, s0, p, a, id);
      var (s, was) := (Run(cfg, s0, p), EscapedIn(cfg, s0, p, id));
      if a.Step? && CanStep(s, a.id) {
        StepExitMove(cfg, s, a.id, a.preflightOk, a.outcome);
        AppliedKnowsExit(cfg, s, a.id, MoveOf(cfg, s, a.id, a.preflightOk, a.outcome), a.outcome, id, was);
      } else {
        QuietKnowsExit(cfg, s, a, id, was);
      }
    }
  }

  // ---- one report per admitted call ----

  /** A call that has returned asked the breaker once, unless its token was cancelled at
      entry, and reported to it exactly once if it was admitted, is online and no exception
      that it does not catch has left it; in every other case it reported not at all. */
  predicate AnsweredOnce(s: Sys, id: CallId, escaped: bool) {
    id in s.calls && s.calls[id].pc.Returned? ==>
      var (c, fate) := (s.calls[id], s.calls[id].pc.fate);
      && AsksBy(s.log, id) == (if fate.CancelledAtEntry? then 0 else 1)
      && RecordsBy(s.log, id) == (if fate.CancelledAtEntry? || fate.Rejected? || c.offline || escaped then 0 else 1)
      && (fate.Recorded? <==> RecordsBy(s.log, id) == 1)
      && (fate.Offline? ==> c.offline) && (fate.Escaped? <==> escaped) && (escaped ==> c.kind == Stream)
  }

  lemma AccountAnswers(s: Sys, id: CallId, escaped: bool)
    requires AccountOf(s, id) && ExitKnown(s, id, escaped)
    ensures AnsweredOnce(s, id, escaped)
  {
  }

  /** Every run answers the breaker exactly once per admitted call. */
  lemma ExactlyOneRecord(cfg: B.Config, s0: Sys, acts: seq<Action>, id: CallId)
    requires Initial(s0)
    ensures AnsweredOnce(Run(cfg, s0, acts), id, EscapedIn(cfg, s0, acts, id))
  {
    InitialInv(cfg, s0);
    RunKeepsInv(cfg, s0, acts);
    RunKnowsExit(cfg, s0, acts, id);
    assert AccountOf(Run(cfg, s0, acts), id);
    AccountAnswers(Run(cfg, s0, acts), id, EscapedIn(cfg, s0, acts, id));
  }

  /** A half-open breaker's probe is a known call. Past the offline check it still owes its
      report exactly when it is online and no exception that it does not catch has left it. */
  predicate ProbeOwesExactly(s: Sys, escaped: bool) {
    s.breaker.state == B.HalfOpen ==>
      && s.probe.Some? && s.probe.value in s.calls
      && var c := s.calls[s.probe.value];
         StandingAt(c.pc) == Owing <==> c.pc == OfflineCheck || (!c.offline && !escaped)
  }

  lemma KnownExitsOwe(s: Sys, escaped: bool)
    requires ProbeKnown(s)
    requires s.probe.Some? ==> ExitKnown(s, s.probe.value, escaped) && AccountOf(s, s.probe.value)
    ensures ProbeOwesExactly(s, escaped)
  {
  }

  ghost predicate ProbeEscaped(cfg: B.Config, s0: Sys, acts: seq<Action>) {
    var p := Run(cfg, s0, acts).probe;
    p.Some? && EscapedIn(cfg, s0, acts, p.value)
  }

  /** In every run, whatever mixture of online and offline calls, the half-open breaker's
      probe owes its report if and only if its client is online and it was not left by a
      foreign exception. */
  lemma HalfOpenHasItsProbe(cfg: B.Config, s0: Sys, acts: seq<Action>)
    requires Initial(s0)
    ensures ProbeOwesExactly(Run(cfg, s0, acts), ProbeEscaped(cfg, s0, acts))
  {
    InitialInv(cfg, s0);
    RunKeepsInv(cfg, s0, acts);
    var s := Run(cfg, s0, acts);
    if s.probe.Some? { RunKnowsExit(cfg, s0, acts, s.probe.value); }
    assert s.probe.Some? ==> AccountOf(s, s.probe.value);
    KnownExitsOwe(s, ProbeEscaped(cfg, s0, acts));
  }

  /** The report a half-open breaker is waiting for always takes it out of that state. */
  lemma ReportResolvesProbe(cfg: B.Config, s0: Sys, acts: seq<Action>, a: Action)
    requires Initial(s0)
    requires
      var s := Run(cfg, s0, acts);
      a.Step? && CanStep(s, a.id) && s.calls[a.id].pc.Report?
    ensures Run(cfg, s0, acts + [a]).breaker.state != B.HalfOpen
  {
    InitialInv(cfg, s0);
    RunKeepsInv(cfg, s0, acts);
    assert AccountOf(Run(cfg, s0, acts), a.id);
    assert (acts + [a])[..|acts|] == acts;
  }

  // ---- one offline answer for everybody, and no foreign exception ----

  predicate UniformAction(a: Action, offline: bool) {
    && (a.Start? ==> a.offline == offline)
    && (a.Step? ==> a.outcome != ForeignThrow)
  }

  /** An online call never takes the offline exit; an offline call goes no further. */
  predicate CannotLeak(c: Call, offline: bool) {
    && c.offline == offline
    && c.pc != Release(Escaped) && c.pc != Returned(Escaped)
    && if offline
       then StandingAt(c.pc) in {Fresh, TurnedAway} || c.pc == OfflineCheck || c.pc == Returned(Offline)
       else c.pc != Returned(Offline)
  }

  /** No call leaves without reporting, because either nobody is offline or the breaker is
      never touched by a report at all. */
  ghost predicate NoLeak(s: Sys, offline: bool) {
    && (forall id :: id in s.calls ==> CannotLeak(s.calls[id], offline))
    && (offline ==> s.breaker == B.FRESH)
  }

  lemma OnlineCannotLeak(id: CallId, c: Call, cl: Client, tok: bool, admits: bool, pre: bool, o: Outcome)
    requires WellPlaced(c) && CannotLeak(c, false) && o != ForeignThrow
    ensures
      var m := Move(id, c, cl, tok, admits, pre, o);
      m.call.offline == false && m.call.pc !in {Release(Escaped), Returned(Escaped), Returned(Offline)}
  {
    match c.pc {
      case Exchange(_) =>
      case LoadHard(_) =>
      case LoadSoft(_) =>
      case LoadToken(_) =>
      case _ =>
    }
  }

  lemma OfflineCannotLeak(id: CallId, c: Call, cl: Client, tok: bool, admits: bool, pre: bool, o: Outcome)
    requires WellPlaced(c) && CannotLeak(c, true)
    ensures
      var m := Move(id, c, cl, tok, admits, pre, o);
      CannotLeak(m.call, true) && (m.op.Some? ==> m.op.value == B.Allow)
  {
  }

  lemma AppliedKeepsNoLeak(cfg: B.Config, s: Sys, who: CallId, m: Moved, offline: bool)
    requires CanStep(s, who) && NoLeak(s, offline)
    requires CannotLeak(m.call, offline) && (offline && m.op.Some? ==> m.op.value == B.Allow)
    ensures NoLeak(Applied(cfg, s, who, m), offline)
  {
  }

  lemma NextKeepsNoLeak(cfg: B.Config, s: Sys, a: Action, offline: bool)
    requires Inv(cfg, s) && NoLeak(s, offline) && UniformAction(a, offline)
    ensures NoLeak(Next(cfg, s, a), offline)
  {
    if a.Step? && CanStep(s, a.id) {
      assert AccountOf(s, a.id);
      var c := s.calls[a.id];
      var (cl, tok, admits) := (s.clients[c.client], TokenCancelled(s, c), B.Admits(cfg, s.breaker, s.now));
      if offline {
        OfflineCannotLeak(a.id, c, cl, tok, admits, a.preflightOk, a.outcome);
      } else {
        OnlineCannotLeak(a.id, c, cl, tok, admits, a.preflightOk, a.outcome);
      }
      AppliedKeepsNoLeak(cfg, s, a.id, MoveOf(cfg, s, a.id, a.preflightOk, a.outcome), offline);
    }
  }

  lemma {:induction false} RunKeepsNoLeak(cfg: B.Config, s0: Sys, acts: seq<Action>, offline: bool)
    requires Initial(s0)
    requires forall i :: 0 <= i < |acts| ==> UniformAction(acts[i], offline)
    ensures NoLeak(Run(cfg, s0, acts), offline)
  {
    if acts != [] {
      var p := acts[..|acts| - 1];
      RunKeepsNoLeak(cfg, s0, p, offline);
      InitialInv(cfg, s0);
      RunKeepsInv(cfg, s0, p);
      NextKeepsNoLeak(cfg, Run(cfg, s0, p), acts[|acts| - 1], offline);
    }
  }

  predicate ProbeWillReport(s: Sys) {
    s.breaker.state == B.HalfOpen ==>
      s.probe.Some? && s.probe.value in s.calls && StandingAt(s.calls[s.probe.value].pc) == Owing
  }

  lemma NoLeakProbe(s: Sys, offline: bool)
    requires ProbeKnown(s) && NoLeak(s, offline)
    requires s.probe.Some? ==> AccountOf(s, s.probe.value)
    ensures ProbeWillReport(s)
  {
  }

  /** With one answer to the offline question for all calls and no foreign exception, a
      half-open breaker always has a live call that will report. */
  lemma NeverStranded(cfg: B.Config, s0: Sys, acts: seq<Action>, offline: bool)
    requires Initial(s0)
    requires forall i :: 0 <= i < |acts| ==> UniformAction(acts[i], offline)
    ensures ProbeWillReport(Run(cfg, s0, acts))
  {
    InitialInv(cfg, s0);
    RunKeepsInv(cfg, s0, acts);
    RunKeepsNoLeak(cfg, s0, acts, offline);
    var s := Run(cfg, s0, acts);
    assert s.probe.Some? ==> AccountOf(s, s.probe.value);
    NoLeakProbe(s, offline);
  }

  // ---- what happens otherwise ----

  /** Half-open with nobody left to report. */
  ghost predicate Stranded(s: Sys) {
    && s.breaker.state == B.HalfOpen
    && forall id :: id in s.calls ==> StandingAt(s.calls[id].pc) != Owing
  }

  lemma AppliedKeepsStranded(cfg: B.Config, s: Sys, who: CallId, m: Moved)
    requires CanStep(s, who) && Stranded(s) && s.breaker.probeInFlight
    requires KeepsPlace(s.calls[who], m, B.Admits(cfg, s.breaker, s.now))
    ensures Stranded(Applied(cfg, s, who, m))
  {
  }

  lemma NextKeepsStranded(cfg: B.Config, s: Sys, a: Action)
    requires Inv(cfg, s) && Stranded(s)
    ensures Stranded(Next(cfg, s, a))
  {
    if a.Step? && CanStep(s, a.id) {
      B.EntryInvariant(cfg, Events(s.log));
      assert AccountOf(s, a.id);
      StepKeepsPlace(cfg, s, a.id, a.preflightOk, a.outcome);
      AppliedKeepsStranded(cfg, s, a.id, MoveOf(cfg, s, a.id, a.preflightOk, a.outcome));
    }
  }

  /** A stranded breaker stays stranded through every continuation, and no call that asks
      it later is ever let through. */
  lemma {:induction false} StrandedForever(cfg: B.Config, s: Sys, acts: seq<Action>)
    requires Inv(cfg, s) && Stranded(s)
    ensures
      var s' := Run(cfg, s, acts);
      Stranded(s') && !B.Admits(cfg, s'.breaker, s'.now)
  {
    if acts == [] {
      B.EntryInvariant(cfg, Events(s.log));
    } else {
      var p := acts[..|acts| - 1];
      StrandedForever(cfg, s, p);
      RunKeepsInv(cfg, s, p);
      NextKeepsStranded(cfg, Run(cfg, s, p), acts[|acts| - 1]);
      RunKeepsInv(cfg, s, acts);
      B.EntryInvariant(cfg, Events(Run(cfg, s, acts).log));
    }
  }
}
