/** The per-provider circuit breaker: its step functions on one entry, what every
    history of calls to it guarantees, and the class that keeps one entry per provider.

    Time is counted in steady-clock ticks; a breaker call reads the clock while it
    holds the breaker's mutex, so the times of one entry's calls never decrease. */
module CircuitBreaker {

  const TICKS_PER_SECOND: nat := 1_000_000_000

  datatype Config = Config(failureThreshold: int, cooldownSeconds: int)

  datatype State = Closed | Open | HalfOpen

  datatype Entry = Entry(state: State, consecutiveFailures: nat, openedAt: int, probeInFlight: bool)

  const FRESH: Entry := Entry(Closed, 0, 0, false)

  datatype Op = Allow | Success | Failure | Abandoned

  /** One call of the breaker's interface and the clock value it read. */
  datatype Event = Event(op: Op, at: int)

  /** duration_cast to whole seconds truncates toward zero. */
  function WholeSeconds(ticks: int): int {
    if ticks >= 0 then ticks / TICKS_PER_SECOND else -(-ticks / TICKS_PER_SECOND)
  }

  predicate Admits(cfg: Config, e: Entry, now: int) {
    match e.state
    case Closed => true
    case Open => WholeSeconds(now - e.openedAt) >= cfg.cooldownSeconds
    case HalfOpen => !e.probeInFlight
  }

  function AfterAllow(cfg: Config, e: Entry, now: int): Entry {
    if e.state == Closed || !Admits(cfg, e, now) then e
    else e.(state := HalfOpen, probeInFlight := true)
  }

  function AfterSuccess(e: Entry): Entry {
    var e := e.(consecutiveFailures := 0);
    if e.state == HalfOpen then e.(state := Closed, probeInFlight := false) else e
  }

  function Reopened(e: Entry, now: int): Entry {
    e.(state := Open, openedAt := now, probeInFlight := false)
  }

  function AfterFailure(cfg: Config, e: Entry, now: int): Entry {
    if e.state == HalfOpen then Reopened(e, now)
    else
      var e := e.(consecutiveFailures := e.consecutiveFailures + 1);
      if e.state == Closed && e.consecutiveFailures >= cfg.failureThreshold
      then e.(state := Open, openedAt := now)
      else e
  }

  function AfterAbandoned(e: Entry, now: int): Entry {
    if e.state == HalfOpen then Reopened(e, now) else e
  }

  function After(cfg: Config, e: Entry, ev: Event): Entry {
    match ev.op
    case Allow => AfterAllow(cfg, e, ev.at)
    case Success => AfterSuccess(e)
    case Failure => AfterFailure(cfg, e, ev.at)
    case Abandoned => AfterAbandoned(e, ev.at)
  }

  /** The entry after a whole history of calls, starting from the lazily created one. */
  function Replay(cfg: Config, h: seq<Event>): Entry {
    if h == [] then FRESH else After(cfg, Replay(cfg, h[..|h| - 1]), h[|h| - 1])
  }

  ghost predicate ClockMonotone(h: seq<Event>) {
    forall i, j :: 0 <= i < j < |h| ==> h[i].at <= h[j].at
  }

  /** A history whose last call was made no later than `now`. */
  ghost predicate UpTo(h: seq<Event>, now: int) {
    ClockMonotone(h) && forall i :: 0 <= i < |h| ==> h[i].at <= now
  }

  lemma Extended(cfg: Config, h: seq<Event>, ev: Event)
    requires UpTo(h, ev.at)
    ensures UpTo(h + [ev], ev.at)
    ensures Replay(cfg, h + [ev]) == After(cfg, Replay(cfg, h), ev)
  {
    assert (h + [ev])[..|h|] == h;
  }

  /** Failures recorded after the last success, read off the history backwards. */
  function FailuresSinceSuccess(h: seq<Event>): nat {
    if h == [] then 0
    else
      var last := h[|h| - 1].op;
      if last == Success then 0
      else FailuresSinceSuccess(h[..|h| - 1]) + if last == Failure then 1 else 0
  }

  /** The threshold in force: a configured value below one behaves like one. */
  function Threshold(cfg: Config): (t: int) {
    if cfg.failureThreshold < 1 then 1 else cfg.failureThreshold
  }

  /** Was the i-th call an admission check that was let through? */
  predicate AdmittedAt(cfg: Config, h: seq<Event>, i: nat)
    requires i < |h|
  {
    h[i].op == Allow && Admits(cfg, Replay(cfg, h[..i]), h[i].at)
  }

  /** Number of admitted calls among h[from..]. */
  function AdmittedFrom(cfg: Config, h: seq<Event>, from: nat): nat
    requires from <= |h|
    decreases |h| - from
  {
    if from == |h| then 0
    else
      var n := |h| - 1;
      AdmittedFrom(cfg, h[..n], from) + if AdmittedAt(cfg, h, n) then 1 else 0
  }

  /** Call number `opening` moved the breaker out of Closed, and it has not closed since. */
  ghost predicate OpenSince(cfg: Config, h: seq<Event>, opening: nat) {
    && opening < |h|
    && Replay(cfg, h[..opening]).state == Closed
    && forall k :: opening < k <= |h| ==> Replay(cfg, h[..k]).state != Closed
  }

  /** What holds of the entry after every history, whatever the configuration. */
  lemma {:induction false} EntryInvariant(cfg: Config, h: seq<Event>)
    ensures
      var e := Replay(cfg, h);
      && (e.probeInFlight <==> e.state == HalfOpen)
      && (e.state == Closed ==>
            && e.consecutiveFailures == FailuresSinceSuccess(h)
            && e.consecutiveFailures < Threshold(cfg))
  {
    if h != [] { EntryInvariant(cfg, h[..|h| - 1]); }
  }

  /** The breaker trips at exactly the failure that completes a run of threshold-many
      failures with no success between them. */
  lemma {:induction false} TripsExactlyAtThreshold(cfg: Config, h: seq<Event>, ev: Event)
    requires Replay(cfg, h).state == Closed
    ensures Replay(cfg, h + [ev]).state == Open
            <==> ev.op == Failure && FailuresSinceSuccess(h) + 1 == Threshold(cfg)
    ensures Replay(cfg, h + [ev]).state != HalfOpen
  {
    EntryInvariant(cfg, h);
    assert (h + [ev])[..|h|] == h;
  }

  /** While a probe is out, every other caller is turned away and the entry does not move. */
  lemma HalfOpenRejects(cfg: Config, h: seq<Event>, now: int)
    requires Replay(cfg, h).state == HalfOpen
    ensures !Admits(cfg, Replay(cfg, h), now)
    ensures Replay(cfg, h + [Event(Allow, now)]) == Replay(cfg, h)
  {
    EntryInvariant(cfg, h);
    assert (h + [Event(Allow, now)])[..|h|] == h;
  }

  function CooldownTicks(cfg: Config): int {
    cfg.cooldownSeconds * TICKS_PER_SECOND
  }

  lemma CooldownElapsed(cfg: Config, openedAt: int, now: int)
    requires openedAt <= now
    requires WholeSeconds(now - openedAt) >= cfg.cooldownSeconds
    ensures now - openedAt >= CooldownTicks(cfg)
  {
  }

  /** When the breaker last went from another state into Open. */
  function OpenedLast(cfg: Config, h: seq<Event>): int {
    if h == [] then 0
    else
      var p := h[..|h| - 1];
      if Replay(cfg, h).state == Open && Replay(cfg, p).state != Open then h[|h| - 1].at else OpenedLast(cfg, p)
  }

  lemma {:induction false} OpenedLastIsStored(cfg: Config, h: seq<Event>, now: int)
    requires UpTo(h, now) && Replay(cfg, h).state == Open
    ensures Replay(cfg, h).openedAt == OpenedLast(cfg, h) <= now
  {
    var p := h[..|h| - 1];
    EntryInvariant(cfg, p);
    if Replay(cfg, p).state == Open { OpenedLastIsStored(cfg, p, now); }
  }

  /** The whole cooldown has passed since the last opening. */
  predicate CooledDown(cfg: Config, h: seq<Event>, now: int) {
    now - OpenedLast(cfg, h) >= CooldownTicks(cfg)
  }

  lemma SecondsAreTicks(ticks: int, seconds: int)
    requires ticks >= 0
    ensures WholeSeconds(ticks) >= seconds <==> ticks >= seconds * TICKS_PER_SECOND
  {
  }

  /** The state a call leads to, by the history alone. */
  function StateAfter(cfg: Config, h: seq<Event>, ev: Event): State {
    match Replay(cfg, h).state
    case Closed => if ev.op == Failure && FailuresSinceSuccess(h) + 1 >= Threshold(cfg) then Open else Closed
    case Open => if ev.op == Allow && CooledDown(cfg, h, ev.at) then HalfOpen else Open
    case HalfOpen => if ev.op == Allow then HalfOpen else if ev.op == Success then Closed else Open
  }

  /** After every history: a closed breaker opens only at the failure that completes the
      threshold; an open one moves only at an admission check after the cooldown, to
      half-open; a half-open one closes only at a success and reopens at any other report.
      Calls are let through while closed, and once at the end of a cooldown. */
  lemma StateMovesExactly(cfg: Config, h: seq<Event>, ev: Event)
    requires UpTo(h, ev.at)
    ensures Replay(cfg, h + [ev]).state == StateAfter(cfg, h, ev)
    ensures Admits(cfg, Replay(cfg, h), ev.at) <==>
              || Replay(cfg, h).state == Closed
              || (Replay(cfg, h).state == Open && CooledDown(cfg, h, ev.at))
  {
    EntryInvariant(cfg, h);
    Extended(cfg, h, ev);
    if Replay(cfg, h).state == Open {
      OpenedLastIsStored(cfg, h, ev.at);
      SecondsAreTicks(ev.at - OpenedLast(cfg, h), cfg.cooldownSeconds);
    }
  }

  /** `k` admissions between the opening at `t0` and the last call at `t`. */
  predicate Paced(cfg: Config, e: Entry, k: nat, t0: int, t: int) {
    && t0 <= e.openedAt <= t
    && k * CooldownTicks(cfg) <= t - t0
    && (e.state == Open ==> k * CooldownTicks(cfg) <= e.openedAt - t0)
  }

  lemma StaysPaced(cfg: Config, e: Entry, k: nat, t0: int, t: int, ev: Event)
    requires Paced(cfg, e, k, t0, t) && t <= ev.at
    requires e.state != Closed && (e.probeInFlight <==> e.state == HalfOpen)
    ensures
      var k' := k + if ev.op == Allow && Admits(cfg, e, ev.at) then 1 else 0;
      Paced(cfg, After(cfg, e, ev), k', t0, ev.at)
  {
    if ev.op == Allow && Admits(cfg, e, ev.at) {
      CooldownElapsed(cfg, e.openedAt, ev.at);
      assert (k + 1) * CooldownTicks(cfg) == k * CooldownTicks(cfg) + CooldownTicks(cfg);
    }
  }

  lemma {:induction false} AdmissionsPaced(cfg: Config, h: seq<Event>, opening: nat)
    requires ClockMonotone(h) && OpenSince(cfg, h, opening)
    ensures Paced(cfg, Replay(cfg, h), AdmittedFrom(cfg, h, opening + 1), h[opening].at, h[|h| - 1].at)
    decreases |h|
  {
    var n := |h| - 1;
    var p := h[..n];
    assert h[..|h|] == h;
    EntryInvariant(cfg, p);
    if opening < n {
      assert forall k :: 0 <= k <= n ==> p[..k] == h[..k];
      assert OpenSince(cfg, p, opening);
      AdmissionsPaced(cfg, p, opening);
      assert p[n - 1].at <= h[n].at;
      StaysPaced(cfg, Replay(cfg, p), AdmittedFrom(cfg, p, opening + 1), h[opening].at, p[n - 1].at, h[n]);
    }
  }

  /** From the call that opened the breaker until it next closes, the admitted calls are
      spaced by the cooldown: k of them need k cooldowns of elapsed time. */
  lemma AdmissionBound(cfg: Config, h: seq<Event>, opening: nat, t: int)
    requires ClockMonotone(h) && OpenSince(cfg, h, opening)
    requires h[|h| - 1].at <= t
    ensures AdmittedFrom(cfg, h, opening + 1) * CooldownTicks(cfg) <= t - h[opening].at
  {
    AdmissionsPaced(cfg, h, opening);
  }

  /** Every provider's entry is the replay of that provider's calls. */
  ghost predicate InStep(cfg: Config, entries: map<string, Entry>, log: map<string, seq<Event>>, now: int) {
    && log.Keys == entries.Keys
    && forall p :: p in entries ==> entries[p] == Replay(cfg, log[p]) && UpTo(log[p], now)
  }

  lemma StaysInStep(cfg: Config, entries: map<string, Entry>, log: map<string, seq<Event>>, now: int,
                    provider: string, ev: Event)
    requires InStep(cfg, entries, log, now) && now <= ev.at
    ensures
      var h := if provider in log then log[provider] else [];
      var e := if provider in entries then entries[provider] else FRESH;
      && After(cfg, e, ev) == Replay(cfg, h + [ev])
      && InStep(cfg, entries[provider := After(cfg, e, ev)], log[provider := h + [ev]], ev.at)
  {
    var h := if provider in log then log[provider] else [];
    Extended(cfg, h, ev);
  }

  /** The process-wide breaker: one lazily created entry per provider. The ghost `log`
      is the history of calls made for each provider. */
  class ProviderCircuitBreaker {
    const cfg: Config
    var entries: map<string, Entry>
    ghost var log: map<string, seq<Event>>
    ghost var clock: int

    ghost predicate Valid()
      reads this
    {
      InStep(cfg, entries, log, clock)
    }

    ghost function History(provider: string): seq<Event>
      reads this
    {
      if provider in log then log[provider] else []
    }

    constructor (cfg: Config)
      ensures Valid() && this.cfg == cfg && entries == map[]
    {
      this.cfg := cfg;
      entries, log, clock := map[], map[], 0;
    }

    /** Find the provider's entry, creating a closed one on first use. */
    function EntryOf(provider: string): Entry
      reads this
    {
      if provider in entries then entries[provider] else FRESH
    }

    /** Every call of the interface appends one event to one provider's history; the
        entries of all other providers stay as they were. */
    ghost predicate Advanced(before: map<string, Entry>, history: seq<Event>, provider: string, ev: Event)
      reads this
    {
      && Valid()
      && clock == ev.at
      && History(provider) == history + [ev]
      && entries == before[provider := Replay(cfg, history + [ev])]
    }

    /** Store the provider's new entry, which is the outcome of the call `ev`. */
    method Put(provider: string, e: Entry, ghost ev: Event)
      requires Valid() && clock <= ev.at && e == After(cfg, EntryOf(provider), ev)
      modifies this
      ensures Advanced(old(entries), old(History(provider)), provider, ev)
    {
      ghost var h := History(provider);
      StaysInStep(cfg, entries, log, clock, provider, ev);
      entries := entries[provider := e];
      log := log[provider := h + [ev]];
      clock := ev.at;
    }

    method Allow(provider: string, now: int) returns (admitted: bool)
      requires Valid() && clock <= now
      modifies this
      ensures Advanced(old(entries), old(History(provider)), provider, Event(Op.Allow, now))
      ensures admitted <==> Admits(cfg, Replay(cfg, old(History(provider))), now)
    {
      var e := EntryOf(provider);
      match e.state {
        case Closed =>
          admitted := true;
        case Open =>
          if WholeSeconds(now - e.openedAt) < cfg.cooldownSeconds {
            admitted := false;
          } else {
            e := e.(state := HalfOpen, probeInFlight := true);
            admitted := true;
          }
        case HalfOpen =>
          if e.probeInFlight {
            admitted := false;
          } else {
            e := e.(probeInFlight := true);
            admitted := true;
          }
      }
      Put(provider, e, Event(Op.Allow, now));
    }

    method RecordSuccess(provider: string, now: int)
      requires Valid() && clock <= now
      modifies this
      ensures Advanced(old(entries), old(History(provider)), provider, Event(Success, now))
    {
      var e := EntryOf(provider);
      e := e.(consecutiveFailures := 0);
      if e.state == HalfOpen {
        e := e.(state := Closed, probeInFlight := false);
      }
      Put(provider, e, Event(Success, now));
    }

    method RecordFailure(provider: string, now: int)
      requires Valid() && clock <= now
      modifies this
      ensures Advanced(old(entries), old(History(provider)), provider, Event(Failure, now))
    {
      var e := EntryOf(provider);
      if e.state == HalfOpen {
        e := e.(state := Open, openedAt := now, probeInFlight := false);
      } else {
        e := e.(consecutiveFailures := e.consecutiveFailures + 1);
        if e.state == Closed && e.consecutiveFailures >= cfg.failureThreshold {
          e := e.(state := Open, openedAt := now);
        }
      }
      Put(provider, e, Event(Failure, now));
    }

    method RecordAbandoned(provider: string, now: int)
      requires Valid() && clock <= now
      modifies this
      ensures Advanced(old(entries), old(History(provider)), provider, Event(Abandoned, now))
    {
      var e := EntryOf(provider);
      if e.state == HalfOpen {
        e := e.(state := Open, openedAt := now, probeInFlight := false);
      }
      Put(provider, e, Event(Abandoned, now));
    }
  }
}
