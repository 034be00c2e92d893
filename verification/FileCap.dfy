/** Reserving bytes against a shared cap with a compare-and-swap loop, stepped by any number
    of threads. A relaxed load and a failed swap may see any value; a swap compares with the
    counter itself and may fail spuriously. */
module FileCap {
  /** `size_t` arithmetic is modulo this. */
  const WORD: nat := 0x1_0000_0000_0000_0000

  /** `since` is the step at which the call began, `at` the step at which `prev` was read. */
  datatype Thread =
    | Idle
    | Called(size: nat, since: nat)
    | Testing(size: nat, prev: nat, since: nat, at: nat)
    | Swapping(size: nat, prev: nat, since: nat, at: nat)

  /** `live` holds the reservations not yet released, `loose` the bytes released without a
      reservation, `wraps` how often a release took the counter below zero. */
  datatype Sys = Sys(captured: nat, threads: map<nat, Thread>, live: seq<nat>, loose: nat, wraps: nat, clock: nat)

  datatype Action =
    | Begin(t: nat, size: nat)
    | Load(t: nat, seen: nat)
    | Test(t: nat)
    | Swap(t: nat, spurious: bool, seen: nat)
    | Release(i: nat)
    | LooseRelease(size: nat)

  function ThreadOf(s: Sys, t: nat): Thread {
    if t in s.threads then s.threads[t] else Idle
  }

  function Put(s: Sys, t: nat, th: Thread): Sys {
    s.(threads := s.threads[t := th])
  }

  function Total(live: seq<nat>): nat {
    if live == [] then 0 else Total(live[..|live| - 1]) + live[|live| - 1]
  }

  /** `fetch_sub` on the counter. */
  function Lowered(s: Sys, size: nat): Sys {
    if size <= s.captured then s.(captured := s.captured - size)
    else s.(captured := (s.captured - size) % WORD, wraps := s.wraps + 1)
  }

  function Move(cap: nat, s: Sys, a: Action): Sys {
    match a
    case Begin(t, size) =>
      if ThreadOf(s, t).Idle? && size <= cap then Put(s, t, Called(size, s.clock)) else s
    case Load(t, seen) =>
      var th := ThreadOf(s, t);
      if th.Called? then Put(s, t, Testing(th.size, seen, th.since, s.clock)) else s
    case Test(t) =>
      var th := ThreadOf(s, t);
      if !th.Testing? then s
      else if th.prev > cap - th.size then Put(s, t, Idle)
      else Put(s, t, Swapping(th.size, th.prev, th.since, th.at))
    case Swap(t, spurious, seen) =>
      var th := ThreadOf(s, t);
      if !th.Swapping? then s
      else if s.captured == th.prev && !spurious then
        Put(s, t, Idle).(captured := (th.prev + th.size) % WORD, live := s.live + [th.size])
      else Put(s, t, Testing(th.size, seen, th.since, s.clock))
    case Release(i) =>
      if i < |s.live| then Lowered(s, s.live[i]).(live := s.live[..i] + s.live[i + 1..]) else s
    case LooseRelease(size) =>
      if size < WORD then Lowered(s, size).(loose := s.loose + size) else s
  }

  function Next(cap: nat, s: Sys, a: Action): Sys {
    Move(cap, s, a).(clock := s.clock + 1)
  }

  function Run(cap: nat, acts: seq<Action>): Sys {
    if acts == [] then Sys(0, map[], [], 0, 0, 0)
    else Next(cap, Run(cap, acts[..|acts| - 1]), acts[|acts| - 1])
  }

  // ---- conservation ----

  predicate Guarded(cap: nat, th: Thread) {
    && (th.Called? || th.Testing? ==> th.size <= cap)
    && (th.Swapping? ==> th.prev + th.size <= cap)
  }

  ghost predicate Accounted(cap: nat, s: Sys) {
    && s.captured < WORD
    && s.captured + s.loose == Total(s.live) + WORD * s.wraps
    && (s.loose == 0 ==> s.wraps == 0 && Total(s.live) <= cap)
    && forall t :: t in s.threads ==> Guarded(cap, s.threads[t])
  }

  lemma FitsWord(n: nat)
    requires n < WORD
    ensures n % WORD == n
  {
  }

  lemma TotalWith(live: seq<nat>, size: nat)
    ensures Total(live + [size]) == Total(live) + size
  {
    assert (live + [size])[..|live|] == live;
  }

  lemma {:induction false} TotalWithout(live: seq<nat>, i: nat)
    requires i < |live|
    ensures Total(live) == Total(live[..i] + live[i + 1..]) + live[i]
  {
    var last := |live| - 1;
    if i == last {
      assert live[..i] + live[i + 1..] == live[..last];
    } else {
      TotalWithout(live[..last], i);
      var rest := live[..i] + live[i + 1..];
      assert rest[..|rest| - 1] == live[..last][..i] + live[..last][i + 1..];
    }
  }

  lemma LoweredBy(s: Sys, size: nat)
    requires s.captured < WORD && size < WORD
    ensures
      var r := Lowered(s, size);
      && r.captured < WORD && r.captured + size == s.captured + WORD * (r.wraps - s.wraps)
      && r == s.(captured := r.captured, wraps := r.wraps)
      && (size <= s.captured ==> r.wraps == s.wraps)
  {
  }

  lemma ReleaseAccounted(cap: nat, s: Sys, i: nat)
    requires cap < WORD && Accounted(cap, s) && i < |s.live| && s.live[i] < WORD
    ensures Accounted(cap, Move(cap, s, Release(i)))
  {
    LoweredBy(s, s.live[i]);
    TotalWithout(s.live, i);
  }

  lemma SwapAccounted(cap: nat, s: Sys, t: nat, spurious: bool, seen: nat)
    requires cap < WORD && Accounted(cap, s)
    ensures Accounted(cap, Move(cap, s, Swap(t, spurious, seen)))
  {
    var th := ThreadOf(s, t);
    if th.Swapping? {
      TotalWith(s.live, th.size);
      FitsWord(th.prev + th.size);
    }
  }

  /** No live reservation is larger than the cap. */
  ghost predicate LiveFit(cap: nat, s: Sys) {
    forall i :: 0 <= i < |s.live| ==> s.live[i] <= cap
  }

  lemma ThreadMoveAccounted(cap: nat, s: Sys, a: Action)
    requires cap < WORD && Accounted(cap, s) && (a.Begin? || a.Load? || a.Test?)
    ensures Accounted(cap, Move(cap, s, a))
  {
  }

  lemma LooseAccounted(cap: nat, s: Sys, size: nat)
    requires cap < WORD && Accounted(cap, s)
    ensures Accounted(cap, Move(cap, s, LooseRelease(size)))
  {
    if size < WORD {
      LoweredBy(s, size);
    }
  }

  lemma MoveAccounted(cap: nat, s: Sys, a: Action)
    requires cap < WORD && Accounted(cap, s) && LiveFit(cap, s)
    ensures Accounted(cap, Move(cap, s, a))
  {
    match a
    case Begin(t, size) => ThreadMoveAccounted(cap, s, a);
    case Load(t, seen) => ThreadMoveAccounted(cap, s, a);
    case Test(t) => ThreadMoveAccounted(cap, s, a);
    case Swap(t, spurious, seen) => SwapAccounted(cap, s, t, spurious, seen);
    case Release(i) => if i < |s.live| { ReleaseAccounted(cap, s, i); }
    case LooseRelease(size) => LooseAccounted(cap, s, size);
  }

  lemma MoveLiveFit(cap: nat, s: Sys, a: Action)
    requires cap < WORD && Accounted(cap, s) && LiveFit(cap, s)
    ensures LiveFit(cap, Move(cap, s, a))
  {
  }

  lemma {:induction false} RunAccounted(cap: nat, acts: seq<Action>)
    requires cap < WORD
    ensures Accounted(cap, Run(cap, acts)) && LiveFit(cap, Run(cap, acts))
  {
    if acts != [] {
      RunAccounted(cap, acts[..|acts| - 1]);
      MoveAccounted(cap, Run(cap, acts[..|acts| - 1]), acts[|acts| - 1]);
      MoveLiveFit(cap, Run(cap, acts[..|acts| - 1]), acts[|acts| - 1]);
    }
  }

  ghost predicate Matched(acts: seq<Action>) {
    forall i :: 0 <= i < |acts| ==> !acts[i].LooseRelease?
  }

  lemma {:induction false} MatchedHasNoLoose(cap: nat, acts: seq<Action>)
    requires Matched(acts)
    ensures Run(cap, acts).loose == 0
  {
    if acts != [] {
      MatchedHasNoLoose(cap, acts[..|acts| - 1]);
    }
  }

  /** However the threads interleave, while every release undoes one reservation the counter
      is the sum of the live reservations, never exceeds the cap and never wraps. */
  lemma Conservation(cap: nat, acts: seq<Action>)
    requires cap < WORD && Matched(acts)
    ensures
      var s := Run(cap, acts);
      s.captured == Total(s.live) <= cap && s.wraps == 0
  {
    RunAccounted(cap, acts);
    MatchedHasNoLoose(cap, acts);
  }

  /** In any run, matched or not, the counter is off by exactly the bytes released loosely. */
  lemma CounterIsOffByLoose(cap: nat, acts: seq<Action>)
    requires cap < WORD
    ensures
      var s := Run(cap, acts);
      && s.captured + s.loose == Total(s.live) + WORD * s.wraps
      && (s.captured == Total(s.live) <==> s.loose == WORD * s.wraps)
  {
    RunAccounted(cap, acts);
  }

  // ---- a call on its own ----

  /** One reservation with nobody else stepping: the swap may be refused, not contended. */
  function Alone(captured: nat, t: nat, size: nat): seq<Action> {
    [Begin(t, size), Load(t, captured), Test(t), Swap(t, false, captured)]
  }

  function AfterAlone(cap: nat, s: Sys, t: nat, size: nat): Sys {
    Next(cap, Next(cap, Next(cap, Next(cap, s, Begin(t, size)), Load(t, s.captured)), Test(t)),
         Swap(t, false, s.captured))
  }

  lemma RunStep(cap: nat, acts: seq<Action>, a: Action)
    ensures Run(cap, acts + [a]) == Next(cap, Run(cap, acts), a)
  {
    assert (acts + [a])[..|acts|] == acts;
  }

  lemma RunAlone(cap: nat, acts: seq<Action>, t: nat, size: nat)
    ensures
      var s := Run(cap, acts);
      Run(cap, acts + Alone(s.captured, t, size)) == AfterAlone(cap, s, t, size)
  {
    var c := Run(cap, acts).captured;
    RunTwo(cap, acts, Begin(t, size), Load(t, c));
    RunTwo(cap, acts + [Begin(t, size), Load(t, c)], Test(t), Swap(t, false, c));
    assert acts + Alone(c, t, size) == acts + [Begin(t, size), Load(t, c)] + [Test(t), Swap(t, false, c)];
  }

  lemma RunTwo(cap: nat, acts: seq<Action>, a: Action, b: Action)
    ensures Run(cap, acts + [a, b]) == Next(cap, Next(cap, Run(cap, acts), a), b)
  {
    RunStep(cap, acts, a);
    RunStep(cap, acts + [a], b);
    assert acts + [a, b] == acts + [a] + [b];
  }

  /** An uncontended call succeeds exactly when the bytes still fit, and a refused one leaves
      no trace. */
  lemma AloneSucceedsIffItFits(cap: nat, s: Sys, t: nat, size: nat)
    requires cap < WORD && ThreadOf(s, t).Idle?
    ensures
      var r := AfterAlone(cap, s, t, size);
      && ThreadOf(r, t).Idle?
      && if s.captured + size <= cap
         then r.captured == s.captured + size && r.live == s.live + [size]
         else r.captured == s.captured && r.live == s.live
  {
  }

  /** One loose release is enough to let the live reservations pass any cap. */
  lemma LooseReleaseOvershoots(cap: nat)
    requires 0 < cap < WORD
    ensures exists acts :: Total(Run(cap, acts).live) == 2 * cap
  {
    var acts := Alone(0, 0, cap) + [LooseRelease(cap)];
    AfterLoose(cap);
    RunAlone(cap, acts, 0, cap);
    AloneSucceedsIffItFits(cap, Run(cap, acts), 0, cap);
    TotalWith([], cap);
    TotalWith([cap], cap);
    assert Run(cap, acts + Alone(0, 0, cap)).live == [cap] + [cap] && [] + [cap] == [cap];
  }

  lemma AfterLoose(cap: nat)
    requires 0 < cap < WORD
    ensures
      var s := Run(cap, Alone(0, 0, cap) + [LooseRelease(cap)]);
      s.captured == 0 && s.live == [cap] && ThreadOf(s, 0).Idle?
  {
    RunAlone(cap, [], 0, cap);
    assert [] + Alone(0, 0, cap) == Alone(0, 0, cap);
    AloneSucceedsIffItFits(cap, Run(cap, []), 0, cap);
    RunStep(cap, Alone(0, 0, cap), LooseRelease(cap));
  }

  // ---- refusals are truthful ----

  /** Loads and failed swaps see the counter as it is. */
  predicate SeesCurrent(s: Sys, a: Action) {
    && (a.Load? ==> a.seen == s.captured)
    && (a.Swap? ==> a.seen == s.captured)
  }

  ghost predicate Coherent(cap: nat, acts: seq<Action>) {
    forall n: nat :: n < |acts| ==> SeesCurrent(Run(cap, acts[..n]), acts[n])
  }

  /** What a thread compares against was the counter's value at a step of its own call. */
  ghost predicate ReadDuringCall(cap: nat, acts: seq<Action>, th: Thread) {
    th.Testing? || th.Swapping? ==>
      th.since <= th.at <= |acts| && Run(cap, acts[..th.at]).captured == th.prev
  }

  ghost predicate AllReadDuringCall(cap: nat, acts: seq<Action>) {
    var s := Run(cap, acts);
    && s.clock == |acts|
    && forall t :: t in s.threads ==>
         && ReadDuringCall(cap, acts, s.threads[t])
         && (s.threads[t].Called? ==> s.threads[t].since <= |acts|)
  }

  lemma ReadStays(cap: nat, acts: seq<Action>, a: Action, th: Thread)
    requires ReadDuringCall(cap, acts, th)
    ensures ReadDuringCall(cap, acts + [a], th)
  {
    if th.Testing? || th.Swapping? {
      assert (acts + [a])[..th.at] == acts[..th.at];
    }
  }

  lemma ReadNow(cap: nat, acts: seq<Action>, a: Action, th: Thread)
    requires th.Testing? && th.since <= th.at == |acts| && th.prev == Run(cap, acts).captured
    ensures ReadDuringCall(cap, acts + [a], th)
  {
    assert (acts + [a])[..|acts|] == acts;
  }

  /** What one step makes of a thread. */
  ghost predicate Becomes(s: Sys, th: Thread, r: Thread) {
    || r == th || r.Idle? || (r.Called? && r.since == s.clock)
    || (r.Testing? && !th.Idle? && r.since == th.since && r.at == s.clock && r.prev == s.captured)
    || (r.Swapping? && th.Testing? && r == Swapping(th.size, th.prev, th.since, th.at))
  }

  lemma MoveBecomes(cap: nat, s: Sys, a: Action, t: nat)
    requires SeesCurrent(s, a)
    ensures Becomes(s, ThreadOf(s, t), ThreadOf(Move(cap, s, a), t))
  {
  }

  lemma StepReads(cap: nat, acts: seq<Action>, a: Action)
    requires AllReadDuringCall(cap, acts) && SeesCurrent(Run(cap, acts), a)
    ensures AllReadDuringCall(cap, acts + [a])
  {
    var s := Run(cap, acts);
    var r := Move(cap, s, a);
    RunStep(cap, acts, a);
    forall t | t in r.threads
      ensures ReadDuringCall(cap, acts + [a], r.threads[t])
      ensures r.threads[t].Called? ==> r.threads[t].since <= |acts|
    {
      MoveBecomes(cap, s, a, t);
      ThreadReads(cap, acts, a, ThreadOf(s, t), r.threads[t]);
    }
  }

  lemma ThreadReads(cap: nat, acts: seq<Action>, a: Action, th: Thread, r: Thread)
    requires ReadDuringCall(cap, acts, th) && (th.Called? ==> th.since <= |acts|)
    requires Run(cap, acts).clock == |acts| && Becomes(Run(cap, acts), th, r)
    ensures ReadDuringCall(cap, acts + [a], r) && (r.Called? ==> r.since <= |acts|)
  {
    if r == th || r.Swapping? {
      ReadStays(cap, acts, a, th);
    } else if r.Testing? {
      ReadNow(cap, acts, a, r);
    }
  }

  lemma {:induction false} RunReads(cap: nat, acts: seq<Action>)
    requires Coherent(cap, acts)
    ensures AllReadDuringCall(cap, acts)
  {
    if acts != [] {
      var (front, a) := (acts[..|acts| - 1], acts[|acts| - 1]);
      forall n: nat | n < |front| ensures SeesCurrent(Run(cap, front[..n]), front[n]) {
        assert front[..n] == acts[..n];
      }
      RunReads(cap, front);
      StepReads(cap, front, a);
      assert acts == front + [a];
    }
  }

  /** How a call of `t` goes on: refused by its own test, through with its own swap, or still
      running with the same bytes to reserve. */
  predicate GoesOn(cap: nat, s: Sys, a: Action, r: Sys, t: nat)
    requires !ThreadOf(s, t).Idle?
  {
    var (th, th') := (ThreadOf(s, t), ThreadOf(r, t));
    if !th'.Idle? then th'.size == th.size && th'.since == th.since
    else if a == Test(t) then r.live == s.live && r.captured == s.captured
    else a.Swap? && a.t == t && r.live == s.live + [th.size] && r.captured == s.captured + th.size <= cap
  }

  lemma SwapGoesOn(cap: nat, s: Sys, u: nat, spurious: bool, seen: nat, t: nat)
    requires cap < WORD && !ThreadOf(s, t).Idle? && Guarded(cap, ThreadOf(s, t))
    ensures GoesOn(cap, s, Swap(u, spurious, seen), Move(cap, s, Swap(u, spurious, seen)), t)
  {
    var th := ThreadOf(s, t);
    if u == t && th.Swapping? { FitsWord(th.prev + th.size); }
  }

  lemma MoveGoesOn(cap: nat, s: Sys, a: Action, t: nat)
    requires !a.Swap? && !ThreadOf(s, t).Idle?
    ensures GoesOn(cap, s, a, Move(cap, s, a), t)
  {
    if a.Release? && a.i < |s.live| { assert Lowered(s, s.live[a.i]).threads == s.threads; }
  }

  /** A call ends only by its own test or its own swap; a swap that is lost leaves it running. */
  lemma CallGoesOn(cap: nat, acts: seq<Action>, a: Action, t: nat)
    requires cap < WORD && !ThreadOf(Run(cap, acts), t).Idle?
    ensures GoesOn(cap, Run(cap, acts), a, Next(cap, Run(cap, acts), a), t)
  {
    RunAccounted(cap, acts);
    var s := Run(cap, acts);
    assert Guarded(cap, ThreadOf(s, t));
    if a.Swap? { SwapGoesOn(cap, s, a.t, a.spurious, a.seen, t); } else { MoveGoesOn(cap, s, a, t); }
  }

  /** A call is refused, that is, it ends without a reservation, only if at some step while it
      was running its bytes did not fit. */
  lemma RefusalIsTruthful(cap: nat, acts: seq<Action>, a: Action, t: nat)
    requires cap < WORD && Coherent(cap, acts)
    requires
      var (s, r) := (Run(cap, acts), Next(cap, Run(cap, acts), a));
      !ThreadOf(s, t).Idle? && ThreadOf(r, t).Idle? && r.live == s.live
    ensures
      var th := ThreadOf(Run(cap, acts), t);
      exists n: nat :: th.since <= n <= |acts| && Run(cap, acts[..n]).captured + th.size > cap
  {
    CallGoesOn(cap, acts, a, t);
    RunReads(cap, acts);
    RunAccounted(cap, acts);
    var (s, th) := (Run(cap, acts), ThreadOf(Run(cap, acts), t));
    assert |s.live + [th.size]| > |s.live|;
    assert Guarded(cap, th) && ReadDuringCall(cap, acts, th);
    assert Run(cap, acts[..th.at]).captured + th.size > cap;
  }

  // ---- the loop ----

  class FileBudget {
    var captured: nat

    constructor ()
      ensures captured == 0
    {
      captured := 0;
    }

    /** The loop as one thread runs it while the swap fails spuriously any number of times. */
    method TryReserve(size: nat, cap: nat, spurious: nat) returns (ok: bool)
      requires cap < WORD
      modifies this
      ensures ok <==> old(captured) + size <= cap
      ensures captured == if ok then old(captured) + size else old(captured)
    {
      if size > cap {
        return false;
      }
      var prev := captured;
      var failures := spurious;
      while true
        invariant captured == prev == old(captured)
        decreases failures
      {
        if prev > cap - size {
          return false;
        }
        if failures == 0 {
          captured := (prev + size) % WORD;
          return true;
        }
        failures := failures - 1;
        prev := captured;
      }
    }

    method Release(size: nat)
      modifies this
      ensures size <= old(captured) < WORD ==> captured == old(captured) - size
      ensures captured == (old(captured) - size) % WORD
    {
      captured := (captured - size) % WORD;
    }
  }
}
