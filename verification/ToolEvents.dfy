/** The event stream all turns write to, nested and concurrent ones alike. A turn takes an id
    from one process-wide counter, announces its command, reaches callbacks, and closes the
    command. Other turns may take ids and write between any two of these steps; a sub-agent's
    turn does so while its caller's command is open. */
module ToolEvents {
  type TurnId = nat

  datatype Phase = Idle | Holding(id: nat) | Open(id: nat)

  datatype Event = Started(turn: TurnId, id: nat) | Called(turn: TurnId) | Finished(turn: TurnId, id: nat)

  datatype Sys = Sys(counter: nat, turns: map<TurnId, Phase>, stream: seq<Event>)

  datatype Action = Take(turn: TurnId) | Announce(turn: TurnId) | Reach(turn: TurnId) | Close(turn: TurnId)

  function PhaseOf(s: Sys, t: TurnId): Phase {
    if t in s.turns then s.turns[t] else Idle
  }

  function Put(s: Sys, t: TurnId, p: Phase): Sys {
    s.(turns := s.turns[t := p])
  }

  function Next(s: Sys, a: Action): Sys {
    var p := PhaseOf(s, a.turn);
    match a
    case Take(t) => if p.Idle? then Put(s, t, Holding(s.counter + 1)).(counter := s.counter + 1) else s
    case Announce(t) => if p.Holding? then Put(s, t, Open(p.id)).(stream := s.stream + [Started(t, p.id)]) else s
    case Reach(t) => if p.Open? then s.(stream := s.stream + [Called(t)]) else s
    case Close(t) => if p.Open? then Put(s, t, Idle).(stream := s.stream + [Finished(t, p.id)]) else s
  }

  function Run(acts: seq<Action>): Sys {
    if acts == [] then Sys(0, map[], []) else Next(Run(acts[..|acts| - 1]), acts[|acts| - 1])
  }

  function Starts(stream: seq<Event>, id: nat): nat {
    if stream == [] then 0
    else
      var e := stream[|stream| - 1];
      Starts(stream[..|stream| - 1], id) + if e.Started? && e.id == id then 1 else 0
  }

  function Finishes(stream: seq<Event>, id: nat): nat {
    if stream == [] then 0
    else
      var e := stream[|stream| - 1];
      Finishes(stream[..|stream| - 1], id) + if e.Finished? && e.id == id then 1 else 0
  }

  lemma StreamGrows(stream: seq<Event>, e: Event, id: nat)
    ensures Starts(stream + [e], id) == Starts(stream, id) + if e.Started? && e.id == id then 1 else 0
    ensures Finishes(stream + [e], id) == Finishes(stream, id) + if e.Finished? && e.id == id then 1 else 0
  {
    assert (stream + [e])[..|stream|] == stream;
  }

  predicate Has(p: Phase, id: nat) {
    !p.Idle? && p.id == id
  }

  /** Ids given out are in use by one turn at most, and the stream says how far each has got. */
  ghost predicate Accounted(s: Sys, id: nat) {
    && (forall t, u :: t in s.turns && u in s.turns && Has(s.turns[t], id) && Has(s.turns[u], id) ==> t == u)
    && (forall t :: t in s.turns && Has(s.turns[t], id) ==>
          && 1 <= id <= s.counter && Finishes(s.stream, id) == 0
          && Starts(s.stream, id) == if s.turns[t].Open? then 1 else 0)
    && ((forall t :: t in s.turns ==> !Has(s.turns[t], id)) ==>
          Starts(s.stream, id) == Finishes(s.stream, id) == if 1 <= id <= s.counter then 1 else 0)
  }

  /** What a turn closes it has announced itself, and what it has open as well. */
  ghost predicate OwnPairs(s: Sys) {
    && (forall j :: 0 <= j < |s.stream| && s.stream[j].Finished? ==>
          exists i :: 0 <= i < j && s.stream[i] == Started(s.stream[j].turn, s.stream[j].id))
    && (forall t :: t in s.turns && s.turns[t].Open? ==> Started(t, s.turns[t].id) in s.stream)
  }

  lemma TakeAccounted(s: Sys, t: TurnId, id: nat)
    requires Accounted(s, id)
    ensures Accounted(Next(s, Take(t)), id)
  {
    var s' := Next(s, Take(t));
    if s' != s {
      var taken := s.counter + 1;
      assert forall u :: u in s.turns && Has(s.turns[u], id) ==> u != t;
      assert forall u :: u in s'.turns && u != t ==> u in s.turns && s'.turns[u] == s.turns[u];
      if id != taken {
        assert !Has(s'.turns[t], id);
        assert (forall u :: u in s'.turns ==> !Has(s'.turns[u], id)) ==> forall u :: u in s.turns ==> !Has(s.turns[u], id);
      } else {
        assert forall u :: u in s.turns ==> !Has(s.turns[u], id);
      }
    }
  }

  /** A turn that moves on with the id it has, or gives it up. */
  lemma MoveAccounted(s: Sys, a: Action, id: nat)
    requires Accounted(s, id) && !a.Take?
    ensures Accounted(Next(s, a), id)
  {
    var (s', t, p) := (Next(s, a), a.turn, PhaseOf(s, a.turn));
    if s' != s {
      StreamGrows(s.stream, s'.stream[|s.stream|], id);
      assert forall u :: u in s.turns <==> u in s'.turns;
      assert forall u :: u in s.turns && u != t ==> s'.turns[u] == s.turns[u];
      if p.id != id {
        assert forall u :: u in s.turns ==> Has(s.turns[u], id) == Has(s'.turns[u], id);
      } else {
        assert Has(s.turns[t], id);
        assert forall u :: u in s.turns && u != t ==> !Has(s'.turns[u], id);
      }
    }
  }

  lemma NextOwnPairs(s: Sys, a: Action)
    requires OwnPairs(s)
    ensures OwnPairs(Next(s, a))
  {
    var s' := Next(s, a);
    assert s.stream <= s'.stream;
    forall j | 0 <= j < |s'.stream| && s'.stream[j].Finished?
      ensures exists i :: 0 <= i < j && s'.stream[i] == Started(s'.stream[j].turn, s'.stream[j].id)
    {
      if j < |s.stream| {
        var i :| 0 <= i < j && s.stream[i] == Started(s.stream[j].turn, s.stream[j].id);
        assert s'.stream[i] == s.stream[i];
      } else {
        var i :| 0 <= i < |s.stream| && s.stream[i] == Started(a.turn, s.turns[a.turn].id);
        assert s'.stream[i] == s.stream[i];
      }
    }
  }

  lemma {:induction false} RunAccounted(acts: seq<Action>, id: nat)
    ensures Accounted(Run(acts), id) && OwnPairs(Run(acts))
  {
    if acts != [] {
      var (s, a) := (Run(acts[..|acts| - 1]), acts[|acts| - 1]);
      RunAccounted(acts[..|acts| - 1], id);
      NextOwnPairs(s, a);
      if a.Take? { TakeAccounted(s, a.turn, id); } else { MoveAccounted(s, a, id); }
    }
  }

  ghost predicate InUse(s: Sys, id: nat) {
    exists t :: t in s.turns && Has(s.turns[t], id)
  }

  /** However any number of turns interleave: no id is announced or closed twice, by whatever
      turn; one that is given out and not in use has been announced once and closed once, by
      the turn that announced it and after it did. */
  lemma IdsAreFresh(acts: seq<Action>, id: nat)
    ensures
      var s := Run(acts);
      && Starts(s.stream, id) <= 1 && Finishes(s.stream, id) <= Starts(s.stream, id)
      && (Finishes(s.stream, id) == 1 <==> 1 <= id <= s.counter && !InUse(s, id))
      && (forall t, u :: t in s.turns && u in s.turns && Has(s.turns[t], id) && Has(s.turns[u], id) ==> t == u)
      && OwnPairs(s)
  {
    RunAccounted(acts, id);
    var s := Run(acts);
    if !InUse(s, id) {
      assert forall t :: t in s.turns ==> !Has(s.turns[t], id);
    }
  }
}
