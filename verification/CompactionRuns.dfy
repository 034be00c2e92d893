/** Compaction over whole runs of one conversation slot. An attempt works on a snapshot
    taken under the lock and commits its result later, so messages may arrive and other
    attempts may finish in between. While a reply is being continued the history ends in a
    pushed pair, the partial reply and the prompt to go on, that is popped again after the
    call. `slices` lists what went into the current summary: the
    slices of the attempts it descends from. `given` never forgets: it lists what the
    summarizer was given on every successful attempt since the history was last replaced. */
module CompactionRuns {
  import opened Compaction

  type JobId = nat

  /** What the summarizer was given, and its answer. */
  datatype Given = Given(prior: string, messages: seq<Message>, answer: string)

  function GivenOf(a: Attempt): Given {
    Given(a.prior, a.slice, a.state.summary)
  }

  /** An attempt in flight: the snapshot it works on, and whether it holds a pushed pair. */
  datatype Job = Job(hist: seq<Message>, before: CompactionState, slices: seq<Given>, open: bool)

  datatype Slot = Slot(
    history: seq<Message>, comp: CompactionState, slices: seq<Given>, given: seq<Given>,
    jobs: map<JobId, Job>, open: bool)

  const RESET: Slot := Slot([], EMPTY, [], [], map[], false)

  datatype Action =
    | Append(m: Message)
    | Snapshot(j: JobId)
    | Commit(j: JobId, model: string, answer: string, attempt: Attempt)
    | Replace(h: seq<Message>)
    | Push(partial: string, prompt: string)
    | Pop

  datatype Config = Config(keep: nat, strip: string -> string)

  function Flatten(slices: seq<Given>): seq<Message> {
    if slices == [] then [] else Flatten(slices[..|slices| - 1]) + slices[|slices| - 1].messages
  }

  /** The messages that stay: all but a pushed pair. */
  function Stable(h: seq<Message>, open: bool): seq<Message> {
    if open && |h| >= 2 then h[..|h| - 2] else h
  }

  ghost predicate CanCommit(cfg: Config, s: Slot, a: Action) {
    && a.Commit? && a.j in s.jobs
    && Compacts(a.model, s.jobs[a.j].hist, cfg.keep, cfg.strip, a.answer, s.jobs[a.j].before, a.attempt)
  }

  /** The commit under the lock: a result that no longer fits the history is dropped. */
  predicate Installs(s: Slot, attempt: Attempt) {
    attempt.ok && Sanitize(attempt.state, |s.history|).summary != ""
  }

  ghost function Next(cfg: Config, s: Slot, a: Action): Slot {
    match a
    case Append(m) => s.(history := s.history + [m])
    case Snapshot(j) => s.(jobs := s.jobs[j := Job(s.history, s.comp, s.slices, s.open)])
    case Commit(j, model, answer, attempt) =>
      if !CanCommit(cfg, s, a) then s
      else
        var t := s.(jobs := s.jobs - {j}, given := if attempt.ok then s.given + [GivenOf(attempt)] else s.given);
        if Installs(s, attempt)
        then t.(comp := Sanitize(attempt.state, |s.history|), slices := s.jobs[j].slices + [GivenOf(attempt)])
        else t
    case Replace(h) => s.(history := h, comp := EMPTY, slices := [], given := [])
    case Push(partial, prompt) =>
      s.(history := s.history + [Message("assistant", partial), Message("user", prompt)], open := true)
    case Pop => s.(history := Stable(s.history, s.open), open := false)
  }

  ghost function Run(cfg: Config, acts: seq<Action>): Slot {
    if acts == [] then RESET else Next(cfg, Run(cfg, acts[..|acts| - 1]), acts[|acts| - 1])
  }

  /** Each summary was made from the one before it, the first from none; `summary` is the last. */
  predicate Chained(slices: seq<Given>, summary: string) {
    && summary == AnswerBefore(slices, |slices|)
    && forall i: nat :: i < |slices| ==> slices[i].prior == AnswerBefore(slices, i)
  }

  function AnswerBefore(slices: seq<Given>, i: nat): string
    requires i <= |slices|
  {
    if i == 0 then "" else slices[i - 1].answer
  }

  lemma ChainGrows(slices: seq<Given>, summary: string, g: Given)
    requires Chained(slices, summary) && g.prior == summary
    ensures Chained(slices + [g], g.answer)
  {
    forall i: nat | i < |slices| ensures AnswerBefore(slices + [g], i) == AnswerBefore(slices, i) {}
  }

  /** The summary stands for exactly the covered prefix: the slices that went into it are
      that prefix, cut into consecutive pieces, one per generation, each given to the
      summarizer with the summary of those before. */
  ghost predicate Conserved(h: seq<Message>, c: CompactionState, slices: seq<Given>) {
    && Sane(c, |h|)
    && Flatten(slices) == h[..c.coveredUntil]
    && c.generation == |slices|
    && (c.summary == "" <==> slices == [])
    && Chained(slices, c.summary)
    && (forall i :: 0 <= i < |slices| ==> slices[i].messages != [])
    && (c.coveredUntil > 0 ==> GoodStart(h, c.coveredUntil))
  }

  ghost predicate JobConserved(job: Job) {
    Conserved(job.hist, job.before, job.slices)
  }

  /** An open history ends in a pushed pair. */
  predicate PairOnTop(h: seq<Message>, open: bool) {
    open ==> |h| >= 2 && h[|h| - 2].role == "assistant"
  }

  /** What stays of a snapshot is conserved and the history still extends it; a snapshot with a
      pushed pair on top is not taken where a single message is kept. */
  ghost predicate JobInv(cfg: Config, s: Slot, job: Job) {
    && Conserved(Stable(job.hist, job.open), job.before, job.slices)
    && PairOnTop(job.hist, job.open) && (job.open ==> cfg.keep != 1)
    && Stable(job.hist, job.open) <= Stable(s.history, s.open)
  }

  /** What stays of the slot is conserved, and so is every snapshot. */
  ghost predicate Inv(cfg: Config, s: Slot) {
    && Conserved(Stable(s.history, s.open), s.comp, s.slices) && PairOnTop(s.history, s.open)
    && forall j :: j in s.jobs ==> JobInv(cfg, s, s.jobs[j])
  }

  lemma ConservedExtends(h: seq<Message>, h': seq<Message>, c: CompactionState, slices: seq<Given>)
    requires Conserved(h, c, slices) && h <= h'
    ensures Conserved(h', c, slices)
  {
    assert h'[..c.coveredUntil] == h[..c.coveredUntil];
  }

  /** One more slice behind the ones that make up a prefix. */
  lemma FlattenGrows(slices: seq<Given>, g: Given, h: seq<Message>, from: nat, to: nat)
    requires from <= to <= |h| && Flatten(slices) == h[..from] && g.messages == h[from..to]
    ensures Flatten(slices + [g]) == h[..to]
  {
    assert (slices + [g])[..|slices|] == slices;
    assert h[..from] + h[from..to] == h[..to];
  }

  /** What a successful attempt makes of its own snapshot. */
  lemma AttemptConserves(cfg: Config, job: Job, model: string, answer: string, a: Attempt)
    requires JobConserved(job) && a.ok
    requires Compacts(model, job.hist, cfg.keep, cfg.strip, answer, job.before, a)
    ensures Conserved(job.hist, a.state, job.slices + [GivenOf(a)])
    ensures a.state.coveredUntil > job.before.coveredUntil && a.state.generation == job.before.generation + 1
  {
    SanitizeExact(job.before, |job.hist|);
    FlattenGrows(job.slices, GivenOf(a), job.hist, job.before.coveredUntil, a.state.coveredUntil);
    ChainGrows(job.slices, job.before.summary, GivenOf(a));
  }

  /** Where a snapshot with a pushed pair is cut: before the pair, unless a single message is
      kept; then the partial reply, which will be popped, goes into the summary. */
  lemma WindowCut(h: seq<Message>, partial: string, prompt: string, keep: nat, cut: nat)
    requires IsCut(h + [Message("assistant", partial), Message("user", prompt)], keep, cut)
    ensures cut <= |h| <==> keep != 1 || IsToolResults(Message("user", prompt))
  {
    var pushed := h + [Message("assistant", partial), Message("user", prompt)];
    assert pushed[|h|].role == "assistant" && pushed[|h| + 1] == Message("user", prompt);
    if keep == 1 { assert GoodStart(pushed, |h| + 1) <==> !IsToolResults(Message("user", prompt)); }
  }

  /** An attempt that keeps more than one message leaves a pushed pair out. */
  lemma CutIsStable(job: Job, keep: nat, cut: nat)
    requires PairOnTop(job.hist, job.open) && (job.open ==> keep != 1) && IsCut(job.hist, keep, cut)
    ensures cut == 0 || cut < |Stable(job.hist, job.open)|
  {
    if job.open && cut > 0 { assert !GoodStart(job.hist, |job.hist| - 2); }
  }

  lemma ConservedRestricts(h: seq<Message>, open: bool, c: CompactionState, slices: seq<Given>)
    requires Conserved(h, c, slices) && c.coveredUntil < |Stable(h, open)|
    ensures Conserved(Stable(h, open), c, slices)
  {
    assert Stable(h, open)[..c.coveredUntil] == h[..c.coveredUntil];
  }

  /** A successful attempt, on what stays of its snapshot. */
  lemma JobAttemptConserves(cfg: Config, s: Slot, job: Job, model: string, answer: string, a: Attempt)
    requires JobInv(cfg, s, job) && a.ok
    requires Compacts(model, job.hist, cfg.keep, cfg.strip, answer, job.before, a)
    ensures Conserved(Stable(s.history, s.open), a.state, job.slices + [GivenOf(a)])
    ensures a.state.coveredUntil > job.before.coveredUntil && a.state.generation == job.before.generation + 1
    ensures Sanitize(a.state, |s.history|) == a.state && a.state.summary != ""
  {
    ConservedExtends(Stable(job.hist, job.open), job.hist, job.before, job.slices);
    AttemptConserves(cfg, job, model, answer, a);
    CutIsStable(job, cfg.keep, a.state.coveredUntil);
    ConservedRestricts(job.hist, job.open, a.state, job.slices + [GivenOf(a)]);
    ConservedExtends(Stable(job.hist, job.open), Stable(s.history, s.open), a.state, job.slices + [GivenOf(a)]);
    SanitizeExact(a.state, |s.history|);
  }

  lemma CommitKeepsInv(cfg: Config, s: Slot, a: Action)
    requires Inv(cfg, s) && CanCommit(cfg, s, a)
    ensures Inv(cfg, Next(cfg, s, a))
  {
    var (job, t) := (s.jobs[a.j], Next(cfg, s, a));
    assert JobInv(cfg, s, job);
    if a.attempt.ok { JobAttemptConserves(cfg, s, job, a.model, a.answer, a.attempt); }
    forall j | j in t.jobs ensures JobInv(cfg, t, t.jobs[j]) { assert JobInv(cfg, s, s.jobs[j]); }
  }

  /** Whatever leaves what stays of the history a prefix keeps the snapshots. */
  lemma JobsExtend(cfg: Config, s: Slot, t: Slot)
    requires Inv(cfg, s) && t.jobs == s.jobs && t.comp == s.comp && t.slices == s.slices
    requires Stable(s.history, s.open) <= Stable(t.history, t.open) && PairOnTop(t.history, t.open)
    ensures Inv(cfg, t)
  {
    ConservedExtends(Stable(s.history, s.open), Stable(t.history, t.open), s.comp, s.slices);
    forall j | j in t.jobs ensures JobInv(cfg, t, t.jobs[j]) { assert JobInv(cfg, s, s.jobs[j]); }
  }

  lemma NextKeepsInv(cfg: Config, s: Slot, a: Action)
    requires Inv(cfg, s) && Orderly(cfg, s, a)
    ensures Inv(cfg, Next(cfg, s, a))
  {
    var t := Next(cfg, s, a);
    match a {
      case Append(m) => JobsExtend(cfg, s, t);
      case Snapshot(_) =>
        forall j | j in t.jobs ensures JobInv(cfg, t, t.jobs[j]) {
          if j in s.jobs { assert JobInv(cfg, s, s.jobs[j]); }
        }
      case Commit(_, _, _, _) => if CanCommit(cfg, s, a) { CommitKeepsInv(cfg, s, a); }
      case Replace(h) =>
      case Push(partial, prompt) =>
        assert Stable(t.history, true) == s.history;
        JobsExtend(cfg, s, t);
      case Pop => JobsExtend(cfg, s, t);
    }
  }

  /** Histories are replaced (session load, reset) only while no attempt is in flight; while a
      reply is being continued no message arrives and none goes, and no snapshot is taken where a single
      message is kept. */
  predicate Orderly(cfg: Config, s: Slot, a: Action) {
    && (a.Replace? ==> s.jobs == map[])
    && (s.open ==> !a.Append? && !a.Replace? && !a.Push? && (a.Snapshot? ==> cfg.keep != 1))
  }

  ghost predicate OrderlyRun(cfg: Config, acts: seq<Action>) {
    forall i :: 0 <= i < |acts| ==> Orderly(cfg, Run(cfg, acts[..i]), acts[i])
  }

  /** In every orderly run of appends, continuations, overlapping attempts and replacements,
      the slices behind the current summary, those of the attempts it descends from,
      concatenate to exactly the covered prefix, and a pushed pair is not among them. */
  lemma {:induction false} RunConserves(cfg: Config, acts: seq<Action>)
    requires OrderlyRun(cfg, acts)
    ensures Inv(cfg, Run(cfg, acts))
  {
    if acts == [] {
      assert RESET.history[..0] == [];
    } else {
      var p := acts[..|acts| - 1];
      assert forall i :: 0 <= i < |p| ==> p[..i] == acts[..i];
      RunConserves(cfg, p);
      NextKeepsInv(cfg, Run(cfg, p), acts[|acts| - 1]);
    }
  }

  /** The view is the whole history, or it opens with the summary in full and goes on with
      everything the summarizer was not given. */
  ghost predicate NothingLost(s: Slot, view: seq<Message>) {
    var n := |Flatten(s.slices)|;
    && n <= |s.history| && Flatten(s.slices) == s.history[..n]
    && (if s.slices == [] then view == s.history else Opens(view, s.comp.summary, s.history[n..]))
    && (Alternating(s.history) ==> Alternating(view))
  }

  lemma ConservedNothingLost(s: Slot, view: seq<Message>)
    requires Conserved(s.history, s.comp, s.slices) && IsView(s.history, s.comp, view)
    ensures NothingLost(s, view)
  {
    if s.slices != [] { ViewCarriesSummary(s.history, s.comp, view); }
    if Alternating(s.history) && s.comp.coveredUntil > 0 { ViewAlternates(s.history, s.comp, view); }
    if Alternating(s.history) && s.comp.coveredUntil == 0 {
      assert s.slices == [] by { if s.slices != [] { FlattenNonEmpty(s.slices); } }
    }
  }

  lemma FlattenNonEmpty(slices: seq<Given>)
    requires slices != [] && slices[|slices| - 1].messages != []
    ensures Flatten(slices) != []
  {
  }

  /** In every such run the model view and the slices together account for every message,
      and an alternating history is shown alternating. */
  lemma ViewLosesNothing(cfg: Config, acts: seq<Action>, view: seq<Message>)
    requires OrderlyRun(cfg, acts)
    requires
      var s := Run(cfg, acts);
      IsView(s.history, s.comp, view)
    ensures NothingLost(Run(cfg, acts), view)
  {
    RunConserves(cfg, acts);
    var s := Run(cfg, acts);
    ConservedExtends(Stable(s.history, s.open), s.history, s.comp, s.slices);
    ConservedNothingLost(s, view);
  }

  // ---- one attempt at a time ----

  /** The slot as it is when attempts do not overlap: at most one is in flight, it started
      from the present state, and nothing the summarizer was given has been forgotten. */
  ghost predicate Undisturbed(cfg: Config, s: Slot) {
    && Inv(cfg, s) && s.given == s.slices
    && (forall j :: j in s.jobs ==> s.jobs[j].before == s.comp && s.jobs[j].slices == s.slices)
    && (forall j, j' :: j in s.jobs && j' in s.jobs ==> j == j')
  }

  /** An orderly run in which attempts begin only while no attempt is in flight. */
  ghost predicate OneAtATime(cfg: Config, acts: seq<Action>) {
    && OrderlyRun(cfg, acts)
    && forall i :: 0 <= i < |acts| && acts[i].Snapshot? ==> Run(cfg, acts[..i]).jobs == map[]
  }

  /** The attempt succeeds and moves cut and generation forward, or nothing changes. */
  predicate AdvancesOrNothing(s: Slot, t: Slot, attempt: Attempt) {
    if attempt.ok
    then t.comp.coveredUntil > s.comp.coveredUntil && t.comp.generation == s.comp.generation + 1
    else t.comp == s.comp && t.slices == s.slices && t.given == s.given
  }

  lemma CommitUndisturbed(cfg: Config, s: Slot, a: Action)
    requires Undisturbed(cfg, s) && CanCommit(cfg, s, a)
    ensures Undisturbed(cfg, Next(cfg, s, a)) && AdvancesOrNothing(s, Next(cfg, s, a), a.attempt)
  {
    CommitKeepsInv(cfg, s, a);
    var job := s.jobs[a.j];
    assert JobInv(cfg, s, job);
    if a.attempt.ok { JobAttemptConserves(cfg, s, job, a.model, a.answer, a.attempt); }
  }

  lemma NextUndisturbed(cfg: Config, s: Slot, a: Action)
    requires Undisturbed(cfg, s) && Orderly(cfg, s, a) && (a.Snapshot? ==> s.jobs == map[])
    ensures Undisturbed(cfg, Next(cfg, s, a))
  {
    if CanCommit(cfg, s, a) {
      CommitUndisturbed(cfg, s, a);
    } else {
      NextKeepsInv(cfg, s, a);
    }
  }

  lemma {:induction false} RunUndisturbed(cfg: Config, acts: seq<Action>)
    requires OneAtATime(cfg, acts)
    ensures Undisturbed(cfg, Run(cfg, acts))
  {
    if acts == [] {
      assert RESET.history[..0] == [];
    } else {
      var (p, a) := (acts[..|acts| - 1], acts[|acts| - 1]);
      assert forall i :: 0 <= i < |p| ==> p[..i] == acts[..i];
      RunUndisturbed(cfg, p);
      NextUndisturbed(cfg, Run(cfg, p), a);
    }
  }

  /** In every run whose attempts do not overlap, everything the summarizer was given on
      successful attempts concatenates to exactly the covered prefix, one slice per
      generation; and each attempt advances both or changes nothing. */
  lemma SlicesAreThePrefix(cfg: Config, acts: seq<Action>, a: Action)
    requires OneAtATime(cfg, acts)
    ensures
      var s := Run(cfg, acts);
      && s.comp.coveredUntil <= |s.history|
      && Flatten(s.given) == s.history[..s.comp.coveredUntil] && |s.given| == s.comp.generation
      && (CanCommit(cfg, s, a) ==> AdvancesOrNothing(s, Next(cfg, s, a), a.attempt))
  {
    RunUndisturbed(cfg, acts);
    var s := Run(cfg, acts);
    if CanCommit(cfg, s, a) { CommitUndisturbed(cfg, s, a); }
  }

  // ---- attempts that overlap ----

  /** A successful commit moves cut and generation forward exactly when the slot's generation
      is the one the snapshot saw and the snapshot's cut lies past what is covered by now; the
      commit itself looks at neither. */
  lemma CommitAdvancesExactly(cfg: Config, s: Slot, a: Action)
    requires Inv(cfg, s) && CanCommit(cfg, s, a) && a.attempt.ok
    ensures
      var (job, t) := (s.jobs[a.j], Next(cfg, s, a));
      (t.comp.coveredUntil > s.comp.coveredUntil && t.comp.generation == s.comp.generation + 1) <==>
        job.before.generation == s.comp.generation
        && exists cut: nat :: IsCut(job.hist, cfg.keep, cut) && cut > s.comp.coveredUntil
  {
    var job := s.jobs[a.j];
    assert JobInv(cfg, s, job);
    JobAttemptConserves(cfg, s, job, a.model, a.answer, a.attempt);
    forall cut: nat | IsCut(job.hist, cfg.keep, cut) ensures cut == a.attempt.state.coveredUntil {
      CutUnique(job.hist, cfg.keep, cut, a.attempt.state.coveredUntil);
    }
  }

  function Said(text: string): Message {
    Message("user", text)
  }

  /** Two attempts overlap and the one begun first commits last. */
  function OverlapRun(strip: string -> string): seq<Action> {
    var early := Attempt(true, CompactionState("S", 1, 1, "user", BoundaryContent(strip("b")), 0), true, "", [Said("a")]);
    var late := Attempt(true, CompactionState("T", 2, 1, "user", BoundaryContent(strip("c")), 0), true, "",
                        [Said("a"), Said("b")]);
    [Append(Said("a")), Append(Said("b")), Snapshot(0), Append(Said("c")), Snapshot(1),
     Commit(1, "m", "T", late), Commit(0, "m", "S", early)]
  }

  const ABC: seq<Message> := [Said("a"), Said("b"), Said("c")]

  /** Both attempts are in flight. */
  lemma OverlapBegins(strip: string -> string)
    ensures Run(Config(1, strip), OverlapRun(strip)[..5]) ==
            Slot(ABC, EMPTY, [], [], map[0 := Job(ABC[..2], EMPTY, [], false), 1 := Job(ABC, EMPTY, [], false)], false)
  {
    var (cfg, acts) := (Config(1, strip), OverlapRun(strip));
    assert Run(cfg, acts[..0]) == RESET;
    assert Run(cfg, acts[..1]) == RESET.(history := ABC[..1]) by { assert acts[..1][..0] == []; }
    var s2 := RESET.(history := ABC[..2]);
    assert Run(cfg, acts[..2]) == s2 by { assert acts[..2][..1] == acts[..1]; }
    var s3 := s2.(jobs := map[0 := Job(ABC[..2], EMPTY, [], false)]);
    assert Run(cfg, acts[..3]) == s3 by { assert acts[..3][..2] == acts[..2]; }
    var s4 := s3.(history := ABC);
    assert Run(cfg, acts[..4]) == s4 by { assert acts[..4][..3] == acts[..3]; }
    assert Run(cfg, acts[..5]) == Next(cfg, s4, acts[4]) by { assert acts[..5][..4] == acts[..4]; }
  }

  /** The later attempt commits. */
  lemma OverlapAdvances(strip: string -> string)
    ensures
      var s := Run(Config(1, strip), OverlapRun(strip)[..6]);
      && s.history == ABC && s.comp.coveredUntil == 2 && s.comp.generation == 1
      && s.given == [Given("", ABC[..2], "T")] && s.jobs == map[0 := Job(ABC[..2], EMPTY, [], false)]
  {
    var (cfg, acts) := (Config(1, strip), OverlapRun(strip));
    OverlapBegins(strip);
    var s := Run(cfg, acts[..5]);
    assert IsCut(ABC, 1, 2) && CanCommit(cfg, s, acts[5]);
    assert Run(cfg, acts[..6]) == Next(cfg, s, acts[5]) by { assert acts[..6][..5] == acts[..5]; }
  }

  /** The commit that comes last. */
  lemma StaleCommit(strip: string -> string, s: Slot)
    requires s.history == ABC && s.given == [Given("", ABC[..2], "T")] && s.jobs == map[0 := Job(ABC[..2], EMPTY, [], false)]
    ensures
      var t := Next(Config(1, strip), s, OverlapRun(strip)[6]);
      && t.comp.coveredUntil == 1 && t.comp.generation == 1 && t.history == ABC
      && t.given == [Given("", ABC[..2], "T")] + [Given("", ABC[..1], "S")]
  {
    var (cfg, a) := (Config(1, strip), OverlapRun(strip)[6]);
    assert ABC[..1] == [Said("a")] && IsCut(ABC[..2], 1, 1) && CanCommit(cfg, s, a);
  }

  /** No history is replaced, yet the earlier attempt, committing last, takes the cut back from
      2 to 1 and leaves the generation at 1; the summarizer has been given more than the
      covered prefix. */
  lemma OverlapRegresses(strip: string -> string)
    ensures
      var (cfg, acts) := (Config(1, strip), OverlapRun(strip));
      var (s, t) := (Run(cfg, acts[..6]), Run(cfg, acts));
      && s.comp.coveredUntil == 2 && t.comp.coveredUntil == 1
      && s.comp.generation == 1 && t.comp.generation == 1
      && Flatten(t.given) == ABC[..2] + ABC[..1] && t.history == ABC
  {
    var (cfg, acts) := (Config(1, strip), OverlapRun(strip));
    OverlapAdvances(strip);
    var s := Run(cfg, acts[..6]);
    StaleCommit(strip, s);
    assert Run(cfg, acts) == Next(cfg, s, acts[6]);
    FlattenTwo(Given("", ABC[..2], "T"), Given("", ABC[..1], "S"));
  }

  lemma FlattenOne(a: Given)
    ensures Flatten([a]) == Flatten([] + [a]) == a.messages
  {
    assert [a][..0] == [] && [] + [a] == [a];
  }

  lemma FlattenTwo(a: Given, b: Given)
    ensures Flatten([a] + [b]) == a.messages + b.messages
  {
    assert ([a] + [b])[..1] == [a] && [a][..0] == [];
    assert Flatten([a]) == [] + a.messages == a.messages;
  }

  // ---- a replacement that falls inside an attempt ----

  /** Whatever happened to the history meanwhile, a commit keeps the account straight
      exactly when it is dropped or the part it summarized is still what the history says. */
  lemma CommitConservesExactly(cfg: Config, s: Slot, a: Action)
    requires CanCommit(cfg, s, a) && JobConserved(s.jobs[a.j]) && Conserved(s.history, s.comp, s.slices)
    requires a.attempt.ok
    ensures
      var cut := a.attempt.state.coveredUntil;
      var t := Next(cfg, s, a);
      Conserved(t.history, t.comp, t.slices) <==>
        cut > |s.history| || (GoodStart(s.history, cut) && s.history[..cut] == s.jobs[a.j].hist[..cut])
  {
    var job := s.jobs[a.j];
    AttemptConserves(cfg, job, a.model, a.answer, a.attempt);
    SanitizeExact(a.attempt.state, |s.history|);
  }

  const AB: seq<Message> := [Said("a"), Said("b")]
  const CD: seq<Message> := [Said("c"), Said("d")]

  function RaceRun(strip: string -> string): seq<Action> {
    var attempt := Attempt(true, CompactionState("S", 1, 1, "user", BoundaryContent(strip("b")), 0), true, "", AB[0..1]);
    [Replace(AB), Snapshot(0), Replace(CD), Commit(0, "m", "S", attempt)]
  }

  lemma RaceBegins(strip: string -> string)
    ensures Run(Config(1, strip), RaceRun(strip)[..3]) ==
            Slot(CD, EMPTY, [], [], map[0 := Job(AB, EMPTY, [], false)], false)
  {
    var (cfg, acts) := (Config(1, strip), RaceRun(strip));
    var s1 := RESET.(history := AB);
    assert Run(cfg, acts[..0]) == RESET && Run(cfg, acts[..1]) == s1 by { assert acts[..1][..0] == []; }
    var s2 := s1.(jobs := map[0 := Job(AB, EMPTY, [], false)]);
    assert Run(cfg, acts[..2]) == s2 by { assert acts[..2][..1] == acts[..1]; }
    assert Run(cfg, acts[..3]) == Next(cfg, s2, acts[2]) by { assert acts[..3][..2] == acts[..2]; }
  }

  /** Replace the history while an attempt is in flight and the old conversation's summary
      is installed in front of the new one: "c" is neither summarized nor shown. */
  lemma ReplaceRaceLoses(strip: string -> string)
    ensures
      var s := Run(Config(1, strip), RaceRun(strip));
      && s.history == [Said("c"), Said("d")] && s.comp.coveredUntil == 1
      && s.comp.summary == "S" && Flatten(s.slices) == [Said("a")]
  {
    var (cfg, acts) := (Config(1, strip), RaceRun(strip));
    RaceBegins(strip);
    var s := Run(cfg, acts[..3]);
    assert IsCut(AB, 1, 1) && CanCommit(cfg, s, acts[3]);
    assert Run(cfg, acts) == Next(cfg, s, acts[3]);
    FlattenOne(Given("", AB[0..1], "S"));
  }

  // ---- a snapshot that falls inside a continuation ----

  const PARTIAL: Message := Message("assistant", "p")
  const GO_ON: Message := Message("user", "go on")

  /** "a" is being answered; an attempt reads the history while the reply is being continued. */
  function WindowRun(strip: string -> string): seq<Action> {
    var attempt := Attempt(true, CompactionState("S", 2, 1, "user", BoundaryContent(strip("go on")), 0), true, "",
                           [Said("a"), PARTIAL]);
    [Append(Said("a")), Push("p", "go on"), Snapshot(0), Pop, Append(Message("assistant", "pq")),
     Commit(0, "m", "S", attempt)]
  }

  lemma WindowOpens(strip: string -> string)
    ensures
      var pushed := [Said("a"), PARTIAL, GO_ON];
      Run(Config(1, strip), WindowRun(strip)[..3]) ==
        Slot(pushed, EMPTY, [], [], map[0 := Job(pushed, EMPTY, [], true)], true)
  {
    var (cfg, acts) := (Config(1, strip), WindowRun(strip));
    assert Run(cfg, acts[..0]) == RESET;
    assert Run(cfg, acts[..1]) == RESET.(history := [Said("a")]) by { assert acts[..1][..0] == []; }
    var s2 := RESET.(history := [Said("a"), PARTIAL, GO_ON], open := true);
    assert Run(cfg, acts[..2]) == s2 by { assert acts[..2][..1] == acts[..1]; }
    assert Run(cfg, acts[..3]) == Next(cfg, s2, acts[2]) by { assert acts[..3][..2] == acts[..2]; }
  }

  /** Where a single message is kept, an attempt begun inside a continuation summarizes the
      partial reply and is installed over the finished one: "pq" is neither summarized nor
      shown, although nothing was appended or replaced while the pair was there. */
  lemma WindowSnapshotLoses(strip: string -> string)
    ensures
      var s := Run(Config(1, strip), WindowRun(strip));
      && s.history == [Said("a"), Message("assistant", "pq")] && s.comp.coveredUntil == 2
      && Flatten(s.slices) == [Said("a"), PARTIAL]
  {
    var (cfg, acts) := (Config(1, strip), WindowRun(strip));
    WindowOpens(strip);
    var s3 := Run(cfg, acts[..3]);
    var s4 := s3.(history := [Said("a")], open := false);
    assert Run(cfg, acts[..4]) == s4 by { assert acts[..4][..3] == acts[..3]; }
    var s5 := s4.(history := [Said("a"), Message("assistant", "pq")]);
    assert Run(cfg, acts[..5]) == s5 by { assert acts[..5][..4] == acts[..4]; }
    assert GO_ON.content[0] != TOOL_RESULTS[0];
    assert IsCut(s3.history, 1, 2) && CanCommit(cfg, s5, acts[5]);
    assert Run(cfg, acts) == Next(cfg, s5, acts[5]);
    FlattenOne(Given("", [Said("a"), PARTIAL], "S"));
  }
}
