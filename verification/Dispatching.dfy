/** The dispatcher's loop and its branches. Every callback and every event is appended to a
    trace; the branches keep their own counters, decide what may be cached, and some of them
    close their command themselves and return early. */
module Dispatching {
  import opened Common
  import opened Dispatch

  /** A branch made the calls of the plan `p`, in that order, and reports the plan's block and
      whether it may be cached. */
  ghost predicate Follows(h: Host, q: Request, r: Reply, p: Plan, made: seq<Callee>, block: string, cacheResult: bool) {
    made == p.calls && block == BlockOf(h, q, p.outcome, r.text) && cacheResult == p.cacheable
  }

  /** Navigating and reading the page is one URL read. */
  lemma BrowseSpent(h: Host, r: Reply, b: Budget)
    ensures
      var calls := BrowsePlan(h, r, b).calls;
      Spent(b, calls) == b.(urls := b.urls + if calls == [] then 0 else 1)
  {
    SpentSnoc(b, [], BrowseUrl);
    SpentSnoc(b, [BrowseUrl], Snapshot);
    assert [] + [BrowseUrl] == [BrowseUrl] && [BrowseUrl] + [Snapshot] == [BrowseUrl, Snapshot];
  }

  /** Only `/write` and `/map` close their command themselves. */
  lemma EarlyTools(h: Host, q: Request, r: Reply, b: Budget)
    ensures PlanFor(h, q, r, b).early ==> q.tool.Write? || q.tool.Map?
  {
  }

  lemma NothingSpent(b: Budget)
    ensures Spent(b, []) == b
  {
  }

  lemma OneCallSpent(b: Budget, c: Callee, made: seq<Callee>)
    requires made <= [c]
    ensures Spent(b, made) == if made == [] then b else Charged(b, c)
  {
    NothingSpent(b);
    SpentSnoc(b, [], c);
    assert made == [] || made == [] + [c];
  }

  /** A refused command and a replayed one make no call and leave cache and counters alone. */
  lemma UnrunHandled(h: Host, cache: Cache, b: Budget, q: Request, r: Reply, s: Segment)
    requires s.request == q && s.calls == [] && !Live(h, cache, q)
    requires !Granted(h.capabilities, q.tool) ==> !s.ok && s.block == BlockOf(h, q, Refused, r.text)
    requires Granted(h.capabilities, q.tool) ==> s.block == cache[KeyOf(h, q)] && s.ok == !h.isFailure(s.block)
    ensures Handled(h, cache, b, q, r, s, cache, b)
  {
    NothingSpent(b);
  }

  lemma SegmentTrace(trace: seq<Effect>, s: Segment)
    ensures trace + [Started(s.id, s.request)] + CalledAll(s.calls) + [Finished(s.id, s.request, s.ok)] == trace + Effects(s)
    ensures s.calls == [] ==>
              trace + [Started(s.id, s.request)] + [Finished(s.id, s.request, s.ok)] == trace + Effects(s)
  {
  }

  predicate IsBlank(c: char) {
    c == ' ' || c == '\t'
  }

  const PERSIST: string := "--persist"

  /** The flag stands first, behind `k` blanks and with a blank behind it. */
  predicate FlagAt(args: string, k: nat) {
    && k + 9 < |args| && IsBlank(args[k + 9])
    && (forall i :: 0 <= i < 9 ==> args[k + i] == PERSIST[i])
    && (forall i :: 0 <= i < k ==> IsBlank(args[i]))
  }

  lemma FlagShifts(args: string, k: nat)
    requires args != "" && IsBlank(args[0])
    ensures FlagAt(args[1..], k) <==> FlagAt(args, k + 1)
  {
    var rest := args[1..];
    assert forall i :: 0 <= i < |rest| ==> rest[i] == args[i + 1];
    if FlagAt(args, k + 1) {
      forall i | 0 <= i < 9 ensures rest[k + i] == PERSIST[i] { assert args[k + 1 + i] == PERSIST[i]; }
    }
  }

  lemma FlagFirst(args: string)
    requires args == "" || !IsBlank(args[0])
    ensures WantsPersist(args) <==> FlagAt(args, 0)
  {
    if |args| > 9 { assert args[..9] == PERSIST <==> forall i :: 0 <= i < 9 ==> args[0 + i] == PERSIST[i]; }
  }

  /** A file is to be kept if and only if the flag is its first argument. */
  lemma {:induction false} PersistExactly(args: string)
    ensures WantsPersist(args) <==> exists k: nat :: FlagAt(args, k)
  {
    if args != "" && IsBlank(args[0]) {
      PersistExactly(args[1..]);
      forall k: nat ensures FlagAt(args[1..], k) <==> FlagAt(args, k + 1) { FlagShifts(args, k); }
      assert args[0] != PERSIST[0] && !FlagAt(args, 0);
      if k: nat :| FlagAt(args, k) { assert FlagAt(args[1..], k - 1); }
    } else {
      FlagFirst(args);
    }
  }

  /** The `--persist` flag, once leading blanks are gone. */
  method DetectPersist(args: string) returns (persist: bool)
    ensures persist == WantsPersist(args)
  {
    var i := 0;
    assert args[0..] == args;
    while i < |args| && (args[i] == ' ' || args[i] == '\t')
      invariant i <= |args| && WantsPersist(args[i..]) == WantsPersist(args)
    {
      assert args[i..][1..] == args[i + 1..];
      i := i + 1;
    }
    var path := args[i..];
    persist := |path| > 9 && path[..9] == "--persist" && (path[9] == ' ' || path[9] == '\t');
  }

  class Dispatcher {
    const host: Host
    var cache: Cache
    var lastId: nat
    var trace: seq<Effect>
    var out: string
    var fetchCount: nat
    var searchCount: nat
    var adviseCount: nat

    constructor (host: Host)
      ensures this.host == host && trace == [] && cache == map[] && lastId == 0
    {
      this.host, cache, lastId, trace, out := host, map[], 0, [], "";
      fetchCount, searchCount, adviseCount := 0, 0, 0;
    }

    function Counts(): Budget
      reads this
    {
      Budget(fetchCount, searchCount, adviseCount)
    }

    // ---- the gate ----

    method AllowedBundles() returns (allowed: set<Bundle>)
      ensures Resolved(host, allowed)
    {
      allowed := {};
      for i := 0 to |host.capabilities|
        invariant forall b :: b in allowed <==> exists j :: 0 <= j < i && BundleNamed(host.capabilities[j]) == Some(b)
      {
        var named := BundleNamed(host.capabilities[i]);
        if named.Some? {
          allowed := allowed + {named.value};
        }
      }
    }

    method Gate(allowed: set<Bundle>, tool: Tool) returns (pass: bool)
      requires Resolved(host, allowed)
      ensures pass <==> Granted(host.capabilities, tool)
    {
      pass := true;
      if host.capabilities != [] {
        var needed := BundleOf(tool);
        pass := needed.None? || needed.value in allowed;
      }
    }

    // ---- events ----

    method Emit(e: Effect)
      modifies this`trace
      ensures trace == old(trace) + [e]
    {
      trace := trace + [e];
    }

    /** Reach a callback; `made` are the calls of this command so far. */
    method Reach(c: Callee, ghost before: seq<Effect>, ghost made: seq<Callee>) returns (ghost made': seq<Callee>)
      requires trace == before + CalledAll(made)
      modifies this`trace
      ensures made' == made + [c] && trace == before + CalledAll(made')
    {
      CalledSnoc(before, made, c);
      Emit(Called(c));
      made' := made + [c];
    }

    /** Close a command inside its branch: hand the block out and report a failure. */
    method CloseEarly(q: Request, block: string)
      modifies this`trace, this`out
      ensures trace == old(trace) + [Finished(lastId, q, false)] && out == old(out) + block
    {
      out := out + block;
      Emit(Finished(lastId, q, false));
    }

    // ---- branches ----

    method FetchBranch(q: Request, r: Reply) returns (block: string, cacheResult: bool, ghost made: seq<Callee>)
      requires q.tool.Fetch?
      modifies this`trace, this`fetchCount
      ensures Follows(host, q, r, PlanFor(host, q, r, old(Counts())), made, block, cacheResult)
      ensures fetchCount == old(fetchCount) + |made| && made <= [FetchUrl]
      ensures trace == old(trace) + CalledAll(made)
    {
      made, cacheResult := [], true;
      if fetchCount >= MAX_FETCHES {
        block := BlockOf(host, q, Skipped, r.text);
        cacheResult := false;
      } else {
        fetchCount := fetchCount + 1;
        made := Reach(FetchUrl, old(trace), made);
        block := BlockOf(host, q, Ran, r.text);
      }
    }

    method SearchBranch(q: Request, r: Reply) returns (block: string, cacheResult: bool, ghost made: seq<Callee>)
      requires q.tool.Search?
      modifies this`trace, this`searchCount
      ensures Follows(host, q, r, PlanFor(host, q, r, old(Counts())), made, block, cacheResult)
      ensures searchCount == old(searchCount) + |made| && made <= [SearchWeb]
      ensures trace == old(trace) + CalledAll(made)
    {
      made, cacheResult := [], true;
      if searchCount >= MAX_SEARCHES {
        block := BlockOf(host, q, Skipped, r.text);
        cacheResult := false;
      } else if !r.usable {
        block := BlockOf(host, q, Refused, r.text);
        cacheResult := false;
      } else if !host.search {
        block := BlockOf(host, q, Refused, r.text);
        cacheResult := false;
      } else {
        searchCount := searchCount + 1;
        made := Reach(SearchWeb, old(trace), made);
        block := BlockOf(host, q, Ran, r.text);
        if !r.cacheable {
          cacheResult := false;
        }
      }
    }

    method BrowseBranch(q: Request, r: Reply) returns (block: string, cacheResult: bool, ghost made: seq<Callee>)
      requires q.tool.Browse?
      modifies this`trace, this`fetchCount
      ensures Follows(host, q, r, BrowsePlan(host, r, old(Counts())), made, block, cacheResult)
      ensures fetchCount == old(fetchCount) + if made == [] then 0 else 1
      ensures trace == old(trace) + CalledAll(made)
    {
      made, cacheResult := [], true;
      if fetchCount >= MAX_FETCHES {
        block := BlockOf(host, q, Skipped, r.text);
        cacheResult := false;
      } else if !r.usable || !host.mcp || r.rejected {
        block := BlockOf(host, q, Refused, r.text);
        cacheResult := false;
      } else {
        fetchCount := fetchCount + 1;
        made := Reach(BrowseUrl, old(trace), made);
        if r.failed {
          cacheResult := false;
        } else {
          made := Reach(Snapshot, old(trace), made);
          if !r.cacheable {
            cacheResult := false;
          }
        }
        block := BlockOf(host, q, Ran, r.text);
      }
    }

    method ExecBranch(q: Request, r: Reply) returns (block: string, cacheResult: bool, ghost made: seq<Callee>)
      requires q.tool.Exec?
      modifies this`trace
      ensures Follows(host, q, r, ExecPlan(host, r), made, block, cacheResult)
      ensures trace == old(trace) + CalledAll(made)
    {
      made, cacheResult := [], true;
      var declined := false;
      block := BlockOf(host, q, Ran, r.text);
      if !host.execInvoker && host.execDisabled {
        block := BlockOf(host, q, Refused, r.text);
        cacheResult := false;
      } else if host.confirm && (!host.execInvoker || r.destructive) {
        made := Reach(Confirm, old(trace), made);
        if !r.confirmed {
          block := BlockOf(host, q, Declined, r.text);
          cacheResult := false;
          declined := true;
        }
      }
      if cacheResult && !declined && !(!host.execInvoker && host.execDisabled) {
        if host.execInvoker {
          made := Reach(InvokerExec, old(trace), made);
          if !r.cacheable {
            cacheResult := false;
          }
        } else {
          made := Reach(HostExec, old(trace), made);
        }
      }
    }

    method AdviseBranch(q: Request, r: Reply) returns (block: string, cacheResult: bool, ghost made: seq<Callee>)
      requires q.tool.Advise?
      modifies this`trace, this`adviseCount
      ensures Follows(host, q, r, PlanFor(host, q, r, old(Counts())), made, block, cacheResult)
      ensures adviseCount == old(adviseCount) + |made| && made <= [Consult]
      ensures trace == old(trace) + CalledAll(made)
    {
      made, cacheResult := [], true;
      if !host.advisor {
        block := BlockOf(host, q, Refused, r.text);
        cacheResult := false;
      } else if adviseCount >= MAX_ADVISE {
        block := BlockOf(host, q, Skipped, r.text);
        cacheResult := false;
      } else {
        adviseCount := adviseCount + 1;
        made := Reach(Consult, old(trace), made);
        block := BlockOf(host, q, Ran, r.text);
      }
    }

    /** Three ways out before anything is written: a truncated block, no workspace, and a
        declined confirmation. Each closes the command itself. */
    method WriteBranch(q: Request, r: Reply)
      returns (block: string, cacheResult: bool, closed: bool, ghost made: seq<Callee>)
      requires q.tool.Write?
      modifies this`trace, this`out
      ensures Follows(host, q, r, WritePlan(host, q, r), made, block, cacheResult)
      ensures closed == WritePlan(host, q, r).early
      ensures trace == old(trace) + CalledAll(made) + if closed then [Finished(lastId, q, false)] else []
      ensures out == if closed then old(out) + block else old(out)
    {
      made, cacheResult, closed := [], true, false;
      var persist := DetectPersist(q.args);
      if q.truncated {
        block := BlockOf(host, q, Refused, r.text);
        cacheResult := false;
        CloseEarly(q, block);
        return block, cacheResult, true, made;
      }
      if !host.writeInterceptor && host.rootProvider {
        made := Reach(Root, old(trace), made);
        if r.root == "" {
          block := BlockOf(host, q, Refused, r.text);
          cacheResult := false;
          CloseEarly(q, block);
          return block, cacheResult, true, made;
        }
      }
      if !host.writeInterceptor && host.confirm {
        made := Reach(Confirm, old(trace), made);
        if !r.confirmed {
          block := BlockOf(host, q, Declined, r.text);
          cacheResult := false;
          CloseEarly(q, block);
          return block, cacheResult, true, made;
        }
      }
      if host.writeInterceptor {
        made := Reach(SinkWrite, old(trace), made);
      } else {
        made := Reach(DiskWrite, old(trace), made);
      }
      if persist {
        if host.artifactWriter {
          made := Reach(Artifact, old(trace), made);
          if !r.cacheable {
            cacheResult := false;
          }
        }
      }
      block := BlockOf(host, q, Ran, r.text);
    }

    /** Two ways out before the tree is read, both for want of a workspace. */
    method MapBranch(q: Request, r: Reply)
      returns (block: string, cacheResult: bool, closed: bool, ghost made: seq<Callee>)
      requires q.tool.Map?
      modifies this`trace, this`out
      ensures Follows(host, q, r, MapPlan(host, r), made, block, cacheResult)
      ensures closed == MapPlan(host, r).early
      ensures trace == old(trace) + CalledAll(made) + if closed then [Finished(lastId, q, false)] else []
      ensures out == if closed then old(out) + block else old(out)
    {
      made, cacheResult, closed := [], true, false;
      if host.writeInterceptor && !host.rootProvider {
        block := BlockOf(host, q, Refused, r.text);
        cacheResult := false;
        CloseEarly(q, block);
        return block, cacheResult, true, made;
      }
      if host.rootProvider {
        made := Reach(Root, old(trace), made);
        if r.root == "" {
          block := BlockOf(host, q, Refused, r.text);
          cacheResult := false;
          CloseEarly(q, block);
          return block, cacheResult, true, made;
        }
      }
      made := Reach(MapTree, old(trace), made);
      if !r.cacheable {
        cacheResult := false;
      }
      block := BlockOf(host, q, Ran, r.text);
    }

    /** The commands with one callback each, `/help`, and names nobody knows. */
    method OtherBranch(q: Request, r: Reply) returns (block: string, cacheResult: bool, ghost made: seq<Callee>)
      requires !(q.tool.Fetch? || q.tool.Search? || q.tool.Browse? || q.tool.Exec? || q.tool.Advise?
                 || q.tool.Write? || q.tool.Map?)
      modifies this`trace, this`cache
      ensures Follows(host, q, r, PlanFor(host, q, r, Counts()), made, block, cacheResult)
      ensures trace == old(trace) + CalledAll(made) && cache == Shared(host, old(cache), q, r)
    {
      made, cacheResult := [], r.cacheable;
      if q.tool.Unknown? {
        block := BlockOf(host, q, Nothing, r.text);
        cacheResult := false;
      } else if q.tool.Help? {
        block := BlockOf(host, q, Ran, r.text);
      } else if r.usable {
        made := Reach(Backend(q.tool), old(trace), made);
        if q.tool.Agent? && host.dedup {
          cache := r.added + cache;
        }
        block := BlockOf(host, q, Ran, r.text);
      } else {
        block := BlockOf(host, q, Refused, r.text);
      }
    }

    // ---- one command ----

    /** The branch of the command's name. */
    method RunBranch(q: Request, r: Reply)
      returns (block: string, cacheResult: bool, closed: bool, ghost made: seq<Callee>)
      modifies this`trace, this`out, this`cache, this`fetchCount, this`searchCount, this`adviseCount
      ensures Follows(host, q, r, PlanFor(host, q, r, old(Counts())), made, block, cacheResult)
      ensures closed == PlanFor(host, q, r, old(Counts())).early && Counts() == Spent(old(Counts()), made)
      ensures trace == old(trace) + CalledAll(made) + if closed then [Finished(lastId, q, false)] else []
      ensures out == if closed then old(out) + block else old(out)
      ensures cache == Shared(host, old(cache), q, r)
    {
      closed := false;
      ghost var b := Counts();
      if q.tool.Fetch? {
        block, cacheResult, made := FetchBranch(q, r);
        OneCallSpent(b, FetchUrl, made);
      } else if q.tool.Search? {
        block, cacheResult, made := SearchBranch(q, r);
        OneCallSpent(b, SearchWeb, made);
      } else if q.tool.Browse? {
        block, cacheResult, made := BrowseBranch(q, r);
        BrowseSpent(host, r, b);
      } else if q.tool.Advise? {
        block, cacheResult, made := AdviseBranch(q, r);
        OneCallSpent(b, Consult, made);
      } else {
        block, cacheResult, closed, made := RunFree(q, r);
        FreeSpent(host, q, r, b);
      }
      EarlyTools(host, q, r, b);
    }

    /** The branches without a budget. */
    method RunFree(q: Request, r: Reply)
      returns (block: string, cacheResult: bool, closed: bool, ghost made: seq<Callee>)
      requires !Budgeted(q.tool)
      modifies this`trace, this`out, this`cache
      ensures Follows(host, q, r, PlanFor(host, q, r, Counts()), made, block, cacheResult)
      ensures closed == PlanFor(host, q, r, Counts()).early
      ensures trace == old(trace) + CalledAll(made) + if closed then [Finished(lastId, q, false)] else []
      ensures out == if closed then old(out) + block else old(out)
      ensures cache == Shared(host, old(cache), q, r)
    {
      closed := false;
      if q.tool.Exec? {
        block, cacheResult, made := ExecBranch(q, r);
      } else if q.tool.Write? {
        block, cacheResult, closed, made := WriteBranch(q, r);
      } else if q.tool.Map? {
        block, cacheResult, closed, made := MapBranch(q, r);
      } else {
        block, cacheResult, made := OtherBranch(q, r);
      }
      EarlyTools(host, q, r, Counts());
    }

    /** One command: an opening event, the gate, the cache, the branch, and a closing event
        unless the branch has closed the command already. */
    method One(allowed: set<Bundle>, q: Request, r: Reply) returns (ghost s: Segment)
      requires Resolved(host, allowed)
      modifies this
      ensures Handled(host, old(cache), old(Counts()), q, r, s, cache, Counts())
      ensures s.id == lastId == old(lastId) + r.idsTaken + 1 && trace == old(trace) + Effects(s)
      ensures out == old(out) + s.block
    {
      lastId := lastId + r.idsTaken + 1;
      Emit(Started(lastId, q));
      var pass := Gate(allowed, q.tool);
      if !pass {
        var block := BlockOf(host, q, Refused, r.text);
        out := out + block;
        Emit(Finished(lastId, q, false));
        s := Segment(lastId, q, [], block, false);
        UnrunHandled(host, cache, Counts(), q, r, s);
      } else if host.dedup && KeyOf(host, q) in cache {
        var block := cache[KeyOf(host, q)];
        out := out + block;
        Emit(Finished(lastId, q, !host.isFailure(block)));
        s := Segment(lastId, q, [], block, !host.isFailure(block));
        UnrunHandled(host, cache, Counts(), q, r, s);
      } else {
        s := RunLive(q, r);
      }
      SegmentTrace(old(trace), s);
    }

    /** A command that is neither refused nor answered from the cache. */
    method RunLive(q: Request, r: Reply) returns (ghost s: Segment)
      requires Live(host, cache, q)
      modifies this
      ensures lastId == old(lastId) && Handled(host, old(cache), old(Counts()), q, r, s, cache, Counts())
      ensures s.id == lastId && trace == old(trace) + CalledAll(s.calls) + [Finished(s.id, q, s.ok)]
      ensures out == old(out) + s.block
    {
      var block, cacheResult, closed;
      ghost var made;
      block, cacheResult, closed, made := RunBranch(q, r);
      if closed {
        return Segment(lastId, q, made, block, false);
      }
      out := out + block;
      if host.dedup && cacheResult && block != "" {
        cache := cache[KeyOf(host, q) := block];
      }
      var ok := block != "" && !host.isFailure(block);
      Emit(Finished(lastId, q, ok));
      s := Segment(lastId, q, made, block, ok);
    }

    // ---- a turn ----

    ghost predicate Valid()
      reads this
    {
      IdsUpTo(trace, lastId)
    }

    method Advance(allowed: set<Bundle>, cmds: seq<Request>, replies: seq<Reply>, i: nat,
                   ghost log: Log, ghost id0: nat, ghost cache0: Cache, ghost trace0: seq<Effect>)
      returns (ghost log': Log)
      requires Resolved(host, allowed) && Valid() && i == |log.segments| < |cmds| == |replies|
      requires Underway(host, cmds, replies, log, id0, cache0, cache, Counts(), out) && lastId == LastId(log, id0, i)
      requires trace == trace0 + Flatten(log.segments)
      requires |out| < TOTAL_LIMIT && !replies[i].cancelled
      modifies this
      ensures Valid() && i + 1 == |log'.segments|
      ensures Underway(host, cmds, replies, log', id0, cache0, cache, Counts(), out) && lastId == LastId(log', id0, i + 1)
      ensures trace == trace0 + Flatten(log'.segments)
    {
      ghost var s := One(allowed, cmds[i], replies[i]);
      UnderwayGrows(host, cmds, replies, log, id0, cache0, old(cache), old(Counts()), old(out), s, cache, Counts());
      TraceGrows(trace0, log.segments, s);
      IdsGrow(old(trace), old(lastId), s);
      log' := Extended(log, s, cache, Counts());
    }

    method Execute(cmds: seq<Request>, replies: seq<Reply>) returns (result: string, ghost log: Log)
      requires Valid() && |replies| == |cmds|
      modifies this
      ensures Valid() && Dispatched(host, cmds, replies, log, old(lastId))
      ensures log.caches[0] == old(cache) && log.caches[|log.segments|] == cache
      ensures trace == old(trace) + Flatten(log.segments) && lastId == LastId(log, old(lastId), |log.segments|)
      ensures StopsExactly(cmds, replies, log)
      ensures result == "\n" + Blocks(log.segments) + StopNote(cmds, log) + END_NOTE
    {
      var allowed := AllowedBundles();
      out := "\n";
      fetchCount, searchCount, adviseCount := 0, 0, 0;
      log := Log([], [cache], [Counts()]);
      var i := 0;
      while i < |cmds|
        invariant i <= |cmds| && |log.segments| == i
        invariant Underway(host, cmds, replies, log, old(lastId), old(cache), cache, Counts(), out)
        invariant trace == old(trace) + Flatten(log.segments) && lastId == LastId(log, old(lastId), i)
        invariant Valid()
      {
        if |out| >= TOTAL_LIMIT {
          result := out + FULL_NOTE + END_NOTE;
          return;
        }
        if replies[i].cancelled {
          result := out + CANCELLED_NOTE + END_NOTE;
          return;
        }
        log := Advance(allowed, cmds, replies, i, log, old(lastId), old(cache), old(trace));
        i := i + 1;
      }
      result := out + END_NOTE;
    }
  }
}
