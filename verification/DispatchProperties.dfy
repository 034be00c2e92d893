/** What every turn of the dispatcher keeps, whatever the commands and the answers. */
module DispatchProperties {
  import opened Common
  import opened Dispatch

  // ---- budgets ----

  /** The command's own branch would spend from the budget `k`, if there is any left. */
  predicate Wants(h: Host, q: Request, r: Reply, k: Kind) {
    match k
    case Url => q.tool.Fetch? || (q.tool.Browse? && r.usable && h.mcp && !r.rejected)
    case Searches => q.tool.Search? && r.usable && h.search
    case Consults => q.tool.Advise? && h.advisor
  }

  lemma FirstCallSpends(calls: seq<Callee>, k: Kind)
    requires 1 <= |calls| <= 2 && (|calls| == 2 ==> !Spends(calls[1], k))
    ensures Count(calls, k) == if Spends(calls[0], k) then 1 else 0
  {
    assert calls[..0] == [];
    CountSnoc(calls, 0);
    if |calls| == 2 {
      CountSnoc(calls, 1);
      assert calls[..2] == calls;
    } else {
      assert calls[..1] == calls;
    }
  }

  lemma BrowseSpends(h: Host, q: Request, r: Reply, b: Budget, k: Kind)
    requires q.tool.Browse?
    ensures Count(BrowsePlan(h, r, b).calls, k) == if Wants(h, q, r, k) && Used(b, k) < Limit(k) then 1 else 0
  {
    var calls := BrowsePlan(h, r, b).calls;
    if calls != [] {
      FirstCallSpends(calls, k);
    }
  }

  lemma OneCallSpends(h: Host, q: Request, r: Reply, b: Budget, k: Kind)
    requires q.tool.Fetch? || q.tool.Search? || q.tool.Advise?
    ensures Count(PlanFor(h, q, r, b).calls, k) == if Wants(h, q, r, k) && Used(b, k) < Limit(k) then 1 else 0
  {
    var calls := PlanFor(h, q, r, b).calls;
    if calls != [] {
      FirstCallSpends(calls, k);
    }
  }

  lemma PlanSpends(h: Host, q: Request, r: Reply, b: Budget, k: Kind)
    ensures Count(PlanFor(h, q, r, b).calls, k) == if Wants(h, q, r, k) && Used(b, k) < Limit(k) then 1 else 0
  {
    if q.tool.Browse? {
      BrowseSpends(h, q, r, b, k);
    } else if Budgeted(q.tool) {
      OneCallSpends(h, q, r, b, k);
    } else {
      FreeTools(h, q, r, b, k);
    }
  }

  function AllCalls(segments: seq<Segment>): seq<Callee> {
    if segments == [] then [] else AllCalls(segments[..|segments| - 1]) + segments[|segments| - 1].calls
  }

  lemma {:induction false} CountConcat(a: seq<Callee>, b: seq<Callee>, k: Kind)
    ensures Count(a + b, k) == Count(a, k) + Count(b, k)
  {
    if b == [] {
      assert a + b == a;
    } else {
      var front := b[..|b| - 1];
      CountConcat(a, front, k);
      assert (a + b)[..|a + b| - 1] == a + front;
    }
  }

  /** How many of the first `n` commands are run by a branch that would spend from `k`. */
  ghost function Demand(h: Host, cmds: seq<Request>, replies: seq<Reply>, log: Log, n: nat, k: Kind): nat
    requires n <= |cmds| == |replies| && n < |log.caches|
  {
    if n == 0 then 0
    else Demand(h, cmds, replies, log, n - 1, k)
         + if Live(h, log.caches[n - 1], cmds[n - 1]) && Wants(h, cmds[n - 1], replies[n - 1], k) then 1 else 0
  }

  function Min(a: nat, b: nat): nat { if a < b then a else b }

  lemma HandledSpends(h: Host, cache: Cache, b: Budget, q: Request, r: Reply, s: Segment, cache': Cache, b': Budget, k: Kind)
    requires Handled(h, cache, b, q, r, s, cache', b')
    ensures Count(s.calls, k) == if Live(h, cache, q) && Wants(h, q, r, k) && Used(b, k) < Limit(k) then 1 else 0
    ensures Used(b', k) == Used(b, k) + Count(s.calls, k)
  {
    PlanSpends(h, q, r, b, k);
  }

  /** What a turn may make of each. */
  function Allowance(k: Kind): nat {
    match k case Url => 3 case Searches => 4 case Consults => 2
  }

  /** A turn makes exactly as many URL reads, searches and consults as are asked for, up to
      3, 4 and 2. */
  lemma {:induction false} BudgetsExact(h: Host, cmds: seq<Request>, replies: seq<Reply>, log: Log, lastId: nat, n: nat, k: Kind)
    requires Dispatched(h, cmds, replies, log, lastId) && n <= |log.segments|
    ensures Used(log.budgets[n], k) == Count(AllCalls(log.segments[..n]), k)
    ensures Count(AllCalls(log.segments[..n]), k) == Min(Allowance(k), Demand(h, cmds, replies, log, n, k))
  {
    if n > 0 {
      var i := n - 1;
      BudgetsExact(h, cmds, replies, log, lastId, i, k);
      assert StepAt(h, cmds, replies, log, lastId, i);
      HandledSpends(h, log.caches[i], log.budgets[i], cmds[i], replies[i], log.segments[i],
                    log.caches[n], log.budgets[n], k);
      CallsGrow(log.segments, i, k);
    }
  }

  lemma CallsGrow(segments: seq<Segment>, i: nat, k: Kind)
    requires i < |segments|
    ensures Count(AllCalls(segments[..i + 1]), k) == Count(AllCalls(segments[..i]), k) + Count(segments[i].calls, k)
  {
    assert segments[..i + 1][..i] == segments[..i];
    CountConcat(AllCalls(segments[..i]), segments[i].calls, k);
  }

  // ---- capabilities ----

  /** What an entry of the capability list is good for, tool by tool: a member of a bundle
      stands for all of it. */
  predicate Lists(cap: string, tool: Tool) {
    match tool
    case Fetch | Search | Browse => cap == "/fetch" || cap == "/search" || cap == "/browse"
    case Exec => cap == "/exec"
    case Write => "/write" <= cap
    case Read | List | Map => cap == "/read" || cap == "/list" || cap == "/map"
    case Mem => "/mem" <= cap
    case Agent | Parallel | Pane => cap == "/agent" || cap == "/parallel" || cap == "/pane"
    case Mcp => cap == "/mcp"
    case A2a => cap == "/a2a"
    case Advise => cap == "/advise"
    case Todo => cap == "/todo"
    case Schedule => cap == "/schedule"
    case Lesson => cap == "/lesson"
    case Help | Unknown(_) => true
  }

  /** The list is empty, the command needs no grant, or some entry is good for it. */
  ghost predicate MayUse(capabilities: seq<string>, tool: Tool) {
    || capabilities == [] || tool.Help? || tool.Unknown?
    || exists i :: 0 <= i < |capabilities| && Lists(capabilities[i], tool)
  }

  lemma BundleEntry(cap: string)
    ensures BundleNamed(cap) == Some(Web) <==> cap == "/fetch" || cap == "/search" || cap == "/browse"
    ensures BundleNamed(cap) == Some(Shell) <==> cap == "/exec"
    ensures BundleNamed(cap) == Some(Writing) <==> "/write" <= cap
    ensures BundleNamed(cap) == Some(Reading) <==> cap == "/read" || cap == "/list" || cap == "/map"
    ensures BundleNamed(cap) == Some(Memory) <==> "/mem" <= cap
  {
    if "/write" <= cap { assert cap[1] == 'w'; }
    if "/mem" <= cap { assert cap[1] == 'm' && cap[2] == 'e'; }
  }

  lemma ServiceEntry(cap: string)
    ensures BundleNamed(cap) == Some(Delegation) <==> cap == "/agent" || cap == "/parallel" || cap == "/pane"
    ensures BundleNamed(cap) == Some(McpServers) <==> cap == "/mcp"
    ensures BundleNamed(cap) == Some(Remotes) <==> cap == "/a2a"
    ensures BundleNamed(cap) == Some(Advisor) <==> cap == "/advise"
    ensures BundleNamed(cap) == Some(Todos) <==> cap == "/todo"
    ensures BundleNamed(cap) == Some(Schedules) <==> cap == "/schedule"
    ensures BundleNamed(cap) == Some(Lessons) <==> cap == "/lesson"
  {
    if "/write" <= cap { assert cap[1] == 'w'; }
    if "/mem" <= cap { assert cap[1] == 'm' && cap[2] == 'e'; }
  }

  lemma EntryGrants(cap: string, tool: Tool)
    requires !tool.Help? && !tool.Unknown?
    ensures BundleNamed(cap) == BundleOf(tool) <==> Lists(cap, tool)
  {
    BundleEntry(cap);
    ServiceEntry(cap);
  }

  lemma GrantedExactly(capabilities: seq<string>, tool: Tool)
    ensures Granted(capabilities, tool) <==> MayUse(capabilities, tool)
  {
    if !tool.Help? && !tool.Unknown? {
      forall i | 0 <= i < |capabilities|
        ensures BundleNamed(capabilities[i]) == BundleOf(tool) <==> Lists(capabilities[i], tool)
      {
        EntryGrants(capabilities[i], tool);
      }
    }
  }

  /** Every call made in a turn is one its command may reach, and the command is granted and
      not a repeat; a refused command closes as a failure. */
  lemma CallsAreGranted(h: Host, cmds: seq<Request>, replies: seq<Reply>, log: Log, lastId: nat, i: nat)
    requires Dispatched(h, cmds, replies, log, lastId) && i < |log.segments|
    ensures forall j :: 0 <= j < |log.segments[i].calls| ==>
              Live(h, log.caches[i], cmds[i]) && Serves(log.segments[i].calls[j], cmds[i].tool)
    ensures !MayUse(h.capabilities, cmds[i].tool) ==> log.segments[i].calls == [] && !log.segments[i].ok
  {
    GrantedExactly(h.capabilities, cmds[i].tool);
    assert StepAt(h, cmds, replies, log, lastId, i);
    PlanServes(h, cmds[i], replies[i], log.budgets[i]);
  }

  // ---- confirmations ----

  /** The shell on the host itself, wired directly or as the invoker, and its files. */
  predicate TouchesHost(h: Host, c: Callee) {
    c == HostExec || (c == InvokerExec && h.hostSurface) || c == DiskWrite
  }

  /** Call `j` comes right after a confirmation, and that was accepted. */
  predicate Confirmed(calls: seq<Callee>, r: Reply, j: nat) {
    0 < j <= |calls| && calls[j - 1] == Confirm && r.confirmed
  }

  /** Who is asked: before every file, and before a command unless an invoker runs it and it
      is not destructive. */
  predicate Asks(h: Host, q: Request, r: Reply) {
    h.confirm && (q.tool.Write? || !h.execInvoker || r.destructive)
  }

  lemma WriteConfirms(h: Host, q: Request, r: Reply, j: nat)
    requires j < |WritePlan(h, q, r).calls| && WritePlan(h, q, r).calls[j] == DiskWrite
    ensures Confirmed(WritePlan(h, q, r).calls, r, j) <==> h.confirm
    ensures !q.truncated && (h.rootProvider ==> r.root != "")
  {
  }

  lemma ExecConfirms(h: Host, r: Reply, j: nat)
    requires j < |ExecPlan(h, r).calls| && ExecPlan(h, r).calls[j] != Confirm
    ensures Confirmed(ExecPlan(h, r).calls, r, j) <==> h.confirm && (!h.execInvoker || r.destructive)
    ensures h.execInvoker || !h.execDisabled
  {
  }

  lemma PlanConfirms(h: Host, q: Request, r: Reply, b: Budget, j: nat)
    requires j < |PlanFor(h, q, r, b).calls| && TouchesHost(h, PlanFor(h, q, r, b).calls[j])
    ensures Confirmed(PlanFor(h, q, r, b).calls, r, j) <==> Asks(h, q, r)
    ensures q.tool.Write? ==> !q.truncated && (h.rootProvider ==> r.root != "")
    ensures q.tool.Exec? ==> h.execInvoker || !h.execDisabled
  {
    PlanServes(h, q, r, b);
    if q.tool.Write? {
      WriteConfirms(h, q, r, j);
    } else {
      ExecConfirms(h, r, j);
    }
  }

  /** A call that touches the host's shell or files comes right after an accepted confirmation
      exactly when one is wired and the command is a file, or goes to the shell directly, or
      is destructive. A truncated file or one without a workspace is never written, and a
      disabled shell is never reached directly. */
  lemma HostTouchedConfirmedExactly(h: Host, cmds: seq<Request>, replies: seq<Reply>, log: Log, lastId: nat, i: nat, j: nat)
    requires Dispatched(h, cmds, replies, log, lastId) && i < |log.segments|
    requires j < |log.segments[i].calls| && TouchesHost(h, log.segments[i].calls[j])
    ensures Confirmed(log.segments[i].calls, replies[i], j) <==> Asks(h, cmds[i], replies[i])
    ensures cmds[i].tool.Write? ==> !cmds[i].truncated && (h.rootProvider ==> replies[i].root != "")
    ensures cmds[i].tool.Exec? ==> h.execInvoker || !h.execDisabled
  {
    assert StepAt(h, cmds, replies, log, lastId, i);
    PlanConfirms(h, cmds[i], replies[i], log.budgets[i], j);
  }

  /** An answer that says nothing special. */
  const PLAIN: Reply := Reply(false, 0, true, false, false, false, "", "", false, true, map[])

  /** On every host whose invoker is the host's own shell, a plain command runs there unasked,
      confirmation or not. */
  lemma HostRunsUnasked(h: Host, args: string) returns (log: Log)
    requires Granted(h.capabilities, Exec) && h.confirm && h.execInvoker && h.hostSurface
    ensures Dispatched(h, [Request(Exec, args, "", false)], [PLAIN], log, 0) && |log.segments| == 1
    ensures log.segments[0].calls == [InvokerExec] && TouchesHost(h, InvokerExec)
  {
    var q := Request(Exec, args, "", false);
    var b := Budget(0, 0, 0);
    var block := BlockOf(h, q, Ran, "");
    var s := Segment(1, q, [InvokerExec], block, !h.isFailure(block));
    var cache: Cache := if h.dedup then map[KeyOf(h, q) := block] else map[];
    FreeSpent(h, q, PLAIN, b);
    log := Log([s], [map[], cache], [b, b]);
    assert StepAt(h, [q], [PLAIN], log, 0, 0);
  }

  // ---- repeats ----

  lemma {:induction false} CacheKeeps(h: Host, cmds: seq<Request>, replies: seq<Reply>, log: Log, lastId: nat, i: nat, j: nat, key: Key)
    requires Dispatched(h, cmds, replies, log, lastId) && i <= j <= |log.segments| && key in log.caches[i]
    ensures key in log.caches[j] && log.caches[j][key] == log.caches[i][key]
    decreases j
  {
    if i < j {
      CacheKeeps(h, cmds, replies, log, lastId, i, j - 1, key);
      assert StepAt(h, cmds, replies, log, lastId, j - 1);
    }
  }

  /** An entry is for a command of that tool and those arguments, and a written file's content. */
  predicate Names(h: Host, key: Key, q: Request) {
    && key.tool == q.tool && key.args == q.args
    && key.content == if q.tool.Write? then Some(h.hash(q.content)) else None
  }

  ghost predicate Holds(h: Host, cache: Cache, q: Request) {
    exists key :: key in cache && Names(h, key, q)
  }

  /** Two commands ask for the same: tool, arguments and, for a file, content. */
  predicate SameWork(h: Host, p: Request, q: Request) {
    p.tool == q.tool && p.args == q.args && (q.tool.Write? ==> h.hash(p.content) == h.hash(q.content))
  }

  lemma NamesOne(h: Host, key: Key, p: Request, q: Request)
    requires Names(h, key, p)
    ensures Names(h, key, q) <==> SameWork(h, p, q)
    ensures key == KeyOf(h, p)
  {
  }

  /** Once there is an entry for a command, a repeat of it calls nothing and, if granted,
      returns the entry: the block of the first run, unless that delegated and the sub-agent
      left a result for it. */
  lemma RepeatsReplay(h: Host, cmds: seq<Request>, replies: seq<Reply>, log: Log, lastId: nat, i: nat, j: nat, key: Key)
    requires Dispatched(h, cmds, replies, log, lastId) && i < j < |log.segments| && h.dedup
    requires SameWork(h, cmds[i], cmds[j]) && key in log.caches[i + 1] && Names(h, key, cmds[i])
    ensures log.segments[j].calls == []
    ensures Granted(h.capabilities, cmds[j].tool) ==>
              && log.segments[j].block == log.caches[i + 1][key]
              && (|| log.segments[j].block == log.segments[i].block
                  || (Delegates(h, cmds[i], replies[i]) && key in replies[i].added))
  {
    NamesOne(h, key, cmds[i], cmds[j]);
    assert StepAt(h, cmds, replies, log, lastId, i);
    assert StepAt(h, cmds, replies, log, lastId, j);
    CacheKeeps(h, cmds, replies, log, lastId, i + 1, j, key);
  }

  // ---- what is new is run ----

  /** A command that is answered from the cache: an entry for it was there before the turn, a
      sub-agent left one, or an earlier command of the turn asked for the same. */
  ghost predicate Repeated(h: Host, cmds: seq<Request>, replies: seq<Reply>, log: Log, j: nat)
    requires j <= |log.segments| <= |cmds| == |replies| && j < |cmds| && 0 < |log.caches|
  {
    || Holds(h, log.caches[0], cmds[j])
    || (exists i: nat :: i < j && Delegates(h, cmds[i], replies[i]) && Holds(h, replies[i].added, cmds[j]))
    || (exists i: nat :: i < j && SameWork(h, cmds[i], cmds[j]))
  }

  lemma {:induction false} EntriesAreRepeats(h: Host, cmds: seq<Request>, replies: seq<Reply>, log: Log, lastId: nat,
                                             n: nat, j: nat, key: Key)
    requires Dispatched(h, cmds, replies, log, lastId) && n <= j < |log.segments|
    requires key in log.caches[n] && Names(h, key, cmds[j])
    ensures Repeated(h, cmds, replies, log, j)
  {
    if n > 0 {
      var i := n - 1;
      assert StepAt(h, cmds, replies, log, lastId, i);
      if key in log.caches[i] {
        EntriesAreRepeats(h, cmds, replies, log, lastId, i, j, key);
      } else if key == KeyOf(h, cmds[i]) {
        assert SameWork(h, cmds[i], cmds[j]);
      } else {
        assert Delegates(h, cmds[i], replies[i]) && Holds(h, replies[i].added, cmds[j]);
      }
    }
  }

  /** The branch of the command's name decides what happens. */
  ghost predicate RunByBranch(h: Host, cmds: seq<Request>, replies: seq<Reply>, log: Log, j: nat)
    requires j < |log.segments| <= |cmds| == |replies| && |log.budgets| == |log.segments| + 1
  {
    var (p, s) := (PlanFor(h, cmds[j], replies[j], log.budgets[j]), log.segments[j]);
    s.calls == p.calls && s.block == BlockOf(h, cmds[j], p.outcome, replies[j].text)
  }

  /** A granted command is run by its branch unless it is a repeat. In particular, on an empty
      cache and without delegation, whatever has a new tool or new arguments is run. */
  lemma NewCommandsAreRun(h: Host, cmds: seq<Request>, replies: seq<Reply>, log: Log, lastId: nat, j: nat)
    requires Dispatched(h, cmds, replies, log, lastId) && j < |log.segments|
    requires Granted(h.capabilities, cmds[j].tool) && !(h.dedup && Repeated(h, cmds, replies, log, j))
    ensures RunByBranch(h, cmds, replies, log, j) && Live(h, log.caches[j], cmds[j])
  {
    assert StepAt(h, cmds, replies, log, lastId, j);
    if Hit(h, log.caches[j], cmds[j]) {
      EntriesAreRepeats(h, cmds, replies, log, lastId, j, j, KeyOf(h, cmds[j]));
      assert false;
    }
  }

  /** The callback that does a command's own work, as opposed to asking for leave or a place. */
  predicate Works(c: Callee, tool: Tool) {
    match tool
    case Fetch => c == FetchUrl
    case Search => c == SearchWeb
    case Browse => c == Snapshot
    case Exec => c == HostExec || c == InvokerExec
    case Advise => c == Consult
    case Write => c == DiskWrite || c == SinkWrite
    case Map => c == MapTree
    case _ => false
  }

  predicate HasWork(tool: Tool) {
    tool.Fetch? || tool.Search? || tool.Browse? || tool.Exec? || tool.Advise? || tool.Write? || tool.Map?
  }

  /** The command did what it was for. */
  ghost predicate Done(calls: seq<Callee>, tool: Tool) {
    exists j :: 0 <= j < |calls| && Works(calls[j], tool)
  }

  lemma WriteCachesWork(h: Host, q: Request, r: Reply)
    requires WritePlan(h, q, r).cacheable
    ensures Done(WritePlan(h, q, r).calls, Write)
  {
    var (calls, n) := (WritePlan(h, q, r).calls, |WritePlan(h, q, r).calls|);
    assert Works(calls[n - 1], Write) || (n > 1 && Works(calls[n - 2], Write));
  }

  lemma SmallPlansCacheWork(h: Host, r: Reply, b: Budget)
    ensures ExecPlan(h, r).cacheable ==> Done(ExecPlan(h, r).calls, Exec)
    ensures MapPlan(h, r).cacheable ==> Done(MapPlan(h, r).calls, Map)
    ensures BrowsePlan(h, r, b).cacheable ==> Done(BrowsePlan(h, r, b).calls, Browse)
  {
    var (exec, map_, browse) := (ExecPlan(h, r).calls, MapPlan(h, r).calls, BrowsePlan(h, r, b).calls);
    assert ExecPlan(h, r).cacheable ==> Works(exec[|exec| - 1], Exec);
    assert MapPlan(h, r).cacheable ==> Works(map_[|map_| - 1], Map);
    assert BrowsePlan(h, r, b).cacheable ==> Works(browse[|browse| - 1], Browse);
  }

  lemma PlanCachesWork(h: Host, q: Request, r: Reply, b: Budget)
    requires HasWork(q.tool) && PlanFor(h, q, r, b).cacheable
    ensures Done(PlanFor(h, q, r, b).calls, q.tool)
  {
    if q.tool.Write? {
      WriteCachesWork(h, q, r);
    } else if q.tool.Exec? || q.tool.Map? || q.tool.Browse? {
      SmallPlansCacheWork(h, r, b);
    } else {
      assert Works(PlanFor(h, q, r, b).calls[0], q.tool);
    }
  }

  /** A turn overwrites nothing: what it leaves is what was there and additions to it. */
  lemma TurnOnlyAdds(h: Host, cmds: seq<Request>, replies: seq<Reply>, log: Log, lastId: nat)
    requires Dispatched(h, cmds, replies, log, lastId)
    ensures
      var (before, after) := (log.caches[0], log.caches[|log.segments|]);
      after == after + before
  {
    forall key | key in log.caches[0]
      ensures key in log.caches[|log.segments|] && log.caches[|log.segments|][key] == log.caches[0][key]
    {
      CacheKeeps(h, cmds, replies, log, lastId, 0, |log.segments|, key);
    }
  }

  /** Command `i`, which the entry is for, did its work and returned `block`. */
  ghost predicate EarnedAt(h: Host, cmds: seq<Request>, log: Log, i: nat, key: Key, block: string) {
    && i < |log.segments| && i < |cmds|
    && Names(h, key, cmds[i]) && Done(log.segments[i].calls, cmds[i].tool) && log.segments[i].block == block
  }

  /** The sub-agent that command `i` delegated to left `block` under that key. */
  ghost predicate DelegatedAt(h: Host, cmds: seq<Request>, replies: seq<Reply>, i: nat, key: Key, block: string) {
    && i < |cmds| && i < |replies| && Delegates(h, cmds[i], replies[i])
    && key in replies[i].added && replies[i].added[key] == block
  }

  /** Where a cached result comes from. */
  ghost predicate Explained(h: Host, cmds: seq<Request>, replies: seq<Reply>, log: Log, n: nat, key: Key)
    requires n <= |log.segments| <= |cmds| && n < |log.caches| && key in log.caches[n]
  {
    var block := log.caches[n][key];
    || (key in log.caches[0] && log.caches[0][key] == block)
    || (exists i: nat :: i < n && EarnedAt(h, cmds, log, i, key, block))
    || (exists i: nat :: i < n && DelegatedAt(h, cmds, replies, i, key, block))
  }

  /** Nothing is remembered as done that was not done: a cached result was there before the
      turn, or an earlier command of that key did the work, or a sub-agent left it. */
  lemma {:induction false} CachedWasDone(h: Host, cmds: seq<Request>, replies: seq<Reply>, log: Log, lastId: nat, n: nat, key: Key)
    requires Dispatched(h, cmds, replies, log, lastId) && n <= |log.segments|
    requires HasWork(key.tool) && key in log.caches[n]
    ensures Explained(h, cmds, replies, log, n, key)
  {
    if n > 0 {
      var i := n - 1;
      if key in log.caches[i] {
        CachedWasDone(h, cmds, replies, log, lastId, i, key);
        CacheKeeps(h, cmds, replies, log, lastId, i, n, key);
      } else {
        NewlyCached(h, cmds, replies, log, lastId, i, key);
      }
    }
  }

  lemma NewlyCached(h: Host, cmds: seq<Request>, replies: seq<Reply>, log: Log, lastId: nat, i: nat, key: Key)
    requires Dispatched(h, cmds, replies, log, lastId) && i < |log.segments|
    requires HasWork(key.tool) && key !in log.caches[i] && key in log.caches[i + 1]
    ensures
      var block := log.caches[i + 1][key];
      EarnedAt(h, cmds, log, i, key, block) || DelegatedAt(h, cmds, replies, i, key, block)
  {
    assert StepAt(h, cmds, replies, log, lastId, i);
    if KeyOf(h, cmds[i]) == key {
      PlanCachesWork(h, cmds[i], replies[i], log.budgets[i]);
    }
  }

  /** A granted command that neither an earlier one that asked for the same nor a sub-agent has
      done yet is run by its branch again, however often it was skipped for its budget, refused,
      declined or cut short before. */
  lemma RetriesStayOpen(h: Host, cmds: seq<Request>, replies: seq<Reply>, log: Log, lastId: nat, j: nat)
    requires Dispatched(h, cmds, replies, log, lastId) && j < |log.segments|
    requires HasWork(cmds[j].tool) && Granted(h.capabilities, cmds[j].tool) && !Holds(h, log.caches[0], cmds[j])
    requires forall i: nat :: i < j ==>
               && !(SameWork(h, cmds[i], cmds[j]) && Done(log.segments[i].calls, cmds[i].tool))
               && !(Delegates(h, cmds[i], replies[i]) && Holds(h, replies[i].added, cmds[j]))
    ensures RunByBranch(h, cmds, replies, log, j) && Live(h, log.caches[j], cmds[j])
  {
    assert StepAt(h, cmds, replies, log, lastId, j);
    var key := KeyOf(h, cmds[j]);
    if key in log.caches[j] {
      CachedWasDone(h, cmds, replies, log, lastId, j, key);
      NotExplained(h, cmds, replies, log, j, key);
    }
  }

  lemma NotExplained(h: Host, cmds: seq<Request>, replies: seq<Reply>, log: Log, j: nat, key: Key)
    requires j < |log.segments| <= |cmds| == |replies| && j < |log.caches| && key in log.caches[j]
    requires Names(h, key, cmds[j]) && !Holds(h, log.caches[0], cmds[j])
    requires forall i: nat :: i < j ==>
               && !(SameWork(h, cmds[i], cmds[j]) && Done(log.segments[i].calls, cmds[i].tool))
               && !(Delegates(h, cmds[i], replies[i]) && Holds(h, replies[i].added, cmds[j]))
    ensures !Explained(h, cmds, replies, log, j, key)
  {
    forall i: nat, block | i < j ensures !EarnedAt(h, cmds, log, i, key, block) {
      if EarnedAt(h, cmds, log, i, key, block) { NamesOne(h, key, cmds[i], cmds[j]); }
    }
  }

  // ---- what is done ----

  /** What the command needs for its own work to be done. */
  predicate Able(h: Host, q: Request, r: Reply, b: Budget) {
    match q.tool
    case Fetch => b.urls < MAX_FETCHES
    case Search => b.searches < MAX_SEARCHES && r.usable && h.search
    case Browse => b.urls < MAX_FETCHES && r.usable && h.mcp && !r.rejected && !r.failed
    case Advise => b.consults < MAX_ADVISE && h.advisor
    case Exec => (h.execInvoker || !h.execDisabled) && (Asks(h, q, r) ==> r.confirmed)
    case Write =>
      !q.truncated && (h.writeInterceptor || ((h.rootProvider ==> r.root != "") && (h.confirm ==> r.confirmed)))
    case Map => if h.rootProvider then r.root != "" else !h.writeInterceptor
    case _ => false
  }

  lemma WriteDone(h: Host, q: Request, r: Reply, b: Budget)
    requires q.tool.Write?
    ensures Done(WritePlan(h, q, r).calls, Write) <==> Able(h, q, r, b)
    ensures DiskWrite in WritePlan(h, q, r).calls <==> Able(h, q, r, b) && !h.writeInterceptor
  {
    var (calls, n) := (WritePlan(h, q, r).calls, |WritePlan(h, q, r).calls|);
    if Able(h, q, r, b) {
      assert Works(calls[n - 1], Write) || (n > 1 && Works(calls[n - 2], Write));
    }
  }

  lemma SmallPlansDone(h: Host, q: Request, r: Reply, b: Budget)
    requires q.tool.Exec? || q.tool.Map? || q.tool.Browse?
    ensures Done(PlanFor(h, q, r, b).calls, q.tool) <==> Able(h, q, r, b)
  {
    var calls := PlanFor(h, q, r, b).calls;
    if Able(h, q, r, b) { assert Works(calls[|calls| - 1], q.tool); }
  }

  lemma PlanDone(h: Host, q: Request, r: Reply, b: Budget)
    requires HasWork(q.tool)
    ensures Done(PlanFor(h, q, r, b).calls, q.tool) <==> Able(h, q, r, b)
  {
    if q.tool.Write? {
      WriteDone(h, q, r, b);
    } else if q.tool.Exec? || q.tool.Map? || q.tool.Browse? {
      SmallPlansDone(h, q, r, b);
    } else if Able(h, q, r, b) {
      assert Works(PlanFor(h, q, r, b).calls[0], q.tool);
    }
  }

  /** A granted command that is not a repeat does its work if and only if it can: budget,
      wiring, workspace and leave are there and the block is whole. A file goes to disk
      exactly when it is written and no interceptor takes it. */
  lemma WorkDoneExactly(h: Host, cmds: seq<Request>, replies: seq<Reply>, log: Log, lastId: nat, j: nat)
    requires Dispatched(h, cmds, replies, log, lastId) && j < |log.segments| && HasWork(cmds[j].tool)
    ensures Done(log.segments[j].calls, cmds[j].tool) <==>
              Live(h, log.caches[j], cmds[j]) && Able(h, cmds[j], replies[j], log.budgets[j])
    ensures cmds[j].tool.Write? ==>
              (DiskWrite in log.segments[j].calls <==>
                 Done(log.segments[j].calls, Write) && !h.writeInterceptor)
  {
    assert StepAt(h, cmds, replies, log, lastId, j);
    PlanDone(h, cmds[j], replies[j], log.budgets[j]);
    if cmds[j].tool.Write? { WriteDone(h, cmds[j], replies[j], log.budgets[j]); }
  }

  /** A command that is neither closed early nor unknown ends well exactly when its block is no
      failure; the rest never do. */
  lemma OkExactly(h: Host, cmds: seq<Request>, replies: seq<Reply>, log: Log, lastId: nat, j: nat)
    requires Dispatched(h, cmds, replies, log, lastId) && j < |log.segments|
    ensures
      var (q, s) := (cmds[j], log.segments[j]);
      var cut := q.tool.Unknown? || ((q.tool.Write? || q.tool.Map?) && !Able(h, q, replies[j], log.budgets[j]));
      s.ok <==> && MayUse(h.capabilities, q.tool) && !h.isFailure(s.block)
                && !(Live(h, log.caches[j], q) && cut)
  {
    assert StepAt(h, cmds, replies, log, lastId, j);
    GrantedExactly(h.capabilities, cmds[j].tool);
    PlanCut(h, cmds[j], replies[j], log.budgets[j]);
    BlockNamesCommand(h, cmds[j], PlanFor(h, cmds[j], replies[j], log.budgets[j]).outcome, replies[j].text);
  }

  lemma PlanCut(h: Host, q: Request, r: Reply, b: Budget)
    ensures PlanFor(h, q, r, b).early <==> (q.tool.Write? || q.tool.Map?) && !Able(h, q, r, b)
    ensures PlanFor(h, q, r, b).outcome.Nothing? <==> q.tool.Unknown?
  {
  }

  lemma BlockNamesCommand(h: Host, q: Request, outcome: Outcome, text: string)
    ensures BlockOf(h, q, outcome, text) == "" <==> outcome.Nothing?
  {
  }

  /** What may be answered from memory later: work done and an answer worth keeping. */
  predicate WorthKeeping(h: Host, q: Request, r: Reply) {
    || r.cacheable || q.tool.Fetch? || q.tool.Advise? || (q.tool.Exec? && !h.execInvoker)
    || (q.tool.Write? && !(WantsPersist(q.args) && h.artifactWriter))
  }

  /** A command that was run leaves an entry for itself exactly when it did its work and the
      answer is worth keeping. */
  lemma RememberedExactly(h: Host, cmds: seq<Request>, replies: seq<Reply>, log: Log, lastId: nat, j: nat)
    requires Dispatched(h, cmds, replies, log, lastId) && j < |log.segments|
    requires h.dedup && HasWork(cmds[j].tool) && Live(h, log.caches[j], cmds[j])
    ensures Holds(h, log.caches[j + 1], cmds[j]) <==>
              Done(log.segments[j].calls, cmds[j].tool) && WorthKeeping(h, cmds[j], replies[j])
  {
    assert StepAt(h, cmds, replies, log, lastId, j);
    PlanDone(h, cmds[j], replies[j], log.budgets[j]);
    PlanKeeps(h, cmds[j], replies[j], log.budgets[j]);
    var key := KeyOf(h, cmds[j]);
    assert Names(h, key, cmds[j]);
    assert Holds(h, log.caches[j + 1], cmds[j]) <==> key in log.caches[j + 1];
  }

  lemma PlanKeeps(h: Host, q: Request, r: Reply, b: Budget)
    requires HasWork(q.tool)
    ensures
      var p := PlanFor(h, q, r, b);
      (p.cacheable && !p.early && !p.outcome.Nothing?) <==> Able(h, q, r, b) && WorthKeeping(h, q, r)
  {
  }

  lemma DoneIsCached(h: Host, q: Request, r: Reply, b: Budget)
    requires HasWork(q.tool) && Done(PlanFor(h, q, r, b).calls, q.tool) && r.cacheable
    ensures
      var p := PlanFor(h, q, r, b);
      p.cacheable && !p.early && p.outcome.Ran?
  {
    PlanDone(h, q, r, b);
  }

  /** What was done once, and may be kept, is not done again: every later command that asks for
      the same makes no call and, if granted, returns the block of the first. */
  lemma DoneOnce(h: Host, cmds: seq<Request>, replies: seq<Reply>, log: Log, lastId: nat, i: nat, j: nat)
    requires Dispatched(h, cmds, replies, log, lastId) && i < j < |log.segments| && h.dedup
    requires SameWork(h, cmds[i], cmds[j]) && HasWork(cmds[i].tool)
    requires Done(log.segments[i].calls, cmds[i].tool) && replies[i].cacheable
    ensures log.segments[j].calls == []
    ensures Granted(h.capabilities, cmds[j].tool) ==> log.segments[j].block == log.segments[i].block
  {
    assert StepAt(h, cmds, replies, log, lastId, i);
    DoneIsCached(h, cmds[i], replies[i], log.budgets[i]);
    RepeatsReplay(h, cmds, replies, log, lastId, i, j, KeyOf(h, cmds[i]));
  }

  /** A delegating command and a plain fetch behind it. */
  function AskScout(): Request { Request(Agent, "scout", "", false) }

  function GetPage(url: string): Request { Request(Fetch, url, "", false) }

  function LeftByScout(h: Host, url: string, page: string): Reply {
    PLAIN.(cacheable := false, added := map[KeyOf(h, GetPage(url)) := page])
  }

  lemma ScoutLeavesPage(h: Host, url: string, page: string) returns (s: Segment)
    requires h.dedup && Granted(h.capabilities, Agent)
    ensures
      var (b, r) := (Budget(0, 0, 0), LeftByScout(h, url, page));
      s.id == 1 && s.calls == [Backend(Agent)] && Handled(h, map[], b, AskScout(), r, s, r.added, b)
  {
    var (b, r) := (Budget(0, 0, 0), LeftByScout(h, url, page));
    var block := BlockOf(h, AskScout(), Ran, "");
    s := Segment(1, AskScout(), [Backend(Agent)], block, !h.isFailure(block));
    FreeSpent(h, AskScout(), r, b);
    assert r.added + map[] == r.added;
  }

  lemma PageReplays(h: Host, url: string, page: string) returns (s: Segment)
    requires h.dedup && Granted(h.capabilities, Fetch)
    ensures
      var (b, cache) := (Budget(0, 0, 0), LeftByScout(h, url, page).added);
      s.id == 2 && s.calls == [] && s.block == page && Handled(h, cache, b, GetPage(url), PLAIN, s, cache, b)
  {
    s := Segment(2, GetPage(url), [], page, !h.isFailure(page));
  }

  /** A sub-agent's result answers the command that follows: its page is returned although no
      command of this turn has read it. */
  lemma DelegatedResultReplays(h: Host, url: string, page: string) returns (log: Log)
    requires h.dedup && Granted(h.capabilities, Agent) && Granted(h.capabilities, Fetch)
    ensures Dispatched(h, [AskScout(), GetPage(url)], [LeftByScout(h, url, page), PLAIN], log, 0)
    ensures |log.segments| == 2 && log.segments[0].calls == [Backend(Agent)]
    ensures log.segments[1].calls == [] && log.segments[1].block == page
  {
    var (cmds, replies) := ([AskScout(), GetPage(url)], [LeftByScout(h, url, page), PLAIN]);
    var (b, cache) := (Budget(0, 0, 0), replies[0].added);
    var first := ScoutLeavesPage(h, url, page);
    var second := PageReplays(h, url, page);
    log := Log([first, second], [map[], cache, cache], [b, b, b]);
    assert StepAt(h, cmds, replies, log, 0, 0) && StepAt(h, cmds, replies, log, 0, 1);
  }

  // ---- events ----

  function Starts(trace: seq<Effect>, id: nat): nat {
    if trace == [] then 0
    else Starts(trace[..|trace| - 1], id)
         + if trace[|trace| - 1].Started? && trace[|trace| - 1].id == id then 1 else 0
  }

  function Finishes(trace: seq<Effect>, id: nat): nat {
    if trace == [] then 0
    else Finishes(trace[..|trace| - 1], id)
         + if trace[|trace| - 1].Finished? && trace[|trace| - 1].id == id then 1 else 0
  }

  lemma {:induction false} EventsConcat(a: seq<Effect>, b: seq<Effect>, id: nat)
    ensures Starts(a + b, id) == Starts(a, id) + Starts(b, id)
    ensures Finishes(a + b, id) == Finishes(a, id) + Finishes(b, id)
  {
    if b == [] {
      assert a + b == a;
    } else {
      var front := b[..|b| - 1];
      EventsConcat(a, front, id);
      assert (a + b)[..|a + b| - 1] == a + front;
    }
  }

  lemma {:induction false} CallsAreNotEvents(calls: seq<Callee>, id: nat)
    ensures Starts(CalledAll(calls), id) == 0 && Finishes(CalledAll(calls), id) == 0
  {
    if calls != [] {
      CallsAreNotEvents(calls[..|calls| - 1], id);
      assert CalledAll(calls)[..|calls| - 1] == CalledAll(calls[..|calls| - 1]);
    }
  }

  lemma SegmentEvents(s: Segment, id: nat)
    ensures Starts(Effects(s), id) == Finishes(Effects(s), id) == if s.id == id then 1 else 0
  {
    var (open, close) := ([Started(s.id, s.request)], [Finished(s.id, s.request, s.ok)]);
    CallsAreNotEvents(s.calls, id);
    EventsConcat(open, CalledAll(s.calls), id);
    EventsConcat(open + CalledAll(s.calls), close, id);
    assert open[..0] == [] && close[..0] == [];
  }

  lemma {:induction false} IdsIncrease(h: Host, cmds: seq<Request>, replies: seq<Reply>, log: Log, lastId: nat, i: nat, j: nat)
    requires Dispatched(h, cmds, replies, log, lastId) && i <= j <= |log.segments|
    ensures LastId(log, lastId, i) <= LastId(log, lastId, j) && (i < j ==> LastId(log, lastId, i) < LastId(log, lastId, j))
    decreases j
  {
    if i < j {
      IdsIncrease(h, cmds, replies, log, lastId, i, j - 1);
      assert StepAt(h, cmds, replies, log, lastId, j - 1);
    }
  }

  /** Some command of the first `n` has that id. */
  ghost predicate IdUsed(log: Log, n: nat, id: nat) {
    exists i :: 0 <= i < n && i < |log.segments| && log.segments[i].id == id
  }

  /** Each command reached opens once and closes once, under an id of its own that is new to
      the turn; the ids in between belong to other turns. */
  lemma {:induction false} EventsPaired(h: Host, cmds: seq<Request>, replies: seq<Reply>, log: Log, lastId: nat, n: nat, id: nat)
    requires Dispatched(h, cmds, replies, log, lastId) && n <= |log.segments|
    ensures
      var trace := Flatten(log.segments[..n]);
      Starts(trace, id) == Finishes(trace, id) == if IdUsed(log, n, id) then 1 else 0
    ensures IdUsed(log, n, id) ==> lastId < id <= LastId(log, lastId, n)
  {
    if n > 0 {
      var s := log.segments[n - 1];
      EventsPaired(h, cmds, replies, log, lastId, n - 1, id);
      IdsIncrease(h, cmds, replies, log, lastId, 0, n);
      IdsIncrease(h, cmds, replies, log, lastId, n - 1, n);
      assert IdUsed(log, n, id) <==> IdUsed(log, n - 1, id) || s.id == id by {
        assert s.id == id ==> IdUsed(log, n, id);
      }
      FlattenPrefix(log.segments, n);
      SegmentEvents(s, id);
      EventsConcat(Flatten(log.segments[..n - 1]), Effects(s), id);
    }
  }

  lemma FlattenPrefix(segments: seq<Segment>, n: nat)
    requires 0 < n <= |segments|
    ensures Flatten(segments[..n]) == Flatten(segments[..n - 1]) + Effects(segments[n - 1])
  {
    assert segments[..n][..n - 1] == segments[..n - 1];
  }
}
