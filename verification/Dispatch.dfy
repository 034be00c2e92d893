/** What one turn of the dispatcher is to do: commands run in order behind a capability gate,
    a cache of earlier results and per-turn budgets, with a pair of events around each. What
    the callbacks answer comes in as arguments. The code is in the module Dispatching. */
module Dispatch {
  import opened Common

  datatype Tool =
    | Fetch | Search | Browse | Exec | Write | Read | List | Map | Mem | Agent | Parallel | Pane
    | Mcp | A2a | Advise | Todo | Schedule | Lesson | Help | Unknown(name: string)

  datatype Request = Request(tool: Tool, args: string, content: string, truncated: bool)

  datatype Bundle = Web | Shell | Writing | Reading | Memory | Delegation | McpServers | Remotes
                  | Advisor | Todos | Schedules | Lessons

  const TOTAL_LIMIT: nat := 32768
  const MAX_FETCHES: nat := 3
  const MAX_SEARCHES: nat := 4
  const MAX_ADVISE: nat := 2

  // ---- capabilities ----

  function BundleOf(tool: Tool): Option<Bundle> {
    match tool
    case Fetch | Search | Browse => Some(Web)
    case Exec => Some(Shell)
    case Write => Some(Writing)
    case Read | List | Map => Some(Reading)
    case Mem => Some(Memory)
    case Agent | Parallel | Pane => Some(Delegation)
    case Mcp => Some(McpServers)
    case A2a => Some(Remotes)
    case Advise => Some(Advisor)
    case Todo => Some(Todos)
    case Schedule => Some(Schedules)
    case Lesson => Some(Lessons)
    case Help | Unknown(_) => None
  }

  /** What an entry of an agent's `capabilities` list grants. */
  function BundleNamed(cap: string): Option<Bundle> {
    if cap in ["/search", "/fetch", "/browse"] then Some(Web)
    else if cap == "/exec" then Some(Shell)
    else if "/write" <= cap then Some(Writing)
    else if cap in ["/read", "/list", "/map"] then Some(Reading)
    else if "/mem" <= cap then Some(Memory)
    else if cap in ["/agent", "/parallel", "/pane"] then Some(Delegation)
    else if cap == "/mcp" then Some(McpServers)
    else if cap == "/a2a" then Some(Remotes)
    else if cap == "/advise" then Some(Advisor)
    else if cap == "/todo" then Some(Todos)
    else if cap == "/schedule" then Some(Schedules)
    else if cap == "/lesson" then Some(Lessons)
    else None
  }

  /** An empty list grants everything; help and unknown names need no grant. */
  ghost predicate Granted(capabilities: seq<string>, tool: Tool) {
    || capabilities == [] || BundleOf(tool).None?
    || exists i :: 0 <= i < |capabilities| && BundleNamed(capabilities[i]) == BundleOf(tool)
  }

  // ---- what the host wires and answers ----

  datatype Host = Host(
    capabilities: seq<string>, dedup: bool,
    search: bool, mcp: bool, advisor: bool, execInvoker: bool, hostSurface: bool, execDisabled: bool,
    confirm: bool, writeInterceptor: bool, rootProvider: bool, artifactWriter: bool,
    render: (Request, Outcome, string) -> string, isFailure: string -> bool, hash: string -> nat)

  /** What happens around one command: whether a cancel is seen first, how many event ids
      other turns have taken meanwhile, whether its arguments parse to something the branch
      can use, what the callbacks say, and what a delegated turn leaves in the shared cache. */
  datatype Reply = Reply(
    cancelled: bool, idsTaken: nat, usable: bool, rejected: bool, destructive: bool, confirmed: bool,
    root: string, text: string, failed: bool, cacheable: bool, added: Cache)

  datatype Callee =
    | FetchUrl | BrowseUrl | Snapshot | SearchWeb | Consult | Confirm | Root
    | HostExec | InvokerExec | DiskWrite | SinkWrite | Artifact | MapTree | Backend(tool: Tool)

  datatype Outcome = Ran | Skipped | Refused | Declined | Nothing

  /** `early` marks the branches that close the command themselves. */
  datatype Plan = Plan(calls: seq<Callee>, outcome: Outcome, cacheable: bool, early: bool)

  // ---- budgets ----

  datatype Kind = Url | Searches | Consults

  datatype Budget = Budget(urls: nat, searches: nat, consults: nat)

  function Limit(k: Kind): nat {
    match k case Url => MAX_FETCHES case Searches => MAX_SEARCHES case Consults => MAX_ADVISE
  }

  function Used(b: Budget, k: Kind): nat {
    match k case Url => b.urls case Searches => b.searches case Consults => b.consults
  }

  predicate Spends(c: Callee, k: Kind) {
    match k
    case Url => c == FetchUrl || c == BrowseUrl
    case Searches => c == SearchWeb
    case Consults => c == Consult
  }

  function Count(calls: seq<Callee>, k: Kind): nat {
    if calls == [] then 0
    else Count(calls[..|calls| - 1], k) + if Spends(calls[|calls| - 1], k) then 1 else 0
  }

  /** One call's worth of budget. */
  function Charged(b: Budget, c: Callee): Budget {
    match c
    case FetchUrl => b.(urls := b.urls + 1)
    case BrowseUrl => b.(urls := b.urls + 1)
    case SearchWeb => b.(searches := b.searches + 1)
    case Consult => b.(consults := b.consults + 1)
    case _ => b
  }

  function Spent(b: Budget, calls: seq<Callee>): Budget {
    Budget(b.urls + Count(calls, Url), b.searches + Count(calls, Searches), b.consults + Count(calls, Consults))
  }

  // ---- what the branch for one command does ----

  function WantsPersist(args: string): bool {
    if args != "" && (args[0] == ' ' || args[0] == '\t') then WantsPersist(args[1..])
    else |args| > 9 && args[..9] == "--persist" && (args[9] == ' ' || args[9] == '\t')
  }

  ghost function ExecPlan(h: Host, r: Reply): Plan {
    var surface := if h.execInvoker then InvokerExec else HostExec;
    var cacheable := !h.execInvoker || r.cacheable;
    if !h.execInvoker && h.execDisabled then Plan([], Refused, false, false)
    else if h.confirm && (!h.execInvoker || r.destructive) then
      if r.confirmed then Plan([Confirm, surface], Ran, cacheable, false)
      else Plan([Confirm], Declined, false, false)
    else Plan([surface], Ran, cacheable, false)
  }

  ghost function WritePlan(h: Host, q: Request, r: Reply): Plan {
    var rooted := if !h.writeInterceptor && h.rootProvider then [Root] else [];
    var asked := if !h.writeInterceptor && h.confirm then [Confirm] else [];
    var kept := WantsPersist(q.args) && h.artifactWriter;
    if q.truncated then Plan([], Refused, false, true)
    else if rooted != [] && r.root == "" then Plan(rooted, Refused, false, true)
    else if asked != [] && !r.confirmed then Plan(rooted + asked, Declined, false, true)
    else
      Plan(rooted + asked + [if h.writeInterceptor then SinkWrite else DiskWrite]
           + if kept then [Artifact] else [],
           Ran, !kept || r.cacheable, false)
  }

  ghost function MapPlan(h: Host, r: Reply): Plan {
    if h.writeInterceptor && !h.rootProvider then Plan([], Refused, false, true)
    else if h.rootProvider && r.root == "" then Plan([Root], Refused, false, true)
    else Plan((if h.rootProvider then [Root] else []) + [MapTree], Ran, r.cacheable, false)
  }

  ghost function BrowsePlan(h: Host, r: Reply, b: Budget): Plan {
    if b.urls >= Limit(Url) then Plan([], Skipped, false, false)
    else if !r.usable || !h.mcp || r.rejected then Plan([], Refused, false, false)
    else if r.failed then Plan([BrowseUrl], Ran, false, false)
    else Plan([BrowseUrl, Snapshot], Ran, r.cacheable, false)
  }

  ghost function PlanFor(h: Host, q: Request, r: Reply, b: Budget): Plan {
    match q.tool
    case Fetch =>
      if b.urls >= Limit(Url) then Plan([], Skipped, false, false) else Plan([FetchUrl], Ran, true, false)
    case Search =>
      if b.searches >= Limit(Searches) then Plan([], Skipped, false, false)
      else if !r.usable || !h.search then Plan([], Refused, false, false)
      else Plan([SearchWeb], Ran, r.cacheable, false)
    case Browse => BrowsePlan(h, r, b)
    case Exec => ExecPlan(h, r)
    case Advise =>
      if !h.advisor then Plan([], Refused, false, false)
      else if b.consults >= Limit(Consults) then Plan([], Skipped, false, false)
      else Plan([Consult], Ran, true, false)
    case Write => WritePlan(h, q, r)
    case Map => MapPlan(h, r)
    case Help => Plan([], Ran, r.cacheable, false)
    case Unknown(_) => Plan([], Nothing, false, false)
    case _ => Plan(if r.usable then [Backend(q.tool)] else [], if r.usable then Ran else Refused, r.cacheable, false)
  }

  // ---- one command ----

  datatype Key = Key(tool: Tool, args: string, content: Option<nat>)

  function KeyOf(h: Host, q: Request): Key {
    Key(q.tool, q.args, if q.tool.Write? then Some(h.hash(q.content)) else None)
  }

  type Cache = map<Key, string>

  datatype Effect = Started(id: nat, request: Request) | Called(callee: Callee) | Finished(id: nat, request: Request, ok: bool)

  /** Everything one command did. */
  datatype Segment = Segment(id: nat, request: Request, calls: seq<Callee>, block: string, ok: bool)

  function CalledAll(calls: seq<Callee>): seq<Effect> {
    seq(|calls|, i requires 0 <= i < |calls| => Called(calls[i]))
  }

  function Effects(s: Segment): seq<Effect> {
    [Started(s.id, s.request)] + CalledAll(s.calls) + [Finished(s.id, s.request, s.ok)]
  }

  /** A block is never empty unless the name is unknown: it opens with the command's name. */
  function BlockOf(h: Host, q: Request, outcome: Outcome, text: string): string {
    if outcome.Nothing? then "" else "[/" + h.render(q, outcome, text)
  }

  ghost predicate Hit(h: Host, cache: Cache, q: Request) {
    h.dedup && KeyOf(h, q) in cache
  }

  /** The command is run by its own branch: it is granted and not answered from the cache. */
  ghost predicate Live(h: Host, cache: Cache, q: Request) {
    Granted(h.capabilities, q.tool) && !Hit(h, cache, q)
  }

  /** A sub-agent's turns run on the same cache. They only add to it (TurnOnlyAdds in the
      module DispatchProperties). */
  predicate Delegates(h: Host, q: Request, r: Reply) {
    h.dedup && q.tool.Agent? && r.usable
  }

  function Shared(h: Host, cache: Cache, q: Request, r: Reply): Cache {
    if Delegates(h, q, r) then r.added + cache else cache
  }

  /** What the dispatcher makes of one command. */
  ghost predicate Handled(h: Host, cache: Cache, b: Budget, q: Request, r: Reply, s: Segment, cache': Cache, b': Budget) {
    && s.request == q && b' == Spent(b, s.calls)
    && if !Granted(h.capabilities, q.tool) then
         s.calls == [] && !s.ok && s.block == BlockOf(h, q, Refused, r.text) && cache' == cache
       else if Hit(h, cache, q) then
         s.calls == [] && s.block == cache[KeyOf(h, q)] && s.ok == !h.isFailure(s.block) && cache' == cache
       else
         var p := PlanFor(h, q, r, b);
         && s.calls == p.calls && s.block == BlockOf(h, q, p.outcome, r.text)
         && s.ok == (!p.early && s.block != "" && !h.isFailure(s.block))
         && var c := Shared(h, cache, q, r);
            cache' == if h.dedup && p.cacheable && !p.early && s.block != "" then c[KeyOf(h, q) := s.block] else c
  }

  // ---- a whole turn ----

  /** The commands reached, with the cache and the budget before the first and after each. */
  datatype Log = Log(segments: seq<Segment>, caches: seq<Cache>, budgets: seq<Budget>)

  function Extended(log: Log, s: Segment, cache: Cache, b: Budget): Log {
    Log(log.segments + [s], log.caches + [cache], log.budgets + [b])
  }

  ghost predicate Dispatched(h: Host, cmds: seq<Request>, replies: seq<Reply>, log: Log, lastId: nat) {
    var n := |log.segments|;
    && n <= |cmds| == |replies| && |log.caches| == |log.budgets| == n + 1
    && log.budgets[0] == Budget(0, 0, 0)
    && forall i: nat :: i < n ==> StepAt(h, cmds, replies, log, lastId, i)
  }

  /** The id taken last before command `i`, by this turn or before it. */
  function LastId(log: Log, lastId: nat, i: nat): nat
    requires i <= |log.segments|
  {
    if i == 0 then lastId else log.segments[i - 1].id
  }

  ghost predicate StepAt(h: Host, cmds: seq<Request>, replies: seq<Reply>, log: Log, lastId: nat, i: nat)
    requires i < |log.segments| <= |cmds| == |replies| && |log.caches| == |log.budgets| == |log.segments| + 1
  {
    && log.segments[i].id == LastId(log, lastId, i) + replies[i].idsTaken + 1
    && Handled(h, log.caches[i], log.budgets[i], cmds[i], replies[i],
               log.segments[i], log.caches[i + 1], log.budgets[i + 1])
  }

  function Flatten(segments: seq<Segment>): seq<Effect> {
    if segments == [] then [] else Flatten(segments[..|segments| - 1]) + Effects(segments[|segments| - 1])
  }

  function Blocks(segments: seq<Segment>): string {
    if segments == [] then "" else Blocks(segments[..|segments| - 1]) + segments[|segments| - 1].block
  }

  /** A command is reached only while the output is under the limit and no cancel is seen. */
  ghost predicate InTime(cmds: seq<Request>, replies: seq<Reply>, log: Log)
    requires |log.segments| <= |cmds| == |replies|
  {
    forall i :: 0 <= i < |log.segments| ==>
      !replies[i].cancelled && 1 + |Blocks(log.segments[..i])| < 32768
  }

  ghost predicate StopsExactly(cmds: seq<Request>, replies: seq<Reply>, log: Log)
    requires |log.segments| <= |cmds| == |replies|
  {
    var n := |log.segments|;
    && InTime(cmds, replies, log)
    && (n < |cmds| ==> replies[n].cancelled || 1 + |Blocks(log.segments)| >= 32768)
  }

  const FULL_NOTE: string := "[TOOL RESULTS TRUNCATED: budget exhausted]\n\n"
  const CANCELLED_NOTE: string := "[TOOL RESULTS CANCELLED]\n\n"
  const END_NOTE: string := "[END TOOL RESULTS]"

  /** What the output says about the commands that were not reached. */
  function StopNote(cmds: seq<Request>, log: Log): string {
    if |log.segments| >= |cmds| then ""
    else if 1 + |Blocks(log.segments)| >= 32768 then FULL_NOTE
    else CANCELLED_NOTE
  }

  lemma DispatchedGrows(h: Host, cmds: seq<Request>, replies: seq<Reply>, log: Log, lastId: nat,
                        s: Segment, cache: Cache, b: Budget)
    requires Dispatched(h, cmds, replies, log, lastId)
    requires
      var n := |log.segments|;
      && n < |cmds| && s.id == LastId(log, lastId, n) + replies[n].idsTaken + 1
      && Handled(h, log.caches[n], log.budgets[n], cmds[n], replies[n], s, cache, b)
    ensures Dispatched(h, cmds, replies, Extended(log, s, cache, b), lastId)
  {
    forall i: nat | i < |log.segments| ensures StepAt(h, cmds, replies, Extended(log, s, cache, b), lastId, i) {
      assert StepAt(h, cmds, replies, log, lastId, i);
    }
  }

  lemma FlattenGrows(segments: seq<Segment>, s: Segment)
    ensures Flatten(segments + [s]) == Flatten(segments) + Effects(s)
    ensures Blocks(segments + [s]) == Blocks(segments) + s.block
  {
    assert (segments + [s])[..|segments|] == segments;
  }

  lemma TraceGrows(trace: seq<Effect>, segments: seq<Segment>, s: Segment)
    ensures trace + Flatten(segments) + Effects(s) == trace + Flatten(segments + [s])
  {
    FlattenGrows(segments, s);
  }

  lemma InTimeGrows(cmds: seq<Request>, replies: seq<Reply>, log: Log, s: Segment, cache: Cache, b: Budget)
    requires |log.segments| < |cmds| == |replies| && InTime(cmds, replies, log)
    requires !replies[|log.segments|].cancelled && 1 + |Blocks(log.segments)| < TOTAL_LIMIT
    ensures InTime(cmds, replies, Extended(log, s, cache, b))
  {
    var segs := log.segments;
    forall i | 0 <= i <= |segs| ensures (segs + [s])[..i] == segs[..i] {}
  }

  /** How far a turn has got. */
  ghost predicate Underway(h: Host, cmds: seq<Request>, replies: seq<Reply>, log: Log, lastId: nat,
                           cache0: Cache, cache: Cache, b: Budget, out: string) {
    && Dispatched(h, cmds, replies, log, lastId) && InTime(cmds, replies, log)
    && log.caches[0] == cache0 && log.caches[|log.segments|] == cache && log.budgets[|log.segments|] == b
    && out == "\n" + Blocks(log.segments)
  }

  lemma UnderwayGrows(h: Host, cmds: seq<Request>, replies: seq<Reply>, log: Log, lastId: nat,
                      cache0: Cache, cache: Cache, b: Budget, out: string,
                      s: Segment, cache': Cache, b': Budget)
    requires Underway(h, cmds, replies, log, lastId, cache0, cache, b, out)
    requires |log.segments| < |cmds| && !replies[|log.segments|].cancelled && |out| < TOTAL_LIMIT
    requires s.id == LastId(log, lastId, |log.segments|) + replies[|log.segments|].idsTaken + 1
    requires Handled(h, cache, b, cmds[|log.segments|], replies[|log.segments|], s, cache', b')
    ensures Underway(h, cmds, replies, Extended(log, s, cache', b'), lastId, cache0, cache', b', out + s.block)
  {
    DispatchedGrows(h, cmds, replies, log, lastId, s, cache', b');
    InTimeGrows(cmds, replies, log, s, cache', b');
    FlattenGrows(log.segments, s);
    assert out + s.block == "\n" + (Blocks(log.segments) + s.block);
  }

  /** No event carries an id that has not been given out yet. */
  ghost predicate IdsUpTo(trace: seq<Effect>, n: nat) {
    forall i :: 0 <= i < |trace| && !trace[i].Called? ==> trace[i].id <= n
  }

  lemma IdsGrow(trace: seq<Effect>, n: nat, s: Segment)
    requires IdsUpTo(trace, n) && s.id > n
    ensures IdsUpTo(trace + Effects(s), s.id)
  {
  }

  /** The set of bundles is what the capability list grants. */
  ghost predicate Resolved(h: Host, allowed: set<Bundle>) {
    forall tool :: BundleOf(tool).Some? && h.capabilities != [] ==>
      (Granted(h.capabilities, tool) <==> BundleOf(tool).value in allowed)
  }

  lemma SpentSnoc(b: Budget, calls: seq<Callee>, c: Callee)
    ensures Spent(b, calls + [c]) == Charged(Spent(b, calls), c)
  {
    CountSnoc(calls + [c], |calls|);
    assert (calls + [c])[..|calls|] == calls && (calls + [c])[..|calls| + 1] == calls + [c];
  }

  lemma CalledSnoc(trace: seq<Effect>, calls: seq<Callee>, c: Callee)
    ensures trace + CalledAll(calls) + [Called(c)] == trace + CalledAll(calls + [c])
  {
  }

  lemma CountSnoc(calls: seq<Callee>, i: nat)
    requires i < |calls|
    ensures forall k :: Count(calls[..i + 1], k) == Count(calls[..i], k) + if Spends(calls[i], k) then 1 else 0
  {
    assert calls[..i + 1][..i] == calls[..i];
  }

  // ---- what a command may call ----

  /** The callbacks a command may reach. */
  predicate Serves(c: Callee, tool: Tool) {
    match c
    case FetchUrl => tool.Fetch?
    case BrowseUrl | Snapshot => tool.Browse?
    case SearchWeb => tool.Search?
    case Consult => tool.Advise?
    case HostExec | InvokerExec => tool.Exec?
    case DiskWrite | SinkWrite | Artifact => tool.Write?
    case MapTree => tool.Map?
    case Confirm => tool.Exec? || tool.Write?
    case Root => tool.Write? || tool.Map?
    case Backend(t) => t == tool && BundleOf(tool).Some?
  }

  ghost predicate AllServe(calls: seq<Callee>, tool: Tool) {
    forall j :: 0 <= j < |calls| ==> Serves(calls[j], tool)
  }

  lemma WriteServes(h: Host, q: Request, r: Reply)
    ensures AllServe(WritePlan(h, q, r).calls, Write)
  {
    var rooted := if !h.writeInterceptor && h.rootProvider then [Root] else [];
    var asked := if !h.writeInterceptor && h.confirm then [Confirm] else [];
    assert AllServe(rooted, Write) && AllServe(asked, Write);
    assert AllServe(rooted + asked, Write);
    assert AllServe(rooted + asked + [if h.writeInterceptor then SinkWrite else DiskWrite], Write);
  }

  lemma SmallPlansServe(h: Host, r: Reply, b: Budget)
    ensures AllServe(ExecPlan(h, r).calls, Exec)
    ensures AllServe(MapPlan(h, r).calls, Map)
    ensures AllServe(BrowsePlan(h, r, b).calls, Browse)
  {
  }

  lemma PlanServes(h: Host, q: Request, r: Reply, b: Budget)
    ensures AllServe(PlanFor(h, q, r, b).calls, q.tool)
  {
    if q.tool.Write? {
      WriteServes(h, q, r);
    } else if q.tool.Exec? || q.tool.Map? || q.tool.Browse? {
      SmallPlansServe(h, r, b);
    }
  }

  predicate Budgeted(tool: Tool) {
    tool.Fetch? || tool.Search? || tool.Browse? || tool.Advise?
  }

  lemma {:induction false} FreeCalls(calls: seq<Callee>, k: Kind)
    requires forall i :: 0 <= i < |calls| ==> !Spends(calls[i], k)
    ensures Count(calls, k) == 0
  {
    if calls != [] {
      FreeCalls(calls[..|calls| - 1], k);
    }
  }

  lemma ServingFree(calls: seq<Callee>, tool: Tool, k: Kind)
    requires AllServe(calls, tool) && !Budgeted(tool)
    ensures Count(calls, k) == 0
  {
    FreeCalls(calls, k);
  }

  lemma FreeTools(h: Host, q: Request, r: Reply, b: Budget, k: Kind)
    requires !Budgeted(q.tool)
    ensures Count(PlanFor(h, q, r, b).calls, k) == 0
  {
    PlanServes(h, q, r, b);
    ServingFree(PlanFor(h, q, r, b).calls, q.tool, k);
  }

  /** A command without a budget leaves the counters alone. */
  lemma FreeSpent(h: Host, q: Request, r: Reply, b: Budget)
    requires !Budgeted(q.tool)
    ensures Spent(b, PlanFor(h, q, r, b).calls) == b
  {
    FreeTools(h, q, r, b, Url);
    FreeTools(h, q, r, b, Searches);
    FreeTools(h, q, r, b, Consults);
  }
}
