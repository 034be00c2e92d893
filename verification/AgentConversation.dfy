/** An agent's conversation slots: histories, compaction states and the calls that change
    them. What a provider or the summarizer answers comes in as arguments; the key of the
    current conversation is explicit. */
module AgentConversation {
  import opened Common
  import opened Compaction

  datatype Response = Response(
    ok: bool, content: string, reasoning: string,
    inputTokens: int, outputTokens: int, cacheRead: int, cacheCreation: int,
    stopReason: string, errorType: string, error: string)

  datatype Config = Config(
    thresholdPct: int, keep: nat, enabled: bool, charBudget: nat,
    summarizeModel: string, strip: string -> string, continuePrompt: string)

  /** One model call: the context fill known beforehand (negative if unknown), what the
      summarizer would answer and what other threads append while it runs, the provider's
      reply and what they append during that call. */
  datatype Round = Round(contextPct: int, summary: string, arrived: seq<Message>, reply: Response, during: seq<Message>)

  const MAX_CONTINUES: nat := 3

  function Replies(rounds: seq<Round>): (r: seq<Response>)
    ensures |r| == |rounds| && forall i :: 0 <= i < |r| ==> r[i] == rounds[i].reply
  {
    seq(|rounds|, i requires 0 <= i < |rounds| => rounds[i].reply)
  }

  // ---- merging continuation segments ----

  function Merge(r: Response, more: Response): Response {
    r.(content := r.content + more.content,
       reasoning := r.reasoning + more.reasoning,
       inputTokens := r.inputTokens + more.inputTokens,
       outputTokens := r.outputTokens + more.outputTokens,
       cacheRead := r.cacheRead + more.cacheRead,
       cacheCreation := r.cacheCreation + more.cacheCreation,
       stopReason := more.stopReason)
  }

  function MergeAll(r: Response, segments: seq<Response>): Response {
    if segments == [] then r
    else Merge(MergeAll(r, segments[..|segments| - 1]), segments[|segments| - 1])
  }

  function Text(segments: seq<Response>): string {
    if segments == [] then "" else segments[0].content + Text(segments[1..])
  }

  function InputTokens(segments: seq<Response>): int {
    if segments == [] then 0 else segments[0].inputTokens + InputTokens(segments[1..])
  }

  function OutputTokens(segments: seq<Response>): int {
    if segments == [] then 0 else segments[0].outputTokens + OutputTokens(segments[1..])
  }

  function Reasoning(segments: seq<Response>): string {
    if segments == [] then "" else segments[0].reasoning + Reasoning(segments[1..])
  }

  function CacheTokens(segments: seq<Response>): (int, int) {
    if segments == [] then (0, 0)
    else
      var (read, created) := CacheTokens(segments[1..]);
      (segments[0].cacheRead + read, segments[0].cacheCreation + created)
  }

  lemma {:induction false} SnocTexts(segments: seq<Response>, last: Response)
    ensures Text(segments + [last]) == Text(segments) + last.content
    ensures Reasoning(segments + [last]) == Reasoning(segments) + last.reasoning
  {
    if segments == [] {
      assert [last][1..] == [];
    } else {
      SnocTexts(segments[1..], last);
      assert (segments + [last])[1..] == segments[1..] + [last];
      Regroup(segments[0].content, Text(segments[1..]), last.content);
      Regroup(segments[0].reasoning, Reasoning(segments[1..]), last.reasoning);
    }
  }

  lemma {:induction false} SnocSums(segments: seq<Response>, last: Response)
    ensures CacheTokens(segments + [last]) ==
            (CacheTokens(segments).0 + last.cacheRead, CacheTokens(segments).1 + last.cacheCreation)
    ensures InputTokens(segments + [last]) == InputTokens(segments) + last.inputTokens
    ensures OutputTokens(segments + [last]) == OutputTokens(segments) + last.outputTokens
  {
    if segments == [] {
      assert [last][1..] == [];
    } else {
      SnocSums(segments[1..], last);
      assert (segments + [last])[1..] == segments[1..] + [last];
    }
  }

  /** The merged reply is the concatenation of the segments, with their token sums. */
  lemma {:induction false} MergedIsConcatenation(r: Response, segments: seq<Response>)
    ensures
      var m := MergeAll(r, segments);
      && m.content == r.content + Text(segments) && m.reasoning == r.reasoning + Reasoning(segments)
      && m.cacheRead == r.cacheRead + CacheTokens(segments).0
      && m.cacheCreation == r.cacheCreation + CacheTokens(segments).1
      && m.inputTokens == r.inputTokens + InputTokens(segments)
      && m.outputTokens == r.outputTokens + OutputTokens(segments)
      && m.ok == r.ok && m.errorType == r.errorType && m.error == r.error
      && m.stopReason == if segments == [] then r.stopReason else segments[|segments| - 1].stopReason
  {
    if segments != [] {
      var (front, last) := (segments[..|segments| - 1], segments[|segments| - 1]);
      MergedIsConcatenation(r, front);
      SnocTexts(front, last);
      SnocSums(front, last);
      assert segments == front + [last];
    }
  }

  predicate CutOff(r: Response) {
    r.ok && r.stopReason == "max_tokens"
  }

  function Failed(r: Response, errorType: string): Response {
    if errorType == "cancelled" then r.(ok := false, errorType := "cancelled", error := "cancelled")
    else r.(ok := false, errorType := "continuation_failed", error := "continuation failed")
  }

  /** `calls` continuations were made for `resp`; the first `good` of them succeeded. */
  ghost predicate Continued(resp: Response, replies: seq<Response>, calls: nat, good: nat, out: Response) {
    && good <= calls <= good + 1 && calls <= 3 && calls <= |replies|
    && (calls > 0 ==> resp.ok)
    && (forall i :: 0 <= i < calls ==> MergeAll(resp, replies[..i]).stopReason == "max_tokens")
    && (forall i :: 0 <= i < good ==> replies[i].ok)
    && if good == calls
       then
         && out == MergeAll(resp, replies[..good])
         && (resp.ok && out.stopReason == "max_tokens" ==> calls == 3)
       else !replies[good].ok && out == Failed(MergeAll(resp, replies[..good]), replies[good].errorType)
  }

  lemma NothingToContinue(resp: Response, replies: seq<Response>)
    requires !resp.ok
    ensures Continued(resp, replies, 0, 0, resp)
  {
  }

  /** What a caller of the continuation loop can rely on. */
  lemma ContinuedOutcome(resp: Response, replies: seq<Response>, calls: nat, good: nat, out: Response)
    requires resp.ok && Continued(resp, replies, calls, good, out)
    ensures out.content == resp.content + Text(replies[..good])
    ensures out.inputTokens == resp.inputTokens + InputTokens(replies[..good])
    ensures out.outputTokens == resp.outputTokens + OutputTokens(replies[..good])
    ensures out.ok <==> good == calls
    ensures !out.ok ==> out.stopReason == "max_tokens"
                        && (out.errorType == "cancelled" <==> replies[good].errorType == "cancelled")
  {
    MergedIsConcatenation(resp, replies[..good]);
  }

  /** The loop's state after `good` successful segments and no failure. */
  ghost predicate MergedSoFar(resp: Response, replies: seq<Response>, good: nat, out: Response) {
    && good <= MAX_CONTINUES && good <= |replies|
    && (good > 0 ==> resp.ok)
    && out == MergeAll(resp, replies[..good]) && out.ok == resp.ok
    && (forall i :: 0 <= i < good ==> replies[i].ok)
    && (forall i :: 0 <= i < good ==> MergeAll(resp, replies[..i]).stopReason == "max_tokens")
  }

  /** The view ends with the partial reply and the prompt to go on. */
  predicate AsksToContinue(prompt: string, request: seq<Message>, partial: string) {
    && |request| >= 2
    && request[|request| - 2..] == [Message("assistant", partial), Message("user", prompt)]
  }

  ghost predicate Asked(prompt: string, resp: Response, replies: seq<Response>, calls: nat, requests: seq<seq<Message>>) {
    && |requests| == calls <= |replies|
    && forall i :: 0 <= i < calls ==> AsksToContinue(prompt, requests[i], MergeAll(resp, replies[..i]).content)
  }

  ghost predicate Underway(prompt: string, resp: Response, replies: seq<Response>, good: nat, out: Response,
                           requests: seq<seq<Message>>) {
    MergedSoFar(resp, replies, good, out) && Asked(prompt, resp, replies, good, requests)
  }

  lemma UnderwayGoesOn(prompt: string, resp: Response, replies: seq<Response>, good: nat, out: Response,
                       requests: seq<seq<Message>>, request: seq<Message>)
    requires Underway(prompt, resp, replies, good, out, requests) && good < MAX_CONTINUES && good < |replies|
    requires CutOff(out) && AsksToContinue(prompt, request, out.content)
    ensures Asked(prompt, resp, replies, good + 1, requests + [request])
    ensures replies[good].ok ==>
              Underway(prompt, resp, replies, good + 1, Merge(out, replies[good]), requests + [request])
    ensures !replies[good].ok ==>
              Continued(resp, replies, good + 1, good, Failed(out, replies[good].errorType))
  {
    assert replies[..good + 1][..good] == replies[..good];
  }

  lemma UnderwayEnds(prompt: string, resp: Response, replies: seq<Response>, good: nat, out: Response,
                     requests: seq<seq<Message>>)
    requires Underway(prompt, resp, replies, good, out, requests) && (!CutOff(out) || good == MAX_CONTINUES)
    ensures Continued(resp, replies, good, good, out)
  {
  }

  /** Whatever is covered, the two messages just pushed stay in the view. */
  lemma ViewKeepsTail(prompt: string, hist: seq<Message>, partial: string, s: CompactionState, view: seq<Message>)
    requires
      var pushed := hist + [Message("assistant", partial), Message("user", prompt)];
      IsView(pushed, s, view)
    requires Sane(s, |hist|)
    ensures AsksToContinue(prompt, view, partial)
  {
    var tail := [Message("assistant", partial), Message("user", prompt)];
    var pushed := hist + tail;
    if s.summary != "" {
      assert pushed[s.coveredUntil..] == hist[s.coveredUntil..] + tail;
      assert view == (Envelope(s.summary) + hist[s.coveredUntil..]) + tail;
    }
  }

  // ---- the window of a continuation ----

  /** The history while a continuation's model call runs. */
  function Pushed(hist: seq<Message>, partial: string, prompt: string): seq<Message> {
    hist + [Message("assistant", partial), Message("user", prompt)]
  }

  /** What two pops leave after messages have arrived during the call. */
  function AfterCall(hist: seq<Message>, partial: string, prompt: string, during: seq<Message>): (h: seq<Message>)
    ensures |h| == |hist| + |during|
  {
    var h := Pushed(hist, partial, prompt) + during;
    h[..|h| - 2]
  }

  lemma PushedInTurn(hist: seq<Message>, partial: string, prompt: string)
    ensures hist + [Message("assistant", partial)] + [Message("user", prompt)] == Pushed(hist, partial, prompt)
  {
  }

  lemma PoppedInTurn(h: seq<Message>)
    ensures |h| >= 2 ==> h[..|h| - 1][..|h| - 2] == h[..|h| - 2]
  {
  }

  /** The slot is not locked during the call: it may be reset, and messages may arrive. */
  datatype Window = Window(reset: bool, during: seq<Message>)

  function AtPop(hist: seq<Message>, partial: string, prompt: string, w: Window): seq<Message> {
    if w.reset then w.during else Pushed(hist, partial, prompt) + w.during
  }

  /** Two pops; popping an empty vector has no meaning. */
  function PopTwo(h: seq<Message>): Option<seq<Message>> {
    if |h| < 2 then None else Some(h[..|h| - 2])
  }

  /** The messages are the pushed pair over and over, as far as they go. */
  predicate RepeatsPair(partial: string, prompt: string, during: seq<Message>) {
    forall i :: 0 <= i < |during| ==>
      during[i] == if i % 2 == 0 then Message("assistant", partial) else Message("user", prompt)
  }

  lemma {:induction false} ShiftedRepeats(partial: string, prompt: string, during: seq<Message>, i: nat)
    requires i < |during| && ([Message("assistant", partial), Message("user", prompt)] + during)[..|during|] == during
    ensures during[i] == if i % 2 == 0 then Message("assistant", partial) else Message("user", prompt)
  {
    var pair := [Message("assistant", partial), Message("user", prompt)];
    assert during[i] == (pair + during)[..|during|][i] == (pair + during)[i];
    if i >= 2 { ShiftedRepeats(partial, prompt, during, i - 2); }
  }

  lemma ShiftIsRepetition(partial: string, prompt: string, during: seq<Message>)
    ensures ([Message("assistant", partial), Message("user", prompt)] + during)[..|during|] == during
            <==> RepeatsPair(partial, prompt, during)
  {
    var pair := [Message("assistant", partial), Message("user", prompt)];
    if (pair + during)[..|during|] == during {
      forall i | 0 <= i < |during|
        ensures during[i] == if i % 2 == 0 then pair[0] else pair[1]
      {
        ShiftedRepeats(partial, prompt, during, i);
      }
    }
    if RepeatsPair(partial, prompt, during) {
      forall i | 0 <= i < |during|
        ensures (pair + during)[..|during|][i] == during[i]
      {
        if i >= 2 { assert (pair + during)[i] == during[i - 2]; }
      }
    }
  }

  /** The pops leave the old history and what has arrived exactly when the slot was not reset
      and what has arrived repeats the pushed pair; that is, in practice, when nothing has.
      After a reset they may find nothing to pop. */
  lemma PopsRestoreExactly(hist: seq<Message>, partial: string, prompt: string, w: Window)
    ensures PopTwo(AtPop(hist, partial, prompt, w)) == Some(hist + w.during)
            <==> !w.reset && RepeatsPair(partial, prompt, w.during)
    ensures PopTwo(AtPop(hist, partial, prompt, w)) == None <==> w.reset && |w.during| < 2
  {
    if w.reset {
      assert |hist + w.during| > |w.during| - 2;
    } else {
      var pair := [Message("assistant", partial), Message("user", prompt)];
      var (h, n) := (hist + pair + w.during, |w.during|);
      assert h[..|h| - 2] == hist + (pair + w.during)[..n];
      SameRest(hist, (pair + w.during)[..n], w.during);
      ShiftIsRepetition(partial, prompt, w.during);
    }
  }

  lemma SameRest(h: seq<Message>, a: seq<Message>, b: seq<Message>)
    ensures h + a == h + b <==> a == b
  {
    assert a == (h + a)[|h|..] && b == (h + b)[|h|..];
  }

  /** One message that arrives during the call is lost and the partial reply stays. */
  lemma ArrivalIsPopped(hist: seq<Message>, partial: string, prompt: string, m: Message)
    ensures AfterCall(hist, partial, prompt, [m]) == hist + [Message("assistant", partial)]
  {
  }

  /** The slot's history after `n` continuations. */
  function AfterRounds(prompt: string, hist: seq<Message>, resp: Response, rounds: seq<Round>, n: nat): (h: seq<Message>)
    requires n <= |rounds|
    ensures |h| >= |hist|
  {
    if n == 0 then hist
    else
      AfterCall(AfterRounds(prompt, hist, resp, rounds, n - 1) + rounds[n - 1].arrived,
                MergeAll(resp, Replies(rounds)[..n - 1]).content, prompt, rounds[n - 1].during)
  }

  /** The slot's history after a turn: a failed first call adds nothing to what has arrived. */
  function AfterTurn(prompt: string, hist: seq<Message>, first: Round, rounds: seq<Round>, n: nat, out: Response): seq<Message>
    requires n <= |rounds|
  {
    var h := hist + first.arrived + first.during;
    if first.reply.ok then AfterRounds(prompt, h, first.reply, rounds, n) + [Message("assistant", out.content)] else h
  }

  function Arrivals(rounds: seq<Round>, n: nat): seq<Message>
    requires n <= |rounds|
  {
    if n == 0 then [] else Arrivals(rounds, n - 1) + rounds[n - 1].arrived
  }

  lemma QuietCall(hist: seq<Message>, partial: string, prompt: string)
    ensures AfterCall(hist, partial, prompt, []) == hist
  {
    assert Pushed(hist, partial, prompt) + [] == Pushed(hist, partial, prompt);
  }

  /** When nothing arrives during the model calls, the loop leaves the history as it was, with
      what arrived between them. */
  lemma {:induction false} QuietCallsRestore(prompt: string, hist: seq<Message>, resp: Response, rounds: seq<Round>, n: nat)
    requires n <= |rounds| && forall i :: 0 <= i < n ==> rounds[i].during == []
    ensures AfterRounds(prompt, hist, resp, rounds, n) == hist + Arrivals(rounds, n)
  {
    if n > 0 {
      QuietCallsRestore(prompt, hist, resp, rounds, n - 1);
      var h := hist + Arrivals(rounds, n - 1) + rounds[n - 1].arrived;
      QuietCall(h, MergeAll(resp, Replies(rounds)[..n - 1]).content, prompt);
    }
  }

  // ---- what other threads do to the slot ----

  datatype SlotOp = Append(m: Message) | Replace(h: seq<Message>)

  function AfterOps(h: seq<Message>, ops: seq<SlotOp>): seq<Message> {
    if ops == [] then h
    else
      var last := ops[|ops| - 1];
      if last.Append? then AfterOps(h, ops[..|ops| - 1]) + [last.m] else last.h
  }

  predicate Replaced(ops: seq<SlotOp>) {
    exists i :: 0 <= i < |ops| && ops[i].Replace?
  }

  function Appends(ms: seq<Message>): seq<SlotOp> {
    seq(|ms|, i requires 0 <= i < |ms| => Append(ms[i]))
  }

  lemma {:induction false} AfterAppends(h: seq<Message>, ms: seq<Message>)
    ensures AfterOps(h, Appends(ms)) == h + ms && !Replaced(Appends(ms))
  {
    if ms == [] {
      assert h + ms == h;
    } else {
      var front := ms[..|ms| - 1];
      AfterAppends(h, front);
      assert Appends(ms)[..|ms| - 1] == Appends(front);
      assert h + front + [ms[|ms| - 1]] == h + ms;
    }
  }

  lemma {:induction false} UnreplacedGrows(h: seq<Message>, ops: seq<SlotOp>)
    requires !Replaced(ops)
    ensures h <= AfterOps(h, ops)
  {
    if ops != [] {
      UnreplacedGrows(h, ops[..|ops| - 1]);
    }
  }

  // ---- user messages ----

  /** The text of a message: its text parts, each on a new line. */
  function TextOf(parts: seq<Part>): string {
    if parts == [] then ""
    else
      var (front, last) := (TextOf(parts[..|parts| - 1]), parts[|parts| - 1]);
      if last.ImagePart? then front
      else if front != "" && front[|front| - 1] != '\n' then front + "\n" + last.text
      else front + last.text
  }

  method ConcatenateText(parts: seq<Part>) returns (out: string)
    ensures out == TextOf(parts)
  {
    out := "";
    for i := 0 to |parts|
      invariant out == TextOf(parts[..i])
    {
      assert parts[..i + 1][..i] == parts[..i];
      if parts[i].TextPart? {
        if out != "" && out[|out| - 1] != '\n' {
          out := out + "\n";
        }
        out := out + parts[i].text;
      }
    }
    assert parts[..|parts|] == parts;
  }

  function WithoutImages(parts: seq<Part>): seq<Part> {
    if parts == [] then []
    else WithoutImages(parts[..|parts| - 1]) + if parts[|parts| - 1].TextPart? then [parts[|parts| - 1]] else []
  }

  /** Images add nothing to the text of a message. */
  lemma {:induction false} ImagesAddNoText(parts: seq<Part>)
    ensures TextOf(parts) == TextOf(WithoutImages(parts))
  {
    if parts != [] {
      var (front, last) := (parts[..|parts| - 1], parts[|parts| - 1]);
      ImagesAddNoText(front);
      if last.TextPart? {
        assert (WithoutImages(front) + [last])[..|WithoutImages(front)|] == WithoutImages(front);
      } else {
        assert WithoutImages(front) + [] == WithoutImages(front);
      }
    }
  }

  function Texts(parts: seq<Part>): seq<string> {
    if parts == [] then []
    else if parts[0].TextPart? then [parts[0].text] + Texts(parts[1..])
    else Texts(parts[1..])
  }

  /** The texts as lines of one text. */
  function Joined(ts: seq<string>): string {
    if ts == [] then "" else if |ts| == 1 then ts[0] else ts[0] + "\n" + Joined(ts[1..])
  }

  /** Not blank, and no newline at the end. */
  predicate FullLine(t: string) {
    t != "" && t[|t| - 1] != '\n'
  }

  lemma {:induction false} TextsSnoc(parts: seq<Part>, last: Part)
    ensures Texts(parts + [last]) == Texts(parts) + if last.TextPart? then [last.text] else []
  {
    if parts == [] {
      assert [last][1..] == [];
    } else {
      TextsSnoc(parts[1..], last);
      assert (parts + [last])[1..] == parts[1..] + [last];
    }
  }

  lemma {:induction false} JoinedSnoc(ts: seq<string>, t: string)
    requires ts != []
    ensures Joined(ts + [t]) == Joined(ts) + "\n" + t
  {
    if |ts| == 1 {
      assert (ts + [t])[1..] == [t];
    } else {
      JoinedSnoc(ts[1..], t);
      assert (ts + [t])[1..] == ts[1..] + [t];
      Regroup(ts[0] + "\n", Joined(ts[1..]), "\n" + t);
    }
  }

  /** Texts that are lines are joined as lines, in order; images leave no trace. */
  lemma {:induction false} TextIsJoined(parts: seq<Part>)
    requires forall i :: 0 <= i < |parts| && parts[i].TextPart? ==> FullLine(parts[i].text)
    ensures TextOf(parts) == Joined(Texts(parts))
    ensures Texts(parts) != [] ==> FullLine(TextOf(parts))
  {
    if parts != [] {
      var (front, last) := (parts[..|parts| - 1], parts[|parts| - 1]);
      TextIsJoined(front);
      assert parts == front + [last];
      TextsSnoc(front, last);
      if last.ImagePart? {
        assert Texts(front) + [] == Texts(front);
      } else if Texts(front) == [] {
        assert TextOf(front) == "" && [] + [last.text] == [last.text];
      } else {
        JoinedSnoc(Texts(front), last.text);
      }
    }
  }

  /** Nothing is lost in a user message: it carries the text, and the parts unless they are
      that very text. */
  lemma UserMessageKeeps(parts: seq<Part>)
    ensures UserMessage(parts).role == "user" && UserMessage(parts).content == TextOf(parts)
    ensures UserMessage(parts).parts == parts
            || (parts == [TextPart(UserMessage(parts).content)] && UserMessage(parts).parts == [])
  {
    if |parts| == 1 { assert parts[..0] == [] && parts == [parts[0]]; }
  }

  /** The message for a list of parts: a single text is stored as such, anything else with
      its parts beside the text. */
  function UserMessage(parts: seq<Part>): Message {
    if |parts| == 1 && parts[0].TextPart? then Message("user", parts[0].text)
    else Message("user", TextOf(parts), parts)
  }

  // ---- deciding to compact ----

  function CharCount(ms: seq<Message>): nat {
    if ms == [] then 0 else |ms[0].content| + CharCount(ms[1..])
  }

  predicate ShouldAutoCompact(cfg: Config, contextPct: int, historyLen: nat, viewChars: nat) {
    && cfg.enabled && historyLen > cfg.keep
    && if contextPct >= 0 then contextPct >= cfg.thresholdPct else viewChars >= cfg.charBudget
  }

  method CountChars(ms: seq<Message>) returns (n: nat)
    ensures n == CharCount(ms)
  {
    n := 0;
    for i := 0 to |ms|
      invariant n + CharCount(ms[i..]) == CharCount(ms)
    {
      n := n + |ms[i].content|;
      assert ms[i..][1..] == ms[i + 1..];
    }
  }

  /** `next` summarizes strictly more of the history than `s` does, up to the cut. */
  ghost predicate Advanced(cfg: Config, hist: seq<Message>, s: CompactionState, answer: string,
                           next: CompactionState) {
    && Sane(next, |hist|) && next.summary == answer != ""
    && next.coveredUntil > s.coveredUntil && IsCut(hist, cfg.keep, next.coveredUntil)
    && next.generation == s.generation + 1
  }

  /** There is something new to summarize, a model to do it, and it answers. */
  ghost predicate Summarizable(cfg: Config, hist: seq<Message>, s: CompactionState, answer: string) {
    && (exists cut: nat :: IsCut(hist, cfg.keep, cut) && cut > s.coveredUntil)
    && cfg.summarizeModel != "" && answer != ""
  }

  /** An attempt is called for: always when forced, else when the context fill, or the size of
      the view where the fill is unknown, has reached its threshold. */
  predicate CalledFor(cfg: Config, force: bool, contextPct: int, historyLen: nat, viewChars: nat) {
    && historyLen > cfg.keep
    && (force || (cfg.enabled && (contextPct >= cfg.thresholdPct || contextPct < 0)
                  && (contextPct >= 0 || viewChars >= cfg.charBudget)))
  }

  /** An attempt is called for, by the view the model sees, and it succeeds. */
  ghost predicate Due(cfg: Config, hist: seq<Message>, s: CompactionState, force: bool, contextPct: int,
                      answer: string) {
    && (exists view :: IsView(hist, s, view) && CalledFor(cfg, force, contextPct, |hist|, CharCount(view)))
    && Summarizable(cfg, hist, s, answer)
  }

  /** What an attempt on `hist` does to the state `s`, given what others do meanwhile: it is
      done exactly when it is due and its cut still fits, even if the history is no longer
      the one it has read. */
  ghost predicate Attempted(cfg: Config, hist: seq<Message>, s: CompactionState, force: bool, contextPct: int,
                            answer: string, ops: seq<SlotOp>, done: bool, next: CompactionState) {
    && (done <==> && Due(cfg, hist, s, force, contextPct, answer)
                  && exists cut: nat :: IsCut(hist, cfg.keep, cut) && cut <= |AfterOps(hist, ops)|)
    && if done then Advanced(cfg, hist, s, answer, next) else next == if Replaced(ops) then EMPTY else s
  }

  lemma AttemptOutcome(cfg: Config, hist: seq<Message>, s: CompactionState, force: bool, contextPct: int,
                       answer: string, ops: seq<SlotOp>, ok: bool, updated: CompactionState, done: bool,
                       next: CompactionState)
    requires (ok <==> Due(cfg, hist, s, force, contextPct, answer)) && (ok ==> Advanced(cfg, hist, s, answer, updated))
    requires done <==> ok && updated.coveredUntil <= |AfterOps(hist, ops)|
    requires next == if done then updated else if Replaced(ops) then EMPTY else s
    ensures Attempted(cfg, hist, s, force, contextPct, answer, ops, done, next)
  {
    if ok {
      forall cut: nat | IsCut(hist, cfg.keep, cut) ensures cut == updated.coveredUntil {
        CutUnique(hist, cfg.keep, cut, updated.coveredUntil);
      }
    }
  }

  /** While others only append, an attempt is done exactly when it is due. */
  lemma UndisturbedAttempt(cfg: Config, hist: seq<Message>, s: CompactionState, force: bool, contextPct: int,
                           answer: string, ops: seq<SlotOp>, done: bool, next: CompactionState)
    requires Attempted(cfg, hist, s, force, contextPct, answer, ops, done, next) && !Replaced(ops)
    ensures done <==> Due(cfg, hist, s, force, contextPct, answer)
    ensures next.coveredUntil >= s.coveredUntil
    ensures hist <= AfterOps(hist, ops)
  {
    UnreplacedGrows(hist, ops);
    if Due(cfg, hist, s, force, contextPct, answer) {
      var cut: nat :| IsCut(hist, cfg.keep, cut) && cut > s.coveredUntil;
      assert cut <= |hist|;
    }
  }

  /** Decide and ask for a summary, on a snapshot of the slot. */
  method TryCompact(cfg: Config, hist: seq<Message>, state: CompactionState, force: bool,
                    contextPct: int, answer: string) returns (ok: bool, next: CompactionState)
    requires Sane(state, |hist|)
    ensures ok ==> Advanced(cfg, hist, state, answer, next)
    ensures !ok ==> next == state
    ensures ok <==> Due(cfg, hist, state, force, contextPct, answer)
  {
    var view := BuildModelMessages(hist, state);
    var viewChars := CountChars(view);
    ok, next := false, state;
    if !force {
      if !ShouldAutoCompact(cfg, contextPct, |hist|, viewChars) {
        return;
      }
    } else if |hist| <= cfg.keep {
      return;
    }
    SanitizeExact(state, |hist|);
    var a := RunCompaction(cfg.summarizeModel, hist, state, cfg.keep, cfg.strip, answer);
    if a.ok {
      ok, next := true, a.state;
    }
  }

  // ---- slots ----

  type Histories = map<string, seq<Message>>
  type States = map<string, CompactionState>

  function HistoryIn(hs: Histories, key: string): seq<Message> {
    if key in hs then hs[key] else []
  }

  function StateIn(cs: States, key: string): CompactionState {
    if key in cs then cs[key] else EMPTY
  }

  /** No slot covers more than its history, or covers anything without a summary. */
  ghost predicate SlotsSane(hs: Histories, cs: States) {
    forall k :: k in cs ==> Sane(cs[k], |HistoryIn(hs, k)|)
  }

  lemma SlotUpdateSane(hs: Histories, cs: States, key: string, h: seq<Message>, s: CompactionState)
    requires SlotsSane(hs, cs) && Sane(s, |h|)
    ensures SlotsSane(hs[key := h], cs[key := s])
  {
  }

  lemma HistoryGrowthSane(hs: Histories, cs: States, key: string, h: seq<Message>)
    requires SlotsSane(hs, cs) && |HistoryIn(hs, key)| <= |h|
    ensures SlotsSane(hs[key := h], cs)
  {
  }

  /** Only the slot `key` was touched: its history is now `h` and its coverage did not shrink. */
  ghost predicate Slotted(hs0: Histories, cs0: States, hs1: Histories, cs1: States, key: string,
                          h: seq<Message>) {
    && hs1 == hs0[key := h]
    && cs1 == cs0[key := StateIn(cs1, key)]
    && StateIn(cs1, key).coveredUntil >= StateIn(cs0, key).coveredUntil
  }

  /** The same, or nothing was touched at all. */
  ghost predicate Kept(hs0: Histories, cs0: States, hs1: Histories, cs1: States, key: string, touched: bool,
                       h: seq<Message>) {
    if touched then Slotted(hs0, cs0, hs1, cs1, key, h) else hs1 == hs0 && cs1 == cs0 && h == HistoryIn(hs0, key)
  }

  /** One more round on top of `n` rounds. */
  lemma RoundKept(hs0: Histories, cs0: States, hs1: Histories, cs1: States, hs2: Histories, cs2: States,
                  key: string, prompt: string, resp: Response, rounds: seq<Round>, n: nat, partial: string)
    requires n < |rounds| && partial == MergeAll(resp, Replies(rounds)[..n]).content
    requires Kept(hs0, cs0, hs1, cs1, key, n > 0, AfterRounds(prompt, HistoryIn(hs0, key), resp, rounds, n))
    requires Slotted(hs1, cs1, hs2, cs2, key,
                     AfterCall(HistoryIn(hs1, key) + rounds[n].arrived, partial, prompt, rounds[n].during))
    ensures Kept(hs0, cs0, hs2, cs2, key, true, AfterRounds(prompt, HistoryIn(hs0, key), resp, rounds, n + 1))
  {
    var h := AfterRounds(prompt, HistoryIn(hs0, key), resp, rounds, n);
    assert HistoryIn(hs1, key) == h;
    assert AfterRounds(prompt, HistoryIn(hs0, key), resp, rounds, n + 1)
        == AfterCall(h + rounds[n].arrived, partial, prompt, rounds[n].during);
  }

  lemma SlottedThenKept(hs0: Histories, cs0: States, hs1: Histories, cs1: States, hs2: Histories, cs2: States,
                        key: string, touched: bool, h1: seq<Message>, h2: seq<Message>)
    requires Slotted(hs0, cs0, hs1, cs1, key, h1) && Kept(hs1, cs1, hs2, cs2, key, touched, h2)
    ensures Slotted(hs0, cs0, hs2, cs2, key, h2)
  {
  }

  lemma SlottedThenSet(hs0: Histories, cs0: States, hs1: Histories, cs1: States, key: string,
                       h: seq<Message>, h2: seq<Message>)
    requires Slotted(hs0, cs0, hs1, cs1, key, h)
    ensures HistoryIn(hs1, key) == h && Slotted(hs0, cs0, hs1[key := h2], cs1, key, h2)
  {
  }

  lemma GrownThenSlotted(hs0: Histories, hs1: Histories, cs0: States, hs2: Histories, cs2: States, key: string,
                         h1: seq<Message>, h2: seq<Message>)
    requires hs1 == hs0[key := h1] && Slotted(hs1, cs0, hs2, cs2, key, h2)
    ensures Slotted(hs0, cs0, hs2, cs2, key, h2)
  {
  }

  lemma Overwritten<V>(m: map<string, V>, key: string, a: V, b: V)
    ensures m[key := a][key := b] == m[key := b]
  {
  }

  lemma OneMoreOp(h: seq<Message>, ops: seq<SlotOp>, i: nat)
    requires i < |ops|
    ensures AfterOps(h, ops[..i + 1]) ==
            if ops[i].Append? then AfterOps(h, ops[..i]) + [ops[i].m] else ops[i].h
    ensures Replaced(ops[..i + 1]) <==> Replaced(ops[..i]) || ops[i].Replace?
  {
    var (p, q) := (ops[..i], ops[..i + 1]);
    assert q[..i] == p;
    if Replaced(p) {
      var k :| 0 <= k < |p| && p[k].Replace?;
      assert q[k].Replace?;
    }
    if ops[i].Replace? { assert q[i].Replace?; }
  }

  /** An attempt with nothing but arrivals around it. */
  lemma AppendedIsSlotted(cfg: Config, hs0: Histories, cs0: States, hs1: Histories, cs1: States, key: string,
                          arrived: seq<Message>, contextPct: int, answer: string, done: bool)
    requires hs1 == hs0[key := AfterOps(HistoryIn(hs0, key), Appends(arrived))]
    requires cs1 == cs0[key := StateIn(cs1, key)]
    requires Attempted(cfg, HistoryIn(hs0, key), StateIn(cs0, key), false, contextPct, answer, Appends(arrived), done,
                       StateIn(cs1, key))
    ensures Slotted(hs0, cs0, hs1, cs1, key, HistoryIn(hs0, key) + arrived)
  {
    AfterAppends(HistoryIn(hs0, key), arrived);
    UndisturbedAttempt(cfg, HistoryIn(hs0, key), StateIn(cs0, key), false, contextPct, answer, Appends(arrived), done,
                       StateIn(cs1, key));
  }

  /** The slot's token count is a quarter of the characters now shown, and at least one. */
  ghost predicate Estimated(before: map<string, int>, after: map<string, int>, key: string, h: seq<Message>,
                            s: CompactionState) {
    && key in after && after == before[key := after[key]]
    && exists view :: IsView(h, s, view) && QuarterOf(after[key], CharCount(view))
  }

  predicate QuarterOf(tokens: int, chars: nat) {
    4 * tokens <= chars < 4 * tokens + 4 || (tokens == 1 && chars < 4)
  }

  class Agent {
    const cfg: Config
    var histories: Histories
    var compaction: States
    var lastInputTokens: map<string, int>
    var pinnedFacts: map<string, string>
    var notices: map<string, nat>

    ghost predicate Valid()
      reads this
    {
      SlotsSane(histories, compaction)
    }

    function History(key: string): seq<Message>
      reads this`histories
    {
      HistoryIn(histories, key)
    }

    function State(key: string): CompactionState
      reads this`compaction
    {
      StateIn(compaction, key)
    }

    constructor (cfg: Config)
      ensures Valid() && this.cfg == cfg && histories == map[] && compaction == map[]
    {
      this.cfg := cfg;
      histories, compaction, lastInputTokens, pinnedFacts, notices := map[], map[], map[], map[], map[];
    }

    /** Replacing a history forgets everything that was indexed by it. */
    method SetHistory(key: string, h: seq<Message>)
      requires Valid()
      modifies this
      ensures Valid()
      ensures histories == old(histories)[key := h] && compaction == old(compaction)[key := EMPTY]
      ensures lastInputTokens == old(lastInputTokens)[key := 0]
      ensures pinnedFacts == old(pinnedFacts) - {key} && notices == old(notices) - {key}
    {
      SlotUpdateSane(histories, compaction, key, h, EMPTY);
      histories := histories[key := h];
      compaction := compaction[key := EMPTY];
      lastInputTokens := lastInputTokens[key := 0];
      pinnedFacts := pinnedFacts - {key};
      notices := notices - {key};
    }

    method ResetHistory(key: string)
      requires Valid()
      modifies this
      ensures Valid()
      ensures histories == old(histories)[key := []] && compaction == old(compaction)[key := EMPTY]
      ensures lastInputTokens == old(lastInputTokens)[key := 0]
      ensures pinnedFacts == old(pinnedFacts) - {key} && notices == old(notices) - {key}
    {
      SetHistory(key, []);
    }

    /** A restored state that does not fit the slot's history is dropped. */
    method SetCompactionState(key: string, s: CompactionState)
      requires Valid()
      modifies this`histories, this`compaction
      ensures Valid() && histories == old(histories)[key := old(History(key))]
      ensures compaction == old(compaction)[key := if Sane(s, |old(History(key))|) then s else EMPTY]
    {
      var h := History(key);
      SanitizeExact(s, |h|);
      SlotUpdateSane(histories, compaction, key, h, Sanitize(s, |h|));
      histories := histories[key := h];
      compaction := compaction[key := Sanitize(s, |h|)];
    }

    /** Append a user turn, of text and images, to the slot. */
    method CommitUserParts(key: string, parts: seq<Part>)
      requires Valid()
      modifies this`histories
      ensures Valid()
      ensures histories == old(histories)[key := old(History(key)) + [UserMessage(parts)]]
    {
      var m := Message("user", "");
      if |parts| == 1 && parts[0].TextPart? {
        m := m.(content := parts[0].text);
      } else {
        var text := ConcatenateText(parts);
        m := m.(content := text, parts := parts);
      }
      HistoryGrowthSane(histories, compaction, key, History(key) + [m]);
      histories := histories[key := History(key) + [m]];
    }

    method CommitUserMessage(key: string, text: string)
      requires Valid()
      modifies this`histories
      ensures Valid()
      ensures histories == old(histories)[key := old(History(key)) + [Message("user", text)]]
    {
      CommitUserParts(key, [TextPart(text)]);
    }

    /** Look the slot up, creating what is missing. */
    method Touch(key: string) returns (h: seq<Message>, s: CompactionState)
      requires Valid()
      modifies this`histories, this`compaction
      ensures Valid() && h == old(History(key)) && s == old(State(key)) && Sane(s, |h|)
      ensures histories == old(histories)[key := h] && compaction == old(compaction)[key := s]
    {
      h, s := History(key), State(key);
      SlotUpdateSane(histories, compaction, key, h, s);
      histories := histories[key := h];
      compaction := compaction[key := s];
    }

    /** What other threads do to the slot while it is not locked. */
    method Meanwhile(key: string, ops: seq<SlotOp>)
      requires Valid() && key in histories && key in compaction
      modifies this
      ensures Valid() && histories == old(histories)[key := AfterOps(old(History(key)), ops)]
      ensures compaction == old(compaction)[key := if Replaced(ops) then EMPTY else old(State(key))]
      ensures !Replaced(ops) ==> pinnedFacts == old(pinnedFacts) && notices == old(notices)
    {
      ghost var (h, s, hs, cs) := (History(key), State(key), histories, compaction);
      for i := 0 to |ops|
        invariant Valid() && histories == hs[key := AfterOps(h, ops[..i])]
        invariant compaction == cs[key := if Replaced(ops[..i]) then EMPTY else s]
        invariant !Replaced(ops[..i]) ==> pinnedFacts == old(pinnedFacts) && notices == old(notices)
      {
        OneMoreOp(h, ops, i);
        match ops[i] {
          case Append(m) => CommitMessage(key, m);
          case Replace(x) => SetHistory(key, x);
        }
      }
      assert ops[..|ops|] == ops;
    }

    method CommitMessage(key: string, m: Message)
      requires Valid()
      modifies this`histories
      ensures Valid() && histories == old(histories)[key := old(History(key)) + [m]]
    {
      HistoryGrowthSane(histories, compaction, key, History(key) + [m]);
      histories := histories[key := History(key) + [m]];
    }

    /** One attempt, with whatever other threads do to the slot while the summarizer runs
        unlocked. A failed attempt leaves the state they leave; a successful one installs a
        summary that covers strictly more of the snapshot, even if the history has been
        replaced meanwhile. Other slots are not touched. */
    method MaybeCompact(key: string, force: bool, contextPct: int, answer: string, ops: seq<SlotOp>)
      returns (done: bool)
      requires Valid()
      modifies this
      ensures Valid() && histories == old(histories)[key := AfterOps(old(History(key)), ops)]
      ensures compaction == old(compaction)[key := State(key)]
      ensures Attempted(cfg, old(History(key)), old(State(key)), force, contextPct, answer, ops, done, State(key))
      ensures !Replaced(ops) ==>
                && pinnedFacts == old(pinnedFacts)
                && notices == if done then old(notices)[key := State(key).coveredUntil] else old(notices)
    {
      ghost var (hs, cs) := (histories, compaction);
      var hist, state := Touch(key);
      var ok, updated := TryCompact(cfg, hist, state, force, contextPct, answer);
      Overwritten(hs, key, hist, AfterOps(hist, ops));
      ghost var left := if Replaced(ops) then EMPTY else state;
      Overwritten(cs, key, state, left);
      Overwritten(cs, key, left, updated);
      Meanwhile(key, ops);
      done := false;
      if ok {
        done := Commit(key, updated);
      }
      assert compaction == cs[key := if done then updated else left];
      AttemptOutcome(cfg, hist, state, force, contextPct, answer, ops, ok, updated, done, State(key));
    }

    /** The commit, back under the lock: a result that no longer fits the history is dropped. */
    method Commit(key: string, updated: CompactionState) returns (done: bool)
      requires Valid() && updated.summary != ""
      modifies this`compaction, this`lastInputTokens, this`notices
      ensures Valid() && (done <==> updated.coveredUntil <= |History(key)|)
      ensures compaction == if done then old(compaction)[key := updated] else old(compaction)
      ensures notices == if done then old(notices)[key := updated.coveredUntil] else old(notices)
      ensures if done then Estimated(old(lastInputTokens), lastInputTokens, key, History(key), updated)
              else lastInputTokens == old(lastInputTokens)
    {
      var fitted := Sanitize(updated, |History(key)|);
      SanitizeExact(updated, |History(key)|);
      done := fitted.summary != "";
      if done {
        Install(key, fitted);
      }
    }

    /** Store a new state and estimate the prompt it leads to. */
    method Install(key: string, s: CompactionState)
      requires Valid() && Sane(s, |History(key)|)
      modifies this`compaction, this`lastInputTokens, this`notices
      ensures Valid() && compaction == old(compaction)[key := s]
      ensures notices == old(notices)[key := s.coveredUntil]
      ensures Estimated(old(lastInputTokens), lastInputTokens, key, History(key), s)
    {
      SlotUpdateSane(histories, compaction, key, History(key), s);
      compaction := compaction[key := s];
      var view := BuildModelMessages(History(key), s);
      var chars := CountChars(view);
      lastInputTokens := lastInputTokens[key := if chars / 4 > 1 then chars / 4 else 1];
      notices := notices[key := s.coveredUntil];
    }

    /** Push the partial reply and the prompt, build the request, let messages arrive during
        the call, and pop two. */
    method AskOnce(key: string, partial: string, during: seq<Message>) returns (request: seq<Message>)
      requires Valid()
      modifies this`histories
      ensures Valid()
      ensures histories == old(histories)[key := AfterCall(old(History(key)), partial, cfg.continuePrompt, during)]
      ensures AsksToContinue(cfg.continuePrompt, request, partial)
    {
      var hist := History(key);
      HistoryGrowthSane(histories, compaction, key, AfterCall(hist, partial, cfg.continuePrompt, during));
      PushedInTurn(hist, partial, cfg.continuePrompt);
      var h := hist + [Message("assistant", partial)] + [Message("user", cfg.continuePrompt)];
      ghost var hs := histories;
      histories := histories[key := h];
      request := BuildModelMessages(History(key), State(key));
      ViewKeepsTail(cfg.continuePrompt, hist, partial, State(key), request);
      histories := histories[key := histories[key] + during];
      PoppedInTurn(History(key));
      h := History(key);
      h := h[..|h| - 1];
      h := h[..|h| - 1];
      histories := histories[key := h];
      assert histories == hs[key := h];
    }

    /** One more call for a reply that was cut off. */
    method ContinueOnce(key: string, partial: string, round: Round) returns (request: seq<Message>)
      requires Valid()
      modifies this
      ensures Valid()
      ensures Slotted(old(histories), old(compaction), histories, compaction, key,
                      AfterCall(old(History(key)) + round.arrived, partial, cfg.continuePrompt, round.during))
      ensures AsksToContinue(cfg.continuePrompt, request, partial)
    {
      var compacted := MaybeCompact(key, false, round.contextPct, round.summary, Appends(round.arrived));
      AppendedIsSlotted(cfg, old(histories), old(compaction), histories, compaction, key, round.arrived, round.contextPct,
                        round.summary, compacted);
      ghost var h := old(History(key)) + round.arrived;
      SlottedThenSet(old(histories), old(compaction), histories, compaction, key, h,
                     AfterCall(h, partial, cfg.continuePrompt, round.during));
      request := AskOnce(key, partial, round.during);
      if round.reply.ok {
        lastInputTokens := lastInputTokens[key := round.reply.inputTokens];
      }
    }

    /** One round of the continuation loop, the `calls`-th counted from zero. */
    method ContinueRound(key: string, ghost resp: Response, rounds: seq<Round>, calls: nat, out: Response,
                         requests: seq<seq<Message>>, ghost hs: Histories, ghost cs: States)
      returns (out': Response, requests': seq<seq<Message>>, failed: bool)
      requires Valid() && calls < 3 && calls < |rounds| && CutOff(out)
      requires Underway(cfg.continuePrompt, resp, Replies(rounds), calls, out, requests)
      requires Kept(hs, cs, histories, compaction, key, calls > 0,
                    AfterRounds(cfg.continuePrompt, HistoryIn(hs, key), resp, rounds, calls))
      modifies this
      ensures Valid()
      ensures Kept(hs, cs, histories, compaction, key, true,
                   AfterRounds(cfg.continuePrompt, HistoryIn(hs, key), resp, rounds, calls + 1))
      ensures Asked(cfg.continuePrompt, resp, Replies(rounds), calls + 1, requests')
      ensures if failed then Continued(resp, Replies(rounds), calls + 1, calls, out')
              else Underway(cfg.continuePrompt, resp, Replies(rounds), calls + 1, out', requests')
    {
      var round := rounds[calls];
      ghost var (hs1, cs1) := (histories, compaction);
      var request := ContinueOnce(key, out.content, round);
      RoundKept(hs, cs, hs1, cs1, histories, compaction, key, cfg.continuePrompt, resp, rounds, calls, out.content);
      UnderwayGoesOn(cfg.continuePrompt, resp, Replies(rounds), calls, out, requests, request);
      requests', failed := requests + [request], !round.reply.ok;
      out' := if failed then Failed(out, round.reply.errorType) else Merge(out, round.reply);
    }

    /** The continuation loop: at most three extra calls, the segments merged, and of the
        slot's history what the pushes, pops and arrivals leave. */
    method ContinueUntilDone(key: string, resp: Response, rounds: seq<Round>)
      returns (out: Response, calls: nat, good: nat, requests: seq<seq<Message>>)
      requires Valid() && |rounds| == MAX_CONTINUES
      modifies this
      ensures Valid() && calls <= |rounds|
      ensures Kept(old(histories), old(compaction), histories, compaction, key, calls > 0,
                   AfterRounds(cfg.continuePrompt, old(History(key)), resp, rounds, calls))
      ensures Continued(resp, Replies(rounds), calls, good, out)
      ensures Asked(cfg.continuePrompt, resp, Replies(rounds), calls, requests)
    {
      out, calls, good, requests := resp, 0, 0, [];
      ghost var (hs, cs) := (histories, compaction);
      while CutOff(out) && calls < MAX_CONTINUES
        invariant Valid() && good == calls <= MAX_CONTINUES
        invariant Underway(cfg.continuePrompt, resp, Replies(rounds), good, out, requests)
        invariant Kept(hs, cs, histories, compaction, key, calls > 0,
                       AfterRounds(cfg.continuePrompt, HistoryIn(hs, key), resp, rounds, calls))
        decreases MAX_CONTINUES - calls
      {
        var failed;
        out, requests, failed := ContinueRound(key, resp, rounds, calls, out, requests, hs, cs);
        calls := calls + 1;
        if failed {
          return;
        }
        good := good + 1;
      }
      UnderwayEnds(cfg.continuePrompt, resp, Replies(rounds), good, out, requests);
    }

    /** A turn: the reply that came back, merged with its continuations, is committed as one
        assistant message, even when a continuation failed. */
    method SendContinue(key: string, first: Round, rounds: seq<Round>)
      returns (out: Response, calls: nat, good: nat)
      requires Valid() && |rounds| == MAX_CONTINUES
      modifies this
      ensures Valid() && calls <= |rounds| && Continued(first.reply, Replies(rounds), calls, good, out)
      ensures Slotted(old(histories), old(compaction), histories, compaction, key,
                      AfterTurn(cfg.continuePrompt, old(History(key)), first, rounds, calls, out))
    {
      var compacted := MaybeCompact(key, false, first.contextPct, first.summary, Appends(first.arrived));
      AppendedIsSlotted(cfg, old(histories), old(compaction), histories, compaction, key, first.arrived, first.contextPct,
                        first.summary, compacted);
      ghost var h := old(History(key)) + first.arrived;
      SlottedThenSet(old(histories), old(compaction), histories, compaction, key, h, h + first.during);
      AppendAll(key, first.during);
      out, calls, good := first.reply, 0, 0;
      if out.ok {
        lastInputTokens := lastInputTokens[key := out.inputTokens];
        ghost var (hs, cs) := (histories, compaction);
        var requests;
        out, calls, good, requests := ContinueUntilDone(key, out, rounds);
        ghost var after := AfterRounds(cfg.continuePrompt, h + first.during, first.reply, rounds, calls);
        SlottedThenKept(old(histories), old(compaction), hs, cs, histories, compaction, key, calls > 0,
                        h + first.during, after);
        SlottedThenSet(old(histories), old(compaction), histories, compaction, key, after,
                       after + [Message("assistant", out.content)]);
        CommitMessage(key, Message("assistant", out.content));
      } else {
        NothingToContinue(first.reply, Replies(rounds));
      }
    }

    method AppendAll(key: string, ms: seq<Message>)
      requires Valid()
      modifies this`histories
      ensures Valid() && histories == old(histories)[key := old(History(key)) + ms]
    {
      HistoryGrowthSane(histories, compaction, key, History(key) + ms);
      histories := histories[key := History(key) + ms];
    }

    /** A user turn: the message, then the reply, both in this slot only. A failed first call
        leaves the message in place. */
    method Send(key: string, parts: seq<Part>, first: Round, rounds: seq<Round>)
      returns (out: Response, calls: nat, good: nat)
      requires Valid() && |rounds| == MAX_CONTINUES
      modifies this
      ensures Valid() && calls <= |rounds| && Continued(first.reply, Replies(rounds), calls, good, out)
      ensures Slotted(old(histories), old(compaction), histories, compaction, key,
                      AfterTurn(cfg.continuePrompt, old(History(key)) + [UserMessage(parts)], first, rounds, calls, out))
    {
      CommitUserParts(key, parts);
      ghost var (hs, h) := (histories, History(key));
      out, calls, good := SendContinue(key, first, rounds);
      GrownThenSlotted(old(histories), hs, old(compaction), histories, compaction, key, h,
                       AfterTurn(cfg.continuePrompt, h, first, rounds, calls, out));
    }
  }
}
