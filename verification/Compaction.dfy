/** Context compaction on one conversation: where to cut, what the model sees, and one
    compaction attempt. The summarizer is an answer that may be empty, which is failure. */
module Compaction {
  datatype Part = TextPart(text: string) | ImagePart(mediaType: string, data: string)

  /** Only a message that is not one plain text carries its parts. */
  datatype Message = Message(role: string, content: string, parts: seq<Part> := [])

  datatype CompactionState = CompactionState(
    summary: string,
    coveredUntil: nat,
    generation: int,
    boundaryRole: string,
    boundaryContent: string,
    boundaryDbId: int)

  const EMPTY: CompactionState := CompactionState("", 0, 0, "", "", 0)

  const BOUNDARY_MAX: nat := 4096

  // ---- the cut ----

  const TOOL_RESULTS: string := "[TOOL RESULTS]"

  predicate IsToolResults(m: Message) {
    m.role == "user" && |m.content| >= |TOOL_RESULTS| && m.content[..|TOOL_RESULTS|] == TOOL_RESULTS
  }

  predicate GoodStart(h: seq<Message>, i: nat) {
    i < |h| && h[i].role == "user" && !IsToolResults(h[i])
  }

  /** The cut is zero, or the greatest real user turn that leaves at least `keep` messages. */
  predicate IsCut(h: seq<Message>, keep: nat, cut: nat) {
    if keep == 0 || |h| <= keep then cut == 0
    else
      && cut <= |h| - keep
      && (cut > 0 ==> GoodStart(h, cut))
      && (forall i :: cut < i <= |h| - keep ==> !GoodStart(h, i))
  }

  /** A user's own turn, told from the frames that carry tool results. */
  predicate RealTurn(m: Message) {
    m.role == "user" && !("[TOOL RESULTS]" <= m.content)
  }

  /** The kept tail starts on a real user turn and holds at least the window; it is the
      shortest such tail. Without one, or without a window, nothing is cut. */
  lemma CutExactly(h: seq<Message>, keep: nat, cut: nat)
    requires IsCut(h, keep, cut)
    ensures cut > 0 ==> 0 < keep <= |h| - cut && RealTurn(h[cut])
    ensures forall i :: cut < i < |h| && 0 < keep <= |h| - i ==> !RealTurn(h[i])
  {
    forall i | 0 <= i < |h| ensures GoodStart(h, i) <==> RealTurn(h[i]) {
      var (c, t) := (h[i].content, TOOL_RESULTS);
      assert |c| >= |t| && c[..|t|] == t <==> t <= c;
    }
  }

  lemma CutUnique(h: seq<Message>, keep: nat, a: nat, b: nat)
    requires IsCut(h, keep, a) && IsCut(h, keep, b)
    ensures a == b
  {
  }

  method ComputeCutIndex(h: seq<Message>, keep: nat) returns (cut: nat)
    ensures IsCut(h, keep, cut)
  {
    if keep == 0 || |h| <= keep {
      return 0;
    }
    cut := |h| - keep;
    if GoodStart(h, cut) {
      return;
    }
    var i := cut;
    while i > 0
      invariant 0 <= i <= cut
      invariant forall k :: i <= k <= cut ==> !GoodStart(h, k)
    {
      i := i - 1;
      if GoodStart(h, i) {
        return i;
      }
    }
    return 0;
  }

  // ---- the model-facing view ----

  predicate Sane(s: CompactionState, len: nat) {
    s.coveredUntil <= len && (s.summary == "" ==> s.coveredUntil == 0)
  }

  function Sanitize(s: CompactionState, len: nat): CompactionState {
    if s.coveredUntil > len then EMPTY
    else if s.summary == "" && s.coveredUntil > 0 then EMPTY
    else s
  }

  /** Sanitizing changes exactly the states that would lose history. */
  lemma SanitizeExact(s: CompactionState, len: nat)
    ensures Sane(Sanitize(s, len), len)
    ensures Sanitize(s, len) == s <==> Sane(s, len)
  {
  }

  function Envelope(summary: string): seq<Message> {
    [Message("user", "[CONVERSATION SUMMARY]\n" + summary + "\n[END SUMMARY]"),
     Message("assistant", "Understood \U{2014} continuing from the summary.")]
  }

  /** Either the whole history, or a non-empty summary's envelope and the exact tail. */
  ghost predicate IsView(h: seq<Message>, s: CompactionState, view: seq<Message>) {
    if !Sane(s, |h|) || s.summary == "" then view == h
    else view == Envelope(s.summary) + h[s.coveredUntil..]
  }

  method BuildModelMessages(h: seq<Message>, state: CompactionState) returns (out: seq<Message>)
    ensures IsView(h, state, out)
  {
    var s := Sanitize(state, |h|);
    out := [];
    if s.summary != "" {
      out := Envelope(s.summary);
    }
    ghost var front := out;
    var start := if s.coveredUntil < |h| then s.coveredUntil else |h|;
    for i := start to |h|
      invariant out == front + h[start..i]
    {
      out := out + [h[i]];
    }
    assert h[start..|h|] == h[start..];
    assert h[0..] == h && [] + h == h;
  }

  const SUMMARY_OPENS: string := "[CONVERSATION SUMMARY]\n"
  const SUMMARY_CLOSES: string := "\n[END SUMMARY]"

  /** A user message that holds the whole summary between the two markers. */
  predicate Carries(m: Message, summary: string) {
    var (i, j) := (|SUMMARY_OPENS|, |SUMMARY_OPENS| + |summary|);
    && m.role == "user" && |m.content| == j + |SUMMARY_CLOSES|
    && m.content[..i] == SUMMARY_OPENS && m.content[i..j] == summary && m.content[j..] == SUMMARY_CLOSES
  }

  lemma EnvelopeCarries(summary: string)
    ensures Carries(Envelope(summary)[0], summary)
  {
    var (m, i, j) := (Envelope(summary)[0], |SUMMARY_OPENS|, |SUMMARY_OPENS| + |summary|);
    assert m.content == SUMMARY_OPENS + summary + SUMMARY_CLOSES;
    assert m.content[i..j] == summary;
  }

  lemma CarriesOne(m: Message, a: string, b: string)
    requires Carries(m, a) && Carries(m, b)
    ensures a == b
  {
  }

  /** The view of a summarized history opens with the summary itself, in full, and an
      acknowledgement, and goes on with what is not covered. */
  predicate Opens(view: seq<Message>, summary: string, rest: seq<Message>) {
    |view| >= 2 && Carries(view[0], summary) && view[1].role == "assistant" && view[2..] == rest
  }

  lemma ViewCarriesSummary(h: seq<Message>, s: CompactionState, view: seq<Message>)
    requires IsView(h, s, view) && Sane(s, |h|) && s.summary != ""
    ensures Opens(view, s.summary, h[s.coveredUntil..])
  {
    EnvelopeCarries(s.summary);
  }

  /** Different summaries at the same cut are shown differently. */
  lemma ViewsTellSummariesApart(h: seq<Message>, s: CompactionState, s': CompactionState,
                                view: seq<Message>, view': seq<Message>)
    requires IsView(h, s, view) && IsView(h, s', view') && Sane(s, |h|) && Sane(s', |h|)
    requires s.coveredUntil == s'.coveredUntil && s.summary != s'.summary
    ensures view != view'
  {
    if s.summary != "" && s'.summary != "" {
      ViewCarriesSummary(h, s, view);
      ViewCarriesSummary(h, s', view');
      if view == view' { CarriesOne(view[0], s.summary, s'.summary); }
    }
  }

  predicate Alternating(ms: seq<Message>) {
    forall i :: 0 <= i < |ms| ==> ms[i].role == if i % 2 == 0 then "user" else "assistant"
  }

  /** Turns keep alternating in the view when the kept tail starts on a user turn. */
  lemma ViewAlternates(h: seq<Message>, s: CompactionState, view: seq<Message>)
    requires Alternating(h) && IsView(h, s, view)
    requires s.coveredUntil < |h| ==> h[s.coveredUntil].role == "user"
    ensures Alternating(view)
  {
    if Sane(s, |h|) && s.summary != "" {
      forall i | 0 <= i < |view| ensures view[i].role == if i % 2 == 0 then "user" else "assistant" {
        if i >= 2 { assert view[i] == h[s.coveredUntil + (i - 2)]; }
      }
    }
  }

  // ---- one attempt ----

  function BoundaryContent(content: string): string {
    if |content| <= BOUNDARY_MAX then content else content[..BOUNDARY_MAX]
  }

  /** What an attempt hands to the summarizer, if it gets that far: the summary so far and the
      messages to add to it. */
  datatype Attempt = Attempt(ok: bool, state: CompactionState, asked: bool, prior: string, slice: seq<Message>)

  /** `strip` removes orchestrator preambles from a user message; `answer` is what the
      summarizer returns for the slice, empty for any failure. */
  ghost predicate Compacts(model: string, h: seq<Message>, keep: nat, strip: string -> string, answer: string,
                           before: CompactionState, a: Attempt)
  {
    var s := Sanitize(before, |h|);
    if (exists cut: nat :: IsCut(h, keep, cut) && cut > s.coveredUntil) && model != "" && answer != "" then
      && a.ok && a.asked
      && a.state.summary == answer
      && IsCut(h, keep, a.state.coveredUntil) && s.coveredUntil < a.state.coveredUntil < |h|
      && a.prior == s.summary && a.slice == h[s.coveredUntil..a.state.coveredUntil]
      && a.state.generation == s.generation + 1
      && a.state.boundaryRole == h[a.state.coveredUntil].role
      && a.state.boundaryContent == BoundaryContent(strip(h[a.state.coveredUntil].content))
      && a.state.boundaryDbId == 0
    else
      !a.ok && a.state == s
  }

  method RunCompaction(model: string, h: seq<Message>, state: CompactionState, keep: nat,
                       strip: string -> string, answer: string) returns (a: Attempt)
    ensures Compacts(model, h, keep, strip, answer, state, a)
    ensures a.ok ==> a.asked && a.slice != []
  {
    var s := Sanitize(state, |h|);
    var cut := ComputeCutIndex(h, keep);
    forall c: nat | IsCut(h, keep, c) ensures c == cut { CutUnique(h, keep, c, cut); }
    if cut == 0 || cut <= s.coveredUntil {
      return Attempt(false, s, false, "", []);
    }
    if model == "" {
      return Attempt(false, s, false, "", []);
    }
    var slice := h[s.coveredUntil..cut];
    if answer == "" {
      return Attempt(false, s, true, s.summary, slice);
    }
    a := Attempt(true,
                 CompactionState(answer, cut, s.generation + 1, h[cut].role,
                                 BoundaryContent(strip(h[cut].content)), 0),
                 true, s.summary, slice);
  }

  /** A failed attempt leaves the state untouched exactly when the state was sane; the
      header promises it for every state. */
  lemma FailureLeavesStateIffSane(model: string, h: seq<Message>, keep: nat, strip: string -> string,
                                  answer: string, before: CompactionState, a: Attempt)
    requires Compacts(model, h, keep, strip, answer, before, a) && !a.ok
    ensures a.state == before <==> Sane(before, |h|)
  {
    SanitizeExact(before, |h|);
  }

  /** Some failing input: without a model, a state that covers a message but has no summary
      comes back reset. */
  lemma FailureCanResetState(h: seq<Message>, keep: nat, strip: string -> string, answer: string)
    ensures
      var (before, a) := (EMPTY.(coveredUntil := 1), Attempt(false, EMPTY, false, "", []));
      Compacts("", h, keep, strip, answer, before, a) && a.state != before
  {
    SanitizeExact(EMPTY.(coveredUntil := 1), |h|);
  }

  /** A successful attempt moves the cut forward and the new view starts on a user turn. */
  lemma SuccessAdvances(model: string, h: seq<Message>, keep: nat, strip: string -> string,
                        answer: string, before: CompactionState, a: Attempt, view: seq<Message>)
    requires Compacts(model, h, keep, strip, answer, before, a) && a.ok
    requires IsView(h, a.state, view)
    ensures a.state.coveredUntil > Sanitize(before, |h|).coveredUntil && Sane(a.state, |h|)
    ensures GoodStart(h, a.state.coveredUntil)
    ensures Alternating(h) ==> Alternating(view)
    ensures |view| >= 2 + keep && view[2..] == h[a.state.coveredUntil..]
  {
    if Alternating(h) { ViewAlternates(h, a.state, view); }
  }
}
