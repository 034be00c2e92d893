/** Relocating a persisted summary onto a rehydrated history: the boundary message is found
    again by row id, or by role and content when that is unambiguous. */
module CompactionBoundary {
  import opened Common
  import opened Compaction

  /** The stored text is the row's text, or ends with it: a preamble may still be in front. */
  predicate ContentMatches(row: string, boundary: string) {
    var d := BoundaryContent(row);
    d == boundary || (|boundary| > |d| && boundary[|boundary| - |d|..] == d)
  }

  predicate EndsWith(s: string, tail: string) {
    |tail| <= |s| && s[|s| - |tail|..] == tail
  }

  /** A row matches if and only if the stored text ends with the row's first 4096 characters. */
  lemma MatchesExactly(row: string, boundary: string)
    ensures ContentMatches(row, boundary) <==> EndsWith(boundary, row[..if |row| <= 4096 then |row| else 4096])
  {
    var d := BoundaryContent(row);
    assert row[..|row|] == row && d == row[..if |row| <= 4096 then |row| else 4096];
    assert boundary[0..] == boundary;
  }

  predicate MatchesAt(roles: seq<string>, contents: seq<string>, s: CompactionState, i: nat)
    requires |roles| == |contents|
  {
    i < |roles| && roles[i] == s.boundaryRole && ContentMatches(contents[i], s.boundaryContent)
  }

  function Roles(h: seq<Message>): (r: seq<string>)
    ensures |r| == |h| && forall i :: 0 <= i < |h| ==> r[i] == h[i].role
  {
    seq(|h|, i requires 0 <= i < |h| => h[i].role)
  }

  function Contents(h: seq<Message>): (r: seq<string>)
    ensures |r| == |h| && forall i :: 0 <= i < |h| ==> r[i] == h[i].content
  {
    seq(|h|, i requires 0 <= i < |h| => h[i].content)
  }

  ghost predicate OnlyMatch(roles: seq<string>, contents: seq<string>, s: CompactionState, i: nat)
    requires |roles| == |contents|
  {
    MatchesAt(roles, contents, s, i) && forall k: nat :: MatchesAt(roles, contents, s, k) ==> k == i
  }

  predicate NoBoundary(s: CompactionState) {
    s.boundaryRole == "" && s.boundaryContent == ""
  }

  predicate ById(h: seq<Message>, s: CompactionState, ids: Option<seq<int>>) {
    ids.Some? && s.boundaryDbId > 0 && |ids.value| == |h|
  }

  /** Row `i` is the first that carries `id`. */
  predicate FirstAt(ids: seq<int>, id: int, i: nat) {
    i < |ids| && ids[i] == id && forall k :: 0 <= k < i ==> ids[k] != id
  }

  /** The lookup's answer: by id the first row with that id, by content the only match. */
  ghost predicate Locates(h: seq<Message>, s: CompactionState, ids: Option<seq<int>>, r: Option<nat>) {
    if ById(h, s, ids) then
      match r
      case None => s.boundaryDbId !in ids.value
      case Some(i) => FirstAt(ids.value, s.boundaryDbId, i)
    else if NoBoundary(s) then r == None
    else
      match r
      case None => forall i: nat :: !OnlyMatch(Roles(h), Contents(h), s, i)
      case Some(i) => OnlyMatch(Roles(h), Contents(h), s, i)
  }

  lemma LocatesUnique(h: seq<Message>, s: CompactionState, ids: Option<seq<int>>, a: Option<nat>, b: Option<nat>)
    requires Locates(h, s, ids, a) && Locates(h, s, ids, b)
    ensures a == b
  {
  }

  method FindCompactionBoundary(h: seq<Message>, s: CompactionState, ids: Option<seq<int>>) returns (r: Option<nat>)
    ensures Locates(h, s, ids, r)
  {
    if ids.Some? && s.boundaryDbId > 0 && |ids.value| == |h| {
      for i := 0 to |ids.value|
        invariant forall k :: 0 <= k < i ==> ids.value[k] != s.boundaryDbId
      {
        if ids.value[i] == s.boundaryDbId {
          return Some(i);
        }
      }
      return None;
    }
    if s.boundaryRole == "" && s.boundaryContent == "" {
      return None;
    }
    ghost var (roles, contents) := (Roles(h), Contents(h));
    var found: Option<nat> := None;
    for i := 0 to |h|
      invariant found.Some? ==> found.value < i && MatchesAt(roles, contents, s, found.value)
      invariant forall k: nat :: k < i && MatchesAt(roles, contents, s, k) ==> found == Some(k)
    {
      if h[i].role != s.boundaryRole || !ContentMatches(h[i].content, s.boundaryContent) {
        continue;
      }
      assert MatchesAt(roles, contents, s, i);
      if found.Some? {
        assert found.value != i;
        return None;
      }
      found := Some(i);
    }
    return found;
  }

  datatype BoundaryResolve = Nothing | Unique(id: int) | Ambiguous

  ghost predicate Resolves(roles: seq<string>, contents: seq<string>, ids: seq<int>, s: CompactionState, r: BoundaryResolve) {
    if |roles| != |contents| || |roles| != |ids| || NoBoundary(s) then r == Nothing
    else
      match r
      case Nothing => forall i: nat :: !MatchesAt(roles, contents, s, i)
      case Unique(id) => exists i: nat :: OnlyMatch(roles, contents, s, i) && ids[i] == id
      case Ambiguous => exists i: nat, k: nat :: i != k && MatchesAt(roles, contents, s, i) && MatchesAt(roles, contents, s, k)
  }

  method ResolveBoundaryDbId(roles: seq<string>, contents: seq<string>, ids: seq<int>, s: CompactionState)
    returns (r: BoundaryResolve)
    ensures Resolves(roles, contents, ids, s, r)
  {
    if |roles| != |contents| || |roles| != |ids| {
      return Nothing;
    }
    if s.boundaryRole == "" && s.boundaryContent == "" {
      return Nothing;
    }
    var matches: seq<nat> := [];
    for i := 0 to |roles|
      invariant forall k :: 0 <= k < |matches| ==> matches[k] < i && MatchesAt(roles, contents, s, matches[k])
      invariant forall k: nat :: k < i && MatchesAt(roles, contents, s, k) ==> k in matches
      invariant forall a, b :: 0 <= a < b < |matches| ==> matches[a] < matches[b]
    {
      if roles[i] == s.boundaryRole && ContentMatches(contents[i], s.boundaryContent) {
        matches := matches + [i];
      }
    }
    if matches == [] {
      return Nothing;
    }
    if |matches| != 1 {
      assert matches[0] != matches[1];
      return Ambiguous;
    }
    assert OnlyMatch(roles, contents, s, matches[0]);
    r := Unique(ids[matches[0]]);
  }

  /** The three answers exclude each other, so the status alone says how many rows match. */
  lemma ResolvesExclusive(roles: seq<string>, contents: seq<string>, ids: seq<int>, s: CompactionState,
                          a: BoundaryResolve, b: BoundaryResolve)
    requires Resolves(roles, contents, ids, s, a) && Resolves(roles, contents, ids, s, b)
    ensures a == b
  {
  }

  /** Feeding a unique resolution back as the boundary's row id makes the id lookup land
      where the content lookup does, exactly when no earlier row carries that id; ids that
      are not positive switch the id lookup off and are harmless. */
  lemma ResolvedIdLocatesSame(h: seq<Message>, ids: seq<int>, s: CompactionState, id: int,
                              byContent: Option<nat>, byId: Option<nat>)
    requires Resolves(Roles(h), Contents(h), ids, s, Unique(id))
    requires Locates(h, s, None, byContent)
    requires Locates(h, s.(boundaryDbId := id), Some(ids), byId)
    ensures byContent.Some? && byContent.value < |h| == |ids| && ids[byContent.value] == id
    ensures byId == byContent <==> id <= 0 || FirstAt(ids, id, byContent.value)
  {
    var i: nat :| OnlyMatch(Roles(h), Contents(h), s, i) && ids[i] == id;
    assert byContent == Some(i) by {
      assert OnlyMatch(Roles(h), Contents(h), s, i);
    }
    var s' := s.(boundaryDbId := id);
    if id <= 0 {
      assert forall k: nat :: MatchesAt(Roles(h), Contents(h), s', k) <==> MatchesAt(Roles(h), Contents(h), s, k);
      assert OnlyMatch(Roles(h), Contents(h), s', i);
    } else if FirstAt(ids, id, i) {
      LocatesUnique(h, s', Some(ids), Some(i), byId);
    }
  }

  /** In particular with distinct row ids. */
  lemma DistinctIdsLocateSame(h: seq<Message>, ids: seq<int>, s: CompactionState, id: int,
                              byContent: Option<nat>, byId: Option<nat>)
    requires Resolves(Roles(h), Contents(h), ids, s, Unique(id))
    requires forall a, b :: 0 <= a < b < |ids| ==> ids[a] != ids[b]
    requires Locates(h, s, None, byContent)
    requires Locates(h, s.(boundaryDbId := id), Some(ids), byId)
    ensures byContent.Some? && byId == byContent
  {
    ResolvedIdLocatesSame(h, ids, s, id, byContent, byId);
  }

  /** The remapped state: the boundary's new place, or zero; never past the history. */
  ghost predicate Remaps(s: CompactionState, h: seq<Message>, ids: Option<seq<int>>, s': CompactionState) {
    if s.summary == "" then s' == EMPTY
    else
      exists r :: Locates(h, s, ids, r) && s' == s.(coveredUntil := if r.Some? then r.value else 0)
  }

  method RemapCompactionOntoHistory(s: CompactionState, h: seq<Message>, ids: Option<seq<int>>)
    returns (s': CompactionState)
    ensures Remaps(s, h, ids, s')
    ensures Sane(s', |h|) && (s'.coveredUntil > 0 ==> s'.coveredUntil < |h|)
  {
    if s.summary == "" {
      return EMPTY;
    }
    var boundary := FindCompactionBoundary(h, s, ids);
    if boundary == None {
      s' := s.(coveredUntil := 0);
    } else {
      s' := s.(coveredUntil := boundary.value);
    }
    s' := Sanitize(s', |h|);
  }

  /** Remapping onto the very history the summary was cut from restores the cut, by row id
      whatever the contents, as long as the boundary row is the first with its id. */
  lemma RemapRestoresCut(s: CompactionState, h: seq<Message>, ids: seq<int>, s': CompactionState)
    requires s.summary != "" && s.boundaryDbId > 0 && |ids| == |h|
    requires FirstAt(ids, s.boundaryDbId, s.coveredUntil)
    requires Remaps(s, h, Some(ids), s')
    ensures s' == s
  {
    var r :| Locates(h, s, Some(ids), r) && s' == s.(coveredUntil := if r.Some? then r.value else 0);
    LocatesUnique(h, s, Some(ids), r, Some(s.coveredUntil));
  }

  /** With or without row ids, remapping onto the history a summary was just cut from, before
      the boundary's row is known, restores the cut exactly when no other message of that role
      matches the stored text, and the boundary message itself does; it always does if it
      carried no preamble. */
  lemma ContentRemapRestoresCut(model: string, h: seq<Message>, keep: nat, strip: string -> string,
                                answer: string, before: CompactionState, a: Attempt, ids: Option<seq<int>>,
                                s': CompactionState)
    requires Compacts(model, h, keep, strip, answer, before, a) && a.ok
    requires Remaps(a.state, h, ids, s')
    ensures
      var cut := a.state.coveredUntil;
      && cut < |h|
      && (s' == a.state <==>
            && ContentMatches(h[cut].content, a.state.boundaryContent)
            && forall k :: 0 <= k < |h| && k != cut && h[k].role == h[cut].role ==>
                 !ContentMatches(h[k].content, a.state.boundaryContent))
      && (strip(h[cut].content) == h[cut].content ==> ContentMatches(h[cut].content, a.state.boundaryContent))
  {
    var (s, cut) := (a.state, a.state.coveredUntil);
    var r :| Locates(h, s, ids, r) && s' == s.(coveredUntil := if r.Some? then r.value else 0);
    if OnlyMatch(Roles(h), Contents(h), s, cut) {
      LocatesUnique(h, s, ids, r, Some(cut));
      forall k | 0 <= k < |h| && k != cut && h[k].role == h[cut].role
        ensures !ContentMatches(h[k].content, s.boundaryContent)
      {
        assert !MatchesAt(Roles(h), Contents(h), s, k);
      }
    }
  }
}
