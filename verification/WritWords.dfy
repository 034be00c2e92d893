/** Which lines mean something to the parser, told by the words they begin with and not by
    the parser's own tests. */
module WritWords {
  import opened WritParser

  /** Words that must be followed by a blank or the end of the line to end a look-ahead. */
  const WHOLE_WORDS: seq<string> := ["agent", "pane", "read", "search", "fetch", "browse", "exec", "mcp"]

  /** Words that end a look-ahead whatever follows them. */
  const OPEN_WORDS: seq<string> :=
    ["todo", "parallel", "write", "list", "map", "mem", "a2a", "schedule", "lesson", "advise", "help"]

  const BLOCK_WORDS: seq<string> := ["todo", "parallel", "write", "mem", "lesson"]

  /** The line is a slash and the word, alone or with a blank behind it. */
  predicate WordLine(l: string, w: string) {
    l == "/" + w || Starts(l, "/" + w + " ")
  }

  /** The line begins with a slash and a command word, which ends there. */
  predicate CommandLine(l: string) {
    || (exists i :: 0 <= i < |WHOLE_WORDS| && WordLine(l, WHOLE_WORDS[i]))
    || (exists i :: 0 <= i < |OPEN_WORDS| && WordLine(l, OPEN_WORDS[i]))
  }

  /** The line reads as another writ, or as the end of some block. */
  predicate WritLike(l: string) {
    || (exists i :: 0 <= i < |WHOLE_WORDS| && WordLine(l, WHOLE_WORDS[i]))
    || (exists i :: 0 <= i < |OPEN_WORDS| && Starts(l, "/" + OPEN_WORDS[i]))
    || (exists i :: 0 <= i < |BLOCK_WORDS| && Starts(l, "/end" + BLOCK_WORDS[i]))
  }

  /** The line after a head that looks for a body which says that there is none. */
  predicate EndsLookAhead(l: string) {
    l == "" || WritLike(l)
  }

  // ---- what ends a look-ahead ----

  lemma WholeTable()
    ensures "/" + WHOLE_WORDS[0] + " " == WRIT_PREFIXES[2] && "/" + WHOLE_WORDS[1] + " " == WRIT_PREFIXES[5]
    ensures "/" + WHOLE_WORDS[2] + " " == WRIT_PREFIXES[8] && "/" + WHOLE_WORDS[3] + " " == WRIT_PREFIXES[11]
    ensures "/" + WHOLE_WORDS[4] + " " == WRIT_PREFIXES[12] && "/" + WHOLE_WORDS[5] + " " == WRIT_PREFIXES[13]
    ensures "/" + WHOLE_WORDS[6] + " " == WRIT_PREFIXES[14] && "/" + WHOLE_WORDS[7] + " " == WRIT_PREFIXES[17]
  {
  }

  lemma OpenTable()
    ensures "/" + OPEN_WORDS[0] == WRIT_PREFIXES[0] && "/" + OPEN_WORDS[1] == WRIT_PREFIXES[3]
    ensures "/" + OPEN_WORDS[2] == WRIT_PREFIXES[6] && "/" + OPEN_WORDS[3] == WRIT_PREFIXES[9]
    ensures "/" + OPEN_WORDS[4] == WRIT_PREFIXES[10] && "/" + OPEN_WORDS[5] == WRIT_PREFIXES[15]
    ensures "/" + OPEN_WORDS[6] == WRIT_PREFIXES[18] && "/" + OPEN_WORDS[7] == WRIT_PREFIXES[19]
    ensures "/" + OPEN_WORDS[8] == WRIT_PREFIXES[20] && "/" + OPEN_WORDS[9] == WRIT_PREFIXES[22]
    ensures "/" + OPEN_WORDS[10] == WRIT_PREFIXES[23]
  {
  }

  lemma EndTable()
    ensures "/end" + BLOCK_WORDS[0] == WRIT_PREFIXES[1] && "/end" + BLOCK_WORDS[1] == WRIT_PREFIXES[4]
    ensures "/end" + BLOCK_WORDS[2] == WRIT_PREFIXES[7] && "/end" + BLOCK_WORDS[3] == WRIT_PREFIXES[16]
    ensures "/end" + BLOCK_WORDS[4] == WRIT_PREFIXES[21]
  {
  }

  // Where the table of prefixes has each of them.
  const WHOLE_AT: seq<nat> := [2, 5, 8, 11, 12, 13, 14, 17]
  const OPEN_AT: seq<nat> := [0, 3, 6, 9, 10, 15, 18, 19, 20, 22, 23]
  const END_AT: seq<nat> := [1, 4, 7, 16, 21]

  lemma WholeMatches(l: string, i: nat)
    requires i < |WHOLE_WORDS|
    ensures MatchesWrit(l, WRIT_PREFIXES[WHOLE_AT[i]]) <==> WordLine(l, WHOLE_WORDS[i])
  {
    WholeTable();
    var (p, w) := (WRIT_PREFIXES[WHOLE_AT[i]], WHOLE_WORDS[i]);
    assert p == "/" + w + " " && p[..|p| - 1] == "/" + w;
  }

  lemma OpenMatches(l: string, i: nat)
    requires i < |OPEN_WORDS|
    ensures MatchesWrit(l, WRIT_PREFIXES[OPEN_AT[i]]) <==> Starts(l, "/" + OPEN_WORDS[i])
  {
    OpenTable();
    var p := WRIT_PREFIXES[OPEN_AT[i]];
    assert p == "/" + OPEN_WORDS[i] && p[|p| - 1] != ' ';
  }

  lemma EndMatches(l: string, i: nat)
    requires i < |BLOCK_WORDS|
    ensures MatchesWrit(l, WRIT_PREFIXES[END_AT[i]]) <==> Starts(l, "/end" + BLOCK_WORDS[i])
  {
    EndTable();
    var p := WRIT_PREFIXES[END_AT[i]];
    assert p == "/end" + BLOCK_WORDS[i] && p[|p| - 1] != ' ';
  }

  lemma TableIsWords(k: nat)
    requires k < |WRIT_PREFIXES|
    ensures
      || (exists i :: 0 <= i < |WHOLE_WORDS| && WHOLE_AT[i] == k)
      || (exists i :: 0 <= i < |OPEN_WORDS| && OPEN_AT[i] == k)
      || (exists i :: 0 <= i < |BLOCK_WORDS| && END_AT[i] == k)
  {
    assert k in WHOLE_AT || k in OPEN_AT || k in END_AT;
  }

  /** A look-ahead is ended by a blank line and by the lines that begin with a slash and a
      command word, or a slash, "end" and a block word; by nothing else. */
  lemma LookAheadExactly(l: string)
    ensures Bails(l) <==> EndsLookAhead(l)
  {
    if StartsWithWrit(l) {
      var k: nat :| k < |WRIT_PREFIXES| && MatchesWrit(l, WRIT_PREFIXES[k]);
      MatchIsWritLike(l, k);
    }
    if WritLike(l) { WritLikeMatches(l); }
  }

  lemma MatchIsWritLike(l: string, k: nat)
    requires k < |WRIT_PREFIXES| && MatchesWrit(l, WRIT_PREFIXES[k])
    ensures WritLike(l)
  {
    TableIsWords(k);
    if i :| 0 <= i < |WHOLE_WORDS| && WHOLE_AT[i] == k {
      WholeMatches(l, i);
    } else if i :| 0 <= i < |OPEN_WORDS| && OPEN_AT[i] == k {
      OpenMatches(l, i);
    } else {
      var i :| 0 <= i < |BLOCK_WORDS| && END_AT[i] == k;
      EndMatches(l, i);
    }
  }

  lemma WritLikeMatches(l: string)
    requires WritLike(l)
    ensures StartsWithWrit(l)
  {
    if i :| 0 <= i < |WHOLE_WORDS| && WordLine(l, WHOLE_WORDS[i]) {
      WholeMatches(l, i);
    } else if i :| 0 <= i < |OPEN_WORDS| && Starts(l, "/" + OPEN_WORDS[i]) {
      OpenMatches(l, i);
    } else {
      var i :| 0 <= i < |BLOCK_WORDS| && Starts(l, "/end" + BLOCK_WORDS[i]);
      EndMatches(l, i);
    }
  }

  lemma CommandLineIsWritLike(l: string)
    requires CommandLine(l)
    ensures WritLike(l)
  {
    if i :| 0 <= i < |OPEN_WORDS| && WordLine(l, OPEN_WORDS[i]) { assert Starts(l, "/" + OPEN_WORDS[i]); }
  }

  /** Paths, URLs and text are neither: whatever has no slash in front, or a second character
      that begins no command word. */
  lemma PathsAreText(l: string)
    requires l != "" && l[0] == '/' ==> |l| == 1 || l[1] !in "taepwrlmsfbh"
    ensures !WritLike(l) && !CommandLine(l)
  {
    if CommandLine(l) { CommandLineIsWritLike(l); }
    forall i | 0 <= i < |WHOLE_WORDS| ensures !WordLine(l, WHOLE_WORDS[i]) {
      assert WHOLE_WORDS[i][0] in "taepwrlmsfbh" && ("/" + WHOLE_WORDS[i])[1] == WHOLE_WORDS[i][0];
    }
    forall i | 0 <= i < |OPEN_WORDS| ensures !Starts(l, "/" + OPEN_WORDS[i]) {
      assert OPEN_WORDS[i][0] in "taepwrlmsfbh" && ("/" + OPEN_WORDS[i])[1] == OPEN_WORDS[i][0];
    }
    forall i | 0 <= i < |BLOCK_WORDS| ensures !Starts(l, "/end" + BLOCK_WORDS[i]) {
      assert ("/end" + BLOCK_WORDS[i])[1] == 'e';
    }
  }

  // ---- what is a writ ----

  lemma WholeWord(l: string, i: nat, head: string)
    requires i < |WHOLE_WORDS| && head == "/" + WHOLE_WORDS[i] + " " && Starts(l, head)
    ensures CommandLine(l)
  {
    assert WordLine(l, WHOLE_WORDS[i]);
  }

  lemma OpenWord(l: string, i: nat, head: string)
    requires i < |OPEN_WORDS| && head == "/" + OPEN_WORDS[i] && (l == head || Starts(l, head + " "))
    ensures CommandLine(l)
  {
    assert WordLine(l, OPEN_WORDS[i]);
  }

  lemma WebIsCommand(l: string)
    requires ClassifyWeb(l) != Prose
    ensures CommandLine(l)
  {
    WholeTable();
    OpenTable();
    if Longer(l, "/fetch ") {
      WholeWord(l, 4, "/fetch ");
    } else if Longer(l, "/search ") {
      WholeWord(l, 3, "/search ");
    } else if Longer(l, "/browse ") {
      WholeWord(l, 5, "/browse ");
    } else if Longer(l, "/read ") {
      WholeWord(l, 2, "/read ");
    } else if l == "/list" {
      OpenWord(l, 3, "/list");
    } else if l == "/map" || Longer(l, "/map ") {
      OpenWord(l, 4, "/map");
    } else if Longer(l, "/mcp ") {
      WholeWord(l, 7, "/mcp ");
    } else {
      OpenWord(l, 6, "/a2a");
    }
  }

  lemma RecordHeads(l: string)
    requires ClassifyRecords(l) != Prose
    ensures Starts(l, "/todo ") || Starts(l, "/lesson ") || Starts(l, "/schedule ") || Starts(l, "/mem ")
  {
  }

  lemma RecordIsCommand(l: string)
    requires ClassifyRecords(l) != Prose
    ensures CommandLine(l)
  {
    RecordHeads(l);
    OpenTable();
    if Starts(l, "/todo ") {
      OpenWord(l, 0, "/todo");
    } else if Starts(l, "/lesson ") {
      OpenWord(l, 8, "/lesson");
    } else if Starts(l, "/schedule ") {
      OpenWord(l, 7, "/schedule");
    } else {
      OpenWord(l, 5, "/mem");
    }
  }

  lemma ActionIsCommand(l: string)
    requires ClassifyActions(l) != Prose
    ensures CommandLine(l)
  {
    WholeTable();
    OpenTable();
    if Longer(l, "/agent ") {
      WholeWord(l, 0, "/agent ");
    } else if l == "/parallel" {
      OpenWord(l, 1, "/parallel");
    } else if Longer(l, "/pane ") {
      WholeWord(l, 1, "/pane ");
    } else if Longer(l, "/advise ") {
      OpenWord(l, 9, "/advise");
    } else if Longer(l, "/exec ") {
      WholeWord(l, 6, "/exec ");
    } else if l == "/help" || Starts(l, "/help ") {
      OpenWord(l, 10, "/help");
    } else {
      OpenWord(l, 2, "/write");
    }
  }

  /** Only a slash and a whole command word in front make a line a writ. */
  lemma OnlyCommandLines(l: string)
    requires !CommandLine(l)
    ensures Classify(l) == Prose
  {
    if ClassifyWeb(l) != Prose {
      WebIsCommand(l);
    } else if ClassifyRecords(l) != Prose {
      RecordIsCommand(l);
    } else if ClassifyActions(l) != Prose {
      ActionIsCommand(l);
    }
  }

  // ---- lesson verbs ----

  const LESSON_VERBS: seq<string> := ["list", "search", "delete"]

  /** `v` is a word of its own at `k`, with only blanks before it. */
  predicate WordAt(s: string, k: nat, v: string) {
    && k + |v| <= |s| && s[k..k + |v|] == v
    && (forall j :: 0 <= j < k ==> IsSpace(s[j])) && (k + |v| == |s| || IsSpace(s[k + |v|]))
  }

  /** The arguments begin with one of the verbs. */
  ghost predicate VerbFirst(s: string) {
    exists i, k: nat :: 0 <= i < |LESSON_VERBS| && WordAt(s, k, LESSON_VERBS[i])
  }

  predicate Solidly(v: string) {
    v != "" && forall i :: 0 <= i < |v| ==> !IsSpace(v[i])
  }

  lemma {:induction false} WordIs(s: string, v: string)
    requires |v| <= |s| && s[..|v|] == v && (forall i :: 0 <= i < |v| ==> !IsSpace(v[i]))
    requires |v| == |s| || IsSpace(s[|v|])
    ensures Word(s) == v
  {
    if v != "" {
      assert s[0] == v[0] && s[1..][..|v| - 1] == v[1..];
      WordIs(s[1..], v[1..]);
      assert v == [v[0]] + v[1..];
    }
  }

  lemma {:induction false} FirstTokenIs(s: string, k: nat, v: string)
    requires WordAt(s, k, v) && Solidly(v)
    ensures FirstToken(s) == v
  {
    if k == 0 {
      assert s[0] == v[0];
      WordIs(s, v);
    } else {
      assert IsSpace(s[0]) && s[1..][k - 1..k - 1 + |v|] == s[k..k + |v|];
      FirstTokenIs(s[1..], k - 1, v);
    }
  }

  lemma {:induction false} WordEnds(s: string)
    ensures
      var v := Word(s);
      && |v| <= |s| && s[..|v|] == v && (|v| == |s| || IsSpace(s[|v|]))
  {
    if s != [] && !IsSpace(s[0]) {
      WordEnds(s[1..]);
      var v := Word(s[1..]);
      assert s[..|v| + 1] == [s[0]] + s[1..][..|v|];
    }
  }

  lemma WordShifts(s: string, j: nat, v: string)
    requires s != [] && IsSpace(s[0]) && WordAt(s[1..], j, v)
    ensures WordAt(s, j + 1, v)
  {
    var t := s[1..];
    assert forall i :: 0 <= i < |t| ==> t[i] == s[i + 1];
    assert s[j + 1..j + 1 + |v|] == t[j..j + |v|];
    forall i | 0 <= i < j + 1 ensures IsSpace(s[i]) {
      if i > 0 { assert IsSpace(t[i - 1]); }
    }
  }

  lemma {:induction false} FirstTokenFound(s: string) returns (k: nat)
    requires FirstToken(s) != ""
    ensures WordAt(s, k, FirstToken(s))
  {
    if IsSpace(s[0]) {
      var j := FirstTokenFound(s[1..]);
      k := j + 1;
      WordShifts(s, j, FirstToken(s));
    } else {
      k := 0;
      WordEnds(s);
    }
  }

  /** A `/lesson` line is a verb's if and only if a verb is its first word. */
  lemma VerbsExactly(s: string)
    ensures SubVerb(FirstToken(s)) <==> VerbFirst(s)
  {
    if SubVerb(FirstToken(s)) {
      var k := FirstTokenFound(s);
      var i := if FirstToken(s) == "list" then 0 else if FirstToken(s) == "search" then 1 else 2;
      assert FirstToken(s) == LESSON_VERBS[i];
    }
    if VerbFirst(s) {
      var i, k: nat :| 0 <= i < |LESSON_VERBS| && WordAt(s, k, LESSON_VERBS[i]);
      FirstTokenIs(s, k, LESSON_VERBS[i]);
    }
  }

  // ---- carriage returns ----

  /** The same lines as a text with CRLF line ends has them. */
  function Crlf(lines: seq<string>): seq<string> {
    if lines == [] then [] else [lines[0] + "\r"] + Crlf(lines[1..])
  }

  predicate EndsInCr(l: string) {
    l != [] && l[|l| - 1] == '\r'
  }

  predicate NoneEndsInCr(lines: seq<string>) {
    lines == [] || (!EndsInCr(lines[0]) && NoneEndsInCr(lines[1..]))
  }

  lemma CrlfLine(l: string)
    requires !EndsInCr(l)
    ensures StripCr(l + "\r") == l && StripCr(l) == l
    ensures TrimRight(l + "\r") == TrimRight(l)
    ensures IsFence(l + "\r") <==> IsFence(l)
    ensures IsFence(l) ==> (l + "\r")[..3] == l[..3]
  {
    assert (l + "\r")[..|l|] == l;
  }

  lemma {:induction false} CrlfCollect(lines: seq<string>, sentinel: string)
    requires NoneEndsInCr(lines)
    ensures
      var (c, d) := (Collect(lines, sentinel), Collect(Crlf(lines), sentinel));
      && d == c.(rest := Crlf(c.rest)) && NoneEndsInCr(c.rest)
  {
    if lines != [] {
      CrlfLine(lines[0]);
      assert Crlf(lines)[1..] == Crlf(lines[1..]);
      CrlfCollect(lines[1..], sentinel);
    }
  }

  lemma CrlfHead(k: LineClass, rest: seq<string>)
    requires NoneEndsInCr(rest)
    ensures
      var (st, cr) := (AfterHead(k, rest), AfterHead(k, Crlf(rest)));
      && cr == st.(rest := Crlf(st.rest)) && NoneEndsInCr(st.rest)
  {
    if rest != [] { CrlfLine(rest[0]); }
    assert Opens(k, Crlf(rest)) <==> Opens(k, rest);
    if Opens(k, rest) { CrlfCollect(rest, k.opener.sentinel); }
  }

  /** CRLF line ends make no difference to what is parsed, in bodies, heads and sentinels. */
  lemma {:induction false} CrlfParses(lines: seq<string>, fence: string)
    requires NoneEndsInCr(lines)
    ensures Parse(Crlf(lines), fence) == Parse(lines, fence)
    decreases |lines|
  {
    if lines != [] {
      var (l, rest) := (lines[0], lines[1..]);
      CrlfLine(l);
      assert Crlf(lines)[1..] == Crlf(rest);
      var st := TopStep(lines, fence);
      CrlfHead(Classify(TrimRight(l)), rest);
      assert TopStep(Crlf(lines), fence) == st.(rest := Crlf(st.rest));
      CrlfParses(st.rest, st.fence);
    }
  }

  // ---- blanks ----

  lemma BlankLine(l: string)
    ensures TrimRight(l + " ") == TrimRight(l)
    ensures IsFence(l + " ") <==> IsFence(l)
    ensures IsFence(l) ==> (l + " ")[..3] == l[..3]
  {
    assert (l + " ")[..|l|] == l;
  }

  /** A blank at the end of a line that is not in a block makes no difference. */
  lemma TrailingBlank(l: string, rest: seq<string>, fence: string)
    ensures Parse([l + " "] + rest, fence) == Parse([l] + rest, fence)
  {
    BlankLine(l);
    assert ([l + " "] + rest)[1..] == rest && ([l] + rest)[1..] == rest;
    assert TopStep([l + " "] + rest, fence) == TopStep([l] + rest, fence);
  }

  lemma {:induction false} TrimmedLeft(blanks: string, args: string)
    requires (forall i :: 0 <= i < |blanks| ==> blanks[i] == ' ' || blanks[i] == '\t')
    requires args == "" || (args[0] != ' ' && args[0] != '\t')
    ensures TrimLeft(blanks + args) == args
  {
    if blanks == "" {
      assert blanks + args == args;
    } else {
      TrimmedLeft(blanks[1..], args);
      assert (blanks + args)[1..] == blanks[1..] + args;
    }
  }

  /** Blanks in front of the directory of a `/map` are dropped. */
  lemma MapDropsBlanks(blanks: string, args: string)
    requires (forall i :: 0 <= i < |blanks| ==> blanks[i] == ' ' || blanks[i] == '\t')
    requires args != "" && args[0] != ' ' && args[0] != '\t'
    ensures ClassifyWeb("/map " + (blanks + args)) == Simple("map", args)
  {
    var l := "/map " + (blanks + args);
    TrimmedLeft(blanks, args);
    assert l[5..] == blanks + args && l[1] == 'm' && l[2] == 'a';
    assert Longer(l, "/map ");
  }
}
