/** Splitting an `/exec` command line into words without a shell. A line that a shell would
    expand, redirect or reject is not split but handed back whole. The reference is the
    quoting of sections 2.2.2, 2.2.3 and 2.3 of the POSIX Shell Command Language, limited to
    quote removal and splitting at blanks. */
module ExecTokenizer {
  import opened Common

  datatype ExecParse = Argv(words: seq<string>) | NeedsShell

  predicate IsBlank(c: char) { c == ' ' || c == '\t' }

  predicate IsUnquotedShellMeta(c: char) {
    c in {'|', '&', ';', '<', '>', '`', '$', '(', ')', '\\', '*', '?', '[', '{', '\n', '\r'}
  }

  predicate ExpandsInDoubleQuotes(c: char) {
    c in {'$', '`', '\\', '\n', '\r'}
  }

  // ---- the lines that can be split: a grammar ----

  datatype Piece = Bare(c: char) | Single(text: string) | Double(text: string)

  /** Outside quotes every character that a shell treats specially is out; inside double quotes
      those that expand or end the quotes, and line ends. */
  predicate PieceOk(p: Piece) {
    match p
    case Bare(c) =>
      && c !in {' ', '\t', '\'', '"'}
      && c !in {'|', '&', ';', '<', '>', '`', '$', '(', ')', '\\', '*', '?', '[', '{', '\n', '\r'}
    case Single(t) => '\'' !in t
    case Double(t) => forall i :: 0 <= i < |t| ==> t[i] !in {'"', '$', '`', '\\', '\n', '\r'}
  }

  function PieceText(p: Piece): string {
    match p
    case Bare(c) => [c]
    case Single(t) => "'" + t + "'"
    case Double(t) => "\"" + t + "\""
  }

  function PieceValue(p: Piece): string {
    match p
    case Bare(c) => [c]
    case Single(t) => t
    case Double(t) => t
  }

  /** A word opens neither a comment nor a tilde expansion. */
  predicate WordOk(w: seq<Piece>) {
    && w != []
    && (forall i :: 0 <= i < |w| ==> PieceOk(w[i]))
    && w[0] != Bare('#') && w[0] != Bare('~')
  }

  function WordText(w: seq<Piece>): string {
    if w == [] then "" else PieceText(w[0]) + WordText(w[1..])
  }

  function WordValue(w: seq<Piece>): string {
    if w == [] then "" else PieceValue(w[0]) + WordValue(w[1..])
  }

  datatype Line = End | Blank(c: char, rest: Line) | Word(pieces: seq<Piece>, rest: Line)

  /** Words are set apart by blanks. */
  predicate LineOk(l: Line) {
    match l
    case End => true
    case Blank(c, rest) => (c == ' ' || c == '\t') && LineOk(rest)
    case Word(w, rest) => WordOk(w) && !rest.Word? && LineOk(rest)
  }

  function LineText(l: Line): string {
    match l
    case End => ""
    case Blank(c, rest) => [c] + LineText(rest)
    case Word(w, rest) => WordText(w) + LineText(rest)
  }

  function LineWords(l: Line): seq<string> {
    match l
    case End => []
    case Blank(_, rest) => LineWords(rest)
    case Word(w, rest) => [WordValue(w)] + LineWords(rest)
  }

  // ---- what the scanner computes, suffix by suffix ----

  datatype Cut = Cut(value: string, rest: string) | Stuck

  function Prefixed(v: string, c: Cut): Cut {
    if c.Cut? then Cut(v + c.value, c.rest) else Stuck
  }

  lemma PrefixedTwice(a: string, b: string, c: Cut)
    ensures Prefixed(a, Prefixed(b, c)) == Prefixed(a + b, c)
  {
    if c.Cut? {
      Regroup(a, b, c.value);
    }
  }

  function SingleAt(s: string): (r: Cut)
    ensures r.Cut? ==> |r.rest| < |s|
  {
    if s == [] then Stuck
    else if s[0] == '\'' then Cut("", s[1..])
    else Prefixed([s[0]], SingleAt(s[1..]))
  }

  function DoubleAt(s: string): (r: Cut)
    ensures r.Cut? ==> |r.rest| < |s|
  {
    if s == [] then Stuck
    else if s[0] == '"' then Cut("", s[1..])
    else if ExpandsInDoubleQuotes(s[0]) then Stuck
    else Prefixed([s[0]], DoubleAt(s[1..]))
  }

  function PieceAt(s: string): (r: Cut)
    requires s != []
    ensures r.Cut? ==> |r.rest| < |s|
  {
    if s[0] == '\'' then SingleAt(s[1..])
    else if s[0] == '"' then DoubleAt(s[1..])
    else if IsUnquotedShellMeta(s[0]) then Stuck
    else Cut([s[0]], s[1..])
  }

  function WordAt(s: string): (r: Cut)
    ensures r.Cut? ==> |r.rest| <= |s| && (r.rest == [] || IsBlank(r.rest[0]))
    ensures r.Cut? && s != [] && !IsBlank(s[0]) ==> |r.rest| < |s|
    decreases |s|
  {
    if s == [] || IsBlank(s[0]) then Cut("", s)
    else
      var p := PieceAt(s);
      if p.Stuck? then Stuck else Prefixed(p.value, WordAt(p.rest))
  }

  function Joined(front: seq<string>, r: ExecParse): ExecParse {
    if r.Argv? then Argv(front + r.words) else NeedsShell
  }

  function Tokens(s: string): ExecParse
    decreases |s|
  {
    if s == [] then Argv([])
    else if IsBlank(s[0]) then Tokens(s[1..])
    else if s[0] == '#' || s[0] == '~' then NeedsShell
    else
      var w := WordAt(s);
      if w.Stuck? then NeedsShell else Joined([w.value], Tokens(w.rest))
  }

  function Tokenized(s: string): ExecParse {
    if Tokens(s) == Argv([]) then NeedsShell else Tokens(s)
  }

  // ---- the scanner reads exactly the grammar ----

  lemma {:induction false} SingleReads(t: string, rest: string)
    requires '\'' !in t
    ensures SingleAt(t + "'" + rest) == Cut(t, rest)
  {
    if t == [] {
      assert ("'" + rest)[1..] == rest && t + "'" + rest == "'" + rest;
    } else {
      SingleReads(t[1..], rest);
      assert (t + "'" + rest)[1..] == t[1..] + "'" + rest;
    }
  }

  lemma {:induction false} DoubleReads(t: string, rest: string)
    requires PieceOk(Double(t))
    ensures DoubleAt(t + "\"" + rest) == Cut(t, rest)
  {
    if t == [] {
      assert ("\"" + rest)[1..] == rest && t + "\"" + rest == "\"" + rest;
    } else {
      DoubleReads(t[1..], rest);
      assert (t + "\"" + rest)[1..] == t[1..] + "\"" + rest;
    }
  }

  lemma PieceReads(p: Piece, rest: string)
    requires PieceOk(p)
    ensures PieceAt(PieceText(p) + rest) == Cut(PieceValue(p), rest)
    ensures !IsBlank((PieceText(p) + rest)[0])
  {
    match p
    case Bare(c) => assert ([c] + rest)[1..] == rest;
    case Single(t) =>
      SingleReads(t, rest);
      assert (PieceText(p) + rest)[1..] == t + "'" + rest;
    case Double(t) =>
      DoubleReads(t, rest);
      assert (PieceText(p) + rest)[1..] == t + "\"" + rest;
  }

  lemma {:induction false} WordReads(w: seq<Piece>, rest: string)
    requires forall i :: 0 <= i < |w| ==> PieceOk(w[i])
    requires rest == [] || IsBlank(rest[0])
    ensures WordAt(WordText(w) + rest) == Cut(WordValue(w), rest)
  {
    if w == [] {
      assert WordText(w) + rest == rest;
    } else {
      var tail := WordText(w[1..]) + rest;
      PieceReads(w[0], tail);
      WordReads(w[1..], rest);
      Regroup(PieceText(w[0]), WordText(w[1..]), rest);
    }
  }

  lemma WordStarts(w: seq<Piece>, rest: string)
    requires WordOk(w)
    ensures
      var s := WordText(w) + rest;
      s != [] && !IsBlank(s[0]) && s[0] != '#' && s[0] != '~'
  {
    assert PieceOk(w[0]);
    assert (WordText(w) + rest)[0] == PieceText(w[0])[0];
  }

  lemma RestStarts(l: Line)
    requires LineOk(l) && !l.Word?
    ensures LineText(l) == [] || IsBlank(LineText(l)[0])
  {
  }

  lemma {:induction false} LineReads(l: Line)
    requires LineOk(l)
    ensures Tokens(LineText(l)) == Argv(LineWords(l))
  {
    match l
    case End =>
    case Blank(c, rest) =>
      LineReads(rest);
      assert LineText(l)[1..] == LineText(rest);
    case Word(w, rest) =>
      LineReads(rest);
      RestStarts(rest);
      WordReads(w, LineText(rest));
      WordStarts(w, LineText(rest));
  }

  lemma {:induction false} SingleParses(s: string) returns (t: string)
    requires SingleAt(s).Cut?
    ensures '\'' !in t && s == t + "'" + SingleAt(s).rest && t == SingleAt(s).value
  {
    if s[0] == '\'' {
      t := "";
      assert s == "'" + s[1..];
    } else {
      var t' := SingleParses(s[1..]);
      t := [s[0]] + t';
      assert s == [s[0]] + s[1..];
    }
  }

  lemma {:induction false} DoubleParses(s: string) returns (t: string)
    requires DoubleAt(s).Cut?
    ensures PieceOk(Double(t)) && s == t + "\"" + DoubleAt(s).rest && t == DoubleAt(s).value
  {
    if s[0] == '"' {
      t := "";
      assert s == "\"" + s[1..];
    } else {
      var t' := DoubleParses(s[1..]);
      t := [s[0]] + t';
      assert s == [s[0]] + s[1..];
    }
  }

  lemma PieceParses(s: string) returns (p: Piece)
    requires s != [] && !IsBlank(s[0]) && PieceAt(s).Cut?
    ensures PieceOk(p) && s == PieceText(p) + PieceAt(s).rest && PieceValue(p) == PieceAt(s).value
    ensures p.Bare? ==> p.c == s[0]
  {
    assert s == [s[0]] + s[1..];
    if s[0] == '\'' {
      var t := SingleParses(s[1..]);
      p := Single(t);
    } else if s[0] == '"' {
      var t := DoubleParses(s[1..]);
      p := Double(t);
    } else {
      p := Bare(s[0]);
    }
  }

  lemma WordCons(p: Piece, w: seq<Piece>)
    ensures WordText([p] + w) == PieceText(p) + WordText(w)
    ensures WordValue([p] + w) == PieceValue(p) + WordValue(w)
  {
    assert ([p] + w)[1..] == w;
  }

  lemma {:induction false} WordParses(s: string) returns (w: seq<Piece>)
    requires WordAt(s).Cut?
    ensures forall i :: 0 <= i < |w| ==> PieceOk(w[i])
    ensures s == WordText(w) + WordAt(s).rest && WordValue(w) == WordAt(s).value
    ensures s != [] && !IsBlank(s[0]) ==> w != [] && (w[0].Bare? ==> w[0].c == s[0])
    decreases |s|
  {
    if s == [] || IsBlank(s[0]) {
      w := [];
    } else {
      var p := PieceParses(s);
      var w' := WordParses(PieceAt(s).rest);
      w := [p] + w';
      WordCons(p, w');
      Regroup(PieceText(p), WordText(w'), WordAt(s).rest);
    }
  }

  lemma {:induction false} LineParses(s: string) returns (l: Line)
    requires Tokens(s).Argv?
    ensures LineOk(l) && LineText(l) == s && LineWords(l) == Tokens(s).words
    ensures l.Word? ==> s != [] && !IsBlank(s[0])
    decreases |s|
  {
    if s == [] {
      l := End;
    } else if IsBlank(s[0]) {
      var rest := LineParses(s[1..]);
      l := Blank(s[0], rest);
    } else {
      var w := WordParses(s);
      var rest := LineParses(WordAt(s).rest);
      l := Word(w, rest);
    }
  }

  ghost predicate Derives(s: string, words: seq<string>) {
    exists l :: LineOk(l) && LineText(l) == s && LineWords(l) == words
  }

  /** A line is split into `words` exactly when the grammar derives it with that value, and
      there is at least one word. */
  lemma SplitsExactly(s: string, words: seq<string>)
    ensures Tokenized(s) == Argv(words) <==> words != [] && Derives(s, words)
  {
    if Tokens(s).Argv? {
      var l := LineParses(s);
    }
    forall l | LineOk(l) && LineText(l) == s && LineWords(l) == words ensures Tokens(s) == Argv(words) {
      LineReads(l);
    }
  }

  // ---- quoting ----

  /** Every quote closes the single quotes, stands in double quotes, and reopens them. */
  function QuoteBody(w: string): string {
    if w == [] then ""
    else (if w[0] == '\'' then "'\"'\"'" else [w[0]]) + QuoteBody(w[1..])
  }

  function Quote(w: string): string {
    "'" + QuoteBody(w) + "'"
  }

  function CommandLine(words: seq<string>): string {
    if words == [] then ""
    else if |words| == 1 then Quote(words[0])
    else Quote(words[0]) + " " + CommandLine(words[1..])
  }

  function QuotedPieces(open: string, w: string): seq<Piece>
    decreases |w|
  {
    if w == [] then [Single(open)]
    else if w[0] == '\'' then [Single(open), Double("'")] + QuotedPieces("", w[1..])
    else QuotedPieces(open + [w[0]], w[1..])
  }

  lemma {:induction false} QuotedPiecesOk(open: string, w: string)
    requires '\'' !in open
    ensures WordOk(QuotedPieces(open, w))
    decreases |w|
  {
    if w != [] {
      QuotedPiecesOk(if w[0] == '\'' then "" else open + [w[0]], w[1..]);
    }
  }

  lemma Uncons(w: string)
    requires w != []
    ensures w == [w[0]] + w[1..]
  {
  }

  lemma OnePiece(p: Piece)
    ensures WordText([p]) == PieceText(p) && WordValue([p]) == PieceValue(p)
  {
    assert [p][1..] == [];
  }

  lemma {:induction false} QuotedPiecesValue(open: string, w: string)
    ensures WordValue(QuotedPieces(open, w)) == open + w
    decreases |w|
  {
    if w == [] {
      OnePiece(Single(open));
      assert open + [] == open;
    } else if w[0] == '\'' {
      QuotedPiecesValue("", w[1..]);
      TwoMore(Single(open), Double("'"), QuotedPieces("", w[1..]));
      assert "" + w[1..] == w[1..];
      Uncons(w);
    } else {
      QuotedPiecesValue(open + [w[0]], w[1..]);
      Regroup(open, [w[0]], w[1..]);
      Uncons(w);
    }
  }

  lemma TwoMore(p: Piece, q: Piece, w: seq<Piece>)
    ensures WordText([p, q] + w) == PieceText(p) + (PieceText(q) + WordText(w))
    ensures WordValue([p, q] + w) == PieceValue(p) + (PieceValue(q) + WordValue(w))
  {
    WordCons(q, w);
    WordCons(p, [q] + w);
    assert [p, q] + w == [p] + ([q] + w);
  }

  lemma {:induction false} QuotedPiecesText(open: string, w: string)
    ensures WordText(QuotedPieces(open, w)) == "'" + (open + (QuoteBody(w) + "'"))
    decreases |w|
  {
    if w == [] {
      OnePiece(Single(open));
      Regroup("'", open, "'");
      assert "" + "'" == "'";
    } else if w[0] == '\'' {
      QuotedPiecesText("", w[1..]);
      TwoMore(Single(open), Double("'"), QuotedPieces("", w[1..]));
      QuoteReopened(open, QuoteBody(w[1..]) + "'");
      Regroup("'\"'\"'", QuoteBody(w[1..]), "'");
    } else {
      QuotedPiecesText(open + [w[0]], w[1..]);
      Regroup(open, [w[0]], QuoteBody(w[1..]) + "'");
      Regroup([w[0]], QuoteBody(w[1..]), "'");
    }
  }

  lemma QuoteReopened(open: string, rest: string)
    ensures PieceText(Single(open)) + (PieceText(Double("'")) + ("'" + ("" + rest))) ==
            "'" + (open + ("'\"'\"'" + rest))
  {
    var quoted := PieceText(Double("'"));
    assert "" + rest == rest;
    Regroup("'" + open, "'", quoted + ("'" + rest));
    Regroup("'", open, "'" + (quoted + ("'" + rest)));
    Regroup(quoted, "'", rest);
    Regroup("'", quoted + "'", rest);
    assert "'" + (quoted + "'") == "'\"'\"'";
  }

  lemma QuoteDerives(word: string, rest: Line)
    requires LineOk(rest) && !rest.Word?
    ensures
      var l := Word(QuotedPieces("", word), rest);
      LineOk(l) && LineText(l) == Quote(word) + LineText(rest) && LineWords(l) == [word] + LineWords(rest)
  {
    QuotedPiecesOk("", word);
    QuotedPiecesValue("", word);
    QuotedPiecesText("", word);
    assert "" + word == word && "'" + ("" + (QuoteBody(word) + "'")) == Quote(word);
  }

  lemma {:induction false} CommandLineDerives(words: seq<string>) returns (l: Line)
    ensures LineOk(l) && LineText(l) == CommandLine(words) && LineWords(l) == words
  {
    if words == [] {
      l := End;
    } else if |words| == 1 {
      QuoteDerives(words[0], End);
      l := Word(QuotedPieces("", words[0]), End);
      assert words == [words[0]] + [];
      assert Quote(words[0]) + "" == Quote(words[0]);
    } else {
      var rest := CommandLineDerives(words[1..]);
      QuoteDerives(words[0], Blank(' ', rest));
      l := Word(QuotedPieces("", words[0]), Blank(' ', rest));
      assert words == [words[0]] + words[1..];
      Regroup(Quote(words[0]), " ", LineText(rest));
    }
  }

  /** Any non-empty list of words survives quoting and splitting. */
  lemma QuotingRoundTrip(words: seq<string>)
    requires words != []
    ensures Tokenized(CommandLine(words)) == Argv(words)
  {
    var l := CommandLineDerives(words);
    LineReads(l);
  }

  // ---- the scanner ----

  method SkipBlanks(cmd: string, start: nat) returns (i: nat)
    requires start <= |cmd|
    ensures start <= i <= |cmd| && (i < |cmd| ==> !IsBlank(cmd[i]))
    ensures Tokens(cmd[i..]) == Tokens(cmd[start..])
  {
    i := start;
    while i < |cmd| && IsBlank(cmd[i])
      invariant start <= i <= |cmd| && Tokens(cmd[i..]) == Tokens(cmd[start..])
    {
      assert cmd[i..][1..] == cmd[i + 1..];
      i := i + 1;
    }
  }

  method ReadSingle(cmd: string, start: nat) returns (closed: bool, text: string, i: nat)
    requires start <= |cmd|
    ensures closed <==> SingleAt(cmd[start..]).Cut?
    ensures closed ==> start < i <= |cmd| && SingleAt(cmd[start..]) == Cut(text, cmd[i..])
  {
    i, text := start, "";
    while i < |cmd|
      invariant start <= i <= |cmd| && SingleAt(cmd[start..]) == Prefixed(text, SingleAt(cmd[i..]))
    {
      assert cmd[i..][1..] == cmd[i + 1..];
      if cmd[i] == '\'' {
        return true, text, i + 1;
      }
      text := text + [cmd[i]];
      i := i + 1;
    }
    closed := false;
  }

  method ReadDouble(cmd: string, start: nat) returns (closed: bool, text: string, i: nat)
    requires start <= |cmd|
    ensures closed <==> DoubleAt(cmd[start..]).Cut?
    ensures closed ==> start < i <= |cmd| && DoubleAt(cmd[start..]) == Cut(text, cmd[i..])
  {
    i, text := start, "";
    while i < |cmd|
      invariant start <= i <= |cmd| && DoubleAt(cmd[start..]) == Prefixed(text, DoubleAt(cmd[i..]))
    {
      assert cmd[i..][1..] == cmd[i + 1..];
      if cmd[i] == '"' {
        return true, text, i + 1;
      }
      if ExpandsInDoubleQuotes(cmd[i]) {
        return false, text, i;
      }
      text := text + [cmd[i]];
      i := i + 1;
    }
    closed := false;
  }

  method ReadPiece(cmd: string, start: nat) returns (ok: bool, text: string, i: nat)
    requires start < |cmd|
    ensures ok <==> PieceAt(cmd[start..]).Cut?
    ensures ok ==> start < i <= |cmd| && PieceAt(cmd[start..]) == Cut(text, cmd[i..])
  {
    assert cmd[start..][1..] == cmd[start + 1..];
    var c := cmd[start];
    if c == '\'' {
      ok, text, i := ReadSingle(cmd, start + 1);
    } else if c == '"' {
      ok, text, i := ReadDouble(cmd, start + 1);
    } else {
      ok, text, i := !IsUnquotedShellMeta(c), [c], start + 1;
    }
  }

  method ReadWord(cmd: string, start: nat) returns (ok: bool, word: string, i: nat)
    requires start < |cmd| && !IsBlank(cmd[start])
    ensures ok <==> WordAt(cmd[start..]).Cut?
    ensures ok ==> start < i <= |cmd| && WordAt(cmd[start..]) == Cut(word, cmd[i..])
  {
    i, word := start, "";
    while i < |cmd| && !IsBlank(cmd[i])
      invariant start <= i <= |cmd| && WordAt(cmd[start..]) == Prefixed(word, WordAt(cmd[i..]))
      decreases |cmd| - i
    {
      var text, next;
      ok, text, next := ReadPiece(cmd, i);
      if !ok {
        return;
      }
      PrefixedTwice(word, text, WordAt(cmd[next..]));
      word, i := word + text, next;
    }
    ok := true;
  }

  method ParseExecArgv(cmd: string) returns (r: ExecParse)
    ensures r == Tokenized(cmd)
    ensures r.Argv? ==> r.words != [] && Derives(cmd, r.words)
    ensures r.NeedsShell? ==> forall words :: Derives(cmd, words) ==> words == []
  {
    forall words { SplitsExactly(cmd, words); }
    var argv: seq<string> := [];
    var i := 0;
    assert cmd[0..] == cmd;
    while i < |cmd|
      invariant i <= |cmd| && Tokens(cmd) == Joined(argv, Tokens(cmd[i..]))
      decreases |cmd| - i
    {
      i := SkipBlanks(cmd, i);
      if i >= |cmd| {
        break;
      }
      if cmd[i] == '#' || cmd[i] == '~' {
        return NeedsShell;
      }
      var ok, word, next := ReadWord(cmd, i);
      if !ok {
        return NeedsShell;
      }
      argv, i := argv + [word], next;
    }
    r := if argv == [] then NeedsShell else Argv(argv);
  }
}
