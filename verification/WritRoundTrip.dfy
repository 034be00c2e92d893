/** Rendering a document of writs, closed blocks, prose and balanced fences, and parsing it
    back, gives exactly the commands that were rendered, in order. */
module WritRoundTrip {
  import opened WritParser
  import opened WritWords

  predicate NoNewline(s: string) {
    '\n' !in s
  }

  /** Nothing at the end that trimming would take away. */
  predicate Solid(s: string) {
    s != [] ==> s[|s| - 1] != ' ' && s[|s| - 1] != '\r'
  }

  // ---- single-line writs ----

  const PLAIN_WRITS: set<string> :=
    {"fetch", "search", "browse", "read", "mcp", "a2a", "schedule", "agent", "pane", "advise", "exec"}

  /** A command that fits on one line and is not the head of a block. */
  ghost predicate OneLine(cmd: Command) {
    && !cmd.truncated && cmd.content == "" && NoNewline(cmd.args) && Solid(cmd.args)
    && (|| (cmd.name in PLAIN_WRITS && cmd.args != "")
        || (cmd.name == "list" && cmd.args == "")
        || (cmd.name == "map" && (cmd.args == "" || (cmd.args[0] != ' ' && cmd.args[0] != '\t')))
        || cmd.name == "help"
        || (cmd.name == "todo" && cmd.args != "" && !Longer(cmd.args, "add"))
        || (cmd.name == "mem" && cmd.args != "" && !Longer(cmd.args, "add entry"))
        || (cmd.name == "lesson" && cmd.args != "" && (VerbFirst(cmd.args) || ':' in cmd.args)))
  }

  /** How each command's line begins. */
  function Head(name: string): string {
    match name
    case "fetch" => "/fetch "
    case "search" => "/search "
    case "browse" => "/browse "
    case "read" => "/read "
    case "map" => "/map "
    case "mcp" => "/mcp "
    case "a2a" => "/a2a "
    case "todo" => "/todo "
    case "lesson" => "/lesson "
    case "schedule" => "/schedule "
    case "mem" => "/mem "
    case "agent" => "/agent "
    case "pane" => "/pane "
    case "advise" => "/advise "
    case "exec" => "/exec "
    case "help" => "/help "
    case _ => ""
  }

  function WritLine(cmd: Command): string {
    if cmd.args != "" then Head(cmd.name) + cmd.args
    else if cmd.name == "list" then "/list"
    else if cmd.name == "map" then "/map"
    else "/help"
  }

  // ---- a line with the head of one writ is not taken for another ----

  lemma WebHeads(l: string)
    ensures Longer(l, "/fetch ") ==> ClassifyWeb(l) == Simple("fetch", l[7..])
    ensures Longer(l, "/search ") ==> ClassifyWeb(l) == Simple("search", l[8..])
    ensures Longer(l, "/browse ") ==> ClassifyWeb(l) == Simple("browse", l[8..])
    ensures Longer(l, "/read ") ==> ClassifyWeb(l) == Simple("read", l[6..])
    ensures l == "/list" ==> ClassifyWeb(l) == Simple("list", "")
    ensures l == "/map" ==> ClassifyWeb(l) == Simple("map", "")
    ensures Longer(l, "/map ") ==> ClassifyWeb(l) == Simple("map", TrimLeft(l[5..]))
    ensures Longer(l, "/mcp ") ==> ClassifyWeb(l) == Simple("mcp", l[5..])
    ensures Longer(l, "/a2a ") ==> ClassifyWeb(l) == Simple("a2a", l[5..])
  {
    if |l| > 2 && l[1] == 'm' && l[2] == 'c' {
    }
  }

  /** The heads of the other two groups mean nothing to the first. */
  lemma NotWeb(l: string)
    requires |l| > 3
    requires
      || l[1] in {'t', 'e', 'h', 'w', 'p'}
      || (l[1] == 'l' && l[2] == 'e') || (l[1] == 's' && l[2] == 'c') || (l[1] == 'm' && l[2] == 'e')
      || (l[1] == 'a' && l[2] in {'g', 'd'})
    ensures ClassifyWeb(l) == Prose
  {
  }

  lemma NotRecord(l: string)
    requires |l| > 3 && l[1] in {'a', 'p', 'e', 'h', 'w'}
    ensures ClassifyRecords(l) == Prose
  {
  }

  lemma TodoHeads(l: string)
    ensures Longer(l, "/todo add") ==> ClassifyRecords(l) == Peek(Opener("todo", l[5..], "/endtodo", false))
    ensures Longer(l, "/todo ") && !Longer(l, "/todo add") ==> ClassifyRecords(l) == Simple("todo", l[6..])
  {
    if Longer(l, "/todo add") {
      assert l[6] == 'a' && l != "/todo list";
    } else if l == "/todo list" {
      assert l[6..] == "list";
    }
  }

  lemma ListIsSubVerb(l: string)
    requires l == "/lesson list"
    ensures Longer(l, "/lesson ") && l[8..] == "list" && SubVerb(FirstToken(l[8..]))
  {
    assert l[8..] == "list";
    TokenOfWord("list");
  }

  lemma LessonHeads(l: string)
    requires Longer(l, "/lesson ")
    ensures ClassifyRecords(l) == if SubVerb(FirstToken(l[8..])) || ':' in l[8..] then Simple("lesson", l[8..])
                                  else Peek(Opener("lesson", l[8..], "/endlesson", false))
  {
    assert l[1] == 'l';
    if l == "/lesson list" { ListIsSubVerb(l); }
  }

  lemma OtherRecordHeads(l: string)
    ensures Longer(l, "/schedule ") ==> ClassifyRecords(l) == Simple("schedule", l[10..])
    ensures Longer(l, "/mem add entry") ==> ClassifyRecords(l) == Block(Opener("mem", l[5..], "/endmem", false))
    ensures Longer(l, "/mem ") && !Longer(l[5..], "add entry") ==> ClassifyRecords(l) == Simple("mem", l[5..])
  {
    if |l| > 6 && l[1] == 's' && l[2] == 'c' {
    } else if Longer(l, "/mem add entry") {
      assert Longer(l[5..], "add entry");
    }
  }

  lemma TokenOfWord(w: string)
    requires w != [] && forall c :: c in w ==> !IsSpace(c)
    ensures FirstToken(w) == w
  {
    WordOf(w);
  }

  lemma {:induction false} WordOf(w: string)
    requires forall c :: c in w ==> !IsSpace(c)
    ensures Word(w) == w
  {
    if w != [] { WordOf(w[1..]); }
  }

  lemma ActionHeads(l: string)
    ensures Longer(l, "/agent ") ==> ClassifyActions(l) == Simple("agent", l[7..])
    ensures l == "/parallel" ==> ClassifyActions(l) == Block(Opener("parallel", "", "/endparallel", true))
    ensures Longer(l, "/pane ") ==> ClassifyActions(l) == Simple("pane", l[6..])
    ensures Longer(l, "/advise ") ==> ClassifyActions(l) == Simple("advise", l[8..])
    ensures Longer(l, "/exec ") ==> ClassifyActions(l) == Simple("exec", l[6..])
    ensures l == "/help" ==> ClassifyActions(l) == Simple("help", "")
    ensures Longer(l, "/help ") ==> ClassifyActions(l) == Simple("help", l[6..])
    ensures Longer(l, "/write ") && TrimRight(l[7..]) == l[7..] ==>
              ClassifyActions(l) == Block(Opener("write", l[7..], "/endwrite", false))
  {
    if |l| > 3 && l[1] == 'p' && l[2] == 'a' && l[3] == 'n' {
    } else if |l| > 3 && l[1] == 'a' && l[2] == 'd' && l[3] == 'v' {
    }
  }

  // ---- commands as lines ----

  lemma PrefixFacts(p: string, args: string)
    ensures Starts(p + args, p) && (p + args)[|p|..] == args
    ensures args != "" ==> Longer(p + args, p)
  {
  }

  lemma LongerBehind(p: string, q: string, args: string)
    ensures Longer(p + args, p + q) <==> Longer(args, q)
  {
    if Longer(p + args, p + q) {
      forall i | 0 <= i < |q| ensures args[i] == q[i] {
        assert (p + args)[|p| + i] == (p + q)[|p| + i];
      }
    }
  }

  lemma SolidLine(p: string, args: string)
    requires Solid(args) && args != ""
    ensures TrimRight(p + args) == p + args && TrimRight(args) == args
  {
  }

  lemma WebWrit(cmd: Command)
    requires OneLine(cmd) && cmd.name in {"fetch", "search", "browse", "read", "list", "map", "mcp", "a2a"}
    ensures ClassifyWeb(WritLine(cmd)) == Single(cmd)
  {
    WebHeads(WritLine(cmd));
    if cmd.args != "" { PrefixFacts(Head(cmd.name), cmd.args); }
  }

  lemma TodoLine(args: string)
    requires args != "" && !Longer(args, "add")
    ensures ClassifyWeb("/todo " + args) == Prose && ClassifyRecords("/todo " + args) == Simple("todo", args)
  {
    var l := "/todo " + args;
    PrefixFacts("/todo ", args);
    NotWeb(l);
    LongerBehind("/todo ", "add", args);
    assert "/todo " + "add" == "/todo add";
    TodoHeads(l);
  }

  lemma TodoWrit(cmd: Command)
    requires OneLine(cmd) && cmd.name == "todo"
    ensures ClassifyWeb(WritLine(cmd)) == Prose && ClassifyRecords(WritLine(cmd)) == Single(cmd)
  {
    TodoLine(cmd.args);
  }

  lemma LessonLine(args: string)
    requires args != "" && (VerbFirst(args) || ':' in args)
    ensures ClassifyWeb("/lesson " + args) == Prose && ClassifyRecords("/lesson " + args) == Simple("lesson", args)
  {
    PrefixFacts("/lesson ", args);
    VerbsExactly(args);
    NotWeb("/lesson " + args);
    LessonHeads("/lesson " + args);
  }

  lemma LessonWrit(cmd: Command)
    requires OneLine(cmd) && cmd.name == "lesson"
    ensures ClassifyWeb(WritLine(cmd)) == Prose && ClassifyRecords(WritLine(cmd)) == Single(cmd)
  {
    LessonLine(cmd.args);
  }

  lemma RecordWrit(cmd: Command)
    requires OneLine(cmd) && cmd.name in {"schedule", "mem"}
    ensures ClassifyWeb(WritLine(cmd)) == Prose && ClassifyRecords(WritLine(cmd)) == Single(cmd)
  {
    var l := WritLine(cmd);
    PrefixFacts(Head(cmd.name), cmd.args);
    NotWeb(l);
    OtherRecordHeads(l);
  }

  lemma ActionWrit(cmd: Command)
    requires OneLine(cmd) && cmd.name in {"agent", "pane", "advise", "exec", "help"}
    ensures Classify(WritLine(cmd)) == Single(cmd)
  {
    var l := WritLine(cmd);
    ActionHeads(l);
    if cmd.args != "" {
      PrefixFacts(Head(cmd.name), cmd.args);
    }
    NotWeb(l);
    NotRecord(l);
  }

  /** The line of a one-line command is classified as that command and nothing else. */
  lemma OneLineClassified(cmd: Command)
    requires OneLine(cmd)
    ensures Classify(WritLine(cmd)) == Single(cmd)
  {
    match cmd.name {
      case "fetch" | "search" | "browse" | "read" | "list" | "map" | "mcp" | "a2a" => WebWrit(cmd);
      case "todo" => TodoWrit(cmd);
      case "lesson" => LessonWrit(cmd);
      case "schedule" | "mem" => RecordWrit(cmd);
      case _ => ActionWrit(cmd);
    }
  }

  lemma OneLineShape(cmd: Command)
    requires OneLine(cmd)
    ensures
      var l := WritLine(cmd);
      NoNewline(l) && !IsFence(l) && TrimRight(l) == l
  {
    var l := WritLine(cmd);
    if cmd.args == "" {
      assert l in ["/list", "/map", "/help"];
    } else {
      SolidLine(Head(cmd.name), cmd.args);
    }
    assert l[0] == '/';
  }

  // ---- closed blocks ----

  function OpenerOf(cmd: Command): Opener {
    match cmd.name
    case "write" => Opener("write", cmd.args, "/endwrite", false)
    case "mem" => Opener("mem", cmd.args, "/endmem", false)
    case "todo" => Opener("todo", cmd.args, "/endtodo", false)
    case "lesson" => Opener("lesson", cmd.args, "/endlesson", false)
    case _ => Opener(cmd.name, cmd.args, "/endparallel", true)
  }

  predicate BodyLine(l: string, sentinel: string) {
    NoNewline(l) && StripCr(l) == l && l != sentinel
  }

  /** A command with its body and its sentinel; the two heads that look ahead also need a
      first body line that does not read as another writ. */
  ghost predicate ClosedBlock(cmd: Command, body: seq<string>) {
    && !cmd.truncated && cmd.content == Content(OpenerOf(cmd), body)
    && NoNewline(cmd.args) && Solid(cmd.args)
    && (forall i :: 0 <= i < |body| ==> BodyLine(body[i], OpenerOf(cmd).sentinel))
    && (|| (cmd.name == "write" && cmd.args != "")
        || (cmd.name == "mem" && Longer(cmd.args, "add entry"))
        || (cmd.name == "parallel" && cmd.args == "")
        || (cmd.name == "todo" && Longer(cmd.args, " add") && body != [] && !EndsLookAhead(body[0]))
        || (cmd.name == "lesson" && cmd.args != "" && !VerbFirst(cmd.args) && ':' !in cmd.args
            && body != [] && !EndsLookAhead(body[0])))
  }

  /** The body lines that carry a given content: it is cut at every newline. */
  function BodyOf(content: string): (body: seq<string>)
    ensures body != []
  {
    if content == "" then [""]
    else
      var more := BodyOf(content[1..]);
      if content[0] == '\n' then [""] + more else [[content[0]] + more[0]] + more[1..]
  }

  /** Every content, with or without newlines at its end, is the content of its body. */
  lemma {:induction false} ContentOfBody(content: string)
    ensures Glue(BodyOf(content)) == content + "\n"
    ensures DropNewline(Glue(BodyOf(content))) == content
  {
    if content == "" {
      assert [""][1..] == [];
    } else {
      ContentOfBody(content[1..]);
      GlueGrows(content[0], BodyOf(content[1..]));
      assert [content[0]] + (content[1..] + "\n") == content + "\n";
    }
    assert (content + "\n")[..|content|] == content;
  }

  /** One more character in front, as a line of its own if it is a newline. */
  lemma GlueGrows(c: char, body: seq<string>)
    requires body != []
    ensures Glue(if c == '\n' then [""] + body else [[c] + body[0]] + body[1..]) == [c] + Glue(body)
  {
    if c == '\n' {
      assert ([""] + body)[1..] == body;
      assert "" + "\n" + Glue(body) == [c] + Glue(body);
    } else {
      var l := [c] + body[0];
      assert ([l] + body[1..])[1..] == body[1..];
      assert l + "\n" + Glue(body[1..]) == [c] + (body[0] + "\n" + Glue(body[1..]));
    }
  }

  function HeadLine(cmd: Command): string {
    match cmd.name
    case "write" => "/write " + cmd.args
    case "mem" => "/mem " + cmd.args
    case "todo" => "/todo" + cmd.args
    case "lesson" => "/lesson " + cmd.args
    case _ => "/parallel"
  }

  lemma WriteHeadLine(l: string)
    requires Longer(l, "/write ") && TrimRight(l[7..]) == l[7..]
    ensures Classify(l) == Block(Opener("write", l[7..], "/endwrite", false))
  {
    NotWeb(l);
    NotRecord(l);
    ActionHeads(l);
  }

  lemma WriteHead(args: string)
    requires args != "" && Solid(args)
    ensures Classify("/write " + args) == Block(Opener("write", args, "/endwrite", false))
  {
    PrefixFacts("/write ", args);
    SolidLine("/write ", args);
    WriteHeadLine("/write " + args);
  }

  lemma MemHeadLine(l: string)
    requires Longer(l, "/mem add entry")
    ensures Classify(l) == Block(Opener("mem", l[5..], "/endmem", false))
  {
    NotWeb(l);
    OtherRecordHeads(l);
  }

  lemma MemHead(args: string)
    requires Longer(args, "add entry")
    ensures Classify("/mem " + args) == Block(Opener("mem", args, "/endmem", false))
  {
    PrefixFacts("/mem ", args);
    LongerBehind("/mem ", "add entry", args);
    assert "/mem " + "add entry" == "/mem add entry";
    MemHeadLine("/mem " + args);
  }

  lemma ParallelHead()
    ensures Classify("/parallel") == Block(Opener("parallel", "", "/endparallel", true))
  {
    NotWeb("/parallel");
    NotRecord("/parallel");
    ActionHeads("/parallel");
  }

  lemma TodoHead(args: string)
    requires Longer(args, " add")
    ensures Classify("/todo" + args) == Peek(Opener("todo", args, "/endtodo", false))
  {
    var l := "/todo" + args;
    PrefixFacts("/todo", args);
    LongerBehind("/todo", " add", args);
    assert "/todo" + " add" == "/todo add";
    NotWeb(l);
    TodoHeads(l);
  }

  lemma LessonHead(args: string)
    requires args != "" && !VerbFirst(args) && ':' !in args
    ensures Classify("/lesson " + args) == Peek(Opener("lesson", args, "/endlesson", false))
  {
    var l := "/lesson " + args;
    PrefixFacts("/lesson ", args);
    VerbsExactly(args);
    NotWeb(l);
    LessonHeads(l);
  }

  function HeadClass(cmd: Command): LineClass {
    if cmd.name in {"todo", "lesson"} then Peek(OpenerOf(cmd)) else LineClass.Block(OpenerOf(cmd))
  }

  lemma HeadClassified(cmd: Command, body: seq<string>)
    requires ClosedBlock(cmd, body)
    ensures Classify(HeadLine(cmd)) == HeadClass(cmd)
  {
    match cmd.name {
      case "write" => WriteHead(cmd.args);
      case "mem" => MemHead(cmd.args);
      case "parallel" => ParallelHead();
      case "todo" => TodoHead(cmd.args);
      case _ => LessonHead(cmd.args);
    }
  }

  lemma HeadOpens(cmd: Command, body: seq<string>, rest: seq<string>)
    requires ClosedBlock(cmd, body)
    ensures Opens(HeadClass(cmd), body + rest)
  {
    if body != [] {
      assert BodyLine(body[0], OpenerOf(cmd).sentinel);
      LookAheadExactly(body[0]);
    }
  }

  lemma HeadShape(cmd: Command, body: seq<string>)
    requires ClosedBlock(cmd, body)
    ensures
      var l := HeadLine(cmd);
      NoNewline(l) && !IsFence(l) && TrimRight(l) == l
  {
    var l := HeadLine(cmd);
    match cmd.name {
      case "write" => SolidLine("/write ", cmd.args);
      case "mem" => SolidLine("/mem ", cmd.args);
      case "todo" => SolidLine("/todo", cmd.args);
      case "lesson" => SolidLine("/lesson ", cmd.args);
      case _ =>
    }
    assert l[0] == '/';
  }

  lemma SentinelShape(cmd: Command)
    ensures var t := OpenerOf(cmd).sentinel; NoNewline(t) && StripCr(t) == t
  {
  }

  lemma {:induction false} CollectBody(body: seq<string>, sentinel: string, rest: seq<string>)
    requires forall i :: 0 <= i < |body| ==> BodyLine(body[i], sentinel)
    requires StripCr(sentinel) == sentinel
    ensures Collect(body + [sentinel] + rest, sentinel) == Collected(body, rest, true)
  {
    var all := body + [sentinel] + rest;
    if body == [] {
      assert all[1..] == rest;
    } else {
      CollectBody(body[1..], sentinel, rest);
      assert BodyLine(body[0], sentinel);
      assert all[1..] == body[1..] + [sentinel] + rest;
    }
  }

  lemma CollectedBlock(cmd: Command, body: seq<string>, rest: seq<string>)
    requires ClosedBlock(cmd, body)
    ensures Collect(body + [OpenerOf(cmd).sentinel] + rest, OpenerOf(cmd).sentinel) == Collected(body, rest, true)
    ensures BlockCommand(OpenerOf(cmd), Collected(body, rest, true)) == cmd
  {
    SentinelShape(cmd);
    CollectBody(body, OpenerOf(cmd).sentinel, rest);
  }

  // ---- heads that stay single lines ----

  /** A head that looks ahead for a body, here meant without one. */
  ghost predicate BareHead(cmd: Command) {
    && !cmd.truncated && cmd.content == "" && NoNewline(cmd.args) && Solid(cmd.args)
    && (|| (cmd.name == "todo" && Longer(cmd.args, " add"))
        || (cmd.name == "lesson" && cmd.args != "" && !VerbFirst(cmd.args) && ':' !in cmd.args))
  }

  lemma BareHeadShape(cmd: Command)
    requires BareHead(cmd)
    ensures
      var l := HeadLine(cmd);
      NoNewline(l) && !IsFence(l) && TrimRight(l) == l && Classify(l) == Peek(OpenerOf(cmd))
  {
    var l := HeadLine(cmd);
    if cmd.name == "todo" {
      SolidLine("/todo", cmd.args);
      TodoHead(cmd.args);
    } else {
      SolidLine("/lesson ", cmd.args);
      LessonHead(cmd.args);
    }
    assert l[0] == '/';
  }

  /** The look-ahead finds no body and is taken back. */
  lemma ParseBareHead(cmd: Command, rest: seq<string>)
    requires BareHead(cmd) && (rest == [] || EndsLookAhead(StripCr(rest[0])))
    ensures Parse([HeadLine(cmd)] + rest, "") == [cmd] + Parse(rest, "")
  {
    BareHeadShape(cmd);
    if rest != [] { LookAheadExactly(StripCr(rest[0])); }
    ParseHead(HeadLine(cmd), rest, Peek(OpenerOf(cmd)));
  }

  // ---- documents ----

  datatype Item =
    | Plain(line: string)
    | Fenced(mark: string, info: string, lines: seq<string>, tail: string)
    | Writ(cmd: Command)
    | Bare(cmd: Command)
    | Closed(cmd: Command, body: seq<string>)

  ghost predicate WellFormed(it: Item) {
    match it
    case Plain(l) => NoNewline(l) && !IsFence(l) && Classify(TrimRight(l)) == Prose
    case Fenced(mark, info, lines, tail) =>
      && (mark == "```" || mark == "~~~") && NoNewline(info) && NoNewline(tail)
      && forall i :: 0 <= i < |lines| ==> NoNewline(lines[i]) && !Starts(lines[i], mark)
    case Writ(cmd) => OneLine(cmd)
    case Bare(cmd) => BareHead(cmd)
    case Closed(cmd, body) => ClosedBlock(cmd, body)
  }

  function ItemLines(it: Item): (ls: seq<string>)
    ensures ls != []
  {
    match it
    case Plain(l) => [l]
    case Fenced(mark, info, lines, tail) => [mark + info] + lines + [mark + tail]
    case Writ(cmd) => [WritLine(cmd)]
    case Bare(cmd) => [HeadLine(cmd)]
    case Closed(cmd, body) => [HeadLine(cmd)] + body + [OpenerOf(cmd).sentinel]
  }

  function Rendered(items: seq<Item>): seq<string> {
    if items == [] then [] else ItemLines(items[0]) + Rendered(items[1..])
  }

  /** The document as text: every line ends in a newline. */
  function Render(items: seq<Item>): string {
    Glue(Rendered(items))
  }

  function CommandOf(it: Item): seq<Command> {
    match it
    case Writ(cmd) => [cmd]
    case Bare(cmd) => [cmd]
    case Closed(cmd, _) => [cmd]
    case _ => []
  }

  function Commands(items: seq<Item>): seq<Command> {
    if items == [] then [] else CommandOf(items[0]) + Commands(items[1..])
  }

  lemma ThreeStart(l: string, mark: string)
    requires |l| >= 3 && |mark| == 3
    ensures Starts(l, mark) <==> l[..3] == mark
  {
    assert forall i :: 0 <= i < 3 ==> l[i] == l[..3][i];
  }

  /** Inside a fence nothing counts, not even the other fence marker. */
  lemma {:induction false} ParseFenced(mark: string, lines: seq<string>, tail: string, rest: seq<string>)
    requires mark == "```" || mark == "~~~"
    requires forall i :: 0 <= i < |lines| ==> !Starts(lines[i], mark)
    ensures Parse(lines + [mark + tail] + rest, mark) == Parse(rest, "")
    decreases |lines|
  {
    var all := lines + [mark + tail] + rest;
    if lines == [] {
      PrefixFacts(mark, tail);
      assert all[1..] == rest && all[0][..3] == mark;
    } else {
      ParseFenced(mark, lines[1..], tail, rest);
      assert all[1..] == lines[1..] + [mark + tail] + rest;
      var l := all[0];
      assert l == lines[0];
      if IsFence(l) {
        ThreeStart(l, mark);
      }
    }
  }

  /** The main loop at an ordinary line of class `k`. */
  lemma ParseHead(l: string, rest: seq<string>, k: LineClass)
    requires !IsFence(l) && Classify(TrimRight(l)) == k
    ensures
      var st := AfterHead(k, rest);
      Parse([l] + rest, "") == st.out + Parse(st.rest, st.fence)
  {
    assert ([l] + rest)[1..] == rest;
  }

  // ---- text ----

  /** A line that does not begin with a slash and a command word. */
  predicate Text(l: string) {
    !CommandLine(TrimRight(l))
  }

  lemma {:induction false} TrimmedStarts(l: string)
    ensures TrimRight(l) <= l
  {
    if l != [] && (l[|l| - 1] == ' ' || l[|l| - 1] == '\r') { TrimmedStarts(l[..|l| - 1]); }
  }

  /** Lines without a slash, and paths whose first letter begins no command word, are text. */
  lemma PlainLinesAreText(l: string)
    requires l != "" && l[0] == '/' ==> |l| == 1 || l[1] !in "taepwrlmsfbh"
    ensures Text(l)
  {
    TrimmedStarts(l);
    PathsAreText(TrimRight(l));
  }

  lemma TextIsProse(l: string)
    requires Text(l)
    ensures Classify(TrimRight(l)) == Prose
    ensures NoNewline(l) && !IsFence(l) ==> WellFormed(Plain(l))
  {
    OnlyCommandLines(TrimRight(l));
  }

  /** No command is ever read out of lines that do not begin with a slash and a command word,
      fenced or not. */
  lemma {:induction false} TextHasNoCommands(lines: seq<string>, fence: string)
    requires forall i :: 0 <= i < |lines| ==> Text(lines[i])
    ensures Parse(lines, fence) == []
    decreases |lines|
  {
    if lines != [] {
      TextIsProse(lines[0]);
      var st := TopStep(lines, fence);
      assert st.out == [] && st.rest == lines[1..];
      TextHasNoCommands(st.rest, st.fence);
    }
  }

  lemma ParsePlain(it: Item, rest: seq<string>)
    requires WellFormed(it) && (it.Plain? || it.Writ?)
    ensures Parse(ItemLines(it) + rest, "") == CommandOf(it) + Parse(rest, "")
  {
    if it.Writ? {
      OneLineShape(it.cmd);
      OneLineClassified(it.cmd);
      ParseHead(WritLine(it.cmd), rest, Single(it.cmd));
    } else {
      ParseHead(it.line, rest, Prose);
    }
  }

  lemma ParseFence(it: Item, rest: seq<string>)
    requires WellFormed(it) && it.Fenced?
    ensures Parse(ItemLines(it) + rest, "") == CommandOf(it) + Parse(rest, "")
  {
    var all := ItemLines(it) + rest;
    PrefixFacts(it.mark, it.info);
    assert all[0][..3] == it.mark;
    assert all[1..] == it.lines + [it.mark + it.tail] + rest;
    ParseFenced(it.mark, it.lines, it.tail, rest);
  }

  lemma ParseBlock(l: string, body: seq<string>, rest: seq<string>, k: LineClass, cmd: Command)
    requires !IsFence(l) && TrimRight(l) == l && Classify(l) == k && (k.Block? || k.Peek?)
    requires
      var behind := body + [k.opener.sentinel] + rest;
      && Opens(k, behind)
      && Collect(behind, k.opener.sentinel) == Collected(body, rest, true)
    requires BlockCommand(k.opener, Collected(body, rest, true)) == cmd
    ensures Parse([l] + body + [k.opener.sentinel] + rest, "") == [cmd] + Parse(rest, "")
  {
    var behind := body + [k.opener.sentinel] + rest;
    ParseHead(l, behind, k);
    assert [l] + body + [k.opener.sentinel] + rest == [l] + behind;
  }

  lemma ParseClosed(it: Item, rest: seq<string>)
    requires WellFormed(it) && it.Closed?
    ensures Parse(ItemLines(it) + rest, "") == CommandOf(it) + Parse(rest, "")
  {
    var (cmd, body) := (it.cmd, it.body);
    var t := OpenerOf(cmd).sentinel;
    HeadShape(cmd, body);
    HeadClassified(cmd, body);
    HeadOpens(cmd, body, [t] + rest);
    assert body + ([t] + rest) == body + [t] + rest;
    CollectedBlock(cmd, body, rest);
    ParseBlock(HeadLine(cmd), body, rest, HeadClass(cmd), cmd);
  }

  /** A bare head is the last item, or the line behind it is blank or another writ. */
  predicate StaysBare(it: Item, rest: seq<string>) {
    it.Bare? ==> rest == [] || EndsLookAhead(StripCr(rest[0]))
  }

  /** A writ of any kind behind a bare head is enough. */
  lemma WritEndsLookAhead(it: Item)
    requires WellFormed(it) && (it.Writ? || it.Bare? || it.Closed?)
    ensures EndsLookAhead(StripCr(ItemLines(it)[0]))
  {
    var l := ItemLines(it)[0];
    match it {
      case Writ(cmd) =>
        OneLineShape(cmd);
        OneLineClassified(cmd);
      case Bare(cmd) => BareHeadShape(cmd);
      case Closed(cmd, body) =>
        HeadShape(cmd, body);
        HeadClassified(cmd, body);
    }
    TrimmedHasNoCr(l);
    if CommandLine(l) { CommandLineIsWritLike(l); } else { OnlyCommandLines(l); }
  }

  lemma TrimmedHasNoCr(l: string)
    requires TrimRight(l) == l
    ensures StripCr(l) == l
  {
    if l != [] {
      TrimShortens(l[..|l| - 1]);
    }
  }

  lemma {:induction false} TrimShortens(l: string)
    ensures |TrimRight(l)| <= |l|
  {
    if l != [] {
      TrimShortens(l[..|l| - 1]);
    }
  }

  lemma ParseItem(it: Item, rest: seq<string>)
    requires WellFormed(it) && StaysBare(it, rest)
    ensures Parse(ItemLines(it) + rest, "") == CommandOf(it) + Parse(rest, "")
  {
    match it {
      case Fenced(_, _, _, _) => ParseFence(it, rest);
      case Closed(_, _) => ParseClosed(it, rest);
      case Bare(cmd) => ParseBareHead(cmd, rest);
      case _ => ParsePlain(it, rest);
    }
  }

  ghost predicate AllWellFormed(items: seq<Item>) {
    && (forall i :: 0 <= i < |items| ==> WellFormed(items[i]))
    && (forall i :: 0 <= i < |items| - 1 ==> StaysBare(items[i], ItemLines(items[i + 1])))
  }

  lemma RestWellFormed(items: seq<Item>)
    requires items != [] && AllWellFormed(items)
    ensures AllWellFormed(items[1..]) && WellFormed(items[0]) && StaysBare(items[0], Rendered(items[1..]))
  {
    var more := items[1..];
    forall i | 0 <= i < |more| - 1 ensures StaysBare(more[i], ItemLines(more[i + 1])) {
      assert StaysBare(items[i + 1], ItemLines(items[i + 2]));
    }
    if more != [] {
      assert StaysBare(items[0], ItemLines(items[1]));
      assert Rendered(more)[0] == ItemLines(items[1])[0];
    }
  }

  predicate ParsesTo(lines: seq<string>, cmds: seq<Command>) {
    Parse(lines, "") == cmds
  }

  lemma {:induction false} ParseRendered(items: seq<Item>)
    requires AllWellFormed(items)
    ensures ParsesTo(Rendered(items), Commands(items))
  {
    if items != [] {
      RestWellFormed(items);
      ParseRendered(items[1..]);
      ParseItem(items[0], Rendered(items[1..]));
    }
  }

  // ---- text and lines ----

  lemma {:induction false} LineEndIs(s: string, pos: nat, e: nat)
    requires pos <= e <= |s| && (forall i :: pos <= i < e ==> s[i] != '\n') && (e < |s| ==> s[e] == '\n')
    ensures LineEnd(s, pos) == e
    decreases e - pos
  {
    if pos < e { LineEndIs(s, pos + 1, e); }
  }

  lemma FirstOfGlue(s: string, pos: nat, l: string, rest: string)
    requires pos <= |s| && s[pos..] == l + "\n" + rest && NoNewline(l)
    ensures
      var e := pos + |l|;
      e < |s| && LinesFrom(s, pos) == [l] + LinesFrom(s, e + 1) && s[e + 1..] == rest
  {
    var (t, e) := (s[pos..], pos + |l|);
    forall i | pos <= i < e ensures s[i] == l[i - pos] { assert s[i] == t[i - pos]; }
    assert s[e] == t[|l|];
    LineEndIs(s, pos, e);
    assert s[pos..e] == l && s[e + 1..] == t[|l| + 1..];
  }

  /** Text made of newline-terminated lines splits back into those lines. */
  lemma {:induction false} LinesOfGlue(s: string, pos: nat, lines: seq<string>)
    requires pos <= |s| && s[pos..] == Glue(lines)
    requires forall i :: 0 <= i < |lines| ==> NoNewline(lines[i])
    ensures LinesFrom(s, pos) == lines
    decreases |lines|
  {
    if lines != [] {
      var (l, more) := (lines[0], lines[1..]);
      FirstOfGlue(s, pos, l, Glue(more));
      LinesOfGlue(s, pos + |l| + 1, more);
      assert lines == [l] + more;
    }
  }

  lemma ClosedNoNewline(cmd: Command, body: seq<string>)
    requires ClosedBlock(cmd, body)
    ensures
      var ls := [HeadLine(cmd)] + body + [OpenerOf(cmd).sentinel];
      forall i :: 0 <= i < |ls| ==> NoNewline(ls[i])
  {
    HeadShape(cmd, body);
    SentinelShape(cmd);
    assert forall i :: 0 <= i < |body| ==> BodyLine(body[i], OpenerOf(cmd).sentinel);
  }

  lemma ItemNoNewline(it: Item)
    requires WellFormed(it)
    ensures forall i :: 0 <= i < |ItemLines(it)| ==> NoNewline(ItemLines(it)[i])
  {
    match it {
      case Writ(cmd) => OneLineShape(cmd);
      case Bare(cmd) => BareHeadShape(cmd);
      case Closed(cmd, body) => ClosedNoNewline(cmd, body);
      case _ =>
    }
  }

  lemma {:induction false} RenderedNoNewline(items: seq<Item>)
    requires AllWellFormed(items)
    ensures forall i :: 0 <= i < |Rendered(items)| ==> NoNewline(Rendered(items)[i])
  {
    if items != [] {
      RestWellFormed(items);
      ItemNoNewline(items[0]);
      RenderedNoNewline(items[1..]);
    }
  }

  /** Parsing a rendered document returns exactly its commands, in order: fence markers in
      a block body stay body, writs inside a top-level fence yield nothing, and a head that
      looks ahead for a body stays a single line in front of a blank line or another writ. */
  lemma RoundTrip(items: seq<Item>)
    requires AllWellFormed(items)
    ensures ParsesTo(Lines(Render(items)), Commands(items))
  {
    LinesOfRender(items);
    ParseRendered(items);
  }

  lemma LinesOfRender(items: seq<Item>)
    requires AllWellFormed(items)
    ensures Lines(Render(items)) == Rendered(items)
  {
    RenderedNoNewline(items);
    LinesOfGlue(Render(items), 0, Rendered(items));
  }
}
