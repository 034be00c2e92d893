/** The writ parser: slash commands in an agent's reply, outside code fences, with
    sentinel-closed blocks. The specification works on the reply's lines; the parser reads
    the characters as a stream that it can rewind. */
module WritParser {

  datatype Command = Command(name: string, args: string, content: string, truncated: bool)

  // ---- lines ----

  /** Position of the next newline at or after `pos`, or the end. */
  function LineEnd(s: string, pos: nat): (e: nat)
    requires pos <= |s|
    ensures pos <= e <= |s|
    ensures '\n' !in s[pos..e] && (e < |s| ==> s[e] == '\n')
    decreases |s| - pos
  {
    if pos == |s| || s[pos] == '\n' then pos
    else
      var e := LineEnd(s, pos + 1);
      assert s[pos..e] == [s[pos]] + s[pos + 1..e];
      e
  }

  /** Where reading goes on after a line that ended at `e`. */
  function Beyond(s: string, e: nat): nat {
    if e < |s| then e + 1 else e
  }

  /** The lines of `s` from `pos` on; a final newline does not start another line. */
  function LinesFrom(s: string, pos: nat): seq<string>
    requires pos <= |s|
    decreases |s| - pos
  {
    if pos == |s| then []
    else
      var e := LineEnd(s, pos);
      [s[pos..e]] + LinesFrom(s, Beyond(s, e))
  }

  function Lines(s: string): seq<string> {
    LinesFrom(s, 0)
  }

  function TrimRight(l: string): string {
    if l != [] && (l[|l| - 1] == ' ' || l[|l| - 1] == '\r') then TrimRight(l[..|l| - 1]) else l
  }

  function TrimLeft(l: string): string {
    if l != [] && (l[0] == ' ' || l[0] == '\t') then TrimLeft(l[1..]) else l
  }

  /** A line inside a block loses one carriage return at its end. */
  function StripCr(l: string): string {
    if l != [] && l[|l| - 1] == '\r' then l[..|l| - 1] else l
  }

  predicate Starts(l: string, p: string) {
    |p| <= |l| && forall i :: 0 <= i < |p| ==> l[i] == p[i]
  }

  predicate Longer(l: string, p: string) {
    |p| < |l| && Starts(l, p)
  }

  predicate IsSpace(c: char) {
    c == ' ' || '\t' <= c <= '\r'
  }

  /** What `iss >> word` reads: the first run of non-space characters. */
  function FirstToken(s: string): string {
    if s == [] then []
    else if IsSpace(s[0]) then FirstToken(s[1..])
    else Word(s)
  }

  function Word(s: string): string {
    if s == [] || IsSpace(s[0]) then [] else [s[0]] + Word(s[1..])
  }

  // ---- one line ----

  /** A block's head: the command it opens, and the line that closes it. Only /parallel
      keeps the newline after its last body line. */
  datatype Opener = Opener(name: string, args: string, sentinel: string, keepsNewline: bool)

  datatype LineClass =
    | Prose
    | Single(cmd: Command)
    | Block(opener: Opener)
    | Peek(opener: Opener)

  function Simple(name: string, args: string): LineClass {
    Single(Command(name, args, "", false))
  }

  predicate SubVerb(w: string) {
    w == "list" || w == "search" || w == "delete"
  }

  function ClassifyWeb(l: string): LineClass {
    if Longer(l, "/fetch ") then Simple("fetch", l[7..])
    else if Longer(l, "/search ") then Simple("search", l[8..])
    else if Longer(l, "/browse ") then Simple("browse", l[8..])
    else if Longer(l, "/read ") then Simple("read", l[6..])
    else if l == "/list" then Simple("list", "")
    else if l == "/map" || Longer(l, "/map ") then Simple("map", if |l| > 5 then TrimLeft(l[5..]) else "")
    else if Longer(l, "/mcp ") then Simple("mcp", l[5..])
    else if Longer(l, "/a2a ") then Simple("a2a", l[5..])
    else Prose
  }

  function ClassifyRecords(l: string): LineClass {
    if l == "/todo list" then Simple("todo", "list")
    else if Longer(l, "/todo add") then Peek(Opener("todo", l[5..], "/endtodo", false))
    else if Longer(l, "/todo ") then Simple("todo", l[6..])
    else if l == "/lesson list" then Simple("lesson", "list")
    else if Longer(l, "/lesson ") then
      if SubVerb(FirstToken(l[8..])) || ':' in l[8..] then Simple("lesson", l[8..])
      else Peek(Opener("lesson", l[8..], "/endlesson", false))
    else if l == "/schedule list" then Simple("schedule", "list")
    else if Longer(l, "/schedule ") then Simple("schedule", l[10..])
    else if Longer(l, "/mem add entry") then Block(Opener("mem", l[5..], "/endmem", false))
    else if Longer(l, "/mem ") then Simple("mem", l[5..])
    else Prose
  }

  function ClassifyActions(l: string): LineClass {
    if Longer(l, "/agent ") then Simple("agent", l[7..])
    else if l == "/parallel" then Block(Opener("parallel", "", "/endparallel", true))
    else if Longer(l, "/pane ") then Simple("pane", l[6..])
    else if Longer(l, "/advise ") then Simple("advise", l[8..])
    else if Longer(l, "/exec ") then Simple("exec", l[6..])
    else if l == "/help" || Starts(l, "/help ") then Simple("help", if |l| > 6 then l[6..] else "")
    else if Longer(l, "/write ") && TrimRight(l[7..]) != "" then
      Block(Opener("write", TrimRight(l[7..]), "/endwrite", false))
    else Prose
  }

  /** What a line outside fences and blocks is, once its trailing blanks are gone. */
  function Classify(l: string): LineClass {
    var web := ClassifyWeb(l);
    if web != Prose then web
    else
      var rec := ClassifyRecords(l);
      if rec != Prose then rec else ClassifyActions(l)
  }

  const WRIT_PREFIXES: seq<string> := [
    "/todo", "/endtodo", "/agent ", "/parallel", "/endparallel", "/pane ", "/write", "/endwrite",
    "/read ", "/list", "/map", "/search ", "/fetch ", "/browse ", "/exec ", "/mem", "/endmem",
    "/mcp ", "/a2a", "/schedule", "/lesson", "/endlesson", "/advise", "/help"]

  predicate MatchesWrit(l: string, p: string) {
    Starts(l, p) || (p != [] && p[|p| - 1] == ' ' && l == p[..|p| - 1])
  }

  predicate StartsWithWrit(l: string) {
    exists i :: 0 <= i < |WRIT_PREFIXES| && MatchesWrit(l, WRIT_PREFIXES[i])
  }

  /** The line after a peeking head that turns it back into a single-line writ. */
  predicate Bails(next: string) {
    next == "" || StartsWithWrit(next)
  }

  // ---- blocks ----

  datatype Collected = Collected(body: seq<string>, rest: seq<string>, closed: bool)

  /** Read body lines up to the sentinel, or to the end of input. */
  function Collect(lines: seq<string>, sentinel: string): (c: Collected)
    ensures |c.rest| <= |lines| && (!c.closed ==> c.rest == [])
    ensures c.closed ==> |c.rest| < |lines|
  {
    if lines == [] then Collected([], [], false)
    else
      var l := StripCr(lines[0]);
      if l == sentinel then Collected([], lines[1..], true)
      else
        var c := Collect(lines[1..], sentinel);
        c.(body := [l] + c.body)
  }

  /** Each body line with a newline behind it. */
  function Glue(body: seq<string>): string {
    if body == [] then "" else body[0] + "\n" + Glue(body[1..])
  }

  function DropNewline(s: string): string {
    if s != [] && s[|s| - 1] == '\n' then s[..|s| - 1] else s
  }

  function Content(o: Opener, body: seq<string>): string {
    if o.keepsNewline then Glue(body) else DropNewline(Glue(body))
  }

  function BlockCommand(o: Opener, c: Collected): Command {
    Command(o.name, o.args, Content(o, c.body), !c.closed)
  }

  // ---- the whole reply ----

  predicate IsFence(l: string) {
    Starts(l, "```") || Starts(l, "~~~")
  }

  /** A fence line opens, closes on the same marker, and otherwise changes nothing. */
  function AfterFence(fence: string, l: string): string
    requires IsFence(l)
  {
    if fence == "" then l[..3] else if fence == l[..3] then "" else fence
  }

  /** Does the head really open a block with these lines behind it? */
  predicate Opens(k: LineClass, rest: seq<string>) {
    k.Block? || (k.Peek? && rest != [] && !Bails(StripCr(rest[0])))
  }

  datatype Stepped = Stepped(out: seq<Command>, rest: seq<string>, fence: string)

  /** What a line outside fences does, given its class and the lines behind it. */
  function AfterHead(k: LineClass, rest: seq<string>): (st: Stepped)
    ensures |st.rest| <= |rest|
  {
    if Opens(k, rest) then
      var c := Collect(rest, k.opener.sentinel);
      Stepped([BlockCommand(k.opener, c)], c.rest, "")
    else match k
      case Prose => Stepped([], rest, "")
      case Single(cmd) => Stepped([cmd], rest, "")
      case Peek(o) => Stepped([Command(o.name, o.args, "", false)], rest, "")
  }

  /** One round of the main loop: it consumes a line, or a whole block. */
  function TopStep(lines: seq<string>, fence: string): (st: Stepped)
    requires lines != []
    ensures |st.rest| < |lines|
  {
    var (l, rest) := (lines[0], lines[1..]);
    if IsFence(l) then Stepped([], rest, AfterFence(fence, l))
    else if fence != "" then Stepped([], rest, fence)
    else AfterHead(Classify(TrimRight(l)), rest)
  }

  function Parse(lines: seq<string>, fence: string): seq<Command>
    decreases |lines|
  {
    if lines == [] then []
    else
      var st := TopStep(lines, fence);
      st.out + Parse(st.rest, st.fence)
  }

  // ---- the parser ----

  method GetLine(s: string, pos: nat) returns (line: string, next: nat)
    requires pos < |s|
    ensures next == Beyond(s, LineEnd(s, pos)) && pos < next <= |s|
    ensures LinesFrom(s, pos) == [line] + LinesFrom(s, next)
  {
    var e := pos;
    while e < |s| && s[e] != '\n'
      invariant pos <= e <= |s|
      invariant LineEnd(s, pos) == LineEnd(s, e)
    {
      e := e + 1;
    }
    line := s[pos..e];
    next := Beyond(s, e);
  }

  /** `c` is what is collected in all; `body` has been read and `d` is still to come. */
  predicate ReadSoFar(c: Collected, body: string, d: Collected) {
    Glue(c.body) == body + Glue(d.body) && c.rest == d.rest && c.closed == d.closed
  }

  lemma ReadOneLine(c: Collected, body: string, lines: seq<string>, sentinel: string)
    requires lines != [] && ReadSoFar(c, body, Collect(lines, sentinel))
    ensures
      var l := StripCr(lines[0]);
      if l == sentinel then body == Glue(c.body) && c.rest == lines[1..] && c.closed
      else ReadSoFar(c, body + l + "\n", Collect(lines[1..], sentinel))
  {
    var l := StripCr(lines[0]);
    if l == sentinel {
      assert body + "" == body;
    } else {
      var d := Collect(lines[1..], sentinel);
      assert ([l] + d.body)[1..] == d.body;
      assert body + (l + "\n" + Glue(d.body)) == (body + l + "\n") + Glue(d.body);
    }
  }

  method ReadBody(s: string, start: nat, sentinel: string) returns (body: string, next: nat, closed: bool)
    requires start <= |s|
    ensures start <= next <= |s|
    ensures
      var c := Collect(LinesFrom(s, start), sentinel);
      body == Glue(c.body) && LinesFrom(s, next) == c.rest && closed == c.closed
  {
    ghost var c := Collect(LinesFrom(s, start), sentinel);
    body, next := "", start;
    while next < |s|
      invariant start <= next <= |s|
      invariant ReadSoFar(c, body, Collect(LinesFrom(s, next), sentinel))
    {
      ghost var lines := LinesFrom(s, next);
      ReadOneLine(c, body, lines, sentinel);
      var line;
      line, next := GetLine(s, next);
      assert lines[1..] == LinesFrom(s, next);
      line := StripCr(line);
      if line == sentinel {
        return body, next, true;
      }
      body := body + line + "\n";
    }
    closed := false;
    assert body + "" == body;
  }

  /** Read the block `o` opens at `pos`. */
  method ReadBlock(s: string, pos: nat, o: Opener) returns (cmd: Command, next: nat)
    requires pos <= |s|
    ensures pos <= next <= |s|
    ensures
      var c := Collect(LinesFrom(s, pos), o.sentinel);
      cmd == BlockCommand(o, c) && LinesFrom(s, next) == c.rest
  {
    var body, closed;
    body, next, closed := ReadBody(s, pos, o.sentinel);
    cmd := Command(o.name, o.args, if o.keepsNewline then body else DropNewline(body), !closed);
  }

  /** Look at the line at `pos` without consuming it: is it a body line? */
  method PeekBody(s: string, pos: nat) returns (any: bool)
    requires pos <= |s|
    ensures any <==> LinesFrom(s, pos) != [] && !Bails(StripCr(LinesFrom(s, pos)[0]))
  {
    any := false;
    if pos < |s| {
      var first, _ := GetLine(s, pos);
      any := !Bails(StripCr(first));
    }
  }

  /** A line outside fences, and whatever block it opens. */
  method ReadWrit(s: string, line: string, pos: nat) returns (out: seq<Command>, next: nat)
    requires pos <= |s| && !IsFence(line)
    ensures pos <= next <= |s|
    ensures TopStep([line] + LinesFrom(s, pos), "") == Stepped(out, LinesFrom(s, next), "")
  {
    out, next := [], pos;
    var k := Classify(TrimRight(line));
    var opens := k.Block?;
    if k.Peek? { opens := PeekBody(s, pos); }
    assert ([line] + LinesFrom(s, pos))[1..] == LinesFrom(s, pos);
    if opens {
      var cmd;
      cmd, next := ReadBlock(s, pos, k.opener);
      out := [cmd];
    } else if k.Single? {
      out := [k.cmd];
    } else if k.Peek? {
      out := [Command(k.opener.name, k.opener.args, "", false)];
    }
  }

  /** One round of the main loop. */
  method ReadRound(s: string, pos: nat, fence: string) returns (out: seq<Command>, next: nat, fence': string)
    requires pos < |s|
    ensures pos < next <= |s|
    ensures TopStep(LinesFrom(s, pos), fence) == Stepped(out, LinesFrom(s, next), fence')
  {
    var line;
    line, next := GetLine(s, pos);
    assert LinesFrom(s, pos)[1..] == LinesFrom(s, next);
    out, fence' := [], fence;
    if IsFence(line) {
      if fence == "" {
        fence' := line[..3];
      } else if fence == line[..3] {
        fence' := "";
      }
    } else if fence == "" {
      out, next := ReadWrit(s, line, next);
    }
  }

  lemma ParseRound(result: seq<Command>, lines: seq<string>, fence: string)
    requires lines != []
    ensures
      var st := TopStep(lines, fence);
      result + Parse(lines, fence) == (result + st.out) + Parse(st.rest, st.fence)
  {
    var st := TopStep(lines, fence);
    assert result + (st.out + Parse(st.rest, st.fence)) == (result + st.out) + Parse(st.rest, st.fence);
  }

  method ParseAgentCommands(response: string) returns (result: seq<Command>)
    ensures result == Parse(Lines(response), "")
  {
    result := [];
    var pos, fence := 0, "";
    while pos < |response|
      invariant pos <= |response|
      invariant result + Parse(LinesFrom(response, pos), fence) == Parse(Lines(response), "")
    {
      ParseRound(result, LinesFrom(response, pos), fence);
      var out;
      out, pos, fence := ReadRound(response, pos, fence);
      result := result + out;
    }
    assert result + [] == result;
  }
}
