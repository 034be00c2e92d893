/** The line splitter of a streamed reply. Bytes arrive in segments cut anywhere; what is
    processed depends on their concatenation alone. */
module StreamLines {
  const MAX_LINE: nat := 1048576

  // ---- splitting a whole text ----

  predicate OneLine(l: string) { '\n' !in l }

  function Unsplit(lines: seq<string>, residue: string): string {
    if lines == [] then residue else lines[0] + "\n" + Unsplit(lines[1..], residue)
  }

  /** `s` is `lines`, each closed by a newline, followed by an unfinished `residue`. */
  ghost predicate IsSplit(s: string, lines: seq<string>, residue: string) {
    && s == Unsplit(lines, residue)
    && (forall i :: 0 <= i < |lines| ==> OneLine(lines[i]))
    && OneLine(residue)
  }

  lemma HasNewline(lines: seq<string>, residue: string)
    requires OneLine(residue)
    ensures '\n' in Unsplit(lines, residue) <==> lines != []
  {
    if lines != [] {
      assert Unsplit(lines, residue)[|lines[0]|] == '\n';
    }
  }

  lemma {:induction false} SplitUnique(lines: seq<string>, residue: string, lines': seq<string>, residue': string)
    requires Unsplit(lines, residue) == Unsplit(lines', residue')
    requires OneLine(residue) && OneLine(residue')
    requires forall i :: 0 <= i < |lines| ==> OneLine(lines[i])
    requires forall i :: 0 <= i < |lines'| ==> OneLine(lines'[i])
    ensures lines == lines' && residue == residue'
  {
    HasNewline(lines, residue);
    HasNewline(lines', residue');
    if lines != [] {
      var s := Unsplit(lines, residue);
      var (l, l') := (lines[0], lines'[0]);
      assert s[|l|] == '\n' && s[|l'|] == '\n';
      assert forall i :: 0 <= i < |l| ==> s[i] == l[i] && l[i] != '\n';
      assert forall i :: 0 <= i < |l'| ==> s[i] == l'[i] && l'[i] != '\n';
      assert |l| == |l'| && s[..|l|] == l == l';
      assert s[|l| + 1..] == Unsplit(lines[1..], residue) == Unsplit(lines'[1..], residue');
      SplitUnique(lines[1..], residue, lines'[1..], residue');
      assert lines == [l] + lines[1..] && lines' == [l'] + lines'[1..];
    }
  }

  lemma {:induction false} UnsplitGrows(lines: seq<string>, residue: string, x: string)
    ensures Unsplit(lines, residue + x) == Unsplit(lines, residue) + x
  {
    if lines != [] {
      UnsplitGrows(lines[1..], residue, x);
    }
  }

  lemma {:induction false} UnsplitCloses(lines: seq<string>, residue: string)
    ensures Unsplit(lines + [residue], "") == Unsplit(lines, residue) + "\n"
  {
    if lines == [] {
      assert [residue][1..] == [];
    } else {
      UnsplitCloses(lines[1..], residue);
      assert (lines + [residue])[1..] == lines[1..] + [residue];
    }
  }

  lemma SplitGrows(s: string, lines: seq<string>, residue: string, x: string)
    requires IsSplit(s, lines, residue) && OneLine(x)
    ensures IsSplit(s + x, lines, residue + x)
    ensures IsSplit(s + x + "\n", lines + [residue + x], "")
  {
    UnsplitGrows(lines, residue, x);
    UnsplitCloses(lines, residue + x);
  }

  /** Every text splits, and by the lemma above in one way only. */
  lemma {:induction false} SplitExists(s: string) returns (lines: seq<string>, residue: string)
    ensures IsSplit(s, lines, residue)
  {
    if s == [] {
      lines, residue := [], "";
    } else {
      var (front, last) := (s[..|s| - 1], s[|s| - 1]);
      lines, residue := SplitExists(front);
      assert s == front + [last];
      if last == '\n' {
        SplitGrows(front, lines, residue, "");
        assert front + "" == front;
        lines, residue := lines + [residue + ""], "";
      } else {
        SplitGrows(front, lines, residue, [last]);
        residue := residue + [last];
      }
    }
  }

  // ---- truncation ----

  function Truncated(l: string): string {
    if |l| <= 1048576 then l else l[..1048576]
  }

  function AllTruncated(lines: seq<string>): seq<string> {
    seq(|lines|, i requires 0 <= i < |lines| => Truncated(lines[i]))
  }

  /** Appending under the limit and truncating at the end are the same. */
  lemma TruncatedGrows(l: string, x: string)
    ensures Truncated(l + x) ==
            if |Truncated(l)| < MAX_LINE
            then Truncated(l) + x[..if |x| > MAX_LINE - |l| then MAX_LINE - |l| else |x|]
            else Truncated(l)
  {
    if |l| >= MAX_LINE {
      assert (l + x)[..MAX_LINE] == l[..MAX_LINE];
    } else if |l + x| > MAX_LINE {
      assert (l + x)[..MAX_LINE] == l + x[..MAX_LINE - |l|];
    } else {
      assert x[..|x|] == x;
    }
  }

  // ---- events ----

  /** The payload of a `data: ` line, without a trailing carriage return. */
  function Payload(line: string): seq<string> {
    if |line| > 6 && line[..6] == "data: " then
      [if line[|line| - 1] == '\r' then line[6..|line| - 1] else line[6..]]
    else []
  }

  function Payloads(lines: seq<string>): seq<string> {
    if lines == [] then [] else Payloads(lines[..|lines| - 1]) + Payload(lines[|lines| - 1])
  }

  /** The lines handed on for a text split into `lines` and `residue`. */
  function Processed(lines: seq<string>, residue: string): seq<string> {
    AllTruncated(lines) + if residue != "" then [Truncated(residue)] else []
  }

  // ---- the splitter ----

  method NextNewline(data: string, start: nat) returns (i: nat)
    requires start <= |data|
    ensures start <= i <= |data| && OneLine(data[start..i]) && (i < |data| ==> data[i] == '\n')
  {
    i := start;
    while i < |data| && data[i] != '\n'
      invariant start <= i <= |data| && OneLine(data[start..i])
    {
      i := i + 1;
    }
  }

  lemma Carve(f: string, data: string, i: nat, j: nat)
    requires i <= j <= |data|
    ensures f + data[i..] == f + data[i..j] + data[j..]
    ensures j < |data| && data[j] == '\n' ==> f + data[i..] == f + data[i..j] + "\n" + data[j + 1..]
  {
    assert data[i..] == data[i..j] + data[j..];
    assert j < |data| ==> data[j..] == [data[j]] + data[j + 1..];
  }

  class LineSplitter {
    var lineBuf: string
    var events: seq<string>

    ghost var fed: string
    ghost var lines: seq<string>
    ghost var residue: string
    ghost var processed: seq<string>

    ghost predicate Valid()
      reads this
    {
      && IsSplit(fed, lines, residue)
      && lineBuf == Truncated(residue)
      && processed == AllTruncated(lines)
      && events == Payloads(processed)
    }

    constructor ()
      ensures Valid() && fed == ""
    {
      lineBuf, events, fed, lines, residue, processed := "", [], "", [], "", [];
    }

    method ProcessLine(line: string)
      modifies this`events, this`processed
      requires events == Payloads(processed)
      ensures processed == old(processed) + [line] && events == Payloads(processed)
    {
      processed := processed + [line];
      assert processed[..|processed| - 1] == old(processed);
      if line == "" || line == "\r" {
        return;
      }
      if |line| > 6 && line[..6] == "data: " {
        var data := line[6..];
        if data[|data| - 1] == '\r' {
          data := data[..|data| - 1];
          assert data == line[6..|line| - 1];
        }
        events := events + [data];
      }
    }

    /** Take a newline-free run, as far as the line still has room. */
    method Append(x: string)
      requires Valid() && OneLine(x)
      modifies this`lineBuf, this`fed, this`residue
      ensures Valid() && fed == old(fed) + x && residue == old(residue) + x
    {
      SplitGrows(fed, lines, residue, x);
      TruncatedGrows(residue, x);
      var take := |x|;
      if take > 0 && |lineBuf| < MAX_LINE {
        var room := MAX_LINE - |lineBuf|;
        if take > room {
          take := room;
        }
        lineBuf := lineBuf + x[..take];
      }
      fed, residue := fed + x, residue + x;
    }

    method CloseLine()
      requires Valid()
      modifies this
      ensures Valid() && fed == old(fed) + "\n"
    {
      SplitGrows(fed, lines, residue, "");
      assert fed + "" == fed && residue + "" == residue;
      ProcessLine(lineBuf);
      lineBuf := "";
      fed, lines, residue := fed + "\n", lines + [residue], "";
    }

    method Feed(data: string)
      requires Valid()
      modifies this
      ensures Valid() && fed == old(fed) + data
    {
      var i := 0;
      while i < |data|
        invariant Valid() && i <= |data| && fed + data[i..] == old(fed) + data
      {
        var chunkEnd := NextNewline(data, i);
        Carve(fed, data, i, chunkEnd);
        Append(data[i..chunkEnd]);
        if chunkEnd < |data| {
          CloseLine();
          i := chunkEnd + 1;
        } else {
          i := |data|;
        }
      }
    }

    /** The stream is over: an unfinished line is processed too. */
    method Finish()
      requires Valid()
      modifies this
      ensures fed == old(fed) && events == Payloads(processed)
      ensures forall ls, r :: IsSplit(fed, ls, r) ==> processed == Processed(ls, r)
    {
      forall ls, r | IsSplit(fed, ls, r) ensures ls == lines && r == residue {
        SplitUnique(ls, r, lines, residue);
      }
      if lineBuf != "" {
        ProcessLine(lineBuf);
      }
    }
  }

  function Concat(segments: seq<string>): string {
    if segments == [] then "" else Concat(segments[..|segments| - 1]) + segments[|segments| - 1]
  }

  /** However a text is cut into segments, the same lines are processed: those between its
      newlines, each truncated, and a non-empty rest. */
  method ReadStream(segments: seq<string>) returns (events: seq<string>)
    ensures forall ls, r :: IsSplit(Concat(segments), ls, r) ==> events == Payloads(Processed(ls, r))
  {
    var splitter := new LineSplitter();
    for i := 0 to |segments|
      invariant splitter.Valid() && fresh(splitter) && splitter.fed == Concat(segments[..i])
    {
      splitter.Feed(segments[i]);
      assert segments[..i + 1][..i] == segments[..i];
    }
    assert segments[..|segments|] == segments;
    splitter.Finish();
    events := splitter.events;
  }

  // ---- event streams survive ----

  /** A payload that its framing carries unchanged. */
  predicate Framable(p: string, cr: string) {
    && p != "" && OneLine(p) && 6 + |p| + |cr| <= MAX_LINE
    && (cr == "\r" || (cr == "" && p[|p| - 1] != '\r'))
  }

  function EventLines(payloads: seq<string>, cr: string): seq<string> {
    if payloads == [] then []
    else EventLines(payloads[..|payloads| - 1], cr) + ["data: " + payloads[|payloads| - 1] + cr, cr]
  }

  lemma FramedPayload(p: string, cr: string)
    requires Framable(p, cr)
    ensures Payload("data: " + p + cr) == [p] && Payload(cr) == []
    ensures OneLine("data: " + p + cr) && OneLine(cr)
  {
    var line := "data: " + p + cr;
    assert line[..6] == "data: ";
    assert cr == "\r" ==> line[6..|line| - 1] == p;
    assert cr == "" ==> line[6..] == p && line[|line| - 1] == p[|p| - 1];
  }

  lemma PayloadsOfTwo(lines: seq<string>, a: string, b: string)
    ensures Payloads(lines + [a, b]) == Payloads(lines) + Payload(a) + Payload(b)
  {
    assert (lines + [a, b])[..|lines| + 1] == lines + [a];
    assert (lines + [a])[..|lines|] == lines;
  }

  lemma TruncatedTwo(lines: seq<string>, a: string, b: string)
    requires AllTruncated(lines) == lines && |a| <= MAX_LINE && |b| <= MAX_LINE
    ensures AllTruncated(lines + [a, b]) == lines + [a, b]
  {
    forall i | 0 <= i < |lines| ensures Truncated(lines[i]) == lines[i] {
      assert AllTruncated(lines)[i] == lines[i];
    }
  }

  lemma {:induction false} EventLinesCarry(payloads: seq<string>, cr: string)
    requires forall i :: 0 <= i < |payloads| ==> Framable(payloads[i], cr)
    ensures
      var ls := EventLines(payloads, cr);
      && (forall i :: 0 <= i < |ls| ==> OneLine(ls[i]))
      && AllTruncated(ls) == ls && Payloads(ls) == payloads
  {
    if payloads != [] {
      var (front, last) := (payloads[..|payloads| - 1], payloads[|payloads| - 1]);
      EventLinesCarry(front, cr);
      FramedPayload(last, cr);
      TruncatedTwo(EventLines(front, cr), "data: " + last + cr, cr);
      PayloadsOfTwo(EventLines(front, cr), "data: " + last + cr, cr);
      assert payloads == front + [last];
    }
  }

  /** A stream of framed events, however it is cut, yields exactly its payloads in order. */
  lemma EventsArrive(payloads: seq<string>, cr: string, ls: seq<string>, r: string)
    requires forall i :: 0 <= i < |payloads| ==> Framable(payloads[i], cr)
    requires IsSplit(Unsplit(EventLines(payloads, cr), ""), ls, r)
    ensures Payloads(Processed(ls, r)) == payloads
  {
    EventLinesCarry(payloads, cr);
    SplitUnique(ls, r, EventLines(payloads, cr), "");
    assert Processed(ls, r) == ls;
  }
}
