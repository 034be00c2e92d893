/** Which commands of a parsed reply are truncated: at most the last one, exactly when its
    block ran to the end of input without its own sentinel. */
module WritTruncation {
  import opened WritParser

  /** The sentinel closes the body at its first occurrence, and only there. */
  lemma {:induction false} CollectStopsAtFirstSentinel(lines: seq<string>, sentinel: string)
    ensures
      var c := Collect(lines, sentinel);
      var k := |c.body|;
      && k <= |lines|
      && (forall i :: 0 <= i < k ==> c.body[i] == StripCr(lines[i]) && c.body[i] != sentinel)
      && (c.closed <==> k < |lines|)
      && (c.closed ==> StripCr(lines[k]) == sentinel && c.rest == lines[k + 1..])
  {
    if lines != [] && StripCr(lines[0]) != sentinel {
      CollectStopsAtFirstSentinel(lines[1..], sentinel);
    }
  }

  /** The main loop, started on `lines`, comes to `rest` with the fence state `f`. */
  ghost predicate Visits(lines: seq<string>, fence: string, rest: seq<string>, f: string)
    decreases |lines|
  {
    || (rest == lines && f == fence)
    || (lines != [] && var st := TopStep(lines, fence); Visits(st.rest, st.fence, rest, f))
  }

  /** The first line opens a block whose sentinel is nowhere in the rest of the input. */
  ghost predicate RunsToEnd(lines: seq<string>) {
    && lines != [] && !IsFence(lines[0])
    && var k := Classify(TrimRight(lines[0]));
       && Opens(k, lines[1..])
       && forall i :: 1 <= i < |lines| ==> StripCr(lines[i]) != k.opener.sentinel
  }

  lemma ClassifiedUntruncated(l: string)
    ensures var k := Classify(l); k.Single? ==> !k.cmd.truncated
  {
  }

  lemma StepTruncatedExactly(lines: seq<string>, fence: string)
    requires lines != []
    ensures
      var st := TopStep(lines, fence);
      && |st.out| <= 1
      && (st.out != [] && st.out[0].truncated <==> fence == "" && RunsToEnd(lines))
      && (st.out != [] && st.out[0].truncated ==> st.rest == [])
  {
    ClassifiedUntruncated(TrimRight(lines[0]));
    var k := Classify(TrimRight(lines[0]));
    if k.Block? || k.Peek? {
      CollectStopsAtFirstSentinel(lines[1..], k.opener.sentinel);
      var c := Collect(lines[1..], k.opener.sentinel);
      if c.closed {
        assert StripCr(lines[|c.body| + 1]) == k.opener.sentinel;
      } else {
        assert forall i :: 1 <= i < |lines| ==> lines[i] == lines[1..][i - 1];
      }
    }
  }

  predicate AllButLastWhole(r: seq<Command>) {
    forall i :: 0 <= i < |r| - 1 ==> !r[i].truncated
  }

  lemma PrependWhole(out: seq<Command>, tail: seq<Command>)
    requires AllButLastWhole(tail) && |out| <= 1
    requires out != [] && out[0].truncated ==> tail == []
    ensures AllButLastWhole(out + tail)
  {
  }

  /** In the commands of any reply only the last can be truncated. */
  lemma {:induction false} OnlyLastTruncated(lines: seq<string>, fence: string)
    ensures AllButLastWhole(Parse(lines, fence))
    decreases |lines|
  {
    if lines != [] {
      StepTruncatedExactly(lines, fence);
      var st := TopStep(lines, fence);
      OnlyLastTruncated(st.rest, st.fence);
      PrependWhole(st.out, Parse(st.rest, st.fence));
    }
  }

  ghost predicate EndsOpen(lines: seq<string>, fence: string) {
    exists rest :: Visits(lines, fence, rest, "") && RunsToEnd(rest)
  }

  lemma EndsOpenUnfolds(lines: seq<string>, fence: string)
    requires lines != []
    ensures
      var st := TopStep(lines, fence);
      EndsOpen(lines, fence) <==> (fence == "" && RunsToEnd(lines)) || EndsOpen(st.rest, st.fence)
  {
    var st := TopStep(lines, fence);
    if fence == "" && RunsToEnd(lines) {
      assert Visits(lines, fence, lines, "");
    }
    if EndsOpen(st.rest, st.fence) {
      var rest :| Visits(st.rest, st.fence, rest, "") && RunsToEnd(rest);
      assert Visits(lines, fence, rest, "");
    }
    if EndsOpen(lines, fence) {
      var rest :| Visits(lines, fence, rest, "") && RunsToEnd(rest);
      if !(rest == lines && fence == "") {
        assert Visits(st.rest, st.fence, rest, "");
      }
    }
  }

  /** Some command is truncated exactly when the main loop comes, outside every fence, to a
      head whose block is never closed; that includes the looked-ahead /todo and /lesson. */
  lemma {:induction false} TruncatedIffUnclosed(lines: seq<string>, fence: string)
    ensures
      var r := Parse(lines, fence);
      (r != [] && r[|r| - 1].truncated) <==> EndsOpen(lines, fence)
    decreases |lines|
  {
    if lines == [] {
      assert forall rest :: Visits(lines, fence, rest, "") ==> rest == [];
    } else {
      StepTruncatedExactly(lines, fence);
      EndsOpenUnfolds(lines, fence);
      var st := TopStep(lines, fence);
      TruncatedIffUnclosed(st.rest, st.fence);
      if st.rest == [] {
        assert forall rest :: Visits(st.rest, st.fence, rest, "") ==> rest == [];
      }
    }
  }
}
