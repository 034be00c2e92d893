/** Reading a response head off a connection, one `recv` at a time, up to the blank line of
    section 2.1 of RFC 9112. The results of the successive `recv` calls are an argument; the
    sequence ends where the peer closes or fails. */
module HttpHeaders {
  const MAX_HEADER: nat := 65536

  predicate EndsHead(s: string, e: nat) {
    4 <= e <= |s| && s[e - 4] == '\r' && s[e - 3] == '\n' && s[e - 2] == '\r' && s[e - 1] == '\n'
  }

  /** The first blank line of `s` ends just before `e`. */
  ghost predicate HeadEnd(s: string, e: nat) {
    EndsHead(s, e) && forall j: nat :: j < e ==> !EndsHead(s, j)
  }

  ghost predicate HasHead(s: string) {
    exists e: nat :: EndsHead(s, e)
  }

  function Received(chunks: seq<string>): string {
    if chunks == [] then "" else Received(chunks[..|chunks| - 1]) + chunks[|chunks| - 1]
  }

  ghost predicate Recvs(chunks: seq<string>) {
    forall i :: 0 <= i < |chunks| ==> 1 <= |chunks[i]| <= 4096
  }

  lemma {:induction false} ReceivedMonotone(chunks: seq<string>, j: nat, k: nat)
    requires j <= k <= |chunks|
    ensures Received(chunks[..j]) <= Received(chunks[..k])
    decreases k
  {
    if j < k {
      ReceivedMonotone(chunks, j, k - 1);
      assert chunks[..k][..k - 1] == chunks[..k - 1];
    }
  }

  lemma HeadIsPrefixProperty(s: string, t: string, e: nat)
    requires s <= t && e <= |s|
    ensures EndsHead(s, e) == EndsHead(t, e)
    ensures HeadEnd(s, e) == HeadEnd(t, e)
  {
    assert forall j: nat :: j <= e ==> EndsHead(s, j) == EndsHead(t, j);
  }

  /** A head ending inside the bytes of the last `recv` or straddling them. */
  lemma NewHeadIsNear(before: string, chunk: string, e: nat)
    requires !HasHead(before) && EndsHead(before + chunk, e)
    ensures e > |before|
  {
    if e <= |before| {
      HeadIsPrefixProperty(before, before + chunk, e);
    }
  }

  /** Look for a blank line starting at `from` or later. */
  method Scan(s: string, from: nat) returns (e: nat)
    requires forall j: nat :: j < from + 4 ==> !EndsHead(s, j)
    ensures e == 0 <==> !HasHead(s)
    ensures e > 0 ==> HeadEnd(s, e)
  {
    var i := from;
    while i + 4 <= |s|
      invariant forall j: nat :: j < i + 4 ==> !EndsHead(s, j)
      decreases |s| - i
    {
      if s[i] == '\r' && s[i + 1] == '\n' && s[i + 2] == '\r' && s[i + 3] == '\n' {
        assert EndsHead(s, i + 4);
        return i + 4;
      }
      i := i + 1;
    }
    e := 0;
  }

  /** The bytes of some `recv` prefix hold a whole head and fit the limit. */
  ghost predicate Readable(chunks: seq<string>, k: nat) {
    k <= |chunks| && HasHead(Received(chunks[..k])) && |Received(chunks[..k])| <= 65536
  }

  /** After `used` calls, the first with a blank line in sight, the bytes received are a head
      that ends at its first blank line and whatever came with it. */
  ghost predicate IsHead(chunks: seq<string>, used: nat, headers: string, leftover: string) {
    && used <= |chunks| && headers + leftover == Received(chunks[..used])
    && HeadEnd(headers, |headers|)
    && forall k: nat :: k < used ==> !HasHead(Received(chunks[..k]))
  }

  /** Succeeds exactly when some prefix of the `recv` results holds a blank line within the
      limit. Then nothing received is lost and the head is the shortest possible. */
  method ReadHttpHeaders(chunks: seq<string>)
    returns (ok: bool, headers: string, leftover: string, used: nat)
    requires Recvs(chunks)
    ensures ok <==> exists k: nat :: Readable(chunks, k)
    ensures ok ==> IsHead(chunks, used, headers, leftover)
  {
    headers, leftover, used := "", "", 0;
    while used < |chunks|
      invariant used <= |chunks| && headers == Received(chunks[..used]) && |headers| <= MAX_HEADER
      invariant forall k: nat :: k <= used ==> !HasHead(Received(chunks[..k]))
    {
      var oldLen := |headers|;
      ghost var before := headers;
      headers := headers + chunks[used];
      assert chunks[..used + 1][..used] == chunks[..used];
      used := used + 1;
      if |headers| > MAX_HEADER {
        TooLong(chunks, used);
        return false, headers, leftover, used;
      }
      var scanFrom := if oldLen >= 3 then oldLen - 3 else 0;
      forall j: nat | j < scanFrom + 4 ensures !EndsHead(headers, j) {
        if EndsHead(headers, j) { NewHeadIsNear(before, chunks[used - 1], j); }
      }
      var e := Scan(headers, scanFrom);
      if e > 0 {
        assert Readable(chunks, used);
        HeadIsPrefixProperty(headers[..e], headers, e);
        leftover := headers[e..];
        headers := headers[..e];
        return true, headers, leftover, used;
      }
    }
    ok := false;
  }

  lemma TooLong(chunks: seq<string>, n: nat)
    requires 0 < n <= |chunks| && |Received(chunks[..n])| > MAX_HEADER
    requires forall k: nat :: k < n ==> !HasHead(Received(chunks[..k]))
    ensures forall k: nat :: !Readable(chunks, k)
  {
    forall k: nat | n <= k <= |chunks| ensures |Received(chunks[..k])| > MAX_HEADER {
      ReceivedMonotone(chunks, n, k);
    }
  }

  // ---- independence of the segmentation ----

  /** Two ways of cutting one byte stream that both succeed agree on the head. */
  lemma SameHead(chunks: seq<string>, used: nat, head: string, rest: string,
                 chunks': seq<string>, used': nat, head': string, rest': string)
    requires IsHead(chunks, used, head, rest) && IsHead(chunks', used', head', rest')
    requires Received(chunks) == Received(chunks')
    ensures head == head' && (rest <= rest' || rest' <= rest)
  {
    var stream := Received(chunks);
    HeadOfStream(chunks, used, head, rest);
    HeadOfStream(chunks', used', head', rest');
    assert head == stream[..|head|] && head' == stream[..|head'|];
    assert rest == stream[|head|..|head| + |rest|] && rest' == stream[|head|..|head| + |rest'|];
  }

  lemma HeadOfStream(chunks: seq<string>, used: nat, head: string, rest: string)
    requires IsHead(chunks, used, head, rest)
    ensures head + rest <= Received(chunks) && HeadEnd(Received(chunks), |head|)
  {
    ReceivedMonotone(chunks, used, |chunks|);
    assert chunks[..|chunks|] == chunks;
    HeadIsPrefixProperty(head, Received(chunks), |head|);
  }

  lemma {:induction false} CoveringRecv(chunks: seq<string>, e: nat) returns (k: nat)
    requires Recvs(chunks) && 1 <= e <= |Received(chunks)|
    ensures 1 <= k <= |chunks| && e <= |Received(chunks[..k])| < e + 4096
  {
    var n := |chunks| - 1;
    assert chunks[..|chunks|] == chunks;
    if e <= |Received(chunks[..n])| {
      k := CoveringRecv(chunks[..n], e);
      assert chunks[..n][..k] == chunks[..k];
    } else {
      k := |chunks|;
    }
  }

  /** A head that ends a buffer short of the limit is read however the stream is cut; one
      that ends beyond the limit never is. */
  lemma ReadWheneverItFits(chunks: seq<string>, e: nat)
    requires Recvs(chunks) && HeadEnd(Received(chunks), e)
    ensures e + 4095 <= 65536 ==> exists k: nat :: Readable(chunks, k)
    ensures e > 65536 ==> forall k: nat :: !Readable(chunks, k)
  {
    assert chunks[..|chunks|] == chunks;
    if e + 4095 <= 65536 {
      var k := CoveringRecv(chunks, e);
      ReceivedMonotone(chunks, k, |chunks|);
      HeadIsPrefixProperty(Received(chunks[..k]), Received(chunks), e);
      assert Readable(chunks, k);
    }
    forall k: nat | Readable(chunks, k) ensures e <= 65536 {
      ReceivedMonotone(chunks, k, |chunks|);
      var e' :| EndsHead(Received(chunks[..k]), e');
      HeadIsPrefixProperty(Received(chunks[..k]), Received(chunks), e');
    }
  }
}
