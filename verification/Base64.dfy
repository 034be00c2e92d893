/** The base64 encoder for image payloads, against a decoder for section 4 of RFC 4648. */
module Base64 {
  import opened Common

  type Byte = n: nat | n < 256
  type Sextet = n: nat | n < 64

  // ---- decoding, by table 1 of the RFC ----

  predicate IsLetter(c: char) {
    'A' <= c <= 'Z' || 'a' <= c <= 'z' || '0' <= c <= '9' || c == '+' || c == '/'
  }

  function Value(c: char): Sextet
    requires IsLetter(c)
  {
    if 'A' <= c <= 'Z' then c as int - 'A' as int
    else if 'a' <= c <= 'z' then c as int - 'a' as int + 26
    else if '0' <= c <= '9' then c as int - '0' as int + 52
    else if c == '+' then 62
    else 63
  }

  function Group(a: Sextet, b: Sextet, c: Sextet, d: Sextet): nat {
    a * 262144 + b * 4096 + c * 64 + d
  }

  /** The first `n` bytes of a 24-bit group. */
  function Bytes(v: nat, n: nat): seq<Byte>
    requires v < 16777216 && 1 <= n <= 3
  {
    [v / 65536, v / 256 % 256, v % 256][..n]
  }

  /** Padding may only close the last group. */
  function Decode(s: string): Option<seq<Byte>> {
    if s == "" then Some([])
    else if |s| < 4 || !IsLetter(s[0]) || !IsLetter(s[1]) then None
    else if IsLetter(s[2]) && IsLetter(s[3]) then
      var rest := Decode(s[4..]);
      if rest.None? then None
      else Some(Bytes(Group(Value(s[0]), Value(s[1]), Value(s[2]), Value(s[3])), 3) + rest.value)
    else if |s| != 4 || s[3] != '=' then None
    else if IsLetter(s[2]) then Some(Bytes(Group(Value(s[0]), Value(s[1]), Value(s[2]), 0), 2))
    else if s[2] == '=' then Some(Bytes(Group(Value(s[0]), Value(s[1]), 0, 0), 1))
    else None
  }

  // ---- encoding ----

  /** The encoder's table: A to Z, a to z, 0 to 9, plus and slash. */
  function Letter(i: Sextet): char {
    if i < 26 then 'A' + i as char
    else if i < 52 then 'a' + (i - 26) as char
    else if i < 62 then '0' + (i - 52) as char
    else if i == 62 then '+'
    else '/'
  }

  function Word(a: Byte, b: Byte, c: Byte): (v: nat)
    ensures v < 16777216
  {
    (a as int) * 65536 + (b as int) * 256 + (c as int)
  }

  function Quad(v: nat, letters: nat): string
    requires v < 16777216 && 2 <= letters <= 4
  {
    [Letter(v / 262144), Letter(v / 4096 % 64),
     if letters > 2 then Letter(v / 64 % 64) else '=',
     if letters > 3 then Letter(v % 64) else '=']
  }

  function Encode(b: seq<Byte>): string {
    if |b| == 0 then ""
    else if |b| == 1 then Quad(Word(b[0], 0, 0), 2)
    else if |b| == 2 then Quad(Word(b[0], b[1], 0), 3)
    else Quad(Word(b[0], b[1], b[2]), 4) + Encode(b[3..])
  }

  method Base64Encode(bytes: seq<Byte>) returns (out: string)
    ensures out == Encode(bytes)
  {
    out := "";
    var n, i := |bytes|, 0;
    assert bytes[0..] == bytes;
    while i + 3 <= n
      invariant i <= n && out + Encode(bytes[i..]) == Encode(bytes)
    {
      var v := Word(bytes[i], bytes[i + 1], bytes[i + 2]);
      assert bytes[i..][3..] == bytes[i + 3..];
      Regroup(out, Quad(v, 4), Encode(bytes[i + 3..]));
      out := out + [Letter(v / 262144), Letter(v / 4096 % 64), Letter(v / 64 % 64), Letter(v % 64)];
      i := i + 3;
    }
    if i < n {
      var v := Word(bytes[i], if i + 1 < n then bytes[i + 1] else 0, 0);
      out := out + [Letter(v / 262144), Letter(v / 4096 % 64)];
      if i + 1 < n {
        out := out + [Letter(v / 64 % 64), '='];
      } else {
        out := out + ['=', '='];
      }
    }
  }

  // ---- the round trip ----

  lemma LetterValue(i: Sextet)
    ensures IsLetter(Letter(i)) && Value(Letter(i)) == i && Letter(i) != '='
  {
  }

  lemma SplitGroup(v: nat)
    requires v < 16777216
    ensures Group(v / 262144, v / 4096 % 64, v / 64 % 64, v % 64) == v
  {
    assert v / 64 / 64 == v / 4096 && v / 4096 / 64 == v / 262144;
  }

  lemma WordParts(a: Byte, b: Byte, c: Byte)
    ensures Word(a, b, c) / 65536 == a && Word(a, b, c) / 256 % 256 == b && Word(a, b, c) % 256 == c
  {
    assert Word(a, b, c) / 256 == (a as int) * 256 + (b as int);
  }

  lemma BytesOfGroup(a: Byte, b: Byte, c: Byte)
    ensures Bytes(Word(a, b, c), 3) == [a, b, c]
    ensures Bytes(Word(a, b, c), 2) == [a, b] && Bytes(Word(a, b, c), 1) == [a]
  {
    WordParts(a, b, c);
    assert [a, b, c][..2] == [a, b] && [a, b, c][..1] == [a] && [a, b, c][..3] == [a, b, c];
  }

  lemma UnusedBits(a: Byte, b: Byte)
    ensures Word(a, b, 0) % 64 == 0
    ensures Word(a, 0, 0) / 64 % 64 == 0
  {
    assert Word(a, b, 0) == 64 * ((a as int) * 1024 + (b as int) * 4);
    assert Word(a, 0, 0) / 64 == 64 * ((a as int) * 16);
  }

  lemma QuadValues(v: nat, letters: nat)
    requires v < 16777216 && 2 <= letters <= 4
    requires letters < 4 ==> v % 64 == 0
    requires letters < 3 ==> v / 64 % 64 == 0
    ensures
      var q := Quad(v, letters);
      && |q| == 4 && IsLetter(q[0]) && IsLetter(q[1])
      && (if letters > 2 then IsLetter(q[2]) else q[2] == '=')
      && (if letters > 3 then IsLetter(q[3]) else q[3] == '=')
      && v == Group(Value(q[0]), Value(q[1]), if letters > 2 then Value(q[2]) else 0,
                    if letters > 3 then Value(q[3]) else 0)
  {
    SplitGroup(v);
    LetterValue(v / 262144);
    LetterValue(v / 4096 % 64);
    LetterValue(v / 64 % 64);
    LetterValue(v % 64);
  }

  lemma ShortQuadDecodes(v: nat, letters: nat)
    requires v < 16777216 && 2 <= letters < 4 && v % 64 == 0
    requires letters < 3 ==> v / 64 % 64 == 0
    ensures Decode(Quad(v, letters)) == Some(Bytes(v, letters - 1))
  {
    QuadValues(v, letters);
  }

  lemma FullQuadDecodes(v: nat, rest: string)
    requires v < 16777216 && Decode(rest).Some?
    ensures Decode(Quad(v, 4) + rest) == Some(Bytes(v, 3) + Decode(rest).value)
  {
    QuadValues(v, 4);
    assert (Quad(v, 4) + rest)[4..] == rest;
  }

  lemma OneByte(a: Byte)
    ensures Decode(Quad(Word(a, 0, 0), 2)) == Some([a])
  {
    BytesOfGroup(a, 0, 0);
    UnusedBits(a, 0);
    ShortQuadDecodes(Word(a, 0, 0), 2);
  }

  lemma TwoBytes(a: Byte, b: Byte)
    ensures Decode(Quad(Word(a, b, 0), 3)) == Some([a, b])
  {
    BytesOfGroup(a, b, 0);
    UnusedBits(a, b);
    ShortQuadDecodes(Word(a, b, 0), 3);
  }

  lemma ThreeBytes(a: Byte, b: Byte, c: Byte, rest: string)
    requires Decode(rest).Some?
    ensures Decode(Quad(Word(a, b, c), 4) + rest) == Some([a, b, c] + Decode(rest).value)
  {
    BytesOfGroup(a, b, c);
    FullQuadDecodes(Word(a, b, c), rest);
  }

  lemma {:induction false} RoundTrip(b: seq<Byte>)
    ensures Decode(Encode(b)) == Some(b)
  {
    if |b| == 1 {
      OneByte(b[0]);
      assert b == [b[0]];
    } else if |b| == 2 {
      TwoBytes(b[0], b[1]);
      assert b == [b[0], b[1]];
    } else if |b| >= 3 {
      RoundTrip(b[3..]);
      ThreeBytes(b[0], b[1], b[2], Encode(b[3..]));
      assert b == [b[0], b[1], b[2]] + b[3..];
    }
  }

  /** `s` is letters, closed by `pad` padding signs. */
  ghost predicate Padded(s: string, pad: nat) {
    pad <= |s| && forall i :: 0 <= i < |s| ==> if i < |s| - pad then IsLetter(s[i]) else s[i] == '='
  }

  function Padding(n: nat): nat {
    if n % 3 == 0 then 0 else 3 - n % 3
  }

  lemma PaddedGrows(q: string, s: string, pad: nat)
    requires |q| == 4 && Padded(q, 0) && Padded(s, pad)
    ensures Padded(q + s, pad)
  {
    forall i | 0 <= i < |q + s|
      ensures if i < |q + s| - pad then IsLetter((q + s)[i]) else (q + s)[i] == '='
    {
      if i >= 4 { assert (q + s)[i] == s[i - 4]; }
    }
  }

  lemma QuadPadded(v: nat, letters: nat)
    requires v < 16777216 && 2 <= letters <= 4
    ensures |Quad(v, letters)| == 4 && Padded(Quad(v, letters), 4 - letters)
  {
    LetterValue(v / 262144);
    LetterValue(v / 4096 % 64);
    LetterValue(v / 64 % 64);
    LetterValue(v % 64);
  }

  lemma OneGroupMore(n: nat)
    requires n >= 3
    ensures (n + 2) / 3 == (n - 3 + 2) / 3 + 1 && Padding(n) == Padding(n - 3)
  {
  }

  /** Four characters for every three bytes or part of them; padding only at the end, and as
      much as the last group is short of bytes. */
  lemma {:induction false} Shape(b: seq<Byte>)
    ensures |Encode(b)| == (|b| + 2) / 3 * 4 && Padded(Encode(b), Padding(|b|))
  {
    if |b| == 1 {
      QuadPadded(Word(b[0], 0, 0), 2);
    } else if |b| == 2 {
      QuadPadded(Word(b[0], b[1], 0), 3);
    } else if |b| >= 3 {
      QuadPadded(Word(b[0], b[1], b[2]), 4);
      Shape(b[3..]);
      OneGroupMore(|b|);
      PaddedGrows(Quad(Word(b[0], b[1], b[2]), 4), Encode(b[3..]), Padding(|b|));
    }
  }
}
