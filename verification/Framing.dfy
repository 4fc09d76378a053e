/** Lines of a byte stream, and why it does not matter how the stream arrives. */
module Framing {
  import opened Bytes
  import opened Sequences

  const CR: byte := 13
  const LF: byte := 10
  const CRLF: seq<byte> := [CR, LF]

  predicate CrlfAt(s: seq<byte>, i: nat) {
    i + 1 < |s| && s[i] == CR && s[i + 1] == LF
  }

  // What std::search(begin, end, kCRLF, kCRLF + 2) finds: the first CRLF.
  predicate IsFirst(s: seq<byte>, i: nat) {
    CrlfAt(s, i) && forall j :: 0 <= j < i ==> !CrlfAt(s, j)
  }

  predicate NoCrlf(s: seq<byte>) {
    forall j :: 0 <= j < |s| ==> !CrlfAt(s, j)
  }

  datatype Split = Split(lines: seq<seq<byte>>, rest: seq<byte>)

  ghost function Lines(s: seq<byte>): Split
    decreases |s|
  {
    if i: nat :| IsFirst(s, i) then
      var t := Lines(s[i + 2..]);
      Split([s[..i]] + t.lines, t.rest)
    else Split([], s)
  }

  function Join(lines: seq<seq<byte>>): seq<byte> {
    if lines == [] then [] else lines[0] + CRLF + Join(lines[1..])
  }

  // A line as the loop cuts it: the terminator after it is the first one.
  predicate IsLine(line: seq<byte>) {
    IsFirst(line + CRLF, |line|)
  }

  // Nothing is lost, and each line ends at the first terminator.
  ghost predicate Decomposes(s: seq<byte>, t: Split) {
    Join(t.lines) + t.rest == s && NoCrlf(t.rest) && forall l :: l in t.lines ==> IsLine(l)
  }

  lemma FirstUnique(s: seq<byte>, i: nat, j: nat)
    requires IsFirst(s, i) && IsFirst(s, j)
    ensures i == j
  {
  }

  lemma {:induction false} FirstExists(s: seq<byte>, k: nat)
    requires CrlfAt(s, k)
    ensures exists i: nat :: IsFirst(s, i)
  {
    if j :| 0 <= j < k && CrlfAt(s, j) {
      FirstExists(s, j);
    } else {
      assert IsFirst(s, k);
    }
  }

  lemma Cut(s: seq<byte>, i: nat)
    requires IsFirst(s, i)
    ensures Lines(s) == Split([s[..i]] + Lines(s[i + 2..]).lines, Lines(s[i + 2..]).rest)
  {
    var k: nat :| IsFirst(s, k) && Lines(s) == Split([s[..k]] + Lines(s[k + 2..]).lines, Lines(s[k + 2..]).rest);
    FirstUnique(s, i, k);
  }

  lemma Uncut(s: seq<byte>)
    requires NoCrlf(s)
    ensures Lines(s) == Split([], s)
  {
    forall i: nat ensures !IsFirst(s, i) {
      if i < |s| { assert !CrlfAt(s, i); }
    }
  }

  lemma {:induction false} LinesSound(s: seq<byte>)
    ensures Decomposes(s, Lines(s))
    decreases |s|
  {
    if i: nat :| IsFirst(s, i) {
      Cut(s, i);
      LineAt(s, i);
      LinesSound(s[i + 2..]);
      JoinFirst(s[..i], Lines(s[i + 2..]), s[i + 2..]);
    } else {
      forall j | 0 <= j < |s| ensures !CrlfAt(s, j) {
        if CrlfAt(s, j) { FirstExists(s, j); }
      }
    }
  }

  lemma LineAt(s: seq<byte>, i: nat)
    requires IsFirst(s, i)
    ensures IsLine(s[..i]) && s == s[..i] + CRLF + s[i + 2..]
  {
    assert s[..i] + CRLF == s[..i + 2];
    assert forall j :: 0 <= j <= i ==> (CrlfAt(s[..i] + CRLF, j) <==> CrlfAt(s, j));
  }

  lemma JoinFirst(line: seq<byte>, t: Split, s: seq<byte>)
    requires Join(t.lines) + t.rest == s
    ensures Join([line] + t.lines) + t.rest == line + CRLF + s
  {
    assert ([line] + t.lines)[1..] == t.lines;
  }

  lemma FirstStays(a: seq<byte>, b: seq<byte>, i: nat)
    requires IsFirst(a, i)
    ensures IsFirst(a + b, i) && (a + b)[..i] == a[..i] && (a + b)[i + 2..] == a[i + 2..] + b
  {
    assert forall j :: 0 <= j <= i ==> (CrlfAt(a + b, j) <==> CrlfAt(a, j));
  }

  lemma {:induction false} LinesComplete(lines: seq<seq<byte>>, rest: seq<byte>)
    requires NoCrlf(rest) && forall l :: l in lines ==> IsLine(l)
    ensures Lines(Join(lines) + rest) == Split(lines, rest)
  {
    if lines == [] {
      assert Join(lines) + rest == rest;
      Uncut(rest);
    } else {
      var l, tail := lines[0], Join(lines[1..]) + rest;
      assert IsLine(l);
      CutLine(l, tail);
      assert Join(lines) + rest == l + CRLF + tail;
      LinesComplete(lines[1..], rest);
      assert lines == [l] + lines[1..];
    }
  }

  // The lines of a stream are its only decomposition.
  lemma LinesIff(s: seq<byte>, t: Split)
    ensures t == Lines(s) <==> Decomposes(s, t)
  {
    LinesSound(s);
    if Decomposes(s, t) {
      LinesComplete(t.lines, t.rest);
    }
  }

  lemma CutLine(line: seq<byte>, tail: seq<byte>)
    requires IsLine(line)
    ensures Lines(line + CRLF + tail) == Split([line] + Lines(tail).lines, Lines(tail).rest)
  {
    FirstStays(line + CRLF, tail, |line|);
    Cut(line + CRLF + tail, |line|);
    assert (line + CRLF)[..|line|] == line;
    assert (line + CRLF)[|line| + 2..] + tail == tail;
  }

  lemma {:induction false} JoinAppend(a: seq<seq<byte>>, b: seq<seq<byte>>)
    ensures Join(a + b) == Join(a) + Join(b)
  {
    if a == [] {
      assert a + b == b;
    } else {
      assert (a + b)[0] == a[0] && (a + b)[1..] == a[1..] + b;
      JoinAppend(a[1..], b);
      assert a[0] + CRLF + (Join(a[1..]) + Join(b)) == a[0] + CRLF + Join(a[1..]) + Join(b);
    }
  }

  // Lines that are complete in a prefix of the stream stay as they are when more arrives; only the
  // rest is looked at again, together with what follows, even if a CR and its LF arrive separately.
  lemma LinesAppend(a: seq<byte>, b: seq<byte>)
    ensures var t := Lines(Lines(a).rest + b); Lines(a + b) == Split(Lines(a).lines + t.lines, t.rest)
  {
    LinesSound(a);
    LinesSound(Lines(a).rest + b);
    Recompose(a, b, Lines(a), Lines(Lines(a).rest + b));
  }

  lemma Recompose(a: seq<byte>, b: seq<byte>, x: Split, t: Split)
    requires Decomposes(a, x) && Decomposes(x.rest + b, t)
    ensures Lines(a + b) == Split(x.lines + t.lines, t.rest)
  {
    JoinAppend(x.lines, t.lines);
    Reassociate(Join(x.lines), x.rest, b, Join(t.lines), t.rest);
    LinesComplete(x.lines + t.lines, t.rest);
  }

  lemma Reassociate(a: seq<byte>, r: seq<byte>, b: seq<byte>, c: seq<byte>, d: seq<byte>)
    requires c + d == r + b
    ensures a + r + b == a + c + d
  {
    assert a + r + b == a + (r + b) && a + c + d == a + (c + d);
  }

  // What a reader has extracted and still holds after a sequence of chunks
  ghost function Received(start: seq<byte>, chunks: seq<seq<byte>>): Split {
    if chunks == [] then Lines(start)
    else
      var before := Received(start, chunks[..|chunks| - 1]);
      var t := Lines(before.rest + chunks[|chunks| - 1]);
      Split(before.lines + t.lines, t.rest)
  }

  // However the stream is cut into chunks, the lines and the rest are those of the whole stream.
  lemma {:induction false} ChunkingIsIrrelevant(start: seq<byte>, chunks: seq<seq<byte>>)
    ensures Received(start, chunks) == Lines(start + Concat(chunks))
  {
    if chunks == [] {
      assert start + [] == start;
    } else {
      var before, last := chunks[..|chunks| - 1], chunks[|chunks| - 1];
      ChunkingIsIrrelevant(start, before);
      LinesAppend(start + Concat(before), last);
      assert start + Concat(chunks) == start + Concat(before) + last;
    }
  }
}
