/** The network buffer: a vector with a reader and a writer index that behaves like a byte queue. */
module Buffers {
  import opened Bytes
  import opened Framing

  const CHEAP_PREPEND: nat := 8
  const INITIAL_SIZE: nat := 1024
  const EXTRA_SIZE: nat := 65536   // the stack buffer of readFd

  datatype ReadResult = ReadFailed(errno: int) | Received(bytes: seq<byte>)
  datatype SendResult = WriteFailed(errno: int) | Sent(n: nat)

  function Min(a: nat, b: nat): nat {
    if a < b then a else b
  }

  lemma Extended(start: seq<byte>, stream: seq<byte>, a: nat, k: nat)
    requires a + k <= |stream|
    ensures start + stream[..a] + stream[a..a + k] == start + stream[..a + k]
  {
  }

  // `lines` have been taken from `s`, and `left` is what is left.
  ghost predicate Taken(s: seq<byte>, lines: seq<seq<byte>>, left: seq<byte>) {
    Lines(s) == Split(lines + Lines(left).lines, Lines(left).rest)
  }

  lemma TakenMore(s: seq<byte>, lines: seq<seq<byte>>, left: seq<byte>, at: nat)
    requires Taken(s, lines, left) && IsFirst(left, at)
    ensures Taken(s, lines + [left[..at]], left[at + 2..])
  {
    Cut(left, at);
    assert lines + ([left[..at]] + Lines(left[at + 2..]).lines) == lines + [left[..at]] + Lines(left[at + 2..]).lines;
  }

  class Buffer {
    var data: array<byte>
    var reader: nat
    var writer: nat

    ghost predicate Valid()
      reads this
    {
      reader <= writer <= data.Length && CHEAP_PREPEND <= data.Length
    }

    ghost function Contents(): seq<byte>
      reads this, data
      requires Valid()
    {
      data[reader..writer]
    }

    constructor (initialSize: nat)
      ensures Valid() && fresh(data) && Contents() == [] && Writable() == initialSize && reader == 8
    {
      data := new byte[CHEAP_PREPEND + initialSize];
      reader, writer := CHEAP_PREPEND, CHEAP_PREPEND;
    }

    function Readable(): (n: nat)
      reads this, data
      requires Valid()
      ensures n == |Contents()|
    {
      writer - reader
    }

    function Writable(): nat
      reads this
      requires Valid()
    {
      data.Length - writer
    }

    // std::vector::resize to a larger size
    method Resize(size: nat)
      requires Valid() && size >= data.Length
      modifies this`data
      ensures Valid() && fresh(data) && data.Length == size && Contents() == old(Contents())
    {
      var bigger := new byte[size];
      forall i | 0 <= i < data.Length {
        bigger[i] := data[i];
      }
      data := bigger;
    }

    // std::copy to a lower position: ascending, so that overlapping ranges are safe
    method MoveDown(from: nat, to: nat, count: nat)
      requires to <= from && from + count <= data.Length
      modifies data
      ensures data[to..to + count] == old(data[from..from + count])
    {
      ghost var was := data[..];
      for i := 0 to count
        invariant forall k :: to <= k < to + i ==> data[k] == was[k - to + from]
        invariant forall k :: 0 <= k < data.Length && !(to <= k < to + i) ==> data[k] == was[k]
      {
        data[to + i] := data[from + i];
      }
    }

    // memmove to a higher position: descending
    method MoveUp(from: nat, to: nat, count: nat)
      requires from <= to && to + count <= data.Length
      modifies data
      ensures data[to..to + count] == old(data[from..from + count])
    {
      ghost var was := data[..];
      for i := count downto 0
        invariant forall k :: to + i <= k < to + count ==> data[k] == was[k - to + from]
        invariant forall k :: 0 <= k < to + i ==> data[k] == was[k]
      {
        data[to + i] := data[from + i];
      }
    }

    // std::copy of foreign bytes into the vector
    method Store(bytes: seq<byte>, at: nat)
      requires at + |bytes| <= data.Length
      modifies data
      ensures forall k :: 0 <= k < data.Length ==>
        data[k] == if at <= k < at + |bytes| then bytes[k - at] else old(data[k])
    {
      for i := 0 to |bytes|
        invariant forall k :: 0 <= k < data.Length ==>
          data[k] == if at <= k < at + i then bytes[k - at] else old(data[k])
      {
        data[at + i] := bytes[i];
      }
    }

    // In the compaction branch the reader index is beyond the prepend area, even if prepend has used
    // part of that area before, so the bytes move down; either branch leaves enough room.
    method MakeSpace(len: nat)
      requires Valid() && Writable() < len
      modifies this, data
      ensures Valid() && Contents() == old(Contents()) && Writable() >= len
      ensures if old(Writable()) + old(reader) < len + 8
        then fresh(data) && Writable() == len && reader == old(reader)
        else data == old(data) && reader == 8
    {
      if Writable() + reader < len + CHEAP_PREPEND {
        Resize(writer + len);
      } else {
        assert reader > CHEAP_PREPEND;
        var readable := Readable();
        MoveDown(reader, CHEAP_PREPEND, readable);
        reader := CHEAP_PREPEND;
        writer := reader + readable;
      }
    }

    method Append(bytes: seq<byte>)
      requires Valid()
      modifies this, data
      ensures Valid() && Contents() == old(Contents()) + bytes
      ensures if |bytes| <= old(Writable()) then data == old(data) && reader == old(reader)
        else if |bytes| + 8 <= old(Writable()) + old(reader) then data == old(data) && reader == 8
        else fresh(data) && reader == old(reader) && Writable() == 0
    {
      if Writable() < |bytes| {
        MakeSpace(|bytes|);
      }
      Fill(bytes);
    }

    // Writing into the writable part
    method Fill(bytes: seq<byte>)
      requires Valid() && |bytes| <= Writable()
      modifies this`writer, data
      ensures Valid() && Contents() == old(Contents()) + bytes && writer == old(writer) + |bytes|
    {
      ghost var before := Contents();
      Store(bytes, writer);
      writer := writer + |bytes|;
      var start := reader;
      assert |Contents()| == |before + bytes|;
      assert forall k :: 0 <= k < |before + bytes| ==> data[start + k] == (before + bytes)[k];
    }

    method RetrieveAll()
      requires Valid()
      modifies this`reader, this`writer
      ensures Valid() && Contents() == [] && reader == 8
    {
      reader, writer := CHEAP_PREPEND, CHEAP_PREPEND;
    }

    method Retrieve(len: nat)
      requires Valid()
      modifies this`reader, this`writer
      ensures Valid()
      ensures Contents() == if len < |old(Contents())| then old(Contents())[len..] else []
      ensures reader == if len < |old(Contents())| then old(reader) + len else 8
    {
      if len < Readable() {
        reader := reader + len;
      } else {
        RetrieveAll();
      }
    }

    // The source reads `len` bytes from peek() without looking at the writer index: beyond it the string
    // holds whatever the vector holds there.  Reading beyond the vector is undefined.
    method RetrieveAsString(len: nat) returns (s: seq<byte>)
      requires Valid() && len <= |Contents()| + Writable()
      modifies this`reader, this`writer
      ensures Valid() && |s| == len
      ensures len <= |old(Contents())| ==> s == old(Contents())[..len] && Contents() == old(Contents())[len..]
      ensures len > |old(Contents())| ==> old(Contents()) <= s && Contents() == []
    {
      s := data[reader..reader + len];
      Retrieve(len);
    }

    method Prepend(bytes: seq<byte>)
      requires Valid()
      modifies this, data
      ensures Valid() && Contents() == bytes + old(Contents())
      ensures reader == if |bytes| < old(reader) then old(reader) - |bytes| else 8
      ensures var needed := 8 + |bytes| + |old(Contents())|;
        data.Length == if |bytes| < old(reader) || needed <= old(data.Length) then old(data.Length) else needed
      ensures fresh(data) || data == old(data)
    {
      if |bytes| >= reader {
        var needed := CHEAP_PREPEND + |bytes| + Readable();
        if data.Length < needed {
          Resize(needed);
        }
        ShiftUp(CHEAP_PREPEND + |bytes|);
      }
      FillFront(bytes);
    }

    // Moves the contents so that they start at `at`.
    method ShiftUp(at: nat)
      requires Valid() && reader <= at && at + |Contents()| <= data.Length
      modifies this`reader, this`writer, data
      ensures Valid() && Contents() == old(Contents()) && reader == at
    {
      var readable := Readable();
      MoveUp(reader, at, readable);
      reader, writer := at, at + readable;
    }

    // Writing in front of the contents
    method FillFront(bytes: seq<byte>)
      requires Valid() && |bytes| <= reader
      modifies this`reader, data
      ensures Valid() && Contents() == bytes + old(Contents()) && reader == old(reader) - |bytes|
    {
      ghost var before := Contents();
      var start := reader - |bytes|;
      Store(bytes, start);
      reader := start;
      assert |Contents()| == |bytes + before|;
      assert forall k :: 0 <= k < |bytes + before| ==> data[start + k] == (bytes + before)[k];
    }

    method Shrink(reserve: nat)
      requires Valid()
      modifies this
      ensures Valid() && fresh(data) && Contents() == old(Contents()) && Writable() == reserve
      ensures reader == 8
    {
      var readable := Readable();
      var tight := new byte[CHEAP_PREPEND + readable + reserve];
      forall i | 0 <= i < readable {
        tight[CHEAP_PREPEND + i] := data[reader + i];
      }
      data, reader, writer := tight, CHEAP_PREPEND, CHEAP_PREPEND + readable;
    }

    // readv into the writable part and, beyond it, into the stack buffer
    method ReadFd(result: ReadResult) returns (n: int, savedErrno: int)
      requires Valid()
      requires result.Received? ==> |result.bytes| <= Writable() + 65536
      modifies this, data
      ensures Valid() && (fresh(data) || data == old(data))
      ensures result.Received? ==> n == |result.bytes| && Contents() == old(Contents()) + result.bytes
      ensures result.ReadFailed? ==> n < 0 && savedErrno == result.errno && Contents() == old(Contents())
    {
      savedErrno := 0;
      if result.ReadFailed? {
        return -1, result.errno;
      }
      var bytes, writable := result.bytes, Writable();
      n := |bytes|;
      if |bytes| <= writable {
        Fill(bytes);
      } else {
        Fill(bytes[..writable]);
        var extrabuf := bytes[writable..];
        assert old(Contents()) + bytes == old(Contents()) + bytes[..writable] + extrabuf;
        Append(extrabuf);
      }
    }

    method WriteFd(result: SendResult) returns (n: int, savedErrno: int)
      requires Valid()
      requires result.Sent? ==> result.n <= |Contents()|
      modifies this`reader
      ensures Valid()
      ensures result.Sent? ==> n == result.n && Contents() == old(Contents())[result.n..] && reader == old(reader) + n
      ensures result.WriteFailed? ==> n < 0 && savedErrno == result.errno && Contents() == old(Contents())
    {
      savedErrno := 0;
      if result.WriteFailed? {
        return -1, result.errno;
      }
      n := result.n;
      reader := reader + result.n;
    }

    // The offset of the first CRLF from peek(), or -1
    method FindCRLF() returns (at: int)
      requires Valid()
      ensures at < 0 ==> NoCrlf(Contents())
      ensures at >= 0 ==> IsFirst(Contents(), at)
    {
      ghost var s := Contents();
      var i := reader;
      while i + 1 < writer
        invariant reader <= i
        invariant forall j :: 0 <= j < i - reader ==> !CrlfAt(s, j)
      {
        assert s[i - reader] == data[i] && s[i - reader + 1] == data[i + 1];
        if data[i] == CR && data[i + 1] == LF {
          return i - reader;
        }
        i := i + 1;
      }
      at := -1;
    }

    // Takes every complete line: findCRLF, then retrieveUntil(crlf + 2), until there is none.
    method TakeLines() returns (lines: seq<seq<byte>>)
      requires Valid()
      modifies this`reader, this`writer
      ensures Valid() && Split(lines, Contents()) == Lines(old(Contents()))
    {
      ghost var s := Contents();
      lines := [];
      assert [] + Lines(s).lines == Lines(s).lines;
      var at := FindCRLF();
      while at >= 0
        invariant Valid()
        invariant at < 0 ==> NoCrlf(Contents())
        invariant at >= 0 ==> IsFirst(Contents(), at)
        invariant Taken(s, lines, Contents())
        decreases |Contents()|
      {
        TakenMore(s, lines, Contents(), at);
        var line := TakeLine(at);
        lines := lines + [line];
        at := FindCRLF();
      }
      Uncut(Contents());
    }

    method TakeLine(at: nat) returns (line: seq<byte>)
      requires Valid() && IsFirst(Contents(), at)
      modifies this`reader, this`writer
      ensures Valid() && line == old(Contents())[..at] && Contents() == old(Contents())[at + 2..]
    {
      line := data[reader..reader + at];
      Retrieve(at + 2);
    }

    // A connection that reads again and again and takes the complete lines after each read.  The
    // i-th read gets `sizes[i]` bytes of the stream, if that many are there and fit into the vector
    // and the stack buffer.
    method ReadStream(stream: seq<byte>, sizes: seq<nat>) returns (lines: seq<seq<byte>>, consumed: nat)
      requires Valid() && NoCrlf(Contents())
      modifies this, data
      ensures Valid() && (fresh(data) || data == old(data)) && consumed <= |stream|
      ensures Split(lines, Contents()) == Lines(old(Contents()) + stream[..consumed])
    {
      ghost var start := Contents();
      Uncut(start);
      lines, consumed := [], 0;
      ghost var seen := start;
      for i := 0 to |sizes|
        invariant Valid() && (fresh(data) || data == old(data)) && consumed <= |stream|
        invariant seen == start + stream[..consumed]
        invariant Split(lines, Contents()) == Lines(seen)
      {
        var k := Min(sizes[i], Min(Writable() + EXTRA_SIZE, |stream| - consumed));
        var chunk := stream[consumed..consumed + k];
        var more := ReadOnce(chunk, seen, lines);
        Extended(start, stream, consumed, k);
        seen := seen + chunk;
        lines, consumed := lines + more, consumed + k;
      }
    }

    // One readable event: `seen` is everything read so far and `lines` what was taken from it.
    method ReadOnce(chunk: seq<byte>, ghost seen: seq<byte>, ghost lines: seq<seq<byte>>) returns (more: seq<seq<byte>>)
      requires Valid() && |chunk| <= Writable() + EXTRA_SIZE && Split(lines, Contents()) == Lines(seen)
      modifies this, data
      ensures Valid() && (fresh(data) || data == old(data))
      ensures Split(lines + more, Contents()) == Lines(seen + chunk)
    {
      LinesAppend(seen, chunk);
      var n, e := ReadFd(Received(chunk));
      more := TakeLines();
    }
  }
}
