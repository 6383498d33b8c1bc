/**
 The connection buffer: a window of readable bytes that moves through a growing array. It is proved to act
 as a queue of bytes that can also be pushed back in front.
 */
module Buffer {
  import opened Common
  import opened BigEndian

  const CHEAP_PREPEND := 8
  const EXTRA := 65536

  /** What `readv` answered: an error number, or the bytes taken, none at the end of the stream. */
  datatype ReadAnswer = Failed(errno: int) | Took(data: seq<char>)

  /** The sizes of a buffer, which decide when it moves its bytes and when it grows. */
  datatype Window = Window(size: nat, reader: nat, writer: nat) {
    predicate Valid() {
      reader <= writer <= size && CHEAP_PREPEND <= size
    }

    function Readable(): nat
      requires Valid()
    {
      writer - reader
    }

    function Writable(): nat
      requires Valid()
    {
      size - writer
    }
  }

  function WindowAfterSpace(w: Window, len: nat): Window
    requires w.Valid() && w.Writable() < len
  {
    if w.Writable() + w.reader < len + CHEAP_PREPEND
    then w.(size := w.writer + len)
    else Window(w.size, CHEAP_PREPEND, CHEAP_PREPEND + w.Readable())
  }

  function WindowAfterAppend(w: Window, len: nat): Window
    requires w.Valid()
  {
    var v := if w.Writable() < len then WindowAfterSpace(w, len) else w;
    v.(writer := v.writer + len)
  }

  function WindowAfterRetrieve(w: Window, len: nat): Window
    requires w.Valid() && len <= w.Readable()
  {
    if len < w.Readable() then w.(reader := w.reader + len)
    else Window(w.size, CHEAP_PREPEND, CHEAP_PREPEND)
  }

  /** The most that one `readFd` can take: the extra 64 KB are offered only to a small window. */
  function ReadLimit(w: Window): nat
    requires w.Valid()
  {
    if w.Writable() < EXTRA then w.Writable() + EXTRA else w.Writable()
  }

  function WindowAfterRead(w: Window, n: nat): Window
    requires w.Valid()
  {
    if n <= w.Writable() then w.(writer := w.writer + n)
    else WindowAfterAppend(w.(writer := w.size), n - w.Writable())
  }

  /** Moving or growing always makes the room asked for, and the source's assertion on the move holds. */
  lemma SpaceIsEnough(w: Window, len: nat)
    requires w.Valid() && w.Writable() < len
    ensures var v := WindowAfterSpace(w, len);
      v.Valid() && v.Readable() == w.Readable() && v.Writable() >= len
    ensures w.Writable() + w.reader >= len + CHEAP_PREPEND ==> CHEAP_PREPEND < w.reader
  {
  }

  /** The array grows only if moving the readable bytes to its front would not make the room; eight bytes stay free. */
  lemma GrowsOnlyIfNeeded(w: Window, len: nat)
    requires w.Valid() && w.Writable() < len
    ensures var v := WindowAfterSpace(w, len);
      if 8 + w.Readable() + len <= w.size
      then v.size == w.size && v.reader == 8
      else v.size == w.writer + len && v.reader == w.reader
    ensures WindowAfterSpace(w, len).Readable() == w.Readable()
  {
  }

  /** The extra room of one read is 64 KB, for a window that has less itself. */
  lemma ReadLimitIs(w: Window)
    requires w.Valid()
    ensures ReadLimit(w) == w.size - w.writer + if w.size - w.writer < 65536 then 65536 else 0
  {
  }

  /** Growth is bounded by what is readable and what is appended. */
  lemma GrowthIsBounded(w: Window, len: nat)
    requires w.Valid() && WindowAfterAppend(w, len).size != w.size
    ensures w.size < WindowAfterAppend(w, len).size < w.Readable() + 2 * len + CHEAP_PREPEND
  {
  }

  /** An empty buffer never takes more than 128 KB - 1 in one read, however often it has been filled and emptied. */
  lemma ReadsStayBounded(w: Window, n: nat)
    requires w.Valid() && w.reader == w.writer == CHEAP_PREPEND
    requires w.Writable() <= 2 * EXTRA - 1 && n <= ReadLimit(w)
    ensures n <= 2 * EXTRA - 1
    ensures var v := WindowAfterRead(w, n);
      && v.Valid() && v.Readable() == n
      && WindowAfterRetrieve(v, n).Writable() <= 2 * EXTRA - 1
  {
  }

  // ----- line ends -----

  predicate CRLFAt(s: seq<char>, i: nat) {
    i + 1 < |s| && s[i] == '\r' && s[i + 1] == '\n'
  }

  /** `r` is the first line end of `s`, if there is one. */
  ghost predicate FirstCRLF(s: seq<char>, r: Option<nat>) {
    match r
    case Some(i) => CRLFAt(s, i) && forall j: nat :: j < i ==> !CRLFAt(s, j)
    case None => forall j: nat :: j < |s| ==> !CRLFAt(s, j)
  }

  lemma FirstCRLFMeans(s: seq<char>, r: Option<nat>)
    requires FirstCRLF(s, r)
    ensures r.Some? ==> r.value + 1 < |s| && s[r.value] == '\r' && s[r.value + 1] == '\n'
    ensures forall j :: 0 <= j < |s| - 1 && (r.Some? ==> j < r.value) ==> !(s[j] == '\r' && s[j + 1] == '\n')
  {
    forall j | 0 <= j < |s| - 1 && (r.Some? ==> j < r.value) ensures !(s[j] == '\r' && s[j + 1] == '\n') {
      assert !CRLFAt(s, j);
    }
  }

  class Buffer {
    var buffer: array<char>
    var readerIndex: nat
    var writerIndex: nat

    ghost predicate Valid()
      reads this
    {
      Sizes().Valid()
    }

    ghost function Sizes(): Window
      reads this
    {
      Window(buffer.Length, readerIndex, writerIndex)
    }

    /** The bytes waiting to be read, oldest first. */
    ghost function Contents(): seq<char>
      requires Valid()
      reads this, buffer
    {
      buffer[readerIndex..writerIndex]
    }

    constructor (initialSize: nat)
      ensures Valid() && fresh(buffer) && Contents() == []
      ensures Sizes() == Window(CHEAP_PREPEND + initialSize, CHEAP_PREPEND, CHEAP_PREPEND)
    {
      buffer := new char[CHEAP_PREPEND + initialSize](_ => '\0');
      readerIndex, writerIndex := CHEAP_PREPEND, CHEAP_PREPEND;
    }

    method FindCRLF() returns (r: Option<nat>)
      requires Valid()
      ensures FirstCRLF(Contents(), r)
    {
      var i := 0;
      while readerIndex + i + 1 < writerIndex
        invariant readerIndex + i <= writerIndex
        invariant forall j: nat :: j < i ==> !CRLFAt(Contents(), j)
      {
        if buffer[readerIndex + i] == '\r' && buffer[readerIndex + i + 1] == '\n' {
          return Some(i);
        }
        i := i + 1;
      }
      return None;
    }

    method RetrieveAll()
      requires Valid()
      modifies this`readerIndex, this`writerIndex
      ensures Valid() && Contents() == []
      ensures Sizes() == WindowAfterRetrieve(old(Sizes()), old(Sizes()).Readable())
    {
      readerIndex := CHEAP_PREPEND;
      writerIndex := CHEAP_PREPEND;
    }

    method Retrieve(len: nat)
      requires Valid() && len <= |Contents()|
      modifies this`readerIndex, this`writerIndex
      ensures Valid() && Contents() == old(Contents())[len..]
      ensures Sizes() == WindowAfterRetrieve(old(Sizes()), len)
      ensures readerIndex == if len < |old(Contents())| then old(readerIndex) + len else 8
    {
      if len < writerIndex - readerIndex {
        readerIndex := readerIndex + len;
      } else {
        RetrieveAll();
      }
    }

    method RetrieveAsString(len: nat) returns (s: seq<char>)
      requires Valid() && len <= |Contents()|
      modifies this`readerIndex, this`writerIndex
      ensures Valid() && s == old(Contents())[..len] && Contents() == old(Contents())[len..]
      ensures Sizes() == WindowAfterRetrieve(old(Sizes()), len)
    {
      s := buffer[readerIndex..readerIndex + len];
      assert s == Contents()[..len];
      Retrieve(len);
    }

    /** Grow the array, or move the readable bytes to its front. */
    method MakeSpace(len: nat)
      requires Valid() && Sizes().Writable() < len
      modifies this, buffer
      ensures Valid() && (buffer == old(buffer) || fresh(buffer))
      ensures Sizes() == WindowAfterSpace(old(Sizes()), len) && Contents() == old(Contents())
    {
      SpaceIsEnough(Sizes(), len);
      if buffer.Length - writerIndex + readerIndex < len + CHEAP_PREPEND {
        Resize(writerIndex + len);
      } else {
        assert CHEAP_PREPEND < readerIndex;
        MoveToFront();
      }
    }

    method Resize(size: nat)
      requires Valid() && writerIndex <= size && CHEAP_PREPEND <= size
      modifies this`buffer
      ensures Valid() && fresh(buffer)
      ensures Sizes() == old(Sizes()).(size := size) && Contents() == old(Contents())
    {
      var bigger := new char[size](_ => '\0');
      for i := 0 to writerIndex
        modifies bigger
        invariant bigger[..i] == buffer[..i]
      {
        bigger[i] := buffer[i];
      }
      assert bigger[readerIndex..writerIndex] == bigger[..writerIndex][readerIndex..];
      assert buffer[readerIndex..writerIndex] == buffer[..writerIndex][readerIndex..];
      buffer := bigger;
    }

    /** The bytes are copied first to last, over ground already copied. */
    method MoveToFront()
      requires Valid() && CHEAP_PREPEND < readerIndex
      modifies this`readerIndex, this`writerIndex, buffer
      ensures Valid() && Contents() == old(Contents())
      ensures Sizes() == Window(buffer.Length, CHEAP_PREPEND, CHEAP_PREPEND + old(Sizes()).Readable())
    {
      var readable := writerIndex - readerIndex;
      for i := 0 to readable
        modifies buffer
        invariant buffer[CHEAP_PREPEND..CHEAP_PREPEND + i] == old(Contents())[..i]
        invariant buffer[readerIndex + i..writerIndex] == old(Contents())[i..]
      {
        assert buffer[readerIndex + i] == buffer[readerIndex + i..writerIndex][0];
        buffer[CHEAP_PREPEND + i] := buffer[readerIndex + i];
      }
      readerIndex := CHEAP_PREPEND;
      writerIndex := CHEAP_PREPEND + readable;
    }

    /** `std::copy` of outside bytes into the array. */
    method CopyIn(data: seq<char>, at: nat)
      requires at + |data| <= buffer.Length
      modifies buffer
      ensures buffer[at..at + |data|] == data
      ensures buffer[..at] == old(buffer[..at]) && buffer[at + |data|..] == old(buffer[at + |data|..])
    {
      for i := 0 to |data|
        invariant buffer[at..at + i] == data[..i]
        invariant buffer[..at] == old(buffer[..at]) && buffer[at + i..] == old(buffer[at + i..])
      {
        buffer[at + i] := data[i];
      }
    }

    method Append(data: seq<char>)
      requires Valid()
      modifies this, buffer
      ensures Valid() && (buffer == old(buffer) || fresh(buffer))
      ensures Contents() == old(Contents()) + data
      ensures Sizes() == WindowAfterAppend(old(Sizes()), |data|)
    {
      if buffer.Length - writerIndex < |data| {
        MakeSpace(|data|);
      }
      WriteBack(data);
    }

    /** Write bytes that fit behind the readable ones. */
    method WriteBack(data: seq<char>)
      requires Valid() && |data| <= Sizes().Writable()
      modifies this`writerIndex, buffer
      ensures Valid() && Contents() == old(Contents()) + data
      ensures Sizes() == old(Sizes()).(writer := old(writerIndex) + |data|)
    {
      ghost var before := Contents();
      CopyIn(data, writerIndex);
      assert buffer[readerIndex..writerIndex] == buffer[..writerIndex][readerIndex..] == before;
      writerIndex := writerIndex + |data|;
      assert Contents() == before + data;
    }

    method Prepend(data: seq<char>)
      requires Valid() && |data| <= readerIndex
      modifies this`readerIndex, buffer
      ensures Valid() && Contents() == data + old(Contents())
      ensures Sizes() == old(Sizes()).(reader := old(readerIndex) - |data|)
    {
      readerIndex := readerIndex - |data|;
      CopyIn(data, readerIndex);
      assert buffer[readerIndex + |data|..writerIndex]
          == buffer[readerIndex + |data|..][..writerIndex - readerIndex - |data|];
    }

    /** A scatter read: first into the window, the rest through the extra 64 KB. A failed one changes nothing. */
    method ReadFd(answer: ReadAnswer) returns (n: int, savedErrno: Option<int>)
      requires Valid() && (answer.Took? ==> |answer.data| <= ReadLimit(Sizes()))
      modifies this, buffer
      ensures Valid() && (buffer == old(buffer) || fresh(buffer))
      ensures n == (if answer.Took? then |answer.data| else -1)
      ensures savedErrno == if answer.Took? then None else Some(answer.errno)
      ensures Contents() == if answer.Took? then old(Contents()) + answer.data else old(Contents())
      ensures Sizes() == if answer.Took? then WindowAfterRead(old(Sizes()), |answer.data|) else old(Sizes())
    {
      if answer.Failed? {
        return -1, Some(answer.errno);
      }
      var data := answer.data;
      n, savedErrno := |data|, None;
      var writable := buffer.Length - writerIndex;
      if |data| <= writable {
        WriteBack(data);
      } else {
        assert data == data[..writable] + data[writable..];
        WriteBack(data[..writable]);
        Append(data[writable..]);
      }
    }

    // The integer operations, for words of `n` bytes (1, 2, 4 and 8 in the source).

    method AppendInt(x: int, n: nat)
      requires Valid() && Fits(x, n)
      modifies this, buffer
      ensures Valid() && (buffer == old(buffer) || fresh(buffer))
      ensures Contents() == old(Contents()) + Encode(ToWord(x, n), n)
    {
      Append(Encode(ToWord(x, n), n));
    }

    method PrependInt(x: int, n: nat)
      requires Valid() && Fits(x, n) && n <= readerIndex
      modifies this`readerIndex, buffer
      ensures Valid() && Contents() == Encode(ToWord(x, n), n) + old(Contents())
    {
      Prepend(Encode(ToWord(x, n), n));
    }

    method ReadInt(n: nat) returns (x: int)
      requires Valid() && n <= |Contents()|
      modifies this`readerIndex, this`writerIndex
      ensures Valid() && Contents() == old(Contents())[n..]
      ensures x == FromWord(Decode(old(Contents())[..n]), n)
    {
      assert buffer[readerIndex..readerIndex + n] == Contents()[..n];
      x := FromWord(Decode(buffer[readerIndex..readerIndex + n]), n);
      Retrieve(n);
    }
  }

  /** An integer pushed back in front is the next one read, and the rest is untouched. */
  method PrependThenRead(b: Buffer, x: int, n: nat) returns (y: int)
    requires b.Valid() && Fits(x, n) && n <= b.readerIndex
    modifies b, b.buffer
    ensures b.Valid() && b.Contents() == old(b.Contents()) && y == x
  {
    b.PrependInt(x, n);
    y := b.ReadInt(n);
    IntRoundTrip(x, n);
  }

  /** An integer appended is read back once everything before it has been read. */
  method AppendThenRead(b: Buffer, x: int, n: nat) returns (y: int)
    requires b.Valid() && Fits(x, n)
    modifies b, b.buffer
    ensures b.Valid() && b.Contents() == [] && y == x
  {
    var k := b.writerIndex - b.readerIndex;
    ghost var word := Encode(ToWord(x, n), n);
    b.AppendInt(x, n);
    assert (old(b.Contents()) + word)[k..] == word && word[..n] == word;
    b.Retrieve(k);
    y := b.ReadInt(n);
    IntRoundTrip(x, n);
  }
}
