/**
 The loop both codecs run over the input buffer: take lines ended by CR LF, hand each to the line parser,
 stop at the first malformed one.
 */
module Framing {
  import opened Common
  import opened Buffer
  import T = TcpConnection

  /** What the line parser makes of one line. */
  datatype Line<M> = Skip | Deliver(msg: M) | Malformed

  /** The messages delivered, the bytes left, and whether every complete line was well formed. */
  datatype Drained<M> = Drained(msgs: seq<M>, rest: string, ok: bool)

  function FindLine(s: string, from: nat): (r: Option<nat>)
    requires from <= |s|
    requires forall j: nat :: j < from ==> !CRLFAt(s, j)
    ensures FirstCRLF(s, r)
    decreases |s| - from
  {
    if from == |s| then None
    else if CRLFAt(s, from) then Some(from)
    else FindLine(s, from + 1)
  }

  function Drain<M>(line: string -> Line<M>, buf: string): Drained<M>
    decreases |buf|
  {
    match FindLine(buf, 0)
    case None => Drained([], buf, true)
    case Some(i) =>
      match line(buf[..i])
      case Skip => Drain(line, buf[i + 2..])
      case Malformed => Drained([], buf[i + 2..], false)
      case Deliver(msg) =>
        var d := Drain(line, buf[i + 2..]);
        Drained([msg] + d.msgs, d.rest, d.ok)
  }

  /** The line found ends at the first CR LF. */
  lemma FindLineMeans(s: string, i: nat)
    ensures FindLine(s, 0) == Some(i) <==>
      && i + 1 < |s| && s[i] == '\r' && s[i + 1] == '\n'
      && forall j :: 0 <= j < i ==> !(s[j] == '\r' && s[j + 1] == '\n')
  {
    var r := FindLine(s, 0);
    assert FirstCRLF(s, r);
    if i + 1 < |s| && s[i] == '\r' && s[i + 1] == '\n'
      && forall j :: 0 <= j < i ==> !(s[j] == '\r' && s[j + 1] == '\n') {
      assert FirstCRLF(s, Some(i)) by {
        assert forall j: nat :: j < i ==> !CRLFAt(s, j);
      }
      FirstIsUnique(s, r, Some(i));
    }
    if r == Some(i) {
      forall j | 0 <= j < i ensures !(s[j] == '\r' && s[j + 1] == '\n') {
        assert !CRLFAt(s, j);
      }
    }
  }

  lemma FirstIsUnique(s: string, r: Option<nat>, q: Option<nat>)
    requires FirstCRLF(s, r) && FirstCRLF(s, q)
    ensures r == q
  {
    if r.Some? && q.Some? {
      assert !(r.value < q.value) && !(q.value < r.value);
    }
  }

  /** The buffer is not one of the connection's own. */
  ghost predicate Apart(buffer: Buffer, conn: T.TcpConnection)
    reads buffer, conn, conn.outputBuffer
  {
    buffer != conn.outputBuffer && buffer.buffer != conn.outputBuffer.buffer
  }

  /** The calls that the callbacks of a run of `parseMessage` make on the connection, one list a message. */
  ghost predicate Callable(c: T.Conn, calls: seq<seq<T.Step>>) {
    && T.CanRun(c, T.Joined(calls))
    && forall i, j :: 0 <= i < |calls| && 0 <= j < |calls[i]| ==> T.ByCaller(calls[i][j])
  }

  /** The connection after all these calls. */
  ghost function Called(c: T.Conn, calls: seq<seq<T.Step>>): T.Conn
    requires Callable(c, calls)
  {
    T.After(c, T.Joined(calls))
  }

  /** One message is delivered: its callback makes its calls. */
  method Callback(conn: T.TcpConnection, calls: seq<seq<T.Step>>)
    requires conn.Valid() && calls != [] && Callable(conn.State(), calls)
    modifies conn, conn.outputBuffer, conn.outputBuffer.buffer
    ensures conn.Valid() && Callable(conn.State(), calls[1..])
    ensures Called(conn.State(), calls[1..]) == Called(old(conn.State()), calls)
    ensures conn.outputBuffer.buffer == old(conn.outputBuffer.buffer) || fresh(conn.outputBuffer.buffer)
  {
    hide T.TcpConnection.State, T.Next, T.Enabled;
    T.RunConcat(conn.State(), calls[0], T.Joined(calls[1..]));
    T.CallAll(conn, calls[0]);
  }

  /** The first line of the buffer, without its CR LF, if it is complete. */
  method TakeLine(buffer: Buffer) returns (next: Option<string>)
    requires buffer.Valid()
    modifies buffer`readerIndex, buffer`writerIndex
    ensures buffer.Valid()
    ensures var s := old(buffer.Contents()); var i := FindLine(s, 0);
      if i == None then next == None && buffer.Contents() == s
      else next == Some(s[..i.value]) && buffer.Contents() == s[i.value + 2..]
  {
    var crlf := buffer.FindCRLF();
    FirstIsUnique(buffer.Contents(), crlf, FindLine(buffer.Contents(), 0));
    if crlf == None {
      return None;
    }
    ghost var before := buffer.Contents();
    var str := buffer.RetrieveAsString(crlf.value + 2);
    assert str[..crlf.value] == before[..crlf.value];
    return Some(str[..crlf.value]);
  }

  /**
   `parseMessage`: the loop over the real buffer computes `Drain` of what was in it, and hands each message to its
   callback before it looks for the next line.
   */
  method ParseMessage<M>(line: string -> Line<M>, conn: T.TcpConnection, buffer: Buffer, calls: seq<seq<T.Step>>)
    returns (msgs: seq<M>, ok: bool)
    requires conn.Valid() && buffer.Valid() && Apart(buffer, conn)
    requires |calls| == |Drain(line, buffer.Contents()).msgs| && Callable(conn.State(), calls)
    modifies buffer, conn, conn.outputBuffer, conn.outputBuffer.buffer
    ensures conn.Valid() && buffer.Valid() && Apart(buffer, conn) && buffer.buffer == old(buffer.buffer)
    ensures Drained(msgs, buffer.Contents(), ok) == Drain(line, old(buffer.Contents()))
    ensures conn.State() == Called(old(conn.State()), calls)
    ensures conn.outputBuffer.buffer == old(conn.outputBuffer.buffer) || fresh(conn.outputBuffer.buffer)
  {
    hide Drain, FindLine, T.TcpConnection.State, Called, Callable;
    msgs, ok := [], true;
    ghost var all, goal := Drain(line, buffer.Contents()), Called(conn.State(), calls);
    assert calls[0..] == calls && [] + all.msgs == all.msgs;
    while true
      invariant conn.Valid() && buffer.Valid() && Apart(buffer, conn) && buffer.buffer == old(buffer.buffer)
      invariant conn.outputBuffer.buffer == old(conn.outputBuffer.buffer) || fresh(conn.outputBuffer.buffer)
      invariant var d := Drain(line, buffer.Contents());
        all == Drained(msgs + d.msgs, d.rest, d.ok) && |msgs| + |d.msgs| == |calls|
      invariant Callable(conn.State(), calls[|msgs|..]) && Called(conn.State(), calls[|msgs|..]) == goal
      decreases |buffer.Contents()|
    {
      DrainUnfolds(line, buffer.Contents());
      var next := TakeLine(buffer);
      if next == None {
        NothingLeft(conn.State(), calls, |msgs|);
        assert msgs + [] == msgs;
        return;
      }
      match line(next.value) {
        case Skip =>
        case Deliver(msg) =>
          MoreAfter(msgs, msg, Drain(line, buffer.Contents()).msgs);
          assert calls[|msgs|..][1..] == calls[|msgs| + 1..];
          Callback(conn, calls[|msgs|..]);
          msgs := msgs + [msg];
        case Malformed =>
          NothingLeft(conn.State(), calls, |msgs|);
          assert msgs + [] == msgs;
          return msgs, false;
      }
    }
  }

  lemma NothingLeft(c: T.Conn, calls: seq<seq<T.Step>>, k: nat)
    ensures k == |calls| ==> Callable(c, calls[k..]) && Called(c, calls[k..]) == c
  {
    assert k == |calls| ==> calls[k..] == [];
  }

  lemma MoreAfter<M>(msgs: seq<M>, msg: M, later: seq<M>)
    ensures msgs + ([msg] + later) == msgs + [msg] + later
  {
  }

  /** A line end found in the bytes so far is still the first one when more bytes follow. */
  lemma FindLineAppend(a: string, b: string)
    ensures FindLine(a, 0).Some? ==> FindLine(a + b, 0) == FindLine(a, 0)
  {
    if FindLine(a, 0).Some? {
      var i := FindLine(a, 0).value;
      forall j: nat | j <= i
        ensures CRLFAt(a + b, j) <==> CRLFAt(a, j)
      {
      }
      FirstIsUnique(a + b, Some(i), FindLine(a + b, 0));
    }
  }

  /** The first line of a buffer and what draining makes of it. */
  lemma DrainUnfolds<M>(line: string -> Line<M>, buf: string)
    ensures FindLine(buf, 0).None? ==> Drain(line, buf) == Drained([], buf, true)
    ensures FindLine(buf, 0).Some? ==>
      var i := FindLine(buf, 0).value; var later := Drain(line, buf[i + 2..]);
      Drain(line, buf) ==
        match line(buf[..i])
        case Skip => later
        case Malformed => Drained([], buf[i + 2..], false)
        case Deliver(msg) => Drained([msg] + later.msgs, later.rest, later.ok)
  {
  }

  /** Draining what has arrived, and then the rest of it with what arrives next, is draining everything at once. */
  lemma {:induction false} DrainAppend<M>(line: string -> Line<M>, a: string, b: string)
    ensures var first := Drain(line, a); var whole := Drain(line, a + b);
      if first.ok
      then var second := Drain(line, first.rest + b);
           whole == Drained(first.msgs + second.msgs, second.rest, second.ok)
      else !whole.ok && whole.msgs == first.msgs
    decreases |a|
  {
    hide Drain, FindLine;
    DrainUnfolds(line, a);
    FindLineAppend(a, b);
    match FindLine(a, 0) {
      case None =>
        assert [] + Drain(line, a + b).msgs == Drain(line, a + b).msgs;
      case Some(i) =>
        LineThenRest(a, b, i);
        DrainUnfolds(line, a + b);
        if !line(a[..i]).Malformed? {
          DrainAppend(line, a[i + 2..], b);
          var first := Drain(line, a[i + 2..]);
          if line(a[..i]).Deliver? && first.ok {
            MoreMessages(line(a[..i]).msg, first.msgs, Drain(line, first.rest + b).msgs);
          }
        }
    }
  }

  lemma LineThenRest(a: string, b: string, i: nat)
    requires i + 2 <= |a|
    ensures (a + b)[..i] == a[..i] && (a + b)[i + 2..] == a[i + 2..] + b
  {
  }

  lemma MoreMessages<M>(m: M, a: seq<M>, b: seq<M>)
    ensures [m] + (a + b) == ([m] + a) + b
  {
  }

  /** One `parseMessage` after each chunk appended to the buffer. */
  function Feed<M>(line: string -> Line<M>, buf: string, chunks: seq<string>): Drained<M>
    decreases |chunks|
  {
    if chunks == [] then Drained([], buf, true)
    else
      var first := Drain(line, buf + chunks[0]);
      if !first.ok then first
      else
        var later := Feed(line, first.rest, chunks[1..]);
        Drained(first.msgs + later.msgs, later.rest, later.ok)
  }

  lemma FeedUnfolds<M>(line: string -> Line<M>, buf: string, chunk: string, chunks: seq<string>)
    ensures Feed(line, buf, []) == Drained([], buf, true)
    ensures var first := Drain(line, buf + chunk); var later := Feed(line, first.rest, chunks);
      Feed(line, buf, [chunk] + chunks)
        == if first.ok then Drained(first.msgs + later.msgs, later.rest, later.ok) else first
  {
    assert ([chunk] + chunks)[1..] == chunks;
  }

  function Join(chunks: seq<string>): string {
    if chunks == [] then "" else chunks[0] + Join(chunks[1..])
  }

  predicate NoLine(s: string) {
    FindLine(s, 0) == None
  }

  /** However a stream is cut, even between CR and LF, the same messages come out and the same bytes stay. */
  lemma {:induction false} ChunkingIsInvisible<M>(line: string -> Line<M>, buf: string, chunks: seq<string>)
    requires NoLine(buf)
    ensures var fed := Feed(line, buf, chunks); var whole := Drain(line, buf + Join(chunks));
      && fed.ok == whole.ok && fed.msgs == whole.msgs
      && (fed.ok ==> fed.rest == whole.rest && NoLine(fed.rest))
    decreases |chunks|
  {
    if chunks == [] {
      assert buf + "" == buf;
    } else {
      var a, b := buf + chunks[0], Join(chunks[1..]);
      assert buf + Join(chunks) == a + b;
      DrainAppend(line, a, b);
      DrainLeavesNoLine(line, a);
      if Drain(line, a).ok {
        ChunkingIsInvisible(line, Drain(line, a).rest, chunks[1..]);
      }
    }
  }

  lemma {:induction false} DrainLeavesNoLine<M>(line: string -> Line<M>, buf: string)
    ensures Drain(line, buf).ok ==> NoLine(Drain(line, buf).rest)
    decreases |buf|
  {
    match FindLine(buf, 0)
    case None =>
    case Some(i) => DrainLeavesNoLine(line, buf[i + 2..]);
  }

  // ----- printed messages come back -----

  function Stream<M>(show: M -> string, msgs: seq<M>): string {
    if msgs == [] then "" else show(msgs[0]) + "\r\n" + Stream(show, msgs[1..])
  }

  predicate OneLine(s: string) {
    forall c :: c in s ==> c != '\r' && c != '\n'
  }

  /** A printer whose every line the parser turns back into the message. */
  ghost predicate Faithful<M>(line: string -> Line<M>, show: M -> string, msgs: seq<M>) {
    forall m :: m in msgs ==> OneLine(show(m)) && line(show(m)) == Deliver(m)
  }

  /** A line without CR or LF is the first one found. */
  lemma FindShown(s: string, later: string)
    requires OneLine(s)
    ensures var all := s + "\r\n" + later;
      FindLine(all, 0) == Some(|s|) && all[..|s|] == s && all[|s| + 2..] == later
  {
    hide FindLine;
    var all := s + "\r\n" + later;
    forall j: nat | j <= |s|
      ensures CRLFAt(all, j) <==> j == |s|
    {
      if j < |s| {
        assert all[j] == s[j] && s[j] in s;
      }
    }
    FirstIsUnique(all, Some(|s|), FindLine(all, 0));
  }

  lemma {:induction false} DrainStream<M>(line: string -> Line<M>, show: M -> string, msgs: seq<M>, tail: string)
    requires Faithful(line, show, msgs) && NoLine(tail)
    ensures Drain(line, Stream(show, msgs) + tail) == Drained(msgs, tail, true)
    decreases |msgs|
  {
    hide Drain, OneLine;
    DrainUnfolds(line, Stream(show, msgs) + tail);
    if msgs == [] {
      assert "" + tail == tail;
    } else {
      hide FindLine;
      var s, later := show(msgs[0]), Stream(show, msgs[1..]);
      assert msgs[0] in msgs;
      assert s + "\r\n" + later + tail == s + "\r\n" + (later + tail);
      FindShown(s, later + tail);
      DrainStream(line, show, msgs[1..], tail);
      assert [msgs[0]] + msgs[1..] == msgs;
    }
  }

  /** The messages sent are the messages received, in order, however their bytes are cut into chunks. */
  lemma SentIsReceived<M>(line: string -> Line<M>, show: M -> string, msgs: seq<M>, tail: string, chunks: seq<string>)
    requires Faithful(line, show, msgs) && NoLine(tail)
    requires Join(chunks) == Stream(show, msgs) + tail
    ensures Feed(line, "", chunks) == Drained(msgs, tail, true)
  {
    ChunkingIsInvisible(line, "", chunks);
    DrainStream(line, show, msgs, tail);
    assert "" + Join(chunks) == Join(chunks);
  }

  // ----- a stream that is still under way -----

  /**
   `buf` has arrived and `coming` has not; together they are the lines of `msgs`, none of which is complete in
   `buf`.
   */
  ghost predicate Carries<M>(show: M -> string, msgs: seq<M>, buf: string, coming: string) {
    NoLine(buf) && buf + coming == Stream(show, msgs)
  }

  /** Less than a line has no line end. */
  lemma PartOfLine(s: string, later: string, part: string, rest: string)
    requires OneLine(s) && part + rest == s + "\r\n" + later && |part| < |s| + 2
    ensures NoLine(part)
  {
    hide FindLine;
    var all := s + "\r\n" + later;
    forall j: nat | j < |part| ensures !CRLFAt(part, j) {
      assert all[j] == part[j];
      if j < |s| {
        assert all[j] == s[j] && s[j] in s;
      }
    }
    FirstIsUnique(part, None, FindLine(part, 0));
  }

  lemma LongerPart(s: string, later: string, part: string, rest: string)
    requires part + rest == s + "\r\n" + later && |part| >= |s| + 2
    ensures part == s + "\r\n" + part[|s| + 2..] && part[|s| + 2..] + rest == later
  {
    var all := s + "\r\n" + later;
    assert part == all[..|part|] && rest == all[|part|..];
    assert all[|s| + 2..] == later;
  }

  /** What has arrived of a stream are its first messages, and the rest of the stream is still under way. */
  lemma {:induction false} DrainPart<M>(
    line: string -> Line<M>, show: M -> string, msgs: seq<M>, part: string, rest: string)
    returns (k: nat)
    requires Faithful(line, show, msgs) && part + rest == Stream(show, msgs)
    ensures k <= |msgs|
    ensures var d := Drain(line, part); d.ok && d.msgs == msgs[..k] && Carries(show, msgs[k..], d.rest, rest)
    decreases |msgs|
  {
    hide Drain, OneLine;
    DrainUnfolds(line, part);
    if msgs == [] {
      assert part == "" && rest == "";
      NothingArrived(line);
      return 0;
    }
    hide FindLine;
    var s, later := show(msgs[0]), Stream(show, msgs[1..]);
    assert msgs[0] in msgs && forall m :: m in msgs[1..] ==> m in msgs;
    if |part| < |s| + 2 {
      PartOfLine(s, later, part, rest);
      return 0;
    }
    LongerPart(s, later, part, rest);
    FindShown(s, part[|s| + 2..]);
    var j := DrainPart(line, show, msgs[1..], part[|s| + 2..], rest);
    assert [msgs[0]] + msgs[1..][..j] == msgs[..j + 1] && msgs[1..][j..] == msgs[j + 1..];
    return j + 1;
  }

  lemma NothingArrived<M>(line: string -> Line<M>)
    ensures Drain(line, "") == Drained([], "", true)
  {
  }

  lemma {:induction false} StreamConcat<M>(show: M -> string, a: seq<M>, b: seq<M>)
    ensures Stream(show, a + b) == Stream(show, a) + Stream(show, b)
    decreases |a|
  {
    if a == [] {
      assert a + b == b && "" + Stream(show, b) == Stream(show, b);
    } else {
      assert (a + b)[1..] == a[1..] + b;
      StreamConcat(show, a[1..], b);
      assert show(a[0]) + "\r\n" + (Stream(show, a[1..]) + Stream(show, b))
          == show(a[0]) + "\r\n" + Stream(show, a[1..]) + Stream(show, b);
    }
  }

  /** Sending more messages. */
  lemma CarriesMore<M>(show: M -> string, msgs: seq<M>, buf: string, coming: string, more: seq<M>)
    requires Carries(show, msgs, buf, coming)
    ensures Carries(show, msgs + more, buf, coming + Stream(show, more))
  {
    hide Stream, FindLine;
    StreamConcat(show, msgs, more);
    var bytes := Stream(show, more);
    assert buf + (coming + bytes) == buf + coming + bytes;
  }

  /** Bytes arrive and are drained. */
  lemma CarriesOn<M>(line: string -> Line<M>, show: M -> string, msgs: seq<M>, buf: string, coming: string, n: nat)
    returns (k: nat)
    requires Faithful(line, show, msgs) && Carries(show, msgs, buf, coming) && n <= |coming|
    ensures k <= |msgs|
    ensures var d := Drain(line, buf + coming[..n]);
      d.ok && d.msgs == msgs[..k] && Carries(show, msgs[k..], d.rest, coming[n..])
  {
    assert buf + coming[..n] + coming[n..] == buf + coming;
    k := DrainPart(line, show, msgs, buf + coming[..n], coming[n..]);
  }

  /** When nothing is under way every message has arrived. */
  lemma NothingComing<M>(line: string -> Line<M>, show: M -> string, msgs: seq<M>, buf: string)
    requires Faithful(line, show, msgs) && Carries(show, msgs, buf, "")
    ensures msgs == [] && buf == ""
  {
    hide FindLine, OneLine;
    assert buf + "" == buf;
    if msgs != [] {
      assert msgs[0] in msgs;
      FindShown(show(msgs[0]), Stream(show, msgs[1..]));
    }
  }
}
