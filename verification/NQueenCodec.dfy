/** The text protocol of the N-queens program. */
module NQueenCodec {
  import opened Common
  import opened Decimal
  import opened Framing
  import B = Buffer
  import T = TcpConnection

  datatype Message =
    | Request(nQueen: nat, cols: seq<nat>)
    | Response(count: int, cols: seq<nat>)
    | NCores(nCores: nat)

  predicate WellFormed(m: Message) {
    match m
    case Request(n, cols) => n <= UINT32_MAX && forall c :: c in cols ==> c <= UINT32_MAX
    case Response(count, cols) => INT64_MIN <= count <= INT64_MAX && forall c :: c in cols ==> c <= UINT32_MAX
    case NCores(n) => n <= UINT32_MAX
  }

  // ----- the printers -----

  function ShowCols(cols: seq<nat>): string {
    if cols == [] then "" else " " + (PrintNat(cols[0]) + ShowCols(cols[1..]))
  }

  /** A message as it is sent, without the CR LF that ends it. */
  function Show(m: Message): string {
    match m
    case Request(n, cols) => PrintNat(n) + ShowCols(cols)
    case Response(count, cols) => "# " + (PrintInt(count) + ShowCols(cols))
    case NCores(n) => "$ " + PrintNat(n)
  }

  /** `toString` of a request: a loop that pushes onto the string. */
  method PrintRequest(n: nat, cols: seq<nat>) returns (str: string)
    ensures str == Show(Request(n, cols)) + "\r\n" == PrintNat(n) + ShowCols(cols) + "\r\n"
  {
    str := PrintNat(n);
    str := PushCols(str, cols);
    str := str + "\r\n";
  }

  method PrintResponse(count: int, cols: seq<nat>) returns (str: string)
    ensures str == Show(Response(count, cols)) + "\r\n" == "# " + PrintInt(count) + ShowCols(cols) + "\r\n"
  {
    str := "# " + PrintInt(count);
    str := PushCols(str, cols);
    assert "# " + PrintInt(count) + ShowCols(cols) == "# " + (PrintInt(count) + ShowCols(cols));
    str := str + "\r\n";
  }

  /** `toString` of a core count. */
  method PrintNCores(n: nat) returns (str: string)
    ensures str == Show(NCores(n)) + "\r\n" == "$ " + PrintNat(n) + "\r\n"
  {
    str := "$ ";
    str := str + PrintNat(n);
    str := str + "\r\n";
  }

  /** Each column is a space and its digits, one behind the other. */
  lemma {:induction false} ColsConcat(a: seq<nat>, b: seq<nat>)
    ensures ShowCols(a + b) == ShowCols(a) + ShowCols(b)
    ensures a != [] ==> ShowCols([a[0]]) == " " + PrintNat(a[0])
  {
    hide PrintNat;
    if a == [] {
      assert a + b == b;
    } else {
      assert (a + b)[1..] == a[1..] + b && [a[0]][1..] == [];
      ColsConcat(a[1..], b);
      assert PrintNat(a[0]) + "" == PrintNat(a[0]);
      assert " " + (PrintNat(a[0]) + (ShowCols(a[1..]) + ShowCols(b)))
          == " " + (PrintNat(a[0]) + ShowCols(a[1..])) + ShowCols(b);
    }
  }

  method PushCols(start: string, cols: seq<nat>) returns (str: string)
    ensures str == start + ShowCols(cols)
  {
    str := start;
    for i := 0 to |cols|
      invariant str + ShowCols(cols[i..]) == start + ShowCols(cols)
    {
      assert str + ShowCols(cols[i..]) == str + [' '] + PrintNat(cols[i]) + ShowCols(cols[i + 1..]);
      str := str + [' '];
      str := str + PrintNat(cols[i]);
    }
  }

  // ----- the parsers -----

  lemma {:induction false} SkipShrinks(s: string)
    ensures |SkipSpace(s)| <= |s|
  {
    if s != [] && IsSpace(s[0]) {
      SkipShrinks(s[1..]);
    }
  }

  lemma ReadShrinks(s: string, max: nat)
    ensures ReadUnsigned(s, max).Some? ==> |ReadUnsigned(s, max).value.1| < |s| && ReadUnsigned(s, max).value.0 >= 0
  {
    SkipShrinks(s);
    var t := SkipSpace(s);
    var digits := Digits(t);
    DigitsNonNegative(digits[..LeadingDigits(digits)]);
  }

  lemma {:induction false} DigitsNonNegative(s: string)
    requires forall i :: 0 <= i < |s| ==> IsDigit(s[i])
    ensures DigitsValue(s) >= 0
  {
    if s != [] {
      DigitsNonNegative(s[..|s| - 1]);
    }
  }

  /** `while (in >> col)`: columns are taken until one cannot be read, and what is left is ignored. */
  function ParseCols(s: string): seq<nat>
    decreases |s|
  {
    ReadShrinks(s, UINT32_MAX);
    match ReadUnsigned(s, UINT32_MAX)
    case None => []
    case Some((col, rest)) => [col] + ParseCols(rest)
  }

  function ParseRequest(s: string): Line<Message> {
    ReadShrinks(s, UINT32_MAX);
    match ReadUnsigned(s, UINT32_MAX)
    case None => Malformed
    case Some((n, rest)) => Deliver(Request(n, ParseCols(rest)))
  }

  function ParseResponse(s: string): Line<Message> {
    match ReadSigned(s, INT64_MIN, INT64_MAX)
    case None => Malformed
    case Some((count, rest)) => Deliver(Response(count, ParseCols(rest)))
  }

  function ParseNCores(s: string): Line<Message> {
    ReadShrinks(s, UINT32_MAX);
    match ReadUnsigned(s, UINT32_MAX)
    case None => Malformed
    case Some((n, _)) => Deliver(NCores(n))
  }

  function ParseLine(s: string): Line<Message> {
    if s == "" then Skip
    else if s[0] == '$' then ParseNCores(s[1..])
    else if s[0] == '#' then ParseResponse(s[1..])
    else if IsDigit(s[0]) then ParseRequest(s)
    else Malformed
  }

  // ----- what every line means -----

  /** Columns are read until there is none, or one that does not fit; what follows is ignored. */
  lemma ColsMean(text: string, space: string, sign: string, digits: string, rest: string)
    requires AsNumber(text, space, sign, digits, rest)
    ensures var value := DigitsValue(digits);
      ParseCols(text)
        == if digits == "" || value > 0xffff_ffff then []
           else if sign == "-" && value > 0 then [0x1_0000_0000 - value] + ParseCols(rest)
           else [value] + ParseCols(rest)
  {
    hide ReadUnsigned, DigitsValue, AsNumber;
    ReadUnsignedMeans(text, space, sign, digits, rest, UINT32_MAX);
    DigitsAreNatural(text, space, sign, digits, rest);
  }

  lemma DigitsAreNatural(text: string, space: string, sign: string, digits: string, rest: string)
    requires AsNumber(text, space, sign, digits, rest)
    ensures DigitsValue(digits) >= 0
  {
    assert forall i :: 0 <= i < |digits| ==> digits[i] in digits;
    DigitsNonNegative(digits);
  }

  /** Which lines are core counts, which are malformed ones. */
  lemma NCoresLine(line: string, space: string, sign: string, digits: string, rest: string)
    requires line != "" && line[0] == '$' && AsNumber(line[1..], space, sign, digits, rest)
    ensures var value := DigitsValue(digits);
      ParseLine(line)
        == if digits == "" || value > 0xffff_ffff then Malformed
           else if sign == "-" && value > 0 then Deliver(NCores(0x1_0000_0000 - value))
           else Deliver(NCores(if value >= 0 then value else 0))
  {
    hide ReadUnsigned, DigitsValue, AsNumber;
    ReadUnsignedMeans(line[1..], space, sign, digits, rest, UINT32_MAX);
    DigitsAreNatural(line[1..], space, sign, digits, rest);
  }

  lemma ResponseLine(line: string, space: string, sign: string, digits: string, rest: string)
    requires line != "" && line[0] == '#' && AsNumber(line[1..], space, sign, digits, rest)
    ensures var value := if sign == "-" then -DigitsValue(digits) else DigitsValue(digits);
      ParseLine(line)
        == if digits == "" || !(-0x8000_0000_0000_0000 <= value <= 0x7fff_ffff_ffff_ffff) then Malformed
           else Deliver(Response(value, ParseCols(rest)))
  {
    hide ReadSigned, DigitsValue, AsNumber;
    ReadSignedMeans(line[1..], space, sign, digits, rest, INT64_MIN, INT64_MAX);
  }

  lemma RequestLine(line: string, digits: string, rest: string)
    requires line != "" && '0' <= line[0] <= '9' && AsNumber(line, "", "", digits, rest)
    ensures var value := DigitsValue(digits);
      ParseLine(line)
        == if value > 0xffff_ffff then Malformed
           else Deliver(Request(if value >= 0 then value else 0, ParseCols(rest)))
  {
    hide ReadUnsigned, DigitsValue;
    ReadUnsignedMeans(line, "", "", digits, rest, UINT32_MAX);
    DigitsAreNatural(line, "", "", digits, rest);
  }

  /** A line without one of the marks is malformed, but an empty one is passed over. */
  lemma OtherLine(line: string)
    ensures line == "" ==> ParseLine(line) == Skip
    ensures line != "" && line[0] != '$' && line[0] != '#' && !('0' <= line[0] <= '9') ==> ParseLine(line) == Malformed
  {
  }

  // ----- parsing undoes printing -----

  lemma {:induction false} ParseShownCols(cols: seq<nat>)
    requires forall c :: c in cols ==> c <= UINT32_MAX
    ensures ParseCols(ShowCols(cols)) == cols && Ends(ShowCols(cols))
  {
    if cols == [] {
      assert ReadUnsigned("", UINT32_MAX) == None;
    } else {
      assert cols[0] in cols && forall c :: c in cols[1..] ==> c in cols;
      ParseShownCols(cols[1..]);
      ReadUnsignedPrinted(cols[0], ShowCols(cols[1..]), UINT32_MAX);
    }
  }

  lemma ParseShown(m: Message)
    requires WellFormed(m)
    ensures ParseLine(Show(m)) == Deliver(m)
  {
    hide ReadUnsigned, ReadSigned, PrintNat, PrintInt;
    match m
    case Request(n, cols) =>
      ParseShownCols(cols);
      ReadUnsignedPrinted(n, ShowCols(cols), UINT32_MAX);
      PrintNatDigits(n);
      assert Show(m)[0] == PrintNat(n)[0] && PrintNat(n)[0] in PrintNat(n);
    case Response(count, cols) =>
      ParseShownCols(cols);
      ReadSignedPrinted(count, ShowCols(cols), INT64_MIN, INT64_MAX);
      assert Show(m)[1..] == " " + (PrintInt(count) + ShowCols(cols));
    case NCores(n) =>
      ReadUnsignedPrinted(n, "", UINT32_MAX);
      assert PrintNat(n) + "" == PrintNat(n);
      assert Show(m)[1..] == " " + PrintNat(n);
  }

  lemma {:induction false} ColsOnOneLine(cols: seq<nat>)
    ensures OneLine(ShowCols(cols))
  {
    if cols != [] {
      ColsOnOneLine(cols[1..]);
      PrintNatDigits(cols[0]);
    }
  }

  lemma ShownOnOneLine(m: Message)
    ensures OneLine(Show(m))
  {
    match m
    case Request(n, cols) =>
      ColsOnOneLine(cols);
      PrintNatDigits(n);
    case Response(count, cols) =>
      ColsOnOneLine(cols);
      PrintNatDigits(if count < 0 then -count else count);
    case NCores(n) =>
      PrintNatDigits(n);
  }

  lemma WellFormedLines(msgs: seq<Message>)
    requires forall m :: m in msgs ==> WellFormed(m)
    ensures Faithful(ParseLine, Show, msgs)
  {
    forall m | m in msgs
      ensures OneLine(Show(m)) && ParseLine(Show(m)) == Deliver(m)
    {
      ShownOnOneLine(m);
      ParseShown(m);
    }
  }

  /** Well-formed messages arrive as they were sent, in order, however the stream is cut into chunks. */
  lemma MessagesArrive(msgs: seq<Message>, tail: string, chunks: seq<string>)
    requires (forall m :: m in msgs ==> WellFormed(m)) && NoLine(tail)
    requires Join(chunks) == Stream(Show, msgs) + tail
    ensures Feed(ParseLine, "", chunks) == Drained(msgs, tail, true)
  {
    WellFormedLines(msgs);
    SentIsReceived(ParseLine, Show, msgs, tail, chunks);
  }

  /**
   The codec over a real buffer: a chunk is appended, then `parseMessage` runs. Each message goes to its callback,
   which makes its calls on the connection before the next line is read; the first malformed line closes the
   connection by force.
   */
  method OnBytes(
    conn: T.TcpConnection, buffer: B.Buffer, chunk: string, calls: seq<seq<T.Step>>)
    returns (msgs: seq<Message>, ok: bool)
    requires conn.Valid() && buffer.Valid() && Apart(buffer, conn)
    requires |calls| == |Drain(ParseLine, buffer.Contents() + chunk).msgs| && Callable(conn.State(), calls)
    modifies buffer, buffer.buffer, conn, conn.outputBuffer, conn.outputBuffer.buffer
    ensures conn.Valid() && buffer.Valid() && (buffer.buffer == old(buffer.buffer) || fresh(buffer.buffer))
    ensures Drained(msgs, buffer.Contents(), ok) == Drain(ParseLine, old(buffer.Contents()) + chunk)
    ensures var c := Called(old(conn.State()), calls);
      conn.State() == if ok then c else T.ForceClose(c)
  {
    hide Drain, Callable, Called, T.ForceClose, T.Send, T.TcpConnection.State;
    buffer.Append(chunk);
    msgs, ok := ParseMessage(ParseLine, conn, buffer, calls);
    if !ok {
      conn.DoForceClose();
    }
  }
}
