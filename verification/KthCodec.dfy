/** The text protocol of the k-th element program, with its hand-written 128-bit printer and parser. */
module KthCodec {
  import opened Common
  import opened Decimal
  import opened Framing
  import B = Buffer
  import T = TcpConnection

  // ----- parseInt128 -----

  /** `Overflow` marks an argument on which the source's signed arithmetic overflows. */
  datatype Parsed = NoNumber | Number(len: nat, value: int) | Overflow

  function ParseInt128(arg: string): Parsed {
    var start := if Negative(arg) then 1 else 0;
    var n := LeadingDigits(arg[start..]);
    var value := DigitsValue(arg[start..][..n]);
    if n == 0 then NoNumber
    else if value > INT128_MAX then Overflow
    else Number(start + n, if Negative(arg) then -value else value)
  }

  lemma {:induction false} DigitsGrow(s: string, i: nat)
    requires i <= |s| && forall j :: 0 <= j < |s| ==> IsDigit(s[j])
    ensures 0 <= DigitsValue(s[..i]) <= DigitsValue(s)
  {
    if i == |s| {
      assert s[..i] == s;
      if s != [] {
        DigitsGrow(s[..i - 1], i - 1);
        assert s[..i - 1][..i - 1] == s[..i - 1];
      }
    } else {
      DigitsGrow(s[..|s| - 1], i);
      assert s[..|s| - 1][..i] == s[..i];
    }
  }

  lemma NoDigits()
    ensures LeadingDigits("") == 0 && DigitsValue("") == 0
  {
  }

  lemma OneDigit(s: string, k: nat)
    requires k < |s|
    ensures DigitsValue(s[..k + 1]) == DigitsValue(s[..k]) * 10 + DigitOf(s[k])
  {
    assert s[..k + 1][..k] == s[..k];
  }

  /** The digit loop, stopping with `Overflow` where the source would overflow. */
  method ParseDigits(arg: string) returns (r: Parsed)
    ensures r == ParseInt128(arg)
  {
    hide LeadingDigits, DigitsValue;
    NoDigits();
    if arg == "" {
      return NoNumber;
    }
    var start := if arg[0] == '-' then 1 else 0;
    ghost var digits := arg[start..];
    ghost var n := LeadingDigits(digits);
    if start == |arg| || !IsDigit(arg[start]) {
      return NoNumber;
    }
    var i, ret := start, 0;
    while i < |arg| && IsDigit(arg[i])
      invariant start <= i <= start + n
      invariant ret == DigitsValue(digits[..i - start]) && 0 <= ret <= INT128_MAX
    {
      var k := i - start;
      assert digits[k] == arg[i];
      OneDigit(digits, k);
      if ret * 10 + DigitOf(arg[i]) > INT128_MAX {
        DigitsGrow(digits[..n], k + 1);
        assert digits[..n][..k + 1] == digits[..k + 1];
        return Overflow;
      }
      ret := ret * 10;
      ret := ret + DigitOf(arg[i]);
      i := i + 1;
    }
    if arg[0] == '-' {
      ret := -ret;
    }
    return Number(i, ret);
  }

  /**
   Parsing what was printed gives the number back and consumes exactly its digits, for every 128-bit number
   but the most negative one, whose digits overflow before the sign is applied.
   */
  lemma ParsePrinted(x: int, rest: string)
    requires INT128_MIN <= x <= INT128_MAX && Ends(rest)
    ensures ParseInt128(PrintInt(x) + rest) == Number(|PrintInt(x)|, x) <==> x != INT128_MIN
    ensures x == INT128_MIN ==> ParseInt128(PrintInt(x) + rest) == Overflow
  {
    hide PrintNat, ParseInt128;
    if x < 0 {
      PrintedDigits(-x, rest);
      assert PrintInt(x) + rest == "-" + (PrintNat(-x) + rest);
      ParseNegative(PrintNat(-x) + rest);
    } else {
      PrintedDigits(x, rest);
      ParsePositive(PrintNat(x) + rest);
    }
  }

  lemma ParsePositive(s: string)
    requires !Signed(s)
    ensures var n := LeadingDigits(s); var value := DigitsValue(s[..n]);
      ParseInt128(s) == if n == 0 then NoNumber else if value > INT128_MAX then Overflow else Number(n, value)
  {
    hide LeadingDigits, DigitsValue;
    assert s[0..] == s;
  }

  lemma ParseNegative(s: string)
    ensures var n := LeadingDigits(s); var value := DigitsValue(s[..n]);
      ParseInt128("-" + s) == if n == 0 then NoNumber else if value > INT128_MAX then Overflow
          else Number(n + 1, -value)
  {
    hide LeadingDigits, DigitsValue;
    assert ("-" + s)[1..] == s;
  }

  // ----- messages -----

  datatype Message =
    | Query(guess: int)
    | State(sum: int, count: int, min: int, max: int)
    | Answer(nLess: int, nEqual: int)

  predicate WellFormed(m: Message) {
    match m
    case Query(g) => Int64(g)
    case State(sum, count, min, max) => INT128_MIN < sum <= INT128_MAX && Int64(count) && Int64(min) && Int64(max)
    case Answer(l, e) => Int64(l) && Int64(e)
  }

  function Show(m: Message): string {
    match m
    case Query(g) => "@" + PrintInt(g)
    case State(sum, count, min, max) =>
      "#" + (PrintInt(sum) + (" " + (PrintInt(count) + (" " + (PrintInt(min) + (" " + PrintInt(max)))))))
    case Answer(l, e) => "$" + (PrintInt(l) + (" " + PrintInt(e)))
  }

  /** `sendState`: the string is built piece by piece around the 128-bit printer. */
  method SendState(sum: int, count: int, min: int, max: int) returns (str: string)
    requires INT128_MIN <= sum <= INT128_MAX
    ensures str == Show(State(sum, count, min, max)) + "\r\n"
    ensures str == "#" + PrintInt(sum) + " " + PrintInt(count) + " " + PrintInt(min) + " " + PrintInt(max) + "\r\n"
  {
    hide PrintInt;
    str := "#";
    var printed := ToString(sum);
    str := str + printed;
    str := str + " ";
    str := str + PrintInt(count);
    str := str + " ";
    str := str + PrintInt(min);
    str := str + " ";
    str := str + PrintInt(max);
    FourNumbers(PrintInt(sum), PrintInt(count), PrintInt(min), PrintInt(max));
    str := str + "\r\n";
  }

  method SendQuery(guess: int) returns (str: string)
    ensures str == Show(Query(guess)) + "\r\n" == "@" + PrintInt(guess) + "\r\n"
  {
    str := "@";
    str := str + PrintInt(guess);
    str := str + "\r\n";
  }

  method SendAnswer(less: int, equal: int) returns (str: string)
    ensures str == Show(Answer(less, equal)) + "\r\n" == "$" + PrintInt(less) + " " + PrintInt(equal) + "\r\n"
  {
    hide PrintInt;
    str := "$";
    str := str + PrintInt(less);
    str := str + " ";
    str := str + PrintInt(equal);
    assert "$" + PrintInt(less) + " " + PrintInt(equal) == "$" + (PrintInt(less) + (" " + PrintInt(equal)));
    str := str + "\r\n";
  }

  lemma FourNumbers(a: string, b: string, c: string, d: string)
    ensures "#" + a + " " + b + " " + c + " " + d == "#" + (a + (" " + (b + (" " + (c + (" " + d))))))
  {
  }

  function ReadInt64(s: string): Option<(int, string)> {
    ReadSigned(s, INT64_MIN, INT64_MAX)
  }

  function ParseQuery(s: string): Line<Message> {
    match ReadInt64(s)
    case None => Malformed
    case Some((g, _)) => Deliver(Query(g))
  }

  function ParseAnswer(s: string): Line<Message> {
    match ReadInt64(s)
    case None => Malformed
    case Some((l, rest)) =>
      match ReadInt64(rest)
      case None => Malformed
      case Some((e, _)) => Deliver(Answer(l, e))
  }

  /** An argument whose number overflows the source's arithmetic is given no meaning: it is treated as malformed. */
  function ParseState(s: string): Line<Message> {
    match ParseInt128(s)
    case NoNumber => Malformed
    case Overflow => Malformed
    case Number(len, sum) =>
      if len > |s| then Malformed else
      match ReadInt64(s[len..])
      case None => Malformed
      case Some((count, rest)) =>
        match ReadInt64(rest)
        case None => Malformed
        case Some((min, rest2)) =>
          match ReadInt64(rest2)
          case None => Malformed
          case Some((max, _)) => Deliver(State(sum, count, min, max))
  }

  function ParseLine(s: string): Line<Message> {
    if s == "" then Skip
    else if s[0] == '@' then ParseQuery(s[1..])
    else if s[0] == '#' then ParseState(s[1..])
    else if s[0] == '$' then ParseAnswer(s[1..])
    else Malformed
  }

  // ----- what every line means -----

  /** A number of a line: what is before it, its sign and digits, and what follows it. */
  datatype Word = Word(space: string, sign: string, digits: string, rest: string) {
    predicate Of(text: string) {
      AsNumber(text, space, sign, digits, rest)
    }

    function Value(): int {
      if sign == "-" then -DigitsValue(digits) else DigitsValue(digits)
    }

    predicate Good() {
      digits != "" && -0x8000_0000_0000_0000 <= Value() <= 0x7fff_ffff_ffff_ffff
    }
  }

  lemma ReadWord(text: string, w: Word)
    requires w.Of(text)
    ensures ReadInt64(text) == if w.Good() then Some((w.Value(), w.rest)) else None
  {
    ReadSignedMeans(text, w.space, w.sign, w.digits, w.rest, INT64_MIN, INT64_MAX);
  }

  /** The 128-bit number begins the text at once, with a minus sign or without one. */
  lemma Int128Means(text: string, w: Word)
    requires w.Of(text) && w.space == "" && w.sign != "+"
    ensures ParseInt128(text)
      == if w.digits == "" then NoNumber
         else if DigitsValue(w.digits) > 0x7fff_ffff_ffff_ffff_ffff_ffff_ffff_ffff then Overflow
         else Number(|w.sign| + |w.digits|, w.Value())
    ensures |w.sign| + |w.digits| <= |text| && text[|w.sign| + |w.digits|..] == w.rest
  {
    hide LeadingDigits, DigitsValue;
    assert w.sign + (w.digits + w.rest) == (w.sign + w.digits) + w.rest;
    DigitsStop(w.digits, w.rest);
    var s := w.digits + w.rest;
    assert s[..|w.digits|] == w.digits;
    if w.sign == "-" {
      assert text == "-" + s;
      ParseNegative(s);
    } else {
      assert text == s;
      ParsePositive(s);
    }
  }

  /** A text that begins with white space or a plus sign has no 128-bit number. */
  lemma NoInt128(text: string)
    requires text != "" && text[0] != '-' && !('0' <= text[0] <= '9')
    ensures ParseInt128(text) == NoNumber
  {
    assert text[0..] == text;
  }

  lemma QueryLine(line: string, w: Word)
    requires line != "" && line[0] == '@' && w.Of(line[1..])
    ensures ParseLine(line) == if w.Good() then Deliver(Query(w.Value())) else Malformed
  {
    ReadWord(line[1..], w);
  }

  lemma AnswerLine(line: string, less: Word, equal: Word)
    requires line != "" && line[0] == '$' && less.Of(line[1..]) && equal.Of(less.rest)
    ensures ParseLine(line)
      == if less.Good() && equal.Good() then Deliver(Answer(less.Value(), equal.Value())) else Malformed
  {
    hide ReadInt64;
    ReadWord(line[1..], less);
    ReadWord(less.rest, equal);
  }

  lemma StateLine(line: string, sum: Word, count: Word, min: Word, max: Word)
    requires line != "" && line[0] == '#' && sum.Of(line[1..]) && sum.space == "" && sum.sign != "+"
    requires count.Of(sum.rest) && min.Of(count.rest) && max.Of(min.rest)
    ensures ParseLine(line)
      == if sum.digits != "" && DigitsValue(sum.digits) <= 0x7fff_ffff_ffff_ffff_ffff_ffff_ffff_ffff
            && count.Good() && min.Good() && max.Good()
         then Deliver(State(sum.Value(), count.Value(), min.Value(), max.Value()))
         else Malformed
  {
    hide ReadInt64, ParseInt128, DigitsValue, AsNumber, Word.Of, Word.Good;
    Int128Means(line[1..], sum);
    ReadWord(sum.rest, count);
    ReadWord(count.rest, min);
    ReadWord(min.rest, max);
  }

  /** Any other line is malformed, but an empty one is passed over. */
  lemma OtherLine(line: string)
    ensures line == "" ==> ParseLine(line) == Skip
    ensures line != "" && line[0] != '@' && line[0] != '#' && line[0] != '$' ==> ParseLine(line) == Malformed
    ensures line != "" && line[0] == '#' && |line| > 1 && line[1] != '-' && !('0' <= line[1] <= '9') ==>
      ParseLine(line) == Malformed
  {
    if line != "" && line[0] == '#' && |line| > 1 && line[1] != '-' && !('0' <= line[1] <= '9') {
      NoInt128(line[1..]);
    }
  }

  lemma ParseShownState(sum: int, count: int, min: int, max: int)
    requires WellFormed(State(sum, count, min, max))
    ensures ParseLine(Show(State(sum, count, min, max))) == Deliver(State(sum, count, min, max))
  {
    hide ReadSigned, PrintInt, ParseInt128;
    var d := PrintInt(max);
    var c := PrintInt(min) + (" " + d);
    var b := PrintInt(count) + (" " + c);
    var a := PrintInt(sum) + (" " + b);
    assert d + "" == d;
    ReadSignedPrinted(max, "", INT64_MIN, INT64_MAX);
    ReadSignedPrinted(min, " " + d, INT64_MIN, INT64_MAX);
    ReadSignedPrinted(count, " " + c, INT64_MIN, INT64_MAX);
    ParsePrinted(sum, " " + b);
    assert a[|PrintInt(sum)|..] == " " + b;
    assert ("#" + a)[1..] == a;
  }

  lemma ParseShown(m: Message)
    requires WellFormed(m)
    ensures ParseLine(Show(m)) == Deliver(m)
  {
    hide ReadSigned, PrintInt, ParseInt128;
    match m
    case Query(g) =>
      ReadSignedPrinted(g, "", INT64_MIN, INT64_MAX);
      assert PrintInt(g) + "" == PrintInt(g) == Show(m)[1..];
    case State(sum, count, min, max) =>
      ParseShownState(sum, count, min, max);
    case Answer(l, e) =>
      ReadSignedPrinted(e, "", INT64_MIN, INT64_MAX);
      ReadSignedPrinted(l, " " + PrintInt(e), INT64_MIN, INT64_MAX);
      assert PrintInt(e) + "" == PrintInt(e);
      assert Show(m)[1..] == PrintInt(l) + (" " + PrintInt(e));
  }

  lemma IntOnOneLine(x: int)
    ensures OneLine(PrintInt(x))
  {
    PrintNatDigits(Abs(x));
  }

  lemma ShownOnOneLine(m: Message)
    ensures OneLine(Show(m))
  {
    hide PrintInt;
    match m
    case Query(g) =>
      IntOnOneLine(g);
    case State(sum, count, min, max) =>
      IntOnOneLine(sum);
      IntOnOneLine(count);
      IntOnOneLine(min);
      IntOnOneLine(max);
    case Answer(l, e) =>
      IntOnOneLine(l);
      IntOnOneLine(e);
  }

  lemma WellFormedLines(msgs: seq<Message>)
    requires forall m :: m in msgs ==> WellFormed(m)
    ensures Faithful(ParseLine, Show, msgs)
  {
    forall m | m in msgs
      ensures OneLine(Show(m)) && ParseLine(Show(m)) == Deliver(m)
    {
      ShownOnOneLine(m);
      ParseShown(m);
    }
  }

  /** States, queries and answers arrive as they were sent, in order, however the stream is cut into chunks. */
  lemma MessagesArrive(msgs: seq<Message>, tail: string, chunks: seq<string>)
    requires (forall m :: m in msgs ==> WellFormed(m)) && NoLine(tail)
    requires Join(chunks) == Stream(Show, msgs) + tail
    ensures Feed(ParseLine, "", chunks) == Drained(msgs, tail, true)
  {
    WellFormedLines(msgs);
    SentIsReceived(ParseLine, Show, msgs, tail, chunks);
  }

  /** What the peer is told of a malformed line. */
  const BAD: string := "bad message\r\n"

  /**
   The codec over a real buffer: a chunk is appended, then `parseMessage` runs. Each message goes to its callback,
   which makes its calls on the connection before the next line is read; the first malformed line is answered by
   a message, and the connection is closed by force. `res` is what the socket says to the answer.
   */
  method OnBytes(
    conn: T.TcpConnection, buffer: B.Buffer, chunk: string, calls: seq<seq<T.Step>>, res: T.WriteResult)
    returns (msgs: seq<Message>, ok: bool)
    requires conn.Valid() && buffer.Valid() && Apart(buffer, conn)
    requires |calls| == |Drain(ParseLine, buffer.Contents() + chunk).msgs| && Callable(conn.State(), calls)
    requires T.Possible(res, |BAD|)
    modifies buffer, buffer.buffer, conn, conn.outputBuffer, conn.outputBuffer.buffer
    ensures conn.Valid() && buffer.Valid() && (buffer.buffer == old(buffer.buffer) || fresh(buffer.buffer))
    ensures Drained(msgs, buffer.Contents(), ok) == Drain(ParseLine, old(buffer.Contents()) + chunk)
    ensures var c := Called(old(conn.State()), calls);
      conn.State() == if ok then c else T.ForceClose(T.Send(c, "bad message\r\n", res))
  {
    hide Drain, Callable, Called, T.ForceClose, T.Send, T.TcpConnection.State;
    buffer.Append(chunk);
    msgs, ok := ParseMessage(ParseLine, conn, buffer, calls);
    if !ok {
      conn.DoSend(BAD, res, true);
      conn.DoForceClose();
    }
  }
}
