/** Text files of numbers, one a line, as the sorter reads and writes them. */
module TextFile {
  import opened Common
  import opened Decimal

  /** `fgets` into a buffer of 32 characters takes at most 31. */
  const MAX_LINE := 31

  /** How many characters `fgets` takes: a line with its newline, the rest of the file, or as many as fit. */
  function LineLength(text: string, max: nat): (n: nat)
    requires text != "" && max > 0
    ensures 0 < n <= max && n <= |text|
    ensures forall i :: 0 <= i < n - 1 ==> text[i] != '\n'
    ensures n == max || n == |text| || text[n - 1] == '\n'
  {
    if text[0] == '\n' || |text| == 1 || max == 1 then 1 else 1 + LineLength(text[1..], max - 1)
  }

  /** `toIntOrDie`: `strtol` finds a number that fits, or the program ends. */
  function ToInt(line: string): Option<int> {
    match ReadSigned(line, INT64_MIN, INT64_MAX)
    case None => None
    case Some((x, _)) => Some(x)
  }

  /** Numbers read, and those of the rest of the file. */
  function Before(vec: seq<int>, rest: Option<seq<int>>): Option<seq<int>> {
    match rest
    case None => None
    case Some(more) => Some(vec + more)
  }

  /** The numbers of a file, unless a line makes the program end. */
  function Parse(text: string): Option<seq<int>>
    decreases |text|
  {
    if text == "" then Some([])
    else
      var n := LineLength(text, MAX_LINE);
      match ToInt(text[..n])
      case None => None
      case Some(x) => Before([x], Parse(text[n..]))
  }

  // ----- what a file means, line by line -----

  function ValueOf(sign: string, digits: string): int {
    if sign == "-" then -DigitsValue(digits) else DigitsValue(digits)
  }

  /** The line begins with this number, and it fits. */
  ghost predicate Denotes(line: string, x: int) {
    Int64(x)
    && exists space, sign, digits, rest ::
         AsNumber(line, space, sign, digits, rest) && digits != "" && x == ValueOf(sign, digits)
  }

  /** The line begins with no number, or with one that does not fit. */
  ghost predicate Wrong(line: string) {
    exists space, sign, digits, rest ::
      AsNumber(line, space, sign, digits, rest) && (digits == "" || !Int64(ValueOf(sign, digits)))
  }

  lemma DenotesIsRead(line: string, x: int)
    requires Denotes(line, x)
    ensures ToInt(line) == Some(x)
  {
    var space, sign, digits, rest :|
      AsNumber(line, space, sign, digits, rest) && digits != "" && x == ValueOf(sign, digits);
    ReadSignedMeans(line, space, sign, digits, rest, INT64_MIN, INT64_MAX);
  }

  lemma WrongIsFatal(line: string)
    requires Wrong(line)
    ensures ToInt(line) == None
  {
    var space, sign, digits, rest :|
      AsNumber(line, space, sign, digits, rest) && (digits == "" || !Int64(ValueOf(sign, digits)));
    ReadSignedMeans(line, space, sign, digits, rest, INT64_MIN, INT64_MAX);
  }

  /** There is no third kind of line. */
  lemma DenotesOrWrong(line: string) returns (x: int)
    ensures Denotes(line, x) || Wrong(line)
    ensures !(Denotes(line, x) && Wrong(line))
  {
    var space, sign, digits, rest := AnyText(line);
    x := ValueOf(sign, digits);
    if Denotes(line, x) {
      DenotesIsRead(line, x);
    }
    if Wrong(line) {
      WrongIsFatal(line);
    }
  }

  /** The newline at the end of a line is no part of its number. */
  lemma WithNewline(line: string, space: string, sign: string, digits: string, rest: string)
    requires AsNumber(line, space, sign, digits, rest)
    ensures sign == "" && digits == "" && rest == "" ==> AsNumber(line + "\n", space + "\n", sign, digits, "")
    ensures sign != "" || digits != "" || rest != "" ==> AsNumber(line + "\n", space, sign, digits, rest + "\n")
  {
    assert line + "\n" == space + (sign + (digits + (rest + "\n")));
    if sign == "" && digits == "" && rest == "" {
      assert line + "\n" == (space + "\n") + (sign + (digits + ""));
    }
  }

  lemma NewlineKeeps(line: string, x: int)
    ensures Denotes(line, x) ==> Denotes(line + "\n", x)
    ensures Wrong(line) ==> Wrong(line + "\n")
  {
    hide AsNumber;
    if Denotes(line, x) {
      var space, sign, digits, rest :|
        AsNumber(line, space, sign, digits, rest) && digits != "" && x == ValueOf(sign, digits);
      WithNewline(line, space, sign, digits, rest);
    }
    if Wrong(line) {
      var space, sign, digits, rest :|
        AsNumber(line, space, sign, digits, rest) && (digits == "" || !Int64(ValueOf(sign, digits)));
      WithNewline(line, space, sign, digits, rest);
    }
  }

  /** The text of a file: every line ends with a newline, but perhaps the last one. */
  function FileOf(lines: seq<string>, ended: bool): string {
    if lines == [] then ""
    else lines[0] + (if |lines| > 1 || ended then "\n" else "") + FileOf(lines[1..], ended)
  }

  /** The lines fit into the buffer, and an unended last one is not empty. */
  ghost predicate ShortLines(lines: seq<string>, ended: bool) {
    && (forall i :: 0 <= i < |lines| ==> |lines[i]| <= 30 && forall c :: c in lines[i] ==> c != '\n')
    && (lines != [] && !ended ==> lines[|lines| - 1] != "")
  }

  /** The first line of a file is read on its own. */
  lemma FirstLine(lines: seq<string>, ended: bool)
    requires lines != [] && ShortLines(lines, ended)
    ensures ShortLines(lines[1..], ended)
    ensures var text := FileOf(lines, ended);
      text != "" && Parse(text) ==
        match ToInt(if |lines| > 1 || ended then lines[0] + "\n" else lines[0])
        case None => None
        case Some(x) => Before([x], Parse(FileOf(lines[1..], ended)))
  {
    hide ToInt;
    var line, more := lines[0], FileOf(lines[1..], ended);
    assert forall i :: 0 <= i < |lines[1..]| ==> lines[1..][i] == lines[i + 1];
    if |lines| > 1 || ended {
      LineOfPrinted(line, more);
    } else {
      assert lines[1..] == [] && FileOf(lines, ended) == line;
      LastLine(line);
    }
  }

  lemma LastLine(line: string)
    requires 0 < |line| <= 30 && forall c :: c in line ==> c != '\n'
    ensures LineLength(line, MAX_LINE) == |line| && line[..|line|] == line && line[|line|..] == ""
  {
    var n := LineLength(line, MAX_LINE);
    assert forall i :: 0 <= i < |line| ==> line[i] in line;
  }

  /** A file of lines that all begin with a number that fits is read as exactly these numbers, in order. */
  lemma {:induction false} ParseLines(lines: seq<string>, ended: bool, xs: seq<int>)
    requires ShortLines(lines, ended) && |xs| == |lines|
    requires forall i :: 0 <= i < |lines| ==> Denotes(lines[i], xs[i])
    ensures Parse(FileOf(lines, ended)) == Some(xs)
  {
    hide Denotes, ToInt, LineLength, Parse;
    if lines == [] {
      NoLines(ended);
    } else {
      FirstLine(lines, ended);
      assert Denotes(lines[0], xs[0]);
      NewlineKeeps(lines[0], xs[0]);
      DenotesIsRead(if |lines| > 1 || ended then lines[0] + "\n" else lines[0], xs[0]);
      ParseLines(lines[1..], ended, xs[1..]);
      assert [xs[0]] + xs[1..] == xs;
    }
  }

  lemma NoLines(ended: bool)
    ensures Parse(FileOf([], ended)) == Some([])
  {
  }

  /** A file with a line that begins with no number, or with one that does not fit, makes the program end. */
  lemma {:induction false} ParseStops(lines: seq<string>, ended: bool, k: nat)
    requires ShortLines(lines, ended) && k < |lines| && Wrong(lines[k])
    ensures Parse(FileOf(lines, ended)) == None
  {
    hide Wrong, ToInt, LineLength, Parse;
    FirstLine(lines, ended);
    if k == 0 {
      NewlineKeeps(lines[0], 0);
      WrongIsFatal(if |lines| > 1 || ended then lines[0] + "\n" else lines[0]);
    } else {
      ParseStops(lines[1..], ended, k - 1);
    }
  }

  /** Of a longer line 31 characters are taken at a time. */
  lemma LongLine(text: string)
    requires |text| > 31 && forall i :: 0 <= i < 31 ==> text[i] != '\n'
    ensures Parse(text) ==
      match ToInt(text[..31])
      case None => None
      case Some(x) => Before([x], Parse(text[31..]))
  {
    hide ToInt;
  }

  // ----- what is written -----

  function Written(xs: seq<int>): string {
    if xs == [] then "" else PrintInt(xs[0]) + "\n" + Written(xs[1..])
  }

  lemma {:induction false} WrittenAppend(xs: seq<int>, x: int)
    ensures Written(xs + [x]) == Written(xs) + PrintInt(x) + "\n"
  {
    hide PrintInt;
    if xs == [] {
      assert [] + [x] == [x] && [x][1..] == [];
    } else {
      assert (xs + [x])[1..] == xs[1..] + [x];
      WrittenAppend(xs[1..], x);
      assert PrintInt(xs[0]) + "\n" + (Written(xs[1..]) + PrintInt(x) + "\n")
          == PrintInt(xs[0]) + "\n" + Written(xs[1..]) + PrintInt(x) + "\n";
    }
  }

  /** A printed number fits into the buffer, with its newline. */
  lemma ShortLine(x: int)
    requires Int64(x)
    ensures |PrintInt(x)| < MAX_LINE - 1 && forall c :: c in PrintInt(x) ==> c != '\n'
  {
    var u := if x < 0 then -x else x;
    assert Pow10(5) == 100000;
    assert Pow10(10) == 100000 * Pow10(5);
    assert Pow10(15) == 100000 * Pow10(10);
    assert Pow10(20) == 100000 * Pow10(15);
    PrintNatLength(u, 20, Pow10(20));
    PrintNatDigits(u);
  }

  lemma LineOfPrinted(s: string, rest: string)
    requires |s| < MAX_LINE && forall c :: c in s ==> c != '\n'
    ensures var text := s + "\n" + rest;
      LineLength(text, MAX_LINE) == |s| + 1 && text[..|s| + 1] == s + "\n" && text[|s| + 1..] == rest
  {
    var text := s + "\n" + rest;
    var n := LineLength(text, MAX_LINE);
    assert text[|s|] == '\n';
    assert forall i :: 0 <= i < |s| ==> text[i] == s[i] && s[i] in s;
  }

  /** What is written is read back, number for number. */
  lemma {:induction false} ParseWritten(xs: seq<int>)
    requires forall x :: x in xs ==> Int64(x)
    ensures Parse(Written(xs)) == Some(xs)
  {
    hide ReadSigned, PrintInt, LineLength;
    if xs != [] {
      var x, later := xs[0], Written(xs[1..]);
      assert x in xs;
      ShortLine(x);
      LineOfPrinted(PrintInt(x), later);
      ReadSignedPrinted(x, "\n", INT64_MIN, INT64_MAX);
      ParseWritten(xs[1..]);
      assert [x] + xs[1..] == xs;
    }
  }

  lemma {:induction false} ParsedFit(text: string)
    ensures Parse(text).Some? ==> forall x :: x in Parse(text).value ==> Int64(x)
    decreases |text|
  {
    if text != "" {
      ParsedFit(text[LineLength(text, MAX_LINE)..]);
    }
  }

  lemma BeforeBefore(a: seq<int>, b: seq<int>, rest: Option<seq<int>>)
    ensures Before(a, Before(b, rest)) == Before(a + b, rest)
  {
    if rest.Some? {
      assert a + (b + rest.value) == a + b + rest.value;
    }
  }
}
