/** Printing integers in decimal, and reading them back the way the standard input streams do. */
module Decimal {
  import opened Common

  predicate IsDigit(c: char) {
    '0' <= c <= '9'
  }

  predicate IsSpace(c: char) {
    c == ' ' || '\t' <= c <= '\r'
  }

  function DigitOf(c: char): int {
    c as int - '0' as int
  }

  // ----- printing -----

  function PrintNat(u: nat): string {
    if u < 10 then [('0' as int + u) as char] else PrintNat(u / 10) + [('0' as int + u % 10) as char]
  }

  function PrintInt(x: int): string {
    if x < 0 then "-" + PrintNat(-x) else PrintNat(x)
  }

  // ----- the digit loop -----

  /** Division and remainder of the source, which round toward zero. */
  function CDiv10(x: int): int {
    if x >= 0 then x / 10 else -((-x) / 10)
  }

  function CMod10(x: int): int {
    x - 10 * CDiv10(x)
  }

  const DIGITS: string := "9876543210123456789"

  function Reverse(s: string): string {
    if s == [] then [] else Reverse(s[1..]) + [s[0]]
  }

  function Abs(x: int): nat {
    if x < 0 then -x else x
  }

  lemma {:induction false} ReverseAppend(s: string, c: char)
    ensures Reverse(s + [c]) == [c] + Reverse(s)
  {
    if s != [] {
      assert (s + [c])[1..] == s[1..] + [c];
      ReverseAppend(s[1..], c);
    }
  }

  /** The table is indexed from its middle by a digit that may be negative. */
  lemma SignedDigit(x: int)
    ensures 0 <= 9 + CMod10(x) < |DIGITS| && DIGITS[9 + CMod10(x)] == ('0' as int + Abs(x) % 10) as char
    ensures Abs(CDiv10(x)) == Abs(x) / 10
    ensures x < 0 ==> CDiv10(x) <= 0
    ensures x >= 0 ==> CDiv10(x) >= 0
  {
    assert Abs(CMod10(x)) == Abs(x) % 10;
  }

  /** The loop prints every number in decimal; at the most negative one no step leaves the word. */
  method ToString(x: int) returns (str: string)
    ensures str == PrintInt(x)
  {
    var negative := x < 0;
    str := "";
    var y := x;
    var more := true;
    while more
      invariant if x < 0 then x <= y <= 0 else 0 <= y <= x
      invariant if more then PrintNat(Abs(y)) + Reverse(str) == PrintNat(Abs(x)) else Reverse(str) == PrintNat(Abs(x))
      decreases more, Abs(y)
    {
      SignedDigit(y);
      var lsd := CMod10(y);
      ReverseAppend(str, DIGITS[9 + lsd]);
      ghost var u, done := Abs(y), str;
      y := CDiv10(y);
      str := str + [DIGITS[9 + lsd]];
      more := y != 0;
      if more {
        assert PrintNat(u / 10) + ([('0' as int + u % 10) as char] + Reverse(done)) == PrintNat(u) + Reverse(done);
      } else {
        assert PrintNat(u) == [('0' as int + u % 10) as char];
      }
    }
    if negative {
      ReverseAppend(str, '-');
      str := str + "-";
    }
    str := Reverse(str);
  }

  // ----- reading -----

  function LeadingDigits(s: string): (n: nat)
    ensures n <= |s| && (forall i :: 0 <= i < n ==> IsDigit(s[i])) && (n < |s| ==> !IsDigit(s[n]))
  {
    if s == [] || !IsDigit(s[0]) then 0 else 1 + LeadingDigits(s[1..])
  }

  function DigitsValue(s: string): int {
    if s == [] then 0 else DigitsValue(s[..|s| - 1]) * 10 + DigitOf(s[|s| - 1])
  }

  function SkipSpace(s: string): string {
    if s != [] && IsSpace(s[0]) then SkipSpace(s[1..]) else s
  }

  predicate Signed(s: string) {
    s != [] && (s[0] == '-' || s[0] == '+')
  }

  function Digits(s: string): string {
    if Signed(s) then s[1..] else s
  }

  predicate Negative(s: string) {
    s != [] && s[0] == '-'
  }

  /** `in >> x` for a signed word with the given bounds: the value and what is left, or the fail bit. */
  function ReadSigned(text: string, min: int, max: int): Option<(int, string)> {
    var s := SkipSpace(text);
    var digits := Digits(s);
    var n := LeadingDigits(digits);
    var value := if Negative(s) then -DigitsValue(digits[..n]) else DigitsValue(digits[..n]);
    if n == 0 || value < min || value > max then None else Some((value, digits[n..]))
  }

  /** `in >> x` for an unsigned word: a minus sign negates modulo the word, an overflow fails. */
  function ReadUnsigned(text: string, max: nat): Option<(int, string)> {
    var s := SkipSpace(text);
    var digits := Digits(s);
    var n := LeadingDigits(digits);
    var value := DigitsValue(digits[..n]);
    if n == 0 || value > max then None
    else Some((if Negative(s) && value > 0 then max + 1 - value else value, digits[n..]))
  }

  // ----- what is read, for every text -----

  /** White space, a sign, digits, and a rest that no longer belongs to the number. */
  predicate AsNumber(text: string, space: string, sign: string, digits: string, rest: string) {
    && text == space + (sign + (digits + rest))
    && (forall c :: c in space ==> c == ' ' || 9 <= c as int <= 13)
    && (sign == "" || sign == "+" || sign == "-")
    && (forall c :: c in digits ==> '0' <= c <= '9')
    && (rest != "" ==> !('0' <= rest[0] <= '9'))
    && (sign == "" && digits == "" && rest != "" ==>
         rest[0] != '+' && rest[0] != '-' && rest[0] != ' ' && !(9 <= rest[0] as int <= 13))
  }

  /** Digits stand for tens: this and the value of one digit say what any string of digits is worth. */
  lemma {:induction false} DigitsConcat(a: string, b: string)
    ensures DigitsValue(a + b) == DigitsValue(a) * Pow10(|b|) + DigitsValue(b)
  {
    if b == [] {
      assert a + b == a;
    } else {
      var k := |b| - 1;
      DigitsConcat(a, b[..k]);
      assert (a + b)[..|a + b| - 1] == a + b[..k];
      assert DigitsValue(a + b) == DigitsValue(a + b[..k]) * 10 + DigitOf(b[k]);
      assert Pow10(|b|) == 10 * Pow10(k);
    }
  }

  lemma OneDigit(c: char)
    ensures DigitsValue([c]) == c as int - 48 && Pow10(1) == 10
  {
    assert [c][..0] == [];
    assert DigitsValue([c]) == DigitsValue([]) * 10 + DigitOf(c);
  }

  lemma {:induction false} SkipsSpace(space: string, s: string)
    requires (forall c :: c in space ==> IsSpace(c)) && (s != "" ==> !IsSpace(s[0]))
    ensures SkipSpace(space + s) == s
  {
    if space == "" {
      assert space + s == s;
    } else {
      assert (space + s)[1..] == space[1..] + s;
      SkipsSpace(space[1..], s);
    }
  }

  lemma Split(text: string, space: string, sign: string, digits: string, rest: string)
    requires AsNumber(text, space, sign, digits, rest)
    ensures var s := SkipSpace(text);
      && Digits(s) == digits + rest && (Negative(s) <==> sign == "-")
      && LeadingDigits(digits + rest) == |digits|
      && (digits + rest)[..|digits|] == digits && (digits + rest)[|digits|..] == rest
  {
    var s := sign + (digits + rest);
    DigitsStop(digits, rest);
    assert s != "" && IsSpace(s[0]) ==> sign == "" && s == digits + rest;
    SkipsSpace(space, s);
    assert sign == "" ==> s == digits + rest;
  }

  /** A signed word is read exactly if there are digits and their value, with the sign, is within the bounds. */
  lemma ReadSignedMeans(
    text: string, space: string, sign: string, digits: string, rest: string, min: int, max: int)
    requires AsNumber(text, space, sign, digits, rest)
    ensures var value := if sign == "-" then -DigitsValue(digits) else DigitsValue(digits);
      ReadSigned(text, min, max) == if digits != "" && min <= value <= max then Some((value, rest)) else None
  {
    hide SkipSpace, Digits, LeadingDigits, DigitsValue, Negative;
    Split(text, space, sign, digits, rest);
  }

  /** An unsigned word is read exactly if there are digits and their value fits; a minus sign wraps it around. */
  lemma ReadUnsignedMeans(text: string, space: string, sign: string, digits: string, rest: string, max: nat)
    requires AsNumber(text, space, sign, digits, rest)
    ensures var value := DigitsValue(digits);
      ReadUnsigned(text, max)
        == if digits == "" || value > max then None
           else if sign == "-" && value > 0 then Some((max + 1 - value, rest))
           else Some((value, rest))
  {
    hide SkipSpace, Digits, LeadingDigits, DigitsValue, Negative;
    Split(text, space, sign, digits, rest);
  }

  lemma {:induction false} SpaceLength(text: string) returns (space: string)
    ensures text == space + SkipSpace(text) && forall c :: c in space ==> IsSpace(c)
    ensures SkipSpace(text) != "" ==> !IsSpace(SkipSpace(text)[0])
  {
    if text != "" && IsSpace(text[0]) {
      var more := SpaceLength(text[1..]);
      space := [text[0]] + more;
    } else {
      space := "";
    }
  }

  /** Every text is of that form. */
  lemma AnyText(text: string) returns (space: string, sign: string, digits: string, rest: string)
    ensures AsNumber(text, space, sign, digits, rest)
  {
    space := SpaceLength(text);
    sign, digits, rest := AnyUnspaced(SkipSpace(text));
    assert space + (sign + (digits + rest)) == text;
  }

  lemma AnyUnspaced(s: string) returns (sign: string, digits: string, rest: string)
    requires s != "" ==> !IsSpace(s[0])
    ensures s == sign + (digits + rest) && AsNumber(s, "", sign, digits, rest)
  {
    hide LeadingDigits;
    sign := if Signed(s) then [s[0]] else "";
    var more := Digits(s);
    var n := LeadingDigits(more);
    digits, rest := more[..n], more[n..];
    assert s == sign + more && more == digits + rest && "" + s == s;
    assert rest != "" ==> rest[0] == more[n];
  }

  // ----- reading undoes printing -----

  lemma {:induction false} PrintNatDigits(u: nat)
    ensures PrintNat(u) != [] && (forall c :: c in PrintNat(u) ==> IsDigit(c))
    ensures DigitsValue(PrintNat(u)) == u && (u > 0 ==> PrintNat(u)[0] != '0')
  {
    if u < 10 {
      assert DigitsValue(PrintNat(u)) == DigitsValue([]) * 10 + u;
    } else {
      PrintNatDigits(u / 10);
      assert PrintNat(u)[..|PrintNat(u)| - 1] == PrintNat(u / 10);
    }
  }

  /** What may follow a number so that its last digit is seen to be the last. */
  predicate Ends(rest: string) {
    rest == [] || !IsDigit(rest[0])
  }

  lemma {:induction false} DigitsStop(digits: string, rest: string)
    requires (forall c :: c in digits ==> IsDigit(c)) && Ends(rest)
    ensures LeadingDigits(digits + rest) == |digits|
  {
    if digits == [] {
      assert digits + rest == rest;
    } else {
      assert (digits + rest)[1..] == digits[1..] + rest;
      DigitsStop(digits[1..], rest);
    }
  }

  lemma PrintedDigits(u: nat, rest: string)
    requires Ends(rest)
    ensures var s := PrintNat(u) + rest; var n := LeadingDigits(s);
      && n == |PrintNat(u)| > 0 && s[..n] == PrintNat(u) && s[n..] == rest
      && DigitsValue(s[..n]) == u
      && SkipSpace(s) == s && !Signed(s)
  {
    PrintNatDigits(u);
    DigitsStop(PrintNat(u), rest);
    var s := PrintNat(u) + rest;
    assert s[..|PrintNat(u)|] == PrintNat(u) && s[|PrintNat(u)|..] == rest;
    assert s[0] == PrintNat(u)[0];
  }

  lemma PrintedInt(x: int, rest: string)
    requires Ends(rest)
    ensures var s := PrintInt(x) + rest; var digits := Digits(s); var n := LeadingDigits(digits);
      && n > 0 && digits[n..] == rest
      && (Negative(s) <==> x < 0)
      && DigitsValue(digits[..n]) == (if x < 0 then -x else x)
      && SkipSpace(s) == s && s != []
  {
    hide LeadingDigits, DigitsValue, PrintNat;
    if x < 0 {
      PrintedDigits(-x, rest);
      assert PrintInt(x) + rest == "-" + (PrintNat(-x) + rest);
      AfterMinus(PrintNat(-x) + rest);
    } else {
      PrintedDigits(x, rest);
    }
  }

  lemma AfterMinus(s: string)
    ensures var t := "-" + s; Digits(t) == s && Negative(t) && SkipSpace(t) == t
  {
    assert ("-" + s)[1..] == s;
  }

  lemma SkipOneSpace(s: string)
    ensures SkipSpace(" " + s) == SkipSpace(s)
  {
    assert (" " + s)[1..] == s;
  }

  lemma ReadSignedPrinted(x: int, rest: string, min: int, max: int)
    requires min <= x <= max && Ends(rest)
    ensures ReadSigned(PrintInt(x) + rest, min, max) == Some((x, rest))
    ensures ReadSigned(" " + (PrintInt(x) + rest), min, max) == Some((x, rest))
  {
    hide SkipSpace, Digits, LeadingDigits, DigitsValue, Negative, PrintInt;
    PrintedInt(x, rest);
    SkipOneSpace(PrintInt(x) + rest);
  }

  lemma ReadUnsignedPrinted(u: nat, rest: string, max: nat)
    requires u <= max && Ends(rest)
    ensures ReadUnsigned(PrintNat(u) + rest, max) == Some((u, rest))
    ensures ReadUnsigned(" " + (PrintNat(u) + rest), max) == Some((u, rest))
  {
    hide SkipSpace, LeadingDigits, DigitsValue, PrintNat;
    PrintedDigits(u, rest);
    SkipOneSpace(PrintNat(u) + rest);
  }

  lemma {:induction false} PrintNatLength(u: nat, k: nat, bound: nat)
    requires k > 0 && u < bound && bound == Pow10(k)
    ensures |PrintNat(u)| <= k
    decreases k
  {
    if u >= 10 {
      PrintNatLength(u / 10, k - 1, Pow10(k - 1));
    }
  }

  function Pow10(k: nat): nat {
    if k == 0 then 1 else 10 * Pow10(k - 1)
  }
}
