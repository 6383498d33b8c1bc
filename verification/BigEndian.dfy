/** Integers in network byte order. A `char` is a byte of the source; only its low eight bits count. */
module BigEndian {

  function Pow256(n: nat): nat {
    if n == 0 then 1 else 256 * Pow256(n - 1)
  }

  function ByteOf(c: char): nat {
    c as int % 256
  }

  function Encode(u: nat, n: nat): (s: seq<char>)
    ensures |s| == n
  {
    if n == 0 then [] else Encode(u / 256, n - 1) + [(u % 256) as char]
  }

  function Decode(s: seq<char>): nat {
    if s == [] then 0 else Decode(s[..|s| - 1]) * 256 + ByteOf(s[|s| - 1])
  }

  /** The two's complement word of `n` bytes. */
  function ToWord(x: int, n: nat): nat {
    if x < 0 && -x <= Pow256(n) then x + Pow256(n) else if x < 0 then 0 else x
  }

  function FromWord(u: nat, n: nat): int {
    if 2 * u < Pow256(n) then u else u - Pow256(n)
  }

  predicate Fits(x: int, n: nat) {
    -(Pow256(n) as int) <= 2 * x < Pow256(n)
  }

  /** The integers of one, two and four bytes. */
  lemma FitsMeans(x: int)
    ensures Fits(x, 1) <==> -0x80 <= x < 0x80
    ensures Fits(x, 2) <==> -0x8000 <= x < 0x8000
    ensures Fits(x, 4) <==> -0x8000_0000 <= x < 0x8000_0000
    ensures Fits(x, 8) <==> -0x8000_0000_0000_0000 <= x < 0x8000_0000_0000_0000
  {
    assert Pow256(1) == 256;
    assert Pow256(2) == 256 * Pow256(1);
    assert Pow256(4) == 65536 * Pow256(2);
    assert Pow256(8) == 65536 * (65536 * Pow256(4));
  }

  lemma {:induction false} DecodeEncode(u: nat, n: nat)
    requires u < Pow256(n)
    ensures Decode(Encode(u, n)) == u
  {
    if n > 0 {
      DecodeEncode(u / 256, n - 1);
      assert Encode(u, n)[..n - 1] == Encode(u / 256, n - 1);
    }
  }

  /** The first byte counts most: this and the worth of one byte say what any bytes are worth. */
  lemma {:induction false} DecodeConcat(a: seq<char>, b: seq<char>)
    ensures Decode(a + b) == Decode(a) * Pow256(|b|) + Decode(b)
  {
    if b == [] {
      assert a + b == a;
    } else {
      var k := |b| - 1;
      DecodeConcat(a, b[..k]);
      assert (a + b)[..|a + b| - 1] == a + b[..k];
      assert Decode(a + b) == Decode(a + b[..k]) * 256 + ByteOf(b[k]);
      Times256(Decode(a), Pow256(k));
    }
  }

  lemma Times256(x: nat, p: nat)
    ensures x * p * 256 == x * (256 * p)
  {
  }

  lemma OneByte(c: char)
    ensures Decode([c]) == c as int % 256 && Pow256(1) == 256
  {
    assert [c][..0] == [];
    assert Decode([c]) == Decode([]) * 256 + ByteOf(c);
  }

  /** The bytes of a number, read most significant first, are worth its two's complement. */
  lemma BytesOfInt(x: int, n: nat)
    requires Fits(x, n)
    ensures Decode(Encode(ToWord(x, n), n)) == if x < 0 then Pow256(n) + x else x
  {
    DecodeEncode(ToWord(x, n), n);
  }

  /** Writing a signed integer and reading it back changes nothing. */
  lemma IntRoundTrip(x: int, n: nat)
    requires Fits(x, n)
    ensures FromWord(Decode(Encode(ToWord(x, n), n)), n) == x
  {
    DecodeEncode(ToWord(x, n), n);
  }

  lemma {:induction false} EncodeDecode(s: seq<char>)
    requires forall i :: 0 <= i < |s| ==> s[i] as int < 256
    ensures Decode(s) < Pow256(|s|) && Encode(Decode(s), |s|) == s
  {
    if s != [] {
      EncodeDecode(s[..|s| - 1]);
    }
  }
}
