/**
 Placements of queens, one per row, written as the sequence of their columns, and the sets of full
 placements that extend a given prefix. This is what the distributed N-queens program counts; nothing
 here mentions words, masks or search order.
 */
module Board {

  /** The queens of rows `i` and `j` share a column or a diagonal. */
  predicate Attacks(q: seq<nat>, i: nat, j: nat)
    requires i < j < |q|
  {
    q[i] == q[j] || q[i] + (j - i) == q[j] || q[j] + (j - i) == q[i]
  }

  predicate NonAttacking(q: seq<nat>) {
    forall i: nat, j: nat :: i < j < |q| ==> !Attacks(q, i, j)
  }

  predicate InRange(n: nat, q: seq<nat>) {
    forall i :: 0 <= i < |q| ==> q[i] < n
  }

  /** All ways to put one queen in each of the first `rows` rows of a board with `n` columns. */
  ghost function Boards(n: nat, rows: nat): set<seq<nat>> {
    if rows == 0 then {[]} else set q, c | q in Boards(n, rows - 1) && 0 <= c < n :: q + [c]
  }

  /** The non-attacking placements of `n` queens that extend `prefix`. */
  ghost function Completions(n: nat, prefix: seq<nat>): set<seq<nat>> {
    set q | q in Boards(n, n) && prefix <= q && NonAttacking(q)
  }

  lemma {:induction false} InBoards(n: nat, rows: nat, q: seq<nat>)
    ensures q in Boards(n, rows) <==> |q| == rows && InRange(n, q)
  {
    if rows > 0 {
      if |q| == rows && InRange(n, q) {
        InBoards(n, rows - 1, q[..rows - 1]);
        assert q == q[..rows - 1] + [q[rows - 1]];
      }
      if q in Boards(n, rows) {
        var p, c :| p in Boards(n, rows - 1) && 0 <= c < n && q == p + [c];
        InBoards(n, rows - 1, p);
      }
    }
  }

  lemma InCompletions(n: nat, prefix: seq<nat>, q: seq<nat>)
    ensures q in Completions(n, prefix) <==> |q| == n && InRange(n, q) && prefix <= q && NonAttacking(q)
  {
    InBoards(n, n, q);
  }

  /** A prefix that is too long, leaves the board or attacks itself has no completion. */
  lemma NoCompletions(n: nat, prefix: seq<nat>)
    requires |prefix| > n || !InRange(n, prefix) || !NonAttacking(prefix)
    ensures Completions(n, prefix) == {}
  {
    forall q
      ensures q !in Completions(n, prefix)
    {
      InCompletions(n, prefix, q);
      if prefix <= q && InRange(n, q) {
        if !NonAttacking(prefix) {
          var i: nat, j: nat :| i < j < |prefix| && Attacks(prefix, i, j);
          assert Attacks(q, i, j);
        } else {
          assert forall i :: 0 <= i < |prefix| ==> prefix[i] == q[i];
        }
      }
    }
  }

  /** A full non-attacking board is its own only completion. */
  lemma FullBoard(n: nat, q: seq<nat>)
    requires |q| == n && InRange(n, q) && NonAttacking(q)
    ensures Completions(n, q) == {q}
  {
    forall p
      ensures p in Completions(n, q) <==> p == q
    {
      InCompletions(n, q, p);
    }
  }

  /** How many completions of `prefix` put the next queen in one of the first `c` columns. */
  ghost function CountBelow(n: nat, prefix: seq<nat>, c: nat): nat {
    if c == 0 then 0 else CountBelow(n, prefix, c - 1) + |Completions(n, prefix + [c - 1])|
  }

  ghost function Below(n: nat, prefix: seq<nat>, c: nat): set<seq<nat>>
    requires |prefix| < n
  {
    set q | q in Completions(n, prefix) && |q| > |prefix| && q[|prefix|] < c
  }

  /** The completions of a short prefix are split, without overlap, by the column of the next queen. */
  lemma CompletionsSplit(n: nat, prefix: seq<nat>)
    requires |prefix| < n
    ensures |Completions(n, prefix)| == CountBelow(n, prefix, n)
  {
    BelowCount(n, prefix, n);
    forall q | q in Completions(n, prefix)
      ensures q in Below(n, prefix, n)
    {
      InCompletions(n, prefix, q);
    }
    assert Below(n, prefix, n) == Completions(n, prefix);
  }

  lemma {:induction false} BelowCount(n: nat, prefix: seq<nat>, c: nat)
    requires |prefix| < n
    ensures |Below(n, prefix, c)| == CountBelow(n, prefix, c)
  {
    if c == 0 {
      assert Below(n, prefix, c) == {};
    } else {
      var last := Completions(n, prefix + [c - 1]);
      BelowCount(n, prefix, c - 1);
      forall q
        ensures q in Below(n, prefix, c) <==> q in Below(n, prefix, c - 1) || q in last
        ensures !(q in Below(n, prefix, c - 1) && q in last)
      {
        InCompletions(n, prefix, q);
        InCompletions(n, prefix + [c - 1], q);
        if |q| == n && prefix <= q {
          assert prefix + [c - 1] <= q <==> q[|prefix|] == c - 1;
        }
        if prefix + [c - 1] <= q {
          assert (prefix + [c - 1])[..|prefix|] == prefix;
          assert prefix <= q && q[|prefix|] == c - 1;
        }
      }
      assert Below(n, prefix, c) == Below(n, prefix, c - 1) + last;
      assert Below(n, prefix, c - 1) !! last;
    }
  }

  /** Columns with no completion add nothing. */
  lemma {:induction false} CountBelowSkip(n: nat, prefix: seq<nat>, a: nat, b: nat)
    requires a <= b
    requires forall c :: a <= c < b ==> Completions(n, prefix + [c]) == {}
    ensures CountBelow(n, prefix, a) == CountBelow(n, prefix, b)
  {
    if a < b {
      CountBelowSkip(n, prefix, a, b - 1);
      assert Completions(n, prefix + [b - 1]) == {};
    }
  }
}
