/**
 The N-queens solver of the server: three 32-bit masks per row, a loop over the lowest free bit, and
 recursion over shared arrays. It is proved to return the number of completions of its prefix.
 */
module NQueenServer {
  import opened Bits
  import opened Board

  const MAX_QUEENS := 32

  // Which bits of the next row's masks the queens of `q` must have set. The queen of row `i` has moved
  // `|q| - i` places along its diagonals by then.

  ghost predicate OnColumn(q: seq<nat>, b: nat) {
    exists i :: 0 <= i < |q| && q[i] == b
  }

  ghost predicate OnDiagonal(q: seq<nat>, b: nat) {
    exists i :: 0 <= i < |q| && q[i] == b + (|q| - i)
  }

  ghost predicate OnAntidiagonal(q: seq<nat>, b: nat) {
    exists i :: 0 <= i < |q| && q[i] + (|q| - i) == b
  }

  /** The three masks of row `|q|` describe exactly the queens of `q`. */
  ghost predicate Encodes(col: bv32, diag: bv32, anti: bv32, q: seq<nat>) {
    && (forall b: nat :: b < 32 ==> (Bit(col, b) <==> OnColumn(q, b)))
    && (forall b: nat :: b < 32 ==> (Bit(diag, b) <==> OnDiagonal(q, b)))
    && (forall b: nat :: b < 32 ==> (Bit(anti, b) <==> OnAntidiagonal(q, b)))
  }

  lemma EncodesEmpty()
    ensures Encodes(0, 0, 0, [])
  {
    forall b: nat | b < 32
      ensures !Bit(0, b)
    {
    }
  }

  lemma LinesAfter(q: seq<nat>, c: nat, b: nat)
    ensures OnColumn(q + [c], b) <==> OnColumn(q, b) || c == b
    ensures OnDiagonal(q + [c], b) <==> OnDiagonal(q, b + 1) || c == b + 1
    ensures OnAntidiagonal(q + [c], b) <==> b > 0 && (OnAntidiagonal(q, b - 1) || c == b - 1)
  {
    var p := q + [c];
    assert p[|q|] == c;
    if OnColumn(q, b) {
      var i :| 0 <= i < |q| && q[i] == b;
      assert p[i] == b;
    }
    if OnDiagonal(q, b + 1) {
      var i :| 0 <= i < |q| && q[i] == b + 1 + (|q| - i);
      assert p[i] == b + (|p| - i);
    }
    if b > 0 && OnAntidiagonal(q, b - 1) {
      var i :| 0 <= i < |q| && q[i] + (|q| - i) == b - 1;
      assert p[i] + (|p| - i) == b;
    }
  }

  /** Putting a queen and shifting the masks, as both `tryPutQueens` and `search` do. */
  lemma EncodesPush(col: bv32, diag: bv32, anti: bv32, q: seq<nat>, c: nat, mask: bv32)
    requires Encodes(col, diag, anti, q) && InRange(32, q)
    requires c < 32 && mask == Mask(c)
    ensures Encodes(col | mask, (diag | mask) >> 1, (anti | mask) << 1, q + [c])
  {
    forall b: nat | b < 32
      ensures Bit(col | mask, b) <==> OnColumn(q + [c], b)
      ensures Bit((diag | mask) >> 1, b) <==> OnDiagonal(q + [c], b)
      ensures Bit((anti | mask) << 1, b) <==> OnAntidiagonal(q + [c], b)
    {
      LinesAfter(q, c, b);
      ColumnBits(col, c, mask, b);
      DiagonalBits(diag, c, mask, b);
      AntidiagonalBits(anti, c, mask, b);
      assert !OnDiagonal(q, 32);
    }
  }

  lemma ColumnBits(x: bv32, c: nat, mask: bv32, b: nat)
    requires c < 32 && mask == Mask(c) && b < 32
    ensures Bit(x | mask, b) <==> Bit(x, b) || c == b
  {
    BitOfOr(x, mask, b);
    BitOfMask(c, b);
  }

  lemma DiagonalBits(x: bv32, c: nat, mask: bv32, b: nat)
    requires c < 32 && mask == Mask(c) && b < 32
    ensures Bit((x | mask) >> 1, b) <==> b < 31 && (Bit(x, b + 1) || c == b + 1)
  {
    BitOfShiftRight(x | mask, b);
    if b < 31 {
      ColumnBits(x, c, mask, b + 1);
    }
  }

  lemma AntidiagonalBits(x: bv32, c: nat, mask: bv32, b: nat)
    requires c < 32 && mask == Mask(c) && b < 32
    ensures Bit((x | mask) << 1, b) <==> b > 0 && (Bit(x, b - 1) || c == b - 1)
  {
    BitOfShiftLeft(x | mask, b);
    if b > 0 {
      ColumnBits(x, c, mask, b - 1);
    }
  }

  /** A column is free of the masks exactly when a queen there attacks none of the queens before it. */
  lemma FreeColumn(col: bv32, diag: bv32, anti: bv32, q: seq<nat>, c: nat, unavail: bv32)
    requires Encodes(col, diag, anti, q) && NonAttacking(q) && c < 32
    requires unavail == col | diag | anti
    ensures Bit(unavail, c) <==> !NonAttacking(q + [c])
  {
    UnionBits(col, diag, anti, c);
    LineAttacks(q, c);
  }

  lemma UnionBits(x: bv32, y: bv32, z: bv32, c: nat)
    requires c < 32
    ensures Bit(x | y | z, c) <==> Bit(x, c) || Bit(y, c) || Bit(z, c)
  {
    BitOfOr(x, y, c);
    BitOfOr(x | y, z, c);
  }

  lemma LineAttacks(q: seq<nat>, c: nat)
    requires NonAttacking(q)
    ensures OnColumn(q, c) || OnDiagonal(q, c) || OnAntidiagonal(q, c) <==> !NonAttacking(q + [c])
  {
    var p := q + [c];
    forall i: nat, j: nat | i < j < |q|
      ensures !Attacks(p, i, j)
    {
      assert !Attacks(q, i, j);
    }
    if OnColumn(q, c) {
      var i :| 0 <= i < |q| && q[i] == c;
      assert Attacks(p, i, |q|);
    } else if OnDiagonal(q, c) {
      var i :| 0 <= i < |q| && q[i] == c + (|q| - i);
      assert Attacks(p, i, |q|);
    } else if OnAntidiagonal(q, c) {
      var i :| 0 <= i < |q| && q[i] + (|q| - i) == c;
      assert Attacks(p, i, |q|);
    }
  }

  class BackTrack {
    const N: nat
    var count: nat
    const col: array<bv32>
    const diag: array<bv32>
    const antidiag: array<bv32>

    ghost predicate Valid() {
      && 1 <= N <= MAX_QUEENS
      && col.Length == diag.Length == antidiag.Length == MAX_QUEENS
      && col != diag && col != antidiag && diag != antidiag
    }

    constructor (nQueens: nat)
      requires 1 <= nQueens <= MAX_QUEENS
      ensures Valid() && N == nQueens && count == 0
      ensures fresh(col) && fresh(diag) && fresh(antidiag)
      ensures col[0] == diag[0] == antidiag[0] == 0
    {
      N := nQueens;
      count := 0;
      col := new bv32[MAX_QUEENS](_ => 0);
      diag := new bv32[MAX_QUEENS](_ => 0);
      antidiag := new bv32[MAX_QUEENS](_ => 0);
    }

    /** The masks of row `|q|` hold the queens of the valid prefix `q`. */
    ghost predicate Placed(q: seq<nat>)
      requires Valid()
      reads col, diag, antidiag
    {
      && |q| < N
      && InRange(N, q)
      && NonAttacking(q)
      && Encodes(col[|q|], diag[|q|], antidiag[|q|], q)
    }

    method PutQueen(ghost q: seq<nat>, row: nat, c: nat)
      requires Valid() && Placed(q) && row == |q| && row + 1 < N && c < N && NonAttacking(q + [c])
      modifies col, diag, antidiag
      ensures Placed(q + [c])
      ensures forall r :: 0 <= r <= row ==>
        col[r] == old(col[r]) && diag[r] == old(diag[r]) && antidiag[r] == old(antidiag[r])
    {
      var mask := Mask(c);
      var c0, d0, a0 := col[row], diag[row], antidiag[row];
      EncodesPush(c0, d0, a0, q, c, mask);
      col[row + 1] := c0 | mask;
      diag[row + 1] := (d0 | mask) >> 1;
      antidiag[row + 1] := (a0 | mask) << 1;
    }

    method TryPutQueens(queens: seq<nat>) returns (ok: bool)
      requires Valid() && count == 0 && Placed([])
      modifies this`count, col, diag, antidiag
      ensures ok ==> Placed(queens) && count == 0
      ensures !ok ==> count == |Completions(N, queens)|
    {
      if |queens| > N {
        NoCompletions(N, queens);
        return false;
      }
      for row := 0 to |queens|
        invariant count == 0
        invariant row < N && Placed(queens[..row])
      {
        ghost var q := queens[..row];
        if queens[row] >= N {
          NoCompletions(N, queens);
          return false;
        }
        var c := queens[row];
        var c0, d0, a0 := col[row], diag[row], antidiag[row];
        var unavail := c0 | d0 | a0;
        FreeColumn(c0, d0, a0, q, c, unavail);
        assert queens[..row + 1] == q + [c];
        if Bit(unavail, c) {
          PrefixAttacks(queens, row + 1);
          NoCompletions(N, queens);
          return false;
        }
        if row == N - 1 {
          assert queens == queens[..row + 1];
          FullBoard(N, queens);
          count := 1;
          return false;
        }
        PutQueen(q, row, c);
      }
      assert queens[..|queens|] == queens;
      return true;
    }

    /** The word whose set bits below `N` are the free columns of `row`. */
    method Available(ghost q: seq<nat>, row: nat) returns (avail: bv32)
      requires Valid() && Placed(q) && row == |q|
      ensures forall b: nat :: b < 32 ==> (Bit(avail, b) <==> NonAttacking(q + [b]))
    {
      var c0, d0, a0 := col[row], diag[row], antidiag[row];
      var unavail := c0 | d0 | a0;
      avail := !unavail;
      FreeColumns(c0, d0, a0, q, unavail, avail);
    }

    static method ClearLowest(avail: bv32) returns (rest: bv32)
      requires avail != 0
      ensures forall b: nat :: b < 32 ==> (Bit(rest, b) <==> Ctz(avail) < b && Bit(avail, b))
    {
      rest := avail & (avail - 1);
      ClearedColumns(avail, Ctz(avail), rest);
    }

    method Search(ghost q: seq<nat>, row: nat)
      requires Valid() && Placed(q) && row == |q|
      modifies this`count, col, diag, antidiag
      ensures count == old(count) + |Completions(N, q)|
      ensures forall r :: 0 <= r <= row ==>
        col[r] == old(col[r]) && diag[r] == old(diag[r]) && antidiag[r] == old(antidiag[r])
      decreases N - row, 1
    {
      var avail := Available(q, row);
      ghost var next := 0;
      while avail != 0
        invariant next <= N
        invariant Placed(q)
        invariant forall r :: 0 <= r <= row ==>
          col[r] == old(col[r]) && diag[r] == old(diag[r]) && antidiag[r] == old(antidiag[r])
        invariant forall b: nat :: b < 32 ==> (Bit(avail, b) <==> next <= b && NonAttacking(q + [b]))
        invariant count == old(count) + CountBelow(N, q, next)
        decreases N - next
      {
        var i := Ctz(avail);
        if i >= N {
          break;
        }
        SkipTo(N, q, next, i);
        SearchColumn(q, row, i);
        avail := ClearLowest(avail);
        next := i + 1;
      }
      SkipTo(N, q, next, N);
      CompletionsSplit(N, q);
    }

    /** The body of the search loop: count the placements with the queen of `row` in the free column `i`. */
    method SearchColumn(ghost q: seq<nat>, row: nat, i: nat)
      requires Valid() && Placed(q) && row == |q| && i < N && NonAttacking(q + [i])
      modifies this`count, col, diag, antidiag
      ensures count == old(count) + |Completions(N, q + [i])|
      ensures forall r :: 0 <= r <= row ==>
        col[r] == old(col[r]) && diag[r] == old(diag[r]) && antidiag[r] == old(antidiag[r])
      decreases N - row, 0
    {
      if row == N - 1 {
        FullBoard(N, q + [i]);
        count := count + 1;
      } else {
        PutQueen(q, row, i);
        Search(q + [i], row + 1);
      }
    }

    static method Solve(nQueen: nat, queens: seq<nat>) returns (count: nat)
      requires 1 <= nQueen <= MAX_QUEENS
      ensures count == |Completions(nQueen, queens)|
    {
      var b := new BackTrack(nQueen);
      EncodesEmpty();
      var ok := b.TryPutQueens(queens);
      if ok {
        b.Search(queens, |queens|);
      }
      return b.count;
    }
  }

  lemma PrefixAttacks(q: seq<nat>, k: nat)
    requires k <= |q| && !NonAttacking(q[..k])
    ensures !NonAttacking(q)
  {
    var i: nat, j: nat :| i < j < k && Attacks(q[..k], i, j);
    assert Attacks(q, i, j);
  }

  lemma FreeColumns(col: bv32, diag: bv32, anti: bv32, q: seq<nat>, unavail: bv32, avail: bv32)
    requires Encodes(col, diag, anti, q) && NonAttacking(q)
    requires unavail == col | diag | anti && avail == !unavail
    ensures forall b: nat :: b < 32 ==> (Bit(avail, b) <==> NonAttacking(q + [b]))
  {
    forall b: nat | b < 32
      ensures Bit(avail, b) <==> NonAttacking(q + [b])
    {
      FreeColumn(col, diag, anti, q, b, unavail);
      BitOfNot(unavail, b);
    }
  }

  lemma ClearedColumns(avail: bv32, i: nat, rest: bv32)
    requires avail != 0 && i == Ctz(avail) && rest == avail & (avail - 1)
    ensures forall b: nat :: b < 32 ==> (Bit(rest, b) <==> i < b && Bit(avail, b))
  {
    forall b: nat | b < 32
      ensures Bit(rest, b) <==> i < b && Bit(avail, b)
    {
      BitOfClearLowest(avail, b);
    }
  }

  /** The loop skips only attacked columns, which have no completion. */
  lemma SkipTo(n: nat, q: seq<nat>, a: nat, b: nat)
    requires a <= b <= n && |q| < n
    requires forall c :: a <= c < b ==> !NonAttacking(q + [c])
    ensures CountBelow(n, q, a) == CountBelow(n, q, b)
  {
    forall c | a <= c < b
      ensures Completions(n, q + [c]) == {}
    {
      NoCompletions(n, q + [c]);
    }
    CountBelowSkip(n, q, a, b);
  }
}
