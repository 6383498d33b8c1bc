/**
 The external sorter: the input is read in batches, each batch is sorted into a block, and the blocks are
 merged through a heap that holds the head of every block.
 */
module Sorter {
  import opened Common
  import opened Counting
  import opened Heap
  import opened TextFile
  import Decimal
  import StdSort

  /** A block on disk: its numbers, the read position, and the end-of-file flag of its stream. */
  datatype Block = Block(data: seq<int>, pos: nat, eof: bool)

  ghost predicate GoodBlock(b: Block) {
    b.pos <= |b.data| && Sorted(b.data)
  }

  /** A block just written, sorted and rewound. */
  ghost predicate NewBlock(b: Block) {
    GoodBlock(b) && b.pos == 0 && !b.eof && b.data != []
  }

  ghost predicate NewBlocks(blocks: seq<Block>) {
    forall i :: 0 <= i < |blocks| ==> NewBlock(blocks[i])
  }

  /** What of a block is not written yet, once its first number has been read: its head and what follows. */
  ghost function LeftOf(b: Block): seq<int> {
    if b.eof || b.pos == 0 || b.pos > |b.data| then [] else b.data[b.pos - 1..]
  }

  ghost function Left(blocks: seq<Block>): seq<int> {
    if blocks == [] then [] else Left(blocks[..|blocks| - 1]) + LeftOf(blocks[|blocks| - 1])
  }

  ghost function AllData(blocks: seq<Block>): seq<int> {
    if blocks == [] then [] else AllData(blocks[..|blocks| - 1]) + blocks[|blocks| - 1].data
  }

  lemma AddBlock(blocks: seq<Block>, b: Block)
    ensures AllData(blocks + [b]) == AllData(blocks) + b.data
  {
    assert (blocks + [b])[..|blocks|] == blocks;
  }

  lemma {:induction false} LeftUpdate(blocks: seq<Block>, i: nat, b: Block)
    requires i < |blocks|
    ensures multiset(Left(blocks[i := b])) + multiset(LeftOf(blocks[i])) == multiset(Left(blocks)) + multiset(LeftOf(b))
  {
    hide LeftOf;
    var k := |blocks| - 1;
    var after := blocks[i := b];
    if i == k {
      assert after[..k] == blocks[..k];
    } else {
      LeftUpdate(blocks[..k], i, b);
      assert after[..k] == blocks[..k][i := b] && blocks[..k][i] == blocks[i];
      Exchange(multiset(Left(after[..k])), multiset(LeftOf(blocks[i])), multiset(Left(blocks[..k])),
          multiset(LeftOf(b)), multiset(LeftOf(blocks[k])));
    }
  }

  lemma Exchange(a: multiset<int>, b: multiset<int>, c: multiset<int>, d: multiset<int>, e: multiset<int>)
    requires a + b == c + d
    ensures (a + e) + b == (c + e) + d
  {
    assert (a + e) + b == (a + b) + e && (c + e) + d == (c + d) + e;
  }

  lemma Cancel(a: multiset<int>, b: multiset<int>, x: multiset<int>)
    requires a + x == b + x
    ensures a == b
  {
    forall e
      ensures a[e] == b[e]
    {
      assert (a + x)[e] == (b + x)[e];
    }
  }

  lemma {:induction false} InLeft(blocks: seq<Block>, y: int) returns (i: nat)
    requires y in Left(blocks)
    ensures i < |blocks| && y in LeftOf(blocks[i])
  {
    var k := |blocks| - 1;
    if y in LeftOf(blocks[k]) {
      i := k;
    } else {
      i := InLeft(blocks[..k], y);
    }
  }

  lemma {:induction false} LeftAtStart(blocks: seq<Block>)
    requires forall i :: 0 <= i < |blocks| ==> blocks[i].pos == 1 && !blocks[i].eof && blocks[i].data != []
    ensures Left(blocks) == AllData(blocks)
  {
    if blocks != [] {
      LeftAtStart(blocks[..|blocks| - 1]);
    }
  }

  // ----- the records of the heap -----

  /** The record a started block has in the heap. */
  ghost function RecordOf(blocks: seq<Block>, i: nat): Record
    requires i < |blocks| && 0 < blocks[i].pos <= |blocks[i].data|
  {
    Record(blocks[i].data[blocks[i].pos - 1], i)
  }

  ghost predicate Started(b: Block) {
    GoodBlock(b) && b.pos > 0
  }

  /** The heap holds the head of every unfinished block, once, and nothing else. */
  ghost predicate Heads(records: multiset<Record>, blocks: seq<Block>) {
    && (forall i :: 0 <= i < |blocks| ==> Started(blocks[i]))
    && (forall r :: r in records ==> r.block < |blocks| && !blocks[r.block].eof && r == RecordOf(blocks, r.block))
    && (forall i :: 0 <= i < |blocks| && !blocks[i].eof ==> records[RecordOf(blocks, i)] == 1)
  }

  /** The least head is the least of everything not yet written. */
  lemma LeastHead(records: multiset<Record>, blocks: seq<Block>, r: Record, y: int)
    requires Heads(records, blocks) && (forall p :: p in records ==> r.elem <= p.elem) && y in Left(blocks)
    ensures r.elem <= y
  {
    var i := InLeft(blocks, y);
    var b := blocks[i];
    assert records[RecordOf(blocks, i)] == 1;
    var j :| 0 <= j < |LeftOf(b)| && LeftOf(b)[j] == y;
    assert b.data[b.pos - 1 + j] == y;
  }

  /** A block whose head was written gives its next number, or is finished. */
  function Advance(b: Block): Block {
    if b.pos < |b.data| then b.(pos := b.pos + 1) else b.(eof := true)
  }

  lemma AdvanceLeft(records: multiset<Record>, blocks: seq<Block>, r: Record)
    requires Heads(records, blocks) && r in records
    ensures r.block < |blocks|
    ensures multiset(Left(blocks)) == multiset(Left(blocks[r.block := Advance(blocks[r.block])])) + multiset{r.elem}
  {
    hide Left;
    var b := blocks[r.block];
    LeftUpdate(blocks, r.block, Advance(b));
    assert LeftOf(b) == [r.elem] + LeftOf(Advance(b));
    var after, rest := Left(blocks[r.block := Advance(b)]), LeftOf(Advance(b));
    assert multiset(after) + (multiset{r.elem} + multiset(rest))
        == (multiset(after) + multiset{r.elem}) + multiset(rest);
    Cancel(multiset(Left(blocks)), multiset(after) + multiset{r.elem}, multiset(rest));
  }

  /** The records of the other blocks are still their heads. */
  lemma OtherHeads(records: multiset<Record>, blocks: seq<Block>, r: Record, b: Block)
    requires Heads(records, blocks) && r in records && Started(b)
    ensures r.block < |blocks|
    ensures var after := blocks[r.block := b]; var rest := records - multiset{r};
      && (forall p :: p in rest ==>
            p.block < |after| && p.block != r.block && !after[p.block].eof && p == RecordOf(after, p.block))
      && (forall i :: 0 <= i < |after| && i != r.block && !after[i].eof ==> rest[RecordOf(after, i)] == 1)
  {
    var after, rest := blocks[r.block := b], records - multiset{r};
    assert records[RecordOf(blocks, r.block)] == 1;
    forall p | p in rest
      ensures p.block < |after| && p.block != r.block && !after[p.block].eof && p == RecordOf(after, p.block)
    {
      assert p in records && p != r;
    }
    forall i | 0 <= i < |after| && i != r.block && !after[i].eof
      ensures rest[RecordOf(after, i)] == 1
    {
      assert RecordOf(after, i) == RecordOf(blocks, i) != r;
    }
  }

  /** The record taken from the heap is replaced by the next of its block, or dropped. */
  lemma AdvanceHeads(records: multiset<Record>, blocks: seq<Block>, r: Record)
    requires Heads(records, blocks) && r in records
    ensures r.block < |blocks|
    ensures var after := blocks[r.block := Advance(blocks[r.block])]; var rest := records - multiset{r};
      && Started(after[r.block])
      && Heads(if after[r.block].eof then rest else rest + multiset{RecordOf(after, r.block)}, after)
  {
    var b := Advance(blocks[r.block]);
    OtherHeads(records, blocks, r, b);
    var after, rest := blocks[r.block := b], records - multiset{r};
    if !b.eof {
      assert RecordOf(after, r.block) !in rest;
    }
  }

  // ----- the sorter -----

  /** An output file: its text, or the numbers in its binary words. */
  datatype File = FileOfText(text: string) | FileOfBinary(numbers: seq<int>)

  /** The numbers that are read from a file of either kind, unless a line of it is malformed. */
  function Numbers(f: File): Option<seq<int>> {
    match f
    case FileOfText(text) => Parse(text)
    case FileOfBinary(numbers) => Some(numbers)
  }

  /** The file as `writeOne` leaves it. */
  function Filled(binary: bool, xs: seq<int>): File {
    if binary then FileOfBinary(xs) else FileOfText(Written(xs))
  }

  /** `input` is the text of the input file; `written` are the numbers written to `output`. */
  class Sorter {
    const input: string
    var inputPos: nat
    var blocks: seq<Block>
    var output: File
    ghost var written: seq<int>
    var sorted: bool

    ghost predicate Valid()
      reads this
    {
      inputPos <= |input| && output == Filled(output.FileOfBinary?, written)
    }

    constructor (text: string, binary: bool)
      ensures Valid() && input == text && inputPos == 0 && blocks == [] && written == [] && !sorted
      ensures output == Filled(binary, [])
    {
      input, inputPos, blocks, written, sorted := text, 0, [], [], false;
      output := if binary then FileOfBinary([]) else FileOfText("");
    }

    /** Up to `maxSize` numbers of the input text; `fatal` tells that a line made the program end. */
    method ReadBatch(maxSize: nat) returns (vec: seq<int>, fatal: bool)
      requires Valid()
      modifies this`inputPos
      ensures Valid() && old(inputPos) <= inputPos && (vec != [] ==> old(inputPos) < inputPos)
      ensures fatal ==> maxSize > 0 && Parse(input[old(inputPos)..]) == None
      ensures !fatal ==>
        && Parse(input[old(inputPos)..]) == Before(vec, Parse(input[inputPos..]))
        && (|vec| == maxSize || (|vec| < maxSize && inputPos == |input|))
    {
      hide LineLength, ToInt, Parse, Before, Written;
      vec, fatal := [], false;
      Nothing(Parse(input[inputPos..]));
      while |vec| < maxSize && inputPos < |input|
        invariant Valid() && old(inputPos) <= inputPos && |vec| <= maxSize && (vec != [] ==> old(inputPos) < inputPos)
        invariant Parse(input[old(inputPos)..]) == Before(vec, Parse(input[inputPos..]))
      {
        var rest := input[inputPos..];
        var n := LineLength(rest, MAX_LINE);
        var x := ToInt(rest[..n]);
        ParseLine(rest, vec);
        if x.None? {
          return vec, true;
        }
        assert rest[n..] == input[inputPos + n..];
        BeforeBefore(vec, [x.value], Parse(input[inputPos + n..]));
        vec := vec + [x.value];
        inputPos := inputPos + n;
      }
    }

    /** The next number of a block; the source asserts that the end was not seen before. */
    method ReadOne(i: nat) returns (ok: bool, elem: int)
      requires i < |blocks| && !blocks[i].eof && blocks[i].pos <= |blocks[i].data|
      modifies this`blocks
      ensures blocks == old(blocks)[i := Advance(old(blocks)[i])]
      ensures ok <==> !blocks[i].eof
      ensures ok ==> 0 < blocks[i].pos <= |blocks[i].data| && elem == blocks[i].data[blocks[i].pos - 1]
    {
      var b := blocks[i];
      if b.pos < |b.data| {
        ok, elem := true, b.data[b.pos];
        blocks := blocks[i := b.(pos := b.pos + 1)];
      } else {
        ok, elem := false, 0;
        blocks := blocks[i := b.(eof := true)];
      }
    }

    /** Blocks for all numbers of the input, unless a line of it is malformed. */
    method SplitAndSortBlocks(batchSize: nat) returns (fatal: bool)
      requires Valid() && inputPos == 0 && blocks == []
      modifies this`inputPos, this`blocks
      ensures Valid() && NewBlocks(blocks)
      ensures fatal <==> batchSize > 0 && Parse(input).None?
      ensures !fatal && batchSize > 0 ==> multiset(AllData(blocks)) == multiset(Parse(input).value)
      ensures batchSize == 0 ==> blocks == []
    {
      hide Parse, AllData, GoodBlock;
      ghost var done: seq<int> := [];
      assert input[0..] == input;
      Nothing(Parse(input));
      NoData();
      while true
        invariant Valid() && NewBlocks(blocks)
        invariant Parse(input) == Before(done, Parse(input[inputPos..])) && multiset(AllData(blocks)) == multiset(done)
        invariant batchSize == 0 ==> blocks == []
        decreases |input| - inputPos
      {
        var vec, malformed := ReadBatch(batchSize);
        if malformed {
          return true;
        }
        BeforeBefore(done, vec, Parse(input[inputPos..]));
        if vec == [] {
          break;
        }
        AddSorted(vec);
        done := done + vec;
        if |vec| < batchSize {
          break;
        }
      }
      if batchSize > 0 {
        assert input[inputPos..] == "";
        EndOfFile(done);
      }
      return false;
    }

    /** A batch is sorted and written to a block of its own. */
    method AddSorted(vec: seq<int>)
      requires NewBlocks(blocks) && vec != []
      modifies this`blocks
      ensures NewBlocks(blocks) && multiset(AllData(blocks)) == multiset(AllData(old(blocks))) + multiset(vec)
    {
      var block := StdSort.Sort(vec);
      assert |multiset(block)| == |multiset(vec)|;
      AddBlock(blocks, Block(block, 0, false));
      blocks := blocks + [Block(block, 0, false)];
    }

    /** The first number of every block. */
    method FirstRecords() returns (records: seq<Record>)
      requires NewBlocks(blocks)
      modifies this`blocks
      ensures Heads(multiset(records), blocks) && multiset(Left(blocks)) == multiset(AllData(old(blocks)))
    {
      records := [];
      ghost var before := blocks;
      for i := 0 to |blocks|
        invariant |blocks| == |before| && |records| == i
        invariant forall j :: 0 <= j < i ==> blocks[j] == before[j].(pos := 1)
        invariant forall j :: i <= j < |blocks| ==> blocks[j] == before[j]
        invariant forall j :: 0 <= j < i ==> records[j] == Record(before[j].data[0], j)
      {
        var success, elem := ReadOne(i);
        assert success;
        records := records + [Record(elem, i)];
      }
      LeftAtStart(blocks);
      SameData(before, blocks);
      RecordsAreHeads(records, blocks);
    }

    method MergeBlocks()
      requires NewBlocks(blocks)
      requires Valid() && written == []
      modifies this`blocks, this`output, this`written
      ensures Valid() && output.FileOfBinary? == old(output).FileOfBinary?
      ensures Sorted(written) && multiset(written) == multiset(AllData(old(blocks)))
    {
      var records := FirstRecords();
      records := MakeHeap(records);
      while records != []
        invariant IsHeap(records) && Heads(multiset(records), blocks)
        invariant Valid() && output.FileOfBinary? == old(output).FileOfBinary?
        invariant multiset(written) + multiset(Left(blocks)) == multiset(AllData(old(blocks)))
        invariant Sorted(written)
        invariant forall x, y :: x in written && y in Left(blocks) ==> x <= y
        decreases |Left(blocks)|
      {
        records := MergeStep(records);
      }
      NothingLeft(blocks);
    }

    /** One round of the merge loop: pop the least record, write it, and put the next of its block in its place. */
    method MergeStep(heap: seq<Record>) returns (records: seq<Record>)
      requires heap != [] && IsHeap(heap) && Heads(multiset(heap), blocks)
      requires Valid() && Sorted(written) && forall x, y :: x in written && y in Left(blocks) ==> x <= y
      modifies this`blocks, this`output, this`written
      ensures Valid() && output.FileOfBinary? == old(output).FileOfBinary?
      ensures IsHeap(records) && Heads(multiset(records), blocks)
      ensures multiset(written) + multiset(Left(blocks)) == multiset(old(written)) + multiset(Left(old(blocks)))
      ensures Sorted(written) && forall x, y :: x in written && y in Left(blocks) ==> x <= y
      ensures |Left(blocks)| < |Left(old(blocks))|
    {
      hide Left, LeftOf, Written, Filled, Sorted, IsHeap;
      ghost var before := blocks;
      var popped := PopHeap(heap);
      var n := |popped| - 1;
      var r := popped[n];
      PoppedLeast(heap, popped, before);
      AdvanceLeft(multiset(heap), before, r);
      AdvanceHeads(multiset(heap), before, r);
      WriteKeeps(written, before, before[r.block := Advance(before[r.block])], r.elem);
      WriteOne(r.elem);
      records := ReplaceRecord(popped);
    }

    /** The record at the back gives way to the next of its block, if there is one. */
    method ReplaceRecord(popped: seq<Record>) returns (records: seq<Record>)
      requires popped != [] && IsHeap(popped[..|popped| - 1])
      requires var r := popped[|popped| - 1];
        r.block < |blocks| && !blocks[r.block].eof && blocks[r.block].pos <= |blocks[r.block].data|
      modifies this`blocks
      ensures var r := popped[|popped| - 1];
        && blocks == old(blocks)[r.block := Advance(old(blocks)[r.block])]
        && IsHeap(records)
        && (!blocks[r.block].eof ==> 0 < blocks[r.block].pos <= |blocks[r.block].data|)
        && multiset(records) == multiset(popped) - multiset{r}
            + if blocks[r.block].eof then multiset{} else multiset{RecordOf(blocks, r.block)}
    {
      hide IsHeap;
      var n := |popped| - 1;
      var r := popped[n];
      var more, elem := ReadOne(r.block);
      ReplaceLast(popped, if more then Record(elem, r.block) else r);
      if more {
        records := popped[n := Record(elem, r.block)];
        assert records[..n] == popped[..n];
        records := PushHeap(records);
      } else {
        records := popped[..n];
      }
    }

    /** One more line, or word, of the output file. */
    method WriteOne(x: int)
      requires Valid()
      modifies this`output, this`written
      ensures Valid() && written == old(written) + [x] && output.FileOfBinary? == old(output).FileOfBinary?
      ensures output.FileOfText? ==> output.text == old(output).text + Decimal.PrintInt(x) + "\n"
      ensures output.FileOfBinary? ==> output.numbers == old(output).numbers + [x]
    {
      match output {
        case FileOfText(text) =>
          var line := Decimal.ToString(x);
          WrittenAppend(written, x);
          output := FileOfText(text + line + "\n");
        case FileOfBinary(numbers) =>
          output := FileOfBinary(numbers + [x]);
      }
      written := written + [x];
    }

    /**
     The numbers read back from the output file, text or binary, are the sorted ones written; they are those of the
     input file exactly if the batch size is positive or there are none. With a positive batch size a malformed line,
     and nothing else, makes the program end.
     */
    method Sort(batchSize: nat) returns (fatal: bool)
      requires Valid() && !sorted && inputPos == 0 && blocks == [] && written == []
      modifies this
      ensures fatal <==> batchSize > 0 && Parse(input).None?
      ensures !fatal ==> sorted && output == Filled(old(output).FileOfBinary?, written)
      ensures !fatal ==> Numbers(output) == Some(written) && Sorted(written) && (batchSize == 0 ==> written == [])
      ensures !fatal && Parse(input).Some? ==>
        (multiset(written) == multiset(Parse(input).value) <==> batchSize > 0 || Parse(input).value == [])
    {
      hide Parse, Written;
      fatal := SplitAndSortBlocks(batchSize);
      if !fatal {
        MergeBlocks();
        NoData();
        if batchSize > 0 {
          WrittenIsRead(input, written);
        } else {
          NothingIsRead();
          assert |multiset(written)| == 0;
        }
        assert Parse(input).Some? ==> |multiset(Parse(input).value)| == |Parse(input).value|;
        sorted := true;
      }
    }
  }

  lemma ParseLine(text: string, vec: seq<int>)
    requires text != ""
    ensures var n := LineLength(text, MAX_LINE);
      match ToInt(text[..n])
      case None => Before(vec, Parse(text)) == None
      case Some(x) => Parse(text) == Before([x], Parse(text[n..]))
  {
  }

  lemma Nothing(r: Option<seq<int>>)
    ensures Before([], r) == r
  {
    if r.Some? {
      assert [] + r.value == r.value;
    }
  }

  lemma EndOfFile(vec: seq<int>)
    ensures Before(vec, Parse("")) == Some(vec)
  {
    assert vec + [] == vec;
  }

  lemma NoData()
    ensures AllData([]) == []
  {
  }

  lemma NothingIsRead()
    ensures Parse(Written([])) == Some([])
  {
  }

  /** Numbers that come from a file can be written to one and read back. */
  lemma WrittenIsRead(text: string, xs: seq<int>)
    requires Parse(text).Some? && multiset(xs) == multiset(Parse(text).value)
    ensures Parse(Written(xs)) == Some(xs)
  {
    ParsedFit(text);
    forall x | x in xs ensures Int64(x) {
      assert x in multiset(xs);
      assert x in multiset(Parse(text).value);
      assert x in Parse(text).value;
    }
    ParseWritten(xs);
  }

  lemma {:induction false} SameData(a: seq<Block>, b: seq<Block>)
    requires |a| == |b| && forall i :: 0 <= i < |a| ==> a[i].data == b[i].data
    ensures AllData(a) == AllData(b)
  {
    if a != [] {
      SameData(a[..|a| - 1], b[..|b| - 1]);
    }
  }

  lemma RecordsAreHeads(records: seq<Record>, blocks: seq<Block>)
    requires |records| == |blocks|
    requires forall i :: 0 <= i < |blocks| ==> Started(blocks[i]) && !blocks[i].eof && records[i] == RecordOf(blocks, i)
    ensures Heads(multiset(records), blocks)
  {
    forall i | 0 <= i < |blocks|
      ensures multiset(records)[RecordOf(blocks, i)] == 1
    {
      assert records == records[..i] + [records[i]] + records[i + 1..];
      assert records[i] !in records[..i] && records[i] !in records[i + 1..];
    }
  }

  /** With no record left every block is finished. */
  lemma NothingLeft(blocks: seq<Block>)
    requires Heads(multiset{}, blocks)
    ensures Left(blocks) == []
  {
    if Left(blocks) != [] {
      var i := InLeft(blocks, Left(blocks)[0]);
      assert false;
    }
  }

  lemma PoppedLeast(heap: seq<Record>, popped: seq<Record>, blocks: seq<Block>)
    requires heap != [] && IsHeap(heap) && Heads(multiset(heap), blocks)
    requires |popped| == |heap| && multiset(popped) == multiset(heap) && popped[|popped| - 1] == heap[0]
    ensures heap[0] in multiset(heap)
    ensures forall y :: y in Left(blocks) ==> heap[0].elem <= y
  {
    forall p | p in multiset(heap)
      ensures heap[0].elem <= p.elem
    {
      var i :| 0 <= i < |heap| && heap[i] == p;
      RootIsLeast(heap, i);
    }
    forall y | y in Left(blocks)
      ensures heap[0].elem <= y
    {
      LeastHead(multiset(heap), blocks, heap[0], y);
    }
  }

  lemma WriteKeeps(output: seq<int>, before: seq<Block>, after: seq<Block>, elem: int)
    requires Sorted(output) && forall x, y :: x in output && y in Left(before) ==> x <= y
    requires multiset(Left(before)) == multiset(Left(after)) + multiset{elem}
    requires forall y :: y in Left(before) ==> elem <= y
    ensures Sorted(output + [elem])
    ensures forall x, y :: x in output + [elem] && y in Left(after) ==> x <= y
    ensures |Left(after)| < |Left(before)|
  {
    hide Left;
    WriteSorted(output, Left(before), Left(after), elem);
  }

  lemma WriteSorted(output: seq<int>, before: seq<int>, after: seq<int>, elem: int)
    requires Sorted(output) && forall x, y :: x in output && y in before ==> x <= y
    requires multiset(before) == multiset(after) + multiset{elem}
    requires forall y :: y in before ==> elem <= y
    ensures Sorted(output + [elem])
    ensures forall x, y :: x in output + [elem] && y in after ==> x <= y
    ensures |after| < |before|
  {
    assert |multiset(before)| == |multiset(after)| + 1;
    assert elem in multiset(before);
    assert elem in before;
    forall y | y in after
      ensures y in before
    {
      assert y in multiset(after);
      assert y in multiset(before);
    }
    forall i | 0 <= i < |output|
      ensures output[i] <= elem
    {
      assert output[i] in output;
    }
  }

  lemma ReplaceLast(popped: seq<Record>, r: Record)
    requires popped != []
    ensures var n := |popped| - 1;
      && multiset(popped[n := r]) == multiset(popped) - multiset{popped[n]} + multiset{r}
      && multiset(popped[..n]) == multiset(popped) - multiset{popped[n]}
  {
    var n := |popped| - 1;
    assert popped == popped[..n] + [popped[n]];
    assert popped[n := r] == popped[..n] + [r];
  }
}
