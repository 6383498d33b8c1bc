# tinyev

This project models the `tinyev` network library and the programs built on it, and proves what they are for.

* **N-queens.** `Bits`, `Board`, `NQueenServer`: the bit-mask solver returns the number of non-attacking
  placements that extend its prefix, for every board of 1 to 32 queens and every prefix. `Sums`, `NQueenClient`,
  `NQueenSystem`: the client's split, its mirror weights and its dispatch give the number of solutions of the
  whole board, for any number of servers and any order of answers. `NQueenWire` carries this to byte streams.
* **k-th element.** `Counting`, `KthClient`, `KthSystem`, `StdSort`, `KthServer`: in every interleaving of states,
  queries and answers the announced value is the k-th smallest of all servers' numbers, after at most 64 rounds;
  the server's parallel count is exact for every order of its workers. `KthWire` carries this to byte streams.
* **Text protocols.** `Decimal`, `Framing`, `NQueenCodec`, `KthCodec`: what is sent is received, however the
  stream is cut into chunks, and every line, well-formed or not, has the meaning stated.
* **External sort.** `Heap`, `TextFile`, `Sorter`: from the text of the input file, line by line, to the output file.
* **Connections.** `BigEndian`, `Buffer`, `TcpConnection`, `Notifications`, `HalfClose`, `EchoServer`: the buffer is a
  byte queue, the output path keeps the byte stream under partial writes, states only move forward, callbacks are
  queued exactly when they are due, and the echo server's memory is bounded while its connections never stall.
* **Threads.** `EventLoop`, `ThreadPool`, and the latch in `KthServer`, as state machines over their critical
  sections: tasks keep their order, none is taken twice or skipped, no wake-up is lost, and the pool settles.
* **Timers.** `Timers`, `TimerQueue`: timers never run early, and the hardware timer is armed neither too late nor too
  early.

Three kinds of members work together. Code that changes state is a class or a method with a loop; its contract
equates the new state with a specification function of the old one. State machines (`Step`, `Enabled`, `Next`,
`CanRun`, `After`) are built from the same functions, one step for one uninterrupted piece of the program, so that
what other threads, the network and the kernel do in between is any sequence of steps. Lemmas about every run from
the initial state are the main results; each rests on an invariant that every step keeps. What a specification
function computes is stated besides in terms of its inputs alone.

Where the code does not keep what it seems to promise, the exact condition is proved:

* `parseInt128` undoes the printer for every 128-bit number but the most negative one (`KthCodec.ParsePrinted`).
* The sorter writes the numbers of its input exactly if the batch size is positive or there are none
  (`Sorter.Sorter.Sort`).
* A half-close overtakes bytes promised to other threads exactly if such bytes are still queued
  (`TcpConnection.HalfCloseKeepsPromiseIffNoneQueued`).
* A half-closed connection can be half-closed again exactly if it is not closed yet and bytes are being written, or a
  half-close or a send with bytes is queued ahead of any forced close (`HalfClose.HalfCloseRepeatsIff`). Either a
  `shutdown` or a send from another thread can bring that about (`HalfClose.ForeignShutdownHalfClosesTwice`,
  `HalfClose.ForeignSendHalfClosesTwice`).
* `startRead` registers a closed connection again. A connection can close twice, or fail the assertions of
  `handleRead` and `handleClose`, exactly if reading is turned on after the close
  (`TcpConnection.SettledIffNoReadAfterClose`). The echo server does so exactly if a timeout is handled before a
  write that drains the buffer (`EchoServer.SettledIffNoOvertaking`; `EchoServer.EchoClosesTwice` is such a run).
* The timer queue keeps a pointer to a deleted timer exactly if some timer is deleted while the running batch, a queued
  insertion or another queued cancellation still holds it (`Timers.PointersAliveIffNoneDeletedEarly`): it is cancelled
  while it is in the batch or still to be inserted, or it is cancelled, or finished by its batch, while a cancellation
  of it waits. `Timers.RunAwaitedLeaves` and `Timers.CancelTwiceLeaves` are runs of the last kinds. Without such a
  deletion the loop never meets a deleted timer (`Timers.LiveRunsGoOn`).
* `stop` wakes no producer, and what is queued when the last thread has exited is never taken. One that has not
  returned by then can return exactly if it is awake and the queue has a place, or, where waits end spuriously, if the
  queue has a place (`ThreadPool.ProducerReturnsIffAwakeAndRoom`). Without spurious wake-ups all of them return exactly
  if none sleeps and there is a place for each (`ThreadPool.AllReturnIffPlaceForAll`); a producer may sleep for ever at
  an empty queue (`ThreadPool.RoomLeavesProducerAsleep`).

A `char` stands for a byte. Answers of the kernel, clock readings and random draws are parameters.

## Model

| member | source | states |
|---|---|---|
| NQueenServer.BackTrack.Solve | example/nqueen/NQueenServer.cc:21-29 | for 1 to 32 queens and any prefix, valid or not, the result is the number of non-attacking full placements that extend the prefix |
| NQueenServer.BackTrack.TryPutQueens | example/nqueen/NQueenServer.cc:52-79 | either the masks of the prefix's row encode exactly its queens and nothing is counted yet, or the count is already the final one |
| NQueenServer.BackTrack.Search | example/nqueen/NQueenServer.cc:81-102 | adds exactly the number of completions of the queens encoded in its row, and leaves the masks of its row and of all earlier rows as they were |
| NQueenServer.EncodesPush | example/nqueen/NQueenServer.cc:74-76 | or-ing in a queen and shifting by one keeps the relation between 32-bit masks and earlier queens, bits falling off either end included |
| NQueenServer.FreeColumn | example/nqueen/NQueenServer.cc:63-67 | a bit is set in the union of the three masks exactly if the column is attacked |
| Bits.BitOfClearLowest | example/nqueen/NQueenServer.cc:100 | `x & (x - 1)` loses the lowest set bit and keeps every other |
| Board.CompletionsSplit | example/nqueen/NQueenServer.cc:86-101 | the completions of a short prefix are split without overlap by the column of the next queen |
| NQueenClient.RequestsCoverBoard | example/nqueen/NQueenClient.cc:82-142 | for every n >= 1 the mirror-weighted counts of all initial requests add up to the number of solutions of the whole board |
| NQueenClient.AllRequestsAre | example/nqueen/NQueenClient.cc:123-142 | request i * n + j is the prefix of columns i and j, for i in the first half of the columns; there are no others |
| NQueenClient.TakenFromBack | example/nqueen/NQueenClient.cc:113-121 | requests leave last first, as many as there are cores or requests, and the others stay as they are |
| NQueenClient.MirrorKeeps | example/nqueen/NQueenClient.cc:86-93 | mirroring left to right maps completions of a prefix to completions of the mirrored prefix and undoes itself |
| NQueenClient.MirrorHalves | example/nqueen/NQueenClient.cc:133 | the last k columns of the first row hold as many solutions as the first k |
| NQueenClient.NQueenClient.InitRequests | example/nqueen/NQueenClient.cc:123-142 | the nested loops build exactly the two-row prefixes of half the first row, in order, or one empty prefix for one queen, and count them |
| NQueenClient.NQueenClient.TellCores | example/nqueen/NQueenClient.cc:113-121 | exactly min(cores, unsent) requests leave, from the back of the list |
| NQueenClient.NQueenClient.Message | example/nqueen/NQueenClient.cc:82-111 | the weighted count is added, one more request leaves if one is left, and shutdown happens exactly when all are answered |
| NQueenSystem.AnnouncedAnswerIsExact | example/nqueen/NQueenClient.cc:82-142 | in every run, with any servers and any order of answers, the sum at the time all requests are answered is the number of solutions |
| NQueenSystem.RequestsConserved | example/nqueen/NQueenClient.cc:97-121 | in every run unsent, in-flight and answered requests together are the initial ones, and a server that told its cores has that many outstanding while any is unsent |
| NQueenSystem.NothingAfterShutdown | example/nqueen/NQueenClient.cc:102-110 | the answer is announced once; then nothing is in flight and no step sends anything |
| NQueenSystem.RunEnds | example/nqueen/NQueenClient.cc:82-121 | the length of every run is bounded by the work there was at its start |
| NQueenSystem.RunsAreShort | example/nqueen/NQueenClient.cc:82-121 | from the start a run takes at most three steps for each request and one for each server |
| NQueenSystem.StuckMeansAnnounced | example/nqueen/NQueenClient.cc:102-107 | a run that can go no further has announced the exact answer, if some server has a core |
| NQueenSystem.StepKeeps | example/nqueen/NQueenClient.cc:82-150 | each step keeps counting, conservation, honesty of answers and work conservation |
| NQueenWire.AnswerOverBytes | example/nqueen/Codec.cc:17-155 | however the bytes of all messages are cut and interleaved and in whatever order workers finish: no line is malformed or unexpected, and the answer is announced once at most and is the number of solutions |
| NQueenWire.SilenceMeansAnnounced | example/nqueen/NQueenServer.cc:123-145 | when all servers are connected, no byte is on its way and no worker is busy, the exact answer has been announced |
| NQueenWire.RunMatches | example/nqueen/Codec.cc:96-164 | every run over bytes stands for a run over messages with the same client |
| Sums.SumPermutation | example/nqueen/NQueenClient.cc:82-95 | the sum of the answers does not depend on their order of arrival |
| Counting.KthBySorting | example/kth_element/KthClient.cc:125-136 | being the k-th smallest by counting is the same as standing at index k-1 after sorting |
| KthClient.FirstGuessIsMiddle | example/kth_element/KthClient.cc:97 | the unsigned sum converted back is the middle of the interval if the range fits a signed word |
| KthClient.RoundKeeps | example/kth_element/KthClient.cc:125-153 | a complete round keeps both assertions and either announces the k-th element or keeps the bracket in an interval half as wide |
| KthClient.KthClient.ServerState | example/kth_element/KthClient.cc:82-116 | the state is merged; exactly when the last server has told, the bounds are the merged ones, k becomes (n + 1) / 2 or n if it is out of range, and the guess is broadcast |
| KthClient.KthClient.Answer | example/kth_element/KthClient.cc:118-158 | the counts are added; when the last server has answered the round ends with a broadcast or with the announcement |
| KthClient.KthClient.FinishRound | example/kth_element/KthClient.cc:125-156 | the branches of a round give the specified new bounds, counters and guess, and record a failed assertion |
| KthSystem.AnnouncedElementIsKth | example/kth_element/KthClient.cc:82-158 | in every interleaving an announced value is the k-th smallest of the union of all servers' numbers: in any sorted arrangement `t` of them it is the middle one, `t[(n - 1) / 2]`, if k is not positive, the last one if k > n, and `t[k - 1]` otherwise |
| KthSystem.StatesAreMerged | example/kth_element/KthClient.cc:82-110 | once all servers have told, sum, count, minimum and maximum are those of the union of their numbers |
| KthSystem.AssertionsNeverFail | example/kth_element/KthClient.cc:139-140 | in every run at most 64 rounds are made, and the guess lies between the bounds, which never cross |
| KthSystem.InFlightIsCurrent | example/kth_element/KthClient.cc:113-114 | in every run each query in flight is the current guess, and each answer in flight was computed for it |
| KthSystem.SearchStaysInRange | example/kth_element/KthClient.cc:131-153 | bounds and guess stay 64-bit numbers and their difference never overflows |
| KthSystem.RunsAnnounce | example/kth_element/KthClient.cc:125-157 | with n servers a run has at most 130 n steps, and one that can go no further has announced its element |
| KthSystem.StepKeeps | example/kth_element/KthClient.cc:82-158 | each step keeps the protocol invariant: gathering states, in a round of the current guess, or announced |
| KthWire.AnnouncedOverBytes | example/kth_element/Codec.cc:79-189 | however the bytes of all messages are cut and interleaved: no line is malformed or unexpected, the client's assertions hold, and an announced value is the k-th smallest of all data, the middle one if k is not positive and the last one if it is too large |
| KthWire.SilenceMeansAnnounced | example/kth_element/KthClient.cc:118-158 | when all servers are connected and no byte is on its way, the element has been announced |
| KthWire.RunMatches | example/kth_element/Codec.cc:79-141 | every run over bytes stands for a run over messages with the same client |
| KthServer.CountShard | example/kth_element/KthServer.cc:81-86 | a worker adds the numbers of elements of its sorted shard below and equal to the guess |
| KthServer.LowerBound | example/kth_element/KthServer.cc:81 | in a sorted shard the position found is the number of elements below the guess |
| KthServer.UpperBound | example/kth_element/KthServer.cc:82 | in a sorted shard the position found is the number of elements not above the guess |
| KthServer.ResumedMeansAnswered | example/kth_element/KthServer.cc:73-92 | for every order of the workers, `lessEqualCount` goes on only after all have counted, and then its totals are those of the union of the shards |
| KthServer.StuckMeansResumed | example/kth_element/KthServer.cc:144-157 | no wake-up of the latch is lost: when nothing but a spurious wake-up could happen, the caller has resumed |
| KthServer.StepQueryKeeps | tinyev/CountDownLatch.h:24-37 | each critical section keeps: the count is the number of workers still to count down, and the totals are those of the workers that added |
| KthServer.KthServer.Start | example/kth_element/KthServer.cc:22-59 | a count or thread number that is not positive is refused; otherwise the server holds, in sorted shards, exactly the numbers made of the first `count` draws and tells their exact sum, count, minimum and maximum, unless a thread's share overflows the `int` that counts it |
| KthServer.KthServer.GenerateNumbers | example/kth_element/KthServer.cc:106-141 | each draw makes one number, in order: every thread gets its equal share of them, the first one the rest too, with exact running sum, minimum and maximum |
| KthServer.ShareAt | example/kth_element/KthServer.cc:119-124 | number `i` of thread `t` is made of the draw behind `t` whole shares and `i` more |
| KthServer.KthServer.SortAll | example/kth_element/KthServer.cc:41-49 | every shard is sorted and the numbers are the same ones |
| StdSort.Sort | example/kth_element/KthServer.cc:43 | the library sort: ordered and a rearrangement |
| NQueenCodec.MessagesArrive | example/nqueen/Codec.cc:17-155 | well-formed messages arrive as they were sent, in order, however their bytes are cut into chunks, and the incomplete tail stays buffered |
| NQueenCodec.ParseShown | example/nqueen/Codec.cc:17-75 | every well-formed request, response and core count is parsed back as it was printed |
| NQueenCodec.NCoresLine | example/nqueen/Codec.cc:111-123 | a line `$` is a core count exactly if, after white space and a sign, it has digits worth at most 32 bits, and otherwise malformed |
| NQueenCodec.ResponseLine | example/nqueen/Codec.cc:124-136 | a line `#` is a response exactly if it begins with a signed 64-bit number, and otherwise malformed |
| NQueenCodec.RequestLine | example/nqueen/Codec.cc:137-149 | a line that begins with a digit is a request exactly if the number fits 32 bits, and otherwise malformed |
| NQueenCodec.OtherLine | example/nqueen/Codec.cc:107-153 | an empty line is passed over, and a line with any other first character is malformed |
| NQueenCodec.ColsMean | example/nqueen/Codec.cc:22-25 | columns are read one after the other until there is no number, or one that does not fit |
| NQueenCodec.PrintNCores | example/nqueen/Codec.cc:70-75 | the mark and the number, ended by CR LF |
| NQueenCodec.PrintRequest | example/nqueen/Codec.cc:29-37 | the loop prints the number and all columns, ended by CR LF |
| NQueenCodec.PrintResponse | example/nqueen/Codec.cc:51-60 | the mark, the count and all columns, ended by CR LF |
| NQueenCodec.OnBytes | example/nqueen/Codec.cc:77-155 | over a real buffer and connection: a chunk is appended, each message is delivered and its callback's calls on the connection are made before the next line, and the first malformed line closes the connection by force |
| Framing.ParseMessage | example/nqueen/Codec.cc:96-155 | the loop over the buffer delivers every complete line up to the first malformed one, with the calls of its callback, reports that one, and leaves the rest |
| Framing.FindLineMeans | tinyev/Buffer.h:64-68 | the line that is taken ends before the first CR LF |
| Framing.ChunkingIsInvisible | example/nqueen/Codec.cc:98-108 | for any cutting of a stream, between CR and LF too, the same messages are delivered and the same bytes stay, unless a line is malformed; then the messages before it are the same |
| Framing.DrainAppend | example/nqueen/Codec.cc:98-108 | draining a first part and then the rest is draining the whole |
| Framing.DrainPart | tinyev/Buffer.h:64-68 | what has arrived of a stream of printed messages is its first messages; the rest is still under way |
| Framing.SentIsReceived | example/nqueen/Codec.cc:157-164 | for any printer whose lines the parser understands, what is sent is what is delivered |
| Decimal.ReadSignedPrinted | example/kth_element/Codec.cc:167-168 | a printed signed number, with or without a space before it, is read back and exactly its digits are consumed |
| Decimal.ReadUnsignedPrinted | example/nqueen/Codec.cc:22-23 | the same for unsigned numbers |
| Decimal.ReadSignedMeans | example/kth_element/Codec.cc:146-147 | every text, seen as white space, sign, digits and a rest: a signed word is read exactly if there are digits and their value fits, and the rest is left |
| Decimal.ReadUnsignedMeans | example/nqueen/Codec.cc:19-23 | the same for unsigned words, where a minus sign wraps around |
| Decimal.AnyText | example/nqueen/Codec.cc:19-23 | every text can be seen so |
| Decimal.DigitsConcat | example/sort/Sorter.cc:199-207 | digits count tens of those behind them |
| Decimal.ToString | example/kth_element/Codec.cc:52-73 | the digit loop with truncating division and the signed table prints every number in decimal |
| KthCodec.ParseDigits | example/kth_element/Codec.cc:21-41 | the parsing loop returns number and length, no number, or an overflow exactly where the digits exceed the largest 128-bit number |
| KthCodec.ParsePrinted | example/kth_element/Codec.cc:21-73 | for every 128-bit number, printing and parsing gives it back with exactly its printed length if and only if it is not the most negative one |
| KthCodec.ParseShown | example/kth_element/Codec.cc:112-189 | every query, state and answer that is sent is parsed back |
| KthCodec.Int128Means | example/kth_element/Codec.cc:21-41 | for every text: an optional minus sign and digits are the number and its length, no digits are no number, and too many overflow |
| KthCodec.QueryLine | example/kth_element/Codec.cc:143-153 | a line `@` is a query exactly if it begins with a signed 64-bit number, and otherwise malformed |
| KthCodec.AnswerLine | example/kth_element/Codec.cc:176-188 | a line `$` is an answer exactly if it begins with two of them |
| KthCodec.StateLine | example/kth_element/Codec.cc:155-174 | a line `#` is a state exactly if a 128-bit number and three 64-bit ones follow |
| KthCodec.OtherLine | example/kth_element/Codec.cc:89-108 | an empty line is passed over, and a line with any other first character is malformed |
| KthCodec.SendQuery | example/kth_element/Codec.cc:112-117 | the mark and the number, ended by CR LF |
| KthCodec.SendAnswer | example/kth_element/Codec.cc:133-141 | the mark and the two numbers, ended by CR LF |
| KthCodec.SendState | example/kth_element/Codec.cc:119-131 | the string built is the mark and the four numbers, ended by CR LF |
| KthCodec.MessagesArrive | example/kth_element/Codec.cc:79-189 | messages arrive as sent, in order, for every cutting into chunks |
| KthCodec.OnBytes | example/kth_element/Codec.cc:43-110 | over a real buffer and connection: a chunk is appended, each message is delivered and its callback's calls on the connection are made before the next line, and the first malformed line is answered and closes the connection by force |
| Heap.PushHeap | example/sort/Sorter.cc:288 | the library's `push_heap` with the reversed comparison: a min-heap again, with the same records |
| Heap.PopHeap | example/sort/Sorter.cc:284 | the root goes to the back, the rest is a min-heap, the records are the same |
| Heap.MakeHeap | example/sort/Sorter.cc:282 | a min-heap with the same records |
| Sorter.Sorter.Sort | example/sort/Sorter.cc:219-230 | the numbers read back from the output file, text or binary, are those written, and sorted; they are those of the input text, as `TextFile.ParseLines` says what they are, exactly if the batch size is positive or there are none; the program ends early exactly if the batch size is positive and a line is malformed |
| Sorter.Sorter.ReadBatch | example/sort/Sorter.cc:119-139 | the next `maxSize` numbers of the text, fewer only at its end, or the end of the program at a malformed line |
| Sorter.Sorter.SplitAndSortBlocks | example/sort/Sorter.cc:237-270 | non-empty sorted blocks that together hold exactly the numbers of the input, or no block for batch size 0; it ends on every input |
| Sorter.Sorter.ReadOne | example/sort/Sorter.cc:71-81 | the next number of a block, or end of file when there is none |
| Sorter.Sorter.MergeBlocks | example/sort/Sorter.cc:272-292 | the numbers written are sorted and a permutation of what the blocks hold |
| Sorter.Sorter.MergeStep | example/sort/Sorter.cc:284-290 | one round keeps the heap of block heads, the sorted output and everything written <= everything left, whether the back record is replaced or dropped, and lowers the number of elements left |
| Sorter.Sorter.WriteOne | example/sort/Sorter.cc:99-197 | the output file gains the line, or the binary word, of the number |
| Sorter.AdvanceHeads | example/sort/Sorter.cc:295-304 | replacing the written record by the next of its block, or dropping it, leaves one head for every unfinished block |
| TextFile.ParseWritten | example/sort/Sorter.cc:119-207 | lines of 64-bit numbers that are written are read back, number for number, through a buffer of 32 characters |
| TextFile.ParseLines | example/sort/Sorter.cc:119-139 | a file of lines of at most 30 characters, the last one ended or not, each beginning with white space, a sign and digits worth a 64-bit number, is read as exactly these numbers in order |
| TextFile.ParseStops | example/sort/Sorter.cc:199-207 | a file with a line that begins with no number, or with one that does not fit, ends the program |
| TextFile.LongLine | example/sort/Sorter.cc:124-130 | of a longer line 31 characters are taken at a time |
| Buffer.Buffer.Append | tinyev/Buffer.h:147-163 | the readable bytes grow at the back by exactly the data, with the specified growth or move |
| Buffer.Buffer.Prepend | tinyev/Buffer.h:278-284 | the readable bytes grow in front by exactly the data |
| Buffer.Buffer.Retrieve | tinyev/Buffer.h:92-99 | exactly the oldest bytes are dropped |
| Buffer.Buffer.MakeSpace | tinyev/Buffer.h:295-309 | growing or moving keeps the readable bytes; the array is replaced only by a fresh one |
| Buffer.Buffer.ReadFd | tinyev/Buffer.cc:25-48 | a scatter read appends exactly the bytes delivered, in order, with or without the extra 64 KB; a failed one returns -1 and its error and changes nothing |
| Buffer.Buffer.FindCRLF | tinyev/Buffer.h:64-68 | the first CR LF of the readable bytes, or none |
| Buffer.AppendThenRead | tinyev/Buffer.h:177-224 | an integer of any width appended behind any bytes is read back once they are read |
| Buffer.PrependThenRead | tinyev/Buffer.h:198-276 | an integer pushed in front is the next one read, and the rest is untouched |
| Buffer.SpaceIsEnough | tinyev/Buffer.h:295-309 | both branches make the room asked for, and the assertion before the move always holds |
| Buffer.GrowthIsBounded | tinyev/Buffer.h:297-298 | whenever the array grows its new size is below readable + 2 len + 8 |
| Buffer.GrowsOnlyIfNeeded | tinyev/Buffer.h:295-309 | the array grows exactly if the readable bytes, moved behind the first eight, would leave too little room |
| Buffer.ReadsStayBounded | tinyev/Buffer.cc:34-47 | a buffer emptied after each read never takes more than 128 KB - 1 in one read |
| BigEndian.IntRoundTrip | tinyev/Buffer.h:177-255 | writing a signed integer in network order and reading it back gives it again |
| BigEndian.EncodeDecode | tinyev/Buffer.h:226-255 | reading bytes as an integer and writing it gives the same bytes |
| BigEndian.DecodeConcat | tinyev/Buffer.h:226-255 | earlier bytes count 256 times those behind them |
| BigEndian.BytesOfInt | tinyev/Buffer.h:177-196 | the bytes of a signed integer, most significant first, are worth its two's complement |
| TcpConnection.StreamIsKept | tinyev/TcpConnection.cc:111-155 | in every run, with partial writes, EAGAIN and calls from any thread: bytes on the wire ++ output buffer = bytes passed to `sendInLoop` unless a write broke the connection, writing is on exactly if the output buffer of an unclosed connection is not empty, and the assertions of `sendInLoop` and `handleWrite` hold |
| TcpConnection.StreamIsWhatWasSent | tinyev/TcpConnection.cc:93-155 | in every run, unless a write broke the connection, the bytes on the wire with those still buffered are the bytes of all sends, each where it was made, those of other threads where their tasks ran |
| TcpConnection.FlagsTell | tinyev/TcpConnection.cc:111-292 | the recorded flags turn false exactly in the steps in which an assertion of the source fails |
| TcpConnection.StateMovesForward | tinyev/TcpConnection.cc:179-217 | no step of any thread opens a closed connection, or one that is being shut down |
| TcpConnection.ClosedOnce | tinyev/TcpConnection.cc:240-292 | in every run in which reading is not turned on after the close, the close callback runs once at most and the assertions of `handleRead` and `handleClose` hold |
| TcpConnection.SettledIffNoReadAfterClose | tinyev/TcpConnection.cc:227-233 | over every run: one close at most and no failed event assertion, now and after any next step, exactly if reading was not turned on after the close |
| TcpConnection.CloseAgainIffReadAgain | tinyev/TcpConnection.cc:284-292 | after a close, and until the next one, a close event is possible exactly if reading has been turned on since |
| TcpConnection.HalfClosedOnce | tinyev/TcpConnection.cc:192-199 | with callers on the loop thread the half-close happens at most once, with an empty output buffer |
| TcpConnection.HalfCloseComesLast | tinyev/TcpConnection.cc:179-199 | every byte accepted before `shutdown` is on the wire at the half-close, and nothing is accepted after it, unless a write broke the connection |
| TcpConnection.HalfCloseKeepsPromiseIffNoneQueued | tinyev/TcpConnection.cc:104-108 | with calls from any thread, the half-close comes after every byte promised exactly if no queued send has bytes |
| TcpConnection.HalfCloseCanOvertake | tinyev/TcpConnection.cc:104-108 | a run in which the half-close overtakes a byte promised to another thread |
| HalfClose.HalfCloseFollowsIff | tinyev/TcpConnection.cc:179-199 | after any run, with calls from any thread, some later run half-closes exactly if the connection is open, or is being shut down while bytes are being written or a half-close or a send with bytes is queued ahead of any forced close |
| HalfClose.HalfCloseRepeatsIff | tinyev/TcpConnection.cc:192-199 | once half-closed, the connection can be half-closed again exactly under the second of these conditions |
| HalfClose.ForeignShutdownHalfClosesTwice | tinyev/TcpConnection.cc:183-188 | a run in which `shutdown` from another thread half-closes twice |
| HalfClose.ForeignSendHalfClosesTwice | tinyev/TcpConnection.cc:104-108 | a run in which a send queued on another thread makes `shutdown` on the loop thread half-close twice |
| Notifications.SendNotifies | tinyev/TcpConnection.cc:119-154 | a send, whatever is queued: the mark is reported, with the new length, exactly if the output was below it and no longer is; completion exactly if all bytes were taken at once |
| Notifications.WriteNotifies | tinyev/TcpConnection.cc:257-282 | a write event reports completion exactly if it leaves nothing, and never the mark |
| Notifications.StepNotifies | tinyev/TcpConnection.cc:111-282 | the same for every step of every connection: one notice at most, and none but these |
| Notifications.BelowBetweenReports | tinyev/TcpConnection.cc:146-151 | over every run: between two reports of the mark a write event has come and the output has been below the mark |
| TcpConnection.TcpConnection.DoSend | tinyev/TcpConnection.cc:95-109 | a send, given up unless the connection is open; from another thread its bytes are queued |
| TcpConnection.TcpConnection.DoSendInLoop | tinyev/TcpConnection.cc:111-155 | direct write, buffering of the rest, high-water mark and queued callbacks are those of the specification |
| TcpConnection.TcpConnection.SendBuffer | tinyev/TcpConnection.cc:162-177 | all bytes of the buffer are sent, or queued from another thread, and the buffer is emptied; or the connection is not open and nothing changes |
| TcpConnection.TcpConnection.DoShutdown | tinyev/TcpConnection.cc:179-190 | the first call half-closes at once unless something is still being written, or queues that from another thread |
| TcpConnection.TcpConnection.DoForceClose | tinyev/TcpConnection.cc:201-209 | the close is queued on the loop unless already closed |
| TcpConnection.TcpConnection.DoHandleRead | tinyev/TcpConnection.cc:240-255 | bytes go behind those in the input buffer and to the message callback, the end of the stream closes, an error changes nothing |
| TcpConnection.TcpConnection.DoHandleClose | tinyev/TcpConnection.cc:284-292 | the connection is closed, all its events are off, the close callback has run |
| TcpConnection.TcpConnection.DoHandleWrite | tinyev/TcpConnection.cc:257-282 | the bytes the kernel took leave the output buffer; the last one ends writing, does a pending half-close and queues the callback |
| TcpConnection.TcpConnection.SetReading | tinyev/TcpConnection.cc:219-233 | reading is turned on or off, whatever the state; turning it on registers the channel |
| EchoServer.BackPressure | example/EchoServer.cc:57-82 | after every turn of every run, past the close too, the output buffer is at most mark + 131070; an open connection reads only below the mark, is not stalled, and what it has written and holds is what it received unless a write broke |
| EchoServer.BoundDuringTurn | tinyev/TcpConnection.cc:119-154 | the bound holds also right after the read that fills the buffer |
| EchoServer.TurnKeepsFlowing | tinyev/Channel.cc:42-58 | a turn without a close, with read before write and queued callbacks in order, re-establishes all of it |
| EchoServer.ReadThenWrite | tinyev/Channel.cc:51-56 | bytes read in a turn can leave with the write of that turn, behind those that waited |
| EchoServer.ReadIsEchoed | example/EchoServer.cc:57-66 | what an open connection reads is passed on behind everything before it |
| EchoServer.TurnCloses | example/EchoServer.cc:90-100 | a turn with a timeout, hang-up or end of stream closes the connection exactly once, within the bound |
| EchoServer.ReadingAfterClose | example/EchoServer.cc:75-82 | the closing turn leaves the connection reading exactly if a timeout came before a write that drained the buffer |
| EchoServer.SettledIffNoOvertaking | example/EchoServer.cc:75-100 | over every run, past the close too: one close at most and no failed event assertion, now and after any next turn, exactly if no timeout has come before a write that drains the buffer |
| EchoServer.EchoClosesTwice | example/EchoServer.cc:57-100 | three turns after which the connection has closed twice |
| EchoServer.EchoServer.Connection | example/EchoServer.cc:42-55 | a new connection gets its mark and expiry time, a closed one is forgotten |
| EchoServer.EchoServer.Message | example/EchoServer.cc:57-66 | everything received is sent back and the expiry time moves |
| EchoServer.EchoServer.HighWaterMark | example/EchoServer.cc:68-73 | reading stops and the connection gets twice the time |
| EchoServer.EchoServer.WriteCompleted | example/EchoServer.cc:75-82 | reading starts again, with a new expiry time, only if it was off |
| EchoServer.EchoServer.Timeout | example/EchoServer.cc:90-100 | exactly the connections expired when the clock is read for them are force-closed and forgotten, the others stay as they are |
| EventLoop.TasksRunInOrder | tinyev/EventLoop.cc:67-128 | in every interleaving the tasks enqueued are the tasks run, then the rest of the batch, then the pending ones, in order |
| EventLoop.HistoryTells | tinyev/EventLoop.cc:106-203 | a push enqueues its own task, and the loop runs the first one of its batch |
| EventLoop.NoLostWakeup | tinyev/EventLoop.cc:106-128 | the loop never sleeps on pending tasks unless the event descriptor is readable or a thread is between its push and its wake-up |
| EventLoop.WakeupLeadsToExecution | tinyev/EventLoop.cc:67-80 | from there one turn of the loop runs everything that was pending |
| EventLoop.EventLoop.QueueInLoop | tinyev/EventLoop.cc:106-128 | the task goes to the back, and a wake-up is written unless the loop thread queues it outside a batch |
| EventLoop.EventLoop.DoPendingTasks | tinyev/EventLoop.cc:190-203 | exactly what was pending runs, in order; what it enqueues stays for the next turn, with a wake-up for each task |
| EventLoop.SpawnedInOrder | tinyev/EventLoop.cc:190-203 | what the tasks of a batch enqueue is, task by task, in their order |
| ThreadPool.BoundedAndInOrder | tinyev/ThreadPool.cc:32-103 | in every run the queue stays within its bound and the tasks accepted are the tasks taken followed by the queue |
| ThreadPool.HistoryTells | tinyev/ThreadPool.cc:41-103 | what is accepted is the producer's own task, and what is taken is the oldest one |
| ThreadPool.NoLostNotify | tinyev/ThreadPool.cc:41-47 | if a worker sleeps unnotified, the queue is no longer than the workers already woken; if a producer sleeps unnotified, the free places are no more than the producers already woken |
| ThreadPool.StuckMeansAllTaken | tinyev/ThreadPool.cc:32-103 | a running pool in which only offers, spurious wake-ups or `stop` could still happen has accepted every task offered and handed out every task accepted |
| ThreadPool.RunsSettle | tinyev/ThreadPool.cc:41-103 | the length of a run is bounded by eight steps for every offer, three for every spurious wake-up, and six for every thread |
| ThreadPool.StopReleasesWorkers | tinyev/ThreadPool.cc:68-94 | after `stop` has notified everyone no worker waits, then or ever |
| ThreadPool.QueuedIsLeft | tinyev/ThreadPool.cc:80-88 | what is queued when the last thread has exited stays queued in every later run, and nothing more is taken |
| ThreadPool.ProducerReturnsIffAwakeAndRoom | tinyev/ThreadPool.cc:41-47 | when all threads have exited, a producer that has not returned has its task accepted in some later run exactly if the queue has a place, and in some without spurious wake-ups exactly if besides it is not asleep |
| ThreadPool.AllReturnIffPlaceForAll | tinyev/ThreadPool.cc:41-78 | from there, however a run without spurious wake-ups goes on, when nothing more can happen all producers have returned exactly if none slept and the free places were enough for all the others |
| ThreadPool.ExitedSettles | tinyev/ThreadPool.cc:41-78 | from there some run without spurious wake-ups comes to its end |
| ThreadPool.StopLeavesProducerAsleep | tinyev/ThreadPool.cc:68-78 | a run that leaves a task in the queue and a producer asleep |
| ThreadPool.RoomLeavesProducerAsleep | tinyev/ThreadPool.cc:41-103 | a run that leaves a producer asleep although the queue is empty |
| ThreadPool.StepKeeps | tinyev/ThreadPool.cc:32-103 | every critical section, spurious wake-up and the unlocked write of `running_` keeps the invariant |
| ThreadPool.ThreadPool.TryRunTask | tinyev/ThreadPool.cc:32-48 | one pass of the producer's loop: run inline without threads, wait when full, else push |
| ThreadPool.ThreadPool.TryTake | tinyev/ThreadPool.cc:90-103 | one pass of the worker's loop: wait when empty and running, else the oldest task or none |
| Timers.EntriesAreLiveTimers | tinyev/TimerQueue.cc:77-133 | between batches the entries of live timers are exactly the live timers whose insertion is not still queued, each under its due time |
| Timers.NeverArmedTooLate | tinyev/TimerQueue.cc:34-55 | whenever timers are queued and no batch is handled, the descriptor is readable or armed no later than the earliest due time or 1 ms after it was set |
| Timers.NeverArmedTooEarly | tinyev/TimerQueue.cc:34-55 | over every run: an armed descriptor was set for the earliest timer there was at that time, at its due time or, if that was less than 1 ms ahead, at 1 ms from then |
| Timers.StepArms | tinyev/TimerQueue.cc:83-120 | a new first timer and the end of a batch arm the descriptor for exactly that time, the read empties it, and nothing else touches it |
| Timers.RunsAreOnTime | tinyev/TimerQueue.cc:99-117 | run number j of a repeating timer, from 0, comes no earlier than its first due time + j intervals; one-shots run at most once and not early |
| Timers.DueTimesAreRegular | tinyev/Timer.h:33-37 | between batches a live timer is due its first due time + as many intervals as it has run, a one-shot at its first |
| Timers.DueTimerRuns | tinyev/TimerQueue.cc:99-121 | in a run without a cancellation that comes too early: once a queued timer's time and the clamp have passed, the descriptor is readable and the batch runs the timer exactly once |
| Timers.BatchTimersAreDue | tinyev/TimerQueue.cc:105-117 | whatever callbacks add or cancel, the timers of the batch have expired, and those alive are the ones not cancelled |
| Timers.PointersAliveIffNoneDeletedEarly | tinyev/TimerQueue.cc:77-117 | over every run, with timers made and cancelled on any thread: the set, the batch and all queued tasks hold no pointer to a deleted timer exactly if no timer was cancelled while in the running batch or still to be inserted, and none was cancelled, or deleted by its batch, while another cancellation of it was queued |
| Timers.EntriesAliveIffNoneCancelledEarly | tinyev/TimerQueue.cc:77-117 | over every run, the part of it that concerns entries: the set, the batch and the queued insertions hold no pointer to a deleted timer exactly if none was cancelled while it was in the running batch or still to be inserted |
| Timers.LiveRunsGoOn | tinyev/TimerQueue.cc:90-117 | after a run without such a deletion the next queued task and the next step of the batch find their timer alive |
| Timers.RunAwaitedLeaves | tinyev/TimerQueue.cc:90-117 | a run whose batch deletes a one-shot while its cancellation is queued, so that the cancellation is left with a deleted timer |
| Timers.CancelTwiceLeaves | tinyev/TimerQueue.cc:90-97 | a run in which two queued cancellations of one live timer have the same effect |
| Timers.StepKeeps | tinyev/TimerQueue.cc:77-133 | each step keeps keys, run times, the batch, the queued insertions, the deadline, and loses no timer |
| TimerQueue.Timer.Restart | tinyev/Timer.h:33-37 | the due time moves by one interval |
| TimerQueue.TimerQueue.AddTimer | tinyev/TimerQueue.cc:77-88 | the timer is made; on the loop thread it is inserted and the descriptor armed exactly if it is the new earliest, on another thread that is queued |
| TimerQueue.TimerQueue.CancelTimer | tinyev/TimerQueue.cc:90-97 | any live timer, in the set, in the running batch or still to be inserted, is cancelled and deleted and its entry leaves the set; on another thread that is queued |
| TimerQueue.TimerQueue.RunTask | tinyev/TimerQueue.cc:80-96 | the oldest queued insertion or cancellation is done |
| TimerQueue.TimerQueue.GetExpired | tinyev/TimerQueue.cc:123-133 | exactly the entries with when <= now are taken out, in order |
| TimerQueue.TimerQueue.HandleRead | tinyev/TimerQueue.cc:99-121 | also when the descriptor was armed again since the poll; with callbacks that add and cancel timers while the batch runs, the method does the steps of the specification in their order |
| TimerQueue.TimerQueue.TimerfdSet | tinyev/TimerQueue.cc:34-55 | the deadline is the due time, but at least 1_000_000 ns from now |

## Left out

- NQueenServer.BackTrack.Solve: the count is unbounded, not 64 bits wide, and the board has 1 to 32 columns, as the source asserts.
- NQueenClient.NQueenClient.Message: counters and the answer are unbounded; 32-bit and 64-bit overflow is not modelled. The progress report every ten answers and the table of known answers are not part of this model.
- NQueenSystem.AnnouncedAnswerIsExact: for every board; the servers of the source assert at most 32 queens. Servers stay connected; a lost connection loses its requests in the source too, and they are not sent again. The worker threads of a server are any order of its answers.
- NQueenWire.AnswerOverBytes: for the 1 to 32 queens that the servers take; the number of solutions fits a signed 64-bit word and the core counts 32 bits, as they are printed so. The network delivers the bytes of a connection in order; buffering on the sender's side is the subject of `TcpConnection`.
- KthSystem.AnnouncedElementIsKth: for non-empty servers that stay connected and a value range no wider than a signed 64-bit word, which the subtraction in `onServerState` needs; the 128-bit sum and the counts are unbounded.
- KthWire.AnnouncedOverBytes: the number of all elements fits a signed 64-bit word.
- KthServer.KthServer.Start: what the source does when the share of a thread overflows its `int` loop variable has no defined meaning and is reported as such; the pseudo-random draws are parameters.
- KthServer.LowerBound: the library searches, and the library sort and heap operations of `StdSort` and `Heap`, are written out in the plainest way that meets their contracts.
- KthCodec.ParseDigits: where the source's signed arithmetic overflows, which has no defined result, the model stops and treats the line as malformed.
- Framing.ChunkingIsInvisible: what a codec does after the first malformed line is not compared; the connection is being closed there.
- NQueenCodec.OnBytes: what the callbacks do besides their calls on the connection is the subject of `NQueenWire` and `KthWire`. A callback that is not set is not part of this model.
- Sorter.Sorter.ReadBatch: errors of the file system are not part of this model. Binary files are sequences of numbers, and records name their block by index instead of by pointer.
- Buffer.AppendThenRead: one method for all widths; the four fixed widths and the separate peek and skip operations are instances.
- TcpConnection.StreamIsKept: the kernel's answers are parameters; in `shutdown` and `forceClose` the test of the state and the exchange are one step, also from another thread. `shutdown` is not called after the close, as the source asserts.
- EchoServer.BackPressure: one connection and one loop thread, with timeouts at any turn; expiry times are exact in the class only. Urgent data, for which `disableRead` leaves the channel registered, is not delivered.
- EventLoop.TasksRunInOrder: nothing is enqueued by the loop thread before `loop()`; quitting the loop is not modelled. The two overloads of `queueInLoop`, by copy and by move, are one.
- ThreadPool.BoundedAndInOrder: running a task and joining the threads are not steps; tasks left in the queue after `stop` are not run, as in the source.
- Timers.NeverArmedTooLate: the clock that due times refer to and the clock of the hardware timer advance together; setting the system clock is not modelled. Addresses are not used again, and a deleted timer is not cancelled again.
- TimerQueue.TimerQueue.HandleRead: the batch stops at a timer that was deleted, where the source has no defined meaning. It may begin at any time while the descriptor is armed, not only after a poll that found it readable, so that there are more runs here than in the source.
- TimerQueue.TimerQueue.RunTask: a queued cancellation of a timer that was deleted has no defined meaning in the source and is not run; `Timers.PointersAliveIffNoneDeletedEarly` says exactly when there is none.
- System calls, `Acceptor`, `Connector`, `TcpClient`, `TcpServer`, `InetAddress`, `Logger`, argument parsing and `main` are plumbing and not part of this model.
- The lifetime of connections and channels (shared and weak pointers) and `std::any` contexts are not part of this model.
- `FileOfText::writeBatch` and `FileOfBinary::at` are not used by the behaviour proved here.
