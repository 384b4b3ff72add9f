/** Chunking of block ranges and grouping of logs by block (monitor/types.go). */
module BlockRanges {
  import opened Entities
  import opened Sequences

  datatype Range = Range(first: nat, last: nat)
  datatype Batch = Batch(block: nat, logs: seq<Log>)

  const TWO_TO_64: nat := 0x1_0000_0000_0000_0000

  function Wrap(n: int): (m: nat)
    ensures 0 <= n < TWO_TO_64 ==> m == n
  {
    n % TWO_TO_64
  }

  /** The chunks of [first, last]: `size` blocks each, except possibly the last one. */
  function Chunks(first: nat, last: nat, size: nat): seq<Range>
    requires size >= 1
    decreases last + 1 - first
  {
    if first > last then []
    else
      [Range(first, if first + size - 1 > last then last else first + size - 1)]
      + Chunks(first + size, last, size)
  }

  lemma FirstChunk(first: nat, last: nat, size: nat)
    requires size >= 1 && first <= last
    ensures Chunks(first, last, size) ==
      [Range(first, if first + size - 1 > last then last else first + size - 1)] + Chunks(first + size, last, size)
  {}

  /** The loop of the source on 64-bit unsigned numbers. No sum wraps, and it stops. */
  method SplitBlockRange(fromBlock: nat, toBlock: nat, maxSize: nat) returns (batches: seq<Range>)
    requires maxSize >= 1
    requires fromBlock < TWO_TO_64 && toBlock + maxSize < TWO_TO_64
    ensures batches == Chunks(fromBlock, toBlock, maxSize)
  {
    batches := [];
    var first := fromBlock;
    ghost var total := Chunks(fromBlock, toBlock, maxSize);
    while first <= toBlock
      invariant batches + Chunks(first, toBlock, maxSize) == total
      decreases toBlock + 1 - first
    {
      var batchToBlock := Wrap(first + maxSize - 1);
      if batchToBlock > toBlock {
        batchToBlock := toBlock;
      }
      FirstChunk(first, toBlock, maxSize);
      Grow(batches, Range(first, batchToBlock), Chunks(first + maxSize, toBlock, maxSize), total);
      batches := batches + [Range(first, batchToBlock)];
      first := Wrap(first + maxSize);
    }
  }

  /** Chunking loses and repeats no block: the first chunk starts the range, each next one
      starts right after the previous one, the last one ends the range, none is oversized. */
  lemma {:induction false} ChunksPartition(first: nat, last: nat, size: nat)
    requires size >= 1
    ensures var cs := Chunks(first, last, size);
      && (cs == [] <==> first > last)
      && (cs != [] ==> cs[0].first == first && cs[|cs| - 1].last == last)
      && (forall i :: 0 <= i < |cs| ==> cs[i].first <= cs[i].last < cs[i].first + size)
      && (forall i, j :: 0 <= i < j < |cs| && j == i + 1 ==> cs[j].first == cs[i].last + 1)
    decreases last + 1 - first
  {
    if first <= last {
      ChunksPartition(first + size, last, size);
      var rest := Chunks(first + size, last, size);
      var cs := Chunks(first, last, size);
      assert cs == [cs[0]] + rest;
      forall i, j | 0 <= i < j < |cs| && j == i + 1 ensures cs[j].first == cs[i].last + 1 {
        assert cs[j] == rest[i];
        if i > 0 { assert cs[i] == rest[i - 1]; }
      }
    }
  }

  lemma {:induction false} ChunksInside(first: nat, last: nat, size: nat)
    requires size >= 1
    ensures forall r :: r in Chunks(first, last, size) ==> first <= r.first <= r.last <= last
    decreases last + 1 - first
  {
    if first <= last { ChunksInside(first + size, last, size); }
  }

  /** Where the run of logs that stay at or below the block of logs[start] ends. */
  function RunEnd(logs: seq<Log>, start: nat, k: nat): (n: nat)
    requires start < k <= |logs|
    ensures k <= n <= |logs|
    decreases |logs| - k
  {
    if k == |logs| || logs[k].block > logs[start].block then k else RunEnd(logs, start, k + 1)
  }

  lemma {:induction false} RunEndStops(logs: seq<Log>, start: nat, k: nat)
    requires start < k <= |logs|
    ensures var n := RunEnd(logs, start, k);
      && (forall i :: k <= i < n ==> logs[i].block <= logs[start].block)
      && (n < |logs| ==> logs[n].block > logs[start].block)
    decreases |logs| - k
  {
    if k < |logs| && logs[k].block <= logs[start].block { RunEndStops(logs, start, k + 1); }
  }

  lemma {:induction false} RunEndIs(logs: seq<Log>, start: nat, k: nat, n: nat)
    requires start < k <= n <= |logs|
    requires forall i :: start <= i < n ==> logs[i].block <= logs[start].block
    requires n < |logs| ==> logs[n].block > logs[start].block
    ensures RunEnd(logs, start, k) == n
    decreases n - k
  {
    if k < n { RunEndIs(logs, start, k + 1, n); }
  }

  /** The batches of logs[start..]: a new one starts at each log above the block of its batch. */
  function BatchesFrom(logs: seq<Log>, start: nat): seq<Batch>
    requires start <= |logs|
    decreases |logs| - start
  {
    if start == |logs| then []
    else
      var n := RunEnd(logs, start, start + 1);
      [Batch(logs[start].block, logs[start..n])] + BatchesFrom(logs, n)
  }

  function Batches(logs: seq<Log>): seq<Batch> { BatchesFrom(logs, 0) }

  lemma NextBatch(logs: seq<Log>, start: nat, n: nat)
    requires start < n <= |logs|
    requires forall i :: start <= i < n ==> logs[i].block <= logs[start].block
    requires n < |logs| ==> logs[n].block > logs[start].block
    ensures BatchesFrom(logs, start) == [Batch(logs[start].block, logs[start..n])] + BatchesFrom(logs, n)
  {
    RunEndIs(logs, start, start + 1, n);
  }

  /** The batches that a fake log at MAX_UINT32 closes: all but the one it ends up in. */
  function ClosedBatches(logs: seq<Log>, fake: Log): seq<Batch> {
    var bs := Batches(logs + [fake]);
    bs[..|bs| - 1]
  }

  /** The loop of the source, on every input. */
  method SplitLogsInBatches(input: seq<Log>, fake: Log) returns (batches: seq<Batch>)
    requires fake.block == MAX_UINT32
    ensures batches == ClosedBatches(input, fake)
  {
    batches := [];
    var logs := input + [fake];
    ghost var total := Batches(logs);
    var start := 0;
    var i := 0;
    while i < |logs|
      invariant 0 <= start <= i <= |logs| && start < |logs|
      invariant forall j :: start <= j < i ==> logs[j].block <= logs[start].block
      invariant batches + BatchesFrom(logs, start) == total
    {
      if logs[i].block > logs[start].block {
        NextBatch(logs, start, i);
        Grow(batches, Batch(logs[start].block, logs[start..i]), BatchesFrom(logs, i), total);
        batches := batches + [Batch(logs[start].block, logs[start..i])];
        start := i;
      }
      i := i + 1;
    }
    NextBatch(logs, start, |logs|);
    DropLast(batches, Batch(logs[start].block, logs[start..|logs|]), total);
  }

  /** The block of the last batch of logs[start..]. */
  function LastBlock(logs: seq<Log>, start: nat): nat
    requires start < |logs|
    decreases |logs| - start
  {
    var n := RunEnd(logs, start, start + 1);
    if n == |logs| then logs[start].block else LastBlock(logs, n)
  }

  lemma {:induction false} LastBlockIs(logs: seq<Log>, start: nat)
    requires start < |logs|
    ensures var bs := BatchesFrom(logs, start);
      bs != [] && bs[|bs| - 1].block == LastBlock(logs, start)
    decreases |logs| - start
  {
    var n := RunEnd(logs, start, start + 1);
    if n < |logs| { LastBlockIs(logs, n); }
  }

  lemma {:induction false} SentinelBelow(logs: seq<Log>, start: nat, fake: Log)
    requires fake.block == MAX_UINT32 && start <= |logs|
    requires start == |logs| || LastBlock(logs, start) < MAX_UINT32
    ensures BatchesFrom(logs + [fake], start) == BatchesFrom(logs, start) + [Batch(MAX_UINT32, [fake])]
    decreases |logs| - start
  {
    var more := logs + [fake];
    if start == |logs| {
      RunEndIs(more, start, start + 1, start + 1);
      assert more[start..start + 1] == [fake];
      Empty([Batch(MAX_UINT32, [fake])]);
    } else {
      var n := RunEnd(logs, start, start + 1);
      RunEndStops(logs, start, start + 1);
      RunEndIs(more, start, start + 1, n);
      SliceOfAppend(logs, [fake], start, n);
      SentinelBelow(logs, n, fake);
      Assoc([Batch(logs[start].block, logs[start..n])], BatchesFrom(logs, n), [Batch(MAX_UINT32, [fake])]);
    }
  }

  lemma {:induction false} SentinelAbove(logs: seq<Log>, start: nat, fake: Log)
    requires fake.block == MAX_UINT32 && start < |logs|
    requires LastBlock(logs, start) >= MAX_UINT32
    ensures |BatchesFrom(logs + [fake], start)| == |BatchesFrom(logs, start)|
    decreases |logs| - start
  {
    var more := logs + [fake];
    var n := RunEnd(logs, start, start + 1);
    RunEndStops(logs, start, start + 1);
    if n < |logs| {
      RunEndIs(more, start, start + 1, n);
      SentinelAbove(logs, n, fake);
    } else {
      RunEndIs(more, start, start + 1, n + 1);
    }
  }

  /** The sentinel trick works exactly when the last batch starts below MAX_UINT32; from there
      on its logs would be dropped. */
  lemma SentinelExact(logs: seq<Log>, fake: Log)
    requires fake.block == MAX_UINT32
    ensures ClosedBatches(logs, fake) == Batches(logs) <==> logs == [] || LastBlock(logs, 0) < MAX_UINT32
  {
    if logs == [] || LastBlock(logs, 0) < MAX_UINT32 {
      SentinelBelow(logs, 0, fake);
    } else {
      SentinelAbove(logs, 0, fake);
    }
  }

  /** What submitLogs pushes: the batches, followed by an empty batch at the end of the range
      unless the last batch is already there. */
  function Submissions(logs: seq<Log>, endBlock: nat): seq<Batch> {
    var bs := Batches(logs);
    if bs == [] || bs[|bs| - 1].block < endBlock then bs + [Batch(endBlock, [])] else bs
  }

  function Flatten(bs: seq<Batch>): seq<Log> {
    if bs == [] then [] else bs[0].logs + Flatten(bs[1..])
  }

  lemma {:induction false} BatchesFlatten(logs: seq<Log>, start: nat)
    requires start <= |logs|
    ensures Flatten(BatchesFrom(logs, start)) == logs[start..]
    decreases |logs| - start
  {
    if start < |logs| {
      var n := RunEnd(logs, start, start + 1);
      BatchesFlatten(logs, n);
      assert BatchesFrom(logs, start)[1..] == BatchesFrom(logs, n);
      assert logs[start..n] + logs[n..] == logs[start..];
    }
  }

  lemma {:induction false} FlattenAppend(a: seq<Batch>, b: seq<Batch>)
    ensures Flatten(a + b) == Flatten(a) + Flatten(b)
  {
    if a == [] {
      assert a + b == b;
    } else {
      FlattenAppend(a[1..], b);
      assert (a + b)[1..] == a[1..] + b;
      Assoc(a[0].logs, Flatten(a[1..]), Flatten(b));
    }
  }

  /** Submitting keeps every log, once and in order, whatever the order of the input. */
  lemma SubmissionsFlatten(logs: seq<Log>, endBlock: nat)
    ensures Flatten(Submissions(logs, endBlock)) == logs
  {
    BatchesFlatten(logs, 0);
    FlattenAppend(Batches(logs), [Batch(endBlock, [])]);
  }

  lemma {:induction false} InFlatten(bs: seq<Batch>, l: Log) returns (b: Batch)
    requires l in Flatten(bs)
    ensures b in bs && l in b.logs
  {
    if l in bs[0].logs {
      b := bs[0];
    } else {
      b := InFlatten(bs[1..], l);
    }
  }

  lemma {:induction false} BatchInFlatten(bs: seq<Batch>, b: Batch, l: Log)
    requires b in bs && l in b.logs
    ensures l in Flatten(bs)
  {
    if b != bs[0] { BatchInFlatten(bs[1..], b, l); }
  }

  /** Batches hold nothing but the logs they are made of. */
  lemma SubmittedLogs(logs: seq<Log>, endBlock: nat, b: Batch, l: Log)
    requires b in Submissions(logs, endBlock) && l in b.logs
    ensures l in logs
  {
    SubmissionsFlatten(logs, endBlock);
    BatchInFlatten(Submissions(logs, endBlock), b, l);
  }
}
