/** Runs that show what the pipeline can come to. */
module Witnesses {
  import opened Entities
  import opened Sequences
  import opened BlockRanges
  import opened Chains
  import opened LogsTable
  import opened Handlers
  import opened Queues
  import opened Pipeline
  import opened PipelineInvariant
  import opened PipelineRuns

  /** The process has started, recovered nothing, and waits. */
  lemma Started(w: World, low: nat) returns (s: State)
    requires ValidWorld(w)
    ensures ReachableAlone(w, low, s)
    ensures var b := w.Start() - 1;
      s == State(EMPTY_DB, Cursor(b, b), 0, b + 1, [], [], [Batch(b, [])], FetcherIdle, ProcessorIdle, false)
  {
    s := Boot(w, EMPTY_DB);
    Booted(w, low);
    var found := Find({}, UnprocessedFilter(w, s.fetcher.range));
    assert Select({}, UnprocessedFilter(w, s.fetcher.range)) == {};
    s := Go(w, low, s, LoadSaved(found));
    assert s.fetcher.outbox == [Batch(w.Start() - 1, [])];
    s := Go(w, low, s, PushBatch);
  }

  lemma OneBlock(w: World, k: nat)
    requires ValidChain(w)
    ensures RangeLogs(w, Range(k, k)) == At(w, k)
    ensures Submissions(RangeLogs(w, Range(k, k)), k) == [Batch(k, At(w, k))]
  {
    BatchesOfBlocks(w, k, k + 1);
    LastBlockOf(w, k, k + 1);
    assert BlockBatches(w, k, k) == [] && Between(w, k, k) == [];
  }

  lemma OneChunk(k: nat, size: nat)
    requires size >= 1
    ensures Chunks(k, k, size) == [Range(k, k)]
  {
    assert Chunks(k + size, k, size) == [];
  }

  /** The head is the block right before k: nothing is scheduled, and block k is next. */
  lemma PolledNone(w: World, low: nat, p: State, k: nat) returns (s: State)
    requires w.Start() >= 1 && w.Cfg().maxRange >= 1 && ReachableAlone(w, low, p) && p.pending == []
    requires 1 <= k <= p.start && low + 1 <= w.Cfg().confirmations + k <= MAX_UINT32
    ensures ReachableAlone(w, low, s) && s == p.(head := Max(p.head, k - 1), start := k)
  {
    assert Chunks(p.start, k - 1, w.Cfg().maxRange) == [];
    s := Go(w, low, p, Poll(w.Cfg().confirmations + k - 1));
  }

  /** The head is the next block, k: it is scheduled. */
  lemma PolledOne(w: World, low: nat, p: State, k: nat) returns (s: State)
    requires w.Start() >= 1 && w.Cfg().maxRange >= 1 && ReachableAlone(w, low, p) && p.pending == []
    requires p.start == k && low <= w.Cfg().confirmations + k < MAX_UINT32
    ensures ReachableAlone(w, low, s) && s == p.(head := Max(p.head, k), pending := [Range(k, k)], start := k + 1)
  {
    OneChunk(k, w.Cfg().maxRange);
    s := Go(w, low, p, Poll(w.Cfg().confirmations + k));
  }

  /** The whole write of a recorded range, undisturbed. */
  lemma WriteRecorded(w: World, low: nat, p: State) returns (s: State)
    requires w.Start() >= 1 && w.Cfg().maxRange >= 1 && ReachableAlone(w, low, p) && !p.cancelled
    requires p.fetcher.RecordingFetched? && p.fetcher.write == ReadFetched
    ensures ReachableAlone(w, low, s)
    ensures s == p.(db := WriteRow(p.db, p.mem).(sent := p.db.sent + {p.mem}),
                    fetcher := Submitting(Submissions(p.fetcher.logs, p.fetcher.range.last)))
  {
    s := Go(w, low, p, FetcherStep);
    s := Go(w, low, s, FetcherStep);
    s := Go(w, low, s, FetcherStep);
    s := Go(w, low, s, FetcherWrite(true, true));
  }

  /** The database after block k is fetched by a process with this cursor in memory. */
  function FetchedDb(w: World, db: Db, mem: Cursor, k: nat): Db {
    var saved := db.(logs := db.logs + AsSet(At(w, k)));
    var c := mem.(fetched := k);
    if k < mem.fetched then saved else WriteRow(saved, c).(sent := db.sent + {c})
  }

  /** One scheduled block is fetched and saved. */
  lemma SavedBlock(w: World, low: nat, p: State, k: nat) returns (s: State)
    requires ValidWorld(w) && ReachableAlone(w, low, p) && !p.cancelled && p.fetcher == FetcherIdle
    requires p.pending == [Range(k, k)] && p.ranges == []
    ensures ReachableAlone(w, low, s)
    ensures s == p.(pending := [], fetcher := Saved(Range(k, k), At(w, k)),
                    db := p.db.(logs := p.db.logs + AsSet(At(w, k))))
  {
    OneBlock(w, k);
    s := Go(w, low, p, PushRange);
    s := Go(w, low, s, TakeRange);
    s := Go(w, low, s, SaveLogs(true));
  }

  /** ... and then recorded and submitted. */
  lemma FetchedBlock(w: World, low: nat, p: State, k: nat) returns (s: State)
    requires ValidWorld(w) && ReachableAlone(w, low, p) && !p.cancelled && p.fetcher == FetcherIdle
    requires p.pending == [Range(k, k)] && p.ranges == []
    ensures ReachableAlone(w, low, s)
    ensures s == p.(pending := [], batches := p.batches + [Batch(k, At(w, k))],
                    mem := if k < p.mem.fetched then p.mem else p.mem.(fetched := k),
                    db := FetchedDb(w, p.db, p.mem, k))
  {
    OneBlock(w, k);
    s := SavedBlock(w, low, p, k);
    s := Go(w, low, s, RecordFetched);
    if k >= p.mem.fetched { s := WriteRecorded(w, low, s); }
    s := Go(w, low, s, PushBatch);
  }

  /** The logs fetcher can write the cursor of its first range before anything is processed: the row
      then stands one block before the start block, and no block has a timestamp. */
  lemma BlindSpotIsReachable(w: World) returns (s: State)
    requires ValidWorld(w) && w.Cfg().confirmations + w.Start() < MAX_UINT32
    ensures ReachableAlone(w, 0, s) && !s.cancelled && s.db.attempted == {}
    ensures s.db.row == Some(Cursor(w.Start(), w.Start() - 1)) && s.db.times == {}
  {
    s := FirstFetched(w, 0);
  }

  /** The start block is fetched and submitted, and nothing is processed. */
  lemma FirstFetched(w: World, low: nat) returns (s: State)
    requires ValidWorld(w) && low <= w.Cfg().confirmations + w.Start() < MAX_UINT32
    ensures ReachableAlone(w, low, s) && s.processor == ProcessorIdle && !s.cancelled
    ensures s.mem == Cursor(w.Start(), w.Start() - 1)
    ensures s.db == FetchedDb(w, EMPTY_DB, Cursor(w.Start() - 1, w.Start() - 1), w.Start())
    ensures s.batches == [Batch(w.Start() - 1, []), Batch(w.Start(), At(w, w.Start()))]
    ensures s.fetcher == FetcherIdle && s.pending == [] && s.ranges == [] && s.start == w.Start() + 1
  {
    s := Started(w, low);
    s := PolledOne(w, low, s, w.Start());
    s := FetchedBlock(w, low, s, w.Start());
  }

  /** On a cancelled context a batch is taken, given up and recorded in memory only. */
  lemma GivenUp(w: World, low: nat, p: State) returns (s: State)
    requires w.Start() >= 1 && w.Cfg().maxRange >= 1 && ReachableAlone(w, low, p) && p.cancelled
    requires p.processor == ProcessorIdle && p.batches != [] && p.mem.processed <= p.batches[0].block
    ensures ReachableAlone(w, low, s)
    ensures s == p.(batches := p.batches[1..], mem := p.mem.(processed := p.batches[0].block))
  {
    s := Go(w, low, p, TakeBatch);
    s := Go(w, low, s, Abandon);
    s := WriteRefused(w, low, s);
  }

  /** A cursor that is not sent, because the context is cancelled. */
  lemma WriteRefused(w: World, low: nat, p: State) returns (s: State)
    requires w.Start() >= 1 && w.Cfg().maxRange >= 1 && ReachableAlone(w, low, p) && p.cancelled
    requires p.processor.RecordingProcessed? && p.processor.write == ReadFetched
    ensures ReachableAlone(w, low, s) && s == p.(processor := ProcessorIdle)
  {
    s := Go(w, low, p, ProcessorStep);
    s := Go(w, low, s, ProcessorStep);
    s := Go(w, low, s, ProcessorWrite(false, false));
  }

  /** The blocks from the start block to block k, queued one by one. */
  function QueuedTo(w: World, k: nat): seq<Batch>
    requires w.Start() >= 1
  {
    if k < w.Start() then [Batch(w.Start() - 1, [])] else QueuedTo(w, k - 1) + [Batch(k, At(w, k))]
  }

  /** Every block up to k is fetched and submitted, and nothing is processed. */
  ghost predicate AllQueued(w: World, s: State, k: nat)
    requires w.Start() >= 1
  {
    && s.processor == ProcessorIdle && s.fetcher == FetcherIdle && !s.cancelled
    && s.pending == [] && s.ranges == [] && s.batches == QueuedTo(w, k) && s.start == k + 1
    && s.mem == Cursor(k, w.Start() - 1) && s.db.handled == []
  }

  lemma NothingFetched(w: World, low: nat) returns (s: State)
    requires ValidWorld(w)
    ensures ReachableAlone(w, low, s) && AllQueued(w, s, w.Start() - 1)
  {
    s := Started(w, low);
  }

  lemma {:induction false} FetchedTo(w: World, low: nat, k: nat) returns (s: State)
    requires ValidWorld(w) && w.Start() <= k + 1
    requires low <= w.Cfg().confirmations + w.Start() && w.Cfg().confirmations + k < MAX_UINT32
    ensures ReachableAlone(w, low, s) && AllQueued(w, s, k)
  {
    if k < w.Start() {
      s := NothingFetched(w, low);
    } else {
      var p := FetchedTo(w, low, k - 1);
      s := OneMoreFetched(w, low, p, k);
    }
  }

  lemma OneMoreFetched(w: World, low: nat, p: State, k: nat) returns (s: State)
    requires ValidWorld(w) && ReachableAlone(w, low, p) && !p.cancelled && w.Start() <= k
    requires low <= w.Cfg().confirmations + k < MAX_UINT32 && p.start == k && p.mem == Cursor(k - 1, w.Start() - 1)
    requires p.pending == [] && p.ranges == [] && p.fetcher == FetcherIdle
    ensures ReachableAlone(w, low, s)
    ensures s == p.(head := s.head, start := k + 1, batches := p.batches + [Batch(k, At(w, k))],
                    mem := Cursor(k, w.Start() - 1), db := s.db)
    ensures s.db.handled == p.db.handled
  {
    s := PolledOne(w, low, p, k);
    s := FetchedBlock(w, low, s, k);
  }

  lemma {:induction false} QueueEnds(w: World, k: nat)
    requires 1 <= w.Start() <= k + 1
    ensures Ascending(QueuedTo(w, k)) && QueuedTo(w, k) != []
    ensures QueuedTo(w, k)[0].block == w.Start() - 1 && QueuedTo(w, k)[|QueuedTo(w, k)| - 1].block == k
  {
    if k >= w.Start() { QueueEnds(w, k - 1); }
  }

  /** On a cancelled context the whole queue is given up, batch after batch. */
  lemma {:induction false} AllGivenUp(w: World, low: nat, p: State) returns (s: State)
    requires w.Start() >= 1 && w.Cfg().maxRange >= 1 && ReachableAlone(w, low, p) && p.cancelled
    requires p.processor == ProcessorIdle && Ascending(p.batches) && p.batches != []
    requires p.mem.processed <= p.batches[0].block
    ensures ReachableAlone(w, low, s)
    ensures s == p.(batches := [], mem := p.mem.(processed := p.batches[|p.batches| - 1].block))
    decreases |p.batches|
  {
    s := GivenUp(w, low, p);
    if |p.batches| > 1 {
      AscendingRest(p.batches);
      s := AllGivenUp(w, low, s);
    }
  }

  /** Cancelled before its first batch, a process records in memory blocks it has not handled: whatever
      the log, it can come to stand behind it. */
  lemma MemoryRunsAhead(w: World, l: Log) returns (s: State)
    requires ValidWorld(w) && OnChain(w, l) && w.Start() <= l.block && w.Cfg().confirmations + l.block < MAX_UINT32
    ensures ReachableAlone(w, 0, s) && s.cancelled
    ensures l.block <= s.mem.processed && l !in s.db.handled && !SafeCursor(w, s.db, s.mem)
  {
    s := FetchedTo(w, 0, l.block);
    QueueEnds(w, l.block);
    s := Go(w, 0, s, Cancel);
    s := AllGivenUp(w, 0, s);
  }

  /** The database after a process with this cursor in memory has processed a batch of block k. */
  function ProcessedDb(db: Db, mem: Cursor, k: nat): Db {
    var c := mem.(processed := k);
    WriteRow(db.(times := db.times + {k}), c).(sent := db.sent + {c})
  }

  /** A batch at or above the cursor whose logs are all handled is finished and recorded. */
  lemma Recorded(w: World, low: nat, p: State) returns (s: State)
    requires w.Start() >= 1 && w.Cfg().maxRange >= 1 && ReachableAlone(w, low, p) && !p.cancelled
    requires p.processor.Working? && p.processor.next == |p.processor.batch.logs|
    requires p.mem.processed <= p.processor.batch.block
    ensures ReachableAlone(w, low, s)
    ensures s == p.(processor := ProcessorIdle, mem := p.mem.(processed := p.processor.batch.block),
                    db := ProcessedDb(p.db, p.mem, p.processor.batch.block))
  {
    s := Go(w, low, p, SaveTime);
    s := Go(w, low, s, RecordProcessed);
    s := WriteSent(w, low, s);
  }

  /** The whole write of a processed block, undisturbed. */
  lemma WriteSent(w: World, low: nat, p: State) returns (s: State)
    requires w.Start() >= 1 && w.Cfg().maxRange >= 1 && ReachableAlone(w, low, p) && !p.cancelled
    requires p.processor.RecordingProcessed? && p.processor.write == ReadFetched
    ensures ReachableAlone(w, low, s)
    ensures s == p.(processor := ProcessorIdle, db := WriteRow(p.db, p.mem).(sent := p.db.sent + {p.mem}))
  {
    s := Go(w, low, p, ProcessorStep);
    s := Go(w, low, s, ProcessorStep);
    s := Go(w, low, s, ProcessorStep);
    s := Go(w, low, s, ProcessorWrite(true, true));
  }

  /** The batch at the head of the channel is empty and at the cursor: it is processed. */
  lemma EmptyProcessed(w: World, low: nat, p: State) returns (s: State)
    requires w.Start() >= 1 && w.Cfg().maxRange >= 1 && ReachableAlone(w, low, p) && !p.cancelled
    requires p.processor == ProcessorIdle && p.batches != [] && p.batches[0] == Batch(p.mem.processed, [])
    ensures ReachableAlone(w, low, s)
    ensures s == p.(batches := p.batches[1..], db := ProcessedDb(p.db, p.mem, p.mem.processed))
  {
    s := Go(w, low, p, TakeBatch);
    s := Recorded(w, low, s);
  }
}
