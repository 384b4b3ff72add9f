/** The contract monitor as it runs (monitor/contract_monitor.go): the methods of its goroutines,
    each shown to be made of steps of the pipeline. */
module ContractMonitors {
  import opened Entities
  import opened Sequences
  import opened BlockRanges
  import opened Chains
  import opened Fetching
  import opened LogsTable
  import opened Handlers
  import opened EventHandlers
  import opened Queues
  import opened Pipeline
  import opened PipelineInvariant
  import opened PipelineSteps
  import opened PipelineRuns
  import opened Storage

  const SYNCED_THRESHOLD: nat := 10

  class ContractMonitor {
    const w: World
    const db: Database
    var logsCursor: Cursor
    var blocksRangeChan: seq<Range>
    var logsChan: seq<Batch>
    var headBlock: nat
    var isSynced: bool
    var start: nat          // the next block of the block fetcher
    var cancelled: bool     // the state of the context
    // Where the goroutines are.
    ghost var pending: seq<Range>
    ghost var fetcher: Fetcher
    ghost var processor: Processor

    ghost function View(): State
      reads this, db, db.logs
    {
      State(db.View(), logsCursor, headBlock, start, pending, blocksRangeChan, logsChan, fetcher, processor, cancelled)
    }

    ghost predicate Wired()
      reads this, db, db.logs, db.handler
    {
      w.Start() >= 1 && w.Cfg().maxRange >= 1 && db.Valid(w)
    }

    /** The invariant of the pipeline. Every method below takes steps of the pipeline only, and so
        keeps it. */
    ghost predicate Valid()
      reads this, db, db.logs, db.handler
    {
      Wired() && ValidWorld(w) && Inv(w, View())
    }

    /** NewContractMonitor and Start, on whatever database an earlier process left. */
    constructor (w: World, db: Database)
      requires w.Start() >= 1 && w.Cfg().maxRange >= 1 && db.Valid(w)
      ensures Wired() && this.w == w && this.db == db
      ensures View() == Boot(w, db.View())
    {
      this.w, this.db := w, db;
      var c := if db.cursor.Some? then db.cursor.value else Cursor(w.Start() - 1, w.Start() - 1);
      logsCursor := c;
      blocksRangeChan, logsChan := [], [];
      headBlock, isSynced := 0, false;
      start := c.fetched + 1;
      cancelled := false;
      pending, fetcher, processor := [], Loading(Range(c.processed + 1, c.fetched)), ProcessorIdle;
    }

    static method Start(w: World, db: Database) returns (m: ContractMonitor)
      requires ValidWorld(w) && db.Valid(w) && DbOk(w, db.View())
      ensures fresh(m) && m.Valid() && m.w == w && m.db == db && m.View() == Boot(w, db.View())
    {
      BootOk(w, db.View());
      m := new ContractMonitor(w, db);
    }

    /** Every log of the batch is handled and its block has a timestamp. */
    ghost predicate BatchHandled(b: Batch)
      reads db`handled, db`times
    {
      AllIn(b.logs, db.handled) && b.block in db.times
    }

    /** The cursor in memory is at or above the block, and so is the row, unless the cursor was above
        it before. */
    predicate Covered(blockNumber: nat, before: nat)
      reads this`logsCursor, db`cursor
    {
      blockNumber <= logsCursor.processed && (blockNumber < before || db.cursor == Some(logsCursor))
    }

    method RecordIsSynced()
      modifies this`isSynced
      ensures isSynced <==> logsCursor.processed + SYNCED_THRESHOLD > headBlock
    {
      isSynced := logsCursor.processed + SYNCED_THRESHOLD > headBlock;
    }

    method RecordHeadBlockNumber(blockNumber: nat)
      modifies this`headBlock, this`isSynced
      ensures headBlock == Max(old(headBlock), blockNumber)
      ensures blockNumber >= old(headBlock) ==> (isSynced <==> logsCursor.processed + SYNCED_THRESHOLD > headBlock)
    {
      if blockNumber < headBlock { return; }
      headBlock := blockNumber;
      RecordIsSynced();
    }

    // ---------- Block fetcher ----------

    /** One round of StartBlockFetcher: the node answers its head block or fails. All new blocks below
        the confirmed head are scheduled in chunks; the next round starts right above that head,
        which may be below where this one started. */
    method PollHead(answer: Option<nat>)
      requires Valid() && pending == [] && start <= MAX_UINT32 && w.Cfg().maxRange < MAX_UINT32
      requires answer.Some? ==> w.Cfg().confirmations <= answer.value < MAX_UINT32
      modifies this`headBlock, this`isSynced, this`start, this`blocksRangeChan, this`pending
      ensures Valid() && Reaches(w, old(View()), View())
      ensures View() == if answer.Some? then Scheduled(w, old(View()), answer.value) else old(View())
    {
      ghost var before := View();
      Stay(w, before);
      if answer.Some? { Schedule(answer.value); }
      StaysInv(w, before, View());
    }

    method Schedule(answer: nat)
      requires Wired() && w.Cfg().maxRange < MAX_UINT32 && pending == [] && start <= MAX_UINT32
      requires w.Cfg().confirmations <= answer < MAX_UINT32
      modifies this`headBlock, this`isSynced, this`start, this`blocksRangeChan, this`pending
      ensures View() == Scheduled(w, old(View()), answer)
      ensures Wired() && Reaches(w, old(View()), View())
    {
      ghost var before := View();
      Stay(w, before);
      var head := answer - w.Cfg().confirmations;
      RecordHeadBlockNumber(head);
      var batches := SplitBlockRange(start, head, w.Cfg().maxRange);
      start := head + 1;
      pending := batches;
      Then(w, before, before, Poll(answer), View());
      PushRanges(batches, before);
    }

    method PushRanges(batches: seq<Range>, ghost before: State)
      requires w.Start() >= 1 && w.Cfg().maxRange >= 1
      requires pending == batches && Reaches(w, before, View())
      modifies this`blocksRangeChan, this`pending
      ensures pending == [] && blocksRangeChan == old(blocksRangeChan) + batches
      ensures Reaches(w, before, View())
    {
      for i := 0 to |batches|
        invariant pending == batches[i..] && blocksRangeChan == old(blocksRangeChan) + batches[..i]
        invariant Reaches(w, before, View())
      {
        ghost var s := View();
        PrefixStep(old(blocksRangeChan), batches, i);
        blocksRangeChan := blocksRangeChan + [batches[i]];
        pending := pending[1..];
        Then(w, before, s, PushRange, View());
      }
      assert batches[..|batches|] == batches;
    }

    // ---------- Logs fetcher ----------

    /** recordFetchedBlockNumber for the range just saved. */
    method RecordFetchedBlockNumber(blockNumber: nat) returns (ok: bool)
      requires Wired() && fetcher.Saved? && fetcher.range.last == blockNumber
      modifies this`logsCursor, this`fetcher, db`cursor, db`written, db`sent
      ensures Wired() && Reaches(w, old(View()), View())
      ensures blockNumber < old(logsCursor).fetched ==>
          ok && logsCursor == old(logsCursor) && db.cursor == old(db.cursor)
      ensures blockNumber >= old(logsCursor).fetched ==> logsCursor == old(logsCursor).(fetched := blockNumber)
      ensures ok && blockNumber >= old(logsCursor).fetched ==> db.cursor == Some(logsCursor)
      ensures !ok ==> db.cursor == old(db.cursor) || db.cursor == Some(logsCursor)
      ensures fetcher == if ok then Submitting(Submissions(old(fetcher).logs, blockNumber))
                         else Fetching(old(fetcher).range)
    {
      ghost var before := View();
      ghost var r, logs := fetcher.range, fetcher.logs;
      Stay(w, before);
      if blockNumber < logsCursor.fetched {
        fetcher := Submitting(Submissions(logs, r.last));
        Then(w, before, before, RecordFetched, View());
        return true;
      }
      logsCursor := logsCursor.(fetched := blockNumber);
      fetcher := RecordingFetched(r, logs, ReadFetched);
      Then(w, before, before, RecordFetched, View());
      ok := WriteFetched(before);
    }

    /** The cursor statement of the logs fetcher. */
    method WriteFetched(ghost before: State) returns (ok: bool)
      requires Wired() && Reaches(w, before, View())
      requires fetcher.RecordingFetched? && fetcher.write == ReadFetched
      modifies this`fetcher, db`cursor, db`written, db`sent
      ensures Wired() && Reaches(w, before, View())
      ensures ok ==> db.cursor == Some(logsCursor)
      ensures !ok ==> db.cursor == old(db.cursor) || db.cursor == Some(logsCursor)
      ensures fetcher == if ok then Submitting(Submissions(old(fetcher).logs, old(fetcher).range.last))
                         else Fetching(old(fetcher).range)
    {
      ghost var r, logs := fetcher.range, fetcher.logs;
      FetcherSends(w, before, View());
      if !cancelled { db.sent := db.sent + {logsCursor}; }
      fetcher := RecordingFetched(r, logs, if cancelled then Snapshot(logsCursor) else InFlight(logsCursor));
      ghost var s := View();
      ghost var applied;
      ok, applied := db.EnsureCursor(logsCursor, cancelled);
      fetcher := if ok then Submitting(Submissions(logs, r.last)) else Fetching(r);
      Then(w, before, s, FetcherWrite(applied, ok), View());
    }

    /** submitLogs: the batches of the logs, then an empty batch for the end of the range unless the
        last batch is already there. */
    method SubmitLogs(logs: seq<Log>, endBlock: nat, ghost before: State)
      requires w.Start() >= 1 && w.Cfg().maxRange >= 1 && Reaches(w, before, View())
      requires forall l :: l in logs ==> l.block < MAX_UINT32
      requires fetcher == Submitting(Submissions(logs, endBlock))
      modifies this`logsChan, this`fetcher
      ensures logsChan == old(logsChan) + Submissions(logs, endBlock) && fetcher == FetcherIdle
      ensures Reaches(w, before, View())
    {
      var logBatches := BatchesOf(logs);
      ghost var all := Submissions(logs, endBlock);
      SubmissionsAre(logs, endBlock, logBatches);
      PushAll(logBatches, all, before);
      if |logBatches| == 0 || logBatches[|logBatches| - 1].block < endBlock {
        PushOne(Batch(endBlock, []), |logBatches|, all, old(logsChan), before);
      }
      assert all[..|all|] == all;
    }

    method PushAll(logBatches: seq<Batch>, ghost all: seq<Batch>, ghost before: State)
      requires w.Start() >= 1 && w.Cfg().maxRange >= 1 && Reaches(w, before, View())
      requires fetcher == Submitting(all) && all != [] && logBatches <= all
      modifies this`logsChan, this`fetcher
      ensures fetcher == if all[|logBatches|..] == [] then FetcherIdle else Submitting(all[|logBatches|..])
      ensures logsChan == old(logsChan) + all[..|logBatches|]
      ensures Reaches(w, before, View())
    {
      assert all[0..] == all;
      for i := 0 to |logBatches|
        invariant fetcher == if all[i..] == [] then FetcherIdle else Submitting(all[i..])
        invariant logsChan == old(logsChan) + all[..i]
        invariant Reaches(w, before, View())
      {
        PushOne(logBatches[i], i, all, old(logsChan), before);
      }
    }

    /** logsChan <- batch */
    method PushOne(b: Batch, ghost i: nat, ghost all: seq<Batch>, ghost first: seq<Batch>, ghost before: State)
      requires w.Start() >= 1 && w.Cfg().maxRange >= 1 && Reaches(w, before, View())
      requires i < |all| && all[i] == b && fetcher == Submitting(all[i..]) && logsChan == first + all[..i]
      modifies this`logsChan, this`fetcher
      ensures fetcher == if all[i + 1..] == [] then FetcherIdle else Submitting(all[i + 1..])
      ensures logsChan == first + all[..i + 1]
      ensures Reaches(w, before, View())
    {
      ghost var s := View();
      PrefixStep(first, all, i);
      logsChan := logsChan + [b];
      fetcher := if all[i + 1..] == [] then FetcherIdle else Submitting(all[i + 1..]);
      Then(w, before, s, PushBatch, View());
    }

    /** The logs of a range are saved, or nothing is known about them and the range starts over. */
    method SaveFetched(r: Range, logs: seq<Log>, ghost before: State) returns (ok: bool)
      requires ValidWorld(w) && db.Valid(w) && UniqueRefs(db.logs.Logs() + AsSet(logs))
      requires Reaches(w, before, View()) && fetcher == Fetching(r) && !cancelled && logs == RangeLogs(w, r)
      modifies this`fetcher, db.logs
      ensures db.Valid(w) && Reaches(w, before, View())
      ensures fetcher == if ok then Saved(r, logs) else Fetching(r)
    {
      ghost var s := View();
      if |logs| == 0 {
        fetcher := Saved(r, logs);
        assert s.db.logs + AsSet(logs) == s.db.logs;
        SavedStep(w, before, s, r, true, View());
        return true;
      }
      RangeDistinct(w, r);
      ghost var applied;
      ok, applied := db.SaveLogs(w, r, logs, cancelled);
      if ok { fetcher := Saved(r, logs); }
      if applied { SavedStep(w, before, s, r, ok, View()); }
    }

    /** One attempt to fetch a range: ask, save, move the cursor, submit. Whatever fails, the attempt
        fails, and nothing of the range is submitted. */
    method TryToFetchLogs(r: Range, node: Query -> Option<seq<Log>>) returns (ok: bool)
      requires Valid() && fetcher == Fetching(r) && r.last < MAX_UINT32
      requires forall q :: node(q).Some? ==> Fetching.Complete(w, q, node(q).value)
      modifies this`logsCursor, this`fetcher, this`logsChan, db.logs, db`cursor, db`written, db`sent
      ensures Valid() && Reaches(w, old(View()), View())
      ensures ok ==>
        && fetcher == FetcherIdle && r.last <= logsCursor.fetched
        && logsChan == old(logsChan) + Submissions(RangeLogs(w, r), r.last)
      ensures !ok ==> fetcher == Fetching(r) && logsChan == old(logsChan)
    {
      ghost var before := View();
      var logs := AskAndSave(r, node);
      if logs.None? { return false; }
      ghost var saved := View();
      BelowSentinel(w, r);
      ok := RecordAndSubmit(r, logs.value);
      Onward(w, before, saved, View());
      StaysInv(w, before, View());
    }

    method AskAndSave(r: Range, node: Query -> Option<seq<Log>>) returns (logs: Option<seq<Log>>)
      requires Valid() && fetcher == Fetching(r)
      requires forall q :: node(q).Some? ==> Fetching.Complete(w, q, node(q).value)
      modifies this`fetcher, db.logs
      ensures Valid() && Reaches(w, old(View()), View())
      ensures logs.Some? ==> logs.value == RangeLogs(w, r) && fetcher == Saved(r, logs.value)
      ensures logs.None? ==> fetcher == Fetching(r)
    {
      ghost var before := View();
      Stay(w, before);
      logs := TryToFetch(w, r, node);
      if logs.None? || cancelled { return None; }
      RangeMembers(w, r);
      LogsGrow(w, db.logs.Logs(), AsSet(logs.value));
      var ok := SaveFetched(r, logs.value, before);
      StaysInv(w, before, View());
      if !ok { logs := None; }
    }

    method RecordAndSubmit(r: Range, logs: seq<Log>) returns (ok: bool)
      requires Wired() && fetcher == Saved(r, logs) && logs == RangeLogs(w, r)
      requires forall l :: l in logs ==> l.block < MAX_UINT32
      modifies this`logsCursor, this`fetcher, this`logsChan, db`cursor, db`written, db`sent
      ensures Wired() && Reaches(w, old(View()), View())
      ensures ok ==>
        && fetcher == FetcherIdle && r.last <= logsCursor.fetched
        && logsChan == old(logsChan) + Submissions(RangeLogs(w, r), r.last)
      ensures !ok ==> fetcher == Fetching(r) && logsChan == old(logsChan)
    {
      ghost var before := View();
      ok := RecordFetchedBlockNumber(r.last);
      if ok { SubmitLogs(logs, r.last, before); }
    }

    /** StartLogsFetcher for one range: attempts follow one another, each with what the node then
        answers, until one succeeds or the context is cancelled. */
    method FetchRange(r: Range, nodes: seq<Query -> Option<seq<Log>>>) returns (ok: bool)
      requires Valid() && fetcher == Fetching(r) && r.last < MAX_UINT32
      requires forall i, q :: 0 <= i < |nodes| && nodes[i](q).Some? ==> Fetching.Complete(w, q, nodes[i](q).value)
      modifies this`logsCursor, this`fetcher, this`logsChan, db.logs, db`cursor, db`written, db`sent
      ensures Valid() && Reaches(w, old(View()), View())
      ensures logsChan == old(logsChan) + if ok then Submissions(RangeLogs(w, r), r.last) else []
      ensures ok ==> fetcher == FetcherIdle && r.last <= logsCursor.fetched
      ensures !ok ==> fetcher == Fetching(r)
    {
      ghost var before := View();
      Stay(w, before);
      for i := 0 to |nodes|
        invariant Valid() && fetcher == Fetching(r) && logsChan == old(logsChan)
        invariant Reaches(w, before, View())
      {
        ghost var s := View();
        ok := TryToFetchLogs(r, nodes[i]);
        Onward(w, before, s, View());
        if ok { return; }
      }
      ok := false;
    }

    /** LoadUnprocessedLogs: the query is repeated until it succeeds or the context is cancelled. What
        is submitted is what fetching the range again would submit. */
    method LoadUnprocessedLogs(r: Range, attempts: nat) returns (ok: bool)
      requires Valid() && fetcher == Loading(r) && r.last < MAX_UINT32
      modifies this`fetcher, this`logsChan
      ensures Valid() && Reaches(w, old(View()), View())
      ensures logsChan == old(logsChan) + if ok then Submissions(RangeLogs(w, r), r.last) else []
      ensures fetcher == if ok then FetcherIdle else Loading(r)
    {
      ghost var before := View();
      Stay(w, before);
      for i := 0 to attempts
        invariant View() == before
      {
        var available: bool := *;
        if available && !cancelled {
          var logs := db.logs.FindLogs(UnprocessedFilter(w, r));
          RecoveryEnabled(w, before, r, logs);
          SubmitSaved(r, logs, before);
          StaysInv(w, before, View());
          return true;
        }
      }
      ok := false;
    }

    method SubmitSaved(r: Range, logs: seq<Log>, ghost before: State)
      requires ValidWorld(w) && before == View() && Enabled(w, before, LoadSaved(logs)) && Reaches(w, before, before)
      requires fetcher == Loading(r) && r.last < MAX_UINT32 && logs == RangeLogs(w, r)
      modifies this`fetcher, this`logsChan
      ensures Reaches(w, before, View())
      ensures logsChan == old(logsChan) + Submissions(RangeLogs(w, r), r.last) && fetcher == FetcherIdle
    {
      BelowSentinel(w, r);
      fetcher := Submitting(Submissions(logs, r.last));
      Then(w, before, before, LoadSaved(logs), View());
      SubmitLogs(logs, r.last, before);
    }

    /** StartLogsFetcher: the next range is taken from the channel and fetched. */
    method FetchNextRange(nodes: seq<Query -> Option<seq<Log>>>) returns (ok: bool)
      requires Valid() && fetcher.FetcherIdle? && blocksRangeChan != [] && blocksRangeChan[0].last < MAX_UINT32
      requires forall i, q :: 0 <= i < |nodes| && nodes[i](q).Some? ==> Fetching.Complete(w, q, nodes[i](q).value)
      modifies this`blocksRangeChan, this`logsCursor, this`fetcher, this`logsChan, db.logs, db`cursor
      modifies db`written, db`sent
      ensures Valid() && Reaches(w, old(View()), View())
      ensures blocksRangeChan == old(blocksRangeChan)[1..]
      ensures logsChan == old(logsChan) +
        if ok then Submissions(RangeLogs(w, old(blocksRangeChan)[0]), old(blocksRangeChan)[0].last) else []
    {
      ghost var before := View();
      Stay(w, before);
      var r := blocksRangeChan[0];
      blocksRangeChan := blocksRangeChan[1..];
      fetcher := Fetching(r);
      ghost var taken := View();
      Then(w, before, before, TakeRange, taken);
      StaysInv(w, before, taken);
      ok := FetchRange(r, nodes);
      Onward(w, before, taken, View());
    }

    // ---------- Logs processor ----------

    /** One attempt to have the timestamp of the block of the batch at hand. */
    method TryToGetBlockTimestamp(blockNumber: nat) returns (ok: bool)
      requires Wired() && processor.Working? && processor.batch.block == blockNumber
      modifies this`processor, db`times
      ensures Wired() && Reaches(w, old(View()), View())
      ensures processor.Working? && processor == old(processor).(timed := processor.timed)
      ensures ok ==> processor.timed && blockNumber in db.times
      ensures old(processor).timed ==> processor.timed
    {
      ghost var before := View();
      Stay(w, before);
      ghost var applied;
      ok, applied := db.EnsureTime(blockNumber, cancelled);
      if applied {
        processor := processor.(timed := true);
        Then(w, before, before, SaveTime, View());
      }
    }

    /** One attempt to handle all logs of a batch, in order. A failure, as of a log that cannot be
        parsed, starts the batch over. */
    method TryToProcessLogsBatch(batch: Batch, ghost timed: bool) returns (outcome: Outcome)
      requires Wired() && processor == Working(batch, 0, timed)
      modifies this`processor, db`handled, db`attempted, db`upserts, db`steps, db.handler, db.handler.validators
      ensures Wired() && Reaches(w, old(View()), View())
      ensures outcome.Done? ==> processor == Working(batch, |batch.logs|, timed) && AllIn(batch.logs, db.handled)
      ensures outcome.Failed? ==> processor == Working(batch, 0, timed)
      ensures outcome.Panicked? ==> processor.Working? && processor.batch == batch
    {
      ghost var before := View();
      Stay(w, before);
      if cancelled && |batch.logs| > 0 { return Failed; } // no statement gets through
      outcome := HandleAll(batch, timed, before);
    }

    method HandleAll(batch: Batch, ghost timed: bool, ghost before: State) returns (outcome: Outcome)
      requires Wired() && Reaches(w, before, View())
      requires processor == Working(batch, 0, timed) && (cancelled ==> batch.logs == [])
      modifies this`processor, db`handled, db`attempted, db`upserts, db`steps, db.handler, db.handler.validators
      ensures Wired() && Reaches(w, before, View())
      ensures outcome.Done? ==> processor == Working(batch, |batch.logs|, timed) && AllIn(batch.logs, db.handled)
      ensures outcome.Failed? ==> processor == Working(batch, 0, timed)
      ensures outcome.Panicked? ==> processor.Working? && processor.batch == batch
    {
      for i := 0 to |batch.logs|
        invariant Wired() && processor == Working(batch, i, timed) && Reaches(w, before, View())
        invariant FirstIn(batch.logs, i, db.handled)
      {
        outcome := HandleNext(batch, i, timed, before);
        if !outcome.Done? { return; }
      }
      outcome := Done;
    }

    method HandleNext(batch: Batch, i: nat, ghost timed: bool, ghost before: State) returns (outcome: Outcome)
      requires Wired() && Reaches(w, before, View())
      requires i < |batch.logs| && processor == Working(batch, i, timed) && !cancelled
      modifies this`processor, db`handled, db`attempted, db`upserts, db`steps, db.handler, db.handler.validators
      ensures Wired() && Reaches(w, before, View())
      ensures outcome.Done? && FirstIn(batch.logs, i, old(db.handled)) ==> FirstIn(batch.logs, i + 1, db.handled)
      ensures processor == Working(batch, match outcome case Done => i + 1 case Failed => 0 case Panicked => i, timed)
    {
      ghost var s := View();
      db.logs.Unique();
      ghost var n, stepped;
      outcome, n, stepped := db.HandleLog(w, batch.logs[i]);
      if outcome.Done? {
        FirstInMore(batch.logs, i, s.db.handled);
        processor := Working(batch, i + 1, timed);
      } else if outcome.Failed? {
        processor := Working(batch, 0, timed);
      }
      if !outcome.Panicked? { CallReaches(w, before, s, outcome, n, stepped, View()); }
    }

    /** recordProcessedBlockNumber for the batch at hand. */
    method RecordProcessedBlockNumber(blockNumber: nat) returns (ok: bool)
      requires Wired() && processor.Working? && processor.batch.block == blockNumber
      requires cancelled || (processor.next == |processor.batch.logs| && processor.timed)
      modifies this`logsCursor, this`isSynced, this`processor, db`cursor, db`written, db`sent
      ensures Wired() && Reaches(w, old(View()), View())
      ensures blockNumber < old(logsCursor).processed ==>
          ok && logsCursor == old(logsCursor) && db.cursor == old(db.cursor)
      ensures blockNumber >= old(logsCursor).processed ==>
        logsCursor == old(logsCursor).(processed := blockNumber)
        && (isSynced <==> blockNumber + SYNCED_THRESHOLD > headBlock)
      ensures ok && blockNumber >= old(logsCursor).processed ==> db.cursor == Some(logsCursor)
      ensures cancelled ==> db.cursor == old(db.cursor)
      ensures !ok ==> db.cursor == old(db.cursor) || db.cursor == Some(logsCursor)
      ensures processor == if ok || cancelled then ProcessorIdle else RecordingProcessed(blockNumber, ReadFetched)
    {
      ghost var before := View();
      Stay(w, before);
      RecordsProcessed(w, before);
      if blockNumber < logsCursor.processed {
        processor := ProcessorIdle;
        return true;
      }
      logsCursor := logsCursor.(processed := blockNumber);
      RecordIsSynced();
      processor := RecordingProcessed(blockNumber, ReadFetched);
      ok := WriteProcessed(before);
    }

    /** The cursor statement of the logs processor. */
    method WriteProcessed(ghost before: State) returns (ok: bool)
      requires Wired() && Reaches(w, before, View())
      requires processor.RecordingProcessed? && processor.write == ReadFetched
      modifies this`processor, db`cursor, db`written, db`sent
      ensures Wired() && Reaches(w, before, View())
      ensures ok ==> db.cursor == Some(logsCursor)
      ensures !ok ==> db.cursor == old(db.cursor) || db.cursor == Some(logsCursor)
      ensures cancelled ==> !ok && db.cursor == old(db.cursor)
      ensures processor == if ok || cancelled then ProcessorIdle else old(processor)
    {
      ghost var block := processor.block;
      ProcessorSends(w, before, View());
      if !cancelled { db.sent := db.sent + {logsCursor}; }
      processor := RecordingProcessed(block, if cancelled then Snapshot(logsCursor) else InFlight(logsCursor));
      ghost var s := View();
      ghost var applied;
      ok, applied := db.EnsureCursor(logsCursor, cancelled);
      processor := if ok || cancelled then ProcessorIdle else RecordingProcessed(block, ReadFetched);
      Then(w, before, s, ProcessorWrite(applied, ok), View());
    }

    /** The context is cancelled; whatever is being retried is given up. */
    method GiveUp()
      requires Wired()
      modifies this`cancelled
      ensures Wired() && Reaches(w, old(View()), View()) && cancelled
    {
      ghost var before := View();
      Stay(w, before);
      cancelled := true;
      Then(w, before, before, Cancel, View());
    }

    /** The timestamp is asked for again and again, until the context is cancelled. */
    method GetBlockTimestamp(blockNumber: nat, attempts: nat, ghost before: State)
      requires Wired() && Reaches(w, before, View())
      requires processor.Working? && processor.batch.block == blockNumber
      modifies this`processor, this`cancelled, db`times
      ensures Wired() && Reaches(w, before, View())
      ensures processor.Working? && processor == old(processor).(timed := processor.timed)
      ensures cancelled || (processor.timed && blockNumber in db.times)
      ensures old(cancelled) ==> cancelled
    {
      for i := 0 to attempts
        invariant Wired() && Reaches(w, before, View()) && cancelled == old(cancelled)
        invariant processor.Working? && processor == old(processor).(timed := processor.timed)
      {
        ghost var s := View();
        var ok := TryToGetBlockTimestamp(blockNumber);
        Onward(w, before, s, View());
        if ok { return; }
      }
      ghost var s := View();
      GiveUp();
      Onward(w, before, s, View());
    }

    /** The batch is handled again and again, until the context is cancelled or a handler panics. */
    method HandleBatch(batch: Batch, attempts: nat, ghost before: State) returns (outcome: Outcome)
      requires Wired() && Reaches(w, before, View())
      requires processor.Working? && processor.batch == batch && processor.next == 0
      modifies this`processor, this`cancelled, db`handled, db`attempted, db`upserts, db`steps, db.handler
      modifies db.handler.validators
      ensures Wired() && Reaches(w, before, View())
      ensures processor.Working? && processor.batch == batch
      ensures outcome.Done? ==>
        processor == Working(batch, |batch.logs|, old(processor).timed) && AllIn(batch.logs, db.handled)
      ensures outcome.Failed? ==> cancelled
      ensures old(cancelled) ==> cancelled
    {
      ghost var timed := processor.timed;
      for i := 0 to attempts
        invariant Wired() && Reaches(w, before, View()) && cancelled == old(cancelled)
        invariant processor == Working(batch, 0, timed)
      {
        ghost var s := View();
        outcome := TryToProcessLogsBatch(batch, timed);
        Onward(w, before, s, View());
        if !outcome.Failed? { return; }
      }
      outcome := Failed;
      ghost var s := View();
      GiveUp();
      Onward(w, before, s, View());
    }

    /** The cursor is written again and again, until the context is cancelled. */
    method KeepRecording(blockNumber: nat, attempts: nat, ghost before: State)
      requires Wired() && Reaches(w, before, View()) && !cancelled
      requires processor == RecordingProcessed(blockNumber, ReadFetched) && logsCursor.processed == blockNumber
      modifies this`processor, this`cancelled, db`cursor, db`written, db`sent
      ensures Wired() && Reaches(w, before, View())
      ensures cancelled || db.cursor == Some(logsCursor)
    {
      for i := 0 to attempts
        invariant Wired() && Reaches(w, before, View()) && !cancelled
        invariant processor == RecordingProcessed(blockNumber, ReadFetched)
      {
        var ok := WriteProcessed(before);
        if ok { return; }
      }
      ghost var s := View();
      GiveUp();
      Onward(w, before, s, View());
    }

    /** processLogsBatch: timestamp and handlers, then the cursor. */
    method ProcessLogsBatch(batch: Batch, attempts: nat) returns (outcome: Outcome)
      requires Wired() && processor == Working(batch, 0, false)
      modifies this`processor, this`cancelled, this`logsCursor, this`isSynced
      modifies db`times, db`handled, db`attempted, db`upserts, db`steps, db`cursor, db`written, db`sent
      modifies db.handler, db.handler.validators
      ensures Wired() && Reaches(w, old(View()), View())
      ensures outcome.Done? && !cancelled ==> BatchHandled(batch) && Covered(batch.block, old(logsCursor).processed)
      ensures old(cancelled) ==> db.cursor == old(db.cursor)
      ensures outcome.Failed? ==> cancelled
    {
      ghost var before := View();
      outcome := TimeAndHandle(batch, attempts);
      if outcome.Panicked? { return; }
      ghost var handled := View();
      FinishBatch(batch, attempts);
      Onward(w, before, handled, View());
    }

    method TimeAndHandle(batch: Batch, attempts: nat) returns (outcome: Outcome)
      requires Wired() && processor == Working(batch, 0, false)
      modifies this`processor, this`cancelled, db`times, db`handled, db`attempted, db`upserts, db`steps
      modifies db.handler, db.handler.validators
      ensures Wired() && Reaches(w, old(View()), View())
      ensures processor.Working? && processor.batch == batch
      ensures outcome.Done? && !cancelled ==>
        processor == Working(batch, |batch.logs|, true) && BatchHandled(batch)
      ensures outcome.Failed? || old(cancelled) ==> cancelled
    {
      ghost var before := View();
      Stay(w, before);
      GetBlockTimestamp(batch.block, attempts, before);
      outcome := HandleBatch(batch, attempts, before);
    }

    /** The last loop of processLogsBatch. */
    method Record(blockNumber: nat, attempts: nat)
      requires Wired() && processor.Working? && processor.batch.block == blockNumber
      requires cancelled || (processor.next == |processor.batch.logs| && processor.timed)
      modifies this`logsCursor, this`isSynced, this`processor, this`cancelled, db`cursor, db`written, db`sent
      ensures Wired() && Reaches(w, old(View()), View())
      ensures cancelled || Covered(blockNumber, old(logsCursor).processed)
      ensures old(cancelled) ==> cancelled && db.cursor == old(db.cursor)
    {
      ghost var before := View();
      var ok := RecordProcessedBlockNumber(blockNumber);
      if !ok && !cancelled { KeepRecording(blockNumber, attempts, before); }
    }

    /** A batch that is handled, or given up on a cancelled context, is recorded. */
    method FinishBatch(batch: Batch, attempts: nat)
      requires Wired() && processor.Working? && processor.batch == batch
      requires cancelled || (processor == Working(batch, |batch.logs|, true) && BatchHandled(batch))
      modifies this`logsCursor, this`isSynced, this`processor, this`cancelled, db`cursor, db`written, db`sent
      ensures Wired() && Reaches(w, old(View()), View())
      ensures cancelled || (BatchHandled(batch) && Covered(batch.block, old(logsCursor).processed))
      ensures old(cancelled) ==> cancelled && db.cursor == old(db.cursor)
    {
      Record(batch.block, attempts);
    }

    /** The next batch of the channel. If it is done and the context still alive, every log of the
        batch is handled, its block has a timestamp, and the cursor row is at or above its block. If
        the context was cancelled before, the row does not move. */
    method ProcessNextBatch(attempts: nat) returns (outcome: Outcome)
      requires Valid() && processor.ProcessorIdle? && logsChan != []
      modifies this`logsChan, this`processor, this`cancelled, this`logsCursor, this`isSynced
      modifies db`times, db`handled, db`attempted, db`upserts, db`steps, db`cursor, db`written, db`sent
      modifies db.handler, db.handler.validators
      ensures Valid() && Reaches(w, old(View()), View())
      ensures logsChan == old(logsChan)[1..]
      ensures outcome.Done? && !cancelled ==>
        var batch := old(logsChan)[0];
        BatchHandled(batch) && Covered(batch.block, old(logsCursor).processed)
      ensures old(cancelled) ==> db.cursor == old(db.cursor)
      ensures outcome.Failed? ==> cancelled
    {
      ghost var before := View();
      Stay(w, before);
      var batch := logsChan[0];
      logsChan := logsChan[1..];
      processor := Working(batch, 0, false);
      ghost var taken := View();
      Then(w, before, before, TakeBatch, taken);
      outcome := ProcessLogsBatch(batch, attempts);
      Onward(w, before, taken, View());
      StaysInv(w, before, View());
    }
  }

  /** A whole round of the block fetcher: the chunks up to the confirmed head are queued. */
  function Scheduled(w: World, s: State, answer: nat): State
    requires w.Cfg().confirmations <= answer && w.Cfg().maxRange >= 1
  {
    var head := answer - w.Cfg().confirmations;
    s.(head := Max(s.head, head), start := head + 1, ranges := s.ranges + Chunks(s.start, head, w.Cfg().maxRange))
  }

  predicate FirstIn(logs: seq<Log>, n: nat, handled: seq<Log>)
    requires n <= |logs|
  {
    forall i :: 0 <= i < n ==> logs[i] in handled && !logs[i].event.Malformed?
  }

  lemma FirstInMore(logs: seq<Log>, n: nat, handled: seq<Log>)
    requires n < |logs| && !logs[n].event.Malformed?
    ensures FirstIn(logs, n, handled) ==> FirstIn(logs, n + 1, handled + [logs[n]])
  {}

  /** All logs could be parsed and are handled. */
  predicate AllIn(logs: seq<Log>, handled: seq<Log>) {
    forall l :: l in logs ==> l in handled && !l.event.Malformed?
  }

  lemma SavedStep(w: World, p: State, s: State, r: Range, ok: bool, t: State)
    requires w.Start() >= 1 && w.Cfg().maxRange >= 1 && Reaches(w, p, s)
    requires s.fetcher == Fetching(r) && !s.cancelled
    requires t == s.(db := SaveIn(w, s.db, r), fetcher := if ok then Saved(r, RangeLogs(w, r)) else Fetching(r))
    ensures Reaches(w, p, t)
  {
    Then(w, p, s, SaveLogs(ok), t);
  }

  /** Undisturbed, the two goroutines that write the cursor read both fields and send the statement;
      on a cancelled context it is not sent. */
  lemma FetcherSends(w: World, p: State, s: State)
    requires w.Start() >= 1 && w.Cfg().maxRange >= 1 && Reaches(w, p, s)
    requires s.fetcher.RecordingFetched? && s.fetcher.write == ReadFetched
    ensures var t := s.(fetcher := s.fetcher.(write := Snapshot(s.mem)));
      Reaches(w, p, if s.cancelled then t else FetcherStepped(t))
  {
    var t := FetcherStepped(s);
    Then(w, p, s, FetcherStep, t);
    var u := FetcherStepped(t);
    Then(w, p, t, FetcherStep, u);
    assert u == s.(fetcher := s.fetcher.(write := Snapshot(s.mem)));
    if !s.cancelled { Then(w, p, u, FetcherStep, FetcherStepped(u)); }
  }

  /** A call that is done or has failed is a step of the pipeline. */
  lemma CallReaches(w: World, p: State, s: State, outcome: Outcome, n: nat, stepped: bool, t: State)
    requires w.Start() >= 1 && w.Cfg().maxRange >= 1 && Reaches(w, p, s)
    requires Ready(s) && !s.cancelled && UniqueRefs(s.db.logs) && !outcome.Panicked?
    requires outcome.Done? || n > 0 || stepped ==> CanMake(w, s.db, NextLog(s), n)
    requires outcome.Done? ==> stepped && n == |Effects(w, s.db.logs, NextLog(s)).value|
    requires t == s.(db := t.db, processor := s.processor.(next := if outcome.Done? then s.processor.next + 1 else 0))
    requires t.db == if outcome.Done? || n > 0 || stepped
                     then HandleIn(w, s.db, NextLog(s), n, stepped, outcome.Done?) else s.db
    ensures Reaches(w, p, t)
  {
    if outcome.Done? { Then(w, p, s, Handle, t); } else { Then(w, p, s, HandleFails(n, stepped), t); }
  }

  lemma RecordsProcessed(w: World, s: State)
    requires w.Start() >= 1 && w.Cfg().maxRange >= 1 && s.processor.Working?
    requires s.cancelled || (s.processor.next == |s.processor.batch.logs| && s.processor.timed)
    ensures Reaches(w, s, ProcessedRecorded(s))
  {
    Stay(w, s);
    if s.processor.next == |s.processor.batch.logs| && s.processor.timed {
      Then(w, s, s, RecordProcessed, ProcessedRecorded(s));
    } else {
      Then(w, s, s, Abandon, ProcessedRecorded(s));
    }
  }

  lemma ProcessorSends(w: World, p: State, s: State)
    requires w.Start() >= 1 && w.Cfg().maxRange >= 1 && Reaches(w, p, s)
    requires s.processor.RecordingProcessed? && s.processor.write == ReadFetched
    ensures var t := s.(processor := s.processor.(write := Snapshot(s.mem)));
      Reaches(w, p, if s.cancelled then t else ProcessorStepped(t))
  {
    var t := ProcessorStepped(s);
    Then(w, p, s, ProcessorStep, t);
    var u := ProcessorStepped(t);
    Then(w, p, t, ProcessorStep, u);
    assert u == s.(processor := s.processor.(write := Snapshot(s.mem)));
    if !s.cancelled { Then(w, p, u, ProcessorStep, ProcessorStepped(u)); }
  }

  lemma PrefixStep<T>(a: seq<T>, more: seq<T>, i: nat)
    requires i < |more|
    ensures (a + more[..i]) + [more[i]] == a + more[..i + 1]
    ensures more[i..] != [] && more[i..][0] == more[i] && more[i..][1..] == more[i + 1..]
  {}

  lemma {:induction false} LastBlockOf(logs: seq<Log>, i: nat)
    requires i < |logs|
    ensures exists l :: l in logs && l.block == LastBlock(logs, i)
    decreases |logs| - i
  {
    var n := RunEnd(logs, i, i + 1);
    if n < |logs| { LastBlockOf(logs, n); } else { assert logs[i] in logs; }
  }

  method BatchesOf(logs: seq<Log>) returns (batches: seq<Batch>)
    requires forall l :: l in logs ==> l.block < MAX_UINT32
    ensures batches == Batches(logs)
  {
    var fake := Log(0, Zeros(20), MAX_UINT32, 0, Zeros(32), None, Unknown);
    batches := SplitLogsInBatches(logs, fake);
    NoneDropped(logs, fake);
  }

  lemma SubmissionsAre(logs: seq<Log>, endBlock: nat, bs: seq<Batch>)
    requires bs == Batches(logs)
    ensures Submissions(logs, endBlock) ==
      if bs == [] || bs[|bs| - 1].block < endBlock then bs + [Batch(endBlock, [])] else bs
  {}

  lemma NoneDropped(logs: seq<Log>, fake: Log)
    requires fake.block == MAX_UINT32 && forall l :: l in logs ==> l.block < MAX_UINT32
    ensures ClosedBatches(logs, fake) == Batches(logs)
  {
    if logs != [] { LastBlockOf(logs, 0); }
    SentinelExact(logs, fake);
  }

  lemma BelowSentinel(w: World, r: Range)
    requires ValidChain(w) && r.last < MAX_UINT32
    ensures forall l :: l in RangeLogs(w, r) ==> l.block < MAX_UINT32
  {
    BetweenMembers(w, r.first, r.last + 1);
  }

  lemma RecoveryEnabled(w: World, s: State, r: Range, found: seq<Log>)
    requires ValidWorld(w) && Inv(w, s) && !s.cancelled && s.fetcher == Loading(r)
    requires UniqueRefs(s.db.logs) && found == Find(s.db.logs, UnprocessedFilter(w, r))
    ensures found == RangeLogs(w, r) && Enabled(w, s, LoadSaved(found))
  {
    RecoveryFinds(w, s.db, r, s.mem.fetched);
  }

  lemma RangeDistinct(w: World, r: Range)
    requires ValidChain(w)
    ensures DistinctRefs(RangeLogs(w, r))
  {
    BetweenOrdered(w, r.first, r.last + 1);
  }
}
