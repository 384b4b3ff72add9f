/** Properties of every run of the pipeline: any interleaving of its goroutines, with failures and
    retries, heads that move backwards, cancellations, crashes, and manual reprocessing. */
module PipelineSafety {
  import opened Entities
  import opened BlockRanges
  import opened Chains
  import opened LogsTable
  import opened Handlers
  import opened Queues
  import opened Pipeline
  import opened PipelineInvariant
  import opened PipelineSteps

  predicate ByFetcher(a: Action) {
    a.Poll? || a.PushRange? || a.LoadSaved? || a.TakeRange? || a.SaveLogs? || a.RecordFetched?
    || a.FetcherStep? || a.FetcherWrite? || a.PushBatch?
  }

  predicate ByProcessor(a: Action) {
    a.TakeBatch? || a.Handle? || a.HandleFails? || a.SaveTime? || a.RecordProcessed? || a.ProcessorStep?
    || a.ProcessorWrite? || a.Abandon?
  }

  lemma FetcherStepsOk(w: World, s: State, a: Action)
    requires ValidWorld(w) && Inv(w, s) && Enabled(w, s, a) && ByFetcher(a)
    ensures Inv(w, Do(w, s, a))
  {
    match a
    case Poll(head) => PollOk(w, s, head);
    case PushRange => PushRangeOk(w, s);
    case LoadSaved(found) => LoadSavedOk(w, s, found);
    case TakeRange => TakeRangeOk(w, s);
    case SaveLogs(acknowledged) => SaveLogsOk(w, s, acknowledged);
    case RecordFetched => RecordFetchedOk(w, s);
    case FetcherStep => FetcherStepOk(w, s);
    case FetcherWrite(applied, acknowledged) => FetcherWriteOk(w, s, applied, acknowledged);
    case PushBatch => PushBatchOk(w, s);
  }

  lemma ProcessorStepsOk(w: World, s: State, a: Action)
    requires ValidWorld(w) && Inv(w, s) && Enabled(w, s, a) && ByProcessor(a)
    ensures Inv(w, Do(w, s, a))
  {
    match a
    case TakeBatch => TakeBatchOk(w, s);
    case Handle => HandleOk(w, s);
    case HandleFails(n, stepped) => HandleFailsOk(w, s, n, stepped);
    case SaveTime => SaveTimeOk(w, s);
    case RecordProcessed => if s.cancelled { GivenUpOk(w, s); } else { RecordProcessedOk(w, s); }
    case ProcessorStep => ProcessorStepOk(w, s);
    case ProcessorWrite(applied, acknowledged) => ProcessorWriteOk(w, s, applied, acknowledged);
    case Abandon => GivenUpOk(w, s);
  }

  lemma OtherStepsOk(w: World, s: State, a: Action)
    requires ValidWorld(w) && Inv(w, s) && Enabled(w, s, a) && !ByFetcher(a) && !ByProcessor(a)
    ensures Inv(w, Do(w, s, a))
  {
    match a
    case Cancel =>
    case Restart => BootOk(w, s.db);
    case OtherMonitor(l) => OtherMonitorOk(w, s, l);
    case ReprocessSave(r) => ReprocessSaveOk(w, s, r);
    case Reprocess(l, n, stepped, done) => ReprocessOk(w, s, l, n, stepped, done);
    case Rewrite(c) => RewriteOk(w, s, c);
  }

  /** Every step keeps the invariant. */
  lemma StepOk(w: World, s: State, a: Action)
    requires ValidWorld(w) && Inv(w, s) && Enabled(w, s, a)
    ensures Inv(w, Do(w, s, a))
  {
    if ByFetcher(a) {
      FetcherStepsOk(w, s, a);
    } else if ByProcessor(a) {
      ProcessorStepsOk(w, s, a);
    } else {
      OtherStepsOk(w, s, a);
    }
  }

  lemma EmptyOk(w: World)
    requires ValidWorld(w)
    ensures DbOk(w, EMPTY_DB)
  {
    assert FollowsChain(w, FirstCalls(w, []), 0);
  }

  lemma {:induction false} RunOk(w: World, acts: seq<Action>, s: State)
    requires ValidWorld(w) && Run(w, acts, s)
    ensures Inv(w, s)
  {
    if acts == [] {
      EmptyOk(w);
      BootOk(w, EMPTY_DB);
    } else {
      var before, last := acts[..|acts| - 1], acts[|acts| - 1];
      var p :| Run(w, before, p) && Enabled(w, p, last) && s == Do(w, p, last);
      RunOk(w, before, p);
      StepOk(w, p, last);
    }
  }

  /** Crash safety: in every reachable state, whatever the cursor row says is true: every relevant
      log from the start block up to its processed block has been handled, every one up to its
      fetched block is saved, and processed never exceeds fetched. So it is for every row that was
      ever written, so a stale row written late only moves the cursor back to an older safe one. */
  lemma CursorRowIsSafe(w: World, acts: seq<Action>, s: State)
    requires ValidWorld(w) && Run(w, acts, s)
    ensures s.db.row.Some? ==> s.db.row.value in s.db.written
    ensures forall c :: c in s.db.written ==>
      && c.processed <= c.fetched
      && (forall l :: OnChain(w, l) && w.Start() <= l.block <= c.processed ==> l in s.db.handled)
      && (forall l :: OnChain(w, l) && w.Start() <= l.block <= c.fetched ==> l in s.db.logs)
      && (c.processed + 1 == w.Start() || c.processed in s.db.times)
  {
    RunOk(w, acts, s);
  }

  /** The first successful handlings of logs, across retries, re-fetched ranges, restarts and
      manual runs, are the chain from the start block on, in order and with no log skipped. */
  lemma FirstHandlingIsChainOrder(w: World, acts: seq<Action>, s: State)
    requires ValidWorld(w) && Run(w, acts, s)
    ensures exists hi :: FirstCalls(w, s.db.handled) <= Between(w, w.Start(), hi)
    ensures Ordered(FirstCalls(w, s.db.handled))
    ensures forall l :: l in FirstCalls(w, s.db.handled) <==> l in s.db.handled && l.block >= w.Start()
  {
    RunOk(w, acts, s);
    var hi :| FollowsChain(w, FirstCalls(w, s.db.handled), hi);
    BetweenOrdered(w, w.Start(), hi);
    FirstCallsMember(w, s.db.handled);
  }

  /** In memory the cursor is as safe as in the database, as long as the context is not cancelled. */
  lemma MemoryIsSafe(w: World, acts: seq<Action>, s: State)
    requires ValidWorld(w) && Run(w, acts, s) && !s.cancelled
    ensures SafeCursor(w, s.db, s.mem)
  {
    RunOk(w, acts, s);
  }

  /** The row after a step is the old one, or a cursor whose statement had been sent before. */
  ghost predicate OnlySentWrites(w: World, s: State, after: Db)
    requires w.Start() >= 1
  {
    after.row == s.db.row
    || (after.row.Some? && (after.row.value in s.db.sent || after.row.value == Cursor(FirstBlock(w), FirstBlock(w))))
  }

  lemma FetcherCancelled(w: World, s: State, a: Action)
    requires w.Start() >= 1 && w.Cfg().maxRange >= 1 && SentOk(s) && Enabled(w, s, a) && s.cancelled && ByFetcher(a)
    ensures OnlySentWrites(w, s, Do(w, s, a).db) && Do(w, s, a).db.sent == s.db.sent && Do(w, s, a).cancelled
  {}

  lemma OthersCancelled(w: World, s: State, a: Action)
    requires w.Start() >= 1 && w.Cfg().maxRange >= 1 && SentOk(s) && Enabled(w, s, a) && s.cancelled && !ByFetcher(a)
    ensures OnlySentWrites(w, s, Do(w, s, a).db) && Do(w, s, a).db.sent == s.db.sent
    ensures !a.Restart? ==> Do(w, s, a).cancelled
  {}

  /** A cancelled batch is recorded in memory though it is not handled, but that cursor never reaches
      the row: from the cancellation on no statement is sent, and the row only changes to a cursor
      that was sent before, or to the first one, all of which are safe. */
  lemma NoWriteAfterCancel(w: World, acts: seq<Action>, s: State, a: Action)
    requires ValidWorld(w) && Run(w, acts, s) && s.cancelled && Enabled(w, s, a)
    ensures OnlySentWrites(w, s, Do(w, s, a).db)
    ensures Do(w, s, a).db.sent == s.db.sent && (!a.Restart? ==> Do(w, s, a).cancelled)
    ensures forall c :: c in s.db.sent ==> SafeCursor(w, s.db, c)
  {
    RunOk(w, acts, s);
    if ByFetcher(a) { FetcherCancelled(w, s, a); } else { OthersCancelled(w, s, a); }
  }

  /** After a restart the recovery query hands out exactly the relevant logs between the processed
      and the fetched block of the row, in order: flattened, what fetching these blocks submits. */
  lemma RecoveryIsExact(w: World, acts: seq<Action>, s: State, found: seq<Log>)
    requires ValidWorld(w) && Run(w, acts, s) && Enabled(w, s, LoadSaved(found))
    ensures found == Between(w, s.fetcher.range.first, s.fetcher.range.last + 1)
    ensures Do(w, s, LoadSaved(found)).fetcher
      == Submitting(Submissions(RangeLogs(w, s.fetcher.range), s.fetcher.range.last))
  {
    RunOk(w, acts, s);
    RecoveryFinds(w, s.db, s.fetcher.range, s.mem.fetched);
  }

  /** Whenever a log is handled, its whole block is saved already, and, if requests are made while a
      token is live, what the handler writes is a function of the chain alone. */
  lemma WholeBlockVisible(w: World, acts: seq<Action>, s: State)
    requires ValidWorld(w) && Run(w, acts, s) && Enabled(w, s, Handle)
    ensures OnChain(w, NextLog(s))
    ensures forall x :: OnChain(w, x) && x.block == NextLog(s).block ==> x in s.db.logs
    ensures RequestsLive(w) ==> Effects(w, s.db.logs, NextLog(s)) == ChainEffects(w, NextLog(s))
  {
    RunOk(w, acts, s);
    NextIsOnChain(w, s);
    if RequestsLive(w) { HandledAsChainSays(w, s.db, NextLog(s)); }
  }

  /** Nothing is lost on the way: once the queues are empty and the goroutines idle, every block
      scheduled so far is processed. */
  lemma DrainedMeansProcessed(w: World, acts: seq<Action>, s: State)
    requires ValidWorld(w) && Run(w, acts, s) && !s.cancelled
    requires s.pending == [] && s.ranges == [] && s.batches == []
    requires s.fetcher.FetcherIdle? && s.processor.ProcessorIdle?
    ensures s.start <= s.mem.processed + 1
    ensures forall l :: OnChain(w, l) && w.Start() <= l.block < s.start ==> l in s.db.handled
  {
    RunOk(w, acts, s);
    assert Queue(s) == [] && Ranges(s) == [];
  }
}
