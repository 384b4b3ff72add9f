/** The invariant of the running process, and its preservation by every step. */
module PipelineSteps {
  import opened Entities
  import opened Sequences
  import opened LogOrder
  import opened BlockRanges
  import opened Chains
  import opened LogsTable
  import opened Handlers
  import opened Queues
  import opened Pipeline
  import opened PipelineInvariant

  function Current(p: Processor): seq<Batch> { if p.Working? then [p.batch] else [] }

  function Outbox(f: Fetcher): seq<Batch> { if f.Submitting? then f.outbox else [] }

  /** Batches not yet processed, in the order they will be. */
  function Queue(s: State): seq<Batch> { Current(s.processor) + (s.batches + Outbox(s.fetcher)) }

  function CurrentRange(f: Fetcher): seq<Range> {
    if f.FetcherIdle? || f.Submitting? then [] else [f.range]
  }

  /** Ranges not yet submitted, in the order they will be. */
  function Ranges(s: State): seq<Range> { CurrentRange(s.fetcher) + (s.ranges + s.pending) }

  ghost predicate BatchesSaved(s: State, q: seq<Batch>) {
    forall b :: b in q ==> b.block <= s.mem.fetched && forall l :: l in b.logs ==> l in s.db.logs
  }

  /** From the block processed so far, the batches go on without a gap; from the block they reach,
      so do the ranges; and from the block those reach, so does the next poll. */
  ghost predicate QueueOk(w: World, s: State) {
    && Fed(w, s.mem.processed, Queue(s))
    && BatchesSaved(s, Queue(s))
    && Linked(Reach(s.mem.processed, Queue(s)), Ranges(s))
    && s.start <= RangeReach(Reach(s.mem.processed, Queue(s)), Ranges(s)) + 1
  }

  ghost predicate Fetched(w: World, s: State, r: Range, logs: seq<Log>) {
    logs == RangeLogs(w, r) && forall l :: l in logs ==> l in s.db.logs
  }

  ghost predicate FetcherOk(w: World, s: State) {
    match s.fetcher
    case Loading(r) => w.Start() <= r.first && r.last <= s.mem.fetched
    case Saved(r, logs) => Fetched(w, s, r, logs)
    case RecordingFetched(r, logs, write) =>
      && Fetched(w, s, r, logs)
      && r.last <= s.mem.fetched
      && (write.ReadProcessed? ==> write.fetched == s.mem.fetched)
      && (write.Snapshot? ==> SafeCursor(w, s.db, write.c))
    case Submitting(outbox) => outbox != []
    case _ => true
  }

  ghost predicate ProcessorOk(w: World, s: State) {
    match s.processor
    case ProcessorIdle => true
    case Working(batch, next, timed) =>
      && next <= |batch.logs|
      && (forall i :: 0 <= i < next ==> batch.logs[i] in s.db.handled)
      && (timed ==> batch.block in s.db.times)
    case RecordingProcessed(block, write) =>
      && (write.ReadProcessed? ==> s.mem.processed <= write.fetched <= s.mem.fetched)
      && (write.Snapshot? ==> SafeCursor(w, s.db, write.c))
  }

  /** A statement in flight is one of those sent. */
  ghost predicate SentOk(s: State) {
    && (s.fetcher.RecordingFetched? && s.fetcher.write.InFlight? ==> s.fetcher.write.c in s.db.sent)
    && (s.processor.RecordingProcessed? && s.processor.write.InFlight? ==> s.processor.write.c in s.db.sent)
  }

  ghost predicate Live(w: World, s: State) {
    SafeCursor(w, s.db, s.mem) && QueueOk(w, s) && FetcherOk(w, s) && ProcessorOk(w, s)
  }

  ghost predicate Inv(w: World, s: State)
    requires ValidChain(w)
  {
    DbOk(w, s.db) && SentOk(s) && (!s.cancelled ==> Live(w, s))
  }

  lemma BootQueueOk(w: World, s: State, r: Range)
    requires s.batches == [] && s.ranges == [] && s.pending == [] && s.fetcher == Loading(r)
    requires s.processor == ProcessorIdle
    requires r == Range(s.mem.processed + 1, s.mem.fetched) && s.mem.processed <= s.mem.fetched
    requires s.start == s.mem.fetched + 1
    ensures QueueOk(w, s)
  {
    assert Queue(s) == [];
    assert Ranges(s) == [r];
    assert Ranges(s)[1..] == [];
  }

  lemma BootOk(w: World, db: Db)
    requires ValidWorld(w) && DbOk(w, db)
    ensures Inv(w, Boot(w, db))
  {
    var s := Boot(w, db);
    assert SafeCursor(w, db, s.mem);
    BootQueueOk(w, s, Range(s.mem.processed + 1, s.mem.fetched));
  }

  /** A growing database disturbs nothing. */
  lemma GrowthOk(w: World, s: State, db: Db)
    requires ValidChain(w) && Inv(w, s) && DbOk(w, db) && Grows(s.db, db) && s.db.sent <= db.sent
    ensures Inv(w, s.(db := db))
  {
    forall c | SafeCursor(w, s.db, c) ensures SafeCursor(w, db, c) { SafeStays(w, s.db, db, c); }
  }

  lemma SameQueues(w: World, s: State, t: State)
    requires QueueOk(w, s) && Queue(t) == Queue(s) && Ranges(t) == Ranges(s) && t.start == s.start
    requires s.db.logs <= t.db.logs && s.mem.fetched <= t.mem.fetched && s.mem.processed == t.mem.processed
    ensures QueueOk(w, t)
  {}

  // ---------- Block fetcher ----------

  lemma PollOk(w: World, s: State, head: nat)
    requires ValidWorld(w) && Inv(w, s) && s.pending == [] && w.Cfg().confirmations <= head
    ensures Inv(w, Polled(w, s, head))
  {
    if !s.cancelled { PollLive(w, s, head); }
  }

  lemma PollLive(w: World, s: State, head: nat)
    requires Live(w, s) && s.pending == [] && w.Cfg().confirmations <= head && w.Cfg().maxRange >= 1
    ensures Live(w, Polled(w, s, head))
  {
    var t := Polled(w, s, head);
    PolledQueue(w, s, t) by {
      PollLinks(w, s, t, head - w.Cfg().confirmations);
    }
  }

  lemma PollLinks(w: World, s: State, t: State, h: nat)
    requires w.Cfg().maxRange >= 1 && QueueOk(w, s)
    requires t.pending == Chunks(s.start, h, w.Cfg().maxRange) && t.start == h + 1
    ensures var c := Reach(s.mem.processed, Queue(s));
      Linked(c, Ranges(s) + t.pending) && t.start <= RangeReach(c, Ranges(s) + t.pending) + 1
  {
    PolledRanges(Reach(s.mem.processed, Queue(s)), Ranges(s), s.start, h, w.Cfg().maxRange);
  }

  lemma AppendPending<T>(a: seq<T>, b: seq<T>, c: seq<T>)
    ensures a + (b + c) == (a + (b + [])) + c
  {}

  lemma PolledRanges(c: nat, rs: seq<Range>, start: nat, h: nat, size: nat)
    requires size >= 1 && Linked(c, rs) && start <= RangeReach(c, rs) + 1
    ensures var all := rs + Chunks(start, h, size);
      Linked(c, all) && h <= RangeReach(c, all)
  {
    LinkedAppend(c, rs, Chunks(start, h, size));
    ChunksLinked(RangeReach(c, rs), start, h, size);
  }

  lemma PolledQueue(w: World, s: State, t: State)
    requires Live(w, s) && s.pending == []
    requires t == s.(head := t.head, pending := t.pending, start := t.start)
    requires var c := Reach(s.mem.processed, Queue(s));
      Linked(c, Ranges(s) + t.pending) && t.start <= RangeReach(c, Ranges(s) + t.pending) + 1
    ensures Live(w, t)
  {
    AppendPending(CurrentRange(s.fetcher), s.ranges, t.pending);
    assert Ranges(t) == Ranges(s) + t.pending && Queue(t) == Queue(s);
  }

  lemma PushRangeOk(w: World, s: State)
    requires ValidWorld(w) && Inv(w, s) && s.pending != []
    ensures Inv(w, RangePushed(s))
  {
    var t := RangePushed(s);
    MoveHead(s.ranges, s.pending);
    assert Queue(t) == Queue(s) && Ranges(t) == Ranges(s);
    if !s.cancelled { SameQueues(w, s, t); }
  }

  lemma MoveHead<T>(a: seq<T>, b: seq<T>)
    requires b != []
    ensures (a + [b[0]]) + b[1..] == a + b
  {}

  lemma TakeHead<T>(a: seq<T>, b: seq<T>)
    requires a != []
    ensures [a[0]] + (a[1..] + b) == [] + (a + b)
  {}

  // ---------- Logs fetcher ----------

  /** The recovery query finds exactly the chain logs of its range. */
  lemma RecoveryFinds(w: World, db: Db, r: Range, top: nat)
    requires ValidWorld(w) && LogsOk(w, db.logs) && SavedTo(w, db.logs, top)
    requires w.Start() <= r.first && r.last <= top
    ensures Find(db.logs, UnprocessedFilter(w, r)) == RangeLogs(w, r)
  {
    var selected := Select(db.logs, UnprocessedFilter(w, r));
    forall l ensures l in selected <==> OnChain(w, l) && r.first <= l.block <= r.last {
      FilterFinds(w, db, r, top, l);
    }
    SortedIsBetween(w, r, selected);
  }

  lemma SortedIsBetween(w: World, r: Range, logs: set<Log>)
    requires ValidChain(w) && UniqueRefs(logs)
    requires forall l :: l in logs <==> OnChain(w, l) && r.first <= l.block <= r.last
    ensures Sorted(logs) == RangeLogs(w, r)
  {
    SortedIs(logs);
    BetweenUnique(w, r.first, r.last + 1, Sorted(logs));
  }

  lemma FilterFinds(w: World, db: Db, r: Range, top: nat, l: Log)
    requires ValidWorld(w) && LogsOk(w, db.logs) && SavedTo(w, db.logs, top)
    requires w.Start() <= r.first && r.last <= top
    ensures l in db.logs && Matches(UnprocessedFilter(w, r), l) <==> OnChain(w, l) && r.first <= l.block <= r.last
  {
    var cfg := w.Cfg();
    LiveTokensAre(cfg.tokens, r.first, r.last);
    var live := LiveTokens(cfg.tokens, r.first, r.last);
    assert forall a :: a in ContractAddresses(cfg, r.first, r.last) <==>
      a in live || a == cfg.address || a == cfg.validators;
    if OnChain(w, l) && r.first <= l.block <= r.last {
      OnOneChain(w, l);
      if l.address != cfg.address && l.address != cfg.validators {
        var t :| t in cfg.tokens && SeenThrough(cfg, t, l);
        assert t.address in live;
      }
      assert ContractAddresses(cfg, r.first, r.last) != [];
    }
    if l in db.logs && Matches(UnprocessedFilter(w, r), l) {
      assert ContractAddresses(cfg, r.first, r.last) != [];
      assert Ours(w, l.address);
    }
  }

  lemma SubmittedQueues(s: State, t: State, r: Range)
    requires CurrentRange(s.fetcher) == [r] && Outbox(s.fetcher) == []
    requires t.fetcher.Submitting? && t == s.(fetcher := t.fetcher)
    ensures Queue(t) == Queue(s) + t.fetcher.outbox
    ensures Ranges(s) != [] && Ranges(s)[0] == r && Ranges(s)[1..] == Ranges(t)
  {
    var rest := s.ranges + s.pending;
    HeadTail(r, rest);
    Empty(rest);
    Empty(s.batches);
    Assoc(Current(s.processor), s.batches, t.fetcher.outbox);
  }

  /** The range at hand leaves the queue of ranges and its batches join the queue of batches. */
  lemma SubmitOk(w: World, s: State, t: State, r: Range)
    requires ValidWorld(w) && QueueOk(w, s)
    requires CurrentRange(s.fetcher) == [r] && Outbox(s.fetcher) == []
    requires t == s.(fetcher := Submitting(Submissions(RangeLogs(w, r), r.last)))
    requires r.last <= s.mem.fetched && forall l :: l in RangeLogs(w, r) ==> l in s.db.logs
    ensures QueueOk(w, t) && t.fetcher.outbox != []
  {
    var p := s.mem.processed;
    var q, more := Queue(s), t.fetcher.outbox;
    SubmittedQueues(s, t, r);
    SubmissionsFeed(w, Reach(p, q), r);
    FedAppend(w, p, q, more);
    InAppends(q, more);
  }

  lemma InAppends<T>(a: seq<T>, b: seq<T>)
    ensures forall x :: x in a + b <==> x in a || x in b
  {}

  lemma LoadSavedOk(w: World, s: State, found: seq<Log>)
    requires ValidWorld(w) && Inv(w, s) && s.fetcher.Loading? && !s.cancelled
    requires found == Find(s.db.logs, UnprocessedFilter(w, s.fetcher.range))
    ensures Inv(w, SavedLoaded(s, found))
  {
    var r := s.fetcher.range;
    RecoveryFinds(w, s.db, r, s.mem.fetched);
    RangeMembers(w, r);
    if r.first <= r.last {
      forall l | l in RangeLogs(w, r) ensures l in s.db.logs {}
    }
    SubmitOk(w, s, SavedLoaded(s, found), r);
  }

  lemma TakeRangeOk(w: World, s: State)
    requires ValidWorld(w) && Inv(w, s) && s.fetcher.FetcherIdle? && s.ranges != []
    ensures Inv(w, RangeTaken(s))
  {
    var t := RangeTaken(s);
    TakeHead(s.ranges, s.pending);
    assert Ranges(t) == Ranges(s) && Queue(t) == Queue(s);
    if !s.cancelled { SameQueues(w, s, t); }
  }

  lemma SaveLogsOk(w: World, s: State, acknowledged: bool)
    requires ValidWorld(w) && Inv(w, s) && s.fetcher.Fetching?
    ensures Inv(w, LogsSaved(w, s, acknowledged))
  {
    var db := SaveIn(w, s.db, s.fetcher.range);
    var t := LogsSaved(w, s, acknowledged);
    SaveKeepsDb(w, s.db, s.fetcher.range);
    GrowthOk(w, s, db);
    assert Ranges(t) == Ranges(s) && Queue(t) == Queue(s);
    if !s.cancelled { SameQueues(w, s.(db := db), t); }
  }

  lemma FetchedReach(w: World, s: State, r: Range)
    requires ValidWorld(w) && Live(w, s) && Ranges(s) != [] && Ranges(s)[0] == r
    requires forall l :: l in RangeLogs(w, r) ==> l in s.db.logs
    ensures SavedTo(w, s.db.logs, Max(s.mem.fetched, r.last))
  {
    ReachBound(s.mem.processed, Queue(s), s.mem.fetched);
    RangeMembers(w, r);
  }

  lemma RecordFetchedOk(w: World, s: State)
    requires ValidWorld(w) && Inv(w, s) && s.fetcher.Saved?
    ensures Inv(w, FetchedRecorded(s))
  {
    if !s.cancelled {
      var r := s.fetcher.range;
      var t := FetchedRecorded(s);
      if r.last < s.mem.fetched {
        SubmitOk(w, s, t, r);
      } else {
        FetchedReach(w, s, r);
        assert Queue(t) == Queue(s) && Ranges(t) == Ranges(s);
        SameQueues(w, s, t);
      }
    }
  }

  lemma FetcherStepOk(w: World, s: State)
    requires ValidWorld(w) && Inv(w, s) && s.fetcher.RecordingFetched?
    requires s.fetcher.write.Snapshot? ==> !s.cancelled
    ensures Inv(w, FetcherStepped(s))
  {
    var t := FetcherStepped(s);
    var u := s.(db := t.db);
    SendKeepsDb(w, s.db, s.fetcher.write);
    GrowthOk(w, s, t.db);
    assert Queue(t) == Queue(u) && Ranges(t) == Ranges(u);
    if !s.cancelled { SameQueues(w, u, t); }
  }

  lemma FetcherWriteOk(w: World, s: State, applied: bool, acknowledged: bool)
    requires ValidWorld(w) && Inv(w, s) && s.fetcher.RecordingFetched?
    requires s.fetcher.write.Snapshot? || s.fetcher.write.InFlight?
    requires applied ==> s.fetcher.write.InFlight?
    ensures Inv(w, FetcherWrote(s, applied, acknowledged))
  {
    var t := FetcherWrote(s, applied, acknowledged);
    var u := s.(db := t.db);
    if applied { WriteKeepsDb(w, s.db, s.fetcher.write.c); }
    GrowthOk(w, s, t.db);
    if !s.cancelled {
      if acknowledged {
        SubmitOk(w, u, t, s.fetcher.range);
      } else {
        assert Queue(t) == Queue(u) && Ranges(t) == Ranges(u);
        SameQueues(w, u, t);
      }
    }
  }

  lemma PushBatchOk(w: World, s: State)
    requires ValidWorld(w) && Inv(w, s) && s.fetcher.Submitting? && s.fetcher.outbox != []
    ensures Inv(w, BatchPushed(s))
  {
    var t := BatchPushed(s);
    MoveHead(s.batches, s.fetcher.outbox);
    assert Outbox(t.fetcher) == s.fetcher.outbox[1..];
    assert Queue(t) == Queue(s) && Ranges(t) == Ranges(s);
    if !s.cancelled { SameQueues(w, s, t); }
  }

  // ---------- Logs processor ----------

  lemma TakeBatchOk(w: World, s: State)
    requires ValidWorld(w) && Inv(w, s) && s.processor.ProcessorIdle? && s.batches != []
    ensures Inv(w, BatchTaken(s))
  {
    var t := BatchTaken(s);
    TakeHead(s.batches, Outbox(s.fetcher));
    assert Queue(t) == Queue(s) && Ranges(t) == Ranges(s);
    if !s.cancelled { SameQueues(w, s, t); }
  }

  /** Every relevant log before the next log of the batch at hand is already handled. */
  lemma PredecessorsHandled(w: World, s: State, x: Log)
    requires ValidWorld(w) && Live(w, s) && Ready(s)
    requires OnChain(w, x) && x.block >= w.Start() && Before(x, NextLog(s))
    ensures x in s.db.handled
  {
    var b := s.processor.batch;
    assert Queue(s)[0] == b;
    assert b.logs == At(w, b.block);
    AtMember(w, b.block, NextLog(s));
    OnOneChain(w, x);
    if x.block == b.block {
      AtOrdered(w, b.block);
      var i :| 0 <= i < |b.logs| && b.logs[i] == x;
      BeforeMeansEarlier(b.logs, i, s.processor.next);
    }
  }

  lemma NextIsOnChain(w: World, s: State)
    requires ValidWorld(w) && Live(w, s) && Ready(s)
    ensures OnChain(w, NextLog(s)) && NextLog(s) in s.db.logs
  {
    var b := s.processor.batch;
    assert Queue(s)[0] == b && b in Queue(s);
    AtMember(w, b.block, NextLog(s));
  }

  lemma HandlePartOk(w: World, s: State, n: nat, stepped: bool, done: bool)
    requires ValidWorld(w) && Inv(w, s) && !s.cancelled && Ready(s)
    requires CanMake(w, s.db, NextLog(s), n) && (done ==> stepped)
    requires done ==> n == |Effects(w, s.db.logs, NextLog(s)).value|
    ensures var db := HandleIn(w, s.db, NextLog(s), n, stepped, done);
      Inv(w, s.(db := db)) && Grows(s.db, db)
  {
    var l := NextLog(s);
    NextIsOnChain(w, s);
    forall x | OnChain(w, x) && x.block >= w.Start() && Before(x, l) ensures x in s.db.handled {
      PredecessorsHandled(w, s, x);
    }
    NextInOrder(w, s.db.handled, l);
    HandleKeepsDb(w, s.db, l, n, stepped, done);
    GrowthOk(w, s, HandleIn(w, s.db, l, n, stepped, done));
  }

  /** The processor may move inside its batch as long as what it claims is true. */
  lemma WithinBatch(w: World, s: State, t: State)
    requires ValidChain(w) && Inv(w, s) && !s.cancelled && s.processor.Working?
    requires t == s.(processor := t.processor) && t.processor.Working? && t.processor.batch == s.processor.batch
    requires ProcessorOk(w, t)
    ensures Inv(w, t)
  {
    assert Queue(t) == Queue(s) && Ranges(t) == Ranges(s);
    SameQueues(w, s, t);
  }

  lemma HandleOk(w: World, s: State)
    requires ValidWorld(w) && Inv(w, s) && !s.cancelled && Ready(s) && Effects(w, s.db.logs, NextLog(s)).Ok?
    ensures Inv(w, Handled(w, s))
  {
    var n := |Effects(w, s.db.logs, NextLog(s)).value|;
    var t := Handled(w, s);
    HandlePartOk(w, s, n, true, true);
    HandledIn(s, t.db.handled);
    WithinBatch(w, s.(db := t.db), t);
  }

  lemma HandledIn(s: State, handled: seq<Log>)
    requires Ready(s) && handled == s.db.handled + [NextLog(s)]
    requires forall i :: 0 <= i < s.processor.next ==> s.processor.batch.logs[i] in s.db.handled
    ensures forall i :: 0 <= i < s.processor.next + 1 ==> s.processor.batch.logs[i] in handled
  {}

  lemma HandleFailsOk(w: World, s: State, n: nat, stepped: bool)
    requires ValidWorld(w) && Inv(w, s) && !s.cancelled && Ready(s)
    requires n > 0 || stepped ==> CanMake(w, s.db, NextLog(s), n)
    ensures Inv(w, HandlingFailed(w, s, n, stepped))
  {
    var t := HandlingFailed(w, s, n, stepped);
    if n > 0 || stepped { HandlePartOk(w, s, n, stepped, false); }
    WithinBatch(w, s.(db := t.db), t);
  }

  lemma SaveTimeOk(w: World, s: State)
    requires ValidWorld(w) && Inv(w, s) && !s.cancelled && s.processor.Working?
    ensures Inv(w, TimeSaved(s))
  {
    var t := TimeSaved(s);
    TimeKeepsDb(w, s.db, s.processor.batch.block);
    GrowthOk(w, s, t.db);
    WithinBatch(w, s.(db := t.db), t);
  }

  /** A finished batch moves the processed block to its own, or leaves it where it is. */
  lemma BatchDone(w: World, s: State)
    requires ValidWorld(w) && Live(w, s) && s.processor.Working?
    requires s.processor.next == |s.processor.batch.logs| && s.processor.timed
    ensures var b := s.processor.batch.block;
      b <= s.mem.fetched && SafeCursor(w, s.db, s.mem.(processed := Max(s.mem.processed, b)))
  {
    var b := s.processor.batch;
    assert Queue(s)[0] == b && b in Queue(s);
    if b.block > s.mem.processed {
      forall l | OnChain(w, l) && w.Start() <= l.block <= b.block ensures l in s.db.handled {
        if l.block == b.block {
          var i :| 0 <= i < |b.logs| && b.logs[i] == l;
        }
      }
    }
  }

  lemma RecordProcessedOk(w: World, s: State)
    requires ValidWorld(w) && Inv(w, s) && !s.cancelled && s.processor.Working?
    requires s.processor.next == |s.processor.batch.logs| && s.processor.timed
    ensures Inv(w, ProcessedRecorded(s))
  {
    var t := ProcessedRecorded(s);
    BatchDone(w, s);
    var rest := s.batches + Outbox(s.fetcher);
    HeadTail(s.processor.batch, rest);
    Empty(rest);
    assert Queue(t) == Queue(s)[1..] && Ranges(t) == Ranges(s);
    ShorterQueue(w, s, t);
  }

  lemma GivenUpOk(w: World, s: State)
    requires ValidWorld(w) && Inv(w, s) && s.cancelled && s.processor.Working?
    ensures Inv(w, ProcessedRecorded(s))
  {}

  lemma ShorterQueue(w: World, s: State, t: State)
    requires QueueOk(w, s) && Queue(s) != [] && Queue(t) == Queue(s)[1..] && Ranges(t) == Ranges(s)
    requires t.start == s.start && t.db == s.db
    requires t.mem == s.mem.(processed := Max(s.mem.processed, Queue(s)[0].block))
    ensures QueueOk(w, t)
  {
    forall b | b in Queue(t) ensures b in Queue(s) {}
  }

  lemma ProcessorStepOk(w: World, s: State)
    requires ValidWorld(w) && Inv(w, s) && s.processor.RecordingProcessed?
    requires s.processor.write.Snapshot? ==> !s.cancelled
    ensures Inv(w, ProcessorStepped(s))
  {
    var t := ProcessorStepped(s);
    var u := s.(db := t.db);
    SendKeepsDb(w, s.db, s.processor.write);
    GrowthOk(w, s, t.db);
    assert Queue(t) == Queue(u) && Ranges(t) == Ranges(u);
    if !s.cancelled {
      SameQueues(w, u, t);
      if s.processor.write.ReadProcessed? {
        assert SafeCursor(w, s.db, Cursor(s.processor.write.fetched, s.mem.processed));
      }
    }
  }

  lemma ProcessorWriteOk(w: World, s: State, applied: bool, acknowledged: bool)
    requires ValidWorld(w) && Inv(w, s) && s.processor.RecordingProcessed?
    requires s.processor.write.Snapshot? || s.processor.write.InFlight?
    requires applied ==> s.processor.write.InFlight?
    ensures Inv(w, ProcessorWrote(s, applied, acknowledged))
  {
    var t := ProcessorWrote(s, applied, acknowledged);
    var u := s.(db := t.db);
    if applied { WriteKeepsDb(w, s.db, s.processor.write.c); }
    GrowthOk(w, s, t.db);
    assert Queue(t) == Queue(u) && Ranges(t) == Ranges(u);
    if !s.cancelled { SameQueues(w, u, t); }
  }

  // ---------- Other processes ----------

  lemma OtherMonitorOk(w: World, s: State, l: Log)
    requires ValidWorld(w) && Inv(w, s)
    requires l.chainId == w.Cfg().chainId ==> l in w.ChainLogs(l.block) && !Ours(w, l.address)
    requires forall x :: x in s.db.logs ==> RefOf(x) != RefOf(l)
    ensures Inv(w, s.(db := s.db.(logs := s.db.logs + {l})))
  {
    OtherKeepsDb(w, s.db, l);
    GrowthOk(w, s, s.db.(logs := s.db.logs + {l}));
  }

  lemma ReprocessSaveOk(w: World, s: State, r: Range)
    requires ValidWorld(w) && Inv(w, s)
    ensures Inv(w, s.(db := SaveIn(w, s.db, r)))
  {
    SaveKeepsDb(w, s.db, r);
    GrowthOk(w, s, SaveIn(w, s.db, r));
  }

  lemma ReprocessOk(w: World, s: State, l: Log, n: nat, stepped: bool, done: bool)
    requires ValidWorld(w) && Inv(w, s) && OnChain(w, l) && l in s.db.logs && WasProcessed(w, s.db, l.block)
    requires CanMake(w, s.db, l, n) && (done ==> stepped && n == |Effects(w, s.db.logs, l).value|)
    ensures Inv(w, s.(db := HandleIn(w, s.db, l, n, stepped, done)))
  {
    assert l.block < w.Start() || l in s.db.handled;
    AgainInOrder(w, s.db.handled, l);
    HandleKeepsDb(w, s.db, l, n, stepped, done);
    GrowthOk(w, s, HandleIn(w, s.db, l, n, stepped, done));
  }

  lemma RewriteOk(w: World, s: State, c: Cursor)
    requires ValidWorld(w) && Inv(w, s)
    requires c in s.db.sent || c == Cursor(FirstBlock(w), FirstBlock(w))
    ensures Inv(w, s.(db := WriteRow(s.db, c)))
  {
    WriteKeepsDb(w, s.db, c);
    GrowthOk(w, s, WriteRow(s.db, c));
  }
}
