/** The pipeline stays behind the chain: nothing above the last confirmed block is handled or recorded. */
module ConfirmedBlocks {
  import opened Entities
  import opened BlockRanges
  import opened LogOrder
  import opened Chains
  import opened LogsTable
  import opened Handlers
  import opened Pipeline
  import opened PipelineInvariant
  import opened PipelineSafety
  import opened PipelineRuns

  /** No head above `top` is reported. */
  predicate HeadsUpto(acts: seq<Action>, top: nat) { forall a :: a in acts ==> HeadUpto(a, top) }

  predicate HeadUpto(a: Action, top: nat) { a.Poll? ==> a.head <= top }

  /** The last block that heads up to `top` confirm, or the one before the start block. */
  function Highest(w: World, top: nat): nat
    requires w.Start() >= 1
  {
    Max(w.Start() - 1, if w.Cfg().confirmations <= top then top - w.Cfg().confirmations else 0)
  }

  ghost predicate LogsUpto(logs: seq<Log>, h: nat) { forall l :: l in logs ==> l.block <= h }

  ghost predicate RangesUpto(rs: seq<Range>, h: nat) { forall r :: r in rs ==> r.last <= h }

  ghost predicate BatchesUpto(q: seq<Batch>, h: nat) { forall x :: x in q ==> x.block <= h && LogsUpto(x.logs, h) }

  predicate CursorUpto(c: Cursor, h: nat) { c.fetched <= h && c.processed <= h }

  predicate WriteUpto(write: Write, h: nat) {
    match write
    case ReadFetched => true
    case ReadProcessed(fetched) => fetched <= h
    case Snapshot(c) => CursorUpto(c, h)
    case InFlight(c) => CursorUpto(c, h)
  }

  ghost predicate FetcherUpto(f: Fetcher, h: nat) {
    match f
    case Loading(r) => r.last <= h
    case FetcherIdle => true
    case Fetching(r) => r.last <= h
    case Saved(r, logs) => r.last <= h && LogsUpto(logs, h)
    case RecordingFetched(r, logs, write) => r.last <= h && LogsUpto(logs, h) && WriteUpto(write, h)
    case Submitting(outbox) => BatchesUpto(outbox, h)
  }

  ghost predicate ProcessorUpto(p: Processor, h: nat) {
    match p
    case ProcessorIdle => true
    case Working(batch, _, _) => batch.block <= h && LogsUpto(batch.logs, h)
    case RecordingProcessed(block, write) => block <= h && WriteUpto(write, h)
  }

  ghost predicate DbUpto(db: Db, h: nat) {
    && (db.row.Some? ==> CursorUpto(db.row.value, h))
    && (forall c :: c in db.written || c in db.sent ==> CursorUpto(c, h))
    && (forall l :: l in db.attempted ==> l.block <= h)
  }

  /** Nothing scheduled, fetched, queued, handled or recorded is above block h. */
  ghost predicate AllUpto(s: State, h: nat) {
    && DbUpto(s.db, h) && CursorUpto(s.mem, h) && RangesUpto(s.pending, h) && RangesUpto(s.ranges, h)
    && FetcherUpto(s.fetcher, h) && BatchesUpto(s.batches, h) && ProcessorUpto(s.processor, h)
  }

  lemma {:induction false} BatchesFromUpto(logs: seq<Log>, start: nat, h: nat)
    requires start <= |logs| && LogsUpto(logs, h)
    ensures BatchesUpto(BatchesFrom(logs, start), h)
    decreases |logs| - start
  {
    if start < |logs| { BatchesFromUpto(logs, RunEnd(logs, start, start + 1), h); }
  }

  lemma SubmissionsUpto(logs: seq<Log>, endBlock: nat, h: nat)
    requires LogsUpto(logs, h) && endBlock <= h
    ensures BatchesUpto(Submissions(logs, endBlock), h)
  {
    BatchesFromUpto(logs, 0, h);
  }

  lemma FoundUpto(w: World, db: Db, r: Range, h: nat)
    requires UniqueRefs(db.logs) && r.last <= h
    ensures LogsUpto(Find(db.logs, UnprocessedFilter(w, r)), h)
  {
    SortedIs(Select(db.logs, UnprocessedFilter(w, r)));
  }

  lemma SubmittingUpto(w: World, s: State, a: Action, h: nat)
    requires ValidWorld(w) && AllUpto(s, h) && Enabled(w, s, a)
    requires a.LoadSaved? || a.RecordFetched? || a.FetcherWrite?
    ensures AllUpto(Do(w, s, a), h)
  {
    if a.LoadSaved? {
      FoundUpto(w, s.db, s.fetcher.range, h);
      SubmissionsUpto(a.found, s.fetcher.range.last, h);
    } else {
      SubmissionsUpto(s.fetcher.logs, s.fetcher.range.last, h);
    }
  }

  lemma FetchingUpto(w: World, s: State, a: Action, h: nat)
    requires ValidWorld(w) && AllUpto(s, h) && Enabled(w, s, a)
    requires a.PushRange? || a.TakeRange? || a.SaveLogs? || a.FetcherStep? || a.PushBatch?
    ensures AllUpto(Do(w, s, a), h)
  {
    if a.SaveLogs? { BetweenMembers(w, s.fetcher.range.first, s.fetcher.range.last + 1); }
  }

  lemma FetcherStepsUpto(w: World, top: nat, s: State, a: Action)
    requires ValidWorld(w) && AllUpto(s, Highest(w, top)) && Enabled(w, s, a) && HeadUpto(a, top) && ByFetcher(a)
    ensures AllUpto(Do(w, s, a), Highest(w, top))
  {
    if a.Poll? {
      ChunksInside(s.start, a.head - w.Cfg().confirmations, w.Cfg().maxRange);
    } else if a.LoadSaved? || a.RecordFetched? || a.FetcherWrite? {
      SubmittingUpto(w, s, a, Highest(w, top));
    } else {
      FetchingUpto(w, s, a, Highest(w, top));
    }
  }

  lemma ProcessorStepsUpto(w: World, s: State, a: Action, h: nat)
    requires ValidWorld(w) && AllUpto(s, h) && Enabled(w, s, a) && ByProcessor(a)
    ensures AllUpto(Do(w, s, a), h)
  {}

  lemma OtherStepsUpto(w: World, s: State, a: Action, h: nat)
    requires ValidWorld(w) && w.Start() <= h + 1 && AllUpto(s, h)
    requires Enabled(w, s, a) && !ByFetcher(a) && !ByProcessor(a)
    ensures AllUpto(Do(w, s, a), h)
  {}

  lemma {:induction false} RunUpto(w: World, top: nat, acts: seq<Action>, s: State)
    requires ValidWorld(w) && Run(w, acts, s) && HeadsUpto(acts, top)
    ensures AllUpto(s, Highest(w, top))
  {
    if acts != [] {
      var before, last := acts[..|acts| - 1], acts[|acts| - 1];
      var p :| Run(w, before, p) && Enabled(w, p, last) && s == Do(w, p, last);
      RunUpto(w, top, before, p);
      assert HeadUpto(last, top);
      if ByFetcher(last) {
        FetcherStepsUpto(w, top, p, last);
      } else if ByProcessor(last) {
        ProcessorStepsUpto(w, p, last, Highest(w, top));
      } else {
        OtherStepsUpto(w, p, last, Highest(w, top));
      }
    }
  }

  /** In every run, whatever its crashes, failures and manual steps: a log from the start block on is
      handled, and a block from there on is recorded as fetched or processed, only under a head that is
      the required number of confirmations above it. */
  lemma OnlyConfirmedBlocks(w: World, top: nat, acts: seq<Action>, s: State)
    requires ValidWorld(w) && Run(w, acts, s) && (forall a :: a in acts && a.Poll? ==> a.head <= top)
    ensures forall l :: l in s.db.attempted && w.Start() <= l.block ==> l.block + w.Cfg().confirmations <= top
    ensures forall c :: c in s.db.written && w.Start() <= c.fetched ==> c.fetched + w.Cfg().confirmations <= top
    ensures forall c :: c in s.db.written && w.Start() <= c.processed ==> c.processed + w.Cfg().confirmations <= top
  {
    RunUpto(w, top, acts, s);
  }
}
