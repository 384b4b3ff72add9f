/** Logs from before the start block: when the heads a node reports can make the pipeline handle
    them. */
module EarlyLogs {
  import opened Entities
  import opened Sequences
  import opened BlockRanges
  import opened Chains
  import opened LogsTable
  import opened Handlers
  import opened Queues
  import opened Pipeline
  import opened PipelineInvariant
  import opened PipelineSteps
  import opened PipelineSafety
  import opened PipelineRuns
  import opened Witnesses

  /** The first block that polls with heads from `low` on can schedule. */
  function Lowest(w: World, low: nat): nat
    requires w.Cfg().confirmations <= low
  {
    var b := low - w.Cfg().confirmations + 1;
    if b < w.Start() then b else w.Start()
  }

  ghost predicate LogsFrom(logs: seq<Log>, b: nat) { forall l :: l in logs ==> b <= l.block }

  ghost predicate RangesFrom(rs: seq<Range>, b: nat) { forall r :: r in rs ==> b <= r.first }

  ghost predicate BatchesFromBlock(q: seq<Batch>, b: nat) { forall x :: x in q ==> LogsFrom(x.logs, b) }

  ghost predicate FetcherFrom(f: Fetcher, b: nat) {
    match f
    case Loading(r) => b <= r.first
    case FetcherIdle => true
    case Fetching(r) => b <= r.first
    case Saved(r, logs) => b <= r.first && LogsFrom(logs, b)
    case RecordingFetched(r, logs, _) => b <= r.first && LogsFrom(logs, b)
    case Submitting(outbox) => BatchesFromBlock(outbox, b)
  }

  /** Nothing scheduled, fetched, queued or handled is from before block b. */
  ghost predicate AllFrom(s: State, b: nat) {
    && b <= s.start && RangesFrom(s.pending, b) && RangesFrom(s.ranges, b)
    && FetcherFrom(s.fetcher, b) && BatchesFromBlock(s.batches, b)
    && (s.processor.Working? ==> LogsFrom(s.processor.batch.logs, b))
    && forall l :: l in s.db.attempted ==> b <= l.block
  }

  lemma SubmissionsFrom(logs: seq<Log>, endBlock: nat, b: nat)
    requires LogsFrom(logs, b)
    ensures BatchesFromBlock(Submissions(logs, endBlock), b)
  {
    forall x, l | x in Submissions(logs, endBlock) && l in x.logs ensures b <= l.block {
      SubmittedLogs(logs, endBlock, x, l);
    }
  }

  lemma FoundFrom(w: World, db: Db, r: Range, b: nat)
    requires UniqueRefs(db.logs) && b <= r.first
    ensures LogsFrom(Find(db.logs, UnprocessedFilter(w, r)), b)
  {
    SortedIs(Select(db.logs, UnprocessedFilter(w, r)));
  }

  lemma FetcherStepsFrom(w: World, low: nat, s: State, a: Action)
    requires ValidWorld(w) && w.Cfg().confirmations <= low
    requires AllFrom(s, Lowest(w, low)) && Enabled(w, s, a) && HeadFrom(w, a, low) && ByFetcher(a)
    ensures AllFrom(Do(w, s, a), Lowest(w, low))
  {
    var b := Lowest(w, low);
    match a
    case Poll(head) => ChunksInside(s.start, head - w.Cfg().confirmations, w.Cfg().maxRange);
    case LoadSaved(found) =>
      FoundFrom(w, s.db, s.fetcher.range, b);
      SubmissionsFrom(found, s.fetcher.range.last, b);
    case SaveLogs(_) => BetweenMembers(w, s.fetcher.range.first, s.fetcher.range.last + 1);
    case RecordFetched => SubmissionsFrom(s.fetcher.logs, s.fetcher.range.last, b);
    case FetcherWrite(_, _) => SubmissionsFrom(s.fetcher.logs, s.fetcher.range.last, b);
    case _ =>
  }

  lemma ProcessorStepsFrom(w: World, low: nat, s: State, a: Action)
    requires ValidWorld(w) && w.Cfg().confirmations <= low
    requires AllFrom(s, Lowest(w, low)) && Enabled(w, s, a) && ByProcessor(a)
    ensures AllFrom(Do(w, s, a), Lowest(w, low))
  {}

  lemma OtherStepsFrom(w: World, low: nat, s: State, a: Action)
    requires ValidWorld(w) && w.Cfg().confirmations <= low && DbOk(w, s.db)
    requires AllFrom(s, Lowest(w, low)) && Enabled(w, s, a) && HeadFrom(w, a, low) && !ByFetcher(a) && !ByProcessor(a)
    ensures AllFrom(Do(w, s, a), Lowest(w, low))
  {}

  /** Whether a handler can do its work does not depend on what is saved. */
  lemma SameSuccess(w: World, t: set<Log>, u: set<Log>, l: Log)
    requires UniqueRefs(t) && UniqueRefs(u)
    ensures Effects(w, t, l).Ok? <==> Effects(w, u, l).Ok?
  {}

  /** The pipeline can get into block k: the handler of its first relevant log succeeds. */
  ghost predicate Enterable(w: World, k: nat)
    requires ValidChain(w)
  {
    At(w, k) != [] && ChainEffects(w, At(w, k)[0]).Ok?
  }

  /** A block is entered by its first log. */
  ghost predicate Entered(w: World, db: Db)
    requires ValidChain(w)
  {
    forall l :: l in db.attempted && l.block < w.Start() ==> Enterable(w, l.block)
  }

  lemma NextEnters(w: World, s: State)
    requires ValidWorld(w) && Inv(w, s) && !s.cancelled && Ready(s) && Entered(w, s.db)
    requires Effects(w, s.db.logs, NextLog(s)).Ok? && NextLog(s).block < w.Start()
    ensures Enterable(w, NextLog(s).block)
  {
    var b := s.processor.batch;
    var l := NextLog(s);
    assert Queue(s)[0] == b;
    assert b.logs == At(w, b.block);
    AtMember(w, b.block, l);
    AtMember(w, b.block, b.logs[0]);
    if s.processor.next == 0 {
      BlockTableUnique(w, b.block);
      SameSuccess(w, s.db.logs, BlockTable(w, b.block), l);
    } else {
      assert b.logs[0] in s.db.attempted;
    }
  }

  lemma HandleEnters(w: World, s: State, a: Action)
    requires ValidWorld(w) && Inv(w, s) && Entered(w, s.db) && Enabled(w, s, a) && (a.Handle? || a.HandleFails?)
    ensures Entered(w, Do(w, s, a).db)
  {
    if NextLog(s).block < w.Start() && Effects(w, s.db.logs, NextLog(s)).Ok? { NextEnters(w, s); }
  }

  lemma StepEnters(w: World, s: State, a: Action)
    requires ValidWorld(w) && Inv(w, s) && Entered(w, s.db) && Enabled(w, s, a) && HeadFrom(w, a, 0)
    ensures Entered(w, Do(w, s, a).db)
  {
    if a.Handle? || a.HandleFails? {
      HandleEnters(w, s, a);
    } else {
      SameAttempts(w, s, a);
    }
  }

  lemma SameAttempts(w: World, s: State, a: Action)
    requires w.Start() >= 1 && w.Cfg().maxRange >= 1 && Enabled(w, s, a) && HeadFrom(w, a, 0)
    requires !a.Handle? && !a.HandleFails?
    ensures forall l :: l in Do(w, s, a).db.attempted ==> l in s.db.attempted || w.Start() <= l.block
  {}

  lemma {:induction false} RunFrom(w: World, low: nat, acts: seq<Action>, s: State)
    requires ValidWorld(w) && w.Cfg().confirmations <= low && Run(w, acts, s) && HeadsFrom(w, acts, low)
    ensures AllFrom(s, Lowest(w, low)) && Entered(w, s.db)
  {
    if acts != [] {
      var before, last := acts[..|acts| - 1], acts[|acts| - 1];
      var p :| Run(w, before, p) && Enabled(w, p, last) && s == Do(w, p, last);
      RunOk(w, before, p);
      RunFrom(w, low, before, p);
      assert HeadFrom(w, last, low) && HeadFrom(w, last, 0);
      StepEnters(w, p, last);
      if ByFetcher(last) {
        FetcherStepsFrom(w, low, p, last);
      } else if ByProcessor(last) {
        ProcessorStepsFrom(w, low, p, last);
      } else {
        OtherStepsFrom(w, low, p, last);
      }
    }
  }

  /** Heads that leave the confirmed block at or above the one before the start block: nothing from
      before the start block is ever handled. */
  predicate HeadsStay(w: World, acts: seq<Action>)
    requires w.Start() >= 1
  {
    HeadsFrom(w, acts, w.Start() + w.Cfg().confirmations - 1)
  }

  lemma NothingEarly(w: World, acts: seq<Action>, s: State)
    requires ValidWorld(w) && Run(w, acts, s) && HeadsStay(w, acts)
    ensures forall l :: l in s.db.attempted ==> w.Start() <= l.block
  {
    RunFrom(w, w.Start() + w.Cfg().confirmations - 1, acts, s);
  }

  /** A head that falls to the one before block k, and the next one, schedule block k. */
  lemma EarlyBlockScheduled(w: World, low: nat, k: nat) returns (s: State)
    requires ValidWorld(w) && 1 <= k < w.Start() && low + 1 == w.Cfg().confirmations + k < MAX_UINT32
    ensures ReachableAlone(w, low, s) && s.processor == ProcessorIdle && !s.cancelled
    ensures s.batches == [Batch(s.mem.processed, [])] && s.db == EMPTY_DB
    ensures s.fetcher == FetcherIdle && s.ranges == [] && s.pending == [Range(k, k)]
  {
    var p := Started(w, low);
    var q := PolledNone(w, low, p, k);
    s := PolledOne(w, low, q, k);
  }

  lemma EarlyBlockFetched(w: World, low: nat, k: nat) returns (s: State)
    requires ValidWorld(w) && 1 <= k < w.Start() && low + 1 == w.Cfg().confirmations + k < MAX_UINT32
    ensures ReachableAlone(w, low, s) && s.processor == ProcessorIdle && !s.cancelled
    ensures s.batches == [Batch(s.mem.processed, []), Batch(k, At(w, k))] && s.db.logs == {} + AsSet(At(w, k))
  {
    var p := EarlyBlockScheduled(w, low, k);
    s := FetchedBlock(w, low, p, k);
  }

  /** Two polls are enough to get into a block before the start block. */
  lemma EarlyBlockEntered(w: World, k: nat) returns (s: State)
    requires ValidWorld(w) && 1 <= k < w.Start() && Enterable(w, k) && w.Cfg().confirmations + k < MAX_UINT32
    ensures ReachableAlone(w, w.Cfg().confirmations + k - 1, s) && At(w, k)[0] in s.db.handled
  {
    var low := w.Cfg().confirmations + k - 1;
    s := EarlyBlockFetched(w, low, k);
    s := EmptyProcessed(w, low, s);
    s := Go(w, low, s, TakeBatch);
    s := EntryHandled(w, low, s, k);
  }

  lemma EntryHandled(w: World, low: nat, p: State, k: nat) returns (s: State)
    requires ValidWorld(w) && Enterable(w, k) && ReachableAlone(w, low, p) && !p.cancelled
    requires p.processor == Working(Batch(k, At(w, k)), 0, false) && p.db.logs == {} + AsSet(At(w, k))
    ensures ReachableAlone(w, low, s) && At(w, k)[0] in s.db.handled
  {
    UniqueAt(w, k, p.db.logs);
    BlockTableUnique(w, k);
    AtMember(w, k, At(w, k)[0]);
    SameSuccess(w, p.db.logs, BlockTable(w, k), At(w, k)[0]);
    s := Go(w, low, p, Handle);
  }

  lemma UniqueAt(w: World, k: nat, logs: set<Log>)
    requires ValidChain(w) && logs == {} + AsSet(At(w, k))
    ensures UniqueRefs(logs)
  {
    BlockTableUnique(w, k);
    assert logs == BlockTable(w, k);
  }

  /** No run whose heads are at or above `low` handles a log from before the start block, exactly when
      no block in reach of such heads and before the start block can be entered. */
  lemma EarlyLogsExactly(w: World, low: nat)
    requires ValidWorld(w) && w.Cfg().confirmations <= low && w.Start() + w.Cfg().confirmations < MAX_UINT32
    ensures (forall s :: ReachableFrom(w, low, s) ==> forall l :: l in s.db.attempted ==> w.Start() <= l.block)
      <==> (forall k :: low - w.Cfg().confirmations < k < w.Start() ==> !Enterable(w, k))
  {
    if k :| low - w.Cfg().confirmations < k < w.Start() && Enterable(w, k) {
      var s := EarlyBlockEntered(w, k);
      AloneIsFrom(w, low, w.Cfg().confirmations + k - 1, s);
      AtMember(w, k, At(w, k)[0]);
      AloneKeepsInv(w, w.Cfg().confirmations + k - 1, s);
    } else {
      forall s, l | ReachableFrom(w, low, s) && l in s.db.attempted ensures w.Start() <= l.block {
        var acts :| Run(w, acts, s) && HeadsFrom(w, acts, low);
        RunFrom(w, low, acts, s);
      }
    }
  }
}
