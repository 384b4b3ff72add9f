/** Manual reprocessing of a block range (ProcessBlockRange of monitor/contract_monitor.go): a feeder,
    a logs fetcher and a logs processor run side by side, and the main loop tells from the lengths of
    the two channels when all is done. A nil in a channel is None. Attempts that fail are repeated
    and change nothing here. */
module Reprocessing {
  import opened Entities
  import opened Sequences
  import opened BlockRanges
  import opened Chains
  import opened Queues
  import opened Pipeline

  datatype Feeder = Feeding(rest: seq<Range>) | Closed
  datatype RangeWorker = RangeIdle | OnRange(range: Range) | Pushing(outbox: seq<Batch>)
  datatype BatchWorker = BatchIdle | OnBatch(batch: Batch)
  datatype Loop = Watching | Closing | Finished

  /** `mem` is the cursor in memory, `row` the persisted one. */
  datatype Rerun = Rerun(mem: Cursor, row: Option<Cursor>, ranges: seq<Option<Range>>,
                         batches: seq<Option<Batch>>, feeder: Feeder,
                         fetcher: RangeWorker, processor: BatchWorker, main: Loop, handled: seq<Log>)

  datatype Step =
    | Feed                  // the next chunk, or the closing nil, is queued
    | TakeRange
    | Fetch                 // the logs of the range are fetched and saved, the fetched block recorded
    | PushBatch
    | TakeBatch
    | Process               // the batch is handled, the processed block recorded
    | SeeNoRanges           // the main loop finds no range queued, and queues a closing nil batch
    | SeeNoBatches          // it finds no batch queued, and returns nil
    | OtherWrites(c: Cursor) // the monitor of the same contract, in another process, writes its cursor

  /** The call, made only up to the last processed block: a nil is queued, and all starts. */
  function Begin(w: World, c: Cursor, first: nat, last: nat): Rerun
    requires w.Cfg().maxRange >= 1 && last <= c.processed
  {
    Rerun(c, Some(c), [None], [], Feeding(Chunks(first, last, w.Cfg().maxRange)), RangeIdle, BatchIdle, Watching, [])
  }

  predicate CanStep(s: Rerun, a: Step) {
    match a
    case Feed => s.feeder.Feeding?
    case TakeRange => s.fetcher.RangeIdle? && s.ranges != []
    case Fetch => s.fetcher.OnRange?
    case PushBatch => s.fetcher.Pushing? && s.fetcher.outbox != []
    case TakeBatch => s.processor.BatchIdle? && s.batches != []
    case Process => s.processor.OnBatch?
    case SeeNoRanges => s.main.Watching? && s.ranges == []
    case SeeNoBatches => s.main.Closing? && s.batches == []
    case OtherWrites(_) => true
  }

  function AfterPush(rest: seq<Batch>): RangeWorker { if rest == [] then RangeIdle else Pushing(rest) }

  function Stepped(w: World, s: Rerun, a: Step): Rerun
    requires CanStep(s, a)
  {
    match a
    case Feed =>
      if s.feeder.rest == [] then s.(ranges := s.ranges + [None], feeder := Closed)
      else s.(ranges := s.ranges + [Some(s.feeder.rest[0])], feeder := Feeding(s.feeder.rest[1..]))
    case TakeRange =>
      var r := s.ranges[0];
      s.(ranges := s.ranges[1..], fetcher := if r.None? then RangeIdle else OnRange(r.value))
    case Fetch =>
      var r := s.fetcher.range;
      s.(mem := if r.last < s.mem.fetched then s.mem else s.mem.(fetched := r.last),
         row := if r.last < s.mem.fetched then s.row else Some(s.mem.(fetched := r.last)),
         fetcher := AfterPush(Submissions(Between(w, r.first, r.last + 1), r.last)))
    case PushBatch =>
      s.(batches := s.batches + [Some(s.fetcher.outbox[0])], fetcher := AfterPush(s.fetcher.outbox[1..]))
    case TakeBatch =>
      var b := s.batches[0];
      s.(batches := s.batches[1..], processor := if b.None? then BatchIdle else OnBatch(b.value))
    case Process =>
      var b := s.processor.batch;
      s.(mem := if b.block < s.mem.processed then s.mem else s.mem.(processed := b.block),
         row := if b.block < s.mem.processed then s.row else Some(s.mem.(processed := b.block)),
         handled := s.handled + b.logs, processor := BatchIdle)
    case SeeNoRanges => s.(main := Closing, batches := s.batches + [None])
    case SeeNoBatches => s.(main := Finished)
    case OtherWrites(c) => s.(row := Some(c))
  }

  /** A run of the call; in a patient one the main loop does not test the range channel before the
      closing nil is queued. */
  ghost predicate Reruns(w: World, c: Cursor, first: nat, last: nat, patient: bool, steps: seq<Step>, s: Rerun)
    requires w.Cfg().maxRange >= 1 && last <= c.processed
  {
    if steps == [] then s == Begin(w, c, first, last)
    else
      var a := steps[|steps| - 1];
      exists p :: Reruns(w, c, first, last, patient, steps[..|steps| - 1], p) && CanStep(p, a)
                  && (patient && a.SeeNoRanges? ==> p.feeder.Closed?) && s == Stepped(w, p, a)
  }

  // ---------- Invariant ----------

  /** The range is still to be fetched. */
  predicate ToFetch(s: Rerun, r: Range) {
    (s.feeder.Feeding? && r in s.feeder.rest) || Some(r) in s.ranges || s.fetcher == OnRange(r)
  }

  /** The batch is still to be handled. */
  predicate ToHandle(s: Rerun, b: Batch) {
    (s.fetcher.Pushing? && b in s.fetcher.outbox) || Some(b) in s.batches || s.processor == OnBatch(b)
  }

  ghost predicate Accounted(w: World, s: Rerun, l: Log) {
    l in s.handled || (exists b :: ToHandle(s, b) && l in b.logs)
    || exists r :: ToFetch(s, r) && r.first <= l.block <= r.last
  }

  /** No log of the call is lost, and neither cursor ever moves. */
  ghost predicate NothingLost(w: World, c: Cursor, first: nat, last: nat, s: Rerun) {
    && (forall l :: OnChain(w, l) && first <= l.block <= last ==> Accounted(w, s, l))
    && (forall r :: ToFetch(s, r) ==> first <= r.first <= r.last <= last)
    && (forall b :: ToHandle(s, b) ==> first <= b.block <= last)
    && s.mem == c
  }

  /** Once the closing nil is queued, an empty channel means an idle worker. */
  predicate Settled(s: Rerun) {
    && (s.feeder.Closed? ==>
         if s.ranges == [] then s.fetcher.RangeIdle? else s.ranges[|s.ranges| - 1].None?)
    && (!s.main.Watching? ==>
         && s.feeder.Closed? && s.ranges == []
         && if s.batches == [] then s.processor.BatchIdle? else s.batches[|s.batches| - 1].None?)
    && (s.main.Finished? ==> s.batches == [])
  }

  lemma SettledStep(w: World, s: Rerun, a: Step)
    requires Settled(s) && CanStep(s, a) && (a.SeeNoRanges? ==> s.feeder.Closed?)
    ensures Settled(Stepped(w, s, a))
  {}

  lemma BeginLosesNothing(w: World, c: Cursor, first: nat, last: nat)
    requires ValidWorld(w) && last <= c.processed
    ensures NothingLost(w, c, first, last, Begin(w, c, first, last))
  {
    var size := w.Cfg().maxRange;
    var s := Begin(w, c, first, last);
    ChunksPartition(first, last, size);
    ChunksInside(first, last, size);
    forall l | OnChain(w, l) && first <= l.block <= last ensures Accounted(w, s, l) {
      var r := ChunkOf(first, last, size, l.block);
      assert ToFetch(s, r);
    }
  }

  lemma {:induction false} ChunkOf(first: nat, last: nat, size: nat, b: nat) returns (r: Range)
    requires size >= 1 && first <= b <= last
    ensures r in Chunks(first, last, size) && r.first <= b <= r.last
    decreases last + 1 - first
  {
    if b < first + size {
      r := Chunks(first, last, size)[0];
    } else {
      r := ChunkOf(first + size, last, size, b);
    }
  }

  ghost predicate SameToFetch(s: Rerun, t: Rerun) { forall r :: ToFetch(t, r) <==> ToFetch(s, r) }

  ghost predicate SameToHandle(s: Rerun, t: Rerun) { forall b :: ToHandle(t, b) <==> ToHandle(s, b) }

  lemma SameWork(w: World, c: Cursor, first: nat, last: nat, s: Rerun, t: Rerun)
    requires NothingLost(w, c, first, last, s) && SameToFetch(s, t) && SameToHandle(s, t)
    requires t.mem == s.mem && t.handled == s.handled
    ensures NothingLost(w, c, first, last, t)
  {
    forall l | OnChain(w, l) && first <= l.block <= last ensures Accounted(w, t, l) {
      assert Accounted(w, s, l);
    }
  }

  lemma FirstOf<T>(a: seq<T>, x: T)
    requires a != []
    ensures x in a <==> x == a[0] || x in a[1..]
  {}

  lemma MovesKeep(w: World, s: Rerun, a: Step)
    requires CanStep(s, a)
    requires a.Feed? || a.TakeRange? || a.PushBatch? || a.TakeBatch? || a.SeeNoRanges? || a.SeeNoBatches?
      || a.OtherWrites?
    ensures SameToFetch(s, Stepped(w, s, a)) && SameToHandle(s, Stepped(w, s, a))
  {
    var t := Stepped(w, s, a);
    forall r ensures ToFetch(t, r) <==> ToFetch(s, r) {
      if a.Feed? && s.feeder.rest != [] { FirstOf(s.feeder.rest, r); }
      if a.TakeRange? { FirstOf(s.ranges, Some(r)); }
    }
    forall b ensures ToHandle(t, b) <==> ToHandle(s, b) {
      if a.PushBatch? { FirstOf(s.fetcher.outbox, b); }
      if a.TakeBatch? { FirstOf(s.batches, Some(b)); }
    }
  }

  lemma SubmittedFrom(w: World, r: Range)
    requires ValidChain(w) && r.first <= r.last
    ensures forall b :: b in Submissions(Between(w, r.first, r.last + 1), r.last) ==> r.first <= b.block
  {
    var q := BlockBatches(w, r.first, r.last + 1);
    BatchesOfBlocks(w, r.first, r.last + 1);
    forall b | b in q ensures r.first <= b.block { BlocksAre(w, r.first, r.last + 1, b); }
  }

  lemma FetchKeeps(w: World, c: Cursor, first: nat, last: nat, s: Rerun)
    requires ValidWorld(w) && last <= c.processed <= c.fetched
    requires NothingLost(w, c, first, last, s) && CanStep(s, Fetch)
    ensures NothingLost(w, c, first, last, Stepped(w, s, Fetch))
  {
    var r := s.fetcher.range;
    var t := Stepped(w, s, Fetch);
    var all := Between(w, r.first, r.last + 1);
    assert ToFetch(s, r);
    SubmissionsFeed(w, r.last, r);
    SubmissionsFlatten(all, r.last);
    forall l | OnChain(w, l) && first <= l.block <= last ensures Accounted(w, t, l) {
      assert Accounted(w, s, l);
      if r.first <= l.block <= r.last {
        BetweenMember(w, r.first, r.last + 1, l);
        var b := InFlatten(Submissions(all, r.last), l);
        assert ToHandle(t, b);
      } else if b :| ToHandle(s, b) && l in b.logs {
        assert ToHandle(t, b);
      } else if l !in s.handled {
        var q :| ToFetch(s, q) && q.first <= l.block <= q.last;
        assert ToFetch(t, q);
      }
    }
    forall q | ToFetch(t, q) ensures first <= q.first <= q.last <= last { assert ToFetch(s, q); }
    SubmittedFrom(w, r);
    forall b | ToHandle(t, b) ensures first <= b.block <= last {
      assert b in Submissions(all, r.last) || ToHandle(s, b);
    }
  }

  lemma ProcessKeeps(w: World, c: Cursor, first: nat, last: nat, s: Rerun)
    requires last <= c.processed && NothingLost(w, c, first, last, s) && CanStep(s, Process)
    ensures NothingLost(w, c, first, last, Stepped(w, s, Process))
  {
    var t := Stepped(w, s, Process);
    assert ToHandle(s, s.processor.batch);
    forall l | OnChain(w, l) && first <= l.block <= last ensures Accounted(w, t, l) {
      assert Accounted(w, s, l);
      if b :| ToHandle(s, b) && l in b.logs && b != s.processor.batch {
        assert ToHandle(t, b);
      } else if r :| ToFetch(s, r) && r.first <= l.block <= r.last {
        assert ToFetch(t, r);
      }
    }
    forall b | ToHandle(t, b) ensures first <= b.block <= last { assert ToHandle(s, b); }
    forall r | ToFetch(t, r) ensures first <= r.first <= r.last <= last { assert ToFetch(s, r); }
  }

  lemma {:induction false} RerunsOk(w: World, c: Cursor, first: nat, last: nat, patient: bool, steps: seq<Step>,
      s: Rerun)
    requires ValidWorld(w) && last <= c.processed <= c.fetched && Reruns(w, c, first, last, patient, steps, s)
    ensures NothingLost(w, c, first, last, s) && (patient ==> Settled(s))
  {
    if steps == [] {
      BeginLosesNothing(w, c, first, last);
    } else {
      var before, a := steps[..|steps| - 1], steps[|steps| - 1];
      var p :| Reruns(w, c, first, last, patient, before, p) && CanStep(p, a)
               && (patient && a.SeeNoRanges? ==> p.feeder.Closed?) && s == Stepped(w, p, a);
      RerunsOk(w, c, first, last, patient, before, p);
      if patient { SettledStep(w, p, a); }
      OneStepOk(w, c, first, last, p, a);
    }
  }

  lemma OneStepOk(w: World, c: Cursor, first: nat, last: nat, s: Rerun, a: Step)
    requires ValidWorld(w) && last <= c.processed <= c.fetched && NothingLost(w, c, first, last, s) && CanStep(s, a)
    ensures NothingLost(w, c, first, last, Stepped(w, s, a))
  {
    if a.Fetch? {
      FetchKeeps(w, c, first, last, s);
    } else if a.Process? {
      ProcessKeeps(w, c, first, last, s);
    } else {
      MovesKeep(w, s, a);
      SameWork(w, c, first, last, s, Stepped(w, s, a));
    }
  }

  /** In no run does a manual call move the cursor in memory; and if the closing nil is queued before the main
      loop tests the range channel, the call returns nil only when every relevant log of the range
      is handled. */
  lemma ReturnsWhenAllIsHandled(w: World, c: Cursor, first: nat, last: nat, patient: bool, steps: seq<Step>, s: Rerun)
    requires ValidWorld(w) && last <= c.processed <= c.fetched && Reruns(w, c, first, last, patient, steps, s)
    ensures s.mem == c
    ensures patient && s.main.Finished? ==>
      forall l :: OnChain(w, l) && first <= l.block <= last ==> l in s.handled
  {
    RerunsOk(w, c, first, last, patient, steps, s);
    if patient && s.main.Finished? {
      forall l | OnChain(w, l) && first <= l.block <= last ensures l in s.handled {
        assert Accounted(w, s, l);
      }
    }
  }

  // ---------- The persisted row ----------

  /** In no run of the call does one of its own steps change the row. */
  ghost predicate RowUntouched(w: World, c: Cursor, first: nat, last: nat)
    requires w.Cfg().maxRange >= 1 && last <= c.processed
  {
    forall steps, s, a :: Reruns(w, c, first, last, false, steps, s) && CanStep(s, a) && !a.OtherWrites?
      ==> Stepped(w, s, a).row == s.row
  }

  /** If the call changes the row at all, it writes back the cursor it started from, and only for a
      range that reaches the last processed block. */
  lemma RowOnlyWrittenBack(w: World, c: Cursor, first: nat, last: nat, patient: bool, steps: seq<Step>, s: Rerun,
      a: Step)
    requires ValidWorld(w) && last <= c.processed <= c.fetched && Reruns(w, c, first, last, patient, steps, s)
    requires CanStep(s, a) && !a.OtherWrites?
    ensures || Stepped(w, s, a).row == s.row
            || (first <= last == c.processed && Stepped(w, s, a).row == Some(c))
  {
    RerunsOk(w, c, first, last, patient, steps, s);
    WrittenBack(w, c, first, last, s, a);
  }

  lemma WrittenBack(w: World, c: Cursor, first: nat, last: nat, s: Rerun, a: Step)
    requires last <= c.processed <= c.fetched && NothingLost(w, c, first, last, s) && CanStep(s, a) && !a.OtherWrites?
    ensures Stepped(w, s, a).row == s.row || (first <= last == c.processed && Stepped(w, s, a).row == Some(c))
  {
    if a.Fetch? { assert ToFetch(s, s.fetcher.range); }
    if a.Process? { assert ToHandle(s, s.processor.batch); }
  }

  /** A run of the call reaches the state. */
  ghost predicate ReachedBy(w: World, c: Cursor, first: nat, last: nat, s: Rerun)
    requires w.Cfg().maxRange >= 1 && last <= c.processed
  {
    exists steps :: Reruns(w, c, first, last, false, steps, s)
  }

  lemma Move(w: World, c: Cursor, first: nat, last: nat, p: Rerun, a: Step) returns (s: Rerun)
    requires w.Cfg().maxRange >= 1 && last <= c.processed && ReachedBy(w, c, first, last, p) && CanStep(p, a)
    ensures s == Stepped(w, p, a) && ReachedBy(w, c, first, last, s)
  {
    var steps :| Reruns(w, c, first, last, false, steps, p);
    s := Stepped(w, p, a);
    var more := OneMore(w, c, first, last, steps, p, a);
  }

  /** Both workers are idle and nothing is queued. */
  predicate Idle(s: Rerun, c: Cursor) {
    s.mem == c && s.ranges == [] && s.batches == [] && s.fetcher == RangeIdle && s.processor == BatchIdle
  }

  /** The next batch of the outbox comes to hand. */
  lemma BatchComes(w: World, c: Cursor, first: nat, last: nat, p: Rerun) returns (s: Rerun)
    requires w.Cfg().maxRange >= 1 && last <= c.processed && ReachedBy(w, c, first, last, p)
    requires p.fetcher.Pushing? && p.fetcher.outbox != [] && p.batches == [] && p.processor == BatchIdle
    ensures ReachedBy(w, c, first, last, s)
    ensures s == p.(fetcher := AfterPush(p.fetcher.outbox[1..]), processor := OnBatch(p.fetcher.outbox[0]))
  {
    s := Move(w, c, first, last, p, Step.PushBatch);
    s := Move(w, c, first, last, s, Step.TakeBatch);
  }

  /** ... and is processed; the cursor in memory stays. */
  lemma BatchProcessed(w: World, c: Cursor, first: nat, last: nat, p: Rerun) returns (s: Rerun)
    requires ValidWorld(w) && last <= c.processed <= c.fetched && ReachedBy(w, c, first, last, p)
    requires p.processor.OnBatch? && p.mem == c
    ensures ReachedBy(w, c, first, last, s)
    ensures s == p.(row := s.row, handled := s.handled, processor := BatchIdle)
  {
    var steps :| Reruns(w, c, first, last, false, steps, p);
    RerunsOk(w, c, first, last, false, steps, p);
    assert ToHandle(p, p.processor.batch);
    s := Move(w, c, first, last, p, Process);
  }

  /** The outbox is processed up to its last batch, which is left at hand. */
  lemma {:induction false} LastBatchComes(w: World, c: Cursor, first: nat, last: nat, p: Rerun, q: seq<Batch>)
      returns (s: Rerun)
    requires ValidWorld(w) && last <= c.processed <= c.fetched && ReachedBy(w, c, first, last, p) && q != []
    requires p.mem == c && p.fetcher == Pushing(q) && p.batches == [] && p.processor == BatchIdle
    ensures ReachedBy(w, c, first, last, s)
    ensures s == p.(row := s.row, handled := s.handled, fetcher := RangeIdle, processor := OnBatch(q[|q| - 1]))
    decreases |q|
  {
    s := BatchComes(w, c, first, last, p);
    if |q| > 1 {
      s := BatchProcessed(w, c, first, last, s);
      s := LastBatchComes(w, c, first, last, s, q[1..]);
    } else {
      assert q[1..] == [];
    }
  }

  /** The last batch submitted for a range is of its last block. */
  lemma LastSubmitted(w: World, r: Range)
    requires ValidChain(w) && r.first <= r.last
    ensures var q := Submissions(Between(w, r.first, r.last + 1), r.last);
      q != [] && q[|q| - 1].block == r.last
  {
    SubmissionsFeed(w, r.last, r);
    var q := Submissions(Between(w, r.first, r.last + 1), r.last);
    assert q[|q| - 1] in q;
  }

  /** The next chunk is queued, fetched and processed up to its last batch, which is left at hand. */
  lemma ChunkComes(w: World, c: Cursor, first: nat, last: nat, p: Rerun) returns (s: Rerun)
    requires ValidWorld(w) && last <= c.processed <= c.fetched && ReachedBy(w, c, first, last, p) && Idle(p, c)
    requires p.feeder.Feeding? && p.feeder.rest != []
    ensures ReachedBy(w, c, first, last, s) && s.processor.OnBatch?
    ensures s.processor.batch.block == p.feeder.rest[0].last
    ensures s == p.(row := s.row, handled := s.handled, processor := s.processor, feeder := Feeding(p.feeder.rest[1..]))
  {
    var r := p.feeder.rest[0];
    var steps :| Reruns(w, c, first, last, false, steps, p);
    RerunsOk(w, c, first, last, false, steps, p);
    assert ToFetch(p, r);
    LastSubmitted(w, r);
    s := Move(w, c, first, last, p, Feed);
    s := Move(w, c, first, last, s, Step.TakeRange);
    s := Move(w, c, first, last, s, Fetch);
    s := LastBatchComes(w, c, first, last, s, Submissions(Between(w, r.first, r.last + 1), r.last));
  }

  /** All chunks are processed up to the last batch of the last one, which is left at hand. */
  lemma {:induction false} LastChunkComes(w: World, c: Cursor, first: nat, last: nat, p: Rerun, rs: seq<Range>)
      returns (s: Rerun)
    requires ValidWorld(w) && last <= c.processed <= c.fetched && ReachedBy(w, c, first, last, p) && Idle(p, c)
    requires p.feeder == Feeding(rs) && rs != []
    ensures ReachedBy(w, c, first, last, s) && s.mem == c
    ensures s.processor.OnBatch? && s.processor.batch.block == rs[|rs| - 1].last
    decreases |rs|
  {
    s := ChunkComes(w, c, first, last, p);
    if |rs| > 1 {
      s := BatchProcessed(w, c, first, last, s);
      s := LastChunkComes(w, c, first, last, s, rs[1..]);
    }
  }

  /** A call up to the last processed block can overwrite a newer cursor that the monitor has written
      meanwhile: the row moves back to the one the call started from. */
  lemma RowMovesBack(w: World, c: Cursor, first: nat, newer: Cursor) returns (s: Rerun)
    requires ValidWorld(w) && first <= c.processed <= c.fetched
    ensures ReachedBy(w, c, first, c.processed, s) && CanStep(s, Process)
    ensures s.row == Some(newer) && Stepped(w, s, Process).row == Some(c)
  {
    var last := c.processed;
    s := Begin(w, c, first, last);
    assert Reruns(w, c, first, last, false, [], s);
    s := Move(w, c, first, last, s, Step.TakeRange);
    ChunksPartition(first, last, w.Cfg().maxRange);
    s := LastChunkComes(w, c, first, last, s, Chunks(first, last, w.Cfg().maxRange));
    s := Move(w, c, first, last, s, OtherWrites(newer));
  }

  /** A manual call leaves the persisted row alone exactly when its range ends before the last processed
      block of the cursor it started from, or is empty. */
  lemma RowUntouchedExactly(w: World, c: Cursor, first: nat, last: nat)
    requires ValidWorld(w) && last <= c.processed <= c.fetched
    ensures RowUntouched(w, c, first, last) <==> last < c.processed || first > last
  {
    if last < c.processed || first > last {
      forall steps, s, a | Reruns(w, c, first, last, false, steps, s) && CanStep(s, a) && !a.OtherWrites?
        ensures Stepped(w, s, a).row == s.row
      {
        RowOnlyWrittenBack(w, c, first, last, false, steps, s, a);
      }
    } else {
      var s := RowMovesBack(w, c, first, c.(fetched := c.fetched + 1));
      var steps :| Reruns(w, c, first, last, false, steps, s);
      assert Stepped(w, s, Process).row != s.row;
    }
  }

  lemma OneMore(w: World, c: Cursor, first: nat, last: nat, steps: seq<Step>, p: Rerun, a: Step)
      returns (more: seq<Step>)
    requires w.Cfg().maxRange >= 1 && last <= c.processed && Reruns(w, c, first, last, false, steps, p) && CanStep(p, a)
    ensures more == steps + [a] && Reruns(w, c, first, last, false, more, Stepped(w, p, a))
  {
    more := steps + [a];
    assert more[..|more| - 1] == steps;
  }

  /** Otherwise it may return nil at once: the logs fetcher takes the first nil before the feeder
      queues any range, and the main loop mistakes the empty channel for the end. */
  lemma MayReturnAtOnce(w: World, c: Cursor, first: nat, last: nat) returns (steps: seq<Step>, s: Rerun)
    requires w.Cfg().maxRange >= 1 && last <= c.processed
    ensures Reruns(w, c, first, last, false, steps, s) && s.main.Finished? && s.handled == []
  {
    var a := Begin(w, c, first, last);
    steps := [];
    steps := OneMore(w, c, first, last, steps, a, Step.TakeRange);
    var b := Stepped(w, a, Step.TakeRange);
    steps := OneMore(w, c, first, last, steps, b, SeeNoRanges);
    var d := Stepped(w, b, SeeNoRanges);
    steps := OneMore(w, c, first, last, steps, d, Step.TakeBatch);
    var e := Stepped(w, d, Step.TakeBatch);
    steps := OneMore(w, c, first, last, steps, e, SeeNoBatches);
    s := Stepped(w, e, SeeNoBatches);
  }
}
