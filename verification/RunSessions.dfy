/** In a run without manual steps whose heads do not fall, the calls that reach the validators table
    are sessions: each goes through a stretch of the chain without a gap, and none starts beyond the
    point where the previous one stopped. */
module RunSessions {
  import opened Entities
  import opened Sequences
  import opened BlockRanges
  import opened LogOrder
  import opened Chains
  import opened LogsTable
  import opened Handlers
  import opened Queues
  import opened Pipeline
  import opened PipelineInvariant
  import opened PipelineSteps
  import opened PipelineSafety
  import opened PipelineRuns
  import opened ValidatorReplays
  import opened ValidatorSides

  /** Nobody reprocesses by hand or writes back an old row, no statement of a dead process lands late,
      and no head is below the last one this process has scheduled. */
  predicate Steady(w: World, s: State, a: Action) {
    && !a.Reprocess? && !a.Rewrite?
    && (a.Poll? ==> s.start + w.Cfg().confirmations <= a.head + 1)
  }

  ghost predicate SteadyRun(w: World, acts: seq<Action>, s: State)
    requires w.Start() >= 1 && w.Cfg().maxRange >= 1
  {
    if acts == [] then s == Boot(w, EMPTY_DB)
    else
      var last := acts[|acts| - 1];
      exists p ::
        SteadyRun(w, acts[..|acts| - 1], p) && Enabled(w, p, last) && Steady(w, p, last) && s == Do(w, p, last)
  }

  lemma {:induction false} SteadyIsRun(w: World, acts: seq<Action>, s: State)
    requires w.Start() >= 1 && w.Cfg().maxRange >= 1 && SteadyRun(w, acts, s)
    ensures Run(w, acts, s)
  {
    if acts != [] {
      var before, last := acts[..|acts| - 1], acts[|acts| - 1];
      var p :| SteadyRun(w, before, p) && Enabled(w, p, last) && Steady(w, p, last) && s == Do(w, p, last);
      SteadyIsRun(w, before, p);
    }
  }

  // ---------- Queues that only move forward ----------

  /** Every batch with logs is of a block beyond those before it. */
  ghost predicate Forward(c: nat, q: seq<Batch>)
    decreases |q|
  {
    q == [] || ((q[0].logs != [] ==> q[0].block > c) && Forward(Max(c, q[0].block), q[1..]))
  }

  ghost predicate RangesForward(c: nat, rs: seq<Range>)
    decreases |rs|
  {
    rs == [] || (rs[0].first > c && RangesForward(Max(c, rs[0].last), rs[1..]))
  }

  lemma {:induction false} ForwardAppend(c: nat, a: seq<Batch>, b: seq<Batch>)
    ensures Forward(c, a + b) <==> Forward(c, a) && Forward(Reach(c, a), b)
    decreases |a|
  {
    if a == [] {
      Empty(b);
    } else {
      SplitAppend(a, b, 1);
      ForwardAppend(Max(c, a[0].block), a[1..], b);
    }
  }

  lemma {:induction false} RangesForwardAppend(c: nat, a: seq<Range>, b: seq<Range>)
    ensures RangesForward(c, a + b) <==> RangesForward(c, a) && RangesForward(RangeReach(c, a), b)
    decreases |a|
  {
    if a == [] {
      Empty(b);
    } else {
      SplitAppend(a, b, 1);
      RangesForwardAppend(Max(c, a[0].last), a[1..], b);
    }
  }

  lemma {:induction false} ChunksForward(c: nat, first: nat, last: nat, size: nat)
    requires size >= 1 && first > c
    ensures RangesForward(c, Chunks(first, last, size))
    decreases last + 1 - first
  {
    if first <= last {
      var end := if first + size - 1 > last then last else first + size - 1;
      HeadTail(Range(first, end), Chunks(first + size, last, size));
      ChunksForward(Max(c, end), first + size, last, size);
    }
  }

  lemma {:induction false} AscendingForward(c: nat, q: seq<Batch>)
    requires Ascending(q) && forall b :: b in q ==> c < b.block
    ensures Forward(c, q)
    decreases |q|
  {
    if q != [] {
      AscendingRest(q);
      assert q[0] in q;
      AscendingForward(Max(c, q[0].block), q[1..]);
    }
  }

  /** What is submitted for a range beyond block c is beyond block c. */
  lemma SubmissionsForward(w: World, c: nat, r: Range)
    requires ValidChain(w) && c < r.first
    ensures Forward(c, Submissions(RangeLogs(w, r), r.last))
  {
    var hi := r.last + 1;
    var q := BlockBatches(w, r.first, hi);
    BatchesOfBlocks(w, r.first, hi);
    BlocksListed(w, r.first, hi);
    AscendingForward(c, q);
    var closing := [Batch(r.last, [])];
    assert closing[1..] == [];
    ForwardAppend(c, q, closing);
  }

  /** What is queued and scheduled lies beyond what is processed, and is in order. */
  ghost predicate Ahead(s: State) {
    var c := Reach(s.mem.processed, Queue(s));
    && Forward(s.mem.processed, Queue(s))
    && RangesForward(c, Ranges(s))
    && RangeReach(c, Ranges(s)) < s.start
  }

  lemma SameAhead(s: State, t: State)
    requires Ahead(s) && Queue(t) == Queue(s) && Ranges(t) == Ranges(s)
    requires t.start == s.start && t.mem.processed == s.mem.processed
    ensures Ahead(t)
  {}

  lemma PollAhead(w: World, s: State, head: nat)
    requires w.Cfg().maxRange >= 1 && Ahead(s) && s.pending == []
    requires w.Cfg().confirmations <= head && s.start + w.Cfg().confirmations <= head + 1
    ensures Ahead(Polled(w, s, head))
  {
    var t := Polled(w, s, head);
    var c := Reach(s.mem.processed, Queue(s));
    AppendPending(CurrentRange(s.fetcher), s.ranges, t.pending);
    assert Ranges(t) == Ranges(s) + t.pending && Queue(t) == Queue(s);
    RangesForwardAppend(c, Ranges(s), t.pending);
    ChunksForward(RangeReach(c, Ranges(s)), s.start, head - w.Cfg().confirmations, w.Cfg().maxRange);
    LinkedAppend(c, Ranges(s), t.pending);
    ChunksReach(RangeReach(c, Ranges(s)), s.start, head - w.Cfg().confirmations, w.Cfg().maxRange);
  }

  lemma {:induction false} ChunksReach(c: nat, first: nat, last: nat, size: nat)
    requires size >= 1
    ensures RangeReach(c, Chunks(first, last, size)) <= Max(c, last)
    decreases last + 1 - first
  {
    if first <= last {
      var end := if first + size - 1 > last then last else first + size - 1;
      HeadTail(Range(first, end), Chunks(first + size, last, size));
      ChunksReach(Max(c, end), first + size, last, size);
    }
  }

  lemma SubmitAhead(w: World, s: State, t: State, r: Range)
    requires ValidChain(w) && Ahead(s) && QueueOk(w, s)
    requires CurrentRange(s.fetcher) == [r] && Outbox(s.fetcher) == []
    requires t == s.(fetcher := Submitting(Submissions(RangeLogs(w, r), r.last)))
    ensures Ahead(t)
  {
    var p := s.mem.processed;
    var q, more := Queue(s), t.fetcher.outbox;
    SubmittedQueues(s, t, r);
    SubmissionsForward(w, Reach(p, q), r);
    SubmissionsFeed(w, Reach(p, q), r);
    ForwardAppend(p, q, more);
    FedAppend(w, p, q, more);
  }

  predicate Submits(s: State, a: Action) {
    || a.LoadSaved?
    || (a.RecordFetched? && s.fetcher.Saved? && s.fetcher.range.last < s.mem.fetched)
    || (a.FetcherWrite? && a.acknowledged)
  }

  lemma SubmitStepAhead(w: World, s: State, a: Action)
    requires ValidWorld(w) && Inv(w, s) && !s.cancelled && Ahead(s) && Enabled(w, s, a) && Submits(s, a)
    ensures Ahead(Do(w, s, a))
  {
    var t := Do(w, s, a);
    if a.LoadSaved? { RecoveryFinds(w, s.db, s.fetcher.range, s.mem.fetched); }
    SubmitAhead(w, s.(db := t.db), t, s.fetcher.range);
  }

  lemma FetcherAhead(w: World, s: State, a: Action)
    requires ValidWorld(w) && Inv(w, s) && !s.cancelled && Ahead(s) && Enabled(w, s, a) && Steady(w, s, a)
    requires ByFetcher(a)
    ensures Ahead(Do(w, s, a))
  {
    if Submits(s, a) { SubmitStepAhead(w, s, a); } else { MoveAhead(w, s, a); }
  }

  lemma MoveAhead(w: World, s: State, a: Action)
    requires w.Start() >= 1 && w.Cfg().maxRange >= 1 && Ahead(s) && Enabled(w, s, a) && Steady(w, s, a)
    requires ByFetcher(a) && !Submits(s, a)
    ensures Ahead(Do(w, s, a))
  {
    var t := Do(w, s, a);
    if a.Poll? {
      PollAhead(w, s, a.head);
    } else {
      if a.PushRange? { MoveHead(s.ranges, s.pending); }
      if a.TakeRange? { TakeHead(s.ranges, s.pending); }
      if a.PushBatch? {
        MoveHead(s.batches, s.fetcher.outbox);
        assert Outbox(t.fetcher) == s.fetcher.outbox[1..];
      }
      SameAhead(s, t);
    }
  }

  lemma RecordedAhead(w: World, s: State)
    requires Ahead(s) && s.processor.Working?
    ensures Ahead(ProcessedRecorded(s))
  {
    var t := ProcessedRecorded(s);
    var rest := s.batches + Outbox(s.fetcher);
    HeadTail(s.processor.batch, rest);
    Empty(rest);
    assert Queue(t) == Queue(s)[1..] && Ranges(t) == Ranges(s);
    assert Queue(s)[0] == s.processor.batch;
    assert t.mem.processed == Max(s.mem.processed, s.processor.batch.block);
  }

  lemma OthersAhead(w: World, s: State, a: Action)
    requires ValidWorld(w) && Inv(w, s) && Enabled(w, s, a) && Steady(w, s, a) && !ByFetcher(a) && !a.Restart?
    requires Ahead(s) && !s.cancelled && !a.Cancel?
    ensures Ahead(Do(w, s, a))
  {
    var t := Do(w, s, a);
    if a.TakeBatch? {
      TakeHead(s.batches, Outbox(s.fetcher));
      assert Queue(t) == Queue(s);
      SameAhead(s, t);
    } else if a.RecordProcessed? {
      RecordedAhead(w, s);
    } else {
      assert Queue(t) == Queue(s) && Ranges(t) == Ranges(s);
      SameAhead(s, t);
    }
  }

  lemma OneRangeAhead(s: State, r: Range)
    requires Queue(s) == [] && Ranges(s) == [r] && r == Range(s.mem.processed + 1, s.mem.fetched)
    requires s.start == s.mem.fetched + 1 && s.mem.processed <= s.mem.fetched
    ensures Ahead(s)
  {
    assert Ranges(s)[1..] == [];
  }

  lemma BootAhead(w: World, db: Db)
    requires ValidWorld(w) && (db.row.Some? ==> db.row.value.processed <= db.row.value.fetched)
    ensures Ahead(Boot(w, db))
  {
    var s := Boot(w, db);
    OneRangeAhead(s, Range(s.mem.processed + 1, s.mem.fetched));
  }

  // ---------- Positions ----------

  /** How many relevant logs there are from the start block up to, but without, block b. */
  function Upto(w: World, b: nat): nat { |Between(w, w.Start(), b)| }

  lemma UptoGrows(w: World, a: nat, b: nat)
    requires a <= b
    ensures Upto(w, a) <= Upto(w, b)
  {
    BetweenStart(w, a, b);
  }

  lemma UptoQuiet(w: World, lo: nat, hi: nat)
    requires ValidChain(w) && Quiet(w, lo, hi) && w.Start() <= lo + 1 <= hi
    ensures Upto(w, hi) == Upto(w, lo + 1)
  {
    BetweenMembers(w, lo + 1, hi);
    SomeMember(Between(w, lo + 1, hi));
    BetweenSplit(w, w.Start(), lo + 1, hi);
  }

  lemma UptoNext(w: World, b: nat, i: nat, n: nat)
    requires w.Start() <= b < n && i < |At(w, b)|
    ensures Upto(w, b + 1) == Upto(w, b) + |At(w, b)| <= Upto(w, n)
    ensures Between(w, w.Start(), n)[Upto(w, b) + i] == At(w, b)[i]
  {
    BetweenStart(w, b + 1, n);
    assert Between(w, w.Start(), b + 1)[Upto(w, b) + i] == At(w, b)[i];
  }

  /** No session starts beyond the point where the previous one stopped. */
  ghost predicate Chained(ss: seq<Session>) {
    ss == [] || (Chained(ss[..|ss| - 1]) && ss[|ss| - 1].first <= Position(ss[..|ss| - 1]))
  }

  /** The sessions go through the chain from the start block to block n, the last one attempted. */
  ghost predicate Describes(w: World, db: Db, n: nat, ss: seq<Session>) {
    var logs := Between(w, w.Start(), n);
    && Inside(ss, |logs|) && Chained(ss) && TraceOf(logs, ss) == db.steps
    && (n <= w.Start() || exists l :: l in db.attempted && l.block + 1 == n)
  }

  lemma {:induction false} TracePrefix(a: seq<Log>, b: seq<Log>, ss: seq<Session>)
    requires a <= b && Inside(ss, |a|)
    ensures Inside(ss, |b|) && TraceOf(b, ss) == TraceOf(a, ss)
  {
    if ss != [] {
      TracePrefix(a, b, ss[..|ss| - 1]);
      var last := ss[|ss| - 1];
      assert last in ss;
      assert b[last.first..last.next] == a[last.first..last.next];
    }
  }

  /** The sessions with one more call, at index g of the chain. */
  function WithCall(ss: seq<Session>, g: nat): seq<Session> {
    if ss != [] && Position(ss) == g then ss[..|ss| - 1] + [Session(ss[|ss| - 1].first, g + 1)]
    else ss + [Session(g, g + 1)]
  }

  lemma CallAdded(logs: seq<Log>, ss: seq<Session>, g: nat)
    requires Inside(ss, |logs|) && Chained(ss) && g < |logs| && g <= Position(ss)
    ensures var more := WithCall(ss, g);
      Inside(more, |logs|) && Chained(more) && Position(more) == g + 1
          && TraceOf(logs, more) == TraceOf(logs, ss) + [logs[g]]
  {
    var more := WithCall(ss, g);
    if ss != [] && Position(ss) == g {
      var before, last := ss[..|ss| - 1], ss[|ss| - 1];
      assert last in ss;
      assert more[..|more| - 1] == before;
      assert logs[last.first..g + 1] == logs[last.first..last.next] + [logs[g]];
    } else {
      assert more[..|more| - 1] == ss;
      assert logs[g..g + 1] == [logs[g]];
    }
  }

  function RowProcessed(w: World, db: Db): nat
    requires w.Start() >= 1
  {
    if db.row.Some? then db.row.value.processed else w.Start() - 1
  }

  predicate WriteBehind(write: Write, c: nat) {
    (write.Snapshot? || write.InFlight?) ==> write.c.processed <= c
  }

  /** Neither the row nor a write in progress is ahead of what is processed. */
  predicate Behind(w: World, s: State)
    requires w.Start() >= 1
  {
    && RowProcessed(w, s.db) <= s.mem.processed
    && (s.fetcher.RecordingFetched? ==> WriteBehind(s.fetcher.write, s.mem.processed))
    && (s.processor.RecordingProcessed? ==> WriteBehind(s.processor.write, s.mem.processed))
  }

  predicate SentUpto(w: World, write: Write, pos: nat) {
    write.InFlight? ==> Upto(w, write.c.processed + 1) <= pos
  }

  /** A restart, or the batch at hand, starts at or before this position. */
  predicate Covers(w: World, s: State, pos: nat)
    requires w.Start() >= 1
  {
    && Upto(w, RowProcessed(w, s.db) + 1) <= pos
    && (s.fetcher.RecordingFetched? ==> SentUpto(w, s.fetcher.write, pos))
    && (s.processor.RecordingProcessed? ==> SentUpto(w, s.processor.write, pos))
    && (!s.cancelled ==>
         && Upto(w, s.mem.processed + 1) <= pos
         && (s.processor.Working? && s.processor.batch.logs != [] ==>
              Upto(w, s.processor.batch.block) + s.processor.next <= pos))
  }

  ghost predicate Traced(w: World, s: State)
    requires w.Start() >= 1
  {
    && (!s.cancelled ==> Ahead(s) && Behind(w, s))
    && exists n, ss :: Describes(w, s.db, n, ss) && Covers(w, s, Position(ss))
  }

  /** A batch with logs is of a block beyond the processed one, with nothing in between. */
  lemma AtHand(w: World, s: State)
    requires ValidWorld(w) && Live(w, s) && Ahead(s) && s.processor.Working? && s.processor.batch.logs != []
    ensures var b := s.processor.batch;
      && b.logs == At(w, b.block) && s.mem.processed < b.block && w.Start() <= b.block
      && Upto(w, b.block) == Upto(w, s.mem.processed + 1)
  {
    var b := s.processor.batch;
    assert Queue(s)[0] == b;
    UptoQuiet(w, s.mem.processed, b.block);
  }

  lemma BehindIsCovered(w: World, s: State, pos: nat)
    requires w.Start() >= 1 && Behind(w, s) && Upto(w, s.mem.processed + 1) <= pos
    requires !s.cancelled && (s.processor.Working? && s.processor.batch.logs != [] ==>
               Upto(w, s.processor.batch.block) + s.processor.next <= pos)
    ensures Covers(w, s, pos)
  {
    UptoGrows(w, RowProcessed(w, s.db) + 1, s.mem.processed + 1);
    if s.fetcher.RecordingFetched? && s.fetcher.write.InFlight? {
      UptoGrows(w, s.fetcher.write.c.processed + 1, s.mem.processed + 1);
    }
    if s.processor.RecordingProcessed? && s.processor.write.InFlight? {
      UptoGrows(w, s.processor.write.c.processed + 1, s.mem.processed + 1);
    }
  }

  lemma LongerHistory(w: World, db: Db, n: nat, m: nat, ss: seq<Session>)
    requires n <= m && Inside(ss, Upto(w, n)) && TraceOf(Between(w, w.Start(), n), ss) == db.steps
    ensures Inside(ss, Upto(w, m)) && TraceOf(Between(w, w.Start(), m), ss) == db.steps
  {
    BetweenStart(w, n, m);
    TracePrefix(Between(w, w.Start(), n), Between(w, w.Start(), m), ss);
  }

  lemma CallDescribed(w: World, db: Db, m: nat, ss: seq<Session>, g: nat, l: Log, after: Db)
    requires Inside(ss, Upto(w, m)) && Chained(ss) && TraceOf(Between(w, w.Start(), m), ss) == db.steps
    requires g < Upto(w, m) && g <= Position(ss) && Between(w, w.Start(), m)[g] == l
    requires after.steps == db.steps + [l] && exists x :: x in after.attempted && x.block + 1 == m
    ensures Describes(w, after, m, WithCall(ss, g)) && Position(WithCall(ss, g)) == g + 1
  {
    CallAdded(Between(w, w.Start(), m), ss, g);
  }

  /** Where in the chain the log at hand is. */
  lemma CallPlace(w: World, s: State)
    requires ValidWorld(w) && Live(w, s) && Ahead(s) && Ready(s)
    ensures var b, i := s.processor.batch.block, s.processor.next;
      && w.Start() <= b && NextLog(s).block == b && i < |At(w, b)| && NextLog(s) == At(w, b)[i]
  {
    AtHand(w, s);
    AtMember(w, s.processor.batch.block, NextLog(s));
  }

  /** One more call of the log at hand. */
  lemma CallTraced(w: World, s: State, n: nat, ss: seq<Session>, db: Db) returns (m: nat, more: seq<Session>)
    requires ValidWorld(w) && Live(w, s) && !s.cancelled && Ahead(s) && Ready(s)
    requires Describes(w, s.db, n, ss) && Covers(w, s, Position(ss))
    requires db.steps == s.db.steps + [NextLog(s)] && db.attempted == s.db.attempted + {NextLog(s)}
    ensures Describes(w, db, m, more)
    ensures Position(more) == Upto(w, s.processor.batch.block) + s.processor.next + 1
  {
    CallPlace(w, s);
    m, more := CallAt(w, s.db, n, ss, s.processor.batch.block, s.processor.next, db);
  }

  /** One more call, of a log at or before the point where the last session stopped. */
  lemma CallAt(w: World, db: Db, n: nat, ss: seq<Session>, b: nat, i: nat, after: Db)
    returns (m: nat, more: seq<Session>)
    requires w.Start() <= b && i < |At(w, b)| && At(w, b)[i].block == b
    requires Describes(w, db, n, ss) && Upto(w, b) + i <= Position(ss)
    requires after.steps == db.steps + [At(w, b)[i]] && after.attempted == db.attempted + {At(w, b)[i]}
    ensures Describes(w, after, m, more) && Position(more) == Upto(w, b) + i + 1
  {
    m, more := Max(n, b + 1), WithCall(ss, Upto(w, b) + i);
    UptoNext(w, b, i, m);
    LongerHistory(w, db, n, m, ss);
    CallDescribed(w, db, m, ss, Upto(w, b) + i, At(w, b)[i], after);
  }
}
