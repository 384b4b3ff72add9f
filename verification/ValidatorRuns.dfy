/** What the validators table holds after runs of the pipeline. */
module ValidatorRuns {
  import opened Entities
  import opened Sequences
  import opened BlockRanges
  import opened Chains
  import opened LogsTable
  import opened Handlers
  import opened Queues
  import opened Pipeline
  import opened PipelineInvariant
  import opened PipelineSteps
  import opened PipelineSafety
  import opened PipelineRuns
  import opened RunSessions
  import opened Validators
  import opened ValidatorReplays
  import opened ValidatorSides

  /** A step that is no call leaves calls and attempts as they are. */
  lemma NoCall(w: World, s: State, a: Action)
    requires w.Start() >= 1 && w.Cfg().maxRange >= 1 && Enabled(w, s, a) && Steady(w, s, a)
    requires !a.Handle? && !a.HandleFails?
    ensures Do(w, s, a).db.steps == s.db.steps && Do(w, s, a).db.attempted == s.db.attempted
  {}

  lemma FetcherBehind(w: World, s: State, a: Action)
    requires w.Start() >= 1 && w.Cfg().maxRange >= 1 && Behind(w, s) && Enabled(w, s, a) && ByFetcher(a)
    ensures Behind(w, Do(w, s, a)) && Do(w, s, a).mem.processed == s.mem.processed
    ensures Do(w, s, a).processor == s.processor && Do(w, s, a).cancelled == s.cancelled
  {}

  lemma FetcherCovers(w: World, s: State, a: Action, pos: nat)
    requires w.Start() >= 1 && w.Cfg().maxRange >= 1 && s.cancelled && Covers(w, s, pos) && Enabled(w, s, a)
    requires ByFetcher(a)
    ensures Covers(w, Do(w, s, a), pos) && Do(w, s, a).cancelled
  {}

  lemma FetcherLive(w: World, s: State, a: Action, pos: nat)
    requires ValidWorld(w) && Inv(w, s) && !s.cancelled && Ahead(s) && Behind(w, s) && Covers(w, s, pos)
    requires Enabled(w, s, a) && Steady(w, s, a) && ByFetcher(a)
    ensures Ahead(Do(w, s, a)) && Behind(w, Do(w, s, a)) && Covers(w, Do(w, s, a), pos)
  {
    FetcherAhead(w, s, a);
    FetcherBehind(w, s, a);
    BehindIsCovered(w, Do(w, s, a), pos);
  }

  lemma FetcherTraced(w: World, s: State, a: Action)
    requires ValidWorld(w) && Inv(w, s) && Traced(w, s) && Enabled(w, s, a) && Steady(w, s, a) && ByFetcher(a)
    ensures Traced(w, Do(w, s, a))
  {
    var n, ss :| Describes(w, s.db, n, ss) && Covers(w, s, Position(ss));
    NoCall(w, s, a);
    if s.cancelled { FetcherCovers(w, s, a, Position(ss)); } else { FetcherLive(w, s, a, Position(ss)); }
    assert Describes(w, Do(w, s, a).db, n, ss);
  }

  lemma HandleBehind(w: World, s: State, a: Action)
    requires w.Start() >= 1 && w.Cfg().maxRange >= 1 && Behind(w, s)
    requires Enabled(w, s, a) && (a.Handle? || a.HandleFails?)
    ensures var t := Do(w, s, a);
      && Behind(w, t) && t.mem == s.mem && !t.cancelled
      && t.processor == s.processor.(next := if a.Handle? then s.processor.next + 1 else 0)
  {}

  lemma HandleTraced(w: World, s: State, a: Action)
    requires ValidWorld(w) && Inv(w, s) && Traced(w, s) && Enabled(w, s, a) && (a.Handle? || a.HandleFails?)
    ensures Traced(w, Do(w, s, a))
  {
    var t := Do(w, s, a);
    var n, ss :| Describes(w, s.db, n, ss) && Covers(w, s, Position(ss));
    HandleBehind(w, s, a);
    OthersAhead(w, s, a);
    HandleCalls(w, s, a);
    var m, more := n, ss;
    if a.Handle? || a.stepped { m, more := CallTraced(w, s, n, ss, t.db); }
    HandleCovers(w, s, a, Position(ss), Position(more));
    assert Describes(w, t.db, m, more);
  }

  /** The calls that a handler, done or failed, has added. */
  lemma HandleCalls(w: World, s: State, a: Action)
    requires w.Start() >= 1 && w.Cfg().maxRange >= 1 && Enabled(w, s, a) && (a.Handle? || a.HandleFails?)
    ensures var db := Do(w, s, a).db;
      if a.Handle? || a.stepped
      then db.steps == s.db.steps + [NextLog(s)] && db.attempted == s.db.attempted + {NextLog(s)}
      else db.steps == s.db.steps && s.db.attempted <= db.attempted
  {}

  lemma HandleCovers(w: World, s: State, a: Action, pos: nat, next: nat)
    requires ValidWorld(w) && Live(w, s) && !s.cancelled && Ahead(s) && Behind(w, s) && Covers(w, s, pos)
    requires Enabled(w, s, a) && (a.Handle? || a.HandleFails?)
    requires next == if a.Handle? || a.stepped then Upto(w, s.processor.batch.block) + s.processor.next + 1 else pos
    ensures Covers(w, Do(w, s, a), next)
  {
    HandleBehind(w, s, a);
    AtHand(w, s);
    BehindIsCovered(w, Do(w, s, a), next);
  }

  /** A finished batch is behind the position. */
  lemma DonePosition(w: World, s: State, pos: nat)
    requires ValidWorld(w) && Live(w, s) && !s.cancelled && Ahead(s) && Covers(w, s, pos) && s.processor.Working?
    requires s.processor.next == |s.processor.batch.logs|
    ensures Upto(w, Max(s.mem.processed, s.processor.batch.block) + 1) <= pos
  {
    var b := s.processor.batch;
    assert Queue(s)[0] == b;
    if b.logs != [] {
      AtHand(w, s);
      UptoNext(w, b.block, 0, b.block + 1);
    } else if s.mem.processed < b.block {
      assert At(w, b.block) == [];
      UptoQuiet(w, s.mem.processed, b.block);
      assert Between(w, w.Start(), b.block + 1) == Between(w, w.Start(), b.block) + At(w, b.block);
    }
  }

  lemma TakeTraced(w: World, s: State, pos: nat)
    requires ValidWorld(w) && !s.cancelled && s.processor.ProcessorIdle? && s.batches != []
    requires Live(w, BatchTaken(s)) && Ahead(BatchTaken(s)) && Behind(w, s) && Covers(w, s, pos)
    ensures Behind(w, BatchTaken(s)) && Covers(w, BatchTaken(s), pos)
  {
    var t := BatchTaken(s);
    if t.processor.batch.logs != [] { AtHand(w, t); }
    BehindIsCovered(w, t, pos);
  }

  lemma ProcessorCovers(w: World, s: State, a: Action, pos: nat)
    requires w.Start() >= 1 && w.Cfg().maxRange >= 1 && s.cancelled && Covers(w, s, pos) && Enabled(w, s, a)
    requires ByProcessor(a)
    ensures Covers(w, Do(w, s, a), pos) && Do(w, s, a).cancelled
  {}

  lemma ProcessorBehind(w: World, s: State, a: Action)
    requires w.Start() >= 1 && w.Cfg().maxRange >= 1 && Behind(w, s) && Enabled(w, s, a)
    requires a.SaveTime? || a.RecordProcessed? || a.ProcessorStep? || a.ProcessorWrite?
    requires !s.cancelled
    ensures var t := Do(w, s, a);
      && Behind(w, t) && t.cancelled == s.cancelled
      && t.mem.processed == (if a.RecordProcessed? then Max(s.mem.processed, s.processor.batch.block)
                             else s.mem.processed)
      && (t.processor.Working? ==> s.processor.Working? && t.processor == s.processor.(timed := true))
  {}

  lemma ProcessorLive(w: World, s: State, a: Action, pos: nat)
    requires ValidWorld(w) && Inv(w, s) && !s.cancelled && Ahead(s) && Behind(w, s) && Covers(w, s, pos)
    requires Enabled(w, s, a) && ByProcessor(a) && !a.Handle? && !a.HandleFails?
    ensures Ahead(Do(w, s, a)) && Behind(w, Do(w, s, a)) && Covers(w, Do(w, s, a), pos)
  {
    OthersAhead(w, s, a);
    if a.TakeBatch? {
      TakeBatchOk(w, s);
      TakeTraced(w, s, pos);
    } else {
      if a.RecordProcessed? { DonePosition(w, s, pos); }
      ProcessorBehind(w, s, a);
      BehindIsCovered(w, Do(w, s, a), pos);
    }
  }

  lemma ProcessorTraced(w: World, s: State, a: Action)
    requires ValidWorld(w) && Inv(w, s) && Traced(w, s) && Enabled(w, s, a) && ByProcessor(a)
    requires !a.Handle? && !a.HandleFails?
    ensures Traced(w, Do(w, s, a))
  {
    var n, ss :| Describes(w, s.db, n, ss) && Covers(w, s, Position(ss));
    NoCall(w, s, a);
    if s.cancelled { ProcessorCovers(w, s, a, Position(ss)); } else { ProcessorLive(w, s, a, Position(ss)); }
    assert Describes(w, Do(w, s, a).db, n, ss);
  }

  lemma RestartTraced(w: World, s: State)
    requires ValidWorld(w) && Inv(w, s) && Traced(w, s)
    ensures Traced(w, Boot(w, s.db))
  {
    var t := Boot(w, s.db);
    var n, ss :| Describes(w, s.db, n, ss) && Covers(w, s, Position(ss));
    BootAhead(w, s.db);
    BehindIsCovered(w, t, Position(ss));
    assert Describes(w, t.db, n, ss);
  }

  lemma OthersCover(w: World, s: State, a: Action, pos: nat)
    requires w.Start() >= 1 && w.Cfg().maxRange >= 1 && Enabled(w, s, a) && Steady(w, s, a)
    requires !ByFetcher(a) && !ByProcessor(a) && !a.Restart? && Covers(w, s, pos)
    ensures var t := Do(w, s, a);
      && Covers(w, t, pos) && (!t.cancelled ==> !s.cancelled && !a.Cancel? && (Behind(w, s) ==> Behind(w, t)))
  {}

  lemma OthersTraced(w: World, s: State, a: Action)
    requires ValidWorld(w) && Inv(w, s) && Traced(w, s) && Enabled(w, s, a) && Steady(w, s, a)
    requires !ByFetcher(a) && !ByProcessor(a) && !a.Restart?
    ensures Traced(w, Do(w, s, a))
  {
    var n, ss :| Describes(w, s.db, n, ss) && Covers(w, s, Position(ss));
    NoCall(w, s, a);
    OthersCover(w, s, a, Position(ss));
    if !s.cancelled && !a.Cancel? { OthersAhead(w, s, a); }
    assert Describes(w, Do(w, s, a).db, n, ss);
  }

  lemma StartTraced(w: World)
    requires ValidWorld(w)
    ensures Traced(w, Boot(w, EMPTY_DB))
  {
    var s := Boot(w, EMPTY_DB);
    BootAhead(w, EMPTY_DB);
    assert Describes(w, EMPTY_DB, w.Start(), []);
    assert Upto(w, w.Start()) == 0;
    assert Covers(w, s, Position([]));
  }

  /** In every steady run the calls that reached the validators table are such sessions. */
  lemma {:induction false} SteadyTraced(w: World, acts: seq<Action>, s: State)
    requires ValidWorld(w) && SteadyRun(w, acts, s)
    ensures Inv(w, s) && Traced(w, s)
  {
    if acts == [] {
      EmptyOk(w);
      BootOk(w, EMPTY_DB);
      StartTraced(w);
    } else {
      var before, last := acts[..|acts| - 1], acts[|acts| - 1];
      var p :| SteadyRun(w, before, p) && Enabled(w, p, last) && Steady(w, p, last) && s == Do(w, p, last);
      SteadyTraced(w, before, p);
      StepOk(w, p, last);
      if ByFetcher(last) {
        FetcherTraced(w, p, last);
      } else if last.Handle? || last.HandleFails? {
        HandleTraced(w, p, last);
      } else if ByProcessor(last) {
        ProcessorTraced(w, p, last);
      } else if last.Restart? {
        RestartTraced(w, p);
      } else {
        OthersTraced(w, p, last);
      }
    }
  }

  // ---------- The table ----------

  /** A steady run that has handled the blocks up to n and attempted none above. */
  ghost predicate SteadyTo(w: World, acts: seq<Action>, s: State, n: nat)
    requires w.Start() >= 1 && w.Cfg().maxRange >= 1
  {
    && SteadyRun(w, acts, s)
    && (forall l :: l in s.db.attempted ==> l.block <= n)
    && s.db.row.Some? && n <= s.db.row.value.processed
  }

  /** The sessions a run consists of: they never skip a log, and end with the chain up to block n. */
  ghost predicate SessionsOfRun(w: World, s: State, n: nat, ss: seq<Session>) {
    var logs := Between(w, w.Start(), n + 1);
    Inside(ss, |logs|) && Chained(ss) && TraceOf(logs, ss) == s.db.steps && Position(ss) == |logs|
  }

  lemma {:induction false} PositionInside(ss: seq<Session>, n: nat)
    requires Inside(ss, n)
    ensures Position(ss) <= n && Reached(ss) <= n
  {
    if ss != [] {
      PositionInside(ss[..|ss| - 1], n);
      assert ss[|ss| - 1] in ss;
    }
  }

  lemma DescribedTo(w: World, db: Db, m: nat, ss: seq<Session>, n: nat)
    requires Describes(w, db, m, ss) && w.Start() <= n + 1 && forall l :: l in db.attempted ==> l.block <= n
    ensures Inside(ss, |Between(w, w.Start(), n + 1)|) && TraceOf(Between(w, w.Start(), n + 1), ss) == db.steps
  {
    BetweenStart(w, m, n + 1);
    TracePrefix(Between(w, w.Start(), m), Between(w, w.Start(), n + 1), ss);
  }

  lemma CoversRow(w: World, s: State, pos: nat, n: nat)
    requires w.Start() >= 1 && Covers(w, s, pos) && s.db.row.Some? && n <= s.db.row.value.processed
    ensures Upto(w, n + 1) <= pos
  {
    UptoGrows(w, n + 1, s.db.row.value.processed + 1);
  }

  lemma TracedSessions(w: World, s: State, n: nat) returns (ss: seq<Session>)
    requires 1 <= w.Start() <= n + 1 && exists m, xs :: Describes(w, s.db, m, xs) && Covers(w, s, Position(xs))
    requires forall l :: l in s.db.attempted ==> l.block <= n
    requires s.db.row.Some? && n <= s.db.row.value.processed
    ensures SessionsOfRun(w, s, n, ss)
  {
    var m, xs :| Describes(w, s.db, m, xs) && Covers(w, s, Position(xs));
    ss := xs;
    DescribedTo(w, s.db, m, ss, n);
    CoversRow(w, s, Position(ss), n);
    PositionInside(ss, |Between(w, w.Start(), n + 1)|);
  }

  /** Every steady run that has handled the blocks up to n consists of sessions. */
  lemma RunHasSessions(w: World, acts: seq<Action>, s: State, n: nat) returns (ss: seq<Session>)
    requires ValidWorld(w) && SteadyTo(w, acts, s, n) && w.Start() <= n + 1
    ensures SessionsOfRun(w, s, n, ss)
  {
    SteadyTraced(w, acts, s);
    ss := TracedSessions(w, s, n);
  }

  /** Each session handles again only a mild window of the history. */
  ghost predicate MildWindows(logs: seq<Log>, ss: seq<Session>) {
    ss == [] ||
    var before, last := ss[..|ss| - 1], ss[|ss| - 1];
    MildWindows(logs, before) && (Reached(before) <= |logs| ==> Mild(logs, last.first, Reached(before)))
  }

  /** So it is whatever the sessions, if no validator is added twice. */
  lemma {:induction false} AddedOnce(logs: seq<Log>, ss: seq<Session>)
    requires forall i, j :: 0 <= i < j < |logs| && Adds(logs[i]) && Adds(logs[j]) ==> !SameValidator(logs[i], logs[j])
    ensures MildWindows(logs, ss)
  {
    if ss != [] { AddedOnce(logs, ss[..|ss| - 1]); }
  }

  lemma {:induction false} ChainedResumes(logs: seq<Log>, ss: seq<Session>)
    requires Inside(ss, |logs|) && Chained(ss) && MildWindows(logs, ss)
    ensures Resumes(logs, ss)
  {
    if ss != [] {
      var before := ss[..|ss| - 1];
      assert ss[|ss| - 1] in ss;
      ChainedResumes(logs, before);
      PositionInside(before, |logs|);
    }
  }

  lemma ChainIsHistory(w: World, n: nat)
    requires ValidWorld(w)
    ensures DistinctRefs(Between(w, w.Start(), n))
    ensures forall l :: l in Between(w, w.Start(), n) ==> l.chainId == w.Cfg().chainId
  {
    BetweenOrdered(w, w.Start(), n);
    BetweenMembers(w, w.Start(), n);
    forall l | l in Between(w, w.Start(), n) ensures l.chainId == w.Cfg().chainId { OnOneChain(w, l); }
  }

  /** After any steady runs of the two monitors of a bridge, whose calls reached the one validators
      table in any interleaving: if additions and removals alternate on each chain and the sessions of
      each run handled only mild windows again, the rows of each chain are those its history dictates,
      whichever rows the removals were given. */
  lemma ValidatorsAfterRuns(home: World, hs: seq<Action>, s: State, n: nat, hss: seq<Session>,
                            foreign: World, fs: seq<Action>, t: State, m: nat, fss: seq<Session>,
                            trace: seq<Log>, rows: Rows)
    requires ValidWorld(home) && SteadyTo(home, hs, s, n) && SessionsOfRun(home, s, n, hss)
    requires ValidWorld(foreign) && SteadyTo(foreign, fs, t, m) && SessionsOfRun(foreign, t, m, fss)
    requires Alternating(Between(home, home.Start(), n + 1)) && MildWindows(Between(home, home.Start(), n + 1), hss)
    requires Alternating(Between(foreign, foreign.Start(), m + 1))
    requires MildWindows(Between(foreign, foreign.Start(), m + 1), fss)
    requires LogsOf(trace, home.Cfg().chainId) == s.db.steps && LogsOf(trace, foreign.Cfg().chainId) == t.db.steps
    requires Played(trace, map[], rows)
    ensures IsFold(Between(home, home.Start(), n + 1), RowsOf(rows, home.Cfg().chainId))
    ensures IsFold(Between(foreign, foreign.Start(), m + 1), RowsOf(rows, foreign.Cfg().chainId))
  {
    var x, y := Between(home, home.Start(), n + 1), Between(foreign, foreign.Start(), m + 1);
    ChainIsHistory(home, n + 1);
    ChainIsHistory(foreign, m + 1);
    ChainedResumes(x, hss);
    ChainedResumes(y, fss);
    BothSidesFold(x, hss, home.Cfg().chainId, y, fss, foreign.Cfg().chainId, trace, rows);
  }
}
