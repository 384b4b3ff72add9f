/** When the head a node reports falls, blocks are handled again; and when the process is then restarted
    in the middle, it goes on behind them. For which histories the validators table survives this. */
module FallingHeads {
  import opened Entities
  import opened Sequences
  import opened BlockRanges
  import opened LogOrder
  import opened Chains
  import opened LogsTable
  import opened Handlers
  import opened Pipeline
  import opened PipelineInvariant
  import opened PipelineSteps
  import opened PipelineSafety
  import opened PipelineRuns
  import opened Witnesses
  import opened EarlyLogs
  import opened RunSessions
  import opened Validators
  import opened ValidatorReplays
  import opened ValidatorSides
  import opened SkippedSessions

  /** The head of the block before the start block, the lowest that keeps earlier blocks out. */
  function LowestHead(w: World): nat
    requires w.Start() >= 1
  {
    w.Start() + w.Cfg().confirmations - 1
  }

  /** The handlers of all logs up to block n can do their work. */
  ghost predicate Handleable(w: World, n: nat)
    requires ValidChain(w)
  {
    forall b, i :: w.Start() <= b <= n && 0 <= i < |At(w, b)| ==> ChainEffects(w, At(w, b)[i]).Ok?
  }

  // ---------- A block is handled, wholly or in part ----------

  /** The first m logs of the batch at hand are handled. */
  ghost predicate HandledTo(w: World, p: State, b: nat, m: nat, s: State) {
    && m <= |At(w, b)|
    && s == p.(processor := Working(Batch(b, At(w, b)), m, false), db := s.db)
    && s.db.steps == p.db.steps + At(w, b)[..m] && s.db.row == p.db.row
    && forall l :: l in s.db.attempted ==> l in p.db.attempted || l.block == b
  }

  lemma CallSucceeds(w: World, low: nat, s: State, b: nat, n: nat)
    requires ValidWorld(w) && Handleable(w, n) && w.Start() <= b <= n && ReachableAlone(w, low, s) && !s.cancelled
    requires Ready(s) && s.processor.batch == Batch(b, At(w, b))
    ensures NextLog(s).block == b && Enabled(w, s, Handle)
  {
    var l := NextLog(s);
    assert l == At(w, b)[s.processor.next];
    AloneKeepsInv(w, low, s);
    AtMember(w, b, l);
    BlockTableUnique(w, b);
    SameSuccess(w, s.db.logs, BlockTable(w, b), l);
  }

  lemma OneMoreHandled(w: World, low: nat, p: State, b: nat, n: nat, u: State) returns (s: State)
    requires ValidWorld(w) && Handleable(w, n) && w.Start() <= b <= n && ReachableAlone(w, low, u) && !p.cancelled
    requires u.processor.Working? && HandledTo(w, p, b, u.processor.next, u) && u.processor.next < |At(w, b)|
    ensures ReachableAlone(w, low, s) && HandledTo(w, p, b, u.processor.next + 1, s)
  {
    CallSucceeds(w, low, u, b, n);
    s := Go(w, low, u, Handle);
    var l := At(w, b)[u.processor.next];
    LogHandled(w, u);
    HandledOn(w, p, b, u, l, s);
  }

  lemma LogHandled(w: World, u: State)
    requires w.Start() >= 1 && w.Cfg().maxRange >= 1 && Enabled(w, u, Handle)
    ensures var s := Do(w, u, Handle);
      && s == u.(processor := u.processor.(next := u.processor.next + 1), db := s.db)
      && s.db.steps == u.db.steps + [NextLog(u)] && s.db.row == u.db.row
      && s.db.attempted == u.db.attempted + {NextLog(u)}
  {}

  lemma HandledOn(w: World, p: State, b: nat, u: State, l: Log, s: State)
    requires u.processor.Working? && HandledTo(w, p, b, u.processor.next, u) && u.processor.next < |At(w, b)|
    requires l == At(w, b)[u.processor.next] && l.block == b
    requires s == u.(processor := u.processor.(next := u.processor.next + 1), db := s.db)
    requires s.db.steps == u.db.steps + [l] && s.db.row == u.db.row && s.db.attempted == u.db.attempted + {l}
    ensures HandledTo(w, p, b, u.processor.next + 1, s)
  {
    var m := u.processor.next;
    assert At(w, b)[..m + 1] == At(w, b)[..m] + [l];
    Assoc(p.db.steps, At(w, b)[..m], [l]);
  }

  lemma {:induction false} CallsMade(w: World, low: nat, p: State, b: nat, n: nat, m: nat) returns (s: State)
    requires ValidWorld(w) && Handleable(w, n) && w.Start() <= b <= n && ReachableAlone(w, low, p) && !p.cancelled
    requires p.processor == Working(Batch(b, At(w, b)), 0, false) && m <= |At(w, b)|
    ensures ReachableAlone(w, low, s) && HandledTo(w, p, b, m, s)
  {
    if m == 0 {
      s := p;
      Empty(p.db.steps);
    } else {
      var u := CallsMade(w, low, p, b, n, m - 1);
      s := OneMoreHandled(w, low, p, b, n, u);
    }
  }

  // ---------- One pass, block by block ----------

  /** All blocks before b are processed, and nothing is queued. */
  ghost predicate Waiting(w: World, s: State, b: nat)
    requires w.Start() >= 1
  {
    && w.Start() <= b && !s.cancelled && s.processor == ProcessorIdle && s.fetcher == FetcherIdle
    && s.pending == [] && s.ranges == [] && s.batches == [] && s.start == b
    && s.mem == Cursor(b - 1, b - 1) && s.db.row == Some(s.mem)
    && s.db.steps == Between(w, w.Start(), b)
    && forall l :: l in s.db.attempted ==> l.block < b
  }

  lemma WaitingFirst(w: World, low: nat) returns (s: State)
    requires ValidWorld(w)
    ensures ReachableAlone(w, low, s) && Waiting(w, s, w.Start())
  {
    s := Started(w, low);
    s := EmptyProcessed(w, low, s);
  }

  lemma BlockAtHand(w: World, low: nat, p: State, b: nat) returns (s: State)
    requires ValidWorld(w) && ReachableAlone(w, low, p) && Waiting(w, p, b)
    requires low <= w.Cfg().confirmations + b < MAX_UINT32
    ensures ReachableAlone(w, low, s) && s.processor == Working(Batch(b, At(w, b)), 0, false)
    ensures s == p.(head := s.head, start := b + 1, mem := Cursor(b, b - 1), processor := s.processor, db := s.db)
    ensures s.db.steps == p.db.steps && s.db.attempted == p.db.attempted
  {
    s := PolledOne(w, low, p, b);
    s := FetchedBlock(w, low, s, b);
    s := Go(w, low, s, TakeBatch);
  }

  lemma WaitingNext(w: World, low: nat, p: State, b: nat, n: nat) returns (s: State)
    requires ValidWorld(w) && Handleable(w, n) && b <= n && ReachableAlone(w, low, p) && Waiting(w, p, b)
    requires low <= w.Cfg().confirmations + b < MAX_UINT32
    ensures ReachableAlone(w, low, s) && Waiting(w, s, b + 1)
  {
    var u := BlockAtHand(w, low, p, b);
    var v := CallsMade(w, low, u, b, n, |At(w, b)|);
    s := Recorded(w, low, v);
    assert At(w, b)[..|At(w, b)|] == At(w, b);
    BetweenNext(w, w.Start(), b);
  }

  lemma {:induction false} PassTo(w: World, low: nat, b: nat, n: nat) returns (s: State)
    requires ValidWorld(w) && Handleable(w, n) && w.Start() <= b <= n + 1
    requires low <= w.Cfg().confirmations + w.Start() && w.Cfg().confirmations + n < MAX_UINT32
    ensures ReachableAlone(w, low, s) && Waiting(w, s, b)
    decreases b
  {
    if b == w.Start() {
      s := WaitingFirst(w, low);
    } else {
      var c := b - 1;
      var p := PassTo(w, low, c, n);
      s := WaitingNext(w, low, p, c, n);
    }
  }

  // ---------- The head falls, and the process is restarted ----------

  /** Everything up to block n is processed and nothing is queued or attempted beyond. */
  ghost predicate SettledAt(s: State, n: nat) {
    && !s.cancelled && s.processor == ProcessorIdle && s.batches == []
    && s.db.row.Some? && n <= s.db.row.value.processed && n <= s.mem.processed
    && forall l :: l in s.db.attempted ==> l.block <= n
  }

  /** The head falls to the block before b and comes back: block b is taken again. */
  lemma TakenAgain(w: World, low: nat, p: State, n: nat, b: nat) returns (s: State)
    requires ValidWorld(w) && ReachableAlone(w, low, p) && Waiting(w, p, n + 1) && w.Start() <= b <= n
    requires low == LowestHead(w) && w.Cfg().confirmations + n < MAX_UINT32
    ensures ReachableAlone(w, low, s) && s.processor == Working(Batch(b, At(w, b)), 0, false) && !s.cancelled
    ensures s.mem == p.mem && s.db.row == p.db.row && s.db.steps == p.db.steps && s.db.attempted == p.db.attempted
  {
    s := PolledNone(w, low, p, b);
    s := PolledOne(w, low, s, b);
    s := FetchedBlock(w, low, s, b);
    s := Go(w, low, s, TakeBatch);
  }

  /** It is handled again up to its log m, and the process stops and starts. */
  lemma StoppedAfter(w: World, n: nat, b: nat, m: nat) returns (s: State)
    requires ValidWorld(w) && Handleable(w, n) && w.Start() <= b <= n && m <= |At(w, b)|
    requires w.Cfg().confirmations + n < MAX_UINT32
    ensures ReachableAlone(w, LowestHead(w), s) && SettledAt(s, n)
    ensures s.db.steps == Between(w, w.Start(), n + 1) + At(w, b)[..m]
  {
    var low := LowestHead(w);
    var p := PassTo(w, low, n + 1, n);
    var u := TakenAgain(w, low, p, n, b);
    var v := CallsMade(w, low, u, b, n, m);
    s := Restarted(w, low, v, n);
  }

  lemma Restarted(w: World, low: nat, p: State, n: nat) returns (s: State)
    requires w.Start() >= 1 && w.Cfg().maxRange >= 1 && ReachableAlone(w, low, p)
    requires p.db.row == Some(Cursor(n, n)) && forall l :: l in p.db.attempted ==> l.block <= n
    ensures ReachableAlone(w, low, s) && SettledAt(s, n) && s.db == p.db
  {
    s := Go(w, low, p, Restart);
  }

  // ---------- The validators table ----------

  /** In every state that is settled at block n, reached with heads that stay, by hand or not, whatever
      table the calls may have left is the one the history dictates. */
  ghost predicate AlwaysFolds(w: World, n: nat)
    requires w.Start() >= 1 && w.Cfg().maxRange >= 1
  {
    forall s, rows :: ReachableFrom(w, LowestHead(w), s) && SettledAt(s, n) && Played(s.db.steps, map[], rows)
      ==> IsFold(Between(w, w.Start(), n + 1), rows)
  }

  /** The same for runs without manual steps and without late statements of dead processes. */
  ghost predicate AloneFolds(w: World, n: nat)
    requires w.Start() >= 1 && w.Cfg().maxRange >= 1
  {
    forall s, rows :: ReachableAlone(w, LowestHead(w), s) && SettledAt(s, n) && Played(s.db.steps, map[], rows)
      ==> IsFold(Between(w, w.Start(), n + 1), rows)
  }

  /** The calls made are on the logs of the history, and on all of them. */
  lemma SettledCalls(w: World, s: State, n: nat)
    requires ValidWorld(w) && ReachableFrom(w, LowestHead(w), s) && SettledAt(s, n)
    ensures forall l :: l in s.db.steps <==> l in Between(w, w.Start(), n + 1)
  {
    var acts :| Run(w, acts, s) && HeadsFrom(w, acts, LowestHead(w));
    RunOk(w, acts, s);
    NothingEarly(w, acts, s);
    BetweenMembers(w, w.Start(), n + 1);
    CursorRowIsSafe(w, acts, s);
  }

  lemma SparseAlwaysFolds(w: World, n: nat)
    requires ValidWorld(w) && NoRepeat(Between(w, w.Start(), n + 1))
    ensures AlwaysFolds(w, n)
  {
    ChainDistinct(w, n);
    forall s, rows | ReachableFrom(w, LowestHead(w), s) && SettledAt(s, n) && Played(s.db.steps, map[], rows)
      ensures IsFold(Between(w, w.Start(), n + 1), rows)
    {
      SettledCalls(w, s, n);
      SparseFolds(Between(w, w.Start(), n + 1), s.db.steps, rows);
    }
  }

  lemma ChainDistinct(w: World, n: nat)
    requires ValidWorld(w)
    ensures DistinctRefs(Between(w, w.Start(), n + 1))
  {
    BetweenOrdered(w, w.Start(), n + 1);
  }

  lemma InBlock(w: World, n: nat, l: Log) returns (m: nat)
    requires ValidWorld(w) && l in Between(w, w.Start(), n + 1)
    ensures w.Start() <= l.block <= n && m < |At(w, l.block)| && At(w, l.block)[m] == l
  {
    BetweenMember(w, w.Start(), n + 1, l);
    var i :| 0 <= i < |At(w, l.block)| && At(w, l.block)[i] == l;
    m := i;
  }

  /** Where log g of the history stands in its block. */
  lemma PlaceOf(w: World, n: nat, g: nat) returns (b: nat, m: nat)
    requires ValidWorld(w) && g < |Between(w, w.Start(), n + 1)|
    ensures w.Start() <= b <= n && m < |At(w, b)| && Upto(w, b) + m == g
    ensures At(w, b)[..m + 1] == Between(w, w.Start(), n + 1)[Upto(w, b)..g + 1]
  {
    var logs := Between(w, w.Start(), n + 1);
    b := logs[g].block;
    m := InBlock(w, n, logs[g]);
    IndexInHistory(w, n, b, m, g);
    BlockSlice(w, n, b, m + 1);
  }

  lemma IndexInHistory(w: World, n: nat, b: nat, m: nat, g: nat)
    requires ValidWorld(w) && w.Start() <= b <= n && m < |At(w, b)| && g < |Between(w, w.Start(), n + 1)|
    requires Between(w, w.Start(), n + 1)[g] == At(w, b)[m]
    ensures Upto(w, b) + m == g
  {
    UptoNext(w, b, m, n + 1);
    BetweenOrdered(w, w.Start(), n + 1);
    SameIndex(Between(w, w.Start(), n + 1), g, Upto(w, b) + m, At(w, b)[m]);
  }

  lemma SameIndex(logs: seq<Log>, i: nat, j: nat, l: Log)
    requires Ordered(logs) && i < |logs| && j < |logs| && logs[i] == l && logs[j] == l
    ensures i == j
  {
    OrderedRefs(logs, i, j);
  }

  lemma BlockSlice(w: World, n: nat, b: nat, m: nat)
    requires w.Start() <= b <= n && m <= |At(w, b)|
    ensures Upto(w, b) + m <= Upto(w, n + 1)
    ensures At(w, b)[..m] == Between(w, w.Start(), n + 1)[Upto(w, b)..Upto(w, b) + m]
  {
    BetweenNext(w, w.Start(), b);
    BetweenStart(w, b + 1, n + 1);
    PartOfPrefix(Between(w, w.Start(), b), At(w, b), Between(w, w.Start(), n + 1), m);
  }

  lemma PartOfPrefix<T>(a: seq<T>, b: seq<T>, all: seq<T>, m: nat)
    requires a + b <= all && m <= |b|
    ensures |a| + m <= |all| && all[|a|..|a| + m] == b[..m]
  {}

  /** A fallen head and one restart, right after a log that spoils, leave a wrong table for any choice of
      rows, with the process standing behind the history. */
  lemma FallingHeadBreaks(w: World, n: nat, g: nat) returns (s: State)
    requires ValidWorld(w) && Handleable(w, n) && w.Cfg().confirmations + n < MAX_UINT32
    requires History(Between(w, w.Start(), n + 1))
    requires g < |Between(w, w.Start(), n + 1)| && Spoils(Between(w, w.Start(), n + 1), g)
    ensures ReachableAlone(w, LowestHead(w), s) && SettledAt(s, n)
    ensures forall rows :: Played(s.db.steps, map[], rows) ==> !IsFold(Between(w, w.Start(), n + 1), rows)
  {
    var logs := Between(w, w.Start(), n + 1);
    var b, m := PlaceOf(w, n, g);
    s := StoppedAfter(w, n, b, m + 1);
    forall rows | Played(s.db.steps, map[], rows) ensures !IsFold(logs, rows) {
      SpoiltCalls(logs, Upto(w, b), g, rows);
    }
  }

  lemma SpoiltCalls(logs: seq<Log>, lo: nat, g: nat, rows: Rows)
    requires History(logs) && lo <= g < |logs| && Spoils(logs, g) && Played(logs + logs[lo..g + 1], map[], rows)
    ensures !IsFold(logs, rows)
  {
    var a := PlayedApart(logs, logs[lo..g + 1], map[], rows);
    assert logs[0..|logs|] == logs;
    PlayedSteps(logs, 0, |logs|, map[], a);
    FirstTimeFolds(logs, a);
    PlayedSteps(logs, lo, g + 1, a, rows);
    SpoiltAfter(logs, lo, g, a, rows);
  }

  /** Whatever table the calls of a run may have left once a history is processed is the one it dictates,
      for every run with heads that stay at or above the start block, exactly when no validator has two
      events in it. Manual steps and late statements make no difference: fallen heads and restarts alone
      do the harm, and where they cannot, nothing can. */
  lemma FallingHeadsExactly(w: World, n: nat)
    requires ValidWorld(w) && Handleable(w, n) && w.Cfg().confirmations + n < MAX_UINT32
    requires Alternating(Between(w, w.Start(), n + 1))
    ensures AloneFolds(w, n) <==> NoRepeat(Between(w, w.Start(), n + 1))
    ensures AlwaysFolds(w, n) <==> NoRepeat(Between(w, w.Start(), n + 1))
  {
    ChainDistinct(w, n);
    AlwaysIsAlone(w, n);
    if NoRepeat(Between(w, w.Start(), n + 1)) {
      SparseAlwaysFolds(w, n);
    } else {
      RepeatedBreaks(w, n);
    }
  }

  /** Both monitors at once, in the one table: after any runs with heads that stay, by hand or not, whose
      calls interleaved in any way, the rows of each chain are those its history dictates, as long as no
      validator has two events on it. */
  lemma BothSidesSettled(home: World, s: State, n: nat, foreign: World, t: State, m: nat,
                         trace: seq<Log>, rows: Rows)
    requires ValidWorld(home) && ReachableFrom(home, LowestHead(home), s) && SettledAt(s, n)
    requires ValidWorld(foreign) && ReachableFrom(foreign, LowestHead(foreign), t) && SettledAt(t, m)
    requires NoRepeat(Between(home, home.Start(), n + 1)) && NoRepeat(Between(foreign, foreign.Start(), m + 1))
    requires LogsOf(trace, home.Cfg().chainId) == s.db.steps && LogsOf(trace, foreign.Cfg().chainId) == t.db.steps
    requires Played(trace, map[], rows)
    ensures IsFold(Between(home, home.Start(), n + 1), RowsOf(rows, home.Cfg().chainId))
    ensures IsFold(Between(foreign, foreign.Start(), m + 1), RowsOf(rows, foreign.Cfg().chainId))
  {
    PlayedOnSides(trace, rows, home.Cfg().chainId);
    PlayedOnSides(trace, rows, foreign.Cfg().chainId);
    SparseAlwaysFolds(home, n);
    SparseAlwaysFolds(foreign, m);
  }

  lemma AlwaysIsAlone(w: World, n: nat)
    requires w.Start() >= 1 && w.Cfg().maxRange >= 1
    ensures AlwaysFolds(w, n) ==> AloneFolds(w, n)
  {
    if AlwaysFolds(w, n) {
      forall s, rows | ReachableAlone(w, LowestHead(w), s) && SettledAt(s, n) && Played(s.db.steps, map[], rows)
        ensures IsFold(Between(w, w.Start(), n + 1), rows)
      {
        AloneIsFrom(w, LowestHead(w), LowestHead(w), s);
      }
    }
  }

  lemma RepeatedBreaks(w: World, n: nat)
    requires ValidWorld(w) && Handleable(w, n) && w.Cfg().confirmations + n < MAX_UINT32
    requires History(Between(w, w.Start(), n + 1)) && !NoRepeat(Between(w, w.Start(), n + 1))
    ensures !AloneFolds(w, n)
  {
    var g := RepeatSpoils(Between(w, w.Start(), n + 1));
    var s := FallingHeadBreaks(w, n, g);
    var rows := SomePlayed(s.db.steps, map[]);
  }

  lemma {:induction false} SomePlayed(trace: seq<Log>, t: Rows) returns (after: Rows)
    ensures Played(trace, t, after)
  {
    if trace == [] {
      after := t;
    } else {
      var before, last := trace[..|trace| - 1], trace[|trace| - 1];
      var u := SomePlayed(before, t);
      after := SomeStep(u, last);
      assert trace == before + [last];
      PlayedMore(before, t, u, last, after);
    }
  }
}
