/** What every reachable state of the pipeline satisfies: a safe database, safe cursors, and
    queues without gaps. Here for the database; module PipelineSteps does the running process. */
module PipelineInvariant {
  import opened Entities
  import opened BlockRanges
  import opened LogOrder
  import opened Chains
  import opened LogsTable
  import opened Tables
  import opened Handlers
  import opened Queues
  import opened Pipeline

  /** On the foreign side of an erc-to-native bridge explicit requests are made while some token is
      live. Without it the search for the transfer behind a request is not limited to the tokens. */
  ghost predicate RequestsLive(w: World) {
    forall l :: OnChain(w, l) && w.side.Foreign? && l.event.ErcRequest? ==> TokenLive(w.Cfg(), l.block)
  }

  ghost predicate SavedTo(w: World, logs: set<Log>, b: nat) {
    forall l :: OnChain(w, l) && w.Start() <= l.block <= b ==> l in logs
  }

  ghost predicate HandledTo(w: World, handled: seq<Log>, b: nat) {
    forall l :: OnChain(w, l) && w.Start() <= l.block <= b ==> l in handled
  }

  /** A cursor that may be restarted from: everything up to its processed block is handled,
      everything up to its fetched block is saved, and its processed block has a timestamp unless
      nothing was processed yet. */
  ghost predicate SafeCursor(w: World, db: Db, c: Cursor) {
    && w.Start() <= c.processed + 1 && c.processed <= c.fetched
    && SavedTo(w, db.logs, c.fetched)
    && HandledTo(w, db.handled, c.processed)
    && (c.processed + 1 == w.Start() || c.processed in db.times)
  }

  /** The handled logs from the start block on, in the order of their first successful handling. */
  ghost function FirstCalls(w: World, handled: seq<Log>): seq<Log> {
    if handled == [] then []
    else
      var before := FirstCalls(w, handled[..|handled| - 1]);
      var l := handled[|handled| - 1];
      if l.block >= w.Start() && l !in before then before + [l] else before
  }

  /** The calls follow the chain from the start block and skip nothing. */
  ghost predicate FollowsChain(w: World, calls: seq<Log>, hi: nat) {
    calls <= Between(w, w.Start(), hi)
  }

  ghost predicate InOrder(w: World, handled: seq<Log>) {
    exists hi :: FollowsChain(w, FirstCalls(w, handled), hi)
  }

  ghost predicate LogsOk(w: World, logs: set<Log>) {
    && UniqueRefs(logs)
    && (forall x :: x in logs && x.chainId == w.Cfg().chainId ==> x in w.ChainLogs(x.block))
    && (forall x :: x in logs && x.chainId == w.Cfg().chainId && Ours(w, x.address) ==> OnChain(w, x))
    && (forall x, y :: x in logs && OnChain(w, x) && OnChain(w, y) && x.block == y.block ==> y in logs)
  }

  ghost predicate MadeBy(w: World, u: Upsert, l: Log)
    requires ValidChain(w)
  {
    ChainEffects(w, l).Ok? && u in ChainEffects(w, l).value
  }

  /** All that the handler of the log writes has been written. */
  ghost predicate Complete(w: World, upserts: seq<Upsert>, l: Log)
    requires ValidChain(w)
  {
    ChainEffects(w, l).Ok? && forall u :: u in ChainEffects(w, l).value ==> u in upserts
  }

  /** Only saved chain logs are attempted; a validator statement is made for attempted logs only, and
      for every log handled. */
  ghost predicate CallsOk(w: World, db: Db) {
    && (forall l :: l in db.attempted ==> OnChain(w, l) && l in db.logs)
    && (forall l :: l in db.steps ==> l in db.attempted)
    && (forall l :: l in db.handled ==> l in db.steps)
    && InOrder(w, db.handled)
  }

  /** The upserts made are those of the logs attempted, and those of the logs handled are all made. */
  ghost predicate UpsertsOk(w: World, db: Db)
    requires ValidChain(w)
  {
    && (forall l :: l in db.handled ==> Complete(w, db.upserts, l))
    && (forall u :: u in db.upserts ==> exists l :: l in db.attempted && MadeBy(w, u, l))
  }

  ghost predicate DbOk(w: World, db: Db)
    requires ValidChain(w)
  {
    && LogsOk(w, db.logs)
    && CallsOk(w, db)
    && (RequestsLive(w) ==> UpsertsOk(w, db))
    && (db.row.Some? ==> db.row.value in db.written)
    && forall c :: c in db.written || c in db.sent ==> SafeCursor(w, db, c)
  }

  /** The database only grows, cursor row aside; what is safe stays safe. */
  ghost predicate Grows(a: Db, b: Db) {
    a.logs <= b.logs && a.times <= b.times && forall l :: l in a.handled ==> l in b.handled
  }

  lemma SafeStays(w: World, a: Db, b: Db, c: Cursor)
    requires Grows(a, b) && SafeCursor(w, a, c)
    ensures SafeCursor(w, b, c)
  {}

  lemma SameRefOnChain(w: World, x: Log, y: Log)
    requires ValidChain(w) && x in w.ChainLogs(x.block) && y in w.ChainLogs(y.block) && RefOf(x) == RefOf(y)
    ensures x == y
  {
    assert ValidBlock(w, x.block);
    var logs := w.ChainLogs(x.block);
    var i :| 0 <= i < |logs| && logs[i] == x;
    var j :| 0 <= j < |logs| && logs[j] == y;
    OrderedRefs(logs, i, j);
  }

  lemma RangeMembers(w: World, r: Range)
    requires ValidChain(w)
    ensures forall l :: l in RangeLogs(w, r) <==> OnChain(w, l) && r.first <= l.block <= r.last
    ensures forall l :: l in AsSet(RangeLogs(w, r)) <==> OnChain(w, l) && r.first <= l.block <= r.last
  {
    BetweenMembers(w, r.first, r.last + 1);
  }

  lemma LogsGrow(w: World, logs: set<Log>, more: set<Log>)
    requires ValidChain(w) && LogsOk(w, logs)
    requires forall x :: x in more ==> OnChain(w, x)
    requires forall x, y :: x in more && OnChain(w, y) && x.block == y.block ==> y in more
    ensures LogsOk(w, logs + more)
  {
    forall x | x in more ensures x.chainId == w.Cfg().chainId && x in w.ChainLogs(x.block) { OnOneChain(w, x); }
    forall x, y | x in logs + more && y in logs + more && RefOf(x) == RefOf(y) ensures x == y {
      if !(x in logs && y in logs) { SameRefOnChain(w, x, y); }
    }
  }

  lemma MoreLogsOrTimes(w: World, a: Db, b: Db)
    requires ValidChain(w) && DbOk(w, a) && LogsOk(w, b.logs)
    requires b == a.(logs := b.logs, times := b.times) && a.logs <= b.logs && a.times <= b.times
    ensures DbOk(w, b) && Grows(a, b)
  {
    forall c | c in b.written || c in b.sent ensures SafeCursor(w, b, c) { SafeStays(w, a, b, c); }
  }

  lemma SaveKeepsDb(w: World, db: Db, r: Range)
    requires ValidWorld(w) && DbOk(w, db)
    ensures DbOk(w, SaveIn(w, db, r)) && Grows(db, SaveIn(w, db, r))
  {
    RangeMembers(w, r);
    LogsGrow(w, db.logs, AsSet(RangeLogs(w, r)));
    MoreLogsOrTimes(w, db, SaveIn(w, db, r));
  }

  lemma OtherLogsOk(w: World, logs: set<Log>, l: Log)
    requires ValidChain(w) && LogsOk(w, logs)
    requires l.chainId == w.Cfg().chainId ==> l in w.ChainLogs(l.block) && !Ours(w, l.address)
    requires forall x :: x in logs ==> RefOf(x) != RefOf(l)
    ensures LogsOk(w, logs + {l})
  {
    assert !OnChain(w, l) by {
      if OnChain(w, l) { OnOneChain(w, l); RelevantIsOurs(w, l); }
    }
  }

  lemma RelevantIsOurs(w: World, l: Log)
    requires Relevant(w, l)
    ensures Ours(w, l.address)
  {}

  lemma OtherKeepsDb(w: World, db: Db, l: Log)
    requires ValidWorld(w) && DbOk(w, db)
    requires l.chainId == w.Cfg().chainId ==> l in w.ChainLogs(l.block) && !Ours(w, l.address)
    requires forall x :: x in db.logs ==> RefOf(x) != RefOf(l)
    ensures var after := db.(logs := db.logs + {l});
      DbOk(w, after) && Grows(db, after)
  {
    OtherLogsOk(w, db.logs, l);
    MoreLogsOrTimes(w, db, db.(logs := db.logs + {l}));
  }

  lemma TimeKeepsDb(w: World, db: Db, b: nat)
    requires ValidWorld(w) && DbOk(w, db)
    ensures var after := db.(times := db.times + {b});
      DbOk(w, after) && Grows(db, after)
  {
    MoreLogsOrTimes(w, db, db.(times := db.times + {b}));
  }

  lemma WriteKeepsDb(w: World, db: Db, c: Cursor)
    requires ValidWorld(w) && DbOk(w, db) && SafeCursor(w, db, c)
    ensures DbOk(w, WriteRow(db, c)) && Grows(db, WriteRow(db, c))
  {
    SafeAll(w, db, WriteRow(db, c), c);
  }

  /** With one more safe cursor all of them are safe. */
  lemma SafeAll(w: World, a: Db, b: Db, c: Cursor)
    requires ValidChain(w) && Grows(a, b) && SafeCursor(w, a, c)
    requires forall x :: x in a.written || x in a.sent ==> SafeCursor(w, a, x)
    requires b.written <= a.written + {c} && b.sent <= a.sent + {c}
    ensures forall x :: x in b.written || x in b.sent ==> SafeCursor(w, b, x)
  {
    forall x | x in b.written || x in b.sent ensures SafeCursor(w, b, x) { SafeStays(w, a, b, x); }
  }

  lemma SendKeepsDb(w: World, db: Db, write: Write)
    requires ValidWorld(w) && DbOk(w, db) && (write.Snapshot? ==> SafeCursor(w, db, write.c))
    ensures DbOk(w, SendIn(db, write)) && Grows(db, SendIn(db, write))
  {
    if write.Snapshot? { SafeAll(w, db, SendIn(db, write), write.c); }
  }

  /** At the moment a log is handled its whole block is saved, so what is written is what the
      chain dictates. */
  lemma HandledAsChainSays(w: World, db: Db, l: Log)
    requires ValidWorld(w) && RequestsLive(w) && DbOk(w, db) && OnChain(w, l) && l in db.logs
    ensures Effects(w, db.logs, l) == ChainEffects(w, l)
  {
    BlockTableUnique(w, l.block);
    EffectsOfChain(w, db.logs, l);
  }

  lemma HandledUpsertsOk(w: World, db: Db, l: Log, n: nat, stepped: bool, done: bool)
    requires ValidChain(w) && UpsertsOk(w, db)
    requires UniqueRefs(db.logs) && Effects(w, db.logs, l) == ChainEffects(w, l)
    requires CanMake(w, db, l, n) && (done ==> stepped && n == |Effects(w, db.logs, l).value|)
    ensures UpsertsOk(w, HandleIn(w, db, l, n, stepped, done))
  {
    var us := ChainEffects(w, l).value;
    var after := HandleIn(w, db, l, n, stepped, done);
    forall u | u in after.upserts ensures exists x :: x in after.attempted && MadeBy(w, u, x) {
      if u in us[..n] { assert MadeBy(w, u, l); }
    }
    assert n == |us| ==> us[..n] == us;
    forall x | x in after.handled ensures Complete(w, after.upserts, x) {
      if x in db.handled { assert Complete(w, db.upserts, x); }
    }
  }

  lemma HandleKeepsDb(w: World, db: Db, l: Log, n: nat, stepped: bool, done: bool)
    requires ValidWorld(w) && DbOk(w, db) && OnChain(w, l) && l in db.logs
    requires CanMake(w, db, l, n) && (done ==> stepped && n == |Effects(w, db.logs, l).value|)
    requires done ==> InOrder(w, db.handled + [l])
    ensures var after := HandleIn(w, db, l, n, stepped, done);
      DbOk(w, after) && Grows(db, after)
  {
    var after := HandleIn(w, db, l, n, stepped, done);
    if RequestsLive(w) {
      HandledAsChainSays(w, db, l);
      HandledUpsertsOk(w, db, l, n, stepped, done);
    }
    forall c | c in after.written || c in after.sent ensures SafeCursor(w, after, c) { SafeStays(w, db, after, c); }
  }

  lemma {:induction false} FirstCallsMember(w: World, handled: seq<Log>)
    ensures forall l :: l in FirstCalls(w, handled) <==> l in handled && l.block >= w.Start()
  {
    if handled != [] {
      var before := handled[..|handled| - 1];
      FirstCallsMember(w, before);
      assert handled == before + [handled[|handled| - 1]];
    }
  }

  lemma OneMoreCall(w: World, handled: seq<Log>, l: Log)
    ensures FirstCalls(w, handled + [l])
      == if l.block >= w.Start() && l !in handled then FirstCalls(w, handled) + [l] else FirstCalls(w, handled)
  {
    FirstCallsMember(w, handled);
    assert (handled + [l])[..|handled|] == handled;
  }

  lemma AgainInOrder(w: World, handled: seq<Log>, l: Log)
    requires InOrder(w, handled) && (l in handled || l.block < w.Start())
    ensures InOrder(w, handled + [l])
  {
    OneMoreCall(w, handled, l);
  }

  /** Handling a log all of whose predecessors from the start block on are handled keeps the order. */
  lemma NextInOrder(w: World, handled: seq<Log>, l: Log)
    requires ValidChain(w) && InOrder(w, handled) && OnChain(w, l)
    requires forall x :: OnChain(w, x) && x.block >= w.Start() && Before(x, l) ==> x in handled
    ensures InOrder(w, handled + [l])
  {
    if l in handled || l.block < w.Start() {
      AgainInOrder(w, handled, l);
    } else {
      var calls := FirstCalls(w, handled);
      var hi :| FollowsChain(w, calls, hi);
      var top := Max(hi, l.block + 1);
      BetweenStart(w, hi, top);
      var all := Between(w, w.Start(), top);
      BetweenMembers(w, w.Start(), top);
      BetweenOrdered(w, w.Start(), top);
      FirstCallsMember(w, handled);
      var k :| 0 <= k < |all| && all[k] == l;
      NextIs(all, calls, k);
      OneMoreCall(w, handled, l);
      assert FollowsChain(w, FirstCalls(w, handled + [l]), top);
    }
  }

  lemma BetweenStart(w: World, hi: nat, top: nat)
    requires hi <= top
    ensures Between(w, w.Start(), hi) <= Between(w, w.Start(), top)
  {
    if w.Start() <= hi { BetweenSplit(w, w.Start(), hi, top); }
  }

  lemma InPrefix(all: seq<Log>, calls: seq<Log>, j: nat)
    requires Ordered(all) && calls <= all && j < |all|
    ensures all[j] in calls <==> j < |calls|
  {
    if all[j] in calls {
      var m :| 0 <= m < |calls| && calls[m] == all[j];
      OrderedRefs(all, m, j);
    }
  }

  lemma NextIs(all: seq<Log>, calls: seq<Log>, k: nat)
    requires Ordered(all) && calls <= all && k < |all| && all[k] !in calls
    requires forall x :: x in all && Before(x, all[k]) ==> x in calls
    ensures calls + [all[k]] <= all
  {
    InPrefix(all, calls, k);
    if k > 0 { InPrefix(all, calls, k - 1); }
  }
}
