/** When the "unknown message" alerts report a row (monitor/alerts/db_alerts_provider.go): of each log
    handled, exactly if its request is not in the tables, and once both monitors have caught up, exactly
    if it is not on the chains. */
module TrueAlarms {
  import opened Entities
  import opened Chains
  import opened Decoders
  import opened LogsTable
  import opened Tables
  import opened Pipeline
  import opened PipelineInvariant
  import opened Correlation
  import opened DueRows
  import opened CrashEquivalence
  import opened ChainTables
  import opened Alerts

  lemma HandledRow(home: Life, foreign: Life, us: seq<Upsert>, v: Life, x: Log, row: EventRow)
    requires Bridged(home.world, foreign.world) && Lived(home) && Lived(foreign)
    requires Interleaves(us, home.atQuery.db.upserts, foreign.atQuery.db.upserts)
    requires (v == home || v == foreign) && x in v.atQuery.db.handled && RowDue(v.world, x, row)
    ensures var rows := ApplyAll(NO_ROWS, us).rows; RefOf(x) in rows && rows[RefOf(x)] == row
  {
    LivedFrom(v);
    MadeIsDue(v.world, x, PutRow(RefOf(x), row));
    HandledHolds(home, foreign, us, v, x, PutRow(RefOf(x), row));
  }

  /** Each alert, on the row of a log that has been handled: it reports the row exactly if the log is of a
      chain the alert looks at, at or above the start block given for it, its block has a timestamp that is
      not above the minimum, and no request in the tables has its key. */
  lemma ReportedExactly(home: Life, foreign: Life, d: Store, q: Store, p: Params, time: (nat, nat) -> nat,
                        us: seq<Upsert>, min: nat, v: Life, x: Log, row: EventRow)
    requires Setting(home, foreign, d, q, p, time, us)
    requires (v == home || v == foreign) && x in v.atQuery.db.handled && RowDue(v.world, x, row)
    ensures
      var timed := BlockKey(x.chainId, x.block) in q.times && time(x.chainId, x.block) <= min;
      var atHome := x.chainId == p.homeChain && x.block >= p.homeStart;
      var abroad := x.chainId == p.foreignChain && x.block >= p.foreignStart;
      && (UnknownConfirmation(q, p, min, RefOf(x))
          <==> row.Signed? && timed && atHome && row.msgHash !in q.rows.messages)
      && (UnknownErcConfirmation(q, p, min, RefOf(x))
          <==> row.Signed? && timed && atHome && row.msgHash !in q.rows.erc)
      && (UnknownExecution(q, p, min, RefOf(x))
          <==> row.Executed? && timed && (atHome || abroad)
               && !exists k :: k in q.rows.messages && q.rows.messages[k].messageId == row.messageId)
      && (UnknownErcExecution(q, p, min, RefOf(x))
          <==> row.Executed? && timed && (atHome || abroad) && row.messageId !in q.rows.erc)
      && (UnknownInformation(q, p, min, RefOf(x))
          <==> (row.SignedInformation? || row.ExecutedInformation?) && timed && atHome
               && row.messageId !in q.rows.informations)
  {
    HandledRow(home, foreign, us, v, x, row);
  }

  /** Once both monitors have caught up, up to blocks n and m, an alert is true: it reports the row of a
      log it looks at exactly if no log of either chain up to there requests what the log is about. */
  lemma AlarmsAreTrue(home: Life, foreign: Life, d: Store, q: Store, p: Params, time: (nat, nat) -> nat,
                      us: seq<Upsert>, min: nat, n: nat, m: nat, v: Life, x: Log, row: EventRow)
    requires Setting(home, foreign, d, q, p, time, us)
    requires CaughtUp(home.world, home.acts + home.more, home.atQuery, n)
    requires CaughtUp(foreign.world, foreign.acts + foreign.more, foreign.atQuery, m)
    requires (v == home || v == foreign) && x in v.atQuery.db.handled && RowDue(v.world, x, row)
    ensures
      var timed := BlockKey(x.chainId, x.block) in q.times && time(x.chainId, x.block) <= min;
      var atHome := x.chainId == p.homeChain && x.block >= p.homeStart;
      var abroad := x.chainId == p.foreignChain && x.block >= p.foreignStart;
      && (UnknownConfirmation(q, p, min, RefOf(x))
          <==> row.Signed? && timed && atHome
               && !exists r :: MessageRequested(home.world, n, foreign.world, m, r) && r.msgHash == row.msgHash)
      && (UnknownErcConfirmation(q, p, min, RefOf(x))
          <==> row.Signed? && timed && atHome
               && !exists r :: ErcRequested(home.world, n, foreign.world, m, r) && r.msgHash == row.msgHash)
      && (UnknownExecution(q, p, min, RefOf(x))
          <==> row.Executed? && timed && (atHome || abroad)
               && !exists r :: MessageRequested(home.world, n, foreign.world, m, r) && r.messageId == row.messageId)
      && (UnknownErcExecution(q, p, min, RefOf(x))
          <==> row.Executed? && timed && (atHome || abroad)
               && !exists r :: ErcRequested(home.world, n, foreign.world, m, r) && r.msgHash == row.messageId)
      && (UnknownInformation(q, p, min, RefOf(x))
          <==> (row.SignedInformation? || row.ExecutedInformation?) && timed && atHome
               && !exists r :: InformationAsked(home.world, n, r) && r.messageId == row.messageId)
  {
    ReportedExactly(home, foreign, d, q, p, time, us, min, v, x, row);
    TablesExactly(home.world, home.acts + home.more, home.atQuery, n,
                  foreign.world, foreign.acts + foreign.more, foreign.atQuery, m, us);
    WrittenIsAsked(home.world, home.acts + home.more, home.atQuery, n,
                   foreign.world, foreign.acts + foreign.more, foreign.atQuery, m, us);
    if row.Signed? { KeysOfRequests(home.world, n, foreign.world, m, us, row.msgHash); }
    if row.Executed? || row.SignedInformation? || row.ExecutedInformation? {
      KeysOfRequests(home.world, n, foreign.world, m, us, row.messageId);
    }
  }
}
