/** The database as one contract monitor uses it: the logs, message and validator tables, the cursor
    row of the monitor, and the block timestamps of its chain. A statement may fail before or after
    it takes effect. */
module Storage {
  import opened Entities
  import opened Sequences
  import opened BlockRanges
  import opened Chains
  import opened LogsTable
  import opened Tables
  import opened Handlers
  import opened Validators
  import opened EventHandlers
  import opened Pipeline

  class Database {
    const logs: LogsRepo
    const handler: BridgeEventHandler
    var cursor: Option<Cursor>
    var times: set<nat>
    // What was done so far.
    ghost var handled: seq<Log>
    ghost var attempted: set<Log>
    ghost var upserts: seq<Upsert>
    ghost var steps: seq<Log>
    ghost var written: set<Cursor>
    ghost var sent: set<Cursor>

    ghost predicate Valid(w: World)
      reads this, logs, handler
    {
      handler.logs == logs && handler.Serves(w) && handler.tables == ApplyAll(NO_ROWS, upserts)
    }

    /** The validators table is one that the validator statements made so far may have left. */
    ghost predicate Tracks()
      reads this`steps, handler, handler.validators
    {
      Played(steps, map[], handler.validators.rows)
    }

    ghost function View(): Db
      reads this, logs
    {
      Db(cursor, logs.Logs(), times, handled, attempted, upserts, steps, written, sent)
    }

    constructor (w: World)
      ensures Valid(w) && Tracks() && View() == EMPTY_DB
      ensures fresh(logs) && fresh(handler) && fresh(handler.validators)
    {
      var l := new LogsRepo();
      var v := new ValidatorsRepo();
      var h := new BridgeEventHandler(w, l, v);
      logs, handler := l, h;
      cursor, times := None, {};
      handled, attempted, upserts, steps, written, sent := [], {}, [], [], {}, {};
    }

    /** LogsCursors.Ensure: the whole row is overwritten. No statement gets through on a cancelled
        context. */
    method EnsureCursor(c: Cursor, cancelled: bool) returns (ok: bool, ghost applied: bool)
      modifies this`cursor, this`written
      ensures View() == if applied then WriteRow(old(View()), c) else old(View())
      ensures ok ==> applied
      ensures cancelled ==> !applied
    {
      var reached: bool := *;
      var answered: bool := *;
      if reached && !cancelled {
        cursor := Some(c);
        written := written + {c};
      }
      ok, applied := reached && !cancelled && answered, reached && !cancelled;
    }

    /** Logs.Ensure of the logs of a range. */
    method SaveLogs(w: World, ghost r: Range, batch: seq<Log>, cancelled: bool) returns (ok: bool, ghost applied: bool)
      requires Valid(w) && batch == RangeLogs(w, r) && DistinctRefs(batch)
      requires UniqueRefs(logs.Logs() + AsSet(batch))
      modifies logs
      ensures Valid(w)
      ensures View() == if applied then SaveIn(w, old(View()), r) else old(View())
      ensures ok ==> applied
      ensures cancelled ==> !applied
    {
      var reached: bool := *;
      var answered: bool := *;
      ok, applied := reached && !cancelled && answered, reached && !cancelled;
      if reached && !cancelled {
        ghost var rows := logs.rows;
        var ids := logs.Ensure(batch);
        NoConflict(rows, logs.rows, batch);
        assert logs.Logs() == old(logs.Logs()) + AsSet(batch);
      }
    }

    /** BlockTimestamps.GetByBlockNumber, and Ensure if there is none yet. */
    method EnsureTime(b: nat, cancelled: bool) returns (ok: bool, ghost applied: bool)
      modifies this`times
      ensures times == if applied then old(times) + {b} else old(times)
      ensures ok ==> applied
      ensures cancelled ==> !applied
    {
      var available: bool := *;
      if !available || cancelled { return false, false; }
      if b in times {
        assert times + {b} == times;
        return true, true;
      }
      var reached: bool := *;
      var answered: bool := *;
      if reached { times := times + {b}; }
      ok, applied := reached && answered, reached;
    }

    /** The handler of one log; what it did is recorded. */
    method HandleLog(w: World, l: Log) returns (outcome: Outcome, ghost n: nat, ghost stepped: bool)
      requires Valid(w)
      modifies this`handled, this`attempted, this`upserts, this`steps, handler, handler.validators
      ensures Valid(w) && (old(Tracks()) ==> Tracks()) && UniqueRefs(old(View()).logs)
      ensures outcome.Panicked? || (outcome.Failed? && n == 0 && !stepped) ==> View() == old(View())
      ensures outcome.Done? ==> stepped && CanMake(w, old(View()), l, n) && n == |Effects(w, old(View()).logs, l).value|
      ensures outcome.Failed? && (n > 0 || stepped) ==> CanMake(w, old(View()), l, n)
      ensures outcome.Done? || (outcome.Failed? && (n > 0 || stepped)) ==>
        View() == HandleIn(w, old(View()), l, n, stepped, outcome.Done?)
    {
      logs.Unique();
      ghost var rows, tracked := handler.validators.rows, Tracks();
      outcome, n, stepped := handler.Handle(w, l);
      ghost var effects := Effects(w, logs.Logs(), l);
      if stepped {
        if tracked { PlayedMore(steps, map[], rows, l, handler.validators.rows); }
        steps := steps + [l];
      }
      if outcome.Done? || (outcome.Failed? && (n > 0 || stepped)) {
        ghost var made := effects.value[..n];
        assert n == |effects.value| ==> made == effects.value;
        ApplyAppend(NO_ROWS, upserts, made);
        handled := if outcome.Done? then handled + [l] else handled;
        attempted := attempted + {l};
        upserts := upserts + made;
      }
    }
  }

  lemma {:induction false} ApplyAppend(t: Tables, a: seq<Upsert>, b: seq<Upsert>)
    ensures ApplyAll(t, a + b) == ApplyAll(ApplyAll(t, a), b)
  {
    if b == [] {
      Empty(a);
    } else {
      var rest, last := b[..|b| - 1], b[|b| - 1];
      ApplyAppend(t, a, rest);
      assert (a + b)[..|a + b| - 1] == a + rest;
    }
  }

  /** With no conflict between a log and a row of the same key, exactly the logs are added. */
  lemma NoConflict(before: map<LogRef, Row>, after: map<LogRef, Row>, batch: seq<Log>)
    requires Inserted(before, after, batch)
    requires forall k :: k in after ==> RefOf(after[k].log) == k
    requires UniqueRefs((set k | k in before :: before[k].log) + AsSet(batch))
    ensures (set k | k in after :: after[k].log) == (set k | k in before :: before[k].log) + AsSet(batch)
  {
    var old' := set k | k in before :: before[k].log;
    forall l | l in old' + AsSet(batch) ensures l in (set k | k in after :: after[k].log) {
      if l in AsSet(batch) {
        var k := RefOf(l);
        if k in before { assert before[k].log in old'; } else { assert after[k].log in AsSet(batch); }
        assert after[k].log == l;
      } else {
        var k :| k in before && before[k].log == l;
        assert k in after && after[k].log == l;
      }
    }
    forall l | l in (set k | k in after :: after[k].log) ensures l in old' + AsSet(batch) {
      var k :| k in after && after[k].log == l;
      if k in before { assert before[k].log in old'; }
    }
  }
}
