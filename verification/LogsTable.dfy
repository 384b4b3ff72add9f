/** The logs table (repository/postgres/logs.go): upsert under the unique key
    (chain_id, block_number, log_index), and filtered, ordered selection. */
module LogsTable {
  import opened Entities
  import opened LogOrder

  datatype Topic = ErcRequestTopic | TransferTopic

  predicate HasTopic(l: Log, t: Topic) {
    match t
    case ErcRequestTopic => l.event.ErcRequest?
    case TransferTopic => l.event.Transfer?
  }

  /** A filter on one chain and one block interval. No address means any address. */
  datatype Filter = Filter(chainId: nat, addresses: seq<Address>, first: nat, last: nat,
                           txHash: Option<Hash>, topic0: Option<Topic>, topic2: Option<Hash>)

  predicate Matches(f: Filter, l: Log) {
    && l.chainId == f.chainId
    && (f.addresses == [] || l.address in f.addresses)
    && f.first <= l.block <= f.last
    && (f.txHash.Some? ==> l.txHash == f.txHash.value)
    && (f.topic0.Some? ==> HasTopic(l, f.topic0.value))
    && (f.topic2.Some? ==> l.topic2 == f.topic2)
  }

  /** The unique index of the table. */
  ghost predicate UniqueRefs(table: set<Log>) {
    forall a, b :: a in table && b in table && RefOf(a) == RefOf(b) ==> a == b
  }

  lemma {:induction false} FirstExists(s: set<Log>) returns (m: Log)
    requires s != {} && UniqueRefs(s)
    ensures m in s && forall x :: x in s ==> x == m || Before(m, x)
  {
    var y :| y in s;
    if s == {y} {
      m := y;
    } else {
      var n := FirstExists(s - {y});
      assert RefOf(n) != RefOf(y);
      m := if Before(y, n) then y else n;
      forall x | x in s ensures x == m || Before(m, x) {
        if x != y { assert x in s - {y}; }
      }
    }
  }

  ghost function Sorted(s: set<Log>): seq<Log>
    requires UniqueRefs(s)
  {
    if s == {} then []
    else
      assert exists m :: m in s && forall x :: x in s ==> x == m || Before(m, x) by {
        var m := FirstExists(s);
      }
      var m :| m in s && forall x :: x in s ==> x == m || Before(m, x);
      [m] + Sorted(s - {m})
  }

  lemma HeadFirst(m: Log, rest: seq<Log>)
    requires Ordered(rest) && forall l :: l in rest ==> Before(m, l)
    ensures Ordered([m] + rest)
  {}

  lemma {:induction false} SortedIs(s: set<Log>)
    requires UniqueRefs(s)
    ensures Ordered(Sorted(s))
    ensures forall l :: l in Sorted(s) <==> l in s
  {
    if s != {} {
      var m := Sorted(s)[0];
      var rest := Sorted(s)[1..];
      assert rest == Sorted(s - {m});
      SortedIs(s - {m});
      assert forall l :: l in rest ==> Before(m, l);
      HeadFirst(m, rest);
      assert Sorted(s) == [m] + rest;
    }
  }

  ghost function Select(table: set<Log>, f: Filter): set<Log> {
    set l | l in table && Matches(f, l)
  }

  /** SELECT * WHERE filter ORDER BY chain_id, block_number, log_index. */
  ghost function Find(table: set<Log>, f: Filter): seq<Log>
    requires UniqueRefs(table)
  {
    Sorted(Select(table, f))
  }

  lemma FoundAll(table: set<Log>, f: Filter, res: seq<Log>)
    requires UniqueRefs(table) && Ordered(res)
    requires forall l :: l in res <==> l in table && Matches(f, l)
    ensures res == Find(table, f)
  {
    SortedIs(Select(table, f));
    OrderedUnique(res, Find(table, f));
  }

  /** A row of the table: its serial id and its log. */
  datatype Row = Row(id: nat, log: Log)

  class LogsRepo {
    var rows: map<LogRef, Row>
    var nextId: nat

    ghost predicate Valid()
      reads this
    {
      && (forall k :: k in rows ==> rows[k].id < nextId && RefOf(rows[k].log) == k)
      && (forall j, k :: j in rows && k in rows && rows[j].id == rows[k].id ==> j == k)
    }

    ghost function Logs(): set<Log>
      reads this
    {
      set k | k in rows :: rows[k].log
    }

    constructor ()
      ensures Valid() && Logs() == {}
    {
      rows := map[];
      nextId := 0;
    }

    lemma Unique()
      requires Valid()
      ensures UniqueRefs(Logs())
    {}

    /** SELECT * WHERE filter ORDER BY chain_id, block_number, log_index. */
    method FindLogs(f: Filter) returns (res: seq<Log>)
      requires Valid()
      ensures UniqueRefs(Logs()) && res == Find(Logs(), f)
    {
      res := [];
      var todo := rows;
      while todo != map[]
        invariant todo.Keys <= rows.Keys && forall k :: k in todo ==> todo[k] == rows[k]
        invariant Ordered(res)
        invariant forall l :: l in res <==>
          RefOf(l) in rows && RefOf(l) !in todo && rows[RefOf(l)].log == l && Matches(f, l)
        decreases |todo|
      {
        var k :| k in todo;
        var l := todo[k].log;
        if Matches(f, l) {
          InsertSorts(l, res);
          res := Insert(l, res);
        }
        todo := todo - {k};
      }
      Unique();
      FoundAll(Logs(), f, res);
    }

    method EnsureOne(l: Log) returns (id: nat)
      requires Valid()
      modifies this
      ensures Valid()
      ensures RefOf(l) in old(rows) ==> rows == old(rows)
      ensures RefOf(l) !in old(rows) ==> rows == old(rows)[RefOf(l) := Row(old(nextId), l)]
      ensures id == rows[RefOf(l)].id
    {
      if RefOf(l) !in rows {
        rows := rows[RefOf(l) := Row(nextId, l)];
      }
      nextId := nextId + 1;
      id := rows[RefOf(l)].id;
    }

    /** Inserts the logs whose key is new, leaves the others as they are, and hands back the id of
        every log. Two logs with one key in a single statement are an error, and change nothing. */
    method Ensure(logs: seq<Log>) returns (ids: Option<seq<nat>>)
      requires Valid()
      modifies this
      ensures Valid()
      ensures ids.None? <==> !DistinctRefs(logs)
      ensures ids.None? ==> rows == old(rows)
      ensures ids.Some? ==> Inserted(old(rows), rows, logs) && Returned(rows, logs, ids.value)
    {
      var distinct := HasDistinctRefs(logs);
      if !distinct { return None; }
      var res: seq<nat> := [];
      for i := 0 to |logs|
        invariant Valid() && Inserted(old(rows), rows, logs[..i]) && Returned(rows, logs[..i], res)
      {
        ghost var was := rows;
        var id := EnsureOne(logs[i]);
        InsertedStep(old(rows), was, rows, logs, i, res, id);
        res := res + [id];
      }
      assert logs[..|logs|] == logs;
      ids := Some(res);
    }
  }

  method HasDistinctRefs(logs: seq<Log>) returns (distinct: bool)
    ensures distinct == DistinctRefs(logs)
  {
    for i := 0 to |logs|
      invariant DistinctRefs(logs[..i])
    {
      for j := 0 to i
        invariant forall a :: 0 <= a < j ==> RefOf(logs[a]) != RefOf(logs[i])
      {
        if RefOf(logs[j]) == RefOf(logs[i]) { return false; }
      }
    }
    distinct := true;
  }

  /** The new rows are the old ones, untouched, and one for each log whose key was free. */
  ghost predicate Inserted(before: map<LogRef, Row>, after: map<LogRef, Row>, logs: seq<Log>) {
    && (forall k :: k in before ==> k in after && after[k] == before[k])
    && (forall l :: l in logs ==> RefOf(l) in after)
    && (forall k :: k in after && k !in before ==> after[k].log in logs && RefOf(after[k].log) == k)
  }

  ghost predicate Returned(rows: map<LogRef, Row>, logs: seq<Log>, ids: seq<nat>) {
    |ids| == |logs| && forall i :: 0 <= i < |logs| ==> RefOf(logs[i]) in rows && ids[i] == rows[RefOf(logs[i])].id
  }

  lemma InsertedStep(first: map<LogRef, Row>, before: map<LogRef, Row>, after: map<LogRef, Row>,
                     logs: seq<Log>, i: nat, res: seq<nat>, id: nat)
    requires i < |logs| && Inserted(first, before, logs[..i]) && Returned(before, logs[..i], res)
    requires RefOf(logs[i]) in before ==> after == before
    requires var k := RefOf(logs[i]);
      k !in before ==> k in after && after[k].log == logs[i] && after == before[k := after[k]]
    requires id == after[RefOf(logs[i])].id
    ensures Inserted(first, after, logs[..i + 1]) && Returned(after, logs[..i + 1], res + [id])
  {
    assert logs[..i + 1] == logs[..i] + [logs[i]];
  }
}
