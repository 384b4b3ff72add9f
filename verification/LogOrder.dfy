/** Sorting logs by block and index. */
module LogOrder {
  import opened Entities

  lemma OrderedAppend(a: seq<Log>, b: seq<Log>)
    requires Ordered(a) && Ordered(b)
    requires forall x, y :: x in a && y in b ==> Before(x, y)
    ensures Ordered(a + b)
  {}

  lemma BeforeMeansEarlier(logs: seq<Log>, i: nat, j: nat)
    requires Ordered(logs) && i < |logs| && j < |logs| && Before(logs[i], logs[j])
    ensures i < j
  {}

  lemma OrderedRefs(logs: seq<Log>, i: nat, j: nat)
    requires Ordered(logs) && i < |logs| && j < |logs| && RefOf(logs[i]) == RefOf(logs[j])
    ensures i == j
  {}

  /** sort.Slice with the comparison of the source. */
  predicate Less(a: Log, b: Log) {
    a.block < b.block || (a.block == b.block && a.index < b.index)
  }

  function Insert(l: Log, logs: seq<Log>): seq<Log> {
    if logs == [] || !Less(logs[0], l) then [l] + logs else [logs[0]] + Insert(l, logs[1..])
  }

  function Sort(logs: seq<Log>): seq<Log> {
    if logs == [] then [] else Insert(logs[0], Sort(logs[1..]))
  }

  lemma {:induction false} InsertSorts(l: Log, logs: seq<Log>)
    requires Ordered(logs)
    requires forall x :: x in logs ==> x.chainId == l.chainId && (Less(x, l) || Less(l, x))
    ensures Ordered(Insert(l, logs))
    ensures forall x :: x in Insert(l, logs) <==> x == l || x in logs
  {
    if logs == [] || !Less(logs[0], l) {
      if logs != [] { assert logs[0] in logs; }
      assert Ordered([l]);
      forall y | y in logs ensures Before(l, y) {
        if y != logs[0] { TailMember(logs, y); }
      }
      OrderedAppend([l], logs);
    } else {
      var rest := logs[1..];
      assert logs == [logs[0]] + rest;
      InsertSorts(l, rest);
      forall y | y in Insert(l, rest) ensures Before(logs[0], y) {
        if y in rest { TailMember(logs, y); }
      }
      assert logs[0] in logs;
      OrderedAppend([logs[0]], Insert(l, rest));
    }
  }

  ghost predicate DistinctPositions(logs: seq<Log>) {
    forall i, j :: 0 <= i < j < |logs| ==> Less(logs[i], logs[j]) || Less(logs[j], logs[i])
  }

  lemma {:induction false} SortSorts(chainId: nat, logs: seq<Log>)
    requires DistinctPositions(logs)
    requires forall x :: x in logs ==> x.chainId == chainId
    ensures Ordered(Sort(logs))
    ensures forall x :: x in Sort(logs) <==> x in logs
  {
    if logs != [] {
      var rest := logs[1..];
      assert logs == [logs[0]] + rest;
      SortSorts(chainId, rest);
      assert logs[0] in logs;
      forall x | x in Sort(rest) ensures x.chainId == logs[0].chainId && (Less(x, logs[0]) || Less(logs[0], x)) {
        assert x in rest;
        var k :| 0 <= k < |rest| && rest[k] == x;
        assert logs[k + 1] == x && logs[k + 1] in logs;
      }
      InsertSorts(logs[0], Sort(rest));
    }
  }
}
