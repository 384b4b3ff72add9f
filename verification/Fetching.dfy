/** Building the log queries of a block range and merging their answers
    (monitor/contract_monitor.go). */
module Fetching {
  import opened Entities
  import opened Sequences
  import opened BlockRanges
  import opened Chains
  import opened LogOrder

  datatype Query = Query(first: nat, last: nat, addresses: seq<Address>, topic2: Option<Hash>)

  predicate Selects(q: Query, l: Log) {
    q.first <= l.block <= q.last && l.address in q.addresses && (q.topic2.Some? ==> l.topic2 == q.topic2)
  }

  predicate OutOfLife(t: Token, r: Range) { r.last < t.startBlock || r.first > t.endBlock }

  function TokenQuery(cfg: SideConfig, t: Token, r: Range): Query {
    Query(if t.startBlock > r.first then t.startBlock else r.first,
          if t.endBlock < r.last then t.endBlock else r.last,
          [t.address], Some(Padded(cfg.address)))
  }

  function TokenQueries(cfg: SideConfig, tokens: seq<Token>, r: Range): seq<Query> {
    if tokens == [] then []
    else
      var rest := tokens[..|tokens| - 1];
      var t := tokens[|tokens| - 1];
      if OutOfLife(t, r) then TokenQueries(cfg, rest, r)
      else TokenQueries(cfg, rest, r) + [TokenQuery(cfg, t, r)]
  }

  function Queries(w: World, r: Range): seq<Query> {
    [Query(r.first, r.last, [w.Cfg().address, w.Cfg().validators], None)]
    + if w.Mode().ErcToNative? then TokenQueries(w.Cfg(), w.Cfg().tokens, r) else []
  }

  method BuildFilterQueries(w: World, r: Range) returns (queries: seq<Query>)
    ensures queries == Queries(w, r)
  {
    var cfg := w.Cfg();
    queries := [Query(r.first, r.last, [cfg.address, cfg.validators], None)];
    if w.Mode().ErcToNative? {
      ghost var head := queries;
      for i := 0 to |cfg.tokens|
        invariant queries == head + TokenQueries(cfg, cfg.tokens[..i], r)
      {
        var token := cfg.tokens[i];
        assert cfg.tokens[..i + 1][..i] == cfg.tokens[..i];
        if r.last < token.startBlock || r.first > token.endBlock {
          continue;
        }
        var q := Query(r.first, r.last, [token.address], Some(Padded(cfg.address)));
        if token.startBlock > r.first {
          q := q.(first := token.startBlock);
        }
        if token.endBlock < r.last {
          q := q.(last := token.endBlock);
        }
        Assoc(head, TokenQueries(cfg, cfg.tokens[..i], r), [q]);
        queries := queries + [q];
      }
      assert cfg.tokens[..|cfg.tokens|] == cfg.tokens;
    }
  }

  /** Which token queries there are: those of the live tokens, non-inverted and clipped. */
  lemma {:induction false} TokenQueriesAre(cfg: SideConfig, tokens: seq<Token>, r: Range)
    ensures forall q :: q in TokenQueries(cfg, tokens, r) <==>
      exists t :: t in tokens && !OutOfLife(t, r) && q == TokenQuery(cfg, t, r)
  {
    if tokens != [] {
      var rest := tokens[..|tokens| - 1];
      var t := tokens[|tokens| - 1];
      TokenQueriesAre(cfg, rest, r);
      assert forall x :: x in tokens <==> x in rest || x == t;
    }
  }

  /** Every query is non-inverted and stays inside the range; a token query also stays inside
      the lifetime of its token. */
  lemma QueriesClipped(w: World, r: Range)
    requires ValidWorld(w) && r.first <= r.last
    ensures forall q :: q in Queries(w, r) ==> r.first <= q.first <= q.last <= r.last
    ensures forall q :: q in Queries(w, r) && q.topic2.Some? ==>
      exists t :: t in w.Cfg().tokens && q.addresses == [t.address]
                  && t.startBlock <= q.first && q.last <= t.endBlock
  {
    TokenQueriesAre(w.Cfg(), w.Cfg().tokens, r);
  }

  /** A log of the range is relevant exactly when one of the queries selects it. */
  lemma QueriesSelect(w: World, r: Range, l: Log)
    requires r.first <= l.block <= r.last
    ensures Relevant(w, l) <==> exists q :: q in Queries(w, r) && Selects(q, l)
  {
    TokenQueriesAre(w.Cfg(), w.Cfg().tokens, r);
    var base := Query(r.first, r.last, [w.Cfg().address, w.Cfg().validators], None);
    assert Queries(w, r)[0] == base;
    if l.address == w.Cfg().address || l.address == w.Cfg().validators {
      assert Selects(base, l);
    } else if Relevant(w, l) {
      var t :| t in w.Cfg().tokens && SeenThrough(w.Cfg(), t, l);
      var q := TokenQuery(w.Cfg(), t, r);
      assert q in Queries(w, r) && Selects(q, l);
    }
    if q :| q in Queries(w, r) && Selects(q, l) { SelectedIsRelevant(w, r, q, l); }
  }

  lemma SelectedIsRelevant(w: World, r: Range, q: Query, l: Log)
    requires q in Queries(w, r) && Selects(q, l)
    ensures Relevant(w, l)
  {
    TokenQueriesAre(w.Cfg(), w.Cfg().tokens, r);
    var base := Query(r.first, r.last, [w.Cfg().address, w.Cfg().validators], None);
    if q != base {
      var t :| t in w.Cfg().tokens && !OutOfLife(t, r) && q == TokenQuery(w.Cfg(), t, r);
      assert SeenThrough(w.Cfg(), t, l);
    }
  }

  /** No two queries of a range can select the same log. */
  lemma QueriesDisjoint(w: World, r: Range, i: nat, j: nat, l: Log)
    requires ValidWorld(w)
    requires i < j < |Queries(w, r)|
    ensures !(Selects(Queries(w, r)[i], l) && Selects(Queries(w, r)[j], l))
  {
    var cfg := w.Cfg();
    var tqs := TokenQueries(cfg, cfg.tokens, r);
    var t := QueriedToken(cfg, r, j - 1);
    assert Queries(w, r)[j] == tqs[j - 1];
    assert [t.address][0] == t.address;
    if i > 0 {
      var u := QueriedToken(cfg, r, i - 1);
      assert Queries(w, r)[i] == tqs[i - 1];
      TokenQueryOrder(cfg, cfg.tokens, r, i - 1, j - 1);
      assert [u.address][0] == u.address;
    }
  }

  lemma QueriedToken(cfg: SideConfig, r: Range, k: nat) returns (t: Token)
    requires k < |TokenQueries(cfg, cfg.tokens, r)|
    ensures t in cfg.tokens && TokenQueries(cfg, cfg.tokens, r)[k] == TokenQuery(cfg, t, r)
  {
    TokenQueriesAre(cfg, cfg.tokens, r);
    var tqs := TokenQueries(cfg, cfg.tokens, r);
    assert tqs[k] in tqs;
    t :| t in cfg.tokens && tqs[k] == TokenQuery(cfg, t, r);
  }

  lemma {:induction false} TokenQueryOrder(cfg: SideConfig, tokens: seq<Token>, r: Range, i: nat, j: nat)
    requires forall a, b :: 0 <= a < b < |tokens| ==> tokens[a].address != tokens[b].address
    requires i < j < |TokenQueries(cfg, tokens, r)|
    ensures TokenQueries(cfg, tokens, r)[i].addresses != TokenQueries(cfg, tokens, r)[j].addresses
  {
    var n := |tokens| - 1;
    var rest := tokens[..n];
    var qs := TokenQueries(cfg, rest, r);
    if j < |qs| {
      TokenQueryOrder(cfg, rest, r, i, j);
    } else {
      TokenQueriesAre(cfg, rest, r);
      assert qs[i] in qs;
      var t :| t in rest && qs[i] == TokenQuery(cfg, t, r);
      var k :| 0 <= k < n && rest[k] == t;
      assert tokens[k].address != tokens[n].address;
      assert qs[i].addresses[0] != [tokens[n].address][0];
    }
  }

  /** A log answer is complete for its query: exactly the selected logs of the chain, each once,
      in any order. */
  ghost predicate Complete(w: World, q: Query, answer: seq<Log>) {
    && (forall l :: l in answer <==> l in w.ChainLogs(l.block) && Selects(q, l))
    && (forall i, j :: 0 <= i < j < |answer| ==> answer[i] != answer[j])
  }

  /** A chain log that one of the first n queries selects. */
  predicate Picked(w: World, queries: seq<Query>, n: nat, l: Log)
    requires n <= |queries|
  {
    l in w.ChainLogs(l.block) && exists k :: 0 <= k < n && Selects(queries[k], l)
  }

  /** Asks the node every query of the range; one failure fails the whole attempt. */
  method TryToFetch(w: World, r: Range, node: Query -> Option<seq<Log>>) returns (res: Option<seq<Log>>)
    requires ValidWorld(w)
    requires forall q :: node(q).Some? ==> Complete(w, q, node(q).value)
    ensures res.Some? ==> res.value == Between(w, r.first, r.last + 1)
    ensures res.None? <==> exists q :: q in Queries(w, r) && node(q).None?
  {
    var queries := BuildFilterQueries(w, r);
    var logs: seq<Log> := [];
    for i := 0 to |queries|
      invariant forall k :: 0 <= k < i ==> node(queries[k]).Some?
      invariant forall l :: l in logs <==> Picked(w, queries, i, l)
      invariant forall a, b :: 0 <= a < b < |logs| ==> logs[a] != logs[b]
    {
      var answer := node(queries[i]);
      if answer.None? {
        assert queries[i] in queries;
        return None;
      }
      NothingTwice(w, r, i, logs, answer.value);
      logs := Merge(w, queries, i, logs, answer.value);
    }
    MergedIsBetween(w, r, logs);
    res := Some(Sort(logs));
  }

  lemma NothingTwice(w: World, r: Range, i: nat, logs: seq<Log>, answer: seq<Log>)
    requires ValidWorld(w) && i < |Queries(w, r)| && Complete(w, Queries(w, r)[i], answer)
    requires forall l :: l in logs <==> Picked(w, Queries(w, r), i, l)
    ensures forall a, b :: 0 <= a < |logs| && 0 <= b < |answer| ==> logs[a] != answer[b]
  {
    forall a, b | 0 <= a < |logs| && 0 <= b < |answer| ensures logs[a] != answer[b] {
      assert logs[a] in logs && answer[b] in answer;
      var k :| 0 <= k < i && Selects(Queries(w, r)[k], logs[a]);
      QueriesDisjoint(w, r, k, i, logs[a]);
    }
  }

  function Merge(w: World, ghost queries: seq<Query>, ghost i: nat, logs: seq<Log>, answer: seq<Log>): (all: seq<Log>)
    requires i < |queries| && Complete(w, queries[i], answer)
    requires forall l :: l in logs <==> Picked(w, queries, i, l)
    requires forall a, b :: 0 <= a < b < |logs| ==> logs[a] != logs[b]
    requires forall a, b :: 0 <= a < |logs| && 0 <= b < |answer| ==> logs[a] != answer[b]
    ensures forall l :: l in all <==> Picked(w, queries, i + 1, l)
    ensures forall a, b :: 0 <= a < b < |all| ==> all[a] != all[b]
  {
    assert forall l :: l in logs + answer <==> l in logs || l in answer;
    assert forall l :: Picked(w, queries, i + 1, l) <==>
      Picked(w, queries, i, l) || (l in w.ChainLogs(l.block) && Selects(queries[i], l));
    logs + answer
  }

  /** Distinct chain logs selected by the queries of a range, once sorted, are the one unchunked
      query of that range. */
  lemma MergedIsBetween(w: World, r: Range, logs: seq<Log>)
    requires ValidWorld(w)
    requires forall l :: l in logs <==> Picked(w, Queries(w, r), |Queries(w, r)|, l)
    requires forall a, b :: 0 <= a < b < |logs| ==> logs[a] != logs[b]
    ensures Sort(logs) == Between(w, r.first, r.last + 1)
  {
    forall l ensures l in logs <==> OnChain(w, l) && r.first <= l.block < r.last + 1 {
      SelectedExactly(w, r, l);
    }
    ChainLogsSort(w, logs);
    BetweenUnique(w, r.first, r.last + 1, Sort(logs));
  }

  lemma ChainLogsSort(w: World, logs: seq<Log>)
    requires ValidChain(w) && forall l :: l in logs ==> OnChain(w, l)
    requires forall a, b :: 0 <= a < b < |logs| ==> logs[a] != logs[b]
    ensures Ordered(Sort(logs)) && forall l :: l in Sort(logs) <==> l in logs
  {
    forall l | l in logs ensures l.chainId == w.Cfg().chainId { OnOneChain(w, l); }
    forall i, j | 0 <= i < j < |logs| ensures Less(logs[i], logs[j]) || Less(logs[j], logs[i]) {
      assert logs[i] in logs && logs[j] in logs;
      ChainLogsApart(w, logs[i], logs[j]);
    }
    SortSorts(w.Cfg().chainId, logs);
  }

  lemma ChainLogsApart(w: World, x: Log, y: Log)
    requires ValidChain(w) && OnChain(w, x) && OnChain(w, y) && x != y
    ensures Less(x, y) || Less(y, x)
  {
    OnOneChain(w, x);
    OnOneChain(w, y);
    if x.block == y.block {
      assert ValidBlock(w, x.block);
      var logs := w.ChainLogs(x.block);
      var i :| 0 <= i < |logs| && logs[i] == x;
      var j :| 0 <= j < |logs| && logs[j] == y;
    }
  }

  /** The queries of a range select, of all chain logs, the relevant ones of the range. */
  lemma SelectedExactly(w: World, r: Range, l: Log)
    ensures OnChain(w, l) && r.first <= l.block <= r.last
      <==> Picked(w, Queries(w, r), |Queries(w, r)|, l)
  {
    var qs := Queries(w, r);
    KeepRelevantMember(w, w.ChainLogs(l.block), l);
    if r.first <= l.block <= r.last {
      QueriesSelect(w, r, l);
      assert (exists q :: q in qs && Selects(q, l)) <==> exists k :: 0 <= k < |qs| && Selects(qs[k], l);
    } else if exists k :: 0 <= k < |qs| && Selects(qs[k], l) {
      var k :| 0 <= k < |qs| && Selects(qs[k], l);
      SelectedInRange(w, r, k, l);
    }
  }

  lemma SelectedInRange(w: World, r: Range, k: nat, l: Log)
    requires k < |Queries(w, r)| && Selects(Queries(w, r)[k], l)
    ensures r.first <= l.block <= r.last
  {
    TokenQueriesAre(w.Cfg(), w.Cfg().tokens, r);
    assert Queries(w, r)[k] in Queries(w, r);
  }

  /** All that the first n of some chunks submit, batch after batch. */
  function SubmittedBy(w: World, chunks: seq<Range>, n: nat): seq<Batch>
    requires n <= |chunks|
  {
    if n == 0 then []
    else
      var c := chunks[n - 1];
      SubmittedBy(w, chunks, n - 1) + Submissions(Between(w, c.first, c.last + 1), c.last)
  }

  lemma OneMoreChunk(w: World, chunks: seq<Range>, n: nat)
    requires 0 < n <= |chunks|
    ensures Flatten(SubmittedBy(w, chunks, n)) == Flatten(SubmittedBy(w, chunks, n - 1))
            + Between(w, chunks[n - 1].first, chunks[n - 1].last + 1)
  {
    var c := chunks[n - 1];
    var own := Between(w, c.first, c.last + 1);
    FlattenAppend(SubmittedBy(w, chunks, n - 1), Submissions(own, c.last));
    SubmissionsFlatten(own, c.last);
  }

  lemma NextChunk(w: World, chunks: seq<Range>, n: nat, lo: nat, mid: nat, last: nat)
    requires 1 < n <= |chunks| && chunks[n - 1] == Range(mid, last) && lo <= mid <= last
    requires Flatten(SubmittedBy(w, chunks, n - 1)) == Between(w, lo, mid)
    ensures Flatten(SubmittedBy(w, chunks, n)) == Between(w, lo, last + 1)
  {
    OneMoreChunk(w, chunks, n);
    BetweenSplit(w, lo, mid, last + 1);
  }

  lemma {:induction false} ContiguousChunks(w: World, chunks: seq<Range>, n: nat)
    requires 0 < n <= |chunks|
    requires forall i :: 0 <= i < |chunks| ==> chunks[i].first <= chunks[i].last
    requires forall i, j :: 0 <= i < j < |chunks| && j == i + 1 ==> chunks[j].first == chunks[i].last + 1
    ensures chunks[0].first <= chunks[n - 1].first
    ensures Flatten(SubmittedBy(w, chunks, n)) == Between(w, chunks[0].first, chunks[n - 1].last + 1)
  {
    if n == 1 {
      OneMoreChunk(w, chunks, 1);
      Empty(Between(w, chunks[0].first, chunks[0].last + 1));
    } else {
      ContiguousChunks(w, chunks, n - 1);
      NextChunk(w, chunks, n, chunks[0].first, chunks[n - 2].last + 1, chunks[n - 1].last);
    }
  }

  /** Splitting, fetching, sorting and batching a range chunk by chunk hands out the same logs,
      in the same order and each once, as one unchunked query of the range. */
  lemma ChunkedFetchIsOneQuery(w: World, first: nat, last: nat, size: nat)
    requires size >= 1
    ensures var chunks := Chunks(first, last, size);
      Flatten(SubmittedBy(w, chunks, |chunks|)) == Between(w, first, last + 1)
  {
    ChunksPartition(first, last, size);
    var chunks := Chunks(first, last, size);
    if chunks != [] { ContiguousChunks(w, chunks, |chunks|); }
  }
}
