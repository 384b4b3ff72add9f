/** Queues of batches and of ranges that continue one another without a gap. */
module Queues {
  import opened Entities
  import opened Sequences
  import opened BlockRanges
  import opened Chains

  /** No relevant log strictly between two blocks. */
  ghost predicate Quiet(w: World, lo: int, hi: nat) {
    forall l :: OnChain(w, l) ==> !(lo < l.block < hi)
  }

  /** The batch is the whole block, or nothing of a block already passed. */
  predicate WholeBlock(w: World, c: nat, b: Batch) {
    b.logs == At(w, b.block) || (b.logs == [] && b.block <= c)
  }

  /** The queue goes on from block c without a gap: each batch has all the logs of its block, and
      no relevant block is skipped before it. */
  ghost predicate Fed(w: World, c: nat, q: seq<Batch>)
    decreases |q|
  {
    q == [] ||
    (Quiet(w, c, q[0].block) && WholeBlock(w, c, q[0]) && Fed(w, Max(c, q[0].block), q[1..]))
  }

  /** The block reached once the queue is processed. */
  function Reach(c: nat, q: seq<Batch>): nat
    decreases |q|
  {
    if q == [] then c else Reach(Max(c, q[0].block), q[1..])
  }

  /** The ranges go on from block c without a gap. */
  predicate Linked(c: nat, rs: seq<Range>)
    decreases |rs|
  {
    rs == [] || (rs[0].first <= c + 1 && rs[0].first <= rs[0].last + 1 && Linked(Max(c, rs[0].last), rs[1..]))
  }

  function RangeReach(c: nat, rs: seq<Range>): nat
    decreases |rs|
  {
    if rs == [] then c else RangeReach(Max(c, rs[0].last), rs[1..])
  }

  lemma {:induction false} FedAppend(w: World, c: nat, a: seq<Batch>, b: seq<Batch>)
    ensures Fed(w, c, a + b) <==> Fed(w, c, a) && Fed(w, Reach(c, a), b)
    ensures Reach(c, a + b) == Reach(Reach(c, a), b)
    decreases |a|
  {
    if a == [] {
      Empty(b);
    } else {
      SplitAppend(a, b, 1);
      FedAppend(w, Max(c, a[0].block), a[1..], b);
    }
  }

  lemma {:induction false} LinkedAppend(c: nat, a: seq<Range>, b: seq<Range>)
    ensures Linked(c, a + b) <==> Linked(c, a) && Linked(RangeReach(c, a), b)
    ensures RangeReach(c, a + b) == RangeReach(RangeReach(c, a), b)
    decreases |a|
  {
    if a == [] {
      Empty(b);
    } else {
      SplitAppend(a, b, 1);
      LinkedAppend(Max(c, a[0].last), a[1..], b);
    }
  }

  lemma {:induction false} ReachBound(c: nat, q: seq<Batch>, top: nat)
    requires c <= top && forall b :: b in q ==> b.block <= top
    ensures c <= Reach(c, q) <= top
    decreases |q|
  {
    if q != [] {
      assert q[0] in q;
      ReachBound(Max(c, q[0].block), q[1..], top);
    }
  }

  /** The batches of blocks [lo, hi): one for each block with relevant logs. */
  function BlockBatches(w: World, lo: nat, hi: nat): seq<Batch> {
    if lo >= hi then []
    else if At(w, hi - 1) == [] then BlockBatches(w, lo, hi - 1)
    else BlockBatches(w, lo, hi - 1) + [Batch(hi - 1, At(w, hi - 1))]
  }

  lemma {:induction false} BatchesAppend(a: seq<Log>, b: seq<Log>, block: nat, start: nat)
    requires start <= |a| && b != []
    requires forall l :: l in a ==> l.block < block
    requires forall l :: l in b ==> l.block == block
    ensures BatchesFrom(a + b, start) == BatchesFrom(a, start) + [Batch(block, b)]
    decreases |a| - start
  {
    TailOfAppend(a, b);
    if start == |a| {
      LastRun(a + b, start);
      Empty([Batch(block, b)]);
    } else {
      var n := RunEnd(a, start, start + 1);
      RunEndStops(a, start, start + 1);
      assert n == |a| ==> (a + b)[n] in b;
      NextBatch(a + b, start, n);
      SliceOfAppend(a, b, start, n);
      BatchesAppend(a, b, block, n);
      Assoc([Batch(a[start].block, a[start..n])], BatchesFrom(a, n), [Batch(block, b)]);
    }
  }

  lemma LastRun(logs: seq<Log>, start: nat)
    requires start < |logs|
    requires forall i :: start <= i < |logs| ==> logs[i].block == logs[start].block
    ensures BatchesFrom(logs, start) == [Batch(logs[start].block, logs[start..|logs|])]
  {
    NextBatch(logs, start, |logs|);
  }

  lemma LastBlockOf(w: World, lo: nat, hi: nat)
    requires lo < hi
    ensures Between(w, lo, hi) == Between(w, lo, hi - 1) + At(w, hi - 1)
    ensures At(w, hi - 1) == [] ==> BlockBatches(w, lo, hi) == BlockBatches(w, lo, hi - 1)
    ensures At(w, hi - 1) != [] ==>
      BlockBatches(w, lo, hi) == BlockBatches(w, lo, hi - 1) + [Batch(hi - 1, At(w, hi - 1))]
  {}

  lemma OneMoreBlock(w: World, lo: nat, b: nat, before: seq<Log>, own: seq<Log>, bs: seq<Batch>)
    requires ValidChain(w) && before == Between(w, lo, b) && own == At(w, b) && bs == Batches(before)
    ensures own == [] ==> Batches(before + own) == bs
    ensures own != [] ==> Batches(before + own) == bs + [Batch(b, own)]
  {
    forall l | l in before ensures l.block < b { BetweenMember(w, lo, b, l); }
    forall l | l in own ensures l.block == b { AtMember(w, b, l); }
    if own == [] {
      Empty(before);
    } else {
      BatchesAppend(before, own, b, 0);
    }
  }

  lemma NoBlocks(w: World, lo: nat, hi: nat)
    requires lo >= hi
    ensures Batches(Between(w, lo, hi)) == BlockBatches(w, lo, hi)
  {}

  lemma {:induction false} BatchesOfBlocks(w: World, lo: nat, hi: nat)
    requires ValidChain(w)
    ensures Batches(Between(w, lo, hi)) == BlockBatches(w, lo, hi)
    decreases hi
  {
    if lo < hi {
      var b := hi - 1;
      var before, own, bs := Between(w, lo, b), At(w, b), BlockBatches(w, lo, b);
      BatchesOfBlocks(w, lo, b);
      OneMoreBlock(w, lo, b, before, own, bs);
      LastBlockOf(w, lo, hi);
    } else {
      NoBlocks(w, lo, hi);
    }
  }

  predicate Ascending(q: seq<Batch>) {
    forall i, j :: 0 <= i < j < |q| ==> q[i].block < q[j].block
  }

  predicate InBlocks(q: seq<Batch>, n: nat) { exists b :: b in q && b.block == n }

  /** The batches are the blocks of [lo, hi) with relevant logs, in order. */
  ghost predicate Listed(w: World, lo: nat, hi: nat, q: seq<Batch>) {
    && Ascending(q)
    && (forall b :: b in q ==> lo <= b.block < hi && b.logs == At(w, b.block))
    && (forall l :: OnChain(w, l) && lo <= l.block < hi ==> InBlocks(q, l.block))
  }

  /** The queue goes on from block c, and leaves no relevant log between the block it reaches and hi. */
  ghost predicate FedTo(w: World, c: nat, q: seq<Batch>, hi: nat) {
    Fed(w, c, q) && Quiet(w, Reach(c, q), hi)
  }

  lemma AscendingRest(q: seq<Batch>)
    requires Ascending(q) && q != []
    ensures Ascending(q[1..])
    ensures forall x :: x in q[1..] ==> x in q && q[0].block < x.block
    ensures forall n :: InBlocks(q, n) <==> n == q[0].block || InBlocks(q[1..], n)
  {
    assert forall x :: x in q <==> x == q[0] || x in q[1..];
    forall x | x in q[1..] ensures q[0].block < x.block {
      var i :| 0 <= i < |q[1..]| && q[1..][i] == x;
      assert q[i + 1] == x;
    }
    assert q[0] in q;
  }

  lemma ListedRest(w: World, lo: nat, hi: nat, q: seq<Batch>)
    requires Listed(w, lo, hi, q) && q != []
    ensures Listed(w, q[0].block + 1, hi, q[1..])
    ensures Quiet(w, lo - 1, q[0].block) && q[0].logs == At(w, q[0].block) && lo <= q[0].block
  {
    AscendingRest(q);
    assert q[0] in q;
    forall l | OnChain(w, l) ensures !(lo <= l.block < q[0].block) {
      if lo <= l.block < hi { assert InBlocks(q, l.block); }
    }
  }

  /** Such batches go on from any block c >= lo - 1. */
  lemma {:induction false} ListedFeed(w: World, c: nat, lo: nat, hi: nat, q: seq<Batch>)
    requires Listed(w, lo, hi, q) && lo <= c + 1
    ensures FedTo(w, c, q, hi)
    decreases |q|
  {
    if q != [] {
      ListedRest(w, lo, hi, q);
      ListedFeed(w, Max(c, q[0].block), q[0].block + 1, hi, q[1..]);
    }
  }

  lemma InBlocksMore(q: seq<Batch>, b: nat, own: seq<Log>, more: seq<Batch>, n: nat)
    requires own == [] ==> more == q
    requires own != [] ==> more == q + [Batch(b, own)]
    ensures InBlocks(q, n) ==> InBlocks(more, n)
    ensures own != [] && n == b ==> InBlocks(more, n)
  {
    if x :| x in q && x.block == n { assert x in more; }
    if own != [] { assert Batch(b, own) in more; }
  }

  lemma {:induction false} BlocksCover(w: World, lo: nat, hi: nat, n: nat)
    requires lo <= n < hi && At(w, n) != []
    ensures InBlocks(BlockBatches(w, lo, hi), n)
    decreases hi
  {
    var b := hi - 1;
    LastBlockOf(w, lo, hi);
    InBlocksMore(BlockBatches(w, lo, b), b, At(w, b), BlockBatches(w, lo, hi), n);
    if n < b { BlocksCover(w, lo, b, n); }
  }

  lemma BlocksListed(w: World, lo: nat, hi: nat)
    requires ValidChain(w)
    ensures Listed(w, lo, hi, BlockBatches(w, lo, hi))
  {
    BlocksAscend(w, lo, hi);
    forall b | b in BlockBatches(w, lo, hi) ensures lo <= b.block < hi && b.logs == At(w, b.block) {
      BlocksAre(w, lo, hi, b);
    }
    forall l | OnChain(w, l) && lo <= l.block < hi ensures InBlocks(BlockBatches(w, lo, hi), l.block) {
      BlocksCover(w, lo, hi, l.block);
    }
  }

  lemma {:induction false} BlocksAre(w: World, lo: nat, hi: nat, b: Batch)
    requires b in BlockBatches(w, lo, hi)
    ensures lo <= b.block < hi && b.logs == At(w, b.block)
    decreases hi
  {
    if b in BlockBatches(w, lo, hi - 1) { BlocksAre(w, lo, hi - 1, b); }
  }

  /** The block of the last batch, or c if there is none or c is above it. */
  function Top(c: nat, q: seq<Batch>): nat { if q == [] then c else Max(c, q[|q| - 1].block) }

  lemma {:induction false} AscendingReach(c: nat, q: seq<Batch>)
    requires Ascending(q)
    ensures Reach(c, q) == Top(c, q)
    decreases |q|
  {
    if |q| > 1 {
      assert q[0].block < q[|q| - 1].block;
      AscendingReach(Max(c, q[0].block), q[1..]);
      assert q[1..][|q| - 2] == q[|q| - 1];
    } else if |q| == 1 {
      assert q[1..] == [];
    }
  }

  lemma {:induction false} BlocksAscend(w: World, lo: nat, hi: nat)
    ensures Ascending(BlockBatches(w, lo, hi))
    ensures forall b :: b in BlockBatches(w, lo, hi) ==> b.block < hi
    decreases hi
  {
    if lo < hi {
      BlocksAscend(w, lo, hi - 1);
      AscendingMore(BlockBatches(w, lo, hi - 1), Batch(hi - 1, At(w, hi - 1)));
    }
  }

  lemma AscendingMore(q: seq<Batch>, b: Batch)
    requires Ascending(q) && forall x :: x in q ==> x.block < b.block
    ensures Ascending(q + [b])
    ensures forall x :: x in q + [b] <==> x in q || x == b
  {
    assert forall i :: 0 <= i < |q| ==> q[i] in q;
  }

  lemma NothingAt(w: World, lo: nat, b: nat, hi: nat)
    requires ValidChain(w) && Quiet(w, lo, hi) && lo < b < hi
    ensures At(w, b) == []
  {
    forall l ensures l !in At(w, b) { AtMember(w, b, l); }
    SomeMember(At(w, b));
  }

  /** An empty batch for the end of the range leaves nothing out. */
  lemma ClosingFeeds(w: World, c: nat, q: seq<Batch>, last: nat)
    requires ValidChain(w) && FedTo(w, c, q, last + 1)
    ensures Fed(w, c, q + [Batch(last, [])]) && Reach(c, q + [Batch(last, [])]) == Max(Reach(c, q), last)
  {
    var closing := [Batch(last, [])];
    if Reach(c, q) < last { NothingAt(w, Reach(c, q), last, last + 1); }
    assert closing[1..] == [];
    FedAppend(w, c, q, closing);
  }

  /** What is submitted for a range goes on from any block at or above the one before the range,
      and reaches the end of the range. */
  lemma SubmissionsFeed(w: World, c: nat, r: Range)
    requires ValidChain(w) && r.first <= c + 1 && r.first <= r.last + 1
    ensures var q := Submissions(Between(w, r.first, r.last + 1), r.last);
      && Fed(w, c, q) && Reach(c, q) == Max(c, r.last)
      && q != []
      && forall b :: b in q ==> b.block <= r.last && forall l :: l in b.logs ==> l in Between(w, r.first, r.last + 1)
  {
    var hi := r.last + 1;
    var q := BlockBatches(w, r.first, hi);
    BatchesOfBlocks(w, r.first, hi);
    BlocksListed(w, r.first, hi);
    ListedFeed(w, c, r.first, hi, q);
    AscendingReach(c, q);
    ListedIn(w, r, q);
    assert q != [] ==> q[|q| - 1] in q;
    if q == [] || q[|q| - 1].block < r.last { ClosingFeeds(w, c, q, r.last); }
  }

  lemma ListedIn(w: World, r: Range, q: seq<Batch>)
    requires ValidChain(w) && Listed(w, r.first, r.last + 1, q)
    ensures forall b :: b in q ==> b.block <= r.last && forall l :: l in b.logs ==> l in Between(w, r.first, r.last + 1)
  {
    BetweenMembers(w, r.first, r.last + 1);
    forall b, l | b in q && l in b.logs ensures l in Between(w, r.first, r.last + 1) { AtMember(w, b.block, l); }
  }

  lemma {:induction false} ChunksLinked(c: nat, first: nat, last: nat, size: nat)
    requires size >= 1 && first <= c + 1
    ensures Linked(c, Chunks(first, last, size))
    ensures RangeReach(c, Chunks(first, last, size)) == if first > last then c else Max(c, last)
    decreases last + 1 - first
  {
    if first <= last {
      var end := if first + size - 1 > last then last else first + size - 1;
      HeadTail(Range(first, end), Chunks(first + size, last, size));
      if end < last {
        ChunksLinked(Max(c, end), first + size, last, size);
      }
    }
  }
}
