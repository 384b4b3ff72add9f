/** The validators table holds the rows of both chains of a bridge, and both monitors write to it.
    What one of them does never shows in the rows of the other chain. */
module ValidatorSides {
  import opened Entities
  import opened Sequences
  import opened Validators
  import opened ValidatorReplays

  /** The rows of one chain. */
  function RowsOf(t: Rows, chainId: nat): Rows {
    map k | k in t && t[k].chainId == chainId :: t[k]
  }

  /** Every row is of the chain of the log it is kept under. */
  predicate Keyed(t: Rows) { forall k :: k in t ==> t[k].chainId == k.chainId }

  /** Handling a log leaves the rows of other chains alone, and to those of its own chain it does what
      it would do if there were no others. */
  lemma StepOnSides(t: Rows, l: Log, after: Rows, chainId: nat)
    requires Keyed(t) && Step(t, l, after)
    ensures Keyed(after)
    ensures l.chainId != chainId ==> RowsOf(after, chainId) == RowsOf(t, chainId)
    ensures l.chainId == chainId ==> Step(RowsOf(t, chainId), l, RowsOf(after, chainId))
  {
    if Removes(l) && after != t {
      var k :| ActiveFor(t, k, l) && after == Upserted(t, k, t[k].(removedBy := Some(RefOf(l))));
      EndOnSides(t, k, l, after, chainId);
    } else if Adds(l) {
      AddOnSides(t, l, after, chainId);
    } else if Removes(l) {
      RemoveNothing(t, l, chainId);
    }
  }

  lemma AddOnSides(t: Rows, l: Log, after: Rows, chainId: nat)
    requires Keyed(t) && Adds(l) && after == Upserted(t, RefOf(l), ValidatorRow(l.chainId, l.event.validator, None))
    ensures Keyed(after)
    ensures l.chainId != chainId ==> RowsOf(after, chainId) == RowsOf(t, chainId)
    ensures l.chainId == chainId ==>
      RowsOf(after, chainId) == Upserted(RowsOf(t, chainId), RefOf(l), ValidatorRow(l.chainId, l.event.validator, None))
  {}

  lemma EndOnSides(t: Rows, k: LogRef, l: Log, after: Rows, chainId: nat)
    requires Keyed(t) && Removes(l) && ActiveFor(t, k, l)
    requires after == Upserted(t, k, t[k].(removedBy := Some(RefOf(l))))
    ensures Keyed(after)
    ensures l.chainId != chainId ==> RowsOf(after, chainId) == RowsOf(t, chainId)
    ensures l.chainId == chainId ==> Step(RowsOf(t, chainId), l, RowsOf(after, chainId))
  {
    if l.chainId == chainId {
      var own := RowsOf(t, chainId);
      assert ActiveFor(own, k, l);
      assert RowsOf(after, chainId) == Upserted(own, k, own[k].(removedBy := Some(RefOf(l))));
    }
  }

  lemma EndChanges(t: Rows, k: LogRef, l: Log)
    requires Removes(l) && ActiveFor(t, k, l)
    ensures Upserted(t, k, t[k].(removedBy := Some(RefOf(l)))) != t
  {
    assert Upserted(t, k, t[k].(removedBy := Some(RefOf(l))))[k] != t[k];
  }

  lemma RemoveNothing(t: Rows, l: Log, chainId: nat)
    requires Removes(l) && Step(t, l, t)
    ensures l.chainId == chainId ==> Step(RowsOf(t, chainId), l, RowsOf(t, chainId))
  {
    forall k | ActiveFor(t, k, l) ensures Upserted(t, k, t[k].(removedBy := Some(RefOf(l)))) != t {
      EndChanges(t, k, l);
    }
    assert forall k :: k in RowsOf(t, chainId) ==> !ActiveFor(RowsOf(t, chainId), k, l);
  }

  /** The logs of one chain, in their order. */
  function LogsOf(trace: seq<Log>, chainId: nat): seq<Log> {
    if trace == [] then []
    else
      var last := trace[|trace| - 1];
      LogsOf(trace[..|trace| - 1], chainId) + if last.chainId == chainId then [last] else []
  }

  /** Of a table that some logs have left, the rows of a chain are those its own logs have left. */
  lemma {:induction false} PlayedOnSides(trace: seq<Log>, t: Rows, chainId: nat)
    requires Played(trace, map[], t)
    ensures Keyed(t) && Played(LogsOf(trace, chainId), map[], RowsOf(t, chainId))
  {
    if trace != [] {
      var before, last := trace[..|trace| - 1], trace[|trace| - 1];
      var u :| Played(before, map[], u) && Step(u, last, t);
      PlayedOnSides(before, u, chainId);
      StepOnSides(u, last, t, chainId);
      if last.chainId == chainId {
        PlayedMore(LogsOf(before, chainId), map[], RowsOf(u, chainId), last, RowsOf(t, chainId));
      } else {
        Empty(LogsOf(before, chainId));
      }
    } else {
      assert RowsOf(map[], chainId) == map[];
    }
  }

  // ---------- Sessions as one list of calls ----------

  predicate Inside(ss: seq<Session>, n: nat) {
    forall s :: s in ss ==> s.first <= s.next <= n
  }

  /** All that the sessions handle, one call after the other. */
  function TraceOf(logs: seq<Log>, ss: seq<Session>): seq<Log>
    requires Inside(ss, |logs|)
  {
    if ss == [] then []
    else
      var last := ss[|ss| - 1];
      TraceOf(logs, ss[..|ss| - 1]) + logs[last.first..last.next]
  }

  lemma {:induction false} PlayedApart(a: seq<Log>, b: seq<Log>, t: Rows, after: Rows) returns (u: Rows)
    requires Played(a + b, t, after)
    ensures Played(a, t, u) && Played(b, u, after)
  {
    if b == [] {
      Empty(a);
      u := after;
    } else {
      var rest, last := b[..|b| - 1], b[|b| - 1];
      assert (a + b)[..|a + b| - 1] == a + rest;
      var v :| Played(a + rest, t, v) && Step(v, last, after);
      u := PlayedApart(a, rest, t, v);
    }
  }

  lemma {:induction false} PlayedSteps(logs: seq<Log>, lo: nat, hi: nat, t: Rows, after: Rows)
    requires lo <= hi <= |logs| && Played(logs[lo..hi], t, after)
    ensures Steps(logs, lo, hi, t, after)
    decreases hi
  {
    if lo < hi {
      assert logs[lo..hi] == logs[lo..hi - 1] + [logs[hi - 1]];
      var u := PlayedLast(logs[lo..hi - 1], t, logs[hi - 1], after);
      PlayedSteps(logs, lo, hi - 1, t, u);
      StepsEnd(logs, lo, hi, t, u, after);
    }
  }

  lemma {:induction false} PlayedSessions(logs: seq<Log>, ss: seq<Session>, t: Rows)
    requires Inside(ss, |logs|) && Played(TraceOf(logs, ss), map[], t)
    ensures Sessions(logs, ss, t)
  {
    if ss != [] {
      var before, last := ss[..|ss| - 1], ss[|ss| - 1];
      var u := PlayedApart(TraceOf(logs, before), logs[last.first..last.next], map[], t);
      PlayedSessions(logs, before, u);
      PlayedSteps(logs, last.first, last.next, u, t);
    }
  }

  /** The history of one side and the sessions in which its monitor handled it, up to the end. */
  ghost predicate Complete(logs: seq<Log>, ss: seq<Session>, chainId: nat) {
    && (forall l :: l in logs ==> l.chainId == chainId)
    && History(logs) && Inside(ss, |logs|) && Resumes(logs, ss) && Position(ss) == |logs|
  }

  /** Both monitors write to the one table, each going through its own sessions, and their calls
      interleave in any way: the rows of each chain end up as its own history dictates. */
  lemma BothSidesFold(home: seq<Log>, hs: seq<Session>, homeChain: nat,
                      foreign: seq<Log>, fs: seq<Session>, foreignChain: nat, trace: seq<Log>, t: Rows)
    requires Complete(home, hs, homeChain) && Complete(foreign, fs, foreignChain)
    requires LogsOf(trace, homeChain) == TraceOf(home, hs) && LogsOf(trace, foreignChain) == TraceOf(foreign, fs)
    requires Played(trace, map[], t)
    ensures IsFold(home, RowsOf(t, homeChain)) && IsFold(foreign, RowsOf(t, foreignChain))
  {
    PlayedOnSides(trace, t, homeChain);
    PlayedOnSides(trace, t, foreignChain);
    PlayedSessions(home, hs, RowsOf(t, homeChain));
    PlayedSessions(foreign, fs, RowsOf(t, foreignChain));
    SessionsFold(home, hs, RowsOf(t, homeChain));
    SessionsFold(foreign, fs, RowsOf(t, foreignChain));
  }
}
