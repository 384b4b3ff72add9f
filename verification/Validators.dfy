/** The validators table (repository/postgres/bridge_validators.go and the two validator handlers of
    monitor/handlers.go). A removal ends any one of the active rows of its validator, and handling
    an addition again makes its row active again, so replaying a part of the history is delicate. */
module Validators {
  import opened Entities

  datatype ValidatorRow = ValidatorRow(chainId: nat, validator: Address, removedBy: Option<LogRef>)

  /** The rows of one bridge, by the log of the addition. */
  type Rows = map<LogRef, ValidatorRow>

  predicate Adds(l: Log) { l.event.ValidatorAdded? }

  predicate Removes(l: Log) { l.event.ValidatorRemoved? }

  /** Two validator events about the same validator on the same chain. */
  predicate SameValidator(a: Log, b: Log) {
    (Adds(a) || Removes(a)) && (Adds(b) || Removes(b))
    && a.chainId == b.chainId && a.event.validator == b.event.validator
  }

  /** A row that GetActiveValidator may return for the validator of the event. */
  predicate ActiveFor(t: Rows, k: LogRef, l: Log)
    requires Adds(l) || Removes(l)
  {
    k in t && t[k] == ValidatorRow(l.chainId, l.event.validator, None)
  }

  /** Ensure: on a conflict only removed_log_id is overwritten. */
  function Upserted(t: Rows, k: LogRef, row: ValidatorRow): Rows {
    t[k := if k in t then t[k].(removedBy := row.removedBy) else row]
  }

  /** What handling one log may do to the table: SQL leaves open which active row a removal gets. */
  ghost predicate Step(t: Rows, l: Log, after: Rows) {
    if Adds(l) then after == Upserted(t, RefOf(l), ValidatorRow(l.chainId, l.event.validator, None))
    else if Removes(l) then
      || ((forall k :: k in t ==> !ActiveFor(t, k, l)) && after == t)
      || exists k :: ActiveFor(t, k, l) && after == Upserted(t, k, t[k].(removedBy := Some(RefOf(l))))
    else after == t
  }

  class ValidatorsRepo {
    var rows: Rows

    constructor ()
      ensures rows == map[]
    {
      rows := map[];
    }

    /** One statement: it may fail before or after it takes effect. */
    method Ensure(k: LogRef, row: ValidatorRow) returns (ok: bool, ghost made: bool)
      modifies this
      ensures rows == if made then Upserted(old(rows), k, row) else old(rows)
      ensures ok ==> made
    {
      var reached: bool := *;
      var answered: bool := *;
      if reached { rows := Upserted(rows, k, row); }
      ok, made := reached && answered, reached;
    }

    /** Any one of the active rows of the validator, if there is one. */
    method GetActiveValidator(l: Log) returns (found: Option<LogRef>)
      requires Adds(l) || Removes(l)
      ensures found.Some? ==> ActiveFor(rows, found.value, l)
      ensures found.None? ==> forall k :: k in rows ==> !ActiveFor(rows, k, l)
    {
      var todo := rows;
      while todo != map[]
        invariant todo.Keys <= rows.Keys
        invariant forall k :: k in rows && k !in todo ==> !ActiveFor(rows, k, l)
        decreases |todo|
      {
        var k :| k in todo;
        if ActiveFor(rows, k, l) { return Some(k); }
        todo := todo - {k};
      }
      found := None;
    }
  }

  /** Handling some logs one after the other. */
  ghost predicate Played(trace: seq<Log>, t: Rows, after: Rows) {
    if trace == [] then after == t
    else
      var before, last := trace[..|trace| - 1], trace[|trace| - 1];
      exists u :: Played(before, t, u) && Step(u, last, after)
  }

  lemma PlayedMore(trace: seq<Log>, t: Rows, u: Rows, l: Log, after: Rows)
    requires Played(trace, t, u) && Step(u, l, after)
    ensures Played(trace + [l], t, after)
  {
    assert (trace + [l])[..|trace|] == trace;
  }

  lemma PlayedLast(trace: seq<Log>, t: Rows, l: Log, after: Rows) returns (u: Rows)
    requires Played(trace + [l], t, after)
    ensures Played(trace, t, u) && Step(u, l, after)
  {
    assert (trace + [l])[..|trace|] == trace;
    u :| Played(trace, t, u) && Step(u, l, after);
  }

  /** Handling logs[lo..hi] one after the other. */
  ghost predicate Steps(logs: seq<Log>, lo: nat, hi: nat, t: Rows, after: Rows)
    requires lo <= hi <= |logs|
  {
    if lo == hi then after == t
    else
      var last := logs[hi - 1];
      exists u :: Steps(logs, lo, hi - 1, t, u) && Step(u, last, after)
  }

  /** The log that ends row i within logs[..hi]: the next event of the same validator. */
  function EndedBy(logs: seq<Log>, i: nat, hi: nat): Option<LogRef>
    requires i < hi <= |logs|
  {
    if hi == i + 1 then None
    else
      var e := EndedBy(logs, i, hi - 1);
      if e.Some? then e
      else if SameValidator(logs[i], logs[hi - 1]) then Some(RefOf(logs[hi - 1]))
      else None
  }

  predicate Untouched(logs: seq<Log>, i: nat, lo: nat, hi: nat)
    requires i < |logs| && hi <= |logs|
  {
    forall m :: lo <= m < hi ==> !SameValidator(logs[i], logs[m])
  }

  /** Log j is the next event of the validator of log i. */
  predicate Next(logs: seq<Log>, i: nat, j: nat)
    requires i < j < |logs|
  {
    SameValidator(logs[i], logs[j]) && Untouched(logs, i, i + 1, j)
  }

  /** Additions and removals of each validator alternate. */
  ghost predicate Alternating(logs: seq<Log>) {
    forall i, j :: 0 <= i < j < |logs| && Next(logs, i, j) ==> Adds(logs[i]) != Adds(logs[j])
  }

  /** The table that a history dictates: a row for each addition, ended by the next event of its
      validator, which is the removal that ended it. */
  ghost predicate IsFold(logs: seq<Log>, t: Rows) {
    && (forall k :: k in t ==> exists i :: 0 <= i < |logs| && Adds(logs[i]) && RefOf(logs[i]) == k)
    && (forall i :: 0 <= i < |logs| && Adds(logs[i]) ==>
         RefOf(logs[i]) in t
         && t[RefOf(logs[i])] == ValidatorRow(logs[i].chainId, logs[i].event.validator, EndedBy(logs, i, |logs|)))
  }

  // ---------- EndedBy ----------

  lemma {:induction false} EndedStays(logs: seq<Log>, i: nat, hi: nat, later: nat)
    requires i < hi <= later <= |logs|
    ensures EndedBy(logs, i, hi).Some? ==> EndedBy(logs, i, later) == EndedBy(logs, i, hi)
    ensures Untouched(logs, i, hi, later) ==> EndedBy(logs, i, later) == EndedBy(logs, i, hi)
    decreases later
  {
    if hi < later {
      EndedStays(logs, i, hi, later - 1);
      assert Untouched(logs, i, hi, later) ==> !SameValidator(logs[i], logs[later - 1]);
    }
  }

  lemma {:induction false} EndedIffTouched(logs: seq<Log>, i: nat, hi: nat)
    requires i < hi <= |logs|
    ensures EndedBy(logs, i, hi).None? <==> Untouched(logs, i, i + 1, hi)
    decreases hi
  {
    if hi > i + 1 { EndedIffTouched(logs, i, hi - 1); }
  }

  /** The last event of the validator of logs[i] in logs[lo..hi]. */
  lemma {:induction false} LastTouch(logs: seq<Log>, i: nat, lo: nat, hi: nat) returns (m: nat)
    requires i < |logs| && hi <= |logs| && !Untouched(logs, i, lo, hi)
    ensures lo <= m < hi && SameValidator(logs[i], logs[m]) && Untouched(logs, m, m + 1, hi)
    decreases hi
  {
    if SameValidator(logs[i], logs[hi - 1]) {
      m := hi - 1;
    } else {
      m := LastTouch(logs, i, lo, hi - 1);
    }
  }

  // ---------- One replay ----------

  predicate Known(logs: seq<Log>, t: Rows, i: nat)
    requires i < |logs|
  {
    RefOf(logs[i]) in t && Adds(logs[i])
    && t[RefOf(logs[i])].chainId == logs[i].chainId && t[RefOf(logs[i])].validator == logs[i].event.validator
  }

  function RowEnd(logs: seq<Log>, t: Rows, i: nat): Option<LogRef>
    requires i < |logs| && RefOf(logs[i]) in t
  {
    t[RefOf(logs[i])].removedBy
  }

  /** Exactly the additions before q have a row. */
  ghost predicate Shape(logs: seq<Log>, t: Rows, q: nat)
    requires q <= |logs|
  {
    && (forall k :: k in t ==> exists i :: 0 <= i < q && Adds(logs[i]) && RefOf(logs[i]) == k)
    && (forall i :: 0 <= i < q && Adds(logs[i]) ==> Known(logs, t, i))
  }

  ghost predicate Active(logs: seq<Log>, t: Rows, i: nat)
    requires i < |logs|
  {
    Known(logs, t, i) && RowEnd(logs, t, i).None?
  }

  ghost predicate OneActive(logs: seq<Log>, t: Rows) {
    forall i, j :: 0 <= i < j < |logs| && SameValidator(logs[i], logs[j]) ==>
        !(Active(logs, t, i) && Active(logs, t, j))
  }

  /** The rows of the additions before p are as logs[..p] dictate, or already ended as logs[..q] do. */
  ghost predicate TrueBefore(logs: seq<Log>, t: Rows, p: nat, q: nat)
    requires p <= q <= |logs| && Shape(logs, t, q)
  {
    forall i :: 0 <= i < p && Adds(logs[i]) ==>
      RowEnd(logs, t, i) == EndedBy(logs, i, p) || RowEnd(logs, t, i) == EndedBy(logs, i, q)
  }

  /** The table when no more than logs[..q] has ever been handled, and logs[..p] since. */
  ghost predicate Midway(logs: seq<Log>, t: Rows, p: nat, q: nat) {
    p <= q <= |logs| && Shape(logs, t, q) && OneActive(logs, t) && TrueBefore(logs, t, p, q)
  }

  /** Log i is the first event of its validator from lo on, an addition, and j is another one. */
  predicate AddedAgain(logs: seq<Log>, lo: nat, i: nat, j: nat)
    requires i < j < |logs|
  {
    Adds(logs[i]) && Adds(logs[j]) && SameValidator(logs[i], logs[j]) && Untouched(logs, i, lo, i)
  }

  /** For each validator, the window starts with a removal or has at most one addition. */
  ghost predicate Mild(logs: seq<Log>, lo: nat, hi: nat)
    requires hi <= |logs|
  {
    forall i, j :: lo <= i < j < hi ==> !AddedAgain(logs, lo, i, j)
  }

  lemma Rewind(logs: seq<Log>, t: Rows, lo: nat, p: nat, q: nat)
    requires lo <= p && Midway(logs, t, p, q)
    ensures Midway(logs, t, lo, q)
  {
    forall i | 0 <= i < lo && Adds(logs[i])
      ensures RowEnd(logs, t, i) == EndedBy(logs, i, lo) || RowEnd(logs, t, i) == EndedBy(logs, i, q)
    {
      EndedStays(logs, i, lo, p);
      EndedStays(logs, i, p, q);
    }
  }

  /** Row i after replaying logs[lo..p] on s: as it was unless its validator was touched, and then
      as logs[..p] dictate, with the rows of additions yet to come ended. */
  ghost predicate RowOk(logs: seq<Log>, s: Rows, t: Rows, lo: nat, p: nat, i: nat)
    requires lo <= p <= |logs| && i < |logs|
  {
    && Known(logs, t, i)
    && (if Untouched(logs, i, lo, p) then Known(logs, s, i) && RowEnd(logs, t, i) == RowEnd(logs, s, i)
        else if i < p then RowEnd(logs, t, i) == EndedBy(logs, i, p)
        else RowEnd(logs, t, i).Some?)
  }

  ghost predicate Replaying(logs: seq<Log>, s: Rows, t: Rows, lo: nat, p: nat, q: nat)
    requires lo <= p <= |logs| && q <= |logs|
  {
    && Shape(logs, t, Max(p, q))
    && forall i :: 0 <= i < Max(p, q) && Adds(logs[i]) ==> RowOk(logs, s, t, lo, p, i)
  }

  ghost predicate History(logs: seq<Log>) { DistinctRefs(logs) && Alternating(logs) }

  lemma SameRef(logs: seq<Log>, i: nat, j: nat)
    requires DistinctRefs(logs) && i < |logs| && j < |logs| && RefOf(logs[i]) == RefOf(logs[j])
    ensures i == j
  {}

  /** Before an event on its validator, a row not ended yet is that of an addition exactly when the
      event is a removal. */
  lemma OpenBefore(logs: seq<Log>, i: nat, p: nat)
    requires History(logs) && i < p < |logs| && Adds(logs[i]) && SameValidator(logs[i], logs[p])
    requires EndedBy(logs, i, p).None?
    ensures Removes(logs[p])
  {
    EndedIffTouched(logs, i, p);
  }

  lemma NextEnded(logs: seq<Log>, i: nat, p: nat)
    requires i < p < |logs|
    ensures EndedBy(logs, i, p).Some? || !SameValidator(logs[i], logs[p]) ==>
        EndedBy(logs, i, p + 1) == EndedBy(logs, i, p)
    ensures EndedBy(logs, i, p).None? && SameValidator(logs[i], logs[p]) ==>
        EndedBy(logs, i, p + 1) == Some(RefOf(logs[p]))
  {}

  /** Rows of other validators do not change. */
  lemma OtherRow(logs: seq<Log>, s: Rows, t: Rows, after: Rows, lo: nat, p: nat, i: nat)
    requires History(logs) && lo <= p < |logs| && i < |logs| && i != p && Adds(logs[i])
    requires RowOk(logs, s, t, lo, p, i) && !SameValidator(logs[i], logs[p]) && Step(t, logs[p], after)
    ensures RowOk(logs, s, after, lo, p + 1, i)
  {
    if i < p { NextEnded(logs, i, p); }
    if RefOf(logs[i]) == RefOf(logs[p]) { SameRef(logs, i, p); }
    assert Untouched(logs, i, lo, p + 1) <==> Untouched(logs, i, lo, p);
  }

  /** An addition leaves only its own row active. */
  lemma AddedRow(logs: seq<Log>, s: Rows, t: Rows, after: Rows, lo: nat, p: nat, q: nat, i: nat)
    requires History(logs) && Midway(logs, s, lo, q) && Mild(logs, lo, q)
    requires lo <= p < |logs| && i < Max(p, q) && i != p && Adds(logs[i])
    requires RowOk(logs, s, t, lo, p, i) && SameValidator(logs[i], logs[p]) && Adds(logs[p]) && Step(t, logs[p], after)
    ensures RowOk(logs, s, after, lo, p + 1, i)
  {
    if RefOf(logs[i]) == RefOf(logs[p]) { SameRef(logs, i, p); }
    if i < p {
      NextEnded(logs, i, p);
      if EndedBy(logs, i, p).None? { OpenBefore(logs, i, p); }
      if Untouched(logs, i, lo, p) {
        assert i < lo;
        EndedStays(logs, i, lo, p);
        EndedStays(logs, i, lo, q);
      }
    } else if Untouched(logs, i, lo, p) {
      forall m | lo <= m < p ensures !SameValidator(logs[p], logs[m]) { assert !SameValidator(logs[i], logs[m]); }
      assert AddedAgain(logs, lo, p, i);
      assert false;
    }
    assert !Untouched(logs, i, lo, p + 1);
  }

  lemma SameTouched(logs: seq<Log>, i: nat, j: nat, lo: nat, p: nat)
    requires i < |logs| && j < |logs| && p <= |logs| && SameValidator(logs[i], logs[j])
    ensures Untouched(logs, i, lo, p) <==> Untouched(logs, j, lo, p)
  {}

  lemma OneOpen(logs: seq<Log>, i: nat, j: nat, p: nat)
    requires i < p <= |logs| && j < p && i != j && SameValidator(logs[i], logs[j])
    ensures EndedBy(logs, i, p).Some? || EndedBy(logs, j, p).Some?
  {
    EndedIffTouched(logs, i, p);
    EndedIffTouched(logs, j, p);
  }

  /** At most one row of a validator is active while its history is replayed. */
  lemma ActiveAreSame(logs: seq<Log>, s: Rows, t: Rows, lo: nat, p: nat, q: nat, i: nat, j: nat)
    requires Midway(logs, s, lo, q) && lo <= p <= |logs| && Replaying(logs, s, t, lo, p, q)
    requires i < Max(p, q) && j < Max(p, q) && Active(logs, t, i) && Active(logs, t, j)
    requires SameValidator(logs[i], logs[j])
    ensures i == j
  {
    assert RowOk(logs, s, t, lo, p, i) && RowOk(logs, s, t, lo, p, j);
    SameTouched(logs, i, j, lo, p);
    if Untouched(logs, i, lo, p) {
      assert Active(logs, s, i) && Active(logs, s, j);
    } else if i != j {
      OneOpen(logs, i, j, p);
    }
  }

  lemma UniqueActive(logs: seq<Log>, s: Rows, t: Rows, lo: nat, p: nat, q: nat, i: nat, k: LogRef)
    requires Midway(logs, s, lo, q) && lo <= p < |logs| && Replaying(logs, s, t, lo, p, q)
    requires i < Max(p, q) && Active(logs, t, i)
    requires SameValidator(logs[i], logs[p]) && ActiveFor(t, k, logs[p])
    ensures k == RefOf(logs[i])
  {
    var j :| 0 <= j < Max(p, q) && Adds(logs[j]) && RefOf(logs[j]) == k;
    assert Known(logs, t, j);
    ActiveAreSame(logs, s, t, lo, p, q, i, j);
  }

  /** So a removal that finds row i active ends it. */
  lemma EndsActive(logs: seq<Log>, s: Rows, t: Rows, after: Rows, lo: nat, p: nat, q: nat, i: nat)
    requires History(logs) && Midway(logs, s, lo, q) && lo <= p < |logs| && Replaying(logs, s, t, lo, p, q)
    requires i < Max(p, q) && Active(logs, t, i)
    requires SameValidator(logs[i], logs[p]) && Removes(logs[p]) && Step(t, logs[p], after)
    ensures Known(logs, after, i) && RowEnd(logs, after, i) == Some(RefOf(logs[p]))
  {
    assert ActiveFor(t, RefOf(logs[i]), logs[p]);
    var k :| ActiveFor(t, k, logs[p]) && after == Upserted(t, k, t[k].(removedBy := Some(RefOf(logs[p]))));
    UniqueActive(logs, s, t, lo, p, q, i, k);
  }

  /** A row that is ended stays as it is when another event than its own addition is handled. */
  lemma StaysEnded(t: Rows, l: Log, after: Rows, k: LogRef)
    requires k in t && t[k].removedBy.Some? && k != RefOf(l) && Step(t, l, after)
    ensures k in after && after[k] == t[k]
  {}

  /** A removal leaves no row of its validator active. */
  lemma NoneLeft(logs: seq<Log>, s: Rows, t: Rows, after: Rows, lo: nat, p: nat, q: nat, i: nat)
    requires History(logs) && Midway(logs, s, lo, q) && lo <= p < |logs| && Replaying(logs, s, t, lo, p, q)
    requires i < Max(p, q) && i != p && Adds(logs[i])
    requires SameValidator(logs[i], logs[p]) && Removes(logs[p]) && Step(t, logs[p], after)
    ensures Known(logs, t, i) && Known(logs, after, i)
    ensures RowEnd(logs, after, i) ==
      if RowEnd(logs, t, i).None? then Some(RefOf(logs[p])) else RowEnd(logs, t, i)
  {
    assert RowOk(logs, s, t, lo, p, i);
    if RowEnd(logs, t, i).None? {
      EndsActive(logs, s, t, after, lo, p, q, i);
    } else {
      if RefOf(logs[i]) == RefOf(logs[p]) { SameRef(logs, i, p); }
      StaysEnded(t, logs[p], after, RefOf(logs[i]));
    }
  }

  lemma UntouchedEnd(logs: seq<Log>, s: Rows, lo: nat, p: nat, q: nat, i: nat)
    requires Midway(logs, s, lo, q) && lo <= p < |logs| && i < lo && Adds(logs[i])
    requires SameValidator(logs[i], logs[p]) && Untouched(logs, i, lo, p)
    ensures EndedBy(logs, i, p + 1)
      == if RowEnd(logs, s, i).None? then Some(RefOf(logs[p])) else RowEnd(logs, s, i)
  {
    NextEnded(logs, i, p);
    EndedStays(logs, i, lo, p);
    EndedStays(logs, i, lo, q);
    if p < q { EndedStays(logs, i, p + 1, q); } else { EndedStays(logs, i, q, p); }
  }

  lemma RemovedRow(logs: seq<Log>, s: Rows, t: Rows, after: Rows, lo: nat, p: nat, q: nat, i: nat)
    requires History(logs) && Midway(logs, s, lo, q) && lo <= p < |logs| && Replaying(logs, s, t, lo, p, q)
    requires i < Max(p, q) && i != p && Adds(logs[i])
    requires SameValidator(logs[i], logs[p]) && Removes(logs[p]) && Step(t, logs[p], after)
    ensures RowOk(logs, s, after, lo, p + 1, i)
  {
    assert RowOk(logs, s, t, lo, p, i);
    NoneLeft(logs, s, t, after, lo, p, q, i);
    if i < p {
      if Untouched(logs, i, lo, p) {
        UntouchedEnd(logs, s, lo, p, q, i);
      } else {
        NextEnded(logs, i, p);
      }
    }
    assert !Untouched(logs, i, lo, p + 1);
  }

  lemma OwnRow(logs: seq<Log>, s: Rows, t: Rows, after: Rows, lo: nat, p: nat, q: nat)
    requires History(logs) && lo <= p < |logs| && q <= |logs| && Replaying(logs, s, t, lo, p, q)
    requires Adds(logs[p]) && Step(t, logs[p], after)
    ensures RowOk(logs, s, after, lo, p + 1, p)
  {
    var k := RefOf(logs[p]);
    if k in t {
      var j :| 0 <= j < Max(p, q) && Adds(logs[j]) && RefOf(logs[j]) == k;
      SameRef(logs, j, p);
    }
    assert !Untouched(logs, p, lo, p + 1);
  }

  lemma StepShape(logs: seq<Log>, t: Rows, after: Rows, p: nat, m: nat)
    requires p < |logs| && m <= |logs| && Shape(logs, t, m) && Step(t, logs[p], after)
    ensures forall k :: k in after ==>
      exists i :: 0 <= i < Max(p + 1, m) && Adds(logs[i]) && RefOf(logs[i]) == k
  {}

  lemma ReplayStep(logs: seq<Log>, s: Rows, t: Rows, after: Rows, lo: nat, p: nat, q: nat)
    requires History(logs) && Midway(logs, s, lo, q) && Mild(logs, lo, q) && lo <= p < |logs|
    requires Replaying(logs, s, t, lo, p, q) && Step(t, logs[p], after)
    ensures Replaying(logs, s, after, lo, p + 1, q)
  {
    forall i | 0 <= i < Max(p + 1, q) && Adds(logs[i]) ensures RowOk(logs, s, after, lo, p + 1, i) {
      if i == p {
        OwnRow(logs, s, t, after, lo, p, q);
      } else if !SameValidator(logs[i], logs[p]) {
        OtherRow(logs, s, t, after, lo, p, i);
      } else if Adds(logs[p]) {
        AddedRow(logs, s, t, after, lo, p, q, i);
      } else {
        RemovedRow(logs, s, t, after, lo, p, q, i);
      }
    }
    StepShape(logs, t, after, p, Max(p, q));
  }

  lemma LastStep(logs: seq<Log>, lo: nat, hi: nat, t: Rows, after: Rows) returns (u: Rows)
    requires lo < hi <= |logs| && Steps(logs, lo, hi, t, after)
    ensures Steps(logs, lo, hi - 1, t, u) && Step(u, logs[hi - 1], after)
  {
    u :| Steps(logs, lo, hi - 1, t, u) && Step(u, logs[hi - 1], after);
  }

  lemma ReplayStart(logs: seq<Log>, s: Rows, lo: nat, q: nat)
    requires Midway(logs, s, lo, q)
    ensures Replaying(logs, s, s, lo, lo, q)
  {}

  lemma {:induction false} ReplayOk(logs: seq<Log>, s: Rows, t: Rows, lo: nat, p: nat, q: nat)
    requires History(logs) && Midway(logs, s, lo, q) && Mild(logs, lo, q) && lo <= p <= |logs|
    requires Steps(logs, lo, p, s, t)
    ensures Replaying(logs, s, t, lo, p, q)
    decreases p
  {
    if lo < p {
      var u := LastStep(logs, lo, p, s, t);
      ReplayOk(logs, s, u, lo, p - 1, q);
      ReplayStep(logs, s, u, t, lo, p - 1, q);
    } else {
      ReplayStart(logs, s, lo, q);
    }
  }

  /** A replay, complete or interrupted, leaves a table to go on from. */
  lemma ReplayLeaves(logs: seq<Log>, s: Rows, t: Rows, lo: nat, p: nat, q: nat)
    requires History(logs) && Midway(logs, s, lo, q) && Mild(logs, lo, q) && lo <= p <= |logs|
    requires Steps(logs, lo, p, s, t)
    ensures Midway(logs, t, p, Max(p, q))
  {
    ReplayOk(logs, s, t, lo, p, q);
    var m := Max(p, q);
    forall i | 0 <= i < p && Adds(logs[i])
      ensures RowEnd(logs, t, i) == EndedBy(logs, i, p) || RowEnd(logs, t, i) == EndedBy(logs, i, m)
    {
      assert RowOk(logs, s, t, lo, p, i);
      if Untouched(logs, i, lo, p) {
        assert i < lo;
        EndedStays(logs, i, lo, p);
        if q < p { EndedStays(logs, i, lo, q); EndedStays(logs, i, q, p); }
      }
    }
    forall i, j | 0 <= i < j < |logs| && SameValidator(logs[i], logs[j])
      ensures !(Active(logs, t, i) && Active(logs, t, j))
    {
      NotBothActive(logs, s, t, lo, p, q, i, j);
    }
  }

  lemma KnownIsEarlier(logs: seq<Log>, t: Rows, q: nat, i: nat)
    requires DistinctRefs(logs) && q <= |logs| && Shape(logs, t, q) && i < |logs| && Known(logs, t, i)
    ensures i < q
  {
    var j :| 0 <= j < q && Adds(logs[j]) && RefOf(logs[j]) == RefOf(logs[i]);
    SameRef(logs, i, j);
  }

  lemma NotBothActive(logs: seq<Log>, s: Rows, t: Rows, lo: nat, p: nat, q: nat, i: nat, j: nat)
    requires DistinctRefs(logs) && Midway(logs, s, lo, q) && lo <= p <= |logs| && Replaying(logs, s, t, lo, p, q)
    requires i < j < |logs| && SameValidator(logs[i], logs[j])
    ensures !(Active(logs, t, i) && Active(logs, t, j))
  {
    if Active(logs, t, i) && Active(logs, t, j) {
      KnownIsEarlier(logs, t, Max(p, q), j);
      ActiveAreSame(logs, s, t, lo, p, q, i, j);
    }
  }
}
