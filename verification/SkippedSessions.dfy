/** Sessions that skip: the process handles a part of its history again and then goes on behind all of
    it. When the validators table survives that, and when it does not. */
module SkippedSessions {
  import opened Entities
  import opened Sequences
  import opened Validators
  import opened ValidatorReplays

  /** No validator has two events. */
  predicate NoRepeat(logs: seq<Log>) {
    forall i, j :: 0 <= i < j < |logs| ==> !SameValidator(logs[i], logs[j])
  }

  /** Handling log g again, and nothing after it, spoils the table: an addition that is ended by a later
      event, or a removal that comes first of its validator, before an addition in force. */
  predicate Spoils(logs: seq<Log>, g: nat)
    requires g < |logs|
  {
    || (Adds(logs[g]) && !InForce(logs, g))
    || (Removes(logs[g]) && Untouched(logs, g, 0, g) && AddedLater(logs, g))
  }

  predicate AddedLater(logs: seq<Log>, g: nat)
    requires g < |logs|
  {
    exists j :: g < j < |logs| && InForce(logs, j) && SameValidator(logs[g], logs[j])
  }

  lemma {:induction false} FirstTouch(logs: seq<Log>, i: nat, hi: nat) returns (f: nat)
    requires i < |logs| && hi <= |logs| && !Untouched(logs, i, 0, hi)
    ensures f < hi && SameValidator(logs[i], logs[f]) && Untouched(logs, f, 0, f)
  {
    if Untouched(logs, i, 0, hi - 1) {
      f := hi - 1;
    } else {
      f := FirstTouch(logs, i, hi - 1);
    }
  }

  /** The next event of a validator that has one. */
  lemma {:induction false} NextTouch(logs: seq<Log>, i: nat, hi: nat) returns (m: nat)
    requires i < hi <= |logs| && !Untouched(logs, i, i + 1, hi)
    ensures i < m < hi && Next(logs, i, m)
    decreases hi
  {
    if Untouched(logs, i, i + 1, hi - 1) {
      m := hi - 1;
    } else {
      m := NextTouch(logs, i, hi - 1);
    }
  }

  lemma SecondEvent(logs: seq<Log>, f: nat, j: nat) returns (g: nat)
    requires Alternating(logs) && f < j < |logs| && SameValidator(logs[f], logs[j]) && Untouched(logs, f, 0, f)
    ensures g < |logs| && Spoils(logs, g)
  {
    if Adds(logs[f]) {
      g := f;
    } else {
      var k := NextTouch(logs, f, |logs|);
      g := if InForce(logs, k) then f else k;
    }
  }

  /** A history that repeats a validator has a log that spoils the table. */
  lemma RepeatSpoils(logs: seq<Log>) returns (g: nat)
    requires Alternating(logs) && !NoRepeat(logs)
    ensures g < |logs| && Spoils(logs, g)
  {
    var i, j :| 0 <= i < j < |logs| && SameValidator(logs[i], logs[j]);
    var f := FirstTouch(logs, i, i + 1);
    assert SameValidator(logs[f], logs[j]);
    g := SecondEvent(logs, f, j);
  }

  /** Rows of other validators stay as they are. */
  lemma StepKeepsOthers(logs: seq<Log>, t: Rows, p: nat, after: Rows, g: nat, k: LogRef)
    requires DistinctRefs(logs) && Shape(logs, t, |logs|) && p < |logs| && g < |logs| && Step(t, logs[p], after)
    requires !SameValidator(logs[g], logs[p]) && (Adds(logs[g]) || Removes(logs[g]))
    ensures ActiveFor(after, k, logs[g]) <==> ActiveFor(t, k, logs[g])
  {
    if k in t {
      var i :| 0 <= i < |logs| && Adds(logs[i]) && RefOf(logs[i]) == k;
      assert Known(logs, t, i);
      if RefOf(logs[i]) == RefOf(logs[p]) { SameRef(logs, i, p); }
    }
  }

  lemma {:induction false} StepsKeepOthers(logs: seq<Log>, lo: nat, hi: nat, t: Rows, after: Rows, g: nat, k: LogRef)
    requires DistinctRefs(logs) && lo <= hi <= |logs| && Shape(logs, t, |logs|) && Steps(logs, lo, hi, t, after)
    requires g < |logs| && Untouched(logs, g, lo, hi) && (Adds(logs[g]) || Removes(logs[g]))
    ensures ActiveFor(after, k, logs[g]) <==> ActiveFor(t, k, logs[g])
    decreases hi
  {
    if lo < hi {
      var u := LastStep(logs, lo, hi, t, after);
      StepsKeepOthers(logs, lo, hi - 1, t, u, g, k);
      StepsKeepShape(logs, lo, hi - 1, t, u);
      StepKeepsOthers(logs, u, hi - 1, after, g, k);
    }
  }

  /** The removal ends the row of the addition in force, whatever came before it. */
  lemma EndsInForce(logs: seq<Log>, a: Rows, u: Rows, g: nat, j: nat, after: Rows)
    requires History(logs) && IsFold(logs, a) && g < |logs| && j < |logs| && Removes(logs[g])
    requires SameValidator(logs[g], logs[j]) && InForce(logs, j) && Step(u, logs[g], after)
    requires forall k :: ActiveFor(u, k, logs[g]) <==> ActiveFor(a, k, logs[g])
    ensures RefOf(logs[j]) in after && after[RefOf(logs[j])].removedBy == Some(RefOf(logs[g]))
  {
    ActiveAreInForce(logs, a, logs[g], RefOf(logs[j]));
    assert ActiveFor(u, RefOf(logs[j]), logs[g]);
    var k :| ActiveFor(u, k, logs[g]) && after == Upserted(u, k, u[k].(removedBy := Some(RefOf(logs[g]))));
    OnlyInForce(logs, a, logs[g], k, j);
  }

  lemma OnlyInForce(logs: seq<Log>, t: Rows, l: Log, k: LogRef, j: nat)
    requires History(logs) && IsFold(logs, t) && Removes(l) && ActiveFor(t, k, l)
    requires j < |logs| && InForce(logs, j) && SameValidator(l, logs[j])
    ensures k == RefOf(logs[j])
  {
    ActiveAreInForce(logs, t, l, k);
    var m :| 0 <= m < |logs| && InForce(logs, m) && SameValidator(logs[m], l) && RefOf(logs[m]) == k;
    assert SameValidator(logs[m], logs[j]) && SameValidator(logs[j], logs[m]);
  }

  lemma FoldShape(logs: seq<Log>, t: Rows)
    requires IsFold(logs, t)
    ensures Shape(logs, t, |logs|)
  {}

  lemma AdditionSpoils(logs: seq<Log>, lo: nat, g: nat, a: Rows, after: Rows)
    requires IsFold(logs, a) && lo <= g < |logs| && Steps(logs, lo, g + 1, a, after)
    requires Adds(logs[g]) && !InForce(logs, g)
    ensures !IsFold(logs, after)
  {
    AddedLast(logs, lo, g, a, after);
    EndedIffTouched(logs, g, |logs|);
  }

  lemma RemovalSpoils(logs: seq<Log>, lo: nat, g: nat, a: Rows, after: Rows)
    requires History(logs) && IsFold(logs, a) && lo <= g < |logs| && Steps(logs, lo, g + 1, a, after)
    requires Removes(logs[g]) && Untouched(logs, g, 0, g) && AddedLater(logs, g)
    ensures !IsFold(logs, after)
  {
    var j :| g < j < |logs| && InForce(logs, j) && SameValidator(logs[g], logs[j]);
    RemovalEnds(logs, lo, g, j, a, after);
    EndedIffTouched(logs, j, |logs|);
  }

  lemma RemovalEnds(logs: seq<Log>, lo: nat, g: nat, j: nat, a: Rows, after: Rows)
    requires History(logs) && IsFold(logs, a) && lo <= g < |logs| && Steps(logs, lo, g + 1, a, after)
    requires Removes(logs[g]) && Untouched(logs, g, 0, g)
    requires j < |logs| && InForce(logs, j) && SameValidator(logs[g], logs[j])
    ensures RefOf(logs[j]) in after && after[RefOf(logs[j])].removedBy == Some(RefOf(logs[g]))
  {
    var u := LastStep(logs, lo, g + 1, a, after);
    FoldShape(logs, a);
    forall k ensures ActiveFor(u, k, logs[g]) <==> ActiveFor(a, k, logs[g]) {
      StepsKeepOthers(logs, lo, g, a, u, g, k);
    }
    EndsInForce(logs, a, u, g, j, after);
  }

  /** After a complete pass, handling some logs again and stopping right after one that spoils leaves a
      wrong table, for any choice of rows. */
  lemma SpoiltAfter(logs: seq<Log>, lo: nat, g: nat, a: Rows, after: Rows)
    requires History(logs) && IsFold(logs, a) && lo <= g < |logs| && Steps(logs, lo, g + 1, a, after)
    requires Spoils(logs, g)
    ensures !IsFold(logs, after)
  {
    if Adds(logs[g]) { AdditionSpoils(logs, lo, g, a, after); } else { RemovalSpoils(logs, lo, g, a, after); }
  }

  /** The row of an addition of the history that nothing has ended. */
  ghost predicate PlainRow(logs: seq<Log>, k: LogRef, row: ValidatorRow) {
    exists x :: x in logs && Adds(x) && RefOf(x) == k && row == ValidatorRow(x.chainId, x.event.validator, None)
  }

  /** Calls on logs of a history that repeats no validator: no removal finds an active row, and adding
      again changes nothing. */
  ghost predicate SparseRows(logs: seq<Log>, trace: seq<Log>, t: Rows) {
    && (forall k :: k in t ==> PlainRow(logs, k, t[k]))
    && (forall x :: x in trace && Adds(x) ==> RefOf(x) in t)
    && (forall k :: k in t ==> exists x :: x in trace && Adds(x) && RefOf(x) == k)
  }

  lemma SparseStep(logs: seq<Log>, trace: seq<Log>, t: Rows, l: Log, after: Rows)
    requires DistinctRefs(logs) && NoRepeat(logs) && l in logs && SparseRows(logs, trace, t) && Step(t, l, after)
    ensures SparseRows(logs, trace + [l], after)
  {
    assert forall x :: x in trace + [l] <==> x in trace || x == l;
    if Adds(l) {
      if RefOf(l) in t { SparseRow(logs, trace, t, l); }
    } else if Removes(l) {
      forall k | k in t ensures !ActiveFor(t, k, l) { NotActive(logs, trace, t, l, k); }
    }
  }

  lemma SparseRow(logs: seq<Log>, trace: seq<Log>, t: Rows, l: Log)
    requires DistinctRefs(logs) && l in logs && SparseRows(logs, trace, t) && Adds(l) && RefOf(l) in t
    ensures t[RefOf(l)] == ValidatorRow(l.chainId, l.event.validator, None)
  {
    var x :| x in logs && Adds(x) && RefOf(x) == RefOf(l)
             && t[RefOf(l)] == ValidatorRow(x.chainId, x.event.validator, None);
    var i :| 0 <= i < |logs| && logs[i] == x;
    var j :| 0 <= j < |logs| && logs[j] == l;
    SameRef(logs, i, j);
  }

  lemma NotActive(logs: seq<Log>, trace: seq<Log>, t: Rows, l: Log, k: LogRef)
    requires NoRepeat(logs) && l in logs && SparseRows(logs, trace, t) && Removes(l) && k in t
    ensures !ActiveFor(t, k, l)
  {
    var x :| x in logs && Adds(x) && RefOf(x) == k && t[k] == ValidatorRow(x.chainId, x.event.validator, None);
    var i :| 0 <= i < |logs| && logs[i] == x;
    var j :| 0 <= j < |logs| && logs[j] == l;
    assert !SameValidator(logs[i], logs[j]) && !SameValidator(logs[j], logs[i]);
  }

  lemma {:induction false} SparsePlayed(logs: seq<Log>, trace: seq<Log>, t: Rows)
    requires DistinctRefs(logs) && NoRepeat(logs) && (forall l :: l in trace ==> l in logs) && Played(trace, map[], t)
    ensures SparseRows(logs, trace, t)
  {
    if trace != [] {
      var before, last := trace[..|trace| - 1], trace[|trace| - 1];
      assert trace == before + [last];
      var u := PlayedLast(before, map[], last, t);
      SparsePlayed(logs, before, u);
      SparseStep(logs, before, u, last, t);
    }
  }

  lemma SparseIsFold(logs: seq<Log>, trace: seq<Log>, t: Rows)
    requires DistinctRefs(logs) && NoRepeat(logs) && SparseRows(logs, trace, t)
    requires forall l :: l in trace <==> l in logs
    ensures IsFold(logs, t)
  {
    forall i | 0 <= i < |logs| && Adds(logs[i])
      ensures RefOf(logs[i]) in t
      ensures t[RefOf(logs[i])] == ValidatorRow(logs[i].chainId, logs[i].event.validator, EndedBy(logs, i, |logs|))
    {
      assert logs[i] in logs;
      SparseRow(logs, trace, t, logs[i]);
      EndedIffTouched(logs, i, |logs|);
    }
    forall k | k in t ensures exists i :: 0 <= i < |logs| && Adds(logs[i]) && RefOf(logs[i]) == k {
      var x :| x in logs && Adds(x) && RefOf(x) == k;
      var i :| 0 <= i < |logs| && logs[i] == x;
    }
  }

  /** Of such a history any calls on its logs, in any order and number, leave the dictated table, as long
      as every log is handled at all. */
  lemma SparseFolds(logs: seq<Log>, trace: seq<Log>, t: Rows)
    requires DistinctRefs(logs) && NoRepeat(logs) && Played(trace, map[], t)
    requires forall l :: l in trace <==> l in logs
    ensures IsFold(logs, t)
  {
    SparsePlayed(logs, trace, t);
    SparseIsFold(logs, trace, t);
  }

  // ---------- Sessions ----------

  /** A complete pass, logs lo to hi again, and a session that goes on behind the last log. */
  function Skipping(n: nat, lo: nat, hi: nat): seq<Session> {
    [] + [Session(0, n)] + [Session(lo, hi)] + [Session(n, n)]
  }

  lemma LastSession(logs: seq<Log>, ss: seq<Session>, s: Session, t: Rows) returns (u: Rows)
    requires Sessions(logs, ss + [s], t)
    ensures s.first <= s.next <= |logs| && Sessions(logs, ss, u) && Steps(logs, s.first, s.next, u, t)
  {
    assert (ss + [s])[..|ss|] == ss;
    u :| Sessions(logs, ss, u) && Steps(logs, s.first, s.next, u, t);
  }

  lemma SkippingSteps(logs: seq<Log>, lo: nat, hi: nat, t: Rows) returns (a: Rows)
    requires History(logs) && lo <= hi <= |logs| && Sessions(logs, Skipping(|logs|, lo, hi), t)
    ensures IsFold(logs, a) && Steps(logs, 0, |logs|, map[], a) && Steps(logs, lo, hi, a, t)
  {
    var b := LastSession(logs, [] + [Session(0, |logs|)] + [Session(lo, hi)], Session(|logs|, |logs|), t);
    a := LastSession(logs, [] + [Session(0, |logs|)], Session(lo, hi), b);
    var e := LastSession(logs, [], Session(0, |logs|), a);
    FirstTimeFolds(logs, a);
  }

  lemma {:induction false} SparseSteps(logs: seq<Log>, trace: seq<Log>, lo: nat, hi: nat, t: Rows, after: Rows)
    requires DistinctRefs(logs) && NoRepeat(logs) && lo <= hi <= |logs| && SparseRows(logs, trace, t)
    requires Steps(logs, lo, hi, t, after)
    ensures SparseRows(logs, trace + logs[lo..hi], after)
    decreases hi
  {
    if lo == hi {
      Empty(trace);
    } else {
      var u := LastStep(logs, lo, hi, t, after);
      SparseSteps(logs, trace, lo, hi - 1, t, u);
      SparseStep(logs, trace + logs[lo..hi - 1], u, logs[hi - 1], after);
      assert logs[lo..hi] == logs[lo..hi - 1] + [logs[hi - 1]];
      Assoc(trace, logs[lo..hi - 1], [logs[hi - 1]]);
    }
  }

  lemma SkippingIsSparse(logs: seq<Log>, lo: nat, hi: nat, t: Rows)
    requires History(logs) && NoRepeat(logs) && lo <= hi <= |logs| && Sessions(logs, Skipping(|logs|, lo, hi), t)
    ensures IsFold(logs, t)
  {
    var a := SkippingSteps(logs, lo, hi, t);
    SparseSteps(logs, [], 0, |logs|, map[], a);
    SparseSteps(logs, [] + logs[0..|logs|], lo, hi, a, t);
    var trace := ([] + logs[0..|logs|]) + logs[lo..hi];
    assert logs[0..|logs|] == logs;
    forall l ensures l in trace <==> l in logs { InAppend([] + logs, logs[lo..hi], l); }
    SparseIsFold(logs, trace, t);
  }

  /** Whatever is handled again before the process goes on behind the history, the table is right. */
  ghost predicate SkippingHarmless(logs: seq<Log>) {
    forall lo: nat, hi: nat, t :: lo <= hi <= |logs| && Sessions(logs, Skipping(|logs|, lo, hi), t) ==> IsFold(logs, t)
  }

  lemma CompletePass(logs: seq<Log>) returns (a: Rows)
    requires History(logs)
    ensures Sessions(logs, [] + [Session(0, |logs|)], a) && IsFold(logs, a)
  {
    a := SomeSteps(logs, 0, |logs|, map[]);
    FirstTimeFolds(logs, a);
    OneMoreSession(logs, [], Session(0, |logs|), map[], a);
  }

  lemma SpoiltSessions(logs: seq<Log>, g: nat) returns (t: Rows)
    requires History(logs) && g < |logs| && Spoils(logs, g)
    ensures Sessions(logs, Skipping(|logs|, g, g + 1), t) && !IsFold(logs, t)
  {
    var n := |logs|;
    var a := CompletePass(logs);
    t := SomeSteps(logs, g, g + 1, a);
    SpoiltAfter(logs, g, g, a, t);
    OneMoreSession(logs, [] + [Session(0, n)], Session(g, g + 1), a, t);
    OneMoreSession(logs, [] + [Session(0, n)] + [Session(g, g + 1)], Session(n, n), t, t);
  }

  /** Sessions that begin beyond the point where the previous one stopped are harmless exactly for
      histories in which no validator has two events. */
  lemma SkippingIsHarmlessExactly(logs: seq<Log>)
    requires History(logs)
    ensures SkippingHarmless(logs) <==> NoRepeat(logs)
  {
    if NoRepeat(logs) {
      forall lo: nat, hi: nat, t | lo <= hi <= |logs| && Sessions(logs, Skipping(|logs|, lo, hi), t)
        ensures IsFold(logs, t)
      {
        SkippingIsSparse(logs, lo, hi, t);
      }
    } else {
      var g := RepeatSpoils(logs);
      var t := SpoiltSessions(logs, g);
    }
  }
}
