/** Histories of validator events handled with interruptions: when the table still ends up as the
    history dictates, and when it does not. */
module ValidatorReplays {
  import opened Entities
  import opened Sequences
  import opened Validators

  /** A life of the process: it handles logs[first..next] of the history and stops. */
  datatype Session = Session(first: nat, next: nat)

  /** The table after the sessions, each going on with the table the previous one left. */
  ghost predicate Sessions(logs: seq<Log>, ss: seq<Session>, t: Rows) {
    if ss == [] then t == map[]
    else
      var before, last := ss[..|ss| - 1], ss[|ss| - 1];
      last.first <= last.next <= |logs|
      && exists u :: Sessions(logs, before, u) && Steps(logs, last.first, last.next, u, t)
  }

  /** Where the last session stopped. */
  function Position(ss: seq<Session>): nat {
    if ss == [] then 0 else ss[|ss| - 1].next
  }

  /** How far any session got. */
  function Reached(ss: seq<Session>): nat {
    if ss == [] then 0 else Max(ss[|ss| - 1].next, Reached(ss[..|ss| - 1]))
  }

  /** No session skips a log, and what a session handles again is a mild window: for each
      validator it starts with a removal or has at most one addition. */
  ghost predicate Resumes(logs: seq<Log>, ss: seq<Session>) {
    ss == [] ||
    var before, last := ss[..|ss| - 1], ss[|ss| - 1];
    && Resumes(logs, before)
    && last.first <= last.next <= |logs| && last.first <= Position(before)
    && Reached(before) <= |logs| && Mild(logs, last.first, Reached(before))
  }

  lemma {:induction false} SessionsLeave(logs: seq<Log>, ss: seq<Session>, t: Rows)
    requires History(logs) && Resumes(logs, ss) && Sessions(logs, ss, t)
    ensures Midway(logs, t, Position(ss), Reached(ss))
  {
    if ss != [] {
      var before, last := ss[..|ss| - 1], ss[|ss| - 1];
      var u :| Sessions(logs, before, u) && Steps(logs, last.first, last.next, u, t);
      SessionsLeave(logs, before, u);
      Rewind(logs, u, last.first, Position(before), Reached(before));
      ReplayLeaves(logs, u, t, last.first, last.next, Reached(before));
    }
  }

  lemma FinishedIsFold(logs: seq<Log>, t: Rows)
    requires Midway(logs, t, |logs|, |logs|)
    ensures IsFold(logs, t)
  {}

  /** Whatever the interruptions, as long as the windows handled again are mild, the table ends up
      as the history dictates, whichever active row each removal was given. */
  lemma SessionsFold(logs: seq<Log>, ss: seq<Session>, t: Rows)
    requires History(logs) && Resumes(logs, ss) && Sessions(logs, ss, t) && Position(ss) == |logs|
    ensures IsFold(logs, t)
  {
    SessionsLeave(logs, ss, t);
    FinishedIsFold(logs, t);
  }

  /** Handling a history once, without interruption. */
  lemma FirstTimeFolds(logs: seq<Log>, t: Rows)
    requires History(logs) && Steps(logs, 0, |logs|, map[], t)
    ensures IsFold(logs, t)
  {
    var ss := [Session(0, |logs|)];
    assert ss[..0] == [];
    assert Sessions(logs, [], map[]) && Resumes(logs, []) && Mild(logs, 0, 0);
    SessionsFold(logs, ss, t);
  }

  /** The history dictates one table. */
  lemma FoldUnique(logs: seq<Log>, t: Rows, u: Rows)
    requires IsFold(logs, t) && IsFold(logs, u)
    ensures t == u
  {
    forall k ensures k in t <==> k in u
             ensures k in t ==> t[k] == u[k] {
      if k in t { var i :| 0 <= i < |logs| && Adds(logs[i]) && RefOf(logs[i]) == k; }
      if k in u { var i :| 0 <= i < |logs| && Adds(logs[i]) && RefOf(logs[i]) == k; }
    }
  }

  /** The addition is still in force: its validator has no later event. */
  predicate InForce(logs: seq<Log>, i: nat)
    requires i < |logs|
  {
    Adds(logs[i]) && Untouched(logs, i, i + 1, |logs|)
  }

  lemma ActiveAreInForce(logs: seq<Log>, t: Rows, l: Log, k: LogRef)
    requires History(logs) && IsFold(logs, t) && (Adds(l) || Removes(l))
    ensures ActiveFor(t, k, l)
      <==> exists i :: 0 <= i < |logs| && InForce(logs, i) && SameValidator(logs[i], l) && RefOf(logs[i]) == k
    ensures forall i, j :: 0 <= i < j < |logs| && InForce(logs, i) && SameValidator(logs[i], logs[j]) ==>
        !InForce(logs, j)
  {
    if ActiveFor(t, k, l) {
      var i :| 0 <= i < |logs| && Adds(logs[i]) && RefOf(logs[i]) == k;
      EndedIffTouched(logs, i, |logs|);
      assert InForce(logs, i);
    }
    if i :| 0 <= i < |logs| && InForce(logs, i) && SameValidator(logs[i], l) && RefOf(logs[i]) == k {
      EndedIffTouched(logs, i, |logs|);
    }
  }

  /** Log i is on the chain, and no later log there is an event of the validator. */
  predicate LastEventOf(logs: seq<Log>, i: nat, chainId: nat, validator: Address)
    requires i < |logs|
  {
    && logs[i].chainId == chainId
    && forall j :: i < j < |logs| && logs[j].chainId == chainId ==>
         logs[j].event != ValidatorAdded(validator) && logs[j].event != ValidatorRemoved(validator)
  }

  /** A validator whose last event is an addition has exactly one active row, that of this addition; any
      other validator has none. */
  lemma ActiveRowsAreInForce(logs: seq<Log>, t: Rows, k: LogRef, chainId: nat, validator: Address)
    requires History(logs) && IsFold(logs, t)
    ensures k in t && t[k] == ValidatorRow(chainId, validator, None) <==>
      exists i :: 0 <= i < |logs| && RefOf(logs[i]) == k && logs[i].event == ValidatorAdded(validator)
                  && LastEventOf(logs, i, chainId, validator)
    ensures forall i, j ::
      (0 <= i < |logs| && logs[i].event == ValidatorAdded(validator) && LastEventOf(logs, i, chainId, validator)
       && 0 <= j < |logs| && logs[j].event == ValidatorAdded(validator) && LastEventOf(logs, j, chainId, validator))
      ==> i == j
  {
    var l := Log(chainId, validator, 0, 0, Zeros(32), None, ValidatorAdded(validator));
    ActiveAreInForce(logs, t, l, k);
    forall i | 0 <= i < |logs|
      ensures InForce(logs, i) && SameValidator(logs[i], l)
        <==> logs[i].event == ValidatorAdded(validator) && LastEventOf(logs, i, chainId, validator)
    {
      LastIsInForce(logs, i, l);
    }
  }

  lemma LastIsInForce(logs: seq<Log>, i: nat, l: Log)
    requires i < |logs| && Adds(l)
    ensures InForce(logs, i) && SameValidator(logs[i], l)
      <==> logs[i].event == ValidatorAdded(l.event.validator) && LastEventOf(logs, i, l.chainId, l.event.validator)
  {
    if logs[i].event == ValidatorAdded(l.event.validator) && logs[i].chainId == l.chainId {
      assert forall j :: i < j < |logs| && logs[j].chainId == l.chainId ==>
        (SameValidator(logs[i], logs[j])
         <==> || logs[j].event == ValidatorAdded(l.event.validator)
              || logs[j].event == ValidatorRemoved(l.event.validator));
    }
  }

  lemma {:induction false} EndedByNext(logs: seq<Log>, i: nat, hi: nat) returns (m: nat)
    requires i < hi <= |logs| && EndedBy(logs, i, hi).Some?
    ensures i < m < hi && SameValidator(logs[i], logs[m]) && Untouched(logs, i, i + 1, m)
    ensures EndedBy(logs, i, hi) == Some(RefOf(logs[m]))
    decreases hi
  {
    if EndedBy(logs, i, hi - 1).Some? {
      m := EndedByNext(logs, i, hi - 1);
    } else {
      m := hi - 1;
      EndedIffTouched(logs, i, m);
    }
  }

  /** A row that is not active names the removal that ended it, the next event of its validator. */
  lemma EndedRowsNameTheirRemoval(logs: seq<Log>, t: Rows, i: nat) returns (m: nat)
    requires History(logs) && IsFold(logs, t) && i < |logs| && logs[i].event.ValidatorAdded?
    requires !LastEventOf(logs, i, logs[i].chainId, logs[i].event.validator)
    ensures i < m < |logs| && logs[m].chainId == logs[i].chainId
    ensures logs[m].event == ValidatorRemoved(logs[i].event.validator)
    ensures LastEventOf(logs[..m], i, logs[i].chainId, logs[i].event.validator)
    ensures t[RefOf(logs[i])].removedBy == Some(RefOf(logs[m]))
  {
    LastIsInForce(logs, i, logs[i]);
    EndedIffTouched(logs, i, |logs|);
    m := EndedByNext(logs, i, |logs|);
  }

  // ---------- Exactly when a replayed suffix is harmless ----------

  /** The history is handled once, then again from log k on, any number of times, the last time to
      the end. */
  predicate ReplaysFrom(logs: seq<Log>, k: nat, ss: seq<Session>) {
    && |ss| >= 2 && ss[0] == Session(0, |logs|)
    && (forall i :: 1 <= i < |ss| ==> ss[i].first == k <= ss[i].next <= |logs|)
    && Position(ss) == |logs|
  }

  lemma {:induction false} ReplaysResume(logs: seq<Log>, k: nat, ss: seq<Session>)
    requires k <= |logs| && Mild(logs, k, |logs|)
    requires ss != [] && ss[0] == Session(0, |logs|)
    requires forall i :: 1 <= i < |ss| ==> ss[i].first == k <= ss[i].next <= |logs|
    ensures Resumes(logs, ss) && Reached(ss) == |logs| && k <= Position(ss)
  {
    if |ss| == 1 {
      assert ss[..0] == [];
      assert Resumes(logs, []) && Mild(logs, 0, 0);
    } else {
      ReplaysResume(logs, k, ss[..|ss| - 1]);
    }
  }

  lemma ShapeStays(logs: seq<Log>, t: Rows, p: nat, after: Rows)
    requires Shape(logs, t, |logs|) && p < |logs| && Step(t, logs[p], after)
    ensures Shape(logs, after, |logs|)
  {
    StepShape(logs, t, after, p, |logs|);
    forall i | 0 <= i < |logs| && Adds(logs[i]) ensures Known(logs, after, i) {
      assert Known(logs, t, i);
    }
  }

  lemma SomeStep(t: Rows, l: Log) returns (after: Rows)
    ensures Step(t, l, after)
  {
    if Adds(l) {
      after := Upserted(t, RefOf(l), ValidatorRow(l.chainId, l.event.validator, None));
    } else if Removes(l) && exists k :: ActiveFor(t, k, l) {
      var k :| ActiveFor(t, k, l);
      after := Upserted(t, k, t[k].(removedBy := Some(RefOf(l))));
    } else {
      after := t;
    }
  }

  lemma {:induction false} SomeSteps(logs: seq<Log>, lo: nat, hi: nat, t: Rows) returns (after: Rows)
    requires lo <= hi <= |logs|
    ensures Steps(logs, lo, hi, t, after)
    decreases hi
  {
    if lo == hi {
      after := t;
    } else {
      var u := SomeSteps(logs, lo, hi - 1, t);
      after := SomeStep(u, logs[hi - 1]);
      StepsEnd(logs, lo, hi, t, u, after);
    }
  }

  lemma StepsEnd(logs: seq<Log>, lo: nat, hi: nat, t: Rows, u: Rows, after: Rows)
    requires lo < hi <= |logs| && Steps(logs, lo, hi - 1, t, u) && Step(u, logs[hi - 1], after)
    ensures Steps(logs, lo, hi, t, after)
  {}

  lemma {:induction false} StepsKeepShape(logs: seq<Log>, lo: nat, hi: nat, t: Rows, after: Rows)
    requires lo <= hi <= |logs| && Shape(logs, t, |logs|) && Steps(logs, lo, hi, t, after)
    ensures Shape(logs, after, |logs|)
    decreases hi
  {
    if lo < hi {
      var u := LastStep(logs, lo, hi, t, after);
      StepsKeepShape(logs, lo, hi - 1, t, u);
      ShapeStays(logs, u, hi - 1, after);
    }
  }

  ghost predicate AnotherActive(logs: seq<Log>, t: Rows, i: nat)
    requires i < |logs|
  {
    exists c :: 0 <= c < |logs| && c != i && Active(logs, t, c) && SameValidator(logs[i], logs[c])
  }

  predicate LastIsRemoval(logs: seq<Log>, i: nat, p: nat)
    requires i < p <= |logs|
  {
    exists m :: i < m < p && Removes(logs[m]) && SameValidator(logs[i], logs[m]) && Untouched(logs, m, m + 1, p)
  }

  /** Row i is active though it is ended in the history, and the next removal of its validator can
      take another active row, if its next event is a removal at all. */
  ghost predicate Stuck(logs: seq<Log>, t: Rows, i: nat, p: nat)
    requires i < p <= |logs|
  {
    Active(logs, t, i) && (AnotherActive(logs, t, i) || LastIsRemoval(logs, i, p))
  }

  lemma OtherStaysActive(logs: seq<Log>, t: Rows, p: nat, after: Rows, i: nat)
    requires DistinctRefs(logs) && Shape(logs, t, |logs|) && p < |logs| && i < |logs| && Active(logs, t, i)
    requires Step(t, logs[p], after) && (Adds(logs[p]) || !SameValidator(logs[i], logs[p]))
    ensures Active(logs, after, i)
  {
    ShapeStays(logs, t, p, after);
  }

  lemma AddedIsActive(logs: seq<Log>, t: Rows, p: nat, after: Rows)
    requires Shape(logs, t, |logs|) && p < |logs| && Adds(logs[p]) && Step(t, logs[p], after)
    ensures Active(logs, after, p)
  {
    ShapeStays(logs, t, p, after);
  }

  lemma RemovalComesAfterAddition(logs: seq<Log>, i: nat, p: nat)
    requires Alternating(logs) && i < p < |logs| && Removes(logs[p]) && SameValidator(logs[i], logs[p])
    ensures !LastIsRemoval(logs, i, p)
  {
    forall m | i < m < p && Removes(logs[m]) && SameValidator(logs[i], logs[m])
      ensures !Untouched(logs, m, m + 1, p)
    {
      assert Next(logs, m, p) <==> Untouched(logs, m, m + 1, p);
    }
  }

  lemma StuckPasses(logs: seq<Log>, t: Rows, i: nat, p: nat, after: Rows)
    requires DistinctRefs(logs) && Shape(logs, t, |logs|) && i < p < |logs| && Stuck(logs, t, i, p)
    requires Step(t, logs[p], after) && !SameValidator(logs[i], logs[p])
    ensures Stuck(logs, after, i, p + 1)
  {
    OtherStaysActive(logs, t, p, after, i);
    if AnotherActive(logs, t, i) {
      var c :| 0 <= c < |logs| && c != i && Active(logs, t, c) && SameValidator(logs[i], logs[c]);
      OtherStaysActive(logs, t, p, after, c);
    } else {
      var m :| i < m < p && Removes(logs[m]) && SameValidator(logs[i], logs[m]) && Untouched(logs, m, m + 1, p);
      assert Untouched(logs, m, m + 1, p + 1);
    }
  }

  lemma StuckStep(logs: seq<Log>, t: Rows, i: nat, p: nat) returns (after: Rows)
    requires History(logs) && Shape(logs, t, |logs|) && i < p < |logs| && Stuck(logs, t, i, p)
    ensures Step(t, logs[p], after) && Stuck(logs, after, i, p + 1)
  {
    if Removes(logs[p]) && SameValidator(logs[i], logs[p]) {
      RemovalComesAfterAddition(logs, i, p);
      var c :| 0 <= c < |logs| && c != i && Active(logs, t, c) && SameValidator(logs[i], logs[c]);
      after := EndOther(logs, t, i, c, p);
    } else {
      after := SomeStep(t, logs[p]);
      if SameValidator(logs[i], logs[p]) {
        OtherStaysActive(logs, t, p, after, i);
        AddedIsActive(logs, t, p, after);
      } else {
        StuckPasses(logs, t, i, p, after);
      }
    }
  }

  lemma EndOther(logs: seq<Log>, t: Rows, i: nat, c: nat, p: nat) returns (after: Rows)
    requires DistinctRefs(logs) && i < p < |logs| && c < |logs| && c != i
    requires Active(logs, t, i) && Active(logs, t, c) && SameValidator(logs[i], logs[c])
    requires Removes(logs[p]) && SameValidator(logs[i], logs[p])
    ensures Step(t, logs[p], after) && Stuck(logs, after, i, p + 1)
  {
    var k := RefOf(logs[c]);
    assert ActiveFor(t, k, logs[p]);
    after := Upserted(t, k, t[k].(removedBy := Some(RefOf(logs[p]))));
    if RefOf(logs[i]) == k { SameRef(logs, i, c); }
    assert Untouched(logs, p, p + 1, p + 1);
  }

  /** What a replay up to p has brought about: row j is still active, or row i is stuck. */
  ghost predicate OnTheWay(logs: seq<Log>, t: Rows, i: nat, j: nat, p: nat)
    requires i < j < |logs| && p <= |logs|
  {
    Shape(logs, t, |logs|) && if p <= i then Active(logs, t, j) else Stuck(logs, t, i, p)
  }

  lemma StuckNext(logs: seq<Log>, u: Rows, k: nat, p: nat, i: nat, j: nat) returns (after: Rows)
    requires History(logs) && k <= i < j < |logs| && k <= p < |logs|
    requires AddedAgain(logs, k, i, j) && OnTheWay(logs, u, i, j, p)
    ensures Step(u, logs[p], after) && OnTheWay(logs, after, i, j, p + 1)
  {
    if p <= i {
      after := SomeStep(u, logs[p]);
      if p < i { assert !SameValidator(logs[i], logs[p]); }
      OtherStaysActive(logs, u, p, after, j);
      if p == i { AddedIsActive(logs, u, i, after); }
    } else {
      after := StuckStep(logs, u, i, p);
    }
    ShapeStays(logs, u, p, after);
  }

  /** With a later row of its validator active, replaying the addition i can leave row i active to
      the end. */
  lemma {:induction false} ReplayGetsStuck(logs: seq<Log>, t: Rows, k: nat, p: nat, i: nat, j: nat)
      returns (after: Rows)
    requires History(logs) && k <= i < j < |logs| && k <= p <= |logs|
    requires AddedAgain(logs, k, i, j) && OnTheWay(logs, t, i, j, k)
    ensures Steps(logs, k, p, t, after) && OnTheWay(logs, after, i, j, p)
    decreases p
  {
    if p == k {
      after := t;
    } else {
      var u := ReplayGetsStuck(logs, t, k, p - 1, i, j);
      after := StuckNext(logs, u, k, p - 1, i, j);
      StepsEnd(logs, k, p, t, u, after);
    }
  }

  lemma OneMoreSession(logs: seq<Log>, ss: seq<Session>, s: Session, u: Rows, t: Rows)
    requires Sessions(logs, ss, u) && s.first <= s.next <= |logs| && Steps(logs, s.first, s.next, u, t)
    ensures Sessions(logs, ss + [s], t)
  {
    assert (ss + [s])[..|ss|] == ss;
  }

  /** The first pass, a replay that stops right after log j, and a complete one. */
  function StopAfter(n: nat, k: nat, j: nat): seq<Session> {
    [] + [Session(0, n)] + [Session(k, j + 1)] + [Session(k, n)]
  }

  lemma StuckSessions(logs: seq<Log>, k: nat, i: nat, j: nat) returns (t: Rows)
    requires History(logs) && k <= i < j < |logs| && AddedAgain(logs, k, i, j)
    ensures Sessions(logs, StopAfter(|logs|, k, j), t) && Active(logs, t, i)
  {
    var n := |logs|;
    var a := SomeSteps(logs, 0, n, map[]);
    OneMoreSession(logs, [], Session(0, n), map[], a);
    FirstTimeFolds(logs, a);
    var b := SomeSteps(logs, k, j + 1, a);
    OneMoreSession(logs, [] + [Session(0, n)], Session(k, j + 1), a, b);
    AddedLast(logs, k, j, a, b);
    t := ReplayGetsStuck(logs, b, k, n, i, j);
    OneMoreSession(logs, [] + [Session(0, n)] + [Session(k, j + 1)], Session(k, n), b, t);
  }

  lemma NotMildBreaks(logs: seq<Log>, k: nat) returns (ss: seq<Session>, t: Rows)
    requires History(logs) && k <= |logs| && !Mild(logs, k, |logs|)
    ensures ReplaysFrom(logs, k, ss) && Sessions(logs, ss, t) && !IsFold(logs, t)
  {
    var i, j :| k <= i < j < |logs| && AddedAgain(logs, k, i, j);
    ss := StopAfter(|logs|, k, j);
    t := StuckSessions(logs, k, i, j);
    EndedIffTouched(logs, i, |logs|);
  }

  lemma AddedLast(logs: seq<Log>, k: nat, j: nat, a: Rows, b: Rows)
    requires k <= j < |logs| && Adds(logs[j]) && IsFold(logs, a) && Steps(logs, k, j + 1, a, b)
    ensures Shape(logs, b, |logs|) && Active(logs, b, j)
  {
    assert Shape(logs, a, |logs|);
    var u :| Steps(logs, k, j, a, u) && Step(u, logs[j], b);
    StepsKeepShape(logs, k, j, a, u);
    AddedIsActive(logs, u, j, b);
    ShapeStays(logs, u, j, b);
  }

  lemma MildIsHarmless(logs: seq<Log>, k: nat, ss: seq<Session>, t: Rows)
    requires History(logs) && k <= |logs| && Mild(logs, k, |logs|) && ReplaysFrom(logs, k, ss) && Sessions(logs, ss, t)
    ensures IsFold(logs, t)
  {
    ReplaysResume(logs, k, ss);
    SessionsFold(logs, ss, t);
  }

  /** Handling the history again from log k on, however often it is interrupted and whichever rows
      are picked, leaves the table the history dictates. */
  ghost predicate Harmless(logs: seq<Log>, k: nat) {
    forall ss, t :: ReplaysFrom(logs, k, ss) && Sessions(logs, ss, t) ==> IsFold(logs, t)
  }

  /** Handling the end of a history again is harmless exactly when that end is mild. */
  lemma ReplayIsHarmlessExactly(logs: seq<Log>, k: nat)
    requires History(logs) && k <= |logs|
    ensures Harmless(logs, k) <==> Mild(logs, k, |logs|)
  {
    if Mild(logs, k, |logs|) {
      forall ss, t | ReplaysFrom(logs, k, ss) && Sessions(logs, ss, t) ensures IsFold(logs, t) {
        MildIsHarmless(logs, k, ss, t);
      }
    } else {
      var ss, t := NotMildBreaks(logs, k);
      assert ReplaysFrom(logs, k, ss) && Sessions(logs, ss, t) && !IsFold(logs, t);
    }
  }
}
