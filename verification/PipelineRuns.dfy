/** Parts of runs: what holds on the way from one state of the pipeline to a later one. */
module PipelineRuns {
  import opened Chains
  import opened Pipeline
  import opened PipelineInvariant
  import opened PipelineSteps
  import opened PipelineSafety

  /** The actions, each enabled in its turn, lead from one state to the other. */
  ghost predicate Leads(w: World, p: State, acts: seq<Action>, s: State)
    requires w.Start() >= 1 && w.Cfg().maxRange >= 1
  {
    if acts == [] then s == p
    else
      var last := acts[|acts| - 1];
      exists u :: Leads(w, p, acts[..|acts| - 1], u) && Enabled(w, u, last) && s == Do(w, u, last)
  }

  lemma StepGrows(w: World, s: State, a: Action)
    requires w.Start() >= 1 && w.Cfg().maxRange >= 1 && Enabled(w, s, a)
    ensures Grows(s.db, Do(w, s, a).db)
  {
    if ByFetcher(a) { FetcherGrows(w, s, a); } else { OthersGrow(w, s, a); }
  }

  lemma FetcherGrows(w: World, s: State, a: Action)
    requires w.Start() >= 1 && w.Cfg().maxRange >= 1 && Enabled(w, s, a) && ByFetcher(a)
    ensures Grows(s.db, Do(w, s, a).db)
  {}

  lemma OthersGrow(w: World, s: State, a: Action)
    requires w.Start() >= 1 && w.Cfg().maxRange >= 1 && Enabled(w, s, a) && !ByFetcher(a)
    ensures Grows(s.db, Do(w, s, a).db)
  {}

  lemma {:induction false} LeadsGrows(w: World, p: State, acts: seq<Action>, s: State)
    requires w.Start() >= 1 && w.Cfg().maxRange >= 1 && Leads(w, p, acts, s)
    ensures Grows(p.db, s.db)
  {
    if acts != [] {
      var last := acts[|acts| - 1];
      var u :| Leads(w, p, acts[..|acts| - 1], u) && Enabled(w, u, last) && s == Do(w, u, last);
      LeadsGrows(w, p, acts[..|acts| - 1], u);
      StepGrows(w, u, last);
    }
  }

  lemma DropLastOf<T>(a: seq<T>, b: seq<T>)
    requires b != []
    ensures a + b != [] && (a + b)[..|a + b| - 1] == a + b[..|b| - 1] && (a + b)[|a + b| - 1] == b[|b| - 1]
  {}

  lemma {:induction false} LeadsRun(w: World, before: seq<Action>, p: State, acts: seq<Action>, s: State)
    requires w.Start() >= 1 && w.Cfg().maxRange >= 1 && Run(w, before, p) && Leads(w, p, acts, s)
    ensures Run(w, before + acts, s)
  {
    var all := before + acts;
    if acts == [] {
      assert all == before;
    } else {
      var last := acts[|acts| - 1];
      var u :| Leads(w, p, acts[..|acts| - 1], u) && Enabled(w, u, last) && s == Do(w, u, last);
      LeadsRun(w, before, p, acts[..|acts| - 1], u);
      DropLastOf(before, acts);
    }
  }

  /** No head below `low` is reported, and no log from before the start block is reprocessed by hand. */
  predicate HeadsFrom(w: World, acts: seq<Action>, low: nat) {
    forall a :: a in acts ==> HeadFrom(w, a, low)
  }

  predicate HeadFrom(w: World, a: Action, low: nat) {
    (a.Poll? ==> low <= a.head) && (a.Reprocess? ==> w.Start() <= a.log.block)
  }

  /** Some run with such heads reaches the state. */
  ghost predicate ReachableFrom(w: World, low: nat, s: State)
    requires w.Start() >= 1 && w.Cfg().maxRange >= 1
  {
    exists acts :: Run(w, acts, s) && HeadsFrom(w, acts, low)
  }

  /** No step of another process and nothing done by hand. */
  predicate Alone(a: Action) { !a.Reprocess? && !a.ReprocessSave? && !a.Rewrite? && !a.OtherMonitor? }

  ghost predicate ReachableAlone(w: World, low: nat, s: State)
    requires w.Start() >= 1 && w.Cfg().maxRange >= 1
  {
    exists acts :: Run(w, acts, s) && HeadsFrom(w, acts, low) && forall a :: a in acts ==> Alone(a)
  }

  lemma Booted(w: World, low: nat)
    requires w.Start() >= 1 && w.Cfg().maxRange >= 1
    ensures ReachableAlone(w, low, Boot(w, EMPTY_DB))
  {
    assert Run(w, [], Boot(w, EMPTY_DB)) && HeadsFrom(w, [], low);
  }

  lemma Go(w: World, low: nat, p: State, a: Action) returns (s: State)
    requires w.Start() >= 1 && w.Cfg().maxRange >= 1
    requires ReachableAlone(w, low, p) && Enabled(w, p, a) && HeadFrom(w, a, low) && Alone(a)
    ensures s == Do(w, p, a) && ReachableAlone(w, low, s)
  {
    var acts :| Run(w, acts, p) && HeadsFrom(w, acts, low) && forall a :: a in acts ==> Alone(a);
    s := Do(w, p, a);
    LastIs(acts, a);
    assert Run(w, acts + [a], s) && HeadsFrom(w, acts + [a], low);
  }

  /** A lower bound on heads is one for any lower number too. */
  lemma AloneIsFrom(w: World, low: nat, high: nat, s: State)
    requires w.Start() >= 1 && w.Cfg().maxRange >= 1 && low <= high && ReachableAlone(w, high, s)
    ensures ReachableFrom(w, low, s)
  {
    var acts :| Run(w, acts, s) && HeadsFrom(w, acts, high) && forall a :: a in acts ==> Alone(a);
    assert HeadsFrom(w, acts, low);
  }

  lemma AloneKeepsInv(w: World, low: nat, s: State)
    requires ValidWorld(w) && ReachableAlone(w, low, s)
    ensures Inv(w, s)
  {
    var acts :| Run(w, acts, s) && HeadsFrom(w, acts, low) && forall a :: a in acts ==> Alone(a);
    RunOk(w, acts, s);
  }

  lemma LastIs<T>(a: seq<T>, x: T)
    ensures (a + [x])[..|a + [x]| - 1] == a && (a + [x])[|a + [x]| - 1] == x
  {}

  /** Some actions lead from one state to the other. */
  ghost predicate Reaches(w: World, p: State, s: State)
    requires w.Start() >= 1 && w.Cfg().maxRange >= 1
  {
    exists acts :: Leads(w, p, acts, s)
  }

  lemma Stay(w: World, p: State)
    requires w.Start() >= 1 && w.Cfg().maxRange >= 1
    ensures Reaches(w, p, p)
  {
    assert Leads(w, p, [], p);
  }

  /** One more step. */
  lemma Then(w: World, p: State, s: State, a: Action, t: State)
    requires w.Start() >= 1 && w.Cfg().maxRange >= 1
    requires Reaches(w, p, s) && Enabled(w, s, a) && t == Do(w, s, a)
    ensures Reaches(w, p, t)
  {
    var acts :| Leads(w, p, acts, s);
    LastIs(acts, a);
    assert Leads(w, p, acts + [a], t);
  }

  lemma {:induction false} LeadsOn(w: World, p: State, q: State, acts: seq<Action>, s: State)
    requires w.Start() >= 1 && w.Cfg().maxRange >= 1 && Reaches(w, p, q) && Leads(w, q, acts, s)
    ensures Reaches(w, p, s)
  {
    if acts != [] {
      var last := acts[|acts| - 1];
      var u :| Leads(w, q, acts[..|acts| - 1], u) && Enabled(w, u, last) && s == Do(w, u, last);
      LeadsOn(w, p, q, acts[..|acts| - 1], u);
      Then(w, p, u, last, s);
    }
  }

  lemma Onward(w: World, p: State, q: State, s: State)
    requires w.Start() >= 1 && w.Cfg().maxRange >= 1 && Reaches(w, p, q) && Reaches(w, q, s)
    ensures Reaches(w, p, s)
  {
    var acts :| Leads(w, q, acts, s);
    LeadsOn(w, p, q, acts, s);
  }

  lemma {:induction false} LeadsKeepsInv(w: World, p: State, acts: seq<Action>, s: State)
    requires ValidWorld(w) && Inv(w, p) && Leads(w, p, acts, s)
    ensures Inv(w, s)
  {
    if acts != [] {
      var last := acts[|acts| - 1];
      var u :| Leads(w, p, acts[..|acts| - 1], u) && Enabled(w, u, last) && s == Do(w, u, last);
      LeadsKeepsInv(w, p, acts[..|acts| - 1], u);
      StepOk(w, u, last);
    }
  }

  lemma StaysInv(w: World, p: State, s: State)
    requires ValidWorld(w) && Inv(w, p) && Reaches(w, p, s)
    ensures Inv(w, s)
  {
    var acts :| Leads(w, p, acts, s);
    LeadsKeepsInv(w, p, acts, s);
  }
}
