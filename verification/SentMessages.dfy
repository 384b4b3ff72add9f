/** A handler writes the message before the row that says it was sent: no crash leaves a sent row whose
    message is missing. */
module SentMessages {
  import opened Entities
  import opened Sequences
  import opened Chains
  import opened LogsTable
  import opened Tables
  import opened Handlers
  import opened Pipeline
  import opened PipelineSafety
  import opened CrashEquivalence

  ghost predicate HasMessage(us: seq<Upsert>, hash: Hash) {
    exists u :: u in us && ((u.PutMessage? && u.message.msgHash == hash) || (u.PutErc? && u.erc.msgHash == hash))
  }

  ghost predicate HasInformation(us: seq<Upsert>, id: Hash) {
    exists u :: u in us && u.PutInformation? && u.information.messageId == id
  }

  /** Whatever is sent has its message among the upserts. */
  ghost predicate Backed(us: seq<Upsert>) {
    forall u :: u in us && u.PutRow? ==>
      && (u.row.Sent? ==> HasMessage(us, u.row.msgHash))
      && (u.row.SentInformation? ==> HasInformation(us, u.row.messageId))
  }

  lemma BackedWithin(us: seq<Upsert>, vs: seq<Upsert>, u: Upsert)
    requires Backed(us) && u in us && u.PutRow? && forall x :: x in us ==> x in vs
    ensures u.row.Sent? ==> HasMessage(vs, u.row.msgHash)
    ensures u.row.SentInformation? ==> HasInformation(vs, u.row.messageId)
  {}

  lemma BackedTogether(a: seq<Upsert>, b: seq<Upsert>, all: seq<Upsert>)
    requires Backed(a) && Backed(b) && forall x :: x in all <==> x in a || x in b
    ensures Backed(all)
  {
    forall u | u in all && u.PutRow?
      ensures u.row.Sent? ==> HasMessage(all, u.row.msgHash)
      ensures u.row.SentInformation? ==> HasInformation(all, u.row.messageId)
    {
      if u in a { BackedWithin(a, all, u); } else { BackedWithin(b, all, u); }
    }
  }

  /** However far a handler gets. */
  lemma PrefixBacked(w: World, table: set<Log>, l: Log, n: nat)
    requires UniqueRefs(table) && Effects(w, table, l).Ok? && n <= |Effects(w, table, l).value|
    ensures Backed(Effects(w, table, l).value[..n])
  {
    var us := Effects(w, table, l).value[..n];
    assert |Effects(w, table, l).value| <= 2;
    forall u | u in us && u.PutRow? && (u.row.Sent? || u.row.SentInformation?) ensures us[0] in us && |us| == 2 {}
  }

  lemma CallBacked(w: World, db: Db, l: Log, n: nat, stepped: bool, done: bool)
    requires UniqueRefs(db.logs) && CanMake(w, db, l, n) && Backed(db.upserts)
    ensures Backed(HandleIn(w, db, l, n, stepped, done).upserts)
  {
    PrefixBacked(w, db.logs, l, n);
    var more := Effects(w, db.logs, l).value[..n];
    BackedTogether(db.upserts, more, db.upserts + more);
  }

  lemma StepBacked(w: World, s: State, a: Action)
    requires w.Start() >= 1 && w.Cfg().maxRange >= 1 && Enabled(w, s, a) && Backed(s.db.upserts)
    ensures Backed(Do(w, s, a).db.upserts)
  {
    if a.Handle? {
      CallBacked(w, s.db, NextLog(s), |Effects(w, s.db.logs, NextLog(s)).value|, true, true);
    } else if a.HandleFails? {
      if a.upserts > 0 || a.stepped { CallBacked(w, s.db, NextLog(s), a.upserts, a.stepped, false); }
    } else if a.Reprocess? {
      CallBacked(w, s.db, a.log, a.upserts, a.stepped, a.done);
    } else {
      SameUpsertsMade(w, s, a);
    }
  }

  lemma SameUpsertsMade(w: World, s: State, a: Action)
    requires w.Start() >= 1 && w.Cfg().maxRange >= 1 && Enabled(w, s, a)
    requires !a.Handle? && !a.HandleFails? && !a.Reprocess?
    ensures Do(w, s, a).db.upserts == s.db.upserts
  {}

  lemma {:induction false} RunBacked(w: World, acts: seq<Action>, s: State)
    requires w.Start() >= 1 && w.Cfg().maxRange >= 1 && Run(w, acts, s)
    ensures Backed(s.db.upserts)
  {
    if acts != [] {
      var before, last := acts[..|acts| - 1], acts[|acts| - 1];
      var p :| Run(w, before, p) && Enabled(w, p, last) && s == Do(w, p, last);
      RunBacked(w, before, p);
      StepBacked(w, p, last);
    }
  }

  lemma OneMoreKey(t: Tables, last: Upsert)
    ensures var u := Apply(t, last);
      && t.messages.Keys <= u.messages.Keys && t.erc.Keys <= u.erc.Keys && t.informations.Keys <= u.informations.Keys
      && (last.PutMessage? ==> last.message.msgHash in u.messages)
      && (last.PutErc? ==> last.erc.msgHash in u.erc)
      && (last.PutInformation? ==> last.information.messageId in u.informations)
      && (forall ref :: ref in u.rows ==>
           (ref in t.rows && u.rows[ref] == t.rows[ref]) || last == PutRow(ref, u.rows[ref]))
  {}

  /** Every key written has a row, and every row was written. */
  lemma {:induction false} KeysWritten(us: seq<Upsert>)
    ensures var t := ApplyAll(NO_ROWS, us);
      && (forall u :: u in us && u.PutMessage? ==> u.message.msgHash in t.messages)
      && (forall u :: u in us && u.PutErc? ==> u.erc.msgHash in t.erc)
      && (forall u :: u in us && u.PutInformation? ==> u.information.messageId in t.informations)
      && (forall ref :: ref in t.rows ==> PutRow(ref, t.rows[ref]) in us)
  {
    if us != [] {
      var rest, last := us[..|us| - 1], us[|us| - 1];
      KeysWritten(rest);
      assert forall u :: u in us <==> u in rest || u == last;
      OneMoreKey(ApplyAll(NO_ROWS, rest), last);
    }
  }

  /** After any runs of the two monitors, however they crashed and interleaved: each row that says a
      message or an information request was sent has it in the tables. */
  lemma SentMessagesExist(home: World, hs: seq<Action>, s: State, foreign: World, fs: seq<Action>, t: State,
                          us: seq<Upsert>, ref: LogRef)
    requires home.Start() >= 1 && home.Cfg().maxRange >= 1 && Run(home, hs, s)
    requires foreign.Start() >= 1 && foreign.Cfg().maxRange >= 1 && Run(foreign, fs, t)
    requires Interleaves(us, s.db.upserts, t.db.upserts)
    ensures var tables := ApplyAll(NO_ROWS, us);
      ref in tables.rows ==>
        && (tables.rows[ref].Sent? ==>
             tables.rows[ref].msgHash in tables.messages || tables.rows[ref].msgHash in tables.erc)
        && (tables.rows[ref].SentInformation? ==> tables.rows[ref].messageId in tables.informations)
  {
    RunBacked(home, hs, s);
    RunBacked(foreign, fs, t);
    forall u ensures u in us <==> u in s.db.upserts || u in t.db.upserts {
      InterleavesMember(us, s.db.upserts, t.db.upserts, u);
    }
    BackedTogether(s.db.upserts, t.db.upserts, us);
    KeysWritten(us);
  }
}
