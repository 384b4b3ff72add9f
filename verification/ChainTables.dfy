/** The message tables and the pending messages after any two caught-up runs, said of the logs of the two
    chains alone. */
module ChainTables {
  import opened Entities
  import opened Chains
  import opened Decoders
  import opened Tables
  import opened Pipeline
  import opened PipelineInvariant
  import opened Correlation
  import opened DueRows
  import opened CrashEquivalence

  /** The log is one of the side, from its start block up to block n. */
  ghost predicate Upto(w: World, n: nat, l: Log) { l in Between(w, w.Start(), n + 1) }

  ghost predicate DueOn(w: World, n: nat, u: Upsert) { exists l :: Upto(w, n, l) && Due(w, l, u) }

  /** Some log of the two chains up to there requests the message. */
  ghost predicate MessageRequested(home: World, n: nat, foreign: World, m: nat, msg: Message) {
    exists l ::
      (Upto(home, n, l) && RequestsMessage(home, l, msg)) || (Upto(foreign, m, l) && RequestsMessage(foreign, l, msg))
  }

  ghost predicate ErcRequested(home: World, n: nat, foreign: World, m: nat, erc: ErcMessage) {
    exists l :: (Upto(home, n, l) && RequestsErc(home, l, erc)) || (Upto(foreign, m, l) && RequestsErc(foreign, l, erc))
  }

  ghost predicate InformationAsked(home: World, n: nat, r: Information) {
    exists l :: Upto(home, n, l) && RequestsInformation(home, l, r)
  }

  lemma MadeInIsDue(w: World, n: nat, u: Upsert)
    requires ValidWorld(w) && RequestsLive(w)
    ensures MadeIn(w, Between(w, w.Start(), n + 1), u) <==> DueOn(w, n, u)
  {
    BetweenMembers(w, w.Start(), n + 1);
    forall l | Upto(w, n, l) ensures MadeBy(w, u, l) <==> Due(w, l, u) { MadeIsDue(w, l, u); }
    if DueOn(w, n, u) {
      var l :| Upto(w, n, l) && Due(w, l, u);
      assert MadeBy(w, u, l);
    }
  }

  /** After any two caught-up runs the tables hold exactly the rows that the logs of the two chains up
      to there are due, under their own keys. */
  lemma TablesExactly(home: World, hs: seq<Action>, s: State, n: nat,
                      foreign: World, fs: seq<Action>, t: State, m: nat, us: seq<Upsert>)
    requires Bridged(home, foreign)
    requires CaughtUp(home, hs, s, n) && CaughtUp(foreign, fs, t, m)
    requires Interleaves(us, s.db.upserts, t.db.upserts)
    ensures forall u :: Holds(ApplyAll(NO_ROWS, us), u) <==> DueOn(home, n, u) || DueOn(foreign, m, u)
    ensures Keyed(ApplyAll(NO_ROWS, us))
  {
    WrittenIsAsked(home, hs, s, n, foreign, fs, t, m, us);
    AgreeingResult(us);
    forall u ensures Holds(ApplyAll(NO_ROWS, us), u) <==> DueOn(home, n, u) || DueOn(foreign, m, u) {
      MadeInIsDue(home, n, u);
      MadeInIsDue(foreign, m, u);
      HoldsIsIn(us, u);
    }
  }

  lemma HoldsIsIn(us: seq<Upsert>, u: Upsert)
    requires Agreeing(us)
    ensures Holds(ApplyAll(NO_ROWS, us), u) <==> u in us
  {
    AgreeingResult(us);
  }

  /** After any two caught-up runs each log of the two chains up to there has the row that its event
      says, and no other. */
  lemma EventRowsExactly(home: World, hs: seq<Action>, s: State, n: nat,
                         foreign: World, fs: seq<Action>, t: State, m: nat, us: seq<Upsert>,
                         l: Log, row: EventRow)
    requires Bridged(home, foreign)
    requires CaughtUp(home, hs, s, n) && CaughtUp(foreign, fs, t, m)
    requires Interleaves(us, s.db.upserts, t.db.upserts)
    ensures var rows := ApplyAll(NO_ROWS, us).rows;
      && (Upto(home, n, l) ==> ((RefOf(l) in rows && rows[RefOf(l)] == row) <==> RowDue(home, l, row)))
      && (Upto(foreign, m, l) ==> ((RefOf(l) in rows && rows[RefOf(l)] == row) <==> RowDue(foreign, l, row)))
  {
    TablesExactly(home, hs, s, n, foreign, fs, t, m, us);
    var u := PutRow(RefOf(l), row);
    assert Holds(ApplyAll(NO_ROWS, us), u) <==> DueOn(home, n, u) || DueOn(foreign, m, u);
    if Upto(home, n, l) { OneLogEach(home, n, foreign, m, l, row); }
    if Upto(foreign, m, l) { OneLogEach(foreign, m, home, n, l, row); }
  }

  lemma OneLogEach(w: World, n: nat, other: World, m: nat, l: Log, row: EventRow)
    requires ValidWorld(w) && ValidWorld(other) && w.Cfg().chainId != other.Cfg().chainId && Upto(w, n, l)
    ensures DueOn(w, n, PutRow(RefOf(l), row)) || DueOn(other, m, PutRow(RefOf(l), row)) <==> RowDue(w, l, row)
  {
    BetweenMembers(w, w.Start(), n + 1);
    BetweenMembers(other, other.Start(), m + 1);
    OnOneChain(w, l);
    forall x | Upto(other, m, x) ensures RefOf(x) != RefOf(l) { OnOneChain(other, x); }
    forall x | Upto(w, n, x) && RefOf(x) == RefOf(l) ensures x == l {
      OnOneChain(w, x);
      SameRefOnChain(w, x, l);
    }
  }

  lemma RequestedIsHeld(home: World, n: nat, foreign: World, m: nat, us: seq<Upsert>,
                        msg: Message, erc: ErcMessage, r: Information)
    requires WrittenAsDue(home, n, foreign, m, us)
    ensures MessageRequested(home, n, foreign, m, msg) <==> Holds(ApplyAll(NO_ROWS, us), PutMessage(msg))
    ensures ErcRequested(home, n, foreign, m, erc) <==> Holds(ApplyAll(NO_ROWS, us), PutErc(erc))
    ensures InformationAsked(home, n, r) <==> Holds(ApplyAll(NO_ROWS, us), PutInformation(r))
  {
    var t := ApplyAll(NO_ROWS, us);
    assert Holds(t, PutMessage(msg)) <==> DueOn(home, n, PutMessage(msg)) || DueOn(foreign, m, PutMessage(msg));
    assert Holds(t, PutErc(erc)) <==> DueOn(home, n, PutErc(erc)) || DueOn(foreign, m, PutErc(erc));
    assert Holds(t, PutInformation(r)) <==> DueOn(home, n, PutInformation(r)) || DueOn(foreign, m, PutInformation(r));
  }

  /** The keys under which the tables have messages are those of the requests. */
  lemma KeysOfRequests(home: World, n: nat, foreign: World, m: nat, us: seq<Upsert>, key: Hash)
    requires WrittenAsDue(home, n, foreign, m, us) && Keyed(ApplyAll(NO_ROWS, us))
    ensures var t := ApplyAll(NO_ROWS, us);
      && (key in t.messages <==> exists x :: MessageRequested(home, n, foreign, m, x) && x.msgHash == key)
      && ((exists k :: k in t.messages && t.messages[k].messageId == key)
          <==> exists x :: MessageRequested(home, n, foreign, m, x) && x.messageId == key)
      && (key in t.erc <==> exists x :: ErcRequested(home, n, foreign, m, x) && x.msgHash == key)
      && (key in t.informations <==> exists x :: InformationAsked(home, n, x) && x.messageId == key)
  {
    forall msg, erc, r
      ensures MessageRequested(home, n, foreign, m, msg) <==> Holds(ApplyAll(NO_ROWS, us), PutMessage(msg))
      ensures ErcRequested(home, n, foreign, m, erc) <==> Holds(ApplyAll(NO_ROWS, us), PutErc(erc))
      ensures InformationAsked(home, n, r) <==> Holds(ApplyAll(NO_ROWS, us), PutInformation(r))
    {
      RequestedIsHeld(home, n, foreign, m, us, msg, erc, r);
    }
    HeldUnder(ApplyAll(NO_ROWS, us), key);
  }

  lemma HeldUnder(t: Tables, key: Hash)
    requires Keyed(t)
    ensures key in t.messages <==> exists x :: Holds(t, PutMessage(x)) && x.msgHash == key
    ensures (exists k :: k in t.messages && t.messages[k].messageId == key)
        <==> exists x :: Holds(t, PutMessage(x)) && x.messageId == key
    ensures key in t.erc <==> exists x :: Holds(t, PutErc(x)) && x.msgHash == key
    ensures key in t.informations <==> exists x :: Holds(t, PutInformation(x)) && x.messageId == key
  {
    assert key in t.messages ==> Holds(t, PutMessage(t.messages[key]));
    assert key in t.erc ==> Holds(t, PutErc(t.erc[key]));
    assert key in t.informations ==> Holds(t, PutInformation(t.informations[key]));
    if k :| k in t.messages && t.messages[k].messageId == key { assert Holds(t, PutMessage(t.messages[k])); }
  }

  /** FindPendingMessages after any two caught-up runs: the messages that an AMB request up to there
      decodes to and whose id no execution up to there names; or the erc-to-native messages requested up
      to there under whose pre-image nothing was executed, neither at home nor, with the address of the
      contract, on the foreign side. */
  lemma PendingMessagesExactly(home: World, hs: seq<Action>, s: State, n: nat,
                               foreign: World, fs: seq<Action>, t: State, m: nat, us: seq<Upsert>,
                               msg: Message, erc: ErcMessage)
    requires Bridged(home, foreign)
    requires CaughtUp(home, hs, s, n) && CaughtUp(foreign, fs, t, m)
    requires Interleaves(us, s.db.upserts, t.db.upserts)
    ensures msg in PendingMessages(ApplyAll(NO_ROWS, us)) <==>
      && MessageRequested(home, n, foreign, m, msg)
      && (forall x :: (Upto(home, n, x) || Upto(foreign, m, x)) && x.event.MessageExecuted?
            ==> x.event.messageId != msg.messageId)
    ensures erc in PendingErcMessages(ApplyAll(NO_ROWS, us)) <==>
      && ErcRequested(home, n, foreign, m, erc)
      && (forall x :: Upto(home, n, x) && x.event.ErcExecuted? ==>
            home.bridge.env.keccak(x.event.recipient + BE(x.event.value, 32) + x.event.txHash) != erc.msgHash)
      && (forall x :: Upto(foreign, m, x) && x.event.ErcExecuted? ==>
            home.bridge.env.keccak(x.event.recipient + BE(x.event.value, 32) + x.event.txHash + x.address)
            != erc.msgHash)
  {
    TablesExactly(home, hs, s, n, foreign, fs, t, m, us);
    WrittenIsAsked(home, hs, s, n, foreign, fs, t, m, us);
    PendingAmb(home, n, foreign, m, us, msg);
    PendingErc(home, n, foreign, m, us, erc);
  }

  /** The upserts are those due on the two chains, and they agree. */
  ghost predicate WrittenAsDue(home: World, n: nat, foreign: World, m: nat, us: seq<Upsert>) {
    && Agreeing(us) && home.side.Home? && foreign.side.Foreign? && home.bridge == foreign.bridge
    && forall u :: Holds(ApplyAll(NO_ROWS, us), u) <==> DueOn(home, n, u) || DueOn(foreign, m, u)
  }

  lemma RowWritten(home: World, n: nat, foreign: World, m: nat, us: seq<Upsert>, l: Log, row: EventRow)
    requires WrittenAsDue(home, n, foreign, m, us)
    requires (Upto(home, n, l) && RowDue(home, l, row)) || (Upto(foreign, m, l) && RowDue(foreign, l, row))
    ensures PutRow(RefOf(l), row) in us
  {
    var u := PutRow(RefOf(l), row);
    assert DueOn(home, n, u) || DueOn(foreign, m, u);
    HoldsIsIn(us, u);
  }

  lemma RowExplained(home: World, n: nat, foreign: World, m: nat, us: seq<Upsert>, ref: LogRef, row: EventRow)
      returns (l: Log)
    requires WrittenAsDue(home, n, foreign, m, us) && PutRow(ref, row) in us
    ensures (Upto(home, n, l) && RowDue(home, l, row)) || (Upto(foreign, m, l) && RowDue(foreign, l, row))
  {
    var u := PutRow(ref, row);
    HoldsIsIn(us, u);
    if DueOn(home, n, u) {
      l :| Upto(home, n, l) && Due(home, l, u);
    } else {
      l :| Upto(foreign, m, l) && Due(foreign, l, u);
    }
  }

  lemma ExecutedAmb(home: World, n: nat, foreign: World, m: nat, us: seq<Upsert>, id: Hash)
    requires WrittenAsDue(home, n, foreign, m, us) && home.Mode().ArbitraryMessage?
    ensures ExecutedIn(us, id) <==>
      exists x :: (Upto(home, n, x) || Upto(foreign, m, x)) && x.event.MessageExecuted? && x.event.messageId == id
  {
    if ref, status :| PutRow(ref, Executed(id, status)) in us {
      var x := RowExplained(home, n, foreign, m, us, ref, Executed(id, status));
    }
    if x :| (Upto(home, n, x) || Upto(foreign, m, x)) && x.event.MessageExecuted? && x.event.messageId == id {
      RowWritten(home, n, foreign, m, us, x, Executed(id, x.event.status));
    }
  }

  lemma ExecutedErc(home: World, n: nat, foreign: World, m: nat, us: seq<Upsert>, id: Hash)
    requires WrittenAsDue(home, n, foreign, m, us) && home.Mode().ErcToNative?
    ensures ExecutedIn(us, id) <==>
      exists x :: (Upto(home, n, x) && ExecutesErc(home, x, id)) || (Upto(foreign, m, x) && ExecutesErc(foreign, x, id))
  {
    if ref, status :| PutRow(ref, Executed(id, status)) in us {
      var x := RowExplained(home, n, foreign, m, us, ref, Executed(id, status));
    }
    if x :|
      (Upto(home, n, x) && ExecutesErc(home, x, id)) || (Upto(foreign, m, x) && ExecutesErc(foreign, x, id))
    {
      RowWritten(home, n, foreign, m, us, x, Executed(id, true));
    }
  }

  lemma PendingAmb(home: World, n: nat, foreign: World, m: nat, us: seq<Upsert>, msg: Message)
    requires WrittenAsDue(home, n, foreign, m, us)
    ensures msg in PendingMessages(ApplyAll(NO_ROWS, us)) <==>
      && MessageRequested(home, n, foreign, m, msg)
      && (forall x :: (Upto(home, n, x) || Upto(foreign, m, x)) && x.event.MessageExecuted?
            ==> x.event.messageId != msg.messageId)
  {
    PendingAre(us, msg);
    HoldsIsIn(us, PutMessage(msg));
    assert PutMessage(msg) in us <==> DueOn(home, n, PutMessage(msg)) || DueOn(foreign, m, PutMessage(msg));
    if home.Mode().ArbitraryMessage? { ExecutedAmb(home, n, foreign, m, us, msg.messageId); }
  }

  lemma PendingErc(home: World, n: nat, foreign: World, m: nat, us: seq<Upsert>, erc: ErcMessage)
    requires WrittenAsDue(home, n, foreign, m, us)
    ensures erc in PendingErcMessages(ApplyAll(NO_ROWS, us)) <==>
      && ErcRequested(home, n, foreign, m, erc)
      && (forall x :: Upto(home, n, x) && x.event.ErcExecuted? ==>
            home.bridge.env.keccak(x.event.recipient + BE(x.event.value, 32) + x.event.txHash) != erc.msgHash)
      && (forall x :: Upto(foreign, m, x) && x.event.ErcExecuted? ==>
            home.bridge.env.keccak(x.event.recipient + BE(x.event.value, 32) + x.event.txHash + x.address)
            != erc.msgHash)
  {
    PendingErcAre(us, erc);
    HoldsIsIn(us, PutErc(erc));
    assert PutErc(erc) in us <==> DueOn(home, n, PutErc(erc)) || DueOn(foreign, m, PutErc(erc));
    if home.Mode().ErcToNative? { ExecutedErc(home, n, foreign, m, us, erc.msgHash); }
  }
}
