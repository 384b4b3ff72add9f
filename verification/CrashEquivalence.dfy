/** Whatever happens on the way, the message tables end up as after one undisturbed pass: crashes,
    retries, replays and the interleaving of the two sides of a bridge leave no trace. */
module CrashEquivalence {
  import opened Entities
  import opened Sequences
  import opened Chains
  import opened Decoders
  import opened LogsTable
  import opened Tables
  import opened Handlers
  import opened Pipeline
  import opened PipelineInvariant
  import opened PipelineSafety
  import opened EarlyLogs
  import opened Correlation
  import opened DueRows

  predicate Versioned(b: Bytes) {
    |b| >= 4 && (b[..4] == V4_PREFIX || b[..4] == V5_PREFIX)
  }

  /** What one side of a bridge is assumed to log: a transaction is in one block, its hash does not
      look like a versioned message, explicit erc-to-native requests come from the bridge contract,
      an information request id names one request, and the hash has no collision among what is hashed. */
  ghost predicate Coherent(w: World) {
    && ValidWorld(w) && RequestsLive(w)
    && (forall x, y :: OnChain(w, x) && OnChain(w, y) && x.txHash == y.txHash ==> x.block == y.block)
    && (forall x :: OnChain(w, x) && x.event.LegacyMessageRequest? ==> !Versioned(x.txHash))
    && (forall x :: OnChain(w, x) && x.event.ErcRequest? ==> x.address == w.Cfg().address)
    && (forall x, y :: (OnChain(w, x) && OnChain(w, y) && x.event.InformationRequested?
                        && y.event.InformationRequested? && x.event.messageId == y.event.messageId)
          ==> x.event == y.event)
    && NoCollisions(w, w)
  }

  /** The two sides are different chains and no AMB message is requested on both. */
  ghost predicate Separate(home: World, foreign: World) {
    && home.side.Home? && foreign.side.Foreign? && home.bridge == foreign.bridge
    && home.Cfg().chainId != foreign.Cfg().chainId
    && NoCollisions(home, foreign)
    && (forall x, y :: OnChain(home, x) && OnChain(foreign, y) && IsAmbRequest(x) && IsAmbRequest(y)
          ==> Encoded(x) != Encoded(y))
  }

  /** A token transfer is a request of its own exactly when its token does not blacklist its sender and
      its transaction has no explicit request: a transaction yields messages from explicit requests or
      from transfers, never from both. */
  lemma TransferIsRequestExactly(w: World, transfer: Log)
    requires ValidWorld(w) && w.Mode().ErcToNative? && w.side.Foreign?
    requires OnChain(w, transfer) && transfer.event.Transfer?
    ensures ChainEffects(w, transfer) != Ok([]) <==> !BlacklistedSender(w, transfer) && !HasExplicitRequest(w, transfer)
  {
    BlockTableUnique(w, transfer.block);
    RequestsFound(w, transfer);
    BlacklistedIs(w.Cfg().tokens, transfer.address, transfer.event.sender);
  }

  // ---------- No two upserts clash ----------

  lemma MessageKey(w: World, l: Log, m: Message)
    requires RequestsMessage(w, l, m)
    ensures IsAmbRequest(l) && m.msgHash == w.bridge.env.keccak(Encoded(l))
    ensures l.event.MessageRequest? ==> Versioned(Encoded(l))
    ensures l.event.LegacyMessageRequest? ==> (Versioned(Encoded(l)) <==> Versioned(l.txHash))
  {
    if l.event.LegacyMessageRequest? { assert Encoded(l)[..4] == l.txHash[..4]; }
  }

  lemma MessagesAgree(w: World, x: Log, m: Message, y: Log, n: Message)
    requires Coherent(w) && OnChain(w, x) && OnChain(w, y) && RequestsMessage(w, x, m) && RequestsMessage(w, y, n)
    ensures m.msgHash == n.msgHash ==> m == n
  {
    MessageKey(w, x, m);
    MessageKey(w, y, n);
    assert HashedFor(w, x, Encoded(x)) && HashedFor(w, y, Encoded(y));
  }

  /** What is hashed for an erc-to-native request. */
  lemma ErcKey(w: World, l: Log, m: ErcMessage)
    requires OnChain(w, l) && RequestsErc(w, l, m)
    ensures IsErcRequest(l) && m.raw == ErcRaw(w, l) && m.msgHash == w.bridge.env.keccak(m.raw)
    ensures HashedFor(w, l, m.raw) && |m.raw| == if w.side.Home? then 104 else 84
    ensures m.receiver == Recipient(l) && m.value == l.event.value
  {}

  lemma ErcAgree(w: World, x: Log, m: ErcMessage, y: Log, n: ErcMessage)
    requires Coherent(w) && OnChain(w, x) && OnChain(w, y) && RequestsErc(w, x, m) && RequestsErc(w, y, n)
    ensures m.msgHash == n.msgHash ==> m == n
  {
    if m.msgHash == n.msgHash {
      ErcKey(w, x, m);
      ErcKey(w, y, n);
      if w.side.Home? {
        var f := w.bridge.cfg.foreign.address;
        PreImageToFields(Recipient(x), x.event.value, x.txHash, f, Recipient(y), y.event.value, y.txHash, f);
      } else {
        PreImageFields(Recipient(x), x.event.value, x.txHash, Recipient(y), y.event.value, y.txHash);
        SameTxAgrees(w, x, m, y, n);
      }
    }
  }

  lemma SameTxAgrees(w: World, x: Log, m: ErcMessage, y: Log, n: ErcMessage)
    requires Coherent(w) && OnChain(w, x) && OnChain(w, y) && RequestsErc(w, x, m) && RequestsErc(w, y, n)
    requires w.side.Foreign? && x.txHash == y.txHash && m.raw == n.raw && m.receiver == n.receiver && m.value == n.value
    ensures m == n
  {
    if x.event.ErcRequest? && y.event.ErcRequest? {
      OnOneChain(w, x);
      OnOneChain(w, y);
      BlockTableUnique(w, x.block);
      ForeignMessageIs(w, x, m);
      ForeignMessageIs(w, y, n);
    }
  }

  lemma SameSideAgrees(w: World, x: Log, u: Upsert, y: Log, v: Upsert)
    requires Coherent(w) && OnChain(w, x) && OnChain(w, y)
    requires MadeBy(w, u, x) && MadeBy(w, v, y)
    ensures !Clash(u, v)
  {
    MadeIsDue(w, x, u);
    MadeIsDue(w, y, v);
    if u.PutMessage? && v.PutMessage? {
      MessagesAgree(w, x, u.message, y, v.message);
    } else if u.PutErc? && v.PutErc? {
      ErcAgree(w, x, u.erc, y, v.erc);
    } else if u.PutRow? && v.PutRow? && u.ref == v.ref {
      OnOneChain(w, x);
      OnOneChain(w, y);
      SameRefOnChain(w, x, y);
      OneRowEach(w, x, u, v);
    }
  }

  /** The handler of a log writes one row. */
  lemma OneRowEach(w: World, l: Log, u: Upsert, v: Upsert)
    requires ValidWorld(w) && MadeBy(w, u, l) && MadeBy(w, v, l) && u.PutRow? && v.PutRow?
    ensures u == v
  {
    BlockTableUnique(w, l.block);
  }

  lemma SidesAgree(home: World, foreign: World, x: Log, u: Upsert, y: Log, v: Upsert)
    requires Coherent(home) && Coherent(foreign) && Separate(home, foreign)
    requires OnChain(home, x) && OnChain(foreign, y) && MadeBy(home, u, x) && MadeBy(foreign, v, y)
    ensures !Clash(u, v)
  {
    MadeIsDue(home, x, u);
    MadeIsDue(foreign, y, v);
    OnOneChain(home, x);
    OnOneChain(foreign, y);
    if u.PutMessage? && v.PutMessage? {
      MessageKey(home, x, u.message);
      MessageKey(foreign, y, v.message);
      assert HashedFor(home, x, Encoded(x)) && HashedFor(foreign, y, Encoded(y));
    } else if u.PutErc? && v.PutErc? {
      ErcKey(home, x, u.erc);
      ErcKey(foreign, y, v.erc);
    }
  }

  /** All upserts that come from logs of the two sides. */
  ghost predicate FromSides(home: World, foreign: World, us: seq<Upsert>)
    requires ValidChain(home) && ValidChain(foreign)
  {
    forall u :: u in us ==>
      (exists l :: OnChain(home, l) && MadeBy(home, u, l)) || (exists l :: OnChain(foreign, l) && MadeBy(foreign, u, l))
  }

  ghost predicate Bridged(home: World, foreign: World) {
    Coherent(home) && Coherent(foreign) && Separate(home, foreign)
  }

  lemma SymmetricClash(u: Upsert, v: Upsert)
    ensures Clash(u, v) <==> Clash(v, u)
  {}

  lemma BridgeAgrees(home: World, foreign: World, us: seq<Upsert>)
    requires Bridged(home, foreign) && FromSides(home, foreign, us)
    ensures Agreeing(us)
  {
    forall u, v | u in us && v in us ensures !Clash(u, v) {
      if x :| OnChain(home, x) && MadeBy(home, u, x) {
        if y :| OnChain(home, y) && MadeBy(home, v, y) {
          SameSideAgrees(home, x, u, y, v);
        } else {
          var y :| OnChain(foreign, y) && MadeBy(foreign, v, y);
          SidesAgree(home, foreign, x, u, y, v);
        }
      } else {
        var x :| OnChain(foreign, x) && MadeBy(foreign, u, x);
        if y :| OnChain(home, y) && MadeBy(home, v, y) {
          SidesAgree(home, foreign, y, v, x, u);
          SymmetricClash(u, v);
        } else {
          var y :| OnChain(foreign, y) && MadeBy(foreign, v, y);
          SameSideAgrees(foreign, x, u, y, v);
        }
      }
    }
  }

  // ---------- One pass ----------

  /** The upserts of handling each log once, in order. */
  ghost function OnePass(w: World, logs: seq<Log>): seq<Upsert>
    requires ValidChain(w)
  {
    if logs == [] then []
    else
      var r := ChainEffects(w, logs[|logs| - 1]);
      OnePass(w, logs[..|logs| - 1]) + if r.Ok? then r.value else []
  }

  ghost predicate MadeIn(w: World, logs: seq<Log>, u: Upsert)
    requires ValidChain(w)
  {
    exists l :: l in logs && MadeBy(w, u, l)
  }

  lemma OneMoreMade(w: World, rest: seq<Log>, last: Log, u: Upsert)
    requires ValidChain(w)
    ensures MadeIn(w, rest + [last], u) <==> MadeIn(w, rest, u) || MadeBy(w, u, last)
  {
    assert last in rest + [last];
  }

  lemma {:induction false} OnePassMember(w: World, logs: seq<Log>, u: Upsert)
    requires ValidChain(w)
    ensures u in OnePass(w, logs) <==> MadeIn(w, logs, u)
  {
    if logs != [] {
      var rest, last := logs[..|logs| - 1], logs[|logs| - 1];
      OnePassMember(w, rest, u);
      OneMoreMade(w, rest, last, u);
      assert logs == rest + [last];
      var r := ChainEffects(w, last);
      InAppend(OnePass(w, rest), if r.Ok? then r.value else [], u);
    }
  }

  /** us is made of a and b, each in its own order. */
  ghost predicate Interleaves(us: seq<Upsert>, a: seq<Upsert>, b: seq<Upsert>)
    decreases |us|
  {
    if us == [] then a == [] && b == []
    else
      var rest, last := us[..|us| - 1], us[|us| - 1];
      || (a != [] && last == a[|a| - 1] && Interleaves(rest, a[..|a| - 1], b))
      || (b != [] && last == b[|b| - 1] && Interleaves(rest, a, b[..|b| - 1]))
  }

  lemma LastOne<T>(a: seq<T>, x: T)
    requires a != []
    ensures x in a <==> x in a[..|a| - 1] || x == a[|a| - 1]
  {
    SplitAt(a, |a| - 1);
    assert a[|a| - 1..] == [a[|a| - 1]];
  }

  lemma {:induction false} InterleavesMember(us: seq<Upsert>, a: seq<Upsert>, b: seq<Upsert>, u: Upsert)
    requires Interleaves(us, a, b)
    ensures u in us <==> u in a || u in b
    decreases |us|
  {
    if us != [] {
      var rest, last := us[..|us| - 1], us[|us| - 1];
      LastOne(us, u);
      if a != [] && last == a[|a| - 1] && Interleaves(rest, a[..|a| - 1], b) {
        InterleavesMember(rest, a[..|a| - 1], b, u);
        LastOne(a, u);
      } else {
        InterleavesMember(rest, a, b[..|b| - 1], u);
        LastOne(b, u);
      }
    }
  }

  /** A run whose heads stay, and that has handled the blocks up to n and attempted none above. */
  ghost predicate CaughtUp(w: World, acts: seq<Action>, s: State, n: nat)
    requires w.Start() >= 1 && w.Cfg().maxRange >= 1
  {
    && Run(w, acts, s) && HeadsStay(w, acts)
    && (forall l :: l in s.db.attempted ==> l.block <= n)
    && s.db.row.Some? && n <= s.db.row.value.processed
  }

  /** A run that is caught up with block n has made exactly the upserts of one pass. */
  lemma SameAsOnePass(w: World, acts: seq<Action>, s: State, n: nat)
    requires ValidWorld(w) && RequestsLive(w) && CaughtUp(w, acts, s, n)
    ensures SameUpserts(s.db.upserts, OnePass(w, Between(w, w.Start(), n + 1)))
  {
    var all := Between(w, w.Start(), n + 1);
    CaughtUpCalls(w, acts, s, n);
    forall u ensures u in s.db.upserts <==> u in OnePass(w, all) {
      OnePassMember(w, all, u);
      if u in s.db.upserts {
        var l :| l in s.db.attempted && MadeBy(w, u, l);
      }
      if u in OnePass(w, all) {
        var l :| l in all && MadeBy(w, u, l);
        assert Complete(w, s.db.upserts, l);
      }
    }
  }

  /** It has attempted the logs up to there only, and handled all of them. */
  lemma CaughtUpCalls(w: World, acts: seq<Action>, s: State, n: nat)
    requires ValidWorld(w) && RequestsLive(w) && CaughtUp(w, acts, s, n)
    ensures UpsertsOk(w, s.db)
    ensures forall l :: l in s.db.attempted ==> l in Between(w, w.Start(), n + 1)
    ensures forall l :: l in Between(w, w.Start(), n + 1) ==> l in s.db.handled
  {
    RunOk(w, acts, s);
    NothingEarly(w, acts, s);
    BetweenMembers(w, w.Start(), n + 1);
  }

  /** The handler of some log of the two sides, up to the given blocks, asks for the upsert. */
  ghost predicate Asked(home: World, n: nat, foreign: World, m: nat, u: Upsert)
    requires ValidChain(home) && ValidChain(foreign)
  {
    MadeIn(home, Between(home, home.Start(), n + 1), u) || MadeIn(foreign, Between(foreign, foreign.Start(), m + 1), u)
  }

  /** What two caught-up runs have written is what the logs up to their blocks ask for. */
  lemma WrittenIsAsked(home: World, hs: seq<Action>, s: State, n: nat,
                       foreign: World, fs: seq<Action>, t: State, m: nat, us: seq<Upsert>)
    requires Bridged(home, foreign)
    requires CaughtUp(home, hs, s, n) && CaughtUp(foreign, fs, t, m)
    requires Interleaves(us, s.db.upserts, t.db.upserts)
    ensures forall u :: u in us <==> Asked(home, n, foreign, m, u)
    ensures Agreeing(us)
  {
    SameAsOnePass(home, hs, s, n);
    SameAsOnePass(foreign, fs, t, m);
    forall u ensures u in us <==> Asked(home, n, foreign, m, u) {
      InterleavesMember(us, s.db.upserts, t.db.upserts, u);
      OnePassMember(home, Between(home, home.Start(), n + 1), u);
      OnePassMember(foreign, Between(foreign, foreign.Start(), m + 1), u);
    }
    AskedFromSides(home, n, foreign, m, us);
    BridgeAgrees(home, foreign, us);
  }

  lemma AskedFromSides(home: World, n: nat, foreign: World, m: nat, us: seq<Upsert>)
    requires ValidChain(home) && ValidChain(foreign) && forall u :: u in us ==> Asked(home, n, foreign, m, u)
    ensures FromSides(home, foreign, us)
  {
    BetweenMembers(home, home.Start(), n + 1);
    BetweenMembers(foreign, foreign.Start(), m + 1);
  }

  /** Crash equivalence and confluence: take any run of the home monitor caught up with block n and
      any run of the foreign monitor caught up with block m, whatever crashes, retries and replays
      they went through, and let their upserts reach the database in any interleaving. The tables
      are those of one undisturbed pass over home, then foreign. */
  lemma CrashesLeaveNoTrace(home: World, hs: seq<Action>, s: State, n: nat,
                            foreign: World, fs: seq<Action>, t: State, m: nat, us: seq<Upsert>)
    requires Bridged(home, foreign)
    requires CaughtUp(home, hs, s, n) && CaughtUp(foreign, fs, t, m)
    requires Interleaves(us, s.db.upserts, t.db.upserts)
    ensures ApplyAll(NO_ROWS, us)
         == ApplyAll(NO_ROWS, OnePass(home, Between(home, home.Start(), n + 1))
                              + OnePass(foreign, Between(foreign, foreign.Start(), m + 1)))
  {
    WrittenIsAsked(home, hs, s, n, foreign, fs, t, m, us);
    var a := OnePass(home, Between(home, home.Start(), n + 1));
    var b := OnePass(foreign, Between(foreign, foreign.Start(), m + 1));
    forall u ensures u in us <==> u in a + b {
      OnePassMember(home, Between(home, home.Start(), n + 1), u);
      OnePassMember(foreign, Between(foreign, foreign.Start(), m + 1), u);
      InAppend(a, b, u);
    }
    OrderIsIrrelevant(us, a + b);
  }

  /** How the writes of the two sides interleave does not show, caught up or not. */
  lemma InterleavingIsInvisible(home: World, foreign: World, a: seq<Upsert>, b: seq<Upsert>,
                                us: seq<Upsert>, vs: seq<Upsert>)
    requires Bridged(home, foreign) && FromSides(home, foreign, a) && FromSides(home, foreign, b)
    requires Interleaves(us, a, b) && Interleaves(vs, a, b)
    ensures ApplyAll(NO_ROWS, us) == ApplyAll(NO_ROWS, vs)
  {
    forall u ensures u in us <==> u in vs {
      InterleavesMember(us, a, b, u);
      InterleavesMember(vs, a, b, u);
    }
    forall u | u in us ensures u in a || u in b { InterleavesMember(us, a, b, u); }
    BridgeAgrees(home, foreign, us);
    OrderIsIrrelevant(us, vs);
  }

  /** Once a log is handled, the rows it is due are in the tables, whatever came before or after. */
  lemma MessageRowsAreTheRequests(w: World, acts: seq<Action>, s: State, l: Log, u: Upsert)
    requires Coherent(w) && Run(w, acts, s)
    requires l in s.db.handled && Due(w, l, u)
    ensures Holds(ApplyAll(NO_ROWS, s.db.upserts), u)
  {
    RunOk(w, acts, s);
    forall x, y | x in s.db.upserts && y in s.db.upserts ensures !Clash(x, y) {
      var i :| i in s.db.attempted && MadeBy(w, x, i);
      var j :| j in s.db.attempted && MadeBy(w, y, j);
      SameSideAgrees(w, i, x, j, y);
    }
    AgreeingResult(s.db.upserts);
    assert l in s.db.attempted;
    MadeIsDue(w, l, u);
    assert Complete(w, s.db.upserts, l);
  }
}
