/** The "unknown message" alerts (monitor/alerts/db_alerts_provider.go) as queries over the tables,
    and why they raise no false alarm. */
module Alerts {
  import opened Entities
  import opened BlockRanges
  import opened Chains
  import opened Decoders
  import opened LogsTable
  import opened Tables
  import opened Handlers
  import opened Pipeline
  import opened PipelineInvariant
  import opened PipelineSteps
  import opened PipelineSafety
  import opened PipelineRuns
  import opened Correlation
  import opened DueRows
  import opened CrashEquivalence

  datatype CursorKey = CursorKey(chainId: nat, address: Address)
  datatype BlockKey = BlockKey(chainId: nat, block: nat)

  /** The tables the queries read: cursors, block timestamps, and the rows of one bridge. */
  datatype Store = Store(cursors: map<CursorKey, Cursor>, times: map<BlockKey, nat>, rows: Tables)

  datatype Params = Params(homeChain: nat, foreignChain: nat, homeStart: nat, foreignStart: nat,
                           homeBridge: Address, foreignBridge: Address)

  /** Byte-wise comparison of addresses. */
  predicate AtLeast(a: Bytes, b: Bytes) {
    b == [] || (a != [] && (a[0] > b[0] || (a[0] == b[0] && AtLeast(a[1..], b[1..]))))
  }

  /** The cursors the minimum is taken over: those of both chains whose address is not below the
      bridge's. The query compares with >=, so cursors of other bridges can take part. */
  predicate Counted(p: Params, k: CursorKey) {
    (k.chainId == p.homeChain && AtLeast(k.address, p.homeBridge))
    || (k.chainId == p.foreignChain && AtLeast(k.address, p.foreignBridge))
  }

  function ProcessedBlock(d: Store, k: CursorKey): BlockKey
    requires k in d.cursors
  {
    BlockKey(k.chainId, d.cursors[k].processed)
  }

  /** The join drops every cursor whose processed block has no timestamp. */
  ghost function ProcessedTimes(d: Store, p: Params): set<nat> {
    set k | k in d.cursors && Counted(p, k) && ProcessedBlock(d, k) in d.times :: d.times[ProcessedBlock(d, k)]
  }

  ghost predicate IsMin(s: set<nat>, m: nat) { m in s && forall x :: x in s ==> m <= x }

  lemma {:induction false} MinExists(s: set<nat>) returns (m: nat)
    requires s != {}
    ensures IsMin(s, m)
  {
    var a :| a in s;
    if s == {a} {
      m := a;
    } else {
      var n := MinExists(s - {a});
      m := if n < a then n else a;
      forall x | x in s ensures m <= x { if x != a { assert x in s - {a}; } }
    }
  }

  /** findMinProcessedTime: with no timestamp at all the minimum is NULL, which is an error. */
  ghost function MinProcessedTime(d: Store, p: Params): Option<nat> {
    var times := ProcessedTimes(d, p);
    if times == {} then None
    else
      assert exists m :: IsMin(times, m) by { var m := MinExists(times); }
      var m :| IsMin(times, m);
      Some(m)
  }

  predicate Dated(d: Store, min: nat, ref: LogRef) {
    BlockKey(ref.chainId, ref.block) in d.times && d.times[BlockKey(ref.chainId, ref.block)] <= min
  }

  predicate OnHome(p: Params, ref: LogRef) { ref.chainId == p.homeChain && ref.block >= p.homeStart }

  predicate OnEither(p: Params, ref: LogRef) {
    OnHome(p, ref) || (ref.chainId == p.foreignChain && ref.block >= p.foreignStart)
  }

  // What each alert reports, given the minimum.

  predicate UnknownConfirmation(d: Store, p: Params, min: nat, ref: LogRef) {
    ref in d.rows.rows && d.rows.rows[ref].Signed? && OnHome(p, ref) && Dated(d, min, ref)
    && d.rows.rows[ref].msgHash !in d.rows.messages
  }

  predicate UnknownExecution(d: Store, p: Params, min: nat, ref: LogRef) {
    ref in d.rows.rows && d.rows.rows[ref].Executed? && OnEither(p, ref) && Dated(d, min, ref)
    && forall k :: k in d.rows.messages ==> d.rows.messages[k].messageId != d.rows.rows[ref].messageId
  }

  predicate UnknownErcConfirmation(d: Store, p: Params, min: nat, ref: LogRef) {
    ref in d.rows.rows && d.rows.rows[ref].Signed? && OnHome(p, ref) && Dated(d, min, ref)
    && d.rows.rows[ref].msgHash !in d.rows.erc
  }

  predicate UnknownErcExecution(d: Store, p: Params, min: nat, ref: LogRef) {
    ref in d.rows.rows && d.rows.rows[ref].Executed? && OnEither(p, ref) && Dated(d, min, ref)
    && d.rows.rows[ref].messageId !in d.rows.erc
  }

  predicate UnknownInformation(d: Store, p: Params, min: nat, ref: LogRef) {
    ref in d.rows.rows && (d.rows.rows[ref].SignedInformation? || d.rows.rows[ref].ExecutedInformation?)
    && OnHome(p, ref) && Dated(d, min, ref) && d.rows.rows[ref].messageId !in d.rows.informations
  }

  // ---------- The minimum ----------

  /** Block times strictly increase on each chain. */
  ghost predicate Clock(time: (nat, nat) -> nat) {
    forall c, a, b :: 0 <= a < b ==> time(c, a) < time(c, b)
  }

  lemma NotLater(time: (nat, nat) -> nat, c: nat, a: nat, b: nat)
    requires Clock(time) && time(c, a) <= time(c, b)
    ensures a <= b
  {}

  function KeyOf(w: World): CursorKey { CursorKey(w.Cfg().chainId, w.Cfg().address) }

  /** The timestamps in the store are true. */
  ghost predicate TrueTimes(d: Store, time: (nat, nat) -> nat) {
    forall b :: b in d.times ==> d.times[b] == time(b.chainId, b.block)
  }

  /** The store has the cursor row of the monitor, if there is one yet. */
  ghost predicate Stored(w: World, s: State, d: Store) {
    && (KeyOf(w) in d.cursors <==> s.db.row.Some?)
    && (s.db.row.Some? ==> d.cursors[KeyOf(w)] == s.db.row.value)
  }

  /** There is a cursor row under the key and its processed block has a timestamp. */
  predicate Timed(d: Store, k: CursorKey) {
    k in d.cursors && ProcessedBlock(d, k) in d.times
  }

  lemma {:induction false} AtLeastItself(a: Bytes)
    ensures AtLeast(a, a)
  {
    if a != [] { AtLeastItself(a[1..]); }
  }

  predicate ParamsOf(p: Params, home: World, foreign: World) {
    && p.homeChain == home.Cfg().chainId && p.foreignChain == foreign.Cfg().chainId
    && p.homeBridge == home.Cfg().address && p.foreignBridge == foreign.Cfg().address
    && p.homeStart >= home.Start() && p.foreignStart >= foreign.Start()
  }

  /** The minimum is not above the time of the processed block of either side. */
  lemma MinBound(d: Store, p: Params, k: CursorKey)
    requires k in d.cursors && Counted(p, k) && ProcessedBlock(d, k) in d.times
    ensures MinProcessedTime(d, p).Some? && MinProcessedTime(d, p).value <= d.times[ProcessedBlock(d, k)]
  {
    assert d.times[ProcessedBlock(d, k)] in ProcessedTimes(d, p);
  }

  /** By the cursor invariant, a log from the start block on that is not younger than the minimum
      has been handled. */
  lemma OldEnoughIsHandled(w: World, acts: seq<Action>, s: State, d: Store, p: Params, time: (nat, nat) -> nat, l: Log)
    requires ValidWorld(w) && Run(w, acts, s) && Clock(time) && TrueTimes(d, time)
    requires Stored(w, s, d) && Timed(d, KeyOf(w))
    requires Counted(p, KeyOf(w))
    requires OnChain(w, l) && l.block >= w.Start() && MinProcessedTime(d, p).Some?
    requires time(w.Cfg().chainId, l.block) <= MinProcessedTime(d, p).value
    ensures l in s.db.handled
  {
    MinBound(d, p, KeyOf(w));
    CursorRowIsSafe(w, acts, s);
    var processed := s.db.row.value.processed;
    NotLater(time, w.Cfg().chainId, l.block, processed);
  }

  // ---------- No false alert ----------

  /** One monitor: its state when the minimum is read and its state when the query runs. Reading the
      minimum and running the query are two statements, and the monitor goes on between them. */
  datatype Life = Life(world: World, acts: seq<Action>, atMin: State, more: seq<Action>, atQuery: State)

  ghost predicate Lived(v: Life) {
    && ValidWorld(v.world) && RequestsLive(v.world)
    && Run(v.world, v.acts, v.atMin) && Leads(v.world, v.atMin, v.more, v.atQuery)
  }

  /** The two monitors of a bridge, the store the minimum is read from and the store queried. */
  ghost predicate Setting(home: Life, foreign: Life, d: Store, q: Store, p: Params, time: (nat, nat) -> nat,
                          us: seq<Upsert>) {
    && Bridged(home.world, foreign.world) && Lived(home) && Lived(foreign)
    && ParamsOf(p, home.world, foreign.world) && Clock(time)
    && TrueTimes(d, time) && TrueTimes(q, time)
    && Interleaves(us, home.atQuery.db.upserts, foreign.atQuery.db.upserts)
    && q.rows == ApplyAll(NO_ROWS, us)
  }

  lemma LivedFrom(v: Life)
    requires Lived(v)
    ensures Inv(v.world, v.atQuery)
    ensures forall l :: l in v.atMin.db.handled ==> l in v.atQuery.db.handled
  {
    LeadsGrows(v.world, v.atMin, v.more, v.atQuery);
    LeadsRun(v.world, v.acts, v.atMin, v.more, v.atQuery);
    RunOk(v.world, v.acts + v.more, v.atQuery);
  }

  lemma FromBothSides(home: Life, foreign: Life, us: seq<Upsert>)
    requires Lived(home) && Lived(foreign)
    requires Interleaves(us, home.atQuery.db.upserts, foreign.atQuery.db.upserts)
    ensures FromSides(home.world, foreign.world, us)
  {
    LivedFrom(home);
    LivedFrom(foreign);
    forall x | x in us ensures (exists i :: OnChain(home.world, i) && MadeBy(home.world, x, i))
                            || (exists i :: OnChain(foreign.world, i) && MadeBy(foreign.world, x, i)) {
      InterleavesMember(us, home.atQuery.db.upserts, foreign.atQuery.db.upserts, x);
    }
  }

  /** Once a log is handled, the rows its handler asks for are there. */
  lemma HandledHolds(home: Life, foreign: Life, us: seq<Upsert>, v: Life, l: Log, u: Upsert)
    requires Bridged(home.world, foreign.world) && Lived(home) && Lived(foreign)
    requires Interleaves(us, home.atQuery.db.upserts, foreign.atQuery.db.upserts)
    requires (v == home || v == foreign) && l in v.atQuery.db.handled && MadeBy(v.world, u, l)
    ensures Holds(ApplyAll(NO_ROWS, us), u)
  {
    LivedFrom(v);
    assert Complete(v.world, v.atQuery.db.upserts, l);
    InterleavesMember(us, home.atQuery.db.upserts, foreign.atQuery.db.upserts, u);
    FromBothSides(home, foreign, us);
    BridgeAgrees(home.world, foreign.world, us);
    AgreeingResult(us);
  }

  /** Alert soundness: whatever the two monitors went through, a row is reported as unknown only if
      no request with its key, from the start block of its side on, is as old as the row, as long as
      the cursor row of that side has a timestamp. */
  lemma NoFalseAlert(home: Life, foreign: Life, d: Store, q: Store, p: Params, time: (nat, nat) -> nat,
                     us: seq<Upsert>, min: nat, ref: LogRef, v: Life, l: Log, u: Upsert)
    requires Setting(home, foreign, d, q, p, time, us) && MinProcessedTime(d, p) == Some(min)
    requires (v == home || v == foreign) && Stored(v.world, v.atMin, d) && Timed(d, KeyOf(v.world))
    requires OnChain(v.world, l) && l.block >= v.world.Start() && Due(v.world, l, u)
    requires time(l.chainId, l.block) <= time(ref.chainId, ref.block)
    ensures u.PutMessage? && UnknownConfirmation(q, p, min, ref) ==> q.rows.rows[ref].msgHash != u.message.msgHash
    ensures u.PutMessage? && UnknownExecution(q, p, min, ref) ==> q.rows.rows[ref].messageId != u.message.messageId
    ensures u.PutErc? && UnknownErcConfirmation(q, p, min, ref) ==> q.rows.rows[ref].msgHash != u.erc.msgHash
    ensures u.PutErc? && UnknownErcExecution(q, p, min, ref) ==> q.rows.rows[ref].messageId != u.erc.msgHash
    ensures u.PutInformation? && UnknownInformation(q, p, min, ref) ==>
      q.rows.rows[ref].messageId != u.information.messageId
  {
    if Dated(q, min, ref) {
      OnOneChain(v.world, l);
      AtLeastItself(v.world.Cfg().address);
      OldEnoughIsHandled(v.world, v.acts, v.atMin, d, p, time, l);
      LivedFrom(v);
      MadeIsDue(v.world, l, u);
      HandledHolds(home, foreign, us, v, l, u);
    }
  }

  // ---------- The blind spot ----------

  /** A side without a cursor row, or whose cursor has no timestamp, does not count at all. */
  lemma OtherSideAlone(d: Store, p: Params, seen: CursorKey, silent: CursorKey)
    requires d.cursors.Keys <= {seen, silent} && Counted(p, seen) && Timed(d, seen) && !Timed(d, silent)
    ensures MinProcessedTime(d, p) == Some(d.times[ProcessedBlock(d, seen)])
  {
    assert ProcessedTimes(d, p) == {d.times[ProcessedBlock(d, seen)]};
  }

  /** One of the two monitors has not attempted a single log yet; the other one is the other. */
  ghost predicate OneSilent(home: Life, foreign: Life, silent: Life, other: Life) {
    && ((silent == home && other == foreign) || (silent == foreign && other == home))
    && silent.atQuery.db.attempted == {}
  }

  lemma OnlyOtherSide(home: Life, foreign: Life, silent: Life, other: Life, us: seq<Upsert>, v: Upsert)
    requires Lived(home) && Lived(foreign) && OneSilent(home, foreign, silent, other)
    requires Interleaves(us, home.atQuery.db.upserts, foreign.atQuery.db.upserts) && v in us
    ensures exists x :: OnChain(other.world, x) && MadeBy(other.world, v, x)
  {
    LivedFrom(home);
    LivedFrom(foreign);
    InterleavesMember(us, home.atQuery.db.upserts, foreign.atQuery.db.upserts, v);
  }

  lemma DirectionsDiffer(home: World, foreign: World, x: Log, u: Upsert, y: Log, v: Upsert)
    requires Bridged(home, foreign) && OnChain(home, x) && OnChain(foreign, y)
    requires MadeBy(home, u, x) && MadeBy(foreign, v, y)
    ensures u.PutMessage? && v.PutMessage? ==> u.message.msgHash != v.message.msgHash
    ensures u.PutErc? && v.PutErc? ==> u.erc.msgHash != v.erc.msgHash
  {
    SidesAgree(home, foreign, x, u, y, v);
    DirectionOfSide(home, x, u);
    DirectionOfSide(foreign, y, v);
  }

  lemma DirectionOfSide(w: World, x: Log, u: Upsert)
    requires Coherent(w) && OnChain(w, x) && MadeBy(w, u, x)
    ensures u.PutMessage? ==> u.message.direction == RequestDirection(w.side)
    ensures u.PutErc? ==> u.erc.direction == RequestDirection(w.side)
  {
    MadeIsDue(w, x, u);
  }

  /** The request of a silent side has no row. */
  lemma SilentRequestHasNoRow(home: Life, foreign: Life, silent: Life, other: Life, us: seq<Upsert>, l: Log, u: Upsert)
    requires Bridged(home.world, foreign.world) && Lived(home) && Lived(foreign)
    requires OneSilent(home, foreign, silent, other)
    requires Interleaves(us, home.atQuery.db.upserts, foreign.atQuery.db.upserts)
    requires OnChain(silent.world, l) && MadeBy(silent.world, u, l)
    ensures var t := ApplyAll(NO_ROWS, us);
      && (u.PutMessage? ==> u.message.msgHash !in t.messages)
      && (u.PutErc? ==> u.erc.msgHash !in t.erc)
  {
    FromBothSides(home, foreign, us);
    BridgeAgrees(home.world, foreign.world, us);
    AgreeingResult(us);
    var t := ApplyAll(NO_ROWS, us);
    forall v | v in us
      ensures u.PutMessage? && v.PutMessage? ==> u.message.msgHash != v.message.msgHash
      ensures u.PutErc? && v.PutErc? ==> u.erc.msgHash != v.erc.msgHash
    {
      OnlyOtherSide(home, foreign, silent, other, us, v);
      var x :| OnChain(other.world, x) && MadeBy(other.world, v, x);
      if silent == foreign && other == home {
        DirectionsDiffer(home.world, foreign.world, x, v, l, u);
      } else {
        DirectionsDiffer(home.world, foreign.world, l, u, x, v);
      }
    }
  }

  /** No request of the world carries the message id. */
  ghost predicate FreshId(w: World, id: Hash)
    requires ValidChain(w)
  {
    forall x, m :: OnChain(w, x) && RequestsMessage(w, x, m) ==> m.messageId != id
  }

  lemma SilentIdHasNoRow(home: Life, foreign: Life, silent: Life, other: Life, us: seq<Upsert>, id: Hash)
    requires Bridged(home.world, foreign.world) && Lived(home) && Lived(foreign)
    requires OneSilent(home, foreign, silent, other)
    requires Interleaves(us, home.atQuery.db.upserts, foreign.atQuery.db.upserts) && FreshId(other.world, id)
    ensures var t := ApplyAll(NO_ROWS, us); forall k :: k in t.messages ==> t.messages[k].messageId != id
  {
    FromBothSides(home, foreign, us);
    BridgeAgrees(home.world, foreign.world, us);
    AgreeingResult(us);
    var t := ApplyAll(NO_ROWS, us);
    forall k | k in t.messages ensures t.messages[k].messageId != id {
      var u := PutMessage(t.messages[k]);
      OnlyOtherSide(home, foreign, silent, other, us, u);
      var x :| OnChain(other.world, x) && MadeBy(other.world, u, x);
      MadeIsDue(other.world, x, u);
    }
  }

  /** The row belongs to the request: a signature or an execution under its key. */
  predicate Answers(row: EventRow, u: Upsert) {
    match u
    case PutMessage(m) => (row.Signed? && row.msgHash == m.msgHash) || (row.Executed? && row.messageId == m.messageId)
    case PutErc(m) => (row.Signed? && row.msgHash == m.msgHash) || (row.Executed? && row.messageId == m.msgHash)
    case _ => false
  }

  /** The alert for this kind of row and request reports the row. */
  predicate Reported(q: Store, p: Params, min: nat, ref: LogRef, row: EventRow, u: Upsert) {
    if u.PutMessage? then
      if row.Signed? then UnknownConfirmation(q, p, min, ref) else UnknownExecution(q, p, min, ref)
    else
      if row.Signed? then UnknownErcConfirmation(q, p, min, ref) else UnknownErcExecution(q, p, min, ref)
  }

  /** The row is where its alert looks, and not younger than the processed block of its side. */
  predicate Watched(d: Store, q: Store, p: Params, seen: CursorKey, ref: LogRef, row: EventRow) {
    && (|| (ref.chainId == p.homeChain && ref.block >= p.homeStart)
        || (!row.Signed? && ref.chainId == p.foreignChain && ref.block >= p.foreignStart))
    && BlockKey(ref.chainId, ref.block) in q.times
    && Timed(d, seen) && q.times[BlockKey(ref.chainId, ref.block)] <= d.times[ProcessedBlock(d, seen)]
  }

  lemma RowHolds(home: Life, foreign: Life, us: seq<Upsert>, ref: LogRef, row: EventRow)
    requires Bridged(home.world, foreign.world) && Lived(home) && Lived(foreign) && PutRow(ref, row) in us
    requires Interleaves(us, home.atQuery.db.upserts, foreign.atQuery.db.upserts)
    ensures Holds(ApplyAll(NO_ROWS, us), PutRow(ref, row))
  {
    FromBothSides(home, foreign, us);
    BridgeAgrees(home.world, foreign.world, us);
    AgreeingResult(us);
  }

  lemma SilentRequestReported(home: Life, foreign: Life, d: Store, q: Store, p: Params, time: (nat, nat) -> nat,
                              us: seq<Upsert>, min: nat, silent: Life, other: Life, l: Log, u: Upsert,
                              ref: LogRef, row: EventRow)
    requires Setting(home, foreign, d, q, p, time, us) && MinProcessedTime(d, p) == Some(min)
    requires OneSilent(home, foreign, silent, other) && d.cursors.Keys <= {KeyOf(other.world), KeyOf(silent.world)}
    requires OnChain(silent.world, l) && Due(silent.world, l, u)
    requires PutRow(ref, row) in us && Answers(row, u) && Watched(d, q, p, KeyOf(other.world), ref, row)
    requires u.PutMessage? && row.Executed? ==> FreshId(other.world, row.messageId)
    requires !Timed(d, KeyOf(silent.world))
    ensures Reported(q, p, min, ref, row, u)
  {
    AtLeastItself(other.world.Cfg().address);
    OtherSideAlone(d, p, KeyOf(other.world), KeyOf(silent.world));
    RowHolds(home, foreign, us, ref, row);
    MadeIsDue(silent.world, l, u);
    SilentRequestHasNoRow(home, foreign, silent, other, us, l, u);
    if u.PutMessage? && row.Executed? { SilentIdHasNoRow(home, foreign, silent, other, us, row.messageId); }
  }

  /** The exact condition of alert soundness, on a bridge one monitor of which has not attempted a log
      yet: a signature or execution of a request of the silent side, as old as the request or younger,
      is reported as unknown if and only if the silent side has no cursor row with a timestamp. With one
      it holds the minimum down; without one it is ignored. */
  lemma SilentSideExactly(home: Life, foreign: Life, d: Store, q: Store, p: Params, time: (nat, nat) -> nat,
                          us: seq<Upsert>, min: nat, silent: Life, other: Life, l: Log, u: Upsert,
                          ref: LogRef, row: EventRow)
    requires Setting(home, foreign, d, q, p, time, us) && MinProcessedTime(d, p) == Some(min)
    requires OneSilent(home, foreign, silent, other) && d.cursors.Keys <= {KeyOf(other.world), KeyOf(silent.world)}
    requires OnChain(silent.world, l) && l.block >= silent.world.Start() && Due(silent.world, l, u)
    requires Stored(silent.world, silent.atMin, d) && time(l.chainId, l.block) <= time(ref.chainId, ref.block)
    requires PutRow(ref, row) in us && Answers(row, u) && Watched(d, q, p, KeyOf(other.world), ref, row)
    requires u.PutMessage? && row.Executed? ==> FreshId(other.world, row.messageId)
    ensures Reported(q, p, min, ref, row, u) <==> !Timed(d, KeyOf(silent.world))
  {
    if Timed(d, KeyOf(silent.world)) {
      RowHolds(home, foreign, us, ref, row);
      NoFalseAlert(home, foreign, d, q, p, time, us, min, ref, silent, l, u);
    } else {
      SilentRequestReported(home, foreign, d, q, p, time, us, min, silent, other, l, u, ref, row);
    }
  }

  /** The cursor is of one of the two chains, at an address that is not below the bridge's as a number. */
  predicate Takes(p: Params, k: CursorKey) {
    || (k.chainId == p.homeChain && FromBE(k.address) >= FromBE(p.homeBridge))
    || (k.chainId == p.foreignChain && FromBE(k.address) >= FromBE(p.foreignBridge))
  }

  function TimeOf(d: Store, k: CursorKey): nat
    requires Timed(d, k)
  {
    d.times[BlockKey(k.chainId, d.cursors[k].processed)]
  }

  /** Bytes compare as the numbers they write, most significant byte first. */
  lemma {:induction false} AtLeastIsNumeric(a: Bytes, b: Bytes)
    requires |a| == |b|
    ensures AtLeast(a, b) <==> FromBE(a) >= FromBE(b)
  {
    if a != [] {
      AtLeastIsNumeric(a[1..], b[1..]);
      FirstByte(a);
      FirstByte(b);
      HighDigit(a[0] as nat, b[0] as nat, Pow256(|a| - 1), FromBE(a[1..]), FromBE(b[1..]));
    }
  }

  lemma HighDigit(x: nat, y: nat, p: nat, r: nat, s: nat)
    requires r < p && s < p
    ensures x * p + r >= y * p + s <==> x > y || (x == y && r >= s)
  {
    Multiples(x - y, p);
    assert (x - y) * p == x * p - y * p;
  }

  lemma {:induction false} FirstByte(a: Bytes)
    requires a != []
    ensures FromBE(a) == a[0] as nat * Pow256(|a| - 1) + FromBE(a[1..]) && FromBE(a[1..]) < Pow256(|a| - 1)
  {
    if |a| > 1 {
      var rest, last := a[..|a| - 1], a[|a| - 1];
      FirstByte(rest);
      assert rest[1..] == a[1..][..|a| - 2];
      OneMoreByte(a[0] as nat, Pow256(|a| - 2), FromBE(rest[1..]), last as nat);
    }
  }

  lemma OneMoreByte(x: nat, p: nat, r: nat, last: nat)
    requires r < p && last < 0x100
    ensures (x * p + r) * 0x100 + last == x * (0x100 * p) + (r * 0x100 + last)
    ensures r * 0x100 + last < 0x100 * p
  {}

  /** A cursor counts exactly when it passes the address comparison and its processed block has a
      timestamp, so these are the cursors that hold the minimum down. */
  lemma MinimumOfCounted(d: Store, p: Params, m: nat)
    ensures MinProcessedTime(d, p) == Some(m) <==>
      && (exists k :: k in d.cursors && Takes(p, k) && Timed(d, k) && TimeOf(d, k) == m)
      && (forall k :: k in d.cursors && Takes(p, k) && Timed(d, k) ==> m <= TimeOf(d, k))
  {
    forall k ensures Counted(p, k) <==> Takes(p, k) {
      AtLeastIsNumeric(k.address, p.homeBridge);
      AtLeastIsNumeric(k.address, p.foreignBridge);
    }
    var times := ProcessedTimes(d, p);
    assert forall k :: k in d.cursors && Counted(p, k) && ProcessedBlock(d, k) in d.times ==>
      d.times[ProcessedBlock(d, k)] in times;
    if MinProcessedTime(d, p).None? { assert times == {}; }
  }
}
