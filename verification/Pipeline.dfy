/** The indexing pipeline of one contract monitor as a step system (monitor/contract_monitor.go):
    a block fetcher, a logs fetcher and a logs processor that share one cursor in memory, the
    database they write, failures, cancellation, crashes and restarts. */
module Pipeline {
  import opened Entities
  import opened BlockRanges
  import opened Chains
  import opened LogsTable
  import opened Tables
  import opened Handlers

  datatype Cursor = Cursor(fetched: nat, processed: nat)

  /** What survives a crash. `row` is the cursor row, `times` the blocks with a timestamp.
      `handled` records the successful handler calls in order, `attempted` every log for which a
      statement was made, `upserts` every upsert, `steps` every call whose validator statement took
      effect, in order, `written` every cursor row there ever was, and `sent` every cursor for which a
      statement was sent. */
  datatype Db = Db(row: Option<Cursor>, logs: set<Log>, times: set<nat>, handled: seq<Log>,
                   attempted: set<Log>, upserts: seq<Upsert>, steps: seq<Log>, written: set<Cursor>,
                   sent: set<Cursor>)

  /** A cursor write in progress: the two fields are read one after the other, the statement is
      sent, and then it takes effect or fails. */
  datatype Write = ReadFetched | ReadProcessed(fetched: nat) | Snapshot(c: Cursor) | InFlight(c: Cursor)

  datatype Fetcher =
    | Loading(range: Range)
    | FetcherIdle
    | Fetching(range: Range)
    | Saved(range: Range, logs: seq<Log>)
    | RecordingFetched(range: Range, logs: seq<Log>, write: Write)
    | Submitting(outbox: seq<Batch>)

  datatype Processor =
    | ProcessorIdle
    | Working(batch: Batch, next: nat, timed: bool)
    | RecordingProcessed(block: nat, write: Write)

  /** `start` and `pending` belong to the block fetcher: the next block to schedule and the ranges
      of the current poll not yet pushed. */
  datatype State = State(db: Db, mem: Cursor, head: nat, start: nat, pending: seq<Range>,
                         ranges: seq<Range>, batches: seq<Batch>, fetcher: Fetcher,
                         processor: Processor, cancelled: bool)

  datatype Action =
    | Poll(head: nat)                  // the node answers its head block
    | PushRange                        // blocksRangeChan <- range
    | LoadSaved(found: seq<Log>)       // LoadUnprocessedLogs succeeds
    | TakeRange                        // range := <-blocksRangeChan
    | SaveLogs(acknowledged: bool)     // the logs are fetched and saved; the reply may be lost
    | RecordFetched                    // the in-memory fetched block moves
    | FetcherStep                      // next step of the fetcher's cursor write
    | FetcherWrite(applied: bool, acknowledged: bool)
    | PushBatch                        // logsChan <- batch
    | TakeBatch                        // batch := <-logsChan
    | Handle                           // the handler of the next log of the batch succeeds
    | HandleFails(upserts: nat, stepped: bool) // it fails, after some statements; the batch starts over
    | SaveTime                         // the timestamp of the batch's block is saved
    | RecordProcessed                  // the in-memory processed block moves
    | ProcessorStep
    | ProcessorWrite(applied: bool, acknowledged: bool)
    | Cancel                           // the context is cancelled
    | Abandon                          // a cancelled batch is given up, and still recorded in memory
    | Restart                          // the process stops at any point and starts again
    | OtherMonitor(log: Log)           // another monitor saves a log of its own contracts
    | ReprocessSave(range: Range)      // a manual run fetches and saves an already processed range
    | Reprocess(log: Log, upserts: nat, stepped: bool, done: bool) // ... handles one of its logs again
    | Rewrite(c: Cursor)               // ... or writes back the cursor row it started from; or a
                                       // statement sent earlier, perhaps by a process now dead, lands

  function FirstBlock(w: World): nat
    requires w.Start() >= 1
  {
    w.Start() - 1
  }

  /** A process that starts: the cursor is read, both loops are set up, nothing is queued. */
  function Boot(w: World, db: Db): State
    requires w.Start() >= 1
  {
    var c := if db.row.Some? then db.row.value else Cursor(FirstBlock(w), FirstBlock(w));
    State(db, c, 0, c.fetched + 1, [], [], [], Loading(Range(c.processed + 1, c.fetched)), ProcessorIdle, false)
  }

  const EMPTY_DB := Db(None, {}, {}, [], {}, [], [], {}, {})

  /** The filter of LoadUnprocessedLogs. */
  function UnprocessedFilter(w: World, r: Range): Filter {
    Filter(w.Cfg().chainId, ContractAddresses(w.Cfg(), r.first, r.last), r.first, r.last, None, None, None)
  }

  function RangeLogs(w: World, r: Range): seq<Log> { Between(w, r.first, r.last + 1) }

  function AsSet(logs: seq<Log>): set<Log> { set l | l in logs }

  predicate Ready(s: State) {
    s.processor.Working? && s.processor.next < |s.processor.batch.logs|
  }

  function NextLog(s: State): Log
    requires Ready(s)
  {
    s.processor.batch.logs[s.processor.next]
  }

  ghost predicate Enabled(w: World, s: State, a: Action)
    requires w.Start() >= 1 && w.Cfg().maxRange >= 1
  {
    match a
    case Poll(head) => s.pending == [] && w.Cfg().confirmations <= head < MAX_UINT32
    case PushRange => s.pending != []
    case LoadSaved(found) =>
      && s.fetcher.Loading? && !s.cancelled && UniqueRefs(s.db.logs)
      && found == Find(s.db.logs, UnprocessedFilter(w, s.fetcher.range))
    case TakeRange => s.fetcher.FetcherIdle? && s.ranges != []
    case SaveLogs(_) => s.fetcher.Fetching? && !s.cancelled
    case RecordFetched => s.fetcher.Saved?
    case FetcherStep => s.fetcher.RecordingFetched? && !s.fetcher.write.InFlight?
                        && (s.fetcher.write.Snapshot? ==> !s.cancelled)
    case FetcherWrite(applied, acknowledged) =>
      s.fetcher.RecordingFetched? && !s.fetcher.write.ReadFetched? && !s.fetcher.write.ReadProcessed?
      && (applied ==> s.fetcher.write.InFlight?) && (acknowledged ==> applied)
    case PushBatch => s.fetcher.Submitting? && s.fetcher.outbox != []
    case TakeBatch => s.processor.ProcessorIdle? && s.batches != []
    case Handle =>
      Ready(s) && !s.cancelled && UniqueRefs(s.db.logs) && Effects(w, s.db.logs, NextLog(s)).Ok?
    case HandleFails(n, stepped) =>
      Ready(s) && !s.cancelled && UniqueRefs(s.db.logs)
      && (n > 0 || stepped ==> CanMake(w, s.db, NextLog(s), n))
    case SaveTime => s.processor.Working? && !s.cancelled
    case RecordProcessed =>
      s.processor.Working? && s.processor.next == |s.processor.batch.logs| && s.processor.timed
    case ProcessorStep => s.processor.RecordingProcessed? && !s.processor.write.InFlight?
                          && (s.processor.write.Snapshot? ==> !s.cancelled)
    case ProcessorWrite(applied, acknowledged) =>
      s.processor.RecordingProcessed? && !s.processor.write.ReadFetched? && !s.processor.write.ReadProcessed?
      && (applied ==> s.processor.write.InFlight?) && (acknowledged ==> applied)
    case Cancel => true
    case Abandon => s.processor.Working? && s.cancelled
    case Restart => true
    case OtherMonitor(l) =>
      && (l.chainId == w.Cfg().chainId ==> l in w.ChainLogs(l.block) && !Ours(w, l.address))
      && forall x :: x in s.db.logs ==> RefOf(x) != RefOf(l)
    case ReprocessSave(r) => WasProcessed(w, s.db, r.last)
    case Reprocess(l, n, stepped, done) =>
      && OnChain(w, l) && l in s.db.logs && UniqueRefs(s.db.logs) && WasProcessed(w, s.db, l.block)
      && CanMake(w, s.db, l, n) && (done ==> stepped && n == |Effects(w, s.db.logs, l).value|)
    case Rewrite(c) => c in s.db.sent || c == Cursor(FirstBlock(w), FirstBlock(w))
  }

  /** The handler of the log makes at least n upserts. */
  ghost predicate CanMake(w: World, db: Db, l: Log, n: nat)
    requires UniqueRefs(db.logs)
  {
    Effects(w, db.logs, l).Ok? && n <= |Effects(w, db.logs, l).value|
  }

  /** The block is at or below the last processed block of some cursor a manual run may start from. */
  ghost predicate WasProcessed(w: World, db: Db, b: nat) {
    b < w.Start() || exists c :: c in db.written && b <= c.processed
  }

  function WriteRow(db: Db, c: Cursor): Db { db.(row := Some(c), written := db.written + {c}) }

  function NextWrite(write: Write, mem: Cursor): Write {
    match write
    case ReadFetched => ReadProcessed(mem.fetched)
    case ReadProcessed(f) => Snapshot(Cursor(f, mem.processed))
    case Snapshot(c) => InFlight(c)
    case InFlight(c) => write
  }

  /** A call makes the first n upserts of a log, and its validator statement if it is stepped; a call
      that is done has made all of it. */
  ghost function HandleIn(w: World, db: Db, l: Log, n: nat, stepped: bool, done: bool): Db
    requires UniqueRefs(db.logs) && CanMake(w, db, l, n)
  {
    db.(handled := if done then db.handled + [l] else db.handled,
        attempted := db.attempted + {l},
        upserts := db.upserts + Effects(w, db.logs, l).value[..n],
        steps := if stepped then db.steps + [l] else db.steps)
  }

  /** A statement is sent. */
  function SendIn(db: Db, write: Write): Db {
    if write.Snapshot? then db.(sent := db.sent + {write.c}) else db
  }

  // ---------- Block fetcher ----------

  function Polled(w: World, s: State, head: nat): State
    requires w.Cfg().confirmations <= head && w.Cfg().maxRange >= 1
  {
    var h := head - w.Cfg().confirmations;
    s.(head := if h < s.head then s.head else h,
       pending := Chunks(s.start, h, w.Cfg().maxRange), start := h + 1)
  }

  function RangePushed(s: State): State
    requires s.pending != []
  {
    s.(ranges := s.ranges + [s.pending[0]], pending := s.pending[1..])
  }

  // ---------- Logs fetcher ----------

  function SavedLoaded(s: State, found: seq<Log>): State
    requires s.fetcher.Loading?
  {
    s.(fetcher := Submitting(Submissions(found, s.fetcher.range.last)))
  }

  function RangeTaken(s: State): State
    requires s.ranges != []
  {
    s.(fetcher := Fetching(s.ranges[0]), ranges := s.ranges[1..])
  }

  function SaveIn(w: World, db: Db, r: Range): Db { db.(logs := db.logs + AsSet(RangeLogs(w, r))) }

  function LogsSaved(w: World, s: State, acknowledged: bool): State
    requires s.fetcher.Fetching?
  {
    s.(db := SaveIn(w, s.db, s.fetcher.range),
       fetcher := if acknowledged then Saved(s.fetcher.range, RangeLogs(w, s.fetcher.range)) else s.fetcher)
  }

  /** recordFetchedBlockNumber: a block below the cursor is not recorded. */
  function FetchedRecorded(s: State): State
    requires s.fetcher.Saved?
  {
    var r, logs := s.fetcher.range, s.fetcher.logs;
    if r.last < s.mem.fetched then s.(fetcher := Submitting(Submissions(logs, r.last)))
    else s.(mem := s.mem.(fetched := r.last), fetcher := RecordingFetched(r, logs, ReadFetched))
  }

  function FetcherStepped(s: State): State
    requires s.fetcher.RecordingFetched?
  {
    s.(fetcher := s.fetcher.(write := NextWrite(s.fetcher.write, s.mem)), db := SendIn(s.db, s.fetcher.write))
  }

  /** A cursor write that did not succeed makes the whole range start over. */
  function FetcherWrote(s: State, applied: bool, acknowledged: bool): State
    requires s.fetcher.RecordingFetched? && (s.fetcher.write.Snapshot? || s.fetcher.write.InFlight?)
  {
    var r, logs := s.fetcher.range, s.fetcher.logs;
    s.(db := if applied then WriteRow(s.db, s.fetcher.write.c) else s.db,
       fetcher := if acknowledged then Submitting(Submissions(logs, r.last)) else Fetching(r))
  }

  function BatchPushed(s: State): State
    requires s.fetcher.Submitting? && s.fetcher.outbox != []
  {
    var rest := s.fetcher.outbox[1..];
    s.(batches := s.batches + [s.fetcher.outbox[0]],
       fetcher := if rest == [] then FetcherIdle else Submitting(rest))
  }

  // ---------- Logs processor ----------

  function BatchTaken(s: State): State
    requires s.batches != []
  {
    s.(processor := Working(s.batches[0], 0, false), batches := s.batches[1..])
  }

  ghost function Handled(w: World, s: State): State
    requires Ready(s) && UniqueRefs(s.db.logs) && Effects(w, s.db.logs, NextLog(s)).Ok?
  {
    s.(db := HandleIn(w, s.db, NextLog(s), |Effects(w, s.db.logs, NextLog(s)).value|, true, true),
       processor := s.processor.(next := s.processor.next + 1))
  }

  ghost function HandlingFailed(w: World, s: State, n: nat, stepped: bool): State
    requires Ready(s) && UniqueRefs(s.db.logs)
    requires n > 0 || stepped ==> CanMake(w, s.db, NextLog(s), n)
  {
    s.(db := if n > 0 || stepped then HandleIn(w, s.db, NextLog(s), n, stepped, false) else s.db,
       processor := s.processor.(next := 0))
  }

  function TimeSaved(s: State): State
    requires s.processor.Working?
  {
    s.(db := s.db.(times := s.db.times + {s.processor.batch.block}), processor := s.processor.(timed := true))
  }

  /** recordProcessedBlockNumber: a block below the cursor is not recorded. */
  function ProcessedRecorded(s: State): State
    requires s.processor.Working?
  {
    var block := s.processor.batch.block;
    if block < s.mem.processed then s.(processor := ProcessorIdle)
    else s.(mem := s.mem.(processed := block), processor := RecordingProcessed(block, ReadFetched))
  }

  function ProcessorStepped(s: State): State
    requires s.processor.RecordingProcessed?
  {
    s.(processor := s.processor.(write := NextWrite(s.processor.write, s.mem)), db := SendIn(s.db, s.processor.write))
  }

  /** A cursor write that did not succeed is tried again, unless the context is cancelled. */
  function ProcessorWrote(s: State, applied: bool, acknowledged: bool): State
    requires s.processor.RecordingProcessed? && (s.processor.write.Snapshot? || s.processor.write.InFlight?)
  {
    s.(db := if applied then WriteRow(s.db, s.processor.write.c) else s.db,
       processor := if acknowledged || s.cancelled then ProcessorIdle else s.processor.(write := ReadFetched))
  }

  ghost function Do(w: World, s: State, a: Action): State
    requires w.Start() >= 1 && w.Cfg().maxRange >= 1
    requires Enabled(w, s, a)
  {
    match a
    case Poll(head) => Polled(w, s, head)
    case PushRange => RangePushed(s)
    case LoadSaved(found) => SavedLoaded(s, found)
    case TakeRange => RangeTaken(s)
    case SaveLogs(acknowledged) => LogsSaved(w, s, acknowledged)
    case RecordFetched => FetchedRecorded(s)
    case FetcherStep => FetcherStepped(s)
    case FetcherWrite(applied, acknowledged) => FetcherWrote(s, applied, acknowledged)
    case PushBatch => BatchPushed(s)
    case TakeBatch => BatchTaken(s)
    case Handle => Handled(w, s)
    case HandleFails(n, stepped) => HandlingFailed(w, s, n, stepped)
    case SaveTime => TimeSaved(s)
    case RecordProcessed => ProcessedRecorded(s)
    case ProcessorStep => ProcessorStepped(s)
    case ProcessorWrite(applied, acknowledged) => ProcessorWrote(s, applied, acknowledged)
    case Cancel => s.(cancelled := true)
    case Abandon => ProcessedRecorded(s)
    case Restart => Boot(w, s.db)
    case OtherMonitor(l) => s.(db := s.db.(logs := s.db.logs + {l}))
    case ReprocessSave(r) => s.(db := SaveIn(w, s.db, r))
    case Reprocess(l, n, stepped, done) => s.(db := HandleIn(w, s.db, l, n, stepped, done))
    case Rewrite(c) => s.(db := WriteRow(s.db, c))
  }

  /** A run: from an empty database, any enabled actions in any order. */
  ghost predicate Run(w: World, acts: seq<Action>, s: State)
    requires w.Start() >= 1 && w.Cfg().maxRange >= 1
  {
    if acts == [] then s == Boot(w, EMPTY_DB)
    else
      var last := acts[|acts| - 1];
      exists p :: Run(w, acts[..|acts| - 1], p) && Enabled(w, p, last) && s == Do(w, p, last)
  }
}
