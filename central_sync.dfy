/**
 * Pulling central data (sync API v5): a cursor-driven loop that asks the central server for the
 * records after the persisted cursor, stores each record in the sync buffer and advances the
 * cursor with it in one transaction, and stops once a batch comes back empty with the cursor
 * caught up to the server's `max_cursor`.
 */
module CentralSync {
  import opened Wrappers
  import opened Repository
  import opened SyncBuffer

  /** The sync API's, the record converter's and the sync logger's errors are opaque here. */
  datatype SyncApiError = SyncApiError(description: string)
  datatype V5ParseError = V5ParseError(description: string)
  datatype LoggerError = LoggerError(description: string)

  datatype CentralSyncError =
    | PullError(api: SyncApiError)
    | SaveSyncBufferOrCursorsError(repository: RepositoryError)
    | ParsingV5RecordError(parse: V5ParseError)
    | SyncLoggerError(logger: LoggerError)

  const I32Max: int := 0x7fff_ffff
  const I32Min: int := -0x8000_0000
  const U32Modulus: int := 0x1_0000_0000
  const U64Modulus: int := 0x1_0000_0000_0000_0000

  predicate IsI32(v: int)
  {
    I32Min <= v <= I32Max
  }

  /** Rust's `cursor as i32` on a u64: the low 32 bits, read as two's complement. */
  function U64AsI32(v: nat): (r: int)
    ensures IsI32(r)
    ensures (r - v) % U32Modulus == 0
  {
    var low := v % U32Modulus;
    if low <= I32Max then low else low - U32Modulus
  }

  /** Rust's `value as u64` on an i32: a negative value becomes 2^64 + value. */
  function I32AsU64(v: int): (r: nat)
    requires IsI32(v)
    ensures r < U64Modulus
    ensures (r - v) % U64Modulus == 0
  {
    if v < 0 then v + U64Modulus else v
  }

  /**
   * Rust's `a - b` on u64 as a release build runs it, with overflow checks off: the difference
   * modulo 2^64, so a `b` past `a` wraps round to a number near 2^64.
   */
  function U64WrappingSub(a: nat, b: nat): (r: nat)
    ensures r < U64Modulus
    ensures a < U64Modulus && b <= a ==> r == a - b
    ensures a < b < U64Modulus ==> r == U64Modulus - (b - a)
  {
    (a - b) % U64Modulus
  }

  /** A cursor that fits in an i32 survives being stored and read back. */
  lemma CursorRoundTrip(c: nat)
    requires c <= I32Max
    ensures I32AsU64(U64AsI32(c)) == c
  {
  }

  /**
   * A cursor past the i32 range does not: it comes back as a number near 2^64, far above any
   * real `max_cursor`.
   */
  lemma CursorPastI32ComesBackHuge(c: nat)
    requires I32Max < c < U32Modulus
    ensures I32AsU64(U64AsI32(c)) == c - U32Modulus + U64Modulus
  {
  }

  /**
   * `get_cursor` as the loop uses it: the i32 stored under `CentralSyncPullCursor` as u64, where
   * a missing value or a failed read (`readFault`) both count as 0.
   */
  function StartCursor(stored: Option<int>, readFault: Option<RepositoryError>): (c: nat)
    requires stored.Some? ==> IsI32(stored.value)
    ensures readFault.Some? || stored.None? ==> c == 0
    ensures readFault.None? && stored.Some? ==> c == I32AsU64(stored.value)
  {
    if readFault.Some? then 0
    else if stored.None? then 0
    else I32AsU64(stored.value)
  }

  /**
   * The persisted pull cursor: one i32 slot of the key-value store. Whether a read or a write of
   * the slot fails is decided by the database; each call is given that answer.
   */
  class PullCursor {
    var stored: Option<int>

    ghost predicate Valid()
      reads this
    {
      stored.Some? ==> IsI32(stored.value)
    }

    constructor (initial: Option<int>)
      requires initial.Some? ==> IsI32(initial.value)
      ensures Valid() && stored == initial
    {
      stored := initial;
    }

    /** `get_cursor`: the read error, or the stored i32 (0 when unset) widened to u64. */
    method GetCursor(readFault: Option<RepositoryError>) returns (r: Result<nat, RepositoryError>)
      requires Valid()
      ensures readFault.Some? ==> r == Err(readFault.value)
      ensures readFault.None? ==> r == Ok(StartCursor(stored, None))
    {
      if readFault.Some? {
        return Err(readFault.value);
      }
      var value := stored.UnwrapOr(0);
      r := Ok(I32AsU64(value));
    }

    /** `update_cursor`: stores `cursor as i32`, unless the database refuses the write. */
    method UpdateCursor(cursor: nat, writeFault: nat -> Option<RepositoryError>) returns (r: Result<(), RepositoryError>)
      requires Valid()
      modifies this
      ensures Valid()
      ensures r == if writeFault(cursor).Some? then Err(writeFault(cursor).value) else Ok(())
      ensures stored == if r.Ok? then Some(U64AsI32(cursor)) else old(stored)
    {
      if writeFault(cursor).Some? {
        return Err(writeFault(cursor).value);
      }
      stored := Some(U64AsI32(cursor));
      r := Ok(());
    }
  }

  /** A central record as the API delivers it, before conversion into a buffer row. */
  datatype CentralRecord = CentralRecord(tableName: string, recordId: string, data: string)
  datatype CentralSyncRecord = CentralSyncRecord(cursor: nat, record: CentralRecord)
  datatype CentralSyncBatch = CentralSyncBatch(maxCursor: nat, data: seq<CentralSyncRecord>)

  /** The two `progress` calls of one loop iteration: before and after the records are stored. */
  datatype ProgressCall = BeforeRecords | AfterRecords

  /**
   * What the pull depends on but does not decide: the central server's answer in the n-th loop
   * iteration (counted from 0) for a cursor and batch size, the record converter `to_buffer_row`,
   * which buffer writes and which cursor writes the local database refuses, whether the cursor
   * read of the n-th iteration fails, and whether the sync logger fails to record the n-th
   * iteration's first or second `PullCentral` progress report of the given remaining count.
   */
  datatype PullEnvironment = PullEnvironment(
    getCentralRecords: (nat, nat, nat) -> Result<CentralSyncBatch, SyncApiError>,
    toBufferRow: CentralRecord -> Result<SyncBufferRow, V5ParseError>,
    bufferFault: SyncBufferRow -> Option<RepositoryError>,
    cursorFault: nat -> Option<RepositoryError>,
    readFault: nat -> Option<RepositoryError>,
    progressFault: (nat, ProgressCall, nat) -> Option<LoggerError>)

  /**
   * The error of `insert_one_and_update_cursor`'s transaction: the upsert's, else the cursor
   * write's; `None` when both writes go through.
   */
  function TransactionFault(row: SyncBufferRow, cursor: nat, env: PullEnvironment): (f: Option<RepositoryError>)
    ensures f.None? <==> env.bufferFault(row).None? && env.cursorFault(cursor).None?
    ensures env.bufferFault(row).Some? ==> f == env.bufferFault(row)
  {
    if env.bufferFault(row).Some? then env.bufferFault(row) else env.cursorFault(cursor)
  }

  /**
   * The progress the logger is given: `max_cursor - cursor`, the records still to pull when the
   * cursor has not passed `max_cursor`.
   */
  function Remaining(batch: CentralSyncBatch, cursor: nat): (r: nat)
    ensures r < U64Modulus
    ensures cursor <= batch.maxCursor < U64Modulus ==> r == batch.maxCursor - cursor
  {
    U64WrappingSub(batch.maxCursor, cursor)
  }

  /** The part of the database the pull changes: the sync buffer and the stored cursor. */
  datatype PullState = PullState(buffer: Table, stored: Option<int>)

  predicate ValidState(s: PullState)
  {
    KeyedById(s.buffer) && (s.stored.Some? ==> IsI32(s.stored.value))
  }

  datatype RecordsOutcome = RecordsOutcome(state: PullState, cursor: nat, error: Option<CentralSyncError>)

  /**
   * The `for` loop over a batch: per record, the cursor becomes the record's cursor, the record is
   * converted, and the buffer row and the cursor are written together; the first conversion or
   * write failure ends the loop with that record's error and nothing of it written (a failed
   * cursor write rolls the upsert back).
   */
  function ProcessRecords(s: PullState, cursor: nat, data: seq<CentralSyncRecord>, env: PullEnvironment): (o: RecordsOutcome)
    requires ValidState(s)
    ensures ValidState(o.state)
    decreases |data|
  {
    if data == [] then RecordsOutcome(s, cursor, None)
    else
      var c := data[0].cursor;
      var converted := env.toBufferRow(data[0].record);
      if converted.Err? then RecordsOutcome(s, c, Some(ParsingV5RecordError(converted.error)))
      else if TransactionFault(converted.value, c, env).Some? then
        RecordsOutcome(s, c, Some(SaveSyncBufferOrCursorsError(TransactionFault(converted.value, c, env).value)))
      else ProcessRecords(PullState(Upserted(s.buffer, converted.value), Some(U64AsI32(c))), c, data[1..], env)
  }

  /** Whether a record converts and both its buffer row and its cursor are accepted by the database. */
  predicate Commits(r: CentralSyncRecord, env: PullEnvironment)
  {
    && env.toBufferRow(r.record).Ok?
    && TransactionFault(env.toBufferRow(r.record).value, r.cursor, env).None?
  }

  /** The buffer rows of records that all commit. */
  function ConvertedRows(data: seq<CentralSyncRecord>, env: PullEnvironment): (rows: seq<SyncBufferRow>)
    requires forall j :: 0 <= j < |data| ==> env.toBufferRow(data[j].record).Ok?
    ensures |rows| == |data|
    ensures forall j :: 0 <= j < |data| ==> rows[j] == env.toBufferRow(data[j].record).value
  {
    seq(|data|, j requires 0 <= j < |data| => env.toBufferRow(data[j].record).value)
  }

  /**
   * A batch whose records all commit writes their rows in batch order (as `upsert_many` would),
   * and leaves both the loop's cursor and the stored cursor at the last record's cursor.
   */
  lemma {:induction false} ProcessRecordsCommitsInOrder(s: PullState, cursor: nat, data: seq<CentralSyncRecord>, env: PullEnvironment)
    requires ValidState(s)
    requires data != []
    requires forall j :: 0 <= j < |data| ==> env.toBufferRow(data[j].record).Ok? && Commits(data[j], env)
    ensures var o := ProcessRecords(s, cursor, data, env);
      && o.error.None?
      && o.cursor == data[|data| - 1].cursor
      && o.state.stored == Some(U64AsI32(data[|data| - 1].cursor))
      && o.state.buffer == UpsertAll(s.buffer, ConvertedRows(data, env), env.bufferFault).1
    decreases |data|
  {
    var row := env.toBufferRow(data[0].record).value;
    var next := PullState(Upserted(s.buffer, row), Some(U64AsI32(data[0].cursor)));
    var rows := ConvertedRows(data, env);
    assert rows[0] == row;
    if |data| == 1 {
      assert rows[1..] == [];
    } else {
      var rest := data[1..];
      assert forall j :: 0 <= j < |rest| ==> rest[j] == data[j + 1];
      ProcessRecordsCommitsInOrder(next, data[0].cursor, rest, env);
      assert ConvertedRows(rest, env) == rows[1..];
    }
  }

  /**
   * The first record `k` that fails to convert or to be written ends the batch with its error,
   * and the database then holds exactly what the records before it wrote.
   */
  lemma {:induction false} ProcessRecordsStopsAtFirstFailure(s: PullState, cursor: nat, data: seq<CentralSyncRecord>, env: PullEnvironment, k: nat)
    requires ValidState(s)
    requires k < |data| && !Commits(data[k], env)
    requires forall j :: 0 <= j < k ==> Commits(data[j], env)
    ensures var o := ProcessRecords(s, cursor, data, env);
      && o.state == ProcessRecords(s, cursor, data[..k], env).state
      && o.error == Some(
           if env.toBufferRow(data[k].record).Err? then ParsingV5RecordError(env.toBufferRow(data[k].record).error)
           else SaveSyncBufferOrCursorsError(TransactionFault(env.toBufferRow(data[k].record).value, data[k].cursor, env).value))
    decreases k
  {
    if k > 0 {
      var row := env.toBufferRow(data[0].record).value;
      var next := PullState(Upserted(s.buffer, row), Some(U64AsI32(data[0].cursor)));
      assert data[..k][0] == data[0];
      assert data[..k][1..] == data[1..][..k - 1];
      ProcessRecordsStopsAtFirstFailure(next, data[0].cursor, data[1..], env, k - 1);
    }
  }

  datatype RoundOutcome = Break | Continue | Failed(error: CentralSyncError)

  /**
   * The cursor the `round`-th pass of the loop starts from: the stored cursor, read under that
   * round's read fault.
   */
  function RoundCursor(s: PullState, round: nat, env: PullEnvironment): nat
    requires ValidState(s)
  {
    StartCursor(s.stored, env.readFault(round))
  }

  /** The central server's answer to the `round`-th request. */
  function RoundResponse(s: PullState, round: nat, batchSize: nat, env: PullEnvironment): Result<CentralSyncBatch, SyncApiError>
    requires ValidState(s)
  {
    env.getCentralRecords(round, RoundCursor(s, round, env), batchSize)
  }

  /**
   * The `round`-th pass of the `loop` body, from reading the cursor to the final `match`: fetch a
   * batch, report progress, store the records, report progress again, then decide.
   */
  function Round(s: PullState, round: nat, batchSize: nat, env: PullEnvironment): (r: (RoundOutcome, PullState))
    requires ValidState(s)
    ensures ValidState(r.1)
  {
    var cursor := RoundCursor(s, round, env);
    var response := env.getCentralRecords(round, cursor, batchSize);
    if response.Err? then (Failed(PullError(response.error)), s)
    else
      var batch := response.value;
      var before := env.progressFault(round, BeforeRecords, Remaining(batch, cursor));
      if before.Some? then (Failed(SyncLoggerError(before.value)), s)
      else
        var o := ProcessRecords(s, cursor, batch.data, env);
        if o.error.Some? then (Failed(o.error.value), o.state)
        else
          var after := env.progressFault(round, AfterRecords, Remaining(batch, o.cursor));
          if after.Some? then (Failed(SyncLoggerError(after.value)), o.state)
          else if |batch.data| == 0 && !(o.cursor < batch.maxCursor) then (Break, o.state)
          else if |batch.data| == 0 then
            var written := env.cursorFault(o.cursor + 1);
            if written.Some? then (Failed(SaveSyncBufferOrCursorsError(written.value)), o.state)
            else (Continue, o.state.(stored := Some(U64AsI32(o.cursor + 1))))
          else (Continue, o.state)
  }

  /** An API failure ends the pull with `PullError` and writes nothing. */
  lemma RoundApiFailureWritesNothing(s: PullState, round: nat, batchSize: nat, env: PullEnvironment)
    requires ValidState(s)
    requires RoundResponse(s, round, batchSize, env).Err?
    ensures Round(s, round, batchSize, env) == (Failed(PullError(RoundResponse(s, round, batchSize, env).error)), s)
  {
  }

  /** A logger failure before the records ends the pull with `SyncLoggerError` and writes nothing. */
  lemma RoundLoggerFailureBeforeRecordsWritesNothing(s: PullState, round: nat, batchSize: nat, env: PullEnvironment)
    requires ValidState(s)
    requires var response := RoundResponse(s, round, batchSize, env);
      response.Ok? && env.progressFault(round, BeforeRecords, Remaining(response.value, RoundCursor(s, round, env))).Some?
    ensures var batch := RoundResponse(s, round, batchSize, env).value;
      Round(s, round, batchSize, env)
        == (Failed(SyncLoggerError(env.progressFault(round, BeforeRecords, Remaining(batch, RoundCursor(s, round, env))).value)), s)
  {
  }

  /**
   * A logger failure after a batch whose records all commit ends the pull with `SyncLoggerError`,
   * but the records and the cursor already written stay written.
   */
  lemma RoundLoggerFailureAfterRecordsKeepsThem(s: PullState, round: nat, batchSize: nat, env: PullEnvironment)
    requires ValidState(s)
    requires var cursor := RoundCursor(s, round, env);
      var response := RoundResponse(s, round, batchSize, env);
      && response.Ok? && response.value.data != []
      && env.progressFault(round, BeforeRecords, Remaining(response.value, cursor)).None?
      && (forall j :: 0 <= j < |response.value.data| ==> env.toBufferRow(response.value.data[j].record).Ok? && Commits(response.value.data[j], env))
      && env.progressFault(round, AfterRecords, Remaining(response.value, response.value.data[|response.value.data| - 1].cursor)).Some?
    ensures var batch := RoundResponse(s, round, batchSize, env).value;
      var last := batch.data[|batch.data| - 1].cursor;
      var r := Round(s, round, batchSize, env);
      && r.0 == Failed(SyncLoggerError(env.progressFault(round, AfterRecords, Remaining(batch, last)).value))
      && r.1.buffer == UpsertAll(s.buffer, ConvertedRows(batch.data, env), env.bufferFault).1
      && r.1.stored == Some(U64AsI32(last))
  {
    ProcessRecordsCommitsInOrder(s, RoundCursor(s, round, env), RoundResponse(s, round, batchSize, env).value.data, env);
  }

  /**
   * The loop ends normally exactly when a batch is empty, the cursor has reached `max_cursor`,
   * and the logger records both progress reports (of the same count, as no record moved the
   * cursor).
   */
  lemma RoundBreaksExactlyWhenCaughtUp(s: PullState, round: nat, batchSize: nat, env: PullEnvironment)
    requires ValidState(s)
    ensures var cursor := RoundCursor(s, round, env);
      var response := RoundResponse(s, round, batchSize, env);
      (Round(s, round, batchSize, env).0 == Break <==>
         && response.Ok? && response.value.data == [] && cursor >= response.value.maxCursor
         && env.progressFault(round, BeforeRecords, Remaining(response.value, cursor)).None?
         && env.progressFault(round, AfterRecords, Remaining(response.value, cursor)).None?)
  {
  }

  /**
   * Once the stored cursor is past `max_cursor`, the progress count `max_cursor - cursor` wraps
   * round in a release build (a debug build would panic there).
   */
  lemma RemainingWrapsPastMaxCursor(batch: CentralSyncBatch, cursor: nat)
    requires batch.maxCursor < cursor < U64Modulus
    ensures Remaining(batch, cursor) == U64Modulus - (cursor - batch.maxCursor)
    ensures Remaining(batch, cursor) >= U64Modulus - cursor
  {
  }

  /** A non-empty batch whose records all commit, with both progress reports recorded, goes round the loop again. */
  lemma RoundContinuesAfterNonEmptyBatch(s: PullState, round: nat, batchSize: nat, env: PullEnvironment)
    requires ValidState(s)
    requires var cursor := RoundCursor(s, round, env);
      var response := RoundResponse(s, round, batchSize, env);
      && response.Ok? && response.value.data != []
      && env.progressFault(round, BeforeRecords, Remaining(response.value, cursor)).None?
      && (forall j :: 0 <= j < |response.value.data| ==> Commits(response.value.data[j], env))
      && env.progressFault(round, AfterRecords, Remaining(response.value, response.value.data[|response.value.data| - 1].cursor)).None?
    ensures Round(s, round, batchSize, env).0 == Continue
  {
    ProcessRecordsCommitsInOrder(s, RoundCursor(s, round, env), RoundResponse(s, round, batchSize, env).value.data, env);
  }

  /**
   * An empty batch behind `max_cursor`, with both progress reports recorded, stores cursor + 1,
   * so (while the cursor fits in an i32 and the store can be read and written) the next pass
   * starts strictly further on.
   */
  lemma RoundAdvancesPastEmptyBatch(s: PullState, round: nat, batchSize: nat, env: PullEnvironment)
    requires ValidState(s) && env.readFault(round).None?
    requires var cursor := RoundCursor(s, round, env);
      var response := RoundResponse(s, round, batchSize, env);
      && response.Ok? && response.value.data == [] && cursor < response.value.maxCursor && cursor < I32Max
      && env.progressFault(round, BeforeRecords, Remaining(response.value, cursor)).None?
      && env.progressFault(round, AfterRecords, Remaining(response.value, cursor)).None?
      && env.cursorFault(cursor + 1).None?
    ensures var r := Round(s, round, batchSize, env);
      && r.0 == Continue
      && r.1.buffer == s.buffer
      && StartCursor(r.1.stored, None) == StartCursor(s.stored, None) + 1
  {
  }

  /**
   * After an empty batch, the second progress report can fail although the first, of the same
   * count, was recorded: the pull then ends with `SyncLoggerError` and nothing is written.
   */
  lemma RoundEmptyBatchSecondReportFailure(s: PullState, round: nat, batchSize: nat, env: PullEnvironment)
    requires ValidState(s)
    requires var cursor := RoundCursor(s, round, env);
      var response := RoundResponse(s, round, batchSize, env);
      && response.Ok? && response.value.data == []
      && env.progressFault(round, BeforeRecords, Remaining(response.value, cursor)).None?
      && env.progressFault(round, AfterRecords, Remaining(response.value, cursor)).Some?
    ensures var batch := RoundResponse(s, round, batchSize, env).value;
      Round(s, round, batchSize, env)
        == (Failed(SyncLoggerError(env.progressFault(round, AfterRecords, Remaining(batch, RoundCursor(s, round, env))).value)), s)
  {
  }

  /**
   * When storing cursor + 1 after an empty batch behind `max_cursor` fails, with both progress
   * reports recorded, the pull ends with `SaveSyncBufferOrCursorsError` and nothing is written.
   */
  lemma RoundEmptyBatchCursorWriteFailure(s: PullState, round: nat, batchSize: nat, env: PullEnvironment)
    requires ValidState(s)
    requires var cursor := RoundCursor(s, round, env);
      var response := RoundResponse(s, round, batchSize, env);
      && response.Ok? && response.value.data == [] && cursor < response.value.maxCursor
      && env.progressFault(round, BeforeRecords, Remaining(response.value, cursor)).None?
      && env.progressFault(round, AfterRecords, Remaining(response.value, cursor)).None?
      && env.cursorFault(cursor + 1).Some?
    ensures Round(s, round, batchSize, env)
         == (Failed(SaveSyncBufferOrCursorsError(env.cursorFault(RoundCursor(s, round, env) + 1).value)), s)
  {
  }

  datatype PullOutcome = Finished | Stopped(error: CentralSyncError) | OutOfFuel

  /**
   * The whole pull from its `round`-th iteration on: rounds until one breaks or fails, each
   * reading the cursor afresh. The source's loop has no bound (it carries a TODO about
   * infinite-loop protection); `fuel` bounds the number of rounds here.
   */
  function PullRounds(s: PullState, round: nat, batchSize: nat, env: PullEnvironment, fuel: nat): (r: (PullOutcome, PullState))
    requires ValidState(s)
    ensures ValidState(r.1)
    decreases fuel
  {
    if fuel == 0 then (OutOfFuel, s)
    else
      var (o, next) := Round(s, round, batchSize, env);
      match o
      case Break => (Finished, next)
      case Failed(e) => (Stopped(e), next)
      case Continue => PullRounds(next, round + 1, batchSize, env, fuel - 1)
  }

  /**
   * One step of the pull: a break finishes it and a failure stops it with the round's state; a
   * round that continues hands its state to the next round, with one round less of fuel.
   */
  lemma PullRoundsAfterRound(s: PullState, round: nat, batchSize: nat, env: PullEnvironment, fuel: nat, o: RoundOutcome, next: PullState)
    requires ValidState(s) && fuel > 0
    requires (o, next) == Round(s, round, batchSize, env)
    ensures ValidState(next)
    ensures PullRounds(s, round, batchSize, env, fuel)
        == match o
           case Break => (Finished, next)
           case Failed(e) => (Stopped(e), next)
           case Continue => PullRounds(next, round + 1, batchSize, env, fuel - 1)
  {
  }

  class CentralDataSynchroniser {
    const env: PullEnvironment

    constructor (env: PullEnvironment)
      ensures this.env == env
    {
      this.env := env;
    }

    /**
     * `insert_one_and_update_cursor`: the buffer row and the cursor in one transaction. Either
     * write can fail; a failed cursor write rolls the upsert back, so a failure leaves both
     * untouched.
     */
    method InsertOneAndUpdateCursor(buffer: SyncBufferTable, pullCursor: PullCursor, row: SyncBufferRow, cursor: nat)
      returns (r: Result<(), RepositoryError>)
      requires buffer.Valid() && pullCursor.Valid()
      modifies buffer, pullCursor
      ensures buffer.Valid() && pullCursor.Valid()
      ensures r == if TransactionFault(row, cursor, env).Some? then Err(TransactionFault(row, cursor, env).value) else Ok(())
      ensures r.Ok? ==> buffer.rows == Upserted(old(buffer.rows), row) && pullCursor.stored == Some(U64AsI32(cursor))
      ensures r.Err? ==> buffer.rows == old(buffer.rows) && pullCursor.stored == old(pullCursor.stored)
    {
      var before := buffer.rows;
      r := buffer.UpsertOne(row, env.bufferFault);
      if r.Ok? {
        r := pullCursor.UpdateCursor(cursor, env.cursorFault);
        if r.Err? {
          // the transaction is rolled back
          buffer.rows := before;
        }
      }
    }

    /** The `for` loop of `pull` over one batch's records. */
    method StoreBatch(buffer: SyncBufferTable, pullCursor: PullCursor, cursor: nat, data: seq<CentralSyncRecord>)
      returns (last: nat, error: Option<CentralSyncError>)
      requires buffer.Valid() && pullCursor.Valid()
      modifies buffer, pullCursor
      ensures buffer.Valid() && pullCursor.Valid()
      ensures RecordsOutcome(PullState(buffer.rows, pullCursor.stored), last, error)
           == ProcessRecords(PullState(old(buffer.rows), old(pullCursor.stored)), cursor, data, env)
    {
      last := cursor;
      var i := 0;
      while i < |data|
        invariant 0 <= i <= |data|
        invariant buffer.Valid() && pullCursor.Valid()
        invariant ProcessRecords(PullState(buffer.rows, pullCursor.stored), last, data[i..], env)
               == ProcessRecords(PullState(old(buffer.rows), old(pullCursor.stored)), cursor, data, env)
        decreases |data| - i
      {
        assert data[i..][0] == data[i] && data[i..][1..] == data[i + 1..];
        last := data[i].cursor;
        var converted := env.toBufferRow(data[i].record);
        if converted.Err? {
          return last, Some(ParsingV5RecordError(converted.error));
        }
        var saved := InsertOneAndUpdateCursor(buffer, pullCursor, converted.value, last);
        if saved.Err? {
          return last, Some(SaveSyncBufferOrCursorsError(saved.error));
        }
        i := i + 1;
      }
      error := None;
    }

    /** One pass of `pull`'s loop body: read the cursor, fetch a batch, log, store it, log, and decide. */
    method RunRound(buffer: SyncBufferTable, pullCursor: PullCursor, batchSize: nat, round: nat) returns (outcome: RoundOutcome)
      requires buffer.Valid() && pullCursor.Valid()
      modifies buffer, pullCursor
      ensures buffer.Valid() && pullCursor.Valid()
      ensures (outcome, PullState(buffer.rows, pullCursor.stored))
           == Round(PullState(old(buffer.rows), old(pullCursor.stored)), round, batchSize, env)
    {
      var read := pullCursor.GetCursor(env.readFault(round));
      var cursor: nat := if read.Ok? then read.value else 0;
      var response := env.getCentralRecords(round, cursor, batchSize);
      if response.Err? {
        return Failed(PullError(response.error));
      }
      var batch := response.value;
      var batchLength := |batch.data|;
      var logged := env.progressFault(round, BeforeRecords, Remaining(batch, cursor));
      if logged.Some? {
        return Failed(SyncLoggerError(logged.value));
      }
      var error;
      cursor, error := StoreBatch(buffer, pullCursor, cursor, batch.data);
      if error.Some? {
        return Failed(error.value);
      }
      logged := env.progressFault(round, AfterRecords, Remaining(batch, cursor));
      if logged.Some? {
        return Failed(SyncLoggerError(logged.value));
      }
      if batchLength == 0 && !(cursor < batch.maxCursor) {
        return Break;
      } else if batchLength == 0 {
        var written := pullCursor.UpdateCursor(cursor + 1, env.cursorFault);
        if written.Err? {
          return Failed(SaveSyncBufferOrCursorsError(written.error));
        }
      }
      outcome := Continue;
    }

    /** One pass of `pull`'s loop, stated as the step it takes in `PullRounds`. */
    method PullStep(buffer: SyncBufferTable, pullCursor: PullCursor, batchSize: nat, round: nat, ghost fuel: nat) returns (o: RoundOutcome)
      requires buffer.Valid() && pullCursor.Valid() && fuel > 0
      modifies buffer, pullCursor
      ensures buffer.Valid() && pullCursor.Valid()
      ensures PullRounds(PullState(old(buffer.rows), old(pullCursor.stored)), round, batchSize, env, fuel)
           == match o
              case Break => (Finished, PullState(buffer.rows, pullCursor.stored))
              case Failed(e) => (Stopped(e), PullState(buffer.rows, pullCursor.stored))
              case Continue => PullRounds(PullState(buffer.rows, pullCursor.stored), round + 1, batchSize, env, fuel - 1)
    {
      ghost var before := PullState(buffer.rows, pullCursor.stored);
      o := RunRound(buffer, pullCursor, batchSize, round);
      PullRoundsAfterRound(before, round, batchSize, env, fuel, o, PullState(buffer.rows, pullCursor.stored));
    }

    /** `pull`, with at most `fuel` passes of its loop. */
    method Pull(buffer: SyncBufferTable, pullCursor: PullCursor, batchSize: nat, fuel: nat) returns (outcome: PullOutcome)
      requires buffer.Valid() && pullCursor.Valid()
      modifies buffer, pullCursor
      ensures buffer.Valid() && pullCursor.Valid()
      ensures (outcome, PullState(buffer.rows, pullCursor.stored))
           == PullRounds(PullState(old(buffer.rows), old(pullCursor.stored)), 0, batchSize, env, fuel)
    {
      ghost var goal := PullRounds(PullState(old(buffer.rows), old(pullCursor.stored)), 0, batchSize, env, fuel);
      var round := 0;
      while round < fuel
        invariant round <= fuel
        invariant buffer.Valid() && pullCursor.Valid()
        invariant PullRounds(PullState(buffer.rows, pullCursor.stored), round, batchSize, env, fuel - round) == goal
        decreases fuel - round
      {
        var o := PullStep(buffer, pullCursor, batchSize, round, fuel - round);
        match o
        case Break =>
          return Finished;
        case Failed(e) =>
          return Stopped(e);
        case Continue =>
          round := round + 1;
      }
      outcome := OutOfFuel;
    }
  }
}
