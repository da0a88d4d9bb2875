/**
 * The sync buffer table: records received from a sync source wait here, keyed by record id,
 * until integration. Rows are stored by `upsert_one` (replace on the same record id),
 * `upsert_many` (one `upsert_one` per row, stopping at the first failure, no transaction) and
 * read back through a filtered query.
 */
module SyncBuffer {
  import opened Wrappers
  import opened Repository

  datatype SyncBufferAction = Upsert | Delete | Merge

  datatype SyncBufferRow = SyncBufferRow(
    recordId: string,
    receivedDatetime: int,
    integrationDatetime: Option<int>,
    integrationError: Option<string>,
    tableName: string,
    action: SyncBufferAction,
    data: string)

  /** `Defaults::naive_date_time()`: one fixed timestamp; its value does not matter here. */
  const DefaultDatetime: int := 0

  /** `SyncBufferRow::default()`: empty strings, nothing integrated yet, action `Upsert`. */
  function DefaultRow(): (r: SyncBufferRow)
    ensures r.action == Upsert
    ensures r.integrationDatetime.None? && r.integrationError.None?
    ensures r.recordId == "" && r.tableName == "" && r.data == ""
  {
    SyncBufferRow("", DefaultDatetime, None, None, "", Upsert, "")
  }

  /** `SyncBufferAction::equal_to`: a filter with only its `equal_to` field set. */
  function ActionEqualTo(a: SyncBufferAction): (f: EqualFilter<SyncBufferAction>)
    ensures forall v :: MatchesEqual(f, v) <==> v == Some(a)
  {
    EqualTo(a)
  }

  datatype SyncBufferFilter = SyncBufferFilter(
    integrationDatetime: Option<DatetimeFilter>,
    integrationError: Option<EqualFilter<string>>,
    action: Option<EqualFilter<SyncBufferAction>>,
    tableName: Option<EqualFilter<string>>)
  {
    /** Each builder sets one condition: a row then passes exactly when it passes the rest and that one. */
    function WithIntegrationDatetime(f: DatetimeFilter): (r: SyncBufferFilter)
      ensures forall row :: Matches(r, row) <==>
        Matches(this.(integrationDatetime := None), row) && MatchesDatetime(f, row.integrationDatetime)
    {
      this.(integrationDatetime := Some(f))
    }

    function WithIntegrationError(f: EqualFilter<string>): (r: SyncBufferFilter)
      ensures forall row :: Matches(r, row) <==>
        Matches(this.(integrationError := None), row) && MatchesEqual(f, row.integrationError)
    {
      this.(integrationError := Some(f))
    }

    function WithTableName(f: EqualFilter<string>): (r: SyncBufferFilter)
      ensures forall row :: Matches(r, row) <==>
        Matches(this.(tableName := None), row) && MatchesEqual(f, Some(row.tableName))
    {
      this.(tableName := Some(f))
    }

    function WithAction(f: EqualFilter<SyncBufferAction>): (r: SyncBufferFilter)
      ensures forall row :: Matches(r, row) <==>
        Matches(this.(action := None), row) && MatchesEqual(f, Some(row.action))
    {
      this.(action := Some(f))
    }
  }

  /** `SyncBufferFilter::new()`: no condition set, so every row passes. */
  function NewFilter(): (r: SyncBufferFilter)
    ensures forall row :: Matches(r, row)
  {
    SyncBufferFilter(None, None, None, None)
  }

  /** A row passes a filter when it passes every condition that is set. */
  predicate Matches(f: SyncBufferFilter, row: SyncBufferRow)
  {
    && (f.integrationDatetime.Some? ==> MatchesDatetime(f.integrationDatetime.value, row.integrationDatetime))
    && (f.integrationError.Some? ==> MatchesEqual(f.integrationError.value, row.integrationError))
    && (f.action.Some? ==> MatchesEqual(f.action.value, Some(row.action)))
    && (f.tableName.Some? ==> MatchesEqual(f.tableName.value, Some(row.tableName)))
  }

  type Table = map<string, SyncBufferRow>

  /** The table's primary key is `record_id`. */
  predicate KeyedById(table: Table)
  {
    forall id :: id in table ==> table[id].recordId == id
  }

  /**
   * The rows a query loads. A set, because the query has no ORDER BY: which rows come back is
   * defined, their order is not.
   */
  function Selected(table: Table, filter: Option<SyncBufferFilter>): set<SyncBufferRow>
  {
    set id | id in table && (filter.None? || Matches(filter.value, table[id])) :: table[id]
  }

  /** One `upsert_one` that the database accepts: the row replaces any row with its record id. */
  function Upserted(table: Table, row: SyncBufferRow): (t: Table)
    ensures KeyedById(table) ==> KeyedById(t)
    ensures row.recordId in t && t[row.recordId] == row
    ensures forall id :: id != row.recordId ==> (id in t <==> id in table)
    ensures forall id :: id in table && id != row.recordId ==> t[id] == table[id]
  {
    table[row.recordId := row]
  }

  /**
   * `upsert_many`: rows are written front to back; the first write the database refuses ends the
   * call with its error and the rows before it stay written. `fault` says which write the
   * database would refuse and with which error.
   */
  function UpsertAll(table: Table, rows: seq<SyncBufferRow>, fault: SyncBufferRow -> Option<RepositoryError>)
    : (Result<(), RepositoryError>, Table)
    decreases |rows|
  {
    if rows == [] then (Ok(()), table)
    else if fault(rows[0]).Some? then (Err(fault(rows[0]).value), table)
    else UpsertAll(Upserted(table, rows[0]), rows[1..], fault)
  }

  /** `upsert_many` succeeds exactly when the database accepts every row. */
  lemma {:induction false} UpsertAllSucceedsIff(table: Table, rows: seq<SyncBufferRow>, fault: SyncBufferRow -> Option<RepositoryError>)
    ensures UpsertAll(table, rows, fault).0.Ok? <==> forall j :: 0 <= j < |rows| ==> fault(rows[j]).None?
    decreases |rows|
  {
    if rows != [] {
      UpsertAllSucceedsIff(Upserted(table, rows[0]), rows[1..], fault);
      assert forall j :: 1 <= j < |rows| ==> rows[j] == rows[1..][j - 1];
    }
  }

  /**
   * `upsert_many` stops at its first refused row `k`: it reports that row's error, and the table
   * holds exactly the writes of the rows before `k`.
   */
  lemma {:induction false} UpsertAllStopsAtFirstFault(table: Table, rows: seq<SyncBufferRow>, fault: SyncBufferRow -> Option<RepositoryError>, k: nat)
    requires k < |rows| && fault(rows[k]).Some?
    requires forall j :: 0 <= j < k ==> fault(rows[j]).None?
    ensures UpsertAll(table, rows, fault).0 == Err(fault(rows[k]).value)
    ensures UpsertAll(table, rows, fault).1 == UpsertAll(table, rows[..k], fault).1
    ensures UpsertAll(table, rows[..k], fault).0.Ok?
    decreases k
  {
    if k > 0 {
      assert rows[..k][0] == rows[0];
      assert rows[..k][1..] == rows[1..][..k - 1];
      UpsertAllStopsAtFirstFault(Upserted(table, rows[0]), rows[1..], fault, k - 1);
    }
  }

  /**
   * When every write is accepted, each record id written ends up holding the LAST row written
   * with that id.
   */
  lemma {:induction false} UpsertAllLastWriteWins(table: Table, rows: seq<SyncBufferRow>, fault: SyncBufferRow -> Option<RepositoryError>, j: nat)
    requires forall i :: 0 <= i < |rows| ==> fault(rows[i]).None?
    requires j < |rows|
    requires forall j' :: j < j' < |rows| ==> rows[j'].recordId != rows[j].recordId
    ensures rows[j].recordId in UpsertAll(table, rows, fault).1
    ensures UpsertAll(table, rows, fault).1[rows[j].recordId] == rows[j]
    decreases |rows|
  {
    var rest := rows[1..];
    if j == 0 {
      UpsertAllKeepsUntouched(Upserted(table, rows[0]), rest, fault, rows[0].recordId);
    } else {
      assert forall i :: 0 <= i < |rest| ==> rest[i] == rows[i + 1];
      UpsertAllLastWriteWins(Upserted(table, rows[0]), rest, fault, j - 1);
    }
  }

  /** A record id that no accepted write names keeps its stored row. */
  lemma {:induction false} UpsertAllKeepsUntouched(table: Table, rows: seq<SyncBufferRow>, fault: SyncBufferRow -> Option<RepositoryError>, id: string)
    requires id in table
    requires forall i :: 0 <= i < |rows| ==> rows[i].recordId != id
    ensures id in UpsertAll(table, rows, fault).1
    ensures UpsertAll(table, rows, fault).1[id] == table[id]
    decreases |rows|
  {
    if rows != [] && fault(rows[0]).None? {
      var rest := rows[1..];
      assert forall i :: 0 <= i < |rest| ==> rest[i] == rows[i + 1];
      UpsertAllKeepsUntouched(Upserted(table, rows[0]), rest, fault, id);
    }
  }

  /** The sync buffer table, as the two repositories over it see it. */
  class SyncBufferTable {
    var rows: Table

    ghost predicate Valid()
      reads this
    {
      KeyedById(rows)
    }

    constructor ()
      ensures Valid() && rows == map[]
    {
      rows := map[];
    }

    /** `upsert_one`: replace-or-insert by record id, unless the database refuses the write. */
    method UpsertOne(row: SyncBufferRow, fault: SyncBufferRow -> Option<RepositoryError>) returns (r: Result<(), RepositoryError>)
      requires Valid()
      modifies this
      ensures Valid()
      ensures r == if fault(row).Some? then Err(fault(row).value) else Ok(())
      ensures rows == if r.Ok? then Upserted(old(rows), row) else old(rows)
    {
      if fault(row).Some? {
        return Err(fault(row).value);
      }
      rows := Upserted(rows, row);
      r := Ok(());
    }

    /** `upsert_many`: the `for` loop of `upsert_one` calls with `?`. */
    method UpsertMany(input: seq<SyncBufferRow>, fault: SyncBufferRow -> Option<RepositoryError>) returns (r: Result<(), RepositoryError>)
      requires Valid()
      modifies this
      ensures Valid()
      ensures (r, rows) == UpsertAll(old(rows), input, fault)
    {
      var i := 0;
      while i < |input|
        invariant 0 <= i <= |input|
        invariant Valid()
        invariant UpsertAll(rows, input[i..], fault) == UpsertAll(old(rows), input, fault)
      {
        assert input[i..][0] == input[i] && input[i..][1..] == input[i + 1..];
        var one := UpsertOne(input[i], fault);
        if one.Err? {
          return one;
        }
        i := i + 1;
      }
      r := Ok(());
    }

    /** `remove_all`: empties the table. */
    method RemoveAll()
      requires Valid()
      modifies this
      ensures Valid() && rows == map[]
    {
      rows := map[];
    }

    /**
     * `query` through `create_filtered_query`: start from the whole table and narrow it by each
     * condition the filter sets, in the order the source applies them.
     */
    method Query(filter: Option<SyncBufferFilter>) returns (result: set<SyncBufferRow>)
      requires Valid()
      ensures result == Selected(rows, filter)
    {
      var ids := set id | id in rows;
      if filter.Some? {
        var f := filter.value;
        if f.integrationDatetime.Some? {
          ids := set id | id in ids && MatchesDatetime(f.integrationDatetime.value, rows[id].integrationDatetime);
        }
        if f.integrationError.Some? {
          ids := set id | id in ids && MatchesEqual(f.integrationError.value, rows[id].integrationError);
        }
        if f.action.Some? {
          ids := set id | id in ids && MatchesEqual(f.action.value, Some(rows[id].action));
        }
        if f.tableName.Some? {
          ids := set id | id in ids && MatchesEqual(f.tableName.value, Some(rows[id].tableName));
        }
        assert forall id :: id in ids <==> id in rows && Matches(f, rows[id]);
      }
      result := set id | id in ids :: rows[id];
      assert forall id :: id in ids <==> id in rows && (filter.None? || Matches(filter.value, rows[id]));
    }
  }

  function RowA(): SyncBufferRow
  {
    DefaultRow().(recordId := "store_a", integrationDatetime := Some(DefaultDatetime), action := Upsert)
  }

  function RowB(): SyncBufferRow
  {
    DefaultRow().(recordId := "store_b", integrationError := Some("error"), action := Delete)
  }

  function RowC(): SyncBufferRow
  {
    DefaultRow().(recordId := "store_c", action := Upsert)
  }

  /**
   * The repository's own test: of rows a (integrated), b (failed, a delete) and c (neither),
   * "not integrated and no error" selects only c, and "action is Delete" selects only b.
   */
  lemma SyncBufferQueryExamples()
    ensures var table := map[RowA().recordId := RowA(), RowB().recordId := RowB(), RowC().recordId := RowC()];
      && Selected(table, Some(NewFilter().WithIntegrationDatetime(DatetimeIsNull(true)).WithIntegrationError(IsNull(true)))) == {RowC()}
      && Selected(table, Some(NewFilter().WithAction(ActionEqualTo(Delete)))) == {RowB()}
  {
    var table := map[RowA().recordId := RowA(), RowB().recordId := RowB(), RowC().recordId := RowC()];
    var f1 := NewFilter().WithIntegrationDatetime(DatetimeIsNull(true)).WithIntegrationError(IsNull(true));
    var f2 := NewFilter().WithAction(ActionEqualTo(Delete));
    assert table.Keys == {"store_a", "store_b", "store_c"};
    assert table["store_c"] in Selected(table, Some(f1));
    assert table["store_b"] in Selected(table, Some(f2));
  }
}
