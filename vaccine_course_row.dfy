/** The `vaccine_course` table and its row repository: upsert by id, find all, find by id, delete. */
module VaccineCourseRow {
  import opened Wrappers

  /** A vaccine course. The f64 rates are reals here; rounding is not modelled. */
  datatype VaccineCourseRow = VaccineCourseRow(
    id: string,
    name: string,
    programId: string,
    demographicIndicatorId: string,
    coverageRate: real,
    isActive: bool,
    wastageRate: real,
    doses: int)

  type Table = map<string, VaccineCourseRow>

  /** `id` is the table's primary key. */
  predicate KeyedById(t: Table)
  {
    forall k :: k in t ==> t[k].id == k
  }

  /** `find_one_by_id`: the row with that id, or None (an absent id is not an error). */
  function FindOneById(t: Table, id: string): (r: Option<VaccineCourseRow>)
    requires KeyedById(t)
    ensures r.Some? <==> id in t
    ensures r.Some? ==> r.value.id == id && r.value == t[id]
  {
    if id in t then Some(t[id]) else None
  }

  /** `find_all`: every stored row. A set, as the query has no ORDER BY. */
  function FindAll(t: Table): (r: set<VaccineCourseRow>)
    requires KeyedById(t)
    ensures forall row :: row in r <==> FindOneById(t, row.id) == Some(row)
  {
    set k | k in t :: t[k]
  }

  /** After `upsert_one(row)` the row is found under its id, and every other id is unaffected. */
  lemma UpsertThenFind(t: Table, row: VaccineCourseRow, other: string)
    requires KeyedById(t)
    ensures KeyedById(t[row.id := row])
    ensures FindOneById(t[row.id := row], row.id) == Some(row)
    ensures other != row.id ==> FindOneById(t[row.id := row], other) == FindOneById(t, other)
  {
  }

  /** Upserting an existing id replaces its row: the table does not grow, ids stay unique. */
  lemma UpsertExistingReplaces(t: Table, row: VaccineCourseRow)
    requires KeyedById(t) && row.id in t
    ensures t[row.id := row].Keys == t.Keys
    ensures FindAll(t[row.id := row]) == FindAll(t) - {t[row.id]} + {row}
  {
    var t' := t[row.id := row];
    forall r | r in FindAll(t') ensures r in FindAll(t) - {t[row.id]} + {row} {
      if r != row {
        assert r.id != row.id;
      }
    }
    forall r | r in FindAll(t) - {t[row.id]} + {row} ensures r in FindAll(t') {
      if r != row {
        assert r.id != row.id;
      }
    }
  }

  /** After `delete(id)` that id is gone and every other id is unaffected. */
  lemma DeleteThenFind(t: Table, id: string, other: string)
    requires KeyedById(t)
    ensures KeyedById(t - {id})
    ensures FindOneById(t - {id}, id) == None
    ensures other != id ==> FindOneById(t - {id}, other) == FindOneById(t, other)
  {
  }

  class VaccineCourseRowRepository {
    var rows: Table

    ghost predicate Valid()
      reads this
    {
      KeyedById(rows)
    }

    constructor ()
      ensures Valid() && rows == map[]
    {
      rows := map[];
    }

    /** `upsert_one` (insert-or-update on postgres, replace on sqlite): the row is stored under its id. */
    method UpsertOne(row: VaccineCourseRow)
      requires Valid()
      modifies this
      ensures Valid() && rows == old(rows)[row.id := row]
      ensures FindOneById(rows, row.id) == Some(row)
    {
      rows := rows[row.id := row];
    }

    /** `delete`: removes the row with that id, if any. */
    method Delete(id: string)
      requires Valid()
      modifies this
      ensures Valid() && rows == old(rows) - {id}
      ensures FindOneById(rows, id) == None
    {
      rows := rows - {id};
    }
  }
}
