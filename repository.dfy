/**
 * The repository layer's shared vocabulary: its error type and the generic column filters
 * (`EqualFilter`, `DatetimeFilter`) that every filtered query applies conjunctively.
 * The filters' definitions and the `apply_equal_filter!` / `apply_date_time_filter!` macros are
 * not part of this model; each filter field carries its SQL meaning, and a column that may be
 * NULL is an `Option`.
 */
module Repository {
  import opened Wrappers

  datatype RepositoryError =
    | NotFound
    | DBError(msg: string, extra: string)

  datatype EqualFilter<T> = EqualFilter(
    equalTo: Option<T>,
    notEqualTo: Option<T>,
    equalAny: Option<seq<T>>,
    equalAnyOrNull: Option<seq<T>>,
    notEqualAll: Option<seq<T>>,
    isNull: Option<bool>)

  function NoEqualFilter<T>(): EqualFilter<T>
  {
    EqualFilter(None, None, None, None, None, None)
  }

  /** `EqualFilter::equal_to(v)`: only the `equal_to` field set. */
  function EqualTo<T(==,!new)>(v: T): (f: EqualFilter<T>)
    ensures forall x :: MatchesEqual(f, x) <==> x == Some(v)
  {
    NoEqualFilter().(equalTo := Some(v))
  }

  function NotEqualTo<T(==,!new)>(v: T): (f: EqualFilter<T>)
    ensures forall x :: MatchesEqual(f, x) <==> x.Some? && x.value != v
  {
    NoEqualFilter().(notEqualTo := Some(v))
  }

  function EqualAny<T(==,!new)>(vs: seq<T>): (f: EqualFilter<T>)
    ensures forall x :: MatchesEqual(f, x) <==> x.Some? && x.value in vs
  {
    NoEqualFilter().(equalAny := Some(vs))
  }

  /** `EqualFilter::equal_any_or_null(vs)`: one of the values, or NULL. */
  function EqualAnyOrNull<T(==,!new)>(vs: seq<T>): (f: EqualFilter<T>)
    ensures forall x :: MatchesEqual(f, x) <==> x.None? || x.value in vs
  {
    NoEqualFilter().(equalAnyOrNull := Some(vs))
  }

  /** `EqualFilter::equal_or_null_bool(b)`: the value `b`, or NULL. */
  function EqualOrNullBool(b: bool): (f: EqualFilter<bool>)
    ensures forall x :: MatchesEqual(f, x) <==> x.None? || x.value == b
  {
    EqualAnyOrNull([b])
  }

  function NotEqualAll<T(==,!new)>(vs: seq<T>): (f: EqualFilter<T>)
    ensures forall x :: MatchesEqual(f, x) <==> x.Some? && x.value !in vs
  {
    NoEqualFilter().(notEqualAll := Some(vs))
  }

  function IsNull<T(==,!new)>(b: bool): (f: EqualFilter<T>)
    ensures forall x :: MatchesEqual(f, x) <==> (x.None? == b)
  {
    NoEqualFilter().(isNull := Some(b))
  }

  /**
   * A column value passes an equal filter when it passes every field that is set; as in SQL,
   * a comparison with NULL never holds, so only `is_null` and the or-null field can select a
   * NULL value.
   */
  predicate MatchesEqual<T(==)>(f: EqualFilter<T>, v: Option<T>)
  {
    && (f.equalTo.Some? ==> v == Some(f.equalTo.value))
    && (f.notEqualTo.Some? ==> v.Some? && v.value != f.notEqualTo.value)
    && (f.equalAny.Some? ==> v.Some? && v.value in f.equalAny.value)
    && (f.equalAnyOrNull.Some? ==> v.None? || v.value in f.equalAnyOrNull.value)
    && (f.notEqualAll.Some? ==> v.Some? && v.value !in f.notEqualAll.value)
    && (f.isNull.Some? ==> v.None? == f.isNull.value)
  }

  /** Timestamps are whole numbers of some fixed unit. */
  datatype DatetimeFilter = DatetimeFilter(
    equalTo: Option<int>,
    beforeOrEqualTo: Option<int>,
    afterOrEqualTo: Option<int>,
    isNull: Option<bool>)

  function DatetimeIsNull(b: bool): (f: DatetimeFilter)
    ensures forall x :: MatchesDatetime(f, x) <==> (x.None? == b)
  {
    DatetimeFilter(None, None, None, Some(b))
  }

  predicate MatchesDatetime(f: DatetimeFilter, v: Option<int>)
  {
    && (f.equalTo.Some? ==> v == Some(f.equalTo.value))
    && (f.beforeOrEqualTo.Some? ==> v.Some? && v.value <= f.beforeOrEqualTo.value)
    && (f.afterOrEqualTo.Some? ==> v.Some? && f.afterOrEqualTo.value <= v.value)
    && (f.isNull.Some? ==> v.None? == f.isNull.value)
  }
}
