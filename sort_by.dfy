/**
 * The client's sort-toggle hook: the initial sort taken from the URL or the caller, and the
 * change handler that toggles the direction when the same column is chosen again.
 */
module SortBy {
  import opened Wrappers

  datatype Direction = Asc | Desc

  /** `getDirection`. */
  function GetDirection(isDesc: bool): (d: Direction)
    ensures d == Desc <==> isDesc
    ensures d == Asc <==> !isDesc
  {
    if isDesc then Desc else Asc
  }

  /** A column to sort by and, optionally, whether descending. */
  datatype SortRule = SortRule(key: string, isDesc: Option<bool>)

  /** The hook's state. `isDesc` is always set by the hook itself. */
  datatype SortBy = SortBy(key: string, isDesc: bool, direction: Direction)

  /** The direction shown agrees with the flag. */
  predicate Consistent(s: SortBy)
  {
    s.direction == GetDirection(s.isDesc)
  }

  /** JavaScript truthiness of an optional URL parameter: present and not empty. */
  predicate Truthy(p: Option<string>)
  {
    p.Some? && p.value != ""
  }

  /**
   * The initial state exactly as the hook builds it: the direction comes from the caller's
   * `isDesc`, even when the URL's `desc` parameter overrides the flag.
   */
  function InitialSortByAsWritten(initial: SortRule, sortParam: Option<string>, descParam: Option<string>): (r: SortBy)
    ensures r.direction == GetDirection(initial.isDesc.UnwrapOr(false))
  {
    var initialIsDesc := initial.isDesc.UnwrapOr(false);
    SortBy(
      sortParam.UnwrapOr(initial.key),
      if Truthy(descParam) then descParam.value == "true" else initialIsDesc,
      GetDirection(initialIsDesc))
  }

  /** Opening a page at `?desc=true` with a default ascending sort shows descending data labelled ascending. */
  lemma InitialSortByAsWrittenIsInconsistent()
    ensures InitialSortByAsWritten(SortRule("name", None), None, Some("true")) == SortBy("name", true, Asc)
    ensures !Consistent(InitialSortByAsWritten(SortRule("name", None), None, Some("true")))
  {
  }

  /**
   * The initial state with the direction taken from the flag the state actually holds. The key
   * is the URL's `sort` parameter when present; the flag is the URL's `desc` parameter when it
   * is non-empty, and otherwise the caller's, defaulting to ascending.
   */
  function InitialSortBy(initial: SortRule, sortParam: Option<string>, descParam: Option<string>): (r: SortBy)
    ensures r.key == (if sortParam.Some? then sortParam.value else initial.key)
    ensures Truthy(descParam) ==> (r.isDesc <==> descParam.value == "true")
    ensures !Truthy(descParam) ==> (r.isDesc <==> initial.isDesc == Some(true))
    ensures Consistent(r)
  {
    var s := InitialSortByAsWritten(initial, sortParam, descParam);
    s.(direction := GetDirection(s.isDesc))
  }

  /** The corrected initial state differs from the written one only in the direction, and only when the URL overrides the flag. */
  lemma InitialSortByOnlyFixesDirection(initial: SortRule, sortParam: Option<string>, descParam: Option<string>)
    ensures InitialSortBy(initial, sortParam, descParam).(direction := Asc) == InitialSortByAsWritten(initial, sortParam, descParam).(direction := Asc)
    ensures !Truthy(descParam) ==> InitialSortBy(initial, sortParam, descParam) == InitialSortByAsWritten(initial, sortParam, descParam)
  {
  }

  /** The state updater of `onChangeSortBy`. */
  function NextSortBy(prev: SortBy, rule: SortRule): (r: SortBy)
    ensures r.key == rule.key
    ensures prev.key == rule.key ==> r.isDesc == !prev.isDesc
    ensures prev.key != rule.key ==> r.isDesc == (rule.isDesc == Some(true))
    ensures Consistent(r)
  {
    var newIsDesc := if prev.key == rule.key then !prev.isDesc else rule.isDesc.UnwrapOr(false);
    SortBy(rule.key, newIsDesc, GetDirection(newIsDesc))
  }

  /** Choosing the same column twice restores the original order. */
  lemma NextSortByTogglesBack(prev: SortBy, rule: SortRule)
    requires Consistent(prev) && prev.key == rule.key
    ensures NextSortBy(NextSortBy(prev, rule), rule) == prev
  {
  }

  /** The state of one `useSortBy` hook. */
  class SortByState {
    var sortBy: SortBy

    predicate Valid()
      reads this
    {
      Consistent(sortBy)
    }

    /** `useSortBy`'s initial `useState`, with the direction corrected. */
    constructor (initial: SortRule, sortParam: Option<string>, descParam: Option<string>)
      ensures sortBy == InitialSortBy(initial, sortParam, descParam)
      ensures Valid()
    {
      sortBy := InitialSortBy(initial, sortParam, descParam);
    }

    /** `onChangeSortBy`: apply the updater and return the new state with its direction. */
    method OnChangeSortBy(rule: SortRule) returns (r: SortBy)
      requires Valid()
      modifies this
      ensures sortBy == NextSortBy(old(sortBy), rule)
      ensures r == sortBy
      ensures Valid()
    {
      var next := NextSortBy(sortBy, rule);
      sortBy := next;
      r := next.(direction := GetDirection(next.isDesc));
    }
  }
}
