/**
 * The GraphQL data loader that fetches the items of many vaccine courses with one query and
 * groups them by course id.
 */
module VaccineCourseLoader {
  import opened Wrappers
  import opened Repository
  import opened Sequences

  datatype VaccineCourseItemRow = VaccineCourseItemRow(id: string, vaccineCourseId: string, itemId: string)

  /** The item belongs to course `k`. */
  function OfCourse(k: string): VaccineCourseItemRow -> bool
  {
    (row: VaccineCourseItemRow) => row.vaccineCourseId == k
  }

  /** `vaccine_course_id(EqualFilter::equal_any(ids))`. */
  function InCourses(ids: seq<string>): VaccineCourseItemRow -> bool
  {
    (row: VaccineCourseItemRow) => row.vaccineCourseId in ids
  }

  /** The grouping the loader's loop builds: each item appended to the list of its course. */
  function Grouped(items: seq<VaccineCourseItemRow>): map<string, seq<VaccineCourseItemRow>>
    decreases |items|
  {
    if items == [] then map[]
    else
      var g := Grouped(items[..|items| - 1]);
      var item := items[|items| - 1];
      var id := item.vaccineCourseId;
      g[id := (if id in g then g[id] else []) + [item]]
  }

  /** A course is a key exactly when some item belongs to it. */
  lemma {:induction false} GroupedKeys(items: seq<VaccineCourseItemRow>, k: string)
    ensures k in Grouped(items) <==> exists i :: 0 <= i < |items| && items[i].vaccineCourseId == k
    decreases |items|
  {
    if items != [] {
      var n := |items| - 1;
      var init := items[..n];
      GroupedKeys(init, k);
      if k in Grouped(init) {
        var i :| 0 <= i < |init| && init[i].vaccineCourseId == k;
        assert items[i] == init[i];
      }
      if exists i :: 0 <= i < |items| && items[i].vaccineCourseId == k {
        var i :| 0 <= i < |items| && items[i].vaccineCourseId == k;
        if i < n {
          assert init[i] == items[i];
        }
      }
    }
  }

  /** A course's list holds exactly its items, in query order. */
  lemma {:induction false} GroupedLists(items: seq<VaccineCourseItemRow>, k: string)
    requires k in Grouped(items)
    ensures Grouped(items)[k] == Filter(items, OfCourse(k))
    decreases |items|
  {
    var n := |items| - 1;
    var init := items[..n];
    var item := items[n];
    var g := Grouped(init);
    assert Filter(items, OfCourse(k)) == if OfCourse(k)(item) then Filter(init, OfCourse(k)) + [item] else Filter(init, OfCourse(k));
    if k in g {
      GroupedLists(init, k);
    } else {
      assert k == item.vaccineCourseId;
      var f := Filter(init, OfCourse(k));
      if f != [] {
        assert f[0] in init && f[0].vaccineCourseId == k;
        var i :| 0 <= i < |init| && init[i] == f[0];
        GroupedKeys(init, k);
        assert false;
      }
    }
  }

  /** Filtering by the requested courses, then by one of them, is filtering by that one. */
  lemma {:induction false} FilterInCoursesThenOfCourse(table: seq<VaccineCourseItemRow>, ids: seq<string>, k: string)
    requires k in ids
    ensures Filter(Filter(table, InCourses(ids)), OfCourse(k)) == Filter(table, OfCourse(k))
    decreases |table|
  {
    if table != [] {
      var n := |table| - 1;
      var init, last := table[..n], table[n];
      FilterInCoursesThenOfCourse(init, ids, k);
      var inner := Filter(init, InCourses(ids));
      assert Filter(table, InCourses(ids)) == if InCourses(ids)(last) then inner + [last] else inner;
      assert Filter(table, OfCourse(k)) == if OfCourse(k)(last) then Filter(init, OfCourse(k)) + [last] else Filter(init, OfCourse(k));
      if InCourses(ids)(last) {
        FilterSnoc(inner, last, OfCourse(k));
      } else {
        assert !OfCourse(k)(last);
      }
    }
  }

  /**
   * `load`: query the items of the requested courses, then group them. A connection or query
   * error is returned as it is.
   */
  method Load(ids: seq<string>, table: seq<VaccineCourseItemRow>, fault: Option<RepositoryError>)
    returns (r: Result<map<string, seq<VaccineCourseItemRow>>, RepositoryError>)
    ensures fault.Some? ==> r == Err(fault.value)
    ensures fault.None? ==> r == Ok(Grouped(Filter(table, InCourses(ids))))
  {
    if fault.Some? {
      return Err(fault.value);
    }
    var items := Filter(table, InCourses(ids));
    var m: map<string, seq<VaccineCourseItemRow>> := map[];
    var i := 0;
    while i < |items|
      invariant 0 <= i <= |items|
      invariant m == Grouped(items[..i])
    {
      var item := items[i];
      var id := item.vaccineCourseId;
      var list := if id in m then m[id] else [];
      m := m[id := list + [item]];
      assert items[..i + 1][..i] == items[..i];
      i := i + 1;
    }
    assert items[..i] == items;
    return Ok(m);
  }

  /**
   * What the loader hands back: only requested courses that have items are keys, and each holds
   * all of that course's items in query order.
   */
  lemma LoadedGroupsAreTheCoursesItems(ids: seq<string>, table: seq<VaccineCourseItemRow>, k: string)
    ensures k in Grouped(Filter(table, InCourses(ids))) <==>
      (k in ids && exists i :: 0 <= i < |table| && table[i].vaccineCourseId == k)
    ensures k in Grouped(Filter(table, InCourses(ids))) ==>
      Grouped(Filter(table, InCourses(ids)))[k] == Filter(table, OfCourse(k))
  {
    var items := Filter(table, InCourses(ids));
    GroupedKeys(items, k);
    if k in Grouped(items) {
      GroupedLists(items, k);
      var i :| 0 <= i < |items| && items[i].vaccineCourseId == k;
      assert InCourses(ids)(items[i]);
      var j :| 0 <= j < |table| && table[j] == items[i];
      FilterInCoursesThenOfCourse(table, ids, k);
    }
    if k in ids && exists i :: 0 <= i < |table| && table[i].vaccineCourseId == k {
      var i :| 0 <= i < |table| && table[i].vaccineCourseId == k;
      assert InCourses(ids)(table[i]);
      var j :| 0 <= j < |items| && items[j] == table[i];
    }
  }

  /** The total length of all lists in a grouping. */
  ghost function SizeSum(m: map<string, seq<VaccineCourseItemRow>>): nat
    decreases |m.Keys|
  {
    if m == map[] then 0
    else
      var k :| k in m;
      |m[k]| + SizeSum(m - {k})
  }

  lemma {:induction false} SizeSumRemove(m: map<string, seq<VaccineCourseItemRow>>, k: string)
    requires k in m
    ensures SizeSum(m) == |m[k]| + SizeSum(m - {k})
    decreases |m.Keys|
  {
    var j :| j in m && SizeSum(m) == |m[j]| + SizeSum(m - {j});
    if j != k {
      assert (m - {j}).Keys < m.Keys;
      assert (m - {k}).Keys < m.Keys;
      SizeSumRemove(m - {j}, k);
      SizeSumRemove(m - {k}, j);
      assert m - {j} - {k} == m - {k} - {j};
    }
  }

  /** No item is lost or duplicated by the grouping. */
  lemma {:induction false} GroupedKeepsEveryItem(items: seq<VaccineCourseItemRow>)
    ensures SizeSum(Grouped(items)) == |items|
    decreases |items|
  {
    if items != [] {
      var n := |items| - 1;
      var g := Grouped(items[..n]);
      var id := items[n].vaccineCourseId;
      var v := (if id in g then g[id] else []) + [items[n]];
      GroupedKeepsEveryItem(items[..n]);
      var g' := g[id := v];
      SizeSumRemove(g', id);
      assert g' - {id} == g - {id};
      if id in g {
        SizeSumRemove(g, id);
      } else {
        assert g - {id} == g;
      }
    }
  }
}
