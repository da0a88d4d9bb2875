/** The inbound return detail view's choice of the next item to edit after the current one. */
module NextItem {
  import opened Wrappers

  datatype ReturnLine = ReturnLine(id: string, itemId: string)

  /** `Array.findIndex`: the first index whose element satisfies `p` from index `from` on, or -1. */
  function FindIndexFrom(lines: seq<ReturnLine>, from: nat, p: ReturnLine -> bool): (r: int)
    ensures r == -1 || from <= r < |lines|
    ensures r == -1 <==> forall j :: from <= j < |lines| ==> !p(lines[j])
    ensures r != -1 ==> p(lines[r]) && forall j :: from <= j < r ==> !p(lines[j])
    decreases |lines| - from
  {
    if from >= |lines| then -1
    else if p(lines[from]) then from
    else FindIndexFrom(lines, from + 1, p)
  }

  function IsItem(itemId: Option<string>): ReturnLine -> bool
  {
    (line: ReturnLine) => itemId.Some? && line.itemId == itemId.value
  }

  function IsOtherItem(itemId: Option<string>): ReturnLine -> bool
  {
    (line: ReturnLine) => !(itemId.Some? && line.itemId == itemId.value)
  }

  /**
   * `getNextItemId`: the item of the first line, after the first line of the current item, whose
   * item differs from it. Undefined without lines, when the current item is not among them, or
   * when no other item follows it.
   */
  function GetNextItemId(lines: Option<seq<ReturnLine>>, itemId: Option<string>): (r: Option<string>)
  {
    match lines
    case None => None
    case Some(ls) =>
      var current := FindIndexFrom(ls, 0, IsItem(itemId));
      if current == -1 then None
      else
        // `index > currentItemIndex && line.itemId !== itemId`
        var next := FindIndexFrom(ls, current + 1, IsOtherItem(itemId));
        if next == -1 then None else Some(ls[next].itemId)
  }

  /** The current item's first line, when there is one. */
  ghost predicate FirstOfItem(ls: seq<ReturnLine>, itemId: string, c: int)
  {
    0 <= c < |ls| && ls[c].itemId == itemId && forall j :: 0 <= j < c ==> ls[j].itemId != itemId
  }

  /**
   * The next item exists exactly when some line after the current item's first line has a
   * different item; it is the first such line's item, and never the current item.
   */
  lemma NextItemIsFirstOtherItemAfterCurrent(ls: seq<ReturnLine>, itemId: string, c: int)
    requires FirstOfItem(ls, itemId, c)
    ensures GetNextItemId(Some(ls), Some(itemId)).Some? <==> exists k :: c < k < |ls| && ls[k].itemId != itemId
    ensures GetNextItemId(Some(ls), Some(itemId)).Some? ==>
      exists k :: c < k < |ls| && ls[k].itemId != itemId && GetNextItemId(Some(ls), Some(itemId)).value == ls[k].itemId &&
                  forall j :: c < j < k ==> ls[j].itemId == itemId
    ensures GetNextItemId(Some(ls), Some(itemId)) != Some(itemId)
  {
    var current := FindIndexFrom(ls, 0, IsItem(Some(itemId)));
    assert IsItem(Some(itemId))(ls[c]);
    assert current == c by {
      assert !(current < c);
      assert !(current > c);
    }
    var next := FindIndexFrom(ls, c + 1, IsOtherItem(Some(itemId)));
    if exists k :: c < k < |ls| && ls[k].itemId != itemId {
      var k :| c < k < |ls| && ls[k].itemId != itemId;
      assert IsOtherItem(Some(itemId))(ls[k]);
    }
    if next != -1 {
      assert forall j :: c < j < next ==> !IsOtherItem(Some(itemId))(ls[j]);
    }
  }

  /** Without lines, or without a current item among them, there is no next item. */
  lemma NoNextItemWithoutCurrent(lines: Option<seq<ReturnLine>>, itemId: Option<string>)
    requires lines.None? || forall j :: 0 <= j < |lines.value| ==> !IsItem(itemId)(lines.value[j])
    ensures GetNextItemId(lines, itemId).None?
  {
  }

  /** `loadNextItem` is passed to the modal only for a non-empty next item id. */
  predicate LoadNextItemSupplied(nextItemId: Option<string>)
  {
    nextItemId.Some? && nextItemId.value != ""
  }
}
