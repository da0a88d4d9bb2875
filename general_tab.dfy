/** The inbound shipment general tab: the table shows one page of the rows not marked deleted. */
module GeneralTab {
  import opened Sequences

  datatype InboundShipmentItem = InboundShipmentItem(id: string, isDeleted: bool)

  function NotDeleted(row: InboundShipmentItem): bool { !row.isDeleted }

  /** `data.filter(({ isDeleted }) => !isDeleted)`. */
  function ActiveRows(data: seq<InboundShipmentItem>): seq<InboundShipmentItem>
  {
    Filter(data, NotDeleted)
  }

  /** The active rows are the rows of `data` not marked deleted, and every such row is among them. */
  lemma ActiveRowsAreTheUndeleted(data: seq<InboundShipmentItem>)
    ensures forall i :: 0 <= i < |ActiveRows(data)| ==> !ActiveRows(data)[i].isDeleted && ActiveRows(data)[i] in data
    ensures forall i :: 0 <= i < |data| && !data[i].isDeleted ==> data[i] in ActiveRows(data)
  {
  }

  function Min(a: int, b: int): int { if a < b then a else b }

  /** `Array.prototype.slice(start, end)` for non-negative bounds: both clamped to the length. */
  function Slice<T>(s: seq<T>, start: nat, end: nat): seq<T>
  {
    if |s| <= start || end <= start then [] else s[start..Min(end, |s|)]
  }

  /** The slice is empty unless the clamped end is past the clamped start; then it is the elements in between. */
  lemma SliceElements<T>(s: seq<T>, start: nat, end: nat)
    ensures Min(end, |s|) <= Min(start, |s|) ==> Slice(s, start, end) == []
    ensures Min(start, |s|) < Min(end, |s|) ==>
      (|Slice(s, start, end)| == Min(end, |s|) - start &&
       forall i :: 0 <= i < |Slice(s, start, end)| ==> Slice(s, start, end)[i] == s[start + i])
  {
  }

  datatype Pagination = Pagination(offset: nat, first: nat)

  /** What the tab gives the table: the page of active rows and, as the total, the active-row count. */
  datatype TableView = TableView(rows: seq<InboundShipmentItem>, total: nat)

  /** What the tab renders: the active rows, sliced to the page, with the active-row count as the total. */
  function GeneralTabView(data: seq<InboundShipmentItem>, pagination: Pagination): TableView
  {
    var activeRows := ActiveRows(data);
    TableView(Slice(activeRows, pagination.offset, pagination.offset + pagination.first), |activeRows|)
  }

  /**
   * The total counts the active rows; the page holds the active rows from the offset on, at most
   * `first` of them, and none once the offset is past the end.
   */
  lemma GeneralTabPage(data: seq<InboundShipmentItem>, pagination: Pagination)
    ensures GeneralTabView(data, pagination).total == |ActiveRows(data)|
    ensures |GeneralTabView(data, pagination).rows| ==
      if pagination.offset >= |ActiveRows(data)| then 0 else Min(pagination.first, |ActiveRows(data)| - pagination.offset)
    ensures forall i :: 0 <= i < |GeneralTabView(data, pagination).rows| ==>
      GeneralTabView(data, pagination).rows[i] == ActiveRows(data)[pagination.offset + i]
  {
    SliceElements(ActiveRows(data), pagination.offset, pagination.offset + pagination.first);
  }

  /** No deleted row is ever displayed, and a page holds at most `first` rows. */
  lemma DeletedRowsAreNeverShown(data: seq<InboundShipmentItem>, pagination: Pagination)
    ensures forall i :: 0 <= i < |GeneralTabView(data, pagination).rows| ==> !GeneralTabView(data, pagination).rows[i].isDeleted
    ensures |GeneralTabView(data, pagination).rows| <= pagination.first
  {
    ActiveRowsAreTheUndeleted(data);
    SliceElements(ActiveRows(data), pagination.offset, pagination.offset + pagination.first);
  }

  /** Adjacent slices join into the slice spanning both. */
  lemma SliceJoin<T>(s: seq<T>, a: nat, b: nat, c: nat)
    requires a <= b <= c
    ensures Slice(s, a, b) + Slice(s, b, c) == Slice(s, a, c)
  {
    if a < |s| && a < b && b < |s| && b < c {
      assert s[a..b] + s[b..Min(c, |s|)] == s[a..Min(c, |s|)];
    }
  }

  /** Two consecutive pages together are the page that spans both: paging skips and repeats no row. */
  lemma ConsecutivePagesJoin(data: seq<InboundShipmentItem>, offset: nat, first: nat, next: nat)
    ensures GeneralTabView(data, Pagination(offset, first)).rows + GeneralTabView(data, Pagination(offset + first, next)).rows
         == GeneralTabView(data, Pagination(offset, first + next)).rows
  {
    SliceJoin(ActiveRows(data), offset, offset + first, offset + first + next);
  }
}
