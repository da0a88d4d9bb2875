/**
 * The stocktake detail table's computed columns: snapshot, counted, difference and reason, for a
 * single stocktake line and for an item's group of lines.
 */
module StocktakeColumns {
  import opened Wrappers
  import opened Text
  import opened ArrayUtils

  datatype InventoryAdjustmentReason = InventoryAdjustmentReason(id: string, reason: string)

  /** A stocktake line; pack counts are whole numbers here. */
  datatype StocktakeLine = StocktakeLine(
    id: string,
    snapshotNumberOfPacks: int,
    countedNumberOfPacks: Option<int>,
    inventoryAdjustmentReason: Option<InventoryAdjustmentReason>)

  /** A table row: one line, or an item's summary row holding its lines (`'lines' in rowData`). */
  datatype StocktakeRow = Line(line: StocktakeLine) | Summary(lines: seq<StocktakeLine>)

  /** What an accessor hands to the cell: a number, a string, or null. */
  datatype CellValue = Number(n: int) | Label(s: string) | Null

  /** The counted packs, or the snapshot when the line has not been counted. */
  function CountedOrSnapshot(line: StocktakeLine): int
  {
    line.countedNumberOfPacks.UnwrapOr(line.snapshotNumberOfPacks)
  }

  /** The left fold `lines.reduce((total, line) => total + f(line), 0)`. */
  function SumOf(lines: seq<StocktakeLine>, f: StocktakeLine -> int): int
    decreases |lines|
  {
    if lines == [] then 0 else SumOf(lines[..|lines| - 1], f) + f(lines[|lines| - 1])
  }

  function Snapshot(line: StocktakeLine): int { line.snapshotNumberOfPacks }

  function CountedOrZero(line: StocktakeLine): int { line.countedNumberOfPacks.UnwrapOr(0) }

  /** The per-line term the difference column adds up: snapshot minus counted. */
  function ShortfallOf(line: StocktakeLine): int { line.snapshotNumberOfPacks - CountedOrSnapshot(line) }

  /** The displayed per-line difference: counted minus snapshot. */
  function DifferenceOf(line: StocktakeLine): int { CountedOrSnapshot(line) - line.snapshotNumberOfPacks }

  /** The `snapshotNumPacks` accessor. */
  function SnapshotAccessor(row: StocktakeRow): (r: CellValue)
    ensures row.Summary? ==> r == Label(IntToString(SumOf(row.lines, Snapshot)))
    ensures row.Line? ==> r == Number(row.line.snapshotNumberOfPacks)
  {
    match row
    case Summary(lines) => Label(IntToString(SumOf(lines, Snapshot)))
    case Line(line) => Number(line.snapshotNumberOfPacks)
  }

  /** The `countedNumPacks` accessor: an uncounted line adds 0 to its group and shows null on its own. */
  function CountedAccessor(row: StocktakeRow): (r: CellValue)
    ensures row.Summary? ==> r == Label(IntToString(SumOf(row.lines, CountedOrZero)))
    ensures row.Line? && row.line.countedNumberOfPacks.Some? ==> r == Number(row.line.countedNumberOfPacks.value)
    ensures row.Line? && row.line.countedNumberOfPacks.None? ==> r == Null
  {
    match row
    case Summary(lines) => Label(IntToString(SumOf(lines, CountedOrZero)))
    case Line(line) =>
      match line.countedNumberOfPacks
      case Some(c) => Number(c)
      case None => Null
  }

  /** The `difference` accessor as written: the group's shortfall, negated through `total < 0 ? |total| : -total`. */
  function DifferenceAccessor(row: StocktakeRow): CellValue
  {
    match row
    case Summary(lines) =>
      var total := SumOf(lines, ShortfallOf);
      Label(IntToString(if total < 0 then -total else -total))
    case Line(line) => Number(CountedOrSnapshot(line) - line.snapshotNumberOfPacks)
  }

  /** The `difference` sort value as written: a group sorts by the displayed string, a line by its shortfall. */
  function DifferenceSortValue(row: StocktakeRow): CellValue
  {
    match row
    case Summary(lines) =>
      var total := SumOf(lines, ShortfallOf);
      Label(IntToString(if total < 0 then -total else -total))
    case Line(line) => Number(ShortfallOf(line))
  }

  lemma {:induction false} ShortfallIsNegatedDifference(lines: seq<StocktakeLine>)
    ensures SumOf(lines, ShortfallOf) == -SumOf(lines, DifferenceOf)
    decreases |lines|
  {
    if lines != [] {
      ShortfallIsNegatedDifference(lines[..|lines| - 1]);
    }
  }

  lemma {:induction false} DifferenceIsCountedMinusSnapshot(lines: seq<StocktakeLine>)
    ensures SumOf(lines, DifferenceOf) == SumOf(lines, CountedOrSnapshot) - SumOf(lines, Snapshot)
    decreases |lines|
  {
    if lines != [] {
      DifferenceIsCountedMinusSnapshot(lines[..|lines| - 1]);
    }
  }

  /**
   * A group's difference is the sum of its lines' displayed differences, that is the packs
   * counted (the snapshot where a line is uncounted) minus the packs in the snapshot.
   */
  lemma GroupDifferenceIsSumOfLineDifferences(lines: seq<StocktakeLine>)
    ensures DifferenceAccessor(Summary(lines)) == Label(IntToString(SumOf(lines, DifferenceOf)))
    ensures SumOf(lines, DifferenceOf) == SumOf(lines, CountedOrSnapshot) - SumOf(lines, Snapshot)
  {
    ShortfallIsNegatedDifference(lines);
    DifferenceIsCountedMinusSnapshot(lines);
  }

  /**
   * A group sorts by the very text it displays, the sum of its lines' differences rendered as a
   * string, and that text reads back as the sum; a line sorts by a number of the opposite sign.
   */
  lemma GroupDifferenceSortsByDisplayedText(lines: seq<StocktakeLine>)
    ensures DifferenceSortValue(Summary(lines)) == DifferenceAccessor(Summary(lines))
    ensures DifferenceSortValue(Summary(lines)) == Label(IntToString(SumOf(lines, DifferenceOf)))
    ensures DecimalValue(DifferenceSortValue(Summary(lines)).s) == SumOf(lines, DifferenceOf)
  {
    ShortfallIsNegatedDifference(lines);
    IntToStringRoundTrip(SumOf(lines, DifferenceOf));
  }

  /** A single line shows counted minus snapshot, 0 when uncounted, and sorts by the opposite sign. */
  lemma LineDifference(line: StocktakeLine)
    ensures DifferenceAccessor(Line(line)) == Number(DifferenceOf(line))
    ensures line.countedNumberOfPacks.None? ==> DifferenceAccessor(Line(line)) == Number(0)
    ensures DifferenceSortValue(Line(line)) == Number(-DifferenceOf(line))
  {
  }

  /** The reasons of the lines that have one, in order. */
  function ReasonsOf(lines: seq<StocktakeLine>): (r: seq<string>)
    ensures |r| <= |lines|
    ensures |r| == 0 <==> forall i :: 0 <= i < |lines| ==> lines[i].inventoryAdjustmentReason.None?
    ensures forall i :: 0 <= i < |lines| && lines[i].inventoryAdjustmentReason.Some? ==>
      lines[i].inventoryAdjustmentReason.value.reason in r
    ensures forall j :: 0 <= j < |r| ==>
      exists i :: 0 <= i < |lines| && lines[i].inventoryAdjustmentReason.Some? && lines[i].inventoryAdjustmentReason.value.reason == r[j]
    decreases |lines|
  {
    if lines == [] then []
    else
      var init := lines[..|lines| - 1];
      var last := lines[|lines| - 1];
      var rest := ReasonsOf(init);
      assert forall i :: 0 <= i < |init| ==> init[i] == lines[i];
      match last.inventoryAdjustmentReason
      case Some(reason) => rest + [reason.reason]
      case None => rest
  }

  /**
   * `getStocktakeReasons`: a line's own reason or ''; for a group, '' when no line has a reason,
   * the reason when all that have one agree, and `multiple` (the translated word) otherwise.
   */
  function StocktakeReasons(row: StocktakeRow, multiple: string): (r: string)
    ensures row.Line? ==> r == (if row.line.inventoryAdjustmentReason.Some? then row.line.inventoryAdjustmentReason.value.reason else "")
    ensures row.Summary? && (forall i :: 0 <= i < |row.lines| ==> row.lines[i].inventoryAdjustmentReason.None?) ==> r == ""
  {
    match row
    case Summary(lines) =>
      var reasons := ReasonsOf(lines);
      if |reasons| != 0 then IfTheSameElseDefault(reasons, multiple).UnwrapOr("") else ""
    case Line(line) =>
      match line.inventoryAdjustmentReason
      case Some(reason) => reason.reason
      case None => ""
  }

  /** When every line that has a reason has the same one, the group shows it. */
  lemma GroupReasonIsCommon(lines: seq<StocktakeLine>, multiple: string, i: int)
    requires 0 <= i < |lines| && lines[i].inventoryAdjustmentReason.Some?
    requires forall k :: 0 <= k < |lines| && lines[k].inventoryAdjustmentReason.Some? ==>
               lines[k].inventoryAdjustmentReason.value.reason == lines[i].inventoryAdjustmentReason.value.reason
    ensures StocktakeReasons(Summary(lines), multiple) == lines[i].inventoryAdjustmentReason.value.reason
  {
    var reasons := ReasonsOf(lines);
    var ri := lines[i].inventoryAdjustmentReason.value.reason;
    assert ri in reasons;
    forall m | 0 <= m < |reasons| ensures reasons[m] == ri {
      var k :| 0 <= k < |lines| && lines[k].inventoryAdjustmentReason.Some? &&
               lines[k].inventoryAdjustmentReason.value.reason == reasons[m];
    }
  }

  /** Two lines with different reasons make the group show `multiple`. */
  lemma GroupReasonIsMultiple(lines: seq<StocktakeLine>, multiple: string, i: int, j: int)
    requires 0 <= i < |lines| && lines[i].inventoryAdjustmentReason.Some?
    requires 0 <= j < |lines| && lines[j].inventoryAdjustmentReason.Some?
    requires lines[j].inventoryAdjustmentReason.value.reason != lines[i].inventoryAdjustmentReason.value.reason
    ensures StocktakeReasons(Summary(lines), multiple) == multiple
  {
    var reasons := ReasonsOf(lines);
    var ri := lines[i].inventoryAdjustmentReason.value.reason;
    var rj := lines[j].inventoryAdjustmentReason.value.reason;
    assert ri in reasons && rj in reasons;
    var a :| 0 <= a < |reasons| && reasons[a] == ri;
    var b :| 0 <= b < |reasons| && reasons[b] == rj;
    assert reasons[a] != reasons[b];
  }

  /** When every line that has a reason has the same one, the group shows it; two different reasons show `multiple`. */
  lemma GroupReasonIsCommonOrMultiple(lines: seq<StocktakeLine>, multiple: string, i: int, j: int)
    requires 0 <= i < |lines| && lines[i].inventoryAdjustmentReason.Some?
    ensures (forall k :: 0 <= k < |lines| && lines[k].inventoryAdjustmentReason.Some? ==>
              lines[k].inventoryAdjustmentReason.value.reason == lines[i].inventoryAdjustmentReason.value.reason) ==>
            StocktakeReasons(Summary(lines), multiple) == lines[i].inventoryAdjustmentReason.value.reason
    ensures (0 <= j < |lines| && lines[j].inventoryAdjustmentReason.Some? &&
             lines[j].inventoryAdjustmentReason.value.reason != lines[i].inventoryAdjustmentReason.value.reason) ==>
            StocktakeReasons(Summary(lines), multiple) == multiple
  {
    if forall k :: 0 <= k < |lines| && lines[k].inventoryAdjustmentReason.Some? ==>
         lines[k].inventoryAdjustmentReason.value.reason == lines[i].inventoryAdjustmentReason.value.reason {
      GroupReasonIsCommon(lines, multiple, i);
    }
    if 0 <= j < |lines| && lines[j].inventoryAdjustmentReason.Some? &&
       lines[j].inventoryAdjustmentReason.value.reason != lines[i].inventoryAdjustmentReason.value.reason {
      GroupReasonIsMultiple(lines, multiple, i, j);
    }
  }
}
