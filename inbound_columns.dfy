/**
 * The inbound shipment detail table's computed columns (note, item, location, unit quantity and
 * number of packs) for a single line and for an item's group of lines, and its default sort.
 */
module InboundColumns {
  import opened Wrappers
  import opened Sequences
  import opened ArrayUtils
  import SortBy

  datatype ItemInfo = ItemInfo(code: string, name: string)

  datatype LocationInfo = LocationInfo(id: string, name: string)

  /** An inbound shipment line; pack sizes and counts are whole numbers here. */
  datatype InboundLine = InboundLine(
    id: string,
    batch: Option<string>,
    note: Option<string>,
    item: ItemInfo,
    location: Option<LocationInfo>,
    packSize: int,
    numberOfPacks: int)

  /** A table row: one line, or an item's group of lines (`'lines' in rowData`). */
  datatype InboundRow = Line(line: InboundLine) | Item(lines: seq<InboundLine>)

  datatype NoteSection = NoteSection(header: string, body: string)

  /** What the note column shows: nothing, one section, or a list of sections. */
  datatype NoteCell = NoNote | Section(section: NoteSection) | Sections(sections: seq<NoteSection>)

  /** The batch as a header and the note as a body; a missing value becomes ''. */
  function NoteSectionOf(line: InboundLine): NoteSection
  {
    NoteSection(line.batch.UnwrapOr(""), line.note.UnwrapOr(""))
  }

  function NoteSectionsOf(lines: seq<InboundLine>): (r: seq<NoteSection>)
    ensures |r| == |lines|
    ensures forall i :: 0 <= i < |lines| ==> r[i] == NoteSectionOf(lines[i])
  {
    seq(|lines|, (i: int) requires 0 <= i < |lines| => NoteSectionOf(lines[i]))
  }

  function HasBody(s: NoteSection): bool { s.body != "" }

  /** The note column: one section per line whose note is not empty, or nothing when there are none. */
  function NoteAccessor(row: InboundRow): NoteCell
  {
    match row
    case Item(lines) =>
      var sections := Filter(NoteSectionsOf(lines), HasBody);
      if |sections| != 0 then Sections(sections) else NoNote
    case Line(line) =>
      if line.note.Some? && line.note.value != "" then Section(NoteSection(line.batch.UnwrapOr(""), line.note.value)) else NoNote
  }

  /** A group's note sections are the sections of its lines in order: appending lines appends sections. */
  lemma NoteSectionsAppend(a: seq<InboundLine>, b: seq<InboundLine>)
    ensures Filter(NoteSectionsOf(a + b), HasBody) == Filter(NoteSectionsOf(a), HasBody) + Filter(NoteSectionsOf(b), HasBody)
  {
    assert NoteSectionsOf(a + b) == NoteSectionsOf(a) + NoteSectionsOf(b);
    FilterAppend(NoteSectionsOf(a), NoteSectionsOf(b), HasBody);
  }

  /**
   * A group shows no note exactly when none of its lines has a non-empty note; otherwise its
   * sections are those of the lines with one, each line's as that line alone would show it.
   */
  lemma GroupNotesAreLineNotes(lines: seq<InboundLine>)
    ensures NoteAccessor(Item(lines)) == NoNote <==> forall i :: 0 <= i < |lines| ==> NoteAccessor(Line(lines[i])) == NoNote
    ensures NoteAccessor(Item(lines)).Sections? ==>
      forall i :: 0 <= i < |lines| && NoteAccessor(Line(lines[i])).Section? ==>
        NoteAccessor(Line(lines[i])).section in NoteAccessor(Item(lines)).sections
    ensures NoteAccessor(Item(lines)).Sections? ==>
      forall j :: 0 <= j < |NoteAccessor(Item(lines)).sections| ==> NoteAccessor(Item(lines)).sections[j].body != ""
  {
    var all := NoteSectionsOf(lines);
    var sections := Filter(all, HasBody);
    if sections != [] {
      assert sections[0] in all && HasBody(sections[0]);
      var i :| 0 <= i < |all| && all[i] == sections[0];
      assert NoteAccessor(Line(lines[i])) != NoNote;
    }
    forall i | 0 <= i < |lines| && NoteAccessor(Line(lines[i])) != NoNote
      ensures all[i] in sections
    {
      assert HasBody(all[i]);
    }
  }

  /** The item columns: the group's common code and name, or '' when its lines differ. */
  function ItemCodeAccessor(row: InboundRow): (r: Option<string>)
    ensures row.Line? ==> r == Some(row.line.item.code)
  {
    match row
    case Item(lines) => IfTheSameElseDefault(seq(|lines|, (i: int) requires 0 <= i < |lines| => lines[i].item.code), "")
    case Line(line) => Some(line.item.code)
  }

  function ItemNameAccessor(row: InboundRow): (r: Option<string>)
    ensures row.Line? ==> r == Some(row.line.item.name)
  {
    match row
    case Item(lines) => IfTheSameElseDefault(seq(|lines|, (i: int) requires 0 <= i < |lines| => lines[i].item.name), "")
    case Line(line) => Some(line.item.name)
  }

  /** A group of lines of one item shows that item's code and name. */
  lemma OneItemGroupShowsItsItem(lines: seq<InboundLine>, item: ItemInfo)
    requires lines != [] && forall i :: 0 <= i < |lines| ==> lines[i].item == item
    ensures ItemCodeAccessor(Item(lines)) == Some(item.code)
    ensures ItemNameAccessor(Item(lines)) == Some(item.name)
  {
    var codes := seq(|lines|, (i: int) requires 0 <= i < |lines| => lines[i].item.code);
    var names := seq(|lines|, (i: int) requires 0 <= i < |lines| => lines[i].item.name);
    assert forall i :: 0 <= i < |codes| ==> codes[i] == codes[0];
    assert forall i :: 0 <= i < |names| ==> names[i] == names[0];
  }

  function HasLocation(line: InboundLine): bool { line.location.Some? }

  /** The location names of the lines that have a location, in order. */
  function LocationNames(lines: seq<InboundLine>): (r: seq<string>)
  {
    var located := Filter(lines, HasLocation);
    seq(|located|, (i: int) requires 0 <= i < |located| => located[i].location.value.name)
  }

  /** The location column: a line's location name or ''; a group's common name among lines with a location. */
  function LocationNameAccessor(row: InboundRow): (r: Option<string>)
    ensures row.Line? ==> r == Some(if row.line.location.Some? then row.line.location.value.name else "")
  {
    match row
    case Item(lines) => IfTheSameElseDefault(LocationNames(lines), "")
    case Line(line) => Some(if line.location.Some? then line.location.value.name else "")
  }

  /** Lines without a location play no part in a group's location name. */
  lemma LocationIgnoresUnlocatedLines(a: seq<InboundLine>, line: InboundLine, b: seq<InboundLine>)
    requires line.location.None?
    ensures LocationNameAccessor(Item(a + [line] + b)) == LocationNameAccessor(Item(a + b))
  {
    FilterAppend(a + [line], b, HasLocation);
    FilterAppend(a, [line], HasLocation);
    FilterAppend(a, b, HasLocation);
    assert Filter([line], HasLocation) == Filter([], HasLocation) by {
      assert [line][..0] == [];
    }
    assert Filter(a + [line] + b, HasLocation) == Filter(a + b, HasLocation);
  }

  /** The reducers `getUnitQuantity` and `getSumOfKeyReducer('numberOfPacks')`, by their names. */
  function UnitQuantityOf(line: InboundLine): int { line.packSize * line.numberOfPacks }

  function SumOf(lines: seq<InboundLine>, f: InboundLine -> int): int
    decreases |lines|
  {
    if lines == [] then 0 else SumOf(lines[..|lines| - 1], f) + f(lines[|lines| - 1])
  }

  function NumberOfPacksOf(line: InboundLine): int { line.numberOfPacks }

  /** The unit quantity column: pack size times packs for a line, summed over a group. */
  function UnitQuantityAccessor(row: InboundRow): int
  {
    match row
    case Item(lines) => SumOf(lines, UnitQuantityOf)
    case Line(line) => line.packSize * line.numberOfPacks
  }

  /** The number-of-packs column: a line's packs, summed over a group. */
  function NumberOfPacksAccessor(row: InboundRow): int
  {
    match row
    case Item(lines) => SumOf(lines, NumberOfPacksOf)
    case Line(line) => line.numberOfPacks
  }

  lemma {:induction false} SumOfAppend(a: seq<InboundLine>, b: seq<InboundLine>, f: InboundLine -> int)
    ensures SumOf(a + b, f) == SumOf(a, f) + SumOf(b, f)
    decreases |b|
  {
    if b == [] {
      assert a + b == a;
    } else {
      assert (a + b)[..|a + b| - 1] == a + b[..|b| - 1];
      SumOfAppend(a, b[..|b| - 1], f);
    }
  }

  /** A group's quantities are the sums of what its lines show on their own. */
  lemma GroupQuantitiesAddUp(a: seq<InboundLine>, b: seq<InboundLine>, line: InboundLine)
    ensures UnitQuantityAccessor(Item(a + b)) == UnitQuantityAccessor(Item(a)) + UnitQuantityAccessor(Item(b))
    ensures NumberOfPacksAccessor(Item(a + b)) == NumberOfPacksAccessor(Item(a)) + NumberOfPacksAccessor(Item(b))
    ensures UnitQuantityAccessor(Item([line])) == UnitQuantityAccessor(Line(line))
    ensures NumberOfPacksAccessor(Item([line])) == NumberOfPacksAccessor(Line(line))
  {
    SumOfAppend(a, b, UnitQuantityOf);
    SumOfAppend(a, b, NumberOfPacksOf);
    assert [line][..0] == [];
    assert SumOf([line], UnitQuantityOf) == UnitQuantityOf(line);
    assert SumOf([line], NumberOfPacksOf) == NumberOfPacksOf(line);
  }

  /** The table sorts by item name, ascending, unless the URL says otherwise. */
  const DefaultSort := SortBy.SortRule("itemName", None)

  lemma DefaultSortIsItemNameAscending()
    ensures SortBy.InitialSortBy(DefaultSort, None, None) == SortBy.SortBy("itemName", false, SortBy.Asc)
  {
  }
}
