/**
 * The pack-size entry cell: a drop-down of the item's pack-unit variants plus an "enter pack
 * size" choice that switches to a number input.
 */
module PackUnitEntry {
  import opened Wrappers
  import opened UnitVariant

  /** The drop-down value meaning "enter a pack size by hand". */
  const EnterPackSize: int := -1

  datatype SelectOption = SelectOption(optionLabel: string, value: int)

  /** Whether manual entry is on when the cell mounts: no variant has the current pack size. */
  function ManualOnMount(variants: Option<seq<UnitNode>>, packSize: int): (r: bool)
    ensures r <==> !(variants.Some? && exists i :: 0 <= i < |variants.value| && variants.value[i].packSize == packSize)
  {
    !(variants.Some? && exists i :: 0 <= i < |variants.value| && variants.value[i].packSize == packSize)
  }

  /** The drop-down options: each variant's short name and pack size, then the enter-pack-size choice. */
  function Options(variants: seq<UnitNode>, enterPackSizeLabel: string): (r: seq<SelectOption>)
    ensures |r| == |variants| + 1
    ensures forall i :: 0 <= i < |variants| ==> r[i] == SelectOption(variants[i].shortName, variants[i].packSize)
    ensures r[|variants|] == SelectOption(enterPackSizeLabel, EnterPackSize)
  {
    seq(|variants|, (i: int) requires 0 <= i < |variants| => SelectOption(variants[i].shortName, variants[i].packSize))
      + [SelectOption(enterPackSizeLabel, EnterPackSize)]
  }

  /** What the drop-down shows as selected. */
  function SelectValue(isEnterPackSize: bool, packSize: int): (v: int)
    ensures isEnterPackSize ==> v == EnterPackSize
    ensures !isEnterPackSize ==> v == packSize
  {
    if isEnterPackSize then EnterPackSize else packSize
  }

  class PackUnitEntryCell {
    /** `variantsControl?.variants`. */
    const variants: Option<seq<UnitNode>>
    var isEnterPackSize: bool
    var shouldFocusInput: bool
    var packSize: int
    /** The rows' pack sizes handed to the (debounced) column setter, in order. */
    var updates: seq<int>

    /** The first render and the mount effect that selects manual entry when no variant matches. */
    constructor (variants: Option<seq<UnitNode>>, initialPackSize: int)
      ensures this.variants == variants && packSize == initialPackSize
      ensures isEnterPackSize == ManualOnMount(variants, initialPackSize)
      ensures !shouldFocusInput && updates == []
    {
      this.variants := variants;
      packSize := initialPackSize;
      shouldFocusInput := false;
      updates := [];
      isEnterPackSize := ManualOnMount(variants, initialPackSize);
    }

    /** The number input: the shown pack size is `newValue || 1`, the setter receives `newValue`. */
    method OnNumberInput(newValue: int)
      modifies this
      ensures packSize == (if newValue == 0 then 1 else newValue)
      ensures updates == old(updates) + [newValue]
      ensures isEnterPackSize == old(isEnterPackSize) && shouldFocusInput == old(shouldFocusInput)
    {
      packSize := if newValue == 0 then 1 else newValue;
      updates := updates + [newValue];
    }

    /**
     * The drop-down: the enter-pack-size choice sets pack size 1 and turns manual entry and focus
     * on; a variant's pack size is taken as it is, with manual entry off.
     */
    method OnSelect(newValue: int)
      modifies this
      ensures newValue == EnterPackSize ==> packSize == 1 && isEnterPackSize && shouldFocusInput
      ensures newValue != EnterPackSize ==> packSize == newValue && !isEnterPackSize && !shouldFocusInput
      ensures updates == old(updates) + [packSize]
      ensures SelectValue(isEnterPackSize, packSize) == newValue
    {
      var isEnterPackSizeSelected := newValue == EnterPackSize;
      var newPackSize := if isEnterPackSizeSelected then 1 else newValue;
      packSize := newPackSize;
      isEnterPackSize := isEnterPackSizeSelected;
      shouldFocusInput := isEnterPackSizeSelected;
      updates := updates + [newPackSize];
    }
  }

  /** A cell opened on a variant's pack size shows that variant selected; any other size shows manual entry. */
  lemma MountSelectsMatchingVariant(variants: seq<UnitNode>, packSize: int, k: int)
    requires 0 <= k < |variants| && variants[k].packSize == packSize
    ensures SelectValue(ManualOnMount(Some(variants), packSize), packSize) == packSize
    ensures Options(variants, "")[k].value == SelectValue(ManualOnMount(Some(variants), packSize), packSize)
  {
  }

  lemma MountWithoutMatchIsManual(variants: Option<seq<UnitNode>>, packSize: int)
    requires variants.None? || forall i :: 0 <= i < |variants.value| ==> variants.value[i].packSize != packSize
    ensures SelectValue(ManualOnMount(variants, packSize), packSize) == EnterPackSize
  {
  }
}
