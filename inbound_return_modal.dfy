/**
 * The inbound return edit modal's step logic: moving from the quantity tab to the reason tab,
 * the zero-quantity alert, and which button fills each slot of the dialog.
 */
module InboundReturnModal {
  import opened Wrappers

  datatype ReturnTab = Quantity | Reason

  datatype ModalMode = Create | Update

  datatype AlertColor = Error | Warning

  datatype DraftReturnLine = DraftReturnLine(id: string, numberOfPacksReturned: int)

  datatype DialogButton = CancelButton | BackButton | NextStepButton | OkButton | OkAndNextButton

  /** Some line returns a non-zero number of packs. */
  predicate AnyReturned(lines: seq<DraftReturnLine>)
  {
    exists i :: 0 <= i < |lines| && lines[i].numberOfPacksReturned != 0
  }

  /** The cancel slot: Cancel on the quantity tab, Back on the reason tab. */
  function CancelSlot(tab: ReturnTab): (b: DialogButton)
    ensures b == CancelButton <==> tab == Quantity
    ensures b == BackButton <==> tab == ReturnTab.Reason
  {
    match tab
    case Quantity => CancelButton
    case Reason => BackButton
  }

  /**
   * The OK slot: NextStep while on the quantity tab unless the zero-quantity warning is showing,
   * when OK saves straight away; OK on the reason tab.
   */
  function OkSlot(tab: ReturnTab, alert: Option<AlertColor>): (b: DialogButton)
    ensures b == NextStepButton <==> tab == Quantity && alert != Some(Warning)
    ensures b == OkButton <==> !(tab == Quantity && alert != Some(Warning))
  {
    if tab == Quantity && alert != Some(Warning) then NextStepButton else OkButton
  }

  /** The next slot holds OK-and-next only when updating with a next item to load. */
  function NextSlot(mode: Option<ModalMode>, hasLoadNextItem: bool): (b: Option<DialogButton>)
    ensures b.Some? <==> mode == Some(Update) && hasLoadNextItem
    ensures b.Some? ==> b.value == OkAndNextButton
  {
    if mode == Some(Update) && hasLoadNextItem then Some(OkAndNextButton) else None
  }

  /** NextStep is disabled without lines; OK-and-next is disabled unless on the reason tab. */
  function NextStepDisabled(lines: seq<DraftReturnLine>): (d: bool)
    ensures d <==> lines == []
  {
    |lines| == 0
  }

  function OkAndNextDisabled(tab: ReturnTab): (d: bool)
    ensures d <==> tab == Quantity
  {
    tab != Reason
  }

  /** The modal's state: the tab shown and the zero-quantity alert; the mode and `loadNextItem` come from its props. */
  class InboundReturnEditModal {
    var currentTab: ReturnTab
    var zeroQuantityAlert: Option<AlertColor>
    const modalMode: Option<ModalMode>
    const hasLoadNextItem: bool

    constructor (modalMode: Option<ModalMode>, hasLoadNextItem: bool)
      ensures currentTab == Quantity && zeroQuantityAlert.None?
      ensures this.modalMode == modalMode && this.hasLoadNextItem == hasLoadNextItem
    {
      currentTab := Quantity;
      zeroQuantityAlert := None;
      this.modalMode := modalMode;
      this.hasLoadNextItem := hasLoadNextItem;
    }

    /**
     * `handleNextStep`: with any packs to return, go to the reason tab; otherwise stay and alert,
     * as an error when creating and as a warning when updating. What the dialog then offers: the
     * reason tab shows Back and OK; after a zero-quantity step on the quantity tab an updating
     * modal's OK slot holds OK (which saves the zero quantities), while a creating modal's still
     * holds NextStep.
     */
    method HandleNextStep(lines: seq<DraftReturnLine>)
      modifies this
      ensures AnyReturned(lines) ==> currentTab == Reason && zeroQuantityAlert == old(zeroQuantityAlert)
      ensures !AnyReturned(lines) ==> currentTab == old(currentTab)
      ensures !AnyReturned(lines) && modalMode == Some(Create) ==> zeroQuantityAlert == Some(Error)
      ensures !AnyReturned(lines) && modalMode == Some(Update) ==> zeroQuantityAlert == Some(Warning)
      ensures !AnyReturned(lines) && modalMode.None? ==> zeroQuantityAlert == old(zeroQuantityAlert)
      ensures AnyReturned(lines) ==> OkSlot(currentTab, zeroQuantityAlert) == OkButton && CancelSlot(currentTab) == BackButton
      ensures !AnyReturned(lines) && modalMode == Some(Update) ==> OkSlot(currentTab, zeroQuantityAlert) == OkButton
      ensures !AnyReturned(lines) && modalMode == Some(Create) && old(currentTab) == Quantity ==>
        OkSlot(currentTab, zeroQuantityAlert) == NextStepButton && CancelSlot(currentTab) == CancelButton
    {
      if exists i :: 0 <= i < |lines| && lines[i].numberOfPacksReturned != 0 {
        currentTab := Reason;
        return;
      }
      match modalMode {
        case Some(Create) => zeroQuantityAlert := Some(Error);
        case Some(Update) => zeroQuantityAlert := Some(Warning);
        case None =>
      }
    }

    /** The Back button returns to the quantity tab. */
    method Back()
      modifies this
      ensures currentTab == Quantity && zeroQuantityAlert == old(zeroQuantityAlert)
    {
      currentTab := Quantity;
    }

    /**
     * `handleNextItem`: when the save succeeds, load the next item (reported in `loadedNext`) and
     * return to the quantity tab; a failed save changes nothing.
     */
    method HandleNextItem(saveSucceeds: bool) returns (loadedNext: bool)
      modifies this
      ensures loadedNext <==> saveSucceeds && hasLoadNextItem
      ensures saveSucceeds ==> currentTab == Quantity && zeroQuantityAlert == old(zeroQuantityAlert)
      ensures !saveSucceeds ==> currentTab == old(currentTab) && zeroQuantityAlert == old(zeroQuantityAlert)
    {
      if !saveSucceeds {
        return false;
      }
      loadedNext := hasLoadNextItem;
      currentTab := Quantity;
    }
  }
}
