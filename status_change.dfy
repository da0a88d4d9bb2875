/**
 * The request requisition's status-change split button: its three options, the option selected
 * for the next status, and what confirming it sends.
 */
module StatusChange {
  import opened Wrappers

  datatype RequisitionNodeStatus = Draft | New | Sent | Finalised

  datatype SplitButtonOption = SplitButtonOption(value: RequisitionNodeStatus, labelText: string, isDisabled: bool)

  /**
   * `getStatusOptions`: Draft, Sent and Finalised, all disabled, after which Sent is enabled when
   * the requisition is still a draft. `labelOf` is the translated button text for a status.
   */
  method GetStatusOptions(currentStatus: Option<RequisitionNodeStatus>, labelOf: RequisitionNodeStatus -> string)
    returns (r: seq<SplitButtonOption>)
    ensures |r| == 3
    ensures r[0] == SplitButtonOption(Draft, labelOf(Draft), true)
    ensures r[1].value == Sent && r[1].labelText == labelOf(Sent)
    ensures r[2] == SplitButtonOption(Finalised, labelOf(Finalised), true)
    ensures r[1].isDisabled <==> currentStatus != Some(Draft)
  {
    var options := new SplitButtonOption[3];
    options[0] := SplitButtonOption(Draft, labelOf(Draft), true);
    options[1] := SplitButtonOption(Sent, labelOf(Sent), true);
    options[2] := SplitButtonOption(Finalised, labelOf(Finalised), true);
    if currentStatus == Some(Draft) {
      options[1] := options[1].(isDisabled := false);
    }
    r := options[..];
  }

  /** `options.find(o => o.value === nextStatus)`. */
  function FindOption(options: seq<SplitButtonOption>, value: RequisitionNodeStatus): (r: Option<SplitButtonOption>)
    ensures r.None? <==> forall i :: 0 <= i < |options| ==> options[i].value != value
    ensures r.Some? ==> r.value.value == value && exists i :: 0 <= i < |options| && options[i] == r.value &&
                                                            forall j :: 0 <= j < i ==> options[j].value != value
    decreases |options|
  {
    if options == [] then None
    else if options[0].value == value then Some(options[0])
    else
      var rest := FindOption(options[1..], value);
      assert forall i :: 0 < i < |options| ==> options[i] == options[1..][i - 1];
      if rest.Some? then
        var i :| 0 <= i < |options| - 1 && options[1..][i] == rest.value &&
                 forall j :: 0 <= j < i ==> options[1..][j].value != value;
        assert options[i + 1] == rest.value;
        rest
      else rest
  }

  /**
   * `getNextStatusOption`: without a status, the first option if any; otherwise the option for
   * the status `nextStatus` (the requisition's status flow) gives, or none.
   */
  function GetNextStatusOption(status: Option<RequisitionNodeStatus>, options: seq<SplitButtonOption>,
                               nextStatus: RequisitionNodeStatus -> RequisitionNodeStatus): (r: Option<SplitButtonOption>)
    ensures status.None? ==> r == (if options == [] then None else Some(options[0]))
    ensures status.Some? && r.Some? ==> r.value.value == nextStatus(status.value) && r.value in options
    ensures status.Some? && r.None? ==> forall i :: 0 <= i < |options| ==> options[i].value != nextStatus(status.value)
  {
    match status
    case None => if options == [] then None else Some(options[0])
    case Some(s) => FindOption(options, nextStatus(s))
  }

  /** The button's selection, kept in step with the requisition's status. */
  class StatusChangeButtonState {
    var options: seq<SplitButtonOption>
    var selectedOption: Option<SplitButtonOption>

    /** The hook's first render: the memoised options and the initial selection. */
    constructor (status: Option<RequisitionNodeStatus>, labelOf: RequisitionNodeStatus -> string,
                 nextStatus: RequisitionNodeStatus -> RequisitionNodeStatus)
      ensures |options| == 3
      ensures options[0] == SplitButtonOption(Draft, labelOf(Draft), true)
      ensures options[1] == SplitButtonOption(Sent, labelOf(Sent), status != Some(Draft))
      ensures options[2] == SplitButtonOption(Finalised, labelOf(Finalised), true)
      ensures selectedOption == GetNextStatusOption(status, options, nextStatus)
    {
      var opts := GetStatusOptions(status, labelOf);
      options := opts;
      selectedOption := GetNextStatusOption(status, opts, nextStatus);
    }

    /**
     * After the requisition's status changes, the options are rebuilt for the new status and the
     * selection moves to the option for the status after it, replacing any choice of the user.
     */
    method StatusChanged(status: Option<RequisitionNodeStatus>, labelOf: RequisitionNodeStatus -> string,
                         nextStatus: RequisitionNodeStatus -> RequisitionNodeStatus)
      modifies this
      ensures |options| == 3
      ensures options[0] == SplitButtonOption(Draft, labelOf(Draft), true)
      ensures options[1] == SplitButtonOption(Sent, labelOf(Sent), status != Some(Draft))
      ensures options[2] == SplitButtonOption(Finalised, labelOf(Finalised), true)
      ensures selectedOption == GetNextStatusOption(status, options, nextStatus)
    {
      var opts := GetStatusOptions(status, labelOf);
      options := opts;
      selectedOption := GetNextStatusOption(status, opts, nextStatus);
    }

    /** The user picks another option of the split button. */
    method SetSelectedOption(option: Option<SplitButtonOption>)
      modifies this
      ensures selectedOption == option && options == old(options)
    {
      selectedOption := option;
    }

    /** `onConfirmStatusChange`: the status update sent, or none when nothing is selected. */
    method OnConfirmStatusChange() returns (update: Option<RequisitionNodeStatus>)
      ensures update.None? <==> selectedOption.None?
      ensures update.Some? ==> update.value == selectedOption.value.value
    {
      if selectedOption.None? {
        return None;
      }
      return Some(selectedOption.value.value);
    }

    /** `StatusChangeButton` renders only with a selection, and only when the requisition is editable. */
    predicate IsShown(isDisabled: bool)
      reads this
    {
      selectedOption.Some? && !isDisabled
    }
  }

  /**
   * A draft whose next status is Sent selects the enabled Sent option; no other option is ever
   * enabled, and Sent is enabled only for a draft.
   */
  lemma DraftSelectsEnabledSent(status: Option<RequisitionNodeStatus>, options: seq<SplitButtonOption>,
                                labelOf: RequisitionNodeStatus -> string, nextStatus: RequisitionNodeStatus -> RequisitionNodeStatus)
    requires |options| == 3
    requires options[0] == SplitButtonOption(Draft, labelOf(Draft), true)
    requires options[1] == SplitButtonOption(Sent, labelOf(Sent), status != Some(Draft))
    requires options[2] == SplitButtonOption(Finalised, labelOf(Finalised), true)
    ensures status == Some(Draft) && nextStatus(Draft) == Sent ==>
      GetNextStatusOption(status, options, nextStatus) == Some(SplitButtonOption(Sent, labelOf(Sent), false))
    ensures forall i :: 0 <= i < 3 && !options[i].isDisabled ==> options[i].value == Sent && status == Some(Draft)
    ensures status.Some? && nextStatus(status.value) == New ==> GetNextStatusOption(status, options, nextStatus).None?
  {
    if status == Some(Draft) && nextStatus(Draft) == Sent {
      assert options[0].value != Sent;
    }
  }
}
