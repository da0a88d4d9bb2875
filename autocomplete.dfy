/**
 * The JSON-forms autocomplete control: a choice among configured values or, in free-text mode,
 * any text, kept in a local copy and emitted to the form through `handleChange`.
 */
module Autocomplete {
  import opened Wrappers

  /** The control's `options` in the UI schema, already validated. */
  datatype FormOptions = FormOptions(freeText: Option<bool>, values: Option<seq<string>>)

  /** `schemaOptions?.freeText`, as a condition. */
  predicate FreeText(opts: Option<FormOptions>)
  {
    opts.Some? && opts.value.freeText == Some(true)
  }

  /** `schemaOptions?.values ?? []`. */
  function Values(opts: Option<FormOptions>): seq<string>
  {
    if opts.Some? && opts.value.values.Some? then opts.value.values.value else []
  }

  /** What the underlying autocomplete hands to `onChange`: typed text, a picked option, or null. */
  datatype ChangeValue = Typed(text: string) | Picked(optionLabel: string) | Cleared

  /** The string `onChange` works with. */
  function Candidate(value: ChangeValue): (s: string)
    ensures value.Typed? ==> s == value.text
    ensures value.Picked? ==> s == value.optionLabel
    ensures value.Cleared? ==> s == ""
  {
    match value
    case Typed(text) => text
    case Picked(optionLabel) => optionLabel
    case Cleared => ""
  }

  /** The options shown: one per configured value, labelled with it, in order. */
  function DisplayOptions(opts: Option<FormOptions>): (r: seq<string>)
    ensures |r| == |Values(opts)|
    ensures forall i :: 0 <= i < |r| ==> r[i] == Values(opts)[i]
  {
    var vs := Values(opts);
    seq(|vs|, (i: int) requires 0 <= i < |vs| => vs[i])
  }

  class AutocompleteControl {
    const opts: Option<FormOptions>
    var localData: Option<string>
    /** The values passed to `handleChange(path, …)`, in order. */
    var emitted: seq<Option<string>>

    constructor (opts: Option<FormOptions>, data: Option<string>)
      ensures this.opts == opts && localData == data && emitted == []
    {
      this.opts := opts;
      localData := data;
      emitted := [];
    }

    /**
     * `onChange`: outside free-text mode a string that is not a configured value clears both the
     * local copy and the form value; otherwise the local copy becomes the string and the form gets
     * it, with '' emitted as undefined. So outside free-text mode the form only ever receives one
     * of the options shown or undefined, and picking a non-empty configured value emits exactly it.
     */
    method OnChange(value: ChangeValue)
      modifies this
      ensures !FreeText(opts) && Candidate(value) !in Values(opts) ==>
        localData.None? && emitted == old(emitted) + [None]
      ensures FreeText(opts) || Candidate(value) in Values(opts) ==>
        localData == Some(Candidate(value)) &&
        emitted == old(emitted) + [if Candidate(value) == "" then None else Some(Candidate(value))]
      ensures !FreeText(opts) ==> emitted[|emitted| - 1].Some? ==> emitted[|emitted| - 1].value in DisplayOptions(opts)
      ensures value.Picked? && value.optionLabel in Values(opts) && value.optionLabel != "" ==>
        emitted[|emitted| - 1] == Some(value.optionLabel)
    {
      var s := Candidate(value);
      assert DisplayOptions(opts) == Values(opts);
      if !FreeText(opts) && s !in Values(opts) {
        localData := None;
        emitted := emitted + [None];
      } else {
        localData := Some(s);
        emitted := emitted + [if s == "" then None else Some(s)];
      }
    }

    /** `onClose`: in free-text mode the local copy is emitted; otherwise nothing happens. */
    method OnClose()
      modifies this
      ensures FreeText(opts) ==> emitted == old(emitted) + [localData]
      ensures !FreeText(opts) ==> emitted == old(emitted)
      ensures localData == old(localData)
    {
      if !FreeText(opts) {
        return;
      }
      emitted := emitted + [localData];
    }

    /** `onInputChange`: typing updates the local copy only in free-text mode. */
    method OnInputChange(value: string)
      modifies this
      ensures localData == (if FreeText(opts) then Some(value) else old(localData))
      ensures emitted == old(emitted)
    {
      if FreeText(opts) {
        localData := Some(value);
      }
    }
  }
}
