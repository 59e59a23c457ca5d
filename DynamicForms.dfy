/**
 * The runtime state of a rendered dynamic form: the text each text field
 * shows, each field's error flag, and the two maps keyed by label that the
 * edit handler writes (`values` and `errors`). Buttons are enabled by their
 * own predicate and by the absence of any recorded error.
 */
module DynamicForms {
  import opened Optional
  import opened FormBuilding
  import ValidatedText

  /** One edit as the form records it: the field's label, the new text, and the validator's verdict. */
  datatype EditEvent = EditEvent(labelText: string, text: string, valid: bool)

  /** The most recent edit of `labelText` in `history`, if there is one. */
  function LatestEdit(history: seq<EditEvent>, labelText: string): (r: Option<EditEvent>)
    ensures r.None? <==> forall k :: 0 <= k < |history| ==> history[k].labelText != labelText
    ensures r.Some? ==> r.value.labelText == labelText
    ensures r.Some? ==> exists k :: 0 <= k < |history| && history[k] == r.value &&
                                    forall j :: k < j < |history| ==> history[j].labelText != labelText
  {
    if |history| == 0 then None
    else if history[|history| - 1].labelText == labelText then Some(history[|history| - 1])
    else LatestEdit(history[..|history| - 1], labelText)
  }

  /** `values` after replaying `history` from an empty map: `values[L] = text` per edit. */
  function ValuesAfter(history: seq<EditEvent>): map<string, string> {
    if |history| == 0 then map[]
    else
      var last := history[|history| - 1];
      ValuesAfter(history[..|history| - 1])[last.labelText := last.text]
  }

  /** `errors` after replaying `history` from an empty map: `errors[L] = !isValid(text)` per edit. */
  function ErrorsAfter(history: seq<EditEvent>): map<string, bool> {
    if |history| == 0 then map[]
    else
      var last := history[|history| - 1];
      ErrorsAfter(history[..|history| - 1])[last.labelText := !last.valid]
  }

  /** The maps hold an entry exactly for the labels edited so far, and it is the latest edit's. */
  lemma {:induction false} ReplayIsLatestEdit(history: seq<EditEvent>, labelText: string)
    ensures labelText in ValuesAfter(history) <==> LatestEdit(history, labelText).Some?
    ensures labelText in ErrorsAfter(history) <==> LatestEdit(history, labelText).Some?
    ensures LatestEdit(history, labelText).Some? ==>
              ValuesAfter(history)[labelText] == LatestEdit(history, labelText).value.text &&
              ErrorsAfter(history)[labelText] == !LatestEdit(history, labelText).value.valid
  {
    if |history| > 0 && history[|history| - 1].labelText != labelText {
      ReplayIsLatestEdit(history[..|history| - 1], labelText);
    }
  }

  /** Two edits of one label (two fields may share it): the later one alone decides both maps. */
  lemma SharedLabelLastWriteWins(history: seq<EditEvent>, first: EditEvent, second: EditEvent)
    requires first.labelText == second.labelText
    ensures ValuesAfter(history + [first, second]) == ValuesAfter(history + [second])
    ensures ErrorsAfter(history + [first, second]) == ErrorsAfter(history + [second])
  {
    assert (history + [first, second])[..|history| + 1] == history + [first];
    assert (history + [first])[..|history|] == history;
    assert (history + [second])[..|history|] == history;
  }

  /** `errors.filter { it.value }`: the entries that record an error. */
  function RecordedErrors(errors: map<string, bool>): (r: map<string, bool>)
    ensures forall l :: l in r <==> l in errors && errors[l]
  {
    map l | l in errors && errors[l] :: errors[l]
  }

  /** `errors.filter { it.value }.isEmpty()`. */
  predicate NoRecordedError(errors: map<string, bool>)
    ensures NoRecordedError(errors) <==> forall l :: l in errors ==> !errors[l]
  {
    var r := RecordedErrors(errors);
    assert |r| != 0 ==> exists l :: l in r.Keys;
    |r| == 0
  }

  /** After any sequence of edits, no error is recorded iff the latest edit of every label was valid. */
  lemma NoRecordedErrorAfterEdits(history: seq<EditEvent>)
    ensures NoRecordedError(ErrorsAfter(history)) <==>
            forall l :: LatestEdit(history, l).Some? ==> LatestEdit(history, l).value.valid
  {
    var errors := ErrorsAfter(history);
    if NoRecordedError(errors) {
      forall l | LatestEdit(history, l).Some? ensures LatestEdit(history, l).value.valid {
        ReplayIsLatestEdit(history, l);
      }
    } else {
      var l :| l in errors && errors[l];
      ReplayIsLatestEdit(history, l);
    }
  }

  /** The text each field position starts with: its `initialValue` for a text field. */
  function InitialTexts(fields: seq<FormField>): (texts: seq<string>)
    ensures |texts| == |fields|
    ensures forall k :: 0 <= k < |fields| && fields[k].Text? ==> texts[k] == fields[k].initialValue
  {
    seq(|fields|, k requires 0 <= k < |fields| => if fields[k].Text? then fields[k].initialValue else "")
  }

  class DynamicForm {
    /** The built fields, in builder call order. */
    const fields: seq<FormField>
    /** Per field position: the text field's remembered `value`. */
    var shown: seq<string>
    /** Per field position: the `showError` flag of the text field rendered there. */
    var showError: seq<bool>
    var values: map<string, string>
    var errors: map<string, bool>
    /** Every edit so far, oldest first. */
    ghost var history: seq<EditEvent>

    ghost predicate Valid()
      reads this
    {
      && |shown| == |fields|
      && |showError| == |fields|
      && values == ValuesAfter(history)
      && errors == ErrorsAfter(history)
    }

    /**
     * Mounting: each text field shows its initial value with no error, and
     * neither map has an entry, so no button is held back by an error yet.
     */
    constructor (fields: seq<FormField>)
      ensures Valid() && this.fields == fields && history == []
      ensures shown == InitialTexts(fields)
      ensures forall k :: 0 <= k < |fields| ==> !showError[k]
      ensures values == map[] && errors == map[]
    {
      this.fields := fields;
      shown := InitialTexts(fields);
      showError := seq(|fields|, k => false);
      values := map[];
      errors := map[];
      history := [];
    }

    /**
     * An edit of the text field at position `i`: the field's text becomes
     * `text`, both maps are written at its label (nothing else changes), and
     * then the field's error flag is recomputed from the same text.
     */
    method Edit(i: nat, text: string)
      requires Valid() && i < |fields| && fields[i].Text?
      modifies this
      ensures Valid()
      ensures shown == old(shown)[i := text]
      ensures values == old(values)[fields[i].labelText := text]
      ensures errors == old(errors)[fields[i].labelText := !fields[i].isValid(text)]
      ensures showError == old(showError)[i := !fields[i].isValid(text)]
      ensures history == old(history) + [EditEvent(fields[i].labelText, text, fields[i].isValid(text))]
    {
      var field := fields[i];
      // what the form's own `onValueChange` does
      shown := shown[i := text];
      values := values[field.labelText := text];
      errors := errors[field.labelText := !field.isValid(text)];
      history := history + [EditEvent(field.labelText, text, field.isValid(text))];
      assert history[..|history| - 1] == old(history);
      // what the validated text field does after forwarding the edit
      showError := showError[i := !field.isValid(text)];
    }

    /** Every button, plain or gated, needs its own predicate and no recorded error. */
    function ButtonEnabled(i: nat): (enabled: bool)
      reads this
      requires i < |fields| && fields[i].Button?
      ensures enabled <==> fields[i].isEnabled() && forall l :: l in errors ==> !errors[l]
    {
      fields[i].isEnabled() && NoRecordedError(errors)
    }

    /** The text field at position `i` shows its own remembered text and its own flag. */
    function RenderText(i: nat): (v: ValidatedText.TextFieldView)
      reads this
      requires Valid() && i < |fields| && fields[i].Text?
      ensures v.value == shown[i] && v.labelText == fields[i].labelText
      ensures v.isError == showError[i]
      ensures v.errorLine.Some? <==> showError[i]
      ensures showError[i] ==> v.errorLine == Some(fields[i].errorMessage.GetOr(""))
    {
      ValidatedText.View(shown[i], fields[i].labelText, showError[i], fields[i].errorMessage)
    }
  }
}
